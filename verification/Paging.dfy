/** Paged listings, and the searches by name that read them. */
module Paging {
  import opened Wrappers
  import opened CloudTypes
  import opened Capacity

  const PAGE_SIZE: nat := 20

  function Min(a: nat, b: nat): nat {
    if a < b then a else b
  }

  /** Page number `num` (from 1) of a listing. */
  function Page<T>(listing: seq<T>, num: nat): seq<T>
    requires num >= 1
  {
    listing[Min((num - 1) * PAGE_SIZE, |listing|)..Min(num * PAGE_SIZE, |listing|)]
  }

  /** Pages 1 to `n`, page k being read from the listing as it is at call number k. */
  function Pages<T>(listing: nat -> seq<T>, n: nat): seq<T> {
    if n == 0 then [] else Pages(listing, n - 1) + Page(listing(n), n)
  }

  function PageCount(count: nat): nat {
    count / PAGE_SIZE + if count % PAGE_SIZE != 0 then 1 else 0
  }

  /** What a paged search collects when call k sees `listing(k)`; call 0 is the counting call. */
  function Collected<T>(listing: nat -> seq<T>): seq<T> {
    if |listing(0)| > PAGE_SIZE then Pages(listing, PageCount(|listing(0)|)) else listing(0)
  }

  /**
   The paging loop. `listing(k)` is the cloud's listing when call k is answered and
   `fails(k)` says that call k reports an error.
   */
  method ListAll<T>(listing: nat -> seq<T>, fails: nat -> bool) returns (r: Option<seq<T>>, calls: nat)
    ensures r.Some? ==> r.value == Collected(listing)
    ensures r.None? <==> exists k :: 0 <= k < calls && fails(k)
    ensures calls <= 1 + PageCount(|listing(0)|)
  {
    calls := 1;
    if fails(0) {
      return None, calls;
    }
    var count := |listing(0)|;
    if count == 0 {
      return Some([]), calls;
    }
    var all: seq<T> := [];
    if count > PAGE_SIZE {
      var apiCallNum := count / PAGE_SIZE;
      if count % PAGE_SIZE != 0 {
        apiCallNum := apiCallNum + 1;
      }
      var pageNum := 1;
      for ra := 0 to apiCallNum
        invariant pageNum == ra + 1 == calls
        invariant all == Pages(listing, ra)
        invariant forall k :: 0 <= k < calls ==> !fails(k)
      {
        calls := calls + 1;
        if fails(ra + 1) {
          return None, calls;
        }
        all := all + Page(listing(ra + 1), pageNum);
        pageNum := pageNum + 1;
      }
    } else {
      all := all + Page(listing(0), 1);
    }
    return Some(all), calls;
  }

  lemma {:induction false} PagesArePrefix<T>(listing: nat -> seq<T>, whole: seq<T>, n: nat)
    requires forall k :: listing(k) == whole
    ensures Pages(listing, n) == whole[..Min(n * PAGE_SIZE, |whole|)]
  {
    if n > 0 {
      PagesArePrefix(listing, whole, n - 1);
    }
  }

  /** A listing that does not change is collected whole and in order, whatever its size. */
  lemma StableListingIsWhole<T>(listing: nat -> seq<T>, whole: seq<T>)
    requires forall k :: listing(k) == whole
    ensures Collected(listing) == whole
  {
    var n := PageCount(|whole|);
    PagesArePrefix(listing, whole, n);
    assert n * PAGE_SIZE >= |whole|;
  }

  /** Up to one page, the first answer is used as it is, and later changes do not matter. */
  lemma OnePageNeedsNoStability<T>(listing: nat -> seq<T>)
    requires |listing(0)| <= PAGE_SIZE
    ensures Collected(listing) == listing(0)
  {
  }

  predicate Distinct<T(==)>(list: seq<T>) {
    forall i, j :: 0 <= i < j < |list| ==> list[i] != list[j]
  }

  /** The listing loses its first entry after the first page has been read. */
  function Shrinking<T>(whole: seq<T>): nat -> seq<T> {
    (k: nat) => if k <= 1 || whole == [] then whole else whole[1..]
  }

  /** What has been read of it after `n` page calls: everything but the first entry of the second page. */
  function ShrunkPrefix<T>(whole: seq<T>, n: nat): seq<T>
    requires |whole| > PAGE_SIZE && n >= 1
  {
    whole[..PAGE_SIZE] + whole[PAGE_SIZE + 1..Min(n * PAGE_SIZE + 1, |whole|)]
  }

  lemma ShrunkStep<T>(whole: seq<T>, n: nat)
    requires |whole| > PAGE_SIZE && n >= 2
    ensures ShrunkPrefix(whole, n - 1) + Page(whole[1..], n) == ShrunkPrefix(whole, n)
  {
    var a, b := Min((n - 1) * PAGE_SIZE, |whole| - 1), Min(n * PAGE_SIZE, |whole| - 1);
    assert Page(whole[1..], n) == whole[1..][a..b] == whole[a + 1..b + 1];
    assert ShrunkPrefix(whole, n - 1) == whole[..PAGE_SIZE] + whole[PAGE_SIZE + 1..a + 1];
    assert ShrunkPrefix(whole, n) == whole[..PAGE_SIZE] + whole[PAGE_SIZE + 1..b + 1];
  }

  lemma {:induction false} PagesOfShrinking<T>(whole: seq<T>, n: nat)
    requires |whole| > PAGE_SIZE && n >= 1
    ensures Pages(Shrinking(whole), n) == ShrunkPrefix(whole, n)
  {
    var listing := Shrinking(whole);
    if n == 1 {
      assert Pages(listing, 0) == [];
      assert Pages(listing, 1) == Page(whole, 1);
    } else {
      PagesOfShrinking(whole, n - 1);
      ShrunkStep(whole, n);
      assert listing(n) == whole[1..];
    }
  }

  /**
   Beyond one page stability is needed: when the first entry goes away between two calls,
   the first entry of the second page is skipped although it was there all along.
   */
  lemma ShrinkingListingSkips<T>(whole: seq<T>)
    requires Distinct(whole) && |whole| > PAGE_SIZE
    ensures whole[PAGE_SIZE] !in Collected(Shrinking(whole))
    ensures forall k: nat :: whole[PAGE_SIZE] in Shrinking(whole)(k)
  {
    PagesOfShrinking(whole, PageCount(|whole|));
    forall k: nat ensures whole[PAGE_SIZE] in Shrinking(whole)(k) {
      assert k > 1 ==> whole[1..][PAGE_SIZE - 1] == whole[PAGE_SIZE];
    }
  }

  /** However a listing that counts `count` entries evolves, an entry that stays in it is collected. */
  ghost predicate AlwaysCollected<T(!new)>(count: nat) {
    forall listing: nat -> seq<T>, x: T :: |listing(0)| == count && (forall k: nat :: x in listing(k)) ==> x in Collected(listing)
  }

  /** The exact condition: that is guaranteed if and only if the count fits one page. */
  lemma CollectedExactlyUpToOnePage<T(!new)>(whole: seq<T>)
    requires Distinct(whole)
    ensures AlwaysCollected<T>(|whole|) <==> |whole| <= PAGE_SIZE
  {
    if |whole| <= PAGE_SIZE {
      forall listing: nat -> seq<T>, x: T | |listing(0)| == |whole| && (forall k: nat :: x in listing(k))
        ensures x in Collected(listing)
      {
        OnePageNeedsNoStability(listing);
        assert x in listing(0);
      }
    } else {
      ShrinkingListingSkips(whole);
      assert Shrinking(whole)(0) == whole;
    }
  }

  // ---------------------------------------------------------------- searches

  datatype DiskLookup = Found(disk: Disk) | SizeConflict(conflicting: Disk) | NotThere | LookupFailed

  /** A disk the search by name may answer with. */
  predicate Candidate(d: Disk, zone: string, typ: int) {
    d.status != Recycled && d.zone == zone && d.typ == typ
  }

  function FirstMatch(list: seq<Disk>, zone: string, size: int64, typ: int): DiskLookup {
    if list == [] then NotThere
    else if !Candidate(list[0], zone, typ) then FirstMatch(list[1..], zone, size, typ)
    else if list[0].size != size then SizeConflict(list[0])
    else Found(list[0])
  }

  /** The scan of the collected listing, as the driver's loop does it. */
  method ScanForVolume(list: seq<Disk>, zone: string, size: int64, diskType: string) returns (r: DiskLookup)
    ensures r == FirstMatch(list, zone, size, StringToType(diskType))
  {
    for c := 0 to |list|
      invariant FirstMatch(list, zone, size, StringToType(diskType)) == FirstMatch(list[c..], zone, size, StringToType(diskType))
    {
      var d := list[c];
      assert list[c..][1..] == list[c + 1..];
      if d.status == Recycled {
        continue;
      }
      if zone == d.zone {
        if d.typ == StringToType(diskType) {
          if d.size != size {
            return SizeConflict(d);
          }
          return Found(d);
        }
      }
    }
    return NotThere;
  }

  /** The whole search: page through the listing, then scan it. */
  method FindVolumeByName(listing: nat -> seq<Disk>, fails: nat -> bool, zone: string, size: int64, diskType: string)
    returns (r: DiskLookup, calls: nat)
    ensures r != LookupFailed ==> r == FirstMatch(Collected(listing), zone, size, StringToType(diskType))
    ensures r == LookupFailed <==> exists k :: 0 <= k < calls && fails(k)
  {
    var all;
    all, calls := ListAll(listing, fails);
    if all.None? {
      return LookupFailed, calls;
    }
    r := ScanForVolume(all.value, zone, size, diskType);
    FirstMatchMeaning(all.value, zone, size, StringToType(diskType));
  }

  /** Position `i` holds the first candidate of the listing. */
  predicate FirstCandidateAt(list: seq<Disk>, zone: string, typ: int, i: nat) {
    && i < |list| && Candidate(list[i], zone, typ)
    && forall j :: 0 <= j < i ==> !Candidate(list[j], zone, typ)
  }

  /** The search answers with the first candidate, an error carrying it if its size differs, or nothing. */
  lemma {:induction false} FirstMatchMeaning(list: seq<Disk>, zone: string, size: int64, typ: int)
    ensures FirstMatch(list, zone, size, typ) == NotThere <==> forall d :: d in list ==> !Candidate(d, zone, typ)
    ensures forall i: nat :: FirstCandidateAt(list, zone, typ, i) ==>
      FirstMatch(list, zone, size, typ) == if list[i].size == size then Found(list[i]) else SizeConflict(list[i])
    ensures FirstMatch(list, zone, size, typ) != NotThere ==> exists i: nat :: FirstCandidateAt(list, zone, typ, i)
    ensures FirstMatch(list, zone, size, typ) != LookupFailed
  {
    if list != [] {
      var rest := list[1..];
      FirstMatchMeaning(rest, zone, size, typ);
      if Candidate(list[0], zone, typ) {
        assert FirstCandidateAt(list, zone, typ, 0);
        assert list[0] in list;
      } else {
        forall i: nat | FirstCandidateAt(list, zone, typ, i)
          ensures i > 0 && FirstCandidateAt(rest, zone, typ, i - 1)
        {
          assert rest[i - 1] == list[i];
          forall j | 0 <= j < i - 1 ensures !Candidate(rest[j], zone, typ) {
            assert rest[j] == list[j + 1];
          }
        }
        if FirstMatch(rest, zone, size, typ) != NotThere {
          var i: nat :| FirstCandidateAt(rest, zone, typ, i);
          forall j | 0 <= j < i + 1 ensures !Candidate(list[j], zone, typ) {
            assert j > 0 ==> list[j] == rest[j - 1];
          }
          assert list[i + 1] == rest[i];
          assert FirstCandidateAt(list, zone, typ, i + 1);
        }
      }
    }
  }

  datatype SnapLookup = SnapFound(snap: Snap) | OtherSource(other: Snap) | SnapNotThere | SnapLookupFailed

  /** Only the first entry of the listing is looked at, whatever its source. */
  function FirstSnap(list: seq<Snap>, src: Id): SnapLookup {
    if list == [] then SnapNotThere
    else if list[0].src == src then SnapFound(list[0])
    else OtherSource(list[0])
  }

  method FindSnapshotByName(listing: nat -> seq<Snap>, fails: nat -> bool, src: Id)
    returns (r: SnapLookup, calls: nat)
    ensures r != SnapLookupFailed ==> r == FirstSnap(Collected(listing), src)
    ensures r == SnapLookupFailed <==> exists k :: 0 <= k < calls && fails(k)
  {
    var all;
    all, calls := ListAll(listing, fails);
    if all.None? {
      return SnapLookupFailed, calls;
    }
    for c := 0 to |all.value|
      invariant c == 0
    {
      if all.value[c].src == src {
        return SnapFound(all.value[c]), calls;
      } else {
        return OtherSource(all.value[c]), calls;
      }
    }
    return SnapNotThere, calls;
  }
}
