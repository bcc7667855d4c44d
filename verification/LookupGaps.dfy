/**
 How many disks may bear one name before the search for it becomes unreliable: exactly as
 many as fit one page of a listing.
 */
module LookupGaps {
  import opened Wrappers
  import opened CloudTypes
  import opened Capacity
  import opened Paging
  import opened ControllerProgram
  import opened ControllerSystem
  import opened DiskUniqueness
  import opened Expansion
  import opened Reaching

  /** A run in which only the driver creates, nothing is restored, and no listing counts more than `bound` entries. */
  ghost predicate BoundedRun(ss: seq<State>, ls: seq<Label>, bound: nat) {
    && IsRun(ss, ls) && UniqueDisks(ss[0].cloud, {Recycled})
    && forall k :: 0 <= k < |ls| ==> OnlyDriverCreates(ss[k], ls[k], {Recycled}) && CountsAtMost(ls[k], bound)
  }

  /** In every such run at most one usable disk exists per name, zone, group and type. */
  ghost predicate StaysUnique(bound: nat) {
    forall ss: seq<State>, ls: seq<Label> :: BoundedRun(ss, ls, bound) ==> UniqueDisks(ss[|ls|].cloud, {Recycled})
  }

  // ---------------------------------------------------------------- up to one page

  predicate Paged(t: Rpc) {
    t.phase.Running? && t.phase.body.Cv? && t.phase.body.cvAt.CvPages?
  }

  lemma OnlyLongListingsArePaged(t: Rpc, r: Reply)
    requires WellFormedRpc(t) && Active(t) && Paged(Resume(t, r))
    ensures Paged(t) || (r.DiskPage? && r.total > PAGE_SIZE)
  {
    if t.phase.Running? {
      AdvanceIsGood(t.phase.body, t.req, r);
    }
  }

  lemma {:induction false} NeverPaged(ss: seq<State>, ls: seq<Label>, n: nat, i: nat)
    requires BoundedRun(ss, ls, PAGE_SIZE) && n < |ss| && i in ss[n].rpcs
    ensures !Paged(ss[n].rpcs[i])
  {
    if n > 0 {
      assert StepsTo(ss, ls, n - 1) && CountsAtMost(ls[n - 1], PAGE_SIZE);
      LocksAreOwned(ss, ls, n - 1);
      if i in ss[n - 1].rpcs {
        NeverPaged(ss, ls, n - 1, i);
      }
      StaysUnpaged(ss[n - 1], ls[n - 1], i);
    }
  }

  lemma StaysUnpaged(s: State, l: Label, i: nat)
    requires Inv(s) && Enabled(s, l) && CountsAtMost(l, PAGE_SIZE) && i in Apply(s, l).rpcs
    requires i in s.rpcs ==> !Paged(s.rpcs[i])
    ensures !Paged(Apply(s, l).rpcs[i])
  {
    FaresInStep(s, l, i);
    if MoveOf(l, i).Moved? && Paged(Resume(s.rpcs[i], l.reply)) {
      OnlyLongListingsArePaged(s.rpcs[i], l.reply);
    }
  }

  lemma OnePageIsEnough(ss: seq<State>, ls: seq<Label>)
    requires BoundedRun(ss, ls, PAGE_SIZE)
    ensures UniqueDisks(ss[|ls|].cloud, {Recycled})
  {
    forall k | 0 <= k < |ls| ensures ListingKeepsPlace(ss[k], ls[k]) {
      if ls[k].Drive? && ls[k].i in ss[k].rpcs {
        NeverPaged(ss, ls, k, ls[k].i);
      }
    }
    AtMostOneDisk(ss, ls, |ls|, {Recycled});
  }

  // ---------------------------------------------------------------- one entry more

  /** The disks of a list, by id. */
  function ById(list: seq<Disk>): map<Id, Disk> {
    if list == [] then map[] else ById(list[..|list| - 1])[list[|list| - 1].id := list[|list| - 1]]
  }

  predicate DistinctIds(list: seq<Disk>) {
    forall a, b :: 0 <= a < b < |list| ==> list[a].id != list[b].id
  }

  lemma {:induction false} ByIdHolds(list: seq<Disk>)
    requires DistinctIds(list)
    ensures forall d :: d in list <==> d.id in ById(list) && ById(list)[d.id] == d
    ensures forall id :: id in ById(list) ==> ById(list)[id].id == id && ById(list)[id] in list
  {
    if list != [] {
      var n := |list| - 1;
      ByIdHolds(list[..n]);
      forall d ensures d in list <==> d.id in ById(list) && ById(list)[d.id] == d {
        if d in list[..n] {
          var k :| 0 <= k < n && list[k] == d;
        }
      }
    }
  }

  /** A full page of recycled disks of the request's name, listed before a usable one. */
  predicate Hides(req: Request, whole: seq<Disk>) {
    && req.CreateVolume? && req.plan.Planned? && req.source.Empty? && Precheck(req).None? && Creatable(JobOf(req))
    && |whole| == PAGE_SIZE + 1 && DistinctIds(whole)
    && (forall k :: 0 <= k <= PAGE_SIZE ==> Matches(whole[k], JobOf(req)))
    && (forall k :: 0 <= k < PAGE_SIZE ==> whole[k].status == Recycled)
    && whole[PAGE_SIZE].status != Recycled
  }

  function BirthsOf(disks: map<Id, Disk>): map<Id, Birth> {
    map id | id in disks :: Birth(disks[id].zone, disks[id].group)
  }

  function StartOf(whole: seq<Disk>): State {
    State({}, map[], Cloud(ById(whole), map[], map[], BirthsOf(ById(whole)), {}))
  }

  lemma StartIsInitial(req: Request, whole: seq<Disk>)
    requires Hides(req, whole)
    ensures Initial(StartOf(whole)) && UniqueDisks(StartOf(whole).cloud, {Recycled})
    ensures var job := JobOf(req); IsDiskListing(StartOf(whole).cloud, job.name, job.zone, job.group, whole)
  {
    ByIdHolds(whole);
    var c := StartOf(whole).cloud;
    forall a, b | a in c.disks && b in c.disks && a != b ensures c.disks[a].status == Recycled || c.disks[b].status == Recycled {
      assert c.disks[a] in whole && c.disks[b] in whole;
    }
  }

  function At(req: Request, at: CvAt): Rpc
    requires req.CreateVolume? && req.plan.Planned?
  {
    Rpc(req, Running(Cv(JobOf(req), at)), [req.name])
  }

  /** A page of a listing as it is may be the answer to a page call. */
  lemma ReachPage(g: Scene, s: State, req: Request, at: CvAt, pageNum: nat, list: seq<Disk>, t: Rpc)
    requires OthersFinished(g, s, 0) && Reachable(g, s) && 0 in s.rpcs && |list| <= g.maxCount
    requires req.CreateVolume? && req.plan.Planned? && s.rpcs[0] == At(req, at) && pageNum >= 1
    requires var job := JobOf(req);
      && CallOf(Cv(job, at)) == ListDisks(job.name, job.zone, job.group, pageNum)
      && IsDiskListing(s.cloud, job.name, job.zone, job.group, list)
    requires t == Resume(s.rpcs[0], DiskPage(|list|, Page(list, pageNum)))
    requires NextAction(s.rpcs[0]) == Ask(CallOf(Cv(JobOf(req), at)))
    ensures Reachable(g, With(s, 0, t, s.locks, s.cloud))
  {
    var job, r := JobOf(req), DiskPage(|list|, Page(list, pageNum));
    assert IsDiskPage(s.cloud, job.name, job.zone, job.group, pageNum, r);
    ReachDrive(g, s, 0, r, NoEffect, t, s.locks, s.cloud);
  }

  /** How the search goes on with each of its three answers. */
  lemma SearchGoesOn(req: Request, whole: seq<Disk>)
    requires Hides(req, whole)
    ensures Resume(At(req, CvLookup), DiskPage(|whole|, Page(whole, 1))) == At(req, CvPages(0, 2, []))
    ensures Resume(At(req, CvPages(0, 2, [])), DiskPage(|whole|, Page(whole, 1))) == At(req, CvPages(1, 2, whole[..PAGE_SIZE]))
  {
    assert PageCount(|whole|) == 2;
    assert Page(whole, 1) == whole[..PAGE_SIZE] && [] + whole[..PAGE_SIZE] == whole[..PAGE_SIZE];
  }

  lemma SearchEndsInVain(req: Request, whole: seq<Disk>)
    requires Hides(req, whole)
    ensures Resume(At(req, CvPages(1, 2, whole[..PAGE_SIZE])), DiskPage(|whole[1..]|, Page(whole[1..], 2))) == At(req, CvCreate)
  {
    assert Page(whole[1..], 2) == [] && whole[..PAGE_SIZE] + [] == whole[..PAGE_SIZE];
    AllRecycledIsNotThere(whole[..PAGE_SIZE], JobOf(req));
  }

  /** The first call counts more than a page. */
  lemma ReachCount(req: Request, whole: seq<Disk>) returns (s: State)
    requires Hides(req, whole)
    ensures s == With(StartOf(whole), 0, At(req, CvPages(0, 2, [])), {req.name}, StartOf(whole).cloud)
    ensures Reachable(Scene(StartOf(whole), true, PAGE_SIZE + 1, ANYTHING_GOES), s)
  {
    var s0 := StartOf(whole);
    var g := Scene(s0, true, PAGE_SIZE + 1, ANYTHING_GOES);
    StartIsInitial(req, whole);
    ReachStart(g);
    ReachFirstPoint(g, s0, 0, req, Cv(JobOf(req), CvLookup));
    var s1 := With(s0, 0, At(req, CvLookup), {} + {req.name}, s0.cloud);
    SearchGoesOn(req, whole);
    ReachPage(g, s1, req, CvLookup, 1, whole, At(req, CvPages(0, 2, [])));
    s := With(s1, 0, At(req, CvPages(0, 2, [])), s1.locks, s0.cloud);
    assert s == With(s0, 0, At(req, CvPages(0, 2, [])), {req.name}, s0.cloud);
  }

  /** The first page read shows only recycled disks. */
  lemma ReachFirstPage(req: Request, whole: seq<Disk>) returns (s: State)
    requires Hides(req, whole)
    ensures s == With(StartOf(whole), 0, At(req, CvPages(1, 2, whole[..PAGE_SIZE])), {req.name}, StartOf(whole).cloud)
    ensures Reachable(Scene(StartOf(whole), true, PAGE_SIZE + 1, ANYTHING_GOES), s)
  {
    var s0 := StartOf(whole);
    var g := Scene(s0, true, PAGE_SIZE + 1, ANYTHING_GOES);
    var s1 := ReachCount(req, whole);
    StartIsInitial(req, whole);
    SearchGoesOn(req, whole);
    ReachPage(g, s1, req, CvPages(0, 2, []), 1, whole, At(req, CvPages(1, 2, whole[..PAGE_SIZE])));
    s := With(s1, 0, At(req, CvPages(1, 2, whole[..PAGE_SIZE])), s1.locks, s0.cloud);
    assert s == With(s0, 0, At(req, CvPages(1, 2, whole[..PAGE_SIZE])), {req.name}, s0.cloud);
  }

  /** A list of disks in the bin only is no find. */
  lemma {:induction false} AllRecycledIsNotThere(list: seq<Disk>, job: CreateJob)
    requires forall k :: 0 <= k < |list| ==> list[k].status == Recycled
    ensures LookupIn(job, list) == NotThere
  {
    FirstMatchMeaning(list, job.zone, SizeGib(job), job.typ);
  }

  /** The first of the recycled disks goes away. */
  lemma ReachVanished(req: Request, whole: seq<Disk>) returns (s: State)
    requires Hides(req, whole)
    ensures Reachable(Scene(StartOf(whole), true, PAGE_SIZE + 1, ANYTHING_GOES), s)
    ensures s.rpcs == map[0 := At(req, CvPages(1, 2, whole[..PAGE_SIZE]))]
    ensures s.cloud == AfterEvent(StartOf(whole).cloud, Vanish(whole[0].id))
    ensures var job := JobOf(req); IsDiskListing(s.cloud, job.name, job.zone, job.group, whole[1..])
  {
    var s1 := ReachFirstPage(req, whole);
    StartIsInitial(req, whole);
    s := s1.(cloud := AfterEvent(s1.cloud, Vanish(whole[0].id)));
    assert whole[0] in whole;
    ReachStep(Scene(StartOf(whole), true, PAGE_SIZE + 1, ANYTHING_GOES), s1, Env(Vanish(whole[0].id)), s);
    RestIsListing(s1.cloud, JobOf(req), whole);
  }

  /** The second page read is then empty, and the search has been in vain. */
  lemma ReachVainSearch(req: Request, whole: seq<Disk>) returns (s: State)
    requires Hides(req, whole)
    ensures Reachable(Scene(StartOf(whole), true, PAGE_SIZE + 1, ANYTHING_GOES), s)
    ensures s.rpcs == map[0 := At(req, CvCreate)]
    ensures s.cloud == AfterEvent(StartOf(whole).cloud, Vanish(whole[0].id))
  {
    var s1 := ReachVanished(req, whole);
    SearchEndsInVain(req, whole);
    ReachPage(Scene(StartOf(whole), true, PAGE_SIZE + 1, ANYTHING_GOES), s1, req, CvPages(1, 2, whole[..PAGE_SIZE]), 2, whole[1..], At(req, CvCreate));
    s := With(s1, 0, At(req, CvCreate), s1.locks, s1.cloud);
    assert s.rpcs == map[0 := At(req, CvCreate)];
  }

  lemma RestIsListing(c: Cloud, job: CreateJob, whole: seq<Disk>)
    requires whole != [] && IsDiskListing(c, job.name, job.zone, job.group, whole)
    ensures IsDiskListing(AfterEvent(c, Vanish(whole[0].id)), job.name, job.zone, job.group, whole[1..])
  {
    var rest, c' := whole[1..], AfterEvent(c, Vanish(whole[0].id));
    forall d ensures d in rest <==>
      d.id in c'.disks && c'.disks[d.id] == d && d.name == job.name && d.zone == job.zone && d.group == job.group
    {
      if d in rest {
        var k :| 0 <= k < |rest| && rest[k] == d;
        assert whole[k + 1] == d && d in whole;
      } else if d in whole {
        assert forall k :: 1 <= k < |whole| ==> whole[k] == rest[k - 1];
        assert d == whole[0];
      }
    }
  }

  /** A request about to create creates its disk. */
  lemma ReachCreated(g: Scene, s: State, req: Request, d: Disk) returns (s': State)
    requires OthersFinished(g, s, 0) && Reachable(g, s) && 0 in s.rpcs
    requires req.CreateVolume? && req.plan.Planned? && s.rpcs[0] == At(req, CvCreate)
    requires Matches(d, JobOf(req)) && d.size == SizeGib(JobOf(req)) && d.id != "" && FreshDisk(s.cloud, d)
    requires req.source.Empty? && d.origin.None?
    ensures Reachable(g, s') && s'.cloud == AddDisk(s.cloud, d)
  {
    var t := At(req, CvWait(d.id, false));
    ReachDrive(g, s, 0, Created(d.id), NewDisk(d), t, s.locks, AddDisk(s.cloud, d));
    s' := With(s, 0, t, s.locks, AddDisk(s.cloud, d));
  }

  /**
   With one recycled disk more than fits a page, a disk that goes away from the first page
   while the second is about to be read hides the usable disk, and a second one is created.
   */
  lemma SecondDiskIsCreated(req: Request, whole: seq<Disk>, d: Disk) returns (s: State)
    requires Hides(req, whole)
    requires Matches(d, JobOf(req)) && d.size == SizeGib(JobOf(req)) && d.status != Recycled && d.instance == "" && d.id != ""
    requires d.origin.None?
    requires forall k :: 0 <= k < |whole| ==> whole[k].id != d.id
    ensures Reachable(Scene(StartOf(whole), true, PAGE_SIZE + 1, ANYTHING_GOES), s)
    ensures !UniqueDisks(s.cloud, {Recycled})
  {
    ByIdHolds(whole);
    var s1 := ReachVainSearch(req, whole);
    forall id | id in ById(whole) ensures id != d.id {
      var k :| 0 <= k < |whole| && whole[k] == ById(whole)[id];
    }
    s := ReachCreated(Scene(StartOf(whole), true, PAGE_SIZE + 1, ANYTHING_GOES), s1, req, d);
    var hidden := whole[PAGE_SIZE];
    assert hidden in whole && hidden.id != whole[0].id;
    assert s.cloud.disks[hidden.id] == hidden && s.cloud.disks[d.id] == d && SameKey(hidden, d);
  }

  // ---------------------------------------------------------------- the exact bound

  function NameOf(k: nat): string {
    seq(k + 1, _ => 'x')
  }

  function ExampleDisk(k: nat, status: DiskStatus): Disk {
    Disk(NameOf(k), "n", 20, BASIC_VOLUME_TYPE, status, "z", "s", "", true, "g", None)
  }

  function ExampleRequest(): Request {
    CreateVolume("n", true, Planned("z", "g", BASIC_VOLUME_TYPE, ZEC_LIMITS.minSize), None, None, Empty)
  }

  function ExampleDisks(): seq<Disk> {
    seq(PAGE_SIZE + 1, k requires 0 <= k <= PAGE_SIZE => ExampleDisk(k, if k < PAGE_SIZE then Recycled else Available))
  }

  lemma ExampleAt(k: nat)
    requires k <= PAGE_SIZE
    ensures |ExampleDisks()| == PAGE_SIZE + 1
    ensures ExampleDisks()[k] == ExampleDisk(k, if k < PAGE_SIZE then Recycled else Available)
    ensures |ExampleDisks()[k].id| == k + 1
  {
  }

  lemma ExampleHides()
    ensures Hides(ExampleRequest(), ExampleDisks()) && SizeGib(JobOf(ExampleRequest())) == 20
  {
    var whole := ExampleDisks();
    ExampleAt(0);
    forall k | 0 <= k <= PAGE_SIZE
      ensures whole[k] == ExampleDisk(k, if k < PAGE_SIZE then Recycled else Available) && |whole[k].id| == k + 1
    {
      ExampleAt(k);
    }
    forall a, b | 0 <= a < b < |whole| ensures whole[a].id != whole[b].id {
      assert |whole[a].id| < |whole[b].id|;
    }
    assert ByteCeilToGib(20 * GIB) == 20;
  }

  lemma MoreIsNotEnough(bound: nat)
    requires bound > PAGE_SIZE
    ensures !StaysUnique(bound)
  {
    var req, whole := ExampleRequest(), ExampleDisks();
    ExampleHides();
    var d := ExampleDisk(PAGE_SIZE + 1, Creating);
    forall k | 0 <= k < |whole| ensures whole[k].id != d.id {
      ExampleAt(k);
      assert |d.id| == PAGE_SIZE + 2;
    }
    var s := SecondDiskIsCreated(req, whole, d);
    var ss, ls :| LeadsTo(Scene(StartOf(whole), true, PAGE_SIZE + 1, ANYTHING_GOES), ss, ls, s);
    StartIsInitial(req, whole);
    assert BoundedRun(ss, ls, bound);
  }

  /**
   The exact bound: uniqueness of disks is guaranteed, without any assumption about what
   listings do while they are read, if and only if no listing counts more than one page.
   */
  lemma UniqueUpToOnePage(bound: nat)
    ensures StaysUnique(bound) <==> bound <= PAGE_SIZE
  {
    if bound <= PAGE_SIZE {
      forall ss: seq<State>, ls: seq<Label> | BoundedRun(ss, ls, bound) ensures UniqueDisks(ss[|ls|].cloud, {Recycled}) {
        assert BoundedRun(ss, ls, PAGE_SIZE);
        OnePageIsEnough(ss, ls);
      }
    } else {
      MoreIsNotEnough(bound);
    }
  }

  // ---------------------------------------------------------------- what a lookup by name collects

  /** The page number of call `k` of a lookup: the counting call and the first page call both ask for page 1. */
  function PageNumber(k: nat): (num: nat)
    ensures num >= 1
  {
    if k == 0 then 1 else k
  }

  function DiskAnswer(listing: nat -> seq<Disk>, k: nat): Reply {
    DiskPage(|listing(k)|, Page(listing(k), PageNumber(k)))
  }

  /** Where CreateVolume's lookup stands after calls 0 to `k`, call k being answered from `listing(k)`. */
  function Lookup(job: CreateJob, listing: nat -> seq<Disk>, k: nat): Verdict {
    if k == 0 then AdvanceCv(job, CvLookup, DiskAnswer(listing, 0)) else
    var before := Lookup(job, listing, k - 1);
    if before.Goto? && before.body.Cv? && before.body.cvAt.CvPages?
    then AdvanceCv(job, before.body.cvAt, DiskAnswer(listing, k)) else before
  }

  lemma {:induction false} LookupAfterPages(job: CreateJob, listing: nat -> seq<Disk>, k: nat)
    requires |listing(0)| > PAGE_SIZE && k < PageCount(|listing(0)|)
    ensures Lookup(job, listing, k) == Goto(Cv(job, CvPages(k, PageCount(|listing(0)|), Pages(listing, k))))
  {
    if k > 0 {
      LookupAfterPages(job, listing, k - 1);
      PageRead(job, listing, k, PageCount(|listing(0)|));
    }
  }

  lemma PageRead(job: CreateJob, listing: nat -> seq<Disk>, k: nat, calls: nat)
    requires 0 < k < calls
    ensures AdvanceCv(job, CvPages(k - 1, calls, Pages(listing, k - 1)), DiskAnswer(listing, k))
         == Goto(Cv(job, CvPages(k, calls, Pages(listing, k))))
  {
  }

  /** The lookup decides on exactly what `Collected` says, whatever the listing does between its calls. */
  lemma LookupDecidesOnCollected(job: CreateJob, listing: nat -> seq<Disk>)
    ensures var calls := if |listing(0)| > PAGE_SIZE then PageCount(|listing(0)|) else 0;
      Lookup(job, listing, calls) == AfterLookup(job, LookupIn(job, Collected(listing)))
  {
    if |listing(0)| > PAGE_SIZE {
      LookupAfterPages(job, listing, PageCount(|listing(0)|) - 1);
    } else {
      assert Page(listing(0), 1) == listing(0);
      assert |listing(0)| == 0 ==> listing(0) == [];
    }
  }

  function SnapAnswerAt(listing: nat -> seq<Snap>, k: nat): Reply {
    SnapPage(|listing(k)|, Page(listing(k), PageNumber(k)))
  }

  /** The same for CreateSnapshot's lookup. */
  function SnapLookupAfter(b: Body, vol: Disk, listing: nat -> seq<Snap>, k: nat): Verdict
    requires b.Cs?
  {
    if k == 0 then AdvanceCs(b.name, b.id, b.parametersOk, CsLookup(vol), SnapAnswerAt(listing, 0)) else
    var before := SnapLookupAfter(b, vol, listing, k - 1);
    if before.Goto? && before.body.Cs? && before.body.csAt.CsPages?
    then AdvanceCs(b.name, b.id, b.parametersOk, before.body.csAt, SnapAnswerAt(listing, k)) else before
  }

  lemma {:induction false} SnapLookupAfterPages(b: Body, vol: Disk, listing: nat -> seq<Snap>, k: nat)
    requires b.Cs? && |listing(0)| > PAGE_SIZE && k < PageCount(|listing(0)|)
    ensures SnapLookupAfter(b, vol, listing, k) == Goto(b.(csAt := CsPages(vol, k, PageCount(|listing(0)|), Pages(listing, k))))
  {
    if k > 0 {
      SnapLookupAfterPages(b, vol, listing, k - 1);
      SnapPageRead(b, vol, listing, k, PageCount(|listing(0)|));
    }
  }

  lemma SnapPageRead(b: Body, vol: Disk, listing: nat -> seq<Snap>, k: nat, calls: nat)
    requires b.Cs? && 0 < k < calls
    ensures AdvanceCs(b.name, b.id, b.parametersOk, CsPages(vol, k - 1, calls, Pages(listing, k - 1)), SnapAnswerAt(listing, k))
         == Goto(b.(csAt := CsPages(vol, k, calls, Pages(listing, k))))
  {
  }

  lemma SnapLookupDecidesOnCollected(b: Body, vol: Disk, listing: nat -> seq<Snap>)
    requires b.Cs?
    ensures var calls := if |listing(0)| > PAGE_SIZE then PageCount(|listing(0)|) else 0;
      SnapLookupAfter(b, vol, listing, calls)
      == AfterSnapLookup(b.name, b.id, b.parametersOk, vol, FirstSnap(Collected(listing), b.id))
  {
    if |listing(0)| > PAGE_SIZE {
      LongSnapLookupDecides(b, vol, listing);
    } else {
      ShortSnapLookupDecides(b, vol, listing);
    }
  }

  lemma LongSnapLookupDecides(b: Body, vol: Disk, listing: nat -> seq<Snap>)
    requires b.Cs? && |listing(0)| > PAGE_SIZE
    ensures SnapLookupAfter(b, vol, listing, PageCount(|listing(0)|))
      == AfterSnapLookup(b.name, b.id, b.parametersOk, vol, FirstSnap(Collected(listing), b.id))
  {
    SnapLookupAfterPages(b, vol, listing, PageCount(|listing(0)|) - 1);
  }

  lemma ShortSnapLookupDecides(b: Body, vol: Disk, listing: nat -> seq<Snap>)
    requires b.Cs? && |listing(0)| <= PAGE_SIZE
    ensures SnapLookupAfter(b, vol, listing, 0)
      == AfterSnapLookup(b.name, b.id, b.parametersOk, vol, FirstSnap(Collected(listing), b.id))
  {
    assert Page(listing(0), 1) == listing(0);
    assert |listing(0)| == 0 ==> listing(0) == [];
  }
}
