/**
 The CSI volume id: cloud disk id, a dash, and the disk's serial.

 A character stands for one byte of the id, because Go's `len` counts bytes.
 */
module VolumeId {
  import opened Wrappers

  const ZECVOLID_LEN := 19
  const ZECVOLSERIAL_LEN := 20

  /** The two halves of a parsed volume id. */
  datatype Parts = Parts(volId: string, serial: string)

  function GenCsiVolId(volId: string, serial: string): string {
    volId + "-" + serial
  }

  /** Splits at the first occurrence of `sep`, as `strings.Cut` does. */
  function Cut(s: string, sep: char): (r: Option<(string, string)>) {
    if s == "" then None
    else if s[0] == sep then Some(("", s[1..]))
    else match Cut(s[1..], sep)
      case None => None
      case Some((before, after)) => Some(([s[0]] + before, after))
  }

  function ParseCsiVolId(csiVolId: string): Option<Parts> {
    match Cut(csiVolId, '-')
    case None => None
    case Some((volId, serial)) =>
      if |volId| != ZECVOLID_LEN || |serial| != ZECVOLSERIAL_LEN then None
      else Some(Parts(volId, serial))
  }

  /** The shape of the ids and serials the cloud hands out. */
  predicate WellShaped(volId: string, serial: string) {
    |volId| == ZECVOLID_LEN && |serial| == ZECVOLSERIAL_LEN && '-' !in volId
  }

  /** Cutting finds the split whose left part does not contain the separator, and no other. */
  lemma {:induction false} CutAtFirst(before: string, after: string, sep: char)
    requires sep !in before
    ensures Cut(before + [sep] + after, sep) == Some((before, after))
  {
    var s := before + [sep] + after;
    if before == "" {
      assert s[1..] == after;
    } else {
      assert s[1..] == before[1..] + [sep] + after;
      assert before == [before[0]] + before[1..];
      CutAtFirst(before[1..], after, sep);
    }
  }

  lemma {:induction false} CutIsSplit(s: string, sep: char)
    ensures match Cut(s, sep)
      case None => sep !in s
      case Some((before, after)) => s == before + [sep] + after && sep !in before
  {
    if s != "" && s[0] != sep {
      CutIsSplit(s[1..], sep);
      assert s == [s[0]] + s[1..];
    }
  }

  /** Parsing accepts exactly the strings "v-s" of the cloud's shape, and undoes nothing else. */
  lemma ParseAcceptsExactly(csiVolId: string)
    ensures ParseCsiVolId(csiVolId).Some? <==>
      exists v, s :: WellShaped(v, s) && csiVolId == GenCsiVolId(v, s)
    ensures ParseCsiVolId(csiVolId).Some? ==>
      var p := ParseCsiVolId(csiVolId).value;
      WellShaped(p.volId, p.serial) && GenCsiVolId(p.volId, p.serial) == csiVolId
  {
    CutIsSplit(csiVolId, '-');
    if ParseCsiVolId(csiVolId).Some? {
      var p := ParseCsiVolId(csiVolId).value;
      assert WellShaped(p.volId, p.serial) && csiVolId == GenCsiVolId(p.volId, p.serial);
    }
    forall v, s | WellShaped(v, s) && csiVolId == GenCsiVolId(v, s)
      ensures ParseCsiVolId(csiVolId) == Some(Parts(v, s))
    {
      CutAtFirst(v, s, '-');
    }
  }

  /** A generated id parses back to its disk exactly for disks of the cloud's shape. */
  lemma ParseAfterGen(volId: string, serial: string)
    ensures ParseCsiVolId(GenCsiVolId(volId, serial)) == Some(Parts(volId, serial)) <==> WellShaped(volId, serial)
  {
    if WellShaped(volId, serial) {
      CutAtFirst(volId, serial, '-');
    } else {
      ParseAcceptsExactly(GenCsiVolId(volId, serial));
    }
  }

  /** Distinct disks get distinct ids, even when serials contain dashes. */
  lemma GenIsInjective(v1: string, s1: string, v2: string, s2: string)
    requires '-' !in v1 && '-' !in v2
    requires GenCsiVolId(v1, s1) == GenCsiVolId(v2, s2)
    ensures v1 == v2 && s1 == s2
  {
    CutAtFirst(v1, s1, '-');
    CutAtFirst(v2, s2, '-');
  }
}
