/** At most one snapshot per name and source volume, over every run, and when names are unique altogether. */
module Snapshots {
  import opened Wrappers
  import opened CloudTypes
  import opened Paging
  import opened ControllerProgram
  import opened ControllerSystem
  import opened Observations

  ghost predicate UniqueSnaps(c: Cloud) {
    forall a, b :: a in c.snaps && b in c.snaps && c.snaps[a].name == c.snaps[b].name && c.snaps[a].src == c.snaps[b].src
      ==> a == b
  }

  predicate SameName(a: Snap, b: Snap) {
    a.name == b.name && a.zone == b.zone && a.group == b.group
  }

  /** The stronger wish: names are unique within a zone and group, whatever the source. */
  ghost predicate UniqueNames(c: Cloud) {
    forall a, b :: a in c.snaps && b in c.snaps && SameName(c.snaps[a], c.snaps[b]) ==> a == b
  }

  /** The RPC has been shown an empty listing, and has not created its snapshot yet. */
  predicate SeenNone(t: Rpc) {
    && t.phase.Running? && t.phase.body.Cs?
    && (t.phase.body.csAt.CsCreate? || (t.phase.body.csAt.CsPages? && t.phase.body.csAt.ra > 0 && t.phase.body.csAt.all == []))
  }

  ghost predicate NoSuchSnap(c: Cloud, name: string, src: Id) {
    forall id :: id in c.snaps ==> !(c.snaps[id].name == name && c.snaps[id].src == src)
  }

  ghost predicate NameIsFree(c: Cloud, name: string, vol: Disk) {
    forall id :: id in c.snaps ==>
      !(c.snaps[id].name == name && c.snaps[id].zone == vol.zone && c.snaps[id].group == vol.group)
  }

  ghost predicate SnapSearchesStand(s: State) {
    forall i :: i in s.rpcs && SeenNone(s.rpcs[i]) ==>
      NoSuchSnap(s.cloud, s.rpcs[i].phase.body.name, s.rpcs[i].phase.body.id)
  }

  /** The zone and group described are the ones the disk was born with. */
  predicate BornAs(c: Cloud, id: Id, vol: Disk) {
    id in c.births && c.births[id] == Birth(vol.zone, vol.group)
  }

  /** So are those an RPC has read off its disk. */
  ghost predicate BirthsMatch(s: State) {
    forall i :: i in s.rpcs && Seen(s.rpcs[i]).Some? ==>
      BornAs(s.cloud, MainKey(s.rpcs[i].req), Seen(s.rpcs[i]).value)
  }

  ghost predicate SnapInv(s: State) {
    UniqueSnaps(s.cloud) && SnapSearchesStand(s) && BirthsMatch(s)
  }

  /** Nobody else takes snapshots. */
  predicate OnlyDriverSnapshots(l: Label) {
    l.Env? ==> !l.ev.OutsideSnap?
  }

  // ---------------------------------------------------------------- what an empty listing shows

  /** An empty first page is an empty listing. */
  lemma EmptyPageShowsFree(c: Cloud, name: string, vol: Disk, r: Reply)
    requires CloudOk(c) && IsSnapPage(c, name, vol.zone, vol.group, 1, r) && (r.total == 0 || r.snaps == [])
    ensures NameIsFree(c, name, vol)
  {
    var list :| IsSnapListing(c, name, vol.zone, vol.group, list) && r.total == |list| && r.snaps == Page(list, 1);
    assert list == [];
    forall id | id in c.snaps
      ensures !(c.snaps[id].name == name && c.snaps[id].zone == vol.zone && c.snaps[id].group == vol.group)
    {
      assert c.snaps[id] !in list;
    }
  }

  /** A name that is free in the source's own zone and group is free for the source. */
  lemma FreeNameHasNoSnap(c: Cloud, name: string, src: Id, vol: Disk)
    requires CloudOk(c) && BornAs(c, src, vol) && NameIsFree(c, name, vol)
    ensures NoSuchSnap(c, name, src)
  {
  }

  /** The point of a snapshot request without its search so far. */
  predicate SameRequest(b: Body, b': Body) {
    b.Cs? && b'.Cs? && b.name == b'.name && b.id == b'.id && SeenIn(b) == SeenIn(b') && SeenIn(b).Some?
  }

  lemma CsComesToSeeNone(name: string, id: Id, parametersOk: bool, at: CsAt, r: Reply)
    requires Established(Cs(name, id, parametersOk, at))
    requires AdvanceCs(name, id, parametersOk, at, r).Goto?
    requires var b := AdvanceCs(name, id, parametersOk, at, r).body;
      b.Cs? && (b.csAt.CsCreate? || (b.csAt.CsPages? && b.csAt.ra > 0 && b.csAt.all == []))
    ensures SameRequest(Cs(name, id, parametersOk, at), AdvanceCs(name, id, parametersOk, at, r).body)
    ensures r.SnapPage? && (at.CsLookup? || at.CsPages?)
    ensures (at.CsPages? && at.ra > 0 && at.all == []) || ((at.CsLookup? || at.ra == 0) && (r.total == 0 || r.snaps == []))
  {
    match at
    case CsFind => {}
    case CsLookup(vol) => {}
    case CsPages(vol, ra, calls, all) => {}
    case CsCreate(vol) => {}
    case CsWait(vol, newId, _) => {}
    case CsRefind(vol, newId) => {}
  }

  /** An RPC comes to have seen none by an empty first page, and then stays with the same request. */
  lemma ComesToSeeNone(t: Rpc, r: Reply)
    requires WellFormedRpc(t) && Active(t) && SeenNone(Resume(t, r))
    ensures t.phase.Running? && SameRequest(t.phase.body, Resume(t, r).phase.body)
    ensures SeenNone(t) || (r.SnapPage? && (r.total == 0 || r.snaps == []) && CallOf(t.phase.body) ==
      ListSnaps(t.phase.body.name, SeenIn(t.phase.body).value.zone, SeenIn(t.phase.body).value.group, 1))
  {
    if t.phase.Running? {
      var b := t.phase.body;
      AdvanceIsGood(b, t.req, r);
      CsComesToSeeNone(b.name, b.id, b.parametersOk, b.csAt, r);
    }
  }

  lemma TruthfulPage(c: Cloud, name: string, vol: Disk, r: Reply, e: Effect)
    requires Answers(c, ListSnaps(name, vol.zone, vol.group, 1), r, e) && r.SnapPage?
    ensures e == NoEffect && IsSnapPage(c, name, vol.zone, vol.group, 1, r)
  {
  }

  lemma NewlySeenNone(s: State, i: nat, r: Reply, e: Effect)
    requires Inv(s) && CanDrive(s, i, r, e) && SeenNone(Resume(s.rpcs[i], r)) && !SeenNone(s.rpcs[i])
    ensures s.rpcs[i].phase.Running? && SameRequest(s.rpcs[i].phase.body, Resume(s.rpcs[i], r).phase.body)
    ensures NameIsFree(s.cloud, s.rpcs[i].phase.body.name, SeenIn(s.rpcs[i].phase.body).value)
    ensures e == NoEffect
  {
    ComesToSeeNone(s.rpcs[i], r);
    TruthfulPage(s.cloud, s.rpcs[i].phase.body.name, SeenIn(s.rpcs[i].phase.body).value, r, e);
    EmptyPageShowsFree(s.cloud, s.rpcs[i].phase.body.name, SeenIn(s.rpcs[i].phase.body).value, r);
  }

  // ---------------------------------------------------------------- one snapshot per source

  lemma OwnSightBorn(s: State, i: nat, r: Reply, e: Effect)
    requires Inv(s) && BirthsMatch(s) && CanDrive(s, i, r, e) && Seen(Resume(s.rpcs[i], r)).Some?
    ensures BornAs(s.cloud, MainKey(s.rpcs[i].req), Seen(Resume(s.rpcs[i], r)).value)
  {
    var t := s.rpcs[i];
    if Seen(t) != Seen(Resume(t, r)) {
      NewlySeen(t, r);
      TruthfulDescription(s, i, r, e);
    }
  }

  lemma BirthsLast(s: State, i: nat, r: Reply, e: Effect)
    requires CloudOk(s.cloud) && CanDrive(s, i, r, e)
    ensures var s' := Apply(s, Drive(i, r, e));
      forall id :: id in s.cloud.births ==> id in s'.cloud.births && s'.cloud.births[id] == s.cloud.births[id]
  {
  }

  lemma DriveKeepsBirths(s: State, i: nat, r: Reply, e: Effect)
    requires Inv(s) && BirthsMatch(s) && CanDrive(s, i, r, e)
    ensures BirthsMatch(Apply(s, Drive(i, r, e)))
  {
    ResumeIsWellFormed(s.rpcs[i], r);
    BirthsLast(s, i, r, e);
    if Seen(Resume(s.rpcs[i], r)).Some? {
      OwnSightBorn(s, i, r, e);
    }
  }

  /** What an RPC's step that creates no snapshot does to the snapshots: nothing. */
  lemma SnapsUntouched(s: State, i: nat, r: Reply, e: Effect)
    requires CanDrive(s, i, r, e) && !e.NewSnap?
    ensures Apply(s, Drive(i, r, e)).cloud.snaps == s.cloud.snaps
  {
  }

  /** What the RPC that moves has seen none of is not there. */
  lemma OwnSearchStands(s: State, i: nat, r: Reply, e: Effect)
    requires Inv(s) && SnapInv(s) && CanDrive(s, i, r, e) && SeenNone(Resume(s.rpcs[i], r))
    ensures var b := Resume(s.rpcs[i], r).phase.body; NoSuchSnap(s.cloud, b.name, b.id)
  {
    var t := s.rpcs[i];
    ComesToSeeNone(t, r);
    if SeenNone(t) {
      assert NoSuchSnap(s.cloud, t.phase.body.name, t.phase.body.id);
    } else {
      NewlySeenNone(s, i, r, e);
      assert Seen(t).Some?;
      FreeNameHasNoSnap(s.cloud, t.phase.body.name, t.phase.body.id, SeenIn(t.phase.body).value);
    }
  }

  lemma DriveKeepsSnapSearches(s: State, i: nat, r: Reply, e: Effect)
    requires Inv(s) && SnapInv(s) && CanDrive(s, i, r, e) && !e.NewSnap?
    ensures SnapSearchesStand(Apply(s, Drive(i, r, e)))
  {
    var s' := Apply(s, Drive(i, r, e));
    SnapsUntouched(s, i, r, e);
    if SeenNone(Resume(s.rpcs[i], r)) {
      OwnSearchStands(s, i, r, e);
    }
    forall j | j in s'.rpcs && SeenNone(s'.rpcs[j])
      ensures NoSuchSnap(s'.cloud, s'.rpcs[j].phase.body.name, s'.rpcs[j].phase.body.id)
    {
      if j != i {
        assert NoSuchSnap(s.cloud, s.rpcs[j].phase.body.name, s.rpcs[j].phase.body.id);
      }
    }
  }

  lemma SnapshotterMovesOn(s: State, i: nat, r: Reply, e: Effect)
    requires Inv(s) && CanDrive(s, i, r, e) && e.NewSnap?
    ensures var t := s.rpcs[i];
      && SeenNone(t) && t.phase.body.csAt.CsCreate? && e.snap.name == t.phase.body.name && e.snap.src == t.phase.body.id
      && FreshSnap(s.cloud, e.snap) && !SeenNone(Resume(t, r))
    ensures Apply(s, Drive(i, r, e)).cloud.snaps == s.cloud.snaps[e.snap.id := e.snap]
  {
    SnapCreatePoint(s.rpcs[i], r);
  }

  /** A snapshot is created at its point only, and that is left then. */
  lemma SnapCreatePoint(t: Rpc, r: Reply)
    requires WellFormedRpc(t) && Active(t) && NextAction(t).Ask? && NextAction(t).call.CreateSnap?
    ensures t.phase.Running? && t.phase.body.Cs? && t.phase.body.csAt.CsCreate? && !SeenNone(Resume(t, r))
    ensures NextAction(t).call == CreateSnap(t.phase.body.name, t.phase.body.id)
  {
  }

  lemma CreateKeepsSnapUnique(s: State, i: nat, r: Reply, e: Effect)
    requires Inv(s) && SnapInv(s) && CanDrive(s, i, r, e) && e.NewSnap?
    ensures UniqueSnaps(Apply(s, Drive(i, r, e)).cloud) && SnapSearchesStand(Apply(s, Drive(i, r, e)))
  {
    SnapshotterMovesOn(s, i, r, e);
    var s' := Apply(s, Drive(i, r, e));
    assert NoSuchSnap(s.cloud, e.snap.name, e.snap.src);
    forall j | j in s'.rpcs && SeenNone(s'.rpcs[j])
      ensures NoSuchSnap(s'.cloud, s'.rpcs[j].phase.body.name, s'.rpcs[j].phase.body.id)
    {
      assert j != i;
      assert NoSuchSnap(s.cloud, s.rpcs[j].phase.body.name, s.rpcs[j].phase.body.id);
      if s.rpcs[j].phase.body.id == e.snap.src {
        RunningHoldsMainKey(s, i);
        RunningHoldsMainKey(s, j);
        Exclusive(s, i, j, e.snap.src);
        assert false;
      }
    }
  }

  lemma EventKeepsSnapInv(s: State, ev: Event)
    requires Inv(s) && SnapInv(s) && Possible(s.cloud, ev) && OnlyDriverSnapshots(Env(ev))
    ensures SnapInv(Apply(s, Env(ev)))
  {
    var c, c' := s.cloud, Apply(s, Env(ev)).cloud;
    EventKeepsSnaps(c, ev);
    assert forall id :: id in c.births ==> id in c'.births && c'.births[id] == c.births[id];
    forall j | j in s.rpcs && SeenNone(s.rpcs[j])
      ensures NoSuchSnap(c', s.rpcs[j].phase.body.name, s.rpcs[j].phase.body.id)
    {
      assert NoSuchSnap(c, s.rpcs[j].phase.body.name, s.rpcs[j].phase.body.id);
    }
  }

  /** Events at most remove snapshots, and change neither name nor source nor place of any. */
  lemma EventKeepsSnaps(c: Cloud, ev: Event)
    requires Possible(c, ev) && OnlyDriverSnapshots(Env(ev))
    ensures var c' := AfterEvent(c, ev); forall id :: id in c'.snaps ==>
      id in c.snaps && SameName(c'.snaps[id], c.snaps[id]) && c'.snaps[id].src == c.snaps[id].src
  {
  }

  lemma StepKeepsSnapInv(s: State, l: Label)
    requires Inv(s) && SnapInv(s) && Enabled(s, l) && OnlyDriverSnapshots(l)
    ensures SnapInv(Apply(s, l))
  {
    match l
    case Spawn(i, req) => {
      assert !SeenNone(Start(req)) && Seen(Start(req)).None?;
    }
    case Drive(i, r, e) => {
      DriveKeepsBirths(s, i, r, e);
      if e.NewSnap? {
        CreateKeepsSnapUnique(s, i, r, e);
      } else {
        DriveKeepsSnapSearches(s, i, r, e);
        SnapsUntouched(s, i, r, e);
      }
    }
    case Env(ev) => EventKeepsSnapInv(s, ev);
  }

  /**
   Over any run of interleaved, failing and retried RPCs at most one snapshot exists per
   name and source volume, although the lock taken is the volume's and not the name's.
   */
  lemma {:induction false} AtMostOneSnapshot(ss: seq<State>, ls: seq<Label>, n: nat)
    requires IsRun(ss, ls) && n < |ss| && UniqueSnaps(ss[0].cloud)
    requires forall k :: 0 <= k < |ls| ==> OnlyDriverSnapshots(ls[k])
    ensures SnapInv(ss[n])
  {
    if n > 0 {
      AtMostOneSnapshot(ss, ls, n - 1);
      LocksAreOwned(ss, ls, n - 1);
      assert StepsTo(ss, ls, n - 1);
      StepKeepsSnapInv(ss[n - 1], ls[n - 1]);
    }
  }

  // ---------------------------------------------------------------- why a snapshot is created

  /** RPC `i` was shown at step `m` that its name is free in its source's zone and group. */
  ghost predicate ShownFree(ss: seq<State>, ls: seq<Label>, m: nat, i: nat, name: string, vol: Disk)
    requires m < |ls| < |ss|
  {
    && ls[m].Drive? && ls[m].i == i && i in ss[m].rpcs && Active(ss[m].rpcs[i])
    && NextAction(ss[m].rpcs[i]) == Ask(ListSnaps(name, vol.zone, vol.group, 1))
    && NameIsFree(ss[m].cloud, name, vol)
  }

  lemma {:induction false} SeenNoneWasShown(ss: seq<State>, ls: seq<Label>, n: nat, i: nat) returns (m: nat)
    requires IsRun(ss, ls) && n < |ss| && i in ss[n].rpcs && SeenNone(ss[n].rpcs[i])
    ensures var b := ss[n].rpcs[i].phase.body;
      m < n && ShownFree(ss, ls, m, i, b.name, SeenIn(b).value) && HeldThroughout(ss, m, n, i, ss[n].rpcs[i].req)
    decreases n
  {
    if n > 0 {
      SeenNoneBefore(ss, ls, n, i);
      if SeenNone(ss[n - 1].rpcs[i]) {
        m := SeenNoneWasShown(ss, ls, n - 1, i);
      } else {
        m := n - 1;
      }
      StillHolds(ss, ls, m, n, i);
    }
  }

  lemma StillHolds(ss: seq<State>, ls: seq<Label>, m: nat, n: nat, i: nat)
    requires IsRun(ss, ls) && m < n < |ss| && i in ss[n].rpcs && ss[n].rpcs[i].phase.Running?
    requires HeldThroughout(ss, m, n - 1, i, ss[n].rpcs[i].req)
    ensures HeldThroughout(ss, m, n, i, ss[n].rpcs[i].req)
  {
    LocksAreOwned(ss, ls, n);
    RunningHoldsMainKey(ss[n], i);
    HoldsOn(ss, m, n - 1, i, ss[n].rpcs[i].req);
  }

  lemma ShownOrSeen(s: State, i: nat, r: Reply, e: Effect)
    requires Inv(s) && CanDrive(s, i, r, e) && SeenNone(Resume(s.rpcs[i], r))
    ensures s.rpcs[i].phase.Running?
    ensures var b, b' := s.rpcs[i].phase.body, Resume(s.rpcs[i], r).phase.body;
      && SameRequest(b, b')
      && (SeenNone(s.rpcs[i]) || (CallOf(b) == ListSnaps(b'.name, SeenIn(b').value.zone, SeenIn(b').value.group, 1)
                                   && NameIsFree(s.cloud, b'.name, SeenIn(b').value)))
    ensures MainKey(s.rpcs[i].req) in s.rpcs[i].defers && MainKey(s.rpcs[i].req) in s.locks
  {
    ComesToSeeNone(s.rpcs[i], r);
    if !SeenNone(s.rpcs[i]) {
      NewlySeenNone(s, i, r, e);
    }
    RunningHoldsMainKey(s, i);
  }

  lemma SeenNoneBefore(ss: seq<State>, ls: seq<Label>, n: nat, i: nat)
    requires IsRun(ss, ls) && 0 < n < |ss| && i in ss[n].rpcs && SeenNone(ss[n].rpcs[i])
    ensures i in ss[n - 1].rpcs && ss[n - 1].rpcs[i].req == ss[n].rpcs[i].req && ss[n - 1].rpcs[i].phase.Running?
    ensures SameRequest(ss[n - 1].rpcs[i].phase.body, ss[n].rpcs[i].phase.body)
    ensures SeenNone(ss[n - 1].rpcs[i]) || (
      && ShownFree(ss, ls, n - 1, i, ss[n].rpcs[i].phase.body.name, SeenIn(ss[n].rpcs[i].phase.body).value)
      && HeldThroughout(ss, n - 1, n - 1, i, ss[n].rpcs[i].req))
  {
    RpcStep(ss, ls, n, i);
    if MoveOf(ls[n - 1], i).Moved? {
      ShownOrSeen(ss[n - 1], i, ls[n - 1].reply, ls[n - 1].effect);
    }
  }

  /**
   A snapshot is created only by a request that was shown, while holding its source's lock
   ever since, that its name was free in the source's zone and group: free of snapshots of
   any source, so that a same-named snapshot of another source that it is shown means no
   create.
   */
  lemma CreateSnapIsJustified(ss: seq<State>, ls: seq<Label>, n: nat, i: nat, name: string, src: Id)
    returns (m: nat, vol: Disk)
    requires IsRun(ss, ls) && n < |ls| && ls[n].Drive? && ls[n].i == i
    requires StepsTo(ss, ls, n) && NextAction(ss[n].rpcs[i]) == Ask(CreateSnap(name, src))
    ensures var req := ss[n].rpcs[i].req;
      && req.CreateSnapshot? && name == req.name && src == MainKey(req) && m < n
      && ShownFree(ss, ls, m, i, name, vol) && Seen(ss[n].rpcs[i]) == Some(vol)
      && HeldThroughout(ss, m, n, i, req)
  {
    LocksAreOwned(ss, ls, n);
    assert SeenNone(ss[n].rpcs[i]);
    m := SeenNoneWasShown(ss, ls, n, i);
    vol := Seen(ss[n].rpcs[i]).value;
  }

  // ---------------------------------------------------------------- names across sources

  /** No two requests for one name, zone and group have both seen it free at the same time. */
  ghost predicate NoOverlap(s: State) {
    forall i, j :: i in s.rpcs && j in s.rpcs && Overlap(s.rpcs[i], s.rpcs[j]) ==> i == j
  }

  predicate Overlap(t: Rpc, t': Rpc) {
    SeenNone(t) && SeenNone(t') && SameTarget(t.phase.body, t'.phase.body)
  }

  predicate SameTarget(b: Body, b': Body) {
    && b.Cs? && b'.Cs? && b.name == b'.name && SeenIn(b).Some? && SeenIn(b').Some?
    && SeenIn(b).value.zone == SeenIn(b').value.zone && SeenIn(b).value.group == SeenIn(b').value.group
  }

  ghost predicate FreeNamesStand(s: State) {
    forall i :: i in s.rpcs && SeenNone(s.rpcs[i]) ==> IsFreeFor(s.cloud, s.rpcs[i].phase.body)
  }

  ghost predicate IsFreeFor(c: Cloud, b: Body)
    requires b.Cs? && SeenIn(b).Some?
  {
    NameIsFree(c, b.name, SeenIn(b).value)
  }

  ghost predicate NameInv(s: State) {
    UniqueNames(s.cloud) && FreeNamesStand(s) && BirthsMatch(s)
  }

  /** The new snapshot is in the zone and group its request searched. */
  lemma CreatedWhereSearched(s: State, i: nat, r: Reply, e: Effect)
    requires Inv(s) && BirthsMatch(s) && CanDrive(s, i, r, e) && e.NewSnap?
    ensures SeenNone(s.rpcs[i]) && e.snap.name == s.rpcs[i].phase.body.name
    ensures var vol := SeenIn(s.rpcs[i].phase.body).value; e.snap.zone == vol.zone && e.snap.group == vol.group
  {
    SnapshotterMovesOn(s, i, r, e);
    assert Seen(s.rpcs[i]).Some?;
  }

  lemma CreateKeepsNames(s: State, i: nat, r: Reply, e: Effect)
    requires Inv(s) && NameInv(s) && NoOverlap(s) && CanDrive(s, i, r, e) && e.NewSnap?
    ensures UniqueNames(Apply(s, Drive(i, r, e)).cloud) && FreeNamesStand(Apply(s, Drive(i, r, e)))
  {
    SnapshotterMovesOn(s, i, r, e);
    CreatedWhereSearched(s, i, r, e);
    var s' := Apply(s, Drive(i, r, e));
    assert NameIsFree(s.cloud, e.snap.name, SeenIn(s.rpcs[i].phase.body).value);
    forall j | j in s'.rpcs && SeenNone(s'.rpcs[j])
      ensures NameIsFree(s'.cloud, s'.rpcs[j].phase.body.name, SeenIn(s'.rpcs[j].phase.body).value)
    {
      assert j != i;
      assert NameIsFree(s.cloud, s.rpcs[j].phase.body.name, SeenIn(s.rpcs[j].phase.body).value);
      assert !Overlap(s.rpcs[i], s.rpcs[j]);
    }
  }

  lemma OwnNameIsFree(s: State, i: nat, r: Reply, e: Effect)
    requires Inv(s) && NameInv(s) && CanDrive(s, i, r, e) && SeenNone(Resume(s.rpcs[i], r))
    ensures IsFreeFor(s.cloud, Resume(s.rpcs[i], r).phase.body)
  {
    var t := s.rpcs[i];
    ComesToSeeNone(t, r);
    if SeenNone(t) {
      assert IsFreeFor(s.cloud, t.phase.body);
    } else {
      NewlySeenNone(s, i, r, e);
    }
  }

  lemma DriveKeepsFreeNames(s: State, i: nat, r: Reply, e: Effect)
    requires Inv(s) && NameInv(s) && CanDrive(s, i, r, e) && !e.NewSnap?
    ensures FreeNamesStand(Apply(s, Drive(i, r, e)))
  {
    var s' := Apply(s, Drive(i, r, e));
    FreeStaysFree(s, i, r, e);
    forall j | j in s'.rpcs && SeenNone(s'.rpcs[j])
      ensures IsFreeFor(s'.cloud, s'.rpcs[j].phase.body)
    {
      if j == i {
        OwnNameIsFree(s, i, r, e);
      }
      assert j != i ==> IsFreeFor(s.cloud, s.rpcs[j].phase.body);
    }
  }

  lemma FreeStaysFree(s: State, i: nat, r: Reply, e: Effect)
    requires CanDrive(s, i, r, e) && !e.NewSnap?
    ensures Apply(s, Drive(i, r, e)).rpcs == s.rpcs[i := Resume(s.rpcs[i], r)]
    ensures forall b: Body :: b.Cs? && SeenIn(b).Some? && IsFreeFor(s.cloud, b) ==> IsFreeFor(Apply(s, Drive(i, r, e)).cloud, b)
  {
    SnapsUntouched(s, i, r, e);
  }

  lemma EventKeepsNames(s: State, ev: Event)
    requires Inv(s) && NameInv(s) && Possible(s.cloud, ev) && OnlyDriverSnapshots(Env(ev))
    ensures NameInv(Apply(s, Env(ev)))
  {
    var c, c' := s.cloud, Apply(s, Env(ev)).cloud;
    EventKeepsSnaps(c, ev);
    assert forall id :: id in c.births ==> id in c'.births && c'.births[id] == c.births[id];
    forall j | j in s.rpcs && SeenNone(s.rpcs[j])
      ensures NameIsFree(c', s.rpcs[j].phase.body.name, SeenIn(s.rpcs[j].phase.body).value)
    {
      assert NameIsFree(c, s.rpcs[j].phase.body.name, SeenIn(s.rpcs[j].phase.body).value);
    }
  }

  lemma StepKeepsNames(s: State, l: Label)
    requires Inv(s) && NameInv(s) && NoOverlap(s) && Enabled(s, l) && OnlyDriverSnapshots(l)
    ensures NameInv(Apply(s, l))
  {
    match l
    case Spawn(i, req) => {
      assert !SeenNone(Start(req)) && Seen(Start(req)).None?;
    }
    case Drive(i, r, e) => {
      DriveKeepsBirths(s, i, r, e);
      if e.NewSnap? {
        CreateKeepsNames(s, i, r, e);
      } else {
        DriveKeepsFreeNames(s, i, r, e);
        SnapsUntouched(s, i, r, e);
      }
    }
    case Env(ev) => EventKeepsNames(s, ev);
  }

  /**
   Names are unique within a zone and group, whatever the sources, over every run in which
   requests for one name do not overlap between seeing it free and creating.
   */
  lemma {:induction false} NamesAreUnique(ss: seq<State>, ls: seq<Label>, n: nat)
    requires IsRun(ss, ls) && n < |ss| && UniqueNames(ss[0].cloud)
    requires forall k :: 0 <= k < |ls| ==> OnlyDriverSnapshots(ls[k]) && NoOverlap(ss[k])
    ensures NameInv(ss[n])
  {
    if n > 0 {
      NamesAreUnique(ss, ls, n - 1);
      LocksAreOwned(ss, ls, n - 1);
      assert StepsTo(ss, ls, n - 1);
      StepKeepsNames(ss[n - 1], ls[n - 1]);
    }
  }
}
