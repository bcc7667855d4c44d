/**
 Snapshot names across source volumes: exactly when a name used for one volume is never
 used for another.
 */
module SnapshotNames {
  import opened CloudTypes
  import opened RpcCodes
  import opened Paging
  import opened ControllerProgram
  import opened ControllerSystem
  import opened Snapshots
  import opened Expansion
  import opened Reaching
  import opened SnapshotRetry

  /** A snapshot request gets to its lookup. */
  lemma SnapshotReachesLookup(g: Scene, s: State, i: nat, name: string, csiVolId: string)
    requires OthersFinished(g, s, i)
    requires Reachable(g, s) && i !in s.rpcs
    requires var req := CreateSnapshot(name, csiVolId, true); var id := MainKey(req);
      && Precheck(req).None? && id !in s.locks && id in s.cloud.disks && s.cloud.disks[id].snapshotAbility
    ensures var req := CreateSnapshot(name, csiVolId, true); var id := MainKey(req);
      Reachable(g, With(s, i, Rpc(req, Running(Cs(name, id, true, CsLookup(s.cloud.disks[id]))), [id]), s.locks + {id}, s.cloud))
  {
    var req := CreateSnapshot(name, csiVolId, true);
    var id, d := MainKey(req), s.cloud.disks[MainKey(req)];
    var held := s.locks + {id};
    ReachFirstPoint(g, s, i, req, Cs(name, id, true, CsFind));
    var s1 := With(s, i, Rpc(req, Running(Cs(name, id, true, CsFind)), [id]), held, s.cloud);
    var t2 := Rpc(req, Running(Cs(name, id, true, CsLookup(d))), [id]);
    ReachDescribed(g, s1, i, id, t2);
    assert With(s1, i, t2, held, s.cloud) == With(s, i, t2, held, s.cloud);
  }

  /** A snapshot request whose name is free is about to create a snapshot. */
  lemma SnapshotReachesCreate(g: Scene, s: State, i: nat, name: string, csiVolId: string)
    requires OthersFinished(g, s, i)
    requires Reachable(g, s) && i !in s.rpcs
    requires var req := CreateSnapshot(name, csiVolId, true); var id := MainKey(req);
      && Precheck(req).None? && id !in s.locks && id in s.cloud.disks && s.cloud.disks[id].snapshotAbility
      && NameIsFree(s.cloud, name, s.cloud.disks[id])
    ensures var req := CreateSnapshot(name, csiVolId, true); var id := MainKey(req);
      Reachable(g, With(s, i, Rpc(req, Running(Cs(name, id, true, CsCreate(s.cloud.disks[id]))), [id]), s.locks + {id}, s.cloud))
  {
    var req := CreateSnapshot(name, csiVolId, true);
    var id, d := MainKey(req), s.cloud.disks[MainKey(req)];
    var held := s.locks + {id};
    SnapshotReachesLookup(g, s, i, name, csiVolId);
    var s2 := With(s, i, Rpc(req, Running(Cs(name, id, true, CsLookup(d))), [id]), held, s.cloud);
    SnapshotSeesNone(g, s2, i, req, d);
    var t3 := Rpc(req, Running(Cs(name, id, true, CsCreate(d))), [id]);
    assert With(s2, i, t3, held, s.cloud) == With(s, i, t3, held, s.cloud);
  }

  lemma SnapshotSeesNone(g: Scene, s: State, i: nat, req: Request, vol: Disk)
    requires OthersFinished(g, s, i)
    requires Reachable(g, s) && i in s.rpcs && req.CreateSnapshot? && NameIsFree(s.cloud, req.name, vol)
    requires s.rpcs[i] == Rpc(req, Running(Cs(req.name, MainKey(req), true, CsLookup(vol))), [MainKey(req)])
    ensures Reachable(g, With(s, i, Rpc(req, Running(Cs(req.name, MainKey(req), true, CsCreate(vol))), [MainKey(req)]),
                              s.locks, s.cloud))
  {
    assert IsSnapListing(s.cloud, req.name, vol.zone, vol.group, []);
    assert Page<Snap>([], 1) == [];
    assert IsSnapPage(s.cloud, req.name, vol.zone, vol.group, 1, SnapPage(0, []));
    var t := Rpc(req, Running(Cs(req.name, MainKey(req), true, CsCreate(vol))), [MainKey(req)]);
    ReachDrive(g, s, i, SnapPage(0, []), NoEffect, t, s.locks, s.cloud);
  }

  /** A request about to create its snapshot creates it, whatever the others are called. */
  lemma SnapshotIsCreated(g: Scene, s: State, i: nat, req: Request, vol: Disk, snap: Snap)
    requires OthersFinished(g, s, i)
    requires Reachable(g, s) && i in s.rpcs && req.CreateSnapshot?
    requires s.rpcs[i] == Rpc(req, Running(Cs(req.name, vol.id, true, CsCreate(vol))), [vol.id])
    requires FreshSnap(s.cloud, snap) && snap.name == req.name && snap.src == vol.id && snap.id != ""
    ensures Reachable(g, With(s, i, Rpc(req, Running(Cs(req.name, vol.id, true, CsWait(vol, snap.id, false))), [vol.id]),
                           s.locks, AddSnap(s.cloud, snap)))
  {
    var t := Rpc(req, Running(Cs(req.name, vol.id, true, CsWait(vol, snap.id, false))), [vol.id]);
    ReachDrive(g, s, i, Created(snap.id), NewSnap(snap), t, s.locks, AddSnap(s.cloud, snap));
  }

  /** A request whose snapshot has become available is answering OK. */
  lemma SnapshotAnswers(g: Scene, s: State, i: nat, req: Request, vol: Disk, snap: Snap)
    requires OthersFinished(g, s, i)
    requires Reachable(g, s) && i in s.rpcs && req.CreateSnapshot?
    requires s.rpcs[i] == Rpc(req, Running(Cs(req.name, vol.id, true, CsWait(vol, snap.id, false))), [vol.id])
    requires snap.id in s.cloud.snaps && s.cloud.snaps[snap.id] == snap && snap.status == SnapAvailable
    ensures Reachable(g, With(s, i, Rpc(req, Unwinding(SnapAnswer(snap, vol)), [vol.id]), s.locks, s.cloud))
  {
    var t1 := Rpc(req, Running(Cs(req.name, vol.id, true, CsRefind(vol, snap.id))), [vol.id]);
    ReachDrive(g, s, i, Snaps([snap]), NoEffect, t1, s.locks, s.cloud);
    var s1 := With(s, i, t1, s.locks, s.cloud);
    var t2 := Rpc(req, Unwinding(SnapAnswer(snap, vol)), [vol.id]);
    ReachDrive(g, s1, i, Snaps([snap]), NoEffect, t2, s1.locks, s.cloud);
    assert With(s1, i, t2, s.locks, s.cloud) == With(s, i, t2, s.locks, s.cloud);
  }

  /** It then gives its lock back. */
  lemma SnapshotCompletes(g: Scene, s: State, i: nat, req: Request, vol: Disk, snap: Snap)
    requires OthersFinished(g, s, i)
    requires Reachable(g, s) && i in s.rpcs && req.CreateSnapshot?
    requires s.rpcs[i] == Rpc(req, Running(Cs(req.name, vol.id, true, CsWait(vol, snap.id, false))), [vol.id])
    requires snap.id in s.cloud.snaps && s.cloud.snaps[snap.id] == snap && snap.status == SnapAvailable
    ensures Reachable(g, With(s, i, Rpc(req, Finished(SnapAnswer(snap, vol)), []), s.locks - {vol.id}, s.cloud))
  {
    SnapshotAnswers(g, s, i, req, vol, snap);
    var s2 := With(s, i, Rpc(req, Unwinding(SnapAnswer(snap, vol)), [vol.id]), s.locks, s.cloud);
    ReachFinished(g, s2, i, vol.id, SnapAnswer(snap, vol));
    var t3 := Rpc(req, Finished(SnapAnswer(snap, vol)), []);
    assert With(s2, i, t3, s.locks - {vol.id}, s.cloud) == With(s, i, t3, s.locks - {vol.id}, s.cloud);
  }

  // ---------------------------------------------------------------- the two ways to share a name

  /** Nothing has happened yet, and there are two disks. */
  function WithDisks(a: Disk, b: Disk): State {
    State({}, map[], Cloud(map[a.id := a, b.id := b], map[], map[],
                           map[a.id := Birth(a.zone, a.group), b.id := Birth(b.zone, b.group)], {}))
  }

  function SnapOfDisk(id: Id, name: string, d: Disk): Snap {
    Snap(id, name, SnapAvailable, d.id, true, d.zone, d.group)
  }

  /** Two volumes, and requests for snapshots of them under one name that pass the first checks. */
  predicate Contenders(name: string, csiA: string, csiB: string, a: Disk, b: Disk) {
    && 0 < |name| <= MAX_NAME_LEN && a.id != b.id && a.snapshotAbility && b.snapshotAbility
    && Precheck(CreateSnapshot(name, csiA, true)).None? && a.id == MainKey(CreateSnapshot(name, csiA, true))
    && Precheck(CreateSnapshot(name, csiB, true)).None? && b.id == MainKey(CreateSnapshot(name, csiB, true))
  }

  /** Both volumes have a snapshot of the name. */
  ghost predicate Shares(c: Cloud, name: string, a: Id, b: Id) {
    exists x, y :: x in c.snaps && y in c.snaps && c.snaps[x].name == name && c.snaps[y].name == name
      && c.snaps[x].src == a && c.snaps[y].src == b
  }

  /** Both requests may be about to create. */
  lemma BothAboutToCreate(name: string, csiA: string, csiB: string, a: Disk, b: Disk) returns (s: State)
    requires Contenders(name, csiA, csiB, a, b)
    ensures Reachable(Scene(WithDisks(a, b), false, 0, ANYTHING_GOES), s) && s.rpcs.Keys == {0, 1} && s.cloud == WithDisks(a, b).cloud
    ensures s.locks == {a.id, b.id}
    ensures s.rpcs[0] == Rpc(CreateSnapshot(name, csiA, true), Running(Cs(name, a.id, true, CsCreate(a))), [a.id])
    ensures s.rpcs[1] == Rpc(CreateSnapshot(name, csiB, true), Running(Cs(name, b.id, true, CsCreate(b))), [b.id])
  {
    var s0 := WithDisks(a, b);
    var g := Scene(s0, false, 0, ANYTHING_GOES);
    ReachStart(g);
    SnapshotReachesCreate(g, s0, 0, name, csiA);
    var t0 := Rpc(CreateSnapshot(name, csiA, true), Running(Cs(name, a.id, true, CsCreate(a))), [a.id]);
    var s1 := With(s0, 0, t0, {} + {a.id}, s0.cloud);
    SnapshotReachesCreate(g, s1, 1, name, csiB);
    var t1 := Rpc(CreateSnapshot(name, csiB, true), Running(Cs(name, b.id, true, CsCreate(b))), [b.id]);
    s := With(s1, 1, t1, s1.locks + {b.id}, s0.cloud);
  }

  /**
   At the same time: for every name and any two volumes there is a run in which two
   requests, both on their way to success, have each created a snapshot of that name.
   */
  lemma SameNameTwice(name: string, csiA: string, csiB: string, a: Disk, b: Disk) returns (s: State)
    requires Contenders(name, csiA, csiB, a, b)
    ensures Reachable(Scene(WithDisks(a, b), false, 0, ANYTHING_GOES), s) && Shares(s.cloud, name, a.id, b.id)
    ensures s.rpcs.Keys == {0, 1} && s.locks == {a.id, b.id} && s.cloud.disks == WithDisks(a, b).cloud.disks
    ensures s.rpcs[0] == Rpc(CreateSnapshot(name, csiA, true), Running(Cs(name, a.id, true, CsWait(a, "a", false))), [a.id])
    ensures s.rpcs[1] == Rpc(CreateSnapshot(name, csiB, true), Running(Cs(name, b.id, true, CsWait(b, "b", false))), [b.id])
    ensures s.cloud.snaps == map["a" := SnapOfDisk("a", name, a), "b" := SnapOfDisk("b", name, b)]
  {
    var g := Scene(WithDisks(a, b), false, 0, ANYTHING_GOES);
    var reqA, reqB := CreateSnapshot(name, csiA, true), CreateSnapshot(name, csiB, true);
    var snapA, snapB := SnapOfDisk("a", name, a), SnapOfDisk("b", name, b);
    var s2 := BothAboutToCreate(name, csiA, csiB, a, b);
    SnapshotIsCreated(g, s2, 0, reqA, a, snapA);
    var t0 := Rpc(reqA, Running(Cs(name, a.id, true, CsWait(a, snapA.id, false))), [a.id]);
    var s3 := With(s2, 0, t0, s2.locks, AddSnap(s2.cloud, snapA));
    assert s3.cloud.births == s2.cloud.births && s3.rpcs[1] == s2.rpcs[1];
    SnapshotIsCreated(g, s3, 1, reqB, b, snapB);
    var t1 := Rpc(reqB, Running(Cs(name, b.id, true, CsWait(b, snapB.id, false))), [b.id]);
    s := With(s3, 1, t1, s3.locks, AddSnap(s3.cloud, snapB));
    assert s.cloud.snaps[snapA.id] == snapA && s.cloud.snaps[snapB.id] == snapB;
  }

  /** The first of two requests in sequence has succeeded and holds nothing any more. */
  lemma FirstRequestDone(name: string, csiA: string, csiB: string, a: Disk, b: Disk) returns (s: State)
    requires Contenders(name, csiA, csiB, a, b)
    ensures Reachable(Scene(WithDisks(a, b), true, 0, ANYTHING_GOES), s) && s.locks == {}
    ensures s.rpcs == map[0 := Rpc(CreateSnapshot(name, csiA, true), Finished(SnapAnswer(SnapOfDisk("a", name, a), a)), [])]
    ensures s.cloud == AddSnap(WithDisks(a, b).cloud, SnapOfDisk("a", name, a))
  {
    var s0 := WithDisks(a, b);
    var g := Scene(s0, true, 0, ANYTHING_GOES);
    var req, snap := CreateSnapshot(name, csiA, true), SnapOfDisk("a", name, a);
    ReachStart(g);
    SnapshotReachesCreate(g, s0, 0, name, csiA);
    var s1 := With(s0, 0, Rpc(req, Running(Cs(name, a.id, true, CsCreate(a))), [a.id]), {} + {a.id}, s0.cloud);
    SnapshotIsCreated(g, s1, 0, req, a, snap);
    var s2 := With(s1, 0, Rpc(req, Running(Cs(name, a.id, true, CsWait(a, snap.id, false))), [a.id]), s1.locks, AddSnap(s0.cloud, snap));
    SnapshotCompletes(g, s2, 0, req, a, snap);
    s := With(s2, 0, Rpc(req, Finished(SnapAnswer(snap, a)), []), s2.locks - {a.id}, s2.cloud);
    assert s.locks == {};
    assert s.rpcs == map[0 := Rpc(req, Finished(SnapAnswer(snap, a)), [])];
  }

  /**
   One after the other: the lookup asks only for the source's own zone and group, so for
   volumes in different zones or groups there is a run in which the first request has
   succeeded before the second begins, and the second creates a snapshot of that name too.
   */
  lemma SameNameElsewhere(name: string, csiA: string, csiB: string, a: Disk, b: Disk) returns (s: State)
    requires Contenders(name, csiA, csiB, a, b) && !(a.zone == b.zone && a.group == b.group)
    ensures Reachable(Scene(WithDisks(a, b), true, 0, ANYTHING_GOES), s) && Shares(s.cloud, name, a.id, b.id)
    ensures 0 in s.rpcs && s.rpcs[0].phase.Finished? && s.rpcs[0].phase.outcome.Ok? && AtMostOneInFlight(s)
  {
    var g := Scene(WithDisks(a, b), true, 0, ANYTHING_GOES);
    var reqB, snapA, snapB := CreateSnapshot(name, csiB, true), SnapOfDisk("a", name, a), SnapOfDisk("b", name, b);
    var s1 := FirstRequestDone(name, csiA, csiB, a, b);
    SnapshotReachesCreate(g, s1, 1, name, csiB);
    var s2 := With(s1, 1, Rpc(reqB, Running(Cs(name, b.id, true, CsCreate(b))), [b.id]), {} + {b.id}, s1.cloud);
    SnapshotIsCreated(g, s2, 1, reqB, b, snapB);
    var t := Rpc(reqB, Running(Cs(name, b.id, true, CsWait(b, snapB.id, false))), [b.id]);
    s := With(s2, 1, t, s2.locks, AddSnap(s2.cloud, snapB));
    assert s.cloud.snaps[snapA.id] == snapA && s.cloud.snaps[snapB.id] == snapB;
  }

  /** The first of the two requests has succeeded, the other still waits. */
  lemma FirstOfTwoSucceeds(name: string, csiA: string, csiB: string, a: Disk, b: Disk) returns (s: State)
    requires Contenders(name, csiA, csiB, a, b)
    ensures Reachable(Scene(WithDisks(a, b), false, 0, ANYTHING_GOES), s) && s.rpcs.Keys == {0, 1} && s.locks == {b.id}
    ensures s.rpcs[0] == Rpc(CreateSnapshot(name, csiA, true), Finished(SnapAnswer(SnapOfDisk("a", name, a), a)), [])
    ensures s.cloud.disks == WithDisks(a, b).cloud.disks
    ensures s.cloud.snaps == map["a" := SnapOfDisk("a", name, a), "b" := SnapOfDisk("b", name, b)]
  {
    var g := Scene(WithDisks(a, b), false, 0, ANYTHING_GOES);
    var req, snapA := CreateSnapshot(name, csiA, true), SnapOfDisk("a", name, a);
    var s1 := SameNameTwice(name, csiA, csiB, a, b);
    SnapshotCompletes(g, s1, 0, req, a, snapA);
    s := With(s1, 0, Rpc(req, Finished(SnapAnswer(snapA, a)), []), s1.locks - {a.id}, s1.cloud);
  }

  /**
   And then retrying is not idempotent: when the first request has succeeded and is
   repeated, the other volume's snapshot may be listed first, and the repeat is refused.
   */
  lemma RepeatIsRefused(name: string, csiA: string, csiB: string, a: Disk, b: Disk) returns (s: State)
    requires Contenders(name, csiA, csiB, a, b) && a.zone == b.zone && a.group == b.group
    ensures Reachable(Scene(WithDisks(a, b), false, 0, ANYTHING_GOES), s)
    ensures 0 in s.rpcs && s.rpcs[0] == Rpc(CreateSnapshot(name, csiA, true), Finished(SnapAnswer(SnapOfDisk("a", name, a), a)), [])
    ensures "a" in s.cloud.snaps && s.cloud.snaps["a"] == SnapOfDisk("a", name, a)
    ensures 2 in s.rpcs && s.rpcs[2] == Rpc(CreateSnapshot(name, csiA, true), Unwinding(Err(AlreadyExists)), [a.id])
  {
    var g := Scene(WithDisks(a, b), false, 0, ANYTHING_GOES);
    var req, snapA, snapB := CreateSnapshot(name, csiA, true), SnapOfDisk("a", name, a), SnapOfDisk("b", name, b);
    var s3 := RepeatAtLookup(name, csiA, csiB, a, b);
    ShownOtherFirst(g, s3, 2, req, a, snapA, snapB);
    s := With(s3, 2, Rpc(req, Unwinding(Err(AlreadyExists)), [a.id]), s3.locks, s3.cloud);
  }

  /** The state before the repeat is refused: it is about to be shown both snapshots. */
  lemma RepeatAtLookup(name: string, csiA: string, csiB: string, a: Disk, b: Disk) returns (s: State)
    requires Contenders(name, csiA, csiB, a, b)
    ensures Reachable(Scene(WithDisks(a, b), false, 0, ANYTHING_GOES), s)
    ensures 0 in s.rpcs && s.rpcs[0] == Rpc(CreateSnapshot(name, csiA, true), Finished(SnapAnswer(SnapOfDisk("a", name, a), a)), [])
    ensures 2 in s.rpcs && s.rpcs[2] == Rpc(CreateSnapshot(name, csiA, true), Running(Cs(name, a.id, true, CsLookup(a))), [a.id])
    ensures s.cloud.snaps == map["a" := SnapOfDisk("a", name, a), "b" := SnapOfDisk("b", name, b)]
  {
    var g := Scene(WithDisks(a, b), false, 0, ANYTHING_GOES);
    var req := CreateSnapshot(name, csiA, true);
    var s2 := FirstOfTwoSucceeds(name, csiA, csiB, a, b);
    SnapshotReachesLookup(g, s2, 2, name, csiA);
    s := With(s2, 2, Rpc(req, Running(Cs(name, a.id, true, CsLookup(a))), [a.id]), s2.locks + {a.id}, s2.cloud);
  }

  lemma ShownOtherFirst(g: Scene, s: State, i: nat, req: Request, a: Disk, snapA: Snap, snapB: Snap)
    requires OthersFinished(g, s, i) && Reachable(g, s) && i in s.rpcs && req.CreateSnapshot?
    requires s.rpcs[i] == Rpc(req, Running(Cs(req.name, a.id, true, CsLookup(a))), [a.id])
    requires s.cloud.snaps == map[snapA.id := snapA, snapB.id := snapB] && snapA.id != snapB.id && snapB.src != a.id
    requires snapA.name == req.name && snapA.zone == a.zone && snapA.group == a.group
    requires snapB.name == req.name && snapB.zone == a.zone && snapB.group == a.group
    ensures Reachable(g, With(s, i, Rpc(req, Unwinding(Err(AlreadyExists)), [a.id]), s.locks, s.cloud))
  {
    BothAreListed(s.cloud, req.name, a, snapA, snapB);
    var t := Rpc(req, Unwinding(Err(AlreadyExists)), [a.id]);
    ReachDrive(g, s, i, SnapPage(2, [snapB, snapA]), NoEffect, t, s.locks, s.cloud);
  }

  lemma BothAreListed(c: Cloud, name: string, a: Disk, snapA: Snap, snapB: Snap)
    requires c.snaps == map[snapA.id := snapA, snapB.id := snapB] && snapA.id != snapB.id
    requires snapA.name == name && snapA.zone == a.zone && snapA.group == a.group
    requires snapB.name == name && snapB.zone == a.zone && snapB.group == a.group
    ensures IsSnapPage(c, name, a.zone, a.group, 1, SnapPage(2, [snapB, snapA]))
  {
    var list := [snapB, snapA];
    assert IsSnapListing(c, name, a.zone, a.group, list);
    assert Page(list, 1) == list;
  }

  // ---------------------------------------------------------------- the exact condition

  /** A run in which only the driver takes snapshots, from a state with unique names and the two disks' births. */
  ghost predicate SnapshotRun(ss: seq<State>, ls: seq<Label>, a: Disk, b: Disk) {
    && IsRun(ss, ls) && UniqueNames(ss[0].cloud)
    && BornAs(ss[0].cloud, a.id, a) && BornAs(ss[0].cloud, b.id, b)
    && forall k :: 0 <= k < |ls| ==> OnlyDriverSnapshots(ls[k])
  }

  ghost predicate NeverOverlap(ss: seq<State>) {
    forall k :: 0 <= k < |ss| ==> NoOverlap(ss[k])
  }

  /** No such run gives both volumes a snapshot of the name. */
  ghost predicate NeverShared(name: string, a: Disk, b: Disk, mayOverlap: bool) {
    forall ss: seq<State>, ls: seq<Label> ::
      SnapshotRun(ss, ls, a, b) && (mayOverlap || NeverOverlap(ss)) ==> !Shares(ss[|ls|].cloud, name, a.id, b.id)
  }

  lemma EventKeepsBirths(c: Cloud, ev: Event, id: Id)
    requires CloudOk(c) && Possible(c, ev) && id in c.births
    ensures id in AfterEvent(c, ev).births && AfterEvent(c, ev).births[id] == c.births[id]
  {
  }

  lemma {:induction false} BirthsPersist(ss: seq<State>, ls: seq<Label>, n: nat, id: Id)
    requires IsRun(ss, ls) && n < |ss| && id in ss[0].cloud.births
    ensures id in ss[n].cloud.births && ss[n].cloud.births[id] == ss[0].cloud.births[id]
  {
    if n > 0 {
      BirthsPersist(ss, ls, n - 1, id);
      LocksAreOwned(ss, ls, n - 1);
      assert StepsTo(ss, ls, n - 1);
      match ls[n - 1]
      case Spawn(_, _) => {}
      case Drive(i, r, e) => BirthsLast(ss[n - 1], i, r, e);
      case Env(ev) => EventKeepsBirths(ss[n - 1].cloud, ev, id);
    }
  }

  /** In one zone and group, and without overlap, no run shares a name. */
  lemma ApartInOnePlace(ss: seq<State>, ls: seq<Label>, name: string, a: Disk, b: Disk)
    requires SnapshotRun(ss, ls, a, b) && NeverOverlap(ss)
    requires a.id != b.id && a.zone == b.zone && a.group == b.group
    ensures !Shares(ss[|ls|].cloud, name, a.id, b.id)
  {
    var n := |ls|;
    NamesAreUnique(ss, ls, n);
    LocksAreOwned(ss, ls, n);
    BirthsPersist(ss, ls, n, a.id);
    BirthsPersist(ss, ls, n, b.id);
    var c := ss[n].cloud;
    forall x, y | x in c.snaps && y in c.snaps && c.snaps[x].src == a.id && c.snaps[y].src == b.id
      ensures !(c.snaps[x].name == name && c.snaps[y].name == name)
    {
    }
  }

  /** A state that is reached without overlap and shares the name refutes it. */
  lemma SharedSomewhere(g: Scene, s: State, name: string, a: Disk, b: Disk, mayOverlap: bool)
    requires g.start == WithDisks(a, b) && a.id != b.id && Reachable(g, s) && (mayOverlap || g.oneAtATime)
    requires AtMostOneInFlight(s) || mayOverlap
    requires Shares(s.cloud, name, a.id, b.id)
    ensures !NeverShared(name, a, b, mayOverlap)
  {
    var ss, ls :| LeadsTo(g, ss, ls, s);
    if !mayOverlap {
      forall k | 0 <= k < |ss| ensures NoOverlap(ss[k]) {
        assert AtMostOneInFlight(ss[k]);
      }
    }
    assert SnapshotRun(ss, ls, a, b);
  }

  /**
   The exact condition: under every run with only the driver taking snapshots a name used
   for one volume is not used for the other if and only if the two volumes are in the same
   zone and group and requests for the name do not overlap.
   */
  lemma NamesAreKeptApart(name: string, csiA: string, csiB: string, a: Disk, b: Disk, mayOverlap: bool)
    requires Contenders(name, csiA, csiB, a, b)
    ensures NeverShared(name, a, b, mayOverlap) <==> !mayOverlap && a.zone == b.zone && a.group == b.group
  {
    if mayOverlap {
      var s := SameNameTwice(name, csiA, csiB, a, b);
      SharedSomewhere(Scene(WithDisks(a, b), false, 0, ANYTHING_GOES), s, name, a, b, true);
    } else if a.zone == b.zone && a.group == b.group {
      forall ss: seq<State>, ls: seq<Label> | SnapshotRun(ss, ls, a, b) && NeverOverlap(ss)
        ensures !Shares(ss[|ls|].cloud, name, a.id, b.id)
      {
        ApartInOnePlace(ss, ls, name, a, b);
      }
    } else {
      var s := SameNameElsewhere(name, csiA, csiB, a, b);
      SharedSomewhere(Scene(WithDisks(a, b), true, 0, ANYTHING_GOES), s, name, a, b, false);
    }
  }

  // ---------------------------------------------------------------- retrying, exactly

  /** A request that has succeeded with a snapshot which is still there is repeated, and the repeat learns what bears its name. */
  ghost predicate RetriedAt(ss: seq<State>, ls: seq<Label>, m: nat, i: nat, n: nat, j: nat, id: Id)
    requires |ss| == |ls| + 1
  {
    && m < n < |ls| && SucceedsWith(ss, ls, m, i, id)
    && ls[n].Drive? && ls[n].i == j && StepsTo(ss, ls, n) && ls[n].reply.SnapPage? && ls[n].reply.total <= PAGE_SIZE
    && ss[n].rpcs[j].req == ss[m].rpcs[i].req && id in ss[n].cloud.snaps
  }

  /** In every such run, with or without overlap, a repeat gives the same snapshot. */
  ghost predicate RetryGivesSame(mayOverlap: bool) {
    forall ss: seq<State>, ls: seq<Label>, m: nat, i: nat, n: nat, j: nat, id: Id ::
      RetryRun(ss, ls, mayOverlap) && RetriedAt(ss, ls, m, i, n, j, id) ==> Gives(Resume(ss[n].rpcs[j], ls[n].reply), id)
  }

  ghost predicate RetryRun(ss: seq<State>, ls: seq<Label>, mayOverlap: bool) {
    && IsRun(ss, ls) && UniqueNames(ss[0].cloud)
    && forall k :: 0 <= k < |ls| ==> OnlyDriverSnapshots(ls[k]) && (mayOverlap || NoOverlap(ss[k]))
  }

  /** The refusing step at the end of a run that leads to the repeat's lookup. */
  lemma RefusalExtends(g: Scene, ss: seq<State>, ls: seq<Label>, s: State, l: Label)
    requires LeadsTo(g, ss, ls, s) && UniqueNames(g.start.cloud) && Enabled(s, l) && OnlyDriverSnapshots(l)
    ensures RetryRun(ss + [Apply(s, l)], ls + [l], true)
  {
    var ss', ls' := ss + [Apply(s, l)], ls + [l];
    forall k | 0 <= k < |ls'| ensures StepsTo(ss', ls', k) && OnlyDriverSnapshots(ls'[k]) {
      if k < |ls| {
        assert StepsTo(ss, ls, k);
      }
    }
  }

  lemma MayBeRefused(s: State, i: nat, req: Request, a: Disk, snapA: Snap, snapB: Snap)
    requires i in s.rpcs && req.CreateSnapshot?
    requires s.rpcs[i] == Rpc(req, Running(Cs(req.name, a.id, true, CsLookup(a))), [a.id])
    requires s.cloud.snaps == map[snapA.id := snapA, snapB.id := snapB] && snapA.id != snapB.id && snapB.src != a.id
    requires snapA.name == req.name && snapA.zone == a.zone && snapA.group == a.group
    requires snapB.name == req.name && snapB.zone == a.zone && snapB.group == a.group
    ensures Enabled(s, Drive(i, SnapPage(2, [snapB, snapA]), NoEffect))
    ensures forall id :: !Gives(Resume(s.rpcs[i], SnapPage(2, [snapB, snapA])), id)
  {
    BothAreListed(s.cloud, req.name, a, snapA, snapB);
    assert Resume(s.rpcs[i], SnapPage(2, [snapB, snapA])).phase == Unwinding(Err(AlreadyExists));
  }

  lemma OverlapBreaksRetry(name: string, csiA: string, csiB: string, a: Disk, b: Disk)
    requires Contenders(name, csiA, csiB, a, b) && a.zone == b.zone && a.group == b.group
    ensures !RetryGivesSame(true)
  {
    var g := Scene(WithDisks(a, b), false, 0, ANYTHING_GOES);
    var snapA, snapB := SnapOfDisk("a", name, a), SnapOfDisk("b", name, b);
    var s := RepeatAtLookup(name, csiA, csiB, a, b);
    var ss, ls :| LeadsTo(g, ss, ls, s);
    var l := Drive(2, SnapPage(2, [snapB, snapA]), NoEffect);
    MayBeRefused(s, 2, CreateSnapshot(name, csiA, true), a, snapA, snapB);
    RefusalExtends(g, ss, ls, s, l);
    var m := SuccessWasDecided(ss, ls, |ls|, 0, "a");
    RetriedByRefusal(ss, ls, l, m, s, "a");
  }

  lemma RetriedByRefusal(ss: seq<State>, ls: seq<Label>, l: Label, m: nat, s: State, id: Id)
    requires IsRun(ss, ls) && ss[|ls|] == s && l.Drive? && Enabled(s, l) && RetryRun(ss + [Apply(s, l)], ls + [l], true)
    requires m < |ls| && SucceedsWith(ss, ls, m, 0, id) && l.i == 2 && l.reply.SnapPage? && l.reply.total <= PAGE_SIZE
    requires s.rpcs[2].req == ss[m].rpcs[0].req && id in s.cloud.snaps && !Gives(Resume(s.rpcs[2], l.reply), id)
    ensures !RetryGivesSame(true)
  {
    var ss', ls' := ss + [Apply(s, l)], ls + [l];
    assert ss'[m] == ss[m] && ls'[m] == ls[m] && ss'[m + 1] == ss[m + 1];
    assert ss'[|ls|] == s && ls'[|ls|] == l && StepsTo(ss', ls', |ls|) && StepsTo(ss', ls', m);
    assert SucceedsWith(ss', ls', m, 0, id);
    assert RetriedAt(ss', ls', m, 0, |ls|, 2, id);
  }

  /**
   The exact condition on retries: a repeated request gives the same snapshot, over every
   run with only the driver taking snapshots, if and only if requests for one name, zone
   and group may not overlap.
   */
  lemma RetryIsIdempotentExactly(name: string, csiA: string, csiB: string, a: Disk, b: Disk, mayOverlap: bool)
    requires Contenders(name, csiA, csiB, a, b) && a.zone == b.zone && a.group == b.group
    ensures RetryGivesSame(mayOverlap) <==> !mayOverlap
  {
    if mayOverlap {
      OverlapBreaksRetry(name, csiA, csiB, a, b);
    } else {
      forall ss: seq<State>, ls: seq<Label>, m: nat, i: nat, n: nat, j: nat, id: Id
        | RetryRun(ss, ls, false) && RetriedAt(ss, ls, m, i, n, j, id)
        ensures Gives(Resume(ss[n].rpcs[j], ls[n].reply), id)
      {
        CreateSnapshotIsIdempotent(ss, ls, m, i, n, j, id);
      }
    }
  }
}
