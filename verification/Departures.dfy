/**
 A delete that answers OK means it: the disk or snapshot it was about is gone for good, and
 a disk that is there can be deleted.
 */
module Departures {
  import opened CloudTypes
  import opened ControllerProgram
  import opened ControllerSystem
  import opened Expansion
  import opened Reaching
  import opened Races

  predicate Deletes(req: Request) {
    (req.DeleteVolume? || req.DeleteSnapshot?) && Precheck(req).None?
  }

  /** A delete that is answering OK, or has answered OK. */
  predicate Succeeded(t: Rpc) {
    (t.phase.Unwinding? || t.phase.Finished?) && t.phase.outcome.Ok?
  }

  /** The cloud has, or has had, what the request is to delete. */
  predicate Known(c: Cloud, req: Request) {
    if req.DeleteVolume? then MainKey(req) in c.births else MainKey(req) in c.snapIds
  }

  predicate IsThere(c: Cloud, req: Request) {
    if req.DeleteVolume? then MainKey(req) in c.disks else MainKey(req) in c.snaps
  }

  // ---------------------------------------------------------------- gone for good

  /** What the cloud has had it goes on having had, and what is gone does not come back. */
  lemma StaysGone(s: State, l: Label, req: Request)
    requires CloudOk(s.cloud) && Enabled(s, l) && Known(s.cloud, req)
    ensures var c' := Apply(s, l).cloud; Known(c', req) && (!IsThere(s.cloud, req) ==> !IsThere(c', req))
  {
    match l
    case Spawn(_, _) => {}
    case Drive(i, r, e) =>
      if NextAction(s.rpcs[i]).Ask? {
        CallKeepsGone(s.cloud, i, r, e, NextAction(s.rpcs[i]).call, req);
      }
    case Env(ev) => EventKeepsGone(s.cloud, ev, req);
  }

  lemma CallKeepsGone(c: Cloud, i: nat, r: Reply, e: Effect, call: Call, req: Request)
    requires CloudOk(c) && Known(c, req) && (Answers(c, call, r, e) || e == NoEffect)
    ensures var c' := AfterCall(c, i, call, e); Known(c', req) && (!IsThere(c, req) ==> !IsThere(c', req))
  {
  }

  lemma EventKeepsGone(c: Cloud, ev: Event, req: Request)
    requires CloudOk(c) && Possible(c, ev) && Known(c, req)
    ensures var c' := AfterEvent(c, ev); Known(c', req) && (!IsThere(c, req) ==> !IsThere(c', req))
  {
  }

  /** The answer tells a delete that what it deletes is not there. */
  predicate TellsMissing(req: Request, call: Call, r: Reply) {
    var id := MainKey(req);
    if req.DeleteVolume? then (call == DescribeDisk(id) && r == Disks([])) || (call == ReleaseDisk(id) && r == ResourceNotFound)
    else (call == DescribeSnap(id) && r == Snaps([])) || (call == DeleteSnap(id) && r == ResourceNotFound)
  }

  lemma DvSucceedsByBeingTold(id: Id, at: DvAt, r: Reply)
    requires AdvanceDv(id, at, r).Return? && AdvanceDv(id, at, r).outcome.Ok?
    ensures (CallOf(Dv(id, at)) == DescribeDisk(id) && r == Disks([])) || (CallOf(Dv(id, at)) == ReleaseDisk(id) && r == ResourceNotFound)
  {
    match at
    case DvFind(_) => {}
    case DvRelease(_, _) => {}
    case DvWaitGone(_, _) => {}
    case DvWaitReleased(_, _) => {}
  }

  lemma DsSucceedsByBeingTold(id: Id, at: DsAt, r: Reply)
    requires AdvanceDs(id, at, r).Return? && AdvanceDs(id, at, r).outcome.Ok?
    ensures (CallOf(Ds(id, at)) == DescribeSnap(id) && r == Snaps([])) || (CallOf(Ds(id, at)) == DeleteSnap(id) && r == ResourceNotFound)
  {
    match at
    case DsFind => {}
    case DsDelete => {}
    case DsWait(_) => {}
  }

  /** A delete comes to answer OK only by being told so. */
  lemma SucceedsByBeingTold(t: Rpc, r: Reply)
    requires Deletes(t.req) && WellFormedRpc(t) && Active(t) && Succeeded(Resume(t, r)) && !Succeeded(t)
    ensures NextAction(t).Ask? && TellsMissing(t.req, NextAction(t).call, r)
  {
    if t.phase.Running? {
      var b := t.phase.body;
      if b.Dv? {
        DvSucceedsByBeingTold(b.id, b.dvAt, r);
      } else {
        DsSucceedsByBeingTold(b.snapId, b.dsAt, r);
      }
    }
  }

  lemma OwnStepFindsGone(s: State, i: nat, r: Reply, e: Effect)
    requires Inv(s) && CanDrive(s, i, r, e) && Deletes(s.rpcs[i].req)
    requires Succeeded(Resume(s.rpcs[i], r)) && !Succeeded(s.rpcs[i])
    ensures !IsThere(s.cloud, s.rpcs[i].req)
  {
    SucceedsByBeingTold(s.rpcs[i], r);
  }

  ghost predicate GoneIfDone(s: State, i: nat, req: Request) {
    i in s.rpcs && s.rpcs[i].req == req && Known(s.cloud, req) && (Succeeded(s.rpcs[i]) ==> !IsThere(s.cloud, req))
  }

  lemma StepKeepsGone(s: State, l: Label, i: nat, req: Request)
    requires Inv(s) && Enabled(s, l) && Deletes(req) && GoneIfDone(s, i, req)
    ensures GoneIfDone(Apply(s, l), i, req)
  {
    StaysGone(s, l, req);
    FaresInStep(s, l, i);
    if MoveOf(l, i).Moved? && Succeeded(Resume(s.rpcs[i], l.reply)) && !Succeeded(s.rpcs[i]) {
      OwnStepFindsGone(s, i, l.reply, l.effect);
    }
  }

  /**
   Whatever the cloud and anybody else does: if the cloud has had the disk or snapshot by
   the time its delete is still undecided, then while that delete is answering OK, and at
   all times after, it is not there.
   */
  lemma {:induction false} DeletedIsGone(ss: seq<State>, ls: seq<Label>, m: nat, n: nat, i: nat)
    requires IsRun(ss, ls) && m <= n < |ss| && i in ss[m].rpcs && Deletes(ss[m].rpcs[i].req)
    requires !Succeeded(ss[m].rpcs[i]) && Known(ss[m].cloud, ss[m].rpcs[i].req)
    ensures GoneIfDone(ss[n], i, ss[m].rpcs[i].req)
    decreases n
  {
    if m < n {
      DeletedIsGone(ss, ls, m, n - 1, i);
      LocksAreOwned(ss, ls, n - 1);
      assert StepsTo(ss, ls, n - 1);
      StepKeepsGone(ss[n - 1], ls[n - 1], i, ss[m].rpcs[i].req);
    }
  }

  // ---------------------------------------------------------------- and it can be done

  /** The RPC of a delete at a point. */
  function At(csiVolId: string, at: DvAt): Rpc {
    var req := DeleteVolume(csiVolId);
    Rpc(req, Running(Dv(MainKey(req), at)), [MainKey(req)])
  }

  function InBin(d: Disk): Disk {
    d.(status := Recycled)
  }

  /** A released disk gets into the bin. */
  lemma ReachBinned(g: Scene, s: State, id: Id)
    requires Reachable(g, s) && id in s.cloud.disks && !g.oneAtATime
    ensures Reachable(g, s.(cloud := PutDisk(s.cloud, id, InBin(s.cloud.disks[id]))))
  {
    var d := s.cloud.disks[id];
    ReachStep(g, s, Env(Update(id, Recycled, d.serial, d.snapshotAbility)), s.(cloud := PutDisk(s.cloud, id, InBin(d))));
  }

  /** A disk in the bin goes away. */
  lemma ReachVanished(g: Scene, s: State, id: Id)
    requires Reachable(g, s) && id in s.cloud.disks && !g.oneAtATime
    ensures Reachable(g, s.(cloud := s.cloud.(disks := s.cloud.disks - {id})))
  {
    ReachStep(g, s, Env(Vanish(id)), s.(cloud := s.cloud.(disks := s.cloud.disks - {id})));
  }

  /** A round finds the disk and releases it. */
  lemma FindsAndReleases(g: Scene, s: State, csiVolId: string, times: nat)
    requires Reachable(g, s) && !g.oneAtATime && 0 in s.rpcs && s.rpcs[0] == At(csiVolId, DvFind(times))
    requires MainKey(DeleteVolume(csiVolId)) in s.cloud.disks
    ensures var last := s.cloud.disks[MainKey(DeleteVolume(csiVolId))].status == Recycled;
      Reachable(g, With(s, 0, At(csiVolId, if last then DvWaitGone(times, false) else DvWaitReleased(times, false)), s.locks, s.cloud))
  {
    var id := MainKey(DeleteVolume(csiVolId));
    var last := s.cloud.disks[id].status == Recycled;
    var t1 := At(csiVolId, DvRelease(times, last));
    ReachDescribed(g, s, 0, id, t1);
    var s1 := With(s, 0, t1, s.locks, s.cloud);
    var t2 := At(csiVolId, if last then DvWaitGone(times, false) else DvWaitReleased(times, false));
    ReachDrive(g, s1, 0, Accepted, NoEffect, t2, s.locks, s.cloud);
    assert With(s1, 0, t2, s.locks, s.cloud) == With(s, 0, t2, s.locks, s.cloud);
  }

  /** Once the disk is in the bin the second round begins. */
  lemma BinStartsSecondRound(g: Scene, s: State, csiVolId: string)
    requires Reachable(g, s) && !g.oneAtATime && 0 in s.rpcs && s.rpcs[0] == At(csiVolId, DvWaitReleased(1, false))
    requires MainKey(DeleteVolume(csiVolId)) in s.cloud.disks
    requires s.cloud.disks[MainKey(DeleteVolume(csiVolId))].status == Recycled
    ensures Reachable(g, With(s, 0, At(csiVolId, DvFind(2)), s.locks, s.cloud))
  {
    ReachDescribed(g, s, 0, MainKey(DeleteVolume(csiVolId)), At(csiVolId, DvFind(2)));
  }

  /** Once the disk is gone the delete finishes with success. */
  lemma GoneFinishes(g: Scene, s: State, csiVolId: string)
    requires Reachable(g, s) && !g.oneAtATime && 0 in s.rpcs && s.rpcs[0] == At(csiVolId, DvWaitGone(2, false))
    requires MainKey(DeleteVolume(csiVolId)) !in s.cloud.disks
    ensures var id := MainKey(DeleteVolume(csiVolId));
      Reachable(g, With(s, 0, Rpc(DeleteVolume(csiVolId), Finished(Ok(Done)), []), s.locks - {id}, s.cloud))
  {
    var req := DeleteVolume(csiVolId);
    var id := MainKey(req);
    var t1 := Rpc(req, Unwinding(Ok(Done)), [id]);
    ReachDrive(g, s, 0, Disks([]), NoEffect, t1, s.locks, s.cloud);
    var s1 := With(s, 0, t1, s.locks, s.cloud);
    ReachFinished(g, s1, 0, id, Ok(Done));
    var t2 := Rpc(req, Finished(Ok(Done)), []);
    assert With(s1, 0, t2, s.locks - {id}, s.cloud) == With(s, 0, t2, s.locks - {id}, s.cloud);
  }

  /**
   For every disk there is, whatever its status outside the bin, there is a run in which its
   delete releases it, waits until it is in the bin, releases it again, waits until it is
   gone, and answers OK, all under the strictest rules about operations in flight.
   */
  lemma DeleteSucceeds(csiVolId: string, d: Disk) returns (s: State)
    requires Precheck(DeleteVolume(csiVolId)).None? && d.id == MainKey(DeleteVolume(csiVolId)) && d.status != Recycled
    ensures Reachable(Scene(WithDisk(d), false, 0, Rules(true, true, true, true)), s)
    ensures s.rpcs == map[0 := Rpc(DeleteVolume(csiVolId), Finished(Ok(Done)), [])] && s.locks == {}
    ensures s.cloud.disks == map[] && d.id in s.cloud.births
  {
    var g := Scene(WithDisk(d), false, 0, Rules(true, true, true, true));
    var req := DeleteVolume(csiVolId);
    ReachStart(g);
    ReachFirstPoint(g, g.start, 0, req, Dv(d.id, DvFind(1)));
    var s1 := With(g.start, 0, At(csiVolId, DvFind(1)), g.start.locks + {d.id}, g.start.cloud);
    FindsAndReleases(g, s1, csiVolId, 1);
    var s2 := With(s1, 0, At(csiVolId, DvWaitReleased(1, false)), s1.locks, s1.cloud);
    ReachBinned(g, s2, d.id);
    var s3 := s2.(cloud := PutDisk(s2.cloud, d.id, InBin(d)));
    BinStartsSecondRound(g, s3, csiVolId);
    var s4 := With(s3, 0, At(csiVolId, DvFind(2)), s3.locks, s3.cloud);
    s := SecondRoundSucceeds(g, s4, csiVolId, d.id);
  }

  /** The second round, of a disk in the bin. */
  lemma SecondRoundSucceeds(g: Scene, s: State, csiVolId: string, id: Id) returns (s': State)
    requires Reachable(g, s) && !g.oneAtATime && id == MainKey(DeleteVolume(csiVolId))
    requires s.rpcs.Keys == {0} && s.rpcs[0] == At(csiVolId, DvFind(2)) && s.locks == {id}
    requires s.cloud.disks.Keys == {id} && s.cloud.disks[id].status == Recycled && id in s.cloud.births
    ensures Reachable(g, s')
    ensures s'.rpcs == map[0 := Rpc(DeleteVolume(csiVolId), Finished(Ok(Done)), [])] && s'.locks == {}
    ensures s'.cloud.disks == map[] && id in s'.cloud.births
  {
    FindsAndReleases(g, s, csiVolId, 2);
    var s1 := With(s, 0, At(csiVolId, DvWaitGone(2, false)), s.locks, s.cloud);
    ReachVanished(g, s1, id);
    var s2 := s1.(cloud := s1.cloud.(disks := s1.cloud.disks - {id}));
    GoneFinishes(g, s2, csiVolId);
    s' := With(s2, 0, Rpc(DeleteVolume(csiVolId), Finished(Ok(Done)), []), s2.locks - {id}, s2.cloud);
  }
}
