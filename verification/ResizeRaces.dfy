/** Runs in which an expansion answers OK, or has answered OK, and the disk is smaller. */
module ResizeRaces {
  import opened Wrappers
  import opened Capacity
  import opened CloudTypes
  import opened RpcCodes
  import opened ControllerProgram
  import opened ControllerSystem
  import opened Expansion
  import opened Reaching
  import opened Races

  /** A request to expand to a whole number of GiB within the limits. */
  function ExpandTo(csiVolId: string, gib: int64): Request
    requires 20 <= gib <= 32768
  {
    Expand(csiVolId, Some(CapacityRange(gib * GIB, 0)), false)
  }

  lemma ExpandToMeaning(gib: int64)
    requires 20 <= gib <= 32768
    ensures ExpandGib(Some(CapacityRange(gib * GIB, 0))) == Success(gib) && GibToByte(gib) == gib * GIB
  {
    GibToByteIsExact(gib);
  }

  /** The RPC of an expansion at a point. */
  function At(csiVolId: string, gib: int64, at: ExAt): Rpc
    requires 20 <= gib <= 32768
  {
    var req := ExpandTo(csiVolId, gib);
    Rpc(req, Running(Ex(MainKey(req), req.range, false, at)), [MainKey(req)])
  }

  function AtEnd(csiVolId: string, gib: int64, phase: Phase): Rpc
    requires 20 <= gib <= 32768
  {
    Rpc(ExpandTo(csiVolId, gib), phase, if phase.Finished? then [] else [MainKey(ExpandTo(csiVolId, gib))])
  }

  /** The volume can be expanded: nobody holds it, and it is smaller than asked for. */
  predicate CanExpand(s: State, csiVolId: string, gib: int64)
    requires 20 <= gib <= 32768
  {
    var req := ExpandTo(csiVolId, gib);
    var id := MainKey(req);
    && Precheck(req).None? && id !in s.locks && id in s.cloud.disks && IsValidVolumeType(s.cloud.disks[id].typ)
    && 0 <= s.cloud.disks[id].size < gib
  }

  lemma FindsSmaller(csiVolId: string, gib: int64, d: Disk)
    requires 20 <= gib <= 32768 && IsValidVolumeType(d.typ) && 0 <= d.size < gib
    ensures Resume(At(csiVolId, gib, ExFind), Disks([d])) == At(csiVolId, gib, ExResize(d, gib))
  {
    ExpandToMeaning(gib);
    GibToByteIsExact(d.size);
  }

  /** An expansion of it gets to the issue of its resize. */
  lemma ExpandReachesResize(g: Scene, s: State, i: nat, csiVolId: string, gib: int64)
    requires !g.oneAtATime && 20 <= gib <= 32768
    requires Reachable(g, s) && i !in s.rpcs && CanExpand(s, csiVolId, gib)
    ensures var id := MainKey(ExpandTo(csiVolId, gib));
      Reachable(g, With(s, i, At(csiVolId, gib, ExResize(s.cloud.disks[id], gib)), s.locks + {id}, s.cloud))
  {
    var req := ExpandTo(csiVolId, gib);
    var id := MainKey(req);
    var held, t2 := s.locks + {id}, At(csiVolId, gib, ExResize(s.cloud.disks[id], gib));
    ReachFirstPoint(g, s, i, req, Ex(id, req.range, false, ExFind));
    var s1 := With(s, i, At(csiVolId, gib, ExFind), held, s.cloud);
    FindsSmaller(csiVolId, gib, s.cloud.disks[id]);
    ReachDescribed(g, s1, i, id, t2);
    assert With(s1, i, t2, held, s.cloud) == With(s, i, t2, held, s.cloud);
  }

  /** A resize that is accepted is queued and waited for. */
  lemma ExpandWaits(g: Scene, s: State, i: nat, csiVolId: string, gib: int64, ticket: nat)
    requires !g.oneAtATime && 20 <= gib <= 32768
    requires Reachable(g, s) && i !in s.rpcs && CanExpand(s, csiVolId, gib) && ticket !in s.cloud.ops
    ensures var id := MainKey(ExpandTo(csiVolId, gib));
      Reachable(g, With(s, i, At(csiVolId, gib, ExWait(s.cloud.disks[id], gib, false)), s.locks + {id},
                        WithOp(s.cloud, ticket, Op(i, id, ResizeOp(gib)))))
  {
    var id := MainKey(ExpandTo(csiVolId, gib));
    var d, held, c := s.cloud.disks[id], s.locks + {id}, WithOp(s.cloud, ticket, Op(i, id, ResizeOp(gib)));
    ExpandReachesResize(g, s, i, csiVolId, gib);
    var s1 := With(s, i, At(csiVolId, gib, ExResize(d, gib)), held, s.cloud);
    var t2 := At(csiVolId, gib, ExWait(d, gib, false));
    ReachQueued(g, s1, i, Accepted, ticket, t2, Op(i, id, ResizeOp(gib)));
    assert With(s1, i, t2, held, c) == With(s, i, t2, held, c);
  }

  /** A resize that takes effect but is reported as an error is left in flight. */
  lemma ExpandLeavesResize(g: Scene, s: State, i: nat, csiVolId: string, gib: int64, ticket: nat)
    requires !g.oneAtATime && 20 <= gib <= 32768
    requires Reachable(g, s) && i !in s.rpcs && CanExpand(s, csiVolId, gib) && ticket !in s.cloud.ops
    ensures var id := MainKey(ExpandTo(csiVolId, gib));
      Reachable(g, With(s, i, AtEnd(csiVolId, gib, Finished(Err(Internal))), s.locks,
                        WithOp(s.cloud, ticket, Op(i, id, ResizeOp(gib)))))
  {
    var id := MainKey(ExpandTo(csiVolId, gib));
    var d, held, c := s.cloud.disks[id], s.locks + {id}, WithOp(s.cloud, ticket, Op(i, id, ResizeOp(gib)));
    ExpandReachesResize(g, s, i, csiVolId, gib);
    var s1 := With(s, i, At(csiVolId, gib, ExResize(d, gib)), held, s.cloud);
    var t2 := AtEnd(csiVolId, gib, Unwinding(Err(Internal)));
    ReachQueued(g, s1, i, ApiError, ticket, t2, Op(i, id, ResizeOp(gib)));
    var s2 := With(s1, i, t2, held, c);
    ReachFinished(g, s2, i, id, Err(Internal));
    var t3 := AtEnd(csiVolId, gib, Finished(Err(Internal)));
    assert With(s2, i, t3, held - {id}, c) == With(s, i, t3, s.locks, c);
  }

  /** A waiting expansion that is told its disk is available reports the size asked for. */
  lemma ExpandReports(g: Scene, s: State, i: nat, csiVolId: string, gib: int64, vol: Disk)
    requires !g.oneAtATime && 20 <= gib <= 32768
    requires Reachable(g, s) && i in s.rpcs && s.rpcs[i] == At(csiVolId, gib, ExWait(vol, gib, false))
    requires var id := MainKey(ExpandTo(csiVolId, gib)); id in s.cloud.disks && s.cloud.disks[id].status == Available
    requires g.rules.shown ==> forall ticket :: ticket in s.cloud.ops ==> s.cloud.ops[ticket].issuer != i
    ensures Reachable(g, With(s, i, AtEnd(csiVolId, gib, Unwinding(Ok(Expanded(GibToByte(gib), true)))), s.locks, s.cloud))
  {
    ReachDescribed(g, s, i, MainKey(ExpandTo(csiVolId, gib)), AtEnd(csiVolId, gib, Unwinding(Ok(Expanded(GibToByte(gib), true)))));
  }

  /** An expansion is answering OK, still holding its lock, and its disk is smaller than it reports. */
  ghost predicate ReportsTooMuch(s: State, i: nat, id: Id) {
    && i in s.rpcs && Reporting(s.rpcs[i]) && MainKey(s.rpcs[i].req) == id && id in s.locks && id in s.cloud.disks
    && GibToByte(s.cloud.disks[id].size) < s.rpcs[i].phase.outcome.response.capacityBytes
  }

  /** A disk and a request to expand it. */
  predicate Expandable(csiVolId: string, d: Disk) {
    && VolIdOr(csiVolId, "") == d.id && Precheck(ExpandTo(csiVolId, 20)).None?
    && IsValidVolumeType(d.typ) && d.size == 20 && d.status == Available
  }

  lemma TwentyIsLess(gib: int64)
    requires 20 < gib <= 32768
    ensures GibToByte(20) < GibToByte(gib)
  {
    GibToByteIsExact(20);
    GibToByteIsExact(gib);
  }

  /** The first poll is immediate: while the accepted resize does not show, the OK comes before the size. */
  lemma ImmediatePollReportsTooMuch(csiVolId: string, d: Disk) returns (s: State)
    requires Expandable(csiVolId, d)
    ensures Reachable(Scene(WithDisk(d), false, 0, Rules(true, false, true, true)), s) && ReportsTooMuch(s, 0, d.id)
  {
    var g := Scene(WithDisk(d), false, 0, Rules(true, false, true, true));
    ReachStart(g);
    ExpandWaits(g, g.start, 0, csiVolId, 30, 0);
    var s1 := With(g.start, 0, At(csiVolId, 30, ExWait(d, 30, false)), {} + {d.id}, WithOp(g.start.cloud, 0, Op(0, d.id, ResizeOp(30))));
    ExpandReports(g, s1, 0, csiVolId, 30, d);
    s := With(s1, 0, AtEnd(csiVolId, 30, Unwinding(Ok(Expanded(GibToByte(30), true)))), s1.locks, s1.cloud);
    TwentyIsLess(30);
  }

  /** A resize that is accepted and then dropped leaves the disk as it was, and is reported as done. */
  lemma DroppedResizeReportsTooMuch(csiVolId: string, d: Disk) returns (s: State)
    requires Expandable(csiVolId, d)
    ensures Reachable(Scene(WithDisk(d), false, 0, Rules(true, true, false, true)), s) && ReportsTooMuch(s, 0, d.id)
  {
    var g := Scene(WithDisk(d), false, 0, Rules(true, true, false, true));
    ReachStart(g);
    ExpandWaits(g, g.start, 0, csiVolId, 30, 0);
    var s1 := With(g.start, 0, At(csiVolId, 30, ExWait(d, 30, false)), {} + {d.id}, WithOp(g.start.cloud, 0, Op(0, d.id, ResizeOp(30))));
    ReachDropped(g, s1, 0);
    var s2 := s1.(cloud := AfterEvent(s1.cloud, Drop(0)));
    ExpandReports(g, s2, 0, csiVolId, 30, d);
    s := With(s2, 0, AtEnd(csiVolId, 30, Unwinding(Ok(Expanded(GibToByte(30), true)))), s2.locks, s2.cloud);
    TwentyIsLess(30);
  }

  /** A failed expansion has left its resize in flight, and a larger one has landed and is about to be reported. */
  lemma LargerResizeLands(csiVolId: string, d: Disk) returns (s: State)
    requires Expandable(csiVolId, d)
    ensures Reachable(Scene(WithDisk(d), false, 0, Rules(false, true, true, true)), s)
    ensures s.rpcs.Keys == {0, 1} && s.rpcs[1] == At(csiVolId, 40, ExWait(d, 40, false)) && s.locks == {d.id}
    ensures s.cloud.disks == map[d.id := d.(size := 40)] && s.cloud.ops == map[0 := Op(0, d.id, ResizeOp(30))]
  {
    var g := Scene(WithDisk(d), false, 0, Rules(false, true, true, true));
    ReachStart(g);
    ExpandLeavesResize(g, g.start, 0, csiVolId, 30, 0);
    var s1 := With(g.start, 0, AtEnd(csiVolId, 30, Finished(Err(Internal))), {}, WithOp(g.start.cloud, 0, Op(0, d.id, ResizeOp(30))));
    ExpandWaits(g, s1, 1, csiVolId, 40, 1);
    var s2 := With(s1, 1, At(csiVolId, 40, ExWait(d, 40, false)), {} + {d.id}, WithOp(s1.cloud, 1, Op(1, d.id, ResizeOp(40))));
    ReachLanded(g, s2, 1);
    s := s2.(cloud := AfterEvent(s2.cloud, Land(1)));
  }

  /**
   A resize left in flight by an expansion that failed may land after a larger one, and
   makes the disk smaller again, even while the larger expansion is answering OK.
   */
  lemma StaleResizeShrinks(csiVolId: string, d: Disk) returns (s: State, ticket: nat)
    requires Expandable(csiVolId, d)
    ensures Reachable(Scene(WithDisk(d), false, 0, Rules(false, true, true, true)), s) && d.id in s.cloud.disks
    ensures ticket in s.cloud.ops && Enabled(s, Env(Land(ticket))) && OnlyDriver(s, Env(Land(ticket)))
    ensures var s' := Apply(s, Env(Land(ticket)));
      && d.id in s'.cloud.disks && GibToByte(s'.cloud.disks[d.id].size) < GibToByte(s.cloud.disks[d.id].size)
      && ReportsTooMuch(s', 1, d.id)
  {
    var s1 := LargerResizeLands(csiVolId, d);
    ExpandReports(Scene(WithDisk(d), false, 0, Rules(false, true, true, true)), s1, 1, csiVolId, 40, d);
    s := With(s1, 1, AtEnd(csiVolId, 40, Unwinding(Ok(Expanded(GibToByte(40), true)))), s1.locks, s1.cloud);
    ticket := 0;
    GibToByteIsExact(30);
    GibToByteIsExact(40);
  }
}
