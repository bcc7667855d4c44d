/** Runs in which an attach or a detach lands after its RPC has given the volume back. */
module Races {
  import opened CloudTypes
  import opened RpcCodes
  import opened ControllerProgram
  import opened ControllerSystem
  import opened Expansion
  import opened Reaching

  /** An unpublish of a volume from the node it is on is about to detach it. */
  lemma UnpublishReachesDetach(g: Scene, s: State, i: nat, csiVolId: string, node: Id)
    requires !g.oneAtATime
    requires Reachable(g, s) && i !in s.rpcs
    requires var req := Unpublish(csiVolId, node); var id := MainKey(req);
      && Precheck(req).None? && id !in s.locks && id in s.cloud.disks && s.cloud.disks[id].instance == node
    ensures var req := Unpublish(csiVolId, node); var id := MainKey(req);
      Reachable(g, With(s, i, Rpc(req, Running(Up(id, node, UpDetach(s.cloud.disks[id]))), [id]), s.locks + {id}, s.cloud))
  {
    var req := Unpublish(csiVolId, node);
    var id, d := MainKey(req), s.cloud.disks[MainKey(req)];
    var held := s.locks + {id};
    ReachFirstPoint(g, s, i, req, Up(id, node, UpFind));
    var s1 := With(s, i, Rpc(req, Running(Up(id, node, UpFind)), [id]), held, s.cloud);
    var t2 := Rpc(req, Running(Up(id, node, UpDetach(d))), [id]);
    ReachDescribed(g, s1, i, id, t2);
    assert With(s1, i, t2, held, s.cloud) == With(s, i, t2, held, s.cloud);
  }

  /** An unpublish whose detach takes effect but is reported as an error leaves it in flight. */
  lemma UnpublishLeavesDetach(g: Scene, s: State, i: nat, csiVolId: string, node: Id, ticket: nat)
    requires !g.oneAtATime
    requires Reachable(g, s) && i !in s.rpcs && ticket !in s.cloud.ops
    requires var req := Unpublish(csiVolId, node); var id := MainKey(req);
      && Precheck(req).None? && id !in s.locks && id in s.cloud.disks && s.cloud.disks[id].instance == node
    ensures var req := Unpublish(csiVolId, node); var id := MainKey(req);
      Reachable(g, With(s, i, Rpc(req, Finished(Err(Internal)), []), s.locks, WithOp(s.cloud, ticket, Op(i, id, DetachOp))))
  {
    var req := Unpublish(csiVolId, node);
    var id, d := MainKey(req), s.cloud.disks[MainKey(req)];
    var held, c := s.locks + {id}, WithOp(s.cloud, ticket, Op(i, id, DetachOp));
    UnpublishReachesDetach(g, s, i, csiVolId, node);
    var s1 := With(s, i, Rpc(req, Running(Up(id, node, UpDetach(d))), [id]), held, s.cloud);
    var t2 := Rpc(req, Unwinding(Err(Internal)), [id]);
    ReachQueued(g, s1, i, ApiError, ticket, t2, Op(i, id, DetachOp));
    var s2 := With(s1, i, t2, held, c);
    ReachFinished(g, s2, i, id, Err(Internal));
    var t3 := Rpc(req, Finished(Err(Internal)), []);
    assert With(s2, i, t3, held - {id}, c) == With(s, i, t3, s.locks, c);
  }

  /** A publish of an unattached volume to a running instance is about to attach it. */
  lemma PublishReachesAttach(g: Scene, s: State, i: nat, csiVolId: string, node: Id)
    requires !g.oneAtATime
    requires Reachable(g, s) && i !in s.rpcs
    requires var req := Publish(csiVolId, node, true, false); var id := MainKey(req);
      && Precheck(req).None? && id !in s.locks && id in s.cloud.disks && s.cloud.disks[id].instance == ""
    ensures var req := Publish(csiVolId, node, true, false); var id := MainKey(req);
      Reachable(g, With(s, i, Rpc(req, Running(Pb(id, node, PbAttach(s.cloud.disks[id]))), [id]), s.locks + {id}, s.cloud))
  {
    var req := Publish(csiVolId, node, true, false);
    var id, d := MainKey(req), s.cloud.disks[MainKey(req)];
    var held := s.locks + {id};
    ReachFirstPoint(g, s, i, req, Pb(id, node, PbFind));
    var s1 := With(s, i, Rpc(req, Running(Pb(id, node, PbFind)), [id]), held, s.cloud);
    var t2 := Rpc(req, Running(Pb(id, node, PbVm(d))), [id]);
    ReachDescribed(g, s1, i, id, t2);
    var s2 := With(s1, i, t2, held, s.cloud);
    var t3 := Rpc(req, Running(Pb(id, node, PbAttach(d))), [id]);
    ReachDrive(g, s2, i, Instances([VM_STATUS_RUNNING]), NoEffect, t3, held, s.cloud);
    assert With(s2, i, t3, held, s.cloud) == With(s, i, t3, held, s.cloud);
  }

  /** It then issues the attach and waits. */
  lemma PublishIssuesAttach(g: Scene, s: State, i: nat, csiVolId: string, node: Id, ticket: nat)
    requires !g.oneAtATime
    requires Reachable(g, s) && i !in s.rpcs && ticket !in s.cloud.ops
    requires var req := Publish(csiVolId, node, true, false); var id := MainKey(req);
      && Precheck(req).None? && id !in s.locks && id in s.cloud.disks && s.cloud.disks[id].instance == ""
    ensures var req := Publish(csiVolId, node, true, false); var id := MainKey(req);
      Reachable(g, With(s, i, Rpc(req, Running(Pb(id, node, PbWait(s.cloud.disks[id], false))), [id]), s.locks + {id},
                     WithOp(s.cloud, ticket, Op(i, id, AttachOp(node)))))
  {
    var req := Publish(csiVolId, node, true, false);
    var id, d := MainKey(req), s.cloud.disks[MainKey(req)];
    var held, c := s.locks + {id}, WithOp(s.cloud, ticket, Op(i, id, AttachOp(node)));
    PublishReachesAttach(g, s, i, csiVolId, node);
    var s1 := With(s, i, Rpc(req, Running(Pb(id, node, PbAttach(d))), [id]), held, s.cloud);
    var t2 := Rpc(req, Running(Pb(id, node, PbWait(d, false))), [id]);
    ReachQueued(g, s1, i, Accepted, ticket, t2, Op(i, id, AttachOp(node)));
    assert With(s1, i, t2, held, c) == With(s, i, t2, held, c);
  }

  /** Once the attach has landed and the disk shows in use, the publish is answering OK. */
  lemma PublishReports(g: Scene, s: State, i: nat, req: Request, id: Id, node: Id, vol: Disk)
    requires !g.oneAtATime
    requires Reachable(g, s) && i in s.rpcs && id in s.cloud.disks
    requires s.rpcs[i] == Rpc(req, Running(Pb(id, node, PbWait(vol, false))), [id])
    requires s.cloud.disks[id].instance == node && s.cloud.disks[id].status == InUse
    ensures Reachable(g, With(s, i, Rpc(req, Unwinding(Ok(Done)), [id]), s.locks, s.cloud))
  {
    var t1 := Rpc(req, Running(Pb(id, node, PbRefind)), [id]);
    ReachDescribed(g, s, i, id, t1);
    var s1 := With(s, i, t1, s.locks, s.cloud);
    var t2 := Rpc(req, Unwinding(Ok(Done)), [id]);
    ReachDescribed(g, s1, i, id, t2);
    assert With(s1, i, t2, s.locks, s.cloud) == With(s, i, t2, s.locks, s.cloud);
  }

  /** The volume is attached to `node`, published there with success, and nobody ever unpublished it from there. */
  ghost predicate RightfullyOn(s: State, id: Id, node: Id) {
    && id in s.cloud.disks && s.cloud.disks[id].instance == node
    && (exists i :: i in s.rpcs && s.rpcs[i].req.Publish? && s.rpcs[i].req.node == node
                    && MainKey(s.rpcs[i].req) == id && s.rpcs[i].phase == Finished(Ok(Done)))
    && (forall i :: i in s.rpcs && s.rpcs[i].req.Unpublish? ==> s.rpcs[i].req.node != node)
  }

  /** Nothing has happened yet, and there is one disk. */
  function WithDisk(d: Disk): State {
    State({}, map[], Cloud(map[d.id := d], map[], map[], map[d.id := Birth(d.zone, d.group)], {}))
  }

  /** Two failed unpublishes later one of their detaches has landed and the other is still in flight. */
  lemma DetachStillInFlight(g: Scene, csiVolId: string, a: Id, d: Disk) returns (s: State)
    requires Precheck(Unpublish(csiVolId, a)).None?
    requires d.id == MainKey(Unpublish(csiVolId, a)) && d.instance == a
    requires g == Scene(WithDisk(d), false, 0, ANYTHING_GOES)
    ensures Reachable(g, s) && s.locks == {} && s.rpcs.Keys == {0, 1}
    ensures forall i :: i in s.rpcs ==> s.rpcs[i].req == Unpublish(csiVolId, a)
    ensures s.cloud.disks == map[d.id := d.(instance := "")] && s.cloud.ops == map[0 := Op(0, d.id, DetachOp)]
  {
    var failed := Rpc(Unpublish(csiVolId, a), Finished(Err(Internal)), []);
    var s0 := WithDisk(d);
    var c0 := s0.cloud;
    ReachStart(g);
    UnpublishLeavesDetach(g, s0, 0, csiVolId, a, 0);
    var s1 := With(s0, 0, failed, {}, WithOp(c0, 0, Op(0, d.id, DetachOp)));
    UnpublishLeavesDetach(g, s1, 1, csiVolId, a, 1);
    var s2 := With(s1, 1, failed, {}, WithOp(s1.cloud, 1, Op(1, d.id, DetachOp)));
    ReachLanded(g, s2, 1);
    s := s2.(cloud := AfterEvent(s2.cloud, Land(1)));
  }

  /** A publish of an unattached volume may get to answering OK, and leaves what is in flight in flight. */
  lemma PublishAnswersOk(g: Scene, s: State, i: nat, csiVolId: string, node: Id, ticket: nat) returns (s': State)
    requires !g.oneAtATime
    requires Reachable(g, s) && i !in s.rpcs && ticket !in s.cloud.ops
    requires var req := Publish(csiVolId, node, true, false); var id := MainKey(req);
      && Precheck(req).None? && id !in s.locks && id in s.cloud.disks
      && s.cloud.disks[id].instance == "" && s.cloud.disks[id].status == InUse
    ensures var req := Publish(csiVolId, node, true, false); var id := MainKey(req);
      && Reachable(g, s') && s'.locks == s.locks + {id} && s'.rpcs == s.rpcs[i := Rpc(req, Unwinding(Ok(Done)), [id])]
      && s'.cloud.disks == s.cloud.disks[id := s.cloud.disks[id].(instance := node)] && s'.cloud.ops == s.cloud.ops
  {
    var req := Publish(csiVolId, node, true, false);
    var id, vol := MainKey(req), s.cloud.disks[MainKey(req)];
    PublishIssuesAttach(g, s, i, csiVolId, node, ticket);
    var waiting := Rpc(req, Running(Pb(id, node, PbWait(vol, false))), [id]);
    var s1 := With(s, i, waiting, s.locks + {id}, WithOp(s.cloud, ticket, Op(i, id, AttachOp(node))));
    ReachLanded(g, s1, ticket);
    var s2 := s1.(cloud := AfterEvent(s1.cloud, Land(ticket)));
    assert s2.cloud.disks[id] == vol.(instance := node);
    PublishReports(g, s2, i, req, id, node, vol);
    s' := With(s2, i, Rpc(req, Unwinding(Ok(Done)), [id]), s2.locks, s2.cloud);
    assert s'.cloud.ops == s.cloud.ops;
  }

  /** And it then gives its lock back and has succeeded. */
  lemma PublishSucceeds(g: Scene, s: State, i: nat, csiVolId: string, node: Id, ticket: nat) returns (s': State)
    requires !g.oneAtATime
    requires Reachable(g, s) && i !in s.rpcs && ticket !in s.cloud.ops
    requires var req := Publish(csiVolId, node, true, false); var id := MainKey(req);
      && Precheck(req).None? && id !in s.locks && id in s.cloud.disks
      && s.cloud.disks[id].instance == "" && s.cloud.disks[id].status == InUse
    ensures var req := Publish(csiVolId, node, true, false); var id := MainKey(req);
      && Reachable(g, s') && s'.locks == s.locks && s'.rpcs == s.rpcs[i := Rpc(req, Finished(Ok(Done)), [])]
      && s'.cloud.disks == s.cloud.disks[id := s.cloud.disks[id].(instance := node)] && s'.cloud.ops == s.cloud.ops
  {
    var req := Publish(csiVolId, node, true, false);
    var id := MainKey(req);
    var s1 := PublishAnswersOk(g, s, i, csiVolId, node, ticket);
    ReachFinished(g, s1, i, id, Ok(Done));
    s' := With(s1, i, Rpc(req, Finished(Ok(Done)), []), s1.locks - {id}, s1.cloud);
  }

  /**
   Without the condition that no command is left in flight the attachment guarantee fails:
   for every volume and any two nodes there is a run of two unpublishes from the first and
   a publish to the second, after which a detach still in flight takes the volume off the
   second node.
   */
  lemma StaleDetachHitsAnotherNode(csiVolId: string, a: Id, b: Id, d: Disk) returns (s: State, ticket: nat)
    requires Precheck(Unpublish(csiVolId, a)).None? && b != "" && a != b
    requires d.id == MainKey(Unpublish(csiVolId, a)) && d.instance == a && d.status == InUse
    ensures Reachable(Scene(WithDisk(d), false, 0, ANYTHING_GOES), s) && RightfullyOn(s, d.id, b) && s.locks == {}
    ensures Enabled(s, Env(Land(ticket))) && OnlyDriver(s, Env(Land(ticket)))
    ensures Apply(s, Env(Land(ticket))).cloud.disks[d.id].instance == ""
  {
    var g := Scene(WithDisk(d), false, 0, ANYTHING_GOES);
    var before := DetachStillInFlight(g, csiVolId, a, d);
    s := PublishSucceeds(g, before, 2, csiVolId, b, 1);
    ticket := 0;
    assert 2 in s.rpcs && s.rpcs[2].req == Publish(csiVolId, b, true, false);
  }

  /** The detach may even land while the publish to the second node is answering OK. */
  lemma StaleDetachDuringPublish(csiVolId: string, a: Id, b: Id, d: Disk) returns (s: State)
    requires Precheck(Unpublish(csiVolId, a)).None? && b != "" && a != b
    requires d.id == MainKey(Unpublish(csiVolId, a)) && d.instance == a && d.status == InUse
    ensures Reachable(Scene(WithDisk(d), false, 0, ANYTHING_GOES), s) && d.id in s.cloud.disks
    ensures 2 in s.rpcs && s.rpcs[2] == Rpc(Publish(csiVolId, b, true, false), Unwinding(Ok(Done)), [d.id])
    ensures MainKey(s.rpcs[2].req) == d.id && s.cloud.disks[d.id].instance == ""
  {
    var g := Scene(WithDisk(d), false, 0, ANYTHING_GOES);
    var before := DetachStillInFlight(g, csiVolId, a, d);
    var s1 := PublishAnswersOk(g, before, 2, csiVolId, b, 1);
    ReachLanded(g, s1, 0);
    s := s1.(cloud := AfterEvent(s1.cloud, Land(0)));
  }

  // ---------------------------------------------------------------- an attach that outlives its publish

  /** A publish whose attach takes effect but is reported as an error leaves it in flight. */
  lemma PublishLeavesAttach(g: Scene, s: State, i: nat, csiVolId: string, node: Id, ticket: nat)
    requires !g.oneAtATime
    requires Reachable(g, s) && i !in s.rpcs && ticket !in s.cloud.ops
    requires var req := Publish(csiVolId, node, true, false); var id := MainKey(req);
      && Precheck(req).None? && id !in s.locks && id in s.cloud.disks && s.cloud.disks[id].instance == ""
    ensures var req := Publish(csiVolId, node, true, false); var id := MainKey(req);
      Reachable(g, With(s, i, Rpc(req, Finished(Err(Internal)), []), s.locks, WithOp(s.cloud, ticket, Op(i, id, AttachOp(node)))))
  {
    var req := Publish(csiVolId, node, true, false);
    var id, d := MainKey(req), s.cloud.disks[MainKey(req)];
    var held, c := s.locks + {id}, WithOp(s.cloud, ticket, Op(i, id, AttachOp(node)));
    PublishReachesAttach(g, s, i, csiVolId, node);
    var s1 := With(s, i, Rpc(req, Running(Pb(id, node, PbAttach(d))), [id]), held, s.cloud);
    var t2 := Rpc(req, Unwinding(Err(Internal)), [id]);
    ReachQueued(g, s1, i, ApiError, ticket, t2, Op(i, id, AttachOp(node)));
    var s2 := With(s1, i, t2, held, c);
    ReachFinished(g, s2, i, id, Err(Internal));
    var t3 := Rpc(req, Finished(Err(Internal)), []);
    assert With(s2, i, t3, held - {id}, c) == With(s, i, t3, s.locks, c);
  }

  /** An unpublish of an unattached volume has nothing to do and answers OK. */
  lemma UnpublishHasNothingToDo(g: Scene, s: State, i: nat, csiVolId: string, node: Id)
    requires !g.oneAtATime
    requires Reachable(g, s) && i !in s.rpcs
    requires var req := Unpublish(csiVolId, node); var id := MainKey(req);
      && Precheck(req).None? && id !in s.locks && id in s.cloud.disks && s.cloud.disks[id].instance == ""
    ensures Reachable(g, With(s, i, Rpc(Unpublish(csiVolId, node), Finished(Ok(Done)), []), s.locks, s.cloud))
  {
    var req := Unpublish(csiVolId, node);
    var id := MainKey(req);
    var held := s.locks + {id};
    ReachFirstPoint(g, s, i, req, Up(id, node, UpFind));
    var s1 := With(s, i, Rpc(req, Running(Up(id, node, UpFind)), [id]), held, s.cloud);
    var t2 := Rpc(req, Unwinding(Ok(Done)), [id]);
    ReachDescribed(g, s1, i, id, t2);
    var s2 := With(s1, i, t2, held, s.cloud);
    ReachFinished(g, s2, i, id, Ok(Done));
    var t3 := Rpc(req, Finished(Ok(Done)), []);
    assert With(s2, i, t3, held - {id}, s.cloud) == With(s, i, t3, s.locks, s.cloud);
  }

  /**
   The attachment guarantee fails for attaches as well: for every volume and node there is
   a run in which a publish fails and an unpublish from the node then answers OK, after
   which the attach still in flight puts the volume on the node.
   */
  lemma StaleAttachAfterUnpublish(csiVolId: string, node: Id, d: Disk) returns (s: State, ticket: nat)
    requires Precheck(Unpublish(csiVolId, node)).None?
    requires d.id == MainKey(Unpublish(csiVolId, node)) && d.instance == ""
    ensures Reachable(Scene(WithDisk(d), false, 0, ANYTHING_GOES), s) && s.locks == {} && d.id in s.cloud.disks
    ensures s.rpcs.Keys == {0, 1} && s.rpcs[1] == Rpc(Unpublish(csiVolId, node), Finished(Ok(Done)), [])
    ensures forall i :: i in s.rpcs ==> s.rpcs[i].phase.Finished?
    ensures Enabled(s, Env(Land(ticket))) && OnlyDriver(s, Env(Land(ticket)))
    ensures s.cloud.disks[d.id].instance == "" && Apply(s, Env(Land(ticket))).cloud.disks[d.id].instance == node
  {
    var g := Scene(WithDisk(d), false, 0, ANYTHING_GOES);
    var failed := Rpc(Publish(csiVolId, node, true, false), Finished(Err(Internal)), []);
    ReachStart(g);
    PublishLeavesAttach(g, g.start, 0, csiVolId, node, 0);
    var s1 := With(g.start, 0, failed, {}, WithOp(g.start.cloud, 0, Op(0, d.id, AttachOp(node))));
    UnpublishHasNothingToDo(g, s1, 1, csiVolId, node);
    s := With(s1, 1, Rpc(Unpublish(csiVolId, node), Finished(Ok(Done)), []), {}, s1.cloud);
    ticket := 0;
  }
}
