/**
 What an OK of ControllerUnpublishVolume says of the volume, and exactly what that needs of
 the operations in flight and of what the cloud shows of a detach.
 */
module Unpublishing {
  import opened CloudTypes
  import opened RpcCodes
  import opened ControllerProgram
  import opened ControllerSystem
  import opened Observations
  import opened Attachments
  import opened Expansion
  import opened Reaching
  import opened Races
  import opened InFlight

  /** An unpublish on its way out with success. */
  predicate UnpublishSucceeding(t: Rpc) {
    t.req.Unpublish? && t.phase.Unwinding? && t.phase.outcome.Ok?
  }

  /** The volume is gone, unattached, or on another node. */
  predicate OffNode(c: Cloud, id: Id, node: Id) {
    node != "" && (id in c.disks ==> c.disks[id].instance != node)
  }

  ghost predicate UnpublishesStand(s: State) {
    forall i :: i in s.rpcs && UnpublishSucceeding(s.rpcs[i]) ==> OffNode(s.cloud, MainKey(s.rpcs[i].req), s.rpcs[i].req.node)
  }

  // ---------------------------------------------------------------- steps

  lemma DriveKeepsOffNode(s: State, i: nat, r: Reply, e: Effect)
    requires CloudOk(s.cloud) && CanDrive(s, i, r, e)
    ensures forall id, node :: OffNode(s.cloud, id, node) ==> OffNode(Apply(s, Drive(i, r, e)).cloud, id, node)
  {
  }

  lemma EventKeepsOffNode(c: Cloud, ev: Event)
    requires CloudOk(c) && Possible(c, ev) && OnlyDriverAttaches(Env(ev)) && !ev.Land?
    ensures forall id, node :: OffNode(c, id, node) ==> OffNode(AfterEvent(c, ev), id, node)
  {
  }

  /** What lands on a volume while its unpublish is answering is that unpublish's own detach. */
  lemma LandKeepsOffNode(s: State, ticket: nat, i: nat)
    requires Inv(s) && QuietInv(s) && ticket in s.cloud.ops && IssuerHolds(s, s.cloud.ops[ticket])
    requires i in s.rpcs && UnpublishSucceeding(s.rpcs[i]) && OffNode(s.cloud, MainKey(s.rpcs[i].req), s.rpcs[i].req.node)
    ensures OffNode(AfterEvent(s.cloud, Land(ticket)), MainKey(s.rpcs[i].req), s.rpcs[i].req.node)
  {
    var op := s.cloud.ops[ticket];
    assert OpStands(s, ticket);
    UnwindingHoldsMainKey(s, i);
    if MainKey(s.rpcs[i].req) == op.vol {
      Exclusive(s, i, op.issuer, op.vol);
    }
  }

  /** Success of an unpublish comes from seeing the volume missing or off the node, or Available after a detach. */
  lemma SucceedsBySeeingOff(t: Rpc, r: Reply)
    requires WellFormedRpc(t) && Active(t) && UnpublishSucceeding(Resume(t, r)) && !UnpublishSucceeding(t)
    ensures t.phase.Running? && t.phase.body.Up? && t.req.node != ""
    ensures CallOf(t.phase.body) == DescribeDisk(MainKey(t.req)) && r.Disks? && |r.disks| <= 1
    ensures r.disks != [] ==> r.disks[0].instance != t.req.node || (AwaitsDetach(t) && r.disks[0].status == Available)
  {
    match t.phase
    case Locking(_, _) => {}
    case Running(b) => {
      assert b.Up?;
      match b.upAt
      case UpFind => {}
      case UpDetach(_) => {}
      case UpWait(_, _) => {}
    }
    case Unwinding(_) => {}
  }

  lemma OwnStepIsOff(s: State, i: nat, r: Reply, e: Effect)
    requires Inv(s) && CanDrive(s, i, r, e) && DetachShows(s, Drive(i, r, e))
    requires UnpublishSucceeding(Resume(s.rpcs[i], r)) && !UnpublishSucceeding(s.rpcs[i])
    ensures OffNode(s.cloud, MainKey(s.rpcs[i].req), s.rpcs[i].req.node)
  {
    SucceedsBySeeingOff(s.rpcs[i], r);
    if r.disks != [] {
      TruthfulDescription(s, i, r, e);
    }
  }

  lemma StepKeepsUnpublishes(s: State, l: Label)
    requires Inv(s) && QuietInv(s) && UnpublishesStand(s) && Enabled(s, l)
    requires OnlyDriverAttaches(l) && LandsInTime(s, l) && DetachShows(s, l)
    ensures UnpublishesStand(Apply(s, l))
  {
    var s' := Apply(s, l);
    forall i | i in s'.rpcs && UnpublishSucceeding(s'.rpcs[i])
      ensures OffNode(s'.cloud, MainKey(s'.rpcs[i].req), s'.rpcs[i].req.node)
    {
      FaresInStep(s, l, i);
      if MoveOf(l, i).Moved? && !UnpublishSucceeding(s.rpcs[i]) {
        OwnStepIsOff(s, i, l.reply, l.effect);
      }
      match l
      case Spawn(_, _) => {}
      case Drive(j, r, e) => DriveKeepsOffNode(s, j, r, e);
      case Env(ev) =>
        if ev.Land? {
          LandKeepsOffNode(s, ev.ticket, i);
        } else {
          EventKeepsOffNode(s.cloud, ev);
        }
    }
  }

  // ---------------------------------------------------------------- the theorem

  /** What a run must keep to for an OK of an unpublish to mean that the volume is detached. */
  const UNPUBLISH_RULES := Rules(true, false, false, true)

  /**
   When operations land in time and Available means detached, an unpublish that is answering
   OK has its volume off the node it was asked to unpublish from.
   */
  lemma {:induction false} UnpublishOkMeansDetached(ss: seq<State>, ls: seq<Label>, n: nat)
    requires RunUnder(UNPUBLISH_RULES, ss, ls) && n < |ss|
    ensures UnpublishesStand(ss[n])
  {
    if n > 0 {
      UnpublishOkMeansDetached(ss, ls, n - 1);
      assert QuietRun(ss, ls);
      QuietInvHolds(ss, ls, n - 1);
      assert StepsTo(ss, ls, n - 1);
      assert Obeys(UNPUBLISH_RULES, ss[n - 1], ls[n - 1]);
      StepKeepsUnpublishes(ss[n - 1], ls[n - 1]);
    }
  }

  // ---------------------------------------------------------------- and exactly then

  /** In every run that keeps the rules an unpublish that is answering OK has its volume off its node. */
  ghost predicate OkIsDetached(rules: Rules) {
    forall ss: seq<State>, ls: seq<Label>, i: nat ::
      RunUnder(rules, ss, ls) && i in ss[|ls|].rpcs && UnpublishSucceeding(ss[|ls|].rpcs[i]) ==>
        OffNode(ss[|ls|].cloud, MainKey(ss[|ls|].rpcs[i].req), ss[|ls|].rpcs[i].req.node)
  }

  lemma FewerRulesDetachMore(more: Rules, fewer: Rules)
    requires fewer.inTime ==> more.inTime
    requires fewer.shown ==> more.shown
    requires fewer.kept ==> more.kept
    requires fewer.detachShown ==> more.detachShown
    requires OkIsDetached(fewer)
    ensures OkIsDetached(more)
  {
    forall ss: seq<State>, ls: seq<Label>, i: nat | RunUnder(more, ss, ls) && i in ss[|ls|].rpcs && UnpublishSucceeding(ss[|ls|].rpcs[i])
      ensures OffNode(ss[|ls|].cloud, MainKey(ss[|ls|].rpcs[i].req), ss[|ls|].rpcs[i].req.node)
    {
      assert RunUnder(fewer, ss, ls);
    }
  }

  /** RPC `i` is answering an unpublish with OK, and holds the lock, while the volume is on the node. */
  ghost predicate StillOnNode(s: State, i: nat, id: Id, node: Id) {
    && i in s.rpcs && UnpublishSucceeding(s.rpcs[i]) && MainKey(s.rpcs[i].req) == id && s.rpcs[i].req.node == node
    && id in s.locks && id in s.cloud.disks && s.cloud.disks[id].instance == node
  }

  lemma StillOnNodeRefutes(g: Scene, s: State, i: nat, id: Id, node: Id)
    requires Reachable(g, s) && StillOnNode(s, i, id, node)
    ensures !OkIsDetached(g.rules)
  {
    var ss, ls :| LeadsTo(g, ss, ls, s);
    assert RunUnder(g.rules, ss, ls);
    assert ss[|ls|] == s;
  }

  /** An unpublish of an unattached volume gets to answering OK. */
  lemma UnpublishAnswersOk(g: Scene, s: State, i: nat, csiVolId: string, node: Id)
    requires !g.oneAtATime
    requires Reachable(g, s) && i !in s.rpcs
    requires var req := Unpublish(csiVolId, node); var id := MainKey(req);
      && Precheck(req).None? && id !in s.locks && id in s.cloud.disks && s.cloud.disks[id].instance == ""
    ensures var req := Unpublish(csiVolId, node); var id := MainKey(req);
      Reachable(g, With(s, i, Rpc(req, Unwinding(Ok(Done)), [id]), s.locks + {id}, s.cloud))
  {
    var req := Unpublish(csiVolId, node);
    var id := MainKey(req);
    var held := s.locks + {id};
    ReachFirstPoint(g, s, i, req, Up(id, node, UpFind));
    var s1 := With(s, i, Rpc(req, Running(Up(id, node, UpFind)), [id]), held, s.cloud);
    var t2 := Rpc(req, Unwinding(Ok(Done)), [id]);
    ReachDescribed(g, s1, i, id, t2);
    assert With(s1, i, t2, held, s.cloud) == With(s, i, t2, held, s.cloud);
  }

  /**
   For every volume and node there is a run, showing every detach and resize as it should,
   in which a publish fails and an unpublish finds nothing to do, and while that answers OK
   the attach still in flight puts the volume on the node.
   */
  lemma LateAttachDuringUnpublish(csiVolId: string, node: Id, d: Disk) returns (s: State)
    requires Precheck(Unpublish(csiVolId, node)).None?
    requires d.id == MainKey(Unpublish(csiVolId, node)) && d.instance == ""
    ensures Reachable(Scene(WithDisk(d), false, 0, Rules(false, true, true, true)), s) && StillOnNode(s, 1, d.id, node)
  {
    var g := Scene(WithDisk(d), false, 0, Rules(false, true, true, true));
    var failed := Rpc(Publish(csiVolId, node, true, false), Finished(Err(Internal)), []);
    ReachStart(g);
    PublishLeavesAttach(g, g.start, 0, csiVolId, node, 0);
    var s1 := With(g.start, 0, failed, g.start.locks, WithOp(g.start.cloud, 0, Op(0, d.id, AttachOp(node))));
    UnpublishAnswersOk(g, s1, 1, csiVolId, node);
    var s2 := With(s1, 1, Rpc(Unpublish(csiVolId, node), Unwinding(Ok(Done)), [d.id]), s1.locks + {d.id}, s1.cloud);
    ReachLanded(g, s2, 0);
    s := s2.(cloud := AfterEvent(s2.cloud, Land(0)));
  }

  /** A detach that is accepted is queued and waited for. */
  lemma UnpublishWaits(g: Scene, s: State, i: nat, csiVolId: string, node: Id, ticket: nat)
    requires !g.oneAtATime
    requires Reachable(g, s) && i !in s.rpcs && ticket !in s.cloud.ops
    requires var req := Unpublish(csiVolId, node); var id := MainKey(req);
      && Precheck(req).None? && id !in s.locks && id in s.cloud.disks && s.cloud.disks[id].instance == node
    ensures var req := Unpublish(csiVolId, node); var id := MainKey(req);
      Reachable(g, With(s, i, Rpc(req, Running(Up(id, node, UpWait(s.cloud.disks[id], false))), [id]), s.locks + {id},
                        WithOp(s.cloud, ticket, Op(i, id, DetachOp))))
  {
    var req := Unpublish(csiVolId, node);
    var id, d := MainKey(req), s.cloud.disks[MainKey(req)];
    var held, c := s.locks + {id}, WithOp(s.cloud, ticket, Op(i, id, DetachOp));
    UnpublishReachesDetach(g, s, i, csiVolId, node);
    var s1 := With(s, i, Rpc(req, Running(Up(id, node, UpDetach(d))), [id]), held, s.cloud);
    var t2 := Rpc(req, Running(Up(id, node, UpWait(d, false))), [id]);
    ReachQueued(g, s1, i, Accepted, ticket, t2, Op(i, id, DetachOp));
    assert With(s1, i, t2, held, c) == With(s, i, t2, held, c);
  }

  /** Told that the disk is Available, though it is still on the node, an unpublish that waits answers OK. */
  lemma UnpublishBelieves(g: Scene, s: State, i: nat, req: Request, id: Id, node: Id, vol: Disk)
    requires !g.oneAtATime && !g.rules.detachShown
    requires Reachable(g, s) && i in s.rpcs && id in s.cloud.disks && s.cloud.disks[id].status == Available
    requires s.rpcs[i] == Rpc(req, Running(Up(id, node, UpWait(vol, false))), [id])
    ensures Reachable(g, With(s, i, Rpc(req, Unwinding(Ok(Done)), [id]), s.locks, s.cloud))
  {
    ReachDescribed(g, s, i, id, Rpc(req, Unwinding(Ok(Done)), [id]));
  }

  /**
   For every volume and node there is a run, with operations landing in time, in which the
   first poll after the detach was accepted shows the disk Available, though it is still on
   the node, and the unpublish answers OK.
   */
  lemma HiddenDetachReported(csiVolId: string, node: Id, d: Disk) returns (s: State)
    requires Precheck(Unpublish(csiVolId, node)).None?
    requires d.id == MainKey(Unpublish(csiVolId, node)) && d.instance == node && d.status == Available
    ensures Reachable(Scene(WithDisk(d), false, 0, Rules(true, true, true, false)), s) && StillOnNode(s, 0, d.id, node)
  {
    var g := Scene(WithDisk(d), false, 0, Rules(true, true, true, false));
    var req := Unpublish(csiVolId, node);
    ReachStart(g);
    UnpublishWaits(g, g.start, 0, csiVolId, node, 0);
    var s1 := With(g.start, 0, Rpc(req, Running(Up(d.id, node, UpWait(d, false))), [d.id]), g.start.locks + {d.id},
                   WithOp(g.start.cloud, 0, Op(0, d.id, DetachOp)));
    UnpublishBelieves(g, s1, 0, req, d.id, node, d);
    s := With(s1, 0, Rpc(req, Unwinding(Ok(Done)), [d.id]), s1.locks, s1.cloud);
  }

  /**
   The exact conditions on unpublishes: one that is answering OK has its volume off its
   node, over all driver-only runs that keep the given rules, if and only if these ask that
   operations land in time and that Available means detached.
   */
  lemma UnpublishOkIsDetachedExactly(rules: Rules)
    ensures OkIsDetached(rules) <==> rules.inTime && rules.detachShown
  {
    if rules.inTime && rules.detachShown {
      forall ss: seq<State>, ls: seq<Label>, i: nat
        | RunUnder(rules, ss, ls) && i in ss[|ls|].rpcs && UnpublishSucceeding(ss[|ls|].rpcs[i])
        ensures OffNode(ss[|ls|].cloud, MainKey(ss[|ls|].rpcs[i].req), ss[|ls|].rpcs[i].req.node)
      {
        assert RunUnder(UNPUBLISH_RULES, ss, ls);
        UnpublishOkMeansDetached(ss, ls, |ls|);
      }
    } else if OkIsDetached(rules) {
      SomeVolume();
      if !rules.inTime {
        var d := SomeDisk("", Available);
        var s := LateAttachDuringUnpublish(CSI_ID, "a", d);
        StillOnNodeRefutes(Scene(WithDisk(d), false, 0, Rules(false, true, true, true)), s, 1, d.id, "a");
        FewerRulesDetachMore(Rules(false, true, true, true), rules);
      } else {
        var d := SomeDisk("a", Available);
        var s := HiddenDetachReported(CSI_ID, "a", d);
        StillOnNodeRefutes(Scene(WithDisk(d), false, 0, Rules(true, true, true, false)), s, 0, d.id, "a");
        FewerRulesDetachMore(Rules(true, true, true, false), rules);
      }
    }
  }
}
