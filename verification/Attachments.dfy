/**
 What attach, detach and resize commands do when they land, in runs where none lands after
 its RPC has given the volume back, and only the driver attaches, detaches and resizes.
 */
module Attachments {
  import opened Wrappers
  import opened Capacity
  import opened CloudTypes
  import opened Locks
  import opened ControllerProgram
  import opened ControllerSystem
  import opened Observations

  /** Whoever issued the operation still holds the volume's lock. */
  ghost predicate IssuerHolds(s: State, op: Op) {
    op.issuer in s.rpcs && op.vol in s.rpcs[op.issuer].defers
  }

  /**
   An operation that lands does so while its issuer still holds the volume, whether the
   command was accepted or answered with an error after taking effect. A command may
   outlive its RPC as long as it is dropped, or never lands.
   */
  ghost predicate LandsInTime(s: State, l: Label) {
    l.Env? && l.ev.Land? && l.ev.ticket in s.cloud.ops ==> IssuerHolds(s, s.cloud.ops[l.ev.ticket])
  }

  /** The RPC waits for its detach. */
  predicate AwaitsDetach(t: Rpc) {
    t.phase.Running? && t.phase.body.Up? && t.phase.body.upAt.UpWait?
  }

  /** Available means detached: when an unpublish polls, its volume is Available only if it is attached nowhere. */
  ghost predicate DetachShows(s: State, l: Label) {
    l.Drive? && l.i in s.rpcs && AwaitsDetach(s.rpcs[l.i]) ==>
      var id := s.rpcs[l.i].phase.body.id;
      id in s.cloud.disks && s.cloud.disks[id].status == Available ==> s.cloud.disks[id].instance == ""
  }

  /** Nobody else attaches, detaches or resizes. */
  predicate OnlyDriverAttaches(l: Label) {
    l.Env? ==> !l.ev.OutsideInstance? && !l.ev.OutsideSize?
  }

  // ---------------------------------------------------------------- the invariant

  /** The RPC is about to issue its command, or is looking at the instance before that. */
  predicate BeforeIssue(b: Body) {
    (b.Pb? && (b.pbAt.PbVm? || b.pbAt.PbAttach?)) || (b.Up? && b.upAt.UpDetach?) || (b.Ex? && b.exAt.ExResize?)
  }

  predicate IsBeforeIssue(t: Rpc) {
    t.phase.Running? && BeforeIssue(t.phase.body)
  }

  /** Not yet past the point of issue. */
  predicate HasNotIssued(t: Rpc) {
    match t.phase
    case Locking(_, _) => true
    case Running(b) => UpToIssue(b)
    case _ => false
  }

  predicate UpToIssue(b: Body) {
    BeforeIssue(b) || (b.Pb? && b.pbAt.PbFind?) || (b.Up? && b.upAt.UpFind?) || (b.Ex? && b.exAt.ExFind?)
  }

  /** The volume, if it is still there, is attached and sized as it was seen. */
  predicate AsSeen(c: Cloud, id: Id, vol: Disk) {
    && id in c.births
    && (id in c.disks ==> c.disks[id].instance == vol.instance && c.disks[id].size == vol.size)
  }

  /** What an RPC saw still holds while its command is yet to be issued. */
  ghost predicate SightsStand(s: State) {
    forall i :: i in s.rpcs && IsBeforeIssue(s.rpcs[i]) ==>
      AsSeen(s.cloud, MainKey(s.rpcs[i].req), SeenIn(s.rpcs[i].phase.body).value)
  }

  /** The operation is the one its issuer's request calls for. */
  predicate BelongsTo(op: Op, req: Request) {
    && op.vol == MainKey(req)
    && match op.kind
       case AttachOp(vm) => req.Publish? && vm == req.node && vm != ""
       case DetachOp => req.Unpublish? && req.node != ""
       case ResizeOp(size) => req.Expand? && ExpandGib(req.range) == Success(size)
  }

  /** The operation suits the disk as it is: it attaches what is unattached, detaches it from the node asked for, or makes it larger. */
  predicate Suits(op: Op, req: Request, d: Disk) {
    match op.kind
    case AttachOp(_) => d.instance == ""
    case DetachOp => req.Unpublish? && d.instance == req.node
    case ResizeOp(size) => GibToByte(d.size) < GibToByte(size)
  }

  ghost predicate OpStands(s: State, ticket: nat)
    requires ticket in s.cloud.ops
  {
    var op := s.cloud.ops[ticket];
    && op.vol in s.cloud.births && op.issuer in s.rpcs && BelongsTo(op, s.rpcs[op.issuer].req)
    && !HasNotIssued(s.rpcs[op.issuer])
    && (IssuerHolds(s, op) && op.vol in s.cloud.disks ==> Suits(op, s.rpcs[op.issuer].req, s.cloud.disks[op.vol]))
  }

  ghost predicate OpsStand(s: State) {
    forall ticket :: ticket in s.cloud.ops ==> OpStands(s, ticket)
  }

  ghost predicate OneOpEach(c: Cloud) {
    forall a, b :: a in c.ops && b in c.ops && c.ops[a].issuer == c.ops[b].issuer ==> a == b
  }

  /** A publish on its way out with success. */
  predicate PublishSucceeding(t: Rpc) {
    t.req.Publish? && t.phase.Unwinding? && t.phase.outcome.Ok?
  }

  predicate OnNode(c: Cloud, id: Id, node: Id) {
    && id in c.births
    && (id in c.disks ==> c.disks[id].instance == node)
  }

  ghost predicate PublishesStand(s: State) {
    forall i :: i in s.rpcs && PublishSucceeding(s.rpcs[i]) ==>
      OnNode(s.cloud, MainKey(s.rpcs[i].req), s.rpcs[i].req.node) && s.rpcs[i].req.node != ""
  }

  ghost predicate QuietInv(s: State) {
    SightsStand(s) && OpsStand(s) && OneOpEach(s.cloud) && PublishesStand(s)
  }

  // ---------------------------------------------------------------- steps of the cloud

  lemma UnwindingHoldsMainKey(s: State, i: nat)
    requires Inv(s) && i in s.rpcs && s.rpcs[i].phase.Unwinding?
    ensures MainKey(s.rpcs[i].req) in s.rpcs[i].defers
  {
  }

  /** Of two operations on one volume whose issuers both hold it, there is only one. */
  lemma OneOpPerVolume(s: State, a: nat, b: nat)
    requires Inv(s) && OneOpEach(s.cloud) && a in s.cloud.ops && b in s.cloud.ops
    requires IssuerHolds(s, s.cloud.ops[a]) && IssuerHolds(s, s.cloud.ops[b])
    requires s.cloud.ops[a].vol == s.cloud.ops[b].vol
    ensures a == b
  {
    Exclusive(s, s.cloud.ops[a].issuer, s.cloud.ops[b].issuer, s.cloud.ops[a].vol);
  }

  /** A landing operation leaves the others standing: their issuers hold other volumes, or none any more. */
  lemma LandKeepsOps(s: State, ticket: nat)
    requires Inv(s) && QuietInv(s) && ticket in s.cloud.ops && IssuerHolds(s, s.cloud.ops[ticket])
    ensures OpsStand(Apply(s, Env(Land(ticket)))) && OneOpEach(Apply(s, Env(Land(ticket))).cloud)
  {
    var s' := Apply(s, Env(Land(ticket)));
    forall other | other in s'.cloud.ops ensures OpStands(s', other) {
      assert OpStands(s, other);
      if s.cloud.ops[other].vol == s.cloud.ops[ticket].vol && IssuerHolds(s, s.cloud.ops[other]) {
        OneOpPerVolume(s, other, ticket);
        assert false;
      }
    }
  }

  lemma WatchesAnotherVolume(s: State, ticket: nat, i: nat)
    requires Inv(s) && OpsStand(s) && ticket in s.cloud.ops && IssuerHolds(s, s.cloud.ops[ticket])
    requires i in s.rpcs && IsBeforeIssue(s.rpcs[i])
    ensures MainKey(s.rpcs[i].req) != s.cloud.ops[ticket].vol
  {
    var op := s.cloud.ops[ticket];
    assert OpStands(s, ticket);
    RunningHoldsMainKey(s, i);
    if MainKey(s.rpcs[i].req) == op.vol {
      Exclusive(s, i, op.issuer, op.vol);
    }
  }

  /** Nobody before the issue of its own command has seen the volume on which an operation lands. */
  lemma LandKeepsSights(s: State, ticket: nat)
    requires Inv(s) && QuietInv(s) && ticket in s.cloud.ops && IssuerHolds(s, s.cloud.ops[ticket])
    ensures SightsStand(Apply(s, Env(Land(ticket))))
  {
    var s' := Apply(s, Env(Land(ticket)));
    forall i | i in s'.rpcs && IsBeforeIssue(s'.rpcs[i])
      ensures AsSeen(s'.cloud, MainKey(s'.rpcs[i].req), SeenIn(s'.rpcs[i].phase.body).value)
    {
      assert AsSeen(s.cloud, MainKey(s.rpcs[i].req), SeenIn(s.rpcs[i].phase.body).value);
      WatchesAnotherVolume(s, ticket, i);
    }
  }

  lemma LandKeepsPublishes(s: State, ticket: nat)
    requires Inv(s) && QuietInv(s) && ticket in s.cloud.ops && IssuerHolds(s, s.cloud.ops[ticket])
    ensures PublishesStand(Apply(s, Env(Land(ticket))))
  {
    var s' := Apply(s, Env(Land(ticket)));
    var op := s.cloud.ops[ticket];
    assert OpStands(s, ticket);
    forall i | i in s'.rpcs && PublishSucceeding(s'.rpcs[i])
      ensures OnNode(s'.cloud, MainKey(s'.rpcs[i].req), s'.rpcs[i].req.node) && s'.rpcs[i].req.node != ""
    {
      assert OnNode(s.cloud, MainKey(s.rpcs[i].req), s.rpcs[i].req.node);
      UnwindingHoldsMainKey(s, i);
      if MainKey(s.rpcs[i].req) == op.vol {
        Exclusive(s, i, op.issuer, op.vol);
      }
    }
  }

  /** Events other than landings leave attachments and sizes alone. */
  lemma OtherEventsTouchNone(c: Cloud, ev: Event)
    requires CloudOk(c) && Possible(c, ev) && OnlyDriverAttaches(Env(ev)) && !ev.Land?
    ensures var c' := AfterEvent(c, ev);
      && (forall id :: id in c.births ==> id in c'.births)
      && (forall id :: id in c.births && id in c'.disks ==>
            id in c.disks && c'.disks[id].instance == c.disks[id].instance && c'.disks[id].size == c.disks[id].size)
      && (forall ticket :: ticket in c'.ops ==> ticket in c.ops && c'.ops[ticket] == c.ops[ticket])
  {
  }

  lemma OtherEventsKeepOps(s: State, ev: Event)
    requires CloudOk(s.cloud) && QuietInv(s) && Possible(s.cloud, ev) && OnlyDriverAttaches(Env(ev)) && !ev.Land?
    ensures OpsStand(Apply(s, Env(ev))) && OneOpEach(Apply(s, Env(ev)).cloud)
  {
    var s' := Apply(s, Env(ev));
    OtherEventsTouchNone(s.cloud, ev);
    forall ticket | ticket in s'.cloud.ops ensures OpStands(s', ticket) {
      assert OpStands(s, ticket);
    }
  }

  lemma OtherEventsKeepSights(s: State, ev: Event)
    requires CloudOk(s.cloud) && SightsStand(s) && Possible(s.cloud, ev) && OnlyDriverAttaches(Env(ev)) && !ev.Land?
    ensures SightsStand(Apply(s, Env(ev)))
  {
    var s' := Apply(s, Env(ev));
    OtherEventsTouchNone(s.cloud, ev);
    forall i | i in s'.rpcs && IsBeforeIssue(s'.rpcs[i])
      ensures AsSeen(s'.cloud, MainKey(s'.rpcs[i].req), SeenIn(s'.rpcs[i].phase.body).value)
    {
      assert AsSeen(s.cloud, MainKey(s.rpcs[i].req), SeenIn(s.rpcs[i].phase.body).value);
    }
  }

  lemma OtherEventsKeepQuiet(s: State, ev: Event)
    requires CloudOk(s.cloud) && QuietInv(s) && Possible(s.cloud, ev) && OnlyDriverAttaches(Env(ev)) && !ev.Land?
    ensures QuietInv(Apply(s, Env(ev)))
  {
    var s' := Apply(s, Env(ev));
    OtherEventsTouchNone(s.cloud, ev);
    OtherEventsKeepOps(s, ev);
    OtherEventsKeepSights(s, ev);
    forall i | i in s'.rpcs && PublishSucceeding(s'.rpcs[i])
      ensures OnNode(s'.cloud, MainKey(s'.rpcs[i].req), s'.rpcs[i].req.node) && s'.rpcs[i].req.node != ""
    {
      assert OnNode(s.cloud, MainKey(s.rpcs[i].req), s.rpcs[i].req.node);
    }
  }

  // ---------------------------------------------------------------- steps of an RPC

  predicate MayQueue(req: Request) {
    req.Publish? || req.Unpublish? || req.Expand?
  }

  /** Past its issue an RPC stays past it. */
  lemma StaysIssued(t: Rpc, r: Reply)
    requires WellFormedRpc(t) && Active(t) && MayQueue(t.req) && !HasNotIssued(t)
    ensures !HasNotIssued(Resume(t, r))
  {
    if t.phase.Running? {
      BodyStaysIssued(t.phase.body, r);
    }
  }

  lemma BodyStaysIssued(b: Body, r: Reply)
    requires (b.Pb? || b.Up? || b.Ex?) && !UpToIssue(b)
    ensures match Advance(b, r)
      case Goto(b') => !UpToIssue(b')
      case Lock(_, _) => false
      case Return(_) => true
  {
    match b
    case Pb(_, _, _) => {}
    case Up(_, _, _) => {}
    case Ex(_, _, _, _) => {}
  }

  /** And it regains no key. */
  lemma RegainsNoKey(t: Rpc, r: Reply, k: Key)
    requires WellFormedRpc(t) && Active(t) && MayQueue(t.req) && !HasNotIssued(t)
    ensures k in Resume(t, r).defers ==> k in t.defers
  {
    StackDiscipline(t, r);
  }

  predicate IsCommand(call: Call) {
    call.AttachDisk? || call.DetachDisk? || call.ResizeDisk?
  }

  lemma QueuedByCommand(s: State, i: nat, r: Reply, e: Effect)
    requires CanDrive(s, i, r, e) && e.NewOp?
    ensures s.rpcs[i].phase.Running? && IsCommand(CallOf(s.rpcs[i].phase.body))
  {
  }

  lemma BodyCommandBelongs(b: Body, req: Request, i: nat, r: Reply)
    requires BodyOf(b, req) && Established(b) && IsCommand(CallOf(b))
    ensures BeforeIssue(b) && BelongsTo(OpOf(i, CallOf(b)), req)
    ensures match Advance(b, r)
      case Goto(b') => !UpToIssue(b')
      case Lock(_, _) => false
      case Return(_) => true
  {
    match b
    case Pb(_, _, _) => {}
    case Up(_, _, _) => {}
    case Ex(_, _, _, _) => {}
  }

  lemma CommandBelongs(t: Rpc, i: nat, r: Reply)
    requires WellFormedRpc(t) && t.phase.Running? && IsCommand(CallOf(t.phase.body))
    ensures IsBeforeIssue(t) && !HasNotIssued(Resume(t, r)) && BelongsTo(OpOf(i, CallOf(t.phase.body)), t.req)
  {
    BodyCommandBelongs(t.phase.body, t.req, i, r);
  }

  /** A command is queued at the point of issue, for what the request calls for, and the RPC is past its issue then. */
  lemma QueuesWhatBelongs(s: State, i: nat, r: Reply, e: Effect)
    requires Inv(s) && CanDrive(s, i, r, e) && e.NewOp?
    ensures IsBeforeIssue(s.rpcs[i]) && !HasNotIssued(Resume(s.rpcs[i], r))
    ensures NextAction(s.rpcs[i]).Ask? && BelongsTo(OpOf(i, NextAction(s.rpcs[i]).call), s.rpcs[i].req)
  {
    QueuedByCommand(s, i, r, e);
    CommandBelongs(s.rpcs[i], i, r);
  }

  /** It suits the disk as the RPC has seen it. */
  lemma QueuesWhatSuits(t: Rpc, i: nat, d: Disk)
    requires WellFormedRpc(t) && IsBeforeIssue(t) && !CallOf(t.phase.body).DescribeInstance?
    requires d.instance == SeenIn(t.phase.body).value.instance && d.size == SeenIn(t.phase.body).value.size
    ensures Suits(OpOf(i, CallOf(t.phase.body)), t.req, d)
  {
  }

  lemma QueuedAtOnce(s: State, i: nat, r: Reply, e: Effect)
    requires CanDrive(s, i, r, e) && e.NewOp? && NextAction(s.rpcs[i]).Ask?
    ensures Apply(s, Drive(i, r, e)).cloud == s.cloud.(ops := s.cloud.ops[e.ticket := OpOf(i, NextAction(s.rpcs[i]).call)])
    ensures Apply(s, Drive(i, r, e)).rpcs == s.rpcs[i := Resume(s.rpcs[i], r)]
    ensures OpOf(i, NextAction(s.rpcs[i]).call).issuer == i && !NextAction(s.rpcs[i]).call.DescribeInstance?
  {
  }

  lemma NewOpStands(s: State, i: nat, r: Reply, e: Effect)
    requires Inv(s) && QuietInv(s) && CanDrive(s, i, r, e) && e.NewOp?
    ensures var s' := Apply(s, Drive(i, r, e)); e.ticket in s'.cloud.ops && OpStands(s', e.ticket)
  {
    var s' := Apply(s, Drive(i, r, e));
    QueuesWhatBelongs(s, i, r, e);
    ResumeKeepsRequest(s.rpcs[i], r);
    var op := OpOf(i, NextAction(s.rpcs[i]).call);
    QueuedAtOnce(s, i, r, e);
    assert AsSeen(s.cloud, MainKey(s.rpcs[i].req), SeenIn(s.rpcs[i].phase.body).value);
    if op.vol in s.cloud.disks {
      QueuesWhatSuits(s.rpcs[i], i, s.cloud.disks[op.vol]);
    }
  }

  lemma OldOpStands(s: State, i: nat, r: Reply, e: Effect, ticket: nat)
    requires Inv(s) && QuietInv(s) && CanDrive(s, i, r, e) && ticket in s.cloud.ops
    ensures var s' := Apply(s, Drive(i, r, e));
      ticket in s'.cloud.ops && s'.cloud.ops[ticket] == s.cloud.ops[ticket] && OpStands(s', ticket)
  {
    assert OpStands(s, ticket);
    DriveTouchesLittle(s, i, r, e);
    if s.cloud.ops[ticket].issuer == i {
      IssuerStaysPast(s.rpcs[i], r, s.cloud.ops[ticket].vol);
    }
  }

  lemma IssuerStaysPast(t: Rpc, r: Reply, k: Key)
    requires WellFormedRpc(t) && Active(t) && MayQueue(t.req) && !HasNotIssued(t)
    ensures var t' := Resume(t, r); t'.req == t.req && !HasNotIssued(t') && (k in t'.defers ==> k in t.defers)
  {
    ResumeKeepsRequest(t, r);
    StaysIssued(t, r);
    RegainsNoKey(t, r, k);
  }

  lemma DriveKeepsOps(s: State, i: nat, r: Reply, e: Effect)
    requires Inv(s) && QuietInv(s) && CanDrive(s, i, r, e)
    ensures OpsStand(Apply(s, Drive(i, r, e))) && OneOpEach(Apply(s, Drive(i, r, e)).cloud)
  {
    var s' := Apply(s, Drive(i, r, e));
    DriveTouchesLittle(s, i, r, e);
    if e.NewOp? {
      NewOpStands(s, i, r, e);
      QueuesWhatBelongs(s, i, r, e);
    }
    forall ticket | ticket in s'.cloud.ops ensures OpStands(s', ticket) {
      if ticket in s.cloud.ops {
        OldOpStands(s, i, r, e, ticket);
      }
    }
    forall ticket | ticket in s.cloud.ops && e.NewOp? ensures s.cloud.ops[ticket].issuer != i {
      assert OpStands(s, ticket);
    }
  }

  /** An RPC that is before its issue after its own step either was so before, or has just been told what it relies on. */
  lemma ComesBeforeIssue(t: Rpc, r: Reply)
    requires WellFormedRpc(t) && Active(t) && IsBeforeIssue(Resume(t, r))
    ensures t.phase.Running?
    ensures (IsBeforeIssue(t) && SeenIn(t.phase.body) == SeenIn(Resume(t, r).phase.body)) || Seen(t) != Seen(Resume(t, r))
  {
    if t.phase.Running? {
      AdvanceIsGood(t.phase.body, t.req, r);
      match t.phase.body
      case Pb(_, _, _) => {}
      case Up(_, _, _) => {}
      case Ex(_, _, _, _) => {}
      case _ => {}
    }
  }

  lemma OwnSightStands(s: State, i: nat, r: Reply, e: Effect)
    requires Inv(s) && QuietInv(s) && CanDrive(s, i, r, e) && IsBeforeIssue(Resume(s.rpcs[i], r))
    ensures AsSeen(s.cloud, MainKey(s.rpcs[i].req), SeenIn(Resume(s.rpcs[i], r).phase.body).value)
  {
    var t := s.rpcs[i];
    ComesBeforeIssue(t, r);
    if Seen(t) != Seen(Resume(t, r)) {
      NewlySeen(t, r);
      TruthfulDescription(s, i, r, e);
    } else {
      assert AsSeen(s.cloud, MainKey(t.req), SeenIn(t.phase.body).value);
    }
  }

  lemma DriveKeepsAsSeen(s: State, i: nat, r: Reply, e: Effect)
    requires CloudOk(s.cloud) && CanDrive(s, i, r, e)
    ensures forall id, vol :: AsSeen(s.cloud, id, vol) ==> AsSeen(Apply(s, Drive(i, r, e)).cloud, id, vol)
  {
    DriveTouchesLittle(s, i, r, e);
  }

  lemma DriveKeepsSights(s: State, i: nat, r: Reply, e: Effect)
    requires Inv(s) && QuietInv(s) && CanDrive(s, i, r, e)
    ensures SightsStand(Apply(s, Drive(i, r, e)))
  {
    var s' := Apply(s, Drive(i, r, e));
    DriveKeepsAsSeen(s, i, r, e);
    ResumeKeepsRequest(s.rpcs[i], r);
    if IsBeforeIssue(Resume(s.rpcs[i], r)) {
      OwnSightStands(s, i, r, e);
    }
    forall j | j in s'.rpcs && IsBeforeIssue(s'.rpcs[j])
      ensures AsSeen(s'.cloud, MainKey(s'.rpcs[j].req), SeenIn(s'.rpcs[j].phase.body).value)
    {
      if j != i {
        assert AsSeen(s.cloud, MainKey(s.rpcs[j].req), SeenIn(s.rpcs[j].phase.body).value);
      }
    }
  }

  /** Success of a publish comes from seeing the volume on the node: before, or just now. */
  lemma SucceedsBySeeing(t: Rpc, r: Reply)
    requires WellFormedRpc(t) && Active(t) && PublishSucceeding(Resume(t, r)) && !PublishSucceeding(t)
    ensures t.phase.Running? && t.phase.body.Pb? && t.req.Publish? && t.req.node != ""
    ensures
      || (t.phase.body.pbAt.PbVm? && Seen(t).value.instance == t.req.node)
      || (CallOf(t.phase.body) == DescribeDisk(MainKey(t.req)) && r.Disks? && |r.disks| == 1 && r.disks[0].instance == t.req.node)
  {
    match t.phase
    case Locking(_, _) => {}
    case Running(b) => {
      assert b.Pb?;
      match b.pbAt
      case PbFind => {}
      case PbVm(vol) => {}
      case PbAttach(vol) => {}
      case PbWait(vol, _) => {}
      case PbRefind => {}
    }
    case Unwinding(_) => {}
  }

  lemma DriveKeepsPublishes(s: State, i: nat, r: Reply, e: Effect)
    requires Inv(s) && QuietInv(s) && CanDrive(s, i, r, e)
    ensures PublishesStand(Apply(s, Drive(i, r, e)))
  {
    var s' := Apply(s, Drive(i, r, e));
    DriveTouchesLittle(s, i, r, e);
    ResumeKeepsRequest(s.rpcs[i], r);
    forall j | j in s'.rpcs && PublishSucceeding(s'.rpcs[j])
      ensures OnNode(s'.cloud, MainKey(s'.rpcs[j].req), s'.rpcs[j].req.node) && s'.rpcs[j].req.node != ""
    {
      if j != i || PublishSucceeding(s.rpcs[i]) {
        assert OnNode(s.cloud, MainKey(s.rpcs[j].req), s.rpcs[j].req.node);
      } else {
        SucceedsBySeeing(s.rpcs[i], r);
        if s.rpcs[i].phase.body.pbAt.PbVm? {
          assert AsSeen(s.cloud, MainKey(s.rpcs[i].req), SeenIn(s.rpcs[i].phase.body).value);
        } else {
          TruthfulDescription(s, i, r, e);
        }
      }
    }
  }

  lemma SpawnKeepsQuiet(s: State, i: nat, req: Request)
    requires QuietInv(s) && i !in s.rpcs
    ensures QuietInv(Apply(s, Spawn(i, req)))
  {
    var s' := Apply(s, Spawn(i, req));
    forall ticket | ticket in s'.cloud.ops ensures OpStands(s', ticket) {
      assert OpStands(s, ticket);
    }
  }

  lemma StepKeepsQuiet(s: State, l: Label)
    requires Inv(s) && QuietInv(s) && Enabled(s, l) && OnlyDriverAttaches(l) && LandsInTime(s, l)
    ensures QuietInv(Apply(s, l))
  {
    match l
    case Spawn(i, req) => SpawnKeepsQuiet(s, i, req);
    case Drive(i, r, e) => {
      DriveKeepsOps(s, i, r, e);
      DriveKeepsSights(s, i, r, e);
      DriveKeepsPublishes(s, i, r, e);
    }
    case Env(ev) =>
      if ev.Land? {
        LandKeepsOps(s, ev.ticket);
        LandKeepsSights(s, ev.ticket);
        LandKeepsPublishes(s, ev.ticket);
      } else {
        OtherEventsKeepQuiet(s, ev);
      }
  }

  // ---------------------------------------------------------------- the theorems

  /** A run in which operations land in time and only the driver attaches and resizes. */
  ghost predicate QuietRun(ss: seq<State>, ls: seq<Label>) {
    IsRun(ss, ls) && forall k :: 0 <= k < |ls| ==> OnlyDriverAttaches(ls[k]) && LandsInTime(ss[k], ls[k])
  }

  lemma QuietStep(ss: seq<State>, ls: seq<Label>, k: nat)
    requires QuietRun(ss, ls) && k < |ls| && Inv(ss[k]) && QuietInv(ss[k])
    ensures Inv(ss[k + 1]) && QuietInv(ss[k + 1])
  {
    assert StepsTo(ss, ls, k);
    StepKeepsQuiet(ss[k], ls[k]);
    StepKeepsInv(ss[k], ls[k]);
  }

  lemma InitialQuiet(s: State)
    requires Initial(s)
    ensures QuietInv(s)
  {
  }

  lemma {:induction false} QuietInvHolds(ss: seq<State>, ls: seq<Label>, n: nat)
    requires QuietRun(ss, ls) && n < |ss|
    ensures Inv(ss[n]) && QuietInv(ss[n])
  {
    if n == 0 {
      InitialInv(ss[0]);
      InitialQuiet(ss[0]);
    } else {
      QuietInvHolds(ss, ls, n - 1);
      QuietStep(ss, ls, n - 1);
    }
  }

  /** A disk's instance or size changes only when an operation on it lands. */
  lemma OnlyLandingsChange(s: State, l: Label, id: Id)
    requires Inv(s) && Enabled(s, l) && OnlyDriverAttaches(l)
    requires id in s.cloud.disks && id in Apply(s, l).cloud.disks
    requires var d, d' := s.cloud.disks[id], Apply(s, l).cloud.disks[id]; d.instance != d'.instance || d.size != d'.size
    ensures l.Env? && l.ev.Land? && s.cloud.ops[l.ev.ticket].vol == id
    ensures Apply(s, l).cloud.disks[id] == Landed(s.cloud.disks[id], s.cloud.ops[l.ev.ticket].kind)
  {
    if l.Drive? {
      DriveTouchesLittle(s, l.i, l.reply, l.effect);
    }
  }

  /**
   In a quiet run a queued operation is always what its issuer's request calls for, and as
   long as its issuer holds the volume, which it does when the operation lands, the disk is
   as the command took it to be: unattached for an attach, on the node asked for by a
   detach, smaller for a resize.
   */
  lemma LandsOnWhatWasSeen(ss: seq<State>, ls: seq<Label>, n: nat, ticket: nat)
    requires QuietRun(ss, ls) && n < |ss| && ticket in ss[n].cloud.ops
    ensures var s, op := ss[n], ss[n].cloud.ops[ticket];
      && op.issuer in s.rpcs && BelongsTo(op, s.rpcs[op.issuer].req)
      && (n < |ls| && ls[n] == Env(Land(ticket)) ==> IssuerHolds(s, op))
      && (IssuerHolds(s, op) ==> op.vol in s.locks)
      && (IssuerHolds(s, op) && op.vol in s.cloud.disks ==> Suits(op, s.rpcs[op.issuer].req, s.cloud.disks[op.vol]))
  {
    QuietInvHolds(ss, ls, n);
    var s, op := ss[n], ss[n].cloud.ops[ticket];
    assert OpStands(s, ticket);
    assert n < |ls| ==> LandsInTime(s, ls[n]);
    assert IssuerHolds(s, op) ==> Holds(StacksOf(s.rpcs), op.issuer, op.vol);
  }

  /** So every change of attachment or size goes back to a request that asks for just that. */
  lemma ChangesByLanding(ss: seq<State>, ls: seq<Label>, n: nat, id: Id) returns (ticket: nat)
    requires QuietRun(ss, ls) && n < |ls| && id in ss[n].cloud.disks && id in ss[n + 1].cloud.disks
    requires var d, d' := ss[n].cloud.disks[id], ss[n + 1].cloud.disks[id]; d.instance != d'.instance || d.size != d'.size
    ensures ticket in ss[n].cloud.ops && var s, op := ss[n], ss[n].cloud.ops[ticket];
      && op.vol == id && op.issuer in s.rpcs && BelongsTo(op, s.rpcs[op.issuer].req)
      && id in s.rpcs[op.issuer].defers && id in s.locks && Suits(op, s.rpcs[op.issuer].req, s.cloud.disks[id])
      && ss[n + 1].cloud.disks[id] == Landed(s.cloud.disks[id], op.kind)
  {
    LocksAreOwned(ss, ls, n);
    assert StepsTo(ss, ls, n);
    OnlyLandingsChange(ss[n], ls[n], id);
    ticket := ls[n].ev.ticket;
    LandsOnWhatWasSeen(ss, ls, n, ticket);
  }

  /**
   In a quiet run a volume leaves an instance only because an unpublish of that volume
   from that very instance is in progress and holds its lock, and it then is attached
   nowhere. No run moves a volume away from any other instance.
   */
  lemma DetachedOnlyFromUnpublishedNode(ss: seq<State>, ls: seq<Label>, n: nat, id: Id) returns (i: nat)
    requires QuietRun(ss, ls) && n < |ls| && id in ss[n].cloud.disks && id in ss[n + 1].cloud.disks
    requires ss[n].cloud.disks[id].instance != ""
    requires ss[n].cloud.disks[id].instance != ss[n + 1].cloud.disks[id].instance
    ensures i in ss[n].rpcs && ss[n].rpcs[i].req.Unpublish? && MainKey(ss[n].rpcs[i].req) == id
    ensures ss[n].rpcs[i].req.node == ss[n].cloud.disks[id].instance
    ensures id in ss[n].rpcs[i].defers && id in ss[n].locks
    ensures ss[n + 1].cloud.disks[id].instance == ""
  {
    var ticket := ChangesByLanding(ss, ls, n, id);
    i := ss[n].cloud.ops[ticket].issuer;
  }

  /** In a quiet run a volume becomes attached only through a publish of it to that instance. */
  lemma AttachedOnlyToPublishedNode(ss: seq<State>, ls: seq<Label>, n: nat, id: Id) returns (i: nat)
    requires QuietRun(ss, ls) && n < |ls| && id in ss[n].cloud.disks && id in ss[n + 1].cloud.disks
    requires ss[n + 1].cloud.disks[id].instance != ""
    requires ss[n].cloud.disks[id].instance != ss[n + 1].cloud.disks[id].instance
    ensures i in ss[n].rpcs && ss[n].rpcs[i].req.Publish? && MainKey(ss[n].rpcs[i].req) == id
    ensures ss[n].rpcs[i].req.node == ss[n + 1].cloud.disks[id].instance
    ensures id in ss[n].rpcs[i].defers && id in ss[n].locks
    ensures ss[n].cloud.disks[id].instance == ""
  {
    var ticket := ChangesByLanding(ss, ls, n, id);
    i := ss[n].cloud.ops[ticket].issuer;
  }

  /** In a quiet run a publish that is answering OK has its volume attached to its node. */
  lemma PublishOkMeansAttached(ss: seq<State>, ls: seq<Label>, n: nat, i: nat)
    requires QuietRun(ss, ls) && n < |ss| && i in ss[n].rpcs && PublishSucceeding(ss[n].rpcs[i])
    ensures MainKey(ss[n].rpcs[i].req) in ss[n].cloud.disks ==>
      ss[n].cloud.disks[MainKey(ss[n].rpcs[i].req)].instance == ss[n].rpcs[i].req.node
  {
    QuietInvHolds(ss, ls, n);
  }

  /** RPC `i` is an expansion of the disk to `gib` GiB and holds its lock. */
  ghost predicate ExpandsTo(s: State, i: nat, id: Id, gib: int64) {
    && i in s.rpcs && s.rpcs[i].req.Expand? && MainKey(s.rpcs[i].req) == id && id in s.rpcs[i].defers
    && ExpandGib(s.rpcs[i].req.range) == Success(gib)
  }

  /**
   In a quiet run disks never shrink, and a disk changes size only because an expansion of
   it is in progress, whose requested size is strictly larger than the disk was.
   */
  lemma SizesOnlyGrow(ss: seq<State>, ls: seq<Label>, n: nat, id: Id)
    requires QuietRun(ss, ls) && n < |ls| && id in ss[n].cloud.disks && id in ss[n + 1].cloud.disks
    ensures var before, after := ss[n].cloud.disks[id].size, ss[n + 1].cloud.disks[id].size;
      before == after || (GibToByte(before) < GibToByte(after) && exists i :: ExpandsTo(ss[n], i, id, after))
  {
    if ss[n].cloud.disks[id].size != ss[n + 1].cloud.disks[id].size {
      var ticket := ChangesByLanding(ss, ls, n, id);
      var i := ss[n].cloud.ops[ticket].issuer;
      assert ExpandsTo(ss[n], i, id, ss[n + 1].cloud.disks[id].size);
    }
  }

  /** Over any stretch of a quiet run in which the disk stays, its size in bytes never decreases. */
  lemma {:induction false} SizesGrowOverRuns(ss: seq<State>, ls: seq<Label>, m: nat, n: nat, id: Id)
    requires QuietRun(ss, ls) && m <= n < |ss|
    requires forall k :: m <= k <= n ==> id in ss[k].cloud.disks
    ensures GibToByte(ss[m].cloud.disks[id].size) <= GibToByte(ss[n].cloud.disks[id].size)
    decreases n
  {
    if m < n {
      SizesGrowOverRuns(ss, ls, m, n - 1, id);
      SizesOnlyGrow(ss, ls, n - 1, id);
    }
  }
}
