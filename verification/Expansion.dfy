/** What an expansion answers, and when it issues a resize. */
module Expansion {
  import opened Wrappers
  import opened Capacity
  import opened CloudTypes
  import opened ControllerProgram
  import opened ControllerSystem
  import opened Conversations
  import opened Observations
  import opened Attachments

  function Resizes(log: Log): nat {
    if log == [] then 0
    else Resizes(log[..|log| - 1]) + if log[|log| - 1].action.Ask? && log[|log| - 1].action.call.ResizeDisk? then 1 else 0
  }

  /** An answer that reports enough: what was required, and no less than the disk had. */
  predicate Honest(range: Option<CapacityRange>, d: Disk, capacity: int64, resizes: nat) {
    && GibToByte(d.size) <= capacity
    && (Roundable(range) && range.Some? ==> range.value.required <= capacity)
    && resizes == (if capacity == GibToByte(d.size) then 0 else 1)
    && ExpandGib(range).Success? && GibToByte(ExpandGib(range).value) <= capacity
  }

  /** The first sight of the disk, and the resizes issued, at each point of an expansion. */
  predicate ExpandLedger(t: Rpc, log: Log) {
    match t.phase
    case Locking(_, _) => Resizes(log) == 0 && FirstSight(log).None?
    case Running(b) =>
      && b.Ex?
      && Resizes(log) == (if b.exAt.ExWait? then 1 else 0)
      && FirstSight(log) == (if b.exAt.ExFind? then None else Some(Disks([b.exAt.vol])))
    case _ =>
      t.phase.outcome.Ok? ==>
        && t.req.Expand?
        && t.phase.outcome.response.Expanded?
        && FirstSight(log).Some? && OneDisk(FirstSight(log).value).Single?
        && Honest(t.req.range, OneDisk(FirstSight(log).value).it, t.phase.outcome.response.capacityBytes, Resizes(log))
  }

  /** The size asked of the cloud covers what was required, for ranges that do not overflow. */
  lemma ExpandGibCovers(range: Option<CapacityRange>)
    requires Roundable(range) && ExpandGib(range).Success?
    ensures range.Some? ==> range.value.required <= GibToByte(ExpandGib(range).value)
  {
    RequiredSizeIsLeast(ZEC_LIMITS, range);
    RequiredSizeIsValidCapacity(ZEC_LIMITS, range);
  }

  lemma ExpandLedgerStep(t: Rpc, log: Log, e: Exchange)
    requires t.req.Expand? && WellFormedRpc(t) && Active(t) && ExpandLedger(t, log) && e.action == NextAction(t)
    ensures ExpandLedger(Resume(t, e.reply), log + [e])
  {
    var log' := log + [e];
    assert log'[..|log'| - 1] == log;
    if t.phase.Running? {
      match t.phase.body.exAt
      case ExFind => {
        if OneDisk(e.reply).Single? {
          assert e.reply == Disks([OneDisk(e.reply).it]);
          LargeEnoughIsHonest(t.req.range, OneDisk(e.reply).it);
        }
      }
      case ExResize(vol, gib) => {}
      case ExWait(vol, gib, _) => ResizedIsHonest(t.req.range, vol, gib);
    }
  }

  lemma LargeEnoughIsHonest(range: Option<CapacityRange>, d: Disk)
    ensures ExpandGib(range).Success? && GibToByte(ExpandGib(range).value) <= GibToByte(d.size) ==>
      Honest(range, d, GibToByte(d.size), 0)
  {
    if Roundable(range) && ExpandGib(range).Success? {
      ExpandGibCovers(range);
    }
  }

  lemma ResizedIsHonest(range: Option<CapacityRange>, vol: Disk, gib: int64)
    requires ExpandGib(range) == Success(gib) && GibToByte(vol.size) < GibToByte(gib)
    ensures Honest(range, vol, GibToByte(gib), 1)
  {
    if Roundable(range) {
      ExpandGibCovers(range);
    }
  }

  lemma {:induction false} ExpandLedgerHolds(req: Request, log: Log)
    requires req.Expand? && Precheck(req).None? && Follows(Start(req), log)
    ensures ExpandLedger(After(Start(req), log), log)
  {
    if log != [] {
      var before := log[..|log| - 1];
      ExpandLedgerHolds(req, before);
      StartIsWellFormed(req);
      AfterIsWellFormed(Start(req), before);
      ExpandLedgerStep(After(Start(req), before), before, log[|log| - 1]);
      assert before + [log[|log| - 1]] == log;
    }
  }

  /**
   Whatever the cloud answers, an expansion that reports OK reports at least the bytes
   required (for a range that does not overflow) and at least the size the disk had, and
   it has issued one resize or, if the disk was large enough, none.
   */
  lemma ExpandMeaning(req: Request, log: Log)
    requires req.Expand? && Precheck(req).None? && Follows(Start(req), log)
    requires After(Start(req), log).phase.Finished? && After(Start(req), log).phase.outcome.Ok?
    ensures var o := After(Start(req), log).phase.outcome;
      && o.response.Expanded? && FirstSight(log).Some? && OneDisk(FirstSight(log).value).Single?
      && Honest(req.range, OneDisk(FirstSight(log).value).it, o.response.capacityBytes, Resizes(log))
  {
    ExpandLedgerHolds(req, log);
    StartIsWellFormed(req);
    AfterIsWellFormed(Start(req), log);
  }

  /** The same for every expansion of every run. */
  lemma ExpansionsInRuns(ss: seq<State>, ls: seq<Label>, n: nat, i: nat)
    requires IsRun(ss, ls) && n < |ss| && i in ss[n].rpcs
    requires ss[n].rpcs[i].req.Expand? && Precheck(ss[n].rpcs[i].req).None?
    requires ss[n].rpcs[i].phase.Finished? && ss[n].rpcs[i].phase.outcome.Ok?
    ensures var t, log := ss[n].rpcs[i], History(ss, ls, n, i);
      && t.phase.outcome.response.Expanded? && FirstSight(log).Some? && OneDisk(FirstSight(log).value).Single?
      && Honest(t.req.range, OneDisk(FirstSight(log).value).it, t.phase.outcome.response.capacityBytes, Resizes(log))
  {
    RunsAreConversations(ss, ls, n, i);
    ExpandMeaning(ss[n].rpcs[i].req, History(ss, ls, n, i));
  }

  /**
   A well-formed range is answered OK with less than the required bytes, without a resize,
   exactly when rounding it up overflows.
   */
  lemma ExpandFallsShort(id: Id, range: CapacityRange, block: bool, d: Disk)
    requires WellFormed(Some(range)) && IsValidVolumeType(d.typ) && 0 <= d.size < 0x2_0000_0000
    ensures var v := AdvanceEx(id, Some(range), block, ExFind, Disks([d]));
      (v.Return? && v.outcome.Ok? && v.outcome.response.capacityBytes < range.required) <==> !Roundable(Some(range))
  {
    GibToByteIsExact(d.size);
    if Roundable(Some(range)) {
      if ExpandGib(Some(range)).Success? {
        ExpandGibCovers(Some(range));
      }
    } else {
      RequiredSizeOverflows(ZEC_LIMITS, Some(range));
      assert ExpandGib(Some(range)) == Success(0);
    }
  }

  /**
   In a quiet run, once a resize has been applied, no expansion that begins later issues
   the same (or a smaller) resize again.
   */
  lemma NoSecondResize(ss: seq<State>, ls: seq<Label>, m: nat, n: nat, i: nat, id: Id, gib: int64)
    requires QuietRun(ss, ls) && m <= n < |ls|
    requires forall k :: m <= k <= n ==> id in ss[k].cloud.disks
    requires GibToByte(gib) <= GibToByte(ss[m].cloud.disks[id].size)
    requires i !in ss[m].rpcs && i in ss[n].rpcs && Active(ss[n].rpcs[i])
    ensures !(ls[n].Drive? && ls[n].i == i && NextAction(ss[n].rpcs[i]) == Ask(ResizeDisk(id, gib)))
  {
    if ls[n].Drive? && ls[n].i == i && NextAction(ss[n].rpcs[i]) == Ask(ResizeDisk(id, gib)) {
      assert StepsTo(ss, ls, n);
      var k, vol := ResizeIsJustified(ss, ls, n, i, id, gib);
      assert m <= k;
      SizesGrowOverRuns(ss, ls, m, k, id);
      assert false;
    }
  }

  // ---------------------------------------------------------------- when OK means that the size has been reached

  /**
   Polls show the resize: when an expansion polls, its disk is not in a stable state while
   its own resize is still queued. So it is when the cloud takes the disk out of the stable
   states as it accepts the resize, or before the first poll, and puts it back only when
   the resize has landed.
   */
  ghost predicate PollsShow(s: State, l: Label) {
    l.Drive? && l.i in s.rpcs && Waiting(s.rpcs[l.i]) ==>
      forall ticket :: ticket in s.cloud.ops && s.cloud.ops[ticket].issuer == l.i && s.cloud.ops[ticket].vol in s.cloud.disks ==>
        !Stable(s.cloud.disks[s.cloud.ops[ticket].vol].status)
  }

  predicate Stable(status: DiskStatus) {
    status == Available || status == InUse
  }

  /** No resize is dropped while its expansion waits for it. */
  ghost predicate WaitedResizeKept(s: State, l: Label) {
    l.Env? && l.ev.Drop? && l.ev.ticket in s.cloud.ops ==>
      !(s.cloud.ops[l.ev.ticket].issuer in s.rpcs && Waiting(s.rpcs[s.cloud.ops[l.ev.ticket].issuer]))
  }

  ghost predicate HasQueued(c: Cloud, i: nat) {
    exists ticket :: ticket in c.ops && c.ops[ticket].issuer == i
  }

  /** The disk, if it is still there, has the size. */
  predicate HasSize(c: Cloud, id: Id, gib: int64) {
    id in c.births && (id in c.disks ==> c.disks[id].size == gib)
  }

  predicate Waiting(t: Rpc) {
    t.phase.Running? && t.phase.body.Ex? && t.phase.body.exAt.ExWait?
  }

  /** An expansion that is answering OK. */
  predicate Reporting(t: Rpc) {
    t.req.Expand? && t.phase.Unwinding? && t.phase.outcome.Ok? && t.phase.outcome.response.Expanded?
  }

  predicate HasBytes(c: Cloud, id: Id, bytes: int64) {
    id in c.births && (id in c.disks ==> GibToByte(c.disks[id].size) == bytes)
  }

  /** An expansion waits for its resize, or has its size; and one that answers OK has what it reports. */
  ghost predicate Grows(c: Cloud, i: nat, t: Rpc) {
    && (Waiting(t) ==> HasQueued(c, i) || HasSize(c, MainKey(t.req), t.phase.body.exAt.gib))
    && (Reporting(t) ==> !HasQueued(c, i) && HasBytes(c, MainKey(t.req), t.phase.outcome.response.capacityBytes))
  }

  ghost predicate AllGrow(s: State) {
    forall i :: i in s.rpcs ==> Grows(s.cloud, i, s.rpcs[i])
  }

  /** An RPC that has not issued its command has none queued. */
  lemma NothingQueuedYet(s: State, i: nat)
    requires QuietInv(s) && i in s.rpcs && HasNotIssued(s.rpcs[i])
    ensures !HasQueued(s.cloud, i)
  {
    forall ticket | ticket in s.cloud.ops ensures s.cloud.ops[ticket].issuer != i {
      assert OpStands(s, ticket);
    }
  }

  /** The three ways to come to wait for a resize, or to report. */
  lemma ComesToReport(t: Rpc, r: Reply)
    requires WellFormedRpc(t) && Active(t) && Reporting(Resume(t, r)) && !Reporting(t)
    ensures t.phase.Running? && t.phase.body.Ex? && CallOf(t.phase.body) == DescribeDisk(MainKey(t.req))
    ensures r.Disks? && |r.disks| == 1
    ensures var bytes := Resume(t, r).phase.outcome.response.capacityBytes;
      || (t.phase.body.exAt.ExFind? && bytes == GibToByte(r.disks[0].size))
      || (t.phase.body.exAt.ExWait? && Stable(r.disks[0].status) && bytes == GibToByte(t.phase.body.exAt.gib))
  {
    if t.phase.Running? {
      match t.phase.body
      case Cv(_, _) => {}
      case Dv(_, _) => {}
      case Pb(_, _, _) => {}
      case Up(_, _, _) => {}
      case Ex(_, _, _, _) => {}
      case Cs(_, _, _, _) => {}
      case Ds(_, _) => {}
    }
  }

  lemma ComesToWait(t: Rpc, r: Reply)
    requires WellFormedRpc(t) && Active(t) && Waiting(Resume(t, r))
    ensures t.phase.Running? && t.phase.body.Ex?
    ensures (Waiting(t) && t.phase.body.exAt.gib == Resume(t, r).phase.body.exAt.gib) || (t.phase.body.exAt.ExResize? && r == Accepted)
  {
    if t.phase.Running? {
      AdvanceIsGood(t.phase.body, t.req, r);
    }
  }

  /** While an own resize is queued the disk is not stable, so a stable disk means that it has landed. */
  lemma StableMeansLanded(s: State, i: nat, r: Reply, e: Effect)
    requires Inv(s) && QuietInv(s) && PollsShow(s, Drive(i, r, e)) && AllGrow(s) && i in s.rpcs && Waiting(s.rpcs[i])
    requires MainKey(s.rpcs[i].req) in s.cloud.disks && Stable(s.cloud.disks[MainKey(s.rpcs[i].req)].status)
    ensures !HasQueued(s.cloud, i) && s.cloud.disks[MainKey(s.rpcs[i].req)].size == s.rpcs[i].phase.body.exAt.gib
  {
    forall ticket | ticket in s.cloud.ops ensures s.cloud.ops[ticket].issuer != i {
      assert OpStands(s, ticket);
    }
    assert Grows(s.cloud, i, s.rpcs[i]);
  }

  lemma OwnStepReports(s: State, i: nat, r: Reply, e: Effect)
    requires Inv(s) && QuietInv(s) && PollsShow(s, Drive(i, r, e)) && AllGrow(s) && CanDrive(s, i, r, e)
    requires Reporting(Resume(s.rpcs[i], r)) && !Reporting(s.rpcs[i])
    ensures e == NoEffect && Grows(s.cloud, i, Resume(s.rpcs[i], r))
  {
    ComesToReport(s.rpcs[i], r);
    TruthfulDescription(s, i, r, e);
    ResumeKeepsRequest(s.rpcs[i], r);
    if s.rpcs[i].phase.body.exAt.ExFind? {
      NothingQueuedYet(s, i);
    } else {
      StableMeansLanded(s, i, r, e);
    }
  }

  lemma OwnStepWaits(s: State, i: nat, r: Reply, e: Effect)
    requires Inv(s) && AllGrow(s) && CanDrive(s, i, r, e) && Waiting(Resume(s.rpcs[i], r))
    ensures Grows(Apply(s, Drive(i, r, e)).cloud, i, Resume(s.rpcs[i], r))
  {
    var s' := Apply(s, Drive(i, r, e));
    ComesToWait(s.rpcs[i], r);
    DriveTouchesLittle(s, i, r, e);
    ResumeKeepsRequest(s.rpcs[i], r);
    if Waiting(s.rpcs[i]) {
      assert Grows(s.cloud, i, s.rpcs[i]);
      QueuedStays(s, i, r, e, i);
    } else {
      assert e.NewOp? && s'.cloud.ops[e.ticket].issuer == i;
    }
  }

  lemma QueuedStays(s: State, i: nat, r: Reply, e: Effect, j: nat)
    requires CloudOk(s.cloud) && CanDrive(s, i, r, e)
    ensures HasQueued(s.cloud, j) ==> HasQueued(Apply(s, Drive(i, r, e)).cloud, j)
    ensures j != i ==> (HasQueued(s.cloud, j) <==> HasQueued(Apply(s, Drive(i, r, e)).cloud, j))
  {
    var s' := Apply(s, Drive(i, r, e));
    DriveTouchesLittle(s, i, r, e);
    forall ticket | ticket in s.cloud.ops ensures ticket in s'.cloud.ops && s'.cloud.ops[ticket] == s.cloud.ops[ticket] {
    }
  }

  lemma OthersStepGrows(s: State, i: nat, r: Reply, e: Effect, j: nat)
    requires Inv(s) && AllGrow(s) && CanDrive(s, i, r, e) && j in s.rpcs
    requires j != i || e == NoEffect
    ensures Grows(Apply(s, Drive(i, r, e)).cloud, j, s.rpcs[j])
  {
    assert Grows(s.cloud, j, s.rpcs[j]);
    QueuedStays(s, i, r, e, j);
    DriveTouchesLittle(s, i, r, e);
  }

  lemma ReportingQueuesNothing(s: State, i: nat, r: Reply, e: Effect)
    requires Inv(s) && CanDrive(s, i, r, e) && s.rpcs[i].phase.Unwinding?
    ensures e == NoEffect
    ensures Reporting(Resume(s.rpcs[i], r)) ==>
      Reporting(s.rpcs[i]) && Resume(s.rpcs[i], r).phase == s.rpcs[i].phase && Resume(s.rpcs[i], r).req == s.rpcs[i].req
  {
  }

  lemma DriveKeepsGrowth(s: State, i: nat, r: Reply, e: Effect)
    requires Inv(s) && QuietInv(s) && PollsShow(s, Drive(i, r, e)) && AllGrow(s) && CanDrive(s, i, r, e)
    ensures AllGrow(Apply(s, Drive(i, r, e)))
  {
    var s' := Apply(s, Drive(i, r, e));
    forall j | j in s'.rpcs ensures Grows(s'.cloud, j, s'.rpcs[j]) {
      if j != i {
        OthersStepGrows(s, i, r, e, j);
      } else if Waiting(s'.rpcs[i]) {
        OwnStepWaits(s, i, r, e);
      } else if Reporting(s'.rpcs[i]) {
        if Reporting(s.rpcs[i]) {
          ReportingQueuesNothing(s, i, r, e);
        } else {
          OwnStepReports(s, i, r, e);
        }
        assert s'.cloud == s.cloud;
      }
    }
  }

  /** The operations a landing leaves, by issuer. */
  lemma LandedIsGone(s: State, ticket: nat, i: nat)
    requires OneOpEach(s.cloud) && ticket in s.cloud.ops
    ensures var c' := AfterEvent(s.cloud, Land(ticket));
      if s.cloud.ops[ticket].issuer == i then !HasQueued(c', i) else HasQueued(s.cloud, i) <==> HasQueued(c', i)
  {
    var c' := AfterEvent(s.cloud, Land(ticket));
    forall other ensures other in c'.ops <==> other in s.cloud.ops && other != ticket {
    }
  }

  lemma LandGrows(s: State, ticket: nat, i: nat)
    requires Inv(s) && QuietInv(s) && AllGrow(s) && i in s.rpcs && ticket in s.cloud.ops && IssuerHolds(s, s.cloud.ops[ticket])
    ensures Grows(AfterEvent(s.cloud, Land(ticket)), i, s.rpcs[i])
  {
    var op := s.cloud.ops[ticket];
    assert Grows(s.cloud, i, s.rpcs[i]) && OpStands(s, ticket);
    LandedIsGone(s, ticket, i);
    if op.issuer != i && (Waiting(s.rpcs[i]) || Reporting(s.rpcs[i])) && MainKey(s.rpcs[i].req) == op.vol {
      if s.rpcs[i].phase.Running? {
        RunningHoldsMainKey(s, i);
      } else {
        UnwindingHoldsMainKey(s, i);
      }
      Exclusive(s, i, op.issuer, op.vol);
    }
  }

  lemma EventKeepsGrowth(s: State, ev: Event)
    requires Inv(s) && QuietInv(s) && AllGrow(s) && LandsInTime(s, Env(ev))
    requires Possible(s.cloud, ev) && OnlyDriverAttaches(Env(ev)) && WaitedResizeKept(s, Env(ev))
    ensures AllGrow(Apply(s, Env(ev)))
  {
    var s' := Apply(s, Env(ev));
    forall i | i in s'.rpcs ensures Grows(s'.cloud, i, s'.rpcs[i]) {
      if ev.Land? {
        LandGrows(s, ev.ticket, i);
      } else {
        OtherEventGrows(s, ev, i);
      }
    }
  }

  lemma OtherEventGrows(s: State, ev: Event, i: nat)
    requires Inv(s) && QuietInv(s) && AllGrow(s) && i in s.rpcs && !ev.Land?
    requires Possible(s.cloud, ev) && OnlyDriverAttaches(Env(ev)) && WaitedResizeKept(s, Env(ev))
    ensures Grows(AfterEvent(s.cloud, ev), i, s.rpcs[i])
  {
    var c, c' := s.cloud, AfterEvent(s.cloud, ev);
    assert Grows(c, i, s.rpcs[i]);
    OtherEventsTouchNone(c, ev);
    if Waiting(s.rpcs[i]) && HasQueued(c, i) {
      var ticket :| ticket in c.ops && c.ops[ticket].issuer == i;
      assert OpStands(s, ticket) && c.ops[ticket].kind.ResizeOp?;
      assert ticket in c'.ops;
    }
  }

  /** Which of the conditions on operations in flight a class of runs keeps. */
  datatype Rules = Rules(inTime: bool, shown: bool, kept: bool, detachShown: bool)

  const RESIZE_RULES := Rules(true, true, true, false)
  const ANYTHING_GOES := Rules(false, false, false, false)

  ghost predicate Obeys(rules: Rules, s: State, l: Label) {
    && (rules.inTime ==> LandsInTime(s, l))
    && (rules.shown ==> PollsShow(s, l))
    && (rules.kept ==> WaitedResizeKept(s, l))
    && (rules.detachShown ==> DetachShows(s, l))
  }

  /** A run in which only the driver attaches and resizes, and which keeps the conditions. */
  ghost predicate RunUnder(rules: Rules, ss: seq<State>, ls: seq<Label>) {
    IsRun(ss, ls) && forall k :: 0 <= k < |ls| ==> OnlyDriverAttaches(ls[k]) && Obeys(rules, ss[k], ls[k])
  }

  /** Polls show resizes, none is dropped while it is waited for, and all land in time. */
  ghost predicate VisibleResizes(ss: seq<State>, ls: seq<Label>) {
    RunUnder(RESIZE_RULES, ss, ls)
  }

  lemma {:induction false} GrowthHolds(ss: seq<State>, ls: seq<Label>, n: nat)
    requires VisibleResizes(ss, ls) && n < |ss|
    ensures AllGrow(ss[n])
  {
    if n > 0 {
      GrowthHolds(ss, ls, n - 1);
      QuietInvHolds(ss, ls, n - 1);
      assert StepsTo(ss, ls, n - 1);
      StepKeepsGrowth(ss[n - 1], ls[n - 1]);
    }
  }

  lemma StepKeepsGrowth(s: State, l: Label)
    requires Inv(s) && QuietInv(s) && AllGrow(s) && LandsInTime(s, l) && PollsShow(s, l)
    requires Enabled(s, l) && OnlyDriverAttaches(l) && WaitedResizeKept(s, l)
    ensures AllGrow(Apply(s, l))
  {
    match l
    case Spawn(i, req) => {
      assert !Waiting(Start(req)) && !Reporting(Start(req));
      forall j | j in s.rpcs ensures Grows(s.cloud, j, s.rpcs[j]) {
      }
    }
    case Drive(i, r, e) => DriveKeepsGrowth(s, i, r, e);
    case Env(ev) => EventKeepsGrowth(s, ev);
  }

  /**
   If polls show resizes and none is dropped while it is waited for, then in a quiet run an
   expansion that is answering OK has the size it reports.
   */
  lemma ExpandOkHasSize(ss: seq<State>, ls: seq<Label>, n: nat, i: nat)
    requires VisibleResizes(ss, ls) && n < |ss| && i in ss[n].rpcs && Reporting(ss[n].rpcs[i])
    ensures HasBytes(ss[n].cloud, MainKey(ss[n].rpcs[i].req), ss[n].rpcs[i].phase.outcome.response.capacityBytes)
  {
    GrowthHolds(ss, ls, n);
    assert Grows(ss[n].cloud, i, ss[n].rpcs[i]);
  }
}
