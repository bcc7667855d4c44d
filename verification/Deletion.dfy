/** Two-phase deletion: what a DeleteVolume that reports success has done and seen. */
module Deletion {
  import opened RpcCodes
  import opened CloudTypes
  import opened ControllerProgram
  import opened ControllerSystem
  import opened Conversations

  // ---------------------------------------------------------------- one call, any answers at all

  function Releases(log: Log): nat {
    if log == [] then 0
    else Releases(log[..|log| - 1]) + if log[|log| - 1].action.Ask? && log[|log| - 1].action.call.ReleaseDisk? then 1 else 0
  }

  predicate RecycledAtFirst(log: Log) {
    FirstSight(log).Some? && OneDisk(FirstSight(log).value).Single? && OneDisk(FirstSight(log).value).it.status == Recycled
  }

  /** The exchange tells that the disk is gone. */
  predicate TellsGone(e: Exchange, id: Id) {
    (e.action == Ask(DescribeDisk(id)) && e.reply == Disks([])) || (e.action == Ask(ReleaseDisk(id)) && e.reply == ResourceNotFound)
  }

  predicate SawGone(log: Log, id: Id) {
    exists k :: 0 <= k < |log| && TellsGone(log[k], id)
  }

  /** How many releases have been issued at each point, and what is known at the end. */
  predicate Ledger(t: Rpc, log: Log) {
    match t.phase
    case Locking(_, _) => Releases(log) == 0 && FirstSight(log).None? && !SawGone(log, MainKey(t.req))
    case Running(b) =>
      && b.Dv?
      && Releases(log) == (if b.dvAt.DvFind? || b.dvAt.DvRelease? then b.dvAt.times - 1 else b.dvAt.times)
      && (FirstSight(log).None? <==> b.dvAt == DvFind(1))
      && !SawGone(log, b.id)
      && (RecycledAtFirst(log) ==> b.dvAt.times == 1 && !b.dvAt.DvFind? && !b.dvAt.DvWaitReleased?
                                   && (b.dvAt.DvRelease? ==> b.dvAt.last))
    case _ =>
      var o := t.phase.outcome;
      && Releases(log) <= MAX_RELEASE_DISK_TIMES
      && (o == Ok(Done) <==> SawGone(log, MainKey(t.req)))
      && (o == Err(Aborted) <==> FirstSight(log).None?)
      && (o == Ok(Done) || o == StillExists || o == Err(Aborted) || o == Err(Internal))
      && (o == StillExists ==> Releases(log) == MAX_RELEASE_DISK_TIMES)
      && (RecycledAtFirst(log) ==> Releases(log) == 1 && o != StillExists)
  }

  lemma LedgerStep(t: Rpc, log: Log, e: Exchange)
    requires t.req.DeleteVolume? && WellFormedRpc(t) && Active(t) && Ledger(t, log) && e.action == NextAction(t)
    ensures Ledger(Resume(t, e.reply), log + [e])
  {
    var log' := log + [e];
    assert log'[..|log'| - 1] == log;
    if t.phase.Running? {
      var b := t.phase.body;
      assert TellsGone(e, b.id) ==> TellsGone(log'[|log|], b.id);
      match b.dvAt
      case DvFind(times) => {}
      case DvRelease(times, last) => {}
      case DvWaitGone(times, _) => {}
      case DvWaitReleased(times, _) => {}
    } else {
      assert forall k :: 0 <= k < |log| ==> log'[k] == log[k];
    }
  }

  lemma {:induction false} LedgerHolds(req: Request, log: Log)
    requires req.DeleteVolume? && Precheck(req).None? && Follows(Start(req), log)
    ensures Ledger(After(Start(req), log), log)
  {
    if log != [] {
      var before := log[..|log| - 1];
      LedgerHolds(req, before);
      StartIsWellFormed(req);
      AfterIsWellFormed(Start(req), before);
      LedgerStep(After(Start(req), before), before, log[|log| - 1]);
      assert before + [log[|log| - 1]] == log;
    }
  }

  // ---------------------------------------------------------------- how often it waits

  /** The RPC has just entered a wait. */
  predicate EntersWait(t: Rpc) {
    t.phase.Running? && t.phase.body.Dv? && IsFreshWait(t.phase.body.dvAt)
  }

  predicate IsFreshWait(at: DvAt) {
    (at.DvWaitGone? || at.DvWaitReleased?) && !at.polled
  }

  /** How many waits a delete has entered in a conversation. */
  ghost function WaitsEntered(req: Request, log: Log): nat {
    if log == [] then 0
    else WaitsEntered(req, log[..|log| - 1]) + if EntersWait(After(Start(req), log)) then 1 else 0
  }

  predicate WaitLedger(t: Rpc, waits: nat) {
    match t.phase
    case Locking(_, _) => waits == 0
    case Running(b) => b.Dv? && waits == WaitsAt(b.dvAt)
    case _ => waits <= MAX_RELEASE_DISK_TIMES
  }

  /** How many waits a delete has entered when it stands at a point. */
  function WaitsAt(at: DvAt): int {
    if at.DvFind? || at.DvRelease? then at.times - 1 else at.times
  }

  lemma DvEntersWaits(id: Id, at: DvAt, r: Reply)
    requires 1 <= at.times <= MAX_RELEASE_DISK_TIMES && AdvanceDv(id, at, r).Goto?
    ensures var b := AdvanceDv(id, at, r).body;
      && b.Dv? && WaitsAt(b.dvAt) == WaitsAt(at) + if IsFreshWait(b.dvAt) then 1 else 0
  {
    match at
    case DvFind(_) => {}
    case DvRelease(_, _) => {}
    case DvWaitGone(_, _) => {}
    case DvWaitReleased(_, _) => {}
  }

  lemma WaitLedgerStep(t: Rpc, waits: nat, r: Reply)
    requires t.req.DeleteVolume? && WellFormedRpc(t) && Active(t) && WaitLedger(t, waits)
    ensures WaitLedger(Resume(t, r), waits + if EntersWait(Resume(t, r)) then 1 else 0)
  {
    if t.phase.Running? {
      var b := t.phase.body;
      DvGood(b.id, b.dvAt, t.req, r);
      if AdvanceDv(b.id, b.dvAt, r).Goto? {
        DvEntersWaits(b.id, b.dvAt, r);
      }
    }
  }

  lemma {:induction false} WaitLedgerHolds(req: Request, log: Log)
    requires req.DeleteVolume? && Precheck(req).None? && Follows(Start(req), log)
    ensures WaitLedger(After(Start(req), log), WaitsEntered(req, log))
  {
    if log != [] {
      var before := log[..|log| - 1];
      WaitLedgerHolds(req, before);
      StartIsWellFormed(req);
      AfterIsWellFormed(Start(req), before);
      WaitLedgerStep(After(Start(req), before), WaitsEntered(req, before), log[|log| - 1].reply);
    }
  }

  /**
   Whatever the cloud answers: a DeleteVolume issues at most two releases and waits at most
   twice; it reports success if and only if the disk was seen gone or the cloud answered
   not-found; and one that starts from the recycle bin issues exactly one release.
   */
  lemma DeleteMeaning(req: Request, log: Log)
    requires req.DeleteVolume? && Precheck(req).None? && Follows(Start(req), log)
    requires After(Start(req), log).phase.Finished?
    ensures var o := After(Start(req), log).phase.outcome;
      && Releases(log) <= 2 && WaitsEntered(req, log) <= 2
      && (o == Ok(Done) <==> SawGone(log, MainKey(req)))
      && (o == Err(Aborted) <==> FirstSight(log).None?)
      && (o == Ok(Done) || o == StillExists || o == Err(Aborted) || o == Err(Internal))
      && (RecycledAtFirst(log) ==> Releases(log) == 1 && o != StillExists)
  {
    LedgerHolds(req, log);
    WaitLedgerHolds(req, log);
    StartIsWellFormed(req);
    AfterIsWellFormed(Start(req), log);
  }

  // ---------------------------------------------------------------- over whole runs

  /** The same for every delete of every run, whatever else is going on. */
  lemma DeletesInRuns(ss: seq<State>, ls: seq<Label>, n: nat, i: nat)
    requires IsRun(ss, ls) && n < |ss| && i in ss[n].rpcs
    requires ss[n].rpcs[i].req.DeleteVolume? && Precheck(ss[n].rpcs[i].req).None? && ss[n].rpcs[i].phase.Finished?
    ensures var o, log := ss[n].rpcs[i].phase.outcome, History(ss, ls, n, i);
      && Releases(log) <= 2 && WaitsEntered(ss[n].rpcs[i].req, log) <= 2
      && (o == Ok(Done) <==> SawGone(log, MainKey(ss[n].rpcs[i].req)))
      && (RecycledAtFirst(log) ==> Releases(log) == 1 && o != StillExists)
  {
    RunsAreConversations(ss, ls, n, i);
    DeleteMeaning(ss[n].rpcs[i].req, History(ss, ls, n, i));
  }

  /** The RPC is a delete of the disk in its second round. */
  predicate InSecondRound(t: Rpc, id: Id) {
    t.phase.Running? && t.phase.body.Dv? && t.phase.body.id == id && t.phase.body.dvAt.times == 2
  }

  /** Nobody restores a recycled disk while a delete of it is in its second round. */
  ghost predicate NoRestore(s: State, l: Label) {
    l.Env? && l.ev.Update? && l.ev.id in s.cloud.disks && s.cloud.disks[l.ev.id].status == Recycled && l.ev.status != Recycled ==>
      forall i :: i in s.rpcs ==> !InSecondRound(s.rpcs[i], l.ev.id)
  }

  /** In its second round a delete finds its disk in the bin or gone. */
  predicate SecondRoundOk(c: Cloud, b: Body) {
    b.Dv? && b.dvAt.times == 2 ==>
      && b.id in c.births
      && (b.id in c.disks ==> c.disks[b.id].status == Recycled)
      && !b.dvAt.DvWaitReleased? && (b.dvAt.DvRelease? ==> b.dvAt.last)
  }

  predicate NeverStuck(c: Cloud, t: Rpc) {
    match t.phase
    case Running(b) => SecondRoundOk(c, b)
    case Locking(_, _) => true
    case _ => t.phase.outcome != StillExists
  }

  ghost predicate DeletesStand(s: State) {
    forall i :: i in s.rpcs ==> NeverStuck(s.cloud, s.rpcs[i])
  }

  lemma DvNeverStuck(c: Cloud, id: Id, at: DvAt, r: Reply, e: Effect)
    requires CloudOk(c) && 1 <= at.times <= 2 && SecondRoundOk(c, Dv(id, at))
    requires Answers(c, CallOf(Dv(id, at)), r, e) || r == TimerFired
    ensures match AdvanceDv(id, at, r)
      case Goto(b) => SecondRoundOk(c, b)
      case Lock(_, _) => false
      case Return(o) => o != StillExists
  {
  }

  lemma OwnStepNeverStuck(s: State, i: nat, r: Reply, e: Effect)
    requires Inv(s) && DeletesStand(s) && CanDrive(s, i, r, e)
    ensures NeverStuck(s.cloud, Resume(s.rpcs[i], r))
  {
    var t := s.rpcs[i];
    assert NeverStuck(s.cloud, t);
    if t.phase.Running? {
      AdvanceIsGood(t.phase.body, t.req, r);
      if t.phase.body.Dv? {
        DvNeverStuck(s.cloud, t.phase.body.id, t.phase.body.dvAt, r, e);
      } else {
        OthersReportNoStuck(t.phase.body, r);
      }
    }
  }

  /** Only a delete can report that the disk still exists. */
  lemma OthersReportNoStuck(b: Body, r: Reply)
    requires !b.Dv?
    ensures Advance(b, r) != Return(StillExists)
  {
    match b
    case Cv(_, _) => {}
    case Pb(_, _, _) => {}
    case Up(_, _, _) => {}
    case Ex(_, _, _, _) => {}
    case Cs(_, _, _, _) => {}
    case Ds(_, _) => {}
  }

  /** Disks whose delete is in its second round have at most gone away, and stay recycled if they were. */
  ghost predicate BinKept(s: State, c': Cloud) {
    forall i, id :: i in s.rpcs && InSecondRound(s.rpcs[i], id) && id in s.cloud.births ==>
      && id in c'.births
      && (id in c'.disks ==> id in s.cloud.disks && (s.cloud.disks[id].status == Recycled ==> c'.disks[id].status == Recycled))
  }

  lemma EventKeepsBin(s: State, ev: Event)
    requires CloudOk(s.cloud) && Possible(s.cloud, ev) && NoRestore(s, Env(ev))
    ensures BinKept(s, AfterEvent(s.cloud, ev))
  {
  }

  lemma StepKeepsBin(s: State, l: Label)
    requires Inv(s) && Enabled(s, l) && NoRestore(s, l)
    ensures BinKept(s, Apply(s, l).cloud)
  {
    match l
    case Spawn(_, _) => {}
    case Drive(i, r, e) => DriveTouchesLittle(s, i, r, e);
    case Env(ev) => EventKeepsBin(s, ev);
  }

  /** An RPC that has not moved stays unstuck when the bin is kept. */
  lemma OthersNeverStuck(s: State, c': Cloud, i: nat)
    requires DeletesStand(s) && BinKept(s, c') && i in s.rpcs
    ensures NeverStuck(c', s.rpcs[i])
  {
    assert NeverStuck(s.cloud, s.rpcs[i]);
    if s.rpcs[i].phase.Running? && s.rpcs[i].phase.body.Dv? && s.rpcs[i].phase.body.dvAt.times == 2 {
      assert InSecondRound(s.rpcs[i], s.rpcs[i].phase.body.id);
    }
  }

  lemma StepKeepsDeletes(s: State, l: Label)
    requires Inv(s) && DeletesStand(s) && Enabled(s, l) && NoRestore(s, l)
    ensures DeletesStand(Apply(s, l))
  {
    StepKeepsBin(s, l);
    var s' := Apply(s, l);
    forall i | i in s'.rpcs ensures NeverStuck(s'.cloud, s'.rpcs[i]) {
      match MoveOf(l, i)
      case Began => {
        assert s'.rpcs[i] == Start(l.req);
      }
      case Stayed => OthersNeverStuck(s, s'.cloud, i);
      case Moved => {
        OwnStepNeverStuck(s, i, l.reply, l.effect);
        MovedNeverStuck(s, i, l.reply, l.effect);
      }
    }
  }

  /** A delete creates nothing, so what holds of its disk before its step holds after it. */
  lemma MovedNeverStuck(s: State, i: nat, r: Reply, e: Effect)
    requires Inv(s) && CanDrive(s, i, r, e) && NeverStuck(s.cloud, Resume(s.rpcs[i], r))
    ensures NeverStuck(Apply(s, Drive(i, r, e)).cloud, Resume(s.rpcs[i], r))
  {
    DriveTouchesLittle(s, i, r, e);
  }

  /**
   Unless a disk is restored from the recycle bin in the second round of its delete, no run reaches the "still exists" exit: not even
   for a delete that resumes what an earlier, failed one left behind.
   */
  lemma {:induction false} NeverStillExists(ss: seq<State>, ls: seq<Label>, n: nat)
    requires IsRun(ss, ls) && n < |ss|
    requires forall k :: 0 <= k < |ls| ==> NoRestore(ss[k], ls[k])
    ensures DeletesStand(ss[n])
    ensures forall i :: i in ss[n].rpcs && ss[n].rpcs[i].phase.Finished? ==> ss[n].rpcs[i].phase.outcome != StillExists
  {
    if n > 0 {
      NeverStillExists(ss, ls, n - 1);
      LocksAreOwned(ss, ls, n - 1);
      assert StepsTo(ss, ls, n - 1);
      StepKeepsDeletes(ss[n - 1], ls[n - 1]);
    }
    forall i | i in ss[n].rpcs && ss[n].rpcs[i].phase.Finished? ensures ss[n].rpcs[i].phase.outcome != StillExists {
      assert NeverStuck(ss[n].cloud, ss[n].rpcs[i]);
    }
  }
}
