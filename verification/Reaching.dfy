/** Building runs one step at a time, to show that a state can be reached. */
module Reaching {
  import opened CloudTypes
  import opened Locks
  import opened ControllerProgram
  import opened ControllerSystem
  import opened Attachments
  import opened Expansion
  import opened DiskUniqueness
  import opened Snapshots

  /**
   Where the runs begin, whether each request finishes before the next one begins, how many
   entries a listing of disks may count, and what operations in flight keep to.
   */
  datatype Scene = Scene(start: State, oneAtATime: bool, maxCount: nat, rules: Rules)

  ghost predicate AtMostOneInFlight(s: State) {
    forall i, j :: i in s.rpcs && j in s.rpcs && !s.rpcs[i].phase.Finished? && !s.rpcs[j].phase.Finished? ==> i == j
  }

  ghost predicate OthersFinished(g: Scene, s: State, i: nat) {
    g.oneAtATime ==> forall j :: j in s.rpcs && j != i ==> s.rpcs[j].phase.Finished?
  }

  /** Only the driver attaches, resizes, creates disks and takes snapshots. */
  ghost predicate OnlyDriver(s: State, l: Label) {
    OnlyDriverAttaches(l) && OnlyDriverSnapshots(l) && OnlyDriverCreates(s, l, {Recycled})
  }

  predicate CountsAtMost(l: Label, maxCount: nat) {
    l.Drive? && l.reply.DiskPage? ==> l.reply.total <= maxCount
  }

  /** Some such run ends in this state. */
  ghost predicate Reachable(g: Scene, s: State) {
    exists ss: seq<State>, ls: seq<Label> :: LeadsTo(g, ss, ls, s)
  }

  ghost predicate LeadsTo(g: Scene, ss: seq<State>, ls: seq<Label>, s: State) {
    && IsRun(ss, ls) && ss[0] == g.start && ss[|ls|] == s
    && (forall k :: 0 <= k < |ls| ==> OnlyDriver(ss[k], ls[k]) && CountsAtMost(ls[k], g.maxCount) && Obeys(g.rules, ss[k], ls[k]))
    && (g.oneAtATime ==> forall k :: 0 <= k < |ls| ==> AtMostOneInFlight(ss[k]))
  }

  lemma ReachStart(g: Scene)
    requires Initial(g.start)
    ensures Reachable(g, g.start)
  {
    assert LeadsTo(g, [g.start], [], g.start);
  }

  lemma ReachStep(g: Scene, s: State, l: Label, s': State)
    requires Reachable(g, s) && Enabled(s, l) && OnlyDriver(s, l) && s' == Apply(s, l)
    requires CountsAtMost(l, g.maxCount) && Obeys(g.rules, s, l) && (g.oneAtATime ==> AtMostOneInFlight(s))
    ensures Reachable(g, s')
  {
    var ss, ls :| LeadsTo(g, ss, ls, s);
    var ss', ls' := ss + [s'], ls + [l];
    forall k | 0 <= k < |ls'|
      ensures StepsTo(ss', ls', k) && OnlyDriver(ss'[k], ls'[k]) && CountsAtMost(ls'[k], g.maxCount)
      ensures Obeys(g.rules, ss'[k], ls'[k]) && (g.oneAtATime ==> AtMostOneInFlight(ss'[k]))
    {
      if k < |ls| {
        assert StepsTo(ss, ls, k);
      }
    }
    assert LeadsTo(g, ss', ls', s');
  }

  /** The state with RPC `i` at `t`, holding `locks`, before a cloud `c`. */
  function With(s: State, i: nat, t: Rpc, locks: set<Key>, c: Cloud): State {
    State(locks, s.rpcs[i := t], c)
  }

  lemma ReachDrive(g: Scene, s: State, i: nat, r: Reply, e: Effect, t: Rpc, locks: set<Key>, c: Cloud)
    requires OthersFinished(g, s, i)
    requires Reachable(g, s) && CanDrive(s, i, r, e) && CountsAtMost(Drive(i, r, e), g.maxCount)
    requires g.rules.shown ==> PollsShow(s, Drive(i, r, e))
    requires g.rules.detachShown ==> DetachShows(s, Drive(i, r, e))
    requires Resume(s.rpcs[i], r) == t && LocksAfter(s.locks, NextAction(s.rpcs[i]), r) == locks
    requires c == if NextAction(s.rpcs[i]).Ask? then AfterCall(s.cloud, i, NextAction(s.rpcs[i]).call, e) else s.cloud
    ensures Reachable(g, With(s, i, t, locks, c))
  {
    ReachStep(g, s, Drive(i, r, e), With(s, i, t, locks, c));
  }

  // ---------------------------------------------------------------- entering an RPC

  /** An RPC that can lock its main key gets to its first program point. */
  lemma ReachFirstPoint(g: Scene, s: State, i: nat, req: Request, b: Body)
    requires OthersFinished(g, s, i)
    requires Reachable(g, s) && i !in s.rpcs && MainKey(req) !in s.locks
    requires Precheck(req).None? && AfterMainLock(req) == Goto(b)
    ensures Reachable(g, With(s, i, Rpc(req, Running(b), [MainKey(req)]), s.locks + {MainKey(req)}, s.cloud))
  {
    var s1 := s.(rpcs := s.rpcs[i := Start(req)]);
    ReachStep(g, s, Spawn(i, req), s1);
    var t := Rpc(req, Running(b), [MainKey(req)]);
    ReachDrive(g, s1, i, Granted, NoEffect, t, s.locks + {MainKey(req)}, s.cloud);
    assert s1.rpcs[i := t] == s.rpcs[i := t];
  }

  /** A query about a disk there is may be answered with its description. */
  lemma ReachDescribed(g: Scene, s: State, i: nat, id: Id, t: Rpc)
    requires OthersFinished(g, s, i)
    requires Reachable(g, s) && i in s.rpcs && s.rpcs[i].phase.Running?
    requires CallOf(s.rpcs[i].phase.body) == DescribeDisk(id) && id in s.cloud.disks
    requires g.rules.shown ==> PollsShow(s, Drive(i, Disks([s.cloud.disks[id]]), NoEffect))
    requires g.rules.detachShown ==> DetachShows(s, Drive(i, Disks([s.cloud.disks[id]]), NoEffect))
    requires Resume(s.rpcs[i], Disks([s.cloud.disks[id]])) == t
    ensures Reachable(g, With(s, i, t, s.locks, s.cloud))
  {
    ReachDrive(g, s, i, Disks([s.cloud.disks[id]]), NoEffect, t, s.locks, s.cloud);
  }

  /** An RPC holding one key gives it back and finishes. */
  lemma ReachFinished(g: Scene, s: State, i: nat, key: Key, o: Outcome)
    requires OthersFinished(g, s, i)
    requires Reachable(g, s) && i in s.rpcs && s.rpcs[i].phase == Unwinding(o) && s.rpcs[i].defers == [key]
    ensures Reachable(g, With(s, i, Rpc(s.rpcs[i].req, Finished(o), []), s.locks - {key}, s.cloud))
  {
    ReachDrive(g, s, i, Released, NoEffect, Rpc(s.rpcs[i].req, Finished(o), []), s.locks - {key}, s.cloud);
  }

  // ---------------------------------------------------------------- operations in flight

  function WithOp(c: Cloud, ticket: nat, op: Op): Cloud {
    c.(ops := c.ops[ticket := op])
  }

  /** A command that is answered with `r` but takes effect queues its operation. */
  lemma ReachQueued(g: Scene, s: State, i: nat, r: Reply, ticket: nat, t: Rpc, op: Op)
    requires OthersFinished(g, s, i)
    requires Reachable(g, s) && i in s.rpcs && s.rpcs[i].phase.Running? && ticket !in s.cloud.ops
    requires var call := CallOf(s.rpcs[i].phase.body);
      (call.AttachDisk? || call.DetachDisk? || call.ResizeDisk?) && op == OpOf(i, call)
    requires r == ApiError || r == Accepted
    requires Resume(s.rpcs[i], r) == t
    ensures Reachable(g, With(s, i, t, s.locks, WithOp(s.cloud, ticket, op)))
  {
    assert !Waiting(s.rpcs[i]) && !AwaitsDetach(s.rpcs[i]);
    ReachDrive(g, s, i, r, NewOp(ticket), t, s.locks, WithOp(s.cloud, ticket, op));
  }

  lemma ReachLanded(g: Scene, s: State, ticket: nat)
    requires !g.oneAtATime
    requires Reachable(g, s) && ticket in s.cloud.ops
    requires g.rules.inTime ==> IssuerHolds(s, s.cloud.ops[ticket])
    ensures Reachable(g, s.(cloud := AfterEvent(s.cloud, Land(ticket))))
  {
    ReachStep(g, s, Env(Land(ticket)), s.(cloud := AfterEvent(s.cloud, Land(ticket))));
  }

  lemma ReachDropped(g: Scene, s: State, ticket: nat)
    requires !g.oneAtATime && !g.rules.kept
    requires Reachable(g, s) && ticket in s.cloud.ops
    ensures Reachable(g, s.(cloud := AfterEvent(s.cloud, Drop(ticket))))
  {
    ReachStep(g, s, Env(Drop(ticket)), s.(cloud := AfterEvent(s.cloud, Drop(ticket))));
  }
}
