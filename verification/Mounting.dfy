/** What is mounted at a path, and how, over whole runs. */
module Mounting {
  import opened Wrappers
  import opened Locks
  import opened NodeProgram
  import opened NodeSystem
  import opened NodeMeanings
  import opened MountTables

  function EntryOf(a: Action): MountEntry
    requires a.Mount?
  {
    MountEntry(a.source, a.fsType, a.options)
  }

  /** Step `k` is one of RPC `i`. */
  ghost predicate OwnStep(ss: seq<State>, ls: seq<Label>, k: nat, i: nat)
    requires |ss| == |ls| + 1
  {
    k < |ls| && ls[k].Drive? && ls[k].i == i && i in ss[k].rpcs && Active(ss[k].rpcs[i])
  }

  /** In step `k` RPC `i` mounts. */
  ghost predicate MountsAt(ss: seq<State>, ls: seq<Label>, k: nat, i: nat)
    requires |ss| == |ls| + 1
  {
    OwnStep(ss, ls, k, i) && NextAction(ss[k].rpcs[i]).Mount? && ls[k].reply == Succeeded
  }

  // ---------------------------------------------------------------- what was mounted stays mounted

  /** The RPC has mounted, or is on its way out. */
  predicate PastMount(t: Rpc) {
    t.phase.Unwinding? || (t.phase.Running? && (t.phase.at.StNeedResize? || t.phase.at.StResize?))
  }

  lemma MountIsMade(t: Rpc, n: Node, r: Reply, n': Node)
    requires WellFormedRpc(t) && t.phase.Running? && NextAction(t).Mount? && r == Succeeded
    requires Answers(n, NextAction(t), r, n') && SeesUnmounted(n.mounts, t)
    ensures PastMount(Resume(t, r))
    ensures t.req.path in n'.mounts && n'.mounts[t.req.path] == [EntryOf(NextAction(t))]
  {
    ActsOnItsPath(t);
  }

  lemma PastMountChangesNothing(t: Rpc, n: Node, r: Reply, n': Node)
    requires WellFormedRpc(t) && t.phase.Running? && PastMount(t) && Answers(n, NextAction(t), r, n')
    ensures n' == n && (Resume(t, r).held != [] ==> PastMount(Resume(t, r)))
  {
  }

  lemma StaysPastMount(owner: Path -> Key, ss: seq<State>, ls: seq<Label>, n: nat, i: nat)
    requires KnownRun(owner, ss, ls) && n < |ls| && i in ss[n].rpcs && i in ss[n + 1].rpcs
    requires ss[n].rpcs[i].held != [] && PastMount(ss[n].rpcs[i]) && ss[n + 1].rpcs[i].held != []
    ensures PastMount(ss[n + 1].rpcs[i]) && SameAt(ss[n].node.mounts, ss[n + 1].node.mounts, ss[n].rpcs[i].req.path)
  {
    LocksAreOwned(ss, ls, n);
    assert StepsTo(ss, ls, n) && OnlyDriverMounts(owner, ss[n], ls[n]) && KnownIds(owner, ss[n]);
    if ls[n].Drive? && ls[n].i == i {
      if ss[n].rpcs[i].phase.Running? {
        PastMountChangesNothing(ss[n].rpcs[i], ss[n].node, ls[n].reply, ls[n].node);
      }
    } else {
      PathUndisturbed(owner, ss[n], ls[n], i);
    }
  }

  /** What an RPC has mounted is all there is at its path, for as long as it holds its lock. */
  lemma {:induction false} MountStands(owner: Path -> Key, ss: seq<State>, ls: seq<Label>, k: nat, n: nat, i: nat, req: NodeRequest)
    requires KnownRun(owner, ss, ls) && k < n < |ss| && MountsAt(ss, ls, k, i) && HoldsItsLock(ss, k, n, i, req)
    ensures PastMount(ss[n].rpcs[i])
    ensures req.path in ss[n].node.mounts && ss[n].node.mounts[req.path] == [EntryOf(NextAction(ss[k].rpcs[i]))]
    decreases n
  {
    if n == k + 1 {
      AtMostOneMount(owner, ss, ls, k);
      assert StepsTo(ss, ls, k) && SeesUnmounted(ss[k].node.mounts, ss[k].rpcs[i]);
      MountIsMade(ss[k].rpcs[i], ss[k].node, ls[k].reply, ls[k].node);
    } else {
      MountStands(owner, ss, ls, k, n - 1, i, req);
      StaysPastMount(owner, ss, ls, n - 1, i);
    }
  }

  // ---------------------------------------------------------------- where its source comes from

  /** The device an RPC has found. */
  function FoundDevice(t: Rpc): Option<Path> {
    if !t.phase.Running? then None else
    match t.phase.at
    case StFs(job, _) => Some(job.source)
    case StNeedResize(dev) => Some(dev)
    case StResize(dev) => Some(dev)
    case PuEnsure(source) => if OnDevice(t.req) then Some(source) else None
    case PuCheck(source) => if OnDevice(t.req) then Some(source) else None
    case PuMount(source) => if OnDevice(t.req) then Some(source) else None
    case _ => None
  }

  /** The request mounts or binds a device. */
  predicate OnDevice(req: NodeRequest) {
    req.Stage? || (req.Publish? && req.capability.BlockAccess?)
  }

  lemma FoundOrKept(t: Rpc, r: Reply)
    requires WellFormedRpc(t) && Active(t) && FoundDevice(Resume(t, r)).Some?
    ensures t.phase.Running?
    ensures FoundDevice(t) == FoundDevice(Resume(t, r))
      || (NextAction(t) == FindDevice(SerialOf(t.req)) && r == Device(FoundDevice(Resume(t, r)).value))
  {
    if t.phase.Running? && t.phase.at.StFs? {
      assert FoundDevice(t) == Some(t.phase.at.job.source);
    }
  }

  /** In step `m` RPC `i` was answered with the one device that has its volume's serial. */
  ghost predicate FindsAt(ss: seq<State>, ls: seq<Label>, m: nat, i: nat, dev: Path)
    requires |ss| == |ls| + 1
  {
    OwnStep(ss, ls, m, i) && ls[m].reply == Device(dev) && OnlyWithSerial(ss[m].node, dev, SerialOf(ss[m].rpcs[i].req))
  }

  lemma {:induction false} DeviceWasFound(ss: seq<State>, ls: seq<Label>, n: nat, i: nat) returns (m: nat)
    requires IsRun(ss, ls) && n < |ss| && i in ss[n].rpcs && FoundDevice(ss[n].rpcs[i]).Some?
    ensures m < n && FindsAt(ss, ls, m, i, FoundDevice(ss[n].rpcs[i]).value) && ss[m].rpcs[i].req == ss[n].rpcs[i].req
    decreases n
  {
    assert n > 0;
    LocksAreOwned(ss, ls, n - 1);
    assert StepsTo(ss, ls, n - 1);
    var s, l := ss[n - 1], ls[n - 1];
    if l.Drive? && l.i == i {
      ResumeIsWellFormed(s.rpcs[i], l.reply);
      FoundOrKept(s.rpcs[i], l.reply);
    }
    if i in s.rpcs && FoundDevice(s.rpcs[i]) == FoundDevice(ss[n].rpcs[i]) && s.rpcs[i].req == ss[n].rpcs[i].req {
      m := DeviceWasFound(ss, ls, n - 1, i);
    } else {
      m := n - 1;
    }
  }

  lemma MountsWhatItFound(t: Rpc)
    requires WellFormedRpc(t) && Active(t) && NextAction(t).Mount?
    ensures if OnDevice(t.req) then FoundDevice(t) == Some(NextAction(t).source)
            else t.req.Publish? && NextAction(t).source == t.req.staging
  {
  }

  // ---------------------------------------------------------------- the theorems

  /** The mount is of the file system type asked for, with the options asked for, and unless a device is mounted, from the staging path. */
  ghost predicate EntryAsAsked(req: NodeRequest, e: MountEntry) {
    && !Undoes(req) && e.fsType == FsTypeOf(req.capability)
    && (if req.Publish? then BindsAsAsked(req, e.options) else MountsAsAsked(req, e.options))
    && (!OnDevice(req) ==> req.Publish? && e.source == req.staging)
  }

  lemma MountsAsItShould(s: State, i: nat)
    requires Inv(s) && i in s.rpcs && Active(s.rpcs[i]) && NextAction(s.rpcs[i]).Mount?
    ensures EntryAsAsked(s.rpcs[i].req, EntryOf(NextAction(s.rpcs[i])))
  {
    ActionIsOwn(s.rpcs[i]);
    MountsWhatItFound(s.rpcs[i]);
  }

  /** The one mount at the path is as asked for, and a mounted device is the one that was found by the volume's serial. */
  ghost predicate HoldsWhatWasAsked(ss: seq<State>, ls: seq<Label>, k: nat, n: nat, i: nat, req: NodeRequest)
    requires |ss| == |ls| + 1 && k <= n < |ss|
  {
    && req.path in ss[n].node.mounts && |ss[n].node.mounts[req.path]| == 1
    && var e := ss[n].node.mounts[req.path][0];
       EntryAsAsked(req, e) && (OnDevice(req) ==> exists m: nat :: m < k && FindsAt(ss, ls, m, i, e.source))
  }

  /**
   From the step in which a stage or publish mounts, until it gives its lock back, its path
   carries exactly what the request asks for, whatever else is in flight.
   */
  lemma MountedAsAsked(owner: Path -> Key, ss: seq<State>, ls: seq<Label>, k: nat, n: nat, i: nat, req: NodeRequest)
    requires KnownRun(owner, ss, ls) && k < n < |ss| && MountsAt(ss, ls, k, i) && HoldsItsLock(ss, k, n, i, req)
    ensures HoldsWhatWasAsked(ss, ls, k, n, i, req)
  {
    MountStands(owner, ss, ls, k, n, i, req);
    LocksAreOwned(ss, ls, k);
    MountsAsItShould(ss[k], i);
    if OnDevice(req) {
      MountsWhatItFound(ss[k].rpcs[i]);
      var m := DeviceWasFound(ss, ls, k, i);
    }
  }

  /** Step `k` showed RPC `i` that its path was mounted already. */
  ghost predicate ShownMountedAt(ss: seq<State>, ls: seq<Label>, k: nat, i: nat)
    requires |ss| == |ls| + 1
  {
    OwnStep(ss, ls, k, i) && NextAction(ss[k].rpcs[i]).CheckMount? && ls[k].reply == Mounted
  }

  lemma OkBeforeOrNow(s: State, l: Label, i: nat)
    requires Inv(s) && Enabled(s, l) && i in Apply(s, l).rpcs && HasMounted(Apply(s, l).rpcs[i])
    ensures i in s.rpcs && s.rpcs[i].req == Apply(s, l).rpcs[i].req && s.rpcs[i].held != []
    ensures HasMounted(s.rpcs[i])
      || (l.Drive? && l.i == i && ((NextAction(s.rpcs[i]).CheckMount? && l.reply == Mounted)
                                   || (NextAction(s.rpcs[i]).Mount? && l.reply == Succeeded)))
  {
    if l.Spawn? && l.i == i {
      StartIsWellFormed(l.req);
    }
    if l.Drive? && l.i == i {
      ResumeIsWellFormed(s.rpcs[i], l.reply);
      if s.rpcs[i].phase.Running? {
        ComesToReportMounted(s.rpcs[i], l.reply);
      }
    }
  }

  lemma MountedJustNow(ss: seq<State>, ls: seq<Label>, n: nat, i: nat)
    requires IsRun(ss, ls) && n < |ss| && i in ss[n].rpcs && HasMounted(ss[n].rpcs[i])
    ensures n > 0 && HoldsItsLock(ss, n - 1, n, i, ss[n].rpcs[i].req)
    ensures HasMounted(ss[n - 1].rpcs[i]) || MountsAt(ss, ls, n - 1, i) || ShownMountedAt(ss, ls, n - 1, i)
  {
    assert n > 0;
    LocksAreOwned(ss, ls, n - 1);
    assert StepsTo(ss, ls, n - 1);
    StepKeepsInv(ss[n - 1], ls[n - 1]);
    OkBeforeOrNow(ss[n - 1], ls[n - 1], i);
    assert WellFormedRpc(ss[n].rpcs[i]);
  }

  /** Where a stage or publish on its way to OK has mounted, or was shown that it need not. */
  lemma {:induction false} MountedOrShown(ss: seq<State>, ls: seq<Label>, n: nat, i: nat) returns (k: nat)
    requires IsRun(ss, ls) && n < |ss| && i in ss[n].rpcs && HasMounted(ss[n].rpcs[i])
    ensures k < n && HoldsItsLock(ss, k, n, i, ss[n].rpcs[i].req)
    ensures MountsAt(ss, ls, k, i) || ShownMountedAt(ss, ls, k, i)
    decreases n
  {
    MountedJustNow(ss, ls, n, i);
    if HasMounted(ss[n - 1].rpcs[i]) {
      k := MountedOrShown(ss, ls, n - 1, i);
    } else {
      k := n - 1;
    }
  }

  /**
   While a stage or publish is answering OK, its path carries exactly one mount. Either it
   has made that itself, and then it is what the request asks for: its source, file system
   type and options, among them `bind` for a publish, and `ro` exactly when asked for. Or
   it was shown that its path was mounted already.
   */
  lemma OkMeansMountedAsAsked(owner: Path -> Key, ss: seq<State>, ls: seq<Label>, n: nat, i: nat) returns (k: nat)
    requires KnownRun(owner, ss, ls) && n < |ss| && i in ss[n].rpcs
    requires !Undoes(ss[n].rpcs[i].req) && ss[n].rpcs[i].phase == Unwinding(Ok)
    ensures var req := ss[n].rpcs[i].req;
      && k < n && req.path in ss[n].node.mounts && |ss[n].node.mounts[req.path]| == 1
      && ((MountsAt(ss, ls, k, i) && HoldsWhatWasAsked(ss, ls, k, n, i, req)) || ShownMountedAt(ss, ls, k, i))
  {
    k := MountedOrShown(ss, ls, n, i);
    OkMeansDone(owner, ss, ls, n);
    if MountsAt(ss, ls, k, i) {
      MountedAsAsked(owner, ss, ls, k, n, i, ss[n].rpcs[i].req);
    }
  }

  // ---------------------------------------------------------------- whoever mounted it

  /** A step adds no mount to a path, or it is a mount by an RPC for that path. */
  lemma AddedByMount(s: State, l: Label, p: Path, e: MountEntry)
    requires Inv(s) && Enabled(s, l) && (l.Outside? ==> l.node.mounts == s.node.mounts)
    requires p in Apply(s, l).node.mounts && e in Apply(s, l).node.mounts[p]
    ensures (p in s.node.mounts && e in s.node.mounts[p])
      || (l.Drive? && NextAction(s.rpcs[l.i]).Mount? && l.reply == Succeeded
          && s.rpcs[l.i].req.path == p && e == EntryOf(NextAction(s.rpcs[l.i])))
  {
    if l.Drive? {
      ActsOnItsPath(s.rpcs[l.i]);
      ActionAdds(s.node, NextAction(s.rpcs[l.i]), l.reply, l.node, p, e);
    }
  }

  lemma ActionAdds(n: Node, a: Action, r: Reply, n': Node, p: Path, e: MountEntry)
    requires Answers(n, a, r, n') || n' == n
    requires p in n'.mounts && e in n'.mounts[p]
    ensures (p in n.mounts && e in n.mounts[p]) || (a.Mount? && a.path == p && r == Succeeded && e == EntryOf(a))
  {
  }

  /**
   Whatever is mounted at a path was there when the run began, or was mounted there by a
   stage or publish of the volume that the path is used for, as that request asks for.
   */
  lemma {:induction false} MountedBySomeone(owner: Path -> Key, ss: seq<State>, ls: seq<Label>, n: nat, p: Path, e: MountEntry)
    requires KnownRun(owner, ss, ls) && n < |ss| && p in ss[n].node.mounts && e in ss[n].node.mounts[p]
    ensures (p in ss[0].node.mounts && e in ss[0].node.mounts[p]) || exists k: nat, i: nat :: k < n && MadeAt(owner, ss, ls, k, i, p, e)
  {
    if n > 0 {
      LocksAreOwned(ss, ls, n - 1);
      assert StepsTo(ss, ls, n - 1) && OnlyDriverMounts(owner, ss[n - 1], ls[n - 1]) && KnownIds(owner, ss[n - 1]);
      AddedByMount(ss[n - 1], ls[n - 1], p, e);
      if p in ss[n - 1].node.mounts && e in ss[n - 1].node.mounts[p] {
        MountedBySomeone(owner, ss, ls, n - 1, p, e);
      } else {
        MountsAsItShould(ss[n - 1], ls[n - 1].i);
        assert MadeAt(owner, ss, ls, n - 1, ls[n - 1].i, p, e);
      }
    }
  }

  /** In step `k` RPC `i`, for the volume that the path is used for, mounts `e` there as it was asked to. */
  ghost predicate MadeAt(owner: Path -> Key, ss: seq<State>, ls: seq<Label>, k: nat, i: nat, p: Path, e: MountEntry)
    requires |ss| == |ls| + 1
  {
    && MountsAt(ss, ls, k, i) && e == EntryOf(NextAction(ss[k].rpcs[i]))
    && ss[k].rpcs[i].req.path == p && KeyOf(ss[k].rpcs[i].req) == owner(p) && EntryAsAsked(ss[k].rpcs[i].req, e)
  }
}
