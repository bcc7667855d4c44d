/** Over any run of node RPCs, a device that carries a file system is never formatted. */
module Formatting {
  import opened Wrappers
  import opened Locks
  import opened NodeProgram
  import opened NodeConversations
  import opened NodeSystem

  /** Serials tell disks apart: stages that name the same serial name the same volume. */
  ghost predicate GenuineId(owner: string -> Key, req: NodeRequest) {
    req.Stage? && Precheck(req).None? ==> owner(SerialOf(req)) == KeyOf(req)
  }

  /** The device a stage is preparing, from finding it to having it mounted. */
  function WorkingOn(t: Rpc): Option<Path> {
    if t.phase.Running? && t.phase.at.StFs? then Some(t.phase.at.job.source) else None
  }

  /** While a stage prepares a device, others leave it plugged in and put no file system on it. */
  ghost predicate LeavesAlone(s: State, n': Node) {
    forall i :: i in s.rpcs && WorkingOn(s.rpcs[i]).Some? && WorkingOn(s.rpcs[i]).value in s.node.devices ==>
      var dev := WorkingOn(s.rpcs[i]).value;
      && dev in n'.devices && n'.devices[dev].serial == s.node.devices[dev].serial
      && (HasFileSystem(n'.devices[dev]) ==> HasFileSystem(s.node.devices[dev]))
  }

  ghost predicate Fair(owner: string -> Key, s: State, l: Label) {
    && (l.Outside? ==> LeavesAlone(s, l.node))
    && (l.Spawn? ==> GenuineId(owner, l.req))
  }

  // ---------------------------------------------------------------- the invariant

  /** A device being prepared is the volume's own, and is empty when it is about to be formatted. */
  ghost predicate PreparesWell(n: Node, t: Rpc) {
    WorkingOn(t).Some? ==>
      var dev := WorkingOn(t).value;
      && dev in n.devices && n.devices[dev].serial == Some(SerialOf(t.req))
      && (t.phase.at.fsAt.FsMkfs? ==> !HasFileSystem(n.devices[dev]))
  }

  ghost predicate FormatInv(owner: string -> Key, s: State) {
    forall i :: i in s.rpcs ==> PreparesWell(s.node, s.rpcs[i]) && GenuineId(owner, s.rpcs[i].req)
  }

  /** Two stages never prepare the same device. */
  lemma DifferentDevices(owner: string -> Key, s: State, i: nat, j: nat)
    requires Inv(s) && FormatInv(owner, s) && i in s.rpcs && j in s.rpcs && i != j
    requires WorkingOn(s.rpcs[i]).Some?
    ensures WorkingOn(s.rpcs[i]) != WorkingOn(s.rpcs[j])
  {
    if WorkingOn(s.rpcs[i]) == WorkingOn(s.rpcs[j]) {
      assert PreparesWell(s.node, s.rpcs[i]) && PreparesWell(s.node, s.rpcs[j]);
      DifferentKeys(s, i, j);
    }
  }

  /** The answer that lets a stage format tells that the device holds no file system. */
  lemma EmptyWhenFormatting(n: Node, job: FsJob, at: FsAt, r: Reply, n': Node)
    requires Answers(n, FsActionOf(job, at), r, n') && FsAdvance(job, at, r) == FsGoto(FsMkfs)
    ensures n' == n && job.source in n.devices && !HasFileSystem(n.devices[job.source])
  {
  }

  /** One step of formatting keeps working on the same device. */
  lemma FsActionsKeepDevices(n: Node, job: FsJob, at: FsAt, r: Reply, n': Node)
    requires Answers(n, FsActionOf(job, at), r, n')
    ensures n'.devices.Keys == n.devices.Keys
    ensures forall p :: p in n.devices ==> n'.devices[p].serial == n.devices[p].serial
    ensures !at.FsMkfs? ==> n'.devices == n.devices
  {
  }

  /** Apart from mkfs, no action changes a device. */
  lemma OnlyMkfsWrites(n: Node, a: Action, r: Reply, n': Node)
    requires Answers(n, a, r, n') && !a.Mkfs?
    ensures n'.devices == n.devices
  {
  }

  /** A stage comes to work on a device by finding it, and then stays with it. */
  lemma WorkGoesOn(t: Rpc, r: Reply)
    requires WellFormedRpc(t) && Active(t) && WorkingOn(Resume(t, r)).Some?
    ensures t.phase.Running? && Resume(t, r).req == t.req
    ensures var at' := Resume(t, r).phase.at;
      || (t.phase.at.StFind? && r == Device(at'.job.source) && !at'.fsAt.FsMkfs?)
      || (t.phase.at.StFs? && at'.job == t.phase.at.job && FsAdvance(at'.job, t.phase.at.fsAt, r) == FsGoto(at'.fsAt))
  {
  }

  lemma OwnStepPreparesWell(s: State, i: nat, r: Reply, n': Node)
    requires Inv(s) && CanDrive(s, i, r, n') && PreparesWell(s.node, s.rpcs[i])
    ensures PreparesWell(n', Resume(s.rpcs[i], r))
  {
    var t, t' := s.rpcs[i], Resume(s.rpcs[i], r);
    if WorkingOn(t').Some? {
      WorkGoesOn(t, r);
      if t.phase.at.StFs? {
        FsActionsKeepDevices(s.node, t.phase.at.job, t.phase.at.fsAt, r, n');
        if t'.phase.at.fsAt.FsMkfs? {
          EmptyWhenFormatting(s.node, t.phase.at.job, t.phase.at.fsAt, r, n');
        }
      }
    }
  }

  /** What a driver's step leaves of the devices: at most the one it formats is changed. */
  lemma DriveWritesOnlyItsDevice(s: State, i: nat, r: Reply, n': Node, p: Path)
    requires Inv(s) && CanDrive(s, i, r, n') && p in s.node.devices
    ensures p in n'.devices
    ensures n'.devices[p] == s.node.devices[p] || (WorkingOn(s.rpcs[i]) == Some(p) && NextAction(s.rpcs[i]).Mkfs?)
  {
    var a := NextAction(s.rpcs[i]);
    if a.Mkfs? {
      FormatsOnlyInStage(s.rpcs[i]);
    } else if !a.TryLock? && !a.Unlock? {
      OnlyMkfsWrites(s.node, a, r, n');
    }
  }

  lemma StepKeepsFormatInv(owner: string -> Key, s: State, l: Label)
    requires Inv(s) && FormatInv(owner, s) && Enabled(s, l) && Fair(owner, s, l)
    ensures FormatInv(owner, Apply(s, l))
  {
    var s' := Apply(s, l);
    forall j | j in s'.rpcs ensures PreparesWell(s'.node, s'.rpcs[j]) && GenuineId(owner, s'.rpcs[j].req) {
      match l
      case Spawn(i, req) => {
        if i == j {
          StartIsWellFormed(req);
        } else {
          assert PreparesWell(s.node, s.rpcs[j]);
        }
      }
      case Outside(_) => {
        assert PreparesWell(s.node, s.rpcs[j]);
      }
      case Drive(i, r, n') => {
        if i == j {
          OwnStepPreparesWell(s, i, r, n');
          DriveKeepsRequests(s, i, r, n');
        } else if WorkingOn(s.rpcs[j]).Some? {
          DifferentDevices(owner, s, j, i);
          assert PreparesWell(s.node, s.rpcs[j]);
          DriveWritesOnlyItsDevice(s, i, r, n', WorkingOn(s.rpcs[j]).value);
        }
      }
    }
  }

  ghost predicate FairRun(owner: string -> Key, ss: seq<State>, ls: seq<Label>) {
    IsRun(ss, ls) && forall k :: 0 <= k < |ls| ==> Fair(owner, ss[k], ls[k])
  }

  lemma {:induction false} FormatInvHolds(owner: string -> Key, ss: seq<State>, ls: seq<Label>, n: nat)
    requires FairRun(owner, ss, ls) && n < |ss|
    ensures Inv(ss[n]) && FormatInv(owner, ss[n])
  {
    LocksAreOwned(ss, ls, n);
    if n > 0 {
      FormatInvHolds(owner, ss, ls, n - 1);
      assert StepsTo(ss, ls, n - 1);
      StepKeepsFormatInv(owner, ss[n - 1], ls[n - 1]);
    }
  }

  // ---------------------------------------------------------------- the theorems

  /**
   In every run, whatever interleaves, fails or is retried, mkfs is only ever issued for a
   device that carries no file system at that very moment.
   */
  lemma MkfsOnlyOnEmptyDevices(owner: string -> Key, ss: seq<State>, ls: seq<Label>, n: nat, i: nat)
    requires FairRun(owner, ss, ls) && n < |ss| && i in ss[n].rpcs && Active(ss[n].rpcs[i])
    requires NextAction(ss[n].rpcs[i]).Mkfs?
    ensures var dev := NextAction(ss[n].rpcs[i]).dev;
      && dev in ss[n].node.devices && !HasFileSystem(ss[n].node.devices[dev])
      && ss[n].node.devices[dev].serial == Some(SerialOf(ss[n].rpcs[i].req))
  {
    FormatInvHolds(owner, ss, ls, n);
    FormatsOnlyInStage(ss[n].rpcs[i]);
    assert PreparesWell(ss[n].node, ss[n].rpcs[i]);
  }

  /** No step of the driver touches a device that carries a file system. */
  lemma DriverKeepsFileSystems(owner: string -> Key, ss: seq<State>, ls: seq<Label>, n: nat, p: Path)
    requires FairRun(owner, ss, ls) && n < |ls| && !ls[n].Outside?
    requires p in ss[n].node.devices && HasFileSystem(ss[n].node.devices[p])
    ensures p in ss[n + 1].node.devices && ss[n + 1].node.devices[p] == ss[n].node.devices[p]
  {
    assert StepsTo(ss, ls, n);
    FormatInvHolds(owner, ss, ls, n);
    if ls[n].Drive? {
      var i := ls[n].i;
      DriveWritesOnlyItsDevice(ss[n], i, ls[n].reply, ls[n].node, p);
      if NextAction(ss[n].rpcs[i]).Mkfs? {
        MkfsOnlyOnEmptyDevices(owner, ss, ls, n, i);
        FormatsOnlyInStage(ss[n].rpcs[i]);
      }
    }
  }

  /** Nobody else touches the device between two states of the run. */
  ghost predicate UntouchedOutside(ss: seq<State>, ls: seq<Label>, m: nat, n: nat, p: Path)
    requires m <= n <= |ls| < |ss|
  {
    forall k :: m <= k < n && ls[k].Outside? && p in ss[k].node.devices ==>
      p in ls[k].node.devices && ls[k].node.devices[p] == ss[k].node.devices[p]
  }

  /** So once a disk carries a file system, no run of the driver's RPCs ever changes it. */
  lemma {:induction false} FileSystemsSurvive(owner: string -> Key, ss: seq<State>, ls: seq<Label>, m: nat, n: nat, p: Path)
    requires FairRun(owner, ss, ls) && m <= n < |ss| && UntouchedOutside(ss, ls, m, n, p)
    requires p in ss[m].node.devices && HasFileSystem(ss[m].node.devices[p])
    ensures p in ss[n].node.devices && ss[n].node.devices[p] == ss[m].node.devices[p]
    decreases n
  {
    if m < n {
      FileSystemsSurvive(owner, ss, ls, m, n - 1, p);
      assert StepsTo(ss, ls, n - 1);
      if !ls[n - 1].Outside? {
        DriverKeepsFileSystems(owner, ss, ls, n - 1, p);
      }
    }
  }
}
