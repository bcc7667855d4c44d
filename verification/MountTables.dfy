/** What stage, publish and their undoing do to the mount table, over whole runs. */
module MountTables {
  import opened Locks
  import opened NodeProgram
  import opened NodeSystem

  // ---------------------------------------------------------------- one step

  predicate SameAt(m: MountTable, m': MountTable, p: Path) {
    (p in m <==> p in m') && (p in m ==> m[p] == m'[p])
  }

  /** At one path a step may make it, unmount once, remove it, or mount once. */
  predicate SmallChange(m: MountTable, m': MountTable, p: Path, mayMount: bool) {
    p in m' ==>
      || (p !in m && m'[p] == [])
      || (p in m && m'[p] == m[p])
      || (p in m && m[p] != [] && m'[p] == m[p][1..])
      || (mayMount && p in m && |m'[p]| == |m[p]| + 1)
  }

  lemma ActsOnItsPath(t: Rpc)
    requires WellFormedRpc(t) && Active(t)
    ensures match NextAction(t)
      case CheckMount(p) => p == t.req.path
      case MakeDir(p) => p == t.req.path
      case EnsureTarget(p, _) => p == t.req.path
      case Mount(_, p, _, _) => p == t.req.path && !Undoes(t.req) && AboutToMount(t)
      case Cleanup(p) => p == t.req.path && Undoes(t.req)
      case _ => true
  {
    if t.phase.Running? {
      match t.phase.at
      case StFs(job, fsAt) => {}
      case _ => {}
    }
  }

  /** An RPC's step changes the mount table at the RPC's own path only, and little there. */
  lemma DriveTouchesItsPath(s: State, i: nat, r: Reply, n': Node)
    requires Inv(s) && CanDrive(s, i, r, n')
    ensures forall p :: p != s.rpcs[i].req.path ==> SameAt(s.node.mounts, n'.mounts, p)
    ensures SmallChange(s.node.mounts, n'.mounts, s.rpcs[i].req.path, NextAction(s.rpcs[i]).Mount? && r == Succeeded)
  {
    ActsOnItsPath(s.rpcs[i]);
    match NextAction(s.rpcs[i])
    case CheckMount(_) => {}
    case MakeDir(_) => {}
    case EnsureTarget(_, _) => {}
    case Mount(_, _, _, _) => {}
    case Cleanup(_) => {}
    case Mkfs(_, _, _) => {}
    case _ => {
      assert n'.mounts == s.node.mounts;
    }
  }

  // ---------------------------------------------------------------- at most one mount

  /** Between seeing its path unmounted and mounting there. */
  predicate AboutToMount(t: Rpc) {
    t.phase.Running? && (t.phase.at.StMkdir? || t.phase.at.StFind? || t.phase.at.StFs? || t.phase.at.PuMount?)
  }

  /** Each path is used for one volume, by the requests that may take its lock. */
  predicate OnePerPath(owner: Path -> Key, req: NodeRequest) {
    !Undoes(req) && Precheck(req).None? ==> owner(req.path) == KeyOf(req)
  }

  /** Nobody but the driver mounts or unmounts. */
  predicate OnlyDriverMounts(owner: Path -> Key, s: State, l: Label) {
    && (l.Outside? ==> l.node.mounts == s.node.mounts)
    && (l.Spawn? ==> OnePerPath(owner, l.req))
  }

  predicate AtMostOne(m: MountTable) {
    forall p :: p in m ==> |m[p]| <= 1
  }

  predicate SeesUnmounted(m: MountTable, t: Rpc) {
    AboutToMount(t) ==> (t.req.path in m ==> m[t.req.path] == [])
  }

  ghost predicate MountInv(owner: Path -> Key, s: State) {
    && AtMostOne(s.node.mounts)
    && forall i :: i in s.rpcs ==> SeesUnmounted(s.node.mounts, s.rpcs[i]) && OnePerPath(owner, s.rpcs[i].req)
  }

  /** A step that gets an RPC to where it is about to mount has seen nothing mounted, or changes no mount. */
  lemma ComesToMount(t: Rpc, n: Node, r: Reply, n': Node)
    requires WellFormedRpc(t) && Active(t) && !NextAction(t).TryLock? && Answers(n, NextAction(t), r, n')
    requires AboutToMount(Resume(t, r)) && SeesUnmounted(n.mounts, t)
    ensures SeesUnmounted(n'.mounts, Resume(t, r))
  {
    match t.phase.at
    case StFs(job, fsAt) => {
      match fsAt
      case FsFsck => {}
      case FsMount => {}
      case FsProbe => {}
      case FsBlkid => {}
      case FsMkfs => {}
      case FsRemount => {}
    }
    case _ => {}
  }

  lemma NotAboutToMountAfterLock(t: Rpc, r: Reply)
    requires WellFormedRpc(t) && Active(t) && (t.phase.Locking? || t.phase.Unwinding?)
    ensures !AboutToMount(Resume(t, r))
  {
  }

  lemma OwnStepSeesUnmounted(s: State, i: nat, r: Reply, n': Node)
    requires Inv(s) && CanDrive(s, i, r, n') && SeesUnmounted(s.node.mounts, s.rpcs[i])
    ensures SeesUnmounted(n'.mounts, Resume(s.rpcs[i], r))
  {
    var t := s.rpcs[i];
    if AboutToMount(Resume(t, r)) {
      if t.phase.Running? {
        ComesToMount(t, s.node, r, n');
      } else {
        NotAboutToMountAfterLock(t, r);
      }
    }
  }

  /** Two RPCs that may mount and hold their locks are about different paths. */
  lemma DifferentPaths(owner: Path -> Key, s: State, i: nat, j: nat)
    requires Inv(s) && i in s.rpcs && j in s.rpcs && i != j
    requires s.rpcs[i].held != [] && s.rpcs[j].held != []
    requires owner(s.rpcs[i].req.path) == KeyOf(s.rpcs[i].req) && owner(s.rpcs[j].req.path) == KeyOf(s.rpcs[j].req)
    ensures s.rpcs[i].req.path != s.rpcs[j].req.path
  {
    DifferentKeys(s, i, j);
  }

  lemma OthersStepSeesUnmounted(owner: Path -> Key, s: State, i: nat, r: Reply, n': Node, j: nat)
    requires Inv(s) && MountInv(owner, s) && CanDrive(s, i, r, n') && j in s.rpcs && j != i
    ensures SeesUnmounted(n'.mounts, s.rpcs[j])
  {
    if AboutToMount(s.rpcs[j]) {
      assert SeesUnmounted(s.node.mounts, s.rpcs[j]) && OnePerPath(owner, s.rpcs[j].req) && OnePerPath(owner, s.rpcs[i].req);
      DriveTouchesItsPath(s, i, r, n');
      assert SameAt(s.node.mounts, n'.mounts, s.rpcs[j].req.path) || s.rpcs[j].req.path == s.rpcs[i].req.path;
      if NextAction(s.rpcs[i]).Mount? {
        ActsOnItsPath(s.rpcs[i]);
        DifferentPaths(owner, s, i, j);
      }
    }
  }

  lemma DriveKeepsAtMostOne(owner: Path -> Key, s: State, i: nat, r: Reply, n': Node)
    requires Inv(s) && MountInv(owner, s) && CanDrive(s, i, r, n')
    ensures AtMostOne(n'.mounts)
  {
    DriveTouchesItsPath(s, i, r, n');
    ActsOnItsPath(s.rpcs[i]);
    assert SeesUnmounted(s.node.mounts, s.rpcs[i]);
    forall p | p in n'.mounts ensures |n'.mounts[p]| <= 1 {
      assert p != s.rpcs[i].req.path ==> SameAt(s.node.mounts, n'.mounts, p);
    }
  }

  lemma StepKeepsMountInv(owner: Path -> Key, s: State, l: Label)
    requires Inv(s) && MountInv(owner, s) && Enabled(s, l) && OnlyDriverMounts(owner, s, l)
    ensures MountInv(owner, Apply(s, l))
  {
    var s' := Apply(s, l);
    if l.Drive? {
      DriveKeepsAtMostOne(owner, s, l.i, l.reply, l.node);
    }
    forall j | j in s'.rpcs ensures SeesUnmounted(s'.node.mounts, s'.rpcs[j]) && OnePerPath(owner, s'.rpcs[j].req) {
      match l
      case Spawn(i, req) => {
        if i == j {
          StartIsWellFormed(req);
        } else {
          assert SeesUnmounted(s.node.mounts, s.rpcs[j]);
        }
      }
      case Outside(_) => {
        assert SeesUnmounted(s.node.mounts, s.rpcs[j]);
      }
      case Drive(i, r, n') => {
        assert SeesUnmounted(s.node.mounts, s.rpcs[j]);
        if i == j {
          OwnStepSeesUnmounted(s, i, r, n');
          DriveKeepsRequests(s, i, r, n');
        } else {
          OthersStepSeesUnmounted(owner, s, i, r, n', j);
        }
      }
    }
  }

  ghost predicate DriverRun(owner: Path -> Key, ss: seq<State>, ls: seq<Label>) {
    && IsRun(ss, ls) && AtMostOne(ss[0].node.mounts)
    && forall k :: 0 <= k < |ls| ==> OnlyDriverMounts(owner, ss[k], ls[k])
  }

  /**
   With one volume per path and truthful mount checks, no run of interleaved, failing and
   retried RPCs ever mounts twice on a staging or target path.
   */
  lemma {:induction false} AtMostOneMount(owner: Path -> Key, ss: seq<State>, ls: seq<Label>, n: nat)
    requires DriverRun(owner, ss, ls) && n < |ss|
    ensures Inv(ss[n]) && MountInv(owner, ss[n]) && AtMostOne(ss[n].node.mounts)
  {
    LocksAreOwned(ss, ls, n);
    if n > 0 {
      AtMostOneMount(owner, ss, ls, n - 1);
      assert StepsTo(ss, ls, n - 1);
      StepKeepsMountInv(owner, ss[n - 1], ls[n - 1]);
    }
  }

  // ---------------------------------------------------------------- what OK means

  /** Every RPC that may take its lock, undoing ones included, is for the volume its path is used for. */
  ghost predicate KnownIds(owner: Path -> Key, s: State) {
    forall i :: i in s.rpcs && Precheck(s.rpcs[i].req).None? ==> owner(s.rpcs[i].req.path) == KeyOf(s.rpcs[i].req)
  }

  /** The RPC still holds its lock and has mounted its path, or seen it mounted. */
  predicate HasMounted(t: Rpc) {
    || (t.phase.Running? && (t.phase.at.StNeedResize? || t.phase.at.StResize?))
    || (t.phase == Unwinding(Ok) && !Undoes(t.req))
  }

  predicate HasCleaned(t: Rpc) {
    t.phase == Unwinding(Ok) && Undoes(t.req)
  }

  predicate AsReported(m: MountTable, t: Rpc) {
    && (HasMounted(t) ==> t.req.path in m && |m[t.req.path]| == 1)
    && (HasCleaned(t) ==> t.req.path !in m)
  }

  /** The three ways to come to report a mount. */
  lemma ComesToReportMounted(t: Rpc, r: Reply)
    requires WellFormedRpc(t) && t.phase.Running? && HasMounted(Resume(t, r))
    ensures
      || (HasMounted(t) && (NextAction(t).NeedResize? || NextAction(t).Resize?))
      || (NextAction(t) == CheckMount(t.req.path) && r == Mounted)
      || (NextAction(t).Mount? && NextAction(t).path == t.req.path && r == Succeeded && AboutToMount(t))
  {
    match t.phase.at
    case StFs(job, fsAt) => {
      match fsAt
      case FsFsck => {}
      case FsMount => {}
      case FsProbe => {}
      case FsBlkid => {}
      case FsMkfs => {}
      case FsRemount => {}
    }
    case _ => {}
  }

  lemma MountedByOwnStep(t: Rpc, n: Node, r: Reply, n': Node)
    requires WellFormedRpc(t) && t.phase.Running? && Answers(n, NextAction(t), r, n')
    requires AtMostOne(n.mounts) && SeesUnmounted(n.mounts, t) && AsReported(n.mounts, t)
    ensures HasMounted(Resume(t, r)) ==> t.req.path in n'.mounts && |n'.mounts[t.req.path]| == 1
  {
    if HasMounted(Resume(t, r)) {
      ComesToReportMounted(t, r);
    }
  }

  lemma CleanedByOwnStep(t: Rpc, n: Node, r: Reply, n': Node)
    requires WellFormedRpc(t) && t.phase.Running? && Answers(n, NextAction(t), r, n')
    ensures HasCleaned(Resume(t, r)) ==> t.req.path !in n'.mounts
  {
    ResumeIsWellFormed(t, r);
  }

  lemma OwnStepAsReported(s: State, i: nat, r: Reply, n': Node)
    requires Inv(s) && CanDrive(s, i, r, n') && AtMostOne(s.node.mounts)
    requires SeesUnmounted(s.node.mounts, s.rpcs[i]) && AsReported(s.node.mounts, s.rpcs[i])
    ensures AsReported(n'.mounts, Resume(s.rpcs[i], r))
  {
    var t := s.rpcs[i];
    ResumeIsWellFormed(t, r);
    if t.phase.Running? {
      MountedByOwnStep(t, s.node, r, n');
      CleanedByOwnStep(t, s.node, r, n');
    }
  }

  lemma OthersStepAsReported(owner: Path -> Key, s: State, i: nat, r: Reply, n': Node, j: nat)
    requires Inv(s) && KnownIds(owner, s) && CanDrive(s, i, r, n') && j in s.rpcs && j != i
    requires AsReported(s.node.mounts, s.rpcs[j])
    ensures AsReported(n'.mounts, s.rpcs[j])
  {
    if HasMounted(s.rpcs[j]) || HasCleaned(s.rpcs[j]) {
      DriveTouchesItsPath(s, i, r, n');
      if s.rpcs[i].held != [] {
        DifferentPaths(owner, s, i, j);
        assert SameAt(s.node.mounts, n'.mounts, s.rpcs[j].req.path);
      } else {
        assert n' == s.node;
      }
    }
  }

  ghost predicate ReportsStand(s: State) {
    forall i :: i in s.rpcs ==> AsReported(s.node.mounts, s.rpcs[i])
  }

  lemma StepKeepsReports(owner: Path -> Key, s: State, l: Label)
    requires Inv(s) && MountInv(owner, s) && ReportsStand(s) && KnownIds(owner, s)
    requires Enabled(s, l) && OnlyDriverMounts(owner, s, l)
    ensures ReportsStand(Apply(s, l))
  {
    var s' := Apply(s, l);
    forall j | j in s'.rpcs ensures AsReported(s'.node.mounts, s'.rpcs[j]) {
      match l
      case Spawn(i, req) => {
        if i == j {
          StartIsWellFormed(req);
        } else {
          assert AsReported(s.node.mounts, s.rpcs[j]);
        }
      }
      case Outside(_) => {
        assert AsReported(s.node.mounts, s.rpcs[j]);
      }
      case Drive(i, r, n') => {
        assert AsReported(s.node.mounts, s.rpcs[j]) && SeesUnmounted(s.node.mounts, s.rpcs[i]);
        if i == j {
          OwnStepAsReported(s, i, r, n');
        } else {
          OthersStepAsReported(owner, s, i, r, n', j);
        }
      }
    }
  }

  /**
   While a stage or publish is answering OK its path carries exactly one mount, and while
   an unstage or unpublish is answering OK its path is gone, whatever else is in flight.
   */
  lemma {:induction false} OkMeansDone(owner: Path -> Key, ss: seq<State>, ls: seq<Label>, n: nat)
    requires DriverRun(owner, ss, ls) && n < |ss|
    requires forall k :: 0 <= k < |ss| ==> KnownIds(owner, ss[k])
    ensures ReportsStand(ss[n])
    ensures forall i :: i in ss[n].rpcs && ss[n].rpcs[i].phase == Unwinding(Ok) ==>
      var m, req := ss[n].node.mounts, ss[n].rpcs[i].req;
      if Undoes(req) then req.path !in m else req.path in m && |m[req.path]| == 1
  {
    if n > 0 {
      OkMeansDone(owner, ss, ls, n - 1);
      AtMostOneMount(owner, ss, ls, n - 1);
      assert StepsTo(ss, ls, n - 1) && KnownIds(owner, ss[n - 1]);
      StepKeepsReports(owner, ss[n - 1], ls[n - 1]);
    }
    forall i | i in ss[n].rpcs && ss[n].rpcs[i].phase == Unwinding(Ok)
      ensures var m, req := ss[n].node.mounts, ss[n].rpcs[i].req;
        if Undoes(req) then req.path !in m else req.path in m && |m[req.path]| == 1
    {
      assert AsReported(ss[n].node.mounts, ss[n].rpcs[i]);
    }
  }

  // ---------------------------------------------------------------- repeating and undoing, whatever else is in flight

  /** A run as in `OkMeansDone`: only the driver mounts, and every RPC on a path is for its volume. */
  ghost predicate KnownRun(owner: Path -> Key, ss: seq<State>, ls: seq<Label>) {
    DriverRun(owner, ss, ls) && forall k :: 0 <= k < |ss| ==> KnownIds(owner, ss[k])
  }

  /** RPC `i` holds its lock in every state from `m` to `n`. */
  ghost predicate HoldsItsLock(ss: seq<State>, m: nat, n: nat, i: nat, req: NodeRequest)
    requires m <= n < |ss|
  {
    forall k :: m <= k <= n ==> i in ss[k].rpcs && ss[k].rpcs[i].held != [] && ss[k].rpcs[i].req == req
  }

  /** None of the steps that RPC `i` makes from state `m` to state `n` changes the node. */
  ghost predicate OwnStepsChangeNothing(ss: seq<State>, ls: seq<Label>, m: nat, n: nat, i: nat)
    requires m <= n <= |ls| < |ss|
  {
    forall k :: m <= k < n && ls[k].Drive? && ls[k].i == i ==> ls[k].node == ss[k].node
  }

  ghost predicate OwnStepsCooperative(ls: seq<Label>, m: nat, n: nat, i: nat)
    requires m <= n <= |ls|
  {
    forall k :: m <= k < n && ls[k].Drive? && ls[k].i == i ==> Cooperative(ls[k].reply)
  }

  /** While an RPC holds its lock nobody else touches its path. */
  lemma PathUndisturbed(owner: Path -> Key, s: State, l: Label, i: nat)
    requires Inv(s) && KnownIds(owner, s) && Enabled(s, l) && OnlyDriverMounts(owner, s, l)
    requires i in s.rpcs && s.rpcs[i].held != [] && !(l.Drive? && l.i == i)
    ensures SameAt(s.node.mounts, Apply(s, l).node.mounts, s.rpcs[i].req.path)
  {
    if l.Drive? {
      DriveTouchesItsPath(s, l.i, l.reply, l.node);
      if s.rpcs[l.i].held != [] {
        DifferentPaths(owner, s, i, l.i);
      } else {
        assert l.node == s.node;
      }
    }
  }

  /** One step of a repeated stage or publish, or of anybody else meanwhile. */
  lemma RepeatStep(owner: Path -> Key, ss: seq<State>, ls: seq<Label>, k: nat, i: nat)
    requires KnownRun(owner, ss, ls) && k < |ls| && i in ss[k].rpcs && ss[k].rpcs[i].held != []
    requires !Undoes(ss[k].rpcs[i].req) && ChangesNothing(ss[k].rpcs[i])
    requires var m, p := ss[k].node.mounts, ss[k].rpcs[i].req.path; p in m && m[p] != []
    ensures i in ss[k + 1].rpcs && ChangesNothing(ss[k + 1].rpcs[i])
    ensures SameAt(ss[k].node.mounts, ss[k + 1].node.mounts, ss[k].rpcs[i].req.path)
    ensures OwnStepsChangeNothing(ss, ls, k, k + 1, i)
  {
    LocksAreOwned(ss, ls, k);
    assert StepsTo(ss, ls, k) && OnlyDriverMounts(owner, ss[k], ls[k]) && KnownIds(owner, ss[k]);
    if ls[k].Drive? && ls[k].i == i {
      MountedStopsEarly(ss[k], i, ls[k].reply, ls[k].node);
    } else {
      PathUndisturbed(owner, ss[k], ls[k], i);
    }
  }

  /** The path is mounted, and the RPC is not past the check that shows it so. */
  predicate AlreadyMounted(s: State, i: nat, req: NodeRequest) {
    && i in s.rpcs && s.rpcs[i].req == req && !Undoes(req) && ChangesNothing(s.rpcs[i])
    && req.path in s.node.mounts && s.node.mounts[req.path] != []
  }

  lemma StaysMountedStep(owner: Path -> Key, ss: seq<State>, ls: seq<Label>, k: nat, i: nat, req: NodeRequest)
    requires KnownRun(owner, ss, ls) && k < |ls| && AlreadyMounted(ss[k], i, req) && ss[k].rpcs[i].held != []
    requires i in ss[k + 1].rpcs && ss[k + 1].rpcs[i].req == req
    ensures AlreadyMounted(ss[k + 1], i, req) && SameAt(ss[k].node.mounts, ss[k + 1].node.mounts, req.path)
  {
    RepeatStep(owner, ss, ls, k, i);
  }

  /** A step leaves a mounted path mounted as it was. */
  predicate MountStays(s: State, s': State, i: nat, req: NodeRequest) {
    AlreadyMounted(s, i, req) ==> AlreadyMounted(s', i, req) && SameAt(s.node.mounts, s'.node.mounts, req.path)
  }

  lemma {:induction false} MountStaysThrough(ss: seq<State>, m: nat, n: nat, i: nat, req: NodeRequest)
    requires m <= n < |ss| && AlreadyMounted(ss[m], i, req)
    requires forall k :: m <= k < n ==> MountStays(ss[k], ss[k + 1], i, req)
    ensures AlreadyMounted(ss[n], i, req) && SameAt(ss[m].node.mounts, ss[n].node.mounts, req.path)
    decreases n
  {
    if m < n {
      MountStaysThrough(ss, m, n - 1, i, req);
      assert MountStays(ss[n - 1], ss[n - 1 + 1], i, req);
    }
  }

  lemma StaysMounted(owner: Path -> Key, ss: seq<State>, ls: seq<Label>, m: nat, n: nat, i: nat, req: NodeRequest)
    requires KnownRun(owner, ss, ls) && m <= n < |ss| && HoldsItsLock(ss, m, n, i, req) && AlreadyMounted(ss[m], i, req)
    ensures AlreadyMounted(ss[n], i, req) && SameAt(ss[m].node.mounts, ss[n].node.mounts, req.path)
  {
    forall k | m <= k < n ensures MountStays(ss[k], ss[k + 1], i, req) {
      if AlreadyMounted(ss[k], i, req) {
        StaysMountedStep(owner, ss, ls, k, i, req);
      }
    }
    MountStaysThrough(ss, m, n, i, req);
  }

  lemma OnTheWayStep(ss: seq<State>, ls: seq<Label>, k: nat, i: nat, req: NodeRequest)
    requires IsRun(ss, ls) && k < |ls| && AlreadyMounted(ss[k], i, req) && i in ss[k + 1].rpcs
    requires GoesWell(ss[k].rpcs[i]) && (ls[k].Drive? && ls[k].i == i ==> Cooperative(ls[k].reply))
    ensures GoesWell(ss[k + 1].rpcs[i])
  {
    LocksAreOwned(ss, ls, k);
    assert StepsTo(ss, ls, k);
    if ls[k].Drive? && ls[k].i == i {
      MountedGoesWell(ss[k], i, ls[k].reply, ls[k].node);
    }
  }

  lemma {:induction false} StaysOnTheWay(ss: seq<State>, ls: seq<Label>, m: nat, n: nat, i: nat, req: NodeRequest)
    requires IsRun(ss, ls) && m <= n < |ss| && forall k :: m <= k <= n ==> AlreadyMounted(ss[k], i, req)
    requires i in ss[m].rpcs && i in ss[n].rpcs
    requires GoesWell(ss[m].rpcs[i]) && OwnStepsCooperative(ls, m, n, i)
    ensures GoesWell(ss[n].rpcs[i])
    decreases n
  {
    if m < n {
      StaysOnTheWay(ss, ls, m, n - 1, i, req);
      OnTheWayStep(ss, ls, n - 1, i, req);
    }
  }

  /**
   While a stage or publish whose path is mounted already holds its lock, its path stays as
   it was and none of its own steps changes the node, whatever else is in flight. It goes
   on to OK if the request is admissible and no check reports an error.
   */
  lemma RepeatChangesNothing(owner: Path -> Key, ss: seq<State>, ls: seq<Label>, m: nat, n: nat, i: nat, req: NodeRequest)
    requires KnownRun(owner, ss, ls) && m <= n < |ss| && HoldsItsLock(ss, m, n, i, req) && AlreadyMounted(ss[m], i, req)
    ensures SameAt(ss[m].node.mounts, ss[n].node.mounts, req.path)
    ensures OwnStepsChangeNothing(ss, ls, m, n, i)
    ensures GoesWell(ss[m].rpcs[i]) && OwnStepsCooperative(ls, m, n, i) ==> GoesWell(ss[n].rpcs[i])
  {
    StaysMounted(owner, ss, ls, m, n, i, req);
    forall k | m <= k < n && ls[k].Drive? && ls[k].i == i ensures ls[k].node == ss[k].node {
      StaysMounted(owner, ss, ls, m, k, i, req);
      RepeatStep(owner, ss, ls, k, i);
    }
    if GoesWell(ss[m].rpcs[i]) && OwnStepsCooperative(ls, m, n, i) {
      forall k | m <= k <= n ensures AlreadyMounted(ss[k], i, req) {
        StaysMounted(owner, ss, ls, m, k, i, req);
      }
      StaysOnTheWay(ss, ls, m, n, i, req);
    }
  }

  lemma UndoOfAbsentStep(owner: Path -> Key, ss: seq<State>, ls: seq<Label>, k: nat, i: nat)
    requires KnownRun(owner, ss, ls) && k < |ls| && i in ss[k].rpcs && ss[k].rpcs[i].held != []
    requires Undoes(ss[k].rpcs[i].req) && ss[k].rpcs[i].req.path !in ss[k].node.mounts
    ensures ss[k].rpcs[i].req.path !in ss[k + 1].node.mounts
    ensures OwnStepsChangeNothing(ss, ls, k, k + 1, i)
  {
    LocksAreOwned(ss, ls, k);
    assert StepsTo(ss, ls, k) && OnlyDriverMounts(owner, ss[k], ls[k]) && KnownIds(owner, ss[k]);
    if ls[k].Drive? && ls[k].i == i {
      UndoStep(ss[k], i, ls[k].reply, ls[k].node);
    } else {
      PathUndisturbed(owner, ss[k], ls[k], i);
    }
  }

  /** While an undo of what is already gone holds its lock, it stays gone and the undo changes nothing. */
  lemma {:induction false} RepeatedUndoChangesNothing(owner: Path -> Key, ss: seq<State>, ls: seq<Label>, m: nat, n: nat, i: nat,
                                                      req: NodeRequest)
    requires KnownRun(owner, ss, ls) && m <= n < |ss| && HoldsItsLock(ss, m, n, i, req)
    requires Undoes(req) && req.path !in ss[m].node.mounts
    ensures req.path !in ss[n].node.mounts && OwnStepsChangeNothing(ss, ls, m, n, i)
    decreases n
  {
    if m < n {
      RepeatedUndoChangesNothing(owner, ss, ls, m, n - 1, i, req);
      UndoOfAbsentStep(owner, ss, ls, n - 1, i);
    }
  }

  /** The step changes the mount table at the path only, and devices only for a stage. */
  ghost predicate OnlyItsPath(s: State, l: Label, req: NodeRequest) {
    l.Drive? ==>
      && (forall p :: p != req.path ==> SameAt(s.node.mounts, l.node.mounts, p))
      && (!req.Stage? ==> l.node.devices == s.node.devices)
  }

  lemma OwnStepsKeepToPath(ss: seq<State>, ls: seq<Label>, k: nat)
    requires IsRun(ss, ls) && k < |ls| && ls[k].Drive?
    ensures ls[k].i in ss[k].rpcs && OnlyItsPath(ss[k], ls[k], ss[k].rpcs[ls[k].i].req)
  {
    LocksAreOwned(ss, ls, k);
    assert StepsTo(ss, ls, k);
    DriveTouchesItsPath(ss[k], ls[k].i, ls[k].reply, ls[k].node);
    UndoStep(ss[k], ls[k].i, ls[k].reply, ls[k].node);
  }

  /** The undoing RPC that goes with a request. */
  predicate UndoOf(undo: NodeRequest, todo: NodeRequest) {
    undo.path == todo.path && ((todo.Publish? && undo.Unpublish?) || (todo.Stage? && undo.Unstage?))
  }

  /**
   Undoing undoes: let a publish or stage find its path absent, at state `m`. Whatever else
   is in flight then and later, when an undo of it answers OK, at state `q`, the path is as
   it was at `m`; and of all the steps made in between, those of the two RPCs changed the
   mount table at that path only, and a publish and its undo no device.
   */
  lemma UndoRestoresPath(owner: Path -> Key, ss: seq<State>, ls: seq<Label>, m: nat, q: nat, i: nat, j: nat,
                         todo: NodeRequest)
    requires KnownRun(owner, ss, ls) && m <= q < |ss|
    requires i in ss[m].rpcs && ss[m].rpcs[i].req == todo && todo.path !in ss[m].node.mounts
    requires j in ss[q].rpcs && UndoOf(ss[q].rpcs[j].req, todo) && ss[q].rpcs[j].phase == Unwinding(Ok)
    ensures SameAt(ss[m].node.mounts, ss[q].node.mounts, todo.path)
    ensures forall k :: m <= k < q && ls[k].Drive? && ls[k].i in {i, j} ==> OnlyItsPath(ss[k], ls[k], todo)
  {
    OkMeansDone(owner, ss, ls, q);
    forall k | m <= k < q && ls[k].Drive? && ls[k].i in {i, j} ensures OnlyItsPath(ss[k], ls[k], todo) {
      OwnStepsKeepToPath(ss, ls, k);
      if ls[k].i == i {
        RequestStays(ss, ls, m, k, i);
      } else {
        RequestStays(ss, ls, k, q, j);
      }
    }
  }

  lemma {:induction false} RequestStays(ss: seq<State>, ls: seq<Label>, m: nat, n: nat, i: nat)
    requires IsRun(ss, ls) && m <= n < |ss| && i in ss[m].rpcs
    ensures i in ss[n].rpcs && ss[n].rpcs[i].req == ss[m].rpcs[i].req
    decreases n
  {
    if m < n {
      RequestStays(ss, ls, m, n - 1, i);
      LocksAreOwned(ss, ls, n - 1);
      assert StepsTo(ss, ls, n - 1);
      if ls[n - 1].Drive? && ls[n - 1].i == i {
        DriveKeepsRequests(ss[n - 1], i, ls[n - 1].reply, ls[n - 1].node);
      }
    }
  }

  // ---------------------------------------------------------------- repeating and undoing, alone

  /** From state `m` to state `n` nobody moves but RPC `i`. */
  ghost predicate Alone(ss: seq<State>, ls: seq<Label>, m: nat, n: nat, i: nat)
    requires m <= n <= |ls| && |ss| == |ls| + 1
  {
    forall k :: m <= k < n ==> ls[k].Drive? && ls[k].i == i
  }

  /** The RPC begins at state `m`, and is the only one to move until it has finished at state `n`. */
  ghost predicate RunsAlone(ss: seq<State>, ls: seq<Label>, m: nat, n: nat, i: nat, req: NodeRequest) {
    && IsRun(ss, ls) && m <= n < |ss| && Alone(ss, ls, m, n, i)
    && i in ss[m].rpcs && ss[m].rpcs[i] == Start(req)
    && i in ss[n].rpcs && ss[n].rpcs[i].req == req && ss[n].rpcs[i].phase.Finished?
  }

  /** Not yet past the check whether the path is mounted, or already on the way out. */
  predicate ChangesNothing(t: Rpc) {
    t.phase.Running? ==>
      t.phase.at.StCheck? || t.phase.at.PuFind? || t.phase.at.PuEnsure? || t.phase.at.PuCheck?
  }

  /** On the way to OK, or there. */
  predicate GoesWell(t: Rpc) {
    match t.phase
    case Locking => AfterLock(t.req).Goto?
    case Running(_) => true
    case _ => t.phase.outcome == Ok
  }

  predicate Cooperative(r: Reply) {
    r != Failed && r != Denied
  }

  lemma MountedGoesWell(s: State, i: nat, r: Reply, n': Node)
    requires Inv(s) && CanDrive(s, i, r, n') && ChangesNothing(s.rpcs[i]) && !Undoes(s.rpcs[i].req)
    requires s.rpcs[i].req.path in s.node.mounts && s.node.mounts[s.rpcs[i].req.path] != []
    requires GoesWell(s.rpcs[i]) && Cooperative(r)
    ensures GoesWell(Resume(s.rpcs[i], r))
  {
    ActsOnItsPath(s.rpcs[i]);
  }

  lemma MountedStopsEarly(s: State, i: nat, r: Reply, n': Node)
    requires Inv(s) && CanDrive(s, i, r, n') && ChangesNothing(s.rpcs[i]) && !Undoes(s.rpcs[i].req)
    requires s.rpcs[i].req.path in s.node.mounts && s.node.mounts[s.rpcs[i].req.path] != []
    ensures n' == s.node && ChangesNothing(Resume(s.rpcs[i], r))
  {
    ActsOnItsPath(s.rpcs[i]);
    assert Existing(s.node.mounts, s.rpcs[i].req.path) == s.node.mounts;
  }

  lemma {:induction false} StaysBeforeCheck(ss: seq<State>, ls: seq<Label>, m: nat, n: nat, i: nat, req: NodeRequest)
    requires IsRun(ss, ls) && m <= n < |ss| && Alone(ss, ls, m, n, i)
    requires i in ss[m].rpcs && ss[m].rpcs[i] == Start(req) && !Undoes(req)
    requires req.path in ss[m].node.mounts && ss[m].node.mounts[req.path] != []
    ensures i in ss[n].rpcs && ss[n].rpcs[i].req == req && ChangesNothing(ss[n].rpcs[i]) && ss[n].node == ss[m].node
    ensures GoesWell(Start(req)) && (forall k :: m <= k < n ==> Cooperative(ls[k].reply)) ==> GoesWell(ss[n].rpcs[i])
    decreases n
  {
    StartIsWellFormed(req);
    if m < n {
      StaysBeforeCheck(ss, ls, m, n - 1, i, req);
      LocksAreOwned(ss, ls, n - 1);
      assert StepsTo(ss, ls, n - 1);
      MountedStopsEarly(ss[n - 1], i, ls[n - 1].reply, ls[n - 1].node);
      if GoesWell(ss[n - 1].rpcs[i]) && Cooperative(ls[n - 1].reply) {
        MountedGoesWell(ss[n - 1], i, ls[n - 1].reply, ls[n - 1].node);
      }
      DriveKeepsRequests(ss[n - 1], i, ls[n - 1].reply, ls[n - 1].node);
    }
  }

  /**
   Repeating a stage or publish whose path is mounted already changes nothing at all: no
   mount, no device, and no key left behind. It answers OK if the request is admissible,
   its lock is free and no check reports an error.
   */
  lemma RepeatAloneChangesNothing(ss: seq<State>, ls: seq<Label>, m: nat, n: nat, i: nat, req: NodeRequest)
    requires RunsAlone(ss, ls, m, n, i, req) && !Undoes(req)
    requires req.path in ss[m].node.mounts && ss[m].node.mounts[req.path] != []
    ensures ss[n].node == ss[m].node && ss[n].rpcs[i].held == []
    ensures GoesWell(Start(req)) && (forall k :: m <= k < n ==> Cooperative(ls[k].reply)) ==> ss[n].rpcs[i].phase.outcome == Ok
  {
    StaysBeforeCheck(ss, ls, m, n, i, req);
    LocksAreOwned(ss, ls, n);
  }

  /** An RPC that runs alone changes the mount table at its own path only; if it only binds or cleans up, no device. */
  lemma {:induction false} AloneTouchesItsPath(ss: seq<State>, ls: seq<Label>, m: nat, n: nat, i: nat, req: NodeRequest)
    requires IsRun(ss, ls) && m <= n < |ss| && Alone(ss, ls, m, n, i)
    requires i in ss[m].rpcs && ss[m].rpcs[i] == Start(req)
    ensures i in ss[n].rpcs && ss[n].rpcs[i].req == req
    ensures forall p :: p != req.path ==> SameAt(ss[m].node.mounts, ss[n].node.mounts, p)
    ensures !req.Stage? ==> ss[n].node.devices == ss[m].node.devices
    ensures Undoes(req) && req.path !in ss[m].node.mounts ==> req.path !in ss[n].node.mounts
    ensures Undoes(req) && (ss[n].rpcs[i].phase == Unwinding(Ok) || ss[n].rpcs[i].phase == Finished(Ok)) ==>
      req.path !in ss[n].node.mounts
    decreases n
  {
    StartIsWellFormed(req);
    if m < n {
      AloneTouchesItsPath(ss, ls, m, n - 1, i, req);
      LocksAreOwned(ss, ls, n - 1);
      assert StepsTo(ss, ls, n - 1);
      var s, r, n' := ss[n - 1], ls[n - 1].reply, ls[n - 1].node;
      DriveKeepsRequests(s, i, r, n');
      DriveTouchesItsPath(s, i, r, n');
      UndoStep(s, i, r, n');
      forall p | p != req.path ensures SameAt(ss[m].node.mounts, ss[n].node.mounts, p) {
        assert SameAt(ss[m].node.mounts, s.node.mounts, p) && SameAt(s.node.mounts, n'.mounts, p);
      }
    }
  }

  lemma UndoStep(s: State, i: nat, r: Reply, n': Node)
    requires Inv(s) && CanDrive(s, i, r, n')
    ensures !s.rpcs[i].req.Stage? ==> n'.devices == s.node.devices
    ensures Undoes(s.rpcs[i].req) && s.rpcs[i].req.path !in s.node.mounts ==> n' == s.node
    ensures Undoes(s.rpcs[i].req) && s.rpcs[i].phase.Running? && Resume(s.rpcs[i], r).phase == Unwinding(Ok) ==>
      s.rpcs[i].req.path !in n'.mounts
    ensures Undoes(s.rpcs[i].req) ==> s.rpcs[i].phase.Running? || n' == s.node
  {
  }

  /** Undoing what is already gone changes nothing. */
  lemma RepeatedUndoAloneChangesNothing(ss: seq<State>, ls: seq<Label>, m: nat, n: nat, i: nat, req: NodeRequest)
    requires RunsAlone(ss, ls, m, n, i, req) && Undoes(req) && req.path !in ss[m].node.mounts
    ensures ss[n].node == ss[m].node && ss[n].rpcs[i].held == []
  {
    AloneTouchesItsPath(ss, ls, m, n, i, req);
    LocksAreOwned(ss, ls, n);
    SameEverywhere(ss[m].node.mounts, ss[n].node.mounts, req.path);
  }

  lemma SameEverywhere(m: MountTable, m': MountTable, p: Path)
    requires p !in m && p !in m' && forall q :: q != p ==> SameAt(m, m', q)
    ensures m == m'
  {
    forall q ensures q in m <==> q in m' {
      assert q != p ==> SameAt(m, m', q);
    }
    forall q | q in m ensures m[q] == m'[q] {
      assert SameAt(m, m', q);
    }
  }

  /**
   A publish, whatever it did, followed by an unpublish of the same path that reports OK,
   leaves the node exactly as it was before the publish created the path.
   */
  lemma UnpublishAloneUndoesPublish(ss: seq<State>, ls: seq<Label>, m: nat, n: nat, k: nat, q: nat, i: nat, j: nat,
                               todo: NodeRequest, undo: NodeRequest)
    requires RunsAlone(ss, ls, m, n, i, todo) && todo.Publish? && todo.path !in ss[m].node.mounts
    requires RunsAlone(ss, ls, k, q, j, undo) && undo.Unpublish? && undo.path == todo.path
    requires ss[k].node == ss[n].node && ss[q].rpcs[j].phase == Finished(Ok)
    ensures ss[q].node == ss[m].node
  {
    AloneTouchesItsPath(ss, ls, m, n, i, todo);
    AloneTouchesItsPath(ss, ls, k, q, j, undo);
    forall p | p != todo.path ensures SameAt(ss[m].node.mounts, ss[q].node.mounts, p) {
      assert SameAt(ss[m].node.mounts, ss[n].node.mounts, p) && SameAt(ss[k].node.mounts, ss[q].node.mounts, p);
    }
    SameEverywhere(ss[m].node.mounts, ss[q].node.mounts, todo.path);
  }

  /** The same for stage and unstage, except that the stage may have formatted its disk. */
  lemma UnstageAloneUndoesStage(ss: seq<State>, ls: seq<Label>, m: nat, n: nat, k: nat, q: nat, i: nat, j: nat,
                           todo: NodeRequest, undo: NodeRequest)
    requires RunsAlone(ss, ls, m, n, i, todo) && todo.Stage? && todo.path !in ss[m].node.mounts
    requires RunsAlone(ss, ls, k, q, j, undo) && undo.Unstage? && undo.path == todo.path
    requires ss[k].node == ss[n].node && ss[q].rpcs[j].phase == Finished(Ok)
    ensures ss[q].node.mounts == ss[m].node.mounts && ss[q].node.devices == ss[n].node.devices
  {
    AloneTouchesItsPath(ss, ls, m, n, i, todo);
    AloneTouchesItsPath(ss, ls, k, q, j, undo);
    forall p | p != todo.path ensures SameAt(ss[m].node.mounts, ss[q].node.mounts, p) {
      assert SameAt(ss[m].node.mounts, ss[n].node.mounts, p) && SameAt(ss[k].node.mounts, ss[q].node.mounts, p);
    }
    SameEverywhere(ss[m].node.mounts, ss[q].node.mounts, todo.path);
  }
}
