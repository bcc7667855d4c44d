/** The exchanges one node RPC has, in order. */
module NodeConversations {
  import opened NodeProgram

  datatype Exchange = Exchange(action: Action, reply: Reply)

  type Log = seq<Exchange>

  /** Where an RPC stands after the exchanges of a log. */
  ghost function After(t: Rpc, log: Log): Rpc {
    if log == [] then t else
    var u := After(t, log[..|log| - 1]);
    if Active(u) then Resume(u, log[|log| - 1].reply) else u
  }

  /** Every exchange of the log is the one the RPC makes next at that point. */
  ghost predicate Follows(t: Rpc, log: Log) {
    log == [] ||
    var u := After(t, log[..|log| - 1]);
    Follows(t, log[..|log| - 1]) && Active(u) && log[|log| - 1].action == NextAction(u)
  }

  lemma Extend(t: Rpc, log: Log, e: Exchange)
    requires Follows(t, log) && Active(After(t, log)) && e.action == NextAction(After(t, log))
    ensures Follows(t, log + [e]) && After(t, log + [e]) == Resume(After(t, log), e.reply)
  {
    assert (log + [e])[..|log|] == log;
  }

  lemma {:induction false} AfterIsWellFormed(t: Rpc, log: Log)
    requires WellFormedRpc(t) && Follows(t, log)
    ensures WellFormedRpc(After(t, log)) && After(t, log).req == t.req
  {
    if log != [] {
      AfterIsWellFormed(t, log[..|log| - 1]);
      ResumeIsWellFormed(After(t, log[..|log| - 1]), log[|log| - 1].reply);
    }
  }

  // ---------------------------------------------------------------- what one call may do, any answers at all

  predicate Formats(e: Exchange) {
    e.action.Mkfs? || e.action.Fsck?
  }

  /** Only a stage that mounts a file system formats or checks, and never read-only. */
  lemma FormatsOnlyInStage(t: Rpc)
    requires WellFormedRpc(t) && Active(t) && (NextAction(t).Mkfs? || NextAction(t).Fsck?)
    ensures t.req.Stage? && t.req.capability.MountAccess? && RO !in GatedFlags(t.req.gates, t.req.capability.flags)
    ensures t.phase.Running? && t.phase.at.StFs? && t.phase.at.job.source == NextAction(t).dev
    ensures NextAction(t).Mkfs? ==> t.phase.at.fsAt.FsMkfs?
  {
  }

  /** With `ro` among the options in effect, neither fsck nor mkfs is ever run. */
  lemma ReadOnlyNeverFormats(req: NodeRequest, log: Log, k: nat)
    requires Follows(Start(req), log) && k < |log| && Formats(log[k])
    ensures req.Stage? && req.capability.MountAccess? && RO !in GatedFlags(req.gates, req.capability.flags)
  {
    PrefixFollows(Start(req), log, k);
    StartIsWellFormed(req);
    AfterIsWellFormed(Start(req), log[..k]);
    FormatsOnlyInStage(After(Start(req), log[..k]));
  }

  lemma {:induction false} PrefixFollows(t: Rpc, log: Log, k: nat)
    requires Follows(t, log) && k < |log|
    ensures Follows(t, log[..k]) && Active(After(t, log[..k])) && log[k].action == NextAction(After(t, log[..k]))
  {
    var before := log[..|log| - 1];
    if k < |before| {
      PrefixFollows(t, before, k);
      assert before[..k] == log[..k];
    }
  }

  predicate FailedMount(e: Exchange, dev: Path) {
    e.action.Mount? && e.action.source == dev && e.reply != Succeeded
  }

  /** The log ends with a mount of the device that failed. */
  predicate MountFailed(log: Log, dev: Path) {
    log != [] && FailedMount(log[|log| - 1], dev)
  }

  /** The log ends with a failed mount and a probe that answered `format`. */
  predicate MountFailedAndProbed(log: Log, dev: Path, format: string) {
    log != [] && log[|log| - 1] == Exchange(Probe(dev), Format(format)) && MountFailed(log[..|log| - 1], dev)
  }

  /** The log ends with a failed mount and with finding nothing to keep on the device. */
  predicate NothingToKeep(log: Log, dev: Path) {
    || MountFailedAndProbed(log, dev, "")
    || (log != [] && log[|log| - 1] == Exchange(Blkid(dev), Types("", ATARI))
        && MountFailedAndProbed(log[..|log| - 1], dev, UNKNOWN_DATA))
  }

  /** What the log ends with when a stage stands at a point of its formatting. */
  predicate Reached(at: FsAt, dev: Path, log: Log) {
    match at
    case FsProbe => MountFailed(log, dev)
    case FsBlkid => MountFailedAndProbed(log, dev, UNKNOWN_DATA)
    case FsMkfs => NothingToKeep(log, dev)
    case _ => true
  }

  predicate Trail(t: Rpc, log: Log) {
    t.phase.Running? && t.phase.at.StFs? ==> Reached(t.phase.at.fsAt, t.phase.at.job.source, log)
  }

  lemma TrailStep(t: Rpc, log: Log, e: Exchange)
    requires WellFormedRpc(t) && Active(t) && Trail(t, log) && e.action == NextAction(t)
    ensures Trail(Resume(t, e.reply), log + [e])
  {
    assert (log + [e])[..|log + [e]| - 1] == log;
    if t.phase.Running? && t.phase.at.StFs? {
      match t.phase.at.fsAt
      case FsFsck => {}
      case FsMount => {}
      case FsProbe => {}
      case FsBlkid => {}
      case FsMkfs => {}
      case FsRemount => {}
    }
  }

  lemma {:induction false} TrailHolds(req: NodeRequest, log: Log)
    requires Follows(Start(req), log)
    ensures Trail(After(Start(req), log), log)
  {
    if log != [] {
      var before := log[..|log| - 1];
      TrailHolds(req, before);
      StartIsWellFormed(req);
      AfterIsWellFormed(Start(req), before);
      TrailStep(After(Start(req), before), before, log[|log| - 1]);
      assert before + [log[|log| - 1]] == log;
    }
  }

  /**
   Whatever the answers: mkfs runs on a device only right after a mount of that device
   failed and the probe reported no format, or the special unknown-partition case.
   */
  lemma MkfsOnlyAfterProbe(req: NodeRequest, log: Log, k: nat)
    requires Follows(Start(req), log) && k < |log| && log[k].action.Mkfs?
    ensures NothingToKeep(log[..k], log[k].action.dev)
  {
    PrefixFollows(Start(req), log, k);
    TrailHolds(req, log[..k]);
    StartIsWellFormed(req);
    AfterIsWellFormed(Start(req), log[..k]);
    FormatsOnlyInStage(After(Start(req), log[..k]));
  }

  // ---------------------------------------------------------------- and exactly then

  predicate StagesReadOnly(req: NodeRequest)
    requires req.Stage?
  {
    req.capability.MountAccess? && RO in GatedFlags(req.gates, req.capability.flags)
  }

  /** After this exchange a stage mounts: after a check that left no errors, at once if read-only, or after formatting. */
  predicate LeadsToMount(e: Exchange, readOnly: bool) {
    match e.action
    case Fsck(_) => e.reply != Exit(FSCK_ERRORS_UNCORRECTED)
    case FindDevice(_) => e.reply.Device? && readOnly
    case Mkfs(_, _, _) => e.reply == Succeeded
    case _ => false
  }

  predicate LeadsToFsck(e: Exchange, readOnly: bool) {
    e.action.FindDevice? && e.reply.Device? && !readOnly
  }

  /** What was found on the device is nothing, or the special unknown-partition case. */
  predicate LeadsToMkfs(e: Exchange, readOnly: bool) {
    !readOnly && ((e.action.Probe? && e.reply == Format("")) || (e.action.Blkid? && e.reply == Types("", ATARI)))
  }

  /** What comes next in a stage is as the last exchange has it. */
  predicate InOrder(e: Exchange, next: Action, readOnly: bool) {
    && (next.Mount? <==> LeadsToMount(e, readOnly))
    && (next.Fsck? <==> LeadsToFsck(e, readOnly))
    && (next.Mkfs? <==> LeadsToMkfs(e, readOnly))
    && (next.Blkid? <==> e.action.Probe? && e.reply == Format(UNKNOWN_DATA))
    && (next.MakeDir? <==> e.action.CheckMount? && e.reply == PathMissing)
    && (next.FindDevice? <==> (e.action.CheckMount? && e.reply == NotMounted) || (e.action.MakeDir? && e.reply == Succeeded))
    && (next.NeedResize? <==> e.action.Mount? && e.reply == Succeeded)
    && (next.Resize? <==> e.action.NeedResize? && e.reply == Yes)
  }

  lemma FsInOrder(job: FsJob, at: FsAt, r: Reply)
    requires CheckFsType(job.fsType) && (at.FsFsck? || at.FsMkfs? || at.FsRemount? ==> !ReadOnly(job))
    ensures match FsAdvance(job, at, r)
      case FsGoto(at') => InOrder(Exchange(FsActionOf(job, at), r), FsActionOf(job, at'), ReadOnly(job))
      case _ => true
    ensures LeadsToMkfs(Exchange(FsActionOf(job, at), r), ReadOnly(job)) ==> FsAdvance(job, at, r) == FsGoto(FsMkfs)
    ensures FsAdvance(job, at, r).FsMounted? ==> FsActionOf(job, at).Mount?
  {
    match at
    case FsFsck => {}
    case FsMount => {}
    case FsProbe => {}
    case FsBlkid => {}
    case FsMkfs => {}
    case FsRemount => {}
  }

  lemma StageInOrder(req: NodeRequest, at: At, r: Reply)
    requires req.Stage? && Reaches(req, at) && Advance(req, at, r).Goto?
    ensures InOrder(Exchange(ActionOf(req, at), r), ActionOf(req, Advance(req, at, r).at), StagesReadOnly(req))
  {
    match at
    case StFs(job, fsAt) => FsInOrder(job, fsAt, r);
    case StFind => {
      assert FsStart(StageJob(req, r.dev)) == if StagesReadOnly(req) then FsMount else FsFsck;
    }
    case _ => {}
  }

  lemma StageStep(t: Rpc, r: Reply)
    requires t.req.Stage? && WellFormedRpc(t) && Active(t) && Active(Resume(t, r))
    ensures InOrder(Exchange(NextAction(t), r), NextAction(Resume(t, r)), StagesReadOnly(t.req))
  {
    if t.phase.Running? {
      if Advance(t.req, t.phase.at, r).Goto? {
        StageInOrder(t.req, t.phase.at, r);
      } else {
        ReturnsInOrder(t.req, t.phase.at, r);
      }
    }
  }

  /** What makes a stage give up or finish is none of the answers that lead on. */
  lemma ReturnsInOrder(req: NodeRequest, at: At, r: Reply)
    requires req.Stage? && Reaches(req, at) && Advance(req, at, r).Return?
    ensures InOrder(Exchange(ActionOf(req, at), r), Unlock(""), StagesReadOnly(req))
  {
    match at
    case StFs(job, fsAt) => {
      match fsAt
      case FsFsck => {}
      case FsMount => {}
      case FsProbe => {}
      case FsBlkid => {}
      case FsMkfs => {}
      case FsRemount => {}
    }
    case _ => {}
  }

  /**
   The order of a stage, whatever the answers. It checks the device's file system exactly
   after finding it, unless read-only; it mounts exactly after a check that left no errors,
   after finding the device if read-only, and after making a file system; and it makes one
   exactly when it finds nothing on the device that must be kept, and is not read-only. It
   looks closer exactly when the probe reports partitions, makes its directory exactly when
   that is missing, asks after each mount whether to grow, and grows exactly when it should.
   */
  lemma StageOrder(req: NodeRequest, log: Log, k: nat)
    requires Follows(Start(req), log) && 0 < k < |log| && req.Stage?
    ensures InOrder(log[k - 1], log[k].action, StagesReadOnly(req))
  {
    StartIsWellFormed(req);
    var t := Consecutive(Start(req), log, k);
    StageStep(t, log[k - 1].reply);
    assert log[k - 1] == Exchange(NextAction(t), log[k - 1].reply);
  }

  /** Two exchanges in a row are made from a point and from where the first leads. */
  lemma Consecutive(start: Rpc, log: Log, k: nat) returns (t: Rpc)
    requires WellFormedRpc(start) && Follows(start, log) && 0 < k < |log|
    ensures WellFormedRpc(t) && t.req == start.req && Active(t) && log[k - 1].action == NextAction(t)
    ensures After(start, log[..k]) == Resume(t, log[k - 1].reply)
    ensures Active(Resume(t, log[k - 1].reply)) && log[k].action == NextAction(Resume(t, log[k - 1].reply))
  {
    PrefixFollows(start, log, k - 1);
    PrefixFollows(start, log, k);
    AfterIsWellFormed(start, log[..k - 1]);
    AfterPrefix(start, log, k);
    t := After(start, log[..k - 1]);
  }

  /** What comes next in a publish is as the last exchange has it. */
  predicate PublishInOrder(e: Exchange, next: Action) {
    && (next.CheckMount? <==> e.action.EnsureTarget? && e.reply == Succeeded)
    && (next.Mount? <==> e.action.CheckMount? && e.reply == NotMounted)
  }

  /** The order of a publish: it makes sure of its target, checks whether that is mounted, and mounts exactly if not. */
  lemma PublishOrder(req: NodeRequest, log: Log, k: nat)
    requires Follows(Start(req), log) && 0 < k < |log| && req.Publish?
    ensures PublishInOrder(log[k - 1], log[k].action)
  {
    StartIsWellFormed(req);
    var t := Consecutive(Start(req), log, k);
    PublishStep(t, log[k - 1].reply);
    assert log[k - 1] == Exchange(NextAction(t), log[k - 1].reply);
  }

  lemma PublishStep(t: Rpc, r: Reply)
    requires t.req.Publish? && WellFormedRpc(t) && Active(t) && Active(Resume(t, r))
    ensures PublishInOrder(Exchange(NextAction(t), r), NextAction(Resume(t, r)))
  {
    if t.phase.Running? {
      match t.phase.at
      case PuFind => {}
      case PuEnsure(_) => {}
      case PuCheck(_) => {}
      case PuMount(_) => {}
    }
  }

  lemma AfterPrefix(t: Rpc, log: Log, k: nat)
    requires 0 < k <= |log| && Active(After(t, log[..k - 1]))
    ensures After(t, log[..k]) == Resume(After(t, log[..k - 1]), log[k - 1].reply)
  {
    assert log[..k][..k - 1] == log[..k - 1];
  }

  /** So a disk that carries nothing is formatted: when the probe that follows a failed mount finds it empty, mkfs comes next. */
  lemma EmptyDevicesAreFormatted(req: NodeRequest, log: Log)
    requires Follows(Start(req), log) && req.Stage? && !StagesReadOnly(req)
    requires log != [] && LeadsToMkfs(log[|log| - 1], false)
    ensures Active(After(Start(req), log)) && NextAction(After(Start(req), log)).Mkfs?
  {
    var t, e := After(Start(req), log[..|log| - 1]), log[|log| - 1];
    StartIsWellFormed(req);
    AfterIsWellFormed(Start(req), log[..|log| - 1]);
    MkfsFollows(t, e.reply);
  }

  lemma MkfsFollows(t: Rpc, r: Reply)
    requires t.req.Stage? && !StagesReadOnly(t.req) && WellFormedRpc(t) && Active(t) && LeadsToMkfs(Exchange(NextAction(t), r), false)
    ensures Active(Resume(t, r)) && NextAction(Resume(t, r)).Mkfs?
  {
    assert t.phase.Running? && t.phase.at.StFs?;
    FsInOrder(t.phase.at.job, t.phase.at.fsAt, r);
  }

  /** And a mount that fails, unless it comes right after formatting, is followed by that probe. */
  lemma FailedMountsAreProbed(req: NodeRequest, log: Log)
    requires Follows(Start(req), log) && req.Stage? && |log| > 1
    requires log[|log| - 1].action.Mount? && log[|log| - 1].reply != Succeeded && !log[|log| - 2].action.Mkfs?
    ensures Active(After(Start(req), log)) && NextAction(After(Start(req), log)) == Probe(log[|log| - 1].action.source)
  {
    StartIsWellFormed(req);
    var t := Consecutive(Start(req), log, |log| - 1);
    FirstMountIsProbed(t, log[|log| - 2].reply, log[|log| - 1].reply);
  }

  lemma FirstMountIsProbed(t: Rpc, r: Reply, last: Reply)
    requires t.req.Stage? && WellFormedRpc(t) && Active(t) && Active(Resume(t, r)) && !NextAction(t).Mkfs?
    requires NextAction(Resume(t, r)).Mount? && last != Succeeded
    ensures var u := Resume(Resume(t, r), last); Active(u) && NextAction(u) == Probe(NextAction(Resume(t, r)).source)
  {
    ResumeIsWellFormed(t, r);
    MountPoint(Resume(t, r));
    if Resume(t, r).phase.at.fsAt.FsRemount? {
      RemountsAfterMkfs(t, r);
    }
  }

  lemma MountPoint(t: Rpc)
    requires t.req.Stage? && WellFormedRpc(t) && Active(t) && NextAction(t).Mount?
    ensures t.phase.Running? && t.phase.at.StFs? && (t.phase.at.fsAt.FsMount? || t.phase.at.fsAt.FsRemount?)
  {
  }

  lemma RemountsAfterMkfs(t: Rpc, r: Reply)
    requires WellFormedRpc(t) && Active(t)
    requires var u := Resume(t, r); u.phase.Running? && u.phase.at.StFs? && u.phase.at.fsAt.FsRemount?
    ensures NextAction(t).Mkfs?
  {
  }
}
