/**
 What a node RPC does and with which arguments, and what its answer means, whatever the node
 answers: told from the request and the answers alone.
 */
module NodeMeanings {
  import opened Wrappers
  import opened RpcCodes
  import opened NodeProgram
  import opened NodeConversations
  import VolumeId

  // ---------------------------------------------------------------- whose actions

  /** The mount flags of the capability, if the feature that admits them is enabled. */
  function AdmittedFlags(req: NodeRequest): seq<string>
    requires !Undoes(req)
  {
    if req.capability.MountAccess? && MOUNT_OPTIONS_FEATURE in req.gates then req.capability.flags else []
  }

  /** The options a publish mounts with: `bind`, `ro` if read-only is asked for, and the admitted flags. */
  ghost predicate BindsAsAsked(req: NodeRequest, options: seq<string>)
    requires req.Publish?
  {
    forall o :: o in options <==> o == BIND || (o == RO && req.readonly) || o in AdmittedFlags(req)
  }

  /** The options a stage mounts with: the admitted flags, or the defaults if there is none. */
  ghost predicate MountsAsAsked(req: NodeRequest, options: seq<string>)
    requires req.Stage?
  {
    forall o :: o in options <==> if AdmittedFlags(req) == [] then o == DEFAULTS else o in AdmittedFlags(req)
  }

  /** An action that an RPC may make on behalf of its request. */
  ghost predicate OwnAction(req: NodeRequest, a: Action) {
    match a
    case TryLock(key) => key == KeyOf(req)
    case Unlock(key) => key == KeyOf(req)
    case CheckMount(p) => p == req.path && !Undoes(req)
    case MakeDir(p) => p == req.path && req.Stage?
    case EnsureTarget(p, block) => p == req.path && req.Publish? && block == req.capability.BlockAccess?
    case FindDevice(serial) => serial == SerialOf(req) && !Undoes(req)
    case Mount(_, p, fsType, options) =>
      && p == req.path && !Undoes(req) && fsType == FsTypeOf(req.capability)
      && (if req.Publish? then BindsAsAsked(req, options) else MountsAsAsked(req, options))
    case Mkfs(_, fsType, _) => req.Stage? && fsType == FsTypeOf(req.capability)
    case NeedResize(_, p) => p == req.path && req.Stage?
    case Resize(_, p) => p == req.path && req.Stage?
    case Cleanup(p) => p == req.path && Undoes(req)
    case _ => req.Stage?
  }

  lemma GatedFlagsAreAdmitted(req: NodeRequest)
    requires !Undoes(req) && req.capability.MountAccess?
    ensures forall o :: o in GatedFlags(req.gates, req.capability.flags) <==> o in AdmittedFlags(req)
  {
    forall o ensures o in GatedFlags(req.gates, req.capability.flags) <==> o in AdmittedFlags(req) {
      GatedFlagsMeaning(req.gates, req.capability.flags, o);
    }
  }

  lemma StageMountsAsAsked(req: NodeRequest, dev: Path)
    requires req.Stage? && req.capability.MountAccess?
    ensures MountsAsAsked(req, UsedMountOptions(StageJob(req, dev)))
  {
    var flags := GatedFlags(req.gates, req.capability.flags);
    GatedFlagsAreAdmitted(req);
    assert flags != [] ==> flags[0] in AdmittedFlags(req);
    assert AdmittedFlags(req) != [] ==> AdmittedFlags(req)[0] in flags;
  }

  lemma PublishBindsAsAsked(req: NodeRequest)
    requires req.Publish?
    ensures BindsAsAsked(req, PublishOptions(req))
  {
    if req.capability.MountAccess? {
      GatedFlagsAreAdmitted(req);
    }
  }

  lemma ActionIsOwn(t: Rpc)
    requires WellFormedRpc(t) && Active(t)
    ensures OwnAction(t.req, NextAction(t))
  {
    if t.phase.Running? {
      match t.phase.at
      case StFs(job, fsAt) => {
        StageMountsAsAsked(t.req, job.source);
        match fsAt
        case FsFsck => {}
        case FsMount => {}
        case FsProbe => {}
        case FsBlkid => {}
        case FsMkfs => {}
        case FsRemount => {}
      }
      case PuMount(_) => PublishBindsAsAsked(t.req);
      case _ => {}
    }
  }

  // ---------------------------------------------------------------- the answers, kind by kind

  datatype Kind = LockTry | MountCheck | DeviceSearch | Mounting | GrowthCheck | Growing | CleaningUp | Other

  function KindOf(a: Action): Kind {
    match a
    case TryLock(_) => LockTry
    case CheckMount(_) => MountCheck
    case FindDevice(_) => DeviceSearch
    case Mount(_, _, _, _) => Mounting
    case NeedResize(_, _) => GrowthCheck
    case Resize(_, _) => Growing
    case Cleanup(_) => CleaningUp
    case _ => Other
  }

  /** The answers to the actions of a kind, in order. */
  function Replies(log: Log, kind: Kind): seq<Reply> {
    if log == [] then [] else Told(Replies(log[..|log| - 1], kind), log[|log| - 1], kind)
  }

  function Told(rs: seq<Reply>, e: Exchange, kind: Kind): seq<Reply> {
    if KindOf(e.action) == kind then rs + [e.reply] else rs
  }

  datatype NodeStory = NodeStory(locks: seq<Reply>, checks: seq<Reply>, finds: seq<Reply>, mounts: seq<Reply>,
                                 growths: seq<Reply>, resizes: seq<Reply>, cleanups: seq<Reply>)

  const NOTHING_TOLD := NodeStory([], [], [], [], [], [], [])

  function StoryOf(log: Log): NodeStory {
    NodeStory(Replies(log, LockTry), Replies(log, MountCheck), Replies(log, DeviceSearch), Replies(log, Mounting),
              Replies(log, GrowthCheck), Replies(log, Growing), Replies(log, CleaningUp))
  }

  function ToldMore(y: NodeStory, e: Exchange): NodeStory {
    NodeStory(Told(y.locks, e, LockTry), Told(y.checks, e, MountCheck), Told(y.finds, e, DeviceSearch), Told(y.mounts, e, Mounting),
              Told(y.growths, e, GrowthCheck), Told(y.resizes, e, Growing), Told(y.cleanups, e, CleaningUp))
  }

  // ---------------------------------------------------------------- what the outcome means

  predicate SearchFailed(y: NodeStory) {
    y.finds != [] && !y.finds[0].Device?
  }

  /** The path was shown mounted. */
  predicate ShownMounted(y: NodeStory) {
    Mounted in y.checks
  }

  /** A mount succeeded. */
  predicate WasMounted(y: NodeStory) {
    Succeeded in y.mounts
  }

  /** The file system was not said to lag behind its device, or it was grown. */
  predicate FillsDevice(y: NodeStory) {
    y.growths != [] && (Yes in y.growths ==> Succeeded in y.resizes)
  }

  /** What the request asked for is so. */
  predicate IsDone(req: NodeRequest, y: NodeStory) {
    match req
    case Stage(_, _, _, _) => ShownMounted(y) || (WasMounted(y) && FillsDevice(y))
    case Publish(_, _, _, _, _, _, _) => ShownMounted(y) || WasMounted(y)
    case _ => Succeeded in y.cleanups
  }

  /** The capability is for a mount, or for a publish anything, and its file system is supported. */
  predicate Supported(req: NodeRequest) {
    Undoes(req) || (CheckFsType(FsTypeOf(req.capability)) && (req.Stage? ==> req.capability.MountAccess?))
  }

  /** The outcome, told entirely from the request and the answers. */
  predicate End(req: NodeRequest, o: NodeOutcome, y: NodeStory) {
    && (o == Ok <==> IsDone(req, y))
    && (o == Err(Aborted) <==> y.locks != [Granted])
    && (o == Err(InvalidArgument) <==> y.locks == [Granted] && !Supported(req))
    && (o == Err(NotFound) <==> SearchFailed(y))
    && (o == Ok || o.code in {Aborted, InvalidArgument, NotFound, Internal})
  }

  /** A found device, if one is needed. */
  predicate HasSource(req: NodeRequest, source: Path, y: NodeStory) {
    if req.Stage? || (req.Publish? && req.capability.BlockAccess?) then y.finds == [Device(source)]
    else req.Publish? && source == req.staging && y.finds == []
  }

  predicate StoryAt(req: NodeRequest, at: At, y: NodeStory) {
    && y.locks == [Granted] && y.cleanups == [] && Supported(req)
    && match at
       case StCheck => y == NOTHING_TOLD.(locks := y.locks)
       case StMkdir => y == NOTHING_TOLD.(locks := y.locks, checks := y.checks) && !ShownMounted(y)
       case StFind => y == NOTHING_TOLD.(locks := y.locks, checks := y.checks) && !ShownMounted(y)
       case StFs(job, _) => HasSource(req, job.source, y) && !ShownMounted(y) && !WasMounted(y) && y.growths == [] && y.resizes == []
       case StNeedResize(dev) => HasSource(req, dev, y) && !ShownMounted(y) && WasMounted(y) && y.growths == [] && y.resizes == []
       case StResize(dev) => HasSource(req, dev, y) && !ShownMounted(y) && WasMounted(y) && Yes in y.growths && y.resizes == []
       case UndoCleanup => y == NOTHING_TOLD.(locks := y.locks)
       case PuFind => y == NOTHING_TOLD.(locks := y.locks)
       case PuEnsure(source) => HasSource(req, source, y) && y.checks == [] && y.mounts == []
       case PuCheck(source) => HasSource(req, source, y) && y.checks == [] && y.mounts == []
       case PuMount(source) => HasSource(req, source, y) && !ShownMounted(y) && y.mounts == []
  }

  predicate Ledger(t: Rpc, y: NodeStory) {
    match t.phase
    case Locking => y == NOTHING_TOLD
    case Running(at) => StoryAt(t.req, at, y)
    case _ => End(t.req, t.phase.outcome, y)
  }

  predicate LeadsOn(req: NodeRequest, v: Verdict, y: NodeStory) {
    match v
    case Goto(at) => StoryAt(req, at, y)
    case Return(o) => End(req, o, y)
  }

  lemma LockLeadsOn(t: Rpc, e: Exchange)
    requires WellFormedRpc(t) && t.phase.Locking? && e.action == NextAction(t)
    ensures Ledger(Resume(t, e.reply), ToldMore(NOTHING_TOLD, e))
  {
    assert ToldMore(NOTHING_TOLD, e) == NOTHING_TOLD.(locks := [e.reply]);
  }

  lemma StageLeadsOn(req: NodeRequest, at: At, y: NodeStory, e: Exchange)
    requires Reaches(req, at) && StoryAt(req, at, y) && e.action == ActionOf(req, at)
    requires at.StCheck? || at.StMkdir? || at.StFind? || at.StNeedResize? || at.StResize?
    ensures LeadsOn(req, Advance(req, at, e.reply), ToldMore(y, e))
  {
    match at
    case StCheck => {}
    case StMkdir => {}
    case StFind => {}
    case StNeedResize(_) => {}
    case StResize(_) => {}
  }

  lemma FsLeadsOn(req: NodeRequest, job: FsJob, fsAt: FsAt, y: NodeStory, e: Exchange)
    requires Reaches(req, StFs(job, fsAt)) && StoryAt(req, StFs(job, fsAt), y) && e.action == FsActionOf(job, fsAt)
    ensures LeadsOn(req, Advance(req, StFs(job, fsAt), e.reply), ToldMore(y, e))
  {
    match fsAt
    case FsFsck => {}
    case FsMount => {}
    case FsProbe => {}
    case FsBlkid => {}
    case FsMkfs => {}
    case FsRemount => {}
  }

  lemma OthersLeadOn(req: NodeRequest, at: At, y: NodeStory, e: Exchange)
    requires Reaches(req, at) && StoryAt(req, at, y) && e.action == ActionOf(req, at)
    requires at.UndoCleanup? || at.PuFind? || at.PuEnsure? || at.PuCheck? || at.PuMount?
    ensures LeadsOn(req, Advance(req, at, e.reply), ToldMore(y, e))
  {
    match at
    case UndoCleanup => {}
    case PuFind => {}
    case PuEnsure(_) => {}
    case PuCheck(_) => {}
    case PuMount(_) => {}
  }

  lemma LedgerStep(t: Rpc, y: NodeStory, e: Exchange)
    requires WellFormedRpc(t) && Active(t) && e.action == NextAction(t) && Ledger(t, y)
    ensures Ledger(Resume(t, e.reply), ToldMore(y, e))
  {
    match t.phase
    case Locking => LockLeadsOn(t, e);
    case Running(at) =>
      if at.StFs? {
        FsLeadsOn(t.req, at.job, at.fsAt, y, e);
      } else if t.req.Stage? {
        StageLeadsOn(t.req, at, y, e);
      } else {
        OthersLeadOn(t.req, at, y, e);
      }
    case Unwinding(_) => {}
  }

  lemma {:induction false} LedgerHolds(req: NodeRequest, log: Log)
    requires Precheck(req).None? && Follows(Start(req), log)
    ensures Ledger(After(Start(req), log), StoryOf(log))
  {
    if log != [] {
      var before := log[..|log| - 1];
      LedgerHolds(req, before);
      StartIsWellFormed(req);
      AfterIsWellFormed(Start(req), before);
      LedgerStep(After(Start(req), before), StoryOf(before), log[|log| - 1]);
    }
  }

  /**
   A stage that gets its lock answers OK if and only if its path was shown mounted, or a
   mount succeeded and the file system fills its device or was grown; a publish, if and only
   if its path was shown mounted or a mount succeeded; an unstage or unpublish, if and only
   if the clean-up succeeded. The error codes are told from the answers in the same way.
   */
  lemma NodeMeaning(req: NodeRequest, log: Log)
    requires Precheck(req).None? && Follows(Start(req), log) && After(Start(req), log).phase.Finished?
    ensures End(req, After(Start(req), log).phase.outcome, StoryOf(log))
  {
    LedgerHolds(req, log);
    StartIsWellFormed(req);
    AfterIsWellFormed(Start(req), log);
  }

  // ---------------------------------------------------------------- what is mounted, formatted and grown

  /** What an action takes from: the source of a mount, or the device it works on. */
  function SourceOf(a: Action): Option<Path> {
    match a
    case Mount(source, _, _, _) => Some(source)
    case Fsck(dev) => Some(dev)
    case Probe(dev) => Some(dev)
    case Blkid(dev) => Some(dev)
    case Mkfs(dev, _, _) => Some(dev)
    case NeedResize(dev, _) => Some(dev)
    case Resize(dev, _) => Some(dev)
    case _ => None
  }

  lemma SourceWasFound(t: Rpc, y: NodeStory)
    requires WellFormedRpc(t) && Active(t) && Ledger(t, y) && SourceOf(NextAction(t)).Some?
    ensures HasSource(t.req, SourceOf(NextAction(t)).value, y)
  {
    match t.phase.at
    case StFs(job, fsAt) => {
      match fsAt
      case FsFsck => {}
      case FsMount => {}
      case FsProbe => {}
      case FsBlkid => {}
      case FsMkfs => {}
      case FsRemount => {}
    }
    case _ => {}
  }

  /**
   Everything a node RPC does is what its request asks for. A publish binds its staging
   path, or in block mode the device that its own search for the volume's serial answered,
   to its target, with `bind`, with `ro` exactly when asked for, and with the admitted
   flags. A stage mounts, makes and grows the file system type asked for on the device that
   its search answered, at its staging path.
   */
  lemma DoesWhatWasAsked(req: NodeRequest, log: Log, k: nat)
    requires Follows(Start(req), log) && k < |log|
    ensures OwnAction(req, log[k].action)
    ensures SourceOf(log[k].action).Some? ==> HasSource(req, SourceOf(log[k].action).value, StoryOf(log[..k]))
  {
    PrefixFollows(Start(req), log, k);
    StartIsWellFormed(req);
    AfterIsWellFormed(Start(req), log[..k]);
    var t := After(Start(req), log[..k]);
    ActionIsOwn(t);
    if SourceOf(log[k].action).Some? {
      LedgerHolds(req, log[..k]);
      SourceWasFound(t, StoryOf(log[..k]));
    }
  }

  /** In particular: bound read-only if and only if that is asked for, by the request or by an admitted flag. */
  lemma BoundReadOnlyExactly(req: NodeRequest, log: Log, k: nat)
    requires Follows(Start(req), log) && k < |log| && req.Publish? && log[k].action.Mount?
    ensures BIND in log[k].action.options
    ensures RO in log[k].action.options <==>
      req.readonly || (req.capability.MountAccess? && MOUNT_OPTIONS_FEATURE in req.gates && RO in req.capability.flags)
    ensures log[k].action.path == req.path && (!req.capability.BlockAccess? ==> log[k].action.source == req.staging)
  {
    DoesWhatWasAsked(req, log, k);
  }

  // ---------------------------------------------------------------- before the lock

  predicate LacksField(req: NodeRequest) {
    req.volumeId == "" || req.path == "" || (!Undoes(req) && req.capability.NoCapability?)
  }

  /** A publish that the driver is not capable of, or without a staging path. */
  predicate NotPrepared(req: NodeRequest) {
    req.Publish? && (!req.accessModeOk || req.staging == "")
  }

  /**
   What is answered before the lock is tried, and with what. Undoing is never refused for an
   id that does not parse; staging a raw block volume is done at once.
   */
  lemma AnsweredAtOnce(req: NodeRequest)
    ensures Start(req).phase == Finished(Err(InvalidArgument)) <==> LacksField(req)
    ensures Start(req).phase == Finished(Err(FailedPrecondition)) <==> !LacksField(req) && NotPrepared(req)
    ensures Start(req).phase == Finished(Err(NotFound)) <==>
      !LacksField(req) && !NotPrepared(req) && !Undoes(req) && VolumeId.ParseCsiVolId(req.volumeId).None?
    ensures Start(req).phase == Finished(Ok) <==>
      !LacksField(req) && VolumeId.ParseCsiVolId(req.volumeId).Some? && req.Stage? && req.capability.BlockAccess?
    ensures Undoes(req) && !LacksField(req) ==> Start(req).phase.Locking?
  {
  }
}
