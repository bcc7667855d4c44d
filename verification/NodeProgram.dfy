/**
 The node RPCs as programs over the node's lock set, its mount table and its block devices.
 As for the controller, an RPC in progress is a value, `NextAction` says what it does next
 and `Resume` how it goes on.
 */
module NodeProgram {
  import opened Wrappers
  import opened RpcCodes
  import opened Locks
  import VolumeId

  type Path = string

  const EXT4 := "ext4"
  const EXT3 := "ext3"
  const XFS := "xfs"
  const RO := "ro"
  const BIND := "bind"
  const DEFAULTS := "defaults"
  const ATARI := "atari"
  const MOUNT_OPTIONS_FEATURE := "enable_mount_opt"
  const UNKNOWN_DATA := "unknown data, probably partitions"

  // ---------------------------------------------------------------- requests

  datatype Capability =
    | NoCapability
    | BlockAccess
    | MountAccess(fsType: string, flags: seq<string>)
    | UnknownAccess

  /** `gates` are the features the driver was started with. */
  datatype NodeRequest =
    | Stage(volumeId: string, path: Path, capability: Capability, gates: seq<string>)
    | Unstage(volumeId: string, path: Path)
    | Publish(volumeId: string, path: Path, staging: Path, capability: Capability, accessModeOk: bool,
              readonly: bool, gates: seq<string>)
    | Unpublish(volumeId: string, path: Path)

  datatype NodeOutcome = Ok | Err(code: Code)

  // ---------------------------------------------------------------- actions and answers

  datatype Action =
    | TryLock(key: Key)
    | Unlock(key: Key)
    | CheckMount(path: Path)
    | MakeDir(path: Path)
    | EnsureTarget(path: Path, block: bool)
    | FindDevice(serial: string)
    | Fsck(dev: Path)
    | Mount(source: Path, path: Path, fsType: string, options: seq<string>)
    | Probe(dev: Path)
    | Blkid(dev: Path)
    | Mkfs(dev: Path, fsType: string, args: seq<string>)
    | NeedResize(dev: Path, path: Path)
    | Resize(dev: Path, path: Path)
    | Cleanup(path: Path)

  datatype Reply =
    | Granted
    | Denied
    | Released
    | Succeeded
    | Failed
    | Mounted
    | NotMounted
    | PathMissing
    | Device(dev: Path)
    | Exit(status: int)
    | Format(format: string)
    | Types(fsType: string, ptType: string)
    | Yes
    | No

  // ---------------------------------------------------------------- formatting and mounting

  /** The arguments of one `FormatAndMount`. */
  datatype FsJob = FsJob(source: Path, target: Path, fsType: string, mkfsOptions: seq<string>,
                         mountOptions: seq<string>, omitFsCheck: bool)

  predicate ReadOnly(job: FsJob) {
    RO in job.mountOptions
  }

  function UsedMountOptions(job: FsJob): seq<string> {
    if job.mountOptions == [] then [DEFAULTS] else job.mountOptions
  }

  function MkfsDefaultArgs(fsType: string, source: Path): seq<string> {
    if fsType == EXT4 || fsType == EXT3 then ["-F", "-m0", "-E", "nodiscard", source]
    else if fsType == XFS then ["-f", "-K", source]
    else []
  }

  function MkfsType(job: FsJob): string {
    if job.fsType == "" then EXT4 else job.fsType
  }

  function MkfsArgs(job: FsJob): seq<string> {
    if job.mkfsOptions != [] then job.mkfsOptions + [job.source] else MkfsDefaultArgs(MkfsType(job), job.source)
  }

  datatype FsAt = FsFsck | FsMount | FsProbe | FsBlkid | FsMkfs | FsRemount

  function FsActionOf(job: FsJob, at: FsAt): Action {
    match at
    case FsFsck => Fsck(job.source)
    case FsMount => Mount(job.source, job.target, job.fsType, UsedMountOptions(job))
    case FsProbe => Probe(job.source)
    case FsBlkid => Blkid(job.source)
    case FsMkfs => Mkfs(job.source, MkfsType(job), MkfsArgs(job))
    case FsRemount => Mount(job.source, job.target, MkfsType(job), UsedMountOptions(job))
  }

  datatype FsVerdict = FsGoto(at: FsAt) | FsMounted | FsError

  function FsStart(job: FsJob): FsAt {
    if !ReadOnly(job) && !job.omitFsCheck then FsFsck else FsMount
  }

  function FsFormat(job: FsJob): FsVerdict {
    if ReadOnly(job) then FsError else FsGoto(FsMkfs)
  }

  const FSCK_ERRORS_UNCORRECTED := 4

  function FsAdvance(job: FsJob, at: FsAt, r: Reply): FsVerdict {
    match at
    case FsFsck => if r == Exit(FSCK_ERRORS_UNCORRECTED) then FsError else FsGoto(FsMount)
    case FsMount => if r == Succeeded then FsMounted else FsGoto(FsProbe)
    case FsProbe =>
      if !r.Format? then FsError
      else if r.format == "" then FsFormat(job)
      else if job.fsType == "" || job.fsType == r.format then FsError
      else if r.format == UNKNOWN_DATA then FsGoto(FsBlkid)
      else FsError
    case FsBlkid => if r == Types("", ATARI) then FsFormat(job) else FsError
    case FsMkfs => if r == Succeeded then FsGoto(FsRemount) else FsError
    case FsRemount => if r == Succeeded then FsMounted else FsError
  }

  // ---------------------------------------------------------------- program points

  datatype At =
    | StCheck
    | StMkdir
    | StFind
    | StFs(job: FsJob, fsAt: FsAt)
    | StNeedResize(dev: Path)
    | StResize(dev: Path)
    | UndoCleanup
    | PuFind
    | PuEnsure(source: Path)
    | PuCheck(source: Path)
    | PuMount(source: Path)

  datatype Verdict = Goto(at: At) | Return(outcome: NodeOutcome)

  datatype Phase = Locking | Running(at: At) | Unwinding(outcome: NodeOutcome) | Finished(outcome: NodeOutcome)

  datatype Rpc = Rpc(req: NodeRequest, phase: Phase, held: seq<Key>)

  // ---------------------------------------------------------------- entering an RPC

  /** The key an RPC locks: the volume's id, or for the undoing RPCs the raw id if it does not parse. */
  function KeyOf(req: NodeRequest): Key {
    var p := VolumeId.ParseCsiVolId(req.volumeId);
    if p.Some? then p.value.volId else req.volumeId
  }

  function SerialOf(req: NodeRequest): string {
    var p := VolumeId.ParseCsiVolId(req.volumeId);
    if p.Some? then p.value.serial else ""
  }

  predicate Undoes(req: NodeRequest) {
    req.Unstage? || req.Unpublish?
  }

  function Precheck(req: NodeRequest): Option<NodeOutcome> {
    if |req.volumeId| == 0 || |req.path| == 0 then Some(Err(InvalidArgument))
    else if Undoes(req) then None
    else if req.capability.NoCapability? then Some(Err(InvalidArgument))
    else if req.Publish? && (!req.accessModeOk || |req.staging| == 0) then Some(Err(FailedPrecondition))
    else if VolumeId.ParseCsiVolId(req.volumeId).None? then Some(Err(NotFound))
    else if req.Stage? && req.capability.BlockAccess? then Some(Ok)
    else None
  }

  function Start(req: NodeRequest): Rpc {
    match Precheck(req)
    case Some(o) => Rpc(req, Finished(o), [])
    case None => Rpc(req, Locking, [])
  }

  predicate CheckFsType(fsType: string) {
    fsType == EXT4 || fsType == XFS || fsType == EXT3
  }

  function FsTypeOf(c: Capability): string {
    if c.MountAccess? && c.fsType != "" then c.fsType else EXT4
  }

  /** The caller's mount flags, once for each mention of the feature that admits them. */
  function GatedFlags(gates: seq<string>, flags: seq<string>): seq<string> {
    if gates == [] then []
    else GatedFlags(gates[..|gates| - 1], flags) + if gates[|gates| - 1] == MOUNT_OPTIONS_FEATURE then flags else []
  }

  function StageJob(req: NodeRequest, dev: Path): FsJob
    requires req.Stage? && req.capability.MountAccess?
  {
    FsJob(dev, req.path, FsTypeOf(req.capability), [], GatedFlags(req.gates, req.capability.flags), false)
  }

  function PublishOptions(req: NodeRequest): seq<string>
    requires req.Publish?
  {
    [BIND] + (if req.readonly then [RO] else [])
    + if req.capability.MountAccess? then GatedFlags(req.gates, req.capability.flags) else []
  }

  /** A publish in mount mode, or once its device is known, checks the file system type. */
  function EnterPublish(req: NodeRequest, source: Path): Verdict
    requires req.Publish?
  {
    if CheckFsType(FsTypeOf(req.capability)) then Goto(PuEnsure(source)) else Return(Err(InvalidArgument))
  }

  function AfterLock(req: NodeRequest): Verdict {
    match req
    case Stage(_, _, c, _) =>
      if c.MountAccess? && CheckFsType(FsTypeOf(c)) then Goto(StCheck) else Return(Err(InvalidArgument))
    case Publish(_, _, staging, c, _, _, _) => if c.BlockAccess? then Goto(PuFind) else EnterPublish(req, staging)
    case _ => Goto(UndoCleanup)
  }

  // ---------------------------------------------------------------- continuing

  function ActionOf(req: NodeRequest, at: At): Action {
    match at
    case StCheck => CheckMount(req.path)
    case StMkdir => MakeDir(req.path)
    case StFind => FindDevice(SerialOf(req))
    case StFs(job, fsAt) => FsActionOf(job, fsAt)
    case StNeedResize(dev) => NeedResize(dev, req.path)
    case StResize(dev) => Resize(dev, req.path)
    case UndoCleanup => Cleanup(req.path)
    case PuFind => FindDevice(SerialOf(req))
    case PuEnsure(_) => EnsureTarget(req.path, req.Publish? && req.capability.BlockAccess?)
    case PuCheck(_) => CheckMount(req.path)
    case PuMount(source) =>
      Mount(source, req.path, if req.Publish? then FsTypeOf(req.capability) else "",
            if req.Publish? then PublishOptions(req) else [])
  }

  function Advance(req: NodeRequest, at: At, r: Reply): Verdict {
    match at
    case StCheck =>
      if r == Mounted then Return(Ok)
      else if r == NotMounted then Goto(StFind)
      else if r == PathMissing then Goto(StMkdir)
      else Return(Err(Internal))
    case StMkdir => if r == Succeeded then Goto(StFind) else Return(Err(Internal))
    case StFind =>
      if r.Device? && req.Stage? && req.capability.MountAccess?
      then var job := StageJob(req, r.dev); Goto(StFs(job, FsStart(job)))
      else Return(Err(NotFound))
    case StFs(job, fsAt) => (
      match FsAdvance(job, fsAt, r)
      case FsGoto(next) => Goto(StFs(job, next))
      case FsMounted => Goto(StNeedResize(job.source))
      case FsError => Return(Err(Internal)))
    case StNeedResize(dev) => if r == Yes then Goto(StResize(dev)) else Return(Ok)
    case StResize(_) => if r == Succeeded then Return(Ok) else Return(Err(Internal))
    case UndoCleanup => if r == Succeeded then Return(Ok) else Return(Err(Internal))
    case PuFind => if r.Device? && req.Publish? then EnterPublish(req, r.dev) else Return(Err(NotFound))
    case PuEnsure(source) => if r == Succeeded then Goto(PuCheck(source)) else Return(Err(Internal))
    case PuCheck(source) =>
      if r == Mounted then Return(Ok) else if r == NotMounted then Goto(PuMount(source)) else Return(Err(Internal))
    case PuMount(_) => if r == Succeeded then Return(Ok) else Return(Err(Internal))
  }

  function Leave(t: Rpc, o: NodeOutcome): Rpc {
    t.(phase := if t.held == [] then Finished(o) else Unwinding(o))
  }

  function Follow(t: Rpc, v: Verdict): Rpc {
    match v
    case Goto(at) => t.(phase := Running(at))
    case Return(o) => Leave(t, o)
  }

  predicate Active(t: Rpc) {
    !t.phase.Finished? && (t.phase.Unwinding? ==> t.held != [])
  }

  function NextAction(t: Rpc): Action
    requires Active(t)
  {
    match t.phase
    case Locking => TryLock(KeyOf(t.req))
    case Running(at) => ActionOf(t.req, at)
    case Unwinding(_) => Unlock(t.held[0])
  }

  function Resume(t: Rpc, r: Reply): Rpc
    requires Active(t)
  {
    match t.phase
    case Locking =>
      if r == Granted then Follow(t.(held := [KeyOf(t.req)] + t.held), AfterLock(t.req)) else Leave(t, Err(Aborted))
    case Running(at) => Follow(t, Advance(t.req, at, r))
    case Unwinding(o) => Leave(t.(held := t.held[1..]), o)
  }

  // ---------------------------------------------------------------- what holds inside every RPC

  /** The point belongs to the request, and what was checked on the way to it. */
  predicate Reaches(req: NodeRequest, at: At) {
    match at
    case StFs(job, fsAt) =>
      && req.Stage? && req.capability.MountAccess? && job == StageJob(req, job.source) && CheckFsType(job.fsType)
      && (fsAt.FsFsck? || fsAt.FsMkfs? || fsAt.FsRemount? ==> !ReadOnly(job))
    case UndoCleanup => Undoes(req)
    case PuFind => req.Publish? && req.capability.BlockAccess?
    case PuEnsure(source) => req.Publish? && (!req.capability.BlockAccess? ==> source == req.staging)
    case PuCheck(source) => req.Publish? && (!req.capability.BlockAccess? ==> source == req.staging)
    case PuMount(source) => req.Publish? && (!req.capability.BlockAccess? ==> source == req.staging)
    case _ => req.Stage? && req.capability.MountAccess? && CheckFsType(FsTypeOf(req.capability))
  }

  predicate WellFormedRpc(t: Rpc) {
    && (!t.phase.Finished? ==> Precheck(t.req).None?)
    && match t.phase
       case Locking => t.held == []
       case Running(at) => Reaches(t.req, at) && t.held == [KeyOf(t.req)]
       case Unwinding(_) => t.held == [KeyOf(t.req)]
       case Finished(_) => t.held == []
  }

  lemma StartIsWellFormed(req: NodeRequest)
    ensures WellFormedRpc(Start(req)) && Start(req).req == req
  {
  }

  lemma AdvanceReaches(req: NodeRequest, at: At, r: Reply)
    requires Reaches(req, at)
    ensures Advance(req, at, r).Goto? ==> Reaches(req, Advance(req, at, r).at)
  {
  }

  /** Every answer whatsoever keeps an RPC well formed. */
  lemma ResumeIsWellFormed(t: Rpc, r: Reply)
    requires WellFormedRpc(t) && Active(t)
    ensures WellFormedRpc(Resume(t, r)) && Resume(t, r).req == t.req
  {
    if t.phase.Running? {
      AdvanceReaches(t.req, t.phase.at, r);
    }
  }

  /** The one key changes hands only in lock operations, and a finished RPC holds nothing. */
  lemma StackDiscipline(t: Rpc, r: Reply)
    requires WellFormedRpc(t) && Active(t)
    ensures var t' := Resume(t, r); var a := NextAction(t);
      && (a.TryLock? ==> t'.held == if r == Granted then [a.key] + t.held else t.held)
      && (a.Unlock? ==> t.held == [a.key] + t'.held)
      && (!a.TryLock? && !a.Unlock? ==> t'.held == t.held)
      && (t'.phase.Finished? ==> t'.held == [])
  {
  }

  // ---------------------------------------------------------------- options

  /** A flag takes effect exactly when the caller passes it and the feature is enabled. */
  lemma {:induction false} GatedFlagsMeaning(gates: seq<string>, flags: seq<string>, flag: string)
    ensures flag in GatedFlags(gates, flags) <==> MOUNT_OPTIONS_FEATURE in gates && flag in flags
  {
    if gates != [] {
      var before, last := gates[..|gates| - 1], gates[|gates| - 1];
      GatedFlagsMeaning(before, flags, flag);
      assert gates == before + [last];
      assert MOUNT_OPTIONS_FEATURE in gates <==> MOUNT_OPTIONS_FEATURE in before || last == MOUNT_OPTIONS_FEATURE;
    }
  }

  /** Every mkfs of the driver names its device last, and is told not to discard the device first. */
  lemma MkfsNeverDiscards(req: NodeRequest, job: FsJob, at: FsAt)
    requires Reaches(req, StFs(job, at))
    ensures var args := MkfsArgs(job);
      args != [] && args[|args| - 1] == job.source && ("nodiscard" in args || "-K" in args)
  {
    if job.fsType == XFS {
      assert MkfsArgs(job)[1] == "-K";
    } else {
      assert MkfsArgs(job)[3] == "nodiscard";
    }
  }
}
