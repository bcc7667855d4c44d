/**
 The controller RPCs as programs that talk to the lock set and to the cloud.

 An RPC in progress is a value `Rpc`. `NextAction` says which single lock operation or
 cloud call it makes next, and `Resume` how it goes on when that is answered. Everything
 between two calls is local to the RPC, so this is the granularity at which RPCs
 interleave. Keys to give back are kept as the stack of deferred releases.
 */
module ControllerProgram {
  import opened Wrappers
  import opened RpcCodes
  import opened Capacity
  import opened CloudTypes
  import opened Polling
  import opened Paging
  import opened Topology
  import opened Locks
  import VolumeId

  const DRIVER_NAME := "disk.csi.zenlayer.com"
  const MAX_NAME_LEN := 64
  const MAX_RELEASE_DISK_TIMES: nat := 2

  // ---------------------------------------------------------------- the cloud API

  datatype Call =
    | DescribeDisk(id: Id)
    | ListDisks(name: string, zone: string, group: string, pageNum: nat)
    | DescribeInstance(vm: Id)
    | CreateDisk(name: string, size: int64, typ: VolumeType, zone: string, group: string, fromSnap: Option<Id>)
    | ReleaseDisk(id: Id)
    | AttachDisk(id: Id, vm: Id)
    | DetachDisk(id: Id)
    | ResizeDisk(id: Id, size: int64)
    | DescribeSnap(id: Id)
    | ListSnaps(name: string, zone: string, group: string, pageNum: nat)
    | CreateSnap(name: string, src: Id)
    | DeleteSnap(id: Id)

  /** Answers; `TimerFired` is the wait giving up instead of polling once more. */
  datatype Reply =
    | Granted
    | Denied
    | Released
    | ApiError
    | ResourceNotFound
    | Accepted
    | PartlyRefused
    | Disks(disks: seq<Disk>)
    | Snaps(snaps: seq<Snap>)
    | DiskPage(total: nat, disks: seq<Disk>)
    | SnapPage(total: nat, snaps: seq<Snap>)
    | Instances(statuses: seq<string>)
    | Created(id: Id)
    | TimerFired

  datatype Action = TryLock(key: Key) | Unlock(key: Key) | Ask(call: Call)

  // ---------------------------------------------------------------- requests and outcomes

  datatype Source = Empty | FromSnapshot(snapId: Id) | FromVolume | UnknownSource

  datatype Response =
    | Volume(csiVolId: string, capacityBytes: int64, source: Source, topology: seq<Segments>)
    | Expanded(capacityBytes: int64, nodeExpansion: bool)
    | Snapshot(snapId: Id, srcId: Id, ready: bool, sizeBytes: int64)
    | Done

  /** `StillExists` is the Internal error of a delete that ran out of release attempts. */
  datatype Outcome = Ok(response: Response) | Err(code: Code) | StillExists

  /** What CreateVolume works out from its parameters before it talks to the cloud. */
  datatype Plan =
    | Planned(zone: string, group: string, typ: VolumeType, sizeByte: int64)
    | Rejected(code: Code)

  datatype Request =
    | CreateVolume(name: string, capabilitiesOk: bool, plan: Plan, range: Option<CapacityRange>,
                   requirement: Option<TopologyRequirement>, source: Source)
    | DeleteVolume(csiVolId: string)
    | Publish(csiVolId: string, node: Id, capabilityOk: bool, readonly: bool)
    | Unpublish(csiVolId: string, node: Id)
    | Expand(csiVolId: string, range: Option<CapacityRange>, block: bool)
    | CreateSnapshot(name: string, csiVolId: string, parametersOk: bool)
    | DeleteSnapshot(snapId: Id)

  // ---------------------------------------------------------------- program points

  datatype CreateJob = CreateJob(
    name: string, zone: string, group: string, typ: VolumeType, sizeByte: int64,
    range: Option<CapacityRange>, requirement: Option<TopologyRequirement>, source: Source)

  /** At `CvPages` the lookup has `all` from the first `ra` of `calls` page calls. */
  datatype CvAt =
    | CvLookup
    | CvPages(ra: nat, calls: nat, all: seq<Disk>)
    | CvFindSnap
    | CvCreate
    | CvWait(newId: Id, polled: bool)
    | CvRefind(newId: Id)
  datatype DvAt =
    | DvFind(times: nat)
    | DvRelease(times: nat, last: bool)
    | DvWaitGone(times: nat, polled: bool)
    | DvWaitReleased(times: nat, polled: bool)
  datatype PbAt = PbFind | PbVm(vol: Disk) | PbAttach(vol: Disk) | PbWait(vol: Disk, polled: bool) | PbRefind
  datatype UpAt = UpFind | UpDetach(vol: Disk) | UpWait(vol: Disk, polled: bool)
  datatype ExAt = ExFind | ExResize(vol: Disk, gib: int64) | ExWait(vol: Disk, gib: int64, polled: bool)
  datatype CsAt =
    | CsFind
    | CsLookup(vol: Disk)
    | CsPages(vol: Disk, ra: nat, calls: nat, all: seq<Snap>)
    | CsCreate(vol: Disk)
    | CsWait(vol: Disk, newId: Id, polled: bool)
    | CsRefind(vol: Disk, newId: Id)
  datatype DsAt = DsFind | DsDelete | DsWait(polled: bool)

  datatype Body =
    | Cv(job: CreateJob, cvAt: CvAt)
    | Dv(id: Id, dvAt: DvAt)
    | Pb(id: Id, node: Id, pbAt: PbAt)
    | Up(id: Id, node: Id, upAt: UpAt)
    | Ex(id: Id, range: Option<CapacityRange>, block: bool, exAt: ExAt)
    | Cs(name: string, id: Id, parametersOk: bool, csAt: CsAt)
    | Ds(snapId: Id, dsAt: DsAt)

  /** What the code does with an answer: go on, try to take another lock, or return. */
  datatype Verdict = Goto(body: Body) | Lock(key: Key, body: Body) | Return(outcome: Outcome)

  datatype Phase =
    | Locking(key: Key, granted: Verdict)
    | Running(body: Body)
    | Unwinding(outcome: Outcome)
    | Finished(outcome: Outcome)

  datatype Rpc = Rpc(req: Request, phase: Phase, defers: seq<Key>)

  // ---------------------------------------------------------------- entering an RPC

  function JobOf(req: Request): CreateJob
    requires req.CreateVolume? && req.plan.Planned?
  {
    CreateJob(req.name, req.plan.zone, req.plan.group, req.plan.typ, req.plan.sizeByte,
              req.range, req.requirement, req.source)
  }

  function VolIdOr(csiVolId: string, default: Id): Id {
    var p := VolumeId.ParseCsiVolId(csiVolId);
    if p.Some? then p.value.volId else default
  }

  /** The key an RPC locks first; empty when the request is answered before any lock. */
  function MainKey(req: Request): Key {
    match req
    case CreateVolume(name, _, _, _, _, _) => name
    case DeleteSnapshot(snapId) => snapId
    case _ => VolIdOr(req.csiVolId, "")
  }

  /** Where the RPC goes once it holds its first key. */
  function AfterMainLock(req: Request): Verdict {
    var id := MainKey(req);
    match req
    case CreateVolume(_, _, plan, _, _, _) =>
      if plan.Planned? then Goto(Cv(JobOf(req), CvLookup)) else Return(Err(plan.code))
    case DeleteVolume(_) => Goto(Dv(id, DvFind(1)))
    case Publish(_, node, _, _) => Goto(Pb(id, node, PbFind))
    case Unpublish(_, node) => Goto(Up(id, node, UpFind))
    case Expand(_, range, block) => Goto(Ex(id, range, block, ExFind))
    case CreateSnapshot(name, _, parametersOk) => Goto(Cs(name, id, parametersOk, CsFind))
    case DeleteSnapshot(_) => Goto(Ds(id, DsFind))
  }

  /** The answer given before any lock is tried, if there is one. */
  function Precheck(req: Request): Option<Outcome> {
    match req
    case CreateVolume(name, capabilitiesOk, _, _, _, _) =>
      if !capabilitiesOk || |name| == 0 || |name| > MAX_NAME_LEN then Some(Err(InvalidArgument)) else None
    case DeleteVolume(csiVolId) =>
      if |csiVolId| == 0 then Some(Err(InvalidArgument))
      else if VolumeId.ParseCsiVolId(csiVolId).None? then Some(Ok(Done))
      else None
    case Publish(csiVolId, node, capabilityOk, readonly) =>
      if |csiVolId| == 0 || |node| == 0 || !capabilityOk || readonly then Some(Err(InvalidArgument))
      else if VolumeId.ParseCsiVolId(csiVolId).None? then Some(Err(NotFound))
      else None
    case Unpublish(csiVolId, node) =>
      if |csiVolId| == 0 || |node| == 0 then Some(Err(InvalidArgument))
      else if VolumeId.ParseCsiVolId(csiVolId).None? then Some(Ok(Done))
      else None
    case Expand(csiVolId, _, _) =>
      if |csiVolId| == 0 then Some(Err(InvalidArgument))
      else if VolumeId.ParseCsiVolId(csiVolId).None? then Some(Err(NotFound))
      else None
    case CreateSnapshot(name, csiVolId, _) =>
      if |csiVolId| == 0 || |name| == 0 || |name| > MAX_NAME_LEN then Some(Err(InvalidArgument))
      else if VolumeId.ParseCsiVolId(csiVolId).None? then Some(Err(NotFound))
      else None
    case DeleteSnapshot(snapId) =>
      if |snapId| == 0 then Some(Err(InvalidArgument)) else None
  }

  function Start(req: Request): Rpc {
    match Precheck(req)
    case Some(o) => Rpc(req, Finished(o), [])
    case None => Rpc(req, Locking(MainKey(req), AfterMainLock(req)), [])
  }

  // ---------------------------------------------------------------- calls

  function SizeGib(job: CreateJob): int64 {
    ByteCeilToGib(job.sizeByte)
  }

  function SnapOf(job: CreateJob): Option<Id> {
    if job.source.FromSnapshot? then Some(job.source.snapId) else None
  }

  function CallOf(b: Body): Call {
    match b
    case Cv(job, at) => (
      match at
      case CvLookup => ListDisks(job.name, job.zone, job.group, 1)
      case CvPages(ra, _, _) => ListDisks(job.name, job.zone, job.group, ra + 1)
      case CvFindSnap => DescribeSnap(if job.source.FromSnapshot? then job.source.snapId else "")
      case CvCreate => CreateDisk(job.name, SizeGib(job), job.typ, job.zone, job.group, SnapOf(job))
      case CvWait(newId, _) => DescribeDisk(newId)
      case CvRefind(newId) => DescribeDisk(newId))
    case Dv(id, at) => if at.DvRelease? then ReleaseDisk(id) else DescribeDisk(id)
    case Pb(id, node, at) => (
      match at
      case PbVm(_) => DescribeInstance(node)
      case PbAttach(_) => AttachDisk(id, node)
      case _ => DescribeDisk(id))
    case Up(id, _, at) => if at.UpDetach? then DetachDisk(id) else DescribeDisk(id)
    case Ex(id, _, _, at) => if at.ExResize? then ResizeDisk(id, at.gib) else DescribeDisk(id)
    case Cs(name, id, _, at) => (
      match at
      case CsFind => DescribeDisk(id)
      case CsLookup(vol) => ListSnaps(name, vol.zone, vol.group, 1)
      case CsPages(vol, ra, _, _) => ListSnaps(name, vol.zone, vol.group, ra + 1)
      case CsCreate(_) => CreateSnap(name, id)
      case CsWait(_, newId, _) => DescribeSnap(newId)
      case CsRefind(_, newId) => DescribeSnap(newId))
    case Ds(snapId, at) => if at.DsDelete? then DeleteSnap(snapId) else DescribeSnap(snapId)
  }

  /** The RPC is inside a wait that has polled at least once, so its timer may fire. */
  predicate MayTimeOut(b: Body) {
    match b
    case Cv(_, at) => at.CvWait? && at.polled
    case Dv(_, at) => (at.DvWaitGone? || at.DvWaitReleased?) && at.polled
    case Pb(_, _, at) => at.PbWait? && at.polled
    case Up(_, _, at) => at.UpWait? && at.polled
    case Ex(_, _, _, at) => at.ExWait? && at.polled
    case Cs(_, _, _, at) => at.CsWait? && at.polled
    case Ds(_, at) => at.DsWait? && at.polled
  }

  // ---------------------------------------------------------------- reading answers

  datatype One<T> = Single(it: T) | Missing | Unreadable

  /** A query by id: an error, no such thing, or the one thing; more than one is an error. */
  function OneDisk(r: Reply): One<Disk> {
    if r.Disks? && r.disks == [] then Missing
    else if r.Disks? && |r.disks| == 1 then Single(r.disks[0])
    else Unreadable
  }

  function OneSnap(r: Reply): One<Snap> {
    if r.Snaps? && r.snaps == [] then Missing
    else if r.Snaps? && |r.snaps| == 1 then Single(r.snaps[0])
    else Unreadable
  }

  datatype WaitFor = WaitAvailable | WaitInUse | WaitStable | WaitDeleted | WaitReleased | WaitSnapAvailable | WaitSnapDeleted

  /** One evaluation of the polled function of each kind of wait. */
  function Judge(w: WaitFor, r: Reply): Poll {
    match w
    case WaitDeleted => if !r.Disks? then Fail else if r.disks == [] then Stop else Again
    case WaitSnapDeleted => if !r.Snaps? then Fail else if r.snaps == [] then Stop else Again
    case WaitSnapAvailable =>
      if !OneSnap(r).Single? then Fail else if OneSnap(r).it.status == SnapAvailable then Stop else Again
    case WaitReleased => (
      match OneDisk(r)
      case Missing => Stop
      case Unreadable => Fail
      case Single(d) => if d.status == Recycled then Stop else Again)
    case _ =>
      if !OneDisk(r).Single? then Fail else
      var s := OneDisk(r).it.status;
      if (w != WaitInUse && s == Available) || (w != WaitAvailable && s == InUse) then Stop else Again
  }

  function WaitResume(w: WaitFor, r: Reply, again: Body, stop: Verdict): Verdict {
    match Judge(w, r)
    case Stop => stop
    case Again => Goto(again)
    case Fail => Return(Err(Internal))
  }

  // ---------------------------------------------------------------- continuing

  /** The existing disk is what the request asks for. */
  predicate Compatible(d: Disk, job: CreateJob) {
    && IsValidCapacityBytes(GibToByte(d.size), job.range)
    && IsValidTopology(DRIVER_NAME, d.zone, d.typ, job.requirement)
    && d.typ == job.typ
  }

  /** The response naming a disk, or "retry later" while its id or serial is not known. */
  function VolumeAnswer(d: Disk, capacity: int64, source: Source): Outcome {
    if d.id == "" || d.serial == "" then Err(Aborted)
    else Ok(Volume(VolumeId.GenCsiVolId(d.id, d.serial), capacity, source, VolumeTopology(DRIVER_NAME, d.zone, d.typ)))
  }

  /** The cloud manager refuses to create with any of these arguments missing. */
  predicate Creatable(job: CreateJob) {
    job.name != "" && SizeGib(job) != 0 && job.zone != "" && job.group != ""
  }

  function ToCreate(job: CreateJob): Verdict {
    if Creatable(job) then Goto(Cv(job, CvCreate)) else Return(Err(Internal))
  }

  function AfterNoDisk(job: CreateJob): Verdict {
    match job.source
    case Empty => ToCreate(job)
    case FromSnapshot(snapId) =>
      if |snapId| == 0 then Return(Err(InvalidArgument)) else Lock(snapId, Cv(job, CvFindSnap))
    case FromVolume => Return(Err(Unimplemented))
    case UnknownSource => Return(Err(Internal))
  }

  /** What CreateVolume decides from the lookup by name. */
  function AfterLookup(job: CreateJob, found: DiskLookup): Verdict {
    match found
    case Found(d) =>
      if Compatible(d, job) then Return(VolumeAnswer(d, GibToByte(d.size), job.source)) else Return(Err(AlreadyExists))
    case SizeConflict(_) => Return(Err(AlreadyExists))
    case NotThere => AfterNoDisk(job)
    case LookupFailed => Return(Err(Internal))
  }

  /** What the search by name makes of the entries it has collected. */
  function LookupIn(job: CreateJob, list: seq<Disk>): DiskLookup {
    FirstMatch(list, job.zone, SizeGib(job), job.typ)
  }

  function AdvanceCv(job: CreateJob, at: CvAt, r: Reply): Verdict {
    match at
    case CvLookup =>
      if !r.DiskPage? then Return(Err(Internal))
      else if r.total > PAGE_SIZE then Goto(Cv(job, CvPages(0, PageCount(r.total), [])))
      else AfterLookup(job, LookupIn(job, if r.total == 0 then [] else r.disks))
    case CvPages(ra, calls, all) =>
      if !r.DiskPage? then Return(Err(Internal))
      else if ra + 1 < calls then Goto(Cv(job, CvPages(ra + 1, calls, all + r.disks)))
      else AfterLookup(job, LookupIn(job, all + r.disks))
    case CvFindSnap => (
      match OneSnap(r)
      case Unreadable => Return(Err(Internal))
      case Missing => Return(Err(NotFound))
      case Single(s) => if s.diskAbility then ToCreate(job) else Return(Err(Internal)))
    case CvCreate =>
      if r.Created? && r.id != "" then Goto(Cv(job, CvWait(r.id, false))) else Return(Err(Internal))
    case CvWait(newId, _) =>
      WaitResume(WaitAvailable, r, Cv(job, CvWait(newId, true)), Goto(Cv(job, CvRefind(newId))))
    case CvRefind(_) => (
      match OneDisk(r)
      case Unreadable => Return(Err(Internal))
      case Missing => Return(Err(Aborted))
      case Single(d) => Return(VolumeAnswer(d, GibToByte(SizeGib(job)), job.source)))
  }

  function AdvanceDv(id: Id, at: DvAt, r: Reply): Verdict {
    match at
    case DvFind(times) => (
      match OneDisk(r)
      case Unreadable => Return(Err(Internal))
      case Missing => Return(Ok(Done))
      case Single(d) => Goto(Dv(id, DvRelease(times, d.status == Recycled))))
    case DvRelease(times, last) =>
      if r == ResourceNotFound then Return(Ok(Done))
      else if r != Accepted then Return(Err(Internal))
      else Goto(Dv(id, if last then DvWaitGone(times, false) else DvWaitReleased(times, false)))
    case DvWaitGone(times, _) =>
      WaitResume(WaitDeleted, r, Dv(id, DvWaitGone(times, true)), Return(Ok(Done)))
    case DvWaitReleased(times, _) =>
      WaitResume(WaitReleased, r, Dv(id, DvWaitReleased(times, true)),
                 if OneDisk(r).Missing? then Return(Ok(Done))
                 else if times < MAX_RELEASE_DISK_TIMES then Goto(Dv(id, DvFind(times + 1)))
                 else Return(StillExists))
  }

  function AdvancePb(id: Id, node: Id, at: PbAt, r: Reply): Verdict {
    match at
    case PbFind => (
      match OneDisk(r)
      case Unreadable => Return(Err(Internal))
      case Missing => Return(Err(NotFound))
      case Single(d) => Goto(Pb(id, node, PbVm(d))))
    case PbVm(vol) =>
      if !r.Instances? || |r.statuses| > 1 then Return(Err(Internal))
      else if r.statuses == [] then Return(Err(NotFound))
      else if r.statuses[0] != VM_STATUS_RUNNING then Return(Err(FailedPrecondition))
      else if vol.instance == "" then Goto(Pb(id, node, PbAttach(vol)))
      else if vol.instance == node then Return(Ok(Done))
      else Return(Err(FailedPrecondition))
    case PbAttach(vol) =>
      if r == Accepted then Goto(Pb(id, node, PbWait(vol, false))) else Return(Err(Internal))
    case PbWait(vol, _) =>
      WaitResume(WaitInUse, r, Pb(id, node, PbWait(vol, true)), Goto(Pb(id, node, PbRefind)))
    case PbRefind => (
      match OneDisk(r)
      case Unreadable => Return(Err(Internal))
      case Missing => Return(Err(NotFound))
      case Single(d) => Return(if d.instance == node then Ok(Done) else Err(Internal)))
  }

  function AdvanceUp(id: Id, node: Id, at: UpAt, r: Reply): Verdict {
    match at
    case UpFind => (
      match OneDisk(r)
      case Unreadable => Return(Err(Internal))
      case Missing => Return(Ok(Done))
      case Single(d) =>
        if d.instance == "" || d.instance != node then Return(Ok(Done)) else Goto(Up(id, node, UpDetach(d))))
    case UpDetach(vol) =>
      if r == Accepted then Goto(Up(id, node, UpWait(vol, false))) else Return(Err(Internal))
    case UpWait(vol, _) =>
      WaitResume(WaitAvailable, r, Up(id, node, UpWait(vol, true)), Return(Ok(Done)))
  }

  /** The size an expansion asks of the cloud, in GiB. */
  function ExpandGib(range: Option<CapacityRange>): Result<int64, SizeError> {
    match GetRequiredVolumeSizeByte(ZEC_LIMITS, range)
    case Failure(e) => Failure(e)
    case Success(bytes) => Success(ByteCeilToGib(bytes))
  }

  function AdvanceEx(id: Id, range: Option<CapacityRange>, block: bool, at: ExAt, r: Reply): Verdict {
    match at
    case ExFind => (
      match OneDisk(r)
      case Unreadable => Return(Err(Internal))
      case Missing => Return(Err(NotFound))
      case Single(d) =>
        if !IsValidVolumeType(d.typ) then Return(Err(Internal))
        else if ExpandGib(range).Failure? then Return(Err(OutOfRange))
        else
          var gib := ExpandGib(range).value;
          if GibToByte(d.size) >= GibToByte(gib) then Return(Ok(Expanded(GibToByte(d.size), !block)))
          else if gib == 0 then Return(Err(Internal))
          else Goto(Ex(id, range, block, ExResize(d, gib))))
    case ExResize(vol, gib) =>
      if r == Accepted then Goto(Ex(id, range, block, ExWait(vol, gib, false))) else Return(Err(Internal))
    case ExWait(vol, gib, _) =>
      WaitResume(WaitStable, r, Ex(id, range, block, ExWait(vol, gib, true)),
                 Return(Ok(Expanded(GibToByte(gib), !block))))
  }

  function SnapAnswer(s: Snap, vol: Disk): Outcome {
    Ok(Snapshot(s.id, s.src, s.status == SnapAvailable, GibToByte(vol.size)))
  }

  /** What CreateSnapshot decides from the lookup by name. */
  function AfterSnapLookup(name: string, id: Id, parametersOk: bool, vol: Disk, found: SnapLookup): Verdict {
    match found
    case SnapFound(s) => Return(SnapAnswer(s, vol))
    case OtherSource(_) => Return(Err(AlreadyExists))
    case SnapNotThere =>
      if parametersOk then Goto(Cs(name, id, parametersOk, CsCreate(vol))) else Return(Err(InvalidArgument))
    case SnapLookupFailed => Return(Err(Internal))
  }

  function AdvanceCs(name: string, id: Id, parametersOk: bool, at: CsAt, r: Reply): Verdict {
    match at
    case CsFind => (
      match OneDisk(r)
      case Unreadable => Return(Err(Internal))
      case Missing => Return(Err(NotFound))
      case Single(d) =>
        if d.snapshotAbility then Goto(Cs(name, id, parametersOk, CsLookup(d))) else Return(Err(Internal)))
    case CsLookup(vol) =>
      if !r.SnapPage? then Return(Err(Internal))
      else if r.total > PAGE_SIZE then Goto(Cs(name, id, parametersOk, CsPages(vol, 0, PageCount(r.total), [])))
      else AfterSnapLookup(name, id, parametersOk, vol, FirstSnap(if r.total == 0 then [] else r.snaps, id))
    case CsPages(vol, ra, calls, all) =>
      if !r.SnapPage? then Return(Err(Internal))
      else if ra + 1 < calls then Goto(Cs(name, id, parametersOk, CsPages(vol, ra + 1, calls, all + r.snaps)))
      else AfterSnapLookup(name, id, parametersOk, vol, FirstSnap(all + r.snaps, id))
    case CsCreate(vol) =>
      if r.Created? && r.id != "" then Goto(Cs(name, id, parametersOk, CsWait(vol, r.id, false)))
      else Return(Err(Internal))
    case CsWait(vol, newId, _) =>
      WaitResume(WaitSnapAvailable, r, Cs(name, id, parametersOk, CsWait(vol, newId, true)),
                 Goto(Cs(name, id, parametersOk, CsRefind(vol, newId))))
    case CsRefind(vol, _) => (
      match OneSnap(r)
      case Single(s) => Return(SnapAnswer(s, vol))
      case _ => Return(Err(Internal)))
  }

  function AdvanceDs(snapId: Id, at: DsAt, r: Reply): Verdict {
    match at
    case DsFind => (
      match OneSnap(r)
      case Unreadable => Return(Err(Internal))
      case Missing => Return(Ok(Done))
      case Single(_) => Goto(Ds(snapId, DsDelete)))
    case DsDelete =>
      if r == ResourceNotFound then Return(Ok(Done))
      else if r == Accepted then Goto(Ds(snapId, DsWait(false)))
      else Return(Err(Internal))
    case DsWait(_) =>
      WaitResume(WaitSnapDeleted, r, Ds(snapId, DsWait(true)), Return(Ok(Done)))
  }

  function Advance(b: Body, r: Reply): Verdict {
    match b
    case Cv(job, at) => AdvanceCv(job, at, r)
    case Dv(id, at) => AdvanceDv(id, at, r)
    case Pb(id, node, at) => AdvancePb(id, node, at, r)
    case Up(id, node, at) => AdvanceUp(id, node, at, r)
    case Ex(id, range, block, at) => AdvanceEx(id, range, block, at, r)
    case Cs(name, id, parametersOk, at) => AdvanceCs(name, id, parametersOk, at, r)
    case Ds(snapId, at) => AdvanceDs(snapId, at, r)
  }

  // ---------------------------------------------------------------- the whole RPC

  /** Returning runs the deferred releases first. */
  function Leave(req: Request, defers: seq<Key>, o: Outcome): Rpc {
    Rpc(req, if defers == [] then Finished(o) else Unwinding(o), defers)
  }

  function Follow(req: Request, defers: seq<Key>, v: Verdict): Rpc {
    match v
    case Goto(b) => Rpc(req, Running(b), defers)
    case Lock(k, b) => Rpc(req, Locking(k, Goto(b)), defers)
    case Return(o) => Leave(req, defers, o)
  }

  /** Still owes an action: not finished, and unwinding only with keys left to give back. */
  predicate Active(t: Rpc) {
    !t.phase.Finished? && (t.phase.Unwinding? ==> t.defers != [])
  }

  function NextAction(t: Rpc): Action
    requires Active(t)
  {
    match t.phase
    case Locking(key, _) => TryLock(key)
    case Running(b) => Ask(CallOf(b))
    case Unwinding(_) => Unlock(t.defers[0])
  }

  function Resume(t: Rpc, r: Reply): Rpc
    requires Active(t)
  {
    match t.phase
    case Locking(key, granted) =>
      if r == Granted then Follow(t.req, [key] + t.defers, granted) else Leave(t.req, t.defers, Err(Aborted))
    case Running(b) => Follow(t.req, t.defers, Advance(b, r))
    case Unwinding(o) => Leave(t.req, t.defers[1..], o)
  }

  lemma ResumeKeepsRequest(t: Rpc, r: Reply)
    requires Active(t)
    ensures Resume(t, r).req == t.req
  {
  }

  // ---------------------------------------------------------------- what holds inside every RPC

  /** The keys an RPC holds at a program point, most recently taken first. */
  function KeysAt(b: Body): seq<Key> {
    match b
    case Cv(job, at) =>
      if job.source.FromSnapshot? && !at.CvLookup? && !at.CvPages? then [job.source.snapId, job.name] else [job.name]
    case Ds(snapId, _) => [snapId]
    case _ => [b.id]
  }

  /** The program point belongs to the request. */
  predicate BodyOf(b: Body, req: Request) {
    match b
    case Cv(job, _) => req.CreateVolume? && req.plan.Planned? && job == JobOf(req)
    case Dv(id, _) => req.DeleteVolume? && id == MainKey(req)
    case Pb(id, node, _) => req.Publish? && id == MainKey(req) && node == req.node && node != ""
    case Up(id, node, _) => req.Unpublish? && id == MainKey(req) && node == req.node && node != ""
    case Ex(id, range, block, _) => req.Expand? && id == MainKey(req) && range == req.range && block == req.block
    case Cs(name, id, parametersOk, _) =>
      req.CreateSnapshot? && id == MainKey(req) && name == req.name && parametersOk == req.parametersOk
    case Ds(snapId, _) => req.DeleteSnapshot? && snapId == MainKey(req)
  }

  /** What has been established on the way to a program point. */
  predicate Established(b: Body) {
    match b
    case Cv(job, at) =>
      && (at.CvPages? ==> at.ra < at.calls)
      && (at.CvFindSnap? ==> job.source.FromSnapshot?)
      && (at.CvCreate? || at.CvWait? || at.CvRefind? ==> Creatable(job) && (job.source.Empty? || job.source.FromSnapshot?))
    case Dv(_, at) => 1 <= at.times <= MAX_RELEASE_DISK_TIMES
    case Pb(_, node, at) => at.PbAttach? || at.PbWait? ==> at.vol.instance == ""
    case Up(_, node, at) => at.UpDetach? || at.UpWait? ==> at.vol.instance == node
    case Ex(_, range, _, at) =>
      at.ExResize? || at.ExWait? ==> ExpandGib(range) == Success(at.gib) && GibToByte(at.vol.size) < GibToByte(at.gib)
    case Cs(_, _, parametersOk, at) =>
      && (at.CsCreate? ==> parametersOk)
      && (at.CsPages? ==> at.ra < at.calls && 1 < at.calls && (at.ra == 0 ==> at.all == []))
    case Ds(_, _) => true
  }

  predicate WellFormedRpc(t: Rpc) {
    match t.phase
    case Locking(key, granted) =>
      || (t.defers == [] && key == MainKey(t.req) && granted == AfterMainLock(t.req) && Precheck(t.req).None?)
      || (granted.Goto? && granted.body.Cv? && granted.body.cvAt.CvFindSnap? && BodyOf(granted.body, t.req)
          && Established(granted.body) && KeysAt(granted.body) == [key] + t.defers)
    case Running(b) => BodyOf(b, t.req) && Established(b) && t.defers == KeysAt(b)
    case Unwinding(_) => t.defers != [] && t.defers[|t.defers| - 1] == MainKey(t.req)
    case Finished(_) => t.defers == []
  }

  lemma StartIsWellFormed(req: Request)
    ensures WellFormedRpc(Start(req))
  {
  }

  lemma MainKeyIsHeldLongest(b: Body, req: Request)
    requires BodyOf(b, req)
    ensures KeysAt(b)[|KeysAt(b)| - 1] == MainKey(req)
  {
  }

  lemma MainLockEstablishes(req: Request)
    requires Precheck(req).None? && AfterMainLock(req).Goto?
    ensures var b := AfterMainLock(req).body; BodyOf(b, req) && Established(b) && KeysAt(b) == [MainKey(req)]
  {
  }

  /** What a verdict reached while running `b` may be. */
  predicate GoodVerdict(b: Body, req: Request, v: Verdict) {
    match v
    case Goto(b') => BodyOf(b', req) && Established(b') && KeysAt(b') == KeysAt(b)
    case Lock(k, b') =>
      b'.Cv? && b'.cvAt.CvFindSnap? && BodyOf(b', req) && Established(b') && KeysAt(b') == [k] + KeysAt(b)
    case Return(_) => true
  }

  lemma CvGood(job: CreateJob, at: CvAt, req: Request, r: Reply)
    requires BodyOf(Cv(job, at), req) && Established(Cv(job, at))
    ensures GoodVerdict(Cv(job, at), req, AdvanceCv(job, at, r))
  {
  }

  lemma DvGood(id: Id, at: DvAt, req: Request, r: Reply)
    requires BodyOf(Dv(id, at), req) && Established(Dv(id, at))
    ensures GoodVerdict(Dv(id, at), req, AdvanceDv(id, at, r))
  {
  }

  lemma PbGood(id: Id, node: Id, at: PbAt, req: Request, r: Reply)
    requires BodyOf(Pb(id, node, at), req) && Established(Pb(id, node, at))
    ensures GoodVerdict(Pb(id, node, at), req, AdvancePb(id, node, at, r))
  {
  }

  lemma UpGood(id: Id, node: Id, at: UpAt, req: Request, r: Reply)
    requires BodyOf(Up(id, node, at), req) && Established(Up(id, node, at))
    ensures GoodVerdict(Up(id, node, at), req, AdvanceUp(id, node, at, r))
  {
  }

  lemma ExGood(id: Id, range: Option<CapacityRange>, block: bool, at: ExAt, req: Request, r: Reply)
    requires BodyOf(Ex(id, range, block, at), req) && Established(Ex(id, range, block, at))
    ensures GoodVerdict(Ex(id, range, block, at), req, AdvanceEx(id, range, block, at, r))
  {
  }

  lemma CsGood(name: string, id: Id, parametersOk: bool, at: CsAt, req: Request, r: Reply)
    requires BodyOf(Cs(name, id, parametersOk, at), req) && Established(Cs(name, id, parametersOk, at))
    ensures GoodVerdict(Cs(name, id, parametersOk, at), req, AdvanceCs(name, id, parametersOk, at, r))
  {
  }

  lemma DsGood(id: Id, at: DsAt, req: Request, r: Reply)
    requires BodyOf(Ds(id, at), req) && Established(Ds(id, at))
    ensures GoodVerdict(Ds(id, at), req, AdvanceDs(id, at, r))
  {
  }

  lemma AdvanceIsGood(b: Body, req: Request, r: Reply)
    requires BodyOf(b, req) && Established(b)
    ensures GoodVerdict(b, req, Advance(b, r))
  {
    match b
    case Cv(job, at) => CvGood(job, at, req, r);
    case Dv(id, at) => DvGood(id, at, req, r);
    case Pb(id, node, at) => PbGood(id, node, at, req, r);
    case Up(id, node, at) => UpGood(id, node, at, req, r);
    case Ex(id, range, block, at) => ExGood(id, range, block, at, req, r);
    case Cs(name, id, parametersOk, at) => CsGood(name, id, parametersOk, at, req, r);
    case Ds(snapId, at) => DsGood(snapId, at, req, r);
  }

  /** Every answer whatsoever keeps an RPC well formed and its request unchanged. */
  lemma ResumeIsWellFormed(t: Rpc, r: Reply)
    requires WellFormedRpc(t) && Active(t)
    ensures WellFormedRpc(Resume(t, r)) && Resume(t, r).req == t.req
  {
    match t.phase
    case Locking(key, granted) => {
      if granted.Goto? {
        MainKeyIsHeldLongest(granted.body, t.req);
      }
      if t.defers == [] && granted == AfterMainLock(t.req) && granted.Goto? && Precheck(t.req).None? {
        MainLockEstablishes(t.req);
      }
    }
    case Running(b) => {
      MainKeyIsHeldLongest(b, t.req);
      AdvanceIsGood(b, t.req, r);
    }
    case Unwinding(_) => {}
  }

  /**
   Keys change hands only in lock operations: a granted lock is pushed, a release pops the
   key it names, and nothing else touches the stack; a finished RPC holds nothing.
   */
  lemma StackDiscipline(t: Rpc, r: Reply)
    requires WellFormedRpc(t) && Active(t)
    ensures var t' := Resume(t, r); var a := NextAction(t);
      && (a.TryLock? ==> t'.defers == if r == Granted then [a.key] + t.defers else t.defers)
      && (a.Unlock? ==> t.defers == [a.key] + t'.defers)
      && (a.Ask? ==> t'.defers == t.defers)
      && (t'.phase.Finished? ==> t'.defers == [])
  {
  }
}
