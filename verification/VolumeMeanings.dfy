/**
 What the answers of the publishing, unpublishing and expanding RPCs mean, whatever the
 cloud says: when each answers OK, and with which error otherwise, told from the answers
 alone.
 */
module VolumeMeanings {
  import opened Wrappers
  import opened RpcCodes
  import opened Capacity
  import opened CloudTypes
  import opened ControllerProgram
  import opened Conversations
  import opened Stories

  // ---------------------------------------------------------------- unpublish

  /** The volume is not there, or not on the node. */
  predicate ShowsOff(r: Reply, node: Id) {
    ShowsNoDisk(r) || (ShowsDisk(r) && r.disks[0].instance != node)
  }

  /** The volume was shown off the node at first, or a detach was accepted and it was afterwards shown Available. */
  predicate Unpublished(node: Id, sights: seq<Reply>, commands: seq<Reply>) {
    && sights != []
    && (ShowsOff(sights[0], node)
        || (ShowsDiskOn(sights[0], node) && commands == [Accepted] && |sights| > 1 && ShowsDiskIn(Last(sights), Available)))
  }

  predicate UpStory(at: UpAt, sights: seq<Reply>, commands: seq<Reply>) {
    match at
    case UpFind => sights == [] && commands == []
    case UpDetach(vol) => sights == [Disks([vol])] && commands == []
    case UpWait(vol, _) => sights != [] && sights[0] == Disks([vol]) && commands == [Accepted]
  }

  /** The outcome, told entirely from the answers; being told nothing means that the lock was denied. */
  predicate UpEnd(node: Id, o: Outcome, sights: seq<Reply>, commands: seq<Reply>) {
    && (o == Ok(Done) <==> Unpublished(node, sights, commands))
    && (o == Err(Aborted) <==> sights == [])
    && (o == Ok(Done) || o == Err(Aborted) || o == Err(Internal))
    && |commands| <= 1 && (commands != [] ==> sights != [] && ShowsDiskOn(sights[0], node))
  }

  predicate UpLedger(t: Rpc, sights: seq<Reply>, commands: seq<Reply>) {
    t.req.Unpublish? && (
    match t.phase
    case Locking(_, _) => sights == [] && commands == []
    case Running(b) => b.Up? && UpStory(b.upAt, sights, commands)
    case _ => UpEnd(t.req.node, t.phase.outcome, sights, commands))
  }

  lemma UpAdvances(id: Id, node: Id, at: UpAt, sights: seq<Reply>, commands: seq<Reply>, e: Exchange)
    requires UpStory(at, sights, commands) && Established(Up(id, node, at)) && e.action == Ask(CallOf(Up(id, node, at))) && node != ""
    ensures match AdvanceUp(id, node, at, e.reply)
      case Goto(b) => b.Up? && UpStory(b.upAt, Told(sights, e, DiskSight), Told(commands, e, DiskCommand))
      case Lock(_, _) => false
      case Return(o) => UpEnd(node, o, Told(sights, e, DiskSight), Told(commands, e, DiskCommand))
  {
    SingleIsWhole(e.reply);
    match at
    case UpFind => {}
    case UpDetach(vol) => {}
    case UpWait(vol, _) => {}
  }

  /** An answer that describes one disk is just that. */
  lemma SingleIsWhole(r: Reply)
    ensures OneDisk(r).Single? <==> ShowsDisk(r)
    ensures ShowsDisk(r) ==> r == Disks([OneDisk(r).it])
  {
  }

  lemma UpLedgerStep(t: Rpc, sights: seq<Reply>, commands: seq<Reply>, e: Exchange)
    requires WellFormedRpc(t) && Active(t) && e.action == NextAction(t) && UpLedger(t, sights, commands)
    ensures UpLedger(Resume(t, e.reply), Told(sights, e, DiskSight), Told(commands, e, DiskCommand))
  {
    if t.phase.Running? {
      UpAdvances(t.phase.body.id, t.phase.body.node, t.phase.body.upAt, sights, commands, e);
    }
  }

  lemma {:induction false} UpLedgerHolds(req: Request, log: Log)
    requires req.Unpublish? && Precheck(req).None? && Follows(Start(req), log)
    ensures UpLedger(After(Start(req), log), Replies(log, DiskSight), Replies(log, DiskCommand))
  {
    if log != [] {
      var before := log[..|log| - 1];
      UpLedgerHolds(req, before);
      StartIsWellFormed(req);
      AfterIsWellFormed(Start(req), before);
      UpLedgerStep(After(Start(req), before), Replies(before, DiskSight), Replies(before, DiskCommand), log[|log| - 1]);
    }
  }

  /**
   An unpublish whose id parses answers OK if and only if the volume was at first shown
   missing, unattached or on another node, or a detach was accepted and the volume was
   then shown Available. It issues at most one detach, and only after the volume was shown
   on the node.
   */
  lemma UnpublishMeaning(req: Request, log: Log)
    requires req.Unpublish? && Precheck(req).None? && Follows(Start(req), log)
    requires After(Start(req), log).phase.Finished?
    ensures UpEnd(req.node, After(Start(req), log).phase.outcome, Replies(log, DiskSight), Replies(log, DiskCommand))
  {
    UpLedgerHolds(req, log);
    StartIsWellFormed(req);
    AfterIsWellFormed(Start(req), log);
  }

  // ---------------------------------------------------------------- publish

  predicate ShowsRunning(vms: seq<Reply>) {
    vms == [Instances([VM_STATUS_RUNNING])]
  }

  /**
   The volume was shown on the node already, or unattached and then, after an accepted
   attach, in use and on the node; and the node was shown RUNNING.
   */
  predicate Published(node: Id, sights: seq<Reply>, vms: seq<Reply>, commands: seq<Reply>) {
    && sights != [] && ShowsRunning(vms)
    && (ShowsDiskOn(sights[0], node)
        || (ShowsDiskOn(sights[0], "") && commands == [Accepted] && |sights| > 2
            && ShowsDiskIn(sights[|sights| - 2], InUse) && ShowsDiskOn(Last(sights), node)))
  }

  /** The node is not running, or the volume is on another one. */
  predicate Prevented(node: Id, sights: seq<Reply>, vms: seq<Reply>) {
    && sights != [] && ShowsDisk(sights[0]) && vms != [] && vms[0].Instances? && |vms[0].statuses| == 1
    && (!ShowsRunning(vms) || (!ShowsDiskOn(sights[0], "") && !ShowsDiskOn(sights[0], node)))
  }

  /** The volume or the node is not there. */
  predicate Absent(sights: seq<Reply>, vms: seq<Reply>) {
    && sights != []
    && (ShowsNoDisk(sights[0]) || vms == [Instances([])]
        || (|sights| > 2 && ShowsDiskIn(sights[|sights| - 2], InUse) && ShowsNoDisk(Last(sights))))
  }

  predicate PbStory(at: PbAt, sights: seq<Reply>, vms: seq<Reply>, commands: seq<Reply>) {
    match at
    case PbFind => sights == [] && vms == [] && commands == []
    case PbVm(vol) => sights == [Disks([vol])] && vms == [] && commands == []
    case PbAttach(vol) => sights == [Disks([vol])] && ShowsRunning(vms) && commands == []
    case PbWait(vol, _) =>
      && sights != [] && sights[0] == Disks([vol]) && (|sights| > 1 ==> !ShowsDiskIn(Last(sights), InUse))
      && ShowsRunning(vms) && commands == [Accepted]
    case PbRefind =>
      && |sights| > 1 && ShowsDiskOn(sights[0], "") && ShowsDiskIn(Last(sights), InUse)
      && ShowsRunning(vms) && commands == [Accepted]
  }

  /** The outcome, told entirely from the answers. */
  predicate PbEnd(node: Id, o: Outcome, sights: seq<Reply>, vms: seq<Reply>, commands: seq<Reply>) {
    && (o == Ok(Done) <==> Published(node, sights, vms, commands))
    && (o == Err(FailedPrecondition) <==> Prevented(node, sights, vms))
    && (o == Err(NotFound) <==> Absent(sights, vms))
    && (o == Err(Aborted) <==> sights == [])
    && (o == Ok(Done) || (o.Err? && o.code in {FailedPrecondition, NotFound, Aborted, Internal}))
    && |commands| <= 1 && (commands != [] ==> sights != [] && ShowsDiskOn(sights[0], "") && ShowsRunning(vms))
  }

  predicate PbLedger(t: Rpc, sights: seq<Reply>, vms: seq<Reply>, commands: seq<Reply>) {
    t.req.Publish? && (
    match t.phase
    case Locking(_, _) => sights == [] && vms == [] && commands == []
    case Running(b) => b.Pb? && PbStory(b.pbAt, sights, vms, commands)
    case _ => PbEnd(t.req.node, t.phase.outcome, sights, vms, commands))
  }

  /** The answers after one more exchange of a publish. */
  predicate PbFollows(node: Id, v: Verdict, sights: seq<Reply>, vms: seq<Reply>, commands: seq<Reply>) {
    match v
    case Goto(b) => b.Pb? && PbStory(b.pbAt, sights, vms, commands)
    case Lock(_, _) => false
    case Return(o) => PbEnd(node, o, sights, vms, commands)
  }

  lemma PbSees(id: Id, node: Id, at: PbAt, sights: seq<Reply>, vms: seq<Reply>, commands: seq<Reply>, r: Reply)
    requires PbStory(at, sights, vms, commands) && Established(Pb(id, node, at)) && node != ""
    requires at.PbFind? || at.PbWait? || at.PbRefind?
    ensures PbFollows(node, AdvancePb(id, node, at, r), sights + [r], vms, commands)
  {
    SingleIsWhole(r);
    match at
    case PbFind => {}
    case PbWait(vol, _) => {
      assert sights + [r] != [] && (sights + [r])[|sights| - 1] == Last(sights);
    }
    case PbRefind => {
      assert (sights + [r])[|sights| - 1] == Last(sights);
    }
  }

  lemma PbLearns(id: Id, node: Id, vol: Disk, sights: seq<Reply>, r: Reply)
    requires sights == [Disks([vol])] && node != ""
    ensures PbFollows(node, AdvancePb(id, node, PbVm(vol), r), sights, [r], [])
  {
    if r.Instances? && |r.statuses| == 1 {
      assert r == Instances([r.statuses[0]]);
    }
  }

  lemma PbCommands(id: Id, node: Id, vol: Disk, sights: seq<Reply>, vms: seq<Reply>, r: Reply)
    requires sights == [Disks([vol])] && vol.instance == "" && ShowsRunning(vms) && node != ""
    ensures PbFollows(node, AdvancePb(id, node, PbAttach(vol), r), sights, vms, [r])
  {
  }

  lemma PbLedgerStep(t: Rpc, sights: seq<Reply>, vms: seq<Reply>, commands: seq<Reply>, e: Exchange)
    requires WellFormedRpc(t) && Active(t) && e.action == NextAction(t) && PbLedger(t, sights, vms, commands)
    ensures PbLedger(Resume(t, e.reply), Told(sights, e, DiskSight), Told(vms, e, VmSight), Told(commands, e, DiskCommand))
  {
    if t.phase.Running? {
      var b := t.phase.body;
      match b.pbAt
      case PbVm(vol) => PbLearns(b.id, b.node, vol, sights, e.reply);
      case PbAttach(vol) => PbCommands(b.id, b.node, vol, sights, vms, e.reply);
      case _ => PbSees(b.id, b.node, b.pbAt, sights, vms, commands, e.reply);
    }
  }

  lemma {:induction false} PbLedgerHolds(req: Request, log: Log)
    requires req.Publish? && Precheck(req).None? && Follows(Start(req), log)
    ensures PbLedger(After(Start(req), log), Replies(log, DiskSight), Replies(log, VmSight), Replies(log, DiskCommand))
  {
    if log != [] {
      var before := log[..|log| - 1];
      PbLedgerHolds(req, before);
      StartIsWellFormed(req);
      AfterIsWellFormed(Start(req), before);
      PbLedgerStep(After(Start(req), before), Replies(before, DiskSight), Replies(before, VmSight), Replies(before, DiskCommand),
                   log[|log| - 1]);
    }
  }

  /**
   A publish whose id parses answers OK if and only if the node was shown RUNNING and the
   volume was shown on it: at once, which is how repeating a successful publish goes, or
   after an attach of the unattached volume was accepted and waited for. It answers
   FailedPrecondition if and only if the node is not running or the volume is elsewhere.
   */
  lemma PublishMeaning(req: Request, log: Log)
    requires req.Publish? && Precheck(req).None? && Follows(Start(req), log)
    requires After(Start(req), log).phase.Finished?
    ensures PbEnd(req.node, After(Start(req), log).phase.outcome,
                  Replies(log, DiskSight), Replies(log, VmSight), Replies(log, DiskCommand))
  {
    PbLedgerHolds(req, log);
    StartIsWellFormed(req);
    AfterIsWellFormed(Start(req), log);
  }

  // ---------------------------------------------------------------- expand

  predicate ShowsStable(r: Reply) {
    ShowsDiskIn(r, Available) || ShowsDiskIn(r, InUse)
  }

  /** The volume, of a valid type, is large enough, or a resize was accepted and it was then shown stable. */
  predicate Grown(range: Option<CapacityRange>, sights: seq<Reply>, commands: seq<Reply>) {
    && sights != [] && ShowsDisk(sights[0]) && IsValidVolumeType(sights[0].disks[0].typ) && ExpandGib(range).Success?
    && (GibToByte(ExpandGib(range).value) <= GibToByte(sights[0].disks[0].size)
        || (commands == [Accepted] && |sights| > 1 && ShowsStable(Last(sights))))
  }

  /** What is then reported: the larger of the old and the required size, and that the node must follow unless in block mode. */
  function Growth(range: Option<CapacityRange>, block: bool, sights: seq<Reply>): Outcome
    requires sights != [] && ShowsDisk(sights[0]) && ExpandGib(range).Success?
  {
    var had, required := GibToByte(sights[0].disks[0].size), GibToByte(ExpandGib(range).value);
    Ok(Expanded(if required <= had then had else required, !block))
  }

  predicate ExStory(range: Option<CapacityRange>, at: ExAt, sights: seq<Reply>, commands: seq<Reply>) {
    match at
    case ExFind => sights == [] && commands == []
    case ExResize(vol, _) => sights == [Disks([vol])] && commands == [] && IsValidVolumeType(vol.typ)
    case ExWait(vol, _, _) => sights != [] && sights[0] == Disks([vol]) && commands == [Accepted] && IsValidVolumeType(vol.typ)
  }

  /** The volume can be expanded, but no size fits the range. */
  predicate NoSizeFits(range: Option<CapacityRange>, sights: seq<Reply>) {
    sights != [] && ShowsDisk(sights[0]) && IsValidVolumeType(sights[0].disks[0].typ) && ExpandGib(range).Failure?
  }

  /** The outcome, told entirely from the answers. */
  predicate ExEnd(range: Option<CapacityRange>, block: bool, o: Outcome, sights: seq<Reply>, commands: seq<Reply>) {
    && (o.Ok? <==> Grown(range, sights, commands))
    && (o.Ok? ==> o == Growth(range, block, sights))
    && (o == Err(OutOfRange) <==> NoSizeFits(range, sights))
    && (o == Err(NotFound) <==> sights == [Disks([])])
    && (o == Err(Aborted) <==> sights == [])
    && (o.Ok? || (o.Err? && o.code in {OutOfRange, NotFound, Aborted, Internal}))
    && |commands| <= 1
  }

  predicate ExLedger(t: Rpc, sights: seq<Reply>, commands: seq<Reply>) {
    t.req.Expand? && (
    match t.phase
    case Locking(_, _) => sights == [] && commands == []
    case Running(b) => b.Ex? && ExStory(t.req.range, b.exAt, sights, commands)
    case _ => ExEnd(t.req.range, t.req.block, t.phase.outcome, sights, commands))
  }

  lemma ExAdvances(id: Id, range: Option<CapacityRange>, block: bool, at: ExAt, sights: seq<Reply>, commands: seq<Reply>, e: Exchange)
    requires ExStory(range, at, sights, commands) && Established(Ex(id, range, block, at))
    requires e.action == Ask(CallOf(Ex(id, range, block, at)))
    ensures match AdvanceEx(id, range, block, at, e.reply)
      case Goto(b) => b.Ex? && ExStory(range, b.exAt, Told(sights, e, DiskSight), Told(commands, e, DiskCommand))
      case Lock(_, _) => false
      case Return(o) => ExEnd(range, block, o, Told(sights, e, DiskSight), Told(commands, e, DiskCommand))
  {
    SingleIsWhole(e.reply);
    match at
    case ExFind => {}
    case ExResize(vol, _) => {}
    case ExWait(vol, _, _) => {}
  }

  lemma ExLedgerStep(t: Rpc, sights: seq<Reply>, commands: seq<Reply>, e: Exchange)
    requires WellFormedRpc(t) && Active(t) && e.action == NextAction(t) && ExLedger(t, sights, commands)
    ensures ExLedger(Resume(t, e.reply), Told(sights, e, DiskSight), Told(commands, e, DiskCommand))
  {
    if t.phase.Running? {
      var b := t.phase.body;
      ExAdvances(b.id, b.range, b.block, b.exAt, sights, commands, e);
    }
  }

  lemma {:induction false} ExLedgerHolds(req: Request, log: Log)
    requires req.Expand? && Precheck(req).None? && Follows(Start(req), log)
    ensures ExLedger(After(Start(req), log), Replies(log, DiskSight), Replies(log, DiskCommand))
  {
    if log != [] {
      var before := log[..|log| - 1];
      ExLedgerHolds(req, before);
      StartIsWellFormed(req);
      AfterIsWellFormed(Start(req), before);
      ExLedgerStep(After(Start(req), before), Replies(before, DiskSight), Replies(before, DiskCommand), log[|log| - 1]);
    }
  }

  /**
   An expansion whose id parses answers OK if and only if the volume was shown large
   enough, or a resize was accepted and the volume was then shown stable; it reports the
   larger of the two sizes, and asks the node to follow exactly when not in block mode. It
   answers OutOfRange if and only if the volume can be expanded but no size fits.
   */
  lemma ExpansionMeaning(req: Request, log: Log)
    requires req.Expand? && Precheck(req).None? && Follows(Start(req), log)
    requires After(Start(req), log).phase.Finished?
    ensures ExEnd(req.range, req.block, After(Start(req), log).phase.outcome, Replies(log, DiskSight), Replies(log, DiskCommand))
  {
    ExLedgerHolds(req, log);
    StartIsWellFormed(req);
    AfterIsWellFormed(Start(req), log);
  }

  // ---------------------------------------------------------------- before any lock

  /** Requests that undo, and so must not fail on a volume that was never there. */
  predicate UndoesOrDeletes(req: Request) {
    req.DeleteVolume? || req.Unpublish?
  }

  /** A request with all its fields, for a volume whose id this driver never gave out. */
  predicate ForUnknownVolume(req: Request) {
    match req
    case CreateVolume(_, _, _, _, _, _) => false
    case DeleteSnapshot(_) => false
    case DeleteVolume(v) => v != "" && VolIdOr(v, "") == ""
    case Publish(v, node, capabilityOk, readonly) => v != "" && node != "" && capabilityOk && !readonly && VolIdOr(v, "") == ""
    case Unpublish(v, node) => v != "" && node != "" && VolIdOr(v, "") == ""
    case Expand(v, _, _) => v != "" && VolIdOr(v, "") == ""
    case CreateSnapshot(name, v, _) => v != "" && 0 < |name| <= 64 && VolIdOr(v, "") == ""
  }

  /** For such a volume what undoes or deletes is done, and everything else is NotFound; no lock is taken. */
  lemma UnknownVolumes(req: Request)
    requires ForUnknownVolume(req)
    ensures Start(req).phase == Finished(if UndoesOrDeletes(req) then Ok(Done) else Err(NotFound)) && Start(req).defers == []
  {
  }

  /** A request that lacks a field, or asks for what the driver does not offer. */
  predicate Malformed(req: Request) {
    match req
    case CreateVolume(name, capabilitiesOk, _, _, _, _) => !capabilitiesOk || name == "" || |name| > 64
    case DeleteSnapshot(snapId) => snapId == ""
    case DeleteVolume(v) => v == ""
    case Publish(v, node, capabilityOk, readonly) => v == "" || node == "" || !capabilityOk || readonly
    case Unpublish(v, node) => v == "" || node == ""
    case Expand(v, _, _) => v == ""
    case CreateSnapshot(name, v, _) => v == "" || name == "" || |name| > 64
  }

  /** Exactly the malformed requests and those for unknown volumes are answered before any lock is tried. */
  lemma AnsweredAtOnce(req: Request)
    ensures Malformed(req) <==> Start(req).phase == Finished(Err(InvalidArgument))
    ensures Start(req).phase.Finished? <==> Malformed(req) || ForUnknownVolume(req)
    ensures Start(req).phase.Locking? ==> MainKey(req) != "" && NextAction(Start(req)) == TryLock(MainKey(req))
  {
  }
}
