/**
 The node service itself. As in the controller, `answers` fixes in advance what the node
 will answer, nothing is known about it, and a ghost record of the exchanges ties what the
 methods do to the RPCs' programs.
 */
module NodeServer {
  import opened RpcCodes
  import opened Locks
  import opened NodeProgram
  import opened NodeConversations
  import opened NodeMeanings
  import VolumeId

  // ---------------------------------------------------------------- the service

  class Server {
    const locks: ResourceLocks
    const answers: nat -> Reply
    const gates: seq<string>
    var calls: nat

    ghost var current: Rpc
    ghost var log: Log

    constructor (locks: ResourceLocks, answers: nat -> Reply, gates: seq<string>)
      ensures this.locks == locks && this.answers == answers && this.gates == gates
    {
      this.locks, this.answers, this.gates, calls := locks, answers, gates, 0;
      current, log := Start(NodeRequest.Unstage("", "")), [];
    }

    /** The record is a conversation of the request's program that has led to `current`. */
    ghost predicate Valid()
      reads this
    {
      Follows(Start(current.req), log) && After(Start(current.req), log) == current
    }

    ghost predicate Answered(req: NodeRequest, o: NodeOutcome)
      reads this
    {
      Valid() && current == Rpc(req, Finished(o), [])
    }

    lemma MeansWhatItSays()
      requires Valid() && Precheck(current.req).None? && current.phase.Finished?
      ensures End(current.req, current.phase.outcome, StoryOf(log))
    {
      NodeMeaning(current.req, log);
    }

    ghost method Begin(req: NodeRequest)
      modifies this`current, this`log
      ensures Valid() && current == Start(req) && log == []
    {
      current, log := Start(req), [];
    }

    ghost method Record(a: Action, r: Reply)
      requires Valid() && Active(current) && a == NextAction(current)
      modifies this`current, this`log
      ensures Valid() && current == Resume(old(current), r)
    {
      Extend(Start(current.req), log, Exchange(a, r));
      current, log := Resume(current, r), log + [Exchange(a, r)];
    }

    method TryLock(key: Key) returns (acquired: bool)
      requires Valid() && Active(current) && NextAction(current) == Action.TryLock(key)
      modifies this`current, this`log, locks
      ensures Valid() && current == Resume(old(current), if acquired then Granted else Denied)
      ensures acquired <==> key !in old(locks.locks)
      ensures locks.locks == old(locks.locks) + {key}
    {
      acquired := locks.TryAcquire(key);
      Record(Action.TryLock(key), if acquired then Granted else Denied);
    }

    method Unlock(key: Key)
      requires Valid() && current.phase.Unwinding? && current.held == [key]
      modifies this`current, this`log, locks
      ensures Valid() && current == Rpc(old(current).req, Finished(old(current).phase.outcome), [])
      ensures locks.locks == old(locks.locks) - {key}
    {
      locks.Release(key);
      Record(Action.Unlock(key), Released);
    }

    /** Runs one action on the node. */
    method Do(a: Action) returns (r: Reply)
      requires Valid() && current.phase.Running? && a == ActionOf(current.req, current.phase.at)
      modifies this`calls, this`current, this`log
      ensures Valid()
      ensures current == Follow(old(current), Advance(old(current).req, old(current).phase.at, r))
    {
      r := answers(calls);
      calls := calls + 1;
      Record(a, r);
    }

    // -------------------------------------------------------------- formatting and mounting

    /** Where a stage stands once `FormatAndMount` has returned. */
    ghost function AfterFs(t: Rpc, job: FsJob, mounted: bool): Rpc {
      if mounted then t.(phase := Running(StNeedResize(job.source))) else Leave(t, Err(Internal))
    }

    method ScanForReadOnly(mountOptions: seq<string>) returns (readOnly: bool)
      ensures readOnly <==> RO in mountOptions
    {
      readOnly := false;
      for i := 0 to |mountOptions|
        invariant !readOnly && RO !in mountOptions[..i]
      {
        if mountOptions[i] == RO {
          readOnly := true;
          break;
        }
      }
    }

    method FormatAndMount(job: FsJob) returns (mounted: bool)
      requires Valid() && current.phase == Running(StFs(job, FsStart(job)))
      modifies this`calls, this`current, this`log
      ensures Valid() && current == AfterFs(old(current), job, mounted)
    {
      var readOnly := ScanForReadOnly(job.mountOptions);
      var mountOptions := job.mountOptions;
      if |mountOptions| == 0 {
        mountOptions := [DEFAULTS];
      }
      if !readOnly && !job.omitFsCheck {
        var fsck := Do(Fsck(job.source));
        if fsck == Exit(FSCK_ERRORS_UNCORRECTED) {
          return false;
        }
      }
      var mount := Do(Mount(job.source, job.target, job.fsType, mountOptions));
      if mount == Succeeded {
        return true;
      }
      mounted := FormatIfNew(readOnly, job, mountOptions);
    }

    /** What follows a failed mount: the disk is formatted only if it holds nothing. */
    method FormatIfNew(readOnly: bool, job: FsJob, mountOptions: seq<string>) returns (mounted: bool)
      requires readOnly == ReadOnly(job) && mountOptions == UsedMountOptions(job)
      requires Valid() && current.phase == Running(StFs(job, FsProbe))
      modifies this`calls, this`current, this`log
      ensures Valid() && current == AfterFs(old(current), job, mounted)
    {
      var existing := Do(Probe(job.source));
      if !existing.Format? {
        return false;
      }
      if existing.format == "" {
        mounted := FormatNewDisk(readOnly, job, mountOptions);
        return;
      }
      if job.fsType == "" || job.fsType == existing.format {
        return false;
      }
      if existing.format == UNKNOWN_DATA {
        var types := Do(Blkid(job.source));
        if types == Types("", ATARI) {
          mounted := FormatNewDisk(readOnly, job, mountOptions);
          return;
        }
      }
      return false;
    }

    method FormatNewDisk(readOnly: bool, job: FsJob, mountOptions: seq<string>) returns (mounted: bool)
      requires readOnly == ReadOnly(job) && mountOptions == UsedMountOptions(job)
      requires Valid()
      requires current == if ReadOnly(job) then Leave(current, Err(Internal)) else current.(phase := Running(StFs(job, FsMkfs)))
      modifies this`calls, this`current, this`log
      ensures Valid() && current == AfterFs(old(current), job, mounted)
    {
      if readOnly {
        return false;
      }
      var fsType := if job.fsType == "" then EXT4 else job.fsType;
      var args := MkfsDefaultArgs(fsType, job.source);
      if |job.mkfsOptions| != 0 {
        args := job.mkfsOptions + [job.source];
      }
      mounted := MkfsAndMount(job, fsType, args, mountOptions);
    }

    method MkfsAndMount(job: FsJob, fsType: string, args: seq<string>, mountOptions: seq<string>) returns (mounted: bool)
      requires fsType == MkfsType(job) && args == MkfsArgs(job) && mountOptions == UsedMountOptions(job)
      requires Valid() && current.phase == Running(StFs(job, FsMkfs))
      modifies this`calls, this`current, this`log
      ensures Valid() && current == AfterFs(old(current), job, mounted)
    {
      var mkfs := Do(Mkfs(job.source, fsType, args));
      if mkfs != Succeeded {
        return false;
      }
      mounted := MountFormatted(job, fsType, mountOptions);
    }

    method MountFormatted(job: FsJob, fsType: string, mountOptions: seq<string>) returns (mounted: bool)
      requires fsType == MkfsType(job) && mountOptions == UsedMountOptions(job)
      requires Valid() && current.phase == Running(StFs(job, FsRemount))
      modifies this`calls, this`current, this`log
      ensures Valid() && current == AfterFs(old(current), job, mounted)
    {
      var mount := Do(Mount(job.source, job.target, fsType, mountOptions));
      return mount == Succeeded;
    }

    /** The caller's flags, appended once for each mention of the feature. */
    method AppendGated(options: seq<string>, flags: seq<string>) returns (r: seq<string>)
      ensures r == options + GatedFlags(gates, flags)
    {
      r := options;
      for i := 0 to |gates|
        invariant r == options + GatedFlags(gates[..i], flags)
      {
        assert gates[..i + 1][..i] == gates[..i];
        if gates[i] == MOUNT_OPTIONS_FEATURE {
          r := r + flags;
        }
      }
      assert gates[..|gates|] == gates;
    }

    // -------------------------------------------------------------- staging

    method NodeStageVolume(volumeId: string, path: Path, capability: Capability) returns (o: NodeOutcome)
      modifies this, locks
      ensures Answered(Stage(volumeId, path, capability, gates), o)
      ensures var req := Stage(volumeId, path, capability, gates); Precheck(req).None? ==> End(req, o, StoryOf(log))
      ensures locks.locks == old(locks.locks)
    {
      Begin(Stage(volumeId, path, capability, gates));
      if |volumeId| == 0 || |path| == 0 || capability.NoCapability? {
        return Err(InvalidArgument);
      }
      var parts := VolumeId.ParseCsiVolId(volumeId);
      if parts.None? {
        return Err(NotFound);
      }
      if capability.BlockAccess? {
        return Ok;
      }
      o := StageAdmitted(parts.value.volId, parts.value.serial, path, capability);
    }

    method StageAdmitted(volId: Key, serial: string, path: Path, capability: Capability) returns (o: NodeOutcome)
      requires Valid() && current == Start(current.req) && current.phase.Locking?
      requires current.req.Stage? && current.req.gates == gates && current.req.path == path && current.req.capability == capability
      requires KeyOf(current.req) == volId && SerialOf(current.req) == serial
      modifies this, locks
      ensures Answered(old(current).req, o) && End(old(current).req, o, StoryOf(log))
      ensures locks.locks == old(locks.locks)
    {
      var acquired := TryLock(volId);
      if !acquired {
        MeansWhatItSays();
        return Err(Aborted);
      }
      if !capability.MountAccess? {
        o := Err(InvalidArgument);
      } else {
        var fsType := if capability.fsType != "" then capability.fsType else EXT4;
        if !CheckFsType(fsType) {
          o := Err(InvalidArgument);
        } else {
          o := StageLocked(serial, path, fsType, capability.flags);
        }
      }
      Unlock(volId);
      MeansWhatItSays();
    }

    method StageLocked(serial: string, path: Path, fsType: string, flags: seq<string>) returns (o: NodeOutcome)
      requires Valid() && current.phase == Running(StCheck) && current.held != []
      requires current.req.Stage? && current.req.gates == gates && current.req.path == path && SerialOf(current.req) == serial
      requires current.req.capability.MountAccess? && current.req.capability.flags == flags && FsTypeOf(current.req.capability) == fsType
      modifies this`calls, this`current, this`log
      ensures Valid() && current == Leave(old(current), o)
    {
      var check := Do(CheckMount(path));
      if check == PathMissing {
        var made := Do(MakeDir(path));
        if made != Succeeded {
          return Err(Internal);
        }
      } else if check == Mounted {
        return Ok;
      } else if check != NotMounted {
        return Err(Internal);
      }
      var device := Do(FindDevice(serial));
      if !device.Device? {
        return Err(NotFound);
      }
      var options := AppendGated([], flags);
      assert options == GatedFlags(gates, flags);
      o := MountAndGrow(FsJob(device.dev, path, fsType, [], options, false));
    }

    /** Mounts the device, and grows its file system if the disk has grown. */
    method MountAndGrow(job: FsJob) returns (o: NodeOutcome)
      requires Valid() && current.phase == Running(StFs(job, FsStart(job))) && current.held != []
      requires current.req.path == job.target
      modifies this`calls, this`current, this`log
      ensures Valid() && current == Leave(old(current), o)
    {
      var mounted := FormatAndMount(job);
      if !mounted {
        return Err(Internal);
      }
      o := Grow(job.source, job.target);
    }

    method Grow(dev: Path, path: Path) returns (o: NodeOutcome)
      requires Valid() && current.phase == Running(StNeedResize(dev)) && current.held != [] && current.req.path == path
      modifies this`calls, this`current, this`log
      ensures Valid() && current == Leave(old(current), o)
    {
      var need := Do(NeedResize(dev, path));
      if need == Yes {
        var resized := Do(Resize(dev, path));
        return if resized == Succeeded then Ok else Err(Internal);
      }
      return Ok;
    }

    // -------------------------------------------------------------- publishing

    method NodePublishVolume(volumeId: string, path: Path, staging: Path, capability: Capability, accessModeOk: bool,
                             readonly: bool) returns (o: NodeOutcome)
      modifies this, locks
      ensures Answered(Publish(volumeId, path, staging, capability, accessModeOk, readonly, gates), o)
      ensures var req := Publish(volumeId, path, staging, capability, accessModeOk, readonly, gates);
        Precheck(req).None? ==> End(req, o, StoryOf(log))
      ensures locks.locks == old(locks.locks)
    {
      ghost var req := Publish(volumeId, path, staging, capability, accessModeOk, readonly, gates);
      Begin(req);
      if |volumeId| == 0 || |path| == 0 || capability.NoCapability? {
        return Err(InvalidArgument);
      }
      if !accessModeOk || |staging| == 0 {
        return Err(FailedPrecondition);
      }
      var parts := VolumeId.ParseCsiVolId(volumeId);
      if parts.None? {
        return Err(NotFound);
      }
      o := PublishAdmitted(parts.value.volId, parts.value.serial, path, staging, capability, readonly, req);
    }

    method PublishAdmitted(volId: Key, serial: string, path: Path, staging: Path, capability: Capability, readonly: bool,
                           ghost req: NodeRequest) returns (o: NodeOutcome)
      requires req.Publish? && req.gates == gates && req.path == path && req.staging == staging
      requires req.capability == capability && req.readonly == readonly && SerialOf(req) == serial && KeyOf(req) == volId
      requires Valid() && current == Start(req) && current.phase.Locking?
      modifies this, locks
      ensures Answered(req, o) && End(req, o, StoryOf(log))
      ensures locks.locks == old(locks.locks)
    {
      var acquired := TryLock(volId);
      if !acquired {
        MeansWhatItSays();
        return Err(Aborted);
      }
      o := PublishLocked(serial, path, staging, capability, readonly, req);
      Unlock(volId);
      MeansWhatItSays();
    }

    /** In block mode the source is the volume's device, otherwise the staging path. */
    method PublishLocked(serial: string, path: Path, staging: Path, capability: Capability, readonly: bool, ghost req: NodeRequest)
      returns (o: NodeOutcome)
      requires req.Publish? && req.gates == gates && req.path == path && req.staging == staging
      requires req.capability == capability && req.readonly == readonly && SerialOf(req) == serial
      requires Valid() && current == Follow(Rpc(req, Locking, [KeyOf(req)]), AfterLock(req))
      modifies this`calls, this`current, this`log
      ensures Valid() && current == Leave(old(current), o)
    {
      if capability.BlockAccess? {
        var device := Do(FindDevice(serial));
        if !device.Device? {
          return Err(NotFound);
        }
        o := PublishFrom(device.dev, path, capability, readonly, req);
      } else {
        o := PublishFrom(staging, path, capability, readonly, req);
      }
    }

    method PublishFrom(source: Path, path: Path, capability: Capability, readonly: bool, ghost req: NodeRequest)
      returns (o: NodeOutcome)
      requires req.Publish? && req.gates == gates && req.path == path && req.capability == capability && req.readonly == readonly
      requires Valid() && current.req == req && current.held != []
      requires current.phase == if CheckFsType(FsTypeOf(capability)) then Running(PuEnsure(source)) else Unwinding(Err(InvalidArgument))
      modifies this`calls, this`current, this`log
      ensures Valid() && current == Leave(old(current), o)
    {
      var isBlockMode := capability.BlockAccess?;
      var fsType := EXT4;
      if capability.MountAccess? {
        if capability.fsType != "" {
          fsType := capability.fsType;
        }
      }
      if !CheckFsType(fsType) {
        return Err(InvalidArgument);
      }
      var ensured := Do(EnsureTarget(path, isBlockMode));
      if ensured != Succeeded {
        return Err(Internal);
      }
      var options := BindOptions(capability, readonly, isBlockMode, req);
      o := MountOnce(source, path, fsType, options);
    }

    method BindOptions(capability: Capability, readonly: bool, isBlockMode: bool, ghost req: NodeRequest)
      returns (options: seq<string>)
      requires req.Publish? && req.gates == gates && req.capability == capability && req.readonly == readonly
      requires isBlockMode == capability.BlockAccess?
      ensures options == PublishOptions(req)
    {
      options := [BIND];
      if readonly {
        options := options + [RO];
      }
      if !isBlockMode && capability.MountAccess? {
        options := AppendGated(options, capability.flags);
      }
    }

    /** Binds the source to the target unless something is mounted there already. */
    method MountOnce(source: Path, path: Path, fsType: string, options: seq<string>) returns (o: NodeOutcome)
      requires Valid() && current.phase == Running(PuCheck(source)) && current.held != []
      requires current.req.Publish? && current.req.path == path
      requires FsTypeOf(current.req.capability) == fsType && PublishOptions(current.req) == options
      modifies this`calls, this`current, this`log
      ensures Valid() && current == Leave(old(current), o)
    {
      var check := Do(CheckMount(path));
      if check == Mounted {
        return Ok;
      }
      if check != NotMounted {
        return Err(Internal);
      }
      o := MountHere(source, path, fsType, options);
    }

    method MountHere(source: Path, path: Path, fsType: string, options: seq<string>) returns (o: NodeOutcome)
      requires Valid() && current.phase == Running(PuMount(source)) && current.held != []
      requires current.req.Publish? && current.req.path == path
      requires FsTypeOf(current.req.capability) == fsType && PublishOptions(current.req) == options
      modifies this`calls, this`current, this`log
      ensures Valid() && current == Leave(old(current), o)
    {
      var mounted := Do(Mount(source, path, fsType, options));
      return if mounted == Succeeded then Ok else Err(Internal);
    }

    // -------------------------------------------------------------- undoing

    method NodeUnstageVolume(volumeId: string, path: Path) returns (o: NodeOutcome)
      modifies this, locks
      ensures Answered(Unstage(volumeId, path), o)
      ensures Precheck(Unstage(volumeId, path)).None? ==> End(Unstage(volumeId, path), o, StoryOf(log))
      ensures locks.locks == old(locks.locks)
    {
      o := Undo(volumeId, path, Unstage(volumeId, path));
    }

    method NodeUnpublishVolume(volumeId: string, path: Path) returns (o: NodeOutcome)
      modifies this, locks
      ensures Answered(Unpublish(volumeId, path), o)
      ensures Precheck(Unpublish(volumeId, path)).None? ==> End(Unpublish(volumeId, path), o, StoryOf(log))
      ensures locks.locks == old(locks.locks)
    {
      o := Undo(volumeId, path, Unpublish(volumeId, path));
    }

    /** An id that does not parse must not stop the clean-up: it is locked as it is. */
    method Undo(volumeId: string, path: Path, ghost req: NodeRequest) returns (o: NodeOutcome)
      requires Undoes(req) && req.volumeId == volumeId && req.path == path
      modifies this, locks
      ensures Answered(req, o)
      ensures Precheck(req).None? ==> End(req, o, StoryOf(log))
      ensures locks.locks == old(locks.locks)
    {
      Begin(req);
      if |volumeId| == 0 || |path| == 0 {
        return Err(InvalidArgument);
      }
      var parts := VolumeId.ParseCsiVolId(volumeId);
      var volId := volumeId;
      if parts.Some? {
        volId := parts.value.volId;
      }
      var acquired := TryLock(volId);
      if !acquired {
        MeansWhatItSays();
        return Err(Aborted);
      }
      o := CleanupMountPoint(path);
      Unlock(volId);
      MeansWhatItSays();
    }

    method CleanupMountPoint(path: Path) returns (o: NodeOutcome)
      requires Valid() && current.phase == Running(UndoCleanup) && current.held != [] && current.req.path == path
      modifies this`calls, this`current, this`log
      ensures Valid() && current == Leave(old(current), o)
    {
      var cleaned := Do(Cleanup(path));
      return if cleaned == Succeeded then Ok else Err(Internal);
    }
  }
}
