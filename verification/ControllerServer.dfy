/**
 The controller service itself: each RPC as the driver runs it, one call after the other.

 What the cloud will answer is fixed in advance by `answers`, about which nothing is known,
 so every contract here holds whatever the cloud and other users of it do meanwhile. The
 methods keep a ghost record of their exchanges. Their contracts say that the record is a
 conversation of the RPC's program from its start to the outcome returned, and this is
 what carries every theorem about such conversations over to the code.
 */
module ControllerServer {
  import opened Wrappers
  import opened Capacity
  import opened CloudTypes
  import opened Polling
  import opened Paging
  import opened Topology
  import opened StorageClass
  import opened Locks
  import opened RpcCodes
  import opened ControllerProgram
  import opened Conversations
  import opened Provisioning
  import opened Stories
  import Deletion
  import Expansion
  import VolumeMeanings
  import SnapshotMeanings
  import CreationMeaning
  import VolumeId

  class Server {
    const locks: ResourceLocks
    const answers: nat -> Reply
    /** How many ticks a wait that begins with call number n serves before its timer. */
    const ticksServed: nat -> nat
    var calls: nat

    ghost var current: Rpc
    ghost var log: Log

    constructor (locks: ResourceLocks, answers: nat -> Reply, ticksServed: nat -> nat)
      ensures this.locks == locks && this.answers == answers && this.ticksServed == ticksServed
    {
      this.locks, this.answers, this.ticksServed, calls := locks, answers, ticksServed, 0;
      current, log := Start(Request.DeleteVolume("")), [];
    }

    /** The record is a conversation of the request's program that has led to `current`. */
    ghost predicate Valid()
      reads this
    {
      Follows(Start(current.req), log) && After(Start(current.req), log) == current
    }

    /** The whole RPC has been answered with `o`, and its record shows how. */
    ghost predicate Answered(req: Request, o: Outcome)
      reads this
    {
      Valid() && current == Rpc(req, Finished(o), [])
    }

    ghost method Begin(req: Request)
      modifies this`current, this`log
      ensures Valid() && current == Start(req) && log == []
    {
      current, log := Start(req), [];
    }

    ghost method Record(a: Action, r: Reply)
      requires Valid() && Active(current) && a == NextAction(current)
      modifies this`current, this`log
      ensures Valid() && current == Resume(old(current), r) && current.req == old(current).req
    {
      Extend(Start(current.req), log, Exchange(a, r));
      current, log := Resume(current, r), log + [Exchange(a, r)];
    }

    method TryLock(key: Key) returns (acquired: bool)
      requires Valid() && Active(current) && NextAction(current) == Action.TryLock(key)
      modifies this`current, this`log, locks
      ensures Valid() && current == Resume(old(current), if acquired then Granted else Denied)
      ensures acquired <==> key !in old(locks.locks)
      ensures locks.locks == old(locks.locks) + {key}
    {
      acquired := locks.TryAcquire(key);
      Record(Action.TryLock(key), if acquired then Granted else Denied);
    }

    method Unlock(key: Key)
      requires Valid() && current.phase.Unwinding? && current.defers != [] && current.defers[0] == key
      modifies this`current, this`log, locks
      ensures Valid() && current == Leave(old(current).req, old(current).defers[1..], old(current).phase.outcome)
      ensures locks.locks == old(locks.locks) - {key}
    {
      locks.Release(key);
      Record(Action.Unlock(key), Released);
    }

    ghost method RecordAnswer(call: Call, r: Reply)
      requires Valid() && current.phase.Running? && call == CallOf(current.phase.body)
      modifies this`current, this`log
      ensures Valid()
      ensures current == Follow(old(current).req, old(current).defers, Advance(old(current).phase.body, r))
    {
      Record(Action.Ask(call), r);
    }

    method Ask(call: Call) returns (r: Reply)
      requires Valid() && current.phase.Running? && call == CallOf(current.phase.body)
      modifies this`calls, this`current, this`log
      ensures calls == old(calls) + 1 && r == answers(old(calls))
      ensures Valid()
      ensures current == Follow(old(current).req, old(current).defers, Advance(old(current).phase.body, r))
    {
      r := answers(calls);
      calls := calls + 1;
      RecordAnswer(call, r);
    }

    // -------------------------------------------------------------- the cloud manager

    method FindVolume(id: Id) returns (v: One<Disk>, ghost r: Reply)
      requires Valid() && current.phase.Running? && CallOf(current.phase.body) == DescribeDisk(id)
      modifies this`calls, this`current, this`log
      ensures calls == old(calls) + 1
      ensures Valid() && v == OneDisk(r)
      ensures current == Follow(old(current).req, old(current).defers, Advance(old(current).phase.body, r))
    {
      var answer := Ask(DescribeDisk(id));
      r, v := answer, OneDisk(answer);
    }

    method FindSnapshot(id: Id) returns (v: One<Snap>, ghost r: Reply)
      requires Valid() && current.phase.Running? && CallOf(current.phase.body) == DescribeSnap(id)
      modifies this`calls, this`current, this`log
      ensures Valid() && v == OneSnap(r)
      ensures current == Follow(old(current).req, old(current).defers, Advance(old(current).phase.body, r))
    {
      var answer := Ask(DescribeSnap(id));
      r, v := answer, OneSnap(answer);
    }

    /** None of the `n` answers from call `first` on decides a wait. */
    ghost predicate Indecisive(w: WaitFor, first: nat, n: nat) {
      forall k: nat :: first <= k < first + n ==> Judge(w, answers(k)) == Again
    }

    /** Enters the `n` indecisive polls with which a wait begins into the record. */
    ghost method RecordIndecisive(w: WaitFor, call: Call, again: Body, first: nat, n: nat)
      requires Valid() && current.phase.Running? && Waits(w, call, current.phase.body, again)
      requires Indecisive(w, first, n)
      modifies this`current, this`log
      ensures Valid() && current.req == old(current).req && current.defers == old(current).defers
      ensures current.phase == if n == 0 then old(current).phase else Running(again)
      ensures Waits(w, call, current.phase.body, again)
      decreases n
    {
      if n > 0 {
        RecordIndecisive(w, call, again, first, n - 1);
        WaitGoesOn(w, call, current, again, answers(first + n - 1));
        Record(Action.Ask(call), answers(first + n - 1));
      }
    }

    /** Enters a whole wait into the record: the indecisive polls, then what ended it. */
    ghost method RecordWait(w: WaitFor, call: Call, again: Body, first: nat, n: nat, last: Reply)
      requires Valid() && current.phase.Running? && Waits(w, call, current.phase.body, again)
      requires Indecisive(w, first, n)
      modifies this`current, this`log
      ensures Valid()
      ensures current == Follow(old(current).req, old(current).defers, Advance(old(current).phase.body, last))
    {
      RecordIndecisive(w, call, again, first, n);
      WaitEndsAlike(w, call, old(current).phase.body, again, last);
      Record(Action.Ask(call), last);
    }

    /** Polls until an answer decides; `last` is that answer, or `TimerFired` when time ran out first. */
    method Poll(w: WaitFor) returns (last: Reply, polls: nat, ghost indecisive: nat)
      ensures 1 <= polls <= 1 + ticksServed(calls)
      ensures Judge(w, last) != Again
      ensures Indecisive(w, calls, indecisive)
    {
      var first, future := calls, answers;
      var p := (k: nat) => Judge(w, future(first + k));
      var result;
      result, polls := WaitForSpecificOrError(p, ticksServed(first));
      if result.TimedOut? {
        last, indecisive := TimerFired, polls;
        TimerFailsWait(w);
        assert p(polls - 1) == Again;
      } else {
        last, indecisive := answers(first + polls - 1), polls - 1;
        assert Judge(w, last) == p(polls - 1);
      }
      forall k: nat | first <= k < first + indecisive ensures Judge(w, answers(k)) == Again {
        assert p(k - first) == Judge(w, future(k));
        assert k - first < polls - 1 || p(polls - 1) == Again;
      }
    }

    /** A bounded wait for the answer to `call` to decide. */
    method Wait(w: WaitFor, call: Call, ghost again: Body) returns (reached: bool, last: Reply)
      requires Valid() && current.phase.Running? && Waits(w, call, current.phase.body, again)
      modifies this`calls, this`current, this`log
      ensures old(calls) < calls <= old(calls) + 1 + ticksServed(old(calls))
      ensures Valid() && Judge(w, last) != Again && (reached <==> Judge(w, last) == Stop)
      ensures current == Follow(old(current).req, old(current).defers, Advance(old(current).phase.body, last))
    {
      var polls: nat;
      ghost var indecisive: nat;
      last, polls, indecisive := Poll(w);
      RecordWait(w, call, again, calls, indecisive, last);
      calls := calls + polls;
      reached := Judge(w, last) == Stop;
    }

    /** Every wait's timer is served in time, as `PollBound` shows for polls shorter than the interval. */
    ghost predicate TimersKept() {
      forall n: nat :: ticksServed(n) * WAIT_STATUS_INTERVAL <= WAIT_STATUS_TIMEOUT
    }

    method WaitDiskStatus(w: WaitFor, id: Id, ghost again: Body) returns (reached: bool, ghost last: Reply)
      requires Valid() && current.phase.Running? && Waits(w, DescribeDisk(id), current.phase.body, again)
      modifies this`calls, this`current, this`log
      ensures old(calls) < calls <= old(calls) + 1 + ticksServed(old(calls))
      ensures TimersKept() ==> calls <= old(calls) + 61
      ensures Valid() && Judge(w, last) != Again && (reached <==> Judge(w, last) == Stop)
      ensures current == Follow(old(current).req, old(current).defers, Advance(old(current).phase.body, last))
    {
      var answer;
      reached, answer := Wait(w, DescribeDisk(id), again);
      last := answer;
    }

    /** Tells apart a disk that is gone from one that went to the recycle bin. */
    method WaitDiskReleased(id: Id, ghost again: Body) returns (gone: bool, reached: bool, ghost last: Reply)
      requires Valid() && current.phase.Running? && Waits(WaitReleased, DescribeDisk(id), current.phase.body, again)
      modifies this`calls, this`current, this`log
      ensures TimersKept() ==> calls <= old(calls) + 61
      ensures Valid() && Judge(WaitReleased, last) != Again && (reached <==> Judge(WaitReleased, last) == Stop)
      ensures gone <==> OneDisk(last).Missing?
      ensures current == Follow(old(current).req, old(current).defers, Advance(old(current).phase.body, last))
    {
      var answer;
      reached, answer := Wait(WaitReleased, DescribeDisk(id), again);
      gone := reached && OneDisk(answer).Missing?;
      last := answer;
    }

    /** Where a delete stands after round `times` has sent its disk to the recycle bin. */
    ghost function AfterRound(t: Rpc, id: Id, times: nat): Rpc {
      if times < MAX_RELEASE_DISK_TIMES then Rpc(t.req, Running(Dv(id, DvFind(times + 1))), t.defers)
      else Leave(t.req, t.defers, StillExists)
    }

    /** One round of a delete: look at the disk, release it, and wait for the release to show. */
    method ReleaseOnce(id: Id, ghost times: nat) returns (o: Option<Outcome>)
      requires Valid() && current.phase == Running(Dv(id, DvFind(times))) && current.defers != []
      modifies this`calls, this`current, this`log
      ensures TimersKept() ==> calls <= old(calls) + 63
      ensures Valid()
      ensures current == if o.Some? then Leave(old(current).req, old(current).defers, o.value)
                         else AfterRound(old(current), id, times)
    {
      var v, _ := FindVolume(id);
      if v.Unreadable? {
        return Some(Err(Internal));
      }
      if v.Missing? {
        return Some(Ok(Done));
      }
      var lastRelease := v.it.status == Recycled;
      var answer := Ask(ReleaseDisk(id));
      if answer != Accepted {
        return Some(if answer == ResourceNotFound then Ok(Done) else Err(Internal));
      }
      if lastRelease {
        var last := AwaitGone(id, times);
        return Some(last);
      }
      o := AwaitGoneOrRecycled(id, times);
    }

    method AwaitGone(id: Id, ghost times: nat) returns (o: Outcome)
      requires Valid() && current.phase == Running(Dv(id, DvWaitGone(times, false))) && current.defers != []
      modifies this`calls, this`current, this`log
      ensures TimersKept() ==> calls <= old(calls) + 61
      ensures Valid() && current == Leave(old(current).req, old(current).defers, o)
    {
      var reached, _ := WaitDiskStatus(WaitDeleted, id, Dv(id, DvWaitGone(times, true)));
      return if reached then Ok(Done) else Err(Internal);
    }

    method AwaitGoneOrRecycled(id: Id, ghost times: nat) returns (o: Option<Outcome>)
      requires Valid() && current.phase == Running(Dv(id, DvWaitReleased(times, false))) && current.defers != []
      modifies this`calls, this`current, this`log
      ensures TimersKept() ==> calls <= old(calls) + 61
      ensures Valid()
      ensures current == if o.Some? then Leave(old(current).req, old(current).defers, o.value)
                         else AfterRound(old(current), id, times)
    {
      var gone, reached, _ := WaitDiskReleased(id, Dv(id, DvWaitReleased(times, true)));
      if !reached {
        return Some(Err(Internal));
      }
      return if gone then Some(Ok(Done)) else None;
    }

    /** Two-phase deletion: release, and release again what went to the recycle bin. */
    method ReleaseUntilGone(id: Id) returns (o: Outcome)
      requires Valid() && current.phase == Running(Dv(id, DvFind(1))) && current.defers != []
      modifies this`calls, this`current, this`log
      ensures TimersKept() ==> calls <= old(calls) + 126
      ensures Valid() && current == Leave(old(current).req, old(current).defers, o)
    {
      for times := 1 to MAX_RELEASE_DISK_TIMES + 1
        invariant Valid()
        invariant current == if times == 1 then old(current) else AfterRound(old(current), id, times - 1)
        invariant TimersKept() ==> calls <= old(calls) + 63 * (times - 1)
      {
        var decided := ReleaseOnce(id, times);
        if decided.Some? {
          return decided.value;
        }
      }
      return StillExists;
    }

    method AttachVolume(id: Id, node: Id, ghost vol: Disk) returns (ok: bool)
      requires Valid() && current.phase == Running(Pb(id, node, PbAttach(vol))) && current.defers != []
      modifies this`calls, this`current, this`log
      ensures Valid()
      ensures current == if ok then Rpc(old(current).req, Running(Pb(id, node, PbRefind)), old(current).defers)
                         else Leave(old(current).req, old(current).defers, Err(Internal))
    {
      var answer := Ask(AttachDisk(id, node));
      if answer != Accepted {
        return false;
      }
      var reached, _ := WaitDiskStatus(WaitInUse, id, Pb(id, node, PbWait(vol, true)));
      return reached;
    }

    method DetachVolume(id: Id, ghost node: Id, ghost vol: Disk) returns (ok: bool)
      requires Valid() && current.phase == Running(Up(id, node, UpDetach(vol))) && current.defers != []
      modifies this`calls, this`current, this`log
      ensures Valid()
      ensures current == Leave(old(current).req, old(current).defers, if ok then Ok(Done) else Err(Internal))
    {
      var answer := Ask(DetachDisk(id));
      if answer != Accepted {
        return false;
      }
      var reached, _ := WaitDiskStatus(WaitAvailable, id, Up(id, node, UpWait(vol, true)));
      return reached;
    }

    method ResizeVolume(id: Id, gib: int64, ghost b: Body) returns (ok: bool)
      requires Valid() && b.Ex? && b.id == id && b.exAt.ExResize? && b.exAt.gib == gib
      requires current.phase == Running(b) && current.defers != []
      modifies this`calls, this`current, this`log
      ensures Valid()
      ensures current == Leave(old(current).req, old(current).defers,
                               if ok then Ok(Expanded(GibToByte(gib), !b.block)) else Err(Internal))
    {
      var answer := Ask(ResizeDisk(id, gib));
      if answer != Accepted {
        return false;
      }
      var reached, _ := WaitDiskStatus(WaitStable, id, b.(exAt := ExWait(b.exAt.vol, gib, true)));
      return reached;
    }

    // -------------------------------------------------------------- the RPCs on volumes

    method DeleteVolume(csiVolId: string) returns (o: Outcome)
      modifies this, locks
      ensures Answered(Request.DeleteVolume(csiVolId), o)
      ensures Deletion.Releases(log) <= MAX_RELEASE_DISK_TIMES
      ensures TimersKept() ==> calls <= old(calls) + 126
      ensures o == Ok(Done) <==>
        |csiVolId| > 0 && (VolumeId.ParseCsiVolId(csiVolId).None? || Deletion.SawGone(log, MainKey(Request.DeleteVolume(csiVolId))))
      ensures locks.locks == old(locks.locks)
    {
      Begin(Request.DeleteVolume(csiVolId));
      if |csiVolId| == 0 {
        return Err(InvalidArgument);
      }
      var parts := VolumeId.ParseCsiVolId(csiVolId);
      if parts.None? {
        return Ok(Done);
      }
      var volId := parts.value.volId;
      var acquired := TryLock(volId);
      if !acquired {
        Deletion.DeleteMeaning(current.req, log);
        return Err(Aborted);
      }
      o := ReleaseUntilGone(volId);
      Unlock(volId);
      Deletion.DeleteMeaning(current.req, log);
    }

    method ControllerPublishVolume(csiVolId: string, node: Id, capabilityOk: bool, readonly: bool) returns (o: Outcome)
      modifies this, locks
      ensures Answered(Publish(csiVolId, node, capabilityOk, readonly), o)
      ensures Precheck(Publish(csiVolId, node, capabilityOk, readonly)).None? ==>
        VolumeMeanings.PbEnd(node, o, Replies(log, DiskSight), Replies(log, VmSight), Replies(log, DiskCommand))
      ensures locks.locks == old(locks.locks)
    {
      Begin(Publish(csiVolId, node, capabilityOk, readonly));
      if |csiVolId| == 0 || |node| == 0 || !capabilityOk || readonly {
        return Err(InvalidArgument);
      }
      var parts := VolumeId.ParseCsiVolId(csiVolId);
      if parts.None? {
        return Err(NotFound);
      }
      var volId := parts.value.volId;
      var acquired := TryLock(volId);
      if !acquired {
        VolumeMeanings.PublishMeaning(current.req, log);
        return Err(Aborted);
      }
      o := PublishLocked(volId, node);
      Unlock(volId);
      VolumeMeanings.PublishMeaning(current.req, log);
    }

    method PublishLocked(volId: Id, node: Id) returns (o: Outcome)
      requires Valid() && current.phase == Running(Pb(volId, node, PbFind)) && current.defers != []
      modifies this`calls, this`current, this`log
      ensures Valid() && current == Leave(old(current).req, old(current).defers, o)
    {
      var vol, _ := FindVolume(volId);
      if vol.Unreadable? {
        return Err(Internal);
      }
      if vol.Missing? {
        return Err(NotFound);
      }
      var vm := Ask(DescribeInstance(node));
      if !vm.Instances? || |vm.statuses| > 1 {
        return Err(Internal);
      }
      if vm.statuses == [] {
        return Err(NotFound);
      }
      if vm.statuses[0] != VM_STATUS_RUNNING {
        return Err(FailedPrecondition);
      }
      if |vol.it.instance| != 0 {
        return if vol.it.instance == node then Ok(Done) else Err(FailedPrecondition);
      }
      var attached := AttachVolume(volId, node, vol.it);
      if !attached {
        return Err(Internal);
      }
      var found, _ := FindVolume(volId);
      if found.Unreadable? {
        return Err(Internal);
      }
      if found.Missing? {
        return Err(NotFound);
      }
      if found.it.instance != node {
        return Err(Internal);
      }
      return Ok(Done);
    }

    method ControllerUnpublishVolume(csiVolId: string, node: Id) returns (o: Outcome)
      modifies this, locks
      ensures Answered(Unpublish(csiVolId, node), o)
      ensures Precheck(Unpublish(csiVolId, node)).None? ==>
        VolumeMeanings.UpEnd(node, o, Replies(log, DiskSight), Replies(log, DiskCommand))
      ensures locks.locks == old(locks.locks)
    {
      Begin(Unpublish(csiVolId, node));
      if |csiVolId| == 0 || |node| == 0 {
        return Err(InvalidArgument);
      }
      var parts := VolumeId.ParseCsiVolId(csiVolId);
      if parts.None? {
        return Ok(Done);
      }
      var volId := parts.value.volId;
      var acquired := TryLock(volId);
      if !acquired {
        VolumeMeanings.UnpublishMeaning(current.req, log);
        return Err(Aborted);
      }
      o := UnpublishLocked(volId, node);
      Unlock(volId);
      VolumeMeanings.UnpublishMeaning(current.req, log);
    }

    method UnpublishLocked(volId: Id, node: Id) returns (o: Outcome)
      requires Valid() && current.phase == Running(Up(volId, node, UpFind)) && current.defers != []
      modifies this`calls, this`current, this`log
      ensures Valid() && current == Leave(old(current).req, old(current).defers, o)
    {
      var vol, _ := FindVolume(volId);
      if vol.Unreadable? {
        return Err(Internal);
      }
      if vol.Missing? || vol.it.instance == "" {
        return Ok(Done);
      }
      if vol.it.instance != node {
        return Ok(Done);
      }
      var detached := DetachVolume(volId, node, vol.it);
      return if detached then Ok(Done) else Err(Internal);
    }

    method ControllerExpandVolume(csiVolId: string, range: Option<CapacityRange>, block: bool) returns (o: Outcome)
      modifies this, locks
      ensures Answered(Expand(csiVolId, range, block), o)
      ensures o.Ok? ==>
        && o.response.Expanded? && FirstSight(log).Some? && OneDisk(FirstSight(log).value).Single?
        && Expansion.Honest(range, OneDisk(FirstSight(log).value).it, o.response.capacityBytes, Expansion.Resizes(log))
      ensures Precheck(Expand(csiVolId, range, block)).None? ==>
        VolumeMeanings.ExEnd(range, block, o, Replies(log, DiskSight), Replies(log, DiskCommand))
      ensures locks.locks == old(locks.locks)
    {
      Begin(Expand(csiVolId, range, block));
      if |csiVolId| == 0 {
        return Err(InvalidArgument);
      }
      var parts := VolumeId.ParseCsiVolId(csiVolId);
      if parts.None? {
        return Err(NotFound);
      }
      var volId := parts.value.volId;
      var acquired := TryLock(volId);
      if !acquired {
        VolumeMeanings.ExpansionMeaning(current.req, log);
        return Err(Aborted);
      }
      o := ExpandLocked(volId, range, block);
      Unlock(volId);
      if o.Ok? {
        Expansion.ExpandMeaning(current.req, log);
      }
      VolumeMeanings.ExpansionMeaning(current.req, log);
    }

    method ExpandLocked(volId: Id, range: Option<CapacityRange>, block: bool) returns (o: Outcome)
      requires Valid() && current.phase == Running(Ex(volId, range, block, ExFind)) && current.defers != []
      modifies this`calls, this`current, this`log
      ensures Valid() && current == Leave(old(current).req, old(current).defers, o)
    {
      var vol, _ := FindVolume(volId);
      if vol.Unreadable? {
        return Err(Internal);
      }
      if vol.Missing? {
        return Err(NotFound);
      }
      if !IsValidVolumeType(vol.it.typ) {
        return Err(Internal);
      }
      var requiredSizeBytes := GetRequiredVolumeSizeByte(ZEC_LIMITS, range);
      if requiredSizeBytes.Failure? {
        return Err(OutOfRange);
      }
      var requiredSizeGib := ByteCeilToGib(requiredSizeBytes.value);
      var actualSizeBytes := GibToByte(requiredSizeGib);
      var exVolSizeBytes := GibToByte(vol.it.size);
      if exVolSizeBytes >= actualSizeBytes {
        return Ok(Expanded(exVolSizeBytes, !block));
      }
      if requiredSizeGib == 0 {
        return Err(Internal);
      }
      var resized := ResizeVolume(volId, requiredSizeGib, Ex(volId, range, block, ExResize(vol.it, requiredSizeGib)));
      return if resized then Ok(Expanded(actualSizeBytes, !block)) else Err(Internal);
    }

    // -------------------------------------------------------------- creating a volume

    /**
     Reads the parameters, in whatever order, and the requirement, and rewrites the zone
     parameter when a zone is picked.
     */
    method MakePlan(params: RequestParams, requirement: Option<TopologyRequirement>, range: Option<CapacityRange>,
                    defaults: Defaults) returns (plan: Plan, ghost order: seq<string>)
      modifies params
      ensures OrderOf(old(params.opt), order)
      ensures plan == PlanFrom(ParsedIn(old(params.opt), order, defaults), requirement, range)
      ensures NoCollision(old(params.opt)) ==> plan == PlanFor(old(params.opt), requirement, range, defaults)
      ensures if requirement.Some? && plan != Rejected(InvalidArgument)
              then PickSpec(DRIVER_NAME, requirement).Picked?
                   && params.opt == Rezoned(old(params.opt), PickSpec(DRIVER_NAME, requirement).topo.zone)
              else params.opt == old(params.opt)
    {
      var sc;
      sc, order := NewZecStorageClassFromMap(params.opt, defaults);
      if sc.Failure? {
        return Rejected(InvalidArgument), order;
      }
      var zone;
      if requirement.Some? {
        var pick := PickTopology(DRIVER_NAME, requirement);
        if !pick.Picked? {
          return Rejected(InvalidArgument), order;
        }
        params.UpdateParmsZone(pick.topo.zone);
        zone := pick.topo.zone;
      } else {
        zone := sc.value.zoneId;
      }
      var bytes := GetRequiredVolumeSizeByte(sc.value.limits, range);
      if bytes.Failure? {
        return Rejected(OutOfRange), order;
      }
      return Planned(zone, sc.value.placeGroupId, sc.value.diskType, bytes.value), order;
    }

    method CreateVolume(name: string, capabilitiesOk: bool, params: RequestParams, defaults: Defaults,
                        requirement: Option<TopologyRequirement>, range: Option<CapacityRange>, source: Source)
      returns (o: Outcome, ghost plan: Plan, ghost order: seq<string>)
      modifies this, locks, params
      ensures Answered(Request.CreateVolume(name, capabilitiesOk, plan, range, requirement, source), o)
      ensures OrderOf(old(params.opt), order)
      ensures plan == PlanFrom(ParsedIn(old(params.opt), order, defaults), requirement, range)
      ensures NoCollision(old(params.opt)) ==> plan == PlanFor(old(params.opt), requirement, range, defaults)
      ensures var req := Request.CreateVolume(name, capabilitiesOk, plan, range, requirement, source);
        Precheck(req).None? && plan.Planned? ==> CreationMeaning.CvEnd(JobOf(req), o, CreationMeaning.StoryOf(log))
      ensures locks.locks == old(locks.locks)
    {
      plan, order := PlanInSomeOrder(params.opt, requirement, range, defaults);
      Begin(Request.CreateVolume(name, capabilitiesOk, plan, range, requirement, source));
      if !capabilitiesOk || |name| == 0 || |name| > MAX_NAME_LEN {
        return Err(InvalidArgument), plan, order;
      }
      var acquired := locks.TryAcquire(name);
      if !acquired {
        RecordRefusal(name);
        return Err(Aborted), plan, order;
      }
      var made;
      made, order := MakePlan(params, requirement, range, defaults);
      plan := made;
      o := CreatePlanned(name, made, requirement, range, source);
    }

    /** Enters into the record that the first lock of a CreateVolume is refused. */
    ghost method RecordRefusal(name: string)
      requires Valid() && log == [] && current.req.CreateVolume? && current.req.name == name && Precheck(current.req).None?
      modifies this`current, this`log
      ensures Answered(old(current).req, Err(Aborted))
      ensures current.req.plan.Planned? ==> CreationMeaning.CvEnd(JobOf(current.req), Err(Aborted), CreationMeaning.StoryOf(log))
    {
      Record(Action.TryLock(name), Denied);
      if current.req.plan.Planned? {
        CreationMeaning.CreateVolumeMeaning(current.req, log);
      }
    }

    /** The rest of CreateVolume, its first lock having just been granted. */
    method CreatePlanned(name: string, made: Plan, requirement: Option<TopologyRequirement>, range: Option<CapacityRange>,
                         source: Source) returns (o: Outcome)
      requires 0 < |name| <= MAX_NAME_LEN && name in locks.locks
      modifies this, locks
      ensures Answered(Request.CreateVolume(name, true, made, range, requirement, source), o)
      ensures made.Planned? ==>
        CreationMeaning.CvEnd(JobOf(Request.CreateVolume(name, true, made, range, requirement, source)), o, CreationMeaning.StoryOf(log))
      ensures locks.locks == old(locks.locks) - {name}
    {
      Begin(Request.CreateVolume(name, true, made, range, requirement, source));
      Record(Action.TryLock(name), Granted);
      if made.Rejected? {
        o := Err(made.code);
      } else {
        o := FindOrCreate(CreateJob(name, made.zone, made.group, made.typ, made.sizeByte, range, requirement, source));
      }
      Unlock(name);
      if made.Planned? {
        CreationMeaning.CreateVolumeMeaning(current.req, log);
      }
    }

    /** Counts the entries of the name with a first call, then reads them page by page from the start. */
    method FindVolumeByName(job: CreateJob) returns (found: DiskLookup)
      requires Valid() && current.phase == Running(Cv(job, CvLookup)) && current.defers != []
      modifies this`calls, this`current, this`log
      ensures Valid() && current == Follow(old(current).req, old(current).defers, AfterLookup(job, found))
    {
      var answer := Ask(ListDisks(job.name, job.zone, job.group, 1));
      if !answer.DiskPage? {
        return LookupFailed;
      }
      var count := answer.total;
      if count == 0 {
        return NotThere;
      }
      var all := answer.disks;
      if count > PAGE_SIZE {
        var pages := ReadDiskPages(job, count);
        if pages.None? {
          return LookupFailed;
        }
        all := pages.value;
      }
      TypeNameRoundTrip(job.typ);
      found := ScanForVolume(all, job.zone, ByteCeilToGib(job.sizeByte), TypeToString(job.typ));
    }

    /** Where a CreateVolume stands when `ra` of `calls` page calls have given `all`. */
    ghost function DiskPagesRead(job: CreateJob, ra: nat, calls: nat, all: seq<Disk>): Verdict {
      if ra < calls then Goto(Cv(job, CvPages(ra, calls, all))) else AfterLookup(job, LookupIn(job, all))
    }

    method ReadDiskPages(job: CreateJob, count: nat) returns (r: Option<seq<Disk>>)
      requires count > PAGE_SIZE && current.defers != []
      requires Valid() && current.phase == Running(Cv(job, CvPages(0, PageCount(count), [])))
      modifies this`calls, this`current, this`log
      ensures Valid()
      ensures current == Follow(old(current).req, old(current).defers,
                                AfterLookup(job, if r.Some? then LookupIn(job, r.value) else LookupFailed))
    {
      var apiCallNum := count / PAGE_SIZE;
      if count % PAGE_SIZE != 0 {
        apiCallNum := apiCallNum + 1;
      }
      var pageNum, all := 1, [];
      for ra := 0 to apiCallNum
        invariant Valid() && pageNum == ra + 1
        invariant current == Follow(old(current).req, old(current).defers, DiskPagesRead(job, ra, apiCallNum, all))
      {
        var page := ReadDiskPage(job, pageNum, apiCallNum, all);
        if page.None? {
          return None;
        }
        pageNum := pageNum + 1;
        all := all + page.value;
      }
      return Some(all);
    }

    method ReadDiskPage(job: CreateJob, pageNum: nat, ghost apiCallNum: nat, ghost all: seq<Disk>) returns (page: Option<seq<Disk>>)
      requires 1 <= pageNum <= apiCallNum && current.defers != []
      requires Valid() && current.phase == Running(Cv(job, CvPages(pageNum - 1, apiCallNum, all)))
      modifies this`calls, this`current, this`log
      ensures Valid()
      ensures current == if page.None? then Leave(old(current).req, old(current).defers, Err(Internal))
        else Follow(old(current).req, old(current).defers, DiskPagesRead(job, pageNum, apiCallNum, all + page.value))
    {
      var answer := Ask(ListDisks(job.name, job.zone, job.group, pageNum));
      return if answer.DiskPage? then Some(answer.disks) else None;
    }

    method FindOrCreate(job: CreateJob) returns (o: Outcome)
      requires Valid() && current.phase == Running(Cv(job, CvLookup)) && current.defers == [job.name]
      modifies this`calls, this`current, this`log, locks
      ensures Valid() && current == Leave(old(current).req, [job.name], o)
      ensures locks.locks == old(locks.locks)
    {
      var found := FindVolumeByName(job);
      match found {
        case LookupFailed => return Err(Internal);
        case SizeConflict(_) => return Err(AlreadyExists);
        case Found(vol) =>
          var exVolSizeByte := GibToByte(vol.size);
          if IsValidCapacityBytes(exVolSizeByte, job.range) && IsValidTopology(DRIVER_NAME, vol.zone, vol.typ, job.requirement)
             && vol.typ == job.typ {
            o := DescribeVolume(vol, exVolSizeByte, job.source);
            return;
          }
          return Err(AlreadyExists);
        case NotThere =>
      }
      match job.source {
        case Empty => o := CreateAndDescribe(job);
        case FromSnapshot(snapId) =>
          if |snapId| == 0 {
            return Err(InvalidArgument);
          }
          o := RestoreFromSnapshot(job, snapId);
        case FromVolume => return Err(Unimplemented);
        case UnknownSource => return Err(Internal);
      }
    }

    method RestoreFromSnapshot(job: CreateJob, snapId: Id) returns (o: Outcome)
      requires job.source == FromSnapshot(snapId)
      requires Valid() && current.phase == Locking(snapId, Goto(Cv(job, CvFindSnap)))
      requires current.defers == [job.name]
      modifies this`calls, this`current, this`log, locks
      ensures Valid() && current == Leave(old(current).req, [job.name], o)
      ensures locks.locks == old(locks.locks)
    {
      var acquired := TryLock(snapId);
      if !acquired {
        return Err(Aborted);
      }
      var snap, _ := FindSnapshot(snapId);
      if snap.Unreadable? {
        o := Err(Internal);
      } else if snap.Missing? {
        o := Err(NotFound);
      } else if !snap.it.diskAbility {
        o := Err(Internal);
      } else {
        o := CreateAndDescribe(job);
      }
      Unlock(snapId);
    }

    /** Creates the disk, waits for it, and describes it as the cloud then shows it. */
    method CreateAndDescribe(job: CreateJob) returns (o: Outcome)
      requires Valid() && current.defers != []
      requires current == Follow(current.req, current.defers, ToCreate(job))
      modifies this`calls, this`current, this`log
      ensures Valid() && current == Leave(old(current).req, old(current).defers, o)
    {
      var sizeGib := ByteCeilToGib(job.sizeByte);
      if job.name == "" || sizeGib == 0 || job.zone == "" || job.group == "" {
        return Err(Internal);
      }
      var answer := Ask(CreateDisk(job.name, sizeGib, job.typ, job.zone, job.group, SnapOf(job)));
      if !answer.Created? || answer.id == "" {
        return Err(Internal);
      }
      o := AwaitAndDescribe(job, answer.id, sizeGib);
    }

    method AwaitAndDescribe(job: CreateJob, newVolId: Id, sizeGib: int64) returns (o: Outcome)
      requires Valid() && current.phase == Running(Cv(job, CvWait(newVolId, false))) && current.defers != []
      requires sizeGib == SizeGib(job)
      modifies this`calls, this`current, this`log
      ensures Valid() && current == Leave(old(current).req, old(current).defers, o)
    {
      var available, _ := WaitDiskStatus(WaitAvailable, newVolId, Cv(job, CvWait(newVolId, true)));
      if !available {
        return Err(Internal);
      }
      var vol, _ := FindVolume(newVolId);
      if vol.Unreadable? {
        return Err(Internal);
      }
      if vol.Missing? {
        return Err(Aborted);
      }
      o := DescribeVolume(vol.it, GibToByte(sizeGib), job.source);
    }

    method DescribeVolume(vol: Disk, capacityBytes: int64, source: Source) returns (o: Outcome)
      ensures o == VolumeAnswer(vol, capacityBytes, source)
    {
      if vol.id == "" || vol.serial == "" {
        return Err(Aborted);
      }
      var topology := GetVolumeTopology(DRIVER_NAME, vol.zone, vol.typ);
      return Ok(Volume(VolumeId.GenCsiVolId(vol.id, vol.serial), capacityBytes, source, topology));
    }

    // -------------------------------------------------------------- the RPCs on snapshots

    method CreateSnapshot(name: string, csiVolId: string, parametersOk: bool) returns (o: Outcome)
      modifies this, locks
      ensures Answered(Request.CreateSnapshot(name, csiVolId, parametersOk), o)
      ensures var req := Request.CreateSnapshot(name, csiVolId, parametersOk);
        Precheck(req).None? ==> SnapshotMeanings.CsEnd(MainKey(req), parametersOk, o, SnapshotMeanings.StoryOf(log))
      ensures locks.locks == old(locks.locks)
    {
      Begin(Request.CreateSnapshot(name, csiVolId, parametersOk));
      if |csiVolId| == 0 || |name| == 0 || |name| > MAX_NAME_LEN {
        return Err(InvalidArgument);
      }
      var parts := VolumeId.ParseCsiVolId(csiVolId);
      if parts.None? {
        return Err(NotFound);
      }
      var srcVolId := parts.value.volId;
      var acquired := TryLock(srcVolId);
      if !acquired {
        SnapshotMeanings.CreateSnapshotMeaning(current.req, log);
        return Err(Aborted);
      }
      o := SnapshotLocked(name, srcVolId, parametersOk);
      Unlock(srcVolId);
      SnapshotMeanings.CreateSnapshotMeaning(current.req, log);
    }

    method SnapshotLocked(name: string, srcVolId: Id, parametersOk: bool) returns (o: Outcome)
      requires Valid() && current.phase == Running(Cs(name, srcVolId, parametersOk, CsFind)) && current.defers != []
      modifies this`calls, this`current, this`log
      ensures Valid() && current == Leave(old(current).req, old(current).defers, o)
    {
      var vol, _ := FindVolume(srcVolId);
      if vol.Unreadable? {
        return Err(Internal);
      }
      if vol.Missing? {
        return Err(NotFound);
      }
      if !vol.it.snapshotAbility {
        return Err(Internal);
      }
      var found := FindSnapshotByName(name, srcVolId, vol.it, parametersOk);
      match found {
        case SnapLookupFailed => return Err(Internal);
        case OtherSource(_) => return Err(AlreadyExists);
        case SnapFound(snap) =>
          return Ok(Snapshot(snap.id, snap.src, snap.status == SnapAvailable, GibToByte(vol.it.size)));
        case SnapNotThere =>
      }
      if !parametersOk {
        return Err(InvalidArgument);
      }
      o := CreateSnapshotOf(name, srcVolId, vol.it, parametersOk);
    }

    method FindSnapshotByName(name: string, srcVolId: Id, vol: Disk, ghost parametersOk: bool) returns (found: SnapLookup)
      requires Valid() && current.phase == Running(Cs(name, srcVolId, parametersOk, CsLookup(vol))) && current.defers != []
      modifies this`calls, this`current, this`log
      ensures Valid()
      ensures current == Follow(old(current).req, old(current).defers,
                                AfterSnapLookup(name, srcVolId, parametersOk, vol, found))
    {
      var answer := Ask(ListSnaps(name, vol.zone, vol.group, 1));
      if !answer.SnapPage? {
        return SnapLookupFailed;
      }
      var count := answer.total;
      if count == 0 {
        return SnapNotThere;
      }
      var all := answer.snaps;
      if count > PAGE_SIZE {
        var pages := ReadSnapPages(name, srcVolId, vol, parametersOk, count);
        if pages.None? {
          return SnapLookupFailed;
        }
        all := pages.value;
      }
      for c := 0 to |all|
        invariant c == 0
      {
        return if all[c].src == srcVolId then SnapFound(all[c]) else OtherSource(all[c]);
      }
      return SnapNotThere;
    }

    /** Where a snapshot request stands when `ra` of `calls` page calls have given `all`. */
    ghost function SnapPagesRead(name: string, srcVolId: Id, vol: Disk, parametersOk: bool, ra: nat, calls: nat, all: seq<Snap>)
      : Verdict
    {
      if ra < calls then Goto(Cs(name, srcVolId, parametersOk, CsPages(vol, ra, calls, all)))
      else AfterSnapLookup(name, srcVolId, parametersOk, vol, FirstSnap(all, srcVolId))
    }

    method ReadSnapPages(name: string, srcVolId: Id, vol: Disk, ghost parametersOk: bool, count: nat)
      returns (r: Option<seq<Snap>>)
      requires count > PAGE_SIZE && current.defers != []
      requires Valid()
      requires current.phase == Running(Cs(name, srcVolId, parametersOk, CsPages(vol, 0, PageCount(count), [])))
      modifies this`calls, this`current, this`log
      ensures Valid()
      ensures current == Follow(old(current).req, old(current).defers,
        AfterSnapLookup(name, srcVolId, parametersOk, vol, if r.Some? then FirstSnap(r.value, srcVolId) else SnapLookupFailed))
    {
      var apiCallNum := count / PAGE_SIZE;
      if count % PAGE_SIZE != 0 {
        apiCallNum := apiCallNum + 1;
      }
      var pageNum, all := 1, [];
      for ra := 0 to apiCallNum
        invariant Valid() && pageNum == ra + 1
        invariant current == Follow(old(current).req, old(current).defers,
                                    SnapPagesRead(name, srcVolId, vol, parametersOk, ra, apiCallNum, all))
      {
        var page := ReadSnapPage(name, srcVolId, vol, parametersOk, pageNum, apiCallNum, all);
        if page.None? {
          return None;
        }
        pageNum := pageNum + 1;
        all := all + page.value;
      }
      return Some(all);
    }

    method ReadSnapPage(name: string, srcVolId: Id, vol: Disk, ghost parametersOk: bool, pageNum: nat, ghost apiCallNum: nat,
                        ghost all: seq<Snap>) returns (page: Option<seq<Snap>>)
      requires 1 <= pageNum <= apiCallNum && current.defers != []
      requires Valid() && current.phase == Running(Cs(name, srcVolId, parametersOk, CsPages(vol, pageNum - 1, apiCallNum, all)))
      modifies this`calls, this`current, this`log
      ensures Valid()
      ensures current == if page.None? then Leave(old(current).req, old(current).defers, Err(Internal))
        else Follow(old(current).req, old(current).defers,
                    SnapPagesRead(name, srcVolId, vol, parametersOk, pageNum, apiCallNum, all + page.value))
    {
      var answer := Ask(ListSnaps(name, vol.zone, vol.group, pageNum));
      return if answer.SnapPage? then Some(answer.snaps) else None;
    }

    method CreateSnapshotOf(name: string, srcVolId: Id, vol: Disk, ghost parametersOk: bool) returns (o: Outcome)
      requires Valid() && current.phase == Running(Cs(name, srcVolId, parametersOk, CsCreate(vol))) && current.defers != []
      modifies this`calls, this`current, this`log
      ensures Valid() && current == Leave(old(current).req, old(current).defers, o)
    {
      var answer := Ask(CreateSnap(name, srcVolId));
      if !answer.Created? || answer.id == "" {
        return Err(Internal);
      }
      o := AwaitSnapshot(name, srcVolId, vol, answer.id, parametersOk);
    }

    method AwaitSnapshot(name: string, srcVolId: Id, vol: Disk, newId: Id, ghost parametersOk: bool) returns (o: Outcome)
      requires Valid() && current.phase == Running(Cs(name, srcVolId, parametersOk, CsWait(vol, newId, false))) && current.defers != []
      modifies this`calls, this`current, this`log
      ensures Valid() && current == Leave(old(current).req, old(current).defers, o)
    {
      var available, _ := WaitDiskSnapStatus(WaitSnapAvailable, newId, Cs(name, srcVolId, parametersOk, CsWait(vol, newId, true)));
      if !available {
        return Err(Internal);
      }
      var snap, _ := FindSnapshot(newId);
      if !snap.Single? {
        return Err(Internal);
      }
      return Ok(Snapshot(snap.it.id, snap.it.src, snap.it.status == SnapAvailable, GibToByte(vol.size)));
    }

    method WaitDiskSnapStatus(w: WaitFor, id: Id, ghost again: Body) returns (reached: bool, ghost last: Reply)
      requires Valid() && current.phase.Running? && Waits(w, DescribeSnap(id), current.phase.body, again)
      modifies this`calls, this`current, this`log
      ensures Valid() && Judge(w, last) != Again && (reached <==> Judge(w, last) == Stop)
      ensures current == Follow(old(current).req, old(current).defers, Advance(old(current).phase.body, last))
    {
      var answer;
      reached, answer := Wait(w, DescribeSnap(id), again);
      last := answer;
    }

    method DeleteSnapshot(snapId: Id) returns (o: Outcome)
      modifies this, locks
      ensures Answered(Request.DeleteSnapshot(snapId), o)
      ensures Precheck(Request.DeleteSnapshot(snapId)).None? ==>
        SnapshotMeanings.DsEnd(o, Replies(log, SnapSight), Replies(log, SnapDeletion))
      ensures locks.locks == old(locks.locks)
    {
      Begin(Request.DeleteSnapshot(snapId));
      if |snapId| == 0 {
        return Err(InvalidArgument);
      }
      var acquired := TryLock(snapId);
      if !acquired {
        SnapshotMeanings.DeleteSnapshotMeaning(current.req, log);
        return Err(Aborted);
      }
      o := DeleteSnapshotLocked(snapId);
      Unlock(snapId);
      SnapshotMeanings.DeleteSnapshotMeaning(current.req, log);
    }

    method DeleteSnapshotLocked(snapId: Id) returns (o: Outcome)
      requires Valid() && current.phase == Running(Ds(snapId, DsFind)) && current.defers != []
      modifies this`calls, this`current, this`log
      ensures Valid() && current == Leave(old(current).req, old(current).defers, o)
    {
      var snap, _ := FindSnapshot(snapId);
      if snap.Unreadable? {
        return Err(Internal);
      }
      if snap.Missing? {
        return Ok(Done);
      }
      var answer := Ask(DeleteSnap(snapId));
      if answer == ResourceNotFound {
        return Ok(Done);
      }
      if answer != Accepted {
        return Err(Internal);
      }
      var gone, _ := WaitDiskSnapStatus(WaitSnapDeleted, snapId, Ds(snapId, DsWait(true)));
      return if gone then Ok(Done) else Err(Internal);
    }
  }

  /** From `b` as from `again`, an indecisive answer to `call` leads to `again`, and any other to the same verdict. */
  ghost predicate Waits(w: WaitFor, call: Call, b: Body, again: Body) {
    && CallOf(b) == call && CallOf(again) == call
    && forall r :: Advance(b, r) == Advance(again, r) && (Judge(w, r) == Again ==> Advance(again, r) == Goto(again))
  }

  lemma WaitGoesOn(w: WaitFor, call: Call, t: Rpc, again: Body, r: Reply)
    requires t.phase.Running? && Waits(w, call, t.phase.body, again) && Judge(w, r) == Again
    ensures Waits(w, call, again, again) && Resume(t, r) == Rpc(t.req, Running(again), t.defers)
  {
  }

  lemma WaitEndsAlike(w: WaitFor, call: Call, b: Body, again: Body, r: Reply)
    requires Waits(w, call, b, again)
    ensures Advance(b, r) == Advance(again, r)
  {
  }

  lemma TimerFailsWait(w: WaitFor)
    ensures Judge(w, TimerFired) == Fail
  {
  }
}
