/**
 Any number of controller RPCs in flight over one lock set and one asynchronous cloud.

 A label names who moves and how every choice outside the driver comes out, so a step is
 a partial function of state and label, and a run is any sequence of enabled labels.
 */
module ControllerSystem {
  import opened CloudTypes
  import opened Locks
  import opened Paging
  import opened RpcCodes
  import opened ControllerProgram
  import opened Capacity

  // ---------------------------------------------------------------- the cloud

  datatype OpKind = AttachOp(vm: Id) | DetachOp | ResizeOp(size: int64)

  /** An accepted command that has not taken effect yet, and the RPC that issued it. */
  datatype Op = Op(issuer: nat, vol: Id, kind: OpKind)

  /** Zone and group of a disk never change, and outlive it. */
  datatype Birth = Birth(zone: string, group: string)

  datatype Cloud = Cloud(
    disks: map<Id, Disk>, snaps: map<Id, Snap>, ops: map<nat, Op>, births: map<Id, Birth>, snapIds: set<Id>)

  /** What a command does at once: nothing, a new disk or snapshot, or a queued operation. */
  datatype Effect = NoEffect | NewDisk(disk: Disk) | NewOp(ticket: nat) | NewSnap(snap: Snap)

  /** What the cloud, or somebody other than the driver, does on its own. */
  datatype Event =
    | Land(ticket: nat)
    | Drop(ticket: nat)
    | Update(id: Id, status: DiskStatus, serial: string, snapshotAbility: bool)
    | Vanish(id: Id)
    | SnapUpdate(id: Id, snapStatus: SnapStatus, diskAbility: bool)
    | SnapVanish(id: Id)
    | OutsideDisk(disk: Disk)
    | OutsideSnap(snap: Snap)
    | OutsideInstance(id: Id, instance: Id)
    | OutsideSize(id: Id, size: int64)

  /** Structure every cloud state has. */
  ghost predicate CloudOk(c: Cloud) {
    && (forall id :: id in c.disks ==>
         c.disks[id].id == id && id in c.births && c.births[id] == Birth(c.disks[id].zone, c.disks[id].group))
    && (forall id :: id in c.snaps ==>
         && c.snaps[id].id == id && id in c.snapIds && c.snaps[id].src in c.births
         && c.births[c.snaps[id].src] == Birth(c.snaps[id].zone, c.snaps[id].group))
  }

  /** A listing holds exactly the disks of the name, zone and group, each once, in any order. */
  ghost predicate IsDiskListing(c: Cloud, name: string, zone: string, group: string, list: seq<Disk>) {
    && (forall a, b :: 0 <= a < b < |list| ==> list[a].id != list[b].id)
    && (forall d :: d in list <==> d.id in c.disks && c.disks[d.id] == d && d.name == name && d.zone == zone && d.group == group)
  }

  ghost predicate IsSnapListing(c: Cloud, name: string, zone: string, group: string, list: seq<Snap>) {
    && (forall a, b :: 0 <= a < b < |list| ==> list[a].id != list[b].id)
    && (forall s :: s in list <==> s.id in c.snaps && c.snaps[s.id] == s && s.name == name && s.zone == zone && s.group == group)
  }

  /** The answer is a page of a listing as it is now; the order may differ from call to call. */
  ghost predicate IsDiskPage(c: Cloud, name: string, zone: string, group: string, pageNum: nat, r: Reply) {
    r.DiskPage? && pageNum >= 1
    && exists list :: IsDiskListing(c, name, zone, group, list) && r.total == |list| && r.disks == Page(list, pageNum)
  }

  ghost predicate IsSnapPage(c: Cloud, name: string, zone: string, group: string, pageNum: nat, r: Reply) {
    r.SnapPage? && pageNum >= 1
    && exists list :: IsSnapListing(c, name, zone, group, list) && r.total == |list| && r.snaps == Page(list, pageNum)
  }

  ghost predicate FreshDisk(c: Cloud, d: Disk) {
    d.id !in c.births && d.id !in c.disks && d.instance == ""
  }

  ghost predicate FreshSnap(c: Cloud, s: Snap) {
    && s.id !in c.snapIds && s.id !in c.snaps
    && s.src in c.births && c.births[s.src] == Birth(s.zone, s.group)
  }

  /**
   Queries answer truthfully or with an error; a command takes effect or not, and an error
   answer leaves open which.
   */
  ghost predicate Answers(c: Cloud, call: Call, r: Reply, e: Effect) {
    match call
    case DescribeDisk(id) =>
      e == NoEffect && (r == ApiError || r == Disks(if id in c.disks then [c.disks[id]] else []))
    case ListDisks(name, zone, group, pageNum) =>
      e == NoEffect && (r == ApiError || IsDiskPage(c, name, zone, group, pageNum, r))
    case DescribeInstance(_) =>
      e == NoEffect && (r == ApiError || r.Instances?)
    case CreateDisk(name, size, typ, zone, group, fromSnap) =>
      || (e == NoEffect && r == ApiError)
      || (e.NewDisk? && FreshDisk(c, e.disk)
          && e.disk.name == name && e.disk.size == size && e.disk.typ == typ && e.disk.zone == zone && e.disk.group == group
          && e.disk.origin == fromSnap && (r == ApiError || r == Created(e.disk.id)))
    case ReleaseDisk(id) =>
      e == NoEffect && (r == ApiError || r == Accepted || (r == ResourceNotFound && id !in c.disks))
    case AttachDisk(_, _) => QueuesOp(c, r, e)
    case DetachDisk(_) => QueuesOp(c, r, e)
    case ResizeDisk(_, _) => QueuesOp(c, r, e)
    case DescribeSnap(id) =>
      e == NoEffect && (r == ApiError || r == Snaps(if id in c.snaps then [c.snaps[id]] else []))
    case ListSnaps(name, zone, group, pageNum) =>
      e == NoEffect && (r == ApiError || IsSnapPage(c, name, zone, group, pageNum, r))
    case CreateSnap(name, src) =>
      || (e == NoEffect && r == ApiError)
      || (e.NewSnap? && FreshSnap(c, e.snap) && e.snap.name == name && e.snap.src == src
          && (r == ApiError || r == Created(e.snap.id)))
    case DeleteSnap(id) =>
      e == NoEffect && (r == ApiError || r == Accepted || r == PartlyRefused || (r == ResourceNotFound && id !in c.snaps))
  }

  ghost predicate QueuesOp(c: Cloud, r: Reply, e: Effect) {
    || (e == NoEffect && (r == ApiError || r == PartlyRefused))
    || (e.NewOp? && e.ticket !in c.ops && (r == ApiError || r == PartlyRefused || r == Accepted))
  }

  /** The operation a command queues. */
  function OpOf(i: nat, call: Call): Op {
    match call
    case AttachDisk(id, vm) => Op(i, id, AttachOp(vm))
    case ResizeDisk(id, size) => Op(i, id, ResizeOp(size))
    case _ => Op(i, if call.DetachDisk? then call.id else "", DetachOp)
  }

  function AddDisk(c: Cloud, d: Disk): Cloud {
    c.(disks := c.disks[d.id := d], births := c.births[d.id := Birth(d.zone, d.group)])
  }

  function AddSnap(c: Cloud, s: Snap): Cloud {
    c.(snaps := c.snaps[s.id := s], snapIds := c.snapIds + {s.id})
  }

  function AfterCall(c: Cloud, i: nat, call: Call, e: Effect): Cloud {
    match e
    case NoEffect => c
    case NewDisk(d) => AddDisk(c, d)
    case NewOp(ticket) => c.(ops := c.ops[ticket := OpOf(i, call)])
    case NewSnap(s) => AddSnap(c, s)
  }

  ghost predicate Possible(c: Cloud, ev: Event) {
    match ev
    case Land(ticket) => ticket in c.ops
    case Drop(ticket) => ticket in c.ops
    case Update(id, _, _, _) => id in c.disks
    case Vanish(id) => id in c.disks
    case SnapUpdate(id, _, _) => id in c.snaps
    case SnapVanish(id) => id in c.snaps
    case OutsideDisk(d) => FreshDisk(c, d)
    case OutsideSnap(s) => FreshSnap(c, s)
    case OutsideInstance(id, _) => id in c.disks
    case OutsideSize(id, _) => id in c.disks
  }

  /** A landing command acts on the disk as it is by then; a detach names no instance. */
  function Landed(d: Disk, kind: OpKind): Disk {
    match kind
    case AttachOp(vm) => d.(instance := vm)
    case DetachOp => d.(instance := "")
    case ResizeOp(size) => d.(size := size)
  }

  function PutDisk(c: Cloud, id: Id, d: Disk): Cloud {
    c.(disks := c.disks[id := d])
  }

  function AfterEvent(c: Cloud, ev: Event): Cloud
    requires ev.Land? || ev.Drop? ==> ev.ticket in c.ops
    requires ev.Update? || ev.OutsideInstance? || ev.OutsideSize? ==> ev.id in c.disks
    requires ev.SnapUpdate? ==> ev.id in c.snaps
  {
    match ev
    case Land(ticket) =>
      var op := c.ops[ticket];
      var c' := c.(ops := c.ops - {ticket});
      if op.vol in c.disks then PutDisk(c', op.vol, Landed(c.disks[op.vol], op.kind)) else c'
    case Drop(ticket) => c.(ops := c.ops - {ticket})
    case Update(id, status, serial, ability) =>
      PutDisk(c, id, c.disks[id].(status := status, serial := serial, snapshotAbility := ability))
    case Vanish(id) => c.(disks := c.disks - {id})
    case SnapUpdate(id, status, ability) =>
      c.(snaps := c.snaps[id := c.snaps[id].(status := status, diskAbility := ability)])
    case SnapVanish(id) => c.(snaps := c.snaps - {id})
    case OutsideDisk(d) => AddDisk(c, d)
    case OutsideSnap(s) => AddSnap(c, s)
    case OutsideInstance(id, instance) => PutDisk(c, id, c.disks[id].(instance := instance))
    case OutsideSize(id, size) => PutDisk(c, id, c.disks[id].(size := size))
  }

  // ---------------------------------------------------------------- the system

  datatype State = State(locks: set<Key>, rpcs: map<nat, Rpc>, cloud: Cloud)

  datatype Label =
    | Spawn(i: nat, req: Request)
    | Drive(i: nat, reply: Reply, effect: Effect)
    | Env(ev: Event)

  ghost predicate CanDrive(s: State, i: nat, r: Reply, e: Effect) {
    && i in s.rpcs && Active(s.rpcs[i])
    && match NextAction(s.rpcs[i])
       case TryLock(k) => e == NoEffect && r == (if k in s.locks then Denied else Granted)
       case Unlock(_) => e == NoEffect && r == Released
       case Ask(call) =>
         || Answers(s.cloud, call, r, e)
         || (MayTimeOut(s.rpcs[i].phase.body) && r == TimerFired && e == NoEffect)
  }

  ghost predicate Enabled(s: State, l: Label) {
    match l
    case Spawn(i, _) => i !in s.rpcs
    case Drive(i, r, e) => CanDrive(s, i, r, e)
    case Env(ev) => Possible(s.cloud, ev)
  }

  function LocksAfter(locks: set<Key>, a: Action, r: Reply): set<Key> {
    match a
    case TryLock(k) => if r == Granted then locks + {k} else locks
    case Unlock(k) => locks - {k}
    case Ask(_) => locks
  }

  ghost function Apply(s: State, l: Label): State
    requires Enabled(s, l)
  {
    match l
    case Spawn(i, req) => s.(rpcs := s.rpcs[i := Start(req)])
    case Drive(i, r, e) =>
      var a := NextAction(s.rpcs[i]);
      State(LocksAfter(s.locks, a, r), s.rpcs[i := Resume(s.rpcs[i], r)],
            if a.Ask? then AfterCall(s.cloud, i, a.call, e) else s.cloud)
    case Env(ev) => s.(cloud := AfterEvent(s.cloud, ev))
  }

  ghost predicate Initial(s: State) {
    s.locks == {} && s.rpcs == map[] && s.cloud.ops == map[] && CloudOk(s.cloud)
  }

  /** A run: states joined by enabled labels, from an initial state. */
  ghost predicate IsRun(ss: seq<State>, ls: seq<Label>) {
    && |ss| == |ls| + 1 && Initial(ss[0])
    && forall k :: 0 <= k < |ls| ==> StepsTo(ss, ls, k)
  }

  ghost predicate StepsTo(ss: seq<State>, ls: seq<Label>, k: nat)
    requires k < |ls| && |ss| == |ls| + 1
  {
    Enabled(ss[k], ls[k]) && ss[k + 1] == Apply(ss[k], ls[k])
  }

  // ---------------------------------------------------------------- lock ownership

  function StacksOf(rpcs: map<nat, Rpc>): Stacks {
    map i | i in rpcs :: rpcs[i].defers
  }

  /** What holds in every state of every run, whatever the cloud and anybody else does. */
  ghost predicate Inv(s: State) {
    && Owned(s.locks, StacksOf(s.rpcs))
    && (forall i :: i in s.rpcs ==> WellFormedRpc(s.rpcs[i]))
    && CloudOk(s.cloud)
  }

  lemma InitialInv(s: State)
    requires Initial(s)
    ensures Inv(s)
  {
    assert forall i, k :: !Holds(StacksOf(s.rpcs), i, k);
  }

  lemma DriveKeepsOwned(s: State, i: nat, r: Reply, e: Effect)
    requires Inv(s) && CanDrive(s, i, r, e)
    ensures Owned(Apply(s, Drive(i, r, e)).locks, StacksOf(Apply(s, Drive(i, r, e)).rpcs))
  {
    var t := s.rpcs[i];
    var a := NextAction(t);
    var t' := Resume(t, r);
    var s' := Apply(s, Drive(i, r, e));
    StackDiscipline(t, r);
    var stacks := StacksOf(s.rpcs);
    assert StacksOf(s'.rpcs) == stacks[i := t'.defers];
    match a
    case TryLock(k) => {
      if r == Granted {
        OwnedAfterAcquire(s.locks, stacks, i, k);
      } else {
        assert stacks[i := t'.defers] == stacks;
      }
    }
    case Unlock(k) => {
      assert t.defers[1..] == t'.defers;
      OwnedAfterRelease(s.locks, stacks, i);
    }
    case Ask(_) => {
      assert stacks[i := t'.defers] == stacks;
    }
  }

  lemma DriveKeepsCloudOk(s: State, i: nat, r: Reply, e: Effect)
    requires CloudOk(s.cloud) && CanDrive(s, i, r, e)
    ensures CloudOk(Apply(s, Drive(i, r, e)).cloud)
  {
  }

  lemma EventKeepsCloudOk(c: Cloud, ev: Event)
    requires CloudOk(c) && Possible(c, ev)
    ensures CloudOk(AfterEvent(c, ev))
  {
  }

  /** An RPC's own step leaves every disk there is as it is, and queues at most its own operation. */
  lemma DriveTouchesLittle(s: State, i: nat, r: Reply, e: Effect)
    requires CloudOk(s.cloud) && CanDrive(s, i, r, e)
    ensures var c, c' := s.cloud, Apply(s, Drive(i, r, e)).cloud;
      && (forall id :: id in c.births ==> id in c'.births)
      && (forall id :: id in c.births && id in c'.disks ==> id in c.disks && c'.disks[id] == c.disks[id])
      && c'.ops == (if e.NewOp? then c.ops[e.ticket := c'.ops[e.ticket]] else c.ops)
      && (e.NewOp? ==> e.ticket !in c.ops && e.ticket in c'.ops && c'.ops[e.ticket].issuer == i)
  {
  }

  lemma StepKeepsInv(s: State, l: Label)
    requires Inv(s) && Enabled(s, l)
    ensures Inv(Apply(s, l))
  {
    match l
    case Spawn(i, req) => {
      StartIsWellFormed(req);
      OwnedAfterStart(s.locks, StacksOf(s.rpcs), i);
      assert StacksOf(s.rpcs[i := Start(req)]) == StacksOf(s.rpcs)[i := []];
    }
    case Drive(i, r, e) => {
      DriveKeepsOwned(s, i, r, e);
      DriveKeepsCloudOk(s, i, r, e);
      ResumeIsWellFormed(s.rpcs[i], r);
    }
    case Env(ev) => {
      EventKeepsCloudOk(s.cloud, ev);
    }
  }

  /**
   In every state of every run the lock set is exactly the disjoint union of the keys held
   by the RPCs in flight, and every RPC is at a point its request leads to.
   */
  lemma {:induction false} LocksAreOwned(ss: seq<State>, ls: seq<Label>, n: nat)
    requires IsRun(ss, ls) && n < |ss|
    ensures Inv(ss[n])
  {
    if n == 0 {
      InitialInv(ss[0]);
    } else {
      LocksAreOwned(ss, ls, n - 1);
      assert StepsTo(ss, ls, n - 1);
      StepKeepsInv(ss[n - 1], ls[n - 1]);
    }
  }

  datatype Move = Began | Stayed | Moved

  function MoveOf(l: Label, i: nat): Move {
    if l.Spawn? && l.i == i then Began else if l.Drive? && l.i == i then Moved else Stayed
  }

  /** How one RPC fares in one step: it begins, makes its own move, or stays as it was. */
  lemma FaresInStep(s: State, l: Label, i: nat)
    requires Enabled(s, l) && i in Apply(s, l).rpcs
    ensures match MoveOf(l, i) {
        case Began => i !in s.rpcs && Apply(s, l).rpcs[i] == Start(l.req)
        case Stayed => i in s.rpcs && Apply(s, l).rpcs[i] == s.rpcs[i]
        case Moved =>
          && CanDrive(s, i, l.reply, l.effect)
          && Apply(s, l).rpcs[i] == Resume(s.rpcs[i], l.reply)
          && Apply(s, l).rpcs[i].req == s.rpcs[i].req
      }
  {
  }

  /** The same at a step of a run. */
  lemma RpcStep(ss: seq<State>, ls: seq<Label>, n: nat, i: nat)
    requires IsRun(ss, ls) && 0 < n < |ss| && i in ss[n].rpcs
    ensures Inv(ss[n - 1]) && Inv(ss[n])
    ensures match MoveOf(ls[n - 1], i) {
        case Began => i !in ss[n - 1].rpcs && ss[n].rpcs[i] == Start(ls[n - 1].req)
        case Stayed => i in ss[n - 1].rpcs && ss[n].rpcs[i] == ss[n - 1].rpcs[i]
        case Moved =>
          && CanDrive(ss[n - 1], i, ls[n - 1].reply, ls[n - 1].effect)
          && ss[n].rpcs[i] == Resume(ss[n - 1].rpcs[i], ls[n - 1].reply)
          && ss[n].rpcs[i].req == ss[n - 1].rpcs[i].req
      }
  {
    assert StepsTo(ss, ls, n - 1);
    FaresInStep(ss[n - 1], ls[n - 1], i);
    LocksAreOwned(ss, ls, n - 1);
    LocksAreOwned(ss, ls, n);
  }

  /** No two RPCs hold the same key. */
  lemma Exclusive(s: State, i: nat, j: nat, k: Key)
    requires Inv(s) && i in s.rpcs && j in s.rpcs && k in s.rpcs[i].defers && k in s.rpcs[j].defers
    ensures i == j
  {
    assert Holds(StacksOf(s.rpcs), i, k) && Holds(StacksOf(s.rpcs), j, k);
  }

  /** When every RPC has finished, no key is left behind. */
  lemma NothingLeftLocked(ss: seq<State>, ls: seq<Label>, n: nat)
    requires IsRun(ss, ls) && n < |ss|
    requires forall i :: i in ss[n].rpcs ==> ss[n].rpcs[i].phase.Finished?
    ensures ss[n].locks == {}
  {
    LocksAreOwned(ss, ls, n);
    var s := ss[n];
    assert forall i :: i in s.rpcs ==> s.rpcs[i].defers == [];
    assert forall i, k :: !Holds(StacksOf(s.rpcs), i, k);
  }

  /** A volume name equal to the id of the snapshot to restore from is refused, not deadlocked on. */
  lemma NameEqualToSnapshotIsAborted(s: State, i: nat, r: Reply, e: Effect)
    requires Inv(s) && CanDrive(s, i, r, e)
    requires s.rpcs[i].phase.Locking? && s.rpcs[i].defers == [s.rpcs[i].phase.key]
    ensures var t' := Apply(s, Drive(i, r, e)).rpcs[i];
      t'.phase == Unwinding(Err(Aborted)) && t'.defers == s.rpcs[i].defers
  {
    assert Holds(StacksOf(s.rpcs), i, s.rpcs[i].phase.key);
  }

  /** The RPC is restoring a volume from the snapshot: past the nested lock, not yet returned. */
  predicate Restoring(t: Rpc, snapId: Id) {
    && t.phase.Running? && t.phase.body.Cv? && t.phase.body.job.source == FromSnapshot(snapId)
    && !t.phase.body.cvAt.CvLookup? && !t.phase.body.cvAt.CvPages?
  }

  /** The RPC is about to delete the snapshot, or waiting for it to go away. */
  predicate DeletingSnap(t: Rpc, snapId: Id) {
    t.phase.Running? && t.phase.body.Ds? && t.phase.body.snapId == snapId
  }

  /** No snapshot is deleted by the driver while a restore from it is in progress. */
  lemma RestoreExcludesDelete(ss: seq<State>, ls: seq<Label>, n: nat, i: nat, j: nat, snapId: Id)
    requires IsRun(ss, ls) && n < |ss| && i in ss[n].rpcs && j in ss[n].rpcs
    ensures !(Restoring(ss[n].rpcs[i], snapId) && DeletingSnap(ss[n].rpcs[j], snapId))
  {
    LocksAreOwned(ss, ls, n);
    var s := ss[n];
    if Restoring(s.rpcs[i], snapId) && DeletingSnap(s.rpcs[j], snapId) {
      assert snapId in s.rpcs[i].defers && snapId in s.rpcs[j].defers;
      Exclusive(s, i, j, snapId);
    }
  }
}
