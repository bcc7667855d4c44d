/**
 Where the disk that an RPC acts on was seen: every attach, detach and resize command goes
 back to an observation the same RPC made while holding the volume's lock ever since.
 These facts need no assumption about the cloud or about anybody else.
 */
module Observations {
  import opened Wrappers
  import opened Capacity
  import opened CloudTypes
  import opened Locks
  import opened ControllerProgram
  import opened ControllerSystem

  /** The volume and the disk description an RPC carries along, once it has looked the disk up. */
  function SeenIn(b: Body): Option<Disk> {
    match b
    case Pb(_, _, at) => if at.PbFind? || at.PbRefind? then None else Some(at.vol)
    case Up(_, _, at) => if at.UpFind? then None else Some(at.vol)
    case Ex(_, _, _, at) => if at.ExFind? then None else Some(at.vol)
    case Cs(_, _, _, at) => if at.CsFind? then None else Some(at.vol)
    case _ => None
  }

  function Seen(t: Rpc): Option<Disk> {
    if t.phase.Running? then SeenIn(t.phase.body) else None
  }

  /** RPC `i` was told at step `m` that its volume is described by `vol`, truthfully. */
  ghost predicate ObservedAt(ss: seq<State>, ls: seq<Label>, m: nat, i: nat, vol: Disk)
    requires m < |ls| < |ss|
  {
    && ls[m] == Drive(i, Disks([vol]), NoEffect)
    && i in ss[m].rpcs && Active(ss[m].rpcs[i])
    && NextAction(ss[m].rpcs[i]) == Ask(DescribeDisk(MainKey(ss[m].rpcs[i].req)))
    && MainKey(ss[m].rpcs[i].req) in ss[m].cloud.disks && ss[m].cloud.disks[MainKey(ss[m].rpcs[i].req)] == vol
  }

  /** RPC `i` has been on the same request and has held its main key from state `m` through state `n`. */
  ghost predicate HeldThroughout(ss: seq<State>, m: nat, n: nat, i: nat, req: Request)
    requires n < |ss|
  {
    forall k :: m <= k <= n ==>
      && i in ss[k].rpcs && ss[k].rpcs[i].req == req
      && MainKey(req) in ss[k].rpcs[i].defers && MainKey(req) in ss[k].locks
  }

  /** At `b` the RPC asks about the disk `id`, and `r` describes exactly `vol`. */
  predicate TellsOf(b: Body, id: Id, r: Reply, vol: Disk) {
    CallOf(b) == DescribeDisk(id) && !MayTimeOut(b) && r == Disks([vol])
  }

  lemma PbNewlySeen(id: Id, node: Id, at: PbAt, r: Reply)
    requires AdvancePb(id, node, at, r).Goto?
    requires SeenIn(AdvancePb(id, node, at, r).body).Some? && SeenIn(Pb(id, node, at)) != SeenIn(AdvancePb(id, node, at, r).body)
    ensures TellsOf(Pb(id, node, at), id, r, SeenIn(AdvancePb(id, node, at, r).body).value)
  {
  }

  lemma UpNewlySeen(id: Id, node: Id, at: UpAt, r: Reply)
    requires AdvanceUp(id, node, at, r).Goto?
    requires SeenIn(AdvanceUp(id, node, at, r).body).Some? && SeenIn(Up(id, node, at)) != SeenIn(AdvanceUp(id, node, at, r).body)
    ensures TellsOf(Up(id, node, at), id, r, SeenIn(AdvanceUp(id, node, at, r).body).value)
  {
  }

  lemma ExNewlySeen(id: Id, range: Option<CapacityRange>, block: bool, at: ExAt, r: Reply)
    requires AdvanceEx(id, range, block, at, r).Goto?
    requires SeenIn(AdvanceEx(id, range, block, at, r).body).Some? && SeenIn(Ex(id, range, block, at)) != SeenIn(AdvanceEx(id, range, block, at, r).body)
    ensures TellsOf(Ex(id, range, block, at), id, r, SeenIn(AdvanceEx(id, range, block, at, r).body).value)
  {
  }

  lemma CsNewlySeen(name: string, id: Id, parametersOk: bool, at: CsAt, r: Reply)
    requires AdvanceCs(name, id, parametersOk, at, r).Goto?
    requires SeenIn(AdvanceCs(name, id, parametersOk, at, r).body).Some? && SeenIn(Cs(name, id, parametersOk, at)) != SeenIn(AdvanceCs(name, id, parametersOk, at, r).body)
    ensures TellsOf(Cs(name, id, parametersOk, at), id, r, SeenIn(AdvanceCs(name, id, parametersOk, at, r).body).value)
  {
  }

  /** What an RPC carries it has just been told by the cloud, or carried before. */
  lemma NewlySeen(t: Rpc, r: Reply)
    requires WellFormedRpc(t) && Active(t)
    requires Seen(Resume(t, r)).Some? && Seen(t) != Seen(Resume(t, r))
    ensures t.phase.Running? && TellsOf(t.phase.body, MainKey(t.req), r, Seen(Resume(t, r)).value)
  {
    match t.phase
    case Locking(_, _) => {}
    case Running(b) => {
      match b
      case Pb(id, node, at) => PbNewlySeen(id, node, at, r);
      case Up(id, node, at) => UpNewlySeen(id, node, at, r);
      case Ex(id, range, block, at) => ExNewlySeen(id, range, block, at, r);
      case Cs(name, id, parametersOk, at) => CsNewlySeen(name, id, parametersOk, at, r);
      case _ => AdvanceIsGood(b, t.req, r);
    }
    case Unwinding(_) => {}
  }

  lemma RunningHoldsMainKey(s: State, i: nat)
    requires Inv(s) && i in s.rpcs && s.rpcs[i].phase.Running?
    ensures MainKey(s.rpcs[i].req) in s.rpcs[i].defers && MainKey(s.rpcs[i].req) in s.locks
  {
    var t := s.rpcs[i];
    MainKeyIsHeldLongest(t.phase.body, t.req);
    assert Holds(StacksOf(s.rpcs), i, MainKey(t.req));
  }

  /** An answer describing one disk is about the disk asked for, as it is. */
  lemma TruthfulDescription(s: State, i: nat, r: Reply, e: Effect)
    requires CanDrive(s, i, r, e) && s.rpcs[i].phase.Running?
    requires CallOf(s.rpcs[i].phase.body).DescribeDisk? && r.Disks? && r.disks != []
    ensures var id := CallOf(s.rpcs[i].phase.body).id;
      e == NoEffect && id in s.cloud.disks && r == Disks([s.cloud.disks[id]])
  {
  }

  lemma ObservedNow(ss: seq<State>, ls: seq<Label>, m: nat, i: nat)
    requires IsRun(ss, ls) && m < |ls| && Inv(ss[m]) && MoveOf(ls[m], i).Moved?
    requires CanDrive(ss[m], i, ls[m].reply, ls[m].effect)
    requires var t' := Resume(ss[m].rpcs[i], ls[m].reply); Seen(t').Some? && Seen(t') != Seen(ss[m].rpcs[i])
    ensures ObservedAt(ss, ls, m, i, Seen(Resume(ss[m].rpcs[i], ls[m].reply)).value)
    ensures MainKey(ss[m].rpcs[i].req) in ss[m].rpcs[i].defers && MainKey(ss[m].rpcs[i].req) in ss[m].locks
  {
    NewlySeen(ss[m].rpcs[i], ls[m].reply);
    RunningHoldsMainKey(ss[m], i);
    TruthfulDescription(ss[m], i, ls[m].reply, ls[m].effect);
  }

  /** One more state of holding the main key. */
  lemma HoldsOn(ss: seq<State>, m: nat, n: nat, i: nat, req: Request)
    requires m <= n + 1 < |ss| && (m <= n ==> HeldThroughout(ss, m, n, i, req))
    requires i in ss[n + 1].rpcs && ss[n + 1].rpcs[i].req == req
    requires MainKey(req) in ss[n + 1].rpcs[i].defers && MainKey(req) in ss[n + 1].locks
    ensures HeldThroughout(ss, m, n + 1, i, req)
  {
  }

  /** In the last step the RPC was told what it carries, or it carried that already. */
  lemma ToldOrCarried(ss: seq<State>, ls: seq<Label>, n: nat, i: nat)
    requires IsRun(ss, ls) && 0 < n < |ss| && i in ss[n].rpcs && Seen(ss[n].rpcs[i]).Some?
    ensures Inv(ss[n]) && i in ss[n - 1].rpcs && ss[n - 1].rpcs[i].req == ss[n].rpcs[i].req
    ensures
      || (Seen(ss[n - 1].rpcs[i]) == Seen(ss[n].rpcs[i]) && n - 1 > 0)
      || (ObservedAt(ss, ls, n - 1, i, Seen(ss[n].rpcs[i]).value)
          && HeldThroughout(ss, n - 1, n - 1, i, ss[n].rpcs[i].req))
  {
    RpcStep(ss, ls, n, i);
    if Seen(ss[n - 1].rpcs[i]) != Seen(ss[n].rpcs[i]) {
      ObservedNow(ss, ls, n - 1, i);
    }
  }

  /** Every disk an RPC carries was observed by that RPC under a lock it still holds. */
  lemma {:induction false} SeenWasObserved(ss: seq<State>, ls: seq<Label>, n: nat, i: nat) returns (m: nat)
    requires IsRun(ss, ls) && 0 < n < |ss| && i in ss[n].rpcs && Seen(ss[n].rpcs[i]).Some?
    ensures m < n && ObservedAt(ss, ls, m, i, Seen(ss[n].rpcs[i]).value)
    ensures ss[m].rpcs[i].req == ss[n].rpcs[i].req
    ensures HeldThroughout(ss, m, n, i, ss[n].rpcs[i].req)
    decreases n
  {
    ToldOrCarried(ss, ls, n, i);
    if Seen(ss[n - 1].rpcs[i]) == Seen(ss[n].rpcs[i]) && n - 1 > 0 {
      m := SeenWasObserved(ss, ls, n - 1, i);
    } else {
      m := n - 1;
    }
    RunningHoldsMainKey(ss[n], i);
    HoldsOn(ss, m, n - 1, i, ss[n].rpcs[i].req);
  }

  /** What a detach or a resize that is about to be issued is for, and what the RPC carries then. */
  lemma CommandPoint(t: Rpc)
    requires WellFormedRpc(t) && Active(t) && NextAction(t).Ask? && (NextAction(t).call.DetachDisk? || NextAction(t).call.ResizeDisk?)
    ensures t.phase.Running? && Seen(t).Some? && NextAction(t).call.id == MainKey(t.req)
    ensures NextAction(t).call.DetachDisk? ==>
      t.req.Unpublish? && Seen(t).value.instance == t.req.node && t.req.node != ""
    ensures NextAction(t).call.ResizeDisk? ==>
      t.req.Expand? && ExpandGib(t.req.range) == Success(NextAction(t).call.size)
      && GibToByte(Seen(t).value.size) < GibToByte(NextAction(t).call.size)
  {
  }

  /**
   A detach command is issued only by an unpublish, for a volume it observed on the very
   node it was asked to unpublish from, the volume's lock being held ever since.
   */
  lemma DetachIsJustified(ss: seq<State>, ls: seq<Label>, n: nat, i: nat, id: Id) returns (m: nat, vol: Disk)
    requires IsRun(ss, ls) && n < |ls| && ls[n].Drive? && ls[n].i == i
    requires StepsTo(ss, ls, n) && NextAction(ss[n].rpcs[i]) == Ask(DetachDisk(id))
    ensures var req := ss[n].rpcs[i].req;
      && req.Unpublish? && id == MainKey(req) && m < n
      && ObservedAt(ss, ls, m, i, vol) && vol.instance == req.node && vol.instance != ""
      && HeldThroughout(ss, m, n, i, req)
  {
    LocksAreOwned(ss, ls, n);
    CommandPoint(ss[n].rpcs[i]);
    m := SeenWasObserved(ss, ls, n, i);
    vol := Seen(ss[n].rpcs[i]).value;
  }

  /** The point just before the attach. */
  function PbVmOf(b: Body): Body
    requires b.Pb? && b.pbAt.PbAttach?
  {
    Pb(b.id, b.node, PbVm(b.pbAt.vol))
  }

  lemma ReachesAttach(t: Rpc, r: Reply)
    requires WellFormedRpc(t) && Active(t)
    requires var t' := Resume(t, r); t'.phase.Running? && t'.phase.body.Pb? && t'.phase.body.pbAt.PbAttach?
    ensures t.phase == Running(PbVmOf(Resume(t, r).phase.body)) && r == Instances([VM_STATUS_RUNNING])
  {
    if t.phase.Running? {
      AdvanceIsGood(t.phase.body, t.req, r);
      assert r.Instances? && |r.statuses| == 1;
    }
  }

  predicate AboutToAttach(t: Rpc) {
    t.phase.Running? && t.phase.body.Pb? && t.phase.body.pbAt.PbAttach?
  }

  /** The step before an RPC is about to attach: it has just learned that the instance is running, or was about to attach already. */
  lemma AboutToAttachBefore(ss: seq<State>, ls: seq<Label>, n: nat, i: nat)
    requires IsRun(ss, ls) && 0 < n < |ss| && i in ss[n].rpcs && AboutToAttach(ss[n].rpcs[i])
    ensures Inv(ss[n]) && i in ss[n - 1].rpcs && ss[n - 1].rpcs[i].req == ss[n].rpcs[i].req && ss[n - 1].rpcs[i].phase.Running?
    ensures
      || ss[n - 1].rpcs[i] == ss[n].rpcs[i]
      || (ls[n - 1] == Drive(i, Instances([VM_STATUS_RUNNING]), NoEffect)
          && ss[n - 1].rpcs[i].phase.body == PbVmOf(ss[n].rpcs[i].phase.body)
          && HeldThroughout(ss, n - 1, n - 1, i, ss[n].rpcs[i].req))
  {
    RpcStep(ss, ls, n, i);
    if MoveOf(ls[n - 1], i).Moved? {
      ReachesAttach(ss[n - 1].rpcs[i], ls[n - 1].reply);
      RunningHoldsMainKey(ss[n - 1], i);
    }
  }

  /** Where a publish learned that the instance is running, on the way to its attach. */
  lemma {:induction false} RunningWasObserved(ss: seq<State>, ls: seq<Label>, n: nat, i: nat) returns (p: nat)
    requires IsRun(ss, ls) && n < |ss| && i in ss[n].rpcs && AboutToAttach(ss[n].rpcs[i])
    ensures p < n && p < |ls| && ls[p] == Drive(i, Instances([VM_STATUS_RUNNING]), NoEffect)
    ensures i in ss[p].rpcs && ss[p].rpcs[i].req == ss[n].rpcs[i].req && ss[p].rpcs[i].phase.Running?
    ensures ss[p].rpcs[i].phase.body == PbVmOf(ss[n].rpcs[i].phase.body)
    ensures HeldThroughout(ss, p, n, i, ss[n].rpcs[i].req)
    decreases n
  {
    assert n > 0;
    AboutToAttachBefore(ss, ls, n, i);
    if ss[n - 1].rpcs[i] == ss[n].rpcs[i] {
      p := RunningWasObserved(ss, ls, n - 1, i);
    } else {
      p := n - 1;
    }
    RunningHoldsMainKey(ss[n], i);
    HoldsOn(ss, p, n - 1, i, ss[n].rpcs[i].req);
  }

  /**
   An attach command is issued only by a publish, for a volume it observed unattached and
   an instance it then observed RUNNING, the volume's lock being held ever since.
   */
  lemma AttachIsJustified(ss: seq<State>, ls: seq<Label>, n: nat, i: nat, id: Id, vm: Id)
    returns (m: nat, p: nat, vol: Disk)
    requires IsRun(ss, ls) && n < |ls| && ls[n].Drive? && ls[n].i == i
    requires StepsTo(ss, ls, n) && NextAction(ss[n].rpcs[i]) == Ask(AttachDisk(id, vm))
    ensures var req := ss[n].rpcs[i].req;
      && req.Publish? && id == MainKey(req) && vm == req.node && m < p < n
      && ObservedAt(ss, ls, m, i, vol) && vol.instance == ""
      && ls[p] == Drive(i, Instances([VM_STATUS_RUNNING]), NoEffect)
      && i in ss[p].rpcs && Active(ss[p].rpcs[i]) && NextAction(ss[p].rpcs[i]) == Ask(DescribeInstance(vm))
      && HeldThroughout(ss, m, n, i, req)
  {
    LocksAreOwned(ss, ls, n);
    vol := Seen(ss[n].rpcs[i]).value;
    p := RunningWasObserved(ss, ls, n, i);
    m := SeenWasObserved(ss, ls, p, i);
  }

  /**
   A resize command is issued only by an expansion, to the size its range asks for, and
   only for a volume it observed to be strictly smaller, in bytes as the driver counts.
   */
  lemma ResizeIsJustified(ss: seq<State>, ls: seq<Label>, n: nat, i: nat, id: Id, gib: int64)
    returns (m: nat, vol: Disk)
    requires IsRun(ss, ls) && n < |ls| && ls[n].Drive? && ls[n].i == i
    requires StepsTo(ss, ls, n) && NextAction(ss[n].rpcs[i]) == Ask(ResizeDisk(id, gib))
    ensures var req := ss[n].rpcs[i].req;
      && req.Expand? && id == MainKey(req) && ExpandGib(req.range) == Success(gib) && m < n
      && ObservedAt(ss, ls, m, i, vol) && GibToByte(vol.size) < GibToByte(gib)
      && HeldThroughout(ss, m, n, i, req)
  {
    LocksAreOwned(ss, ls, n);
    CommandPoint(ss[n].rpcs[i]);
    m := SeenWasObserved(ss, ls, n, i);
    vol := Seen(ss[n].rpcs[i]).value;
  }
}
