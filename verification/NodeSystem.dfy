/**
 Any number of node RPCs in flight over one lock set, one mount table and the node's block
 devices. As for the controller a label names who moves and how every choice outside the
 driver comes out.
 */
module NodeSystem {
  import opened Wrappers
  import opened Locks
  import opened NodeProgram

  // ---------------------------------------------------------------- the node

  /** A block device: its serial if it can be read, and what is on it (empty for nothing). */
  datatype BlockDevice = BlockDevice(serial: Option<string>, fsType: string, ptType: string)

  /** What is mounted, and how. */
  datatype MountEntry = MountEntry(source: Path, fsType: string, options: seq<string>)

  /** The mounts at each existing path, the latest first. */
  type MountTable = map<Path, seq<MountEntry>>

  datatype Node = Node(devices: map<Path, BlockDevice>, mounts: MountTable)

  predicate HasFileSystem(d: BlockDevice) {
    d.fsType != ""
  }

  /** What the probe reports for a device: a partition table hides any file system type. */
  function FormatOf(d: BlockDevice): string {
    if d.ptType != "" then UNKNOWN_DATA else d.fsType
  }

  ghost predicate OnlyWithSerial(n: Node, dev: Path, serial: string) {
    && dev in n.devices && n.devices[dev].serial == Some(serial)
    && forall p :: p in n.devices && n.devices[p].serial == Some(serial) ==> p == dev
  }

  function WithMounts(n: Node, m: MountTable): Node {
    n.(mounts := m)
  }

  function Existing(m: MountTable, p: Path): MountTable {
    if p in m then m else m[p := []]
  }

  /** What a clean-up that fails may have done: nothing, unmounted once, or all of it. */
  ghost predicate PartlyCleaned(m: MountTable, p: Path, m': MountTable) {
    || m' == m
    || m' == m - {p}
    || (p in m && m[p] != [] && m' == m[p := m[p][1..]])
  }

  /**
   What an action on the node answers and does. Checks and probes are truthful or report
   an error, failed mounts leave nothing behind, and a failed mkfs may leave anything.
   */
  ghost predicate Answers(n: Node, a: Action, r: Reply, n': Node) {
    match a
    case CheckMount(p) =>
      n' == n && (r == Failed || r == if p !in n.mounts then PathMissing else if n.mounts[p] == [] then NotMounted else Mounted)
    case MakeDir(p) => MakesPath(n, p, r, n')
    case EnsureTarget(p, _) => MakesPath(n, p, r, n')
    case FindDevice(serial) => n' == n && (r == Failed || (r.Device? && OnlyWithSerial(n, r.dev, serial)))
    case Fsck(_) => n' == n
    case Mount(source, p, fsType, options) =>
      || (r == Failed && n' == n)
      || (r == Succeeded && p in n.mounts
          && n' == WithMounts(n, n.mounts[p := [MountEntry(source, fsType, options)] + n.mounts[p]]))
    case Probe(dev) =>
      n' == n && (r == Failed || (dev in n.devices && r == Format(FormatOf(n.devices[dev]))))
    case Blkid(dev) =>
      n' == n && (r == Failed || (dev in n.devices && r == Types(n.devices[dev].fsType, n.devices[dev].ptType)))
    case Mkfs(dev, fsType, _) => MakesFs(n, dev, fsType, r, n')
    case NeedResize(_, _) => n' == n
    case Resize(_, _) => n' == n
    case Cleanup(p) =>
      || (r == Succeeded && n' == WithMounts(n, n.mounts - {p}))
      || (r == Failed && n'.devices == n.devices && PartlyCleaned(n.mounts, p, n'.mounts))
    case _ => false
  }

  ghost predicate MakesPath(n: Node, p: Path, r: Reply, n': Node) {
    (r == Succeeded && n' == WithMounts(n, Existing(n.mounts, p))) || (r == Failed && n' == n)
  }

  ghost predicate MakesFs(n: Node, dev: Path, fsType: string, r: Reply, n': Node) {
    && n'.mounts == n.mounts && n'.devices.Keys == n.devices.Keys
    && (forall p :: p in n.devices && p != dev ==> n'.devices[p] == n.devices[p])
    && (dev in n.devices ==> n'.devices[dev].serial == n.devices[dev].serial)
    && (r == Failed || (r == Succeeded && dev in n.devices && n'.devices[dev].fsType == fsType && n'.devices[dev].ptType == ""))
  }

  // ---------------------------------------------------------------- the system

  datatype State = State(locks: set<Key>, rpcs: map<nat, Rpc>, node: Node)

  /** `Outside` is anything that anybody else does to the mount table or the devices. */
  datatype Label =
    | Spawn(i: nat, req: NodeRequest)
    | Drive(i: nat, reply: Reply, node: Node)
    | Outside(node: Node)

  ghost predicate CanDrive(s: State, i: nat, r: Reply, n': Node) {
    && i in s.rpcs && Active(s.rpcs[i])
    && match NextAction(s.rpcs[i])
       case TryLock(k) => n' == s.node && r == (if k in s.locks then Denied else Granted)
       case Unlock(_) => n' == s.node && r == Released
       case a => Answers(s.node, a, r, n')
  }

  ghost predicate Enabled(s: State, l: Label) {
    match l
    case Spawn(i, _) => i !in s.rpcs
    case Drive(i, r, n') => CanDrive(s, i, r, n')
    case Outside(_) => true
  }

  function LocksAfter(locks: set<Key>, a: Action, r: Reply): set<Key> {
    match a
    case TryLock(k) => if r == Granted then locks + {k} else locks
    case Unlock(k) => locks - {k}
    case _ => locks
  }

  ghost function Apply(s: State, l: Label): State
    requires Enabled(s, l)
  {
    match l
    case Spawn(i, req) => s.(rpcs := s.rpcs[i := Start(req)])
    case Drive(i, r, n') =>
      State(LocksAfter(s.locks, NextAction(s.rpcs[i]), r), s.rpcs[i := Resume(s.rpcs[i], r)], n')
    case Outside(n') => s.(node := n')
  }

  ghost predicate Initial(s: State) {
    s.locks == {} && s.rpcs == map[]
  }

  ghost predicate StepsTo(ss: seq<State>, ls: seq<Label>, k: nat)
    requires k < |ls| && |ss| == |ls| + 1
  {
    Enabled(ss[k], ls[k]) && ss[k + 1] == Apply(ss[k], ls[k])
  }

  /** A run: states joined by enabled labels, from an initial state. */
  ghost predicate IsRun(ss: seq<State>, ls: seq<Label>) {
    && |ss| == |ls| + 1 && Initial(ss[0])
    && forall k :: 0 <= k < |ls| ==> StepsTo(ss, ls, k)
  }

  // ---------------------------------------------------------------- lock ownership

  function StacksOf(rpcs: map<nat, Rpc>): Stacks {
    map i | i in rpcs :: rpcs[i].held
  }

  ghost predicate Inv(s: State) {
    && Owned(s.locks, StacksOf(s.rpcs))
    && forall i :: i in s.rpcs ==> WellFormedRpc(s.rpcs[i])
  }

  lemma DriveKeepsOwned(s: State, i: nat, r: Reply, n': Node)
    requires Inv(s) && CanDrive(s, i, r, n')
    ensures Owned(Apply(s, Drive(i, r, n')).locks, StacksOf(Apply(s, Drive(i, r, n')).rpcs))
  {
    var t, t' := s.rpcs[i], Resume(s.rpcs[i], r);
    var s' := Apply(s, Drive(i, r, n'));
    var stacks := StacksOf(s.rpcs);
    StackDiscipline(t, r);
    assert StacksOf(s'.rpcs) == stacks[i := t'.held];
    match NextAction(t)
    case TryLock(k) => {
      if r == Granted {
        OwnedAfterAcquire(s.locks, stacks, i, k);
      } else {
        assert stacks[i := t'.held] == stacks;
      }
    }
    case Unlock(k) => {
      assert t.held[1..] == t'.held;
      OwnedAfterRelease(s.locks, stacks, i);
    }
    case _ => {
      assert stacks[i := t'.held] == stacks;
    }
  }

  lemma StepKeepsInv(s: State, l: Label)
    requires Inv(s) && Enabled(s, l)
    ensures Inv(Apply(s, l))
  {
    match l
    case Spawn(i, req) => {
      StartIsWellFormed(req);
      OwnedAfterStart(s.locks, StacksOf(s.rpcs), i);
      assert StacksOf(s.rpcs[i := Start(req)]) == StacksOf(s.rpcs)[i := []];
    }
    case Drive(i, r, n') => {
      DriveKeepsOwned(s, i, r, n');
      ResumeIsWellFormed(s.rpcs[i], r);
    }
    case Outside(_) => {}
  }

  lemma InitialInv(s: State)
    requires Initial(s)
    ensures Inv(s)
  {
    assert forall i, k :: !Holds(StacksOf(s.rpcs), i, k);
  }

  /**
   In every state of every run of node RPCs, whatever else happens on the node, the lock
   set is exactly the disjoint union of the keys held by the RPCs in flight.
   */
  lemma {:induction false} LocksAreOwned(ss: seq<State>, ls: seq<Label>, n: nat)
    requires IsRun(ss, ls) && n < |ss|
    ensures Inv(ss[n])
  {
    if n == 0 {
      InitialInv(ss[0]);
    } else {
      LocksAreOwned(ss, ls, n - 1);
      assert StepsTo(ss, ls, n - 1);
      StepKeepsInv(ss[n - 1], ls[n - 1]);
    }
  }

  /** Two RPCs that are past their lock and have not finished are about different keys. */
  lemma DifferentKeys(s: State, i: nat, j: nat)
    requires Inv(s) && i in s.rpcs && j in s.rpcs && i != j
    requires s.rpcs[i].held != [] && s.rpcs[j].held != []
    ensures KeyOf(s.rpcs[i].req) != KeyOf(s.rpcs[j].req)
  {
    assert Holds(StacksOf(s.rpcs), i, KeyOf(s.rpcs[i].req)) && Holds(StacksOf(s.rpcs), j, KeyOf(s.rpcs[j].req));
  }

  lemma DriveKeepsRequests(s: State, i: nat, r: Reply, n': Node)
    requires Inv(s) && CanDrive(s, i, r, n')
    ensures Apply(s, Drive(i, r, n')).rpcs[i].req == s.rpcs[i].req
  {
    ResumeIsWellFormed(s.rpcs[i], r);
  }
}
