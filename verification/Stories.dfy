/** What a conversation has been told, kind by kind: the answers to its cloud calls in order. */
module Stories {
  import opened CloudTypes
  import opened ControllerProgram
  import opened ControllerSystem
  import opened Conversations

  datatype Kind = DiskSight | VmSight | DiskCommand | DiskRelease | SnapSight | DiskListed | SnapListed | Creation | SnapDeletion

  function KindOf(call: Call): Kind {
    match call
    case DescribeDisk(_) => DiskSight
    case DescribeInstance(_) => VmSight
    case AttachDisk(_, _) => DiskCommand
    case DetachDisk(_) => DiskCommand
    case ResizeDisk(_, _) => DiskCommand
    case ReleaseDisk(_) => DiskRelease
    case DescribeSnap(_) => SnapSight
    case ListDisks(_, _, _, _) => DiskListed
    case ListSnaps(_, _, _, _) => SnapListed
    case CreateDisk(_, _, _, _, _, _) => Creation
    case CreateSnap(_, _) => Creation
    case DeleteSnap(_) => SnapDeletion
  }

  predicate IsKind(e: Exchange, kind: Kind) {
    e.action.Ask? && KindOf(e.action.call) == kind
  }

  /** The answers to the calls of a kind, in order. */
  function Replies(log: Log, kind: Kind): seq<Reply> {
    if log == [] then [] else Told(Replies(log[..|log| - 1], kind), log[|log| - 1], kind)
  }

  function Told(rs: seq<Reply>, e: Exchange, kind: Kind): seq<Reply> {
    if IsKind(e, kind) then rs + [e.reply] else rs
  }

  // ---------------------------------------------------------------- what an answer shows

  /** The answer describes exactly one disk. */
  predicate ShowsDisk(r: Reply) {
    r.Disks? && |r.disks| == 1
  }

  predicate ShowsDiskIn(r: Reply, status: DiskStatus) {
    ShowsDisk(r) && r.disks[0].status == status
  }

  predicate ShowsDiskOn(r: Reply, instance: Id) {
    ShowsDisk(r) && r.disks[0].instance == instance
  }

  predicate ShowsNoDisk(r: Reply) {
    r == Disks([])
  }

  predicate ShowsSnap(r: Reply) {
    r.Snaps? && |r.snaps| == 1
  }

  predicate ShowsNoSnap(r: Reply) {
    r == Snaps([])
  }

  function Last(rs: seq<Reply>): Reply
    requires rs != []
  {
    rs[|rs| - 1]
  }

  // ---------------------------------------------------------------- whose calls

  /** A cloud call that an RPC may make on behalf of its request. */
  predicate OwnCall(req: Request, call: Call) {
    var id := MainKey(req);
    match req
    case CreateVolume(name, _, plan, _, _, source) =>
      plan.Planned? && (
      match call
      case ListDisks(n, z, g, _) => n == name && z == plan.zone && g == plan.group
      case DescribeSnap(s) => source == FromSnapshot(s)
      case CreateDisk(n, size, typ, z, g, from) =>
        && n == name && typ == plan.typ && z == plan.zone && g == plan.group && size == SizeGib(JobOf(req))
        && (from.Some? <==> source.FromSnapshot?) && (from.Some? ==> source == FromSnapshot(from.value))
      case DescribeDisk(_) => true
      case _ => false)
    case DeleteVolume(_) => call == DescribeDisk(id) || call == ReleaseDisk(id)
    case Publish(_, node, _, _) => call == DescribeDisk(id) || call == DescribeInstance(node) || call == AttachDisk(id, node)
    case Unpublish(_, _) => call == DescribeDisk(id) || call == DetachDisk(id)
    case Expand(_, range, _) =>
      call == DescribeDisk(id) || (ExpandGib(range).Success? && call == ResizeDisk(id, ExpandGib(range).value))
    case CreateSnapshot(name, _, _) => (
      match call
      case DescribeDisk(d) => d == id
      case ListSnaps(n, _, _, _) => n == name
      case CreateSnap(n, src) => n == name && src == id
      case DescribeSnap(_) => true
      case _ => false)
    case DeleteSnapshot(_) => call == DescribeSnap(id) || call == DeleteSnap(id)
  }

  lemma CallIsOwn(t: Rpc)
    requires WellFormedRpc(t) && t.phase.Running?
    ensures OwnCall(t.req, CallOf(t.phase.body))
  {
    match t.phase.body
    case Cv(_, _) => {}
    case Dv(_, _) => {}
    case Pb(_, _, _) => {}
    case Up(_, _, _) => {}
    case Ex(_, _, _, _) => {}
    case Cs(_, _, _, _) => {}
    case Ds(_, _) => {}
  }

  lemma {:induction false} PrefixFollows(t: Rpc, log: Log, k: nat)
    requires Follows(t, log) && k < |log|
    ensures Follows(t, log[..k]) && Active(After(t, log[..k])) && log[k].action == NextAction(After(t, log[..k]))
  {
    var before := log[..|log| - 1];
    if k < |before| {
      PrefixFollows(t, before, k);
      assert before[..k] == log[..k];
    }
  }

  /** Only a request that is not answered at once exchanges anything. */
  lemma {:induction false} ExchangesAfterPrecheck(req: Request, log: Log)
    requires Follows(Start(req), log) && log != []
    ensures Precheck(req).None?
  {
    if |log| > 1 {
      ExchangesAfterPrecheck(req, log[..|log| - 1]);
    }
  }

  /**
   Every cloud call of a conversation is its request's own: about its own volume, snapshot
   or name, with the arguments asked for. In particular CreateVolume asks for a disk of
   the request's name and of the planned zone, group, type and size, made from a snapshot
   exactly when the request's source is that snapshot.
   */
  lemma CallsAreOwn(req: Request, log: Log, k: nat)
    requires Follows(Start(req), log) && k < |log| && log[k].action.Ask?
    ensures OwnCall(req, log[k].action.call)
  {
    PrefixFollows(Start(req), log, k);
    StartIsWellFormed(req);
    AfterIsWellFormed(Start(req), log[..k]);
    CallIsOwn(After(Start(req), log[..k]));
  }

  /** The same in every run. */
  lemma RunCallsAreOwn(ss: seq<State>, ls: seq<Label>, n: nat, i: nat)
    requires IsRun(ss, ls) && n < |ss| && i in ss[n].rpcs && Active(ss[n].rpcs[i]) && NextAction(ss[n].rpcs[i]).Ask?
    ensures OwnCall(ss[n].rpcs[i].req, NextAction(ss[n].rpcs[i]).call)
  {
    LocksAreOwned(ss, ls, n);
    CallIsOwn(ss[n].rpcs[i]);
  }
}
