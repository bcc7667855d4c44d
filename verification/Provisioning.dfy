/** CreateVolume: the plan made from its parameters, and why retrying it is idempotent. */
module Provisioning {
  import opened Wrappers
  import opened Capacity
  import opened CloudTypes
  import opened Paging
  import opened Topology
  import opened StorageClass
  import opened RpcCodes
  import opened ControllerProgram
  import opened ControllerSystem
  import opened DiskUniqueness
  import opened Observations

  /** What CreateVolume works out from its parsed parameters before it asks the cloud anything. */
  function PlanFrom(parsed: Result<ZecStorageClass, ParamError>, requirement: Option<TopologyRequirement>,
                    range: Option<CapacityRange>): Plan
    requires parsed.Success? ==> IsValidVolumeType(parsed.value.diskType)
  {
    match parsed
    case Failure(_) => Rejected(InvalidArgument)
    case Success(sc) =>
      var pick := PickSpec(DRIVER_NAME, requirement);
      if requirement.Some? && !pick.Picked? then Rejected(InvalidArgument) else
      var zone := if requirement.Some? then pick.topo.zone else sc.zoneId;
      match GetRequiredVolumeSizeByte(sc.limits, range)
      case Failure(_) => Rejected(OutOfRange)
      case Success(bytes) => Planned(zone, sc.placeGroupId, sc.diskType, bytes)
  }

  ghost function PlanFor(params: Params, requirement: Option<TopologyRequirement>, range: Option<CapacityRange>,
                         defaults: Defaults): Plan
  {
    PlanFrom(Parsed(params, defaults), requirement, range)
  }

  /** Some order of visiting the parameters, and the plan that comes of it. */
  lemma PlanInSomeOrder(params: Params, requirement: Option<TopologyRequirement>, range: Option<CapacityRange>, defaults: Defaults)
    returns (plan: Plan, order: seq<string>)
    ensures OrderOf(params, order) && plan == PlanFrom(ParsedIn(params, order, defaults), requirement, range)
    ensures NoCollision(params) ==> plan == PlanFor(params, requirement, range, defaults)
  {
    order := CompleteOrder(params, [], params.Keys);
    OrderDoesNotMatter(params, order, defaults);
    plan := PlanFrom(ParsedIn(params, order, defaults), requirement, range);
  }

  ghost predicate PlannedFrom(req: Request, params: Params, defaults: Defaults) {
    && req.CreateVolume? && req.plan.Planned?
    && req.plan == PlanFor(params, req.requirement, req.range, defaults)
  }

  /** The request's topology survives a retry: what it picks carries both keys and is requisite. */
  predicate TopologyRepeatable(requirement: Option<TopologyRequirement>) {
    requirement.Some? && requirement.value.requisite != [] ==>
      var req := requirement.value;
      && (req.preferred != [] ==> req.preferred[0] in req.requisite)
      && var seg := if req.preferred != [] then req.preferred[0] else req.requisite[0];
         ZoneKey(DRIVER_NAME) in seg && VmTypeKey(DRIVER_NAME) in seg
  }

  lemma ParsedKeepsZecLimits(params: Params, defaults: Defaults)
    requires Parsed(params, defaults).Success?
    ensures Parsed(params, defaults).value.limits == ZEC_LIMITS
  {
  }

  lemma PlannedSizes(req: Request, params: Params, defaults: Defaults)
    requires PlannedFrom(req, params, defaults) && Roundable(req.range)
    ensures GibToByte(SizeGib(JobOf(req))) == req.plan.sizeByte
    ensures IsValidCapacityBytes(req.plan.sizeByte, req.range) && 0 < SizeGib(JobOf(req))
  {
    ParsedKeepsZecLimits(params, defaults);
    RequiredSizeIsValidCapacity(ZEC_LIMITS, req.range);
  }

  /**
   A volume the lookup returns without error always passes the capacity and type checks:
   only its topology can make it incompatible.
   */
  lemma OnlyTopologyCanConflict(req: Request, params: Params, defaults: Defaults, list: seq<Disk>, d: Disk)
    requires PlannedFrom(req, params, defaults) && Roundable(req.range)
    requires LookupIn(JobOf(req), list) == Found(d)
    ensures Compatible(d, JobOf(req)) <==> IsValidTopology(DRIVER_NAME, req.plan.zone, req.plan.typ, req.requirement)
    ensures TopologyRepeatable(req.requirement) ==> Compatible(d, JobOf(req))
  {
    var job := JobOf(req);
    PlannedSizes(req, params, defaults);
    FirstMatchMeaning(list, job.zone, SizeGib(job), job.typ);
    var k: nat :| FirstCandidateAt(list, job.zone, job.typ, k);
    assert d == list[k] && d.size == SizeGib(job);
    if TopologyRepeatable(req.requirement) {
      RepeatableTopologyIsValid(req, params, defaults);
    }
  }

  /**
   An OK for an existing disk says nothing about its status beyond not being recycled: a
   lookup that shows one disk as asked for answers OK for every status but that one.
   */
  lemma ExistingDiskAnyStatus(job: CreateJob, d: Disk)
    requires d.zone == job.zone && d.typ == job.typ && d.size == SizeGib(job) && Compatible(d, job)
    requires d.id != "" && d.serial != ""
    ensures VolumeAnswer(d, GibToByte(d.size), job.source).Ok?
    ensures AdvanceCv(job, CvLookup, DiskPage(1, [d])) == Return(VolumeAnswer(d, GibToByte(d.size), job.source))
            <==> d.status != Recycled
  {
    assert [d][1..] == [] && FirstMatch([], job.zone, SizeGib(job), job.typ) == NotThere;
    assert FirstMatch([d][1..], job.zone, SizeGib(job), job.typ) == NotThere;
    assert LookupIn(job, [d]) == if d.status == Recycled then NotThere else Found(d);
  }

  lemma RepeatableTopologyIsValid(req: Request, params: Params, defaults: Defaults)
    requires PlannedFrom(req, params, defaults) && TopologyRepeatable(req.requirement)
    ensures IsValidTopology(DRIVER_NAME, req.plan.zone, req.plan.typ, req.requirement)
  {
    if req.requirement.Some? && req.requirement.value.requisite != [] {
      PickedIsAcceptedAgain(DRIVER_NAME, req.requirement.value, req.plan.typ);
    }
  }

  // ---------------------------------------------------------------- over runs

  /** What never changes about a disk. */
  predicate SameIdentity(a: Disk, b: Disk) {
    a.id == b.id && SameKey(a, b)
  }

  ghost predicate IdentitiesKept(c: Cloud, c': Cloud) {
    forall id :: id in c.births ==>
      && id in c'.births
      && (id in c'.disks ==>
            id in c.disks && SameIdentity(c.disks[id], c'.disks[id]) && c.disks[id].origin == c'.disks[id].origin)
  }

  lemma StepKeepsIdentities(s: State, l: Label)
    requires Inv(s) && Enabled(s, l)
    ensures IdentitiesKept(s.cloud, Apply(s, l).cloud)
  {
    match l
    case Spawn(_, _) => {}
    case Drive(i, r, e) => DriveTouchesLittle(s, i, r, e);
    case Env(ev) => EventKeepsIdentities(s.cloud, ev);
  }

  lemma EventKeepsIdentities(c: Cloud, ev: Event)
    requires CloudOk(c) && Possible(c, ev)
    ensures IdentitiesKept(c, AfterEvent(c, ev))
  {
  }

  lemma {:induction false} RunKeepsIdentities(ss: seq<State>, ls: seq<Label>, m: nat, n: nat)
    requires IsRun(ss, ls) && m <= n < |ss|
    ensures IdentitiesKept(ss[m].cloud, ss[n].cloud)
    decreases n
  {
    if m < n {
      RunKeepsIdentities(ss, ls, m, n - 1);
      LocksAreOwned(ss, ls, n - 1);
      assert StepsTo(ss, ls, n - 1);
      StepKeepsIdentities(ss[n - 1], ls[n - 1]);
    } else {
      LocksAreOwned(ss, ls, n);
    }
  }

  /** The disk an RPC has created, while it is still being waited for or looked up. */
  function CreatedBy(t: Rpc): Option<Id> {
    if t.phase.Running? && t.phase.body.Cv? && (t.phase.body.cvAt.CvWait? || t.phase.body.cvAt.CvRefind?)
    then Some(t.phase.body.cvAt.newId) else None
  }

  /** The snapshot a content source asks to restore. */
  function AskedOrigin(source: Source): Option<Id> {
    match source
    case FromSnapshot(snapId) => Some(snapId)
    case _ => None
  }

  /** The disk has the key and the content asked for. */
  predicate MadeFor(d: Disk, job: CreateJob) {
    Matches(d, job) && d.origin == AskedOrigin(job.source)
  }

  ghost predicate CreationsStand(s: State) {
    forall i :: i in s.rpcs && CreatedBy(s.rpcs[i]).Some? ==>
      var id := CreatedBy(s.rpcs[i]).value;
      id in s.cloud.births && (id in s.cloud.disks ==> MadeFor(s.cloud.disks[id], s.rpcs[i].phase.body.job))
  }

  /** The disk a program point names as created. */
  function NewIdAt(at: CvAt): Option<Id> {
    if at.CvWait? || at.CvRefind? then Some(at.newId) else None
  }

  /** A creation that is answered with an id has made the disk of that id, as asked. */
  lemma CreatedIsAsAsked(c: Cloud, job: CreateJob, r: Reply, e: Effect)
    requires Answers(c, CallOf(Cv(job, CvCreate)), r, e) && r.Created?
    ensures e.NewDisk? && e.disk.id == r.id && MadeFor(e.disk, job)
  {
  }

  /** A creation names a disk because it has just been created, or was named before. */
  lemma CvNames(job: CreateJob, at: CvAt, r: Reply)
    requires AdvanceCv(job, at, r).Goto? && AdvanceCv(job, at, r).body.Cv?
    requires NewIdAt(AdvanceCv(job, at, r).body.cvAt).Some?
    ensures var b := AdvanceCv(job, at, r).body;
      b.job == job && (NewIdAt(b.cvAt) == NewIdAt(at) || (at.CvCreate? && r == Created(NewIdAt(b.cvAt).value)))
  {
  }

  /** The same for a whole RPC. */
  lemma NamesCreated(t: Rpc, r: Reply)
    requires WellFormedRpc(t) && Active(t) && CreatedBy(Resume(t, r)).Some?
    ensures t.phase.Running? && t.phase.body.Cv?
    ensures var b, b' := t.phase.body, Resume(t, r).phase.body;
      && b'.job == b.job
      && (CreatedBy(t) == CreatedBy(Resume(t, r)) || (b.cvAt.CvCreate? && r == Created(CreatedBy(Resume(t, r)).value)))
  {
    match t.phase
    case Locking(_, granted) => {}
    case Running(b) => {
      AdvanceIsGood(b, t.req, r);
      CvNames(b.job, b.cvAt, r);
    }
    case Unwinding(_) => {}
  }

  lemma StepKeepsCreations(s: State, l: Label)
    requires Inv(s) && CreationsStand(s) && Enabled(s, l)
    ensures CreationsStand(Apply(s, l))
  {
    var s' := Apply(s, l);
    StepKeepsIdentities(s, l);
    forall i | i in s'.rpcs && CreatedBy(s'.rpcs[i]).Some?
      ensures var id := CreatedBy(s'.rpcs[i]).value;
        id in s'.cloud.births && (id in s'.cloud.disks ==> MadeFor(s'.cloud.disks[id], s'.rpcs[i].phase.body.job))
    {
      match MoveOf(l, i)
      case Began => {}
      case Stayed => {}
      case Moved => {
        NamesCreated(s.rpcs[i], l.reply);
        if s.rpcs[i].phase.body.cvAt.CvCreate? {
          CreatedIsAsAsked(s.cloud, s.rpcs[i].phase.body.job, l.reply, l.effect);
        }
      }
    }
  }

  lemma {:induction false} CreationsHold(ss: seq<State>, ls: seq<Label>, n: nat)
    requires IsRun(ss, ls) && n < |ss|
    ensures CreationsStand(ss[n])
  {
    if n > 0 {
      CreationsHold(ss, ls, n - 1);
      LocksAreOwned(ss, ls, n - 1);
      assert StepsTo(ss, ls, n - 1);
      StepKeepsCreations(ss[n - 1], ls[n - 1]);
    }
  }

  /** The step with which a CreateVolume that made disk `d` decides its answer. */
  ghost predicate AnswersAsCreated(ss: seq<State>, ls: seq<Label>, m: nat, i: nat, d: Disk)
    requires m < |ls| && |ss| == |ls| + 1
  {
    && ls[m] == Drive(i, Disks([d]), NoEffect) && StepsTo(ss, ls, m)
    && ss[m].rpcs[i].phase.Running? && ss[m].rpcs[i].phase.body.Cv? && ss[m].rpcs[i].phase.body.cvAt.CvRefind?
  }

  /** The step with which a CreateVolume decides what its lookup found. */
  ghost predicate Decides(ss: seq<State>, ls: seq<Label>, n: nat, j: nat)
    requires n < |ls| && |ss| == |ls| + 1
  {
    && ls[n].Drive? && ls[n].i == j && StepsTo(ss, ls, n)
    && ss[n].rpcs[j].phase.Running? && ss[n].rpcs[j].phase.body.Cv?
    && LastAnswer(ss[n].rpcs[j].phase.body.cvAt, ls[n].reply)
  }

  /** The entries it decides on. */
  ghost function Entries(ss: seq<State>, ls: seq<Label>, n: nat, j: nat): seq<Disk>
    requires n < |ls| && |ss| == |ls| + 1 && Decides(ss, ls, n, j)
  {
    Gathered(ss[n].rpcs[j].phase.body.cvAt, ls[n].reply)
  }

  /** The step with which a CreateVolume answers with disk `d` because it found it. */
  ghost predicate AnswersAsFound(ss: seq<State>, ls: seq<Label>, m: nat, i: nat, d: Disk)
    requires m < |ls| && |ss| == |ls| + 1
  {
    Decides(ss, ls, m, i) && var job := ss[m].rpcs[i].phase.body.job;
    LookupIn(job, Entries(ss, ls, m, i)) == Found(d) && Compatible(d, job)
  }

  /** The step with which a CreateVolume succeeds with disk `d`: one it made, or one it found. */
  ghost predicate Succeeds(ss: seq<State>, ls: seq<Label>, m: nat, i: nat, d: Disk)
    requires m < |ls| && |ss| == |ls| + 1
  {
    (AnswersAsCreated(ss, ls, m, i, d) || AnswersAsFound(ss, ls, m, i, d)) && d.id != "" && d.serial != ""
  }

  /** The disk is usable, as large as asked for, and has its serial. */
  predicate AsProvided(now: Disk, d: Disk, job: CreateJob) {
    now.status != Recycled && now.size == SizeGib(job) && now.serial == d.serial
  }

  /** From state `m` to state `n` the disk is neither deleted nor resized, and keeps its serial. */
  ghost predicate Persists(ss: seq<State>, m: nat, n: nat, d: Disk, job: CreateJob)
    requires m <= n < |ss|
  {
    forall k :: m <= k <= n ==> d.id in ss[k].cloud.disks && AsProvided(ss[k].cloud.disks[d.id], d, job)
  }

  // ---------------------------------------------------------------- what a lookup collects

  /** The entry bears the name of the request, and is the provided disk or one in the bin. */
  predicate Telling(e: Disk, d: Disk, job: CreateJob) {
    && e.name == job.name && e.zone == job.zone && e.group == job.group
    && (e.typ == job.typ ==> if e.id == d.id then AsProvided(e, d, job) else e.status == Recycled)
  }

  predicate AllTelling(list: seq<Disk>, d: Disk, job: CreateJob) {
    forall e :: e in list ==> Telling(e, d, job)
  }

  predicate OfName(e: Disk, job: CreateJob) {
    e.name == job.name && e.zone == job.zone && e.group == job.group
  }

  predicate AllOfName(list: seq<Disk>, job: CreateJob) {
    forall e :: e in list ==> OfName(e, job)
  }

  /** A page that a lookup is told holds the name's disks as they are. */
  lemma PageOfLookup(s: State, j: nat, r: Reply, e: Effect)
    requires Inv(s) && CanDrive(s, j, r, e) && r.DiskPage?
    ensures s.rpcs[j].req.CreateVolume? && s.rpcs[j].req.plan.Planned?
    ensures AllOfName(r.disks, JobOf(s.rpcs[j].req))
    ensures forall x :: x in r.disks ==> x.id in s.cloud.disks && s.cloud.disks[x.id] == x
  {
    PageIsFaithful(s, j, r, e, {Recycled});
    DiskListingIsOwn(s.rpcs[j]);
  }

  lemma DiskListingIsOwn(t: Rpc)
    requires WellFormedRpc(t) && Active(t) && NextAction(t).Ask? && NextAction(t).call.ListDisks?
    ensures t.req.CreateVolume? && t.req.plan.Planned?
    ensures var call, job := NextAction(t).call, JobOf(t.req);
      call.name == job.name && call.zone == job.zone && call.group == job.group
  {
  }

  /** What a lookup has collected after its own step is of its name, if what it had before was. */
  lemma GathersOfName(s: State, j: nat, r: Reply, e: Effect)
    requires Inv(s) && CanDrive(s, j, r, e) && GatheredBy(Resume(s.rpcs[j], r)) != []
    requires GatheredBy(s.rpcs[j]) != [] ==>
      s.rpcs[j].req.CreateVolume? && s.rpcs[j].req.plan.Planned? && AllOfName(GatheredBy(s.rpcs[j]), JobOf(s.rpcs[j].req))
    ensures s.rpcs[j].req.CreateVolume? && s.rpcs[j].req.plan.Planned?
    ensures AllOfName(GatheredBy(Resume(s.rpcs[j], r)), JobOf(s.rpcs[j].req))
  {
    GathersOnePage(s.rpcs[j], r);
    PageOfLookup(s, j, r, e);
  }

  lemma {:induction false} LookupsKeepToName(ss: seq<State>, ls: seq<Label>, n: nat, j: nat)
    requires IsRun(ss, ls) && n < |ss| && j in ss[n].rpcs && GatheredBy(ss[n].rpcs[j]) != []
    ensures ss[n].rpcs[j].req.CreateVolume? && ss[n].rpcs[j].req.plan.Planned?
    ensures AllOfName(GatheredBy(ss[n].rpcs[j]), JobOf(ss[n].rpcs[j].req))
  {
    if n > 0 {
      assert StepsTo(ss, ls, n - 1);
      LocksAreOwned(ss, ls, n - 1);
      FaresInStep(ss[n - 1], ls[n - 1], j);
      match MoveOf(ls[n - 1], j)
      case Began => {}
      case Stayed => LookupsKeepToName(ss, ls, n - 1, j);
      case Moved => {
        if GatheredBy(ss[n - 1].rpcs[j]) != [] {
          LookupsKeepToName(ss, ls, n - 1, j);
        }
        GathersOfName(ss[n - 1], j, ls[n - 1].reply, ls[n - 1].effect);
      }
    }
  }

  /** While the disk persists, a page of its name shows it as provided and all others of its type in the bin. */
  lemma PageTells(s: State, j: nat, r: Reply, e: Effect, d: Disk, job: CreateJob)
    requires Inv(s) && UniqueDisks(s.cloud, {Recycled}) && CanDrive(s, j, r, e) && r.DiskPage?
    requires s.rpcs[j].req.CreateVolume? && s.rpcs[j].req.plan.Planned? && JobOf(s.rpcs[j].req) == job
    requires d.id in s.cloud.disks && AsProvided(s.cloud.disks[d.id], d, job) && Matches(s.cloud.disks[d.id], job)
    ensures AllTelling(r.disks, d, job)
  {
    PageOfLookup(s, j, r, e);
    forall x | x in r.disks ensures Telling(x, d, job) {
      assert OfName(x, job);
      if x.typ == job.typ && x.id != d.id {
        assert SameKey(s.cloud.disks[x.id], s.cloud.disks[d.id]);
      }
    }
  }

  /** Nobody else looks the name up while the RPC that succeeds with it holds it. */
  lemma NoOtherLookup(s: State, i: nat, j: nat)
    requires Inv(s) && i in s.rpcs && j in s.rpcs && i != j && s.rpcs[i].req == s.rpcs[j].req
    requires s.rpcs[i].phase.Running?
    ensures GatheredBy(s.rpcs[j]) == []
  {
    if GatheredBy(s.rpcs[j]) != [] {
      RunningHoldsMainKey(s, i);
      RunningHoldsMainKey(s, j);
      Exclusive(s, i, j, MainKey(s.rpcs[i].req));
    }
  }

  /** The circumstances of a repeated request: RPC `j` repeats what RPC `i` succeeded with at step `m`. */
  ghost predicate Repeats(ss: seq<State>, ls: seq<Label>, m: nat, i: nat, n: nat, j: nat, d: Disk) {
    && CreatorsRun(ss, ls, {Recycled}) && m < n < |ss| && m < |ls| && i != j
    && Succeeds(ss, ls, m, i, d)
    && j in ss[n].rpcs && ss[n].rpcs[j].req == ss[m].rpcs[i].req && ss[m].rpcs[i].req.CreateVolume?
    && ss[m].rpcs[i].req.plan.Planned?
    && Persists(ss, m, n, d, JobOf(ss[m].rpcs[i].req))
    && Matches(d, JobOf(ss[m].rpcs[i].req)) && SameIdentity(d, ss[m].cloud.disks[d.id])
  }

  lemma StillMatches(ss: seq<State>, ls: seq<Label>, m: nat, k: nat, d: Disk, job: CreateJob)
    requires IsRun(ss, ls) && m <= k < |ss| && d.id in ss[m].cloud.disks && d.id in ss[k].cloud.disks
    requires SameIdentity(d, ss[m].cloud.disks[d.id]) && Matches(d, job)
    ensures SameIdentity(d, ss[k].cloud.disks[d.id]) && Matches(ss[k].cloud.disks[d.id], job)
  {
    LocksAreOwned(ss, ls, m);
    RunKeepsIdentities(ss, ls, m, k);
  }

  /** If the RPC is there with its request, what it has collected shows the disk as provided. */
  ghost predicate TellsAt(s: State, j: nat, req: Request, d: Disk, job: CreateJob) {
    j in s.rpcs && s.rpcs[j].req == req ==> AllTelling(GatheredBy(s.rpcs[j]), d, job)
  }

  ghost predicate GoesOnTelling(s: State, s': State, j: nat, req: Request, d: Disk, job: CreateJob) {
    TellsAt(s, j, req, d, job) ==> TellsAt(s', j, req, d, job)
  }

  lemma {:induction false} TellsThrough(ss: seq<State>, m: nat, n: nat, j: nat, req: Request, d: Disk, job: CreateJob)
    requires m <= n < |ss| && TellsAt(ss[m], j, req, d, job)
    requires forall k :: m <= k < n ==> GoesOnTelling(ss[k], ss[k + 1], j, req, d, job)
    ensures TellsAt(ss[n], j, req, d, job)
    decreases n
  {
    if m < n {
      TellsThrough(ss, m, n - 1, j, req, d, job);
      assert GoesOnTelling(ss[n - 1], ss[n - 1 + 1], j, req, d, job);
    }
  }

  lemma TellingStep(ss: seq<State>, ls: seq<Label>, m: nat, k: nat, j: nat, req: Request, d: Disk)
    requires CreatorsRun(ss, ls, {Recycled}) && m <= k < |ls|
    requires req.CreateVolume? && req.plan.Planned? && Matches(d, JobOf(req))
    requires d.id in ss[m].cloud.disks && SameIdentity(d, ss[m].cloud.disks[d.id])
    requires d.id in ss[k].cloud.disks && AsProvided(ss[k].cloud.disks[d.id], d, JobOf(req))
    ensures GoesOnTelling(ss[k], ss[k + 1], j, req, d, JobOf(req))
  {
    if TellsAt(ss[k], j, req, d, JobOf(req)) && j in ss[k + 1].rpcs && ss[k + 1].rpcs[j].req == req {
      RpcStep(ss, ls, k + 1, j);
      if j in ss[k].rpcs {
        KeepsTelling(ss, ls, m, k, j, d, JobOf(req));
      }
    }
  }

  /** Whatever the repeating RPC has collected since shows the disk as provided. */
  lemma RepeatGathersTelling(ss: seq<State>, ls: seq<Label>, m: nat, i: nat, n: nat, j: nat, d: Disk)
    requires Repeats(ss, ls, m, i, n, j, d)
    ensures AllTelling(GatheredBy(ss[n].rpcs[j]), d, JobOf(ss[n].rpcs[j].req))
  {
    var req := ss[m].rpcs[i].req;
    LocksAreOwned(ss, ls, m);
    if j in ss[m].rpcs && ss[m].rpcs[j].req == req {
      NoOtherLookup(ss[m], i, j);
    }
    forall k | m <= k < n ensures GoesOnTelling(ss[k], ss[k + 1], j, req, d, JobOf(req)) {
      TellingStep(ss, ls, m, k, j, req, d);
    }
    TellsThrough(ss, m, n, j, req, d, JobOf(req));
  }

  lemma KeepsTelling(ss: seq<State>, ls: seq<Label>, m: nat, k: nat, j: nat, d: Disk, job: CreateJob)
    requires CreatorsRun(ss, ls, {Recycled}) && m <= k < |ls| && j in ss[k].rpcs && j in ss[k + 1].rpcs
    requires ss[k].rpcs[j].req.CreateVolume? && ss[k].rpcs[j].req.plan.Planned? && JobOf(ss[k].rpcs[j].req) == job
    requires d.id in ss[m].cloud.disks && SameIdentity(d, ss[m].cloud.disks[d.id]) && Matches(d, job)
    requires d.id in ss[k].cloud.disks && AsProvided(ss[k].cloud.disks[d.id], d, job)
    requires AllTelling(GatheredBy(ss[k].rpcs[j]), d, job)
    ensures AllTelling(GatheredBy(ss[k + 1].rpcs[j]), d, job)
  {
    RpcStep(ss, ls, k + 1, j);
    if MoveOf(ls[k], j).Moved? {
      GatherTelling(ss, ls, m, k, j, d, job);
    }
  }

  lemma GatherTelling(ss: seq<State>, ls: seq<Label>, m: nat, k: nat, j: nat, d: Disk, job: CreateJob)
    requires CreatorsRun(ss, ls, {Recycled}) && m <= k < |ls|
    requires ls[k].Drive? && CanDrive(ss[k], j, ls[k].reply, ls[k].effect)
    requires ss[k].rpcs[j].req.CreateVolume? && ss[k].rpcs[j].req.plan.Planned? && JobOf(ss[k].rpcs[j].req) == job
    requires d.id in ss[m].cloud.disks && SameIdentity(d, ss[m].cloud.disks[d.id]) && Matches(d, job)
    requires d.id in ss[k].cloud.disks && AsProvided(ss[k].cloud.disks[d.id], d, job)
    requires AllTelling(GatheredBy(ss[k].rpcs[j]), d, job)
    ensures AllTelling(GatheredBy(Resume(ss[k].rpcs[j], ls[k].reply)), d, job)
    ensures ls[k].reply.DiskPage? ==> AllTelling(ls[k].reply.disks, d, job)
  {
    LocksAreOwned(ss, ls, k);
    AtMostOneDisk(ss, ls, k, {Recycled});
    StillMatches(ss, ls, m, k, d, job);
    GathersOnePage(ss[k].rpcs[j], ls[k].reply);
    if ls[k].reply.DiskPage? {
      PageTells(ss[k], j, ls[k].reply, ls[k].effect, d, job);
    }
  }

  // ---------------------------------------------------------------- the repeated request

  /** Telling entries that include the disk's make the lookup find the disk as provided. */
  lemma TellingEntriesFind(list: seq<Disk>, d: Disk, job: CreateJob, p: nat) returns (e: Disk)
    requires AllTelling(list, d, job) && p < |list| && list[p].id == d.id && list[p].typ == job.typ
    ensures LookupIn(job, list) == Found(e) && e.id == d.id && AsProvided(e, d, job) && Matches(e, job)
  {
    FirstMatchMeaning(list, job.zone, SizeGib(job), job.typ);
    assert list[p] in list && Candidate(list[p], job.zone, job.typ);
    var k: nat :| FirstCandidateAt(list, job.zone, job.typ, k);
    e := list[k];
    assert e in list && Telling(e, d, job);
  }

  /** What the first success was with bears the key asked for, and is the disk of its id. */
  lemma SuccessIsGenuine(ss: seq<State>, ls: seq<Label>, m: nat, i: nat, d: Disk)
    requires CreatorsRun(ss, ls, {Recycled}) && m < |ls| && Succeeds(ss, ls, m, i, d) && d.id in ss[m].cloud.disks
    ensures ss[m].rpcs[i].phase.Running? && ss[m].rpcs[i].req.CreateVolume? && ss[m].rpcs[i].req.plan.Planned?
    ensures ss[m].rpcs[i].phase.body.Cv? && ss[m].rpcs[i].phase.body.job == JobOf(ss[m].rpcs[i].req)
    ensures Matches(d, JobOf(ss[m].rpcs[i].req)) && SameIdentity(d, ss[m].cloud.disks[d.id])
  {
    WellFormedAt(ss, ls, m, i);
    LocksAreOwned(ss, ls, m);
    if AnswersAsCreated(ss, ls, m, i, d) {
      RefoundMatches(ss, ls, m, i, d);
    } else {
      FoundIsGenuine(ss, ls, m, i, d);
    }
  }

  lemma FoundIsGenuine(ss: seq<State>, ls: seq<Label>, m: nat, i: nat, d: Disk)
    requires CreatorsRun(ss, ls, {Recycled}) && m < |ls| && AnswersAsFound(ss, ls, m, i, d) && d.id in ss[m].cloud.disks
    requires Inv(ss[m]) && ss[m].rpcs[i].req.CreateVolume? && ss[m].rpcs[i].req.plan.Planned?
    requires ss[m].rpcs[i].phase.body.job == JobOf(ss[m].rpcs[i].req)
    ensures Matches(d, JobOf(ss[m].rpcs[i].req)) && SameIdentity(d, ss[m].cloud.disks[d.id])
  {
    var job, list := JobOf(ss[m].rpcs[i].req), Entries(ss, ls, m, i);
    FirstMatchMeaning(list, job.zone, SizeGib(job), job.typ);
    var k: nat :| FirstCandidateAt(list, job.zone, job.typ, k);
    assert d == list[k] && d in list;
    AtMostOneDisk(ss, ls, m, {Recycled});
    PageOfLookup(ss[m], i, ls[m].reply, ls[m].effect);
    if d in GatheredBy(ss[m].rpcs[i]) {
      LookupsKeepToName(ss, ls, m, i);
      assert AllFaithful(ss[m].cloud, GatheredBy(ss[m].rpcs[i]), {Recycled});
      assert Faithful(ss[m].cloud, d, {Recycled});
    } else {
      assert d in ls[m].reply.disks;
    }
    assert OfName(d, job);
  }

  /** The repeated lookup finds the disk the first success was with, as it was provided. */
  lemma RepeatFindsIt(ss: seq<State>, ls: seq<Label>, m: nat, i: nat, n: nat, j: nat, d: Disk) returns (e: Disk)
    requires Repeats(ss, ls, m, i, n, j, d) && n < |ls| && Decides(ss, ls, n, j)
    ensures SameIdentity(d, e) && AsProvided(e, d, JobOf(ss[n].rpcs[j].req))
    ensures LookupIn(JobOf(ss[n].rpcs[j].req), Entries(ss, ls, n, j)) == Found(e)
  {
    var job := JobOf(ss[n].rpcs[j].req);
    var list := Entries(ss, ls, n, j);
    LocksAreOwned(ss, ls, n);
    RepeatGathersTelling(ss, ls, m, i, n, j, d);
    GatherTelling(ss, ls, m, n, j, d, job);
    StillMatches(ss, ls, m, n, d, job);
    var p := HasEntry(ss, ls, n, j, d.id);
    assert list[p] in list && Telling(list[p], d, job);
    e := TellingEntriesFind(list, d, job, p);
  }

  /** Every disk of the name that is there when a lookup decides has its entry. */
  lemma HasEntry(ss: seq<State>, ls: seq<Label>, n: nat, j: nat, id: Id) returns (p: nat)
    requires CreatorsRun(ss, ls, {Recycled}) && n < |ls| && Decides(ss, ls, n, j)
    requires ss[n].rpcs[j].req.CreateVolume? && ss[n].rpcs[j].req.plan.Planned?
    requires id in ss[n].cloud.disks && Matches(ss[n].cloud.disks[id], JobOf(ss[n].rpcs[j].req))
    ensures p < |Entries(ss, ls, n, j)|
    ensures Entries(ss, ls, n, j)[p].id == id && Entries(ss, ls, n, j)[p].typ == ss[n].cloud.disks[id].typ
  {
    LocksAreOwned(ss, ls, n);
    var at := ss[n].rpcs[j].phase.body.cvAt;
    var list := Entries(ss, ls, n, j);
    LookupCovers(ss[n], j, ls[n].reply, ls[n].effect);
    var q :| 0 <= q < |list| && list[q].id == id;
    p := q;
    AtMostOneDisk(ss, ls, n, {Recycled});
    PageIsFaithful(ss[n], j, ls[n].reply, ls[n].effect, {Recycled});
    assert AllFaithful(ss[n].cloud, GatheredBy(ss[n].rpcs[j]), {Recycled});
    assert list[p] in list;
    assert Faithful(ss[n].cloud, list[p], {Recycled});
  }

  /** The answer for the disk as the repeated lookup sees it is the first answer. */
  lemma SameAnswer(first: Rpc, r: Reply, again: Rpc, r': Reply, d: Disk, e: Disk)
    requires WellFormedRpc(first) && WellFormedRpc(again) && first.req == again.req
    requires first.phase.Running? && first.phase.body.Cv? && again.phase.Running? && again.phase.body.Cv?
    requires var job, at := first.phase.body.job, first.phase.body.cvAt;
      || (at.CvRefind? && r == Disks([d]))
      || (LastAnswer(at, r) && LookupIn(job, Gathered(at, r)) == Found(d) && Compatible(d, job) && d.size == SizeGib(job))
    requires var job, at := again.phase.body.job, again.phase.body.cvAt;
      LastAnswer(at, r') && LookupIn(job, Gathered(at, r')) == Found(e) && Compatible(e, job) && e.size == SizeGib(job)
    requires SameIdentity(d, e) && e.serial == d.serial && d.id != "" && d.serial != ""
    ensures Resume(again, r').phase == Resume(first, r).phase
    ensures Resume(again, r').phase.Unwinding? && Resume(again, r').phase.outcome.Ok?
  {
    var job := again.phase.body.job;
    var answer := VolumeAnswer(d, GibToByte(SizeGib(job)), job.source);
    assert VolumeAnswer(e, GibToByte(e.size), job.source) == answer;
    assert Advance(again.phase.body, r') == Return(answer);
    assert Advance(first.phase.body, r) == Return(answer);
  }

  /**
   Repeating a successful CreateVolume, with the disk neither deleted nor resized in
   between, gives the same answer: same volume id, capacity, source and topology. It does
   not matter whether the first success made the disk or found it, and between the two
   requests anything else may have happened, including other and failed requests for the
   same name.
   */
  lemma CreateVolumeIsIdempotent(ss: seq<State>, ls: seq<Label>, m: nat, i: nat, n: nat, j: nat, d: Disk,
                                 params: Params, defaults: Defaults)
    requires CreatorsRun(ss, ls, {Recycled}) && m < n < |ls| && i != j
    requires Succeeds(ss, ls, m, i, d)
    requires Decides(ss, ls, n, j) && ss[n].rpcs[j].req == ss[m].rpcs[i].req
    requires PlannedFrom(ss[m].rpcs[i].req, params, defaults) && Roundable(ss[m].rpcs[i].req.range)
    requires AnswersAsCreated(ss, ls, m, i, d) ==> TopologyRepeatable(ss[m].rpcs[i].req.requirement)
    requires Persists(ss, m, n, d, JobOf(ss[m].rpcs[i].req))
    ensures Resume(ss[n].rpcs[j], ls[n].reply).phase == Resume(ss[m].rpcs[i], ls[m].reply).phase
    ensures Resume(ss[n].rpcs[j], ls[n].reply).phase.Unwinding? && Resume(ss[n].rpcs[j], ls[n].reply).phase.outcome.Ok?
  {
    var req := ss[m].rpcs[i].req;
    WellFormedAt(ss, ls, m, i);
    WellFormedAt(ss, ls, n, j);
    SuccessIsGenuine(ss, ls, m, i, d);
    var e := RepeatFindsIt(ss, ls, m, i, n, j, d);
    OnlyTopologyCanConflict(req, params, defaults, Entries(ss, ls, n, j), e);
    if AnswersAsFound(ss, ls, m, i, d) {
      FoundHasSize(JobOf(req), Entries(ss, ls, m, i), d);
    }
    SameAnswer(ss[m].rpcs[i], ls[m].reply, ss[n].rpcs[j], ls[n].reply, d, e);
  }

  lemma FoundHasSize(job: CreateJob, list: seq<Disk>, d: Disk)
    requires LookupIn(job, list) == Found(d)
    ensures d.size == SizeGib(job)
  {
    FirstMatchMeaning(list, job.zone, SizeGib(job), job.typ);
    var k: nat :| FirstCandidateAt(list, job.zone, job.typ, k);
  }

  lemma WellFormedAt(ss: seq<State>, ls: seq<Label>, n: nat, i: nat)
    requires IsRun(ss, ls) && n < |ss| && i in ss[n].rpcs
    ensures WellFormedRpc(ss[n].rpcs[i])
  {
    LocksAreOwned(ss, ls, n);
  }

  /** The disk described at the end of a creation is the one created, with the key asked for. */
  lemma RefoundMatches(ss: seq<State>, ls: seq<Label>, m: nat, i: nat, d: Disk)
    requires IsRun(ss, ls) && m < |ls| && AnswersAsCreated(ss, ls, m, i, d) && Inv(ss[m])
    ensures d.id in ss[m].cloud.disks && ss[m].cloud.disks[d.id] == d && d.id in ss[m].cloud.births
    ensures MadeFor(d, ss[m].rpcs[i].phase.body.job)
  {
    CreationsHold(ss, ls, m);
    assert CreatedBy(ss[m].rpcs[i]).Some?;
  }

  /**
   A volume answered as newly made has the content that was asked for: the disk described
   is the one created, with the request's key, made from the request's snapshot or blank.
   */
  lemma NewVolumeHasOrigin(ss: seq<State>, ls: seq<Label>, m: nat, i: nat, d: Disk)
    requires IsRun(ss, ls) && m < |ls| && AnswersAsCreated(ss, ls, m, i, d)
    ensures ss[m].rpcs[i].req.CreateVolume? && ss[m].rpcs[i].req.plan.Planned?
    ensures d.id in ss[m].cloud.disks && ss[m].cloud.disks[d.id] == d && Matches(d, JobOf(ss[m].rpcs[i].req))
    ensures d.origin == AskedOrigin(ss[m].rpcs[i].req.source)
  {
    WellFormedAt(ss, ls, m, i);
    LocksAreOwned(ss, ls, m);
    RefoundMatches(ss, ls, m, i, d);
  }

  /** A disk that is found by name, though, is answered whatever its content: the lookup does not see it. */
  lemma ExistingDiskAnyOrigin(job: CreateJob, d: Disk, origin: Option<Id>)
    ensures AdvanceCv(job, CvLookup, DiskPage(1, [d.(origin := origin)])) == AdvanceCv(job, CvLookup, DiskPage(1, [d]))
  {
    assert [d][1..] == [] && [d.(origin := origin)][1..] == [];
    assert LookupIn(job, [d]).Found? <==> LookupIn(job, [d.(origin := origin)]).Found?;
  }
}
