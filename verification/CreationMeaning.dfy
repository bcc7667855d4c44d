/**
 What the answers of CreateVolume mean, whatever the cloud says, told from the answers
 alone; and what it asks the cloud to make.
 */
module CreationMeaning {
  import opened Wrappers
  import opened RpcCodes
  import opened Capacity
  import opened CloudTypes
  import opened Paging
  import opened Topology
  import opened ControllerProgram
  import opened ControllerSystem
  import opened Conversations
  import opened Stories

  predicate AllDiskPages(pages: seq<Reply>) {
    forall k :: 0 <= k < |pages| ==> pages[k].DiskPage?
  }

  function Concatenated(pages: seq<Reply>): seq<Disk>
    requires AllDiskPages(pages)
  {
    if pages == [] then [] else Concatenated(pages[..|pages| - 1]) + pages[|pages| - 1].disks
  }

  /** The listing was read to its end: one answer if that counts at most a page, else as many more as there are pages. */
  predicate ReadToEnd(pages: seq<Reply>) {
    && pages != [] && AllDiskPages(pages)
    && |pages| == if pages[0].total > PAGE_SIZE then 1 + PageCount(pages[0].total) else 1
  }

  /** What was read. */
  function Entries(pages: seq<Reply>): seq<Disk>
    requires ReadToEnd(pages)
  {
    if pages[0].total > PAGE_SIZE then Concatenated(pages[1..])
    else if pages[0].total == 0 then [] else pages[0].disks
  }

  datatype Story = Story(pages: seq<Reply>, snaps: seq<Reply>, creations: seq<Reply>, sights: seq<Reply>)

  const NOTHING_TOLD := Story([], [], [], [])

  function StoryOf(log: Log): Story {
    Story(Replies(log, DiskListed), Replies(log, SnapSight), Replies(log, Creation), Replies(log, DiskSight))
  }

  function ToldMore(y: Story, e: Exchange): Story {
    Story(Told(y.pages, e, DiskListed), Told(y.snaps, e, SnapSight), Told(y.creations, e, Creation), Told(y.sights, e, DiskSight))
  }

  // ---------------------------------------------------------------- when it succeeds

  predicate Named(d: Disk) {
    d.id != "" && d.serial != ""
  }

  predicate FindsNone(job: CreateJob, pages: seq<Reply>) {
    ReadToEnd(pages) && LookupIn(job, Entries(pages)) == NotThere
  }

  /** The first usable entry of the zone and type has another size, or the request does not accept it. */
  predicate FindsUnfit(job: CreateJob, pages: seq<Reply>) {
    && ReadToEnd(pages)
    && (LookupIn(job, Entries(pages)).SizeConflict?
        || (LookupIn(job, Entries(pages)).Found? && !Compatible(LookupIn(job, Entries(pages)).disk, job)))
  }

  /** The content asked for can be had: none, or a snapshot that was shown fit to make disks from. */
  predicate ContentIsFit(source: Source, snaps: seq<Reply>) {
    || (source.Empty? && snaps == [])
    || (source.FromSnapshot? && |snaps| == 1 && ShowsSnap(snaps[0]) && snaps[0].snaps[0].diskAbility)
  }

  predicate WasCreated(creations: seq<Reply>) {
    |creations| == 1 && creations[0].Created? && creations[0].id != ""
  }

  /** A disk was created, shown available, and described with its id and serial. */
  predicate MadeAndShown(y: Story) {
    && WasCreated(y.creations) && |y.sights| > 1 && ShowsDiskIn(y.sights[|y.sights| - 2], Available)
    && ShowsDisk(Last(y.sights)) && Named(Last(y.sights).disks[0])
  }

  predicate Provided(job: CreateJob, y: Story) {
    || (ReadToEnd(y.pages) && LookupIn(job, Entries(y.pages)).Found? && Compatible(LookupIn(job, Entries(y.pages)).disk, job)
        && Named(LookupIn(job, Entries(y.pages)).disk))
    || (FindsNone(job, y.pages) && ContentIsFit(job.source, y.snaps) && MadeAndShown(y))
  }

  /** The disk the request is answered with. */
  function AnsweredDisk(job: CreateJob, y: Story): Disk
    requires Provided(job, y)
  {
    if FindsNone(job, y.pages) then Last(y.sights).disks[0] else LookupIn(job, Entries(y.pages)).disk
  }

  /** The answer names that disk, has the size asked for, echoes the content source and offers the disk's topology. */
  predicate Answers(o: Outcome, job: CreateJob, d: Disk) {
    && o.Ok? && o.response.Volume?
    && o.response.csiVolId == d.id + "-" + d.serial
    && o.response.capacityBytes == GibToByte(ByteCeilToGib(job.sizeByte))
    && o.response.source == job.source
    && o.response.topology == VolumeTopology(DRIVER_NAME, d.zone, d.typ)
  }

  predicate CvEnd(job: CreateJob, o: Outcome, y: Story) {
    && (o.Ok? <==> Provided(job, y))
    && (o.Ok? ==> Answers(o, job, AnsweredDisk(job, y)))
    && (o == Err(AlreadyExists) <==> FindsUnfit(job, y.pages))
    && (o == Err(InvalidArgument) <==> FindsNone(job, y.pages) && job.source == FromSnapshot(""))
    && (o == Err(Unimplemented) <==> FindsNone(job, y.pages) && job.source.FromVolume?)
    && (o == Err(NotFound) <==> FindsNone(job, y.pages) && y.snaps == [Snaps([])])
    && (o.Ok? || (o.Err? && o.code in {AlreadyExists, InvalidArgument, Unimplemented, NotFound, Aborted, Internal}))
  }

  // ---------------------------------------------------------------- the answers so far, at each point

  /** There is no usable entry, and the content source is of a kind that can be made. */
  predicate MayMake(job: CreateJob, pages: seq<Reply>) {
    FindsNone(job, pages) && job.source != FromSnapshot("") && (job.source.Empty? || job.source.FromSnapshot?)
  }

  predicate CvStory(job: CreateJob, at: CvAt, y: Story) {
    match at
    case CvLookup => y == NOTHING_TOLD
    case CvPages(ra, calls, all) =>
      && y.snaps == [] && y.creations == [] && y.sights == []
      && |y.pages| == 1 + ra && AllDiskPages(y.pages) && y.pages[0].total > PAGE_SIZE
      && calls == PageCount(y.pages[0].total) && all == Concatenated(y.pages[1..])
    case CvFindSnap => MayMake(job, y.pages) && y.snaps == [] && y.creations == [] && y.sights == []
    case CvCreate => MayMake(job, y.pages) && ContentIsFit(job.source, y.snaps) && y.creations == [] && y.sights == []
    case CvWait(newId, _) =>
      MayMake(job, y.pages) && ContentIsFit(job.source, y.snaps) && y.creations == [Created(newId)] && newId != ""
    case CvRefind(newId) =>
      && MayMake(job, y.pages) && ContentIsFit(job.source, y.snaps) && y.creations == [Created(newId)] && newId != ""
      && y.sights != [] && ShowsDiskIn(Last(y.sights), Available)
  }

  predicate CvFollows(job: CreateJob, v: Verdict, y: Story) {
    match v
    case Goto(b) => b.Cv? && b.job == job && CvStory(job, b.cvAt, y)
    case Lock(_, b) => b.Cv? && b.job == job && CvStory(job, b.cvAt, y)
    case Return(o) => CvEnd(job, o, y)
  }

  lemma CvDecides(job: CreateJob, y: Story)
    requires ReadToEnd(y.pages) && y.snaps == [] && y.creations == [] && y.sights == []
    ensures CvFollows(job, AfterLookup(job, LookupIn(job, Entries(y.pages))), y)
  {
    FirstMatchMeaning(Entries(y.pages), job.zone, SizeGib(job), job.typ);
  }

  lemma CvLists(job: CreateJob, r: Reply)
    ensures CvFollows(job, AdvanceCv(job, CvLookup, r), NOTHING_TOLD.(pages := [r]))
  {
    var y := NOTHING_TOLD.(pages := [r]);
    if r.DiskPage? && r.total <= PAGE_SIZE {
      CvDecides(job, y);
    } else if r.DiskPage? {
      assert y.pages[1..] == [];
    }
  }

  lemma CvPagesOn(job: CreateJob, at: CvAt, y: Story, r: Reply)
    requires at.CvPages? && CvStory(job, at, y) && at.ra < at.calls
    ensures CvFollows(job, AdvanceCv(job, at, r), y.(pages := y.pages + [r]))
  {
    var y' := y.(pages := y.pages + [r]);
    assert y'.pages[1..] == y.pages[1..] + [r];
    if r.DiskPage? {
      assert y'.pages[1..][..|y'.pages[1..]| - 1] == y.pages[1..];
      if at.ra + 1 >= at.calls {
        CvDecides(job, y');
      }
    }
  }

  lemma CvFinds(job: CreateJob, y: Story, r: Reply)
    requires CvStory(job, CvFindSnap, y) && job.source.FromSnapshot?
    ensures CvFollows(job, AdvanceCv(job, CvFindSnap, r), y.(snaps := [r]))
  {
  }

  lemma CvCreates(job: CreateJob, y: Story, r: Reply)
    requires CvStory(job, CvCreate, y)
    ensures CvFollows(job, AdvanceCv(job, CvCreate, r), y.(creations := [r]))
  {
  }

  lemma CvAwaits(job: CreateJob, newId: Id, polled: bool, y: Story, r: Reply)
    requires CvStory(job, CvWait(newId, polled), y)
    ensures CvFollows(job, AdvanceCv(job, CvWait(newId, polled), r), y.(sights := y.sights + [r]))
  {
    assert Last(y.sights + [r]) == r;
  }

  lemma CvDescribes(job: CreateJob, newId: Id, y: Story, r: Reply)
    requires CvStory(job, CvRefind(newId), y)
    ensures CvFollows(job, AdvanceCv(job, CvRefind(newId), r), y.(sights := y.sights + [r]))
  {
    var sights := y.sights + [r];
    assert Last(sights) == r && sights[|sights| - 2] == Last(y.sights);
  }

  /** Which answers one more exchange at a point adds to. */
  function CvTold(at: CvAt, y: Story, r: Reply): Story {
    match at
    case CvLookup => y.(pages := y.pages + [r])
    case CvPages(_, _, _) => y.(pages := y.pages + [r])
    case CvFindSnap => y.(snaps := y.snaps + [r])
    case CvCreate => y.(creations := y.creations + [r])
    case _ => y.(sights := y.sights + [r])
  }

  lemma CvTellsMore(job: CreateJob, at: CvAt, y: Story, e: Exchange)
    requires e.action == Ask(CallOf(Cv(job, at)))
    ensures ToldMore(y, e) == CvTold(at, y, e.reply)
  {
    match at
    case CvLookup => {}
    case CvPages(_, _, _) => {}
    case CvFindSnap => {}
    case CvCreate => {}
    case CvWait(_, _) => {}
    case CvRefind(_) => {}
  }

  lemma CvAdvances(job: CreateJob, at: CvAt, y: Story, r: Reply)
    requires CvStory(job, at, y) && Established(Cv(job, at))
    ensures CvFollows(job, AdvanceCv(job, at, r), CvTold(at, y, r))
  {
    match at
    case CvLookup => CvLists(job, r);
    case CvPages(_, _, _) => CvPagesOn(job, at, y, r);
    case CvFindSnap => CvFinds(job, y, r);
    case CvCreate => CvCreates(job, y, r);
    case CvWait(newId, polled) => CvAwaits(job, newId, polled, y, r);
    case CvRefind(newId) => CvDescribes(job, newId, y, r);
  }

  predicate CvLedger(t: Rpc, y: Story) {
    t.req.CreateVolume? && t.req.plan.Planned? && (
    match t.phase
    case Locking(_, granted) => CvFollows(JobOf(t.req), granted, y)
    case Running(b) => b.Cv? && b.job == JobOf(t.req) && CvStory(b.job, b.cvAt, y)
    case _ => CvEnd(JobOf(t.req), t.phase.outcome, y))
  }

  lemma CvLedgerStep(t: Rpc, y: Story, e: Exchange)
    requires WellFormedRpc(t) && Active(t) && e.action == NextAction(t) && CvLedger(t, y)
    ensures CvLedger(Resume(t, e.reply), ToldMore(y, e))
  {
    match t.phase
    case Locking(_, granted) => {
      if e.reply != Granted {
        DeniedProvidesNothing(JobOf(t.req), granted, y);
      }
    }
    case Running(b) => {
      CvAdvances(b.job, b.cvAt, y, e.reply);
      CvTellsMore(b.job, b.cvAt, y, e);
    }
    case Unwinding(_) => {}
  }

  /** An RPC that waits for a lock has been told nothing yet that would make it succeed. */
  lemma DeniedProvidesNothing(job: CreateJob, granted: Verdict, y: Story)
    requires CvFollows(job, granted, y) && granted.Goto? && (granted.body.cvAt.CvLookup? || granted.body.cvAt.CvFindSnap?)
    ensures CvEnd(job, Err(Aborted), y)
  {
  }

  lemma {:induction false} CvLedgerHolds(req: Request, log: Log)
    requires req.CreateVolume? && req.plan.Planned? && Precheck(req).None? && Follows(Start(req), log)
    ensures CvLedger(After(Start(req), log), StoryOf(log))
  {
    if log != [] {
      var before := log[..|log| - 1];
      CvLedgerHolds(req, before);
      StartIsWellFormed(req);
      AfterIsWellFormed(Start(req), before);
      CvLedgerStep(After(Start(req), before), StoryOf(before), log[|log| - 1]);
    }
  }

  /**
   A CreateVolume with a plan answers OK if and only if the listing of its name, read to
   the end, has a compatible disk as first usable entry of its zone and type, or has none,
   and then, with a fit content source, a disk was created, shown available and described
   with its id and serial. The answer names that disk with the size and source asked for.
   It answers AlreadyExists if and only if that first entry is of another size or not
   compatible.
   */
  lemma CreateVolumeMeaning(req: Request, log: Log)
    requires req.CreateVolume? && req.plan.Planned? && Precheck(req).None? && Follows(Start(req), log)
    requires After(Start(req), log).phase.Finished?
    ensures CvEnd(JobOf(req), After(Start(req), log).phase.outcome, StoryOf(log))
  {
    CvLedgerHolds(req, log);
    StartIsWellFormed(req);
    AfterIsWellFormed(Start(req), log);
  }

  /** With a plan that was rejected the answer is its code, or Aborted, and the cloud is asked nothing. */
  lemma RejectedAsksNothing(req: Request, log: Log, k: nat)
    requires req.CreateVolume? && req.plan.Rejected? && Follows(Start(req), log) && k < |log|
    ensures !log[k].action.Ask?
  {
    if log[k].action.Ask? {
      CallsAreOwn(req, log, k);
    }
  }

  /** The listing is read from its first page on: a first call that counts its entries, then page after page. */
  lemma PagesInOrder(req: Request, log: Log, k: nat)
    requires Follows(Start(req), log) && k < |log| && log[k].action.Ask? && log[k].action.call.ListDisks?
    ensures var before := |Replies(log[..k], DiskListed)|; log[k].action.call.pageNum == if before == 0 then 1 else before
  {
    PrefixFollows(Start(req), log, k);
    StartIsWellFormed(req);
    AfterIsWellFormed(Start(req), log[..k]);
    ListingPoint(After(Start(req), log[..k]));
    ExchangesAfterPrecheck(req, log);
    CvLedgerHolds(req, log[..k]);
    PageAsked(After(Start(req), log[..k]), StoryOf(log[..k]));
  }

  lemma PageAsked(t: Rpc, y: Story)
    requires WellFormedRpc(t) && CvLedger(t, y) && t.phase.Running? && CallOf(t.phase.body).ListDisks?
    ensures CallOf(t.phase.body).pageNum == if |y.pages| == 0 then 1 else |y.pages|
  {
    match t.phase.body.cvAt
    case CvLookup => {}
    case CvPages(_, _, _) => {}
  }

  lemma ListingPoint(t: Rpc)
    requires WellFormedRpc(t) && Active(t) && NextAction(t).Ask? && NextAction(t).call.ListDisks?
    ensures t.phase.Running? && t.phase.body.Cv? && (t.phase.body.cvAt.CvLookup? || t.phase.body.cvAt.CvPages?)
    ensures t.req.CreateVolume? && t.req.plan.Planned?
  {
  }

  // ---------------------------------------------------------------- what is asked to be made

  /** The log ends with the lock on the snapshot being granted. */
  predicate JustLocked(log: Log, snapId: Id) {
    log != [] && log[|log| - 1] == Exchange(TryLock(snapId), Granted)
  }

  /** The log ends with that lock and, under it, a description of the snapshot as fit to make disks from. */
  predicate LockedAndShownFit(log: Log, snapId: Id) {
    && log != [] && JustLocked(log[..|log| - 1], snapId)
    && var e := log[|log| - 1];
       e.action == Ask(DescribeSnap(snapId)) && ShowsSnap(e.reply) && e.reply.snaps[0].diskAbility
  }

  predicate RestoreTrail(t: Rpc, log: Log) {
    t.phase.Running? && t.phase.body.Cv? && t.phase.body.job.source.FromSnapshot? ==>
      && (t.phase.body.cvAt.CvFindSnap? ==> JustLocked(log, t.phase.body.job.source.snapId))
      && (t.phase.body.cvAt.CvCreate? ==> LockedAndShownFit(log, t.phase.body.job.source.snapId))
  }

  lemma RestoreTrailStep(t: Rpc, log: Log, e: Exchange)
    requires WellFormedRpc(t) && Active(t) && RestoreTrail(t, log) && e.action == NextAction(t)
    ensures RestoreTrail(Resume(t, e.reply), log + [e])
  {
    assert (log + [e])[..|log + [e]| - 1] == log;
    if t.phase.Locking? && t.phase.granted.Goto? && t.phase.granted.body.Cv? && t.phase.granted.body.cvAt.CvFindSnap? {
      assert KeysAt(t.phase.granted.body)[0] == t.phase.key;
    }
    if t.phase.Running? {
      AdvanceIsGood(t.phase.body, t.req, e.reply);
      if t.phase.body.Cv? && t.phase.body.job.source.FromSnapshot? && Advance(t.phase.body, e.reply).Goto? {
        CvMovesOn(t.phase.body.job, t.phase.body.cvAt, e.reply);
      }
    }
  }

  /** A lookup does not lead straight to a restore, and only a fit snapshot leads to its creation. */
  lemma CvMovesOn(job: CreateJob, at: CvAt, r: Reply)
    requires job.source.FromSnapshot? && AdvanceCv(job, at, r).Goto?
    ensures var b := AdvanceCv(job, at, r).body;
      && !(b.Cv? && b.cvAt.CvFindSnap?)
      && (b.Cv? && b.cvAt.CvCreate? ==> at.CvFindSnap? && ShowsSnap(r) && r.snaps[0].diskAbility)
  {
  }

  lemma {:induction false} RestoreTrailHolds(req: Request, log: Log)
    requires Follows(Start(req), log)
    ensures RestoreTrail(After(Start(req), log), log)
  {
    if log != [] {
      var before := log[..|log| - 1];
      RestoreTrailHolds(req, before);
      StartIsWellFormed(req);
      AfterIsWellFormed(Start(req), before);
      RestoreTrailStep(After(Start(req), before), before, log[|log| - 1]);
      assert before + [log[|log| - 1]] == log;
    }
  }

  /**
   What CreateVolume asks the cloud to make is what was asked of it: a disk of the name,
   planned zone, group, type and size, made from a snapshot exactly when that snapshot is
   the content source. Then the snapshot's lock was granted, and the snapshot shown fit,
   immediately before.
   */
  lemma CreatesWhatWasAsked(req: Request, log: Log, k: nat)
    requires Follows(Start(req), log) && k < |log| && log[k].action.Ask? && log[k].action.call.CreateDisk?
    ensures req.CreateVolume? && req.plan.Planned?
    ensures var call := log[k].action.call;
      && call.name == req.name && call.zone == req.plan.zone && call.group == req.plan.group && call.typ == req.plan.typ
      && call.size == ByteCeilToGib(req.plan.sizeByte)
      && (forall s :: call.fromSnap == Some(s) <==> req.source == FromSnapshot(s))
      && (call.fromSnap.Some? ==> LockedAndShownFit(log[..k], call.fromSnap.value))
  {
    CallsAreOwn(req, log, k);
    PrefixFollows(Start(req), log, k);
    StartIsWellFormed(req);
    AfterIsWellFormed(Start(req), log[..k]);
    RestoreTrailHolds(req, log[..k]);
    CreatesOnlyAtItsPoint(After(Start(req), log[..k]));
  }

  lemma CreatesOnlyAtItsPoint(t: Rpc)
    requires WellFormedRpc(t) && Active(t) && NextAction(t).Ask? && NextAction(t).call.CreateDisk?
    ensures t.phase.Running? && t.phase.body.Cv? && t.phase.body.cvAt.CvCreate? && t.phase.body.job == JobOf(t.req)
  {
  }

  /** The same in every run; the snapshot's key is then among those the RPC holds. */
  lemma RunsCreateWhatWasAsked(ss: seq<State>, ls: seq<Label>, n: nat, i: nat)
    requires IsRun(ss, ls) && n < |ss| && i in ss[n].rpcs && Active(ss[n].rpcs[i])
    requires NextAction(ss[n].rpcs[i]).Ask? && NextAction(ss[n].rpcs[i]).call.CreateDisk?
    ensures ss[n].rpcs[i].req.CreateVolume? && ss[n].rpcs[i].req.plan.Planned?
    ensures var req, call := ss[n].rpcs[i].req, NextAction(ss[n].rpcs[i]).call;
      && call.name == req.name && call.zone == req.plan.zone && call.group == req.plan.group && call.typ == req.plan.typ
      && call.size == ByteCeilToGib(req.plan.sizeByte)
      && (forall s :: call.fromSnap == Some(s) <==> req.source == FromSnapshot(s))
      && (call.fromSnap.Some? ==>
            LockedAndShownFit(History(ss, ls, n, i), call.fromSnap.value) && call.fromSnap.value in ss[n].rpcs[i].defers)
  {
    LocksAreOwned(ss, ls, n);
    RunCallsAreOwn(ss, ls, n, i);
    CreatesOnlyAtItsPoint(ss[n].rpcs[i]);
    RunsAreConversations(ss, ls, n, i);
    RestoreTrailHolds(ss[n].rpcs[i].req, History(ss, ls, n, i));
  }
}
