/**
 What the answers of CreateSnapshot and DeleteSnapshot mean, whatever the cloud says, told
 from the answers alone.
 */
module SnapshotMeanings {
  import opened RpcCodes
  import opened Capacity
  import opened CloudTypes
  import opened Paging
  import opened ControllerProgram
  import opened Conversations
  import opened Stories

  // ---------------------------------------------------------------- deleting a snapshot

  /** The cloud showed that the snapshot is gone. */
  predicate ShownGone(sights: seq<Reply>, deletes: seq<Reply>) {
    Snaps([]) in sights || ResourceNotFound in deletes
  }

  predicate DsStory(at: DsAt, sights: seq<Reply>, deletes: seq<Reply>) {
    && !ShownGone(sights, deletes)
    && match at
       case DsFind => sights == [] && deletes == []
       case DsDelete => |sights| == 1 && ShowsSnap(sights[0]) && deletes == []
       case DsWait(_) => sights != [] && ShowsSnap(sights[0]) && deletes == [Accepted]
  }

  /** The outcome, told entirely from the answers; being told nothing means that the lock was denied. */
  predicate DsEnd(o: Outcome, sights: seq<Reply>, deletes: seq<Reply>) {
    && (o == Ok(Done) <==> ShownGone(sights, deletes))
    && (o == Err(Aborted) <==> sights == [])
    && (o == Ok(Done) || o == Err(Aborted) || o == Err(Internal))
    && |deletes| <= 1 && (deletes != [] ==> sights != [] && ShowsSnap(sights[0]))
  }

  predicate DsLedger(t: Rpc, sights: seq<Reply>, deletes: seq<Reply>) {
    t.req.DeleteSnapshot? && (
    match t.phase
    case Locking(_, _) => sights == [] && deletes == []
    case Running(b) => b.Ds? && DsStory(b.dsAt, sights, deletes)
    case _ => DsEnd(t.phase.outcome, sights, deletes))
  }

  lemma DsAdvances(snapId: Id, at: DsAt, sights: seq<Reply>, deletes: seq<Reply>, e: Exchange)
    requires DsStory(at, sights, deletes) && e.action == Ask(CallOf(Ds(snapId, at)))
    ensures match AdvanceDs(snapId, at, e.reply)
      case Goto(b) => b.Ds? && DsStory(b.dsAt, Told(sights, e, SnapSight), Told(deletes, e, SnapDeletion))
      case Lock(_, _) => false
      case Return(o) => DsEnd(o, Told(sights, e, SnapSight), Told(deletes, e, SnapDeletion))
  {
    match at
    case DsFind => {}
    case DsDelete => {}
    case DsWait(_) => {}
  }

  lemma {:induction false} DsLedgerHolds(req: Request, log: Log)
    requires req.DeleteSnapshot? && Precheck(req).None? && Follows(Start(req), log)
    ensures DsLedger(After(Start(req), log), Replies(log, SnapSight), Replies(log, SnapDeletion))
  {
    if log != [] {
      var before, e := log[..|log| - 1], log[|log| - 1];
      DsLedgerHolds(req, before);
      StartIsWellFormed(req);
      AfterIsWellFormed(Start(req), before);
      var t := After(Start(req), before);
      if t.phase.Running? {
        DsAdvances(t.phase.body.snapId, t.phase.body.dsAt, Replies(before, SnapSight), Replies(before, SnapDeletion), e);
      }
    }
  }

  /**
   A DeleteSnapshot that gets its lock answers OK if and only if the cloud showed that the
   snapshot is gone. It issues at most one delete, and only after it was shown the snapshot.
   */
  lemma DeleteSnapshotMeaning(req: Request, log: Log)
    requires req.DeleteSnapshot? && Precheck(req).None? && Follows(Start(req), log)
    requires After(Start(req), log).phase.Finished?
    ensures DsEnd(After(Start(req), log).phase.outcome, Replies(log, SnapSight), Replies(log, SnapDeletion))
  {
    DsLedgerHolds(req, log);
    StartIsWellFormed(req);
    AfterIsWellFormed(Start(req), log);
  }

  // ---------------------------------------------------------------- creating a snapshot

  predicate AllSnapPages(pages: seq<Reply>) {
    forall k :: 0 <= k < |pages| ==> pages[k].SnapPage?
  }

  function Concatenated(pages: seq<Reply>): seq<Snap>
    requires AllSnapPages(pages)
  {
    if pages == [] then [] else Concatenated(pages[..|pages| - 1]) + pages[|pages| - 1].snaps
  }

  /** The listing was read to its end: one answer if that counts at most a page, else as many more as there are pages. */
  predicate ReadToEnd(pages: seq<Reply>) {
    && pages != [] && AllSnapPages(pages)
    && |pages| == if pages[0].total > PAGE_SIZE then 1 + PageCount(pages[0].total) else 1
  }

  /** What was read. */
  function Entries(pages: seq<Reply>): seq<Snap>
    requires ReadToEnd(pages)
  {
    if pages[0].total > PAGE_SIZE then Concatenated(pages[1..])
    else if pages[0].total == 0 then [] else pages[0].snaps
  }

  predicate SourceIsFit(sights: seq<Reply>) {
    |sights| == 1 && ShowsDisk(sights[0]) && sights[0].disks[0].snapshotAbility
  }

  predicate NothingListed(pages: seq<Reply>) {
    ReadToEnd(pages) && Entries(pages) == []
  }

  /** The name is the source's own snapshot's. */
  predicate ListedFirst(pages: seq<Reply>, src: Id) {
    ReadToEnd(pages) && Entries(pages) != [] && Entries(pages)[0].src == src
  }

  predicate ListedForOther(pages: seq<Reply>, src: Id) {
    ReadToEnd(pages) && Entries(pages) != [] && Entries(pages)[0].src != src
  }

  predicate WasCreated(creations: seq<Reply>) {
    |creations| == 1 && creations[0].Created? && creations[0].id != ""
  }

  predicate ShowsSnapAvailable(r: Reply) {
    ShowsSnap(r) && r.snaps[0].status == SnapAvailable
  }

  /** A snapshot was created, shown available, and described. */
  predicate MadeAndShown(creations: seq<Reply>, snaps: seq<Reply>) {
    WasCreated(creations) && |snaps| > 1 && ShowsSnapAvailable(snaps[|snaps| - 2]) && ShowsSnap(Last(snaps))
  }

  datatype SnapStory = SnapStory(sights: seq<Reply>, pages: seq<Reply>, creations: seq<Reply>, snaps: seq<Reply>)

  function StoryOf(log: Log): SnapStory {
    SnapStory(Replies(log, DiskSight), Replies(log, SnapListed), Replies(log, Creation), Replies(log, SnapSight))
  }

  function ToldMore(y: SnapStory, e: Exchange): SnapStory {
    SnapStory(Told(y.sights, e, DiskSight), Told(y.pages, e, SnapListed), Told(y.creations, e, Creation), Told(y.snaps, e, SnapSight))
  }

  predicate CsStory(parametersOk: bool, at: CsAt, y: SnapStory) {
    match at
    case CsFind => y == SnapStory([], [], [], [])
    case CsLookup(vol) => y == SnapStory([Disks([vol])], [], [], []) && vol.snapshotAbility
    case CsPages(vol, ra, calls, all) =>
      && y.sights == [Disks([vol])] && vol.snapshotAbility && y.creations == [] && y.snaps == []
      && |y.pages| == 1 + ra && AllSnapPages(y.pages) && y.pages[0].total > PAGE_SIZE
      && calls == PageCount(y.pages[0].total) && all == Concatenated(y.pages[1..])
    case CsCreate(vol) =>
      && y.sights == [Disks([vol])] && vol.snapshotAbility && NothingListed(y.pages) && parametersOk && y.creations == [] && y.snaps == []
    case CsWait(vol, newId, _) =>
      && y.sights == [Disks([vol])] && vol.snapshotAbility && NothingListed(y.pages) && parametersOk
      && y.creations == [Created(newId)] && newId != ""
    case CsRefind(vol, newId) =>
      && y.sights == [Disks([vol])] && vol.snapshotAbility && NothingListed(y.pages) && parametersOk
      && y.creations == [Created(newId)] && newId != "" && y.snaps != [] && ShowsSnapAvailable(Last(y.snaps))
  }

  /** The request may be answered with a snapshot: the source's own, listed first, or a new one. */
  predicate Snapshotted(src: Id, parametersOk: bool, y: SnapStory) {
    && SourceIsFit(y.sights)
    && (ListedFirst(y.pages, src) || (NothingListed(y.pages) && parametersOk && MadeAndShown(y.creations, y.snaps)))
  }

  /** The snapshot it is answered with. */
  function AnsweredSnap(src: Id, parametersOk: bool, y: SnapStory): Snap
    requires Snapshotted(src, parametersOk, y)
  {
    if ListedFirst(y.pages, src) then Entries(y.pages)[0] else Last(y.snaps).snaps[0]
  }

  /** It is ready exactly when it is AVAILABLE, and as large as the source is. */
  predicate Describes(o: Outcome, s: Snap, source: Disk) {
    && o.Ok? && o.response.Snapshot?
    && o.response.snapId == s.id && o.response.srcId == s.src
    && (o.response.ready <==> s.status == SnapAvailable)
    && o.response.sizeBytes == Wrap(source.size * GIB)
  }

  /** The outcome, told entirely from the answers. */
  predicate CsEnd(src: Id, parametersOk: bool, o: Outcome, y: SnapStory) {
    && (o.Ok? <==> Snapshotted(src, parametersOk, y))
    && (o.Ok? ==> Describes(o, AnsweredSnap(src, parametersOk, y), y.sights[0].disks[0]))
    && (o == Err(AlreadyExists) <==> SourceIsFit(y.sights) && ListedForOther(y.pages, src))
    && (o == Err(InvalidArgument) <==> SourceIsFit(y.sights) && NothingListed(y.pages) && !parametersOk)
    && (o == Err(NotFound) <==> y.sights == [Disks([])])
    && (o == Err(Aborted) <==> y.sights == [])
    && (o.Ok? || (o.Err? && o.code in {AlreadyExists, InvalidArgument, NotFound, Aborted, Internal}))
  }

  predicate CsFollows(src: Id, parametersOk: bool, v: Verdict, y: SnapStory) {
    match v
    case Goto(b) => b.Cs? && CsStory(parametersOk, b.csAt, y)
    case Lock(_, _) => false
    case Return(o) => CsEnd(src, parametersOk, o, y)
  }

  lemma CsSees(name: string, id: Id, ok: bool, r: Reply)
    ensures CsFollows(id, ok, AdvanceCs(name, id, ok, CsFind, r), SnapStory([r], [], [], []))
  {
    if ShowsDisk(r) {
      assert r == Disks([r.disks[0]]);
    }
  }

  /** What a lookup that has been read to its end leads to. */
  lemma CsDecides(name: string, id: Id, ok: bool, vol: Disk, y: SnapStory)
    requires y.sights == [Disks([vol])] && vol.snapshotAbility && ReadToEnd(y.pages) && y.creations == [] && y.snaps == []
    ensures CsFollows(id, ok, AfterSnapLookup(name, id, ok, vol, FirstSnap(Entries(y.pages), id)), y)
  {
  }

  lemma CsLists(name: string, id: Id, ok: bool, vol: Disk, r: Reply)
    requires vol.snapshotAbility
    ensures CsFollows(id, ok, AdvanceCs(name, id, ok, CsLookup(vol), r), SnapStory([Disks([vol])], [r], [], []))
  {
    var y := SnapStory([Disks([vol])], [r], [], []);
    if r.SnapPage? && r.total <= PAGE_SIZE {
      CsDecides(name, id, ok, vol, y);
    } else if r.SnapPage? {
      assert y.pages[1..] == [];
    }
  }

  lemma CsPagesOn(name: string, id: Id, ok: bool, at: CsAt, y: SnapStory, r: Reply)
    requires at.CsPages? && CsStory(ok, at, y) && at.ra < at.calls
    ensures CsFollows(id, ok, AdvanceCs(name, id, ok, at, r), y.(pages := y.pages + [r]))
  {
    var y' := y.(pages := y.pages + [r]);
    assert y'.pages[1..] == y.pages[1..] + [r];
    if r.SnapPage? {
      assert y'.pages[1..][..|y'.pages[1..]| - 1] == y.pages[1..];
      if at.ra + 1 >= at.calls {
        CsDecides(name, id, ok, at.vol, y');
      }
    }
  }

  lemma CsCreates(name: string, id: Id, ok: bool, at: CsAt, y: SnapStory, r: Reply)
    requires at.CsCreate? && CsStory(ok, at, y)
    ensures CsFollows(id, ok, AdvanceCs(name, id, ok, at, r), y.(creations := [r]))
  {
  }

  lemma CsAwaits(name: string, id: Id, ok: bool, at: CsAt, y: SnapStory, r: Reply)
    requires at.CsWait? && CsStory(ok, at, y)
    ensures CsFollows(id, ok, AdvanceCs(name, id, ok, at, r), y.(snaps := y.snaps + [r]))
  {
    assert Last(y.snaps + [r]) == r;
  }

  lemma CsDescribes(name: string, id: Id, ok: bool, at: CsAt, y: SnapStory, r: Reply)
    requires at.CsRefind? && CsStory(ok, at, y)
    ensures CsFollows(id, ok, AdvanceCs(name, id, ok, at, r), y.(snaps := y.snaps + [r]))
  {
    var snaps := y.snaps + [r];
    assert Last(snaps) == r && snaps[|snaps| - 2] == Last(y.snaps);
  }

  predicate CsLedger(t: Rpc, y: SnapStory) {
    t.req.CreateSnapshot? && (
    match t.phase
    case Locking(_, _) => y == SnapStory([], [], [], [])
    case Running(b) => b.Cs? && CsStory(t.req.parametersOk, b.csAt, y)
    case _ => CsEnd(MainKey(t.req), t.req.parametersOk, t.phase.outcome, y))
  }

  /** Which answers one more exchange at a point adds to. */
  function CsTold(at: CsAt, y: SnapStory, r: Reply): SnapStory {
    match at
    case CsFind => y.(sights := y.sights + [r])
    case CsLookup(_) => y.(pages := y.pages + [r])
    case CsPages(_, _, _, _) => y.(pages := y.pages + [r])
    case CsCreate(_) => y.(creations := y.creations + [r])
    case _ => y.(snaps := y.snaps + [r])
  }

  lemma CsTellsMore(name: string, id: Id, ok: bool, at: CsAt, y: SnapStory, e: Exchange)
    requires e.action == Ask(CallOf(Cs(name, id, ok, at)))
    ensures ToldMore(y, e) == CsTold(at, y, e.reply)
  {
    match at
    case CsFind => {}
    case CsLookup(_) => {}
    case CsPages(_, _, _, _) => {}
    case CsCreate(_) => {}
    case CsWait(_, _, _) => {}
    case CsRefind(_, _) => {}
  }

  lemma CsAdvances(name: string, id: Id, ok: bool, at: CsAt, y: SnapStory, r: Reply)
    requires CsStory(ok, at, y) && (at.CsPages? ==> at.ra < at.calls)
    ensures CsFollows(id, ok, AdvanceCs(name, id, ok, at, r), CsTold(at, y, r))
  {
    match at
    case CsFind => CsSees(name, id, ok, r);
    case CsLookup(vol) => CsLists(name, id, ok, vol, r);
    case CsPages(_, _, _, _) => CsPagesOn(name, id, ok, at, y, r);
    case CsCreate(_) => CsCreates(name, id, ok, at, y, r);
    case CsWait(_, _, _) => CsAwaits(name, id, ok, at, y, r);
    case CsRefind(_, _) => CsDescribes(name, id, ok, at, y, r);
  }

  lemma CsLedgerStep(t: Rpc, y: SnapStory, e: Exchange)
    requires WellFormedRpc(t) && Active(t) && e.action == NextAction(t) && CsLedger(t, y)
    ensures CsLedger(Resume(t, e.reply), ToldMore(y, e))
  {
    if t.phase.Running? {
      var b := t.phase.body;
      CsAdvances(b.name, b.id, b.parametersOk, b.csAt, y, e.reply);
      CsTellsMore(b.name, b.id, b.parametersOk, b.csAt, y, e);
    }
  }

  lemma {:induction false} CsLedgerHolds(req: Request, log: Log)
    requires req.CreateSnapshot? && Precheck(req).None? && Follows(Start(req), log)
    ensures CsLedger(After(Start(req), log), StoryOf(log))
  {
    if log != [] {
      var before := log[..|log| - 1];
      CsLedgerHolds(req, before);
      StartIsWellFormed(req);
      AfterIsWellFormed(Start(req), before);
      CsLedgerStep(After(Start(req), before), StoryOf(before), log[|log| - 1]);
    }
  }

  /**
   A CreateSnapshot whose id parses answers OK if and only if the source was shown fit for
   snapshots and either its own snapshot is listed first under the name, or nothing is
   listed and a new snapshot was created, shown available and described. The answer
   describes that snapshot: ready exactly when it is AVAILABLE, as large as the source. It
   answers AlreadyExists if and only if another source's snapshot is listed first.
   */
  lemma CreateSnapshotMeaning(req: Request, log: Log)
    requires req.CreateSnapshot? && Precheck(req).None? && Follows(Start(req), log)
    requires After(Start(req), log).phase.Finished?
    ensures CsEnd(MainKey(req), req.parametersOk, After(Start(req), log).phase.outcome, StoryOf(log))
  {
    CsLedgerHolds(req, log);
    StartIsWellFormed(req);
    AfterIsWellFormed(Start(req), log);
  }

  /** The listing is read from its first page on: a first call that counts its entries, then page after page. */
  lemma PagesInOrder(req: Request, log: Log, k: nat)
    requires Follows(Start(req), log) && k < |log| && log[k].action.Ask? && log[k].action.call.ListSnaps?
    ensures var before := |Replies(log[..k], SnapListed)|; log[k].action.call.pageNum == if before == 0 then 1 else before
  {
    PrefixFollows(Start(req), log, k);
    StartIsWellFormed(req);
    AfterIsWellFormed(Start(req), log[..k]);
    SnapListingPoint(After(Start(req), log[..k]));
    ExchangesAfterPrecheck(req, log);
    CsLedgerHolds(req, log[..k]);
    SnapPageAsked(After(Start(req), log[..k]), StoryOf(log[..k]));
  }

  lemma SnapPageAsked(t: Rpc, y: SnapStory)
    requires WellFormedRpc(t) && CsLedger(t, y) && t.phase.Running? && CallOf(t.phase.body).ListSnaps?
    ensures CallOf(t.phase.body).pageNum == if |y.pages| == 0 then 1 else |y.pages|
  {
    match t.phase.body.csAt
    case CsLookup(_) => {}
    case CsPages(_, _, _, _) => {}
  }

  lemma SnapListingPoint(t: Rpc)
    requires WellFormedRpc(t) && Active(t) && NextAction(t).Ask? && NextAction(t).call.ListSnaps?
    ensures t.phase.Running? && t.phase.body.Cs? && (t.phase.body.csAt.CsLookup? || t.phase.body.csAt.CsPages?)
    ensures t.req.CreateSnapshot?
  {
  }
}
