/** CreateSnapshot: why retrying it is idempotent while names are unique. */
module SnapshotRetry {
  import opened Wrappers
  import opened CloudTypes
  import opened Paging
  import opened ControllerProgram
  import opened ControllerSystem
  import opened Observations
  import opened Snapshots
  import opened SnapshotMeanings

  /** A run in which only the driver takes snapshots, and names stay unique within a zone and group. */
  ghost predicate NamedRun(ss: seq<State>, ls: seq<Label>) {
    && IsRun(ss, ls) && UniqueNames(ss[0].cloud)
    && forall k :: 0 <= k < |ls| ==> OnlyDriverSnapshots(ls[k]) && NoOverlap(ss[k])
  }

  lemma NamesHold(ss: seq<State>, ls: seq<Label>, n: nat)
    requires NamedRun(ss, ls) && n < |ss|
    ensures Inv(ss[n]) && NameInv(ss[n])
  {
    NamesAreUnique(ss, ls, n);
    LocksAreOwned(ss, ls, n);
  }

  // ---------------------------------------------------------------- listings of unique names

  /** A listing then has at most one entry. */
  lemma ListingIsShort(c: Cloud, name: string, zone: string, group: string, list: seq<Snap>)
    requires UniqueNames(c) && IsSnapListing(c, name, zone, group, list)
    ensures |list| <= 1
  {
    if |list| > 1 {
      SameNameSameId(c, list[0], list[1]);
    }
  }

  lemma SameNameSameId(c: Cloud, x: Snap, y: Snap)
    requires UniqueNames(c) && x.id in c.snaps && c.snaps[x.id] == x && y.id in c.snaps && c.snaps[y.id] == y && SameName(x, y)
    ensures x.id == y.id
  {
  }

  predicate PagesSnaps(t: Rpc) {
    t.phase.Running? && t.phase.body.Cs? && t.phase.body.csAt.CsPages?
  }

  lemma OnlyLongListingsArePaged(t: Rpc, r: Reply)
    requires WellFormedRpc(t) && Active(t) && PagesSnaps(Resume(t, r)) && !PagesSnaps(t)
    ensures t.phase.Running? && CallOf(t.phase.body).ListSnaps? && r.SnapPage? && r.total > PAGE_SIZE
  {
    if t.phase.Running? {
      AdvanceIsGood(t.phase.body, t.req, r);
    }
  }

  lemma ShortAnswer(c: Cloud, call: Call, r: Reply, e: Effect)
    requires UniqueNames(c) && call.ListSnaps? && Answers(c, call, r, e) && r.SnapPage?
    ensures r.total <= 1
  {
    var list :| IsSnapListing(c, call.name, call.zone, call.group, list) && r.total == |list| && r.snaps == Page(list, call.pageNum);
    ListingIsShort(c, call.name, call.zone, call.group, list);
  }

  lemma StaysUnpaged(s: State, i: nat, r: Reply, e: Effect)
    requires Inv(s) && UniqueNames(s.cloud) && CanDrive(s, i, r, e) && !PagesSnaps(s.rpcs[i])
    ensures !PagesSnaps(Resume(s.rpcs[i], r))
  {
    if PagesSnaps(Resume(s.rpcs[i], r)) {
      OnlyLongListingsArePaged(s.rpcs[i], r);
      ShortAnswer(s.cloud, CallOf(s.rpcs[i].phase.body), r, e);
    }
  }

  /** So no lookup reads page by page. */
  lemma {:induction false} NeverPaged(ss: seq<State>, ls: seq<Label>, n: nat, i: nat)
    requires NamedRun(ss, ls) && n < |ss| && i in ss[n].rpcs
    ensures !PagesSnaps(ss[n].rpcs[i])
  {
    if n > 0 {
      assert StepsTo(ss, ls, n - 1);
      FaresInStep(ss[n - 1], ls[n - 1], i);
      match MoveOf(ls[n - 1], i)
      case Began => {}
      case Stayed => NeverPaged(ss, ls, n - 1, i);
      case Moved => {
        NeverPaged(ss, ls, n - 1, i);
        NamesHold(ss, ls, n - 1);
        StaysUnpaged(ss[n - 1], i, ls[n - 1].reply, ls[n - 1].effect);
      }
    }
  }

  // ---------------------------------------------------------------- what never changes about a snapshot

  ghost predicate SnapsKept(c: Cloud, c': Cloud) {
    forall id :: id in c.snapIds ==>
      && id in c'.snapIds
      && (id in c'.snaps ==> id in c.snaps && SameName(c.snaps[id], c'.snaps[id]) && c.snaps[id].src == c'.snaps[id].src)
  }

  lemma DriveKeepsSnaps(s: State, i: nat, r: Reply, e: Effect)
    requires CloudOk(s.cloud) && CanDrive(s, i, r, e)
    ensures SnapsKept(s.cloud, Apply(s, Drive(i, r, e)).cloud)
  {
  }

  lemma EventKeepsSnapIds(c: Cloud, ev: Event)
    requires CloudOk(c) && Possible(c, ev)
    ensures SnapsKept(c, AfterEvent(c, ev))
  {
  }

  lemma StepKeepsSnaps(s: State, l: Label)
    requires Inv(s) && Enabled(s, l)
    ensures SnapsKept(s.cloud, Apply(s, l).cloud)
  {
    match l
    case Spawn(_, _) => {}
    case Drive(i, r, e) => DriveKeepsSnaps(s, i, r, e);
    case Env(ev) => EventKeepsSnapIds(s.cloud, ev);
  }

  lemma KeptThrough(a: Cloud, b: Cloud, c: Cloud)
    requires SnapsKept(a, b) && SnapsKept(b, c)
    ensures SnapsKept(a, c)
  {
  }

  lemma KeptByItself(c: Cloud)
    requires CloudOk(c)
    ensures SnapsKept(c, c)
  {
  }

  lemma {:induction false} RunKeepsSnaps(ss: seq<State>, ls: seq<Label>, m: nat, n: nat)
    requires IsRun(ss, ls) && m <= n < |ss|
    ensures SnapsKept(ss[m].cloud, ss[n].cloud)
    decreases n
  {
    if m < n {
      RunKeepsSnaps(ss, ls, m, n - 1);
      LocksAreOwned(ss, ls, n - 1);
      assert StepsTo(ss, ls, n - 1);
      StepKeepsSnaps(ss[n - 1], ls[n - 1]);
      KeptThrough(ss[m].cloud, ss[n - 1].cloud, ss[n].cloud);
    } else {
      LocksAreOwned(ss, ls, n);
      KeptByItself(ss[n].cloud);
    }
  }

  // ---------------------------------------------------------------- created snapshots

  function NewSnapAt(at: CsAt): Option<Id> {
    if at.CsWait? || at.CsRefind? then Some(at.newId) else None
  }

  function NewSnapOf(t: Rpc): Option<Id> {
    if t.phase.Running? && t.phase.body.Cs? then NewSnapAt(t.phase.body.csAt) else None
  }

  /** The snapshot an RPC has created, while it is still there, is of its name and source. */
  ghost predicate CreatedAsAsked(c: Cloud, t: Rpc) {
    NewSnapOf(t).Some? ==>
      var id := NewSnapOf(t).value;
      && id in c.snapIds
      && (id in c.snaps ==> c.snaps[id].name == t.phase.body.name && c.snaps[id].src == t.phase.body.id)
  }

  lemma CsNames(name: string, id: Id, parametersOk: bool, at: CsAt, r: Reply)
    requires AdvanceCs(name, id, parametersOk, at, r).Goto? && AdvanceCs(name, id, parametersOk, at, r).body.Cs?
    requires NewSnapAt(AdvanceCs(name, id, parametersOk, at, r).body.csAt).Some?
    ensures var b := AdvanceCs(name, id, parametersOk, at, r).body;
      && b.name == name && b.id == id
      && (NewSnapAt(b.csAt) == NewSnapAt(at) || (at.CsCreate? && r == Created(NewSnapAt(b.csAt).value)))
  {
    match at
    case CsFind => {}
    case CsLookup(_) => {}
    case CsPages(_, _, _, _) => {}
    case CsCreate(_) => {}
    case CsWait(_, _, _) => {}
    case CsRefind(_, _) => {}
  }

  lemma NamesNewSnap(t: Rpc, r: Reply)
    requires WellFormedRpc(t) && Active(t) && NewSnapOf(Resume(t, r)).Some?
    ensures t.phase.Running? && t.phase.body.Cs?
    ensures var b, b' := t.phase.body, Resume(t, r).phase.body;
      && b'.name == b.name && b'.id == b.id
      && (NewSnapOf(t) == NewSnapOf(Resume(t, r)) || (b.csAt.CsCreate? && r == Created(NewSnapOf(Resume(t, r)).value)))
  {
    if t.phase.Running? {
      var b := t.phase.body;
      AdvanceIsGood(b, t.req, r);
      CsNames(b.name, b.id, b.parametersOk, b.csAt, r);
    }
  }

  lemma NewSnapIsAsAsked(s: State, i: nat, r: Reply, e: Effect)
    requires CanDrive(s, i, r, e) && s.rpcs[i].phase.Running? && s.rpcs[i].phase.body.Cs? && s.rpcs[i].phase.body.csAt.CsCreate?
    requires r.Created?
    ensures e.NewSnap? && e.snap.id == r.id && e.snap.name == s.rpcs[i].phase.body.name && e.snap.src == s.rpcs[i].phase.body.id
    ensures var c' := Apply(s, Drive(i, r, e)).cloud; r.id in c'.snapIds && r.id in c'.snaps && c'.snaps[r.id] == e.snap
  {
  }

  /** An RPC's own step keeps what it created as asked. */
  lemma OwnStepCreates(s: State, i: nat, r: Reply, e: Effect)
    requires Inv(s) && CanDrive(s, i, r, e) && CreatedAsAsked(s.cloud, s.rpcs[i])
    ensures CreatedAsAsked(Apply(s, Drive(i, r, e)).cloud, Resume(s.rpcs[i], r))
  {
    if NewSnapOf(Resume(s.rpcs[i], r)).Some? {
      NamesNewSnap(s.rpcs[i], r);
      DriveKeepsSnaps(s, i, r, e);
      if s.rpcs[i].phase.body.csAt.CsCreate? {
        NewSnapIsAsAsked(s, i, r, e);
      }
    }
  }

  ghost predicate CreatedStand(s: State) {
    forall i :: i in s.rpcs ==> CreatedAsAsked(s.cloud, s.rpcs[i])
  }

  lemma StepKeepsCreated(s: State, l: Label)
    requires Inv(s) && CreatedStand(s) && Enabled(s, l)
    ensures CreatedStand(Apply(s, l))
  {
    var s' := Apply(s, l);
    StepKeepsSnaps(s, l);
    forall i | i in s'.rpcs ensures CreatedAsAsked(s'.cloud, s'.rpcs[i]) {
      FaresInStep(s, l, i);
      match MoveOf(l, i)
      case Began => {
        assert NewSnapOf(Start(l.req)).None?;
      }
      case Stayed => {
        assert CreatedAsAsked(s.cloud, s.rpcs[i]);
      }
      case Moved => {
        assert CreatedAsAsked(s.cloud, s.rpcs[i]);
        OwnStepCreates(s, i, l.reply, l.effect);
      }
    }
  }

  lemma {:induction false} CreatedHolds(ss: seq<State>, ls: seq<Label>, n: nat)
    requires IsRun(ss, ls) && n < |ss|
    ensures CreatedStand(ss[n])
  {
    if n > 0 {
      CreatedHolds(ss, ls, n - 1);
      LocksAreOwned(ss, ls, n - 1);
      assert StepsTo(ss, ls, n - 1);
      StepKeepsCreated(ss[n - 1], ls[n - 1]);
    }
  }

  // ---------------------------------------------------------------- the first success

  /** The step with which a CreateSnapshot succeeds with snapshot `id`. */
  ghost predicate SucceedsWith(ss: seq<State>, ls: seq<Label>, m: nat, i: nat, id: Id)
    requires m < |ls| && |ss| == |ls| + 1
  {
    && ls[m].Drive? && ls[m].i == i && StepsTo(ss, ls, m)
    && ss[m].rpcs[i].phase.Running? && ss[m].rpcs[i].phase.body.Cs?
    && Gives(Resume(ss[m].rpcs[i], ls[m].reply), id)
  }

  /** The RPC is answering OK with the snapshot, under its request's source. */
  predicate Gives(t: Rpc, id: Id) {
    && t.phase.Unwinding? && t.phase.outcome.Ok? && t.phase.outcome.response.Snapshot?
    && t.phase.outcome.response.snapId == id
  }

  /** Where the snapshot of an answer comes from: the lookup, or the description of the one created. */
  lemma CsGives(name: string, src: Id, parametersOk: bool, at: CsAt, r: Reply, o: Outcome)
    requires !at.CsPages? && AdvanceCs(name, src, parametersOk, at, r) == Return(o) && o.Ok?
    ensures o.response.Snapshot?
    ensures
      || (at.CsLookup? && r.SnapPage? && 0 < r.total <= PAGE_SIZE && r.snaps != [] && r.snaps[0].src == src
          && o.response.snapId == r.snaps[0].id && o.response.srcId == src)
      || (at.CsRefind? && r.Snaps? && |r.snaps| == 1 && o.response.snapId == r.snaps[0].id && o.response.srcId == r.snaps[0].src)
  {
    match at
    case CsFind => {}
    case CsLookup(_) => {}
    case CsCreate(_) => {}
    case CsWait(_, _, _) => {}
    case CsRefind(_, _) => {}
  }

  /** A snapshot that is really there under the name and source. */
  ghost predicate IsSnapOf(c: Cloud, id: Id, name: string, src: Id) {
    id in c.snaps && c.snaps[id].name == name && c.snaps[id].src == src
  }

  lemma LookedUpIsThere(c: Cloud, name: string, vol: Disk, r: Reply, e: Effect)
    requires Answers(c, ListSnaps(name, vol.zone, vol.group, 1), r, e) && r.SnapPage? && r.total <= PAGE_SIZE && r.snaps != []
    ensures var s := r.snaps[0]; s.id in c.snaps && c.snaps[s.id] == s && s.name == name
  {
    var list :| IsSnapListing(c, name, vol.zone, vol.group, list) && r.total == |list| && r.snaps == Page(list, 1);
    assert r.snaps == list && list[0] in list;
  }

  lemma DescribedIsThere(c: Cloud, id: Id, r: Reply, e: Effect)
    requires CloudOk(c) && Answers(c, DescribeSnap(id), r, e) && r.Snaps? && |r.snaps| == 1
    ensures id in c.snaps && r.snaps[0] == c.snaps[id] && r.snaps[0].id == id
  {
  }

  /** What a CreateSnapshot succeeds with is a snapshot of its name and source. */
  lemma SuccessIsGenuine(ss: seq<State>, ls: seq<Label>, m: nat, i: nat, id: Id)
    requires NamedRun(ss, ls) && m < |ls| && SucceedsWith(ss, ls, m, i, id)
    ensures var req := ss[m].rpcs[i].req;
      && req.CreateSnapshot? && IsSnapOf(ss[m].cloud, id, req.name, MainKey(req))
      && Resume(ss[m].rpcs[i], ls[m].reply).phase.outcome.response.srcId == MainKey(req)
  {
    NamesHold(ss, ls, m);
    NeverPaged(ss, ls, m, i);
    CreatedHolds(ss, ls, m);
    assert CreatedAsAsked(ss[m].cloud, ss[m].rpcs[i]);
    GenuineStep(ss[m], i, ls[m].reply, ls[m].effect, id);
  }

  lemma GenuineStep(s: State, i: nat, r: Reply, e: Effect, id: Id)
    requires Inv(s) && CanDrive(s, i, r, e) && !PagesSnaps(s.rpcs[i]) && CreatedAsAsked(s.cloud, s.rpcs[i])
    requires s.rpcs[i].phase.Running? && s.rpcs[i].phase.body.Cs? && Gives(Resume(s.rpcs[i], r), id)
    ensures var req := s.rpcs[i].req;
      && req.CreateSnapshot? && IsSnapOf(s.cloud, id, req.name, MainKey(req))
      && Resume(s.rpcs[i], r).phase.outcome.response.srcId == MainKey(req)
  {
    var b := s.rpcs[i].phase.body;
    CsGives(b.name, b.id, b.parametersOk, b.csAt, r, Resume(s.rpcs[i], r).phase.outcome);
    if b.csAt.CsLookup? {
      LookedUpIsThere(s.cloud, b.name, b.csAt.vol, r, e);
    } else {
      DescribedIsThere(s.cloud, b.csAt.newId, r, e);
    }
  }

  // ---------------------------------------------------------------- the repeated request

  /** With unique names a listing in the snapshot's own zone and group is that snapshot. */
  lemma ListingIsSingle(c: Cloud, name: string, vol: Disk, list: seq<Snap>, id: Id)
    requires CloudOk(c) && UniqueNames(c) && IsSnapListing(c, name, vol.zone, vol.group, list)
    requires id in c.snaps && c.snaps[id].name == name && c.snaps[id].zone == vol.zone && c.snaps[id].group == vol.group
    ensures list == [c.snaps[id]]
  {
    ListingIsShort(c, name, vol.zone, vol.group, list);
    assert c.snaps[id] in list;
  }

  lemma SinglePage(c: Cloud, name: string, vol: Disk, id: Id, r: Reply, e: Effect)
    requires CloudOk(c) && UniqueNames(c) && Answers(c, ListSnaps(name, vol.zone, vol.group, 1), r, e) && r.SnapPage?
    requires id in c.snaps && c.snaps[id].name == name && c.snaps[id].zone == vol.zone && c.snaps[id].group == vol.group
    ensures r == SnapPage(1, [c.snaps[id]])
  {
    var list :| IsSnapListing(c, name, vol.zone, vol.group, list) && r.total == |list| && r.snaps == Page(list, 1);
    ListingIsSingle(c, name, vol, list, id);
    assert Page(list, 1) == list;
  }

  /** A lookup that is shown the one snapshot of its name and source answers with it. */
  lemma ShownOwnSnap(t: Rpc, s: Snap)
    requires WellFormedRpc(t) && t.phase.Running? && t.phase.body.Cs? && t.phase.body.csAt.CsLookup? && s.src == t.phase.body.id
    ensures Gives(Resume(t, SnapPage(1, [s])), s.id)
    ensures Resume(t, SnapPage(1, [s])).phase.outcome.response.srcId == t.phase.body.id
  {
    assert FirstSnap([s], t.phase.body.id) == SnapFound(s);
  }

  /**
   Repeating a successful CreateSnapshot gives the same snapshot id and source, as long as
   the snapshot is still there and names are kept unique, whatever else has happened in
   between.
   */
  lemma CreateSnapshotIsIdempotent(ss: seq<State>, ls: seq<Label>, m: nat, i: nat, n: nat, j: nat, id: Id)
    requires NamedRun(ss, ls) && m < n < |ls| && SucceedsWith(ss, ls, m, i, id)
    requires ls[n].Drive? && ls[n].i == j && StepsTo(ss, ls, n) && ls[n].reply.SnapPage?
    requires ss[n].rpcs[j].req == ss[m].rpcs[i].req && id in ss[n].cloud.snaps
    ensures Gives(Resume(ss[n].rpcs[j], ls[n].reply), id)
    ensures Resume(ss[n].rpcs[j], ls[n].reply).phase.outcome.response.srcId
         == Resume(ss[m].rpcs[i], ls[m].reply).phase.outcome.response.srcId
  {
    SuccessIsGenuine(ss, ls, m, i, id);
    LocksAreOwned(ss, ls, m);
    RunKeepsSnaps(ss, ls, m, n);
    NamesHold(ss, ls, n);
    NeverPaged(ss, ls, n, j);
    AsksForPage(ss[n], j, ls[n].reply, ls[n].effect);
    RepeatStep(ss[n], j, ls[n].reply, ls[n].effect, id);
  }

  /** A page of snapshots answers only a lookup. */
  lemma AsksForPage(s: State, j: nat, r: Reply, e: Effect)
    requires Inv(s) && CanDrive(s, j, r, e) && r.SnapPage? && !PagesSnaps(s.rpcs[j])
    ensures s.rpcs[j].phase.Running? && s.rpcs[j].phase.body.Cs? && s.rpcs[j].phase.body.csAt.CsLookup?
  {
    SnapPageAnswersListing(s, j, r, e);
    SnapListingPoint(s.rpcs[j]);
  }

  lemma SnapPageAnswersListing(s: State, j: nat, r: Reply, e: Effect)
    requires CanDrive(s, j, r, e) && r.SnapPage?
    ensures NextAction(s.rpcs[j]).Ask? && NextAction(s.rpcs[j]).call.ListSnaps?
  {
  }

  lemma RepeatStep(s: State, j: nat, r: Reply, e: Effect, id: Id)
    requires Inv(s) && NameInv(s) && CanDrive(s, j, r, e) && r.SnapPage?
    requires s.rpcs[j].phase.Running? && s.rpcs[j].phase.body.Cs? && s.rpcs[j].phase.body.csAt.CsLookup?
    requires IsSnapOf(s.cloud, id, s.rpcs[j].req.name, MainKey(s.rpcs[j].req))
    ensures Gives(Resume(s.rpcs[j], r), id)
    ensures Resume(s.rpcs[j], r).phase.outcome.response.srcId == MainKey(s.rpcs[j].req)
  {
    var b := s.rpcs[j].phase.body;
    var vol := b.csAt.vol;
    assert Seen(s.rpcs[j]) == Some(vol) && BornAs(s.cloud, b.id, vol);
    SinglePage(s.cloud, b.name, vol, id, r, e);
    ShownOwnSnap(s.rpcs[j], s.cloud.snaps[id]);
  }

  // ---------------------------------------------------------------- where a success was decided

  /** The RPC has answered, or is answering, OK with the snapshot. */
  predicate HasGiven(t: Rpc, id: Id) {
    && (t.phase.Unwinding? || t.phase.Finished?)
    && t.phase.outcome.Ok? && t.phase.outcome.response.Snapshot? && t.phase.outcome.response.snapId == id
  }

  lemma NothingGivenAtStart(req: Request, id: Id)
    ensures !HasGiven(Start(req), id)
  {
  }

  lemma GivesOnlyAtAPoint(t: Rpc, r: Reply, id: Id)
    requires WellFormedRpc(t) && Active(t) && HasGiven(Resume(t, r), id)
    ensures HasGiven(t, id) || (t.phase.Running? && t.phase.body.Cs? && Gives(Resume(t, r), id))
  {
    if t.phase.Running? {
      MainKeyIsHeldLongest(t.phase.body, t.req);
      if !t.phase.body.Cs? {
        OthersGiveNone(t.phase.body, r);
      }
    }
  }

  lemma OthersGiveNone(b: Body, r: Reply)
    requires !b.Cs?
    ensures match Advance(b, r)
      case Return(o) => !(o.Ok? && o.response.Snapshot?)
      case _ => true
  {
    match b
    case Cv(_, _) => {}
    case Dv(_, _) => {}
    case Pb(_, _, _) => {}
    case Up(_, _, _) => {}
    case Ex(_, _, _, _) => {}
    case Ds(_, _) => {}
  }

  /** Every success was decided at some step. */
  lemma {:induction false} SuccessWasDecided(ss: seq<State>, ls: seq<Label>, n: nat, i: nat, id: Id) returns (m: nat)
    requires IsRun(ss, ls) && n < |ss| && i in ss[n].rpcs && HasGiven(ss[n].rpcs[i], id)
    ensures m < n && SucceedsWith(ss, ls, m, i, id) && ss[m].rpcs[i].req == ss[n].rpcs[i].req
  {
    assert n > 0;
    assert StepsTo(ss, ls, n - 1);
    FaresInStep(ss[n - 1], ls[n - 1], i);
    match MoveOf(ls[n - 1], i)
    case Began => NothingGivenAtStart(ls[n - 1].req, id);
    case Stayed => m := SuccessWasDecided(ss, ls, n - 1, i, id);
    case Moved => {
      LocksAreOwned(ss, ls, n - 1);
      GivesOnlyAtAPoint(ss[n - 1].rpcs[i], ls[n - 1].reply, id);
      if HasGiven(ss[n - 1].rpcs[i], id) {
        m := SuccessWasDecided(ss, ls, n - 1, i, id);
      } else {
        m := n - 1;
      }
    }
  }
}
