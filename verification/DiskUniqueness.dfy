/** At most one usable disk per name, zone, group and type, over every run. */
module DiskUniqueness {
  import opened Wrappers
  import opened CloudTypes
  import opened Paging
  import opened ControllerProgram
  import opened ControllerSystem

  predicate SameKey(a: Disk, b: Disk) {
    a.name == b.name && a.zone == b.zone && a.group == b.group && a.typ == b.typ
  }

  predicate Matches(d: Disk, job: CreateJob) {
    d.name == job.name && d.zone == job.zone && d.group == job.group && d.typ == job.typ
  }

  /** Of two disks with the same key, one is in the bin. */
  ghost predicate UniqueDisks(c: Cloud, bin: set<DiskStatus>) {
    forall a, b :: a in c.disks && b in c.disks && a != b && SameKey(c.disks[a], c.disks[b]) ==>
      c.disks[a].status in bin || c.disks[b].status in bin
  }

  /** The RPC has searched for its disk, found none, and has not created one yet. */
  function SearchedInVain(t: Rpc): Option<CreateJob> {
    match t.phase
    case Running(Cv(job, at)) => if at.CvFindSnap? || at.CvCreate? then Some(job) else None
    case Locking(_, Goto(Cv(job, at))) => if at.CvFindSnap? then Some(job) else None
    case _ => None
  }

  ghost predicate NoneUsable(c: Cloud, bin: set<DiskStatus>, job: CreateJob) {
    forall id :: id in c.disks && Matches(c.disks[id], job) ==> c.disks[id].status in bin
  }

  /** What the searches found is still so. */
  ghost predicate SearchesStand(s: State, bin: set<DiskStatus>) {
    forall i :: i in s.rpcs && SearchedInVain(s.rpcs[i]).Some? ==>
      NoneUsable(s.cloud, bin, SearchedInVain(s.rpcs[i]).value)
  }

  /** The entries a lookup still under way has collected. */
  function GatheredBy(t: Rpc): seq<Disk> {
    if t.phase.Running? && t.phase.body.Cv? && t.phase.body.cvAt.CvPages? then t.phase.body.cvAt.all else []
  }

  /** An entry collected some time ago: its disk, if still there, has its key, and is in the bin if it was recycled. */
  ghost predicate Faithful(c: Cloud, d: Disk, bin: set<DiskStatus>) {
    && d.id in c.births
    && (d.id in c.disks ==> SameKey(c.disks[d.id], d) && (d.status == Recycled ==> c.disks[d.id].status in bin))
  }

  ghost predicate AllFaithful(c: Cloud, list: seq<Disk>, bin: set<DiskStatus>) {
    forall d :: d in list ==> Faithful(c, d, bin)
  }

  ghost predicate GatheringsStand(s: State, bin: set<DiskStatus>) {
    forall i :: i in s.rpcs ==> AllFaithful(s.cloud, GatheredBy(s.rpcs[i]), bin)
  }

  ghost predicate UniqueInv(s: State, bin: set<DiskStatus>) {
    UniqueDisks(s.cloud, bin) && SearchesStand(s, bin) && GatheringsStand(s, bin)
  }

  /** Nobody else creates disks, and none comes back out of the bin. */
  ghost predicate OnlyDriverCreates(s: State, l: Label, bin: set<DiskStatus>) {
    && (l.Env? ==> !l.ev.OutsideDisk?)
    && (l.Env? && l.ev.Update? && l.ev.id in s.cloud.disks && s.cloud.disks[l.ev.id].status in bin ==>
          l.ev.status in bin)
  }

  // ---------------------------------------------------------------- lookups page by page

  /** The answer `r` is the last one the lookup needs. */
  predicate LastAnswer(at: CvAt, r: Reply) {
    r.DiskPage? && ((at.CvLookup? && r.total <= PAGE_SIZE) || (at.CvPages? && at.ra + 1 >= at.calls))
  }

  /** The entries the lookup has with this answer. */
  function Gathered(at: CvAt, r: Reply): seq<Disk>
    requires r.DiskPage?
  {
    if at.CvPages? then at.all + r.disks else if r.total == 0 then [] else r.disks
  }

  /** The page continues a listing that begins with what was collected before and has the pages counted. */
  ghost predicate ContinuesListing(c: Cloud, job: CreateJob, at: CvAt, page: seq<Disk>, list: seq<Disk>)
    requires at.CvPages?
  {
    && IsDiskListing(c, job.name, job.zone, job.group, list)
    && page == Page(list, at.ra + 1) && PageCount(|list|) == at.calls
    && |at.all| == Min(at.ra * PAGE_SIZE, |list|)
    && forall p :: 0 <= p < |at.all| ==> at.all[p].id == list[p].id
  }

  /**
   While a lookup reads page after page, the listing keeps the entries it has collected in
   their places and keeps its number of pages. Lookups that one page answers are not
   concerned.
   */
  ghost predicate ListingKeepsPlace(s: State, l: Label) {
    l.Drive? && l.reply.DiskPage? && l.i in s.rpcs && s.rpcs[l.i].phase.Running?
    && s.rpcs[l.i].phase.body.Cv? && s.rpcs[l.i].phase.body.cvAt.CvPages? ==>
      exists list :: ContinuesListing(s.cloud, s.rpcs[l.i].phase.body.job, s.rpcs[l.i].phase.body.cvAt, l.reply.disks, list)
  }

  /** Every disk of the name, zone and group has its entry. */
  ghost predicate Covers(c: Cloud, job: CreateJob, list: seq<Disk>) {
    forall id :: id in c.disks && c.disks[id].name == job.name && c.disks[id].zone == job.zone && c.disks[id].group == job.group ==>
      exists p :: 0 <= p < |list| && list[p].id == id
  }

  lemma ListingCovers(c: Cloud, job: CreateJob, whole: seq<Disk>, list: seq<Disk>)
    requires CloudOk(c) && IsDiskListing(c, job.name, job.zone, job.group, whole)
    requires |list| == |whole| && forall p :: 0 <= p < |whole| ==> list[p].id == whole[p].id
    ensures Covers(c, job, list)
  {
    forall id | id in c.disks && c.disks[id].name == job.name && c.disks[id].zone == job.zone && c.disks[id].group == job.group
      ensures exists p :: 0 <= p < |list| && list[p].id == id
    {
      assert c.disks[id] in whole;
      var p :| 0 <= p < |whole| && whole[p] == c.disks[id];
      assert list[p].id == id;
    }
  }

  /** The last page completes the listing. */
  lemma LastPageCompletes(at: CvAt, page: seq<Disk>, list: seq<Disk>)
    requires at.CvPages? && at.ra + 1 >= at.calls == PageCount(|list|) && at.ra < at.calls
    requires page == Page(list, at.ra + 1) && |at.all| == Min(at.ra * PAGE_SIZE, |list|)
    requires forall p :: 0 <= p < |at.all| ==> at.all[p].id == list[p].id
    ensures |at.all + page| == |list|
    ensures forall p :: 0 <= p < |list| ==> (at.all + page)[p].id == list[p].id
  {
    assert (at.ra + 1) * PAGE_SIZE >= |list|;
  }

  /** With its last answer a lookup has an entry for every disk of its name. */
  lemma LookupCovers(s: State, i: nat, r: Reply, e: Effect)
    requires CloudOk(s.cloud) && CanDrive(s, i, r, e) && WellFormedRpc(s.rpcs[i])
    requires s.rpcs[i].phase.Running? && s.rpcs[i].phase.body.Cv? && LastAnswer(s.rpcs[i].phase.body.cvAt, r)
    requires ListingKeepsPlace(s, Drive(i, r, e))
    ensures Covers(s.cloud, s.rpcs[i].phase.body.job, Gathered(s.rpcs[i].phase.body.cvAt, r))
  {
    var job, at := s.rpcs[i].phase.body.job, s.rpcs[i].phase.body.cvAt;
    if at.CvPages? {
      var list :| ContinuesListing(s.cloud, job, at, r.disks, list);
      LastPageCompletes(at, r.disks, list);
      ListingCovers(s.cloud, job, list, at.all + r.disks);
    } else {
      assert IsDiskPage(s.cloud, job.name, job.zone, job.group, 1, r);
      var list :| IsDiskListing(s.cloud, job.name, job.zone, job.group, list) && r.total == |list| && r.disks == Page(list, 1);
      assert r.disks == list;
      ListingCovers(s.cloud, job, list, Gathered(at, r));
    }
  }

  /** What one answer adds is as the disks are. */
  lemma PageIsFaithful(s: State, i: nat, r: Reply, e: Effect, bin: set<DiskStatus>)
    requires CloudOk(s.cloud) && CanDrive(s, i, r, e) && r.DiskPage? && Recycled in bin
    ensures AllFaithful(s.cloud, r.disks, bin)
    ensures NextAction(s.rpcs[i]).Ask? && NextAction(s.rpcs[i]).call.ListDisks?
    ensures var call := NextAction(s.rpcs[i]).call; forall d :: d in r.disks ==>
      d.id in s.cloud.disks && s.cloud.disks[d.id] == d && d.name == call.name && d.zone == call.zone && d.group == call.group
  {
    var call := NextAction(s.rpcs[i]).call;
    assert IsDiskPage(s.cloud, call.name, call.zone, call.group, call.pageNum, r);
    var list :| IsDiskListing(s.cloud, call.name, call.zone, call.group, list) && r.total == |list| && r.disks == Page(list, call.pageNum);
    forall d | d in r.disks
      ensures d.id in s.cloud.disks && s.cloud.disks[d.id] == d && d.name == call.name && d.zone == call.zone && d.group == call.group
    {
      assert d in list;
    }
  }

  lemma SearcherHoldsName(t: Rpc)
    requires WellFormedRpc(t) && SearchedInVain(t).Some?
    ensures SearchedInVain(t).value.name in t.defers
  {
    if t.phase.Locking? {
      var b := t.phase.granted.body;
      assert KeysAt(b) == [t.phase.key] + t.defers;
      assert t.defers == KeysAt(b)[1..];
    }
  }

  /** Entries for all disks, and no candidate among them, show that no usable disk has the key. */
  lemma VainSearchShowsNone(c: Cloud, job: CreateJob, list: seq<Disk>, bin: set<DiskStatus>)
    requires Recycled in bin && Covers(c, job, list) && AllFaithful(c, list, bin)
    requires LookupIn(job, list) == NotThere
    ensures NoneUsable(c, bin, job)
  {
    FirstMatchMeaning(list, job.zone, SizeGib(job), job.typ);
    forall id | id in c.disks && Matches(c.disks[id], job) ensures c.disks[id].status in bin {
      var p :| 0 <= p < |list| && list[p].id == id;
      assert list[p] in list && Faithful(c, list[p], bin);
      assert !Candidate(list[p], job.zone, job.typ);
    }
  }

  /** The one answer after which an RPC counts as having searched in vain. */
  lemma BecomesSearcher(t: Rpc, r: Reply)
    requires WellFormedRpc(t) && Active(t)
    requires SearchedInVain(Resume(t, r)).Some? && SearchedInVain(t) != SearchedInVain(Resume(t, r))
    ensures t.phase.Running? && t.phase.body.Cv? && LastAnswer(t.phase.body.cvAt, r)
    ensures SearchedInVain(Resume(t, r)) == Some(t.phase.body.job)
    ensures LookupIn(t.phase.body.job, Gathered(t.phase.body.cvAt, r)) == NotThere
  {
    if t.phase.Running? {
      AdvanceIsGood(t.phase.body, t.req, r);
      if t.phase.body.Cv? {
        CvBecomesSearcher(t.phase.body.job, t.phase.body.cvAt, r);
      }
    }
  }

  /** The body a verdict goes on with, if any. */
  function NextBody(v: Verdict): Option<Body> {
    if v.Return? then None else Some(v.body)
  }

  lemma CvBecomesSearcher(job: CreateJob, at: CvAt, r: Reply)
    requires at.CvLookup? || at.CvPages?
    requires var b := NextBody(AdvanceCv(job, at, r)); b.Some? && (b.value.cvAt.CvFindSnap? || b.value.cvAt.CvCreate?)
    ensures LastAnswer(at, r) && LookupIn(job, Gathered(at, r)) == NotThere
  {
  }

  /** What an RPC has collected after its step it had before, or just got. */
  lemma GathersOnePage(t: Rpc, r: Reply)
    requires WellFormedRpc(t) && Active(t)
    ensures GatheredBy(Resume(t, r)) == [] || (r.DiskPage? && GatheredBy(Resume(t, r)) == GatheredBy(t) + r.disks)
  {
    if t.phase.Running? {
      AdvanceIsGood(t.phase.body, t.req, r);
    }
  }

  lemma DriverKeepsGatherings(s: State, i: nat, r: Reply, e: Effect, bin: set<DiskStatus>)
    requires Inv(s) && GatheringsStand(s, bin) && Recycled in bin && CanDrive(s, i, r, e)
    ensures GatheringsStand(Apply(s, Drive(i, r, e)), bin)
  {
    var s' := Apply(s, Drive(i, r, e));
    DriveTouchesLittle(s, i, r, e);
    assert forall d :: Faithful(s.cloud, d, bin) ==> Faithful(s'.cloud, d, bin);
    GathersOnePage(s.rpcs[i], r);
    if r.DiskPage? {
      PageIsFaithful(s, i, r, e, bin);
    }
    forall j | j in s'.rpcs ensures AllFaithful(s'.cloud, GatheredBy(s'.rpcs[j]), bin) {
      assert j in s.rpcs && AllFaithful(s.cloud, GatheredBy(s.rpcs[j]), bin);
    }
  }

  lemma DriverKeepsSearches(s: State, i: nat, r: Reply, e: Effect, bin: set<DiskStatus>)
    requires Inv(s) && UniqueInv(s, bin) && Recycled in bin && CanDrive(s, i, r, e) && !e.NewDisk?
    requires ListingKeepsPlace(s, Drive(i, r, e))
    ensures SearchesStand(Apply(s, Drive(i, r, e)), bin)
  {
    var s' := Apply(s, Drive(i, r, e));
    assert s'.cloud.disks == s.cloud.disks;
    var t, t' := s.rpcs[i], s'.rpcs[i];
    if SearchedInVain(t').Some? && SearchedInVain(t) != SearchedInVain(t') {
      BecomesSearcher(t, r);
      var job := t.phase.body.job;
      LookupCovers(s, i, r, e);
      PageIsFaithful(s, i, r, e, bin);
      assert AllFaithful(s.cloud, GatheredBy(t), bin);
      VainSearchShowsNone(s.cloud, job, Gathered(t.phase.body.cvAt, r), bin);
      assert NoneUsable(s'.cloud, bin, job);
    }
    forall j | j in s'.rpcs && SearchedInVain(s'.rpcs[j]).Some?
      ensures NoneUsable(s'.cloud, bin, SearchedInVain(s'.rpcs[j]).value)
    {
      if j != i || SearchedInVain(t) == SearchedInVain(t') {
        assert NoneUsable(s.cloud, bin, SearchedInVain(s.rpcs[j]).value);
      }
    }
  }

  /** A creating RPC is at its create call, and stops counting as a searcher whatever the answer. */
  lemma CreatorMovesOn(s: State, i: nat, r: Reply, e: Effect)
    requires Inv(s) && CanDrive(s, i, r, e) && e.NewDisk?
    ensures var t := s.rpcs[i];
      && t.phase.Running? && t.phase.body.Cv? && SearchedInVain(t) == Some(t.phase.body.job)
      && Matches(e.disk, t.phase.body.job) && FreshDisk(s.cloud, e.disk)
      && SearchedInVain(Resume(t, r)).None?
      && NextAction(t).Ask?
  {
  }

  lemma CreateKeepsUnique(s: State, i: nat, r: Reply, e: Effect, bin: set<DiskStatus>)
    requires Inv(s) && UniqueInv(s, bin) && CanDrive(s, i, r, e) && e.NewDisk?
    ensures UniqueDisks(Apply(s, Drive(i, r, e)).cloud, bin) && SearchesStand(Apply(s, Drive(i, r, e)), bin)
  {
    CreatorMovesOn(s, i, r, e);
    var s' := Apply(s, Drive(i, r, e));
    var job := s.rpcs[i].phase.body.job;
    var d := e.disk;
    assert s'.cloud.disks == s.cloud.disks[d.id := d];
    assert NoneUsable(s.cloud, bin, job);
    forall j | j in s'.rpcs && SearchedInVain(s'.rpcs[j]).Some?
      ensures NoneUsable(s'.cloud, bin, SearchedInVain(s'.rpcs[j]).value)
    {
      var job' := SearchedInVain(s.rpcs[j]).value;
      SearcherHoldsName(s.rpcs[i]);
      SearcherHoldsName(s.rpcs[j]);
      if Matches(d, job') {
        Exclusive(s, i, j, job.name);
        assert false;
      }
      assert NoneUsable(s.cloud, bin, job');
    }
  }

  lemma EventKeepsUnique(s: State, ev: Event, bin: set<DiskStatus>)
    requires UniqueInv(s, bin) && CloudOk(s.cloud) && Possible(s.cloud, ev) && OnlyDriverCreates(s, Env(ev), bin)
    ensures UniqueInv(Apply(s, Env(ev)), bin)
  {
    var c, c' := s.cloud, Apply(s, Env(ev)).cloud;
    forall id | id in c'.disks
      ensures id in c.disks && SameKey(c'.disks[id], c.disks[id]) && (c.disks[id].status in bin ==> c'.disks[id].status in bin)
    {
    }
    assert forall d :: Faithful(c, d, bin) ==> Faithful(c', d, bin);
    forall i | i in s.rpcs ensures AllFaithful(c', GatheredBy(s.rpcs[i]), bin) {
      assert AllFaithful(c, GatheredBy(s.rpcs[i]), bin);
    }
    forall i | i in s.rpcs && SearchedInVain(s.rpcs[i]).Some?
      ensures NoneUsable(c', bin, SearchedInVain(s.rpcs[i]).value)
    {
      assert NoneUsable(c, bin, SearchedInVain(s.rpcs[i]).value);
    }
  }

  lemma SpawnKeepsUnique(s: State, i: nat, req: Request, bin: set<DiskStatus>)
    requires UniqueInv(s, bin) && i !in s.rpcs
    ensures UniqueInv(Apply(s, Spawn(i, req)), bin)
  {
    assert SearchedInVain(Start(req)).None?;
    var s' := Apply(s, Spawn(i, req));
    forall j | j in s'.rpcs && SearchedInVain(s'.rpcs[j]).Some?
      ensures NoneUsable(s'.cloud, bin, SearchedInVain(s'.rpcs[j]).value)
    {
      assert NoneUsable(s.cloud, bin, SearchedInVain(s.rpcs[j]).value);
    }
    forall j | j in s'.rpcs ensures AllFaithful(s'.cloud, GatheredBy(s'.rpcs[j]), bin) {
      assert j != i ==> AllFaithful(s.cloud, GatheredBy(s.rpcs[j]), bin);
    }
  }

  lemma StepKeepsUnique(s: State, l: Label, bin: set<DiskStatus>)
    requires Inv(s) && UniqueInv(s, bin) && Enabled(s, l) && Recycled in bin
    requires OnlyDriverCreates(s, l, bin) && ListingKeepsPlace(s, l)
    ensures UniqueInv(Apply(s, l), bin)
  {
    match l
    case Spawn(i, req) => SpawnKeepsUnique(s, i, req, bin);
    case Drive(i, r, e) => {
      DriverKeepsGatherings(s, i, r, e, bin);
      if e.NewDisk? {
        CreateKeepsUnique(s, i, r, e, bin);
      } else {
        DriverKeepsSearches(s, i, r, e, bin);
        assert Apply(s, l).cloud.disks == s.cloud.disks;
      }
    }
    case Env(ev) => EventKeepsUnique(s, ev, bin);
  }

  /** Only the driver creates, nothing leaves the bin, and listings keep their places while they are read. */
  ghost predicate CreatorsRun(ss: seq<State>, ls: seq<Label>, bin: set<DiskStatus>) {
    && IsRun(ss, ls) && Recycled in bin && UniqueDisks(ss[0].cloud, bin)
    && forall k :: 0 <= k < |ls| ==> OnlyDriverCreates(ss[k], ls[k], bin) && ListingKeepsPlace(ss[k], ls[k])
  }

  /**
   Over any run of interleaved, failing, timing-out and retried RPCs, at most one disk
   outside the bin exists per name, zone, group and type. The bin is any set of statuses
   that contains RECYCLED and that disks do not leave again.
   */
  lemma {:induction false} AtMostOneDisk(ss: seq<State>, ls: seq<Label>, n: nat, bin: set<DiskStatus>)
    requires CreatorsRun(ss, ls, bin) && n < |ss|
    ensures UniqueInv(ss[n], bin)
  {
    if n > 0 {
      AtMostOneDisk(ss, ls, n - 1, bin);
      LocksAreOwned(ss, ls, n - 1);
      assert StepsTo(ss, ls, n - 1);
      StepKeepsUnique(ss[n - 1], ls[n - 1], bin);
    }
  }
}
