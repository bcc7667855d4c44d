/**
 What the guarantees about attachments and sizes need of the operations in flight, exactly:
 over all runs in which only the driver attaches, detaches and resizes, each holds if and
 only if its conditions are kept.
 */
module InFlight {
  import opened Wrappers
  import opened Capacity
  import opened CloudTypes
  import opened ControllerProgram
  import opened ControllerSystem
  import opened Attachments
  import opened Expansion
  import opened Reaching
  import opened Races
  import opened ResizeRaces
  import VolumeId

  // ---------------------------------------------------------------- the guarantees for one step

  datatype Guarantee = Leaving | Arriving | Growing

  /** RPC `i` is an unpublish of the volume from the node, and holds its lock. */
  ghost predicate Unpublishes(s: State, i: nat, id: Id, node: Id) {
    && i in s.rpcs && s.rpcs[i].req.Unpublish? && MainKey(s.rpcs[i].req) == id && s.rpcs[i].req.node == node
    && id in s.rpcs[i].defers
  }

  /** RPC `i` is a publish of the volume to the node, and holds its lock. */
  ghost predicate Publishes(s: State, i: nat, id: Id, node: Id) {
    && i in s.rpcs && s.rpcs[i].req.Publish? && MainKey(s.rpcs[i].req) == id && s.rpcs[i].req.node == node
    && id in s.rpcs[i].defers
  }

  /**
   A volume leaves a node only through an unpublish from it; it gets onto a node only
   through a publish to it, from being unattached; its size changes only through an
   expansion, and upwards: in each case by an RPC that holds the volume's lock.
   */
  ghost predicate Rightly(what: Guarantee, s: State, s': State, id: Id)
    requires id in s.cloud.disks && id in s'.cloud.disks
  {
    var before, after := s.cloud.disks[id], s'.cloud.disks[id];
    match what
    case Leaving =>
      before.instance != "" && before.instance != after.instance ==>
        after.instance == "" && exists i :: Unpublishes(s, i, id, before.instance)
    case Arriving =>
      after.instance != "" && before.instance != after.instance ==>
        before.instance == "" && exists i :: Publishes(s, i, id, after.instance)
    case Growing =>
      before.size != after.size ==>
        GibToByte(before.size) < GibToByte(after.size) && exists i :: ExpandsTo(s, i, id, after.size)
  }

  /** Every step of every run that keeps the rules changes every disk rightly. */
  ghost predicate Guaranteed(what: Guarantee, rules: Rules) {
    forall ss: seq<State>, ls: seq<Label>, n: nat, id: Id ::
      RunUnder(rules, ss, ls) && n < |ls| && id in ss[n].cloud.disks && id in ss[n + 1].cloud.disks ==>
        Rightly(what, ss[n], ss[n + 1], id)
  }

  lemma RightlyInTime(what: Guarantee, ss: seq<State>, ls: seq<Label>, n: nat, id: Id)
    requires QuietRun(ss, ls) && n < |ls| && id in ss[n].cloud.disks && id in ss[n + 1].cloud.disks
    ensures Rightly(what, ss[n], ss[n + 1], id)
  {
    var before, after := ss[n].cloud.disks[id], ss[n + 1].cloud.disks[id];
    match what
    case Leaving =>
      if before.instance != "" && before.instance != after.instance {
        var i := DetachedOnlyFromUnpublishedNode(ss, ls, n, id);
        assert Unpublishes(ss[n], i, id, before.instance);
      }
    case Arriving =>
      if after.instance != "" && before.instance != after.instance {
        var i := AttachedOnlyToPublishedNode(ss, ls, n, id);
        assert Publishes(ss[n], i, id, after.instance);
      }
    case Growing => SizesOnlyGrow(ss, ls, n, id);
  }

  /** A run that leads to a state goes on with a landing. */
  lemma GoesOnWithLanding(g: Scene, ss: seq<State>, ls: seq<Label>, s: State, ticket: nat)
    requires LeadsTo(g, ss, ls, s) && !g.rules.inTime && ticket in s.cloud.ops
    ensures RunUnder(g.rules, ss + [Apply(s, Env(Land(ticket)))], ls + [Env(Land(ticket))])
  {
    var l := Env(Land(ticket));
    var ss', ls' := ss + [Apply(s, l)], ls + [l];
    forall k | 0 <= k < |ls'| ensures StepsTo(ss', ls', k) && OnlyDriverAttaches(ls'[k]) && Obeys(g.rules, ss'[k], ls'[k]) {
      if k < |ls| {
        assert StepsTo(ss, ls, k);
      }
    }
  }

  /** A reachable state from which a landing changes a disk wrongly refutes the guarantee. */
  lemma WrongLanding(what: Guarantee, g: Scene, s: State, ticket: nat, id: Id)
    requires Reachable(g, s) && !g.rules.inTime && ticket in s.cloud.ops && id in s.cloud.disks
    requires id in Apply(s, Env(Land(ticket))).cloud.disks && !Rightly(what, s, Apply(s, Env(Land(ticket))), id)
    ensures !Guaranteed(what, g.rules)
  {
    var ss, ls :| LeadsTo(g, ss, ls, s);
    GoesOnWithLanding(g, ss, ls, s, ticket);
    WrongStep(what, g.rules, ss + [Apply(s, Env(Land(ticket)))], ls + [Env(Land(ticket))], |ls|, id);
  }

  lemma WrongStep(what: Guarantee, rules: Rules, ss: seq<State>, ls: seq<Label>, n: nat, id: Id)
    requires RunUnder(rules, ss, ls) && n < |ls| && id in ss[n].cloud.disks && id in ss[n + 1].cloud.disks
    requires !Rightly(what, ss[n], ss[n + 1], id)
    ensures !Guaranteed(what, rules)
  {
  }

  // ---------------------------------------------------------------- some volume

  const VOL_ID := "vvvvvvvvvvvvvvvvvvv"
  const SERIAL := "ssssssssssssssssssss"
  const CSI_ID := VolumeId.GenCsiVolId(VOL_ID, SERIAL)

  function SomeDisk(instance: Id, status: DiskStatus): Disk {
    Disk(VOL_ID, "n", 20, BASIC_VOLUME_TYPE, status, "z", SERIAL, instance, true, "g", None)
  }

  lemma SomeVolume()
    ensures VolumeId.ParseCsiVolId(CSI_ID).Some? && VolIdOr(CSI_ID, "") == VOL_ID && |CSI_ID| > 0
    ensures Expandable(CSI_ID, SomeDisk("", Available))
  {
    assert |VOL_ID| == VolumeId.ZECVOLID_LEN && |SERIAL| == VolumeId.ZECVOLSERIAL_LEN;
    VolumeId.ParseAfterGen(VOL_ID, SERIAL);
  }

  // ---------------------------------------------------------------- landing in time

  lemma LateDetachLeavesWrongly(rules: Rules)
    requires rules == ANYTHING_GOES
    ensures !Guaranteed(Leaving, rules)
  {
    SomeVolume();
    var d := SomeDisk("a", InUse);
    var s, ticket := StaleDetachHitsAnotherNode(CSI_ID, "a", "b", d);
    assert forall i :: !Unpublishes(s, i, d.id, "b");
    WrongLanding(Leaving, Scene(WithDisk(d), false, 0, ANYTHING_GOES), s, ticket, d.id);
  }

  lemma LateAttachArrivesWrongly(rules: Rules)
    requires rules == ANYTHING_GOES
    ensures !Guaranteed(Arriving, rules)
  {
    SomeVolume();
    var d := SomeDisk("", Available);
    var s, ticket := StaleAttachAfterUnpublish(CSI_ID, "a", d);
    NothingHeld(Scene(WithDisk(d), false, 0, ANYTHING_GOES), s);
    assert forall i :: !Publishes(s, i, d.id, "a");
    WrongLanding(Arriving, Scene(WithDisk(d), false, 0, ANYTHING_GOES), s, ticket, d.id);
  }

  /** RPCs that have finished hold nothing. */
  lemma NothingHeld(g: Scene, s: State)
    requires Reachable(g, s)
    ensures forall i :: i in s.rpcs && s.rpcs[i].phase.Finished? ==> s.rpcs[i].defers == []
  {
    var ss, ls :| LeadsTo(g, ss, ls, s);
    LocksAreOwned(ss, ls, |ls|);
  }

  lemma LateResizeShrinks(rules: Rules)
    requires rules == Rules(false, true, true, true)
    ensures !Guaranteed(Growing, rules)
  {
    SomeVolume();
    var d := SomeDisk("", Available);
    var s, ticket := StaleResizeShrinks(CSI_ID, d);
    WrongLanding(Growing, Scene(WithDisk(d), false, 0, Rules(false, true, true, true)), s, ticket, d.id);
  }

  /** Fewer rules allow more runs. */
  lemma FewerRulesAllowMore(what: Guarantee, more: Rules, fewer: Rules)
    requires fewer.inTime ==> more.inTime
    requires fewer.shown ==> more.shown
    requires fewer.kept ==> more.kept
    requires fewer.detachShown ==> more.detachShown
    requires Guaranteed(what, fewer)
    ensures Guaranteed(what, more)
  {
    forall ss: seq<State>, ls: seq<Label>, n: nat, id: Id
      | RunUnder(more, ss, ls) && n < |ls| && id in ss[n].cloud.disks && id in ss[n + 1].cloud.disks
      ensures Rightly(what, ss[n], ss[n + 1], id)
    {
      assert RunUnder(fewer, ss, ls);
    }
  }

  /**
   The exact condition on attachments and sizes: each of the three guarantees holds over
   all driver-only runs whose operations land in time, or whose operations may land at any
   time, if and only if they must land in time.
   */
  lemma LandingInTimeIsExact(what: Guarantee, inTime: bool)
    ensures Guaranteed(what, Rules(inTime, false, false, false)) <==> inTime
  {
    if inTime {
      forall ss: seq<State>, ls: seq<Label>, n: nat, id: Id
        | RunUnder(Rules(true, false, false, false), ss, ls) && n < |ls| && id in ss[n].cloud.disks && id in ss[n + 1].cloud.disks
        ensures Rightly(what, ss[n], ss[n + 1], id)
      {
        assert QuietRun(ss, ls);
        RightlyInTime(what, ss, ls, n, id);
      }
    } else {
      match what
      case Leaving => LateDetachLeavesWrongly(ANYTHING_GOES);
      case Arriving => LateAttachArrivesWrongly(ANYTHING_GOES);
      case Growing => {
        LateResizeShrinks(Rules(false, true, true, true));
        if Guaranteed(Growing, ANYTHING_GOES) {
          FewerRulesAllowMore(Growing, Rules(false, true, true, true), ANYTHING_GOES);
        }
      }
    }
  }

  // ---------------------------------------------------------------- what a publish reports

  /** In every run that keeps the rules a publish that is answering OK has its volume on its node. */
  ghost predicate OkIsAttached(rules: Rules) {
    forall ss: seq<State>, ls: seq<Label>, i: nat ::
      RunUnder(rules, ss, ls) && i in ss[|ls|].rpcs && PublishSucceeding(ss[|ls|].rpcs[i]) ==>
        OnNode(ss[|ls|].cloud, MainKey(ss[|ls|].rpcs[i].req), ss[|ls|].rpcs[i].req.node)
  }

  lemma LateDetachBeliesPublish()
    ensures !OkIsAttached(ANYTHING_GOES)
  {
    SomeVolume();
    var d := SomeDisk("a", InUse);
    var s := StaleDetachDuringPublish(CSI_ID, "a", "b", d);
    var ss, ls :| LeadsTo(Scene(WithDisk(d), false, 0, ANYTHING_GOES), ss, ls, s);
    assert RunUnder(ANYTHING_GOES, ss, ls);
    assert ss[|ls|] == s;
    assert PublishSucceeding(s.rpcs[2]);
  }

  /** The same condition is exact for what an OK of a publish means. */
  lemma PublishOkIsAttachedExactly(inTime: bool)
    ensures OkIsAttached(Rules(inTime, false, false, false)) <==> inTime
  {
    if inTime {
      forall ss: seq<State>, ls: seq<Label>, i: nat
        | RunUnder(Rules(true, false, false, false), ss, ls) && i in ss[|ls|].rpcs && PublishSucceeding(ss[|ls|].rpcs[i])
        ensures OnNode(ss[|ls|].cloud, MainKey(ss[|ls|].rpcs[i].req), ss[|ls|].rpcs[i].req.node)
      {
        QuietInvHolds(ss, ls, |ls|);
      }
    } else {
      LateDetachBeliesPublish();
    }
  }

  // ---------------------------------------------------------------- what an expansion reports

  /** In every run that keeps the rules an expansion that is answering OK has the size it reports. */
  ghost predicate OkHasSize(rules: Rules) {
    forall ss: seq<State>, ls: seq<Label>, i: nat :: RunUnder(rules, ss, ls) && i in ss[|ls|].rpcs && Reporting(ss[|ls|].rpcs[i]) ==>
      HasBytes(ss[|ls|].cloud, MainKey(ss[|ls|].rpcs[i].req), ss[|ls|].rpcs[i].phase.outcome.response.capacityBytes)
  }

  lemma ReportRefutes(g: Scene, s: State, i: nat, id: Id)
    requires Reachable(g, s) && ReportsTooMuch(s, i, id)
    ensures !OkHasSize(g.rules)
  {
    var ss, ls :| LeadsTo(g, ss, ls, s);
    assert RunUnder(g.rules, ss, ls);
    assert ss[|ls|] == s;
  }

  lemma FewerRulesReportMore(more: Rules, fewer: Rules)
    requires fewer.inTime ==> more.inTime
    requires fewer.shown ==> more.shown
    requires fewer.kept ==> more.kept
    requires fewer.detachShown ==> more.detachShown
    requires OkHasSize(fewer)
    ensures OkHasSize(more)
  {
    forall ss: seq<State>, ls: seq<Label>, i: nat | RunUnder(more, ss, ls) && i in ss[|ls|].rpcs && Reporting(ss[|ls|].rpcs[i])
      ensures HasBytes(ss[|ls|].cloud, MainKey(ss[|ls|].rpcs[i].req), ss[|ls|].rpcs[i].phase.outcome.response.capacityBytes)
    {
      assert RunUnder(fewer, ss, ls);
    }
  }

  lemma LateResizeReportsTooMuch()
    ensures !OkHasSize(Rules(false, true, true, true))
  {
    SomeVolume();
    var d := SomeDisk("", Available);
    var g := Scene(WithDisk(d), false, 0, Rules(false, true, true, true));
    var s, ticket := StaleResizeShrinks(CSI_ID, d);
    ReachLanded(g, s, ticket);
    ReportRefutes(g, s.(cloud := AfterEvent(s.cloud, Land(ticket))), 1, d.id);
  }

  lemma HiddenResizeReportsTooMuch()
    ensures !OkHasSize(Rules(true, false, true, true))
  {
    SomeVolume();
    var d := SomeDisk("", Available);
    var s := ImmediatePollReportsTooMuch(CSI_ID, d);
    ReportRefutes(Scene(WithDisk(d), false, 0, Rules(true, false, true, true)), s, 0, d.id);
  }

  lemma LostResizeReportsTooMuch()
    ensures !OkHasSize(Rules(true, true, false, true))
  {
    SomeVolume();
    var d := SomeDisk("", Available);
    var s := DroppedResizeReportsTooMuch(CSI_ID, d);
    ReportRefutes(Scene(WithDisk(d), false, 0, Rules(true, true, false, true)), s, 0, d.id);
  }

  /**
   The exact conditions on expansions: an expansion that is answering OK has the size it
   reports, over all driver-only runs that keep the given rules, if and only if these ask
   for all three: operations land in time, polls show the resize, and none that is waited
   for is dropped.
   */
  lemma ExpandOkHasSizeExactly(rules: Rules)
    ensures OkHasSize(rules) <==> rules.inTime && rules.shown && rules.kept
  {
    if rules.inTime && rules.shown && rules.kept {
      forall ss: seq<State>, ls: seq<Label>, i: nat | RunUnder(rules, ss, ls) && i in ss[|ls|].rpcs && Reporting(ss[|ls|].rpcs[i])
        ensures HasBytes(ss[|ls|].cloud, MainKey(ss[|ls|].rpcs[i].req), ss[|ls|].rpcs[i].phase.outcome.response.capacityBytes)
      {
        assert RunUnder(RESIZE_RULES, ss, ls);
        ExpandOkHasSize(ss, ls, |ls|, i);
      }
    } else if OkHasSize(rules) {
      if !rules.inTime {
        LateResizeReportsTooMuch();
        FewerRulesReportMore(Rules(false, true, true, true), rules);
      } else if !rules.shown {
        HiddenResizeReportsTooMuch();
        FewerRulesReportMore(Rules(true, false, true, true), rules);
      } else {
        LostResizeReportsTooMuch();
        FewerRulesReportMore(Rules(true, true, false, true), rules);
      }
    }
  }
}
