/** Accessibility topology: what a node advertises, what a request picks, what a disk offers. */
module Topology {
  import opened Wrappers
  import opened CloudTypes

  type Segments = map<string, string>

  datatype TopologyRequirement = TopologyRequirement(preferred: seq<Segments>, requisite: seq<Segments>)

  /** The zone and VM type the driver works with; 0 is "no VM type given". */
  datatype Topo = Topo(zone: string, vmType: int)

  datatype Pick = Picked(topo: Topo) | NothingToPick | BadSegment

  const BASIC_VM_TYPE := 1
  const BASIC_VM_NAME := "BasicVm"

  function ZoneKey(driver: string): string {
    "topology." + driver + "/zone"
  }

  function VmTypeKey(driver: string): string {
    "topology." + driver + "/Vm-type"
  }

  lemma KeysDiffer(driver: string)
    ensures ZoneKey(driver) != VmTypeKey(driver)
  {
    assert |ZoneKey(driver)| != |VmTypeKey(driver)|;
  }

  /** A segment the driver understands. */
  predicate KnownSegment(driver: string, k: string, v: string) {
    k == ZoneKey(driver) || (k == VmTypeKey(driver) && v == BASIC_VM_NAME)
  }

  function SegmentOr(seg: Segments, k: string, default: string): string {
    if k in seg then seg[k] else default
  }

  /** The topology a set of segments stands for, without any order. */
  function TopoOf(driver: string, seg: Segments): Pick {
    if exists k :: k in seg && !KnownSegment(driver, k, seg[k]) then BadSegment
    else Picked(Topo(SegmentOr(seg, ZoneKey(driver), ""), if VmTypeKey(driver) in seg then BASIC_VM_TYPE else 0))
  }

  /** The first preferred topology, else the first requisite one. */
  function FirstChoice(req: TopologyRequirement): Option<Segments> {
    if req.preferred != [] then Some(req.preferred[0])
    else if req.requisite != [] then Some(req.requisite[0])
    else None
  }

  function PickSpec(driver: string, requirement: Option<TopologyRequirement>): Pick {
    if requirement.None? || FirstChoice(requirement.value).None? then NothingToPick
    else TopoOf(driver, FirstChoice(requirement.value).value)
  }

  /** Reads one set of segments, visiting its entries in any order. */
  method ReadSegments(driver: string, seg: Segments) returns (r: Pick)
    ensures r == TopoOf(driver, seg)
  {
    KeysDiffer(driver);
    var zone, vmType := "", 0;
    var keys := seg.Keys;
    while keys != {}
      invariant keys <= seg.Keys
      invariant forall k :: k in seg && k !in keys ==> KnownSegment(driver, k, seg[k])
      invariant zone == if ZoneKey(driver) in seg && ZoneKey(driver) !in keys then seg[ZoneKey(driver)] else ""
      invariant vmType == if VmTypeKey(driver) in seg && VmTypeKey(driver) !in keys then BASIC_VM_TYPE else 0
    {
      var k :| k in keys;
      keys := keys - {k};
      var v := seg[k];
      if k == ZoneKey(driver) {
        zone := v;
      } else if k == VmTypeKey(driver) {
        if v != BASIC_VM_NAME {
          return BadSegment;
        }
        vmType := BASIC_VM_TYPE;
      } else {
        return BadSegment;
      }
    }
    return Picked(Topo(zone, vmType));
  }

  method PickTopology(driver: string, requirement: Option<TopologyRequirement>) returns (r: Pick)
    ensures r == PickSpec(driver, requirement)
  {
    if requirement.None? {
      return NothingToPick;
    }
    for i := 0 to |requirement.value.preferred|
      invariant i == 0
    {
      r := ReadSegments(driver, requirement.value.preferred[i]);
      return;
    }
    for i := 0 to |requirement.value.requisite|
      invariant i == 0
    {
      r := ReadSegments(driver, requirement.value.requisite[i]);
      return;
    }
    return NothingToPick;
  }

  /** What a node of the given zone advertises about itself. */
  function NodeTopology(driver: string, zone: string): Segments {
    map[VmTypeKey(driver) := BASIC_VM_NAME, ZoneKey(driver) := zone]
  }

  /** The VM types a disk type may be attached to. */
  function AttachConstraint(typ: int): seq<int>
    requires IsValidVolumeType(typ)
  {
    [BASIC_VM_TYPE]
  }

  function VmTypeName(vmType: int): string {
    if vmType == BASIC_VM_TYPE then BASIC_VM_NAME else ""
  }

  function VolumeTopology(driver: string, zone: string, typ: int): seq<Segments> {
    if IsValidVolumeType(typ)
    then seq(|AttachConstraint(typ)|, i requires 0 <= i < |AttachConstraint(typ)| =>
               map[VmTypeKey(driver) := VmTypeName(AttachConstraint(typ)[i]), ZoneKey(driver) := zone])
    else []
  }

  method GetVolumeTopology(driver: string, zone: string, typ: int) returns (topo: seq<Segments>)
    ensures topo == VolumeTopology(driver, zone, typ)
  {
    topo := [];
    if !IsValidVolumeType(typ) {
      return;
    }
    var vmTypes := AttachConstraint(typ);
    for i := 0 to |vmTypes|
      invariant topo == VolumeTopology(driver, zone, typ)[..i]
    {
      topo := topo + [map[VmTypeKey(driver) := VmTypeName(vmTypes[i]), ZoneKey(driver) := zone]];
    }
  }

  /** A disk is acceptable when it offers one of the requisite topologies, if there are any. */
  predicate IsValidTopology(driver: string, zone: string, typ: int, requirement: Option<TopologyRequirement>) {
    || requirement.None?
    || requirement.value.requisite == []
    || exists seg :: seg in requirement.value.requisite && seg in VolumeTopology(driver, zone, typ)
  }

  /**
   A node's own segments are what a disk created in the node's zone offers, whatever the
   valid disk type; a request whose first choice they are picks that zone; and the disk is accepted by every request that requires them
   among others, or requires nothing.
   */
  lemma TopologyRoundTrip(driver: string, zone: string, typ: int, requirement: TopologyRequirement)
    requires IsValidVolumeType(typ)
    ensures VolumeTopology(driver, zone, typ) == [NodeTopology(driver, zone)]
    ensures FirstChoice(requirement) == Some(NodeTopology(driver, zone)) ==>
      PickSpec(driver, Some(requirement)) == Picked(Topo(zone, BASIC_VM_TYPE))
    ensures IsValidTopology(driver, zone, typ, Some(requirement)) <==>
      requirement.requisite == [] || NodeTopology(driver, zone) in requirement.requisite
  {
    KeysDiffer(driver);
    assert VolumeTopology(driver, zone, typ) == [NodeTopology(driver, zone)];
    assert NodeTopology(driver, zone) in VolumeTopology(driver, zone, typ);
  }

  /** Segments with both keys are exactly what a disk in the picked zone offers. */
  lemma PickedSegmentsAreOffered(driver: string, seg: Segments, typ: int)
    requires IsValidVolumeType(typ) && TopoOf(driver, seg).Picked?
    ensures seg in VolumeTopology(driver, TopoOf(driver, seg).topo.zone, typ)
      <==> ZoneKey(driver) in seg && VmTypeKey(driver) in seg
  {
    KeysDiffer(driver);
    var zone := TopoOf(driver, seg).topo.zone;
    assert VolumeTopology(driver, zone, typ) == [NodeTopology(driver, zone)];
    if ZoneKey(driver) in seg && VmTypeKey(driver) in seg {
      assert forall k :: k in seg ==> KnownSegment(driver, k, seg[k]);
      assert seg == NodeTopology(driver, zone);
    } else {
      assert seg != NodeTopology(driver, zone);
    }
  }

  /**
   A disk created where the request picked is accepted by the same request again when the
   picked segments carry both keys and are among the requisite ones.
   */
  lemma PickedIsAcceptedAgain(driver: string, requirement: TopologyRequirement, typ: int)
    requires IsValidVolumeType(typ)
    requires PickSpec(driver, Some(requirement)).Picked?
    requires requirement.preferred != [] ==> requirement.preferred[0] in requirement.requisite
    requires var seg := if requirement.preferred != [] then requirement.preferred[0] else requirement.requisite[0];
      ZoneKey(driver) in seg && VmTypeKey(driver) in seg
    ensures IsValidTopology(driver, PickSpec(driver, Some(requirement)).topo.zone, typ, Some(requirement))
  {
    var seg := if requirement.preferred != [] then requirement.preferred[0] else requirement.requisite[0];
    PickedSegmentsAreOffered(driver, seg, typ);
    assert seg in requirement.requisite;
  }
}
