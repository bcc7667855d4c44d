/** Finding a block device by the serial of its cloud disk. */
module Devices {
  import opened Wrappers
  import opened NodeProgram
  import opened NodeSystem

  /** The device listed at `i` has a readable serial, and it is the wanted one. */
  predicate MatchesAt(devices: seq<string>, serialOf: string -> Option<string>, serial: string, i: nat) {
    i < |devices| && devices[i] != "" && serialOf(devices[i]) == Some(serial)
  }

  /** It is the only one. */
  ghost predicate OnlyMatch(devices: seq<string>, serialOf: string -> Option<string>, serial: string, i: nat) {
    && MatchesAt(devices, serialOf, serial, i)
    && forall j: nat :: MatchesAt(devices, serialOf, serial, j) ==> j == i
  }

  /**
   Looks for the block device with a serial: `devices` are the names listed, and
   `serialOf` what reading a device's serial file yields.
   */
  method GetDevPathBySerial(devices: seq<string>, serialOf: string -> Option<string>, serial: string)
    returns (r: Option<Path>)
    ensures r.Some? <==> exists i: nat :: OnlyMatch(devices, serialOf, serial, i)
    ensures forall i: nat :: OnlyMatch(devices, serialOf, serial, i) ==> r == Some(DevPath(devices[i]))
  {
    var devpath := "";
    ghost var found: nat := 0;
    for i := 0 to |devices|
      invariant devpath == "" ==> forall j: nat :: j < i ==> !MatchesAt(devices, serialOf, serial, j)
      invariant devpath != "" ==> found < i && MatchesAt(devices, serialOf, serial, found) && devpath == DevPath(devices[found])
      invariant devpath != "" ==> forall j: nat :: j < i && MatchesAt(devices, serialOf, serial, j) ==> j == found
    {
      var dev := devices[i];
      if dev != "" {
        var devserial := serialOf(dev);
        if devserial.None? {
          continue;
        }
        if devserial.value == serial {
          assert MatchesAt(devices, serialOf, serial, i);
          if devpath != "" {
            return None;
          }
          devpath, found := "/dev/" + dev, i;
        }
      }
    }
    if devpath == "" {
      return None;
    }
    assert OnlyMatch(devices, serialOf, serial, found);
    return Some(devpath);
  }

  /** The listing names each device of the node once, and reads its serial as it is. */
  ghost predicate Lists(devices: seq<string>, serialOf: string -> Option<string>, n: Node) {
    && (forall i, j :: 0 <= i < j < |devices| ==> devices[i] != devices[j])
    && (forall i :: 0 <= i < |devices| && devices[i] != "" ==>
         DevPath(devices[i]) in n.devices && n.devices[DevPath(devices[i])].serial == serialOf(devices[i]))
    && (forall p :: p in n.devices ==> exists i :: 0 <= i < |devices| && devices[i] != "" && p == DevPath(devices[i]))
  }

  function DevPath(name: string): Path {
    "/dev/" + name
  }

  lemma DevPathIsInjective(a: string, b: string)
    requires DevPath(a) == DevPath(b)
    ensures a == b
  {
    assert a == DevPath(a)[5..] == DevPath(b)[5..] == b;
  }

  /** A search over a faithful listing finds a path exactly when that is the one device with the serial. */
  lemma SearchIsTruthful(devices: seq<string>, serialOf: string -> Option<string>, n: Node, serial: string, i: nat)
    requires Lists(devices, serialOf, n) && i < |devices| && devices[i] != ""
    ensures OnlyMatch(devices, serialOf, serial, i) <==> OnlyWithSerial(n, DevPath(devices[i]), serial)
  {
    var dev := DevPath(devices[i]);
    if OnlyMatch(devices, serialOf, serial, i) {
      forall p | p in n.devices && n.devices[p].serial == Some(serial) ensures p == dev {
        var j :| 0 <= j < |devices| && devices[j] != "" && p == DevPath(devices[j]);
        assert MatchesAt(devices, serialOf, serial, j);
      }
    }
    if OnlyWithSerial(n, dev, serial) {
      forall j: nat | MatchesAt(devices, serialOf, serial, j) ensures j == i {
        assert DevPath(devices[j]) == dev;
        DevPathIsInjective(devices[j], devices[i]);
      }
    }
  }
}
