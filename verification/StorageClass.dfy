/** Storage-class parameters: parsing them from a map, and rewriting their zone. */
module StorageClass {
  import opened Wrappers
  import opened Capacity
  import opened CloudTypes

  type Params = map<string, string>

  datatype ZecStorageClass = ZecStorageClass(
    diskType: int, limits: SizeLimits, fsType: string, zoneId: string, placeGroupId: string, burstEnable: bool)

  datatype ParamError = BadNumber | MissingZoneOrGroup | UnsupportedType | UnsupportedFs

  /** The zone and resource group the driver falls back to. */
  datatype Defaults = Defaults(zone: string, group: string)

  /** The parameters the driver reads; their keys match whatever their case. */
  datatype Field = TypeField | FsTypeField | ZoneField | GroupField | BurstField

  function LowerChar(c: char): char {
    if 'A' <= c <= 'Z' then c - 'A' + 'a' else c
  }

  /** Lower-casing, for ASCII keys. */
  function ToLower(s: string): (r: string)
    ensures |r| == |s|
  {
    if s == "" then "" else [LowerChar(s[0])] + ToLower(s[1..])
  }

  function Classify(key: string): Option<Field> {
    var name := ToLower(key);
    if name == "type" then Some(TypeField)
    else if name == "zoneid" then Some(ZoneField)
    else if name == "placegroupid" then Some(GroupField)
    else if name == "burstenable" then Some(BurstField)
    else if name == "fstype" then Some(FsTypeField)
    else None
  }

  predicate IsValidFileSystemType(fs: string) {
    fs == "ext3" || fs == "ext4" || fs == "xfs"
  }

  predicate AllDigits(s: string) {
    forall i :: 0 <= i < |s| ==> '0' <= s[i] <= '9'
  }

  function DigitsValue(s: string): nat
    requires AllDigits(s)
  {
    if s == "" then 0 else DigitsValue(s[..|s| - 1]) * 10 + (s[|s| - 1] - '0') as nat
  }

  /** `strconv.Atoi`: an optional sign and at least one digit, within 64 bits. */
  function Atoi(s: string): Option<int64> {
    var signed := s != "" && (s[0] == '-' || s[0] == '+');
    var digits := if signed then s[1..] else s;
    if digits == "" || !AllDigits(digits) then None else
    var n: int := if signed && s[0] == '-' then -(DigitsValue(digits) as int) else DigitsValue(digits);
    if -TWO_TO_THE_63 <= n < TWO_TO_THE_63 then Some(n) else None
  }

  /** The values gathered by the scan of the map. */
  datatype Fields = Fields(volType: int64, fsType: string, zone: string, group: string, burst: string)

  const NO_FIELDS := Fields(-1, "ext4", "", "", "false")

  /** What follows the scan of the map: defaults, then validation of the type and file system. */
  function Finish(f: Fields, defaults: Defaults): Result<ZecStorageClass, ParamError> {
    var fallBack := f.zone == "" || f.group == "";
    var zoneId := if fallBack then defaults.zone else f.zone;
    var placeGroupId := if fallBack then defaults.group else f.group;
    var t := if f.volType == -1 then DEFAULT_VOLUME_TYPE else f.volType;
    if zoneId == "" || placeGroupId == "" then Failure(MissingZoneOrGroup)
    else if !IsValidVolumeType(t) then Failure(UnsupportedType)
    else if !IsValidFileSystemType(f.fsType) then Failure(UnsupportedFs)
    else Success(ZecStorageClass(t, ZEC_LIMITS, f.fsType, zoneId, placeGroupId, f.burst == "true"))
  }

  /** Reading one entry; none if it is a type that is no number. */
  function ReadEntry(f: Fields, k: string, v: string): Option<Fields> {
    match Classify(k)
    case None => Some(f)
    case Some(TypeField) => if Atoi(v).None? then None else Some(f.(volType := Atoi(v).value))
    case Some(ZoneField) => Some(f.(zone := v))
    case Some(GroupField) => Some(f.(group := v))
    case Some(BurstField) => Some(f.(burst := v))
    case Some(FsTypeField) => if v == "" then Some(f) else Some(f.(fsType := v))
  }

  /** Reading the entries one after the other, up to the first that cannot be read. */
  function ReadInOrder(opt: Params, order: seq<string>): Option<Fields>
    requires forall k :: k in order ==> k in opt
  {
    if order == [] then Some(NO_FIELDS) else
    var k := order[|order| - 1];
    match ReadInOrder(opt, order[..|order| - 1])
    case None => None
    case Some(f) => ReadEntry(f, k, opt[k])
  }

  /** An order in which the map's entries may be visited. */
  ghost predicate OrderOf(opt: Params, order: seq<string>) {
    && (forall k :: k in order <==> k in opt)
    && (forall i, j :: 0 <= i < j < |order| ==> order[i] != order[j])
  }

  /** The outcome of parsing in an order. */
  ghost function ParsedIn(opt: Params, order: seq<string>, defaults: Defaults): Result<ZecStorageClass, ParamError>
    requires OrderOf(opt, order)
  {
    match ReadInOrder(opt, order)
    case None => Failure(BadNumber)
    case Some(f) => Finish(f, defaults)
  }

  /** Go visits map entries in any order, and so does this loop; `order` is the order it happened to take. */
  method NewZecStorageClassFromMap(opt: Params, defaults: Defaults)
    returns (r: Result<ZecStorageClass, ParamError>, ghost order: seq<string>)
    ensures OrderOf(opt, order) && r == ParsedIn(opt, order, defaults)
    ensures NoCollision(opt) ==> r == Parsed(opt, defaults)
  {
    var f := NO_FIELDS;
    var keys := opt.Keys;
    order := [];
    while keys != {}
      invariant keys <= opt.Keys && (forall k :: k in order <==> k in opt && k !in keys)
      invariant forall i, j :: 0 <= i < j < |order| ==> order[i] != order[j]
      invariant ReadInOrder(opt, order) == Some(f)
    {
      var k :| k in keys;
      keys := keys - {k};
      ghost var before := order;
      order := order + [k];
      assert order[..|order| - 1] == before;
      var v := opt[k];
      match Classify(k) {
        case Some(TypeField) =>
          var iv := Atoi(v);
          if iv.None? {
            order := CompleteOrder(opt, order, keys);
            OrderDoesNotMatter(opt, order, defaults);
            return Failure(BadNumber), order;
          }
          f := f.(volType := iv.value);
        case Some(ZoneField) =>
          f := f.(zone := v);
        case Some(GroupField) =>
          f := f.(group := v);
        case Some(BurstField) =>
          f := f.(burst := v);
        case Some(FsTypeField) =>
          if v != "" {
            f := f.(fsType := v);
          }
        case None =>
      }
    }
    OrderDoesNotMatter(opt, order, defaults);
    r := Finish(f, defaults);
  }

  /** Visits the keys that are left, which does not make a map readable that was not. */
  lemma {:induction false} CompleteOrder(opt: Params, visited: seq<string>, keys: set<string>) returns (order: seq<string>)
    requires keys <= opt.Keys && (forall k :: k in visited <==> k in opt && k !in keys)
    requires forall i, j :: 0 <= i < j < |visited| ==> visited[i] != visited[j]
    ensures OrderOf(opt, order)
    ensures ReadInOrder(opt, visited).None? ==> ReadInOrder(opt, order).None?
    decreases keys
  {
    if keys == {} {
      order := visited;
    } else {
      var k :| k in keys;
      assert (visited + [k])[..|visited|] == visited;
      order := CompleteOrder(opt, visited + [k], keys - {k});
    }
  }

  // ---------------------------------------------------------------- order-free reading of the map

  ghost predicate HasField(opt: Params, field: Field) {
    exists k :: k in opt && Classify(k) == Some(field)
  }

  /** The value of the key that lower-cases to `field`. */
  ghost function FieldOr(opt: Params, field: Field, default: string): string {
    if HasField(opt, field) then var k :| k in opt && Classify(k) == Some(field); opt[k] else default
  }

  /** No two keys name the same field, as when no two coincide after lower-casing. */
  ghost predicate NoCollision(opt: Params) {
    forall k1, k2 :: k1 in opt && k2 in opt && Classify(k1).Some? && Classify(k1) == Classify(k2) ==> k1 == k2
  }

  /** The key carrying `field` is no longer among the keys still to visit. */
  ghost predicate Visited(opt: Params, keys: set<string>, field: Field) {
    exists k :: k in opt && k !in keys && Classify(k) == Some(field)
  }

  /** The value of a field once its key has been visited, `default` before that. */
  ghost function SeenOr(opt: Params, keys: set<string>, field: Field, default: string): string {
    if Visited(opt, keys, field) then FieldOr(opt, field, default) else default
  }

  /** The fields read when the keys in `keys` are still to visit; none if the type is no number. */
  ghost function ReadSoFar(opt: Params, keys: set<string>): Option<Fields> {
    var volType := if Visited(opt, keys, TypeField) then Atoi(FieldOr(opt, TypeField, "")) else Some(-1);
    var fsType := SeenOr(opt, keys, FsTypeField, "");
    if volType.None? then None else
    Some(Fields(volType.value, if fsType == "" then "ext4" else fsType, SeenOr(opt, keys, ZoneField, ""),
                SeenOr(opt, keys, GroupField, ""), SeenOr(opt, keys, BurstField, "false")))
  }

  /** The outcome of parsing, read off the map without any order. */
  ghost function Parsed(opt: Params, defaults: Defaults): Result<ZecStorageClass, ParamError> {
    match ReadSoFar(opt, {})
    case None => Failure(BadNumber)
    case Some(f) => Finish(f, defaults)
  }

  lemma NothingRead(opt: Params)
    ensures ReadSoFar(opt, opt.Keys) == Some(NO_FIELDS)
  {
  }

  lemma AllRead(opt: Params)
    ensures forall field :: Visited(opt, {}, field) <==> HasField(opt, field)
  {
  }

  lemma VisitOne(opt: Params, keys: set<string>, k: string)
    requires k in keys && keys <= opt.Keys
    ensures forall field ::
      Visited(opt, keys - {k}, field) <==> Visited(opt, keys, field) || Classify(k) == Some(field)
    ensures NoCollision(opt) && Classify(k).Some? ==>
      forall default :: FieldOr(opt, Classify(k).value, default) == opt[k]
  {
    forall field ensures Visited(opt, keys - {k}, field) <==> Visited(opt, keys, field) || Classify(k) == Some(field) {
      if Visited(opt, keys, field) {
        var k' :| k' in opt && k' !in keys && Classify(k') == Some(field);
        assert k' !in keys - {k};
      }
      if Classify(k) == Some(field) {
        assert k !in keys - {k};
      }
    }
    assert Classify(k).Some? ==> HasField(opt, Classify(k).value);
  }

  lemma FirstVisit(opt: Params, keys: set<string>, k: string)
    requires k in keys && keys <= opt.Keys && NoCollision(opt) && Classify(k).Some?
    ensures !Visited(opt, keys, Classify(k).value)
  {
  }

  /** Visiting one more key reads exactly its field. */
  lemma ReadOneMore(opt: Params, keys: set<string>, k: string)
    requires k in keys && keys <= opt.Keys && NoCollision(opt)
    ensures ReadSoFar(opt, keys - {k}) ==
      if ReadSoFar(opt, keys).None? then None else ReadEntry(ReadSoFar(opt, keys).value, k, opt[k])
  {
    VisitOne(opt, keys, k);
    if Classify(k).Some? {
      FirstVisit(opt, keys, k);
    }
  }

  function KeySet(order: seq<string>): set<string> {
    set k | k in order
  }

  lemma {:induction false} ReadInOrderIsReadSoFar(opt: Params, order: seq<string>, n: nat)
    requires NoCollision(opt) && OrderOf(opt, order) && n <= |order|
    ensures ReadInOrder(opt, order[..n]) == ReadSoFar(opt, opt.Keys - KeySet(order[..n]))
  {
    if n == 0 {
      NothingRead(opt);
      assert opt.Keys - KeySet(order[..0]) == opt.Keys;
    } else {
      var k, keys := order[n - 1], opt.Keys - KeySet(order[..n - 1]);
      ReadInOrderIsReadSoFar(opt, order, n - 1);
      assert order[..n][..n - 1] == order[..n - 1] && order[..n] == order[..n - 1] + [k];
      assert k !in order[..n - 1];
      ReadOneMore(opt, keys, k);
      assert opt.Keys - KeySet(order[..n]) == keys - {k};
    }
  }

  /** If no two keys name the same field, every order gives the order-free outcome. */
  lemma OrderDoesNotMatter(opt: Params, order: seq<string>, defaults: Defaults)
    requires OrderOf(opt, order)
    ensures NoCollision(opt) ==> ParsedIn(opt, order, defaults) == Parsed(opt, defaults)
  {
    if NoCollision(opt) {
      ReadInOrderIsReadSoFar(opt, order, |order|);
      assert order[..|order|] == order && opt.Keys - KeySet(order) == {};
    }
  }

  // ---------------------------------------------------------------- rewriting the zone

  function Rezoned(opt: Params, zone: string): Params {
    map k | k in opt :: if Classify(k) == Some(ZoneField) then zone else opt[k]
  }

  /** The parameters of a request, which the driver rewrites in place. */
  class RequestParams {
    var opt: Params

    constructor (opt: Params)
      ensures this.opt == opt
    {
      this.opt := opt;
    }

    method UpdateParmsZone(zone: string)
      modifies this
      ensures opt == Rezoned(old(opt), zone)
    {
      var keys := opt.Keys;
      while keys != {}
        invariant opt.Keys == old(opt).Keys && keys <= opt.Keys
        invariant forall k :: k in opt ==> opt[k] == if k in keys then old(opt)[k] else Rezoned(old(opt), zone)[k]
      {
        var k :| k in keys;
        keys := keys - {k};
        if Classify(k) == Some(ZoneField) {
          opt := opt[k := zone];
        }
      }
    }
  }

  lemma RezonedFields(opt: Params, zone: string)
    requires NoCollision(opt)
    ensures NoCollision(Rezoned(opt, zone))
    ensures forall field :: HasField(Rezoned(opt, zone), field) <==> HasField(opt, field)
    ensures forall field, default {:trigger FieldOr(Rezoned(opt, zone), field, default)} ::
      FieldOr(Rezoned(opt, zone), field, default) ==
      (if field == ZoneField && HasField(opt, field) then zone else FieldOr(opt, field, default))
  {
    var opt' := Rezoned(opt, zone);
    forall field ensures HasField(opt', field) <==> HasField(opt, field) {
      if HasField(opt, field) {
        var k :| k in opt && Classify(k) == Some(field);
        assert k in opt';
      }
    }
  }

  lemma FinishRezoned(f: Fields, zone: string, defaults: Defaults)
    requires zone != "" && Finish(f, defaults).Success?
    ensures var before := Finish(f, defaults).value;
      var after := Finish(f.(zone := zone), defaults);
      && after.Success?
      && (after.value.zoneId == zone <==> f.group != "" || zone == defaults.zone)
      && (f.group == "" ==> after.value == before)
      && (f.group != "" ==> (after.value == before.(zoneId := zone) <==> f.zone != "" || f.group == defaults.group))
  {
  }

  /**
   After the zone of an accepted map that carries a zone key has been rewritten to a
   non-empty zone, the map is accepted again. It then parses to that zone exactly when the
   map also names a group (or the zone is the default one), and every other field is as
   before exactly when the old zone value was not empty (or the group is the default one):
   an empty zone had made the driver replace both zone and group by its defaults. Without
   a group the rewriting has no effect at all.
   */
  lemma RezonedParses(opt: Params, zone: string, defaults: Defaults)
    requires NoCollision(opt) && HasField(opt, ZoneField) && zone != ""
    requires Parsed(opt, defaults).Success?
    ensures var group := FieldOr(opt, GroupField, "");
      var before, after := Parsed(opt, defaults).value, Parsed(Rezoned(opt, zone), defaults);
      && after.Success?
      && (after.value.zoneId == zone <==> group != "" || zone == defaults.zone)
      && (group != "" ==>
           (after.value == before.(zoneId := zone) <==>
              FieldOr(opt, ZoneField, "") != "" || group == defaults.group))
      && (group == "" ==> after.value == before)
  {
    var opt' := Rezoned(opt, zone);
    RezonedFields(opt, zone);
    AllRead(opt);
    AllRead(opt');
    var f := ReadSoFar(opt, {}).value;
    forall field, default ensures SeenOr(opt', {}, field, default) ==
      if field == ZoneField then zone else SeenOr(opt, {}, field, default)
    {
      assert FieldOr(opt', field, default) == if field == ZoneField then zone else FieldOr(opt, field, default);
    }
    assert FieldOr(opt', TypeField, "") == FieldOr(opt, TypeField, "");
    assert ReadSoFar(opt', {}) == Some(f.(zone := zone));
    FinishRezoned(f, zone, defaults);
  }

  /** No key is added or removed, and only the zone's value changes. */
  lemma RezonedKeepsKeys(opt: Params, zone: string)
    ensures Rezoned(opt, zone).Keys == opt.Keys
    ensures forall k :: k in opt && Classify(k) != Some(ZoneField) ==> Rezoned(opt, zone)[k] == opt[k]
    ensures Rezoned(Rezoned(opt, zone), zone) == Rezoned(opt, zone)
  {
  }
}
