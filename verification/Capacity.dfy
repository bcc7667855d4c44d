/**
 Capacity arithmetic: bytes, whole GiB and CSI capacity ranges.

 Go's `int` and `int64` are both 64 bits wide on the platforms the driver is built
 for, so one type stands for both and multiplication wraps explicitly.
 */
module Capacity {
  import opened Wrappers

  const GIB: int := 0x4000_0000
  const TWO_TO_THE_63: int := 0x8000_0000_0000_0000
  const TWO_TO_THE_64: int := 0x1_0000_0000_0000_0000

  /** The largest byte count that still rounds up to a whole number of GiB below 2^63. */
  const MAX_ROUNDABLE: int := TWO_TO_THE_63 - GIB

  type int64 = x: int | -0x8000_0000_0000_0000 <= x < 0x8000_0000_0000_0000

  /** A CSI capacity range; zero means "not given" for either bound. */
  datatype CapacityRange = CapacityRange(required: int64, limit: int64)

  /** The size limits of a storage class, in bytes. */
  datatype SizeLimits = SizeLimits(minSize: int64, maxSize: int64)

  datatype SizeError = IllFormedRange | AboveMaximum | AboveLimit

  /** Both disk types have the same limits: 20 GiB and 32 TiB. */
  const ZEC_LIMITS: SizeLimits := SizeLimits(20 * GIB, 32768 * GIB)

  /** Two's-complement truncation to 64 bits. */
  function Wrap(x: int): (r: int64)
    ensures -TWO_TO_THE_63 <= x < TWO_TO_THE_63 ==> r == x
    ensures exists k: int :: r == x + k * TWO_TO_THE_64
  {
    var r := (x + TWO_TO_THE_63) % TWO_TO_THE_64 - TWO_TO_THE_63;
    assert r == x + (-((x + TWO_TO_THE_63) / TWO_TO_THE_64)) * TWO_TO_THE_64;
    r
  }

  function GibToByte(nGib: int64): int64 {
    Wrap(nGib * GIB)
  }

  function ByteCeilToGib(nByte: int64): int64 {
    if nByte <= 0 then 0 else
    var res := nByte / GIB;
    if res * GIB < nByte then res + 1 else res
  }

  predicate IsValidCapacityBytes(cur: int64, range: Option<CapacityRange>) {
    match range
    case None => true
    case Some(cr) =>
      && !(cr.required > 0 && cur < cr.required)
      && !(cr.limit > 0 && cur > cr.limit)
  }

  function GetRequestSizeBytes(range: Option<CapacityRange>): Result<int64, SizeError> {
    match range
    case None => Success(0)
    case Some(cr) =>
      if cr.required < 0 || cr.limit < 0 then Failure(IllFormedRange) else
      var limit: int64 := if cr.limit == 0 then 0x7FFF_FFFF_FFFF_FFFF else cr.limit;
      if cr.required > limit then Failure(IllFormedRange) else Success(cr.required)
  }

  function GetRequiredVolumeSizeByte(sc: SizeLimits, range: Option<CapacityRange>): Result<int64, SizeError> {
    match range
    case None => Success(sc.minSize)
    case Some(cr) =>
      if cr.required < 0 || cr.limit < 0 then Failure(IllFormedRange)
      else if cr.limit > 0 && cr.required > cr.limit then Failure(IllFormedRange)
      else
        var required := if cr.required < sc.minSize then sc.minSize else cr.required;
        var actual := GibToByte(ByteCeilToGib(required));
        if actual > sc.maxSize then Failure(AboveMaximum)
        else if cr.limit > 0 && actual > cr.limit then Failure(AboveLimit)
        else Success(actual)
  }

  function FormatVolumeSizeByte(sc: SizeLimits, size: int64): int64 {
    var raised := if size <= sc.minSize then sc.minSize else size;
    if raised > sc.maxSize then sc.maxSize else raised
  }

  // ---------------------------------------------------------------- what the results mean

  /** Limits a storage class can carry: whole-GiB bounds, well inside 64 bits. */
  predicate Sane(sc: SizeLimits) {
    && 0 < sc.minSize <= sc.maxSize <= MAX_ROUNDABLE
    && sc.minSize % GIB == 0
  }

  predicate WellFormed(range: Option<CapacityRange>) {
    range.Some? ==>
      && 0 <= range.value.required && 0 <= range.value.limit
      && (range.value.limit > 0 ==> range.value.required <= range.value.limit)
  }

  /** `size` bytes is a disk size that honours the class and the caller's range. */
  predicate Fits(sc: SizeLimits, range: Option<CapacityRange>, size: int) {
    && size % GIB == 0
    && sc.minSize <= size <= sc.maxSize
    && (range.Some? ==> range.value.required <= size)
    && (range.Some? && range.value.limit > 0 ==> size <= range.value.limit)
  }

  /** The byte count asked for does not overflow when it is rounded up. */
  predicate Roundable(range: Option<CapacityRange>) {
    range.Some? ==> range.value.required <= MAX_ROUNDABLE
  }

  /** Conversion to bytes is exact for precisely the GiB counts below 2^33 in magnitude. */
  lemma GibToByteIsExact(g: int64)
    ensures GibToByte(g) == g * GIB <==> -0x2_0000_0000 <= g < 0x2_0000_0000
  {
  }

  lemma CeilBounds(b: int64)
    requires 0 < b
    ensures (ByteCeilToGib(b) - 1) * GIB < b <= ByteCeilToGib(b) * GIB
  {
  }

  /** Rounding up and converting back are adjoint, so comparing in GiB or in bytes is the same. */
  lemma CeilAdjunction(b: int64, g: int64)
    requires b <= MAX_ROUNDABLE && 0 <= g < 0x2_0000_0000
    ensures ByteCeilToGib(b) <= g <==> b <= GibToByte(g)
  {
    GibToByteIsExact(g);
    if b > 0 {
      CeilBounds(b);
    }
  }

  /** Rounding up gives at least the bytes asked for exactly up to 2^63 - 2^30. */
  lemma RoundUpKeepsBytes(b: int64)
    ensures b <= GibToByte(ByteCeilToGib(b)) <==> b <= MAX_ROUNDABLE
  {
    if b > 0 {
      CeilBounds(b);
      var g := ByteCeilToGib(b);
      if b <= MAX_ROUNDABLE {
        assert g < 0x2_0000_0000;
      } else {
        assert g == 0x2_0000_0000;
        assert GibToByte(g) == -TWO_TO_THE_63;
      }
    }
  }

  /** A whole GiB size survives the trip through the cloud's GiB unit. */
  lemma WholeGibRoundTrip(b: int64)
    requires 0 <= b && b % GIB == 0
    ensures GibToByte(ByteCeilToGib(b)) == b
  {
    assert b == (b / GIB) * GIB;
  }

  /**
   `GetRequiredVolumeSizeByte` returns the least size that fits, and fails exactly when
   no size fits or the range is ill-formed.
   */
  lemma RequiredSizeIsLeast(sc: SizeLimits, range: Option<CapacityRange>)
    requires Sane(sc) && Roundable(range)
    ensures var r := GetRequiredVolumeSizeByte(sc, range);
      && (r.Success? <==> WellFormed(range) && exists size: int :: Fits(sc, range, size))
      && (r.Success? ==> Fits(sc, range, r.value) && forall size: int :: Fits(sc, range, size) ==> r.value <= size)
  {
    var r := GetRequiredVolumeSizeByte(sc, range);
    if range.None? {
      assert Fits(sc, range, sc.minSize);
    } else if WellFormed(range) {
      var cr := range.value;
      var required: int64 := if cr.required < sc.minSize then sc.minSize else cr.required;
      var g := ByteCeilToGib(required);
      CeilBounds(required);
      GibToByteIsExact(g);
      forall size: int | Fits(sc, range, size) ensures g * GIB <= size {
        assert size == (size / GIB) * GIB;
      }
      if r.Success? {
        assert Fits(sc, range, r.value);
      }
    }
  }

  /**
   Beyond 2^63 - 2^30 requested bytes the product wraps to -2^63, every check passes, and
   a size that fits nothing is accepted.
   */
  lemma RequiredSizeOverflows(sc: SizeLimits, range: Option<CapacityRange>)
    requires Sane(sc) && WellFormed(range) && !Roundable(range)
    ensures GetRequiredVolumeSizeByte(sc, range) == Success(-TWO_TO_THE_63)
    ensures forall size: int :: !Fits(sc, range, size)
  {
    CeilBounds(range.value.required);
    assert ByteCeilToGib(range.value.required) == 0x2_0000_0000;
  }

  /** The two cases together: the answer means what it should exactly for roundable or ill-formed ranges. */
  lemma RequiredSizeMeetsContract(sc: SizeLimits, range: Option<CapacityRange>)
    requires Sane(sc)
    ensures (GetRequiredVolumeSizeByte(sc, range).Success? <==> WellFormed(range) && exists size: int :: Fits(sc, range, size))
            <==> Roundable(range) || !WellFormed(range)
  {
    if Roundable(range) {
      RequiredSizeIsLeast(sc, range);
    } else if WellFormed(range) {
      RequiredSizeOverflows(sc, range);
    }
  }

  /** What is returned always passes the check that a retried CreateVolume makes on the existing disk. */
  lemma RequiredSizeIsValidCapacity(sc: SizeLimits, range: Option<CapacityRange>)
    requires Sane(sc) && Roundable(range)
    requires GetRequiredVolumeSizeByte(sc, range).Success?
    ensures var v := GetRequiredVolumeSizeByte(sc, range).value;
      && GibToByte(ByteCeilToGib(v)) == v && 0 < ByteCeilToGib(v) < 0x2_0000_0000
      && IsValidCapacityBytes(v, range)
  {
    RequiredSizeIsLeast(sc, range);
    var v := GetRequiredVolumeSizeByte(sc, range).value;
    assert Fits(sc, range, v);
    WholeGibRoundTrip(v);
    CeilBounds(v);
  }

  /**
   The node-side check keeps every well-formed range and hands back what was required,
   even where the controller-side one would overflow.
   */
  lemma RequestSizeBytesAcceptsWellFormed(range: Option<CapacityRange>)
    ensures GetRequestSizeBytes(range).Success? <==> WellFormed(range)
    ensures GetRequestSizeBytes(range).Success? ==>
      GetRequestSizeBytes(range).value == if range.Some? then range.value.required else 0
  {
  }

  /** Clamping lands inside the class limits, moves nothing already inside, and is idempotent. */
  lemma FormatClamps(sc: SizeLimits, size: int64)
    requires Sane(sc)
    ensures var f := FormatVolumeSizeByte(sc, size);
      && sc.minSize <= f <= sc.maxSize
      && (sc.minSize <= size <= sc.maxSize ==> f == size)
      && FormatVolumeSizeByte(sc, f) == f
      && (forall other: int64 :: size <= other ==> f <= FormatVolumeSizeByte(sc, other))
  {
  }
}
