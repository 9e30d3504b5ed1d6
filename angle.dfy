/**
 * A signed angle stored as one exact count of microarcseconds, its
 * constructors (decimal degrees, degrees/minutes/seconds), its accessors
 * (the raw count and the DMS components), its derived ordering and the
 * four conversion primitives of the Measure contract.
 *
 * Floating-point inputs and outputs are idealised as exact reals; the
 * single rounding step of the source (`f64::round` then `as i64`) is
 * written out explicitly.
 */
module Angles {
  import opened Numerics

  /** The number of microarcseconds in one degree. */
  const DG_TO_UAS: nat := 3_600_000_000
  /** Microarcseconds in one arcminute, one arcsecond and one arcmillisecond. */
  const UAS_PER_ARCMINUTE: nat := 60_000_000
  const UAS_PER_ARCSECOND: nat := 1_000_000
  const UAS_PER_ARCMILLISECOND: nat := 1_000

  /** A signed angle with a resolution of one microarcsecond. */
  datatype Angle = Angle(microarcseconds: Int64)

  /** Why `FromDms` rejected its arguments. */
  datatype DmsError = InvalidArcMinutes | InvalidArcSeconds

  datatype Result<T> = Ok(value: T) | Err(error: DmsError)

  /** The result of the derived total order. */
  datatype Ordering = Less | Equal | Greater

  /** The count of microarcseconds that `dec` degrees round to, before the cast to `i64`. */
  function ScaledDegrees(dec: real): int {
    RoundHalfAwayFromZero(dec * DG_TO_UAS as real)
  }

  /** `dec` degrees round to a count that fits an `i64`, so the cast does not saturate. */
  predicate Representable(dec: real) {
    InI64(ScaledDegrees(dec))
  }

  /**
   * The angle nearest to `dec` decimal degrees: `dec * 3.6e9` rounded half
   * away from zero, saturating at the `i64` bounds.
   */
  function FromDecimalDegrees(dec: real): (a: Angle)
    ensures Representable(dec) ==>
      -0.5 <= dec * DG_TO_UAS as real - a.microarcseconds as real <= 0.5
    ensures Representable(dec) && dec * DG_TO_UAS as real - a.microarcseconds as real == 0.5 ==> dec < 0.0
    ensures Representable(dec) && a.microarcseconds as real - dec * DG_TO_UAS as real == 0.5 ==> dec > 0.0
    ensures !Representable(dec) ==> a.microarcseconds == if dec < 0.0 then I64_MIN else I64_MAX
    ensures 0.0 <= dec ==> 0 <= a.microarcseconds
    ensures dec <= 0.0 ==> a.microarcseconds <= 0
  {
    Angle(SaturatingCast(ScaledDegrees(dec)))
  }

  /** The angle of zero microarcseconds, the same as zero decimal degrees. */
  function Zero(): (a: Angle)
    ensures a == FromDecimalDegrees(0.0)
    ensures a.microarcseconds == 0
  {
    RoundOfInteger(0);
    Angle(0)
  }

  /** The unsigned decimal degrees that a DMS triple stands for. */
  function DmsDegrees(degs: nat, mins: int, secs: real): real {
    degs as real + mins as real / 60.0 + secs / 3600.0
  }

  /**
   * The angle of `degs` degrees, `mins` arcminutes and `secs` arcseconds.
   * Minutes must lie in [0, 59] and seconds in [0, 60); only `degs` carries
   * the sign. Minutes are checked before seconds. Only valid arguments reach
   * `degs.abs()`, which overflows for `i64::MIN`.
   */
  function FromDms(degs: Int64, mins: Int64, secs: real): (r: Result<Angle>)
    requires 0 <= mins <= 59 && 0.0 <= secs < 60.0 ==> degs != I64_MIN
    ensures r == Err(InvalidArcMinutes) <==> mins < 0 || mins > 59
    ensures r == Err(InvalidArcSeconds) <==> 0 <= mins <= 59 && (secs < 0.0 || secs >= 60.0)
    ensures r.Ok? <==> 0 <= mins <= 59 && 0.0 <= secs < 60.0
    ensures r.Ok? && 0 <= degs ==> 0 <= r.value.microarcseconds
    ensures r.Ok? && degs < 0 ==> r.value.microarcseconds <= 0
    ensures r.Ok? && Representable(DmsDegrees(Abs(degs), mins, secs)) ==>
      -0.5 <= DmsDegrees(Abs(degs), mins, secs) * DG_TO_UAS as real - Abs(r.value.microarcseconds) as real < 0.5
  {
    if mins < 0 || mins > 59 then
      Err(InvalidArcMinutes)
    else if secs < 0.0 || secs >= 60.0 then
      Err(InvalidArcSeconds)
    else
      var d := DmsDegrees(Abs(degs), mins, secs);
      if degs < 0 then
        RoundNegation(d * DG_TO_UAS as real);
        Ok(FromDecimalDegrees(-d))
      else
        Ok(FromDecimalDegrees(d))
  }

  /** The angle of exactly `amount` microarcseconds (Measure's resolution-unit constructor). */
  function FromResolutionUnit(amount: Int64): (a: Angle)
    ensures a.microarcseconds == amount
  {
    Angle(amount)
  }

  /** The raw count of microarcseconds; rebuilding from it gives the same angle. */
  function Microarcseconds(a: Angle): (n: Int64)
    ensures FromResolutionUnit(n) == a
  {
    a.microarcseconds
  }

  /** Measure's resolution-unit reading: the raw count of microarcseconds. */
  function AsResolutionUnit(a: Angle): (n: Int64)
    ensures FromResolutionUnit(n) == a
  {
    a.microarcseconds
  }

  /** The angle as decimal degrees, exact over the reals. */
  function AsDecimalDegrees(a: Angle): (d: real)
    ensures d * DG_TO_UAS as real == a.microarcseconds as real
    ensures (d < 0.0) == (a.microarcseconds < 0)
  {
    a.microarcseconds as real / DG_TO_UAS as real
  }

  /**
   * Measure's default-unit constructor (decimal degrees): reading the result
   * back as decimal degrees is off by at most half a microarcsecond, a tie
   * going away from zero; beyond the `i64` range the count saturates.
   */
  function FromDefaultUnit(amount: real): (a: Angle)
    ensures Representable(amount) ==>
      -0.5 / DG_TO_UAS as real <= AsDecimalDegrees(a) - amount <= 0.5 / DG_TO_UAS as real
    ensures Representable(amount) && AsDecimalDegrees(a) - amount == 0.5 / DG_TO_UAS as real ==> amount > 0.0
    ensures Representable(amount) && amount - AsDecimalDegrees(a) == 0.5 / DG_TO_UAS as real ==> amount < 0.0
    ensures !Representable(amount) ==> a.microarcseconds == if amount < 0.0 then I64_MIN else I64_MAX
  {
    FromDecimalDegrees(amount)
  }

  /** Measure's default-unit reading (decimal degrees): it converts back to the same angle. */
  function AsDefaultUnit(a: Angle): (d: real)
    ensures d * DG_TO_UAS as real == a.microarcseconds as real
    ensures FromDecimalDegrees(d) == a
  {
    var d := AsDecimalDegrees(a);
    RoundOfInteger(a.microarcseconds);
    d
  }

  /**
   * The shared DMS helper: the absolute count divided by `div`, reduced
   * modulo `modu`. The count must not be `i64::MIN`, whose absolute value
   * overflows.
   */
  function Field(a: Angle, div: nat, modu: nat): (r: nat)
    requires a.microarcseconds != I64_MIN
    requires div > 0 && modu > 0
    ensures r < modu
  {
    (Abs(a.microarcseconds) / div) % modu
  }

  /**
   * The whole-degree component: whole degrees of the absolute count, wrapped
   * modulo 360, with the sign of the angle put back.
   */
  function WholeDegrees(a: Angle): (r: Int64)
    requires a.microarcseconds != I64_MIN
    ensures -360 < r < 360
    ensures Abs(r) == (Abs(a.microarcseconds) / DG_TO_UAS) % 360
    ensures r != 0 ==> (r < 0 <==> a.microarcseconds < 0)
  {
    var d: int := Field(a, DG_TO_UAS, 360);
    if a.microarcseconds < 0 then -d else d
  }

  /** The arcminute component, never negative. */
  function Arcminutes(a: Angle): (r: nat)
    requires a.microarcseconds != I64_MIN
    ensures r <= 59
  {
    Field(a, UAS_PER_ARCMINUTE, 60)
  }

  /** The arcsecond component, never negative. */
  function Arcseconds(a: Angle): (r: nat)
    requires a.microarcseconds != I64_MIN
    ensures r <= 59
  {
    Field(a, UAS_PER_ARCSECOND, 60)
  }

  /** The arcmillisecond component, never negative. */
  function Arcmilliseconds(a: Angle): (r: nat)
    requires a.microarcseconds != I64_MIN
    ensures r <= 999
  {
    Field(a, UAS_PER_ARCMILLISECOND, 1000)
  }

  /** The derived total order: angles compare as their microarcsecond counts. */
  function Compare(a: Angle, b: Angle): (o: Ordering)
    ensures o == Less <==> a.microarcseconds < b.microarcseconds
    ensures o == Equal <==> a == b
    ensures o == Greater <==> a.microarcseconds > b.microarcseconds
  {
    if a.microarcseconds < b.microarcseconds then Less
    else if a.microarcseconds == b.microarcseconds then Equal
    else Greater
  }
}
