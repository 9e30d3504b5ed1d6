/**
 * Properties of the angle model: the Measure round trips, sign handling
 * and error precedence of the DMS constructor, bounds and sign-independence
 * of the DMS components, the decomposition identity, the derived order,
 * and the concrete vectors of the doc-tests and unit tests.
 */
module AngleProperties {
  import opened Numerics
  import opened Angles

  // ----- Measure primitives -------------------------------------------------

  /** `zero()` is the resolution-unit angle 0. */
  lemma ZeroIsResolutionUnitZero()
    ensures Zero() == FromResolutionUnit(0)
    ensures Microarcseconds(Zero()) == 0 && AsResolutionUnit(Zero()) == 0
  {
  }

  /** The resolution-unit constructor and both raw readings are mutually inverse. */
  lemma ResolutionUnitRoundTrip(n: Int64, a: Angle)
    ensures AsResolutionUnit(FromResolutionUnit(n)) == n
    ensures Microarcseconds(FromResolutionUnit(n)) == n
    ensures FromResolutionUnit(AsResolutionUnit(a)) == a
  {
  }

  /** Reading an angle as decimal degrees and converting back is exact. */
  lemma DefaultUnitRoundTrip(a: Angle)
    ensures FromDefaultUnit(AsDefaultUnit(a)) == a
  {
  }

  // ----- Decimal degrees ------------------------------------------------------

  /** Rounding treats both signs alike, so negating the input negates the angle. */
  lemma FromDecimalDegreesNegation(d: real)
    requires Abs(ScaledDegrees(d)) <= I64_MAX
    ensures FromDecimalDegrees(-d).microarcseconds == -FromDecimalDegrees(d).microarcseconds
  {
    RoundNegation(d * DG_TO_UAS as real);
    assert -d * DG_TO_UAS as real == -(d * DG_TO_UAS as real);
  }

  /** A larger number of degrees never gives a smaller angle. */
  lemma FromDecimalDegreesMonotone(x: real, y: real)
    requires x <= y
    ensures FromDecimalDegrees(x).microarcseconds <= FromDecimalDegrees(y).microarcseconds
  {
    RoundMonotone(x * DG_TO_UAS as real, y * DG_TO_UAS as real);
  }

  /** One degree is 3,600,000,000 microarcseconds; differences below half a microarcsecond collapse. */
  lemma DecimalDegreesVectors()
    ensures FromDecimalDegrees(1.0).microarcseconds == 3_600_000_000
    ensures FromDecimalDegrees(60.0) == FromDecimalDegrees(59.9999999999)
    ensures FromDecimalDegrees(60.0) != FromDecimalDegrees(59.999999998)
  {
    assert ScaledDegrees(1.0) == 3_600_000_000;
    assert ScaledDegrees(60.0) == 216_000_000_000;
    assert ScaledDegrees(59.9999999999) == 216_000_000_000;
    assert ScaledDegrees(59.999999998) == 215_999_999_993;
  }

  // ----- Degrees, minutes, seconds ---------------------------------------------

  /** Minutes are validated first: when both fields are out of range, minutes are reported. */
  lemma FromDmsMinutesCheckedFirst(degs: Int64, mins: Int64, secs: real)
    requires mins < 0 || mins > 59
    requires secs < 0.0 || secs >= 60.0
    ensures FromDms(degs, mins, secs) == Err(InvalidArcMinutes)
  {
  }

  /**
   * The boundaries: 60 minutes and 60 seconds are rejected for every `degs`,
   * `i64::MIN` included; 59 minutes and 59.999999 seconds are accepted.
   */
  lemma FromDmsBoundaries(degs: Int64)
    ensures FromDms(degs, 60, 0.0) == Err(InvalidArcMinutes)
    ensures FromDms(degs, 0, 60.0) == Err(InvalidArcSeconds)
    ensures degs != I64_MIN ==> FromDms(degs, 59, 59.999999).Ok?
  {
  }

  /**
   * A valid triple is the decimal-degree angle of `|degs| + mins/60 + secs/3600`
   * with the sign of `degs` put back.
   */
  lemma FromDmsIsSignedDecimalDegrees(degs: Int64, mins: Int64, secs: real)
    requires degs != I64_MIN
    requires 0 <= mins <= 59 && 0.0 <= secs < 60.0
    ensures var d := DmsDegrees(Abs(degs), mins, secs);
      FromDms(degs, mins, secs) == Ok(FromDecimalDegrees(if degs < 0 then -d else d))
  {
  }

  /** Only the degrees carry the sign: `-k°m's"` is the negation of `k°m's"`. */
  lemma FromDmsNegation(k: Int64, mins: Int64, secs: real)
    requires 0 < k
    requires 0 <= mins <= 59 && 0.0 <= secs < 60.0
    requires Abs(ScaledDegrees(DmsDegrees(k, mins, secs))) <= I64_MAX
    ensures FromDms(-k, mins, secs).Ok? && FromDms(k, mins, secs).Ok?
    ensures FromDms(-k, mins, secs).value.microarcseconds == -FromDms(k, mins, secs).value.microarcseconds
  {
    FromDecimalDegreesNegation(DmsDegrees(k, mins, secs));
  }

  /** The doc-test: 10°30'45" is 10.5125 decimal degrees. */
  lemma FromDmsDocTest()
    ensures FromDms(10, 30, 45.0) == Ok(FromDecimalDegrees(10.5125))
  {
    assert DmsDegrees(10, 30, 45.0) == 10.5125;
  }

  // ----- The shared field helper -------------------------------------------------

  /**
   * The source's floating-point expression for a field, over exact reals:
   * divide the magnitude, take the float remainder (which for a non-negative
   * dividend subtracts the floored quotient), and truncate to an integer.
   */
  function RealField(n: nat, div: nat, modu: nat): int
    requires div > 0 && modu > 0
  {
    var y := n as real / div as real;
    (y - (y / modu as real).Floor as real * modu as real).Floor
  }

  /** Integer division and remainder compute exactly what the real expression does. */
  lemma {:induction false} FieldMatchesRealArithmetic(a: Angle, div: nat, modu: nat)
    requires a.microarcseconds != I64_MIN
    requires div > 0 && modu > 0
    ensures Field(a, div, modu) == RealField(Abs(a.microarcseconds), div, modu)
  {
    var n := Abs(a.microarcseconds);
    var y := n as real / div as real;
    FloorOfQuotient(n, div);
    assert y / modu as real == n as real / (div * modu) as real;
    FloorOfQuotient(n, div * modu);
    DivDiv(n, div, modu);
    var k := n / div / modu;
    assert (y / modu as real).Floor == k;
    var c := k * modu;
    assert (y - c as real).Floor == y.Floor - c;
    assert n / div - c == (n / div) % modu;
  }

  /** The minutes, seconds and milliseconds do not depend on the sign; whole degrees flip with it. */
  lemma ComponentsIgnoreSign(a: Angle)
    requires a.microarcseconds != I64_MIN
    ensures var b := Angle(-a.microarcseconds);
      && WholeDegrees(b) == -WholeDegrees(a)
      && Arcminutes(b) == Arcminutes(a)
      && Arcseconds(b) == Arcseconds(a)
      && Arcmilliseconds(b) == Arcmilliseconds(a)
  {
  }

  /**
   * Within one turn, whole degrees are the count divided by 3.6e9 truncated
   * toward zero (so -154.9 degrees gives -154, not -155).
   */
  lemma WholeDegreesTruncatesTowardZero(a: Angle)
    requires Abs(a.microarcseconds) < 360 * DG_TO_UAS
    ensures var r := WholeDegrees(a);
      && (0 <= a.microarcseconds ==> r * DG_TO_UAS <= a.microarcseconds < (r + 1) * DG_TO_UAS)
      && (a.microarcseconds < 0 ==> (r - 1) * DG_TO_UAS < a.microarcseconds <= r * DG_TO_UAS)
  {
    var n := Abs(a.microarcseconds);
    var w := n / DG_TO_UAS;
    assert w < 360;
    assert WholeDegrees(a) == if a.microarcseconds < 0 then -w else w;
  }

  /** Whole degrees wrap: adding a full turn to a non-negative angle leaves them unchanged. */
  lemma WholeDegreesWrapsAtFullTurn(a: Angle)
    requires 0 <= a.microarcseconds <= I64_MAX - 360 * DG_TO_UAS
    ensures WholeDegrees(Angle(a.microarcseconds + 360 * DG_TO_UAS)) == WholeDegrees(a)
  {
    var n := a.microarcseconds;
    DivModUnique(n + 360 * DG_TO_UAS, DG_TO_UAS, n / DG_TO_UAS + 360, n % DG_TO_UAS);
    DivModUnique(n / DG_TO_UAS + 360, 360, n / DG_TO_UAS / 360 + 1, (n / DG_TO_UAS) % 360);
  }

  /** The number of full turns that whole degrees drop by wrapping modulo 360. */
  function FullTurns(a: Angle): nat
    requires a.microarcseconds != I64_MIN
  {
    Abs(a.microarcseconds) / DG_TO_UAS / 360
  }

  /**
   * The DMS components, with the dropped full turns and the sub-millisecond
   * remainder, add up to the magnitude of the angle.
   */
  lemma {:induction false} DmsDecomposition(a: Angle)
    requires a.microarcseconds != I64_MIN
    ensures Abs(a.microarcseconds)
      == FullTurns(a) * 360 * DG_TO_UAS
       + Abs(WholeDegrees(a)) * DG_TO_UAS
       + Arcminutes(a) * UAS_PER_ARCMINUTE
       + Arcseconds(a) * UAS_PER_ARCSECOND
       + Arcmilliseconds(a) * UAS_PER_ARCMILLISECOND
       + Abs(a.microarcseconds) % 1000
  {
    var n := Abs(a.microarcseconds);
    var q1 := n / 1000;
    var s := n / 1_000_000;
    var t := n / 60_000_000;
    var w := n / DG_TO_UAS;
    DivDiv(n, 1000, 1000);
    DivDiv(n, 1_000_000, 60);
    DivDiv(n, 60_000_000, 60);
    assert q1 / 1000 == s;
    assert s / 60 == t;
    assert t / 60 == w;
    assert n == q1 * 1000 + n % 1000;
    assert q1 == s * 1000 + q1 % 1000;
    assert s == t * 60 + s % 60;
    assert t == w * 60 + t % 60;
    assert w == (w / 360) * 360 + w % 360;
    assert Arcmilliseconds(a) == q1 % 1000;
    assert Arcseconds(a) == s % 60;
    assert Arcminutes(a) == t % 60;
    assert Abs(WholeDegrees(a)) == w % 360;
    assert FullTurns(a) == w / 360;
  }

  /** Below a full turn nothing is dropped: the components rebuild the magnitude. */
  lemma DmsDecompositionWithinFullTurn(a: Angle)
    requires Abs(a.microarcseconds) < 360 * DG_TO_UAS
    ensures Abs(a.microarcseconds)
      == Abs(WholeDegrees(a)) * DG_TO_UAS
       + Arcminutes(a) * UAS_PER_ARCMINUTE
       + Arcseconds(a) * UAS_PER_ARCSECOND
       + Arcmilliseconds(a) * UAS_PER_ARCMILLISECOND
       + Abs(a.microarcseconds) % 1000
  {
    DmsDecomposition(a);
    assert FullTurns(a) == 0;
  }

  /** The seconds argument that carries the arcseconds, arcmilliseconds and leftover microarcseconds. */
  function DmsSeconds(a: Angle): real
    requires a.microarcseconds != I64_MIN
  {
    (Arcseconds(a) * UAS_PER_ARCSECOND
      + Arcmilliseconds(a) * UAS_PER_ARCMILLISECOND
      + Abs(a.microarcseconds) % 1000) as real / 1_000_000.0
  }

  /**
   * Decomposing an angle below a full turn and rebuilding it with `FromDms`
   * gives the angle back, provided its sign survives in the whole degrees
   * (it is non-negative or at least one degree below zero).
   */
  lemma {:induction false} DmsRoundTrip(a: Angle)
    requires Abs(a.microarcseconds) < 360 * DG_TO_UAS
    requires 0 <= a.microarcseconds || a.microarcseconds <= -(DG_TO_UAS as int)
    ensures FromDms(WholeDegrees(a), Arcminutes(a), DmsSeconds(a)) == Ok(a)
  {
    var n := Abs(a.microarcseconds);
    var wd := WholeDegrees(a);
    var m := Arcminutes(a);
    var secs := DmsSeconds(a);
    DmsDecompositionWithinFullTurn(a);
    assert 0.0 <= secs < 60.0;
    assert DmsDegrees(Abs(wd), m, secs) * DG_TO_UAS as real == n as real;
    RoundOfInteger(n);
    RoundOfInteger(-n);
    if a.microarcseconds < 0 {
      assert n / DG_TO_UAS >= 1;
      assert wd < 0;
      assert -DmsDegrees(Abs(wd), m, secs) * DG_TO_UAS as real == (-n) as real;
    }
  }

  /** A negative angle under one degree loses its sign: -0.5 degrees comes back as +0.5 degrees. */
  lemma SubDegreeNegativeLosesSign()
    ensures var a := Angle(-1_800_000_000);
      FromDms(WholeDegrees(a), Arcminutes(a), DmsSeconds(a)) == Ok(Angle(1_800_000_000))
  {
    var a := Angle(-1_800_000_000);
    assert WholeDegrees(a) == 0 && Arcminutes(a) == 30 && DmsSeconds(a) == 0.0;
    assert DmsDegrees(0, 30, 0.0) * DG_TO_UAS as real == 1_800_000_000 as real;
    RoundOfInteger(1_800_000_000);
  }

  // ----- Component test vectors ---------------------------------------------------

  /** The unit tests' decomposition vectors. */
  lemma ComponentVectors()
    ensures FromDecimalDegrees(154.91503).microarcseconds == 557_694_108_000
    ensures var a := Angle(557_694_108_000);
      WholeDegrees(a) == 154 && Arcminutes(a) == 54 && Arcseconds(a) == 54 && Arcmilliseconds(a) == 108
    ensures FromDecimalDegrees(-154.915).microarcseconds == -557_694_000_000
    ensures var a := Angle(-557_694_000_000);
      WholeDegrees(a) == -154 && Arcminutes(a) == 54 && Arcseconds(a) == 54 && Arcmilliseconds(a) == 0
    ensures FromDecimalDegrees(1.0 / 3600000.0).microarcseconds == 1_000
    ensures var a := Angle(1_000);
      WholeDegrees(a) == 0 && Arcminutes(a) == 0 && Arcseconds(a) == 0 && Arcmilliseconds(a) == 1
    ensures FromDecimalDegrees(1000.0 / 3600000.0).microarcseconds == 1_000_000
    ensures var a := Angle(1_000_000);
      WholeDegrees(a) == 0 && Arcminutes(a) == 0 && Arcseconds(a) == 1 && Arcmilliseconds(a) == 0
    ensures FromDecimalDegrees(60000.0 / 3600000.0).microarcseconds == 60_000_000
    ensures var a := Angle(60_000_000);
      WholeDegrees(a) == 0 && Arcminutes(a) == 1 && Arcseconds(a) == 0 && Arcmilliseconds(a) == 0
    ensures var a := Angle(3_600_000_000);
      WholeDegrees(a) == 1 && Arcminutes(a) == 0 && Arcseconds(a) == 0 && Arcmilliseconds(a) == 0
  {
    RoundOfInteger(557_694_108_000);
    RoundOfInteger(-557_694_000_000);
    RoundOfInteger(1_000);
    RoundOfInteger(1_000_000);
    RoundOfInteger(60_000_000);
    assert 154.91503 * DG_TO_UAS as real == 557_694_108_000 as real;
    assert -154.915 * DG_TO_UAS as real == (-557_694_000_000) as real;
    assert 1.0 / 3600000.0 * DG_TO_UAS as real == 1_000 as real;
    assert 1000.0 / 3600000.0 * DG_TO_UAS as real == 1_000_000 as real;
    assert 60000.0 / 3600000.0 * DG_TO_UAS as real == 60_000_000 as real;
  }

  /** The doc-tests on a DMS-built angle: the sign stays in the whole degrees. */
  lemma DmsDocTests()
    ensures FromDms(-154, 3, 42.5).Ok?
    ensures WholeDegrees(FromDms(-154, 3, 42.5).value) == -154
    ensures var a := FromDms(-154, 45, 42.5).value;
      Arcminutes(a) == 45 && Arcseconds(a) == 42 && Arcmilliseconds(a) == 500
  {
    assert DmsDegrees(154, 3, 42.5) * DG_TO_UAS as real == 554_622_500_000 as real;
    assert DmsDegrees(154, 45, 42.5) * DG_TO_UAS as real == 557_142_500_000 as real;
    RoundOfInteger(554_622_500_000);
    RoundNegation(554_622_500_000 as real);
    RoundOfInteger(557_142_500_000);
    RoundNegation(557_142_500_000 as real);
    assert FromDms(-154, 3, 42.5).value == Angle(-554_622_500_000);
    assert FromDms(-154, 45, 42.5).value == Angle(-557_142_500_000);
  }

  // ----- Ordering ----------------------------------------------------------------

  /** Equality and the derived order are decided by the microarcsecond count alone. */
  lemma OrderFollowsMicroarcseconds(a: Angle, b: Angle)
    ensures a == b <==> Microarcseconds(a) == Microarcseconds(b)
    ensures Compare(a, b) == Less <==> Microarcseconds(a) < Microarcseconds(b)
  {
  }

  /** The derived order is a total order: antisymmetric, transitive and total. */
  lemma CompareIsTotalOrder(a: Angle, b: Angle, c: Angle)
    ensures Compare(a, b) == Less <==> Compare(b, a) == Greater
    ensures Compare(a, b) == Equal <==> Compare(b, a) == Equal
    ensures Compare(a, b) != Greater && Compare(b, c) != Greater ==> Compare(a, c) != Greater
    ensures Compare(a, b) == Less && Compare(b, c) == Less ==> Compare(a, c) == Less
  {
  }
}
