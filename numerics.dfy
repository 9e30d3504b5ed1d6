/**
 * The pieces of Rust's numeric semantics that the angle code relies on:
 * the `i64` range, `f64::round` (idealised over exact reals), the
 * saturating `as i64` cast from a float, and a few facts about integer
 * and real division used by the proofs.
 */
module Numerics {

  const I64_MIN: int := -0x8000_0000_0000_0000
  const I64_MAX: int := 0x7FFF_FFFF_FFFF_FFFF

  /** Rust's `i64`. */
  type Int64 = x: int | I64_MIN <= x <= I64_MAX

  predicate InI64(n: int) {
    I64_MIN <= n <= I64_MAX
  }

  function Abs(x: int): nat {
    if x < 0 then -x else x
  }

  /**
   * `f64::round` on an exact real: the nearest integer, with halfway
   * cases rounded away from zero.
   */
  function RoundHalfAwayFromZero(x: real): (n: int)
    ensures -0.5 <= x - n as real <= 0.5
    ensures x - n as real == 0.5 ==> x < 0.0
    ensures n as real - x == 0.5 ==> x > 0.0
    ensures 0.0 <= x ==> 0 <= n
    ensures x <= 0.0 ==> n <= 0
  {
    if x >= 0.0 then (x + 0.5).Floor else -(0.5 - x).Floor
  }

  /** The three properties of RoundHalfAwayFromZero determine it uniquely. */
  lemma RoundUnique(x: real, m: int)
    requires -0.5 <= x - m as real <= 0.5
    requires x - m as real == 0.5 ==> x < 0.0
    requires m as real - x == 0.5 ==> x > 0.0
    ensures m == RoundHalfAwayFromZero(x)
  {
  }

  /** Rounding an exact integer gives that integer back. */
  lemma RoundOfInteger(k: int)
    ensures RoundHalfAwayFromZero(k as real) == k
  {
    RoundUnique(k as real, k);
  }

  /** Rounding commutes with negation (ties go away from zero on both sides). */
  lemma RoundNegation(x: real)
    ensures RoundHalfAwayFromZero(-x) == -RoundHalfAwayFromZero(x)
  {
    var n := RoundHalfAwayFromZero(x);
    RoundUnique(-x, -n);
  }

  /** Rounding preserves order. */
  lemma RoundMonotone(x: real, y: real)
    requires x <= y
    ensures RoundHalfAwayFromZero(x) <= RoundHalfAwayFromZero(y)
  {
    if x >= 0.0 || y < 0.0 {
    } else {
      assert RoundHalfAwayFromZero(x) <= 0 <= RoundHalfAwayFromZero(y);
    }
  }

  /**
   * Rust's `as i64` applied to a finite float that holds an integer:
   * values beyond the `i64` range saturate at the nearest bound.
   */
  function SaturatingCast(n: int): (r: Int64)
    ensures InI64(n) ==> r == n
    ensures !InI64(n) ==> (r == I64_MIN || r == I64_MAX) && (r < 0 <==> n < 0)
  {
    if n < I64_MIN then I64_MIN else if n > I64_MAX then I64_MAX else n
  }

  /** Integer division is determined by any quotient/remainder pair. */
  lemma DivModUnique(n: int, d: int, q: int, r: int)
    requires d > 0 && 0 <= r < d && n == q * d + r
    ensures n / d == q && n % d == r
  {
    var q', r' := n / d, n % d;
    assert n == q' * d + r' && 0 <= r' < d;
    if q' < q {
      assert (q - q') * d >= d by { MulAtLeast(q - q', d); }
      assert false;
    } else if q < q' {
      assert (q' - q) * d >= d by { MulAtLeast(q' - q, d); }
      assert false;
    }
  }

  lemma MulAtLeast(k: int, d: int)
    requires k >= 1 && d > 0
    ensures k * d >= d
  {
  }

  /** Dividing twice is dividing by the product. */
  lemma DivDiv(n: nat, a: nat, b: nat)
    requires a > 0 && b > 0
    ensures n / a / b == n / (a * b)
  {
    var q, r := n / a, n % a;
    var q2, r2 := q / b, q % b;
    assert n == q * a + r;
    assert q == q2 * b + r2;
    assert n == q2 * (a * b) + (r2 * a + r) by {
      assert q * a == (q2 * b + r2) * a;
    }
    assert r2 * a + r < a * b by {
      assert r2 <= b - 1;
      MulLeq(r2, b - 1, a);
      assert (b - 1) * a == a * b - a;
    }
    assert 0 <= r2 * a;
    DivModUnique(n, a * b, q2, r2 * a + r);
  }

  lemma MulLeq(x: nat, y: nat, a: nat)
    requires x <= y
    ensures x * a <= y * a
  {
  }

  /** The floor of an exact real quotient is the integer quotient. */
  lemma FloorOfQuotient(n: int, d: int)
    requires d > 0
    ensures (n as real / d as real).Floor == n / d
  {
    var q, r := n / d, n % d;
    assert n == q * d + r;
    assert n as real == q as real * d as real + r as real;
    assert n as real / d as real == q as real + r as real / d as real;
    assert 0.0 <= r as real / d as real < 1.0;
  }
}
