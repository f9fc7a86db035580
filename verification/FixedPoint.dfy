/** Decimal arithmetic in ten-thousandths: exact fractions rounded half up to whole units. */
module FixedPoint {
  const ONE := 10_000

  /** The fraction over the denominator, rounded half up to a whole number. */
  function RoundHalfUp(numerator: nat, denominator: nat): nat
    requires denominator > 0
  {
    (2 * numerator + denominator) / (2 * denominator)
  }

  lemma DivisionBounds(a: nat, d: nat)
    requires d > 0
    ensures d * (a / d) <= a < d * (a / d) + d
  {
  }

  /** Rounding errs by at most one half, and upwards on a tie. */
  lemma RoundingError(numerator: nat, denominator: nat)
    requires denominator > 0
    ensures 2 * denominator * RoundHalfUp(numerator, denominator) <= 2 * numerator + denominator
    ensures 2 * numerator < 2 * denominator * RoundHalfUp(numerator, denominator) + denominator
  {
    DivisionBounds(2 * numerator + denominator, 2 * denominator);
  }

  lemma Below(a: nat, b: nat, d: nat)
    requires d > 0 && 2 * d * a < 2 * d * b + 2 * d
    ensures a <= b
  {
    assert a >= b + 1 ==> 2 * d * a >= 2 * d * (b + 1);
  }

  /** Rounding keeps the order of fractions over one denominator. */
  lemma RoundingMonotone(a: nat, b: nat, denominator: nat)
    requires denominator > 0 && a <= b
    ensures RoundHalfUp(a, denominator) <= RoundHalfUp(b, denominator)
  {
    RoundingError(a, denominator);
    RoundingError(b, denominator);
    Below(RoundHalfUp(a, denominator), RoundHalfUp(b, denominator), denominator);
  }

  /** Whole numbers are left as they are. */
  lemma RoundingExact(n: nat, denominator: nat)
    requires denominator > 0
    ensures RoundHalfUp(n * denominator, denominator) == n
  {
    RoundingError(n * denominator, denominator);
    var r := RoundHalfUp(n * denominator, denominator);
    assert 2 * (n * denominator) == 2 * denominator * n;
    Below(r, n, denominator);
    Below(n, r, denominator);
  }

  /** A fraction that is at most a whole number rounds to at most that number. */
  lemma RoundingAtMost(numerator: nat, denominator: nat, n: nat)
    requires denominator > 0 && numerator <= n * denominator
    ensures RoundHalfUp(numerator, denominator) <= n
  {
    RoundingMonotone(numerator, n * denominator, denominator);
    RoundingExact(n, denominator);
  }

  /** Rounding commutes with adding whole numbers. */
  lemma RoundingShifts(numerator: nat, denominator: nat, n: nat)
    requires denominator > 0
    ensures RoundHalfUp(numerator + n * denominator, denominator) == RoundHalfUp(numerator, denominator) + n
  {
    var r, s := RoundHalfUp(numerator, denominator), RoundHalfUp(numerator + n * denominator, denominator);
    RoundingError(numerator, denominator);
    RoundingError(numerator + n * denominator, denominator);
    assert 2 * denominator * (r + n) == 2 * denominator * r + 2 * (n * denominator);
    Below(s, r + n, denominator);
    Below(r + n, s, denominator);
  }

  /** A fraction rounds to something exactly when it is at least one half. */
  lemma RoundingPositive(numerator: nat, denominator: nat)
    requires denominator > 0
    ensures RoundHalfUp(numerator, denominator) > 0 <==> 2 * numerator >= denominator
  {
    var r := RoundHalfUp(numerator, denominator);
    RoundingError(numerator, denominator);
    if 2 * numerator < denominator {
      assert 2 * denominator * r < 2 * denominator * 0 + 2 * denominator;
      Below(r, 0, denominator);
    }
  }
}
