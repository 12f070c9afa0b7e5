/**
 * Integer arithmetic shared by the dashboard's averages and percentages.
 *
 * Every division in the dashboard is `Math.round(a / b)` with non-negative
 * integer operands; `RoundDiv` is that value computed exactly (halves round up).
 */
module Arith {

  /** `Math.round(a / b)` for `a >= 0`, `b > 0`: the nearest integer, halves upwards. */
  function RoundDiv(a: nat, b: nat): (r: nat)
    requires b > 0
    ensures 2 * b * r <= 2 * a + b < 2 * b * (r + 1)
  {
    (2 * a + b) / (2 * b)
  }

  /** The rounded quotient is the unique integer within half a unit of `a / b`. */
  lemma RoundDivUnique(a: nat, b: nat, r: nat)
    requires b > 0
    requires 2 * b * r <= 2 * a + b < 2 * b * (r + 1)
    ensures RoundDiv(a, b) == r
  {
    var q := RoundDiv(a, b);
    MulCancel(2 * b, q, r + 1);
    MulCancel(2 * b, r, q + 1);
  }

  /** A positive factor can be cancelled from a strict inequality. */
  lemma MulCancel(k: int, x: int, y: int)
    requires k > 0 && k * x < k * y
    ensures x < y
  {
    assert k * (y - x) == k * y - k * x;
  }

  lemma MulMono(k: nat, x: nat, y: nat)
    requires x <= y
    ensures k * x <= k * y
  {
  }

  /** Exact quotients are returned unchanged: `Math.round(k * b / b) == k`. */
  lemma RoundDivExact(k: nat, b: nat)
    requires b > 0
    ensures RoundDiv(k * b, b) == k
  {
    RoundDivUnique(k * b, b, k);
  }

  /** A mean of values bounded by `m` is bounded by `m` after rounding. */
  lemma RoundDivBounded(a: nat, b: nat, m: nat)
    requires b > 0
    requires a <= m * b
    ensures RoundDiv(a, b) <= m
  {
    var r := RoundDiv(a, b);
    assert 2 * b * (m + 1) == 2 * (m * b) + 2 * b;
    MulCancel(2 * b, r, m + 1);
  }

  /** Rounding is monotone in the dividend. */
  lemma RoundDivMonotone(a1: nat, a2: nat, b: nat)
    requires b > 0
    requires a1 <= a2
    ensures RoundDiv(a1, b) <= RoundDiv(a2, b)
  {
    var r1, r2 := RoundDiv(a1, b), RoundDiv(a2, b);
    MulCancel(2 * b, r1, r2 + 1);
  }

  /** `Math.min(x, y)`. */
  function Min(x: int, y: int): (r: int)
    ensures r <= x && r <= y
    ensures r == x || r == y
  {
    if x <= y then x else y
  }
}
