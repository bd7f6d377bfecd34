/**
 * Integer model of `Math.round(part / whole * 100)` for a positive `whole`.
 * `Math.round(x)` is `floor(x + 1/2)`, and Dafny's `/` on a positive divisor
 * is floor division, so the rounded percentage is `(200 * part + whole) / (2 * whole)`.
 */
module Rounding {

  /** The percentage `100 * part / whole` rounded half up, as `Math.round` does. */
  function RoundPercent(part: int, whole: int): (r: int)
    requires whole > 0
    // r - 1/2 <= 100 * part / whole < r + 1/2
    ensures 2 * whole * r - whole <= 200 * part < 2 * whole * r + whole
  {
    var n, d := 200 * part + whole, 2 * whole;
    assert n == d * (n / d) + n % d && 0 <= n % d < d;
    n / d
  }

  /** Any integer in the rounding window of `100 * part / whole` is the rounded value. */
  lemma RoundPercentUnique(part: int, whole: int, r: int)
    requires whole > 0
    requires 2 * whole * r - whole <= 200 * part < 2 * whole * r + whole
    ensures RoundPercent(part, whole) == r
  {
    var q := RoundPercent(part, whole);
    if q < r {
      // 200 * part < 2 * whole * q + whole <= 2 * whole * (r - 1) + whole
      MulMonotone(whole, q, r - 1);
    } else if q > r {
      MulMonotone(whole, r, q - 1);
    }
  }

  /** The rounded percentage reaches `k` exactly when `100 * part / whole >= k - 1/2`. */
  lemma RoundPercentAtLeast(part: int, whole: int, k: int)
    requires whole > 0
    ensures RoundPercent(part, whole) >= k <==> 200 * part >= (2 * k - 1) * whole
  {
    var r := RoundPercent(part, whole);
    if r >= k {
      MulMonotone(whole, k, r);
    } else {
      MulMonotone(whole, r, k - 1);
    }
  }

  /** More spending against the same total never lowers the rounded percentage. */
  lemma RoundPercentMonotone(part: int, part': int, whole: int)
    requires whole > 0 && part <= part'
    ensures RoundPercent(part, whole) <= RoundPercent(part', whole)
  {
    var r := RoundPercent(part, whole);
    RoundPercentAtLeast(part, whole, r);
    RoundPercentAtLeast(part', whole, r);
  }

  lemma MulMonotone(w: int, a: int, b: int)
    requires w > 0 && a <= b
    ensures w * a <= w * b
  {
    assert w * b - w * a == w * (b - a);
  }
}
