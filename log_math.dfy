/**
 * The natural logarithm and the smallest positive double, both left
 * uninterpreted, and the ordering-cost helper `sumLogRange` shared by the
 * transaction cost model and the greedy decoder.
 */
module LogMath {

  /** Positive reals. */
  type PosReal = x: real | x > 0.0 witness 1.0

  /**
   * `Math.log`. Nothing about its values is assumed: every property proved
   * here holds for any function of this type.
   */
  const Log: real -> real

  /** `Double.MIN_VALUE`: some positive number, its value left open. */
  const Eps: PosReal

  /** log(a) + log(a+1) + ... + log(b); zero when the range is empty. */
  function SumLogRange(a: int, b: int): real
    decreases b - a + 1
  {
    if a > b then 0.0 else SumLogRange(a, b - 1) + Log(b as real)
  }

  /**
   * Adjacent ranges add up: sumLogRange(a, m) + sumLogRange(m+1, b) ==
   * sumLogRange(a, b). With a = 1, m = l, b = l + s this is the telescoping of
   * the ordering term of the cost model.
   */
  lemma {:induction false} SumLogRangeSplit(a: int, m: int, b: int)
    requires a - 1 <= m <= b
    ensures SumLogRange(a, m) + SumLogRange(m + 1, b) == SumLogRange(a, b)
    decreases b - m
  {
    if m < b {
      SumLogRangeSplit(a, m, b - 1);
    }
  }

  /** The accumulating loop of `sumLogRange`. */
  method SumLogRangeLoop(a: int, b: int) returns (sum: real)
    ensures sum == SumLogRange(a, b)
  {
    sum := 0.0;
    var i := a;
    while i <= b
      invariant i == a || a <= i <= b + 1
      invariant sum == SumLogRange(a, i - 1)
    {
      sum := sum + Log(i as real);
      i := i + 1;
    }
  }
}
