/** The exponential moving average both vision modules smooth their inputs with. */
module Smoothing {

  function Abs(x: real): real {
    if x < 0.0 then -x else x
  }

  /**
   * `alpha * raw + (1 - alpha) * prev`: for a factor in [0, 1] the result lies between the
   * previous value and the new sample, and is no farther from the sample than `prev` was.
   */
  function Ema(alpha: real, raw: real, prev: real): (r: real)
    ensures 0.0 <= alpha <= 1.0 ==> (prev <= r <= raw || raw <= r <= prev)
    ensures 0.0 <= alpha <= 1.0 ==> Abs(r - raw) <= Abs(prev - raw)
    ensures alpha == 1.0 ==> r == raw
    ensures alpha == 0.0 ==> r == prev
  {
    var r := alpha * raw + (1.0 - alpha) * prev;
    assert r - raw == (1.0 - alpha) * (prev - raw);
    assert r - prev == alpha * (raw - prev);
    EmaBetween(alpha, raw, prev, r);
    r
  }

  lemma EmaBetween(alpha: real, raw: real, prev: real, r: real)
    requires r - raw == (1.0 - alpha) * (prev - raw) && r - prev == alpha * (raw - prev)
    ensures 0.0 <= alpha <= 1.0 ==> (prev <= r <= raw || raw <= r <= prev)
    ensures 0.0 <= alpha <= 1.0 ==> Abs(r - raw) <= Abs(prev - raw)
  {
    if 0.0 <= alpha <= 1.0 {
      if prev <= raw {
        MulWithin(alpha, raw - prev);
        MulWithin(1.0 - alpha, raw - prev);
      } else {
        MulWithin(alpha, prev - raw);
        MulWithin(1.0 - alpha, prev - raw);
      }
    }
  }

  /** A factor in [0, 1] scales a non-negative value into [0, value]. */
  lemma MulWithin(a: real, b: real)
    requires 0.0 <= a <= 1.0 && 0.0 <= b
    ensures 0.0 <= a * b <= b
  {
    assert b - a * b == (1.0 - a) * b;
  }

  /**
   * The gesture detector's per-wrist smoothing: a stored 0 is the "not started" sentinel and
   * is replaced by the raw sample; otherwise the average moves `alpha` of the way to it.
   */
  function SeededEma(alpha: real, raw: real, prev: real): (r: real)
    ensures prev == 0.0 ==> r == raw
    ensures prev != 0.0 ==> r == Ema(alpha, raw, prev)
  {
    if prev == 0.0 then raw else Ema(alpha, raw, prev)
  }
}
