/** Python's `round(x, k)`, taken on exact reals: the nearest multiple of
    10^-k, a tie going to the even multiple. */
module Rounding {

  /** 10^k. */
  function Scale(k: nat): (p: real)
    ensures p >= 1.0
  {
    if k == 0 then 1.0 else 10.0 * Scale(k - 1)
  }

  /** The integer nearest to `x`; of two equally near, the even one. */
  function RoundHalfEven(x: real): (n: int)
    ensures -0.5 <= n as real - x <= 0.5
    ensures (n as real - x == 0.5 || x - n as real == 0.5) ==> n % 2 == 0
  {
    var f := x.Floor;
    var frac := x - f as real;
    if frac < 0.5 then f
    else if frac > 0.5 then f + 1
    else if f % 2 == 0 then f
    else f + 1
  }

  /** The multiple of 1/scale nearest to `x`; of two equally near, the one
      whose multiplier is even. */
  function RoundScaled(x: real, scale: real): real
    requires scale >= 1.0
  {
    RoundHalfEven(x * scale) as real / scale
  }

  /** `round(x, k)`. */
  function Round(x: real, k: nat): real {
    RoundScaled(x, Scale(k))
  }

  /** The rounded value is at most half a unit 1/scale away from `x`. */
  lemma RoundScaledIsNear(x: real, scale: real)
    requires scale >= 1.0
    ensures -0.5 <= (RoundScaled(x, scale) - x) * scale <= 0.5
  {
    var n := RoundHalfEven(x * scale);
    var r := RoundScaled(x, scale);
    assert r * scale == n as real;
    assert (r - x) * scale == n as real - x * scale;
  }
}
