/** Decimal rounding as `Number.prototype.toFixed` performs it, on exact reals. */
module Decimal {

  function Pow10(n: nat): (r: nat)
    ensures r >= 1
  {
    if n == 0 then 1 else 10 * Pow10(n - 1)
  }

  /** The integer `n` such that `n / 10^places` is `x` written with `places`
      decimals: the nearest such integer, a tie going away from zero (toFixed
      works on the magnitude and puts the sign back). The contract pins `n`
      down uniquely. */
  function ToFixed(x: real, places: nat): (n: int)
    ensures var y := x * Pow10(places) as real;
      x >= 0.0 ==> n >= 0 && y - 0.5 < n as real <= y + 0.5
    ensures var y := x * Pow10(places) as real;
      x < 0.0 ==> n <= 0 && y - 0.5 <= n as real < y + 0.5
  {
    var scale := Pow10(places) as real;
    if x >= 0.0 then (x * scale + 0.5).Floor
    else -((-x) * scale + 0.5).Floor
  }
}
