/** Small helpers shared by every module: an optional value (the source's
    `undefined`), an error-carrying result (the source's `throw`), and the two
    rounding rules the source relies on, `Math.round` and
    `parseFloat(x.toFixed(d))`, stated on exact reals. */
module Prelude {

  datatype Option<+T> = None | Some(value: T)

  datatype Result<+T> = Ok(value: T) | Error(message: string)

  /** `Math.round`: the nearest integer, a half rounded towards +infinity. */
  function RoundHalfUp(x: real): (n: int)
    ensures n as real - 0.5 <= x < n as real + 0.5
  {
    (x + 0.5).Floor
  }

  /** The product of two non-negative reals is non-negative. */
  lemma MulNonNegative(x: real, y: real)
    requires x >= 0.0 && y >= 0.0
    ensures x * y >= 0.0
  {
  }

  /** Rounding never reverses the order of two numbers. */
  lemma RoundHalfUpMonotone(x: real, y: real)
    requires x <= y
    ensures RoundHalfUp(x) <= RoundHalfUp(y)
  {
  }

  /** A number between two integers rounds to an integer between them. */
  lemma RoundHalfUpWithin(x: real, lo: int, hi: int)
    requires lo as real <= x <= hi as real
    ensures lo <= RoundHalfUp(x) <= hi
  {
  }

  /** The rule `toFixed` applies to the exact magnitude: nearest integer, a half
      rounded away from zero. */
  function RoundHalfAwayFromZero(x: real): (n: int)
    ensures x >= 0.0 ==> n >= 0 && n as real - 0.5 <= x < n as real + 0.5
    ensures x < 0.0 ==> n <= 0 && n as real - 0.5 < x <= n as real + 0.5
  {
    if x >= 0.0 then (x + 0.5).Floor else -((0.5 - x).Floor)
  }

  function Pow10(d: nat): (p: real)
    ensures p >= 1.0
  {
    if d == 0 then 1.0 else 10.0 * Pow10(d - 1)
  }

  /** `parseFloat(x.toFixed(d))` on exact reals: `x` rounded to `d` decimal
      places, a whole number of units of the last place that lies within half
      a unit of `x` and keeps the sign of `x`. */
  function ToFixed(x: real, d: nat): (r: real)
    ensures x - 0.5 / Pow10(d) <= r <= x + 0.5 / Pow10(d)
    ensures x >= 0.0 ==> r >= 0.0
    ensures x <= 0.0 ==> r <= 0.0
    ensures OnDecimalGrid(r, d)
  {
    var p := Pow10(d);
    ScaleSign(x, p);
    var n := RoundHalfAwayFromZero(x * p);
    DivideWithin(n as real, x, p);
    OnGrid(n, d);
    n as real / p
  }

  /** Scaling by a positive `p` keeps the sign; a helper for `ToFixed`. */
  lemma ScaleSign(x: real, p: real)
    requires p >= 1.0
    ensures x >= 0.0 ==> x * p >= 0.0
    ensures x <= 0.0 ==> x * p <= 0.0
  {
    if x <= 0.0 {
      MulNonNegative(-x, p);
    }
  }

  /** `r` is a whole number of units of the `d`-th decimal place. */
  predicate OnDecimalGrid(r: real, d: nat) {
    (r * Pow10(d)).Floor as real == r * Pow10(d)
  }

  /** A whole number of `10^-d` units is on the grid; a helper for `ToFixed`. */
  lemma OnGrid(n: int, d: nat)
    ensures OnDecimalGrid(n as real / Pow10(d), d)
  {
    var p := Pow10(d);
    assert (n as real / p) * p == n as real;
  }

  /** Dividing `|a - x p| <= 1/2` by a positive `p`; a helper for `ToFixed`. */
  lemma DivideWithin(a: real, x: real, p: real)
    requires p >= 1.0
    requires x * p - 0.5 <= a <= x * p + 0.5
    ensures x - 0.5 / p <= a / p <= x + 0.5 / p
    ensures a >= 0.0 ==> a / p >= 0.0
    ensures a <= 0.0 ==> a / p <= 0.0
  {
    assert (x * p) / p == x;
    assert (a - x * p) / p == a / p - x;
  }
}
