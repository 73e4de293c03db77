/**
 * The two p5.js numeric helpers the sketch relies on, written as p5 defines
 * them: `constrain(n, low, high) = max(min(n, high), low)` and
 * `lerp(start, stop, amt) = amt * (stop - start) + start`.
 * JavaScript numbers are modelled as `real`.
 */
module P5Math {

  function Min(a: real, b: real): (m: real) { if a <= b then a else b }
  function Max(a: real, b: real): (m: real) { if a >= b then a else b }

  function Abs(x: real): (r: real)
    ensures r >= 0.0 && (r == x || r == -x)
  {
    if x < 0.0 then -x else x
  }

  /** Clamp `n` into `[low, high]`. */
  function Constrain(n: real, low: real, high: real): (r: real)
    ensures low <= high ==> low <= r <= high
    ensures low <= n <= high ==> r == n
    ensures n <= low ==> r == low
    ensures low <= high && high <= n ==> r == high
  {
    Max(Min(n, high), low)
  }

  /** Linear interpolation from `start` (at 0) to `stop` (at 1). */
  function Lerp(start: real, stop: real, amt: real): (r: real)
    ensures amt == 0.0 ==> r == start
    ensures amt == 1.0 ==> r == stop
    ensures start <= stop && 0.0 <= amt <= 1.0 ==> start <= r <= stop
  {
    ScaleWithin(amt, stop - start);
    amt * (stop - start) + start
  }

  /** A fraction in `[0, 1]` of a nonnegative quantity lies between zero and that quantity. */
  lemma ScaleWithin(a: real, b: real)
    ensures 0.0 <= a <= 1.0 && b >= 0.0 ==> 0.0 <= a * b <= b
  {
  }

  /** Squaring is strictly increasing on nonnegative numbers. */
  lemma SquareStrictlyIncreasing(a: real, b: real)
    requires 0.0 <= a < b
    ensures a * a < b * b
  {
    calc {
      a * a;
    <= a * b;
    <  { assert (b - a) * b > 0.0; }
      b * b;
    }
  }

  /** Interpolating with a larger amount never gives a smaller value when `start <= stop`. */
  lemma LerpMonotone(start: real, stop: real, a1: real, a2: real)
    requires start <= stop && a1 <= a2
    ensures Lerp(start, stop, a1) <= Lerp(start, stop, a2)
  {
    ScaleWithin(a1, stop - start);
    assert (a2 - a1) * (stop - start) >= 0.0;
  }
}
