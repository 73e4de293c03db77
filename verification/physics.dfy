/**
 * One tick of the body's physics: steering input, velocity integration with
 * acceleration and damping, and the per-axis wall clamp with reflection.
 */
module Physics {
  import opened Wrappers
  import opened P5Math

  const BallSize: real := 80.0
  /** The ball's radius, `ballSize / 2`. */
  const Radius: real := BallSize / 2.0
  const Accel: real := 0.15
  const Damping: real := 0.985
  const Restitution: real := 0.75
  /** Largest steering magnitude after clamping. */
  const MaxTilt: real := 3.0
  /**
   * Terminal speed of one velocity component under the largest steering:
   * the fixed point of `v -> (v + MaxTilt * Accel) * Damping`.
   */
  const TerminalSpeed: real := 29.55

  /**
   * Steering from one sensor reading: `constrain(rotation || 0, -3, 3)`.
   * `None` stands for a reading JavaScript treats as false (undefined, null, NaN).
   */
  function Tilt(rotation: Option<real>): (d: real)
    ensures -MaxTilt <= d <= MaxTilt
    ensures rotation.None? ==> d == 0.0
    ensures rotation.Some? && -MaxTilt <= rotation.value <= MaxTilt ==> d == rotation.value
    ensures rotation.Some? && rotation.value <= -MaxTilt ==> d == -MaxTilt
    ensures rotation.Some? && rotation.value >= MaxTilt ==> d == MaxTilt
  {
    Constrain(if rotation.Some? then rotation.value else 0.0, -MaxTilt, MaxTilt)
  }

  /** New velocity component: `v += d * accel; v *= damping`. */
  function Integrate(v: real, d: real): (r: real)
    ensures d == 0.0 && v != 0.0 ==> Abs(r) < Abs(v) && (r < 0.0 <==> v < 0.0)
    ensures -MaxTilt <= d <= MaxTilt && Abs(v) <= TerminalSpeed ==> Abs(r) <= TerminalSpeed
  {
    (v + d * Accel) * Damping
  }

  /** With no steering a velocity component shrinks by exactly the damping factor. */
  lemma NoSteeringDamps(v: real)
    ensures Integrate(v, 0.0) == Damping * v
    ensures v != 0.0 ==> Abs(Integrate(v, 0.0)) == Damping * Abs(v) < Abs(v)
  {
  }

  /** A velocity component after `n` ticks with no steering and no wall contact. */
  function Coast(v: real, n: nat): (r: real)
    decreases n
  {
    if n == 0 then v else Coast(Integrate(v, 0.0), n - 1)
  }

  /** Without steering the speed never grows, keeps its sign and strictly drops while nonzero. */
  lemma {:induction false} CoastDecays(v: real, n: nat)
    ensures Abs(Coast(v, n)) <= Abs(v)
    ensures n > 0 && v != 0.0 ==> Abs(Coast(v, n)) < Abs(v)
    ensures v > 0.0 ==> Coast(v, n) > 0.0
    ensures v < 0.0 ==> Coast(v, n) < 0.0
    decreases n
  {
    if n > 0 {
      CoastDecays(Integrate(v, 0.0), n - 1);
    }
  }

  /**
   * The squared speed `vx*vx + vy*vy`; the impact speed the sketch computes
   * with `Math.hypot` is its nonnegative square root.
   */
  function SquaredSpeed(vx: real, vy: real): (q: real)
    ensures q >= 0.0
  {
    vx * vx + vy * vy
  }

  /** Position, velocity and contact flag of one axis during wall resolution. */
  datatype Axis = Axis(pos: real, vel: real, hit: bool)

  /** The wall at the low end: clamp, and reflect only a velocity pointing out of the area. */
  function LowWall(a: Axis, lo: real): (b: Axis)
  {
    if a.pos < lo then
      if a.vel < 0.0 then Axis(lo, -a.vel * Restitution, true) else Axis(lo, a.vel, a.hit)
    else a
  }

  /** The wall at the high end, mirror image of `LowWall`. */
  function HighWall(a: Axis, hi: real): (b: Axis)
  {
    if a.pos > hi then
      if a.vel > 0.0 then Axis(hi, -a.vel * Restitution, true) else Axis(hi, a.vel, a.hit)
    else a
  }

  /**
   * Both walls of one axis, low wall first, as the sketch tests them. When
   * the area is at least as wide as the ball (`lo <= hi`) the body ends
   * inside it; in every case the resolution never speeds the body up.
   */
  function ResolveAxis(pos: real, vel: real, lo: real, hi: real): (a: Axis)
    ensures lo <= hi ==> lo <= a.pos <= hi
    ensures Abs(a.vel) <= Abs(vel)
  {
    HighWall(LowWall(Axis(pos, vel, false), lo), hi)
  }

  /**
   * In an area at least as wide as the ball a wall is hit exactly when the
   * body crossed it moving outward; a hit reflects the velocity with
   * restitution so that it points back inside, and a miss leaves it alone.
   */
  lemma WallHitIsOutwardCrossing(pos: real, vel: real, lo: real, hi: real)
    requires lo <= hi
    ensures var a := ResolveAxis(pos, vel, lo, hi);
            && (a.hit <==> (pos < lo && vel < 0.0) || (pos > hi && vel > 0.0))
            && a.vel == (if a.hit then -vel * Restitution else vel)
            && (a.hit ==> Abs(a.vel) == Restitution * Abs(vel) < Abs(vel))
            && (pos < lo ==> a.pos == lo && a.vel >= 0.0)
            && (pos > hi ==> a.pos == hi && a.vel <= 0.0)
  {
  }

  /** A body inside the area is neither moved nor deflected. */
  lemma InsideIsUntouched(pos: real, vel: real, lo: real, hi: real)
    requires lo <= pos <= hi
    ensures ResolveAxis(pos, vel, lo, hi) == Axis(pos, vel, false)
  {
  }

  /** In an area narrower than the ball the body always ends at the high wall. */
  lemma NarrowAreaEndsAtHighWall(pos: real, vel: real, lo: real, hi: real)
    requires hi < lo
    ensures ResolveAxis(pos, vel, lo, hi).pos == hi
  {
  }

  /**
   * In an area narrower than the ball, a body that crossed the low wall moving
   * outward is reflected by both walls in the same tick and ends moving
   * outward again, at `Restitution^2` of its speed.
   */
  lemma NarrowAreaDoubleReflection(pos: real, vel: real, lo: real, hi: real)
    requires hi < lo && pos < lo && vel < 0.0
    ensures ResolveAxis(pos, vel, lo, hi) == Axis(hi, Restitution * Restitution * vel, true)
  {
  }

  /** Scenario: 400-wide area, radius 40, body moving right at 5 lands past 360. */
  lemma RightWallScenario()
    ensures ResolveAxis(365.0, 5.0, Radius, 400.0 - Radius) == Axis(360.0, -3.75, true)
  {
  }
}
