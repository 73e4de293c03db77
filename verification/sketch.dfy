/**
 * The sketch's module-level state and its per-frame simulation step.
 * The host supplies the sensor rotations, the viewport size and the clock.
 */
module Sketch {
  import opened Wrappers
  import opened P5Math
  import opened Physics
  import opened Debounce
  import opened Palette

  class Sketch {
    var permissionGranted: bool
    var cx: real
    var cy: real
    var vx: real
    var vy: real
    var ballColor: Color
    var bgColor: Color
    var lastEdgeAt: real
    /** The viewport size, read by every tick. */
    var width: real
    var height: real

    /** Colours are distinct and neither velocity component exceeds the terminal speed. */
    ghost predicate Valid()
      reads this
    {
      ballColor != bgColor && Abs(vx) <= TerminalSpeed && Abs(vy) <= TerminalSpeed
    }

    ghost function Paint(): Colors
      reads this
    {
      Colors(ballColor, bgColor)
    }

    /** The initial state: ball at rest in the centre, black on white, locked. */
    constructor (windowWidth: real, windowHeight: real)
      ensures Valid()
      ensures !permissionGranted && lastEdgeAt == 0.0
      ensures width == windowWidth && height == windowHeight
      ensures cx == windowWidth / 2.0 && cy == windowHeight / 2.0 && vx == 0.0 && vy == 0.0
      ensures Paint() == Initial
    {
      permissionGranted := false;
      width, height := windowWidth, windowHeight;
      cx, cy := windowWidth / 2.0, windowHeight / 2.0;
      vx, vy := 0.0, 0.0;
      ballColor, bgColor := Black, White;
      lastEdgeAt := 0.0;
    }

    /** The user's grant that arms the engine. */
    method GrantPermission()
      modifies this`permissionGranted
      ensures permissionGranted
      ensures old(Valid()) ==> Valid()
    {
      permissionGranted := true;
    }

    /**
     * A viewport resize. Resizing the canvas redraws at once, so the new size
     * is followed by one frame on it: before permission nothing else changes,
     * after it the body moves one frame inside the resized walls. The results
     * are those of that frame.
     */
    method WindowResized(windowWidth: real, windowHeight: real,
                         rotationX: Option<real>, rotationY: Option<real>, now: real)
      returns (impact: Option<real>, ghost pvx: real, ghost pvy: real, ghost hitX: bool, ghost hitY: bool)
      requires Valid()
      modifies this`width, this`height
      modifies this`cx, this`cy, this`vx, this`vy, this`ballColor, this`bgColor, this`lastEdgeAt
      ensures Valid()
      ensures width == windowWidth && height == windowHeight
      ensures !permissionGranted ==>
                impact == None && cx == old(cx) && cy == old(cy) && vx == old(vx) && vy == old(vy)
      ensures permissionGranted ==>
                && pvx == Integrate(old(vx), Tilt(rotationY))
                && pvy == Integrate(old(vy), Tilt(rotationX))
                && Axis(cx, vx, hitX) == ResolveAxis(old(cx) + pvx, pvx, Radius, windowWidth - Radius)
                && Axis(cy, vy, hitY) == ResolveAxis(old(cy) + pvy, pvy, Radius, windowHeight - Radius)
                && impact.Some? == Admits(hitX || hitY, now, old(lastEdgeAt))
      ensures impact.Some? ==> impact.value == SquaredSpeed(pvx, pvy)
      ensures lastEdgeAt == if impact.Some? then now else old(lastEdgeAt)
      ensures Paint() == if impact.Some? then Swap(old(Paint())) else old(Paint())
      ensures permissionGranted && BallSize <= windowWidth ==> Radius <= cx <= windowWidth - Radius
      ensures permissionGranted && BallSize <= windowHeight ==> Radius <= cy <= windowHeight - Radius
    {
      width, height := windowWidth, windowHeight;
      impact, pvx, pvy, hitX, hitY := Tick(rotationX, rotationY, now);
    }

    /**
     * One frame. `now` is the clock reading of the frame. When the contact
     * passes the debounce gate the result carries the squared impact speed
     * handed to the sound, otherwise it is `None`. The ghost results name the
     * velocity after integration (`pvx`, `pvy`) and whether each axis hit a wall.
     */
    method Tick(rotationX: Option<real>, rotationY: Option<real>, now: real)
      returns (impact: Option<real>, ghost pvx: real, ghost pvy: real, ghost hitX: bool, ghost hitY: bool)
      requires Valid()
      modifies this`cx, this`cy, this`vx, this`vy, this`ballColor, this`bgColor, this`lastEdgeAt
      ensures Valid()
      ensures !permissionGranted ==>
                impact == None && cx == old(cx) && cy == old(cy) && vx == old(vx) && vy == old(vy)
      ensures permissionGranted ==>
                && pvx == Integrate(old(vx), Tilt(rotationY))
                && pvy == Integrate(old(vy), Tilt(rotationX))
                && Axis(cx, vx, hitX) == ResolveAxis(old(cx) + pvx, pvx, Radius, old(width) - Radius)
                && Axis(cy, vy, hitY) == ResolveAxis(old(cy) + pvy, pvy, Radius, old(height) - Radius)
                && impact.Some? == Admits(hitX || hitY, now, old(lastEdgeAt))
      ensures impact.Some? ==> impact.value == SquaredSpeed(pvx, pvy)
      ensures lastEdgeAt == if impact.Some? then now else old(lastEdgeAt)
      ensures Paint() == if impact.Some? then Swap(old(Paint())) else old(Paint())
      ensures permissionGranted && BallSize <= old(width) ==> Radius <= cx <= old(width) - Radius
      ensures permissionGranted && BallSize <= old(height) ==> Radius <= cy <= old(height) - Radius
    {
      if !permissionGranted {
        return None, vx, vy, false, false;
      }

      var dx := Tilt(rotationY);
      var dy := Tilt(rotationX);
      var impactSq, collided;
      impactSq, collided, pvx, pvy, hitX, hitY := Advance(dx, dy);

      var admitted := React(collided, now);
      impact := if admitted then Some(impactSq) else None;
    }

    /**
     * The debounce gate: a contact more than the cooldown after the last
     * reaction swaps the colours and becomes the last reaction.
     */
    method React(collided: bool, now: real) returns (admitted: bool)
      modifies this`ballColor, this`bgColor, this`lastEdgeAt
      ensures admitted == Admits(collided, now, old(lastEdgeAt))
      ensures lastEdgeAt == if admitted then now else old(lastEdgeAt)
      ensures Paint() == if admitted then Swap(old(Paint())) else old(Paint())
    {
      admitted := collided && now - lastEdgeAt > EdgeCooldownMs;
      if admitted {
        var tmp := ballColor;
        ballColor := bgColor;
        bgColor := tmp;
        lastEdgeAt := now;
      }
    }

    /**
     * The physics of one frame under steering `(dx, dy)`: integrate, move,
     * then resolve the walls of each axis. Reports the squared speed before
     * any reflection and whether any wall was hit.
     */
    method Advance(dx: real, dy: real)
      returns (impactSq: real, collided: bool, ghost pvx: real, ghost pvy: real, ghost hitX: bool, ghost hitY: bool)
      modifies this`cx, this`cy, this`vx, this`vy
      ensures pvx == Integrate(old(vx), dx) && pvy == Integrate(old(vy), dy)
      ensures Axis(cx, vx, hitX) == ResolveAxis(old(cx) + pvx, pvx, Radius, old(width) - Radius)
      ensures Axis(cy, vy, hitY) == ResolveAxis(old(cy) + pvy, pvy, Radius, old(height) - Radius)
      ensures collided == (hitX || hitY)
      ensures impactSq == SquaredSpeed(pvx, pvy)
      ensures BallSize <= old(width) ==> Radius <= cx <= old(width) - Radius
      ensures BallSize <= old(height) ==> Radius <= cy <= old(height) - Radius
      ensures Abs(vx) <= Abs(pvx) && Abs(vy) <= Abs(pvy)
    {
      Move(dx, dy);
      pvx, pvy := vx, vy;

      impactSq := SquaredSpeed(vx, vy);
      var wallX := BounceX();
      var wallY := BounceY();
      collided := wallX || wallY;
      hitX, hitY := wallX, wallY;
    }

    /** Integrate the steering into the velocity, then advance the position by it. */
    method Move(dx: real, dy: real)
      modifies this`cx, this`cy, this`vx, this`vy
      ensures vx == Integrate(old(vx), dx) && vy == Integrate(old(vy), dy)
      ensures cx == old(cx) + vx && cy == old(cy) + vy
    {
      vx := vx + dx * Accel;
      vy := vy + dy * Accel;
      vx := vx * Damping;
      vy := vy * Damping;

      cx := cx + vx;
      cy := cy + vy;
    }

    /** The left and right walls: clamp `cx`, reflect an outward `vx`, report a hit. */
    method BounceX() returns (hit: bool)
      modifies this`cx, this`vx
      ensures Axis(cx, vx, hit) == ResolveAxis(old(cx), old(vx), Radius, width - Radius)
    {
      var r := BallSize / 2.0;
      hit := false;
      if cx < r {
        cx := r;
        if vx < 0.0 { hit := true; vx := -vx * Restitution; }
      }
      if cx > width - r {
        cx := width - r;
        if vx > 0.0 { hit := true; vx := -vx * Restitution; }
      }
    }

    /** The top and bottom walls: clamp `cy`, reflect an outward `vy`, report a hit. */
    method BounceY() returns (hit: bool)
      modifies this`cy, this`vy
      ensures Axis(cy, vy, hit) == ResolveAxis(old(cy), old(vy), Radius, height - Radius)
    {
      var r := BallSize / 2.0;
      hit := false;
      if cy < r {
        cy := r;
        if vy < 0.0 { hit := true; vy := -vy * Restitution; }
      }
      if cy > height - r {
        cy := height - r;
        if vy > 0.0 { hit := true; vy := -vy * Restitution; }
      }
    }
  }

  /**
   * A 400 x 400 viewport: a ball heading right at 5 from x = 358 crosses the
   * right wall, is clamped to x = 360, bounces back at three quarters of its
   * speed and swaps the colours.
   */
  method RightWallBounce()
  {
    var s := new Sketch(400.0, 400.0);
    s.GrantPermission();
    s.cx, s.vx := 358.0, 5.0;
    var impact;
    ghost var pvx, pvy, hitX, hitY;
    impact, pvx, pvy, hitX, hitY := s.Tick(None, None, 1000.0);
    assert s.cx == 360.0 && s.vx == -0.75 * 4.925;
    assert s.cy == 200.0 && s.vy == 0.0;
    assert impact == Some(SquaredSpeed(4.925, 0.0));
    assert s.ballColor == White && s.bgColor == Black && s.lastEdgeAt == 1000.0;

    // Pressed against the wall 100 ms later, the same contact is debounced.
    s.vx := 5.0;
    impact, pvx, pvy, hitX, hitY := s.Tick(None, None, 1100.0);
    assert impact == None && s.cx == 360.0;
    assert s.ballColor == White && s.lastEdgeAt == 1000.0;
  }
}
