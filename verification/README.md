# gyrosonic: a verified model of the tilt-ball simulation step

gyrosonic is a p5.js sketch. A ball rolls inside the browser window, steered by
the phone's tilt. It bounces off the four edges with some energy lost. When a
bounce gets through a 220 ms debounce, the ball and background colours swap
and a sound plays. Harder hits play at a higher pitch.

This project models the part of `sketch.js` that does this, in Dafny:

- the per-frame step of `draw()`: clamp the tilt, integrate, resolve the walls, debounce, swap the colours;
- the `permissionGranted` short-circuit;
- `windowResized`;
- the speed-to-playback-rate mapping of `playPitchedCollision`.

JavaScript numbers are modelled as `real`.

Modules, one per component of the sketch:

- `P5Math` (`p5math.dfy`): p5's `constrain` and `lerp`, as p5 defines them.
- `Physics` (`physics.dfy`): the tuning constants, tilt clamping, velocity integration and the per-axis wall resolution.
- `Debounce` (`debounce.dfy`): the 220 ms gate, and the reactions it admits over a run of contacts.
- `Palette` (`palette.dfy`): the ball and background colours and their swap.
- `Pitch` (`pitch.dfy`): the impact-speed to playback-rate mapping and the audio-ready guard.
- `Sketch` (`sketch.dfy`): class `Sketch`. Its fields are the sketch's module-level state (`permissionGranted`, `cx`, `cy`, `vx`, `vy`, `ballColor`, `bgColor`, `lastEdgeAt`) plus the viewport size. `Tick` is one call of `draw()`.

Each phase of `draw()` is a method of `Sketch` that updates the fields in place:

- `Move`: the integration.
- `BounceX` and `BounceY`: the two pairs of walls.
- `React`: the debounce and colour swap.

`Advance` runs `Move`, `BounceX` and `BounceY` in order. Every method is proved against the pure functions of `Physics`, `Debounce` and `Palette`. The lemmas about those functions carry the properties.

The class invariant `Valid()` has two parts:

- The two colours differ.
- Neither velocity component exceeds the terminal speed 29.55. This is the fixed point of `v -> (v + 3 * 0.15) * 0.985`. Tilt is clamped to [-3, 3] and a bounce only shrinks a velocity, so every tick keeps the bound.

`Sketch.RightWallBounce` is a client of the class. It walks through a bounce off the right wall of a 400 x 400 viewport, then shows that pressing against that wall 100 ms later is debounced.

The host's inputs are parameters of `Tick`:

- the sensor readings `rotationX` and `rotationY`, as `Option<real>` (`None` is a reading that JavaScript's `||` treats as false, so it becomes 0);
- the clock reading `now`.

The viewport size lives in the `width` and `height` fields. `WindowResized` sets them and then runs the frame that p5's `resizeCanvas` redraws at once. `Tick` returns the squared impact speed when a reaction is admitted. Its ghost results name the velocity after integration and the resolved state of each axis.

## Model

| member | source | states |
|---|---|---|
| P5Math.Constrain | sketch.js:99-100 | the result lies in `[low, high]`; it equals `n` inside the range, `low` below it and `high` above it |
| P5Math.Lerp | sketch.js:168 | amount 0 gives `start`, amount 1 gives `stop`, and an amount in `[0, 1]` stays between them |
| P5Math.LerpMonotone | sketch.js:168 | a larger amount never gives a smaller value when `start <= stop` |
| Physics.Tilt | sketch.js:99-100 | the steering lies in [-3, 3]; a missing reading gives 0; an in-range reading passes through; out-of-range readings saturate at -3 or 3 |
| Physics.Integrate | sketch.js:103-106 | with no steering a nonzero velocity strictly shrinks and keeps its sign; with steering in [-3, 3] a velocity within the terminal speed stays within it |
| Physics.NoSteeringDamps | sketch.js:103-106 | with zero steering the new velocity is exactly `0.985 * v`, so its magnitude is 0.985 of the old one |
| Physics.CoastDecays | sketch.js:103-109 | over any number of ticks without steering or walls the speed never grows, keeps its sign, and strictly drops once a tick has passed |
| Physics.SquaredSpeed | sketch.js:113 | the squared speed, whose square root is the impact speed, is nonnegative |
| Physics.ResolveAxis | sketch.js:116-131 | when the area is at least as wide as the ball, the position ends in `[r, extent - r]`; resolution never increases the speed |
| Physics.WallHitIsOutwardCrossing | sketch.js:116-131 | a wall counts as hit exactly when the body crossed it moving outward; a hit sets the velocity to `-v * 0.75`, which points back inside; a miss leaves the velocity unchanged; a crossed wall always clamps the position |
| Physics.InsideIsUntouched | sketch.js:116-131 | a body already inside is neither moved nor deflected, and no hit is reported |
| Physics.NarrowAreaEndsAtHighWall | sketch.js:116-123 | in an area narrower than the ball, the high wall's clamp runs after the low wall's, so the body ends at the high wall |
| Physics.NarrowAreaDoubleReflection | sketch.js:116-123 | in an area narrower than the ball, an outward crossing of the low wall is reflected twice in one tick and ends at `0.75^2` of the velocity, pointing outward again |
| Physics.RightWallScenario | sketch.js:120-123 | in a 400-wide area, a ball at x = 365 moving right at 5 is clamped to x = 360 and bounces back at -3.75 |
| Debounce.GateStaysArmed | sketch.js:133 | without a contact nothing is admitted; a contact the gate admits at some time would also be admitted at any later time |
| Debounce.CooldownIsStrict | sketch.js:133 | a contact exactly 220 ms after the last reaction is dropped, and one a millisecond later is admitted |
| Debounce.AdmittedTimesSnoc | sketch.js:133-136 | a contact appended to a run is admitted exactly when it comes more than 220 ms after the run's last reaction; the earlier admissions are unchanged |
| Debounce.AdmittedTimesSpaced | sketch.js:133-136 | over any run of contact times, the admitted ones are among the contacts; the first comes more than 220 ms after the last reaction; consecutive admitted ones are more than 220 ms apart; and the gate re-arms: each contact is admitted exactly when it comes more than 220 ms after the latest admission before it |
| Debounce.LastAdmittedIsLastReaction | sketch.js:133-136 | after a run of contacts, `lastEdgeAt` is the last admitted time, or unchanged if none was admitted |
| Debounce.CooldownScenario | sketch.js:133-136 | contacts at T, T+100 and T+221, the first admitted, give exactly two reactions: at T and at T+221 |
| Palette.Swap | sketch.js:135 | the swap exchanges the ball and background colours, and keeps distinct colours distinct |
| Palette.AdmissionsAlternate | sketch.js:135 | after n admissions the colours are the original pair when n is even and the swapped pair when n is odd; distinct colours stay distinct |
| Palette.InitialStaysDistinct | sketch.js:29-30 | starting from black on white, the ball and background colours differ after any number of admissions |
| Pitch.Strength | sketch.js:167 | `t` lies in [0, 1]; it is 0 for speeds at most 1.5 and 1 for speeds at least 12; inside that range it is the linear position of the speed |
| Pitch.PlaybackRate | sketch.js:167-168 | the rate lies in [0.75, 1.6]; it is 0.75 for speeds at most 1.5 and 1.6 for speeds at least 12 |
| Pitch.RateMonotone | sketch.js:167-168 | a harder impact never gives a lower rate |
| Pitch.RateStrictlyIncreasingInRange | sketch.js:167-168 | between speeds 1.5 and 12, a harder impact gives a strictly higher rate |
| Pitch.RateMidpoint | sketch.js:159-168 | the midpoint speed 6.75 maps to the midpoint rate 1.175 |
| Pitch.PlayPitchedCollision | sketch.js:155-168 | a rate is produced exactly when the audio is ready and at least one sample is held, and it is the mapped rate in [0.75, 1.6] |
| Pitch.RateFromSquaredSpeed | sketch.js:113 | the rate thresholds hold on the squared speed: for a nonnegative speed `s`, `s*s <= 2.25` gives 0.75 and `s*s >= 144` gives 1.6 |
| Pitch.RateMonotoneInSquaredSpeed | sketch.js:113 | for nonnegative speeds, a larger squared speed never gives a lower rate |
| Sketch.Sketch.constructor | sketch.js:1-30 | the initial state: not yet permitted, ball at rest in the centre of the viewport, black ball on white, `lastEdgeAt` 0, invariant established |
| Sketch.Sketch.GrantPermission | sketch.js:83 | arms the engine; only `permissionGranted` changes and the invariant is kept |
| Sketch.Sketch.WindowResized | sketch.js:147-149 | the viewport takes the new size, and the immediate redraw then runs one frame on it: before permission the body, colours and `lastEdgeAt` are untouched; after it the body moves one frame within the resized walls, with the same relations as `Tick` |
| Sketch.Sketch.Tick | sketch.js:90-140 | without permission nothing changes. With permission: the velocity is integrated from the clamped tilt, and each axis is resolved against its walls from the moved position. The squared impact speed is taken before any reflection. A reaction is admitted exactly when the gate admits the contact of either axis, and that sets `lastEdgeAt` to `now` and swaps the colours; otherwise both stay. The position is within the walls whenever the viewport is at least as large as the ball. The invariant is kept |
| Sketch.Sketch.Advance | sketch.js:102-131 | integration, then the x walls, then the y walls. `collided` is the disjunction of the two axes' hits, and the squared speed is that of the integrated, pre-reflection velocity |
| Sketch.Sketch.Move | sketch.js:102-109 | each velocity component becomes `(v + d * 0.15) * 0.985`, and the position advances by the new velocity |
| Sketch.Sketch.BounceX | sketch.js:116-123 | the left and right walls update `cx` and `vx` as `ResolveAxis` does with bounds `[40, width - 40]` |
| Sketch.Sketch.BounceY | sketch.js:124-131 | the top and bottom walls update `cy` and `vy` as `ResolveAxis` does with bounds `[40, height - 40]` |
| Sketch.Sketch.React | sketch.js:133-136 | the gate admits exactly when `Admits` does; admission sets `lastEdgeAt` to `now` and swaps the colours; otherwise neither changes |

## Left out

- Rendering is left out. This covers `background`, `fill`, `stroke`, `ellipse` and the idle-frame `rect`, and also `setup`'s canvas creation and DOM lookups. None of it affects the simulated state.
- `onEnableClicked` is left out except for its `permissionGranted = true` (`GrantPermission`). It unlocks the audio context, asks for the iOS motion permissions and loads the samples asynchronously, which is browser I/O. `audioReady` and `samples.length` are inputs of `Pitch.PlayPitchedCollision`. The loader stores each sample at its own index, so `samples.length` is one past the highest index loaded so far, not the number of samples loaded. `audioReady` only becomes true once all 14 samples have loaded; the loader itself is not modelled.
- The sample playback is left out: `random(samples)`, `isLoaded()`, `getAudioContext().resume()`, `rate()` and `play()`. These are a random choice and foreign p5.sound calls. The model stops at the rate that would be set.
- The sensor source and the clock are parameters of `Tick`: `rotationX`/`rotationY` and `millis()`. The sketch reads `millis()` twice in one frame. The model uses one reading `now` for both the comparison and the new `lastEdgeAt`.
- Sketch.Sketch.Tick: returns the squared impact speed rather than `Math.hypot`'s square root, which has no counterpart over Dafny's reals. `Pitch.RateFromSquaredSpeed` and `Pitch.RateMonotoneInSquaredSpeed` carry the rate properties over to the squared speed. The hand-off from `Tick` to `playPitchedCollision` is the returned value.
- IEEE-754 rounding is not modelled. All arithmetic is exact over `real`.
- The idle `draw()` frame before permission still paints the background and a box. The model only states that no simulated state changes in that frame.
