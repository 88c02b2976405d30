# Koi ecosystem and falling movers: the force-and-integration kernel

A Dafny model of the physics shared by two p5.js sketches from *The Nature of
Code* in JavaScript.

- `koiEcoSystem.js` holds predator and prey koi. Each koi carries a location,
  a velocity, an acceleration accumulator, a mass, a role-dependent
  `maxSpeed` and a role-dependent `G`. `attract` is a softened, range-limited
  inverse-square rule that branches on whether the two koi share a role.
  `applyForce` adds `force / mass` to the accumulator. `update` takes one
  Euler step, clamps the speed in place and clears the accumulator.
  `checkEdges` snaps a coordinate that left the 900 by 900 canvas back onto
  the wall it crossed and flips that velocity component. In each frame the
  agents take their turns in index order.
- `dayOne.js` holds falling `Mover`s. They use the same accumulator and edge
  policy, but `update` has no speed clamp. Each frame applies gravity scaled
  by mass, then friction (`calculateFraction`), then quadratic drag
  (`calculateDrag`). Drag acts only strictly inside the `Liquid` rectangle.
  Wind is added while the mouse is pressed.

Everything is over Dafny's `real`. Vectors are immutable `Vec(x, y)` values.
Every p5 method that mutates its receiver becomes a function that returns the
updated value.

Reals have no square root. Every member that needs a magnitude takes the
root as a parameter `sqrt: real -> real`. The requirement `IsSqrt(sqrt)`
says the root is non-negative and squares back to its argument for
non-negative arguments. Nothing else about it is assumed.

`Normalize` leaves the zero vector unchanged. p5's `normalize` does that, but
p5 is not part of this model, so this is an assumption about it.

Two places where the code, which the model follows, differs from what one
might expect:

- The same-role branch of `attract` is live code, not a floating-point
  coincidence. `distance` is assigned the literal `100` whenever the raw
  distance is at most 100 (koiEcoSystem.js:69). So `distance === 100` means
  exactly "raw distance at most 100". Two koi of the same role 50 apart
  push with `0.01 d`, a force of magnitude 0.5, not 0
  (`KoiEcoSystem.EffectiveDistance`, `KoiEcoSystem.SameRoleMagnitude`).
- Only the koi clamp their speed. `Mover` sets `maxSpeed = 10` but its
  `update` never reads it (`DayOne.UpdateIgnoresMaxSpeed`,
  `DayOne.NoSpeedClamp`).

Modules:

- `Reals` (`reals.dfy`): facts about real products that the vector proofs
  use.
- `Vectors` (`vectors.dfy`): the part of `p5.Vector` the sketches use.
- `Edges` (`edges.dfy`): the edge policy both `checkEdges` methods share.
- `KoiEcoSystem` (`koi.dfy`): the `Koi` class.
- `KoiFrame` (`koi_frame.dfy`): the sequential i/j loop of the koi
  `p.draw`. `Processed(ks, n)` is the state after the first `n` turns.
- `DayOne` (`movers.dfy`): `Mover`, `Liquid`, the two force helpers and the
  per-ball frame.

## Model

| member | source | states |
|---|---|---|
| Vectors.Mag | koiEcoSystem.js:69 | the magnitude is non-negative, squares to `magSq`, and is zero exactly when `magSq` is zero |
| Vectors.MagZero | dayOne.js:85 | the magnitude is zero exactly for the zero vector |
| Vectors.MagUnique | koiEcoSystem.js:69 | any non-negative root of `magSq` is the magnitude |
| Vectors.Normalize | koiEcoSystem.js:79 | a non-zero vector becomes a unit vector that scales back to the input by its magnitude; the zero vector is left unchanged |
| Vectors.NormalizeUnit | dayOne.js:88 | normalizing the zero vector gives the zero vector; any other vector gets length 1 |
| Vectors.NormalizeDot | koiEcoSystem.js:79 | the normalized vector's dot product with the input is the input's magnitude, so it points along the input |
| Vectors.NormalizeNeg | dayOne.js:77-79 | normalizing the reversed copy gives the reversed unit vector |
| Vectors.Div | koiEcoSystem.js:90 | dividing by a non-zero mass is undone by scaling back by that mass |
| Vectors.Accumulate | koiEcoSystem.js:89-92 | the accumulator grows by a vector that, times the mass, is exactly the force |
| Vectors.AccumulateInverse | dayOne.js:26-29 | accumulating `F` and then `-F` restores the accumulator |
| Edges.ReflectAxis | koiEcoSystem.js:56-59 | an in-range coordinate keeps its position and velocity; one beyond the bound snaps to the bound, one below 0 snaps to 0, and in both cases the velocity is negated; the result is in range whenever the bound is non-negative |
| Edges.CheckEdges | dayOne.js:37-46 | after the check both coordinates are inside the bounds; each axis is handled on its own: an in-range axis is unchanged, an out-of-range axis has its velocity negated, a coordinate beyond the bound snaps to the bound and one below 0 snaps to 0 |
| Edges.CheckEdgesInside | koiEcoSystem.js:55-64 | a location already inside the bounds is a fixed point of the edge check |
| Edges.CheckEdgesIdempotent | koiEcoSystem.js:55-64 | checking the edges twice is the same as checking them once |
| Edges.CheckEdgesKeepsSpeed | koiEcoSystem.js:57-61 | flipping velocity components keeps the speed |
| KoiEcoSystem.NewKoi | koiEcoSystem.js:12-24 | a new koi has zero acceleration, the given location, velocity, mass and role (prey by default), `maxSpeed` 2 for predators and 3 for prey, and `G` 0.1 for predators and 0.05 for prey |
| KoiEcoSystem.NewKoiPrey | koiEcoSystem.js:122-130 | a koi built without a role argument is prey, with `maxSpeed` 3 and `G` 0.05 |
| KoiEcoSystem.NewKoiValid | koiEcoSystem.js:15-23 | a new koi with positive mass satisfies the role invariant; predators are slower and have the larger `G` |
| KoiEcoSystem.EffectiveDistance | koiEcoSystem.js:67-69 | the effective distance is `max(abs(d), 100)`: never below 100, and equal to the literal 100 exactly when the raw distance is at most 100 |
| KoiEcoSystem.Strength | koiEcoSystem.js:76-77 | the inverse-square strength is non-negative for non-negative `G` and masses, and positive for positive ones |
| KoiEcoSystem.Attract | koiEcoSystem.js:66-87 | same role: `0.01 d` with `d` not normalized when the raw distance is at most 100, else the zero vector; prey are not pushed at distance 10000 or more; a predator is not pulled at distance 20000 or more |
| KoiEcoSystem.Gain | koiEcoSystem.js:81-85 | the factor on the unit offset is 0 for prey at distance 10000 or more and for a predator at distance 20000 or more; for valid koi it is positive for prey and negative for a predator inside that range |
| KoiEcoSystem.SameRoleMagnitude | koiEcoSystem.js:71-74 | within distance 100 the same-role force has magnitude `0.01 abs(d)`, not 0.01 |
| KoiEcoSystem.AttractAlongOffset | koiEcoSystem.js:76-86 | across roles the force lies along `d`: scaled by `abs(d)` it equals `d` scaled by the gain, so it is `Normalize(d) * gain` |
| KoiEcoSystem.AttractCoincident | koiEcoSystem.js:79-86 | across roles, koi at the same place exert no force, since the normalized zero offset is zero |
| KoiEcoSystem.AttractDot | koiEcoSystem.js:76-86 | across roles the force's dot product with `d` is exactly the gain times `abs(d)` |
| KoiEcoSystem.PreyFlees | koiEcoSystem.js:76-86 | a prey's force has a non-negative dot product with `d`, so it points away from the predator |
| KoiEcoSystem.PredatorChases | koiEcoSystem.js:76-86 | a predator's force has a non-positive dot product with `d`, so it points towards the prey |
| KoiEcoSystem.AttractMagnitude | koiEcoSystem.js:76-86 | across roles, for koi at different places, the force's magnitude is the gain: `20 G m m' / dist^2` for prey inside range 10000 and `100 G m m' / dist^2` for a predator inside range 20000, and 0 outside the range |
| KoiEcoSystem.PursuitAndFlight | koiEcoSystem.js:81-85 | for a prey and a predator, both forces point the same way along the line from the predator to the prey |
| KoiEcoSystem.ApplyForce | koiEcoSystem.js:89-92 | `applyForce(F)` adds exactly `F / mass` to the accumulator and changes nothing else |
| KoiEcoSystem.ApplyForceInverse | koiEcoSystem.js:89-92 | `applyForce(F)` followed by `applyForce(-F)` restores the koi |
| KoiEcoSystem.ApplyForceCommutes | koiEcoSystem.js:89-92 | two forces may be applied in either order |
| KoiEcoSystem.Update | koiEcoSystem.js:94-103 | the accumulator is cleared, the location moves by the new velocity, the velocity is `v + a` when that is within `maxSpeed`, and nothing else changes |
| KoiEcoSystem.UpdateClamps | koiEcoSystem.js:95-99 | when `abs(v + a)` exceeds `maxSpeed`, the new velocity has length `maxSpeed` and the direction of `v + a` |
| KoiEcoSystem.UpdateSpeedBound | koiEcoSystem.js:94-103 | after `update` the speed is at most `maxSpeed` |
| KoiEcoSystem.CheckEdges | koiEcoSystem.js:55-64 | after the check the location lies in [0, 900] on both axes, the speed is unchanged, the result is the shared edge policy, and only location and velocity change |
| KoiFrame.AttractIgnoresAcceleration | koiEcoSystem.js:66-87 | `attract` does not read the accumulator of `self` |
| KoiFrame.Pull | koiEcoSystem.js:146-151 | the reference sum over every `j != i` of `attract / mass`, taken one force at a time, is the net force (the sum of the `attract` results) divided by the mass |
| KoiFrame.Gather | koiEcoSystem.js:146-151 | the inner loop adds to the accumulator the reference sum over every `j != i` and changes nothing else; the accumulator grows by exactly the net force divided by the mass |
| KoiFrame.NoSelfAttraction | koiEcoSystem.js:147 | whatever stands at index `i` adds nothing to agent `i`'s sum |
| KoiFrame.LoneKoi | koiEcoSystem.js:145-151 | a lone koi gathers no force |
| KoiFrame.StepAgent | koiEcoSystem.js:145-153 | after its turn an agent keeps mass and role, has a cleared accumulator, an in-bounds location and at most its top speed |
| KoiFrame.Processed | koiEcoSystem.js:145-155 | taking turns keeps the number of agents and the role invariant of each |
| KoiFrame.ProcessedFacts | koiEcoSystem.js:145-155 | after `n` turns the first `n` agents have a cleared accumulator, an in-bounds location and at most their top speed, the rest are untouched, and no agent changes mass or role |
| KoiFrame.ProcessedStable | koiEcoSystem.js:145-155 | later turns never touch an agent that has already taken its turn |
| KoiFrame.SequentialTurns | koiEcoSystem.js:145-155 | agent `i`'s final state is its turn taken on a state in which the agents before it have already moved and the agents after it have not |
| KoiFrame.Frame | koiEcoSystem.js:145-155 | after a frame every agent has zero acceleration, an in-bounds location, at most its top speed, and its original mass and role |
| DayOne.NewMover | dayOne.js:8-14 | a new mover has zero acceleration, the given location, velocity and mass, and `maxSpeed` 10 |
| DayOne.SketchLiquid | dayOne.js:106 | the sketch's liquid is the bottom quarter of the canvas, full width, with `c` 50 |
| DayOne.ApplyForce | dayOne.js:26-29 | `applyForce(F)` adds exactly `F / mass` to the accumulator and changes nothing else |
| DayOne.GravityIgnoresMass | dayOne.js:124 | applying `gravityAcc * mass` raises the acceleration by exactly `gravityAcc`, whatever the mass |
| DayOne.Update | dayOne.js:31-35 | the velocity grows by the acceleration, the location by the new velocity, the accumulator is cleared, and nothing else changes |
| DayOne.UpdateIgnoresMaxSpeed | dayOne.js:13 | `maxSpeed` plays no part in `update` |
| DayOne.NoSpeedClamp | dayOne.js:31-35 | a new mover faster than 10 is still faster than its `maxSpeed` after `update` |
| DayOne.RestingBallFalls | dayOne.js:26-35 | a mover at rest with only gravity ends one update with velocity `(0, 0.3)` and its location moved by `(0, 0.3)` |
| DayOne.CheckEdges | dayOne.js:37-46 | after the check the location lies in [0, innerWidth] by [0, innerHeight] for a non-negative window size, and the result is the shared edge policy |
| DayOne.CalculateFraction | dayOne.js:76-82 | friction is the unit velocity reversed and scaled by `frictionC`; the velocity itself is not changed |
| DayOne.FrictionAtRest | dayOne.js:76-82 | an object at rest feels no friction |
| DayOne.FrictionOpposes | dayOne.js:76-82 | for a moving object friction's dot product with the velocity is `-frictionC abs(v)`, so friction opposes the motion |
| DayOne.FrictionMagnitude | dayOne.js:76-82 | for a moving object friction has magnitude `frictionC` |
| DayOne.CalculateDrag | dayOne.js:84-92 | drag is the unit velocity reversed and scaled by `0.5 density abs(v)^2 dragC`; the velocity itself is not changed |
| DayOne.DragAtRest | dayOne.js:84-92 | an object at rest feels no drag |
| DayOne.DragOpposes | dayOne.js:84-92 | drag's dot product with the velocity is non-positive |
| DayOne.DragMagnitude | dayOne.js:84-92 | for a moving object drag has magnitude `0.5 density abs(v)^2 dragC` |
| DayOne.ApplyLiquid | dayOne.js:48-58 | drag with density 10 and coefficient 0.1 is applied exactly when the location is strictly inside the rectangle; otherwise the mover is unchanged |
| DayOne.LiquidIgnoresC | dayOne.js:61-68 | the liquid's `c` field has no effect |
| DayOne.LiquidBorder | dayOne.js:49-54 | a mover on the liquid's left or bottom border feels no drag |
| DayOne.Accelerate | dayOne.js:123-130 | the forces of a frame change only the accumulator: location, velocity, mass and `maxSpeed` are kept |
| DayOne.AccelerateSum | dayOne.js:123-130 | the accumulator grows by gravity, then friction divided by mass, then drag divided by mass only inside the liquid, then wind divided by mass only while the mouse is pressed; each force reads the velocity from before `update` |
| DayOne.BallStep | dayOne.js:123-133 | after a ball's step its accumulator is cleared, its mass and `maxSpeed` are kept, and its location is inside the window |
| DayOne.Frame | dayOne.js:123-135 | each ball takes its own step, and the balls do not interact |

## Left out

- Rendering is not modelled: `display`, `getBody`, `setup`, the canvas fills, `rect` and `ellipse`. They only draw.
- The noise counter `t`, `p.noise` and `bodyNoise` are not modelled. They feed only the body shape.
- Random initial agents are not modelled. The masses, positions and velocities drawn with `p.random` (koiEcoSystem.js:106-133, dayOne.js:94-104) become parameters, and every frame requires a positive mass.
- The mouse state is a boolean input to the frame: `p.mouseIsPressed` is not polled.
- `innerWidth` and `innerHeight` are parameters of the mover's edge check.
- IEEE floating-point rounding, overflow, infinities and NaN are not modelled. The model is over exact reals.
- The square root is a parameter constrained by `IsSqrt`, not a computed function.
- p5.Vector internals are not part of this model. That `normalize` leaves a zero-magnitude vector unchanged is an assumption about p5.
- Aliasing through mutated p5 vectors is not modelled. The sketches copy or mutate their own vectors only, so immutable values give the same results.
- Vectors.Normalize: the zero-vector case is stated as `magSq == 0` in the function and as `a == Zero` in `Vectors.NormalizeUnit`, because the solver handles the literal zero vector badly inside function contracts.
- DayOne.FrictionOpposes: states only moving objects; the zero-velocity case is `DayOne.FrictionAtRest`.
- DayOne.FrictionMagnitude: states only moving objects; at rest the friction is the zero vector (`DayOne.FrictionAtRest`), not of magnitude `frictionC`.
- DayOne.DragMagnitude: states only moving objects; the zero-velocity case is `DayOne.DragAtRest`.
- DayOne.RestingBallFalls: states the gravity-only step. The composed frame with friction is covered by `DayOne.AccelerateSum` and `DayOne.FrictionAtRest` separately, not as one lemma.
- KoiEcoSystem.AttractMagnitude: states only koi at different locations; across roles at the same location the normalized offset is the zero vector and so is the force.
- KoiEcoSystem.Attract: the force across roles is not in the function's own contract. `KoiEcoSystem.AttractAlongOffset` states it as `d` scaled by the gain over `abs(d)`, and `KoiEcoSystem.AttractCoincident` states the coincident case.
