# Tooth-motion simulator: a Dafny model of the per-frame physics

The simulator animates a row of tooth icons pushed by an adjustable force.
Each tooth is a point mass with a rest position (`baseX`, `baseY`), a
displacement (`x`, `y`) and a velocity (`vx`, `vy`). Once per animation frame
the program does three things:

- it computes the frame time, capped at 0.035 s;
- it advances every tooth in place: the force is scaled by a weight that
  favours teeth near the middle of the row, then come an explicit Euler step
  to velocity, a damping multiplier, an Euler step to displacement, and a hard
  clamp of the displacement to [-0.02, 0.02];
- it draws every tooth at its rest position plus a pixel offset of
  1200·k·x horizontally and half that vertically.

When the tooth count changes, the whole row is rebuilt. The new teeth stand
100 units apart, centred in the jaw area's width, 40 units above its
vertical middle.

The model has four modules:

- `Physics` (physics.dfy): the tooth record, the weight, damping and clamp
  as pure functions, one step of one tooth (`StepBody`) and of the whole row
  (`StepAll`), and a run of steps (`Simulate`), with lemmas.
- `Layout` (layout.dfy): the row built on (re)initialisation (`RowLayout`)
  and the render arithmetic (`Round`, `RenderPosition`), with lemmas.
- `Simulator` (simulator.dfy): the mutable state as a class. The field
  `teeth` is the row, reassigned as the program reassigns and pushes onto its
  array, and `last` is the previous frame's clock reading. The methods are
  `InitTeeth`, `StepPhysics`, `Render` and `Tick`, each with loops and
  invariants where the program loops. Each method is proved against the
  functions above.
- `WorkedExample` (example.dfy): three teeth in a 900 × 400 area, stepped once
  under a force of 10 along x, computed exactly.

Numbers are mathematical reals, not IEEE doubles. `Math.round(v)` is
`Floor(v + 0.5)`. The force components `Fx = F·cos θ` and `Fy = F·sin θ` are
inputs rather than computed.

## Model

| member | source | states |
|---|---|---|
| `Physics.Clamp` | simulator.js:121-122 | the clamped displacement always lies in [-0.02, 0.02], and a value already inside is left unchanged |
| `Physics.ClampIsNearest` | simulator.js:121-122 | the clamp moves a displacement to the nearest point of [-0.02, 0.02] |
| `Physics.DistFactor` | simulator.js:102-103 | for 0 ≤ idx < n, 1 - \|idx - (n-1)/2\| / n lies in (0.5, 1]: no tooth is half the row's length from the centre |
| `Physics.Weight` | simulator.js:105-106 | the fraction 0.6 + 0.4·distFactor of the force that reaches a tooth lies in (0.8, 1.0], above the formula's 0.6 floor |
| `Physics.WeightSymmetric` | simulator.js:102-106 | tooth idx and tooth n-1-idx receive the same weight |
| `Physics.WeightCloserIsLarger` | simulator.js:102-106 | a tooth at least as close to the centre (n-1)/2 receives at least as large a weight |
| `Physics.MiddleToothFullWeight` | simulator.js:102-106 | with an odd count the middle tooth receives the full force (weight 1) |
| `Physics.DampFactor` | simulator.js:114 | max(0, 1 - damping·dt·6): never negative, never below the linear decay, equal to 0 or to the linear decay; at most 1 when damping ≥ 0 and dt ≥ 0, below 1 when both are positive |
| `Physics.NewVelocity` | simulator.js:108-116 | one velocity component after the Euler step and damping: under zero force (damping, dt ≥ 0) its magnitude never grows, and with damping, dt > 0 a non-zero one strictly shrinks; when damping·dt·6 ≥ 1 it is exactly 0 whatever the force |
| `Physics.Advance` | simulator.js:105-122 | the per-tooth update for weight w leaves x and y in [-0.02, 0.02] from any prior state, and keeps mass, baseX and baseY |
| `Physics.StepBody` | simulator.js:101-123 | after one step a tooth's x and y lie in [-0.02, 0.02] whatever its prior state, dt, force or damping; mass, baseX and baseY are unchanged |
| `Physics.ZeroForceVelocityNoGrowth` | simulator.js:108-116 | with zero force, damping ≥ 0 and dt ≥ 0, neither \|vx\| nor \|vy\| grows across a step |
| `Physics.ZeroForceVelocityDecays` | simulator.js:108-116 | with zero force, damping > 0 and dt > 0, every non-zero velocity component strictly shrinks in magnitude: the tooth slows down |
| `Physics.HeavyDampingStops` | simulator.js:111-122 | when damping·dt·6 ≥ 1 both velocities become exactly 0 whatever the force, and the tooth only gets clamped where it stands |
| `Physics.MirrorTeethMoveAlike` | simulator.js:101-123 | two teeth in mirror positions with the same state end the step in the same state |
| `Physics.StepAll` | simulator.js:97-124 | a step keeps the number of teeth and every mass, baseX and baseY, and leaves every displacement within the limit |
| `Physics.Simulate` | simulator.js:138-142 | the row after a sequence of frames, one step each, keeps its count and non-zero masses |
| `Physics.SimulateStaysInLimit` | simulator.js:121-122 | clamp invariant over any number of steps: after at least one step, or from a start within the limit, every displacement lies in [-0.02, 0.02] |
| `Physics.SimulateKeepsLayout` | simulator.js:97-124 | any run of steps keeps the count and every tooth's mass and rest position |
| `Physics.SimulateZeroForceVelocityNoGrowth` | simulator.js:111-116 | over any run of force-free steps with damping ≥ 0 and dt ≥ 0, no tooth ends faster on either axis than it started |
| `Layout.StartX` | simulator.js:53-55 | the first tooth's x leaves equal margins: its distance from 0 equals the last tooth's distance from width |
| `Layout.RowLayout` | simulator.js:48-83 | the rebuilt row has max(n, 0) teeth, all with zero displacement and velocity and mass 0.01; neighbours are exactly 100 apart; every base y is height/2 - 40; the first and last base x sum to width |
| `Layout.RowIsCentred` | simulator.js:53-79 | tooth i and tooth n-1-i have base x summing to width, so the row is symmetric about width/2 |
| `Layout.Round` | simulator.js:128-129 | Math.round returns the integer r with r - 0.5 ≤ v < r + 0.5 (nearest, halves up) |
| `Layout.OffsetX` | simulator.js:128 | round(k·x·1200) is at most 24·\|k\| + 0.5 pixels for a displacement within the limit |
| `Layout.OffsetY` | simulator.js:129 | round(k·y·1200/2) is at most 12·\|k\| + 0.5 pixels for a displacement within the limit |
| `Layout.RenderPosition` | simulator.js:128-132 | a tooth within the displacement limit is drawn at most 24·\|k\| + 0.5 pixels from its base x and 12·\|k\| + 0.5 pixels from its base y |
| `Layout.RestingToothAtBase` | simulator.js:128-132 | a tooth with zero displacement is drawn exactly at its rest position |
| `Simulator.FrameTime` | simulator.js:139 | the frame time is min(0.035, elapsed/1000): never above 0.035 nor above the elapsed seconds, and equal to one of them |
| `Simulator.FrameTimeNonNegative` | simulator.js:137-140 | a clock that does not run backwards gives a frame time in [0, 0.035] |
| `Simulator.Simulator.constructor` | simulator.js:27 | the simulation starts with no teeth |
| `Simulator.Simulator.InitTeeth` | simulator.js:48-83 | the previous teeth are discarded, whatever their state, and the new row is exactly `RowLayout(n, width, height)`; the object invariant (mass 0.01, displacement within the limit) holds |
| `Simulator.Simulator.StepPhysics` | simulator.js:97-124 | every tooth i becomes `StepBody(old tooth i, i, count, frame)`, so each depends only on its own old state, its index and the count; the count is kept and the invariant preserved |
| `Simulator.ApplyForce` | simulator.js:105-122 | the per-tooth statements of the loop body compute exactly the specified step for weight w |
| `Simulator.Simulator.Render` | simulator.js:126-135 | changes nothing; returns one position per tooth, equal to its rest position plus the rounded offsets, each within 24·\|k\| + 0.5 and 12·\|k\| + 0.5 pixels of the rest position |
| `Simulator.Simulator.Tick` | simulator.js:138-143 | one frame steps the teeth with the capped frame time, records the clock reading, and returns the drawing positions |
| `WorkedExample.ThreeTeethLayout` | simulator.js:48-83 | three teeth in a 900 × 400 area stand at x = 350, 450, 550 and y = 160 |
| `WorkedExample.ThreeTeethScenario` | simulator.js:97-124 | with F = 10 along x, dt = 1/60 and damping 0.1, one step gives the middle tooth vx = 16.5; that would move it 0.275, so it is clamped to 0.02. The end teeth reach vx = 14.3 and are pinned at 0.02 too |

## Left out

- SVG and DOM construction (`createToothSVG`, `innerHTML`, the `style.transform` writes): browser I/O. `Render` and `Tick` return the positions instead of writing them.
- The `clientWidth` and `clientHeight` reads are browser I/O. `InitTeeth` takes the width and height as parameters.
- Event listeners, `requestAnimationFrame`, `setTimeout` and `performance.now` are scheduling. `Tick` takes the clock reading as a parameter, and the constructor takes the first reading. Resetting `last` after the 200 ms start-up delay is not modelled.
- `updateParamsFromUI` (`parseFloat`/`parseInt`, text formatting) and the `calcInfo` text are UI glue. Force and damping are passed to each physics step, and the gain to each frame's drawing, as inputs.
- `Math.cos`, `Math.sin` and the degrees-to-radians conversion are transcendental floating point. `Fx` and `Fy` are given directly.
- NaN propagation, infinities and rounding error are IEEE behaviour; the model computes over reals.
- The early return when the DOM elements are missing is a presence check in the browser.
- script.js is not part of this model. It only highlights the active navigation link.
- Update in place: the program mutates tooth objects through the array. The model writes a whole new record value into the sequence at that index. Records are never shared, so no aliasing is lost.
- Between its two loops, `initTeeth` leaves `baseX` and `baseY` undefined. The model holds 0 there. No caller can observe the difference.
- `Physics.StepBody`: requires a non-zero mass, because a real division by zero has no value. Every tooth the program creates has mass 0.01, and the class invariant says so.
- `initTeeth` accepts any count: a count of 0 or below leaves the row empty, and the model does the same.
