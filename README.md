# Earth–Moon gravity lab: a Dafny model of its sequential core

The application is a React front-end around a 2D canvas. It shows an Earth–Moon two-body
system, a telemetry panel and a three-question quiz. This project models the parts of it
that are sequential logic with a precise meaning, and proves properties of them:

- **Parameters and telemetry** (`telemetry.dfy`, module `Telemetry`). The shared parameter record
  is `SimulationState`. Every control writes it through a partial-record merge, `Merge` (a
  `Partial<SimulationState>` is an `Update` of `Option` fields). `ParameterStore` is the
  application's state cell. The reset button is `ResetParameters`. The telemetry readout is
  `Physics`, built from `Force`, `Stability` and `Classify`. Numbers are exact `real`s.
- **Quiz** (`quiz.dfy`, module `Quiz`). The question bank is `Questions`. The five state cells
  are the fields of the class `QuizSession`. Its handlers are proved against pure transitions
  on a `QuizView` value: `Submit`, `Next`, `Restart` and `Choose`. The screen's guards on which
  button is offered are `Dispatch`, and the score bound is proved over any sequence of user
  actions (`RunKeepsScoreBounded`).
- **Scene** (`scene.dfy`, module `Scene`). The class `SimulationScene` holds the render
  effect's state: the trail buffer `path`, the `orbitAngle` and `time` accumulators, and the
  parameters the running effect closed over. `RenderFrame` is one call of the render
  routine. `StartEffect` is the effect restarting after a parameter change: the angle and
  clock restart from 0, the trail carries over. The trail is a bounded FIFO of 250 points
  (`Appended`, `AppendAllIsLatest`). The pure pieces are `EarthX`, `ArrowLength`,
  `GravityPair` and `Deform`. The pointer drag is `DragStart`, `DragDistance` and the class
  `DragHandler`, which is idle or dragging.
- `arith.dfy` (module `Arith`) holds the real-arithmetic facts (products, quotients, order)
  that the force proofs use. `optional.dfy` holds `Option`.

Math.sqrt, Math.cos, Math.sin, Math.atan2 and Math.log10 are the fields of a
`Transcendentals` value that the caller passes in. Nothing is assumed about what they compute.
Only the clamps and branches around them are verified.

Three behaviours of the code are worth stating outright, because the model follows them:

- The orbit angle and the clock are locals of the render effect (components/SimulationScene.tsx:32-33).
  The effect restarts whenever its `state` dependency changes (:226). Every write to the
  parameter record builds a new object, so every write restarts it. Switching auto-orbit off
  therefore resets the angle to 0, and it then stays at 0 (`StartEffect`, `AutoOrbitOffScenario`).
- While auto-orbit is off, every frame clears the trail (:96), not only the frame where it is
  switched off (`RenderFrame`).
- A drag's anchor is the earth's x at pointer-down, captured by the move listener. It is not
  recomputed when the drag changes the distance, although on canvases wider than 800 px the
  drawn earth moves with the distance (`DragSession`, `DragStart`).

## Model

| member | source | states |
|---|---|---|
| Telemetry.Merge | App.tsx:66-68 | each field present in the update takes the update's value; each absent field keeps the previous value |
| Telemetry.MergeNothing | App.tsx:66-68 | merging the empty update leaves the state unchanged |
| Telemetry.MergeIdempotent | App.tsx:66-68 | applying the same update twice equals applying it once |
| Telemetry.MergeTwice | App.tsx:66-68 | two successive merges equal one merge of the combined update, the later update winning each field |
| Telemetry.ParameterStore.constructor | App.tsx:48-57 | the state starts at masses 5.97 and 0.073, distance 350, velocity 1.0, all four toggles on |
| Telemetry.ParameterStore.HandleStateChange | App.tsx:66-68 | the new state is the merge of the old state and the update |
| Telemetry.ParameterStore.ResetClicked | App.tsx:151 | the new state is the reset of the old state |
| Telemetry.DistanceUpdate | App.tsx:162 | merging the scene's `{ distance: d }` into any state sets the distance to d and leaves every other field as it was |
| Telemetry.ResetParameters | App.tsx:151 | the four physical parameters take their start values; the four toggles keep theirs |
| Telemetry.ResetIsMerge | App.tsx:48-57 | reset is a merge of the four start values; it is idempotent; with all toggles on it yields exactly the start state |
| Telemetry.Force | App.tsx:72 | force is positive for positive masses and a non-zero distance, and 0 when either mass is 0 |
| Telemetry.ForceIncreasesWithEarthMass | App.tsx:72 | force strictly increases with earth mass |
| Telemetry.ForceIncreasesWithMoonMass | App.tsx:72 | force strictly increases with moon mass |
| Telemetry.ForceDecreasesWithDistance | App.tsx:72 | force strictly decreases as a positive distance grows |
| Telemetry.ForceInverseSquare | App.tsx:72 | tripling the distance divides the force by exactly nine |
| Telemetry.Stability | App.tsx:75 | stability lies in [0, 100]; it is 100 exactly at velocity 1.0; it is 0 exactly when velocity is at least 1 away from 1.0 |
| Telemetry.StabilitySymmetric | App.tsx:75 | stability(1 + d) equals stability(1 - d) |
| Telemetry.StabilityDecreasesAwayFromEquilibrium | App.tsx:75 | further from 1.0 never means more stable; while still above 0 it means strictly less stable |
| Telemetry.StatusName | App.tsx:77-85 | ESCAPING, STABLE and DECAYING each name exactly one status |
| Telemetry.StatusColor | App.tsx:77-85 | #f59e0b, #10b981 and #ef4444 each belong to exactly one status |
| Telemetry.Classify | App.tsx:77-85 | ESCAPING iff v > 1.2; STABLE iff 0.85 <= v <= 1.15; DECAYING iff v < 0.85 or 1.15 < v <= 1.2 (the gap) |
| Telemetry.Physics | App.tsx:70-88 | force positive for positive masses; stability in [0, 100]; each status name holds in exactly its velocity range; each status goes with exactly its colour (#f59e0b, #10b981, #ef4444) |
| Telemetry.PhysicsIgnoresToggles | App.tsx:88 | the readout depends only on earth mass, moon mass, distance and velocity |
| Telemetry.InitialReadout | App.tsx:48-57 | the start parameters read STABLE, stability 100, force 435.81 / 12.25 |
| Telemetry.StatusSamples | App.tsx:79-85 | 1.5 escapes; 1.18 and 1.2 decay (the gap); 0.9 is stable; 0.84 decays; 1.21 escapes |
| Quiz.QuestionsWellFormed | components/Quiz.tsx:7-44 | the bank has three questions, each with its answer key among its own options |
| Quiz.Submit | components/Quiz.tsx:56-62 | with no selection nothing changes; otherwise submitted is set and the score rises by exactly 1 iff the selection is the answer key; index, selection and result flag are kept |
| Quiz.Next | components/Quiz.tsx:64-72 | below the last question: index + 1, selection cleared, not submitted; on the last: result shown, index, selection and submitted flag kept; the score never changes; the index stays in range |
| Quiz.Restart | components/Quiz.tsx:74-80 | index 0, no selection, not submitted, score 0, no result, which is the start state |
| Quiz.Choose | components/Quiz.tsx:137 | once submitted the selection cannot change; before that it becomes the chosen option |
| Quiz.Dispatch | components/Quiz.tsx:82-216 | under the screen's guards the index stays in range, and on the result screen only Restart changes anything |
| Quiz.DispatchKeepsScoreBounded | components/Quiz.tsx:82-216 | each guarded action keeps score <= index + (1 if submitted) <= number of questions |
| Quiz.Run | components/Quiz.tsx:53 | after any sequence of actions the current question exists |
| Quiz.RunKeepsScoreBounded | components/Quiz.tsx:56-80 | after any sequence of user actions the score bound holds and the score is at most the number of questions |
| Quiz.InitialScoreBounded | components/Quiz.tsx:47-51 | the start state satisfies the score bound |
| Quiz.PerfectRun | components/Quiz.tsx:17-41 | answering 2, 2, 1 and pressing Next three times ends on the result screen with score 3 |
| Quiz.QuizSession.constructor | components/Quiz.tsx:47-51 | the five cells start at index 0, no selection, not submitted, score 0, no result |
| Quiz.QuizSession.HandleSubmit | components/Quiz.tsx:56-62 | the new state is Submit of the old one |
| Quiz.QuizSession.HandleNext | components/Quiz.tsx:64-72 | the new state is Next of the old one |
| Quiz.QuizSession.Reset | components/Quiz.tsx:74-80 | the new state is Restart of the old one |
| Quiz.QuizSession.Select | components/Quiz.tsx:150 | the new state is Choose of the old one: selection is ignored once submitted |
| Quiz.QuizSession.Handle | components/Quiz.tsx:82-216 | the new state is Dispatch of the old one, and the score bound is preserved |
| Scene.Clamp | components/SimulationScene.tsx:237 | the result lies in [lo, hi], equals x inside it, and equals the nearer bound outside it |
| Scene.EarthX | components/SimulationScene.tsx:53 | width > 1200: w/2 - d/5; 800 < width <= 1200: w/2 - d/8; otherwise w/2; for d >= 0 the earth is never right of centre nor more than d/5 left of it |
| Scene.EarthPosition | components/SimulationScene.tsx:50-54 | the earth is vertically centred, and for any separation in [0, 580] it lies within the left half of the canvas |
| Scene.OrbitStep | components/SimulationScene.tsx:91-92 | the angle does not advance at velocity 0; when sqrt(100/d) is positive it advances (a positive step) iff the velocity is positive |
| Scene.OrbitPosition | components/SimulationScene.tsx:93-94 | when cos and sin of the angle form a unit vector, the moon is at exactly `distance` from the earth |
| Scene.ManualPosition | components/SimulationScene.tsx:87-88 | the manual-mode moon is level with the earth, exactly `distance` to its right |
| Scene.Appended | components/SimulationScene.tsx:100-101 | the new point is last; a trail within 250 stays within 250; below capacity the old points are kept in order; at capacity exactly the oldest is dropped |
| Scene.Latest | components/SimulationScene.tsx:101 | the result has min(|s|, n) elements |
| Scene.LatestOfLatest | components/SimulationScene.tsx:101 | trimming to the latest n before appending and trimming again equals trimming once |
| Scene.AppendAll | components/SimulationScene.tsx:99-101 | a trail within 250 stays within 250 after any number of appends; the last point appended is the trail's last point; no appends leave the trail as it was |
| Scene.AppendedIsLatest | components/SimulationScene.tsx:100-101 | one append keeps exactly the latest 250 positions |
| Scene.AppendAllIsLatest | components/SimulationScene.tsx:99-101 | after any number of appends the trail is the latest 250 positions in arrival order, so never more than 250 |
| Scene.RawForce | components/SimulationScene.tsx:156 | the arrows' force figure is positive for positive masses and distance, and 0 when either mass is 0 |
| Scene.RawForceInverseLinear | components/SimulationScene.tsx:156 | tripling the distance divides the arrows' force figure by three, not by nine as for the headline force |
| Scene.ArrowLength | components/SimulationScene.tsx:157 | arrow length lies in [35, 130] for any raw force, and is 20 * log10(raw + 1) when that lies in range |
| Scene.GravityPair | components/SimulationScene.tsx:156-161 | the action arrow starts at the moon and the reaction arrow at the earth; their lengths are equal and within [35, 130]; their angles differ by exactly pi |
| Scene.VelocityArrow | components/SimulationScene.tsx:163-166 | the velocity arrow starts at the moon, a quarter turn from the separation line |
| Scene.FrameVectors | components/SimulationScene.tsx:150-167 | action and reaction are equally long; a velocity arrow is present iff auto-orbit is on |
| Scene.Deform | components/SimulationScene.tsx:67 | a grid sample is displaced by at most 60, non-negatively for a non-negative mass, and by exactly 60 iff the unclamped value reaches 60 |
| Scene.DeformDecreasesWithDistance | components/SimulationScene.tsx:65-67 | for a non-negative mass a sample further from the earth is displaced no more, and strictly less wherever the displacement is below the cap of 60 |
| Scene.SimulationScene.constructor | components/SimulationScene.tsx:13 | the trail starts empty; angle and clock start at 0 |
| Scene.SimulationScene.RenderFrame | components/SimulationScene.tsx:35-111 | clock + 0.012; earth at EarthX; auto-orbit: angle advances by sqrt(100/d) * 0.05 * v and the moon is on the orbit circle; manual: angle unchanged, moon at (earthX + d, earthY), trail emptied; auto-orbit with path: trail is Appended; auto-orbit without path: trail unchanged; the trail stays within 250 |
| Scene.SimulationScene.StartEffect | components/SimulationScene.tsx:25-37 | after a parameter change the angle and clock restart from 0 while the trail carries over; the first frame has the earth at EarthX, the moon on the orbit (auto) or to the earth's right (manual), the trail appended, kept or emptied as in RenderFrame, and the arrows iff vectors are on |
| Scene.AutoOrbitOffScenario | components/SimulationScene.tsx:90-97 | two orbiting frames, then auto-orbit off: the trail is empty and the angle is 0 |
| Scene.DragStart | components/SimulationScene.tsx:228-233 | pointer-down is ignored iff auto-orbit is on or there is no canvas; otherwise the drag is anchored at the same EarthX the render loop uses |
| Scene.DragDistance | components/SimulationScene.tsx:235-238 | the emitted distance lies in [120, 580]; it is the pointer's horizontal gap to the anchor when that lies in range, else the nearer bound |
| Scene.DragWritesOnlyDistance | App.tsx:162 | a drag's write-back changes only the distance, to a value in [120, 580] |
| Scene.DragAtMoonKeepsDistance | components/SimulationScene.tsx:233-237 | in manual mode, moving the pointer to where the moon is drawn writes back the distance it was drawn at |
| Scene.DragHandler.constructor | components/SimulationScene.tsx:228 | no drag is in progress |
| Scene.DragHandler.PointerDown | components/SimulationScene.tsx:228-245 | a press that is not ignored starts a drag; an ignored press changes nothing |
| Scene.DragHandler.PointerMove | components/SimulationScene.tsx:235-238 | a move emits a distance iff a drag is in progress, always within [120, 580] |
| Scene.DragHandler.PointerUp | components/SimulationScene.tsx:239-242 | releasing the pointer ends the drag |

## Left out

- Canvas drawing is not modelled: background, starfield, gradients, halos, the stroked grid lines and trail, and the arrow routine's text layout. A frame's result is the geometry it would draw.
- Planet radii (components/SimulationScene.tsx:113, :132) are not modelled. They only size discs.
- The grid's sampling loops are not modelled, because they only stroke lines. `Deform` models the clamp applied to every sample.
- Star generation with Math.random is not modelled, because it is random and decorative. The `time` clock is kept as a field, but the twinkle it drives is not modelled.
- requestAnimationFrame scheduling, the resize listener, listener add/remove and effect teardown are not modelled. The canvas size is a parameter of each frame. A missing canvas or 2D context skips rendering.
- A second pointer-down before the pointer is released would register a second pair of listeners. `DragHandler` keeps one drag at a time.
- Floating point is not modelled: numbers are exact reals. The velocity slider yields the same double as the literals 1.15 and 1.2, so the threshold tests agree with the exact comparisons. Derived values, such as the stability at 1.15, may differ from the exact ones in the last bits.
- Telemetry.Force: requires a non-zero distance. JavaScript would return Infinity or NaN at distance 0. The sliders (120 to 500) and the drag clamp (120 to 580) never reach 0.
- Scene.SimulationScene.RenderFrame: requires a positive distance whose square root is non-zero. The velocity arrow divides by sqrt(distance), and the slider and drag ranges guarantee this.
- Scene.OrbitPosition: the circle property holds only where the supplied cos and sin form a unit vector, because both functions are uninterpreted.
- Scene.VelocityArrow: its length, 75 * velocity * (100 / sqrt(distance)), is computed but nothing is proved about it, because sqrt is uninterpreted.
- The `Partial<SimulationState>` merge treats a field as present or absent. An explicitly `undefined` value is not modelled.
- React batches state updates within one handler. Each handler runs as one atomic step.
- Formatting (`toFixed`, `toLocaleString`), the MUI theme, layout, drawer and tabs are not modelled.
