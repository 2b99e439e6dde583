# Triathlon runner — a Dafny model of its simulation engine

The game is a side-scrolling commute in three legs: swimming ("Natation"),
cycling ("Vélo") and running ("Course"). It is all one browser script,
`script.js`. The player picks one of five lanes. They set a target speed by
stepping up through a fixed table of fractions of the current leg's speed
envelope, or by braking. Obstacles spawn at the right edge and scroll left.
Touching one ends the run. Covering the leg's distance starts the next leg.
Covering 16000 units in the last leg wins.

This project models the simulation engine of that script:

- the speed controller;
- the distance calibration;
- the difficulty scaler;
- the obstacle spawner and culler;
- the collision test;
- the phase state machine.

The engine's module-level state is kept in one class, `Simulation.Game`,
whose methods update it in place as the script's functions do. The
calculations behind those methods are pure functions, and the properties are
proved about those functions.

The browser supplies these values, which come in as parameters:

- the elapsed time of a tick;
- the clock reading of `performance.now()`;
- the size of the playable area;
- the three `Math.random()` draws of a spawn;
- the player's hitbox rectangle and each obstacle's bounding rectangle;
- the braking factor `d = Math.pow(minSpeed / maxSpeed, 1 / 2)`.

Speeds and distances are exact `real`s.

| module | file | what it holds |
|---|---|---|
| `Config` | config.dfy | the phase table, the obstacle registry, the lanes, the speed steps and the constants |
| `Speed` | speed.dfy | convergence and clamp, the step table, the step re-derivation, the brake |
| `Distance` | distance.dfy | metres per pixel per phase, the distance of one tick |
| `Difficulty` | difficulty.dfy | the 2%-per-1500-units growth of the envelope's ceiling |
| `Obstacles` | obstacles.dfy | spawn interval, placement, scroll and cull |
| `Collision` | collision.dfy | the strict rectangle overlap and the collision scan |
| `Hitbox` | hitbox.dfy | the per-phase player hitbox inside the sprite |
| `Simulation` | simulation.dfy | the `Game` class: state, intents, phases, the tick |

In four places the code does something other than what its own comments
or a first reading suggest. The model follows the code:

- **A phase change re-derives the speed step.** `setPhase` re-derives the
  step index from the old absolute target in the new envelope; it does not
  keep the step index, although its comment speaks of re-applying the
  current step. So the swim's top speed of 200 lands on step 1 of the
  bike's envelope, not on its top step
  (`Simulation.SwimTopSpeedResyncsToBikeStepOne`).
- **The speed can exceed the new ceiling.** The clamp of a tick happens
  before the phase change and the difficulty update. The tick that starts the
  run leg can therefore end with the speed above the new ceiling
  (`Simulation.RunCeilingBelowLateBikeSpeed`).
- **Winning ends in the same state as losing.** A won run ends in the same
  `gameOver` state as a lost one.
- **The metres-per-pixel calibration uses the index of the phase being
  played.** `getMetersPerPixelAtBaseSpeed` takes the start distance from the
  index of the phase being played, not of the phase passed in
  (`Distance.CalibrationUsesPlayedPhaseStart`).

## Model

| member | source | states |
|---|---|---|
| `Config.LanePool` | script.js:476 | a type's own lane list when it has one, and otherwise every one of the five lanes |
| `Config.PhasesWellFormed` | script.js:83-108 | three phases, each with a positive base speed and frequency, a non-empty envelope with floor at most the start speed 10, a non-empty palette; thresholds strictly increase and the last is the total distance |
| `Config.SpeedStepsAscending` | script.js:67 | the step table has six entries, strictly increasing from 0 to 1 |
| `Config.ObstacleConfigsWellFormed` | script.js:123-132 | every registered type has a positive size and a non-empty pool of valid lane indices |
| `Config.PhaseTypesRegistered` | script.js:83-132 | every type a phase may draw is in the registry, so the missing-configuration branch is dead with this table |
| `Speed.Min` | script.js:594 | `Math.min`: a lower bound of both arguments that is one of them |
| `Speed.Max` | script.js:596 | `Math.max`: an upper bound of both arguments that is one of them |
| `Speed.ApproachNeverOvershoots` | script.js:593-597 | the speed moves toward the target by at most 2000 per second, never past it, and lands on it when within reach |
| `Speed.ClampIntoEnvelope` | script.js:598 | after the clamp the speed is at least the floor, inside the envelope when it is non-empty, and unchanged when already inside |
| `Speed.ReachesDownward` | script.js:68-78 | reaching a step fraction implies reaching every lower fraction, also with the infinite or NaN ratio of an empty envelope |
| `Speed.LargestReachedBelow` | script.js:72-75 | the result is a reached step below the bound, or 0, and no higher step below the bound is reached |
| `Speed.StepIndexFor` | script.js:68-78 | the step index is the largest step whose fraction the speed reaches, or 0 |
| `Speed.StepIndexFromSpeed` | script.js:68-78 | the early-exit upward scan returns exactly the largest reached step |
| `Speed.StepIndexCharacterized` | script.js:68-78 | the largest reached step is unique |
| `Speed.TargetAtStep` | script.js:740-741 | a step's target lies in the envelope, step 0 is the floor, the top step is the ceiling |
| `Speed.TargetAtStepMonotone` | script.js:740-741 | higher steps give higher targets |
| `Speed.StepRoundTrip` | script.js:731-753 | re-deriving the step of a step's target gives back that step, so a speed-up after a resync resumes from the same step |
| `Speed.SnapToStep` | script.js:388-390 | snapping a speed to its step lowers it to that step's target, short of the next step's, and raises a speed below the floor to the floor |
| `Speed.BelowFirstStep` | script.js:68-78 | a speed short of the 30% step maps to step 0 |
| `Speed.BrakeNeverRaises` | script.js:749 | the braked target is never below the floor, never above a target that was at or above a non-negative floor, and is the scaled target when that clears the floor |
| `Speed.BrakeFactorAtMostOne` | script.js:748 | the brake factor `(min/max)^(1/2)` of a non-empty envelope is at most 1 |
| `Distance.PhaseDurationSeconds` | script.js:361-366 | the design duration of a phase is at least one second |
| `Distance.MetersPerPixelAtBaseSpeed` | script.js:368-375 | at base speed for the phase's duration the calibration covers 60% of the span from the played phase's start to the given phase's threshold; zero for a non-positive base speed |
| `Distance.CalibrationPerPhase` | script.js:368-375 | the three legs are calibrated at 0.39, 0.77 and 1.4 units per pixel |
| `Distance.CalibrationUsesPlayedPhaseStart` | script.js:371 | calibrating the bike leg while the swim is played measures from 0, giving 0.9 |
| `Distance.DistanceNeverDecreases` | script.js:602-606 | distance never decreases for a non-negative speed and step, and grows strictly for positive ones |
| `Distance.BaseSpeedCoversSpan` | script.js:368-375 | a leg ridden at base speed for its design duration covers 60% of its span |
| `Difficulty.Pow` | script.js:560 | every power of a positive base is positive, negative exponents included |
| `Difficulty.MaxSpeedAt` | script.js:555-562 | a phase with a positive ceiling keeps a positive ceiling at any distance |
| `Difficulty.PowAtLeastOne` | script.js:560 | powers of a factor of at least 1 are at least 1 |
| `Difficulty.PowMonotone` | script.js:560 | powers of a factor of at least 1 grow with the exponent |
| `Difficulty.MilestonesMonotone` | script.js:558 | the milestone count never decreases with distance |
| `Difficulty.NextMilestone` | script.js:555-562 | 1500 more units add exactly one milestone and multiply the ceiling by 1.02 |
| `Difficulty.MaxSpeedGrowsWithDistance` | script.js:555-562 | on non-negative distances the ceiling never falls below the phase's own maximum and grows with distance |
| `Difficulty.TwoMilestonesAt3000` | script.js:555-562 | at 3000 units two milestones are reached and the ceiling is 1.0404 times the phase's own |
| `Obstacles.SpawnIntervalAtBaseSpeed` | script.js:452-453 | at base speed, and at speed exactly zero, the interval is the base frequency over the density factor |
| `Obstacles.SpawnIntervalShrinksWithSpeed` | script.js:452-453 | a faster positive speed never lengthens the spawn interval |
| `Obstacles.PickIndex` | script.js:458 | a uniform draw in [0, 1) picks a valid index |
| `Obstacles.NewObstacle` | script.js:464-501 | a new obstacle keeps its type and entry, starts 50 pixels past the right edge, sits in a lane of its pool and within 10 pixels of the lane's centre line |
| `Obstacles.SpawnAppendsAtMostOne` | script.js:448-503 | a spawn appends at most one obstacle and keeps the others; nothing happens before the interval; a due spawn resets the time and, when the drawn type is registered, appends exactly one obstacle; an appended obstacle has a type of the phase, a registry entry, the right-edge start and an allowed lane |
| `Obstacles.DueSpawnAppendsOne` | script.js:455-501 | with the game's phase table, a due spawn always appends exactly one obstacle, keeps the others and resets the spawn time |
| `Obstacles.Moved` | script.js:515 | a tick's scroll moves an obstacle left by speed times factor times step and changes nothing else |
| `Obstacles.MovedAll` | script.js:508-515 | every obstacle moved, same length, same order |
| `Obstacles.SubsequenceNoLonger` | script.js:531-534 | a subsequence is no longer than its source |
| `Obstacles.SurvivorsKeepOrder` | script.js:508-535 | the survivors are the moved obstacles with some left out, in their original order |
| `Obstacles.SurvivorsInBounds` | script.js:526-530 | every survivor is inside the tracked area: not past the left edge by its width, not beyond the right margin, not above the top margin |
| `Obstacles.InBoundsSurvive` | script.js:526-535 | every moved obstacle still inside the tracked area survives |
| `Obstacles.SurvivorsAreMovedObstacles` | script.js:508-535 | every survivor is the moved form of an original obstacle |
| `Collision.CheckCollisions` | script.js:540-553 | the scan reports a hit exactly when some obstacle's rectangle overlaps the player's |
| `Collision.OverlapIsStrict` | script.js:547-548 | overlap is symmetric and rectangles sharing only an edge do not collide |
| `Hitbox.HitboxInsideSprite` | script.js:39-57 | a well-formed profile gives a non-negative box centred on the sprite and inside it |
| `Hitbox.PhaseHitboxesWellFormed` | script.js:15-19 | the three phase profiles are well formed |
| `Simulation.Game.constructor` | script.js:262-277 | the state before any run: initial, first phase, lane 2, all quantities zero, no obstacles |
| `Simulation.Game.ClampLane` | script.js:437-438 | a lane index is clamped into the five lanes, in-range indices unchanged |
| `Simulation.Game.MovePlayerToLane` | script.js:437-438 | the player's lane becomes the clamped index |
| `Simulation.Game.HandleChangeLane` | script.js:755-763 | while running, "up" moves one lane up and "down" one lane down, never leaving the table; otherwise nothing changes |
| `Simulation.Game.HandleSpeedUp` | script.js:731-742 | while running, the step goes up by one unless at the top, and the target becomes that step's target inside the envelope |
| `Simulation.Game.HandleSlowDown` | script.js:744-753 | while running, the target is braked but stays at or above the floor, never rises, and the step index is re-derived from it |
| `Simulation.Game.SetPhase` | script.js:377-390 | the new phase's envelope, the step re-derived from the old target, the target snapped to that step inside the new envelope, lane kept |
| `Simulation.Game.IncreaseDifficulty` | script.js:555-562 | the ceiling becomes the phase's maximum scaled by 1.02 per milestone of distance covered |
| `Simulation.Game.SpawnObstacle` | script.js:448-503 | the obstacle list and spawn time become those of the spawn function |
| `Simulation.Game.UpdateObstacles` | script.js:505-537 | the backward loop with in-place splicing leaves exactly the moved, culled list in order |
| `Simulation.Game.SpliceStep` | script.js:514-534 | one iteration, moving the obstacle in place and splicing it out when retired, extends the culled suffix by exactly that obstacle's fate |
| `Simulation.Game.GameOver` | script.js:694-711 | the run ends in the game-over state |
| `Simulation.Game.GameWon` | script.js:713-726 | a won run ends in the same game-over state |
| `Simulation.Game.StartGame` | script.js:650-692 | with resources ready and no run going, a fresh run: first phase, lane 1, no distance, no obstacles, step 0, speed and target 10; otherwise nothing changes |
| `Simulation.Game.TickTimer` | script.js:683-685 | the elapsed seconds grow by one only while running |
| `Simulation.Game.AdvanceSpeed` | script.js:590-598 | the speed is the clamped result of approaching the target |
| `Simulation.Game.AdvanceDistance` | script.js:602-606 | the distance grows by one tick at the current speed and calibration, never shrinking for a non-negative step |
| `Simulation.Game.CheckProgress` | script.js:622-633 | past the threshold the next phase starts with no obstacles; past the total in the last phase the run is won and nothing else changes; otherwise the ceiling is rescaled |
| `Simulation.Game.GameLoop` | script.js:584-639 | one tick of a running game: speed, distance, spawn, scroll and cull, then game over on a collision, else phase change, win or difficulty growth, with the speed envelope, step and target stated in every branch; a stopped game is unchanged |
| `Simulation.SwimTopSpeedResyncsToBikeStepOne` | script.js:377-390 | the swim's top speed of 200 becomes bike step 1 with target 157 |
| `Simulation.RunCeilingBelowLateBikeSpeed` | script.js:590-629 | the run's ceiling at the bike threshold is below the bike's ceiling just before it, so the clamp can leave the speed above the new ceiling for one tick |

The constructor establishes `Game.Valid()`, and every method of `Game` requires and preserves it. Its `reads` clause names only the fields it constrains. It says that:

- the lane, the step and the phase index stay inside their tables;
- a running game has the current phase's floor, which is positive, a
  positive ceiling, and positive current and target speeds.

## Left out

- Rendering and the DOM are not modelled. That covers element creation and
  removal, styles, depth sorting, the UI bar, the phase title, the parallax
  background, and the sprite frames and their animation. None of it changes
  the engine's state.
- Asset preloading and its progress bar are not modelled, nor is the music.
  The preload's outcome enters `StartGame` as a boolean.
- Keyboard, touch, swipe and button listeners are not modelled. They call
  `HandleSpeedUp`, `HandleSlowDown`, `HandleChangeLane` and, on Enter when
  no run is going or on the start and restart buttons, `StartGame`; all of
  these are modelled.
- Scheduling is not modelled: `requestAnimationFrame`, `setInterval` and
  their cancellation. So is the conversion of timestamps into the elapsed
  time `dt`; each tick takes `dt` as a parameter. `TickTimer` is the body of
  the one-second callback.
- The deferred phase change through CSS transitions and the
  `isTransitioning` flag are not modelled. The model applies `setPhase` at
  once when the threshold is crossed. In the browser, the ticks during the
  fade keep running in the old phase and clear the obstacles on every tick
  until the fade ends.
- `currentPhaseIndex = -1` inside `startGame` is not modelled: it is
  overwritten by `setPhase(0)` before anything reads it.
- `formatTime` and the end-screen texts are not modelled; they are
  presentation.
- `Math.pow(minSpeed / maxSpeed, 1 / 2)` is not modelled. For the positive
  ratio here it is the square root of the ratio. `HandleSlowDown` receives
  that value as `d` and requires `d > 0` and `d * d * maxSpeed == minSpeed`.
- IEEE-754 rounding is not modelled; arithmetic is exact. The infinite and
  NaN outcomes of dividing by an empty speed envelope are written out in
  `Speed.Reaches`.
- Bounding rectangles are measured by the browser. The player's rectangle
  is part of each tick's input, and each obstacle's is a function from the
  obstacle to its rectangle. So the collision test does not derive
  rectangles from positions.
- The `console.warn` of the missing-configuration branch and the
  `console.log` in `handleSpeedUp` are not modelled; the model still keeps
  that branch.
- The hitbox of the player is modelled by the helper `Hitbox.PlayerHitbox`.
  Applying it to the DOM element is not modelled.
