/**
 * The run itself: the module-level state of the game (script.js:79, 262-277)
 * as one object, the player's intents, the phase state machine and the
 * per-tick step (script.js:377-390, 437-438, 448-537, 555-562, 584-639,
 * 650-753). Everything the browser supplies (the elapsed time, the clock,
 * layout sizes and rectangles, random draws, a square root) is a parameter.
 */
module Simulation {
  import opened Config
  import opened Speed
  import opened Distance
  import opened Difficulty
  import opened Obstacles
  import opened Collision

  /** The lifecycle. A won run also ends in `GameOver` (script.js:717). */
  datatype State = Initial | Running | GameOver

  datatype Direction = Up | Down

  /** What the browser supplies to one tick: the elapsed seconds, the
      `performance.now()` reading, the playable area's size, the spawn's
      random draws and the player's hitbox rectangle. */
  datatype Frame = Frame(
    dt: real,
    now: real,
    areaWidth: real,
    areaHeight: real,
    draws: SpawnDraws,
    playerRect: Rect)

  class Game {
    var gameState: State
    var currentPhaseIndex: nat
    var distanceCovered: real
    var gameTime: nat
    var playerLane: nat
    var currentSpeed: real
    var targetSpeed: real
    var minSpeed: real
    var maxSpeed: real
    var obstacles: seq<Obstacle>
    var lastObstacleSpawnTime: real
    var speedStepIndex: nat

    /** Indices stay in their tables; the lower speed bound is either the
        initial 0 or the current phase's; a running game has a positive
        envelope ceiling and positive current and target speeds. */
    ghost predicate Valid()
      reads this`playerLane, this`speedStepIndex, this`currentPhaseIndex, this`gameState,
            this`minSpeed, this`maxSpeed, this`currentSpeed, this`targetSpeed
    {
      && playerLane < |Lanes|
      && speedStepIndex < |SpeedSteps|
      && currentPhaseIndex < |Phases|
      && (minSpeed == 0.0 || minSpeed == MinSpeedOf(Phases[currentPhaseIndex]))
      && (gameState == Running ==>
            && minSpeed == MinSpeedOf(Phases[currentPhaseIndex])
            && minSpeed > 0.0
            && maxSpeed > 0.0
            && currentSpeed > 0.0
            && targetSpeed > 0.0)
    }

    /** The state before any run (script.js:79, 262-277). */
    constructor ()
      ensures Valid()
      ensures gameState == Initial && currentPhaseIndex == 0 && distanceCovered == 0.0
      ensures gameTime == 0 && playerLane == 2 && obstacles == [] && lastObstacleSpawnTime == 0.0
      ensures currentSpeed == 0.0 && targetSpeed == 0.0 && minSpeed == 0.0 && maxSpeed == 0.0
      ensures speedStepIndex == 0
    {
      gameState := Initial;
      currentPhaseIndex := 0;
      distanceCovered := 0.0;
      gameTime := 0;
      playerLane := 2;
      currentSpeed := 0.0;
      targetSpeed := 0.0;
      minSpeed := 0.0;
      maxSpeed := 0.0;
      obstacles := [];
      lastObstacleSpawnTime := 0.0;
      speedStepIndex := 0;
    }

    // ------------------------------------------------------------ lanes

    /** The clamp of `movePlayerToLane` (script.js:437-438). */
    static function ClampLane(lane: int): (r: nat)
      ensures r < |Lanes|
      ensures 0 <= lane < |Lanes| ==> r == lane
      ensures lane < 0 ==> r == 0
      ensures lane >= |Lanes| ==> r == |Lanes| - 1
    {
      if lane < 0 then 0 else if lane > |Lanes| - 1 then |Lanes| - 1 else lane
    }

    method MovePlayerToLane(lane: int)
      requires Valid()
      modifies this`playerLane
      ensures Valid()
      ensures playerLane == ClampLane(lane)
    {
      playerLane := ClampLane(lane);
    }

    /** `handleChangeLane` (script.js:755-763): "up" raises the lane index
        by one, "down" lowers it, never leaving the lane table; a game that
        is not running ignores it. */
    method HandleChangeLane(direction: Direction)
      requires Valid()
      modifies this`playerLane
      ensures Valid()
      ensures gameState != Running ==> playerLane == old(playerLane)
      ensures gameState == Running ==>
        playerLane == ClampLane(old(playerLane) + (if direction == Up then 1 else -1))
      ensures -1 <= playerLane - old(playerLane) <= 1
      ensures direction == Up ==> playerLane >= old(playerLane)
      ensures direction == Down ==> playerLane <= old(playerLane)
    {
      if gameState != Running {
        return;
      }
      match direction
      case Down => MovePlayerToLane(playerLane - 1);
      case Up => MovePlayerToLane(playerLane + 1);
    }

    // ------------------------------------------------------------ speed

    /** `handleSpeedUp` (script.js:731-742): one step up the table unless
        already at the top, then the target at that step of the envelope. */
    method HandleSpeedUp()
      requires Valid()
      modifies this`speedStepIndex, this`targetSpeed
      ensures Valid()
      ensures gameState != Running ==>
        speedStepIndex == old(speedStepIndex) && targetSpeed == old(targetSpeed)
      ensures gameState == Running ==>
        && speedStepIndex == (if old(speedStepIndex) < |SpeedSteps| - 1 then old(speedStepIndex) + 1 else old(speedStepIndex))
        && targetSpeed == TargetAtStep(minSpeed, maxSpeed, speedStepIndex)
      ensures gameState == Running && minSpeed <= maxSpeed ==> minSpeed <= targetSpeed <= maxSpeed
      ensures gameState == Running && old(speedStepIndex) == |SpeedSteps| - 1 ==>
        speedStepIndex == old(speedStepIndex) && targetSpeed == maxSpeed
    {
      if gameState != Running {
        return;
      }
      if speedStepIndex < |SpeedSteps| - 1 {
        speedStepIndex := speedStepIndex + 1;
      }
      targetSpeed := minSpeed + SpeedSteps[speedStepIndex] * (maxSpeed - minSpeed);
    }

    /** `handleSlowDown` (script.js:744-753), with `d` the value of
        `Math.pow(minSpeed / maxSpeed, 1 / 2)` computed by the caller: brake the target by
        the factor `d`, never below the envelope's floor, then resync the
        step index with the new target. */
    method HandleSlowDown(d: real)
      requires Valid()
      requires gameState == Running ==> 0.0 < d && d * d * maxSpeed == minSpeed
      modifies this`speedStepIndex, this`targetSpeed
      ensures Valid()
      ensures gameState != Running ==>
        speedStepIndex == old(speedStepIndex) && targetSpeed == old(targetSpeed)
      ensures gameState == Running ==>
        && targetSpeed == Braked(old(targetSpeed), minSpeed, d)
        && targetSpeed >= minSpeed
        && speedStepIndex == StepIndexFor(targetSpeed, minSpeed, maxSpeed)
      ensures gameState == Running && minSpeed <= maxSpeed && minSpeed <= old(targetSpeed) ==>
        targetSpeed <= old(targetSpeed)
    {
      if gameState != Running {
        return;
      }
      if minSpeed <= maxSpeed {
        BrakeFactorAtMostOne(d, minSpeed, maxSpeed);
        BrakeNeverRaises(targetSpeed, minSpeed, d);
      }
      targetSpeed := Braked(targetSpeed, minSpeed, d);
      speedStepIndex := StepIndexFromSpeed(targetSpeed, minSpeed, maxSpeed);
    }

    // ------------------------------------------------------------ phases

    /** The speed-envelope part of `setPhase` (script.js:377-390, 420):
        the new phase's envelope, the step index re-derived from the old
        absolute target within it, and the target snapped to that step. */
    method SetPhase(phaseIndex: nat)
      requires Valid()
      requires phaseIndex < |Phases|
      modifies this`currentPhaseIndex, this`minSpeed, this`maxSpeed, this`speedStepIndex,
               this`targetSpeed, this`playerLane
      ensures Valid()
      ensures currentPhaseIndex == phaseIndex
      ensures minSpeed == MinSpeedOf(Phases[phaseIndex]) && maxSpeed == MaxSpeedOf(Phases[phaseIndex])
      ensures speedStepIndex == StepIndexFor(old(targetSpeed), minSpeed, maxSpeed)
      ensures targetSpeed == TargetAtStep(minSpeed, maxSpeed, speedStepIndex)
      ensures 0.0 < minSpeed <= targetSpeed <= maxSpeed
      ensures playerLane == old(playerLane)
    {
      PhasesWellFormed();
      currentPhaseIndex := phaseIndex;
      var phase := Phases[phaseIndex];
      minSpeed := phase.baseSpeed * phase.minSpeedFactor;
      maxSpeed := phase.baseSpeed * phase.maxSpeedFactor;
      speedStepIndex := StepIndexFromSpeed(targetSpeed, minSpeed, maxSpeed);
      targetSpeed := minSpeed + SpeedSteps[speedStepIndex] * (maxSpeed - minSpeed);
      MovePlayerToLane(playerLane);
    }

    /** `increaseDifficulty` (script.js:555-562). */
    method IncreaseDifficulty()
      requires Valid()
      modifies this`maxSpeed
      ensures Valid()
      ensures maxSpeed == MaxSpeedAt(Phases[currentPhaseIndex], distanceCovered)
    {
      PhasesWellFormed();
      var milestonesReached := (distanceCovered / DistanceMilestone).Floor;
      var basePhase := Phases[currentPhaseIndex];
      var effectiveMaxSpeedFactor := basePhase.maxSpeedFactor * Pow(SpeedIncreaseFactor, milestonesReached);
      maxSpeed := basePhase.baseSpeed * effectiveMaxSpeedFactor;
    }

    // ------------------------------------------------------------ obstacles

    /** `spawnObstacle` (script.js:448-503) with `now` the clock reading and
        the playable area's size measured by the caller. */
    method SpawnObstacle(now: real, areaWidth: real, areaHeight: real, draws: SpawnDraws)
      requires Valid() && ValidDraws(draws)
      modifies this`obstacles, this`lastObstacleSpawnTime
      ensures Valid()
      ensures (obstacles, lastObstacleSpawnTime)
        == Spawn(old(obstacles), old(lastObstacleSpawnTime), now, Phases[currentPhaseIndex],
                 currentSpeed, areaWidth, areaHeight, draws)
    {
      PhasesWellFormed();
      var phase := Phases[currentPhaseIndex];
      if now - lastObstacleSpawnTime < SpawnInterval(phase, currentSpeed) {
        return;
      }
      lastObstacleSpawnTime := now;
      var kind := phase.obstacleTypes[PickIndex(|phase.obstacleTypes|, draws.typeDraw)];
      if kind !in ObstacleConfigs {
        return;
      }
      var config := ObstacleConfigs[kind];
      ObstacleConfigsWellFormed();
      obstacles := obstacles + [NewObstacle(kind, config, areaWidth, areaHeight, draws.laneDraw, draws.jitterDraw)];
    }

    /** `updateObstacles` (script.js:505-537): walk the list from the back,
        move each obstacle, and splice it out when it has left the tracked
        area. */
    method UpdateObstacles(dt: real, areaWidth: real)
      requires Valid()
      modifies this`obstacles
      ensures Valid()
      ensures obstacles == MoveAndCull(old(obstacles), currentSpeed, dt, areaWidth)
    {
      ghost var original := obstacles;
      var speed := currentSpeed;
      var i := |obstacles| - 1;
      while i >= 0
        invariant -1 <= i < |original|
        invariant obstacles == original[..i + 1] + MoveAndCull(original[i + 1..], speed, dt, areaWidth)
      {
        ghost var before := obstacles;
        var obstacle := Moved(obstacles[i], speed, dt);
        obstacles := obstacles[i := obstacle];
        var shouldRemove := obstacle.x + Width(obstacle.config) < 0.0;
        if !shouldRemove && (obstacle.x > areaWidth + 100.0 || obstacle.y + Height(obstacle.config) < -100.0) {
          shouldRemove := true;
        }
        if shouldRemove {
          obstacles := obstacles[..i] + obstacles[i + 1..];
        }
        SpliceStep(original, i, speed, dt, areaWidth, before, shouldRemove, obstacles);
        i := i - 1;
      }
      assert original[0..] == original;
    }

    /** One iteration of the backward loop: moving the obstacle at `i` in
        place, and splicing it out when it is retired, extends the culled
        suffix by one element. */
    static lemma SpliceStep(original: seq<Obstacle>, i: int, speed: real, dt: real, areaWidth: real,
                            before: seq<Obstacle>, removed: bool, after: seq<Obstacle>)
      requires 0 <= i < |original|
      requires before == original[..i + 1] + MoveAndCull(original[i + 1..], speed, dt, areaWidth)
      requires removed == Retired(Moved(before[i], speed, dt), areaWidth)
      requires after == if removed then before[i := Moved(before[i], speed, dt)][..i] + before[i := Moved(before[i], speed, dt)][i + 1..]
                        else before[i := Moved(before[i], speed, dt)]
      ensures after == original[..i] + MoveAndCull(original[i..], speed, dt, areaWidth)
    {
      var front, rest := original[..i], MoveAndCull(original[i + 1..], speed, dt, areaWidth);
      Parts(original, i, rest);
      var obstacle := Moved(original[i], speed, dt);
      CullStep(original, i, speed, dt, areaWidth);
      if removed {
        assert MoveAndCull(original[i..], speed, dt, areaWidth) == rest;
        assert after == front + rest;
      } else {
        assert MoveAndCull(original[i..], speed, dt, areaWidth) == [obstacle] + rest;
        assert after == front + ([obstacle] + rest);
      }
    }

    /** The list at the top of the loop body, taken apart at `i`. */
    static lemma Parts(s: seq<Obstacle>, i: int, rest: seq<Obstacle>)
      requires 0 <= i < |s|
      ensures s[..i + 1] == s[..i] + [s[i]]
      ensures var t := s[..i + 1] + rest; |t| == i + 1 + |rest| && t[..i] == s[..i] && t[i] == s[i] && t[i + 1..] == rest
    {
    }

    /** The culled suffix grows by one element from the back. */
    static lemma CullStep(original: seq<Obstacle>, i: int, speed: real, dt: real, areaWidth: real)
      requires 0 <= i < |original|
      ensures Retired(Moved(original[i], speed, dt), areaWidth) ==>
        MoveAndCull(original[i..], speed, dt, areaWidth) == MoveAndCull(original[i + 1..], speed, dt, areaWidth)
      ensures !Retired(Moved(original[i], speed, dt), areaWidth) ==>
        MoveAndCull(original[i..], speed, dt, areaWidth)
        == [Moved(original[i], speed, dt)] + MoveAndCull(original[i + 1..], speed, dt, areaWidth)
    {
      assert original[i..][1..] == original[i + 1..];
    }

    // ------------------------------------------------------------ lifecycle

    /** `gameOver` (script.js:694-711): the run stops. */
    method GameOver()
      requires Valid()
      modifies this`gameState
      ensures Valid()
      ensures gameState == State.GameOver
    {
      if gameState == State.GameOver {
        return;
      }
      gameState := State.GameOver;
    }

    /** `gameWon` (script.js:713-726): the run stops in the same state as a
        lost one; only the end screen's text differs. */
    method GameWon()
      requires Valid()
      modifies this`gameState
      ensures Valid()
      ensures gameState == State.GameOver
    {
      if gameState == State.GameOver {
        return;
      }
      gameState := State.GameOver;
    }

    /** `startGame` (script.js:650-692), with `resourcesReady` the preload
        flag of script.js:27: a fresh run at the start of the first phase,
        at the initial speed, in lane 1, with no obstacles. */
    method StartGame(resourcesReady: bool)
      requires Valid()
      modifies this
      ensures Valid()
      ensures !resourcesReady || old(gameState) == Running ==> unchanged(this)
      ensures resourcesReady && old(gameState) != Running ==>
        && gameState == Running
        && currentPhaseIndex == 0
        && distanceCovered == 0.0 && gameTime == 0
        && playerLane == 1
        && obstacles == [] && lastObstacleSpawnTime == 0.0
        && minSpeed == MinSpeedOf(Phases[0]) && maxSpeed == MaxSpeedOf(Phases[0])
        && speedStepIndex == 0
        && currentSpeed == InitialStartSpeed && targetSpeed == InitialStartSpeed
    {
      if !resourcesReady {
        return;
      }
      if gameState == Running {
        return;
      }
      obstacles := [];
      distanceCovered := 0.0;
      gameTime := 0;
      playerLane := 1;
      lastObstacleSpawnTime := 0.0;
      speedStepIndex := 0;
      targetSpeed := minSpeed;
      PhasesWellFormed();
      BelowFirstStep(minSpeed, MinSpeedOf(Phases[0]), MaxSpeedOf(Phases[0]));
      SetPhase(0);
      currentSpeed := InitialStartSpeed;
      targetSpeed := InitialStartSpeed;
      gameState := Running;
    }

    /** The one-second timer started by `startGame` (script.js:683-685):
        the elapsed whole seconds grow only while the run is on. */
    method TickTimer()
      requires Valid()
      modifies this`gameTime
      ensures Valid()
      ensures gameTime == old(gameTime) + (if gameState == Running then 1 else 0)
    {
      if gameState == Running {
        gameTime := gameTime + 1;
      }
    }

    // ------------------------------------------------------------ the tick

    /** Step 1 of the tick (script.js:590-598): move the current speed
        toward the target, then clamp it into the envelope. */
    method AdvanceSpeed(dt: real)
      requires Valid() && gameState == Running
      modifies this`currentSpeed
      ensures Valid()
      ensures currentSpeed == Clamp(minSpeed, maxSpeed, Approach(old(currentSpeed), targetSpeed, dt))
    {
      if currentSpeed < targetSpeed {
        currentSpeed := Min(targetSpeed, currentSpeed + Acceleration * dt);
      } else if currentSpeed > targetSpeed {
        currentSpeed := Max(targetSpeed, currentSpeed - Deceleration * dt);
      }
      currentSpeed := Max(minSpeed, Min(maxSpeed, currentSpeed));
    }

    /** Step 2 of the tick (script.js:602-606): add the distance covered at
        the current speed, calibrated for the current phase. */
    method AdvanceDistance(dt: real)
      requires Valid()
      modifies this`distanceCovered
      ensures Valid()
      ensures distanceCovered == DistanceAfter(old(distanceCovered), currentSpeed, currentPhaseIndex, dt)
      ensures dt >= 0.0 && currentSpeed >= 0.0 ==> distanceCovered >= old(distanceCovered)
    {
      var basePhase := Phases[currentPhaseIndex];
      var metersPerPixel := MetersPerPixelAtBaseSpeed(basePhase, currentPhaseIndex);
      var currentMetersPerSecond := currentSpeed * metersPerPixel;
      distanceCovered := distanceCovered + currentMetersPerSecond * dt;
      if dt >= 0.0 && currentSpeed >= 0.0 {
        DistanceNeverDecreases(old(distanceCovered), currentSpeed, currentPhaseIndex, dt);
      }
    }

    /** Steps 6 and 7 of a tick without collision (script.js:622-633): past
        the phase's threshold the next phase begins and the obstacles are
        cleared; past the total distance in the last phase the run is won
        and the tick ends; otherwise, and after a phase change, the
        envelope's ceiling is rescaled for the distance covered. */
    method CheckProgress()
      requires Valid() && gameState == Running
      modifies this`gameState, this`currentPhaseIndex, this`minSpeed, this`maxSpeed,
               this`speedStepIndex, this`targetSpeed, this`playerLane, this`obstacles
      ensures Valid()
      ensures playerLane == old(playerLane)
      ensures var i := old(currentPhaseIndex);
        if i < |Phases| - 1 && distanceCovered >= Phases[i].distanceThreshold then
          && gameState == Running && currentPhaseIndex == i + 1 && obstacles == []
          && minSpeed == MinSpeedOf(Phases[i + 1])
          && speedStepIndex == StepIndexFor(old(targetSpeed), minSpeed, MaxSpeedOf(Phases[i + 1]))
          && targetSpeed == TargetAtStep(minSpeed, MaxSpeedOf(Phases[i + 1]), speedStepIndex)
          && maxSpeed == MaxSpeedAt(Phases[i + 1], distanceCovered)
        else if i == |Phases| - 1 && distanceCovered >= TotalGameDistance then
          && gameState == State.GameOver && currentPhaseIndex == i && obstacles == old(obstacles)
          && minSpeed == old(minSpeed) && maxSpeed == old(maxSpeed)
          && targetSpeed == old(targetSpeed) && speedStepIndex == old(speedStepIndex)
        else
          && gameState == Running && currentPhaseIndex == i && obstacles == old(obstacles)
          && minSpeed == old(minSpeed) && targetSpeed == old(targetSpeed) && speedStepIndex == old(speedStepIndex)
          && maxSpeed == MaxSpeedAt(Phases[i], distanceCovered)
    {
      if currentPhaseIndex < |Phases| - 1 && distanceCovered >= Phases[currentPhaseIndex].distanceThreshold {
        SetPhase(currentPhaseIndex + 1);
        obstacles := [];
      } else if currentPhaseIndex == |Phases| - 1 && distanceCovered >= TotalGameDistance {
        GameWon();
        return;
      }
      IncreaseDifficulty();
    }

    /** One `gameLoop` tick (script.js:584-639) for a running game: speed,
        distance, spawn, scroll and cull, collision, then the phase or win
        check and the difficulty. A phase change takes effect at once (see
        README). */
    method GameLoop(frame: Frame, rectOf: Obstacle -> Rect)
      requires Valid() && ValidDraws(frame.draws)
      modifies this
      ensures Valid()
      ensures old(gameState) != Running ==> unchanged(this)
      ensures old(gameState) == Running ==>
        && currentSpeed == Clamp(old(minSpeed), old(maxSpeed), Approach(old(currentSpeed), old(targetSpeed), frame.dt))
        && distanceCovered == DistanceAfter(old(distanceCovered), currentSpeed, old(currentPhaseIndex), frame.dt)
        && (frame.dt >= 0.0 ==> distanceCovered >= old(distanceCovered))
        && playerLane == old(playerLane) && gameTime == old(gameTime)
        && old(currentPhaseIndex) <= currentPhaseIndex <= old(currentPhaseIndex) + 1
      ensures old(gameState) == Running ==>
        var spawned := Spawn(old(obstacles), old(lastObstacleSpawnTime), frame.now, Phases[old(currentPhaseIndex)],
                             currentSpeed, frame.areaWidth, frame.areaHeight, frame.draws);
        var moved := MoveAndCull(spawned.0, currentSpeed, frame.dt, frame.areaWidth);
        var i := old(currentPhaseIndex);
        && lastObstacleSpawnTime == spawned.1
        && (if AnyCollision(frame.playerRect, moved, rectOf) then
              && gameState == State.GameOver && currentPhaseIndex == i && obstacles == moved
              && minSpeed == old(minSpeed) && maxSpeed == old(maxSpeed)
              && targetSpeed == old(targetSpeed) && speedStepIndex == old(speedStepIndex)
            else if i < |Phases| - 1 && distanceCovered >= Phases[i].distanceThreshold then
              && gameState == Running && currentPhaseIndex == i + 1 && obstacles == []
              && minSpeed == MinSpeedOf(Phases[i + 1])
              && speedStepIndex == StepIndexFor(old(targetSpeed), minSpeed, MaxSpeedOf(Phases[i + 1]))
              && targetSpeed == TargetAtStep(minSpeed, MaxSpeedOf(Phases[i + 1]), speedStepIndex)
              && maxSpeed == MaxSpeedAt(Phases[i + 1], distanceCovered)
            else if i == |Phases| - 1 && distanceCovered >= TotalGameDistance then
              && gameState == State.GameOver && currentPhaseIndex == i && obstacles == moved
              && minSpeed == old(minSpeed) && maxSpeed == old(maxSpeed)
              && targetSpeed == old(targetSpeed) && speedStepIndex == old(speedStepIndex)
            else
              && gameState == Running && currentPhaseIndex == i && obstacles == moved
              && targetSpeed == old(targetSpeed) && speedStepIndex == old(speedStepIndex)
              && maxSpeed == MaxSpeedAt(Phases[i], distanceCovered))
    {
      if gameState != Running {
        return;
      }
      AdvanceSpeed(frame.dt);
      AdvanceDistance(frame.dt);
      ghost var spawned := Spawn(obstacles, lastObstacleSpawnTime, frame.now, Phases[currentPhaseIndex],
                                 currentSpeed, frame.areaWidth, frame.areaHeight, frame.draws);
      SpawnObstacle(frame.now, frame.areaWidth, frame.areaHeight, frame.draws);
      UpdateObstacles(frame.dt, frame.areaWidth);
      ghost var moved := obstacles;
      assert moved == MoveAndCull(spawned.0, currentSpeed, frame.dt, frame.areaWidth);
      var hit := CheckCollisions(frame.playerRect, obstacles, rectOf);
      if hit {
        GameOver();
        return;
      }
      assert !AnyCollision(frame.playerRect, moved, rectOf);
      CheckProgress();
    }
  }

  /** A phase change does not carry the step over: the swim's top speed,
      200, falls on step 1 of the bike's envelope [10, 500], so the target
      becomes 157 and the step index drops from 5 to 1 (script.js:388-390). */
  lemma SwimTopSpeedResyncsToBikeStepOne()
    ensures MaxSpeedOf(Phases[0]) == 200.0
    ensures MinSpeedOf(Phases[1]) == 10.0 && MaxSpeedOf(Phases[1]) == 500.0
    ensures StepIndexFor(MaxSpeedOf(Phases[0]), MinSpeedOf(Phases[1]), MaxSpeedOf(Phases[1])) == 1
    ensures TargetAtStep(MinSpeedOf(Phases[1]), MaxSpeedOf(Phases[1]), 1) == 157.0
  {
    SpeedStepsAscending();
    StepIndexCharacterized(200.0, 10.0, 500.0, 1);
  }

  /** The clamp of a tick precedes its phase change and difficulty update,
      so the tick that starts the run can end with the speed above the new
      ceiling: just short of the bike threshold the bike's ceiling is
      500 * 1.02^5, above the run's 350 * 1.02^6 at the threshold. */
  lemma RunCeilingBelowLateBikeSpeed()
    ensures MilestonesReached(8999.0) == 5 && MilestonesReached(Phases[1].distanceThreshold) == 6
    ensures MaxSpeedAt(Phases[2], Phases[1].distanceThreshold) < MaxSpeedAt(Phases[1], 8999.0)
  {
    assert 5.0 <= 8999.0 / DistanceMilestone < 6.0;
    assert 9000.0 / DistanceMilestone == 6.0;
    assert Pow(SpeedIncreaseFactor, 5) == 1.1040808032;
    assert Pow(SpeedIncreaseFactor, 6) == 1.126162419264;
  }
}
