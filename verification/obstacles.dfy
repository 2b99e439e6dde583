/**
 * The obstacle subsystem: the interval-gated spawner, the per-tick scroll of
 * every obstacle and the culling of those that left the tracked area
 * (script.js:448-537). The browser's random draws are parameters.
 */
module Obstacles {
  import opened Config

  /** An obstacle on the field: its type, the registry entry it was created
      from, its position in the playable area and its lane (script.js:498-501). */
  datatype Obstacle = Obstacle(kind: string, config: ObstacleConfig, x: real, y: real, laneIndex: nat)

  /** The three `Math.random()` draws of one spawn: obstacle type, lane and
      vertical jitter (script.js:458, 477, 481). */
  datatype SpawnDraws = SpawnDraws(typeDraw: real, laneDraw: real, jitterDraw: real)

  predicate ValidDraws(r: SpawnDraws)
  {
    && 0.0 <= r.typeDraw < 1.0
    && 0.0 <= r.laneDraw < 1.0
    && 0.0 <= r.jitterDraw < 1.0
  }

  /** Rendered width and height of an obstacle (script.js:470-471, 520-521). */
  function Width(c: ObstacleConfig): real
  {
    c.width * GlobalScale
  }

  function Height(c: ObstacleConfig): real
  {
    c.height * GlobalScale
  }

  // ---------------------------------------------------------------- spawning

  /** The time between spawns (script.js:452-453): slower than the phase's
      base speed means rarer obstacles. Both `|| 1` fallbacks of the source
      are kept: a zero base speed counts as 1 and a zero speed ratio as 1. */
  function SpawnInterval(phase: Phase, speed: real): real
  {
    var ratio := speed / (if phase.baseSpeed == 0.0 then 1.0 else phase.baseSpeed);
    phase.baseObstacleFrequency / (if ratio == 0.0 then 1.0 else ratio) / GlobalObstacleDensityFactor
  }

  /** A spawn fires unless less than one interval has passed (script.js:455). */
  predicate SpawnDue(now: real, lastSpawn: real, phase: Phase, speed: real)
  {
    !(now - lastSpawn < SpawnInterval(phase, speed))
  }

  /** At base speed, and also when the speed is exactly zero, the interval
      is the phase's base frequency over the density factor. */
  lemma SpawnIntervalAtBaseSpeed(phase: Phase)
    requires phase.baseSpeed > 0.0
    ensures SpawnInterval(phase, phase.baseSpeed) == phase.baseObstacleFrequency / GlobalObstacleDensityFactor
    ensures SpawnInterval(phase, 0.0) == phase.baseObstacleFrequency / GlobalObstacleDensityFactor
  {
  }

  /** Going faster never makes obstacles rarer: the interval shrinks as the
      speed grows. */
  lemma SpawnIntervalShrinksWithSpeed(phase: Phase, s1: real, s2: real)
    requires phase.baseSpeed > 0.0 && phase.baseObstacleFrequency >= 0.0
    requires 0.0 < s1 <= s2
    ensures SpawnInterval(phase, s2) <= SpawnInterval(phase, s1)
  {
    var b, f := phase.baseSpeed, phase.baseObstacleFrequency;
    var r1, r2 := s1 / b, s2 / b;
    assert 0.0 < r1 <= r2 by {
      assert r1 * b == s1 && r2 * b == s2;
    }
    assert f / r2 <= f / r1 by {
      assert (f / r2) * r2 == f && (f / r1) * r1 == f;
    }
  }

  /** `Math.floor(r * n)` for a draw `r` in [0, 1): a valid index into a
      pool of `n` entries. */
  function PickIndex(n: nat, r: real): (k: nat)
    requires n > 0 && 0.0 <= r < 1.0
    ensures k < n
  {
    assert 0.0 <= r * (n as real) < n as real by {
      assert (1.0 - r) * (n as real) > 0.0;
    }
    (r * (n as real)).Floor
  }

  /** The top of an obstacle of height `h` centered on lane `lane` of a
      playable area `areaHeight` pixels high (script.js:478-480). */
  function LaneTop(areaHeight: real, lane: nat, h: real): real
    requires lane < |Lanes|
  {
    areaHeight * (1.0 - Lanes[lane] / 100.0) - h / 2.0
  }

  /** A freshly placed obstacle (script.js:464-501): just past the right
      edge, on a lane drawn from its pool, jittered by up to 10 pixels. */
  function NewObstacle(kind: string, c: ObstacleConfig, areaWidth: real, areaHeight: real, laneDraw: real, jitterDraw: real): (o: Obstacle)
    requires WellFormedConfig(c)
    requires 0.0 <= laneDraw < 1.0 && 0.0 <= jitterDraw < 1.0
    ensures o.kind == kind && o.config == c
    ensures o.x == areaWidth + 50.0
    ensures o.laneIndex in LanePool(c) && o.laneIndex < |Lanes|
    ensures LaneTop(areaHeight, o.laneIndex, Height(c)) - 10.0 <= o.y < LaneTop(areaHeight, o.laneIndex, Height(c)) + 10.0
  {
    var pool := LanePool(c);
    var lane := pool[PickIndex(|pool|, laneDraw)];
    var y := LaneTop(areaHeight, lane, Height(c));
    Obstacle(kind, c, areaWidth + 50.0, y + (jitterDraw - 0.5) * 20.0, lane)
  }

  /** `spawnObstacle` as a function of the obstacle list and the time of
      the last spawn (script.js:448-503): nothing happens before the
      interval has passed; afterwards the spawn time is reset even if the
      drawn type has no registry entry, in which case nothing is added. */
  function Spawn(obs: seq<Obstacle>, lastSpawn: real, now: real, phase: Phase, speed: real,
                 areaWidth: real, areaHeight: real, draws: SpawnDraws): (r: (seq<Obstacle>, real))
    requires |phase.obstacleTypes| > 0 && ValidDraws(draws)
  {
    if !SpawnDue(now, lastSpawn, phase, speed) then (obs, lastSpawn)
    else
      var kind := phase.obstacleTypes[PickIndex(|phase.obstacleTypes|, draws.typeDraw)];
      if kind !in ObstacleConfigs then (obs, now)
      else
        ObstacleConfigsWellFormed();
        var o := NewObstacle(kind, ObstacleConfigs[kind], areaWidth, areaHeight, draws.laneDraw, draws.jitterDraw);
        (obs + [o], now)
  }

  /** At most one obstacle is appended per call and the existing ones are
      untouched; a spawn that is not due changes nothing, one that is due
      resets the spawn time and appends exactly one obstacle when the drawn
      type is registered, and an appended obstacle has one of the phase's
      types, starts just past the right edge and sits in an allowed lane. */
  lemma SpawnAppendsAtMostOne(obs: seq<Obstacle>, lastSpawn: real, now: real, phase: Phase, speed: real,
                              areaWidth: real, areaHeight: real, draws: SpawnDraws)
    requires |phase.obstacleTypes| > 0 && ValidDraws(draws)
    ensures var r := Spawn(obs, lastSpawn, now, phase, speed, areaWidth, areaHeight, draws);
      && |obs| <= |r.0| <= |obs| + 1
      && r.0[..|obs|] == obs
      && (!SpawnDue(now, lastSpawn, phase, speed) ==> r == (obs, lastSpawn))
      && (SpawnDue(now, lastSpawn, phase, speed) ==> r.1 == now)
      && ((SpawnDue(now, lastSpawn, phase, speed)
           && phase.obstacleTypes[PickIndex(|phase.obstacleTypes|, draws.typeDraw)] in ObstacleConfigs)
          ==> |r.0| == |obs| + 1)
      && (|r.0| == |obs| + 1 ==>
            && r.0[|obs|].kind in phase.obstacleTypes
            && r.0[|obs|].kind in ObstacleConfigs
            && r.0[|obs|].config == ObstacleConfigs[r.0[|obs|].kind]
            && r.0[|obs|].x == areaWidth + 50.0
            && r.0[|obs|].laneIndex in LanePool(r.0[|obs|].config))
  {
    var r := Spawn(obs, lastSpawn, now, phase, speed, areaWidth, areaHeight, draws);
    assert r.0[..|obs|] == obs by {
      if |r.0| == |obs| + 1 { assert r.0 == obs + [r.0[|obs|]]; }
    }
  }

  /** With the game's phase table every drawn type is registered, so a due
      spawn always appends exactly one obstacle. */
  lemma DueSpawnAppendsOne(obs: seq<Obstacle>, lastSpawn: real, now: real, i: nat, speed: real,
                           areaWidth: real, areaHeight: real, draws: SpawnDraws)
    requires i < |Phases| && ValidDraws(draws)
    requires |Phases[i].obstacleTypes| > 0
    requires SpawnDue(now, lastSpawn, Phases[i], speed)
    ensures var r := Spawn(obs, lastSpawn, now, Phases[i], speed, areaWidth, areaHeight, draws);
      |r.0| == |obs| + 1 && r.0[..|obs|] == obs && r.1 == now
  {
    PhasesWellFormed();
    PhaseTypesRegistered();
    SpawnAppendsAtMostOne(obs, lastSpawn, now, Phases[i], speed, areaWidth, areaHeight, draws);
  }

  // ------------------------------------------------------ motion and culling

  /** `config.speedFactor || 1.0`: a zero factor falls back to 1 (script.js:515). */
  function ScrollFactor(c: ObstacleConfig): real
  {
    if c.speedFactor == 0.0 then 1.0 else c.speedFactor
  }

  /** One tick of horizontal scroll (script.js:515). */
  function Moved(o: Obstacle, speed: real, dt: real): (m: Obstacle)
    ensures m.kind == o.kind && m.config == o.config && m.y == o.y && m.laneIndex == o.laneIndex
    ensures o.x - m.x == speed * ScrollFactor(o.config) * dt
  {
    o.(x := o.x - speed * ScrollFactor(o.config) * dt)
  }

  /** The removal test of script.js:526-530: past the left edge by its own
      width, beyond the right margin, or above the top margin. */
  predicate Retired(o: Obstacle, areaWidth: real)
  {
    var offLeft := o.x + Width(o.config) < 0.0;
    offLeft || o.x > areaWidth + 100.0 || o.y + Height(o.config) < -100.0
  }

  /** Every obstacle moved by one tick, in order. */
  function MovedAll(obs: seq<Obstacle>, speed: real, dt: real): (r: seq<Obstacle>)
    ensures |r| == |obs|
    ensures forall k :: 0 <= k < |obs| ==> r[k] == Moved(obs[k], speed, dt)
  {
    if obs == [] then [] else [Moved(obs[0], speed, dt)] + MovedAll(obs[1..], speed, dt)
  }

  /** What `updateObstacles` leaves: every obstacle moved, the retired ones
      dropped, the others kept in their order. */
  function MoveAndCull(obs: seq<Obstacle>, speed: real, dt: real, areaWidth: real): seq<Obstacle>
  {
    if obs == [] then []
    else
      var m := Moved(obs[0], speed, dt);
      (if Retired(m, areaWidth) then [] else [m]) + MoveAndCull(obs[1..], speed, dt, areaWidth)
  }

  /** `a` is `b` with some entries left out, the rest in the same order. */
  predicate SubsequenceOf<T(==)>(a: seq<T>, b: seq<T>)
    decreases |b|
  {
    if b == [] then a == []
    else (a != [] && a[0] == b[0] && SubsequenceOf(a[1..], b[1..])) || SubsequenceOf(a, b[1..])
  }

  lemma {:induction false} SubsequenceNoLonger<T>(a: seq<T>, b: seq<T>)
    requires SubsequenceOf(a, b)
    ensures |a| <= |b|
    decreases |b|
  {
    if b != [] {
      if a != [] && a[0] == b[0] && SubsequenceOf(a[1..], b[1..]) {
        SubsequenceNoLonger(a[1..], b[1..]);
      } else {
        SubsequenceNoLonger(a, b[1..]);
      }
    }
  }

  /** Survivors keep their relative order: the culled list is a
      subsequence of the moved list, so the count never increases. */
  lemma {:induction false} SurvivorsKeepOrder(obs: seq<Obstacle>, speed: real, dt: real, areaWidth: real)
    ensures SubsequenceOf(MoveAndCull(obs, speed, dt, areaWidth), MovedAll(obs, speed, dt))
    ensures |MoveAndCull(obs, speed, dt, areaWidth)| <= |obs|
  {
    var r := MoveAndCull(obs, speed, dt, areaWidth);
    var all := MovedAll(obs, speed, dt);
    if obs != [] {
      SurvivorsKeepOrder(obs[1..], speed, dt, areaWidth);
      var rest := MoveAndCull(obs[1..], speed, dt, areaWidth);
      var m := Moved(obs[0], speed, dt);
      assert all[0] == m && all[1..] == MovedAll(obs[1..], speed, dt);
      if !Retired(m, areaWidth) {
        assert r == [m] + rest;
        assert r[0] == all[0] && r[1..] == rest;
      } else {
        assert r == rest;
      }
    }
    SubsequenceNoLonger(r, all);
  }

  /** Every survivor is inside the tracked area: not past the left edge by
      its width, not beyond the right margin, not above the top margin. */
  lemma {:induction false} SurvivorsInBounds(obs: seq<Obstacle>, speed: real, dt: real, areaWidth: real)
    ensures forall o :: o in MoveAndCull(obs, speed, dt, areaWidth) ==>
      && o.x + Width(o.config) >= 0.0
      && o.x <= areaWidth + 100.0
      && o.y + Height(o.config) >= -100.0
  {
    if obs != [] {
      SurvivorsInBounds(obs[1..], speed, dt, areaWidth);
    }
  }

  /** No obstacle is removed by mistake: each moved obstacle that is still
      inside the tracked area survives the tick. */
  lemma {:induction false} InBoundsSurvive(obs: seq<Obstacle>, speed: real, dt: real, areaWidth: real)
    ensures forall k :: 0 <= k < |obs| && !Retired(Moved(obs[k], speed, dt), areaWidth) ==>
      Moved(obs[k], speed, dt) in MoveAndCull(obs, speed, dt, areaWidth)
  {
    if obs != [] {
      InBoundsSurvive(obs[1..], speed, dt, areaWidth);
      forall k | 0 < k < |obs| && !Retired(Moved(obs[k], speed, dt), areaWidth)
        ensures Moved(obs[k], speed, dt) in MoveAndCull(obs, speed, dt, areaWidth)
      {
        assert obs[k] == obs[1..][k - 1];
      }
    }
  }

  /** Survivors are the old obstacles, moved left by speed times factor
      times the time step, at the same height. */
  lemma {:induction false} SurvivorsAreMovedObstacles(obs: seq<Obstacle>, speed: real, dt: real, areaWidth: real)
    ensures forall o :: o in MoveAndCull(obs, speed, dt, areaWidth) ==>
      exists k :: 0 <= k < |obs| && o == Moved(obs[k], speed, dt)
  {
    if obs != [] {
      SurvivorsAreMovedObstacles(obs[1..], speed, dt, areaWidth);
      forall o | o in MoveAndCull(obs, speed, dt, areaWidth)
        ensures exists k :: 0 <= k < |obs| && o == Moved(obs[k], speed, dt)
      {
        if o != Moved(obs[0], speed, dt) {
          assert o in MoveAndCull(obs[1..], speed, dt, areaWidth);
          var k :| 0 <= k < |obs[1..]| && o == Moved(obs[1..][k], speed, dt);
          assert o == Moved(obs[k + 1], speed, dt);
        }
      }
    }
  }
}
