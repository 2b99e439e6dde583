/**
 * The difficulty scaler: every 1500 units of distance raise the ceiling of
 * the speed envelope by 2% (script.js:555-562).
 */
module Difficulty {
  import opened Config

  const DistanceMilestone: real := 1500.0
  const SpeedIncreaseFactor: real := 1.02

  /** `Math.pow(b, m)` for an integer exponent; a negative exponent (a
      negative distance, possible on the very first tick) gives `1 / b^-m`. */
  function Pow(b: real, m: int): (r: real)
    requires b > 0.0
    ensures r > 0.0
    decreases if m < 0 then 1 - m else m
  {
    if m == 0 then 1.0
    else if m > 0 then b * Pow(b, m - 1)
    else 1.0 / Pow(b, -m)
  }

  /** `Math.floor(distanceCovered / distanceMilestone)` (script.js:558). */
  function MilestonesReached(distance: real): int
  {
    (distance / DistanceMilestone).Floor
  }

  /** The ceiling of the speed envelope after `distance` (script.js:559-561). */
  function MaxSpeedAt(phase: Phase, distance: real): (r: real)
    ensures phase.baseSpeed * phase.maxSpeedFactor > 0.0 ==> r > 0.0
  {
    var p := Pow(SpeedIncreaseFactor, MilestonesReached(distance));
    assert phase.baseSpeed * (phase.maxSpeedFactor * p) == phase.baseSpeed * phase.maxSpeedFactor * p;
    phase.baseSpeed * (phase.maxSpeedFactor * p)
  }

  lemma {:induction false} PowAtLeastOne(b: real, m: nat)
    requires b >= 1.0
    ensures Pow(b, m) >= 1.0
  {
    if m > 0 {
      PowAtLeastOne(b, m - 1);
      assert b * Pow(b, m - 1) >= Pow(b, m - 1) by {
        assert (b - 1.0) * Pow(b, m - 1) >= 0.0;
      }
    }
  }

  lemma {:induction false} PowMonotone(b: real, m: nat, n: nat)
    requires b >= 1.0
    requires m <= n
    ensures Pow(b, m) <= Pow(b, n)
  {
    if m < n {
      PowMonotone(b, m, n - 1);
      PowAtLeastOne(b, n - 1);
      assert b * Pow(b, n - 1) >= Pow(b, n - 1) by {
        assert (b - 1.0) * Pow(b, n - 1) >= 0.0;
      }
    }
  }

  lemma MilestonesMonotone(d1: real, d2: real)
    requires d1 <= d2
    ensures MilestonesReached(d1) <= MilestonesReached(d2)
  {
    assert d1 / DistanceMilestone <= d2 / DistanceMilestone;
  }

  /** One more milestone multiplies the ceiling by exactly 1.02. */
  lemma NextMilestone(phase: Phase, distance: real)
    requires distance >= 0.0
    ensures MilestonesReached(distance + DistanceMilestone) == MilestonesReached(distance) + 1
    ensures MaxSpeedAt(phase, distance + DistanceMilestone) == MaxSpeedAt(phase, distance) * SpeedIncreaseFactor
  {
    assert (distance + DistanceMilestone) / DistanceMilestone == distance / DistanceMilestone + 1.0;
    var m := MilestonesReached(distance);
    assert m >= 0;
    assert Pow(SpeedIncreaseFactor, m + 1) == SpeedIncreaseFactor * Pow(SpeedIncreaseFactor, m);
  }

  /** On a non-negative distance the ceiling never falls below the phase's
      own maximum, and it only grows as the distance grows. */
  lemma MaxSpeedGrowsWithDistance(phase: Phase, d1: real, d2: real)
    requires phase.baseSpeed * phase.maxSpeedFactor >= 0.0
    requires 0.0 <= d1 <= d2
    ensures MaxSpeedOf(phase) <= MaxSpeedAt(phase, d1) <= MaxSpeedAt(phase, d2)
  {
    MilestonesMonotone(0.0, d1);
    MilestonesMonotone(d1, d2);
    var m1, m2 := MilestonesReached(d1), MilestonesReached(d2);
    PowAtLeastOne(SpeedIncreaseFactor, m1);
    PowMonotone(SpeedIncreaseFactor, m1, m2);
    ScaleMonotone(MaxSpeedOf(phase), Pow(SpeedIncreaseFactor, m1), Pow(SpeedIncreaseFactor, m2));
  }

  lemma ScaleMonotone(c: real, p1: real, p2: real)
    requires c >= 0.0 && 1.0 <= p1 <= p2
    ensures c <= c * p1 <= c * p2
  {
    assert c * (p1 - 1.0) >= 0.0;
    assert c * (p2 - p1) >= 0.0;
  }

  /** Three thousand units in, two milestones have been reached. */
  lemma TwoMilestonesAt3000(phase: Phase)
    ensures MilestonesReached(3000.0) == 2
    ensures MaxSpeedAt(phase, 3000.0) == phase.baseSpeed * phase.maxSpeedFactor * 1.0404
  {
    assert 3000.0 / DistanceMilestone == 2.0;
    assert Pow(SpeedIncreaseFactor, 2) == 1.0404;
  }
}
