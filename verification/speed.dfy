/**
 * The speed controller: per-tick convergence of the current speed toward the
 * target speed, the clamp into the phase's envelope, and the discrete step
 * table that quantizes the player's speed-up and slow-down intents
 * (script.js:67-78, 591-598, 731-753).
 */
module Speed {
  import opened Config

  const Acceleration: real := 2000.0
  const Deceleration: real := 2000.0

  /** `Math.min` on reals (no NaN arises in this model). */
  function Min(a: real, b: real): (r: real)
    ensures r <= a && r <= b && (r == a || r == b)
  {
    if a <= b then a else b
  }

  /** `Math.max` on reals. */
  function Max(a: real, b: real): (r: real)
    ensures r >= a && r >= b && (r == a || r == b)
  {
    if a >= b then a else b
  }

  /** One tick of convergence toward the target (script.js:593-597). */
  function Approach(current: real, target: real, dt: real): real
  {
    if current < target then Min(target, current + Acceleration * dt)
    else if current > target then Max(target, current - Deceleration * dt)
    else current
  }

  /** The clamp into the envelope (script.js:598): `Math.max(lo, Math.min(hi, v))`. */
  function Clamp(lo: real, hi: real, v: real): real
  {
    Max(lo, Min(hi, v))
  }

  /** For a non-negative time step the speed moves toward the target, by at
      most the acceleration (or deceleration) times the step, never past it,
      and lands on it when it is within one step's reach. */
  lemma ApproachNeverOvershoots(current: real, target: real, dt: real)
    requires dt >= 0.0
    ensures current <= target ==> current <= Approach(current, target, dt) <= target
    ensures target <= current ==> target <= Approach(current, target, dt) <= current
    ensures current - Deceleration * dt <= Approach(current, target, dt) <= current + Acceleration * dt
    ensures current <= target <= current + Acceleration * dt ==> Approach(current, target, dt) == target
    ensures current - Deceleration * dt <= target <= current ==> Approach(current, target, dt) == target
  {
  }

  /** The clamp never goes below the lower bound; when the envelope is not
      empty the result lies inside it and a value already inside is kept. */
  lemma ClampIntoEnvelope(lo: real, hi: real, v: real)
    ensures Clamp(lo, hi, v) >= lo
    ensures lo <= hi ==> lo <= Clamp(lo, hi, v) <= hi
    ensures lo <= v <= hi ==> Clamp(lo, hi, v) == v
    ensures lo <= hi < v ==> Clamp(lo, hi, v) == hi
    ensures v < lo ==> Clamp(lo, hi, v) == lo
  {
  }

  /** `pct >= s` where `pct = (v - lo) / (hi - lo)` (script.js:70, 74), with
      the IEEE-754 outcome of a zero denominator written out: +Infinity when
      v > lo (reaches every step), NaN when v == lo and -Infinity when v < lo
      (reaches none). A negative denominator flips the comparison. */
  predicate Reaches(v: real, lo: real, hi: real, s: real)
  {
    if hi > lo then v - lo >= s * (hi - lo)
    else if hi < lo then v - lo <= s * (hi - lo)
    else v > lo
  }

  /** Reaching a step implies reaching every lower step. */
  lemma ReachesDownward(v: real, lo: real, hi: real, s: real, t: real)
    requires t <= s
    requires Reaches(v, lo, hi, s)
    ensures Reaches(v, lo, hi, t)
  {
    if hi > lo {
      assert (s - t) * (hi - lo) >= 0.0;
    } else if hi < lo {
      assert (s - t) * (lo - hi) >= 0.0;
    }
  }

  /** The largest index below `k` whose step `v` reaches, or 0. */
  function LargestReachedBelow(v: real, lo: real, hi: real, k: nat): (i: nat)
    requires k <= |SpeedSteps|
    ensures i == 0 || (i < k && Reaches(v, lo, hi, SpeedSteps[i]))
    ensures forall j :: i < j < k ==> !Reaches(v, lo, hi, SpeedSteps[j])
  {
    if k <= 1 then 0
    else if Reaches(v, lo, hi, SpeedSteps[k - 1]) then k - 1
    else LargestReachedBelow(v, lo, hi, k - 1)
  }

  /** The step index that the speed `v` falls on within `[lo, hi]`: the
      largest step at or below its fraction, 0 when none is. */
  function StepIndexFor(v: real, lo: real, hi: real): (idx: nat)
    ensures idx < |SpeedSteps|
    ensures idx == 0 || Reaches(v, lo, hi, SpeedSteps[idx])
    ensures forall j :: idx < j < |SpeedSteps| ==> !Reaches(v, lo, hi, SpeedSteps[j])
  {
    LargestReachedBelow(v, lo, hi, |SpeedSteps|)
  }

  /** `updateStepIndexFromSpeed` (script.js:68-78): scan the steps upward,
      keeping the last one reached, and stop at the first one not reached. */
  method StepIndexFromSpeed(v: real, lo: real, hi: real) returns (idx: nat)
    ensures idx == StepIndexFor(v, lo, hi)
  {
    idx := 0;
    var i := 0;
    while i < |SpeedSteps|
      invariant 0 <= i <= |SpeedSteps|
      invariant forall j :: 0 <= j < i ==> Reaches(v, lo, hi, SpeedSteps[j])
      invariant idx == if i == 0 then 0 else i - 1
    {
      if Reaches(v, lo, hi, SpeedSteps[i]) {
        idx := i;
      } else {
        forall j | i < j < |SpeedSteps|
          ensures !Reaches(v, lo, hi, SpeedSteps[j])
        {
          SpeedStepsAscending();
          if Reaches(v, lo, hi, SpeedSteps[j]) {
            ReachesDownward(v, lo, hi, SpeedSteps[j], SpeedSteps[i]);
          }
        }
        break;
      }
      i := i + 1;
    }
    StepIndexCharacterized(v, lo, hi, idx);
  }

  /** The largest reached step is unique: any index with that property is
      the one `StepIndexFor` gives. */
  lemma StepIndexCharacterized(v: real, lo: real, hi: real, idx: nat)
    requires idx < |SpeedSteps|
    requires idx == 0 || Reaches(v, lo, hi, SpeedSteps[idx])
    requires forall j :: idx < j < |SpeedSteps| ==> !Reaches(v, lo, hi, SpeedSteps[j])
    ensures idx == StepIndexFor(v, lo, hi)
  {
  }

  /** The target speed of step `i` in the envelope `[lo, hi]` (script.js:740-741, 389-390). */
  function TargetAtStep(lo: real, hi: real, i: nat): (r: real)
    requires i < |SpeedSteps|
    ensures lo <= hi ==> lo <= r <= hi
    ensures i == 0 ==> r == lo
    ensures i == |SpeedSteps| - 1 ==> r == hi
    ensures lo > 0.0 && hi > 0.0 ==> r > 0.0
  {
    SpeedStepsAscending();
    var s := SpeedSteps[i];
    assert lo <= hi ==> s * (hi - lo) <= hi - lo by {
      if lo <= hi { assert (1.0 - s) * (hi - lo) >= 0.0; }
    }
    assert hi < lo ==> s * (hi - lo) >= hi - lo by {
      if hi < lo { assert (1.0 - s) * (lo - hi) >= 0.0; }
    }
    lo + s * (hi - lo)
  }

  /** Higher steps give higher targets in a non-empty envelope. */
  lemma TargetAtStepMonotone(lo: real, hi: real, i: nat, j: nat)
    requires lo <= hi
    requires i <= j < |SpeedSteps|
    ensures TargetAtStep(lo, hi, i) <= TargetAtStep(lo, hi, j)
  {
    SpeedStepsAscending();
    var a, b := SpeedSteps[j] - SpeedSteps[i], hi - lo;
    assert a >= 0.0 && b >= 0.0;
    assert a * b >= 0.0;
  }

  /** Round trip: the target a speed-up sets is mapped back to the very same
      step index, so later speed-ups resume from where they left off. */
  lemma StepRoundTrip(lo: real, hi: real, i: nat)
    requires lo < hi
    requires i < |SpeedSteps|
    ensures StepIndexFor(TargetAtStep(lo, hi, i), lo, hi) == i
  {
    SpeedStepsAscending();
    var v := TargetAtStep(lo, hi, i);
    var idx := StepIndexFor(v, lo, hi);
    assert Reaches(v, lo, hi, SpeedSteps[i]);
  }

  /** Snapping a speed to its step in a non-empty envelope (script.js:388-390):
      a speed at or above the floor is lowered to the target of its step,
      short of the next step's target; a speed below the floor is raised
      to the floor. */
  lemma SnapToStep(v: real, lo: real, hi: real)
    requires lo < hi
    ensures var idx := StepIndexFor(v, lo, hi);
      && (lo <= v ==> TargetAtStep(lo, hi, idx) <= v)
      && (idx + 1 < |SpeedSteps| ==> v < TargetAtStep(lo, hi, idx + 1))
      && (v < lo ==> idx == 0 && TargetAtStep(lo, hi, idx) == lo)
  {
    SpeedStepsAscending();
    var idx := StepIndexFor(v, lo, hi);
    if idx + 1 < |SpeedSteps| {
      assert !Reaches(v, lo, hi, SpeedSteps[idx + 1]);
    }
  }

  /** A speed short of the first non-zero step maps to step 0. */
  lemma BelowFirstStep(v: real, lo: real, hi: real)
    requires lo < hi
    requires v - lo < SpeedSteps[1] * (hi - lo)
    ensures StepIndexFor(v, lo, hi) == 0
  {
    SpeedStepsAscending();
    var idx := StepIndexFor(v, lo, hi);
    if idx > 0 {
      ReachesDownward(v, lo, hi, SpeedSteps[idx], SpeedSteps[1]);
      assert false;
    }
  }

  /** The slow-down brake: `Math.max(lo, target * d)` (script.js:749). */
  function Braked(target: real, lo: real, d: real): real
  {
    Max(lo, target * d)
  }

  /** The brake never drops below the lower bound, and with `0 < d <= 1` it
      never raises a target that is already at or above that bound. */
  lemma BrakeNeverRaises(target: real, lo: real, d: real)
    requires 0.0 < d <= 1.0
    ensures Braked(target, lo, d) >= lo
    ensures 0.0 <= lo <= target ==> Braked(target, lo, d) <= target
    ensures lo <= target * d ==> Braked(target, lo, d) == target * d
  {
    if 0.0 <= lo <= target {
      assert target * d <= target by { assert target * (1.0 - d) >= 0.0; }
    }
  }

  /** The brake factor `d = (min / max)^(1/2)` of script.js:748 lies in (0, 1]
      whenever the envelope is not empty. */
  lemma BrakeFactorAtMostOne(d: real, lo: real, hi: real)
    requires 0.0 < d
    requires 0.0 < lo <= hi
    requires d * d * hi == lo
    ensures d <= 1.0
  {
  }
}
