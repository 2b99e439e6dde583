/**
 * The distance integrator: a per-phase calibration that turns the abstract
 * speed unit into meters, so that each phase lasts a designed time at its
 * base speed (script.js:361-375, 603-606).
 */
module Distance {
  import opened Config

  /** The designed duration of a phase at base speed, keyed by its name;
      unknown names get one second (script.js:361-366). */
  function PhaseDurationSeconds(phase: Phase): (s: real)
    ensures s >= 1.0
  {
    if phase.name == "Natation" then 20.0
    else if phase.name == "Vélo" then 60.0
    else if phase.name == "Course" then 30.0
    else 1.0
  }

  /** Where the current phase starts: the previous phase's threshold, or 0
      for the first phase (script.js:371). */
  function StartDistance(currentIndex: nat): real
    requires currentIndex < |Phases|
  {
    if currentIndex == 0 then 0.0 else Phases[currentIndex - 1].distanceThreshold
  }

  /** `getMetersPerPixelAtBaseSpeed` (script.js:368-375). The start of the
      phase's span comes from the index of the phase being played, not from
      the `phase` argument. A non-positive duration or base speed gives 0. */
  function MetersPerPixelAtBaseSpeed(phase: Phase, currentIndex: nat): (mpp: real)
    requires currentIndex < |Phases|
    ensures phase.baseSpeed <= 0.0 ==> mpp == 0.0
    ensures phase.baseSpeed > 0.0 ==>
      mpp * (phase.baseSpeed * PhaseDurationSeconds(phase))
        == (phase.distanceThreshold - StartDistance(currentIndex)) * GlobalDistanceFactor
  {
    var duration := PhaseDurationSeconds(phase);
    if duration <= 0.0 || phase.baseSpeed <= 0.0 then 0.0
    else
      var phaseDistance := phase.distanceThreshold - StartDistance(currentIndex);
      var mpp := phaseDistance / (phase.baseSpeed * duration);
      mpp * GlobalDistanceFactor
  }

  /** The calibration factors of the three phases: 0.39, 0.77 and 1.4. */
  lemma CalibrationPerPhase()
    ensures MetersPerPixelAtBaseSpeed(Phases[0], 0) == 0.39
    ensures MetersPerPixelAtBaseSpeed(Phases[1], 1) == 0.77
    ensures MetersPerPixelAtBaseSpeed(Phases[2], 2) == 1.4
  {
  }

  /** Evaluated for another phase than the one being played, the factor
      uses the wrong span: the bike phase while still swimming gives 0.9,
      not 0.77. The game loop always passes the phase being played. */
  lemma CalibrationUsesPlayedPhaseStart()
    ensures MetersPerPixelAtBaseSpeed(Phases[1], 0) == 0.9
  {
  }

  /** The distance covered in one tick (script.js:605-606). */
  function DistanceAfter(distance: real, speed: real, phaseIndex: nat, dt: real): real
    requires phaseIndex < |Phases|
  {
    distance + speed * MetersPerPixelAtBaseSpeed(Phases[phaseIndex], phaseIndex) * dt
  }

  /** With a non-negative speed and time step the distance never decreases;
      with a positive speed and time step it strictly increases. */
  lemma DistanceNeverDecreases(distance: real, speed: real, phaseIndex: nat, dt: real)
    requires phaseIndex < |Phases|
    requires speed >= 0.0 && dt >= 0.0
    ensures DistanceAfter(distance, speed, phaseIndex, dt) >= distance
    ensures speed > 0.0 && dt > 0.0 ==> DistanceAfter(distance, speed, phaseIndex, dt) > distance
  {
    CalibrationPerPhase();
    var mpp := MetersPerPixelAtBaseSpeed(Phases[phaseIndex], phaseIndex);
    assert mpp > 0.0;
    assert speed * mpp >= 0.0;
    assert speed * mpp * dt >= 0.0;
    if speed > 0.0 && dt > 0.0 {
      assert speed * mpp > 0.0;
      assert speed * mpp * dt > 0.0;
    }
  }

  /** Played at base speed for its designed duration, each phase covers its
      own span scaled by the global distance factor. */
  lemma BaseSpeedCoversSpan(i: nat)
    requires i < |Phases|
    ensures DistanceAfter(StartDistance(i), Phases[i].baseSpeed, i, PhaseDurationSeconds(Phases[i]))
      == StartDistance(i) + (Phases[i].distanceThreshold - StartDistance(i)) * GlobalDistanceFactor
  {
    PhasesWellFormed();
    var p := Phases[i];
    var mpp := MetersPerPixelAtBaseSpeed(p, i);
    assert p.baseSpeed * mpp * PhaseDurationSeconds(p) == mpp * (p.baseSpeed * PhaseDurationSeconds(p));
  }
}
