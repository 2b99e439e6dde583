/**
 * The runner's static configuration: the phase table, the obstacle type
 * registry, the lane table, the speed-step table and the tuning constants
 * (script.js:35-132). Nothing here changes during a run.
 */
module Config {

  datatype Option<T> = None | Some(value: T)

  /** One leg of the run: swim, bike or run (script.js:83-108). The
      background and ground images are presentation and are not kept. */
  datatype Phase = Phase(
    name: string,
    distanceThreshold: real,
    baseSpeed: real,
    minSpeedFactor: real,
    maxSpeedFactor: real,
    obstacleTypes: seq<string>,
    baseObstacleFrequency: real)

  /** An entry of the obstacle type registry (script.js:123-132); a missing
      `allowedLanes` means "any lane". The CSS class name is presentation. */
  datatype ObstacleConfig = ObstacleConfig(
    width: real,
    height: real,
    speedFactor: real,
    allowedLanes: Option<seq<nat>>)

  const TotalGameDistance: real := 16000.0
  /** Lane positions, in percent from the bottom of the playable area. */
  const Lanes: seq<real> := [15.0, 32.5, 50.0, 67.5, 85.0]
  const GlobalScale: real := 1.3
  const GlobalObstacleDensityFactor: real := 0.8
  const InitialStartSpeed: real := 10.0
  /** Allowed target speeds, as fractions of the way from minSpeed to maxSpeed. */
  const SpeedSteps: seq<real> := [0.0, 0.30, 0.60, 0.75, 0.875, 1.0]
  const GlobalDistanceFactor: real := 0.6

  const Phases: seq<Phase> := [
    Phase("Natation", 1300.0, 100.0, 0.05, 2.0, ["peniche", "dechet"], 1800.0),
    Phase("Vélo", 9000.0, 100.0, 0.1, 5.0,
          ["voiture", "egout", "poubelle", "voiture-statique"], 2000.0),
    Phase("Course", TotalGameDistance, 100.0, 0.1, 3.5,
          ["pieton", "egout", "poubelle", "voiture", "pieton-sens-inverse", "voiture-statique"], 1800.0)
  ]

  const ObstacleConfigs: map<string, ObstacleConfig> := map[
    "peniche" := ObstacleConfig(200.0, 75.0, 1.0, Some([0, 2, 4])),
    "dechet" := ObstacleConfig(30.0, 30.0, 1.0, None),
    "voiture" := ObstacleConfig(100.0, 50.0, 1.0, Some([1, 2, 3, 4])),
    "voiture-statique" := ObstacleConfig(95.0, 45.0, 1.0, Some([1, 2, 3, 4])),
    "pieton" := ObstacleConfig(45.0, 45.0, 0.5, Some([0])),
    "pieton-sens-inverse" := ObstacleConfig(45.0, 43.0, 1.0, Some([0])),
    "poubelle" := ObstacleConfig(50.0, 45.0, 0.5, Some([0])),
    "egout" := ObstacleConfig(23.0, 23.0, 0.5, None)
  ]

  /** The lower end of a phase's speed envelope (script.js:383). */
  function MinSpeedOf(phase: Phase): real
  {
    phase.baseSpeed * phase.minSpeedFactor
  }

  /** The upper end of a phase's speed envelope before any difficulty growth (script.js:384). */
  function MaxSpeedOf(phase: Phase): real
  {
    phase.baseSpeed * phase.maxSpeedFactor
  }

  /** The lane indices a new obstacle of this type may take (script.js:476). */
  function LanePool(c: ObstacleConfig): (pool: seq<nat>)
    ensures c.allowedLanes.Some? ==> pool == c.allowedLanes.value
    ensures c.allowedLanes.None? ==> pool == [0, 1, 2, 3, 4] && |pool| == |Lanes|
  {
    match c.allowedLanes
    case Some(lanes) => lanes
    case None => [0, 1, 2, 3, 4]
  }

  predicate WellFormedConfig(c: ObstacleConfig)
  {
    && c.width > 0.0
    && c.height > 0.0
    && |LanePool(c)| > 0
    && forall k :: 0 <= k < |LanePool(c)| ==> LanePool(c)[k] < |Lanes|
  }

  /** The phase table is ordered by distance, ends at the total distance and
      gives every phase a non-empty speed envelope and obstacle palette. */
  lemma PhasesWellFormed()
    ensures |Phases| == 3
    ensures forall i :: 0 <= i < |Phases| ==>
      && Phases[i].baseSpeed > 0.0
      && 0.0 < MinSpeedOf(Phases[i]) < MaxSpeedOf(Phases[i])
      && MinSpeedOf(Phases[i]) <= 10.0
      && |Phases[i].obstacleTypes| > 0
      && Phases[i].baseObstacleFrequency > 0.0
    ensures forall i :: 0 < i < |Phases| ==> Phases[i - 1].distanceThreshold < Phases[i].distanceThreshold
    ensures Phases[0].distanceThreshold > 0.0
    ensures Phases[|Phases| - 1].distanceThreshold == TotalGameDistance
  {
  }

  /** The step table is strictly increasing from 0 to 1 (script.js:67). */
  lemma SpeedStepsAscending()
    ensures |SpeedSteps| == 6
    ensures SpeedSteps[0] == 0.0 && SpeedSteps[|SpeedSteps| - 1] == 1.0
    ensures forall i, j :: 0 <= i < j < |SpeedSteps| ==> SpeedSteps[i] < SpeedSteps[j]
    ensures forall i :: 0 <= i < |SpeedSteps| ==> 0.0 <= SpeedSteps[i] <= 1.0
  {
  }

  /** Every registered obstacle type has a positive size and a non-empty
      pool of valid lanes. */
  lemma ObstacleConfigsWellFormed()
    ensures forall kind :: kind in ObstacleConfigs ==> WellFormedConfig(ObstacleConfigs[kind])
  {
  }

  /** Every type a phase may draw is registered, so the "configuration
      missing" branch of the spawner is never taken with this table. */
  lemma PhaseTypesRegistered()
    ensures forall i, k :: 0 <= i < |Phases| && 0 <= k < |Phases[i].obstacleTypes| ==>
      Phases[i].obstacleTypes[k] in ObstacleConfigs
  {
  }
}
