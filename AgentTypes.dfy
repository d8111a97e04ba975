/** The agent-side value types: the adaptive ray pitch controller, the
    flattened observation, the vehicle action and the NEAT fitness of an
    episode (RacingAgentTypes.h). */
module AgentTypes {
  import opened Common

  const MinPitchDeg: real := -45.0
  const MaxPitchDeg: real := 45.0
  /** Misses beyond this count no longer accelerate the downward sweep. */
  const MissAccelerationCap: int := 5
  /** Half-width of the band around the target distance that leaves the pitch alone. */
  const TargetBand: real := 0.1

  /** Pitch after one update of a ray, given the state before it. A miss
      counts as `misses + 1` consecutive misses. */
  function NextPitch(pitch: real, misses: int, targetDistNorm: real, adaptationRate: real,
                     hadHit: bool, hitDistNorm: real): (r: real)
    ensures MinPitchDeg <= pitch <= MaxPitchDeg ==> MinPitchDeg <= r <= MaxPitchDeg
    ensures (hadHit && (hitDistNorm < targetDistNorm - TargetBand || hitDistNorm > targetDistNorm + TargetBand))
      ==> MinPitchDeg <= r <= MaxPitchDeg
    ensures !hadHit ==> r == Clamp(pitch - adaptationRate * MinInt(misses + 1, MissAccelerationCap) as real, MinPitchDeg, MaxPitchDeg)
    ensures (hadHit && targetDistNorm - TargetBand <= hitDistNorm <= targetDistNorm + TargetBand) ==> r == pitch
  {
    if !hadHit then
      Clamp(pitch - adaptationRate * MinInt(misses + 1, MissAccelerationCap) as real, MinPitchDeg, MaxPitchDeg)
    else if hitDistNorm < targetDistNorm - TargetBand then
      Clamp(pitch + adaptationRate, MinPitchDeg, MaxPitchDeg)
    else if hitDistNorm > targetDistNorm + TargetBand then
      Clamp(pitch - adaptationRate, MinPitchDeg, MaxPitchDeg)
    else
      pitch
  }

  /** With a non-negative rate a miss or a far hit never raises the ray and a
      near hit never lowers it (as long as the pitch starts within limits). */
  lemma PitchMovesTowardTarget(pitch: real, misses: int, targetDistNorm: real, adaptationRate: real,
                               hadHit: bool, hitDistNorm: real)
    requires MinPitchDeg <= pitch <= MaxPitchDeg && adaptationRate >= 0.0 && misses >= 0
    ensures var r := NextPitch(pitch, misses, targetDistNorm, adaptationRate, hadHit, hitDistNorm);
      (!hadHit || hitDistNorm > targetDistNorm + TargetBand ==> r <= pitch) &&
      (hadHit && hitDistNorm < targetDistNorm - TargetBand ==> r >= pitch) &&
      (hadHit && targetDistNorm - TargetBand <= hitDistNorm <= targetDistNorm + TargetBand ==> r == pitch)
  {
    if !hadHit {
      var k := MinInt(misses + 1, MissAccelerationCap);
      assert k >= 1;
      assert adaptationRate * k as real >= 0.0;
    }
  }

  /** The per-ray pitch controller (FAdaptiveRayState). */
  class AdaptiveRayState {
    var currentPitchDeg: real
    var lastHitDistNorm: real
    var consecutiveMisses: int
    var targetDistNorm: real
    var adaptationRate: real

    ghost predicate Valid()
      reads this
    {
      MinPitchDeg <= currentPitchDeg <= MaxPitchDeg && consecutiveMisses >= 0
    }

    constructor ()
      ensures Valid()
      ensures currentPitchDeg == 0.0 && lastHitDistNorm == 1.0 && consecutiveMisses == 0
      ensures targetDistNorm == 0.7 && adaptationRate == 2.0
    {
      currentPitchDeg := 0.0;
      lastHitDistNorm := 1.0;
      consecutiveMisses := 0;
      targetDistNorm := 0.7;
      adaptationRate := 2.0;
    }

    /** A miss counts one more consecutive miss and lowers the ray; a hit
        clears the miss count, records the distance and steers the pitch
        toward the target distance. */
    method UpdatePitchAngle(hadHit: bool, hitDistNorm: real)
      requires Valid()
      modifies this
      ensures Valid()
      ensures currentPitchDeg == NextPitch(old(currentPitchDeg), old(consecutiveMisses), targetDistNorm,
                                           adaptationRate, hadHit, hitDistNorm)
      ensures !hadHit ==> consecutiveMisses == old(consecutiveMisses) + 1 && lastHitDistNorm == old(lastHitDistNorm)
      ensures hadHit ==> consecutiveMisses == 0 && lastHitDistNorm == hitDistNorm
      ensures targetDistNorm == old(targetDistNorm) && adaptationRate == old(adaptationRate)
    {
      if !hadHit {
        consecutiveMisses := consecutiveMisses + 1;
        var adjustment := adaptationRate * MinInt(consecutiveMisses, MissAccelerationCap) as real;
        currentPitchDeg := Clamp(currentPitchDeg - adjustment, MinPitchDeg, MaxPitchDeg);
      } else {
        consecutiveMisses := 0;
        lastHitDistNorm := hitDistNorm;
        if hitDistNorm < targetDistNorm - TargetBand {
          currentPitchDeg := Clamp(currentPitchDeg + adaptationRate, MinPitchDeg, MaxPitchDeg);
        } else if hitDistNorm > targetDistNorm + TargetBand {
          currentPitchDeg := Clamp(currentPitchDeg - adaptationRate, MinPitchDeg, MaxPitchDeg);
        }
      }
    }

    /** Back to the resting state; target distance and rate are tuning, not state. */
    method Reset()
      modifies this
      ensures Valid()
      ensures currentPitchDeg == 0.0 && lastHitDistNorm == 1.0 && consecutiveMisses == 0
      ensures targetDistNorm == old(targetDistNorm) && adaptationRate == old(adaptationRate)
    {
      currentPitchDeg := 0.0;
      lastHitDistNorm := 1.0;
      consecutiveMisses := 0;
    }
  }

  /** Observation fields before the optional LIDAR ring. */
  const BaseObservationSize: int := 15

  /** FRacingObservation: vehicle state, eight adaptive rays, gravity in the
      vehicle frame and an optional LIDAR ring; `vector` is the flattened form. */
  class RacingObservation {
    var speedNorm: real
    var yawRateNorm: real
    var pitchRateNorm: real
    var rollRateNorm: real
    var rayForward: real
    var rayLeft: real
    var rayRight: real
    var rayLeft45: real
    var rayRight45: real
    var rayForwardUp: real
    var rayForwardDown: real
    var rayGroundDist: real
    var gravityX: real
    var gravityY: real
    var gravityZ: real
    var lidarRays: seq<real>
    var vector: seq<real>

    constructor ()
      ensures speedNorm == 0.0 && yawRateNorm == 0.0 && pitchRateNorm == 0.0 && rollRateNorm == 0.0
      ensures rayForward == 1.0 && rayLeft == 1.0 && rayRight == 1.0 && rayLeft45 == 1.0
      ensures rayRight45 == 1.0 && rayForwardUp == 1.0 && rayForwardDown == 1.0 && rayGroundDist == 1.0
      ensures gravityX == 0.0 && gravityY == 0.0 && gravityZ == -1.0
      ensures lidarRays == [] && vector == []
    {
      speedNorm, yawRateNorm, pitchRateNorm, rollRateNorm := 0.0, 0.0, 0.0, 0.0;
      rayForward, rayLeft, rayRight, rayLeft45 := 1.0, 1.0, 1.0, 1.0;
      rayRight45, rayForwardUp, rayForwardDown, rayGroundDist := 1.0, 1.0, 1.0, 1.0;
      gravityX, gravityY, gravityZ := 0.0, 0.0, -1.0;
      lidarRays := [];
      vector := [];
    }

    /** The fifteen fixed fields in their declared order. */
    function BaseFields(): (r: seq<real>)
      reads this
      ensures |r| == BaseObservationSize
      ensures r[0] == speedNorm && r[3] == rollRateNorm
      ensures r[4] == rayForward && r[11] == rayGroundDist
      ensures r[12] == gravityX && r[14] == gravityZ
    {
      [speedNorm, yawRateNorm, pitchRateNorm, rollRateNorm,
       rayForward, rayLeft, rayRight, rayLeft45, rayRight45, rayForwardUp, rayForwardDown, rayGroundDist,
       gravityX, gravityY, gravityZ]
    }

    /** Flattens the observation: the fixed fields, then the LIDAR ring. */
    method BuildVector()
      modifies this`vector
      ensures vector == BaseFields() + lidarRays
      ensures |vector| == BaseObservationSize + |lidarRays|
    {
      vector := BaseFields();
      if |lidarRays| > 0 {
        vector := vector + lidarRays;
      }
    }
  }

  /** FVehicleAction. */
  datatype VehicleAction = VehicleAction(steer: real, throttle: real, brake: real)

  /** NEAT fitness of an episode: metres travelled, plus a tenth of the
      average speed in km/h once more than 50 m were covered, halved for an
      episode shorter than two seconds. */
  function NeatFitness(distanceTraveledCm: real, avgSpeed: real, durationSeconds: real): (r: real)
    ensures distanceTraveledCm / 100.0 <= 50.0 && durationSeconds >= 2.0 ==> r == distanceTraveledCm / 100.0
    ensures distanceTraveledCm / 100.0 <= 50.0 && durationSeconds < 2.0 ==> r == distanceTraveledCm / 200.0
  {
    var distanceMeters := distanceTraveledCm / 100.0;
    var speedBonus := if distanceMeters > 50.0 then (avgSpeed / 100.0) * 3.6 * 0.1 else 0.0;
    var fitness := distanceMeters + speedBonus;
    if durationSeconds < 2.0 then fitness * 0.5 else fitness
  }

  /** A short episode earns exactly half of what the same run would earn
      after two seconds. */
  lemma ShortEpisodeHalved(distanceTraveledCm: real, avgSpeed: real, shortDuration: real, longDuration: real)
    requires shortDuration < 2.0 <= longDuration
    ensures NeatFitness(distanceTraveledCm, avgSpeed, shortDuration)
         == NeatFitness(distanceTraveledCm, avgSpeed, longDuration) / 2.0
  {
  }

  /** With a non-negative average speed, going further never lowers the
      fitness, across the 50 m bonus threshold included. */
  lemma FitnessMonotoneInDistance(d1: real, d2: real, avgSpeed: real, durationSeconds: real)
    requires d1 <= d2 && avgSpeed >= 0.0
    ensures NeatFitness(d1, avgSpeed, durationSeconds) <= NeatFitness(d2, avgSpeed, durationSeconds)
  {
    var b1 := if d1 / 100.0 > 50.0 then (avgSpeed / 100.0) * 3.6 * 0.1 else 0.0;
    var b2 := if d2 / 100.0 > 50.0 then (avgSpeed / 100.0) * 3.6 * 0.1 else 0.0;
    assert b1 <= b2;
    assert d1 / 100.0 <= d2 / 100.0;
  }

  /** FEpisodeStats, the fields the agent and the NEAT manager update. */
  class EpisodeStats {
    var totalReward: real
    var stepCount: int
    var durationSeconds: real
    var distanceTraveledCm: real
    var avgSpeed: real
    var maxSpeed: real
    var terminationReason: string
    var neatFitness: real

    constructor ()
      ensures totalReward == 0.0 && stepCount == 0 && durationSeconds == 0.0
      ensures distanceTraveledCm == 0.0 && avgSpeed == 0.0 && maxSpeed == 0.0
      ensures terminationReason == "" && neatFitness == 0.0
    {
      totalReward, stepCount, durationSeconds := 0.0, 0, 0.0;
      distanceTraveledCm, avgSpeed, maxSpeed := 0.0, 0.0, 0.0;
      terminationReason := "";
      neatFitness := 0.0;
    }

    method CalculateNeatFitness()
      modifies this`neatFitness
      ensures neatFitness == NeatFitness(distanceTraveledCm, avgSpeed, durationSeconds)
    {
      var distanceMeters := distanceTraveledCm / 100.0;
      var speedBonus := 0.0;
      if distanceMeters > 50.0 {
        var avgSpeedKmh := (avgSpeed / 100.0) * 3.6;
        speedBonus := avgSpeedKmh * 0.1;
      }
      neatFitness := distanceMeters + speedBonus;
      if durationSeconds < 2.0 {
        neatFitness := neatFitness * 0.5;
      }
    }
  }

  /** ENEATTrainingState. */
  datatype NeatTrainingState = Idle | Evaluating | WaitingForPython | Completed
}
