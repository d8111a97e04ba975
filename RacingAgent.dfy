/** URacingAgentComponent (RacingAgentComponent.cpp): one training step of
    a racing agent: the reward breakdown with its warning and terminal
    thresholds, the policy action, the terminal conditions with their
    airborne and stuck timers, and the episode statistics. Observations,
    the vehicle's distance from its start and the policy network's output
    enter as parameters. */
module RacingAgent {
  import opened Common
  import opened AgentTypes

  /** FRacingRewardConfig. */
  datatype RewardConfig = RewardConfig(
    wDistance: real, wSurvival: real, phase2ActivationDistanceCm: real,
    wSpeed: real, speedTargetNorm: real, wActionSmooth: real,
    collisionWarningThreshold: real, collisionTerminalThreshold: real,
    collisionWarningPenalty: real, collisionTerminalPenalty: real,
    gapWarningThreshold: real, gapTerminalThreshold: real,
    gapWarningPenalty: real, gapTerminalPenalty: real,
    airborneMaxSeconds: real, stuckSpeedNorm: real, stuckTimeSeconds: real,
    maxAbsTerm: real, maxEpisodeSteps: int)

  const DefaultRewardConfig := RewardConfig(
    1.0, 0.5, 5000.0,
    0.3, 0.7, -0.02,
    0.15, 0.05,
    -0.5, -2.0,
    0.3, 0.1,
    -0.3, -2.0,
    3.0, 0.05, 2.0,
    3.0, 5000)

  /** The ground ray reading below which the car counts as airborne. */
  const AirborneGroundDist: real := 0.1

  /** The observation fields a step reads. */
  datatype StepObservation = StepObservation(
    speedNorm: real, rayForward: real, rayLeft: real, rayRight: real, rayLeft45: real, rayRight45: real,
    rayGroundDist: real)

  /** FRewardBreakdown. */
  datatype RewardBreakdown = RewardBreakdown(
    distance: real, speed: real, survival: real, smoothness: real, collision: real, gapPenalty: real,
    total: real, done: bool, doneReason: string)

  /** The shortest of the five adaptive rays. */
  function MinRayDist(obs: StepObservation): (m: real)
    ensures m <= obs.rayForward && m <= obs.rayLeft && m <= obs.rayRight && m <= obs.rayLeft45 && m <= obs.rayRight45
    ensures m == obs.rayForward || m == obs.rayLeft || m == obs.rayRight || m == obs.rayLeft45 || m == obs.rayRight45
  {
    Min(Min(Min(obs.rayForward, obs.rayLeft), Min(obs.rayRight, obs.rayLeft45)), obs.rayRight45)
  }

  /** A penalty with a warning and a terminal threshold: the terminal one,
      checked last, overrides the warning one. */
  function ThresholdPenalty(reading: real, warningThreshold: real, terminalThreshold: real,
                            warningPenalty: real, terminalPenalty: real): (p: real)
    ensures reading < terminalThreshold ==> p == terminalPenalty
    ensures terminalThreshold <= reading < warningThreshold ==> p == warningPenalty
    ensures reading >= terminalThreshold && reading >= warningThreshold ==> p == 0.0
  {
    var p := if reading < warningThreshold then warningPenalty else 0.0;
    if reading < terminalThreshold then terminalPenalty else p
  }

  /** ComputeReward. `distanceFromStartCm` is the vehicle's distance from
      the episode start; `episodeTimeAccum`, `traveledCm` and `lastSteer`
      are the values before this step. The smoothness term compares the
      last steering with the current normalised speed, as the source's
      simplified formula does. */
  function ComputeReward(cfg: RewardConfig, obs: StepObservation, distanceFromStartCm: real, episodeTimeAccum: real,
                         traveledCm: real, lastSteer: real): (r: RewardBreakdown)
    ensures r.collision == ThresholdPenalty(MinRayDist(obs), cfg.collisionWarningThreshold,
                                            cfg.collisionTerminalThreshold, cfg.collisionWarningPenalty,
                                            cfg.collisionTerminalPenalty)
    ensures r.gapPenalty == ThresholdPenalty(obs.rayGroundDist, cfg.gapWarningThreshold, cfg.gapTerminalThreshold,
                                             cfg.gapWarningPenalty, cfg.gapTerminalPenalty)
    ensures r.done <==> MinRayDist(obs) < cfg.collisionTerminalThreshold || obs.rayGroundDist < cfg.gapTerminalThreshold
    ensures obs.rayGroundDist < cfg.gapTerminalThreshold ==> r.doneReason == "Fell off track"
    ensures MinRayDist(obs) < cfg.collisionTerminalThreshold && obs.rayGroundDist >= cfg.gapTerminalThreshold ==>
              r.doneReason == "Collision"
    ensures !r.done ==> r.doneReason == ""
    ensures r.distance == (distanceFromStartCm / 100.0) * cfg.wDistance
    ensures r.survival == episodeTimeAccum * cfg.wSurvival
    ensures traveledCm <= cfg.phase2ActivationDistanceCm ==> r.speed == 0.0
    ensures traveledCm > cfg.phase2ActivationDistanceCm ==>
              r.speed == (1.0 - Abs(obs.speedNorm - cfg.speedTargetNorm)) * cfg.wSpeed
    ensures r.smoothness == Abs(lastSteer - obs.speedNorm) * cfg.wActionSmooth
    ensures r.total == UeClamp(r.distance + r.survival + r.speed + r.smoothness + r.collision + r.gapPenalty,
                               -cfg.maxAbsTerm, cfg.maxAbsTerm)
    ensures cfg.maxAbsTerm >= 0.0 ==> -cfg.maxAbsTerm <= r.total <= cfg.maxAbsTerm
    ensures var sum := r.distance + r.survival + r.speed + r.smoothness + r.collision + r.gapPenalty;
            -cfg.maxAbsTerm <= sum <= cfg.maxAbsTerm ==> r.total == sum
  {
    var distance := (distanceFromStartCm / 100.0) * cfg.wDistance;
    var survival := episodeTimeAccum * cfg.wSurvival;
    var speed := if traveledCm > cfg.phase2ActivationDistanceCm
                 then (1.0 - Abs(obs.speedNorm - cfg.speedTargetNorm)) * cfg.wSpeed else 0.0;
    var smoothness := Abs(lastSteer - obs.speedNorm) * cfg.wActionSmooth;
    var minRay := MinRayDist(obs);
    var collision := ThresholdPenalty(minRay, cfg.collisionWarningThreshold, cfg.collisionTerminalThreshold,
                                      cfg.collisionWarningPenalty, cfg.collisionTerminalPenalty);
    var gap := ThresholdPenalty(obs.rayGroundDist, cfg.gapWarningThreshold, cfg.gapTerminalThreshold,
                                cfg.gapWarningPenalty, cfg.gapTerminalPenalty);
    var collisionDone := minRay < cfg.collisionTerminalThreshold;
    var gapDone := obs.rayGroundDist < cfg.gapTerminalThreshold;
    var reason := if gapDone then "Fell off track" else if collisionDone then "Collision" else "";
    var sum := distance + survival + speed + smoothness + collision + gap;
    RewardBreakdown(distance, speed, survival, smoothness, collision, gap,
                    UeClamp(sum, -cfg.maxAbsTerm, cfg.maxAbsTerm), collisionDone || gapDone, reason)
  }

  /** Past the phase-2 distance, with a non-negative weight, the speed
      bonus is largest exactly at the target speed. */
  lemma SpeedBonusPeaksAtTarget(cfg: RewardConfig, obs: StepObservation, distanceFromStartCm: real,
                                episodeTimeAccum: real, traveledCm: real, lastSteer: real)
    requires traveledCm > cfg.phase2ActivationDistanceCm && cfg.wSpeed > 0.0
    ensures ComputeReward(cfg, obs, distanceFromStartCm, episodeTimeAccum, traveledCm, lastSteer).speed <= cfg.wSpeed
    ensures ComputeReward(cfg, obs, distanceFromStartCm, episodeTimeAccum, traveledCm, lastSteer).speed == cfg.wSpeed
            <==> obs.speedNorm == cfg.speedTargetNorm
  {
    var d := Abs(obs.speedNorm - cfg.speedTargetNorm);
    assert (1.0 - d) * cfg.wSpeed == cfg.wSpeed - d * cfg.wSpeed;
    if obs.speedNorm != cfg.speedTargetNorm {
      assert d > 0.0;
      assert d * cfg.wSpeed > 0.0;
    }
  }

  /** The action a step applies: the clamped policy output when it has
      three values, the default action for any other output, and half
      throttle straight ahead without a network. */
  function PolicyAction(policyOutput: Option<seq<real>>): (a: VehicleAction)
    ensures -1.0 <= a.steer <= 1.0 && 0.0 <= a.throttle <= 1.0 && 0.0 <= a.brake <= 1.0
    ensures policyOutput.None? ==> a == VehicleAction(0.0, 0.5, 0.0)
    ensures policyOutput.Some? && |policyOutput.value| != 3 ==> a == VehicleAction(0.0, 0.0, 0.0)
    ensures policyOutput.Some? && |policyOutput.value| == 3 ==>
              a.steer == Clamp(policyOutput.value[0], -1.0, 1.0) &&
              a.throttle == Clamp(policyOutput.value[1], 0.0, 1.0) && a.brake == Clamp(policyOutput.value[2], 0.0, 1.0)
  {
    match policyOutput
    case None => VehicleAction(0.0, 0.5, 0.0)
    case Some(out) =>
      if |out| == 3 then
        VehicleAction(UeClamp(out[0], -1.0, 1.0), UeClamp(out[1], 0.0, 1.0), UeClamp(out[2], 0.0, 1.0))
      else VehicleAction(0.0, 0.0, 0.0)
  }

  /** The outcome of CheckTerminalConditions: whether the episode ends, why,
      and the airborne and stuck timers afterwards. */
  datatype TerminalOutcome = TerminalOutcome(terminal: bool, reason: string, airborne: real, stuck: real)

  /** CheckTerminalConditions: the step limit first; then the airborne
      timer grows by `dt` while the ground ray is below 0.1 and resets
      otherwise, ending the episode at its limit; then the stuck timer,
      the same way for a speed below the stuck speed. */
  function TerminalCheck(cfg: RewardConfig, stepCount: int, airborne: real, stuck: real, obs: StepObservation,
                         dt: real): (o: TerminalOutcome)
    ensures stepCount >= cfg.maxEpisodeSteps ==> o == TerminalOutcome(true, "MaxSteps", airborne, stuck)
    ensures stepCount < cfg.maxEpisodeSteps ==>
              o.airborne == (if obs.rayGroundDist < AirborneGroundDist then airborne + dt else 0.0)
    ensures stepCount < cfg.maxEpisodeSteps && obs.rayGroundDist < AirborneGroundDist &&
            airborne + dt >= cfg.airborneMaxSeconds ==>
              o == TerminalOutcome(true, "AirborneLong", airborne + dt, stuck)
    ensures stepCount < cfg.maxEpisodeSteps && !(obs.rayGroundDist < AirborneGroundDist &&
            airborne + dt >= cfg.airborneMaxSeconds) ==>
              o.stuck == (if obs.speedNorm < cfg.stuckSpeedNorm then stuck + dt else 0.0) &&
              (o.terminal <==> obs.speedNorm < cfg.stuckSpeedNorm && stuck + dt >= cfg.stuckTimeSeconds) &&
              (o.terminal ==> o.reason == "Stuck")
  {
    if stepCount >= cfg.maxEpisodeSteps then TerminalOutcome(true, "MaxSteps", airborne, stuck)
    else
      var air := if obs.rayGroundDist < AirborneGroundDist then airborne + dt else 0.0;
      if obs.rayGroundDist < AirborneGroundDist && air >= cfg.airborneMaxSeconds then
        TerminalOutcome(true, "AirborneLong", air, stuck)
      else
        var st := if obs.speedNorm < cfg.stuckSpeedNorm then stuck + dt else 0.0;
        if obs.speedNorm < cfg.stuckSpeedNorm && st >= cfg.stuckTimeSeconds then TerminalOutcome(true, "Stuck", air, st)
        else TerminalOutcome(false, "", air, st)
  }

  /** Within the step limit, a grounded step clears the airborne timer
      and cannot end the episode as airborne. */
  lemma AirborneTimerResets(cfg: RewardConfig, stepCount: int, airborne: real, stuck: real, obs: StepObservation,
                            dt: real)
    requires stepCount < cfg.maxEpisodeSteps && obs.rayGroundDist >= AirborneGroundDist
    ensures TerminalCheck(cfg, stepCount, airborne, stuck, obs, dt).airborne == 0.0
    ensures TerminalCheck(cfg, stepCount, airborne, stuck, obs, dt).reason != "AirborneLong"
  {
  }

  /** The vehicle's speed in cm/s, from the normalised observation: it
      undoes the observation's division by the speed norm. */
  function CurrentSpeed(obs: StepObservation, speedNormCmPerSec: real): (r: real)
    ensures obs.speedNorm >= 0.0 && speedNormCmPerSec >= 0.0 ==> r >= 0.0
    ensures speedNormCmPerSec != 0.0 ==> r / speedNormCmPerSec == obs.speedNorm
  {
    obs.speedNorm * speedNormCmPerSec
  }

  /** The agent's episode state. */
  class RacingAgent {
    var episodeDone: bool
    var episodeStepCount: int
    var episodeTimeAccum: real
    var airborneTimeAccum: real
    var stuckTimeAccum: real
    var lastAction: VehicleAction
    var stats: EpisodeStats
    var rewardCfg: RewardConfig
    var speedNormCmPerSec: real

    constructor ()
      ensures !episodeDone && episodeStepCount == 0 && episodeTimeAccum == 0.0
      ensures airborneTimeAccum == 0.0 && stuckTimeAccum == 0.0
      ensures lastAction == VehicleAction(0.0, 0.0, 0.0)
      ensures rewardCfg == DefaultRewardConfig && speedNormCmPerSec == 4500.0
      ensures fresh(stats) && Valid()
    {
      episodeDone, episodeStepCount, episodeTimeAccum := false, 0, 0.0;
      airborneTimeAccum, stuckTimeAccum := 0.0, 0.0;
      lastAction := VehicleAction(0.0, 0.0, 0.0);
      stats := new EpisodeStats();
      rewardCfg, speedNormCmPerSec := DefaultRewardConfig, 4500.0;
    }

    /** The statistics mirror the step counter and clock, and time has
        passed once a step was taken. */
    predicate Valid()
      reads this, stats
    {
      episodeStepCount >= 0 && stats.stepCount == episodeStepCount && stats.durationSeconds == episodeTimeAccum &&
      episodeTimeAccum >= 0.0 && (episodeStepCount > 0 ==> episodeTimeAccum > 0.0) && stats.maxSpeed >= 0.0
    }

    /** ResetEpisodeAccumulators: not done, counters and timers zero,
        fresh statistics, the default action. */
    method ResetEpisodeAccumulators()
      modifies this
      ensures !episodeDone && episodeStepCount == 0 && episodeTimeAccum == 0.0
      ensures airborneTimeAccum == 0.0 && stuckTimeAccum == 0.0
      ensures fresh(stats) && stats.totalReward == 0.0 && stats.stepCount == 0 && stats.durationSeconds == 0.0
      ensures stats.distanceTraveledCm == 0.0 && stats.avgSpeed == 0.0 && stats.maxSpeed == 0.0
      ensures lastAction == VehicleAction(0.0, 0.0, 0.0)
      ensures rewardCfg == old(rewardCfg) && speedNormCmPerSec == old(speedNormCmPerSec)
      ensures Valid()
    {
      episodeDone := false;
      episodeStepCount := 0;
      episodeTimeAccum := 0.0;
      airborneTimeAccum := 0.0;
      stuckTimeAccum := 0.0;
      stats := new EpisodeStats();
      lastAction := VehicleAction(0.0, 0.0, 0.0);
    }

    /** CheckTerminalConditions on the timers. */
    method CheckTerminalConditions(obs: StepObservation, dt: real) returns (terminal: bool, reason: string)
      modifies this`airborneTimeAccum, this`stuckTimeAccum
      ensures var o := TerminalCheck(rewardCfg, episodeStepCount, old(airborneTimeAccum), old(stuckTimeAccum), obs, dt);
              terminal == o.terminal && reason == o.reason && airborneTimeAccum == o.airborne &&
              stuckTimeAccum == o.stuck
    {
      reason := "";
      if episodeStepCount >= rewardCfg.maxEpisodeSteps {
        return true, "MaxSteps";
      }
      if obs.rayGroundDist < AirborneGroundDist {
        airborneTimeAccum := airborneTimeAccum + dt;
        if airborneTimeAccum >= rewardCfg.airborneMaxSeconds {
          return true, "AirborneLong";
        }
      } else {
        airborneTimeAccum := 0.0;
      }
      if obs.speedNorm < rewardCfg.stuckSpeedNorm {
        stuckTimeAccum := stuckTimeAccum + dt;
        if stuckTimeAccum >= rewardCfg.stuckTimeSeconds {
          return true, "Stuck";
        }
      } else {
        stuckTimeAccum := 0.0;
      }
      terminal := false;
    }

    /** FinalizeEpisodeStats: records the reason, recomputes the average
        speed only when a step was taken, and the NEAT fitness. */
    method FinalizeEpisodeStats(terminationReason: string)
      requires stats.stepCount > 0 ==> stats.durationSeconds > 0.0
      modifies stats
      ensures stats.terminationReason == terminationReason
      ensures old(stats.stepCount) > 0 ==>
                stats.avgSpeed == old(stats.distanceTraveledCm) / old(stats.durationSeconds)
      ensures old(stats.stepCount) <= 0 ==> stats.avgSpeed == old(stats.avgSpeed)
      ensures stats.neatFitness == NeatFitness(stats.distanceTraveledCm, stats.avgSpeed, stats.durationSeconds)
      ensures stats.totalReward == old(stats.totalReward) && stats.stepCount == old(stats.stepCount)
      ensures stats.durationSeconds == old(stats.durationSeconds)
      ensures stats.distanceTraveledCm == old(stats.distanceTraveledCm) && stats.maxSpeed == old(stats.maxSpeed)
    {
      stats.terminationReason := terminationReason;
      if stats.stepCount > 0 {
        stats.avgSpeed := stats.distanceTraveledCm / stats.durationSeconds;
      }
      stats.CalculateNeatFitness();
    }

    /** The bookkeeping of one step: the counter and the clock move on, the
        reward is accumulated, and the statistics take the distance from
        the start and the highest speed so far. */
    method RecordStep(total: real, dt: real, distanceCm: real, speed: real)
      requires Valid() && dt > 0.0
      modifies this`episodeStepCount, this`episodeTimeAccum, stats`totalReward, stats`stepCount,
               stats`durationSeconds, stats`distanceTraveledCm, stats`maxSpeed
      ensures Valid()
      ensures episodeStepCount == old(episodeStepCount) + 1 && episodeTimeAccum == old(episodeTimeAccum) + dt
      ensures stats.totalReward == old(stats.totalReward) + total
      ensures stats.distanceTraveledCm == distanceCm && stats.maxSpeed == Max(old(stats.maxSpeed), speed)
    {
      episodeStepCount := episodeStepCount + 1;
      episodeTimeAccum := episodeTimeAccum + dt;
      stats.totalReward := stats.totalReward + total;
      stats.stepCount := episodeStepCount;
      stats.durationSeconds := episodeTimeAccum;
      stats.distanceTraveledCm := distanceCm;
      stats.maxSpeed := Max(stats.maxSpeed, speed);
    }

    /** StepOnce with the observation, the time step, the policy's output
        (none without a network) and the vehicle's distance from its
        episode start: nothing once the episode is done; otherwise the
        reward, the action, one more step in the statistics, the terminal
        check, and the end of the episode when it or the reward says so. */
    method StepOnce(obs: StepObservation, dt: real, policyOutput: Option<seq<real>>, distanceFromStartCm: real)
      returns (reward: RewardBreakdown)
      requires Valid() && dt > 0.0
      modifies this, stats
      ensures Valid()
      ensures stats == old(stats) && rewardCfg == old(rewardCfg) && speedNormCmPerSec == old(speedNormCmPerSec)
      ensures old(episodeDone) ==>
                episodeDone && episodeStepCount == old(episodeStepCount) && episodeTimeAccum == old(episodeTimeAccum) &&
                lastAction == old(lastAction) && airborneTimeAccum == old(airborneTimeAccum) &&
                stuckTimeAccum == old(stuckTimeAccum) && stats.totalReward == old(stats.totalReward) &&
                stats.maxSpeed == old(stats.maxSpeed)
      ensures !old(episodeDone) ==>
                reward == ComputeReward(rewardCfg, obs, distanceFromStartCm, old(episodeTimeAccum),
                                        old(stats.distanceTraveledCm), old(lastAction).steer) &&
                lastAction == PolicyAction(policyOutput) &&
                episodeStepCount == old(episodeStepCount) + 1 && episodeTimeAccum == old(episodeTimeAccum) + dt &&
                stats.totalReward == old(stats.totalReward) + reward.total &&
                stats.distanceTraveledCm == distanceFromStartCm &&
                stats.maxSpeed == Max(old(stats.maxSpeed), CurrentSpeed(obs, speedNormCmPerSec))
      ensures !old(episodeDone) ==>
                var o := TerminalCheck(rewardCfg, old(episodeStepCount) + 1, old(airborneTimeAccum),
                                       old(stuckTimeAccum), obs, dt);
                airborneTimeAccum == o.airborne && stuckTimeAccum == o.stuck &&
                (episodeDone <==> o.terminal || reward.done) &&
                (episodeDone ==> stats.terminationReason == (if reward.done then reward.doneReason else o.reason))
      ensures stats.maxSpeed >= old(stats.maxSpeed)
    {
      reward := RewardBreakdown(0.0, 0.0, 0.0, 0.0, 0.0, 0.0, 0.0, false, "");
      if episodeDone {
        return;
      }
      reward := ComputeReward(rewardCfg, obs, distanceFromStartCm, episodeTimeAccum, stats.distanceTraveledCm,
                              lastAction.steer);
      var action := PolicyAction(policyOutput);
      lastAction := action;
      RecordStep(reward.total, dt, distanceFromStartCm, CurrentSpeed(obs, speedNormCmPerSec));

      var terminal, termReason := CheckTerminalConditions(obs, dt);
      if terminal || reward.done {
        if reward.done {
          termReason := reward.doneReason;
        }
        FinalizeEpisodeStats(termReason);
        episodeDone := true;
      }
    }
  }
}
