# StuntCarRacer core, modelled in Dafny

This project models the logic at the heart of the StuntCarRacer game
plugins and their Python training tools, and proves properties of that
model. The model covers:

- **Racing agent and its training.** `RacingAgent.dfy` holds one agent step:
  reward breakdown, terminal conditions and episode statistics.
  `AgentTypes.dfy` holds the agent's own value types: adaptive ray pitch,
  observation vector and NEAT fitness.
- **In-engine network.** `NeuralNetwork.dfy` models the dense layers, the
  size-checked setters, the parameter count, the binary save/load layout and
  the training-step guards. `ExperienceBuffer.dfy` models the replay ring
  buffer with per-agent GAE and advantage normalisation.
- **Python PPO trainer.** `PpoTraining.dfy` covers GAE, the clamps and
  guards of a step, the sanitising rollout loader and the batch plan.
- **Model hand-over to the engine.**
  - `FindBestModel.dfy` and `FindAndExportBestModel.dfy` pick the best
    checkpoint.
  - `ExportModelForUnreal.dfy` writes the chosen checkpoint as JSON.
  - `PyTorchImporter.dfy` reads it back into the network. The model proves
    that an export reads back as written.
  - `KeySort.dfy` and `PyText.dfy` hold the Python sorting and string
    operations these scripts share.
- **NEAT evolution driver.** `NeatTraining.dfy` is the manager's state
  machine, fitness map and generation cycle.
- **Track geometry bookkeeping.**
  - `TrackDistance.dfy`: wrapping and clamping a distance along a track.
  - `SplineBuilder.dfy`: the spline builder's point indices, segments,
    build cursor, point rotation and wall triangles.
  - `TrackFrame.dfy`: the track-frame provider's progress and lookahead
    distances.
- **Curriculum and spawning.**
  - `CurriculumBuilder.dfy` and `CurriculumData.dfy`: sampling, tagging,
    hinting and merging track segments, and querying the baked curriculum.
  - `SpawnScore.dfy`, `CurriculumSpawner.dfy` and `CurriculumDebug.dfy`:
    scoring, sampling and selecting spawn points, and the debug view.
- **Respawning.** `NoSpawnZone.dfy` and `Respawn.dfy` model the no-spawn
  zones, the respawn registry and the search for a safe respawn point.
  `FlipActor.dfy` models the flip detector that resets an overturned car.
- **Race and lap timing.** `TimeTrial.dfy` and `TimeTrialWidget.dfy` cover
  gate order, rounds, and best round and lap times.
- **Engine sound.** `EngineSynth.dfy` models the crank, the impulse queue
  and the clamped mix of the synthesiser.
- **Analysis and tuning tools.** `CaraiAnalysis.dfy` models the rollout
  analysis tool. `SuggestAgentParameters.dfy` models the parameter
  suggestions.

How the source's features are represented:

- Floating point becomes exact `real` arithmetic. NaN and infinity appear
  only where the source tests for them (`Common.Float`).
- The model does not compute transcendental functions. `exp`, `log`,
  `sqrt`, `tanh`, `acos` and `pow` are function parameters.
- Engine queries, file contents, clocks and random draws are also
  parameters. This covers spline positions, traces, weak pointers,
  timestamps and `FRandomStream` fractions.
- Objects whose fields the source updates in place are Dafny classes with
  `modifies` clauses. Examples: the respawn subsystem, the agent, the
  network, the experience buffer, the NEAT manager, the time-trial
  component and the synthesiser.
- Pure helpers are functions over datatypes.

## Model

| member | source | states |
|---|---|---|
| Common.Clamp | Plugins/GameFeatures/CarAI/Source/CarAIRuntime/Public/Types/RacingAgentTypes.h:47-62 | with ordered bounds (the pitch limits) the result lies within them, is the value itself when inside, and the bound it crossed otherwise |
| Common.UeClamp | Plugins/GameFeatures/CarAI/Source/CarAIRuntime/Private/Data/RacingCurriculumDataAsset.cpp:65 | `FMath::Clamp` tests the lower bound first and is defined for any bounds; with ordered bounds it equals Clamp |
| Common.FloorNat | Plugins/GameFeatures/CarAI/Source/CarAIRuntime/Private/Data/RacingCurriculumDataAsset.cpp:122 | the truncation of a non-negative real: the largest natural number not above it |
| Common.Ceil | Plugins/GameFeatures/CarAI/Source/CarAIRuntime/Private/Debug/RacingCurriculumDebugActor.cpp:628 | `FMath::CeilToInt`: the smallest integer not below the value |
| Common.Square | Plugins/GameFeatures/CarAI/Source/CarAIRuntime/Private/NN/SimpleNeuralNetwork.cpp:800 | `FMath::Square` is never negative |
| Common.SumAppend | Plugins/GameFeatures/CarAI/Source/CarAIRuntime/Private/NN/SimpleNeuralNetwork.cpp:790-794 | the accumulated sum of two runs is the sum of their sums |
| Common.SumCentered | Plugins/GameFeatures/CarAI/Source/CarAIRuntime/Private/NN/SimpleNeuralNetwork.cpp:806-809 | subtracting c from every element lowers the sum by n times c |
| Common.SumScaled | Plugins/GameFeatures/CarAI/Source/CarAIRuntime/Private/NN/SimpleNeuralNetwork.cpp:806-809 | dividing every element by a non-zero k divides the sum by k |
| Common.CenteredSumZero | Plugins/GameFeatures/CarAI/Content/Python/train_pytorch.py:203-205 | deviations from the mean sum to zero |
| Common.ScaledUndo | Plugins/GameFeatures/CarAI/Content/Python/train_pytorch.py:203 | multiplying a divided element by the divisor gives it back |
| Common.ModUnique | Plugins/AsyncSplineBuilder/Source/AsyncSplineBuilder/Private/SplineGeneratingActor.cpp:35-41 | a quotient and a remainder in [0, n) that rebuild the dividend are the Euclidean quotient and remainder |
| Common.ScaleBelowOne | Plugins/GameFeatures/CarAI/Source/CarAIRuntime/Private/Data/RacingCurriculumDataAsset.cpp:123 | a fraction in [0, 1] of a positive width stays within [0, width], so FRandRange stays in its range |
| AgentTypes.NextPitch | Plugins/GameFeatures/CarAI/Source/CarAIRuntime/Public/Types/RacingAgentTypes.h:40-66 | a miss lowers the pitch by the rate times min(misses + 1, 5); a hit more than 0.1 short of the target distance raises it by one rate step and one more than 0.1 beyond lowers it; a hit within the band leaves it; the pitch stays within [-45, 45] |
| AgentTypes.PitchMovesTowardTarget | Plugins/GameFeatures/CarAI/Source/CarAIRuntime/Public/Types/RacingAgentTypes.h:40-66 | with a non-negative rate, a miss or a far hit never raises the ray, a near hit never lowers it, and a hit in the band keeps it |
| AgentTypes.AdaptiveRayState.constructor | Plugins/GameFeatures/CarAI/Source/CarAIRuntime/Public/Types/RacingAgentTypes.h:15-33 | a new ray state: pitch 0, last hit distance 1, no misses, target distance 0.7, rate 2 |
| AgentTypes.AdaptiveRayState.UpdatePitchAngle | Plugins/GameFeatures/CarAI/Source/CarAIRuntime/Public/Types/RacingAgentTypes.h:40-66 | the new pitch is NextPitch of the old state; a miss increments the miss count and keeps the last hit distance; a hit clears the count and records the distance; the pitch stays within limits |
| AgentTypes.AdaptiveRayState.Reset | Plugins/GameFeatures/CarAI/Source/CarAIRuntime/Public/Types/RacingAgentTypes.h:69-74 | pitch 0, last hit distance 1 and no misses; target distance and rate are kept |
| AgentTypes.RacingObservation.constructor | Plugins/GameFeatures/CarAI/Source/CarAIRuntime/Public/Types/RacingAgentTypes.h:82-155 | a new observation: rates 0, every ray 1, gravity (0, 0, -1), no LIDAR rays and an empty vector |
| AgentTypes.RacingObservation.BaseFields | Plugins/GameFeatures/CarAI/Source/CarAIRuntime/Public/Types/RacingAgentTypes.h:161-183 | fifteen fields, in the declared order |
| AgentTypes.RacingObservation.BuildVector | Plugins/GameFeatures/CarAI/Source/CarAIRuntime/Public/Types/RacingAgentTypes.h:161-188 | the vector is the fifteen fixed fields followed by the LIDAR rays |
| AgentTypes.NeatFitness | Plugins/GameFeatures/CarAI/Source/CarAIRuntime/Public/Types/RacingAgentTypes.h:378-395 | up to 50 m the fitness is the distance in metres, halved for an episode shorter than two seconds |
| AgentTypes.ShortEpisodeHalved | Plugins/GameFeatures/CarAI/Source/CarAIRuntime/Public/Types/RacingAgentTypes.h:390-393 | an episode shorter than two seconds earns exactly half of what the same run would earn otherwise |
| AgentTypes.FitnessMonotoneInDistance | Plugins/GameFeatures/CarAI/Source/CarAIRuntime/Public/Types/RacingAgentTypes.h:378-395 | with a non-negative average speed, a longer distance never lowers the fitness, across the 50 m bonus threshold too |
| AgentTypes.EpisodeStats.constructor | Plugins/GameFeatures/CarAI/Source/CarAIRuntime/Public/Types/RacingAgentTypes.h:344-377 | all statistics start at zero, with no termination reason |
| AgentTypes.EpisodeStats.CalculateNeatFitness | Plugins/GameFeatures/CarAI/Source/CarAIRuntime/Public/Types/RacingAgentTypes.h:378-395 | the stored fitness is NeatFitness of the distance, average speed and duration |
| TimeTrial.AddGateIfNext | Plugins/GameFeatures/TimeTrialMode/Source/TimeTrialModeRuntime/Private/Components/TimeTrialComponent.cpp:23-40 | the gate is appended, with its time, exactly when its index equals the number of gates already in the round, and the flag says whether it was |
| TimeTrial.AddGateKeepsOrder | Plugins/GameFeatures/TimeTrialMode/Source/TimeTrialModeRuntime/Private/Components/TimeTrialComponent.cpp:27-40 | appending only the expected next gate keeps the gate indices 0, 1, 2, ... |
| TimeTrial.FreshRound | Plugins/GameFeatures/TimeTrialMode/Source/TimeTrialModeRuntime/Private/Components/TimeTrialComponent.cpp:248-258 | a new round holds exactly gate 0, at its start time |
| TimeTrial.StartedRound | Plugins/GameFeatures/TimeTrialMode/Source/TimeTrialModeRuntime/Private/Components/TimeTrialComponent.cpp:248-258 | the round counter rises by one and a fresh round is appended; best and last time are kept |
| TimeTrial.NextBest | Plugins/GameFeatures/TimeTrialMode/Source/TimeTrialModeRuntime/Private/Components/TimeTrialComponent.cpp:311-316 | a round time replaces the best when no best is recorded yet (best <= 0) or when it is strictly smaller |
| TimeTrial.FinishedRound | Plugins/GameFeatures/TimeTrialMode/Source/TimeTrialModeRuntime/Private/Components/TimeTrialComponent.cpp:286-316 | the last round ends now, with the finish gate added if it is next; the last time is end minus start; the best follows NextBest; earlier rounds are untouched |
| TimeTrial.MinOf | Plugins/GameFeatures/TimeTrialMode/Source/TimeTrialModeRuntime/Private/Components/TimeTrialComponent.cpp:311-316 | the minimum of a non-empty list of times, which is one of them |
| TimeTrial.BestIsMinimum | Plugins/GameFeatures/TimeTrialMode/Source/TimeTrialModeRuntime/Private/Components/TimeTrialComponent.cpp:311-316 | with positive round times, the best time after a series of rounds is the minimum of those times |
| TimeTrial.StartedRoundValid | Plugins/GameFeatures/TimeTrialMode/Source/TimeTrialModeRuntime/Private/Components/TimeTrialComponent.cpp:248-258 | starting a round keeps every round opening with gate 0 at its start and the counter equal to the number of rounds |
| TimeTrial.FinishedRoundValid | Plugins/GameFeatures/TimeTrialMode/Source/TimeTrialModeRuntime/Private/Components/TimeTrialComponent.cpp:269-316 | finishing a round keeps that invariant |
| TimeTrial.IntermediateGateValid | Plugins/GameFeatures/TimeTrialMode/Source/TimeTrialModeRuntime/Private/Components/TimeTrialComponent.cpp:106-226 | recording an intermediate gate keeps that invariant |
| TimeTrial.IndexOf | Plugins/GameFeatures/TimeTrialMode/Source/TimeTrialModeRuntime/Private/Components/TimeTrialComponent.cpp:106-226 | the first position of an actor among the tracked actors, or -1 exactly when it is not there |
| TimeTrial.TimeTrialComponent.constructor | Plugins/GameFeatures/TimeTrialMode/Source/TimeTrialModeRuntime/Private/Components/TimeTrialComponent.cpp:42-45 | no tracked actors, no gates, three rounds per race, no race started |
| TimeTrial.TimeTrialComponent.BeginPlay | Plugins/GameFeatures/TimeTrialMode/Source/TimeTrialModeRuntime/Private/Components/TimeTrialComponent.cpp:47-85 | the number of gates is the number of gate actors in the level |
| TimeTrial.TimeTrialComponent.StartRound | Plugins/GameFeatures/TimeTrialMode/Source/TimeTrialModeRuntime/Private/Components/TimeTrialComponent.cpp:228-267 | an out-of-range index is ignored; otherwise the actor's times become StartedRound of the old ones, the race counts as started and the gate-0 event is broadcast |
| TimeTrial.TimeTrialComponent.FinishRound | Plugins/GameFeatures/TimeTrialMode/Source/TimeTrialModeRuntime/Private/Components/TimeTrialComponent.cpp:269-322 | ignored for an out-of-range index or an actor without rounds; otherwise the times become FinishedRound, the finish event is broadcast and a new-record event follows exactly when NextBest changes the best |
| TimeTrial.TimeTrialComponent.OnTargetTracked | Plugins/GameFeatures/TimeTrialMode/Source/TimeTrialModeRuntime/Private/Components/TimeTrialComponent.cpp:106-226 | a null actor or a negative index is ignored; an unknown actor is registered only on index 0, with its first round started; a known actor is never registered twice; index 0 on a round holding only gate 0 is ignored; index 0 finishes a round only when it holds all the gates, then starts the next one unless the race is over; an intermediate gate is appended only in order; any other index changes nothing |
| TimeTrialWidget.NextBestLap | Plugins/GameFeatures/TimeTrialMode/Source/TimeTrialModeRuntime/Private/Widgets/TimeTrialUserWidget.cpp:102-136 | a lap time replaces the best when none is recorded (best < 0) or when it is strictly smaller |
| TimeTrialWidget.MinLap | Plugins/GameFeatures/TimeTrialMode/Source/TimeTrialModeRuntime/Private/Widgets/TimeTrialUserWidget.cpp:102-136 | the minimum of a non-empty list of lap times |
| TimeTrialWidget.BestLapIsMinimum | Plugins/GameFeatures/TimeTrialMode/Source/TimeTrialModeRuntime/Private/Widgets/TimeTrialUserWidget.cpp:102-136 | with non-negative lap times, the best lap is the minimum of the completed laps |
| TimeTrialWidget.LapWidget.constructor | Plugins/GameFeatures/TimeTrialMode/Source/TimeTrialModeRuntime/Public/Widgets/TimeTrialUserWidget.h:39-51 | no lap started and no best lap (-1) |
| TimeTrialWidget.LapWidget.UpdateLapCount | Plugins/GameFeatures/TimeTrialMode/Source/TimeTrialModeRuntime/Private/Widgets/TimeTrialUserWidget.cpp:102-136 | lap 1 or lower clears the best lap; a later lap completes the previous one, whose time (the gap since its start) updates the best by NextBestLap |
| TimeTrialWidget.LapWidget.UpdateLapTimes | Plugins/GameFeatures/TimeTrialMode/Source/TimeTrialModeRuntime/Private/Widgets/TimeTrialUserWidget.cpp:138-161 | gate 0 starts a lap through UpdateLapCount: after lap 1 the gap since the last lap start is completed and the best lap becomes the smaller of it and the old best (or it, when none was recorded); at lap 1 or lower the best is reset to -1 and no lap is completed; any other gate reports its time since the lap start and leaves the lap state alone |
| TrackFrame.WrapProgressDelta | Plugins/GameFeatures/CarStatistics/Source/CarStatisticsRuntime/Private/Components/TrackFrameProviderComponent.cpp:237-245 | a non-positive length leaves the delta alone; a delta within one lap comes back within half a lap, moved by at most one lap; a delta already within half a lap is kept |
| TrackFrame.ProgressDeltaShortest | Plugins/GameFeatures/CarStatistics/Source/CarStatisticsRuntime/Private/Components/TrackFrameProviderComponent.cpp:237-245 | between two distances on the lap the wrapped delta reaches the new distance from the old modulo the lap, lies within half a lap, and reversing the move negates it |
| TrackFrame.FrameDistanceAsWritten | Plugins/GameFeatures/CarStatistics/Source/CarStatisticsRuntime/Private/Components/TrackFrameProviderComponent.cpp:345-362 | the distance a frame is computed at is the target wrapped into [0, L) |
| TrackFrame.ClampedEndFrameAtStart | Plugins/GameFeatures/CarStatistics/Source/CarStatisticsRuntime/Private/Components/TrackFrameProviderComponent.cpp:414-424 | a lookahead clamped to the end L of an open spline is wrapped again by the frame computation and lands at 0 |
| TrackFrame.LookaheadTarget | Plugins/GameFeatures/CarStatistics/Source/CarStatisticsRuntime/Private/Components/TrackFrameProviderComponent.cpp:412-422 | the target is base plus offset, clamped into [0, L] or wrapped into [0, L) |
| TrackFrame.LookaheadFrameDistance | Plugins/GameFeatures/CarStatistics/Source/CarStatisticsRuntime/Private/Components/TrackFrameProviderComponent.cpp:412-424 | corrected (see Findings): a target on the spline gives a distance on the spline; a clamped target at L stays at L, the end of the track; a wrapped target goes through the as-written frame lookup |
| TrackFrame.LookaheadFrameDistanceIntended | Plugins/GameFeatures/CarStatistics/Source/CarStatisticsRuntime/Private/Components/TrackFrameProviderComponent.cpp:412-424 | with a clamped target kept as is, clamped lookahead distances follow the offsets in order and stop at L; wrapped targets are unchanged by the second wrap |
| TrackFrame.TrackFrameProvider.constructor | Plugins/GameFeatures/CarStatistics/Source/CarStatisticsRuntime/Public/Components/TrackFrameProviderComponent.h:139-145 | no spline, length 0, no last distance, nothing pending |
| TrackFrame.TrackFrameProvider.ResetProgressTracking | Plugins/GameFeatures/CarStatistics/Source/CarStatisticsRuntime/Private/Components/TrackFrameProviderComponent.cpp:220-224 | the last distance becomes the given one and counts as recorded |
| TrackFrame.TrackFrameProvider.UpdateProgressAtLocation | Plugins/GameFeatures/CarStatistics/Source/CarStatisticsRuntime/Private/Components/TrackFrameProviderComponent.cpp:502-533 | without a spline nothing changes; the first call records the distance with nothing pending; later calls make the wrapped move from the last distance pending and record the new one |
| TrackFrame.TrackFrameProvider.ConsumeProgressDeltaCm | Plugins/GameFeatures/CarStatistics/Source/CarStatisticsRuntime/Private/Components/TrackFrameProviderComponent.cpp:535-544 | returns the pending progress and clears it |
| TrackFrame.TrackFrameProvider.FrameProgress | Plugins/GameFeatures/CarStatistics/Source/CarStatisticsRuntime/Private/Components/TrackFrameProviderComponent.cpp:300-322 | progress 0 and no change without a spline or when tracking is off; otherwise the wrapped move from the last distance, which becomes the new one |
| TrackFrame.SampleLookaheadByDistance | Plugins/GameFeatures/CarStatistics/Source/CarStatisticsRuntime/Private/Components/TrackFrameProviderComponent.cpp:385-434 | false and no frames without a spline or with a non-positive length; otherwise one frame per offset, in order, each at its lookahead distance within [0, L]; SampleLookaheadByWorldLocation (TrackFrameProviderComponent.cpp:436-500) uses the same distances from the closest distance to the location |
| TrackDistance.Fmod | Plugins/GameFeatures/CarAI/Source/CarAIRuntime/Private/Builder/RacingCurriculumBuilder.cpp:32 | FMath::Fmod for a positive divisor: the remainder has the sign of the dividend, lies within one divisor of zero, and differs from the dividend by whole laps |
| TrackDistance.WrapLooped | Plugins/GameFeatures/CarAI/Source/CarAIRuntime/Private/Builder/RacingCurriculumBuilder.cpp:30-34 | Fmod lifted by one lap when negative lands in [0, L) on the same lap position |
| TrackDistance.WrapLoopedUnique | Plugins/GameFeatures/CarAI/Source/CarAIRuntime/Private/Builder/RacingCurriculumBuilder.cpp:30-34 | the looped wrap is the unique point of [0, L) on the lap position of its argument |
| TrackDistance.WrapLoopedPeriodic | Plugins/GameFeatures/CarAI/Source/CarAIRuntime/Private/Builder/RacingCurriculumBuilder.cpp:30-34 | wrapping is periodic in L and leaves a distance already in [0, L) unchanged |
| TrackDistance.WrapOrClamp | Plugins/GameFeatures/CarAI/Source/CarAIRuntime/Private/Builder/RacingCurriculumBuilder.cpp:26-38 | 0 for a length of 1 cm or less; on a loop, a point of [0, L) a whole number of laps away; on an open track, the clamp into [0, L] (below 0 gives 0, beyond L gives L, inside is kept); the debug actor's WrapDistance and the respawn subsystem's WrapOrClampDistance are the same rule |
| TrackDistance.WrapOrClampIdempotent | Plugins/GameFeatures/CarAI/Source/CarAIRuntime/Private/Builder/RacingCurriculumBuilder.cpp:26-38 | applying the rule twice changes nothing |
| TrackDistance.WrapOnSpline | Plugins/GameFeatures/CarStatistics/Source/CarStatisticsRuntime/Private/Components/TrackFrameProviderComponent.cpp:22-35 | the provider's wrap: 0 for a non-positive length, otherwise the looped wrap into [0, L) |
| TrackDistance.SampleCountExact | Plugins/GameFeatures/CarAI/Source/CarAIEditor/Private/Editor/CurriculumSpawner.cpp:176-183 | the samples 0, step, 2 step, ... below L are exactly CeilToInt(L / step) many |
| TrackDistance.SampleBelowCount | Plugins/GameFeatures/CarAI/Source/CarAIRuntime/Private/Builder/RacingCurriculumBuilder.cpp:237 | every sample index whose distance is below L is below CeilToInt(L / step) |
| TrackDistance.SampleInsideLength | Plugins/GameFeatures/CarAI/Source/CarAIEditor/Private/Editor/CurriculumSpawner.cpp:177-183 | a sample index below CeilToInt(L / step) lies in [0, L) |
| TrackDistance.LapsIncreasing | Plugins/GameFeatures/CarAI/Source/CarAIEditor/Private/Editor/CurriculumSpawner.cpp:181-183 | later samples lie strictly further along |
| NoSpawnZone.ContainsPointWithMargin | Plugins/Framework/Source/Framework/Private/Actors/NoSpawnZoneActor.cpp:55-70 | false without a box; otherwise true exactly when the point, in the box's local frame, lies within the box extent grown by the margin on every axis |
| NoSpawnZone.ContainsPoint | Plugins/Framework/Source/Framework/Private/Actors/NoSpawnZoneActor.cpp:50-53 | the margin test with the zone's own safety margin |
| NoSpawnZone.MarginMonotone | Plugins/Framework/Source/Framework/Private/Actors/NoSpawnZoneActor.cpp:65-69 | a larger margin contains every point a smaller one does |
| NoSpawnZone.GrownBoxSymmetric | Plugins/Framework/Source/Framework/Private/Actors/NoSpawnZoneActor.cpp:67-69 | the grown box is symmetric about its centre |
| FlipActor.ResetTransform | Plugins/GameFeatures/FlipSystem/Source/FlipSystemRuntime/Private/FlipActorComponent.cpp:138-150 | the reset lifts the owner by the height offset, zeroes pitch and roll, and keeps position and heading |
| FlipActor.ResetLevelsOnce | Plugins/GameFeatures/FlipSystem/Source/FlipSystemRuntime/Private/FlipActorComponent.cpp:138-150 | resetting a reset vehicle leaves its orientation as it is |
| FlipActor.FlipStep | Plugins/GameFeatures/FlipSystem/Source/FlipSystemRuntime/Private/FlipActorComponent.cpp:169-192 | a check resets exactly when the vehicle is flipped now (up-dot below the minimum) and was on the previous check; the new flag is "flipped now" |
| FlipActor.ResetsOver | Plugins/GameFeatures/FlipSystem/Source/FlipSystemRuntime/Private/FlipActorComponent.cpp:161-192 | over a run of checks, one reset flag per check |
| FlipActor.ResetsOverExact | Plugins/GameFeatures/FlipSystem/Source/FlipSystemRuntime/Private/FlipActorComponent.cpp:161-192 | flip test i resets exactly when it and the flip test before it (the initial flag for the first) both found the vehicle flipped |
| FlipActor.FlipActorComponent.constructor | Plugins/GameFeatures/FlipSystem/Source/FlipSystemRuntime/Public/FlipActorComponent.h:65-82 | minimum dot 0.2, height offset 50 cm, not flipped, no resets |
| FlipActor.FlipActorComponent.ResetVehicle | Plugins/GameFeatures/FlipSystem/Source/FlipSystemRuntime/Private/FlipActorComponent.cpp:129-159 | nothing without an owner; otherwise the owner moves to ResetTransform and is reset through the interface when it implements it |
| FlipActor.FlipActorComponent.FlippedCheck | Plugins/GameFeatures/FlipSystem/Source/FlipSystemRuntime/Private/FlipActorComponent.cpp:161-192 | nothing without an owner; otherwise the flag becomes FlipStep's and the vehicle is reset exactly when FlipStep says so |
| SplineBuilder.WrapPointIndex | Plugins/AsyncSplineBuilder/Source/AsyncSplineBuilder/Private/SplineGeneratingActor.cpp:35-41 | 0 without points; otherwise C++'s truncating remainder lifted when negative equals the floor remainder, in [0, n) |
| SplineBuilder.WrapPointIndexPeriodic | Plugins/AsyncSplineBuilder/Source/AsyncSplineBuilder/Private/SplineGeneratingActor.cpp:35-41 | indices one lap apart wrap to the same point |
| SplineBuilder.SegmentCount | Plugins/AsyncSplineBuilder/Source/AsyncSplineBuilder/Private/SplineGeneratingActor.cpp:622-638 | no spline or fewer than two points give 0 segments; a closed loop has one per point, an open spline one fewer |
| SplineBuilder.IsSegmentInsideJumpGap | Plugins/AsyncSplineBuilder/Source/AsyncSplineBuilder/Private/SplineGeneratingActor.cpp:1801-1817 | true exactly when some gap with end above start covers the segment, start inclusive and end exclusive |
| SplineBuilder.GetDropInfoForSegment | Plugins/AsyncSplineBuilder/Source/AsyncSplineBuilder/Private/SplineGeneratingActor.cpp:1819-1871 | false and zeros exactly when no non-degenerate drop covers the segment; otherwise the covering drop with the smallest height, the first one on ties |
| SplineBuilder.GetSegmentIndexFromDistance | Plugins/AsyncSplineBuilder/Source/AsyncSplineBuilder/Private/SplineGeneratingActor.cpp:1771-1799 | 0 without a spline or segments; otherwise the first segment whose range (to the spline length for a loop's closing segment) holds the distance, and the last segment when none does |
| SplineBuilder.RotatedForward | Plugins/AsyncSplineBuilder/Source/AsyncSplineBuilder/Private/SplineGeneratingActor.cpp:1959-1988 | a permutation of the points: the last moves to the front, the others follow in order; fewer than two are left alone |
| SplineBuilder.RotatedBackward | Plugins/AsyncSplineBuilder/Source/AsyncSplineBuilder/Private/SplineGeneratingActor.cpp:2002-2031 | a permutation of the points: the first moves to the end, the others keep their order; fewer than two are left alone |
| SplineBuilder.RotationsAreInverse | Plugins/AsyncSplineBuilder/Source/AsyncSplineBuilder/Private/SplineGeneratingActor.cpp:1959-2031 | rotating forward then backward, or backward then forward, restores the point list |
| SplineBuilder.WallTriangles | Plugins/AsyncSplineBuilder/Source/AsyncSplineBuilder/Private/SplineGeneratingActor.cpp:1542-1564 | a wall of q quads holds 6 q indices |
| SplineBuilder.WallTrianglesInRange | Plugins/AsyncSplineBuilder/Source/AsyncSplineBuilder/Private/SplineGeneratingActor.cpp:1542-1564 | every index of a wall of q quads addresses one of its 2 (q + 1) vertices |
| SplineBuilder.WallTrianglesQuad | Plugins/AsyncSplineBuilder/Source/AsyncSplineBuilder/Private/SplineGeneratingActor.cpp:1542-1564 | quad q occupies positions 6q to 6q+5, with the two triangles of its winding from base vertex 2q |
| SplineBuilder.GroundWallSubdivisionsUsed | Plugins/AsyncSplineBuilder/Source/AsyncSplineBuilder/Private/SplineGeneratingActor.cpp:1410 | at least 4 and at least the configured count, which is kept when already 4 or more |
| SplineBuilder.GroundWallIndices | Plugins/AsyncSplineBuilder/Source/AsyncSplineBuilder/Private/SplineGeneratingActor.cpp:1444-1564 | built exactly for at least two subdivisions; then 2 (n + 1) vertices, 6 n indices, all in range, laid out as WallTriangles with the winding flipped on the left wall |
| SplineBuilder.BackFace | Plugins/AsyncSplineBuilder/Source/AsyncSplineBuilder/Private/SplineGeneratingActor.cpp:1584-1589 | each triangle with its second and third index swapped |
| SplineBuilder.BuildBackTriangles | Plugins/AsyncSplineBuilder/Source/AsyncSplineBuilder/Private/SplineGeneratingActor.cpp:1579-1590 | the double-sided back triangles equal BackFace of the front ones |
| SplineBuilder.BackFaceUnique | Plugins/AsyncSplineBuilder/Source/AsyncSplineBuilder/Private/SplineGeneratingActor.cpp:1584-1589 | the back face is the only list meeting the three per-triangle equations |
| SplineBuilder.BackFaceInvolution | Plugins/AsyncSplineBuilder/Source/AsyncSplineBuilder/Private/SplineGeneratingActor.cpp:1584-1589 | swapping twice restores the front face |
| SplineBuilder.FlippedIsBackFace | Plugins/AsyncSplineBuilder/Source/AsyncSplineBuilder/Private/SplineGeneratingActor.cpp:1544-1563 | the left wall's flipped winding is exactly the back face of the right wall's |
| SplineBuilder.SplineGeneratingActor.constructor | Plugins/AsyncSplineBuilder/Source/AsyncSplineBuilder/Public/SplineGeneratingActor.h:299-305 | the given spline, mesh and points, no segments, no build running or pending, nothing built |
| SplineBuilder.SplineGeneratingActor.BuildArrayOfSplineSegments | Plugins/AsyncSplineBuilder/Source/AsyncSplineBuilder/Private/SplineGeneratingActor.cpp:622-638 | the segment count becomes SegmentCount of the spline |
| SplineBuilder.SplineGeneratingActor.CancelAsyncBuild | Plugins/AsyncSplineBuilder/Source/AsyncSplineBuilder/Private/SplineGeneratingActor.cpp:520-532 | a no-op when no build runs or is pending; otherwise both flags clear and ticking stops |
| SplineBuilder.SplineGeneratingActor.StartBuild | Plugins/AsyncSplineBuilder/Source/AsyncSplineBuilder/Private/SplineGeneratingActor.cpp:1255-1272 | without segments, spline or mesh ticking stops and nothing starts; otherwise the build starts at segment 0 |
| SplineBuilder.SplineGeneratingActor.FinishBuild | Plugins/AsyncSplineBuilder/Source/AsyncSplineBuilder/Private/SplineGeneratingActor.cpp:1305-1336 | the build stops, landscape deformation is switched off, and ticking stays on only when a rebuild is pending |
| SplineBuilder.SplineGeneratingActor.BuildNextSegments | Plugins/AsyncSplineBuilder/Source/AsyncSplineBuilder/Private/SplineGeneratingActor.cpp:1274-1303 | the cursor advances by min(n, remaining) and exactly those segments are built in order; reaching the segment count finishes the build, otherwise the build flags are unchanged |
| SplineBuilder.SplineGeneratingActor.RotateSplinePointsForward | Plugins/AsyncSplineBuilder/Source/AsyncSplineBuilder/Private/SplineGeneratingActor.cpp:1959-1993 | with a spline the points become RotatedForward of the old ones; without one nothing changes |
| SplineBuilder.SplineGeneratingActor.RotateSplinePointsBackward | Plugins/AsyncSplineBuilder/Source/AsyncSplineBuilder/Private/SplineGeneratingActor.cpp:2002-2036 | with a spline the points become RotatedBackward of the old ones; without one nothing changes |
| SplineBuilder.SplineGeneratingActor.CopyPoints | Plugins/AsyncSplineBuilder/Source/AsyncSplineBuilder/Private/SplineGeneratingActor.cpp:1970-1975 | the copied list equals the spline's points |
| Respawn.WrapOrClampDistance | Plugins/Framework/Source/Framework/Private/GameInstance/RespawnGameInstanceSubsystem.cpp:81-96 | 0 without a spline; otherwise WrapOrClamp with the spline's length and loop flag |
| Respawn.Registered | Plugins/Framework/Source/Framework/Private/GameInstance/RespawnGameInstanceSubsystem.cpp:230-249 | an invalid or already registered actor leaves the registry unchanged; otherwise the actor is added, and the registry never holds an actor twice |
| Respawn.Without | Plugins/Framework/Source/Framework/Private/GameInstance/RespawnGameInstanceSubsystem.cpp:270 | the registry with the actor removed, the rest in order |
| Respawn.Unregistered | Plugins/Framework/Source/Framework/Private/GameInstance/RespawnGameInstanceSubsystem.cpp:251-272 | an invalid or unregistered actor leaves the registry unchanged; otherwise the actor is no longer in it |
| Respawn.WithoutAbsent | Plugins/Framework/Source/Framework/Private/GameInstance/RespawnGameInstanceSubsystem.cpp:262-265 | removing an actor that is not registered changes nothing |
| Respawn.WithoutAppended | Plugins/Framework/Source/Framework/Private/GameInstance/RespawnGameInstanceSubsystem.cpp:251-272 | removing the actor just added gives back the registry before |
| Respawn.RegisterThenUnregister | Plugins/Framework/Source/Framework/Private/Actors/NoSpawnZoneActor.cpp:19-48 | registering a zone at BeginPlay and unregistering it at EndPlay restores the registry |
| Respawn.FirstBlocking | Plugins/Framework/Source/Framework/Private/GameInstance/RespawnGameInstanceSubsystem.cpp:341-371 | the first registered zone, in iteration order, that is valid and contains the point with margin SafetyExtra plus the radius |
| Respawn.FirstBlockingIsFirst | Plugins/Framework/Source/Framework/Private/GameInstance/RespawnGameInstanceSubsystem.cpp:346-368 | the zone found blocks the point and every entry before it lets it through; none found means none blocks |
| Respawn.Live | Plugins/Framework/Source/Framework/Private/GameInstance/RespawnGameInstanceSubsystem.cpp:350-354 | the entries whose weak pointers are valid, in order |
| Respawn.FirstBlockingLive | Plugins/Framework/Source/Framework/Private/GameInstance/RespawnGameInstanceSubsystem.cpp:350-354 | stale entries never block: the answer on the live entries alone is the same |
| Respawn.SameLiveSameBlocking | Plugins/Framework/Source/Framework/Private/GameInstance/RespawnGameInstanceSubsystem.cpp:341-371 | registries with the same live entries give the same answer |
| Respawn.ScanZonesFinds | Plugins/Framework/Source/Framework/Private/GameInstance/RespawnGameInstanceSubsystem.cpp:346-370 | the zone the scan reports is FirstBlocking of the registry |
| Respawn.ScanZonesPrunes | Plugins/Framework/Source/Framework/Private/GameInstance/RespawnGameInstanceSubsystem.cpp:350-354 | the scan drops only stale entries, keeps the live ones in order, and drops every stale entry when nothing blocks |
| Respawn.ScanAt | Plugins/Framework/Source/Framework/Private/GameInstance/RespawnGameInstanceSubsystem.cpp:346-368 | one scan step: a stale entry is dropped, a blocking zone ends the scan, any other entry is kept |
| Respawn.ExitSign | Plugins/Framework/Source/Framework/Private/GameInstance/RespawnGameInstanceSubsystem.cpp:401 | -1 for a zone that pushes backward, +1 for one that pushes forward |
| Respawn.PushDistance | Plugins/Framework/Source/Framework/Private/GameInstance/RespawnGameInstanceSubsystem.cpp:403-417 | at least the zone's push distance, and at least twice the pawn length, plus the zone's margin and the actor radius |
| Respawn.SearchStep | Plugins/Framework/Source/Framework/Private/GameInstance/RespawnGameInstanceSubsystem.cpp:419 | one blocked step lands on the spline; on an open spline a push past either end in the exit direction stops at that end |
| Respawn.SafeSearch | Plugins/Framework/Source/Framework/Private/GameInstance/RespawnGameInstanceSubsystem.cpp:394-427 | the first unblocked distance of the walk that starts at s and steps out of each blocking zone, within the iteration budget; the answer is never blocked |
| Respawn.SafeSearchMoreFuel | Plugins/Framework/Source/Framework/Private/GameInstance/RespawnGameInstanceSubsystem.cpp:394-427 | a distance found within some iterations is found alike with more: the bound of 32 only cuts off failures |
| Respawn.SearchOffsets | Plugins/Framework/Source/Framework/Private/GameInstance/RespawnGameInstanceSubsystem.cpp:466-474 | the offsets tried, in order: 0, then +i step and -i step for i = 1 to the step count; 2 n + 1 of them |
| Respawn.SearchOffsetsAt | Plugins/Framework/Source/Framework/Private/GameInstance/RespawnGameInstanceSubsystem.cpp:466-474 | outer step i (1 to the step count) tries +i step at position 2 i - 1 and -i step at position 2 i |
| Respawn.OffsetAt | Plugins/Framework/Source/Framework/Private/GameInstance/RespawnGameInstanceSubsystem.cpp:466-474 | the offset at outer step i and try t is +i step for t = 0 and -i step for t = 1 |
| Respawn.FirstUnblocked | Plugins/Framework/Source/Framework/Private/GameInstance/RespawnGameInstanceSubsystem.cpp:466-510 | the first candidate, in the order of the offsets, that no zone blocks with the given margin |
| Respawn.FirstUnblockedAt | Plugins/Framework/Source/Framework/Private/GameInstance/RespawnGameInstanceSubsystem.cpp:475-484 | from any position on, the search answers the candidate there when it is free and otherwise goes on with the next offset |
| Respawn.FirstUnblockedIsFirst | Plugins/Framework/Source/Framework/Private/GameInstance/RespawnGameInstanceSubsystem.cpp:466-510 | the candidate found is unblocked and every earlier one is blocked; none is found only when every candidate is blocked |
| Respawn.RespawnPlacement | Plugins/Framework/Source/Framework/Private/GameInstance/RespawnGameInstanceSubsystem.cpp:540-608 | none on a spline of at most 1 cm; otherwise the safe-distance search from the start distance, else the fallback search with step 400 cm, 24 steps and margin 100 cm; a placement lies on the spline and no zone blocks it with the actor radius or with the fallback margin |
| Respawn.SameUnblocked | Plugins/Framework/Source/Framework/Private/GameInstance/RespawnGameInstanceSubsystem.cpp:548-597 | registries with the same live entries find the same fallback candidate, so the pruning of the first search does not change the fallback |
| Respawn.RespawnSubsystem.constructor | Plugins/Framework/Source/Framework/Public/GameInstance/RespawnGameInstanceSubsystem.h:76-87 | no zones, nothing scheduled, respawn delay 5 s, height offset 200 cm |
| Respawn.RespawnSubsystem.RegisterNoSpawnZone | Plugins/Framework/Source/Framework/Private/GameInstance/RespawnGameInstanceSubsystem.cpp:230-249 | the registry becomes Registered of the old one |
| Respawn.RespawnSubsystem.UnRegisterNoSpawnZone | Plugins/Framework/Source/Framework/Private/GameInstance/RespawnGameInstanceSubsystem.cpp:251-272 | the registry becomes Unregistered of the old one |
| Respawn.RespawnSubsystem.NotifyRespawn | Plugins/Framework/Source/Framework/Private/GameInstance/RespawnGameInstanceSubsystem.cpp:283-335 | nothing for an invalid actor, without a world or for an actor already scheduled; otherwise the actor is scheduled with a timer of the respawn delay |
| Respawn.RespawnSubsystem.FindBlockingNoSpawnZone | Plugins/Framework/Source/Framework/Private/GameInstance/RespawnGameInstanceSubsystem.cpp:341-371 | the registry and the answer afterwards are ScanZones of the registry before |
| Respawn.RespawnSubsystem.QueryAt | Plugins/Framework/Source/Framework/Private/GameInstance/RespawnGameInstanceSubsystem.cpp:399 | one zone query during a search answers as the registry the search started from would |
| Respawn.RespawnSubsystem.FindSafeDistanceOnTrackSpline | Plugins/Framework/Source/Framework/Private/GameInstance/RespawnGameInstanceSubsystem.cpp:377-427 | false and the start distance back without a spline or actor or on a spline of at most 1 cm; otherwise success exactly when SafeSearch from the wrapped start finds a distance, which is returned; the registry only loses stale entries |
| Respawn.RespawnSubsystem.SafeStepAt | Plugins/Framework/Source/Framework/Private/GameInstance/RespawnGameInstanceSubsystem.cpp:397-424 | one iteration: s is free, or the next distance is SearchStep out of the blocking zone |
| Respawn.RespawnSubsystem.FindSafeTrackTransform | Plugins/Framework/Source/Framework/Private/GameInstance/RespawnGameInstanceSubsystem.cpp:433-510 | false without a world or spline or on a spline of at most 1 cm; otherwise success exactly when FirstUnblocked over the offsets (step at least 1, steps at least 0) finds a candidate, which is returned |
| Respawn.RespawnSubsystem.TryCandidate | Plugins/Framework/Source/Framework/Private/GameInstance/RespawnGameInstanceSubsystem.cpp:475-484 | the candidate distance for an offset and whether a zone blocks it |
| Respawn.RespawnSubsystem.DoRespawn | Plugins/Framework/Source/Framework/Private/GameInstance/RespawnGameInstanceSubsystem.cpp:517-665 | the actor always leaves the schedule and its timer is dropped; an invalid actor, a missing world or no spline places nothing; otherwise the actor is placed at RespawnPlacement |
| CurriculumBuilder.CurvatureInvCm | Plugins/GameFeatures/CarAI/Source/CarAIRuntime/Private/Builder/RacingCurriculumBuilder.cpp:40-68 | 0 without a provider or for a length of at most 1 cm; otherwise non-negative, and times the doubled window (at least 10 cm each way) it gives back the tangent change; the spawner's curvature (CurriculumSpawner.cpp:64-103) has the same guards and window but divides the angle between the tangents, not the chord between them, so only its guards agree with this rule |
| CurriculumBuilder.TagBits | Plugins/GameFeatures/CarAI/Source/CarAIRuntime/Private/Builder/RacingCurriculumBuilder.cpp:70-139 | a mask in [0, 32) whose Corner, Downhill, Uphill, RampApproach and OnRamp bits are exactly the five tests |
| CurriculumBuilder.BuildTagMask | Plugins/GameFeatures/CarAI/Source/CarAIRuntime/Private/Builder/RacingCurriculumBuilder.cpp:70-139 | nothing without a provider or for a length of at most 1 cm; otherwise each tag bit is set exactly when its threshold test holds (normalised curvature above the corner threshold, slope above the uphill or below the downhill threshold, rise and ahead-slope for a ramp approach, slope for on-ramp) |
| CurriculumBuilder.Lerp | Plugins/GameFeatures/CarAI/Source/CarAIRuntime/Private/Builder/RacingCurriculumBuilder.cpp:141-179 | a lerp with a fraction in [0, 1] stays between its ends and gives the first at 0 |
| CurriculumBuilder.CornerSpeed | Plugins/GameFeatures/CarAI/Source/CarAIRuntime/Private/Builder/RacingCurriculumBuilder.cpp:150-156 | straight speed without the corner tag; otherwise between straight and corner speed |
| CurriculumBuilder.SpeedAndSteerHints | Plugins/GameFeatures/CarAI/Source/CarAIRuntime/Private/Builder/RacingCurriculumBuilder.cpp:141-179 | steering at most 1, at most the jump cap on ramps and exactly 1 elsewhere; ramps without braking keep at least jump speed; downhill without a ramp is capped at downhill speed; a tagless unbraked sample keeps straight speed |
| CurriculumBuilder.MergeSample | Plugins/GameFeatures/CarAI/Source/CarAIRuntime/Private/Builder/RacingCurriculumBuilder.cpp:237-301 | a sample in a no-spawn zone closes the open segment; any other sample leaves an open segment ending at it, and adds a closed one exactly when it cannot extend the open one (different tags or hints beyond the tolerances); closed segments are only appended |
| CurriculumBuilder.MergeSampleKeepsOrder | Plugins/GameFeatures/CarAI/Source/CarAIRuntime/Private/Builder/RacingCurriculumBuilder.cpp:237-301 | each sample keeps the closed segments on the track and in strictly increasing start order, with the open one after them |
| CurriculumBuilder.FinishOrdered | Plugins/GameFeatures/CarAI/Source/CarAIRuntime/Private/Builder/RacingCurriculumBuilder.cpp:304-309 | closing the open segment at the length keeps the segments ordered |
| CurriculumBuilder.BuildFromTrackProvider | Plugins/GameFeatures/CarAI/Source/CarAIRuntime/Private/Builder/RacingCurriculumBuilder.cpp:205-312 | false with no segments without a provider or for a length of at most 1 cm; otherwise the segments are the merge of the CeilToInt(L / step) samples 0, step, 2 step ... with step = max(10, SampleStepCm), they lie on the track in increasing order, and the result is true exactly when there is one |
| CurriculumData.QueryDistance | Plugins/GameFeatures/CarAI/Source/CarAIRuntime/Private/Data/RacingCurriculumDataAsset.cpp:56-66 | the lookup distance is WrapOrClamp of the query on the asset's track: in [0, L] |
| CurriculumData.FindSegmentAtDistance | Plugins/GameFeatures/CarAI/Source/CarAIRuntime/Private/Data/RacingCurriculumDataAsset.cpp:46-80 | false for no segments or a length of at most 1 cm; otherwise true exactly when some segment's closed range holds the wrapped or clamped distance, and the segment returned is the first such |
| CurriculumData.MatchingIndicesExact | Plugins/GameFeatures/CarAI/Source/CarAIRuntime/Private/Data/RacingCurriculumDataAsset.cpp:100-112 | the candidate list holds exactly the indices of the segments matching the mask (all bits when all are required, some bit otherwise), once each, in increasing order |
| CurriculumData.CollectCandidates | Plugins/GameFeatures/CarAI/Source/CarAIRuntime/Private/Data/RacingCurriculumDataAsset.cpp:100-112 | the candidate loop yields MatchingIndices |
| CurriculumData.PickIndex | Plugins/GameFeatures/CarAI/Source/CarAIRuntime/Private/Data/RacingCurriculumDataAsset.cpp:121 | RandRange(0, n - 1) from a fraction in [0, 1) lands in [0, n) |
| CurriculumData.PickIndexReachesAll | Plugins/GameFeatures/CarAI/Source/CarAIRuntime/Private/Data/RacingCurriculumDataAsset.cpp:121 | every candidate position is picked by some fraction |
| CurriculumData.RandInRange | Plugins/GameFeatures/CarAI/Source/CarAIRuntime/Private/Data/RacingCurriculumDataAsset.cpp:122 | FRandRange(a, b) lies in [a, b] when a <= b |
| CurriculumData.DistanceInRange | Plugins/GameFeatures/CarAI/Source/CarAIRuntime/Private/Data/RacingCurriculumDataAsset.cpp:122 | the picked distance lies in [0, L], and inside the segment when the segment lies on the track |
| CurriculumData.GetRandomDistanceInTag | Plugins/GameFeatures/CarAI/Source/CarAIRuntime/Private/Data/RacingCurriculumDataAsset.cpp:82-128 | fails with 0 for an empty mask, no segments or a length of at most 1 cm; otherwise succeeds exactly when some segment matches, and then returns a distance in [0, L] inside a matching segment's range |
| CurriculumData.CountWithMask | Plugins/GameFeatures/CarAI/Source/CarAIRuntime/Private/Data/RacingCurriculumDataAsset.cpp:134-138 | the number of segments with a mask, at most the segment count |
| CurriculumData.CountPositive | Plugins/GameFeatures/CarAI/Source/CarAIRuntime/Private/Data/RacingCurriculumDataAsset.cpp:134-138 | a mask is counted exactly when some segment carries it |
| CurriculumData.LengthWithMask | Plugins/GameFeatures/CarAI/Source/CarAIRuntime/Private/Data/RacingCurriculumDataAsset.cpp:134-138 | the summed clipped lengths max(0, end - start) of a mask's segments, non-negative and 0 for an absent mask |
| CurriculumData.StatsSnoc | Plugins/GameFeatures/CarAI/Source/CarAIRuntime/Private/Data/RacingCurriculumDataAsset.cpp:134-138 | one more segment adds one to its mask's count and its clipped length to its mask's total, and nothing to other masks |
| CurriculumData.TagStatsStep | Plugins/GameFeatures/CarAI/Source/CarAIRuntime/Private/Data/RacingCurriculumDataAsset.cpp:136-137 | the FindOrAdd updates of one segment extend the statistics by that segment |
| CurriculumData.DumpTagStats | Plugins/GameFeatures/CarAI/Source/CarAIRuntime/Private/Data/RacingCurriculumDataAsset.cpp:130-150 | the maps hold, for exactly the masks occurring in the segments, each mask's segment count and clipped length |
| SpawnScore.PitchNorm | Plugins/GameFeatures/CarAI/Source/CarAIEditor/Private/Editor/CurriculumSpawner.cpp:128-131 | the signed pitch over the bad pitch, clamped to [-1, 1]: 0 without a bad pitch, positive exactly for uphill, 1 from the bad pitch on |
| SpawnScore.PitchFactor | Plugins/GameFeatures/CarAI/Source/CarAIEditor/Private/Editor/CurriculumSpawner.cpp:133-143 | in [0, 1]: 1 downhill, level or without a bad pitch; below 1 uphill; 0 from the bad pitch on |
| SpawnScore.CurvatureFactor | Plugins/GameFeatures/CarAI/Source/CarAIEditor/Private/Editor/CurriculumSpawner.cpp:145-150 | in [0, 1]: 1 on a straight or without a bad curvature, 0 from the bad curvature on |
| SpawnScore.Score | Plugins/GameFeatures/CarAI/Source/CarAIEditor/Private/Editor/CurriculumSpawner.cpp:109-157 | -1 without a surface; 0.05 for a surface steeper than the wall limit; otherwise in [0.05, 1]; non-negative exactly when there is a surface; the debug actor's ComputeSpawnScore01 is the same rule |
| SpawnScore.DownhillScoresAsLevel | Plugins/GameFeatures/CarAI/Source/CarAIEditor/Private/Editor/CurriculumSpawner.cpp:133-143 | any non-positive pitch scores as a level one |
| SpawnScore.ZoneAdjusted | Plugins/GameFeatures/CarAI/Source/CarAIEditor/Private/Editor/CurriculumSpawner.cpp:217-221 | a scored sample inside a no-spawn zone scores 0, a missing surface keeps -1, other samples keep their score |
| CurriculumSpawner.CandidateAt | Plugins/GameFeatures/CarAI/Source/CarAIEditor/Private/Editor/CurriculumSpawner.cpp:185-223 | one candidate at distance s whose surface flag is the trace's; its score is non-negative exactly with a surface, 0 in a no-spawn zone and otherwise in [0.05, 1] |
| CurriculumSpawner.BuildSpawnCandidates | Plugins/GameFeatures/CarAI/Source/CarAIEditor/Private/Editor/CurriculumSpawner.cpp:163-227 | none without a world or spline or for a length of at most 1 cm; otherwise CeilToInt(L / step) candidates, step at least 50 cm, candidate i being CandidateAt(i step) |
| CurriculumSpawner.SampleCountPositive | Plugins/GameFeatures/CarAI/Source/CarAIEditor/Private/Editor/CurriculumSpawner.cpp:176-177 | a positive length gives at least one sample |
| CurriculumSpawner.CandidatesAlongTrack | Plugins/GameFeatures/CarAI/Source/CarAIEditor/Private/Editor/CurriculumSpawner.cpp:176-186 | the candidates lie on the track in strictly increasing distance |
| CurriculumSpawner.FilterUsable | Plugins/GameFeatures/CarAI/Source/CarAIEditor/Private/Editor/CurriculumSpawner.cpp:278-285 | the candidates passing the filter (valid surface with score at least the minimum, or above 0 in the fallback), in order |
| CurriculumSpawner.FilterUsableComplete | Plugins/GameFeatures/CarAI/Source/CarAIEditor/Private/Editor/CurriculumSpawner.cpp:279-303 | every candidate passing the filter survives it |
| CurriculumSpawner.CollectUsable | Plugins/GameFeatures/CarAI/Source/CarAIEditor/Private/Editor/CurriculumSpawner.cpp:279-303 | the filter loops yield FilterUsable |
| CurriculumSpawner.EligibleCases | Plugins/GameFeatures/CarAI/Source/CarAIEditor/Private/Editor/CurriculumSpawner.cpp:279-310 | nothing is eligible exactly when no candidate passes either filter; each eligible one meets the minimum, or passes the fallback when none met the minimum |
| CurriculumSpawner.Insert | Plugins/GameFeatures/CarAI/Source/CarAIEditor/Private/Editor/CurriculumSpawner.cpp:349-353 | insertion adds the candidate to the multiset |
| CurriculumSpawner.InsertSorted | Plugins/GameFeatures/CarAI/Source/CarAIEditor/Private/Editor/CurriculumSpawner.cpp:349-353 | insertion keeps a list sorted by the key |
| CurriculumSpawner.SortBy | Plugins/GameFeatures/CarAI/Source/CarAIEditor/Private/Editor/CurriculumSpawner.cpp:349-353 | TArray::Sort by a key yields a permutation of the list |
| CurriculumSpawner.SortBySorted | Plugins/GameFeatures/CarAI/Source/CarAIEditor/Private/Editor/CurriculumSpawner.cpp:363-366 | that permutation is sorted by the key: ascending distance or descending score |
| CurriculumSpawner.NearestIndex | Plugins/GameFeatures/CarAI/Source/CarAIEditor/Private/Editor/CurriculumSpawner.cpp:327-338 | the index of a candidate at least distance from the target, the first one of least distance |
| CurriculumSpawner.FindNearest | Plugins/GameFeatures/CarAI/Source/CarAIEditor/Private/Editor/CurriculumSpawner.cpp:326-338 | the scan that replaces the best on a strictly smaller distance returns NearestIndex |
| CurriculumSpawner.EvenPicks | Plugins/GameFeatures/CarAI/Source/CarAIEditor/Private/Editor/CurriculumSpawner.cpp:314-345 | one eligible pick per car |
| CurriculumSpawner.PickEvenly | Plugins/GameFeatures/CarAI/Source/CarAIEditor/Private/Editor/CurriculumSpawner.cpp:318-345 | the even-mode loop yields EvenPicks over the targets first + i (last - first) / max(1, cars) |
| CurriculumSpawner.TopByScore | Plugins/GameFeatures/CarAI/Source/CarAIEditor/Private/Editor/CurriculumSpawner.cpp:346-359 | min(cars, eligible) picks from the eligible candidates |
| CurriculumSpawner.TopByScoreBest | Plugins/GameFeatures/CarAI/Source/CarAIEditor/Private/Editor/CurriculumSpawner.cpp:346-359 | the picks are drawn from the eligible candidates and no eligible candidate left out outscores a picked one |
| CurriculumSpawner.PickByScore | Plugins/GameFeatures/CarAI/Source/CarAIEditor/Private/Editor/CurriculumSpawner.cpp:346-359 | the score-mode loop yields TopByScore |
| CurriculumSpawner.SelectBestProperties | Plugins/GameFeatures/CarAI/Source/CarAIEditor/Private/Editor/CurriculumSpawner.cpp:262-369 | empty exactly for no candidates, no cars or no eligible candidate; otherwise one pick per car in even mode and min(cars, eligible) in score mode; every pick is eligible; the output is in ascending distance |
| CurriculumSpawner.SelectBestCandidates | Plugins/GameFeatures/CarAI/Source/CarAIEditor/Private/Editor/CurriculumSpawner.cpp:262-369 | the selection equals SelectBest, whose properties SelectBestProperties states; the minimum distance is ignored |
| CurriculumDebug.DebugHints | Plugins/GameFeatures/CarAI/Source/CarAIRuntime/Private/Debug/RacingCurriculumDebugActor.cpp:457-467 | the speed hint stays in [0.05, 1] and the steering hint in [0.1, 1] |
| CurriculumDebug.DebugHintsMonotone | Plugins/GameFeatures/CarAI/Source/CarAIRuntime/Private/Debug/RacingCurriculumDebugActor.cpp:457-467 | more curvature or a steeper slope never raises the speed hint, more curvature never lowers the steering hint; a level straight gets (1, 0.2) |
| CurriculumDebug.ColorForScore01 | Plugins/GameFeatures/CarAI/Source/CarAIRuntime/Private/Debug/RacingCurriculumDebugActor.cpp:544-556 | black for an invalid hit or a negative score, otherwise the first threshold reached (green, yellow, orange), red below all |
| CurriculumDebug.ColorMonotone | Plugins/GameFeatures/CarAI/Source/CarAIRuntime/Private/Debug/RacingCurriculumDebugActor.cpp:544-556 | with ordered thresholds a higher score on a valid hit never gets a worse colour |
| CurriculumDebug.FirstTrackHit | Plugins/GameFeatures/CarAI/Source/CarAIRuntime/Private/Debug/RacingCurriculumDebugActor.cpp:300-321 | the first blocking hit whose actor or component owner is the track actor, if any |
| CurriculumDebug.ChosenHit | Plugins/GameFeatures/CarAI/Source/CarAIRuntime/Private/Debug/RacingCurriculumDebugActor.cpp:290-330 | none for no hits; the first blocking track hit when track hits are preferred and a track actor is set; otherwise index 0 when falling back to any hit |
| CurriculumDebug.ChooseBestSurfaceHit | Plugins/GameFeatures/CarAI/Source/CarAIRuntime/Private/Debug/RacingCurriculumDebugActor.cpp:290-335 | the scan picks ChosenHit, and succeeds exactly when a hit is chosen and it blocks |
| CurriculumDebug.Capped | Plugins/GameFeatures/CarAI/Source/CarAIRuntime/Private/Debug/RacingCurriculumDebugActor.cpp:123-127 | the log keeps min(length, cap) entries, the newest ones |
| CurriculumDebug.BinIndex | Plugins/GameFeatures/CarAI/Source/CarAIRuntime/Private/Debug/RacingCurriculumDebugActor.cpp:921 | FloorToInt(S / Bin): the bin whose interval contains S |
| CurriculumDebug.CountInBin | Plugins/GameFeatures/CarAI/Source/CarAIRuntime/Private/Debug/RacingCurriculumDebugActor.cpp:919-931 | the number of events in a bin, at most the log's length |
| CurriculumDebug.HotspotsCount | Plugins/GameFeatures/CarAI/Source/CarAIRuntime/Private/Debug/RacingCurriculumDebugActor.cpp:910-932 | a bin has a hotspot exactly when some event falls into it; its count is the number of those events and its centre the middle of the bin |
| CurriculumDebug.CountInBinWitness | Plugins/GameFeatures/CarAI/Source/CarAIRuntime/Private/Debug/RacingCurriculumDebugActor.cpp:919-931 | a bin with a positive count holds an event of the log |
| CurriculumDebug.DebugActor.constructor | Plugins/GameFeatures/CarAI/Source/CarAIRuntime/Public/Debug/RacingCurriculumDebugActor.h:256-259 | no spline yet, 600 cm bins, a cap of 256 events, an empty log and no hotspots |
| CurriculumDebug.DebugActor.ClearRecordedSpawns | Plugins/GameFeatures/CarAI/Source/CarAIRuntime/Private/Debug/RacingCurriculumDebugActor.cpp:85-92 | empties the log and the hotspots |
| CurriculumDebug.DebugActor.RebuildHotspots | Plugins/GameFeatures/CarAI/Source/CarAIRuntime/Private/Debug/RacingCurriculumDebugActor.cpp:910-932 | the hotspots are HotspotsOf the log with a bin of at least 50 cm, or none without a usable spline |
| CurriculumDebug.DebugActor.ReportAgentSpawn | Plugins/GameFeatures/CarAI/Source/CarAIRuntime/Private/Debug/RacingCurriculumDebugActor.cpp:94-130 | ignored without a usable spline; otherwise the event is appended, the oldest beyond the cap dropped and the hotspots rebuilt |
| CurriculumDebug.CappedKeepsNewest | Plugins/GameFeatures/CarAI/Source/CarAIRuntime/Private/Debug/RacingCurriculumDebugActor.cpp:121-127 | the capped log never exceeds the cap, keeps the newest events in order and ends with the reported one |
| CurriculumDebug.BuildSampleDistances | Plugins/GameFeatures/CarAI/Source/CarAIRuntime/Private/Debug/RacingCurriculumDebugActor.cpp:618-637 | none without a usable spline; otherwise N + 1 wrapped distances i * step for N = max(2, CeilToInt(length / step)), the step at least 10 cm |
| EngineSynth.Downmix | GameFeature_EngineSimulator/Source/GameFeature_EngineSimulatorRuntime/Private/Components/EngineSynthComponent.cpp:106-121 | one mono sample per frame: the mean of the two channels of a stereo file, otherwise the f-th value of the interleaved data, as the source indexes it |
| EngineSynth.MonoDownmixIsIdentity | GameFeature_EngineSimulator/Source/GameFeature_EngineSimulatorRuntime/Private/Components/EngineSynthComponent.cpp:114-121 | a mono file is taken unchanged |
| EngineSynth.EqualStereoDownmix | GameFeature_EngineSimulator/Source/GameFeature_EngineSimulatorRuntime/Private/Components/EngineSynthComponent.cpp:106-113 | a stereo file whose channels agree is taken channel for channel |
| EngineSynth.EngineSynthComponent.DownmixFrames | GameFeature_EngineSimulator/Source/GameFeature_EngineSimulatorRuntime/Private/Components/EngineSynthComponent.cpp:99-121 | the frame loops produce Downmix of the decoded file |
| EngineSynth.CrankAngle | GameFeature_EngineSimulator/Source/GameFeature_EngineSimulatorRuntime/Private/Components/EngineSynthComponent.cpp:228-229 | the crank angle lies in [0, 720) for a non-negative position and rpm |
| EngineSynth.LoadShapes | GameFeature_EngineSimulator/Source/GameFeature_EngineSimulatorRuntime/Private/Components/EngineSynthComponent.cpp:44-137 | one shape per impulse sound, in order: a sound that cannot be named, read or parsed contributes an empty shape of length 0, a decoded one its mono downmix, and each recorded length is its shape's length |
| EngineSynth.Ignite | GameFeature_EngineSimulator/Source/GameFeature_EngineSimulatorRuntime/Private/Components/EngineSynthComponent.cpp:233-253 | the cylinder loop only appends to the two queues, by equal amounts: the earlier entries are kept as they were and every new impulse starts at position 0 |
| EngineSynth.IgniteKeepsVoicesOk | GameFeature_EngineSimulator/Source/GameFeature_EngineSimulatorRuntime/Private/Components/EngineSynthComponent.cpp:233-253 | ignition keeps the queues aligned, every shape index loaded and the round-robin index in range; every new impulse starts at position 0 |
| EngineSynth.IgniteCountsFirings | GameFeature_EngineSimulator/Source/GameFeature_EngineSimulatorRuntime/Private/Components/EngineSynthComponent.cpp:237-251 | exactly one impulse is queued per cylinder whose phase wrapped |
| EngineSynth.Rephased | GameFeature_EngineSimulator/Source/GameFeature_EngineSimulatorRuntime/Private/Components/EngineSynthComponent.cpp:252 | every cylinder is kept, its last phase updated |
| EngineSynth.MixQueue | GameFeature_EngineSimulator/Source/GameFeature_EngineSimulatorRuntime/Private/Components/EngineSynthComponent.cpp:255-271 | the queue stays well formed and never grows |
| EngineSynth.MixQueueKeepsUnfinished | GameFeature_EngineSimulator/Source/GameFeature_EngineSimulatorRuntime/Private/Components/EngineSynthComponent.cpp:255-271 | mixing drops exactly the impulses at the end of their shape, and keeps every impulse of a queue with none finished |
| EngineSynth.Step | GameFeature_EngineSimulator/Source/GameFeature_EngineSimulatorRuntime/Private/Components/EngineSynthComponent.cpp:226-276 | one output sample keeps the state well formed, writes a value in [-1, 1] and advances the clock by one |
| EngineSynth.Run | GameFeature_EngineSimulator/Source/GameFeature_EngineSimulatorRuntime/Private/Components/EngineSynthComponent.cpp:226-276 | the state after k samples stays well formed |
| EngineSynth.Output | GameFeature_EngineSimulator/Source/GameFeature_EngineSimulatorRuntime/Private/Components/EngineSynthComponent.cpp:274 | every written value lies in [-1, 1] |
| EngineSynth.Outputs | GameFeature_EngineSimulator/Source/GameFeature_EngineSimulatorRuntime/Private/Components/EngineSynthComponent.cpp:226-276 | a block of k samples has k values, each in [-1, 1] |
| EngineSynth.RunAdvancesClock | GameFeature_EngineSimulator/Source/GameFeature_EngineSimulatorRuntime/Private/Components/EngineSynthComponent.cpp:275 | the sample position moves by exactly k over k samples, and the cylinder count never changes |
| EngineSynth.EngineSynthComponent.constructor | GameFeature_EngineSimulator/Source/GameFeature_EngineSimulatorRuntime/Private/Components/EngineSynthComponent.cpp:12-19 | position 0, round-robin index 0, rpm 300 and empty queues, as in the header default at GameFeature_EngineSimulator/Source/GameFeature_EngineSimulatorRuntime/Public/Components/EngineSynthComponent.h:44 |
| EngineSynth.EngineSynthComponent.SyncMotorConfig | GameFeature_EngineSimulator/Source/GameFeature_EngineSimulatorRuntime/Private/Components/EngineSynthComponent.cpp:137-160 | no cylinders without a setting; otherwise one cylinder per configured offset with last phase 0 |
| EngineSynth.EngineSynthComponent.BeginPlay | GameFeature_EngineSimulator/Source/GameFeature_EngineSimulatorRuntime/Private/Components/EngineSynthComponent.cpp:21-135 | nothing loaded without the plugin or its WAV directory; otherwise one shape per configured sound (empty with length 0 when it fails to load) and the cylinders synced |
| EngineSynth.EngineSynthComponent.OnStart | GameFeature_EngineSimulator/Source/GameFeature_EngineSimulatorRuntime/Private/Components/EngineSynthComponent.cpp:182-190 | clock, round-robin index and both queues restart and the cylinders are synced |
| EngineSynth.EngineSynthComponent.OnStop | GameFeature_EngineSimulator/Source/GameFeature_EngineSimulatorRuntime/Private/Components/EngineSynthComponent.cpp:192-198 | no cylinders and no active impulses |
| EngineSynth.EngineSynthComponent.FireCylinders | GameFeature_EngineSimulator/Source/GameFeature_EngineSimulatorRuntime/Private/Components/EngineSynthComponent.cpp:233-253 | the cylinder loop leaves the cylinders Rephased and the queues Ignite'd |
| EngineSynth.EngineSynthComponent.MixImpulses | GameFeature_EngineSimulator/Source/GameFeature_EngineSimulatorRuntime/Private/Components/EngineSynthComponent.cpp:255-271 | the backward mixing loop leaves the queues and returns the sum MixQueue gives |
| EngineSynth.EngineSynthComponent.OnGenerateAudio | GameFeature_EngineSimulator/Source/GameFeature_EngineSimulatorRuntime/Private/Components/EngineSynthComponent.cpp:200-280 | always reports numSamples; silence and no state change without a setting, cylinders or shapes; otherwise the block Outputs gives and the state Run gives, the rpm raised to at least 300 |
| EngineSynth.EngineSynthComponent.GenerateBlock | GameFeature_EngineSimulator/Source/GameFeature_EngineSimulatorRuntime/Private/Components/EngineSynthComponent.cpp:226-276 | the sample loop writes Outputs and leaves the state Run gives, the rest of the buffer unchanged |
| EngineSynth.EngineSynthComponent.WriteSample | GameFeature_EngineSimulator/Source/GameFeature_EngineSimulatorRuntime/Private/Components/EngineSynthComponent.cpp:226-279 | writing sample s of the block advances the state by exactly one Step of the run from the block's start, extends the output to the first s + 1 samples of that run and leaves the later output cells alone |
| EngineSynth.EngineSynthComponent.SampleOnce | GameFeature_EngineSimulator/Source/GameFeature_EngineSimulatorRuntime/Private/Components/EngineSynthComponent.cpp:228-275 | one iteration is one Step of the state |
| EngineSynth.EngineSynthComponent.FillSilence | GameFeature_EngineSimulator/Source/GameFeature_EngineSimulatorRuntime/Private/Components/EngineSynthComponent.cpp:212-213 | the first numSamples entries become 0, the rest unchanged |
| RacingAgent.CurrentSpeed | Plugins/GameFeatures/CarAI/Source/CarAIRuntime/Private/Components/RacingAgentComponent.cpp:203 | the speed fed to the episode maximum undoes the observation's division by the speed norm (:274): dividing it by the norm gives the normalised speed back, and is non-negative for a non-negative norm |
| RacingAgent.MinRayDist | Plugins/GameFeatures/CarAI/Source/CarAIRuntime/Private/Components/RacingAgentComponent.cpp:547-553 | the shortest of the five adaptive rays: no longer than any of them and equal to one of them |
| RacingAgent.ThresholdPenalty | Plugins/GameFeatures/CarAI/Source/CarAIRuntime/Private/Components/RacingAgentComponent.cpp:555-565 | the terminal penalty below the terminal threshold, the warning penalty between the two thresholds, none at or above both |
| RacingAgent.ComputeReward | Plugins/GameFeatures/CarAI/Source/CarAIRuntime/Private/Components/RacingAgentComponent.cpp:522-592 | distance in metres times its weight; survival is the episode time times its weight; the speed bonus is zero up to the phase-2 distance and (1 - |speed - target|) times its weight beyond it; smoothness is |last steer - speed| times its weight, the source's simplified formula; collision and gap terms by their thresholds; done exactly when a terminal threshold is crossed, with "Fell off track" taking precedence over "Collision" and no reason otherwise; the total is the sum clamped into [-MaxAbsTerm, MaxAbsTerm] |
| RacingAgent.SpeedBonusPeaksAtTarget | Plugins/GameFeatures/CarAI/Source/CarAIRuntime/Private/Components/RacingAgentComponent.cpp:537-541 | past the phase-2 distance with a positive weight, the speed bonus never exceeds its weight and reaches it exactly at the target speed |
| RacingAgent.PolicyAction | Plugins/GameFeatures/CarAI/Source/CarAIRuntime/Private/Components/RacingAgentComponent.cpp:167-186 | half throttle straight ahead without a network, the zero action for an output that is not three values long, otherwise the three outputs clamped to their ranges; every action lies within [-1, 1] x [0, 1] x [0, 1] |
| RacingAgent.TerminalCheck | Plugins/GameFeatures/CarAI/Source/CarAIRuntime/Private/Components/RacingAgentComponent.cpp:603-643 | MaxSteps first; the airborne timer grows below 0.1 ground distance and otherwise resets, ending the episode at its limit; then the stuck timer the same way for a slow vehicle |
| RacingAgent.AirborneTimerResets | Plugins/GameFeatures/CarAI/Source/CarAIRuntime/Private/Components/RacingAgentComponent.cpp:611-623 | on the ground the airborne timer is cleared and the episode never ends as AirborneLong |
| RacingAgent.RacingAgent.constructor | Plugins/GameFeatures/CarAI/Source/CarAIRuntime/Public/Components/RacingAgentComponent.h:162-216 | not done, counters and timers zero, the zero action, the default reward configuration and 4500 cm/s for a normalised speed of 1 |
| RacingAgent.RacingAgent.ResetEpisodeAccumulators | Plugins/GameFeatures/CarAI/Source/CarAIRuntime/Private/Components/RacingAgentComponent.cpp:118-138 | not done, counters and timers zero, fresh statistics with zero distance, average and maximum speed, the zero action; the configuration unchanged |
| RacingAgent.RacingAgent.CheckTerminalConditions | Plugins/GameFeatures/CarAI/Source/CarAIRuntime/Private/Components/RacingAgentComponent.cpp:603-643 | the verdict, reason and both timers are TerminalCheck of the timers before |
| RacingAgent.RacingAgent.FinalizeEpisodeStats | Plugins/GameFeatures/CarAI/Source/CarAIRuntime/Private/Components/RacingAgentComponent.cpp:645-656 | the reason is recorded, the average speed is distance over duration only when a step was taken, the NEAT fitness is recomputed, everything else unchanged |
| RacingAgent.RacingAgent.RecordStep | Plugins/GameFeatures/CarAI/Source/CarAIRuntime/Private/Components/RacingAgentComponent.cpp:192-203 | one more step and dt more time; the reward added to the total, the distance from the start recorded and the maximum speed raised to the current speed |
| RacingAgent.RacingAgent.StepOnce | Plugins/GameFeatures/CarAI/Source/CarAIRuntime/Private/Components/RacingAgentComponent.cpp:153-249 | nothing once the episode is done; otherwise the reward ComputeReward gives, the action PolicyAction gives, the step recorded, the timers TerminalCheck gives, and the episode ends exactly when the terminal test or the reward says so, the reward's reason taking precedence; the maximum speed never falls |
| NeuralNetwork.ActivationCode | Plugins/GameFeatures/CarAI/Source/CarAIRuntime/Private/NN/SimpleNeuralNetwork.cpp:517-567 | the saved integer is the enum ordinal, in 0 to 5, and the load's cast gives the activation back |
| NeuralNetwork.Activate | Plugins/GameFeatures/CarAI/Source/CarAIRuntime/Private/NN/SimpleNeuralNetwork.cpp:69-88 | ReLU is non-negative and the identity on non-negative values; LeakyReLU keeps the sign and the non-negative values; None and Softmax leave the value alone; Sigmoid lies strictly between 0 and 1 |
| NeuralNetwork.LayerOutput | Plugins/GameFeatures/CarAI/Source/CarAIRuntime/Private/NN/SimpleNeuralNetwork.cpp:47-91 | one output per output unit |
| NeuralNetwork.Forward | Plugins/GameFeatures/CarAI/Source/CarAIRuntime/Private/NN/SimpleNeuralNetwork.cpp:47-91 | the two loops compute, for every output unit, the activation of bias plus the weight row times the input; ReLU outputs are non-negative |
| NeuralNetwork.WithWeights | Plugins/GameFeatures/CarAI/Source/CarAIRuntime/Private/NN/SimpleNeuralNetwork.cpp:612-680 | the new weights and biases are taken only when both lengths match exactly, otherwise the layer is unchanged; sizes, activation and parameter count never change |
| NeuralNetwork.WithLogStd | Plugins/GameFeatures/CarAI/Source/CarAIRuntime/Private/NN/SimpleNeuralNetwork.cpp:682-693 | the log-std is replaced exactly when the lengths match, otherwise kept |
| NeuralNetwork.LayersParametersUpdate | Plugins/GameFeatures/CarAI/Source/CarAIRuntime/Private/NN/SimpleNeuralNetwork.cpp:601-610 | replacing one layer by one with as many parameters keeps the tower's count |
| NeuralNetwork.LayerTokens | Plugins/GameFeatures/CarAI/Source/CarAIRuntime/Private/NN/SimpleNeuralNetwork.cpp:513-521 | WriteLayer writes five items: input size, output size, activation, weights, biases |
| NeuralNetwork.LayersTokens | Plugins/GameFeatures/CarAI/Source/CarAIRuntime/Private/NN/SimpleNeuralNetwork.cpp:524-527 | a tower writes five items per layer |
| NeuralNetwork.DecodeLayer | Plugins/GameFeatures/CarAI/Source/CarAIRuntime/Private/NN/SimpleNeuralNetwork.cpp:561-578 | ReadLayer consumes exactly five items when it succeeds |
| NeuralNetwork.DecodeLayers | Plugins/GameFeatures/CarAI/Source/CarAIRuntime/Private/NN/SimpleNeuralNetwork.cpp:581-587 | reading n layers gives n layers and consumes five items per layer |
| NeuralNetwork.DecodeLayerEncoded | Plugins/GameFeatures/CarAI/Source/CarAIRuntime/Private/NN/SimpleNeuralNetwork.cpp:513-578 | ReadLayer reads back exactly what WriteLayer wrote |
| NeuralNetwork.DecodeLayersEncoded | Plugins/GameFeatures/CarAI/Source/CarAIRuntime/Private/NN/SimpleNeuralNetwork.cpp:524-587 | a tower is read back layer for layer as it was written |
| NeuralNetwork.EncodeLayout | Plugins/GameFeatures/CarAI/Source/CarAIRuntime/Private/NN/SimpleNeuralNetwork.cpp:495-530 | the file is the six header integers, the policy layers, the policy head, the value layers, the value head and the log-std, at fixed positions |
| NeuralNetwork.DecodeLaidOut | Plugins/GameFeatures/CarAI/Source/CarAIRuntime/Private/NN/SimpleNeuralNetwork.cpp:538-593 | any stream with that layout loads as the network it lays out |
| NeuralNetwork.DecodeEncode | Plugins/GameFeatures/CarAI/Source/CarAIRuntime/Private/NN/SimpleNeuralNetwork.cpp:495-599 | loading what SaveToFile wrote gives back every saved field |
| NeuralNetwork.ResizeZeroed | Plugins/GameFeatures/CarAI/Source/CarAIRuntime/Private/NN/SimpleNeuralNetwork.cpp:572-577 | SetNumZeroed: the new length, the surviving entries kept, the new ones 0 |
| NeuralNetwork.LoadLayerAsWritten | Plugins/GameFeatures/CarAI/Source/CarAIRuntime/Private/NN/SimpleNeuralNetwork.cpp:561-578 | the layer read as written carries the saved fields |
| NeuralNetwork.StaleMomentSurvivesLoad | Plugins/GameFeatures/CarAI/Source/CarAIRuntime/Private/NN/SimpleNeuralNetwork.cpp:571-577 | reloading into a trained layer keeps its non-zero first Adam moment |
| NeuralNetwork.LoadLayer | Plugins/GameFeatures/CarAI/Source/CarAIRuntime/Private/NN/SimpleNeuralNetwork.cpp:561-578 | the corrected read (see Findings): the saved fields, every gradient and moment array zeroed at the new sizes; the source's SetNumZeroed keeps surviving entries, which LoadLayerAsWritten models |
| NeuralNetwork.LoadLayers | Plugins/GameFeatures/CarAI/Source/CarAIRuntime/Private/NN/SimpleNeuralNetwork.cpp:581-587 | the corrected tower read (see Findings): one fresh layer per saved layer, each through LoadLayer; the source's SetNum keeps existing layer objects and their optimiser state |
| NeuralNetwork.ExperienceLosses | Plugins/GameFeatures/CarAI/Source/CarAIRuntime/Private/NN/SimpleNeuralNetwork.cpp:378-410 | an experience whose policy output has fewer than three means adds nothing; with a non-negative batch factor and value coefficient its value loss is never negative |
| NeuralNetwork.BatchValueLossNonNegative | Plugins/GameFeatures/CarAI/Source/CarAIRuntime/Private/NN/SimpleNeuralNetwork.cpp:401-403 | with a non-negative value coefficient the reported value loss is never negative |
| NeuralNetwork.AccumulateLosses | Plugins/GameFeatures/CarAI/Source/CarAIRuntime/Private/NN/SimpleNeuralNetwork.cpp:372-411 | the loss loop gives the batch totals over all experiences, skipping those with fewer than three action means, and a non-negative value loss |
| NeuralNetwork.ClampLogStd | Plugins/GameFeatures/CarAI/Source/CarAIRuntime/Private/NN/SimpleNeuralNetwork.cpp:491 | every log-std clamped to [ln 0.01, ln 2], values already inside kept |
| NeuralNetwork.UpdateLayers | Plugins/GameFeatures/CarAI/Source/CarAIRuntime/Private/NN/SimpleNeuralNetwork.cpp:465-475 | the optimiser step applied to every layer of a tower, in place |
| NeuralNetwork.ClampEach | Plugins/GameFeatures/CarAI/Source/CarAIRuntime/Private/NN/SimpleNeuralNetwork.cpp:481-492 | the log-std loop leaves ClampLogStd of the Adam-updated values |
| NeuralNetwork.InitialLayers | Plugins/GameFeatures/CarAI/Source/CarAIRuntime/Private/NN/SimpleNeuralNetwork.cpp:210-221 | one initialised layer per hidden-layer entry |
| NeuralNetwork.InitialLayersChain | Plugins/GameFeatures/CarAI/Source/CarAIRuntime/Private/NN/SimpleNeuralNetwork.cpp:210-235 | the first layer reads the network input, each later one reads what the one before writes, with the configured width and activation |
| NeuralNetwork.BuildTower | Plugins/GameFeatures/CarAI/Source/CarAIRuntime/Private/NN/SimpleNeuralNetwork.cpp:210-235 | the hidden-layer loop builds InitialLayers and the head on top of the last width |
| NeuralNetwork.Network.constructor | Plugins/GameFeatures/CarAI/Source/CarAIRuntime/Public/RacingTrainingTypes.h:137-162 | the default configuration (two hidden ReLU layers of 128, three policy outputs, one value output), no layers, no log-std, Adam step 0 |
| NeuralNetwork.Network.InstallTowers | Plugins/GameFeatures/CarAI/Source/CarAIRuntime/Private/NN/SimpleNeuralNetwork.cpp:199-235 | the configuration stored; policy tower and Tanh head, then value tower and linear head, initialised in that order |
| NeuralNetwork.Network.ResetLogStd | Plugins/GameFeatures/CarAI/Source/CarAIRuntime/Private/NN/SimpleNeuralNetwork.cpp:238-252 | ln 0.5 for every action, gradient and moments resized with surviving entries kept, Adam step 0, initialised |
| NeuralNetwork.Network.Initialize | Plugins/GameFeatures/CarAI/Source/CarAIRuntime/Private/NN/SimpleNeuralNetwork.cpp:197-253 | both towers as InstallTowers gives and the log-std state ResetLogStd gives |
| NeuralNetwork.Network.GetNumParameters | Plugins/GameFeatures/CarAI/Source/CarAIRuntime/Private/NN/SimpleNeuralNetwork.cpp:601-610 | the weights and biases of every layer and head plus the log-std entries |
| NeuralNetwork.Network.SetPolicyLayerWeights | Plugins/GameFeatures/CarAI/Source/CarAIRuntime/Private/NN/SimpleNeuralNetwork.cpp:612-631 | an invalid index changes nothing; otherwise that layer becomes WithWeights of it; the parameter count is kept |
| NeuralNetwork.Network.SetValueLayerWeights | Plugins/GameFeatures/CarAI/Source/CarAIRuntime/Private/NN/SimpleNeuralNetwork.cpp:633-652 | an invalid index changes nothing; otherwise that layer becomes WithWeights of it; the parameter count is kept |
| NeuralNetwork.Network.SetPolicyHeadWeights | Plugins/GameFeatures/CarAI/Source/CarAIRuntime/Private/NN/SimpleNeuralNetwork.cpp:654-666 | the policy head becomes WithWeights of it; the parameter count is kept |
| NeuralNetwork.Network.SetValueHeadWeights | Plugins/GameFeatures/CarAI/Source/CarAIRuntime/Private/NN/SimpleNeuralNetwork.cpp:668-680 | the value head becomes WithWeights of it; the parameter count is kept |
| NeuralNetwork.Network.SetActionLogStd | Plugins/GameFeatures/CarAI/Source/CarAIRuntime/Private/NN/SimpleNeuralNetwork.cpp:682-693 | the log-std becomes WithLogStd of it; the parameter count is kept |
| NeuralNetwork.Network.SaveToFile | Plugins/GameFeatures/CarAI/Source/CarAIRuntime/Private/NN/SimpleNeuralNetwork.cpp:495-536 | the stream written is the encoding of the saved fields, and it loads back as them |
| NeuralNetwork.Network.Restore | Plugins/GameFeatures/CarAI/Source/CarAIRuntime/Private/NN/SimpleNeuralNetwork.cpp:550-595 | the corrected reload (see Findings): the fields read from the file installed, every gradient and moment array zeroed, including the log-std ones the source only resizes |
| NeuralNetwork.Network.LoadFromFile | Plugins/GameFeatures/CarAI/Source/CarAIRuntime/Private/NN/SimpleNeuralNetwork.cpp:538-599 | false and nothing changed when the file cannot be read; otherwise initialised and, for a well-formed stream, the saved network installed with the corrected reload (see Findings); a stream that does not decode leaves every other field as it was; the hidden-layer configuration is never touched |
| NeuralNetwork.Network.TrainStep | Plugins/GameFeatures/CarAI/Source/CarAIRuntime/Private/NN/SimpleNeuralNetwork.cpp:353-493 | an empty batch changes nothing; otherwise the Adam step advances by one, the losses are the batch totals, every layer and head takes one optimiser step and every log-std ends in [ln 0.01, ln 2] |
| ExperienceReplay.Window | Plugins/GameFeatures/CarAI/Source/CarAIRuntime/Private/NN/SimpleNeuralNetwork.cpp:706-717 | the latest capacity experiences of a history: all of them while there are no more than capacity |
| ExperienceReplay.WindowAppend | Plugins/GameFeatures/CarAI/Source/CarAIRuntime/Private/NN/SimpleNeuralNetwork.cpp:706-717 | keeping the latest capacity after every addition is keeping the latest capacity of the whole history |
| ExperienceReplay.WindowAppendAll | Plugins/GameFeatures/CarAI/Source/CarAIRuntime/Private/NN/SimpleNeuralNetwork.cpp:719-725 | a batch added item by item leaves the latest capacity of the history followed by the batch |
| ExperienceReplay.RingOverwrite | Plugins/GameFeatures/CarAI/Source/CarAIRuntime/Private/NN/SimpleNeuralNetwork.cpp:714-716 | overwriting the oldest slot of a full ring and advancing the cursor drops the oldest experience and appends the new one |
| ExperienceReplay.NextSlotWraps | Plugins/GameFeatures/CarAI/Source/CarAIRuntime/Private/NN/SimpleNeuralNetwork.cpp:716 | the cursor advances modulo the capacity |
| ExperienceReplay.RingAddRoom | Plugins/GameFeatures/CarAI/Source/CarAIRuntime/Private/NN/SimpleNeuralNetwork.cpp:708-710 | appending while there is room keeps every experience |
| ExperienceReplay.RingAddFull | Plugins/GameFeatures/CarAI/Source/CarAIRuntime/Private/NN/SimpleNeuralNetwork.cpp:712-716 | in a full ring the new experience replaces the oldest |
| ExperienceReplay.SampleCount | Plugins/GameFeatures/CarAI/Source/CarAIRuntime/Private/NN/SimpleNeuralNetwork.cpp:733-741 | no draws from an empty buffer, otherwise min(BatchSize, Num) draws, never more than the buffer holds |
| ExperienceReplay.InsertByKey | Plugins/GameFeatures/CarAI/Source/CarAIRuntime/Private/NN/SimpleNeuralNetwork.cpp:753-757 | inserting one experience keeps every other one |
| ExperienceReplay.InsertKeepsSorted | Plugins/GameFeatures/CarAI/Source/CarAIRuntime/Private/NN/SimpleNeuralNetwork.cpp:753-757 | inserting into a buffer ordered by agent and time keeps it ordered |
| ExperienceReplay.SortByAgentTime | Plugins/GameFeatures/CarAI/Source/CarAIRuntime/Private/NN/SimpleNeuralNetwork.cpp:752-757 | the sort is a permutation ordered by agent, then by time |
| ExperienceReplay.WithGae | Plugins/GameFeatures/CarAI/Source/CarAIRuntime/Private/NN/SimpleNeuralNetwork.cpp:763-784 | the backward pass changes only advantage and return, and every return is advantage plus value |
| ExperienceReplay.GaeTerminalSteps | Plugins/GameFeatures/CarAI/Source/CarAIRuntime/Private/NN/SimpleNeuralNetwork.cpp:767-780 | at a done step, or the last step of an agent's block, the advantage is reward minus value: nothing bootstrapped and nothing carried |
| ExperienceReplay.GaeAgentIsolation | Plugins/GameFeatures/CarAI/Source/CarAIRuntime/Private/NN/SimpleNeuralNetwork.cpp:763-784 | the advantages of one agent's block depend on that block alone |
| ExperienceReplay.AdvantagesOf | Plugins/GameFeatures/CarAI/Source/CarAIRuntime/Private/NN/SimpleNeuralNetwork.cpp:792-809 | the advantages of the buffer, in order |
| ExperienceReplay.SumSquaresNonNegative | Plugins/GameFeatures/CarAI/Source/CarAIRuntime/Private/NN/SimpleNeuralNetwork.cpp:798-803 | the summed squared deviations are never negative |
| ExperienceReplay.NormalizerPositive | Plugins/GameFeatures/CarAI/Source/CarAIRuntime/Private/NN/SimpleNeuralNetwork.cpp:805 | the divisor sqrt(var + 1e-8) is positive |
| ExperienceReplay.NormalizedAdvantages | Plugins/GameFeatures/CarAI/Source/CarAIRuntime/Private/NN/SimpleNeuralNetwork.cpp:787-811 | the normalised advantages are the centred ones divided by the positive normaliser |
| ExperienceReplay.NormalizedSumZero | Plugins/GameFeatures/CarAI/Source/CarAIRuntime/Private/NN/SimpleNeuralNetwork.cpp:787-811 | normalised advantages sum to zero |
| ExperienceReplay.NormalizedUndo | Plugins/GameFeatures/CarAI/Source/CarAIRuntime/Private/NN/SimpleNeuralNetwork.cpp:807-810 | normalising changes only the advantage, and each new advantage times the normaliser is the old one minus the mean |
| ExperienceReplay.ExperienceBuffer.constructor | Plugins/GameFeatures/CarAI/Source/CarAIRuntime/Public/NN/SimpleNeuralNetwork.h:166-167 | an empty buffer of capacity 10000 with the cursor at 0 |
| ExperienceReplay.ExperienceBuffer.Initialize | Plugins/GameFeatures/CarAI/Source/CarAIRuntime/Private/NN/SimpleNeuralNetwork.cpp:699-704 | any size is taken: an empty buffer with the given capacity and the cursor at 0, a usable (Valid) buffer exactly when the size is positive |
| ExperienceReplay.ExperienceBuffer.Add | Plugins/GameFeatures/CarAI/Source/CarAIRuntime/Private/NN/SimpleNeuralNetwork.cpp:706-717 | appended while there is room, otherwise the slot at the cursor overwritten; the cursor advances modulo the capacity, and the buffer read from the oldest holds the latest capacity experiences |
| ExperienceReplay.ExperienceBuffer.AddBatch | Plugins/GameFeatures/CarAI/Source/CarAIRuntime/Private/NN/SimpleNeuralNetwork.cpp:719-725 | the buffer read from the oldest holds the latest capacity experiences of the history followed by the batch |
| ExperienceReplay.ExperienceBuffer.Clear | Plugins/GameFeatures/CarAI/Source/CarAIRuntime/Private/NN/SimpleNeuralNetwork.cpp:727-731 | the buffer is empty and the cursor 0 |
| ExperienceReplay.ExperienceBuffer.SampleBatch | Plugins/GameFeatures/CarAI/Source/CarAIRuntime/Private/NN/SimpleNeuralNetwork.cpp:733-746 | min(BatchSize, Num) experiences, none from an empty buffer, each the stored experience at its draw |
| ExperienceReplay.ExperienceBuffer.ComputeGae | Plugins/GameFeatures/CarAI/Source/CarAIRuntime/Private/NN/SimpleNeuralNetwork.cpp:748-785 | nothing on an empty buffer; otherwise the buffer is sorted by agent and time and then holds WithGae of the sorted buffer |
| ExperienceReplay.ExperienceBuffer.GaePass | Plugins/GameFeatures/CarAI/Source/CarAIRuntime/Private/NN/SimpleNeuralNetwork.cpp:760-784 | the backward loop leaves WithGae of the buffer |
| ExperienceReplay.ExperienceBuffer.NormalizeAdvantages | Plugins/GameFeatures/CarAI/Source/CarAIRuntime/Private/NN/SimpleNeuralNetwork.cpp:787-811 | a buffer of fewer than two experiences is left alone, otherwise it becomes Normalized |
| ExperienceReplay.ExperienceBuffer.AdvantageTotal | Plugins/GameFeatures/CarAI/Source/CarAIRuntime/Private/NN/SimpleNeuralNetwork.cpp:791-795 | the sum of the advantages |
| ExperienceReplay.ExperienceBuffer.SquaredDeviationTotal | Plugins/GameFeatures/CarAI/Source/CarAIRuntime/Private/NN/SimpleNeuralNetwork.cpp:798-802 | the sum of the squared deviations from the mean |
| ExperienceReplay.ExperienceBuffer.ApplyNormalization | Plugins/GameFeatures/CarAI/Source/CarAIRuntime/Private/NN/SimpleNeuralNetwork.cpp:807-810 | every advantage centred on the mean and divided by the std, nothing else changed |
| PpoTraining.ComputeGae | Plugins/GameFeatures/CarAI/Content/Python/train_pytorch.py:142-177 | the backward loop writes the advantages Advantages defines; returns are advantages plus values, element by element; at a done step the advantage is exactly reward minus value |
| PpoTraining.GaeEpisodeIsolation | Plugins/GameFeatures/CarAI/Content/Python/train_pytorch.py:161-172 | the advantages up to a done step do not depend on anything after it: they are the same in a batch cut just after it, whatever that batch bootstraps with |
| PpoTraining.PowSumHead | Plugins/GameFeatures/CarAI/Content/Python/train_pytorch.py:169 | the discounted sum of TD errors splits off its first term, the rest discounted once more |
| PpoTraining.TdErrors | Plugins/GameFeatures/CarAI/Content/Python/train_pytorch.py:168 | the TD error r + gamma next_val - v of every step, next_val being the following step's value or the bootstrap value after the last |
| PpoTraining.GaeTelescopes | Plugins/GameFeatures/CarAI/Content/Python/train_pytorch.py:161-172 | without an episode end from a step on, its advantage is the sum of the later TD errors discounted by gamma lambda, the closed form of GAE |
| PpoTraining.GaeWorkedExample | Plugins/GameFeatures/CarAI/Content/Python/train_pytorch.py:161-172 | three unit rewards, zero values and a final done step give advantages 2.82504025, 1.9405 and 1 with gamma 0.99 and lambda 0.95 |
| PpoTraining.ClampAll | Plugins/GameFeatures/CarAI/Content/Python/train_pytorch.py:198-199 | every element within the bounds, the elements already inside kept |
| PpoTraining.NormalizeAdvantages | Plugins/GameFeatures/CarAI/Content/Python/train_pytorch.py:201-205 | the normalised advantages have zero sum; with an unbiased std above 1e-8 each times std + 1e-8 is the centred one, otherwise each is only centred |
| PpoTraining.ClampFloat | Plugins/GameFeatures/CarAI/Content/Python/train_pytorch.py:216-217 | a clamped network output lies within the bounds and is unchanged when already inside |
| PpoTraining.ImportanceRatio | Plugins/GameFeatures/CarAI/Content/Python/train_pytorch.py:216-221 | the ratio lies in [0.1, 10] and is exp of the clamped log-prob difference when that lies there |
| PpoTraining.Surrogate | Plugins/GameFeatures/CarAI/Content/Python/train_pytorch.py:222-224 | the clipped surrogate never exceeds either the unclipped or the clipped product |
| PpoTraining.ValueLoss | Plugins/GameFeatures/CarAI/Content/Python/train_pytorch.py:229-235 | the value loss lies in [0, 100] and is 100 when a predicted value is infinite |
| PpoTraining.StepLosses | Plugins/GameFeatures/CarAI/Content/Python/train_pytorch.py:179-251 | the step is accepted exactly when observations are finite, the outputs have no NaN and the entropy is finite; then the policy loss lies in [-100, 100], the value loss in [0, 100], the entropy loss is minus entropy times its coefficient and the total is their sum |
| PpoTraining.PpoTrainer.constructor | Plugins/GameFeatures/CarAI/Content/Python/train_pytorch.py:104-141 | the configuration and parameters given, four empty loss histories |
| PpoTraining.PpoTrainer.TrainStep | Plugins/GameFeatures/CarAI/Content/Python/train_pytorch.py:179-270 | a skipped step returns zero losses and changes nothing; an accepted one returns StepLosses, takes one optimiser step and appends exactly one entry to each of the four histories |
| PpoTraining.SanitizeValue | Plugins/GameFeatures/CarAI/Content/Python/train_pytorch.py:326-331 | a finite number is kept (a boolean as 0 or 1), NaN, the infinities and anything else become 0 |
| PpoTraining.SanitizedState | Plugins/GameFeatures/CarAI/Content/Python/train_pytorch.py:334 | a list is sanitised element by element; a scalar state makes the experience invalid |
| PpoTraining.ParseTransition | Plugins/GameFeatures/CarAI/Content/Python/train_pytorch.py:323-355 | a valid experience has a state and a reward, a three-entry action, the sanitised reward, and done only when present and truthy |
| PpoTraining.ValidTransitions | Plugins/GameFeatures/CarAI/Content/Python/train_pytorch.py:323-355 | the valid experiences, in order, never more than were given |
| PpoTraining.ExperienceItems | Plugins/GameFeatures/CarAI/Content/Python/train_pytorch.py:310-323 | `len` and the loop accept an array, a string or an object and raise on a scalar; an array gives its items, a string one item per character, an object one per key, and for a string or an object every item is rejected as a transition |
| PpoTraining.Columns | Plugins/GameFeatures/CarAI/Content/Python/train_pytorch.py:363-370 | six columns of equal length, one row per transition |
| PpoTraining.ColumnsSnoc | Plugins/GameFeatures/CarAI/Content/Python/train_pytorch.py:346-351 | appending a transition appends one entry to every column |
| PpoTraining.ValidTransitionsStep | Plugins/GameFeatures/CarAI/Content/Python/train_pytorch.py:323-355 | one more experience adds its transition, if it parses, to the valid ones |
| PpoTraining.LoadUnrealExport | Plugins/GameFeatures/CarAI/Content/Python/train_pytorch.py:292-370 | three outcomes, each characterised exactly: no data when the text is empty or does not end in a bracket, the JSON fails, there is no "experiences" or no experience is valid; an uncaught exception when the membership test meets a scalar, `data['experiences']` meets an array or string, `len` meets a scalar, or the states differ in length; otherwise the columns of the valid transitions, at least one row, all states of one width, three actions each |
| PpoTraining.CollectTransitions | Plugins/GameFeatures/CarAI/Content/Python/train_pytorch.py:315-355 | the loop builds the columns of the valid transitions and counts them |
| PpoTraining.ActionsHaveThreeEntries | Plugins/GameFeatures/CarAI/Content/Python/train_pytorch.py:337-347 | every valid transition has steer, throttle and brake |
| PpoTraining.DiscoverObsSize | Plugins/GameFeatures/CarAI/Content/Python/train_pytorch.py:445-451 | the observation size is the width of some loaded file with at least one observation; the search ends in an exception only if some file raised; no size is found only when every file gave no data or no rows |
| PpoTraining.AcceptedFiles | Plugins/GameFeatures/CarAI/Content/Python/train_pytorch.py:479-496 | the loaded files of the run's width, in order |
| PpoTraining.LoadEpoch | Plugins/GameFeatures/CarAI/Content/Python/train_pytorch.py:477-496 | the epoch ends the run exactly when some file raises; otherwise the files kept are AcceptedFiles, and loaded plus skipped is the number of files |
| PpoTraining.DiscoveredFileIsAccepted | Plugins/GameFeatures/CarAI/Content/Python/train_pytorch.py:445-505 | the file that fixed the observation size is accepted in every epoch, so an epoch over the same files has data |
| PpoTraining.PlanBatches | Plugins/GameFeatures/CarAI/Content/Python/train_pytorch.py:517-536 | at least one batch, never more samples than there are, less than one batch left over; 64 per batch on CPU, one batch of everything below 64 samples, at most 256 on CUDA |
| PpoTraining.MinibatchesCoverPrefix | Plugins/GameFeatures/CarAI/Content/Python/train_pytorch.py:550-559 | the minibatches, in order and without gaps, are the first count times size samples |
| PpoTraining.LogIntervals | Plugins/GameFeatures/CarAI/Content/Python/train_pytorch.py:547-548 | the logged batches include the first and the last and are valid batch indices, at most five of them |
| NeatTraining.MapSumRemove | Plugins/GameFeatures/CarAI/Source/CarAIEditor/Private/Manager/NEATTrainingManager.cpp:485-494 | the fitness total of the map does not depend on which key the iteration visits first |
| NeatTraining.TakeOne | Plugins/GameFeatures/CarAI/Source/CarAIEditor/Private/Manager/NEATTrainingManager.cpp:485-494 | one visited key splits the total into its value plus the total of the remaining keys, one fewer |
| NeatTraining.MapSumAtLeast | Plugins/GameFeatures/CarAI/Source/CarAIEditor/Private/Manager/NEATTrainingManager.cpp:485-494 | if every fitness is at least lo, the total is at least count times lo |
| NeatTraining.MapSumAtMost | Plugins/GameFeatures/CarAI/Source/CarAIEditor/Private/Manager/NEATTrainingManager.cpp:485-494 | if every fitness is at most hi, the total is at most count times hi |
| NeatTraining.SumStepAtLeast | Plugins/GameFeatures/CarAI/Source/CarAIEditor/Private/Manager/NEATTrainingManager.cpp:493 | adding one term at least x to a total of n terms at least x gives n+1 terms at least x |
| NeatTraining.SumStepAtMost | Plugins/GameFeatures/CarAI/Source/CarAIEditor/Private/Manager/NEATTrainingManager.cpp:493 | adding one term at most x to a total of n terms at most x gives n+1 terms at most x |
| NeatTraining.HasKey | Plugins/GameFeatures/CarAI/Source/CarAIEditor/Private/Manager/NEATTrainingManager.cpp:499 | a non-empty key set has a key to visit |
| NeatTraining.AverageWithinBounds | Plugins/GameFeatures/CarAI/Source/CarAIEditor/Private/Manager/NEATTrainingManager.cpp:499 | the average fitness of a non-empty map lies between its smallest and largest fitness |
| NeatTraining.BestUpdate | Plugins/GameFeatures/CarAI/Source/CarAIEditor/Private/Manager/NEATTrainingManager.cpp:447-451 | the best fitness never drops, is at least the new fitness, and is either the old best or the new fitness |
| NeatTraining.BestOverIsMaximum | Plugins/GameFeatures/CarAI/Source/CarAIEditor/Private/Manager/NEATTrainingManager.cpp:447-451 | after any run of episodes the best fitness is the maximum of its starting value and every recorded fitness |
| NeatTraining.MatchFrom | Plugins/GameFeatures/CarAI/Source/CarAIEditor/Private/Manager/NEATTrainingManager.cpp:437-442 | the credited agent is the first live agent whose episode started at the reported start time; none means no live agent matches |
| NeatTraining.AssignedSlot | Plugins/GameFeatures/CarAI/Source/CarAIEditor/Private/Manager/NEATTrainingManager.cpp:294-304 | a live agent takes the genome's id and the current generation; a dead one is left unchanged |
| NeatTraining.ResetSlot | Plugins/GameFeatures/CarAI/Source/CarAIRuntime/Private/Components/RacingAgentComponent.cpp:73-80 | a live agent with a player start is not done, starts at now and has zero fitness; otherwise nothing changes |
| NeatTraining.RecordTimeoutsKeys | Plugins/GameFeatures/CarAI/Source/CarAIEditor/Private/Manager/NEATTrainingManager.cpp:389-404 | after the timeout path, a genome is in the map iff it was there or belongs to a live, unfinished agent; other genomes keep their fitness |
| NeatTraining.Loaded | Plugins/GameFeatures/CarAI/Source/CarAIEditor/Private/Manager/NEATTrainingManager.cpp:189-216 | the genomes kept are exactly those whose own file loaded, and there are no more of them than list entries |
| NeatTraining.Without | Plugins/GameFeatures/CarAI/Source/CarAIEditor/Private/Manager/NEATTrainingManager.cpp:132 | removing an agent keeps exactly the other agents' entries |
| NeatTraining.NeatTrainingManager.constructor | Plugins/GameFeatures/CarAI/Source/CarAIEditor/Public/Manager/NEATTrainingManager.h:32-40 | 50 generations, population 50, 120 s episodes, Idle, generation 0, nothing registered, not waiting |
| NeatTraining.NeatTrainingManager.TriggerPythonEvolution | Plugins/GameFeatures/CarAI/Source/CarAIEditor/Private/Manager/NEATTrainingManager.cpp:527-550 | without an executor nothing changes; otherwise the manager waits for the evolution step |
| NeatTraining.NeatTrainingManager.StartTraining | Plugins/GameFeatures/CarAI/Source/CarAIEditor/Private/Manager/NEATTrainingManager.cpp:20-57 | refused unless Idle with agents; otherwise statistics, generation and fitness map are reset and the manager waits for the first evolution step |
| NeatTraining.NeatTrainingManager.StopTraining | Plugins/GameFeatures/CarAI/Source/CarAIEditor/Private/Manager/NEATTrainingManager.cpp:59-84 | a no-op from Idle; otherwise back to Idle, no longer waiting |
| NeatTraining.NeatTrainingManager.PauseTraining | Plugins/GameFeatures/CarAI/Source/CarAIEditor/Private/Manager/NEATTrainingManager.cpp:86-93 | only Evaluating becomes Idle |
| NeatTraining.NeatTrainingManager.ResumeTraining | Plugins/GameFeatures/CarAI/Source/CarAIEditor/Private/Manager/NEATTrainingManager.cpp:95-102 | only Idle becomes Evaluating |
| NeatTraining.NeatTrainingManager.RegisterAgent | Plugins/GameFeatures/CarAI/Source/CarAIEditor/Private/Manager/NEATTrainingManager.cpp:108-122 | a null agent is ignored; otherwise it is appended |
| NeatTraining.NeatTrainingManager.UnregisterAgent | Plugins/GameFeatures/CarAI/Source/CarAIEditor/Private/Manager/NEATTrainingManager.cpp:124-133 | every entry of the agent is removed and the others keep their order |
| NeatTraining.NeatTrainingManager.UnregisterAllAgents | Plugins/GameFeatures/CarAI/Source/CarAIEditor/Private/Manager/NEATTrainingManager.cpp:135-147 | no agent remains registered |
| NeatTraining.NeatTrainingManager.LoadGenerationGenomes | Plugins/GameFeatures/CarAI/Source/CarAIEditor/Private/Manager/NEATTrainingManager.cpp:153-217 | a missing or unreadable list fails and keeps the old genomes; otherwise the loaded genomes replace them and it succeeds iff there is at least one |
| NeatTraining.NeatTrainingManager.AssignGenomesToAgents | Plugins/GameFeatures/CarAI/Source/CarAIEditor/Private/Manager/NEATTrainingManager.cpp:288-314 | agent i takes genome i for every i below both counts; the other agents are unchanged |
| NeatTraining.NeatTrainingManager.StartEpisodeEvaluation | Plugins/GameFeatures/CarAI/Source/CarAIEditor/Private/Manager/NEATTrainingManager.cpp:316-341 | every agent is reset at now and the evaluation time restarts at 0 |
| NeatTraining.NeatTrainingManager.AreAllAgentsDone | Plugins/GameFeatures/CarAI/Source/CarAIEditor/Private/Manager/NEATTrainingManager.cpp:418-432 | true iff every live agent has finished its episode |
| NeatTraining.NeatTrainingManager.OnAgentEpisodeDone | Plugins/GameFeatures/CarAI/Source/CarAIEditor/Private/Manager/NEATTrainingManager.cpp:434-464 | the matching agent's genome is credited with the fitness and the best is updated; with no match only the evaluation count grows |
| NeatTraining.NeatTrainingManager.ExportFitnessValues | Plugins/GameFeatures/CarAI/Source/CarAIEditor/Private/Manager/NEATTrainingManager.cpp:470-521 | the statistics' average becomes the map's average (0 when empty) and the map is cleared |
| NeatTraining.NeatTrainingManager.RecordTimeoutFitness | Plugins/GameFeatures/CarAI/Source/CarAIEditor/Private/Manager/NEATTrainingManager.cpp:389-404 | the map after crediting every live, unfinished agent |
| NeatTraining.NeatTrainingManager.TotalFitness | Plugins/GameFeatures/CarAI/Source/CarAIEditor/Private/Manager/NEATTrainingManager.cpp:485-494 | the total of the fitness values over every key, whatever the visiting order |
| NeatTraining.NeatTrainingManager.TickEvaluation | Plugins/GameFeatures/CarAI/Source/CarAIEditor/Private/Manager/NEATTrainingManager.cpp:343-416 | outside Evaluating nothing changes; all done exports and advances (Completed at the last generation); a timeout credits unfinished agents, exports and advances without the completion check; Python is asked (WaitingForPython) only when an executor exists, and without one the manager stays in Evaluating with the wait flag unchanged; otherwise only time passes |
| NeatTraining.NeatTrainingManager.OnPythonEvolutionComplete | Plugins/GameFeatures/CarAI/Source/CarAIEditor/Private/Manager/NEATTrainingManager.cpp:552-579 | failure or no genomes stops training (Idle); otherwise the genomes are assigned, every agent is reset and evaluation starts |
| PyTorchImporter.AsNumber | Plugins/GameFeatures/CarAI/Source/CarAIRuntime/Private/Import/PyTorchImporter.cpp:342 | a number reads as itself, a boolean as 1 or 0, anything else as 0 |
| PyTorchImporter.Trunc | Plugins/GameFeatures/CarAI/Source/CarAIRuntime/Private/Import/PyTorchImporter.cpp:71 | the number-to-int32 conversion truncates toward zero, for both signs |
| PyTorchImporter.TruncOfInteger | Plugins/GameFeatures/CarAI/Source/CarAIRuntime/Private/Import/PyTorchImporter.cpp:71 | a whole number converts to itself |
| PyTorchImporter.ObjectField | Plugins/GameFeatures/CarAI/Source/CarAIRuntime/Private/Import/PyTorchImporter.cpp:55 | an object field is found iff the key is present and holds an object |
| PyTorchImporter.ArrayField | Plugins/GameFeatures/CarAI/Source/CarAIRuntime/Private/Import/PyTorchImporter.cpp:65 | an array field is found iff the key is present and holds an array |
| PyTorchImporter.IntegerField | Plugins/GameFeatures/CarAI/Source/CarAIRuntime/Private/Import/PyTorchImporter.cpp:62 | a missing integer field reads as 0; a present one is its number truncated |
| PyTorchImporter.AllAsNumbers | Plugins/GameFeatures/CarAI/Source/CarAIRuntime/Private/Import/PyTorchImporter.cpp:340-343 | every entry is kept, each read as a number |
| PyTorchImporter.NumbersOf | Plugins/GameFeatures/CarAI/Source/CarAIRuntime/Private/Import/PyTorchImporter.cpp:194-200 | only the number entries are kept, so there are never more values than entries |
| PyTorchImporter.NumbersOfDropsNonNumbers | Plugins/GameFeatures/CarAI/Source/CarAIRuntime/Private/Import/PyTorchImporter.cpp:194-200 | nothing is dropped iff every entry is a number |
| PyTorchImporter.ReadLenientWeights | Plugins/GameFeatures/CarAI/Source/CarAIRuntime/Private/Import/PyTorchImporter.cpp:105-124 | the policy-layer weight loop yields the lenient flattening of the rows |
| PyTorchImporter.ReadNumbers | Plugins/GameFeatures/CarAI/Source/CarAIRuntime/Private/Import/PyTorchImporter.cpp:183-189 | the loop keeps exactly the number entries, in order |
| PyTorchImporter.ReadAllNumbers | Plugins/GameFeatures/CarAI/Source/CarAIRuntime/Private/Import/PyTorchImporter.cpp:340-343 | the loop reads every entry as a number, in order |
| PyTorchImporter.ReadStrictWeights | Plugins/GameFeatures/CarAI/Source/CarAIRuntime/Private/Import/PyTorchImporter.cpp:159-191 | the value-layer and head weight loops yield the strict flattening, chosen by the type of the first entry |
| PyTorchImporter.Numbers | Plugins/GameFeatures/CarAI/Content/Python/export_model_for_unreal.py:168 | a list written as JSON has one number entry per value |
| PyTorchImporter.Rows | Plugins/GameFeatures/CarAI/Content/Python/export_model_for_unreal.py:168 | a matrix written as JSON has one array of numbers per row |
| PyTorchImporter.NumbersRead | Plugins/GameFeatures/CarAI/Source/CarAIRuntime/Private/Import/PyTorchImporter.cpp:183-189 | a written list of numbers reads back as the list on both the filtering and the lenient path |
| PyTorchImporter.LenientFlatRead | Plugins/GameFeatures/CarAI/Source/CarAIRuntime/Private/Import/PyTorchImporter.cpp:119-123 | the policy path reads a flat list of numbers back as the list |
| PyTorchImporter.LenientNestedRead | Plugins/GameFeatures/CarAI/Source/CarAIRuntime/Private/Import/PyTorchImporter.cpp:107-118 | the policy path reads a nested matrix back as its rows one after the other |
| PyTorchImporter.NestedNumbersRead | Plugins/GameFeatures/CarAI/Source/CarAIRuntime/Private/Import/PyTorchImporter.cpp:162-179 | the strict path reads a nested matrix back as its rows one after the other |
| PyTorchImporter.ConcatSnoc | Plugins/GameFeatures/CarAI/Source/CarAIRuntime/Private/Import/PyTorchImporter.cpp:165-178 | one more row appends its values to the flattening |
| PyTorchImporter.WeightPathsAgreeOnNumbers | Plugins/GameFeatures/CarAI/Source/CarAIRuntime/Private/Import/PyTorchImporter.cpp:105-124 | on well-formed flat or nested number lists the policy and value paths read the same weights |
| PyTorchImporter.WeightPathsDiffer | Plugins/GameFeatures/CarAI/Source/CarAIRuntime/Private/Import/PyTorchImporter.cpp:105-124 | a mixed or non-number list is read differently: the policy path keeps flat entries and reads a string as 0, the value path drops them |
| PyTorchImporter.LayerPayload | Plugins/GameFeatures/CarAI/Source/CarAIRuntime/Private/Import/PyTorchImporter.cpp:92-100 | a layer entry yields weights and biases iff it is an object with both array fields |
| PyTorchImporter.ReadLayerEntry | Plugins/GameFeatures/CarAI/Source/CarAIRuntime/Private/Import/PyTorchImporter.cpp:92-135 | the loop body reads one layer entry into that payload |
| PyTorchImporter.HeadPayload | Plugins/GameFeatures/CarAI/Source/CarAIRuntime/Private/Import/PyTorchImporter.cpp:210-217 | a head is only read when its key is in the document |
| PyTorchImporter.LogStdPayload | Plugins/GameFeatures/CarAI/Source/CarAIRuntime/Private/Import/PyTorchImporter.cpp:336-337 | the log-std is read iff its array field is there |
| PyTorchImporter.ApplyPayload | Plugins/GameFeatures/CarAI/Source/CarAIRuntime/Private/Import/PyTorchImporter.cpp:133 | applying a payload through a setter never changes a layer's parameter count |
| PyTorchImporter.ApplyUpTo | Plugins/GameFeatures/CarAI/Source/CarAIRuntime/Private/Import/PyTorchImporter.cpp:90 | the layer loop never changes how many layers there are |
| PyTorchImporter.ApplyUpToPointwise | Plugins/GameFeatures/CarAI/Source/CarAIRuntime/Private/Import/PyTorchImporter.cpp:90-136 | each layer below the bound receives its own entry and every other layer is left as it was |
| PyTorchImporter.LayerBound | Plugins/GameFeatures/CarAI/Source/CarAIRuntime/Private/Import/PyTorchImporter.cpp:90 | the loop runs to the smaller of the entry count and the configured hidden-layer count |
| PyTorchImporter.ExtraEntriesIgnored | Plugins/GameFeatures/CarAI/Source/CarAIRuntime/Private/Import/PyTorchImporter.cpp:90 | entries past the number of configured hidden layers are never read |
| PyTorchImporter.ConfigFrom | Plugins/GameFeatures/CarAI/Source/CarAIRuntime/Private/Import/PyTorchImporter.cpp:61-78 | the configuration takes the three integer fields, and the hidden sizes from the array when present, each truncated with ReLU; the default layers otherwise |
| PyTorchImporter.HiddenSizes | Plugins/GameFeatures/CarAI/Source/CarAIRuntime/Private/Import/PyTorchImporter.cpp:68-74 | one ReLU layer per array entry, of the entry's truncated size |
| PyTorchImporter.ReadNetworkConfig | Plugins/GameFeatures/CarAI/Source/CarAIRuntime/Private/Import/PyTorchImporter.cpp:61-78 | the configuration loop builds that configuration |
| PyTorchImporter.Document | Plugins/GameFeatures/CarAI/Source/CarAIRuntime/Private/Import/PyTorchImporter.cpp:37-59 | a document is accepted iff it parses to an object with a network_config object |
| PyTorchImporter.ApplyDocument | Plugins/GameFeatures/CarAI/Source/CarAIRuntime/Private/Import/PyTorchImporter.cpp:86-345 | loading a document keeps the number of policy layers, value layers and log-std entries |
| PyTorchImporter.LoadPolicyLayers | Plugins/GameFeatures/CarAI/Source/CarAIRuntime/Private/Import/PyTorchImporter.cpp:86-137 | the policy layers become those the layer loop yields |
| PyTorchImporter.LoadValueLayers | Plugins/GameFeatures/CarAI/Source/CarAIRuntime/Private/Import/PyTorchImporter.cpp:139-207 | the value layers become those the layer loop yields |
| PyTorchImporter.LoadHeads | Plugins/GameFeatures/CarAI/Source/CarAIRuntime/Private/Import/PyTorchImporter.cpp:209-345 | each head takes its payload when present; the log-std is replaced only when its array is there |
| PyTorchImporter.LoadDocument | Plugins/GameFeatures/CarAI/Source/CarAIRuntime/Private/Import/PyTorchImporter.cpp:86-345 | the network's weights become those the document writes over the old ones |
| PyTorchImporter.InitializeIfNeeded | Plugins/GameFeatures/CarAI/Source/CarAIRuntime/Private/Import/PyTorchImporter.cpp:80-84 | an initialized network is untouched; otherwise it is initialized with the document's configuration |
| PyTorchImporter.LoadWeightsFromJson | Plugins/GameFeatures/CarAI/Source/CarAIRuntime/Private/Import/PyTorchImporter.cpp:35-349 | succeeds iff the document is accepted; on failure the network is unchanged; on success it is initialized (from the document only if it was not) and its weights are the document's over the previous ones |
| PyTorchImporter.LayersJson | Plugins/GameFeatures/CarAI/Content/Python/export_model_for_unreal.py:141-154 | one JSON entry per exported layer |
| PyTorchImporter.IntsJson | Plugins/GameFeatures/CarAI/Content/Python/export_model_for_unreal.py:137 | one number entry per hidden size |
| PyTorchImporter.LayerJsonRead | Plugins/GameFeatures/CarAI/Content/Python/export_model_for_unreal.py:141-147 | an exported layer reads back as exactly its weights and biases, on either path |
| PyTorchImporter.ExportedConfigRead | Plugins/GameFeatures/CarAI/Content/Python/export_model_for_unreal.py:134-140 | the configuration the export script writes is accepted and is the one the importer builds |
| PyTorchImporter.ExportedWeightsRead | Plugins/GameFeatures/CarAI/Content/Python/export_model_for_unreal.py:141-163 | every exported layer, both heads and the log-std read back as written |
| PyTorchImporter.ImportOfExport | Plugins/GameFeatures/CarAI/Source/CarAIRuntime/Private/Import/PyTorchImporter.cpp:86-345 | importing an exported model gives every covered layer, both heads and the log-std the exported weights, subject only to the setters' length checks |
| ExportModelForUnreal.ConcatLength | Plugins/GameFeatures/CarAI/Content/Python/export_model_for_unreal.py:75 | flattening rows of equal length cols gives rows times cols values |
| ExportModelForUnreal.ConcatIndex | Plugins/GameFeatures/CarAI/Content/Python/export_model_for_unreal.py:73-75 | flattening is row-major: element (i, j) lands at position i·cols + j |
| ExportModelForUnreal.StateDictOf | Plugins/GameFeatures/CarAI/Content/Python/export_model_for_unreal.py:22-25 | the state dict is policy_state_dict when present, otherwise the checkpoint itself |
| ExportModelForUnreal.SplitOfWeightKey | Plugins/GameFeatures/CarAI/Content/Python/export_model_for_unreal.py:55 | a canonical weight key splits into "shared", the index and "weight" |
| ExportModelForUnreal.WeightKeyMatches | Plugins/GameFeatures/CarAI/Content/Python/export_model_for_unreal.py:53 | a canonical weight key contains "shared" and "weight" |
| ExportModelForUnreal.KeyLayerIndexOfWeightKey | Plugins/GameFeatures/CarAI/Content/Python/export_model_for_unreal.py:52-62 | the canonical weight key of a layer names that layer |
| ExportModelForUnreal.IndexSetOfAdd | Plugins/GameFeatures/CarAI/Content/Python/export_model_for_unreal.py:52-62 | one more key adds its layer index, if it names one, to the set of indices |
| ExportModelForUnreal.SortedDistinctAscending | Plugins/GameFeatures/CarAI/Content/Python/export_model_for_unreal.py:64 | sorting a duplicate-free list of indices makes it strictly ascending |
| ExportModelForUnreal.GatherStep | Plugins/GameFeatures/CarAI/Content/Python/export_model_for_unreal.py:59-60 | visiting one more key keeps the index list duplicate-free and equal, as a set, to the indices of the keys visited |
| ExportModelForUnreal.GatherSharedIndices | Plugins/GameFeatures/CarAI/Content/Python/export_model_for_unreal.py:51-62 | the collected indices are duplicate-free and are exactly those the keys name |
| ExportModelForUnreal.CollectSharedIndices | Plugins/GameFeatures/CarAI/Content/Python/export_model_for_unreal.py:51-64 | the distinct layer indices named by the keys, in strictly ascending order |
| ExportModelForUnreal.LayersFor | Plugins/GameFeatures/CarAI/Content/Python/export_model_for_unreal.py:68-82 | at most one layer per index |
| ExportModelForUnreal.LayersForEmpty | Plugins/GameFeatures/CarAI/Content/Python/export_model_for_unreal.py:68-72 | no layer is collected iff no index has a weight tensor |
| ExportModelForUnreal.CollectLayers | Plugins/GameFeatures/CarAI/Content/Python/export_model_for_unreal.py:68-82 | the loop collects one layer per index whose weight key exists |
| ExportModelForUnreal.OutputSize | Plugins/GameFeatures/CarAI/Content/Python/export_model_for_unreal.py:119 | a layer's output size is its bias length, or 128 without a bias, and is positive |
| ExportModelForUnreal.InputSizeOfMatrix | Plugins/GameFeatures/CarAI/Content/Python/export_model_for_unreal.py:117-120 | for a first layer stored as an out × in matrix with a bias of length out, the derived input size is in |
| ExportModelForUnreal.HiddenSizes | Plugins/GameFeatures/CarAI/Content/Python/export_model_for_unreal.py:125 | one hidden size per shared layer, its output size |
| ExportModelForUnreal.Zeros | Plugins/GameFeatures/CarAI/Content/Python/export_model_for_unreal.py:144 | n zeros |
| ExportModelForUnreal.ToJsonLayer | Plugins/GameFeatures/CarAI/Content/Python/export_model_for_unreal.py:142-145 | an entry keeps the weights and the bias when it is non-empty; otherwise it gets one zero per weight |
| ExportModelForUnreal.JsonLayers | Plugins/GameFeatures/CarAI/Content/Python/export_model_for_unreal.py:141-147 | only layers with non-empty weights are written, so no written entry has empty weights |
| ExportModelForUnreal.ActionLogStd | Plugins/GameFeatures/CarAI/Content/Python/export_model_for_unreal.py:94-98 | the element-wise log of policy_std, or [0.5, 0.5, 0.5] when it is missing or empty |
| ExportModelForUnreal.Assemble | Plugins/GameFeatures/CarAI/Content/Python/export_model_for_unreal.py:134-164 | the document carries the derived input and hidden sizes, output sizes 3 and 1, value layers equal to the policy layers, and the log-std |
| ExportModelForUnreal.ExportModelToJson | Plugins/GameFeatures/CarAI/Content/Python/export_model_for_unreal.py:11-171 | fails iff no shared index has a weight tensor; otherwise the document assembled from the layers of the ascending shared indices |
| FindBestModel.BasenameAfterSep | Plugins/GameFeatures/CarAI/Content/Python/find_best_model.py:86 | the base name of a path ending in a separator and a separator-free name is that name |
| FindBestModel.BasenameOfCheckpoint | Plugins/GameFeatures/CarAI/Content/Python/find_best_model.py:86 | the base name of any path to a checkpoint is the checkpoint's file name |
| FindBestModel.StemOfCheckpoint | Plugins/GameFeatures/CarAI/Content/Python/find_best_model.py:89 | removing ".pt" from a checkpoint name leaves model_epoch_ and the epoch |
| FindBestModel.SplitOfStem | Plugins/GameFeatures/CarAI/Content/Python/find_best_model.py:89 | that stem splits on '_' into "model", "epoch" and the epoch's digits |
| FindBestModel.ExtractEpochOfCheckpoint | Plugins/GameFeatures/CarAI/Content/Python/find_best_model.py:84-94 | the epoch written into a checkpoint name is read back from any path to it |
| FindBestModel.OrderModelFiles | Plugins/GameFeatures/CarAI/Content/Python/find_best_model.py:349 | the ordered files are a permutation of the found files, sorted by epoch (0 when none can be read) |
| FindBestModel.CheckpointPaths | Plugins/GameFeatures/CarAI/Content/Python/find_best_model.py:347 | one path per epoch, each the directory, a separator and the checkpoint name |
| FindBestModel.CheckpointsInEpochOrder | Plugins/GameFeatures/CarAI/Content/Python/find_best_model.py:347-349 | checkpoints written by the trainer come out of the ordering with readable, ascending epochs |
| FindBestModel.MinOf | Plugins/GameFeatures/CarAI/Content/Python/find_best_model.py:57 | the minimum of a non-empty history is one of its values and no value is smaller |
| FindBestModel.CalculateTrend | Plugins/GameFeatures/CarAI/Content/Python/find_best_model.py:96-109 | the trend is -1, 0 or 1, and 0 for a history shorter than two windows |
| FindBestModel.SumConstant | Plugins/GameFeatures/CarAI/Content/Python/find_best_model.py:101-102 | a constant list of length n sums to n times the constant |
| FindBestModel.TrendOfConstant | Plugins/GameFeatures/CarAI/Content/Python/find_best_model.py:96-109 | a flat non-negative loss history is stable |
| FindBestModel.MeanScaled | Plugins/GameFeatures/CarAI/Content/Python/find_best_model.py:101-102 | dividing every value by k > 0 divides the mean by k |
| FindBestModel.DivPreservesOrder | Plugins/GameFeatures/CarAI/Content/Python/find_best_model.py:104-107 | dividing by k > 0 preserves the order of two values |
| FindBestModel.TrendScaleInvariant | Plugins/GameFeatures/CarAI/Content/Python/find_best_model.py:96-109 | the trend is unchanged when every loss is divided by the same positive factor |
| FindBestModel.NegativeHistoryNeverStable | Plugins/GameFeatures/CarAI/Content/Python/find_best_model.py:104-107 | with a negative early mean the 5% band is empty, so the history is never classed as stable |
| FindBestModel.LossStatsOf | Plugins/GameFeatures/CarAI/Content/Python/find_best_model.py:54-70 | a history's statistics exist iff it is non-empty; they are its mean, last element, minimum and trend |
| FindBestModel.LoadModelCheckpoint | Plugins/GameFeatures/CarAI/Content/Python/find_best_model.py:33-82 | metrics exist iff the checkpoint loads; they carry the path and its epoch, and the value-loss keys iff the value history is non-empty |
| FindBestModel.ScoreLeTotal | Plugins/GameFeatures/CarAI/Content/Python/find_best_model.py:168 | scores with infinity are totally preordered, so the sort is well defined |
| FindBestModel.TrendKeyLeTotal | Plugins/GameFeatures/CarAI/Content/Python/find_best_model.py:189-192 | the (trend, final loss) tuple key is totally preordered |
| FindBestModel.CombinedScore | Plugins/GameFeatures/CarAI/Content/Python/find_best_model.py:196-224 | the combined score is infinite iff the value-loss keys are missing |
| FindBestModel.CombinedScoreBetween | Plugins/GameFeatures/CarAI/Content/Python/find_best_model.py:196-224 | the combined score is a weighted mean, so it lies between the least and greatest of final loss, minimum loss and trend bonus |
| FindBestModel.CombinedScoreTrendOrder | Plugins/GameFeatures/CarAI/Content/Python/find_best_model.py:211-219 | with equal losses, a falling trend ranks before a stable one and a stable one before a rising one |
| FindBestModel.CombinedScoreMonotone | Plugins/GameFeatures/CarAI/Content/Python/find_best_model.py:201-209 | lower losses with the same trend never score worse |
| FindBestModel.ValidMetrics | Plugins/GameFeatures/CarAI/Content/Python/find_best_model.py:156 | exactly the loaded metrics are kept, never more than were given |
| FindBestModel.Scored | Plugins/GameFeatures/CarAI/Content/Python/find_best_model.py:196-224 | each valid model is paired with its combined score, in input order |
| FindBestModel.SortsBy | Plugins/GameFeatures/CarAI/Content/Python/find_best_model.py:166-226 | the stable sort yields a permutation of its input ordered by the key, in which the elements of every class of tied keys keep their input order |
| FindBestModel.RankModels | Plugins/GameFeatures/CarAI/Content/Python/find_best_model.py:152-228 | no rankings iff no checkpoint loaded; each ranking is present iff some model has its key, and is a permutation of the valid models sorted by that key in which models with tied keys keep their load order, as Python's stable `sorted` leaves them; the combined ranking sorts the scored pairs the same way |
| FindAndExportBestModel.LoadForExport | Plugins/GameFeatures/CarAI/Content/Python/find_and_export_best_model.py:55-85 | metrics exist iff the checkpoint loads; they carry the path, its epoch and only the value-loss statistics |
| FindAndExportBestModel.Candidates | Plugins/GameFeatures/CarAI/Content/Python/find_and_export_best_model.py:91 | exactly the loaded models with a final value loss, never more than were given |
| FindAndExportBestModel.BestOfIsBest | Plugins/GameFeatures/CarAI/Content/Python/find_and_export_best_model.py:127-131 | the chosen model is a candidate whose combined score is no greater than any other candidate's |
| FindAndExportBestModel.RankModels | Plugins/GameFeatures/CarAI/Content/Python/find_and_export_best_model.py:87-132 | no model iff there is no candidate; otherwise a loaded candidate whose combined score beats or ties every other, the earliest on ties |
| FindAndExportBestModel.LoadAll | Plugins/GameFeatures/CarAI/Content/Python/find_and_export_best_model.py:163-166 | one metrics entry per file, in order, each the file's loaded metrics |
| FindAndExportBestModel.LoadMetrics | Plugins/GameFeatures/CarAI/Content/Python/find_and_export_best_model.py:163-166 | the loading loop yields those metrics |
| FindAndExportBestModel.FindAndExport | Plugins/GameFeatures/CarAI/Content/Python/find_and_export_best_model.py:138-208 | exit 1 with no files or no candidate; otherwise exit 0 iff the best model's JSON exists or the export creates it, and then best_model_path.txt holds that JSON path |
| FindAndExportBestModel.JsonPathOfCheckpoint | Plugins/GameFeatures/CarAI/Content/Python/find_and_export_best_model.py:177 | a checkpoint's JSON path is the same path with ".json" in place of ".pt" when the directory has no '.' |
| CaraiAnalysis.CollectActions | Plugins/GameFeatures/CarAI/Content/Python/carai_analysis_cli.py:78-83 | the nested loop collects every action of every rollout, rollout by rollout |
| CaraiAnalysis.Steers | Plugins/GameFeatures/CarAI/Content/Python/carai_analysis_cli.py:82 | the steering channel, one value per action, a missing key read as 0 |
| CaraiAnalysis.Throttles | Plugins/GameFeatures/CarAI/Content/Python/carai_analysis_cli.py:109 | the throttle channel, one value per action |
| CaraiAnalysis.Brakes | Plugins/GameFeatures/CarAI/Content/Python/carai_analysis_cli.py:110 | the brake channel, one value per action |
| CaraiAnalysis.SquaredDeviations | Plugins/GameFeatures/CarAI/Content/Python/carai_analysis_cli.py:91 | one non-negative squared deviation per value |
| CaraiAnalysis.SumNonNegative | Plugins/GameFeatures/CarAI/Content/Python/carai_analysis_cli.py:91 | a sum of non-negative values is non-negative |
| CaraiAnalysis.Variance | Plugins/GameFeatures/CarAI/Content/Python/carai_analysis_cli.py:91 | the population variance is never negative |
| CaraiAnalysis.MomentsOf | Plugins/GameFeatures/CarAI/Content/Python/carai_analysis_cli.py:85-91 | mean and spread exist iff there is at least one value; the variance is non-negative |
| CaraiAnalysis.AnalyzeSteeringDistribution | Plugins/GameFeatures/CarAI/Content/Python/carai_analysis_cli.py:76-97 | no statistics iff there is no action; otherwise the mean and spread of the steering values |
| CaraiAnalysis.AnalyzeActionDiversity | Plugins/GameFeatures/CarAI/Content/Python/carai_analysis_cli.py:99-125 | the mean and spread of each of the three action channels over all actions |
| CaraiAnalysis.CountSuccesses | Plugins/GameFeatures/CarAI/Content/Python/carai_analysis_cli.py:140-142 | no more successes than episodes |
| CaraiAnalysis.ShareBetween | Plugins/GameFeatures/CarAI/Content/Python/carai_analysis_cli.py:144 | a count out of a positive total is a share between 0 and 1 |
| CaraiAnalysis.AnalyzeEpisodePerformance | Plugins/GameFeatures/CarAI/Content/Python/carai_analysis_cli.py:127-156 | one reward and one length per rollout; success rate is successes over episodes (0 without rollouts) and lies in [0, 1]; the mean reward is the mean of the rewards |
| CaraiAnalysis.CountBothHigh | Plugins/GameFeatures/CarAI/Content/Python/carai_analysis_cli.py:181 | no more "both above 0.8" steps than steps |
| CaraiAnalysis.CountBothLow | Plugins/GameFeatures/CarAI/Content/Python/carai_analysis_cli.py:182 | no more "both below 0.2" steps than steps |
| CaraiAnalysis.BothCountsDisjoint | Plugins/GameFeatures/CarAI/Content/Python/carai_analysis_cli.py:181-182 | no step is both high and low, so the two counts together never exceed the number of steps |
| CaraiAnalysis.PercentagesBetween | Plugins/GameFeatures/CarAI/Content/Python/carai_analysis_cli.py:181-182 | two disjoint shares of a total add up to between 0 and 100 percent |
| CaraiAnalysis.NetAcceleration | Plugins/GameFeatures/CarAI/Content/Python/carai_analysis_cli.py:170 | the combined channel is throttle minus brake, step by step |
| CaraiAnalysis.AnalyzeThrottleBrake | Plugins/GameFeatures/CarAI/Content/Python/carai_analysis_cli.py:158-208 | no statistics iff there is no action; otherwise the two pattern counts and their percentages, which add up to at most 100 |
| CaraiAnalysis.DetectProblems | Plugins/GameFeatures/CarAI/Content/Python/carai_analysis_cli.py:257-286 | each finding is reported iff its threshold is crossed (steering bias with its side, no steering exploration, negative reward as problems; low throttle variation and low success rate as warnings) |
| CaraiAnalysis.Lower | Plugins/GameFeatures/CarAI/Content/Python/carai_analysis_cli.py:653 | lower-casing keeps the length |
| CaraiAnalysis.LowerKeepsNonUpper | Plugins/GameFeatures/CarAI/Content/Python/carai_analysis_cli.py:653 | a string without upper-case letters is its own lower case |
| CaraiAnalysis.NormalizeWord | Plugins/GameFeatures/CarAI/Content/Python/carai_analysis_cli.py:653 | a lower-case word without surrounding spaces is its own normal form |
| CaraiAnalysis.Numbers | Plugins/GameFeatures/CarAI/Content/Python/carai_analysis_cli.py:656 | the rollout numbers in file order |
| CaraiAnalysis.SortedNumbers | Plugins/GameFeatures/CarAI/Content/Python/carai_analysis_cli.py:656 | the rollout numbers sorted: a permutation of them in ascending order |
| CaraiAnalysis.ParseRolloutSelection | Plugins/GameFeatures/CarAI/Content/Python/carai_analysis_cli.py:648-677 | nothing is selected without rollouts |
| CaraiAnalysis.MinusSelectionNotPositive | Plugins/GameFeatures/CarAI/Content/Python/carai_analysis_cli.py:662-667 | a selection starting with '-' that parses is never positive, so the bound test admits exactly -n .. 0 |
| CaraiAnalysis.FirstAndLastSelection | Plugins/GameFeatures/CarAI/Content/Python/carai_analysis_cli.py:658-661 | "first" selects the smallest and "last" the largest rollout number, each a loaded number |
| CaraiAnalysis.MinusDigitsNormal | Plugins/GameFeatures/CarAI/Content/Python/carai_analysis_cli.py:653 | "-" followed by digits is already normalised |
| CaraiAnalysis.SelectFromEnd | Plugins/GameFeatures/CarAI/Content/Python/carai_analysis_cli.py:662-667 | a "-k" selection in range picks that element from the end of the sorted numbers |
| CaraiAnalysis.SelectionOfNormalised | Plugins/GameFeatures/CarAI/Content/Python/carai_analysis_cli.py:653-656 | a normalised selection is looked up in the sorted numbers |
| CaraiAnalysis.NegativeSelection | Plugins/GameFeatures/CarAI/Content/Python/carai_analysis_cli.py:662-667 | "-k" for 1 <= k <= n picks the k-th largest rollout number |
| CaraiAnalysis.IndexOf | Plugins/GameFeatures/CarAI/Content/Python/carai_analysis_cli.py:890 | the first position holding the target |
| CaraiAnalysis.ApplyBrowseCommand | Plugins/GameFeatures/CarAI/Content/Python/carai_analysis_cli.py:864-896 | the cursor stays a valid index; only the quit words leave; a jump goes to the target's position when it is a rollout number, else to the target as an index, else nowhere |
| CaraiAnalysis.BrowseStep | Plugins/GameFeatures/CarAI/Content/Python/carai_analysis_cli.py:862-896 | one typed command leaves the cursor a valid index |
| CaraiAnalysis.ReadsNext | Plugins/GameFeatures/CarAI/Content/Python/carai_analysis_cli.py:862-864 | typing "next" is the next command |
| CaraiAnalysis.ReadsPrevious | Plugins/GameFeatures/CarAI/Content/Python/carai_analysis_cli.py:862-869 | typing "previous" is the previous command |
| CaraiAnalysis.ReadsQ | Plugins/GameFeatures/CarAI/Content/Python/carai_analysis_cli.py:862-880 | typing "q" is the quit command |
| CaraiAnalysis.ReadsQuit | Plugins/GameFeatures/CarAI/Content/Python/carai_analysis_cli.py:862-880 | typing "quit" is the quit command |
| CaraiAnalysis.NextThenPrevious | Plugins/GameFeatures/CarAI/Content/Python/carai_analysis_cli.py:864-873 | "next" then "previous" comes back, except at the last rollout |
| CaraiAnalysis.BrowseStopsAtEnds | Plugins/GameFeatures/CarAI/Content/Python/carai_analysis_cli.py:864-873 | at the ends "next" and "previous" do not move the cursor |
| CaraiAnalysis.BrowseRun | Plugins/GameFeatures/CarAI/Content/Python/carai_analysis_cli.py:845-896 | the cursor stays a valid index after any sequence of commands |
| CaraiAnalysis.BrowseRollouts | Plugins/GameFeatures/CarAI/Content/Python/carai_analysis_cli.py:830-896 | no browsing without rollouts; otherwise it starts at the latest rollout and ends where the commands leave it, a valid index |
| CaraiAnalysis.QQuitsBrowse | Plugins/GameFeatures/CarAI/Content/Python/carai_analysis_cli.py:880 | "q" leaves browse mode |
| CaraiAnalysis.QKeepsRunning | Plugins/GameFeatures/CarAI/Content/Python/carai_analysis_cli.py:1356-1360 | "q" does not leave the tool at the main prompt |
| CaraiAnalysis.QLeavesOnlyBrowse | Plugins/GameFeatures/CarAI/Content/Python/carai_analysis_cli.py:880 | "q" leaves browse mode but keeps the tool running |
| CaraiAnalysis.ShortWordContinues | Plugins/GameFeatures/CarAI/Content/Python/carai_analysis_cli.py:1356-1360 | a normalised command shorter than four letters keeps the tool running |
| CaraiAnalysis.QuitLeavesBoth | Plugins/GameFeatures/CarAI/Content/Python/carai_analysis_cli.py:1359-1360 | "quit" leaves both browse mode and the tool |
| SuggestAgentParameters.Bound | Plugins/GameFeatures/CarAI/Content/Python/suggest_agent_parameters.py:42-45 | a lower bound then an upper bound is clamping to [lo, hi] |
| SuggestAgentParameters.BoundMonotone | Plugins/GameFeatures/CarAI/Content/Python/suggest_agent_parameters.py:42-45 | bounding is monotone in the value and in both bounds |
| SuggestAgentParameters.SuggestTrackHalfWidth | Plugins/GameFeatures/CarAI/Content/Python/suggest_agent_parameters.py:29-47 | the default 500 without input; otherwise half the width clamped to [100, 2000] cm |
| SuggestAgentParameters.TrackHalfWidthMonotone | Plugins/GameFeatures/CarAI/Content/Python/suggest_agent_parameters.py:29-47 | a wider track never gets a smaller half width, and the suggestion lies in [100, 2000] cm |
| SuggestAgentParameters.SpeedNormOfMs | Plugins/GameFeatures/CarAI/Content/Python/suggest_agent_parameters.py:62-72 | the speed norm always lies in [1000, 10000] cm/s |
| SuggestAgentParameters.SuggestSpeedNorm | Plugins/GameFeatures/CarAI/Content/Python/suggest_agent_parameters.py:49-72 | the default 4500 without input; otherwise 1.3 times the top speed in cm/s (m/s taking precedence over km/h) clamped to [1000, 10000] |
| SuggestAgentParameters.SuggestSpeedNormAsWritten | Plugins/GameFeatures/CarAI/Content/Python/suggest_agent_parameters.py:49-74 | the function as written raises exactly when only the speed in m/s is given |
| SuggestAgentParameters.SpeedNormAsWrittenAgrees | Plugins/GameFeatures/CarAI/Content/Python/suggest_agent_parameters.py:49-74 | wherever the written version does not raise, it returns the intended speed norm |
| SuggestAgentParameters.SpeedNormMsOnlyRaises | Plugins/GameFeatures/CarAI/Content/Python/suggest_agent_parameters.py:74 | a top speed of 30 m/s alone makes the written version raise, where the intended norm is 3900 |
| SuggestAgentParameters.SpeedNormUnits | Plugins/GameFeatures/CarAI/Content/Python/suggest_agent_parameters.py:55-72 | a top speed in km/h gives the same norm as the same speed in m/s, and a faster car never gets a smaller norm |
| SuggestAgentParameters.CurvatureNormOfCm | Plugins/GameFeatures/CarAI/Content/Python/suggest_agent_parameters.py:91-97 | no result iff the radius is 0 (division by zero); otherwise 1/(4r) clamped to [0.0001, 0.01] |
| SuggestAgentParameters.SuggestCurvatureNorm | Plugins/GameFeatures/CarAI/Content/Python/suggest_agent_parameters.py:76-99 | the default 0.0025 without input; the radius in m takes precedence, converted to cm; any result lies in [0.0001, 0.01] |
| SuggestAgentParameters.CurvatureNormAntitone | Plugins/GameFeatures/CarAI/Content/Python/suggest_agent_parameters.py:91-97 | a tighter curve never gets a smaller curvature norm |
| SuggestAgentParameters.DivAntitone | Plugins/GameFeatures/CarAI/Content/Python/suggest_agent_parameters.py:91 | the reciprocal of a larger positive number is no larger |
| SuggestAgentParameters.SuggestHeadingNorm | Plugins/GameFeatures/CarAI/Content/Python/suggest_agent_parameters.py:101-116 | sharp curves get more than the standard 0.8 rad, gentle ones less, any other type the standard |
| SuggestAgentParameters.SuggestAngVelNorm | Plugins/GameFeatures/CarAI/Content/Python/suggest_agent_parameters.py:118-142 | the default 220 when either input is missing; otherwise no result iff the radius is 0, and 1.5 times v/r in degrees clamped to [50, 500] |
| SuggestAgentParameters.RawLookahead | Plugins/GameFeatures/CarAI/Content/Python/suggest_agent_parameters.py:158-159 | four offsets, each the track length times its percentage |
| SuggestAgentParameters.SuggestLookaheadOffsets | Plugins/GameFeatures/CarAI/Content/Python/suggest_agent_parameters.py:144-170 | the defaults without input; otherwise four offsets from the length in cm (which takes precedence), each clamped to its own bounds |
| SuggestAgentParameters.LookaheadOffsets | Plugins/GameFeatures/CarAI/Content/Python/suggest_agent_parameters.py:164-168 | four offsets, each the scaled length clamped to its own bounds |
| SuggestAgentParameters.LookaheadAscending | Plugins/GameFeatures/CarAI/Content/Python/suggest_agent_parameters.py:158-168 | for any track length the four offsets lie within their bounds and look strictly further ahead one after the other |
| SuggestAgentParameters.SuggestRewardWeights | Plugins/GameFeatures/CarAI/Content/Python/suggest_agent_parameters.py:172-207 | any other difficulty gets the medium weights; lateral and heading weights are equal and negative, speed positive, progress at least 1 |
| SuggestAgentParameters.HarderIsStricter | Plugins/GameFeatures/CarAI/Content/Python/suggest_agent_parameters.py:176-205 | each harder level punishes deviations more and rewards speed less |
| KeySort.IntLeTotal | Plugins/GameFeatures/CarAI/Content/Python/find_best_model.py:349 | integer comparison is a total preorder |
| KeySort.Insert | Plugins/GameFeatures/CarAI/Content/Python/find_best_model.py:349 | inserting adds exactly one element |
| KeySort.SortBy | Plugins/GameFeatures/CarAI/Content/Python/find_best_model.py:349 | sorting keeps the length |
| KeySort.InsertPermutes | Plugins/GameFeatures/CarAI/Content/Python/find_best_model.py:349 | inserting adds exactly the inserted element to the multiset |
| KeySort.SortByPermutes | Plugins/GameFeatures/CarAI/Content/Python/find_best_model.py:349 | sorting by a key is a permutation of its input |
| KeySort.InsertSorted | Plugins/GameFeatures/CarAI/Content/Python/find_best_model.py:349 | inserting into a sorted list keeps it sorted |
| KeySort.SortBySorted | Plugins/GameFeatures/CarAI/Content/Python/find_best_model.py:349 | sorting by a key under a total preorder yields a list sorted by that key |
| KeySort.InsertStable | Plugins/GameFeatures/CarAI/Content/Python/find_best_model.py:349 | inserting an element that came first moves it only past strictly smaller keys: in every class of tied keys it stays first and the rest keep their order |
| KeySort.SortByStable | Plugins/GameFeatures/CarAI/Content/Python/find_best_model.py:349 | the sort is stable: in every class of tied keys the sorted list keeps the input order |
| KeySort.FirstMinIsMinimum | Plugins/GameFeatures/CarAI/Content/Python/find_and_export_best_model.py:128-131 | the first minimal element is an element whose key is no greater than any other |
| KeySort.SortByHead | Plugins/GameFeatures/CarAI/Content/Python/find_and_export_best_model.py:128-131 | the stable sort puts the first minimal element first |
| PyText.Basename | Plugins/GameFeatures/CarAI/Content/Python/find_best_model.py:86 | the base name is the path's longest separator-free suffix |
| PyText.ReplaceSkipsPrefix | Plugins/GameFeatures/CarAI/Content/Python/find_best_model.py:89 | a prefix that cannot start the pattern passes through replacement unchanged |
| PyText.Split | Plugins/GameFeatures/CarAI/Content/Python/find_best_model.py:89 | splitting yields at least one piece and no piece holds the separator |
| PyText.JoinSplit | Plugins/GameFeatures/CarAI/Content/Python/find_best_model.py:89 | joining the pieces of a split gives the string back |
| PyText.SplitAround | Plugins/GameFeatures/CarAI/Content/Python/find_best_model.py:89 | a separator splits a string into the pieces of either side |
| PyText.SplitNoSep | Plugins/GameFeatures/CarAI/Content/Python/find_best_model.py:89 | a string without the separator splits into itself |
| PyText.DigitsHoldNo | Plugins/GameFeatures/CarAI/Content/Python/find_best_model.py:89 | a string of digits holds no non-digit separator |
| PyText.SplitThree | Plugins/GameFeatures/CarAI/Content/Python/find_best_model.py:89 | three separator-free pieces joined by two separators split into exactly those pieces |
| PyText.StripLeft | Plugins/GameFeatures/CarAI/Content/Python/carai_analysis_cli.py:653 | stripping on the left leaves a suffix |
| PyText.StripRight | Plugins/GameFeatures/CarAI/Content/Python/carai_analysis_cli.py:653 | stripping on the right leaves a prefix |
| PyText.Digit | Plugins/GameFeatures/CarAI/Content/Python/train_pytorch.py:589 | the character of a decimal digit has that value |
| PyText.NatToString | Plugins/GameFeatures/CarAI/Content/Python/train_pytorch.py:589 | a natural number is written as a non-empty string of digits |
| PyText.DigitsOfNat | Plugins/GameFeatures/CarAI/Content/Python/train_pytorch.py:589 | the digits written for n read back as n |
| PyText.ParseIntNeedsDigit | Plugins/GameFeatures/CarAI/Content/Python/find_best_model.py:91 | the integer conversion fails on a string without a decimal digit |
| PyText.ParseIntOfNat | Plugins/GameFeatures/CarAI/Content/Python/find_best_model.py:91 | converting the written digits of n gives n back |
| PyText.ParseIntOfNegNat | Plugins/GameFeatures/CarAI/Content/Python/carai_analysis_cli.py:665 | converting "-" and the digits of n gives -n |

## Left out

- File, socket and process I/O: JSON, CSV, checkpoint and genome files are inputs given as parsed values (`Option` for a read that can fail); writing them is modelled only as the value written.
- The engine: timers, world traces, spline geometry, actor lookup, delegates and broadcasts are parameters (a `World` or spline value of functions) or left out; on-screen debug drawing, logging and widget text layout are left out.
- Randomness: every `FRandomStream` draw and `torch`/`random` call is a fraction parameter in [0, 1), so the distribution of the draws is not modelled.
- Transcendental functions (exp, log, sqrt, tanh, pow) are arrow-typed parameters; only the properties the code relies on are assumed of them in `requires`.
- Floating point is exact real arithmetic: no rounding, no accumulated error in stepped loops (the i-th step is exactly i times the step), and NaN and infinity only where the source tests for them (`Common.Float`).
- 32-bit integer overflow and float-to-int truncation of out-of-range values are not modelled; the values involved are counts and distances far below the limits.
- Python `int()` is modelled for optional sign, decimal digits and surrounding whitespace; underscores, other bases and non-ASCII digits are left out.
- String formatting, printing, plots and the interactive console of the analysis tool are left out, except where a formatted value is parsed back by the code.
- Concurrency: the game thread and the external Python trainer process are not modelled; each call runs to completion.
- Engine sets (`TSet`) are modelled as duplicate-free sequences in registration order, so results that depend on the engine's hash iteration order are pinned to that order.
- The averaged location of a spawn hotspot (a running `Lerp`) is left out; the count, bin centre and last reason and agent are modelled.
- Respawn's fallback placement uses the candidate's distance directly; the source recomputes it from the closest spline key of the final transform. Height offsets of the respawn transform are left out.
- ImportPyTorchModel's null-network guard is not modelled (the network is always present); the missing-file guard is the `None` document.
- ConvertLayer is a stub in the source that returns false and is not modelled.
- LoadGenomeFromJSON's node and connection strings and LoadBestGenome (which only logs) are left out; the genome-to-network conversion is a TODO in the source.
- evaluate_model_on_data (model inference in `torch`), print_analysis and the model_analysis.json output of the model-selection scripts are left out.
- Backpropagation and the Adam update are parameters of the training steps (applyGradients, adamLogStd, optimizerStep); their numerical content is not modelled.
- PpoTraining.ComputeGae: the running advantage starts at 0 and the bootstrap value enters only as the next value of the last step (train_pytorch.py:156-171); the model keeps `nextValue` as a parameter in the same place, though the trainer always passes 0 (:194).
- PpoTraining.LoadEpoch: an epoch with no accepted file is skipped before training, so no checkpoint is written for it (train_pytorch.py:504-505, 588-590); writing the checkpoint itself is I/O and is not modelled.
- PyTorchImporter.AsNumber: a JSON string reads as 0; the engine also parses numeric strings, which the exported files never contain.
- RacingAgent.RacingAgent.StepOnce: requires dt > 0, because the average speed is a division by the episode duration.
- RacingAgent.RacingAgent: the component holds no adaptive ray states. The reset of all five after an episode reset (RacingAgentComponent.cpp:109, 140-146) and their pitch update after each step (:231-234) are not modelled here, because each update is driven by a physics ray trace. One ray's update and reset are modelled as AgentTypes.AdaptiveRayState.UpdatePitchAngle and AgentTypes.AdaptiveRayState.Reset.
- RacingAgent.RacingAgent.FinalizeEpisodeStats: requires a positive duration once a step was counted; the source divides without a guard.
- NeuralNetwork.LoadLayer: zeroes every gradient and moment array; the source keeps the surviving entries (see Findings).
- NeuralNetwork.LoadLayers: builds each layer afresh; the source's SetNum keeps existing layers with their optimiser state (see Findings).
- NeuralNetwork.Network.Restore: installs the corrected reload, with every gradient and moment array zeroed, the log-std ones included; the as-written behaviour is NeuralNetwork.LoadLayerAsWritten (see Findings).
- NeuralNetwork.Network.LoadFromFile: a stream that does not decode leaves the fields as they were; the source's partially read fields after a short stream are not modelled.
- ExperienceReplay.ExperienceBuffer.Add: requires a positive capacity (Valid); with a capacity of zero or less the source indexes an empty array and takes the cursor modulo zero (SimpleNeuralNetwork.cpp:714-716), a crash the model does not reproduce.
- ExperienceReplay.ExperienceBuffer.ComputeGae: the sort is stated as the stable sort by (agent, timestamp); the source's sort is not stable, so the order of experiences with equal agent and timestamp, and with it their GAE values, is pinned down here where the source leaves it open.
- NeuralNetwork.Network.Initialize: the random weight initialisation is the parameter `init`.
- SplineBuilder.SplineGeneratingActor.RotateSplinePointsForward: assumes the spline keeps the points in the order they are added. Each copied point still carries its old index as its input key (SplineGeneratingActor.cpp:541, 1977-1989), and the engine's AddPoint, which is not part of this model, places a point by that key; if it orders by key, the refilled spline keeps its old order and the rotation does not happen.
- SplineBuilder.SplineGeneratingActor.RotateSplinePointsBackward: the same append-order assumption as the forward rotation (SplineGeneratingActor.cpp:541, 2020-2032).
- CurriculumSpawner.SelectBestCandidates: sorts with a stable insertion sort, so candidates of equal score keep their input order and, at the cut-off, the earlier one is selected; the engine's TArray::Sort (CurriculumSpawner.cpp:350-353, 363-366) is not stable, so the source may select or order tied candidates differently.
- CurriculumDebug.DebugActor.ReportAgentSpawn: requires a cap of zero or more; MaxRecordedSpawnEvents is an editable int32 with no lower bound (RacingCurriculumDebugActor.h:258-259), and with a negative cap the source asks RemoveAt for more elements than the log holds (RacingCurriculumDebugActor.cpp:123-126), an engine range-check failure the model does not reproduce.
- NeuralNetwork.Network.Initialize: requires a policy output size of zero or more; with a negative size the source's SetNum on the log-std arrays (SimpleNeuralNetwork.cpp:241-244) fails the engine's size check, a crash the model does not reproduce.
- PyTorchImporter.InitializeIfNeeded: requires a policy output size of zero or more for an uninitialized network, for the same reason as NeuralNetwork.Network.Initialize, which it calls (PyTorchImporter.cpp:80-84).
- PyTorchImporter.LoadWeightsFromJson: requires, through Initializable, that a document loaded into an uninitialized network has a policy output size of zero or more; a negative `policy_output_size` in the file reaches the same SetNum crash in Initialize (PyTorchImporter.cpp:80-84, SimpleNeuralNetwork.cpp:241-244), which the model does not reproduce.
- CaraiAnalysis.Lower: lower-cases only the ASCII letters A-Z; Python's `str.lower()` (carai_analysis_cli.py:653) also lower-cases non-ASCII letters such as `Ä`, so a prompt typed with them normalises differently in the model.
- CaraiAnalysis.Normalize: strips only the ASCII whitespace characters of PyText.IsSpace (space, tab to carriage return, and the separators 0x1C-0x1F); Python's `str.strip()` (carai_analysis_cli.py:653) also strips Unicode whitespace such as U+0085 and U+00A0, and lower-cases as CaraiAnalysis.Lower describes.
- Respawn.RespawnSubsystem.DoRespawn: calls into the actor's engine and reset interfaces are not modelled: the pawn's Reset (RespawnGameInstanceSubsystem.cpp:648-653) and the engine being switched back on (:656-660), like the engine being switched off when the respawn is scheduled (:308-313), are calls into code outside this model, so the contract says nothing about the pawn's own state.
- TrackFrame.SampleLookaheadByDistance: places each clamped target at TrackFrame.LookaheadFrameDistance, the corrected distance (see Findings); the source passes the clamped target to the frame lookup, which wraps a target at L back to 0 (TrackFrameProviderComponent.cpp:362, 417, 424), so the as-written frame at the end of an open spline is the one at distance 0 (TrackFrame.ClampedEndFrameAtStart).
- NeatTraining.NeatTrainingManager.LoadGenerationGenomes: the genome files are given as parsed `Option` values.

## Findings

| source | as written | input that shows it | evidently intended | confidence | as-written member | corrected member |
|---|---|---|---|---|---|---|
| Plugins/GameFeatures/CarAI/Source/CarAIRuntime/Private/NN/SimpleNeuralNetwork.cpp:571-577 | loading resizes every layer's gradient and Adam moment arrays, and the log-std ones (lines 591-593), with `SetNumZeroed`, which keeps the elements already there, and keeps existing layers with `SetNum` (lines 581, 585), so optimiser state from before the load survives it | a network whose first weight has Adam moment m = 1 before loading a file of the same shape | every Adam moment is zero after a load, as after initialisation | not executed | NeuralNetwork.LoadLayerAsWritten / NeuralNetwork.StaleMomentSurvivesLoad | NeuralNetwork.LoadLayer / NeuralNetwork.Network.LoadFromFile |
| Plugins/GameFeatures/CarStatistics/Source/CarStatisticsRuntime/Private/Components/TrackFrameProviderComponent.cpp:345-362 | a lookahead target clamped to the spline length L is passed to the frame lookup, which wraps it again, so it lands at distance 0 | an open spline of length L with base + offset >= L | a clamped target stays at L, the end of the track | not executed | TrackFrame.FrameDistanceAsWritten / TrackFrame.ClampedEndFrameAtStart | TrackFrame.LookaheadFrameDistance / TrackFrame.LookaheadFrameDistanceIntended / TrackFrame.SampleLookaheadByDistance |
| Plugins/GameFeatures/CarAI/Content/Python/suggest_agent_parameters.py:74 | the speed-norm message formats `max_speed_kmh` with `:.0f` even when only the m/s speed was given, which raises TypeError on None | `--max-speed-ms 30` without `--max-speed` (whose value is `max_speed_kmh`, suggest_agent_parameters.py:341) | the suggestion 3900 is printed | not executed | SuggestAgentParameters.SuggestSpeedNormAsWritten / SuggestAgentParameters.SpeedNormMsOnlyRaises | SuggestAgentParameters.SuggestSpeedNorm / SuggestAgentParameters.SpeedNormAsWrittenAgrees |
