/** The race bookkeeping of UTimeTrialComponent (TimeTrialComponent.cpp):
    per tracked actor, rounds made of gates passed in order, with the last
    and best round time. Gate triggers arrive as (actor, target index);
    the world clock is passed in as `now`. */
module TimeTrial {
  import opened Common

  /** FGateInformation. */
  datatype Gate = Gate(gateIndex: int, timeAtGate: real)

  /** FRoundInformation. */
  datatype Round = Round(startTime: real, endTime: real, gates: seq<Gate>)

  /** FTrackTimeInformation. `round` counts the rounds started. */
  datatype TrackTimes = TrackTimes(bestTime: real, lastTime: real, round: int, rounds: seq<Round>)

  const DefaultTimes: TrackTimes := TrackTimes(0.0, 0.0, 0, [])

  /** The delegates the component broadcasts. The owning actor, which every
      broadcast carries, is left out. */
  datatype RaceEvent =
    | TimesTargetTracked(round: int, gateIndex: int, time: real)
    | NewRecordTime(time: real)
    | RaceHasStarted
    | RaceHasFinished

  /** Gate indices in a round are 0, 1, 2, ... */
  predicate GatesInOrder(gates: seq<Gate>)
  {
    forall k :: 0 <= k < |gates| ==> gates[k].gateIndex == k
  }

  /** AddGateIfNext: the gate is appended exactly when it is the next one
      expected, and the result says whether it was. */
  function AddGateIfNext(r: Round, gateIndex: int, time: real): (res: (Round, bool))
    ensures res.1 <==> gateIndex == |r.gates|
    ensures res.1 ==> res.0 == r.(gates := r.gates + [Gate(gateIndex, time)])
    ensures !res.1 ==> res.0 == r
  {
    if gateIndex != |r.gates| then (r, false)
    else (r.(gates := r.gates + [Gate(gateIndex, time)]), true)
  }

  /** Appending only the expected next gate keeps the indices 0, 1, 2, ... */
  lemma AddGateKeepsOrder(r: Round, gateIndex: int, time: real)
    requires GatesInOrder(r.gates)
    ensures GatesInOrder(AddGateIfNext(r, gateIndex, time).0.gates)
    ensures |AddGateIfNext(r, gateIndex, time).0.gates| <= |r.gates| + 1
  {
    var res := AddGateIfNext(r, gateIndex, time);
    if res.1 {
      forall k | 0 <= k < |res.0.gates|
        ensures res.0.gates[k].gateIndex == k
      {
        if k < |r.gates| {
          assert res.0.gates[k] == r.gates[k];
        }
      }
    }
  }

  /** A round as StartRound opens it: gate 0 at the start time. */
  function FreshRound(now: real): (r: Round)
    ensures r.gates == [Gate(0, now)] && r.startTime == now
    ensures GatesInOrder(r.gates)
  {
    Round(now, 0.0, [Gate(0, now)])
  }

  /** What StartRound does to an actor's times. */
  function StartedRound(t: TrackTimes, now: real): (r: TrackTimes)
    ensures r.round == t.round + 1
    ensures r.rounds == t.rounds + [FreshRound(now)]
    ensures r.bestTime == t.bestTime && r.lastTime == t.lastTime
  {
    t.(round := t.round + 1, rounds := t.rounds + [FreshRound(now)])
  }

  /** The best-time rule: a round time replaces the best when no best is
      recorded yet (best <= 0) or it is strictly smaller. */
  function NextBest(best: real, roundTime: real): (r: real)
    ensures best <= 0.0 ==> r == roundTime
    ensures best > 0.0 ==> r == Min(best, roundTime)
  {
    if best <= 0.0 || roundTime < best then roundTime else best
  }

  /** What FinishRound does to an actor's times that hold a round: the last
      round ends at `now` with the finish gate added if it is next, the
      last time is the round's duration, and the best time follows
      NextBest. */
  function FinishedRound(t: TrackTimes, finishGateIndex: int, now: real): (r: TrackTimes)
    requires |t.rounds| > 0
    ensures |r.rounds| == |t.rounds| && r.round == t.round
    ensures r.rounds[..|r.rounds| - 1] == t.rounds[..|t.rounds| - 1]
    ensures var last := t.rounds[|t.rounds| - 1];
      r.rounds[|r.rounds| - 1] == AddGateIfNext(last.(endTime := now), finishGateIndex, now).0
    ensures r.lastTime == now - t.rounds[|t.rounds| - 1].startTime
    ensures r.bestTime == NextBest(t.bestTime, r.lastTime)
  {
    var last := t.rounds[|t.rounds| - 1];
    var ended := AddGateIfNext(last.(endTime := now), finishGateIndex, now).0;
    var roundTime := now - last.startTime;
    t.(rounds := t.rounds[|t.rounds| - 1 := ended], lastTime := roundTime,
       bestTime := NextBest(t.bestTime, roundTime))
  }

  /** The best time after a series of finished rounds, starting from the
      default 0 ("no best yet"). */
  function BestAfter(best: real, roundTimes: seq<real>): real
    decreases |roundTimes|
  {
    if roundTimes == [] then best
    else BestAfter(NextBest(best, roundTimes[0]), roundTimes[1..])
  }

  function MinOf(s: seq<real>): (m: real)
    requires |s| > 0
    ensures m in s && forall k :: 0 <= k < |s| ==> m <= s[k]
  {
    if |s| == 1 then s[0] else Min(s[0], MinOf(s[1..]))
  }

  /** With positive round times the best time is the minimum of the times
      finished so far. */
  lemma {:induction false} BestIsMinimum(best: real, roundTimes: seq<real>)
    requires forall k :: 0 <= k < |roundTimes| ==> roundTimes[k] > 0.0
    requires |roundTimes| > 0
    ensures best <= 0.0 ==> BestAfter(best, roundTimes) == MinOf(roundTimes)
    ensures best > 0.0 ==> BestAfter(best, roundTimes) == Min(best, MinOf(roundTimes))
    decreases |roundTimes|
  {
    var next := NextBest(best, roundTimes[0]);
    assert next > 0.0;
    if |roundTimes| > 1 {
      BestIsMinimum(next, roundTimes[1..]);
      assert MinOf(roundTimes) == Min(roundTimes[0], MinOf(roundTimes[1..]));
    }
  }

  /** A round is well formed when it opens with gate 0 at its start time
      and its gates are in order. */
  predicate RoundValid(r: Round)
  {
    |r.gates| >= 1 && GatesInOrder(r.gates) && r.gates[0].timeAtGate == r.startTime
  }

  predicate TimesValid(t: TrackTimes)
  {
    t.round == |t.rounds| && forall k :: 0 <= k < |t.rounds| ==> RoundValid(t.rounds[k])
  }

  lemma StartedRoundValid(t: TrackTimes, now: real)
    requires TimesValid(t)
    ensures TimesValid(StartedRound(t, now))
  {
    var r := StartedRound(t, now);
    forall k | 0 <= k < |r.rounds|
      ensures RoundValid(r.rounds[k])
    {
      if k < |t.rounds| {
        assert r.rounds[k] == t.rounds[k];
      }
    }
  }

  lemma FinishedRoundValid(t: TrackTimes, finishGateIndex: int, now: real)
    requires TimesValid(t) && |t.rounds| > 0
    ensures TimesValid(FinishedRound(t, finishGateIndex, now))
  {
    var r := FinishedRound(t, finishGateIndex, now);
    var n := |t.rounds| - 1;
    var last := t.rounds[n];
    assert RoundValid(last);
    AddGateKeepsOrder(last.(endTime := now), finishGateIndex, now);
    forall k | 0 <= k < |r.rounds|
      ensures RoundValid(r.rounds[k])
    {
      if k < n {
        assert r.rounds[k] == r.rounds[..n][k] == t.rounds[..n][k] == t.rounds[k];
      }
    }
  }

  lemma IntermediateGateValid(t: TrackTimes, gateIndex: int, now: real)
    requires TimesValid(t) && |t.rounds| > 0
    ensures var n := |t.rounds| - 1;
      TimesValid(t.(rounds := t.rounds[n := AddGateIfNext(t.rounds[n], gateIndex, now).0]))
  {
    var n := |t.rounds| - 1;
    assert RoundValid(t.rounds[n]);
    AddGateKeepsOrder(t.rounds[n], gateIndex, now);
  }

  /** The position of `a` in `actors`, or -1 (TArray::IndexOfByKey). */
  function IndexOf(actors: seq<nat>, a: nat): (i: int)
    ensures -1 <= i < |actors|
    ensures i == -1 <==> a !in actors
    ensures i >= 0 ==> actors[i] == a && a !in actors[..i]
  {
    if |actors| == 0 then -1
    else if actors[0] == a then 0
    else
      var j := IndexOf(actors[1..], a);
      if j == -1 then -1
      else
        assert actors[..j + 1] == [actors[0]] + actors[1..][..j];
        j + 1
  }

  /** UTimeTrialComponent. Actors are identified by number. */
  class TimeTrialComponent {
    var numberOfGates: int
    var numberOfRounds: int
    var raceHasStarted: bool
    var trackedTargets: seq<nat>
    var trackedTargetTimes: seq<TrackTimes>
    var events: seq<RaceEvent>

    predicate Valid()
      reads this
    {
      |trackedTargets| == |trackedTargetTimes| &&
      (forall i, j :: 0 <= i < j < |trackedTargets| ==> trackedTargets[i] != trackedTargets[j]) &&
      forall i :: 0 <= i < |trackedTargetTimes| ==> TimesValid(trackedTargetTimes[i])
    }

    constructor ()
      ensures Valid()
      ensures numberOfGates == 0 && numberOfRounds == 3 && !raceHasStarted
      ensures trackedTargets == [] && trackedTargetTimes == [] && events == []
    {
      numberOfGates, numberOfRounds, raceHasStarted := 0, 3, false;
      trackedTargets, trackedTargetTimes, events := [], [], [];
    }

    /** BeginPlay: the number of actors tagged "TrackGate" in the level. */
    method BeginPlay(gateActorCount: nat)
      modifies this`numberOfGates
      ensures numberOfGates == gateActorCount
    {
      numberOfGates := gateActorCount;
    }

    /** StartRound: an out-of-range index is ignored. Otherwise the round
        counter rises by one, a round holding exactly gate 0 at `now` is
        appended, the race counts as started and gate 0 is broadcast. */
    method StartRound(timesIndex: int, now: real)
      requires Valid()
      modifies this`trackedTargetTimes, this`raceHasStarted, this`events
      ensures Valid()
      ensures !(0 <= timesIndex < |old(trackedTargetTimes)|) ==>
                trackedTargetTimes == old(trackedTargetTimes) && raceHasStarted == old(raceHasStarted) &&
                events == old(events)
      ensures 0 <= timesIndex < |old(trackedTargetTimes)| ==>
                trackedTargetTimes == old(trackedTargetTimes)[timesIndex := StartedRound(old(trackedTargetTimes)[timesIndex], now)] &&
                raceHasStarted &&
                events == old(events) + (if old(raceHasStarted) then [] else [RaceHasStarted])
                          + [TimesTargetTracked(trackedTargetTimes[timesIndex].round, 0, now)]
    {
      if !(0 <= timesIndex < |trackedTargetTimes|) {
        return;
      }
      if !raceHasStarted {
        raceHasStarted := true;
        events := events + [RaceHasStarted];
      }
      var t := StartedRound(trackedTargetTimes[timesIndex], now);
      StartedRoundValid(trackedTargetTimes[timesIndex], now);
      trackedTargetTimes := trackedTargetTimes[timesIndex := t];
      events := events + [TimesTargetTracked(t.round, 0, now)];
    }

    /** FinishRound: ignored for an out-of-range index or an actor without
        rounds. Otherwise the last round ends at `now`, the finish gate is
        added if it is next, the last time is the round's duration, and the
        best time follows NextBest, with a record broadcast when it
        changes. */
    method FinishRound(timesIndex: int, finishGateIndex: int, now: real)
      requires Valid()
      modifies this`trackedTargetTimes, this`events
      ensures Valid()
      ensures !(0 <= timesIndex < |old(trackedTargetTimes)| && |old(trackedTargetTimes)[timesIndex].rounds| > 0) ==>
                trackedTargetTimes == old(trackedTargetTimes) && events == old(events)
      ensures 0 <= timesIndex < |old(trackedTargetTimes)| && |old(trackedTargetTimes)[timesIndex].rounds| > 0 ==>
                var t := old(trackedTargetTimes)[timesIndex];
                var f := FinishedRound(t, finishGateIndex, now);
                trackedTargetTimes == old(trackedTargetTimes)[timesIndex := f] &&
                events == old(events) + [TimesTargetTracked(t.round, finishGateIndex, now)]
                          + (if t.bestTime <= 0.0 || f.lastTime < t.bestTime then [NewRecordTime(f.lastTime)] else [])
    {
      if !(0 <= timesIndex < |trackedTargetTimes|) || |trackedTargetTimes[timesIndex].rounds| == 0 {
        return;
      }
      var t := trackedTargetTimes[timesIndex];
      var f := FinishedRound(t, finishGateIndex, now);
      FinishedRoundValid(t, finishGateIndex, now);
      trackedTargetTimes := trackedTargetTimes[timesIndex := f];
      events := events + [TimesTargetTracked(t.round, finishGateIndex, now)];
      if t.bestTime <= 0.0 || f.lastTime < t.bestTime {
        events := events + [NewRecordTime(f.lastTime)];
      }
    }

    /** OnTargetTracked: a gate trigger with target index `targetIndex`
        from `actor` (None for a null actor) at time `now`. */
    method OnTargetTracked(actor: Option<nat>, targetIndex: int, now: real)
      requires Valid()
      modifies this`trackedTargets, this`trackedTargetTimes, this`raceHasStarted, this`events
      ensures Valid()
      // A null actor or a negative index is ignored.
      ensures actor.None? || targetIndex < 0 ==>
                trackedTargets == old(trackedTargets) && trackedTargetTimes == old(trackedTargetTimes) &&
                events == old(events)
      // An unknown actor is registered only on index 0, with its first round started.
      ensures actor.Some? && targetIndex >= 0 && actor.value !in old(trackedTargets) ==>
                if targetIndex == 0 then
                  trackedTargets == old(trackedTargets) + [actor.value] &&
                  trackedTargetTimes == old(trackedTargetTimes) + [StartedRound(DefaultTimes, now)]
                else
                  trackedTargets == old(trackedTargets) && trackedTargetTimes == old(trackedTargetTimes)
      // A known actor is never registered twice.
      ensures actor.Some? && actor.value in old(trackedTargets) ==> trackedTargets == old(trackedTargets)
      // Index 0 on a round that holds only gate 0 is ignored (start debounce).
      ensures actor.Some? && targetIndex == 0 && actor.value in old(trackedTargets) ==>
                var t := old(trackedTargetTimes)[IndexOf(old(trackedTargets), actor.value)];
                |t.rounds| > 0 && |t.rounds[|t.rounds| - 1].gates| <= 1 ==>
                  trackedTargetTimes == old(trackedTargetTimes) && events == old(events)
      // Index 0 finishes a round only when it holds all NumberOfGates gates.
      ensures actor.Some? && targetIndex == 0 && actor.value in old(trackedTargets) ==>
                var i := IndexOf(old(trackedTargets), actor.value);
                var t := old(trackedTargetTimes)[i];
                |t.rounds| > 0 && |t.rounds[|t.rounds| - 1].gates| > 1 ==>
                  if |t.rounds[|t.rounds| - 1].gates| == numberOfGates then
                    var f := FinishedRound(t, numberOfGates, now);
                    trackedTargetTimes == old(trackedTargetTimes)[i := if f.round >= numberOfRounds then f else StartedRound(f, now)]
                  else
                    trackedTargetTimes == old(trackedTargetTimes)
      // An intermediate gate is appended only in order; otherwise the gates stay.
      ensures actor.Some? && 0 < targetIndex < numberOfGates && actor.value in old(trackedTargets) ==>
                var i := IndexOf(old(trackedTargets), actor.value);
                var t := old(trackedTargetTimes)[i];
                |t.rounds| > 0 ==>
                  var n := |t.rounds| - 1;
                  trackedTargetTimes == old(trackedTargetTimes)[i := t.(rounds := t.rounds[n := AddGateIfNext(t.rounds[n], targetIndex, now).0])]
      // Any other index changes nothing.
      ensures actor.Some? && targetIndex >= numberOfGates && targetIndex != 0 ==>
                trackedTargets == old(trackedTargets) && trackedTargetTimes == old(trackedTargetTimes) &&
                events == old(events)
    {
      if actor.None? || targetIndex < 0 {
        return;
      }
      var a := actor.value;
      var finishGateIndex := numberOfGates;
      var timesIndex := IndexOf(trackedTargets, a);
      if timesIndex == -1 {
        if targetIndex != 0 {
          return;
        }
        trackedTargets := trackedTargets + [a];
        trackedTargetTimes := trackedTargetTimes + [DefaultTimes];
        StartRound(|trackedTargetTimes| - 1, now);
        return;
      }
      if |trackedTargetTimes[timesIndex].rounds| == 0 {
        if targetIndex == 0 {
          StartRound(timesIndex, now);
        }
        return;
      }
      var t := trackedTargetTimes[timesIndex];
      var n := |t.rounds| - 1;
      var round := t.rounds[n];
      if targetIndex == 0 {
        if |round.gates| <= 1 {
          return;
        }
        if |round.gates| == finishGateIndex {
          FinishRound(timesIndex, finishGateIndex, now);
          if trackedTargetTimes[timesIndex].round >= numberOfRounds {
            events := events + [RaceHasFinished];
          } else {
            StartRound(timesIndex, now);
          }
        } else {
          // Finish too early: the last gate reached is reported again.
          var lastGate := round.gates[|round.gates| - 1];
          events := events + [TimesTargetTracked(t.round, lastGate.gateIndex, lastGate.timeAtGate)];
        }
        return;
      }
      if targetIndex < finishGateIndex {
        var added := AddGateIfNext(round, targetIndex, now);
        IntermediateGateValid(t, targetIndex, now);
        trackedTargetTimes := trackedTargetTimes[timesIndex := t.(rounds := t.rounds[n := added.0])];
        events := events + [TimesTargetTracked(t.round, targetIndex, now)];
      }
    }
  }
}
