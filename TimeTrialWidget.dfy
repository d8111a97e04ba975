/** The lap display of UTimeTrialUserWidget (TimeTrialUserWidget.cpp):
    lap count, lap start, last and best lap time, fed by the time-trial
    component's gate broadcasts. */
module TimeTrialWidget {
  import opened Common

  /** The best-lap rule of UpdateLapCount for a lap after the first: a lap
      time replaces the best when none is recorded (best < 0) or it is
      strictly smaller. */
  function NextBestLap(best: real, lapTime: real): (r: real)
    ensures best < 0.0 ==> r == lapTime
    ensures best >= 0.0 ==> r == Min(best, lapTime)
  {
    if best < 0.0 || lapTime < best then lapTime else best
  }

  /** The best lap after the completed laps `laps`, from the reset value -1. */
  function BestLap(laps: seq<real>): real
  {
    if laps == [] then -1.0 else NextBestLap(BestLap(laps[..|laps| - 1]), laps[|laps| - 1])
  }

  function MinLap(s: seq<real>): (m: real)
    requires |s| > 0
    ensures m in s && forall k :: 0 <= k < |s| ==> m <= s[k]
  {
    if |s| == 1 then s[0] else Min(MinLap(s[..|s| - 1]), s[|s| - 1])
  }

  /** With non-negative lap times the best lap is the minimum of the
      completed laps. */
  lemma {:induction false} BestLapIsMinimum(laps: seq<real>)
    requires |laps| > 0
    requires forall k :: 0 <= k < |laps| ==> laps[k] >= 0.0
    ensures BestLap(laps) == MinLap(laps)
  {
    if |laps| > 1 {
      var init := laps[..|laps| - 1];
      assert forall k :: 0 <= k < |init| ==> init[k] == laps[k];
      BestLapIsMinimum(init);
    }
  }

  /** UTimeTrialUserWidget's lap state. `completedLaps` records the lap
      times since lap 1 started; the widget itself only keeps their best. */
  class LapWidget {
    var lastLapTime: real
    var bestLapTime: real
    var lapStartTime: real
    var currentLap: int
    var gateTimes: seq<real>
    ghost var completedLaps: seq<real>

    ghost predicate Valid()
      reads this
    {
      bestLapTime == BestLap(completedLaps)
    }

    constructor ()
      ensures Valid()
      ensures lastLapTime == 0.0 && bestLapTime == -1.0 && lapStartTime == 0.0 && currentLap == 0
      ensures gateTimes == [] && completedLaps == []
    {
      lastLapTime, bestLapTime, lapStartTime, currentLap := 0.0, -1.0, 0.0, 0;
      gateTimes := [];
      completedLaps := [];
    }

    /** UpdateLapCount: lap `lap` starts at `newLapStartTime`. Lap 1 (or
        lower) clears the best lap; a later lap completes the previous one,
        whose time is the gap since the last lap start. */
    method UpdateLapCount(lap: int, newLapStartTime: real)
      requires Valid()
      modifies this`lastLapTime, this`bestLapTime, this`lapStartTime, this`currentLap, this`completedLaps
      ensures Valid()
      ensures lapStartTime == newLapStartTime && currentLap == lap && lastLapTime == newLapStartTime
      ensures lap <= 1 ==> bestLapTime == -1.0 && completedLaps == []
      ensures lap > 1 ==> completedLaps == old(completedLaps) + [newLapStartTime - old(lastLapTime)]
      ensures lap > 1 ==> bestLapTime == NextBestLap(old(bestLapTime), newLapStartTime - old(lastLapTime))
    {
      lapStartTime := newLapStartTime;
      var lapTime := newLapStartTime - lastLapTime;
      if lap > 1 {
        if bestLapTime < 0.0 || lapTime < bestLapTime {
          bestLapTime := lapTime;
        }
        completedLaps := completedLaps + [lapTime];
        assert completedLaps[..|completedLaps| - 1] == old(completedLaps);
      } else {
        bestLapTime := -1.0;
        completedLaps := [];
      }
      currentLap := lap;
      lastLapTime := newLapStartTime;
    }

    /** UpdateLapTimes: gate 0 starts a lap; any other gate reports its time
        since the lap start (appended to `gateTimes`, the gate-time
        broadcast) and leaves the lap state alone. */
    method UpdateLapTimes(lap: int, gateIndex: int, time: real)
      requires Valid()
      modifies this
      ensures Valid()
      ensures gateIndex == 0 ==>
                lapStartTime == time && currentLap == lap && lastLapTime == time && gateTimes == old(gateTimes)
      ensures gateIndex == 0 && lap > 1 ==>
                completedLaps == old(completedLaps) + [time - old(lastLapTime)] &&
                bestLapTime == NextBestLap(old(bestLapTime), time - old(lastLapTime))
      ensures gateIndex == 0 && lap <= 1 ==> bestLapTime == -1.0 && completedLaps == []
      ensures gateIndex != 0 ==>
                gateTimes == old(gateTimes) + [time - old(lapStartTime)] &&
                lapStartTime == old(lapStartTime) && currentLap == old(currentLap) &&
                lastLapTime == old(lastLapTime) && bestLapTime == old(bestLapTime) &&
                completedLaps == old(completedLaps)
    {
      if gateIndex == 0 {
        UpdateLapCount(lap, time);
      } else {
        gateTimes := gateTimes + [time - lapStartTime];
      }
    }
  }
}
