/** UTrackFrameProviderComponent (TrackFrameProviderComponent.cpp): the
    distance bookkeeping of the track-frame provider: progress between
    successive closest-point distances, wrapped across the lap seam, the
    pending progress a consumer drains, and the lookahead distances. The
    spline itself (closest-point search, frames, resolution of the road
    spline) is outside the model: its results enter as parameters. */
module TrackFrame {
  import opened Common
  import opened TrackDistance

  /** WrapProgressDelta: unchanged for a non-positive length; otherwise a
      delta beyond half a lap either way is moved by one lap. */
  function WrapProgressDelta(delta: real, splineLen: real): (r: real)
    ensures splineLen <= 0.0 ==> r == delta
    ensures splineLen > 0.0 && -splineLen <= delta <= splineLen ==>
              -0.5 * splineLen <= r <= 0.5 * splineLen &&
              (r == delta || r == delta + splineLen || r == delta - splineLen)
    ensures splineLen > 0.0 && -0.5 * splineLen <= delta <= 0.5 * splineLen ==> r == delta
  {
    if splineLen <= 0.0 then delta
    else
      var half := 0.5 * splineLen;
      var d1 := if delta < -half then delta + splineLen else delta;
      if d1 > half then d1 - splineLen else d1
  }

  /** Between two distances on the lap the wrapped delta is the shortest
      signed way from one to the other: it reaches the new distance from
      the old modulo the lap, and reversing the move negates it. */
  lemma ProgressDeltaShortest(last: real, s: real, splineLen: real)
    requires splineLen > 0.0 && 0.0 <= last <= splineLen && 0.0 <= s <= splineLen
    ensures var r := WrapProgressDelta(s - last, splineLen);
      -0.5 * splineLen <= r <= 0.5 * splineLen &&
      (last + r == s || last + r == s + splineLen || last + r == s - splineLen)
    ensures WrapProgressDelta(last - s, splineLen) == -WrapProgressDelta(s - last, splineLen)
  {
  }

  /** The distance ComputeFrameAtDistance works at, as written: the
      target wrapped onto the lap. */
  function FrameDistanceAsWritten(target: real, splineLen: real): (r: real)
    requires splineLen > 0.0
    ensures 0.0 <= r < splineLen
  {
    WrapOnSpline(target, splineLen)
  }

  /** As written, a lookahead clamped to the end of an open spline is
      wrapped back to the start: the frame lies at distance 0, not at the
      end the clamp chose. */
  lemma ClampedEndFrameAtStart(base: real, offset: real, splineLen: real)
    requires splineLen > 0.0 && base + offset >= splineLen
    ensures UeClamp(base + offset, 0.0, splineLen) == splineLen
    ensures FrameDistanceAsWritten(UeClamp(base + offset, 0.0, splineLen), splineLen) == 0.0
  {
    assert splineLen == Laps(1, splineLen) + 0.0;
    WrapLoopedUnique(splineLen, splineLen, 0.0, 1);
  }

  /** The lookahead target for one offset: clamped into [0, L] or wrapped
      into [0, L). */
  function LookaheadTarget(base: real, offset: real, splineLen: real, clampToSplineLength: bool): (r: real)
    requires splineLen > 0.0
    ensures clampToSplineLength ==> r == UeClamp(base + offset, 0.0, splineLen)
    ensures !clampToSplineLength ==> r == WrapOnSpline(base + offset, splineLen)
    ensures 0.0 <= r <= splineLen
  {
    if clampToSplineLength then UeClamp(base + offset, 0.0, splineLen) else WrapOnSpline(base + offset, splineLen)
  }

  /** The frame distance for a lookahead target, as evidently intended: a
      clamped target is already on the spline and is kept, a wrapped one
      is wrapped again (which leaves it unchanged). */
  function LookaheadFrameDistance(target: real, splineLen: real, clampToSplineLength: bool): (r: real)
    requires splineLen > 0.0
    ensures 0.0 <= target <= splineLen ==> 0.0 <= r <= splineLen
    ensures clampToSplineLength && target == splineLen ==> r == splineLen
    ensures !clampToSplineLength ==> r == FrameDistanceAsWritten(target, splineLen)
  {
    if clampToSplineLength then target else FrameDistanceAsWritten(target, splineLen)
  }

  /** With the intended rule, clamped lookahead frames follow the offsets
      monotonically and stop at the end of the spline; wrapped ones agree
      with the as-written rule. */
  lemma LookaheadFrameDistanceIntended(base: real, o1: real, o2: real, splineLen: real)
    requires splineLen > 0.0 && o1 <= o2
    ensures LookaheadFrameDistance(LookaheadTarget(base, o1, splineLen, true), splineLen, true) <=
            LookaheadFrameDistance(LookaheadTarget(base, o2, splineLen, true), splineLen, true)
    ensures base + o2 >= splineLen ==>
              LookaheadFrameDistance(LookaheadTarget(base, o2, splineLen, true), splineLen, true) == splineLen
    ensures LookaheadFrameDistance(LookaheadTarget(base, o1, splineLen, false), splineLen, false) ==
            LookaheadTarget(base, o1, splineLen, false)
  {
    var t := LookaheadTarget(base, o1, splineLen, false);
    WrapLoopedPeriodic(t, splineLen);
  }

  /** The provider's progress state. */
  class TrackFrameProvider {
    var hasSpline: bool
    var cachedSplineLength: real
    var lastDistanceAlongSpline: real
    var hasLastDistance: bool
    var pendingProgressDelta: real

    constructor ()
      ensures !hasSpline && cachedSplineLength == 0.0
      ensures lastDistanceAlongSpline == 0.0 && !hasLastDistance && pendingProgressDelta == 0.0
    {
      hasSpline, cachedSplineLength := false, 0.0;
      lastDistanceAlongSpline, hasLastDistance, pendingProgressDelta := 0.0, false, 0.0;
    }

    /** ResetProgressTracking. */
    method ResetProgressTracking(initialDistanceAlongSpline: real)
      modifies this`lastDistanceAlongSpline, this`hasLastDistance
      ensures lastDistanceAlongSpline == initialDistanceAlongSpline && hasLastDistance
    {
      lastDistanceAlongSpline := initialDistanceAlongSpline;
      hasLastDistance := true;
    }

    /** UpdateProgressAtLocation with the closest distance `s`: nothing
        without a spline; the first call records `s` with no progress;
        later calls make the wrapped move from the last distance pending
        and record `s`. */
    method UpdateProgressAtLocation(s: real)
      modifies this`lastDistanceAlongSpline, this`hasLastDistance, this`pendingProgressDelta
      ensures !hasSpline ==> lastDistanceAlongSpline == old(lastDistanceAlongSpline) &&
                             hasLastDistance == old(hasLastDistance) &&
                             pendingProgressDelta == old(pendingProgressDelta)
      ensures hasSpline ==> lastDistanceAlongSpline == s && hasLastDistance
      ensures hasSpline && !old(hasLastDistance) ==> pendingProgressDelta == 0.0
      ensures hasSpline && old(hasLastDistance) ==>
                pendingProgressDelta == WrapProgressDelta(s - old(lastDistanceAlongSpline), cachedSplineLength)
    {
      if !hasSpline {
        return;
      }
      if !hasLastDistance {
        lastDistanceAlongSpline, hasLastDistance, pendingProgressDelta := s, true, 0.0;
        return;
      }
      var deltaS := WrapProgressDelta(s - lastDistanceAlongSpline, cachedSplineLength);
      pendingProgressDelta, lastDistanceAlongSpline := deltaS, s;
    }

    /** ConsumeProgressDeltaCm: returns the pending progress and clears it,
        so a second consume returns 0. */
    method ConsumeProgressDeltaCm() returns (out: real)
      modifies this`pendingProgressDelta
      ensures out == old(pendingProgressDelta) && pendingProgressDelta == 0.0
    {
      out := pendingProgressDelta;
      pendingProgressDelta := 0.0;
    }

    /** The progress part of ComputeFrameAtLocation at closest distance
        `s`: 0 and no change without a spline or when not updating; otherwise as
        UpdateProgressAtLocation, but reported instead of made pending. */
    method FrameProgress(s: real, updateProgressTracking: bool) returns (progressDelta: real)
      modifies this`lastDistanceAlongSpline, this`hasLastDistance
      ensures !hasSpline || !updateProgressTracking ==>
                progressDelta == 0.0 &&
                lastDistanceAlongSpline == old(lastDistanceAlongSpline) && hasLastDistance == old(hasLastDistance)
      ensures hasSpline && updateProgressTracking ==> lastDistanceAlongSpline == s && hasLastDistance
      ensures hasSpline && updateProgressTracking && !old(hasLastDistance) ==> progressDelta == 0.0
      ensures hasSpline && updateProgressTracking && old(hasLastDistance) ==>
                progressDelta == WrapProgressDelta(s - old(lastDistanceAlongSpline), cachedSplineLength)
    {
      if !hasSpline || !updateProgressTracking {
        return 0.0;
      }
      if !hasLastDistance {
        lastDistanceAlongSpline, hasLastDistance := s, true;
        return 0.0;
      }
      progressDelta := WrapProgressDelta(s - lastDistanceAlongSpline, cachedSplineLength);
      lastDistanceAlongSpline := s;
    }
  }

  /** SampleLookaheadByDistance's distances: false and none without a
      spline or with a non-positive length; otherwise one frame per offset,
      at the target's frame distance. */
  method SampleLookaheadByDistance(hasSpline: bool, splineLen: real, base: real, offsetsCm: seq<real>,
                                   clampToSplineLength: bool)
    returns (ok: bool, frameDistances: seq<real>)
    ensures !hasSpline || splineLen <= 0.0 ==> !ok && frameDistances == []
    ensures hasSpline && splineLen > 0.0 ==>
              ok && |frameDistances| == |offsetsCm| &&
              forall i :: 0 <= i < |offsetsCm| ==>
                frameDistances[i] ==
                  LookaheadFrameDistance(LookaheadTarget(base, offsetsCm[i], splineLen, clampToSplineLength),
                                         splineLen, clampToSplineLength) &&
                0.0 <= frameDistances[i] <= splineLen
  {
    frameDistances := [];
    if !hasSpline || splineLen <= 0.0 {
      return false, frameDistances;
    }
    var i := 0;
    while i < |offsetsCm|
      invariant 0 <= i <= |offsetsCm| && |frameDistances| == i
      invariant forall k :: 0 <= k < i ==>
                  frameDistances[k] ==
                    LookaheadFrameDistance(LookaheadTarget(base, offsetsCm[k], splineLen, clampToSplineLength),
                                           splineLen, clampToSplineLength) &&
                  0.0 <= frameDistances[k] <= splineLen
    {
      var target := base + offsetsCm[i];
      if clampToSplineLength {
        target := UeClamp(target, 0.0, splineLen);
      } else {
        target := WrapOnSpline(target, splineLen);
      }
      frameDistances := frameDistances + [LookaheadFrameDistance(target, splineLen, clampToSplineLength)];
      i := i + 1;
    }
    ok := true;
  }
}
