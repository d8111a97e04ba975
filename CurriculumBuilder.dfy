/** URacingCurriculumBuilder (RacingCurriculumBuilder.cpp): sampling a
    track every few metres, tagging each sample (corner, slopes, ramps),
    deriving speed and steering hints from the tags, and merging runs of
    similar samples into curriculum segments. Track geometry is what the
    track-frame provider reports; it enters as parameters. */
module CurriculumBuilder {
  import opened Common
  import opened TrackDistance
  import opened CurriculumData

  /** UE's KINDA_SMALL_NUMBER. */
  const KindaSmallNumber: real := 0.0001

  /** FRacingCurriculumBuildSettings. */
  datatype BuildSettings = BuildSettings(
    sampleStepCm: real, curvatureWindowCm: real, loopedTrack: bool,
    curvatureNormInvCm: real, cornerCurvNormThreshold: real,
    uphillTangentZThreshold: real, downhillTangentZThreshold: real,
    rampLookaheadCm: real, rampRiseThresholdCm: real, rampTangentZThreshold: real,
    suggestedSpeedStraight: real, suggestedSpeedCorner: real, suggestedSpeedDownhill: real,
    jumpMinSpeedNorm: real, jumpMaxSteer: real,
    mergeSpeedTolerance: real, mergeSteerTolerance: real)

  const DefaultSettings := BuildSettings(100.0, 150.0, true, 0.003, 0.55, 0.18, -0.18, 500.0, 60.0, 0.18,
                                         0.95, 0.55, 0.50, 0.90, 0.18, 0.05, 0.05)

  /** ComputeCurvatureInvCm: 0 without a provider or for a length of at
      most 1 cm; otherwise the change between the unit tangents a window
      behind and ahead (`tangentDelta`, at least 0), per centimetre of the
      doubled window, the window being at least 10 cm. */
  function CurvatureInvCm(hasProvider: bool, splineLengthCm: real, windowCm: real, tangentDelta: real): (r: real)
    requires tangentDelta >= 0.0
    ensures !hasProvider || splineLengthCm <= 1.0 ==> r == 0.0
    ensures r >= 0.0
    ensures hasProvider && splineLengthCm > 1.0 ==> r * (2.0 * Max(10.0, windowCm)) == tangentDelta
  {
    if !hasProvider || splineLengthCm <= 1.0 then 0.0
    else tangentDelta / Max(2.0 * Max(10.0, windowCm), 1.0)
  }

  /** What the provider reports around one sample: the base tangent's
      height component, the curvature, the height gained over the ramp
      lookahead and the tangent height there. */
  datatype Probe = Probe(slopeZ: real, curvatureInvCm: real, rise: real, aheadSlopeZ: real)

  /** BuildTagMask's outputs. */
  datatype TagSample = TagSample(mask: int, curvNormAbs: real, slopeZ: real, rampApproach: bool, onRamp: bool)

  /** Bit `b` (a power of two) of an int32 mask, read arithmetically. */
  predicate Bit(mask: int, b: int)
    requires b > 0
  {
    (mask / b) % 2 == 1
  }

  /** The mask of the five tag tests. */
  function TagBits(corner: bool, uphill: bool, downhill: bool, rampApproach: bool, onRamp: bool): (m: int)
    ensures 0 <= m < 32
    ensures Bit(m, Corner) == corner && Bit(m, Uphill) == uphill && Bit(m, Downhill) == downhill
    ensures Bit(m, RampApproach) == rampApproach && Bit(m, OnRamp) == onRamp
  {
    (if corner then Corner else 0) + (if downhill then Downhill else 0) + (if uphill then Uphill else 0) +
    (if rampApproach then RampApproach else 0) + (if onRamp then OnRamp else 0)
  }

  /** BuildTagMask: nothing without a provider or for a length of at most
      1 cm; otherwise each tag bit is set exactly when its threshold test
      holds. */
  function BuildTagMask(hasProvider: bool, splineLengthCm: real, settings: BuildSettings, probe: Probe): (t: TagSample)
    ensures !hasProvider || splineLengthCm <= 1.0 ==> t == TagSample(0, 0.0, 0.0, false, false)
    ensures hasProvider && splineLengthCm > 1.0 ==>
              t.slopeZ == probe.slopeZ && t.curvNormAbs >= 0.0 &&
              (Bit(t.mask, Corner) <==> t.curvNormAbs > settings.cornerCurvNormThreshold) &&
              (Bit(t.mask, Uphill) <==> probe.slopeZ > settings.uphillTangentZThreshold) &&
              (Bit(t.mask, Downhill) <==> probe.slopeZ < settings.downhillTangentZThreshold) &&
              (Bit(t.mask, RampApproach) <==> t.rampApproach) &&
              (t.rampApproach <==> probe.rise > settings.rampRiseThresholdCm &&
                                   probe.aheadSlopeZ > settings.rampTangentZThreshold) &&
              (Bit(t.mask, OnRamp) <==> t.onRamp) &&
              (t.onRamp <==> probe.slopeZ > settings.rampTangentZThreshold)
    ensures 0 <= t.mask < 32
  {
    if !hasProvider || splineLengthCm <= 1.0 then TagSample(0, 0.0, 0.0, false, false)
    else
      var curvNorm := if settings.curvatureNormInvCm > KindaSmallNumber
                      then probe.curvatureInvCm / settings.curvatureNormInvCm else 0.0;
      var curvNormAbs := Abs(curvNorm);
      var rampApproach := probe.rise > settings.rampRiseThresholdCm && probe.aheadSlopeZ > settings.rampTangentZThreshold;
      var onRamp := probe.slopeZ > settings.rampTangentZThreshold;
      var mask := TagBits(curvNormAbs > settings.cornerCurvNormThreshold,
                          probe.slopeZ > settings.uphillTangentZThreshold,
                          probe.slopeZ < settings.downhillTangentZThreshold, rampApproach, onRamp);
      TagSample(mask, curvNormAbs, probe.slopeZ, rampApproach, onRamp)
  }

  // ---------------------------------------------------------------------
  // Speed and steering hints, one step per reassignment of the source

  function Lerp(a: real, b: real, t: real): (r: real)
    requires 0.0 <= t <= 1.0
    ensures Min(a, b) <= r <= Max(a, b)
    ensures t == 0.0 ==> r == a
  {
    if a < b then
      ScaleBelowOne(t, b - a);
      a + Scale(t, b - a)
    else if a > b then
      ScaleBelowOne(t, a - b);
      assert Scale(t, b - a) == -Scale(t, a - b);
      a + Scale(t, b - a)
    else
      a + Scale(t, b - a)
  }

  /** Corner: speed lerps from straight toward corner speed by the
      curvature, clamped to [0, 1]. */
  function CornerSpeed(settings: BuildSettings, corner: bool, curvNormAbs: real): (speed: real)
    ensures !corner ==> speed == settings.suggestedSpeedStraight
    ensures Min(settings.suggestedSpeedStraight, settings.suggestedSpeedCorner) <= speed
    ensures speed <= Max(settings.suggestedSpeedStraight, settings.suggestedSpeedCorner)
  {
    if corner then Lerp(settings.suggestedSpeedStraight, settings.suggestedSpeedCorner, Clamp(curvNormAbs, 0.0, 1.0))
    else settings.suggestedSpeedStraight
  }

  /** The full hint rule of ComputeSpeedAndSteerHints: corner lerp,
      downhill cap, ramp floor and steering cap, then a slope brake that
      lerps toward downhill speed by the slope. Steering is capped at 1,
      and at the jump cap on ramps; without a slope brake, ramps keep at
      least the jump speed and a tagless sample keeps straight speed; a
      downhill tag without a ramp caps the speed at downhill speed. */
  function SpeedAndSteerHints(settings: BuildSettings, mask: int, curvNormAbs: real, slopeZ: real): (h: (real, real))
    ensures var ramp := Bit(mask, RampApproach) || Bit(mask, OnRamp);
      var braking := slopeZ < settings.downhillTangentZThreshold;
      h.1 <= 1.0 &&
      (ramp ==> h.1 <= settings.jumpMaxSteer) &&
      (!ramp ==> h.1 == 1.0) &&
      (ramp && !braking ==> h.0 >= settings.jumpMinSpeedNorm) &&
      (Bit(mask, Downhill) && !ramp ==> h.0 <= settings.suggestedSpeedDownhill) &&
      (!Bit(mask, Corner) && !Bit(mask, Downhill) && !ramp && !braking ==> h.0 == settings.suggestedSpeedStraight)
  {
    var s1 := CornerSpeed(settings, Bit(mask, Corner), curvNormAbs);
    var s2 := if Bit(mask, Downhill) then Min(s1, settings.suggestedSpeedDownhill) else s1;
    var ramp := Bit(mask, RampApproach) || Bit(mask, OnRamp);
    var s3 := if ramp then Max(s2, settings.jumpMinSpeedNorm) else s2;
    var steer := if ramp then Min(1.0, settings.jumpMaxSteer) else 1.0;
    var s4 := if slopeZ < settings.downhillTangentZThreshold
              then Min(s3, Lerp(s3, settings.suggestedSpeedDownhill, Clamp(Abs(slopeZ), 0.0, 1.0)))
              else s3;
    (s4, steer)
  }

  // ---------------------------------------------------------------------
  // Segment merging

  /** The builder's state between samples: the closed segments and the
      open one. */
  datatype MergeState = MergeState(out: seq<Segment>, current: Option<Segment>)

  /** A sample extends the open segment iff its tags are equal and both
      hints are within their tolerances. */
  predicate CanExtend(c: Segment, mask: int, speed: real, steer: real, settings: BuildSettings)
  {
    c.tagMask == mask && Abs(c.suggestedSpeedNorm - speed) <= settings.mergeSpeedTolerance &&
    Abs(c.maxSteerHint - steer) <= settings.mergeSteerTolerance
  }

  /** Closing a segment extends its end by one step, capped at the length. */
  function Closed(c: Segment, step: real, len: real): Segment
  {
    c.(endDistanceCm := Min(c.endDistanceCm + step, len))
  }

  /** One iteration of the sampling loop at distance `s`. */
  function MergeSample(m: MergeState, s: real, tags: TagSample, inNoSpawnZone: bool,
                       settings: BuildSettings, step: real, len: real): (r: MergeState)
    ensures inNoSpawnZone ==> r.current == None
    ensures !inNoSpawnZone ==> r.current.Some? && r.current.value.endDistanceCm == s
    ensures !inNoSpawnZone && m.current.Some? ==>
              var (speed, steer) := SpeedAndSteerHints(settings, tags.mask, tags.curvNormAbs, tags.slopeZ);
              (r.out == m.out <==> CanExtend(m.current.value, tags.mask, speed, steer, settings))
    ensures |m.out| <= |r.out| <= |m.out| + 1 && r.out[..|m.out|] == m.out
  {
    if inNoSpawnZone then
      if m.current.Some? then MergeState(m.out + [Closed(m.current.value, step, len)], None) else m
    else
      var (speed, steer) := SpeedAndSteerHints(settings, tags.mask, tags.curvNormAbs, tags.slopeZ);
      var started := Segment(s, s, tags.mask, speed, steer);
      if m.current.None? then MergeState(m.out, Some(started))
      else if CanExtend(m.current.value, tags.mask, speed, steer, settings) then
        MergeState(m.out, Some(m.current.value.(endDistanceCm := s)))
      else MergeState(m.out + [Closed(m.current.value, step, len)], Some(started))
  }

  /** The state after the first `k` samples, at distances 0, step, 2 step … */
  function MergeUpTo(k: nat, probeAt: real -> Probe, inZoneAt: real -> bool,
                     settings: BuildSettings, step: real, len: real): MergeState
  {
    if k == 0 then MergeState([], None)
    else
      var s := Laps(k - 1, step);
      MergeSample(MergeUpTo(k - 1, probeAt, inZoneAt, settings, step, len), s,
                  BuildTagMask(true, len, settings, probeAt(s)), inZoneAt(s), settings, step, len)
  }

  /** After the loop the open segment ends at the track length. */
  function Finish(m: MergeState, len: real): seq<Segment>
  {
    if m.current.Some? then m.out + [m.current.value.(endDistanceCm := len)] else m.out
  }

  predicate WellFormed(seg: Segment, len: real)
  {
    0.0 <= seg.startDistanceCm <= seg.endDistanceCm <= len
  }

  /** Segments lie on the track and start strictly later one after the
      other. */
  predicate Ordered(segs: seq<Segment>, len: real)
  {
    (forall k :: 0 <= k < |segs| ==> WellFormed(segs[k], len)) &&
    (forall j, k :: 0 <= j < k < |segs| ==> segs[j].startDistanceCm < segs[k].startDistanceCm)
  }

  /** The merge state after a sample at `last`: closed segments ordered and
      starting no later than `last`, and an open segment that started
      after all of them and ends at `last`. */
  predicate MergeInvariant(m: MergeState, last: real, len: real)
  {
    0.0 <= last < len && Ordered(m.out, len) &&
    (forall k :: 0 <= k < |m.out| ==> m.out[k].startDistanceCm <= last) &&
    (m.current.Some? ==>
       0.0 <= m.current.value.startDistanceCm <= m.current.value.endDistanceCm == last &&
       forall k :: 0 <= k < |m.out| ==> m.out[k].startDistanceCm < m.current.value.startDistanceCm)
  }

  lemma MergeSampleKeepsOrder(m: MergeState, last: real, s: real, tags: TagSample, inNoSpawnZone: bool,
                              settings: BuildSettings, step: real, len: real)
    requires (m == MergeState([], None) && 0.0 <= s < len) || (MergeInvariant(m, last, len) && last < s < len)
    requires step > 0.0
    ensures MergeInvariant(MergeSample(m, s, tags, inNoSpawnZone, settings, step, len), s, len)
  {
    var r := MergeSample(m, s, tags, inNoSpawnZone, settings, step, len);
    if m.current.Some? && r.out != m.out {
      var c := m.current.value;
      assert r.out == m.out + [Closed(c, step, len)];
      assert WellFormed(Closed(c, step, len), len);
    }
  }

  /** Finishing keeps the order, and the open segment ends at the length. */
  lemma FinishOrdered(m: MergeState, last: real, len: real)
    requires MergeInvariant(m, last, len)
    ensures Ordered(Finish(m, len), len)
    ensures m.current.Some? ==> Finish(m, len)[|Finish(m, len)| - 1].endDistanceCm == len
  {
  }

  /** One more sample below the length keeps the merge invariant, stays
      below the sample count, and advances the distance by one step. */
  lemma MergeUpToStep(i: nat, probeAt: real -> Probe, inZoneAt: real -> bool,
                      settings: BuildSettings, step: real, len: real)
    requires step > 0.0 && Laps(i, step) < len
    requires i > 0 ==> MergeInvariant(MergeUpTo(i, probeAt, inZoneAt, settings, step, len), Laps(i - 1, step), len)
    ensures i < Ceil(len / step) && Laps(i + 1, step) == Laps(i, step) + step && Laps(i + 1, step) >= 0.0
    ensures MergeInvariant(MergeUpTo(i + 1, probeAt, inZoneAt, settings, step, len), Laps(i, step), len)
  {
    SampleBelowCount(i, step, len);
    LapsNonNegative(i, step);
    if i > 0 {
      LapsNonNegative(i - 1, step);
    }
    var s := Laps(i, step);
    MergeSampleKeepsOrder(MergeUpTo(i, probeAt, inZoneAt, settings, step, len), if i > 0 then Laps(i - 1, step) else 0.0,
                          s, BuildTagMask(true, len, settings, probeAt(s)), inZoneAt(s), settings, step, len);
  }

  /** One pass of the sampling loop on the builder's local variables: a
      sample in a no-spawn zone closes the open segment; otherwise it
      starts a segment, extends the open one, or closes it and starts
      another. */
  method MergeStep(out: seq<Segment>, current: Segment, hasCurrent: bool, s: real, tags: TagSample,
                   inNoSpawnZone: bool, settings: BuildSettings, step: real, len: real)
    returns (out': seq<Segment>, current': Segment, hasCurrent': bool)
    ensures MergeState(out', if hasCurrent' then Some(current') else None)
         == MergeSample(MergeState(out, if hasCurrent then Some(current) else None), s, tags, inNoSpawnZone,
                        settings, step, len)
  {
    out', current', hasCurrent' := out, current, hasCurrent;
    if inNoSpawnZone {
      if hasCurrent' {
        current' := current'.(endDistanceCm := Min(current'.endDistanceCm + step, len));
        out' := out' + [current'];
        hasCurrent' := false;
      }
    } else {
      var (speed, steer) := SpeedAndSteerHints(settings, tags.mask, tags.curvNormAbs, tags.slopeZ);
      if !hasCurrent' {
        current' := Segment(s, s, tags.mask, speed, steer);
        hasCurrent' := true;
      } else if CanExtend(current', tags.mask, speed, steer, settings) {
        current' := current'.(endDistanceCm := s);
      } else {
        current' := current'.(endDistanceCm := Min(current'.endDistanceCm + step, len));
        out' := out' + [current'];
        current' := Segment(s, s, tags.mask, speed, steer);
      }
    }
  }

  /** BuildFromTrackProvider: false with no segments when the provider or
      its spline is missing or the length is at most 1 cm. Otherwise the
      track is sampled every max(10, SampleStepCm) from 0 while below the
      length, and the merged segments are returned; the result is true iff
      there is at least one segment. */
  method BuildFromTrackProvider(hasProvider: bool, splineLengthCm: real, settings: BuildSettings,
                                probeAt: real -> Probe, inZoneAt: real -> bool)
    returns (ok: bool, outSplineLengthCm: real, segments: seq<Segment>)
    ensures !hasProvider || splineLengthCm <= 1.0 ==> !ok && segments == []
    ensures ok <==> |segments| > 0
    ensures hasProvider && splineLengthCm > 1.0 ==>
              outSplineLengthCm == splineLengthCm &&
              var step := Max(10.0, settings.sampleStepCm);
              segments == Finish(MergeUpTo(Ceil(splineLengthCm / step), probeAt, inZoneAt, settings, step,
                                           splineLengthCm), splineLengthCm) &&
              Ordered(segments, splineLengthCm)
  {
    segments := [];
    outSplineLengthCm := if hasProvider then splineLengthCm else 0.0;
    if !hasProvider || splineLengthCm <= 1.0 {
      return false, outSplineLengthCm, segments;
    }
    var step := Max(10.0, settings.sampleStepCm);
    var len := splineLengthCm;
    var out: seq<Segment> := [];
    var current: Segment := Segment(0.0, 0.0, 0, 0.8, 1.0);
    var hasCurrent := false;
    var s := 0.0;
    ghost var i: nat := 0;
    while s < len
      invariant s == Laps(i, step) && s >= 0.0
      invariant i == 0 || Laps(i - 1, step) < len
      invariant MergeUpTo(i, probeAt, inZoneAt, settings, step, len) ==
                  MergeState(out, if hasCurrent then Some(current) else None)
      invariant i > 0 ==> MergeInvariant(MergeUpTo(i, probeAt, inZoneAt, settings, step, len), Laps(i - 1, step), len)
      decreases Ceil(len / step) - i
    {
      MergeUpToStep(i, probeAt, inZoneAt, settings, step, len);
      out, current, hasCurrent := MergeStep(out, current, hasCurrent, s, BuildTagMask(true, len, settings, probeAt(s)),
                                            inZoneAt(s), settings, step, len);
      s := s + step;
      i := i + 1;
    }
    SampleCountExact(i, step, len);
    if hasCurrent {
      current := current.(endDistanceCm := len);
      out := out + [current];
    }
    segments := out;
    if i > 0 {
      FinishOrdered(MergeUpTo(i, probeAt, inZoneAt, settings, step, len), Laps(i - 1, step), len);
    }
    ok := |segments| > 0;
  }
}
