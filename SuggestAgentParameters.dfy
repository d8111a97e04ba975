/** suggest_agent_parameters.py: the recommended normalisation constants
    and reward weights for the racing agent component, derived from the
    track width, the car's top speed, the tightest curve radius, the track
    length, the track type and the difficulty. Each suggestion is a
    clamped formula with a fixed default when its input is missing; the
    explanatory note strings are not modelled. */
module SuggestAgentParameters {
  import opened Common

  const DefaultTrackHalfWidthCm: real := 500.0
  const DefaultHeadingNormRad: real := 0.8
  const DefaultSpeedNormCmPerSec: real := 4500.0
  const DefaultAngVelNormDegPerSec: real := 220.0
  const DefaultCurvatureNormInvCm: real := 0.0025
  const DefaultLookaheadOffsetsCm: seq<real> := [200.0, 600.0, 1200.0, 2000.0]

  /** Python's `math.pi`, the double nearest to pi. */
  const Pi: real := 3.141592653589793

  /** `math.degrees`. */
  function Degrees(rad: real): real
  {
    rad * (180.0 / Pi)
  }

  /** `min(hi, max(lo, x))`, the order every suggestion applies its bounds in. */
  function Bound(x: real, lo: real, hi: real): (r: real)
    requires lo <= hi
    ensures r == Clamp(x, lo, hi)
  {
    Min(hi, Max(lo, x))
  }

  /** Bounding is monotone in the value and in both bounds. */
  lemma BoundMonotone(x: real, lo: real, hi: real, x': real, lo': real, hi': real)
    requires lo <= hi && lo' <= hi'
    requires x <= x' && lo <= lo' && hi <= hi'
    ensures Bound(x, lo, hi) <= Bound(x', lo', hi')
  {
  }

  /** `suggest_track_half_width`: half the track width within [100, 2000] cm,
      500 without input. */
  function SuggestTrackHalfWidth(trackWidthCm: Option<real>): (r: real)
    ensures trackWidthCm.None? ==> r == DefaultTrackHalfWidthCm
    ensures trackWidthCm.Some? ==> r == Clamp(trackWidthCm.value / 2.0, 100.0, 2000.0)
  {
    match trackWidthCm
    case None => DefaultTrackHalfWidthCm
    case Some(w) => Bound(w / 2.0, 100.0, 2000.0)
  }

  /** A wider track never gets a smaller half width, and the suggestion
      always lies in [100, 2000] cm. */
  lemma TrackHalfWidthMonotone(w: real, w': real)
    requires w <= w'
    ensures SuggestTrackHalfWidth(Some(w)) <= SuggestTrackHalfWidth(Some(w'))
    ensures 100.0 <= SuggestTrackHalfWidth(Some(w)) <= 2000.0
  {
    BoundMonotone(w / 2.0, 100.0, 2000.0, w' / 2.0, 100.0, 2000.0);
  }

  /** The speed norm for a top speed in m/s: 1.3 times the speed in cm/s,
      within [1000, 10000] cm/s. */
  function SpeedNormOfMs(ms: real): (r: real)
    ensures 1000.0 <= r <= 10000.0
  {
    Bound(ms * 100.0 * 1.3, 1000.0, 10000.0)
  }

  /** `suggest_speed_norm` with the evidently intended note: the m/s figure
      when given, otherwise the km/h figure divided by 3.6; the default
      4500 cm/s when neither is given. */
  function SuggestSpeedNorm(maxSpeedKmh: Option<real>, maxSpeedMs: Option<real>): (r: real)
    ensures maxSpeedKmh.None? && maxSpeedMs.None? ==> r == DefaultSpeedNormCmPerSec
    ensures maxSpeedMs.Some? ==> r == Clamp(maxSpeedMs.value * 100.0 * 1.3, 1000.0, 10000.0)
    ensures maxSpeedMs.None? && maxSpeedKmh.Some? ==>
              r == Clamp(maxSpeedKmh.value / 3.6 * 100.0 * 1.3, 1000.0, 10000.0)
    ensures 1000.0 <= r <= 10000.0
  {
    match maxSpeedMs
    case Some(ms) => SpeedNormOfMs(ms)
    case None =>
      match maxSpeedKmh
      case None => DefaultSpeedNormCmPerSec
      case Some(kmh) => SpeedNormOfMs(kmh / 3.6)
  }

  /** `suggest_speed_norm` as written: the note formats the km/h figure
      with `:.0f`, which raises a `TypeError` when only the m/s figure was
      given; the raise is `None`. */
  function SuggestSpeedNormAsWritten(maxSpeedKmh: Option<real>, maxSpeedMs: Option<real>): (r: Option<real>)
    ensures r.None? <==> maxSpeedKmh.None? && maxSpeedMs.Some?
  {
    match maxSpeedMs
    case None =>
      (match maxSpeedKmh
       case None => Some(DefaultSpeedNormCmPerSec)
       case Some(kmh) => Some(SpeedNormOfMs(kmh / 3.6)))
    case Some(ms) => if maxSpeedKmh.None? then None else Some(SpeedNormOfMs(ms))
  }

  /** The written version agrees with the intended one wherever it does not
      raise. */
  lemma SpeedNormAsWrittenAgrees(maxSpeedKmh: Option<real>, maxSpeedMs: Option<real>)
    requires maxSpeedKmh.Some? || maxSpeedMs.None?
    ensures SuggestSpeedNormAsWritten(maxSpeedKmh, maxSpeedMs) == Some(SuggestSpeedNorm(maxSpeedKmh, maxSpeedMs))
  {
  }

  /** `--max-speed-ms 30` without `--max-speed` ends the script with a
      `TypeError`. */
  lemma SpeedNormMsOnlyRaises()
    ensures SuggestSpeedNormAsWritten(None, Some(30.0)).None?
    ensures SuggestSpeedNorm(None, Some(30.0)) == 3900.0
  {
  }

  /** Giving the top speed in km/h is the same as giving it in m/s, and a
      faster car never gets a smaller speed norm. */
  lemma SpeedNormUnits(kmh: real, kmh': real)
    requires kmh <= kmh'
    ensures SuggestSpeedNorm(Some(kmh), None) == SuggestSpeedNorm(None, Some(kmh / 3.6))
    ensures SuggestSpeedNorm(Some(kmh), None) <= SuggestSpeedNorm(Some(kmh'), None)
  {
    BoundMonotone(kmh / 3.6 * 100.0 * 1.3, 1000.0, 10000.0, kmh' / 3.6 * 100.0 * 1.3, 1000.0, 10000.0);
  }

  /** The curvature norm for a radius in cm: 1/(4r) within [0.0001, 0.01];
      a zero radius raises `ZeroDivisionError`, modelled as `None`. */
  function CurvatureNormOfCm(radiusCm: real): (r: Option<real>)
    ensures r.None? <==> radiusCm == 0.0
    ensures r.Some? ==> r.value == Clamp(1.0 / (4.0 * radiusCm), 0.0001, 0.01)
  {
    if radiusCm == 0.0 then None else Some(Bound(1.0 / (4.0 * radiusCm), 0.0001, 0.01))
  }

  /** `suggest_curvature_norm`: the radius in m takes precedence and is
      converted to cm; without either the default 0.0025. */
  function SuggestCurvatureNorm(minRadiusCm: Option<real>, minRadiusM: Option<real>): (r: Option<real>)
    ensures minRadiusCm.None? && minRadiusM.None? ==> r == Some(DefaultCurvatureNormInvCm)
    ensures minRadiusM.Some? ==> r == CurvatureNormOfCm(minRadiusM.value * 100.0)
    ensures minRadiusM.None? && minRadiusCm.Some? ==> r == CurvatureNormOfCm(minRadiusCm.value)
    ensures r.Some? ==> 0.0001 <= r.value <= 0.01
  {
    match minRadiusM
    case Some(m) => CurvatureNormOfCm(m * 100.0)
    case None =>
      match minRadiusCm
      case None => Some(DefaultCurvatureNormInvCm)
      case Some(cm) => CurvatureNormOfCm(cm)
  }

  /** A tighter curve never gets a smaller curvature norm. */
  lemma CurvatureNormAntitone(r: real, r': real)
    requires 0.0 < r <= r'
    ensures CurvatureNormOfCm(r').value <= CurvatureNormOfCm(r).value
  {
    assert 1.0 / (4.0 * r') <= 1.0 / (4.0 * r) by {
      DivAntitone(4.0 * r, 4.0 * r');
    }
    BoundMonotone(1.0 / (4.0 * r'), 0.0001, 0.01, 1.0 / (4.0 * r), 0.0001, 0.01);
  }

  lemma DivAntitone(a: real, b: real)
    requires 0.0 < a <= b
    ensures 1.0 / b <= 1.0 / a
  {
    assert 1.0 / b * b == 1.0 && 1.0 / a * a == 1.0;
    assert (1.0 / b) * a <= (1.0 / b) * b;
  }

  /** `suggest_heading_norm`: 1.0 rad for sharp curves, 0.6 for gentle
      ones, and the standard 0.8 for "standard" and any other type. */
  function SuggestHeadingNorm(trackType: string): (r: real)
    ensures trackType != "sharp" && trackType != "gentle" ==> r == DefaultHeadingNormRad
    ensures trackType == "sharp" ==> r > DefaultHeadingNormRad
    ensures trackType == "gentle" ==> r < DefaultHeadingNormRad
  {
    if trackType == "sharp" then 1.0
    else if trackType == "gentle" then 0.6
    else 0.8
  }

  /** `suggest_ang_vel_norm`: 1.5 times the top angular velocity v/r in
      degrees per second, within [50, 500]; 220 when either input is
      missing; a zero radius raises `ZeroDivisionError` (`None`). */
  function SuggestAngVelNorm(maxSpeedMs: Option<real>, minRadiusM: Option<real>): (r: Option<real>)
    ensures maxSpeedMs.None? || minRadiusM.None? ==> r == Some(DefaultAngVelNormDegPerSec)
    ensures maxSpeedMs.Some? && minRadiusM.Some? ==>
              (r.None? <==> minRadiusM.value == 0.0) &&
              (r.Some? ==> r.value == Clamp(Degrees(maxSpeedMs.value / minRadiusM.value) * 1.5, 50.0, 500.0))
    ensures r.Some? ==> 50.0 <= r.value <= 500.0
  {
    if maxSpeedMs.None? || minRadiusM.None? then Some(DefaultAngVelNormDegPerSec)
    else if minRadiusM.value == 0.0 then None
    else Some(Bound(Degrees(maxSpeedMs.value / minRadiusM.value) * 1.5, 50.0, 500.0))
  }

  const LookaheadPercentages: seq<real> := [0.02, 0.06, 0.12, 0.20]
  const LookaheadMinCm: seq<real> := [100.0, 300.0, 600.0, 1000.0]
  const LookaheadMaxCm: seq<real> := [500.0, 1500.0, 3000.0, 5000.0]

  /** `[track_length_cm * p for p in percentages]`. */
  function RawLookahead(trackLengthCm: real): (r: seq<real>)
    ensures |r| == 4 && forall i :: 0 <= i < 4 ==> r[i] == trackLengthCm * LookaheadPercentages[i]
  {
    [trackLengthCm * 0.02, trackLengthCm * 0.06, trackLengthCm * 0.12, trackLengthCm * 0.20]
  }

  /** `suggest_lookahead_offsets`: the length in cm takes precedence; 2%,
      6%, 12% and 20% of it, each bounded by its own minimum and maximum;
      the default offsets without input. */
  method SuggestLookaheadOffsets(trackLengthM: Option<real>, trackLengthCm: Option<real>) returns (suggested: seq<real>)
    ensures trackLengthM.None? && trackLengthCm.None? ==> suggested == DefaultLookaheadOffsetsCm
    ensures trackLengthM.Some? || trackLengthCm.Some? ==>
              var cm := if trackLengthCm.Some? then trackLengthCm.value else trackLengthM.value * 100.0;
              |suggested| == 4 &&
              forall i :: 0 <= i < 4 ==>
                suggested[i] == Clamp(cm * LookaheadPercentages[i], LookaheadMinCm[i], LookaheadMaxCm[i])
  {
    var cm: real;
    if trackLengthCm.None? {
      if trackLengthM.None? {
        return DefaultLookaheadOffsetsCm;
      }
      cm := trackLengthM.value * 100.0;
    } else {
      cm := trackLengthCm.value;
    }
    suggested := RawLookahead(cm);
    var i := 0;
    while i < |suggested|
      invariant |suggested| == 4 && i <= 4
      invariant forall k :: 0 <= k < i ==>
                  suggested[k] == Clamp(cm * LookaheadPercentages[k], LookaheadMinCm[k], LookaheadMaxCm[k])
      invariant forall k :: i <= k < 4 ==> suggested[k] == cm * LookaheadPercentages[k]
    {
      suggested := suggested[i := Max(LookaheadMinCm[i], Min(suggested[i], LookaheadMaxCm[i]))];
      i := i + 1;
    }
  }

  /** The bounded offsets, as a function of the length in cm. */
  function LookaheadOffsets(cm: real): (r: seq<real>)
    ensures |r| == 4
    ensures forall i :: 0 <= i < 4 ==> r[i] == Clamp(cm * LookaheadPercentages[i], LookaheadMinCm[i], LookaheadMaxCm[i])
  {
    [Clamp(cm * 0.02, 100.0, 500.0), Clamp(cm * 0.06, 300.0, 1500.0),
     Clamp(cm * 0.12, 600.0, 3000.0), Clamp(cm * 0.20, 1000.0, 5000.0)]
  }

  /** For any track length the four offsets look strictly further ahead
      one after the other, each within its own bounds. */
  lemma LookaheadAscending(cm: real)
    ensures forall i :: 0 <= i < 4 ==> LookaheadMinCm[i] <= LookaheadOffsets(cm)[i] <= LookaheadMaxCm[i]
    ensures forall i, j :: 0 <= i < j < 4 ==> LookaheadOffsets(cm)[i] < LookaheadOffsets(cm)[j]
  {
    var r := LookaheadOffsets(cm);
    if cm >= 0.0 {
      forall i | 0 <= i < 3 ensures r[i] <= r[i + 1] {
        assert cm * LookaheadPercentages[i] <= cm * LookaheadPercentages[i + 1];
        BoundMonotone(cm * LookaheadPercentages[i], LookaheadMinCm[i], LookaheadMaxCm[i],
                      cm * LookaheadPercentages[i + 1], LookaheadMinCm[i + 1], LookaheadMaxCm[i + 1]);
      }
    }
  }

  /** The reward weights for a difficulty. */
  datatype RewardWeights = RewardWeights(lateral: real, heading: real, speed: real, progress: real)

  const MediumRewardWeights := RewardWeights(-0.15, -0.15, 0.2, 1.0)

  /** `suggest_reward_weights`: four difficulty levels; any other name gets
      the medium weights. */
  function SuggestRewardWeights(difficulty: string): (r: RewardWeights)
    ensures difficulty !in {"easy", "hard", "very_hard"} ==> r == MediumRewardWeights
    ensures r.lateral == r.heading < 0.0 && r.speed > 0.0 && r.progress >= 1.0
  {
    if difficulty == "easy" then RewardWeights(-0.10, -0.10, 0.3, 1.2)
    else if difficulty == "hard" then RewardWeights(-0.25, -0.25, 0.15, 1.0)
    else if difficulty == "very_hard" then RewardWeights(-0.4, -0.4, 0.1, 1.0)
    else MediumRewardWeights
  }

  /** Harder levels punish deviations more and reward speed less. */
  lemma HarderIsStricter()
    ensures var levels := ["easy", "medium", "hard", "very_hard"];
            forall i :: 0 <= i < 3 ==>
              SuggestRewardWeights(levels[i + 1]).lateral < SuggestRewardWeights(levels[i]).lateral &&
              SuggestRewardWeights(levels[i + 1]).speed < SuggestRewardWeights(levels[i]).speed
  {
  }
}
