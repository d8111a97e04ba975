/** The spawn-score rule shared by UCurriculumSpawner::ComputeSpawnScore
    and ARacingCurriculumDebugActor::ComputeSpawnScore01: -1 with no
    surface, 0.05 on a wall-like surface, otherwise a product of a
    curvature factor and an uphill-pitch factor clamped into [0.05, 1]. */
module SpawnScore {
  import opened Common
  import opened TrackDistance

  /** The score settings both classes declare, with their defaults. */
  datatype ScoreSettings = ScoreSettings(
    surfaceNormalUpMin: real, pitchBadDeg: real, pitchExponent: real,
    curvatureBadInvCm: real, curvatureExponent: real)

  const DefaultScoreSettings := ScoreSettings(0.75, 8.0, 1.4, 1.0 / 1200.0, 1.6)

  /** The lowest score a sample with a surface can have. */
  const MinValidScore: real := 0.05

  /** The sign of a quotient by a positive divisor is the dividend's, and
      it reaches 1 once the dividend reaches the divisor. */
  lemma QuotientSign(x: real, y: real)
    requires y > 0.0
    ensures x / y > 0.0 <==> x > 0.0
    ensures x >= y ==> x / y >= 1.0
  {
    var q := x / y;
    assert q * y == x;
    if q > 0.0 {
      ScaleStrict(0.0, q, y);
    } else {
      ScaleBounds(q, q, 0.0, y);
    }
    if q < 1.0 {
      ScaleStrict(q, 1.0, y);
    }
  }

  /** The signed pitch, normalised by the bad pitch and clamped to [-1, 1];
      0 when no bad pitch is configured. */
  function PitchNorm(pitchDeg: real, pitchBadDeg: real): (n: real)
    ensures -1.0 <= n <= 1.0
    ensures pitchBadDeg <= 0.0 ==> n == 0.0
    ensures pitchBadDeg > 0.0 ==> (n > 0.0 <==> pitchDeg > 0.0)
    ensures pitchBadDeg > 0.0 && pitchDeg >= pitchBadDeg ==> n == 1.0
  {
    if pitchBadDeg > 0.0 then
      QuotientSign(pitchDeg, pitchBadDeg);
      UeClamp(pitchDeg / pitchBadDeg, -1.0, 1.0)
    else 0.0
  }

  /** Uphill lowers the factor linearly down to 0 at the bad pitch;
      downhill carries no penalty. */
  function PitchFactor(pitchDeg: real, pitchBadDeg: real): (f: real)
    ensures 0.0 <= f <= 1.0
    ensures pitchDeg <= 0.0 || pitchBadDeg <= 0.0 ==> f == 1.0
    ensures pitchBadDeg > 0.0 && pitchDeg >= pitchBadDeg ==> f == 0.0
    ensures pitchBadDeg > 0.0 && pitchDeg > 0.0 ==> f < 1.0
  {
    var n := PitchNorm(pitchDeg, pitchBadDeg);
    if n > 0.0 then 1.0 - n else 1.0
  }

  /** One minus the curvature normalised by the bad curvature, clamped to
      [0, 1]: 1 on a straight, 0 from the bad curvature on. */
  function CurvatureFactor(curvatureInvCm: real, curvatureBadInvCm: real): (f: real)
    ensures 0.0 <= f <= 1.0
    ensures curvatureInvCm <= 0.0 || curvatureBadInvCm <= 0.0 ==> f == 1.0
    ensures curvatureBadInvCm > 0.0 && curvatureInvCm >= curvatureBadInvCm ==> f == 0.0
  {
    if curvatureBadInvCm > 0.0 then
      QuotientSign(curvatureInvCm, curvatureBadInvCm);
      1.0 - UeClamp(curvatureInvCm / curvatureBadInvCm, 0.0, 1.0)
    else 1.0
  }

  /** The score: -1 without a surface, 0.05 when the surface normal's
      upward component is below the wall limit, otherwise the clamped
      product of the powered factors. `pow` is FMath::Pow, which is not
      modelled. A sample has a non-negative score iff it has a surface. */
  function Score(settings: ScoreSettings, hasSurface: bool, upDot: real, curvatureInvCm: real, pitchDeg: real,
                 pow: (real, real) -> real): (r: real)
    ensures !hasSurface ==> r == -1.0
    ensures hasSurface && upDot < settings.surfaceNormalUpMin ==> r == MinValidScore
    ensures hasSurface ==> MinValidScore <= r <= 1.0
    ensures r >= 0.0 <==> hasSurface
  {
    if !hasSurface then -1.0
    else if upDot < settings.surfaceNormalUpMin then MinValidScore
    else
      var curv := CurvatureFactor(curvatureInvCm, settings.curvatureBadInvCm);
      var pitch := PitchFactor(pitchDeg, settings.pitchBadDeg);
      UeClamp(pow(curv, settings.curvatureExponent) * pow(pitch, settings.pitchExponent), MinValidScore, 1.0)
  }

  /** Downhill pitch carries no penalty: any non-positive pitch scores as
      a level one. */
  lemma DownhillScoresAsLevel(settings: ScoreSettings, hasSurface: bool, upDot: real, curvatureInvCm: real,
                              pitchDeg: real, pow: (real, real) -> real)
    requires pitchDeg <= 0.0
    ensures Score(settings, hasSurface, upDot, curvatureInvCm, pitchDeg, pow) ==
            Score(settings, hasSurface, upDot, curvatureInvCm, 0.0, pow)
  {
    assert PitchFactor(pitchDeg, settings.pitchBadDeg) == 1.0 == PitchFactor(0.0, settings.pitchBadDeg);
  }

  /** A sample inside a no-spawn zone keeps a negative (no-surface) score
      and otherwise scores 0. */
  function ZoneAdjusted(score: real, inNoSpawnZone: bool): (r: real)
    ensures r >= 0.0 <==> score >= 0.0
    ensures inNoSpawnZone && score >= 0.0 ==> r == 0.0
    ensures !inNoSpawnZone ==> r == score
    ensures r <= score
  {
    if score >= 0.0 && inNoSpawnZone then 0.0 else score
  }
}
