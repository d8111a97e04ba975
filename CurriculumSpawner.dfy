/** UCurriculumSpawner (CurriculumSpawner.cpp): sampling spawn candidates
    along the track spline and selecting the cars' spawn points among them,
    either spread evenly over the usable stretch or by best score. Surface
    traces, no-spawn-zone tests and spline geometry enter as parameters. */
module CurriculumSpawner {
  import opened Common
  import opened TrackDistance
  import opened SpawnScore

  /** FCurriculumSpawnCandidate, without its transform. */
  datatype SpawnCandidate = SpawnCandidate(distanceAlongSpline: real, validSurface: bool, spawnScore01: real)

  const DefaultSampleStepCm: real := 200.0
  const MinSampleStepCm: real := 50.0

  /** What a surface trace and the spline report at one distance. */
  datatype SurfaceProbe = SurfaceProbe(hasSurface: bool, upDot: real, curvatureInvCm: real, pitchDeg: real,
                                       inNoSpawnZone: bool)

  /** One candidate of BuildSpawnCandidates: the score of its probe, 0 when
      a scored sample lies in a no-spawn zone. */
  function CandidateAt(s: real, probe: SurfaceProbe, settings: ScoreSettings, pow: (real, real) -> real): (c: SpawnCandidate)
    ensures c.distanceAlongSpline == s && c.validSurface == probe.hasSurface
    ensures c.spawnScore01 >= 0.0 <==> probe.hasSurface
    ensures probe.hasSurface && probe.inNoSpawnZone ==> c.spawnScore01 == 0.0
    ensures probe.hasSurface && !probe.inNoSpawnZone ==> MinValidScore <= c.spawnScore01 <= 1.0
  {
    var score := Score(settings, probe.hasSurface, probe.upDot, probe.curvatureInvCm, probe.pitchDeg, pow);
    SpawnCandidate(s, probe.hasSurface, ZoneAdjusted(score, probe.inNoSpawnZone))
  }

  /** BuildSpawnCandidates: none without a world or spline or for a length
      of at most 1 cm; otherwise one candidate per step of at least 50 cm,
      at distances i·step for i below Ceil(length / step). */
  method BuildSpawnCandidates(hasWorld: bool, hasSpline: bool, splineLengthCm: real, sampleStepCm: real,
                              settings: ScoreSettings, probeAt: real -> SurfaceProbe, pow: (real, real) -> real)
    returns (candidates: seq<SpawnCandidate>)
    ensures !hasWorld || !hasSpline || splineLengthCm <= 1.0 ==> candidates == []
    ensures hasWorld && hasSpline && splineLengthCm > 1.0 ==>
              var step := Max(MinSampleStepCm, sampleStepCm);
              |candidates| == Ceil(splineLengthCm / step) &&
              forall i :: 0 <= i < |candidates| ==>
                candidates[i] == CandidateAt(Laps(i, step), probeAt(Laps(i, step)), settings, pow)
  {
    candidates := [];
    if !hasWorld || !hasSpline || splineLengthCm <= 1.0 {
      return;
    }
    var step := Max(MinSampleStepCm, sampleStepCm);
    var numSamples := Ceil(splineLengthCm / step);
    SampleCountPositive(splineLengthCm, step);
    var i := 0;
    while i < numSamples
      invariant 0 <= i <= numSamples && |candidates| == i
      invariant forall k :: 0 <= k < i ==> candidates[k] == CandidateAt(Laps(k, step), probeAt(Laps(k, step)), settings, pow)
    {
      var s := Laps(i, step);
      candidates := candidates + [CandidateAt(s, probeAt(s), settings, pow)];
      i := i + 1;
    }
  }

  lemma SampleCountPositive(len: real, step: real)
    requires len > 0.0 && step > 0.0
    ensures Ceil(len / step) >= 1
  {
    QuotientSign(len, step);
  }

  /** The candidates lie on the track, in strictly increasing distance. */
  lemma CandidatesAlongTrack(candidates: seq<SpawnCandidate>, splineLengthCm: real, step: real)
    requires step > 0.0 && |candidates| == Ceil(splineLengthCm / step)
    requires forall i :: 0 <= i < |candidates| ==> candidates[i].distanceAlongSpline == Laps(i, step)
    ensures forall i :: 0 <= i < |candidates| ==> 0.0 <= candidates[i].distanceAlongSpline < splineLengthCm
    ensures forall i, j :: 0 <= i < j < |candidates| ==>
              candidates[i].distanceAlongSpline < candidates[j].distanceAlongSpline
  {
    forall i | 0 <= i < |candidates|
      ensures 0.0 <= candidates[i].distanceAlongSpline < splineLengthCm
    {
      SampleInsideLength(i, step, splineLengthCm);
    }
    forall i, j | 0 <= i < j < |candidates|
      ensures candidates[i].distanceAlongSpline < candidates[j].distanceAlongSpline
    {
      LapsIncreasing(i, j, step);
    }
  }

  // ---------------------------------------------------------------------
  // Selection

  /** The first filter keeps surfaces scoring at least the minimum; the
      fallback keeps surfaces scoring above 0. */
  predicate Usable(c: SpawnCandidate, minScore: real, fallback: bool)
  {
    c.validSurface && (if fallback then c.spawnScore01 > 0.0 else c.spawnScore01 >= minScore)
  }

  /** The usable candidates in their original order. */
  function FilterUsable(s: seq<SpawnCandidate>, minScore: real, fallback: bool): (r: seq<SpawnCandidate>)
    ensures |r| <= |s|
    ensures forall k :: 0 <= k < |r| ==> r[k] in s && Usable(r[k], minScore, fallback)
  {
    if s == [] then []
    else
      var init := FilterUsable(s[..|s| - 1], minScore, fallback);
      if Usable(s[|s| - 1], minScore, fallback) then init + [s[|s| - 1]] else init
  }

  /** Every usable candidate survives the filter. */
  lemma {:induction false} FilterUsableComplete(s: seq<SpawnCandidate>, minScore: real, fallback: bool)
    ensures forall k :: 0 <= k < |s| && Usable(s[k], minScore, fallback) ==> s[k] in FilterUsable(s, minScore, fallback)
  {
    if s != [] {
      var init := s[..|s| - 1];
      FilterUsableComplete(init, minScore, fallback);
      assert forall k :: 0 <= k < |init| ==> init[k] == s[k];
    }
  }

  /** The candidates selection draws from: those meeting the minimum
      score, or failing that those scoring above 0. */
  function Eligible(all: seq<SpawnCandidate>, minScore: real): seq<SpawnCandidate>
  {
    var primary := FilterUsable(all, minScore, false);
    if primary != [] then primary else FilterUsable(all, minScore, true)
  }

  /** The eligible set is empty exactly when no candidate passes either
      filter; when it draws on the fallback, no candidate met the minimum. */
  lemma EligibleCases(all: seq<SpawnCandidate>, minScore: real)
    ensures Eligible(all, minScore) == [] <==>
              forall k :: 0 <= k < |all| ==> !Usable(all[k], minScore, false) && !Usable(all[k], minScore, true)
    ensures forall k :: 0 <= k < |Eligible(all, minScore)| ==>
              Eligible(all, minScore)[k] in all &&
              (Usable(Eligible(all, minScore)[k], minScore, false) ||
               (Usable(Eligible(all, minScore)[k], minScore, true) &&
                forall j :: 0 <= j < |all| ==> !Usable(all[j], minScore, false)))
  {
    FilterUsableComplete(all, minScore, false);
    FilterUsableComplete(all, minScore, true);
    var primary := FilterUsable(all, minScore, false);
    var fallback := FilterUsable(all, minScore, true);
    if primary != [] {
      assert primary[0] in all;
    } else if fallback != [] {
      assert fallback[0] in all;
    }
  }

  /** The sort keys: ascending distance, or descending score. */
  function Key(c: SpawnCandidate, byScore: bool): real
  {
    if byScore then -c.spawnScore01 else c.distanceAlongSpline
  }

  predicate SortedBy(s: seq<SpawnCandidate>, byScore: bool)
  {
    forall i, j :: 0 <= i < j < |s| ==> Key(s[i], byScore) <= Key(s[j], byScore)
  }

  function Insert(c: SpawnCandidate, s: seq<SpawnCandidate>, byScore: bool): (r: seq<SpawnCandidate>)
    ensures multiset(r) == multiset(s) + multiset{c}
  {
    if s == [] then [c]
    else if Key(c, byScore) <= Key(s[0], byScore) then [c] + s
    else
      assert s == [s[0]] + s[1..];
      [s[0]] + Insert(c, s[1..], byScore)
  }

  lemma {:induction false} InsertSorted(c: SpawnCandidate, s: seq<SpawnCandidate>, byScore: bool)
    requires SortedBy(s, byScore)
    ensures SortedBy(Insert(c, s, byScore), byScore)
  {
    if s != [] && Key(c, byScore) > Key(s[0], byScore) {
      var tail := s[1..];
      InsertSorted(c, tail, byScore);
      InsertAbove(c, tail, byScore, Key(s[0], byScore));
      var ins := Insert(c, tail, byScore);
      assert Insert(c, s, byScore) == [s[0]] + ins;
    }
  }

  /** Inserting keeps a lower bound on the keys. */
  lemma {:induction false} InsertAbove(c: SpawnCandidate, s: seq<SpawnCandidate>, byScore: bool, b: real)
    requires b <= Key(c, byScore) && forall k :: 0 <= k < |s| ==> b <= Key(s[k], byScore)
    ensures forall k :: 0 <= k < |Insert(c, s, byScore)| ==> b <= Key(Insert(c, s, byScore)[k], byScore)
  {
    if s != [] && Key(c, byScore) > Key(s[0], byScore) {
      InsertAbove(c, s[1..], byScore, b);
      assert Insert(c, s, byScore) == [s[0]] + Insert(c, s[1..], byScore);
    }
  }

  /** TArray::Sort by a key: a sorted permutation. This insertion sort
      keeps equal keys in their input order, one of the orders the
      engine's unstable sort may produce. */
  function SortBy(s: seq<SpawnCandidate>, byScore: bool): (r: seq<SpawnCandidate>)
    ensures multiset(r) == multiset(s) && |r| == |s|
  {
    if s == [] then []
    else
      assert s == [s[0]] + s[1..];
      Insert(s[0], SortBy(s[1..], byScore), byScore)
  }

  lemma {:induction false} SortBySorted(s: seq<SpawnCandidate>, byScore: bool)
    ensures SortedBy(SortBy(s, byScore), byScore)
  {
    if s != [] {
      SortBySorted(s[1..], byScore);
      InsertSorted(s[0], SortBy(s[1..], byScore), byScore);
    }
  }

  /** Distance from a candidate to a target distance. */
  function Delta(c: SpawnCandidate, target: real): real
  {
    Abs(c.distanceAlongSpline - target)
  }

  /** The candidate nearest a target: the first one of least distance. */
  function NearestIndex(s: seq<SpawnCandidate>, target: real): (i: nat)
    requires |s| > 0
    ensures i < |s|
    ensures forall j :: 0 <= j < |s| ==> Delta(s[i], target) <= Delta(s[j], target)
    ensures forall j :: 0 <= j < i ==> Delta(s[j], target) > Delta(s[i], target)
  {
    if |s| == 1 then 0
    else
      var i := NearestIndex(s[..|s| - 1], target);
      if Delta(s[|s| - 1], target) < Delta(s[i], target) then |s| - 1 else i
  }

  /** The even mode's target distances: the first eligible distance plus
      i spacings, the spacing being the eligible stretch over the count. */
  function EvenTarget(eligible: seq<SpawnCandidate>, numToSelect: int, i: int): real
    requires |eligible| > 0
  {
    var first := eligible[0].distanceAlongSpline;
    var spacing := (eligible[|eligible| - 1].distanceAlongSpline - first) / (MaxInt(1, numToSelect) as real);
    first + (i as real) * spacing
  }

  /** Even mode: the candidate nearest each target, one per car. */
  function EvenPicks(eligible: seq<SpawnCandidate>, numToSelect: nat): (r: seq<SpawnCandidate>)
    requires |eligible| > 0
    ensures |r| == numToSelect
    ensures forall i :: 0 <= i < numToSelect ==> r[i] in eligible
  {
    seq(numToSelect, i requires 0 <= i < numToSelect => eligible[NearestIndex(eligible, EvenTarget(eligible, numToSelect, i))])
  }

  /** Score mode: the best-scoring candidates, at most one per car. */
  function TopByScore(eligible: seq<SpawnCandidate>, numToSelect: int): (r: seq<SpawnCandidate>)
    requires numToSelect > 0
    ensures |r| == MinInt(numToSelect, |eligible|)
  {
    SortBy(eligible, true)[..MinInt(numToSelect, |eligible|)]
  }

  /** No eligible candidate left out of the score-mode picks outscores a
      picked one. */
  lemma TopByScoreBest(eligible: seq<SpawnCandidate>, numToSelect: int)
    requires numToSelect > 0
    ensures multiset(TopByScore(eligible, numToSelect)) <= multiset(eligible)
    ensures forall y :: y in eligible && y !in TopByScore(eligible, numToSelect) ==>
              forall x :: x in TopByScore(eligible, numToSelect) ==> x.spawnScore01 >= y.spawnScore01
  {
    var sorted := SortBy(eligible, true);
    var n := MinInt(numToSelect, |eligible|);
    SortBySorted(eligible, true);
    assert sorted == sorted[..n] + sorted[n..];
    assert multiset(sorted) == multiset(sorted[..n]) + multiset(sorted[n..]);
    forall y | y in eligible && y !in sorted[..n]
      ensures forall x :: x in sorted[..n] ==> x.spawnScore01 >= y.spawnScore01
    {
      assert y in multiset(sorted);
      var j :| 0 <= j < |sorted| && sorted[j] == y;
      assert j >= n;
      forall x | x in sorted[..n]
        ensures x.spawnScore01 >= y.spawnScore01
      {
        var i :| 0 <= i < n && sorted[i] == x;
        assert Key(sorted[i], true) <= Key(sorted[j], true);
      }
    }
  }

  /** SelectBestCandidates as a value: nothing for no candidates, no cars
      or no eligible candidate; otherwise the even or score picks, sorted
      by distance. */
  function SelectBest(all: seq<SpawnCandidate>, numToSelect: int, minScore: real, distributeEvenly: bool): seq<SpawnCandidate>
  {
    if |all| == 0 || numToSelect <= 0 then []
    else
      var eligible := Eligible(all, minScore);
      if eligible == [] then []
      else if distributeEvenly then SortBy(EvenPicks(eligible, numToSelect), false)
      else SortBy(TopByScore(eligible, numToSelect), false)
  }

  /** What the selection promises: empty exactly in the guarded cases; one
      pick per car in even mode and min(cars, eligible) in score mode,
      every pick eligible; the output in ascending distance. */
  lemma SelectBestProperties(all: seq<SpawnCandidate>, numToSelect: int, minScore: real, distributeEvenly: bool)
    ensures var r := SelectBest(all, numToSelect, minScore, distributeEvenly);
      var eligible := Eligible(all, minScore);
      (r == [] <==> |all| == 0 || numToSelect <= 0 || eligible == []) &&
      (|all| > 0 && numToSelect > 0 && eligible != [] ==>
         |r| == (if distributeEvenly then numToSelect else MinInt(numToSelect, |eligible|))) &&
      (forall k :: 0 <= k < |r| ==> r[k] in eligible) &&
      SortedBy(r, false)
  {
    var r := SelectBest(all, numToSelect, minScore, distributeEvenly);
    var eligible := Eligible(all, minScore);
    if |all| > 0 && numToSelect > 0 && eligible != [] {
      var picks := if distributeEvenly then EvenPicks(eligible, numToSelect) else TopByScore(eligible, numToSelect);
      assert r == SortBy(picks, false);
      SortBySorted(picks, false);
      if !distributeEvenly {
        TopByScoreBest(eligible, numToSelect);
      }
      forall k | 0 <= k < |r|
        ensures r[k] in eligible
      {
        assert r[k] in multiset(picks);
      }
    }
  }

  /** The filter loops of SelectBestCandidates. */
  method CollectUsable(all: seq<SpawnCandidate>, minScore: real, fallback: bool) returns (usable: seq<SpawnCandidate>)
    ensures usable == FilterUsable(all, minScore, fallback)
  {
    usable := [];
    var k := 0;
    while k < |all|
      invariant 0 <= k <= |all| && usable == FilterUsable(all[..k], minScore, fallback)
    {
      assert all[..k + 1][..k] == all[..k];
      if Usable(all[k], minScore, fallback) {
        usable := usable + [all[k]];
      }
      k := k + 1;
    }
    assert all[..|all|] == all;
  }

  /** The nearest-candidate scan: replaces the best on a strictly smaller
      distance. */
  method FindNearest(eligible: seq<SpawnCandidate>, target: real) returns (best: nat)
    requires |eligible| > 0
    ensures best == NearestIndex(eligible, target)
  {
    best := 0;
    var bestDelta := Delta(eligible[0], target);
    var k := 1;
    while k < |eligible|
      invariant 1 <= k <= |eligible| && best == NearestIndex(eligible[..k], target)
      invariant best < k && bestDelta == Delta(eligible[best], target)
    {
      assert eligible[..k + 1][..k] == eligible[..k];
      var delta := Delta(eligible[k], target);
      if delta < bestDelta {
        bestDelta := delta;
        best := k;
      }
      k := k + 1;
    }
    assert eligible[..|eligible|] == eligible;
  }

  /** The even-mode loop: the nearest candidate to each target. */
  method PickEvenly(valid: seq<SpawnCandidate>, numToSelect: nat) returns (picks: seq<SpawnCandidate>)
    requires |valid| > 0
    ensures picks == EvenPicks(valid, numToSelect)
  {
    picks := [];
    var i := 0;
    while i < numToSelect
      invariant 0 <= i <= numToSelect && |picks| == i
      invariant forall k :: 0 <= k < i ==> picks[k] == valid[NearestIndex(valid, EvenTarget(valid, numToSelect, k))]
    {
      var best := FindNearest(valid, EvenTarget(valid, numToSelect, i));
      picks := picks + [valid[best]];
      i := i + 1;
    }
  }

  /** The score-mode loop: the first min(cars, candidates) of the
      candidates sorted by descending score. */
  method PickByScore(valid: seq<SpawnCandidate>, numToSelect: int) returns (picks: seq<SpawnCandidate>)
    requires numToSelect > 0
    ensures picks == TopByScore(valid, numToSelect)
  {
    var sorted := SortBy(valid, true);
    var count := MinInt(numToSelect, |sorted|);
    picks := [];
    var i := 0;
    while i < count
      invariant 0 <= i <= count && picks == sorted[..i]
    {
      picks := picks + [sorted[i]];
      i := i + 1;
    }
  }

  /** SelectBestCandidates: filter with fallback, pick evenly or by score,
      then sort by distance. */
  method SelectBestCandidates(all: seq<SpawnCandidate>, numToSelect: int, minScore: real, minDistanceCm: real,
                              distributeEvenly: bool)
    returns (selected: seq<SpawnCandidate>)
    ensures selected == SelectBest(all, numToSelect, minScore, distributeEvenly)
  {
    selected := [];
    if |all| == 0 || numToSelect <= 0 {
      return;
    }
    var valid := CollectUsable(all, minScore, false);
    if |valid| == 0 {
      valid := CollectUsable(all, minScore, true);
      if |valid| == 0 {
        return;
      }
    }
    assert valid == Eligible(all, minScore);
    var picks: seq<SpawnCandidate>;
    if distributeEvenly {
      picks := PickEvenly(valid, numToSelect);
    } else {
      picks := PickByScore(valid, numToSelect);
    }
    selected := SortBy(picks, false);
  }
}
