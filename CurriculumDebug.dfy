/** ARacingCurriculumDebugActor (RacingCurriculumDebugActor.cpp): the
    editor visualisation of a curriculum: debug hints per sample, spawn
    score colours, the choice among surface-trace hits, the capped log of
    reported agent spawns and its hotspot bins, and the draw sample
    distances. Traces, drawing and the spline geometry are outside the
    model; what they report enters as parameters. */
module CurriculumDebug {
  import opened Common
  import opened TrackDistance

  // ---------------------------------------------------------------------
  // Hints and colours

  /** ComputeSpeedAndSteerHints of the debug actor: curvature and slope
      (doubled) each clamped to [0, 1] penalise speed by 0.75 and 0.25;
      steering grows with curvature from 0.2. */
  function DebugHints(curvNormAbs: real, slopeZ: real): (h: (real, real))
    ensures 0.05 <= h.0 <= 1.0 && 0.1 <= h.1 <= 1.0
  {
    var curvPenalty := Clamp(curvNormAbs, 0.0, 1.0);
    var slopePenalty := Clamp(Abs(slopeZ) * 2.0, 0.0, 1.0);
    (Clamp(1.0 - 0.75 * curvPenalty - 0.25 * slopePenalty, 0.05, 1.0), Clamp(0.20 + 0.80 * curvPenalty, 0.1, 1.0))
  }

  /** More curvature or a steeper slope never raises the speed hint, and
      more curvature never lowers the steering hint. A level straight
      gets full speed and the lowest steering hint. */
  lemma DebugHintsMonotone(curv1: real, curv2: real, slope1: real, slope2: real)
    requires curv1 <= curv2 && Abs(slope1) <= Abs(slope2)
    ensures DebugHints(curv2, slope2).0 <= DebugHints(curv1, slope1).0
    ensures DebugHints(curv1, slope2).1 <= DebugHints(curv2, slope1).1
    ensures DebugHints(0.0, 0.0) == (1.0, 0.2)
  {
  }

  datatype DebugColor = Black | Green | Yellow | Orange | Red

  /** The score colour thresholds and their defaults. */
  datatype ColorThresholds = ColorThresholds(scoreGreenMin: real, scoreYellowMin: real, scoreOrangeMin: real)

  const DefaultColorThresholds := ColorThresholds(0.80, 0.55, 0.25)

  /** ColorForScore01: black for an invalid hit or a negative score,
      otherwise the first threshold the score reaches, red below all. */
  function ColorForScore01(t: ColorThresholds, score01: real, validHit: bool): (c: DebugColor)
    ensures c == Black <==> !validHit || score01 < 0.0
    ensures c == Green <==> validHit && score01 >= 0.0 && score01 >= t.scoreGreenMin
    ensures c == Yellow <==> validHit && score01 >= 0.0 && t.scoreYellowMin <= score01 < t.scoreGreenMin
    ensures c == Orange <==> validHit && score01 >= 0.0 && t.scoreOrangeMin <= score01 < t.scoreYellowMin &&
                             score01 < t.scoreGreenMin
    ensures c == Red <==> validHit && score01 >= 0.0 && score01 < t.scoreOrangeMin &&
                          score01 < t.scoreYellowMin && score01 < t.scoreGreenMin
  {
    if !validHit || score01 < 0.0 then Black
    else if score01 >= t.scoreGreenMin then Green
    else if score01 >= t.scoreYellowMin then Yellow
    else if score01 >= t.scoreOrangeMin then Orange
    else Red
  }

  /** Colours from worst to best. */
  function Rank(c: DebugColor): nat
  {
    match c
    case Black => 0
    case Red => 1
    case Orange => 2
    case Yellow => 3
    case Green => 4
  }

  /** With ordered thresholds, a higher score on a valid hit never gets a
      worse colour. */
  lemma ColorMonotone(t: ColorThresholds, a: real, b: real)
    requires t.scoreOrangeMin <= t.scoreYellowMin <= t.scoreGreenMin
    requires 0.0 <= a <= b
    ensures Rank(ColorForScore01(t, a, true)) <= Rank(ColorForScore01(t, b, true))
  {
  }

  // ---------------------------------------------------------------------
  // Surface hits

  /** A trace hit as ChooseBestSurfaceHit inspects it: blocking or not, and
      whether its actor or its component's owner is the track actor. */
  datatype SurfaceHit = SurfaceHit(blockingHit: bool, ownedByTrack: bool)

  const IndexNone: int := -1

  /** The first blocking hit on the track actor, if any. */
  function FirstTrackHit(hits: seq<SurfaceHit>): (r: Option<nat>)
    ensures r.None? <==> forall i :: 0 <= i < |hits| ==> !(hits[i].blockingHit && hits[i].ownedByTrack)
    ensures r.Some? ==> r.value < |hits| && hits[r.value].blockingHit && hits[r.value].ownedByTrack &&
                        forall i :: 0 <= i < r.value ==> !(hits[i].blockingHit && hits[i].ownedByTrack)
  {
    if hits == [] then None
    else if hits[0].blockingHit && hits[0].ownedByTrack then Some(0)
    else
      var r := FirstTrackHit(hits[1..]);
      if r.Some? then Some(r.value + 1) else None
  }

  /** The hit ChooseBestSurfaceHit picks: none for no hits; the first
      blocking track hit when track hits are preferred and a track actor
      is set; otherwise index 0 when falling back to any hit. */
  function ChosenHit(hits: seq<SurfaceHit>, preferTrackActorHits: bool, hasTrackActor: bool, fallbackToAnyHit: bool): (i: int)
    ensures i == IndexNone || 0 <= i < |hits|
    ensures hits == [] ==> i == IndexNone
    ensures i == IndexNone <==>
              (hits == [] ||
                 (!fallbackToAnyHit && (!preferTrackActorHits || !hasTrackActor || FirstTrackHit(hits).None?)))
  {
    if hits == [] then IndexNone
    else
      var preferred := if preferTrackActorHits && hasTrackActor then FirstTrackHit(hits) else None;
      if preferred.Some? then preferred.value
      else if fallbackToAnyHit then 0
      else IndexNone
  }

  /** ChooseBestSurfaceHit: succeeds iff a hit is chosen and it blocks. */
  method ChooseBestSurfaceHit(hits: seq<SurfaceHit>, preferTrackActorHits: bool, hasTrackActor: bool,
                              fallbackToAnyHit: bool)
    returns (ok: bool, bestIndex: int)
    ensures bestIndex == ChosenHit(hits, preferTrackActorHits, hasTrackActor, fallbackToAnyHit)
    ensures ok <==> bestIndex != IndexNone && hits[bestIndex].blockingHit
  {
    if |hits| == 0 {
      return false, IndexNone;
    }
    bestIndex := IndexNone;
    if preferTrackActorHits && hasTrackActor {
      var i := 0;
      while i < |hits|
        invariant 0 <= i <= |hits|
        invariant forall k :: 0 <= k < i ==> !(hits[k].blockingHit && hits[k].ownedByTrack)
      {
        if hits[i].blockingHit && hits[i].ownedByTrack {
          bestIndex := i;
          break;
        }
        i := i + 1;
      }
    }
    if bestIndex == IndexNone && fallbackToAnyHit {
      bestIndex := 0;
    }
    if bestIndex == IndexNone {
      return false, bestIndex;
    }
    ok := hits[bestIndex].blockingHit;
  }

  // ---------------------------------------------------------------------
  // Spawn log and hotspots

  /** FRC_SpawnEvent: the distance along the track where an agent spawned,
      its score and reason. */
  datatype SpawnEvent = SpawnEvent(s: real, score: real, reason: string)

  /** FRC_SpawnHotspot without its averaged location. */
  datatype Hotspot = Hotspot(count: int, sCenter: real, lastReason: string)

  /** The log after dropping the oldest entries beyond `maxEvents`. */
  function Capped(events: seq<SpawnEvent>, maxEvents: nat): (r: seq<SpawnEvent>)
    ensures |r| == MinInt(|events|, maxEvents)
    ensures r == events[|events| - |r|..]
  {
    if |events| > maxEvents then events[|events| - maxEvents..] else events
  }

  /** FMath::FloorToInt(S / Bin). */
  function BinIndex(s: real, bin: real): (k: int)
    requires bin > 0.0
    ensures (k as real) <= s / bin < (k as real) + 1.0
  {
    (s / bin).Floor
  }

  function BinCenter(k: int, bin: real): real
  {
    ((k as real) + 0.5) * bin
  }

  /** One iteration of RebuildHotspots. */
  function AddToHotspots(h: map<int, Hotspot>, e: SpawnEvent, bin: real): map<int, Hotspot>
    requires bin > 0.0
  {
    var k := BinIndex(e.s, bin);
    var count := if k in h then h[k].count else 0;
    h[k := Hotspot(count + 1, BinCenter(k, bin), e.reason)]
  }

  /** The hotspots of a log, folding its events in order. */
  function HotspotsOf(events: seq<SpawnEvent>, bin: real): map<int, Hotspot>
    requires bin > 0.0
  {
    if events == [] then map[] else AddToHotspots(HotspotsOf(events[..|events| - 1], bin), events[|events| - 1], bin)
  }

  /** The number of events in bin `k`. */
  function CountInBin(events: seq<SpawnEvent>, k: int, bin: real): (n: nat)
    requires bin > 0.0
    ensures n <= |events|
  {
    if events == [] then 0
    else CountInBin(events[..|events| - 1], k, bin) + (if BinIndex(events[|events| - 1].s, bin) == k then 1 else 0)
  }

  /** A bin has a hotspot iff some event falls into it; its count is the
      number of such events and its centre the middle of the bin. */
  lemma {:induction false} HotspotsCount(events: seq<SpawnEvent>, bin: real)
    requires bin > 0.0
    ensures forall k :: k in HotspotsOf(events, bin) <==> CountInBin(events, k, bin) > 0
    ensures forall k :: k in HotspotsOf(events, bin) ==>
              HotspotsOf(events, bin)[k].count == CountInBin(events, k, bin) &&
              HotspotsOf(events, bin)[k].sCenter == BinCenter(k, bin)
  {
    if events != [] {
      HotspotsCount(events[..|events| - 1], bin);
    }
  }

  /** The events of bin `k` exist in the log. */
  lemma {:induction false} CountInBinWitness(events: seq<SpawnEvent>, k: int, bin: real)
    requires bin > 0.0 && CountInBin(events, k, bin) > 0
    ensures exists i :: 0 <= i < |events| && BinIndex(events[i].s, bin) == k
  {
    var n := |events| - 1;
    if BinIndex(events[n].s, bin) != k {
      CountInBinWitness(events[..n], k, bin);
      var i :| 0 <= i < n && BinIndex(events[..n][i].s, bin) == k;
      assert events[i] == events[..n][i];
    }
  }

  const MinHotspotBinCm: real := 50.0
  const MinDrawSampleStepCm: real := 10.0

  /** The debug actor's recorded spawns. */
  class DebugActor {
    var hasTrackSpline: bool
    var cachedSplineLengthCm: real
    var loopedSpline: bool
    var hotspotBinSizeCm: real
    var maxRecordedSpawnEvents: int
    var spawnEvents: seq<SpawnEvent>
    var hotspotsByBin: map<int, Hotspot>

    /** The defaults: no spline yet, 600 cm bins, 256 recorded events. */
    constructor ()
      ensures !hasTrackSpline && cachedSplineLengthCm == 0.0 && !loopedSpline
      ensures hotspotBinSizeCm == 600.0 && maxRecordedSpawnEvents == 256
      ensures spawnEvents == [] && hotspotsByBin == map[]
    {
      hasTrackSpline, cachedSplineLengthCm, loopedSpline := false, 0.0, false;
      hotspotBinSizeCm, maxRecordedSpawnEvents := 600.0, 256;
      spawnEvents, hotspotsByBin := [], map[];
    }

    function Bin(): real
      reads this
    {
      Max(MinHotspotBinCm, hotspotBinSizeCm)
    }

    predicate HasUsableSpline()
      reads this
    {
      hasTrackSpline && cachedSplineLengthCm > 1.0
    }

    /** ClearRecordedSpawns. */
    method ClearRecordedSpawns()
      modifies this`spawnEvents, this`hotspotsByBin
      ensures spawnEvents == [] && hotspotsByBin == map[]
    {
      spawnEvents, hotspotsByBin := [], map[];
    }

    /** RebuildHotspots: cleared, then without a usable spline left empty,
        otherwise one hotspot per bin with events. */
    method RebuildHotspots()
      modifies this`hotspotsByBin
      ensures hotspotsByBin == if HasUsableSpline() then HotspotsOf(spawnEvents, Bin()) else map[]
    {
      hotspotsByBin := map[];
      if !HasUsableSpline() {
        return;
      }
      var bin := Bin();
      var events := spawnEvents;
      var h: map<int, Hotspot> := map[];
      var i := 0;
      while i < |events|
        invariant 0 <= i <= |events| && h == HotspotsOf(events[..i], bin)
      {
        assert events[..i + 1][..i] == events[..i];
        var k := BinIndex(events[i].s, bin);
        var count := if k in h then h[k].count else 0;
        h := h[k := Hotspot(count + 1, BinCenter(k, bin), events[i].reason)];
        i := i + 1;
      }
      assert events[..|events|] == events;
      hotspotsByBin := h;
    }

    /** ReportAgentSpawn: ignored without a usable spline; otherwise the
        event is logged, the oldest events beyond the cap are dropped and
        the hotspots rebuilt. */
    method ReportAgentSpawn(e: SpawnEvent)
      requires maxRecordedSpawnEvents >= 0
      modifies this`spawnEvents, this`hotspotsByBin
      ensures !old(HasUsableSpline()) ==> spawnEvents == old(spawnEvents) && hotspotsByBin == old(hotspotsByBin)
      ensures old(HasUsableSpline()) ==>
                spawnEvents == Capped(old(spawnEvents) + [e], maxRecordedSpawnEvents) &&
                hotspotsByBin == HotspotsOf(spawnEvents, Bin())
    {
      if !HasUsableSpline() {
        return;
      }
      var events := spawnEvents + [e];
      if |events| > maxRecordedSpawnEvents {
        var removeCount := |events| - maxRecordedSpawnEvents;
        events := events[removeCount..];
      }
      spawnEvents := events;
      RebuildHotspots();
    }
  }

  /** The log never exceeds its cap, keeps the newest events in order and
      ends with the one just reported. */
  lemma CappedKeepsNewest(events: seq<SpawnEvent>, e: SpawnEvent, maxEvents: nat)
    requires maxEvents > 0
    ensures var r := Capped(events + [e], maxEvents);
      |r| <= maxEvents && r[|r| - 1] == e &&
      (|events| < maxEvents ==> r == events + [e])
  {
  }

  // ---------------------------------------------------------------------
  // Draw samples

  /** BuildSamples' sample distances: none without a usable spline;
      otherwise N + 1 samples for N = max(2, Ceil(length / step)), the
      step at least 10 cm, each wrapped or clamped onto the track. */
  method BuildSampleDistances(hasTrackSpline: bool, splineLengthCm: real, looped: bool, drawSampleStepCm: real)
    returns (samples: seq<real>)
    ensures !hasTrackSpline || splineLengthCm <= 1.0 ==> samples == []
    ensures hasTrackSpline && splineLengthCm > 1.0 ==>
              var step := Max(MinDrawSampleStepCm, drawSampleStepCm);
              |samples| == MaxInt(2, Ceil(splineLengthCm / step)) + 1 &&
              forall i :: 0 <= i < |samples| ==>
                samples[i] == WrapOrClamp(Laps(i, step), splineLengthCm, looped) &&
                0.0 <= samples[i] <= splineLengthCm
  {
    samples := [];
    if !hasTrackSpline || splineLengthCm <= 1.0 {
      return;
    }
    var step := Max(MinDrawSampleStepCm, drawSampleStepCm);
    var n := MaxInt(2, Ceil(splineLengthCm / step));
    var i := 0;
    while i <= n
      invariant 0 <= i <= n + 1 && |samples| == i
      invariant forall k :: 0 <= k < i ==>
                  samples[k] == WrapOrClamp(Laps(k, step), splineLengthCm, looped) &&
                  0.0 <= samples[k] <= splineLengthCm
    {
      samples := samples + [WrapOrClamp(Laps(i, step), splineLengthCm, looped)];
      i := i + 1;
    }
  }
}
