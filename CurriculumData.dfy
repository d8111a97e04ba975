/** URacingCurriculumDataAsset (RacingCurriculumDataAsset.cpp and
    RacingCurriculumTypes.h): the baked curriculum segments of a track,
    the lookup of the segment at a distance, the random pick of a distance
    inside segments with given tags, and the per-mask statistics. */
module CurriculumData {
  import opened Common
  import opened TrackDistance

  /** ERacingCurriculumTag bits of a segment's int32 TagMask. */
  const Corner: int := 1
  const Downhill: int := 2
  const Uphill: int := 4
  const RampApproach: int := 8
  const OnRamp: int := 16

  /** The two's-complement bit pattern of an int32. */
  function Bits(x: int): bv32
  {
    (x % 0x1_0000_0000) as bv32
  }

  /** Whether bit `b` of an int32 mask is set. */
  predicate HasTag(mask: int, b: int)
    requires b in {Corner, Downhill, Uphill, RampApproach, OnRamp}
  {
    Bits(mask) & Bits(b) != 0
  }

  /** FRacingCurriculumSegment (the free-text Note is left out). */
  datatype Segment = Segment(startDistanceCm: real, endDistanceCm: real, tagMask: int,
                             suggestedSpeedNorm: real, maxSteerHint: real)

  /** The asset's data: its segments, the spline length and the looped
      flag of its build settings. */
  datatype CurriculumAsset = CurriculumAsset(segments: seq<Segment>, splineLengthCm: real, loopedTrack: bool)

  /** The distance rule of FindSegmentAtDistance, once the length is known
      to exceed 1 cm: wrap on a looped track, clamp otherwise. */
  function QueryDistance(asset: CurriculumAsset, distanceCm: real): (r: real)
    requires asset.splineLengthCm > 1.0
    ensures r == WrapOrClamp(distanceCm, asset.splineLengthCm, asset.loopedTrack)
    ensures 0.0 <= r <= asset.splineLengthCm
  {
    if asset.loopedTrack then WrapLooped(distanceCm, asset.splineLengthCm)
    else UeClamp(distanceCm, 0.0, asset.splineLengthCm)
  }

  predicate Covers(seg: Segment, s: real)
  {
    seg.startDistanceCm <= s <= seg.endDistanceCm
  }

  /** FindSegmentAtDistance: false for no segments or a length of at most
      1 cm; otherwise the first segment whose closed range holds the
      wrapped or clamped distance, or false when there is none. */
  method FindSegmentAtDistance(asset: CurriculumAsset, distanceCm: real) returns (found: bool, segment: Segment)
    ensures asset.segments == [] || asset.splineLengthCm <= 1.0 ==> !found
    ensures found <==> asset.segments != [] && asset.splineLengthCm > 1.0 &&
                       exists k :: 0 <= k < |asset.segments| &&
                                   Covers(asset.segments[k], QueryDistance(asset, distanceCm))
    ensures found ==> exists k :: 0 <= k < |asset.segments| && segment == asset.segments[k] &&
                                  Covers(segment, QueryDistance(asset, distanceCm)) &&
                                  forall j :: 0 <= j < k ==>
                                    !Covers(asset.segments[j], QueryDistance(asset, distanceCm))
  {
    segment := Segment(0.0, 0.0, 0, 0.8, 1.0);
    if asset.segments == [] || asset.splineLengthCm <= 1.0 {
      return false, segment;
    }
    var s := distanceCm;
    if asset.loopedTrack {
      s := Fmod(s, asset.splineLengthCm);
      if s < 0.0 {
        s := s + asset.splineLengthCm;
      }
    } else {
      s := UeClamp(s, 0.0, asset.splineLengthCm);
    }
    assert s == QueryDistance(asset, distanceCm);
    var k := 0;
    while k < |asset.segments|
      invariant 0 <= k <= |asset.segments|
      invariant forall j :: 0 <= j < k ==> !Covers(asset.segments[j], s)
    {
      var seg := asset.segments[k];
      if s >= seg.startDistanceCm && s <= seg.endDistanceCm {
        return true, seg;
      }
      k := k + 1;
    }
    return false, segment;
  }

  /** The tag test of GetRandomDistanceInTag: every requested bit, or at
      least one of them. */
  predicate MatchesTags(segmentMask: int, mask: int, requireAll: bool)
  {
    if requireAll then Bits(segmentMask) & Bits(mask) == Bits(mask) else Bits(segmentMask) & Bits(mask) != 0
  }

  /** The indices of the matching segments, in increasing order. */
  function MatchingIndices(segments: seq<Segment>, mask: int, requireAll: bool): seq<int>
  {
    if segments == [] then []
    else
      var init := MatchingIndices(segments[..|segments| - 1], mask, requireAll);
      if MatchesTags(segments[|segments| - 1].tagMask, mask, requireAll) then init + [|segments| - 1] else init
  }

  /** The candidate list holds exactly the matching indices, each once and
      in increasing order. */
  lemma MatchingIndicesExact(segments: seq<Segment>, mask: int, requireAll: bool)
    ensures var c := MatchingIndices(segments, mask, requireAll);
      (forall p :: 0 <= p < |c| ==> 0 <= c[p] < |segments| && MatchesTags(segments[c[p]].tagMask, mask, requireAll)) &&
      (forall i :: 0 <= i < |segments| && MatchesTags(segments[i].tagMask, mask, requireAll) ==> i in c) &&
      (forall p, q :: 0 <= p < q < |c| ==> c[p] < c[q])
  {
    MatchingIndicesSound(segments, mask, requireAll);
    MatchingIndicesComplete(segments, mask, requireAll);
    MatchingIndicesAscending(segments, mask, requireAll);
  }

  lemma {:induction false} MatchingIndicesSound(segments: seq<Segment>, mask: int, requireAll: bool)
    ensures forall p :: 0 <= p < |MatchingIndices(segments, mask, requireAll)| ==> 0 <= MatchingIndices(segments, mask, requireAll)[p] < |segments|
    ensures forall p :: 0 <= p < |MatchingIndices(segments, mask, requireAll)| ==> MatchesTags(segments[MatchingIndices(segments, mask, requireAll)[p]].tagMask, mask, requireAll)
    decreases |segments|
  {
    if segments != [] {
      var n := |segments| - 1;
      var init := segments[..n];
      MatchingIndicesSound(init, mask, requireAll);
      var ci := MatchingIndices(init, mask, requireAll);
      var c := MatchingIndices(segments, mask, requireAll);
      assert c == ci || c == ci + [n];
      forall p | 0 <= p < |c|
        ensures 0 <= c[p] < |segments|
        ensures MatchesTags(segments[c[p]].tagMask, mask, requireAll)
      {
        if p < |ci| {
          assert c[p] == ci[p];
          assert init[ci[p]] == segments[ci[p]];
        }
      }
    }
  }

  lemma {:induction false} MatchingIndicesComplete(segments: seq<Segment>, mask: int, requireAll: bool)
    ensures forall i :: 0 <= i < |segments| && MatchesTags(segments[i].tagMask, mask, requireAll) ==>
              i in MatchingIndices(segments, mask, requireAll)
    decreases |segments|
  {
    if segments != [] {
      var n := |segments| - 1;
      var init := segments[..n];
      MatchingIndicesComplete(init, mask, requireAll);
      var ci := MatchingIndices(init, mask, requireAll);
      assert forall i :: 0 <= i < n ==> init[i] == segments[i];
      if MatchesTags(segments[n].tagMask, mask, requireAll) {
        assert MatchingIndices(segments, mask, requireAll) == ci + [n];
      } else {
        assert MatchingIndices(segments, mask, requireAll) == ci;
      }
    }
  }

  lemma {:induction false} MatchingIndicesAscending(segments: seq<Segment>, mask: int, requireAll: bool)
    ensures forall p :: 0 <= p < |MatchingIndices(segments, mask, requireAll)| ==> MatchingIndices(segments, mask, requireAll)[p] < |segments|
    ensures forall p, q :: 0 <= p < q < |MatchingIndices(segments, mask, requireAll)| ==> MatchingIndices(segments, mask, requireAll)[p] < MatchingIndices(segments, mask, requireAll)[q]
    decreases |segments|
  {
    if segments != [] {
      var n := |segments| - 1;
      var init := segments[..n];
      assert |init| == n;
      MatchingIndicesAscending(init, mask, requireAll);
      var ci := MatchingIndices(init, mask, requireAll);
      var c := MatchingIndices(segments, mask, requireAll);
      assert c == ci || c == ci + [n];
      forall p, q | 0 <= p < q < |c|
        ensures c[p] < c[q]
      {
        assert c[p] == ci[p];
        if q < |ci| {
          assert c[q] == ci[q];
        }
      }
    }
  }

  /** FRandomStream::RandRange(0, n - 1) from the stream's next fraction in
      [0, 1): the truncated product, capped at n - 1. */
  function PickIndex(n: int, fraction: real): (r: int)
    requires n > 0 && 0.0 <= fraction < 1.0
    ensures 0 <= r < n
  {
    var scaled := fraction * n as real;
    assert scaled >= 0.0 by {
      ScaleBounds(0.0, fraction, fraction, n as real);
    }
    MinInt(FloorNat(scaled), n - 1)
  }

  /** Every candidate position has fractions that pick it. */
  lemma PickIndexReachesAll(n: int, p: int)
    requires 0 <= p < n
    ensures PickIndex(n, p as real / n as real) == p
  {
    var f := p as real / n as real;
    assert f * n as real == p as real;
    ScaleStrict(p as real, n as real, 1.0 / n as real);
    assert f < 1.0;
  }

  /** GetRandomDistanceInTag with the random stream's two fractions passed
      in: fails with 0 for an empty mask, no segments or a length of at
      most 1 cm, or when no segment matches; otherwise picks a matching
      segment and a distance in its range, clamped to [0, L]. */
  method GetRandomDistanceInTag(asset: CurriculumAsset, mask: int, requireAll: bool,
                                pickFraction: real, rangeFraction: real)
    returns (ok: bool, distanceCm: real)
    requires 0.0 <= pickFraction < 1.0 && 0.0 <= rangeFraction < 1.0
    ensures mask == 0 || asset.segments == [] || asset.splineLengthCm <= 1.0 ==> !ok
    ensures ok <==> mask != 0 && asset.segments != [] && asset.splineLengthCm > 1.0 &&
                    exists i :: 0 <= i < |asset.segments| && MatchesTags(asset.segments[i].tagMask, mask, requireAll)
    ensures !ok ==> distanceCm == 0.0
    ensures ok ==> 0.0 <= distanceCm <= asset.splineLengthCm
    ensures ok ==> exists i :: 0 <= i < |asset.segments| && MatchesTags(asset.segments[i].tagMask, mask, requireAll) &&
                     (0.0 <= asset.segments[i].startDistanceCm <= asset.segments[i].endDistanceCm <= asset.splineLengthCm
                      ==> asset.segments[i].startDistanceCm <= distanceCm <= asset.segments[i].endDistanceCm)
  {
    distanceCm := 0.0;
    if mask == 0 || asset.segments == [] || asset.splineLengthCm <= 1.0 {
      return false, distanceCm;
    }
    var candidates := CollectCandidates(asset.segments, mask, requireAll);
    MatchingIndicesExact(asset.segments, mask, requireAll);
    if candidates == [] {
      return false, distanceCm;
    }
    var picked := asset.segments[candidates[PickIndex(|candidates|, pickFraction)]];
    distanceCm := DistanceInRange(picked, rangeFraction, asset.splineLengthCm);
    ok := true;
  }

  /** The candidate loop of GetRandomDistanceInTag. */
  method CollectCandidates(segments: seq<Segment>, mask: int, requireAll: bool) returns (candidates: seq<int>)
    ensures candidates == MatchingIndices(segments, mask, requireAll)
  {
    candidates := [];
    var i := 0;
    while i < |segments|
      invariant 0 <= i <= |segments|
      invariant candidates == MatchingIndices(segments[..i], mask, requireAll)
    {
      assert segments[..i + 1][..i] == segments[..i];
      var seg := segments[i];
      if MatchesTags(seg.tagMask, mask, requireAll) {
        candidates := candidates + [i];
      }
      i := i + 1;
    }
    assert segments[..i] == segments;
  }

  /** FRandRange(a, b) for a fraction in [0, 1): a point of [a, b] when
      a <= b. */
  function RandInRange(a: real, b: real, fraction: real): (r: real)
    requires 0.0 <= fraction < 1.0
    ensures a <= b ==> a <= r <= b
  {
    if a < b then
      ScaleBelowOne(fraction, b - a);
      a + Scale(fraction, b - a)
    else
      a + Scale(fraction, b - a)
  }

  /** The picked distance of GetRandomDistanceInTag: FRandRange over the
      segment's range, clamped to the track. */
  function DistanceInRange(seg: Segment, fraction: real, len: real): (r: real)
    requires 0.0 <= fraction < 1.0 && len > 0.0
    ensures 0.0 <= r <= len
    ensures 0.0 <= seg.startDistanceCm <= seg.endDistanceCm <= len ==>
              seg.startDistanceCm <= r <= seg.endDistanceCm
  {
    UeClamp(RandInRange(seg.startDistanceCm, seg.endDistanceCm, fraction), 0.0, len)
  }

  /** The clipped length of a segment, `max(0, End - Start)`. */
  function ClippedLength(seg: Segment): real
  {
    Max(0.0, seg.endDistanceCm - seg.startDistanceCm)
  }

  function CountWithMask(segments: seq<Segment>, m: int): (r: nat)
    ensures r <= |segments|
  {
    if segments == [] then 0
    else CountWithMask(segments[..|segments| - 1], m) + if segments[|segments| - 1].tagMask == m then 1 else 0
  }

  /** A mask is counted exactly when some segment carries it. */
  lemma {:induction false} CountPositive(segments: seq<Segment>, m: int)
    ensures CountWithMask(segments, m) > 0 <==> exists k :: 0 <= k < |segments| && segments[k].tagMask == m
    decreases |segments|
  {
    if segments != [] {
      var init := segments[..|segments| - 1];
      CountPositive(init, m);
      assert forall k :: 0 <= k < |init| ==> init[k] == segments[k];
    }
  }

  function LengthWithMask(segments: seq<Segment>, m: int): (r: real)
    ensures r >= 0.0
    ensures CountWithMask(segments, m) == 0 ==> r == 0.0
  {
    if segments == [] then 0.0
    else
      LengthWithMask(segments[..|segments| - 1], m) +
        if segments[|segments| - 1].tagMask == m then ClippedLength(segments[|segments| - 1]) else 0.0
  }

  lemma StatsSnoc(s: seq<Segment>, x: Segment, m: int)
    ensures CountWithMask(s + [x], m) == CountWithMask(s, m) + if m == x.tagMask then 1 else 0
    ensures LengthWithMask(s + [x], m) == LengthWithMask(s, m) + if m == x.tagMask then ClippedLength(x) else 0.0
  {
    assert (s + [x])[..|s|] == s;
  }

  /** `counts` and `totalLength` hold, for exactly the masks occurring in
      `segments`, each mask's segment count and clipped length. */
  ghost predicate TagStats(counts: map<int, int>, totalLength: map<int, real>, segments: seq<Segment>)
  {
    (forall m :: m in counts <==> CountWithMask(segments, m) > 0) &&
    (forall m :: m in totalLength <==> m in counts) &&
    (forall m :: m in counts ==> counts[m] == CountWithMask(segments, m)) &&
    (forall m :: m in totalLength ==> totalLength[m] == LengthWithMask(segments, m))
  }

  /** One step of the statistics loop: bumping the segment's mask extends
      the statistics by that segment. */
  lemma TagStatsStep(counts: map<int, int>, totalLength: map<int, real>, segments: seq<Segment>, seg: Segment)
    requires TagStats(counts, totalLength, segments)
    ensures var c := if seg.tagMask in counts then counts[seg.tagMask] else 0;
            var l := if seg.tagMask in totalLength then totalLength[seg.tagMask] else 0.0;
            TagStats(counts[seg.tagMask := c + 1], totalLength[seg.tagMask := l + ClippedLength(seg)], segments + [seg])
  {
    var next := segments + [seg];
    var c := if seg.tagMask in counts then counts[seg.tagMask] else 0;
    var l := if seg.tagMask in totalLength then totalLength[seg.tagMask] else 0.0;
    var counts', totalLength' := counts[seg.tagMask := c + 1], totalLength[seg.tagMask := l + ClippedLength(seg)];
    forall m
      ensures m in counts' <==> CountWithMask(next, m) > 0
      ensures m in totalLength' <==> m in counts'
      ensures m in counts' ==> counts'[m] == CountWithMask(next, m)
      ensures m in totalLength' ==> totalLength'[m] == LengthWithMask(next, m)
    {
      StatsSnoc(segments, seg, m);
      if m == seg.tagMask {
        if m in counts {
          assert c == CountWithMask(segments, m);
          assert l == LengthWithMask(segments, m);
        } else {
          assert CountWithMask(segments, m) == 0;
          assert c == 0 && l == 0.0;
        }
        assert counts'[m] == c + 1;
      } else if m in counts {
        assert counts'[m] == counts[m];
      }
    }
  }

  /** DumpTagStats: per tag mask, the number of segments and the sum of
      their clipped lengths (what the asset logs). */
  method DumpTagStats(asset: CurriculumAsset) returns (counts: map<int, int>, totalLength: map<int, real>)
    ensures TagStats(counts, totalLength, asset.segments)
    ensures forall m :: m in counts <==> exists k :: 0 <= k < |asset.segments| && asset.segments[k].tagMask == m
  {
    counts, totalLength := map[], map[];
    var i := 0;
    while i < |asset.segments|
      invariant 0 <= i <= |asset.segments|
      invariant TagStats(counts, totalLength, asset.segments[..i])
    {
      var seg := asset.segments[i];
      TagStatsStep(counts, totalLength, asset.segments[..i], seg);
      assert asset.segments[..i + 1] == asset.segments[..i] + [seg];
      var c := if seg.tagMask in counts then counts[seg.tagMask] else 0;
      var l := if seg.tagMask in totalLength then totalLength[seg.tagMask] else 0.0;
      counts := counts[seg.tagMask := c + 1];
      totalLength := totalLength[seg.tagMask := l + Max(0.0, seg.endDistanceCm - seg.startDistanceCm)];
      i := i + 1;
    }
    assert asset.segments[..i] == asset.segments;
    forall m {
      CountPositive(asset.segments, m);
    }
  }
}
