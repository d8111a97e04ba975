/** URespawnGameInstanceSubsystem (RespawnGameInstanceSubsystem.cpp): the
    registry of no-spawn zones, the set of actors waiting for a respawn and
    their timers, the zone query, and the two searches for a safe distance
    along the track spline. Actors are identified by number; whether a weak
    pointer is still valid, the cast to a zone actor and the spline's world
    location at a distance are the `World` the queries are given. */
module Respawn {
  import opened Common
  import opened TrackDistance
  import opened NoSpawnZone

  type ActorId = int

  /** A resolved track spline: its length and whether it is a closed loop. */
  datatype TrackSpline = TrackSpline(length: real, closedLoop: bool)

  /** What the queries see of the engine: weak-pointer validity, the cast
      of an actor to a no-spawn zone, and the spline point at a distance. */
  datatype World = World(alive: ActorId -> bool, zoneOf: ActorId -> Option<Zone>, locationAt: real -> Vec3)

  /** WrapOrClampDistance: 0 without a spline or with a length of at most
      1 cm; otherwise wrapped on a closed loop and clamped on an open one. */
  function WrapOrClampDistance(spline: Option<TrackSpline>, s: real): (r: real)
    ensures spline.None? || spline.value.length <= 1.0 ==> r == 0.0
    ensures spline.Some? && spline.value.length > 1.0 ==>
              0.0 <= r <= spline.value.length && (0.0 <= s < spline.value.length ==> r == s)
    ensures spline.Some? && spline.value.length > 1.0 && spline.value.closedLoop ==>
              r < spline.value.length && WholeLaps(s - r, spline.value.length)
  {
    if spline.None? then 0.0
    else
      var r := WrapOrClamp(s, spline.value.length, spline.value.closedLoop);
      if spline.value.length > 1.0 && spline.value.closedLoop && 0.0 <= s < spline.value.length then
        assert s == Laps(0, spline.value.length) + s;
        WrapLoopedUnique(s, spline.value.length, s, 0);
        r
      else r
  }

  predicate NoDuplicates(s: seq<ActorId>)
  {
    forall i, j :: 0 <= i < j < |s| ==> s[i] != s[j]
  }

  // ---------------------------------------------------------------------
  // The no-spawn zone registry (a TSet, modelled as a duplicate-free seq
  // in iteration order)
  // ---------------------------------------------------------------------

  /** The registry after RegisterNoSpawnZone: unchanged for an invalid
      actor or one already registered, otherwise the actor is added. */
  function Registered(zones: seq<ActorId>, a: ActorId, valid: bool): (r: seq<ActorId>)
    ensures !valid || a in zones ==> r == zones
    ensures valid ==> a in r && forall x :: x in r <==> x in zones || x == a
    ensures NoDuplicates(zones) ==> NoDuplicates(r)
  {
    if !valid || a in zones then zones else zones + [a]
  }

  /** The registry with every entry `a` removed, the rest in order. */
  function Without(zones: seq<ActorId>, a: ActorId): (r: seq<ActorId>)
    ensures forall x :: x in r <==> x in zones && x != a
    ensures |r| <= |zones|
  {
    if zones == [] then []
    else
      assert forall x :: x in zones <==> x == zones[0] || x in zones[1..];
      (if zones[0] == a then [] else [zones[0]]) + Without(zones[1..], a)
  }

  /** The registry after UnRegisterNoSpawnZone: unchanged for an invalid
      or unregistered actor, otherwise without it. */
  function Unregistered(zones: seq<ActorId>, a: ActorId, valid: bool): (r: seq<ActorId>)
    ensures !valid || a !in zones ==> r == zones
    ensures valid ==> a !in r && forall x :: x in r <==> x in zones && x != a
  {
    if !valid || a !in zones then zones else Without(zones, a)
  }

  /** Removing an entry that is not there changes nothing. */
  lemma {:induction false} WithoutAbsent(zones: seq<ActorId>, a: ActorId)
    requires a !in zones
    ensures Without(zones, a) == zones
  {
    if zones != [] {
      WithoutAbsent(zones[1..], a);
      assert zones == [zones[0]] + zones[1..];
    }
  }

  /** Removing `a` from `zones + [a]` gives back `zones` when `a` was not
      in it. */
  lemma {:induction false} WithoutAppended(zones: seq<ActorId>, a: ActorId)
    requires a !in zones
    ensures Without(zones + [a], a) == zones
  {
    if zones == [] {
      assert [a][1..] == [];
    } else {
      assert (zones + [a])[1..] == zones[1..] + [a];
      WithoutAppended(zones[1..], a);
      assert zones == [zones[0]] + zones[1..];
    }
  }

  /** Registering a valid zone that was not registered and unregistering
      it again restores the registry. */
  lemma RegisterThenUnregister(zones: seq<ActorId>, a: ActorId)
    requires a !in zones
    ensures Unregistered(Registered(zones, a, true), a, true) == zones
  {
    WithoutAppended(zones, a);
  }

  // ---------------------------------------------------------------------
  // The zone query
  // ---------------------------------------------------------------------

  /** A registered actor blocks a point when its pointer is valid, it is a
      no-spawn zone, and the point lies in it with margin SafetyExtra plus
      the actor radius. */
  predicate Blocks(w: World, a: ActorId, point: Vec3, radiusCm: real)
  {
    w.alive(a) && w.zoneOf(a).Some? &&
    ContainsPointWithMargin(w.zoneOf(a).value, point, w.zoneOf(a).value.safetyExtraCm + radiusCm)
  }

  /** The first registered actor in iteration order that blocks the point. */
  function FirstBlocking(zones: seq<ActorId>, w: World, point: Vec3, radiusCm: real): (r: Option<ActorId>)
    ensures r.Some? ==> r.value in zones && Blocks(w, r.value, point, radiusCm)
    ensures r.None? ==> forall x :: x in zones ==> !Blocks(w, x, point, radiusCm)
  {
    if zones == [] then None
    else if Blocks(w, zones[0], point, radiusCm) then Some(zones[0])
    else
      assert forall x :: x in zones ==> x == zones[0] || x in zones[1..];
      FirstBlocking(zones[1..], w, point, radiusCm)
  }

  /** The zone found is the first blocking one: every entry before it
      lets the point through. */
  lemma {:induction false} FirstBlockingIsFirst(zones: seq<ActorId>, w: World, point: Vec3, radiusCm: real)
    requires FirstBlocking(zones, w, point, radiusCm).Some?
    ensures exists i :: 0 <= i < |zones| && zones[i] == FirstBlocking(zones, w, point, radiusCm).value &&
                        forall j :: 0 <= j < i ==> !Blocks(w, zones[j], point, radiusCm)
  {
    var r := FirstBlocking(zones, w, point, radiusCm).value;
    if Blocks(w, zones[0], point, radiusCm) {
      assert zones[0] == r;
    } else {
      FirstBlockingIsFirst(zones[1..], w, point, radiusCm);
      var i :| 0 <= i < |zones[1..]| && zones[1..][i] == r &&
               forall j :: 0 <= j < i ==> !Blocks(w, zones[1..][j], point, radiusCm);
      assert zones[i + 1] == r;
      forall j | 0 <= j < i + 1 ensures !Blocks(w, zones[j], point, radiusCm) {
        if j > 0 {
          assert zones[j] == zones[1..][j - 1];
        }
      }
    }
  }

  /** The entries whose weak pointers are still valid, in order. */
  function Live(zones: seq<ActorId>, w: World): (r: seq<ActorId>)
    ensures forall x :: x in r <==> x in zones && w.alive(x)
  {
    if zones == [] then []
    else
      assert forall x :: x in zones <==> x == zones[0] || x in zones[1..];
      (if w.alive(zones[0]) then [zones[0]] else []) + Live(zones[1..], w)
  }

  /** Stale entries never block: the query answers the same on the live
      entries alone. */
  lemma {:induction false} FirstBlockingLive(zones: seq<ActorId>, w: World, point: Vec3, radiusCm: real)
    ensures FirstBlocking(Live(zones, w), w, point, radiusCm) == FirstBlocking(zones, w, point, radiusCm)
  {
    if zones != [] {
      FirstBlockingLive(zones[1..], w, point, radiusCm);
      var rest := Live(zones[1..], w);
      if w.alive(zones[0]) {
        assert Live(zones, w) == [zones[0]] + rest;
        assert ([zones[0]] + rest)[1..] == rest;
        if !Blocks(w, zones[0], point, radiusCm) {
          assert FirstBlocking([zones[0]] + rest, w, point, radiusCm) == FirstBlocking(rest, w, point, radiusCm);
        }
      } else {
        assert Live(zones, w) == [] + rest == rest;
        assert !Blocks(w, zones[0], point, radiusCm);
        assert FirstBlocking(zones, w, point, radiusCm) == FirstBlocking(zones[1..], w, point, radiusCm);
      }
    }
  }

  /** Two registries with the same live entries answer the query alike. */
  lemma SameLiveSameBlocking(z1: seq<ActorId>, z2: seq<ActorId>, w: World, point: Vec3, radiusCm: real)
    requires Live(z1, w) == Live(z2, w)
    ensures FirstBlocking(z1, w, point, radiusCm) == FirstBlocking(z2, w, point, radiusCm)
  {
    FirstBlockingLive(z1, w, point, radiusCm);
    FirstBlockingLive(z2, w, point, radiusCm);
  }

  /** `pruned` is `orig` with some stale entries dropped. */
  predicate PrunedFrom(pruned: seq<ActorId>, orig: seq<ActorId>, w: World)
  {
    Live(pruned, w) == Live(orig, w) && forall x :: x in pruned ==> x in orig
  }

  /** FindBlockingNoSpawnZone's scan: the registry afterwards and the zone
      found. Stale entries met before the answer are dropped, everything
      from the blocking zone on is kept. */
  function ScanZones(zones: seq<ActorId>, w: World, point: Vec3, radiusCm: real): (r: (seq<ActorId>, Option<ActorId>))
  {
    if zones == [] then ([], None)
    else
      var a := zones[0];
      if !w.alive(a) then ScanZones(zones[1..], w, point, radiusCm)
      else if Blocks(w, a, point, radiusCm) then (zones, Some(a))
      else
        var r := ScanZones(zones[1..], w, point, radiusCm);
        ([a] + r.0, r.1)
  }

  /** The zone the scan reports is the first blocking one. */
  lemma {:induction false} ScanZonesFinds(zones: seq<ActorId>, w: World, point: Vec3, radiusCm: real)
    ensures ScanZones(zones, w, point, radiusCm).1 == FirstBlocking(zones, w, point, radiusCm)
  {
    if zones != [] {
      ScanZonesFinds(zones[1..], w, point, radiusCm);
    }
  }

  /** The scan only drops stale entries, and when no zone blocks it drops
      every stale entry. */
  lemma {:induction false} ScanZonesPrunes(zones: seq<ActorId>, w: World, point: Vec3, radiusCm: real)
    ensures PrunedFrom(ScanZones(zones, w, point, radiusCm).0, zones, w)
    ensures ScanZones(zones, w, point, radiusCm).1.None? ==> ScanZones(zones, w, point, radiusCm).0 == Live(zones, w)
  {
    if zones != [] {
      var a := zones[0];
      assert forall x :: x in zones[1..] ==> x in zones;
      if w.alive(a) && !Blocks(w, a, point, radiusCm) {
        ScanZonesPrunes(zones[1..], w, point, radiusCm);
        var r := ScanZones(zones[1..], w, point, radiusCm);
        var kept := [a] + r.0;
        assert kept[1..] == r.0;
        assert Live(kept, w) == Live(zones, w);
      } else if !w.alive(a) {
        ScanZonesPrunes(zones[1..], w, point, radiusCm);
      }
    }
  }

  /** One step of the scan at entry `i`, spelled out for the loop that
      performs it with `kept` holding the entries kept so far: a stale
      entry is dropped, a blocking zone ends the scan with the rest of
      the registry kept, and any other entry is kept. */
  lemma ScanAt(zones: seq<ActorId>, i: nat, kept: seq<ActorId>, w: World, point: Vec3, radiusCm: real)
    requires i < |zones|
    ensures !w.alive(zones[i]) ==> ScanZones(zones[i..], w, point, radiusCm) == ScanZones(zones[i + 1..], w, point, radiusCm)
    ensures Blocks(w, zones[i], point, radiusCm) ==>
              ScanZones(zones[i..], w, point, radiusCm) == (zones[i..], Some(zones[i]))
    ensures w.alive(zones[i]) && !Blocks(w, zones[i], point, radiusCm) ==>
              kept + ScanZones(zones[i..], w, point, radiusCm).0 ==
              (kept + [zones[i]]) + ScanZones(zones[i + 1..], w, point, radiusCm).0 &&
              ScanZones(zones[i..], w, point, radiusCm).1 == ScanZones(zones[i + 1..], w, point, radiusCm).1
  {
    var rest := zones[i..];
    assert rest[0] == zones[i] && rest[1..] == zones[i + 1..];
    var r := ScanZones(zones[i + 1..], w, point, radiusCm);
    assert kept + ([zones[i]] + r.0) == (kept + [zones[i]]) + r.0;
  }

  // ---------------------------------------------------------------------
  // The safe-distance search along the spline
  // ---------------------------------------------------------------------

  /** The most blocked steps FindSafeDistanceOnTrackSpline takes. */
  const MaxSafeSearchIterations: nat := 32

  /** -1 for a zone that pushes backward, +1 for one that pushes forward. */
  function ExitSign(zone: Zone): (r: real)
    ensures r == 1.0 || r == -1.0
    ensures r < 0.0 <==> zone.exitMode == Backward
  {
    if zone.exitMode == Backward then -1.0 else 1.0
  }

  /** How far one blocked step moves: the zone's push distance but at least
      twice the pawn length, plus the zone's margin and the actor radius. */
  function PushDistance(zone: Zone, pawnLengthCm: real, actorRadiusCm: real): (r: real)
    ensures r >= zone.pushDistanceCm + zone.safetyExtraCm + actorRadiusCm
    ensures r >= 2.0 * pawnLengthCm + zone.safetyExtraCm + actorRadiusCm
  {
    Max(zone.pushDistanceCm, pawnLengthCm * 2.0) + zone.safetyExtraCm + actorRadiusCm
  }

  /** One blocked step: from `s` by the push in the zone's exit
      direction, wrapped or clamped onto the spline. */
  function SearchStep(spline: TrackSpline, s: real, zone: Zone, pawnLengthCm: real, actorRadiusCm: real): (r: real)
    requires spline.length > 1.0
    ensures 0.0 <= r <= spline.length
    ensures !spline.closedLoop && zone.exitMode == Backward && s - PushDistance(zone, pawnLengthCm, actorRadiusCm) <= 0.0 ==> r == 0.0
    ensures !spline.closedLoop && zone.exitMode == Forward && s + PushDistance(zone, pawnLengthCm, actorRadiusCm) >= spline.length ==> r == spline.length
  {
    var push := PushDistance(zone, pawnLengthCm, actorRadiusCm);
    WrapOrClamp(if zone.exitMode == Backward then s - push else s + push, spline.length, spline.closedLoop)
  }

  /** The search from distance `s` with `fuel` iterations left: an
      unblocked distance is the answer; a blocked one moves by the push in
      the blocking zone's exit direction and is wrapped or clamped again. */
  function SafeSearch(zones: seq<ActorId>, w: World, spline: TrackSpline, s: real, actorRadiusCm: real,
                      pawnLengthCm: real, fuel: nat): (r: Option<real>)
    requires spline.length > 1.0 && 0.0 <= s <= spline.length
    ensures r.Some? ==> FirstBlocking(zones, w, w.locationAt(r.value), actorRadiusCm).None? &&
                        0.0 <= r.value <= spline.length
    ensures fuel > 0 && FirstBlocking(zones, w, w.locationAt(s), actorRadiusCm).None? ==> r == Some(s)
    ensures fuel == 0 ==> r.None?
    decreases fuel
  {
    if fuel == 0 then None
    else
      match FirstBlocking(zones, w, w.locationAt(s), actorRadiusCm)
      case None => Some(s)
      case Some(a) =>
        SafeSearch(zones, w, spline, SearchStep(spline, s, w.zoneOf(a).value, pawnLengthCm, actorRadiusCm),
                   actorRadiusCm, pawnLengthCm, fuel - 1)
  }

  /** The iteration bound only cuts off failures: a distance found with
      some iterations is found alike with more. */
  lemma {:induction false} SafeSearchMoreFuel(zones: seq<ActorId>, w: World, spline: TrackSpline, s: real,
                                              actorRadiusCm: real, pawnLengthCm: real, fuel: nat)
    requires spline.length > 1.0 && 0.0 <= s <= spline.length
    requires SafeSearch(zones, w, spline, s, actorRadiusCm, pawnLengthCm, fuel).Some?
    ensures SafeSearch(zones, w, spline, s, actorRadiusCm, pawnLengthCm, fuel + 1) ==
            SafeSearch(zones, w, spline, s, actorRadiusCm, pawnLengthCm, fuel)
    decreases fuel
  {
    var b := FirstBlocking(zones, w, w.locationAt(s), actorRadiusCm);
    if b.Some? {
      var next := SearchStep(spline, s, w.zoneOf(b.value).value, pawnLengthCm, actorRadiusCm);
      SafeSearchMoreFuel(zones, w, spline, next, actorRadiusCm, pawnLengthCm, fuel - 1);
    }
  }

  // ---------------------------------------------------------------------
  // The fallback search around a base distance
  // ---------------------------------------------------------------------

  /** The offset at position `j` of the search: 0 first, then +i step at
      position 2 i - 1 and -i step at position 2 i. */
  function SearchOffset(j: nat, step: real): real
  {
    if j % 2 == 1 then ((j + 1) / 2) as real * step else -((j / 2) as real * step)
  }

  /** The offsets FindSafeTrackTransform tries, in order: 0, then +i step
      and -i step for i = 1 .. steps. */
  function SearchOffsets(steps: nat, step: real): (r: seq<real>)
    ensures |r| == 2 * steps + 1 && r[0] == 0.0
  {
    seq(2 * steps + 1, j requires 0 <= j => SearchOffset(j, step))
  }

  /** Outer step `i` tries +i step, then -i step. */
  lemma SearchOffsetsAt(steps: nat, step: real, i: nat)
    requires 1 <= i <= steps
    ensures SearchOffsets(steps, step)[2 * i - 1] == i as real * step
    ensures SearchOffsets(steps, step)[2 * i] == -(i as real * step)
  {
    assert (2 * i - 1) % 2 == 1 && (2 * i - 1 + 1) / 2 == i;
    assert (2 * i) % 2 == 0 && (2 * i) / 2 == i;
  }

  /** The offset tried at outer step `i` and try `t`. */
  lemma OffsetAt(steps: nat, step: real, i: nat, t: nat, j: nat, sign: real, d: real)
    requires i <= steps && t < (if i == 0 then 1 else 2) && j == (if i == 0 then 0 else 2 * i - 1) + t
    requires sign == (if t == 0 then 1.0 else -1.0) && d == i as real * step
    ensures j < |SearchOffsets(steps, step)| && SearchOffsets(steps, step)[j] == sign * d
  {
    if i > 0 {
      SearchOffsetsAt(steps, step, i);
    }
  }

  /** The candidate distance for an offset. */
  function Candidate(spline: TrackSpline, baseS: real, offset: real): real
  {
    WrapOrClamp(baseS + offset, spline.length, spline.closedLoop)
  }

  predicate CandidateBlocked(zones: seq<ActorId>, w: World, spline: TrackSpline, baseS: real, offset: real,
                             radiusCm: real)
  {
    FirstBlocking(zones, w, w.locationAt(Candidate(spline, baseS, offset)), radiusCm).Some?
  }

  /** The first candidate, in the order of `offsets`, that no zone blocks. */
  function FirstUnblocked(zones: seq<ActorId>, w: World, spline: TrackSpline, baseS: real, offsets: seq<real>,
                          radiusCm: real): (r: Option<real>)
    ensures r.Some? ==> FirstBlocking(zones, w, w.locationAt(r.value), radiusCm).None?
    ensures r.Some? && spline.length > 1.0 ==> 0.0 <= r.value <= spline.length
  {
    if offsets == [] then None
    else if !CandidateBlocked(zones, w, spline, baseS, offsets[0], radiusCm) then
      Some(Candidate(spline, baseS, offsets[0]))
    else FirstUnblocked(zones, w, spline, baseS, offsets[1..], radiusCm)
  }

  /** FirstUnblocked from position `j` on: the candidate at `j` when it
      is free, otherwise the search goes on from `j + 1`. */
  lemma FirstUnblockedAt(zones: seq<ActorId>, w: World, spline: TrackSpline, baseS: real, offsets: seq<real>,
                         j: nat, radiusCm: real)
    requires j < |offsets|
    ensures FirstUnblocked(zones, w, spline, baseS, offsets[j..], radiusCm) ==
            if CandidateBlocked(zones, w, spline, baseS, offsets[j], radiusCm)
            then FirstUnblocked(zones, w, spline, baseS, offsets[j + 1..], radiusCm)
            else Some(Candidate(spline, baseS, offsets[j]))
  {
    assert offsets[j..][0] == offsets[j] && offsets[j..][1..] == offsets[j + 1..];
  }

  /** The candidate found is the first unblocked one in the order of the
      offsets, and none is found only when every candidate is blocked. */
  lemma {:induction false} FirstUnblockedIsFirst(zones: seq<ActorId>, w: World, spline: TrackSpline, baseS: real,
                                                 offsets: seq<real>, radiusCm: real)
    ensures var r := FirstUnblocked(zones, w, spline, baseS, offsets, radiusCm);
            r.Some? ==> exists j :: 0 <= j < |offsets| && r.value == Candidate(spline, baseS, offsets[j]) &&
                          !CandidateBlocked(zones, w, spline, baseS, offsets[j], radiusCm) &&
                          forall k :: 0 <= k < j ==> CandidateBlocked(zones, w, spline, baseS, offsets[k], radiusCm)
    ensures var r := FirstUnblocked(zones, w, spline, baseS, offsets, radiusCm);
            r.None? ==> forall j :: 0 <= j < |offsets| ==> CandidateBlocked(zones, w, spline, baseS, offsets[j], radiusCm)
  {
    if offsets != [] && CandidateBlocked(zones, w, spline, baseS, offsets[0], radiusCm) {
      FirstUnblockedIsFirst(zones, w, spline, baseS, offsets[1..], radiusCm);
      var r := FirstUnblocked(zones, w, spline, baseS, offsets[1..], radiusCm);
      assert forall j :: 1 <= j < |offsets| ==> offsets[j] == offsets[1..][j - 1];
      if r.Some? {
        var j :| 0 <= j < |offsets[1..]| && r.value == Candidate(spline, baseS, offsets[1..][j]) &&
                 !CandidateBlocked(zones, w, spline, baseS, offsets[1..][j], radiusCm) &&
                 forall k :: 0 <= k < j ==> CandidateBlocked(zones, w, spline, baseS, offsets[1..][k], radiusCm);
        assert r.value == Candidate(spline, baseS, offsets[j + 1]);
      }
    } else if offsets != [] {
      assert Candidate(spline, baseS, offsets[0]) == Candidate(spline, baseS, offsets[0]);
    }
  }

  /** The settings DoRespawn's fallback search uses. */
  const FallbackSearchStepCm: real := 400.0
  const FallbackMaxSearchSteps: nat := 24
  const FallbackSafetyExtraCm: real := 100.0

  /** Where DoRespawn places an actor whose closest spline distance is
      `startS`: the safe-distance search, or when it fails the fallback
      search around `startS`; none on a spline of at most 1 cm. */
  function RespawnPlacement(zones: seq<ActorId>, w: World, spline: TrackSpline, startS: real, actorRadiusCm: real,
                            pawnLengthCm: real): (r: Option<real>)
    ensures spline.length <= 1.0 ==> r.None?
    ensures r.Some? ==> 0.0 <= r.value <= spline.length
    ensures r.Some? ==> FirstBlocking(zones, w, w.locationAt(r.value), actorRadiusCm).None? ||
                        FirstBlocking(zones, w, w.locationAt(r.value), FallbackSafetyExtraCm).None?
  {
    if spline.length <= 1.0 then None
    else
      var safe := SafeSearch(zones, w, spline, WrapOrClamp(startS, spline.length, spline.closedLoop),
                             actorRadiusCm, pawnLengthCm, MaxSafeSearchIterations);
      if safe.Some? then safe
      else
        var r := FirstUnblocked(zones, w, spline, startS, SearchOffsets(FallbackMaxSearchSteps, FallbackSearchStepCm),
                                FallbackSafetyExtraCm);
        r
  }

  /** The subsystem's state. */
  class RespawnSubsystem {
    var noSpawnZoneActors: seq<ActorId>
    var actorsToRespawn: set<ActorId>
    /** The delay each scheduled actor's timer was set with. */
    var respawnTimers: map<ActorId, real>
    var respawnDelaySeconds: real
    var respawnHeightOffsetCm: real

    constructor ()
      ensures noSpawnZoneActors == [] && actorsToRespawn == {} && respawnTimers == map[]
      ensures respawnDelaySeconds == 5.0 && respawnHeightOffsetCm == 200.0
    {
      noSpawnZoneActors, actorsToRespawn, respawnTimers := [], {}, map[];
      respawnDelaySeconds, respawnHeightOffsetCm := 5.0, 200.0;
    }

    /** RegisterNoSpawnZone. */
    method RegisterNoSpawnZone(zoneActor: ActorId, isValid: bool)
      modifies this`noSpawnZoneActors
      ensures noSpawnZoneActors == Registered(old(noSpawnZoneActors), zoneActor, isValid)
    {
      if !isValid {
        return;
      }
      if zoneActor in noSpawnZoneActors {
        return;
      }
      noSpawnZoneActors := noSpawnZoneActors + [zoneActor];
    }

    /** UnRegisterNoSpawnZone. */
    method UnRegisterNoSpawnZone(zoneActor: ActorId, isValid: bool)
      modifies this`noSpawnZoneActors
      ensures noSpawnZoneActors == Unregistered(old(noSpawnZoneActors), zoneActor, isValid)
    {
      if !isValid {
        return;
      }
      if zoneActor !in noSpawnZoneActors {
        return;
      }
      noSpawnZoneActors := Without(noSpawnZoneActors, zoneActor);
    }

    /** NotifyRespawn: nothing for an invalid actor, without a world, or
      for an actor already scheduled; otherwise its timer is set to the
      respawn delay and it is scheduled. */
    method NotifyRespawn(actor: ActorId, isValid: bool, hasWorld: bool)
      modifies this`actorsToRespawn, this`respawnTimers
      ensures !isValid || !hasWorld || actor in old(actorsToRespawn) ==>
                actorsToRespawn == old(actorsToRespawn) && respawnTimers == old(respawnTimers)
      ensures isValid && hasWorld && actor !in old(actorsToRespawn) ==>
                actorsToRespawn == old(actorsToRespawn) + {actor} &&
                respawnTimers == old(respawnTimers)[actor := respawnDelaySeconds]
    {
      if !isValid || !hasWorld {
        return;
      }
      if actor in actorsToRespawn {
        return;
      }
      respawnTimers := respawnTimers[actor := respawnDelaySeconds];
      actorsToRespawn := actorsToRespawn + {actor};
    }

    /** FindBlockingNoSpawnZone: scans the registry in order, dropping
      stale entries, and returns the first zone that contains the point
      with margin SafetyExtra plus the radius. */
    method FindBlockingNoSpawnZone(worldPoint: Vec3, actorRadiusCm: real, w: World) returns (found: Option<ActorId>)
      modifies this`noSpawnZoneActors
      ensures (noSpawnZoneActors, found) == ScanZones(old(noSpawnZoneActors), w, worldPoint, actorRadiusCm)
    {
      var zones := noSpawnZoneActors;
      ghost var goal := ScanZones(zones, w, worldPoint, actorRadiusCm);
      var kept: seq<ActorId> := [];
      var i := 0;
      assert zones[0..] == zones;
      assert [] + goal.0 == goal.0;
      while i < |zones|
        invariant 0 <= i <= |zones|
        invariant goal.0 == kept + ScanZones(zones[i..], w, worldPoint, actorRadiusCm).0
        invariant goal.1 == ScanZones(zones[i..], w, worldPoint, actorRadiusCm).1
      {
        ScanAt(zones, i, kept, w, worldPoint, actorRadiusCm);
        var a := zones[i];
        if !w.alive(a) {
          i := i + 1;
          continue;
        }
        var zone := w.zoneOf(a);
        if zone.None? {
          kept := kept + [a];
          i := i + 1;
          continue;
        }
        if ContainsPointWithMargin(zone.value, worldPoint, zone.value.safetyExtraCm + actorRadiusCm) {
          noSpawnZoneActors := kept + zones[i..];
          return Some(a);
        }
        kept := kept + [a];
        i := i + 1;
      }
      assert zones[i..] == [];
      assert kept + [] == kept;
      noSpawnZoneActors := kept;
      found := None;
    }

    /** One FindBlockingNoSpawnZone call by a search that started from the
      registry `zones0`: the answer is the one `zones0` gives. */
    method QueryAt(ghost zones0: seq<ActorId>, point: Vec3, radiusCm: real, w: World) returns (blocking: Option<ActorId>)
      requires PrunedFrom(noSpawnZoneActors, zones0, w)
      modifies this`noSpawnZoneActors
      ensures PrunedFrom(noSpawnZoneActors, zones0, w)
      ensures blocking == FirstBlocking(zones0, w, point, radiusCm)
    {
      ghost var before := noSpawnZoneActors;
      blocking := FindBlockingNoSpawnZone(point, radiusCm, w);
      ScanZonesPrunes(before, w, point, radiusCm);
      ScanZonesFinds(before, w, point, radiusCm);
      SameLiveSameBlocking(before, zones0, w, point, radiusCm);
    }

    /** FindSafeDistanceOnTrackSpline: false and the start distance back
      without a spline or actor or on a spline of at most 1 cm; otherwise
      at most 32 steps of the search from the wrapped start distance. */
    method FindSafeDistanceOnTrackSpline(spline: Option<TrackSpline>, startDistanceCm: real, hasActor: bool,
                                         actorRadiusCm: real, pawnLengthCm: real, w: World)
      returns (ok: bool, outSafeDistanceCm: real)
      modifies this`noSpawnZoneActors
      ensures PrunedFrom(noSpawnZoneActors, old(noSpawnZoneActors), w)
      ensures spline.None? || !hasActor || spline.value.length <= 1.0 ==> !ok && outSafeDistanceCm == startDistanceCm
      ensures spline.Some? && hasActor && spline.value.length > 1.0 ==>
                var r := SafeSearch(old(noSpawnZoneActors), w, spline.value,
                                    WrapOrClamp(startDistanceCm, spline.value.length, spline.value.closedLoop),
                                    actorRadiusCm, pawnLengthCm, MaxSafeSearchIterations);
                (ok <==> r.Some?) && (ok ==> outSafeDistanceCm == r.value) && (!ok ==> outSafeDistanceCm == startDistanceCm)
    {
      outSafeDistanceCm := startDistanceCm;
      if spline.None? || !hasActor {
        return false, outSafeDistanceCm;
      }
      var sp := spline.value;
      if sp.length <= 1.0 {
        return false, outSafeDistanceCm;
      }
      ghost var zones0 := noSpawnZoneActors;
      var s := WrapOrClampDistance(spline, startDistanceCm);
      ghost var goal := SafeSearch(zones0, w, sp, s, actorRadiusCm, pawnLengthCm, MaxSafeSearchIterations);
      var iter := 0;
      while iter < MaxSafeSearchIterations
        invariant 0 <= iter <= MaxSafeSearchIterations
        invariant 0.0 <= s <= sp.length
        invariant PrunedFrom(noSpawnZoneActors, zones0, w)
        invariant SafeSearch(zones0, w, sp, s, actorRadiusCm, pawnLengthCm, MaxSafeSearchIterations - iter) == goal
      {
        var blocked, next := SafeStepAt(zones0, sp, s, actorRadiusCm, pawnLengthCm, w,
                                        MaxSafeSearchIterations - iter - 1);
        if blocked {
          s := next;
          iter := iter + 1;
          continue;
        }
        return true, s;
      }
      ok := false;
    }

    /** One iteration of FindSafeDistanceOnTrackSpline's loop at `s`:
      either `s` is free, or the next distance to try. */
    method SafeStepAt(ghost zones0: seq<ActorId>, sp: TrackSpline, s: real, actorRadiusCm: real, pawnLengthCm: real,
                      w: World, ghost fuel: nat)
      returns (blocked: bool, next: real)
      requires sp.length > 1.0 && 0.0 <= s <= sp.length
      requires PrunedFrom(noSpawnZoneActors, zones0, w)
      modifies this`noSpawnZoneActors
      ensures PrunedFrom(noSpawnZoneActors, zones0, w)
      ensures 0.0 <= next <= sp.length
      ensures !blocked ==> SafeSearch(zones0, w, sp, s, actorRadiusCm, pawnLengthCm, fuel + 1) == Some(s)
      ensures blocked ==> SafeSearch(zones0, w, sp, s, actorRadiusCm, pawnLengthCm, fuel + 1) ==
                          SafeSearch(zones0, w, sp, next, actorRadiusCm, pawnLengthCm, fuel)
    {
      var blocking := QueryAt(zones0, w.locationAt(s), actorRadiusCm, w);
      if blocking.None? {
        return false, s;
      }
      var zone := w.zoneOf(blocking.value).value;
      var sign := if zone.exitMode == Backward then -1.0 else 1.0;
      var push := Max(zone.pushDistanceCm, pawnLengthCm * 2.0) + zone.safetyExtraCm + actorRadiusCm;
      assert s + sign * push == if zone.exitMode == Backward then s - push else s + push;
      next := WrapOrClampDistance(Some(sp), s + sign * push);
      assert next == SearchStep(sp, s, zone, pawnLengthCm, actorRadiusCm);
      blocked := true;
    }

    /** FindSafeTrackTransform's distance: false without a world or spline
      or on a spline of at most 1 cm; otherwise the first candidate around
      `baseS`, in the order 0, +i step, -i step, that no zone blocks with
      margin `safetyExtraCm`, with step at least 1 and at least 0 steps. */
    method FindSafeTrackTransform(hasWorld: bool, spline: Option<TrackSpline>, baseS: real, searchStepCm: real,
                                  maxSearchSteps: int, safetyExtraCm: real, w: World)
      returns (ok: bool, candS: real)
      modifies this`noSpawnZoneActors
      ensures PrunedFrom(noSpawnZoneActors, old(noSpawnZoneActors), w)
      ensures !hasWorld || spline.None? || spline.value.length <= 1.0 ==> !ok
      ensures hasWorld && spline.Some? && spline.value.length > 1.0 ==>
                var r := FirstUnblocked(old(noSpawnZoneActors), w, spline.value, baseS,
                                        SearchOffsets(MaxInt(0, maxSearchSteps), Max(1.0, searchStepCm)), safetyExtraCm);
                (ok <==> r.Some?) && (ok ==> candS == r.value)
    {
      candS := 0.0;
      if !hasWorld || spline.None? {
        return false, candS;
      }
      var sp := spline.value;
      if sp.length <= 1.0 {
        return false, candS;
      }
      ghost var zones0 := noSpawnZoneActors;
      var steps := MaxInt(0, maxSearchSteps);
      var step := Max(1.0, searchStepCm);
      ghost var offsets := SearchOffsets(steps, step);
      var i := 0;
      ghost var tried: nat := 0;
      ghost var target := FirstUnblocked(zones0, w, sp, baseS, offsets, safetyExtraCm);
      assert offsets[0..] == offsets;
      while i <= steps
        invariant 0 <= i <= steps + 1
        invariant tried == if i == 0 then 0 else 2 * i - 1
        invariant PrunedFrom(noSpawnZoneActors, zones0, w)
        invariant tried <= |offsets|
        invariant target == FirstUnblocked(zones0, w, sp, baseS, offsets[tried..], safetyExtraCm)
      {
        var d := i as real * step;
        var tryCount := if i == 0 then 1 else 2;
        var t := 0;
        while t < tryCount
          invariant 0 <= t <= tryCount
          invariant tried == (if i == 0 then 0 else 2 * i - 1) + t
          invariant PrunedFrom(noSpawnZoneActors, zones0, w)
          invariant tried <= |offsets|
          invariant target == FirstUnblocked(zones0, w, sp, baseS, offsets[tried..], safetyExtraCm)
        {
          var sign := if t == 0 then 1.0 else -1.0;
          OffsetAt(steps, step, i, t, tried, sign, d);
          var blocked, cand := TryCandidate(zones0, sp, baseS, sign * d, safetyExtraCm, w);
          FirstUnblockedAt(zones0, w, sp, baseS, offsets, tried, safetyExtraCm);
          if blocked {
            ghost var next := tried + 1;
            assert target == FirstUnblocked(zones0, w, sp, baseS, offsets[next..], safetyExtraCm);
            t := t + 1;
            tried := next;
            continue;
          }
          return true, cand;
        }
        i := i + 1;
      }
      assert offsets[tried..] == [];
      ok := false;
    }

    /** One candidate of FindSafeTrackTransform: the candidate distance
      for `offset` and whether a zone blocks it. */
    method TryCandidate(ghost zones0: seq<ActorId>, sp: TrackSpline, baseS: real, offset: real, radiusCm: real,
                        w: World)
      returns (blocked: bool, cand: real)
      requires PrunedFrom(noSpawnZoneActors, zones0, w)
      modifies this`noSpawnZoneActors
      ensures PrunedFrom(noSpawnZoneActors, zones0, w)
      ensures cand == Candidate(sp, baseS, offset)
      ensures blocked == CandidateBlocked(zones0, w, sp, baseS, offset, radiusCm)
    {
      cand := WrapOrClampDistance(Some(sp), baseS + offset);
      var blocking := QueryAt(zones0, w.locationAt(cand), radiusCm, w);
      blocked := blocking.Some?;
    }

    /** DoRespawn: an invalid actor or a missing world only clears the
      actor's scheduling; otherwise the actor is placed at
      RespawnPlacement when the spline resolves and a place is found. In
      every case the actor leaves ActorsToRespawn and RespawnTimers. */
    method DoRespawn(actor: ActorId, isValid: bool, hasWorld: bool, spline: Option<TrackSpline>, startS: real,
                     actorRadiusCm: real, pawnLengthCm: real, w: World)
      returns (placedAt: Option<real>)
      modifies this`noSpawnZoneActors, this`actorsToRespawn, this`respawnTimers
      ensures actorsToRespawn == old(actorsToRespawn) - {actor}
      ensures respawnTimers == old(respawnTimers) - {actor}
      ensures PrunedFrom(noSpawnZoneActors, old(noSpawnZoneActors), w)
      ensures !isValid || !hasWorld || spline.None? ==> placedAt.None?
      ensures isValid && hasWorld && spline.Some? ==>
                placedAt == RespawnPlacement(old(noSpawnZoneActors), w, spline.value, startS, actorRadiusCm, pawnLengthCm)
    {
      placedAt := None;
      if !isValid || !hasWorld {
        actorsToRespawn := actorsToRespawn - {actor};
        respawnTimers := respawnTimers - {actor};
        return;
      }
      if spline.Some? {
        ghost var zones0 := noSpawnZoneActors;
        var safeOk, safeS := FindSafeDistanceOnTrackSpline(spline, startS, true, actorRadiusCm, pawnLengthCm, w);
        if safeOk {
          placedAt := Some(safeS);
        } else {
          ghost var zones1 := noSpawnZoneActors;
          var found, candS := FindSafeTrackTransform(true, spline, startS, FallbackSearchStepCm,
                                                     FallbackMaxSearchSteps, FallbackSafetyExtraCm, w);
          if spline.value.length > 1.0 {
            SameUnblocked(zones1, zones0, w, spline.value, startS,
                          SearchOffsets(FallbackMaxSearchSteps, FallbackSearchStepCm), FallbackSafetyExtraCm);
          }
          if found {
            placedAt := Some(candS);
          }
        }
      }
      actorsToRespawn := actorsToRespawn - {actor};
      respawnTimers := respawnTimers - {actor};
    }
  }

  /** Registries with the same live entries find the same fallback
      candidate. */
  lemma {:induction false} SameUnblocked(z1: seq<ActorId>, z2: seq<ActorId>, w: World, spline: TrackSpline, baseS: real,
                                         offsets: seq<real>, radiusCm: real)
    requires Live(z1, w) == Live(z2, w)
    ensures FirstUnblocked(z1, w, spline, baseS, offsets, radiusCm) == FirstUnblocked(z2, w, spline, baseS, offsets, radiusCm)
  {
    if offsets != [] {
      var c := Candidate(spline, baseS, offsets[0]);
      SameLiveSameBlocking(z1, z2, w, w.locationAt(c), radiusCm);
      SameUnblocked(z1, z2, w, spline, baseS, offsets[1..], radiusCm);
    }
  }
}
