/** ANoSpawnZoneActor (NoSpawnZoneActor.cpp): a box in which nothing may
    spawn, with the direction and distance a respawn is pushed out of it. */
module NoSpawnZone {
  import opened Common

  datatype Vec3 = Vec3(x: real, y: real, z: real)

  /** ENoSpawnExitMode. */
  datatype ExitMode = Backward | Forward

  /** A zone: its box (absent when the component is missing), the box's
      world-to-local transform, and its push settings. */
  datatype Zone = Zone(hasBox: bool, scaledBoxExtent: Vec3, toLocal: Vec3 -> Vec3,
                       exitMode: ExitMode, pushDistanceCm: real, safetyExtraCm: real)

  /** A zone with the defaults: push backward by 1600 cm, 100 cm margin. */
  function DefaultZone(scaledBoxExtent: Vec3, toLocal: Vec3 -> Vec3): Zone
  {
    Zone(true, scaledBoxExtent, toLocal, Backward, 1600.0, 100.0)
  }

  /** The box test in local coordinates, every extent grown by `extraCm`. */
  predicate InsideGrownBox(local: Vec3, extent: Vec3, extraCm: real)
  {
    Abs(local.x) <= extent.x + extraCm && Abs(local.y) <= extent.y + extraCm && Abs(local.z) <= extent.z + extraCm
  }

  /** ContainsPointWithMargin: false without a box; otherwise the point, in
      the box's frame, lies within the grown box. */
  function ContainsPointWithMargin(zone: Zone, worldPoint: Vec3, extraCm: real): (r: bool)
    ensures !zone.hasBox ==> !r
    ensures zone.hasBox ==> (r <==> InsideGrownBox(zone.toLocal(worldPoint), zone.scaledBoxExtent, extraCm))
  {
    zone.hasBox && InsideGrownBox(zone.toLocal(worldPoint), zone.scaledBoxExtent, extraCm)
  }

  /** ContainsPoint: the test with the zone's own safety margin. */
  function ContainsPoint(zone: Zone, worldPoint: Vec3): (r: bool)
    ensures r == ContainsPointWithMargin(zone, worldPoint, zone.safetyExtraCm)
  {
    ContainsPointWithMargin(zone, worldPoint, zone.safetyExtraCm)
  }

  /** A larger margin contains everything a smaller one does, and the
      grown box is symmetric about the box's centre. */
  lemma MarginMonotone(zone: Zone, worldPoint: Vec3, extra1: real, extra2: real)
    requires extra1 <= extra2
    ensures ContainsPointWithMargin(zone, worldPoint, extra1) ==> ContainsPointWithMargin(zone, worldPoint, extra2)
  {
  }

  lemma GrownBoxSymmetric(local: Vec3, extent: Vec3, extraCm: real)
    ensures InsideGrownBox(local, extent, extraCm) == InsideGrownBox(Vec3(-local.x, -local.y, -local.z), extent, extraCm)
  {
  }
}
