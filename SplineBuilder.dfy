/** The index arithmetic of ASplineGeneratingActor (SplineGeneratingActor.cpp):
    point-index wrapping, the segment count, the jump-gap and drop queries,
    the segment lookup by distance, the time-sliced build cursor, the
    rotation of the spline point list and the ground-wall triangle
    indices. Spline geometry queries are passed in as parameters. */
module SplineBuilder {
  import opened Common

  /** WrapPointIndex: 0 without points; otherwise C++'s truncating
      remainder, lifted by `numPoints` when negative, which lands in
      [0, numPoints) on the index's residue class. */
  function WrapPointIndex(index: int, numPoints: int): (r: int)
    ensures numPoints <= 0 ==> r == 0
    ensures numPoints > 0 ==> 0 <= r < numPoints && r == index % numPoints
  {
    if numPoints <= 0 then 0
    else if index >= 0 then index % numPoints
    else
      var m := -((-index) % numPoints);
      WrapNegative(index, numPoints);
      if m < 0 then m + numPoints else m
  }

  lemma WrapNegative(index: int, n: int)
    requires n > 0 && index < 0
    ensures var m := -((-index) % n); (m < 0 ==> m + n == index % n) && (m >= 0 ==> m == index % n)
  {
    var q, s := (-index) / n, (-index) % n;
    assert -index == q * n + s;
    if s == 0 {
      assert index == (-q) * n + 0;
      ModUnique(index, n, -q, 0);
    } else {
      assert index == (-q - 1) * n + (n - s);
      ModUnique(index, n, -q - 1, n - s);
    }
  }

  /** Two points one lap apart wrap to the same point. */
  lemma WrapPointIndexPeriodic(index: int, numPoints: int)
    requires numPoints > 0
    ensures WrapPointIndex(index + numPoints, numPoints) == WrapPointIndex(index, numPoints)
  {
    var r := index % numPoints;
    assert index == (index / numPoints) * numPoints + r;
    assert index + numPoints == (index / numPoints + 1) * numPoints + r;
    ModUnique(index + numPoints, numPoints, index / numPoints + 1, r);
  }

  /** BuildArrayOfSplineSegments: no spline or fewer than two points give
      no segments; a closed loop has one segment per point, an open spline
      one fewer. */
  function SegmentCount(hasSpline: bool, numPoints: int, closedLoop: bool): (r: int)
    ensures !hasSpline || numPoints < 2 ==> r == 0
    ensures hasSpline && numPoints >= 2 && closedLoop ==> r == numPoints
    ensures hasSpline && numPoints >= 2 && !closedLoop ==> r == numPoints - 1
    ensures r >= 0
  {
    if !hasSpline || numPoints < 2 then 0
    else if closedLoop then numPoints else numPoints - 1
  }

  /** FStuntGapByPoints / FStuntDropByPoints: segments [start, end). */
  datatype JumpGap = JumpGap(startPointIndex: int, endPointIndex: int)
  datatype StuntDrop = StuntDrop(startPointIndex: int, endPointIndex: int, dropHeight: real,
                                 useConstantGapHeight: bool, constantGapWorldZ: real)

  predicate GapCovers(g: JumpGap, segmentIndex: int)
  {
    g.endPointIndex > g.startPointIndex && g.startPointIndex <= segmentIndex < g.endPointIndex
  }

  predicate DropCovers(d: StuntDrop, segmentIndex: int)
  {
    d.endPointIndex > d.startPointIndex && d.startPointIndex <= segmentIndex < d.endPointIndex
  }

  /** IsSegmentInsideJumpGapByPoints: true exactly when some non-degenerate
      gap covers the segment. */
  method IsSegmentInsideJumpGap(segmentIndex: int, gaps: seq<JumpGap>) returns (inside: bool)
    ensures inside <==> exists k :: 0 <= k < |gaps| && GapCovers(gaps[k], segmentIndex)
  {
    var k := 0;
    while k < |gaps|
      invariant 0 <= k <= |gaps|
      invariant forall j :: 0 <= j < k ==> !GapCovers(gaps[j], segmentIndex)
    {
      var g := gaps[k];
      if g.endPointIndex <= g.startPointIndex {
        k := k + 1;
        continue;
      }
      if segmentIndex >= g.startPointIndex && segmentIndex < g.endPointIndex {
        return true;
      }
      k := k + 1;
    }
    return false;
  }

  datatype DropInfo = DropInfo(dropOffset: real, useConstantHeight: bool, constantGapWorldZ: real)

  /** GetDropInfoForSegmentByPoints: among the drops covering the segment,
      the one with the smallest DropHeight, the first on ties. */
  method GetDropInfoForSegment(segmentIndex: int, drops: seq<StuntDrop>)
    returns (found: bool, info: DropInfo)
    ensures !found <==> forall k :: 0 <= k < |drops| ==> !DropCovers(drops[k], segmentIndex)
    ensures !found ==> info == DropInfo(0.0, false, 0.0)
    ensures found ==>
              exists k :: 0 <= k < |drops| && DropCovers(drops[k], segmentIndex) &&
                info == DropInfo(drops[k].dropHeight, drops[k].useConstantGapHeight, drops[k].constantGapWorldZ) &&
                (forall j :: 0 <= j < k && DropCovers(drops[j], segmentIndex) ==> drops[j].dropHeight > info.dropOffset) &&
                (forall j :: k < j < |drops| && DropCovers(drops[j], segmentIndex) ==> drops[j].dropHeight >= info.dropOffset)
  {
    var hasAny := false;
    var best := 0;
    var k := 0;
    while k < |drops|
      invariant 0 <= k <= |drops|
      invariant !hasAny <==> forall j :: 0 <= j < k ==> !DropCovers(drops[j], segmentIndex)
      invariant hasAny ==> 0 <= best < k && DropCovers(drops[best], segmentIndex)
      invariant hasAny ==> forall j :: 0 <= j < best && DropCovers(drops[j], segmentIndex) ==>
                             drops[j].dropHeight > drops[best].dropHeight
      invariant hasAny ==> forall j :: best < j < k && DropCovers(drops[j], segmentIndex) ==>
                             drops[j].dropHeight >= drops[best].dropHeight
    {
      var d := drops[k];
      if d.endPointIndex > d.startPointIndex && segmentIndex >= d.startPointIndex && segmentIndex < d.endPointIndex {
        if !hasAny {
          hasAny := true;
          best := k;
        } else if d.dropHeight < drops[best].dropHeight {
          best := k;
        }
      }
      k := k + 1;
    }
    if !hasAny {
      return false, DropInfo(0.0, false, 0.0);
    }
    var d := drops[best];
    return true, DropInfo(d.dropHeight, d.useConstantGapHeight, d.constantGapWorldZ);
  }

  /** The distance range of segment `seg`: from its start point to the next
      point, or to the spline's end for the closing segment of a loop. */
  function SegmentEnd(seg: int, numPoints: int, closedLoop: bool, distanceAtPoint: int -> real,
                      splineLength: real): real
  {
    if closedLoop && seg == numPoints - 1 then splineLength else distanceAtPoint(seg + 1)
  }

  predicate SegmentContains(seg: int, distance: real, numPoints: int, closedLoop: bool,
                            distanceAtPoint: int -> real, splineLength: real)
  {
    distanceAtPoint(seg) <= distance <= SegmentEnd(seg, numPoints, closedLoop, distanceAtPoint, splineLength)
  }

  /** GetSegmentIndexFromDistance: 0 without a spline or segments; else the
      first segment whose range holds the distance, and the last segment
      when none does. */
  method GetSegmentIndexFromDistance(distance: real, hasSpline: bool, splineSegments: int, numPoints: int,
                                     closedLoop: bool, distanceAtPoint: int -> real, splineLength: real)
    returns (seg: int)
    ensures !hasSpline || splineSegments <= 0 ==> seg == 0
    ensures hasSpline && splineSegments > 0 ==> 0 <= seg < splineSegments
    ensures hasSpline && splineSegments > 0 ==>
              (forall j :: 0 <= j < seg ==>
                 !SegmentContains(j, distance, numPoints, closedLoop, distanceAtPoint, splineLength)) &&
              (SegmentContains(seg, distance, numPoints, closedLoop, distanceAtPoint, splineLength) ||
               (seg == splineSegments - 1 &&
                !SegmentContains(seg, distance, numPoints, closedLoop, distanceAtPoint, splineLength)))
  {
    if !hasSpline || splineSegments <= 0 {
      return 0;
    }
    var s := 0;
    while s < splineSegments
      invariant 0 <= s <= splineSegments
      invariant forall j :: 0 <= j < s ==>
                  !SegmentContains(j, distance, numPoints, closedLoop, distanceAtPoint, splineLength)
    {
      var d0 := distanceAtPoint(s);
      var d1 := if closedLoop && s == numPoints - 1 then splineLength else distanceAtPoint(s + 1);
      if distance >= d0 && distance <= d1 {
        return s;
      }
      s := s + 1;
    }
    return splineSegments - 1;
  }

  // ---------------------------------------------------------------------
  // Point-list rotation

  /** One spline point as the rotation copies it (location, tangents,
      rotation and scale travel together). */
  datatype SplinePoint = SplinePoint(inputKey: real, location: (real, real, real),
                                     arriveTangent: (real, real, real), leaveTangent: (real, real, real))

  /** The forward rotation: the last point moves to the front. */
  function RotatedForward<P>(s: seq<P>): (r: seq<P>)
    ensures |r| == |s| && multiset(r) == multiset(s)
    ensures |s| >= 2 ==> r[0] == s[|s| - 1] && r[1..] == s[..|s| - 1]
    ensures |s| < 2 ==> r == s
  {
    if |s| < 2 then s
    else
      assert s == s[..|s| - 1] + [s[|s| - 1]];
      [s[|s| - 1]] + s[..|s| - 1]
  }

  /** The backward rotation: the first point moves to the end. */
  function RotatedBackward<P>(s: seq<P>): (r: seq<P>)
    ensures |r| == |s| && multiset(r) == multiset(s)
    ensures |s| >= 2 ==> r[|r| - 1] == s[0] && r[..|r| - 1] == s[1..]
    ensures |s| < 2 ==> r == s
  {
    if |s| < 2 then s
    else
      assert s == [s[0]] + s[1..];
      s[1..] + [s[0]]
  }

  /** Rotating forward then backward, or backward then forward, gives the
      original list back. */
  lemma RotationsAreInverse<P>(s: seq<P>)
    ensures RotatedBackward(RotatedForward(s)) == s
    ensures RotatedForward(RotatedBackward(s)) == s
  {
    if |s| >= 2 {
      var f := RotatedForward(s);
      assert f[1..] + [f[0]] == s[..|s| - 1] + [s[|s| - 1]] == s;
      var b := RotatedBackward(s);
      assert [b[|b| - 1]] + b[..|b| - 1] == [s[0]] + s[1..] == s;
    }
  }

  // ---------------------------------------------------------------------
  // Ground walls

  /** The six indices of the quad between column `i` and column `i + 1`:
      (0,1,2),(2,1,3) from the column's base vertex, or (0,2,1),(2,3,1)
      when the winding is flipped (the left wall). */
  function QuadIndices(base: int, flipWinding: bool): seq<int>
  {
    if !flipWinding then [base, base + 1, base + 2, base + 2, base + 1, base + 3]
    else [base, base + 2, base + 1, base + 2, base + 3, base + 1]
  }

  function WallTriangles(quads: nat, flipWinding: bool): (r: seq<int>)
    ensures |r| == 6 * quads
  {
    if quads == 0 then [] else WallTriangles(quads - 1, flipWinding) + QuadIndices(2 * (quads - 1), flipWinding)
  }

  lemma {:induction false} WallTrianglesInRange(quads: nat, flipWinding: bool)
    ensures forall k :: 0 <= k < |WallTriangles(quads, flipWinding)| ==>
              0 <= WallTriangles(quads, flipWinding)[k] < 2 * (quads + 1)
  {
    if quads > 0 {
      WallTrianglesInRange(quads - 1, flipWinding);
    }
  }

  /** BuildGroundWalls raises the subdivision count to at least 4 before
      building either wall. */
  function GroundWallSubdivisionsUsed(configured: int): (r: int)
    ensures r >= 4 && r >= configured
    ensures configured >= 4 ==> r == configured
  {
    MaxInt(4, configured)
  }

  /** The index loop of BuildSingleGroundWall: nothing for fewer than two
      subdivisions; otherwise `subdivisions + 1` columns of a top and a
      bottom vertex, and two triangles between neighbouring columns, wound
      the other way for the left wall (negative side sign). */
  method GroundWallIndices(subdivisions: int, sideSign: int)
    returns (built: bool, vertexCount: int, triangles: seq<int>)
    ensures built <==> subdivisions >= 2
    ensures !built ==> vertexCount == 0 && triangles == []
    ensures built ==> vertexCount == 2 * (subdivisions + 1) && |triangles| == 6 * subdivisions
    ensures forall k :: 0 <= k < |triangles| ==> 0 <= triangles[k] < vertexCount
    ensures built ==> triangles == WallTriangles(subdivisions, sideSign < 0)
  {
    if subdivisions < 2 {
      return false, 0, [];
    }
    var flipWinding := sideSign < 0;
    vertexCount := 0;
    triangles := [];
    var i := 0;
    while i <= subdivisions
      invariant 0 <= i <= subdivisions + 1
      invariant vertexCount == 2 * i
      invariant triangles == WallTriangles(if i <= subdivisions then i else subdivisions, flipWinding)
    {
      var baseIndex := vertexCount;
      vertexCount := vertexCount + 2;
      if i < subdivisions {
        triangles := triangles + QuadIndices(baseIndex, flipWinding);
      }
      i := i + 1;
    }
    WallTrianglesInRange(subdivisions, flipWinding);
    built := true;
  }

  /** The double-sided back face: each triangle with its 2nd and 3rd index
      swapped. */
  function BackFace(tris: seq<int>): (r: seq<int>)
    requires |tris| % 3 == 0
    ensures |r| == |tris|
    ensures forall t :: 0 <= t < |tris| / 3 ==>
              r[3 * t] == tris[3 * t] && r[3 * t + 1] == tris[3 * t + 2] && r[3 * t + 2] == tris[3 * t + 1]
  {
    seq(|tris|, k requires 0 <= k < |tris| =>
      if k % 3 == 0 then tris[k] else if k % 3 == 1 then tris[k + 1] else tris[k - 1])
  }

  method BuildBackTriangles(triangles: seq<int>) returns (back: seq<int>)
    requires |triangles| % 3 == 0
    ensures back == BackFace(triangles)
  {
    back := [];
    var t := 0;
    while t < |triangles|
      invariant 0 <= t <= |triangles| && t % 3 == 0
      invariant |back| == t
      invariant forall u :: 0 <= u < t / 3 ==>
                  back[3 * u] == triangles[3 * u] && back[3 * u + 1] == triangles[3 * u + 2] &&
                  back[3 * u + 2] == triangles[3 * u + 1]
    {
      back := back + [triangles[t + 0], triangles[t + 2], triangles[t + 1]];
      t := t + 3;
    }
    BackFaceUnique(triangles, back);
  }

  /** The back face is determined by the three equations per triangle. */
  lemma BackFaceUnique(tris: seq<int>, r: seq<int>)
    requires |tris| % 3 == 0 && |r| == |tris|
    requires forall t :: 0 <= t < |tris| / 3 ==>
               r[3 * t] == tris[3 * t] && r[3 * t + 1] == tris[3 * t + 2] && r[3 * t + 2] == tris[3 * t + 1]
    ensures r == BackFace(tris)
  {
    var b := BackFace(tris);
    forall k | 0 <= k < |r|
      ensures r[k] == b[k]
    {
      var t := k / 3;
      assert k == 3 * t || k == 3 * t + 1 || k == 3 * t + 2;
    }
  }

  /** Swapping twice restores the front face. */
  lemma BackFaceInvolution(tris: seq<int>)
    requires |tris| % 3 == 0
    ensures BackFace(BackFace(tris)) == tris
  {
    var b := BackFace(tris);
    var bb := BackFace(b);
    forall k | 0 <= k < |tris|
      ensures bb[k] == tris[k]
    {
      var t := k / 3;
      assert k == 3 * t || k == 3 * t + 1 || k == 3 * t + 2;
    }
  }

  /** The left wall's flipped winding is the back face of the right wall's. */
  lemma {:induction false} FlippedIsBackFace(quads: nat)
    ensures WallTriangles(quads, true) == BackFace(WallTriangles(quads, false))
  {
    var f := WallTriangles(quads, false);
    var w := WallTriangles(quads, true);
    WallTrianglesQuad(quads, false);
    WallTrianglesQuad(quads, true);
    forall t | 0 <= t < |f| / 3
      ensures w[3 * t] == f[3 * t] && w[3 * t + 1] == f[3 * t + 2] && w[3 * t + 2] == f[3 * t + 1]
    {
      var q := t / 2;
      var j := 3 * (t % 2);
      assert 3 * t == 6 * q + j;
      assert w[6 * q + j] == QuadIndices(2 * q, true)[j];
      assert w[6 * q + j + 1] == QuadIndices(2 * q, true)[j + 1];
      assert w[6 * q + j + 2] == QuadIndices(2 * q, true)[j + 2];
      assert f[6 * q + j] == QuadIndices(2 * q, false)[j];
      assert f[6 * q + j + 1] == QuadIndices(2 * q, false)[j + 1];
      assert f[6 * q + j + 2] == QuadIndices(2 * q, false)[j + 2];
    }
    BackFaceUnique(f, w);
  }

  /** Quad `q` of a wall occupies positions 6q .. 6q+5. */
  lemma {:induction false} WallTrianglesQuad(quads: nat, flipWinding: bool)
    ensures forall q, j :: 0 <= q < quads && 0 <= j < 6 ==>
              WallTriangles(quads, flipWinding)[6 * q + j] == QuadIndices(2 * q, flipWinding)[j]
  {
    if quads > 0 {
      WallTrianglesQuad(quads - 1, flipWinding);
    }
  }

  // ---------------------------------------------------------------------
  // The actor's build state

  /** ASplineGeneratingActor: the spline's points and the async build
      state. `builtSegments` lists the segments whose meshes were built, in
      build order. */
  class SplineGeneratingActor {
    var hasTrackSpline: bool
    var hasMainMesh: bool
    var closedLoop: bool
    var points: seq<SplinePoint>
    var splineSegments: int
    var isBuilding: bool
    var pendingRebuild: bool
    var currentBuildSegmentIndex: int
    var tickEnabled: bool
    var deformLandscape: bool
    var builtSegments: seq<int>

    constructor (hasTrackSpline: bool, hasMainMesh: bool, closedLoop: bool, points: seq<SplinePoint>)
      ensures this.hasTrackSpline == hasTrackSpline && this.hasMainMesh == hasMainMesh
      ensures this.closedLoop == closedLoop && this.points == points
      ensures splineSegments == 0 && !isBuilding && !pendingRebuild && currentBuildSegmentIndex == -1
      ensures builtSegments == []
    {
      this.hasTrackSpline := hasTrackSpline;
      this.hasMainMesh := hasMainMesh;
      this.closedLoop := closedLoop;
      this.points := points;
      splineSegments := 0;
      isBuilding, pendingRebuild := false, false;
      currentBuildSegmentIndex := -1;
      tickEnabled := false;
      deformLandscape := false;
      builtSegments := [];
    }

    method BuildArrayOfSplineSegments()
      modifies this`splineSegments
      ensures splineSegments == SegmentCount(hasTrackSpline, |points|, closedLoop)
    {
      if !hasTrackSpline || |points| < 2 {
        splineSegments := 0;
        return;
      }
      splineSegments := if closedLoop then |points| else |points| - 1;
    }

    /** CancelAsyncBuild: a no-op unless a build runs or is pending;
        otherwise both flags are cleared and ticking stops. */
    method CancelAsyncBuild()
      modifies this`isBuilding, this`pendingRebuild, this`tickEnabled
      ensures !old(isBuilding) && !old(pendingRebuild) ==>
                tickEnabled == old(tickEnabled) && !isBuilding && !pendingRebuild
      ensures old(isBuilding) || old(pendingRebuild) ==> !isBuilding && !pendingRebuild && !tickEnabled
    {
      if !isBuilding && !pendingRebuild {
        return;
      }
      isBuilding := false;
      pendingRebuild := false;
      tickEnabled := false;
    }

    /** StartBuild_Internal: with segments, a spline and a mesh the build
        starts at segment 0; otherwise ticking stops and nothing starts. */
    method StartBuild()
      modifies this`isBuilding, this`currentBuildSegmentIndex, this`tickEnabled
      ensures splineSegments <= 0 || !hasTrackSpline || !hasMainMesh ==>
                !tickEnabled && isBuilding == old(isBuilding) &&
                currentBuildSegmentIndex == old(currentBuildSegmentIndex)
      ensures splineSegments > 0 && hasTrackSpline && hasMainMesh ==>
                isBuilding && currentBuildSegmentIndex == 0 && tickEnabled == old(tickEnabled)
    {
      if splineSegments <= 0 || !hasTrackSpline || !hasMainMesh {
        tickEnabled := false;
        return;
      }
      isBuilding := true;
      currentBuildSegmentIndex := 0;
    }

    /** FinishBuild_Internal: the build stops, landscape deformation is
        switched off, and ticking stops unless a rebuild is pending. */
    method FinishBuild()
      modifies this`isBuilding, this`deformLandscape, this`tickEnabled
      ensures !isBuilding && !deformLandscape
      ensures tickEnabled == (old(tickEnabled) && pendingRebuild)
    {
      isBuilding := false;
      deformLandscape := false;
      if !pendingRebuild {
        tickEnabled := false;
      }
    }

    /** BuildNextSegments: builds at most `numSegments` segments from the
        cursor on, one cursor step each, and finishes the build once the
        cursor reaches the segment count. */
    method BuildNextSegments(numSegments: int)
      modifies this`currentBuildSegmentIndex, this`builtSegments, this`isBuilding, this`deformLandscape,
               this`tickEnabled
      ensures var steps := MaxInt(0, MinInt(numSegments, splineSegments - old(currentBuildSegmentIndex)));
        currentBuildSegmentIndex == old(currentBuildSegmentIndex) + steps &&
        builtSegments == old(builtSegments) + seq(steps, k => old(currentBuildSegmentIndex) + k)
      ensures currentBuildSegmentIndex >= splineSegments ==> !isBuilding && !deformLandscape
      ensures currentBuildSegmentIndex < splineSegments ==>
                isBuilding == old(isBuilding) && tickEnabled == old(tickEnabled)
    {
      var processed := 0;
      ghost var start := currentBuildSegmentIndex;
      while currentBuildSegmentIndex < splineSegments && processed < numSegments
        invariant 0 <= processed
        invariant currentBuildSegmentIndex == start + processed
        invariant processed <= MaxInt(0, MinInt(numSegments, splineSegments - start))
        invariant builtSegments == old(builtSegments) + seq(processed, k => start + k)
        invariant isBuilding == old(isBuilding) && tickEnabled == old(tickEnabled)
        decreases splineSegments - currentBuildSegmentIndex
      {
        builtSegments := builtSegments + [currentBuildSegmentIndex];
        currentBuildSegmentIndex := currentBuildSegmentIndex + 1;
        processed := processed + 1;
      }
      if currentBuildSegmentIndex >= splineSegments {
        FinishBuild();
      }
    }

    /** RotateSplinePointsForward: the points are copied out, the last
        moved to the front and the spline refilled. Fewer than two points,
        or no spline, leave it alone. */
    method RotateSplinePointsForward()
      modifies this`points
      ensures hasTrackSpline ==> points == RotatedForward(old(points))
      ensures !hasTrackSpline ==> points == old(points)
    {
      if !hasTrackSpline || |points| < 2 {
        return;
      }
      var copy := CopyPoints();
      var last := copy[|copy| - 1];
      copy := copy[..|copy| - 1];
      copy := [last] + copy;
      points := copy;
    }

    /** RotateSplinePointsBackward: the first point moves to the end. */
    method RotateSplinePointsBackward()
      modifies this`points
      ensures hasTrackSpline ==> points == RotatedBackward(old(points))
      ensures !hasTrackSpline ==> points == old(points)
    {
      if !hasTrackSpline || |points| < 2 {
        return;
      }
      var copy := CopyPoints();
      var first := copy[0];
      copy := copy[1..];
      copy := copy + [first];
      points := copy;
    }

    /** The point-by-point copy both rotations start from. */
    method CopyPoints() returns (copy: seq<SplinePoint>)
      ensures copy == points
    {
      copy := [];
      var i := 0;
      while i < |points|
        invariant 0 <= i <= |points|
        invariant copy == points[..i]
      {
        copy := copy + [points[i]];
        i := i + 1;
      }
    }
  }
}
