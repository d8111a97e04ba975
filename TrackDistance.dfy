/** Distance along a track spline: FMath::Fmod and the wrap-or-clamp rule
    that every track component applies to a distance before it looks up
    the spline (looped tracks wrap into [0, L), open tracks clamp into
    [0, L]). Arithmetic is on exact reals. */
module TrackDistance {
  import opened Common

  /** Rounding toward zero, as a float-to-int cast does. */
  function Trunc(z: real): (t: int)
    ensures z >= 0.0 ==> t as real <= z < t as real + 1.0
    ensures z < 0.0 ==> t as real - 1.0 < z <= t as real
  {
    if z >= 0.0 then z.Floor else -((-z).Floor)
  }

  /** `d` is a whole number of laps of length `len`. */
  ghost predicate WholeLaps(d: real, len: real)
  {
    exists k: int :: d == Laps(k, len)
  }

  function Laps(k: int, len: real): real
  {
    (k as real) * len
  }

  lemma ScaleBounds(lo: real, z: real, hi: real, y: real)
    requires y > 0.0 && lo <= z <= hi
    ensures lo * y <= z * y <= hi * y
  {
  }

  lemma ScaleStrict(z: real, hi: real, y: real)
    requires y > 0.0 && z < hi
    ensures z * y < hi * y
  {
  }

  /** FMath::Fmod for a positive divisor: the remainder of truncating
      division, with the sign of the dividend and magnitude below `y`. */
  function Fmod(x: real, y: real): (r: real)
    requires y > 0.0
    ensures x >= 0.0 ==> 0.0 <= r < y
    ensures x < 0.0 ==> -y < r <= 0.0
    ensures WholeLaps(x - r, y)
  {
    var t := Trunc(x / y);
    FmodBounds(x, y, t);
    x - Laps(t, y)
  }

  lemma FmodBounds(x: real, y: real, t: int)
    requires y > 0.0 && t == Trunc(x / y)
    ensures x >= 0.0 ==> 0.0 <= x - Laps(t, y) < y
    ensures x < 0.0 ==> -y < x - Laps(t, y) <= 0.0
  {
    var z := x / y;
    assert z * y == x;
    if x >= 0.0 {
      if z < 0.0 {
        ScaleStrict(z, 0.0, y);
      }
      LapsBelow(x, y, z, t);
      LapsAbove(x, y, z, t + 1);
      LapsDifference(t + 1, t, y);
    } else {
      if z >= 0.0 {
        ScaleBounds(0.0, z, z, y);
      }
      LapsBelow(x, y, z, t - 1);
      LapsAbove(x, y, z, t);
      LapsDifference(t, t - 1, y);
    }
  }

  /** `x = z * y` is at least `t` laps when `t <= z`, more when `t < z`. */
  lemma LapsBelow(x: real, y: real, z: real, t: int)
    requires y > 0.0 && z * y == x && t as real <= z
    ensures Laps(t, y) <= x
    ensures t as real < z ==> Laps(t, y) < x
  {
    var lo := t as real;
    ScaleBounds(lo, z, z, y);
    if lo < z {
      ScaleStrict(lo, z, y);
    }
  }

  /** `x = z * y` is at most `t` laps when `z <= t`, fewer when `z < t`. */
  lemma LapsAbove(x: real, y: real, z: real, t: int)
    requires y > 0.0 && z * y == x && z <= t as real
    ensures x <= Laps(t, y)
    ensures z < t as real ==> x < Laps(t, y)
  {
    var hi := t as real;
    ScaleBounds(z, z, hi, y);
    if z < hi {
      ScaleStrict(z, hi, y);
    }
  }

  /** The looped wrap: Fmod, lifted by one lap when negative. */
  function WrapLooped(s: real, len: real): (r: real)
    requires len > 0.0
    ensures 0.0 <= r < len
    ensures WholeLaps(s - r, len)
  {
    var x := Fmod(s, len);
    if x < 0.0 then
      var k: int :| s - x == Laps(k, len);
      assert s - (x + len) == Laps(k - 1, len);
      x + len
    else x
  }

  /** A point in [0, len) on the same lap position as `s` is the wrapped
      value: the wrap is the floor-modulo of real arithmetic. */
  lemma WrapLoopedUnique(s: real, len: real, r: real, k: int)
    requires len > 0.0 && 0.0 <= r < len && s == Laps(k, len) + r
    ensures WrapLooped(s, len) == r
  {
    var w := WrapLooped(s, len);
    var j: int :| s - w == Laps(j, len);
    LapsDifference(k, j, len);
    if k != j {
      NonzeroLaps(k - j, len);
    }
  }

  lemma LapsDifference(k: int, j: int, len: real)
    ensures Laps(k, len) - Laps(j, len) == Laps(k - j, len)
  {
  }

  /** A non-zero number of laps spans at least one lap length. */
  lemma NonzeroLaps(d: int, len: real)
    requires len > 0.0 && d != 0
    ensures Laps(d, len) >= len || Laps(d, len) <= -len
  {
    if d > 0 {
      ScaleBounds(1.0, d as real, d as real, len);
    } else {
      ScaleBounds(d as real, d as real, -1.0, len);
    }
  }

  /** Wrapping is periodic in the track length and leaves a distance
      already on the lap unchanged. */
  lemma WrapLoopedPeriodic(s: real, len: real)
    requires len > 0.0
    ensures WrapLooped(s + len, len) == WrapLooped(s, len)
    ensures 0.0 <= s < len ==> WrapLooped(s, len) == s
  {
    var w := WrapLooped(s, len);
    var j: int :| s - w == Laps(j, len);
    assert s + len == Laps(j + 1, len) + w;
    WrapLoopedUnique(s + len, len, w, j + 1);
    if 0.0 <= s < len {
      assert s == Laps(0, len) + s;
      WrapLoopedUnique(s, len, s, 0);
    }
  }

  /** The curriculum builder's, debug actor's and respawn subsystem's
      distance rule: 0 for a track of length 1 cm or less, the looped wrap
      on a closed loop, a clamp into [0, len] otherwise. */
  function WrapOrClamp(s: real, len: real, looped: bool): (r: real)
    ensures len <= 1.0 ==> r == 0.0
    ensures len > 1.0 && looped ==> 0.0 <= r < len && WholeLaps(s - r, len)
    ensures len > 1.0 && !looped ==> 0.0 <= r <= len && (0.0 <= s <= len ==> r == s)
    ensures len > 1.0 && !looped && s < 0.0 ==> r == 0.0
    ensures len > 1.0 && !looped && s > len ==> r == len
  {
    if len <= 1.0 then 0.0
    else if looped then WrapLooped(s, len)
    else UeClamp(s, 0.0, len)
  }

  /** The track-frame provider's rule: 0 for a non-positive length,
      otherwise the looped wrap (the provider's spline is always treated
      as a loop). */
  function WrapOnSpline(s: real, len: real): (r: real)
    ensures len <= 0.0 ==> r == 0.0
    ensures len > 0.0 ==> 0.0 <= r < len && WholeLaps(s - r, len)
  {
    if len <= 0.0 then 0.0 else WrapLooped(s, len)
  }

  /** Applying the rule twice changes nothing. */
  lemma WrapOrClampIdempotent(s: real, len: real, looped: bool)
    ensures WrapOrClamp(WrapOrClamp(s, len, looped), len, looped) == WrapOrClamp(s, len, looped)
  {
    if len > 1.0 && looped {
      WrapLoopedPeriodic(WrapLooped(s, len), len);
    }
  }

  /** Samples at 0, step, 2 step … below `len` number Ceil(len / step). */
  lemma SampleCountExact(i: nat, step: real, len: real)
    requires step > 0.0 && len > 0.0
    requires Laps(i, step) >= len && (i == 0 || Laps(i - 1, step) < len)
    ensures i == Ceil(len / step)
  {
    var z := len / step;
    assert z * step == len;
    var n := Ceil(z);
    if i < n {
      LapsBelow(len, step, z, i);
    } else if i > n {
      LapsAbove(len, step, z, i - 1);
    }
  }

  lemma SampleBelowCount(i: nat, step: real, len: real)
    requires step > 0.0 && Laps(i, step) < len
    ensures i < Ceil(len / step)
  {
    var z := len / step;
    assert z * step == len;
    if (i as real) >= z {
      LapsAbove(len, step, z, i);
    }
  }

  lemma LapsNonNegative(i: nat, step: real)
    requires step > 0.0
    ensures Laps(i, step) >= 0.0 && Laps(i + 1, step) == Laps(i, step) + step
  {
    ScaleBounds(0.0, i as real, i as real, step);
  }

  /** A sample index below Ceil(len / step) lies on the track. */
  lemma SampleInsideLength(i: nat, step: real, len: real)
    requires step > 0.0 && i < Ceil(len / step)
    ensures 0.0 <= Laps(i, step) < len
  {
    var z := len / step;
    assert z * step == len;
    LapsBelow(len, step, z, i);
    LapsNonNegative(i, step);
  }

  /** Later samples lie further along. */
  lemma LapsIncreasing(i: int, j: int, step: real)
    requires step > 0.0 && i < j
    ensures Laps(i, step) < Laps(j, step)
  {
    ScaleStrict(i as real, j as real, step);
  }
}
