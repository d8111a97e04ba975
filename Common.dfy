/** Small shared vocabulary: optional values, IEEE-style floats where the
    source checks for NaN or infinity, clamping, sums and minima. */
module Common {

  datatype Option<+T> = None | Some(value: T)

  /** A floating-point value as far as the source inspects it: finite, NaN
      or an infinity. Arithmetic on it is not modelled; finite values are
      exact reals. */
  datatype Float = Finite(v: real) | NaN | Inf(positive: bool) {
    predicate IsFinite() { Finite? }
  }

  /** `max(lo, min(hi, x))`, the clamp the source uses everywhere. */
  function Clamp(x: real, lo: real, hi: real): (r: real)
    requires lo <= hi
    ensures lo <= r <= hi
    ensures lo <= x <= hi ==> r == x
    ensures x < lo ==> r == lo
    ensures x > hi ==> r == hi
  {
    if x < lo then lo else if x > hi then hi else x
  }

  /** `FMath::Clamp`: `x < lo ? lo : (x < hi ? x : hi)`, defined for any bounds. */
  function UeClamp(x: real, lo: real, hi: real): (r: real)
    ensures lo <= hi ==> r == Clamp(x, lo, hi)
  {
    if x < lo then lo else if x < hi then x else hi
  }

  function Max(a: real, b: real): real { if a >= b then a else b }

  function Min(a: real, b: real): real { if a <= b then a else b }

  function MaxInt(a: int, b: int): int { if a >= b then a else b }

  function MinInt(a: int, b: int): int { if a <= b then a else b }

  function Abs(x: real): real { if x < 0.0 then -x else x }

  function Sum(s: seq<real>): real
  {
    if s == [] then 0.0 else Sum(s[..|s| - 1]) + s[|s| - 1]
  }

  function Mean(s: seq<real>): real
  {
    if s == [] then 0.0 else Sum(s) / |s| as real
  }

  /** The prefix one longer is the prefix followed by the next element. */
  lemma PrefixSnoc<T>(all: seq<T>, i: nat)
    requires i < |all|
    ensures all[..i + 1] == all[..i] + [all[i]]
  {
  }

  lemma {:induction false} SumAppend(s: seq<real>, t: seq<real>)
    ensures Sum(s + t) == Sum(s) + Sum(t)
  {
    if t == [] {
      assert s + t == s;
    } else {
      assert (s + t)[..|s + t| - 1] == s + t[..|t| - 1];
      SumAppend(s, t[..|t| - 1]);
    }
  }

  /** Floor of a non-negative real, for Python's `int(x)` and `math.floor`. */
  function FloorNat(x: real): (r: nat)
    requires x >= 0.0
    ensures r as real <= x < r as real + 1.0
  {
    x.Floor
  }

  /** Smallest integer not below a real: `math.ceil` / `FMath::CeilToInt`. */
  function Ceil(x: real): (r: int)
    ensures r as real >= x && (r - 1) as real < x
  {
    if x.Floor as real == x then x.Floor else x.Floor + 1
  }

  /** A square, never negative (`FMath::Square`, `x ** 2`). */
  function Square(x: real): (r: real)
    ensures r >= 0.0
  {
    x * x
  }

  function Centered(s: seq<real>, c: real): seq<real>
  {
    seq(|s|, i requires 0 <= i < |s| => s[i] - c)
  }

  function Scaled(s: seq<real>, k: real): seq<real>
    requires k != 0.0
  {
    seq(|s|, i requires 0 <= i < |s| => s[i] / k)
  }

  lemma {:induction false} SumCentered(s: seq<real>, c: real)
    ensures Sum(Centered(s, c)) == Sum(s) - |s| as real * c
  {
    if s != [] {
      var p := s[..|s| - 1];
      assert Centered(s, c)[..|s| - 1] == Centered(p, c);
      SumCentered(p, c);
    }
  }

  lemma {:induction false} SumScaled(s: seq<real>, k: real)
    requires k != 0.0
    ensures Sum(Scaled(s, k)) == Sum(s) / k
  {
    if s != [] {
      var p := s[..|s| - 1];
      assert Scaled(s, k)[..|s| - 1] == Scaled(p, k);
      SumScaled(p, k);
    }
  }

  lemma CenteredSumZero(s: seq<real>)
    ensures Sum(Centered(s, Mean(s))) == 0.0
  {
    SumCentered(s, Mean(s));
    if s != [] {
      var n := |s| as real;
      assert n * (Sum(s) / n) == Sum(s);
    }
  }

  lemma ScaledUndo(s: seq<real>, k: real)
    requires k != 0.0
    ensures forall i :: 0 <= i < |s| ==> Scaled(s, k)[i] * k == s[i]
  {
    forall i | 0 <= i < |s| ensures Scaled(s, k)[i] * k == s[i] {
      assert Scaled(s, k)[i] == s[i] / k;
    }
  }

  lemma MulMonotone(a: nat, b: nat, c: nat)
    requires a <= b
    ensures a * c <= b * c
  {
  }

  /** Euclidean division is determined by any quotient/remainder pair with
      the remainder in [0, n). */
  lemma ModUnique(a: int, n: int, q: int, r: int)
    requires n > 0 && 0 <= r < n && a == q * n + r
    ensures a % n == r && a / n == q
  {
    var q0, r0 := a / n, a % n;
    assert a == q0 * n + r0;
    assert (q - q0) * n == r0 - r;
    if q > q0 {
      MulMonotone(1, q - q0, n);
    } else if q < q0 {
      MulMonotone(1, q0 - q, n);
    }
  }

  /** A real product kept as one term, so that linear facts about it are
      not lost to the solver's polynomial normal form. */
  function Scale(z: real, y: real): real
  {
    z * y
  }

  lemma ScaleBelowOne(z: real, y: real)
    requires y > 0.0 && 0.0 <= z <= 1.0
    ensures 0.0 <= Scale(z, y) <= y
  {
  }

}
