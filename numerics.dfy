/** Physical constants, the vector arithmetic the simulation uses, and the
    two transcendental functions it calls (`tanh`, `sqrt`), which the model
    leaves uninterpreted: they are parameters constrained by the predicates
    IsTanh and IsSqrt below. */
module Numerics {

  /** Speed of light in m/s. */
  const C: real := 299792458.0

  /** Length of the phi window, and also the depth of its delayed read. */
  const DeltaT: nat := 5

  /** Planck's constant in m^2 kg / s. */
  const Planck: real := 6.62607015e-34

  /** What the model assumes of `np.tanh`: its values lie strictly between -1 and 1. */
  ghost predicate IsTanh(tanh: real -> real)
  {
    forall x :: -1.0 < tanh(x) < 1.0
  }

  /** What the model assumes of `np.sqrt` on non-negative arguments: the
      non-negative square root. */
  ghost predicate IsSqrt(sqrt: real -> real)
  {
    forall x :: 0.0 <= x ==> 0.0 <= sqrt(x) && sqrt(x) * sqrt(x) == x
  }

  /** Python's `s[-1]`. */
  function Last(s: seq<real>): real
    requires |s| > 0
  {
    s[|s| - 1]
  }

  /** Sum of the squares of the components of `v`. */
  function NormSq(v: seq<real>): (r: real)
    ensures r >= 0.0
  {
    if v == [] then 0.0 else v[0] * v[0] + NormSq(v[1..])
  }

  /** `np.linalg.norm(v)`: the Euclidean length. */
  function Norm(v: seq<real>, sqrt: real -> real): (r: real)
    requires IsSqrt(sqrt)
    ensures r >= 0.0 && r * r == NormSq(v)
  {
    sqrt(NormSq(v))
  }

  /** `v * c` on a numpy vector. */
  function Scale(v: seq<real>, c: real): (r: seq<real>)
    ensures |r| == |v|
    ensures forall i :: 0 <= i < |v| ==> r[i] == v[i] * c
  {
    seq(|v|, i requires 0 <= i < |v| => v[i] * c)
  }

  /** `u + w` on numpy vectors of equal length. */
  function Add(u: seq<real>, w: seq<real>): (r: seq<real>)
    requires |u| == |w|
    ensures |r| == |u|
    ensures forall i :: 0 <= i < |u| ==> r[i] == u[i] + w[i]
  {
    seq(|u|, i requires 0 <= i < |u| => u[i] + w[i])
  }

  /** Inner product of two vectors of equal length. */
  function Dot(u: seq<real>, w: seq<real>): real
    requires |u| == |w|
  {
    if u == [] then 0.0 else u[0] * w[0] + Dot(u[1..], w[1..])
  }

  /** `np.eye(n)`. */
  function Identity(n: nat): (m: seq<seq<real>>)
    ensures |m| == n
    ensures forall i :: 0 <= i < n ==> |m[i]| == n
  {
    seq(n, i => UnitRow(n, i))
  }

  /** Row `k` of `np.eye(n)`; all zeros when `k` is outside `0..n-1`. */
  function UnitRow(n: nat, k: int): (r: seq<real>)
    ensures |r| == n
  {
    seq(n, j => if j == k then 1.0 else 0.0)
  }

  /** `np.dot(m, v)` for a matrix whose rows all have the length of `v`. */
  function MatVec(m: seq<seq<real>>, v: seq<real>): (r: seq<real>)
    requires forall i :: 0 <= i < |m| ==> |m[i]| == |v|
    ensures |r| == |m|
  {
    seq(|m|, i requires 0 <= i < |m| => Dot(m[i], v))
  }

  /** Multiplying by a unit row selects one component (zero outside the range). */
  lemma {:induction false} DotUnitRow(v: seq<real>, k: int)
    ensures Dot(UnitRow(|v|, k), v) == if 0 <= k < |v| then v[k] else 0.0
  {
    if v != [] {
      var tail := UnitRow(|v|, k)[1..];
      assert tail == UnitRow(|v| - 1, k - 1);
      DotUnitRow(v[1..], k - 1);
    }
  }

  /** The identity matrix leaves every vector unchanged. */
  lemma MatVecIdentity(v: seq<real>)
    ensures MatVec(Identity(|v|), v) == v
  {
    forall i | 0 <= i < |v|
      ensures MatVec(Identity(|v|), v)[i] == v[i]
    {
      DotUnitRow(v, i);
    }
  }

  /** Dropping the first component commutes with scaling. */
  lemma ScaleTail(v: seq<real>, c: real)
    requires v != []
    ensures Scale(v, c)[1..] == Scale(v[1..], c)
  {
    var s := Scale(v, c);
    forall i | 0 <= i < |v| - 1 ensures s[1..][i] == Scale(v[1..], c)[i] {
      assert s[i + 1] == v[i + 1] * c;
    }
  }

  /** Scaling a vector by `c` scales its squared length by `c * c`. */
  lemma {:induction false} NormSqScale(v: seq<real>, c: real)
    ensures NormSq(Scale(v, c)) == c * c * NormSq(v)
  {
    if v != [] {
      var s := Scale(v, c);
      ScaleTail(v, c);
      NormSqScale(v[1..], c);
      assert s[0] * s[0] == c * c * (v[0] * v[0]) by {
        assert s[0] == v[0] * c;
      }
      calc {
        NormSq(s);
        s[0] * s[0] + NormSq(s[1..]);
        c * c * (v[0] * v[0]) + c * c * NormSq(v[1..]);
        c * c * (v[0] * v[0] + NormSq(v[1..]));
        c * c * NormSq(v);
      }
    }
  }

  /** A product of non-zero numbers is non-zero. */
  lemma ProductNonZero(a: real, b: real)
    requires a != 0.0 && b != 0.0
    ensures a * b != 0.0
  {
  }

  /** Scaling a non-zero vector by a non-zero factor gives a non-zero vector. */
  lemma {:induction false} NormSqScaleNonZero(v: seq<real>, c: real)
    requires NormSq(v) != 0.0 && c != 0.0
    ensures NormSq(Scale(v, c)) != 0.0
  {
    var s := Scale(v, c);
    ScaleTail(v, c);
    if NormSq(v[1..]) != 0.0 {
      NormSqScaleNonZero(v[1..], c);
    } else {
      ProductNonZero(v[0], c);
      ProductNonZero(s[0], s[0]);
    }
  }

  /** `v / np.linalg.norm(v)`. A zero vector, for which numpy yields NaN
      components, is left as it is. */
  function Normalized(v: seq<real>, sqrt: real -> real): (r: seq<real>)
    requires IsSqrt(sqrt)
    ensures |r| == |v|
    ensures NormSq(v) != 0.0 ==> NormSq(r) == 1.0
  {
    var n := Norm(v, sqrt);
    if n == 0.0 then v
    else
      NormSqScale(v, 1.0 / n);
      InverseSquare(n);
      Scale(v, 1.0 / n)
  }

  lemma InverseSquare(n: real)
    requires n != 0.0
    ensures (1.0 / n) * (1.0 / n) * (n * n) == 1.0
  {
    var q := 1.0 / n;
    assert q * n == 1.0;
    calc {
      q * q * (n * n);
      (q * n) * (q * n);
      1.0;
    }
  }
}
