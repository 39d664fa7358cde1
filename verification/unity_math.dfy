/**
 * The parts of Unity's math library (Mathf, Vector3) that the core relies on,
 * with C# `float` modelled as `real`.
 */
module UnityMath {

  datatype Vec3 = Vec3(x: real, y: real, z: real)

  /** Squared Euclidean distance. The source compares `(p - q).magnitude`;
      the square root is monotone, so every comparison of magnitudes has the
      same outcome as the comparison of squared distances. */
  function SqDist(p: Vec3, q: Vec3): (d: real)
    ensures d >= 0.0
    ensures p == q ==> d == 0.0
  {
    (p.x - q.x) * (p.x - q.x) + (p.y - q.y) * (p.y - q.y) + (p.z - q.z) * (p.z - q.z)
  }

  /** `(p - q).magnitude < r`, stated without the square root: the magnitude is
      never negative, so it is below r exactly when r is positive and its square
      is below r * r. */
  predicate WithinRadius(p: Vec3, q: Vec3, r: real)
  {
    r > 0.0 && SqDist(p, q) < r * r
  }

  lemma WithinRadiusMonotone(p: Vec3, q: Vec3, r1: real, r2: real)
    requires r1 <= r2
    requires WithinRadius(p, q, r1)
    ensures WithinRadius(p, q, r2)
  {
    assert r1 * r1 <= r2 * r2 by {
      assert 0.0 < r1 <= r2;
      assert r1 * r1 <= r1 * r2 <= r2 * r2;
    }
  }

  function Abs(n: int): (a: int)
    ensures a >= 0 && (a == n || a == -n)
  {
    if n < 0 then -n else n
  }

  /** Dividing by a positive number keeps the sign and the comparison with the divisor. */
  lemma DivByPositive(n: real, d: real)
    requires d != 0.0
    ensures d > 0.0 ==> (n / d < 0.0 <==> n < 0.0)
    ensures d > 0.0 ==> (n / d > 1.0 <==> n > d)
    ensures n / d == 1.0 <==> n == d
  {
    var q := n / d;
    assert n == q * d;
    assert n - d == (q - 1.0) * d;
    if d > 0.0 {
      MulSignByPositive(q, d);
      MulSignByPositive(q - 1.0, d);
    }
  }

  /** Multiplying by a positive number keeps the sign. */
  lemma MulSignByPositive(a: real, d: real)
    requires d > 0.0
    ensures a < 0.0 <==> a * d < 0.0
    ensures a > 0.0 <==> a * d > 0.0
  {
  }

  /** Mathf.FloorToInt */
  function FloorToInt(x: real): (n: int)
    ensures n as real <= x < n as real + 1.0
  {
    x.Floor
  }

  /** Mathf.CeilToInt */
  function CeilToInt(x: real): (n: int)
    ensures n as real - 1.0 < x <= n as real
  {
    -((-x).Floor)
  }

  /** Mathf.RoundToInt, which rounds a value halfway between two integers to the
      even one (System.Math.Round's default). */
  function RoundToInt(x: real): (n: int)
    ensures n as real - 0.5 <= x <= n as real + 0.5
    ensures (x - n as real == 0.5 || n as real - x == 0.5) ==> n % 2 == 0
  {
    var f := x.Floor;
    var frac := x - f as real;
    if frac < 0.5 then f
    else if frac > 0.5 then f + 1
    else if f % 2 == 0 then f
    else f + 1
  }

  /** Mathf.Max and Mathf.Min on integers */
  function MaxInt(a: int, b: int): int { if a >= b then a else b }
  function MinInt(a: int, b: int): int { if a <= b then a else b }

  /** Mathf.Max on floats */
  function MaxReal(a: real, b: real): real { if a >= b then a else b }

  /** Mathf.Clamp on integers */
  function ClampInt(v: int, lo: int, hi: int): (r: int)
    ensures lo <= hi ==> lo <= r <= hi
    ensures lo <= v <= hi ==> r == v
  {
    if v < lo then lo else if v > hi then hi else v
  }

  /** Mathf.Clamp on floats */
  function Clamp(v: real, lo: real, hi: real): (r: real)
    ensures lo <= hi ==> lo <= r <= hi
    ensures lo <= v <= hi ==> r == v
    ensures lo <= hi && v <= lo ==> r == lo
    ensures lo <= hi && v >= hi ==> r == hi
  {
    if v < lo then lo else if v > hi then hi else v
  }

  /** a + (b - a) * t, the unclamped linear interpolation */
  function Lerp(a: real, b: real, t: real): real
  {
    a + (b - a) * t
  }

  /** v lies on the closed segment between a and b, in either order */
  predicate Between(v: real, a: real, b: real)
  {
    (a <= v <= b) || (b <= v <= a)
  }

  lemma LerpBetween(a: real, b: real, t: real)
    requires 0.0 <= t <= 1.0
    ensures Between(Lerp(a, b, t), a, b)
  {
    var d := b - a;
    MulNonneg(if d >= 0.0 then d else -d, t);
    MulNonneg(if d >= 0.0 then d else -d, 1.0 - t);
    assert d - d * t == d * (1.0 - t);
  }

  lemma MulNonneg(a: real, b: real)
    requires a >= 0.0 && b >= 0.0
    ensures a * b >= 0.0
  {
  }

  /** Vector3.Lerp, which clamps the amount to [0, 1] */
  function LerpVec(a: Vec3, b: Vec3, t: real): (r: Vec3)
    ensures Between(r.x, a.x, b.x) && Between(r.y, a.y, b.y) && Between(r.z, a.z, b.z)
    ensures t <= 0.0 ==> r == a
    ensures t >= 1.0 ==> r == b
  {
    var s := Clamp(t, 0.0, 1.0);
    LerpBetween(a.x, b.x, s);
    LerpBetween(a.y, b.y, s);
    LerpBetween(a.z, b.z, s);
    Vec3(Lerp(a.x, b.x, s), Lerp(a.y, b.y, s), Lerp(a.z, b.z, s))
  }

  /** The parts of a Unity Transform the scripts write: the position and the
      scale relative to the parent. */
  class Transform {
    var localPosition: Vec3
    var localScale: Vec3

    constructor (position: Vec3, scale: Vec3)
      ensures localPosition == position && localScale == scale
    {
      localPosition := position;
      localScale := scale;
    }
  }
}
