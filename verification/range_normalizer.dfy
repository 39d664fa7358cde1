/**
 * The affine normalisation `(v - min) / (max - min)` used by every data
 * accessor, the probe and the bouncing object. No clamping is done; a degenerate
 * range (max == min) would give NaN in the source and is excluded here.
 */
module RangeNormalizer {
  import opened UnityMath

  function Normalize(v: real, lo: real, hi: real): (r: real)
    requires hi != lo
    ensures v == lo ==> r == 0.0
    ensures v == hi ==> r == 1.0
    ensures lo < hi ==> (r < 0.0 <==> v < lo) && (r > 1.0 <==> v > hi)
  {
    DivByPositive(v - lo, hi - lo);
    (v - lo) / (hi - lo)
  }

  /** Normalising undoes linear interpolation over the same range, and the other
      way round: the two are inverse affine maps. */
  lemma NormalizeLerpInverse(lo: real, hi: real, t: real, v: real)
    requires hi != lo
    ensures Normalize(Lerp(lo, hi, t), lo, hi) == t
    ensures Lerp(lo, hi, Normalize(v, lo, hi)) == v
  {
    var d := hi - lo;
    assert Lerp(lo, hi, t) - lo == d * t;
    assert (d * t) / d == t;
    assert d * ((v - lo) / d) == v - lo;
  }

  /** Normalisation preserves order on an ascending range. */
  lemma NormalizeMonotone(a: real, b: real, lo: real, hi: real)
    requires lo < hi && a <= b
    ensures Normalize(a, lo, hi) <= Normalize(b, lo, hi)
  {
    var d := hi - lo;
    assert (b - lo) / d - (a - lo) / d == (b - a) / d;
  }
}
