/**
 * SetScaleFromData: scales a scene object between a minimum and a maximum
 * scale according to where a data value falls between a minimum and a
 * maximum data value.
 */
module ScaleFromData {
  import opened UnityMath
  import opened RangeNormalizer

  /** How far the data value lies between the two data values, clamped to
      [0, 1]. A degenerate range (the source divides by zero) is excluded. */
  function ScaleAmount(dataValue: real, minDataValue: real, maxDataValue: real): (amt: real)
    requires maxDataValue != minDataValue
    ensures 0.0 <= amt <= 1.0
    ensures minDataValue < maxDataValue && dataValue <= minDataValue ==> amt == 0.0
    ensures minDataValue < maxDataValue && dataValue >= maxDataValue ==> amt == 1.0
    ensures minDataValue <= dataValue <= maxDataValue ==> amt == Normalize(dataValue, minDataValue, maxDataValue)
  {
    Clamp(Normalize(dataValue, minDataValue, maxDataValue), 0.0, 1.0)
  }

  /** The scale for a data value: the clamped amount applied with Vector3.Lerp. */
  function ScaleFor(minScale: Vec3, maxScale: Vec3, dataValue: real, minDataValue: real, maxDataValue: real): Vec3
    requires maxDataValue != minDataValue
  {
    LerpVec(minScale, maxScale, ScaleAmount(dataValue, minDataValue, maxDataValue))
  }

  /** The promises of the component's tooltips: at or below the minimum data
      value the minimum scale, at or above the maximum the maximum scale, and
      every component always between the two scales' components. */
  lemma ScaleReachesBothEnds(minScale: Vec3, maxScale: Vec3, v: real, lo: real, hi: real)
    requires lo < hi
    ensures v <= lo ==> ScaleFor(minScale, maxScale, v, lo, hi) == minScale
    ensures v >= hi ==> ScaleFor(minScale, maxScale, v, lo, hi) == maxScale
    ensures var s := ScaleFor(minScale, maxScale, v, lo, hi);
            Between(s.x, minScale.x, maxScale.x) && Between(s.y, minScale.y, maxScale.y) &&
            Between(s.z, minScale.z, maxScale.z)
  {
  }

  /** A larger data value never gives a smaller scale when the maximum scale is
      the larger one, component by component. */
  lemma ScaleMonotone(minScale: Vec3, maxScale: Vec3, a: real, b: real, lo: real, hi: real)
    requires lo < hi && a <= b
    requires minScale.x <= maxScale.x && minScale.y <= maxScale.y && minScale.z <= maxScale.z
    ensures ScaleFor(minScale, maxScale, a, lo, hi).x <= ScaleFor(minScale, maxScale, b, lo, hi).x
    ensures ScaleFor(minScale, maxScale, a, lo, hi).y <= ScaleFor(minScale, maxScale, b, lo, hi).y
    ensures ScaleFor(minScale, maxScale, a, lo, hi).z <= ScaleFor(minScale, maxScale, b, lo, hi).z
  {
    var ta, tb := ScaleAmount(a, lo, hi), ScaleAmount(b, lo, hi);
    NormalizeMonotone(a, b, lo, hi);
    assert ta <= tb;
    LerpMonotone(minScale.x, maxScale.x, ta, tb);
    LerpMonotone(minScale.y, maxScale.y, ta, tb);
    LerpMonotone(minScale.z, maxScale.z, ta, tb);
  }

  lemma LerpMonotone(a: real, b: real, s: real, t: real)
    requires a <= b && s <= t
    ensures Lerp(a, b, s) <= Lerp(a, b, t)
  {
    MulNonneg(b - a, t - s);
    assert Lerp(a, b, t) - Lerp(a, b, s) == (b - a) * (t - s);
  }

  class SetScaleFromData {
    /** The transform of the object the script is attached to. */
    const transform: Transform
    var objectToScale: Transform?
    var minScale: Vec3
    var maxScale: Vec3
    var minDataValue: real
    var maxDataValue: real
    var dataValue: real

    /** The component with its defaults (its Reset), attached to an object
        with the given transform. */
    constructor (transform: Transform)
      ensures this.transform == transform && objectToScale == null
      ensures minScale == Vec3(1.0, 1.0, 1.0) && maxScale == Vec3(10.0, 10.0, 10.0)
      ensures minDataValue == 0.0 && maxDataValue == 1.0 && dataValue == 0.0
    {
      this.transform := transform;
      objectToScale := null;
      minScale := Vec3(1.0, 1.0, 1.0);
      maxScale := Vec3(10.0, 10.0, 10.0);
      minDataValue := 0.0;
      maxDataValue := 1.0;
      dataValue := 0.0;
    }

    /** Scales the script's own object unless another one was assigned. */
    method Start()
      modifies this`objectToScale
      ensures objectToScale == if old(objectToScale) == null then transform else old(objectToScale)
    {
      if objectToScale == null {
        objectToScale := transform;
      }
    }

    /** Records the value the next frame scales by; nothing else changes. */
    method SetDataValue(newValue: real)
      modifies this`dataValue
      ensures dataValue == newValue
    {
      dataValue := newValue;
    }

    /** One frame: the object's scale becomes the scale for the current value. */
    method Update()
      requires objectToScale != null && maxDataValue != minDataValue
      modifies objectToScale`localScale
      ensures objectToScale.localScale == ScaleFor(minScale, maxScale, dataValue, minDataValue, maxDataValue)
    {
      var amt := Clamp((dataValue - minDataValue) / (maxDataValue - minDataValue), 0.0, 1.0);
      var newScale := LerpVec(minScale, maxScale, amt);
      objectToScale.localScale := newScale;
    }
  }
}
