/**
 * BounceObject: moves a scene object up and down between two heights by a
 * fixed step per frame, and colours it by its height through a colour map.
 */
module Bounce {
  import opened UnityMath
  import opened RangeNormalizer
  import opened ColorMaps

  /** +1 while moving up, -1 while moving down. */
  predicate IsDirection(d: real)
  {
    d == 1.0 || d == -1.0
  }

  /** The direction after a frame that moved the object to height y: down once
      above the maximum, up once below the minimum, otherwise unchanged. */
  function NextDirection(direction: real, y: real, minHeight: real, maxHeight: real): (d: real)
    ensures IsDirection(direction) ==> IsDirection(d)
    ensures y > maxHeight ==> d == -1.0
    ensures y <= maxHeight && y < minHeight ==> d == 1.0
    ensures minHeight <= y <= maxHeight ==> d == direction
  {
    if y > maxHeight then -1.0 else if y < minHeight then 1.0 else direction
  }

  /** The state the motion depends on: height and direction. */
  datatype Motion = Motion(y: real, direction: real)

  function Step(m: Motion, minHeight: real, maxHeight: real, incPerFrame: real): Motion
  {
    var y := m.y + m.direction * incPerFrame;
    Motion(y, NextDirection(m.direction, y, minHeight, maxHeight))
  }

  /** The heights a run of frames stays within: from a start inside
      [minHeight, maxHeight] with a step no larger than the band, the object
      never gets further than one step outside it. */
  predicate InBand(m: Motion, minHeight: real, maxHeight: real, incPerFrame: real)
  {
    IsDirection(m.direction) &&
    minHeight - incPerFrame <= m.y <= maxHeight + incPerFrame &&
    (m.y > maxHeight ==> m.direction == -1.0) &&
    (m.y < minHeight ==> m.direction == 1.0)
  }

  lemma StepKeepsInBand(m: Motion, minHeight: real, maxHeight: real, incPerFrame: real)
    requires 0.0 <= incPerFrame <= maxHeight - minHeight
    requires InBand(m, minHeight, maxHeight, incPerFrame)
    ensures InBand(Step(m, minHeight, maxHeight, incPerFrame), minHeight, maxHeight, incPerFrame)
  {
  }

  /** The height after k frames. */
  function Run(m: Motion, k: nat, minHeight: real, maxHeight: real, incPerFrame: real): Motion
  {
    if k == 0 then m else Step(Run(m, k - 1, minHeight, maxHeight, incPerFrame), minHeight, maxHeight, incPerFrame)
  }

  lemma {:induction false} RunStaysInBand(m: Motion, k: nat, minHeight: real, maxHeight: real, incPerFrame: real)
    requires 0.0 <= incPerFrame <= maxHeight - minHeight
    requires InBand(m, minHeight, maxHeight, incPerFrame)
    ensures InBand(Run(m, k, minHeight, maxHeight, incPerFrame), minHeight, maxHeight, incPerFrame)
  {
    if k > 0 {
      RunStaysInBand(m, k - 1, minHeight, maxHeight, incPerFrame);
      StepKeepsInBand(Run(m, k - 1, minHeight, maxHeight, incPerFrame), minHeight, maxHeight, incPerFrame);
    }
  }

  /** The height as a fraction of the band, unclamped: 0 at the minimum and 1
      at the maximum. */
  function Data01(y: real, minHeight: real, maxHeight: real): (r: real)
    requires maxHeight != minHeight
    ensures y == minHeight ==> r == 0.0
    ensures y == maxHeight ==> r == 1.0
    ensures minHeight < maxHeight ==> (0.0 <= r <= 1.0 <==> minHeight <= y <= maxHeight)
  {
    Normalize(y, minHeight, maxHeight)
  }

  class BounceObject {
    /** The object's own transform. */
    const transform: Transform
    var colorMap: ColorMap?
    var maxBounceHeight: real
    var minBounceHeight: real
    var incPerFrame: real
    var direction: real
    /** Whether the object has a MeshRenderer whose material can be coloured. */
    const hasMeshRenderer: bool
    /** The colour of the renderer's material, once the script has fetched it. */
    var materialColor: Color

    ghost predicate Valid()
      reads this
    {
      IsDirection(direction)
    }

    /** The component with its defaults (its Reset), moving up. */
    constructor (transform: Transform, hasMeshRenderer: bool, materialColor: Color)
      ensures this.transform == transform && this.hasMeshRenderer == hasMeshRenderer
      ensures this.materialColor == materialColor && colorMap == null
      ensures maxBounceHeight == 10.0 && minBounceHeight == -10.0 && incPerFrame == 0.1
      ensures direction == 1.0 && Valid()
    {
      this.transform := transform;
      this.hasMeshRenderer := hasMeshRenderer;
      this.materialColor := materialColor;
      colorMap := null;
      maxBounceHeight := 10.0;
      minBounceHeight := -10.0;
      incPerFrame := 0.1;
      direction := 1.0;
    }

    /** One frame: moves the object by one step in the current direction,
        turns it round past either height, and, with a colour map, colours it
        by its height. Without a MeshRenderer the source dereferences a null
        material; materialMissing reports that frame, which ends there.
        colorMapWarned reports the colour map's empty-map warning. */
    method Update(toLab: Color -> Lab, fromLab: Lab -> Color) returns (materialMissing: bool, colorMapWarned: bool)
      requires Valid()
      requires colorMap != null ==> maxBounceHeight != minBounceHeight
      requires colorMap != null && |colorMap.controlPts| >= 2 ==> colorMap.CustomRangeUsable()
      modifies this`direction, this`materialColor, transform`localPosition
      ensures Valid()
      ensures var after := Step(Motion(old(transform.localPosition.y), old(direction)),
                                minBounceHeight, maxBounceHeight, incPerFrame);
              transform.localPosition == Vec3(old(transform.localPosition.x), after.y, old(transform.localPosition.z)) &&
              direction == after.direction
      ensures materialMissing <==> colorMap != null && !hasMeshRenderer
      ensures colorMapWarned <==> colorMap != null && |colorMap.controlPts| == 0
      ensures colorMap == null || materialMissing ==> materialColor == old(materialColor)
      ensures colorMap != null && !materialMissing ==>
                colorMap.IsLookupResult(Data01(transform.localPosition.y, minBounceHeight, maxBounceHeight),
                                        toLab, fromLab, materialColor)
    {
      ghost var after := Step(Motion(transform.localPosition.y, direction), minBounceHeight, maxBounceHeight, incPerFrame);
      var x := transform.localPosition.x;
      var y := transform.localPosition.y + direction * incPerFrame;
      var z := transform.localPosition.z;
      if y > maxBounceHeight {
        direction := -1.0;
      } else if y < minBounceHeight {
        direction := 1.0;
      }
      assert y == after.y && direction == after.direction;
      transform.localPosition := Vec3(x, y, z);

      materialMissing, colorMapWarned := false, false;
      if colorMap != null {
        var data01 := (y - minBounceHeight) / (maxBounceHeight - minBounceHeight);
        var newColor, warned := colorMap.LookupColor(data01, toLab, fromLab);
        colorMapWarned := warned;
        assert data01 == Data01(transform.localPosition.y, minBounceHeight, maxBounceHeight);
        if !hasMeshRenderer {
          materialMissing := true;
          return;
        }
        materialColor := newColor;
      }
    }
  }
}
