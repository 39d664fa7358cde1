/**
 * ABRSurfaceDataAccessor: the value of the colour or pattern variable at the
 * surface vertex closest to a data-space point, normalisation against those
 * variables' ranges, and the per-frame choice of the surface impression.
 */
module SurfaceAccessor {
  import opened Wrappers
  import opened UnityMath
  import opened RangeNormalizer
  import opened ImpressionSelection

  /** SimpleSurfaceRenderInfo: the mesh vertices and, per vertex, its scalar
      channels (0: the colour variable, 1: the pattern variable). */
  datatype SurfaceRenderInfo = SurfaceRenderInfo(vertices: seq<Vec3>, scalars: seq<seq<real>>)

  /** What the accessor reads from a surface impression: its render info (None
      when it is not a SimpleSurfaceRenderInfo) and its variables' ranges. */
  datatype SurfaceData = SurfaceData(
    renderInfo: Option<SurfaceRenderInfo>,
    colorMin: real, colorMax: real,
    patternMin: real, patternMax: real)

  /** A surface data impression, as far as the accessor sees it; the accessor
      never changes it. */
  datatype SurfaceImpression = SurfaceImpression(keyDataPath: string, data: SurfaceData)

  /** Data are available, the render info is usable and holds a vertex. */
  predicate HasVertices(d: Option<SurfaceData>)
  {
    d.Some? && d.value.renderInfo.Some? && |d.value.renderInfo.value.vertices| > 0
  }

  /** Vertex k is at minimum distance from p and every earlier vertex is
      strictly farther: the first nearest vertex. */
  predicate IsFirstNearest(vs: seq<Vec3>, p: Vec3, k: int)
  {
    0 <= k < |vs| &&
    (forall i :: 0 <= i < |vs| ==> SqDist(p, vs[k]) <= SqDist(p, vs[i])) &&
    (forall i :: 0 <= i < k ==> SqDist(p, vs[k]) < SqDist(p, vs[i]))
  }

  /** At most one vertex is the first nearest. */
  lemma FirstNearestIsUnique(vs: seq<Vec3>, p: Vec3, k1: int, k2: int)
    requires IsFirstNearest(vs, p, k1) && IsFirstNearest(vs, p, k2)
    ensures k1 == k2
  {
    var d1, d2 := SqDist(p, vs[k1]), SqDist(p, vs[k2]);
    assert d1 <= d2 && d2 <= d1;
    assert !(k1 < k2);
    assert !(k2 < k1);
  }

  /** Every non-empty vertex list has a first nearest vertex. */
  lemma {:induction false} FirstNearestExists(vs: seq<Vec3>, p: Vec3)
    requires |vs| > 0
    ensures exists k :: IsFirstNearest(vs, p, k)
  {
    if |vs| == 1 {
      assert IsFirstNearest(vs, p, 0);
    } else {
      var init := vs[..|vs| - 1];
      FirstNearestExists(init, p);
      var k :| IsFirstNearest(init, p, k);
      if SqDist(p, vs[|vs| - 1]) < SqDist(p, vs[k]) {
        assert IsFirstNearest(vs, p, |vs| - 1);
      } else {
        assert IsFirstNearest(vs, p, k);
      }
    }
  }

  /** What GetScalarValueAtClosestDataSpacePoint reads: the chosen vertex's
      scalars must hold channel scalarID. */
  ghost predicate CanReadChannel(d: Option<SurfaceData>, p: Vec3, scalarID: int)
  {
    HasVertices(d) ==>
      var info := d.value.renderInfo.value;
      forall k :: IsFirstNearest(info.vertices, p, k) ==>
        k < |info.scalars| && 0 <= scalarID < |info.scalars[k]|
  }

  /** GetScalarValueAtClosestDataSpacePoint: the sentinel without data, without
      usable render info or without vertices; otherwise channel scalarID of the
      first nearest vertex. */
  method GetScalarValueAtClosestDataSpacePoint(d: Option<SurfaceData>, outOfRange: real, p: Vec3, scalarID: int)
    returns (value: real)
    requires CanReadChannel(d, p, scalarID)
    ensures !HasVertices(d) ==> value == outOfRange
    ensures HasVertices(d) ==>
      var info := d.value.renderInfo.value;
      exists k :: IsFirstNearest(info.vertices, p, k) && k < |info.scalars| &&
                  0 <= scalarID < |info.scalars[k]| && value == info.scalars[k][scalarID]
  {
    if !HasVertices(d) {
      return outOfRange;
    }
    var info := d.value.renderInfo.value;
    var vs := info.vertices;
    var closestI := 0;
    var closestDist := SqDist(p, vs[0]);
    var i := 1;
    while i < |vs|
      invariant 1 <= i <= |vs|
      invariant 0 <= closestI < i && closestDist == SqDist(p, vs[closestI])
      invariant forall j :: 0 <= j < i ==> closestDist <= SqDist(p, vs[j])
      invariant forall j :: 0 <= j < closestI ==> closestDist < SqDist(p, vs[j])
    {
      var dist := SqDist(p, vs[i]);
      if dist < closestDist {
        closestI := i;
        closestDist := dist;
      }
      i := i + 1;
    }
    assert IsFirstNearest(vs, p, closestI);
    value := info.scalars[closestI][scalarID];
  }

  /** GetColorValueAtClosestDataSpacePoint: channel 0 of the first nearest vertex. */
  method GetColorValueAtClosestDataSpacePoint(d: Option<SurfaceData>, outOfRange: real, p: Vec3)
    returns (value: real)
    requires CanReadChannel(d, p, 0)
    ensures !HasVertices(d) ==> value == outOfRange
    ensures HasVertices(d) ==>
      var info := d.value.renderInfo.value;
      exists k :: IsFirstNearest(info.vertices, p, k) && k < |info.scalars| &&
                  0 < |info.scalars[k]| && value == info.scalars[k][0]
  {
    value := GetScalarValueAtClosestDataSpacePoint(d, outOfRange, p, 0);
  }

  /** GetPatternValueAtClosestDataSpacePoint: channel 1 of the first nearest vertex. */
  method GetPatternValueAtClosestDataSpacePoint(d: Option<SurfaceData>, outOfRange: real, p: Vec3)
    returns (value: real)
    requires CanReadChannel(d, p, 1)
    ensures !HasVertices(d) ==> value == outOfRange
    ensures HasVertices(d) ==>
      var info := d.value.renderInfo.value;
      exists k :: IsFirstNearest(info.vertices, p, k) && k < |info.scalars| &&
                  1 < |info.scalars[k]| && value == info.scalars[k][1]
  {
    value := GetScalarValueAtClosestDataSpacePoint(d, outOfRange, p, 1);
  }

  // ---------------------------------------------------------------------------
  // Ranges and normalisation

  function MinColorDataValue(d: Option<SurfaceData>, outOfRange: real): (r: real)
    ensures d.None? ==> r == outOfRange
    ensures d.Some? ==> r == d.value.colorMin
  {
    if d.Some? then d.value.colorMin else outOfRange
  }

  function MaxColorDataValue(d: Option<SurfaceData>, outOfRange: real): (r: real)
    ensures d.None? ==> r == outOfRange
    ensures d.Some? ==> r == d.value.colorMax
  {
    if d.Some? then d.value.colorMax else outOfRange
  }

  function MinPatternDataValue(d: Option<SurfaceData>, outOfRange: real): (r: real)
    ensures d.None? ==> r == outOfRange
    ensures d.Some? ==> r == d.value.patternMin
  {
    if d.Some? then d.value.patternMin else outOfRange
  }

  function MaxPatternDataValue(d: Option<SurfaceData>, outOfRange: real): (r: real)
    ensures d.None? ==> r == outOfRange
    ensures d.Some? ==> r == d.value.patternMax
  {
    if d.Some? then d.value.patternMax else outOfRange
  }

  /** NormalizeColorDataValue: 0 at the colour minimum, 1 at its maximum, affine
      and unclamped (an empty range would divide by zero). */
  function NormalizeColorDataValue(d: Option<SurfaceData>, outOfRange: real, v: real): (r: real)
    requires MaxColorDataValue(d, outOfRange) != MinColorDataValue(d, outOfRange)
    ensures v == MinColorDataValue(d, outOfRange) ==> r == 0.0
    ensures v == MaxColorDataValue(d, outOfRange) ==> r == 1.0
  {
    Normalize(v, MinColorDataValue(d, outOfRange), MaxColorDataValue(d, outOfRange))
  }

  /** NormalizePatternDataValue: the same against the pattern variable's range. */
  function NormalizePatternDataValue(d: Option<SurfaceData>, outOfRange: real, v: real): (r: real)
    requires MaxPatternDataValue(d, outOfRange) != MinPatternDataValue(d, outOfRange)
    ensures v == MinPatternDataValue(d, outOfRange) ==> r == 0.0
    ensures v == MaxPatternDataValue(d, outOfRange) ==> r == 1.0
  {
    Normalize(v, MinPatternDataValue(d, outOfRange), MaxPatternDataValue(d, outOfRange))
  }

  // ---------------------------------------------------------------------------
  // The accessor component

  function Paths(imps: seq<SurfaceImpression>): (ps: seq<string>)
    ensures |ps| == |imps|
    ensures forall i :: 0 <= i < |imps| ==> ps[i] == imps[i].keyDataPath
  {
    seq(|imps|, i requires 0 <= i < |imps| => imps[i].keyDataPath)
  }

  /** The accessor component: its inspector settings, the impression it
      currently reads from, and a counter of the selection warnings issued. */
  class SurfaceDataAccessor {
    var surfaceKeyDataPath: string
    var keyDataPathCanIncludeSuffix: bool
    var outOfRangeDataValue: real
    var current: Option<SurfaceImpression>
    var selectionWarnings: nat

    /** The component's defaults (its Reset). */
    constructor()
      ensures surfaceKeyDataPath == "LANL/FireSim/KeyData/Ground"
      ensures keyDataPathCanIncludeSuffix && outOfRangeDataValue == -9999.0
      ensures current == None && selectionWarnings == 0
    {
      surfaceKeyDataPath := "LANL/FireSim/KeyData/Ground";
      keyDataPathCanIncludeSuffix := true;
      outOfRangeDataValue := -9999.0;
      current := None;
      selectionWarnings := 0;
    }

    predicate IsDataAvailable()
      reads this
    {
      current.Some?
    }

    /** The data every query of this accessor reads. */
    function Data(): (d: Option<SurfaceData>)
      reads this
      ensures d.Some? <==> IsDataAvailable()
      ensures d.Some? ==> d.value == current.value.data
    {
      if current.Some? then Some(current.value.data) else None
    }

    /** UpdateCurrentDataImpression, run every frame: reselects the impression
        among those in the scene, warning when several exist and none matches
        the key data path. */
    method UpdateCurrentDataImpression(impressions: seq<SurfaceImpression>) returns (chosen: Option<nat>)
      modifies this
      ensures IsSelection(Paths(impressions), surfaceKeyDataPath, keyDataPathCanIncludeSuffix, chosen)
      ensures chosen.Some? ==> chosen.value < |impressions| && current == Some(impressions[chosen.value])
      ensures chosen.None? ==> current == None
      ensures selectionWarnings == old(selectionWarnings) + (if |impressions| > 1 && chosen.None? then 1 else 0)
      ensures surfaceKeyDataPath == old(surfaceKeyDataPath)
      ensures keyDataPathCanIncludeSuffix == old(keyDataPathCanIncludeSuffix)
      ensures outOfRangeDataValue == old(outOfRangeDataValue)
    {
      var ambiguous;
      chosen, ambiguous := SelectImpression(Paths(impressions), surfaceKeyDataPath, keyDataPathCanIncludeSuffix);
      current := if chosen.Some? then Some(impressions[chosen.value]) else None;
      if ambiguous {
        selectionWarnings := selectionWarnings + 1;
      }
    }
  }
}
