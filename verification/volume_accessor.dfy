/**
 * ABRVolumeDataAccessor: queries on the voxel grid of the selected volume data
 * impression (exact, nearest and trilinear lookups, data-space/voxel-space
 * conversion, containment), its lazily allocated per-voxel visibility mask, and
 * the per-frame choice of the impression.
 *
 * The pure queries take the selected impression's grid as an `Option<VolumeGrid>`
 * (None: no impression is selected, i.e. IsDataAvailable() is false) and the
 * accessor's OutOfRangeDataValue sentinel.
 */
module VolumeAccessor {
  import opened Wrappers
  import opened UnityMath
  import opened RangeNormalizer
  import opened ImpressionSelection

  /** Vector3Int */
  datatype Int3 = Int3(x: int, y: int, z: int)

  /** The data behind one volume impression: the scalar array of its colour
      variable (x fastest, then y, then z), the raw dataset's voxel dimensions and
      data-space bounds, and the colour variable's value range. */
  datatype VolumeGrid = VolumeGrid(
    data: seq<real>,
    dims: Int3,
    boundsMin: Vec3,
    boundsSize: Vec3,
    rangeMin: real,
    rangeMax: real)

  /** A grid whose array holds exactly one value per voxel. */
  predicate WellFormed(g: VolumeGrid)
  {
    g.dims.x > 0 && g.dims.y > 0 && g.dims.z > 0 &&
    |g.data| == g.dims.x * g.dims.y * g.dims.z
  }

  /** VolumeDimensionsInVoxels: (0, 0, 0) when no data are available. */
  function Dimensions(g: Option<VolumeGrid>): Int3
  {
    if g.Some? then g.value.dims else Int3(0, 0, 0)
  }

  /** MinDataValue and MaxDataValue: the colour variable's range, or the sentinel. */
  function MinDataValue(g: Option<VolumeGrid>, outOfRange: real): (r: real)
    ensures g.None? ==> r == outOfRange
  {
    if g.Some? then g.value.rangeMin else outOfRange
  }

  function MaxDataValue(g: Option<VolumeGrid>, outOfRange: real): (r: real)
    ensures g.None? ==> r == outOfRange
  {
    if g.Some? then g.value.rangeMax else outOfRange
  }

  /** Integer multiplication, written as repeated addition so that the
      verifier only multiplies where MulIsProduct is invoked; this keeps the
      index arithmetic of the trilinear lookups linear. */
  function Mul(a: int, b: int): int
    decreases if b < 0 then -b else b
  {
    if b == 0 then 0 else if b > 0 then Mul(a, b - 1) + a else Mul(a, b + 1) - a
  }

  lemma {:induction false} MulIsProduct(a: int, b: int)
    ensures Mul(a, b) == a * b
    decreases if b < 0 then -b else b
  {
    if b > 0 {
      MulIsProduct(a, b - 1);
    } else if b < 0 {
      MulIsProduct(a, b + 1);
    }
  }

  /** The linear position of voxel v in an x-fastest array of the given
      dimensions: x + y * nx + z * nx * ny. */
  function LinearIndex(v: Int3, d: Int3): int
  {
    v.x + Mul(v.y, d.x) + Mul(Mul(v.z, d.x), d.y)
  }

  lemma LinearIndexIsProduct(v: Int3, d: Int3)
    ensures LinearIndex(v, d) == v.x + v.y * d.x + v.z * d.x * d.y
  {
    MulIsProduct(v.y, d.x);
    MulIsProduct(v.z, d.x);
    MulIsProduct(v.z * d.x, d.y);
  }

  predicate InGrid(v: Int3, d: Int3)
  {
    0 <= v.x < d.x && 0 <= v.y < d.y && 0 <= v.z < d.z
  }

  /** GetValueAtVoxel: the array entry at the linear index, or the sentinel when
      no data are available or the index falls outside the array. There is no
      per-axis check. */
  function GetValueAtVoxel(g: Option<VolumeGrid>, outOfRange: real, v: Int3): (r: real)
    ensures g.Some? && 0 <= LinearIndex(v, g.value.dims) < |g.value.data| ==>
              r == g.value.data[LinearIndex(v, g.value.dims)]
    ensures !(g.Some? && 0 <= LinearIndex(v, g.value.dims) < |g.value.data|) ==> r == outOfRange
  {
    if g.Some? then
      var i := LinearIndex(v, g.value.dims);
      if 0 <= i < |g.value.data| then g.value.data[i] else outOfRange
    else outOfRange
  }

  /** A multiple of a positive d strictly between -d and d is zero. */
  lemma MulBound(d: int, k: int)
    requires d >= 0
    ensures k >= 1 ==> d * k >= d
    ensures k <= -1 ==> d * k <= -d
  {
    MulMonotone(d, 1, if k >= 1 then k else 1);
    MulMonotone(d, if k <= -1 then k else -1, -1);
  }

  lemma MulMonotone(a: int, b: int, c: int)
    requires a >= 0 && b <= c
    ensures a * b <= a * c
  {
    MulNonnegInt(a, c - b);
    assert a * c - a * b == a * (c - b);
  }

  lemma MulNonnegInt(a: int, b: int)
    requires a >= 0 && b >= 0
    ensures a * b >= 0
  {
  }

  /** Euclidean division of a + d * q by d, for 0 <= a < d, gives q remainder a. */
  lemma DivModUnique(a: int, d: int, q: int)
    requires 0 <= a < d
    ensures (a + d * q) / d == q && (a + d * q) % d == a
  {
    var n := a + d * q;
    var k := n / d - q;
    assert d * k == d * (n / d) - d * q;
    assert d * k == a - n % d;
    MulBound(d, k);
  }

  /** The linear index in nested form: x + nx * (y + ny * z). */
  lemma LinearIndexNested(v: Int3, d: Int3)
    ensures LinearIndex(v, d) == v.x + d.x * (v.y + d.y * v.z)
    ensures LinearIndex(v, d) == (v.x + d.x * v.y) + (d.x * d.y) * v.z
  {
    LinearIndexIsProduct(v, d);
    assert v.z * d.x * d.y == d.x * (d.y * v.z);
    assert v.z * d.x * d.y == (d.x * d.y) * v.z;
  }

  /** Every voxel inside the grid has its own index in the array, and the voxel
      can be recovered from it: the linear layout is a bijection. */
  lemma LinearIndexRoundTrip(v: Int3, d: Int3)
    requires InGrid(v, d)
    ensures 0 <= LinearIndex(v, d) < d.x * d.y * d.z
    ensures LinearIndex(v, d) % d.x == v.x
    ensures (LinearIndex(v, d) / d.x) % d.y == v.y
    ensures LinearIndex(v, d) / d.x / d.y == v.z
  {
    var i := LinearIndex(v, d);
    var w := v.y + d.y * v.z;
    LinearIndexNested(v, d);
    DivModUnique(v.x, d.x, w);
    DivModUnique(v.y, d.y, v.z);
    MulNonnegInt(d.y, v.z);
    MulNonnegInt(d.x, w);
    MulMonotone(d.y, v.z + 1, d.z);
    assert w < d.y * d.z by {
      assert d.y * (v.z + 1) == d.y * v.z + d.y;
    }
    MulMonotone(d.x, w + 1, d.y * d.z);
    assert i < d.x * (d.y * d.z) by {
      assert d.x * (w + 1) == d.x * w + d.x;
    }
    assert d.x * (d.y * d.z) == d.x * d.y * d.z;
  }

  /** Inside a well-formed grid the lookup never returns the sentinel: it reads
      the array at the voxel's own, distinct index. */
  lemma VoxelInGridIsRead(g: VolumeGrid, outOfRange: real, v: Int3)
    requires WellFormed(g) && InGrid(v, g.dims)
    ensures 0 <= LinearIndex(v, g.dims) < |g.data|
    ensures GetValueAtVoxel(Some(g), outOfRange, v) == g.data[LinearIndex(v, g.dims)]
  {
    LinearIndexRoundTrip(v, g.dims);
  }

  /** Distinct voxels of the grid occupy distinct array entries. */
  lemma LinearIndexInjective(v: Int3, w: Int3, d: Int3)
    requires InGrid(v, d) && InGrid(w, d)
    ensures LinearIndex(v, d) == LinearIndex(w, d) ==> v == w
  {
    LinearIndexRoundTrip(v, d);
    LinearIndexRoundTrip(w, d);
  }

  /** Without a per-axis check, x == nx reads the voxel (0, y + 1, z). */
  lemma XOverflowAliasesNextRow(g: Option<VolumeGrid>, outOfRange: real, y: int, z: int)
    ensures GetValueAtVoxel(g, outOfRange, Int3(Dimensions(g).x, y, z)) ==
            GetValueAtVoxel(g, outOfRange, Int3(0, y + 1, z))
  {
    var d := Dimensions(g);
    LinearIndexIsProduct(Int3(d.x, y, z), d);
    LinearIndexIsProduct(Int3(0, y + 1, z), d);
    assert LinearIndex(Int3(d.x, y, z), d) == LinearIndex(Int3(0, y + 1, z), d);
  }

  /** ContainsVoxelSpacePoint: each coordinate lies in [0, dim) of its axis,
      that is, the voxel whose cell holds the point is in the grid. */
  function ContainsVoxelSpacePoint(g: Option<VolumeGrid>, p: Vec3): (r: bool)
    ensures r <==> g.Some? && InGrid(Int3(FloorToInt(p.x), FloorToInt(p.y), FloorToInt(p.z)), g.value.dims)
  {
    g.Some? &&
    0.0 <= p.x < g.value.dims.x as real &&
    0.0 <= p.y < g.value.dims.y as real &&
    0.0 <= p.z < g.value.dims.z as real
  }

  /** The voxel GetValueAtNearestVoxel reads: each coordinate rounded (half to
      even) and clamped into [0, dim - 1]. */
  function NearestVoxel(d: Int3, p: Vec3): (v: Int3)
    ensures d.x > 0 && d.y > 0 && d.z > 0 ==> InGrid(v, d)
  {
    Int3(ClampInt(RoundToInt(p.x), 0, d.x - 1),
         ClampInt(RoundToInt(p.y), 0, d.y - 1),
         ClampInt(RoundToInt(p.z), 0, d.z - 1))
  }

  /** GetValueAtNearestVoxel: the sentinel unless data are available and the
      point is inside the grid; otherwise the value of an in-grid voxel less
      than one voxel away from the point on every axis. */
  function GetValueAtNearestVoxel(g: Option<VolumeGrid>, outOfRange: real, p: Vec3): (r: real)
    ensures !ContainsVoxelSpacePoint(g, p) ==> r == outOfRange
    ensures ContainsVoxelSpacePoint(g, p) ==>
      var v := NearestVoxel(g.value.dims, p);
      InGrid(v, g.value.dims) && r == GetValueAtVoxel(g, outOfRange, v) &&
      -1.0 < v.x as real - p.x <= 0.5 &&
      -1.0 < v.y as real - p.y <= 0.5 &&
      -1.0 < v.z as real - p.z <= 0.5
  {
    if g.Some? && ContainsVoxelSpacePoint(g, p) then
      GetValueAtVoxel(g, outOfRange, NearestVoxel(g.value.dims, p))
    else outOfRange
  }

  /** In a well-formed grid, a contained point reads one of the stored values. */
  lemma NearestVoxelReadsStoredValue(g: VolumeGrid, outOfRange: real, p: Vec3)
    requires WellFormed(g) && ContainsVoxelSpacePoint(Some(g), p)
    ensures GetValueAtNearestVoxel(Some(g), outOfRange, p) in g.data
  {
    var v := NearestVoxel(g.dims, p);
    LinearIndexRoundTrip(v, g.dims);
  }

  /** The eight-voxel cell around a fractional voxel-space point: floor indices
      clamped at >= 0, ceiling indices clamped at <= dim - 1, and the fractional
      offsets from the floor indices clamped at >= 0. */
  datatype Cell = Cell(lo: Int3, hi: Int3, frac: Vec3)

  function TrilinearCell(d: Int3, p: Vec3): (c: Cell)
    ensures c.lo.x >= 0 && c.lo.y >= 0 && c.lo.z >= 0
    ensures c.hi.x <= d.x - 1 && c.hi.y <= d.y - 1 && c.hi.z <= d.z - 1
    ensures c.frac.x >= 0.0 && c.frac.y >= 0.0 && c.frac.z >= 0.0
    ensures 0.0 <= p.x <= (d.x - 1) as real ==>
              c.lo.x as real <= p.x && c.frac.x == p.x - c.lo.x as real < 1.0 &&
              (c.hi.x == c.lo.x + 1 || (c.hi.x == c.lo.x && c.frac.x == 0.0))
    ensures 0.0 <= p.y <= (d.y - 1) as real ==>
              c.lo.y as real <= p.y && c.frac.y == p.y - c.lo.y as real < 1.0 &&
              (c.hi.y == c.lo.y + 1 || (c.hi.y == c.lo.y && c.frac.y == 0.0))
    ensures 0.0 <= p.z <= (d.z - 1) as real ==>
              c.lo.z as real <= p.z && c.frac.z == p.z - c.lo.z as real < 1.0 &&
              (c.hi.z == c.lo.z + 1 || (c.hi.z == c.lo.z && c.frac.z == 0.0))
  {
    var lo := Int3(MaxInt(FloorToInt(p.x), 0), MaxInt(FloorToInt(p.y), 0), MaxInt(FloorToInt(p.z), 0));
    var hi := Int3(MinInt(CeilToInt(p.x), d.x - 1), MinInt(CeilToInt(p.y), d.y - 1), MinInt(CeilToInt(p.z), d.z - 1));
    Cell(lo, hi, Vec3(MaxReal(p.x - lo.x as real, 0.0), MaxReal(p.y - lo.y as real, 0.0), MaxReal(p.z - lo.z as real, 0.0)))
  }

  /** The eight values read around a point, named after their position in the
      unit cube (x, y, z): v000 at the floor indices, v111 at the ceiling ones. */
  datatype Corners = Corners(
    v000: real, v100: real, v010: real, v110: real,
    v001: real, v101: real, v011: real, v111: real)

  /** The corner values GetValueAtVoxelSpacePoint reads. As written, the four
      z = ceiling corners pair the x indices the other way round from the z =
      floor ones: v001 is read at xCeil and v101 at xFloor (likewise v011 and
      v111). */
  function CornerValues(g: Option<VolumeGrid>, outOfRange: real, c: Cell): (k: Corners)
    ensures k.v000 == GetValueAtVoxel(g, outOfRange, c.lo)
    ensures k.v100 == GetValueAtVoxel(g, outOfRange, Int3(c.hi.x, c.lo.y, c.lo.z))
    ensures k.v010 == GetValueAtVoxel(g, outOfRange, Int3(c.lo.x, c.hi.y, c.lo.z))
    ensures k.v110 == GetValueAtVoxel(g, outOfRange, Int3(c.hi.x, c.hi.y, c.lo.z))
    ensures k.v001 == GetValueAtVoxel(g, outOfRange, Int3(c.hi.x, c.lo.y, c.hi.z))
    ensures k.v101 == GetValueAtVoxel(g, outOfRange, Int3(c.lo.x, c.lo.y, c.hi.z))
    ensures k.v011 == GetValueAtVoxel(g, outOfRange, Int3(c.hi.x, c.hi.y, c.hi.z))
    ensures k.v111 == GetValueAtVoxel(g, outOfRange, Int3(c.lo.x, c.hi.y, c.hi.z))
  {
    Corners(
      GetValueAtVoxel(g, outOfRange, Int3(c.lo.x, c.lo.y, c.lo.z)),
      GetValueAtVoxel(g, outOfRange, Int3(c.hi.x, c.lo.y, c.lo.z)),
      GetValueAtVoxel(g, outOfRange, Int3(c.lo.x, c.hi.y, c.lo.z)),
      GetValueAtVoxel(g, outOfRange, Int3(c.hi.x, c.hi.y, c.lo.z)),
      GetValueAtVoxel(g, outOfRange, Int3(c.hi.x, c.lo.y, c.hi.z)),
      GetValueAtVoxel(g, outOfRange, Int3(c.lo.x, c.lo.y, c.hi.z)),
      GetValueAtVoxel(g, outOfRange, Int3(c.hi.x, c.hi.y, c.hi.z)),
      GetValueAtVoxel(g, outOfRange, Int3(c.lo.x, c.hi.y, c.hi.z)))
  }

  /** The interpolation: along x on the four edges, then along z in the y = 0
      and y = 1 planes, then along y. */
  function Blend(f: Vec3, k: Corners): real
  {
    var vx00 := k.v000 + f.x * (k.v100 - k.v000);
    var vx01 := k.v001 + f.x * (k.v101 - k.v001);
    var vx10 := k.v010 + f.x * (k.v110 - k.v010);
    var vx11 := k.v011 + f.x * (k.v111 - k.v011);
    var vx0z := vx00 + f.z * (vx01 - vx00);
    var vx1z := vx10 + f.z * (vx11 - vx10);
    vx0z + f.y * (vx1z - vx0z)
  }

  /** GetValueAtVoxelSpacePoint, as written: the blend of the eight corner values
      around the point, with the fractional offsets of the clamped cell. */
  function GetValueAtVoxelSpacePoint(g: Option<VolumeGrid>, outOfRange: real, p: Vec3): (r: real)
    ensures g.None? ==> r == outOfRange
  {
    var c := TrilinearCell(Dimensions(g), p);
    Blend(c.frac, CornerValues(g, outOfRange, c))
  }

  /** At integer coordinates inside the grid all eight corners are the same
      voxel, so trilinear sampling reduces to the exact lookup. */
  lemma TrilinearAtVoxelIsExact(g: VolumeGrid, outOfRange: real, v: Int3)
    requires InGrid(v, g.dims)
    ensures GetValueAtVoxelSpacePoint(Some(g), outOfRange, Vec3(v.x as real, v.y as real, v.z as real)) ==
            GetValueAtVoxel(Some(g), outOfRange, v)
  {
    var p := Vec3(v.x as real, v.y as real, v.z as real);
    var c := TrilinearCell(g.dims, p);
    assert c.lo == v && c.hi == v;
  }

  /** The centre (0.5, 0.5, 0.5) of the first cell samples the mean of that
      cell's eight voxels; on a 2 x 2 x 2 grid these are all the voxels. */
  lemma TrilinearCentreIsMean(g: VolumeGrid, outOfRange: real)
    requires g.dims.x >= 2 && g.dims.y >= 2 && g.dims.z >= 2
    ensures var o := Some(g);
      GetValueAtVoxelSpacePoint(o, outOfRange, Vec3(0.5, 0.5, 0.5)) ==
      (GetValueAtVoxel(o, outOfRange, Int3(0, 0, 0)) + GetValueAtVoxel(o, outOfRange, Int3(1, 0, 0)) +
       GetValueAtVoxel(o, outOfRange, Int3(0, 1, 0)) + GetValueAtVoxel(o, outOfRange, Int3(1, 1, 0)) +
       GetValueAtVoxel(o, outOfRange, Int3(0, 0, 1)) + GetValueAtVoxel(o, outOfRange, Int3(1, 0, 1)) +
       GetValueAtVoxel(o, outOfRange, Int3(0, 1, 1)) + GetValueAtVoxel(o, outOfRange, Int3(1, 1, 1))) / 8.0
  {
    CellAtCentre(g);
    BlendAtCentre(CornerValues(Some(g), outOfRange, Cell(Int3(0, 0, 0), Int3(1, 1, 1), Vec3(0.5, 0.5, 0.5))));
  }

  lemma CellAtCentre(g: VolumeGrid)
    requires g.dims.x >= 2 && g.dims.y >= 2 && g.dims.z >= 2
    ensures TrilinearCell(Dimensions(Some(g)), Vec3(0.5, 0.5, 0.5)) == Cell(Int3(0, 0, 0), Int3(1, 1, 1), Vec3(0.5, 0.5, 0.5))
  {
    assert FloorToInt(0.5) == 0 && CeilToInt(0.5) == 1;
  }

  lemma BlendAtCentre(k: Corners)
    ensures Blend(Vec3(0.5, 0.5, 0.5), k) ==
            (k.v000 + k.v100 + k.v010 + k.v110 + k.v001 + k.v101 + k.v011 + k.v111) / 8.0
  {
  }

  /** One axis of DataSpacePointToVoxelSpace: the coordinate relative to the
      box, as a fraction of the box's size, scaled by the voxel count. */
  function AxisToVoxel(p: real, boxMin: real, boxSize: real, count: real): real
    requires boxSize != 0.0
  {
    (p - boxMin) / boxSize * count
  }

  /** One axis of VoxelSpacePointToDataSpace: the coordinate as a fraction of
      the voxel count, placed in the box. */
  function AxisToData(v: real, count: real, boxMin: real, boxSize: real): real
    requires count != 0.0
  {
    boxMin + v / count * boxSize
  }

  /** Placing a voxel coordinate in the box with one count and reading it back
      with another rescales it by the ratio of the counts. */
  lemma AxisRescale(v: real, count1: real, count2: real, boxMin: real, boxSize: real)
    requires count1 != 0.0 && boxSize != 0.0
    ensures AxisToVoxel(AxisToData(v, count1, boxMin, boxSize), boxMin, boxSize, count2) == v / count1 * count2
  {
    assert (boxMin + v / count1 * boxSize - boxMin) / boxSize == v / count1;
  }

  /** With the same count on both sides, one axis round-trips exactly, in both
      directions. */
  lemma AxisRoundTrip(v: real, p: real, count: real, boxMin: real, boxSize: real)
    requires count != 0.0 && boxSize != 0.0
    ensures AxisToVoxel(AxisToData(v, count, boxMin, boxSize), boxMin, boxSize, count) == v
    ensures AxisToData(AxisToVoxel(p, boxMin, boxSize, count), count, boxMin, boxSize) == p
  {
    AxisRescale(v, count, count, boxMin, boxSize);
    assert (p - boxMin) / boxSize * count / count == (p - boxMin) / boxSize;
  }

  /** DataSpacePointToVoxelSpace: per axis, the position relative to the bounding
      box, scaled by the number of voxels on that axis; no clamping. The
      identity when no data are available. */
  function DataSpacePointToVoxelSpace(g: Option<VolumeGrid>, p: Vec3): (v: Vec3)
    requires g.Some? ==> g.value.boundsSize.x != 0.0 && g.value.boundsSize.y != 0.0 && g.value.boundsSize.z != 0.0
    ensures g.None? ==> v == p
    ensures g.Some? && p == g.value.boundsMin ==> v == Vec3(0.0, 0.0, 0.0)
  {
    if g.Some? then
      var b := g.value;
      Vec3(AxisToVoxel(p.x, b.boundsMin.x, b.boundsSize.x, b.dims.x as real),
           AxisToVoxel(p.y, b.boundsMin.y, b.boundsSize.y, b.dims.y as real),
           AxisToVoxel(p.z, b.boundsMin.z, b.boundsSize.z, b.dims.z as real))
    else p
  }

  /** VoxelSpacePointToDataSpace, as written: the y and z results reuse the
      normalised x coordinate. It has no availability check; without data the
      dimensions are 0 and the division gives NaN, which is excluded here. */
  function VoxelSpacePointToDataSpace(g: Option<VolumeGrid>, v: Vec3): (r: Vec3)
    requires g.Some? && g.value.dims.x != 0
    ensures r.x == g.value.boundsMin.x + v.x / g.value.dims.x as real * g.value.boundsSize.x
    ensures r.y == g.value.boundsMin.y + v.x / g.value.dims.x as real * g.value.boundsSize.y
    ensures r.z == g.value.boundsMin.z + v.x / g.value.dims.x as real * g.value.boundsSize.z
    ensures (r.y - g.value.boundsMin.y) * g.value.boundsSize.x == (r.x - g.value.boundsMin.x) * g.value.boundsSize.y
    ensures (r.z - g.value.boundsMin.z) * g.value.boundsSize.x == (r.x - g.value.boundsMin.x) * g.value.boundsSize.z
  {
    var b := g.value;
    var nx := b.dims.x as real;
    SharedFraction(v.x, nx, b.boundsMin.x, b.boundsSize.x, b.boundsMin.y, b.boundsSize.y);
    SharedFraction(v.x, nx, b.boundsMin.x, b.boundsSize.x, b.boundsMin.z, b.boundsSize.z);
    Vec3(AxisToData(v.x, nx, b.boundsMin.x, b.boundsSize.x),
         AxisToData(v.x, nx, b.boundsMin.y, b.boundsSize.y),
         AxisToData(v.x, nx, b.boundsMin.z, b.boundsSize.z))
  }

  /** Two axes placed with the same fraction v / count lie on the diagonal
      of the box: their offsets from the minimum are in the ratio of the
      sizes. */
  lemma SharedFraction(v: real, count: real, minX: real, sizeX: real, minA: real, sizeA: real)
    requires count != 0.0
    ensures (AxisToData(v, count, minA, sizeA) - minA) * sizeX == (AxisToData(v, count, minX, sizeX) - minX) * sizeA
  {
    var f := v / count;
    assert AxisToData(v, count, minA, sizeA) - minA == f * sizeA;
    assert AxisToData(v, count, minX, sizeX) - minX == f * sizeX;
  }

  /** As written, the conversion reads nothing but the x coordinate: voxel
      points that agree on x are sent to the same data point. */
  lemma VoxelToDataIgnoresYZ(g: VolumeGrid, v: Vec3, w: Vec3)
    requires g.dims.x != 0 && v.x == w.x
    ensures VoxelSpacePointToDataSpace(Some(g), v) == VoxelSpacePointToDataSpace(Some(g), w)
  {
  }

  /** The round trip through data space restores the x coordinate only; y and z
      come back as v.x scaled by the ratio of that axis's dimension to nx. */
  lemma VoxelDataRoundTripAsWritten(g: VolumeGrid, v: Vec3)
    requires g.dims.x != 0 && g.dims.y != 0 && g.dims.z != 0
    requires g.boundsSize.x != 0.0 && g.boundsSize.y != 0.0 && g.boundsSize.z != 0.0
    ensures DataSpacePointToVoxelSpace(Some(g), VoxelSpacePointToDataSpace(Some(g), v)) ==
            Vec3(v.x, v.x / g.dims.x as real * g.dims.y as real, v.x / g.dims.x as real * g.dims.z as real)
  {
    AxisRoundTrip(v.x, 0.0, g.dims.x as real, g.boundsMin.x, g.boundsSize.x);
    AxisRescale(v.x, g.dims.x as real, g.dims.y as real, g.boundsMin.y, g.boundsSize.y);
    AxisRescale(v.x, g.dims.x as real, g.dims.z as real, g.boundsMin.z, g.boundsSize.z);
  }

  /** The counterexample: on the unit cube split into 2 x 2 x 2 voxels, the voxel
      point (0, 1, 0) is sent to the data point (0, 0, 0), whose voxel
      coordinates are (0, 0, 0), not (0, 1, 0). */
  lemma VoxelToDataLosesY()
    ensures var g := VolumeGrid([0.0, 1.0, 2.0, 3.0, 4.0, 5.0, 6.0, 7.0], Int3(2, 2, 2),
                                Vec3(0.0, 0.0, 0.0), Vec3(1.0, 1.0, 1.0), 0.0, 7.0);
            VoxelSpacePointToDataSpace(Some(g), Vec3(0.0, 1.0, 0.0)) == Vec3(0.0, 0.0, 0.0) &&
            DataSpacePointToVoxelSpace(Some(g), VoxelSpacePointToDataSpace(Some(g), Vec3(0.0, 1.0, 0.0))) != Vec3(0.0, 1.0, 0.0)
  {
  }

  /** VoxelSpacePointToDataSpace as evidently intended: each axis uses its own
      normalised coordinate. */
  function VoxelSpacePointToDataSpaceCorrected(g: VolumeGrid, v: Vec3): (r: Vec3)
    requires g.dims.x != 0 && g.dims.y != 0 && g.dims.z != 0
    ensures v == Vec3(0.0, 0.0, 0.0) ==> r == g.boundsMin
    ensures v == Vec3(g.dims.x as real, g.dims.y as real, g.dims.z as real) ==>
              r == Vec3(g.boundsMin.x + g.boundsSize.x, g.boundsMin.y + g.boundsSize.y, g.boundsMin.z + g.boundsSize.z)
  {
    Vec3(AxisToData(v.x, g.dims.x as real, g.boundsMin.x, g.boundsSize.x),
         AxisToData(v.y, g.dims.y as real, g.boundsMin.y, g.boundsSize.y),
         AxisToData(v.z, g.dims.z as real, g.boundsMin.z, g.boundsSize.z))
  }

  /** The corrected conversion is the exact inverse of DataSpacePointToVoxelSpace,
      in both directions. */
  lemma VoxelDataRoundTripCorrected(g: VolumeGrid, v: Vec3)
    requires g.dims.x != 0 && g.dims.y != 0 && g.dims.z != 0
    requires g.boundsSize.x != 0.0 && g.boundsSize.y != 0.0 && g.boundsSize.z != 0.0
    ensures DataSpacePointToVoxelSpace(Some(g), VoxelSpacePointToDataSpaceCorrected(g, v)) == v
  {
    AxisRoundTrip(v.x, 0.0, g.dims.x as real, g.boundsMin.x, g.boundsSize.x);
    AxisRoundTrip(v.y, 0.0, g.dims.y as real, g.boundsMin.y, g.boundsSize.y);
    AxisRoundTrip(v.z, 0.0, g.dims.z as real, g.boundsMin.z, g.boundsSize.z);
  }

  lemma DataVoxelRoundTripCorrected(g: VolumeGrid, p: Vec3)
    requires g.dims.x != 0 && g.dims.y != 0 && g.dims.z != 0
    requires g.boundsSize.x != 0.0 && g.boundsSize.y != 0.0 && g.boundsSize.z != 0.0
    ensures VoxelSpacePointToDataSpaceCorrected(g, DataSpacePointToVoxelSpace(Some(g), p)) == p
  {
    AxisRoundTrip(0.0, p.x, g.dims.x as real, g.boundsMin.x, g.boundsSize.x);
    AxisRoundTrip(0.0, p.y, g.dims.y as real, g.boundsMin.y, g.boundsSize.y);
    AxisRoundTrip(0.0, p.z, g.dims.z as real, g.boundsMin.z, g.boundsSize.z);
  }

  /** NormalizeDataValue: 0 at the colour variable's minimum, 1 at its maximum,
      unclamped (the range getters return the sentinel without data, which would
      make the range empty and the result NaN: excluded). */
  function NormalizeDataValue(g: Option<VolumeGrid>, outOfRange: real, v: real): (r: real)
    requires MaxDataValue(g, outOfRange) != MinDataValue(g, outOfRange)
    ensures g.Some? && v == g.value.rangeMin ==> r == 0.0
    ensures g.Some? && v == g.value.rangeMax ==> r == 1.0
  {
    Normalize(v, MinDataValue(g, outOfRange), MaxDataValue(g, outOfRange))
  }

  /** ContainsDataSpacePoint: inside the data-space bounding box, faces
      included, as Unity's Bounds.Contains tests it. */
  function ContainsDataSpacePoint(g: Option<VolumeGrid>, p: Vec3): (r: bool)
    ensures g.None? ==> !r
    ensures g.Some? && g.value.boundsSize.x >= 0.0 && g.value.boundsSize.y >= 0.0 && g.value.boundsSize.z >= 0.0 ==>
              (p == g.value.boundsMin || p == BoxMax(g.value) ==> r)
  {
    g.Some? &&
    g.value.boundsMin.x <= p.x <= g.value.boundsMin.x + g.value.boundsSize.x &&
    g.value.boundsMin.y <= p.y <= g.value.boundsMin.y + g.value.boundsSize.y &&
    g.value.boundsMin.z <= p.z <= g.value.boundsMin.z + g.value.boundsSize.z
  }

  /** The maximum corner of the data-space bounding box. */
  function BoxMax(g: VolumeGrid): Vec3
  {
    Vec3(g.boundsMin.x + g.boundsSize.x, g.boundsMin.y + g.boundsSize.y, g.boundsMin.z + g.boundsSize.z)
  }

  /** One axis of the two containment tests: on a box of positive size and a
      positive voxel count, the voxel coordinate lies in [0, count) exactly
      when the data coordinate lies in [min, min + size). */
  lemma AxisContains(p: real, boxMin: real, boxSize: real, count: real)
    requires boxSize > 0.0 && count > 0.0
    ensures 0.0 <= AxisToVoxel(p, boxMin, boxSize, count) < count <==> boxMin <= p < boxMin + boxSize
  {
    var f := (p - boxMin) / boxSize;
    assert f * boxSize == p - boxMin;
    assert AxisToVoxel(p, boxMin, boxSize, count) == f * count;
    assert 0.0 <= f * count <==> 0.0 <= f;
    assert f * count < count <==> f < 1.0;
    assert f < 1.0 <==> f * boxSize < boxSize;
  }

  /** The voxel-space test, applied to a data point's voxel coordinates, is the
      data-space box test without the far faces: Bounds.Contains includes the
      maximum corner, the voxel test excludes it. */
  lemma {:induction false} VoxelContainmentIsHalfOpenBox(g: VolumeGrid, p: Vec3)
    requires g.dims.x > 0 && g.dims.y > 0 && g.dims.z > 0
    requires g.boundsSize.x > 0.0 && g.boundsSize.y > 0.0 && g.boundsSize.z > 0.0
    ensures ContainsVoxelSpacePoint(Some(g), DataSpacePointToVoxelSpace(Some(g), p)) <==>
            ContainsDataSpacePoint(Some(g), p) && p.x < BoxMax(g).x && p.y < BoxMax(g).y && p.z < BoxMax(g).z
  {
    AxisContains(p.x, g.boundsMin.x, g.boundsSize.x, g.dims.x as real);
    AxisContains(p.y, g.boundsMin.y, g.boundsSize.y, g.dims.y as real);
    AxisContains(p.z, g.boundsMin.z, g.boundsSize.z, g.dims.z as real);
  }

  /** GetValueAtDataSpacePoint: trilinear sampling at the point's voxel-space
      position. */
  function GetValueAtDataSpacePoint(g: Option<VolumeGrid>, outOfRange: real, p: Vec3): (r: real)
    requires g.Some? ==> g.value.boundsSize.x != 0.0 && g.value.boundsSize.y != 0.0 && g.value.boundsSize.z != 0.0
    ensures g.None? ==> r == outOfRange
  {
    GetValueAtVoxelSpacePoint(g, outOfRange, DataSpacePointToVoxelSpace(g, p))
  }

  /** The minimum corner of the bounding box samples the first voxel's value. */
  lemma DataSpaceMinCornerReadsFirstVoxel(g: VolumeGrid, outOfRange: real)
    requires WellFormed(g)
    requires g.boundsSize.x != 0.0 && g.boundsSize.y != 0.0 && g.boundsSize.z != 0.0
    ensures GetValueAtDataSpacePoint(Some(g), outOfRange, g.boundsMin) == g.data[0]
  {
    assert DataSpacePointToVoxelSpace(Some(g), g.boundsMin) == Vec3(0.0, 0.0, 0.0);
    TrilinearAtVoxelIsExact(g, outOfRange, Int3(0, 0, 0));
    VoxelInGridIsRead(g, outOfRange, Int3(0, 0, 0));
    LinearIndexIsProduct(Int3(0, 0, 0), g.dims);
  }

  /** The eight corners as evidently intended: the z = ceiling corners paired
      like the z = floor ones. */
  function CornerValuesCorrected(g: Option<VolumeGrid>, outOfRange: real, c: Cell): (k: Corners)
    ensures k.v000 == GetValueAtVoxel(g, outOfRange, c.lo) && k.v111 == GetValueAtVoxel(g, outOfRange, c.hi)
  {
    Corners(
      GetValueAtVoxel(g, outOfRange, Int3(c.lo.x, c.lo.y, c.lo.z)),
      GetValueAtVoxel(g, outOfRange, Int3(c.hi.x, c.lo.y, c.lo.z)),
      GetValueAtVoxel(g, outOfRange, Int3(c.lo.x, c.hi.y, c.lo.z)),
      GetValueAtVoxel(g, outOfRange, Int3(c.hi.x, c.hi.y, c.lo.z)),
      GetValueAtVoxel(g, outOfRange, Int3(c.lo.x, c.lo.y, c.hi.z)),
      GetValueAtVoxel(g, outOfRange, Int3(c.hi.x, c.lo.y, c.hi.z)),
      GetValueAtVoxel(g, outOfRange, Int3(c.lo.x, c.hi.y, c.hi.z)),
      GetValueAtVoxel(g, outOfRange, Int3(c.hi.x, c.hi.y, c.hi.z)))
  }

  /** Trilinear sampling as evidently intended. */
  function GetValueAtVoxelSpacePointCorrected(g: Option<VolumeGrid>, outOfRange: real, p: Vec3): (r: real)
    ensures g.None? ==> r == outOfRange
  {
    var c := TrilinearCell(Dimensions(g), p);
    Blend(c.frac, CornerValuesCorrected(g, outOfRange, c))
  }

  /** a + b * n, written as repeated addition for the same reason as Mul. */
  function Ramp(a: real, b: real, n: nat): real
  {
    if n == 0 then a else Ramp(a, b, n - 1) + b
  }

  lemma {:induction false} RampIsLinear(a: real, b: real, n: nat)
    ensures Ramp(a, b, n) == a + b * n as real
  {
    if n > 0 {
      RampIsLinear(a, b, n - 1);
    }
  }

  /** Every voxel of the grid reads the field a + b * x. */
  ghost predicate LinearInX(g: VolumeGrid, outOfRange: real, a: real, b: real)
  {
    forall v {:trigger InGrid(v, g.dims)} :: InGrid(v, g.dims) ==> GetValueAtVoxel(Some(g), outOfRange, v) == Ramp(a, b, v.x)
  }

  /** Along one cell edge, interpolating the field's values at the two x
      indices gives its value at the point. */
  lemma EdgeLerp(a: real, b: real, lo: nat, hi: nat, f: real, px: real)
    requires hi == lo + 1 || (hi == lo && f == 0.0)
    requires lo as real + f == px
    ensures Lerp(Ramp(a, b, lo), Ramp(a, b, hi), f) == a + b * px
  {
    RampIsLinear(a, b, lo);
    RampIsLinear(a, b, hi);
    assert (a + b * hi as real) - (a + b * lo as real) == b * (hi - lo) as real;
  }

  lemma BlendOfXEdges(f: Vec3, k: Corners, e0: real, e1: real)
    requires k.v000 == k.v010 == k.v001 == k.v011 == e0
    requires k.v100 == k.v110 == k.v101 == k.v111 == e1
    ensures Blend(f, k) == Lerp(e0, e1, f.x)
  {
  }

  /** Inside the grid's box the cell around a point has both corners in the
      grid, and along x it is one voxel wide (or zero wide with no offset),
      with the point at the offset from the floor index. */
  lemma CellInGrid(d: Int3, p: Vec3)
    requires 0.0 <= p.x <= (d.x - 1) as real
    requires 0.0 <= p.y <= (d.y - 1) as real
    requires 0.0 <= p.z <= (d.z - 1) as real
    ensures var c := TrilinearCell(d, p);
            InGrid(c.lo, d) && InGrid(c.hi, d) &&
            (c.hi.x == c.lo.x + 1 || (c.hi.x == c.lo.x && c.frac.x == 0.0)) &&
            c.lo.x as real + c.frac.x == p.x
  {
  }

  /** The corrected sampling reproduces exactly any field that is linear in x,
      at every point of the grid's box [0, nx - 1] x [0, ny - 1] x [0, nz - 1]. */
  lemma CorrectedTrilinearReproducesLinearX(g: VolumeGrid, outOfRange: real, p: Vec3, a: real, b: real)
    requires LinearInX(g, outOfRange, a, b)
    requires 0.0 <= p.x <= (g.dims.x - 1) as real
    requires 0.0 <= p.y <= (g.dims.y - 1) as real
    requires 0.0 <= p.z <= (g.dims.z - 1) as real
    ensures GetValueAtVoxelSpacePointCorrected(Some(g), outOfRange, p) == a + b * p.x
  {
    var d := Dimensions(Some(g));
    var c := TrilinearCell(d, p);
    CellInGrid(d, p);
    CellBlendOfLinearField(g, outOfRange, c, a, b);
    EdgeLerp(a, b, c.lo.x, c.hi.x, c.frac.x, p.x);
  }

  /** The corrected blend over a cell inside the grid of a field linear in x
      interpolates along x alone, between the values at the two x indices. */
  lemma CellBlendOfLinearField(g: VolumeGrid, outOfRange: real, c: Cell, a: real, b: real)
    requires LinearInX(g, outOfRange, a, b)
    requires InGrid(c.lo, g.dims) && InGrid(c.hi, g.dims)
    ensures Blend(c.frac, CornerValuesCorrected(Some(g), outOfRange, c)) ==
            Lerp(Ramp(a, b, c.lo.x), Ramp(a, b, c.hi.x), c.frac.x)
  {
    CornersOfLinearField(g, outOfRange, c, a, b);
    BlendOfXEdges(c.frac, CornerValuesCorrected(Some(g), outOfRange, c), Ramp(a, b, c.lo.x), Ramp(a, b, c.hi.x));
  }

  /** Every corner of a cell inside the grid reads a + b * (its x index). */
  lemma CornersOfLinearField(g: VolumeGrid, outOfRange: real, c: Cell, a: real, b: real)
    requires LinearInX(g, outOfRange, a, b)
    requires InGrid(c.lo, g.dims) && InGrid(c.hi, g.dims)
    ensures var e0 := Ramp(a, b, c.lo.x);
            var e1 := Ramp(a, b, c.hi.x);
            CornerValuesCorrected(Some(g), outOfRange, c) == Corners(e0, e1, e0, e1, e0, e1, e0, e1)
  {
    CornerOfLinearField(g, outOfRange, Int3(c.lo.x, c.lo.y, c.lo.z), a, b);
    CornerOfLinearField(g, outOfRange, Int3(c.hi.x, c.lo.y, c.lo.z), a, b);
    CornerOfLinearField(g, outOfRange, Int3(c.lo.x, c.hi.y, c.lo.z), a, b);
    CornerOfLinearField(g, outOfRange, Int3(c.hi.x, c.hi.y, c.lo.z), a, b);
    CornerOfLinearField(g, outOfRange, Int3(c.lo.x, c.lo.y, c.hi.z), a, b);
    CornerOfLinearField(g, outOfRange, Int3(c.hi.x, c.lo.y, c.hi.z), a, b);
    CornerOfLinearField(g, outOfRange, Int3(c.lo.x, c.hi.y, c.hi.z), a, b);
    CornerOfLinearField(g, outOfRange, Int3(c.hi.x, c.hi.y, c.hi.z), a, b);
  }

  /** Any voxel of a field linear in x reads the linear value of its x index. */
  lemma CornerOfLinearField(g: VolumeGrid, outOfRange: real, v: Int3, a: real, b: real)
    requires LinearInX(g, outOfRange, a, b)
    requires InGrid(v, g.dims)
    ensures GetValueAtVoxel(Some(g), outOfRange, v) == Ramp(a, b, v.x)
  {
  }

  /** A 2 x 1 x 2 grid holding the field x: values 0, 1 on both z layers. */
  function RampGrid(): VolumeGrid
  {
    VolumeGrid([0.0, 1.0, 0.0, 1.0], Int3(2, 1, 2), Vec3(0.0, 0.0, 0.0), Vec3(1.0, 1.0, 1.0), 0.0, 1.0)
  }

  lemma LookupInRampGrid(outOfRange: real, v: Int3)
    requires InGrid(v, RampGrid().dims)
    ensures GetValueAtVoxel(Some(RampGrid()), outOfRange, v) == v.x as real
  {
    LinearIndexIsProduct(v, RampGrid().dims);
  }

  lemma RampGridIsLinearInX(outOfRange: real)
    ensures LinearInX(RampGrid(), outOfRange, 0.0, 1.0)
  {
    forall v | InGrid(v, RampGrid().dims)
      ensures GetValueAtVoxel(Some(RampGrid()), outOfRange, v) == Ramp(0.0, 1.0, v.x)
    {
      LookupInRampGrid(outOfRange, v);
      RampIsLinear(0.0, 1.0, v.x);
    }
  }

  /** The counterexample: the ramp grid holds the field x (RampGridIsLinearInX),
      yet at (0.25, 0, 0.5) the sampling as written returns 0.5. */
  lemma TrilinearAsWrittenMisreadsRamp(outOfRange: real)
    ensures GetValueAtVoxelSpacePoint(Some(RampGrid()), outOfRange, Vec3(0.25, 0.0, 0.5)) == 0.5
  {
    CellAtRampPoint();
    CornersAtRampPoint(outOfRange);
    BlendsAtRampPoint();
  }

  /** The corrected sampling returns the field's value 0.25 there. */
  lemma TrilinearCorrectedReadsRamp(outOfRange: real)
    ensures GetValueAtVoxelSpacePointCorrected(Some(RampGrid()), outOfRange, Vec3(0.25, 0.0, 0.5)) == 0.25
  {
    CellAtRampPoint();
    CornersAtRampPoint(outOfRange);
    BlendsAtRampPoint();
  }

  lemma CellAtRampPoint()
    ensures TrilinearCell(Dimensions(Some(RampGrid())), Vec3(0.25, 0.0, 0.5)) ==
            Cell(Int3(0, 0, 0), Int3(1, 0, 1), Vec3(0.25, 0.0, 0.5))
  {
    assert FloorToInt(0.25) == 0 && CeilToInt(0.25) == 1;
    assert FloorToInt(0.5) == 0 && CeilToInt(0.5) == 1;
    assert FloorToInt(0.0) == 0 && CeilToInt(0.0) == 0;
  }

  lemma CornersAtRampPoint(outOfRange: real)
    ensures var c := Cell(Int3(0, 0, 0), Int3(1, 0, 1), Vec3(0.25, 0.0, 0.5));
      CornerValues(Some(RampGrid()), outOfRange, c) == Corners(0.0, 1.0, 0.0, 1.0, 1.0, 0.0, 1.0, 0.0) &&
      CornerValuesCorrected(Some(RampGrid()), outOfRange, c) == Corners(0.0, 1.0, 0.0, 1.0, 0.0, 1.0, 0.0, 1.0)
  {
    LookupInRampGrid(outOfRange, Int3(0, 0, 0));
    LookupInRampGrid(outOfRange, Int3(1, 0, 0));
    LookupInRampGrid(outOfRange, Int3(0, 0, 1));
    LookupInRampGrid(outOfRange, Int3(1, 0, 1));
  }

  lemma BlendsAtRampPoint()
    ensures Blend(Vec3(0.25, 0.0, 0.5), Corners(0.0, 1.0, 0.0, 1.0, 1.0, 0.0, 1.0, 0.0)) == 0.5
    ensures Blend(Vec3(0.25, 0.0, 0.5), Corners(0.0, 1.0, 0.0, 1.0, 0.0, 1.0, 0.0, 1.0)) == 0.25
  {
  }

  /** A volume data impression: its key data path, the grid of its colour
      variable, and its render hints (the per-voxel visibility mask, null until
      first used, and the style-changed flag the renderer consumes). */
  class VolumeImpression {
    const keyDataPath: string
    const grid: VolumeGrid
    var perIndexVisibility: array?<bool>
    var styleChanged: bool

    /** A mask, once allocated, has one flag per data value. */
    predicate Valid()
      reads this
    {
      perIndexVisibility != null ==> perIndexVisibility.Length == |grid.data|
    }

    /** Visibility of array entry i: every voxel is visible while no mask exists. */
    predicate Visible(i: int)
      reads this, perIndexVisibility
    {
      perIndexVisibility == null ||
      (0 <= i < perIndexVisibility.Length && perIndexVisibility[i])
    }

    constructor(keyDataPath: string, grid: VolumeGrid)
      ensures this.keyDataPath == keyDataPath && this.grid == grid
      ensures perIndexVisibility == null && !styleChanged
      ensures Valid()
    {
      this.keyDataPath := keyDataPath;
      this.grid := grid;
      perIndexVisibility := null;
      styleChanged := false;
    }
  }

  function Paths(imps: seq<VolumeImpression>): (ps: seq<string>)
    ensures |ps| == |imps|
    ensures forall i :: 0 <= i < |imps| ==> ps[i] == imps[i].keyDataPath
  {
    seq(|imps|, i requires 0 <= i < |imps| => imps[i].keyDataPath)
  }

  /** The accessor component: its inspector settings, the impression it
      currently reads from (null when no data are available), and counters for
      the engine render requests and the selection warnings it has issued. */
  class VolumeDataAccessor {
    var volumeKeyDataPath: string
    var keyDataPathCanIncludeSuffix: bool
    var outOfRangeDataValue: real
    var current: VolumeImpression?
    var renderRequests: nat
    var selectionWarnings: nat

    /** The component's defaults (its Reset). */
    constructor()
      ensures volumeKeyDataPath == "LANL/FireSim/KeyData/Smoke"
      ensures keyDataPathCanIncludeSuffix && outOfRangeDataValue == -9999.0
      ensures current == null && renderRequests == 0 && selectionWarnings == 0
    {
      volumeKeyDataPath := "LANL/FireSim/KeyData/Smoke";
      keyDataPathCanIncludeSuffix := true;
      outOfRangeDataValue := -9999.0;
      current := null;
      renderRequests := 0;
      selectionWarnings := 0;
    }

    predicate IsDataAvailable()
      reads this
    {
      current != null
    }

    /** The grid every query of this accessor reads. */
    function Grid(): (g: Option<VolumeGrid>)
      reads this
      ensures g.Some? <==> IsDataAvailable()
      ensures g.Some? ==> g.value == current.grid
    {
      if current == null then None else Some(current.grid)
    }

    /** SetVoxelVisibility: allocates an all-visible mask on first use, then sets
        the voxel's flag; every other voxel keeps its visibility. The mask's
        indexer rejects an index outside the array, so callers must stay within
        it. */
    method SetVoxelVisibility(x: int, y: int, z: int, show: bool)
      requires current != null ==> current.Valid()
      requires current != null ==> 0 <= LinearIndex(Int3(x, y, z), current.grid.dims) < |current.grid.data|
      modifies current
      modifies if current != null && current.perIndexVisibility != null then {current.perIndexVisibility} else {}
      ensures current == old(current) && renderRequests == old(renderRequests)
      ensures current != null ==> current.Valid() && current.perIndexVisibility != null
      ensures current != null ==>
        var i := LinearIndex(Int3(x, y, z), current.grid.dims);
        current.Visible(i) == show &&
        forall j :: 0 <= j < |current.grid.data| && j != i ==> current.Visible(j) == old(current.Visible(j))
      ensures current != null ==> current.styleChanged == old(current.styleChanged)
    {
      if current != null {
        if current.perIndexVisibility == null {
          current.perIndexVisibility := new bool[|current.grid.data|](_ => true);
        }
        var i := LinearIndex(Int3(x, y, z), current.grid.dims);
        current.perIndexVisibility[i] := show;
      }
    }

    /** ApplyVoxelVisibility: flags the style change and asks the engine to
        render. */
    method ApplyVoxelVisibility()
      modifies this`renderRequests, current
      ensures current == old(current)
      ensures current != null ==> current.styleChanged && renderRequests == old(renderRequests) + 1
      ensures current == null ==> renderRequests == old(renderRequests)
      ensures current != null ==> current.perIndexVisibility == old(current.perIndexVisibility)
      ensures volumeKeyDataPath == old(volumeKeyDataPath) && selectionWarnings == old(selectionWarnings)
      ensures keyDataPathCanIncludeSuffix == old(keyDataPathCanIncludeSuffix) && outOfRangeDataValue == old(outOfRangeDataValue)
    {
      if current != null {
        current.styleChanged := true;
        renderRequests := renderRequests + 1;
      }
    }

    /** ResetVoxelVisibility: drops the mask, so every voxel is visible again,
        flags the style change and asks the engine to render. */
    method ResetVoxelVisibility()
      modifies this`renderRequests, current
      ensures current == old(current)
      ensures current != null ==> current.perIndexVisibility == null && current.styleChanged
      ensures current != null ==> forall j :: current.Visible(j)
      ensures current != null ==> renderRequests == old(renderRequests) + 1
      ensures current == null ==> renderRequests == old(renderRequests)
      ensures volumeKeyDataPath == old(volumeKeyDataPath) && selectionWarnings == old(selectionWarnings)
      ensures keyDataPathCanIncludeSuffix == old(keyDataPathCanIncludeSuffix) && outOfRangeDataValue == old(outOfRangeDataValue)
    {
      if current != null {
        current.perIndexVisibility := null;
        current.styleChanged := true;
        renderRequests := renderRequests + 1;
      }
    }

    /** UpdateCurrentDataImpression, run every frame: reselects the impression
        among those in the scene, warning when several exist and none matches
        the key data path. */
    method UpdateCurrentDataImpression(impressions: seq<VolumeImpression>) returns (chosen: Option<nat>)
      modifies this
      ensures IsSelection(Paths(impressions), volumeKeyDataPath, keyDataPathCanIncludeSuffix, chosen)
      ensures chosen.Some? ==> chosen.value < |impressions| && current == impressions[chosen.value]
      ensures chosen.None? ==> current == null
      ensures selectionWarnings == old(selectionWarnings) + (if |impressions| > 1 && chosen.None? then 1 else 0)
      ensures volumeKeyDataPath == old(volumeKeyDataPath)
      ensures keyDataPathCanIncludeSuffix == old(keyDataPathCanIncludeSuffix)
      ensures outOfRangeDataValue == old(outOfRangeDataValue) && renderRequests == old(renderRequests)
    {
      var ambiguous;
      chosen, ambiguous := SelectImpression(Paths(impressions), volumeKeyDataPath, keyDataPathCanIncludeSuffix);
      current := if chosen.Some? then impressions[chosen.value] else null;
      if ambiguous {
        selectionWarnings := selectionWarnings + 1;
      }
    }
  }
}
