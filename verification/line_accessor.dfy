/**
 * ABRLineDataAccessor: queries on the polylines of the selected line data
 * impression (closest line, lines within a radius, per-line averages of a
 * scalar channel), the per-line visibility mask, normalisation against the
 * colour and texture variables' ranges, and the per-frame choice of the
 * impression.
 *
 * The queries take the selected impression's data as an `Option<LineData>`
 * (None: no impression is selected, i.e. IsDataAvailable() is false).
 */
module LineAccessor {
  import opened Wrappers
  import opened UnityMath
  import opened RangeNormalizer
  import opened ImpressionSelection

  /** SimpleLineRenderInfo: per line, its vertices and, per vertex, its scalar
      channels (0: the colour variable, 1: the texture variable). */
  datatype LineRenderInfo = LineRenderInfo(vertices: seq<seq<Vec3>>, scalars: seq<seq<seq<real>>>)

  /** What the accessor reads from a line impression: its render info (None when
      it is not a SimpleLineRenderInfo) and the ranges of its two variables. */
  datatype LineData = LineData(
    renderInfo: Option<LineRenderInfo>,
    colorMin: real, colorMax: real,
    textureMin: real, textureMax: real)

  /** Data are available, the render info is usable and holds at least one line. */
  predicate HasLines(d: Option<LineData>)
  {
    d.Some? && d.value.renderInfo.Some? && |d.value.renderInfo.value.vertices| > 0
  }

  /** GetNumLines: the number of polylines, 0 without usable render info. The
      source dereferences the impression, so data must be available. */
  function NumLines(d: LineData): (n: nat)
    ensures d.renderInfo.None? ==> n == 0
    ensures d.renderInfo.Some? ==> n == |d.renderInfo.value.vertices|
  {
    if d.renderInfo.Some? then |d.renderInfo.value.vertices| else 0
  }

  // ---------------------------------------------------------------------------
  // Closest line

  /** Vertex (a, b) comes before vertex (l, j) in line-major order. */
  predicate Before(a: int, b: int, l: int, j: int)
  {
    a < l || (a == l && b < j)
  }

  /** Vertex j of line l is at minimum distance from p, and every vertex before
      it in line-major order is strictly farther: it is the first minimum. */
  predicate IsFirstClosest(vs: seq<seq<Vec3>>, p: Vec3, l: int, j: int)
  {
    0 <= l < |vs| && 0 <= j < |vs[l]| &&
    (forall a, b :: 0 <= a < |vs| && 0 <= b < |vs[a]| ==> SqDist(p, vs[l][j]) <= SqDist(p, vs[a][b])) &&
    (forall a, b :: 0 <= a < |vs| && 0 <= b < |vs[a]| && Before(a, b, l, j) ==> SqDist(p, vs[l][j]) < SqDist(p, vs[a][b]))
  }

  /** The first minimum is unique, so the closest line is determined by the data. */
  lemma FirstClosestIsUnique(vs: seq<seq<Vec3>>, p: Vec3, l1: int, j1: int, l2: int, j2: int)
    requires IsFirstClosest(vs, p, l1, j1) && IsFirstClosest(vs, p, l2, j2)
    ensures l1 == l2 && j1 == j2
  {
    assert !Before(l1, j1, l2, j2);
    assert !Before(l2, j2, l1, j1);
  }

  /** GetClosestLineInDataSpace: -1 without data, without usable render info or
      without lines; otherwise the line owning the first vertex of minimum
      distance. The source reads vertex 0 of line 0 first, so that line must not
      be empty. */
  method GetClosestLineInDataSpace(d: Option<LineData>, p: Vec3) returns (closest: int)
    requires HasLines(d) ==> |d.value.renderInfo.value.vertices[0]| > 0
    ensures closest == -1 <==> !HasLines(d)
    ensures HasLines(d) ==>
      var vs := d.value.renderInfo.value.vertices;
      0 <= closest < |vs| && exists j :: IsFirstClosest(vs, p, closest, j)
  {
    if !HasLines(d) {
      return -1;
    }
    var vs := d.value.renderInfo.value.vertices;
    closest := 0;
    var closestDist := SqDist(p, vs[0][0]);
    ghost var closestVertex := 0;
    var l := 0;
    while l < |vs|
      invariant 0 <= l <= |vs|
      invariant 0 <= closest < |vs| && 0 <= closestVertex < |vs[closest]|
      invariant closestDist == SqDist(p, vs[closest][closestVertex])
      invariant Before(closest, closestVertex, l, 0) || (closest == 0 && closestVertex == 0)
      invariant forall a, b :: 0 <= a < |vs| && 0 <= b < |vs[a]| && Before(a, b, l, 0) ==>
                  closestDist <= SqDist(p, vs[a][b])
      invariant forall a, b ::
                  0 <= a < |vs| && 0 <= b < |vs[a]| && Before(a, b, l, 0) && Before(a, b, closest, closestVertex) ==>
                  closestDist < SqDist(p, vs[a][b])
    {
      var v := 0;
      while v < |vs[l]|
        invariant 0 <= v <= |vs[l]|
        invariant 0 <= closest < |vs| && 0 <= closestVertex < |vs[closest]|
        invariant closestDist == SqDist(p, vs[closest][closestVertex])
        invariant Before(closest, closestVertex, l, v) || (closest == 0 && closestVertex == 0)
        invariant forall a, b :: 0 <= a < |vs| && 0 <= b < |vs[a]| && Before(a, b, l, v) ==>
                    closestDist <= SqDist(p, vs[a][b])
        invariant forall a, b ::
                    0 <= a < |vs| && 0 <= b < |vs[a]| && Before(a, b, l, v) && Before(a, b, closest, closestVertex) ==>
                    closestDist < SqDist(p, vs[a][b])
      {
        var dist := SqDist(p, vs[l][v]);
        if dist < closestDist {
          closest := l;
          closestVertex := v;
          closestDist := dist;
        }
        v := v + 1;
      }
      l := l + 1;
    }
    assert IsFirstClosest(vs, p, closest, closestVertex);
  }

  // ---------------------------------------------------------------------------
  // Lines within a radius

  /** The number of vertices among the first n of a line that lie strictly
      within radius r of p. */
  function HitsUpTo(line: seq<Vec3>, p: Vec3, r: real, n: nat): (h: nat)
    requires n <= |line|
    ensures h <= n
  {
    if n == 0 then 0
    else HitsUpTo(line, p, r, n - 1) + (if WithinRadius(p, line[n - 1], r) then 1 else 0)
  }

  function Hits(line: seq<Vec3>, p: Vec3, r: real): nat
  {
    HitsUpTo(line, p, r, |line|)
  }

  /** The hit count of every line. */
  function HitCounts(vs: seq<seq<Vec3>>, p: Vec3, r: real): (hc: seq<nat>)
    ensures |hc| == |vs| && forall l :: 0 <= l < |vs| ==> hc[l] == Hits(vs[l], p, r)
  {
    seq(|vs|, l requires 0 <= l < |vs| => Hits(vs[l], p, r))
  }

  /** n copies of x. */
  function Repeat(x: int, n: nat): (s: seq<int>)
    ensures |s| == n && forall i :: 0 <= i < n ==> s[i] == x
  {
    seq(n, _ => x)
  }

  /** Line indices 0 .. k-1 in order, index l repeated counts[l] times. */
  function Blocks(counts: seq<nat>, k: nat): seq<int>
    requires k <= |counts|
  {
    if k == 0 then [] else Blocks(counts, k - 1) + Repeat(k - 1, counts[k - 1])
  }

  /** What GetNearbyLinesInDataSpace collects: each line index once per vertex
      of that line within the radius, in line order. */
  function Nearby(vs: seq<seq<Vec3>>, p: Vec3, r: real): seq<int>
  {
    Blocks(HitCounts(vs, p, r), |vs|)
  }

  /** GetNearbyLinesInDataSpace: empty without data, without usable render info
      or without lines; otherwise Nearby of the lines. */
  method GetNearbyLinesInDataSpace(d: Option<LineData>, p: Vec3, r: real) returns (lineIndices: seq<int>)
    ensures !HasLines(d) ==> lineIndices == []
    ensures HasLines(d) ==> lineIndices == Nearby(d.value.renderInfo.value.vertices, p, r)
  {
    lineIndices := [];
    if HasLines(d) {
      var vs := d.value.renderInfo.value.vertices;
      ghost var hc := HitCounts(vs, p, r);
      var l := 0;
      while l < |vs|
        invariant 0 <= l <= |vs|
        invariant lineIndices == Blocks(hc, l)
      {
        var v := 0;
        while v < |vs[l]|
          invariant 0 <= v <= |vs[l]|
          invariant lineIndices == Blocks(hc, l) + Repeat(l, HitsUpTo(vs[l], p, r, v))
        {
          if WithinRadius(p, vs[l][v], r) {
            lineIndices := lineIndices + [l];
          }
          v := v + 1;
        }
        l := l + 1;
      }
    }
  }

  lemma {:induction false} HitsPositive(line: seq<Vec3>, p: Vec3, r: real, n: nat)
    requires n <= |line|
    ensures HitsUpTo(line, p, r, n) > 0 <==> exists j :: 0 <= j < n && WithinRadius(p, line[j], r)
  {
    if n > 0 {
      HitsPositive(line, p, r, n - 1);
    }
  }

  lemma {:induction false} BlocksMembership(counts: seq<nat>, k: nat, x: int)
    requires k <= |counts|
    ensures x in Blocks(counts, k) <==> 0 <= x < k && counts[x] > 0
  {
    if k > 0 {
      BlocksMembership(counts, k - 1, x);
      var block := Repeat(k - 1, counts[k - 1]);
      assert Blocks(counts, k) == Blocks(counts, k - 1) + block;
      if counts[k - 1] > 0 {
        assert block[0] == k - 1;
      }
    }
  }

  /** A line index is in the result iff the line has a vertex strictly within
      the radius. */
  lemma NearbyMembership(vs: seq<seq<Vec3>>, p: Vec3, r: real, x: int)
    ensures x in Nearby(vs, p, r) <==>
            0 <= x < |vs| && exists j :: 0 <= j < |vs[x]| && WithinRadius(p, vs[x][j], r)
  {
    BlocksMembership(HitCounts(vs, p, r), |vs|, x);
    if 0 <= x < |vs| {
      HitsPositive(vs[x], p, r, |vs[x]|);
    }
  }

  /** How often x occurs in s. */
  function Occurrences(s: seq<int>, x: int): (n: nat)
    ensures n <= |s|
  {
    if |s| == 0 then 0 else Occurrences(s[..|s| - 1], x) + (if s[|s| - 1] == x then 1 else 0)
  }

  lemma {:induction false} OccurrencesZero(s: seq<int>, x: int)
    ensures Occurrences(s, x) == 0 <==> x !in s
  {
    if |s| > 0 {
      OccurrencesZero(s[..|s| - 1], x);
      assert s == s[..|s| - 1] + [s[|s| - 1]];
    }
  }

  lemma {:induction false} OccurrencesInAppend(s: seq<int>, t: seq<int>, x: int)
    ensures Occurrences(s + t, x) == Occurrences(s, x) + Occurrences(t, x)
  {
    if |t| > 0 {
      assert (s + t)[..|s + t| - 1] == s + t[..|t| - 1];
      OccurrencesInAppend(s, t[..|t| - 1], x);
    } else {
      assert s + t == s;
    }
  }

  lemma {:induction false} RepeatOccurrences(x: int, n: nat, y: int)
    ensures Occurrences(Repeat(x, n), y) == (if x == y then n else 0)
  {
    if n > 0 {
      RepeatOccurrences(x, n - 1, y);
      assert Repeat(x, n)[..n - 1] == Repeat(x, n - 1);
      assert Repeat(x, n)[n - 1] == x;
    }
  }

  lemma {:induction false} BlocksCount(counts: seq<nat>, k: nat, l: int)
    requires k <= |counts| && 0 <= l < k
    ensures Occurrences(Blocks(counts, k), l) == counts[l]
  {
    var rest := Blocks(counts, k - 1);
    assert Blocks(counts, k) == rest + Repeat(k - 1, counts[k - 1]);
    OccurrencesInAppend(rest, Repeat(k - 1, counts[k - 1]), l);
    RepeatOccurrences(k - 1, counts[k - 1], l);
    if l < k - 1 {
      BlocksCount(counts, k - 1, l);
    } else {
      BlocksMembership(counts, k - 1, l);
      OccurrencesZero(rest, l);
    }
  }

  /** Line l occurs in the result once per vertex within the radius. */
  lemma NearbyCount(vs: seq<seq<Vec3>>, p: Vec3, r: real, l: int)
    requires 0 <= l < |vs|
    ensures Occurrences(Nearby(vs, p, r), l) == Hits(vs[l], p, r)
  {
    BlocksCount(HitCounts(vs, p, r), |vs|, l);
  }

  predicate NonDecreasing(s: seq<int>)
  {
    forall i, j :: 0 <= i < j < |s| ==> s[i] <= s[j]
  }

  predicate Increasing(s: seq<int>)
  {
    forall i, j :: 0 <= i < j < |s| ==> s[i] < s[j]
  }

  lemma {:induction false} BlocksSorted(counts: seq<nat>, k: nat)
    requires k <= |counts|
    ensures NonDecreasing(Blocks(counts, k))
  {
    if k > 0 {
      BlocksSorted(counts, k - 1);
      var rest := Blocks(counts, k - 1);
      var block := Repeat(k - 1, counts[k - 1]);
      var s := Blocks(counts, k);
      assert s == rest + block;
      forall i, j | 0 <= i < j < |s|
        ensures s[i] <= s[j]
      {
        if j < |rest| {
          assert s[i] == rest[i] && s[j] == rest[j];
        } else if i < |rest| {
          assert s[i] == rest[i];
          BlocksMembership(counts, k - 1, rest[i]);
          assert s[j] == block[j - |rest|];
        } else {
          assert s[i] == block[i - |rest|] && s[j] == block[j - |rest|];
        }
      }
    }
  }

  /** The result lists line indices in non-decreasing order. */
  lemma NearbySorted(vs: seq<seq<Vec3>>, p: Vec3, r: real)
    ensures NonDecreasing(Nearby(vs, p, r))
  {
    BlocksSorted(HitCounts(vs, p, r), |vs|);
  }

  /** A larger radius finds every line a smaller one finds. */
  lemma NearbyMonotoneInRadius(vs: seq<seq<Vec3>>, p: Vec3, r1: real, r2: real, x: int)
    requires r1 <= r2 && x in Nearby(vs, p, r1)
    ensures x in Nearby(vs, p, r2)
  {
    NearbyMembership(vs, p, r1, x);
    var j :| 0 <= j < |vs[x]| && WithinRadius(p, vs[x][j], r1);
    WithinRadiusMonotone(p, vs[x][j], r1, r2);
    NearbyMembership(vs, p, r2, x);
  }

  /** The counterexample: one line with two vertices at the query point is
      reported twice. */
  lemma NearbyAsWrittenRepeatsLine()
    ensures var o := Vec3(0.0, 0.0, 0.0);
            Nearby([[o, o]], o, 1.0) == [0, 0]
  {
    var o := Vec3(0.0, 0.0, 0.0);
    assert WithinRadius(o, o, 1.0);
    assert HitsUpTo([o, o], o, 1.0, 1) == 1;
    assert Hits([o, o], o, 1.0) == 2;
    assert HitCounts([[o, o]], o, 1.0) == [2];
    assert Blocks([2], 0) == [];
  }

  /** Line indices 0 .. k-1 in order, index l present once when counts[l] > 0. */
  function Present(counts: seq<nat>, k: nat): seq<int>
    requires k <= |counts|
  {
    if k == 0 then [] else Present(counts, k - 1) + (if counts[k - 1] > 0 then [k - 1] else [])
  }

  /** The nearby lines as evidently intended (the inner loop left at the first
      hit, not merely continued): each qualifying line once, in line order. */
  function NearbyCorrected(vs: seq<seq<Vec3>>, p: Vec3, r: real): seq<int>
  {
    Present(HitCounts(vs, p, r), |vs|)
  }

  /** Line l is listed exactly when l < k and counts[l] > 0. */
  lemma {:induction false} PresentMembership(counts: seq<nat>, k: nat, x: int)
    requires k <= |counts|
    ensures x in Present(counts, k) <==> 0 <= x < k && counts[x] > 0
  {
    if k > 0 {
      PresentMembership(counts, k - 1, x);
    }
  }

  lemma {:induction false} PresentIsDistinct(counts: seq<nat>, k: nat)
    requires k <= |counts|
    ensures Increasing(Present(counts, k))
    ensures forall x :: x in Present(counts, k) <==> x in Blocks(counts, k)
  {
    if k > 0 {
      PresentIsDistinct(counts, k - 1);
      var rest := Present(counts, k - 1);
      var s := Present(counts, k);
      forall i, j | 0 <= i < j < |s|
        ensures s[i] < s[j]
      {
        assert s[i] == rest[i] && rest[i] in rest;
        if j < |rest| {
          assert s[j] == rest[j];
        } else {
          PresentMembership(counts, k - 1, rest[i]);
        }
      }
      forall x
        ensures x in s <==> x in Blocks(counts, k)
      {
        PresentMembership(counts, k, x);
        BlocksMembership(counts, k, x);
      }
    }
  }

  /** The corrected list reports exactly the same lines, each once, in
      increasing order. */
  lemma NearbyCorrectedIsDistinct(vs: seq<seq<Vec3>>, p: Vec3, r: real)
    ensures Increasing(NearbyCorrected(vs, p, r))
    ensures forall x :: x in NearbyCorrected(vs, p, r) <==> x in Nearby(vs, p, r)
  {
    PresentIsDistinct(HitCounts(vs, p, r), |vs|);
  }

  // ---------------------------------------------------------------------------
  // Per-line averages

  function Sum(s: seq<real>): real
  {
    if |s| == 0 then 0.0 else Sum(s[..|s| - 1]) + s[|s| - 1]
  }

  /** Channel id of every vertex of a line. */
  function Channel(line: seq<seq<real>>, id: nat): (c: seq<real>)
    requires forall v :: 0 <= v < |line| ==> id < |line[v]|
    ensures |c| == |line| && forall v :: 0 <= v < |line| ==> c[v] == line[v][id]
  {
    seq(|line|, v requires 0 <= v < |line| => line[v][id])
  }

  /** What GetAverageScalarValueOnLine reads: a line of the render info with a
      channel id present at every vertex, and at least one vertex (an empty
      line divides 0 by 0). */
  predicate CanAverage(d: Option<LineData>, lineIndex: int, scalarID: int)
  {
    d.Some? ==>
      d.value.renderInfo.Some? &&
      0 <= lineIndex < |d.value.renderInfo.value.scalars| &&
      |d.value.renderInfo.value.scalars[lineIndex]| > 0 &&
      0 <= scalarID &&
      forall v :: 0 <= v < |d.value.renderInfo.value.scalars[lineIndex]| ==>
        scalarID < |d.value.renderInfo.value.scalars[lineIndex][v]|
  }

  /** GetAverageScalarValueOnLine: the arithmetic mean of the channel along the
      line, or the sentinel without data. */
  method GetAverageScalarValueOnLine(d: Option<LineData>, outOfRange: real, lineIndex: int, scalarID: int)
    returns (avg: real)
    requires CanAverage(d, lineIndex, scalarID)
    ensures d.None? ==> avg == outOfRange
    ensures d.Some? ==>
      var line := d.value.renderInfo.value.scalars[lineIndex];
      avg == Sum(Channel(line, scalarID)) / |line| as real
  {
    if d.None? {
      return outOfRange;
    }
    var line := d.value.renderInfo.value.scalars[lineIndex];
    ghost var c := Channel(line, scalarID);
    var sum := 0.0;
    var v := 0;
    while v < |line|
      invariant 0 <= v <= |line|
      invariant sum == Sum(c[..v])
    {
      assert c[..v + 1][..v] == c[..v];
      sum := sum + line[v][scalarID];
      v := v + 1;
    }
    assert c[..|line|] == c;
    avg := sum / |line| as real;
  }

  /** GetAverageColorDataValueOnLine: the mean of channel 0 (colour). */
  method GetAverageColorDataValueOnLine(d: Option<LineData>, outOfRange: real, lineIndex: int) returns (avg: real)
    requires CanAverage(d, lineIndex, 0)
    ensures d.None? ==> avg == outOfRange
    ensures d.Some? ==>
      var line := d.value.renderInfo.value.scalars[lineIndex];
      avg == Sum(Channel(line, 0)) / |line| as real
  {
    avg := GetAverageScalarValueOnLine(d, outOfRange, lineIndex, 0);
  }

  /** GetAverageTextureDataValueOnLine: the mean of channel 1 (texture). */
  method GetAverageTextureDataValueOnLine(d: Option<LineData>, outOfRange: real, lineIndex: int) returns (avg: real)
    requires CanAverage(d, lineIndex, 1)
    ensures d.None? ==> avg == outOfRange
    ensures d.Some? ==>
      var line := d.value.renderInfo.value.scalars[lineIndex];
      avg == Sum(Channel(line, 1)) / |line| as real
  {
    avg := GetAverageScalarValueOnLine(d, outOfRange, lineIndex, 1);
  }

  lemma {:induction false} SumBounds(s: seq<real>, lo: real, hi: real)
    requires forall i :: 0 <= i < |s| ==> lo <= s[i] <= hi
    ensures |s| as real * lo <= Sum(s) <= |s| as real * hi
  {
    if |s| > 0 {
      SumBounds(s[..|s| - 1], lo, hi);
      assert |s| as real * lo == (|s| - 1) as real * lo + lo;
      assert |s| as real * hi == (|s| - 1) as real * hi + hi;
    }
  }

  /** The mean of a non-empty sequence lies between any lower and upper bound of
      its elements; in particular a constant channel averages to that constant. */
  lemma MeanBetweenBounds(s: seq<real>, lo: real, hi: real)
    requires |s| > 0
    requires forall i :: 0 <= i < |s| ==> lo <= s[i] <= hi
    ensures lo <= Sum(s) / |s| as real <= hi
  {
    SumBounds(s, lo, hi);
    var n := |s| as real;
    var m := Sum(s) / n;
    assert Sum(s) == m * n;
    MulSignByPositive(m - lo, n);
    MulSignByPositive(hi - m, n);
    assert (m - lo) * n == Sum(s) - n * lo;
    assert (hi - m) * n == n * hi - Sum(s);
  }

  // ---------------------------------------------------------------------------
  // Ranges and normalisation

  function MinColorDataValue(d: Option<LineData>, outOfRange: real): (r: real)
    ensures d.None? ==> r == outOfRange
    ensures d.Some? ==> r == d.value.colorMin
  {
    if d.Some? then d.value.colorMin else outOfRange
  }

  function MaxColorDataValue(d: Option<LineData>, outOfRange: real): (r: real)
    ensures d.None? ==> r == outOfRange
    ensures d.Some? ==> r == d.value.colorMax
  {
    if d.Some? then d.value.colorMax else outOfRange
  }

  function MinTextureDataValue(d: Option<LineData>, outOfRange: real): (r: real)
    ensures d.None? ==> r == outOfRange
    ensures d.Some? ==> r == d.value.textureMin
  {
    if d.Some? then d.value.textureMin else outOfRange
  }

  function MaxTextureDataValue(d: Option<LineData>, outOfRange: real): (r: real)
    ensures d.None? ==> r == outOfRange
    ensures d.Some? ==> r == d.value.textureMax
  {
    if d.Some? then d.value.textureMax else outOfRange
  }

  /** NormalizeColorDataValue: 0 at the colour minimum, 1 at its maximum, affine
      and unclamped (an empty range would divide by zero). */
  function NormalizeColorDataValue(d: Option<LineData>, outOfRange: real, v: real): (r: real)
    requires MaxColorDataValue(d, outOfRange) != MinColorDataValue(d, outOfRange)
    ensures v == MinColorDataValue(d, outOfRange) ==> r == 0.0
    ensures v == MaxColorDataValue(d, outOfRange) ==> r == 1.0
  {
    Normalize(v, MinColorDataValue(d, outOfRange), MaxColorDataValue(d, outOfRange))
  }

  /** NormalizeTextureDataValue: the same against the texture variable's range. */
  function NormalizeTextureDataValue(d: Option<LineData>, outOfRange: real, v: real): (r: real)
    requires MaxTextureDataValue(d, outOfRange) != MinTextureDataValue(d, outOfRange)
    ensures v == MinTextureDataValue(d, outOfRange) ==> r == 0.0
    ensures v == MaxTextureDataValue(d, outOfRange) ==> r == 1.0
  {
    Normalize(v, MinTextureDataValue(d, outOfRange), MaxTextureDataValue(d, outOfRange))
  }

  // ---------------------------------------------------------------------------
  // Impressions and the accessor component

  /** A line data impression: its key data path, its data, and its render hints
      (the per-line visibility mask, null until first used, and the
      style-changed flag). */
  class LineImpression {
    const keyDataPath: string
    const data: LineData
    var perIndexVisibility: array?<bool>
    var styleChanged: bool

    /** Visibility of line i: every line is visible while no mask exists. */
    predicate Visible(i: int)
      reads this, perIndexVisibility
    {
      perIndexVisibility == null ||
      (0 <= i < perIndexVisibility.Length && perIndexVisibility[i])
    }

    constructor(keyDataPath: string, data: LineData)
      ensures this.keyDataPath == keyDataPath && this.data == data
      ensures perIndexVisibility == null && !styleChanged
    {
      this.keyDataPath := keyDataPath;
      this.data := data;
      perIndexVisibility := null;
      styleChanged := false;
    }
  }

  function Paths(imps: seq<LineImpression>): (ps: seq<string>)
    ensures |ps| == |imps|
    ensures forall i :: 0 <= i < |imps| ==> ps[i] == imps[i].keyDataPath
  {
    seq(|imps|, i requires 0 <= i < |imps| => imps[i].keyDataPath)
  }

  /** The accessor component: its inspector settings, the impression it
      currently reads from (null when no data are available), and counters for
      the engine render requests and the selection warnings it has issued. */
  class LineDataAccessor {
    var lineKeyDataPath: string
    var keyDataPathCanIncludeSuffix: bool
    var outOfRangeDataValue: real
    var current: LineImpression?
    var renderRequests: nat
    var selectionWarnings: nat

    /** The component's defaults (its Reset). */
    constructor()
      ensures lineKeyDataPath == "LANL/FireSim/KeyData/Wind"
      ensures keyDataPathCanIncludeSuffix && outOfRangeDataValue == -9999.0
      ensures current == null && renderRequests == 0 && selectionWarnings == 0
    {
      lineKeyDataPath := "LANL/FireSim/KeyData/Wind";
      keyDataPathCanIncludeSuffix := true;
      outOfRangeDataValue := -9999.0;
      current := null;
      renderRequests := 0;
      selectionWarnings := 0;
    }

    predicate IsDataAvailable()
      reads this
    {
      current != null
    }

    /** The data every query of this accessor reads. */
    function Data(): (d: Option<LineData>)
      reads this
      ensures d.Some? <==> IsDataAvailable()
      ensures d.Some? ==> d.value == current.data
    {
      if current == null then None else Some(current.data)
    }

    /** SetVisibleLines: allocates an all-visible mask of GetNumLines() flags if
        none exists, then makes line i visible exactly when i is listed, for
        every i the mask covers; listed indices beyond it are ignored and an
        existing mask keeps its length. Flags the style change and asks the
        engine to render. */
    method SetVisibleLines(visibleIndices: seq<int>)
      modifies this`renderRequests, current
      modifies if current != null && current.perIndexVisibility != null then {current.perIndexVisibility} else {}
      ensures current == old(current)
      ensures current == null ==> renderRequests == old(renderRequests)
      ensures current != null ==>
        var mask := current.perIndexVisibility;
        mask != null &&
        (old(current.perIndexVisibility) == null ==> fresh(mask) && mask.Length == NumLines(current.data)) &&
        (old(current.perIndexVisibility) != null ==> mask == old(current.perIndexVisibility)) &&
        (forall i :: 0 <= i < mask.Length ==> mask[i] == (i in visibleIndices)) &&
        current.styleChanged && renderRequests == old(renderRequests) + 1
      ensures lineKeyDataPath == old(lineKeyDataPath) && selectionWarnings == old(selectionWarnings)
      ensures keyDataPathCanIncludeSuffix == old(keyDataPathCanIncludeSuffix) && outOfRangeDataValue == old(outOfRangeDataValue)
    {
      if current != null {
        if current.perIndexVisibility == null {
          current.perIndexVisibility := new bool[NumLines(current.data)](_ => true);
        }
        var mask := current.perIndexVisibility;
        var i := 0;
        while i < mask.Length
          invariant 0 <= i <= mask.Length
          invariant current == old(current) && current.perIndexVisibility == mask
          invariant forall k :: 0 <= k < i ==> mask[k] == (k in visibleIndices)
          modifies mask
        {
          mask[i] := i in visibleIndices;
          i := i + 1;
        }
        current.styleChanged := true;
        renderRequests := renderRequests + 1;
      }
    }

    /** ResetLineVisibility: drops the mask, so every line is visible again,
        flags the style change and asks the engine to render. */
    method ResetLineVisibility()
      modifies this`renderRequests, current
      ensures current == old(current)
      ensures current != null ==> current.perIndexVisibility == null && current.styleChanged
      ensures current != null ==> forall j :: current.Visible(j)
      ensures current != null ==> renderRequests == old(renderRequests) + 1
      ensures current == null ==> renderRequests == old(renderRequests)
      ensures lineKeyDataPath == old(lineKeyDataPath) && selectionWarnings == old(selectionWarnings)
      ensures keyDataPathCanIncludeSuffix == old(keyDataPathCanIncludeSuffix) && outOfRangeDataValue == old(outOfRangeDataValue)
    {
      if current != null {
        current.perIndexVisibility := null;
        current.styleChanged := true;
        renderRequests := renderRequests + 1;
      }
    }

    /** UpdateCurrentDataImpression, run every frame: reselects the impression
        among those in the scene, warning when several exist and none matches
        the key data path. */
    method UpdateCurrentDataImpression(impressions: seq<LineImpression>) returns (chosen: Option<nat>)
      modifies this
      ensures IsSelection(Paths(impressions), lineKeyDataPath, keyDataPathCanIncludeSuffix, chosen)
      ensures chosen.Some? ==> chosen.value < |impressions| && current == impressions[chosen.value]
      ensures chosen.None? ==> current == null
      ensures selectionWarnings == old(selectionWarnings) + (if |impressions| > 1 && chosen.None? then 1 else 0)
      ensures lineKeyDataPath == old(lineKeyDataPath)
      ensures keyDataPathCanIncludeSuffix == old(keyDataPathCanIncludeSuffix)
      ensures outOfRangeDataValue == old(outOfRangeDataValue) && renderRequests == old(renderRequests)
    {
      var ambiguous;
      chosen, ambiguous := SelectImpression(Paths(impressions), lineKeyDataPath, keyDataPathCanIncludeSuffix);
      current := if chosen.Some? then impressions[chosen.value] else null;
      if ambiguous {
        selectionWarnings := selectionWarnings + 1;
      }
    }
  }
}
