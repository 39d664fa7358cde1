/**
 * ColorMap: a colour map given by control points (data value, colour) that
 * need not be evenly spaced, looked up with interpolation in CIELAB space,
 * with an optional custom data range and an optional special colour for data
 * outside the map's range.
 *
 * The CIELAB conversions (Lab2Rgb) are parameters of the lookup: `toLab` stands
 * for colour-to-list followed by rgb2lab, `fromLab` for lab2rgb followed by
 * list-to-colour.
 */
module ColorMaps {
  import opened UnityMath
  import opened RangeNormalizer

  /** Unity's Color: red, green, blue, alpha. */
  datatype Color = Color(r: real, g: real, b: real, a: real)

  /** A CIELAB triple. */
  datatype Lab = Lab(l: real, a: real, b: real)

  datatype ControlPt = ControlPt(dataVal: real, col: Color)

  // ---------------------------------------------------------------------------
  // Orderings of control-point lists

  predicate SortedByValue(s: seq<ControlPt>)
  {
    forall i, j :: 0 <= i < j < |s| ==> s[i].dataVal <= s[j].dataVal
  }

  /** Sorted with no two points sharing a data value. */
  predicate StrictlySorted(s: seq<ControlPt>)
  {
    forall i, j :: 0 <= i < j < |s| ==> s[i].dataVal < s[j].dataVal
  }

  predicate UniqueValues(s: seq<ControlPt>)
  {
    forall i, j :: 0 <= i < |s| && 0 <= j < |s| && i != j ==> s[i].dataVal != s[j].dataVal
  }

  predicate HasValue(s: seq<ControlPt>, d: real)
  {
    exists i :: 0 <= i < |s| && s[i].dataVal == d
  }

  // ---------------------------------------------------------------------------
  // Removing a control point

  /** The index of the first point whose value is exactly d, or -1. */
  function FirstWithValue(s: seq<ControlPt>, d: real): (k: int)
    ensures -1 <= k < |s|
    ensures k == -1 <==> !HasValue(s, d)
    ensures k >= 0 ==> s[k].dataVal == d && forall j :: 0 <= j < k ==> s[j].dataVal != d
  {
    if |s| == 0 then -1
    else if s[0].dataVal == d then 0
    else
      var k := FirstWithValue(s[1..], d);
      assert forall j :: 1 <= j < |s| ==> s[j] == s[1..][j - 1];
      if k == -1 then -1 else k + 1
  }

  /** The list without its first point of value d (unchanged if there is none). */
  function RemoveFirstWithValue(s: seq<ControlPt>, d: real): (r: seq<ControlPt>)
    ensures !HasValue(s, d) ==> r == s
    ensures HasValue(s, d) ==>
              |r| == |s| - 1 && multiset(r) + multiset{s[FirstWithValue(s, d)]} == multiset(s)
  {
    var k := FirstWithValue(s, d);
    if k < 0 then s
    else
      assert s == s[..k] + [s[k]] + s[k + 1..];
      s[..k] + s[k + 1..]
  }

  /** The list with the point at index k taken out, read index by index. */
  lemma DeleteAt(s: seq<ControlPt>, k: int)
    requires 0 <= k < |s|
    ensures var r := s[..k] + s[k + 1..];
            |r| == |s| - 1 && forall i :: 0 <= i < |r| ==> r[i] == s[if i < k then i else i + 1]
  {
  }

  /** Removing from a list with unique values keeps the values unique. */
  lemma RemoveKeepsUnique(s: seq<ControlPt>, d: real)
    requires UniqueValues(s)
    ensures UniqueValues(RemoveFirstWithValue(s, d))
  {
    var k := FirstWithValue(s, d);
    if k >= 0 {
      DeleteAt(s, k);
    }
  }

  /** Removing from a list with unique values takes away the only point of
      value d and keeps every other point. */
  lemma RemoveFromUnique(s: seq<ControlPt>, d: real)
    requires UniqueValues(s)
    ensures !HasValue(RemoveFirstWithValue(s, d), d)
    ensures forall i :: 0 <= i < |s| && s[i].dataVal != d ==> s[i] in RemoveFirstWithValue(s, d)
  {
    var k := FirstWithValue(s, d);
    if k >= 0 {
      var r := RemoveFirstWithValue(s, d);
      DeleteAt(s, k);
      forall i | 0 <= i < |s| && s[i].dataVal != d
        ensures s[i] in r
      {
        assert r[if i < k then i else i - 1] == s[i];
      }
    }
  }

  // ---------------------------------------------------------------------------
  // The sort by data value (LINQ OrderBy)

  /** Inserts x after every point whose value is at most x's. */
  function InsertByValue(s: seq<ControlPt>, x: ControlPt): (r: seq<ControlPt>)
    ensures |r| == |s| + 1
    ensures multiset(r) == multiset(s) + multiset{x}
  {
    if |s| == 0 || s[|s| - 1].dataVal <= x.dataVal then s + [x]
    else
      assert s == s[..|s| - 1] + [s[|s| - 1]];
      InsertByValue(s[..|s| - 1], x) + [s[|s| - 1]]
  }

  /** Insertion sort; each point is placed after the earlier points with the
      same or a smaller value, so points of equal value keep their order. */
  function SortByValue(s: seq<ControlPt>): (r: seq<ControlPt>)
    ensures |r| == |s|
    ensures multiset(r) == multiset(s)
  {
    if |s| == 0 then []
    else
      assert s == s[..|s| - 1] + [s[|s| - 1]];
      InsertByValue(SortByValue(s[..|s| - 1]), s[|s| - 1])
  }

  predicate AllAtMost(s: seq<ControlPt>, v: real)
  {
    forall i :: 0 <= i < |s| ==> s[i].dataVal <= v
  }

  predicate AllBelow(s: seq<ControlPt>, v: real)
  {
    forall i :: 0 <= i < |s| ==> s[i].dataVal < v
  }

  predicate NoValue(s: seq<ControlPt>, v: real)
  {
    forall i :: 0 <= i < |s| ==> s[i].dataVal != v
  }

  lemma {:induction false} InsertBounds(s: seq<ControlPt>, x: ControlPt, v: real)
    ensures AllAtMost(s, v) && x.dataVal <= v ==> AllAtMost(InsertByValue(s, x), v)
    ensures AllBelow(s, v) && x.dataVal < v ==> AllBelow(InsertByValue(s, x), v)
    ensures NoValue(s, v) && x.dataVal != v ==> NoValue(InsertByValue(s, x), v)
  {
    if |s| > 0 && s[|s| - 1].dataVal > x.dataVal {
      InsertBounds(s[..|s| - 1], x, v);
    }
  }

  lemma {:induction false} SortNoValue(s: seq<ControlPt>, v: real)
    requires NoValue(s, v)
    ensures NoValue(SortByValue(s), v)
  {
    if |s| > 0 {
      SortNoValue(s[..|s| - 1], v);
      InsertBounds(SortByValue(s[..|s| - 1]), s[|s| - 1], v);
    }
  }

  lemma {:induction false} InsertKeepsSorted(s: seq<ControlPt>, x: ControlPt)
    requires SortedByValue(s)
    ensures SortedByValue(InsertByValue(s, x))
  {
    if |s| > 0 && s[|s| - 1].dataVal > x.dataVal {
      var init, last := s[..|s| - 1], s[|s| - 1];
      InsertKeepsSorted(init, x);
      InsertBounds(init, x, last.dataVal);
      assert AllAtMost(InsertByValue(init, x), last.dataVal);
    }
  }

  lemma {:induction false} InsertKeepsStrictlySorted(s: seq<ControlPt>, x: ControlPt)
    requires StrictlySorted(s) && NoValue(s, x.dataVal)
    ensures StrictlySorted(InsertByValue(s, x))
  {
    if |s| > 0 && s[|s| - 1].dataVal > x.dataVal {
      var init, last := s[..|s| - 1], s[|s| - 1];
      InsertKeepsStrictlySorted(init, x);
      InsertBounds(init, x, last.dataVal);
      assert AllBelow(InsertByValue(init, x), last.dataVal);
    }
  }

  /** The sort yields a sorted list. */
  lemma {:induction false} SortIsSorted(s: seq<ControlPt>)
    ensures SortedByValue(SortByValue(s))
  {
    if |s| > 0 {
      SortIsSorted(s[..|s| - 1]);
      InsertKeepsSorted(SortByValue(s[..|s| - 1]), s[|s| - 1]);
    }
  }

  /** With unique values, the sort yields a strictly ascending list. */
  lemma {:induction false} SortIsStrictlySorted(s: seq<ControlPt>)
    requires UniqueValues(s)
    ensures StrictlySorted(SortByValue(s))
  {
    if |s| > 0 {
      var init, last := s[..|s| - 1], s[|s| - 1];
      SortIsStrictlySorted(init);
      SortNoValue(init, last.dataVal);
      InsertKeepsStrictlySorted(SortByValue(init), last);
    }
  }

  /** Sorting a sorted list changes nothing. */
  lemma {:induction false} SortOfSorted(s: seq<ControlPt>)
    requires SortedByValue(s)
    ensures SortByValue(s) == s
  {
    if |s| > 0 {
      var init, last := s[..|s| - 1], s[|s| - 1];
      SortedSplit(s);
      SortOfSorted(init);
      assert s == init + [last];
    }
  }

  /** A sorted list is its sorted front followed by a last point no smaller
      than the one before it. */
  lemma SortedSplit(s: seq<ControlPt>)
    requires SortedByValue(s) && |s| > 0
    ensures SortedByValue(s[..|s| - 1])
    ensures |s| == 1 || s[|s| - 2].dataVal <= s[|s| - 1].dataVal
  {
  }

  // ---------------------------------------------------------------------------
  // Adding a control point

  /** What AddControlPt leaves: the first point of value d removed, the new
      point appended, and the list stably sorted by value. */
  function AddedControlPt(s: seq<ControlPt>, d: real, c: Color): (r: seq<ControlPt>)
    ensures SortedByValue(r)
    ensures multiset(r) == multiset(RemoveFirstWithValue(s, d)) + multiset{ControlPt(d, c)}
    ensures ControlPt(d, c) in r
  {
    var t := RemoveFirstWithValue(s, d) + [ControlPt(d, c)];
    SortIsSorted(t);
    assert ControlPt(d, c) in multiset(t);
    SortByValue(t)
  }

  lemma StrictlySortedIsUnique(s: seq<ControlPt>)
    requires StrictlySorted(s)
    ensures UniqueValues(s)
  {
    forall i, j | 0 <= i < |s| && 0 <= j < |s| && i != j
      ensures s[i].dataVal != s[j].dataVal
    {
      if i < j {
        assert s[i].dataVal < s[j].dataVal;
      } else {
        assert s[j].dataVal < s[i].dataVal;
      }
    }
  }

  /** On a list with unique values (as AddControlPt itself builds), adding keeps
      the list strictly ascending, the new point is the only one with value d,
      and every point with another value is kept. */
  lemma AddKeepsStrictlySorted(s: seq<ControlPt>, d: real, c: Color)
    requires UniqueValues(s)
    ensures StrictlySorted(AddedControlPt(s, d, c))
    ensures forall i :: 0 <= i < |AddedControlPt(s, d, c)| && AddedControlPt(s, d, c)[i].dataVal == d ==>
              AddedControlPt(s, d, c)[i] == ControlPt(d, c)
    ensures forall i :: 0 <= i < |s| && s[i].dataVal != d ==> s[i] in AddedControlPt(s, d, c)
  {
    var removed := RemoveFirstWithValue(s, d);
    var t := removed + [ControlPt(d, c)];
    var r := AddedControlPt(s, d, c);
    RemoveKeepsUnique(s, d);
    RemoveFromUnique(s, d);
    assert UniqueValues(t);
    SortIsStrictlySorted(t);
    forall i | 0 <= i < |r| && r[i].dataVal == d
      ensures r[i] == ControlPt(d, c)
    {
      assert r[i] in multiset(r);
    }
    forall i | 0 <= i < |s| && s[i].dataVal != d
      ensures s[i] in r
    {
      assert s[i] in removed;
      assert s[i] in multiset(r);
    }
  }

  /** Adding a point above every value of a strictly ascending list appends it. */
  lemma AddAboveAppends(s: seq<ControlPt>, d: real, c: Color)
    requires StrictlySorted(s) && AllBelow(s, d)
    ensures AddedControlPt(s, d, c) == s + [ControlPt(d, c)]
  {
    assert !HasValue(s, d);
    var t := s + [ControlPt(d, c)];
    assert SortedByValue(t);
    SortOfSorted(t);
  }

  // ---------------------------------------------------------------------------
  // Looking up a colour

  /** Index i brackets v: the scan from index 1 stops at i (the first index from
      1 on whose value is not below v), and the point before it is below v. */
  predicate IsBracket(s: seq<ControlPt>, v: real, i: int)
  {
    1 <= i < |s| && s[i - 1].dataVal < v <= s[i].dataVal &&
    forall j :: 1 <= j < i ==> s[j].dataVal < v
  }

  /** The interpolation weight of the upper bracketing point. */
  function Alpha(s: seq<ControlPt>, v: real, i: int): (alpha: real)
    requires IsBracket(s, v, i)
    ensures 0.0 < alpha <= 1.0
    ensures alpha == 1.0 <==> v == s[i].dataVal
  {
    var v1, v2 := s[i - 1].dataVal, s[i].dataVal;
    DivByPositive(v - v1, v2 - v1);
    (v - v1) / (v2 - v1)
  }

  /** Channel-wise blend of two CIELAB colours. */
  function LabLerp(l1: Lab, l2: Lab, alpha: real): (r: Lab)
    ensures alpha == 0.0 ==> r == l1
    ensures alpha == 1.0 ==> r == l2
  {
    Lab(l1.l * (1.0 - alpha) + l2.l * alpha,
        l1.a * (1.0 - alpha) + l2.a * alpha,
        l1.b * (1.0 - alpha) + l2.b * alpha)
  }

  /** Each channel of the blend lies between the two colours' channels. */
  lemma LabLerpBetween(l1: Lab, l2: Lab, alpha: real)
    requires 0.0 <= alpha <= 1.0
    ensures var r := LabLerp(l1, l2, alpha);
            Between(r.l, l1.l, l2.l) && Between(r.a, l1.a, l2.a) && Between(r.b, l1.b, l2.b)
  {
    LerpBetween(l1.l, l2.l, alpha);
    LerpBetween(l1.a, l2.a, alpha);
    LerpBetween(l1.b, l2.b, alpha);
  }

  /** The scan stops at one index only. */
  lemma BracketIsUnique(s: seq<ControlPt>, v: real, i1: int, i2: int)
    requires IsBracket(s, v, i1) && IsBracket(s, v, i2)
    ensures i1 == i2
  {
    assert !(i1 < i2) && !(i2 < i1);
  }

  /** On a strictly ascending map, the bracket is the interval holding v. */
  lemma BracketOfSortedMap(s: seq<ControlPt>, v: real, i: int)
    requires StrictlySorted(s) && 1 <= i < |s|
    ensures IsBracket(s, v, i) <==> s[i - 1].dataVal < v <= s[i].dataVal
  {
  }

  /** Between its end values a map always has a bracket, sorted or not. */
  lemma BracketExists(s: seq<ControlPt>, v: real)
    requires |s| >= 2 && s[0].dataVal < v < s[|s| - 1].dataVal
    ensures exists i :: IsBracket(s, v, i)
  {
    var i := 1;
    while s[i].dataVal < v
      invariant 1 <= i < |s|
      invariant forall j :: 1 <= j < i ==> s[j].dataVal < v
      decreases |s| - i
    {
      i := i + 1;
    }
    assert IsBracket(s, v, i);
  }

  // ---------------------------------------------------------------------------
  // Sampling and XML points

  /** The value of sample i of n: i / (n - 1). */
  function SampleValue(i: int, n: int): real
    requires n != 1
  {
    i as real / (n - 1) as real
  }

  /** With at least two samples the values rise strictly from 0 to 1. */
  lemma SampleValuesAscend(i: int, j: int, n: int)
    requires n >= 2 && 0 <= i < j < n
    ensures 0.0 <= SampleValue(i, n) < SampleValue(j, n) <= 1.0
    ensures i == 0 ==> SampleValue(i, n) == 0.0
    ensures j == n - 1 ==> SampleValue(j, n) == 1.0
  {
    RatiosAscend(i as real, j as real, (n - 1) as real);
  }

  lemma RatiosAscend(a: real, b: real, m: real)
    requires 0.0 <= a < b <= m
    ensures 0.0 <= a / m < b / m <= 1.0
  {
    var x, y := a / m, b / m;
    assert a == x * m && b == y * m;
    assert (y - x) * m == b - a;
    DivByPositive(a, m);
    DivByPositive(b, m);
  }

  /** s holds the first |s| of n samples of colorAt. */
  predicate IsSamplePrefix(s: seq<ControlPt>, n: int, colorAt: real -> Color)
    requires n != 1
  {
    forall j :: 0 <= j < |s| ==> s[j] == ControlPt(SampleValue(j, n), colorAt(SampleValue(j, n)))
  }

  lemma SamplePrefixIsStrictlySorted(s: seq<ControlPt>, n: int, colorAt: real -> Color)
    requires n >= 2 && |s| <= n && IsSamplePrefix(s, n, colorAt)
    ensures StrictlySorted(s)
  {
    forall i, j | 0 <= i < j < |s|
      ensures s[i].dataVal < s[j].dataVal
    {
      SampleValuesAscend(i, j, n);
    }
  }

  /** Adding the next sample to a prefix of samples appends it. */
  lemma AddNextSample(s: seq<ControlPt>, n: int, colorAt: real -> Color)
    requires n >= 2 && |s| < n && IsSamplePrefix(s, n, colorAt)
    ensures var v := SampleValue(|s|, n);
            var r := AddedControlPt(s, v, colorAt(v));
            r == s + [ControlPt(v, colorAt(v))] && IsSamplePrefix(r, n, colorAt)
  {
    var v := SampleValue(|s|, n);
    SamplePrefixIsStrictlySorted(s, n, colorAt);
    forall j | 0 <= j < |s|
      ensures s[j].dataVal < v
    {
      SampleValuesAscend(j, |s|, n);
    }
    AddAboveAppends(s, v, colorAt(v));
  }

  /** A Point element of a ParaView colour-map XML file. */
  datatype XmlPoint = XmlPoint(x: real, r: real, g: real, b: real)

  /** The control points left by adding the given XML points in order. */
  function AddAll(s: seq<ControlPt>, ps: seq<XmlPoint>): seq<ControlPt>
  {
    if |ps| == 0 then s
    else
      var p := ps[|ps| - 1];
      AddedControlPt(AddAll(s, ps[..|ps| - 1]), p.x, Color(p.r, p.g, p.b, 1.0))
  }

  /** Loading one more point of a list adds it to what its prefix left. */
  lemma AddAllNext(ps: seq<XmlPoint>, i: int)
    requires 0 <= i < |ps|
    ensures AddAll([], ps[..i + 1]) == AddedControlPt(AddAll([], ps[..i]), ps[i].x, Color(ps[i].r, ps[i].g, ps[i].b, 1.0))
  {
    assert ps[..i + 1][..i] == ps[..i];
  }

  /** Loading XML points into an empty map gives a strictly ascending map that
      has a point for every value listed. */
  lemma {:induction false} AddAllIsStrictlySorted(ps: seq<XmlPoint>)
    ensures StrictlySorted(AddAll([], ps))
    ensures forall j :: 0 <= j < |ps| ==> HasValue(AddAll([], ps), ps[j].x)
  {
    if |ps| > 0 {
      var init := ps[..|ps| - 1];
      var p := ps[|ps| - 1];
      var prev := AddAll([], init);
      var r := AddAll([], ps);
      AddAllIsStrictlySorted(init);
      StrictlySortedIsUnique(prev);
      AddKeepsStrictlySorted(prev, p.x, Color(p.r, p.g, p.b, 1.0));
      forall j | 0 <= j < |ps|
        ensures HasValue(r, ps[j].x)
      {
        if j < |ps| - 1 && ps[j].x != p.x {
          assert init[j] == ps[j];
          var k :| 0 <= k < |prev| && prev[k].dataVal == ps[j].x;
          assert prev[k] in r;
        } else {
          assert ControlPt(p.x, Color(p.r, p.g, p.b, 1.0)) in r;
        }
      }
    }
  }

  // ---------------------------------------------------------------------------
  // The component

  class ColorMap {
    var useCustomMinMax: bool
    var customMinDataValue: real
    var customMaxDataValue: real
    var useSpecialColorForOutOfRange: bool
    var outOfRangeColor: Color
    var controlPts: seq<ControlPt>

    /** The component's defaults (its Reset); the list the source leaves null
        starts empty here. */
    constructor()
      ensures !useCustomMinMax && customMinDataValue == 0.0 && customMaxDataValue == 1.0
      ensures !useSpecialColorForOutOfRange && outOfRangeColor == Color(0.0, 0.0, 0.0, 1.0)
      ensures controlPts == []
    {
      useCustomMinMax := false;
      customMinDataValue := 0.0;
      customMaxDataValue := 1.0;
      useSpecialColorForOutOfRange := false;
      outOfRangeColor := Color(0.0, 0.0, 0.0, 1.0);
      controlPts := [];
    }

    /** What the custom range needs: a first and last control point, and a
        non-empty custom range (an empty one divides by zero). */
    predicate CustomRangeUsable()
      reads this
    {
      useCustomMinMax ==> |controlPts| > 0 && customMaxDataValue != customMinDataValue
    }

    /** GetDataValueWithCustomMinMax: the identity when the custom range is off;
        otherwise the affine map taking the custom minimum to the first control
        value and the custom maximum to the last. */
    function GetDataValueWithCustomMinMax(dataVal: real): (r: real)
      reads this
      requires CustomRangeUsable()
      ensures !useCustomMinMax ==> r == dataVal
      ensures useCustomMinMax && dataVal == customMinDataValue ==> r == controlPts[0].dataVal
      ensures useCustomMinMax && dataVal == customMaxDataValue ==> r == controlPts[|controlPts| - 1].dataVal
    {
      if useCustomMinMax then
        var dataVal01 := (dataVal - customMinDataValue) / (customMaxDataValue - customMinDataValue);
        var colorMinVal := controlPts[0].dataVal;
        var colorMaxVal := controlPts[|controlPts| - 1].dataVal;
        colorMinVal + dataVal01 * (colorMaxVal - colorMinVal)
      else
        dataVal
    }

    /** The colour the map gives dataVal: with no control points the
        out-of-range colour; with one, its colour; otherwise, after the
        custom-range remap, the end colours (or the out-of-range colour when
        that option is on) at or beyond the end values, and inside them the
        CIELAB blend of the two points bracketing the value. */
    ghost predicate IsLookupResult(dataVal: real, toLab: Color -> Lab, fromLab: Lab -> Color, c: Color)
      reads this
      requires |controlPts| >= 2 ==> CustomRangeUsable()
    {
      (|controlPts| == 0 ==> c == outOfRangeColor) &&
      (|controlPts| == 1 ==> c == controlPts[0].col) &&
      (|controlPts| >= 2 ==>
        var pts := controlPts;
        var v := GetDataValueWithCustomMinMax(dataVal);
        var lo, hi := pts[0].dataVal, pts[|pts| - 1].dataVal;
        (v >= hi ==> c == (if useSpecialColorForOutOfRange then outOfRangeColor else pts[|pts| - 1].col)) &&
        (v < hi && v <= lo ==> c == (if useSpecialColorForOutOfRange then outOfRangeColor else pts[0].col)) &&
        (lo < v < hi ==>
           exists i :: IsBracket(pts, v, i) &&
                       c == fromLab(LabLerp(toLab(pts[i - 1].col), toLab(pts[i].col), Alpha(pts, v, i)))))
    }

    /** LookupColor: the colour the map gives dataVal, warning when there are
        no control points. */
    method LookupColor(dataVal: real, toLab: Color -> Lab, fromLab: Lab -> Color) returns (c: Color, warned: bool)
      requires |controlPts| >= 2 ==> CustomRangeUsable()
      ensures warned <==> |controlPts| == 0
      ensures IsLookupResult(dataVal, toLab, fromLab, c)
    {
      var pts := controlPts;
      if |pts| == 0 {
        return outOfRangeColor, true;
      } else if |pts| == 1 {
        return pts[0].col, false;
      }
      warned := false;
      var v := GetDataValueWithCustomMinMax(dataVal);
      var minVal := pts[0].dataVal;
      var maxVal := pts[|pts| - 1].dataVal;
      if v >= maxVal {
        c := if useSpecialColorForOutOfRange then outOfRangeColor else pts[|pts| - 1].col;
      } else if v <= minVal {
        c := if useSpecialColorForOutOfRange then outOfRangeColor else pts[0].col;
      } else {
        var i := 1;
        while pts[i].dataVal < v
          invariant 1 <= i < |pts|
          invariant forall j :: 1 <= j < i ==> pts[j].dataVal < v
          decreases |pts| - i
        {
          i := i + 1;
        }
        assert IsBracket(pts, v, i);
        var v1 := pts[i - 1].dataVal;
        var v2 := pts[i].dataVal;
        var alpha := (v - v1) / (v2 - v1);
        var lab1 := toLab(pts[i - 1].col);
        var lab2 := toLab(pts[i].col);
        assert alpha == Alpha(pts, v, i);
        c := fromLab(LabLerp(lab1, lab2, alpha));
      }
    }

    /** RemoveControlPt: removes the first point whose value equals dataVal
        exactly and reports whether there was one; warns otherwise, if asked. */
    method RemoveControlPt(dataVal: real, warnOnNotFound: bool) returns (found: bool, warned: bool)
      modifies this`controlPts
      ensures found <==> HasValue(old(controlPts), dataVal)
      ensures controlPts == RemoveFirstWithValue(old(controlPts), dataVal)
      ensures warned <==> !found && warnOnNotFound
    {
      var i := 0;
      while i < |controlPts|
        invariant 0 <= i <= |controlPts| && controlPts == old(controlPts)
        invariant forall j :: 0 <= j < i ==> controlPts[j].dataVal != dataVal
      {
        if controlPts[i].dataVal == dataVal {
          assert FirstWithValue(controlPts, dataVal) == i;
          controlPts := controlPts[..i] + controlPts[i + 1..];
          return true, false;
        }
        i := i + 1;
      }
      found := false;
      warned := warnOnNotFound;
    }

    /** AddControlPt: replaces the point with this value, if any, by the new
        one, and re-sorts the list by value. */
    method AddControlPt(dataVal: real, col: Color)
      modifies this`controlPts
      ensures controlPts == AddedControlPt(old(controlPts), dataVal, col)
    {
      var _, _ := RemoveControlPt(dataVal, false);
      controlPts := controlPts + [ControlPt(dataVal, col)];
      controlPts := SortByValue(controlPts);
    }

    /** The sampling loop shared by SetFromTexture2D and SetFromABRVisAsset:
        the list is replaced by numSamples points at values i / (numSamples - 1)
        coloured by colorAt (a single sample would divide by zero). */
    method ReplaceWithSamples(numSamples: int, colorAt: real -> Color)
      modifies this`controlPts
      requires numSamples != 1
      ensures |controlPts| == (if numSamples > 0 then numSamples else 0)
      ensures IsSamplePrefix(controlPts, numSamples, colorAt)
      ensures StrictlySorted(controlPts)
    {
      controlPts := [];
      var i := 0;
      while i < numSamples
        invariant 0 <= i <= (if numSamples > 0 then numSamples else 0) && |controlPts| == i
        invariant IsSamplePrefix(controlPts, numSamples, colorAt)
      {
        var val := SampleValue(i, numSamples);
        AddNextSample(controlPts, numSamples, colorAt);
        AddControlPt(val, colorAt(val));
        i := i + 1;
      }
      if numSamples >= 2 {
        SamplePrefixIsStrictlySorted(controlPts, numSamples, colorAt);
      }
    }

    /** SetFromTexture2D: samples the texture's middle row at numSamples evenly
        spaced positions from left to right. */
    method SetFromTexture2D(pixelBilinear: (real, real) -> Color, numSamples: int)
      modifies this`controlPts
      requires numSamples != 1
      ensures |controlPts| == (if numSamples > 0 then numSamples else 0)
      ensures forall i :: 0 <= i < |controlPts| ==>
                controlPts[i] == ControlPt(SampleValue(i, numSamples), pixelBilinear(SampleValue(i, numSamples), 0.5))
      ensures StrictlySorted(controlPts)
    {
      ReplaceWithSamples(numSamples, v => pixelBilinear(v, 0.5));
    }

    /** SetFromABRVisAsset: samples the asset's interpolated colours at 11 evenly
        spaced values from 0 to 1. */
    method SetFromABRVisAsset(colorInterp: real -> Color)
      modifies this`controlPts
      ensures |controlPts| == 11
      ensures forall i :: 0 <= i < 11 ==>
                controlPts[i] == ControlPt(SampleValue(i, 11), colorInterp(SampleValue(i, 11)))
      ensures StrictlySorted(controlPts)
    {
      ReplaceWithSamples(11, colorInterp);
    }

    /** The point-adding loop of SetFromXML, after parsing: the list is
        replaced by the XML points added one by one, each opaque. */
    method SetFromXmlPoints(points: seq<XmlPoint>)
      modifies this`controlPts
      ensures controlPts == AddAll([], points)
    {
      controlPts := [];
      for i := 0 to |points|
        invariant controlPts == AddAll([], points[..i])
      {
        var p := points[i];
        AddAllNext(points, i);
        AddControlPt(p.x, Color(p.r, p.g, p.b, 1.0));
      }
      assert points[..|points|] == points;
    }
  }

  /** With the custom range on, a value keeps its relative position: where it
      sits between the custom minimum and maximum is where the remapped value
      sits between the first and last control values. */
  lemma CustomRangeKeepsRelativePosition(cm: ColorMap, dataVal: real)
    requires cm.useCustomMinMax && cm.CustomRangeUsable()
    requires cm.controlPts[0].dataVal != cm.controlPts[|cm.controlPts| - 1].dataVal
    ensures Normalize(cm.GetDataValueWithCustomMinMax(dataVal), cm.controlPts[0].dataVal,
                      cm.controlPts[|cm.controlPts| - 1].dataVal)
            == Normalize(dataVal, cm.customMinDataValue, cm.customMaxDataValue)
  {
    var lo, hi := cm.controlPts[0].dataVal, cm.controlPts[|cm.controlPts| - 1].dataVal;
    var t := Normalize(dataVal, cm.customMinDataValue, cm.customMaxDataValue);
    assert cm.GetDataValueWithCustomMinMax(dataVal) == Lerp(lo, hi, t);
    NormalizeLerpInverse(lo, hi, t, dataVal);
  }

  /** At an interior control value the lookup returns that point's colour as
      seen through the CIELAB round trip. */
  lemma LookupAtControlValue(s: seq<ControlPt>, i: int, toLab: Color -> Lab, fromLab: Lab -> Color)
    requires 0 <= i < |s| && IsBracket(s, s[i].dataVal, i)
    ensures fromLab(LabLerp(toLab(s[i - 1].col), toLab(s[i].col), Alpha(s, s[i].dataVal, i)))
            == fromLab(toLab(s[i].col))
  {
  }
}
