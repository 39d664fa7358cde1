/**
 * The timestep list shared by the animation controller and the timestep
 * selector: the numbers first, first + inc, ... up to last; the index that
 * walks round that list; and the rule that turns a requested timestep number
 * into an index (its own position when listed, otherwise the nearest entry,
 * the lowest index winning ties).
 */
module TimestepIndex {
  import opened UnityMath

  /** first, first + inc, first + 2 * inc, ... while the value is at most last
      (empty when first > last, whatever the increment) */
  function Steps(first: int, last: int, inc: int): (s: seq<int>)
    requires inc > 0 || first > last
    ensures forall k :: 0 <= k < |s| ==> first <= s[k] <= last
    ensures |s| > 0 <==> first <= last
    ensures |s| > 0 ==> s[0] == first
    decreases last - first
  {
    if first > last then [] else [first] + Steps(first + inc, last, inc)
  }

  /** The loop that builds the list: appends first, first + inc, ... while
      the value is at most last. */
  method ListSteps(first: int, last: int, inc: int) returns (s: seq<int>)
    requires inc > 0 || first > last
    ensures s == Steps(first, last, inc)
  {
    s := [];
    if inc <= 0 {
      assert first > last && Steps(first, last, inc) == [];
      return;
    }
    assert inc > 0;
    var i := first;
    while i <= last
      invariant s + Steps(i, last, inc) == Steps(first, last, inc)
      decreases last - i
    {
      AppendStep(s, i, last, inc);
      s := s + [i];
      i := i + inc;
    }
  }

  /** Moving the next listed value from the rest of the list to the prefix
      keeps the whole list. */
  lemma AppendStep(s: seq<int>, i: int, last: int, inc: int)
    requires inc > 0 && i <= last
    ensures (s + [i]) + Steps(i + inc, last, inc) == s + Steps(i, last, inc)
  {
    assert Steps(i, last, inc) == [i] + Steps(i + inc, last, inc);
  }

  predicate StrictlyAscending(s: seq<int>)
  {
    forall i, j :: 0 <= i < j < |s| ==> s[i] < s[j]
  }

  lemma {:induction false} StepsAscending(first: int, last: int, inc: int)
    requires inc > 0
    ensures StrictlyAscending(Steps(first, last, inc))
    decreases last - first
  {
    if first <= last {
      StepsAscending(first + inc, last, inc);
      var s := Steps(first, last, inc);
      assert s[1..] == Steps(first + inc, last, inc);
      forall i, j | 0 <= i < j < |s|
        ensures s[i] < s[j]
      {
        if i > 0 {
          assert s[i] == s[1..][i - 1] && s[j] == s[1..][j - 1];
        } else {
          assert s[j] == s[1..][j - 1];
        }
      }
    }
  }

  /** Euclidean remainders are determined by any quotient-remainder decomposition. */
  lemma ModUnique(a: int, m: int, q: int, r: int)
    requires m > 0 && 0 <= r < m && a == m * q + r
    ensures a % m == r
  {
    var q0, r0 := a / m, a % m;
    assert m * q0 + r0 == m * q + r;
    assert m * (q0 - q) == r - r0;
    if q0 > q {
      MulAtLeast(m, q0 - q);
    } else if q0 < q {
      MulAtLeast(m, q - q0);
    }
  }

  lemma MulAtLeast(m: int, k: int)
    requires m > 0 && k >= 1
    ensures m * k >= m
  {
  }

  lemma ModShift(a: int, m: int)
    requires m > 0
    ensures (a + m) % m == a % m
  {
    ModUnique(a + m, m, a / m + 1, a % m);
  }

  /** A number is listed exactly when it lies in [first, last] and is a whole
      number of increments past first. */
  lemma {:induction false} StepsMembership(first: int, last: int, inc: int, n: int)
    requires inc > 0
    ensures n in Steps(first, last, inc) <==> first <= n <= last && (n - first) % inc == 0
    decreases last - first
  {
    if first <= last {
      StepsMembership(first + inc, last, inc, n);
      ModShift(n - first - inc, inc);
      assert (n - first) % inc == (n - (first + inc)) % inc;
      if n == first {
        assert (n - first) % inc == 0 by { ModUnique(0, inc, 0, 0); }
      } else if first < n < first + inc {
        assert (n - first) % inc == n - first by { ModUnique(n - first, inc, 0, n - first); }
      }
    }
  }

  /** The index after i on a ring of n entries: AdvanceOneTimestep's step. */
  function Next(i: int, n: int): (j: int)
    requires 0 <= i < n
    ensures 0 <= j < n
    ensures j == (i + 1) % n
  {
    if i + 1 >= n then 0 else i + 1
  }

  /** The index before i on a ring of n entries: RewindOneTimestep's step. */
  function Prev(i: int, n: int): (j: int)
    requires 0 <= i < n
    ensures 0 <= j < n
    ensures j == (i - 1 + n) % n
  {
    if i - 1 < 0 then n - 1 else i - 1
  }

  lemma NextPrevInverse(i: int, n: int)
    requires 0 <= i < n
    ensures Prev(Next(i, n), n) == i
    ensures Next(Prev(i, n), n) == i
  {
  }

  /** The index after k advances from i. */
  function Advanced(i: int, k: nat, n: int): (j: int)
    requires 0 <= i < n
    ensures 0 <= j < n
  {
    if k == 0 then i else Next(Advanced(i, k - 1, n), n)
  }

  /** Advancing from a remainder gives the remainder of the successor. */
  lemma NextOfRemainder(a: int, n: int)
    requires n > 0
    ensures Next(a % n, n) == (a + 1) % n
  {
    var q, r := a / n, a % n;
    assert a == n * q + r;
    if r + 1 < n {
      ModUnique(a + 1, n, q, r + 1);
    } else {
      assert n * (q + 1) == n * q + n;
      ModUnique(a + 1, n, q + 1, 0);
    }
  }

  /** k advances move the index k places round the ring; n of them bring it back. */
  lemma {:induction false} AdvancedIsModular(i: int, k: nat, n: int)
    requires 0 <= i < n
    ensures Advanced(i, k, n) == (i + k) % n
  {
    if k == 0 {
      ModUnique(i, n, 0, i);
    } else {
      AdvancedIsModular(i, k - 1, n);
      NextOfRemainder(i + k - 1, n);
    }
  }

  lemma FullCycleReturns(i: int, n: int)
    requires 0 <= i < n
    ensures Advanced(i, n, n) == i
  {
    AdvancedIsModular(i, n, n);
    ModUnique(i + n, n, 1, i);
  }

  /** List.IndexOf: the first position holding t, or -1. */
  function IndexOf(ns: seq<int>, t: int): (k: int)
    ensures -1 <= k < |ns|
    ensures k == -1 <==> t !in ns
    ensures k >= 0 ==> ns[k] == t && t !in ns[..k]
  {
    if |ns| == 0 then -1
    else if ns[0] == t then 0
    else
      var k := IndexOf(ns[1..], t);
      if k == -1 then -1
      else
        assert ns[..k + 1] == [ns[0]] + ns[1..][..k];
        k + 1
  }

  /** k is the lowest index whose number is nearest to t. */
  predicate IsFirstNearest(ns: seq<int>, t: int, k: int)
  {
    0 <= k < |ns| &&
    (forall j :: 0 <= j < |ns| ==> Abs(t - ns[k]) <= Abs(t - ns[j])) &&
    (forall j :: 0 <= j < k ==> Abs(t - ns[k]) < Abs(t - ns[j]))
  }

  lemma FirstNearestIsUnique(ns: seq<int>, t: int, k1: int, k2: int)
    requires IsFirstNearest(ns, t, k1) && IsFirstNearest(ns, t, k2)
    ensures k1 == k2
  {
    assert Abs(t - ns[k1]) <= Abs(t - ns[k2]);
    assert Abs(t - ns[k2]) <= Abs(t - ns[k1]);
  }

  /** A listed number is its own nearest entry, at its first position. */
  lemma ExactMatchIsFirstNearest(ns: seq<int>, t: int)
    requires t in ns
    ensures IsFirstNearest(ns, t, IndexOf(ns, t))
  {
    var k := IndexOf(ns, t);
    forall j | 0 <= j < k
      ensures Abs(t - ns[j]) > 0
    {
      assert ns[j] in ns[..k];
    }
  }

  /** One turn of the nearest-entry scan: entry i replaces the best so far
      exactly when it is strictly nearer. */
  lemma ScanNext(ns: seq<int>, t: int, i: int, best: int)
    requires 0 <= best < i < |ns| && IsFirstNearest(ns[..i], t, best)
    ensures Abs(t - ns[i]) < Abs(t - ns[best]) ==> IsFirstNearest(ns[..i + 1], t, i)
    ensures Abs(t - ns[i]) >= Abs(t - ns[best]) ==> IsFirstNearest(ns[..i + 1], t, best)
  {
    var p, q := ns[..i], ns[..i + 1];
    assert forall j :: 0 <= j < i ==> q[j] == p[j];
  }

  /** The scan SetTimestep runs when the number is not listed, as written:
      the running minimum starts from entry 0 but the chosen index stays -1
      unless a later entry is strictly nearer, so when the nearest entry is
      the first one nothing is chosen. */
  method ScanAsWritten(ns: seq<int>, t: int) returns (k: int)
    requires |ns| > 0
    ensures k == -1 <==> IsFirstNearest(ns, t, 0)
    ensures k != -1 ==> IsFirstNearest(ns, t, k)
  {
    k := -1;
    var closestDiff := Abs(t - ns[0]);
    ghost var best := 0;
    for i := 1 to |ns|
      invariant IsFirstNearest(ns[..i], t, best)
      invariant closestDiff == Abs(t - ns[best])
      invariant k == (if best == 0 then -1 else best)
    {
      var diff := Abs(t - ns[i]);
      ScanNext(ns, t, i, best);
      if diff < closestDiff {
        k := i;
        best := i;
        closestDiff := diff;
      }
    }
    assert ns[..|ns|] == ns;
    if k == -1 {
      assert best == 0;
    } else {
      assert Abs(t - ns[best]) < Abs(t - ns[0]);
    }
  }

  /** The choice SetTimestep makes, as written: the exact position if listed,
      otherwise the scan above. */
  method ClosestIndexAsWritten(ns: seq<int>, t: int) returns (k: int)
    ensures |ns| == 0 ==> k == -1
    ensures t in ns ==> k == IndexOf(ns, t)
    ensures |ns| > 0 && t !in ns ==> (k == -1 <==> IsFirstNearest(ns, t, 0))
    ensures k != -1 ==> IsFirstNearest(ns, t, k)
  {
    k := IndexOf(ns, t);
    if k != -1 {
      ExactMatchIsFirstNearest(ns, t);
    } else if |ns| > 0 {
      k := ScanAsWritten(ns, t);
    }
  }

  /** The input that shows the discrepancy: timesteps 4, 18 and 32 and a
      request for 0, whose nearest entry is the first one. */
  method FirstEntryIsNeverNearest() returns (k: int)
    ensures k == -1 && IsFirstNearest([4, 18, 32], 0, 0)
  {
    k := ClosestIndexAsWritten([4, 18, 32], 0);
    assert 0 !in [4, 18, 32];
  }

  /** The scan SetTimestep evidently intends: the running minimum and the
      chosen index both start at entry 0. */
  method Scan(ns: seq<int>, t: int) returns (k: int)
    requires |ns| > 0
    ensures IsFirstNearest(ns, t, k)
  {
    k := 0;
    var closestDiff := Abs(t - ns[0]);
    for i := 1 to |ns|
      invariant IsFirstNearest(ns[..i], t, k)
      invariant closestDiff == Abs(t - ns[k])
    {
      var diff := Abs(t - ns[i]);
      ScanNext(ns, t, i, k);
      if diff < closestDiff {
        k := i;
        closestDiff := diff;
      }
    }
    assert ns[..|ns|] == ns;
  }

  /** The corrected choice: the exact position if listed, otherwise the
      nearest entry, the lowest index winning ties. */
  method ClosestIndex(ns: seq<int>, t: int) returns (k: int)
    ensures |ns| == 0 ==> k == -1
    ensures |ns| > 0 ==> IsFirstNearest(ns, t, k)
    ensures t in ns ==> k == IndexOf(ns, t)
  {
    k := IndexOf(ns, t);
    if k != -1 {
      ExactMatchIsFirstNearest(ns, t);
    } else if |ns| > 0 {
      k := Scan(ns, t);
    }
  }
}
