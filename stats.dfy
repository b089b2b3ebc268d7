/** Descriptive statistics of the benchmark harness over samples modelled as
    reals: sum, mean, minimum, maximum, ascending sort, the nearest-rank
    percentile, the sample standard deviation and JavaScript's Math.round. */
module Stats {

  /** JavaScript's Math.round on exact reals: round half up. */
  function MathRound(x: real): (r: real)
    ensures x - 0.5 < r <= x + 0.5
    ensures r == (r.Floor as real)
  {
    (x + 0.5).Floor as real
  }

  lemma MathRoundMonotone(x: real, y: real)
    requires x <= y
    ensures MathRound(x) <= MathRound(y)
  {
    var fx, fy := (x + 0.5).Floor, (y + 0.5).Floor;
    assert fx as real <= y + 0.5 < (fy + 1) as real;
    assert fx < fy + 1;
  }

  /** `Math.round(x * 100) / 100`, the two-decimal rounding of the metrics. */
  function Round2(x: real): real {
    MathRound(x * 100.0) / 100.0
  }

  lemma Round2Monotone(x: real, y: real)
    requires x <= y
    ensures Round2(x) <= Round2(y)
  {
    MathRoundMonotone(x * 100.0, y * 100.0);
  }

  /** The smallest integer not below x (Math.ceil). */
  function Ceil(x: real): (c: int)
    ensures x <= c as real < x + 1.0
  {
    -((-x).Floor)
  }

  lemma CeilMonotone(x: real, y: real)
    requires x <= y
    ensures Ceil(x) <= Ceil(y)
  {
  }

  /** `arr.reduce((a, b) => a + b, 0)` */
  function Sum(s: seq<real>): real {
    if s == [] then 0.0 else s[0] + Sum(s[1..])
  }

  lemma {:induction false} SumAppend(s: seq<real>, t: seq<real>)
    ensures Sum(s + t) == Sum(s) + Sum(t)
  {
    if s != [] {
      assert (s + t)[0] == s[0];
      assert (s + t)[1..] == s[1..] + t;
      SumAppend(s[1..], t);
    } else {
      assert s + t == t;
    }
  }

  /** The mean, with 0 for an empty sample (benchmark-compare.ts `avg`). */
  function Avg(s: seq<real>): (r: real)
    ensures |s| == 0 ==> r == 0.0
    ensures |s| > 0 ==> r * (|s| as real) == Sum(s)
  {
    if |s| > 0 then Sum(s) / (|s| as real) else 0.0
  }

  /** Math.min(...s); the spread of an empty array is never taken. */
  function Min(s: seq<real>): (m: real)
    requires |s| > 0
    ensures m in s
    ensures forall i :: 0 <= i < |s| ==> m <= s[i]
  {
    if |s| == 1 then s[0]
    else
      var rest := Min(s[1..]);
      assert forall i :: 1 <= i < |s| ==> s[i] == s[1..][i - 1];
      if s[0] <= rest then s[0] else rest
  }

  /** Math.max(...s) */
  function Max(s: seq<real>): (m: real)
    requires |s| > 0
    ensures m in s
    ensures forall i :: 0 <= i < |s| ==> s[i] <= m
  {
    if |s| == 1 then s[0]
    else
      var rest := Max(s[1..]);
      assert forall i :: 1 <= i < |s| ==> s[i] == s[1..][i - 1];
      if s[0] >= rest then s[0] else rest
  }

  lemma {:induction false} SumBounds(s: seq<real>, lo: real, hi: real)
    requires forall i :: 0 <= i < |s| ==> lo <= s[i] <= hi
    ensures (|s| as real) * lo <= Sum(s) <= (|s| as real) * hi
  {
    if s != [] {
      assert forall i :: 0 <= i < |s| - 1 ==> s[1..][i] == s[i + 1];
      SumBounds(s[1..], lo, hi);
      var n := |s[1..]| as real;
      assert Sum(s) == s[0] + Sum(s[1..]);
      assert (|s| as real) * lo == lo + n * lo;
      assert (|s| as real) * hi == hi + n * hi;
    }
  }

  /** The mean of a non-empty sample lies between its minimum and maximum. */
  lemma AvgBetweenMinMax(s: seq<real>)
    requires |s| > 0
    ensures Min(s) <= Avg(s) <= Max(s)
  {
    AvgBounds(s, Min(s), Max(s));
  }

  lemma AvgBounds(s: seq<real>, lo: real, hi: real)
    requires |s| > 0
    requires forall i :: 0 <= i < |s| ==> lo <= s[i] <= hi
    ensures lo <= Avg(s) <= hi
  {
    SumBounds(s, lo, hi);
    MeanBounds(Sum(s), |s| as real, lo, hi);
  }

  lemma MeanBounds(sum: real, n: real, lo: real, hi: real)
    requires n > 0.0
    requires n * lo <= sum <= n * hi
    ensures lo <= sum / n <= hi
  {
    var a := sum / n;
    assert a * n == sum;
  }

  lemma {:induction false} SumConstant(s: seq<real>, c: real)
    requires forall i :: 0 <= i < |s| ==> s[i] == c
    ensures Sum(s) == (|s| as real) * c
  {
    if s != [] {
      assert forall i :: 0 <= i < |s| - 1 ==> s[1..][i] == s[i + 1];
      SumConstant(s[1..], c);
    }
  }

  // ---------------------------------------------------------------------
  // Ascending sort (`[...arr].sort((a, b) => a - b)`)

  ghost predicate SortedAsc(s: seq<real>) {
    forall i, j :: 0 <= i < j < |s| ==> s[i] <= s[j]
  }

  function Insert(x: real, s: seq<real>): (r: seq<real>)
    requires SortedAsc(s)
    ensures SortedAsc(r)
    ensures multiset(r) == multiset(s) + multiset{x}
    ensures |r| == |s| + 1
  {
    if s == [] || x <= s[0] then
      ConsSorted(x, s);
      [x] + s
    else
      var tail := Insert(x, s[1..]);
      assert s == [s[0]] + s[1..];
      LowerBoundKept(s[0], x, s[1..], tail);
      ConsSorted(s[0], tail);
      [s[0]] + tail
  }

  /** Putting an element no larger than the head in front keeps a sequence ascending. */
  lemma ConsSorted(a: real, t: seq<real>)
    requires SortedAsc(t) && (t == [] || a <= t[0])
    ensures SortedAsc([a] + t)
  {
    var r := [a] + t;
    forall i, j | 0 <= i < j < |r| ensures r[i] <= r[j] {
      if i > 0 {
        assert r[i] == t[i - 1] && r[j] == t[j - 1];
      } else {
        assert r[j] == t[j - 1];
        assert t[0] <= t[j - 1];
      }
    }
  }

  /** A bound below `x` and every element of `s` bounds every element of a
      sequence holding exactly those values. */
  lemma LowerBoundKept(lo: real, x: real, s: seq<real>, t: seq<real>)
    requires lo <= x && forall j :: 0 <= j < |s| ==> lo <= s[j]
    requires multiset(t) == multiset(s) + multiset{x}
    ensures forall k :: 0 <= k < |t| ==> lo <= t[k]
  {
    forall k | 0 <= k < |t| ensures lo <= t[k] {
      assert t[k] in multiset(t);
      if t[k] != x {
        assert t[k] in multiset(s);
        var j :| 0 <= j < |s| && s[j] == t[k];
      }
    }
  }

  /** Insertion sort: the result is ascending and a permutation of the input. */
  function Sort(s: seq<real>): (r: seq<real>)
    ensures SortedAsc(r)
    ensures multiset(r) == multiset(s)
    ensures |r| == |s|
  {
    if s == [] then []
    else
      assert s == [s[0]] + s[1..];
      Insert(s[0], Sort(s[1..]))
  }

  lemma SortedHeadIsLeast(r: seq<real>, x: real)
    requires SortedAsc(r)
    requires x in multiset(r)
    ensures r[0] <= x
  {
    var k :| 0 <= k < |r| && r[k] == x;
    if k > 0 {
      assert r[0] <= r[k];
    }
  }

  lemma SortedTail(r: seq<real>)
    requires SortedAsc(r) && r != []
    ensures SortedAsc(r[1..])
  {
    forall a, b | 0 <= a < b < |r| - 1 ensures r[1..][a] <= r[1..][b] {
      assert r[1..][a] == r[a + 1] && r[1..][b] == r[b + 1];
    }
  }

  lemma MultisetOfTail(r: seq<real>)
    requires r != []
    ensures multiset(r[1..]) == multiset(r) - multiset{r[0]}
  {
    assert r == [r[0]] + r[1..];
  }

  lemma SortedHeadsEqual(r: seq<real>, t: seq<real>)
    requires SortedAsc(r) && SortedAsc(t)
    requires multiset(r) == multiset(t)
    requires r != []
    ensures t != [] && r[0] == t[0]
  {
    assert r[0] in multiset(t);
    SortedHeadIsLeast(t, r[0]);
    assert t[0] in multiset(r);
    SortedHeadIsLeast(r, t[0]);
  }

  /** Two ascending sequences with the same elements are equal. */
  lemma {:induction false} SortedUnique(r: seq<real>, t: seq<real>)
    requires SortedAsc(r) && SortedAsc(t)
    requires multiset(r) == multiset(t)
    ensures r == t
  {
    if r == [] {
      assert |t| == |multiset(t)| == 0;
    } else {
      SortedHeadsEqual(r, t);
      MultisetOfTail(r);
      MultisetOfTail(t);
      SortedTail(r);
      SortedTail(t);
      SortedUnique(r[1..], t[1..]);
      assert r == [r[0]] + r[1..];
      assert t == [t[0]] + t[1..];
    }
  }

  lemma SortOfSorted(s: seq<real>)
    requires SortedAsc(s)
    ensures Sort(s) == s
  {
    SortedUnique(Sort(s), s);
  }

  lemma SortLastIsMax(s: seq<real>)
    requires |s| > 0
    ensures Sort(s)[|s| - 1] == Max(s)
  {
    SortedLastIsMax(Sort(s), s);
  }

  /** An ascending arrangement of the values of `s` ends with their maximum. */
  lemma SortedLastIsMax(r: seq<real>, s: seq<real>)
    requires SortedAsc(r) && multiset(r) == multiset(s) && |r| == |s| > 0
    ensures r[|r| - 1] == Max(s)
  {
    var last := r[|r| - 1];
    var m := Max(s);
    assert last <= m by {
      assert last in multiset(r);
      var j :| 0 <= j < |s| && s[j] == last;
    }
    assert m <= last by {
      assert m in multiset(s);
      var k :| 0 <= k < |r| && r[k] == m;
    }
  }

  // ---------------------------------------------------------------------
  // Nearest-rank percentile (benchmark-compare.ts `percentile`, identical to
  // the private `percentile` of FrameMeter and StdoutMeter)

  /** `Math.max(0, Math.ceil((p / 100) * n) - 1)` */
  function NearestRank(p: real, n: nat): (k: int)
    requires 0.0 <= p <= 100.0
    requires n > 0
    ensures 0 <= k < n
  {
    var c := Ceil(p / 100.0 * (n as real));
    assert p / 100.0 * (n as real) <= n as real;
    if c - 1 < 0 then 0 else c - 1
  }

  lemma NearestRankMonotone(p: real, q: real, n: nat)
    requires 0.0 <= p <= q <= 100.0
    requires n > 0
    ensures NearestRank(p, n) <= NearestRank(q, n)
  {
    assert p / 100.0 * (n as real) <= q / 100.0 * (n as real);
    CeilMonotone(p / 100.0 * (n as real), q / 100.0 * (n as real));
  }

  /** 0 for an empty sample, otherwise the element of nearest rank `p`. */
  function Percentile(arr: seq<real>, p: real): (r: real)
    requires 0.0 <= p <= 100.0
    ensures |arr| == 0 ==> r == 0.0
  {
    if |arr| == 0 then 0.0 else Sort(arr)[NearestRank(p, |arr|)]
  }

  /** A non-empty sample's percentile is one of its elements. */
  lemma PercentileIsElement(arr: seq<real>, p: real)
    requires 0.0 <= p <= 100.0
    requires |arr| > 0
    ensures Percentile(arr, p) in arr
  {
    var r := Sort(arr);
    var k := NearestRank(p, |arr|);
    assert r[k] in multiset(r);
  }

  /** The 100th percentile is the maximum. */
  lemma PercentileHundredIsMax(arr: seq<real>)
    requires |arr| > 0
    ensures Percentile(arr, 100.0) == Max(arr)
  {
    assert NearestRank(100.0, |arr|) == |arr| - 1;
    SortLastIsMax(arr);
  }

  /** A higher rank never gives a smaller value. */
  lemma PercentileMonotone(arr: seq<real>, p: real, q: real)
    requires 0.0 <= p <= q <= 100.0
    ensures Percentile(arr, p) <= Percentile(arr, q)
  {
    if |arr| > 0 {
      NearestRankMonotone(p, q, |arr|);
    }
  }

  /** Every percentile lies between the minimum and the maximum. */
  lemma PercentileBetweenMinMax(arr: seq<real>, p: real)
    requires 0.0 <= p <= 100.0
    requires |arr| > 0
    ensures Min(arr) <= Percentile(arr, p) <= Max(arr)
  {
    PercentileIsElement(arr, p);
  }

  /** The percentile depends only on the values, not on their order. */
  lemma PercentileOfPermutation(s: seq<real>, t: seq<real>, p: real)
    requires 0.0 <= p <= 100.0
    requires multiset(s) == multiset(t)
    ensures Percentile(s, p) == Percentile(t, p)
  {
    assert |s| == |multiset(s)| == |t|;
    SortedUnique(Sort(s), Sort(t));
  }

  /** With fewer than 20 samples the 95th nearest-rank percentile is the maximum. */
  lemma P95OfFewSamplesIsMax(arr: seq<real>)
    requires 0 < |arr| < 20
    ensures Percentile(arr, 95.0) == Max(arr)
  {
    RankOf95(|arr|);
    SortLastIsMax(arr);
  }

  lemma RankOf95(n: nat)
    requires 0 < n < 20
    ensures NearestRank(95.0, n) == n - 1
  {
    var x := 95.0 / 100.0 * (n as real);
    assert x == 0.95 * (n as real);
    assert (n - 1) as real < x <= n as real;
    assert Ceil(x) == n;
  }

  /** percentile([1, ..., 10], 95) == 10 */
  lemma P95OfOneToTen(s: seq<real>)
    requires |s| == 10
    requires forall i :: 0 <= i < 10 ==> s[i] == (i + 1) as real
    ensures Percentile(s, 95.0) == 10.0
  {
    P95OfFewSamplesIsMax(s);
    var m := Max(s);
    assert s[9] <= m;
    var k :| 0 <= k < 10 && s[k] == m;
  }

  // ---------------------------------------------------------------------
  // Sample standard deviation

  /** The square root the harness calls: non-negative, and zero exactly at zero. */
  ghost predicate IsSqrt(sqrt: real -> real) {
    forall x :: 0.0 <= x ==> 0.0 <= sqrt(x) && (sqrt(x) == 0.0 <==> x == 0.0)
  }

  lemma SquareNonNegative(d: real)
    ensures d * d >= 0.0
  {
    if d < 0.0 {
      assert d * d == (-d) * (-d);
    }
  }

  /** Σ (x - mean)² */
  function SquaredDeviations(s: seq<real>, mean: real): (r: real)
    ensures r >= 0.0
  {
    if s == [] then 0.0
    else
      SquareNonNegative(s[0] - mean);
      (s[0] - mean) * (s[0] - mean) + SquaredDeviations(s[1..], mean)
  }

  /** The n − 1 standard deviation, 0 for fewer than two samples. */
  function StdDev(s: seq<real>, sqrt: real -> real): (r: real)
    ensures |s| < 2 ==> r == 0.0
  {
    if |s| < 2 then 0.0
    else sqrt(SquaredDeviations(s, Avg(s)) / ((|s| - 1) as real))
  }

  lemma StdDevNonNegative(s: seq<real>, sqrt: real -> real)
    requires IsSqrt(sqrt)
    ensures StdDev(s, sqrt) >= 0.0
  {
  }

  lemma {:induction false} SquaredDeviationsOfConstant(s: seq<real>, c: real)
    requires forall i :: 0 <= i < |s| ==> s[i] == c
    ensures SquaredDeviations(s, c) == 0.0
  {
    if s != [] {
      assert forall i :: 0 <= i < |s| - 1 ==> s[1..][i] == s[i + 1];
      SquaredDeviationsOfConstant(s[1..], c);
    }
  }

  /** A sample whose values are all equal has zero spread. */
  lemma StdDevOfConstant(s: seq<real>, c: real, sqrt: real -> real)
    requires IsSqrt(sqrt)
    requires forall i :: 0 <= i < |s| ==> s[i] == c
    ensures StdDev(s, sqrt) == 0.0
    ensures |s| > 0 ==> Avg(s) == c
  {
    SumConstant(s, c);
    if |s| > 0 {
      assert Avg(s) == c;
      SquaredDeviationsOfConstant(s, c);
    }
  }
}
