/** The comparison harness (benchmark/benchmark-compare.ts): the interval and
    significance statistics over run totals, the aggregation of a renderer's
    runs, the extraction of a run's result line, and the warmup-then-measure
    loop. The t-distribution CDF and the square root are parameters. */
module BenchmarkCompare {
  import opened Wrappers
  import opened Stats

  const Iterations: nat := 10
  const WarmupRuns: nat := 2

  // ---------------------------------------------------------------------
  // tCritical95: bisection for the 0.975 quantile of the t-distribution

  const TargetQuantile: real := 0.975
  const BisectionSteps: nat := 100

  function Pow2(n: nat): (r: real)
    ensures r >= 1.0
  {
    if n == 0 then 1.0 else 2.0 * Pow2(n - 1)
  }

  /** `w` halved `n` times. */
  function Halve(w: real, n: nat): real
    decreases n
  {
    if n == 0 then w else Halve(w / 2.0, n - 1)
  }

  /** Halving n times divides by 2^n. */
  lemma {:induction false} HalveIsDivision(w: real, n: nat)
    decreases n
    ensures Halve(w, n) * Pow2(n) == w
  {
    if n > 0 {
      HalveIsDivision(w / 2.0, n - 1);
      var h, p := Halve(w / 2.0, n - 1), Pow2(n - 1);
      assert Halve(w, n) == h && Pow2(n) == 2.0 * p;
      assert h * p == w / 2.0;
      calc {
        h * (2.0 * p);
        2.0 * (h * p);
        2.0 * (w / 2.0);
        w;
      }
    }
  }

  /** The bracket `[lo, hi]` after `steps` more halvings. */
  function Bracket(cdf: (real, real) -> real, df: real, lo: real, hi: real, steps: nat): (real, real)
    decreases steps
  {
    if steps == 0 then (lo, hi)
    else
      var mid := (lo + hi) / 2.0;
      if cdf(mid, df) < TargetQuantile then Bracket(cdf, df, mid, hi, steps - 1)
      else Bracket(cdf, df, lo, mid, steps - 1)
  }

  /** The bracket only shrinks, halves its width at every step, and each end
      either never moved or sits where the CDF is on its side of 0.975. */
  lemma {:induction false} BracketProperties(cdf: (real, real) -> real, df: real, lo: real, hi: real, steps: nat)
    requires lo <= hi
    decreases steps
    ensures var (l, h) := Bracket(cdf, df, lo, hi, steps);
      lo <= l <= h <= hi &&
      h - l == Halve(hi - lo, steps) &&
      (l == lo || cdf(l, df) < TargetQuantile) &&
      (h == hi || cdf(h, df) >= TargetQuantile)
  {
    if steps > 0 {
      var mid := (lo + hi) / 2.0;
      if cdf(mid, df) < TargetQuantile {
        BracketProperties(cdf, df, mid, hi, steps - 1);
        assert hi - mid == (hi - lo) / 2.0;
      } else {
        BracketProperties(cdf, df, lo, mid, steps - 1);
        assert mid - lo == (hi - lo) / 2.0;
      }
    }
  }

  /** The value `tCritical95(df)` returns: the midpoint of the final bracket. */
  function TCritical(cdf: (real, real) -> real, df: real): (t: real)
    ensures 0.0 <= t <= 20.0
  {
    var (l, h) := Bracket(cdf, df, 0.0, 20.0, BisectionSteps);
    BracketProperties(cdf, df, 0.0, 20.0, BisectionSteps);
    (l + h) / 2.0
  }

  /** The critical value is the midpoint of a bracket of width 20 / 2^100
      whose ends, where they moved, lie on either side of the 0.975 level. */
  lemma TCriticalBracketed(cdf: (real, real) -> real, df: real)
    ensures var (l, h) := Bracket(cdf, df, 0.0, 20.0, BisectionSteps);
      && TCritical(cdf, df) == (l + h) / 2.0
      && (h - l) * Pow2(BisectionSteps) == 20.0
      && (l == 0.0 || cdf(l, df) < TargetQuantile)
      && (h == 20.0 || cdf(h, df) >= TargetQuantile)
  {
    BracketProperties(cdf, df, 0.0, 20.0, BisectionSteps);
    HalveIsDivision(20.0, BisectionSteps);
  }

  /** The source's loop: a hundred halvings of [0, 20], each keeping the
      half whose ends straddle the 0.975 level, then the midpoint. What the
      bracket satisfies is `TCriticalBracketed`. */
  method TCritical95(cdf: (real, real) -> real, df: real) returns (t: real)
    ensures t == TCritical(cdf, df)
    ensures 0.0 <= t <= 20.0
  {
    var lo, hi := 0.0, 20.0;
    ghost var final := Bracket(cdf, df, lo, hi, BisectionSteps);
    for i := 0 to BisectionSteps
      invariant Bracket(cdf, df, lo, hi, BisectionSteps - i) == final
    {
      var mid := (lo + hi) / 2.0;
      if cdf(mid, df) < TargetQuantile {
        lo := mid;
      } else {
        hi := mid;
      }
    }
    t := (lo + hi) / 2.0;
  }

  // ---------------------------------------------------------------------
  // confidenceInterval95

  function ConfidenceInterval95(arr: seq<real>, sqrt: real -> real, cdf: (real, real) -> real): (ci: (real, real))
    requires IsSqrt(sqrt)
    ensures |arr| < 2 ==> ci == (Avg(arr), Avg(arr))
  {
    if |arr| < 2 then (Avg(arr), Avg(arr))
    else
      var mean := Avg(arr);
      var se := StdDev(arr, sqrt) / sqrt(|arr| as real);
      var t := TCritical(cdf, (|arr| - 1) as real);
      (mean - t * se, mean + t * se)
  }

  lemma ProductNonNegative(x: real, y: real)
    requires x >= 0.0 && y >= 0.0
    ensures x * y >= 0.0
  {
  }

  /** The interval is centred on the mean and contains it. */
  lemma ConfidenceIntervalAroundMean(arr: seq<real>, sqrt: real -> real, cdf: (real, real) -> real)
    requires IsSqrt(sqrt)
    ensures var (lo, hi) := ConfidenceInterval95(arr, sqrt, cdf);
      lo <= Avg(arr) <= hi && (lo + hi) / 2.0 == Avg(arr)
  {
    if |arr| >= 2 {
      var n := |arr| as real;
      var se := StdDev(arr, sqrt) / sqrt(n);
      assert se >= 0.0;
      ProductNonNegative(TCritical(cdf, n - 1.0), se);
    }
  }

  // ---------------------------------------------------------------------
  // cohensD

  /** Cohen's 1988 effect-size labels. */
  datatype Magnitude = Negligible | Small | Medium | Large {
    function Label(): string {
      match this
      case Negligible => "negligible"
      case Small => "small"
      case Medium => "medium"
      case Large => "large"
    }
  }

  datatype EffectSize = EffectSize(d: real, interpretation: Magnitude)

  /** The thresholds 0.2, 0.5 and 0.8, tested in that order. */
  function Classify(d: real): (m: Magnitude)
    ensures m == Negligible <==> d < 0.2
    ensures m == Small <==> 0.2 <= d < 0.5
    ensures m == Medium <==> 0.5 <= d < 0.8
    ensures m == Large <==> 0.8 <= d
  {
    if d < 0.2 then Negligible
    else if d < 0.5 then Small
    else if d < 0.8 then Medium
    else Large
  }

  /** `((n1 - 1) s1² + (n2 - 1) s2²) / (n1 + n2 - 2)` */
  function PooledVariance(a: seq<real>, b: seq<real>, sqrt: real -> real): real
    requires |a| + |b| > 2
  {
    var s1, s2 := StdDev(a, sqrt), StdDev(b, sqrt);
    ((|a| - 1) as real * s1 * s1 + (|b| - 1) as real * s2 * s2) / ((|a| + |b| - 2) as real)
  }

  lemma PooledVarianceNonNegative(a: seq<real>, b: seq<real>, sqrt: real -> real)
    requires |a| + |b| > 2
    requires IsSqrt(sqrt)
    ensures PooledVariance(a, b, sqrt) >= 0.0
  {
    var s1, s2 := StdDev(a, sqrt), StdDev(b, sqrt);
    SquareTimesCount(|a|, s1);
    SquareTimesCount(|b|, s2);
  }

  lemma SquareTimesCount(n: nat, s: real)
    requires n == 0 ==> s == 0.0
    ensures (n - 1) as real * s * s >= 0.0
  {
    SquareNonNegative(s);
    if n > 0 {
      ProductNonNegative((n - 1) as real, s * s);
      assert (n - 1) as real * s * s == (n - 1) as real * (s * s);
    }
  }

  function PooledStdDev(a: seq<real>, b: seq<real>, sqrt: real -> real): real
    requires |a| + |b| > 2
  {
    sqrt(PooledVariance(a, b, sqrt))
  }

  function Abs(x: real): (r: real)
    ensures r >= 0.0 && (r == x || r == -x)
  {
    if x < 0.0 then -x else x
  }

  /** `cohensD`. Both samples together must hold more than two values, so that
      the pooled variance has a non-zero denominator. */
  function CohensD(a: seq<real>, b: seq<real>, sqrt: real -> real): (e: EffectSize)
    requires |a| + |b| > 2
    ensures PooledStdDev(a, b, sqrt) == 0.0 ==> e == EffectSize(0.0, Negligible)
  {
    var pooled := PooledStdDev(a, b, sqrt);
    if pooled == 0.0 then EffectSize(0.0, Negligible)
    else
      var d := Abs(Avg(a) - Avg(b)) / pooled;
      EffectSize(Round2(d), Classify(d))
  }

  /** The reported (rounded) d lies in the band of its label; the rounding can
      only bring it onto the band's upper edge. */
  lemma CohensDMatchesLabel(a: seq<real>, b: seq<real>, sqrt: real -> real)
    requires |a| + |b| > 2
    requires IsSqrt(sqrt)
    ensures var e := CohensD(a, b, sqrt);
      e.d >= 0.0 &&
      (e.interpretation == Negligible ==> e.d <= 0.2) &&
      (e.interpretation == Small ==> 0.2 <= e.d <= 0.5) &&
      (e.interpretation == Medium ==> 0.5 <= e.d <= 0.8) &&
      (e.interpretation == Large ==> 0.8 <= e.d)
  {
    var pooled := PooledStdDev(a, b, sqrt);
    if pooled != 0.0 {
      PooledVarianceNonNegative(a, b, sqrt);
      assert pooled > 0.0;
      var d := Abs(Avg(a) - Avg(b)) / pooled;
      assert d >= 0.0;
      Round2Monotone(0.0, d);
      assert Round2(0.0) == 0.0;
      assert Round2(0.2) == 0.2 && Round2(0.5) == 0.5 && Round2(0.8) == 0.8;
      if d < 0.2 {
        Round2Monotone(d, 0.2);
      } else if d < 0.5 {
        Round2Monotone(0.2, d);
        Round2Monotone(d, 0.5);
      } else if d < 0.8 {
        Round2Monotone(0.5, d);
        Round2Monotone(d, 0.8);
      } else {
        Round2Monotone(0.8, d);
      }
    }
  }

  /** The effect size does not depend on which sample comes first. */
  lemma CohensDSymmetric(a: seq<real>, b: seq<real>, sqrt: real -> real)
    requires |a| + |b| > 2
    ensures CohensD(a, b, sqrt) == CohensD(b, a, sqrt)
  {
    assert PooledVariance(a, b, sqrt) == PooledVariance(b, a, sqrt);
    assert Abs(Avg(a) - Avg(b)) == Abs(Avg(b) - Avg(a));
  }

  // ---------------------------------------------------------------------
  // welchTTest

  datatype TTest = TTest(t: real, p: real, significant: bool, effectSize: EffectSize)

  /** `v1 / n1 + v2 / n2`, with `v = stdDev²`. */
  function SquaredStandardError(a: seq<real>, b: seq<real>, sqrt: real -> real): real
    requires |a| >= 2 && |b| >= 2
  {
    var s1, s2 := StdDev(a, sqrt), StdDev(b, sqrt);
    s1 * s1 / (|a| as real) + s2 * s2 / (|b| as real)
  }

  /** Welch–Satterthwaite degrees of freedom. */
  function WelchDf(a: seq<real>, b: seq<real>, sqrt: real -> real): real
    requires |a| >= 2 && |b| >= 2
  {
    var s1, s2 := StdDev(a, sqrt), StdDev(b, sqrt);
    var q1, q2 := s1 * s1 / (|a| as real), s2 * s2 / (|b| as real);
    var den := q1 * q1 / ((|a| - 1) as real) + q2 * q2 / ((|b| - 1) as real);
    if den == 0.0 then 0.0 else (q1 + q2) * (q1 + q2) / den
  }

  /** The two-sided p-value `2 (1 - cdf(|t|, df))`. */
  function PValue(t: real, df: real, cdf: (real, real) -> real): real {
    2.0 * (1.0 - cdf(Abs(t), df))
  }

  /** `welchTTest`, which the report only calls with at least two runs on each side. */
  function WelchTTest(a: seq<real>, b: seq<real>, sqrt: real -> real, cdf: (real, real) -> real): (r: TTest)
    requires |a| >= 2 && |b| >= 2
    ensures r.effectSize == CohensD(a, b, sqrt)
    ensures sqrt(SquaredStandardError(a, b, sqrt)) == 0.0 ==> r.t == 0.0 && r.p == 1.0 && !r.significant
    ensures r.significant <==> r.p < 0.05
  {
    var se := sqrt(SquaredStandardError(a, b, sqrt));
    var effect := CohensD(a, b, sqrt);
    if se == 0.0 then TTest(0.0, 1.0, false, effect)
    else
      var t := (Avg(a) - Avg(b)) / se;
      var p := PValue(t, WelchDf(a, b, sqrt), cdf);
      TTest(t, p, p < 0.05, effect)
  }

  lemma WelchTermsSymmetric(a: seq<real>, b: seq<real>, sqrt: real -> real)
    requires |a| >= 2 && |b| >= 2
    ensures SquaredStandardError(a, b, sqrt) == SquaredStandardError(b, a, sqrt)
    ensures WelchDf(a, b, sqrt) == WelchDf(b, a, sqrt)
  {
  }

  lemma NegatedQuotient(x: real, y: real)
    requires y != 0.0
    ensures (-x) / y == -(x / y) && Abs((-x) / y) == Abs(x / y)
  {
  }

  /** Swapping the samples negates t and changes nothing else. */
  lemma WelchTTestSwap(a: seq<real>, b: seq<real>, sqrt: real -> real, cdf: (real, real) -> real)
    requires |a| >= 2 && |b| >= 2
    ensures var (r, s) := (WelchTTest(a, b, sqrt, cdf), WelchTTest(b, a, sqrt, cdf));
      s.t == -r.t && s.p == r.p && s.significant == r.significant && s.effectSize == r.effectSize
  {
    WelchTermsSymmetric(a, b, sqrt);
    CohensDSymmetric(a, b, sqrt);
    var se := sqrt(SquaredStandardError(a, b, sqrt));
    if se != 0.0 {
      var diff := Avg(a) - Avg(b);
      NegatedQuotient(diff, se);
      assert Avg(b) - Avg(a) == -diff;
      var df := WelchDf(a, b, sqrt);
      assert PValue((-diff) / se, df, cdf) == PValue(diff / se, df, cdf);
    }
  }

  /** Two samples without spread give the degenerate "no difference" verdict. */
  lemma WelchTTestOfConstantSamples(a: seq<real>, b: seq<real>, x: real, y: real,
                                    sqrt: real -> real, cdf: (real, real) -> real)
    requires |a| >= 2 && |b| >= 2
    requires IsSqrt(sqrt)
    requires forall i :: 0 <= i < |a| ==> a[i] == x
    requires forall i :: 0 <= i < |b| ==> b[i] == y
    ensures var r := WelchTTest(a, b, sqrt, cdf); r.t == 0.0 && r.p == 1.0 && !r.significant
  {
    StdDevOfConstant(a, x, sqrt);
    StdDevOfConstant(b, y, sqrt);
    assert SquaredStandardError(a, b, sqrt) == 0.0;
  }

  // ---------------------------------------------------------------------
  // The per-run result and its aggregation

  /** The fields of a run's `BenchmarkResult` that aggregation reads. */
  datatype FrameSummary = FrameSummary(avgFrameTimeMs: real, throughputFps: real, droppedFrames: real, rawFrameTimes: seq<real>)
  datatype MemorySummary = MemorySummary(peakHeapUsedMB: real, peakRssMB: real)
  datatype StdoutSummary = StdoutSummary(totalWrites: real, totalBytes: real)
  datatype BenchmarkResult = BenchmarkResult(
    renderer: string,
    totalLines: real,
    totalTimeMs: real,
    frame: FrameSummary,
    memory: MemorySummary,
    stdout: StdoutSummary)

  datatype AggregatedResult = AggregatedResult(
    renderer: string,
    totalLines: real,
    runs: nat,
    avgTimeMs: real,
    stdDevTimeMs: real,
    minTimeMs: real,
    maxTimeMs: real,
    ci95TimeMs: (real, real),
    avgFrameTimeMs: real,
    stdDevFrameTimeMs: real,
    p95FrameTimeMs: real,
    p99FrameTimeMs: real,
    avgFps: real,
    target60FpsAchieved: bool,
    droppedFrames: real,
    avgPeakHeapMB: real,
    stdDevPeakHeapMB: real,
    avgPeakRssMB: real,
    stdDevPeakRssMB: real,
    avgWrites: real,
    avgBytes: real)

  /** The 60 fps frame budget, in milliseconds. */
  const FrameBudgetMs: real := 16.67

  /** `results.flatMap((r) => r.frame.rawFrameTimes)` */
  function AllRawFrameTimes(results: seq<BenchmarkResult>): seq<real> {
    if results == [] then [] else results[0].frame.rawFrameTimes + AllRawFrameTimes(results[1..])
  }

  lemma {:induction false} AllRawFrameTimesAppend(x: seq<BenchmarkResult>, y: seq<BenchmarkResult>)
    ensures AllRawFrameTimes(x + y) == AllRawFrameTimes(x) + AllRawFrameTimes(y)
  {
    if x != [] {
      assert (x + y)[0] == x[0] && (x + y)[1..] == x[1..] + y;
      AllRawFrameTimesAppend(x[1..], y);
    } else {
      assert x + y == y;
    }
  }

  /** Each run's frame times appear in the combined list. */
  lemma {:induction false} AllRawFrameTimesContains(results: seq<BenchmarkResult>, i: nat, k: nat)
    requires i < |results| && k < |results[i].frame.rawFrameTimes|
    ensures results[i].frame.rawFrameTimes[k] in AllRawFrameTimes(results)
  {
    if i > 0 {
      AllRawFrameTimesContains(results[1..], i - 1, k);
    }
  }

  function Times(results: seq<BenchmarkResult>): (r: seq<real>)
    ensures |r| == |results| && forall i :: 0 <= i < |r| ==> r[i] == results[i].totalTimeMs
  {
    seq(|results|, i requires 0 <= i < |results| => results[i].totalTimeMs)
  }

  function Project(results: seq<BenchmarkResult>, f: BenchmarkResult -> real): (r: seq<real>)
    ensures |r| == |results| && forall i :: 0 <= i < |r| ==> r[i] == f(results[i])
  {
    seq(|results|, i requires 0 <= i < |results| => f(results[i]))
  }

  /** `Math.round(x * 10) / 10` */
  function Round1(x: real): real {
    MathRound(x * 10.0) / 10.0
  }

  /** `aggregateResults`: null for no runs, otherwise the summary of the runs. */
  function AggregateResults(results: seq<BenchmarkResult>, sqrt: real -> real, cdf: (real, real) -> real): (r: Option<AggregatedResult>)
    requires IsSqrt(sqrt)
    ensures r.None? <==> results == []
    ensures r.Some? ==>
      r.value.runs == |results| &&
      r.value.renderer == results[0].renderer && r.value.totalLines == results[0].totalLines &&
      r.value.p95FrameTimeMs == Round2(Percentile(AllRawFrameTimes(results), 95.0)) &&
      r.value.p99FrameTimeMs == Round2(Percentile(AllRawFrameTimes(results), 99.0)) &&
      (r.value.target60FpsAchieved <==> r.value.p99FrameTimeMs <= FrameBudgetMs)
  {
    if |results| == 0 then None
    else
      var times := Times(results);
      var frameTimes := Project(results, (x: BenchmarkResult) => x.frame.avgFrameTimeMs);
      var fps := Project(results, (x: BenchmarkResult) => x.frame.throughputFps);
      var dropped := Project(results, (x: BenchmarkResult) => x.frame.droppedFrames);
      var heaps := Project(results, (x: BenchmarkResult) => x.memory.peakHeapUsedMB);
      var rssList := Project(results, (x: BenchmarkResult) => x.memory.peakRssMB);
      var writes := Project(results, (x: BenchmarkResult) => x.stdout.totalWrites);
      var bytes := Project(results, (x: BenchmarkResult) => x.stdout.totalBytes);
      var all := AllRawFrameTimes(results);
      var combinedP95 := Round2(Percentile(all, 95.0));
      var combinedP99 := Round2(Percentile(all, 99.0));
      var ci := ConfidenceInterval95(times, sqrt, cdf);
      Some(AggregatedResult(
        results[0].renderer,
        results[0].totalLines,
        |results|,
        MathRound(Avg(times)),
        MathRound(StdDev(times, sqrt)),
        Min(times),
        Max(times),
        (MathRound(ci.0), MathRound(ci.1)),
        Round2(Avg(frameTimes)),
        Round2(StdDev(frameTimes, sqrt)),
        combinedP95,
        combinedP99,
        MathRound(Avg(fps)),
        combinedP99 <= FrameBudgetMs,
        MathRound(Avg(dropped)),
        Round1(Avg(heaps)),
        Round1(StdDev(heaps, sqrt)),
        Round1(Avg(rssList)),
        Round1(StdDev(rssList, sqrt)),
        MathRound(Avg(writes)),
        MathRound(Avg(bytes))))
  }

  /** The summary's orderings: min ≤ max, p95 ≤ p99, and a well-formed interval. */
  lemma AggregateOrdered(results: seq<BenchmarkResult>, sqrt: real -> real, cdf: (real, real) -> real)
    requires results != []
    requires IsSqrt(sqrt)
    ensures var a := AggregateResults(results, sqrt, cdf).value;
      a.minTimeMs <= a.maxTimeMs && a.p95FrameTimeMs <= a.p99FrameTimeMs && a.ci95TimeMs.0 <= a.ci95TimeMs.1
  {
    var times := Times(results);
    PercentileMonotone(AllRawFrameTimes(results), 95.0, 99.0);
    Round2Monotone(Percentile(AllRawFrameTimes(results), 95.0), Percentile(AllRawFrameTimes(results), 99.0));
    ConfidenceIntervalAroundMean(times, sqrt, cdf);
    var ci := ConfidenceInterval95(times, sqrt, cdf);
    MathRoundMonotone(ci.0, ci.1);
  }

  /** The combined percentiles do not depend on the order of the runs. */
  lemma CombinedPercentilesIgnoreRunOrder(x: seq<BenchmarkResult>, y: seq<BenchmarkResult>,
                                          sqrt: real -> real, cdf: (real, real) -> real)
    requires x + y != []
    requires IsSqrt(sqrt)
    ensures var (a, b) := (AggregateResults(x + y, sqrt, cdf).value, AggregateResults(y + x, sqrt, cdf).value);
      a.p95FrameTimeMs == b.p95FrameTimeMs && a.p99FrameTimeMs == b.p99FrameTimeMs &&
      a.target60FpsAchieved == b.target60FpsAchieved
  {
    AllRawFrameTimesAppend(x, y);
    AllRawFrameTimesAppend(y, x);
    var u, v := AllRawFrameTimes(x), AllRawFrameTimes(y);
    assert multiset(u + v) == multiset(v + u);
    PercentileOfPermutation(u + v, v + u, 95.0);
    PercentileOfPermutation(u + v, v + u, 99.0);
  }

  /** Runs whose every frame met the 60 fps budget achieve the target, and runs
      whose every frame took at least 16.68 ms do not. */
  lemma TargetFromFrameBudget(results: seq<BenchmarkResult>, sqrt: real -> real, cdf: (real, real) -> real)
    requires results != []
    requires IsSqrt(sqrt)
    requires AllRawFrameTimes(results) != []
    ensures (forall x :: x in AllRawFrameTimes(results) ==> x <= FrameBudgetMs) ==>
      AggregateResults(results, sqrt, cdf).value.target60FpsAchieved
    ensures (forall x :: x in AllRawFrameTimes(results) ==> x >= 16.68) ==>
      !AggregateResults(results, sqrt, cdf).value.target60FpsAchieved
  {
    var all := AllRawFrameTimes(results);
    var p99 := Percentile(all, 99.0);
    PercentileIsElement(all, 99.0);
    assert Round2(FrameBudgetMs) == FrameBudgetMs;
    assert Round2(16.68) == 16.68;
    if p99 <= FrameBudgetMs {
      Round2Monotone(p99, FrameBudgetMs);
    }
    if p99 >= 16.68 {
      Round2Monotone(16.68, p99);
    }
  }

  // ---------------------------------------------------------------------
  // Extracting the `BENCHMARK_RESULT:` line of a run's stdout

  const Marker: string := "BENCHMARK_RESULT:"

  /** The characters that end a line for the `.` of a JavaScript regular expression. */
  predicate IsLineTerminator(c: char) {
    c == '\n' || c == '\r' || c == '\U{2028}' || c == '\U{2029}'
  }

  /** The index of the first line terminator at or after `from`, or `|s|`. */
  function LineEnd(s: string, from: nat): (e: nat)
    requires from <= |s|
    ensures from <= e <= |s|
    ensures forall k :: from <= k < e ==> !IsLineTerminator(s[k])
    ensures e < |s| ==> IsLineTerminator(s[e])
    decreases |s| - from
  {
    if from == |s| || IsLineTerminator(s[from]) then from else LineEnd(s, from + 1)
  }

  /** The last index in `[from, limit)` holding `}`. */
  function LastBrace(s: string, from: nat, limit: nat): (k: Option<nat>)
    requires from <= limit <= |s|
    ensures k.Some? ==> from <= k.value < limit && s[k.value] == '}'
    ensures k.Some? ==> (forall j :: k.value < j < limit ==> s[j] != '}')
    ensures k.None? ==> (forall j :: from <= j < limit ==> s[j] != '}')
    decreases limit
  {
    if from == limit then None
    else if s[limit - 1] == '}' then Some(limit - 1)
    else LastBrace(s, from, limit - 1)
  }

  /** The capture `({.*})` of a match starting at `i`, if one starts there:
      the marker, a `{`, then the longest stretch of the line up to a `}`. */
  function MatchAt(s: string, i: nat): (m: Option<string>)
    requires i <= |s|
  {
    var open := i + |Marker|;
    if open < |s| && s[i..open] == Marker && s[open] == '{' then
      match LastBrace(s, open + 1, LineEnd(s, open + 1))
      case Some(k) => Some(s[open..k + 1])
      case None => None
    else None
  }

  /** `stdout.match(/BENCHMARK_RESULT:({.*})/)?.[1]`: the leftmost match. */
  function ExtractPayload(s: string, from: nat := 0): (m: Option<string>)
    requires from <= |s|
    decreases |s| - from
  {
    match MatchAt(s, from)
    case Some(p) => Some(p)
    case None => if from == |s| then None else ExtractPayload(s, from + 1)
  }

  /** `t` occurs in `s` at index `i`. */
  predicate OccursAt(s: string, i: nat, t: string) {
    i + |t| <= |s| && s[i..i + |t|] == t
  }

  /** A capture starting at `i` is a brace-delimited stretch of one line right
      after the marker. */
  lemma MatchAtSound(s: string, i: nat)
    requires i <= |s|
    ensures var m := MatchAt(s, i);
      m.Some? ==>
        |m.value| >= 2 && m.value[0] == '{' && m.value[|m.value| - 1] == '}' &&
        (forall k :: 0 <= k < |m.value| ==> !IsLineTerminator(m.value[k])) &&
        OccursAt(s, i, Marker + m.value)
  {
    if MatchAt(s, i).Some? {
      var open := i + |Marker|;
      var e := LineEnd(s, open + 1);
      var k := LastBrace(s, open + 1, e).value;
      var p := s[open..k + 1];
      assert MatchAt(s, i) == Some(p);
      assert forall j :: 0 <= j < |p| ==> p[j] == s[open + j];
      assert s[i..i + |Marker| + |p|] == s[i..open] + s[open..k + 1];
    }
  }

  /** What the regular expression captures is a brace-delimited stretch of a
      single line that directly follows the marker in the output. */
  lemma {:induction false} ExtractPayloadSound(s: string, from: nat)
    requires from <= |s|
    ensures var m := ExtractPayload(s, from);
      m.Some? ==>
        |m.value| >= 2 && m.value[0] == '{' && m.value[|m.value| - 1] == '}' &&
        (forall k :: 0 <= k < |m.value| ==> !IsLineTerminator(m.value[k])) &&
        exists i :: from <= i && OccursAt(s, i, Marker + m.value)
    decreases |s| - from
  {
    MatchAtSound(s, from);
    if MatchAt(s, from).None? && from < |s| {
      ExtractPayloadSound(s, from + 1);
    }
  }

  /** No match starts inside a prefix that ends a line and holds no `{`. */
  lemma {:induction false} NoMatchBefore(s: string, prefix: string, from: nat)
    requires |prefix| <= |s| && s[..|prefix|] == prefix
    requires prefix == [] || prefix[|prefix| - 1] == '\n'
    requires forall k :: 0 <= k < |prefix| ==> prefix[k] != '{'
    requires from <= |prefix|
    ensures ExtractPayload(s, from) == ExtractPayload(s, |prefix|)
    decreases |prefix| - from
  {
    if from < |prefix| {
      var open := from + |Marker|;
      if open < |s| {
        if open < |prefix| {
          assert s[open] == prefix[open];
        } else {
          var last := |prefix| - 1;
          assert s[last] == '\n';
          assert s[from..open][last - from] == s[last];
        }
      }
      assert MatchAt(s, from) == None;
      NoMatchBefore(s, prefix, from + 1);
    }
  }

  /** The capture at the start of a result line. */
  lemma MatchAtResultLine(s: string, start: nat, body: string)
    requires OccursAt(s, start, Marker + "{" + body + "}")
    requires forall k :: 0 <= k < |body| ==> !IsLineTerminator(body[k])
    requires start + |Marker| + |body| + 2 < |s| ==> IsLineTerminator(s[start + |Marker| + |body| + 2])
    ensures MatchAt(s, start) == Some("{" + body + "}")
  {
    var open := start + |Marker|;
    var close := open + |body| + 1;
    ResultLineParts(s, start, body);
    forall k | open + 1 <= k < close ensures !IsLineTerminator(s[k]) {
      assert s[k] == body[k - open - 1];
    }
    LineEndAt(s, open + 1, close + 1);
    assert LastBrace(s, open + 1, close + 1) == Some(close);
  }

  /** Where the marker, the braces and the body of an occurrence sit. */
  lemma ResultLineParts(s: string, start: nat, body: string)
    requires OccursAt(s, start, Marker + "{" + body + "}")
    ensures var open := start + |Marker|;
      var close := open + |body| + 1;
      && close < |s|
      && s[start..open] == Marker && s[open] == '{' && s[close] == '}'
      && s[open..close + 1] == "{" + body + "}"
      && forall k :: open < k < close ==> s[k] == body[k - open - 1]
  {
    var t := Marker + "{" + body + "}";
    var open := start + |Marker|;
    var close := open + |body| + 1;
    assert s[start..close + 1] == t;
    assert s[start..open] == t[..|Marker|];
    assert s[open] == t[|Marker|];
    assert s[close] == t[|Marker| + |body| + 1];
    assert s[open..close + 1] == t[|Marker|..];
    forall k | open < k < close ensures s[k] == body[k - open - 1] {
      assert s[k] == t[k - start];
    }
  }

  /** The line ending found from `from` is the first terminator there. */
  lemma LineEndAt(s: string, from: nat, e: nat)
    requires from <= e <= |s|
    requires forall k :: from <= k < e ==> !IsLineTerminator(s[k])
    requires e < |s| ==> IsLineTerminator(s[e])
    ensures LineEnd(s, from) == e
  {
  }

  /** A result printed on its own line, after lines holding no `{`, is
      extracted exactly. */
  lemma ExtractPayloadOfResultLine(prefix: string, body: string, rest: string)
    requires prefix == [] || prefix[|prefix| - 1] == '\n'
    requires forall k :: 0 <= k < |prefix| ==> prefix[k] != '{'
    requires forall k :: 0 <= k < |body| ==> !IsLineTerminator(body[k])
    requires rest == [] || IsLineTerminator(rest[0])
    ensures ExtractPayload(prefix + Marker + "{" + body + "}" + rest) == Some("{" + body + "}")
  {
    var s := prefix + Marker + "{" + body + "}" + rest;
    ResultLineLayout(prefix, body, rest);
    NoMatchBefore(s, prefix, 0);
    MatchAtResultLine(s, |prefix|, body);
  }

  /** Where the parts of an output holding a result line sit. */
  lemma ResultLineLayout(prefix: string, body: string, rest: string)
    requires rest == [] || IsLineTerminator(rest[0])
    ensures var s := prefix + Marker + "{" + body + "}" + rest;
      var after := |prefix| + |Marker| + |body| + 2;
      |prefix| <= |s| && s[..|prefix|] == prefix &&
      OccursAt(s, |prefix|, Marker + "{" + body + "}") &&
      (after < |s| ==> IsLineTerminator(s[after]))
  {
    var line := Marker + "{" + body + "}";
    var s := prefix + Marker + "{" + body + "}" + rest;
    assert s == prefix + line + rest;
    assert s[..|prefix|] == prefix;
    assert s[|prefix|..|prefix| + |line|] == line;
    var after := |prefix| + |line|;
    assert after < |s| ==> s[after] == rest[0];
  }

  // ---------------------------------------------------------------------
  // One run, and the warmup-then-measure loop

  /** How a spawned benchmark process ended: the 60 s timeout fired, the
      spawn failed, or it closed with an exit code (null when killed by a signal). */
  datatype ProcessOutcome = TimedOut | SpawnFailed | Closed(code: Option<int>, stdout: string)

  /** `runBenchmark`'s result: null unless the process exited with 0, printed a
      result line, and that line's payload parses. `parse` is `JSON.parse`. */
  function RunResult(o: ProcessOutcome, parse: string -> Option<BenchmarkResult>): (r: Option<BenchmarkResult>)
    ensures r.Some? ==> o.Closed? && o.code == Some(0) && ExtractPayload(o.stdout).Some? &&
                        r == parse(ExtractPayload(o.stdout).value)
    ensures o.Closed? && o.code == Some(0) && ExtractPayload(o.stdout).Some? ==>
      r == parse(ExtractPayload(o.stdout).value)
  {
    match o
    case TimedOut => None
    case SpawnFailed => None
    case Closed(code, out) =>
      if code != Some(0) then None
      else
        match ExtractPayload(out)
        case None => None
        case Some(payload) => parse(payload)
  }

  /** The successful results among the outcomes, in run order. */
  function Successes(runs: seq<ProcessOutcome>, parse: string -> Option<BenchmarkResult>): seq<BenchmarkResult> {
    if runs == [] then []
    else
      var head := RunResult(runs[0], parse);
      (if head.Some? then [head.value] else []) + Successes(runs[1..], parse)
  }

  lemma {:induction false} SuccessesAppend(x: seq<ProcessOutcome>, y: seq<ProcessOutcome>, parse: string -> Option<BenchmarkResult>)
    ensures Successes(x + y, parse) == Successes(x, parse) + Successes(y, parse)
  {
    if x != [] {
      assert (x + y)[0] == x[0] && (x + y)[1..] == x[1..] + y;
      SuccessesAppend(x[1..], y, parse);
    } else {
      assert x + y == y;
    }
  }

  /** At most one result per run, and one per run exactly when none failed. */
  lemma {:induction false} SuccessesCount(runs: seq<ProcessOutcome>, parse: string -> Option<BenchmarkResult>)
    ensures |Successes(runs, parse)| <= |runs|
    ensures |Successes(runs, parse)| == |runs| <==> forall i :: 0 <= i < |runs| ==> RunResult(runs[i], parse).Some?
  {
    if runs != [] {
      SuccessesCount(runs[1..], parse);
      assert forall i :: 1 <= i < |runs| ==> runs[i] == runs[1..][i - 1];
    }
  }

  /** Every kept result is the parsed payload of some run. */
  lemma {:induction false} SuccessesFromRuns(runs: seq<ProcessOutcome>, parse: string -> Option<BenchmarkResult>, k: nat)
    requires k < |Successes(runs, parse)|
    ensures exists i :: 0 <= i < |runs| && RunResult(runs[i], parse) == Some(Successes(runs, parse)[k])
  {
    var head := RunResult(runs[0], parse);
    if head.Some? && k == 0 {
      assert RunResult(runs[0], parse) == Some(Successes(runs, parse)[0]);
    } else {
      var k' := if head.Some? then k - 1 else k;
      var tail := Successes(runs[1..], parse);
      assert Successes(runs, parse)[k] == tail[k'];
      SuccessesFromRuns(runs[1..], parse, k');
      var i :| 0 <= i < |runs[1..]| && RunResult(runs[1..][i], parse) == Some(tail[k']);
      assert runs[1..][i] == runs[i + 1];
      assert RunResult(runs[i + 1], parse) == Some(Successes(runs, parse)[k]);
    }
  }

  /** `runBenchmarkWithIterations`: the warmup outcomes are discarded; the
      measured outcomes that produced a result are kept, in order. */
  method RunBenchmarkWithIterations(warmups: seq<ProcessOutcome>, runs: seq<ProcessOutcome>,
                                    parse: string -> Option<BenchmarkResult>)
    returns (results: seq<BenchmarkResult>)
    requires |warmups| == WarmupRuns && |runs| == Iterations
    ensures results == Successes(runs, parse)
    ensures |results| <= Iterations
  {
    results := [];
    for i := 0 to WarmupRuns {
      var discarded := RunResult(warmups[i], parse);
    }
    for i := 0 to Iterations
      invariant results == Successes(runs[..i], parse)
    {
      var result := RunResult(runs[i], parse);
      SuccessesAppend(runs[..i], [runs[i]], parse);
      assert runs[..i + 1] == runs[..i] + [runs[i]];
      if result.Some? {
        results := results + [result.value];
      }
    }
    assert runs[..Iterations] == runs;
    SuccessesCount(runs, parse);
  }
}
