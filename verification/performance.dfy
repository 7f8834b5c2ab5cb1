/** Per-KOL performance metrics (kol_performance_metrics.py): the
    per-KOL return lists, mean, sample volatility, Sharpe and information
    ratios, and the ranking of KOLs by one metric. */
module KolPerformanceMetrics {
  import opened Wrappers
  import opened KolRecords
  import opened KolAccuracy

  const RiskFreeRate: real := 0.001
  const BenchmarkReturn: real := 0.01

  /** A float that may be NaN: np.std with ddof=1 of one value. */
  datatype Volatility = NaN | Vol(value: real)

  /** `volatility > 0` as Python evaluates it: false for NaN. */
  predicate Positive(v: Volatility) {
    v.Vol? && v.value > 0.0
  }

  /** The square root the metrics use, given as a parameter: non-negative
      and squaring back to its argument. */
  ghost predicate IsSqrt(sqrt: real -> real) {
    forall x :: 0.0 <= x ==> 0.0 <= sqrt(x) && sqrt(x) * sqrt(x) == x
  }

  function Sum(xs: seq<real>): real
    decreases |xs|
  {
    if xs == [] then 0.0 else Sum(xs[..|xs| - 1]) + xs[|xs| - 1]
  }

  function Mean(xs: seq<real>): real
    requires |xs| > 0
  {
    Sum(xs) / |xs| as real
  }

  /** The sum of squared deviations from `m`. */
  function SquaredDeviations(xs: seq<real>, m: real): real
    decreases |xs|
  {
    if xs == [] then 0.0 else SquaredDeviations(xs[..|xs| - 1], m) + (xs[|xs| - 1] - m) * (xs[|xs| - 1] - m)
  }

  lemma {:induction false} SquaredDeviationsNonNegative(xs: seq<real>, m: real)
    ensures SquaredDeviations(xs, m) >= 0.0
    decreases |xs|
  {
    if xs != [] {
      SquaredDeviationsNonNegative(xs[..|xs| - 1], m);
      var d := xs[|xs| - 1] - m;
      assert d * d >= 0.0;
    }
  }

  /** The N-1 sample variance. */
  function SampleVariance(xs: seq<real>): (v: real)
    requires |xs| >= 2
    ensures v >= 0.0
  {
    SquaredDeviationsNonNegative(xs, Mean(xs));
    SquaredDeviations(xs, Mean(xs)) / (|xs| - 1) as real
  }

  datatype PeriodMetrics = PeriodMetrics(meanReturn: real, volatility: Volatility,
                                         sharpeRatio: real, informationRatio: real)

  const NoMetrics := PeriodMetrics(0.0, Vol(0.0), 0.0, 0.0)

  /** calculate_period_metrics. */
  function CalculatePeriodMetrics(values: seq<real>, sqrt: real -> real): (m: PeriodMetrics)
    requires IsSqrt(sqrt)
    ensures values == [] ==> m == NoMetrics
    ensures values != [] ==> m.meanReturn * |values| as real == Sum(values)
    ensures |values| == 1 ==> m.volatility == NaN
    ensures |values| >= 2 ==> m.volatility.Vol? && m.volatility.value >= 0.0
                               && m.volatility.value * m.volatility.value == SampleVariance(values)
    ensures Positive(m.volatility) ==> m.sharpeRatio * m.volatility.value == m.meanReturn - RiskFreeRate
                                       && m.informationRatio * m.volatility.value == m.meanReturn - BenchmarkReturn
    ensures !Positive(m.volatility) ==> m.sharpeRatio == 0.0 && m.informationRatio == 0.0
  {
    if values == [] then NoMetrics
    else
      var mean := Mean(values);
      var vol := if |values| == 1 then NaN else Vol(sqrt(SampleVariance(values)));
      var sharpe := if Positive(vol) then (mean - RiskFreeRate) / vol.value else 0.0;
      var ir := if Positive(vol) then (mean - BenchmarkReturn) / vol.value else 0.0;
      PeriodMetrics(mean, vol, sharpe, ir)
  }

  /** The volatility is positive exactly when the returns are not all equal
      to their mean, and then the Sharpe ratio exceeds the information
      ratio, the benchmark being above the risk-free rate. */
  lemma SharpeAboveInformationRatio(values: seq<real>, sqrt: real -> real)
    requires IsSqrt(sqrt)
    ensures var m := CalculatePeriodMetrics(values, sqrt);
      && (Positive(m.volatility) <==> |values| >= 2 && SampleVariance(values) > 0.0)
      && (Positive(m.volatility) ==> m.sharpeRatio > m.informationRatio)
  {
    var m := CalculatePeriodMetrics(values, sqrt);
    if Positive(m.volatility) {
      var v := m.volatility.value;
      assert m.sharpeRatio - m.informationRatio == (BenchmarkReturn - RiskFreeRate) / v;
    }
  }

  /** A single observation has no volatility claim, but both ratios are 0.0
      because NaN is not positive. */
  lemma SingleObservation(x: real, sqrt: real -> real)
    requires IsSqrt(sqrt)
    ensures var m := CalculatePeriodMetrics([x], sqrt);
      m == PeriodMetrics(x, NaN, 0.0, 0.0)
  {
    assert Sum([x]) == Sum([]) + x;
  }

  // ---------------------------------------------------------------------
  // Per-KOL aggregation

  /** The accumulator kept per KOL while reading the records. */
  datatype Acc = Acc(returns1d: seq<real>, returns3d: seq<real>, returns10d: seq<real>,
                     correctPredictions: nat, totalPredictions: nat)

  const Empty := Acc([], [], [], 0, 0)

  /** What a record with a 1-day return adds to its KOL's accumulator. */
  function Add(a: Acc, r: Record): Acc
    requires r.return1d.Some?
  {
    Acc(a.returns1d + [r.return1d.value],
        if r.return3d.Some? then a.returns3d + [r.return3d.value] else a.returns3d,
        if r.return10d.Some? then a.returns10d + [r.return10d.value] else a.returns10d,
        a.correctPredictions + IsDirectionCorrect(r.sentiment, r.return1d.value),
        a.totalPredictions + 1)
  }

  /** The accumulator of `kol` after the records `rs`. */
  function Accumulate(rs: seq<Record>, kol: string): (a: Acc)
    ensures a.totalPredictions <= |rs|
    decreases |rs|
  {
    if rs == [] then Empty
    else
      var a := Accumulate(rs[..|rs| - 1], kol);
      var r := rs[|rs| - 1];
      if r.return1d.Some? && r.kol == kol then Add(a, r) else a
  }

  /** One entry of the result: the KOLPerformanceMetrics data class, plus
      the grade that add_grade_to_performance attaches later. */
  datatype KolPerformance = KolPerformance(
    kolName: string,
    directionCorrectnessRate: real,
    meanReturn1d: real, meanReturn3d: real, meanReturn10d: real,
    volatility1d: Volatility, volatility3d: Volatility, volatility10d: Volatility,
    sharpeRatio1d: real, sharpeRatio3d: real, sharpeRatio10d: real,
    informationRatio1d: real, informationRatio3d: real, informationRatio10d: real,
    totalPredictions: nat,
    grade: Option<real>)

  /** The metrics built from a KOL's accumulator. */
  function MetricsOf(kol: string, a: Acc, sqrt: real -> real): (p: KolPerformance)
    requires IsSqrt(sqrt) && a.totalPredictions > 0
    ensures p.kolName == kol && p.totalPredictions == a.totalPredictions && p.grade.None?
    ensures p.directionCorrectnessRate * a.totalPredictions as real == a.correctPredictions as real
  {
    var m1, m3, m10 := CalculatePeriodMetrics(a.returns1d, sqrt), CalculatePeriodMetrics(a.returns3d, sqrt),
                       CalculatePeriodMetrics(a.returns10d, sqrt);
    KolPerformance(kol, a.correctPredictions as real / a.totalPredictions as real,
                   m1.meanReturn, m3.meanReturn, m10.meanReturn,
                   m1.volatility, m3.volatility, m10.volatility,
                   m1.sharpeRatio, m3.sharpeRatio, m10.sharpeRatio,
                   m1.informationRatio, m3.informationRatio, m10.informationRatio,
                   a.totalPredictions, None)
  }

  /** The shape of an accumulator: one 1-day return per counted record, at
      most that many 3-day and 10-day returns, and only 1-day calls counted
      as right; these are exactly the accuracy module's 1-day counts. */
  lemma {:induction false} AccumulateShape(rs: seq<Record>, kol: string)
    ensures var a := Accumulate(rs, kol);
      && |a.returns1d| == a.totalPredictions
      && |a.returns3d| <= a.totalPredictions && |a.returns10d| <= a.totalPredictions
      && a.totalPredictions == Tally(rs, ByKol, kol).total
      && a.correctPredictions == Tally(rs, ByKol, kol).correct1d
      && a.correctPredictions <= a.totalPredictions
    decreases |rs|
  {
    if rs != [] {
      AccumulateShape(rs[..|rs| - 1], kol);
    }
  }

  /** A KOL has a non-empty accumulator exactly when one of its records has
      a 1-day return. */
  lemma {:induction false} AccumulatePresence(rs: seq<Record>, kol: string)
    ensures Accumulate(rs, kol).totalPredictions > 0
        <==> exists j :: 0 <= j < |rs| && rs[j].kol == kol && rs[j].return1d.Some?
    decreases |rs|
  {
    if rs != [] {
      var init := rs[..|rs| - 1];
      AccumulatePresence(init, kol);
      if exists j :: 0 <= j < |init| && init[j].kol == kol && init[j].return1d.Some? {
        var j :| 0 <= j < |init| && init[j].kol == kol && init[j].return1d.Some?;
        assert rs[j] == init[j];
      }
      if exists j :: 0 <= j < |rs| && rs[j].kol == kol && rs[j].return1d.Some? {
        var j :| 0 <= j < |rs| && rs[j].kol == kol && rs[j].return1d.Some?;
        if j < |init| {
          assert init[j] == rs[j];
        }
      }
    }
  }

  /** Every reported KOL has at least one prediction and a correctness rate
      in [0, 1]. */
  lemma RateInUnitInterval(rs: seq<Record>, kol: string, sqrt: real -> real)
    requires IsSqrt(sqrt) && Accumulate(rs, kol).totalPredictions > 0
    ensures var p := MetricsOf(kol, Accumulate(rs, kol), sqrt);
      && p.totalPredictions >= 1
      && 0.0 <= p.directionCorrectnessRate <= 1.0
  {
    AccumulateShape(rs, kol);
    var a := Accumulate(rs, kol);
    DivAtMostOne(a.correctPredictions, a.totalPredictions);
  }

  lemma AccumulateSnoc(rs: seq<Record>, i: nat, kol: string)
    requires i < |rs|
    ensures Accumulate(rs[..i + 1], kol)
         == if rs[i].return1d.Some? && rs[i].kol == kol then Add(Accumulate(rs[..i], kol), rs[i])
            else Accumulate(rs[..i], kol)
  {
    assert rs[..i + 1][..i] == rs[..i];
  }

  lemma {:induction false} EmptyAccumulate(rs: seq<Record>, kol: string)
    requires Accumulate(rs, kol).totalPredictions == 0
    ensures Accumulate(rs, kol) == Empty
    decreases |rs|
  {
    if rs != [] {
      EmptyAccumulate(rs[..|rs| - 1], kol);
    }
  }

  /** The accumulation pass of calculate_kol_performance_metrics, skipping
      records without a 1-day return. */
  method AccumulatePerKol(records: seq<Record>) returns (kolMetrics: map<string, Acc>)
    ensures forall k :: k in kolMetrics <==> Accumulate(records, k).totalPredictions > 0
    ensures forall k :: k in kolMetrics ==> kolMetrics[k] == Accumulate(records, k)
  {
    kolMetrics := map[];
    var i := 0;
    while i < |records|
      invariant i <= |records|
      invariant forall k :: k in kolMetrics <==> Accumulate(records[..i], k).totalPredictions > 0
      invariant forall k :: k in kolMetrics ==> kolMetrics[k] == Accumulate(records[..i], k)
    {
      var r := records[i];
      forall k {
        AccumulateSnoc(records, i, k);
      }
      if r.return1d.Some? {
        if r.kol !in kolMetrics {
          EmptyAccumulate(records[..i], r.kol);
        }
        var before := if r.kol in kolMetrics then kolMetrics[r.kol] else Empty;
        kolMetrics := kolMetrics[r.kol := Add(before, r)];
      }
      i := i + 1;
    }
    assert records[..i] == records;
  }

  /** calculate_kol_performance_metrics: accumulate per KOL, then build each
      KOL's metrics. */
  method CalculateKolPerformanceMetrics(records: seq<Record>, sqrt: real -> real)
    returns (results: map<string, KolPerformance>)
    requires IsSqrt(sqrt)
    ensures forall k :: k in results <==> Accumulate(records, k).totalPredictions > 0
    ensures forall k :: k in results ==> results[k] == MetricsOf(k, Accumulate(records, k), sqrt)
  {
    var kolMetrics := AccumulatePerKol(records);
    results := map[];
    var pending := kolMetrics.Keys;
    while pending != {}
      invariant pending <= kolMetrics.Keys
      invariant forall k :: k in results <==> k in kolMetrics && k !in pending
      invariant forall k :: k in results ==> results[k] == MetricsOf(k, kolMetrics[k], sqrt)
      decreases |pending|
    {
      var k :| k in pending;
      var data := kolMetrics[k];
      if data.totalPredictions > 0 {
        results := results[k := MetricsOf(k, data, sqrt)];
      }
      pending := pending - {k};
    }
  }

  // ---------------------------------------------------------------------
  // Ranking

  /** The metrics a ranking may sort by. */
  const ValidMetrics: seq<string> := [
    "direction_correctness_rate", "mean_return_1d", "mean_return_3d", "mean_return_10d",
    "sharpe_ratio_1d", "sharpe_ratio_3d", "sharpe_ratio_10d",
    "information_ratio_1d", "information_ratio_3d", "information_ratio_10d"]

  /** The attribute named `metric`. */
  function MetricValue(p: KolPerformance, metric: string): real
    requires metric in ValidMetrics
  {
    if metric == "direction_correctness_rate" then p.directionCorrectnessRate
    else if metric == "mean_return_1d" then p.meanReturn1d
    else if metric == "mean_return_3d" then p.meanReturn3d
    else if metric == "mean_return_10d" then p.meanReturn10d
    else if metric == "sharpe_ratio_1d" then p.sharpeRatio1d
    else if metric == "sharpe_ratio_3d" then p.sharpeRatio3d
    else if metric == "sharpe_ratio_10d" then p.sharpeRatio10d
    else if metric == "information_ratio_1d" then p.informationRatio1d
    else if metric == "information_ratio_3d" then p.informationRatio3d
    else p.informationRatio10d
  }

  /** A `(kol_name, metric_value)` pair. */
  datatype Performer = Performer(kol: string, value: real)

  /** The result of get_top_performers: the ValueError for an unknown
      metric, or the ranked pairs. */
  datatype Ranking = InvalidMetric | Ranked(pairs: seq<Performer>)

  predicate Descending(s: seq<Performer>) {
    forall i, j :: 0 <= i < j < |s| ==> s[i].value >= s[j].value
  }

  predicate Distinct<T(==)>(s: seq<T>) {
    forall i, j :: 0 <= i < j < |s| ==> s[i] != s[j]
  }

  /** The length of `xs[:top_n]` for a list of length `n`, a negative
      `top_n` counting from the end. */
  function SliceLength(n: nat, topN: int): (c: nat)
    ensures c <= n
    ensures 0 <= topN <= n ==> c == topN
    ensures topN >= n ==> c == n
    ensures topN < 0 ==> c + (if -topN < n then -topN else n) == n
  {
    if topN >= 0 then (if topN < n then topN else n)
    else if n + topN > 0 then n + topN else 0
  }

  /** A value occurs at most once in a sequence without repeats. */
  lemma {:induction false} DistinctCountsOne<T>(s: seq<T>, x: T)
    requires Distinct(s)
    ensures multiset(s)[x] <= 1
    decreases |s|
  {
    if s != [] {
      var init := s[..|s| - 1];
      assert s == init + [s[|s| - 1]];
      DistinctCountsOne(init, x);
      assert forall m :: 0 <= m < |init| ==> init[m] != s[|s| - 1];
    }
  }

  /** A permutation of a sequence without repeats has none either. */
  lemma PermutationKeepsDistinct<T>(s: seq<T>, t: seq<T>)
    requires Distinct(s) && multiset(s) == multiset(t)
    ensures Distinct(t)
  {
    forall i, j | 0 <= i < j < |t|
      ensures t[i] != t[j]
    {
      assert t == t[..i] + [t[i]] + t[i + 1..j] + [t[j]] + t[j + 1..];
      DistinctCountsOne(s, t[i]);
    }
  }

  /** Every pair names a KOL of `perf` and carries that KOL's metric. */
  ghost predicate PairsOf(s: seq<Performer>, perf: map<string, KolPerformance>, metric: string)
    requires metric in ValidMetrics
  {
    forall i :: 0 <= i < |s| ==> s[i].kol in perf && s[i].value == MetricValue(perf[s[i].kol], metric)
  }

  /** Every KOL of `perf` has its pair in `s`. */
  ghost predicate Covers(s: seq<Performer>, perf: map<string, KolPerformance>, metric: string)
    requires metric in ValidMetrics
  {
    forall k :: k in perf ==> Performer(k, MetricValue(perf[k], metric)) in s
  }

  /** Sorting keeps both the pairing with `perf` and the coverage. */
  lemma PermutationKeepsPairs(s: seq<Performer>, t: seq<Performer>, perf: map<string, KolPerformance>, metric: string)
    requires metric in ValidMetrics && multiset(s) == multiset(t)
    requires PairsOf(s, perf, metric) && Covers(s, perf, metric)
    ensures PairsOf(t, perf, metric) && Covers(t, perf, metric)
  {
    forall i | 0 <= i < |t|
      ensures t[i].kol in perf && t[i].value == MetricValue(perf[t[i].kol], metric)
    {
      assert t[i] in multiset(s);
    }
    forall k | k in perf
      ensures Performer(k, MetricValue(perf[k], metric)) in t
    {
      assert Performer(k, MetricValue(perf[k], metric)) in multiset(t);
    }
  }

  /** No KOL is named twice. */
  predicate OncePerKol(s: seq<Performer>) {
    forall i, j :: 0 <= i < j < |s| ==> s[i].kol != s[j].kol
  }

  /** Every KOL of `perf` that `s` leaves out ranks no higher than any pair
      in `s`. */
  ghost predicate KeepsBest(s: seq<Performer>, perf: map<string, KolPerformance>, metric: string)
    requires metric in ValidMetrics
  {
    forall k :: k in perf && (forall i :: 0 <= i < |s| ==> s[i].kol != k) ==>
      forall i :: 0 <= i < |s| ==> s[i].value >= MetricValue(perf[k], metric)
  }

  /** Two pairs of the same KOL are the same pair, so a repeat-free list
      of pairs names each KOL once. */
  lemma DistinctKols(s: seq<Performer>, perf: map<string, KolPerformance>, metric: string)
    requires metric in ValidMetrics && PairsOf(s, perf, metric) && Distinct(s)
    ensures OncePerKol(s)
  {
  }

  /** A prefix keeps the order, the pairing and the one-pair-per-KOL
      property. */
  lemma PrefixKeeps(s: seq<Performer>, c: nat, perf: map<string, KolPerformance>, metric: string)
    requires metric in ValidMetrics && c <= |s| && Descending(s) && PairsOf(s, perf, metric) && OncePerKol(s)
    ensures Descending(s[..c]) && PairsOf(s[..c], perf, metric) && OncePerKol(s[..c])
  {
  }

  /** In a descending list covering `perf`, a KOL outside the first `c`
      pairs ranks no higher than any of them. */
  lemma LeftOutRanksLower(s: seq<Performer>, c: nat, perf: map<string, KolPerformance>, metric: string)
    requires metric in ValidMetrics && Descending(s) && c <= |s| && Covers(s, perf, metric)
    ensures KeepsBest(s[..c], perf, metric)
  {
    var p := s[..c];
    forall k | k in perf && (forall i :: 0 <= i < |p| ==> p[i].kol != k)
      ensures forall i :: 0 <= i < |p| ==> p[i].value >= MetricValue(perf[k], metric)
    {
      var q := Performer(k, MetricValue(perf[k], metric));
      var m :| 0 <= m < |s| && s[m] == q;
      assert forall i :: 0 <= i < c ==> s[i] == p[i] && s[i] != q;
      assert c <= m;
    }
  }

  /** The pairs of get_top_performers before sorting: one per KOL, in the
      map's iteration order. */
  method CollectPerformers(perf: map<string, KolPerformance>, metric: string)
    returns (performers: seq<Performer>)
    requires metric in ValidMetrics
    ensures |performers| == |perf.Keys| && Distinct(performers)
    ensures PairsOf(performers, perf, metric) && Covers(performers, perf, metric)
  {
    performers := [];
    var pending := perf.Keys;
    while pending != {}
      invariant pending <= perf.Keys
      invariant |performers| + |pending| == |perf.Keys| && Distinct(performers)
      invariant forall i :: 0 <= i < |performers| ==>
        performers[i].kol in perf && performers[i].kol !in pending
        && performers[i].value == MetricValue(perf[performers[i].kol], metric)
      invariant forall k :: k in perf && k !in pending ==> Performer(k, MetricValue(perf[k], metric)) in performers
      decreases |pending|
    {
      var k :| k in pending;
      performers := performers + [Performer(k, MetricValue(perf[k], metric))];
      pending := pending - {k};
    }
  }

  /** While `s[j]` sinks through `s[..i + 1]`: the other elements stay in
      descending order and everything already passed is strictly smaller. */
  predicate Sinking(s: seq<Performer>, i: nat, j: nat)
    requires j <= i < |s|
  {
    && (forall k, l :: 0 <= k < l <= i && k != j && l != j ==> s[k].value >= s[l].value)
    && (forall l :: j < l <= i ==> s[l].value < s[j].value)
  }

  /** Swapping the sinking element with a smaller left neighbour keeps
      `Sinking` one place further left. */
  lemma SinkStep(s: seq<Performer>, i: nat, j: nat)
    requires 0 < j <= i < |s| && Sinking(s, i, j) && s[j - 1].value < s[j].value
    ensures Sinking(SwapDown(s, j), i, j - 1)
    ensures multiset(SwapDown(s, j)) == multiset(s)
  {
  }

  /** `s` with positions `j - 1` and `j` exchanged. */
  function SwapDown(s: seq<Performer>, j: nat): (t: seq<Performer>)
    requires 0 < j < |s|
    ensures |t| == |s|
  {
    s[j - 1 := s[j]][j := s[j - 1]]
  }

  /** Once the left neighbour is no smaller, the prefix is sorted. */
  lemma SinkDone(s: seq<Performer>, i: nat, j: nat)
    requires j <= i < |s| && Sinking(s, i, j) && (j == 0 || s[j - 1].value >= s[j].value)
    ensures forall k, l :: 0 <= k < l <= i ==> s[k].value >= s[l].value
  {
  }

  /** One insertion step: sink `a[i]` into the descending prefix `a[..i]`,
      passing only over strictly smaller values. */
  method Sink(a: array<Performer>, i: nat)
    requires i < a.Length
    requires forall k, l :: 0 <= k < l < i ==> a[k].value >= a[l].value
    modifies a
    ensures forall k, l :: 0 <= k < l <= i ==> a[k].value >= a[l].value
    ensures multiset(a[..]) == multiset(old(a[..]))
    ensures a[i + 1..] == old(a[i + 1..])
  {
    var j := i;
    while j > 0 && a[j - 1].value < a[j].value
      invariant 0 <= j <= i && Sinking(a[..], i, j)
      invariant multiset(a[..]) == multiset(old(a[..]))
      invariant a[i + 1..] == old(a[i + 1..])
    {
      SwapLeft(a, i, j);
      j := j - 1;
    }
    SinkDone(a[..], i, j);
  }

  /** One move of the sinking element: exchange it with its smaller left
      neighbour. */
  method SwapLeft(a: array<Performer>, i: nat, j: nat)
    requires 0 < j <= i < a.Length && Sinking(a[..], i, j) && a[j - 1].value < a[j].value
    modifies a
    ensures a[..] == SwapDown(old(a[..]), j)
    ensures Sinking(a[..], i, j - 1)
    ensures multiset(a[..]) == multiset(old(a[..]))
    ensures a[i + 1..] == old(a[i + 1..])
  {
    SinkStep(a[..], i, j);
    a[j - 1], a[j] := a[j], a[j - 1];
  }

  /** `performers.sort(key=value, reverse=True)`, in place, by insertion. */
  method SortDescending(a: array<Performer>)
    modifies a
    ensures Descending(a[..])
    ensures multiset(a[..]) == multiset(old(a[..]))
  {
    var i := 0;
    while i < a.Length
      invariant i <= a.Length
      invariant forall k, l :: 0 <= k < l < i ==> a[k].value >= a[l].value
      invariant multiset(a[..]) == multiset(old(a[..]))
    {
      Sink(a, i);
      i := i + 1;
    }
  }

  /** get_top_performers: the ValueError for an unknown metric; otherwise
      the `performers[:top_n]` prefix of all KOLs sorted by the metric,
      highest first. */
  method GetTopPerformers(perf: map<string, KolPerformance>, metric: string := "direction_correctness_rate",
                          topN: int := 5)
    returns (r: Ranking)
    ensures r.InvalidMetric? <==> metric !in ValidMetrics
    ensures r.Ranked? ==> |r.pairs| == SliceLength(|perf.Keys|, topN) && Descending(r.pairs)
    ensures r.Ranked? ==> PairsOf(r.pairs, perf, metric)
    ensures r.Ranked? ==> OncePerKol(r.pairs) && KeepsBest(r.pairs, perf, metric)
  {
    if metric !in ValidMetrics {
      return InvalidMetric;
    }
    var performers := CollectPerformers(perf, metric);
    var a := new Performer[|performers|](i requires 0 <= i < |performers| => performers[i]);
    assert a[..] == performers;
    SortDescending(a);
    var sorted := a[..];
    PermutationKeepsDistinct(performers, sorted);
    PermutationKeepsPairs(performers, sorted, perf, metric);
    DistinctKols(sorted, perf, metric);
    var c := SliceLength(|sorted|, topN);
    LeftOutRanksLower(sorted, c, perf, metric);
    PrefixKeeps(sorted, c, perf, metric);
    r := Ranked(sorted[..c]);
  }
}
