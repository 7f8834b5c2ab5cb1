/** The composite KOL grade (kol_grade_system.py): a weighted sum of the
    direction accuracy, a clamped Sharpe score and a capped sample score,
    scaled to 100 and rounded to two decimals. */
module KolGradeSystem {
  import opened Wrappers
  import opened KolRecords
  import opened KolPerformanceMetrics

  /** Python's `round` to an integer: the nearest integer, a tie going to
      the even neighbour. */
  function RoundHalfEven(y: real): (n: int)
    ensures -0.5 <= n as real - y <= 0.5
    ensures (n as real - y == 0.5 || y - n as real == 0.5) ==> n % 2 == 0
  {
    var f := y.Floor;
    var d := y - f as real;
    if d < 0.5 then f
    else if d > 0.5 then f + 1
    else if f % 2 == 0 then f
    else f + 1
  }

  /** Rounding never reverses an order. */
  lemma RoundHalfEvenMonotone(y1: real, y2: real)
    requires y1 <= y2
    ensures RoundHalfEven(y1) <= RoundHalfEven(y2)
  {
    if y1 < y2 {
      var n1, n2 := RoundHalfEven(y1), RoundHalfEven(y2);
      assert n1 as real <= y1 + 0.5 < y2 + 0.5 <= n2 as real + 1.0;
    }
  }

  /** An integer rounds to itself. */
  lemma RoundHalfEvenOfInteger(n: int)
    ensures RoundHalfEven(n as real) == n
  {
  }

  /** `round(x, 2)`: a multiple of 0.01 within 0.005 of `x`. */
  function Round2(x: real): (r: real)
    ensures -0.005 <= r - x <= 0.005
    ensures r * 100.0 == (r * 100.0).Floor as real
  {
    RoundHalfEven(x * 100.0) as real / 100.0
  }

  lemma Round2Monotone(x1: real, x2: real)
    requires x1 <= x2
    ensures Round2(x1) <= Round2(x2)
  {
    RoundHalfEvenMonotone(x1 * 100.0, x2 * 100.0);
  }

  /** A value already on the 0.01 grid is left unchanged. */
  lemma Round2OfHundredths(n: int)
    ensures Round2(n as real / 100.0) == n as real / 100.0
  {
    assert (n as real / 100.0) * 100.0 == n as real;
    RoundHalfEvenOfInteger(n);
  }

  /** `min(sample_num / sample_norm, 1.0)`. */
  function SampleScore(sampleNum: int, sampleNorm: int): (s: real)
    requires sampleNorm > 0
    ensures s <= 1.0
    ensures s == 1.0 <==> sampleNum >= sampleNorm
    ensures s < 1.0 ==> s * sampleNorm as real == sampleNum as real
    ensures sampleNum >= 0 ==> s >= 0.0
  {
    var q := sampleNum as real / sampleNorm as real;
    if q < 1.0 then q else 1.0
  }

  lemma SampleScoreMonotone(n1: int, n2: int, sampleNorm: int)
    requires sampleNorm > 0 && n1 <= n2
    ensures SampleScore(n1, sampleNorm) <= SampleScore(n2, sampleNorm)
  {
    var c := sampleNorm as real;
    assert (n2 - n1) as real / c >= 0.0;
    assert n2 as real / c - n1 as real / c == (n2 - n1) as real / c;
  }

  /** `min(max(sharpe / 2, 0), 1.0)`. */
  function SharpeScore(sharpe: real): (s: real)
    ensures 0.0 <= s <= 1.0
    ensures sharpe <= 0.0 ==> s == 0.0
    ensures sharpe >= 2.0 ==> s == 1.0
    ensures 0.0 <= sharpe <= 2.0 ==> 2.0 * s == sharpe
  {
    var h := sharpe / 2.0;
    var lo := if h > 0.0 then h else 0.0;
    if lo < 1.0 then lo else 1.0
  }

  /** The grade before rounding. */
  function RawGrade(accuracy: real, sharpe: real, sampleNum: int,
                    wAcc: real, wSharpe: real, wSample: real, sampleNorm: int): real
    requires sampleNorm > 0
  {
    100.0 * (wAcc * accuracy + wSharpe * SharpeScore(sharpe) + wSample * SampleScore(sampleNum, sampleNorm))
  }

  /** calculate_kol_grade, with the source's default weights and norm. */
  function CalculateKolGrade(accuracy: real, sharpe: real, sampleNum: int,
                             wAcc: real := 0.5, wSharpe: real := 0.3, wSample: real := 0.2,
                             sampleNorm: int := 50): (g: real)
    requires sampleNorm > 0
    ensures -0.005 <= g - RawGrade(accuracy, sharpe, sampleNum, wAcc, wSharpe, wSample, sampleNorm) <= 0.005
    ensures g * 100.0 == (g * 100.0).Floor as real
  {
    Round2(RawGrade(accuracy, sharpe, sampleNum, wAcc, wSharpe, wSample, sampleNorm))
  }

  /** With the default weights, an accuracy in [0, 1] and a non-negative
      sample count, the grade lies in [0, 100]. */
  lemma GradeInRange(accuracy: real, sharpe: real, sampleNum: int)
    requires 0.0 <= accuracy <= 1.0 && sampleNum >= 0
    ensures 0.0 <= CalculateKolGrade(accuracy, sharpe, sampleNum) <= 100.0
  {
    var raw := RawGrade(accuracy, sharpe, sampleNum, 0.5, 0.3, 0.2, 50);
    var s, t := SharpeScore(sharpe), SampleScore(sampleNum, 50);
    assert 0.0 <= 0.5 * accuracy + 0.3 * s + 0.2 * t <= 1.0;
    assert 0.0 <= raw <= 100.0;
    Round2Monotone(0.0, raw);
    Round2Monotone(raw, 100.0);
    Round2OfHundredths(0);
    Round2OfHundredths(10000);
  }

  lemma WeightedSumMonotone(w1: real, w2: real, w3: real, a1: real, a2: real,
                            b1: real, b2: real, c1: real, c2: real)
    requires w1 >= 0.0 && w2 >= 0.0 && w3 >= 0.0 && a1 <= a2 && b1 <= b2 && c1 <= c2
    ensures 100.0 * (w1 * a1 + w2 * b1 + w3 * c1) <= 100.0 * (w1 * a2 + w2 * b2 + w3 * c2)
  {
    assert w1 * a1 <= w1 * a2;
    assert w2 * b1 <= w2 * b2;
    assert w3 * c1 <= w3 * c2;
  }

  /** With non-negative weights the grade never falls when the accuracy,
      the Sharpe ratio or the sample count rises. */
  lemma GradeMonotone(acc1: real, acc2: real, sharpe1: real, sharpe2: real, n1: int, n2: int,
                      wAcc: real, wSharpe: real, wSample: real, sampleNorm: int)
    requires sampleNorm > 0 && wAcc >= 0.0 && wSharpe >= 0.0 && wSample >= 0.0
    requires acc1 <= acc2 && sharpe1 <= sharpe2 && n1 <= n2
    ensures CalculateKolGrade(acc1, sharpe1, n1, wAcc, wSharpe, wSample, sampleNorm)
         <= CalculateKolGrade(acc2, sharpe2, n2, wAcc, wSharpe, wSample, sampleNorm)
  {
    var s1, s2 := SharpeScore(sharpe1), SharpeScore(sharpe2);
    var t1, t2 := SampleScore(n1, sampleNorm), SampleScore(n2, sampleNorm);
    SampleScoreMonotone(n1, n2, sampleNorm);
    WeightedSumMonotone(wAcc, wSharpe, wSample, acc1, acc2, s1, s2, t1, t2);
    Round2Monotone(RawGrade(acc1, sharpe1, n1, wAcc, wSharpe, wSample, sampleNorm),
                   RawGrade(acc2, sharpe2, n2, wAcc, wSharpe, wSample, sampleNorm));
  }

  /** Full accuracy, a Sharpe ratio of 2 and 50 samples earn the full 100
      under the default weights. */
  lemma PerfectGrade()
    ensures CalculateKolGrade(1.0, 2.0, 50) == 100.0
  {
    assert RawGrade(1.0, 2.0, 50, 0.5, 0.3, 0.2, 50) == 10000 as real / 100.0;
    Round2OfHundredths(10000);
  }

  /** The grade of one KOL's metrics. */
  function GradeOf(p: KolPerformance): real {
    CalculateKolGrade(p.directionCorrectnessRate, p.sharpeRatio1d, p.totalPredictions)
  }

  /** add_grade_to_performance: set each entry's grade from its 1-day
      correctness rate, 1-day Sharpe ratio and prediction count; no entry is
      added or removed and nothing else changes. */
  method AddGradeToPerformance(perf: map<string, KolPerformance>)
    returns (graded: map<string, KolPerformance>)
    ensures graded.Keys == perf.Keys
    ensures forall k :: k in graded ==> graded[k] == perf[k].(grade := Some(GradeOf(perf[k])))
  {
    graded := perf;
    var pending := perf.Keys;
    while pending != {}
      invariant pending <= perf.Keys && graded.Keys == perf.Keys
      invariant forall k :: k in graded ==>
        graded[k] == if k in pending then perf[k] else perf[k].(grade := Some(GradeOf(perf[k])))
      decreases |pending|
    {
      var k :| k in pending;
      graded := graded[k := graded[k].(grade := Some(GradeOf(graded[k])))];
      pending := pending - {k};
    }
  }

  /** Every KOL that calculate_kol_performance_metrics reports gets a grade
      in [0, 100]. */
  lemma ReportedGradeInRange(rs: seq<Record>, kol: string, sqrt: real -> real)
    requires IsSqrt(sqrt) && Accumulate(rs, kol).totalPredictions > 0
    ensures 0.0 <= GradeOf(MetricsOf(kol, Accumulate(rs, kol), sqrt)) <= 100.0
  {
    var p := MetricsOf(kol, Accumulate(rs, kol), sqrt);
    RateInUnitInterval(rs, kol, sqrt);
    GradeInRange(p.directionCorrectnessRate, p.sharpeRatio1d, p.totalPredictions);
  }
}
