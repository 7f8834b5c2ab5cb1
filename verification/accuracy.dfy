/** Direction accuracy of predictions (kol_accuracy.py): the three-way
    direction rule, the per-record score, and the per-KOL and per-label
    tallies. */
module KolAccuracy {
  import opened Wrappers
  import opened Text
  import opened KolRecords

  /** Returns strictly inside (-0.01, 0.01) count as flat. */
  const NeutralBand: real := 0.01

  /** is_direction_correct: 1 for a right call, 0 otherwise. The label is
      compared after lower-casing. */
  function IsDirectionCorrect(sentiment: string, ret: real): (c: nat)
    ensures c <= 1
  {
    var tag := Lower(sentiment);
    if tag == "positive" && ret > 0.0 then 1
    else if tag == "negative" && ret < 0.0 then 1
    else if tag == "neutral" && -NeutralBand < ret < NeutralBand then 1
    else 0
  }

  /** A call is right exactly when an up call meets a rise, a down call a
      fall, or a flat call a move smaller than the band; any other label is
      never right. */
  lemma DirectionRule(sentiment: string, ret: real)
    ensures IsDirectionCorrect(sentiment, ret) == 1 <==>
      || (Lower(sentiment) == "positive" && ret > 0.0)
      || (Lower(sentiment) == "negative" && ret < 0.0)
      || (Lower(sentiment) == "neutral" && (if ret < 0.0 then -ret else ret) < 0.01)
    ensures Lower(sentiment) !in {"positive", "negative", "neutral"} ==> IsDirectionCorrect(sentiment, ret) == 0
  {
  }

  /** The boundaries: a zero return is right only for a flat call, and a
      move of exactly 0.01 either way is not flat. */
  lemma DirectionBoundaries(sentiment: string)
    ensures IsDirectionCorrect(sentiment, 0.0) == 1 <==> Lower(sentiment) == "neutral"
    ensures IsDirectionCorrect("neutral", 0.01) == 0 && IsDirectionCorrect("neutral", -0.01) == 0
  {
    assert Lower("neutral") == "neutral";
  }

  /** Labels differing only in case are scored alike. */
  lemma DirectionIgnoresCase(a: string, b: string, ret: real)
    requires Lower(a) == Lower(b)
    ensures IsDirectionCorrect(a, ret) == IsDirectionCorrect(b, ret)
  {
  }

  /** Capitalised spellings of the three labels are recognised. */
  lemma CapitalisedLabels(ret: real)
    ensures IsDirectionCorrect("Positive", ret) == IsDirectionCorrect("positive", ret)
    ensures IsDirectionCorrect("NEGATIVE", ret) == IsDirectionCorrect("negative", ret)
    ensures IsDirectionCorrect("Neutral", ret) == IsDirectionCorrect("neutral", ret)
  {
    assert Lower("Positive") == "positive" == Lower("positive");
    assert Lower("NEGATIVE") == "negative" == Lower("negative");
    assert Lower("Neutral") == "neutral" == Lower("neutral");
  }

  /** The scenarios listed with the module's example run. */
  lemma DocumentedCases()
    ensures IsDirectionCorrect("positive", 0.03) == 1
    ensures IsDirectionCorrect("positive", -0.02) == 0
    ensures IsDirectionCorrect("negative", -0.05) == 1
    ensures IsDirectionCorrect("negative", 0.01) == 0
    ensures IsDirectionCorrect("neutral", 0.005) == 1
    ensures IsDirectionCorrect("neutral", 0.05) == 0
  {
    assert Lower("positive") == "positive";
    assert Lower("negative") == "negative";
    assert Lower("neutral") == "neutral";
  }

  /** The direction score of one optional return: None when the return is
      missing. */
  function ScoreOf(sentiment: string, ret: Option<real>): (a: Option<nat>)
    ensures a.Some? <==> ret.Some?
    ensures a.Some? ==> a.value <= 1 && (a.value == 1 <==> IsDirectionCorrect(sentiment, ret.value) == 1)
  {
    if ret.Some? then Some(IsDirectionCorrect(sentiment, ret.value)) else None
  }

  datatype AccuracyScores = AccuracyScores(accuracy1d: Option<nat>, accuracy3d: Option<nat>, accuracy10d: Option<nat>)

  /** calculate_accuracy_score: each horizon scored independently. */
  function CalculateAccuracyScore(sentiment: string, ret1d: Option<real>, ret3d: Option<real>, ret10d: Option<real>)
    : (s: AccuracyScores)
    ensures s.accuracy1d.None? <==> ret1d.None?
    ensures s.accuracy3d.None? <==> ret3d.None?
    ensures s.accuracy10d.None? <==> ret10d.None?
  {
    AccuracyScores(ScoreOf(sentiment, ret1d), ScoreOf(sentiment, ret3d), ScoreOf(sentiment, ret10d))
  }

  /** A present score is the direction rule applied to that horizon's return,
      whatever the other horizons hold. */
  lemma AccuracyScoreIsDirectionRule(sentiment: string, ret1d: Option<real>, ret3d: Option<real>, ret10d: Option<real>)
    ensures var s := CalculateAccuracyScore(sentiment, ret1d, ret3d, ret10d);
      && (ret1d.Some? ==> s.accuracy1d == Some(IsDirectionCorrect(sentiment, ret1d.value)))
      && (ret3d.Some? ==> s.accuracy3d == Some(IsDirectionCorrect(sentiment, ret3d.value)))
      && (ret10d.Some? ==> s.accuracy10d == Some(IsDirectionCorrect(sentiment, ret10d.value)))
      && s.accuracy3d == CalculateAccuracyScore(sentiment, None, ret3d, None).accuracy3d
  {
  }

  // ---------------------------------------------------------------------
  // Tallies

  /** The counters kept for a KOL (`total_predictions`) or for a label
      (`total`), and the accuracies derived from them. */
  datatype Stats = Stats(total: nat, correct1d: nat, correct3d: nat, correct10d: nat,
                         accuracy1d: real, accuracy3d: real, accuracy10d: real)

  const Fresh := Stats(0, 0, 0, 0, 0.0, 0.0, 0.0)

  /** What a record adds to its group: one prediction, and one right call
      per horizon whose return is present and right. */
  function Count(s: Stats, r: Record): Stats {
    s.(total := s.total + 1,
       correct1d := s.correct1d + Hit(r.sentiment, r.return1d),
       correct3d := s.correct3d + Hit(r.sentiment, r.return3d),
       correct10d := s.correct10d + Hit(r.sentiment, r.return10d))
  }

  /** One right call when the return is present and the rule accepts it. */
  function Hit(sentiment: string, ret: Option<real>): nat {
    if ret.Some? then IsDirectionCorrect(sentiment, ret.value) else 0
  }

  /** The two groupings: by KOL name, and by lower-cased label. */
  datatype Grouping = ByKol | ByLabel

  function KeyOf(r: Record, g: Grouping): string {
    if g.ByKol? then r.kol else Lower(r.sentiment)
  }

  /** The counters of group `key` after the records `rs`: only records with
      a 1-day return take part. */
  function Tally(rs: seq<Record>, g: Grouping, key: string): (t: Stats)
    ensures t.total <= |rs|
    decreases |rs|
  {
    if rs == [] then Fresh
    else
      var t := Tally(rs[..|rs| - 1], g, key);
      var r := rs[|rs| - 1];
      if r.return1d.Some? && KeyOf(r, g) == key then Count(t, r) else t
  }

  /** The accuracy pass: each count over the group's total, when it has any. */
  function WithAccuracy(s: Stats): (w: Stats)
    ensures w.total == s.total && w.correct1d == s.correct1d && w.correct3d == s.correct3d
         && w.correct10d == s.correct10d
    ensures s.total > 0 ==>
      && w.accuracy1d * s.total as real == s.correct1d as real
      && w.accuracy3d * s.total as real == s.correct3d as real
      && w.accuracy10d * s.total as real == s.correct10d as real
    ensures s.total == 0 ==> w == s
  {
    if s.total > 0 then
      s.(accuracy1d := s.correct1d as real / s.total as real,
         accuracy3d := s.correct3d as real / s.total as real,
         accuracy10d := s.correct10d as real / s.total as real)
    else s
  }

  /** Every count is at most the group's total, and the accuracies are left
      at 0.0 by the tally. */
  lemma {:induction false} TallyBounds(rs: seq<Record>, g: Grouping, key: string)
    ensures var t := Tally(rs, g, key);
      && t.correct1d <= t.total && t.correct3d <= t.total && t.correct10d <= t.total
      && t.accuracy1d == 0.0 && t.accuracy3d == 0.0 && t.accuracy10d == 0.0
    decreases |rs|
  {
    if rs != [] {
      TallyBounds(rs[..|rs| - 1], g, key);
    }
  }

  /** A group no record has reached is still fresh. */
  lemma {:induction false} EmptyTally(rs: seq<Record>, g: Grouping, key: string)
    requires Tally(rs, g, key).total == 0
    ensures Tally(rs, g, key) == Fresh
    decreases |rs|
  {
    if rs != [] {
      EmptyTally(rs[..|rs| - 1], g, key);
    }
  }

  /** Every accuracy lies in [0, 1]; a group that is empty keeps 0.0. */
  lemma AccuracyInUnitInterval(rs: seq<Record>, g: Grouping, key: string)
    ensures var s := WithAccuracy(Tally(rs, g, key));
      && 0.0 <= s.accuracy1d <= 1.0 && 0.0 <= s.accuracy3d <= 1.0 && 0.0 <= s.accuracy10d <= 1.0
      && (s.total == 0 ==> s == Fresh)
  {
    TallyBounds(rs, g, key);
    var t := Tally(rs, g, key);
    if t.total > 0 {
      DivAtMostOne(t.correct1d, t.total);
      DivAtMostOne(t.correct3d, t.total);
      DivAtMostOne(t.correct10d, t.total);
    }
  }

  lemma DivAtMostOne(a: nat, b: nat)
    requires 0 < b && a <= b
    ensures 0.0 <= a as real / b as real <= 1.0
  {
  }

  /** The longer horizons are divided by the 1-day count: a record whose
      3-day (or 10-day) return is missing still counts in the total but
      never as a right 3-day (10-day) call. */
  lemma MissingHorizonCountsAsWrong(rs: seq<Record>, g: Grouping, key: string, r: Record)
    requires r.return1d.Some? && r.return3d.None? && r.return10d.None? && KeyOf(r, g) == key
    ensures var before, after := Tally(rs, g, key), Tally(rs + [r], g, key);
      && after.total == before.total + 1
      && after.correct3d == before.correct3d && after.correct10d == before.correct10d
  {
    assert (rs + [r])[..|rs + [r]| - 1] == rs;
  }

  /** The number of records with a 1-day return and one of the three
      recognised labels. */
  function Recognised(rs: seq<Record>): nat
    decreases |rs|
  {
    if rs == [] then 0
    else
      var r := rs[|rs| - 1];
      Recognised(rs[..|rs| - 1])
      + (if r.return1d.Some? && Lower(r.sentiment) in {"positive", "negative", "neutral"} then 1 else 0)
  }

  /** The three label totals add up to the records that have a 1-day return
      and a recognised label; every other record is ignored. */
  lemma {:induction false} BucketTotals(rs: seq<Record>)
    ensures Tally(rs, ByLabel, "positive").total + Tally(rs, ByLabel, "negative").total
            + Tally(rs, ByLabel, "neutral").total == Recognised(rs)
    decreases |rs|
  {
    if rs != [] {
      BucketTotals(rs[..|rs| - 1]);
    }
  }

  /** A group is present in the per-KOL result exactly when its tally is
      non-empty. */
  ghost predicate Seen(rs: seq<Record>, key: string) {
    Tally(rs, ByKol, key).total > 0
  }

  lemma TallySnoc(rs: seq<Record>, i: nat, g: Grouping, key: string)
    requires i < |rs|
    ensures Tally(rs[..i + 1], g, key)
         == if rs[i].return1d.Some? && KeyOf(rs[i], g) == key then Count(Tally(rs[..i], g, key), rs[i])
            else Tally(rs[..i], g, key)
  {
    assert rs[..i + 1][..i] == rs[..i];
  }

  /** The counting pass of get_kol_performance_stats: each KOL's
      predictions that have a 1-day return. */
  method CountPerKol(records: seq<Record>) returns (stats: map<string, Stats>)
    ensures forall k :: k in stats <==> Tally(records, ByKol, k).total > 0
    ensures forall k :: k in stats ==> stats[k] == Tally(records, ByKol, k)
  {
    stats := map[];
    var i := 0;
    while i < |records|
      invariant i <= |records|
      invariant forall k :: k in stats <==> Tally(records[..i], ByKol, k).total > 0
      invariant forall k :: k in stats ==> stats[k] == Tally(records[..i], ByKol, k)
    {
      var r := records[i];
      forall k {
        TallySnoc(records, i, ByKol, k);
      }
      if r.return1d.Some? {
        if r.kol !in stats {
          EmptyTally(records[..i], ByKol, r.kol);
        }
        var before := if r.kol in stats then stats[r.kol] else Fresh;
        stats := stats[r.kol := Count(before, r)];
      }
      i := i + 1;
    }
    assert records[..i] == records;
  }

  /** get_kol_performance_stats: the counting pass, then the accuracy pass
      over every KOL seen. */
  method GetKolPerformanceStats(records: seq<Record>) returns (stats: map<string, Stats>)
    ensures forall k :: k in stats <==> Tally(records, ByKol, k).total > 0
    ensures forall k :: k in stats ==> stats[k] == WithAccuracy(Tally(records, ByKol, k))
  {
    stats := CountPerKol(records);
    var pending := stats.Keys;
    ghost var keys := stats.Keys;
    while pending != {}
      invariant pending <= keys && stats.Keys == keys
      invariant forall k :: k in stats ==>
        stats[k] == if k in pending then Tally(records, ByKol, k) else WithAccuracy(Tally(records, ByKol, k))
      decreases |pending|
    {
      var k :| k in pending;
      stats := stats[k := WithAccuracy(stats[k])];
      pending := pending - {k};
    }
  }

  /** The three label buckets. */
  const Labels: set<string> := {"positive", "negative", "neutral"}

  /** The counting pass of analyze_sentiment_accuracy: the three buckets,
      always all present, filled from the records with a 1-day return and a
      recognised label. */
  method CountPerLabel(records: seq<Record>) returns (buckets: map<string, Stats>)
    ensures buckets.Keys == Labels
    ensures forall l :: l in buckets ==> buckets[l] == Tally(records, ByLabel, l)
  {
    buckets := map["positive" := Fresh, "negative" := Fresh, "neutral" := Fresh];
    var i := 0;
    while i < |records|
      invariant i <= |records| && buckets.Keys == Labels
      invariant forall l :: l in buckets ==> buckets[l] == Tally(records[..i], ByLabel, l)
    {
      var r := records[i];
      forall l | l in Labels {
        TallySnoc(records, i, ByLabel, l);
      }
      if r.return1d.Some? {
        var tag := Lower(r.sentiment);
        if tag in buckets {
          buckets := buckets[tag := Count(buckets[tag], r)];
        }
      }
      i := i + 1;
    }
    assert records[..i] == records;
  }

  /** analyze_sentiment_accuracy: the counting pass, then the accuracy pass
      over the three buckets. */
  method AnalyzeSentimentAccuracy(records: seq<Record>) returns (buckets: map<string, Stats>)
    ensures buckets.Keys == Labels
    ensures forall l :: l in buckets ==> buckets[l] == WithAccuracy(Tally(records, ByLabel, l))
  {
    buckets := CountPerLabel(records);
    var pending := buckets.Keys;
    while pending != {}
      invariant pending <= Labels && buckets.Keys == Labels
      invariant forall l :: l in buckets ==>
        buckets[l] == if l in pending then Tally(records, ByLabel, l) else WithAccuracy(Tally(records, ByLabel, l))
      decreases |pending|
    {
      var l :| l in pending;
      buckets := buckets[l := WithAccuracy(buckets[l])];
      pending := pending - {l};
    }
  }
}
