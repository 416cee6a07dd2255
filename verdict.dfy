/** printFinalVerdict (src/bench.ts:249-318): the numbers behind the
    aggregate report. Per engine, the averages of its rows and the weighted
    quality, performance and combined scores; per dataset, the best
    hybrid+rerank row by NDCG@5; and the final ranking of the engines by
    combined score. The console output itself is not modelled. */
module Verdict {
  import opened Common
  import opened Bench
  import Metrics
  import Sorting

  // ---------------------------------------------------------------- collections

  /** `[...new Set(s)]`: the elements of s without repeats, in order of
      first appearance. */
  function Unique<T(==,!new)>(s: seq<T>): (u: seq<T>)
    ensures Distinct(u)
    ensures forall x :: x in u <==> x in s
  {
    if s == [] then []
    else
      var init, last := s[..|s| - 1], s[|s| - 1];
      assert s == init + [last];
      var u := Unique(init);
      if last in u then u else u + [last]
  }

  /** A longer input only adds names at the end: the names of a prefix of s
      are a prefix of the names of s, so they come in order of first
      appearance. */
  lemma {:induction false} UniquePrefix<T(!new)>(s: seq<T>, n: nat)
    requires n <= |s|
    ensures Unique(s[..n]) <= Unique(s)
    decreases |s| - n
  {
    if n == |s| {
      assert s[..n] == s;
    } else {
      UniquePrefix(s, n + 1);
      assert s[..n + 1][..n] == s[..n];
    }
  }

  /** `s.filter(keep)`: the elements kept, in their order. */
  function Filter<T(!new)>(s: seq<T>, keep: T -> bool): (r: seq<T>)
    ensures |r| <= |s|
    ensures forall x :: x in r <==> x in s && keep(x)
  {
    if s == [] then []
    else
      var init, last := s[..|s| - 1], s[|s| - 1];
      assert s == init + [last];
      Filter(init, keep) + (if keep(last) then [last] else [])
  }

  /** `results.map(r => r.engine)`. */
  function EngineColumn(results: seq<BenchmarkResult>): (c: seq<string>)
    ensures |c| == |results| && forall i :: 0 <= i < |results| ==> c[i] == results[i].engine
  {
    Map(results, (r: BenchmarkResult) => r.engine)
  }

  /** `results.map(r => r.dataset)`. */
  function DatasetColumn(results: seq<BenchmarkResult>): (c: seq<string>)
    ensures |c| == |results| && forall i :: 0 <= i < |results| ==> c[i] == results[i].dataset
  {
    Map(results, (r: BenchmarkResult) => r.dataset)
  }

  /** The engines of the report, each once, in order of first appearance. */
  function EngineNames(results: seq<BenchmarkResult>): seq<string> {
    Unique(EngineColumn(results))
  }

  function DatasetNames(results: seq<BenchmarkResult>): seq<string> {
    Unique(DatasetColumn(results))
  }

  /** `results.filter(r => r.engine === engine)`. */
  function RowsOfEngine(results: seq<BenchmarkResult>, engine: string): (rows: seq<BenchmarkResult>)
    ensures engine in EngineNames(results) ==> |rows| > 0
    ensures forall r :: r in rows <==> r in results && r.engine == engine
  {
    EngineHasRows(results, engine);
    Filter(results, (r: BenchmarkResult) => r.engine == engine)
  }

  lemma EngineHasRows(results: seq<BenchmarkResult>, engine: string)
    ensures engine in EngineNames(results) ==>
      |Filter(results, (r: BenchmarkResult) => r.engine == engine)| > 0
  {
    if engine in EngineNames(results) {
      var i :| 0 <= i < |results| && EngineColumn(results)[i] == engine;
      assert results[i] in Filter(results, (r: BenchmarkResult) => r.engine == engine);
    }
  }

  // ---------------------------------------------------------------- scores

  /** The averages printFinalVerdict takes over an engine's rows. */
  datatype Averages = Averages(precision: real, recall: real, mrr: real, ndcg: real, latency: real, indexing: real)

  /** The columns printFinalVerdict averages. */
  function PrecisionOf(m: Scores): real { m.precisionAt5 }
  function RecallOf(m: Scores): real { m.recallAt5 }
  function MrrOf(m: Scores): real { m.mrr }
  function NdcgOf(m: Scores): real { m.ndcgAt5 }
  function LatencyOf(m: Scores): real { m.avgLatencyMs }
  function IndexingOf(m: Scores): real { m.indexingTimeMs }

  function Column(rows: seq<BenchmarkResult>, f: Scores -> real): (c: seq<real>)
    ensures |c| == |rows| && forall i :: 0 <= i < |rows| ==> c[i] == f(rows[i].metrics)
  {
    Map(rows, (r: BenchmarkResult) => f(r.metrics))
  }

  /** The six averages of an engine's rows; a single row averages to its own
      metrics. */
  function Aggregate(rows: seq<BenchmarkResult>): (a: Averages)
    requires |rows| > 0
    ensures |rows| == 1 ==>
      var m := rows[0].metrics;
      a == Averages(m.precisionAt5, m.recallAt5, m.mrr, m.ndcgAt5, m.avgLatencyMs, m.indexingTimeMs)
  {
    Metrics.AvgOne(Column(rows, PrecisionOf));
    Metrics.AvgOne(Column(rows, RecallOf));
    Metrics.AvgOne(Column(rows, MrrOf));
    Metrics.AvgOne(Column(rows, NdcgOf));
    Metrics.AvgOne(Column(rows, LatencyOf));
    Metrics.AvgOne(Column(rows, IndexingOf));
    Averages(
      Metrics.Avg(Column(rows, PrecisionOf)),
      Metrics.Avg(Column(rows, RecallOf)),
      Metrics.Avg(Column(rows, MrrOf)),
      Metrics.Avg(Column(rows, NdcgOf)),
      Metrics.Avg(Column(rows, LatencyOf)),
      Metrics.Avg(Column(rows, IndexingOf)))
  }

  /** Each average lies within the bounds its rows keep. */
  lemma AggregateInRange(rows: seq<BenchmarkResult>, disc: nat -> real)
    requires |rows| > 0
    requires forall i :: 0 <= i < |rows| ==> ScoresInRange(rows[i].metrics, disc)
    ensures var a := Aggregate(rows);
      && 0.0 <= a.precision <= 1.0 && 0.0 <= a.recall && 0.0 <= a.mrr <= 1.0
      && 0.0 <= a.latency
      && (Metrics.DiscountValid(disc) ==> 0.0 <= a.ndcg)
  {
    Metrics.AvgWithin(Column(rows, PrecisionOf), 0.0, 1.0);
    Metrics.AvgWithin(Column(rows, RecallOf), 0.0, 1.0);
    Metrics.AvgWithin(Column(rows, MrrOf), 0.0, 1.0);
    Metrics.AvgWithin(Column(rows, LatencyOf), 0.0, 1.0);
    if Metrics.DiscountValid(disc) {
      Metrics.AvgWithin(Column(rows, NdcgOf), 0.0, 1.0);
    }
  }

  /** Quality: MRR 30%, NDCG 30%, recall 20%, precision 20%. The weights sum
      to one: four equal averages give that value back. */
  function Quality(a: Averages): (q: real)
    ensures a.mrr == a.ndcg == a.recall == a.precision ==> q == a.mrr
  {
    a.mrr * 0.3 + a.ndcg * 0.3 + a.recall * 0.2 + a.precision * 0.2
  }

  /** The weights sum to one: the quality lies between the lowest and the
      highest of the four averages it weighs. */
  lemma QualityBetween(a: Averages, lo: real, hi: real)
    requires lo <= a.mrr <= hi && lo <= a.ndcg <= hi && lo <= a.recall <= hi && lo <= a.precision <= hi
    ensures lo <= Quality(a) <= hi
  {
  }

  /** Performance: 1 / (1 + latency / 100). */
  function Perf(latency: real): (p: real)
    requires 0.0 <= latency
    ensures 0.0 < p <= 1.0
    ensures latency == 0.0 <==> p == 1.0
  {
    var d := 1.0 + latency / 100.0;
    assert 1.0 / d * d == 1.0;
    1.0 / d
  }

  /** A slower engine gets a strictly lower performance score. */
  lemma PerfDecreasing(fast: real, slow: real)
    requires 0.0 <= fast < slow
    ensures Perf(slow) < Perf(fast)
  {
    ReciprocalOrder(1.0 + fast / 100.0, 1.0 + slow / 100.0);
  }

  /** Combined: quality 70%, performance 30%. The weights sum to one: equal
      scores give that score back, and scores in [0, 1] with a positive
      performance combine into (0, 1]. */
  function Combined(quality: real, perf: real): (c: real)
    ensures quality == perf ==> c == quality
    ensures 0.0 <= quality <= 1.0 && 0.0 < perf <= 1.0 ==> 0.0 < c <= 1.0
  {
    quality * 0.7 + perf * 0.3
  }

  /** One engine's block of the report. */
  datatype EngineSummary = EngineSummary(engine: string, averages: Averages, quality: real, perf: real, combined: real)

  /** The rows' averages and the scores derived from them. */
  predicate Summarizes(s: EngineSummary, rows: seq<BenchmarkResult>)
    requires |rows| > 0 && 0.0 <= Aggregate(rows).latency
  {
    && s.averages == Aggregate(rows)
    && s.quality == Quality(s.averages)
    && s.perf == Perf(s.averages.latency)
    && s.combined == Combined(s.quality, s.perf)
  }

  /** Every row's average latency is non-negative, as runSearchMethod's are. */
  predicate Timed(results: seq<BenchmarkResult>) {
    forall i :: 0 <= i < |results| ==> 0.0 <= results[i].metrics.avgLatencyMs
  }

  lemma TimedAverage(results: seq<BenchmarkResult>, engine: string)
    requires Timed(results) && engine in EngineNames(results)
    ensures 0.0 <= Aggregate(RowsOfEngine(results, engine)).latency
  {
    var rows := RowsOfEngine(results, engine);
    var c := Column(rows, LatencyOf);
    forall i | 0 <= i < |c|
      ensures 0.0 <= c[i]
    {
      assert rows[i] in results;
    }
  }

  /** The block of the report for one engine. */
  function Summary(results: seq<BenchmarkResult>, engine: string): (s: EngineSummary)
    requires Timed(results) && engine in EngineNames(results)
    ensures s.engine == engine
    ensures 0.0 <= Aggregate(RowsOfEngine(results, engine)).latency
    ensures Summarizes(s, RowsOfEngine(results, engine))
    ensures 0.0 < s.perf <= 1.0
  {
    TimedAverage(results, engine);
    var a := Aggregate(RowsOfEngine(results, engine));
    var q, p := Quality(a), Perf(a.latency);
    EngineSummary(engine, a, q, p, Combined(q, p))
  }

  /** The row bounds runSearchMethod keeps, with recall at most 1 (distinct
      retrieved ids) and NDCG@5 in [0, 1] (a valid discount). */
  predicate Bounded(m: Scores) {
    && 0.0 <= m.precisionAt5 <= 1.0
    && 0.0 <= m.recallAt5 <= 1.0
    && 0.0 <= m.mrr <= 1.0
    && 0.0 <= m.ndcgAt5 <= 1.0
    && 0.0 <= m.avgLatencyMs
    && 0.0 <= m.p95LatencyMs
  }

  lemma AggregateBounded(rows: seq<BenchmarkResult>)
    requires |rows| > 0
    requires forall i :: 0 <= i < |rows| ==> Bounded(rows[i].metrics)
    ensures var a := Aggregate(rows);
      && 0.0 <= a.precision <= 1.0 && 0.0 <= a.recall <= 1.0 && 0.0 <= a.mrr <= 1.0
      && 0.0 <= a.ndcg <= 1.0 && 0.0 <= a.latency
  {
    Metrics.AvgWithin(Column(rows, PrecisionOf), 0.0, 1.0);
    Metrics.AvgWithin(Column(rows, RecallOf), 0.0, 1.0);
    Metrics.AvgWithin(Column(rows, MrrOf), 0.0, 1.0);
    Metrics.AvgWithin(Column(rows, NdcgOf), 0.0, 1.0);
    Metrics.AvgWithin(Column(rows, LatencyOf), 0.0, 1.0);
  }

  /** When the rows keep those bounds, every score of an engine's block lies
      in [0, 1], the performance and combined scores above 0. */
  lemma SummaryInRange(results: seq<BenchmarkResult>, engine: string)
    requires engine in EngineNames(results)
    requires forall i :: 0 <= i < |results| ==> Bounded(results[i].metrics)
    ensures Timed(results)
    ensures var s := Summary(results, engine);
      0.0 <= s.quality <= 1.0 && 0.0 < s.perf <= 1.0 && 0.0 < s.combined <= 1.0
  {
    var rows := RowsOfEngine(results, engine);
    forall i | 0 <= i < |rows|
      ensures Bounded(rows[i].metrics)
    {
      assert rows[i] in results;
    }
    AggregateBounded(rows);
    QualityBetween(Aggregate(rows), 0.0, 1.0);
  }

  // ---------------------------------------------------------------- best hybrid+rerank

  /** The winner printed for one dataset. */
  datatype Best = Best(dataset: string, row: BenchmarkResult)

  function NdcgKey(r: BenchmarkResult): real {
    r.metrics.ndcgAt5
  }

  /** `results.filter(r => r.dataset === ds && r.method === "hybrid+rerank")`. */
  function HybridRerankRows(results: seq<BenchmarkResult>, ds: string): (rows: seq<BenchmarkResult>)
    ensures forall r :: r in rows <==> r in results && r.dataset == ds && r.searchMethod == HybridRerank
  {
    Filter(results, (r: BenchmarkResult) => r.dataset == ds && r.searchMethod == HybridRerank)
  }

  /** The winners of the first n datasets; a dataset without hybrid+rerank
      rows is skipped. */
  function BestOf(results: seq<BenchmarkResult>, datasets: seq<string>, n: nat): seq<Best>
    requires n <= |datasets|
  {
    if n == 0 then []
    else
      var hr := HybridRerankRows(results, datasets[n - 1]);
      BestOf(results, datasets, n - 1)
        + (if |hr| == 0 then [] else [Best(datasets[n - 1], Sorting.SortDesc(hr, NdcgKey)[0])])
  }

  /** What a winner is: a hybrid+rerank row of its dataset with the highest
      NDCG@5 among them, and the first such row when several tie. */
  ghost predicate IsBest(results: seq<BenchmarkResult>, b: Best) {
    var hr := HybridRerankRows(results, b.dataset);
    exists m :: 0 <= m < |hr| && hr[m] == b.row
      && (forall i :: 0 <= i < |hr| ==> NdcgKey(hr[i]) <= NdcgKey(b.row))
      && (forall i :: 0 <= i < m ==> NdcgKey(hr[i]) < NdcgKey(b.row))
  }

  /** A winner: a hybrid+rerank row of the report for its dataset, and the best one. */
  ghost predicate Winner(results: seq<BenchmarkResult>, b: Best) {
    && b.row in results && b.row.dataset == b.dataset && b.row.searchMethod == HybridRerank
    && IsBest(results, b)
  }

  ghost predicate HasHybridRerank(results: seq<BenchmarkResult>, ds: string) {
    exists r :: r in results && r.dataset == ds && r.searchMethod == HybridRerank
  }

  /** One dataset: it has a winner exactly when it has hybrid+rerank rows,
      and the head of the sorted rows is the winner. */
  lemma DatasetWinner(results: seq<BenchmarkResult>, ds: string)
    ensures var hr := HybridRerankRows(results, ds);
      && (|hr| > 0 <==> HasHybridRerank(results, ds))
      && (|hr| > 0 ==> Winner(results, Best(ds, Sorting.SortDesc(hr, NdcgKey)[0])))
  {
    var hr := HybridRerankRows(results, ds);
    if |hr| > 0 {
      assert hr[0] in hr;
      var b := Best(ds, Sorting.SortDesc(hr, NdcgKey)[0]);
      Sorting.SortDescHead(hr, NdcgKey);
      var m := Sorting.FirstMax(hr, NdcgKey);
      assert hr[m] == b.row && hr[m] in hr;
    }
  }

  /** Every winner listed is the best hybrid+rerank row of its dataset. */
  lemma {:induction false} BestOfWinners(results: seq<BenchmarkResult>, datasets: seq<string>, n: nat)
    requires n <= |datasets|
    ensures forall b :: b in BestOf(results, datasets, n) ==> Winner(results, b)
  {
    if n > 0 {
      BestOfWinners(results, datasets, n - 1);
      var ds := datasets[n - 1];
      var hr := HybridRerankRows(results, ds);
      BestOfNext(results, datasets, n - 1, hr);
      DatasetWinner(results, ds);
      forall b | b in BestOf(results, datasets, n)
        ensures Winner(results, b)
      {
        if b !in BestOf(results, datasets, n - 1) {
          assert b == Best(ds, Sorting.SortDesc(hr, NdcgKey)[0]);
        }
      }
    }
  }

  /** The datasets of a list of winners, in order. */
  function Listed(best: seq<Best>): (ds: seq<string>)
    ensures |ds| == |best| && forall i :: 0 <= i < |best| ==> ds[i] == best[i].dataset
  {
    Map(best, (b: Best) => b.dataset)
  }

  /** The datasets listed are exactly those of the first n that have
      hybrid+rerank rows, in their order; the others are skipped. */
  lemma {:induction false} BestOfDatasets(results: seq<BenchmarkResult>, datasets: seq<string>, n: nat)
    requires n <= |datasets|
    ensures forall ds :: ds in Listed(BestOf(results, datasets, n)) <==>
      ds in datasets[..n] && HasHybridRerank(results, ds)
  {
    if n > 0 {
      BestOfDatasets(results, datasets, n - 1);
      var ds := datasets[n - 1];
      var hr := HybridRerankRows(results, ds);
      BestOfNext(results, datasets, n - 1, hr);
      DatasetWinner(results, ds);
      var before, after := Listed(BestOf(results, datasets, n - 1)), Listed(BestOf(results, datasets, n));
      assert after == before + (if |hr| == 0 then [] else [ds]);
      PrefixMembers(datasets, n);
      forall d
        ensures d in after <==> d in datasets[..n] && HasHybridRerank(results, d)
      {
        assert d in after <==> d in before || (|hr| > 0 && d == ds);
      }
    }
  }

  lemma PrefixMembers<T>(s: seq<T>, n: nat)
    requires 0 < n <= |s|
    ensures forall x :: x in s[..n] <==> x in s[..n - 1] || x == s[n - 1]
  {
    assert s[..n] == s[..n - 1] + [s[n - 1]];
  }

  // ---------------------------------------------------------------- ranking

  /** An entry of `engineScores`. */
  datatype Ranked = Ranked(engine: string, score: real)

  function RankKey(r: Ranked): real {
    r.score
  }

  /** `engines.map(...)`: each engine with its combined score, in engine order. */
  function EngineScores(results: seq<BenchmarkResult>): (es: seq<Ranked>)
    requires Timed(results)
    ensures |es| == |EngineNames(results)|
    ensures forall i :: 0 <= i < |es| ==> es[i].engine == EngineNames(results)[i]
  {
    var names := EngineNames(results);
    seq(|names|, i requires 0 <= i < |names| => Ranked(names[i], Summary(results, names[i]).combined))
  }

  /** `engineScores.sort((a, b) => b.score - a.score)`. */
  function Ranking(results: seq<BenchmarkResult>): (r: seq<Ranked>)
    requires Timed(results)
    ensures |r| == |EngineNames(results)|
    ensures multiset(r) == multiset(EngineScores(results))
    ensures Sorting.SortedDesc(r, RankKey)
  {
    Sorting.SortDesc(EngineScores(results), RankKey)
  }

  /** Position of an engine in the report's engine order. */
  ghost function Position(names: seq<string>, engine: string): int {
    if engine in names then
      var i :| 0 <= i < |names| && names[i] == engine; i
    else -1
  }

  /** The ranking lists every engine once, with the combined score of its
      block; it is non-increasing by score, and engines with equal scores
      keep their order of first appearance. */
  lemma RankingFacts(results: seq<BenchmarkResult>)
    requires Timed(results)
    ensures var ranking, names := Ranking(results), EngineNames(results);
      && |ranking| == |names|
      && multiset(ranking) == multiset(EngineScores(results))
      && (forall e :: e in ranking ==> e.engine in names && e.score == Summary(results, e.engine).combined)
      && (forall e :: e in names ==> exists r :: r in ranking && r.engine == e)
      && Sorting.LexSorted(ranking, RankKey, (r: Ranked) => Position(names, r.engine))
  {
    RankingOrdered(results);
    RankingMembers(results);
    RankingComplete(results);
  }

  /** The ranking is a permutation of the engine scores, sorted by score and,
      among equal scores, by position in the report's engine order. */
  lemma RankingOrdered(results: seq<BenchmarkResult>)
    requires Timed(results)
    ensures var ranking, names := Ranking(results), EngineNames(results);
      && multiset(ranking) == multiset(EngineScores(results))
      && Sorting.LexSorted(ranking, RankKey, (r: Ranked) => Position(names, r.engine))
  {
    var names, es := EngineNames(results), EngineScores(results);
    var pos := (r: Ranked) => Position(names, r.engine);
    forall i, j | 0 <= i < j < |es|
      ensures pos(es[i]) < pos(es[j])
    {
      PositionOf(names, i);
      PositionOf(names, j);
    }
    Sorting.SortDescStable(es, RankKey, pos);
  }

  /** The ranking holds only engines of the report, one entry per engine,
      each with its combined score. */
  lemma RankingMembers(results: seq<BenchmarkResult>)
    requires Timed(results)
    requires multiset(Ranking(results)) == multiset(EngineScores(results))
    ensures var ranking, names := Ranking(results), EngineNames(results);
      && |ranking| == |names|
      && (forall e :: e in ranking ==> e.engine in names && e.score == Summary(results, e.engine).combined)
  {
    var names, es := EngineNames(results), EngineScores(results);
    var ranking := Ranking(results);
    assert |ranking| == |multiset(ranking)| == |multiset(es)| == |es|;
    forall e | e in ranking
      ensures e.engine in names && e.score == Summary(results, e.engine).combined
    {
      assert e in multiset(es);
    }
  }

  /** Every engine of the report appears in the ranking. */
  lemma RankingComplete(results: seq<BenchmarkResult>)
    requires Timed(results)
    requires multiset(Ranking(results)) == multiset(EngineScores(results))
    ensures forall e :: e in EngineNames(results) ==> exists r :: r in Ranking(results) && r.engine == e
  {
    var names, es := EngineNames(results), EngineScores(results);
    var ranking := Ranking(results);
    forall e | e in names
      ensures exists r :: r in ranking && r.engine == e
    {
      var i :| 0 <= i < |names| && names[i] == e;
      assert es[i] in multiset(ranking);
    }
  }

  lemma PositionOf(names: seq<string>, i: nat)
    requires i < |names| && Distinct(names)
    ensures Position(names, names[i]) == i
  {
  }

  // ---------------------------------------------------------------- the report

  datatype Report = Report(summaries: seq<EngineSummary>, best: seq<Best>, ranking: seq<Ranked>)

  /** printFinalVerdict (src/bench.ts:249-318): a block per engine in order
      of first appearance, the winner of every dataset that has
      hybrid+rerank rows, and the ranking. */
  method FinalVerdict(results: seq<BenchmarkResult>) returns (report: Report)
    requires Timed(results)
    ensures |report.summaries| == |EngineNames(results)|
    ensures forall i :: 0 <= i < |report.summaries| ==>
      report.summaries[i] == Summary(results, EngineNames(results)[i])
    ensures report.best == BestOf(results, DatasetNames(results), |DatasetNames(results)|)
    ensures report.ranking == Ranking(results)
  {
    var summaries := EngineSummaries(results);
    var best := BestPerDataset(results);
    report := Report(summaries, best, Ranking(results));
  }

  /** The per-engine loop of printFinalVerdict (src/bench.ts:258-282). */
  method EngineSummaries(results: seq<BenchmarkResult>) returns (summaries: seq<EngineSummary>)
    requires Timed(results)
    ensures |summaries| == |EngineNames(results)|
    ensures forall i :: 0 <= i < |summaries| ==> summaries[i] == Summary(results, EngineNames(results)[i])
  {
    var engines := EngineNames(results);
    summaries := Collect(engines, (e: string) requires Timed(results) && e in EngineNames(results) => Summary(results, e));
  }

  /** `f` applied to each of `xs` in turn. */
  method Collect<A, B>(xs: seq<A>, f: A --> B) returns (ys: seq<B>)
    requires forall x :: x in xs ==> f.requires(x)
    ensures |ys| == |xs|
    ensures forall i :: 0 <= i < |xs| ==> ys[i] == f(xs[i])
  {
    ys := [];
    for i := 0 to |xs|
      invariant |ys| == i
      invariant forall k :: 0 <= k < i ==> ys[k] == f(xs[k])
    {
      ys := ys + [f(xs[i])];
    }
  }

  /** The per-dataset loop of printFinalVerdict (src/bench.ts:284-297). */
  method BestPerDataset(results: seq<BenchmarkResult>) returns (best: seq<Best>)
    ensures best == BestOf(results, DatasetNames(results), |DatasetNames(results)|)
  {
    var datasets := DatasetNames(results);
    best := [];
    for i := 0 to |datasets|
      invariant best == BestOf(results, datasets, i)
    {
      var ds := datasets[i];
      var hrResults := HybridRerankRows(results, ds);
      BestOfNext(results, datasets, i, hrResults);
      if |hrResults| == 0 {
        continue;
      }
      var sorted := Sorting.SortDesc(hrResults, NdcgKey);
      best := best + [Best(ds, sorted[0])];
    }
  }

  lemma BestOfNext(results: seq<BenchmarkResult>, datasets: seq<string>, i: nat, hr: seq<BenchmarkResult>)
    requires i < |datasets| && hr == HybridRerankRows(results, datasets[i])
    ensures |hr| == 0 ==> BestOf(results, datasets, i + 1) == BestOf(results, datasets, i)
    ensures |hr| > 0 ==>
      BestOf(results, datasets, i + 1) == BestOf(results, datasets, i) + [Best(datasets[i], Sorting.SortDesc(hr, NdcgKey)[0])]
  {
  }

  /** Whatever main hands to printFinalVerdict meets its requirement. */
  lemma MainRowsTimed(env: Environment, datasets: seq<Dataset>)
    requires HasQueries(datasets) && AllRows(env, datasets).Ok?
    ensures Timed(AllRows(env, datasets).value)
  {
    AllRowsWellFormed(env, datasets);
  }
}
