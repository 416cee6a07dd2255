/** The benchmark runner (src/bench.ts:58-221): one search method over every
    query of a dataset, the four methods over one engine, and the main loop
    over datasets and engines.

    Databases, the scoring services and the clock are inputs. An engine is
    the answers its calls give (results, or the error they throw) once it
    has been initialised. The embedding and rerank services are scripted
    replies numbered by request. The clock is the given durations of the
    stretches the runner times. */
module Bench {
  import opened Common
  import Metrics
  import Embeddings
  import Sorting

  const TOP_K: nat := 5

  datatype SearchMethod = Vector | Fts | Hybrid | HybridRerank

  /** The order benchmarkEngine runs the methods in. */
  const METHODS: seq<SearchMethod> := [Vector, Fts, Hybrid, HybridRerank]

  /** A duration in milliseconds. */
  type Millis = t: real | 0.0 <= t

  /** The `metrics` record of a BenchmarkResult. */
  datatype Scores = Scores(
    precisionAt5: real, recallAt5: real, mrr: real, ndcgAt5: real,
    avgLatencyMs: real, p95LatencyMs: real, indexingTimeMs: real)

  datatype BenchmarkResult = BenchmarkResult(engine: string, dataset: string, searchMethod: SearchMethod, metrics: Scores)

  /** A SearchEngine: the error `init` throws, if any, and the answers its
      searches give afterwards. An embedding argument is None where the
      source passes `undefined` (a query past the end of the embedding list). */
  datatype Engine = Engine(
    name: string,
    init: (seq<Document>, seq<Embedding>) -> Option<Error>,
    searchVector: (Option<Embedding>, nat) -> Result<seq<SearchResult>>,
    searchFTS: (string, nat) -> Result<seq<SearchResult>>,
    searchHybrid: (string, Option<Embedding>, nat) -> Result<seq<SearchResult>>,
    cleanup: Option<Error>)

  /** The two stretches of one query: from `start` to the end of the search
      call, and from there to the end of the method's branch (for
      hybrid+rerank: the document lookup and the rerank call). */
  datatype QueryTiming = QueryTiming(search: Millis, rest: Millis)

  /** `queryEmbeddings[i]`, None past the end. */
  function EmbeddingAt(queryEmbeddings: seq<Embedding>, i: nat): (e: Option<Embedding>)
    ensures e.Some? <==> i < |queryEmbeddings|
    ensures e.Some? ==> e.value == queryEmbeddings[i]
  {
    if i < |queryEmbeddings| then Some(queryEmbeddings[i]) else None
  }

  // ---------------------------------------------------------------- one query

  /** The position of the first document with this id
      (`dataset.documents.find(d => d.id === id)`), None when there is none. */
  function FindDocument(documents: seq<Document>, id: string): (r: Option<nat>)
    ensures r.Some? ==> r.value < |documents| && documents[r.value].id == id
    ensures r.Some? ==> forall j :: 0 <= j < r.value ==> documents[j].id != id
    ensures r.None? <==> forall j :: 0 <= j < |documents| ==> documents[j].id != id
  {
    if documents == [] then None
    else if documents[0].id == id then Some(0)
    else match FindDocument(documents[1..], id)
      case None => None
      case Some(j) => Some(j + 1)
  }

  /** The texts handed to the reranker: for each candidate the text of its
      document; the first candidate without a document throws. */
  function DocTexts(documents: seq<Document>, candidates: seq<SearchResult>): (r: Result<seq<string>>)
    ensures r.Ok? <==> forall j :: 0 <= j < |candidates| ==> FindDocument(documents, candidates[j].docId).Some?
    ensures r.Ok? ==> |r.value| == |candidates|
    ensures r.Ok? ==> forall j :: 0 <= j < |candidates| ==>
      r.value[j] == documents[FindDocument(documents, candidates[j].docId).value].text
    ensures r.Err? ==>
      r.error.MissingDocument? && r.error.id in Ids(candidates) && FindDocument(documents, r.error.id).None?
  {
    if candidates == [] then Ok([])
    else
      var last := candidates[|candidates| - 1];
      var before := DocTexts(documents, candidates[..|candidates| - 1]);
      assert Ids(candidates[..|candidates| - 1]) == Ids(candidates)[..|candidates| - 1];
      if before.Err? then before
      else match FindDocument(documents, last.docId)
        case None => Err(MissingDocument(last.docId))
        case Some(d) => Ok(before.value + [documents[d].text])
  }

  /** The reranked list mapped back onto the candidates: item j names the
      candidate at its index and carries its relevance score; an index
      outside the candidate list throws. */
  function RerankedResults(candidates: seq<SearchResult>, reranked: seq<Embeddings.RerankResult>)
    : (r: Result<seq<SearchResult>>)
    ensures r.Ok? <==> forall j :: 0 <= j < |reranked| ==> 0 <= reranked[j].index < |candidates|
    ensures r.Ok? ==> |r.value| == |reranked|
    ensures r.Ok? ==> forall j :: 0 <= j < |reranked| ==>
      && r.value[j].docId == candidates[reranked[j].index].docId
      && r.value[j].score == reranked[j].relevanceScore
    ensures r.Err? ==>
      r.error.IndexOutOfRange? && (r.error.index < 0 || |candidates| <= r.error.index)
  {
    if reranked == [] then Ok([])
    else
      var last := reranked[|reranked| - 1];
      var before := RerankedResults(candidates, reranked[..|reranked| - 1]);
      if before.Err? then before
      else if 0 <= last.index < |candidates| then
        Ok(before.value + [SearchResult(candidates[last.index].docId, last.relevanceScore)])
      else Err(IndexOutOfRange(last.index))
  }

  /** Every reranked result is one of the candidates, and the reranker's
      descending order carries over to the scores. */
  lemma RerankedFromCandidates(candidates: seq<SearchResult>, reranked: seq<Embeddings.RerankResult>)
    requires RerankedResults(candidates, reranked).Ok?
    ensures var rs := RerankedResults(candidates, reranked).value;
      && (forall j :: 0 <= j < |rs| ==> rs[j].docId in Ids(candidates))
      && (Sorting.SortedDesc(reranked, Embeddings.Relevance) ==> Sorting.SortedDesc(rs, Score))
  {
    var rs := RerankedResults(candidates, reranked).value;
    forall j | 0 <= j < |rs| ensures rs[j].docId in Ids(candidates) {
      assert Ids(candidates)[reranked[j].index] == rs[j].docId;
    }
    if Sorting.SortedDesc(reranked, Embeddings.Relevance) {
      forall i, j | 0 <= i < j < |rs| ensures Score(rs[j]) <= Score(rs[i]) {
        assert Embeddings.Relevance(reranked[j]) <= Embeddings.Relevance(reranked[i]);
      }
    }
  }

  function Score(r: SearchResult): real {
    r.score
  }

  /** What one query's search branch ends with: the final results or the
      error it throws, and the number of the next rerank request. */
  datatype Retrieval = Retrieval(results: Result<seq<SearchResult>>, sent: nat)

  /** The search branch of one query: the plain methods ask the engine for
      TOP_K results; hybrid+rerank asks for TOP_K*3 hybrid candidates, looks
      up their texts, reranks them down to TOP_K and maps the reranked
      indices back onto the candidates. `sent` numbers the next rerank request. */
  function Retrieve(engine: Engine, documents: seq<Document>, kind: SearchMethod, q: Query,
                    qEmb: Option<Embedding>, reranker: Embeddings.RerankService, sent: nat): (r: Retrieval)
    ensures kind != HybridRerank ==> r.sent == sent
    ensures kind == HybridRerank && r.results.Ok? ==>
      var candidates := engine.searchHybrid(q.text, qEmb, TOP_K * 3);
      && candidates.Ok?
      && (forall j :: 0 <= j < |r.results.value| ==> r.results.value[j].docId in Ids(candidates.value))
      && Sorting.SortedDesc(r.results.value, Score)
  {
    match kind
    case Vector => Retrieval(engine.searchVector(qEmb, TOP_K), sent)
    case Fts => Retrieval(engine.searchFTS(q.text, TOP_K), sent)
    case Hybrid => Retrieval(engine.searchHybrid(q.text, qEmb, TOP_K), sent)
    case HybridRerank =>
      match engine.searchHybrid(q.text, qEmb, TOP_K * 3)
      case Err(e) => Retrieval(Err(e), sent)
      case Ok(candidates) =>
        match DocTexts(documents, candidates)
        case Err(e) => Retrieval(Err(e), sent)
        case Ok(texts) =>
          var o := Embeddings.Reranked(reranker, sent, q.text, texts, Some(TOP_K));
          match o.result
          case Err(e) => Retrieval(Err(e), sent + o.attempts)
          case Ok(reranked) =>
            var mapped := RerankedResults(candidates, reranked);
            if mapped.Ok? then
              RerankedFromCandidates(candidates, reranked);
              Retrieval(mapped, sent + o.attempts)
            else Retrieval(mapped, sent + o.attempts)
  }

  /** The latency a query records: for hybrid+rerank only the search, taken
      before the rerank call; otherwise the whole branch. */
  function Latency(kind: SearchMethod, t: QueryTiming): (l: Millis)
    ensures t.search <= l
    ensures l == t.search <==> kind == HybridRerank || t.rest == 0.0
  {
    if kind == HybridRerank then t.search else t.search + t.rest
  }

  /** The rerank call is not timed: for hybrid+rerank the latency does not
      depend on the stretch after the search, while for every other method a
      longer stretch gives a longer latency. */
  lemma RerankNotTimed(kind: SearchMethod, search: Millis, rest: Millis, rest': Millis)
    ensures kind == HybridRerank ==>
      Latency(kind, QueryTiming(search, rest)) == Latency(kind, QueryTiming(search, rest'))
    ensures kind != HybridRerank && rest < rest' ==>
      Latency(kind, QueryTiming(search, rest)) < Latency(kind, QueryTiming(search, rest'))
  {
  }

  // ---------------------------------------------------------------- one method

  /** The five accumulators of runSearchMethod. */
  datatype Samples = Samples(
    latencies: seq<real>, precisions: seq<real>, recalls: seq<real>, mrrs: seq<real>, ndcgs: seq<real>)

  /** One value per query in each accumulator. */
  predicate HasLength(s: Samples, n: nat) {
    && |s.latencies| == n && |s.precisions| == n && |s.recalls| == n
    && |s.mrrs| == n && |s.ndcgs| == n
  }

  /** Latencies are durations, precisions and reciprocal ranks lie in [0, 1]
      and recalls are not negative. */
  ghost predicate Bounds(s: Samples) {
    && (forall i :: 0 <= i < |s.latencies| ==> 0.0 <= s.latencies[i])
    && (forall i :: 0 <= i < |s.precisions| ==> 0.0 <= s.precisions[i] <= 1.0)
    && (forall i :: 0 <= i < |s.recalls| ==> 0.0 <= s.recalls[i])
    && (forall i :: 0 <= i < |s.mrrs| ==> 0.0 <= s.mrrs[i] <= 1.0)
  }

  /** No value is negative. */
  ghost predicate NonNegative(xs: seq<real>) {
    forall i :: 0 <= i < |xs| ==> 0.0 <= xs[i]
  }

  /** The bounds above and, under a valid discount, NDCG values that are not
      negative. */
  ghost predicate InRange(s: Samples, disc: nat -> real) {
    Bounds(s) && (Metrics.DiscountValid(disc) ==> NonNegative(s.ndcgs))
  }

  /** Precision, recall, reciprocal rank and NDCG of one query's results. */
  function QualityOf(retrieved: seq<string>, relevant: seq<string>, disc: nat -> real): (real, real, real, real) {
    (Metrics.PrecisionAtK(retrieved, relevant, TOP_K), Metrics.RecallAtK(retrieved, relevant, TOP_K),
     Metrics.ReciprocalRank(retrieved, relevant), Metrics.NdcgValue(Metrics.TopK(retrieved, TOP_K), relevant, TOP_K, disc))
  }

  /** The accumulators after one more query with this latency and these results. */
  function Record(s: Samples, latency: real, retrieved: seq<string>, relevant: seq<string>, disc: nat -> real): Samples {
    var (p, r, m, n) := QualityOf(retrieved, relevant, disc);
    Samples(s.latencies + [latency], s.precisions + [p], s.recalls + [r], s.mrrs + [m], s.ndcgs + [n])
  }

  /** What runSearchMethod is run on: the engine, the dataset, the method,
      the query embeddings, the durations of each query, the rerank service
      and the number of its first request, and the NDCG discount. */
  datatype Job = Job(
    engine: Engine, dataset: Dataset, kind: SearchMethod, queryEmbeddings: seq<Embedding>,
    timing: (SearchMethod, nat) -> QueryTiming, reranker: Embeddings.RerankService, first: nat, disc: nat -> real)

  /** The accumulators after the first n queries, or the error that stopped
      the run, and the number of the next rerank request. */
  datatype Progress = Progress(samples: Result<Samples>, sent: nat)

  /** The first n queries of runSearchMethod. */
  function Queries(job: Job, n: nat): (p: Progress)
    requires n <= |job.dataset.queries|
    ensures p.samples.Ok? ==> HasLength(p.samples.value, n) && InRange(p.samples.value, job.disc)
    decreases n, 1
  {
    if n == 0 then Progress(Ok(Samples([], [], [], [], [])), job.first)
    else AfterQuery(job, n - 1)
  }

  /** The first i queries and then query i: once a query has thrown, nothing
      more happens. */
  function AfterQuery(job: Job, i: nat): (p: Progress)
    requires i < |job.dataset.queries|
    ensures p.samples.Ok? ==> HasLength(p.samples.value, i + 1) && InRange(p.samples.value, job.disc)
    decreases i + 1, 0
  {
    var p := Queries(job, i);
    if p.samples.Err? then p
    else
      var q := job.dataset.queries[i];
      var got := Retrieve(job.engine, job.dataset.documents, job.kind, q, EmbeddingAt(job.queryEmbeddings, i), job.reranker, p.sent);
      match got.results
      case Err(e) => Progress(Err(e), got.sent)
      case Ok(results) =>
        RecordInRange(p.samples.value, Latency(job.kind, job.timing(job.kind, i)), Ids(results), q.relevantDocIds, job.disc);
        Progress(Ok(Record(p.samples.value, Latency(job.kind, job.timing(job.kind, i)), Ids(results), q.relevantDocIds, job.disc)), got.sent)
  }

  lemma RecordInRange(s: Samples, latency: Millis, retrieved: seq<string>, relevant: seq<string>, disc: nat -> real)
    requires InRange(s, disc)
    ensures InRange(Record(s, latency, retrieved, relevant, disc), disc)
  {
    Metrics.ReciprocalRankBounds(retrieved, relevant, 0);
    if Metrics.DiscountValid(disc) {
      Metrics.NdcgNonNegative(retrieved, relevant, TOP_K, disc);
    }
    var (p, r, m, n) := QualityOf(retrieved, relevant, disc);
    PushInRange(s, latency, p, r, m, n, disc);
  }

  lemma PushInRange(s: Samples, l: real, p: real, r: real, m: real, n: real, disc: nat -> real)
    requires InRange(s, disc) && 0.0 <= l && 0.0 <= p <= 1.0 && 0.0 <= r && 0.0 <= m <= 1.0
    requires Metrics.DiscountValid(disc) ==> 0.0 <= n
    ensures InRange(Samples(s.latencies + [l], s.precisions + [p], s.recalls + [r], s.mrrs + [m], s.ndcgs + [n]), disc)
  {
  }

  /** The first n recorded latencies are those Latency gives for queries 0 to n - 1. */
  ghost predicate LatenciesOf(job: Job, latencies: seq<real>, n: nat) {
    n <= |latencies| && forall i :: 0 <= i < n ==> latencies[i] == Latency(job.kind, job.timing(job.kind, i))
  }

  /** The latency query i records is the one Latency gives: for
      hybrid+rerank the search alone. */
  lemma {:induction false} QueriesLatencies(job: Job, n: nat)
    requires n <= |job.dataset.queries|
    ensures Queries(job, n).samples.Ok? ==> LatenciesOf(job, Queries(job, n).samples.value.latencies, n)
  {
    if n > 0 {
      QueriesLatencies(job, n - 1);
      LatenciesStep(job, n - 1, n);
    }
  }

  lemma LatenciesStep(job: Job, i: nat, next: nat)
    requires i < |job.dataset.queries| && next == i + 1
    requires Queries(job, i).samples.Ok? ==> LatenciesOf(job, Queries(job, i).samples.value.latencies, i)
    ensures Queries(job, next).samples.Ok? ==> LatenciesOf(job, Queries(job, next).samples.value.latencies, next)
  {
    assert Queries(job, next) == AfterQuery(job, i);
    LatencyPushed(job, i);
    if AfterQuery(job, i).samples.Ok? {
      LatenciesExtend(job, Queries(job, i).samples.value.latencies, AfterQuery(job, i).samples.value.latencies, next);
    }
  }

  lemma LatenciesExtend(job: Job, before: seq<real>, after: seq<real>, n: nat)
    requires 0 < n && LatenciesOf(job, before, n - 1) && |before| == n - 1
    requires after == before + [Latency(job.kind, job.timing(job.kind, n - 1))]
    ensures LatenciesOf(job, after, n)
  {
  }

  lemma LatencyPushed(job: Job, i: nat)
    requires i < |job.dataset.queries|
    ensures AfterQuery(job, i).samples.Ok? ==>
      && Queries(job, i).samples.Ok?
      && AfterQuery(job, i).samples.value.latencies
         == Queries(job, i).samples.value.latencies + [Latency(job.kind, job.timing(job.kind, i))]
  {
  }

  /** The plain methods send no rerank request. */
  lemma {:induction false} QueriesSendNothing(job: Job, n: nat)
    requires n <= |job.dataset.queries| && job.kind != HybridRerank
    ensures Queries(job, n).sent == job.first
  {
    if n > 0 {
      QueriesSendNothing(job, n - 1);
    }
  }

  /** Once a query has thrown, the later ones change nothing. */
  lemma {:induction false} QueriesStopped(job: Job, i: nat, n: nat)
    requires i <= n <= |job.dataset.queries|
    requires Queries(job, i).samples.Err?
    ensures Queries(job, n) == Queries(job, i)
    decreases n - i
  {
    if i < n {
      QueriesStopped(job, i, n - 1);
    }
  }

  /** The result row built from the accumulators (`avg` of each, `p95` of the latencies). */
  function Summarize(engineName: string, datasetName: string, kind: SearchMethod, s: Samples, indexingTime: real)
    : (row: BenchmarkResult)
    requires HasLength(s, |s.latencies|) && |s.latencies| > 0
    ensures row.engine == engineName && row.dataset == datasetName && row.searchMethod == kind
    ensures row.metrics.indexingTimeMs == indexingTime
    ensures Bounds(s) ==>
      && 0.0 <= row.metrics.precisionAt5 <= 1.0
      && 0.0 <= row.metrics.recallAt5
      && 0.0 <= row.metrics.mrr <= 1.0
      && 0.0 <= row.metrics.avgLatencyMs
      && 0.0 <= row.metrics.p95LatencyMs
    ensures NonNegative(s.ndcgs) ==> 0.0 <= row.metrics.ndcgAt5
  {
    AveragesInRange(s);
    BenchmarkResult(engineName, datasetName, kind, Scores(
      Metrics.Avg(s.precisions), Metrics.Avg(s.recalls), Metrics.Avg(s.mrrs), Metrics.Avg(s.ndcgs),
      Metrics.Avg(s.latencies), Metrics.P95(s.latencies), indexingTime))
  }

  /** Averages of in-range samples are in range; so is the 95th percentile
      latency, being one of the latencies. */
  lemma AveragesInRange(s: Samples)
    requires HasLength(s, |s.latencies|) && |s.latencies| > 0
    ensures Bounds(s) ==>
      && 0.0 <= Metrics.Avg(s.precisions) <= 1.0
      && 0.0 <= Metrics.Avg(s.recalls)
      && 0.0 <= Metrics.Avg(s.mrrs) <= 1.0
      && 0.0 <= Metrics.Avg(s.latencies)
      && 0.0 <= Metrics.P95(s.latencies)
    ensures NonNegative(s.ndcgs) ==> 0.0 <= Metrics.Avg(s.ndcgs)
  {
    if Bounds(s) {
      Metrics.AvgWithin(s.precisions, 0.0, 1.0);
      Metrics.AvgWithin(s.mrrs, 0.0, 1.0);
      Metrics.AvgWithin(s.recalls, 0.0, 0.0);
      Metrics.AvgWithin(s.latencies, 0.0, 0.0);
    }
  }

  /** What runSearchMethod returns (or throws), and the number of the next rerank request. */
  datatype MethodRun = MethodRun(result: Result<BenchmarkResult>, sent: nat)

  function MethodOutcome(job: Job, indexingTime: Millis): (m: MethodRun)
    requires |job.dataset.queries| > 0
  {
    var p := Queries(job, |job.dataset.queries|);
    match p.samples
    case Err(e) => MethodRun(Err(e), p.sent)
    case Ok(s) => MethodRun(Ok(Summarize(job.engine.name, job.dataset.name, job.kind, s, indexingTime)), p.sent)
  }

  /** A row runSearchMethod returns names its engine, dataset and method,
      carries the indexing time it was given, and has precision and MRR in
      [0, 1], recall and latencies not negative; the plain methods send no
      rerank request. */
  lemma MethodOutcomeInRange(job: Job, indexingTime: Millis)
    requires |job.dataset.queries| > 0
    ensures var m := MethodOutcome(job, indexingTime);
      && (m.result.Ok? ==> RowOf(m.result.value, job.engine, job.dataset, job.kind, indexingTime))
      && (m.result.Ok? ==> ScoresInRange(m.result.value.metrics, job.disc))
      && (job.kind != HybridRerank ==> m.sent == job.first)
  {
    if job.kind != HybridRerank {
      QueriesSendNothing(job, |job.dataset.queries|);
    }
  }

  /** The bounds every row's metrics keep: precision and MRR in [0, 1],
      recall and the latencies non-negative, and NDCG non-negative when
      the discount is valid. */
  ghost predicate ScoresInRange(m: Scores, disc: nat -> real) {
    && 0.0 <= m.precisionAt5 <= 1.0
    && 0.0 <= m.recallAt5
    && 0.0 <= m.mrr <= 1.0
    && 0.0 <= m.avgLatencyMs
    && 0.0 <= m.p95LatencyMs
    && (Metrics.DiscountValid(disc) ==> 0.0 <= m.ndcgAt5)
  }

  /** The row names this engine, dataset and method and carries this indexing time. */
  predicate RowOf(row: BenchmarkResult, engine: Engine, dataset: Dataset, kind: SearchMethod, indexingTime: real) {
    && row.engine == engine.name && row.dataset == dataset.name
    && row.searchMethod == kind && row.metrics.indexingTimeMs == indexingTime
  }

  /** runSearchMethod (src/bench.ts:58-132). `timing(kind, i)` gives the
      durations of query i, `first` numbers the first rerank request it may send, and
      the NDCG discount is `disc`. */
  method RunSearchMethod(engine: Engine, dataset: Dataset, kind: SearchMethod, queryEmbeddings: seq<Embedding>,
                         indexingTime: Millis, timing: (SearchMethod, nat) -> QueryTiming, reranker: Embeddings.RerankService,
                         first: nat, disc: nat -> real)
    returns (r: Result<BenchmarkResult>, sent: nat)
    requires |dataset.queries| > 0
    ensures MethodRun(r, sent)
      == MethodOutcome(Job(engine, dataset, kind, queryEmbeddings, timing, reranker, first, disc), indexingTime)
  {
    var job := Job(engine, dataset, kind, queryEmbeddings, timing, reranker, first, disc);
    var acc := Samples([], [], [], [], []);
    sent := first;
    var i := 0;
    while i < |dataset.queries|
      invariant 0 <= i <= |dataset.queries|
      invariant Queries(job, i) == Progress(Ok(acc), sent)
    {
      var next := i + 1;
      var p := RunQuery(job, i, next, acc, sent);
      if p.samples.Err? {
        QueriesStopped(job, next, |dataset.queries|);
        return Err(p.samples.error), p.sent;
      }
      acc, sent, i := p.samples.value, p.sent, next;
    }
    r := Ok(Summarize(engine.name, dataset.name, kind, acc, indexingTime));
  }

  /** The body of runSearchMethod's loop for query i: the search, then one
      push onto each of the five accumulators. */
  method RunQuery(job: Job, i: nat, next: nat, acc: Samples, sent: nat) returns (p: Progress)
    requires i < |job.dataset.queries| && next == i + 1
    requires Queries(job, i) == Progress(Ok(acc), sent)
    ensures p == Queries(job, next)
  {
    var q := job.dataset.queries[i];
    assert Queries(job, next) == AfterQuery(job, i);
    var got := Search(job.engine, job.dataset.documents, job.kind, q, EmbeddingAt(job.queryEmbeddings, i), job.reranker, sent);
    if got.results.Err? {
      return Progress(Err(got.results.error), got.sent);
    }
    var precision, recall, rr, ndcg := Measure(Ids(got.results.value), q.relevantDocIds, job.disc);
    p := Progress(Ok(Samples(
      acc.latencies + [Latency(job.kind, job.timing(job.kind, i))],
      acc.precisions + [precision],
      acc.recalls + [recall],
      acc.mrrs + [rr],
      acc.ndcgs + [ndcg])), got.sent);
    assert p == Progress(Ok(Record(acc, Latency(job.kind, job.timing(job.kind, i)), Ids(got.results.value), q.relevantDocIds, job.disc)), got.sent);
  }

  /** The four quality metrics of one query's results (src/bench.ts:111-115),
      computed by the metric methods: `Metrics.Mrr` and `Metrics.NdcgAtK` run
      the source's loops, where `QualityOf` states the same values through
      their specification functions. */
  method Measure(retrieved: seq<string>, relevant: seq<string>, disc: nat -> real)
    returns (precision: real, recall: real, rr: real, ndcg: real)
    ensures QualityOf(retrieved, relevant, disc) == (precision, recall, rr, ndcg)
  {
    precision := Metrics.PrecisionAtK(retrieved, relevant, TOP_K);
    recall := Metrics.RecallAtK(retrieved, relevant, TOP_K);
    rr := Metrics.Mrr(retrieved, relevant);
    ndcg := Metrics.NdcgAtK(retrieved, relevant, TOP_K, disc);
  }

  /** The search branch of runSearchMethod (src/bench.ts:72-103). */
  method Search(engine: Engine, documents: seq<Document>, kind: SearchMethod, q: Query,
                qEmb: Option<Embedding>, reranker: Embeddings.RerankService, first: nat)
    returns (r: Retrieval)
    ensures r == Retrieve(engine, documents, kind, q, qEmb, reranker, first)
  {
    match kind {
      case Vector =>
        r := Retrieval(engine.searchVector(qEmb, TOP_K), first);
      case Fts =>
        r := Retrieval(engine.searchFTS(q.text, TOP_K), first);
      case Hybrid =>
        r := Retrieval(engine.searchHybrid(q.text, qEmb, TOP_K), first);
      case HybridRerank =>
        var candidates := engine.searchHybrid(q.text, qEmb, TOP_K * 3);
        if candidates.Err? {
          return Retrieval(Err(candidates.error), first);
        }
        var docTexts := DocTexts(documents, candidates.value);
        if docTexts.Err? {
          return Retrieval(Err(docTexts.error), first);
        }
        var reranked, attempts, _ := Embeddings.Rerank(reranker, first, q.text, docTexts.value, Some(TOP_K));
        if reranked.Err? {
          return Retrieval(Err(reranked.error), first + attempts);
        }
        r := Retrieval(RerankedResults(candidates.value, reranked.value), first + attempts);
    }
  }

  // ---------------------------------------------------------------- one engine

  /** The durations the runner sees for one engine: its init, and each query
      of each method. */
  datatype EngineTiming = EngineTiming(indexing: Millis, queries: (SearchMethod, nat) -> QueryTiming)

  /** What benchmarkEngine is run on. Rerank requests are numbered from 0. */
  datatype Trial = Trial(
    engine: Engine, dataset: Dataset, docEmbeddings: seq<Embedding>, queryEmbeddings: seq<Embedding>,
    timing: EngineTiming, reranker: Embeddings.RerankService, disc: nat -> real)

  function JobFor(t: Trial, kind: SearchMethod, first: nat): Job {
    Job(t.engine, t.dataset, kind, t.queryEmbeddings, t.timing.queries, t.reranker, first, t.disc)
  }

  /** The rows of the first j methods, or the error that stopped the engine,
      and the number of the next rerank request. */
  datatype EngineRun = EngineRun(rows: Result<seq<BenchmarkResult>>, sent: nat)

  /** The first j methods of benchmarkEngine's loop, in METHODS order. */
  function Methods(t: Trial, j: nat): (e: EngineRun)
    requires j <= |METHODS| && |t.dataset.queries| > 0
    ensures e.rows.Ok? ==> |e.rows.value| == j
    decreases j, 1
  {
    if j == 0 then EngineRun(Ok([]), 0)
    else AfterMethod(t, j - 1)
  }

  /** The first j methods and then method j. */
  function AfterMethod(t: Trial, j: nat): (e: EngineRun)
    requires j < |METHODS| && |t.dataset.queries| > 0
    ensures e.rows.Ok? ==> |e.rows.value| == j + 1
    decreases j + 1, 0
  {
    var e := Methods(t, j);
    if e.rows.Err? then e
    else
      var m := MethodOutcome(JobFor(t, METHODS[j], e.sent), t.timing.indexing);
      match m.result
      case Err(err) => EngineRun(Err(err), m.sent)
      case Ok(row) => EngineRun(Ok(e.rows.value + [row]), m.sent)
  }

  /** Once a method has thrown, the later ones change nothing. */
  lemma {:induction false} MethodsStopped(t: Trial, j: nat, n: nat)
    requires j <= n <= |METHODS| && |t.dataset.queries| > 0
    requires Methods(t, j).rows.Err?
    ensures Methods(t, n) == Methods(t, j)
    decreases n - j
  {
    if j < n {
      MethodsStopped(t, j, n - 1);
    }
  }

  /** The method after j successful ones: its row is appended, or its
      error is the error of the whole loop. */
  lemma MethodsNext(t: Trial, j: nat, rows: seq<BenchmarkResult>, sent: nat, m: MethodRun)
    requires j < |METHODS| && |t.dataset.queries| > 0
    requires Methods(t, j) == EngineRun(Ok(rows), sent)
    requires m == MethodOutcome(JobFor(t, METHODS[j], sent), t.timing.indexing)
    ensures m.result.Ok? ==> Methods(t, j + 1) == EngineRun(Ok(rows + [m.result.value]), m.sent)
    ensures m.result.Err? ==> Methods(t, |METHODS|).rows == Err(m.result.error)
  {
    if m.result.Err? {
      MethodsStopped(t, j + 1, |METHODS|);
    }
  }

  /** benchmarkEngine's result: init's error, the first error of the four
      methods, cleanup's error, or the four rows. */
  function EngineRows(t: Trial): Result<seq<BenchmarkResult>>
    requires |t.dataset.queries| > 0
  {
    match t.engine.init(t.dataset.documents, t.docEmbeddings)
    case Some(err) => Err(err)
    case None =>
      var e := Methods(t, |METHODS|);
      if e.rows.Err? then e.rows
      else match t.engine.cleanup
        case Some(err) => Err(err)
        case None => e.rows
  }

  /** The row is what runSearchMethod gives for method m on its own, with
      rerank requests numbered from 0. */
  ghost predicate RowMatches(t: Trial, m: nat, row: BenchmarkResult)
    requires m < |METHODS| && |t.dataset.queries| > 0
  {
    MethodOutcome(JobFor(t, METHODS[m], 0), t.timing.indexing).result == Ok(row)
  }

  /** Up to method j, every row is exactly what runSearchMethod gives for
      its method on its own, with rerank requests numbered from 0: the plain
      methods before hybrid+rerank send no request. */
  lemma {:induction false} MethodsRows(t: Trial, j: nat)
    requires j <= |METHODS| && |t.dataset.queries| > 0
    ensures j < |METHODS| ==> Methods(t, j).sent == 0
    ensures var e := Methods(t, j);
      e.rows.Ok? ==> forall m :: 0 <= m < j ==> RowMatches(t, m, e.rows.value[m])
  {
    if j > 0 {
      MethodsRows(t, j - 1);
      MethodsRowsStep(t, j - 1);
      var e, after := Methods(t, j - 1), Methods(t, j);
      if after.rows.Ok? {
        forall m | 0 <= m < j
          ensures RowMatches(t, m, after.rows.value[m])
        {
          if m < j - 1 {
            assert after.rows.value[m] == e.rows.value[m];
          }
        }
      }
    }
  }

  /** One more method: the rows so far are kept and the new row matches. */
  lemma MethodsRowsStep(t: Trial, j: nat)
    requires j < |METHODS| && |t.dataset.queries| > 0
    requires Methods(t, j).sent == 0
    ensures j + 1 < |METHODS| ==> Methods(t, j + 1).sent == 0
    ensures var e, after := Methods(t, j), Methods(t, j + 1);
      after.rows.Ok? ==>
        && e.rows.Ok? && after.rows.value[..j] == e.rows.value
        && RowMatches(t, j, after.rows.value[j])
  {
    var e := Methods(t, j);
    assert Methods(t, j + 1) == AfterMethod(t, j);
    if e.rows.Ok? {
      MethodOutcomeInRange(JobFor(t, METHODS[j], 0), t.timing.indexing);
    }
  }

  /** benchmarkEngine returns exactly four rows, one per method in the order
      vector, fts, hybrid, hybrid+rerank, each naming the engine and the
      dataset, carrying the same indexing time, and each the row
      runSearchMethod gives for that method. */
  lemma EngineRowsShape(t: Trial)
    requires |t.dataset.queries| > 0
    ensures var r := EngineRows(t);
      r.Ok? ==>
        && RowsFor(r.value, t.engine, t.dataset, t.timing.indexing, t.disc)
        && (forall m :: 0 <= m < |METHODS| ==> RowMatches(t, m, r.value[m]))
  {
    var r := EngineRows(t);
    if r.Ok? {
      MethodsRows(t, |METHODS|);
      forall m | 0 <= m < |METHODS|
        ensures RowOf(r.value[m], t.engine, t.dataset, METHODS[m], t.timing.indexing)
        ensures ScoresInRange(r.value[m].metrics, t.disc)
      {
        assert RowMatches(t, m, r.value[m]);
        MethodOutcomeInRange(JobFor(t, METHODS[m], 0), t.timing.indexing);
      }
    }
  }

  /** One row per method, in METHODS order, for this engine and dataset. */
  ghost predicate RowsFor(rows: seq<BenchmarkResult>, engine: Engine, dataset: Dataset, indexingTime: real,
                         disc: nat -> real) {
    && |rows| == |METHODS|
    && forall m :: 0 <= m < |METHODS| ==>
         RowOf(rows[m], engine, dataset, METHODS[m], indexingTime) && ScoresInRange(rows[m].metrics, disc)
  }

  lemma RowsForInOrder(rows: seq<BenchmarkResult>, engine: Engine, dataset: Dataset, indexingTime: real,
                       disc: nat -> real)
    requires RowsFor(rows, engine, dataset, indexingTime, disc)
    ensures InMethodOrder(rows)
    ensures forall i :: 0 <= i < |rows| ==>
      rows[i].engine == engine.name && rows[i].dataset == dataset.name && ScoresInRange(rows[i].metrics, disc)
  {
    forall i | 0 <= i < |rows|
      ensures rows[i].searchMethod == METHODS[i % |METHODS|]
    {
      assert RowOf(rows[i], engine, dataset, METHODS[i], indexingTime);
    }
  }

  /** benchmarkEngine (src/bench.ts:134-162): init, then the four methods in
      order, then cleanup; an error anywhere ends the engine (cleanup is then
      skipped). */
  method BenchmarkEngine(engine: Engine, dataset: Dataset, docEmbeddings: seq<Embedding>,
                         queryEmbeddings: seq<Embedding>, timing: EngineTiming,
                         reranker: Embeddings.RerankService, disc: nat -> real)
    returns (r: Result<seq<BenchmarkResult>>)
    requires |dataset.queries| > 0
    ensures r == EngineRows(Trial(engine, dataset, docEmbeddings, queryEmbeddings, timing, reranker, disc))
  {
    var t := Trial(engine, dataset, docEmbeddings, queryEmbeddings, timing, reranker, disc);
    var initError := engine.init(dataset.documents, docEmbeddings);
    if initError.Some? {
      return Err(initError.value);
    }
    var results := RunMethods(t);
    if results.Err? {
      return results;
    }
    if engine.cleanup.Some? {
      return Err(engine.cleanup.value);
    }
    r := results;
  }

  /** benchmarkEngine's loop over the four search methods, which stops at
      the first method that throws. */
  method RunMethods(t: Trial) returns (r: Result<seq<BenchmarkResult>>)
    requires |t.dataset.queries| > 0
    ensures r == Methods(t, |METHODS|).rows
  {
    var results: seq<BenchmarkResult> := [];
    var sent := 0;
    var j := 0;
    while j < |METHODS|
      invariant 0 <= j <= |METHODS|
      invariant Methods(t, j) == EngineRun(Ok(results), sent)
    {
      var result, nextSent := RunSearchMethod(t.engine, t.dataset, METHODS[j], t.queryEmbeddings, t.timing.indexing,
                                              t.timing.queries, t.reranker, sent, t.disc);
      MethodsNext(t, j, results, sent, MethodRun(result, nextSent));
      if result.Err? {
        return Err(result.error);
      }
      results := results + [result.value];
      sent := nextSent;
      j := j + 1;
    }
    r := Ok(results);
  }

  // ---------------------------------------------------------------- main

  /** The world main runs in. `embedder(c)` is the embedding service as the
      c-th getEmbeddings call sees it (2d for the documents of dataset d,
      2d + 1 for its queries); `engines(d)` are the engines built for
      dataset d, in order; `timing(d, k)` and `reranker(d, k)` are the clock
      and the rerank service while engine k runs on dataset d. */
  datatype Environment = Environment(
    embedder: nat -> Embeddings.EmbeddingService,
    engines: nat -> seq<Engine>,
    timing: (nat, nat) -> EngineTiming,
    reranker: (nat, nat) -> Embeddings.RerankService,
    disc: nat -> real)

  /** `dataset.documents.map(d => d.text)`. */
  function DocumentTexts(documents: seq<Document>): (ts: seq<string>)
    ensures |ts| == |documents|
    ensures forall i :: 0 <= i < |documents| ==> ts[i] == documents[i].text
  {
    Map(documents, (d: Document) => d.text)
  }

  /** `dataset.queries.map(q => q.text)`. */
  function QueryTexts(queries: seq<Query>): (ts: seq<string>)
    ensures |ts| == |queries|
    ensures forall i :: 0 <= i < |queries| ==> ts[i] == queries[i].text
  {
    Map(queries, (q: Query) => q.text)
  }

  /** A dataset together with its embeddings, as main hands it to the engines. */
  datatype Embedded = Embedded(d: nat, dataset: Dataset, docEmbeddings: seq<Embedding>, queryEmbeddings: seq<Embedding>)

  function TrialOf(env: Environment, x: Embedded, k: nat): Trial
    requires k < |env.engines(x.d)|
  {
    Trial(env.engines(x.d)[k], x.dataset, x.docEmbeddings, x.queryEmbeddings,
          env.timing(x.d, k), env.reranker(x.d, k), env.disc)
  }

  /** What engine k adds to allResults: its rows, or nothing when it threw. */
  function EngineContribution(env: Environment, x: Embedded, k: nat): seq<BenchmarkResult>
    requires k < |env.engines(x.d)| && |x.dataset.queries| > 0
  {
    match EngineRows(TrialOf(env, x, k))
    case Ok(rows) => rows
    case Err(_) => []
  }

  /** What each engine adds to allResults on this dataset, in engine order. */
  function Contributions(env: Environment, x: Embedded): (cs: seq<seq<BenchmarkResult>>)
    requires |x.dataset.queries| > 0
    ensures |cs| == |env.engines(x.d)|
  {
    seq(|env.engines(x.d)|, k requires 0 <= k < |env.engines(x.d)| => EngineContribution(env, x, k))
  }

  /** The first n parts, concatenated in order. */
  function Joined<T>(parts: seq<seq<T>>, n: nat): seq<T>
    requires n <= |parts|
  {
    if n == 0 then [] else Joined(parts, n - 1) + parts[n - 1]
  }

  /** The rows of the first n outcomes concatenated, or the first error. */
  function Gathered<T>(outcomes: seq<Result<seq<T>>>, n: nat): Result<seq<T>>
    requires n <= |outcomes|
  {
    if n == 0 then Ok([])
    else match Gathered(outcomes, n - 1)
      case Err(e) => Err(e)
      case Ok(rows) =>
        match outcomes[n - 1]
        case Err(e) => Err(e)
        case Ok(more) => Ok(rows + more)
  }

  /** One iteration of main's dataset loop: embed the documents, then the
      queries (either failure ends main), then run every engine, each
      engine's failure caught and logged. */
  function DatasetRows(env: Environment, d: nat, dataset: Dataset): Result<seq<BenchmarkResult>>
    requires |dataset.queries| > 0
  {
    var docs := Embeddings.EmbedRun(env.embedder(2 * d), DocumentTexts(dataset.documents), 0, 0).result;
    if docs.Err? then Err(docs.error)
    else
      var queries := Embeddings.EmbedRun(env.embedder(2 * d + 1), QueryTexts(dataset.queries), 0, 0).result;
      if queries.Err? then Err(queries.error)
      else
        var x := Embedded(d, dataset, docs.value, queries.value);
        Ok(Joined(Contributions(env, x), |env.engines(d)|))
  }

  predicate HasQueries(datasets: seq<Dataset>) {
    forall d :: 0 <= d < |datasets| ==> |datasets[d].queries| > 0
  }

  function DatasetOutcomes(env: Environment, datasets: seq<Dataset>): (os: seq<Result<seq<BenchmarkResult>>>)
    requires HasQueries(datasets)
    ensures |os| == |datasets|
  {
    seq(|datasets|, d requires 0 <= d < |datasets| => DatasetRows(env, d, datasets[d]))
  }

  /** allResults once main's dataset loop is done, or the error that ended main. */
  function AllRows(env: Environment, datasets: seq<Dataset>): Result<seq<BenchmarkResult>>
    requires HasQueries(datasets)
  {
    Gathered(DatasetOutcomes(env, datasets), |datasets|)
  }

  // ---------------------------------------------------------------- what main promises

  /** Gathering fails exactly when one of the outcomes is an error. */
  lemma {:induction false} GatheredOk<T>(outcomes: seq<Result<seq<T>>>, n: nat)
    requires n <= |outcomes|
    ensures Gathered(outcomes, n).Ok? <==> forall d :: 0 <= d < n ==> outcomes[d].Ok?
  {
    if n > 0 {
      GatheredOk(outcomes, n - 1);
    }
  }

  /** The error gathered is the first error among the outcomes. */
  lemma {:induction false} GatheredFirstError<T>(outcomes: seq<Result<seq<T>>>, n: nat)
    requires n <= |outcomes| && Gathered(outcomes, n).Err?
    ensures exists d ::
      && 0 <= d < n && outcomes[d] == Err(Gathered(outcomes, n).error)
      && forall e :: 0 <= e < d ==> outcomes[e].Ok?
  {
    if Gathered(outcomes, n - 1).Err? {
      GatheredFirstError(outcomes, n - 1);
    } else {
      GatheredOk(outcomes, n - 1);
      assert outcomes[n - 1] == Err(Gathered(outcomes, n).error);
    }
  }

  /** When every outcome is Ok, gathering joins their rows in order. */
  lemma {:induction false} GatheredJoined<T>(outcomes: seq<Result<seq<T>>>, parts: seq<seq<T>>, n: nat)
    requires n <= |outcomes| == |parts|
    requires forall d :: 0 <= d < n ==> outcomes[d] == Ok(parts[d])
    ensures Gathered(outcomes, n) == Ok(Joined(parts, n))
  {
    if n > 0 {
      GatheredJoined(outcomes, parts, n - 1);
    }
  }

  /** Both embedding runs of dataset d succeed. */
  ghost predicate Embeds(env: Environment, d: nat, dataset: Dataset) {
    && Embeddings.EmbedRun(env.embedder(2 * d), DocumentTexts(dataset.documents), 0, 0).result.Ok?
    && Embeddings.EmbedRun(env.embedder(2 * d + 1), QueryTexts(dataset.queries), 0, 0).result.Ok?
  }

  /** A dataset fails only through its embeddings, never through an engine. */
  lemma DatasetRowsOk(env: Environment, d: nat, dataset: Dataset)
    requires |dataset.queries| > 0
    ensures DatasetRows(env, d, dataset).Ok? <==> Embeds(env, d, dataset)
  {
  }

  /** Engine failures are contained: main reaches the report exactly when
      every embedding run succeeds, whatever the engines do. */
  lemma AllRowsOk(env: Environment, datasets: seq<Dataset>)
    requires HasQueries(datasets)
    ensures AllRows(env, datasets).Ok? <==> forall d :: 0 <= d < |datasets| ==> Embeds(env, d, datasets[d])
  {
    var os := DatasetOutcomes(env, datasets);
    GatheredOk(os, |datasets|);
    forall d | 0 <= d < |datasets|
      ensures os[d].Ok? <==> Embeds(env, d, datasets[d])
    {
      DatasetRowsOk(env, d, datasets[d]);
    }
  }

  /** The rows come four at a time, one per method in benchmarkEngine's order. */
  predicate InMethodOrder(rows: seq<BenchmarkResult>) {
    && |rows| % |METHODS| == 0
    && forall i :: 0 <= i < |rows| ==> rows[i].searchMethod == METHODS[i % |METHODS|]
  }

  lemma InMethodOrderAppend(a: seq<BenchmarkResult>, b: seq<BenchmarkResult>)
    requires InMethodOrder(a) && InMethodOrder(b)
    ensures InMethodOrder(a + b)
  {
    var q := |a| / |METHODS|;
    forall i | |a| <= i < |a| + |b|
      ensures (a + b)[i].searchMethod == METHODS[i % |METHODS|]
    {
      assert i == q * |METHODS| + (i - |a|);
      assert i % |METHODS| == (i - |a|) % |METHODS|;
    }
  }

  /** An engine adds either nothing (it threw) or its four rows, one per
      method in order, each naming the engine and the dataset. */
  lemma EngineContributionShape(env: Environment, x: Embedded, k: nat)
    requires k < |env.engines(x.d)| && |x.dataset.queries| > 0
    ensures var c := EngineContribution(env, x, k);
      && (EngineRows(TrialOf(env, x, k)).Err? <==> c == [])
      && InMethodOrder(c) && |c| <= |METHODS|
      && forall i :: 0 <= i < |c| ==>
           c[i].engine == env.engines(x.d)[k].name && c[i].dataset == x.dataset.name
           && ScoresInRange(c[i].metrics, env.disc)
  {
    var t := TrialOf(env, x, k);
    EngineRowsShape(t);
    if EngineRows(t).Ok? {
      RowsForInOrder(EngineRows(t).value, t.engine, t.dataset, t.timing.indexing, t.disc);
    }
  }

  /** The rows of one dataset: every row names that dataset, and they come
      in method order. */
  lemma {:induction false} JoinedShape(env: Environment, x: Embedded, n: nat)
    requires |x.dataset.queries| > 0 && n <= |env.engines(x.d)|
    ensures var rows := Joined(Contributions(env, x), n);
      && InMethodOrder(rows)
      && forall i :: 0 <= i < |rows| ==> rows[i].dataset == x.dataset.name && ScoresInRange(rows[i].metrics, env.disc)
  {
    if n > 0 {
      JoinedShape(env, x, n - 1);
      EngineContributionShape(env, x, n - 1);
      var cs := Contributions(env, x);
      InMethodOrderAppend(Joined(cs, n - 1), cs[n - 1]);
    }
  }

  /** Once an outcome is an error, gathering more changes nothing. */
  lemma {:induction false} GatheredStopped<T>(outcomes: seq<Result<seq<T>>>, j: nat, n: nat)
    requires j <= n <= |outcomes| && Gathered(outcomes, j).Err?
    ensures Gathered(outcomes, n) == Gathered(outcomes, j)
    decreases n - j
  {
    if j < n {
      GatheredStopped(outcomes, j, n - 1);
    }
  }

  /** Rows in range and in method order, part by part, join into rows in
      range and in method order. */
  lemma {:induction false} JoinedInOrder(parts: seq<seq<BenchmarkResult>>, n: nat, disc: nat -> real)
    requires n <= |parts|
    requires forall k :: 0 <= k < n ==> WellFormed(parts[k], disc)
    ensures WellFormed(Joined(parts, n), disc)
  {
    if n > 0 {
      JoinedInOrder(parts, n - 1, disc);
      var before := Joined(parts, n - 1);
      InMethodOrderAppend(before, parts[n - 1]);
      forall i | 0 <= i < |Joined(parts, n)|
        ensures ScoresInRange(Joined(parts, n)[i].metrics, disc)
      {
        if i >= |before| {
          assert Joined(parts, n)[i] == parts[n - 1][i - |before|];
        }
      }
    }
  }

  /** Four-row blocks in method order, every row's metrics in range. */
  ghost predicate WellFormed(rows: seq<BenchmarkResult>, disc: nat -> real) {
    InMethodOrder(rows) && forall i :: 0 <= i < |rows| ==> ScoresInRange(rows[i].metrics, disc)
  }

  /** A dataset's rows all name it and come in method order. */
  lemma DatasetRowsShape(env: Environment, d: nat, dataset: Dataset)
    requires |dataset.queries| > 0
    ensures var r := DatasetRows(env, d, dataset);
      r.Ok? ==>
        && InMethodOrder(r.value)
        && forall i :: 0 <= i < |r.value| ==>
             r.value[i].dataset == dataset.name && ScoresInRange(r.value[i].metrics, env.disc)
  {
    var docs := Embeddings.EmbedRun(env.embedder(2 * d), DocumentTexts(dataset.documents), 0, 0).result;
    var queries := Embeddings.EmbedRun(env.embedder(2 * d + 1), QueryTexts(dataset.queries), 0, 0).result;
    if docs.Ok? && queries.Ok? {
      JoinedShape(env, Embedded(d, dataset, docs.value, queries.value), |env.engines(d)|);
    }
  }

  /** allResults, as printResults and printFinalVerdict receive it, is a
      run of four-row blocks, one row per method in order, and every row's
      metrics are in range. */
  lemma AllRowsWellFormed(env: Environment, datasets: seq<Dataset>)
    requires HasQueries(datasets)
    ensures AllRows(env, datasets).Ok? ==> WellFormed(AllRows(env, datasets).value, env.disc)
  {
    var os := DatasetOutcomes(env, datasets);
    if AllRows(env, datasets).Ok? {
      GatheredOk(os, |datasets|);
      var parts := seq(|os|, d requires 0 <= d < |os| => os[d].value);
      GatheredJoined(os, parts, |datasets|);
      forall k | 0 <= k < |datasets|
        ensures WellFormed(parts[k], env.disc)
      {
        DatasetRowsShape(env, k, datasets[k]);
      }
      JoinedInOrder(parts, |datasets|, env.disc);
    }
  }

  /** One iteration of main's dataset loop. */
  method RunDataset(env: Environment, d: nat, dataset: Dataset) returns (r: Result<seq<BenchmarkResult>>)
    requires |dataset.queries| > 0
    ensures r == DatasetRows(env, d, dataset)
  {
    var docEmbeddings, _, _ := Embeddings.GetEmbeddings(env.embedder(2 * d), DocumentTexts(dataset.documents));
    assert docEmbeddings == Embeddings.EmbedRun(env.embedder(2 * d), DocumentTexts(dataset.documents), 0, 0).result;
    if docEmbeddings.Err? {
      assert DatasetRows(env, d, dataset) == Err(docEmbeddings.error);
      return Err(docEmbeddings.error);
    }
    var queryEmbeddings, _, _ := Embeddings.GetEmbeddings(env.embedder(2 * d + 1), QueryTexts(dataset.queries));
    assert queryEmbeddings == Embeddings.EmbedRun(env.embedder(2 * d + 1), QueryTexts(dataset.queries), 0, 0).result;
    if queryEmbeddings.Err? {
      assert DatasetRows(env, d, dataset) == Err(queryEmbeddings.error);
      return Err(queryEmbeddings.error);
    }
    var x := Embedded(d, dataset, docEmbeddings.value, queryEmbeddings.value);
    assert DatasetRows(env, d, dataset) == Ok(Joined(Contributions(env, x), |env.engines(d)|));
    var rows := RunEngines(env, x);
    r := Ok(rows);
  }

  /** The engine loop of one dataset. */
  method RunEngines(env: Environment, x: Embedded) returns (rows: seq<BenchmarkResult>)
    requires |x.dataset.queries| > 0
    ensures rows == Joined(Contributions(env, x), |env.engines(x.d)|)
  {
    var engines := env.engines(x.d);
    ghost var parts := Contributions(env, x);
    rows := [];
    var k := 0;
    while k < |engines|
      invariant 0 <= k <= |engines|
      invariant rows == Joined(parts, k)
    {
      var contribution := RunEngine(env, x, k);
      assert Joined(parts, k + 1) == Joined(parts, k) + parts[k];
      rows := rows + contribution;
      k := k + 1;
    }
  }

  /** One engine inside main's try/catch: its rows, or none when it threw. */
  method RunEngine(env: Environment, x: Embedded, k: nat) returns (contribution: seq<BenchmarkResult>)
    requires k < |env.engines(x.d)| && |x.dataset.queries| > 0
    ensures contribution == Contributions(env, x)[k]
  {
    var engine := env.engines(x.d)[k];
    var results := BenchmarkEngine(engine, x.dataset, x.docEmbeddings, x.queryEmbeddings,
                                   env.timing(x.d, k), env.reranker(x.d, k), env.disc);
    contribution := [];
    if results.Ok? {
      contribution := results.value;
    }
  }

  /** One more outcome gathered. */
  lemma GatheredNext<T>(outcomes: seq<Result<seq<T>>>, i: nat, rows: seq<T>)
    requires i < |outcomes| && Gathered(outcomes, i) == Ok(rows)
    ensures outcomes[i].Ok? ==> Gathered(outcomes, i + 1) == Ok(rows + outcomes[i].value)
    ensures outcomes[i].Err? ==> Gathered(outcomes, i + 1) == Err(outcomes[i].error)
  {
  }

  /** main (src/bench.ts:164-221) up to the report: every dataset in turn,
      every engine on it; a thrown engine is logged and skipped, a failed
      embedding call ends main. */
  method RunBenchmarks(env: Environment, datasets: seq<Dataset>) returns (r: Result<seq<BenchmarkResult>>)
    requires HasQueries(datasets)
    ensures r == AllRows(env, datasets)
  {
    ghost var outcomes := DatasetOutcomes(env, datasets);
    var allResults: seq<BenchmarkResult> := [];
    var i := 0;
    while i < |datasets|
      invariant 0 <= i <= |datasets|
      invariant Gathered(outcomes, i) == Ok(allResults)
    {
      var rows := RunDataset(env, i, datasets[i]);
      assert rows == outcomes[i];
      GatheredNext(outcomes, i, allResults);
      if rows.Err? {
        GatheredStopped(outcomes, i + 1, |datasets|);
        return Err(rows.error);
      }
      allResults := allResults + rows.value;
      i := i + 1;
    }
    r := Ok(allResults);
  }
}
