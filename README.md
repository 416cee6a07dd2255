# vecdb-bench in Dafny

A model of the core of vecdb-bench, a TypeScript harness that benchmarks three
embedded vector databases (LanceDB, DuckDB and SQLite) on retrieval quality and
latency. Every dataset's documents and queries are embedded through a remote
service. Each engine indexes the documents. Each query is then run through
four search methods: vector, full-text, hybrid (Reciprocal Rank Fusion of the
two) and hybrid followed by a remote rerank. The harness scores every method
with precision@5, recall@5, MRR and NDCG@5, averages the scores per engine and
prints a final ranking.

The model has one module per file:

| file | module | what it holds |
|---|---|---|
| common.dfy | Common | results, errors, documents, queries, datasets; the similarity 1/(1 + distance) |
| sorting.dfy | Sorting | one stable insertion sort, `SortDesc`, standing for every `Array.prototype.sort` the source calls |
| metrics.dfy | Metrics | precision@k, recall@k, MRR, NDCG@k, p95, mean |
| fusion.dfy | Fusion | the Reciprocal Rank Fusion shared by the three `searchHybrid` implementations |
| sqlite_engine.dfy | SqliteEngine | SQLite score mappings, the FTS5 query builder, hybrid search |
| duckdb_engine.dfy | DuckdbEngine | DuckDB score mappings, the SQL string escape and its round trip, hybrid search |
| lancedb_engine.dfy | LancedbEngine | LanceDB score mappings, the full-text fallback, hybrid search |
| embeddings.dfy | Embeddings | the embedding client (batching, retries, reordering, pauses) and the rerank client |
| bench.dfy | Bench | `runSearchMethod`, `benchmarkEngine` and `main`'s loop over datasets and engines |
| verdict.dfy | Verdict | `printFinalVerdict`: per-engine averages and scores, best hybrid+rerank per dataset, final ranking |

The model treats the outside world as input:

- **Databases.** A database or table is the rows its queries return, or the
  error they throw.
- **Remote services.** The embedding and rerank services are functions from
  the request's sequence number and body to a reply: success, an HTTP error
  status, or a thrown exception.
- **Engines.** In the runner, an engine is the answers its `init`, searches
  and `cleanup` give.
- **Clock.** `performance.now()` is replaced by the given durations of the
  stretches the runner times.
- **Waits.** The client's `sleep`s are returned as a list of requested delays.

The loops of the source are methods with loop invariants. Each method is
proved equal to a recursive specification function, and the properties are
proved about that function.

A row's scores are "in range" (`Bench.ScoresInRange`) when precision@5 and
MRR lie in [0, 1], recall@5 and both latencies are non-negative, and NDCG@5 is
non-negative whenever the discount is positive and non-increasing.

## Model

| member | source | states |
|---|---|---|
| Common.Similarity | src/engines/sqlite-engine.ts:111 | the score 1/(1 + distance) of a non-negative distance lies in (0, 1] |
| Common.SimilarityOrder | src/engines/lancedb-engine.ts:56 | a smaller distance gives a score at least as high, and conversely |
| Common.Map | src/bench.ts:111 | `map` keeps the length and applies the function at every position |
| Common.Ids | src/bench.ts:111 | the id list keeps the results' order and length |
| Sorting.SortDesc | src/bench.ts:292 | the sort is a permutation of its input, non-increasing by the key |
| Sorting.SortDescStable | src/bench.ts:310 | elements of equal key keep their original relative order (the sort is stable) |
| Sorting.SortDescHead | src/bench.ts:292-293 | the head of the sorted list is the first element of maximal key |
| Sorting.SortDescFixpoint | src/engines/sqlite-engine.ts:161-162 | a list already strictly decreasing by the key is left unchanged |
| Sorting.SortedUnique | src/embeddings.ts:41 | two sorted lists with the same elements and distinct keys are equal, so the sort result does not depend on the input order |
| Sorting.FirstMax | src/bench.ts:292-293 | the index of the first element whose key is not exceeded by any other |
| Sorting.InsertLex | src/bench.ts:310 | inserting an element ahead of all the others' positions keeps the list sorted by key and then by position |
| Metrics.TopK | src/bench.ts:13 | `slice(0, k)`: the first min(k, n) ids |
| Metrics.HitsOf | src/bench.ts:14 | the retrieved ids that are relevant; empty exactly when no retrieved id is relevant, and distinct when the input is |
| Metrics.HitsAtMostRelevant | src/bench.ts:20-21 | a distinct list has no more hits than there are relevant ids |
| Metrics.PrecisionAtK | src/bench.ts:12-16 | precision lies in [0, 1]; it is 0 exactly when none of the first k ids is relevant; it never exceeds n/k, because the source divides by k even when fewer results come back |
| Metrics.RecallAtK | src/bench.ts:18-22 | recall is 0 when nothing is relevant; otherwise it is 0 exactly when none of the first k ids is relevant; it is never negative, and at most 1 when the top k ids are distinct |
| Metrics.Mrr | src/bench.ts:24-29 | the loop returns 1/(i+1) for the first relevant position i: 1 exactly when the first id is relevant, 0 exactly when none is, and in [0, 1] |
| Metrics.ReciprocalRankBounds | src/bench.ts:24-29 | the reciprocal rank lies in [0, 1] |
| Metrics.NdcgAtK | src/bench.ts:31-45 | the two loops compute DCG/IDCG. It is 0 exactly when nothing is relevant or no top-k id is relevant. It is never negative, and lies in [0, 1] for distinct ids. It is 1 when the first min(\|relevant\|, k) ids are all relevant |
| Metrics.NdcgFacts | src/bench.ts:31-45 | the three NDCG properties above, for the specification function |
| Metrics.NdcgZero | src/bench.ts:44 | NDCG is 0 exactly when no relevant id is retrieved, or the relevant list is empty |
| Metrics.NdcgNonNegative | src/bench.ts:31-45 | NDCG is never negative, whether or not ids repeat |
| Metrics.NdcgBounded | src/bench.ts:31-45 | NDCG never exceeds 1 when the top-k ids are distinct |
| Metrics.HarmonicDiscount | src/bench.ts:36 | the discount 1/(i + 1) is positive and non-increasing, as 1/log2(i + 2) is |
| Metrics.RepeatedIdNdcgAboveOne | src/bench.ts:31-45 | with a repeated id NDCG can exceed 1: ["a", "a"] against the one relevant id "a" scores 1.5 |
| Metrics.NdcgPerfect | src/bench.ts:31-45 | a perfect top of the list gives NDCG 1 |
| Metrics.DiscSumMono | src/bench.ts:40-43 | the ideal DCG grows with the number of relevant ids and is positive when there is one |
| Metrics.DcgPerfectPrefix | src/bench.ts:34-38 | a list whose first m ids are relevant has DCG at least the ideal DCG of m |
| Metrics.Avg | src/bench.ts:52-54 | the mean of non-negative values is non-negative |
| Metrics.AvgOne | src/bench.ts:52-54 | the mean of a single value is that value |
| Metrics.AvgWithin | src/bench.ts:52-54 | the mean lies between any lower and upper bound of the values |
| Metrics.SumWithin | src/bench.ts:53 | the sum of n values bounded by lo and hi lies between n·lo and n·hi |
| Metrics.Ascending | src/bench.ts:48 | the ascending copy is a sorted permutation of the latencies |
| Metrics.P95Index | src/bench.ts:49 | the p95 index of a non-empty list is in range |
| Metrics.P95 | src/bench.ts:47-50 | 0 for no latencies (the `?? 0`); otherwise one of the latencies, the one at the p95 index of the ascending copy |
| Fusion.RrfTerm | src/engines/sqlite-engine.ts:154 | the RRF term 1/(60 + i + 1) is positive |
| Fusion.RrfTermDecreasing | src/engines/sqlite-engine.ts:154 | a later rank contributes strictly less |
| Fusion.RrfScore | src/engines/sqlite-engine.ts:153-155 | a list's contribution to an id is non-negative, and 0 exactly when the id is absent from the list |
| Fusion.BothListsScoreMore | src/engines/sqlite-engine.ts:153-159 | an id found by both searches scores strictly more than from either one alone |
| Fusion.Dedup | src/engines/sqlite-engine.ts:151 | the Map's key order: each id once, in order of first insertion |
| Fusion.DedupDistinct | src/engines/sqlite-engine.ts:151 | a list without repeats is its own key order |
| Fusion.RrfScoreDistinct | src/engines/sqlite-engine.ts:153-155 | in a list without repeats the id at rank i scores exactly the term of rank i |
| Fusion.AddRanks | src/engines/sqlite-engine.ts:153-159 | one `forEach` over a list: the key order gains the list's new ids in order, and every key's score gains that list's RRF contribution |
| Fusion.Entries | src/engines/sqlite-engine.ts:161 | `[...scores.entries()]`: one entry per key, in key order, carrying its score |
| Fusion.Fuse | src/engines/sqlite-engine.ts:150-164 | the output holds min(topK, #ids) distinct ids of either list, each carrying its fused score. It is ordered by score, with ties in insertion order. Every id cut off ranks after every id kept. A single list without repeats (or the same list twice) comes back as its own top-k, and a single list scores 1/(61 + i) at rank i |
| Fusion.SortedEntries | src/engines/sqlite-engine.ts:162 | the stable sort of the entries orders them by score, then by insertion rank, and keeps exactly the entries |
| Fusion.FuseCorrect | src/engines/sqlite-engine.ts:150-164 | score, sort and slice together meet the fusion specification |
| Fusion.KeptInOrder | src/engines/sqlite-engine.ts:162-163 | the kept prefix has distinct ids and is ordered by score, then insertion order |
| Fusion.CutOffAfter | src/engines/sqlite-engine.ts:163 | every id dropped by `slice(0, topK)` ranks after every id kept |
| Fusion.FuseSpecialCases | src/engines/lancedb-engine.ts:98-115 | with one list (the other empty or identical) the fusion preserves that list's order |
| Fusion.OneListKeys | src/engines/lancedb-engine.ts:100-110 | with one list the key order is that list |
| Fusion.OneListScore | src/engines/lancedb-engine.ts:102-110 | with one list the fused score of rank i is one or two RRF terms of rank i |
| Fusion.OneListEntries | src/engines/lancedb-engine.ts:112 | with one list the entries are strictly decreasing by score |
| SqliteEngine.VectorResults | src/engines/sqlite-engine.ts:109-112 | each row keeps its id in order; scores lie in (0, 1], and a smaller distance gives a score at least as high, and conversely |
| SqliteEngine.SearchVector | src/engines/sqlite-engine.ts:95-113 | fails exactly when the KNN query fails, with its error. Otherwise each row gives its id in row order, with a score in (0, 1]; a smaller distance gives a score at least as high, and conversely |
| SqliteEngine.Strip | src/engines/sqlite-engine.ts:117 | exactly the word and whitespace characters of the query survive |
| SqliteEngine.SkipSpaces | src/engines/sqlite-engine.ts:118 | the suffix left after leading whitespace starts with a non-space |
| SqliteEngine.SplitFrom | src/engines/sqlite-engine.ts:118 | `split(/\s+/)` yields at least one piece |
| SqliteEngine.SplitFromChars | src/engines/sqlite-engine.ts:118 | the pieces contain no whitespace and only characters of the input |
| SqliteEngine.Keep | src/engines/sqlite-engine.ts:119 | exactly the tokens longer than one character are kept |
| SqliteEngine.Join | src/engines/sqlite-engine.ts:120 | joining a list whose first token is non-empty gives a non-empty string |
| SqliteEngine.JoinChars | src/engines/sqlite-engine.ts:120 | the join holds only separator characters and token characters |
| SqliteEngine.JoinWordChars | src/engines/sqlite-engine.ts:120 | tokens of word characters joined with " OR " hold only word characters and spaces |
| SqliteEngine.QueryTokens | src/engines/sqlite-engine.ts:116-119 | every token is at least two word characters, each taken from the query |
| SqliteEngine.FtsQuery | src/engines/sqlite-engine.ts:116-120 | the FTS5 query contains only word characters and spaces, so no FTS5 operator character reaches the database. It is empty exactly when no token survives |
| SqliteEngine.SplitJoin | src/engines/sqlite-engine.ts:118-120 | splitting the " OR " join on whitespace gives back the tokens with "OR" between them |
| SqliteEngine.FtsQueryTokens | src/engines/sqlite-engine.ts:116-120 | the FTS5 query string, split on whitespace, is the kept tokens with the word "OR" between each two |
| SqliteEngine.TokensOfWords | src/engines/sqlite-engine.ts:116-119 | three words of two or more word characters, separated by single spaces, are kept as exactly those three tokens |
| SqliteEngine.KeywordSurvives | src/engines/sqlite-engine.ts:116-120 | a word between two others is kept as it is, so an upper-case FTS5 keyword such as NOT in the user's text reaches the query as a keyword: "cats NOT dogs" gives `cats OR NOT OR dogs` |
| SqliteEngine.FtsResults | src/engines/sqlite-engine.ts:133-136 | each row keeps its id in order, and a lower (better) rank gives a score at least as high, and conversely |
| SqliteEngine.SearchFTS | src/engines/sqlite-engine.ts:115-140 | a failing MATCH yields no results; otherwise the ids come in the rows' order |
| SqliteEngine.SearchHybrid | src/engines/sqlite-engine.ts:142-165 | fails exactly when the vector query fails; otherwise it is the RRF fusion of topK·2 vector ids then topK·2 full-text ids |
| DuckdbEngine.Count | src/engines/duckdb-engine.ts:93 | the number of quotes is at most the length |
| DuckdbEngine.Escape | src/engines/duckdb-engine.ts:57 | doubling quotes lengthens the text by its quote count and adds no new character |
| DuckdbEngine.UnescapeEscape | src/engines/duckdb-engine.ts:93 | undoubling the escaped text gives back the original |
| DuckdbEngine.LiteralRoundTrip | src/engines/duckdb-engine.ts:57 | SQL reads the escaped text, closed by a quote, as exactly the original text, whatever follows (short of another quote) |
| DuckdbEngine.QueryLiteral | src/engines/duckdb-engine.ts:96 | the quoted literal is two quotes plus the escaped text |
| DuckdbEngine.QueryLiteralReadsBack | src/engines/duckdb-engine.ts:93-96 | the BM25 call receives exactly the query text: no quote in it can end the literal early |
| DuckdbEngine.VectorResults | src/engines/duckdb-engine.ts:86-89 | each row keeps its id in order; a missing distance scores 1; and a smaller distance gives a score at least as high, and conversely |
| DuckdbEngine.SearchVector | src/engines/duckdb-engine.ts:73-90 | fails exactly when the distance query fails, with its error. Otherwise each row gives its id in row order; a missing distance scores 1; a smaller distance gives a score at least as high, and conversely |
| DuckdbEngine.FtsResults | src/engines/duckdb-engine.ts:103-106 | each row keeps its id in order, with its BM25 score, or 0 when it is null |
| DuckdbEngine.SearchFTS | src/engines/duckdb-engine.ts:92-107 | the BM25 query receives the quoted, escaped text. The search fails exactly when that query fails, with its error. Otherwise each row gives its id in row order, with its score, or 0 when it is null |
| DuckdbEngine.SearchHybrid | src/engines/duckdb-engine.ts:109-134 | fails exactly when either query fails; otherwise it is the RRF fusion of topK·2 vector ids then topK·2 full-text ids |
| LancedbEngine.VecIds | src/engines/lancedb-engine.ts:107-110 | the row ids, in row order |
| LancedbEngine.FtsIds | src/engines/lancedb-engine.ts:102-105 | the row ids, in row order |
| LancedbEngine.VectorResults | src/engines/lancedb-engine.ts:54-57 | each row keeps its id in order. Scores lie in (0, 1]. A missing distance scores 1. A smaller distance gives a score at least as high, and conversely |
| LancedbEngine.SearchVector | src/engines/lancedb-engine.ts:45-58 | fails exactly when the vector query fails, with its error. Otherwise the ids are the rows' ids in order, with scores in (0, 1]; a missing distance scores 1; a smaller distance gives a score at least as high, and conversely |
| LancedbEngine.FtsResults | src/engines/lancedb-engine.ts:68-71 | each row keeps its id in order, with `_score`, or 1/(i + 1) at position i when it is missing |
| LancedbEngine.FtsDefaultScoresDecrease | src/engines/lancedb-engine.ts:70 | the fallback scores 1/(i + 1) lie in (0, 1] and strictly decrease down the list |
| LancedbEngine.ReciprocalDecreasing | src/engines/lancedb-engine.ts:70 | 1/b < 1/a ≤ 1 for 0 < a < b |
| LancedbEngine.SearchFTS | src/engines/lancedb-engine.ts:60-76 | a failing full-text query yields no results; otherwise the ids come in row order |
| LancedbEngine.HybridFtsIds | src/engines/lancedb-engine.ts:84-91 | the hybrid search's own full-text query, with twice the limit: the ids of a full-text search for topK·2, and none when that query throws |
| LancedbEngine.SearchHybrid | src/engines/lancedb-engine.ts:78-116 | fails exactly when the vector query fails; a failing full-text query counts as empty. The result is the RRF fusion of the topK·2 full-text ids, then the topK·2 vector ids. Without full-text ids, distinct vector ids come back as their own top-k, scored 1/(61 + i) |
| Embeddings.Retried | src/embeddings.ts:22-50 | the number of requests the retry loop makes is between 1 and MAX_RETRIES |
| Embeddings.RetryDelays | src/embeddings.ts:48 | the backoff before retry j is RETRY_DELAY·j: linear, not exponential |
| Embeddings.RetriedFrom | src/embeddings.ts:22-50 | every request before the last failed. The loop succeeds exactly when the last request succeeded, returning its body. It fails only after MAX_RETRIES requests, rethrowing the last error |
| Embeddings.RetriedSpec | src/embeddings.ts:22-50 | the same, from the first request |
| Embeddings.RetriedFailureKind | src/embeddings.ts:44-46 | which kind of failure (HTTP status or thrown exception) makes no difference to the number of requests or the success |
| Embeddings.WithRetries | src/embeddings.ts:22-50 | the loop's result and request count are the retry specification's, and it sleeps RETRY_DELAY·j before retry j |
| Embeddings.SortByIndex | src/embeddings.ts:41 | the items are a permutation sorted by ascending index |
| Embeddings.Vectors | src/embeddings.ts:42 | the embeddings of the items, in order |
| Embeddings.Batch | src/embeddings.ts:21 | a batch holds between 1 and BATCH_SIZE texts |
| Embeddings.Batches | src/embeddings.ts:20-21 | every batch holds between 1 and BATCH_SIZE texts |
| Embeddings.FlattenBatches | src/embeddings.ts:20-21 | the batches cover the texts exactly, in order |
| Embeddings.BatchesCount | src/embeddings.ts:20 | there are ⌈n / BATCH_SIZE⌉ batches |
| Embeddings.AttemptLog | src/embeddings.ts:23-50 | one logged request per attempt |
| Embeddings.PauseAfter | src/embeddings.ts:52 | the 100 ms pause follows every batch except the last |
| Embeddings.EmbedRunOk | src/embeddings.ts:20-53 | a batch that succeeds appends its sorted vectors, its requests and its delays, and the run goes on with the next batch |
| Embeddings.EmbedRunOkResult | src/embeddings.ts:42 | a successful batch's sorted vectors precede the rest's |
| Embeddings.EmbedRunOkLog | src/embeddings.ts:23-50 | a successful batch's requests precede the rest's |
| Embeddings.EmbedRunOkDelays | src/embeddings.ts:48-52 | a successful batch's backoffs and pause precede the rest's delays |
| Embeddings.EmbedRunErr | src/embeddings.ts:46 | a batch that exhausts its retries stops the whole call with its error; no later batch is sent |
| Embeddings.ThenNothing | src/embeddings.ts:19 | an empty prefix leaves a run unchanged |
| Embeddings.ThenThen | src/embeddings.ts:42 | appending two prefixes one after the other is appending their concatenation |
| Embeddings.GetEmbeddings | src/embeddings.ts:18-55 | the loop computes the batch-by-batch specification, and no texts means no requests |
| Embeddings.Expected | src/embeddings.ts:37-39 | the items an honest service owes a batch: each text's embedding tagged with its position |
| Embeddings.EmbedAll | src/embeddings.ts:18 | the embeddings of the texts, one per text, in order |
| Embeddings.SortByIndexExpected | src/embeddings.ts:40-42 | whatever order an honest reply's items come in, sorting by index restores the batch's order |
| Embeddings.ExpectedKeysDistinct | src/embeddings.ts:41 | an honest reply's indices are distinct |
| Embeddings.EmbedAllAppend | src/embeddings.ts:42 | embedding a concatenation is concatenating the embeddings |
| Embeddings.HonestBatch | src/embeddings.ts:22-42 | with an honest service a batch's output is its texts' embeddings in order |
| Embeddings.BatchSplit | src/embeddings.ts:21 | the texts from i on are the batch at i followed by the texts after it |
| Embeddings.BatchesStep | src/embeddings.ts:20-21 | the batches from i on are the batch at i followed by the later ones |
| Embeddings.ThenFaithful | src/embeddings.ts:42 | a batch's embeddings followed by a faithful rest are faithful to the whole |
| Embeddings.EmbedRunFaithful | src/embeddings.ts:18-55 | with an honest service a successful run returns the texts' embeddings in text order |
| Embeddings.EmbedRunFaithfulOk | src/embeddings.ts:20-53 | the same, for a run whose first batch succeeds |
| Embeddings.EmbedRunFaithfulAfter | src/embeddings.ts:20 | the same, for the run after the first batch |
| Embeddings.GetEmbeddingsFaithful | src/embeddings.ts:18-55 | with an honest service, success returns exactly one embedding per text, in text order |
| Embeddings.SucceededAppend | src/embeddings.ts:23-50 | the successful requests of two logs are those of each |
| Embeddings.SucceededAttempts | src/embeddings.ts:23-50 | a batch's requests contain one success exactly when it ended in success |
| Embeddings.ThenBatches | src/embeddings.ts:20-53 | a batch's successful request followed by a run that sends the later batches sends all batches from i |
| Embeddings.EmbedRunBatches | src/embeddings.ts:18-55 | a successful run sent each batch exactly once successfully, in order |
| Embeddings.EmbedRunBatchesOk | src/embeddings.ts:20-53 | the same, for a run whose first batch succeeds |
| Embeddings.EmbedRunBatchesAfter | src/embeddings.ts:20 | the same, for the run after the first batch |
| Embeddings.Pauses | src/embeddings.ts:52 | n pauses of 100 ms |
| Embeddings.EmbedRunNoFailures | src/embeddings.ts:18-55 | a service that always answers gives success with one request per batch |
| Embeddings.EmbedRunAnswered | src/embeddings.ts:43-52 | a batch answered at once adds no backoff, only the pause |
| Embeddings.EmbedRunNoFailureDelays | src/embeddings.ts:52 | a service that always answers costs exactly ⌈n / BATCH_SIZE⌉ − 1 pauses and no backoff |
| Embeddings.GetEmbedding | src/embeddings.ts:57-60 | the request and delays are those of embedding the single text. A failure is rethrown. Otherwise the result is the first vector. With an honest service it is that text's embedding |
| Embeddings.RerankRequestFor | src/embeddings.ts:82-87 | the request carries the query and documents, with `top_n` set to topK or, when absent, the number of documents |
| Embeddings.Reranked | src/embeddings.ts:67-104 | no documents means no request and no results. Otherwise the reply is retried like any request. On success the results are a permutation of the reply's, sorted by descending relevance |
| Embeddings.Rerank | src/embeddings.ts:67-104 | the loop computes the rerank specification, sleeping RETRY_DELAY·j before retry j; its results are sorted by descending relevance |
| Bench.FindDocument | src/bench.ts:93 | `find`: the first document with the id, or none exactly when no document has it |
| Bench.DocTexts | src/bench.ts:92-94 | succeeds exactly when every candidate's id names a document. It then gives one text per candidate, in order. Otherwise it names a missing id: the `!` dereference of undefined throws |
| Bench.RerankedResults | src/bench.ts:96-99 | succeeds exactly when every reranked index is within the candidates. Each result carries its candidate's id and the relevance score. Otherwise it names the out-of-range index |
| Bench.RerankedFromCandidates | src/bench.ts:96-99 | reranked results name only candidate ids and keep the rerank order by score |
| Bench.Retrieve | src/bench.ts:77-103 | plain methods send no rerank request. Successful hybrid+rerank results are hybrid candidates of the TOP_K·3 search, sorted by relevance |
| Bench.EmbeddingAt | src/bench.ts:73 | `queryEmbeddings[i]` is present exactly when i is within the list, and is then its i-th embedding |
| Bench.Search | src/bench.ts:77-103 | the switch computes the retrieval specification |
| Bench.Latency | src/bench.ts:87-109 | a query's latency is at least its search time. It equals the search time exactly when the method is hybrid+rerank or nothing else took time |
| Bench.RerankNotTimed | src/bench.ts:88-108 | for hybrid+rerank the latency does not depend on how long the rerank took. For the other methods a longer remainder means a longer latency |
| Bench.Measure | src/bench.ts:111-115 | the four metrics pushed for one query, computed by the metric methods, are the values `QualityOf` states |
| Bench.Queries | src/bench.ts:71-116 | after n queries each accumulator holds n values, all in range: latencies non-negative, precisions and reciprocal ranks in [0, 1], recalls non-negative, and NDCGs non-negative under a valid discount |
| Bench.AfterQuery | src/bench.ts:72-115 | one more query appends one value to each accumulator and keeps every accumulator in range |
| Bench.RecordInRange | src/bench.ts:111-115 | pushing one query's metrics keeps the accumulators in range |
| Bench.QueriesLatencies | src/bench.ts:100-109 | the i-th recorded latency is query i's latency for the method |
| Bench.LatenciesStep | src/bench.ts:100-108 | one more query keeps the recorded latencies equal to the queries' latencies |
| Bench.LatencyPushed | src/bench.ts:100-108 | each query pushes exactly its latency |
| Bench.QueriesSendNothing | src/bench.ts:78-86 | plain methods make no rerank request |
| Bench.QueriesStopped | src/bench.ts:71-116 | a thrown query ends the method: later queries change nothing |
| Bench.RunQuery | src/bench.ts:72-115 | one loop iteration advances the specification by one query |
| Bench.Summarize | src/bench.ts:118-131 | the row names the engine, dataset and method and carries the indexing time. Accumulators in range give averages in range, and non-negative NDCGs a non-negative average |
| Bench.AveragesInRange | src/bench.ts:123-128 | averages of values in range are in range, and so is the p95 |
| Bench.MethodOutcomeInRange | src/bench.ts:58-132 | a completed method gives a row naming the engine, dataset, method and indexing time, with scores in range. Plain methods send no rerank request |
| Bench.RunSearchMethod | src/bench.ts:58-132 | the loop computes the per-method specification: the row, or the first error a query throws |
| Bench.Methods | src/bench.ts:148-158 | after j methods there are j rows |
| Bench.MethodsStopped | src/bench.ts:148-158 | an error ends the method loop: later methods change nothing |
| Bench.MethodsRows | src/bench.ts:148-158 | row m is exactly method m's row, computed as if run alone |
| Bench.MethodsRowsStep | src/bench.ts:150-157 | one more method appends its own row and keeps the earlier rows |
| Bench.EngineRowsShape | src/bench.ts:134-162 | a successful engine gives four rows, one per method in fixed order. Each names the engine and dataset, carries the indexing time and has scores in range. Row m is method m's row |
| Bench.RowsForInOrder | src/bench.ts:148 | such rows are in method order and name their engine and dataset |
| Bench.BenchmarkEngine | src/bench.ts:134-162 | init, the four methods and cleanup compute the engine specification. An error in any of them fails the engine |
| Bench.RunMethods | src/bench.ts:146-158 | the loop over the four methods computes the rows of the specification, or the error of the first method that throws |
| Bench.MethodsNext | src/bench.ts:148-158 | after j methods succeeded, the next appends its row, or its error becomes the loop's |
| Bench.DocumentTexts | src/bench.ts:187 | the documents' texts, in order |
| Bench.QueryTexts | src/bench.ts:193 | the queries' texts, in order |
| Bench.Contributions | src/bench.ts:203-215 | one contribution per engine |
| Bench.EngineContributionShape | src/bench.ts:203-215 | a failing engine contributes nothing (the catch). Any other engine contributes at most four rows in method order, naming itself and the dataset, with scores in range |
| Bench.JoinedShape | src/bench.ts:203-215 | the rows of a dataset's engines are in method order, name the dataset and have scores in range |
| Bench.GatheredOk | src/bench.ts:180-216 | the run over datasets succeeds exactly when every dataset does |
| Bench.GatheredFirstError | src/bench.ts:180-216 | a failed run reports the error of the first failing dataset, all earlier ones having succeeded |
| Bench.GatheredJoined | src/bench.ts:211 | when every dataset succeeds the rows are the datasets' rows concatenated in order |
| Bench.GatheredStopped | src/bench.ts:180-216 | a failed dataset ends the run: later datasets change nothing |
| Bench.GatheredNext | src/bench.ts:180-216 | one more dataset appends its rows, or stops with its error |
| Bench.InMethodOrderAppend | src/bench.ts:211 | concatenating rows in method order keeps them in method order |
| Bench.JoinedInOrder | src/bench.ts:211 | concatenating well-formed contributions gives well-formed rows |
| Bench.DatasetRowsOk | src/bench.ts:185-215 | a dataset fails exactly when embedding its documents or queries fails; an engine failure never fails it |
| Bench.DatasetRowsShape | src/bench.ts:185-215 | a dataset's rows name it, come in method order and have scores in range |
| Bench.AllRowsOk | src/bench.ts:166-221 | main reaches the report exactly when every dataset's embeddings succeed |
| Bench.AllRowsWellFormed | src/bench.ts:166-221 | main's rows are in method order, with scores in range |
| Bench.RunEngine | src/bench.ts:204-214 | the try/catch computes the engine's contribution |
| Bench.RunEngines | src/bench.ts:203-215 | the engine loop concatenates the contributions in engine order |
| Bench.RunDataset | src/bench.ts:185-215 | embedding the documents, then the queries, then running the engines computes the dataset specification |
| Bench.RunBenchmarks | src/bench.ts:180-216 | the dataset loop computes main's rows, or the error that ends main |
| Verdict.Unique | src/bench.ts:255 | `[...new Set(...)]`: each name once, exactly the names present |
| Verdict.UniquePrefix | src/bench.ts:255 | the distinct names of a prefix come first, in the same order |
| Verdict.Filter | src/bench.ts:259 | exactly the elements that pass the test, and no more of them than the input has |
| Verdict.EngineColumn | src/bench.ts:255 | the engine of each row, in order |
| Verdict.DatasetColumn | src/bench.ts:286 | the dataset of each row, in order |
| Verdict.RowsOfEngine | src/bench.ts:259 | exactly the engine's rows, and at least one for every engine named |
| Verdict.EngineHasRows | src/bench.ts:255-259 | every engine named has a row |
| Verdict.Column | src/bench.ts:260-265 | one field of each row, in order |
| Verdict.AggregateInRange | src/bench.ts:260-265 | the averages of rows in range are in range; under a valid discount the NDCG average is non-negative |
| Verdict.Aggregate | src/bench.ts:259-265 | the six averages of an engine's rows. For a single row they are that row's own metrics |
| Verdict.QualityBetween | src/bench.ts:268 | the quality weights sum to one, so quality lies between the lowest and highest of the four averages |
| Verdict.Quality | src/bench.ts:268 | four equal averages give a quality score equal to them |
| Verdict.Perf | src/bench.ts:270 | the performance score lies in (0, 1], and is 1 exactly at zero latency |
| Verdict.Combined | src/bench.ts:273 | equal quality and performance give that score back. A quality in [0, 1] and a performance in (0, 1] give a combined score in (0, 1] |
| Verdict.PerfDecreasing | src/bench.ts:270 | a slower engine gets a strictly lower performance score |
| Verdict.TimedAverage | src/bench.ts:264 | the average latency of an engine's rows is non-negative |
| Verdict.Summary | src/bench.ts:258-282 | an engine's block carries the averages of its rows and the quality, performance and combined scores of those averages; its performance score lies in (0, 1] |
| Verdict.AggregateBounded | src/bench.ts:260-265 | with every score in [0, 1] the averages are in [0, 1] |
| Verdict.SummaryInRange | src/bench.ts:266-273 | with every score in [0, 1], quality is in [0, 1] and performance and combined scores are in (0, 1] |
| Verdict.HybridRerankRows | src/bench.ts:288-290 | exactly the dataset's hybrid+rerank rows |
| Verdict.DatasetWinner | src/bench.ts:288-293 | a dataset has a best row exactly when it has a hybrid+rerank row. The head of the sorted rows is its first row of highest NDCG@5 |
| Verdict.BestOfWinners | src/bench.ts:286-297 | every reported best is a hybrid+rerank row of its dataset with the highest NDCG@5 (the first such) |
| Verdict.Listed | src/bench.ts:295 | the datasets of the reported bests, in order |
| Verdict.BestOfDatasets | src/bench.ts:286-297 | a dataset is reported exactly when it appears in the results and has a hybrid+rerank row (the `continue`) |
| Verdict.BestOfNext | src/bench.ts:287-297 | one more dataset adds its best, or nothing when it has no hybrid+rerank row |
| Verdict.EngineScores | src/bench.ts:300-309 | one score per engine, in engine order |
| Verdict.RankingFacts | src/bench.ts:300-311 | the ranking lists every engine once, with the combined score of its block. It is non-increasing by score. Engines of equal score keep their order of first appearance (the sort is stable) |
| Verdict.Ranking | src/bench.ts:300-310 | one entry per engine. It is a permutation of the engine scores, sorted non-increasing by score |
| Verdict.RankingOrdered | src/bench.ts:300-311 | the ranking is a permutation of the engine scores, non-increasing by score, with ties in order of first appearance |
| Verdict.RankingMembers | src/bench.ts:300-311 | the ranking has one entry per engine, and each entry is an engine of the report with its combined score |
| Verdict.RankingComplete | src/bench.ts:300-311 | every engine of the report appears in the ranking |
| Verdict.PositionOf | src/bench.ts:255 | an engine's position among the distinct names is its index |
| Verdict.EngineSummaries | src/bench.ts:258-282 | the loop gives each engine's summary, in engine order |
| Verdict.BestPerDataset | src/bench.ts:284-297 | the loop gives the best-per-dataset specification |
| Verdict.FinalVerdict | src/bench.ts:249-318 | the report holds each engine's summary in engine order, the best hybrid+rerank row per dataset, and the ranking |
| Verdict.MainRowsTimed | src/bench.ts:219-220 | the rows main hands to the report have non-negative latencies, as the report's performance score requires |

## Left out

- SqliteEngine.SearchFTS: FTS5's query parser is not modelled. Upper-case AND, OR and NOT in the user's text survive as FTS5 keywords (`KeywordSurvives`), so the MATCH of such a query fails and searchFTS returns no results (src/engines/sqlite-engine.ts:137-138). The model covers that outcome only as a failing `ftsMatch` of the database input, which gives [].
- Console output: `printResults`, the progress lines and the formatting of `printFinalVerdict` are not modelled. The final verdict is modelled as the report it prints.
- Database work is not modelled beyond its results. That covers the SQL and LanceDB calls, the table creation, the index builds and the document inserts in each `init`. `SqliteEngine` and `LancedbEngine` have no `init`. Of DuckDB's `init`, only the quote escape is modelled (`DuckdbEngine.Escape`).
- Bench.Engine: the runner sees an engine only through its answers. The three adapters are modelled separately and are not plugged into it.
- The service numbering is fixed. Embedding calls are numbered per dataset: `embedder(2d)` for documents and `embedder(2d + 1)` for queries. Each engine's rerank service starts its request count at 0. These are modelling choices for inputs that in the source are the same network service.
- Network, clock and sleeps are inputs or outputs. Requests are scripted replies, durations are given, and sleeps are returned as requested delays.
- JSON parsing of the replies is not modelled. A reply is already its parsed body.
- Floating point is replaced by exact reals.
- Metrics.NdcgAtK: the discount 1/log2(i + 2) is a parameter `disc`. The bounds are proved for any positive, non-increasing discount rather than for log2 itself.
- Metrics.P95Index: the index is (95·n)/100 in exact arithmetic. The floating-point rounding of `n * 0.95` before `Math.floor` is not modelled.
- Metrics.Avg: requires a non-empty list. The source divides 0 by 0 and gets NaN, which has no real counterpart.
- Bench.RunSearchMethod, Bench.BenchmarkEngine and Bench.RunBenchmarks require every dataset to have at least one query. This keeps `Metrics.Avg` away from NaN. The datasets of the repository all have queries.
- Verdict.Perf: requires a non-negative latency. `Verdict.MainRowsTimed` shows that every row main produces meets this, so `Verdict.FinalVerdict` requires `Timed`.
- Common.Distance: distances are taken as non-negative, as L2 distances are. The score mapping 1/(1 + d) would exceed 1 for a distance in (-1, 0), which the model does not represent.
- Metrics.RecallAtK: recall is bounded by 1 only for distinct retrieved ids. With repeated ids the source's value can exceed 1. NDCG@5 likewise exceeds 1 only with repeated ids (`Metrics.RepeatedIdNdcgAboveOne` gives an instance). The row bounds the benchmark keeps (`Bench.ScoresInRange`) therefore leave recall and NDCG without an upper bound, and `Verdict.SummaryInRange` assumes scores within [0, 1].
- Embeddings.GetEmbedding: when the service returns no vector, the source returns `undefined`; the model returns `None`. A query past the end of the embedding list is likewise passed to an engine as `None`.
- Embedding failures in main: the code calls `getEmbeddings` outside the per-engine try/catch (src/bench.ts:188,194). An embedding failure therefore ends `main`, through `main().catch`, and is not confined to one engine. The model follows the code (`Bench.AllRowsOk`). A run in which one embedding call exhausts its retries therefore prints no report.
- Bench.BenchmarkEngine: `cleanup` is not called when init or a method throws. There is no `finally`, and the model follows the code.
- In-place sorts are modelled as values: `Sorting.SortDesc` returns the sorted copy rather than reordering the array in place.
- The quality score that `printFinalVerdict` computes a second time for the ranking (src/bench.ts:300-309) is modelled once, by `Verdict.Summary`. `Verdict.EngineScores` reuses it; the two computations in the source are the same expression.
- Dataset contents (src/datasets.ts) and configuration (src/config.ts) are not part of this model. Datasets are inputs.
