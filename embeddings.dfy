/** The client of the remote embedding and reranking service
    (src/embeddings.ts): batching, re-sorting each response by index, and
    the retry rule with linear back-off. The service is an input: a script
    giving the reply to the n-th request sent (counting from 0) for each
    possible request. Sleeps are recorded as a list of delays in ms. */
module Embeddings {
  import opened Common
  import Sorting

  const BATCH_SIZE: nat := 32
  const RETRY_DELAY: nat := 1000
  const MAX_RETRIES: nat := 3
  /** The pause between two batches (rate limiting). */
  const BATCH_PAUSE: nat := 100

  /** What one request yields: a parsed body, a non-ok HTTP status, or an
      exception from fetch or from parsing the body. */
  datatype Reply<T> = Success(body: T) | HttpStatus(status: int) | Thrown

  function ReplyError<T>(reply: Reply<T>): Error
    requires !reply.Success?
  {
    match reply
    case HttpStatus(status) => HttpError(status)
    case Thrown => FetchError
  }

  // ---------------------------------------------------------------- retry rule

  /** The result of a request retried, and how many attempts it took. */
  datatype Outcome<T> = Outcome(result: Result<T>, attempts: nat)

  /** The retry rule: after `retries` failures, send attempt number
      `first + retries`; stop at the first success, or rethrow the failure
      once MAX_RETRIES attempts have failed. */
  function Retried<R, T>(service: (nat, R) -> Reply<T>, request: R, first: nat, retries: nat): (o: Outcome<T>)
    requires retries < MAX_RETRIES
    ensures retries < o.attempts <= MAX_RETRIES
    decreases MAX_RETRIES - retries
  {
    var reply := service(first + retries, request);
    if reply.Success? then Outcome(Ok(reply.body), retries + 1)
    else if retries + 1 >= MAX_RETRIES then Outcome(Err(ReplyError(reply)), retries + 1)
    else Retried(service, request, first, retries + 1)
  }

  /** The sleeps before retries 1 .. n: RETRY_DELAY * retry. */
  function RetryDelays(n: nat): (ds: seq<nat>)
    ensures |ds| == n
    ensures forall j :: 0 <= j < n ==> ds[j] == RETRY_DELAY * (j + 1)
  {
    seq(n, j requires 0 <= j < n => RETRY_DELAY * (j + 1))
  }

  /** Attempt `n` of a request failed. */
  predicate Failed<R, T>(service: (nat, R) -> Reply<T>, request: R, n: nat) {
    !service(n, request).Success?
  }

  lemma {:induction false} RetriedFrom<R, T>(service: (nat, R) -> Reply<T>, request: R, first: nat, retries: nat)
    requires retries < MAX_RETRIES
    requires forall n :: first <= n < first + retries ==> Failed(service, request, n)
    ensures var o := Retried(service, request, first, retries);
      && (forall n :: first <= n < first + o.attempts - 1 ==> Failed(service, request, n))
      && (o.result.Ok? <==> service(first + o.attempts - 1, request).Success?)
      && (o.result.Ok? ==> o.result.value == service(first + o.attempts - 1, request).body)
      && (o.result.Err? ==>
            o.attempts == MAX_RETRIES && o.result.error == ReplyError(service(first + MAX_RETRIES - 1, request)))
    decreases MAX_RETRIES - retries
  {
    var reply := service(first + retries, request);
    if !reply.Success? && retries + 1 < MAX_RETRIES {
      assert Failed(service, request, first + retries);
      RetriedFrom(service, request, first, retries + 1);
    }
  }

  /** At most MAX_RETRIES attempts; every attempt before the last failed;
      the result is the last reply's body, or its error once all
      MAX_RETRIES attempts failed. */
  lemma RetriedSpec<R, T>(service: (nat, R) -> Reply<T>, request: R, first: nat)
    ensures var o := Retried(service, request, first, 0);
      && 1 <= o.attempts <= MAX_RETRIES
      && (forall n :: first <= n < first + o.attempts - 1 ==> Failed(service, request, n))
      && (o.result.Ok? <==> service(first + o.attempts - 1, request).Success?)
      && (o.result.Ok? ==> o.result.value == service(first + o.attempts - 1, request).body)
      && (o.result.Err? ==>
            o.attempts == MAX_RETRIES && o.result.error == ReplyError(service(first + MAX_RETRIES - 1, request)))
  {
    RetriedFrom(service, request, first, 0);
  }

  /** A non-ok status and a thrown exception are handled alike: two scripts
      that succeed at the same attempts, with the same bodies, take the same
      number of attempts and agree on success. */
  lemma {:induction false} RetriedFailureKind<R, T>(
    service: (nat, R) -> Reply<T>, other: (nat, R) -> Reply<T>, request: R, first: nat, retries: nat)
    requires retries < MAX_RETRIES
    requires forall n :: service(n, request).Success? <==> other(n, request).Success?
    requires forall n :: service(n, request).Success? ==> service(n, request).body == other(n, request).body
    ensures Retried(service, request, first, retries).attempts == Retried(other, request, first, retries).attempts
    ensures Retried(service, request, first, retries).result.Ok? <==> Retried(other, request, first, retries).result.Ok?
    ensures Retried(service, request, first, retries).result.Ok? ==>
      Retried(service, request, first, retries).result == Retried(other, request, first, retries).result
    decreases MAX_RETRIES - retries
  {
    var reply := service(first + retries, request);
    if !reply.Success? && retries + 1 < MAX_RETRIES {
      RetriedFailureKind(service, other, request, first, retries + 1);
    }
  }

  /** The retry loop shared by getEmbeddings and rerank
      (src/embeddings.ts:22-50, 73-103): `retries` counts failures, and the
      sleep before the next attempt is RETRY_DELAY * retries. */
  method WithRetries<R, T>(service: (nat, R) -> Reply<T>, request: R, first: nat)
    returns (r: Result<T>, attempts: nat, delays: seq<nat>)
    ensures Outcome(r, attempts) == Retried(service, request, first, 0)
    ensures delays == RetryDelays(attempts - 1)
  {
    var retries := 0;
    delays := [];
    while true
      invariant retries < MAX_RETRIES
      invariant Retried(service, request, first, retries) == Retried(service, request, first, 0)
      invariant delays == RetryDelays(retries)
      decreases MAX_RETRIES - retries
    {
      var reply := service(first + retries, request);
      if reply.Success? {
        return Ok(reply.body), retries + 1, delays;
      }
      retries := retries + 1;
      if retries >= MAX_RETRIES {
        return Err(ReplyError(reply)), retries, delays;
      }
      delays := delays + [RETRY_DELAY * retries];
    }
  }

  // ---------------------------------------------------------------- embeddings

  /** One item of an embeddings response: the vector and the position of its
      text in the request. */
  datatype EmbeddingItem = EmbeddingItem(embedding: Embedding, index: int)

  type EmbeddingService = (nat, seq<string>) -> Reply<seq<EmbeddingItem>>

  /** One request sent, with the batch it carried and whether it succeeded. */
  datatype Attempt = Attempt(batch: seq<string>, succeeded: bool)

  /** `(a, b) => a.index - b.index`, written as the descending sort on the
      negated index. */
  function NegIndex(d: EmbeddingItem): real {
    -(d.index as real)
  }

  /** The response items sorted by index, ascending and stable. */
  function SortByIndex(items: seq<EmbeddingItem>): (r: seq<EmbeddingItem>)
    ensures multiset(r) == multiset(items)
    ensures forall i, j :: 0 <= i < j < |r| ==> r[i].index <= r[j].index
  {
    var r := Sorting.SortDesc(items, NegIndex);
    assert forall i, j :: 0 <= i < j < |r| ==> NegIndex(r[j]) <= NegIndex(r[i]);
    r
  }

  function Vectors(items: seq<EmbeddingItem>): (es: seq<Embedding>)
    ensures |es| == |items|
    ensures forall i :: 0 <= i < |items| ==> es[i] == items[i].embedding
  {
    seq(|items|, i requires 0 <= i < |items| => items[i].embedding)
  }

  /** The slice `texts.slice(i, i + BATCH_SIZE)`. */
  function Batch(texts: seq<string>, i: nat): (b: seq<string>)
    requires i < |texts|
    ensures 0 < |b| <= BATCH_SIZE
  {
    texts[i..Min(i + BATCH_SIZE, |texts|)]
  }

  /** The consecutive slices of at most BATCH_SIZE texts. */
  function Batches(texts: seq<string>): (bs: seq<seq<string>>)
    ensures forall b :: b in bs ==> 0 < |b| <= BATCH_SIZE
    decreases |texts|
  {
    if texts == [] then []
    else [Batch(texts, 0)] + Batches(texts[Min(BATCH_SIZE, |texts|)..])
  }

  function Flatten(bs: seq<seq<string>>): seq<string> {
    if bs == [] then [] else bs[0] + Flatten(bs[1..])
  }

  /** The batches cover the texts exactly, in order. */
  lemma {:induction false} FlattenBatches(texts: seq<string>)
    ensures Flatten(Batches(texts)) == texts
    decreases |texts|
  {
    if texts != [] {
      var m := Min(BATCH_SIZE, |texts|);
      FlattenBatches(texts[m..]);
      assert Batches(texts)[1..] == Batches(texts[m..]);
      assert texts == texts[..m] + texts[m..];
    }
  }

  /** The attempts of one batch: all failed but possibly the last. */
  function AttemptLog(batch: seq<string>, attempts: nat, lastOk: bool): (log: seq<Attempt>)
    ensures |log| == attempts
  {
    seq(attempts, j requires 0 <= j < attempts => Attempt(batch, lastOk && j == attempts - 1))
  }

  /** The pause after the batch at `i`: none after the last batch. */
  function PauseAfter(texts: seq<string>, i: nat): (ds: seq<nat>)
    ensures ds == [] <==> |texts| <= i + BATCH_SIZE
  {
    if i + BATCH_SIZE < |texts| then [BATCH_PAUSE] else []
  }

  /** What a run produces: the result, the requests sent, the sleeps taken. */
  datatype Run = Run(result: Result<seq<Embedding>>, log: seq<Attempt>, delays: seq<nat>)

  /** A run preceded by output, requests and sleeps already produced. */
  function Then(es: seq<Embedding>, log: seq<Attempt>, delays: seq<nat>, rest: Run): Run {
    Run(match rest.result case Ok(v) => Ok(es + v) case Err(e) => Err(e),
        log + rest.log, delays + rest.delays)
  }

  /** getEmbeddings from text position `i` on, with `k` requests already
      sent: each batch retried, its items sorted by index and appended, and
      a pause after every batch but the last. */
  function EmbedRun(service: EmbeddingService, texts: seq<string>, i: nat, k: nat): Run
    decreases |texts| - i
  {
    if |texts| <= i then Run(Ok([]), [], [])
    else
      var batch := Batch(texts, i);
      var o := Retried(service, batch, k, 0);
      var log := AttemptLog(batch, o.attempts, o.result.Ok?);
      var retryDelays := RetryDelays(o.attempts - 1);
      match o.result
      case Err(e) => Run(Err(e), log, retryDelays)
      case Ok(items) =>
        Then(Vectors(SortByIndex(items)), log, retryDelays + PauseAfter(texts, i),
          EmbedRun(service, texts, i + BATCH_SIZE, k + o.attempts))
  }

  /** A batch that succeeds: its vectors, its attempts and sleeps, then the
      rest of the run. */
  lemma EmbedRunOk(service: EmbeddingService, texts: seq<string>, i: nat, k: nat,
                   items: seq<EmbeddingItem>, attempts: nat)
    requires i < |texts|
    requires Retried(service, Batch(texts, i), k, 0) == Outcome(Ok(items), attempts)
    ensures EmbedRun(service, texts, i, k) ==
      Then(Vectors(SortByIndex(items)), AttemptLog(Batch(texts, i), attempts, true),
        RetryDelays(attempts - 1) + PauseAfter(texts, i),
        EmbedRun(service, texts, i + BATCH_SIZE, k + attempts))
  {
    EmbedRunOkResult(service, texts, i, k, items, attempts);
    EmbedRunOkLog(service, texts, i, k, items, attempts);
    EmbedRunOkDelays(service, texts, i, k, items, attempts);
  }

  lemma EmbedRunOkResult(service: EmbeddingService, texts: seq<string>, i: nat, k: nat,
                   items: seq<EmbeddingItem>, attempts: nat)
    requires i < |texts|
    requires Retried(service, Batch(texts, i), k, 0) == Outcome(Ok(items), attempts)
    ensures var rest := EmbedRun(service, texts, i + BATCH_SIZE, k + attempts).result;
      EmbedRun(service, texts, i, k).result ==
        if rest.Ok? then Ok(Vectors(SortByIndex(items)) + rest.value) else rest
  {
  }

  lemma EmbedRunOkLog(service: EmbeddingService, texts: seq<string>, i: nat, k: nat,
                   items: seq<EmbeddingItem>, attempts: nat)
    requires i < |texts|
    requires Retried(service, Batch(texts, i), k, 0) == Outcome(Ok(items), attempts)
    ensures EmbedRun(service, texts, i, k).log ==
      AttemptLog(Batch(texts, i), attempts, true) + EmbedRun(service, texts, i + BATCH_SIZE, k + attempts).log
  {
  }

  lemma EmbedRunOkDelays(service: EmbeddingService, texts: seq<string>, i: nat, k: nat,
                   items: seq<EmbeddingItem>, attempts: nat)
    requires i < |texts|
    requires Retried(service, Batch(texts, i), k, 0) == Outcome(Ok(items), attempts)
    ensures EmbedRun(service, texts, i, k).delays ==
      RetryDelays(attempts - 1) + PauseAfter(texts, i) + EmbedRun(service, texts, i + BATCH_SIZE, k + attempts).delays
  {
  }

  /** EmbedRunOk with the number of requests sent so far named `sent`. */
  lemma EmbedRunNext(service: EmbeddingService, texts: seq<string>, i: nat, k: nat,
                     items: seq<EmbeddingItem>, attempts: nat, sent: nat)
    requires i < |texts|
    requires Retried(service, Batch(texts, i), k, 0) == Outcome(Ok(items), attempts)
    requires sent == k + attempts
    ensures EmbedRun(service, texts, i, k) ==
      Then(Vectors(SortByIndex(items)), AttemptLog(Batch(texts, i), attempts, true),
        RetryDelays(attempts - 1) + PauseAfter(texts, i),
        EmbedRun(service, texts, i + BATCH_SIZE, sent))
  {
    EmbedRunOk(service, texts, i, k, items, attempts);
  }

  /** A batch whose attempts all fail ends the run. */
  lemma EmbedRunErr(service: EmbeddingService, texts: seq<string>, i: nat, k: nat, e: Error, attempts: nat)
    requires i < |texts|
    requires Retried(service, Batch(texts, i), k, 0) == Outcome(Err(e), attempts)
    ensures EmbedRun(service, texts, i, k) ==
      Run(Err(e), AttemptLog(Batch(texts, i), attempts, false), RetryDelays(attempts - 1))
  {
  }

  /** The run state after one more successful batch. */
  lemma EmbedRunAdvance(service: EmbeddingService, texts: seq<string>, i: nat, k: nat,
                        results: seq<Embedding>, log: seq<Attempt>, delays: seq<nat>,
                        items: seq<EmbeddingItem>, attempts: nat, next: nat, sent: nat)
    requires i < |texts|
    requires Retried(service, Batch(texts, i), k, 0) == Outcome(Ok(items), attempts)
    requires next == i + BATCH_SIZE && sent == k + attempts
    ensures Then(results, log, delays, EmbedRun(service, texts, i, k)) ==
      Then(results + Vectors(SortByIndex(items)),
           log + AttemptLog(Batch(texts, i), attempts, true),
           delays + (RetryDelays(attempts - 1) + PauseAfter(texts, i)),
           EmbedRun(service, texts, next, sent))
  {
    EmbedRunNext(service, texts, i, k, items, attempts, sent);
    ThenThen(results, log, delays, Vectors(SortByIndex(items)), AttemptLog(Batch(texts, i), attempts, true),
      RetryDelays(attempts - 1) + PauseAfter(texts, i),
      EmbedRun(service, texts, next, sent));
  }

  /** The run state after a batch whose attempts all failed. */
  lemma EmbedRunFail(service: EmbeddingService, texts: seq<string>, i: nat, k: nat,
                     results: seq<Embedding>, log: seq<Attempt>, delays: seq<nat>,
                     e: Error, attempts: nat)
    requires i < |texts|
    requires Retried(service, Batch(texts, i), k, 0) == Outcome(Err(e), attempts)
    ensures Then(results, log, delays, EmbedRun(service, texts, i, k)) ==
      Run(Err(e), log + AttemptLog(Batch(texts, i), attempts, false), delays + RetryDelays(attempts - 1))
  {
    EmbedRunErr(service, texts, i, k, e, attempts);
  }

  lemma ThenNothing(es: seq<Embedding>, log: seq<Attempt>, delays: seq<nat>, rest: Run)
    ensures Then([], [], [], rest) == rest
    ensures Then(es, log, delays, Run(Ok([]), [], [])) == Run(Ok(es), log, delays)
  {
    assert [] + rest.log == rest.log && [] + rest.delays == rest.delays;
    assert rest.result.Ok? ==> [] + rest.result.value == rest.result.value;
    assert es + [] == es && log + [] == log && delays + [] == delays;
  }

  lemma ThenThen(es1: seq<Embedding>, log1: seq<Attempt>, d1: seq<nat>,
                 es2: seq<Embedding>, log2: seq<Attempt>, d2: seq<nat>, rest: Run)
    ensures Then(es1, log1, d1, Then(es2, log2, d2, rest)) == Then(es1 + es2, log1 + log2, d1 + d2, rest)
  {
    assert log1 + (log2 + rest.log) == log1 + log2 + rest.log;
    assert d1 + (d2 + rest.delays) == d1 + d2 + rest.delays;
    if rest.result.Ok? {
      assert es1 + (es2 + rest.result.value) == es1 + es2 + rest.result.value;
    }
  }

  /** getEmbeddings (src/embeddings.ts:18-55). */
  method GetEmbeddings(service: EmbeddingService, texts: seq<string>)
    returns (r: Result<seq<Embedding>>, log: seq<Attempt>, delays: seq<nat>)
    ensures Run(r, log, delays) == EmbedRun(service, texts, 0, 0)
    ensures texts == [] ==> r == Ok([]) && log == [] && delays == []
  {
    var results: seq<Embedding> := [];
    log := [];
    delays := [];
    var i := 0;
    var sent := 0;
    ThenNothing(results, log, delays, EmbedRun(service, texts, 0, 0));
    while i < |texts|
      invariant sent == |log|
      invariant Then(results, log, delays, EmbedRun(service, texts, i, sent)) == EmbedRun(service, texts, 0, 0)
      decreases |texts| - i
    {
      var batch := Batch(texts, i);
      var res, attempts, retryDelays := WithRetries(service, batch, sent);
      var batchLog := AttemptLog(batch, attempts, res.Ok?);
      if res.Err? {
        EmbedRunFail(service, texts, i, sent, results, log, delays, res.error, attempts);
        log := log + batchLog;
        delays := delays + retryDelays;
        return Err(res.error), log, delays;
      }
      var pause := PauseAfter(texts, i);
      var next, nextSent := i + BATCH_SIZE, sent + attempts;
      EmbedRunAdvance(service, texts, i, sent, results, log, delays, res.value, attempts, next, nextSent);
      results := results + Vectors(SortByIndex(res.value));
      log := log + batchLog;
      delays := delays + (retryDelays + pause);
      i, sent := next, nextSent;
    }
    r := Ok(results);
    ThenNothing(results, log, delays, EmbedRun(service, texts, i, sent));
  }

  // ---------------------------------------------------------------- what a run promises

  /** The item list a service owes for a batch: one item per text, at that
      text's position, holding that text's embedding. */
  function Expected(embed: string -> Embedding, batch: seq<string>): (items: seq<EmbeddingItem>)
    ensures |items| == |batch|
    ensures forall j :: 0 <= j < |batch| ==> items[j] == EmbeddingItem(embed(batch[j]), j)
  {
    seq(|batch|, j requires 0 <= j < |batch| => EmbeddingItem(embed(batch[j]), j))
  }

  /** The reply to request `n` carrying `batch`, if successful, holds the
      items owed for the batch, in any order. */
  ghost predicate HonestReply(service: EmbeddingService, embed: string -> Embedding, n: nat, batch: seq<string>) {
    service(n, batch).Success? ==> multiset(service(n, batch).body) == multiset(Expected(embed, batch))
  }

  /** Every successful reply holds the items owed for its batch. */
  ghost predicate Honest(service: EmbeddingService, embed: string -> Embedding) {
    forall n: nat, batch: seq<string> :: HonestReply(service, embed, n, batch)
  }

  /** The embeddings of the texts, in their order. */
  function EmbedAll(embed: string -> Embedding, texts: seq<string>): (es: seq<Embedding>)
    ensures |es| == |texts|
    ensures forall t :: 0 <= t < |texts| ==> es[t] == embed(texts[t])
  {
    seq(|texts|, t requires 0 <= t < |texts| => embed(texts[t]))
  }

  /** Sorting by index restores the items owed for a batch, whatever order
      the service sent them in. */
  lemma SortByIndexExpected(items: seq<EmbeddingItem>, embed: string -> Embedding, batch: seq<string>)
    requires multiset(items) == multiset(Expected(embed, batch))
    ensures Vectors(SortByIndex(items)) == EmbedAll(embed, batch)
  {
    var sorted := SortByIndex(items);
    var want := Expected(embed, batch);
    assert Sorting.SortedDesc(want, NegIndex);
    assert Sorting.SortedDesc(sorted, NegIndex);
    ExpectedKeysDistinct(embed, batch);
    Sorting.KeysDistinctPerm(sorted, want, NegIndex);
    Sorting.SortedUnique(sorted, want, NegIndex);
  }

  /** The items owed for a batch have distinct indices. */
  lemma ExpectedKeysDistinct(embed: string -> Embedding, batch: seq<string>)
    ensures Sorting.KeysDistinct(Expected(embed, batch), NegIndex)
  {
    var want := Expected(embed, batch);
    forall x, y | x in want && y in want && NegIndex(x) == NegIndex(y)
      ensures x == y
    {
      var i :| 0 <= i < |want| && want[i] == x;
      var j :| 0 <= j < |want| && want[j] == y;
    }
  }

  lemma EmbedAllAppend(embed: string -> Embedding, a: seq<string>, b: seq<string>)
    ensures EmbedAll(embed, a + b) == EmbedAll(embed, a) + EmbedAll(embed, b)
  {
  }

  /** Against an honest service, a batch that succeeds yields the embeddings
      of its texts. */
  lemma HonestBatch(service: EmbeddingService, embed: string -> Embedding, batch: seq<string>, k: nat)
    requires Honest(service, embed)
    ensures Retried(service, batch, k, 0).result.Ok? ==>
      Vectors(SortByIndex(Retried(service, batch, k, 0).result.value)) == EmbedAll(embed, batch)
  {
    var o := Retried(service, batch, k, 0);
    RetriedSpec(service, batch, k);
    if o.result.Ok? {
      assert HonestReply(service, embed, k + o.attempts - 1, batch);
      SortByIndexExpected(o.result.value, embed, batch);
    }
  }

  /** The texts from `i` on are the batch at `i` and the texts after it. */
  lemma BatchSplit(texts: seq<string>, i: nat)
    requires i < |texts|
    ensures texts[i..] == Batch(texts, i) + texts[Min(i + BATCH_SIZE, |texts|)..]
  {
  }

  /** The batches from `i` on: the batch at `i`, then the batches after it. */
  lemma BatchesStep(texts: seq<string>, i: nat)
    requires i < |texts|
    ensures Batches(texts[i..]) == [Batch(texts, i)] + Batches(texts[Min(i + BATCH_SIZE, |texts|)..])
  {
    var t := texts[i..];
    var m := Min(i + BATCH_SIZE, |texts|);
    assert Batch(t, 0) == Batch(texts, i);
    assert t[Min(BATCH_SIZE, |t|)..] == texts[m..];
  }

  /** If the run succeeds, its output is the embeddings of `ts`. */
  ghost predicate FaithfulTo(run: Run, embed: string -> Embedding, ts: seq<string>) {
    run.result.Ok? ==> run.result.value == EmbedAll(embed, ts)
  }

  /** Output for a batch's texts followed by a run that is faithful to the
      texts after it is faithful to both. */
  lemma ThenFaithful(embed: string -> Embedding, es: seq<Embedding>, log: seq<Attempt>, delays: seq<nat>,
                     rest: Run, a: seq<string>, b: seq<string>, ts: seq<string>)
    requires es == EmbedAll(embed, a)
    requires FaithfulTo(rest, embed, b)
    requires ts == a + b
    ensures FaithfulTo(Then(es, log, delays, rest), embed, ts)
  {
    EmbedAllAppend(embed, a, b);
  }

  /** Against an honest service, a successful run from position `i` yields
      the embeddings of texts[i..], in the caller's order. */
  lemma {:induction false} EmbedRunFaithful(service: EmbeddingService, embed: string -> Embedding,
                                            texts: seq<string>, i: nat, k: nat)
    requires Honest(service, embed)
    requires i <= |texts|
    ensures FaithfulTo(EmbedRun(service, texts, i, k), embed, texts[i..])
    decreases |texts| - i, 2
  {
    if i < |texts| {
      var o := Retried(service, Batch(texts, i), k, 0);
      match o.result
      case Ok(items) => EmbedRunFaithfulOk(service, embed, texts, i, k, items, o.attempts);
      case Err(e) => EmbedRunErr(service, texts, i, k, e, o.attempts);
    }
  }

  /** The inductive step of EmbedRunFaithful, for a batch that succeeds. */
  lemma {:induction false} EmbedRunFaithfulOk(service: EmbeddingService, embed: string -> Embedding,
                                              texts: seq<string>, i: nat, k: nat,
                                              items: seq<EmbeddingItem>, attempts: nat)
    requires Honest(service, embed)
    requires i < |texts|
    requires Retried(service, Batch(texts, i), k, 0) == Outcome(Ok(items), attempts)
    ensures FaithfulTo(EmbedRun(service, texts, i, k), embed, texts[i..])
    decreases |texts| - i, 1
  {
    var batch := Batch(texts, i);
    var sent := k + attempts;
    EmbedRunNext(service, texts, i, k, items, attempts, sent);
    HonestBatch(service, embed, batch, k);
    EmbedRunFaithfulAfter(service, embed, texts, i, sent);
    BatchSplit(texts, i);
    ThenFaithful(embed, Vectors(SortByIndex(items)), AttemptLog(batch, attempts, true),
      RetryDelays(attempts - 1) + PauseAfter(texts, i),
      EmbedRun(service, texts, i + BATCH_SIZE, sent),
      batch, texts[Min(i + BATCH_SIZE, |texts|)..], texts[i..]);
  }

  /** The run after the batch at `i` is faithful to the texts after it. */
  lemma {:induction false} EmbedRunFaithfulAfter(service: EmbeddingService, embed: string -> Embedding,
                                                 texts: seq<string>, i: nat, k: nat)
    requires Honest(service, embed)
    requires i < |texts|
    ensures FaithfulTo(EmbedRun(service, texts, i + BATCH_SIZE, k), embed, texts[Min(i + BATCH_SIZE, |texts|)..])
    decreases |texts| - i, 0
  {
    if i + BATCH_SIZE <= |texts| {
      EmbedRunFaithful(service, embed, texts, i + BATCH_SIZE, k);
    } else {
      assert texts[|texts|..] == [];
    }
  }

  /** getEmbeddings against an honest service: output[t] is the embedding of
      texts[t] for every t, across all batches. */
  lemma GetEmbeddingsFaithful(service: EmbeddingService, embed: string -> Embedding, texts: seq<string>)
    requires Honest(service, embed)
    ensures var run := EmbedRun(service, texts, 0, 0);
      run.result.Ok? ==> |run.result.value| == |texts| && run.result.value == EmbedAll(embed, texts)
  {
    EmbedRunFaithful(service, embed, texts, 0, 0);
    assert texts[0..] == texts;
  }

  /** The batches of the successful requests, in order. */
  function Succeeded(log: seq<Attempt>): seq<seq<string>> {
    if log == [] then [] else (if log[0].succeeded then [log[0].batch] else []) + Succeeded(log[1..])
  }

  lemma {:induction false} SucceededAppend(a: seq<Attempt>, b: seq<Attempt>)
    ensures Succeeded(a + b) == Succeeded(a) + Succeeded(b)
  {
    if a == [] {
      assert a + b == b;
    } else {
      SucceededAppend(a[1..], b);
      assert (a + b)[1..] == a[1..] + b;
      assert (a + b)[0] == a[0];
    }
  }

  lemma {:induction false} SucceededAttempts(batch: seq<string>, n: nat, lastOk: bool)
    requires 0 < n
    ensures Succeeded(AttemptLog(batch, n, lastOk)) == if lastOk then [batch] else []
  {
    var log := AttemptLog(batch, n, lastOk);
    if n == 1 {
      assert log[1..] == [];
    } else {
      assert log[1..] == AttemptLog(batch, n - 1, lastOk);
      SucceededAttempts(batch, n - 1, lastOk);
    }
  }

  /** If the run succeeds, its successful requests carry the batches of `ts`. */
  ghost predicate SendsBatches(run: Run, ts: seq<string>) {
    run.result.Ok? ==> Succeeded(run.log) == Batches(ts)
  }

  /** The requests of the batch at `i`, ending in success, followed by a
      run that sends the batches after it, send all the batches from `i` on. */
  lemma ThenBatches(texts: seq<string>, i: nat, attempts: nat,
                    es: seq<Embedding>, delays: seq<nat>, rest: Run)
    requires i < |texts|
    requires 0 < attempts
    requires SendsBatches(rest, texts[Min(i + BATCH_SIZE, |texts|)..])
    ensures SendsBatches(Then(es, AttemptLog(Batch(texts, i), attempts, true), delays, rest), texts[i..])
  {
    var log := AttemptLog(Batch(texts, i), attempts, true);
    SucceededAttempts(Batch(texts, i), attempts, true);
    BatchesStep(texts, i);
    SucceededAppend(log, rest.log);
  }

  /** A successful run sends each batch until one request for it succeeds:
      the successful requests are exactly the batches, in order. */
  lemma {:induction false} EmbedRunBatches(service: EmbeddingService, texts: seq<string>, i: nat, k: nat)
    requires i <= |texts|
    ensures SendsBatches(EmbedRun(service, texts, i, k), texts[i..])
    decreases |texts| - i, 2
  {
    if i < |texts| {
      var o := Retried(service, Batch(texts, i), k, 0);
      match o.result
      case Ok(items) => EmbedRunBatchesOk(service, texts, i, k, items, o.attempts);
      case Err(e) => EmbedRunErr(service, texts, i, k, e, o.attempts);
    } else {
      assert texts[i..] == [];
    }
  }

  /** The inductive step of EmbedRunBatches, for a batch that succeeds. */
  lemma {:induction false} EmbedRunBatchesOk(service: EmbeddingService, texts: seq<string>, i: nat, k: nat,
                                             items: seq<EmbeddingItem>, attempts: nat)
    requires i < |texts|
    requires Retried(service, Batch(texts, i), k, 0) == Outcome(Ok(items), attempts)
    ensures SendsBatches(EmbedRun(service, texts, i, k), texts[i..])
    decreases |texts| - i, 1
  {
    var batch := Batch(texts, i);
    var sent := k + attempts;
    EmbedRunNext(service, texts, i, k, items, attempts, sent);
    EmbedRunBatchesAfter(service, texts, i, sent);
    ThenBatches(texts, i, attempts, Vectors(SortByIndex(items)),
      RetryDelays(attempts - 1) + PauseAfter(texts, i), EmbedRun(service, texts, i + BATCH_SIZE, sent));
  }

  /** The run after the batch at `i` sends the batches after it. */
  lemma {:induction false} EmbedRunBatchesAfter(service: EmbeddingService, texts: seq<string>, i: nat, k: nat)
    requires i < |texts|
    ensures SendsBatches(EmbedRun(service, texts, i + BATCH_SIZE, k), texts[Min(i + BATCH_SIZE, |texts|)..])
    decreases |texts| - i, 0
  {
    if i + BATCH_SIZE <= |texts| {
      EmbedRunBatches(service, texts, i + BATCH_SIZE, k);
    } else {
      assert texts[|texts|..] == [];
    }
  }

  /** Request `n` carrying `batch` succeeds. */
  predicate Answers<R, T>(service: (nat, R) -> Reply<T>, n: nat, request: R) {
    service(n, request).Success?
  }

  /** `n` pauses between batches. */
  function Pauses(n: nat): (ds: seq<nat>)
    ensures |ds| == n
    ensures forall j :: 0 <= j < n ==> ds[j] == BATCH_PAUSE
  {
    seq(n, _ => BATCH_PAUSE)
  }

  /** A service that never fails: the run succeeds with one request per batch. */
  lemma {:induction false} EmbedRunNoFailures(service: EmbeddingService, texts: seq<string>, i: nat, k: nat)
    requires forall n: nat, batch: seq<string> :: Answers(service, n, batch)
    requires i <= |texts|
    ensures var run := EmbedRun(service, texts, i, k);
      run.result.Ok? && |run.log| == |Batches(texts[i..])|
    decreases |texts| - i
  {
    if i < |texts| {
      var batch := Batch(texts, i);
      assert Answers(service, k, batch);
      var o := Retried(service, batch, k, 0);
      assert o == Outcome(Ok(service(k, batch).body), 1);
      EmbedRunNext(service, texts, i, k, service(k, batch).body, 1, k + 1);
      BatchesStep(texts, i);
      var m := Min(i + BATCH_SIZE, |texts|);
      if i + BATCH_SIZE < |texts| {
        EmbedRunNoFailures(service, texts, i + BATCH_SIZE, k + 1);
      } else {
        assert texts[m..] == [];
      }
    } else {
      assert texts[i..] == [];
    }
  }

  /** The number of batches of `n` texts. */
  function BatchCount(n: nat): nat {
    (n + BATCH_SIZE - 1) / BATCH_SIZE
  }

  lemma {:induction false} BatchesCount(texts: seq<string>)
    ensures |Batches(texts)| == BatchCount(|texts|)
    decreases |texts|
  {
    if texts != [] {
      BatchesCount(texts[Min(BATCH_SIZE, |texts|)..]);
    }
  }

  /** A batch answered at the first attempt: no retry sleeps, then the pause. */
  lemma EmbedRunAnswered(service: EmbeddingService, texts: seq<string>, i: nat, k: nat)
    requires i < |texts|
    requires Answers(service, k, Batch(texts, i))
    ensures EmbedRun(service, texts, i, k).delays ==
      PauseAfter(texts, i) + EmbedRun(service, texts, i + BATCH_SIZE, k + 1).delays
  {
    var batch := Batch(texts, i);
    assert Retried(service, batch, k, 0) == Outcome(Ok(service(k, batch).body), 1);
    EmbedRunNext(service, texts, i, k, service(k, batch).body, 1, k + 1);
    assert RetryDelays(0) == [];
  }

  /** A service that never fails: the only sleeps are the pauses between
      consecutive batches, one fewer than the batches. */
  lemma {:induction false} EmbedRunNoFailureDelays(service: EmbeddingService, texts: seq<string>, i: nat, k: nat)
    requires forall n: nat, batch: seq<string> :: Answers(service, n, batch)
    requires i < |texts|
    ensures EmbedRun(service, texts, i, k).delays == Pauses(BatchCount(|texts| - i) - 1)
    decreases |texts| - i
  {
    assert Answers(service, k, Batch(texts, i));
    EmbedRunAnswered(service, texts, i, k);
    if i + BATCH_SIZE < |texts| {
      EmbedRunNoFailureDelays(service, texts, i + BATCH_SIZE, k + 1);
      assert BatchCount(|texts| - i) == BatchCount(|texts| - (i + BATCH_SIZE)) + 1;
      assert [BATCH_PAUSE] + Pauses(BatchCount(|texts| - (i + BATCH_SIZE)) - 1) == Pauses(BatchCount(|texts| - i) - 1);
    } else {
      assert BatchCount(|texts| - i) == 1;
    }
  }

  /** getEmbedding (src/embeddings.ts:57-60): the first embedding of a
      one-text run, None when the reply was empty (undefined in the source). */
  method GetEmbedding(service: EmbeddingService, text: string, ghost embed: string -> Embedding)
    returns (r: Result<Option<Embedding>>, log: seq<Attempt>, delays: seq<nat>)
    ensures var run := EmbedRun(service, [text], 0, 0);
      && log == run.log && delays == run.delays
      && (run.result.Err? ==> r == Err(run.result.error))
      && (run.result.Ok? && run.result.value != [] ==> r == Ok(Some(run.result.value[0])))
    ensures Honest(service, embed) && r.Ok? ==> r.value == Some(embed(text))
  {
    var all;
    all, log, delays := GetEmbeddings(service, [text]);
    if all.Err? {
      return Err(all.error), log, delays;
    }
    if all.value == [] {
      r := Ok(None);
    } else {
      r := Ok(Some(all.value[0]));
    }
    if Honest(service, embed) {
      GetEmbeddingsFaithful(service, embed, [text]);
    }
  }

  // ---------------------------------------------------------------- rerank

  /** One item of a rerank response: a position in the document list and its score. */
  datatype RerankResult = RerankResult(index: int, relevanceScore: real)

  datatype RerankRequest = RerankRequest(query: string, documents: seq<string>, topN: nat)

  type RerankService = (nat, RerankRequest) -> Reply<seq<RerankResult>>

  function Relevance(x: RerankResult): real {
    x.relevanceScore
  }

  /** The request body: `top_n` is topK, or the number of documents when absent. */
  function RerankRequestFor(query: string, documents: seq<string>, topK: Option<nat>): (q: RerankRequest)
    ensures q.query == query && q.documents == documents
    ensures topK.None? ==> q.topN == |documents|
    ensures topK.Some? ==> q.topN == topK.value
  {
    RerankRequest(query, documents, match topK case Some(n) => n case None => |documents|)
  }

  /** What a rerank call comes to: nothing sent for an empty document list;
      otherwise the retried request, its results sorted by descending
      relevance, and the number of attempts made. */
  function Reranked(service: RerankService, first: nat, query: string, documents: seq<string>, topK: Option<nat>)
    : (o: Outcome<seq<RerankResult>>)
    ensures documents == [] ==> o == Outcome(Ok([]), 0)
    ensures documents != [] ==>
      var sent := Retried(service, RerankRequestFor(query, documents, topK), first, 0);
      && o.attempts == sent.attempts
      && (sent.result.Err? <==> o.result.Err?)
      && (o.result.Ok? ==> multiset(o.result.value) == multiset(sent.result.value))
    ensures o.result.Ok? ==> Sorting.SortedDesc(o.result.value, Relevance)
  {
    if documents == [] then Outcome(Ok([]), 0)
    else
      var sent := Retried(service, RerankRequestFor(query, documents, topK), first, 0);
      match sent.result
      case Err(e) => Outcome(Err(e), sent.attempts)
      case Ok(v) => Outcome(Ok(Sorting.SortDesc(v, Relevance)), sent.attempts)
  }

  /** rerank (src/embeddings.ts:67-104): no request for an empty document
      list; otherwise the retried request, its results sorted by descending
      relevance (stable). `first` numbers the first request sent. */
  method Rerank(service: RerankService, first: nat, query: string, documents: seq<string>, topK: Option<nat>)
    returns (r: Result<seq<RerankResult>>, attempts: nat, delays: seq<nat>)
    ensures Outcome(r, attempts) == Reranked(service, first, query, documents, topK)
    ensures documents == [] ==> r == Ok([]) && attempts == 0 && delays == []
    ensures documents != [] ==> delays == RetryDelays(attempts - 1)
    ensures r.Ok? ==> Sorting.SortedDesc(r.value, Relevance)
  {
    if documents == [] {
      return Ok([]), 0, [];
    }
    var request := RerankRequestFor(query, documents, topK);
    var reply;
    reply, attempts, delays := WithRetries(service, request, first);
    if reply.Err? {
      return Err(reply.error), attempts, delays;
    }
    r := Ok(Sorting.SortDesc(reply.value, Relevance));
  }
}
