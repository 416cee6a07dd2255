/** The DuckDB adapter (src/engines/duckdb-engine.ts): the apostrophe-doubling
    escape that splices text into SQL string literals, the score mappings of
    its two ranked sources, and its hybrid search. The database is an input:
    it answers the cosine-distance query and the BM25 query (given the SQL
    literal holding the query text); either may fail, and neither failure
    is caught. */
module DuckdbEngine {
  import opened Common
  import Fusion

  /** A row of the distance query, nearest first; the distance may be NULL. */
  datatype VecRow = VecRow(id: string, distance: Option<real>)

  /** A row of the BM25 query, best first; the score may be NULL. */
  datatype FtsRow = FtsRow(id: string, score: Option<real>)

  datatype Database = Database(
    knn: (Embedding, nat) -> Result<seq<VecRow>>,
    bm25: (string, nat) -> Result<seq<FtsRow>>)

  /** `x ?? 0`. */
  function OrZero(x: Option<real>): real {
    match x
    case Some(v) => v
    case None => 0.0
  }

  // ---------------------------------------------------------------- escaping

  const QUOTE: char := '\''

  function Count(s: string, c: char): (n: nat)
    ensures n <= |s|
  {
    if s == [] then 0 else (if s[0] == c then 1 else 0) + Count(s[1..], c)
  }

  /** `replace(/'/g, "''")` (src/engines/duckdb-engine.ts:57, 93). */
  function Escape(s: string): (e: string)
    ensures |e| == |s| + Count(s, QUOTE)
    ensures forall c :: c in e <==> c in s
  {
    if s == [] then []
    else (if s[0] == QUOTE then [QUOTE, QUOTE] else [s[0]]) + Escape(s[1..])
  }

  /** Collapse every `''` back to `'`. */
  function Unescape(e: string): string
    decreases |e|
  {
    if e == [] then []
    else if |e| > 1 && e[0] == QUOTE && e[1] == QUOTE then [QUOTE] + Unescape(e[2..])
    else [e[0]] + Unescape(e[1..])
  }

  /** Escaping changes nothing but the apostrophes: undoing it gives the text back. */
  lemma {:induction false} UnescapeEscape(s: string)
    ensures Unescape(Escape(s)) == s
  {
    if s != [] {
      UnescapeEscape(s[1..]);
      var e := Escape(s);
      if s[0] == QUOTE {
        assert e == [QUOTE, QUOTE] + Escape(s[1..]);
        assert e[2..] == Escape(s[1..]);
      } else {
        assert e == [s[0]] + Escape(s[1..]);
        assert e[1..] == Escape(s[1..]);
      }
      assert s == [s[0]] + s[1..];
    }
  }

  /** How SQL reads a string literal whose opening quote is already consumed:
      `''` stands for one apostrophe and a lone `'` ends the literal. Gives the
      literal's text and what follows it, or None for an unterminated literal. */
  function ReadLiteral(s: string): Option<(string, string)>
    decreases |s|
  {
    if s == [] then None
    else if s[0] == QUOTE then
      if |s| > 1 && s[1] == QUOTE then
        match ReadLiteral(s[2..])
        case None => None
        case Some(p) => Some(([QUOTE] + p.0, p.1))
      else Some(([], s[1..]))
    else
      match ReadLiteral(s[1..])
      case None => None
      case Some(p) => Some(([s[0]] + p.0, p.1))
  }

  /** The literal `'` + Escape(t) + `'` spliced before SQL text that does not
      begin with an apostrophe reads back as exactly `t`, and the SQL after it
      is left as it was: the query text cannot end the literal early. */
  lemma {:induction false} LiteralRoundTrip(t: string, rest: string)
    requires rest == [] || rest[0] != QUOTE
    ensures ReadLiteral(Escape(t) + [QUOTE] + rest) == Some((t, rest))
  {
    var s := Escape(t) + [QUOTE] + rest;
    if t == [] {
      assert s == [QUOTE] + rest;
      assert s[1..] == rest;
    } else {
      LiteralRoundTrip(t[1..], rest);
      var tail := Escape(t[1..]) + [QUOTE] + rest;
      if t[0] == QUOTE {
        assert s == [QUOTE, QUOTE] + tail;
        assert s[2..] == tail;
      } else {
        assert s == [t[0]] + tail;
        assert s[1..] == tail;
      }
      assert t == [t[0]] + t[1..];
    }
  }

  // ---------------------------------------------------------------- vector

  /** The row mapping of searchVector: score 1 - (distance ?? 0), row order kept. */
  function VectorResults(rows: seq<VecRow>): (rs: seq<SearchResult>)
    ensures |rs| == |rows|
    ensures forall i :: 0 <= i < |rows| ==> rs[i].docId == rows[i].id
    ensures forall i, j :: 0 <= i < |rows| && 0 <= j < |rows| ==>
      (OrZero(rows[i].distance) <= OrZero(rows[j].distance) <==> rs[j].score <= rs[i].score)
    ensures forall i :: 0 <= i < |rows| && rows[i].distance.None? ==> rs[i].score == 1.0
  {
    seq(|rows|, i requires 0 <= i < |rows| => SearchResult(rows[i].id, 1.0 - OrZero(rows[i].distance)))
  }

  /** searchVector (src/engines/duckdb-engine.ts:73-90); a failing query propagates. */
  function SearchVector(db: Database, queryEmbedding: Embedding, topK: nat): (r: Result<seq<SearchResult>>)
    ensures r.Err? <==> db.knn(queryEmbedding, topK).Err?
    ensures r.Err? ==> r.error == db.knn(queryEmbedding, topK).error
    ensures r.Ok? ==> var rows := db.knn(queryEmbedding, topK).value;
      && |r.value| == |rows|
      && (forall i :: 0 <= i < |rows| ==> r.value[i].docId == rows[i].id)
      && (forall i :: 0 <= i < |rows| && rows[i].distance.None? ==> r.value[i].score == 1.0)
      && (forall i, j :: 0 <= i < |rows| && 0 <= j < |rows| ==>
            (OrZero(rows[i].distance) <= OrZero(rows[j].distance) <==> r.value[j].score <= r.value[i].score))
  {
    match db.knn(queryEmbedding, topK)
    case Ok(rows) => Ok(VectorResults(rows))
    case Err(e) => Err(e)
  }

  // ---------------------------------------------------------------- FTS

  /** The literal holding the query text in the BM25 call. */
  function QueryLiteral(queryText: string): (lit: string)
    ensures |lit| == |queryText| + Count(queryText, QUOTE) + 2
  {
    [QUOTE] + Escape(queryText) + [QUOTE]
  }

  /** The row mapping of searchFTS: score `score ?? 0`, row order kept. */
  function FtsResults(rows: seq<FtsRow>): (rs: seq<SearchResult>)
    ensures |rs| == |rows|
    ensures forall i :: 0 <= i < |rows| ==> rs[i].docId == rows[i].id
    ensures forall i :: 0 <= i < |rows| ==> (rows[i].score.Some? ==> rs[i].score == rows[i].score.value)
    ensures forall i :: 0 <= i < |rows| ==> (rows[i].score.None? ==> rs[i].score == 0.0)
  {
    seq(|rows|, i requires 0 <= i < |rows| => SearchResult(rows[i].id, OrZero(rows[i].score)))
  }

  /** searchFTS (src/engines/duckdb-engine.ts:92-107): no exception handling,
      so a failing query propagates. */
  function SearchFTS(db: Database, queryText: string, topK: nat): (r: Result<seq<SearchResult>>)
    ensures r.Err? <==> db.bm25(QueryLiteral(queryText), topK).Err?
    ensures r.Err? ==> r.error == db.bm25(QueryLiteral(queryText), topK).error
    ensures r.Ok? ==> var rows := db.bm25(QueryLiteral(queryText), topK).value;
      && |r.value| == |rows|
      && (forall i :: 0 <= i < |rows| ==> r.value[i].docId == rows[i].id)
      && (forall i :: 0 <= i < |rows| ==> r.value[i].score == OrZero(rows[i].score))
  {
    match db.bm25(QueryLiteral(queryText), topK)
    case Ok(rows) => Ok(FtsResults(rows))
    case Err(e) => Err(e)
  }

  /** The database reads the query text back out of the literal unchanged. */
  lemma QueryLiteralReadsBack(queryText: string, rest: string)
    requires rest == [] || rest[0] != QUOTE
    ensures var lit := QueryLiteral(queryText);
      lit[0] == QUOTE && ReadLiteral(lit[1..] + rest) == Some((queryText, rest))
  {
    var lit := QueryLiteral(queryText);
    assert lit[1..] + rest == Escape(queryText) + [QUOTE] + rest;
    LiteralRoundTrip(queryText, rest);
  }

  // ---------------------------------------------------------------- hybrid

  /** searchHybrid (src/engines/duckdb-engine.ts:109-134): topK*2 from each
      source, vector list inserted first, fused by RRF; a failure of either
      source fails the whole search. */
  method SearchHybrid(db: Database, queryText: string, queryEmbedding: Embedding, topK: nat)
    returns (r: Result<seq<SearchResult>>)
    ensures r.Err? <==>
      db.knn(queryEmbedding, topK * 2).Err? || db.bm25(QueryLiteral(queryText), topK * 2).Err?
    ensures r.Ok? ==> Fusion.IsFusion(
      Ids(SearchVector(db, queryEmbedding, topK * 2).value),
      Ids(SearchFTS(db, queryText, topK * 2).value), topK, r.value)
  {
    var vecResults := SearchVector(db, queryEmbedding, topK * 2);
    if vecResults.Err? {
      return Err(vecResults.error);
    }
    var ftsResults := SearchFTS(db, queryText, topK * 2);
    if ftsResults.Err? {
      return Err(ftsResults.error);
    }
    var fused := Fusion.Fuse(Ids(vecResults.value), Ids(ftsResults.value), topK);
    r := Ok(fused);
  }
}
