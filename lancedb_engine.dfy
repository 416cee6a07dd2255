/** The LanceDB adapter (src/engines/lancedb-engine.ts): the score mappings of
    its two ranked sources and its hybrid search, which puts the full-text
    list first and falls back to vector-only ranking when full-text search
    fails. The table is an input answering the vector and full-text queries. */
module LancedbEngine {
  import opened Common
  import Fusion

  /** A row of the vector query, nearest first; `_distance` may be missing. */
  datatype VecRow = VecRow(id: string, distance: Option<Distance>)

  /** A row of the full-text query, best first; `_score` may be missing. */
  datatype FtsRow = FtsRow(id: string, score: Option<real>)

  datatype Table = Table(
    knn: (Embedding, nat) -> Result<seq<VecRow>>,
    fullText: (string, nat) -> Result<seq<FtsRow>>)

  function VecIds(rows: seq<VecRow>): (ids: seq<string>)
    ensures |ids| == |rows|
    ensures forall i :: 0 <= i < |rows| ==> ids[i] == rows[i].id
  {
    Map(rows, (r: VecRow) => r.id)
  }

  function FtsIds(rows: seq<FtsRow>): (ids: seq<string>)
    ensures |ids| == |rows|
    ensures forall i :: 0 <= i < |rows| ==> ids[i] == rows[i].id
  {
    Map(rows, (r: FtsRow) => r.id)
  }

  /** `_distance ?? 0`. */
  function DistanceOrZero(d: Option<Distance>): Distance {
    match d
    case Some(v) => v
    case None => 0.0
  }

  // ---------------------------------------------------------------- vector

  /** The row mapping of searchVector: score 1/(1 + (distance ?? 0)), row order kept. */
  function VectorResults(rows: seq<VecRow>): (rs: seq<SearchResult>)
    ensures |rs| == |rows|
    ensures forall i :: 0 <= i < |rows| ==> rs[i].docId == rows[i].id && 0.0 < rs[i].score <= 1.0
    ensures forall i :: 0 <= i < |rows| && rows[i].distance.None? ==> rs[i].score == 1.0
    ensures forall i, j :: 0 <= i < |rows| && 0 <= j < |rows| ==>
      (DistanceOrZero(rows[i].distance) <= DistanceOrZero(rows[j].distance) <==> rs[j].score <= rs[i].score)
  {
    var rs := seq(|rows|, i requires 0 <= i < |rows| =>
      SearchResult(rows[i].id, Similarity(DistanceOrZero(rows[i].distance))));
    assert forall i, j :: 0 <= i < |rows| && 0 <= j < |rows| ==>
      (DistanceOrZero(rows[i].distance) <= DistanceOrZero(rows[j].distance) <==> rs[j].score <= rs[i].score) by {
      forall i, j | 0 <= i < |rows| && 0 <= j < |rows| {
        SimilarityOrder(DistanceOrZero(rows[i].distance), DistanceOrZero(rows[j].distance));
      }
    }
    rs
  }

  /** searchVector (src/engines/lancedb-engine.ts:45-58); a failing query propagates. */
  function SearchVector(table: Table, queryEmbedding: Embedding, topK: nat): (r: Result<seq<SearchResult>>)
    ensures r.Err? <==> table.knn(queryEmbedding, topK).Err?
    ensures r.Err? ==> r.error == table.knn(queryEmbedding, topK).error
    ensures r.Ok? ==> var rows := table.knn(queryEmbedding, topK).value;
      && Ids(r.value) == VecIds(rows)
      && (forall i :: 0 <= i < |rows| ==> 0.0 < r.value[i].score <= 1.0)
      && (forall i :: 0 <= i < |rows| && rows[i].distance.None? ==> r.value[i].score == 1.0)
      && (forall i, j :: 0 <= i < |rows| && 0 <= j < |rows| ==>
            (DistanceOrZero(rows[i].distance) <= DistanceOrZero(rows[j].distance) <==> r.value[j].score <= r.value[i].score))
  {
    match table.knn(queryEmbedding, topK)
    case Ok(rows) => Ok(VectorResults(rows))
    case Err(e) => Err(e)
  }

  // ---------------------------------------------------------------- FTS

  /** The row mapping of searchFTS: `_score`, or 1/(i + 1) at position i when
      it is missing; row order kept. */
  function FtsResults(rows: seq<FtsRow>): (rs: seq<SearchResult>)
    ensures |rs| == |rows|
    ensures forall i :: 0 <= i < |rows| ==> rs[i].docId == rows[i].id
    ensures forall i :: 0 <= i < |rows| ==> (rows[i].score.Some? ==> rs[i].score == rows[i].score.value)
    ensures forall i :: 0 <= i < |rows| ==> (rows[i].score.None? ==> rs[i].score == 1.0 / (i + 1) as real)
  {
    seq(|rows|, i requires 0 <= i < |rows| =>
      SearchResult(rows[i].id, match rows[i].score case Some(s) => s case None => 1.0 / (i + 1) as real))
  }

  /** With no `_score` at all, the default scores fall strictly with the position. */
  lemma FtsDefaultScoresDecrease(rows: seq<FtsRow>)
    requires forall i :: 0 <= i < |rows| ==> rows[i].score.None?
    ensures forall i, j :: 0 <= i < j < |rows| ==>
      FtsResults(rows)[j].score < FtsResults(rows)[i].score <= 1.0
  {
    var rs := FtsResults(rows);
    forall i, j | 0 <= i < j < |rows|
      ensures rs[j].score < rs[i].score <= 1.0
    {
      ReciprocalDecreasing(i + 1, j + 1);
    }
  }

  lemma ReciprocalDecreasing(a: nat, b: nat)
    requires 0 < a < b
    ensures 1.0 / (b as real) < 1.0 / (a as real) <= 1.0
  {
    var x, y := a as real, b as real;
    var p := 1.0 / y * x;
    assert p < 1.0 by {
      assert 1.0 / y * x < 1.0 / y * y;
    }
    assert 1.0 / y == p * (1.0 / x);
    assert p * (1.0 / x) < 1.0 * (1.0 / x);
    assert 1.0 / x * 1.0 <= 1.0 / x * x;
  }

  /** searchFTS (src/engines/lancedb-engine.ts:60-76): any exception gives []. */
  function SearchFTS(table: Table, queryText: string, topK: nat): (rs: seq<SearchResult>)
    ensures table.fullText(queryText, topK).Err? ==> rs == []
    ensures table.fullText(queryText, topK).Ok? ==> Ids(rs) == FtsIds(table.fullText(queryText, topK).value)
  {
    match table.fullText(queryText, topK)
    case Ok(rows) => FtsResults(rows)
    case Err(_) => []
  }

  // ---------------------------------------------------------------- hybrid

  /** The full-text ids searchHybrid fuses, from its own copy of searchFTS's
      query with twice the limit: none when the query failed. They are the
      ids searchFTS itself would return for that limit. */
  function HybridFtsIds(table: Table, queryText: string, topK: nat): (ids: seq<string>)
    ensures ids == Ids(SearchFTS(table, queryText, topK * 2))
    ensures table.fullText(queryText, topK * 2).Err? ==> ids == []
  {
    match table.fullText(queryText, topK * 2)
    case Ok(rows) => FtsIds(rows)
    case Err(_) => []
  }

  /** searchHybrid (src/engines/lancedb-engine.ts:78-116): topK*2 from each
      source, full-text list inserted first (its failure swallowed), fused by
      RRF; a failing vector query fails the search. */
  method SearchHybrid(table: Table, queryText: string, queryEmbedding: Embedding, topK: nat)
    returns (r: Result<seq<SearchResult>>)
    ensures r.Err? <==> table.knn(queryEmbedding, topK * 2).Err?
    ensures r.Ok? ==> Fusion.IsFusion(
      HybridFtsIds(table, queryText, topK),
      VecIds(table.knn(queryEmbedding, topK * 2).value), topK, r.value)
    ensures r.Ok? && table.fullText(queryText, topK * 2).Err? ==>
      var vecIds := VecIds(table.knn(queryEmbedding, topK * 2).value);
      Distinct(vecIds) ==>
        && Ids(r.value) == vecIds[..Min(topK, |vecIds|)]
        && forall i :: 0 <= i < |r.value| ==> r.value[i].score == Fusion.RrfTerm(i)
  {
    var ftsIds: seq<string> := [];
    var fts := table.fullText(queryText, topK * 2);
    if fts.Ok? {
      ftsIds := FtsIds(fts.value);
    }
    var vec := table.knn(queryEmbedding, topK * 2);
    if vec.Err? {
      return Err(vec.error);
    }
    var fused := Fusion.Fuse(ftsIds, VecIds(vec.value), topK);
    r := Ok(fused);
  }
}
