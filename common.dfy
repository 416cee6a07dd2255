/** Shared vocabulary of the benchmark harness: results and errors, the
    dataset shapes, search results, and small facts about id lists. */
module Common {

  datatype Option<+T> = None | Some(value: T)

  /** What the source raises. An exception the source throws becomes Err. */
  datatype Error =
    | HttpError(status: int)        // a non-ok HTTP status from the scoring service
    | FetchError                    // fetch itself threw (network failure)
    | EngineError(reason: string)   // a database call threw
    | MissingDocument(id: string)   // `find(...)!` found no document with that id
    | IndexOutOfRange(index: int)   // a reranker index outside the candidate list

  datatype Result<+T> = Ok(value: T) | Err(error: Error)

  type Embedding = seq<real>

  datatype Document = Document(id: string, text: string, metadata: map<string, string>)
  datatype Query = Query(id: string, text: string, relevantDocIds: seq<string>)
  datatype Dataset = Dataset(name: string, documents: seq<Document>, queries: seq<Query>)

  datatype SearchResult = SearchResult(docId: string, score: real)

  /** No id occurs twice. */
  predicate Distinct<T(==)>(s: seq<T>) {
    forall i, j :: 0 <= i < j < |s| ==> s[i] != s[j]
  }

  /** `s.map(f)`: f applied to every element, in order. */
  function Map<A, B>(s: seq<A>, f: A -> B): (r: seq<B>)
    ensures |r| == |s|
    ensures forall i :: 0 <= i < |s| ==> r[i] == f(s[i])
  {
    seq(|s|, i requires 0 <= i < |s| => f(s[i]))
  }

  /** The ids of a result list, in list order. */
  function Ids(rs: seq<SearchResult>): (ids: seq<string>)
    ensures |ids| == |rs|
    ensures forall i :: 0 <= i < |rs| ==> ids[i] == rs[i].docId
  {
    Map(rs, (r: SearchResult) => r.docId)
  }

  function Min(a: int, b: int): int { if a <= b then a else b }

  /** A distance reported by a vector index: never negative. */
  type Distance = d: real | 0.0 <= d

  /** The similarity score 1/(1 + distance) used by the SQLite and LanceDB
      adapters: in (0, 1], and strictly falling as the distance grows. */
  function Similarity(d: Distance): (s: real)
    ensures 0.0 < s <= 1.0
  {
    1.0 / (1.0 + d)
  }

  lemma SimilarityOrder(d: Distance, e: Distance)
    ensures d <= e <==> Similarity(e) <= Similarity(d)
  {
    if d <= e {
      ReciprocalOrder(1.0 + d, 1.0 + e);
    } else {
      ReciprocalOrder(1.0 + e, 1.0 + d);
    }
  }

  /** Taking reciprocals of positive numbers reverses their order. */
  lemma ReciprocalOrder(a: real, b: real)
    requires 0.0 < a <= b
    ensures 1.0 / b <= 1.0 / a
    ensures a < b ==> 1.0 / b < 1.0 / a
  {
    assert 1.0 / a * a == 1.0 && 1.0 / b * b == 1.0;
    var p := 1.0 / b * a;
    assert p <= 1.0 && (a < b ==> p < 1.0) by {
      assert 0.0 < 1.0 / b;
    }
    assert 0.0 < 1.0 / a;
    assert 1.0 / b == p * (1.0 / a);
    assert p * (1.0 / a) <= 1.0 * (1.0 / a);
    assert a < b ==> p * (1.0 / a) < 1.0 * (1.0 / a);
  }

  /** A distinct sequence has no more elements than any sequence holding
      all of them. */
  lemma {:induction false} DistinctSubsetLength<T>(s: seq<T>, t: seq<T>)
    requires Distinct(s)
    requires forall x :: x in s ==> x in t
    ensures |s| <= |t|
  {
    DistinctCard(s);
    SetOfSeqCard(t);
    SubsetCard(set x | x in s, set x | x in t);
  }

  lemma {:induction false} SubsetCard<T>(a: set<T>, b: set<T>)
    requires a <= b
    ensures |a| <= |b|
  {
    if a != {} {
      var x :| x in a;
      SubsetCard(a - {x}, b - {x});
    }
  }

  lemma {:induction false} DistinctCard<T>(s: seq<T>)
    requires Distinct(s)
    ensures |set x | x in s| == |s|
  {
    if s != [] {
      var t := s[1..];
      assert Distinct(t);
      DistinctCard(t);
      assert (set x | x in s) == (set x | x in t) + {s[0]};
      assert s[0] !in t;
    }
  }

  lemma {:induction false} SetOfSeqCard<T>(s: seq<T>)
    ensures |set x | x in s| <= |s|
  {
    if s != [] {
      var t := s[1..];
      SetOfSeqCard(t);
      assert (set x | x in s) == (set x | x in t) + {s[0]};
    }
  }
}
