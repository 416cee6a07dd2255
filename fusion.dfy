/** Reciprocal Rank Fusion, the body shared by the three adapters'
    `searchHybrid` (src/engines/sqlite-engine.ts:150-164,
    src/engines/duckdb-engine.ts:118-133, src/engines/lancedb-engine.ts:98-115).
    A JavaScript `Map` keeps its keys in insertion order; it is modelled by the
    key order `keys` beside the score table `scores`. */
module Fusion {
  import opened Common
  import Sorting

  /** The RRF constant k = 60. */
  const RRF_K: nat := 60

  /** The contribution of 0-based rank i: 1/(k + i + 1). */
  function RrfTerm(i: nat): (t: real)
    ensures 0.0 < t
  {
    1.0 / (RRF_K + i + 1) as real
  }

  /** A better (smaller) rank contributes strictly more. */
  lemma RrfTermDecreasing(i: nat, j: nat)
    requires i < j
    ensures RrfTerm(j) < RrfTerm(i)
  {
    var a, b := (RRF_K + i + 1) as real, (RRF_K + j + 1) as real;
    assert 0.0 < a < b;
    assert 1.0 / b < 1.0 / a by {
      assert 1.0 / b * a < 1.0 / b * b;
    }
  }

  /** The RRF score of `id` from one list: the sum of the terms of every
      position at which it occurs. */
  function RrfScore(id: string, list: seq<string>): (s: real)
    ensures 0.0 <= s
    ensures s == 0.0 <==> id !in list
  {
    if list == [] then 0.0
    else
      var n := |list| - 1;
      assert list == list[..n] + [list[n]];
      RrfScore(id, list[..n]) + if list[n] == id then RrfTerm(n) else 0.0
  }

  /** The fused score: its RRF score from both lists. */
  function FusedScore(id: string, first: seq<string>, second: seq<string>): real {
    RrfScore(id, first) + RrfScore(id, second)
  }

  /** An id present in both lists scores strictly more than from either alone. */
  lemma BothListsScoreMore(id: string, first: seq<string>, second: seq<string>)
    requires id in first && id in second
    ensures FusedScore(id, first, second) > RrfScore(id, first)
    ensures FusedScore(id, first, second) > RrfScore(id, second)
  {
  }

  /** Ids in order of first occurrence: the insertion order of the Map. */
  function Dedup(s: seq<string>): (r: seq<string>)
    ensures Distinct(r)
    ensures forall x :: x in r <==> x in s
  {
    if s == [] then []
    else
      var n := |s| - 1;
      var d := Dedup(s[..n]);
      assert s == s[..n] + [s[n]];
      d + if s[n] in d then [] else [s[n]]
  }

  lemma {:induction false} DedupDistinct(s: seq<string>)
    requires Distinct(s)
    ensures Dedup(s) == s
  {
    if s != [] {
      var n := |s| - 1;
      DedupDistinct(s[..n]);
      assert s == s[..n] + [s[n]];
    }
  }

  /** Appending ids already present adds no key. */
  lemma {:induction false} DedupAppendSeen(s: seq<string>, t: seq<string>)
    requires forall x :: x in t ==> x in s
    ensures Dedup(s + t) == Dedup(s)
  {
    if t == [] {
      assert s + t == s;
    } else {
      var n := |t| - 1;
      assert s + t == (s + t[..n]) + [t[n]];
      assert (s + t)[..|s + t| - 1] == s + t[..n];
      DedupAppendSeen(s, t[..n]);
      assert t[n] in Dedup(s + t[..n]);
    }
  }

  /** In a list without repetitions, an id's score is the term of its one position. */
  lemma {:induction false} RrfScoreDistinct(list: seq<string>, i: nat)
    requires Distinct(list) && i < |list|
    ensures RrfScore(list[i], list) == RrfTerm(i)
  {
    var n := |list| - 1;
    if i < n {
      RrfScoreDistinct(list[..n], i);
    } else {
      assert list[i] !in list[..n];
    }
  }

  /** Position of an id in a list that holds it. */
  function IndexOf(s: seq<string>, x: string): (i: nat)
    requires x in s
    ensures i < |s| && s[i] == x
    ensures forall j :: 0 <= j < i ==> s[j] != x
  {
    if s[0] == x then 0 else 1 + IndexOf(s[1..], x)
  }

  /** Both `forEach` loops: for each position i of `list`, add 1/(k+i+1)
      to the id's score, creating the key (at the end of the key order)
      when it is new. */
  method AddRanks(ghost prefix: seq<string>, keys0: seq<string>, scores0: map<string, real>, list: seq<string>)
    returns (keys: seq<string>, scores: map<string, real>)
    requires keys0 == Dedup(prefix)
    requires forall x :: x in scores0 <==> x in keys0
    ensures keys == Dedup(prefix + list)
    ensures forall x :: x in scores <==> x in keys
    ensures forall x :: x in scores ==>
      scores[x] == (if x in scores0 then scores0[x] else 0.0) + RrfScore(x, list)
  {
    keys, scores := keys0, scores0;
    var i := 0;
    assert prefix + list[..0] == prefix;
    while i < |list|
      invariant 0 <= i <= |list|
      invariant keys == Dedup(prefix + list[..i])
      invariant forall x :: x in scores <==> x in keys
      invariant forall x :: x in scores ==>
        scores[x] == (if x in scores0 then scores0[x] else 0.0) + RrfScore(x, list[..i])
    {
      var id := list[i];
      var next := i + 1;
      AddRankStep(prefix, list, i, next);
      var old_score := if id in scores then scores[id] else 0.0;
      if id !in scores {
        keys := keys + [id];
      }
      scores := scores[id := old_score + RrfTerm(i)];
      i := next;
    }
    assert list[..i] == list;
  }

  /** One step of a `forEach` loop, on the key order and on the scores. */
  lemma AddRankStep(prefix: seq<string>, list: seq<string>, i: nat, next: nat)
    requires i < |list| && next == i + 1
    ensures Dedup(prefix + list[..next]) ==
      Dedup(prefix + list[..i]) + if list[i] in Dedup(prefix + list[..i]) then [] else [list[i]]
    ensures forall x ::
      RrfScore(x, list[..next]) == RrfScore(x, list[..i]) + if list[i] == x then RrfTerm(i) else 0.0
  {
    var s := prefix + list[..next];
    assert s[..|s| - 1] == prefix + list[..i];
    assert list[..next][..i] == list[..i];
  }

  /** Entries of the score table in key order (`[...scores.entries()]`). */
  function Entries(keys: seq<string>, scores: map<string, real>): (es: seq<SearchResult>)
    requires forall x :: x in keys ==> x in scores
    ensures |es| == |keys|
    ensures forall i :: 0 <= i < |keys| ==> es[i] == SearchResult(keys[i], scores[keys[i]])
  {
    seq(|keys|, i requires 0 <= i < |keys| => SearchResult(keys[i], scores[keys[i]]))
  }

  /** In the fused order, (score a, id a) comes before (score b, id b): a
      higher score, or an equal score and an earlier insertion. */
  ghost predicate Before(keys: seq<string>, a: real, ida: string, b: real, idb: string)
    requires ida in keys && idb in keys
  {
    b < a || (b == a && IndexOf(keys, ida) < IndexOf(keys, idb))
  }

  /** Everything a fused ranking of `first` and `second` cut to `topK`
      promises; `keys` is the Map's insertion order. */
  ghost predicate IsFusion(first: seq<string>, second: seq<string>, topK: nat, r: seq<SearchResult>) {
    var keys := Dedup(first + second);
    && |r| == Min(topK, |keys|)
    && Distinct(Ids(r))
    && (forall i :: 0 <= i < |r| ==> r[i].docId in keys)
    && (forall i :: 0 <= i < |r| ==> r[i].score == FusedScore(r[i].docId, first, second))
    // sorted by fused score, ties in insertion order
    && (forall i, j :: 0 <= i < j < |r| ==>
          Before(keys, r[i].score, r[i].docId, r[j].score, r[j].docId))
    // every id cut off by topK ranks after every id kept
    && (forall id, j :: id in keys && id !in Ids(r) && 0 <= j < |r| ==>
          Before(keys, r[j].score, r[j].docId, FusedScore(id, first, second), id))
  }

  /** The fusion of `searchHybrid`: score, stable sort descending, keep topK. */
  method Fuse(first: seq<string>, second: seq<string>, topK: nat) returns (r: seq<SearchResult>)
    ensures IsFusion(first, second, topK, r)
    ensures Distinct(second) && (first == [] || first == second) ==>
      Ids(r) == second[..Min(topK, |second|)]
    ensures first == [] && Distinct(second) ==>
      forall i :: 0 <= i < |r| ==> r[i].score == RrfTerm(i)
  {
    var keys1, scores1 := AddRanks([], [], map[], first);
    assert [] + first == first;
    var keys, scores := AddRanks(first, keys1, scores1, second);
    var entries := Entries(keys, scores);
    var sorted := Sorting.SortDesc(entries, ScoreKey);
    r := sorted[..Min(topK, |sorted|)];
    FuseCorrect(first, second, topK, keys, scores, entries, sorted, r);
    FuseSpecialCases(first, second, topK, keys, scores, entries, sorted, r);
  }

  function ScoreKey(e: SearchResult): real { e.score }

  /** Insertion rank of an entry's id. */
  function Rank(keys: seq<string>, x: string): nat {
    if x in keys then IndexOf(keys, x) else 0
  }

  /** The stable sort orders the entries by score, then by insertion rank,
      and keeps exactly the entries. */
  lemma SortedEntries(keys: seq<string>, scores: map<string, real>, entries: seq<SearchResult>,
                      sorted: seq<SearchResult>)
    requires Distinct(keys)
    requires forall x :: x in keys ==> x in scores
    requires entries == Entries(keys, scores)
    requires sorted == Sorting.SortDesc(entries, ScoreKey)
    ensures Sorting.LexSorted(sorted, ScoreKey, (e: SearchResult) => Rank(keys, e.docId))
    ensures forall e :: e in sorted <==> e in entries
  {
    var pos := (e: SearchResult) => Rank(keys, e.docId);
    forall i | 0 <= i < |entries| ensures pos(entries[i]) == i {
      assert entries[i].docId == keys[i];
    }
    Sorting.SortDescStable(entries, ScoreKey, pos);
    forall e ensures e in sorted <==> e in entries {
      assert e in sorted <==> e in multiset(sorted);
      assert e in entries <==> e in multiset(entries);
    }
  }

  lemma FuseCorrect(first: seq<string>, second: seq<string>, topK: nat, keys: seq<string>,
                    scores: map<string, real>, entries: seq<SearchResult>, sorted: seq<SearchResult>,
                    r: seq<SearchResult>)
    requires keys == Dedup(first + second)
    requires forall x :: x in scores <==> x in keys
    requires forall x :: x in scores ==> scores[x] == FusedScore(x, first, second)
    requires entries == Entries(keys, scores)
    requires sorted == Sorting.SortDesc(entries, ScoreKey)
    requires r == sorted[..Min(topK, |sorted|)]
    ensures IsFusion(first, second, topK, r)
  {
    SortedEntries(keys, scores, entries, sorted);
    forall e | e in sorted ensures e.docId in keys && e.score == FusedScore(e.docId, first, second) {
      var i :| 0 <= i < |entries| && entries[i] == e;
    }
    KeptInOrder(first, second, keys, sorted, r);
    CutOffAfter(first, second, keys, entries, sorted, r);
  }

  lemma KeptInOrder(first: seq<string>, second: seq<string>, keys: seq<string>,
                    sorted: seq<SearchResult>, r: seq<SearchResult>)
    requires Sorting.LexSorted(sorted, ScoreKey, (e: SearchResult) => Rank(keys, e.docId))
    requires forall e :: e in sorted ==> e.docId in keys && e.score == FusedScore(e.docId, first, second)
    requires |r| <= |sorted| && r == sorted[..|r|]
    ensures Distinct(Ids(r))
    ensures forall i, j :: 0 <= i < j < |r| ==>
      Before(keys, r[i].score, r[i].docId, r[j].score, r[j].docId)
  {
    forall i, j | 0 <= i < j < |r|
      ensures r[i].docId != r[j].docId
      ensures Before(keys, r[i].score, r[i].docId, r[j].score, r[j].docId)
    {
      assert r[i] == sorted[i] && r[j] == sorted[j];
      assert sorted[i] in sorted && sorted[j] in sorted;
    }
  }

  lemma CutOffAfter(first: seq<string>, second: seq<string>, keys: seq<string>,
                    entries: seq<SearchResult>, sorted: seq<SearchResult>, r: seq<SearchResult>)
    requires Sorting.LexSorted(sorted, ScoreKey, (e: SearchResult) => Rank(keys, e.docId))
    requires forall e :: e in sorted ==> e.docId in keys && e.score == FusedScore(e.docId, first, second)
    requires forall e :: e in entries ==> e in sorted
    requires |entries| == |keys| && forall i :: 0 <= i < |keys| ==> entries[i].docId == keys[i]
    requires |r| <= |sorted| && r == sorted[..|r|]
    ensures forall id, j :: id in keys && id !in Ids(r) && 0 <= j < |r| ==>
      Before(keys, r[j].score, r[j].docId, FusedScore(id, first, second), id)
  {
    forall id, j | id in keys && id !in Ids(r) && 0 <= j < |r|
      ensures Before(keys, r[j].score, r[j].docId, FusedScore(id, first, second), id)
    {
      var i := IndexOf(keys, id);
      assert entries[i] in entries;
      var p :| 0 <= p < |sorted| && sorted[p] == entries[i];
      CutOffOne(first, second, keys, sorted, r, id, j, p);
    }
  }

  /** An id found at position p of the sorted entries but not kept ranks
      after the kept entry at j. */
  lemma CutOffOne(first: seq<string>, second: seq<string>, keys: seq<string>,
                  sorted: seq<SearchResult>, r: seq<SearchResult>, id: string, j: nat, p: nat)
    requires Sorting.LexSorted(sorted, ScoreKey, (e: SearchResult) => Rank(keys, e.docId))
    requires forall e :: e in sorted ==> e.docId in keys && e.score == FusedScore(e.docId, first, second)
    requires |r| <= |sorted| && r == sorted[..|r|]
    requires id in keys && id !in Ids(r) && j < |r|
    requires p < |sorted| && sorted[p].docId == id
    ensures Before(keys, r[j].score, r[j].docId, FusedScore(id, first, second), id)
  {
    assert r[j] == sorted[j];
    assert sorted[j] in sorted && sorted[p] in sorted;
  }

  lemma FuseSpecialCases(first: seq<string>, second: seq<string>, topK: nat, keys: seq<string>,
                         scores: map<string, real>, entries: seq<SearchResult>, sorted: seq<SearchResult>,
                         r: seq<SearchResult>)
    requires keys == Dedup(first + second)
    requires forall x :: x in scores <==> x in keys
    requires forall x :: x in scores ==> scores[x] == FusedScore(x, first, second)
    requires entries == Entries(keys, scores)
    requires sorted == Sorting.SortDesc(entries, ScoreKey)
    requires r == sorted[..Min(topK, |sorted|)]
    ensures Distinct(second) && (first == [] || first == second) ==>
      Ids(r) == second[..Min(topK, |second|)]
    ensures first == [] && Distinct(second) ==>
      forall i :: 0 <= i < |r| ==> r[i].score == RrfTerm(i)
  {
    if Distinct(second) && (first == [] || first == second) {
      OneListKeys(first, second);
      OneListEntries(first, second, scores, entries);
      Sorting.SortDescFixpoint(entries, ScoreKey);
      PrefixIds(second, entries, r);
    }
  }

  lemma PrefixIds(second: seq<string>, entries: seq<SearchResult>, r: seq<SearchResult>)
    requires |entries| == |second| && forall i :: 0 <= i < |second| ==> entries[i].docId == second[i]
    requires |r| <= |entries| && r == entries[..|r|]
    ensures Ids(r) == second[..|r|]
  {
  }

  /** With one repetition-free list, the entries' scores fall strictly with the position. */
  lemma OneListEntries(first: seq<string>, second: seq<string>, scores: map<string, real>,
                       entries: seq<SearchResult>)
    requires Distinct(second) && (first == [] || first == second)
    requires forall x :: x in second ==> x in scores && scores[x] == FusedScore(x, first, second)
    requires entries == Entries(second, scores)
    ensures forall i :: 0 <= i < |entries| ==> entries[i].docId == second[i]
    ensures forall i :: 0 <= i < |entries| ==>
      entries[i].score == (if first == [] then 1.0 else 2.0) * RrfTerm(i)
    ensures forall i, j :: 0 <= i < j < |entries| ==> entries[j].score < entries[i].score
  {
    forall i | 0 <= i < |entries|
      ensures entries[i].score == (if first == [] then 1.0 else 2.0) * RrfTerm(i)
    {
      OneListScore(first, second, i);
    }
    forall i, j | 0 <= i < j < |entries| ensures entries[j].score < entries[i].score {
      RrfTermDecreasing(i, j);
    }
  }

  /** Fusing a repetition-free list with nothing or with itself creates its
      ids as keys, in list order. */
  lemma OneListKeys(first: seq<string>, second: seq<string>)
    requires Distinct(second) && (first == [] || first == second)
    ensures Dedup(first + second) == second
  {
    if first == [] {
      assert first + second == second;
    } else {
      DedupAppendSeen(first, second);
    }
    DedupDistinct(second);
  }

  lemma OneListScore(first: seq<string>, second: seq<string>, i: nat)
    requires Distinct(second) && (first == [] || first == second) && i < |second|
    ensures FusedScore(second[i], first, second) == (if first == [] then 1.0 else 2.0) * RrfTerm(i)
  {
    RrfScoreDistinct(second, i);
  }
}
