/** Retrieval-quality metrics and latency statistics of the benchmark
    (src/bench.ts:12-54). Ids are strings; `relevant.includes(id)` is `id in relevant`.
    Everything but NDCG is exact rational arithmetic and is modelled with `real`;
    the NDCG discount 1/log2(i+2) is a parameter `disc`. */
module Metrics {
  import opened Common
  import Sorting

  /** The first k retrieved ids (`retrieved.slice(0, k)`). */
  function TopK(retrieved: seq<string>, k: nat): (top: seq<string>)
    ensures |top| == Min(k, |retrieved|)
    ensures top == retrieved[..|top|]
  {
    retrieved[..Min(k, |retrieved|)]
  }

  /** The members of `s` that are relevant, in order (`filter(id => relevant.includes(id))`). */
  function HitsOf(s: seq<string>, relevant: seq<string>): (h: seq<string>)
    ensures |h| <= |s|
    ensures forall x :: x in h <==> x in s && x in relevant
    ensures Distinct(s) ==> Distinct(h)
    ensures h == [] <==> forall i :: 0 <= i < |s| ==> s[i] !in relevant
  {
    if s == [] then []
    else
      var last := s[|s| - 1];
      var h := HitsOf(s[..|s| - 1], relevant);
      assert forall x :: x in s <==> x in s[..|s| - 1] || x == last by {
        assert s == s[..|s| - 1] + [last];
      }
      h + if last in relevant then [last] else []
  }

  /** Number of relevant members of `s`. */
  function Hits(s: seq<string>, relevant: seq<string>): nat {
    |HitsOf(s, relevant)|
  }

  /** A distinct list has no more hits than there are relevant ids. */
  lemma HitsAtMostRelevant(s: seq<string>, relevant: seq<string>)
    ensures Distinct(s) ==> Hits(s, relevant) <= |relevant|
  {
    if Distinct(s) {
      DistinctSubsetLength(HitsOf(s, relevant), relevant);
    }
  }

  /** precisionAtK (src/bench.ts:12-16): hits among the first k, divided by k
      even when fewer than k ids were returned. */
  function PrecisionAtK(retrieved: seq<string>, relevant: seq<string>, k: nat): (p: real)
    requires k > 0
    ensures 0.0 <= p <= 1.0
    ensures p == 0.0 <==> forall i :: 0 <= i < Min(k, |retrieved|) ==> retrieved[i] !in relevant
    ensures p <= |retrieved| as real / k as real
  {
    var top := TopK(retrieved, k);
    var h := Hits(top, relevant);
    Ratio(h, k);
    RatioMono(h, |retrieved|, k);
    assert forall i :: 0 <= i < |top| ==> top[i] == retrieved[i];
    h as real / k as real
  }

  /** Facts about the quotient of two counts. */
  lemma Ratio(h: nat, d: nat)
    requires d > 0
    ensures 0.0 <= h as real / d as real
    ensures h as real / d as real == 0.0 <==> h == 0
    ensures h <= d ==> h as real / d as real <= 1.0
  {
  }

  lemma RatioMono(h: nat, n: nat, d: nat)
    requires d > 0 && h <= n
    ensures h as real / d as real <= n as real / d as real
  {
  }

  /** recallAtK (src/bench.ts:18-22): 0 for an empty relevant list, otherwise
      hits among the first k divided by the number of relevant ids. */
  function RecallAtK(retrieved: seq<string>, relevant: seq<string>, k: nat): (r: real)
    ensures |relevant| == 0 ==> r == 0.0
    ensures 0.0 <= r
    ensures |relevant| > 0 ==>
      (r == 0.0 <==> forall i :: 0 <= i < Min(k, |retrieved|) ==> retrieved[i] !in relevant)
    ensures Distinct(TopK(retrieved, k)) ==> r <= 1.0
  {
    var top := TopK(retrieved, k);
    HitsAtMostRelevant(top, relevant);
    if |relevant| == 0 then 0.0
    else
      var h := Hits(top, relevant);
      Ratio(h, |relevant|);
      h as real / |relevant| as real
  }

  /** mrr (src/bench.ts:24-29): the reciprocal of the 1-based position of the
      first relevant id anywhere in the untruncated list, or 0. */
  method Mrr(retrieved: seq<string>, relevant: seq<string>) returns (r: real)
    ensures r == ReciprocalRank(retrieved, relevant)
    ensures 0.0 <= r <= 1.0
    ensures r == 0.0 <==> forall i :: 0 <= i < |retrieved| ==> retrieved[i] !in relevant
    ensures r == 1.0 <==> |retrieved| > 0 && retrieved[0] in relevant
    ensures r != 0.0 ==>
      exists i :: && 0 <= i < |retrieved| && retrieved[i] in relevant
                  && (forall j :: 0 <= j < i ==> retrieved[j] !in relevant)
                  && r == 1.0 / (i + 1) as real
  {
    var i := 0;
    while i < |retrieved|
      invariant 0 <= i <= |retrieved|
      invariant forall j :: 0 <= j < i ==> retrieved[j] !in relevant
      invariant ReciprocalRankFrom(retrieved, relevant, i) == ReciprocalRank(retrieved, relevant)
    {
      if retrieved[i] in relevant {
        return 1.0 / (i + 1) as real;
      }
      i := i + 1;
    }
    return 0.0;
  }

  /** The reciprocal rank of the first relevant id at position i or later
      (positions counted from 1), or 0 when there is none. */
  function ReciprocalRankFrom(retrieved: seq<string>, relevant: seq<string>, i: nat): real
    decreases |retrieved| - i
  {
    if i >= |retrieved| then 0.0
    else if retrieved[i] in relevant then 1.0 / (i + 1) as real
    else ReciprocalRankFrom(retrieved, relevant, i + 1)
  }

  function ReciprocalRank(retrieved: seq<string>, relevant: seq<string>): real {
    ReciprocalRankFrom(retrieved, relevant, 0)
  }

  /** A reciprocal rank lies in [0, 1]. */
  lemma {:induction false} ReciprocalRankBounds(retrieved: seq<string>, relevant: seq<string>, i: nat)
    ensures 0.0 <= ReciprocalRankFrom(retrieved, relevant, i) <= 1.0
    decreases |retrieved| - i
  {
    if i < |retrieved| && retrieved[i] !in relevant {
      ReciprocalRankBounds(retrieved, relevant, i + 1);
    }
  }

  // ---------------------------------------------------------------- NDCG

  /** The discount of position i stands for 1/log2(i+2): positive and
      non-increasing in the position. */
  ghost predicate DiscountValid(disc: nat -> real) {
    && (forall i :: disc(i) > 0.0)
    && (forall i, j :: i <= j ==> disc(j) <= disc(i))
  }

  /** Discounted cumulative gain with binary relevance: the discounts of the
      positions that hold a relevant id. */
  function Dcg(top: seq<string>, relevant: seq<string>, disc: nat -> real): real {
    if top == [] then 0.0
    else
      var n := |top| - 1;
      Dcg(top[..n], relevant, disc) + if top[n] in relevant then disc(n) else 0.0
  }

  /** The sum of the first m discounts: the ideal DCG of m relevant ids. */
  function DiscSum(m: nat, disc: nat -> real): real {
    if m == 0 then 0.0 else DiscSum(m - 1, disc) + disc(m - 1)
  }

  /** DCG over IDCG, 0 when IDCG is 0. */
  function NdcgValue(top: seq<string>, relevant: seq<string>, k: nat, disc: nat -> real): real {
    var idcg := DiscSum(Min(|relevant|, k), disc);
    if idcg == 0.0 then 0.0 else Dcg(top, relevant, disc) / idcg
  }

  lemma {:induction false} DcgHits(top: seq<string>, relevant: seq<string>, disc: nat -> real)
    requires DiscountValid(disc)
    ensures 0.0 <= Dcg(top, relevant, disc)
    ensures Dcg(top, relevant, disc) == 0.0 <==> Hits(top, relevant) == 0
    ensures Dcg(top, relevant, disc) <= DiscSum(Hits(top, relevant), disc)
  {
    if top != [] {
      var n := |top| - 1;
      DcgHits(top[..n], relevant, disc);
      var h := Hits(top[..n], relevant);
      assert h <= n;
      if top[n] in relevant {
        assert disc(n) <= disc(h);
      }
    }
  }

  lemma {:induction false} DiscSumMono(m: nat, m': nat, disc: nat -> real)
    requires DiscountValid(disc)
    requires m <= m'
    ensures 0.0 <= DiscSum(m, disc) <= DiscSum(m', disc)
    ensures m > 0 ==> DiscSum(m, disc) > 0.0
  {
    if m' > m {
      DiscSumMono(m, m' - 1, disc);
    } else if m > 0 {
      DiscSumMono(m - 1, m - 1, disc);
    }
  }

  /** When the first m ids are all relevant, DCG reaches the ideal DCG of m. */
  lemma {:induction false} DcgPerfectPrefix(top: seq<string>, relevant: seq<string>, m: nat, disc: nat -> real)
    requires DiscountValid(disc)
    requires m <= |top|
    requires forall i :: 0 <= i < m ==> top[i] in relevant
    ensures DiscSum(m, disc) <= Dcg(top, relevant, disc)
  {
    if |top| > m {
      var n := |top| - 1;
      DcgPerfectPrefix(top[..n], relevant, m, disc);
    } else if m > 0 {
      var n := |top| - 1;
      DcgPerfectPrefix(top[..n], relevant, m - 1, disc);
    }
  }

  /** ndcgAtK (src/bench.ts:31-45). */
  method NdcgAtK(retrieved: seq<string>, relevant: seq<string>, k: nat, disc: nat -> real) returns (r: real)
    ensures r == NdcgValue(TopK(retrieved, k), relevant, k, disc)
    ensures DiscountValid(disc) ==>
      (r == 0.0 <==> |relevant| == 0 || forall i :: 0 <= i < Min(k, |retrieved|) ==> retrieved[i] !in relevant)
    ensures DiscountValid(disc) ==> 0.0 <= r
    ensures DiscountValid(disc) && Distinct(TopK(retrieved, k)) ==> 0.0 <= r <= 1.0
    ensures (&& DiscountValid(disc) && Distinct(TopK(retrieved, k))
             && 0 < Min(|relevant|, k) <= |retrieved|
             && (forall i :: 0 <= i < Min(|relevant|, k) ==> retrieved[i] in relevant))
            ==> r == 1.0
  {
    var top := retrieved[..Min(k, |retrieved|)];
    var dcg := 0.0;
    var i := 0;
    while i < |top|
      invariant 0 <= i <= |top|
      invariant dcg == Dcg(top[..i], relevant, disc)
    {
      assert top[..i + 1][..i] == top[..i];
      if top[i] in relevant {
        dcg := dcg + disc(i);
      }
      i := i + 1;
    }
    assert top[..i] == top;
    var idcg := 0.0;
    i := 0;
    while i < Min(|relevant|, k)
      invariant 0 <= i <= Min(|relevant|, k)
      invariant idcg == DiscSum(i, disc)
    {
      idcg := idcg + disc(i);
      i := i + 1;
    }
    r := if idcg == 0.0 then 0.0 else dcg / idcg;
    if DiscountValid(disc) {
      NdcgFacts(retrieved, relevant, k, disc);
      NdcgNonNegative(retrieved, relevant, k, disc);
    }
  }

  lemma NdcgFacts(retrieved: seq<string>, relevant: seq<string>, k: nat, disc: nat -> real)
    requires DiscountValid(disc)
    ensures var r := NdcgValue(TopK(retrieved, k), relevant, k, disc);
      && (r == 0.0 <==> |relevant| == 0 || forall i :: 0 <= i < Min(k, |retrieved|) ==> retrieved[i] !in relevant)
      && (Distinct(TopK(retrieved, k)) ==> 0.0 <= r <= 1.0)
      && ((&& Distinct(TopK(retrieved, k))
           && 0 < Min(|relevant|, k) <= |retrieved|
           && (forall i :: 0 <= i < Min(|relevant|, k) ==> retrieved[i] in relevant))
          ==> r == 1.0)
  {
    NdcgZero(retrieved, relevant, k, disc);
    if Distinct(TopK(retrieved, k)) {
      NdcgBounded(retrieved, relevant, k, disc);
    }
    NdcgPerfect(retrieved, relevant, k, disc);
  }

  /** Facts about a ratio of a non-negative number to a positive one. */
  lemma Quotient(a: real, b: real)
    requires 0.0 <= a && 0.0 < b
    ensures 0.0 <= a / b
    ensures a / b == 0.0 <==> a == 0.0
    ensures a <= b ==> a / b <= 1.0
    ensures a == b ==> a / b == 1.0
  {
  }

  lemma NdcgZero(retrieved: seq<string>, relevant: seq<string>, k: nat, disc: nat -> real)
    requires DiscountValid(disc)
    ensures var r := NdcgValue(TopK(retrieved, k), relevant, k, disc);
      r == 0.0 <==> |relevant| == 0 || forall i :: 0 <= i < Min(k, |retrieved|) ==> retrieved[i] !in relevant
  {
    var top := TopK(retrieved, k);
    var m := Min(|relevant|, k);
    DcgHits(top, relevant, disc);
    DiscSumMono(m, m, disc);
    assert forall i :: 0 <= i < |top| ==> top[i] == retrieved[i];
    if m > 0 {
      Quotient(Dcg(top, relevant, disc), DiscSum(m, disc));
    }
  }

  /** NDCG is never negative, repeated ids or not. */
  lemma NdcgNonNegative(retrieved: seq<string>, relevant: seq<string>, k: nat, disc: nat -> real)
    requires DiscountValid(disc)
    ensures 0.0 <= NdcgValue(TopK(retrieved, k), relevant, k, disc)
  {
    var top := TopK(retrieved, k);
    var m := Min(|relevant|, k);
    DcgHits(top, relevant, disc);
    DiscSumMono(m, m, disc);
    if m > 0 {
      Quotient(Dcg(top, relevant, disc), DiscSum(m, disc));
    }
  }

  lemma NdcgBounded(retrieved: seq<string>, relevant: seq<string>, k: nat, disc: nat -> real)
    requires DiscountValid(disc)
    requires Distinct(TopK(retrieved, k))
    ensures 0.0 <= NdcgValue(TopK(retrieved, k), relevant, k, disc) <= 1.0
  {
    var top := TopK(retrieved, k);
    var m := Min(|relevant|, k);
    DcgHits(top, relevant, disc);
    HitsAtMostRelevant(top, relevant);
    DiscSumMono(Hits(top, relevant), m, disc);
    DiscSumMono(m, m, disc);
    if m > 0 {
      Quotient(Dcg(top, relevant, disc), DiscSum(m, disc));
    }
  }

  /** The 1/(i + 1) discount is a valid discount. */
  lemma HarmonicDiscount()
    ensures DiscountValid((i: nat) => 1.0 / (i + 1) as real)
  {
    var disc := (i: nat) => 1.0 / (i + 1) as real;
    forall i: nat, j: nat | i <= j
      ensures disc(j) <= disc(i)
    {
      DivideAbove(1.0, disc(i), (j + 1) as real);
    }
  }

  /** With a repeated id NDCG can exceed 1: the list ["a", "a"] against the
      one relevant id "a" scores 1.5 under the discount 1/(i + 1). */
  lemma RepeatedIdNdcgAboveOne()
    ensures var disc := (i: nat) => 1.0 / (i + 1) as real;
      DiscountValid(disc) && NdcgValue(TopK(["a", "a"], 5), ["a"], 5, disc) == 1.5
  {
    var disc := (i: nat) => 1.0 / (i + 1) as real;
    HarmonicDiscount();
    var top := TopK(["a", "a"], 5);
    assert top == ["a", "a"];
    assert top[..1] == ["a"];
    assert Dcg(top[..1][..0], ["a"], disc) == 0.0;
    assert Dcg(top, ["a"], disc) == 1.5;
    assert DiscSum(Min(1, 5), disc) == 1.0;
  }

  lemma NdcgPerfect(retrieved: seq<string>, relevant: seq<string>, k: nat, disc: nat -> real)
    requires DiscountValid(disc)
    ensures (&& Distinct(TopK(retrieved, k))
             && 0 < Min(|relevant|, k) <= |retrieved|
             && (forall i :: 0 <= i < Min(|relevant|, k) ==> retrieved[i] in relevant))
            ==> NdcgValue(TopK(retrieved, k), relevant, k, disc) == 1.0
  {
    var top := TopK(retrieved, k);
    var m := Min(|relevant|, k);
    if && Distinct(top) && 0 < m <= |retrieved|
       && (forall i :: 0 <= i < m ==> retrieved[i] in relevant)
    {
      assert forall i :: 0 <= i < m ==> top[i] == retrieved[i];
      DcgPerfectPrefix(top, relevant, m, disc);
      DcgHits(top, relevant, disc);
      HitsAtMostRelevant(top, relevant);
      DiscSumMono(Hits(top, relevant), m, disc);
      DiscSumMono(m, m, disc);
      Quotient(Dcg(top, relevant, disc), DiscSum(m, disc));
    }
  }

  // ---------------------------------------------------------------- latency

  function Sum(s: seq<real>): real {
    if s == [] then 0.0 else Sum(s[..|s| - 1]) + s[|s| - 1]
  }

  /** avg (src/bench.ts:52-54): the arithmetic mean. */
  function Avg(s: seq<real>): (a: real)
    requires |s| > 0
    ensures (forall i :: 0 <= i < |s| ==> 0.0 <= s[i]) ==> 0.0 <= a
  {
    AvgWithin(s, 0.0, if |s| > 0 then s[0] else 0.0);
    Sum(s) / |s| as real
  }

  /** The mean of one value is that value. */
  lemma AvgOne(s: seq<real>)
    ensures |s| == 1 ==> Avg(s) == s[0]
  {
    if |s| == 1 {
      assert s[..0] == [];
      assert Sum(s) == s[0];
    }
  }

  lemma {:induction false} SumWithin(s: seq<real>, lo: real, hi: real)
    ensures (forall i :: 0 <= i < |s| ==> lo <= s[i]) ==> lo * |s| as real <= Sum(s)
    ensures (forall i :: 0 <= i < |s| ==> s[i] <= hi) ==> Sum(s) <= hi * |s| as real
  {
    if s != [] {
      SumWithin(s[..|s| - 1], lo, hi);
    }
  }

  /** The mean lies between any bounds of the sample. */
  lemma AvgWithin(s: seq<real>, lo: real, hi: real)
    requires |s| > 0
    ensures (forall i :: 0 <= i < |s| ==> lo <= s[i]) ==> lo <= Sum(s) / |s| as real
    ensures (forall i :: 0 <= i < |s| ==> s[i] <= hi) ==> Sum(s) / |s| as real <= hi
  {
    if forall i :: 0 <= i < |s| ==> lo <= s[i] {
      AvgAtLeast(s, lo);
    }
    if forall i :: 0 <= i < |s| ==> s[i] <= hi {
      AvgAtMost(s, hi);
    }
  }

  lemma AvgAtLeast(s: seq<real>, lo: real)
    requires |s| > 0
    requires forall i :: 0 <= i < |s| ==> lo <= s[i]
    ensures lo <= Sum(s) / |s| as real
  {
    SumWithin(s, lo, lo);
    DivideBelow(lo, Sum(s), |s| as real);
  }

  lemma AvgAtMost(s: seq<real>, hi: real)
    requires |s| > 0
    requires forall i :: 0 <= i < |s| ==> s[i] <= hi
    ensures Sum(s) / |s| as real <= hi
  {
    SumWithin(s, hi, hi);
    DivideAbove(Sum(s), hi, |s| as real);
  }

  lemma DivideBelow(lo: real, x: real, n: real)
    requires 0.0 < n && lo * n <= x
    ensures lo <= x / n
  {
    assert x / n * n == x;
  }

  lemma DivideAbove(x: real, hi: real, n: real)
    requires 0.0 < n && x <= hi * n
    ensures x / n <= hi
  {
    assert x / n * n == x;
  }

  /** The sorted position of the 95th percentile: floor(0.95 * n). */
  function P95Index(n: nat): (i: nat)
    ensures n > 0 ==> i < n
  {
    (95 * n) / 100
  }

  /** `[...arr].sort((a, b) => a - b)`: a sorted copy, ascending. */
  function Ascending(s: seq<real>): (r: seq<real>)
    ensures multiset(r) == multiset(s)
    ensures forall i, j :: 0 <= i < j < |r| ==> r[i] <= r[j]
  {
    var r := Sorting.SortDesc(s, x => -x);
    assert forall i, j :: 0 <= i < j < |r| ==> -r[j] <= -r[i];
    r
  }

  /** p95 (src/bench.ts:47-50): nearest-rank percentile, 0 for no samples. */
  function P95(latencies: seq<real>): (p: real)
    ensures |latencies| == 0 ==> p == 0.0
    ensures |latencies| > 0 ==> p in latencies
    ensures |latencies| > 0 ==> p == Ascending(latencies)[P95Index(|latencies|)]
  {
    var sorted := Ascending(latencies);
    var i := P95Index(|sorted|);
    if i < |sorted| then
      assert sorted[i] in multiset(latencies);
      sorted[i]
    else 0.0
  }
}
