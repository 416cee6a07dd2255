/** The one sort the harness uses everywhere: JavaScript's stable
    `Array.prototype.sort` with a numeric comparator `(a, b) => key(b) - key(a)`.
    An ascending sort `(a, b) => key(a) - key(b)` is the same sort on the
    negated key. Modelled as a stable insertion sort. */
module Sorting {

  /** Non-increasing by key. */
  ghost predicate SortedDesc<T>(s: seq<T>, key: T -> real) {
    forall i, j :: 0 <= i < j < |s| ==> key(s[j]) <= key(s[i])
  }

  /** Non-increasing by key, and elements of equal key ordered by `pos`. */
  ghost predicate LexSorted<T>(s: seq<T>, key: T -> real, pos: T -> int) {
    forall i, j :: 0 <= i < j < |s| ==>
      key(s[j]) < key(s[i]) || (key(s[j]) == key(s[i]) && pos(s[i]) < pos(s[j]))
  }

  /** `pos` numbers the elements of `s` in increasing order. */
  ghost predicate Increasing<T>(s: seq<T>, pos: T -> int) {
    forall i, j :: 0 <= i < j < |s| ==> pos(s[i]) < pos(s[j])
  }

  /** Puts `x` in front of the first element whose key is not greater than
      its own, so that `x` precedes every element of equal key. */
  function Insert<T>(x: T, s: seq<T>, key: T -> real): (r: seq<T>)
    ensures multiset(r) == multiset(s) + multiset{x}
    ensures SortedDesc(s, key) ==> SortedDesc(r, key)
  {
    if s == [] || key(s[0]) <= key(x) then [x] + s
    else
      var rest := Insert(x, s[1..], key);
      assert s == [s[0]] + s[1..];
      InsertHeadBound(x, s, rest, key);
      [s[0]] + rest
  }

  /** Under the head of a sorted list, the insertion into its tail stays below it. */
  lemma InsertHeadBound<T>(x: T, s: seq<T>, rest: seq<T>, key: T -> real)
    requires s != [] && key(x) < key(s[0])
    requires multiset(rest) == multiset(s[1..]) + multiset{x}
    ensures SortedDesc(s, key) ==> forall j :: 0 <= j < |rest| ==> key(rest[j]) <= key(s[0])
  {
    if SortedDesc(s, key) {
      forall j | 0 <= j < |rest| ensures key(rest[j]) <= key(s[0]) {
        var y := rest[j];
        assert y in multiset(rest);
        if y != x {
          assert y in multiset(s[1..]);
          var k :| 0 <= k < |s[1..]| && s[1..][k] == y;
          assert s[k + 1] == y;
        }
      }
    }
  }

  /** The stable sort, non-increasing by `key`. */
  function SortDesc<T>(s: seq<T>, key: T -> real): (r: seq<T>)
    ensures |r| == |s|
    ensures multiset(r) == multiset(s)
    ensures SortedDesc(r, key)
  {
    if s == [] then []
    else
      assert s == [s[0]] + s[1..];
      var r := Insert(s[0], SortDesc(s[1..], key), key);
      assert |r| == |multiset(r)|;
      r
  }

  lemma {:induction false} InsertLex<T>(x: T, s: seq<T>, key: T -> real, pos: T -> int)
    requires LexSorted(s, key, pos)
    requires forall y :: y in s ==> pos(x) < pos(y)
    ensures LexSorted(Insert(x, s, key), key, pos)
  {
    if s == [] || key(s[0]) <= key(x) {
      forall y | y in s ensures key(y) < key(x) || (key(y) == key(x) && pos(x) < pos(y)) {
        var k :| 0 <= k < |s| && s[k] == y;
        assert key(s[k]) <= key(s[0]);
      }
      LexCons(x, s, key, pos);
    } else {
      InsertLex(x, s[1..], key, pos);
      var rest := Insert(x, s[1..], key);
      forall y | y in rest ensures key(y) < key(s[0]) || (key(y) == key(s[0]) && pos(s[0]) < pos(y)) {
        assert y in multiset(rest);
        if y != x {
          var k :| 0 <= k < |s[1..]| && s[1..][k] == y;
          assert s[k + 1] == y;
        }
      }
      LexCons(s[0], rest, key, pos);
    }
  }

  /** An element that goes before everything in a sorted list can head it. */
  lemma LexCons<T>(h: T, s: seq<T>, key: T -> real, pos: T -> int)
    requires LexSorted(s, key, pos)
    requires forall y :: y in s ==> key(y) < key(h) || (key(y) == key(h) && pos(h) < pos(y))
    ensures LexSorted([h] + s, key, pos)
  {
    var r := [h] + s;
    forall i, j | 0 <= i < j < |r|
      ensures key(r[j]) < key(r[i]) || (key(r[j]) == key(r[i]) && pos(r[i]) < pos(r[j]))
    {
      assert r[j] == s[j - 1];
      if i > 0 {
        assert r[i] == s[i - 1];
      } else {
        assert r[j] in s;
      }
    }
  }

  /** Stability: elements of equal key keep their input order. */
  lemma {:induction false} SortDescStable<T>(s: seq<T>, key: T -> real, pos: T -> int)
    requires Increasing(s, pos)
    ensures LexSorted(SortDesc(s, key), key, pos)
  {
    if s != [] {
      SortDescStable(s[1..], key, pos);
      var t := SortDesc(s[1..], key);
      forall y | y in t ensures pos(s[0]) < pos(y) {
        assert y in multiset(s[1..]);
      }
      InsertLex(s[0], t, key, pos);
    }
  }

  /** Index of the first element of maximal key. */
  function FirstMax<T>(s: seq<T>, key: T -> real): (m: nat)
    requires |s| > 0
    ensures m < |s|
    ensures forall i :: 0 <= i < |s| ==> key(s[i]) <= key(s[m])
    ensures forall i :: 0 <= i < m ==> key(s[i]) < key(s[m])
  {
    if |s| == 1 then 0
    else
      var m := FirstMax(s[1..], key) + 1;
      if key(s[m]) <= key(s[0]) then 0 else m
  }

  /** The head of the sorted list is the first element of maximal key. */
  lemma {:induction false} SortDescHead<T>(s: seq<T>, key: T -> real)
    requires |s| > 0
    ensures SortDesc(s, key)[0] == s[FirstMax(s, key)]
  {
    if |s| > 1 {
      SortDescHead(s[1..], key);
    }
  }

  /** A list that is already strictly decreasing by key is left as it is. */
  lemma {:induction false} SortDescFixpoint<T>(s: seq<T>, key: T -> real)
    requires forall i, j :: 0 <= i < j < |s| ==> key(s[j]) < key(s[i])
    ensures SortDesc(s, key) == s
  {
    if s != [] {
      SortDescFixpoint(s[1..], key);
      assert s == [s[0]] + s[1..];
    }
  }

  /** The key tells the elements of `s` apart. */
  ghost predicate KeysDistinct<T>(s: seq<T>, key: T -> real) {
    forall x, y :: x in s && y in s && key(x) == key(y) ==> x == y
  }

  /** Two lists sorted by a key that tells their elements apart, holding the
      same elements, are the same list. */
  lemma {:induction false} SortedUnique<T>(s: seq<T>, t: seq<T>, key: T -> real)
    requires SortedDesc(s, key) && SortedDesc(t, key)
    requires multiset(s) == multiset(t)
    requires KeysDistinct(s, key)
    ensures s == t
  {
    assert |s| == |multiset(s)| == |t|;
    if s != [] {
      SortedHead(s, t, key);
      MultisetTail(s, t);
      SortedTail(s, key);
      SortedTail(t, key);
      SortedUnique(s[1..], t[1..], key);
      SameHeadAndTail(s, t);
    }
  }

  lemma SameHeadAndTail<T>(s: seq<T>, t: seq<T>)
    requires s != [] && t != [] && s[0] == t[0] && s[1..] == t[1..]
    ensures s == t
  {
    assert s == [s[0]] + s[1..];
    assert t == [t[0]] + t[1..];
  }

  /** Keys that tell apart the elements of a list tell apart those of any
      permutation of it. */
  lemma KeysDistinctPerm<T>(s: seq<T>, t: seq<T>, key: T -> real)
    requires multiset(s) == multiset(t)
    requires KeysDistinct(t, key)
    ensures KeysDistinct(s, key)
  {
    forall x, y | x in s && y in s && key(x) == key(y)
      ensures x == y
    {
      assert x in multiset(t) && y in multiset(t);
    }
  }

  /** Dropping the head keeps a list sorted with its keys apart. */
  lemma SortedTail<T>(s: seq<T>, key: T -> real)
    requires s != []
    requires SortedDesc(s, key)
    ensures SortedDesc(s[1..], key)
    ensures KeysDistinct(s, key) ==> KeysDistinct(s[1..], key)
  {
    assert forall x :: x in s[1..] ==> x in s;
  }

  /** Equal multisets with the same head have equal tails. */
  lemma MultisetTail<T>(s: seq<T>, t: seq<T>)
    requires s != [] && t != [] && s[0] == t[0]
    requires multiset(s) == multiset(t)
    ensures multiset(s[1..]) == multiset(t[1..])
  {
    assert s == [s[0]] + s[1..];
    assert t == [t[0]] + t[1..];
    assert multiset(s[1..]) == multiset(s) - multiset{s[0]};
    assert multiset(t[1..]) == multiset(t) - multiset{t[0]};
  }

  lemma SortedHead<T>(s: seq<T>, t: seq<T>, key: T -> real)
    requires s != [] && t != []
    requires SortedDesc(s, key) && SortedDesc(t, key)
    requires multiset(s) == multiset(t)
    requires KeysDistinct(s, key)
    ensures s[0] == t[0]
  {
    assert s[0] in multiset(t);
    assert t[0] in multiset(s);
    var i :| 0 <= i < |t| && t[i] == s[0];
    var j :| 0 <= j < |s| && s[j] == t[0];
    assert key(s[0]) <= key(t[0]);
    assert key(t[0]) <= key(s[0]);
  }
}
