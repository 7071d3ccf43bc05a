/** Python's `sorted(s, key=key, reverse=True)` and `list.sort(key=key,
    reverse=True)`: a sort into descending key order, written as an
    insertion sort that places each element after every element already
    there whose key is at least its own. The contracts state the order and
    the permutation; the order among equal keys (Python's stability) is not
    stated. */
module Sorting {
  import opened Common

  predicate SortedDesc<T>(s: seq<T>, key: T -> real)
  {
    forall i, j :: 0 <= i < j < |s| ==> key(s[i]) >= key(s[j])
  }

  function InsertDesc<T>(s: seq<T>, x: T, key: T -> real): (r: seq<T>)
    requires SortedDesc(s, key)
    ensures SortedDesc(r, key)
    ensures multiset(r) == multiset(s) + multiset{x}
    ensures |r| == |s| + 1
  {
    if s == [] then [x]
    else if key(s[0]) >= key(x) then
      var rest := InsertDesc(s[1..], x, key);
      HeadStaysFirst(s, x, key, rest);
      [s[0]] + rest
    else
      GreaterGoesFirst(s, x, key);
      [x] + s
  }

  /** An element at least as large as every element of the insertion into
      the tail keeps its place at the head. */
  lemma HeadStaysFirst<T>(s: seq<T>, x: T, key: T -> real, rest: seq<T>)
    requires s != [] && SortedDesc(s, key) && key(s[0]) >= key(x)
    requires SortedDesc(rest, key) && multiset(rest) == multiset(s[1..]) + multiset{x}
    ensures SortedDesc([s[0]] + rest, key)
    ensures multiset([s[0]] + rest) == multiset(s) + multiset{x}
  {
    assert s == [s[0]] + s[1..];
    forall y | y in rest ensures key(s[0]) >= key(y) {
      assert y in multiset(s[1..]) + multiset{x};
      if y != x {
        assert y in s[1..];
      }
    }
    var r := [s[0]] + rest;
    forall i, j | 0 <= i < j < |r| ensures key(r[i]) >= key(r[j]) {
      if i == 0 {
        assert r[j] == rest[j - 1];
        assert r[j] in rest;
      } else {
        assert r[i] == rest[i - 1] && r[j] == rest[j - 1];
      }
    }
  }

  /** An element larger than the head of a sorted sequence goes before it. */
  lemma GreaterGoesFirst<T>(s: seq<T>, x: T, key: T -> real)
    requires s != [] && SortedDesc(s, key) && key(s[0]) < key(x)
    ensures SortedDesc([x] + s, key)
  {
    var r := [x] + s;
    forall i, j | 0 <= i < j < |r| ensures key(r[i]) >= key(r[j]) {
      if i == 0 {
        assert r[j] == s[j - 1];
        assert key(s[0]) >= key(s[j - 1]);
      } else {
        assert r[i] == s[i - 1] && r[j] == s[j - 1];
      }
    }
  }

  /** A descending sort of `s` by `key`: sorted, and a permutation of `s`. */
  function SortDesc<T>(s: seq<T>, key: T -> real): (r: seq<T>)
    ensures SortedDesc(r, key)
    ensures multiset(r) == multiset(s)
    ensures |r| == |s|
  {
    if s == [] then []
    else
      assert s == s[..|s| - 1] + [s[|s| - 1]];
      InsertDesc(SortDesc(s[..|s| - 1], key), s[|s| - 1], key)
  }

  /** Every element's key lies between the keys of the first and the last
      element of the descending sort. */
  lemma SortDescBounds<T>(s: seq<T>, key: T -> real, i: int)
    requires 0 <= i < |s|
    ensures key(SortDesc(s, key)[0]) >= key(s[i]) >= key(SortDesc(s, key)[|s| - 1])
  {
    var sorted := SortDesc(s, key);
    assert s[i] in multiset(s);
    assert s[i] in multiset(sorted);
    var j :| 0 <= j < |sorted| && sorted[j] == s[i];
    assert key(sorted[0]) >= key(sorted[j]);
    assert key(sorted[j]) >= key(sorted[|sorted| - 1]);
  }

  /** Where the first and the last element of the descending sort sit in
      the input. */
  lemma SortDescEnds<T>(s: seq<T>, key: T -> real) returns (top: nat, bottom: nat)
    requires s != []
    ensures top < |s| && s[top] == SortDesc(s, key)[0]
    ensures bottom < |s| && s[bottom] == SortDesc(s, key)[|s| - 1]
  {
    var sorted := SortDesc(s, key);
    assert sorted[0] in multiset(sorted);
    assert sorted[|sorted| - 1] in multiset(sorted);
    top :| 0 <= top < |s| && s[top] == sorted[0];
    bottom :| 0 <= bottom < |s| && s[bottom] == sorted[|sorted| - 1];
  }

  /** The first `k` elements of the descending sort are the `k` largest:
      none of the elements left out has a larger key than one kept. */
  lemma TopKDominates<T>(s: seq<T>, key: T -> real, k: nat, i: int, j: int)
    requires 0 <= i < Min(k, |s|) <= j < |s|
    ensures key(Take(SortDesc(s, key), k)[i]) >= key(SortDesc(s, key)[j])
  {
  }

  /** What `sorted(s, key=key, reverse=True)[:k]` keeps: at most `k`
      elements of `s`, in descending order, none of them below an element
      left out. */
  lemma TopKSpec<T>(s: seq<T>, key: T -> real, k: nat)
    ensures var top := Take(SortDesc(s, key), k);
      |top| == Min(k, |s|) &&
      (forall t | t in top :: t in s) &&
      SortedDesc(top, key) &&
      (forall t, u | t in s && t !in top && u in top :: key(u) >= key(t))
  {
    var sorted := SortDesc(s, key);
    var top := Take(sorted, k);
    forall t | t in top
      ensures t in s
    {
      assert t in multiset(sorted);
    }
    forall t, u | t in s && t !in top && u in top
      ensures key(u) >= key(t)
    {
      assert t in multiset(sorted);
      var j :| 0 <= j < |sorted| && sorted[j] == t;
      var i :| 0 <= i < |top| && top[i] == u;
      assert j >= |top|;
    }
  }

  /** A number or Python's `float('inf')`. */
  datatype Ratio = Finite(value: real) | Infinite

  predicate AtMost(a: Ratio, b: Ratio)
  {
    b.Infinite? || (a.Finite? && a.value <= b.value)
  }

  predicate Below(a: Ratio, b: Ratio)
  {
    !AtMost(b, a)
  }

  /** The first element whose key is largest: the head of Python's stable
      `sort(key=key, reverse=True)` and what `Counter.most_common(1)` picks.
      It stands on its own; no lemma ties it to `SortDesc`. */
  function FirstMaxIndex<T>(s: seq<T>, key: T -> Ratio): (i: nat)
    requires |s| > 0
    ensures i < |s|
    ensures forall j | 0 <= j < |s| :: AtMost(key(s[j]), key(s[i]))
    ensures forall j | 0 <= j < i :: Below(key(s[j]), key(s[i]))
  {
    var n := |s| - 1;
    if n == 0 then 0
    else
      var i := FirstMaxIndex(s[..n], key);
      assert forall j | 0 <= j < n :: s[..n][j] == s[j];
      if Below(key(s[i]), key(s[n])) then n else i
  }

  function NegKey(x: int): real
  {
    -(x as real)
  }

  predicate SortedAsc(s: seq<int>)
  {
    forall i, j :: 0 <= i < j < |s| ==> s[i] <= s[j]
  }

  /** Python's `sorted(s)` on integers: ascending, the same elements. */
  function SortAsc(s: seq<int>): (r: seq<int>)
    ensures SortedAsc(r)
    ensures multiset(r) == multiset(s)
    ensures |r| == |s|
  {
    var r := SortDesc(s, NegKey);
    assert forall i, j :: 0 <= i < j < |r| ==> NegKey(r[i]) >= NegKey(r[j]);
    r
  }
}
