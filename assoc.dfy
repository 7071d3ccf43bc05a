/** Python's insertion-ordered `dict`, as an association list. `Put` is
    `d[k] = v`: it overwrites the value in place when the key is present and
    appends a new entry otherwise, so key order is order of first insertion.
    A tally (`Counts`) is a dict from keys to integer counts. */
module Assoc {
  import opened Common

  type Dict<K, V> = seq<(K, V)>
  type Counts<K> = Dict<K, int>

  function Keys<K, V>(d: Dict<K, V>): (r: seq<K>)
    ensures |r| == |d|
    ensures forall i :: 0 <= i < |d| ==> r[i] == d[i].0
  {
    if d == [] then [] else Keys(d[..|d| - 1]) + [d[|d| - 1].0]
  }

  function Values<K, V>(d: Dict<K, V>): (r: seq<V>)
    ensures |r| == |d|
    ensures forall i :: 0 <= i < |d| ==> r[i] == d[i].1
  {
    if d == [] then [] else Values(d[..|d| - 1]) + [d[|d| - 1].1]
  }

  /** Python's `k in d`. */
  predicate HasKey<K(==,!new), V>(d: Dict<K, V>, k: K)
  {
    k in Keys(d)
  }

  /** The keys of a dict are distinct (what every Python dict guarantees). */
  predicate IsDict<K(==,!new), V>(d: Dict<K, V>)
  {
    NoDuplicates(Keys(d))
  }

  /** The index of the first entry with key `k`. */
  function IndexOf<K(==,!new), V>(d: Dict<K, V>, k: K): (i: nat)
    requires HasKey(d, k)
    ensures i < |d| && d[i].0 == k
    ensures forall j :: 0 <= j < i ==> d[j].0 != k
  {
    if d[0].0 == k then 0 else IndexOf(d[1..], k) + 1
  }

  /** Python's `d.get(k)`. */
  function Get<K(==,!new), V>(d: Dict<K, V>, k: K): (r: Option<V>)
    ensures r.Some? <==> HasKey(d, k)
    ensures HasKey(d, k) ==> r.value == d[IndexOf(d, k)].1
  {
    if HasKey(d, k) then Some(d[IndexOf(d, k)].1) else None
  }

  /** Python's `d.get(k, dflt)`. */
  function GetOr<K(==,!new), V>(d: Dict<K, V>, k: K, dflt: V): V
  {
    match Get(d, k)
    case Some(v) => v
    case None => dflt
  }

  /** Python's `d[k] = v`. */
  function Put<K(==,!new), V>(d: Dict<K, V>, k: K, v: V): Dict<K, V>
  {
    if HasKey(d, k) then d[IndexOf(d, k) := (k, v)] else d + [(k, v)]
  }

  /** Assigning a present key overwrites its entry in place: the keys, and
      the length, stay as they were. */
  lemma PutPresent<K(!new), V>(d: Dict<K, V>, k: K, v: V)
    requires HasKey(d, k)
    ensures |Put(d, k, v)| == |d| && Keys(Put(d, k, v)) == Keys(d)
  {
    assert Keys(Put(d, k, v)) == Keys(d);
  }

  /** Assigning an absent key appends an entry. */
  lemma PutAbsent<K(!new), V>(d: Dict<K, V>, k: K, v: V)
    requires !HasKey(d, k)
    ensures Put(d, k, v) == d + [(k, v)]
    ensures Keys(Put(d, k, v)) == Keys(d) + [k]
  {
  }

  /** After `d[k] = v`, `k` holds `v`. */
  lemma PutGet<K(!new), V>(d: Dict<K, V>, k: K, v: V)
    ensures Get(Put(d, k, v), k) == Some(v)
  {
    var r := Put(d, k, v);
    if HasKey(d, k) {
      PutPresent(d, k, v);
    } else {
      PutAbsent(d, k, v);
      assert IndexOf(r, k) == |d|;
    }
  }

  /** After `d[k] = v`, every other key holds what it held. */
  lemma PutOther<K(!new), V>(d: Dict<K, V>, k: K, v: V, k': K)
    requires k' != k
    ensures Get(Put(d, k, v), k') == Get(d, k')
  {
    var r := Put(d, k, v);
    if HasKey(d, k) {
      PutPresent(d, k, v);
      if HasKey(d, k') {
        var j := IndexOf(d, k');
        assert r[j] == d[j];
      }
    } else {
      PutAbsent(d, k, v);
      if HasKey(d, k') {
        var j := IndexOf(d, k');
        assert IndexOf(r, k') == j;
      }
    }
  }

  /** Assignment keeps the keys distinct. */
  lemma PutKeepsDict<K(!new), V>(d: Dict<K, V>, k: K, v: V)
    requires IsDict(d)
    ensures IsDict(Put(d, k, v))
  {
    if HasKey(d, k) {
      PutPresent(d, k, v);
    } else {
      PutAbsent(d, k, v);
    }
  }

  /** `d[k] += n`, starting from 0 when the key is absent. */
  function Bump<K(==,!new)>(d: Counts<K>, k: K, n: int): Counts<K>
  {
    Put(d, k, GetOr(d, k, 0) + n)
  }

  /** Bumping adds `n` to the count of `k` alone, adds `k` to the keys if it
      was absent, and keeps the keys distinct. */
  lemma BumpSpec<K(!new)>(d: Counts<K>, k: K, n: int)
    ensures GetOr(Bump(d, k, n), k, 0) == GetOr(d, k, 0) + n
    ensures SetOf(Keys(Bump(d, k, n))) == SetOf(Keys(d)) + {k}
    ensures HasKey(d, k) ==> Keys(Bump(d, k, n)) == Keys(d)
    ensures IsDict(d) ==> IsDict(Bump(d, k, n))
  {
    var v := GetOr(d, k, 0) + n;
    assert Bump(d, k, n) == Put(d, k, v);
    PutGet(d, k, v);
    if HasKey(d, k) {
      PutPresent(d, k, v);
      assert k in SetOf(Keys(d));
    } else {
      PutAbsent(d, k, v);
      assert SetOf(Keys(d) + [k]) == SetOf(Keys(d)) + {k};
    }
    if IsDict(d) {
      PutKeepsDict(d, k, v);
    }
  }

  /** Bumping leaves the count of every other key as it was. */
  lemma BumpOthers<K(!new)>(d: Counts<K>, k: K, n: int, k': K)
    requires k' != k
    ensures GetOr(Bump(d, k, n), k', 0) == GetOr(d, k', 0)
  {
    PutOther(d, k, GetOr(d, k, 0) + n, k');
  }

  /** The sort key `lambda x: x[1]` of a count entry. */
  function CountKey<K>(e: (K, int)): real
  {
    e.1 as real
  }

  /** Python's `sum(d.values())`. */
  function SumValues<K>(d: Counts<K>): int
  {
    Sum(Values(d))
  }

  lemma SumValuesAppend<K>(d: Counts<K>, e: (K, int))
    ensures SumValues(d + [e]) == SumValues(d) + e.1
  {
    assert Values(d + [e]) == Values(d) + [e.1];
    SumAppend(Values(d), [e.1]);
  }

  lemma {:induction false} SumValuesUpdate<K>(d: Counts<K>, i: nat, e: (K, int))
    requires i < |d|
    ensures SumValues(d[i := e]) == SumValues(d) - d[i].1 + e.1
  {
    if i == |d| - 1 {
      assert d[i := e] == d[..|d| - 1] + [e];
      assert d == d[..|d| - 1] + [d[i]];
      SumValuesAppend(d[..|d| - 1], e);
      SumValuesAppend(d[..|d| - 1], d[i]);
    } else {
      var p := d[..|d| - 1];
      var l := d[|d| - 1];
      assert d == p + [l];
      assert d[i := e] == p[i := e] + [l];
      SumValuesUpdate(p, i, e);
      SumValuesAppend(p, l);
      SumValuesAppend(p[i := e], l);
    }
  }

  /** Bumping a tally adds exactly `n` to its total. */
  lemma BumpSum<K(!new)>(d: Counts<K>, k: K, n: int)
    ensures SumValues(Bump(d, k, n)) == SumValues(d) + n
  {
    if HasKey(d, k) {
      var i := IndexOf(d, k);
      assert GetOr(d, k, 0) == d[i].1;
      assert Bump(d, k, n) == d[i := (k, d[i].1 + n)];
      SumValuesUpdate(d, i, (k, d[i].1 + n));
    } else {
      SumValuesAppend(d, (k, 0 + n));
    }
  }

  /** `d[x] = d.get(x, 0) + 1` for each `x` of `xs`, in order. */
  function BumpEach<K(==,!new)>(d: Counts<K>, xs: seq<K>): Counts<K>
  {
    if xs == [] then d else Bump(BumpEach(d, xs[..|xs| - 1]), xs[|xs| - 1], 1)
  }

  /** Bumping along `a + b` is bumping along `a`, then along `b`. */
  lemma {:induction false} BumpEachAppend<K(!new)>(d: Counts<K>, a: seq<K>, b: seq<K>)
    ensures BumpEach(d, a + b) == BumpEach(BumpEach(d, a), b)
  {
    if b == [] {
      assert a + b == a;
    } else {
      assert (a + b)[..|a + b| - 1] == a + b[..|b| - 1];
      BumpEachAppend(d, a, b[..|b| - 1]);
    }
  }

  /** The tally of a sequence: the dict a Python loop
      `if x in d: d[x] += 1 else: d[x] = 1` builds over `xs`. */
  function TallyOf<K(==,!new)>(xs: seq<K>): Counts<K>
  {
    BumpEach([], xs)
  }

  /** Tallying one more element bumps its count by one. */
  lemma {:induction false} TallyOfAppendOne<K(!new)>(xs: seq<K>, y: K)
    ensures TallyOf(xs + [y]) == Bump(TallyOf(xs), y, 1)
  {
    assert (xs + [y])[..|xs|] == xs;
  }

  /** A tally counts every element, has distinct keys which are exactly the
      elements of the sequence, and its counts add up to the length. */
  lemma {:induction false} TallyOfCorrect<K(!new)>(xs: seq<K>)
    ensures IsDict(TallyOf(xs))
    ensures forall k :: GetOr(TallyOf(xs), k, 0) == multiset(xs)[k]
    ensures SetOf(Keys(TallyOf(xs))) == SetOf(xs)
    ensures SumValues(TallyOf(xs)) == |xs|
  {
    if xs != [] {
      var p := xs[..|xs| - 1];
      var x := xs[|xs| - 1];
      assert xs == p + [x];
      TallyOfCorrect(p);
      TallyOfAppendOne(p, x);
      BumpSpec(TallyOf(p), x, 1);
      BumpSum(TallyOf(p), x, 1);
      assert multiset(xs) == multiset(p) + multiset{x};
      forall k ensures GetOr(TallyOf(xs), k, 0) == multiset(xs)[k] {
        if k != x {
          BumpOthers(TallyOf(p), x, 1, k);
        }
      }
      SetOfAppendOne(p, x);
    }
  }

  /** The keys of a tally are the elements tallied. */
  lemma KeysOfTally<K(!new)>(xs: seq<K>, k: K)
    ensures HasKey(TallyOf(xs), k) <==> k in xs
  {
    TallyOfCorrect(xs);
    assert k in SetOf(Keys(TallyOf(xs))) <==> k in SetOf(xs);
  }

  /** A key present in a tally built by `TallyOf` has a positive count. */
  lemma TallyOfPositive<K(!new)>(xs: seq<K>, k: K)
    requires HasKey(TallyOf(xs), k)
    ensures GetOr(TallyOf(xs), k, 0) > 0
  {
    TallyOfCorrect(xs);
    assert k in SetOf(Keys(TallyOf(xs)));
    assert k in xs;
  }

  /** In a dict, the entry at index `j` is what its key looks up. */
  lemma GetAtIndex<K(!new), V>(d: Dict<K, V>, j: nat)
    requires IsDict(d) && j < |d|
    ensures Get(d, d[j].0) == Some(d[j].1)
  {
    assert Keys(d)[j] == d[j].0;
    var i := IndexOf(d, d[j].0);
    assert Keys(d)[i] == d[j].0;
  }

  /** `for k, v in entries: d[k] = v`. */
  function PutAll<K(==,!new), V>(d: Dict<K, V>, entries: seq<(K, V)>): Dict<K, V>
  {
    if entries == [] then d
    else Put(PutAll(d, entries[..|entries| - 1]), entries[|entries| - 1].0, entries[|entries| - 1].1)
  }

  /** Assigning the entries of a dict, one by one, into an empty dict
      rebuilds that dict. */
  lemma {:induction false} PutAllOfDict<K(!new), V>(d: Dict<K, V>)
    requires IsDict(d)
    ensures PutAll([], d) == d
  {
    if d != [] {
      var p := d[..|d| - 1];
      var e := d[|d| - 1];
      assert Keys(d) == Keys(p) + [e.0];
      assert IsDict(p);
      PutAllOfDict(p);
      assert e.0 !in Keys(p);
      PutAbsent(p, e.0, e.1);
      assert d == p + [e];
    }
  }

  /** `sum(t.get(k, 0) for k in ks)`. */
  function LookupSum<K(==,!new)>(ks: seq<K>, t: Counts<K>): int
  {
    if ks == [] then 0 else LookupSum(ks[..|ks| - 1], t) + GetOr(t, ks[|ks| - 1], 0)
  }

  lemma {:induction false} LookupSumEmpty<K(!new)>(ks: seq<K>)
    ensures LookupSum(ks, []) == 0
  {
    if ks != [] {
      LookupSumEmpty(ks[..|ks| - 1]);
    }
  }

  lemma GetOrAppendFresh<K(!new)>(t: Counts<K>, k: K, v: int, l: K)
    requires !HasKey(t, k)
    ensures GetOr(t + [(k, v)], l, 0) == GetOr(t, l, 0) + (if l == k then v else 0)
  {
    PutAbsent(t, k, v);
    if l != k {
      PutOther(t, k, v, l);
    } else {
      PutGet(t, k, v);
    }
  }

  lemma {:induction false} LookupSumAppendFresh<K(!new)>(ks: seq<K>, t: Counts<K>, k: K, v: int)
    requires !HasKey(t, k) && NoDuplicates(ks)
    ensures LookupSum(ks, t + [(k, v)]) == LookupSum(ks, t) + (if k in ks then v else 0)
  {
    if ks != [] {
      var p := ks[..|ks| - 1];
      var l := ks[|ks| - 1];
      assert ks == p + [l];
      LookupSumAppendFresh(p, t, k, v);
      GetOrAppendFresh(t, k, v, l);
      assert l !in p;
    }
  }

  /** Looking up every key of a list that holds each key of the tally once
      adds up to the tally's total. */
  lemma {:induction false} LookupSumCoversAll<K(!new)>(ks: seq<K>, t: Counts<K>)
    requires NoDuplicates(ks) && IsDict(t) && SetOf(Keys(t)) <= SetOf(ks)
    ensures LookupSum(ks, t) == SumValues(t)
  {
    if t == [] {
      LookupSumEmpty(ks);
    } else {
      var p := t[..|t| - 1];
      var e := t[|t| - 1];
      assert t == p + [e];
      assert Keys(t) == Keys(p) + [e.0];
      assert IsDict(p);
      assert e.0 !in Keys(p);
      assert SetOf(Keys(p)) <= SetOf(ks);
      LookupSumCoversAll(ks, p);
      LookupSumAppendFresh(ks, p, e.0, e.1);
      assert e.0 in SetOf(Keys(t));
      SumValuesAppend(p, e);
    }
  }

  /** `{k: f(v) for k, v in d.items()}`: the same keys, in order, each
      with its value mapped. */
  function MapValues<K, V, W>(d: Dict<K, V>, f: V -> W): Dict<K, W>
  {
    if d == [] then [] else MapValues(d[..|d| - 1], f) + [(d[|d| - 1].0, f(d[|d| - 1].1))]
  }

  lemma {:induction false} MapValuesEntries<K, V, W>(d: Dict<K, V>, f: V -> W)
    ensures |MapValues(d, f)| == |d|
    ensures forall i | 0 <= i < |d| :: MapValues(d, f)[i] == (d[i].0, f(d[i].1))
  {
    if d != [] {
      var n := |d| - 1;
      MapValuesEntries(d[..n], f);
      forall i | 0 <= i < n ensures MapValues(d, f)[i] == (d[i].0, f(d[i].1)) {
        assert d[..n][i] == d[i];
      }
    }
  }

  lemma MapValuesStep<K, V, W>(d: Dict<K, V>, f: V -> W, i: nat)
    requires i < |d|
    ensures MapValues(d[..i + 1], f) == MapValues(d[..i], f) + [(d[i].0, f(d[i].1))]
  {
    assert d[..i + 1][..i] == d[..i];
  }
}
