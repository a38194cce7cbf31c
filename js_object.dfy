/** Plain JavaScript objects used as dictionaries with string keys: an object is the
    sequence of its (key, value) entries in insertion order. `obj[k] = (obj[k] || 0) + 1`
    is `Increment`; `Object.entries(obj)` is `OwnEntries`, which lists array-index keys
    ("0", "7", "42", ...) first, in ascending numeric order, and then the other keys in
    insertion order. */
module JsObject {

  import opened Wrappers
  import opened Seqs
  import Calendar

  type Dict<V> = seq<(string, V)>

  function Keys<V>(d: Dict<V>): (ks: seq<string>)
    ensures |ks| == |d|
    ensures forall i :: 0 <= i < |d| ==> ks[i] == d[i].0
  {
    if d == [] then [] else [d[0].0] + Keys(d[1..])
  }

  lemma {:induction false} KeysAppend<V>(a: Dict<V>, b: Dict<V>)
    ensures Keys(a + b) == Keys(a) + Keys(b)
  {
    if a != [] {
      assert (a + b)[1..] == a[1..] + b;
      KeysAppend(a[1..], b);
    }
  }

  predicate Distinct(s: seq<string>)
  {
    forall i, j :: 0 <= i < j < |s| ==> s[i] != s[j]
  }

  predicate DistinctKeys<V>(d: Dict<V>)
  {
    forall i, j :: 0 <= i < j < |d| ==> d[i].0 != d[j].0
  }

  /** `obj[k]`: the value stored under `k`, or `None` (`undefined`). */
  function Lookup<V>(d: Dict<V>, k: string): (r: Option<V>)
    ensures r.None? <==> k !in Keys(d)
    ensures r.Some? ==> (k, r.value) in d
  {
    if d == [] then None
    else if d[0].0 == k then Some(d[0].1)
    else Lookup(d[1..], k)
  }

  /** Sum of the values: `Object.values(obj).reduce((a, b) => a + b, 0)`. */
  function Total(d: Dict<nat>): nat
  {
    if d == [] then 0 else d[0].1 + Total(d[1..])
  }

  lemma {:induction false} TotalAppend(a: Dict<nat>, b: Dict<nat>)
    ensures Total(a + b) == Total(a) + Total(b)
  {
    if a == [] {
      assert a + b == b;
    } else {
      assert (a + b)[1..] == a[1..] + b;
      TotalAppend(a[1..], b);
    }
  }

  /** Taking out the entry at `j`. */
  lemma RemoveAt(b: Dict<nat>, j: nat)
    requires j < |b|
    ensures Total(b) == b[j].1 + Total(b[..j] + b[j + 1..])
    ensures multiset(b[..j] + b[j + 1..]) == multiset(b) - multiset{b[j]}
  {
    var l, r := b[..j], b[j + 1..];
    var mid := [b[j]] + r;
    SplitAt(b, j);
    TotalAppend(l, mid);
    TotalAppend([b[j]], r);
    assert Total([b[j]]) == b[j].1;
    TotalAppend(l, r);
    MultisetRemoveAt(b, j);
  }

  /** The total does not depend on the order of the entries. */
  lemma {:induction false} TotalPermutation(a: Dict<nat>, b: Dict<nat>)
    requires multiset(a) == multiset(b)
    ensures Total(a) == Total(b)
    decreases |a|
  {
    if a == [] {
      assert b == [] by {
        assert |multiset(b)| == 0;
      }
    } else {
      assert a[0] in multiset(b);
      var j :| 0 <= j < |b| && b[j] == a[0];
      RemoveAt(b, j);
      assert a == [a[0]] + a[1..];
      assert multiset(a[1..]) == multiset(a) - multiset{a[0]};
      TotalPermutation(a[1..], b[..j] + b[j + 1..]);
    }
  }

  /** `obj[k] = (obj[k] || 0) + 1`: bumps an existing key in place, or adds `k` at the end with 1. */
  function Increment(d: Dict<nat>, k: string): (r: Dict<nat>)
    ensures Keys(r) == if k in Keys(d) then Keys(d) else Keys(d) + [k]
    ensures |r| == |d| + (if k in Keys(d) then 0 else 1)
  {
    if d == [] then [(k, 1)]
    else if d[0].0 == k then [(k, d[0].1 + 1)] + d[1..]
    else [d[0]] + Increment(d[1..], k)
  }

  /** Incrementing grows exactly the first count stored under `k` by one, or adds `(k, 1)`. */
  lemma {:induction false} IncrementValues(d: Dict<nat>, k: string)
    requires DistinctKeys(d)
    ensures forall i :: 0 <= i < |d| ==>
              Increment(d, k)[i].1 == d[i].1 + (if d[i].0 == k then 1 else 0)
    ensures k !in Keys(d) ==> Increment(d, k)[|d|] == (k, 1)
  {
    if d == [] {
    } else if d[0].0 == k {
      var r := Increment(d, k);
      assert r == [(k, d[0].1 + 1)] + d[1..];
      forall i | 0 < i < |d| ensures r[i].1 == d[i].1 + (if d[i].0 == k then 1 else 0) {
        assert d[0].0 != d[i].0;
        assert r[i] == d[i];
      }
    } else {
      var rest := Increment(d[1..], k);
      assert Increment(d, k) == [d[0]] + rest;
      DistinctKeysTail(d);
      IncrementValues(d[1..], k);
      assert Keys(d) == [d[0].0] + Keys(d[1..]);
      forall i | 0 < i < |d| ensures Increment(d, k)[i].1 == d[i].1 + (if d[i].0 == k then 1 else 0) {
        assert Increment(d, k)[i] == rest[i - 1] && d[i] == d[1..][i - 1];
      }
    }
  }

  lemma DistinctKeysTail<V>(d: Dict<V>)
    requires d != [] && DistinctKeys(d)
    ensures DistinctKeys(d[1..])
  {
    forall i, j | 0 <= i < j < |d[1..]| ensures d[1..][i].0 != d[1..][j].0 {
      assert d[1..][i] == d[i + 1] && d[1..][j] == d[j + 1];
    }
  }

  /** Incrementing adds one to the total. */
  lemma {:induction false} IncrementTotal(d: Dict<nat>, k: string)
    ensures Total(Increment(d, k)) == Total(d) + 1
  {
    if d != [] && d[0].0 != k {
      IncrementTotal(d[1..], k);
    }
  }

  lemma IncrementDistinct(d: Dict<nat>, k: string)
    requires DistinctKeys(d)
    ensures DistinctKeys(Increment(d, k))
  {
    var r := Increment(d, k);
    var ks := Keys(r);
    forall i, j | 0 <= i < j < |r| ensures r[i].0 != r[j].0 {
      assert ks[i] == r[i].0 && ks[j] == r[j].0;
      if k !in Keys(d) && j == |d| {
        assert r[i].0 == d[i].0;
        assert d[i].0 in Keys(d);
      } else {
        assert r[i].0 == d[i].0 && r[j].0 == d[j].0;
      }
    }
  }

  /** Keys in first-seen order: `init` followed by each new value of `s` as it first appears. */
  function AddKeys(init: seq<string>, s: seq<string>): seq<string>
  {
    if s == [] then init
    else
      var ks := AddKeys(init, s[..|s| - 1]);
      if s[|s| - 1] in ks then ks else ks + [s[|s| - 1]]
  }

  lemma {:induction false} AddKeysFacts(init: seq<string>, s: seq<string>)
    requires Distinct(init)
    ensures Distinct(AddKeys(init, s))
    ensures init <= AddKeys(init, s)
    ensures forall x :: x in AddKeys(init, s) <==> x in init || x in s
  {
    if s != [] {
      var p := s[..|s| - 1];
      AddKeysFacts(init, p);
      assert s == p + [s[|s| - 1]];
    }
  }

  /** A JavaScript tally: starting from `init`, `obj[x] = (obj[x] || 0) + 1` for each `x` of `s`
      in order. */
  function Tally(init: Dict<nat>, s: seq<string>): Dict<nat>
  {
    if s == [] then init else Increment(Tally(init, s[..|s| - 1]), s[|s| - 1])
  }

  lemma TallySnoc(init: Dict<nat>, s: seq<string>, x: string)
    ensures Tally(init, s + [x]) == Increment(Tally(init, s), x)
  {
    SnocParts(s, x);
  }

  predicate AllZero(init: Dict<nat>)
  {
    forall i :: 0 <= i < |init| ==> init[i].1 == 0
  }

  /** A tally started from zeroed keys lists `init`'s keys first and then every other value of
      `s` in first-seen order, holds each key's exact number of occurrences in `s`, and its
      values add up to the length of `s`. */
  lemma {:induction false} TallyFacts(init: Dict<nat>, s: seq<string>)
    requires DistinctKeys(init) && AllZero(init)
    ensures Keys(Tally(init, s)) == AddKeys(Keys(init), s)
    ensures DistinctKeys(Tally(init, s))
    ensures forall i :: 0 <= i < |Tally(init, s)| ==> Tally(init, s)[i].1 == multiset(s)[Tally(init, s)[i].0]
    ensures Total(Tally(init, s)) == |s|
  {
    if s == [] {
      assert Total(init) == 0 by { TotalZero(init); }
    } else {
      var p, x := s[..|s| - 1], s[|s| - 1];
      TallyFacts(init, p);
      var t := Tally(init, p);
      var r := Increment(t, x);
      assert Tally(init, s) == r;
      IncrementValues(t, x);
      IncrementTotal(t, x);
      IncrementDistinct(t, x);
      MultisetSnoc(s);
      AddKeysFacts(Keys(init), p);
      forall i | 0 <= i < |r| ensures r[i].1 == multiset(s)[r[i].0] {
        if i < |t| {
          assert r[i].0 == t[i].0;
        } else {
          assert x !in Keys(t);
          assert x !in p;
          assert i == |t| && r[i] == (x, 1);
          assert multiset(p)[x] == 0;
        }
      }
    }
  }

  lemma {:induction false} TotalZero(d: Dict<nat>)
    requires AllZero(d)
    ensures Total(d) == 0
  {
    if d != [] {
      TotalZero(d[1..]);
    }
  }

  // ---------------------------------------------------------------- Object.entries order

  /** A canonical array index: "0" or a digit string without a leading zero, below 2^32 - 1. */
  predicate IsArrayIndex(k: string)
  {
    |k| >= 1 && Calendar.AllDigits(k) && (k[0] != '0' || |k| == 1)
    && Calendar.DigitsValue(k) < 4_294_967_295
  }

  /** Sort key that puts array-index keys in ascending numeric order under `SortDesc`. */
  function IndexRank<V>(e: (string, V)): int
  {
    if IsArrayIndex(e.0) then -(Calendar.DigitsValue(e.0) as int) else 0
  }

  /** `Object.entries(obj)`. */
  function OwnEntries<V>(d: Dict<V>): Dict<V>
  {
    SortDesc(Filter(d, (e: (string, V)) => IsArrayIndex(e.0)), IndexRank)
      + Filter(d, (e: (string, V)) => !IsArrayIndex(e.0))
  }

  /** `Object.entries` lists the same entries, each once. */
  lemma OwnEntriesPermutes<V>(d: Dict<V>)
    ensures multiset(OwnEntries(d)) == multiset(d)
  {
    var isIdx := (e: (string, V)) => IsArrayIndex(e.0);
    var notIdx := (e: (string, V)) => !IsArrayIndex(e.0);
    var a, b := Filter(d, isIdx), Filter(d, notIdx);
    SortDescMultiset(a, IndexRank);
    assert OwnEntries(d) == SortDesc(a, IndexRank) + b;
    assert multiset(OwnEntries(d)) == multiset(a) + multiset(b);
    FilterPartition(d, isIdx, notIdx);
    assert multiset(a) + multiset(b) == multiset(d);
  }

  /** Without array-index keys, `Object.entries` is insertion order. */
  lemma OwnEntriesInsertionOrder<V>(d: Dict<V>)
    requires forall i :: 0 <= i < |d| ==> !IsArrayIndex(d[i].0)
    ensures OwnEntries(d) == d
  {
    var isIdx := (e: (string, V)) => IsArrayIndex(e.0);
    var notIdx := (e: (string, V)) => !IsArrayIndex(e.0);
    FilterIdentity(d, notIdx);
    FilterNone(d, isIdx);
  }

  // ---------------------------------------------------------------- rankings of entries

  /** The count of a tally entry, as a sort key: `([, count]) => count`. */
  function EntryCount(e: (string, nat)): int { e.1 }

  lemma SingleOccurrence<V>(a: Dict<V>, p: nat)
    requires DistinctKeys(a) && p < |a|
    ensures multiset(a)[a[p]] == 1
  {
    assert a == a[..p] + [a[p]] + a[p + 1..];
    assert a[p] !in a[..p] by {
      forall i | 0 <= i < p ensures a[..p][i] != a[p] {
        assert a[..p][i] == a[i];
      }
    }
    var rest := a[p + 1..];
    assert a[p] !in rest by {
      forall i | 0 <= i < |rest| ensures rest[i] != a[p] {
        assert rest[i] == a[p + 1 + i];
      }
    }
  }

  lemma RepeatedOccurrence<T>(b: seq<T>, i: nat, j: nat)
    requires i < j < |b| && b[i] == b[j]
    ensures multiset(b)[b[i]] >= 2
  {
    assert b == b[..j] + [b[j]] + b[j + 1..];
    assert b[..j][i] == b[i];
    assert b[i] in b[..j];
  }

  /** Rearranging entries with distinct keys keeps the keys distinct. */
  lemma DistinctKeysPermutation<V>(a: Dict<V>, b: Dict<V>)
    requires DistinctKeys(a) && multiset(a) == multiset(b)
    ensures DistinctKeys(b)
  {
    forall i, j | 0 <= i < j < |b| ensures b[i].0 != b[j].0 {
      if b[i].0 == b[j].0 {
        assert b[i] in multiset(a) && b[j] in multiset(a);
        var p :| 0 <= p < |a| && a[p] == b[i];
        var q :| 0 <= q < |a| && a[q] == b[j];
        assert p == q;
        RepeatedOccurrence(b, i, j);
        SingleOccurrence(a, p);
        assert false;
      }
    }
  }

  /** The first `n` entries of a descending ranking of `d`: at most `n` of them, with distinct
      keys, in non-increasing count order, all taken from `d`, and no entry left out counts more
      than the last one kept. */
  lemma TopFacts(d: Dict<nat>, ranked: Dict<nat>, n: nat)
    requires DistinctKeys(d) && multiset(ranked) == multiset(d) && SortedDesc(ranked, EntryCount)
    requires n > 0
    ensures |Take(ranked, n)| == Min(n, |d|)
    ensures DistinctKeys(Take(ranked, n))
    ensures SortedDesc(Take(ranked, n), EntryCount)
    ensures forall i :: 0 <= i < |Take(ranked, n)| ==> Take(ranked, n)[i] in d
    ensures forall e :: e in d && e !in Take(ranked, n) ==>
              |Take(ranked, n)| == n && e.1 <= Take(ranked, n)[n - 1].1
  {
    var top := Take(ranked, n);
    assert |ranked| == |d| by {
      assert |multiset(ranked)| == |multiset(d)|;
    }
    DistinctKeysPermutation(d, ranked);
    forall i | 0 <= i < |top| ensures top[i] in d {
      assert top[i] == ranked[i];
      assert ranked[i] in multiset(d);
    }
    forall e | e in d && e !in top ensures |top| == n && e.1 <= top[n - 1].1 {
      assert e in multiset(ranked);
      var p :| 0 <= p < |ranked| && ranked[p] == e;
      assert |top| == n;
      assert ranked[n - 1].1 >= ranked[p].1 by {
        assert EntryCount(ranked[n - 1]) >= EntryCount(ranked[p]);
      }
    }
  }

  /** Counting `s` from an empty object lists each distinct value once, by first appearance;
      for a list without repeats that is the list itself. */
  lemma {:induction false} AddKeysOfDistinct(s: seq<string>)
    requires Distinct(s)
    ensures AddKeys([], s) == s
  {
    if s != [] {
      var p := s[..|s| - 1];
      AddKeysOfDistinct(p);
      assert s == p + [s[|s| - 1]];
      assert s[|s| - 1] !in p;
    }
  }

  /** Array-index keys are listed numerically: inserting "7" and then "3" lists "3" first. */
  lemma OwnEntriesSevenThree(d: Dict<nat>)
    requires d == [("7", 1), ("3", 1)]
    ensures OwnEntries(d) == [("3", 1), ("7", 1)]
  {
    assert "7"[..0] == [] && "3"[..0] == [];
    assert IsArrayIndex("7") && IsArrayIndex("3");
    var isIdx := (e: (string, nat)) => IsArrayIndex(e.0);
    var notIdx := (e: (string, nat)) => !IsArrayIndex(e.0);
    assert Filter(d[1..], isIdx) == [("3", 1)];
    assert Filter(d, isIdx) == d;
    assert Filter(d[1..], notIdx) == [];
    assert Filter(d, notIdx) == [];
    assert IndexRank(("7", 1)) == -7 && IndexRank(("3", 1)) == -3;
    assert SortDesc([("7", 1)], IndexRank) == [("7", 1)];
    assert d[..1] == [("7", 1)];
    assert SortDesc(d, IndexRank) == InsertDesc([("7", 1)], ("3", 1), IndexRank) == [("3", 1), ("7", 1)];
  }
}
