/** Sequence helpers shared by the pages: JavaScript's `filter`, counting, `slice(0, n)`
    and its stable `sort` with a descending numeric comparator. */
module Seqs {

  import opened Wrappers

  function Min(a: int, b: int): int { if a <= b then a else b }

  /** `xs.filter(p)`: the elements satisfying `p`, in their original order. */
  function Filter<T>(s: seq<T>, p: T -> bool): (r: seq<T>)
    ensures |r| <= |s|
    ensures forall x :: x in r ==> x in s && p(x)
    ensures forall x :: x in s && p(x) ==> x in r
  {
    if s == [] then [] else (if p(s[0]) then [s[0]] else []) + Filter(s[1..], p)
  }

  /** Filtering distributes over concatenation: this is what "relative order is kept" means. */
  lemma {:induction false} FilterAppend<T>(a: seq<T>, b: seq<T>, p: T -> bool)
    ensures Filter(a + b, p) == Filter(a, p) + Filter(b, p)
  {
    if a == [] {
      assert a + b == b;
    } else {
      assert (a + b)[1..] == a[1..] + b;
      FilterAppend(a[1..], b, p);
    }
  }

  /** Filtering keeps everything exactly when every element satisfies the predicate. */
  lemma {:induction false} FilterIdentity<T>(s: seq<T>, p: T -> bool)
    ensures Filter(s, p) == s <==> forall i :: 0 <= i < |s| ==> p(s[i])
  {
    if s != [] {
      FilterIdentity(s[1..], p);
      if !p(s[0]) {
        assert |Filter(s, p)| < |s|;
      }
    }
  }

  /** Filtering drops everything when no element satisfies the predicate. */
  lemma {:induction false} FilterNone<T>(s: seq<T>, p: T -> bool)
    requires forall i :: 0 <= i < |s| ==> !p(s[i])
    ensures Filter(s, p) == []
  {
    if s != [] {
      FilterNone(s[1..], p);
    }
  }

  /** Filtering a filtered sequence again changes nothing. */
  lemma FilterIdempotent<T>(s: seq<T>, p: T -> bool)
    ensures Filter(Filter(s, p), p) == Filter(s, p)
  {
    var r := Filter(s, p);
    forall i | 0 <= i < |r| ensures p(r[i]) {
      assert r[i] in r;
    }
    FilterIdentity(r, p);
  }

  /** The multiset of the kept elements: each element of `s` with its multiplicity, if it satisfies `p`. */
  lemma {:induction false} FilterMultiset<T>(s: seq<T>, p: T -> bool, x: T)
    ensures multiset(Filter(s, p))[x] == if p(x) then multiset(s)[x] else 0
  {
    if s != [] {
      FilterMultiset(s[1..], p, x);
      assert s == [s[0]] + s[1..];
    }
  }

  /** Splitting by a predicate and by its negation loses and adds nothing. */
  lemma FilterPartition<T>(s: seq<T>, p: T -> bool, q: T -> bool)
    requires forall x :: q(x) == !p(x)
    ensures multiset(Filter(s, p)) + multiset(Filter(s, q)) == multiset(s)
  {
    var m := multiset(Filter(s, p)) + multiset(Filter(s, q));
    forall x ensures m[x] == multiset(s)[x] {
      FilterMultiset(s, p, x);
      FilterMultiset(s, q, x);
      assert q(x) == !p(x);
    }
    MultisetExt(m, multiset(s));
  }

  /** The shapes a sequence is taken apart into, stated once so that proofs about sequences
      of records do not re-derive them. */
  lemma ConsSplit<T>(s: seq<T>)
    requires s != []
    ensures s == [s[0]] + s[1..]
  {
  }

  lemma SnocSplit<T>(s: seq<T>)
    requires s != []
    ensures s == s[..|s| - 1] + [s[|s| - 1]]
  {
  }

  lemma AppendTail<T>(a: seq<T>, b: seq<T>)
    requires a != []
    ensures (a + b)[0] == a[0] && (a + b)[1..] == a[1..] + b
  {
  }

  lemma MultisetSnoc<T>(s: seq<T>)
    requires s != []
    ensures forall k :: multiset(s)[k] == multiset(s[..|s| - 1])[k] + (if k == s[|s| - 1] then 1 else 0)
  {
    assert s == s[..|s| - 1] + [s[|s| - 1]];
  }

  lemma PrefixSnoc<T>(s: seq<T>, i: nat)
    requires i < |s|
    ensures s[..i + 1] == s[..i] + [s[i]]
    ensures s[..i + 1][..i] == s[..i] && s[..i + 1][i] == s[i]
  {
  }

  lemma SnocParts<T>(s: seq<T>, x: T)
    ensures (s + [x])[..|s|] == s && (s + [x])[|s|] == x
  {
  }

  lemma ConsPrefix<T>(s: seq<T>, k: nat)
    requires k < |s|
    ensures s[..k + 1] == [s[0]] + s[1..][..k]
  {
  }

  lemma PrefixAll<T>(s: seq<T>)
    ensures s[..|s|] == s
  {
  }

  lemma SplitAt<T>(b: seq<T>, j: nat)
    requires j < |b|
    ensures b == b[..j] + ([b[j]] + b[j + 1..])
  {
  }

  /** Taking out the element at `j` takes one copy of it out of the multiset. */
  lemma MultisetRemoveAt<T>(b: seq<T>, j: nat)
    requires j < |b|
    ensures multiset(b[..j] + b[j + 1..]) == multiset(b) - multiset{b[j]}
  {
    var l, r := b[..j], b[j + 1..];
    assert b == (l + [b[j]]) + r;
    assert multiset(b) == multiset(l) + multiset{b[j]} + multiset(r);
  }

  /** The pieces of `a + [h] + l + [f]`: `a` in front, then `h`, `l` and `f`. */
  lemma AppendParts<T>(a: seq<T>, h: T, l: seq<T>, f: T)
    ensures var w := a + [h] + l + [f];
      && w == a + ([h] + l + [f]) && |w| == |a| + |l| + 2
      && w[..|a|] == a && w[|a|..] == [h] + l + [f]
      && w[|a|] == h && w[|w| - 1] == f
  {
  }

  /** Two sequences that agree at every index are equal. */
  lemma SeqExt<T>(a: seq<T>, b: seq<T>)
    requires |a| == |b| && forall i :: 0 <= i < |a| ==> a[i] == b[i]
    ensures a == b
  {
  }

  /** Two multisets that agree on every element are equal. */
  lemma MultisetExt<T>(a: multiset<T>, b: multiset<T>)
    requires forall x :: a[x] == b[x]
    ensures a == b
  {
  }

  /** The number of elements of `s` whose key is `k`. */
  function CountKey<T, K(==)>(s: seq<T>, key: T -> K, k: K): (n: nat)
    ensures n <= |s|
    ensures n == 0 <==> forall i :: 0 <= i < |s| ==> key(s[i]) != k
  {
    if s == [] then 0 else (if key(s[0]) == k then 1 else 0) + CountKey(s[1..], key, k)
  }

  lemma {:induction false} CountKeyAppend<T, K>(a: seq<T>, b: seq<T>, key: T -> K, k: K)
    ensures CountKey(a + b, key, k) == CountKey(a, key, k) + CountKey(b, key, k)
  {
    if a == [] {
      assert a + b == b;
    } else {
      assert (a + b)[1..] == a[1..] + b;
      CountKeyAppend(a[1..], b, key, k);
    }
  }

  /** `xs.find(p)`: the first element satisfying `p`, if any. */
  function Find<T>(s: seq<T>, p: T -> bool): (r: Option<T>)
    ensures r.None? <==> forall i :: 0 <= i < |s| ==> !p(s[i])
    ensures r.Some? ==> exists i :: 0 <= i < |s| && s[i] == r.value && p(s[i]) && forall j :: 0 <= j < i ==> !p(s[j])
  {
    if s == [] then None
    else if p(s[0]) then Some(s[0])
    else
      var r := Find(s[1..], p);
      assert r.Some? ==> exists i :: 0 < i < |s| && s[i] == r.value && p(s[i]) && forall j :: 0 <= j < i ==> !p(s[j]) by {
        if r.Some? {
          var i :| 0 <= i < |s[1..]| && s[1..][i] == r.value && p(s[1..][i]) && forall j :: 0 <= j < i ==> !p(s[1..][j]);
          assert forall j :: 0 <= j < i + 1 ==> !p(s[j]) by {
            forall j | 0 <= j < i + 1 ensures !p(s[j]) {
              if j > 0 {
                assert s[j] == s[1..][j - 1];
              }
            }
          }
        }
      }
      assert r.None? ==> forall i :: 0 <= i < |s| ==> !p(s[i]) by {
        if r.None? {
          forall i | 0 <= i < |s| ensures !p(s[i]) {
            if i > 0 {
              assert s[i] == s[1..][i - 1];
            }
          }
        }
      }
      r
  }

  /** `xs.slice(0, n)`. */
  function Take<T>(s: seq<T>, n: nat): (r: seq<T>)
    ensures |r| == Min(n, |s|)
    ensures r <= s
  {
    if n < |s| then s[..n] else s
  }

  /** `xs.slice(-n)` for n > 0: the last n elements, or all of them when there are fewer. */
  function TakeLast<T>(s: seq<T>, n: nat): (r: seq<T>)
    ensures |r| == Min(n, |s|)
    ensures forall i :: 0 <= i < |r| ==> r[i] == s[|s| - |r| + i]
  {
    if n < |s| then s[|s| - n..] else s
  }

  predicate SortedDesc<T>(s: seq<T>, key: T -> int)
  {
    forall i, j :: 0 <= i < j < |s| ==> key(s[i]) >= key(s[j])
  }

  /** Inserts `x` after every element whose key is at least `key(x)`. */
  function InsertDesc<T>(t: seq<T>, x: T, key: T -> int): (r: seq<T>)
  {
    if t == [] then [x]
    else if key(t[0]) < key(x) then [x] + t
    else [t[0]] + InsertDesc(t[1..], x, key)
  }

  /** `xs.sort((a, b) => key(b) - key(a))`: JavaScript's sort is stable, so the result is
      the one stable descending order. Defined as insertion sort in input order. */
  function SortDesc<T>(s: seq<T>, key: T -> int): seq<T>
  {
    if s == [] then [] else InsertDesc(SortDesc(s[..|s| - 1], key), s[|s| - 1], key)
  }

  /** The elements of `s` whose key is exactly `k`, in order. */
  function WithKey<T>(s: seq<T>, key: T -> int, k: int): seq<T>
  {
    if s == [] then [] else (if key(s[0]) == k then [s[0]] else []) + WithKey(s[1..], key, k)
  }

  lemma {:induction false} WithKeyAppend<T>(a: seq<T>, b: seq<T>, key: T -> int, k: int)
    ensures WithKey(a + b, key, k) == WithKey(a, key, k) + WithKey(b, key, k)
  {
    if a == [] {
      assert a + b == b;
    } else {
      assert (a + b)[0] == a[0];
      assert (a + b)[1..] == a[1..] + b;
      WithKeyAppend(a[1..], b, key, k);
      var h := if key(a[0]) == k then [a[0]] else [];
      assert WithKey(a + b, key, k) == h + WithKey(a[1..] + b, key, k);
      assert WithKey(a, key, k) == h + WithKey(a[1..], key, k);
    }
  }

  lemma {:induction false} InsertDescMultiset<T>(t: seq<T>, x: T, key: T -> int)
    ensures multiset(InsertDesc(t, x, key)) == multiset(t) + multiset{x}
  {
    if t != [] && key(t[0]) >= key(x) {
      InsertDescMultiset(t[1..], x, key);
      assert t == [t[0]] + t[1..];
    }
  }

  lemma {:induction false} InsertDescSorted<T>(t: seq<T>, x: T, key: T -> int)
    requires SortedDesc(t, key)
    ensures SortedDesc(InsertDesc(t, x, key), key)
  {
    if t == [] {
    } else if key(t[0]) < key(x) {
      SortedCons(x, t, key);
    } else {
      SortedTail(t, key);
      InsertDescSorted(t[1..], x, key);
      assert forall i :: 0 <= i < |t[1..]| ==> key(t[1..][i]) <= key(t[0]) by {
        forall i | 0 <= i < |t[1..]| ensures key(t[1..][i]) <= key(t[0]) {
          assert t[1..][i] == t[i + 1];
        }
      }
      InsertDescBounded(t[1..], x, key, key(t[0]));
      SortedCons(t[0], InsertDesc(t[1..], x, key), key);
    }
  }

  /** Inserting keeps every key under a bound that the sequence and `x` are both under. */
  lemma {:induction false} InsertDescBounded<T>(t: seq<T>, x: T, key: T -> int, b: int)
    requires forall i :: 0 <= i < |t| ==> key(t[i]) <= b
    requires key(x) <= b
    ensures forall i :: 0 <= i < |InsertDesc(t, x, key)| ==> key(InsertDesc(t, x, key)[i]) <= b
  {
    if t != [] && key(t[0]) >= key(x) {
      assert forall i :: 0 <= i < |t[1..]| ==> key(t[1..][i]) <= b by {
        forall i | 0 <= i < |t[1..]| ensures key(t[1..][i]) <= b {
          assert t[1..][i] == t[i + 1];
        }
      }
      InsertDescBounded(t[1..], x, key, b);
      var rest := InsertDesc(t[1..], x, key);
      var r := [t[0]] + rest;
      assert InsertDesc(t, x, key) == r;
      forall i | 0 <= i < |r| ensures key(r[i]) <= b {
        if i > 0 {
          assert r[i] == rest[i - 1];
        }
      }
    }
  }

  /** A head no smaller than every key of a sorted tail keeps the sequence sorted. */
  lemma SortedCons<T>(h: T, t: seq<T>, key: T -> int)
    requires SortedDesc(t, key)
    requires forall i :: 0 <= i < |t| ==> key(t[i]) <= key(h)
    ensures SortedDesc([h] + t, key)
  {
    var r := [h] + t;
    forall i, j | 0 <= i < j < |r| ensures key(r[i]) >= key(r[j]) {
      assert r[j] == t[j - 1];
      if i > 0 {
        assert r[i] == t[i - 1];
      }
    }
  }

  lemma {:induction false} InsertDescWithKey<T>(t: seq<T>, x: T, key: T -> int, k: int)
    requires SortedDesc(t, key)
    ensures WithKey(InsertDesc(t, x, key), key, k) ==
            WithKey(t, key, k) + (if key(x) == k then [x] else [])
  {
    if t == [] {
      assert WithKey([x], key, k) == (if key(x) == k then [x] else []);
    } else if key(t[0]) < key(x) {
      InsertFrontWithKey(t, x, key, k);
    } else {
      SortedTail(t, key);
      InsertDescWithKey(t[1..], x, key, k);
      InsertBehindWithKey(t, x, key, k);
    }
  }

  /** `x` goes in front of a sorted `t` whose keys are all below its own. */
  lemma InsertFrontWithKey<T>(t: seq<T>, x: T, key: T -> int, k: int)
    requires SortedDesc(t, key) && t != [] && key(t[0]) < key(x)
    ensures WithKey(InsertDesc(t, x, key), key, k) == WithKey(t, key, k) + (if key(x) == k then [x] else [])
  {
    assert InsertDesc(t, x, key) == [x] + t;
    WithKeyAppend([x], t, key, k);
    assert WithKey([x], key, k) == (if key(x) == k then [x] else []);
    if key(x) == k {
      WithKeyNone(t, key, k);
    }
  }

  /** `x` goes behind the head of `t`: the head's contribution comes first on both sides. */
  lemma InsertBehindWithKey<T>(t: seq<T>, x: T, key: T -> int, k: int)
    requires t != [] && key(t[0]) >= key(x)
    requires WithKey(InsertDesc(t[1..], x, key), key, k) == WithKey(t[1..], key, k) + (if key(x) == k then [x] else [])
    ensures WithKey(InsertDesc(t, x, key), key, k) == WithKey(t, key, k) + (if key(x) == k then [x] else [])
  {
    var rest := InsertDesc(t[1..], x, key);
    assert InsertDesc(t, x, key) == [t[0]] + rest;
    assert t == [t[0]] + t[1..];
    WithKeyAppend([t[0]], rest, key, k);
    WithKeyAppend([t[0]], t[1..], key, k);
  }

  lemma SortedTail<T>(t: seq<T>, key: T -> int)
    requires t != [] && SortedDesc(t, key)
    ensures SortedDesc(t[1..], key)
  {
    forall i, j | 0 <= i < j < |t[1..]| ensures key(t[1..][i]) >= key(t[1..][j]) {
      assert t[1..][i] == t[i + 1] && t[1..][j] == t[j + 1];
    }
  }

  /** A sorted sequence whose first key is below `k` holds no element with key `k`. */
  lemma WithKeyNone<T>(t: seq<T>, key: T -> int, k: int)
    requires SortedDesc(t, key)
    requires t != [] && key(t[0]) < k
    ensures WithKey(t, key, k) == []
  {
    WithKeyNoneAt(t, key, k, 0);
  }

  lemma {:induction false} WithKeyNoneAt<T>(t: seq<T>, key: T -> int, k: int, i: nat)
    requires SortedDesc(t, key)
    requires i <= |t| && |t| > 0 && key(t[0]) < k
    ensures WithKey(t[i..], key, k) == []
    decreases |t| - i
  {
    if i < |t| {
      WithKeyNoneAt(t, key, k, i + 1);
      assert t[i..][1..] == t[i + 1..];
    }
  }

  /** The stable descending sort rearranges its input. */
  lemma {:induction false} SortDescMultiset<T>(s: seq<T>, key: T -> int)
    ensures multiset(SortDesc(s, key)) == multiset(s)
  {
    if s != [] {
      var init, last := s[..|s| - 1], s[|s| - 1];
      assert s == init + [last];
      SortDescMultiset(init, key);
      InsertDescMultiset(SortDesc(init, key), last, key);
    }
  }

  /** The stable descending sort is sorted, a permutation of its input, and keeps the input
      order among elements with equal keys. */
  lemma {:induction false} SortDescFacts<T>(s: seq<T>, key: T -> int)
    ensures SortedDesc(SortDesc(s, key), key)
    ensures multiset(SortDesc(s, key)) == multiset(s)
    ensures |SortDesc(s, key)| == |s|
    ensures forall k :: WithKey(SortDesc(s, key), key, k) == WithKey(s, key, k)
  {
    if s != [] {
      var init, last := s[..|s| - 1], s[|s| - 1];
      assert s == init + [last];
      SortDescFacts(init, key);
      InsertDescSorted(SortDesc(init, key), last, key);
      InsertDescMultiset(SortDesc(init, key), last, key);
      forall k ensures WithKey(SortDesc(s, key), key, k) == WithKey(s, key, k) {
        InsertDescWithKey(SortDesc(init, key), last, key, k);
        WithKeyAppend(init, [last], key, k);
      }
    }
  }

  lemma SortDescSorted<T>(s: seq<T>, key: T -> int)
    ensures SortedDesc(SortDesc(s, key), key)
  {
    SortDescFacts(s, key);
  }

  /** When every element has the same key, sorting changes nothing: ties keep input order. */
  lemma SortDescAllEqual<T>(s: seq<T>, key: T -> int, k: int)
    requires forall i :: 0 <= i < |s| ==> key(s[i]) == k
    ensures SortDesc(s, key) == s
  {
    SortDescFacts(s, key);
    WithKeyAll(s, key, k);
    var r := SortDesc(s, key);
    forall i | 0 <= i < |r| ensures key(r[i]) == k {
      assert r[i] in multiset(s);
    }
    WithKeyAll(r, key, k);
  }

  lemma {:induction false} WithKeyAll<T>(s: seq<T>, key: T -> int, k: int)
    requires forall i :: 0 <= i < |s| ==> key(s[i]) == k
    ensures WithKey(s, key, k) == s
  {
    if s != [] {
      WithKeyAll(s[1..], key, k);
    }
  }
}
