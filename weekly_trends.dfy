/** The reports page's weekly trends: records grouped by the Sunday that starts their week,
    keyed by that Sunday's ISO date text, counted per severity, sorted by date and cut to the
    last eight weeks. */
module WeeklyTrends {

  import opened Wrappers
  import opened Seqs
  import opened JsObject
  import opened Records
  import opened SeverityCounts
  import opened Calendar

  /** The day number of the Sunday starting the record's week (UTC). */
  function WeekOf(x: Symptom): (sunday: int)
    ensures DayOfWeek(sunday) == 0
    ensures sunday <= DayNumber(x.date) < sunday + 7
  {
    WeekStart(DayNumber(x.date))
  }

  /** `weekStart.toISOString().split('T')[0]`. */
  function WeekKey(x: Symptom): string
  {
    IsoDate(WeekOf(x))
  }

  /** The group key of each record, in order. */
  function KeysOf(s: seq<Symptom>, key: Symptom -> string): (r: seq<string>)
    ensures |r| == |s|
    ensures forall i :: 0 <= i < |s| ==> r[i] == key(s[i])
  {
    if s == [] then [] else KeysOf(s[..|s| - 1], key) + [key(s[|s| - 1])]
  }

  /** One week's object: the four known severities, and the other severities counted in it.
      `undefined++` leaves NaN under such a severity, so only the set of them matters. */
  datatype WeekCounts = WeekCounts(mild: nat, moderate: nat, severe: nat, emergency: nat, unknown: set<string>)

  /** `{ mild: 0, moderate: 0, severe: 0, emergency: 0 }` */
  const NoCounts := WeekCounts(0, 0, 0, 0, {})

  /** `weeklyData[weekKey][symptom.severity]++` */
  function Bump(b: WeekCounts, severity: string): WeekCounts
  {
    if severity == "mild" then b.(mild := b.mild + 1)
    else if severity == "moderate" then b.(moderate := b.moderate + 1)
    else if severity == "severe" then b.(severe := b.severe + 1)
    else if severity == "emergency" then b.(emergency := b.emergency + 1)
    else b.(unknown := b.unknown + {severity})
  }

  /** The bar total `Object.values(data).reduce((a, b) => a + b, 0)`; `None` stands for NaN,
      which any unknown severity makes it. */
  function WeekTotal(b: WeekCounts): Option<nat>
  {
    if b.unknown == {} then Some(b.mild + b.moderate + b.severe + b.emergency) else None
  }

  /** One week's object after counting `recs` into it: each known count is the number of records
      with that severity, the unknown set holds exactly the other severities, and a week with a
      record never has total 0. */
  function CountsOf(recs: seq<Symptom>): (b: WeekCounts)
    ensures forall s :: s in Known ==> Count(b, s) == multiset(Severities(recs))[s]
    ensures forall s :: s in b.unknown <==> s in Severities(recs) && s !in Known
    ensures recs != [] ==> WeekTotal(b) != Some(0)
  {
    if recs == [] then NoCounts
    else
      var p, x := recs[..|recs| - 1], recs[|recs| - 1];
      var b := CountsOf(p);
      SeveritiesSnoc(p, x);
      SnocSplit(recs);
      assert multiset(Severities(recs)) == multiset(Severities(p)) + multiset{x.severity};
      BumpFacts(b, x.severity);
      Bump(b, x.severity)
  }

  /** The count a week object holds for a known severity. */
  function Count(b: WeekCounts, severity: string): nat
  {
    if severity == "mild" then b.mild
    else if severity == "moderate" then b.moderate
    else if severity == "severe" then b.severe
    else b.emergency
  }

  lemma BumpFacts(b: WeekCounts, severity: string)
    ensures forall s :: s in Known ==> Count(Bump(b, severity), s) == Count(b, s) + (if s == severity then 1 else 0)
    ensures Bump(b, severity).unknown == b.unknown + (if severity in Known then {} else {severity})
    ensures WeekTotal(Bump(b, severity)) != Some(0)
  {
  }

  /** The records whose week key is `k`, in order. */
  function InWeek(recs: seq<Symptom>, key: Symptom -> string, k: string): (r: seq<Symptom>)
    ensures forall x :: x in r <==> x in recs && key(x) == k
    ensures r == [] <==> forall i :: 0 <= i < |recs| ==> key(recs[i]) != k
  {
    if recs == [] then []
    else InWeek(recs[..|recs| - 1], key, k) + (if key(recs[|recs| - 1]) == k then [recs[|recs| - 1]] else [])
  }

  /** Adding one record to the week objects: its week's counts are bumped, or a new week is
      appended with only that record counted. */
  function AddToWeek(d: Dict<WeekCounts>, k: string, severity: string): (r: Dict<WeekCounts>)
    ensures Keys(r) == if k in Keys(d) then Keys(d) else Keys(d) + [k]
    ensures |r| == |d| + (if k in Keys(d) then 0 else 1)
  {
    if d == [] then [(k, Bump(NoCounts, severity))]
    else if d[0].0 == k then [(k, Bump(d[0].1, severity))] + d[1..]
    else [d[0]] + AddToWeek(d[1..], k, severity)
  }

  lemma {:induction false} AddToWeekValues(d: Dict<WeekCounts>, k: string, severity: string)
    requires DistinctKeys(d)
    ensures forall i :: 0 <= i < |d| ==>
              AddToWeek(d, k, severity)[i].1 == if d[i].0 == k then Bump(d[i].1, severity) else d[i].1
    ensures k !in Keys(d) ==> AddToWeek(d, k, severity)[|d|] == (k, Bump(NoCounts, severity))
  {
    if d == [] {
    } else if d[0].0 == k {
      AddToWeekHit(d, k, severity);
    } else {
      DistinctKeysTail(d);
      AddToWeekValues(d[1..], k, severity);
      AddToWeekMiss(d, k, severity);
    }
  }

  /** The first week is the record's: it is bumped, and the later ones are other weeks. */
  lemma {:induction false} AddToWeekHit(d: Dict<WeekCounts>, k: string, severity: string)
    requires DistinctKeys(d) && d != [] && d[0].0 == k
    ensures forall i :: 0 <= i < |d| ==>
              AddToWeek(d, k, severity)[i].1 == if d[i].0 == k then Bump(d[i].1, severity) else d[i].1
  {
    var r := AddToWeek(d, k, severity);
    assert r == [(k, Bump(d[0].1, severity))] + d[1..];
    forall i | 0 <= i < |d|
      ensures r[i].1 == if d[i].0 == k then Bump(d[i].1, severity) else d[i].1
    {
      if i > 0 {
        assert r[i] == d[1..][i - 1] == d[i];
        assert d[0].0 != d[i].0;
      }
    }
  }

  /** The first week is another one: it stays, and the record is added to the rest. */
  lemma {:induction false} AddToWeekMiss(d: Dict<WeekCounts>, k: string, severity: string)
    requires d != [] && d[0].0 != k
    requires forall i :: 0 <= i < |d[1..]| ==>
               AddToWeek(d[1..], k, severity)[i].1 == if d[1..][i].0 == k then Bump(d[1..][i].1, severity) else d[1..][i].1
    requires k !in Keys(d[1..]) ==> AddToWeek(d[1..], k, severity)[|d[1..]|] == (k, Bump(NoCounts, severity))
    ensures forall i :: 0 <= i < |d| ==>
              AddToWeek(d, k, severity)[i].1 == if d[i].0 == k then Bump(d[i].1, severity) else d[i].1
    ensures k !in Keys(d) ==> AddToWeek(d, k, severity)[|d|] == (k, Bump(NoCounts, severity))
  {
    var t := AddToWeek(d[1..], k, severity);
    var r := AddToWeek(d, k, severity);
    assert r == [d[0]] + t;
    forall i | 0 <= i < |d|
      ensures r[i].1 == if d[i].0 == k then Bump(d[i].1, severity) else d[i].1
    {
      if i > 0 {
        assert r[i] == t[i - 1] && d[i] == d[1..][i - 1];
      }
    }
    if k !in Keys(d) {
      assert Keys(d) == [d[0].0] + Keys(d[1..]);
      assert k !in Keys(d[1..]);
      assert r[|d|] == t[|d[1..]|];
    }
  }

  /** `weeklyData` after the `forEach` over `recs`. */
  function Buckets(recs: seq<Symptom>, key: Symptom -> string): Dict<WeekCounts>
  {
    if recs == [] then []
    else
      var x := recs[|recs| - 1];
      AddToWeek(Buckets(recs[..|recs| - 1], key), key(x), x.severity)
  }

  /** `weeklyData` holds one entry per week with records, in first-seen order, with the counts of
      exactly that week's records. */
  lemma {:induction false} BucketsFacts(recs: seq<Symptom>, key: Symptom -> string)
    ensures Keys(Buckets(recs, key)) == AddKeys([], KeysOf(recs, key))
    ensures DistinctKeys(Buckets(recs, key))
    ensures forall i :: 0 <= i < |Buckets(recs, key)| ==>
              InWeek(recs, key, Buckets(recs, key)[i].0) != []
              && Buckets(recs, key)[i].1 == CountsOf(InWeek(recs, key, Buckets(recs, key)[i].0))
  {
    if recs != [] {
      var p, x := recs[..|recs| - 1], recs[|recs| - 1];
      var k := key(x);
      SnocSplit(recs);
      BucketsFacts(p, key);
      var t := Buckets(p, key);
      var r := Buckets(recs, key);
      assert KeysOf(recs, key) == KeysOf(p, key) + [k];
      AddKeysFacts([], KeysOf(recs, key));
      AddToWeekValues(t, k, x.severity);
      forall i | 0 <= i < |r|
        ensures InWeek(recs, key, r[i].0) != [] && r[i].1 == CountsOf(InWeek(recs, key, r[i].0))
      {
        BucketStep(p, x, key, t, r, i);
      }
    }
  }

  lemma {:induction false} BucketStep(p: seq<Symptom>, x: Symptom, key: Symptom -> string, t: Dict<WeekCounts>, r: Dict<WeekCounts>, i: nat)
    requires r == AddToWeek(t, key(x), x.severity)
    requires Keys(t) == AddKeys([], KeysOf(p, key)) && DistinctKeys(t)
    requires forall i :: 0 <= i < |t| ==>
               InWeek(p, key, t[i].0) != [] && t[i].1 == CountsOf(InWeek(p, key, t[i].0))
    requires i < |r|
    ensures InWeek(p + [x], key, r[i].0) != [] && r[i].1 == CountsOf(InWeek(p + [x], key, r[i].0))
  {
    if i < |t| {
      OldWeek(p, x, key, t, r, i);
    } else {
      assert key(x) !in Keys(t) && i == |t|;
      AddedWeek(p, x, key, t, r);
    }
  }

  /** The week `x` opens is appended last and counts `x` alone. */
  lemma AddedWeek(p: seq<Symptom>, x: Symptom, key: Symptom -> string, t: Dict<WeekCounts>, r: Dict<WeekCounts>)
    requires r == AddToWeek(t, key(x), x.severity)
    requires Keys(t) == AddKeys([], KeysOf(p, key)) && DistinctKeys(t)
    requires key(x) !in Keys(t)
    ensures |r| == |t| + 1
    ensures InWeek(p + [x], key, r[|t|].0) != [] && r[|t|].1 == CountsOf(InWeek(p + [x], key, r[|t|].0))
  {
    AddToWeekValues(t, key(x), x.severity);
    assert r[|t|] == (key(x), Bump(NoCounts, x.severity));
    NewWeek(p, x, key, t);
    InWeekSnoc(p, x, key, key(x));
    assert InWeek(p + [x], key, key(x)) == [] + [x] == [x];
  }

  lemma OldWeek(p: seq<Symptom>, x: Symptom, key: Symptom -> string, t: Dict<WeekCounts>, r: Dict<WeekCounts>, i: nat)
    requires r == AddToWeek(t, key(x), x.severity) && DistinctKeys(t)
    requires i < |t| && InWeek(p, key, t[i].0) != [] && t[i].1 == CountsOf(InWeek(p, key, t[i].0))
    ensures r[i].0 == t[i].0
    ensures InWeek(p + [x], key, t[i].0) != [] && r[i].1 == CountsOf(InWeek(p + [x], key, t[i].0))
  {
    var k := key(x);
    AddToWeekValues(t, k, x.severity);
    InWeekSnoc(p, x, key, t[i].0);
    assert Keys(r)[i] == Keys(t)[i];
    var w, w' := InWeek(p, key, t[i].0), InWeek(p + [x], key, t[i].0);
    if t[i].0 == k {
      assert w' == w + [x];
      BumpCounts(w, x);
      assert r[i].1 == Bump(t[i].1, x.severity);
    } else {
      assert w' == w;
      assert r[i].1 == t[i].1;
    }
  }

  lemma InWeekSnoc(p: seq<Symptom>, x: Symptom, key: Symptom -> string, k: string)
    ensures InWeek(p + [x], key, k) == InWeek(p, key, k) + (if key(x) == k then [x] else [])
  {
    SnocParts(p, x);
  }

  /** A week first seen at `x` holds only `x`. */
  lemma NewWeek(p: seq<Symptom>, x: Symptom, key: Symptom -> string, t: Dict<WeekCounts>)
    requires Keys(t) == AddKeys([], KeysOf(p, key))
    requires key(x) !in Keys(t)
    ensures InWeek(p, key, key(x)) == []
    ensures CountsOf([x]) == Bump(NoCounts, x.severity)
  {
    var k := key(x);
    AddKeysFacts([], KeysOf(p, key));
    forall j | 0 <= j < |p| ensures key(p[j]) != k {
      assert KeysOf(p, key)[j] == key(p[j]);
    }
    BumpCounts([], x);
    assert [] + [x] == [x];
  }

  lemma BumpCounts(recs: seq<Symptom>, x: Symptom)
    ensures CountsOf(recs + [x]) == Bump(CountsOf(recs), x.severity)
  {
    SnocParts(recs, x);
  }

  // ---------------------------------------------------------------- ordering and the last eight

  /** `new Date(key)` as a day number; keys here are always ISO dates. */
  function KeyDay(e: (string, WeekCounts)): int
  {
    match ParseIsoDate(e.0)
    case Some(d) => d
    case None => 0
  }

  /** Sort key for `sort((a, b) => new Date(a[0]) - new Date(b[0]))` under `SortDesc`. */
  function Earliest(e: (string, WeekCounts)): int { -KeyDay(e) }

  /** `Object.entries(weeklyData).sort(...).slice(-8)`. */
  function Trends(window: seq<Symptom>): Dict<WeekCounts>
  {
    TakeLast(SortDesc(OwnEntries(Buckets(window, WeekKey)), Earliest), 8)
  }

  /** ISO date keys contain a '-', so they are never array indices. */
  lemma IsoDateNotIndex(day: int)
    ensures !IsArrayIndex(IsoDate(day))
  {
    var c := CivilFromDays(day);
    var yt := YearText(c.year);
    var s := IsoDate(day);
    assert s == yt + "-" + Digits(c.month, 2) + "-" + Digits(c.day, 2);
    assert s[|yt|] == '-';
  }

  /** Each entry of the week objects is keyed by the ISO text of a Sunday with records. */
  lemma BucketKeys(window: seq<Symptom>, e: (string, WeekCounts))
    requires e in Buckets(window, WeekKey)
    ensures exists x :: x in window && e.0 == WeekKey(x)
    ensures DayOfWeek(KeyDay(e)) == 0 && e.0 == IsoDate(KeyDay(e))
    ensures InWeek(window, WeekKey, e.0) != [] && e.1 == CountsOf(InWeek(window, WeekKey, e.0))
    ensures !IsArrayIndex(e.0)
  {
    BucketsFacts(window, WeekKey);
    var b := Buckets(window, WeekKey);
    var i :| 0 <= i < |b| && b[i] == e;
    var y := InWeek(window, WeekKey, e.0)[0];
    assert y in InWeek(window, WeekKey, e.0);
    IsoDateRoundTrip(WeekOf(y));
    IsoDateNotIndex(WeekOf(y));
  }

  /** A week entry as the page shows it: a Sunday's ISO date with records, counted exactly. */
  ghost predicate IsWeekOf(window: seq<Symptom>, e: (string, WeekCounts))
  {
    InWeek(window, WeekKey, e.0) != [] && e.1 == CountsOf(InWeek(window, WeekKey, e.0))
    && DayOfWeek(KeyDay(e)) == 0 && e.0 == IsoDate(KeyDay(e))
  }

  /** Every week entry is well formed, and `Object.entries` keeps the first-seen order. */
  lemma WeekEntries(window: seq<Symptom>)
    ensures OwnEntries(Buckets(window, WeekKey)) == Buckets(window, WeekKey)
    ensures forall e :: e in Buckets(window, WeekKey) ==> IsWeekOf(window, e)
  {
    var b := Buckets(window, WeekKey);
    BucketsFacts(window, WeekKey);
    forall i | 0 <= i < |b| ensures !IsArrayIndex(b[i].0) {
      assert b[i] in b;
      BucketKeys(window, b[i]);
    }
    OwnEntriesInsertionOrder(b);
    forall e | e in b ensures IsWeekOf(window, e) {
      WeekEntry(window, e);
    }
  }

  /** One entry of the week objects is a Sunday's ISO date with records, counted exactly. */
  lemma WeekEntry(window: seq<Symptom>, e: (string, WeekCounts))
    requires e in Buckets(window, WeekKey)
    ensures IsWeekOf(window, e)
  {
    BucketKeys(window, e);
  }

  /** Sorting entries keyed by distinct day names by date: the same entries, strictly ascending
      by day. */
  lemma SortedByDay<V>(b: seq<(string, V)>, key: ((string, V)) -> int, day: ((string, V)) -> int, name: int -> string)
    requires DistinctKeys(b)
    requires forall e :: key(e) == -day(e)
    requires forall e :: e in b ==> e.0 == name(day(e))
    ensures var sorted := SortDesc(b, key);
      && multiset(sorted) == multiset(b) && |sorted| == |b|
      && (forall i, j :: 0 <= i < j < |sorted| ==> day(sorted[i]) < day(sorted[j]))
  {
    SortDescMultiset(b, key);
    SortDescSorted(b, key);
    var sorted := SortDesc(b, key);
    assert |sorted| == |multiset(sorted)| == |b|;
    DistinctKeysPermutation(b, sorted);
    forall i | 0 <= i < |sorted| ensures sorted[i].0 == name(day(sorted[i])) {
      assert sorted[i] in multiset(b);
    }
    Ascending(sorted, key, day);
    SortedStrictly(sorted, day, name);
  }

  lemma Ascending<T>(s: seq<T>, key: T -> int, day: T -> int)
    requires SortedDesc(s, key)
    requires forall e :: key(e) == -day(e)
    ensures forall i, j :: 0 <= i < j < |s| ==> day(s[i]) <= day(s[j])
  {
    forall i, j | 0 <= i < j < |s| ensures day(s[i]) <= day(s[j]) {
      assert key(s[i]) >= key(s[j]);
    }
  }

  /** The last `n` elements of a strictly ascending sequence are strictly ascending, and
      everything left out comes before the first kept, which happens only when `n` are kept. */
  lemma LastAscending<T>(s: seq<T>, day: T -> int, n: nat)
    requires n > 0
    requires forall i, j :: 0 <= i < j < |s| ==> day(s[i]) < day(s[j])
    ensures var r := TakeLast(s, n);
      && (forall i :: 0 <= i < |r| ==> r[i] in s)
      && (forall i, j :: 0 <= i < j < |r| ==> day(r[i]) < day(r[j]))
      && (forall e :: e in s && e !in r ==> |r| == n && day(e) < day(r[0]))
  {
    if n < |s| {
      var k := |s| - n;
      var r := s[k..];
      assert TakeLast(s, n) == r;
      forall i | 0 <= i < |r| ensures r[i] in s && r[i] == s[k + i] {
      }
      forall p | k <= p < |s| ensures s[p] in r {
        assert r[p - k] == s[p];
      }
      forall e | e in s && e !in r ensures day(e) < day(r[0]) {
        var p :| 0 <= p < |s| && s[p] == e;
        assert p < k;
      }
    }
  }

  /** The result of `getWeeklyTrends`: at most eight weeks, one per Sunday with records, with
      strictly increasing dates, each with the exact counts of its week; a week with records that
      is missing is earlier than every week shown. */
  lemma TrendsFacts(window: seq<Symptom>)
    ensures var r := Trends(window);
      && |r| == Min(8, |AddKeys([], KeysOf(window, WeekKey))|)
      && (forall i :: 0 <= i < |r| ==> IsWeekOf(window, r[i]))
      && (forall i, j :: 0 <= i < j < |r| ==> KeyDay(r[i]) < KeyDay(r[j]))
      && (forall x :: x in window && WeekKey(x) !in Keys(r) ==> |r| == 8 && WeekOf(x) < KeyDay(r[0]))
  {
    var b := Buckets(window, WeekKey);
    BucketsFacts(window, WeekKey);
    WeekEntries(window);
    SortedByDay(b, Earliest, KeyDay, IsoDate);
    var sorted := SortDesc(b, Earliest);
    LastAscending(sorted, KeyDay, 8);
    var r := Trends(window);
    assert r == TakeLast(sorted, 8);
    assert |sorted| == |b| == |AddKeys([], KeysOf(window, WeekKey))|;
    TrendsShown(window, b, sorted, r);
    MissingWeeks(window, b, sorted, r);
  }

  /** Every week kept from the sorted entries is one of the well-formed week entries. */
  lemma TrendsShown(window: seq<Symptom>, b: Dict<WeekCounts>, sorted: Dict<WeekCounts>, r: Dict<WeekCounts>)
    requires forall e :: e in b ==> IsWeekOf(window, e)
    requires multiset(sorted) == multiset(b)
    requires forall i :: 0 <= i < |r| ==> r[i] in sorted
    ensures forall i :: 0 <= i < |r| ==> IsWeekOf(window, r[i])
  {
    forall i | 0 <= i < |r| ensures IsWeekOf(window, r[i]) {
      assert r[i] in multiset(sorted);
    }
  }

  /** Every week with records whose key is not among the last eight lies before them all. */
  lemma MissingWeeks(window: seq<Symptom>, b: Dict<WeekCounts>, sorted: Dict<WeekCounts>, r: Dict<WeekCounts>)
    requires multiset(sorted) == multiset(b)
    requires Keys(b) == AddKeys([], KeysOf(window, WeekKey))
    requires forall e :: e in sorted && e !in r ==> |r| == 8 && KeyDay(e) < KeyDay(r[0])
    ensures forall x :: x in window && WeekKey(x) !in Keys(r) ==> |r| == 8 && WeekOf(x) < KeyDay(r[0])
  {
    forall x | x in window && WeekKey(x) !in Keys(r) ensures |r| == 8 && WeekOf(x) < KeyDay(r[0]) {
      MissingWeek(window, x, b, sorted, r);
    }
  }

  /** A week with records whose key is not among the last eight lies before them all. */
  lemma MissingWeek(window: seq<Symptom>, x: Symptom, b: Dict<WeekCounts>, sorted: Dict<WeekCounts>, r: Dict<WeekCounts>)
    requires multiset(sorted) == multiset(b)
    requires Keys(b) == AddKeys([], KeysOf(window, WeekKey))
    requires forall e :: e in sorted && e !in r ==> |r| == 8 && KeyDay(e) < KeyDay(r[0])
    requires x in window && WeekKey(x) !in Keys(r)
    ensures |r| == 8 && WeekOf(x) < KeyDay(r[0])
  {
    var w :| 0 <= w < |window| && window[w] == x;
    assert KeysOf(window, WeekKey)[w] == WeekKey(x);
    AddKeysFacts([], KeysOf(window, WeekKey));
    var j :| 0 <= j < |b| && Keys(b)[j] == WeekKey(x);
    var e := b[j];
    assert e in multiset(sorted);
    IsoDateRoundTrip(WeekOf(x));
    assert KeyDay(e) == WeekOf(x);
    assert e !in r by {
      forall i | 0 <= i < |r| ensures r[i] != e {
        assert Keys(r)[i] == r[i].0;
      }
    }
  }

  /** Entries sorted ascending by a day, whose keys are distinct and determined by the day, are
      strictly ascending. */
  lemma SortedStrictly<V>(s: seq<(string, V)>, day: ((string, V)) -> int, name: int -> string)
    requires forall i, j :: 0 <= i < j < |s| ==> day(s[i]) <= day(s[j])
    requires DistinctKeys(s)
    requires forall i :: 0 <= i < |s| ==> s[i].0 == name(day(s[i]))
    ensures forall i, j :: 0 <= i < j < |s| ==> day(s[i]) < day(s[j])
  {
  }

  /** `getWeeklyTrends` over the window the page has filtered. */
  method WeeklyTrendsOf(window: seq<Symptom>) returns (trends: Dict<WeekCounts>)
    ensures trends == Trends(window)
    ensures |trends| == Min(8, |AddKeys([], KeysOf(window, WeekKey))|)
    ensures forall i :: 0 <= i < |trends| ==> IsWeekOf(window, trends[i])
    ensures forall i :: 0 <= i < |trends| ==> WeekTotal(trends[i].1) != Some(0)
    ensures forall i, j :: 0 <= i < j < |trends| ==> KeyDay(trends[i]) < KeyDay(trends[j])
    ensures forall x :: x in window && WeekKey(x) !in Keys(trends) ==>
              |trends| == 8 && WeekOf(x) < KeyDay(trends[0])
  {
    var weeklyData: Dict<WeekCounts> := [];
    var i := 0;
    while i < |window|
      invariant 0 <= i <= |window|
      invariant weeklyData == Buckets(window[..i], WeekKey)
    {
      PrefixSnoc(window, i);
      weeklyData := AddToWeek(weeklyData, WeekKey(window[i]), window[i].severity);
      i := i + 1;
    }
    PrefixAll(window);
    trends := TakeLast(SortDesc(OwnEntries(weeklyData), Earliest), 8);
    TrendsFacts(window);
  }

}
