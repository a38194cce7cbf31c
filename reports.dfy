/** The reports page: the time-range filter and the statistics computed from it (severity
    counts and shares, the ranking of the most frequent symptoms, the unique-symptom count,
    the recent log), and the page state filled in by its data fetch. */
module Reports {

  import opened Wrappers
  import opened Seqs
  import opened JsObject
  import opened Records
  import opened SeverityCounts
  import Calendar

  /** The options of the time-range selector. */
  datatype TimeRange = Next5Days | Last7Days | Last30Days | Last3Months | LastYear
  {
    /** The option's `value` text. */
    function Value(): string
    {
      match this
      case Next5Days => "-5"
      case Last7Days => "7"
      case Last30Days => "30"
      case Last3Months => "90"
      case LastYear => "365"
    }

    /** `parseInt(timeRange)`. */
    function Days(): (d: int)
      ensures d != 0
      ensures d < 0 <==> this == Next5Days
    {
      match this
      case Next5Days => -5
      case Last7Days => 7
      case Last30Days => 30
      case Last3Months => 90
      case LastYear => 365
    }
  }

  /** `parseInt` of an optionally signed decimal text. */
  function ParseInt(s: string): Option<int>
  {
    if |s| >= 2 && s[0] == '-' && Calendar.AllDigits(s[1..]) then
      var v: int := Calendar.DigitsValue(s[1..]);
      Some(-v)
    else if |s| >= 1 && Calendar.AllDigits(s) then Some(Calendar.DigitsValue(s))
    else None
  }

  /** The day count the page divides and filters by is the option's own number. */
  lemma ParseIntOfValue(r: TimeRange)
    ensures ParseInt(r.Value()) == Some(r.Days())
  {
    match r
    case Next5Days => assert r.Value()[1..] == "5";
    case Last7Days => assert "7"[..0] == "";
    case Last30Days =>
      assert "30"[..1] == "3" && "3"[..0] == "";
      assert Calendar.DigitsValue("3") == 3;
    case Last3Months =>
      assert "90"[..1] == "9" && "9"[..0] == "";
      assert Calendar.DigitsValue("9") == 9;
    case LastYear =>
      assert "365"[..2] == "36" && "36"[..1] == "3" && "3"[..0] == "";
      assert Calendar.DigitsValue("36") == 36;
  }

  /** `cutoffDate.setDate(cutoffDate.getDate() - days)`, in UTC where every day has 86400000 ms. */
  function Cutoff(now: int, days: int): int
  {
    now - days * Calendar.MsPerDay
  }

  /** `getFilteredSymptoms`: the records dated at or after the cut-off. There is no upper bound. */
  function FilteredSymptoms(symptoms: seq<Symptom>, now: int, days: int): (r: seq<Symptom>)
    ensures |r| <= |symptoms|
    ensures forall x :: x in r <==> x in symptoms && x.date >= now - days * Calendar.MsPerDay
  {
    Filter(symptoms, (x: Symptom) => x.date >= Cutoff(now, days))
  }

  /** Filtering keeps the records' relative order. */
  lemma FilteredKeepsOrder(a: seq<Symptom>, b: seq<Symptom>, now: int, days: int)
    ensures FilteredSymptoms(a + b, now, days) == FilteredSymptoms(a, now, days) + FilteredSymptoms(b, now, days)
  {
    FilterAppend(a, b, (x: Symptom) => x.date >= Cutoff(now, days));
  }

  /** With a negative day count (the "Next 5 days" option) the cut-off lies in the future, so
      only records dated after `now` are kept. */
  lemma NegativeRangeIsFuture(symptoms: seq<Symptom>, now: int, days: int)
    requires days < 0
    ensures forall x :: x in FilteredSymptoms(symptoms, now, days) ==> x.date > now
  {
  }

  /** On a newest-first list the filter keeps a prefix: everything after it is older than the
      cut-off. */
  lemma FilteredNewestPrefix(s: seq<Symptom>, now: int, days: int)
    requires SortedDesc(s, DateOf)
    ensures exists k :: 0 <= k <= |s| && FilteredSymptoms(s, now, days) == s[..k]
              && forall i :: k <= i < |s| ==> s[i].date < Cutoff(now, days)
  {
    var k := SortedPrefixLength(s, Cutoff(now, days));
    SortedFilterPrefix(s, Cutoff(now, days), (x: Symptom) => x.date >= Cutoff(now, days));
  }

  /** How many records of a newest-first list are dated at or after `c`. */
  function SortedPrefixLength(s: seq<Symptom>, c: int): (k: nat)
    ensures k <= |s|
  {
    if s == [] || s[0].date < c then 0 else 1 + SortedPrefixLength(s[1..], c)
  }

  lemma {:induction false} SortedFilterPrefix(s: seq<Symptom>, c: int, p: Symptom -> bool)
    requires SortedDesc(s, DateOf)
    requires forall x :: p(x) == (x.date >= c)
    ensures Filter(s, p) == s[..SortedPrefixLength(s, c)]
    ensures forall i :: SortedPrefixLength(s, c) <= i < |s| ==> s[i].date < c
  {
    if s != [] {
      if s[0].date >= c {
        SortedTail(s, DateOf);
        SortedFilterPrefix(s[1..], c, p);
        var k := SortedPrefixLength(s[1..], c);
        ConsPrefix(s, k);
        forall i | k + 1 <= i < |s| ensures s[i].date < c {
          assert s[i] == s[1..][i - 1];
        }
      } else {
        forall i | 0 <= i < |s| ensures !p(s[i]) {
          assert i == 0 || DateOf(s[0]) >= DateOf(s[i]);
        }
        FilterNone(s, p);
      }
    }
  }

  /** The recent log: `filteredSymptoms.slice(0, 15)`, the first fifteen records of the window,
      or all of them when it holds fewer. */
  function RecentLog(symptoms: seq<Symptom>, now: int, days: int): (r: seq<Symptom>)
    ensures |r| == Min(15, |FilteredSymptoms(symptoms, now, days)|)
    ensures r <= FilteredSymptoms(symptoms, now, days)
  {
    Take(FilteredSymptoms(symptoms, now, days), 15)
  }

  /** After the fetch the list is newest-first, so the recent log shows the newest records of the
      window: no record of the window left out is newer than one shown. */
  lemma RecentLogIsNewest(fetched: seq<Symptom>, now: int, days: int)
    ensures var s := NewestFirst(fetched);
      forall i, j ::
        (0 <= i < |RecentLog(s, now, days)| <= j < |FilteredSymptoms(s, now, days)|) ==>
        FilteredSymptoms(s, now, days)[j].date <= RecentLog(s, now, days)[i].date
  {
    var s := NewestFirst(fetched);
    FilteredNewestPrefix(s, now, days);
    var k :| 0 <= k <= |s| && FilteredSymptoms(s, now, days) == s[..k]
             && forall i :: k <= i < |s| ==> s[i].date < Cutoff(now, days);
    var f := FilteredSymptoms(s, now, days);
    var r := RecentLog(s, now, days);
    forall i, j | 0 <= i < |r| <= j < |f| ensures f[j].date <= r[i].date {
      assert r[i] == f[i] == s[i];
      assert f[j] == s[j];
      assert DateOf(s[i]) >= DateOf(s[j]);
    }
  }

  /** The "Average per Day" card, `Math.round((count / days) * 10) / 10`, in tenths:
      the integer nearest to ten times the quotient, a half going up (towards +∞). */
  function AverageCard(count: nat, days: int): (t: int)
    requires days != 0
    ensures days > 0 ==> t * (2 * days) <= 20 * count + days < (t + 1) * (2 * days)
    ensures days < 0 ==> t * (-2 * days) <= -days - 20 * count < (t + 1) * (-2 * days)
  {
    if days > 0 then (20 * count + days) / (2 * days) else (-days - 20 * count) / (-2 * days)
  }

  // ---------------------------------------------------------------- severity statistics

  /** `getSeverityStats` of the reports page: the shared severity counter over the window. */
  method SeverityStats(symptoms: seq<Symptom>, now: int, days: int) returns (stats: Dict<nat>)
    ensures stats == Tally(ZeroStats, Severities(FilteredSymptoms(symptoms, now, days)))
    ensures |stats| >= 4 && Keys(stats)[..4] == Known
    ensures forall k :: CountOf(stats, k) == multiset(Severities(FilteredSymptoms(symptoms, now, days)))[k]
    ensures Total(stats) == |FilteredSymptoms(symptoms, now, days)|
  {
    var window := FilteredSymptoms(symptoms, now, days);
    stats := CountSeverities(window);
    forall k ensures CountOf(stats, k) == multiset(Severities(window))[k] {
      CountOfKnown(window, k);
    }
  }

  /** One bar of the severity distribution: key, count and share of the total. */
  datatype SeverityRow = SeverityRow(severity: string, count: nat, percent: real)

  function Rows(entries: Dict<nat>, total: nat): (r: seq<SeverityRow>)
    ensures |r| == |entries|
    ensures forall i :: 0 <= i < |r| ==>
              r[i].severity == entries[i].0 && r[i].count == entries[i].1
              && r[i].percent == Percentage(entries[i].1, total)
  {
    if entries == [] then []
    else [SeverityRow(entries[0].0, entries[0].1, Percentage(entries[0].1, total))] + Rows(entries[1..], total)
  }

  function SumPercent(rows: seq<SeverityRow>): real
  {
    if rows == [] then 0.0 else rows[0].percent + SumPercent(rows[1..])
  }

  /** The bars of the severity distribution, in `Object.entries` order, each with its share of
      the sum of all counts. */
  function SeverityRows(stats: Dict<nat>): (r: seq<SeverityRow>)
    ensures |r| == |stats|
    ensures Total(stats) == 0 ==> forall i :: 0 <= i < |r| ==> r[i].percent == 0.0
  {
    OwnEntriesPermutes(stats);
    assert |OwnEntries(stats)| == |multiset(OwnEntries(stats))| == |multiset(stats)| == |stats|;
    Rows(OwnEntries(stats), Total(stats))
  }

  lemma {:induction false} SumPercentOfRows(entries: Dict<nat>, total: nat)
    requires total > 0
    ensures SumPercent(Rows(entries, total)) * (total as real) == 100.0 * (Total(entries) as real)
  {
    if entries != [] {
      SumPercentOfRows(entries[1..], total);
      var r := Rows(entries, total);
      assert r[1..] == Rows(entries[1..], total);
      var p := Percentage(entries[0].1, total);
      PercentageShare(entries[0].1, total);
      var rest := SumPercent(Rows(entries[1..], total));
      assert (p + rest) * (total as real) == p * (total as real) + rest * (total as real);
    }
  }

  /** When anything was logged in the window, the shares of the distribution add up to 100%,
      unknown severities included. */
  lemma SeverityRowsSumTo100(stats: Dict<nat>)
    requires Total(stats) > 0
    ensures SumPercent(SeverityRows(stats)) == 100.0
  {
    OwnEntriesPermutes(stats);
    TotalPermutation(OwnEntries(stats), stats);
    RowsSumTo100(OwnEntries(stats), Total(stats));
  }

  /** Rows built against their own total share out exactly a hundred percent. */
  lemma RowsSumTo100(entries: Dict<nat>, total: nat)
    requires total > 0 && Total(entries) == total
    ensures SumPercent(Rows(entries, total)) == 100.0
  {
    SumPercentOfRows(entries, total);
    var x := SumPercent(Rows(entries, total));
    var t := total as real;
    assert x * t == 100.0 * (Total(entries) as real);
    Cancel(x, 100.0, t);
  }

  lemma Cancel(x: real, y: real, t: real)
    requires t > 0.0 && x * t == y * t
    ensures x == y
  {
    assert x == (x * t) / t;
    assert y == (y * t) / t;
  }

  // ---------------------------------------------------------------- most common symptoms

  /** `frequency[name] = (frequency[name] || 0) + 1` over the window, from an empty object. */
  function Frequency(window: seq<Symptom>): Dict<nat>
  {
    Tally([], Names(window))
  }

  /** `Object.entries(frequency).sort((a, b) => b[1] - a[1]).slice(0, 10)`. */
  function TopSymptoms(window: seq<Symptom>): Dict<nat>
  {
    Take(SortDesc(OwnEntries(Frequency(window)), EntryCount), 10)
  }

  /** The number of distinct symptom names in the window. */
  function DistinctNames(window: seq<Symptom>): nat
  {
    |AddKeys([], Names(window))|
  }

  /** `getSymptomFrequency`: at most ten entries with distinct names, each with its exact number
      of occurrences in the window, by non-increasing count; a name left out occurs no more
      often than the tenth entry. */
  method SymptomFrequency(window: seq<Symptom>) returns (top: Dict<nat>)
    ensures top == TopSymptoms(window)
    ensures |top| == Min(10, DistinctNames(window))
    ensures DistinctKeys(top)
    ensures forall i :: 0 <= i < |top| ==> top[i].1 == multiset(Names(window))[top[i].0] >= 1
    ensures SortedDesc(top, EntryCount)
    ensures forall x :: x in window && x.name !in Keys(top) ==>
              |top| == 10 && multiset(Names(window))[x.name] <= top[9].1
  {
    var frequency: Dict<nat> := [];
    var i := 0;
    while i < |window|
      invariant 0 <= i <= |window|
      invariant frequency == Tally([], Names(window[..i]))
    {
      FrequencyStep(window, i);
      frequency := Increment(frequency, window[i].name);
      i := i + 1;
    }
    PrefixAll(window);
    top := Take(SortDesc(OwnEntries(frequency), EntryCount), 10);
    TopSymptomsFacts(window);
  }

  lemma FrequencyStep(window: seq<Symptom>, i: nat)
    requires i < |window|
    ensures Tally([], Names(window[..i + 1])) == Increment(Tally([], Names(window[..i])), window[i].name)
  {
    NamesSnoc(window[..i], window[i]);
    PrefixSnoc(window, i);
  }

  lemma TopSymptomsFacts(window: seq<Symptom>)
    ensures var top := TopSymptoms(window);
      && |top| == Min(10, DistinctNames(window))
      && DistinctKeys(top)
      && (forall i :: 0 <= i < |top| ==> top[i].1 == multiset(Names(window))[top[i].0] >= 1)
      && SortedDesc(top, EntryCount)
      && (forall x :: x in window && x.name !in Keys(top) ==>
            |top| == 10 && multiset(Names(window))[x.name] <= top[9].1)
  {
    TopSymptomsShape(window);
    TopSymptomsCounts(window);
    TopSymptomsLeftOut(window);
  }

  /** The ranking is a descending, duplicate-free selection of the frequency entries. */
  lemma TopSymptomsShape(window: seq<Symptom>)
    ensures var top := TopSymptoms(window);
      && |top| == Min(10, DistinctNames(window))
      && DistinctKeys(top)
      && SortedDesc(top, EntryCount)
      && (forall i :: 0 <= i < |top| ==> top[i] in Frequency(window))
      && (forall e :: e in Frequency(window) && e !in top ==> |top| == 10 && e.1 <= top[9].1)
  {
    var freq := Frequency(window);
    TallyFacts([], Names(window));
    OwnEntriesPermutes(freq);
    SortDescMultiset(OwnEntries(freq), EntryCount);
    SortDescFacts(OwnEntries(freq), EntryCount);
    TopFacts(freq, SortDesc(OwnEntries(freq), EntryCount), 10);
  }

  /** Every ranked entry holds the exact number of occurrences of its name. */
  lemma TopSymptomsCounts(window: seq<Symptom>)
    ensures forall i :: 0 <= i < |TopSymptoms(window)| ==>
              TopSymptoms(window)[i].1 == multiset(Names(window))[TopSymptoms(window)[i].0] >= 1
  {
    var names := Names(window);
    var freq := Frequency(window);
    var top := TopSymptoms(window);
    TopSymptomsShape(window);
    TallyFacts([], names);
    AddKeysFacts([], names);
    forall i | 0 <= i < |top| ensures top[i].1 == multiset(names)[top[i].0] >= 1 {
      EntryCounted(names, freq, top[i]);
    }
  }

  /** An entry of a tally of `names` whose keys come from `names` counts a name that occurs. */
  lemma EntryCounted(names: seq<string>, freq: Dict<nat>, e: (string, nat))
    requires forall i :: 0 <= i < |freq| ==> freq[i].1 == multiset(names)[freq[i].0]
    requires forall x :: x in Keys(freq) ==> x in names
    requires e in freq
    ensures e.1 == multiset(names)[e.0] >= 1
  {
    var j :| 0 <= j < |freq| && freq[j] == e;
    assert Keys(freq)[j] == e.0;
    assert e.0 in names;
    assert e.0 in multiset(names);
  }

  /** A name of the window missing from the ranking occurs no more often than the tenth entry. */
  lemma TopSymptomsLeftOut(window: seq<Symptom>)
    ensures forall x :: x in window && x.name !in Keys(TopSymptoms(window)) ==>
              |TopSymptoms(window)| == 10
              && multiset(Names(window))[x.name] <= TopSymptoms(window)[9].1
  {
    var names := Names(window);
    var freq := Frequency(window);
    var top := TopSymptoms(window);
    TopSymptomsShape(window);
    TallyFacts([], names);
    AddKeysFacts([], names);
    forall x | x in window && x.name !in Keys(top)
      ensures |top| == 10 && multiset(names)[x.name] <= top[9].1
    {
      var w :| 0 <= w < |window| && window[w] == x;
      assert names[w] == x.name;
      assert x.name in Keys(freq);
      var j :| 0 <= j < |freq| && Keys(freq)[j] == x.name;
      assert freq[j] in freq;
    }
  }

  /** With names that are not array indices (every catalogue name), `Object.entries` keeps
      first-seen order, so among entries with equal counts the ranking keeps the order in which
      the names first appear in the window. */
  lemma FrequencyTiesFirstSeen(window: seq<Symptom>)
    requires forall i :: 0 <= i < |window| ==> !IsArrayIndex(window[i].name)
    ensures Keys(Frequency(window)) == AddKeys([], Names(window))
    ensures forall c :: WithKey(TopSymptoms(window), EntryCount, c) <= WithKey(Frequency(window), EntryCount, c)
  {
    var names := Names(window);
    var freq := Frequency(window);
    TallyFacts([], names);
    FrequencyKeysNotIndex(window);
    OwnEntriesInsertionOrder(freq);
    SortDescFacts(freq, EntryCount);
    var ranked := SortDesc(freq, EntryCount);
    forall c ensures WithKey(TopSymptoms(window), EntryCount, c) <= WithKey(freq, EntryCount, c) {
      var top := TopSymptoms(window);
      assert ranked == top + ranked[|top|..];
      WithKeyAppend(top, ranked[|top|..], EntryCount, c);
    }
  }

  lemma FrequencyKeysNotIndex(window: seq<Symptom>)
    requires forall i :: 0 <= i < |window| ==> !IsArrayIndex(window[i].name)
    ensures forall i :: 0 <= i < |Frequency(window)| ==> !IsArrayIndex(Frequency(window)[i].0)
  {
    var names := Names(window);
    var freq := Frequency(window);
    TallyFacts([], names);
    AddKeysFacts([], names);
    KeysFromNames(window, freq);
  }

  /** Keys that all occur among the window's names inherit what holds of every name. */
  lemma KeysFromNames(window: seq<Symptom>, freq: Dict<nat>)
    requires forall i :: 0 <= i < |window| ==> !IsArrayIndex(window[i].name)
    requires forall x :: x in Keys(freq) ==> x in Names(window)
    ensures forall i :: 0 <= i < |freq| ==> !IsArrayIndex(freq[i].0)
  {
    var names := Names(window);
    forall i | 0 <= i < |freq| ensures !IsArrayIndex(freq[i].0) {
      assert Keys(freq)[i] == freq[i].0;
      assert freq[i].0 in names;
      var j :| 0 <= j < |names| && names[j] == freq[i].0;
      assert names[j] == window[j].name;
    }
  }

  /** Names that are array indices are listed by `Object.entries` in numeric order, so a tie
      between "7" (seen first) and "3" is ranked "3" first. */
  lemma FrequencyIndexNamesReordered(w: seq<Symptom>)
    requires w == [Named("7"), Named("3")]
    ensures TopSymptoms(w) == [("3", 1), ("7", 1)]
    ensures AddKeys([], Names(w)) == ["7", "3"]
  {
    var ranked: Dict<nat> := [("3", 1), ("7", 1)];
    var f := Frequency(w);
    SevenThreeFrequency(w);
    var o := OwnEntries(f);
    OwnEntriesSevenThree(f);
    assert o == ranked;
    var r := SortDesc(o, EntryCount);
    SortDescAllEqual(ranked, EntryCount, 1);
    assert r == ranked;
    assert TopSymptoms(w) == Take(r, 10);
    SevenThreeFirstSeen(w);
  }

  lemma SevenThreeFirstSeen(w: seq<Symptom>)
    requires w == [Named("7"), Named("3")]
    ensures AddKeys([], Names(w)) == ["7", "3"]
  {
    SevenThreeNames(w);
    assert ["7", "3"][..1] == ["7"] && ["7"][..0] == [];
    assert AddKeys([], ["7"]) == ["7"];
  }

  lemma SevenThreeFrequency(w: seq<Symptom>)
    requires w == [Named("7"), Named("3")]
    ensures Frequency(w) == [("7", 1), ("3", 1)]
  {
    SevenThreeNames(w);
    SevenThreeTally();
  }

  lemma SevenThreeNames(w: seq<Symptom>)
    requires w == [Named("7"), Named("3")]
    ensures Names(w) == ["7", "3"]
  {
    assert w[1..] == [Named("3")] && w[1..][1..] == [];
  }

  lemma SevenThreeTally()
    ensures Tally([], ["7", "3"]) == [("7", 1), ("3", 1)]
  {
    TallySnoc([], [], "7");
    assert [] + ["7"] == ["7"];
    assert Tally([], ["7"]) == [("7", 1)];
    TallySnoc([], ["7"], "3");
    assert ["7"] + ["3"] == ["7", "3"];
    assert Increment([("7", 1)], "3") == [("7", 1)] + Increment([], "3");
  }

  /** A record carrying only a name. */
  function Named(name: string): Symptom
  {
    Symptom("", "", name, "", "", "mild", 0, None, "", "", "")
  }

  /** "Unique Symptoms": `Object.keys` of an object built from the ranked names, that is the
      number of distinct names among them. */
  function UniqueSymptoms(top: Dict<nat>): (n: nat)
    ensures DistinctKeys(top) ==> n == |top|
  {
    if DistinctKeys(top) then
      assert Distinct(Keys(top));
      AddKeysOfDistinct(Keys(top));
      |AddKeys([], Keys(top))|
    else |AddKeys([], Keys(top))|
  }

  /** The "Unique Symptoms" card shows the ten-capped number of distinct names, not the number
      of distinct names. */
  lemma UniqueSymptomsCapped(window: seq<Symptom>)
    ensures UniqueSymptoms(TopSymptoms(window)) == Min(10, DistinctNames(window))
  {
    TopSymptomsFacts(window);
  }

  /** The width of frequency bar `i`: its count over the first (largest) count. */
  function FrequencyBar(window: seq<Symptom>, i: nat): (w: real)
    requires i < |TopSymptoms(window)|
    ensures 0.0 < w <= 1.0
  {
    var top := TopSymptoms(window);
    TopCountsBounded(window, i);
    RatioBounds(top[i].1, top[0].1);
    top[i].1 as real / top[0].1 as real
  }

  lemma RatioBounds(a: nat, b: nat)
    requires 1 <= a <= b
    ensures 0.0 < a as real / b as real <= 1.0
  {
  }

  lemma TopCountsBounded(window: seq<Symptom>, i: nat)
    requires i < |TopSymptoms(window)|
    ensures 1 <= TopSymptoms(window)[i].1 <= TopSymptoms(window)[0].1
  {
    var top := TopSymptoms(window);
    TopSymptomsCounts(window);
    TopSymptomsShape(window);
    assert i == 0 || EntryCount(top[0]) >= EntryCount(top[i]);
  }

  // ---------------------------------------------------------------- the page state

  /** The state the reports page keeps after it mounts. */
  class ReportsPage {
    var symptoms: seq<Symptom>
    var allergies: seq<Allergy>
    var loading: bool
    var error: string

    constructor()
      ensures symptoms == [] && allergies == [] && loading && error == ""
    {
      symptoms := [];
      allergies := [];
      loading := true;
      error := "";
    }

    /** `fetchUserData` with the two collections' contents (or a failed read) as inputs. The
        user's symptoms are stored newest first as soon as they arrive; a failing query leaves
        the later state untouched and sets the error; loading ends in every case. */
    method FetchUserData(userId: string, symptomDocs: Result<seq<Symptom>>, allergyDocs: Result<seq<Allergy>>)
      modifies this
      ensures !loading
      ensures symptomDocs.Ok? ==> symptoms == NewestFirst(UserSymptoms(symptomDocs.value, userId))
      ensures symptomDocs.Err? ==> symptoms == old(symptoms) && allergies == old(allergies)
      ensures symptomDocs.Ok? && allergyDocs.Ok? ==>
                allergies == UserAllergies(allergyDocs.value, userId) && error == old(error)
      ensures symptomDocs.Ok? && allergyDocs.Err? ==> allergies == old(allergies)
      ensures symptomDocs.Err? || allergyDocs.Err? ==> error == "Failed to load report data"
    {
      if symptomDocs.Err? {
        error := "Failed to load report data";
      } else {
        symptoms := NewestFirst(UserSymptoms(symptomDocs.value, userId));
        if allergyDocs.Err? {
          error := "Failed to load report data";
        } else {
          allergies := UserAllergies(allergyDocs.value, userId);
        }
      }
      loading := false;
    }
  }
}
