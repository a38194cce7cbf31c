/** The dashboard page: the two Firestore queries it runs for the signed-in user, the severity
    counter over the recent list, the colour rules of the weather card and the truncations of
    the recent-symptoms and allergies cards. */
module Dashboard {

  import opened Wrappers
  import opened Seqs
  import opened JsObject
  import opened Records
  import opened SeverityCounts
  import Reports
  import Calendar

  // ---------------------------------------------------------------- the two queries

  /** The recent-symptoms query as written: the user's symptoms, `orderBy("date", "desc")`,
      `limit(10)`. The seven-days-ago date computed just before it takes no part. */
  function RecentQuery(all: seq<Symptom>, userId: string): seq<Symptom>
  {
    Take(NewestFirst(UserSymptoms(all, userId)), 10)
  }

  /** What the as-written query returns: at most ten of the user's symptoms, newest first;
      every one of them when there are fewer than ten; and none left out is newer than one
      returned. Nothing bounds how old they are. */
  lemma RecentQueryFacts(all: seq<Symptom>, userId: string)
    ensures var r := RecentQuery(all, userId);
      && |r| <= 10
      && SortedDesc(r, DateOf)
      && (forall x :: x in r ==> x in all && x.userId == userId)
      && (|r| < 10 ==> multiset(r) == multiset(UserSymptoms(all, userId)))
      && (forall x, i :: x in UserSymptoms(all, userId) && x !in r && 0 <= i < |r| ==> x.date <= r[i].date)
  {
    var u := UserSymptoms(all, userId);
    var s := NewestFirst(u);
    NewestPrefix(s, 10);
    forall x | x in RecentQuery(all, userId) ensures x in all && x.userId == userId {
      assert x in multiset(s);
    }
    forall x | x in u ensures x in s {
      assert x in multiset(u);
    }
  }

  /** The first `n` of a newest-first list are newest first, and nothing after them is newer
      than any of them. */
  lemma NewestPrefix(s: seq<Symptom>, n: nat)
    requires SortedDesc(s, DateOf)
    ensures var r := Take(s, n);
      && SortedDesc(r, DateOf)
      && (|r| < n ==> r == s)
      && (forall x, i :: x in s && x !in r && 0 <= i < |r| ==> x.date <= r[i].date)
  {
    var r := Take(s, n);
    forall x, i | x in s && x !in r && 0 <= i < |r| ensures x.date <= r[i].date {
      var j :| 0 <= j < |s| && s[j] == x;
      assert j >= |r| by {
        if j < |r| {
          assert false;
        }
      }
      assert r[i] == s[i];
    }
  }

  /** The query the card evidently means, "Symptoms This Week": the newest ten of the user's
      symptoms dated on or after seven days before `now`. */
  function WeekQuery(all: seq<Symptom>, userId: string, now: int): seq<Symptom>
  {
    Take(Reports.FilteredSymptoms(NewestFirst(UserSymptoms(all, userId)), now, 7), 10)
  }

  /** Every symptom the corrected query returns is the user's and lies in the last seven days,
      and the result is exactly the as-written list with its stale rows dropped. */
  lemma WeekQueryFacts(all: seq<Symptom>, userId: string, now: int)
    ensures var r := WeekQuery(all, userId, now);
      && |r| <= 10
      && (forall x :: x in r ==> x in all && x.userId == userId && x.date >= now - 7 * Calendar.MsPerDay)
      && r == Reports.FilteredSymptoms(RecentQuery(all, userId), now, 7)
  {
    var s := NewestFirst(UserSymptoms(all, userId));
    forall x | x in WeekQuery(all, userId, now) ensures x in all && x.userId == userId {
      assert x in multiset(s);
    }
    FilterTakeCommute(s, Reports.Cutoff(now, 7), (x: Symptom) => x.date >= Reports.Cutoff(now, 7), 10);
  }

  /** On a newest-first list, keeping the first `n` and then the recent ones is keeping the
      recent ones and then the first `n`. */
  lemma FilterTakeCommute(s: seq<Symptom>, c: int, p: Symptom -> bool, n: nat)
    requires SortedDesc(s, DateOf)
    requires forall x :: p(x) == (x.date >= c)
    ensures Take(Filter(s, p), n) == Filter(Take(s, n), p)
  {
    Reports.SortedFilterPrefix(s, c, p);
    var k := Reports.SortedPrefixLength(s, c);
    forall i | 0 <= i < k ensures p(s[i]) {
      assert s[..k][i] == s[i];
    }
    TakeFilter(s, p, k, n);
  }

  /** A filter that keeps exactly the first `k` elements keeps exactly that prefix. */
  lemma {:induction false} PrefixFilter<T>(s: seq<T>, p: T -> bool, k: nat)
    requires k <= |s|
    requires forall i :: 0 <= i < k ==> p(s[i])
    requires forall i :: k <= i < |s| ==> !p(s[i])
    ensures Filter(s, p) == s[..k]
  {
    if s != [] {
      if k == 0 {
        FilterNone(s, p);
      } else {
        PrefixFilter(s[1..], p, k - 1);
        assert s[..k] == [s[0]] + s[1..][..k - 1];
      }
    }
  }

  /** Such a filter commutes with taking the first `n`. */
  lemma TakeFilter<T>(s: seq<T>, p: T -> bool, k: nat, n: nat)
    requires k <= |s|
    requires forall i :: 0 <= i < k ==> p(s[i])
    requires forall i :: k <= i < |s| ==> !p(s[i])
    ensures Take(Filter(s, p), n) == Filter(Take(s, n), p)
  {
    PrefixFilter(s, p, k);
    var t := Take(s, n);
    PrefixFilter(t, p, Min(k, |t|));
    assert Take(s[..k], n) == t[..Min(k, |t|)];
  }

  /** "Symptoms This Week": the length of the recent list. */
  function SymptomsThisWeek(recent: seq<Symptom>): (n: nat)
    ensures n <= |recent|
  {
    |recent|
  }

  /** A symptom logged thirty days ago is counted under "Symptoms This Week" by the query as
      written, and not by the corrected one. */
  lemma StaleSymptomCounted()
    ensures var stale := Symptom("s1", "u1", "Sneezing", "", "", "mild", 0, None, "", "", "");
      var now := 30 * Calendar.MsPerDay;
      && stale.date < now - 7 * Calendar.MsPerDay
      && SymptomsThisWeek(RecentQuery([stale], "u1")) == 1
      && SymptomsThisWeek(WeekQuery([stale], "u1", now)) == 0
  {
    var stale := Symptom("s1", "u1", "Sneezing", "", "", "mild", 0, None, "", "", "");
    var now := 30 * Calendar.MsPerDay;
    assert UserSymptoms([stale], "u1") == [stale];
    assert NewestFirst([stale]) == [stale] by {
      assert multiset(NewestFirst([stale])) == multiset{stale};
    }
    assert Reports.FilteredSymptoms([stale], now, 7) == [];
  }

  // ---------------------------------------------------------------- the page state

  /** The state `Dashboard` keeps: the signed-in user's id, the two lists, `loading` and
      `error`. */
  class DashboardPage {
    var user: Option<string>
    var allergies: seq<Allergy>
    var recentSymptoms: seq<Symptom>
    var loading: bool
    var error: string

    constructor()
      ensures user == None && allergies == [] && recentSymptoms == [] && loading && error == ""
    {
      user := None;
      allergies := [];
      recentSymptoms := [];
      loading := true;
      error := "";
    }

    /** `fetchUserData` with the two collections' contents (or a failed read) as inputs. The
        allergies are stored as soon as their query succeeds; a failure stops the rest and sets
        the error; loading ends in every case. The symptoms are the as-written query's ten
        newest, of any age. */
    method FetchUserData(userId: string, allergyDocs: Result<seq<Allergy>>, symptomDocs: Result<seq<Symptom>>)
      modifies this
      ensures !loading && user == old(user)
      ensures allergyDocs.Ok? ==> allergies == UserAllergies(allergyDocs.value, userId)
      ensures allergyDocs.Err? ==> allergies == old(allergies)
      ensures allergyDocs.Ok? && symptomDocs.Ok? ==>
                recentSymptoms == RecentQuery(symptomDocs.value, userId) && error == old(error)
      ensures allergyDocs.Err? || symptomDocs.Err? ==>
                recentSymptoms == old(recentSymptoms) && error == "Failed to load dashboard data"
    {
      if allergyDocs.Err? {
        error := "Failed to load dashboard data";
      } else {
        allergies := UserAllergies(allergyDocs.value, userId);
        if symptomDocs.Err? {
          error := "Failed to load dashboard data";
        } else {
          recentSymptoms := RecentQuery(symptomDocs.value, userId);
        }
      }
      loading := false;
    }

    /** The `onAuthStateChanged` callback: a signed-in user triggers the fetch, a signed-out one
        only ends loading. */
    method AuthChanged(u: Option<string>, allergyDocs: Result<seq<Allergy>>, symptomDocs: Result<seq<Symptom>>)
      modifies this
      ensures user == u && !loading
      ensures u.None? ==> allergies == old(allergies) && recentSymptoms == old(recentSymptoms) && error == old(error)
      ensures u.Some? && allergyDocs.Ok? ==> allergies == UserAllergies(allergyDocs.value, u.value)
      ensures u.Some? && allergyDocs.Err? ==> allergies == old(allergies)
      ensures u.Some? && allergyDocs.Ok? && symptomDocs.Ok? ==>
                recentSymptoms == RecentQuery(symptomDocs.value, u.value) && error == old(error)
      ensures u.Some? && (allergyDocs.Err? || symptomDocs.Err?) ==>
                recentSymptoms == old(recentSymptoms) && error == "Failed to load dashboard data"
    {
      user := u;
      if u.Some? {
        FetchUserData(u.value, allergyDocs, symptomDocs);
      } else {
        loading := false;
      }
    }

    /** `getSeverityStats` over the recent list: the four known keys first, the exact count of
        every severity, and a total equal to the length of the list. */
    method SeverityStats() returns (stats: Dict<nat>)
      ensures |stats| >= 4 && Keys(stats)[..4] == Known
      ensures forall k :: CountOf(stats, k) == multiset(Severities(recentSymptoms))[k]
      ensures Total(stats) == |recentSymptoms|
    {
      stats := CountSeverities(recentSymptoms);
      forall k ensures CountOf(stats, k) == multiset(Severities(recentSymptoms))[k] {
        CountOfKnown(recentSymptoms, k);
      }
    }
  }

  // ---------------------------------------------------------------- the cards

  /** `recentSymptoms.slice(0, 5)`: the five newest at most. */
  function RecentShown(recent: seq<Symptom>): (r: seq<Symptom>)
    ensures |r| == Min(5, |recent|) && r <= recent
  {
    Take(recent, 5)
  }

  /** `allergies.slice(0, 6)`. */
  function AllergiesShown(allergies: seq<Allergy>): (r: seq<Allergy>)
    ensures |r| == Min(6, |allergies|) && r <= allergies
  {
    Take(allergies, 6)
  }

  /** The "+N more allergies" line: present exactly when more than six are tracked, and then
      it names the ones the card leaves out. */
  function MoreAllergies(allergies: seq<Allergy>): (more: Option<nat>)
    ensures more.Some? <==> |allergies| > 6
    ensures more.Some? ==> |AllergiesShown(allergies)| + more.value == |allergies|
    ensures more.None? ==> AllergiesShown(allergies) == allergies
  {
    if |allergies| > 6 then Some(|allergies| - 6) else None
  }

  /** A bar of the "Symptom Severity" card: name, count and width in percent. */
  datatype Bar = Bar(name: string, count: nat, width: real)

  function Width(count: nat, n: nat): real
    requires n > 0
  {
    (count as real / n as real) * 100.0
  }

  /** The card is drawn only when the recent list is non-empty, with a bar for mild, moderate
      and severe (none for emergency), each `count / recentSymptoms.length` wide. */
  function SeverityBars(stats: Dict<nat>, recent: seq<Symptom>): (bars: Option<seq<Bar>>)
    ensures bars.Some? <==> |recent| > 0
    ensures bars.Some? ==> (|bars.value| == 3
      && bars.value[0].name == "Mild" && bars.value[1].name == "Moderate" && bars.value[2].name == "Severe"
      && forall i :: 0 <= i < 3 ==>
           bars.value[i].count == CountOf(stats, Known[i])
           && bars.value[i].width == Width(bars.value[i].count, |recent|))
  {
    if |recent| == 0 then None
    else
      var mild := CountOf(stats, "mild");
      var moderate := CountOf(stats, "moderate");
      var severe := CountOf(stats, "severe");
      Some([Bar("Mild", mild, Width(mild, |recent|)),
            Bar("Moderate", moderate, Width(moderate, |recent|)),
            Bar("Severe", severe, Width(severe, |recent|))])
  }

  /** With the statistics of the recent list itself, each bar shows the exact count of its
      severity, and the three widths are shares that together fill at most the whole bar. */
  lemma SeverityBarsBounded(recent: seq<Symptom>)
    requires |recent| > 0
    ensures var bars := SeverityBars(Tally(ZeroStats, Severities(recent)), recent).value;
      && bars[0].count == multiset(Severities(recent))["mild"]
      && bars[1].count == multiset(Severities(recent))["moderate"]
      && bars[2].count == multiset(Severities(recent))["severe"]
      && (forall i :: 0 <= i < 3 ==> 0.0 <= bars[i].width <= 100.0)
      && bars[0].width + bars[1].width + bars[2].width <= 100.0
  {
    CountOfKnown(recent, "mild");
    CountOfKnown(recent, "moderate");
    CountOfKnown(recent, "severe");
    ThreeCounts(Severities(recent));
    BarsBounded(Tally(ZeroStats, Severities(recent)), recent);
  }

  /** The bars of any statistics whose three counts fit in the list. */
  lemma BarsBounded(stats: Dict<nat>, recent: seq<Symptom>)
    requires |recent| > 0
    requires CountOf(stats, "mild") + CountOf(stats, "moderate") + CountOf(stats, "severe") <= |recent|
    ensures var bars := SeverityBars(stats, recent).value;
      && bars[0].count == CountOf(stats, "mild")
      && bars[1].count == CountOf(stats, "moderate")
      && bars[2].count == CountOf(stats, "severe")
      && (forall i :: 0 <= i < 3 ==> 0.0 <= bars[i].width <= 100.0)
      && bars[0].width + bars[1].width + bars[2].width <= 100.0
  {
    var a, b, c, n := CountOf(stats, "mild"), CountOf(stats, "moderate"), CountOf(stats, "severe"), |recent|;
    var bars := SeverityBars(stats, recent).value;
    assert bars == [Bar("Mild", a, Width(a, n)), Bar("Moderate", b, Width(b, n)), Bar("Severe", c, Width(c, n))];
    SharesBounded(a, b, c, n);
    assert bars[0].width == Width(a, n) && bars[1].width == Width(b, n) && bars[2].width == Width(c, n);
    forall i | 0 <= i < 3
      ensures 0.0 <= bars[i].width <= 100.0
    {
      if i == 0 {
      } else if i == 1 {
      } else {
      }
    }
  }

  /** No more records carry the three severities than there are records. */
  lemma {:induction false} ThreeCounts(s: seq<string>)
    ensures multiset(s)["mild"] + multiset(s)["moderate"] + multiset(s)["severe"] <= |s|
  {
    if s != [] {
      ThreeCounts(s[1..]);
      ConsSplit(s);
      assert multiset(s) == multiset{s[0]} + multiset(s[1..]);
    }
  }

  lemma SharesBounded(a: nat, b: nat, c: nat, n: nat)
    requires n > 0 && a + b + c <= n
    ensures 0.0 <= Width(a, n) <= 100.0 && 0.0 <= Width(b, n) <= 100.0 && 0.0 <= Width(c, n) <= 100.0
    ensures Width(a, n) + Width(b, n) + Width(c, n) <= 100.0
  {
    var t := n as real;
    ShareSum(a as real, b as real, c as real, t);
    ShareAtMostOne(a as real, t);
    ShareAtMostOne(b as real, t);
    ShareAtMostOne(c as real, t);
    ShareAtMostOne((a + b + c) as real, t);
  }

  lemma ShareAtMostOne(x: real, t: real)
    requires t > 0.0 && 0.0 <= x <= t
    ensures 0.0 <= x / t <= 1.0
  {
    var q := x / t;
    assert q * t == x;
    assert (1.0 - q) * t == t - x;
  }

  lemma ShareSum(a: real, b: real, c: real, t: real)
    requires t > 0.0
    ensures a / t + b / t + c / t == (a + b + c) / t
  {
    var qa, qb, qc := a / t, b / t, c / t;
    assert qa * t == a && qb * t == b && qc * t == c;
    assert (qa + qb + qc) * t == a + b + c;
    assert (qa + qb + qc) == (a + b + c) / t;
  }

  // ---------------------------------------------------------------- the weather card

  const Green := "bg-green-100 text-green-800"
  const Yellow := "bg-yellow-100 text-yellow-800"
  const Orange := "bg-orange-100 text-orange-800"
  const Red := "bg-red-100 text-red-800"
  const Gray := "bg-gray-100 text-gray-800"

  /** `getAirQualityColor`: four bands, the lower bound of each band exclusive and the upper
      inclusive; the first band that matches wins. */
  function AirQualityColor(index: int): (c: string)
    ensures c == Green <==> index <= 50
    ensures c == Yellow <==> 50 < index <= 100
    ensures c == Orange <==> 100 < index <= 150
    ensures c == Red <==> 150 < index
  {
    if index <= 50 then Green
    else if index <= 100 then Yellow
    else if index <= 150 then Orange
    else Red
  }

  /** The position of a colour on the air-quality scale. */
  function Band(c: string): nat
  {
    if c == Green then 0 else if c == Yellow then 1 else if c == Orange then 2 else 3
  }

  /** A worse index never gets a better colour. */
  lemma AirQualityMonotone(a: int, b: int)
    requires a <= b
    ensures Band(AirQualityColor(a)) <= Band(AirQualityColor(b))
  {
  }

  /** `getPollenLevel`: `colors[level] || gray` over the three known levels; anything else
      (another spelling, an empty string) gets the gray default. */
  function PollenLevel(level: string): (c: string)
    ensures level == "Low" ==> c == Green
    ensures level == "Medium" ==> c == Yellow
    ensures level == "High" ==> c == Red
    ensures c == Gray <==> level !in ["Low", "Medium", "High"]
  {
    if level == "Low" then Green
    else if level == "Medium" then Yellow
    else if level == "High" then Red
    else Gray
  }
}
