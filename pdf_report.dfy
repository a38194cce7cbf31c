/** The PDF health report: a cursor walks down the page writing one text item after another,
    adding pages where the layout asks for it, and the recommendations close the document on a
    page of their own. The PDF engine is reduced to the number of lines its word wrap gives each
    item; every item is written at (x, y) on the current, last, page. */
module PdfReport {

  import opened Wrappers
  import opened Seqs
  import opened JsObject
  import opened Records
  import opened SeverityCounts
  import Calendar
  import Reports

  // ---------------------------------------------------------------- the document

  /** The recommendations, in the order the report considers them. */
  datatype Advice = SevereShare | HighFrequency | AddAllergies | KeepLogging | Focus(name: string)

  /** The section headings, in the order they appear. */
  datatype Section = SummaryStatistics | SeverityDistribution | MostCommonSymptoms | RecentSymptomLog | Recommendations

  /** The text items the report writes. Those with numbers keep them unformatted:
      `AveragePerDay` holds the average in tenths, as `toFixed(1)` prints it. */
  datatype Item =
    | Title
    | Period(range: string)
    | GeneratedOn(day: int)
    | Heading(section: Section)
    | TotalLogged(count: nat)
    | AveragePerDay(tenths: int)
    | TrackedAllergies(count: nat)
    | UniqueTypes(count: nat)
    | SeverityLine(severity: string, count: nat, percent: real)
    | Ranked(rank: nat, name: string, count: nat)
    | Recent(symptom: Symptom)
    | Recommendation(advice: Advice)
    | Footer

  /** The font size each item is written in. All are even, so `lines * fontSize * 0.5` is whole. */
  function FontSize(it: Item): (size: nat)
    ensures size > 0 && size % 2 == 0
  {
    match it
    case Title => 20
    case Period(_) => 14
    case GeneratedOn(_) => 10
    case Heading(_) => 16
    case Footer => 8
    case _ => 12
  }

  /** An item as written: on which page (numbered from 0) and where. */
  datatype Placed = Placed(item: Item, page: nat, x: int, y: int)

  /** Where the next text goes: the current page and `yPosition`. */
  datatype Cursor = Cursor(page: nat, y: int)

  /** A stretch of the document: what it writes, in the order of the calls, and where it
      leaves the cursor. The document being generated is the stretch written so far. */
  datatype Block = Block(placed: seq<Placed>, end: Cursor)

  /** `new jsPDF()` with `yPosition = 20`. */
  const Fresh: Cursor := Cursor(0, 20)

  function Empty(c: Cursor): Block
  {
    Block([], c)
  }

  /** One stretch followed by another that starts where it ends. */
  function Then(a: Block, b: Block): Block
  {
    Block(a.placed + b.placed, b.end)
  }

  /** No placement is past the page the stretch ends on. */
  predicate WithinPages(b: Block)
  {
    forall i :: 0 <= i < |b.placed| ==> b.placed[i].page <= b.end.page
  }

  function ItemsOf(ps: seq<Placed>): (items: seq<Item>)
    ensures |items| == |ps|
  {
    if ps == [] then [] else ItemsOf(ps[..|ps| - 1]) + [ps[|ps| - 1].item]
  }

  lemma {:induction false} ItemsOfElements(ps: seq<Placed>)
    ensures forall i :: 0 <= i < |ps| ==> ItemsOf(ps)[i] == ps[i].item
  {
    if ps != [] {
      ItemsOfElements(ps[..|ps| - 1]);
    }
  }

  lemma {:induction false} ItemsOfAppend(a: seq<Placed>, b: seq<Placed>)
    ensures ItemsOf(a + b) == ItemsOf(a) + ItemsOf(b)
  {
    if b != [] {
      assert (a + b)[..|a + b| - 1] == a + b[..|b| - 1];
      ItemsOfAppend(a, b[..|b| - 1]);
    } else {
      assert a + b == a;
    }
  }

  lemma ItemsOfSnoc(a: seq<Placed>, p: Placed)
    ensures ItemsOf(a + [p]) == ItemsOf(a) + [p.item]
  {
    assert (a + [p])[..|a|] == a;
  }

  /** The cursor after `addText`: `y + lines * fontSize * 0.5`, the lines counted by the
      engine's word wrap. */
  function Advance(y: int, it: Item, wrap: Item -> nat): (next: int)
    ensures next >= y
    ensures next == y <==> wrap(it) == 0
  {
    y + Times(wrap(it), FontSize(it) / 2)
  }

  /** `n * k`, by repeated addition, which keeps the layout's arithmetic linear. */
  function Times(n: nat, k: nat): (r: nat)
    ensures r == 0 <==> n == 0 || k == 0
  {
    if n == 0 then 0 else Times(n - 1, k) + k
  }

  /** `yPosition = addText(text, x, y)`: the item goes on the current page at (x, y) and the
      cursor moves below it. */
  function Write(d: Block, it: Item, x: int, y: int, wrap: Item -> nat): Block
  {
    Block(d.placed + [Placed(it, d.end.page, x, y)], Cursor(d.end.page, Advance(y, it, wrap)))
  }

  /** `doc.text(text, x, y)` on its own: the cursor stays. */
  function Text(d: Block, it: Item, x: int, y: int): Block
  {
    Block(d.placed + [Placed(it, d.end.page, x, y)], d.end)
  }

  /** `doc.addPage(); yPosition = 20`. */
  function NewPage(d: Block): Block
  {
    Block(d.placed, Cursor(d.end.page + 1, 20))
  }

  /** `yPosition += dy`. */
  function Down(d: Block, dy: int): Block
  {
    Block(d.placed, Cursor(d.end.page, d.end.y + dy))
  }

  /** `yPosition = y`. */
  function MoveTo(d: Block, y: int): Block
  {
    Block(d.placed, Cursor(d.end.page, y))
  }

  /** Writing after a stretch is writing at the end of the whole. */
  lemma ThenWrite(a: Block, b: Block, it: Item, x: int, y: int, wrap: Item -> nat)
    ensures Then(a, Write(b, it, x, y, wrap)) == Write(Then(a, b), it, x, y, wrap)
  {
    assert a.placed + (b.placed + [Placed(it, b.end.page, x, y)])
        == (a.placed + b.placed) + [Placed(it, b.end.page, x, y)];
  }

  /** Stretches written after one another, each within its pages and none going back a page,
      stay within their pages. */
  lemma ThenWithin(a: Block, b: Block)
    requires WithinPages(a) && WithinPages(b) && a.end.page <= b.end.page
    ensures WithinPages(Then(a, b))
  {
    var t := Then(a, b);
    forall i | 0 <= i < |t.placed| ensures t.placed[i].page <= t.end.page {
      if i < |a.placed| {
        assert t.placed[i] == a.placed[i];
      } else {
        assert t.placed[i] == b.placed[i - |a.placed|];
      }
    }
  }


  // ---------------------------------------------------------------- summary values

  /** The report period text for the time-range value. */
  function PeriodLabel(timeRange: string): (text: string)
    ensures text == "week" <==> timeRange == "7"
    ensures text == "month" <==> timeRange == "30"
    ensures text == "3 months" <==> timeRange == "90"
    ensures timeRange != "7" && timeRange != "30" && timeRange != "90" <==> text == "year"
  {
    if timeRange == "7" then "week"
    else if timeRange == "30" then "month"
    else if timeRange == "90" then "3 months"
    else "year"
  }

  /** The last-year and the next-five-days options are both reported as a year. */
  lemma PeriodOfOptions()
    ensures PeriodLabel(Reports.TimeRange.LastYear.Value()) == "year"
    ensures PeriodLabel(Reports.TimeRange.Next5Days.Value()) == "year"
  {
  }

  /** `x.toFixed(1)` for x = count / days > 0, in tenths: the nearest tenth, halves rounded up. */
  function Rounded(count: nat, days: int): (t: nat)
    requires days > 0
  {
    (20 * count + days) / (2 * days)
  }

  /** `Rounded` is the nearest tenth: ten times the quotient lies within half a tenth of it,
      halves going up. */
  lemma RoundedBounds(count: nat, days: int)
    requires days > 0
    ensures var t := Rounded(count, days);
      t * (2 * days) - days <= 20 * count < t * (2 * days) + days
  {
    var m := 2 * days;
    var t := Rounded(count, days);
    assert m * t <= 20 * count + days < m * t + m;
  }

  /** `(count / days).toFixed(1)` in tenths; a negative quotient is printed as the negated
      rounding of its magnitude. */
  function AverageTenths(count: nat, days: int): (t: int)
    requires days != 0
    ensures days > 0 ==> t == Rounded(count, days)
    ensures days < 0 ==> t == -(Rounded(count, -days) as int) && t <= 0
  {
    if days > 0 then Rounded(count, days) else -(Rounded(count, -days) as int)
  }

  /** `parseFloat(avgPerDay) > 3`: over a past window it holds exactly when at least 3.05
      records a day were logged; over the next-five-days window it never holds. */
  lemma AverageRule(count: nat, days: int)
    requires days != 0
    ensures days > 0 ==> (AverageTenths(count, days) > 30 <==> 20 * count >= 61 * days)
    ensures days < 0 ==> AverageTenths(count, days) <= 30
  {
    if days > 0 {
      var t := Rounded(count, days);
      RoundedBounds(count, days);
      if t > 30 {
        MulMonotone(31, t, 2 * days);
      } else {
        MulMonotone(t, 30, 2 * days);
      }
    }
  }

  /** The page's card and the PDF print the same average for every option of the selector:
      for a past window both round halves up, and the next-five-days count is never a half. */
  lemma AverageCardAgrees(r: Reports.TimeRange, count: nat)
    ensures Reports.AverageCard(count, r.Days()) == AverageTenths(count, r.Days())
  {
  }

  lemma MulMonotone(a: int, b: int, c: nat)
    requires a <= b
    ensures a * c <= b * c
  {
    assert b * c - a * c == (b - a) * c;
  }

  /** `severePercentage > 20`, with `severeCount` the severe plus emergency counts; a missing key
      makes it NaN and a zero total makes it 0, and neither exceeds 20. */
  predicate SevereRule(stats: Dict<nat>)
  {
    SevereShareOver(Lookup(stats, "severe"), Lookup(stats, "emergency"), Total(stats))
  }

  predicate SevereShareOver(severe: Option<nat>, emergency: Option<nat>, total: nat)
  {
    severe.Some? && emergency.Some? && total > 0
    && ((severe.value + emergency.value) as real / total as real) * 100.0 > 20.0
  }

  /** The severe rule in whole numbers: both counts are there and more than a fifth of the
      total is severe or emergency. */
  lemma SevereRuleFifth(severe: Option<nat>, emergency: Option<nat>, total: nat)
    ensures SevereShareOver(severe, emergency, total) <==>
            severe.Some? && emergency.Some? && total > 0 && 5 * (severe.value + emergency.value) > total
  {
    if severe.Some? && emergency.Some? && total > 0 {
      ShareOverFifth(severe.value + emergency.value, total);
    }
  }

  lemma ShareOverFifth(c: nat, total: nat)
    requires total > 0
    ensures (c as real / total as real) * 100.0 > 20.0 <==> 5 * c > total
  {
    var t := total as real;
    var q := c as real / t;
    assert q * t == c as real;
    ScaleStrict(q * 100.0, 20.0, t);
    assert (q * 100.0) * t == 100.0 * (q * t);
  }

  lemma ScaleStrict(a: real, b: real, t: real)
    requires t > 0.0
    ensures a > b <==> a * t > b * t
  {
    assert a * t - b * t == (a - b) * t;
  }

  /** The recommendations shown, in order. */
  function Advices(stats: Dict<nat>, tenths: int, allergyCount: nat, freq: Dict<nat>): seq<Advice>
  {
    var checks := Checks(SevereRule(stats), tenths > 30, allergyCount == 0);
    if freq != [] then checks + [Focus(freq[0].0)] else checks
  }

  /** Each recommendation is given exactly when its rule holds; the closing one always. */
  lemma AdviceRules(stats: Dict<nat>, tenths: int, allergyCount: nat, freq: Dict<nat>)
    ensures var r := Advices(stats, tenths, allergyCount, freq);
      && (SevereShare in r <==> SevereRule(stats))
      && (HighFrequency in r <==> tenths > 30)
      && (AddAllergies in r <==> allergyCount == 0)
      && KeepLogging in r
      && ((exists n :: Focus(n) in r) <==> freq != [])
  {
    var checks := Checks(SevereRule(stats), tenths > 30, allergyCount == 0);
    ChecksMembers(SevereRule(stats), tenths > 30, allergyCount == 0);
    if freq != [] {
      var f := [Focus(freq[0].0)];
      assert forall x :: x in checks + f <==> x in checks || x == f[0];
    }
  }

  /** The four checks give each of their recommendations exactly when its condition holds. */
  lemma ChecksMembers(severe: bool, often: bool, none: bool)
    ensures var c := Checks(severe, often, none);
      && (SevereShare in c <==> severe)
      && (HighFrequency in c <==> often)
      && (AddAllergies in c <==> none)
      && KeepLogging in c
      && forall n :: Focus(n) !in c
  {
  }

  /** The recommendations come in the order of the checks, and the focus one names the most
      frequent symptom. */
  lemma AdviceOrder(stats: Dict<nat>, tenths: int, allergyCount: nat, freq: Dict<nat>)
    ensures var r := Advices(stats, tenths, allergyCount, freq);
      && (forall n :: Focus(n) in r ==> freq != [] && n == freq[0].0)
      && RankOrdered(r)
  {
    var a3 := Checks(SevereRule(stats), tenths > 30, allergyCount == 0);
    ChecksOrdered(SevereRule(stats), tenths > 30, allergyCount == 0);
    if freq != [] {
      OrderedAppend(a3, [Focus(freq[0].0)], 4);
    }
  }

  /** The four recommendations that do not name a symptom. */
  function Checks(severe: bool, often: bool, none: bool): (r: seq<Advice>)
  {
    Given(Given(Given([], severe, SevereShare), often, HighFrequency), none, AddAllergies) + [KeepLogging]
  }

  /** `shown` followed by `a` when `cond` holds. */
  function Given(shown: seq<Advice>, cond: bool, a: Advice): seq<Advice>
  {
    shown + (if cond then [a] else [])
  }

  lemma ChecksOrdered(severe: bool, often: bool, none: bool)
    ensures RankOrdered(Checks(severe, often, none))
    ensures forall x :: x in Checks(severe, often, none) ==> Rank(x) < 4
  {
    var s1 := if severe then [SevereShare] else [];
    var s2 := if often then [HighFrequency] else [];
    var s3 := if none then [AddAllergies] else [];
    assert Given([], severe, SevereShare) == s1;
    OrderedAppend(s1, s2, 1);
    OrderedAppend(s1 + s2, s3, 2);
    OrderedAppend(s1 + s2 + s3, [KeepLogging], 3);
  }

  predicate RankOrdered(r: seq<Advice>)
  {
    forall i, j :: 0 <= i < j < |r| ==> Rank(r[i]) < Rank(r[j])
  }

  lemma OrderedAppend(a: seq<Advice>, b: seq<Advice>, k: nat)
    requires RankOrdered(a) && RankOrdered(b)
    requires forall x :: x in a ==> Rank(x) < k
    requires forall y :: y in b ==> Rank(y) >= k
    ensures RankOrdered(a + b)
    ensures forall x :: x in a + b ==> Rank(x) < k || x in b
  {
    forall i, j | 0 <= i < j < |a + b| ensures Rank((a + b)[i]) < Rank((a + b)[j]) {
      if i < |a| && j >= |a| {
        assert (a + b)[i] in a && (a + b)[j] in b;
      } else if i >= |a| {
        assert (a + b)[i] == b[i - |a|] && (a + b)[j] == b[j - |a|];
      }
    }
  }

  /** The position of each rule in the report's sequence of checks. */
  function Rank(a: Advice): nat
  {
    match a
    case SevereShare => 0
    case HighFrequency => 1
    case AddAllergies => 2
    case KeepLogging => 3
    case Focus(_) => 4
  }

  // ---------------------------------------------------------------- the blocks of the layout

  /** What the header and the summary block show: the period text, the number of records, the
      average per day in tenths, the number of allergies, the number of symptom types and the
      day of generation. */
  datatype Summary = Summary(period: string, count: nat, average: int, allergies: nat, unique: nat, today: int)

  /** The header and the summary block, down to the severity heading. The title's own
      cursor is dropped: the period line is written at 50 whatever the title's height. */
  function Header(sum: Summary, wrap: Item -> nat): Block
  {
    var d0 := Write(Empty(Fresh), Title, 20, 20, wrap);
    var d1 := Write(MoveTo(d0, 50), Period(sum.period), 20, 50, wrap);
    var d2 := Write(d1, GeneratedOn(sum.today), 20, d1.end.y + 10, wrap);
    var d3 := Write(Down(d2, 20), Heading(SummaryStatistics), 20, d2.end.y + 20, wrap);
    var d4 := Write(Down(d3, 10), TotalLogged(sum.count), 30, d3.end.y + 10, wrap);
    var d5 := Write(d4, AveragePerDay(sum.average), 30, d4.end.y + 8, wrap);
    var d6 := Write(d5, TrackedAllergies(sum.allergies), 30, d5.end.y + 8, wrap);
    var d7 := Write(d6, UniqueTypes(sum.unique), 30, d6.end.y + 8, wrap);
    var d8 := Write(Down(d7, 20), Heading(SeverityDistribution), 20, d7.end.y + 20, wrap);
    Down(d8, 10)
  }

  /** The items of `Header`, in order. */
  function HeaderItems(sum: Summary): seq<Item>
  {
    [Title, Period(sum.period), GeneratedOn(sum.today), Heading(SummaryStatistics),
     TotalLogged(sum.count), AveragePerDay(sum.average), TrackedAllergies(sum.allergies),
     UniqueTypes(sum.unique), Heading(SeverityDistribution)]
  }

  /** The header writes its items in order. */
  lemma HeaderFacts(sum: Summary, wrap: Item -> nat)
    ensures ItemsOf(Header(sum, wrap).placed) == HeaderItems(sum)
  {
    var h := Header(sum, wrap);
    assert |h.placed| == 9;
    ItemsOfElements(h.placed);
  }

  /** The header is all on the first page, the title at (20, 20) and the period at (20, 50). */
  lemma HeaderPage(sum: Summary, wrap: Item -> nat)
    ensures var h := Header(sum, wrap);
      && h.end.page == 0 && WithinPages(h)
      && h.placed[0] == Placed(Title, 0, 20, 20)
      && h.placed[1] == Placed(Period(sum.period), 0, 20, 50)
  {
    var h := Header(sum, wrap);
    assert |h.placed| == 9;
  }

  /** Lines written one below the other on the current page, all at `x`, the cursor moved
      `gap` further after each: the severity lines and the recommendations. */
  function Lines(c: Cursor, items: seq<Item>, x: int, gap: nat, wrap: Item -> nat): (b: Block)
    ensures b.end.page == c.page
  {
    if items == [] then Empty(c)
    else
      var p := Lines(c, items[..|items| - 1], x, gap, wrap);
      Down(Write(p, items[|items| - 1], x, p.end.y, wrap), gap)
  }

  /** `Lines` writes its items in order, on the current page at `x`, the first at the cursor and
      each at least `gap` below the one before. */
  lemma {:induction false} LinesFacts(c: Cursor, items: seq<Item>, x: int, gap: nat, wrap: Item -> nat)
    ensures var b := Lines(c, items, x, gap, wrap);
      && ItemsOf(b.placed) == items
      && (forall i :: 0 <= i < |b.placed| ==> b.placed[i].page == c.page && b.placed[i].x == x)
      && (items != [] ==> b.placed[0].y == c.y && b.placed[|b.placed| - 1].y + gap <= b.end.y)
      && (forall i :: 0 < i < |b.placed| ==> b.placed[i - 1].y + gap <= b.placed[i].y)
      && WithinPages(b)
  {
    if items != [] {
      LinesFacts(c, items[..|items| - 1], x, gap, wrap);
      var p := Lines(c, items[..|items| - 1], x, gap, wrap);
      var pl := Placed(items[|items| - 1], c.page, x, p.end.y);
      ItemsOfSnoc(p.placed, pl);
      assert items == items[..|items| - 1] + [pl.item];
    }
  }

  /** The next placement, or the cursor, after one on `page`: further down the same page but
      not past `limit`, or at the top of the next page. */
  predicate Continues(page: nat, next: nat, y: int, limit: int)
  {
    (next == page && y <= limit) || (next == page + 1 && y == 20)
  }

  /** One pass of the ranking loop: the line at x = 30 and 8 units after it, then a new page
      when the cursor has passed `limit`. */
  function RankStep(p: Block, it: Item, wrap: Item -> nat, limit: int): Block
  {
    var q := Down(Write(p, it, 30, p.end.y, wrap), 8);
    if q.end.y > limit then NewPage(q) else q
  }

  lemma RankStepFacts(p: Block, it: Item, wrap: Item -> nat, limit: int)
    ensures var b := RankStep(p, it, wrap, limit);
      && b.placed == p.placed + [Placed(it, p.end.page, 30, p.end.y)]
      && Continues(p.end.page, b.end.page, b.end.y, limit)
  {
  }

  /** The ranking loop. */
  function BreakAfter(c: Cursor, items: seq<Item>, wrap: Item -> nat, limit: int): (b: Block)
    ensures c.page <= b.end.page
  {
    if items == [] then Empty(c)
    else RankStep(BreakAfter(c, items[..|items| - 1], wrap, limit), items[|items| - 1], wrap, limit)
  }

  /** What the ranking loop writes: its items in order at x = 30, the first at the cursor;
      every later line, and the cursor left behind, either on the same page no lower than
      `limit` or at the top of the next page. */
  lemma {:induction false} BreakAfterFacts(c: Cursor, items: seq<Item>, wrap: Item -> nat, limit: int)
    ensures var b := BreakAfter(c, items, wrap, limit);
      var w := b.placed;
      && ItemsOf(w) == items
      && (forall i :: 0 <= i < |w| ==> w[i].x == 30)
      && (items != [] ==> w[0].page == c.page && w[0].y == c.y)
      && (forall i :: 0 < i < |w| ==> Continues(w[i - 1].page, w[i].page, w[i].y, limit))
      && (items != [] ==> Continues(w[|w| - 1].page, b.end.page, b.end.y, limit))
      && WithinPages(b)
  {
    if items != [] {
      var init := items[..|items| - 1];
      BreakAfterFacts(c, init, wrap, limit);
      var p := BreakAfter(c, init, wrap, limit);
      var pl := Placed(items[|items| - 1], p.end.page, 30, p.end.y);
      var b := BreakAfter(c, items, wrap, limit);
      RankStepFacts(p, pl.item, wrap, limit);
      ItemsOfSnoc(p.placed, pl);
      assert items == init + [pl.item];
      ChainSnoc(p.placed, pl, limit);
      WithinSnoc(p, pl, b.end);
    }
  }

  /** One pass of the recent-log loop: a new page first when the cursor has passed `limit`,
      then the line at x = 30 and 8 units after it. */
  function RecentStep(p: Block, it: Item, wrap: Item -> nat, limit: int): Block
  {
    var q := if p.end.y > limit then NewPage(p) else p;
    Down(Write(q, it, 30, q.end.y, wrap), 8)
  }

  lemma RecentStepFacts(p: Block, it: Item, wrap: Item -> nat, limit: int)
    ensures var b := RecentStep(p, it, wrap, limit);
      var pl := Placed(it, b.end.page, 30, if p.end.y > limit then 20 else p.end.y);
      && b.placed == p.placed + [pl]
      && Continues(p.end.page, pl.page, pl.y, limit)
  {
  }

  /** The recent-log loop. */
  function BreakBefore(c: Cursor, items: seq<Item>, wrap: Item -> nat, limit: int): (b: Block)
    ensures c.page <= b.end.page
  {
    if items == [] then Empty(c)
    else RecentStep(BreakBefore(c, items[..|items| - 1], wrap, limit), items[|items| - 1], wrap, limit)
  }

  /** What the recent-log loop writes: its items in order at x = 30, each either on the page
      of the one before (the cursor's page for the first) no lower than `limit`, or at the top
      of the next page. */
  lemma {:induction false} BreakBeforeFacts(c: Cursor, items: seq<Item>, wrap: Item -> nat, limit: int)
    ensures LaidOut(c, items, BreakBefore(c, items, wrap, limit), limit)
  {
    if items != [] {
      var init, it := items[..|items| - 1], items[|items| - 1];
      BreakBeforeFacts(c, init, wrap, limit);
      var p := BreakBefore(c, init, wrap, limit);
      var b := BreakBefore(c, items, wrap, limit);
      assert b == RecentStep(p, it, wrap, limit);
      RecentStepFacts(p, it, wrap, limit);
      if init == [] {
        assert p == Empty(c);
      }
      SnocSplit(items);
      var pl := Placed(it, b.end.page, 30, if p.end.y > limit then 20 else p.end.y);
      LaidOutSnoc(c, init, p, pl, b, limit);
    }
  }

  /** The shape of the recent log: the items in order, all at x = 30, each continuing from the
      one before (the first from the cursor's page), the cursor on the last one's page, and
      nothing past the cursor's page. */
  predicate LaidOut(c: Cursor, items: seq<Item>, b: Block, limit: int)
  {
    var w := b.placed;
    && ItemsOf(w) == items
    && (forall i :: 0 <= i < |w| ==> w[i].x == 30)
    && (items != [] ==> Continues(c.page, w[0].page, w[0].y, limit))
    && (forall i :: 0 < i < |w| ==> Continues(w[i - 1].page, w[i].page, w[i].y, limit))
    && (items != [] ==> b.end.page == w[|w| - 1].page)
    && WithinPages(b)
  }

  lemma LaidOutSnoc(c: Cursor, init: seq<Item>, p: Block, pl: Placed, b: Block, limit: int)
    requires LaidOut(c, init, p, limit)
    requires init == [] ==> p.end == c
    requires b.placed == p.placed + [pl]
    requires pl.x == 30 && pl.page == b.end.page && Continues(p.end.page, pl.page, pl.y, limit)
    ensures LaidOut(c, init + [pl.item], b, limit)
  {
    ItemsOfSnoc(p.placed, pl);
    if init != [] {
      ChainSnoc(p.placed, pl, limit);
    }
    WithinSnoc(p, pl, b.end);
  }

  /** One more line at x = 30 that continues from the last keeps the chain of `Continues`. */
  lemma ChainSnoc(w: seq<Placed>, pl: Placed, limit: int)
    requires forall i :: 0 <= i < |w| ==> w[i].x == 30
    requires forall i :: 0 < i < |w| ==> Continues(w[i - 1].page, w[i].page, w[i].y, limit)
    requires w != [] ==> Continues(w[|w| - 1].page, pl.page, pl.y, limit)
    requires pl.x == 30
    ensures var v := w + [pl];
      && (forall i :: 0 <= i < |v| ==> v[i].x == 30)
      && (forall i :: 0 < i < |v| ==> Continues(v[i - 1].page, v[i].page, v[i].y, limit))
      && v[0] == (if w == [] then pl else w[0]) && v[|v| - 1] == pl
  {
    var v := w + [pl];
    forall i | 0 < i < |v| ensures Continues(v[i - 1].page, v[i].page, v[i].y, limit) {
      assert v[i - 1] == w[i - 1];
      if i < |w| {
        assert v[i] == w[i];
      }
    }
  }

  /** One more line on a page no later than the new end keeps a stretch within its pages. */
  lemma WithinSnoc(b: Block, pl: Placed, end: Cursor)
    requires WithinPages(b) && b.end.page <= end.page && pl.page <= end.page
    ensures WithinPages(Block(b.placed + [pl], end))
  {
    var v := b.placed + [pl];
    forall i | 0 <= i < |v| ensures v[i].page <= end.page {
      if i < |b.placed| {
        assert v[i] == b.placed[i];
      }
    }
  }

  /** One line per `Object.entries(severityStats)` entry, with its count and share of `total`. */
  function SeverityItems(entries: Dict<nat>, total: nat): (items: seq<Item>)
    ensures |items| == |entries|
    ensures forall i :: 0 <= i < |entries| ==>
      items[i] == SeverityLine(entries[i].0, entries[i].1, Percentage(entries[i].1, total))
  {
    if entries == [] then []
    else
      var e := entries[|entries| - 1];
      SeverityItems(entries[..|entries| - 1], total) + [SeverityLine(e.0, e.1, Percentage(e.1, total))]
  }

  /** `${index + 1}. ${symptom}: ${count} occurrences`: the ranking numbered from 1. */
  function RankedItems(entries: Dict<nat>): (items: seq<Item>)
    ensures |items| == |entries|
    ensures forall i :: 0 <= i < |entries| ==> items[i] == Ranked(i + 1, entries[i].0, entries[i].1)
  {
    if entries == [] then []
    else
      var e := entries[|entries| - 1];
      RankedItems(entries[..|entries| - 1]) + [Ranked(|entries|, e.0, e.1)]
  }

  function RecentItems(recs: seq<Symptom>): (items: seq<Item>)
    ensures |items| == |recs|
    ensures forall i :: 0 <= i < |recs| ==> items[i] == Recent(recs[i])
  {
    if recs == [] then [] else RecentItems(recs[..|recs| - 1]) + [Recent(recs[|recs| - 1])]
  }

  function AdviceItems(advice: seq<Advice>): (items: seq<Item>)
    ensures |items| == |advice|
    ensures forall i :: 0 <= i < |advice| ==> items[i] == Recommendation(advice[i])
  {
    if advice == [] then [] else AdviceItems(advice[..|advice| - 1]) + [Recommendation(advice[|advice| - 1])]
  }

  // ---------------------------------------------------------------- the whole report

  /** The inputs the report is generated from: the selected range, the filtered records (newest
      first), the number of allergies, the severity statistics, the frequency ranking, the day
      of generation, the engine's word wrap and the page height. */
  datatype Input = Input(
    timeRange: Reports.TimeRange,
    filtered: seq<Symptom>,
    allergyCount: nat,
    stats: Dict<nat>,
    freq: Dict<nat>,
    today: int,
    wrap: Item -> nat,
    height: int)

  /** The average avgPerDay carries, in tenths. */
  function Tenths(input: Input): int
  {
    AverageTenths(|input.filtered|, input.timeRange.Days())
  }

  /** The summary the header shows. */
  function SummaryOf(input: Input): Summary
  {
    Summary(PeriodLabel(input.timeRange.Value()), |input.filtered|, Tenths(input), input.allergyCount,
            Reports.UniqueSymptoms(input.freq), input.today)
  }

  function HeaderOf(input: Input): Block
  {
    Header(SummaryOf(input), input.wrap)
  }

  function SeverityOf(input: Input): seq<Item>
  {
    SeverityItems(OwnEntries(input.stats), Total(input.stats))
  }

  /** The document once the severity lines have been written. */
  function AfterSeverity(input: Input): Block
  {
    var h := HeaderOf(input);
    Then(h, Lines(h.end, SeverityOf(input), 30, 8, input.wrap))
  }

  /** A section heading 15 below the cursor, and the cursor 10 below it. */
  function Headed(d: Block, s: Section, wrap: Item -> nat): Block
  {
    Down(Write(d, Heading(s), 20, d.end.y + 15, wrap), 10)
  }

  /** The ranking under its heading, written after `s`. */
  function FrequencyPart(s: Block, ranked: seq<Item>, wrap: Item -> nat, height: int): Block
  {
    var m := Headed(s, MostCommonSymptoms, wrap);
    Then(m, BreakAfter(m.end, ranked, wrap, height - 40))
  }

  /** The recent log under its heading, written after `f` when its cursor is above
      `height - 80`; nothing otherwise. */
  function RecentPart(f: Block, recent: seq<Item>, wrap: Item -> nat, height: int): Block
  {
    if f.end.y < height - 80 then
      var h := Headed(f, RecentSymptomLog, wrap);
      Then(h, BreakBefore(h.end, recent, wrap, height - 30))
    else f
  }

  /** The recommendations heading on a new page after `r`. */
  function LastPageTop(r: Block, wrap: Item -> nat): Block
  {
    Down(Write(NewPage(r), Heading(Recommendations), 20, 20, wrap), 15)
  }

  /** The recommendations page after `r`: the heading, the advice, the footer. */
  function LastPage(r: Block, advice: seq<Advice>, wrap: Item -> nat, height: int): Block
  {
    var h := LastPageTop(r, wrap);
    Text(Then(h, Lines(h.end, AdviceItems(advice), 20, 20, wrap)), Footer, 20, height - 20)
  }

  /** The document once the ranking has been written. */
  function AfterFrequency(input: Input): Block
  {
    FrequencyPart(AfterSeverity(input), RankedItems(Take(input.freq, 10)), input.wrap, input.height)
  }

  /** Whether the recent log is written: the cursor is above `height - 80` after the ranking. */
  predicate RecentShown(input: Input)
  {
    AfterFrequency(input).end.y < input.height - 80
  }

  /** The document once the recent log, if any, has been written. */
  function AfterRecent(input: Input): Block
  {
    RecentPart(AfterFrequency(input), RecentItems(Take(input.filtered, 15)), input.wrap, input.height)
  }

  function AdvicesOf(input: Input): seq<Advice>
  {
    Advices(input.stats, Tenths(input), input.allergyCount, input.freq)
  }

  /** The finished document. */
  function Layout(input: Input): Block
  {
    LastPage(AfterRecent(input), AdvicesOf(input), input.wrap, input.height)
  }

  /** The recent log's part of the report's text: its heading and lines when there is room. */
  function RecentShownItems(input: Input): seq<Item>
  {
    if RecentShown(input) then [Heading(RecentSymptomLog)] + RecentItems(Take(input.filtered, 15)) else []
  }

  /** What the recommendations page holds, in order. */
  function LastPageItems(advice: seq<Advice>): seq<Item>
  {
    [Heading(Recommendations)] + AdviceItems(advice) + [Footer]
  }

  /** Everything the report writes, in order. */
  function ReportItems(input: Input): seq<Item>
  {
    HeaderItems(SummaryOf(input)) + SeverityOf(input)
    + [Heading(MostCommonSymptoms)] + RankedItems(Take(input.freq, 10))
    + RecentShownItems(input)
    + LastPageItems(AdvicesOf(input))
  }

  /** The header and the severity lines, all on the first page. */
  lemma AfterSeverityFacts(input: Input)
    ensures var s := AfterSeverity(input);
      && ItemsOf(s.placed) == HeaderItems(SummaryOf(input)) + SeverityOf(input)
      && WithinPages(s) && s.end.page == 0
  {
    var h := HeaderOf(input);
    HeaderFacts(SummaryOf(input), input.wrap);
    HeaderPage(SummaryOf(input), input.wrap);
    var l := Lines(h.end, SeverityOf(input), 30, 8, input.wrap);
    LinesFacts(h.end, SeverityOf(input), 30, 8, input.wrap);
    ItemsOfAppend(h.placed, l.placed);
    ThenWithin(h, l);
  }

  /** A heading keeps a document within its pages and adds one item. */
  lemma HeadedFacts(d: Block, s: Section, wrap: Item -> nat)
    requires WithinPages(d)
    ensures var h := Headed(d, s, wrap);
      && h.placed == d.placed + [Placed(Heading(s), d.end.page, 20, d.end.y + 15)]
      && h.end.page == d.end.page && WithinPages(h)
      && ItemsOf(h.placed) == ItemsOf(d.placed) + [Heading(s)]
  {
    ItemsOfSnoc(d.placed, Placed(Heading(s), d.end.page, 20, d.end.y + 15));
  }

  /** The ranking adds its heading and its lines, and goes back no page. */
  lemma FrequencyPartFacts(s: Block, ranked: seq<Item>, wrap: Item -> nat, height: int)
    requires WithinPages(s)
    ensures var f := FrequencyPart(s, ranked, wrap, height);
      && ItemsOf(f.placed) == ItemsOf(s.placed) + [Heading(MostCommonSymptoms)] + ranked
      && WithinPages(f) && s.end.page <= f.end.page
  {
    var m := Headed(s, MostCommonSymptoms, wrap);
    HeadedFacts(s, MostCommonSymptoms, wrap);
    var k := BreakAfter(m.end, ranked, wrap, height - 40);
    BreakAfterFacts(m.end, ranked, wrap, height - 40);
    ItemsOfAppend(m.placed, k.placed);
    ThenWithin(m, k);
  }

  /** The recent log, when written, adds its heading and its lines, and goes back no page. */
  lemma RecentPartFacts(f: Block, recent: seq<Item>, wrap: Item -> nat, height: int)
    requires WithinPages(f)
    ensures var r := RecentPart(f, recent, wrap, height);
      && ItemsOf(r.placed) == ItemsOf(f.placed)
           + (if f.end.y < height - 80 then [Heading(RecentSymptomLog)] + recent else [])
      && WithinPages(r) && f.end.page <= r.end.page
  {
    if f.end.y < height - 80 {
      RecentLogFacts(f, recent, wrap, height - 30);
    } else {
      assert ItemsOf(f.placed) + [] == ItemsOf(f.placed);
    }
  }

  /** The recent log under its heading adds both, and goes back no page. */
  lemma RecentLogFacts(f: Block, recent: seq<Item>, wrap: Item -> nat, limit: int)
    requires WithinPages(f)
    ensures var h := Headed(f, RecentSymptomLog, wrap);
      var r := Then(h, BreakBefore(h.end, recent, wrap, limit));
      && ItemsOf(r.placed) == ItemsOf(f.placed) + ([Heading(RecentSymptomLog)] + recent)
      && WithinPages(r) && f.end.page <= r.end.page
  {
    var h := Headed(f, RecentSymptomLog, wrap);
    HeadedFacts(f, RecentSymptomLog, wrap);
    var b := BreakBefore(h.end, recent, wrap, limit);
    BreakBeforeFacts(h.end, recent, wrap, limit);
    ItemsOfAppend(h.placed, b.placed);
    ThenWithin(h, b);
  }

  /** The recommendations page `d` is a page of its own after `r`: everything before it is on
      earlier pages, and it holds the heading at (20, 20), the advice one below the other in
      order, and the footer `height - 20` down. */
  predicate LastPageShape(r: Block, d: Block, advice: seq<Advice>, height: int)
  {
    var w := d.placed;
    var m := |r.placed|;
    && |w| == m + |advice| + 2 && w[..m] == r.placed
    && d.end.page == r.end.page + 1
    && WithinPages(d)
    && (forall i :: 0 <= i < m ==> w[i].page < d.end.page)
    && (forall i :: m <= i < |w| ==> w[i].page == d.end.page)
    && w[m] == Placed(Heading(Recommendations), d.end.page, 20, 20)
    && w[|w| - 1] == Placed(Footer, d.end.page, 20, height - 20)
    && ItemsOf(w[m..]) == LastPageItems(advice)
  }

  lemma LastPageFacts(r: Block, advice: seq<Advice>, wrap: Item -> nat, height: int)
    requires WithinPages(r)
    ensures LastPageShape(r, LastPage(r, advice, wrap, height), advice, height)
    ensures ItemsOf(LastPage(r, advice, wrap, height).placed) == ItemsOf(r.placed) + LastPageItems(advice)
  {
    var h := LastPageTop(r, wrap);
    var hp := Placed(Heading(Recommendations), r.end.page + 1, 20, 20);
    var l := Lines(h.end, AdviceItems(advice), 20, 20, wrap);
    LinesFacts(h.end, AdviceItems(advice), 20, 20, wrap);
    var fp := Placed(Footer, r.end.page + 1, 20, height - 20);
    assert LastPage(r, advice, wrap, height) == Block(r.placed + [hp] + l.placed + [fp], l.end);
    Sandwich(r, hp, l.placed, fp, r.end.page + 1);
  }

  /** A page of its own after `r`: an opening line, the lines `l` and a closing line. */
  lemma Sandwich(r: Block, hp: Placed, l: seq<Placed>, fp: Placed, page: nat)
    requires WithinPages(r) && r.end.page < page && hp.page == page && fp.page == page
    requires forall i :: 0 <= i < |l| ==> l[i].page == page
    ensures var w := r.placed + [hp] + l + [fp];
      var m := |r.placed|;
      && w[..m] == r.placed && |w| == m + |l| + 2
      && WithinPages(Block(w, Cursor(page, 0)))
      && (forall i :: 0 <= i < m ==> w[i].page < page)
      && (forall i :: m <= i < |w| ==> w[i].page == page)
      && w[m] == hp && w[|w| - 1] == fp
      && ItemsOf(w[m..]) == [hp.item] + ItemsOf(l) + [fp.item]
      && ItemsOf(w) == ItemsOf(r.placed) + ([hp.item] + ItemsOf(l) + [fp.item])
  {
    SandwichPages(r, hp, l, fp, page);
    SandwichItems(r.placed, hp, l, fp);
  }

  lemma SandwichPages(r: Block, hp: Placed, l: seq<Placed>, fp: Placed, page: nat)
    requires WithinPages(r) && r.end.page < page && hp.page == page && fp.page == page
    requires forall i :: 0 <= i < |l| ==> l[i].page == page
    ensures var w := r.placed + [hp] + l + [fp];
      var m := |r.placed|;
      && (forall i :: 0 <= i < m ==> w[i].page < page)
      && (forall i :: m <= i < |w| ==> w[i].page == page)
      && WithinPages(Block(w, Cursor(page, 0)))
  {
    var tail := [hp] + l + [fp];
    var w := r.placed + [hp] + l + [fp];
    var m := |r.placed|;
    AppendParts(r.placed, hp, l, fp);
    forall i | 0 <= i < m ensures w[i].page < page {
      assert w[i] == r.placed[i];
    }
    forall i | m <= i < |w| ensures w[i].page == page {
      assert w[i] == tail[i - m];
      if m < i < |w| - 1 {
        assert tail[i - m] == l[i - m - 1];
      }
    }
  }

  lemma SandwichItems(a: seq<Placed>, hp: Placed, l: seq<Placed>, fp: Placed)
    ensures var w := a + [hp] + l + [fp];
      && ItemsOf(w[|a|..]) == [hp.item] + ItemsOf(l) + [fp.item]
      && ItemsOf(w) == ItemsOf(a) + ([hp.item] + ItemsOf(l) + [fp.item])
  {
    var tail := [hp] + l + [fp];
    AppendParts(a, hp, l, fp);
    ItemsOfAppend(a, tail);
    ItemsOfAppend([hp], l);
    ItemsOfAppend([hp] + l, [fp]);
    assert ItemsOf([hp]) == [hp.item] && ItemsOf([fp]) == [fp.item];
  }

  /** Everything the report writes before its last page stays within its pages. */
  lemma AfterRecentWithin(input: Input)
    ensures WithinPages(AfterRecent(input))
    ensures ItemsOf(AfterRecent(input).placed)
         == HeaderItems(SummaryOf(input)) + SeverityOf(input)
            + [Heading(MostCommonSymptoms)] + RankedItems(Take(input.freq, 10))
            + RecentShownItems(input)
  {
    var s, f := AfterSeverity(input), AfterFrequency(input);
    var ranked, recent := RankedItems(Take(input.freq, 10)), RecentItems(Take(input.filtered, 15));
    AfterSeverityFacts(input);
    FrequencyPartFacts(s, ranked, input.wrap, input.height);
    var before := HeaderItems(SummaryOf(input)) + SeverityOf(input) + [Heading(MostCommonSymptoms)] + ranked;
    assert ItemsOf(f.placed) == before;
    var r := AfterRecent(input);
    assert r == RecentPart(f, recent, input.wrap, input.height);
    RecentPartFacts(f, recent, input.wrap, input.height);
    var shown := RecentShownItems(input);
    if RecentShown(input) {
      assert shown == [Heading(RecentSymptomLog)] + recent;
      assert ItemsOf(r.placed) == before + shown;
    } else {
      assert shown == [];
      assert ItemsOf(r.placed) == before + shown;
    }
  }

  /** The recommendations page is the last page and a page of its own. */
  lemma RecommendationsPage(input: Input)
    ensures LastPageShape(AfterRecent(input), Layout(input), AdvicesOf(input), input.height)
  {
    AfterRecentWithin(input);
    LastPageFacts(AfterRecent(input), AdvicesOf(input), input.wrap, input.height);
  }

  /** The report writes its header, the severity lines, the ranking, the log when there is
      room, and the recommendations page, in that order and nothing else. */
  lemma LayoutContents(input: Input)
    ensures ItemsOf(Layout(input).placed) == ReportItems(input)
  {
    AfterRecentWithin(input);
    LastPageFacts(AfterRecent(input), AdvicesOf(input), input.wrap, input.height);
  }

  /** `allergy-report-<YYYY-MM-DD>.pdf`, the date being the UTC day of generation. */
  function FileName(now: int): string
  {
    "allergy-report-" + Calendar.IsoDate(Calendar.DayNumber(now)) + ".pdf"
  }

  /** The file name carries the generation day: its middle part reads back as that day. */
  lemma FileNameDay(now: int)
    ensures var f := FileName(now);
      && |f| >= 19 && f[..15] == "allergy-report-" && f[|f| - 4..] == ".pdf"
      && Calendar.ParseIsoDate(f[15..|f| - 4]) == Some(Calendar.DayNumber(now))
  {
    NameParts(Calendar.IsoDate(Calendar.DayNumber(now)));
    Calendar.IsoDateRoundTrip(Calendar.DayNumber(now));
  }

  lemma NameParts(d: string)
    ensures var f := "allergy-report-" + d + ".pdf";
      && |f| == |d| + 19 && f[..15] == "allergy-report-" && f[|f| - 4..] == ".pdf" && f[15..|f| - 4] == d
  {
    var f := "allergy-report-" + d + ".pdf";
    assert f[15..|f| - 4] == d;
  }

  /** `{ success: true, fileName }`, with what was written and on how many pages. */
  datatype Report = Report(placed: seq<Placed>, pages: nat, fileName: string)

  /** The report of a finished document: its placements, its pages counted from 1, and the
      file name of the day. */
  function ReportOf(d: Block, now: int): Report
  {
    Report(d.placed, d.end.page + 1, FileName(now))
  }

  /** `generatePDFReport`. `engineOk` is false when the PDF engine fails to load or throws, and
      then the call fails with the message it rethrows. Otherwise the result is the layout
      specified block by block above, on `end.page + 1` pages, and the file name of the day. */
  method GenerateReport(input: Input, now: int, engineOk: bool) returns (r: Result<Report>)
    ensures !engineOk ==> r == Err("Failed to generate PDF report")
    ensures engineOk ==> r == Ok(ReportOf(Layout(input), now))
  {
    if !engineOk {
      r := Err("Failed to generate PDF report");
    } else {
      var doc := WriteLayout(input);
      r := Ok(ReportOf(doc, now));
    }
  }

  /** The body of `generatePDFReport`: the document written with one cursor moving down the
      pages. */
  method WriteLayout(input: Input) returns (doc: Block)
    ensures doc == Layout(input)
  {
    var avgPerDay := AverageTenths(|input.filtered|, input.timeRange.Days());
    var sum := Summary(PeriodLabel(input.timeRange.Value()), |input.filtered|, avgPerDay, input.allergyCount,
                       Reports.UniqueSymptoms(input.freq), input.today);
    doc := WriteHeader(sum, input.wrap);
    doc := WriteLines(doc, SeverityItems(OwnEntries(input.stats), Total(input.stats)), 30, 8, input.wrap);
    doc := WriteRanking(doc, RankedItems(Take(input.freq, 10)), input.wrap, input.height);
    doc := WriteRecent(doc, RecentItems(Take(input.filtered, 15)), input.wrap, input.height);
    doc := WriteRecommendations(doc, input.stats, avgPerDay, input.allergyCount, input.freq, input.wrap, input.height);
  }

  /** The header and summary statements, one `addText` after another. */
  method WriteHeader(sum: Summary, wrap: Item -> nat) returns (doc: Block)
    ensures doc == Header(sum, wrap)
  {
    doc := Write(Empty(Fresh), Title, 20, 20, wrap);
    doc := MoveTo(doc, 50);
    doc := Write(doc, Period(sum.period), 20, doc.end.y, wrap);
    doc := Write(doc, GeneratedOn(sum.today), 20, doc.end.y + 10, wrap);
    doc := Down(doc, 20);
    doc := Write(doc, Heading(SummaryStatistics), 20, doc.end.y, wrap);
    doc := Down(doc, 10);
    doc := Write(doc, TotalLogged(sum.count), 30, doc.end.y, wrap);
    doc := Write(doc, AveragePerDay(sum.average), 30, doc.end.y + 8, wrap);
    doc := Write(doc, TrackedAllergies(sum.allergies), 30, doc.end.y + 8, wrap);
    doc := Write(doc, UniqueTypes(sum.unique), 30, doc.end.y + 8, wrap);
    doc := Down(doc, 20);
    doc := Write(doc, Heading(SeverityDistribution), 20, doc.end.y, wrap);
    doc := Down(doc, 10);
  }

  /** A `forEach` writing one line per item at `x`, `gap` below the one before: the
      severity lines. */
  method WriteLines(start: Block, items: seq<Item>, x: int, gap: nat, wrap: Item -> nat) returns (doc: Block)
    ensures doc == Then(start, Lines(start.end, items, x, gap, wrap))
  {
    doc := start;
    for i := 0 to |items|
      invariant doc == Then(start, Lines(start.end, items[..i], x, gap, wrap))
    {
      PrefixSnoc(items, i);
      LinesSnoc(start, items[..i], items[i], x, gap, wrap);
      doc := Down(Write(doc, items[i], x, doc.end.y, wrap), gap);
    }
    PrefixAll(items);
  }

  /** The ranking: its heading, then the lines. */
  method WriteRanking(s: Block, ranked: seq<Item>, wrap: Item -> nat, height: int) returns (doc: Block)
    ensures doc == FrequencyPart(s, ranked, wrap, height)
  {
    doc := Down(s, 15);
    doc := Write(doc, Heading(MostCommonSymptoms), 20, doc.end.y, wrap);
    doc := Down(doc, 10);
    doc := WriteBreakAfter(doc, ranked, wrap, height - 40);
  }

  /** The ranking's `forEach`: each line, then the page check. */
  method WriteBreakAfter(start: Block, items: seq<Item>, wrap: Item -> nat, limit: int) returns (doc: Block)
    ensures doc == Then(start, BreakAfter(start.end, items, wrap, limit))
  {
    doc := start;
    for i := 0 to |items|
      invariant doc == Then(start, BreakAfter(start.end, items[..i], wrap, limit))
    {
      PrefixSnoc(items, i);
      BreakAfterSnoc(start, items[..i], items[i], wrap, limit);
      ghost var before := doc;
      doc := Down(Write(doc, items[i], 30, doc.end.y, wrap), 8);
      if doc.end.y > limit {
        doc := NewPage(doc);
      }
      assert doc == RankStep(before, items[i], wrap, limit);
    }
    assert items[..|items|] == items;
  }

  /** The recent log when there is room: its heading, then the lines. */
  method WriteRecent(f: Block, recent: seq<Item>, wrap: Item -> nat, height: int) returns (doc: Block)
    ensures doc == RecentPart(f, recent, wrap, height)
  {
    if f.end.y < height - 80 {
      doc := Down(f, 15);
      doc := Write(doc, Heading(RecentSymptomLog), 20, doc.end.y, wrap);
      doc := Down(doc, 10);
      doc := WriteBreakBefore(doc, recent, wrap, height - 30);
    } else {
      doc := f;
    }
  }

  /** The recent log's `forEach`: the page check, then each line. */
  method WriteBreakBefore(start: Block, items: seq<Item>, wrap: Item -> nat, limit: int) returns (doc: Block)
    ensures doc == Then(start, BreakBefore(start.end, items, wrap, limit))
  {
    doc := start;
    for i := 0 to |items|
      invariant doc == Then(start, BreakBefore(start.end, items[..i], wrap, limit))
    {
      PrefixSnoc(items, i);
      BreakBeforeSnoc(start, items[..i], items[i], wrap, limit);
      ghost var before := doc;
      if doc.end.y > limit {
        doc := NewPage(doc);
      }
      doc := Down(Write(doc, items[i], 30, doc.end.y, wrap), 8);
      assert doc == RecentStep(before, items[i], wrap, limit);
    }
    assert items[..|items|] == items;
  }

  /** One more pass of the ranking loop after a stretch. */
  lemma BreakAfterSnoc(start: Block, items: seq<Item>, it: Item, wrap: Item -> nat, limit: int)
    ensures Then(start, BreakAfter(start.end, items + [it], wrap, limit))
         == RankStep(Then(start, BreakAfter(start.end, items, wrap, limit)), it, wrap, limit)
  {
    assert (items + [it])[..|items|] == items;
    var p := BreakAfter(start.end, items, wrap, limit);
    ThenWrite(start, p, it, 30, p.end.y, wrap);
  }

  /** One more pass of the recent-log loop after a stretch. */
  lemma BreakBeforeSnoc(start: Block, items: seq<Item>, it: Item, wrap: Item -> nat, limit: int)
    ensures Then(start, BreakBefore(start.end, items + [it], wrap, limit))
         == RecentStep(Then(start, BreakBefore(start.end, items, wrap, limit)), it, wrap, limit)
  {
    assert (items + [it])[..|items|] == items;
    var p := BreakBefore(start.end, items, wrap, limit);
    var q := if p.end.y > limit then NewPage(p) else p;
    ThenWrite(start, q, it, 30, q.end.y, wrap);
  }

  /** The recommendations page: a new page, the heading, the advice and the footer. */
  method WriteRecommendations(r: Block, stats: Dict<nat>, avgPerDay: int, allergyCount: nat, freq: Dict<nat>,
                              wrap: Item -> nat, height: int) returns (doc: Block)
    ensures doc == LastPage(r, Advices(stats, avgPerDay, allergyCount, freq), wrap, height)
  {
    doc := NewPage(r);
    doc := Write(doc, Heading(Recommendations), 20, doc.end.y, wrap);
    doc := Down(doc, 15);
    var start := doc;
    doc := WriteAdvice(doc, stats, avgPerDay, allergyCount, freq, wrap);
    AdviceBlockLines(start, stats, avgPerDay, allergyCount, freq, wrap);
    doc := Text(doc, Footer, 20, height - 20);
  }

  /** One recommendation, and the cursor 20 below it. */
  function Say(d: Block, a: Advice, wrap: Item -> nat): Block
  {
    Down(Write(d, Recommendation(a), 20, d.end.y, wrap), 20)
  }

  function SayIf(d: Block, cond: bool, a: Advice, wrap: Item -> nat): Block
  {
    if cond then Say(d, a, wrap) else d
  }

  /** The checks of the recommendations page, one after another. */
  function AdviceBlock(start: Block, stats: Dict<nat>, tenths: int, allergyCount: nat, freq: Dict<nat>,
                       wrap: Item -> nat): Block
  {
    var d4 := ChecksBlock(start, SevereRule(stats), tenths > 30, allergyCount == 0, wrap);
    if freq != [] then Say(d4, Focus(freq[0].0), wrap) else d4
  }

  /** The four checks that do not name a symptom. */
  function ChecksBlock(start: Block, severe: bool, often: bool, none: bool, wrap: Item -> nat): Block
  {
    Say(SayIf(SayIf(SayIf(start, severe, SevereShare, wrap), often, HighFrequency, wrap), none, AddAllergies, wrap),
        KeepLogging, wrap)
  }

  /** Each advice whose condition holds, in the order of the checks, 20 below the one before. */
  method WriteAdvice(start: Block, stats: Dict<nat>, avgPerDay: int, allergyCount: nat, freq: Dict<nat>,
                     wrap: Item -> nat) returns (doc: Block)
    ensures doc == AdviceBlock(start, stats, avgPerDay, allergyCount, freq, wrap)
  {
    doc := start;
    if SevereRule(stats) {
      doc := Down(Write(doc, Recommendation(SevereShare), 20, doc.end.y, wrap), 20);
    }
    if avgPerDay > 30 {
      doc := Down(Write(doc, Recommendation(HighFrequency), 20, doc.end.y, wrap), 20);
    }
    if allergyCount == 0 {
      doc := Down(Write(doc, Recommendation(AddAllergies), 20, doc.end.y, wrap), 20);
    }
    doc := Down(Write(doc, Recommendation(KeepLogging), 20, doc.end.y, wrap), 20);
    if freq != [] {
      doc := Down(Write(doc, Recommendation(Focus(freq[0].0)), 20, doc.end.y, wrap), 20);
    }
  }

  /** The checks write exactly the recommendations `Advices` lists, as lines 20 apart. */
  lemma AdviceBlockLines(start: Block, stats: Dict<nat>, tenths: int, allergyCount: nat, freq: Dict<nat>,
                         wrap: Item -> nat)
    ensures AdviceBlock(start, stats, tenths, allergyCount, freq, wrap)
         == Then(start, Lines(start.end, AdviceItems(Advices(stats, tenths, allergyCount, freq)), 20, 20, wrap))
  {
    var checks := Checks(SevereRule(stats), tenths > 30, allergyCount == 0);
    ChecksLines(start, SevereRule(stats), tenths > 30, allergyCount == 0, wrap);
    if freq != [] {
      AdviceSnoc(start, checks, Focus(freq[0].0), wrap);
    }
  }

  lemma ChecksLines(start: Block, severe: bool, often: bool, none: bool, wrap: Item -> nat)
    ensures ChecksBlock(start, severe, often, none, wrap)
         == Then(start, Lines(start.end, AdviceItems(Checks(severe, often, none)), 20, 20, wrap))
  {
    assert Then(start, Lines(start.end, AdviceItems([]), 20, 20, wrap)) == start;
    var o1 := Given([], severe, SevereShare);
    SayIfLines(start, [], severe, SevereShare, wrap);
    var o2 := Given(o1, often, HighFrequency);
    SayIfLines(start, o1, often, HighFrequency, wrap);
    var o3 := Given(o2, none, AddAllergies);
    SayIfLines(start, o2, none, AddAllergies, wrap);
    AdviceSnoc(start, o3, KeepLogging, wrap);
  }

  /** A recommendation given or not after the lines already written. */
  lemma SayIfLines(start: Block, shown: seq<Advice>, cond: bool, a: Advice, wrap: Item -> nat)
    ensures SayIf(Then(start, Lines(start.end, AdviceItems(shown), 20, 20, wrap)), cond, a, wrap)
         == Then(start, Lines(start.end, AdviceItems(Given(shown, cond, a)), 20, 20, wrap))
  {
    if cond {
      AdviceSnoc(start, shown, a, wrap);
    } else {
      assert Given(shown, cond, a) == shown;
    }
  }

  /** Writing one more line after a stretch extends its `Lines` by that line. */
  lemma LinesSnoc(start: Block, items: seq<Item>, it: Item, x: int, gap: nat, wrap: Item -> nat)
    ensures var p := Then(start, Lines(start.end, items, x, gap, wrap));
      Then(start, Lines(start.end, items + [it], x, gap, wrap)) == Down(Write(p, it, x, p.end.y, wrap), gap)
  {
    assert (items + [it])[..|items|] == items;
    var l := Lines(start.end, items, x, gap, wrap);
    ThenWrite(start, l, it, x, l.end.y, wrap);
  }

  lemma AdviceSnoc(start: Block, shown: seq<Advice>, a: Advice, wrap: Item -> nat)
    ensures var p := Then(start, Lines(start.end, AdviceItems(shown), 20, 20, wrap));
      Then(start, Lines(start.end, AdviceItems(shown + [a]), 20, 20, wrap))
        == Down(Write(p, Recommendation(a), 20, p.end.y, wrap), 20)
  {
    assert (shown + [a])[..|shown|] == shown;
    LinesSnoc(start, AdviceItems(shown), Recommendation(a), 20, 20, wrap);
  }
}
