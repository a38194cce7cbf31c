# AllergenAI — a Dafny model of its pages and report generator

AllergenAI is a Next.js web application. Someone signed in through Firebase Authentication
records the allergies they have and logs allergy symptoms in two Firestore collections, and
the app shows them in four pages:

- the **dashboard**: recent symptoms, a severity breakdown, pollen and air-quality colours;
- the **symptoms log**: add, edit, delete and filter symptoms;
- **My Allergies**: add one from a fixed catalogue, or delete one;
- the **reports** page: a time-range filter with statistics, a ranking of the most frequent
  symptoms and weekly trends. From there it exports a PDF health report.

The `useAuth` hook holds who is signed in and drives the login and sign-up modals.

This project models those six parts. Each handler that changes page state is a method of a
class whose fields are that state. Each computation the pages render is a function. The
properties the pages rely on are stated as contracts and lemmas.

The modules:

- `Wrappers`: `Option` and `Result`.
- `Seqs`: filtering, counting, taking, and a stable descending insertion sort: what
  `Array.prototype.sort` guarantees (ES2019).
- `JsObject`: plain JavaScript objects used as dictionaries, as insertion-ordered key/value
  lists.
  - `obj[k] = (obj[k] || 0) + 1` is `Increment`; a run of such updates is `Tally`.
  - `Object.entries` is `OwnEntries`. It lists array-index keys ("0", "7", …) first, in
    numeric order, and the other keys in insertion order, as the language defines it.
- `Records`: the `symptoms` and `allergies` documents, the per-user queries, newest-first
  sorting.
- `Calendar`: the UTC part of `Date`.
  - Day numbers, `getDay`, the Sunday that starts a week, `toISOString().split('T')[0]`,
    and `new Date("YYYY-MM-DD")`.
  - The conversion between day numbers and calendar dates is proved to be a bijection.
- `SeverityCounts`: the severity counter shared by the dashboard and the reports page, and
  percentages.
- `Reports`, `WeeklyTrends`, `PdfReport`: the reports page, its weekly trends and
  `generatePDFReport`.
- `Dashboard`, `SymptomsLog`, `MyAllergies`: the other pages.
- `Auth`: `useAuth`.

External effects are inputs of the model:

- **Firebase calls.** Each call is represented by its outcome:
  - a `Result` of the documents read;
  - `AddOutcome` (`Added(id)` or `Failed`) for `addDoc`;
  - a `bool` for `deleteDoc`, `updateDoc` and `signOut`;
  - a `Result` for each authentication call.
- **The clock.** It is `now`, in milliseconds since the epoch.
- **The PDF engine.** It is reduced to two inputs:
  - `wrap`: how many lines `splitTextToSize` gives each text item;
  - `height`: the page height.

Three behaviours of the code worth knowing:

- **Negative time range.** The "Next 5 days" option (`"-5"`) puts the cut-off five days
  ahead. Every record dated after it is kept: there is no upper bound on the window
  (`Reports.NegativeRangeIsFuture`). The PDF labels that period "year"
  (`PdfReport.PeriodOfOptions`).
- **Tie order in the ranking.** Equal counts keep first-seen order only for names that are not
  array indices (`Reports.FrequencyTiesFirstSeen`). That covers every catalogue name. Names
  such as "7" and "3" come out in numeric order (`Reports.FrequencyIndexNamesReordered`),
  because that is the order `Object.entries` lists them in.
- **Zero-day window.** No option of the selector gives a zero-day window
  (`Reports.TimeRange.Days`). The average is therefore defined only for a non-zero day count.

## Model

| member | source | states |
|---|---|---|
| `Reports.TimeRange.Days` | src/app/reports/page.js:209-213 | each option's day count is non-zero, and negative exactly for "Next 5 days" |
| `Reports.ParseIntOfValue` | src/app/reports/page.js:89 | `parseInt` of every option's value text is that option's day count |
| `Reports.FilteredSymptoms` | src/app/reports/page.js:88-94 | a record is kept exactly when it was in the list and is dated at or after `now - days·86400000`; never more records than given |
| `Reports.FilteredKeepsOrder` | src/app/reports/page.js:93 | filtering distributes over concatenation, so it keeps the records' relative order |
| `Reports.NegativeRangeIsFuture` | src/app/reports/page.js:89-93 | with a negative day count every kept record is dated after `now` |
| `Reports.FilteredNewestPrefix` | src/app/reports/page.js:65 | on the newest-first list the filter keeps a prefix, and every record after it is older than the cut-off |
| `Reports.SortedFilterPrefix` | src/app/reports/page.js:93 | the filter of a descending list is the prefix of records at or after the cut-off |
| `Reports.RecentLog` | src/app/reports/page.js:386 | the recent log is the window's first fifteen records, or the whole window when it holds fewer |
| `Reports.RecentLogIsNewest` | src/app/reports/page.js:65 | after the fetch's sort, no record of the window left out of the recent log is newer than one shown |
| `Reports.AverageCard` | src/app/reports/page.js:264 | the card shows the integer nearest to ten times count/days, halves going up, in tenths |
| `Reports.SeverityStats` | src/app/reports/page.js:96-103 | the four known keys come first; each severity's count is its number of records in the window; the counts add up to the window's size |
| `Reports.Rows` | src/app/reports/page.js:282-284 | one bar per entry, keeping its key and count and giving it its percentage of the total |
| `Reports.SeverityRows` | src/app/reports/page.js:282-284 | one bar per statistics entry in `Object.entries` order; with a zero total every share is 0 |
| `Reports.SumPercentOfRows` | src/app/reports/page.js:284 | the shares times the total give a hundred times the sum of the counts |
| `Reports.SeverityRowsSumTo100` | src/app/reports/page.js:282-284 | when the window has records the shares add up to exactly 100, unknown severities included |
| `Reports.RowsSumTo100` | src/app/reports/page.js:283-284 | bars built against their own total add up to 100 |
| `Reports.SymptomFrequency` | src/app/reports/page.js:105-114 | at most ten entries, ten unless fewer names occur; distinct names, each with its exact count in the window; counts non-increasing; a name left out occurs no more often than the tenth entry |
| `Reports.FrequencyStep` | src/app/reports/page.js:108-110 | one more record bumps its name's count in the tally of the prefix |
| `Reports.TopSymptomsFacts` | src/app/reports/page.js:111-113 | the ranking has `min(10, distinct names)` entries with distinct keys |
| `Reports.TopSymptomsShape` | src/app/reports/page.js:111-113 | the ranking is sorted by descending count, duplicate-free, and drawn from the frequency object |
| `Reports.TopSymptomsCounts` | src/app/reports/page.js:108-113 | every ranked entry holds its name's exact number of occurrences, at least one |
| `Reports.EntryCounted` | src/app/reports/page.js:109 | an entry of a tally whose keys occur among the names counts a name that occurs |
| `Reports.TopSymptomsLeftOut` | src/app/reports/page.js:113 | a name of the window missing from the ranking means ten entries were kept, each counted at least as often |
| `Reports.FrequencyTiesFirstSeen` | src/app/reports/page.js:111-112 | with names that are not array indices, the keys are in first-seen order and entries of equal count stay in that order |
| `Reports.FrequencyKeysNotIndex` | src/app/reports/page.js:109 | names that are not array indices give keys that are not array indices |
| `Reports.KeysFromNames` | src/app/reports/page.js:109 | keys that come from the names inherit what holds of every name |
| `Reports.FrequencyIndexNamesReordered` | src/app/reports/page.js:111-113 | for the names "7" then "3" the ranking lists "3" before "7" |
| `Reports.SevenThreeFirstSeen` | src/app/reports/page.js:108-110 | "7" is the first-seen name of that window |
| `Reports.SevenThreeFrequency` | src/app/reports/page.js:107-110 | the frequency object of that window holds "7" then "3", once each |
| `Reports.UniqueSymptoms` | src/app/reports/page.js:271 | rebuilding an object from ranked names that are distinct gives as many keys as entries |
| `Reports.UniqueSymptomsCapped` | src/app/reports/page.js:271 | the "Unique Symptoms" card shows `min(10, distinct names)`, not the number of distinct names |
| `Reports.FrequencyBar` | src/app/reports/page.js:314-324 | every frequency bar's width is in (0, 1] of the largest |
| `Reports.TopCountsBounded` | src/app/reports/page.js:324 | every ranked count is at least one and at most the first |
| `Reports.ReportsPage.FetchUserData` | src/app/reports/page.js:43-86 | the user's symptoms stored newest first as soon as they are read, and then the user's allergies; a failed read sets "Failed to load report data" and stops; a failed allergy read keeps the old allergies; loading always ends |
| `Reports.ReportsPage.constructor` | src/app/reports/page.js:16-20 | the page starts empty, loading, with no error |
| `WeeklyTrends.WeekOf` | src/app/reports/page.js:121-122 | a record's week starts on the Sunday on or before its day |
| `WeeklyTrends.CountsOf` | src/app/reports/page.js:126-128 | a week's known counts are its records of each severity; an unknown severity is recorded as such; a week with records never totals 0 |
| `WeeklyTrends.BumpFacts` | src/app/reports/page.js:128 | `++` raises exactly the record's severity by one, or marks an unknown one |
| `WeeklyTrends.InWeek` | src/app/reports/page.js:123-128 | the records of a week are exactly those with its key |
| `WeeklyTrends.AddToWeek` | src/app/reports/page.js:125-128 | a record's week is bumped in place, or a new week is appended |
| `WeeklyTrends.AddToWeekValues` | src/app/reports/page.js:125-128 | only the record's own week changes; a new week starts from zero counts plus this record |
| `WeeklyTrends.BucketsFacts` | src/app/reports/page.js:118-129 | one entry per week with records, in first-seen order, with distinct keys, each with the counts of its records |
| `WeeklyTrends.BucketStep` | src/app/reports/page.js:120-129 | one more record keeps every week's counts exact |
| `WeeklyTrends.BumpCounts` | src/app/reports/page.js:128 | counting one more record is one bump |
| `WeeklyTrends.IsoDateNotIndex` | src/app/reports/page.js:123 | week keys contain a '-' and are never array indices |
| `WeeklyTrends.BucketKeys` | src/app/reports/page.js:121-128 | every key is the ISO text of a Sunday on which some record's week starts, with that week's exact counts |
| `WeeklyTrends.WeekEntries` | src/app/reports/page.js:131 | `Object.entries` keeps the first-seen order of the weeks, and each entry is well formed |
| `WeeklyTrends.SortedByDay` | src/app/reports/page.js:132 | sorting by `new Date(key)` gives the same entries, strictly ascending by day |
| `WeeklyTrends.LastAscending` | src/app/reports/page.js:133 | the last eight of an ascending list are ascending and later than everything dropped |
| `WeeklyTrends.TrendsFacts` | src/app/reports/page.js:116-134 | at most eight weeks, strictly ascending by day, each a well-formed week; a week left out lies before them all |
| `WeeklyTrends.MissingWeeks` | src/app/reports/page.js:133 | a week with records that is not shown means eight are shown, all later |
| `WeeklyTrends.WeeklyTrendsOf` | src/app/reports/page.js:116-134 | the method's result is `Trends`: `min(8, weeks)` entries, each counted exactly, none totalling 0, strictly ascending, the older weeks dropped |
| `SeverityCounts.ZeroStatsFacts` | src/app/reports/page.js:98 | the initial object has the four known keys, distinct, all zero |
| `SeverityCounts.CountSeverities` | src/app/dashboard/page.js:128-134 | the loop computes the tally: known keys first, distinct keys, each count exact, every record's severity present, total the number of records |
| `SeverityCounts.StatsFacts` | src/app/reports/page.js:98-101 | any tally of severities from the zeroed keys keeps those keys first and counts exactly |
| `SeverityCounts.CountOfKnown` | src/app/reports/page.js:100 | reading a severity off the statistics (`stats[k] || 0`) gives its number of records |
| `SeverityCounts.Percentage` | src/app/reports/page.js:284 | 0 for a zero total; otherwise within [0, 100] for a count within the total |
| `SeverityCounts.PercentageShare` | src/app/reports/page.js:284 | the share times the total is a hundred times the count |
| `Records.UserSymptoms` | src/app/reports/page.js:46-50 | the query returns exactly the records of that user |
| `Records.UserAllergies` | src/app/myAllergies/page.js:38 | the query returns exactly the allergies of that user |
| `Records.NewestFirst` | src/app/reports/page.js:65 | sorted newest first, a permutation of the input, records of equal date in fetch order |
| `JsObject.Lookup` | src/app/dashboard/page.js:118 | for a name `Object.prototype` does not supply, `obj[k]` is undefined exactly when `k` is not a key, and otherwise that entry's value |
| `JsObject.Increment` | src/app/reports/page.js:109 | `obj[k] = (obj[k] \|\| 0) + 1` keeps the keys, or appends `k` |
| `JsObject.IncrementValues` | src/app/reports/page.js:100 | only `k`'s count changes, by one; a new key starts at 1 |
| `JsObject.IncrementTotal` | src/app/reports/page.js:100 | one increment adds one to the sum of the values |
| `JsObject.TallyFacts` | src/app/reports/page.js:107-110 | a tally lists the initial keys then each new value first-seen, distinct, each counted exactly, summing to the input's length |
| `JsObject.TotalPermutation` | src/utils/pdfGenerator.js:67 | `Object.values(stats).reduce(+)` does not depend on the entries' order |
| `JsObject.OwnEntriesPermutes` | src/app/reports/page.js:111 | `Object.entries` lists the same entries, each once |
| `JsObject.OwnEntriesInsertionOrder` | src/app/reports/page.js:111 | without array-index keys `Object.entries` is insertion order |
| `JsObject.OwnEntriesSevenThree` | src/app/reports/page.js:111 | inserting "7" and then "3" is listed "3" first |
| `JsObject.TopFacts` | src/app/reports/page.js:111-113 | the first `n` of a descending ranking: `min(n, size)` distinct entries of the object, descending, none left out counted higher than the last kept |
| `JsObject.AddKeysFacts` | src/app/reports/page.js:109 | first-seen keys are distinct, extend the initial keys, and are exactly the values seen |
| `Calendar.DayOfWeek` | src/app/reports/page.js:122 | `getDay()` is in 0..6 |
| `Calendar.WeekStart` | src/app/reports/page.js:121-122 | the week's start is a Sunday, on or at most six days before the day |
| `Calendar.WeekStartUnique` | src/app/reports/page.js:122 | a Sunday within the six days before a day is that day's week start |
| `Calendar.FindYear` | src/app/reports/page.js:123 | the year whose span of days contains the day |
| `Calendar.CivilFromDays` | src/app/reports/page.js:123 | a day number's calendar date is a real date whose day number is that day |
| `Calendar.CivilRoundTrip` | src/app/reports/page.js:123 | every real date is the date of its own day number |
| `Calendar.CivilUnique` | src/app/reports/page.js:123 | two real dates with the same day number are equal |
| `Calendar.NatText` | src/utils/pdfGenerator.js:57 | `String(n)` is a non-empty digit string whose value is `n` |
| `Calendar.DigitsRoundTrip` | src/app/reports/page.js:123 | zero-padded digits read back as the number |
| `Calendar.IsoDate` | src/app/reports/page.js:123 | the ISO day text of a four-digit year has the `YYYY-MM-DD` shape |
| `Calendar.IsoDateRoundTrip` | src/app/reports/page.js:132 | `new Date(key)` of a week key gives back that day |
| `Calendar.IsoDateInjective` | src/app/reports/page.js:123-125 | distinct days have distinct keys, so grouping by key is grouping by week |
| `PdfReport.FontSize` | src/utils/pdfGenerator.js:25 | every item's font size is positive and even |
| `PdfReport.Advance` | src/utils/pdfGenerator.js:24-32 | `addText` moves the cursor down by `lines·fontSize/2`, and not at all only for zero lines |
| `PdfReport.ThenWithin` | src/utils/pdfGenerator.js:85-87 | stretches written one after another, none going back a page, stay within their pages |
| `PdfReport.PeriodLabel` | src/utils/pdfGenerator.js:44 | "week", "month", "3 months" for "7", "30", "90", and "year" for every other value |
| `PdfReport.PeriodOfOptions` | src/utils/pdfGenerator.js:44 | both "Last year" and "Next 5 days" are reported as a year |
| `PdfReport.RoundedBounds` | src/utils/pdfGenerator.js:55 | `toFixed(1)` of a positive quotient is its nearest tenth, halves up |
| `PdfReport.AverageTenths` | src/utils/pdfGenerator.js:55 | a negative quotient prints as the negated rounding of its magnitude |
| `PdfReport.AverageCardAgrees` | src/app/reports/page.js:264 | the reports card and the PDF print the same average for every selector option |
| `PdfReport.AverageRule` | src/utils/pdfGenerator.js:125 | the frequency advice is given over a past window exactly when `20·count ≥ 61·days`, and never for "Next 5 days" |
| `PdfReport.SevereRuleFifth` | src/utils/pdfGenerator.js:117-120 | the severe advice is given exactly when both counts are present and severe plus emergency exceed a fifth of the total |
| `PdfReport.ShareOverFifth` | src/utils/pdfGenerator.js:118-120 | `c/total·100 > 20` exactly when `5c > total` |
| `PdfReport.AdviceRules` | src/utils/pdfGenerator.js:117-141 | each recommendation is given exactly when its rule holds; "keep logging" always |
| `PdfReport.AdviceOrder` | src/utils/pdfGenerator.js:120-141 | the recommendations come in the order of the checks; the focus one names the top-ranked symptom |
| `PdfReport.ChecksMembers` | src/utils/pdfGenerator.js:120-136 | each of the four recommendations that name no symptom is given exactly when its condition holds |
| `PdfReport.HeaderFacts` | src/utils/pdfGenerator.js:34-61 | the header writes title, period, date and the four summary lines, in that order |
| `PdfReport.HeaderPage` | src/utils/pdfGenerator.js:35-45 | the header is on the first page, the title at (20, 20), the period at (20, 50) |
| `PdfReport.LinesFacts` | src/utils/pdfGenerator.js:68-72 | a run of lines is written in order at one x, the first at the cursor, each below the one before |
| `PdfReport.BreakAfterFacts` | src/utils/pdfGenerator.js:80-89 | the ranking loop writes its lines in order at x = 30, moving to a new page after a line past `height - 40` |
| `PdfReport.BreakBeforeFacts` | src/utils/pdfGenerator.js:97-107 | the recent-log loop writes its lines in order at x = 30, moving to a new page before a line when the cursor is past `height - 30` |
| `PdfReport.SeverityItems` | src/utils/pdfGenerator.js:67-72 | one line per statistics entry, with its count and share of the total |
| `PdfReport.RankedItems` | src/utils/pdfGenerator.js:80-81 | the ranking lines are numbered from 1 and carry name and count |
| `PdfReport.RecentItems` | src/utils/pdfGenerator.js:97-105 | one line per recent record |
| `PdfReport.AdviceItems` | src/utils/pdfGenerator.js:120-141 | one line per recommendation |
| `PdfReport.AfterSeverityFacts` | src/utils/pdfGenerator.js:34-73 | the header and severity lines are all on the first page, in order |
| `PdfReport.FrequencyPartFacts` | src/utils/pdfGenerator.js:75-89 | the ranking adds its heading and lines and goes back no page |
| `PdfReport.RecentPartFacts` | src/utils/pdfGenerator.js:91-108 | the recent log is written only when the cursor is above `height - 80`, adding its heading and lines |
| `PdfReport.LastPageFacts` | src/utils/pdfGenerator.js:110-147 | the recommendations page is a new page holding the heading, the advice and the footer |
| `PdfReport.AfterRecentWithin` | src/utils/pdfGenerator.js:34-108 | everything before the last page stays within its pages, in order |
| `PdfReport.RecommendationsPage` | src/utils/pdfGenerator.js:110-147 | the recommendations are on the last page, alone |
| `PdfReport.LayoutContents` | src/utils/pdfGenerator.js:34-147 | the document holds header, severity lines, ranking, recent log when there is room, and the last page, in that order |
| `PdfReport.FileNameDay` | src/utils/pdfGenerator.js:150 | the file name's middle part reads back as the UTC day of generation |
| `PdfReport.GenerateReport` | src/utils/pdfGenerator.js:6-159 | an engine failure gives "Failed to generate PDF report"; otherwise the report of the layout with its file name |
| `PdfReport.WriteLayout` | src/utils/pdfGenerator.js:18-147 | the statements write exactly the specified layout |
| `PdfReport.WriteHeader` | src/utils/pdfGenerator.js:34-61 | the header statements write `Header` |
| `PdfReport.WriteLines` | src/utils/pdfGenerator.js:68-72 | the `forEach` writes `Lines` after the start |
| `PdfReport.WriteBreakAfter` | src/utils/pdfGenerator.js:80-89 | the ranking `forEach` writes `BreakAfter` after the start |
| `PdfReport.WriteBreakBefore` | src/utils/pdfGenerator.js:97-107 | the recent-log `forEach` writes `BreakBefore` after the start |
| `PdfReport.WriteRecommendations` | src/utils/pdfGenerator.js:110-147 | the last page is `LastPage` with the advice `Advices` gives |
| `PdfReport.WriteAdvice` | src/utils/pdfGenerator.js:117-141 | the checks write `AdviceBlock` |
| `PdfReport.AdviceBlockLines` | src/utils/pdfGenerator.js:120-141 | the checks write exactly the listed recommendations, 20 apart |
| `Dashboard.RecentQueryFacts` | src/app/dashboard/page.js:52-57 | the query as written: at most ten of the user's symptoms, newest first, all of them when fewer than ten, none left out newer; no bound on their age |
| `Dashboard.NewestPrefix` | src/app/dashboard/page.js:55-56 | the first `n` of a newest-first list are newest first and nothing after them is newer |
| `Dashboard.WeekQueryFacts` | src/app/dashboard/page.js:48-57 | the corrected query: the user's symptoms of the last seven days, at most ten, exactly the as-written list with stale rows dropped |
| `Dashboard.FilterTakeCommute` | src/app/dashboard/page.js:49-56 | on a newest-first list, the date cut-off commutes with `limit(10)` |
| `Dashboard.StaleSymptomCounted` | src/app/dashboard/page.js:337 | a symptom 30 days old counts under "Symptoms This Week" with the query as written, and not with the corrected one |
| `Dashboard.DashboardPage.FetchUserData` | src/app/dashboard/page.js:37-76 | allergies are the user's; recent symptoms are the as-written query's ten newest of the user's, of any age; a failed read sets "Failed to load dashboard data"; loading always ends |
| `Dashboard.DashboardPage.AuthChanged` | src/app/dashboard/page.js:23-35 | a user triggers the fetch, with its stored lists and its error as `FetchUserData` states them; none only ends loading |
| `Dashboard.DashboardPage.SeverityStats` | src/app/dashboard/page.js:128-134 | the four known keys first, each count exact over the recent list, total its length |
| `Dashboard.RecentShown` | src/app/dashboard/page.js:299 | the five newest at most, a prefix |
| `Dashboard.AllergiesShown` | src/app/dashboard/page.js:408 | the first six allergies at most |
| `Dashboard.MoreAllergies` | src/app/dashboard/page.js:414-417 | "+N more" appears exactly when more than six are tracked, and N is the rest |
| `Dashboard.SeverityBars` | src/app/dashboard/page.js:343-385 | the card appears exactly when the list is non-empty, with mild, moderate and severe bars, each showing its severity's count and `count / length * 100` wide |
| `Dashboard.SeverityBarsBounded` | src/app/dashboard/page.js:350-380 | with the list's own statistics each bar shows its exact count and a width in [0, 100], the widths adding up to at most 100 |
| `Dashboard.BarsBounded` | src/app/dashboard/page.js:353-377 | bars whose counts fit in the list have widths in [0, 100] |
| `Dashboard.ThreeCounts` | src/app/dashboard/page.js:353-377 | no more records carry the three severities than there are records |
| `Dashboard.SharesBounded` | src/app/dashboard/page.js:353-377 | three counts within `n` give widths in [0, 100] that add up to at most 100 |
| `Dashboard.AirQualityColor` | src/app/dashboard/page.js:121-126 | green up to 50, yellow to 100, orange to 150, red above |
| `Dashboard.AirQualityMonotone` | src/app/dashboard/page.js:121-126 | a worse index never gets a better colour |
| `Dashboard.PollenLevel` | src/app/dashboard/page.js:112-119 | the three levels' colours, and gray exactly for any other level |
| `SymptomsLog.SeverityStyle` | src/app/symptomsLog/page.js:316-319 | each level's colour, and gray exactly for an unknown severity |
| `SymptomsLog.SeverityLabel` | src/app/symptomsLog/page.js:395 | no label exactly for an unknown severity |
| `SymptomsLog.RelatedAllergy` | src/app/symptomsLog/page.js:330 | none exactly when no id is set or no allergy has it; otherwise an allergy with that id |
| `SymptomsLog.MergeFacts` | src/app/symptomsLog/page.js:152-156 | an empty patch changes nothing; the card's patch changes only the severity |
| `SymptomsLog.NewRecord` | src/app/symptomsLog/page.js:124-129 | the new record has the new id, the user's id and the form's name and severity |
| `SymptomsLog.RemovedFacts` | src/app/symptomsLog/page.js:142 | deleting drops every record with the id, keeps every other as often as before, in order; an absent id changes nothing |
| `SymptomsLog.Updated` | src/app/symptomsLog/page.js:152-156 | same length; each record with the id is merged, every other kept |
| `SymptomsLog.UpdatedFacts` | src/app/symptomsLog/page.js:149-161 | an absent id or an empty patch changes nothing; the ids stay; the card's patch changes only matching severities |
| `SymptomsLog.FilteredSymptoms` | src/app/symptomsLog/page.js:163-169 | a record is shown exactly when it matches both set filters |
| `SymptomsLog.FilteredFacts` | src/app/symptomsLog/page.js:163-169 | with both filters empty everything is shown; order is kept; a shown record's UTC day is the filter day |
| `SymptomsLog.ToggleFacts` | src/app/symptomsLog/page.js:444-453 | toggling a selected name drops every symptom of that name and nothing else; toggling another appends it |
| `SymptomsLog.ToggleKeepsDistinct` | src/app/symptomsLog/page.js:444-453 | the selection never holds a name twice |
| `SymptomsLog.Payloads` | src/app/symptomsLog/page.js:464-478 | one payload per selected symptom in selection order, carrying the form's shared fields |
| `SymptomsLog.AddAllFacts` | src/app/symptomsLog/page.js:114-137 | the old records stay in order behind the new ones, one new record per successful add |
| `SymptomsLog.Push` | src/app/symptomsLog/page.js:483-486 | a category's group grows in place, or a new group is appended |
| `SymptomsLog.PushValues` | src/app/symptomsLog/page.js:483-486 | the push grows exactly the symptom's group, or opens it holding the symptom alone |
| `SymptomsLog.PushSize` | src/app/symptomsLog/page.js:486 | each push adds one symptom to the groups |
| `SymptomsLog.PushDistinct` | src/app/symptomsLog/page.js:483-486 | the categories stay distinct |
| `SymptomsLog.GroupedFacts` | src/app/symptomsLog/page.js:481-488 | one group per category in first-seen order, each holding that category's symptoms in catalogue order, all symptoms once |
| `SymptomsLog.GroupSymptoms` | src/app/symptomsLog/page.js:481-488 | the loop computes the `reduce`, with those properties |
| `SymptomsLog.CatalogueGroups` | src/app/symptomsLog/page.js:29-50 | the catalogue's groups are listed in insertion order and hold all twenty symptoms |
| `SymptomsLog.GroupsInInsertionOrder` | src/app/symptomsLog/page.js:501 | with categories that are not array indices, `Object.entries` lists the groups in first-seen order |
| `SymptomsLog.SymptomsLogPage.ClearFilters` | src/app/symptomsLog/page.js:246-249 | both filters cleared and the whole list shown |
| `SymptomsLog.SymptomsLogPage.AddSymptom` | src/app/symptomsLog/page.js:114-137 | nothing without a user; a success prepends the record and closes the modal; a failure sets "Failed to add symptom" |
| `SymptomsLog.SymptomsLogPage.DeleteSymptom` | src/app/symptomsLog/page.js:139-147 | a success removes the records with the id; a failure sets "Failed to delete symptom" |
| `SymptomsLog.SymptomsLogPage.UpdateSymptom` | src/app/symptomsLog/page.js:149-161 | a success merges the patch into matching records; a failure sets "Failed to update symptom" |
| `SymptomsLog.SymptomsLogPage.HandleSubmit` | src/app/symptomsLog/page.js:455-479 | an empty selection only alerts; otherwise every payload is added in turn, the error is set if an add fails, and the modal closes if one succeeds |
| `SymptomsLog.SymptomsLogPage.AddEach` | src/app/symptomsLog/page.js:464-478 | `addSymptom` on each payload in turn: the records each success prepends, the error of a failure, and the modal closed once any add succeeds |
| `MyAllergies.CategoryIcon` | src/app/myAllergies/page.js:212 | a tree for "Tree", a herb for "Weed", a seedling for any other category |
| `MyAllergies.CatalogueSize` | src/app/myAllergies/page.js:186-203 | eleven options, none with the empty placeholder value |
| `MyAllergies.CatalogueDistinct` | src/app/myAllergies/page.js:186-203 | no two options share a value |
| `MyAllergies.CatalogueCategories` | src/app/myAllergies/page.js:186-203 | nine trees, a grass, a weed; every caption opens with its category's icon |
| `MyAllergies.SubmitData` | src/app/myAllergies/page.js:205-222 | a record exactly for a catalogue selection, with its name, category and the category's icon |
| `MyAllergies.AllergenCount` | src/app/myAllergies/page.js:224-226 | never more than the existing allergies |
| `MyAllergies.AllergenCountFacts` | src/app/myAllergies/page.js:224-226 | the count is the number of records with the name, zero exactly when none has it, additive over concatenation |
| `MyAllergies.DuplicateNotice` | src/app/myAllergies/page.js:255-259 | the notice shows exactly for a chosen allergen already present, with its positive count |
| `MyAllergies.AddAllergyModal.Choose` | src/app/myAllergies/page.js:238-240 | the selection becomes the chosen value |
| `MyAllergies.AddAllergyModal.HandleSubmit` | src/app/myAllergies/page.js:205-222 | emits `SubmitData` of the selection and resets it when something was emitted |
| `MyAllergies.WithAllergyFacts` | src/app/myAllergies/page.js:53-69 | adding keeps the old list as a prefix and appends at most one record, the new one with the user's id |
| `MyAllergies.WithoutFacts` | src/app/myAllergies/page.js:74 | deleting drops every record with the id and keeps every other as often as before; it undoes an add of a fresh id |
| `MyAllergies.WithoutUndoesAdd` | src/app/myAllergies/page.js:63-74 | deleting the id just added gives the old list back |
| `MyAllergies.MyAllergiesPage.FetchAllergies` | src/app/myAllergies/page.js:36-51 | the user's allergies, or "Failed to load allergies" and the old list; loading ends |
| `MyAllergies.MyAllergiesPage.AuthChanged` | src/app/myAllergies/page.js:23-34 | a user triggers the fetch, none only ends loading |
| `MyAllergies.MyAllergiesPage.AddAllergy` | src/app/myAllergies/page.js:53-69 | nothing without a user; a success appends and closes the modal; a failure sets "Failed to add allergy" |
| `MyAllergies.MyAllergiesPage.DeleteAllergy` | src/app/myAllergies/page.js:71-79 | a success removes the records with the id; a failure sets "Failed to delete allergy" |
| `Auth.PhotoOr` | src/hooks/useAuth.js:31 | a missing or empty picture gives the guest picture; any other is kept |
| `Auth.ProfileOf` | src/hooks/useAuth.js:27-33 | every field copied, the picture defaulted |
| `Auth.PhotoOrIdempotent` | src/hooks/useAuth.js:31 | defaulting twice is defaulting once |
| `Auth.Utf16Length` | src/hooks/useAuth.js:81 | `password.length` lies between the character count and twice it |
| `Auth.Utf16LengthFacts` | src/hooks/useAuth.js:81 | the length adds over concatenation and equals the character count exactly when no character is outside the Basic Multilingual Plane |
| `Auth.SignUpCheck` | src/hooks/useAuth.js:75-85 | a mismatch first, then a length under 6; each message exactly under its condition |
| `Auth.MismatchFirst` | src/hooks/useAuth.js:75-85 | a mismatched short password reports the mismatch |
| `Auth.AuthState.constructor` | src/hooks/useAuth.js:12-17 | signed out, both modals hidden, not busy, no error |
| `Auth.AuthState.AuthChanged` | src/hooks/useAuth.js:24-38 | signed in exactly with a user, whose profile is copied with the picture defaulted |
| `Auth.AuthState.HandleLogin` | src/hooks/useAuth.js:43-62 | one sign-in call; success closes the login modal, failure shows Firebase's message; never left busy |
| `Auth.AuthState.HandleSignUp` | src/hooks/useAuth.js:64-104 | a failed check shows its message and calls nothing; otherwise create then update; the modal closes only when both succeed; never left busy |
| `Auth.AuthState.HandleGoogleSignIn` | src/hooks/useAuth.js:106-115 | signed in with the handed-over user, picture defaulted, both modals closed |
| `Auth.AuthState.HandleLogout` | src/hooks/useAuth.js:117-126 | a successful sign-out clears the session; a failed one changes nothing |
| `Auth.AuthState.CloseModals` | src/hooks/useAuth.js:128-132 | both modals hidden, the error cleared |
| `Auth.AuthState.OpenLoginModal` | src/hooks/useAuth.js:134-138 | login shown, sign-up hidden, the error cleared |
| `Auth.AuthState.OpenSignUpModal` | src/hooks/useAuth.js:140-144 | sign-up shown, login hidden, the error cleared |

## Left out

- **Firebase itself.** Authentication and Firestore are not modelled: each call is replaced by
  its outcome. Firestore's `where`/`orderBy` are modelled as a filter and a stable sort over
  the collection. Its `limit(100)` on the reports page and the tie order among equal dates are
  not modelled.
- **Asynchrony.**
  - The reports page's 8-second timeouts are one more way for a read to fail.
  - Interleavings of pending calls and the loading flags shown while they wait are not
    modelled.
  - Inside `handleSubmit`, the closure over `symptoms` is stale: each `addSymptom` sees the
    list as it was before the loop. The model prepends each record in turn
    (`SymptomsLog.SymptomsLogPage.AddEach`), not the single record a stale closure would keep.
- **Dates.** UTC only. Local time zones, `toLocaleDateString` and `toLocaleTimeString` are
  not modelled. `setDate(getDate() - n)` is `n` days of 86 400 000 ms. `date?.toDate?.()`
  and `new Date(data.date)` are taken as already giving the millisecond value.
- **Floating point.** Shares and widths are exact reals. `toFixed(1)` and `Math.round` are
  modelled in whole tenths, and an average is never formatted as text.
- **The weekly trend bars.** The widths of the bars' severity segments (`data.mild / total`)
  and `maxWeekly` are not modelled; only the week total `WeeklyTrends.WeekTotal` is (`None`
  for NaN).
- **jsPDF.** Fonts, colours, `splitTextToSize` (a `wrap` oracle) and the page size (a
  `height` input) are not modelled. `PdfReport.GenerateReport` returns the placed items, not
  a file.
- **Display-only text and styling.** The empty-state messages, form captions and Tailwind
  classes are not modelled, except the colours the pages compute.
- **The dashboard's weather.** `fetchWeatherData` installs a fixed mock record. Only the
  colour functions applied to it are modelled.
- **Form input plumbing.** `FormData` reads, `e.preventDefault()`, `alert` (returned as a
  value) and the console logs are not modelled.
- **My Allergies.** `MyAllergies.SubmitData`: a selection outside the catalogue makes the
  source throw on an undefined entry. The model emits nothing instead.
- **Auth.** The raw `setShowLoginModal`/`setShowSignUpModal` setters the hook also exports
  are not modelled. The extra fields of the Google `userData` beyond the profile's are not
  modelled.
- **Reports.** The page's `onAuthStateChanged` listener only starts the fetch modelled by `Reports.ReportsPage.FetchUserData`, and is not modelled itself. The PDF button's `isGeneratingPDF` flag, and the alert shown when the
  generator throws, are left out. `reportType` is never read.
- `Reports.ReportsPage.FetchUserData`: does not model the read's `limit(100)`.
- `JsObject.Lookup`: every JS object inherits names such as `constructor`, `toString` and `__proto__` from `Object.prototype`. The model treats them as absent keys, but in JS `obj[k]` finds them.
- `JsObject.Increment`: for an inherited name, `(obj[k] || 0) + 1` builds a string, and an assignment to `__proto__` is ignored. The model counts such a name like any other. `Reports.SymptomFrequency` and `SeverityCounts.CountSeverities` inherit this, for symptom names and severities read from the database.
- `Dashboard.PollenLevel`: for an inherited name, `colors[level]` is a function, which is truthy and is returned. The model returns gray. The page only passes the mock's `"High"`, `"Medium"` and `"Low"`.

## Findings

| source | as written | input that shows it | evidently intended | confidence | as-written member | corrected member |
|---|---|---|---|---|---|---|
| src/app/dashboard/page.js:49-57 | The "last 7 days" query computes `sevenDaysAgo` but never uses it. It returns the user's ten newest symptoms of any age, and the "Symptoms This Week" card counts them. | One symptom of user "u1" dated day 0, with `now` on day 30: the card shows 1 | Also keep only `date >= sevenDaysAgo` | not executed | `Dashboard.StaleSymptomCounted` | `Dashboard.WeekQueryFacts` |

The page model (`Dashboard.DashboardPage.FetchUserData`) stores the as-written query's result, as the code does. `Dashboard.WeekQuery` is the corrected query, and `Dashboard.WeekQueryFacts` proves it keeps only the last seven days.
