/** The parts of JavaScript's `Date` the pages rely on, in UTC: a time value is a count of
    milliseconds since 1970-01-01T00:00:00Z, its day number is the floor of that count
    over a day's length, and `toISOString().split('T')[0]` writes that day in the
    proleptic Gregorian calendar as `YYYY-MM-DD` (years outside 0..9999 as a sign and
    six digits). */
module Calendar {

  import opened Wrappers

  const MsPerDay: int := 86_400_000

  /** Day number of a time value; Dafny's `/` by a positive divisor is floor division. */
  function DayNumber(t: int): int { t / MsPerDay }

  /** `getDay()`: 0 for Sunday up to 6 for Saturday. Day 0 (1970-01-01) was a Thursday. */
  function DayOfWeek(day: int): (w: int)
    ensures 0 <= w < 7
  {
    (day + 4) % 7
  }

  /** The Sunday on or before `day`: `d.setDate(d.getDate() - d.getDay())`. */
  function WeekStart(day: int): (sunday: int)
    ensures DayOfWeek(sunday) == 0
    ensures sunday <= day < sunday + 7
  {
    day - DayOfWeek(day)
  }

  /** There is exactly one Sunday in any seven consecutive days. */
  lemma WeekStartUnique(day: int, sunday: int)
    requires DayOfWeek(sunday) == 0 && sunday <= day < sunday + 7
    ensures sunday == WeekStart(day)
  {
  }

  // ---------------------------------------------------------------- years and months

  predicate IsLeap(y: int) { y % 4 == 0 && (y % 100 != 0 || y % 400 == 0) }

  function DaysInYear(y: int): int { if IsLeap(y) then 366 else 365 }

  /** Leap years among 1..y counted with floor division; its steps mark exactly the leap years. */
  function LeapsUpTo(y: int): int { y / 4 - y / 100 + y / 400 }

  lemma LeapsStep(y: int)
    ensures LeapsUpTo(y) - LeapsUpTo(y - 1) == if IsLeap(y) then 1 else 0
  {
    var q, c, qc := y / 4 - (y - 1) / 4, y / 100 - (y - 1) / 100, y / 400 - (y - 1) / 400;
    assert LeapsUpTo(y) - LeapsUpTo(y - 1) == q - c + qc;
    Quarters(y);
    Centuries(y);
    QuadCenturies(y);
    Divisors(y);
  }

  lemma Divisors(y: int)
    ensures y % 400 == 0 ==> y % 100 == 0
    ensures y % 100 == 0 ==> y % 4 == 0
  {
    if y % 400 == 0 {
      HundredsMod(y / 400 * 4);
      assert y == (y / 400 * 4) * 100;
    }
    if y % 100 == 0 {
      FoursMod(y / 100 * 25);
      assert y == (y / 100 * 25) * 4;
    }
  }

  lemma HundredsMod(m: int)
    ensures (m * 100) % 100 == 0
  {
  }

  lemma FoursMod(m: int)
    ensures (m * 4) % 4 == 0
  {
  }

  lemma Quarters(y: int)
    ensures y / 4 - (y - 1) / 4 == if y % 4 == 0 then 1 else 0
  {
  }

  lemma Centuries(y: int)
    ensures y / 100 - (y - 1) / 100 == if y % 100 == 0 then 1 else 0
  {
  }

  lemma QuadCenturies(y: int)
    ensures y / 400 - (y - 1) / 400 == if y % 400 == 0 then 1 else 0
  {
  }

  /** Days from 1970-01-01 to January 1 of year `y` (negative before 1970). */
  function DaysBeforeYear(y: int): int
  {
    365 * (y - 1970) + LeapsUpTo(y - 1) - LeapsUpTo(1969)
  }

  lemma DaysBeforeYearStep(y: int)
    ensures DaysBeforeYear(y + 1) == DaysBeforeYear(y) + DaysInYear(y)
  {
    LeapsStep(y);
  }

  lemma {:induction false} DaysBeforeYearMonotone(a: int, b: int)
    requires a <= b
    ensures DaysBeforeYear(a) <= DaysBeforeYear(b)
    decreases b - a
  {
    if a < b {
      DaysBeforeYearStep(a);
      DaysBeforeYearMonotone(a + 1, b);
    }
  }

  /** Searches from the guess `y` for the year whose span holds `day`. */
  function FindYear(day: int, y: int): (r: int)
    ensures DaysBeforeYear(r) <= day < DaysBeforeYear(r + 1)
  {
    if day < DaysBeforeYear(y) then FindYearDown(day, y - 1) else FindYearUp(day, y)
  }

  /** Steps back from `y`, a year starting after `day` is known. */
  function FindYearDown(day: int, y: int): (r: int)
    requires day < DaysBeforeYear(y + 1)
    ensures DaysBeforeYear(r) <= day < DaysBeforeYear(r + 1)
    decreases DaysBeforeYear(y + 1) - day
  {
    YearsIncrease(y + 1);
    if day < DaysBeforeYear(y) then FindYearDown(day, y - 1) else y
  }

  /** Steps forward from `y`, whose start is at or before `day`. */
  function FindYearUp(day: int, y: int): (r: int)
    requires DaysBeforeYear(y) <= day
    ensures DaysBeforeYear(r) <= day < DaysBeforeYear(r + 1)
    decreases day - DaysBeforeYear(y)
  {
    YearsIncrease(y + 1);
    if day >= DaysBeforeYear(y + 1) then FindYearUp(day, y + 1) else y
  }

  /** Each year starts later than the one before. */
  lemma YearsIncrease(y: int)
    ensures DaysBeforeYear(y - 1) < DaysBeforeYear(y) < DaysBeforeYear(y + 1)
  {
    DaysBeforeYearStep(y - 1);
    DaysBeforeYearStep(y);
  }

  /** Only one year's span holds a given day. */
  lemma YearUnique(day: int, a: int, b: int)
    requires DaysBeforeYear(a) <= day < DaysBeforeYear(a + 1)
    requires DaysBeforeYear(b) <= day < DaysBeforeYear(b + 1)
    ensures a == b
  {
    if a < b {
      DaysBeforeYearMonotone(a + 1, b);
    } else if b < a {
      DaysBeforeYearMonotone(b + 1, a);
    }
  }

  /** Days of year `y` before the first of month `m`; `m == 13` gives the year's length. */
  function DaysBeforeMonth(y: int, m: int): int
    requires 1 <= m <= 13
  {
    var base :=
      if m == 1 then 0 else if m == 2 then 31 else if m == 3 then 59
      else if m == 4 then 90 else if m == 5 then 120 else if m == 6 then 151
      else if m == 7 then 181 else if m == 8 then 212 else if m == 9 then 243
      else if m == 10 then 273 else if m == 11 then 304 else if m == 12 then 334
      else 365;
    base + (if m > 2 && IsLeap(y) then 1 else 0)
  }

  function DaysInMonth(y: int, m: int): (n: int)
    requires 1 <= m <= 12
    ensures 28 <= n <= 31
  {
    DaysBeforeMonth(y, m + 1) - DaysBeforeMonth(y, m)
  }

  /** Searches upward from month `m` for the month that holds day-of-year `doy`. */
  function FindMonth(y: int, doy: int, m: int): (r: int)
    requires 1 <= m <= 12
    requires DaysBeforeMonth(y, m) <= doy < DaysInYear(y)
    ensures m <= r <= 12
    ensures DaysBeforeMonth(y, r) <= doy < DaysBeforeMonth(y, r + 1)
    decreases 12 - m
  {
    if m == 12 || doy < DaysBeforeMonth(y, m + 1) then m else FindMonth(y, doy, m + 1)
  }

  lemma MonthUnique(y: int, doy: int, a: int, b: int)
    requires 1 <= a <= 12 && 1 <= b <= 12
    requires DaysBeforeMonth(y, a) <= doy < DaysBeforeMonth(y, a + 1)
    requires DaysBeforeMonth(y, b) <= doy < DaysBeforeMonth(y, b + 1)
    ensures a == b
  {
  }

  // ---------------------------------------------------------------- civil dates

  datatype Civil = Civil(year: int, month: int, day: int)

  predicate ValidCivil(c: Civil)
  {
    1 <= c.month <= 12 && 1 <= c.day <= DaysInMonth(c.year, c.month)
  }

  /** Day number of a calendar date: the reference definition of the calendar. */
  function DaysFromCivil(c: Civil): int
    requires 1 <= c.month <= 12
  {
    DaysBeforeYear(c.year) + DaysBeforeMonth(c.year, c.month) + c.day - 1
  }

  /** The calendar date of a day number; it is a real date and it names that day. */
  function CivilFromDays(z: int): (c: Civil)
    ensures ValidCivil(c)
    ensures DaysFromCivil(c) == z
  {
    var y := FindYear(z, 1970 + z / 365);
    DaysBeforeYearStep(y);
    var doy := z - DaysBeforeYear(y);
    var m := FindMonth(y, doy, 1);
    Civil(y, m, doy - DaysBeforeMonth(y, m) + 1)
  }

  /** The other half of the bijection: every real date is the date of its own day number. */
  lemma CivilRoundTrip(c: Civil)
    requires ValidCivil(c)
    ensures CivilFromDays(DaysFromCivil(c)) == c
  {
    var r := CivilFromDays(DaysFromCivil(c));
    CivilUnique(r, c);
  }

  /** Two real dates with the same day number are the same date. */
  lemma CivilUnique(a: Civil, b: Civil)
    requires ValidCivil(a) && ValidCivil(b) && DaysFromCivil(a) == DaysFromCivil(b)
    ensures a == b
  {
    var z := DaysFromCivil(a);
    CivilInYear(a);
    CivilInYear(b);
    YearUnique(z, a.year, b.year);
    MonthUnique(a.year, z - DaysBeforeYear(a.year), a.month, b.month);
  }

  /** A real date falls inside its year's span of days, and inside its month's part of it. */
  lemma CivilInYear(c: Civil)
    requires ValidCivil(c)
    ensures DaysBeforeYear(c.year) <= DaysFromCivil(c) < DaysBeforeYear(c.year + 1)
    ensures DaysBeforeMonth(c.year, c.month) <= DaysFromCivil(c) - DaysBeforeYear(c.year) < DaysBeforeMonth(c.year, c.month + 1)
  {
    DaysBeforeYearStep(c.year);
    MonthsWithinYear(c.year, c.month);
  }

  lemma MonthsWithinYear(y: int, m: int)
    requires 1 <= m <= 12
    ensures 0 <= DaysBeforeMonth(y, m) < DaysBeforeMonth(y, m + 1) <= DaysInYear(y)
  {
  }

  // ---------------------------------------------------------------- decimal text

  function Pow10(w: nat): (p: nat)
    ensures p >= 1
  {
    if w == 0 then 1 else 10 * Pow10(w - 1)
  }

  predicate IsDigit(c: char) { '0' <= c <= '9' }

  predicate AllDigits(s: string) { forall i :: 0 <= i < |s| ==> IsDigit(s[i]) }

  function DigitChar(d: int): (c: char)
    requires 0 <= d < 10
    ensures IsDigit(c)
  {
    ('0' as int + d) as char
  }

  /** The last `w` decimal digits of `n`, zero-padded on the left. */
  function Digits(n: nat, w: nat): (s: string)
    ensures |s| == w
    ensures AllDigits(s)
  {
    if w == 0 then [] else Digits(n / 10, w - 1) + [DigitChar(n % 10)]
  }

  /** Value of a string of decimal digits. */
  function DigitsValue(s: string): nat
    requires AllDigits(s)
  {
    if s == [] then 0 else 10 * DigitsValue(s[..|s| - 1]) + (s[|s| - 1] as int - '0' as int)
  }

  lemma {:induction false} DigitsRoundTrip(n: nat, w: nat)
    requires n < Pow10(w)
    ensures DigitsValue(Digits(n, w)) == n
  {
    if w > 0 {
      DigitsRoundTrip(n / 10, w - 1);
      var s := Digits(n, w);
      assert s[..|s| - 1] == Digits(n / 10, w - 1);
    }
  }

  /** Number of digits `n` is written with (at least one). */
  function NumDigits(n: nat): (w: nat)
    ensures 1 <= w && n < Pow10(w)
  {
    if n < 10 then 1 else 1 + NumDigits(n / 10)
  }

  /** JavaScript's `String(n)` for a non-negative integer. */
  function NatText(n: nat): (s: string)
    ensures |s| >= 1 && AllDigits(s)
    ensures DigitsValue(s) == n
  {
    DigitsRoundTrip(n, NumDigits(n));
    Digits(n, NumDigits(n))
  }

  // ---------------------------------------------------------------- ISO dates

  function Max(a: int, b: int): int { if a >= b then a else b }

  /** The year part of `toISOString()`. JavaScript's date range keeps |year| below 10^6, so the
      six-digit form is exact there; beyond it this model keeps every digit. */
  function YearText(y: int): (s: string)
  {
    if 0 <= y <= 9999 then Digits(y, 4)
    else (if y < 0 then "-" else "+") + Digits(if y < 0 then -y else y, Max(6, NumDigits(if y < 0 then -y else y)))
  }

  /** `new Date(t).toISOString().split('T')[0]` for a day number. */
  function IsoDate(day: int): (s: string)
    ensures 0 <= CivilFromDays(day).year <= 9999 ==> |s| == 10 && s[4] == '-' && s[7] == '-'
  {
    var c := CivilFromDays(day);
    YearText(c.year) + "-" + Digits(c.month, 2) + "-" + Digits(c.day, 2)
  }

  function ParseYear(p: string): Option<int>
  {
    if |p| == 4 && AllDigits(p) then Some(DigitsValue(p))
    else if |p| >= 7 && (p[0] == '+' || p[0] == '-') && AllDigits(p[1..]) then
      var v: int := DigitsValue(p[1..]);
      Some(if p[0] == '-' then -v else v)
    else None
  }

  /** `new Date(key)` for a date-only ISO string, as a day number; `None` for text that is
      not such a date. */
  function ParseIsoDate(s: string): Option<int>
  {
    var n := |s|;
    if n < 10 || s[n - 6] != '-' || s[n - 3] != '-' || !AllDigits(s[n - 5..n - 3]) || !AllDigits(s[n - 2..]) then None
    else
      var month := DigitsValue(s[n - 5..n - 3]);
      var day := DigitsValue(s[n - 2..]);
      match ParseYear(s[..n - 6])
      case None => None
      case Some(y) =>
        if ValidCivil(Civil(y, month, day)) then Some(DaysFromCivil(Civil(y, month, day))) else None
  }

  lemma YearTextRoundTrip(y: int)
    ensures ParseYear(YearText(y)) == Some(y)
  {
    var s := YearText(y);
    if 0 <= y <= 9999 {
      DigitsRoundTrip(y, 4);
    } else {
      var a := if y < 0 then -y else y;
      var w := Max(6, NumDigits(a));
      assert Pow10(NumDigits(a)) <= Pow10(w) by { Pow10Monotone(NumDigits(a), w); }
      DigitsRoundTrip(a, w);
      assert s[1..] == Digits(a, w);
    }
  }

  lemma {:induction false} Pow10Monotone(a: nat, b: nat)
    requires a <= b
    ensures Pow10(a) <= Pow10(b)
    decreases b - a
  {
    if a < b {
      Pow10Monotone(a + 1, b);
    }
  }

  /** Parsing the text of a day gives the day back: `new Date(d.toISOString().split('T')[0])`. */
  lemma IsoDateRoundTrip(day: int)
    ensures ParseIsoDate(IsoDate(day)) == Some(day)
  {
    ParseCivilText(CivilFromDays(day));
  }

  /** The text of a real date parses back to that date's day number. */
  lemma ParseCivilText(c: Civil)
    requires ValidCivil(c)
    ensures ParseIsoDate(YearText(c.year) + "-" + Digits(c.month, 2) + "-" + Digits(c.day, 2)) == Some(DaysFromCivil(c))
  {
    var yt := YearText(c.year);
    var mt := Digits(c.month, 2);
    var dt := Digits(c.day, 2);
    IsoParts(yt, mt, dt);
    YearTextRoundTrip(c.year);
    DigitsRoundTrip(c.month, 2);
    DigitsRoundTrip(c.day, 2);
  }

  /** Where the pieces of `year-mm-dd` sit, counted from the end. */
  lemma IsoParts(yt: string, mt: string, dt: string)
    requires |mt| == 2 && |dt| == 2
    ensures var s := yt + "-" + mt + "-" + dt; var n := |s|;
      && n == |yt| + 6 && s[..n - 6] == yt && s[n - 6] == '-' && s[n - 5..n - 3] == mt
      && s[n - 3] == '-' && s[n - 2..] == dt
  {
  }

  /** Distinct days have distinct ISO texts, so counting by text is counting by day. */
  lemma IsoDateInjective(a: int, b: int)
    requires IsoDate(a) == IsoDate(b)
    ensures a == b
  {
    IsoDateRoundTrip(a);
    IsoDateRoundTrip(b);
  }
}
