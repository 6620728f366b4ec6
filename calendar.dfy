/** The simulated calendar: Gregorian dates as (year, month, day), the
    one-day step of the clock, day-of-year for the sprint trigger and the
    zero-padded "YYYY-MM" key of the monthly financial report. */
module Calendar {

  datatype Date = Date(year: int, month: int, day: int)

  predicate IsLeapYear(y: int) {
    (y % 4 == 0 && y % 100 != 0) || y % 400 == 0
  }

  function DaysInMonth(y: int, m: int): (n: int)
    requires 1 <= m <= 12
    ensures 28 <= n <= 31
    ensures m == 2 ==> (n == 29 <==> IsLeapYear(y))
    ensures m != 2 ==> (n == 30 <==> m in {4, 6, 9, 11})
  {
    if m == 2 then (if IsLeapYear(y) then 29 else 28)
    else if m == 4 || m == 6 || m == 9 || m == 11 then 30
    else 31
  }

  predicate ValidDate(d: Date) {
    d.year >= 1 && 1 <= d.month <= 12 && 1 <= d.day <= DaysInMonth(d.year, d.month)
  }

  /** A JavaScript Date always denotes a real calendar day. */
  type CalDate = d: Date | ValidDate(d) witness Date(2025, 1, 1)

  /** The date the simulation starts from and is reset to: `new Date(2025, 0, 1)`. */
  const StartDate: CalDate := Date(2025, 1, 1)

  function YearLength(y: int): int { if IsLeapYear(y) then 366 else 365 }

  /** Days of year `y` before the first of month `m`. */
  function DaysBeforeMonth(y: int, m: int): (n: nat)
    requires 1 <= m <= 13
    decreases m
  {
    if m == 1 then 0 else DaysBeforeMonth(y, m - 1) + DaysInMonth(y, m - 1)
  }

  lemma DaysBeforeMonthBounds(y: int, m: int)
    requires 1 <= m <= 13
    ensures 28 * (m - 1) <= DaysBeforeMonth(y, m) <= 31 * (m - 1)
    decreases m
  {
    if m > 1 { DaysBeforeMonthBounds(y, m - 1); }
  }

  lemma DaysBeforeYearEnd(y: int)
    ensures DaysBeforeMonth(y, 13) == YearLength(y)
  {
  }

  /** Ordinal of the day within its year; January 1 is day 1. This is what
      `floor((date - new Date(year, 0, 0)) / 86400000)` computes in a time
      zone without daylight saving time; where summer time applies, that
      expression is one less on summer-time dates. */
  function DayOfYear(d: CalDate): (n: int)
  {
    DaysBeforeMonth(d.year, d.month) + d.day
  }

  lemma DayOfYearRange(d: CalDate)
    ensures 1 <= DayOfYear(d) <= YearLength(d.year)
  {
    DaysBeforeMonthBounds(d.year, d.month);
    if d.month < 12 {
      DaysBeforeMonthMono(d.year, d.month + 1, 13);
    }
  }

  lemma DaysBeforeMonthMono(y: int, a: int, b: int)
    requires 1 <= a <= b <= 13
    ensures DaysBeforeMonth(y, a) <= DaysBeforeMonth(y, b)
    decreases b - a
  {
    if a < b { DaysBeforeMonthMono(y, a, b - 1); }
  }

  /** Days in the years 1 .. y-1. */
  function DaysBeforeYear(y: int): (n: nat)
    requires y >= 1
  {
    if y == 1 then 0 else DaysBeforeYear(y - 1) + YearLength(y - 1)
  }

  /** Days elapsed since 0001-01-01 (that day is 1): an absolute day count. */
  function DayNumber(d: CalDate): int {
    DaysBeforeYear(d.year) + DayOfYear(d)
  }

  /** `next.setDate(next.getDate() + 1)`. */
  function NextDay(d: CalDate): (r: CalDate)
    ensures DayNumber(r) == DayNumber(d) + 1
    ensures r.day == 1 <==> d.day == DaysInMonth(d.year, d.month)
  {
    if d.day < DaysInMonth(d.year, d.month) then
      d.(day := d.day + 1)
    else if d.month < 12 then
      Date(d.year, d.month + 1, 1)
    else
      DaysBeforeYearEnd(d.year);
      Date(d.year + 1, 1, 1)
  }

  /** `next.setDate(next.getDate() + n)` for a non-negative `n`. */
  function AddDays(d: CalDate, n: nat): (r: CalDate)
    decreases n
  {
    if n == 0 then d else AddDays(NextDay(d), n - 1)
  }

  lemma {:induction false} AddDaysCounts(d: CalDate, n: nat)
    ensures DayNumber(AddDays(d, n)) == DayNumber(d) + n
    decreases n
  {
    if n > 0 { AddDaysCounts(NextDay(d), n - 1); }
  }

  lemma {:induction false} AddDaysCompose(d: CalDate, a: nat, b: nat)
    ensures AddDays(AddDays(d, a), b) == AddDays(d, a + b)
    decreases a
  {
    if a > 0 {
      var e := NextDay(d);
      AddDaysCompose(e, a - 1, b);
      assert AddDays(d, a) == AddDays(e, a - 1);
      assert AddDays(d, a + b) == AddDays(e, a - 1 + b);
    }
  }

  lemma DayNumberDeterminesDayOfYear(d: CalDate)
    ensures DaysBeforeYear(d.year) < DayNumber(d) <= DaysBeforeYear(d.year) + YearLength(d.year)
  {
    DayOfYearRange(d);
  }

  lemma DaysBeforeYearMono(a: int, b: int)
    requires 1 <= a <= b
    ensures DaysBeforeYear(a) + (b - a) * 365 <= DaysBeforeYear(b)
    decreases b - a
  {
    if a < b { DaysBeforeYearMono(a, b - 1); }
  }

  /** Two dates with the same day count are the same date, so the day
      count is a faithful encoding of the calendar. */
  lemma DayNumberInjective(d: CalDate, e: CalDate)
    requires DayNumber(d) == DayNumber(e)
    ensures d == e
  {
    SameDayNumberSameYear(d, e);
    if d.month != e.month {
      DifferentMonthDifferentDay(d, e);
    }
  }

  lemma SameDayNumberSameYear(d: CalDate, e: CalDate)
    requires DayNumber(d) == DayNumber(e)
    ensures d.year == e.year
  {
    DayNumberDeterminesDayOfYear(d);
    DayNumberDeterminesDayOfYear(e);
    if d.year < e.year {
      DaysBeforeYearStep(d.year, e.year);
    } else if e.year < d.year {
      DaysBeforeYearStep(e.year, d.year);
    }
  }

  lemma DifferentMonthDifferentDay(d: CalDate, e: CalDate)
    requires d.year == e.year && d.month != e.month
    ensures DayOfYear(d) != DayOfYear(e)
  {
    if d.month < e.month {
      DaysBeforeMonthMono(d.year, d.month + 1, e.month);
    } else {
      DaysBeforeMonthMono(d.year, e.month + 1, d.month);
    }
  }

  lemma DaysBeforeYearStep(a: int, b: int)
    requires 1 <= a < b
    ensures DaysBeforeYear(a) + YearLength(a) <= DaysBeforeYear(b)
    decreases b - a
  {
    if a + 1 < b {
      DaysBeforeYearStep(a, b - 1);
    }
  }

  /** Calendar order: `a` is strictly earlier than `b`. */
  predicate Before(a: CalDate, b: CalDate) {
    a.year < b.year || (a.year == b.year && (a.month < b.month || (a.month == b.month && a.day < b.day)))
  }

  /** An integer that orders dates as `getTime()` does (dates at midnight). */
  function SortKey(d: CalDate): (k: int)
  {
    d.year * 512 + d.month * 32 + d.day
  }

  lemma SortKeyOrders(a: CalDate, b: CalDate)
    ensures SortKey(a) < SortKey(b) <==> Before(a, b)
    ensures SortKey(a) == SortKey(b) <==> a == b
  {
  }

  // ---- decimal text, used for "YYYY-MM" and for ids rendered as text ----

  function DigitChar(n: nat): (c: char)
    requires n < 10
    ensures '0' <= c <= '9'
  {
    ('0' as int + n) as char
  }

  /** `String(n)` for a non-negative integer. */
  function NatToString(n: nat): (s: string)
    ensures |s| >= 1
    ensures |s| == 1 <==> n < 10
    ensures 10 <= n < 100 ==> |s| == 2
    ensures forall i :: 0 <= i < |s| ==> '0' <= s[i] <= '9'
    decreases n
  {
    if n < 10 then [DigitChar(n)] else NatToString(n / 10) + [DigitChar(n % 10)]
  }

  /** `String(n)` for any integer. */
  function IntToString(n: int): (s: string)
    ensures |s| >= 1
  {
    if n >= 0 then NatToString(n) else "-" + NatToString(-n)
  }

  predicate AllDigits(s: string) {
    forall i :: 0 <= i < |s| ==> '0' <= s[i] <= '9'
  }

  /** Reads decimal digits back into a number. */
  function ParseDigits(s: string): nat
    decreases |s|
  {
    if s == [] then 0
    else
      var c := s[|s| - 1];
      var d := if '0' <= c <= '9' then c as int - '0' as int else 0;
      ParseDigits(s[..|s| - 1]) * 10 + d
  }

  lemma {:induction false} NatToStringRoundTrip(n: nat)
    ensures ParseDigits(NatToString(n)) == n
    decreases n
  {
    var s := NatToString(n);
    if n >= 10 {
      NatToStringRoundTrip(n / 10);
      assert s[..|s| - 1] == NatToString(n / 10);
    }
  }

  lemma NatToStringInjective(a: nat, b: nat)
    requires NatToString(a) == NatToString(b)
    ensures a == b
  {
    NatToStringRoundTrip(a);
    NatToStringRoundTrip(b);
  }

  /** `String(m).padStart(2, '0')`. */
  function Pad2(m: nat): (s: string)
    ensures m < 100 ==> |s| == 2
  {
    var t := NatToString(m);
    if |t| < 2 then "0" + t else t
  }

  lemma Pad2RoundTrip(m: nat)
    requires m < 100
    ensures ParseDigits(Pad2(m)) == m
  {
    NatToStringRoundTrip(m);
    var t := NatToString(m);
    if |t| < 2 {
      assert |t| == 1;
      assert ("0" + t)[..1] == "0";
    }
  }

  /** The financial report's month key (App.tsx:555): year, '-', two-digit month. */
  function MonthKey(d: CalDate): (k: string)
    ensures |k| == |NatToString(d.year)| + 3
  {
    NatToString(d.year) + "-" + Pad2(d.month)
  }

  /** Equal keys mean the same calendar month, so "one record per key" is
      "one record per month". */
  lemma MonthKeyInjective(d: CalDate, e: CalDate)
    requires MonthKey(d) == MonthKey(e)
    ensures d.year == e.year && d.month == e.month
  {
    var k := MonthKey(d);
    var n := |NatToString(d.year)|;
    assert |NatToString(e.year)| == n;
    assert k[..n] == NatToString(d.year);
    assert MonthKey(e)[..n] == NatToString(e.year);
    NatToStringInjective(d.year, e.year);
    assert k[n + 1..] == Pad2(d.month);
    assert MonthKey(e)[n + 1..] == Pad2(e.month);
    Pad2RoundTrip(d.month);
    Pad2RoundTrip(e.month);
  }

  lemma MonthKeyOfSameMonth(d: CalDate, e: CalDate)
    requires d.year == e.year && d.month == e.month
    ensures MonthKey(d) == MonthKey(e)
  {
  }
}
