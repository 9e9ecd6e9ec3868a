/** `new Date("YYYY-MM-DD")` and the day count of a rental period. */
module Dates {
  import opened Wrappers
  import opened Text

  /** `1000 * 60 * 60 * 24`: milliseconds in a day. */
  const MsPerDay: int := 86400000

  function Abs(x: int): (r: nat)
    ensures r == x || r == -x
  {
    if x < 0 then -x else x
  }

  /** Days from 1970-01-01 to the given proleptic Gregorian date; a day past
      the end of its month runs on into the next month. */
  function DaysFromCivil(year: int, month: int, day: int): int
    requires 1 <= month <= 12
  {
    var y := if month <= 2 then year - 1 else year;
    var era := y / 400;
    var yoe := y - era * 400;
    var mp := if month > 2 then month - 3 else month + 9;
    var doy := (153 * mp + 2) / 5 + day - 1;
    var doe := yoe * 365 + yoe / 4 - yoe / 100 + doy;
    era * 146097 + doe - 719468
  }

  /** Leap years of the proleptic Gregorian calendar. */
  predicate IsLeapYear(y: int) {
    y % 4 == 0 && (y % 100 != 0 || y % 400 == 0)
  }

  /** The length of a month, as an independent reference for `DaysFromCivil`. */
  function DaysInMonth(y: int, m: int): (n: nat)
    requires 1 <= m <= 12
    ensures 28 <= n <= 31
  {
    if m == 2 then (if IsLeapYear(y) then 29 else 28)
    else if m == 4 || m == 6 || m == 9 || m == 11 then 30
    else 31
  }

  /** Day 0 is 1970-01-01. */
  lemma DaysFromCivilEpoch()
    ensures DaysFromCivil(1970, 1, 1) == 0
  {
  }

  /** The day after day `d` of a month is one day later. */
  lemma DaysFromCivilNextDay(y: int, m: int, d: int)
    requires 1 <= m <= 12
    ensures DaysFromCivil(y, m, d + 1) == DaysFromCivil(y, m, d) + 1
  {
  }

  /** `x / d` steps up by one exactly at the multiples of `d`. */
  lemma DivStep(x: int, d: int)
    requires d > 0
    ensures x / d - (x - 1) / d == if x % d == 0 then 1 else 0
  {
    var q, r := x / d, x % d;
    if r == 0 {
      ModUnique(x - 1, d, q - 1, d - 1);
    } else {
      ModUnique(x - 1, d, q, r - 1);
    }
  }

  /** Removing a multiple of `d` keeps the remainder by `d`. */
  lemma ModShift(x: int, d: int, k: int)
    requires d > 0
    ensures (x - d * k) % d == x % d
  {
    assert x - d * k == d * (x / d - k) + x % d;
    ModUnique(x - d * k, d, x / d - k, x % d);
  }

  /** From March 1 of one year to March 1 of the next is a year, whose length
      depends on whether the next year has a February 29. */
  lemma {:induction false} MarchToMarch(y: int)
    ensures DaysFromCivil(y, 3, 1) - DaysFromCivil(y - 1, 3, 1) ==
            if IsLeapYear(y) then 366 else 365
  {
    var era, era' := y / 400, (y - 1) / 400;
    var yoe, yoe' := y - era * 400, (y - 1) - era' * 400;
    assert yoe == y % 400;
    if yoe == 0 {
      ModUnique(y - 1, 400, era - 1, 399);
      assert y % 4 == 0 && y % 100 == 0 && y % 400 == 0 by {
        ModShift(y, 4, 100 * era);
        ModShift(y, 100, 4 * era);
      }
    } else {
      ModUnique(y - 1, 400, era, yoe - 1);
      DivStep(yoe, 4);
      DivStep(yoe, 100);
      ModShift(y, 4, 100 * era);
      ModShift(y, 100, 4 * era);
      assert y % 400 != 0;
    }
  }

  /** The first of the next month is as many days later as the month is long. */
  lemma MonthStep(y: int, m: int)
    requires 1 <= m <= 11
    ensures DaysFromCivil(y, m + 1, 1) - DaysFromCivil(y, m, 1) == DaysInMonth(y, m)
  {
    if m == 2 {
      MarchToMarch(y);
      assert DaysFromCivil(y, 2, 1) == DaysFromCivil(y - 1, 3, 1) + 337;
    }
  }

  /** The last day of a month is followed by the first day of the next one,
      and December 31 by January 1 of the next year. */
  lemma MonthRollover(y: int, m: int)
    requires 1 <= m <= 12
    ensures m < 12 ==> DaysFromCivil(y, m + 1, 1) == DaysFromCivil(y, m, DaysInMonth(y, m)) + 1
    ensures m == 12 ==> DaysFromCivil(y + 1, 1, 1) == DaysFromCivil(y, 12, 31) + 1
  {
    if m < 12 {
      MonthStep(y, m);
    }
  }

  /** A whole year is 365 days, or 366 when it has a February 29. */
  lemma YearStep(y: int)
    ensures DaysFromCivil(y + 1, 1, 1) - DaysFromCivil(y, 1, 1) ==
            if IsLeapYear(y) then 366 else 365
  {
    MarchToMarch(y);
    assert DaysFromCivil(y, 1, 1) == DaysFromCivil(y - 1, 3, 1) + 306;
    assert DaysFromCivil(y + 1, 1, 1) == DaysFromCivil(y, 3, 1) + 306;
  }

  function TwoDigits(a: char, b: char): nat
    requires IsDigit(a) && IsDigit(b)
  {
    10 * DigitValue(a) + DigitValue(b)
  }

  /** The ten characters `YYYY-MM-DD` of a date input with a month from 01 to
      12 and a day from 01 to 31. */
  predicate IsDateText(s: string) {
    |s| == 10 && s[4] == '-' && s[7] == '-' &&
    IsDigit(s[0]) && IsDigit(s[1]) && IsDigit(s[2]) && IsDigit(s[3]) &&
    IsDigit(s[5]) && IsDigit(s[6]) && IsDigit(s[8]) && IsDigit(s[9]) &&
    1 <= TwoDigits(s[5], s[6]) <= 12 && 1 <= TwoDigits(s[8], s[9]) <= 31
  }

  /** The day number (days since 1970-01-01) written by a date text. */
  function DayNumber(s: string): int
    requires IsDateText(s)
  {
    var year := 100 * TwoDigits(s[0], s[1]) + TwoDigits(s[2], s[3]);
    DaysFromCivil(year, TwoDigits(s[5], s[6]), TwoDigits(s[8], s[9]))
  }

  /** `new Date(s).getTime()` for a date-only string, which denotes midnight
      UTC of that day; `None` stands for an Invalid Date (`NaN`). */
  function DateValue(s: string): (r: Option<int>)
    ensures r.Some? <==> IsDateText(s)
    ensures r.Some? ==> r.value == MsPerDay * DayNumber(s)
  {
    if IsDateText(s) then Some(MsPerDay * DayNumber(s)) else None
  }

  /** `Math.ceil(Math.abs(end - start) / MsPerDay)`: elapsed time rounded up
      to whole days, whatever the order of the two instants. */
  function DayCount(start: int, end: int): (days: nat)
    ensures MsPerDay * (days - 1) < Abs(end - start) <= MsPerDay * days
  {
    (Abs(end - start) + MsPerDay - 1) / MsPerDay
  }

  /** A reversed range counts the same days as the forward one. */
  lemma DayCountSymmetric(start: int, end: int)
    ensures DayCount(start, end) == DayCount(end, start)
  {
    assert Abs(end - start) == Abs(start - end);
  }

  /** No day is counted only when the two instants coincide. */
  lemma DayCountZeroIff(start: int, end: int)
    ensures DayCount(start, end) == 0 <==> start == end
  {
  }

  /** A range of exactly `k` days counts `k` days. */
  lemma DayCountWholeDays(start: int, k: nat)
    ensures DayCount(start, start + k * MsPerDay) == k
  {
    assert Abs(k * MsPerDay) == MsPerDay * k;
  }

  /** Exactly 24 hours bill one day; one minute more bills two. */
  lemma DayCountExamples(start: int)
    ensures DayCount(start, start + 24 * 60 * 60 * 1000) == 1
    ensures DayCount(start, start + 24 * 60 * 60 * 1000 + 60 * 1000) == 2
  {
  }

  /** Two dates of the same month `k` days apart are `k` days apart. */
  lemma DayNumberSameMonth(s: string, t: string)
    requires IsDateText(s) && IsDateText(t) && s[..8] == t[..8]
    ensures DayNumber(t) - DayNumber(s) == TwoDigits(t[8], t[9]) - TwoDigits(s[8], s[9])
  {
    assert s[0] == t[0] && s[1] == t[1] && s[2] == t[2] && s[3] == t[3];
    assert s[5] == t[5] && s[6] == t[6];
  }

  /** Within one month the day count is the difference of the days. */
  lemma DayCountSameMonth(s: string, t: string)
    requires IsDateText(s) && IsDateText(t) && s[..8] == t[..8]
    requires TwoDigits(s[8], s[9]) <= TwoDigits(t[8], t[9])
    ensures DayCount(DateValue(s).value, DateValue(t).value) ==
            TwoDigits(t[8], t[9]) - TwoDigits(s[8], s[9])
  {
    DayNumberSameMonth(s, t);
    var k := TwoDigits(t[8], t[9]) - TwoDigits(s[8], s[9]);
    assert DateValue(t).value == DateValue(s).value + k * MsPerDay;
    DayCountWholeDays(DateValue(s).value, k);
  }

  /** The epoch and a leap-year March 1. */
  lemma DateValueExamples()
    ensures DateValue("1970-01-01") == Some(0)
    ensures DateValue("2024-03-01") == Some(19783 * MsPerDay)
    ensures DateValue("2024-13-01") == None
  {
    assert DayNumber("1970-01-01") == DaysFromCivil(1970, 1, 1);
    assert DayNumber("2024-03-01") == DaysFromCivil(2024, 3, 1);
  }

  /** A period ending on March 1 spans a February 29 in a leap year... */
  lemma LeapDayCount()
    ensures DayCount(DateValue("2024-02-28").value, DateValue("2024-03-01").value) == 2
  {
    assert DayNumber("2024-02-28") == DaysFromCivil(2024, 2, 28) == 19781;
    assert DayNumber("2024-03-01") == DaysFromCivil(2024, 3, 1) == 19783;
    DayCountWholeDays(MsPerDay * 19781, 2);
  }

  /** ...and not in a common year. */
  lemma CommonYearDayCount()
    ensures DayCount(DateValue("2023-02-28").value, DateValue("2023-03-01").value) == 1
  {
    assert DayNumber("2023-02-28") == DaysFromCivil(2023, 2, 28) == 19416;
    assert DayNumber("2023-03-01") == DaysFromCivil(2023, 3, 1) == 19417;
    DayCountWholeDays(MsPerDay * 19416, 1);
  }

  /** New Year's Eve to New Year's Day is one day. */
  lemma NewYearDayCount()
    ensures DayCount(DateValue("2024-12-31").value, DateValue("2025-01-01").value) == 1
  {
    assert DayNumber("2024-12-31") == DaysFromCivil(2024, 12, 31);
    assert DayNumber("2025-01-01") == DaysFromCivil(2025, 1, 1);
    DayCountWholeDays(MsPerDay * DaysFromCivil(2024, 12, 31), 1);
  }
}
