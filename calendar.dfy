/**
 * Gregorian calendar arithmetic and the week bucket of a sales record
 * (DtoSalesData.WeekOfYear). The week number follows the rule that
 * Calendar.GetWeekOfYear applies for CalendarWeekRule.FirstFullWeek with
 * Monday as the first day of the week: week 1 starts on the first Monday
 * of the year, and the days before it belong to the last week of the
 * previous year. This is not ISO 8601 week numbering.
 */
module Calendar {

  datatype Date = Date(year: int, month: int, day: int)

  predicate IsLeapYear(year: int) {
    year % 4 == 0 && (year % 100 != 0 || year % 400 == 0)
  }

  function DaysInYear(year: int): int {
    if IsLeapYear(year) then 366 else 365
  }

  /** Days of the year before the first of `month` (month 13 stands for the year's end). */
  function DaysToMonth(year: int, month: int): int
    requires 1 <= month <= 13
  {
    var table :=
      if IsLeapYear(year) then [0, 31, 60, 91, 121, 152, 182, 213, 244, 274, 305, 335, 366]
      else [0, 31, 59, 90, 120, 151, 181, 212, 243, 273, 304, 334, 365];
    table[month - 1]
  }

  function DaysInMonth(year: int, month: int): int
    requires 1 <= month <= 12
  {
    DaysToMonth(year, month + 1) - DaysToMonth(year, month)
  }

  /** The dates a DateTime can hold: years 1 to 9999 of the proleptic Gregorian calendar. */
  predicate IsValidDate(d: Date) {
    && 1 <= d.year <= 9999
    && 1 <= d.month <= 12
    && 1 <= d.day <= DaysInMonth(d.year, d.month)
  }

  type CalendarDate = d: Date | IsValidDate(d) witness Date(1, 1, 1)

  /** One-based day of the year. */
  function DayOfYear(d: CalendarDate): (n: int)
    ensures 1 <= n <= DaysInYear(d.year)
  {
    DaysToMonth(d.year, d.month) + d.day
  }

  /** Days from 0001-01-01 to January 1 of `year`. */
  function DaysBeforeYear(year: int): int
    requires year >= 1
  {
    var y := year - 1;
    y * 365 + y / 4 - y / 100 + y / 400
  }

  /** Day number of a date counted from 0001-01-01 (day 0), i.e. DateTime ticks divided by ticks per day. */
  function DayNumber(d: CalendarDate): int {
    DaysBeforeYear(d.year) + DayOfYear(d) - 1
  }

  const Monday := 1

  /** DayOfWeek numbering: 0 is Sunday, 1 is Monday, ..., 6 is Saturday; 0001-01-01 is a Monday. */
  function DayOfWeek(d: CalendarDate): (w: int)
    ensures 0 <= w < 7
  {
    (DayNumber(d) + 1) % 7
  }

  function LastDayOf(year: int): CalendarDate
    requires 1 <= year <= 9999
  {
    Date(year, 12, 31)
  }

  /**
   * Week of the year under the first-full-week rule with Monday first.
   * With seven required full days the adjustment `offset -= 7` of the general
   * rule can never apply, so it does not appear. A day before the year's
   * first Monday takes the week of December 31 of the previous year; in year
   * 1 that case cannot arise, because 0001-01-01 is a Monday.
   */
  function WeekOfYear(d: CalendarDate): (week: int)
    ensures 1 <= week <= 53
    decreases d.year
  {
    var day := DayOfYear(d) - 1 - JanuaryOffset(d);
    if day >= 0 then
      day / 7 + 1
    else
      WeekOfYear(LastDayOf(d.year - 1))
  }

  /**
   * The offset of the rule: the weekday of January 1 is found from the
   * date's own weekday and day of the year, and the offset counts the days
   * from January 1 to the first Monday.
   */
  function JanuaryOffset(d: CalendarDate): (offset: int)
    ensures 0 <= offset < 7
    ensures d.year == 1 ==> offset == 0
  {
    var dayOfYear := DayOfYear(d) - 1;
    var dayForJan1 := DayOfWeek(d) - dayOfYear % 7;
    FirstMondayOfYearOne(d);
    (Monday - dayForJan1 + 14) % 7
  }

  /** In year 1 the first Monday is January 1, so no day of that year precedes it. */
  lemma FirstMondayOfYearOne(d: CalendarDate)
    ensures d.year == 1 ==> (Monday - (DayOfWeek(d) - (DayOfYear(d) - 1) % 7) + 14) % 7 == 0
  {
    if d.year == 1 {
      var n, k := DayNumber(d), DayOfYear(d) - 1;
      assert DaysBeforeYear(1) == 0;
      assert n == k;
      assert DayOfWeek(d) == (n + 1) % 7;
      YearOneOffset(DayOfWeek(d), n, k);
    }
  }

  lemma YearOneOffset(w: int, n: int, k: int)
    requires n == k && w == (n + 1) % 7
    ensures (Monday - (w - k % 7) + 14) % 7 == 0
  {
    OffsetStep(w, 0, k);
  }

  /** Year of the bucket (line 351): one year back when "now" is in January and the week is past 4. */
  function BucketYear(d: CalendarDate, nowMonth: int): (year: int)
    ensures d.year - 1 <= year <= d.year
    ensures nowMonth != 1 ==> year == d.year
  {
    if nowMonth == 1 && WeekOfYear(d) > 4 then d.year - 1 else d.year
  }

  /** The year-week bucket `year * 100 + week`; it decodes back into its year and its week. */
  function YearWeek(d: CalendarDate, nowMonth: int): (r: int)
    ensures r % 100 == WeekOfYear(d)
    ensures r / 100 == BucketYear(d, nowMonth)
  {
    var year, week := BucketYear(d, nowMonth), WeekOfYear(d);
    HundredSplit(year, week);
    year * 100 + week
  }

  lemma HundredSplit(year: int, week: int)
    requires 0 <= week < 100
    ensures (year * 100 + week) % 100 == week && (year * 100 + week) / 100 == year
  {
  }

  /** Weekday of the day `k` days after January 1 of `year`. */
  function WeekdayOfDayIndex(year: int, k: int): int
    requires year >= 1
  {
    (DaysBeforeYear(year) + k + 1) % 7
  }

  /** Number of Mondays among the days with zero-based indices 0 to k of `year`. */
  function MondaysThrough(year: int, k: int): nat
    requires year >= 1
    decreases k + 1
  {
    if k < 0 then 0
    else MondaysThrough(year, k - 1) + (if WeekdayOfDayIndex(year, k) == Monday then 1 else 0)
  }

  /** Zero-based index of the first Monday of `year`. */
  function FirstMondayIndex(year: int): (index: int)
    requires year >= 1
    ensures 0 <= index < 7
  {
    (Monday - WeekdayOfDayIndex(year, 0) + 7) % 7
  }

  /** Adding a multiple of seven leaves the residue modulo seven unchanged. */
  lemma SevenShift(x: int, m: int)
    ensures (x + 7 * m) % 7 == x % 7
  {
  }

  /** Counting one more day adds to the number of whole weeks exactly when the count reaches a multiple of seven. */
  lemma SevenStep(x: int)
    requires x >= 1
    ensures x / 7 == (x - 1) / 7 + (if x % 7 == 0 then 1 else 0)
  {
    var q, r := (x - 1) / 7, (x - 1) % 7;
    assert x == 7 * q + (r + 1);
    if r == 6 {
      SevenShift(0, q + 1);
    } else {
      SevenShift(r + 1, q);
    }
  }

  /**
   * Day `k` after a January 1 preceded by `b` days is a Monday exactly when
   * it lies a whole number of weeks after the first Monday.
   */
  lemma MondayStep(b: int, k: int)
    ensures (b + k + 1) % 7 == Monday <==> (k - (Monday - (b + 1) % 7 + 7) % 7) % 7 == 0
  {
    var a, r := (b + 1) % 7, k % 7;
    var f := (Monday - a + 7) % 7;
    assert b + k + 1 == (a + r) + 7 * ((b + 1) / 7 + k / 7);
    SevenShift(a + r, (b + 1) / 7 + k / 7);
    var e := if a >= 2 then 1 else 0;
    assert f == Monday - a + 7 * e;
    assert k - f == (a + r - 1) + 7 * (k / 7 - e);
    SevenShift(a + r - 1, k / 7 - e);
  }

  /** Day `k` of `year` is a Monday exactly when it lies a whole number of weeks after the year's first Monday. */
  lemma MondayAt(year: int, k: int)
    requires year >= 1
    ensures WeekdayOfDayIndex(year, k) == Monday <==> (k - FirstMondayIndex(year)) % 7 == 0
  {
    var b := DaysBeforeYear(year);
    assert WeekdayOfDayIndex(year, k) == (b + k + 1) % 7;
    assert FirstMondayIndex(year) == (Monday - (b + 1) % 7 + 7) % 7;
    MondayStep(b, k);
  }

  lemma {:induction false} MondaysThroughClosedForm(year: int, k: int)
    requires year >= 1
    ensures MondaysThrough(year, k) ==
      if k >= FirstMondayIndex(year) then (k - FirstMondayIndex(year)) / 7 + 1 else 0
    decreases k + 1
  {
    if k >= 0 {
      var f := FirstMondayIndex(year);
      MondaysThroughClosedForm(year, k - 1);
      MondayAt(year, k);
      if k > f {
        SevenStep(k - f);
      } else if k < f {
        assert (k - f) % 7 == k - f + 7;
      }
    }
  }

  /** The offset of line 350, computed from a weekday `w` and a day index `k`, is the index of the first Monday. */
  lemma OffsetStep(w: int, b: int, k: int)
    requires w == (b + k + 1) % 7
    ensures (Monday - (w - k % 7) + 14) % 7 == (Monday - (b + 1) % 7 + 7) % 7
  {
    var a, r := (b + 1) % 7, k % 7;
    assert b + k + 1 == (a + r) + 7 * ((b + 1) / 7 + k / 7);
    SevenShift(a + r, (b + 1) / 7 + k / 7);
    if a + r < 7 {
      assert Monday - (w - r) + 14 == (Monday - a + 7) + 7;
      SevenShift(Monday - a + 7, 1);
    } else {
      assert Monday - (w - r) + 14 == (Monday - a + 7) + 7 * 2;
      SevenShift(Monday - a + 7, 2);
    }
  }

  /** The offset that the rule computes from a date is the index of its year's first Monday. */
  lemma OffsetIsFirstMonday(d: CalendarDate)
    ensures JanuaryOffset(d) == FirstMondayIndex(d.year)
  {
    var b := DaysBeforeYear(d.year);
    assert DayOfWeek(d) == (b + (DayOfYear(d) - 1) + 1) % 7;
    assert FirstMondayIndex(d.year) == (Monday - (b + 1) % 7 + 7) % 7;
    OffsetStep(DayOfWeek(d), b, DayOfYear(d) - 1);
  }

  /** The week of a date, read from the index of its year's first Monday. */
  lemma WeekFromFirstMonday(d: CalendarDate)
    ensures var k, off := DayOfYear(d) - 1, FirstMondayIndex(d.year);
      && (k >= off ==> WeekOfYear(d) == (k - off) / 7 + 1)
      && (k < off ==> d.year > 1 && WeekOfYear(d) == WeekOfYear(LastDayOf(d.year - 1)))
  {
    OffsetIsFirstMonday(d);
  }

  /** From its year's first Monday on, a date's week is the number of Mondays of the year up to it. */
  lemma WeekIsMondayCount(d: CalendarDate)
    requires DayOfYear(d) - 1 >= FirstMondayIndex(d.year)
    ensures WeekOfYear(d) == MondaysThrough(d.year, DayOfYear(d) - 1)
  {
    MondaysThroughClosedForm(d.year, DayOfYear(d) - 1);
    WeekFromFirstMonday(d);
  }

  /**
   * Reference reading of the rule: a date's week is the number of Mondays of
   * its year up to and including it; a date before the first Monday has the
   * week of the previous year's last day, which is that year's number of Mondays.
   */
  lemma WeekCountsMondays(d: CalendarDate)
    ensures var m := MondaysThrough(d.year, DayOfYear(d) - 1);
      && (m > 0 ==> WeekOfYear(d) == m)
      && (m == 0 ==> d.year > 1 && WeekOfYear(d) == MondaysThrough(d.year - 1, DaysInYear(d.year - 1) - 1))
  {
    var k, off := DayOfYear(d) - 1, FirstMondayIndex(d.year);
    MondaysThroughClosedForm(d.year, k);
    if k >= off {
      WeekIsMondayCount(d);
    } else {
      WeekFromFirstMonday(d);
      var last := LastDayOf(d.year - 1);
      var kl := DaysInYear(d.year - 1) - 1;
      assert DayOfYear(last) - 1 == kl;
      assert kl >= FirstMondayIndex(last.year);
      WeekIsMondayCount(last);
    }
  }

  /** Dates of 2024, a leap year that starts on a Monday and so has 53 weeks. */
  lemma WeekExamples()
    ensures WeekOfYear(Date(2024, 3, 4)) == 10
    ensures WeekOfYear(Date(2024, 12, 31)) == 53
  {
    assert FirstMondayIndex(2024) == 0;
    WeekFromFirstMonday(Date(2024, 3, 4));
    WeekFromFirstMonday(Date(2024, 12, 31));
  }

  /** Dates of 2021: the first-full-week rule differs from ISO 8601, which puts 2021-01-01 in week 53 of 2020. */
  lemma WeekExamplesBeforeFirstMonday()
    ensures WeekOfYear(Date(2021, 1, 1)) == 52
    ensures WeekOfYear(Date(2021, 1, 4)) == 1
  {
    assert FirstMondayIndex(2021) == 3;
    assert FirstMondayIndex(2020) == 5;
    WeekFromFirstMonday(Date(2021, 1, 1));
    WeekFromFirstMonday(Date(2020, 12, 31));
    WeekFromFirstMonday(Date(2021, 1, 4));
  }

  /** Outside January the bucket carries the record's own year. */
  lemma BucketYearOutsideJanuary(d: CalendarDate, nowMonth: int)
    requires nowMonth != 1
    ensures YearWeek(d, nowMonth) / 100 == d.year
  {
  }

  /** When "now" is in January, every December date is put one year before its own year. */
  lemma DecemberSeenInJanuary(d: CalendarDate)
    requires d.month == 12
    ensures YearWeek(d, 1) / 100 == d.year - 1
  {
    WeekFromFirstMonday(d);
  }

  /**
   * The correction puts early-January days that belong to the previous
   * year's last week into that year's bucket: 2021-01-01, seen in January,
   * shares its bucket with 2020-12-31.
   */
  lemma JanuaryCorrectionExamples()
    ensures YearWeek(Date(2021, 1, 1), 1) == YearWeek(Date(2020, 12, 31), 3) == 202052
    ensures YearWeek(Date(2021, 1, 1), 3) == 202152
  {
    assert FirstMondayIndex(2021) == 3;
    assert FirstMondayIndex(2020) == 5;
    WeekFromFirstMonday(Date(2021, 1, 1));
    WeekFromFirstMonday(Date(2020, 12, 31));
  }

  /** The correction also moves the end of January: 2024-01-29, seen in January, shares its bucket with 2023-01-30. */
  lemma JanuaryCorrectionMovesLateJanuary()
    ensures YearWeek(Date(2024, 1, 29), 1) == YearWeek(Date(2023, 1, 30), 3) == 202305
  {
    assert FirstMondayIndex(2024) == 0;
    assert FirstMondayIndex(2023) == 1;
    WeekFromFirstMonday(Date(2024, 1, 29));
    WeekFromFirstMonday(Date(2023, 1, 30));
  }
}
