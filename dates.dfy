/** Calendar dates as the JavaScript `Date` object sees them, in UTC.
    A `Date` is a valid civil date-time (month 1..12, a day that exists in
    that month, milliseconds into the day). The setters the source uses
    (`setDate`, `setMonth`, `setFullYear`) go through ECMAScript's MakeDay,
    which NORMALISES an out-of-range day by rolling it into the following
    month instead of clamping it; `MakeDate` below does the same. */
module Dates {

  const DayMs: int := 86_400_000
  const MinuteMs: int := 60_000

  predicate IsLeapYear(y: int)
  {
    y % 4 == 0 && (y % 100 != 0 || y % 400 == 0)
  }

  function DaysInMonth(y: int, m: int): int
  {
    if m == 2 then (if IsLeapYear(y) then 29 else 28)
    else if m == 4 || m == 6 || m == 9 || m == 11 then 30
    else 31
  }

  function DaysInYear(y: int): int
  {
    if IsLeapYear(y) then 366 else 365
  }

  datatype DateTime = DateTime(year: int, month: int, day: int, ms: int)

  predicate IsValid(d: DateTime)
  {
    1 <= d.month <= 12 && 1 <= d.day <= DaysInMonth(d.year, d.month) && 0 <= d.ms < DayMs
  }

  type Date = d: DateTime | IsValid(d) witness DateTime(1970, 1, 1, 0)

  /** The same time of day on the following calendar day. */
  function NextDay(d: Date): Date
  {
    if d.day < DaysInMonth(d.year, d.month) then d.(day := d.day + 1)
    else if d.month < 12 then DateTime(d.year, d.month + 1, 1, d.ms)
    else DateTime(d.year + 1, 1, 1, d.ms)
  }

  function AddDays(d: Date, n: nat): Date
    decreases n
  {
    if n == 0 then d else AddDays(NextDay(d), n - 1)
  }

  /** ECMAScript's MakeDay followed by MakeDate, for a month in 1..12 and a
      day of the month of at least 1: the first of that month, then `day - 1`
      days later. A day past the month's end lands in the next month. */
  function MakeDate(year: int, month: int, day: int, ms: int): Date
    requires 1 <= month <= 12 && 1 <= day && 0 <= ms < DayMs
  {
    AddDays(DateTime(year, month, 1, ms), day - 1)
  }

  /** `d.setDate(d.getDate() + k)`. */
  function SetDateOffset(d: Date, k: nat): Date
  {
    MakeDate(d.year, d.month, d.day + k, d.ms)
  }

  /** `d.setMonth(d.getMonth() + 1)`. */
  function NextMonth(d: Date): Date
  {
    if d.month == 12 then MakeDate(d.year + 1, 1, d.day, d.ms)
    else MakeDate(d.year, d.month + 1, d.day, d.ms)
  }

  /** `d.setFullYear(d.getFullYear() + 1)`. */
  function NextYear(d: Date): Date
  {
    MakeDate(d.year + 1, d.month, d.day, d.ms)
  }

  /** Whether two dates fall on the same calendar day (`toDateString` equality,
      date-fns `isSameDay`). */
  predicate SameDay(a: Date, b: Date)
  {
    a.year == b.year && a.month == b.month && a.day == b.day
  }

  // ---- Time values: milliseconds since 1970-01-01T00:00:00Z (`getTime()`).

  const DaysBeforeMonthCommon: seq<int> := [0, 31, 59, 90, 120, 151, 181, 212, 243, 273, 304, 334]

  function DaysBeforeMonth(y: int, m: int): int
    requires 1 <= m <= 12
  {
    DaysBeforeMonthCommon[m - 1] + if m > 2 && IsLeapYear(y) then 1 else 0
  }

  /** Days from 1970-01-01 to the first of January of `y` (negative before 1970). */
  function DaysBeforeYear(y: int): int
    decreases if y < 1970 then 1970 - y else y - 1970
  {
    if y == 1970 then 0
    else if y > 1970 then DaysBeforeYear(y - 1) + DaysInYear(y - 1)
    else DaysBeforeYear(y + 1) - DaysInYear(y)
  }

  function DayNumber(d: Date): int
  {
    DaysBeforeYear(d.year) + DaysBeforeMonth(d.year, d.month) + d.day - 1
  }

  function EpochMs(d: Date): int
  {
    DayNumber(d) * DayMs + d.ms
  }

  // ---- Lemmas

  lemma YearStep(y: int)
    ensures DaysBeforeYear(y + 1) == DaysBeforeYear(y) + DaysInYear(y)
  {
  }

  lemma MonthStep(y: int, m: int)
    requires 1 <= m < 12
    ensures DaysBeforeMonth(y, m + 1) == DaysBeforeMonth(y, m) + DaysInMonth(y, m)
  {
  }

  /** The day after `d` is numbered one higher. */
  lemma NextDayNumber(d: Date)
    ensures DayNumber(NextDay(d)) == DayNumber(d) + 1
  {
    if d.day < DaysInMonth(d.year, d.month) {
    } else if d.month < 12 {
      MonthStep(d.year, d.month);
    } else {
      YearStep(d.year);
    }
  }

  /** Adding `n` days moves the time value forward by exactly `n` days. */
  lemma {:induction false} AddDaysTime(d: Date, n: nat)
    ensures EpochMs(AddDays(d, n)) == EpochMs(d) + n * DayMs
    decreases n
  {
    if n > 0 {
      NextDayNumber(d);
      AddDaysTime(NextDay(d), n - 1);
    }
  }

  /** Within a month, adding days only advances the day of the month. */
  lemma {:induction false} AddDaysWithinMonth(d: Date, j: nat)
    requires d.day + j <= DaysInMonth(d.year, d.month)
    ensures AddDays(d, j) == d.(day := d.day + j)
    decreases j
  {
    if j > 0 {
      AddDaysWithinMonth(NextDay(d), j - 1);
    }
  }

  lemma {:induction false} AddDaysAdd(d: Date, a: nat, b: nat)
    ensures AddDays(d, a + b) == AddDays(AddDays(d, a), b)
    decreases a
  {
    if a > 0 {
      AddDaysAdd(NextDay(d), a - 1, b);
    }
  }

  /** MakeDate of a date's own fields is that date. */
  lemma MakeDateOfDate(d: Date)
    ensures MakeDate(d.year, d.month, d.day, d.ms) == d
  {
    var first: Date := DateTime(d.year, d.month, 1, d.ms);
    AddDaysWithinMonth(first, d.day - 1);
    assert first.(day := 1 + (d.day - 1)) == d;
  }

  /** Asking MakeDate for `k` more days is adding `k` days to its result. */
  lemma MakeDateShift(year: int, month: int, day: int, ms: int, k: nat)
    requires 1 <= month <= 12 && 1 <= day && 0 <= ms < DayMs
    ensures MakeDate(year, month, day + k, ms) == AddDays(MakeDate(year, month, day, ms), k)
  {
    AddDaysAdd(DateTime(year, month, 1, ms), day - 1, k);
  }

  /** `setDate(getDate() + k)` is the date exactly `k` days later. */
  lemma SetDateOffsetIsAddDays(d: Date, k: nat)
    ensures SetDateOffset(d, k) == AddDays(d, k)
  {
    MakeDateShift(d.year, d.month, d.day, d.ms, k);
    MakeDateOfDate(d);
  }

  /** ... and its time value is exactly `k` days later. */
  lemma SetDateOffsetAddsDays(d: Date, k: nat)
    ensures SetDateOffset(d, k) == AddDays(d, k)
    ensures EpochMs(SetDateOffset(d, k)) == EpochMs(d) + k * DayMs
  {
    SetDateOffsetIsAddDays(d, k);
    AddDaysTime(d, k);
  }

  /** MakeDate keeps a day that exists in the target month, and otherwise
      rolls the excess into the following month. */
  lemma MakeDateNormalises(year: int, month: int, day: int, ms: int)
    requires 1 <= month <= 12 && 1 <= day <= 31 && 0 <= ms < DayMs
    ensures day <= DaysInMonth(year, month) ==>
      MakeDate(year, month, day, ms) == DateTime(year, month, day, ms)
    ensures day > DaysInMonth(year, month) ==>
      MakeDate(year, month, day, ms) ==
        (if month == 12 then DateTime(year + 1, 1, day - DaysInMonth(year, month), ms)
         else DateTime(year, month + 1, day - DaysInMonth(year, month), ms))
  {
    var first: Date := DateTime(year, month, 1, ms);
    var dim := DaysInMonth(year, month);
    if day <= dim {
      AddDaysWithinMonth(first, day - 1);
    } else {
      AddDaysAdd(first, dim - 1, day - dim);
      AddDaysWithinMonth(first, dim - 1);
      var last: Date := DateTime(year, month, dim, ms);
      var next := NextDay(last);
      assert AddDays(last, day - dim) == AddDays(next, day - dim - 1);
      AddDaysWithinMonth(next, day - dim - 1);
    }
  }

  /** `setMonth(getMonth() + 1)` keeps the day of the month when the next
      month has it, and otherwise rolls over: 31 January becomes 2 or 3 March. */
  lemma NextMonthDay(d: Date)
    ensures var y := if d.month == 12 then d.year + 1 else d.year;
            var m := if d.month == 12 then 1 else d.month + 1;
            if d.day <= DaysInMonth(y, m) then
              NextMonth(d) == DateTime(y, m, d.day, d.ms)
            else
              NextMonth(d) == DateTime(y, m + 1, d.day - DaysInMonth(y, m), d.ms)
  {
    if d.month == 12 {
      MakeDateNormalises(d.year + 1, 1, d.day, d.ms);
    } else {
      MakeDateNormalises(d.year, d.month + 1, d.day, d.ms);
    }
  }

  /** `setFullYear(getFullYear() + 1)` keeps month and day, except that
      29 February becomes 1 March when the next year is not a leap year. */
  lemma NextYearDay(d: Date)
    ensures !(d.month == 2 && d.day == 29) ==>
      NextYear(d) == DateTime(d.year + 1, d.month, d.day, d.ms)
    ensures d.month == 2 && d.day == 29 && !IsLeapYear(d.year + 1) ==>
      NextYear(d) == DateTime(d.year + 1, 3, 1, d.ms)
  {
    MakeDateNormalises(d.year + 1, d.month, d.day, d.ms);
  }

  /** The monthly rollover from the last day of January: one month after
      31 January is 2 March in a leap year and 3 March otherwise, never the
      end of February. */
  lemma JanuaryThirtyFirstRollsOver(d: Date)
    requires d.month == 1 && d.day == 31
    ensures NextMonth(d) == DateTime(d.year, 3, if IsLeapYear(d.year) then 2 else 3, d.ms)
  {
    NextMonthDay(d);
  }

  /** Every moment from 1971 on has a positive time value. */
  lemma AfterEpochYear(d: Date)
    requires d.year > 1970
    ensures EpochMs(d) > 0
  {
    DaysBeforeYearFrom(d.year);
  }

  lemma {:induction false} DaysBeforeYearFrom(y: int)
    requires y > 1970
    ensures DaysBeforeYear(y) >= 365
    decreases y
  {
    if y > 1971 {
      DaysBeforeYearFrom(y - 1);
    }
  }
}
