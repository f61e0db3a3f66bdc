/**
 * Proleptic Gregorian calendar arithmetic, as Python's `datetime.date` does it:
 * days-in-month, leap years, the day ordinal (`date.toordinal`, where
 * 0001-01-01 is day 1), the weekday (`date.weekday`, Monday is 0) and
 * adding a number of days (`date + timedelta(days=n)`).
 */
module Calendar {

  datatype Date = Date(year: int, month: int, day: int)

  predicate IsLeap(y: int) {
    y % 4 == 0 && (y % 100 != 0 || y % 400 == 0)
  }

  /** `calendar.monthrange(y, m)[1]`. */
  function DaysInMonth(y: int, m: int): (n: int)
    requires 1 <= m <= 12
    ensures 28 <= n <= 31
    ensures m == 2 ==> (n == 29 <==> IsLeap(y))
  {
    if m == 2 then (if IsLeap(y) then 29 else 28)
    else if m == 4 || m == 6 || m == 9 || m == 11 then 30
    else 31
  }

  function DaysInYear(y: int): int {
    if IsLeap(y) then 366 else 365
  }

  /** A date Python's `date` constructor accepts (the year range aside). */
  predicate Valid(d: Date) {
    1 <= d.month <= 12 && 1 <= d.day <= DaysInMonth(d.year, d.month)
  }

  /** Number of days of year `y` before the first of month `m`. */
  function DaysBeforeMonth(y: int, m: int): int
    requires 1 <= m <= 12
  {
    [0, 31, 59, 90, 120, 151, 181, 212, 243, 273, 304, 334][m - 1]
      + (if m > 2 && IsLeap(y) then 1 else 0)
  }

  /** Number of days before January 1 of year `y`, counted from 0001-01-01. */
  function DaysBeforeYear(y: int): int {
    var p := y - 1;
    p * 365 + p / 4 - p / 100 + p / 400
  }

  /** `date.toordinal()`: 0001-01-01 is day 1. */
  function Ordinal(d: Date): int
    requires Valid(d)
  {
    DaysBeforeYear(d.year) + DaysBeforeMonth(d.year, d.month) + d.day
  }

  /** `date.weekday()`: Monday is 0 and Sunday is 6. */
  function Weekday(d: Date): (w: int)
    requires Valid(d)
    ensures 0 <= w < 7
  {
    (Ordinal(d) + 6) % 7
  }

  function LastDayOfMonth(y: int, m: int): (d: Date)
    requires 1 <= m <= 12
    ensures Valid(d)
  {
    Date(y, m, DaysInMonth(y, m))
  }

  /** The calendar successor of a date. */
  function NextDay(d: Date): (r: Date)
    requires Valid(d)
    ensures Valid(r)
  {
    if d.day < DaysInMonth(d.year, d.month) then Date(d.year, d.month, d.day + 1)
    else if d.month < 12 then Date(d.year, d.month + 1, 1)
    else Date(d.year + 1, 1, 1)
  }

  /** The calendar predecessor of a date. */
  function PrevDay(d: Date): (r: Date)
    requires Valid(d)
    ensures Valid(r)
  {
    if d.day > 1 then Date(d.year, d.month, d.day - 1)
    else if d.month > 1 then LastDayOfMonth(d.year, d.month - 1)
    else Date(d.year - 1, 12, 31)
  }

  /** `d + timedelta(days=n)`, for positive and negative `n`. */
  function AddDays(d: Date, n: int): (r: Date)
    requires Valid(d)
    ensures Valid(r)
    decreases if n < 0 then -n else n
  {
    if n == 0 then d
    else if n > 0 then AddDays(NextDay(d), n - 1)
    else AddDays(PrevDay(d), n + 1)
  }

  /** Python's `a <= b` on dates: year, then month, then day. */
  predicate LessEq(a: Date, b: Date) {
    a.year < b.year
    || (a.year == b.year && (a.month < b.month || (a.month == b.month && a.day <= b.day)))
  }

  // ---------------------------------------------------------------------
  // Ordinal arithmetic

  lemma DaysBeforeYearStep(y: int)
    ensures DaysBeforeYear(y + 1) == DaysBeforeYear(y) + DaysInYear(y)
  {
    var p := y - 1;
    assert (p + 1) / 4 - p / 4 == if y % 4 == 0 then 1 else 0;
    assert (p + 1) / 100 - p / 100 == if y % 100 == 0 then 1 else 0;
    assert (p + 1) / 400 - p / 400 == if y % 400 == 0 then 1 else 0;
    assert y % 400 == 0 ==> y % 100 == 0;
    assert y % 100 == 0 ==> y % 4 == 0;
  }

  lemma {:induction false} DaysBeforeYearMonotone(y1: int, y2: int)
    requires y1 <= y2
    ensures DaysBeforeYear(y1) <= DaysBeforeYear(y2)
    decreases y2 - y1
  {
    if y1 < y2 {
      DaysBeforeYearStep(y1);
      DaysBeforeYearMonotone(y1 + 1, y2);
    }
  }

  lemma DaysBeforeMonthStep(y: int, m: int)
    requires 1 <= m < 12
    ensures DaysBeforeMonth(y, m + 1) == DaysBeforeMonth(y, m) + DaysInMonth(y, m)
  {
  }

  lemma DaysBeforeMonthMonotone(y: int, m1: int, m2: int)
    requires 1 <= m1 < m2 <= 12
    ensures DaysBeforeMonth(y, m1) + DaysInMonth(y, m1) <= DaysBeforeMonth(y, m2)
  {
  }

  lemma DaysBeforeMonthBound(y: int, m: int)
    requires 1 <= m <= 12
    ensures DaysBeforeMonth(y, m) + DaysInMonth(y, m) <= DaysInYear(y)
    ensures m == 12 ==> DaysBeforeMonth(y, m) + DaysInMonth(y, m) == DaysInYear(y)
  {
  }

  /** Stepping to the next day advances the ordinal by exactly one. */
  lemma OrdinalNextDay(d: Date)
    requires Valid(d)
    ensures Ordinal(NextDay(d)) == Ordinal(d) + 1
  {
    if d.day < DaysInMonth(d.year, d.month) {
    } else if d.month < 12 {
      DaysBeforeMonthStep(d.year, d.month);
    } else {
      DaysBeforeYearStep(d.year);
      DaysBeforeMonthBound(d.year, 12);
    }
  }

  /** Stepping to the previous day moves the ordinal back by exactly one. */
  lemma OrdinalPrevDay(d: Date)
    requires Valid(d)
    ensures Ordinal(PrevDay(d)) == Ordinal(d) - 1
  {
    if d.day > 1 {
    } else if d.month > 1 {
      DaysBeforeMonthStep(d.year, d.month - 1);
    } else {
      DaysBeforeYearStep(d.year - 1);
      DaysBeforeMonthBound(d.year - 1, 12);
    }
  }

  /** `AddDays` agrees with Python's definition: `fromordinal(toordinal() + n)`. */
  lemma {:induction false} OrdinalAddDays(d: Date, n: int)
    requires Valid(d)
    ensures Ordinal(AddDays(d, n)) == Ordinal(d) + n
    decreases if n < 0 then -n else n
  {
    if n > 0 {
      OrdinalNextDay(d);
      OrdinalAddDays(NextDay(d), n - 1);
    } else if n < 0 {
      OrdinalPrevDay(d);
      OrdinalAddDays(PrevDay(d), n + 1);
    }
  }

  /** The ordinal is strictly increasing in the calendar order. */
  lemma OrdinalStrictlyMonotone(a: Date, b: Date)
    requires Valid(a) && Valid(b)
    requires LessEq(a, b) && a != b
    ensures Ordinal(a) < Ordinal(b)
  {
    DaysBeforeMonthBound(a.year, a.month);
    if a.year < b.year {
      DaysBeforeYearStep(a.year);
      DaysBeforeYearMonotone(a.year + 1, b.year);
    } else if a.month < b.month {
      DaysBeforeMonthMonotone(a.year, a.month, b.month);
    }
  }

  /** Calendar order and ordinal order coincide. */
  lemma LessEqIffOrdinal(a: Date, b: Date)
    requires Valid(a) && Valid(b)
    ensures LessEq(a, b) <==> Ordinal(a) <= Ordinal(b)
  {
    if a != b {
      if LessEq(a, b) {
        OrdinalStrictlyMonotone(a, b);
      } else {
        OrdinalStrictlyMonotone(b, a);
      }
    }
  }

  /** Two valid dates with the same ordinal are the same date. */
  lemma OrdinalInjective(a: Date, b: Date)
    requires Valid(a) && Valid(b)
    requires Ordinal(a) == Ordinal(b)
    ensures a == b
  {
    if a != b {
      if LessEq(a, b) {
        OrdinalStrictlyMonotone(a, b);
      } else {
        OrdinalStrictlyMonotone(b, a);
      }
    }
  }

  /** Adding `m` then `n` days is adding `m + n` days. */
  lemma AddDaysCompose(d: Date, m: int, n: int)
    requires Valid(d)
    ensures AddDays(AddDays(d, m), n) == AddDays(d, m + n)
  {
    OrdinalAddDays(d, m);
    OrdinalAddDays(AddDays(d, m), n);
    OrdinalAddDays(d, m + n);
    OrdinalInjective(AddDays(AddDays(d, m), n), AddDays(d, m + n));
  }

  /** Adding one day is taking the calendar successor. */
  lemma AddOneDay(d: Date)
    requires Valid(d)
    ensures AddDays(d, 1) == NextDay(d)
  {
    assert AddDays(NextDay(d), 0) == NextDay(d);
  }

  /** Subtracting one day is taking the calendar predecessor. */
  lemma SubtractOneDay(d: Date)
    requires Valid(d)
    ensures AddDays(d, -1) == PrevDay(d)
  {
    assert AddDays(PrevDay(d), 0) == PrevDay(d);
  }

  /** Shifting by `n` days shifts the weekday by `n` modulo 7. */
  lemma WeekdayAddDays(d: Date, n: int)
    requires Valid(d)
    ensures Weekday(AddDays(d, n)) == (Weekday(d) + n) % 7
  {
    OrdinalAddDays(d, n);
    var x := Ordinal(d) + 6;
    ModSevenShift(x % 7 + n, x / 7);
  }

  /** Whole weeks later it is the same day of the week. */
  lemma WeekdayAddWeeks(d: Date, k: int)
    requires Valid(d)
    ensures Weekday(AddDays(d, 7 * k)) == Weekday(d)
  {
    WeekdayAddDays(d, 7 * k);
    ModSevenShift(Weekday(d), k);
  }

  lemma ModSevenShift(x: int, q: int)
    ensures (7 * q + x) % 7 == x % 7
  {
  }
}
