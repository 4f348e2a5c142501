/**
 * The proleptic Gregorian calendar of Python's `datetime` and `calendar`
 * modules. A date is held as its ordinal, the day number that
 * `date.toordinal()` gives it (0001-01-01 is day 1), so that adding a
 * `timedelta` of whole days is integer addition.
 */
module Calendar {

  const MinYear := 1
  const MaxYear := 9999

  /** `date.max.toordinal()`, the ordinal of 9999-12-31. */
  const MaxOrdinal := 3652059

  /** The day numbers of the dates `datetime` can represent. */
  type Ordinal = n: int | 1 <= n <= MaxOrdinal witness 1

  /** A year and a month: the period a budget document covers. */
  datatype YearMonth = YearMonth(year: int, month: int) {
    predicate Valid() {
      MinYear <= year <= MaxYear && 1 <= month <= 12
    }
  }

  /** `calendar.isleap`. */
  predicate IsLeapYear(y: int) {
    y % 4 == 0 && (y % 100 != 0 || y % 400 == 0)
  }

  /** The second component of `calendar.monthrange(y, m)`. */
  function DaysInMonth(y: int, m: int): (n: int)
    requires 1 <= m <= 12
    ensures 28 <= n <= 31
  {
    if m == 2 then (if IsLeapYear(y) then 29 else 28)
    else if m == 4 || m == 6 || m == 9 || m == 11 then 30
    else 31
  }

  predicate IsValidDate(y: int, m: int, d: int) {
    MinYear <= y <= MaxYear && 1 <= m <= 12 && 1 <= d <= DaysInMonth(y, m)
  }

  function DaysBeforeYear(y: int): int
    requires y >= 1
  {
    var p := y - 1;
    365 * p + p / 4 - p / 100 + p / 400
  }

  function DaysBeforeMonth(y: int, m: int): int
    requires 1 <= m <= 12
  {
    [0, 31, 59, 90, 120, 151, 181, 212, 243, 273, 304, 334][m - 1]
    + (if m > 2 && IsLeapYear(y) then 1 else 0)
  }

  /** `date(y, m, d).toordinal()`. */
  function ToOrdinal(y: int, m: int, d: int): int
    requires IsValidDate(y, m, d)
  {
    DaysBeforeYear(y) + DaysBeforeMonth(y, m) + d
  }

  /** The ordinal of the last day of a month, `date(y, m, monthrange(y, m)[1])`. */
  function LastDayOfMonth(p: YearMonth): int
    requires p.Valid()
  {
    ToOrdinal(p.year, p.month, DaysInMonth(p.year, p.month))
  }

  /** `calendar.month_name[m]`. */
  function MonthName(m: int): (s: string)
    requires 1 <= m <= 12
    ensures |s| >= 3 && 'A' <= s[0] <= 'Z'
  {
    ["January", "February", "March", "April", "May", "June", "July",
     "August", "September", "October", "November", "December"][m - 1]
  }

  /** `strftime('%b')` in the C locale: the first three letters of the month's name. */
  function MonthAbbr(m: int): (s: string)
    requires 1 <= m <= 12
    ensures s == MonthName(m)[..3]
  {
    ["Jan", "Feb", "Mar", "Apr", "May", "Jun", "Jul",
     "Aug", "Sep", "Oct", "Nov", "Dec"][m - 1]
  }

  /** The month before p, as `datetime - relativedelta(months=1)`; undefined before January of year 1. */
  function Previous(p: YearMonth): (q: YearMonth)
    requires p.Valid() && (p.year, p.month) != (MinYear, 1)
    ensures q.Valid()
    ensures q.year * 12 + q.month + 1 == p.year * 12 + p.month
  {
    if p.month == 1 then YearMonth(p.year - 1, 12) else YearMonth(p.year, p.month - 1)
  }

  /** How the three quotients of the leap-year rule change from one year to the next. */
  lemma QuotientSteps(p: nat)
    ensures (p + 1) / 4 - p / 4 == if (p + 1) % 4 == 0 then 1 else 0
    ensures (p + 1) / 100 - p / 100 == if (p + 1) % 100 == 0 then 1 else 0
    ensures (p + 1) / 400 - p / 400 == if (p + 1) % 400 == 0 then 1 else 0
  {
  }

  /** A year has 366 days when it is a leap year and 365 otherwise. */
  lemma DaysInYear(y: int)
    requires y >= 1
    ensures DaysBeforeYear(y + 1) - DaysBeforeYear(y) == if IsLeapYear(y) then 366 else 365
  {
    var p := y - 1;
    QuotientSteps(p);
    var fours, hundreds, fourHundreds := (p + 1) / 4 - p / 4, (p + 1) / 100 - p / 100, (p + 1) / 400 - p / 400;
    assert DaysBeforeYear(y + 1) - DaysBeforeYear(y) == 365 + fours - hundreds + fourHundreds;
    if y % 400 == 0 {
      assert y % 100 == 0 && y % 4 == 0;
    } else if y % 100 == 0 {
      assert y % 4 == 0;
    }
  }

  /**
   * The day after the last day of a month is the first day of the next
   * month: the number of days `monthrange` reports is consistent with the
   * day numbering.
   */
  lemma MonthEndFollowedByNextMonth(p: YearMonth)
    requires p.Valid() && (p.year, p.month) != (MaxYear, 12)
    ensures p.month < 12 ==> LastDayOfMonth(p) + 1 == ToOrdinal(p.year, p.month + 1, 1)
    ensures p.month == 12 ==> LastDayOfMonth(p) + 1 == ToOrdinal(p.year + 1, 1, 1)
  {
    if p.month == 12 {
      DaysInYear(p.year);
    }
  }

  /** Consecutive days of one month have consecutive ordinals; the first day of a month is the one after the month before it. */
  lemma OrdinalOfDay(y: int, m: int, d: int)
    requires IsValidDate(y, m, d)
    ensures ToOrdinal(y, m, d) == ToOrdinal(y, m, 1) + d - 1
    ensures LastDayOfMonth(YearMonth(y, m)) == ToOrdinal(y, m, 1) + DaysInMonth(y, m) - 1
  {
  }

  /** Every valid date has an ordinal `datetime` can represent, from 0001-01-01 (day 1) to 9999-12-31. */
  lemma OrdinalInRange(y: int, m: int, d: int)
    requires IsValidDate(y, m, d)
    ensures 1 <= ToOrdinal(y, m, d) <= MaxOrdinal
  {
    var p := y - 1;
    assert 0 <= p <= 9998;
    assert p / 4 - p / 100 + p / 400 <= 2424 by {
      assert p / 4 <= 2499;
      assert p / 100 >= p / 400;
    }
    if y == MaxYear {
      assert DaysBeforeYear(y) == 3652059 - 365;
      assert IsLeapYear(y) == false;
    } else {
      DaysBeforeYearMonotone(y, MaxYear);
    }
  }

  lemma DaysBeforeYearMonotone(a: int, b: int)
    requires 1 <= a < b
    ensures DaysBeforeYear(a) + 365 <= DaysBeforeYear(b)
    decreases b - a
  {
    DaysInYear(a);
    if a + 1 < b {
      DaysBeforeYearMonotone(a + 1, b);
    }
  }

  lemma DaysBeforeLastYear()
    ensures DaysBeforeYear(MaxYear) == 3651694
  {
    var p := MaxYear - 1;
    assert p / 4 == 2499 && p / 100 == 99 && p / 400 == 24;
  }

  /** 0001-01-01 is day 1, as in `datetime`. */
  lemma FirstOrdinal()
    ensures IsValidDate(MinYear, 1, 1) && ToOrdinal(MinYear, 1, 1) == 1
  {
    assert DaysBeforeYear(MinYear) == 0;
    assert DaysBeforeMonth(MinYear, 1) == 0;
  }

  /** 9999-12-31 is day MaxOrdinal, as in `datetime`. */
  lemma LastOrdinal()
    ensures IsValidDate(MaxYear, 12, 31) && ToOrdinal(MaxYear, 12, 31) == MaxOrdinal
  {
    DaysBeforeLastYear();
    assert !IsLeapYear(MaxYear) by {
      assert MaxYear % 4 == 3;
    }
    assert DaysBeforeMonth(MaxYear, 12) == 334;
  }
}
