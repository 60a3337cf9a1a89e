/** Calendar dates as Python's `datetime` sees them when a reporting column or
    a reference date is compared, subtracted or given another year. Only the
    date part is modelled: every column label and reference date is taken to
    be at midnight. */
module Dates {
  import opened Wrappers

  datatype CivilDate = CivilDate(year: int, month: int, day: int)

  /** `datetime.MINYEAR` and `datetime.MAXYEAR`. */
  const MinYear := 1
  const MaxYear := 9999

  predicate IsLeapYear(y: int) {
    y % 4 == 0 && (y % 100 != 0 || y % 400 == 0)
  }

  function DaysInYear(y: int): (n: int)
    ensures n == 365 || n == 366
  {
    if IsLeapYear(y) then 366 else 365
  }

  function DaysInMonth(y: int, m: int): (n: int)
    requires 1 <= m <= 12
    ensures 28 <= n <= 31
    ensures n == 29 <==> m == 2 && IsLeapYear(y)
    ensures n == 28 <==> m == 2 && !IsLeapYear(y)
  {
    if m == 2 then (if IsLeapYear(y) then 29 else 28)
    else if m == 4 || m == 6 || m == 9 || m == 11 then 30
    else 31
  }

  predicate IsValid(d: CivilDate) {
    && MinYear <= d.year <= MaxYear
    && 1 <= d.month <= 12
    && 1 <= d.day <= DaysInMonth(d.year, d.month)
  }

  /** A date `datetime` can represent. */
  type Date = d: CivilDate | IsValid(d) witness CivilDate(1, 1, 1)

  /** `a <= b`: Python compares dates field by field. */
  predicate AtOrBefore(a: Date, b: Date) {
    || a.year < b.year
    || (a.year == b.year && (a.month < b.month || (a.month == b.month && a.day <= b.day)))
  }

  /** `a < b`. */
  predicate Before(a: Date, b: Date) {
    || a.year < b.year
    || (a.year == b.year && (a.month < b.month || (a.month == b.month && a.day < b.day)))
  }

  /** Days in the years before year `y` (Python's `_days_before_year`). */
  function DaysBeforeYear(y: int): int
    requires y >= 1
  {
    var p := y - 1;
    p * 365 + p / 4 - p / 100 + p / 400
  }

  /** Days in the months of year `y` before month `m` (Python's `_days_before_month`). */
  function DaysBeforeMonth(y: int, m: int): int
    requires 1 <= m <= 12
  {
    var common :=
      if m == 1 then 0 else if m == 2 then 31 else if m == 3 then 59
      else if m == 4 then 90 else if m == 5 then 120 else if m == 6 then 151
      else if m == 7 then 181 else if m == 8 then 212 else if m == 9 then 243
      else if m == 10 then 273 else if m == 11 then 304 else 334;
    if m > 2 && IsLeapYear(y) then common + 1 else common
  }

  /** `date.toordinal()`: day 1 is 0001-01-01. */
  function Ordinal(d: Date): int {
    DaysBeforeYear(d.year) + DaysBeforeMonth(d.year, d.month) + d.day
  }

  /** `(a - b).days` for two dates at midnight. */
  function DaysBetween(a: Date, b: Date): (n: int)
    ensures n < 0 <==> Before(a, b)
    ensures n == 0 <==> a == b
  {
    OrdinalOrder(a, b);
    OrdinalOrder(b, a);
    Ordinal(a) - Ordinal(b)
  }

  /** `d.replace(year=y)`, which raises `ValueError` (here: `None`) when `y` is
      outside `MinYear..MaxYear` or `d`'s day does not exist in that month of
      year `y`; only a February 29 can be missing. */
  function ReplaceYear(d: Date, y: int): (r: Option<Date>)
    ensures r.None? <==> y < MinYear || y > MaxYear || (d.month == 2 && d.day == 29 && !IsLeapYear(y))
    ensures r.Some? ==> r.value.year == y && r.value.month == d.month && r.value.day == d.day
  {
    if MinYear <= y <= MaxYear && d.day <= DaysInMonth(y, d.month) then
      Some(CivilDate(y, d.month, d.day))
    else
      None
  }

  /** The length of one year, as `toordinal` counts it. */
  lemma YearLength(y: int)
    requires y >= 1
    ensures DaysBeforeYear(y + 1) - DaysBeforeYear(y) == DaysInYear(y)
  {
    var p := y - 1;
    var fourth, hundredth, fourHundredth := y / 4 - p / 4, y / 100 - p / 100, y / 400 - p / 400;
    StepQuotient4(y);
    StepQuotient100(y);
    StepQuotient400(y);
    DivisibilityChain(y);
    assert fourth - hundredth + fourHundredth == if IsLeapYear(y) then 1 else 0;
    assert DaysBeforeYear(y + 1) - DaysBeforeYear(y) == 365 + fourth - hundredth + fourHundredth;
  }

  lemma DivisibilityChain(y: int)
    ensures y % 100 == 0 ==> y % 4 == 0
    ensures y % 400 == 0 ==> y % 100 == 0
  {
    if y % 100 == 0 {
      var k := y / 100;
      assert y == 4 * (25 * k);
    }
    if y % 400 == 0 {
      var k := y / 400;
      assert y == 100 * (4 * k);
    }
  }

  lemma StepQuotient4(y: int)
    requires y >= 1
    ensures y / 4 - (y - 1) / 4 == if y % 4 == 0 then 1 else 0
  {
  }

  lemma StepQuotient100(y: int)
    requires y >= 1
    ensures y / 100 - (y - 1) / 100 == if y % 100 == 0 then 1 else 0
  {
  }

  lemma StepQuotient400(y: int)
    requires y >= 1
    ensures y / 400 - (y - 1) / 400 == if y % 400 == 0 then 1 else 0
  {
  }

  lemma {:induction false} DaysBeforeYearGrows(y1: int, y2: int)
    requires 1 <= y1 < y2
    ensures DaysBeforeYear(y1) + DaysInYear(y1) <= DaysBeforeYear(y2)
    decreases y2 - y1
  {
    YearLength(y1);
    if y1 + 1 < y2 {
      DaysBeforeYearGrows(y1 + 1, y2);
    }
  }

  lemma DaysBeforeMonthGrows(y: int, m1: int, m2: int)
    requires 1 <= m1 < m2 <= 12
    ensures DaysBeforeMonth(y, m1) + DaysInMonth(y, m1) <= DaysBeforeMonth(y, m2)
  {
  }

  lemma LastMonthEndsYear(y: int, m: int)
    requires 1 <= m <= 12
    ensures DaysBeforeMonth(y, m) + DaysInMonth(y, m) <= DaysInYear(y)
  {
  }

  /** Python's field-by-field comparison of two dates agrees with the order of
      their day numbers, so `(a - b).days` measures the distance the
      comparisons speak of. */
  lemma OrdinalOrder(a: Date, b: Date)
    ensures AtOrBefore(a, b) <==> Ordinal(a) <= Ordinal(b)
    ensures Before(a, b) <==> Ordinal(a) < Ordinal(b)
  {
    if a.year < b.year {
      LastMonthEndsYear(a.year, a.month);
      DaysBeforeYearGrows(a.year, b.year);
    } else if b.year < a.year {
      LastMonthEndsYear(b.year, b.month);
      DaysBeforeYearGrows(b.year, a.year);
    } else if a.month < b.month {
      DaysBeforeMonthGrows(a.year, a.month, b.month);
    } else if b.month < a.month {
      DaysBeforeMonthGrows(a.year, b.month, a.month);
    }
  }

  /** The same day of the year before is 365 days back, or 366 when the
      February 29 of a leap year lies in between. */
  lemma OneYearSpan(d: Date)
    requires ReplaceYear(d, d.year - 1).Some?
    ensures var back := ReplaceYear(d, d.year - 1).value;
      DaysBetween(d, back) == if d.month <= 2 then DaysInYear(d.year - 1) else DaysInYear(d.year)
  {
    YearLength(d.year - 1);
  }
}
