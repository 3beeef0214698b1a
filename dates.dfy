/**
 * Calendar dates as Python's `datetime.date` knows them: proleptic Gregorian
 * dates with years 1 through 9999, ordered lexicographically by
 * (year, month, day).
 */
module Dates {
  import opened Wrappers

  datatype CalendarDate = CalendarDate(year: int, month: int, day: int)

  const MinYear: int := 1
  const MaxYear: int := 9999

  predicate IsLeapYear(y: int) {
    y % 4 == 0 && (y % 100 != 0 || y % 400 == 0)
  }

  function DaysInMonth(y: int, m: int): (n: int)
    requires 1 <= m <= 12
    ensures 28 <= n <= 31
    ensures n == 29 <==> m == 2 && IsLeapYear(y)
  {
    if m == 2 then (if IsLeapYear(y) then 29 else 28)
    else if m == 4 || m == 6 || m == 9 || m == 11 then 30
    else 31
  }

  predicate IsValidDate(d: CalendarDate) {
    && MinYear <= d.year <= MaxYear
    && 1 <= d.month <= 12
    && 1 <= d.day <= DaysInMonth(d.year, d.month)
  }

  /** A value of Python's `date` type: always a real calendar day. */
  type Date = d: CalendarDate | IsValidDate(d) witness CalendarDate(1, 1, 1)

  /** Strict lexicographic order on (year, month, day): Python's `date < date`. */
  predicate Before(a: CalendarDate, b: CalendarDate) {
    a.year < b.year
    || (a.year == b.year && (a.month < b.month || (a.month == b.month && a.day < b.day)))
  }

  predicate SameMonth(a: CalendarDate, b: CalendarDate) {
    a.year == b.year && a.month == b.month
  }

  /** Months counted from year 0: consecutive calendar months differ by one. */
  function MonthIndex(d: CalendarDate): int {
    d.year * 12 + (d.month - 1)
  }

  /**
   * `d.replace(day=1)`, which is also what `TruncMonth` yields for a date:
   * the earliest day of `d`'s month.
   */
  function FirstOfMonth(d: Date): (r: Date)
    ensures SameMonth(r, d) && r.day == 1
    ensures !Before(d, r)
    ensures forall e: Date :: SameMonth(e, d) ==> !Before(e, r)
  {
    CalendarDate(d.year, d.month, 1)
  }

  /**
   * `d.replace(year=y)`: the same month and day in year `y`, or `None` where
   * Python raises `ValueError` (the year out of range, or 29 February
   * moved into a common year).
   */
  function ReplaceYear(d: Date, y: int): (r: Option<Date>)
    ensures r.Some? <==> MinYear <= y <= MaxYear && (d.month == 2 && d.day == 29 ==> IsLeapYear(y))
    ensures r.Some? ==> r.value.year == y && r.value.month == d.month && r.value.day == d.day
  {
    var c := CalendarDate(y, d.month, d.day);
    if IsValidDate(c) then Some(c) else None
  }

  /** Of two consecutive years at most one is a leap year. */
  lemma LeapYearsNotConsecutive(y: int)
    requires IsLeapYear(y)
    ensures !IsLeapYear(y - 1)
  {
    assert y % 4 == 0;
    assert (y - 1) % 4 == 3;
  }

  /** Going back one year from `d` fails exactly in year 1 and on 29 February. */
  lemma {:induction false} PreviousYearFails(d: Date)
    ensures ReplaceYear(d, d.year - 1).None? <==> d.year == MinYear || (d.month == 2 && d.day == 29)
  {
    if d.month == 2 && d.day == 29 {
      LeapYearsNotConsecutive(d.year);
    }
  }

  /** On first days of months, date order is month order. */
  lemma FirstDaysOrderedByMonth(a: Date, b: Date)
    requires a.day == 1 && b.day == 1
    ensures Before(a, b) <==> MonthIndex(a) < MonthIndex(b)
  {
  }
}
