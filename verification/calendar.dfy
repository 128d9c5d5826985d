/** The proleptic Gregorian calendar as Python's `datetime.date` checks it
    when `strptime` builds a date: years 1 to 9999, the usual month lengths,
    and February 29 in leap years only. */
module Calendar {

  const MinYear := 1
  const MaxYear := 9999

  /** Month lengths in a common year, indexed by month number (index 0 unused). */
  const CommonMonthLengths: seq<int> := [0, 31, 28, 31, 30, 31, 30, 31, 31, 30, 31, 30, 31]

  /** Divisible by 4, except centuries, unless divisible by 400. */
  predicate IsLeapYear(y: int) {
    y % 4 == 0 && (y % 100 != 0 || y % 400 == 0)
  }

  /** Number of days in month `m` of year `y`. */
  function DaysInMonth(y: int, m: int): (n: int)
    requires 1 <= m <= 12
    ensures 28 <= n <= 31
    ensures n == 29 <==> m == 2 && IsLeapYear(y)
    ensures n == 30 <==> m in {4, 6, 9, 11}
    ensures n == 28 <==> m == 2 && !IsLeapYear(y)
  {
    if m == 2 && IsLeapYear(y) then 29 else CommonMonthLengths[m]
  }

  /** A date `datetime.date(y, m, d)` accepts. */
  predicate IsValidDate(y: int, m: int, d: int) {
    && MinYear <= y <= MaxYear
    && 1 <= m <= 12
    && 1 <= d <= DaysInMonth(y, m)
  }

  /** Number of days in year `y`. */
  function DaysInYear(y: int): int {
    DaysBeforeMonth(y, 13)
  }

  /** Days in the months of year `y` before month `m`. */
  function DaysBeforeMonth(y: int, m: int): int
    requires 1 <= m <= 13
  {
    if m == 1 then 0 else DaysBeforeMonth(y, m - 1) + DaysInMonth(y, m - 1)
  }

  /** The month table adds up to the length of the year: 366 days in a leap
      year and 365 otherwise. */
  lemma YearLength(y: int)
    ensures DaysInYear(y) == if IsLeapYear(y) then 366 else 365
  {
    assert DaysBeforeMonth(y, 2) == 31;
    var feb := if IsLeapYear(y) then 29 else 28;
    assert DaysBeforeMonth(y, 4) == 62 + feb;
    assert DaysBeforeMonth(y, 5) == 92 + feb;
    assert DaysBeforeMonth(y, 6) == 123 + feb;
    assert DaysBeforeMonth(y, 7) == 153 + feb;
    assert DaysBeforeMonth(y, 8) == 184 + feb;
    assert DaysBeforeMonth(y, 9) == 215 + feb;
    assert DaysBeforeMonth(y, 10) == 245 + feb;
    assert DaysBeforeMonth(y, 11) == 276 + feb;
    assert DaysBeforeMonth(y, 12) == 306 + feb;
  }

  /** February 29 exists exactly in the leap years. */
  lemma LeapDay(y: int)
    requires MinYear <= y <= MaxYear
    ensures IsValidDate(y, 2, 29) <==> IsLeapYear(y)
  {
  }
}
