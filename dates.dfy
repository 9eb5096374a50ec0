/**
 * Calendar dates of the ISO-8601 (proleptic Gregorian) calendar, with the
 * three java.time.LocalDate operations the services rely on: minusMonths(1),
 * withMonth(m) and isBefore.
 */
module Dates {

  datatype Date = Date(year: int, month: int, day: int)

  predicate IsLeapYear(year: int) {
    year % 4 == 0 && (year % 100 != 0 || year % 400 == 0)
  }

  function DaysInMonth(year: int, month: int): (n: int)
    requires 1 <= month <= 12
    ensures 28 <= n <= 31
    ensures month == 2 ==> (n == 29 <==> IsLeapYear(year))
  {
    if month == 2 then (if IsLeapYear(year) then 29 else 28)
    else if month == 4 || month == 6 || month == 9 || month == 11 then 30
    else 31
  }

  /** A date LocalDate can represent (its year range aside). */
  predicate Valid(d: Date) {
    1 <= d.month <= 12 && 1 <= d.day <= DaysInMonth(d.year, d.month)
  }

  /** Months since January of year 0: consecutive calendar months have consecutive indices. */
  function MonthIndex(d: Date): int {
    d.year * 12 + (d.month - 1)
  }

  /** LocalDate.isBefore: lexicographic on (year, month, day). */
  predicate IsBefore(a: Date, b: Date) {
    a.year < b.year || (a.year == b.year && (a.month < b.month || (a.month == b.month && a.day < b.day)))
  }

  /** The date in the given month whose day is `day`, or the month's last day when `day` does not exist in it. */
  function Clamped(year: int, month: int, day: int): (d: Date)
    requires 1 <= month <= 12 && 1 <= day
    ensures Valid(d) && d.year == year && d.month == month
    ensures d.day == day <==> day <= DaysInMonth(year, month)
    ensures d.day != day ==> d.day == DaysInMonth(year, month) && d.day < day
  {
    Date(year, month, if day <= DaysInMonth(year, month) then day else DaysInMonth(year, month))
  }

  /** LocalDate.minusMonths(1): the same day one calendar month earlier, clamped to that month's length. */
  function MinusOneMonth(d: Date): (r: Date)
    requires Valid(d)
    ensures Valid(r)
    ensures MonthIndex(r) == MonthIndex(d) - 1
    ensures r.day <= d.day && (r.day == d.day || r.day == DaysInMonth(r.year, r.month))
    ensures IsBefore(r, d)
  {
    if d.month == 1 then Clamped(d.year - 1, 12, d.day) else Clamped(d.year, d.month - 1, d.day)
  }

  /** LocalDate.withMonth(m): the same year and day in month m, clamped to that month's length. */
  function WithMonth(d: Date, month: int): (r: Date)
    requires Valid(d) && 1 <= month <= 12
    ensures Valid(r) && r.year == d.year && r.month == month
    ensures r.day <= d.day && (r.day == d.day || r.day == DaysInMonth(r.year, month))
  {
    Clamped(d.year, month, d.day)
  }

  /** isBefore and the month index agree: an earlier month is before, and before never goes to a later month. */
  lemma IsBeforeMonthIndex(a: Date, b: Date)
    requires Valid(a) && Valid(b)
    ensures MonthIndex(a) < MonthIndex(b) ==> IsBefore(a, b)
    ensures IsBefore(a, b) ==> MonthIndex(a) <= MonthIndex(b)
  {
  }
}
