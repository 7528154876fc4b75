/** Proleptic Gregorian calendar dates, as Python's `datetime.date` and
    `calendar.monthrange` see them: years 1 to 9999, a leap day every fourth
    year except centuries not divisible by 400, dates compared
    chronologically. */
module Dates {

  /** The range of years a `datetime.date` can hold (MINYEAR and MAXYEAR). */
  const MinYear: int := 1
  const MaxYear: int := 9999

  datatype Date = Date(year: int, month: int, day: int)

  /** The last representable date: the day after it cannot be built. */
  const LastDate: Date := Date(MaxYear, 12, 31)

  predicate IsLeapYear(year: int) {
    year % 4 == 0 && (year % 100 != 0 || year % 400 == 0)
  }

  /** The number of days of `month` in `year`, the second component of
      `calendar.monthrange(year, month)`. */
  function DaysInMonth(year: int, month: int): (n: int)
    requires 1 <= month <= 12
    ensures 28 <= n <= 31
    ensures n == 29 <==> month == 2 && IsLeapYear(year)
    ensures n == 28 <==> month == 2 && !IsLeapYear(year)
    ensures n == 30 <==> month == 4 || month == 6 || month == 9 || month == 11
  {
    if month == 2 then (if IsLeapYear(year) then 29 else 28)
    else if month == 4 || month == 6 || month == 9 || month == 11 then 30
    else 31
  }

  /** The days of the months before `month` in `year`. */
  function DaysBeforeMonth(year: int, month: int): (n: int)
    requires 1 <= month <= 13
    decreases month
  {
    if month == 1 then 0 else DaysBeforeMonth(year, month - 1) + DaysInMonth(year, month - 1)
  }

  /** The twelve month lengths add up to the length of the Gregorian year. */
  lemma YearLength(year: int)
    ensures DaysBeforeMonth(year, 13) == if IsLeapYear(year) then 366 else 365
  {
  }

  predicate ValidDate(d: Date) {
    MinYear <= d.year <= MaxYear && 1 <= d.month <= 12 && 1 <= d.day <= DaysInMonth(d.year, d.month)
  }

  /** A valid date as one number, its year, month and day read as digits of
      a mixed radix (31 days to a month, 12 months to a year). */
  function Key(d: Date): int {
    372 * d.year + 31 * (d.month - 1) + (d.day - 1)
  }

  /** Chronological order of dates, that is, lexicographic on (year, month,
      day). On valid dates it is the order of their keys. */
  predicate Before(a: Date, b: Date)
    ensures ValidDate(a) && ValidDate(b) ==> (Before(a, b) <==> Key(a) < Key(b))
  {
    a.year < b.year
    || (a.year == b.year && a.month < b.month)
    || (a.year == b.year && a.month == b.month && a.day < b.day)
  }

  predicate NotAfter(a: Date, b: Date) {
    Before(a, b) || a == b
  }

  /** `Before` is a strict total order: each pair of dates is in exactly one
      of the three relations. */
  lemma Trichotomy(a: Date, b: Date)
    ensures Before(a, b) || a == b || Before(b, a)
    ensures !(Before(a, b) && Before(b, a))
    ensures !Before(a, a)
    ensures NotAfter(a, b) <==> !Before(b, a)
  {
  }

  lemma BeforeTransitive(a: Date, b: Date, c: Date)
    requires Before(a, b) && Before(b, c)
    ensures Before(a, c)
  {
  }

  /** The day after `d`, as `d + timedelta(days=1)`; the day after the last
      representable date does not exist. */
  function NextDay(d: Date): (r: Date)
    requires ValidDate(d) && d != LastDate
    ensures ValidDate(r) && Before(d, r)
  {
    if d.day < DaysInMonth(d.year, d.month) then Date(d.year, d.month, d.day + 1)
    else if d.month < 12 then Date(d.year, d.month + 1, 1)
    else Date(d.year + 1, 1, 1)
  }

  /** No valid date lies strictly between `d` and `NextDay(d)`: the result
      is the immediate successor of `d` in the calendar. */
  lemma NextDayIsSuccessor(d: Date, x: Date)
    requires ValidDate(d) && d != LastDate && ValidDate(x)
    ensures Before(d, x) <==> NotAfter(NextDay(d), x)
  {
  }

  /** `NextDay` is strictly monotone, so it preserves and reflects the order. */
  lemma NextDayMonotone(a: Date, b: Date)
    requires ValidDate(a) && a != LastDate && ValidDate(b) && b != LastDate
    ensures Before(a, b) <==> Before(NextDay(a), NextDay(b))
  {
  }
}
