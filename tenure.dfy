/** The duration of one period of work: calendar-aware from the start date
    to the exclusive end, then rescaled when a privilege multiplier is
    given. */
module Tenure {
  import opened Dates
  import opened Durations
  import opened Privilege

  /** Whether the day count borrows a month: the day of the (exclusive) end
      is smaller than the day of the start. */
  predicate Borrows(start: Date, stop: Date) {
    stop.day < start.day
  }

  /** Months counted from January of year 0. */
  function MonthIndex(d: Date): int {
    12 * d.year + d.month - 1
  }

  /** Whether the `k`-th monthly anniversary of `start` (the same day of the
      month, `k` months later) is no later than `stop`. */
  predicate AnniversaryReached(start: Date, k: int, stop: Date) {
    MonthIndex(start) + k < MonthIndex(stop)
    || (MonthIndex(start) + k == MonthIndex(stop) && start.day <= stop.day)
  }

  /** The calendar-aware duration from `start` to the exclusive end `stop`,
      without privilege. When the month borrows, the borrowed month is the
      start month, so its length is taken from the start. */
  function RawDuration(start: Date, stop: Date): (r: Duration)
    requires ValidDate(start) && ValidDate(stop)
    ensures 0 <= r.months < 12
    ensures 0 <= r.days <= 30
    ensures NotAfter(start, stop) ==> r.years >= 0
  {
    var days := if Borrows(start, stop) then stop.day + DaysInMonth(start.year, start.month) - start.day
                else stop.day - start.day;
    var months := (stop.year - start.year) * 12 + stop.month - start.month
                  - (if Borrows(start, stop) then 1 else 0);
    Duration(months / 12, months % 12, days)
  }

  /** The day count and the total months, as the two cases of the borrow
      give them. On the borrow path the days stay below the length of the
      start month, otherwise below the length of the end month. */
  lemma RawDurationParts(start: Date, stop: Date)
    requires ValidDate(start) && ValidDate(stop)
    ensures var r := RawDuration(start, stop);
            && 12 * r.years + r.months
               == (stop.year - start.year) * 12 + (stop.month - start.month) - (if Borrows(start, stop) then 1 else 0)
            && r.days == (if Borrows(start, stop) then stop.day + DaysInMonth(start.year, start.month) - start.day
                          else stop.day - start.day)
            && (Borrows(start, stop) ==> 0 < r.days < DaysInMonth(start.year, start.month))
            && (!Borrows(start, stop) ==> r.days < DaysInMonth(stop.year, stop.month))
  {
  }

  /** The years and months of the raw duration count the whole months
      elapsed: the monthly anniversary of the start after that many months
      is reached by the end, and the one after it is not. */
  lemma RawDurationWholeMonths(start: Date, stop: Date)
    requires ValidDate(start) && ValidDate(stop)
    ensures var r := RawDuration(start, stop);
            var k := 12 * r.years + r.months;
            AnniversaryReached(start, k, stop) && !AnniversaryReached(start, k + 1, stop)
  {
  }

  /** The credited duration of one period: the raw duration, rescaled when
      the multiplier is non-zero (Python's truthiness test on `privilege`). */
  function Credited(start: Date, stop: Date, p: real): (r: Duration)
    requires ValidDate(start) && ValidDate(stop)
    ensures 0 <= r.months < 12 && 0 <= r.days <= 30
    ensures p != 0.0 ==> r.days < 30
    ensures NotAfter(start, stop) && p >= 0.0 ==> r.years >= 0 && Linear(r) >= 0
  {
    var raw := RawDuration(start, stop);
    if p == 0.0 then raw
    else
      RescaleNonNegative(raw, p);
      Rescale(raw, p)
  }

  /** Among the multipliers the code distinguishes in practice (none, or at
      least 1), a larger multiplier never credits a period less. */
  lemma CreditedMonotone(start: Date, stop: Date, p: real, q: real)
    requires ValidDate(start) && ValidDate(stop) && NotAfter(start, stop)
    requires p == 0.0 || p >= 1.0
    requires q == 0.0 || q >= 1.0
    requires p <= q
    ensures Linear(Credited(start, stop, p)) <= Linear(Credited(start, stop, q))
  {
    var raw := RawDuration(start, stop);
    if p == 0.0 && q != 0.0 {
      RescaleAtLeastOnce(raw, q);
    } else if p != 0.0 {
      RescaleMonotone(raw, p, q);
    }
  }
}
