/** Durations of so many years, months and days, their value in days under
    the 30-day-month, 12-month-year convention, the normalisation that
    carries days into months and months into years, and the summing of
    per-period durations into totals. */
module Durations {

  /** A tenure of so many years, months and days. */
  datatype Duration = Duration(years: int, months: int, days: int)

  /** The value of a duration in days, counting a month as 30 days and a
      year as 12 months. This is the measure the normalisation keeps. */
  function Linear(t: Duration): int {
    360 * t.years + 30 * t.months + t.days
  }

  predicate Normalized(t: Duration) {
    0 <= t.months < 12 && 0 <= t.days < 30
  }

  /** Carry whole 30-day months out of the days and whole years out of the
      months (Python's `//` and `%`, which floor like Dafny's for a positive
      divisor). */
  function Normalize(t: Duration): (r: Duration)
    ensures Normalized(r)
    ensures Linear(r) == Linear(t)
  {
    var months := t.months + t.days / 30;
    Duration(t.years + months / 12, months % 12, t.days % 30)
  }

  /** A normalised duration is determined by its value in days, so
      `Normalize(t)` is the only normalised duration worth as much as `t`. */
  lemma NormalizedUnique(t: Duration, u: Duration)
    requires Normalized(t) && Normalized(u)
    requires Linear(t) == Linear(u)
    ensures t == u
  {
    var a := 30 * t.months + t.days;
    var b := 30 * u.months + u.days;
    assert 0 <= a < 360 && 0 <= b < 360;
    assert 360 * (t.years - u.years) == b - a;
    assert t.years == u.years;
    assert 30 * (t.months - u.months) == u.days - t.days;
    assert t.months == u.months;
  }

  /** Normalisation changes nothing that is already normalised. */
  lemma NormalizeIdempotent(t: Duration)
    requires Normalized(t)
    ensures Normalize(t) == t
  {
  }

  /** The component-wise sum of two durations. */
  function Add(a: Duration, b: Duration): Duration {
    Duration(a.years + b.years, a.months + b.months, a.days + b.days)
  }

  /** The component-wise sum of durations, taken in order. */
  function Sum(ds: seq<Duration>): Duration
    decreases |ds|
  {
    if ds == [] then Duration(0, 0, 0) else Add(Sum(ds[..|ds| - 1]), ds[|ds| - 1])
  }

  /** One more duration in the prefix adds it to the sum. */
  lemma SumStep(ds: seq<Duration>, i: int)
    requires 0 <= i < |ds|
    ensures Sum(ds[..i + 1]) == Add(Sum(ds[..i]), ds[i])
  {
    assert ds[..i + 1][..i] == ds[..i];
  }

  /** The sum of the values in days of durations. */
  function SumOfLinear(ds: seq<Duration>): int
    decreases |ds|
  {
    if ds == [] then 0 else SumOfLinear(ds[..|ds| - 1]) + Linear(ds[|ds| - 1])
  }

  /** Summing component-wise keeps the value in days: the value of the sum
      is the sum of the values. */
  lemma {:induction false} LinearOfSum(ds: seq<Duration>)
    ensures Linear(Sum(ds)) == SumOfLinear(ds)
    decreases |ds|
  {
    if ds != [] {
      LinearOfSum(ds[..|ds| - 1]);
    }
  }

  /** The totals after adding `ds` onto `t` and normalising: normalised, and
      worth the value of `t` plus the values of all of `ds`. */
  function Total(t: Duration, ds: seq<Duration>): (r: Duration)
    ensures Normalized(r)
    ensures Linear(r) == Linear(t) + SumOfLinear(ds)
  {
    LinearOfSum(ds);
    Normalize(Add(t, Sum(ds)))
  }

  /** Totals are not reset: totalling the same durations a second time adds
      them again, so a non-zero sum makes the second result differ from the
      first. */
  lemma TotalAccumulates(t: Duration, ds: seq<Duration>)
    ensures Linear(Total(Total(t, ds), ds)) == Linear(t) + 2 * SumOfLinear(ds)
    ensures SumOfLinear(ds) != 0 ==> Total(Total(t, ds), ds) != Total(t, ds)
  {
  }

  /** The totals are the one normalised duration worth exactly the starting
      totals plus the sum of the durations. */
  lemma TotalCharacterized(t: Duration, ds: seq<Duration>, u: Duration)
    requires Normalized(u)
    ensures Total(t, ds) == u <==> Linear(u) == Linear(t) + SumOfLinear(ds)
  {
    if Linear(u) == Linear(t) + SumOfLinear(ds) {
      NormalizedUnique(Total(t, ds), u);
    }
  }
}
