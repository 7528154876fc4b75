/** The expected durations of the repository's own test cases, derived from
    the model: single periods with and without a multiplier, a refused
    range, and one employee with three contiguous periods. */
module Fixtures {
  import opened Dates
  import opened Rounding
  import opened Durations
  import opened Privilege
  import opened Tenure
  import opened Employees

  /** Credited duration of the period from `start` to the inclusive `end`. */
  function PeriodOf(start: Date, end: Date, p: real): Duration
    requires ValidDate(start) && ValidDate(end) && end != LastDate
  {
    Credited(start, NextDay(end), p)
  }

  /** The successor crosses month ends, year ends and the leap day. */
  lemma NextDayFixtures()
    ensures NextDay(Date(2016, 1, 30)) == Date(2016, 1, 31)
    ensures NextDay(Date(2024, 2, 28)) == Date(2024, 2, 29)
    ensures NextDay(Date(2024, 2, 29)) == Date(2024, 3, 1)
    ensures NextDay(Date(2023, 2, 28)) == Date(2023, 3, 1)
    ensures NextDay(Date(2023, 12, 31)) == Date(2024, 1, 1)
    ensures NextDay(Date(1900, 2, 28)) == Date(1900, 3, 1)
  {
  }

  /** Periods without a multiplier whose end day is not before the start
      day. The last one keeps 30 days: a raw day count is not reduced below
      30. */
  lemma RawFixtures()
    ensures PeriodOf(Date(2006, 8, 16), Date(2023, 10, 18), 0.0) == Duration(17, 2, 3)
    ensures PeriodOf(Date(2019, 5, 15), Date(2023, 12, 14), 0.0) == Duration(4, 7, 0)
    ensures PeriodOf(Date(2016, 7, 1), Date(2023, 4, 30), 0.0) == Duration(6, 10, 0)
    ensures PeriodOf(Date(2016, 1, 1), Date(2023, 12, 31), 0.0) == Duration(8, 0, 0)
    ensures PeriodOf(Date(2016, 1, 1), Date(2023, 2, 28), 0.0) == Duration(7, 2, 0)
    ensures PeriodOf(Date(2016, 1, 1), Date(2024, 2, 29), 0.0) == Duration(8, 2, 0)
    ensures PeriodOf(Date(2016, 1, 1), Date(2016, 1, 30), 0.0) == Duration(0, 0, 30)
  {
  }

  /** Periods without a multiplier that borrow the length of the start
      month. */
  lemma BorrowFixtures()
    ensures PeriodOf(Date(2009, 1, 15), Date(2023, 3, 9), 0.0) == Duration(14, 1, 26)
    ensures PeriodOf(Date(2013, 4, 16), Date(2023, 9, 1), 0.0) == Duration(10, 4, 16)
    ensures PeriodOf(Date(2014, 10, 18), Date(2023, 5, 11), 0.0) == Duration(8, 6, 25)
    ensures PeriodOf(Date(2017, 9, 18), Date(2023, 5, 10), 0.0) == Duration(5, 7, 23)
  {
  }

  /** The period 2017-09-18 to 2023-05-10 without a multiplier, the
      duration both privilege fixtures rescale. */
  lemma RescaledRaw()
    ensures RawDuration(Date(2017, 9, 18), NextDay(Date(2023, 5, 10))) == Duration(5, 7, 23)
  {
  }

  /** Doubling 5 years, 7 months and 23 days leaves no fractional part. */
  lemma DoubleParts(t: Duration)
    requires t == Duration(5, 7, 23)
    ensures ScaledParts(t, 2.0) == Duration(10, 14, 46)
  {
    ScaledIsProduct(5, 2.0);
    ScaledIsProduct(7, 2.0);
    ScaledIsProduct(23, 2.0);
    RoundingIntegers(10);
    RoundingIntegers(14);
    RoundingIntegers(0);
  }

  /** The period 2017-09-18 to 2023-05-10 with the multiplier 2. */
  lemma DoubleFixture()
    ensures PeriodOf(Date(2017, 9, 18), Date(2023, 5, 10), 2.0) == Duration(11, 3, 16)
  {
    RescaledRaw();
    DoubleParts(Duration(5, 7, 23));
  }

  /** Half a year becomes six months and half a month fifteen days. */
  lemma OneAndAHalfParts(t: Duration)
    requires t == Duration(5, 7, 23)
    ensures ScaledParts(t, 1.5) == Duration(7, 16, 50)
  {
    ScaledIsProduct(5, 1.5);
    ScaledIsProduct(7, 1.5);
    ScaledIsProduct(23, 1.5);
    RoundingIntegers(6);
    assert Floor(7.5) == 7 && Floor(10.5) == 10;
    assert Ceil(49.5) == 50;
  }

  /** The same period with the multiplier 1.5. */
  lemma OneAndAHalfFixture()
    ensures PeriodOf(Date(2017, 9, 18), Date(2023, 5, 10), 1.5) == Duration(8, 5, 20)
  {
    RescaledRaw();
    OneAndAHalfParts(Duration(5, 7, 23));
  }

  /** The totals after three periods. */
  lemma TotalOfThree(t: Duration, a: Duration, b: Duration, c: Duration)
    ensures Total(t, [a, b, c]) == Normalize(Add(t, Add(Add(a, b), c)))
  {
    var ds := [a, b, c];
    assert ds[..2] == [a, b];
    assert ds[..2][..1] == [a];
    assert ds[..2][..1][..0] == [];
    assert Sum(ds[..2][..1]) == a;
    assert Sum(ds[..2]) == Add(a, b);
    assert Sum(ds) == Add(Add(a, b), c);
  }

  /** From zero totals, the three periods of the employee fixture add up to
      20 years, 10 months and 24 days. */
  lemma TotalFixture(t: Duration, a: Duration, b: Duration, c: Duration)
    requires t == Duration(0, 0, 0)
    requires a == Duration(10, 9, 17) && b == Duration(5, 9, 22) && c == Duration(4, 3, 15)
    ensures Total(t, [a, b, c]) == Duration(20, 10, 24)
  {
    TotalOfThree(t, a, b, c);
    SumFixture(t, a, b, c);
    CarryFixture(Add(t, Add(Add(a, b), c)));
  }

  /** The three periods add up to 19 years, 21 months and 54 days. */
  lemma SumFixture(t: Duration, a: Duration, b: Duration, c: Duration)
    requires t == Duration(0, 0, 0)
    requires a == Duration(10, 9, 17) && b == Duration(5, 9, 22) && c == Duration(4, 3, 15)
    ensures Add(t, Add(Add(a, b), c)) == Duration(19, 21, 54)
  {
  }

  /** 54 days carry into one month and 22 months into one year. */
  lemma CarryFixture(t: Duration)
    requires t == Duration(19, 21, 54)
    ensures Normalize(t) == Duration(20, 10, 24)
  {
  }

  /** A start one day after the end is refused; a one-day period is not. */
  lemma RangeFixtures()
    ensures StoredEnd(Date(2017, 9, 18), Date(2017, 9, 17)) == Err(InvalidRange)
    ensures StoredEnd(Date(2017, 9, 18), Date(2017, 9, 18)) == Ok(Date(2017, 9, 19))
    ensures StoredEnd(Date(2017, 9, 18), LastDate) == Err(DateOverflow)
  {
  }

  /** The three contiguous periods of the employee fixture. */
  method FixturePeriods() returns (p1: Period, p2: Period, p3: Period)
    ensures p1.Current() == Duration(10, 9, 17)
    ensures p2.Current() == Duration(5, 9, 22)
    ensures p3.Current() == Duration(4, 3, 15)
  {
    p1 := new Period(Date(2003, 3, 27), Date(2014, 1, 12));
    p2 := new Period(Date(2014, 1, 13), Date(2019, 11, 3));
    p3 := new Period(Date(2019, 11, 4), Date(2024, 2, 18));
  }

  /** An employee given the first two periods, to which the third is added
      before the totals are computed. */
  method FixtureEmployee(p1: Period, p2: Period, p3: Period) returns (e: Employee)
    requires p1.Current() == Duration(10, 9, 17)
    requires p2.Current() == Duration(5, 9, 22)
    requires p3.Current() == Duration(4, 3, 15)
    ensures e.Current() == Duration(20, 10, 24)
  {
    ghost var d1, d2, d3 := p1.Current(), p2.Current(), p3.Current();
    e := new Employee("Ivanov Ivan Ivanovich", [p1, p2]);
    e.AddPeriod(p3);
    ghost var before := e.Current();
    assert e.periods == [p1, p2, p3];
    ghost var ds := PeriodDurations(e.periods);
    assert ds[0] == d1 && ds[1] == d2 && ds[2] == d3;
    assert ds == [d1, d2, d3];
    e.CalculateTotalExperience();
    TotalFixture(before, d1, d2, d3);
  }

  /** Three contiguous periods of one employee add up to 20 years, 10 months
      and 24 days. */
  method EmployeeFixture() returns (e: Employee)
    ensures e.Current() == Duration(20, 10, 24)
  {
    var p1, p2, p3 := FixturePeriods();
    e := FixtureEmployee(p1, p2, p3);
  }
}
