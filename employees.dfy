/** The two classes of `src/employee.py`. A `Period` computes its credited
    duration once, field by field, when it is built; an `Employee` adds the
    durations of its periods onto its own totals and normalises them. */
module Employees {
  import opened Dates
  import opened Rounding
  import opened Durations
  import opened Privilege
  import opened Tenure

  /** Why a period cannot be built: its start is after its end, or its end
      is the last date `datetime.date` can hold, so the day after it does
      not exist. */
  datatype PeriodError = InvalidRange | DateOverflow

  datatype Result<T> = Ok(value: T) | Err(error: PeriodError)

  /** The exclusive end stored for a period from `start` to the inclusive
      `end`, or the error its construction raises. */
  function StoredEnd(start: Date, end: Date): (r: Result<Date>)
    requires ValidDate(start) && ValidDate(end)
    ensures r == Err(InvalidRange) <==> Before(end, start)
    ensures r == Err(DateOverflow) <==> NotAfter(start, end) && end == LastDate
    ensures r.Ok? ==> ValidDate(r.value) && Before(end, r.value) && r.value == NextDay(end)
  {
    if Before(end, start) then Err(InvalidRange)
    else if end == LastDate then Err(DateOverflow)
    else Ok(NextDay(end))
  }

  class Period {
    var start: Date
    /** The day after the last day worked: an exclusive bound. */
    var end: Date
    var privilege: real
    var year: int
    var month: int
    var day: int

    function Current(): Duration
      reads this
    {
      Duration(year, month, day)
    }

    /** Builds the period from `start` to the inclusive `end` and computes
        its credited duration. `NewPeriod` is the entry point that also
        covers the ranges this constructor does not accept. */
    constructor (start: Date, end: Date, privilege: real := 0.0)
      requires ValidDate(start) && ValidDate(end)
      requires NotAfter(start, end) && end != LastDate
      ensures this.start == start && this.end == NextDay(end) && this.privilege == privilege
      ensures Current() == Credited(start, NextDay(end), privilege)
    {
      var stop := NextDay(end);
      this.start := start;
      this.end := stop;
      this.privilege := privilege;
      year, month, day := 0, 0, 0;
      new;
      CalculatePeriod();
      assert Current() == Credited(start, stop, privilege);
    }

    /** Sets the years, months and days of the period from its dates and
        multiplier. */
    method CalculatePeriod()
      requires ValidDate(start) && ValidDate(end)
      modifies this`year, this`month, this`day
      ensures unchanged(this`start, this`end, this`privilege)
      ensures Current() == Credited(start, end, privilege)
    {
      // the day count, borrowing the length of the start month
      var months: int;
      if end.day < start.day {
        var days := end.day + DaysInMonth(start.year, start.month);
        day := days - start.day;
        months := end.month - start.month - 1;
      } else {
        day := end.day - start.day;
        months := end.month - start.month;
      }
      // whole years and the remaining months
      var years := end.year - start.year;
      months := years * 12 + months;
      year := months / 12;
      month := months % 12;
      assert Current() == RawDuration(start, end);
      // the privilege multiplier, when there is one
      if privilege != 0.0 {
        ghost var raw := Current();
        years := Floor(Scaled(year, privilege));
        var remainderMonths := RoundHalfEven(Frac(Scaled(year, privilege)) * 12.0);
        months := Floor(Scaled(month, privilege)) + remainderMonths;
        var remainderDays := Frac(Scaled(month, privilege)) * 30.0;
        var scaledDays := Scaled(day, privilege);
        day := Ceil(remainderDays + scaledDays);
        ghost var carried := Duration(years, months, day);
        assert carried == ScaledParts(raw, privilege);
        month := months + day / 30;
        day := day % 30;
        year := years + month / 12;
        month := month % 12;
        assert Current() == Normalize(carried);
      }
    }
  }

  /** Builds a period, or reports the error its construction raises: a start
      after the end is refused before anything else is done. */
  method NewPeriod(start: Date, end: Date, privilege: real := 0.0) returns (r: Result<Period>)
    requires ValidDate(start) && ValidDate(end)
    ensures r.Err? <==> Before(end, start) || end == LastDate
    ensures r.Err? ==> r == Err(StoredEnd(start, end).error)
    ensures r.Ok? ==> fresh(r.value)
    ensures r.Ok? ==> r.value.start == start && r.value.end == NextDay(end) && r.value.privilege == privilege
    ensures r.Ok? ==> r.value.Current() == Credited(start, NextDay(end), privilege)
  {
    match StoredEnd(start, end)
    case Err(e) =>
      r := Err(e);
    case Ok(_) =>
      var p := new Period(start, end, privilege);
      r := Ok(p);
  }

  /** The durations of the periods, in order. */
  function PeriodDurations(ps: seq<Period>): (ds: seq<Duration>)
    reads set p | p in ps
    ensures |ds| == |ps|
    ensures forall i :: 0 <= i < |ps| ==> ds[i] == ps[i].Current()
    decreases |ps|
  {
    if ps == [] then [] else PeriodDurations(ps[..|ps| - 1]) + [ps[|ps| - 1].Current()]
  }

  class Employee {
    var fio: string
    var periods: seq<Period>
    var year: int
    var month: int
    var day: int

    function Current(): Duration
      reads this
    {
      Duration(year, month, day)
    }

    /** An employee with the given name and periods, and zero totals. */
    constructor (fio: string, periods: seq<Period>)
      ensures this.fio == fio && this.periods == periods
      ensures Current() == Duration(0, 0, 0)
    {
      this.fio := fio;
      this.periods := periods;
      year, month, day := 0, 0, 0;
    }

    /** Adds the durations of all periods onto the totals, without resetting
        them first, and normalises the totals with 30-day months and 12-month
        years. The periods are only read. */
    method CalculateTotalExperience()
      modifies this`year, this`month, this`day
      ensures Current() == Total(old(Current()), old(PeriodDurations(periods)))
      ensures periods == old(periods)
    {
      ghost var ds := PeriodDurations(periods);
      var i := 0;
      while i < |periods|
        invariant 0 <= i <= |periods|
        invariant Current() == Add(old(Current()), Sum(ds[..i]))
      {
        var period := periods[i];
        assert period.Current() == ds[i];
        SumStep(ds, i);
        year := year + period.year;
        month := month + period.month;
        day := day + period.day;
        i := i + 1;
      }
      assert ds[..|periods|] == ds;
      ghost var summed := Current();
      assert summed == Add(old(Current()), Sum(ds));
      month := month + day / 30;
      day := day % 30;
      year := year + month / 12;
      month := month % 12;
      assert Current() == Normalize(summed);
    }

    /** Appends a period after the existing ones; the totals stay as they
        are until the next calculation. */
    method AddPeriod(period: Period)
      modifies this`periods
      ensures periods == old(periods) + [period]
      ensures Current() == old(Current())
    {
      periods := periods + [period];
    }
  }
}
