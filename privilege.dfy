/** The rescaling of a duration by a privilege multiplier, with its fixed
    rounding policy, and what the policy gives for multipliers that are whole
    sixths (1, 1.5, 2, ...). */
module Privilege {
  import opened Rounding
  import opened Durations

  /** The rounding policy of the rescaling by a multiplier `p`, before
      normalisation: the scaled years are floored and their fractional part
      becomes rounded months, the scaled months are floored and their
      fractional part becomes 30-day days, and the days are rounded up. The
      years' fraction adds 0 to 12 months to the whole scaled months, and the
      months' fraction adds less than 31 days to the scaled days. */
  function ScaledParts(t: Duration, p: real): (r: Duration)
    ensures 0 <= r.months - Floor(Scaled(t.months, p)) <= 12
    ensures Scaled(t.days, p) <= r.days as real < Scaled(t.days, p) + 31.0
  {
    var yp, mp, dp := Scaled(t.years, p), Scaled(t.months, p), Scaled(t.days, p);
    Duration(Floor(yp), Floor(mp) + RoundHalfEven(Frac(yp) * 12.0), Ceil(Frac(mp) * 30.0 + dp))
  }

  /** The rescaling of a duration by a non-zero multiplier `p`: the rounded
      parts, normalised. */
  function Rescale(t: Duration, p: real): (r: Duration)
    ensures Normalized(r)
    ensures Linear(r) == Linear(ScaledParts(t, p))
  {
    Normalize(ScaledParts(t, p))
  }

  /** The value in days of a rescaled duration, with `y`, `m` and `d` its
      years, months and days: 360 times the floored scaled years, plus 30
      times the floored scaled months and the rounded month carry of the
      years, plus the rounded-up day carry of the months and scaled days. */
  lemma RescaleValue(t: Duration, p: real)
    ensures Linear(Rescale(t, p))
            == 360 * Floor(Scaled(t.years, p))
               + 30 * (Floor(Scaled(t.months, p)) + RoundHalfEven(Frac(Scaled(t.years, p)) * 12.0))
               + Ceil(Frac(Scaled(t.months, p)) * 30.0 + Scaled(t.days, p))
  {
  }

  /** With non-negative parts and multiplier, the rescaled duration is
      non-negative. */
  lemma RescaleNonNegative(t: Duration, p: real)
    ensures t.years >= 0 && t.months >= 0 && t.days >= 0 && p >= 0.0
            ==> Rescale(t, p).years >= 0 && Linear(Rescale(t, p)) >= 0
  {
    if t.years >= 0 && t.months >= 0 && t.days >= 0 && p >= 0.0 {
      ScaledNonNegative(t.years, p);
      ScaledNonNegative(t.months, p);
      ScaledNonNegative(t.days, p);
    }
  }

  /** Multiplying by a whole number of sixths. */
  lemma ScaledSixths(n: int, k: int)
    ensures Scaled(n, k as real / 6.0) == (n * k) as real / 6.0
  {
    ScaledIsProduct(n, k as real / 6.0);
    assert n as real * (k as real / 6.0) == (n * k) as real / 6.0;
  }

  /** Twelve and thirty times the fractional part of a whole number of
      sixths are whole numbers. */
  lemma SixthsFraction(a: int)
    ensures Frac(a as real / 6.0) * 12.0 == (2 * a - 12 * Floor(a as real / 6.0)) as real
    ensures Frac(a as real / 6.0) * 30.0 == (5 * a - 30 * Floor(a as real / 6.0)) as real
  {
  }

  /** When the scaled years, months and days are whole numbers of sixths
      `a / 6`, `b / 6` and `c / 6`, the month carry of the years and the day
      carry of the months are whole numbers and lose nothing to rounding. */
  lemma ScaledPartsSixths(t: Duration, k: nat)
    ensures Linear(ScaledParts(t, k as real / 6.0))
            == 60 * (t.years * k) + 5 * (t.months * k) + Ceil((t.days * k) as real / 6.0)
  {
    var a, b, c := t.years * k, t.months * k, t.days * k;
    ScaledSixths(t.years, k);
    ScaledSixths(t.months, k);
    ScaledSixths(t.days, k);
    var yp, mp, dp := a as real / 6.0, b as real / 6.0, c as real / 6.0;
    var fy, fm := Floor(yp), Floor(mp);
    SixthsFraction(a);
    SixthsFraction(b);
    assert Frac(yp) * 12.0 == (2 * a - 12 * fy) as real;
    RoundingIntegers(2 * a - 12 * fy);
    assert Frac(mp) * 30.0 + dp == (5 * b - 30 * fm) as real + c as real / 6.0;
    CeilShift(5 * b - 30 * fm, c as real / 6.0);
  }

  /** Scaling a duration's value in days distributes over its parts. */
  lemma LinearTimes(t: Duration, k: int)
    ensures Linear(t) * k == 360 * (t.years * k) + 30 * (t.months * k) + t.days * k
  {
  }

  /** The multiplier `k / 6` times a value in days, split into whole days and
      a remainder of sixths. */
  lemma ScaledLinearSixths(t: Duration, k: nat)
    ensures Ceil(Scaled(Linear(t), k as real / 6.0))
            == 60 * (t.years * k) + 5 * (t.months * k) + Ceil((t.days * k) as real / 6.0)
  {
    var a, b, c := t.years * k, t.months * k, t.days * k;
    ScaledSixths(Linear(t), k);
    LinearTimes(t, k);
    assert (Linear(t) * k) as real / 6.0 == (60 * a + 5 * b) as real + c as real / 6.0;
    CeilShift(60 * a + 5 * b, c as real / 6.0);
  }

  /** When six times the multiplier is a whole number (so for 1.5 and 2, and
      for 1), no rounding of a month carry loses anything: the rescaled
      tenure is exactly the multiplier times the tenure, rounded up to a
      whole day. */
  lemma RescaleBySixths(t: Duration, k: nat)
    requires k > 0
    ensures Linear(Rescale(t, k as real / 6.0)) == Ceil(Scaled(Linear(t), k as real / 6.0))
  {
    ScaledPartsSixths(t, k);
    ScaledLinearSixths(t, k);
  }

  /** Rescaling by 1 is plain normalisation. */
  lemma RescaleByOne(t: Duration)
    ensures Rescale(t, 1.0) == Normalize(t)
  {
    RescaleBySixths(t, 6);
    ScaledIsProduct(Linear(t), 1.0);
    RoundingIntegers(Linear(t));
    NormalizedUnique(Rescale(t, 1.0), Normalize(t));
  }

  /** Flooring the scaled years and rounding twelve times their fractional
      part is rounding the scaled years in months. */
  lemma YearCarry(yp: real)
    ensures 12 * Floor(yp) + RoundHalfEven(Frac(yp) * 12.0) == RoundHalfEven(yp * 12.0)
  {
    var fy, x := Floor(yp), Frac(yp) * 12.0;
    assert yp * 12.0 == (2 * (6 * fy)) as real + x;
    RoundHalfEvenShift(6 * fy, x);
  }

  /** Flooring the scaled months and rounding up the rest in days is
      rounding up the scaled months and days in days. */
  lemma DayCarry(mp: real, dp: real)
    ensures 30 * Floor(mp) + Ceil(Frac(mp) * 30.0 + dp) == Ceil(mp * 30.0 + dp)
  {
  }

  /** The rescaled value in days is 30 times the scaled years rounded to
      months, plus the scaled months and days rounded up to days. */
  lemma RescaleLinear(t: Duration, p: real)
    ensures Linear(Rescale(t, p))
            == 30 * RoundHalfEven(Scaled(t.years, p) * 12.0) + Ceil(Scaled(t.months, p) * 30.0 + Scaled(t.days, p))
  {
    RescaleValue(t, p);
    YearCarry(Scaled(t.years, p));
    DayCarry(Scaled(t.months, p), Scaled(t.days, p));
  }

  /** One more unit adds one multiplier, on both sides of zero. */
  lemma ScaledStep(n: int, p: real)
    ensures Scaled(n, p) == Scaled(n - 1, p) + p
  {
  }

  /** Scaling distributes over a sum. */
  lemma {:induction false} ScaledAdd(a: int, b: int, p: real)
    ensures Scaled(a + b, p) == Scaled(a, p) + Scaled(b, p)
    decreases if b < 0 then -b else b
  {
    if b > 0 {
      ScaledAdd(a, b - 1, p);
      ScaledStep(a + b, p);
      ScaledStep(b, p);
    } else if b < 0 {
      ScaledAdd(a, b + 1, p);
      ScaledStep(a + b + 1, p);
      ScaledStep(b + 1, p);
    }
  }

  /** Scaling commutes with a whole factor. */
  lemma {:induction false} ScaledTimes(c: nat, n: int, p: real)
    ensures Scaled(c * n, p) == c as real * Scaled(n, p)
  {
    if c > 0 {
      ScaledTimes(c - 1, n, p);
      assert c * n == (c - 1) * n + n;
      ScaledAdd((c - 1) * n, n, p);
    }
  }

  /** Scaling a duration's value in days is scaling its parts. */
  lemma ScaledLinear(t: Duration, p: real)
    ensures Scaled(Linear(t), p)
            == 360.0 * Scaled(t.years, p) + 30.0 * Scaled(t.months, p) + Scaled(t.days, p)
  {
    ScaledAdd(360 * t.years + 30 * t.months, t.days, p);
    ScaledAdd(360 * t.years, 30 * t.months, p);
    ScaledTimes(360, t.years, p);
    ScaledTimes(30, t.months, p);
  }

  /** The rounding bias of the rescaling is bounded: the rescaled value in
      days is at most 15 days below and less than 16 days above the
      multiplier times the value in days. */
  lemma RescaleBias(t: Duration, p: real)
    ensures Scaled(Linear(t), p) - 15.0 <= Linear(Rescale(t, p)) as real < Scaled(Linear(t), p) + 16.0
  {
    RescaleLinear(t, p);
    ScaledLinear(t, p);
  }

  /** The telescoped rounding of a duration with non-negative parts is
      monotone in the multiplier. */
  lemma RoundedPartsMonotone(t: Duration, p: real, q: real)
    requires t.years >= 0 && t.months >= 0 && t.days >= 0
    requires p <= q
    ensures 30 * RoundHalfEven(Scaled(t.years, p) * 12.0) + Ceil(Scaled(t.months, p) * 30.0 + Scaled(t.days, p))
            <= 30 * RoundHalfEven(Scaled(t.years, q) * 12.0) + Ceil(Scaled(t.months, q) * 30.0 + Scaled(t.days, q))
  {
    ScaledMonotone(t.years, p, q);
    ScaledMonotone(t.months, p, q);
    ScaledMonotone(t.days, p, q);
    RoundHalfEvenMonotone(Scaled(t.years, p) * 12.0, Scaled(t.years, q) * 12.0);
    CeilMonotone(Scaled(t.months, p) * 30.0 + Scaled(t.days, p), Scaled(t.months, q) * 30.0 + Scaled(t.days, q));
  }

  /** For a duration with non-negative parts, rescaling by a larger
      multiplier never gives less. */
  lemma RescaleMonotone(t: Duration, p: real, q: real)
    requires t.years >= 0 && t.months >= 0 && t.days >= 0
    requires p <= q
    ensures Linear(Rescale(t, p)) <= Linear(Rescale(t, q))
  {
    RescaleLinear(t, p);
    RescaleLinear(t, q);
    RoundedPartsMonotone(t, p, q);
  }

  /** Rescaling by a multiplier of at least 1 gives no less than the duration
      itself. */
  lemma RescaleAtLeastOnce(t: Duration, p: real)
    requires t.years >= 0 && t.months >= 0 && t.days >= 0
    requires p >= 1.0
    ensures Linear(t) <= Linear(Rescale(t, p))
  {
    RescaleMonotone(t, 1.0, p);
    RescaleByOne(t);
  }
}
