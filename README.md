# Tenure arithmetic of the employee service-record calculator

This project models the core of a small service-record calculator: the
arithmetic in `src/employee.py` that turns periods of work into an employee's
total tenure in years, months and days, and proves properties of that model.

- A **period** has a start date, an inclusive end date and a privilege
  multiplier (time in hazardous jobs may count 1.5 or 2 times). Building one
  refuses a start after the end. It stores the day after the end as an
  exclusive bound. It then computes a calendar-aware duration. When the end
  day is before the start day, a month is borrowed, and the borrowed month's
  length is the length of the start month. A non-zero multiplier rescales the
  duration with a fixed rounding policy and normalises it with 30-day months
  and 12-month years. The policy floors the scaled years, rounds their
  fraction to months (ties to even), floors the scaled months and rounds the
  remaining days up.
- An **employee** adds the years, months and days of all its periods onto its
  own totals, then normalises the totals the same way. Periods can be
  appended.

The model follows the source's form. `Period` and `Employee` are classes
whose methods update their fields step by step, as the source does, and each
method is proved against a pure specification function:

- `Tenure.Credited` specifies a period;
- `Durations.Total` specifies the employee totals.

The date helpers (`Dates.DaysInMonth`, `Dates.NextDay`) and the rounding
helpers (`Rounding`) are pure functions. The value of a duration in days,
`360 * years + 30 * months + days` (`Durations.Linear`), is the measure that
normalisation keeps and that the rescaling is characterised by.

Multiplying a whole number by the multiplier is written as repeated addition
(`Rounding.Scaled`). `Rounding.ScaledIsProduct` proves it equals the product.

Two behaviours of the code are worth stating outright:

- Totalling does not reset the totals, so calling it twice adds the periods
  twice (`src/employee.py:108-111`; `Durations.TotalAccumulates`).
- Without a multiplier a period can keep 30 days: 2016-01-01 to 2016-01-30
  gives 0 years, 0 months, 30 days (`Fixtures.RawFixtures`). Only the
  multiplier path reduces the days modulo 30 (`src/employee.py:57-58`). The
  model proves days in `[0, 30]`, and in `[0, 29]` under a non-zero
  multiplier (`Tenure.Credited`).

## Model

| member | source | states |
|---|---|---|
| Dates.DaysInMonth | src/employee.py:73-83 | The length of a month is 28 to 31 days. It is 29 exactly for February of a Gregorian leap year and 28 for February otherwise. It is 30 exactly for April, June, September and November. |
| Dates.YearLength | src/employee.py:83 | The twelve month lengths add up to 366 days in a leap year and 365 otherwise. |
| Dates.Before | src/employee.py:19 | Date comparison, lexicographic on year, month and day, is on valid dates the order of a single numeric key of the date. |
| Dates.Trichotomy | src/employee.py:19 | Date comparison is a strict total order, and "not after" is the negation of "after". |
| Dates.BeforeTransitive | src/employee.py:19 | Date comparison is transitive. |
| Dates.NextDay | src/employee.py:22 | The day after a valid date other than 9999-12-31 is a valid date and comes after it. |
| Dates.NextDayIsSuccessor | src/employee.py:22 | A date is after `d` exactly when it is not before the day after `d`, so no date lies strictly between them. |
| Dates.NextDayMonotone | src/employee.py:22 | Taking the next day preserves and reflects the order of dates. |
| Rounding.Floor | src/employee.py:51 | `floor(x)` is the integer `r` with `r <= x < r + 1`. |
| Rounding.Ceil | src/employee.py:56 | `ceil(x)` is the integer `r` with `x <= r < x + 1`. |
| Rounding.Frac | src/employee.py:52 | `x % 1` lies in `[0, 1)`, also for negative `x`. |
| Rounding.RoundHalfEven | src/employee.py:52 | `round(x)` is within one half of `x`. |
| Rounding.RoundHalfEvenTies | src/employee.py:52 | On a tie `n + 0.5`, `round` gives `n` or `n + 1`, whichever is even. |
| Rounding.RoundHalfEvenShift | src/employee.py:52 | Adding an even integer before rounding adds it to the rounded result. |
| Rounding.RoundHalfEvenMonotone | src/employee.py:52 | `round` is monotone. |
| Rounding.RoundingIntegers | src/employee.py:51-56 | Floor, ceil and round leave an integer unchanged, and its fractional part is 0. |
| Rounding.CeilShift | src/employee.py:56 | Adding an integer before `ceil` adds it to the result. |
| Rounding.CeilMonotone | src/employee.py:56 | `ceil` is monotone. |
| Rounding.ScaledIsProduct | src/employee.py:51-55 | Repeated addition of the multiplier `n` times is `n` times the multiplier, for negative `n` too. |
| Rounding.ScaledMonotone | src/employee.py:51-55 | For a non-negative count, a larger multiplier gives a larger or equal scaled value. |
| Rounding.ScaledNonNegative | src/employee.py:51-55 | A non-negative count times a non-negative multiplier is non-negative. |
| Durations.Normalize | src/employee.py:57-60 | Carrying days into 30-day months and months into 12-month years gives months in `[0, 11]` and days in `[0, 29]`, and keeps the value in days. |
| Durations.NormalizedUnique | src/employee.py:57-60 | Two normalised durations with the same value in days are equal, so the normalised result is the only one possible. |
| Durations.NormalizeIdempotent | src/employee.py:114-117 | Normalising a normalised duration changes nothing. |
| Durations.SumStep | src/employee.py:108-111 | Adding the next period to the running sum gives the sum of one more period. |
| Durations.LinearOfSum | src/employee.py:108-111 | The value in days of the component-wise sum is the sum of the values in days. |
| Durations.Total | src/employee.py:108-117 | The totals are normalised and worth the starting totals plus the values in days of all periods. |
| Durations.TotalAccumulates | src/employee.py:108-117 | Totalling twice adds the periods twice, so with a non-zero sum the second result differs from the first. |
| Durations.TotalCharacterized | src/employee.py:108-117 | The totals equal a normalised duration exactly when that duration is worth the starting totals plus the sum of the periods. |
| Privilege.ScaledParts | src/employee.py:51-56 | Before normalisation, the fraction of the scaled years adds 0 to 12 months to the whole scaled months, and the fraction of the scaled months adds less than 31 days to the scaled days, which are never rounded down. |
| Privilege.Rescale | src/employee.py:50-60 | The rescaled duration is normalised and worth as much as the rounded scaled parts. |
| Privilege.RescaleValue | src/employee.py:51-60 | The rescaled value in days is `360 * floor(y*p) + 30 * (floor(m*p) + round(frac(y*p) * 12)) + ceil(frac(m*p) * 30 + d*p)`. |
| Privilege.RescaleNonNegative | src/employee.py:51-56 | Non-negative parts and multiplier give non-negative years and a non-negative value in days. |
| Privilege.ScaledSixths | src/employee.py:51 | Scaling by `k / 6` is exact division of `n * k` by 6. |
| Privilege.SixthsFraction | src/employee.py:52-54 | Twelve and thirty times the fractional part of a number of sixths are whole numbers. |
| Privilege.ScaledPartsSixths | src/employee.py:51-56 | For a multiplier `k / 6`, the rounded parts are worth `60*y*k + 5*m*k + ceil(d*k / 6)` days: the month and day carries lose nothing. |
| Privilege.RescaleBySixths | src/employee.py:50-60 | For a multiplier `k / 6` (1, 1.5, 2, ...), the rescaled value in days is the multiplier times the value in days, rounded up. |
| Privilege.RescaleByOne | src/employee.py:50-60 | Rescaling by 1 is plain normalisation. |
| Privilege.YearCarry | src/employee.py:51-52 | Flooring the scaled years and rounding twelve times their fraction is rounding the scaled years counted in months. |
| Privilege.DayCarry | src/employee.py:53-56 | Flooring the scaled months and rounding up the rest in days is rounding up the scaled months and days counted in days. |
| Privilege.RescaleLinear | src/employee.py:50-60 | The rescaled value in days is `30 * round(12*y*p) + ceil(30*m*p + d*p)`. |
| Privilege.ScaledLinear | src/employee.py:51-55 | Scaling the value in days of a duration is scaling its parts. |
| Privilege.RescaleBias | src/employee.py:50-60 | For any multiplier, the value in days of the duration rescaled by it (the non-zero multiplier path) is at most 15 days below and less than 16 days above the multiplier times the value in days. |
| Privilege.RescaleMonotone | src/employee.py:50-60 | For non-negative parts, rescaling by a larger non-zero multiplier never gives a smaller value in days. |
| Privilege.RescaleAtLeastOnce | src/employee.py:50-60 | For non-negative parts, rescaling by a multiplier of at least 1 gives no smaller a value in days than the duration itself. |
| Tenure.RawDuration | src/employee.py:34-47 | The raw duration has months in `[0, 11]` and days in `[0, 30]`, and non-negative years when the start is not after the end. |
| Tenure.RawDurationParts | src/employee.py:34-47 | `12 * years + months` is the difference in months, less one when the end day is before the start day. The days are the day difference, plus the length of the start month on that borrow path. On the borrow path the days stay below the start month's length, otherwise below the end month's length. |
| Tenure.RawDurationWholeMonths | src/employee.py:34-47 | The raw years and months count the whole months elapsed: the start's monthly anniversary after that many months is reached by the end, and the next one is not. |
| Tenure.Credited | src/employee.py:34-60 | A period's credited duration has months in `[0, 11]` and days in `[0, 30]`, or `[0, 29]` under a non-zero multiplier. For a start not after the end and a non-negative multiplier, its years and value in days are non-negative. |
| Tenure.CreditedMonotone | src/employee.py:50-60 | For a start not after the end, with multipliers that are 0 or at least 1 (the form offers 0, 1.5 and 2), a larger multiplier never credits a period less. |
| Employees.StoredEnd | src/employee.py:19-22 | A start after the end is refused with the range error. Otherwise the end 9999-12-31 is refused with the overflow error. Otherwise the stored end is the day after the end. A start equal to the end is accepted. |
| Employees.Period.constructor | src/employee.py:11-27 | The multiplier defaults to 0. The period keeps the start and the multiplier, stores the day after the end, and holds the credited duration of that range. |
| Employees.Period.CalculatePeriod | src/employee.py:29-60 | After the step-by-step update, the fields hold `Credited(start, end, privilege)` and the dates and multiplier are unchanged. |
| Employees.NewPeriod | src/employee.py:19-27 | Construction fails exactly when the start is after the end or the end is 9999-12-31, with the matching error. Otherwise it yields a fresh period holding the credited duration. |
| Employees.PeriodDurations | src/employee.py:108-111 | One duration per period, in order, each that period's years, months and days. |
| Employees.Employee.constructor | src/employee.py:91-102 | An employee starts with the given name and periods and zero totals. |
| Employees.Employee.CalculateTotalExperience | src/employee.py:104-117 | The new totals are `Total` of the old totals and the periods' durations: normalised and worth the old totals plus every period. The periods are only read. |
| Employees.Employee.AddPeriod | src/employee.py:119-125 | The period is appended after the existing ones, and the totals stay as they are. |
| Fixtures.NextDayFixtures | src/employee.py:22 | The day after crosses month ends, year ends, February 29 and a non-leap century year. |
| Fixtures.RawFixtures | tests/test_app.py:16-24 | The expected durations of the test periods without a multiplier whose end day is not before the start day, and 0/0/30 for 2016-01-01 to 2016-01-30. |
| Fixtures.BorrowFixtures | tests/test_app.py:17-25 | The expected durations of the test periods without a multiplier that borrow the start month's length. |
| Fixtures.RescaledRaw | tests/test_app.py:25 | 2017-09-18 to 2023-05-10 is 5 years, 7 months, 23 days. |
| Fixtures.DoubleParts | tests/test_app.py:26 | Doubling that duration gives the parts 10 years, 14 months, 46 days. |
| Fixtures.DoubleFixture | tests/test_app.py:26 | With multiplier 2 the period is 11 years, 3 months, 16 days. |
| Fixtures.OneAndAHalfParts | tests/test_app.py:27 | Multiplying that duration by 1.5 gives the parts 7 years, 16 months, 50 days. |
| Fixtures.OneAndAHalfFixture | tests/test_app.py:27 | With multiplier 1.5 the period is 8 years, 5 months, 20 days. |
| Fixtures.RangeFixtures | tests/test_app.py:28 | 2017-09-18 to 2017-09-17 is refused, a one-day period is accepted, and an end of 9999-12-31 overflows. |
| Fixtures.TotalOfThree | src/employee.py:108-117 | Totalling three periods is normalising the totals plus their component-wise sum. |
| Fixtures.SumFixture | tests/test_app.py:55-62 | The three test periods add up to 19 years, 21 months, 54 days. |
| Fixtures.CarryFixture | tests/test_app.py:62 | 19 years, 21 months, 54 days normalise to 20 years, 10 months, 24 days. |
| Fixtures.TotalFixture | tests/test_app.py:55-62 | From zero totals, the three test periods total 20 years, 10 months, 24 days. |
| Fixtures.FixturePeriods | tests/test_app.py:58-60 | The three test periods hold 10/9/17, 5/9/22 and 4/3/15. |
| Fixtures.FixtureEmployee | tests/test_app.py:55-62 | An employee built with the first two periods, given the third by appending, totals 20 years, 10 months, 24 days. |
| Fixtures.EmployeeFixture | tests/test_app.py:55-62 | Building the three periods and the employee and computing the totals gives 20 years, 10 months, 24 days. |

## Left out

- `src/app.py`: the web form, session state, document generation and download are user interface and I/O and are not part of this model. The only thing taken from it is the set of multipliers the form offers (0, 1.5 and 2). `Privilege.RescaleBySixths` covers that set.
- `Period.__str__` and `Employee.__str__`: text rendering only.
- The multiplier is an exact rational. IEEE floating-point rounding of `privilege` is not modelled. For 0, 1.5 and 2 the float arithmetic of the source is exact.
- Python lets `self.day` hold a float for one statement. The model keeps that value in a local real and stores only the rounded-up integer in the field.
- Dates are triples of year, month and day. The library's date construction, `timedelta` and `calendar.monthrange` are re-specified for the proleptic Gregorian calendar, years 1 to 9999. Inputs are assumed to be valid dates, as `datetime.date` guarantees.
- Employees.Period.constructor: requires a start not after the end and an end before 9999-12-31. The source raises in those cases; the model covers them in `Employees.NewPeriod` and `Employees.StoredEnd`, which return the error instead of raising.
- Employees.Employee.AddPeriod: does not model that the employee shares its period list with the caller. Appending in the source also grows the caller's list; the model holds the periods as a sequence value.
- Employees.Employee.CalculateTotalExperience: is annotated in the source as returning a period but returns nothing. The model returns nothing either.
