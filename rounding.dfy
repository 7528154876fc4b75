/** Python's `math.floor`, `math.ceil`, the built-in `round` and `x % 1`,
    on exact rationals. */
module Rounding {

  /** `math.floor`: the greatest integer not above `x`. */
  function Floor(x: real): (r: int)
    ensures r as real <= x < r as real + 1.0
  {
    x.Floor
  }

  /** `math.ceil`: the least integer not below `x`. */
  function Ceil(x: real): (r: int)
    ensures x <= r as real < x + 1.0
  {
    -((-x).Floor)
  }

  /** `x % 1`: Python's remainder takes the sign of the divisor, so this is
      the fractional part `x - floor(x)`, also for negative `x`. */
  function Frac(x: real): (r: real)
    ensures 0.0 <= r < 1.0
  {
    x - Floor(x) as real
  }

  /** The built-in `round` with one argument: the nearest integer, and on a
      tie the even one. */
  function RoundHalfEven(x: real): (r: int)
    ensures r as real - 0.5 <= x <= r as real + 0.5
  {
    var f := Floor(x);
    var diff := x - f as real;
    if diff < 0.5 then f
    else if diff > 0.5 then f + 1
    else if f % 2 == 0 then f
    else f + 1
  }

  /** On a tie between two integers, `RoundHalfEven` picks the even one. */
  lemma RoundHalfEvenTies(n: int)
    ensures RoundHalfEven(n as real + 0.5) % 2 == 0
    ensures RoundHalfEven(n as real + 0.5) == n || RoundHalfEven(n as real + 0.5) == n + 1
  {
  }

  /** Each of the three roundings leaves an integer as it is, and none of
      them moves a value by a whole unit or more. */
  lemma RoundingIntegers(n: int)
    ensures Floor(n as real) == n && Ceil(n as real) == n && RoundHalfEven(n as real) == n
    ensures Frac(n as real) == 0.0
  {
  }

  /** Adding an even integer `2 * k` commutes with `RoundHalfEven`; an odd
      one would change which neighbour of a tie is even. */
  lemma RoundHalfEvenShift(k: int, x: real)
    ensures RoundHalfEven((2 * k) as real + x) == 2 * k + RoundHalfEven(x)
  {
  }

  /** `RoundHalfEven` is monotone. */
  lemma RoundHalfEvenMonotone(x: real, y: real)
    requires x <= y
    ensures RoundHalfEven(x) <= RoundHalfEven(y)
  {
  }

  /** Adding an integer commutes with `Ceil`. */
  lemma CeilShift(n: int, x: real)
    ensures Ceil(n as real + x) == n + Ceil(x)
  {
  }

  /** `Ceil` is monotone. */
  lemma CeilMonotone(x: real, y: real)
    requires x <= y
    ensures Ceil(x) <= Ceil(y)
  {
  }

  /** `n * p` for a whole `n` and a rational `p`, written as repeated
      addition so that the verifier's arithmetic stays linear wherever it
      appears; `ScaledIsProduct` shows that it is the product. */
  function Scaled(n: int, p: real): real
    decreases if n < 0 then -n else n
  {
    if n == 0 then 0.0
    else if n > 0 then Scaled(n - 1, p) + p
    else Scaled(n + 1, p) - p
  }

  lemma {:induction false} ScaledIsProduct(n: int, p: real)
    ensures Scaled(n, p) == n as real * p
    decreases if n < 0 then -n else n
  {
    if n > 0 {
      ScaledIsProduct(n - 1, p);
    } else if n < 0 {
      ScaledIsProduct(n + 1, p);
    }
  }

  /** A larger multiplier scales a non-negative whole number to no less. */
  lemma {:induction false} ScaledMonotone(n: int, p: real, q: real)
    requires n >= 0 && p <= q
    ensures Scaled(n, p) <= Scaled(n, q)
    decreases n
  {
    if n > 0 {
      ScaledMonotone(n - 1, p, q);
    }
  }

  /** A product of non-negative factors is non-negative. */
  lemma {:induction false} ScaledNonNegative(n: int, p: real)
    requires n >= 0 && p >= 0.0
    ensures Scaled(n, p) >= 0.0
    decreases n
  {
    if n > 0 {
      ScaledNonNegative(n - 1, p);
    }
  }
}
