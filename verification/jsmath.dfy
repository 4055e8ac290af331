/**
 JavaScript's `Math.round` and `Math.ceil` on exact reals. `Math.round` rounds halves toward
 positive infinity, so it is `Floor(x + 1/2)`.
 */
module JsMath {

  /** `Math.round(x)`: the integer nearest to x, halves going up. */
  function Round(x: real): (r: int)
    ensures x - 0.5 < r as real <= x + 0.5
  {
    (x + 0.5).Floor
  }

  /** `Math.ceil(x)`: the least integer not below x. */
  function Ceil(x: real): (r: int)
    ensures x <= r as real < x + 1.0
  {
    -((-x).Floor)
  }

  /** Rounding an integer gives it back, so a sum of rounded items needs no second rounding. */
  lemma RoundOfInteger(n: int)
    ensures Round(n as real) == n
  {
  }

  /** `Math.round` of a non-negative value is non-negative. */
  lemma RoundNonNegative(x: real)
    requires x >= 0.0
    ensures Round(x) >= 0
  {
  }

  lemma CeilMonotone(x: real, y: real)
    requires x <= y
    ensures Ceil(x) <= Ceil(y)
  {
  }

  lemma CeilPositive(x: real)
    requires x > 0.0
    ensures Ceil(x) >= 1
  {
  }
}
