/**
 The clamping helper `between`, defined identically in tools.py and in
 auto_brightness.py. Python's numbers are modelled as exact reals.
 */
module Tools {

  /** Python's two-argument `max`: the second argument is taken only when strictly larger. */
  function Max(a: real, b: real): (r: real)
    ensures r >= a && r >= b
    ensures r == a || r == b
  {
    if b > a then b else a
  }

  /** Python's two-argument `min`: the second argument is taken only when strictly smaller. */
  function Min(a: real, b: real): (r: real)
    ensures r <= a && r <= b
    ensures r == a || r == b
  {
    if b < a then b else a
  }

  /**
   `between(lower, x, upper)` is `min(max(lower, x), upper)`: `x` clamped to
   `[lower, upper]`. Because `min` is applied last, an empty interval
   (`lower > upper`) yields `upper`.
   */
  function Between(lower: real, x: real, upper: real): (r: real)
    ensures r <= upper
    ensures lower <= upper ==> lower <= r
    ensures lower <= x <= upper ==> r == x
    ensures x < lower <= upper ==> r == lower
    ensures upper < x ==> r == upper
    ensures upper < lower ==> r == upper
  {
    Min(Max(lower, x), upper)
  }

  /** Clamping an already clamped value changes nothing. */
  lemma BetweenIdempotent(lower: real, x: real, upper: real)
    ensures Between(lower, Between(lower, x, upper), upper) == Between(lower, x, upper)
  {
  }

  /** Clamping preserves order. */
  lemma BetweenMonotone(lower: real, x: real, y: real, upper: real)
    requires x <= y
    ensures Between(lower, x, upper) <= Between(lower, y, upper)
  {
  }
}
