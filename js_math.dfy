/**
 * The few JavaScript number operations the navigator relies on, over exact reals:
 * `Math.round`, rounding to a fixed number of decimals (`Math.round(x * k) / k`),
 * and the truthiness of an optional number.
 */
module JsMath {
  import opened Wrappers

  /** `Math.round`: the nearest integer, halves rounded toward +infinity. */
  function Round(x: real): (r: int)
    ensures r as real - 0.5 <= x < r as real + 0.5
  {
    (x + 0.5).Floor
  }

  /** `Math.round(x * 100) / 100`: two decimals, at most half a hundredth away. */
  function RoundCents(x: real): (r: real)
    ensures x - 0.005 < r <= x + 0.005
  {
    Round(x * 100.0) as real / 100.0
  }

  /** `Math.round(x * 10000000) / 10000000`: seven decimals, at most 5e-8 away. */
  function RoundSeventh(x: real): (r: real)
    ensures x - 0.00000005 < r <= x + 0.00000005
  {
    Round(x * 10000000.0) as real / 10000000.0
  }

  /** `Math.round` never reverses the order of its arguments. */
  lemma RoundMonotone(x: real, y: real)
    requires x <= y
    ensures Round(x) <= Round(y)
  {
  }

  /** JavaScript truthiness of a number that may be `null`: missing and `0` are falsy. */
  predicate Truthy(n: Option<real>) {
    n.Some? && n.value != 0.0
  }

  function Min(a: real, b: real): (r: real)
    ensures r <= a && r <= b && (r == a || r == b)
  {
    if a <= b then a else b
  }

  function Max(a: real, b: real): (r: real)
    ensures r >= a && r >= b && (r == a || r == b)
  {
    if a >= b then a else b
  }
}
