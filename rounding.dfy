/**
 * Python's built-in `round` as the views use it on upstream numbers:
 * `round(x)` gives the nearest integer, ties going to the even one, and
 * `round(x, 1)` the nearest multiple of one tenth under the same rule.
 * Numbers are the exact real values of the decoded JSON numbers.
 */
module Rounding {

  /** `n` is the integer nearest to `x`; at an exact tie it is the even one. */
  predicate IsNearestEven(x: real, n: int) {
    var d := x - n as real;
    -0.5 <= d <= 0.5 && ((d == 0.5 || d == -0.5) ==> n % 2 == 0)
  }

  /** `round(x)`. */
  function RoundHalfEven(x: real): (n: int)
    ensures IsNearestEven(x, n)
  {
    var f := x.Floor;
    var d := x - f as real;
    if d < 0.5 then f
    else if d > 0.5 then f + 1
    else if f % 2 == 0 then f
    else f + 1
  }

  /** The nearest-even integer is unique, so `RoundHalfEven` is the only rounding with its contract. */
  lemma NearestEvenUnique(x: real, m: int, n: int)
    requires IsNearestEven(x, m) && IsNearestEven(x, n)
    ensures m == n
  {
  }

  /** `round(x, 1)`: one decimal place, ties to an even last digit. */
  function RoundToTenths(x: real): (r: real)
    ensures -0.05 <= r - x <= 0.05
    ensures IsNearestEven(x * 10.0, (r * 10.0).Floor) && (r * 10.0).Floor as real == r * 10.0
  {
    var n := RoundHalfEven(x * 10.0);
    assert n as real / 10.0 * 10.0 == n as real;
    n as real / 10.0
  }

  /** Ties go to the even neighbour, not always up. */
  lemma TiesToEven()
    ensures RoundHalfEven(0.5) == 0 && RoundHalfEven(1.5) == 2 && RoundHalfEven(2.5) == 2
    ensures RoundHalfEven(-0.5) == 0 && RoundHalfEven(-1.5) == -2
    ensures RoundHalfEven(15.6) == 16 && RoundHalfEven(15.2) == 15 && RoundToTenths(3.47) == 3.5
  {
  }
}
