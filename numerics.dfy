/** Python's numeric conversions, on exact rationals. */
module Numerics {

  /** `int(x)` on a float: truncation toward zero (not floor). */
  function Trunc(x: real): (r: int)
    ensures 0.0 <= x ==> r as real <= x < r as real + 1.0
    ensures x < 0.0 ==> r as real - 1.0 < x <= r as real
  {
    if x >= 0.0 then x.Floor else -((-x).Floor)
  }

  /** `math.ceil(x)`: the least integer not below `x`. */
  function Ceil(x: real): (r: int)
    ensures x <= r as real < x + 1.0
  {
    -((-x).Floor)
  }

  /** `max(a, b)` on floats. */
  function Max(a: real, b: real): (r: real)
    ensures r >= a && r >= b
    ensures r == a || r == b
  {
    if a >= b then a else b
  }

  lemma TruncOfInt(n: int)
    ensures Trunc(n as real) == n
  {
  }

  /** The truncation of a value in (-1, 1) is zero; of a larger value it keeps its sign. */
  lemma TruncNonNegative(x: real)
    requires x > -1.0
    ensures Trunc(x) >= 0
    ensures x < 0.0 ==> Trunc(x) == 0
  {
  }

  lemma CeilOfInt(n: int)
    ensures Ceil(n as real) == n
  {
  }
}
