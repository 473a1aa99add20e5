/** Python's rounding and truncating conversions, on exact rationals. */
module Rounding {

  /** Python 3 `round(q)` on a float: the nearest integer, ties to the even one. */
  function RoundHalfEven(q: real): (r: int)
    ensures q - 0.5 <= r as real <= q + 0.5
    ensures (r as real - q == 0.5 || q - r as real == 0.5) ==> r % 2 == 0
  {
    var f := q.Floor;
    var d := q - f as real;
    if d < 0.5 then f
    else if d > 0.5 then f + 1
    else if f % 2 == 0 then f
    else f + 1
  }

  /** The two properties of RoundHalfEven determine it. */
  lemma RoundHalfEvenUnique(q: real, n: int)
    requires q - 0.5 <= n as real <= q + 0.5
    requires (n as real - q == 0.5 || q - n as real == 0.5) ==> n % 2 == 0
    ensures RoundHalfEven(q) == n
  {
  }

  /** Python's `int()` of a float: truncation toward zero. */
  function Trunc(r: real): int {
    if r >= 0.0 then r.Floor else -((-r).Floor)
  }

  /** The truncated value is the integer next to `r` on the side of zero. */
  lemma TruncBounds(r: real)
    ensures r >= 0.0 ==> Trunc(r) as real <= r < Trunc(r) as real + 1.0
    ensures r < 0.0 ==> Trunc(r) as real - 1.0 < r <= Trunc(r) as real
  {
  }

  lemma TruncMonotone(a: real, b: real)
    requires 0.0 <= a <= b
    ensures 0 <= Trunc(a) <= Trunc(b)
  {
    TruncBounds(a);
    TruncBounds(b);
  }
}
