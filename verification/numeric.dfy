/** Python's numeric built-ins on floats, as the services use them. */
module Numeric {

  function Min(a: real, b: real): real { if a <= b then a else b }
  function Max(a: real, b: real): real { if a >= b then a else b }

  /** Python's `int(x)` on a float: the integer part, rounding toward zero. */
  function Trunc(x: real): (n: int)
    ensures x >= 0.0 ==> 0 <= n && n as real <= x < n as real + 1.0
    ensures x < 0.0 ==> n <= 0 && n as real - 1.0 < x <= n as real
  {
    if x >= 0.0 then x.Floor else -((-x).Floor)
  }

  /** Truncation keeps a value between integer bounds within them. */
  lemma TruncBetween(x: real, lo: int, hi: int)
    requires lo as real <= x <= hi as real
    ensures lo <= Trunc(x) <= hi
  {
  }

  /** Truncation is exact on whole numbers. */
  lemma TruncWhole(n: int)
    ensures Trunc(n as real) == n
  {
  }

  /** `max(lo, min(hi, x))`, the clamping idiom of the services. */
  function Clamp(x: real, lo: real, hi: real): (r: real)
    requires lo <= hi
    ensures lo <= r <= hi
    ensures lo <= x <= hi ==> r == x
    ensures x < lo ==> r == lo
    ensures x > hi ==> r == hi
  {
    Max(lo, Min(hi, x))
  }
}
