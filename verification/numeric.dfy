/** Real-number helpers for the parts of the adapter that Python evaluates on floats. */
module Numeric {

  /** The absolute value of a real, as Python's `abs` on a float. */
  function Abs(x: real): (r: real)
    ensures 0.0 <= r
    ensures r == x || r == -x
  {
    if x < 0.0 then -x else x
  }

  /** Python's `int(x)` on a float: truncation toward zero (not rounding, not flooring). */
  function Trunc(x: real): (r: int)
    ensures 0.0 <= x ==> r as real <= x < r as real + 1.0
    ensures x < 0.0 ==> r as real - 1.0 < x <= r as real
  {
    if 0.0 <= x then x.Floor else -((-x).Floor)
  }

  /** Undoing a division in absolute value. */
  lemma AbsQuotient(a: real, b: real)
    requires b != 0.0
    ensures Abs(a / b) * Abs(b) == Abs(a)
  {
    assert a / b * b == a;
  }
}
