/** The values the virtual machine computes with. A number is an `f64` in
    the interpreter; here it is an exact `real`, so rounding, infinities and
    NaN are not modelled. */
module Values {

  datatype Value = Number(n: real)

  /** Truncation toward zero, as `f64` remainder uses it. */
  function Trunc(x: real): (t: int)
    ensures x >= 0.0 ==> t as real <= x < t as real + 1.0
    ensures x < 0.0 ==> t as real - 1.0 < x <= t as real
  {
    if x >= 0.0 then x.Floor else -((-x).Floor)
  }

  /** `lhs / rhs`. A zero divisor gives an infinity or NaN in the source;
      the model returns 0 there. */
  function Quotient(lhs: real, rhs: real): (q: real)
    ensures rhs != 0.0 ==> q * rhs == lhs
    ensures rhs == 0.0 ==> q == 0.0
  {
    if rhs == 0.0 then 0.0 else lhs / rhs
  }

  /** `lhs % rhs` on floats: the remainder of the division truncated toward
      zero. A zero divisor gives NaN in the source; the model returns 0. */
  function Remainder(lhs: real, rhs: real): (r: real)
    ensures rhs == 0.0 ==> r == 0.0
  {
    if rhs == 0.0 then 0.0 else lhs - rhs * (Trunc(lhs / rhs) as real)
  }
}
