/** C arithmetic the firmware relies on: 16-bit signed integers, the
    float-to-integer conversion (truncation toward zero) and integer
    division (also truncation toward zero, unlike Dafny's Euclidean `/`). */
module CArith {

  /** `int16_t` */
  type Int16 = x: int | -0x8000 <= x < 0x8000

  predicate InInt16(x: int) {
    -0x8000 <= x < 0x8000
  }

  /** A float value whose conversion to `int16_t` is defined: its truncation
      is representable (anything else is undefined behaviour in C++). */
  predicate FitsInt16(r: real) {
    -32769.0 < r < 32768.0
  }

  /** Float-to-integer conversion: the fractional part is discarded. */
  function Trunc(r: real): (t: int)
    ensures 0.0 <= r ==> t as real <= r < t as real + 1.0
    ensures r < 0.0 ==> t as real - 1.0 < r <= t as real
  {
    if r >= 0.0 then r.Floor else -((-r).Floor)
  }

  lemma TruncFits(r: real)
    requires FitsInt16(r)
    ensures InInt16(Trunc(r))
  {
  }

  /** Truncation is exact on whole numbers. */
  lemma TruncOfInteger(n: int)
    ensures Trunc(n as real) == n
  {
  }

  /** C integer division of `a` by a positive `b`: the quotient is truncated
      toward zero, so the remainder takes the sign of `a`. */
  function CDiv(a: int, b: int): (q: int)
    requires b > 0
    ensures 0 <= a ==> q * b <= a < q * b + b
    ensures a < 0 ==> q * b - b < a <= q * b
  {
    if a >= 0 then a / b else -((-a) / b)
  }
}
