/** Numeric conversions shared by the document readers and the angle code. */
module Numerics {
  /** C++ float-to-int conversion and `strtol` on a decimal both truncate
      toward zero: the result is the integer nearest `x` on the side of zero. */
  function Truncate(x: real): (r: int)
    ensures x >= 0.0 ==> r as real <= x < r as real + 1.0
    ensures x < 0.0 ==> r as real - 1.0 < x <= r as real
  {
    if x >= 0.0 then x.Floor else -((-x).Floor)
  }
}
