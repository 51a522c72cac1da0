/**
 Rust's fixed-width signed integers as the matchmaker uses them: `i32` and `i64`
 values, two's-complement wrap-around of a result that leaves the range, and `/`,
 which truncates toward zero (Dafny's `/` on `int` is Euclidean).
 */
module Integers {
  const I32_MIN: int := -0x8000_0000
  const I32_MAX: int := 0x7fff_ffff
  const I64_MIN: int := -0x8000_0000_0000_0000
  const I64_MAX: int := 0x7fff_ffff_ffff_ffff

  type I32 = x: int | I32_MIN <= x <= I32_MAX
  type I64 = x: int | I64_MIN <= x <= I64_MAX

  /** The `i32` a wrapping operation leaves: x reduced modulo 2^32 into the signed range. */
  function WrapI32(x: int): (r: I32)
    ensures (r - x) % 0x1_0000_0000 == 0
    ensures I32_MIN <= x <= I32_MAX ==> r == x
  {
    var m := (x - I32_MIN) % 0x1_0000_0000;
    m + I32_MIN
  }

  /** The `i64` a wrapping operation leaves: x reduced modulo 2^64 into the signed range. */
  function WrapI64(x: int): (r: I64)
    ensures (r - x) % 0x1_0000_0000_0000_0000 == 0
    ensures I64_MIN <= x <= I64_MAX ==> r == x
  {
    var m := (x - I64_MIN) % 0x1_0000_0000_0000_0000;
    m + I64_MIN
  }

  /** Rust's `a / b` for a positive divisor: the quotient rounded toward zero. */
  function TruncDiv(a: int, b: int): (q: int)
    requires b > 0
    ensures a >= 0 ==> q >= 0 && q * b <= a < q * b + b
    ensures a < 0 ==> q <= 0 && q * b - b < a <= q * b
  {
    if a >= 0 then a / b else -((-a) / b)
  }
}
