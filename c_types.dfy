/** Fixed-width C integer types and the two C operations whose meaning differs
    from Dafny's unbounded integers: signed division and narrowing casts. */
module CTypes {

  type byte = x: int | 0 <= x < 0x100
  type int16 = x: int | -0x8000 <= x < 0x8000
  type uint32 = x: int | 0 <= x < 0x1_0000_0000

  const INT32_MAX: int := 0x7FFF_FFFF
  const UINT32_MODULUS: int := 0x1_0000_0000

  function Min(a: int, b: int): int { if a <= b then a else b }
  function Max(a: int, b: int): int { if a <= b then b else a }
  function MinReal(a: real, b: real): real { if a <= b then a else b }
  function Abs(x: int): nat { if x < 0 then -x else x }

  /** C's `a / 2` on a signed operand: the quotient is truncated toward zero
      (Dafny's `/` rounds toward negative infinity for negative operands). */
  function CHalf(a: int): (q: int)
    ensures a >= 0 ==> 0 <= q && 2 * q <= a <= 2 * q + 1
    ensures a < 0 ==> q <= 0 && 2 * q - 1 <= a <= 2 * q
  {
    if a >= 0 then a / 2 else -((-a) / 2)
  }

  /** Conversion of an integer to `int16_t`, which keeps the value modulo 2^16
      (the behaviour of the ESP32 compilers for out-of-range values). */
  function ToInt16(x: int): (r: int16)
    ensures (x - r) % 0x1_0000 == 0
    ensures -0x8000 <= x < 0x8000 ==> r == x
  {
    var m := x % 0x1_0000;
    if m < 0x8000 then m else m - 0x1_0000
  }

  /** Unsigned 32-bit arithmetic: the result is reduced modulo 2^32. */
  function Wrap32(x: int): (r: uint32)
    ensures (x - r) % UINT32_MODULUS == 0
    ensures 0 <= x < UINT32_MODULUS ==> r == x
  {
    x % UINT32_MODULUS
  }
}
