// Fixed-width C++ integers as used by the particle engine header: `int` is a
// 32-bit two's-complement integer, `unsigned int` a 32-bit unsigned one, and
// `/` on `int` truncates toward zero (Dafny's `/` is Euclidean).
module CppInt {

  const Int32Min: int := -0x8000_0000
  const Int32Max: int := 0x7FFF_FFFF
  const UInt32Max: int := 0xFFFF_FFFF
  const TwoTo32: int := 0x1_0000_0000

  /** A C++ `int`. */
  type Int32 = x: int | -0x8000_0000 <= x <= 0x7FFF_FFFF

  /** A C++ `unsigned int` (also `GLuint`). */
  type UInt32 = x: int | 0 <= x <= 0xFFFF_FFFF

  /** True when `x` is representable as an `int`, i.e. a signed computation
      producing `x` does not overflow. */
  predicate InInt32(x: int)
  {
    Int32Min <= x <= Int32Max
  }

  /** `static_cast<int>(n)` of a container size `n` (a `size_t`): the low 32 bits
      read as two's complement. */
  function SizeToInt(n: nat): (r: Int32)
    ensures (r - n) % TwoTo32 == 0
    ensures n <= Int32Max ==> r == n
    ensures Int32Max < n < TwoTo32 ==> r < 0
  {
    var low := n % TwoTo32;
    if low <= Int32Max then low else low - TwoTo32
  }

  /** C++ integer division `a / b` for a positive divisor: the quotient is
      rounded toward zero, so the remainder takes the sign of `a`. */
  function DivTrunc(a: int, b: int): (q: int)
    requires b > 0
    ensures a >= 0 ==> 0 <= a - q * b < b
    ensures a < 0 ==> -b < a - q * b <= 0
    ensures a >= 0 ==> q >= 0
    ensures a <= 0 ==> q <= 0
  {
    if a >= 0 then a / b else -((-a) / b)
  }
}
