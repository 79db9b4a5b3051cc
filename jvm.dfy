/** The JVM value types the core computes with: Kotlin `Int` and `Long` are
    fixed-width two's-complement integers, `/` on them truncates toward zero,
    and `Long.toInt()` keeps the low 32 bits. `LocalDateTime` values are
    opaque timestamps read from a clock the model does not have. */
module Jvm {

  const IntMin: int := -0x8000_0000
  const IntMax: int := 0x7fff_ffff
  const LongMin: int := -0x8000_0000_0000_0000
  const LongMax: int := 0x7fff_ffff_ffff_ffff

  /** Kotlin `Int`. */
  type Int32 = x: int | IntMin <= x <= IntMax

  /** Kotlin `Long`. */
  type Long = x: int | LongMin <= x <= LongMax

  /** The 32-bit two's-complement value with the same low 32 bits as `x`:
      the result of an `Int` operation that overflows, and of `Long.toInt()`. */
  function WrapInt32(x: int): (r: Int32)
    ensures (r - x) % 0x1_0000_0000 == 0
    ensures IntMin <= x <= IntMax ==> r == x
  {
    var m := x % 0x1_0000_0000;
    if m <= IntMax then m else m - 0x1_0000_0000
  }

  /** The 64-bit two's-complement value with the same low 64 bits as `x`:
      the result of a `Long` operation that overflows. */
  function WrapLong(x: int): (r: Long)
    ensures (r - x) % 0x1_0000_0000_0000_0000 == 0
    ensures LongMin <= x <= LongMax ==> r == x
  {
    var m := x % 0x1_0000_0000_0000_0000;
    if m <= LongMax then m else m - 0x1_0000_0000_0000_0000
  }

  /** JVM integer division of `a` by a positive `b`: the quotient rounded toward zero
      (Dafny's own `/` rounds toward negative infinity for negative `a`). */
  function TruncDiv(a: int, b: int): (q: int)
    requires b > 0
    ensures a >= 0 ==> q == a / b
    ensures a < 0 ==> q <= 0 && -q == (-a) / b
  {
    if a >= 0 then a / b else -((-a) / b)
  }

  /** `LocalDateTime.now()` results, compared only for equality. */
  datatype Timestamp = Timestamp(ticks: int)
}
