/** Kotlin's 32-bit `Int`: arithmetic wraps around modulo 2^32 (two's complement). */
module KotlinInt {

  const MinValue: int := -0x8000_0000
  const MaxValue: int := 0x7fff_ffff

  type Int32 = x: int | MinValue <= x <= MaxValue

  /** The two's-complement value of the low 32 bits of `x`. */
  function Wrap(x: int): (r: Int32)
    ensures (r - x) % 0x1_0000_0000 == 0
    ensures MinValue <= x <= MaxValue ==> r == x
  {
    (x - MinValue) % 0x1_0000_0000 + MinValue
  }

  function Add(a: Int32, b: Int32): Int32 { Wrap(a + b) }

  function Sub(a: Int32, b: Int32): Int32 { Wrap(a - b) }

  function Mul(a: Int32, b: Int32): Int32 { Wrap(a * b) }
}
