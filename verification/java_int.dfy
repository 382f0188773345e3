/**
 * Java's 32-bit `int`: the receiver's counter and repeat budget are static `int` fields,
 * so `++`, `- 1` and `*` wrap around modulo 2^32 instead of growing.
 */
module JavaInt {

  const MIN: int := -0x8000_0000
  const MAX: int := 0x7fff_ffff
  const MODULUS: int := 0x1_0000_0000

  newtype int32 = x: int | -0x8000_0000 <= x < 0x8000_0000

  /** The two's-complement truncation of a mathematical integer to 32 bits. */
  function Wrap(x: int): (r: int32)
    ensures MIN <= x <= MAX ==> r as int == x
    ensures (r as int - x) % MODULUS == 0
  {
    var m := x % MODULUS;
    if m > MAX then (m - MODULUS) as int32 else m as int32
  }

  /** Java's `a + 1` (and `a++`) on an `int`. */
  function Inc(a: int32): (r: int32)
    ensures a as int < MAX ==> r as int == a as int + 1
    ensures a as int == MAX ==> r as int == MIN
  {
    Wrap(a as int + 1)
  }

  /** Java's `a - 1` on an `int`. */
  function Dec(a: int32): (r: int32)
    ensures a as int > MIN ==> r as int == a as int - 1
    ensures a as int == MIN ==> r as int == MAX
  {
    Wrap(a as int - 1)
  }

  /** Java's `a * b` on two `int`s. */
  function Mul(a: int32, b: int32): (r: int32)
    ensures MIN <= a as int * b as int <= MAX ==> r as int == a as int * b as int
    ensures (r as int - a as int * b as int) % MODULUS == 0
  {
    Wrap(a as int * b as int)
  }

}
