/** Java's 32-bit `int`: its range and the two's-complement wrap-around of its arithmetic. */
module JavaInt {

  const INT_MIN: int := -0x8000_0000
  const INT_MAX: int := 0x7FFF_FFFF
  /** The number of distinct `int` values, 2^32. */
  const MODULUS: int := 0x1_0000_0000

  type Int32 = x: int | INT_MIN <= x <= INT_MAX

  /** The `int` that Java arithmetic leaves when the exact result is `x`. */
  function Wrap32(x: int): (r: Int32)
    ensures (x - r) % MODULUS == 0
    ensures INT_MIN <= x <= INT_MAX ==> r == x
  {
    (x - INT_MIN) % MODULUS + INT_MIN
  }

  /** Two exact results that differ by a multiple of 2^32 wrap to the same `int`. */
  lemma Wrap32Congruent(x: int, y: int)
    requires (x - y) % MODULUS == 0
    ensures Wrap32(x) == Wrap32(y)
  {
  }

  /** Java's `v + 1` on an `int`, which is what `v++` stores. */
  function Increment(v: Int32): (r: Int32)
    ensures v < INT_MAX ==> r == v + 1
    ensures v == INT_MAX ==> r == INT_MIN
    ensures r == Wrap32(v + 1)
  {
    if v == INT_MAX then INT_MIN else v + 1
  }
}
