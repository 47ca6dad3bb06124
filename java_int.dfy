/** Java's 32-bit `int` arithmetic: `+` on two `int`s wraps around modulo 2^32. */
module JavaInt {

  const INT_MIN: int := -0x8000_0000
  const INT_MAX: int := 0x7FFF_FFFF

  /** The values a Java `int` (or a non-null `Integer`) can hold. */
  predicate IsInt(x: int) {
    INT_MIN <= x <= INT_MAX
  }

  /** The `int` that Java stores for the mathematical value `x`. */
  function Wrap(x: int): (r: int)
    ensures IsInt(r)
    ensures (r - x) % 0x1_0000_0000 == 0
    ensures IsInt(x) ==> r == x
  {
    (x - INT_MIN) % 0x1_0000_0000 + INT_MIN
  }
}
