/** Byte-level helpers shared by the four drivers: the C++ `u8` and the `BIT(x, n)` macro. */
module Bits {

  /** An unsigned 8-bit value (`u8`). */
  type byte = bv8

  /** `BIT(x, n)`: bit `n` of `x`, as a boolean. */
  function Bit(x: byte, n: nat): bool
    requires n < 8
  {
    (x >> n) & 1 == 1
  }

  /** A boolean promoted to an integer (`false` is 0, `true` is 1), as C++ does in `b << k`. */
  function BitValue(b: bool): byte
  {
    if b then 1 else 0
  }
}
