/** The C scalar types the shim and the tools use, with their widths made explicit. */
module CTypes {
  /** A C `int` (32-bit, two's complement). */
  newtype Int32 = x: int | -0x8000_0000 <= x < 0x8000_0000

  /** A `size_t`, `uintptr_t` or `uint64_t` on a 64-bit (LP64) build. */
  type Word64 = x: int | 0 <= x < 0x1_0000_0000_0000_0000

  const WORD64_MODULUS: int := 0x1_0000_0000_0000_0000

  /** The largest `ssize_t`, the most bytes one `write` or `read` may be asked to move. */
  const SSIZE_MAX: int := 0x7FFF_FFFF_FFFF_FFFF

  /** The bits of an `int` converted to `UInt32`: negative values wrap around. */
  function U32(x: Int32): bv32
  {
    (if x < 0 then x as int + 0x1_0000_0000 else x as int) as bv32
  }

  /** Unsigned 64-bit addition, which wraps around modulo 2^64. */
  function Add64(x: Word64, y: Word64): (r: Word64)
    ensures x + y < WORD64_MODULUS ==> r == x + y
    ensures x + y >= WORD64_MODULUS ==> r == x + y - WORD64_MODULUS
  {
    (x + y) % WORD64_MODULUS
  }
}
