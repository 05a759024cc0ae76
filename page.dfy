/** Page alignment of a physical range, as rdmem.c and wrmem.c compute it before mapping:
    the address is split into a page base and an in-page offset, and the length is
    rounded up to whole 4 KiB pages. The operands are `uintptr_t`/`size_t` values; masking
    with `page_mask` (0xFFF) keeps an unsigned value's remainder modulo 4096, and masking
    with `~page_mask` subtracts that remainder. */
module Page {
  import opened CTypes

  const PAGE_SIZE: int := 4096
  const PAGE_MASK: int := 0xFFF

  /** `addr & page_mask`: the offset of `addr` inside its page. */
  function Offset(addr: Word64): (offset: Word64)
    ensures offset < PAGE_SIZE
    ensures (addr - offset) % PAGE_SIZE == 0
  {
    addr % PAGE_SIZE
  }

  /** `addr & ~page_mask`: the start of the page holding `addr`. */
  function Base(addr: Word64): (base: Word64)
    ensures base % PAGE_SIZE == 0
    ensures base <= addr < base + PAGE_SIZE
    ensures base + Offset(addr) == addr
  {
    addr - addr % PAGE_SIZE
  }

  /** The `size_t` sum `len + page_offset + page_mask` does not wrap around. */
  predicate Fits(len: Word64, pageOffset: Word64)
  {
    len + pageOffset + PAGE_MASK < WORD64_MODULUS
  }

  /** `(len + page_offset + page_mask) & ~page_mask` in `size_t` arithmetic: the length
      of the mapping, whole pages that cover `page_offset + len` bytes unless the sum wraps. */
  function MapLen(len: Word64, pageOffset: Word64): (mapLen: Word64)
    ensures mapLen % PAGE_SIZE == 0
    ensures Fits(len, pageOffset) ==> len + pageOffset <= mapLen < len + pageOffset + PAGE_SIZE
    ensures !Fits(len, pageOffset) ==> mapLen < len + pageOffset
  {
    Base(Add64(Add64(len, pageOffset), PAGE_MASK))
  }

  /** The rounded length is the least page multiple that covers the range. */
  lemma MapLenMinimal(len: Word64, pageOffset: Word64, m: int)
    requires Fits(len, pageOffset)
    requires m % PAGE_SIZE == 0 && len + pageOffset <= m
    ensures MapLen(len, pageOffset) <= m
  {
  }

  /** A range that starts on a page and has a whole number of pages maps exactly. */
  lemma MapLenOfAligned(len: Word64)
    requires len % PAGE_SIZE == 0 && Fits(len, 0)
    ensures MapLen(len, 0) == len
  {
    MapLenMinimal(len, 0, len);
  }

  /** When the sum wraps, the mapping is shorter than the range: with a length of
      2^64 - 4095 at offset 0 the rounded length is 0. */
  lemma MapLenWrapsAround()
    ensures !Fits(WORD64_MODULUS - PAGE_MASK, 0)
    ensures MapLen(WORD64_MODULUS - PAGE_MASK, 0) == 0
  {
  }
}
