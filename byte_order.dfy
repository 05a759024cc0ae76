/** The little-endian byte layout of the 16- and 32-bit values that `memcpy` and
    pointer casts move between words and byte buffers (the shim runs on x86). */
module ByteOrder {
  /** The four bytes of `x` in memory, lowest address first. */
  function Le32(x: bv32): (b: seq<bv8>)
    ensures |b| == 4
    ensures b[0] as bv32 == x & 0xFF
    ensures b[1] as bv32 == (x >> 8) & 0xFF
    ensures b[2] as bv32 == (x >> 16) & 0xFF
    ensures b[3] as bv32 == x >> 24
  {
    [(x & 0xFF) as bv8, ((x >> 8) & 0xFF) as bv8, ((x >> 16) & 0xFF) as bv8, (x >> 24) as bv8]
  }

  /** The two bytes of `x` in memory, lowest address first. */
  function Le16(x: bv16): (b: seq<bv8>)
    ensures |b| == 2
    ensures b[0] as bv16 == x & 0xFF
    ensures b[1] as bv16 == x >> 8
  {
    [(x & 0xFF) as bv8, (x >> 8) as bv8]
  }

  /** The 32-bit value stored in four bytes, lowest address first. */
  function Word32(b: seq<bv8>): bv32
    requires |b| == 4
  {
    (b[0] as bv32) | ((b[1] as bv32) << 8) | ((b[2] as bv32) << 16) | ((b[3] as bv32) << 24)
  }

  /** The 16-bit value stored in two bytes, lowest address first. */
  function Word16(b: seq<bv8>): bv16
    requires |b| == 2
  {
    (b[0] as bv16) | ((b[1] as bv16) << 8)
  }

  lemma Word32OfLe32(x: bv32)
    ensures Word32(Le32(x)) == x
  {
  }

  lemma Le32OfWord32(b: seq<bv8>)
    requires |b| == 4
    ensures Le32(Word32(b)) == b
  {
    var w := Word32(b);
    assert Le32(w)[0] == b[0];
    assert Le32(w)[1] == b[1];
    assert Le32(w)[2] == b[2];
    assert Le32(w)[3] == b[3];
  }

  lemma Word16OfLe16(x: bv16)
    ensures Word16(Le16(x)) == x
  {
  }

  /** The first two bytes of a 32-bit value hold its low 16 bits. */
  lemma Word16OfLe32Prefix(x: bv32)
    ensures Word16(Le32(x)[..2]) as bv32 == x & 0xFFFF
  {
  }

  /** A word whose low bytes were overwritten with `Le16(v)` holds `v` in its low 16 bits. */
  lemma Word32OfLe16Prefix(v: bv16, rest: seq<bv8>)
    requires |rest| == 2
    ensures Word32(Le16(v) + rest) & 0xFFFF == v as bv32
  {
  }
}
