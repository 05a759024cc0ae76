/** The Mach error layout that the `err_get_system`, `err_get_sub` and `err_get_code`
    macros of DirectHW.c decode: system in bits 26-31, subsystem in bits 14-25 and
    code in bits 0-13 of a `kern_return_t`. */
module MachError {
  /** A `kern_return_t`, taken as its 32 bits. The macros mask after shifting, so an
      arithmetic shift of a negative value gives the same fields as this logical one. */
  type KernReturn = bv32

  const KERN_SUCCESS: KernReturn := 0

  /** IOKit codes that map_physical singles out (kIOReturnBadArgument, kIOReturnNotOpen). */
  const CODE_BAD_ARGUMENT: bv32 := 0x2c2
  const CODE_NOT_OPEN: bv32 := 0x2cd

  function System(err: KernReturn): (system: bv32)
    ensures system < 0x40
    ensures system << 26 == err & 0xFC00_0000
  {
    (err >> 26) & 0x3f
  }

  function Sub(err: KernReturn): (sub: bv32)
    ensures sub < 0x1000
    ensures sub << 14 == err & 0x03FF_C000
  {
    (err >> 14) & 0xfff
  }

  function Code(err: KernReturn): (code: bv32)
    ensures code < 0x4000
    ensures code == err & 0x0000_3FFF
  {
    err & 0x3fff
  }

  /** Packs the three fields back into an error value; each field is masked to its width. */
  function Compose(system: bv32, sub: bv32, code: bv32): (err: KernReturn)
    ensures System(err) == system & 0x3f
    ensures Sub(err) == sub & 0xfff
    ensures Code(err) == code & 0x3fff
  {
    ((system & 0x3f) << 26) | ((sub & 0xfff) << 14) | (code & 0x3fff)
  }

  /** Decoding loses nothing: the three fields reassemble the original 32-bit error. */
  lemma Reassemble(err: KernReturn)
    ensures (System(err) << 26) | (Sub(err) << 14) | Code(err) == err
    ensures Compose(System(err), Sub(err), Code(err)) == err
  {
  }

  /** Two errors with the same three fields are the same error. */
  lemma FieldsDetermineError(e1: KernReturn, e2: KernReturn)
    requires System(e1) == System(e2) && Sub(e1) == Sub(e2) && Code(e1) == Code(e2)
    ensures e1 == e2
  {
    Reassemble(e1);
    Reassemble(e2);
  }
}
