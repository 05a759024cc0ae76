/** The memory-mapped PCI Express configuration address that rdpci.c builds: the
    Enhanced Configuration Access Mechanism of section 7.2.2 of the PCI Express Base
    Specification, with the configuration window based at 0xE0000000. Bus number in
    bits 20-27, device (slot) in bits 15-19, function in bits 12-14 and the dword-aligned
    register offset in bits 2-11. */
module Ecam {
  const BASE: bv32 := 0xE000_0000

  const BUS_FIELD: bv32 := 0x0FF0_0000
  const SLOT_FIELD: bv32 := 0x000F_8000
  const FUNCTION_FIELD: bv32 := 0x0000_7000
  const REGISTER_FIELD: bv32 := 0x0000_0FFC

  function Bus(addr: bv32): bv32 { (addr >> 20) & 0xFF }
  function Slot(addr: bv32): bv32 { (addr >> 15) & 0x1F }
  function Function(addr: bv32): bv32 { (addr >> 12) & 0x07 }
  function Register(addr: bv32): bv32 { addr & 0xFFC }

  /** An address of the shape rdpci.c builds: base bits set, bit 28 and bits 0-1 clear. */
  predicate WellFormed(addr: bv32)
  {
    addr & 0xF000_0003 == BASE
  }

  /** `0xe0000000 | (bus & 0xFF) << 20 | (slot & 0x1F) << 15 | (func & 0x07) << 12 | reg & 0xFFC`.
      Each field decodes back to its masked input, and the address is dword aligned. */
  function ConfigAddress(bus: bv32, slot: bv32, func: bv32, reg: bv32): (addr: bv32)
    ensures Bus(addr) == bus & 0xFF
    ensures Slot(addr) == slot & 0x1F
    ensures Function(addr) == func & 0x07
    ensures Register(addr) == reg & 0xFFC
    ensures WellFormed(addr)
    ensures addr & 0x3 == 0
    ensures addr & 0xFFF == reg & 0xFFC
  {
    BASE
      | ((bus & 0xFF) << 20)
      | ((slot & 0x1F) << 15)
      | ((func & 0x07) << 12)
      | ((reg & 0xFFC) << 0)
  }

  /** The fields and the base occupy disjoint bits, so or-ing them is adding them. */
  lemma FieldsDisjoint(bus: bv32, slot: bv32, func: bv32, reg: bv32)
    ensures BASE & BUS_FIELD == 0 && BASE & SLOT_FIELD == 0 && BASE & FUNCTION_FIELD == 0 && BASE & REGISTER_FIELD == 0
    ensures BUS_FIELD & SLOT_FIELD == 0 && BUS_FIELD & FUNCTION_FIELD == 0 && BUS_FIELD & REGISTER_FIELD == 0
    ensures SLOT_FIELD & FUNCTION_FIELD == 0 && SLOT_FIELD & REGISTER_FIELD == 0
    ensures FUNCTION_FIELD & REGISTER_FIELD == 0
    ensures ((bus & 0xFF) << 20) & !BUS_FIELD == 0
    ensures ((slot & 0x1F) << 15) & !SLOT_FIELD == 0
    ensures ((func & 0x07) << 12) & !FUNCTION_FIELD == 0
    ensures (reg & 0xFFC) & !REGISTER_FIELD == 0
    ensures ConfigAddress(bus, slot, func, reg)
      == BASE + ((bus & 0xFF) << 20) + ((slot & 0x1F) << 15) + ((func & 0x07) << 12) + (reg & 0xFFC)
  {
  }

  /** Every well-formed address is the encoding of its own decoded fields. */
  lemma ConfigAddressOfFields(addr: bv32)
    requires WellFormed(addr)
    ensures ConfigAddress(Bus(addr), Slot(addr), Function(addr), Register(addr)) == addr
  {
  }

  /** Two encodings are equal exactly when their masked fields are equal. */
  lemma ConfigAddressInjective(b1: bv32, s1: bv32, f1: bv32, r1: bv32, b2: bv32, s2: bv32, f2: bv32, r2: bv32)
    ensures ConfigAddress(b1, s1, f1, r1) == ConfigAddress(b2, s2, f2, r2)
        <==> (b1 & 0xFF == b2 & 0xFF && s1 & 0x1F == s2 & 0x1F && f1 & 0x07 == f2 & 0x07 && r1 & 0xFFC == r2 & 0xFFC)
  {
    var a1 := ConfigAddress(b1, s1, f1, r1);
    var a2 := ConfigAddress(b2, s2, f2, r2);
    if a1 == a2 {
      assert Bus(a1) == Bus(a2) && Slot(a1) == Slot(a2) && Function(a1) == Function(a2) && Register(a1) == Register(a2);
    }
  }
}
