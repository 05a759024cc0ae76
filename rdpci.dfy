/** rdpci: maps the page of PCI Express configuration space that belongs to one
    bus/device/function and prints its first 256 bytes as 64 address=value dwords. */
module RdPci {
  import opened CTypes
  import opened ByteOrder
  import Ecam
  import opened IOKit
  import opened DirectHW
  import opened Posix

  /** The register offset: fixed at 0, its command-line argument is disabled. */
  const REG: bv32 := 0
  /** Bytes of configuration space dumped. */
  const DUMP_SIZE: nat := 256

  /** One printed line: a configuration-space address and the dword read there. */
  datatype Line = Line(addr: bv32, value: bv32)

  /** `page_mask`: the page split here is computed on `uintptr_t`, 64 bits wide, into
      which the 32-bit configuration address is zero-extended. */
  const PAGE_MASK: bv64 := 0xFFF
  const PAGE_BYTES: bv64 := 0x1000

  /** `addr & page_mask`: the offset of `addr` inside its page. */
  function PageOffset(addr: bv64): (offset: bv64)
    ensures offset < PAGE_BYTES
  {
    addr & PAGE_MASK
  }

  /** `addr & ~page_mask`: the page holding `addr`; base and offset add up to `addr`. */
  function PageBase(addr: bv64): (base: bv64)
    ensures base & PAGE_MASK == 0
    ensures base + PageOffset(addr) == addr
  {
    addr & !PAGE_MASK
  }

  /** `(page_offset + 256 + page_mask) & ~page_mask`: whole pages that cover the 256
      dumped bytes from the in-page offset, with less than a page to spare. */
  function MapLen(pageOffset: bv64): (mapLen: bv64)
    ensures mapLen & PAGE_MASK == 0
    ensures pageOffset < PAGE_BYTES ==> pageOffset + 256 <= mapLen < pageOffset + 256 + PAGE_BYTES
  {
    (pageOffset + 256 + PAGE_MASK) & !PAGE_MASK
  }

  /** The split of an address into an aligned base and an offset below a page is unique,
      so PageBase and PageOffset are the only such pair. */
  lemma PageSplitUnique(addr: bv64, base: bv64, offset: bv64)
    requires base & PAGE_MASK == 0 && offset < PAGE_BYTES && base + offset == addr
    ensures base == PageBase(addr) && offset == PageOffset(addr)
  {
    assert offset == addr & PAGE_MASK;
  }

  /** An address on a page boundary is its own base, at offset 0, and the dump then needs
      exactly one page. */
  lemma AlignedAddress(addr: bv64)
    requires addr & PAGE_MASK == 0
    ensures PageBase(addr) == addr && PageOffset(addr) == 0 && MapLen(PageOffset(addr)) == PAGE_BYTES
  {
  }

  /** Zero-extending a 32-bit address keeps its low 12 bits. */
  lemma ZeroExtendAligned(addr: bv32)
    requires addr & 0xFFF == 0
    ensures (addr as bv64) & PAGE_MASK == 0
  {
  }

  /** The page base, in-page offset and mapping length of rdpci.c:44-46, read as the byte
      counts handed to map_physical and the dump loop. */
  datatype Window = Window(mapAddr: Word64, pageOffset: nat, mapLen: Word64)

  /** The window of a 32-bit address zero-extended to `uintptr_t`: the dump always fits
      inside the mapping. */
  function DumpWindow(addr: bv32): (w: Window)
    ensures w.pageOffset + DUMP_SIZE <= w.mapLen
  {
    var a := addr as bv64;
    MapLenCoversDump(PageOffset(a));
    Window(Bytes(PageBase(a)), Bytes(PageOffset(a)), Bytes(MapLen(PageOffset(a))))
  }

  /** A `uintptr_t` read as a byte count. */
  function Bytes(x: bv64): Word64
  {
    x as int
  }

  /** The mapping length, read as a byte count, covers the dump. */
  lemma MapLenCoversDump(pageOffset: bv64)
    requires pageOffset < PAGE_BYTES
    ensures Bytes(pageOffset) + DUMP_SIZE <= Bytes(MapLen(pageOffset))
  {
  }

  /** A 32-bit address on a page boundary is its own page base at offset 0, and the dump
      then maps exactly one page. The ECAM address of register 0 is such an address
      (Ecam.ConfigAddress: its low 12 bits are the register). */
  lemma WindowOfAlignedAddress(addr: bv32)
    ensures addr & 0xFFF == 0 ==>
      DumpWindow(addr) == Window((addr as bv64) as int, 0, PAGE_BYTES as int)
  {
    if addr & 0xFFF == 0 {
      var a := addr as bv64;
      ZeroExtendAligned(addr);
      AlignedAddress(a);
      assert PageBase(a) as int == a as int;
      assert MapLen(PageOffset(a)) as int == PAGE_BYTES as int;
    }
  }

  /** `addr + i` as the `uint32_t` sum printed for offset `i`. */
  function Label(addr: bv32, i: nat): bv32
    requires i < DUMP_SIZE
  {
    addr + i as bv32
  }

  /** The dump loop: for i = 0, 4, ..., 252 the dword at `page_offset + i`, read in the
      machine's little-endian order, labelled with the 32-bit address `addr + i`. */
  method Dump(pcibuf: array<bv8>, addr: bv32, pageOffset: nat) returns (lines: seq<Line>)
    requires pageOffset + DUMP_SIZE <= pcibuf.Length
    ensures |lines| == DUMP_SIZE / 4
    ensures forall k :: 0 <= k < |lines| ==>
      lines[k] == Line(Label(addr, 4 * k), Word32(pcibuf[pageOffset + 4 * k..pageOffset + 4 * k + 4]))
  {
    lines := [];
    var i: nat := 0;
    while i < DUMP_SIZE
      invariant i % 4 == 0 && i <= DUMP_SIZE
      invariant |lines| == i / 4
      invariant forall k :: 0 <= k < |lines| ==>
        lines[k] == Line(Label(addr, 4 * k), Word32(pcibuf[pageOffset + 4 * k..pageOffset + 4 * k + 4]))
    {
      lines := lines + [Line(Label(addr, i), Word32(pcibuf[pageOffset + i..pageOffset + i + 4]))];
      assert lines[i / 4] == Line(Label(addr, 4 * (i / 4)), Word32(pcibuf[pageOffset + i..pageOffset + i + 4]));
      i := i + 4;
    }
  }

  /** The whole tool, for `argc` arguments whose numeric values are `bus`, `slot` and
      `func`, run by user `uid` in a process that has made no DirectHW call yet. The
      mapping is tested against NULL only, so after a failed map the dump loop reads
      through MAP_FAILED (`Fault`). */
  method Run(argc: int, bus: bv32, slot: bv32, func: bv32, uid: int, hw: Library)
    returns (status: Exit, lines: seq<Line>)
    requires hw.kernel.log == []
    modifies hw, hw.kernel
    ensures argc != 4 ==> status == Failure(Usage) && unchanged(hw) && hw.kernel.log == []
    ensures argc == 4 && uid != 0 ==> status == Failure(IoplError) && hw.kernel.log == []
    ensures status != Success ==> lines == []
    ensures status == Success ==>
      var addr := Ecam.ConfigAddress(bus, slot, func, REG);
      && argc == 4 && MapGranted(hw.kernel)
      && GrantedRange(hw.kernel) == MapRange((addr as bv64) as int, PAGE_BYTES as int)
      && |hw.kernel.Last().contents| == PAGE_BYTES as int
      && |lines| == DUMP_SIZE / 4
      && forall k :: 0 <= k < |lines| ==>
        lines[k] == Line(Label(addr, 4 * k), Word32(hw.kernel.Last().contents[4 * k..4 * k + 4]))
    ensures status == Fault <==> argc == 4 && MapRefused(hw.kernel)
    ensures status == Failure(MapError) ==> MapGranted(hw.kernel) && hw.kernel.Last().addr == NULL
  {
    lines := [];
    if argc != 4 {
      return Failure(Usage), [];
    }
    var addr := Ecam.ConfigAddress(bus, slot, func, REG);
    var rc := hw.Iopl(uid);
    if rc < 0 {
      return Failure(IoplError), [];
    }
    var w := DumpWindow(addr);
    WindowOfAlignedAddress(addr);
    var pcibuf, window := hw.MapPhysical(w.mapAddr, w.mapLen);
    if pcibuf == NULL {
      return Failure(MapError), [];
    }
    if window == null {
      // the first read goes through MAP_FAILED
      return Fault, [];
    }
    lines := Dump(window, addr, w.pageOffset);
    return Success, lines;
  }

  /** Run with the mapping tested against MAP_FAILED, the value map_physical returns on
      failure: a refused map then ends the tool reporting the map error, and the dump never
      reads outside the mapping. */
  method RunChecked(argc: int, bus: bv32, slot: bv32, func: bv32, uid: int, hw: Library)
    returns (status: Exit, lines: seq<Line>)
    requires hw.kernel.log == []
    modifies hw, hw.kernel
    ensures argc != 4 ==> status == Failure(Usage) && unchanged(hw) && hw.kernel.log == []
    ensures argc == 4 && uid != 0 ==> status == Failure(IoplError) && hw.kernel.log == []
    ensures status != Success ==> lines == []
    ensures status == Success ==>
      var addr := Ecam.ConfigAddress(bus, slot, func, REG);
      && argc == 4 && MapGranted(hw.kernel)
      && GrantedRange(hw.kernel) == MapRange((addr as bv64) as int, PAGE_BYTES as int)
      && |hw.kernel.Last().contents| == PAGE_BYTES as int
      && |lines| == DUMP_SIZE / 4
      && forall k :: 0 <= k < |lines| ==>
        lines[k] == Line(Label(addr, 4 * k), Word32(hw.kernel.Last().contents[4 * k..4 * k + 4]))
    ensures argc == 4 && MapRefused(hw.kernel) ==> status == Failure(MapError)
    ensures status != Fault
  {
    lines := [];
    if argc != 4 {
      return Failure(Usage), [];
    }
    var addr := Ecam.ConfigAddress(bus, slot, func, REG);
    var rc := hw.Iopl(uid);
    if rc < 0 {
      return Failure(IoplError), [];
    }
    var w := DumpWindow(addr);
    WindowOfAlignedAddress(addr);
    var pcibuf, window := hw.MapPhysical(w.mapAddr, w.mapLen);
    if pcibuf == MAP_FAILED {
      return Failure(MapError), [];
    }
    lines := Dump(window, addr, w.pageOffset);
    return Success, lines;
  }
}
