/** rdmem: maps the pages that hold a physical range and copies the range to standard
    output, looping over short writes. */
module RdMem {
  import opened CTypes
  import Page
  import opened IOKit
  import opened DirectHW
  import opened Posix

  /** The write loop: emits `window[pageOffset..pageOffset + len]`, continuing after short
      writes. On success all of it has been emitted; on a failed write, a proper prefix. */
  method EmitRange(out: Stdout, window: array<bv8>, pageOffset: nat, len: nat) returns (ok: bool)
    requires pageOffset + len <= window.Length
    modifies out
    ensures old(out.emitted) <= out.emitted
    ensures ok ==> out.emitted[|old(out.emitted)|..] == window[pageOffset..pageOffset + len]
    ensures !ok ==> out.emitted[|old(out.emitted)|..] < window[pageOffset..pageOffset + len]
  {
    var offset: nat := 0;
    while offset < len
      invariant offset <= len
      invariant out.emitted == old(out.emitted) + window[pageOffset..pageOffset + offset]
    {
      var rc := out.Write(window, pageOffset + offset, len - offset);
      if rc <= 0 {
        return false;
      }
      offset := offset + rc;
    }
    return true;
  }

  /** The buffer rdmem hands `write` after a refused map, `MAP_FAILED + page_offset` in
      `uintptr_t` arithmetic, is `page_offset - 1` modulo 2^64: the last byte of the address
      space when the offset is 0, an address in the unmapped zero page otherwise. */
  lemma RefusedMapBuffer(pageOffset: Word64)
    requires pageOffset < Page.PAGE_SIZE
    ensures pageOffset == 0 ==> Add64(MAP_FAILED, pageOffset) == WORD64_MODULUS - 1
    ensures pageOffset > 0 ==> Add64(MAP_FAILED, pageOffset) == pageOffset - 1 < Page.PAGE_SIZE
  {
  }

  /** When the rounded length wraps around, the count rdmem hands `write` is above
      SSIZE_MAX. */
  lemma WrappedLengthExceedsSsizeMax(len: Word64, pageOffset: Word64)
    requires pageOffset < Page.PAGE_SIZE && !Page.Fits(len, pageOffset)
    ensures len > SSIZE_MAX
  {
  }

  /** The whole tool, for `argc` arguments whose numeric values are `addrArg` and
      `lenArg`, run by user `uid` in a process that has made no DirectHW call yet.
      The mapping is tested against NULL only, so a failed map is not caught there: the
      loop hands `MAP_FAILED + page_offset` to `write`, which rejects the buffer with
      EFAULT, and the tool fails reporting a write error instead of the map error. When
      the rounded mapping length wraps around, the first write is asked for more than
      SSIZE_MAX bytes, which it refuses with EINVAL. rdmem itself never dereferences the
      mapping, so it never ends in `Fault`. */
  method Run(argc: int, addrArg: Word64, lenArg: Word64, uid: int, hw: Library, out: Stdout)
    returns (status: Exit)
    requires hw.kernel.log == []
    modifies hw, hw.kernel, out
    ensures old(out.emitted) <= out.emitted
    ensures argc != 3 ==>
      status == Failure(Usage) && unchanged(hw) && hw.kernel.log == [] && out.emitted == old(out.emitted)
    ensures argc == 3 && uid != 0 ==>
      status == Failure(IoplError) && hw.kernel.log == [] && out.emitted == old(out.emitted)
    ensures status == Success && lenArg == 0 ==> out.emitted == old(out.emitted)
    ensures status == Success && lenArg > 0 ==>
      && argc == 3 && MapGranted(hw.kernel)
      && GrantedRange(hw.kernel) == MapRange(Page.Base(addrArg), Page.MapLen(lenArg, Page.Offset(addrArg)))
      && Page.Offset(addrArg) + lenArg <= |hw.kernel.Last().contents|
      && out.emitted[|old(out.emitted)|..]
         == hw.kernel.Last().contents[Page.Offset(addrArg)..Page.Offset(addrArg) + lenArg]
    ensures status == Failure(MapError) ==> MapGranted(hw.kernel) && hw.kernel.Last().addr == NULL
    ensures argc == 3 && lenArg > 0 && MapRefused(hw.kernel) ==>
      status == Failure(WriteError) && out.emitted == old(out.emitted)
    ensures argc == 3 && MapGranted(hw.kernel) && hw.kernel.Last().addr != NULL
            && !Page.Fits(lenArg, Page.Offset(addrArg)) ==>
      status == Failure(WriteError) && out.emitted == old(out.emitted)
    ensures status != Fault
  {
    if argc != 3 {
      return Failure(Usage);
    }
    var addr := addrArg;
    var len := lenArg;
    var pageOffset := Page.Offset(addr);
    addr := Page.Base(addr);
    var mapLen := Page.MapLen(len, pageOffset);
    var rc := hw.Iopl(uid);
    if rc < 0 {
      return Failure(IoplError);
    }
    var buf, window := hw.MapPhysical(addr, mapLen);
    if buf == NULL {
      return Failure(MapError);
    }
    if window == null {
      // buf is MAP_FAILED: write(2) refuses the buffer with EFAULT
      if len > 0 {
        return Failure(WriteError);
      }
      return Success;
    }
    if pageOffset + len > window.Length {
      // the mapping length wrapped around: write(2) refuses a count above SSIZE_MAX
      WrappedLengthExceedsSsizeMax(len, pageOffset);
      return Failure(WriteError);
    }
    var ok := EmitRange(out, window, pageOffset, len);
    if !ok {
      return Failure(WriteError);
    }
    return Success;
  }

  /** Run with the mapping tested against MAP_FAILED, the value map_physical returns on
      failure: a refused map then ends the tool reporting the map error before anything is
      written. A length whose rounding wraps around still ends in the write error. */
  method RunChecked(argc: int, addrArg: Word64, lenArg: Word64, uid: int, hw: Library, out: Stdout)
    returns (status: Exit)
    requires hw.kernel.log == []
    modifies hw, hw.kernel, out
    ensures old(out.emitted) <= out.emitted
    ensures argc != 3 ==>
      status == Failure(Usage) && unchanged(hw) && hw.kernel.log == [] && out.emitted == old(out.emitted)
    ensures argc == 3 && uid != 0 ==>
      status == Failure(IoplError) && hw.kernel.log == [] && out.emitted == old(out.emitted)
    ensures status == Success && lenArg == 0 ==> out.emitted == old(out.emitted)
    ensures status == Success && lenArg > 0 ==>
      && argc == 3 && MapGranted(hw.kernel)
      && GrantedRange(hw.kernel) == MapRange(Page.Base(addrArg), Page.MapLen(lenArg, Page.Offset(addrArg)))
      && Page.Offset(addrArg) + lenArg <= |hw.kernel.Last().contents|
      && out.emitted[|old(out.emitted)|..]
         == hw.kernel.Last().contents[Page.Offset(addrArg)..Page.Offset(addrArg) + lenArg]
    ensures argc == 3 && MapRefused(hw.kernel) ==> status == Failure(MapError) && out.emitted == old(out.emitted)
    ensures argc == 3 && MapGranted(hw.kernel) && hw.kernel.Last().addr != MAP_FAILED
            && !Page.Fits(lenArg, Page.Offset(addrArg)) ==>
      status == Failure(WriteError) && out.emitted == old(out.emitted)
    ensures status != Fault
  {
    if argc != 3 {
      return Failure(Usage);
    }
    var addr := addrArg;
    var len := lenArg;
    var pageOffset := Page.Offset(addr);
    addr := Page.Base(addr);
    var mapLen := Page.MapLen(len, pageOffset);
    var rc := hw.Iopl(uid);
    if rc < 0 {
      return Failure(IoplError);
    }
    var buf, window := hw.MapPhysical(addr, mapLen);
    if buf == MAP_FAILED {
      return Failure(MapError);
    }
    if pageOffset + len > window.Length {
      // the mapping length wrapped around: write(2) refuses a count above SSIZE_MAX
      WrappedLengthExceedsSsizeMax(len, pageOffset);
      return Failure(WriteError);
    }
    var ok := EmitRange(out, window, pageOffset, len);
    if !ok {
      return Failure(WriteError);
    }
    return Success;
  }
}
