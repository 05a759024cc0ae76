/** wrmem: reads a range's worth of bytes from standard input into a zeroed buffer, then
    stores them byte by byte into the mapped pages that hold the physical range. */
module WrMem {
  import opened CTypes
  import Page
  import opened IOKit
  import opened DirectHW
  import opened Posix

  /** The read loop: fills `inbuf[..len]` from standard input, continuing after short
      reads. On success exactly the next `len` input bytes have been consumed and stored. */
  method FillFromInput(input: Stdin, inbuf: array<bv8>, len: nat) returns (ok: bool)
    requires input.Valid() && len <= inbuf.Length
    modifies input, inbuf
    ensures input.Valid() && old(input.pos) <= input.pos
    ensures ok ==> input.pos == old(input.pos) + len && inbuf[..len] == input.data[old(input.pos)..input.pos]
    ensures !ok ==> input.pos < old(input.pos) + len
  {
    var offset: nat := 0;
    while offset < len
      invariant input.Valid() && offset <= len
      invariant input.pos == old(input.pos) + offset
      invariant inbuf[..offset] == input.data[old(input.pos)..input.pos]
    {
      ghost var before := inbuf[..];
      var rc := input.Read(inbuf, offset, len - offset);
      if rc <= 0 {
        return false;
      }
      assert inbuf[..offset + rc] == before[..offset] + input.data[input.pos - rc..input.pos];
      offset := offset + rc;
    }
    return true;
  }

  /** The copy loop: `buf[i + page_offset] = inbuf[i]` for each `i < len`, in order. It
      completes exactly when the whole target lies inside the mapping; otherwise it stops
      at the first store that would fall outside it. */
  method StoreRange(window: array<bv8>, inbuf: array<bv8>, pageOffset: nat, len: nat) returns (ok: bool)
    requires len <= inbuf.Length && window != inbuf
    modifies window
    ensures ok <==> len == 0 || pageOffset + len <= window.Length
    ensures pageOffset + len <= window.Length ==>
      window[..] == old(window[..])[..pageOffset] + inbuf[..len] + old(window[..])[pageOffset + len..]
    ensures len == 0 ==> window[..] == old(window[..])
  {
    var i: nat := 0;
    while i < len
      invariant i <= len
      invariant pageOffset + i > window.Length ==> window[..] == old(window[..])
      invariant i > 0 ==> pageOffset + i <= window.Length
      invariant pageOffset + i <= window.Length ==>
        window[..] == old(window[..])[..pageOffset] + inbuf[..i] + old(window[..])[pageOffset + i..]
    {
      if pageOffset + i >= window.Length {
        return false;
      }
      window[pageOffset + i] := inbuf[i];
      i := i + 1;
    }
    return true;
  }

  /** The whole tool, for `argc` arguments whose numeric values are `addrArg` and
      `lenArg`, run by user `uid` in a process that has made no DirectHW call yet.
      Every failure before the copy loop leaves the mapped bytes untouched. The mapping is
      tested against NULL only, so after a failed map the copy loop stores through
      MAP_FAILED (`Fault`) once the input has been read. */
  method Run(argc: int, addrArg: Word64, lenArg: Word64, uid: int, hw: Library, input: Stdin)
    returns (status: Exit)
    requires hw.kernel.log == [] && input.Valid()
    modifies hw, hw.kernel, input
    ensures input.Valid() && old(input.pos) <= input.pos
    ensures argc != 3 ==>
      status == Failure(Usage) && unchanged(hw) && hw.kernel.log == [] && input.pos == old(input.pos)
    ensures argc == 3 && uid != 0 ==>
      status == Failure(IoplError) && hw.kernel.log == [] && input.pos == old(input.pos)
    ensures status == Success ==> argc == 3 && input.pos == old(input.pos) + lenArg
    ensures status == Success && lenArg > 0 ==>
      && MapGranted(hw.kernel)
      && GrantedRange(hw.kernel) == MapRange(Page.Base(addrArg), Page.MapLen(lenArg, Page.Offset(addrArg)))
      && Page.Offset(addrArg) + lenArg <= |hw.kernel.Last().contents|
      && hw.kernel.Last().window[..]
         == hw.kernel.Last().contents[..Page.Offset(addrArg)]
            + input.data[old(input.pos)..input.pos]
            + hw.kernel.Last().contents[Page.Offset(addrArg) + lenArg..]
    ensures status.Failure? && MapGranted(hw.kernel) ==> hw.kernel.Last().window[..] == hw.kernel.Last().contents
    ensures status == Fault ==>
      argc == 3 && lenArg > 0 && input.pos == old(input.pos) + lenArg
      && (MapRefused(hw.kernel) || !Page.Fits(lenArg, Page.Offset(addrArg)))
    ensures argc == 3 && lenArg > 0 && MapRefused(hw.kernel) && input.pos == old(input.pos) + lenArg ==>
      status == Fault
    ensures status == Failure(MapError) ==> MapGranted(hw.kernel) && hw.kernel.Last().addr == NULL
    ensures MapGranted(hw.kernel) && Page.Fits(lenArg, Page.Offset(addrArg)) ==> status != Fault
  {
    if argc != 3 {
      return Failure(Usage);
    }
    var addr := addrArg;
    var len := lenArg;
    var pageOffset := Page.Offset(addr);
    addr := Page.Base(addr);
    var mapLen := Page.MapLen(len, pageOffset);
    var rc := hw.Iopl(uid);
    if rc < 0 {
      return Failure(IoplError);
    }
    var buf, window := hw.MapPhysical(addr, mapLen);
    if buf == NULL {
      return Failure(MapError);
    }
    var inbuf := Calloc(len);
    if inbuf == null {
      return Failure(AllocError);
    }
    var ok := FillFromInput(input, inbuf, len);
    if !ok {
      return Failure(ReadError);
    }
    if window == null {
      // the first store goes through MAP_FAILED
      if len > 0 {
        return Fault;
      }
      return Success;
    }
    ok := StoreRange(window, inbuf, pageOffset, len);
    if !ok {
      return Fault;
    }
    return Success;
  }

  /** Run with the mapping tested against MAP_FAILED, the value map_physical returns on
      failure: a refused map then ends the tool reporting the map error before any
      input is read, and only a length whose rounding wraps around can still make it store
      outside the mapping. */
  method RunChecked(argc: int, addrArg: Word64, lenArg: Word64, uid: int, hw: Library, input: Stdin)
    returns (status: Exit)
    requires hw.kernel.log == [] && input.Valid()
    modifies hw, hw.kernel, input
    ensures input.Valid() && old(input.pos) <= input.pos
    ensures argc != 3 ==>
      status == Failure(Usage) && unchanged(hw) && hw.kernel.log == [] && input.pos == old(input.pos)
    ensures argc == 3 && uid != 0 ==>
      status == Failure(IoplError) && hw.kernel.log == [] && input.pos == old(input.pos)
    ensures status == Success ==> argc == 3 && input.pos == old(input.pos) + lenArg
    ensures status == Success && lenArg > 0 ==>
      && MapGranted(hw.kernel)
      && GrantedRange(hw.kernel) == MapRange(Page.Base(addrArg), Page.MapLen(lenArg, Page.Offset(addrArg)))
      && Page.Offset(addrArg) + lenArg <= |hw.kernel.Last().contents|
      && hw.kernel.Last().window[..]
         == hw.kernel.Last().contents[..Page.Offset(addrArg)]
            + input.data[old(input.pos)..input.pos]
            + hw.kernel.Last().contents[Page.Offset(addrArg) + lenArg..]
    ensures status.Failure? && MapGranted(hw.kernel) ==> hw.kernel.Last().window[..] == hw.kernel.Last().contents
    ensures argc == 3 && MapRefused(hw.kernel) ==> status == Failure(MapError) && input.pos == old(input.pos)
    ensures status == Fault ==>
      argc == 3 && lenArg > 0 && input.pos == old(input.pos) + lenArg && !Page.Fits(lenArg, Page.Offset(addrArg))
  {
    if argc != 3 {
      return Failure(Usage);
    }
    var addr := addrArg;
    var len := lenArg;
    var pageOffset := Page.Offset(addr);
    addr := Page.Base(addr);
    var mapLen := Page.MapLen(len, pageOffset);
    var rc := hw.Iopl(uid);
    if rc < 0 {
      return Failure(IoplError);
    }
    var buf, window := hw.MapPhysical(addr, mapLen);
    if buf == MAP_FAILED {
      return Failure(MapError);
    }
    var inbuf := Calloc(len);
    if inbuf == null {
      return Failure(AllocError);
    }
    var ok := FillFromInput(input, inbuf, len);
    if !ok {
      return Failure(ReadError);
    }
    ok := StoreRange(window, inbuf, pageOffset, len);
    if !ok {
      return Fault;
    }
    return Success;
  }
}
