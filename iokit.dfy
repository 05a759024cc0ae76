/** The IOKit and Mach side of the DirectHW user client, which the shim only calls and
    never sees into: service lookup, opening a connection, the struct-in/struct-out
    method call (`IOConnectCallStructMethod`) and `IOConnectMapMemory`. Each call here is
    an oracle: its status and reply are unconstrained, and it appends one event, holding
    the request and the reply, to a log, so that callers can state what they sent and
    what they did with the answer. */
module IOKit {
  import opened CTypes
  import opened MachError

  /** The user-client method selectors (kReadIO .. kWriteMSR). */
  datatype Selector = ReadIO | WriteIO | PrepareMap | ReadMSR | WriteMSR

  /** `iomem_t`: a port number, an access width in bytes and a 32-bit payload. */
  datatype IoMem = IoMem(offset: bv32, width: bv32, data: bv32)

  /** `map_t`: a physical address and a length. */
  datatype MapRange = MapRange(addr: Word64, size: Word64)

  /** `msrcmd_t`: the logical CPU, the MSR index and the two 32-bit halves. */
  datatype MsrCmd = MsrCmd(core: bv32, index: bv32, hi: bv32, lo: bv32)

  /** One call into the kernel, with what was sent and what came back. */
  datatype Event =
    | MatchCall(service: bv32)
    | OpenCall(service: bv32, err: KernReturn, connect: bv32)
    | IoCall(connect: bv32, selector: Selector, ioIn: IoMem, err: KernReturn, ioOut: IoMem)
    | MapCall(connect: bv32, mapIn: MapRange, err: KernReturn, mapOut: MapRange)
    | MsrCall(connect: bv32, selector: Selector, msrIn: MsrCmd, err: KernReturn, msrOut: MsrCmd)
    | MapMemoryCall(connect: bv32, err: KernReturn, addr: Word64, size: Word64, window: array<bv8>, contents: seq<bv8>)

  class Kernel {
    /** Every call made so far, oldest first. */
    var log: seq<Event>
    /** The length of the range that the last successful kPrepareMap set up. */
    var prepared: Word64

    constructor ()
      ensures log == [] && prepared == 0
    {
      log := [];
      prepared := 0;
    }

    /** The latest call. */
    ghost function Last(): Event
      reads this
      requires log != []
    {
      log[|log| - 1]
    }

    /** `log` is `before` followed by `n` more calls. */
    ghost predicate Extends(before: seq<Event>, n: nat)
      reads this
    {
      |log| == |before| + n && log[..|before|] == before
    }

    /** `IOServiceGetMatchingService`: 0 when the DirectHW service is not registered. */
    method GetMatchingService() returns (service: bv32)
      modifies this`log
      ensures log == old(log) + [MatchCall(service)]
    {
      service :| true;
      log := log + [MatchCall(service)];
    }

    /** `IOServiceOpen`: a status and the new connection handle. */
    method ServiceOpen(service: bv32) returns (err: KernReturn, connect: bv32)
      modifies this`log
      ensures log == old(log) + [OpenCall(service, err, connect)]
    {
      err :| true;
      connect :| true;
      log := log + [OpenCall(service, err, connect)];
    }

    /** `IOConnectCallStructMethod` with an `iomem_t` in and out. */
    method CallIo(connect: bv32, selector: Selector, ioIn: IoMem) returns (err: KernReturn, ioOut: IoMem)
      modifies this`log
      ensures log == old(log) + [IoCall(connect, selector, ioIn, err, ioOut)]
    {
      err :| true;
      var offset: bv32, width: bv32, data: bv32 :| true;
      ioOut := IoMem(offset, width, data);
      log := log + [IoCall(connect, selector, ioIn, err, ioOut)];
    }

    /** `IOConnectCallStructMethod(kPrepareMap)` with a `map_t` in and out. On success the
        kernel extension sets up the requested range for the next `MapMemory`. */
    method CallMap(connect: bv32, mapIn: MapRange) returns (err: KernReturn, mapOut: MapRange)
      modifies this
      ensures log == old(log) + [MapCall(connect, mapIn, err, mapOut)]
      ensures prepared == if err == KERN_SUCCESS then mapIn.size else old(prepared)
    {
      err :| true;
      var addr: Word64, size: Word64 :| true;
      mapOut := MapRange(addr, size);
      log := log + [MapCall(connect, mapIn, err, mapOut)];
      if err == KERN_SUCCESS {
        prepared := mapIn.size;
      }
    }

    /** `IOConnectCallStructMethod` with an `msrcmd_t` in and out. */
    method CallMsr(connect: bv32, selector: Selector, msrIn: MsrCmd) returns (err: KernReturn, msrOut: MsrCmd)
      modifies this`log
      ensures log == old(log) + [MsrCall(connect, selector, msrIn, err, msrOut)]
    {
      err :| true;
      var core: bv32, index: bv32, hi: bv32, lo: bv32 :| true;
      msrOut := MsrCmd(core, index, hi, lo);
      log := log + [MsrCall(connect, selector, msrIn, err, msrOut)];
    }

    /** `IOConnectMapMemory`: maps the prepared range into the process. The new window
        holds whatever the physical memory holds; `contents` records it as mapped. */
    method MapMemory(connect: bv32) returns (err: KernReturn, addr: Word64, size: Word64, window: array<bv8>)
      modifies this`log
      ensures fresh(window) && window.Length == prepared
      ensures log == old(log) + [MapMemoryCall(connect, err, addr, size, window, window[..])]
    {
      err :| true;
      addr :| true;
      size :| true;
      window := new bv8[prepared];
      var i := 0;
      while i < prepared
        invariant 0 <= i <= prepared
        invariant log == old(log)
      {
        var b: bv8 :| true;
        window[i] := b;
        i := i + 1;
      }
      log := log + [MapMemoryCall(connect, err, addr, size, window, window[..])];
    }
  }
}
