/** The userspace half of DirectHW (DirectHW.c): it turns port I/O, MSR and
    physical-mapping requests into fixed-size records for the kernel extension and
    unpacks the replies. The process-wide globals of the C file (`connect`, `iokit_uc`,
    `current_logical_cpu`, and the `errno` it sets) are the fields of one `Library`. */
module DirectHW {
  import opened CTypes
  import opened MachError
  import opened ByteOrder
  import opened IOKit

  /** errno values on Darwin. */
  const EPERM: int := 1
  const ENOENT: int := 2
  const EINVAL: int := 22
  const ENOSYS: int := 78

  /** Pointer values that the tools compare against. */
  const NULL: Word64 := 0
  const MAP_FAILED: Word64 := 0xFFFF_FFFF_FFFF_FFFF

  /** `msr_t` and the pair rdmsr returns when the driver call fails ("DirectHW" in ASCII). */
  datatype Msr = Msr(hi: bv32, lo: bv32)

  const INVALID_MSR_HI: bv32 := 0x4469_7265
  const INVALID_MSR_LO: bv32 := 0x6374_4857
  const INVALID_MSR: Msr := Msr(INVALID_MSR_HI, INVALID_MSR_LO)

  /** `memcpy(dst, src, n)`: the first `n` bytes of `dst` replaced by those of `src`. */
  function CopyPrefix(dst: seq<bv8>, src: seq<bv8>, n: nat): (r: seq<bv8>)
    requires n <= |dst| && n <= |src|
    ensures |r| == |dst|
    ensures forall i :: 0 <= i < n ==> r[i] == src[i]
    ensures forall i :: n <= i < |dst| ==> r[i] == dst[i]
  {
    src[..n] + dst[n..]
  }

  /** How many bytes of the reply darwin_ioread copies out: the switch has cases for
      widths 1, 2 and 4 only, and every other width copies nothing. */
  function CopiedBytes(len: Int32): (n: nat)
    ensures n <= 4
    ensures n != 0 <==> (len == 1 || len == 2 || len == 4)
    ensures n != 0 ==> n == len as int
  {
    if len == 1 || len == 2 || len == 4 then len as nat else 0
  }

  /** The errno that map_physical leaves after a failed call: EINVAL for code 0x2c2,
      ENOENT for code 0x2cd, and the previous value for any other code. */
  function ErrnoAfterMapFailure(err: KernReturn, errno: int): (e: int)
    ensures Code(err) == CODE_BAD_ARGUMENT ==> e == EINVAL
    ensures Code(err) == CODE_NOT_OPEN ==> e == ENOENT
    ensures Code(err) != CODE_BAD_ARGUMENT && Code(err) != CODE_NOT_OPEN ==> e == errno
  {
    if Code(err) == CODE_BAD_ARGUMENT then EINVAL
    else if Code(err) == CODE_NOT_OPEN then ENOENT
    else errno
  }

  /** The last kernel call was a map step that failed. */
  ghost predicate MapRefused(k: Kernel)
    reads k
  {
    k.log != [] && (k.Last().MapCall? || k.Last().MapMemoryCall?) && k.Last().err != KERN_SUCCESS
  }

  /** The last two kernel calls prepared a range and mapped it into the process. */
  ghost predicate MapGranted(k: Kernel)
    reads k
  {
    && |k.log| >= 2
    && k.log[|k.log| - 2].MapCall? && k.log[|k.log| - 2].err == KERN_SUCCESS
    && k.Last().MapMemoryCall? && k.Last().err == KERN_SUCCESS
  }

  /** The range whose mapping was granted last. */
  ghost function GrantedRange(k: Kernel): MapRange
    reads k
    requires MapGranted(k)
  {
    k.log[|k.log| - 2].mapIn
  }

  /** A word written by outw comes back from inw when the driver echoes the data it was
      given: the request's low 16 bits are `val`, and inw returns the reply's first two
      data bytes. */
  lemma PortWordRoundTrip(val: bv16, data: bv32)
    requires data & 0xFFFF == val as bv32
    ensures Word16(Le32(data)[..2]) == val
  {
    Word16OfLe32Prefix(data);
  }

  class Library {
    const kernel: Kernel
    /** `iokit_uc`: the matched DirectHW service. */
    var service: bv32
    /** `connect`: the connection handle, -1 until darwin_init opens one. */
    var connect: bv32
    /** `current_logical_cpu`: the CPU that every MSR request targets. */
    var currentLogicalCpu: Int32
    /** The process's `errno`, as far as this library sets it. */
    var errno: int

    constructor (kernel: Kernel)
      ensures this.kernel == kernel
      ensures service == 0 && connect == 0xFFFF_FFFF && currentLogicalCpu == 0 && errno == 0
    {
      this.kernel := kernel;
      service := 0;
      connect := 0xFFFF_FFFF;
      currentLogicalCpu := 0;
      errno := 0;
    }

    /** iopl, which runs darwin_init: only root may go on; then the DirectHW service is
        looked up and a connection to it opened. `uid` is what getuid() returns. */
    method Iopl(uid: int) returns (rc: int)
      modifies this`service, this`connect, this`errno, kernel`log
      ensures uid != 0 ==> rc == -1 && errno == EPERM && kernel.log == old(kernel.log)
      ensures uid != 0 ==> connect == old(connect) && service == old(service)
      ensures uid == 0 ==> |kernel.log| > |old(kernel.log)| && kernel.log[|old(kernel.log)|] == MatchCall(service)
      ensures uid == 0 && service == 0 ==>
        rc == -1 && errno == ENOSYS && kernel.Extends(old(kernel.log), 1) && connect == old(connect)
      ensures uid == 0 && service != 0 ==>
        && kernel.Extends(old(kernel.log), 2)
        && kernel.Last().OpenCall? && kernel.Last().service == service && kernel.Last().connect == connect
        && (kernel.Last().err == KERN_SUCCESS ==> rc == 0 && errno == old(errno))
        && (kernel.Last().err != KERN_SUCCESS ==> rc == -1 && errno == ENOSYS)
    {
      if uid != 0 {
        errno := EPERM;
        return -1;
      }
      service := kernel.GetMatchingService();
      if service == 0 {
        errno := ENOSYS;
        return -1;
      }
      var err;
      err, connect := kernel.ServiceOpen(service);
      if err != KERN_SUCCESS {
        errno := ENOSYS;
        return -1;
      }
      return 0;
    }

    /** darwin_ioread: widths above 4 are refused before the driver is asked; otherwise
        one kReadIO request is sent and, on success, the first 1, 2 or 4 bytes of the
        reply's data are copied into `buf` (no byte for any other width). */
    method IoRead(pos: bv32, buf: array<bv8>, len: Int32) returns (rc: Int32)
      requires CopiedBytes(len) <= buf.Length
      modifies kernel`log, buf
      ensures len > 4 ==> rc == 1 && kernel.log == old(kernel.log) && buf[..] == old(buf[..])
      ensures len <= 4 ==>
        && kernel.Extends(old(kernel.log), 1)
        && kernel.Last().IoCall? && kernel.Last().connect == connect && kernel.Last().selector == ReadIO
        && kernel.Last().ioIn.offset == pos && kernel.Last().ioIn.width == U32(len)
      ensures len <= 4 && kernel.Last().err != KERN_SUCCESS ==> rc == 1 && buf[..] == old(buf[..])
      ensures len <= 4 && kernel.Last().err == KERN_SUCCESS ==>
        rc == 0 && buf[..] == CopyPrefix(old(buf[..]), Le32(kernel.Last().ioOut.data), CopiedBytes(len))
    {
      var stale: bv32 :| true;  // in.data is never set
      var request := IoMem(pos, U32(len), stale);
      if len > 4 {
        return 1;
      }
      var err, reply := kernel.CallIo(connect, ReadIO, request);
      if err != KERN_SUCCESS {
        return 1;
      }
      var n := CopiedBytes(len);
      var bytes := Le32(reply.data);
      forall i | 0 <= i < n {
        buf[i] := bytes[i];
      }
      return 0;
    }

    /** darwin_iowrite as written: `len` bytes of `buf` are copied into the 4-byte data
        field BEFORE `len > 4` is tested, so `overrun` reports a copy that ran past the
        field (any width above 4, and a negative one, which memcpy reads as huge). Widths
        above 4 then return 1 without a request; any other width sends kWriteIO. Once
        `overrun` holds the C program's behaviour is undefined, so nothing this method
        does after the copy is a prediction in that case. */
    method IoWrite(pos: bv32, buf: seq<bv8>, len: Int32) returns (rc: Int32, overrun: bool)
      requires len >= 0 ==> len as int <= |buf|
      modifies kernel`log
      ensures overrun <==> len < 0 || len > 4
      ensures len > 4 ==> rc == 1 && kernel.log == old(kernel.log)
      ensures len <= 4 ==>
        && kernel.Extends(old(kernel.log), 1)
        && kernel.Last().IoCall? && kernel.Last().connect == connect && kernel.Last().selector == WriteIO
        && kernel.Last().ioIn.offset == pos && kernel.Last().ioIn.width == U32(len)
        && (len >= 0 ==> Le32(kernel.Last().ioIn.data)[..len] == buf[..len])
        && rc == (if kernel.Last().err == KERN_SUCCESS then 0 else 1)
    {
      var stale: bv32 :| true;  // in.data before the copy
      var n := if len < 0 then 0 else if len > 4 then 4 else len as int;
      var data := Word32(CopyPrefix(Le32(stale), buf, n));
      Le32OfWord32(CopyPrefix(Le32(stale), buf, n));
      overrun := len < 0 || len > 4;
      var request := IoMem(pos, U32(len), data);
      if len > 4 {
        return 1, overrun;
      }
      var err, reply := kernel.CallIo(connect, WriteIO, request);
      if err != KERN_SUCCESS {
        return 1, overrun;
      }
      return 0, overrun;
    }

    /** darwin_iowrite with the width test moved before the copy: the copy never leaves
        the data field, and the request is the same as the original's for widths 0-4. */
    method IoWriteChecked(pos: bv32, buf: seq<bv8>, len: Int32) returns (rc: Int32, overrun: bool)
      requires len >= 0 ==> len as int <= |buf|
      modifies kernel`log
      ensures !overrun
      ensures (len < 0 || len > 4) ==> rc == 1 && kernel.log == old(kernel.log)
      ensures 0 <= len <= 4 ==>
        && kernel.Extends(old(kernel.log), 1)
        && kernel.Last().IoCall? && kernel.Last().connect == connect && kernel.Last().selector == WriteIO
        && kernel.Last().ioIn.offset == pos && kernel.Last().ioIn.width == U32(len)
        && Le32(kernel.Last().ioIn.data)[..len] == buf[..len]
        && rc == (if kernel.Last().err == KERN_SUCCESS then 0 else 1)
    {
      overrun := false;
      if len < 0 || len > 4 {
        return 1, overrun;
      }
      var stale: bv32 :| true;
      var data := Word32(CopyPrefix(Le32(stale), buf, len as nat));
      Le32OfWord32(CopyPrefix(Le32(stale), buf, len as nat));
      var err, reply := kernel.CallIo(connect, WriteIO, IoMem(pos, U32(len), data));
      rc := if err == KERN_SUCCESS then 0 else 1;
    }

    /** inb: a 1-byte read of port `addr`; on success the low byte of the reply. On failure
        the C local is returned uninitialised, so nothing is promised then. */
    method Inb(addr: bv16) returns (v: bv8)
      modifies kernel`log
      ensures kernel.Extends(old(kernel.log), 1)
      ensures kernel.Last().IoCall? && kernel.Last().selector == ReadIO && kernel.Last().connect == connect
      ensures kernel.Last().ioIn.offset == addr as bv32 && kernel.Last().ioIn.width == 1
      ensures kernel.Last().err == KERN_SUCCESS ==> v as bv32 == kernel.Last().ioOut.data & 0xFF
    {
      var ret := new bv8[1];
      var stale: bv8 :| true;
      ret[0] := stale;
      var _ := IoRead(addr as bv32, ret, 1);
      v := ret[0];
    }

    /** inw: a 2-byte read of port `addr`; on success the reply's first two data bytes,
        which are its low 16 bits (ByteOrder.Word16OfLe32Prefix). */
    method Inw(addr: bv16) returns (v: bv16)
      modifies kernel`log
      ensures kernel.Extends(old(kernel.log), 1)
      ensures kernel.Last().IoCall? && kernel.Last().selector == ReadIO && kernel.Last().connect == connect
      ensures kernel.Last().ioIn.offset == addr as bv32 && kernel.Last().ioIn.width == 2
      ensures kernel.Last().err == KERN_SUCCESS ==> v == Word16(Le32(kernel.Last().ioOut.data)[..2])
    {
      var ret := new bv8[2];
      var s0: bv8, s1: bv8 :| true;
      ret[0], ret[1] := s0, s1;
      var _ := IoRead(addr as bv32, ret, 2);
      v := Word16(ret[..]);
      if kernel.Last().err == KERN_SUCCESS {
        assert ret[..] == Le32(kernel.Last().ioOut.data)[..2];
      }
    }

    /** inl: a 4-byte read of port `addr`; on success the reply's data unchanged. */
    method Inl(addr: bv16) returns (v: bv32)
      modifies kernel`log
      ensures kernel.Extends(old(kernel.log), 1)
      ensures kernel.Last().IoCall? && kernel.Last().selector == ReadIO && kernel.Last().connect == connect
      ensures kernel.Last().ioIn.offset == addr as bv32 && kernel.Last().ioIn.width == 4
      ensures kernel.Last().err == KERN_SUCCESS ==> v == kernel.Last().ioOut.data
    {
      var ret := new bv8[4];
      var s0: bv8, s1: bv8, s2: bv8, s3: bv8 :| true;
      ret[0], ret[1], ret[2], ret[3] := s0, s1, s2, s3;
      var _ := IoRead(addr as bv32, ret, 4);
      v := Word32(ret[..]);
      if kernel.Last().err == KERN_SUCCESS {
        Word32OfLe32(kernel.Last().ioOut.data);
        assert ret[..] == Le32(kernel.Last().ioOut.data);
      }
    }

    /** outb: a 1-byte write of `val` to port `addr`. */
    method Outb(val: bv8, addr: bv16)
      modifies kernel`log
      ensures kernel.Extends(old(kernel.log), 1)
      ensures kernel.Last().IoCall? && kernel.Last().selector == WriteIO && kernel.Last().connect == connect
      ensures kernel.Last().ioIn.offset == addr as bv32 && kernel.Last().ioIn.width == 1
      ensures kernel.Last().ioIn.data & 0xFF == val as bv32
    {
      var _, _ := IoWrite(addr as bv32, [val], 1);
    }

    /** outw: a 2-byte write of `val` to port `addr`. */
    method Outw(val: bv16, addr: bv16)
      modifies kernel`log
      ensures kernel.Extends(old(kernel.log), 1)
      ensures kernel.Last().IoCall? && kernel.Last().selector == WriteIO && kernel.Last().connect == connect
      ensures kernel.Last().ioIn.offset == addr as bv32 && kernel.Last().ioIn.width == 2
      ensures kernel.Last().ioIn.data & 0xFFFF == val as bv32
    {
      var _, _ := IoWrite(addr as bv32, Le16(val), 2);
      var data := kernel.Last().ioIn.data;
      Le32OfWord32(Le32(data));
      Word32OfLe32(data);
      Word32OfLe16Prefix(val, Le32(data)[2..]);
      assert Le32(data) == Le16(val) + Le32(data)[2..];
    }

    /** outl: a 4-byte write of `val` to port `addr`; the request carries `val` exactly. */
    method Outl(val: bv32, addr: bv16)
      modifies kernel`log
      ensures kernel.Extends(old(kernel.log), 1)
      ensures kernel.Last().IoCall? && kernel.Last().selector == WriteIO && kernel.Last().connect == connect
      ensures kernel.Last().ioIn.offset == addr as bv32 && kernel.Last().ioIn.width == 4
      ensures kernel.Last().ioIn.data == val
    {
      var _, _ := IoWrite(addr as bv32, Le32(val), 4);
      var data := kernel.Last().ioIn.data;
      assert Le32(data) == Le32(val);
      Word32OfLe32(data);
      Word32OfLe32(val);
    }

    /** map_physical: a kPrepareMap request for the range, then IOConnectMapMemory. Either
        failure sets errno from the error code and yields MAP_FAILED (and no window);
        success yields the mapped address and a window of `len` bytes. */
    method MapPhysical(physAddr: Word64, len: Word64) returns (virt: Word64, window: array?<bv8>)
      modifies this`errno, kernel
      ensures kernel.Extends(old(kernel.log), 1) || kernel.Extends(old(kernel.log), 2)
      ensures kernel.log[|old(kernel.log)|].MapCall?
      ensures kernel.log[|old(kernel.log)|].connect == connect
      ensures kernel.log[|old(kernel.log)|].mapIn == MapRange(physAddr, len)
      ensures kernel.log[|old(kernel.log)|].err != KERN_SUCCESS ==>
        kernel.Extends(old(kernel.log), 1) && errno == ErrnoAfterMapFailure(kernel.Last().err, old(errno))
      ensures kernel.log[|old(kernel.log)|].err == KERN_SUCCESS ==>
        && kernel.Extends(old(kernel.log), 2)
        && kernel.Last().MapMemoryCall? && kernel.Last().connect == connect
        && errno == (if kernel.Last().err == KERN_SUCCESS then old(errno)
                     else ErrnoAfterMapFailure(kernel.Last().err, old(errno)))
      ensures window == null <==> MapRefused(kernel)
      ensures window == null ==> virt == MAP_FAILED
      ensures window != null ==>
        && MapGranted(kernel) && GrantedRange(kernel) == MapRange(physAddr, len)
        && fresh(window) && window.Length == len
        && window == kernel.Last().window && window[..] == kernel.Last().contents
        && virt == kernel.Last().addr
    {
      var err, reply := kernel.CallMap(connect, MapRange(physAddr, len));
      if err != KERN_SUCCESS {
        errno := ErrnoAfterMapFailure(err, errno);
        return MAP_FAILED, null;
      }
      var addr, size;
      err, addr, size, window := kernel.MapMemory(connect);
      if err != KERN_SUCCESS {
        errno := ErrnoAfterMapFailure(err, errno);
        return MAP_FAILED, null;
      }
      virt := addr;
    }

    /** rdmsr: one kReadMSR request for MSR `addr` on the currently selected CPU; the
        reply's halves on success, the INVALID_MSR sentinel on failure. */
    method RdMsr(addr: Int32) returns (msr: Msr)
      modifies kernel`log
      ensures kernel.Extends(old(kernel.log), 1)
      ensures kernel.Last().MsrCall? && kernel.Last().connect == connect && kernel.Last().selector == ReadMSR
      ensures kernel.Last().msrIn.core == U32(currentLogicalCpu) && kernel.Last().msrIn.index == U32(addr)
      ensures kernel.Last().err != KERN_SUCCESS ==> msr == INVALID_MSR
      ensures kernel.Last().err == KERN_SUCCESS ==>
        msr == Msr(kernel.Last().msrOut.hi, kernel.Last().msrOut.lo)
    {
      var ret := INVALID_MSR;
      var hi: bv32, lo: bv32 :| true;  // in.hi and in.lo are never set
      var err, reply := kernel.CallMsr(connect, ReadMSR, MsrCmd(U32(currentLogicalCpu), U32(addr), hi, lo));
      if err != KERN_SUCCESS {
        return ret;
      }
      ret := ret.(lo := reply.lo);
      ret := ret.(hi := reply.hi);
      return ret;
    }

    /** wrmsr: one kWriteMSR request carrying the selected CPU, `addr` and both halves of
        `msr` unchanged; 1 on failure, 0 on success. */
    method WrMsr(addr: Int32, msr: Msr) returns (rc: Int32)
      modifies kernel`log
      ensures kernel.Extends(old(kernel.log), 1)
      ensures kernel.Last().MsrCall? && kernel.Last().connect == connect && kernel.Last().selector == WriteMSR
      ensures kernel.Last().msrIn == MsrCmd(U32(currentLogicalCpu), U32(addr), msr.hi, msr.lo)
      ensures rc == (if kernel.Last().err == KERN_SUCCESS then 0 else 1)
    {
      var err, reply := kernel.CallMsr(connect, WriteMSR, MsrCmd(U32(currentLogicalCpu), U32(addr), msr.hi, msr.lo));
      if err != KERN_SUCCESS {
        return 1;
      }
      return 0;
    }

    /** logical_cpu_select: later MSR requests target `cpu`; nothing else changes. */
    method LogicalCpuSelect(cpu: Int32) returns (rc: Int32)
      modifies this`currentLogicalCpu
      ensures currentLogicalCpu == cpu && rc == 0
    {
      currentLogicalCpu := cpu;
      return 0;
    }
  }
}
