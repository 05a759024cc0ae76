# DirectHW userspace library and tools, modelled in Dafny

DirectHW gives root processes on macOS direct access to hardware through a kernel
extension. The kernel extension serves port I/O, MSR reads and writes, and the mapping of
physical memory into the process. This project models the userspace side:

- `DirectHW.c`, the library. It packs each request into a fixed-size record, sends it
  through IOKit, unpacks the reply and maps Mach error codes to `errno`.
- `rdmem.c`, which copies a range of physical memory to standard output.
- `wrmem.c`, which copies standard input into a range of physical memory.
- `rdpci.c`, which dumps the first 256 bytes of one PCI Express function's
  configuration space.

Modules:

- `CTypes`: `int` and 64-bit `size_t` values, with `size_t` addition wrapping modulo 2^64.
- `MachError`: the `err_get_system`, `err_get_sub` and `err_get_code` decoders of a
  `kern_return_t`.
- `ByteOrder`: little-endian byte layout. `memcpy` between a `UInt32` and a byte buffer
  goes through this layout on the x86 machines DirectHW runs on.
- `Page`: page base, in-page offset and rounded mapping length, as rdmem and wrmem
  compute them.
- `Ecam`: the Enhanced Configuration Access Mechanism address that rdpci builds.
- `IOKit`: the kernel side. It is a `Kernel` object whose calls return arbitrary replies
  and record every request and reply in `log`. Contracts speak about that log:
  - what was sent;
  - what the caller made of the reply.
- `DirectHW`: the library. Its globals (`connect`, `iokit_uc`, `current_logical_cpu`,
  and the `errno` it sets) are fields of the class `Library`.
- `Posix`: what the tools use of the C library:
  - `write` and `read`, which may move fewer bytes than asked;
  - `calloc`, which may fail;
  - the exit status, with the step named by the message printed before a failure.
- `RdMem`, `WrMem`, `RdPci`: the three tools. Each has a `Run` method that follows the
  tool's `main` line by line. The tool itself dereferencing a pointer that does not lead
  to mapped memory is undefined behaviour in C. The model reports it as the exit status
  `Fault`.
  - wrmem does this at wrmem.c:72 and rdpci at rdpci.c:57.
  - rdmem never ends in `Fault`: it only hands its pointer and count to `write`
    (rdmem.c:46). The model takes as given how `write` answers the two bad requests
    rdmem can make (see "## Left out"), and both end in the write error.

Two places where the code does less than the interface intends; the model follows the code:

- Port I/O is meant for widths 1, 2 and 4, but only widths above 4 are rejected
  (DirectHW.c:125, 172). Widths 0, 3 and negative widths would still reach the driver,
  and darwin_ioread would then copy nothing back. This is latent: darwin_ioread and
  darwin_iowrite are `static`, and their only callers, `inb` to `outl` (DirectHW.c:196-230),
  pass 1, 2 or 4.
- The tools are meant to stop on every failed privileged call. A failed map gets
  through: `map_physical` returns `MAP_FAILED`, but the tools test for `NULL`
  (see Findings).

## Model

| member | source | states |
|---|---|---|
| CTypes.Add64 | rdmem.c:27 | `size_t` addition: the plain sum when it stays below 2^64, and the sum minus 2^64 when it wraps |
| MachError.System | DirectHW.c:37 | the system field is below 0x40, and shifted back into place it equals the error's top six bits |
| MachError.Sub | DirectHW.c:38 | the subsystem field is below 0x1000, and shifted back into place it equals bits 14-25 of the error |
| MachError.Code | DirectHW.c:39 | the code field is below 0x4000 and equals the error's low 14 bits |
| MachError.Compose | DirectHW.c:37-39 | composing three fields and decoding them gives back each field, masked to its width |
| MachError.Reassemble | DirectHW.c:37-39 | the three decoded fields put back together give exactly the original error, so the decoders lose nothing |
| MachError.FieldsDetermineError | DirectHW.c:37-39 | two errors with equal system, subsystem and code fields are equal |
| ByteOrder.Le32 | DirectHW.c:143-154 | the four bytes of a `UInt32` in memory order, least significant first |
| ByteOrder.Le16 | DirectHW.c:222-225 | the two bytes of an `unsigned short` in memory order |
| ByteOrder.Word32OfLe32 | DirectHW.c:210-215 | reading four bytes back as a `UInt32` gives the value that was laid out |
| ByteOrder.Le32OfWord32 | DirectHW.c:170 | laying out a `UInt32` built from four bytes gives those bytes back |
| ByteOrder.Word16OfLe16 | DirectHW.c:203-208 | reading two bytes back as an `unsigned short` gives the value that was laid out |
| ByteOrder.Word16OfLe32Prefix | DirectHW.c:203-208 | the first two bytes of a `UInt32` read as an `unsigned short` are its low 16 bits |
| ByteOrder.Word32OfLe16Prefix | DirectHW.c:222-225 | a `UInt32` whose first two bytes are copied from an `unsigned short` has that value in its low 16 bits, whatever its other bytes hold |
| Page.Offset | rdmem.c:23-24 | `addr & page_mask` is below 4096, and `addr` minus it is a page multiple |
| Page.Base | rdmem.c:25 | `addr & ~page_mask` is a page multiple, at most `addr` and within one page of it, and base plus offset gives `addr` back |
| Page.MapLen | rdmem.c:27 | the mapping length is a page multiple. Without wrap-around it covers `page_offset + len` bytes with less than a page to spare; when the sum wraps, it is shorter than `page_offset + len` |
| Page.MapLenMinimal | rdmem.c:27 | without wrap-around, no smaller page multiple covers the range |
| Page.MapLenOfAligned | rdmem.c:27 | a page-aligned range of whole pages maps exactly its own length |
| Page.MapLenWrapsAround | wrmem.c:36 | a length of 2^64 - 4095 at offset 0 wraps around and gives a mapping length of 0 |
| Ecam.ConfigAddress | rdpci.c:30-35 | the address decodes to the masked bus, slot, function and register. It carries the 0xE0000000 base, and its low 12 bits are the dword-aligned register |
| Ecam.FieldsDisjoint | rdpci.c:30-35 | the base and the four shifted fields occupy disjoint bits, and no masked field spills out of its slot |
| Ecam.ConfigAddressOfFields | rdpci.c:30-35 | every well-formed ECAM address is the packing of its own decoded fields |
| Ecam.ConfigAddressInjective | rdpci.c:30-35 | two packings are equal exactly when their masked bus, slot, function and register are equal |
| DirectHW.CopyPrefix | DirectHW.c:147-154 | `memcpy` of `n` bytes: the first `n` bytes come from the source, and the rest of the destination is unchanged |
| DirectHW.CopiedBytes | DirectHW.c:145-155 | darwin_ioread copies back 1, 2 or 4 bytes for those widths, and nothing for any other width |
| DirectHW.ErrnoAfterMapFailure | DirectHW.c:276-279 | a failed map sets EINVAL for code 0x2c2 and ENOENT for code 0x2cd, and leaves errno as it was for any other code |
| DirectHW.PortWordRoundTrip | DirectHW.c:203-225 | when the driver echoes the data it was sent, a word written by outw is read back unchanged by inw |
| DirectHW.Library.constructor | DirectHW.c:68-69 | the library starts with no connection (`connect == -1`), no service, CPU 0 selected, and errno 0 |
| DirectHW.Library.Iopl | DirectHW.c:71-105 | a caller who is not root gets -1 and EPERM without any kernel call. Otherwise the service is looked up: if it is missing, -1 and ENOSYS; otherwise a connection is opened, and a failed open gives -1 and ENOSYS, a successful one 0 |
| DirectHW.Library.IoRead | DirectHW.c:112-158 | a width above 4 returns 1 without a request. Otherwise one kReadIO request is sent with the position and width. A failure returns 1 with the buffer unchanged; a success returns 0 after copying the first 1, 2 or 4 reply bytes into the buffer |
| DirectHW.Library.IoWrite | DirectHW.c:160-191 | as written: the bytes are copied into the 4-byte data field before the width test, so the copy overruns exactly when the width is negative or above 4. This is latent: the function is `static` and its only callers (outb, outw, outl) pass 1, 2 or 4. A width above 4 returns 1 without a request; any other width sends kWriteIO carrying the caller's bytes and returns 0 or 1 according to the reply |
| DirectHW.Library.IoWriteChecked | DirectHW.c:160-191 | corrected: the copy never overruns. A width outside 0-4 returns 1 without a request; widths 0-4 send the same kWriteIO request as the original |
| DirectHW.Library.Inb | DirectHW.c:196-201 | one 1-byte kReadIO request for the port; on success the result is the reply's low byte |
| DirectHW.Library.Inw | DirectHW.c:203-208 | one 2-byte kReadIO request for the port; on success the result is the reply's first two data bytes |
| DirectHW.Library.Inl | DirectHW.c:210-215 | one 4-byte kReadIO request for the port; on success the result is the reply's data |
| DirectHW.Library.Outb | DirectHW.c:217-220 | one 1-byte kWriteIO request for the port, whose data has the value in its low byte |
| DirectHW.Library.Outw | DirectHW.c:222-225 | one 2-byte kWriteIO request for the port, whose data has the value in its low 16 bits |
| DirectHW.Library.Outl | DirectHW.c:227-230 | one 4-byte kWriteIO request for the port, whose data is exactly the value |
| DirectHW.Library.MapPhysical | DirectHW.c:238-311 | first a kPrepareMap request for the range, then IOConnectMapMemory. A failure in either step sets errno from the error code and returns MAP_FAILED with no window. Success returns the mapped address and a fresh window of `len` bytes holding the mapped memory |
| DirectHW.Library.RdMsr | DirectHW.c:320-350 | one kReadMSR request for the MSR on the selected CPU. Failure returns the INVALID_MSR sentinel; success returns the reply's halves |
| DirectHW.Library.WrMsr | DirectHW.c:352-380 | one kWriteMSR request carrying the selected CPU, the MSR and both halves; returns 0 on success and 1 on failure |
| DirectHW.Library.LogicalCpuSelect | DirectHW.c:382-386 | later MSR requests target the given CPU; always returns 0 |
| Posix.Stdout.Write | rdmem.c:46 | `write` returns -1 or a count up to the request, and emits exactly that many leading bytes |
| Posix.Stdin.Read | wrmem.c:61 | `read` returns -1, 0 or a count no larger than the request or the remaining input, and stores exactly that many next input bytes |
| Posix.Calloc | wrmem.c:51 | `calloc` returns null or `n` fresh zero bytes |
| RdMem.RefusedMapBuffer | rdmem.c:46 | after a refused map the buffer handed to `write` is `page_offset - 1` modulo 2^64: the last byte of the address space at offset 0, an address in the zero page otherwise |
| RdMem.WrappedLengthExceedsSsizeMax | rdmem.c:27-46 | when the rounded length wraps around, the count handed to `write` is above SSIZE_MAX |
| RdMem.EmitRange | rdmem.c:43-54 | the write loop emits the whole range when every write succeeds, and a proper prefix of it when a write fails |
| RdMem.Run | rdmem.c:13-57 | the wrong argument count fails with the usage message and leaves the library untouched. A caller who is not root fails at iopl with no kernel call. Success maps the page-aligned range and emits exactly the requested bytes. A refused map with a non-zero length is reported as a write error, with nothing emitted. A map error is reported only for a granted map at address 0. When the rounded length wraps around, a granted map still ends in the write error with nothing emitted. The tool never faults |
| RdMem.RunChecked | rdmem.c:35-40 | with the test against MAP_FAILED, a refused map is reported as a map error with nothing emitted; a granted map whose rounded length wraps ends in the write error with nothing emitted; the tool never faults |
| WrMem.FillFromInput | wrmem.c:58-69 | the read loop either consumes exactly the next `len` input bytes into the buffer, or fails having consumed fewer |
| WrMem.StoreRange | wrmem.c:71-72 | the copy loop completes exactly when the target lies inside the mapping. It then leaves the mapping's bytes before and after the range unchanged and the range equal to the input |
| WrMem.Run | wrmem.c:22-74 | the wrong argument count fails with the usage message, nothing read and the library untouched. A caller who is not root fails at iopl with no kernel call. Success has consumed `len` input bytes and stored them at the page offset of the requested range. Every failure leaves the mapped bytes untouched. After a refused map, reading the input in full ends in `Fault`. A map error is reported only for a granted map at address 0 |
| WrMem.RunChecked | wrmem.c:44-49 | with the test against MAP_FAILED, a refused map is reported as a map error before any input is read, and only a length whose rounding wraps can fault |
| RdPci.PageOffset | rdpci.c:44 | `addr & page_mask` on `uintptr_t` is below 4096 |
| RdPci.PageBase | rdpci.c:45 | `addr & ~page_mask` on `uintptr_t` is page-aligned, and base plus offset equals `addr` |
| RdPci.MapLen | rdpci.c:46 | the mapping length is page-aligned and covers the 256 dumped bytes from the offset, with less than a page to spare |
| RdPci.PageSplitUnique | rdpci.c:44-45 | an aligned base plus an offset below one page that add up to `addr` are exactly PageBase and PageOffset, so the two together determine the split |
| RdPci.ZeroExtendAligned | rdpci.c:44 | widening a 32-bit address with clear low 12 bits to `uintptr_t` keeps them clear |
| RdPci.AlignedAddress | rdpci.c:44-46 | an address on a page boundary is its own base, its offset is 0, and the dump needs exactly one page |
| RdPci.WindowOfAlignedAddress | rdpci.c:30-46 | for a 32-bit address whose low 12 bits are clear (as the ECAM address of register 0 is), the window maps from the address itself, at offset 0, for exactly one page |
| RdPci.DumpWindow | rdpci.c:44-46 | the base, offset and length handed on, as byte counts: the offset plus the 256 dumped bytes always fits in the mapping length |
| RdPci.MapLenCoversDump | rdpci.c:46 | read as a byte count, the mapping length reaches at least 256 bytes past any in-page offset |
| RdPci.Dump | rdpci.c:55-58 | the loop produces 64 lines. Line k carries address `addr + 4k` and the little-endian dword at `page_offset + 4k` |
| RdPci.Run | rdpci.c:19-61 | the wrong argument count fails with the usage message and leaves the library untouched. A caller who is not root fails at iopl with no kernel call. Success maps exactly one page starting at the function's ECAM address and prints its first 64 dwords with their addresses. The tool ends in `Fault` exactly when the map was refused |
| RdPci.RunChecked | rdpci.c:48-53 | with the test against MAP_FAILED, a refused map is reported as a map error and the tool never faults |

## Left out

- The kernel extension and IOKit are not part of this model. Each IOKit call is an
  oracle in `IOKit.Kernel` that may return any reply. It records the request and the
  reply, and nothing more is assumed of it. One exception: a successful mapping is
  exactly as long as the prepared range.
- `IOServiceClose`, `darwin_cleanup` and the `atexit` registration in `iopl` are left out:
  they only run at process exit.
- `unmap_physical` is left out: it does nothing.
- The `WANT_OLD_API` branches are left out: they are compiled only on 32-bit builds with
  a macro that the source undefines.
- The `debug` traces, the `usleep(1000)` in `map_physical`, and the text of every
  `fprintf`/`perror` message are left out: they only print or wait. A failing tool's
  exit status keeps the step its message names.
- `getuid()` and the command-line parsing with `strtoul` are parameters of the model: the
  caller's uid and the parsed numbers.
- rdpci's `printf` formatting is left out. The model yields each printed line as an
  address and a value.
- What the machine does after undefined behaviour is left out. When wrmem or rdpci
  dereferences `MAP_FAILED` or a pointer past its mapping, the model stops the tool with
  `Fault`.
- RdMem.Run: takes two answers of `write` as given. (1) After a refused map, the buffer
  `MAP_FAILED + page_offset` is `page_offset - 1` modulo 2^64 (RdMem.RefusedMapBuffer).
  That is the last byte of the address space when page_offset is 0, and an address in the
  unmapped zero page otherwise. The model takes it that `write` refuses it with EFAULT.
  (2) When the rounded length wraps, the count is above SSIZE_MAX
  (RdMem.WrappedLengthExceedsSsizeMax). The model takes it that `write` refuses it with
  EINVAL, as Darwin does. `Posix.Stdout.Write` does not model either refusal.
- RdMem.RunChecked: takes the same answer (2) of `write` as given for a wrapped length.
- `volatile` on wrmem's mapping is not modelled. Each store is a separate array update in
  program order, which is what `volatile` guarantees.
- Mappings are Dafny arrays allocated by the kernel oracle. An aliased mapping shared with
  another process, and memory that changes under the reader, are not modelled.
- DirectHW.Library.Inb: promises nothing about the result when the driver call fails.
  The C function then returns an uninitialised local, so no value can be promised.
- DirectHW.Library.Inw: promises nothing about the result when the driver call fails,
  for the same reason.
- DirectHW.Library.Inl: promises nothing about the result when the driver call fails,
  for the same reason.
- DirectHW.Library.IoRead: does not model the `in.data` field as a value sent to the
  driver. In the C code it is left uninitialised, and the model sends an arbitrary value.
- RdPci.PageOffset: rdpci computes the page split on 64-bit `uintptr_t`, and the model
  follows it in `bv64`. rdmem and wrmem split the address on `uintptr_t` and round the
  length on `size_t`, modelled over integers in `Page`. The two splits are not proved equal, just as the source writes them separately.

## Findings

| source | as written | input that shows it | evidently intended | confidence | as-written member | corrected member |
|---|---|---|---|---|---|---|
| DirectHW.c:170-173 | `memcpy(&in.data, buf, len)` runs before the `len > 4` test, so it writes past the 4-byte `data` field | `darwin_iowrite(pos, buf, 8)`, or any negative `len` | test the width first and copy only 0-4 bytes | high (not executed) | DirectHW.Library.IoWrite | DirectHW.Library.IoWriteChecked |
| rdmem.c:36 | the mapping is compared with `NULL`, but `map_physical` returns `MAP_FAILED` on failure (DirectHW.c:281, 304), so the tool goes on and hands `MAP_FAILED + page_offset` to `write`. That fails with EFAULT, and the tool reports a write error instead of the map error | `rdmem 0x1000 16` when the driver refuses the map (error code 0x2c2) | compare with `MAP_FAILED` and report the map error | high (not executed) | RdMem.Run | RdMem.RunChecked |
| wrmem.c:45 | the same `NULL` test, so after a refused map the tool reads all its input and then stores through `MAP_FAILED` | `wrmem 0x1000 16` with 16 bytes of input when the driver refuses the map | compare with `MAP_FAILED` and exit before reading input | high (not executed) | WrMem.Run | WrMem.RunChecked |
| rdpci.c:49 | the same `NULL` test, so after a refused map the dump reads through `MAP_FAILED` | `rdpci 0 0 0` when the driver refuses the map | compare with `MAP_FAILED` and exit with failure | high (not executed) | RdPci.Run | RdPci.RunChecked |
