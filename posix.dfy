/** What the tools use of the C library and the process: exit statuses, standard output
    and input through `write`/`read`, which may move fewer bytes than asked, and `calloc`. */
module Posix {
  /** How a tool ends: EXIT_SUCCESS; EXIT_FAILURE after the message that names the step
      that failed; or an access through a pointer that does not lead to mapped memory
      (undefined behaviour in C). */
  datatype Exit = Success | Failure(diagnostic: Diagnostic) | Fault

  /** The message printed before EXIT_FAILURE: the usage line, or `perror` of the failed
      step ("iopl", "mmap"/"map", "malloc", "read", "write"). */
  datatype Diagnostic = Usage | IoplError | MapError | AllocError | ReadError | WriteError

  /** Standard output: the bytes written to it so far. */
  class Stdout {
    var emitted: seq<bv8>

    constructor ()
      ensures emitted == []
    {
      emitted := [];
    }

    /** `write(STDOUT_FILENO, src + from, count)`: -1 on error, otherwise the number of
        leading bytes taken, which may be fewer than `count`. */
    method Write(src: array<bv8>, from: nat, count: nat) returns (rc: int)
      requires from + count <= src.Length
      modifies this
      ensures -1 <= rc <= count
      ensures emitted == old(emitted) + if rc > 0 then src[from..from + rc] else []
    {
      rc :| -1 <= rc <= count;
      if rc > 0 {
        emitted := emitted + src[from..from + rc];
      }
    }
  }

  /** Standard input: everything it will deliver, and how much has been consumed. */
  class Stdin {
    const data: seq<bv8>
    var pos: nat

    ghost predicate Valid()
      reads this
    {
      pos <= |data|
    }

    constructor (data: seq<bv8>)
      ensures Valid() && this.data == data && pos == 0
    {
      this.data := data;
      pos := 0;
    }

    /** `read(STDIN_FILENO, dst + from, count)`: -1 on error, 0 at end of input, otherwise
        the number of bytes delivered, in order, which may be fewer than `count`. */
    method Read(dst: array<bv8>, from: nat, count: nat) returns (rc: int)
      requires Valid() && from + count <= dst.Length
      modifies this, dst
      ensures Valid()
      ensures -1 <= rc <= count && rc <= |data| - old(pos)
      ensures pos == old(pos) + if rc > 0 then rc else 0
      ensures rc > 0 ==> dst[..] == old(dst[..])[..from] + data[old(pos)..pos] + old(dst[..])[from + rc..]
      ensures rc <= 0 ==> dst[..] == old(dst[..])
    {
      rc :| -1 <= rc <= count && rc <= |data| - pos;
      if rc > 0 {
        forall i | from <= i < from + rc {
          dst[i] := data[pos + i - from];
        }
        pos := pos + rc;
      }
    }
  }

  /** `calloc(1, n)`: null, or `n` fresh zero bytes. */
  method Calloc(n: nat) returns (p: array?<bv8>)
    ensures p != null ==> fresh(p) && p.Length == n && forall i :: 0 <= i < n ==> p[i] == 0
  {
    var granted: bool :| true;
    if granted {
      p := new bv8[n](_ => 0);
    } else {
      p := null;
    }
  }
}
