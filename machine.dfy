/**
 * Machine-level values and x86 port I/O.
 *
 * Every `Port::write` the kernel performs is recorded, in order, as an entry of a
 * shared write log; the value a `Port::read` would return is passed in by the caller.
 */
module Machine {
  import opened Wrappers

  /** An unsigned 8-bit value (`u8`). */
  type Byte = x: int | 0 <= x < 0x100

  /** An unsigned 32-bit value (`u32`). */
  type Uint32 = x: int | 0 <= x < 0x1_0000_0000

  /** The largest `u64`. */
  const Uint64Max: nat := 0xFFFF_FFFF_FFFF_FFFF

  /** An unsigned 64-bit value (`u64`). */
  type Uint64 = x: int | 0 <= x <= Uint64Max

  /** One `out` instruction: a byte sent to an I/O port. */
  datatype PortWrite = PortWrite(port: nat, value: Byte)

  /** The bytes a log sends to `port`, oldest first. */
  function WritesTo(log: seq<PortWrite>, port: nat): (r: seq<Byte>)
    ensures |r| <= |log|
  {
    if log == [] then []
    else (if log[0].port == port then [log[0].value] else []) + WritesTo(log[1..], port)
  }

  /** Filtering a log by port distributes over appending logs. */
  lemma {:induction false} WritesToAppend(a: seq<PortWrite>, b: seq<PortWrite>, port: nat)
    ensures WritesTo(a + b, port) == WritesTo(a, port) + WritesTo(b, port)
  {
    if a == [] {
      assert a + b == b;
    } else {
      var head := if a[0].port == port then [a[0].value] else [];
      calc {
        WritesTo(a + b, port);
      == { assert (a + b)[0] == a[0]; assert (a + b)[1..] == a[1..] + b; }
        head + WritesTo(a[1..] + b, port);
      == { WritesToAppend(a[1..], b, port); }
        head + (WritesTo(a[1..], port) + WritesTo(b, port));
      ==
        (head + WritesTo(a[1..], port)) + WritesTo(b, port);
      }
    }
  }

  /** The bytes a log of three writes sends to `port`. */
  lemma WritesToThree(a: PortWrite, b: PortWrite, c: PortWrite, port: nat)
    ensures WritesTo([a, b, c], port)
      == (if a.port == port then [a.value] else []) + (if b.port == port then [b.value] else [])
       + (if c.port == port then [c.value] else [])
  {
    assert [a, b, c] == [a] + ([b] + [c]);
    WritesToAppend([b], [c], port);
    WritesToAppend([a], [b] + [c], port);
    assert [a][1..] == [] && [b][1..] == [] && [c][1..] == [];
  }

  /**
   * The last byte a log sends to `port`, if any: what a latch register behind that
   * port holds once the log has been played.
   */
  function LastWriteTo(log: seq<PortWrite>, port: nat): (r: Option<Byte>)
    ensures r.None? <==> forall i :: 0 <= i < |log| ==> log[i].port != port
    ensures r.Some? ==> exists i :: 0 <= i < |log| && log[i] == PortWrite(port, r.value)
  {
    if log == [] then None
    else if log[|log| - 1].port == port then Some(log[|log| - 1].value)
    else LastWriteTo(log[..|log| - 1], port)
  }

  /** Once a later log writes to `port`, what came before no longer shows in that latch. */
  lemma {:induction false} LastWriteToSuffix(a: seq<PortWrite>, b: seq<PortWrite>, port: nat)
    requires exists i :: 0 <= i < |b| && b[i].port == port
    ensures LastWriteTo(a + b, port) == LastWriteTo(b, port)
  {
    assert b != [];
    assert (a + b)[..|a + b| - 1] == a + b[..|b| - 1];
    if b[|b| - 1].port != port {
      var i :| 0 <= i < |b| && b[i].port == port;
      assert b[..|b| - 1][i].port == port;
      LastWriteToSuffix(a, b[..|b| - 1], port);
    }
  }

  /** The x86 I/O port space, seen through the writes made to it. */
  class PortBus {
    var log: seq<PortWrite>

    constructor ()
      ensures log == []
    {
      log := [];
    }

    /** `Port::write`: sends `value` to `port`. */
    method Write(port: nat, value: Byte)
      modifies this
      ensures log == old(log) + [PortWrite(port, value)]
    {
      log := log + [PortWrite(port, value)];
    }
  }
}
