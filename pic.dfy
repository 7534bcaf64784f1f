/**
 * The two chained Intel 8259A programmable interrupt controllers (src/interrupts/pic.rs):
 * which controller owns a vector, which ones must be told that an interrupt was
 * served, and the ICW1-ICW4 initialization sequence, all as writes to the port log.
 */
module Pic8259 {
  import opened Wrappers
  import opened Machine

  /** Vector of IRQ 0 on the primary controller, just past the 32 CPU exceptions. */
  const Pic1Offset: Byte := 32
  /** Vector of IRQ 8, the first line of the secondary controller. */
  const Pic2Offset: Byte := Pic1Offset + 8

  /** ICW1: edge triggered, cascade mode, ICW4 follows. */
  const CmdInit: Byte := 0x11
  /** OCW2: non-specific end of interrupt. */
  const CmdEndOfInterrupt: Byte := 0x20
  /** ICW4: 8086/88 mode. */
  const Mode8086: Byte := 0x01
  /** ICW3 for the primary: the secondary hangs on IRQ line 2 (bit 2). */
  const CascadePrimary: Byte := 4
  /** ICW3 for the secondary: its cascade identity, line 2. */
  const CascadeSecondary: Byte := 2

  /** One controller: its vector offset and its command and data ports. */
  datatype Pic = Pic(offset: Byte, command: nat, data: nat)

  /** The controllers the kernel programs: primary at ports 0x20/0x21, secondary at 0xA0/0xA1. */
  const PrimaryPic := Pic(Pic1Offset, 0x20, 0x21)
  const SecondaryPic := Pic(Pic2Offset, 0xA0, 0xA1)

  /** The vector that IRQ line `line` of `p` raises. */
  function Vector(p: Pic, line: nat): int {
    p.offset + line
  }

  /**
   * `Pic::handles_interrupt`: the vector is raised by one of the eight IRQ lines of
   * the controller. (The offset plus 8 is computed on unbounded integers.)
   */
  function Handles(p: Pic, id: Byte): (b: bool)
    ensures b <==> exists line :: 0 <= line < 8 && Vector(p, line) == id
  {
    var b := p.offset <= id && id < p.offset + 8;
    assert b ==> Vector(p, id - p.offset) == id;
    b
  }

  /** `ChainedPics::handles_interrupt`: one of the two controllers owns the vector. */
  predicate ChainHandles(primary: Pic, secondary: Pic, id: Byte) {
    Handles(primary, id) || Handles(secondary, id)
  }

  /** `Pic::end_of_interrupt`: the non-specific EOI command on the controller's command port. */
  function EndOfInterrupt(p: Pic): PortWrite {
    PortWrite(p.command, CmdEndOfInterrupt)
  }

  /**
   * `notify_end_of_interrupt`: a vector of the secondary is acknowledged at the
   * secondary and then at the primary, since its request passed through both; a vector
   * of the primary only at the primary; any other vector at neither.
   */
  function EoiWrites(primary: Pic, secondary: Pic, id: Byte): (r: seq<PortWrite>)
    ensures r == [] <==> !ChainHandles(primary, secondary, id)
    ensures |r| == 2 <==> Handles(secondary, id)
    ensures |r| <= 2
    ensures forall i :: 0 <= i < |r| ==> r[i].value == CmdEndOfInterrupt
    ensures r != [] ==> r[|r| - 1] == PortWrite(primary.command, CmdEndOfInterrupt)
    ensures |r| == 2 ==> r[0] == PortWrite(secondary.command, CmdEndOfInterrupt)
  {
    if ChainHandles(primary, secondary, id) then
      (if Handles(secondary, id) then [EndOfInterrupt(secondary)] else []) + [EndOfInterrupt(primary)]
    else []
  }

  /** One step of the sequence: a byte to a port of the primary, then one to a port of the secondary. */
  function BothPorts(primaryPort: nat, primaryByte: Byte, secondaryPort: nat, secondaryByte: Byte): seq<PortWrite> {
    [PortWrite(primaryPort, primaryByte), PortWrite(secondaryPort, secondaryByte)]
  }

  /**
   * `initialize`: ICW1 to both command ports, then on the data ports the offsets (ICW2),
   * the cascade wiring (ICW3), the 8086 mode (ICW4), and finally the masks read
   * before the sequence began.
   */
  function InitWrites(primary: Pic, secondary: Pic, savedMask1: Byte, savedMask2: Byte): seq<PortWrite> {
    BothPorts(primary.command, CmdInit, secondary.command, CmdInit)
    + (BothPorts(primary.data, primary.offset, secondary.data, secondary.offset)
    + (BothPorts(primary.data, CascadePrimary, secondary.data, CascadeSecondary)
    + (BothPorts(primary.data, Mode8086, secondary.data, Mode8086)
    + BothPorts(primary.data, savedMask1, secondary.data, savedMask2))))
  }

  /** `write_masks`: mask1 to the primary's data port, then mask2 to the secondary's. */
  function MaskWrites(primary: Pic, secondary: Pic, mask1: Byte, mask2: Byte): seq<PortWrite> {
    BothPorts(primary.data, mask1, secondary.data, mask2)
  }

  /** The four ports of the two controllers are pairwise distinct. */
  predicate DistinctPorts(primary: Pic, secondary: Pic) {
    var ports := [primary.command, primary.data, secondary.command, secondary.data];
    forall i, j :: 0 <= i < j < |ports| ==> ports[i] != ports[j]
  }

  /** With the kernel's offsets a vector belongs to the chain exactly when it lies in 32..47. */
  lemma KernelChainRange(id: Byte)
    ensures ChainHandles(PrimaryPic, SecondaryPic, id) <==> 32 <= id < 48
    ensures Handles(SecondaryPic, id) <==> 40 <= id < 48
    ensures Handles(PrimaryPic, id) <==> 32 <= id < 40
  {
  }

  /** The EOI writes for the kernel's controllers, by vector range. */
  lemma KernelEoiWrites(id: Byte)
    ensures 40 <= id < 48 ==> EoiWrites(PrimaryPic, SecondaryPic, id) == [PortWrite(0xA0, 0x20), PortWrite(0x20, 0x20)]
    ensures 32 <= id < 40 ==> EoiWrites(PrimaryPic, SecondaryPic, id) == [PortWrite(0x20, 0x20)]
    ensures !(32 <= id < 48) ==> EoiWrites(PrimaryPic, SecondaryPic, id) == []
  {
    KernelChainRange(id);
  }

  /** The bytes one step of the sequence sends to `port`. */
  lemma WritesToBothPorts(primaryPort: nat, primaryByte: Byte, secondaryPort: nat, secondaryByte: Byte, port: nat)
    ensures WritesTo(BothPorts(primaryPort, primaryByte, secondaryPort, secondaryByte), port)
      == (if primaryPort == port then [primaryByte] else []) + (if secondaryPort == port then [secondaryByte] else [])
  {
    var log := BothPorts(primaryPort, primaryByte, secondaryPort, secondaryByte);
    assert log[1..][1..] == [];
  }

  /** The bytes `initialize` sends to any one port, step by step. */
  lemma InitWritesAt(primary: Pic, secondary: Pic, savedMask1: Byte, savedMask2: Byte, port: nat)
    ensures WritesTo(InitWrites(primary, secondary, savedMask1, savedMask2), port)
      == WritesTo(BothPorts(primary.command, CmdInit, secondary.command, CmdInit), port)
       + (WritesTo(BothPorts(primary.data, primary.offset, secondary.data, secondary.offset), port)
       + (WritesTo(BothPorts(primary.data, CascadePrimary, secondary.data, CascadeSecondary), port)
       + (WritesTo(BothPorts(primary.data, Mode8086, secondary.data, Mode8086), port)
       + WritesTo(BothPorts(primary.data, savedMask1, secondary.data, savedMask2), port))))
  {
    var s0 := BothPorts(primary.command, CmdInit, secondary.command, CmdInit);
    var s1 := BothPorts(primary.data, primary.offset, secondary.data, secondary.offset);
    var s2 := BothPorts(primary.data, CascadePrimary, secondary.data, CascadeSecondary);
    var s3 := BothPorts(primary.data, Mode8086, secondary.data, Mode8086);
    var s4 := BothPorts(primary.data, savedMask1, secondary.data, savedMask2);
    WritesToAppend(s3, s4, port);
    WritesToAppend(s2, s3 + s4, port);
    WritesToAppend(s1, s2 + (s3 + s4), port);
    WritesToAppend(s0, s1 + (s2 + (s3 + s4)), port);
  }

  /**
   * What each port receives during `initialize`: the command ports only ICW1, the
   * data ports ICW2, ICW3 and ICW4 and then the saved mask.
   */
  lemma InitWritesPerPort(primary: Pic, secondary: Pic, savedMask1: Byte, savedMask2: Byte)
    requires DistinctPorts(primary, secondary)
    ensures WritesTo(InitWrites(primary, secondary, savedMask1, savedMask2), primary.command) == [CmdInit]
    ensures WritesTo(InitWrites(primary, secondary, savedMask1, savedMask2), secondary.command) == [CmdInit]
    ensures WritesTo(InitWrites(primary, secondary, savedMask1, savedMask2), primary.data)
      == [primary.offset, CascadePrimary, Mode8086, savedMask1]
    ensures WritesTo(InitWrites(primary, secondary, savedMask1, savedMask2), secondary.data)
      == [secondary.offset, CascadeSecondary, Mode8086, savedMask2]
  {
    var ports := [primary.command, primary.data, secondary.command, secondary.data];
    assert ports[0] != ports[1] && ports[0] != ports[2] && ports[0] != ports[3];
    assert ports[1] != ports[2] && ports[1] != ports[3] && ports[2] != ports[3];
    forall port | port in ports
      ensures WritesTo(BothPorts(primary.command, CmdInit, secondary.command, CmdInit), port)
        == (if primary.command == port then [CmdInit] else []) + (if secondary.command == port then [CmdInit] else [])
      ensures WritesTo(BothPorts(primary.data, primary.offset, secondary.data, secondary.offset), port)
        == (if primary.data == port then [primary.offset] else []) + (if secondary.data == port then [secondary.offset] else [])
      ensures WritesTo(BothPorts(primary.data, CascadePrimary, secondary.data, CascadeSecondary), port)
        == (if primary.data == port then [CascadePrimary] else []) + (if secondary.data == port then [CascadeSecondary] else [])
      ensures WritesTo(BothPorts(primary.data, Mode8086, secondary.data, Mode8086), port)
        == (if primary.data == port then [Mode8086] else []) + (if secondary.data == port then [Mode8086] else [])
      ensures WritesTo(BothPorts(primary.data, savedMask1, secondary.data, savedMask2), port)
        == (if primary.data == port then [savedMask1] else []) + (if secondary.data == port then [savedMask2] else [])
    {
      WritesToBothPorts(primary.command, CmdInit, secondary.command, CmdInit, port);
      WritesToBothPorts(primary.data, primary.offset, secondary.data, secondary.offset, port);
      WritesToBothPorts(primary.data, CascadePrimary, secondary.data, CascadeSecondary, port);
      WritesToBothPorts(primary.data, Mode8086, secondary.data, Mode8086, port);
      WritesToBothPorts(primary.data, savedMask1, secondary.data, savedMask2, port);
    }
    InitWritesAt(primary, secondary, savedMask1, savedMask2, primary.command);
    InitWritesAt(primary, secondary, savedMask1, savedMask2, secondary.command);
    InitWritesAt(primary, secondary, savedMask1, savedMask2, primary.data);
    InitWritesAt(primary, secondary, savedMask1, savedMask2, secondary.data);
  }

  /** `initialize` leaves in both mask registers the masks that were read when it began. */
  lemma InitRestoresMasks(log: seq<PortWrite>, primary: Pic, secondary: Pic, savedMask1: Byte, savedMask2: Byte)
    requires DistinctPorts(primary, secondary)
    ensures LastWriteTo(log + InitWrites(primary, secondary, savedMask1, savedMask2), primary.data) == Some(savedMask1)
    ensures LastWriteTo(log + InitWrites(primary, secondary, savedMask1, savedMask2), secondary.data) == Some(savedMask2)
  {
    var init := InitWrites(primary, secondary, savedMask1, savedMask2);
    assert primary.data != secondary.data by {
      var ports := [primary.command, primary.data, secondary.command, secondary.data];
      assert ports[1] != ports[3];
    }
    assert init[8].port == primary.data && init[9].port == secondary.data;
    LastWriteToSuffix(log, init, primary.data);
    LastWriteToSuffix(log, init, secondary.data);
    assert init[..9][8].port == primary.data;
  }

  /** After `write_masks` the two mask registers hold exactly the masks written. */
  lemma MaskWritesSet(log: seq<PortWrite>, primary: Pic, secondary: Pic, mask1: Byte, mask2: Byte)
    requires primary.data != secondary.data
    ensures LastWriteTo(log + MaskWrites(primary, secondary, mask1, mask2), primary.data) == Some(mask1)
    ensures LastWriteTo(log + MaskWrites(primary, secondary, mask1, mask2), secondary.data) == Some(mask2)
  {
    var masks := MaskWrites(primary, secondary, mask1, mask2);
    assert masks[0].port == primary.data && masks[1].port == secondary.data;
    LastWriteToSuffix(log, masks, primary.data);
    LastWriteToSuffix(log, masks, secondary.data);
    assert masks[..1] == [PortWrite(primary.data, mask1)];
  }

  /** `ChainedPics`: the primary and the secondary controller. */
  class ChainedPics {
    const primary: Pic
    const secondary: Pic

    /** `ChainedPics::new`: the primary on ports 0x20/0x21, the secondary on 0xA0/0xA1. */
    constructor (offset1: Byte, offset2: Byte)
      ensures primary == Pic(offset1, 0x20, 0x21) && secondary == Pic(offset2, 0xA0, 0xA1)
      ensures DistinctPorts(primary, secondary)
    {
      primary := Pic(offset1, 0x20, 0x21);
      secondary := Pic(offset2, 0xA0, 0xA1);
    }

    /** `handles_interrupt`: some IRQ line of one of the two controllers raises the vector. */
    function HandlesInterrupt(id: Byte): (b: bool)
      ensures b <==> exists line :: 0 <= line < 8 && (Vector(primary, line) == id || Vector(secondary, line) == id)
    {
      ChainHandles(primary, secondary, id)
    }

    /** `initialize`, given the masks its opening reads of the data ports return. */
    method Initialize(bus: PortBus, savedMask1: Byte, savedMask2: Byte)
      modifies bus
      ensures bus.log == old(bus.log) + InitWrites(primary, secondary, savedMask1, savedMask2)
    {
      bus.Write(primary.command, CmdInit);
      bus.Write(secondary.command, CmdInit);
      bus.Write(primary.data, primary.offset);
      bus.Write(secondary.data, secondary.offset);
      bus.Write(primary.data, CascadePrimary);
      bus.Write(secondary.data, CascadeSecondary);
      bus.Write(primary.data, Mode8086);
      bus.Write(secondary.data, Mode8086);
      bus.Write(primary.data, savedMask1);
      bus.Write(secondary.data, savedMask2);
    }

    /** `write_masks`. */
    method WriteMasks(bus: PortBus, mask1: Byte, mask2: Byte)
      modifies bus
      ensures bus.log == old(bus.log) + MaskWrites(primary, secondary, mask1, mask2)
    {
      bus.Write(primary.data, mask1);
      bus.Write(secondary.data, mask2);
    }

    /** `disable`: masks every line of both controllers. */
    method Disable(bus: PortBus)
      modifies bus
      ensures bus.log == old(bus.log) + MaskWrites(primary, secondary, 0xFF, 0xFF)
    {
      bus.Write(primary.data, 0xFF);
      bus.Write(secondary.data, 0xFF);
    }

    /** `notify_end_of_interrupt`. */
    method NotifyEndOfInterrupt(bus: PortBus, id: Byte)
      modifies bus
      ensures bus.log == old(bus.log) + EoiWrites(primary, secondary, id)
    {
      if HandlesInterrupt(id) {
        if Handles(secondary, id) {
          bus.Write(secondary.command, CmdEndOfInterrupt);
        }
        bus.Write(primary.command, CmdEndOfInterrupt);
      }
    }
  }

  /** The kernel's controllers: programmed, then masks restored; the keyboard vector is acknowledged at the primary only. */
  method KernelPicScenario()
  {
    var bus := new PortBus();
    var pics := new ChainedPics(Pic1Offset, Pic2Offset);
    pics.Initialize(bus, 0xB8, 0x8E);
    InitRestoresMasks([], pics.primary, pics.secondary, 0xB8, 0x8E);
    assert LastWriteTo(bus.log, 0x21) == Some(0xB8);
    var before := bus.log;
    pics.NotifyEndOfInterrupt(bus, 33);
    KernelEoiWrites(33);
    assert bus.log == before + [PortWrite(0x20, 0x20)];
    pics.NotifyEndOfInterrupt(bus, 44);
    KernelEoiWrites(44);
    assert bus.log == before + [PortWrite(0x20, 0x20), PortWrite(0xA0, 0x20), PortWrite(0x20, 0x20)];
  }
}
