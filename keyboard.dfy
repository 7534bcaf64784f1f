/**
 * The PS/2 keyboard driver (src/drivers/keyboard.rs): scan code set 1 translation
 * through a fixed US-layout table, press/release decoding, the enable and disable
 * commands, and the interrupt handler.
 */
module KeyboardDriver {
  import opened Wrappers
  import opened Machine
  import opened Drivers
  import Pic8259

  /** The controller's data port (scan codes arrive here) and command port. */
  const DataPort: nat := 0x60
  const CommandPort: nat := 0x64

  /** Enable and disable scanning. */
  const EnableScanning: Byte := 0xF4
  const DisableScanning: Byte := 0xF5

  /** Bit 7 of a set 1 scan code marks a key release ("break" code). */
  const ReleaseBit: Byte := 0x80

  /**
   * The translation table, indexed by scan code 0x00 .. 0x39 and written here eight
   * codes per row. Escape (0x01) is given a space, like the space bar (0x39); keys
   * without a character are None.
   */
  const AsciiMap: seq<Option<char>> :=
    /* 0x00 */ [None, Some(' '), Some('1'), Some('2'), Some('3'), Some('4'), Some('5'), Some('6')]
    /* 0x08 */ + [Some('7'), Some('8'), Some('9'), Some('0'), Some('-'), Some('='), None, None]
    /* 0x10 */ + [Some('q'), Some('w'), Some('e'), Some('r'), Some('t'), Some('y'), Some('u'), Some('i')]
    /* 0x18 */ + [Some('o'), Some('p'), Some('['), Some(']'), None, None, Some('a'), Some('s')]
    /* 0x20 */ + [Some('d'), Some('f'), Some('g'), Some('h'), Some('j'), Some('k'), Some('l'), Some(';')]
    /* 0x28 */ + [Some('\''), Some('`'), None, Some('\\'), Some('z'), Some('x'), Some('c'), Some('v')]
    /* 0x30 */ + [Some('b'), Some('n'), Some('m'), Some(','), Some('.'), Some('/'), None, None]
    /* 0x38 */ + [None, Some(' ')]

  /** `scancode_to_ascii`: the table entry, or None past the end of the table. */
  function ScancodeToAscii(scancode: Byte): (r: Option<char>)
    ensures |AsciiMap| == 0x3A
    ensures scancode >= 0x3A ==> r == None
    ensures scancode < 0x3A ==> r == AsciiMap[scancode]
  {
    if scancode >= |AsciiMap| then None else AsciiMap[scancode]
  }

  /** The scan codes of keys that have no character: modifiers, Enter, Backspace, Tab, keypad `*`. */
  const Silent: set<Byte> := {0x00, 0x0E, 0x0F, 0x1C, 0x1D, 0x2A, 0x36, 0x37, 0x38}

  /** The digit row: 0x02 .. 0x0B give 1 .. 9 and 0, then 0x0C '-' and 0x0D '='. */
  lemma DigitRow()
    ensures forall i :: 0 <= i < 12 ==> ScancodeToAscii(0x02 + i) == Some("1234567890-="[i])
  {
  }

  /** The letter rows: 0x10 .. 0x19, 0x1E .. 0x26 and 0x2C .. 0x32 give the QWERTY letters. */
  lemma LetterRows()
    ensures forall i :: 0 <= i < 10 ==> ScancodeToAscii(0x10 + i) == Some("qwertyuiop"[i])
    ensures forall i :: 0 <= i < 9 ==> ScancodeToAscii(0x1E + i) == Some("asdfghjkl"[i])
    ensures forall i :: 0 <= i < 7 ==> ScancodeToAscii(0x2C + i) == Some("zxcvbnm"[i])
  {
  }

  /** A code translates to nothing exactly when it is a silent key or lies past the table. */
  lemma NoCharacterExactly(scancode: Byte)
    ensures ScancodeToAscii(scancode) == None <==> scancode in Silent || scancode >= 0x3A
  {
  }

  /** Only Escape and the space bar give a space. */
  lemma SpaceExactly(scancode: Byte)
    ensures ScancodeToAscii(scancode) == Some(' ') <==> scancode == 0x01 || scancode == 0x39
  {
  }

  /** A key transition: the key's make code and whether it went down. */
  datatype KeyEvent = KeyEvent(scancode: Byte, pressed: bool)

  /** The press/release split of `handle_keyboard_interrupt`. */
  function Decode(raw: Byte): (e: KeyEvent)
    ensures e.pressed <==> raw < ReleaseBit
    ensures e.scancode < ReleaseBit
    ensures e.scancode + (if e.pressed then 0 else ReleaseBit) == raw
  {
    var pressed := raw < ReleaseBit;
    KeyEvent(if pressed then raw else raw - ReleaseBit, pressed)
  }

  /** The release code of a key decodes to the same key as its press code, and they differ only in `pressed`. */
  lemma ReleaseMatchesPress(key: Byte)
    requires key < ReleaseBit
    ensures Decode(key) == KeyEvent(key, true)
    ensures Decode(key + ReleaseBit) == KeyEvent(key, false)
  {
  }

  /** Every code decodes, and two codes decoding alike are the same code. */
  lemma DecodeInjective(a: Byte, b: Byte)
    ensures Decode(a) == Decode(b) ==> a == b
  {
  }

  /** The character `handle_keyboard_interrupt` reports for a raw code, if any. */
  function Reported(raw: Byte): (r: Option<char>)
    ensures r.Some? <==> raw < ReleaseBit && ScancodeToAscii(raw).Some?
    ensures r.Some? ==> r == ScancodeToAscii(raw)
  {
    var event := Decode(raw);
    match ScancodeToAscii(event.scancode)
    case Some(c) => if event.pressed then Some(c) else None
    case None => None
  }

  /** `Ps2Keyboard`. */
  class Ps2Keyboard {
    var initialized: bool

    const name: string := "PS/2 Keyboard"

    /** `Ps2Keyboard::new`. */
    constructor ()
      ensures !initialized
    {
      initialized := false;
    }

    /** `send_command`: one byte to the controller's command port. */
    method SendCommand(command: Byte, bus: PortBus)
      modifies bus
      ensures bus.log == old(bus.log) + [PortWrite(CommandPort, command)]
    {
      bus.Write(CommandPort, command);
    }

    /** `init`: enables scanning. */
    method Init(bus: PortBus) returns (r: Result<(), DriverError>)
      modifies this, bus
      ensures r == Ok(()) && initialized
      ensures bus.log == old(bus.log) + [PortWrite(CommandPort, EnableScanning)]
    {
      SendCommand(EnableScanning, bus);
      initialized := true;
      r := Ok(());
    }

    /** `deinit`: disables scanning. */
    method Deinit(bus: PortBus) returns (r: Result<(), DriverError>)
      modifies this, bus
      ensures r == Ok(()) && !initialized
      ensures bus.log == old(bus.log) + [PortWrite(CommandPort, DisableScanning)]
    {
      SendCommand(DisableScanning, bus);
      initialized := false;
      r := Ok(());
    }

    /** `is_initialized`. */
    function IsInitialized(): (b: bool)
      reads this
      ensures b == initialized
    {
      initialized
    }
  }

  /**
   * `handle_keyboard_interrupt`, given the scan code its read of the data port returns:
   * reports the character of a pressed key that has one, and in every case
   * acknowledges vector 33 at the primary PIC.
   */
  method HandleKeyboardInterrupt(scancode: Byte, pics: Pic8259.ChainedPics, bus: PortBus) returns (reported: Option<char>)
    requires pics.primary == Pic8259.PrimaryPic && pics.secondary == Pic8259.SecondaryPic
    modifies bus
    ensures reported == Reported(scancode)
    ensures reported.Some? ==> scancode < ReleaseBit
    ensures bus.log == old(bus.log) + [PortWrite(0x20, 0x20)]
  {
    var event := Decode(scancode);
    reported := None;
    var ascii := ScancodeToAscii(event.scancode);
    if ascii.Some? && event.pressed {
      reported := ascii;
    }
    pics.NotifyEndOfInterrupt(bus, Pic8259.Pic1Offset + 1);
    Pic8259.KernelEoiWrites(Pic8259.Pic1Offset + 1);
  }

  /** Pressing and releasing Q: the press reports 'q', the release nothing. */
  method KeyScenario()
  {
    var bus := new PortBus();
    var pics := new Pic8259.ChainedPics(Pic8259.Pic1Offset, Pic8259.Pic2Offset);
    var down := HandleKeyboardInterrupt(0x10, pics, bus);
    assert down == Some('q');
    var up := HandleKeyboardInterrupt(0x90, pics, bus);
    assert up == None;
    assert bus.log == [PortWrite(0x20, 0x20), PortWrite(0x20, 0x20)];
  }
}
