/**
 * The Intel 8254 programmable interval timer and the tick clock built on it
 * (src/drivers/timer.rs).
 */
module TimerDriver {
  import opened Wrappers
  import opened Machine
  import opened Drivers
  import Pic8259

  /** The PIT's input clock in Hz. */
  const PitFrequency: nat := 1193182

  /** Mode/command port and channel 0 data port of the PIT. */
  const CommandPort: nat := 0x43
  const Channel0Port: nat := 0x40

  /** Channel 0, low byte then high byte, mode 3 (square wave), binary counting. */
  const SquareWaveCommand: Byte := 0x36
  /** Channel 0, low byte then high byte, mode 0: the command `deinit` sends. */
  const ResetCommand: Byte := 0x30

  /** The frequency `init` programs: one tick per millisecond. */
  const TickRate: Uint32 := 1000

  /** `1193182 / frequency`, the reload value for a given interrupt rate. */
  function Divisor(frequency: Uint32): nat
    requires frequency != 0
  {
    PitFrequency / frequency
  }

  /** The byte `divisor & 0xFF`. */
  function LowByte(divisor: nat): Byte {
    divisor % 256
  }

  /** The byte `(divisor >> 8) & 0xFF`. */
  function HighByte(divisor: nat): Byte {
    (divisor / 256) % 256
  }

  /** The two bytes sent reassemble the divisor modulo 2^16: the PIT drops higher bits. */
  lemma DivisorBytesRoundTrip(divisor: nat)
    ensures LowByte(divisor) + 256 * HighByte(divisor) == divisor % 65536
    ensures divisor < 65536 ==> LowByte(divisor) + 256 * HighByte(divisor) == divisor
  {
    var q, r := divisor / 256, divisor % 256;
    var t, h := q / 256, q % 256;
    assert divisor == 256 * q + r;
    assert q == 256 * t + h;
    SplitModulo(divisor, t, r + 256 * h);
  }

  /** Euclidean division by 2^16 is determined by quotient and remainder. */
  lemma SplitModulo(x: nat, t: nat, low: nat)
    requires x == 65536 * t + low && low < 65536
    ensures x % 65536 == low
  {
  }

  /** The divisor fits the 16-bit counter exactly when the frequency is at least 19 Hz. */
  lemma DivisorFits(frequency: Uint32)
    requires frequency != 0
    ensures Divisor(frequency) < 65536 <==> frequency >= 19
  {
    var d := Divisor(frequency);
    assert d * frequency <= PitFrequency < (d + 1) * frequency;
    if frequency >= 19 {
      if d >= 65536 {
        assert false;
      }
    } else {
      assert (d + 1) * frequency <= (d + 1) * 18;
      assert d >= 65536;
    }
  }

  /** At the boot rate the divisor is 1193, sent as 0xA9 and then 0x04. */
  lemma TickRateDivisor()
    ensures Divisor(TickRate) == 1193
    ensures LowByte(Divisor(TickRate)) == 0xA9 && HighByte(Divisor(TickRate)) == 0x04
  {
  }

  /** The writes of `configure`: the mode command, then the divisor low byte first. */
  function ConfigureWrites(frequency: Uint32): (r: seq<PortWrite>)
    requires frequency != 0
    ensures |r| == 3 && r[0] == PortWrite(CommandPort, SquareWaveCommand)
    ensures WritesTo(r, Channel0Port) == [LowByte(Divisor(frequency)), HighByte(Divisor(frequency))]
    ensures WritesTo(r, CommandPort) == [SquareWaveCommand]
  {
    var r := [PortWrite(CommandPort, SquareWaveCommand),
              PortWrite(Channel0Port, LowByte(Divisor(frequency))),
              PortWrite(Channel0Port, HighByte(Divisor(frequency)))];
    WritesToThree(r[0], r[1], r[2], Channel0Port);
    WritesToThree(r[0], r[1], r[2], CommandPort);
    r
  }

  /** The writes of `deinit`: mode 0 on channel 0 with a zero reload value. */
  function DeinitWrites(): (r: seq<PortWrite>)
    ensures |r| == 3 && r[0] == PortWrite(CommandPort, ResetCommand)
    ensures WritesTo(r, Channel0Port) == [0, 0]
    ensures WritesTo(r, CommandPort) == [ResetCommand]
  {
    var r := [PortWrite(CommandPort, ResetCommand), PortWrite(Channel0Port, 0), PortWrite(Channel0Port, 0)];
    WritesToThree(r[0], r[1], r[2], Channel0Port);
    WritesToThree(r[0], r[1], r[2], CommandPort);
    r
  }

  /** `PitTimer`. */
  class PitTimer {
    var initialized: bool
    var frequency: Uint32

    const name: string := "PIT Timer"

    /** `PitTimer::new`: unconfigured, frequency 0. */
    constructor ()
      ensures !initialized && frequency == 0
    {
      initialized := false;
      frequency := 0;
    }

    /** `configure`: stores the frequency and programs channel 0 with its divisor. */
    method Configure(newFrequency: Uint32, bus: PortBus)
      requires newFrequency != 0
      modifies this, bus
      ensures frequency == newFrequency && initialized == old(initialized)
      ensures bus.log == old(bus.log) + ConfigureWrites(newFrequency)
    {
      frequency := newFrequency;
      var divisor := PitFrequency / newFrequency;
      bus.Write(CommandPort, SquareWaveCommand);
      bus.Write(Channel0Port, divisor % 256);
      bus.Write(Channel0Port, (divisor / 256) % 256);
    }

    /** `frequency`. */
    function Frequency(): (f: Uint32)
      reads this
      ensures f == frequency
    {
      frequency
    }

    /** `init`: programs one tick per millisecond. */
    method Init(bus: PortBus) returns (r: Result<(), DriverError>)
      modifies this, bus
      ensures r == Ok(()) && initialized && frequency == TickRate
      ensures bus.log == old(bus.log) + ConfigureWrites(TickRate)
    {
      Configure(TickRate, bus);
      initialized := true;
      r := Ok(());
    }

    /** `deinit`: stops the periodic interrupt; the stored frequency stays. */
    method Deinit(bus: PortBus) returns (r: Result<(), DriverError>)
      modifies this, bus
      ensures r == Ok(()) && !initialized && frequency == old(frequency)
      ensures bus.log == old(bus.log) + DeinitWrites()
    {
      bus.Write(CommandPort, ResetCommand);
      bus.Write(Channel0Port, 0);
      bus.Write(Channel0Port, 0);
      initialized := false;
      r := Ok(());
    }

    /** `is_initialized`. */
    function IsInitialized(): (b: bool)
      reads this
      ensures b == initialized
    {
      initialized
    }
  }

  datatype SystemTime = SystemTime(seconds: Uint64, milliseconds: Uint32)

  /** The time of day after `ticks` one-millisecond ticks. */
  function TimeOf(ticks: Uint64): (t: SystemTime)
    ensures t.milliseconds < 1000
    ensures t.seconds * 1000 + t.milliseconds == ticks
  {
    SystemTime(ticks / 1000, ticks % 1000)
  }

  /** One more tick advances the millisecond field, carrying into the seconds at 1000. */
  lemma TickAdvancesTime(ticks: Uint64)
    requires ticks < Uint64Max
    ensures TimeOf(ticks).milliseconds < 999 ==>
      TimeOf(ticks + 1) == TimeOf(ticks).(milliseconds := TimeOf(ticks).milliseconds + 1)
    ensures TimeOf(ticks).milliseconds == 999 ==>
      TimeOf(ticks + 1) == SystemTime(TimeOf(ticks).seconds + 1, 0)
  {
    var t, u := TimeOf(ticks), TimeOf(ticks + 1);
    assert u.seconds * 1000 + u.milliseconds == t.seconds * 1000 + t.milliseconds + 1;
    if t.milliseconds < 999 {
      TimeUnique(u, t.(milliseconds := t.milliseconds + 1));
    } else {
      TimeUnique(u, SystemTime(t.seconds + 1, 0));
    }
  }

  /** A time with its milliseconds below 1000 is determined by its total of milliseconds. */
  lemma TimeUnique(a: SystemTime, b: SystemTime)
    requires a.milliseconds < 1000 && b.milliseconds < 1000
    requires a.seconds * 1000 + a.milliseconds == b.seconds * 1000 + b.milliseconds
    ensures a == b
  {
  }

  /** `SystemTimer`: the tick counter and the PIT that drives it. */
  class SystemTimer {
    var ticks: Uint64
    const timer: PitTimer

    /** `SystemTimer::new`: no ticks, unconfigured PIT. */
    constructor ()
      ensures ticks == 0 && fresh(timer) && !timer.initialized && timer.frequency == 0
    {
      ticks := 0;
      timer := new PitTimer();
    }

    /** `init`: starts the PIT at one tick per millisecond and restarts the count. */
    method Init(bus: PortBus) returns (r: Result<(), DriverError>)
      modifies this, timer, bus
      ensures r == Ok(()) && ticks == 0
      ensures timer.initialized && timer.frequency == TickRate
      ensures bus.log == old(bus.log) + ConfigureWrites(TickRate)
    {
      r := timer.Init(bus);
      ticks := 0;
    }

    /** `handle_tick`: one more tick, nothing else. */
    method HandleTick()
      requires ticks < Uint64Max
      modifies this
      ensures ticks == old(ticks) + 1
    {
      ticks := ticks + 1;
    }

    /** `ticks`. */
    function Ticks(): (n: Uint64)
      reads this
      ensures n == ticks
    {
      ticks
    }

    /** `time`: whole seconds and the remaining milliseconds since boot. */
    function Time(): (t: SystemTime)
      reads this
      ensures t.milliseconds < 1000
      ensures t.seconds * 1000 + t.milliseconds == ticks
    {
      TimeOf(ticks)
    }
  }

  /** `handle_timer_interrupt`: counts the tick and acknowledges vector 32 at the primary PIC. */
  method HandleTimerInterrupt(clock: SystemTimer, pics: Pic8259.ChainedPics, bus: PortBus)
    requires clock.ticks < Uint64Max
    requires pics.primary == Pic8259.PrimaryPic && pics.secondary == Pic8259.SecondaryPic
    modifies clock, bus
    ensures clock.ticks == old(clock.ticks) + 1
    ensures bus.log == old(bus.log) + [PortWrite(0x20, 0x20)]
  {
    clock.HandleTick();
    pics.NotifyEndOfInterrupt(bus, Pic8259.Pic1Offset);
    Pic8259.KernelEoiWrites(Pic8259.Pic1Offset);
  }

  /** Boot programs 0x36, 0xA9, 0x04; after 1500 ticks the clock reads 1 s 500 ms. */
  method ClockScenario()
  {
    var bus := new PortBus();
    var clock := new SystemTimer();
    var r := clock.Init(bus);
    TickRateDivisor();
    assert bus.log == [PortWrite(0x43, 0x36), PortWrite(0x40, 0xA9), PortWrite(0x40, 0x04)];
    var k := 0;
    while k < 1500
      invariant 0 <= k <= 1500 && clock.ticks == k
    {
      clock.HandleTick();
      k := k + 1;
    }
    assert clock.Time() == SystemTime(1, 500);
  }
}
