/**
 * The generic storage driver and the storage manager (src/drivers/storage.rs).
 * Reads are simulated by filling the caller's buffer with a byte pattern; writes
 * only validate and count.
 */
module Storage {
  import opened Wrappers
  import opened Machine
  import opened Drivers

  datatype StorageType = Ahci | Nvme | UsbMassStorage | Virtual | Unknown

  datatype StorageConfig = StorageConfig(
    deviceId: DeviceId,
    storageType: StorageType,
    sectorSize: Uint32,
    totalSectors: Uint64,
    readOnly: bool)

  datatype StorageError =
    | DeviceNotReady
    | InvalidSector(sector: nat)
    | ReadFailed
    | WriteFailed
    | ReadOnlyDevice
    | SectorSizeMismatch
    | Timeout
    | IoError(msg: string)

  /** `init` accepts a configuration only when both its sector size and its sector count are nonzero. */
  predicate ConfigAcceptable(c: StorageConfig) {
    c.sectorSize != 0 && c.totalSectors != 0
  }

  /**
   * The checks `read_sectors` makes before touching the buffer, in their order:
   * a configuration must be present, the start sector must lie on the device, the
   * whole range must fit, and the buffer must hold `count` sectors. On success the
   * value is the number of bytes to transfer.
   */
  function CheckTransfer(config: Option<StorageConfig>, start: nat, count: nat, bufferLength: nat): (r: Result<nat, StorageError>)
    ensures r == Err(DeviceNotReady) <==> config.None?
    ensures r == Err(InvalidSector(start)) <==> config.Some? && start >= config.value.totalSectors
    ensures r.Err? && r.error == InvalidSector(start + count) && count != 0 <==>
      config.Some? && start < config.value.totalSectors < start + count
    ensures r == Err(SectorSizeMismatch) <==>
      && config.Some? && start + count <= config.value.totalSectors
      && bufferLength < count * config.value.sectorSize
    ensures r.Ok? <==>
      && config.Some? && start < config.value.totalSectors
      && start + count <= config.value.totalSectors
      && count * config.value.sectorSize <= bufferLength
    ensures r.Ok? ==> r.value == count * config.value.sectorSize
    ensures r.Err? ==> r.error.DeviceNotReady? || r.error.InvalidSector? || r.error.SectorSizeMismatch?
  {
    match config
    case None => Err(DeviceNotReady)
    case Some(c) =>
      if start >= c.totalSectors then Err(InvalidSector(start))
      else if start + count > c.totalSectors then Err(InvalidSector(start + count))
      else if bufferLength < count * c.sectorSize then Err(SectorSizeMismatch)
      else Ok(count * c.sectorSize)
  }

  /** The checks of `write_sectors`: as for a read, with the read-only test right after the presence test. */
  function CheckWrite(config: Option<StorageConfig>, start: nat, count: nat, bufferLength: nat): (r: Result<nat, StorageError>)
    ensures config.None? ==> r == Err(DeviceNotReady)
    ensures config.Some? && config.value.readOnly ==> r == Err(ReadOnlyDevice)
    ensures config.Some? && !config.value.readOnly ==> r == CheckTransfer(config, start, count, bufferLength)
    ensures r.Ok? ==> config.Some? && !config.value.readOnly
  {
    match config
    case None => Err(DeviceNotReady)
    case Some(c) =>
      if c.readOnly then Err(ReadOnlyDevice)
      else CheckTransfer(config, start, count, bufferLength)
  }

  /** A read-only device refuses every write, whatever the range and the buffer. */
  lemma ReadOnlyRefusesAllWrites(c: StorageConfig, start: nat, count: nat, bufferLength: nat)
    requires c.readOnly
    ensures CheckWrite(Some(c), start, count, bufferLength) == Err(ReadOnlyDevice)
    ensures CheckTransfer(Some(c), start, count, bufferLength).Ok? ==> CheckWrite(Some(c), start, count, bufferLength).Err?
  {
  }

  /** The statistics after a successful transfer of `bytes` bytes. */
  function Transferred(s: DriverStats, bytes: nat): (r: DriverStats)
    ensures r.bytesTransferred == s.bytesTransferred + bytes
    ensures r.operationsCompleted == s.operationsCompleted + 1
    ensures r.(bytesTransferred := s.bytesTransferred, operationsCompleted := s.operationsCompleted) == s
  {
    s.(bytesTransferred := s.bytesTransferred + bytes, operationsCompleted := s.operationsCompleted + 1)
  }

  /** `GenericStorageDriver`. */
  class GenericStorageDriver {
    var config: Option<StorageConfig>
    var initialized: bool
    var stats: DriverStats

    const name: string := "Generic Storage Driver"
    const version: string := "1.0.0"

    /** A driver is initialized exactly when it holds a configuration, and that one was accepted. */
    ghost predicate Valid()
      reads this
    {
      && (initialized <==> config.Some?)
      && (config.Some? ==> ConfigAcceptable(config.value))
    }

    /** `GenericStorageDriver::new`. */
    constructor ()
      ensures Valid() && config == None && !initialized && stats == DefaultStats()
    {
      config := None;
      initialized := false;
      stats := DefaultStats();
    }

    /** `init`: rejects a zero sector size or count and then changes nothing; otherwise stores the configuration. */
    method Init(newConfig: StorageConfig) returns (r: Result<(), DriverError>)
      requires Valid()
      modifies this
      ensures Valid()
      ensures !ConfigAcceptable(newConfig) ==>
        r == Err(InvalidConfiguration) && config == old(config) && initialized == old(initialized)
      ensures ConfigAcceptable(newConfig) ==> r == Ok(()) && config == Some(newConfig) && initialized
      ensures stats == old(stats)
    {
      if newConfig.sectorSize == 0 || newConfig.totalSectors == 0 {
        return Err(InvalidConfiguration);
      }
      config := Some(newConfig);
      initialized := true;
      r := Ok(());
    }

    /** `deinit`: forgets the configuration. */
    method Deinit() returns (r: Result<(), DriverError>)
      requires Valid()
      modifies this
      ensures Valid()
      ensures r == Ok(()) && !initialized && config == None && stats == old(stats)
    {
      initialized := false;
      config := None;
      r := Ok(());
    }

    /** `is_initialized`. */
    function IsInitialized(): (b: bool)
      requires Valid()
      reads this
      ensures b <==> config.Some?
    {
      initialized
    }

    /** `handle_interrupt`: counts the interrupt and nothing else. */
    method HandleInterrupt(irq: Uint32) returns (r: Result<(), DriverError>)
      modifies this
      ensures r == Ok(())
      ensures config == old(config) && initialized == old(initialized)
      ensures stats == old(stats).(interruptsHandled := old(stats).interruptsHandled + 1)
    {
      stats := stats.(interruptsHandled := stats.interruptsHandled + 1);
      r := Ok(());
    }

    /** `get_stats`. */
    function GetStats(): (s: DriverStats)
      reads this
      ensures s == stats
    {
      stats
    }

    /** `reset`: fails exactly when the driver is not initialized, and changes nothing. */
    method Reset() returns (r: Result<(), DriverError>)
      requires Valid()
      ensures r.Err? <==> config.None?
      ensures r.Err? ==> r.error == InitializationFailed("Driver not initialized")
    {
      if !initialized {
        return Err(InitializationFailed("Driver not initialized"));
      }
      r := Ok(());
    }

    /**
     * `read_sectors`: after the checks of `CheckTransfer`, sets byte `i` of the buffer to
     * `i mod 256` for every `i` below `count * sectorSize`, leaves the rest of the buffer as
     * it was, and counts the bytes and the operation. A failed check changes nothing.
     */
    method ReadSectors(start: Uint64, count: Uint32, buffer: array<Byte>) returns (r: Result<(), StorageError>)
      requires Valid()
      requires config.Some? && start < config.value.totalSectors ==> start + count <= Uint64Max
      modifies this, buffer
      ensures Valid() && config == old(config) && initialized == old(initialized)
      ensures var check := CheckTransfer(old(config), start, count, buffer.Length);
        && (check.Err? ==> r == Err(check.error) && stats == old(stats) && buffer[..] == old(buffer[..]))
        && (check.Ok? ==> r == Ok(()) && stats == Transferred(old(stats), check.value))
        && (check.Ok? ==> forall i :: 0 <= i < check.value ==> buffer[i] == i % 256)
        && (check.Ok? ==> forall i :: check.value <= i < buffer.Length ==> buffer[i] == old(buffer[i]))
    {
      var check := CheckTransfer(config, start, count, buffer.Length);
      if check.Err? {
        return Err(check.error);
      }
      var expected := check.value;
      var i := 0;
      while i < expected
        invariant 0 <= i <= expected <= buffer.Length
        invariant forall j :: 0 <= j < i ==> buffer[j] == j % 256
        invariant forall j :: i <= j < buffer.Length ==> buffer[j] == old(buffer[j])
        invariant config == old(config) && initialized == old(initialized) && stats == old(stats)
      {
        buffer[i] := i % 256;
        i := i + 1;
      }
      stats := Transferred(stats, expected);
      r := Ok(());
    }

    /**
     * `write_sectors`: after the checks of `CheckWrite` only counts the bytes and the
     * operation; the data itself goes nowhere. A failed check changes nothing.
     */
    method WriteSectors(start: Uint64, count: Uint32, buffer: seq<Byte>) returns (r: Result<(), StorageError>)
      requires Valid()
      requires config.Some? && !config.value.readOnly && start < config.value.totalSectors ==> start + count <= Uint64Max
      modifies this
      ensures Valid() && config == old(config) && initialized == old(initialized)
      ensures var check := CheckWrite(old(config), start, count, |buffer|);
        && (check.Err? ==> r == Err(check.error) && stats == old(stats))
        && (check.Ok? ==> r == Ok(()) && stats == Transferred(old(stats), check.value))
    {
      var check := CheckWrite(config, start, count, |buffer|);
      if check.Err? {
        return Err(check.error);
      }
      stats := Transferred(stats, check.value);
      r := Ok(());
    }

    /** `get_sector_count`: 0 when unconfigured. */
    function SectorCount(): (n: Uint64)
      reads this
      ensures config.None? ==> n == 0
      ensures config.Some? ==> n == config.value.totalSectors
    {
      match config
      case None => 0
      case Some(c) => c.totalSectors
    }

    /** `get_sector_size`: 512 when unconfigured. */
    function SectorSize(): (n: Uint32)
      reads this
      ensures config.None? ==> n == 512
      ensures config.Some? ==> n == config.value.sectorSize
    {
      match config
      case None => 512
      case Some(c) => c.sectorSize
    }

    /** `is_read_only`: an unconfigured driver counts as read-only. */
    function IsReadOnly(): (b: bool)
      reads this
      ensures config.None? ==> b
      ensures config.Some? ==> b == config.value.readOnly
    {
      match config
      case None => true
      case Some(c) => c.readOnly
    }

    /** `flush`: fails exactly when the driver is not initialized, and changes nothing. */
    method Flush() returns (r: Result<(), StorageError>)
      requires Valid()
      ensures r.Err? <==> config.None?
      ensures r.Err? ==> r.error == DeviceNotReady
    {
      if !initialized {
        return Err(DeviceNotReady);
      }
      r := Ok(());
    }
  }

  /** An unconfigured driver holds nothing: every transfer and every write is refused with `DeviceNotReady`. */
  lemma UnconfiguredRefusesEverything(start: nat, count: nat, bufferLength: nat)
    ensures CheckTransfer(None, start, count, bufferLength) == Err(DeviceNotReady)
    ensures CheckWrite(None, start, count, bufferLength) == Err(DeviceNotReady)
  {
  }

  /** The capacity in bytes of a list of drivers: the sum of sector count times sector size. */
  function CapacityOf(ds: seq<GenericStorageDriver>): nat
    reads set d | d in ds
  {
    if ds == [] then 0
    else CapacityOf(ds[..|ds| - 1]) + ds[|ds| - 1].SectorCount() * ds[|ds| - 1].SectorSize()
  }

  /** The capacity of two lists of drivers side by side is the sum of their capacities. */
  lemma {:induction false} CapacityOfConcat(a: seq<GenericStorageDriver>, b: seq<GenericStorageDriver>)
    ensures CapacityOf(a + b) == CapacityOf(a) + CapacityOf(b)
    decreases |b|
  {
    if b == [] {
      assert a + b == a;
    } else {
      var front := b[..|b| - 1];
      assert (a + b)[..|a + b| - 1] == a + front;
      assert (a + b)[|a + b| - 1] == b[|b| - 1];
      CapacityOfConcat(a, front);
    }
  }

  /** Every driver's own capacity is part of the total of a list that holds it. */
  lemma CapacityOfBounds(ds: seq<GenericStorageDriver>)
    ensures forall i :: 0 <= i < |ds| ==> ds[i].SectorCount() * ds[i].SectorSize() <= CapacityOf(ds)
  {
    forall i | 0 <= i < |ds| ensures ds[i].SectorCount() * ds[i].SectorSize() <= CapacityOf(ds) {
      assert ds == (ds[..i] + [ds[i]]) + ds[i + 1..];
      CapacityOfConcat(ds[..i] + [ds[i]], ds[i + 1..]);
      CapacityOfConcat(ds[..i], [ds[i]]);
      assert CapacityOf([ds[i]]) == ds[i].SectorCount() * ds[i].SectorSize();
    }
  }

  /** Unconfigured drivers contribute nothing to the total capacity. */
  lemma {:induction false} CapacityOfUnconfigured(ds: seq<GenericStorageDriver>)
    requires forall i :: 0 <= i < |ds| ==> ds[i].config.None?
    ensures CapacityOf(ds) == 0
  {
    if ds != [] {
      CapacityOfUnconfigured(ds[..|ds| - 1]);
    }
  }

  /** `StorageManager`: the list of storage devices. */
  class StorageManager {
    var devices: seq<GenericStorageDriver>

    /** `StorageManager::new`. */
    constructor ()
      ensures devices == []
    {
      devices := [];
    }

    /** `add_device`: appends the device, adding one to the count and its capacity to the total. */
    method AddDevice(device: GenericStorageDriver)
      modifies this
      ensures devices == old(devices) + [device]
      ensures DeviceCount() == old(DeviceCount()) + 1
      ensures TotalCapacity() == old(TotalCapacity()) + device.SectorCount() * device.SectorSize()
    {
      CapacityOfConcat(devices, [device]);
      assert CapacityOf([device]) == device.SectorCount() * device.SectorSize();
      devices := devices + [device];
    }

    /** `device_count`. */
    function DeviceCount(): (n: nat)
      reads this
      ensures n == |devices|
    {
      |devices|
    }

    /** `total_capacity`: sector count times sector size, summed over the devices. */
    function TotalCapacity(): (n: nat)
      reads this, set d | d in devices
      ensures devices == [] ==> n == 0
      ensures forall i :: 0 <= i < |devices| ==> devices[i].SectorCount() * devices[i].SectorSize() <= n
    {
      CapacityOfBounds(devices);
      CapacityOf(devices)
    }
  }

  /** The configuration of the virtual disk `init_storage` sets up: 1 Mi sectors of 512 bytes, writable. */
  const VirtualDiskConfig := StorageConfig(1, Virtual, 512, 1024 * 1024, false)

  /** `init_storage`: configures one virtual disk and files it with the manager. */
  method InitStorage(manager: StorageManager) returns (r: Result<(), DriverError>, disk: GenericStorageDriver)
    modifies manager
    ensures r == Ok(()) && fresh(disk)
    ensures disk.Valid() && disk.config == Some(VirtualDiskConfig) && disk.stats == DefaultStats()
    ensures manager.devices == old(manager.devices) + [disk]
    ensures manager.TotalCapacity() == old(manager.TotalCapacity()) + 512 * 1024 * 1024
  {
    disk := new GenericStorageDriver();
    r := disk.Init(VirtualDiskConfig);
    manager.AddDevice(disk);
  }

  /** A read on the virtual disk fills the pattern; after `deinit` the same read is refused. */
  method VirtualDiskScenario()
  {
    var manager := new StorageManager();
    var r, disk := InitStorage(manager);
    var buffer := new Byte[1024];
    var read := disk.ReadSectors(0, 2, buffer);
    assert read == Ok(());
    assert buffer[300] == 44;
    var tooFar := disk.ReadSectors(1024 * 1024 - 1, 2, buffer);
    assert tooFar == Err(InvalidSector(1024 * 1024 + 1));
    var gone := disk.Deinit();
    var refused := disk.ReadSectors(0, 1, buffer);
    assert refused == Err(DeviceNotReady);
    var last := disk.ReadSectors(Uint64Max, 1, buffer);
    assert last == Err(DeviceNotReady);
    var lastWrite := disk.WriteSectors(Uint64Max, 1, []);
    assert lastWrite == Err(DeviceNotReady);
    var flushed := disk.Flush();
    assert flushed == Err(DeviceNotReady);
  }
}
