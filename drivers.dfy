/**
 * The device driver framework (src/drivers/mod.rs): driver errors and statistics,
 * device descriptors and the device manager, a registry keyed by ids issued from a
 * counter that only grows.
 */
module Drivers {
  import opened Wrappers

  /** `DeviceId` is a `u64`. */
  type DeviceId = nat

  datatype DriverError =
    | InitializationFailed(msg: string)
    | DeviceNotPresent
    | IoError(msg: string)
    | UnsupportedOperation
    | InvalidConfiguration
    | ResourceAllocationFailed
    | InterruptHandlingFailed
    | Timeout
    | HardwareError(msg: string)

  datatype DriverStats = DriverStats(
    interruptsHandled: nat,
    errorsEncountered: nat,
    bytesTransferred: nat,
    operationsCompleted: nat,
    lastError: Option<nat>)

  /** `DriverStats::default`: all counters zero and no error recorded. */
  function DefaultStats(): (s: DriverStats)
    ensures s.interruptsHandled == 0 && s.errorsEncountered == 0
    ensures s.bytesTransferred == 0 && s.operationsCompleted == 0
    ensures s.lastError == None
  {
    DriverStats(0, 0, 0, 0, None)
  }

  datatype DeviceType =
    | Keyboard | Mouse | TouchScreen | Timer | Storage | Network | Audio | Graphics | Serial | Unknown

  datatype DeviceDescriptor = DeviceDescriptor(
    id: DeviceId,
    deviceType: DeviceType,
    name: string,
    vendor: string,
    version: string,
    capabilities: seq<string>,
    initialized: bool)

  /** The descriptor `register_device` files: version 1.0.0, no capabilities, not initialized. */
  function NewDescriptor(id: DeviceId, t: DeviceType, name: string, vendor: string): (d: DeviceDescriptor)
    ensures d.id == id && d.deviceType == t && d.name == name && d.vendor == vendor
    ensures d.version == "1.0.0" && d.capabilities == [] && !d.initialized
  {
    DeviceDescriptor(id, t, name, vendor, "1.0.0", [], false)
  }

  /**
   * The devices of type `t` among ids `0 .. bound-1`, in ascending id order: the
   * filter of `values()` over a map whose keys all lie below `bound`.
   */
  function OfTypeBelow(m: map<DeviceId, DeviceDescriptor>, t: DeviceType, bound: nat): seq<DeviceDescriptor> {
    if bound == 0 then []
    else
      var k := bound - 1;
      OfTypeBelow(m, t, k) + (if k in m && m[k].deviceType == t then [m[k]] else [])
  }

  /** Every listed device is filed in the map, under an id below the bound, with type `t`. */
  lemma {:induction false} OfTypeBelowSound(m: map<DeviceId, DeviceDescriptor>, t: DeviceType, bound: nat)
    ensures forall i :: 0 <= i < |OfTypeBelow(m, t, bound)| ==>
      var d := OfTypeBelow(m, t, bound)[i];
      d.deviceType == t && exists k :: k in m && k < bound && m[k] == d
  {
    if bound > 0 {
      OfTypeBelowSound(m, t, bound - 1);
    }
  }

  /** Every device of type `t` filed under an id below the bound is listed. */
  lemma {:induction false} OfTypeBelowComplete(m: map<DeviceId, DeviceDescriptor>, t: DeviceType, bound: nat, k: DeviceId)
    requires k in m && k < bound && m[k].deviceType == t
    ensures m[k] in OfTypeBelow(m, t, bound)
  {
    if k < bound - 1 {
      OfTypeBelowComplete(m, t, bound - 1, k);
    }
  }

  /** When every descriptor carries its own key, the listed ids strictly ascend. */
  lemma {:induction false} OfTypeBelowAscending(m: map<DeviceId, DeviceDescriptor>, t: DeviceType, bound: nat)
    requires forall k :: k in m ==> m[k].id == k
    ensures forall i, j :: 0 <= i < j < |OfTypeBelow(m, t, bound)| ==>
      OfTypeBelow(m, t, bound)[i].id < OfTypeBelow(m, t, bound)[j].id
    ensures forall i :: 0 <= i < |OfTypeBelow(m, t, bound)| ==> OfTypeBelow(m, t, bound)[i].id < bound
  {
    if bound > 0 {
      OfTypeBelowAscending(m, t, bound - 1);
      OfTypeBelowSound(m, t, bound - 1);
    }
  }

  /** `DeviceManager`: the device table and the next id to issue. */
  class DeviceManager {
    var devices: map<DeviceId, DeviceDescriptor>
    var nextDeviceId: DeviceId

    /** Ids start at 1, every filed id was issued already, and each descriptor carries its key. */
    ghost predicate Valid()
      reads this
    {
      && nextDeviceId >= 1
      && forall id :: id in devices ==> 1 <= id < nextDeviceId && devices[id].id == id
    }

    /** `DeviceManager::new`: no devices, next id 1. */
    constructor ()
      ensures Valid() && devices == map[] && nextDeviceId == 1
    {
      devices := map[];
      nextDeviceId := 1;
    }

    /**
     * `register_device`: returns the current next id, which no filed device holds, and
     * bumps the counter, so ids are never reused even after `unregister_device`.
     */
    method RegisterDevice(t: DeviceType, name: string, vendor: string) returns (id: DeviceId)
      requires Valid()
      modifies this
      ensures Valid()
      ensures id == old(nextDeviceId) && nextDeviceId == id + 1
      ensures id !in old(devices)
      ensures devices == old(devices)[id := NewDescriptor(id, t, name, vendor)]
    {
      id := nextDeviceId;
      nextDeviceId := nextDeviceId + 1;
      var descriptor := NewDescriptor(id, t, name, vendor);
      devices := devices[id := descriptor];
    }

    /** `unregister_device`: removes the descriptor and returns it, or None if absent. */
    method UnregisterDevice(id: DeviceId) returns (removed: Option<DeviceDescriptor>)
      requires Valid()
      modifies this
      ensures Valid()
      ensures removed == Get(old(devices), id)
      ensures devices == old(devices) - {id}
      ensures nextDeviceId == old(nextDeviceId)
    {
      removed := Get(devices, id);
      devices := devices - {id};
    }

    /** `get_device`. */
    function GetDevice(id: DeviceId): (r: Option<DeviceDescriptor>)
      reads this
      ensures r.Some? <==> id in devices
      ensures r.Some? ==> r.value == devices[id]
    {
      Get(devices, id)
    }

    /** `list_devices_by_type`: exactly the devices of type `t`, in ascending id order. */
    function ListDevicesByType(t: DeviceType): (r: seq<DeviceDescriptor>)
      requires Valid()
      reads this
      ensures forall d :: d in r <==> d in devices.Values && d.deviceType == t
      ensures forall i, j :: 0 <= i < j < |r| ==> r[i].id < r[j].id
    {
      var r := OfTypeBelow(devices, t, nextDeviceId);
      OfTypeBelowSound(devices, t, nextDeviceId);
      OfTypeBelowAscending(devices, t, nextDeviceId);
      assert forall d :: d in devices.Values && d.deviceType == t ==> d in r by {
        forall d | d in devices.Values && d.deviceType == t ensures d in r {
          var k :| k in devices && devices[k] == d;
          OfTypeBelowComplete(devices, t, nextDeviceId, k);
        }
      }
      r
    }

    /** `mark_initialized`: sets the flag on the named device only; unknown ids are ignored. */
    method MarkInitialized(id: DeviceId)
      requires Valid()
      modifies this
      ensures Valid()
      ensures nextDeviceId == old(nextDeviceId)
      ensures devices == if id in old(devices)
        then old(devices)[id := old(devices)[id].(initialized := true)]
        else old(devices)
    {
      if id in devices {
        devices := devices[id := devices[id].(initialized := true)];
      }
    }
  }

  /** `init_driver_framework`: registers the system timer, then the PS/2 keyboard. */
  method InitDriverFramework(manager: DeviceManager) returns (r: Result<(), DriverError>)
    requires manager.Valid()
    modifies manager
    ensures manager.Valid() && r == Ok(())
    ensures var first := old(manager.nextDeviceId);
      && manager.nextDeviceId == first + 2
      && manager.devices == old(manager.devices)
           [first := NewDescriptor(first, Timer, "System Timer", "KewveOS")]
           [first + 1 := NewDescriptor(first + 1, Keyboard, "PS/2 Keyboard", "Generic")]
  {
    var timerId := manager.RegisterDevice(Timer, "System Timer", "KewveOS");
    var keyboardId := manager.RegisterDevice(Keyboard, "PS/2 Keyboard", "Generic");
    r := Ok(());
  }

  /**
   * On a fresh manager the framework files the timer as device 1 and the keyboard as
   * device 2; unregistering the timer does not free id 1 for reuse.
   */
  method BootRegistrationScenario()
  {
    var manager := new DeviceManager();
    var r := InitDriverFramework(manager);
    assert manager.GetDevice(1) == Some(NewDescriptor(1, Timer, "System Timer", "KewveOS"));
    assert manager.GetDevice(2) == Some(NewDescriptor(2, Keyboard, "PS/2 Keyboard", "Generic"));
    var timers := manager.ListDevicesByType(Timer);
    var timer := NewDescriptor(1, Timer, "System Timer", "KewveOS");
    assert OfTypeBelow(manager.devices, Timer, 1) == [];
    assert OfTypeBelow(manager.devices, Timer, 2) == [timer];
    assert timers == OfTypeBelow(manager.devices, Timer, 3) == [timer];
    var removed := manager.UnregisterDevice(1);
    var id := manager.RegisterDevice(Serial, "COM1", "Generic");
    assert id == 3;
  }
}
