# kewveOs core, modelled in Dafny

This project models the sequential logic of the kewveOs hobby kernel. It covers seven
parts of the kernel:

- the round-robin process scheduler and the pid counter ([process.dfy](process.dfy));
- the boot-map frame allocator, the kernel heap page range and the x86_64 memory
  manager stubs ([memory.dfy](memory.dfy));
- the device manager of the driver framework ([drivers.dfy](drivers.dfy));
- the generic storage driver and the storage manager ([storage.dfy](storage.dfy));
- the chained 8259A interrupt controllers ([pic.dfy](pic.dfy));
- the 8254 interval timer and the millisecond clock ([timer.dfy](timer.dfy));
- the PS/2 keyboard's scan code set 1 decoding ([keyboard.dfy](keyboard.dfy)).

[wrappers.dfy](wrappers.dfy) holds `Option` and `Result`. [machine.dfy](machine.dfy)
holds the byte and 64-bit integer types and the `PortBus`. An x86 `out` instruction
appends a `PortWrite(port, value)` to the `PortBus` log. A port read (`read_masks`, the
keyboard's `read_scancode`) becomes a parameter of the method that performs it.
`WritesTo` and `LastWriteTo` state what each port received and what it holds last.

Objects the kernel mutates in place are Dafny classes:

- `Scheduler` and `ProcessManager`;
- `BootInfoFrameAllocator`;
- `DeviceManager`;
- `GenericStorageDriver` and `StorageManager`;
- `ChainedPics`;
- `PitTimer` and `SystemTimer`;
- `Ps2Keyboard`.

The global `spin::Mutex`/`lazy_static` instances become ordinary objects passed to the
operations.

The scheduler's operations each have a pure step function, such as `ScheduleStep`. Each
method ensures that the new state is that step applied to the old state. The
properties are proved about the step functions as lemmas, including round-robin order
over any number of calls. A simulated read fills an `array`, as the driver fills the
caller's buffer.

## Where the scheduler differs from a Ready/Running/Blocked round robin

The process states and the `priority` field suggest a scheduler whose ready queue holds
only Ready processes, that marks the chosen one Running and that orders by priority.
The code differs from that in three ways, and the model follows the code:

- `block_current` (src/process/mod.rs:123-130) leaves the blocked pid in the ready
  queue. `unblock` then queues it a second time. `Process.BlockedPidStaysQueued` shows
  both on a one-process example.
- `schedule` never sets a process to Running.
- There is no priority: the `priority` field is always 0 and does not affect the order.

The keyboard's `send_command` writes to port 0x64, the controller's command port, as
the code does. It does not write to the device's data port 0x60.

## Model

The methods `Process.BootScenario` (with `Process.BootSwitches`), `Drivers.BootRegistrationScenario`,
`Storage.VirtualDiskScenario`, `Pic8259.KernelPicScenario`, `TimerDriver.ClockScenario`
and `KeyboardDriver.KeyScenario` are client examples: they run the model through the
kernel's start-up calls with concrete values and check the outcome with assertions.
They have no row of their own.

| member | source | states |
|---|---|---|
| Process.NewPcb | src/process/mod.rs:45-55 | a new block carries the given id and name, is Ready with priority 0, has no stack pointer or program counter, and has 16 zero registers |
| Process.SetState | src/process/mod.rs:58-60 | the block gets the new state and every other field is unchanged |
| Process.WithoutCounts | src/process/mod.rs:93-96 | `retain` drops every occurrence of the pid, keeps every other pid, and keeps the other pids' counts |
| Process.RotatePermutes | src/process/mod.rs:114-117 | moving the head to the tail keeps the queue's multiset, and the old head is now last |
| Process.CurrentOf | src/process/mod.rs:99-101 | there is a current block exactly when the current pid is set and filed in the table |
| Process.AddStepProperties | src/process/mod.rs:86-90 | adding keeps the table and queue consistent, files the block under its id, keeps the other table entries, keeps the old queue as a prefix and grows it by one, appends the id, and leaves current alone |
| Process.RemoveStepProperties | src/process/mod.rs:93-96 | removal returns the block or None when absent, deletes the pid from the table and from every queue position, keeps the other blocks and the other pids' counts, and leaves current alone |
| Process.ScheduleStepProperties | src/process/mod.rs:109-120 | an empty queue gives None and no change; otherwise the head is returned and made current, and the queue is rotated with its multiset kept |
| Process.SchedulePicksCyclically | src/process/mod.rs:114-117 | with nothing in between, call number d·n + m of `schedule` on a queue of length n picks queue entry m and makes it current: round robin |
| Process.BlockStepProperties | src/process/mod.rs:123-130 | blocking marks the current process Blocked and clears current, is a no-op without a current process, and never touches the queue |
| Process.UnblockStepProperties | src/process/mod.rs:133-140 | only a present, Blocked process is affected: it becomes Ready and its pid is appended once; otherwise nothing changes |
| Process.UnblockIdempotent | src/process/mod.rs:133-140 | a second `unblock` of the same pid changes nothing |
| Process.BlockedPidStaysQueued | src/process/mod.rs:123-140 | a scheduled and then blocked process stays in the ready queue, and unblocking it queues its pid twice |
| Process.Scheduler.constructor | src/process/mod.rs:77-83 | the scheduler starts with no processes, an empty queue and no current pid |
| Process.Scheduler.AddProcess | src/process/mod.rs:86-90 | the new state is the add step of the old state |
| Process.Scheduler.RemoveProcess | src/process/mod.rs:93-96 | the `retain` loop and the table removal give the remove step's state and result |
| Process.Scheduler.CurrentProcess | src/process/mod.rs:99-101 | the block of the current pid, if any |
| Process.Scheduler.Schedule | src/process/mod.rs:109-120 | the new state and the pick are the schedule step's |
| Process.Scheduler.BlockCurrent | src/process/mod.rs:123-130 | the new state is the block step of the old state |
| Process.Scheduler.Unblock | src/process/mod.rs:133-140 | the new state is the unblock step of the old state |
| Process.ProcessManager.constructor | src/process/mod.rs:159 | the pid counter starts at 1 beside an empty scheduler |
| Process.ProcessManager.Init | src/process/mod.rs:149-155 | the kernel process is added under pid 0 |
| Process.ProcessManager.CreateProcess | src/process/mod.rs:158-171 | the counter's value is issued and the counter moves on by one, so pids are 1, 2, 3, ...; a fresh block is added under the pid |
| Process.ProcessManager.SwitchToNextProcess | src/process/mod.rs:174-178 | the block switched to is the schedule step's pick |
| Memory.AlignDown | src/memory.rs:80 | the containing frame's start is 4096-aligned, at most the address, and within one page of it |
| Memory.FrameStarts | src/memory.rs:78-80 | every frame of a region's address walk is 4096-aligned |
| Memory.FrameStartsCount | src/memory.rs:78-80 | a region walk yields one frame for each step of 4096 below the end |
| Memory.FrameStartsAt | src/memory.rs:78-80 | the k-th frame of a region is the frame of address start + k·4096 |
| Memory.FrameStartsWithin | src/memory.rs:78-80 | with an aligned start, every frame lies within the region |
| Memory.FrameStartsDistinct | src/memory.rs:78-80 | with an aligned start, a region's frames are all different |
| Memory.UsableFrames | src/memory.rs:73-81 | every frame offered is 4096-aligned |
| Memory.UsableFramesOrigin | src/memory.rs:73-81 | every frame offered comes from the walk of some Usable region, so other regions contribute nothing |
| Memory.UsableFramesDistinct | src/memory.rs:73-81 | when the Usable regions are disjoint and page-aligned, no frame is offered twice |
| Memory.BootInfoFrameAllocator.Init | src/memory.rs:65-70 | a fresh allocator keeps the map, has `next` = 0 and has issued nothing |
| Memory.BootInfoFrameAllocator.AllocateFrame | src/memory.rs:85-89 | the result is the `next`-th usable frame, or None exactly when there are no more; `next` grows by one either way; the frame is aligned; the issued list grows by it; with disjoint aligned regions no frame is issued twice |
| Memory.PageRangeShape | src/memory.rs:109-115 | an inclusive range from page first to page last holds (last − first)/4096 + 1 pages, the i-th being first + i·4096 |
| Memory.HeapPageCount | src/memory.rs:19-21 | the 1 MiB heap at its aligned base spans 256 consecutive pages from `HEAP_START` |
| Memory.CursorGaps | src/memory.rs:121-129 | the frames drawn for an earlier page, its own and its tables', all come before a later page's frame |
| Memory.AllPagesFit | src/memory.rs:121-129 | every page fits exactly when the whole walk, pages and tables, fits in the usable frames |
| Memory.CursorWithoutTables | src/memory.rs:121-129 | when `map_to` creates no tables, page i gets the i-th usable frame |
| Memory.CursorAfterFirstTables | src/memory.rs:121-129 | when only the first `map_to` creates tables, every later page's frame is shifted by their number |
| Memory.FirstPageTablesShortenHeap | src/memory.rs:121-129 | with three tables for the first page and 256 usable frames, pages 0 to 252 fit and page 253 finds no frame |
| Memory.FirstMisfitUnique | src/memory.rs:121-133 | there is at most one first page that does not fit |
| Memory.FirstMisfitExists | src/memory.rs:121-133 | a page that does not fit has a first such page at or before it, so a failing walk always has an error to report |
| Memory.FailureAt | src/memory.rs:121-133 | once page i does not fit after all earlier ones did, page i is the only first misfit |
| Memory.DrawTableFrames | src/memory.rs:129 | `count` draws from the allocator: all succeed exactly when they stay within the usable frames; `next` ends after the draws, or one past the end of the walk |
| Memory.MapHeapPage | src/memory.rs:122-130 | one loop turn: no page frame is `OutOfMemory`, a missing table frame is `MappingFailed` with `next` one past the walk, and otherwise the page is backed by the `next`-th usable frame |
| Memory.WalkStep | src/memory.rs:121-131 | mapping a page that fits extends the walk by that page and the frame at its cursor |
| Memory.WalkSucceeds | src/memory.rs:121-134 | a walk in which every page fitted ends in Ok with every mapping |
| Memory.WalkFails | src/memory.rs:121-133 | a walk that stopped at the first misfit ends in that page's error: `OutOfMemory` when its own frame is missing, else `MappingFailed` |
| Memory.WalkFramesDistinct | src/memory.rs:121-131 | with disjoint aligned regions, distinct walk positions give distinct frames |
| Memory.MapHeapPages | src/memory.rs:121-134 | the loop over the heap pages ends in `HeapWalkOutcome`: Ok with page i backed by the usable frame at `Cursor(tableFrames, i)` when every page fits, else the first misfit's error with `next` where the walk stopped; distinct frames with disjoint aligned regions |
| Memory.InitMemoryManagement | src/memory.rs:99-139 | a fresh allocator over the memory map, then the same outcome for the 256 heap pages |
| Memory.WalkWithoutTables | src/memory.rs:121-134 | when `map_to` creates no tables and there are enough frames, heap page i is backed by the i-th usable frame |
| Memory.WalkWithFirstTables | src/memory.rs:121-134 | with three tables for the first page and exactly 256 usable frames, the result is `OutOfMemory` with `next` = 257 |
| Memory.X86MemoryManager.constructor | src/memory.rs:230-234 | the manager starts without a frame allocator |
| Memory.X86MemoryManager.Init | src/memory.rs:241-244 | always Ok |
| Memory.X86MemoryManager.AllocatePages | src/memory.rs:246-249 | always `FrameAllocationFailed` |
| Memory.X86MemoryManager.DeallocatePages | src/memory.rs:251-254 | always Ok |
| Memory.X86MemoryManager.MapPages | src/memory.rs:256-259 | always `MappingFailed` |
| Memory.X86MemoryManager.UnmapPages | src/memory.rs:261-264 | always Ok |
| Drivers.DefaultStats | src/drivers/mod.rs:103-112 | all counters are zero and no error is recorded |
| Drivers.NewDescriptor | src/drivers/mod.rs:162-170 | a registered descriptor carries the given id, type, name and vendor, version "1.0.0", no capabilities, and is not initialized |
| Drivers.OfTypeBelowSound | src/drivers/mod.rs:187-191 | every listed device has the requested type and is filed in the table |
| Drivers.OfTypeBelowComplete | src/drivers/mod.rs:187-191 | every filed device of the requested type is listed |
| Drivers.OfTypeBelowAscending | src/drivers/mod.rs:187-191 | when descriptors carry their own keys, the listing is in strictly ascending id order |
| Drivers.DeviceManager.constructor | src/drivers/mod.rs:150-155 | a new manager has no devices and next id 1 |
| Drivers.DeviceManager.RegisterDevice | src/drivers/mod.rs:158-174 | the current next id is issued, no filed device holds it, the counter moves on by one, and only that id's entry is added |
| Drivers.DeviceManager.UnregisterDevice | src/drivers/mod.rs:177-179 | the descriptor is removed and returned, or None if absent; other devices and the id counter are unchanged, so ids are not reused |
| Drivers.DeviceManager.GetDevice | src/drivers/mod.rs:182-184 | Some exactly when the id is filed, with its descriptor |
| Drivers.DeviceManager.ListDevicesByType | src/drivers/mod.rs:187-191 | exactly the filed devices of the type, in ascending id order |
| Drivers.DeviceManager.MarkInitialized | src/drivers/mod.rs:194-198 | the flag is set on the named device only; an unknown id changes nothing |
| Drivers.InitDriverFramework | src/drivers/mod.rs:280-301 | the system timer is filed under the next id and the PS/2 keyboard under the one after; on a fresh manager these are 1 and 2 |
| Storage.CheckTransfer | src/drivers/storage.rs:179-194 | the read checks in their order: `DeviceNotReady` exactly without a configuration, then `InvalidSector(start)`, then `InvalidSector(start + count)`, then `SectorSizeMismatch`; success exactly when all pass, with count·sector size bytes |
| Storage.CheckWrite | src/drivers/storage.rs:209-228 | `DeviceNotReady` without a configuration, `ReadOnlyDevice` before any range check, otherwise the read checks; success only on a writable device |
| Storage.ReadOnlyRefusesAllWrites | src/drivers/storage.rs:211-213 | a read-only device refuses every write, even one whose range and buffer pass |
| Storage.UnconfiguredRefusesEverything | src/drivers/storage.rs:179 | without a configuration every read and write is `DeviceNotReady` |
| Storage.Transferred | src/drivers/storage.rs:202-203 | a transfer adds its bytes to `bytes_transferred` and 1 to `operations_completed`, and changes no other counter |
| Storage.GenericStorageDriver.constructor | src/drivers/storage.rs:109-115 | a new driver is unconfigured and uninitialized, with default statistics |
| Storage.GenericStorageDriver.Init | src/drivers/storage.rs:130-144 | a zero sector size or zero sector count is rejected with `InvalidConfiguration`, leaving the driver unchanged; otherwise the configuration is stored and the driver is initialized |
| Storage.GenericStorageDriver.Deinit | src/drivers/storage.rs:146-150 | the configuration is cleared and the driver is uninitialized |
| Storage.GenericStorageDriver.IsInitialized | src/drivers/storage.rs:152-154 | initialized exactly when configured |
| Storage.GenericStorageDriver.HandleInterrupt | src/drivers/storage.rs:156-160 | the interrupt counter grows by one and nothing else changes |
| Storage.GenericStorageDriver.Reset | src/drivers/storage.rs:166-174 | an unconfigured driver fails with `InitializationFailed`; a configured one succeeds |
| Storage.GenericStorageDriver.ReadSectors | src/drivers/storage.rs:178-206 | a refused read returns the check's error and leaves the buffer and statistics alone; a successful one sets byte i to i mod 256 below count·sector size, leaves later bytes alone and counts the transfer |
| Storage.GenericStorageDriver.WriteSectors | src/drivers/storage.rs:208-237 | a write returns the write checks' verdict, counts the transfer only on success, and never changes the buffer |
| Storage.GenericStorageDriver.SectorCount | src/drivers/storage.rs:239-241 | the configured sector count, or 0 unconfigured |
| Storage.GenericStorageDriver.SectorSize | src/drivers/storage.rs:243-245 | the configured sector size, or 512 unconfigured |
| Storage.GenericStorageDriver.IsReadOnly | src/drivers/storage.rs:247-249 | the configured flag, or true unconfigured |
| Storage.GenericStorageDriver.Flush | src/drivers/storage.rs:251-259 | `DeviceNotReady` exactly when unconfigured |
| Storage.CapacityOfConcat | src/drivers/storage.rs:286-290 | the capacity of two device lists side by side is the sum of their capacities |
| Storage.CapacityOfBounds | src/drivers/storage.rs:286-290 | every device's sector count times sector size is at most the total of a list that holds it |
| Storage.CapacityOfUnconfigured | src/drivers/storage.rs:286-290 | unconfigured devices contribute nothing to the total |
| Storage.StorageManager.constructor | src/drivers/storage.rs:269-273 | a new manager has no devices |
| Storage.StorageManager.AddDevice | src/drivers/storage.rs:276-278 | the device is appended, the count grows by one and the capacity by the device's own |
| Storage.StorageManager.TotalCapacity | src/drivers/storage.rs:286-290 | no devices give capacity 0 |
| Storage.InitStorage | src/drivers/storage.rs:299-320 | a virtual disk of 1 Mi sectors of 512 bytes is configured and filed, adding 512 MiB to the total |
| Pic8259.Handles | src/interrupts/pic.rs:35-37 | a controller handles a vector exactly when it is one of its eight line vectors offset + 0 .. offset + 7 |
| Pic8259.KernelChainRange | src/interrupts/pic.rs:114-116 | with offsets 32 and 40 the pair handles 32 .. 47, the secondary 40 .. 47 and the primary 32 .. 39 |
| Pic8259.EoiWrites | src/interrupts/pic.rs:121-128 | nothing is written for a foreign vector; a secondary vector gets 0x20 at the secondary then at the primary; a primary-only vector gets 0x20 at the primary only |
| Pic8259.KernelEoiWrites | src/interrupts/pic.rs:121-128 | with the kernel's offsets, vectors 40 .. 47 write 0x20 to 0xA0 then 0x20, vectors 32 .. 39 only to 0x20, others nothing |
| Pic8259.InitWritesPerPort | src/interrupts/pic.rs:70-94 | each command port receives ICW1 0x11; each data port receives its offset, its cascade byte (4 or 2), mode 0x01 and finally its saved mask, in that order |
| Pic8259.InitRestoresMasks | src/interrupts/pic.rs:70-94 | after initialization each data port holds the mask read at the start |
| Pic8259.MaskWritesSet | src/interrupts/pic.rs:102-105 | after `write_masks` each data port holds its own mask |
| Pic8259.ChainedPics.constructor | src/interrupts/pic.rs:52-67 | the primary uses ports 0x20/0x21, the secondary 0xA0/0xA1, with the given offsets |
| Pic8259.ChainedPics.HandlesInterrupt | src/interrupts/pic.rs:114-116 | the pair handles a vector exactly when one of the two controllers does |
| Pic8259.ChainedPics.Initialize | src/interrupts/pic.rs:70-94 | the log grows by the ICW1–ICW4 sequence, ending with the saved masks |
| Pic8259.ChainedPics.WriteMasks | src/interrupts/pic.rs:102-105 | the log grows by mask1 to the primary data port then mask2 to the secondary's |
| Pic8259.ChainedPics.Disable | src/interrupts/pic.rs:108-111 | the log grows by 0xFF to both data ports |
| Pic8259.ChainedPics.NotifyEndOfInterrupt | src/interrupts/pic.rs:121-128 | the log grows by the end-of-interrupt writes for the vector |
| TimerDriver.DivisorBytesRoundTrip | src/drivers/timer.rs:46-47 | the low and high bytes sent reassemble the divisor modulo 2^16, and the divisor itself when it fits |
| TimerDriver.DivisorFits | src/drivers/timer.rs:39 | the divisor fits the 16-bit counter exactly when the frequency is at least 19 Hz |
| TimerDriver.TickRateDivisor | src/drivers/timer.rs:62-68 | at 1000 Hz the divisor is 1193, sent as 0xA9 then 0x04 |
| TimerDriver.ConfigureWrites | src/drivers/timer.rs:35-49 | 0x36 goes to port 0x43 first; port 0x40 receives the divisor's low byte then its high byte |
| TimerDriver.DeinitWrites | src/drivers/timer.rs:70-80 | 0x30 goes to port 0x43, then 0 and 0 to port 0x40 |
| TimerDriver.PitTimer.constructor | src/drivers/timer.rs:25-32 | a new timer is uninitialized with frequency 0 |
| TimerDriver.PitTimer.Configure | src/drivers/timer.rs:35-49 | the frequency is stored and the configure writes are logged; it demands a nonzero frequency, which the division needs |
| TimerDriver.PitTimer.Init | src/drivers/timer.rs:62-68 | the timer is programmed at 1000 Hz and initialized |
| TimerDriver.PitTimer.Deinit | src/drivers/timer.rs:70-80 | the reset writes are logged and the timer is uninitialized; the frequency stays |
| TimerDriver.TimeOf | src/drivers/timer.rs:125-131 | milliseconds are below 1000 and seconds·1000 + milliseconds equals the ticks |
| TimerDriver.TickAdvancesTime | src/drivers/timer.rs:115-131 | one more tick adds a millisecond, carrying into the seconds at 999 |
| TimerDriver.SystemTimer.constructor | src/drivers/timer.rs:100-105 | no ticks and an unconfigured timer |
| TimerDriver.SystemTimer.Init | src/drivers/timer.rs:108-112 | the timer is started at 1000 Hz and the tick count restarts at 0 |
| TimerDriver.SystemTimer.HandleTick | src/drivers/timer.rs:115-117 | the tick count grows by exactly one |
| TimerDriver.SystemTimer.Time | src/drivers/timer.rs:125-131 | milliseconds below 1000 and seconds·1000 + milliseconds equal to the tick count |
| TimerDriver.HandleTimerInterrupt | src/drivers/timer.rs:145-152 | one tick is counted and vector 32 is acknowledged at the primary controller |
| KeyboardDriver.ScancodeToAscii | src/drivers/keyboard.rs:38-106 | the table has 58 entries; every code from 0x3A on gives None |
| KeyboardDriver.DigitRow | src/drivers/keyboard.rs:43-54 | 0x02 .. 0x0D give "1234567890-=" |
| KeyboardDriver.LetterRows | src/drivers/keyboard.rs:57-92 | 0x10 .. 0x19 give "qwertyuiop", 0x1E .. 0x26 "asdfghjkl" and 0x2C .. 0x32 "zxcvbnm" |
| KeyboardDriver.NoCharacterExactly | src/drivers/keyboard.rs:40-105 | a code gives None exactly when it is 0x00, 0x0E, 0x0F, 0x1C, 0x1D, 0x2A, 0x36, 0x37, 0x38 or at least 0x3A |
| KeyboardDriver.SpaceExactly | src/drivers/keyboard.rs:40-99 | exactly 0x01 and 0x39 give a space |
| KeyboardDriver.Decode | src/drivers/keyboard.rs:146-147 | a raw code is a press exactly when below 0x80; the key code is below 0x80 and adding back the release bit gives the raw code |
| KeyboardDriver.ReleaseMatchesPress | src/drivers/keyboard.rs:146-147 | a key's release code decodes to the same key as its press code |
| KeyboardDriver.DecodeInjective | src/drivers/keyboard.rs:146-147 | different raw codes decode to different events |
| KeyboardDriver.Reported | src/drivers/keyboard.rs:155-159 | a character is reported exactly for a pressed key that translates, and it is that translation |
| KeyboardDriver.Ps2Keyboard.constructor | src/drivers/keyboard.rs:17-23 | a new keyboard is uninitialized |
| KeyboardDriver.Ps2Keyboard.SendCommand | src/drivers/keyboard.rs:31-35 | the command byte is written to port 0x64 |
| KeyboardDriver.Ps2Keyboard.Init | src/drivers/keyboard.rs:114-120 | 0xF4 is sent and the keyboard is initialized |
| KeyboardDriver.Ps2Keyboard.Deinit | src/drivers/keyboard.rs:122-128 | 0xF5 is sent and the keyboard is uninitialized |
| KeyboardDriver.HandleKeyboardInterrupt | src/drivers/keyboard.rs:141-164 | the reported character is the decoded one, and vector 33 is acknowledged at the primary controller in every case |

## Left out

- Real port I/O (`Port::read`, `Port::write`), CPUID and `hlt`: a port write is an entry in the `PortBus` log, and a port read is a method parameter.
- `ChainedPics::read_masks` and `Ps2Keyboard::read_scancode`: they only read a port. `initialize` does not call `read_masks` but reads the same two data ports itself (src/interrupts/pic.rs:72-73); those two values are parameters of `Pic8259.ChainedPics.Initialize`, and the scan code is a parameter of the keyboard interrupt handler.
- `SystemTimer::sleep` and the tick-wait loop of `main`: they are busy-waits that end only through concurrent timer interrupts.
- src/interrupts/mod.rs (IDT setup and handlers that print and halt), src/main.rs, src/serial.rs, src/lib.rs and src/platform/: CPU plumbing, boot sequencing, UART output and constant returns, which are not part of this model.
- `init_heap`, `test_heap_allocation`, the `linked_list_allocator` heap and the page-table writes of the x86_64 crate's `Mapper::map_to`: foreign code.
- Memory.InitMemoryManagement: how many page tables `map_to` creates for each heap page depends on the page tables the bootloader left, so it is the parameter `tableFrames`; the model draws that many frames and reports `MappingFailed` when they run out. The other failures of `map_to` (page already mapped, a huge page in the way) and the `init_heap` call after the loop are not modelled, and the result lists the (page, frame) pairs rather than writing page tables.
- `spin::Mutex`, `lazy_static`, `static mut NEXT_PID` and `FRAME_ALLOCATOR`: these are locking and global initialisation. The wrapped state is modelled as ordinary objects.
- The `Display` impls and `println!` diagnostics: string formatting only. `switch_to_next_process` returns the block it would print, and `KeyboardDriver.HandleKeyboardInterrupt` returns the character it would print (src/drivers/keyboard.rs:157).
- Touch events with `f32` coordinates in `InputEvent`: floating point, and the `input` module is not part of this model.
- The `Driver` and `StorageDevice` traits: `PitTimer` and `Ps2Keyboard` implement `Driver` with signatures that do not match it. Each driver's own behaviour is modelled directly.
- `KeyEvent`: it is imported by the keyboard driver but not defined in src/drivers/mod.rs. `KeyboardDriver.KeyEvent` gives it the fields the handler builds.
- `CMD_READ_IRR`/`CMD_READ_ISR` (src/interrupts/pic.rs): the code never uses them.
- Bootloader region kinds other than Usable are folded into `InUse`, `Reserved` and `Other(code)`, since the allocator only tests for Usable.
- Storage.StorageManager.AddDevice: the manager holds `GenericStorageDriver` references rather than boxed trait objects, so ownership of the boxed device is not modelled. Two entries may alias the same driver.
- Storage.StorageManager.TotalCapacity: sums on unbounded integers, so the u64 overflow of `sector_count * sector_size` and of the sum is not modelled. In its own contract it states the empty case and that each device's capacity is at most the total; the sum itself is stated by `Storage.CapacityOfConcat` and `Storage.StorageManager.AddDevice`.
- Storage.GenericStorageDriver.ReadSectors: requires `start + count` to stay within u64 only for a configured device with `start` below its sector count, the one case in which the source adds them and would overflow (src/drivers/storage.rs:186). Storage.GenericStorageDriver.WriteSectors requires the same only when the device is also writable (src/drivers/storage.rs:220).
- TimerDriver.SystemTimer.HandleTick: requires the tick count below 2^64 − 1 rather than modelling the u64 overflow of `ticks += 1`; so does TimerDriver.HandleTimerInterrupt.
- Process.ProcessManager.CreateProcess: requires the pid counter below 2^64 − 1 rather than modelling the overflow of `NEXT_PID += 1`.
- Drivers.DeviceManager.RegisterDevice: device ids and the driver statistics counters are unbounded naturals, so the u64 overflow of `next_device_id` and of the counters is not modelled.
- Pic8259.Handles: computes `offset + 8` on unbounded integers, so the u8 overflow for an offset of 248 or more is not modelled.
- TimerDriver.PitTimer.Configure: a divisor of 2^16 or more is split into bytes modulo 2^16, as the code sends it. `TimerDriver.DivisorFits` states when that truncation happens.
