/**
 * Memory management (src/memory.rs): the boot-map frame allocator, the heap page
 * range and the loop that backs every heap page with a frame, and the stubs of the
 * x86_64 platform memory manager.
 *
 * The boot loader's memory map is a sequence of regions `[startAddr, endAddr)` with a
 * type; frames and pages are named by their 4 KiB-aligned start address.
 */
module Memory {
  import opened Wrappers

  const PageSize: nat := 4096

  /** `HEAP_START`: the virtual address of the kernel heap. */
  const HeapStart: nat := 0x4444_4444_0000

  /** `HEAP_SIZE`: 1 MiB. */
  const HeapSize: nat := 1024 * 1024

  datatype MemoryError =
    | OutOfMemory
    | InvalidVirtualAddress(virt: nat)
    | InvalidPhysicalAddress(phys: nat)
    | MappingFailed
    | FrameAllocationFailed
    | HeapInitializationFailed

  /** The kinds of region the allocator distinguishes; only `Usable` frames are handed out. */
  datatype RegionType = Usable | InUse | Reserved | Other(code: nat)

  datatype MemoryRegion = MemoryRegion(startAddr: nat, endAddr: nat, regionType: RegionType)

  /** `PhysFrame::containing_address`: the start of the 4 KiB frame holding `addr`. */
  function AlignDown(addr: nat): (r: nat)
    ensures r % PageSize == 0 && r <= addr < r + PageSize
  {
    addr - addr % PageSize
  }

  /** The frame holding the `k`-th address `start + k * 4096` of a range. */
  function FrameAt(start: nat, k: nat): nat {
    AlignDown(start + k * PageSize)
  }

  /**
   * `(start..end).step_by(4096)` mapped through `containing_address`: the frames of the
   * addresses start, start + 4096, ... below end.
   */
  function FrameStarts(start: nat, end: nat): (r: seq<nat>)
    ensures forall i :: 0 <= i < |r| ==> r[i] % PageSize == 0
    decreases if start < end then end - start else 0
  {
    if start < end then [AlignDown(start)] + FrameStarts(start + PageSize, end) else []
  }

  /** The number of addresses `(start..end).step_by(4096)` yields. */
  function FrameCount(start: nat, end: nat): nat {
    if start < end then (end - start - 1) / PageSize + 1 else 0
  }

  /** A Usable region yields its frames; every other region yields none. */
  function RegionFrames(r: MemoryRegion): seq<nat> {
    if r.regionType == Usable then FrameStarts(r.startAddr, r.endAddr) else []
  }

  function RegionFrameCount(r: MemoryRegion): nat {
    if r.regionType == Usable then FrameCount(r.startAddr, r.endAddr) else 0
  }

  /** `usable_frames`: the frames of the Usable regions, in memory-map order. */
  function UsableFrames(m: seq<MemoryRegion>): (r: seq<nat>)
    ensures forall i :: 0 <= i < |r| ==> r[i] % PageSize == 0
  {
    if m == [] then [] else RegionFrames(m[0]) + UsableFrames(m[1..])
  }

  /** `Iterator::nth`. */
  function Nth(s: seq<nat>, n: nat): (r: Option<nat>)
    ensures r.Some? <==> n < |s|
  {
    if n < |s| then Some(s[n]) else None
  }

  ghost predicate NoDuplicates(s: seq<nat>) {
    forall i, j :: 0 <= i < j < |s| ==> s[i] != s[j]
  }

  /** No two Usable regions overlap. */
  ghost predicate RegionsDisjoint(m: seq<MemoryRegion>) {
    forall i, j :: 0 <= i < j < |m| && m[i].regionType == Usable && m[j].regionType == Usable ==>
      m[i].endAddr <= m[j].startAddr || m[j].endAddr <= m[i].startAddr
  }

  /** Every Usable region starts on a frame boundary. */
  ghost predicate RegionsAligned(m: seq<MemoryRegion>) {
    forall i :: 0 <= i < |m| && m[i].regionType == Usable ==> m[i].startAddr % PageSize == 0
  }

  // ---------------------------------------------------------------------------
  // Properties of the usable-frame sequence
  // ---------------------------------------------------------------------------

  /** A range yields one frame per 4096 bytes, rounded up. */
  lemma {:induction false} FrameStartsCount(start: nat, end: nat)
    ensures |FrameStarts(start, end)| == FrameCount(start, end)
    decreases if start < end then end - start else 0
  {
    if start < end {
      FrameStartsCount(start + PageSize, end);
    }
  }

  /** The `k`-th frame of a range is the frame of its `k`-th address. */
  lemma {:induction false} FrameStartsAt(start: nat, end: nat, k: nat)
    requires k < |FrameStarts(start, end)|
    ensures FrameStarts(start, end)[k] == FrameAt(start, k)
    decreases k
  {
    if k > 0 {
      FrameStartsAt(start + PageSize, end, k - 1);
      assert start + PageSize + (k - 1) * PageSize == start + k * PageSize;
    }
  }

  /** From an aligned start, every frame of a range lies inside the range. */
  lemma {:induction false} FrameStartsWithin(start: nat, end: nat)
    requires start % PageSize == 0
    ensures forall f :: f in FrameStarts(start, end) ==> start <= f < end
    decreases if start < end then end - start else 0
  {
    if start < end {
      FrameStartsWithin(start + PageSize, end);
    }
  }

  /** From an aligned start, a range yields no frame twice. */
  lemma {:induction false} FrameStartsDistinct(start: nat, end: nat)
    requires start % PageSize == 0
    ensures NoDuplicates(FrameStarts(start, end))
    decreases if start < end then end - start else 0
  {
    if start < end {
      var tail := FrameStarts(start + PageSize, end);
      FrameStartsDistinct(start + PageSize, end);
      FrameStartsWithin(start + PageSize, end);
      var r := FrameStarts(start, end);
      assert r == [start] + tail;
      forall i, j | 0 <= i < j < |r| ensures r[i] != r[j] {
        if i > 0 {
          assert r[i] == tail[i - 1] && r[j] == tail[j - 1];
        } else {
          assert r[j] in tail;
        }
      }
    }
  }

  /** Every usable frame comes from a Usable region of the map. */
  lemma {:induction false} UsableFramesOrigin(m: seq<MemoryRegion>, f: nat)
    requires f in UsableFrames(m)
    ensures exists i :: 0 <= i < |m| && m[i].regionType == Usable && f in FrameStarts(m[i].startAddr, m[i].endAddr)
  {
    if f !in RegionFrames(m[0]) {
      UsableFramesOrigin(m[1..], f);
      var i :| 0 <= i < |m[1..]| && m[1..][i].regionType == Usable && f in FrameStarts(m[1..][i].startAddr, m[1..][i].endAddr);
      assert m[1..][i] == m[i + 1];
    }
  }

  /** Appending two duplicate-free sequences with no element in common gives one. */
  lemma NoDuplicatesAppend(a: seq<nat>, b: seq<nat>)
    requires NoDuplicates(a) && NoDuplicates(b)
    requires forall x :: x in a ==> x !in b
    ensures NoDuplicates(a + b)
  {
    var ab := a + b;
    forall i, j | 0 <= i < j < |ab| ensures ab[i] != ab[j] {
      if j >= |a| && i < |a| {
        assert ab[i] == a[i] && ab[j] == b[j - |a|];
        assert b[j - |a|] in b;
      } else if i >= |a| {
        assert ab[i] == b[i - |a|] && ab[j] == b[j - |a|];
      }
    }
  }

  /** When the Usable regions are aligned and disjoint, no frame is yielded twice. */
  lemma {:induction false} UsableFramesDistinct(m: seq<MemoryRegion>)
    requires RegionsDisjoint(m) && RegionsAligned(m)
    ensures NoDuplicates(UsableFrames(m))
  {
    if m != [] {
      var rest := m[1..];
      assert forall i :: 0 <= i < |rest| ==> rest[i] == m[i + 1];
      UsableFramesDistinct(rest);
      var head := RegionFrames(m[0]);
      if m[0].regionType == Usable {
        FrameStartsDistinct(m[0].startAddr, m[0].endAddr);
        FrameStartsWithin(m[0].startAddr, m[0].endAddr);
        forall x | x in head ensures x !in UsableFrames(rest) {
          if x in UsableFrames(rest) {
            UsableFramesOrigin(rest, x);
            var j :| 0 <= j < |rest| && rest[j].regionType == Usable
              && x in FrameStarts(rest[j].startAddr, rest[j].endAddr);
            FrameStartsWithin(rest[j].startAddr, rest[j].endAddr);
            assert false;
          }
        }
      }
      NoDuplicatesAppend(head, UsableFrames(rest));
    }
  }

  lemma NthAppend(a: seq<nat>, b: seq<nat>, n: nat)
    ensures Nth(a + b, n) == if n < |a| then Some(a[n]) else Nth(b, n - |a|)
  {
  }

  /** Counting into the walk from region `i`: either the frame lies in region `i` or further on. */
  lemma NthRegionStep(m: seq<MemoryRegion>, i: nat, n: nat)
    requires i < |m|
    ensures Nth(UsableFrames(m[i..]), n) ==
      if n < RegionFrameCount(m[i]) then Some(FrameAt(m[i].startAddr, n))
      else Nth(UsableFrames(m[i + 1..]), n - RegionFrameCount(m[i]))
  {
    var region := m[i];
    assert m[i..] == [region] + m[i + 1..];
    NthAppend(RegionFrames(region), UsableFrames(m[i + 1..]), n);
    if region.regionType == Usable {
      FrameStartsCount(region.startAddr, region.endAddr);
      if n < RegionFrameCount(region) {
        FrameStartsAt(region.startAddr, region.endAddr, n);
      }
    }
  }

  /** Handing out entry `n` extends the issued prefix by that entry; past the end it stays. */
  lemma IssuedPrefixStep(all: seq<nat>, n: nat)
    ensures all[..Min(n + 1, |all|)] == all[..Min(n, |all|)] + (if n < |all| then [all[n]] else [])
  {
    if n < |all| {
      assert all[..n + 1] == all[..n] + [all[n]];
    }
  }

  /** A prefix of a sequence without duplicates has none. */
  lemma NoDuplicatesPrefix(s: seq<nat>, k: nat)
    requires NoDuplicates(s) && k <= |s|
    ensures NoDuplicates(s[..k])
  {
  }

  /** Without duplicates, entry `n` does not occur before position `n`. */
  lemma IssuedFresh(s: seq<nat>, n: nat)
    requires NoDuplicates(s) && n < |s|
    ensures s[n] !in s[..n]
  {
  }

  // ---------------------------------------------------------------------------
  // The frame allocator
  // ---------------------------------------------------------------------------

  function Min(a: nat, b: nat): nat {
    if a <= b then a else b
  }

  /** `BootInfoFrameAllocator`: hands out the `next`-th usable frame of the memory map. */
  class BootInfoFrameAllocator {
    const memoryMap: seq<MemoryRegion>
    var next: nat
    /** The frames handed out so far, oldest first. */
    ghost var issued: seq<nat>

    ghost predicate Valid()
      reads this
    {
      issued == UsableFrames(memoryMap)[..Min(next, |UsableFrames(memoryMap)|)]
    }

    /** `BootInfoFrameAllocator::init`. */
    constructor Init(memoryMap: seq<MemoryRegion>)
      ensures Valid() && this.memoryMap == memoryMap && next == 0 && issued == []
    {
      this.memoryMap := memoryMap;
      next := 0;
      issued := [];
    }

    /**
     * `allocate_frame`: the `next`-th usable frame if there is one, and `next` moves on
     * by one either way, so an exhausted allocator stays exhausted.
     */
    method AllocateFrame() returns (frame: Option<nat>)
      requires Valid()
      modifies this
      ensures Valid()
      ensures next == old(next) + 1
      ensures frame == Nth(UsableFrames(memoryMap), old(next))
      ensures frame.None? <==> old(next) >= |UsableFrames(memoryMap)|
      ensures frame.Some? ==> frame.value % PageSize == 0
      ensures issued == old(issued) + (if frame.Some? then [frame.value] else [])
      ensures RegionsDisjoint(memoryMap) && RegionsAligned(memoryMap) ==>
        NoDuplicates(issued) && (frame.Some? ==> frame.value !in old(issued))
    {
      ghost var all := UsableFrames(memoryMap);
      var remaining := next;
      var i := 0;
      frame := None;
      while i < |memoryMap| && frame.None?
        invariant 0 <= i <= |memoryMap|
        invariant frame.None? ==> Nth(all, next) == Nth(UsableFrames(memoryMap[i..]), remaining)
        invariant frame.Some? ==> frame == Nth(all, next)
        invariant State() == old(State())
        decreases |memoryMap| - i, if frame.None? then 1 else 0
      {
        var region := memoryMap[i];
        NthRegionStep(memoryMap, i, remaining);
        var count := RegionFrameCount(region);
        if remaining < count {
          frame := Some(FrameAt(region.startAddr, remaining));
        } else {
          remaining := remaining - count;
          i := i + 1;
        }
      }
      IssuedPrefixStep(all, next);
      next := next + 1;
      if frame.Some? {
        issued := issued + [frame.value];
      }
      if RegionsDisjoint(memoryMap) && RegionsAligned(memoryMap) {
        UsableFramesDistinct(memoryMap);
        NoDuplicatesPrefix(all, Min(next, |all|));
        if frame.Some? {
          IssuedFresh(all, next - 1);
        }
      }
    }

    ghost function State(): (nat, seq<nat>)
      reads this
    {
      (next, issued)
    }
  }

  // ---------------------------------------------------------------------------
  // The kernel heap
  // ---------------------------------------------------------------------------

  /** `Page::range_inclusive`: the pages from `first` to `last`, both included. */
  function PageRangeInclusive(first: nat, last: nat): seq<nat>
    decreases if first <= last then last - first + 1 else 0
  {
    if first <= last then [first] + PageRangeInclusive(first + PageSize, last) else []
  }

  /** The pages from the page of `HEAP_START` to the page of `HEAP_START + HEAP_SIZE - 1`. */
  function HeapPages(): seq<nat> {
    PageRangeInclusive(AlignDown(HeapStart), AlignDown(HeapStart + HeapSize - 1))
  }

  /** An inclusive range of aligned pages holds every page from first to last once. */
  lemma {:induction false} PageRangeShape(first: nat, last: nat)
    requires first % PageSize == 0 && last % PageSize == 0 && first <= last
    ensures |PageRangeInclusive(first, last)| == (last - first) / PageSize + 1
    ensures forall i :: 0 <= i < |PageRangeInclusive(first, last)| ==>
      PageRangeInclusive(first, last)[i] == first + i * PageSize
    decreases last - first
  {
    var r := PageRangeInclusive(first, last);
    if first + PageSize <= last {
      PageRangeShape(first + PageSize, last);
      var tail := PageRangeInclusive(first + PageSize, last);
      assert r == [first] + tail;
      forall i | 0 < i < |r| ensures r[i] == first + i * PageSize {
        assert r[i] == tail[i - 1];
      }
    } else {
      assert first == last;
      assert PageRangeInclusive(first + PageSize, last) == [];
    }
  }

  /** The 1 MiB heap at its aligned base spans exactly 256 pages, one after the other. */
  lemma HeapPageCount()
    ensures |HeapPages()| == 256
    ensures forall i :: 0 <= i < 256 ==> HeapPages()[i] == HeapStart + i * PageSize
  {
    assert AlignDown(HeapStart) == HeapStart;
    assert AlignDown(HeapStart + HeapSize - 1) == HeapStart + HeapSize - PageSize;
    PageRangeShape(HeapStart, HeapStart + HeapSize - PageSize);
  }

  /** A heap page and the frame `map_to` is asked to back it with. */
  datatype HeapMapping = HeapMapping(page: nat, frame: nat)

  /**
   * `map_to` is handed the same frame allocator and takes from it one frame for every
   * page table it has to create. `tableFrames[i]` is the number of tables it creates
   * for heap page `i`, which depends on the page tables already in place.
   * `Cursor(tableFrames, i)` is then the position in the usable-frame walk of the
   * frame drawn for page `i`: every earlier page took its own frame and its tables.
   */
  function Cursor(tableFrames: seq<nat>, i: nat): nat
    requires i <= |tableFrames|
  {
    if i == 0 then 0 else Cursor(tableFrames, i - 1) + 1 + tableFrames[i - 1]
  }

  /** The frame for page `i` and the table frames `map_to` draws after it all exist among `n` usable frames. */
  predicate PageFits(tableFrames: seq<nat>, n: nat, i: nat)
    requires i < |tableFrames|
  {
    Cursor(tableFrames, i) + tableFrames[i] < n
  }

  /** The frames drawn for page `i`, its own and its tables', all come before page `j`'s frame. */
  lemma {:induction false} CursorGaps(tableFrames: seq<nat>, i: nat, j: nat)
    requires i < j <= |tableFrames|
    ensures Cursor(tableFrames, i) + tableFrames[i] < Cursor(tableFrames, j)
  {
    if j > i + 1 {
      CursorGaps(tableFrames, i, j - 1);
    }
  }

  /** Every page fits exactly when the whole walk, pages and tables, fits in the usable frames. */
  lemma AllPagesFit(tableFrames: seq<nat>, n: nat)
    ensures (forall i :: 0 <= i < |tableFrames| ==> PageFits(tableFrames, n, i))
      <==> Cursor(tableFrames, |tableFrames|) <= n
  {
    var t := tableFrames;
    if forall i :: 0 <= i < |t| ==> PageFits(t, n, i) {
      if |t| > 0 {
        assert PageFits(t, n, |t| - 1);
      }
    }
    if Cursor(t, |t|) <= n {
      forall i | 0 <= i < |t| ensures PageFits(t, n, i) {
        CursorGaps(t, i, |t|);
      }
    }
  }

  /** When `map_to` creates no tables, page `i` gets the `i`-th usable frame. */
  lemma {:induction false} CursorWithoutTables(tableFrames: seq<nat>, i: nat)
    requires i <= |tableFrames| && forall j :: 0 <= j < |tableFrames| ==> tableFrames[j] == 0
    ensures Cursor(tableFrames, i) == i
  {
    if i > 0 {
      CursorWithoutTables(tableFrames, i - 1);
    }
  }

  /** When only the first `map_to` creates tables, every later page's frame is shifted by their number. */
  lemma {:induction false} CursorAfterFirstTables(tableFrames: seq<nat>, i: nat)
    requires 1 <= i <= |tableFrames| && forall j :: 0 < j < |tableFrames| ==> tableFrames[j] == 0
    ensures Cursor(tableFrames, i) == i + tableFrames[0]
  {
    if i > 1 {
      CursorAfterFirstTables(tableFrames, i - 1);
    }
  }

  /**
   * The heap lies in a part of the address space with no page tables yet, so the first
   * `map_to` creates three (level 3, 2 and 1) and the rest none. With exactly 256 usable
   * frames, pages 0 .. 252 fit and page 253 finds the walk exhausted.
   */
  lemma FirstPageTablesShortenHeap(tableFrames: seq<nat>)
    requires |tableFrames| == 256 && tableFrames[0] == 3
    requires forall j :: 0 < j < |tableFrames| ==> tableFrames[j] == 0
    ensures forall j :: 0 <= j < 253 ==> PageFits(tableFrames, 256, j)
    ensures !PageFits(tableFrames, 256, 253) && Cursor(tableFrames, 253) >= 256
  {
    forall j | 0 <= j < 253 ensures PageFits(tableFrames, 256, j) {
      if j > 0 {
        CursorAfterFirstTables(tableFrames, j);
      }
    }
    CursorAfterFirstTables(tableFrames, 253);
  }

  /** Page `k` is the first heap page that does not fit. */
  predicate FirstMisfit(tableFrames: seq<nat>, n: nat, k: nat) {
    k < |tableFrames| && !PageFits(tableFrames, n, k)
    && forall j :: 0 <= j < k ==> PageFits(tableFrames, n, j)
  }

  /** There is at most one first page that does not fit. */
  lemma FirstMisfitUnique(tableFrames: seq<nat>, n: nat, i: nat, k: nat)
    requires FirstMisfit(tableFrames, n, i) && FirstMisfit(tableFrames, n, k)
    ensures i == k
  {
  }

  /**
   * The page-table frames `map_to` takes from the allocator: `count` more draws, with
   * `ok` false as soon as one of them finds the allocator exhausted.
   */
  method DrawTableFrames(allocator: BootInfoFrameAllocator, count: nat) returns (ok: bool)
    requires allocator.Valid()
    modifies allocator
    ensures allocator.Valid()
    ensures var n := |UsableFrames(allocator.memoryMap)|;
      && (ok <==> count == 0 || old(allocator.next) + count <= n)
      && allocator.next == if ok then old(allocator.next) + count
                           else (if old(allocator.next) <= n then n else old(allocator.next)) + 1
  {
    ghost var n := |UsableFrames(allocator.memoryMap)|;
    ghost var start := allocator.next;
    var drawn := 0;
    while drawn < count
      invariant 0 <= drawn <= count
      invariant allocator.Valid()
      invariant allocator.next == start + drawn
      invariant drawn == 0 || start + drawn <= n
    {
      var table := allocator.AllocateFrame();
      if table.None? {
        return false;
      }
      drawn := drawn + 1;
    }
    return true;
  }

  /**
   * One turn of the heap-mapping loop: the frame for `page`, then the `tables` frames
   * `map_to` takes for the page tables it creates. Running out before the page frame is
   * `OutOfMemory`; running out inside `map_to` is `MappingFailed`.
   */
  method MapHeapPage(allocator: BootInfoFrameAllocator, page: nat, tables: nat)
    returns (r: Result<HeapMapping, MemoryError>)
    requires allocator.Valid()
    modifies allocator
    ensures allocator.Valid()
    ensures var frames := UsableFrames(allocator.memoryMap);
      var c := old(allocator.next);
      if c >= |frames| then r == Err(OutOfMemory) && allocator.next == c + 1
      else if c + tables >= |frames| then r == Err(MappingFailed) && allocator.next == |frames| + 1
      else r == Ok(HeapMapping(page, frames[c])) && allocator.next == c + 1 + tables
  {
    var frame := allocator.AllocateFrame();
    if frame.None? {
      return Err(OutOfMemory);
    }
    var ok := DrawTableFrames(allocator, tables);
    if !ok {
      return Err(MappingFailed);
    }
    return Ok(HeapMapping(page, frame.value));
  }

  /**
   * What mapping `pages` in order with the usable frames `frames` ends in: when every
   * page fits, success with page `i` backed by the frame at `Cursor(tableFrames, i)`;
   * otherwise the error of the first page that does not fit, `OutOfMemory` when its own
   * frame is missing and `MappingFailed` when a table frame is, with the allocator's
   * `next` where the walk stopped.
   */
  ghost predicate HeapWalkOutcome(frames: seq<nat>, pages: seq<nat>, tableFrames: seq<nat>,
                                  result: Result<seq<HeapMapping>, MemoryError>, next: nat)
    requires |tableFrames| == |pages|
  {
    var t := tableFrames;
    && ((forall i :: 0 <= i < |t| ==> PageFits(t, |frames|, i)) ==>
          && result.Ok? && next == Cursor(t, |t|) && |result.value| == |t|
          && forall i {:trigger result.value[i]} :: 0 <= i < |t| ==>
               result.value[i].page == pages[i] && Nth(frames, Cursor(t, i)) == Some(result.value[i].frame))
    && forall k :: FirstMisfit(t, |frames|, k) ==>
         if Cursor(t, k) >= |frames| then result == Err(OutOfMemory) && next == Cursor(t, k) + 1
         else result == Err(MappingFailed) && next == |frames| + 1
  }

  /** `mapped` is what the walk has made of the first `|mapped|` pages, every one of which fitted. */
  ghost predicate WalkPrefix(frames: seq<nat>, pages: seq<nat>, tableFrames: seq<nat>, mapped: seq<HeapMapping>) {
    && |mapped| <= |tableFrames| == |pages|
    && (forall j :: 0 <= j < |mapped| ==> PageFits(tableFrames, |frames|, j))
    && forall j {:trigger mapped[j]} :: 0 <= j < |mapped| ==>
         && mapped[j].page == pages[j]
         && Nth(frames, Cursor(tableFrames, j)) == Some(mapped[j].frame)
  }

  /** Mapping the next page, which fits, extends the walk by its page and the frame at its cursor. */
  lemma WalkStep(frames: seq<nat>, pages: seq<nat>, tableFrames: seq<nat>, mapped: seq<HeapMapping>, m: HeapMapping)
    requires WalkPrefix(frames, pages, tableFrames, mapped) && |mapped| < |pages|
    requires Cursor(tableFrames, |mapped|) + tableFrames[|mapped|] < |frames|
    requires m == HeapMapping(pages[|mapped|], frames[Cursor(tableFrames, |mapped|)])
    ensures WalkPrefix(frames, pages, tableFrames, mapped + [m])
  {
    assert PageFits(tableFrames, |frames|, |mapped|);
  }

  /** A walk in which every page fitted ends in success. */
  lemma WalkSucceeds(frames: seq<nat>, pages: seq<nat>, tableFrames: seq<nat>, mapped: seq<HeapMapping>)
    requires WalkPrefix(frames, pages, tableFrames, mapped) && |mapped| == |pages|
    ensures HeapWalkOutcome(frames, pages, tableFrames, Ok(mapped), Cursor(tableFrames, |tableFrames|))
  {
  }

  /** A walk that stopped at the first page that did not fit ends in that page's error. */
  lemma WalkFails(frames: seq<nat>, pages: seq<nat>, tableFrames: seq<nat>, mapped: seq<HeapMapping>,
                  result: Result<seq<HeapMapping>, MemoryError>, next: nat)
    requires WalkPrefix(frames, pages, tableFrames, mapped) && |mapped| < |pages|
    requires var c := Cursor(tableFrames, |mapped|);
      if c >= |frames| then result == Err(OutOfMemory) && next == c + 1
      else c + tableFrames[|mapped|] >= |frames| && result == Err(MappingFailed) && next == |frames| + 1
    ensures HeapWalkOutcome(frames, pages, tableFrames, result, next)
  {
    FailureAt(tableFrames, |frames|, |mapped|);
  }

  /** Distinct walk positions of the usable frames are distinct frames when the regions are disjoint and aligned. */
  lemma WalkFramesDistinct(memoryMap: seq<MemoryRegion>, pages: seq<nat>, tableFrames: seq<nat>, mapped: seq<HeapMapping>)
    requires RegionsDisjoint(memoryMap) && RegionsAligned(memoryMap)
    requires WalkPrefix(UsableFrames(memoryMap), pages, tableFrames, mapped)
    ensures forall i, j :: 0 <= i < j < |mapped| ==> mapped[i].frame != mapped[j].frame
  {
    UsableFramesDistinct(memoryMap);
    forall a, b | 0 <= a < b < |mapped| ensures mapped[a].frame != mapped[b].frame {
      CursorGaps(tableFrames, a, b);
    }
  }

  /**
   * The loop of `init_memory_management` over a page range: page by page in order,
   * draws the page's frame and then the frames `map_to` takes for new page tables.
   */
  method MapHeapPages(allocator: BootInfoFrameAllocator, pages: seq<nat>, tableFrames: seq<nat>)
    returns (result: Result<seq<HeapMapping>, MemoryError>)
    requires allocator.Valid() && allocator.next == 0 && |tableFrames| == |pages|
    modifies allocator
    ensures allocator.Valid()
    ensures HeapWalkOutcome(UsableFrames(allocator.memoryMap), pages, tableFrames, result, allocator.next)
    ensures RegionsDisjoint(allocator.memoryMap) && RegionsAligned(allocator.memoryMap) && result.Ok? ==>
      forall i, j :: 0 <= i < j < |result.value| ==> result.value[i].frame != result.value[j].frame
  {
    ghost var frames := UsableFrames(allocator.memoryMap);
    var mapped: seq<HeapMapping> := [];
    var i := 0;
    while i < |pages|
      invariant i == |mapped| <= |pages|
      invariant allocator.Valid()
      invariant allocator.next == Cursor(tableFrames, i)
      invariant WalkPrefix(frames, pages, tableFrames, mapped)
    {
      var mapping := MapHeapPage(allocator, pages[i], tableFrames[i]);
      if mapping.Err? {
        result := Err(mapping.error);
        WalkFails(frames, pages, tableFrames, mapped, result, allocator.next);
        return;
      }
      WalkStep(frames, pages, tableFrames, mapped, mapping.value);
      mapped := mapped + [mapping.value];
      i := i + 1;
    }
    result := Ok(mapped);
    WalkSucceeds(frames, pages, tableFrames, mapped);
    if RegionsDisjoint(allocator.memoryMap) && RegionsAligned(allocator.memoryMap) {
      WalkFramesDistinct(allocator.memoryMap, pages, tableFrames, mapped);
    }
  }

  /**
   * `init_memory_management`: seeds a frame allocator from the memory map and maps
   * every heap page with `MapHeapPages`; `tableFrames[i]` is the number of page tables
   * `map_to` creates for heap page `i`.
   */
  method InitMemoryManagement(memoryMap: seq<MemoryRegion>, tableFrames: seq<nat>)
    returns (result: Result<seq<HeapMapping>, MemoryError>, allocator: BootInfoFrameAllocator)
    requires |tableFrames| == |HeapPages()|
    ensures fresh(allocator) && allocator.Valid() && allocator.memoryMap == memoryMap
    ensures HeapWalkOutcome(UsableFrames(memoryMap), HeapPages(), tableFrames, result, allocator.next)
    ensures RegionsDisjoint(memoryMap) && RegionsAligned(memoryMap) && result.Ok? ==>
      forall i, j :: 0 <= i < j < |result.value| ==> result.value[i].frame != result.value[j].frame
  {
    allocator := new BootInfoFrameAllocator.Init(memoryMap);
    var pages := HeapPages();
    result := MapHeapPages(allocator, pages, tableFrames);
  }
  /** A page that does not fit has a first such page at or before it, so a failing walk has an error to report. */
  lemma {:induction false} FirstMisfitExists(tableFrames: seq<nat>, n: nat, i: nat)
    requires i < |tableFrames| && !PageFits(tableFrames, n, i)
    ensures exists k: nat :: k <= i && FirstMisfit(tableFrames, n, k)
  {
    if forall j :: 0 <= j < i ==> PageFits(tableFrames, n, j) {
      assert FirstMisfit(tableFrames, n, i);
    } else {
      var j :| 0 <= j < i && !PageFits(tableFrames, n, j);
      FirstMisfitExists(tableFrames, n, j);
    }
  }

  /** When `map_to` never creates a table and there are enough usable frames, page `i` gets the `i`-th one. */
  lemma WalkWithoutTables(frames: seq<nat>, pages: seq<nat>, tableFrames: seq<nat>,
                          result: Result<seq<HeapMapping>, MemoryError>, next: nat)
    requires |tableFrames| == |pages| <= |frames|
    requires forall j :: 0 <= j < |tableFrames| ==> tableFrames[j] == 0
    requires HeapWalkOutcome(frames, pages, tableFrames, result, next)
    ensures result.Ok? && next == |pages| && |result.value| == |pages|
    ensures forall i :: 0 <= i < |pages| ==> result.value[i] == HeapMapping(pages[i], frames[i])
  {
    forall i | 0 <= i <= |tableFrames| ensures Cursor(tableFrames, i) == i {
      CursorWithoutTables(tableFrames, i);
    }
    assert forall i :: 0 <= i < |tableFrames| ==> PageFits(tableFrames, |frames|, i);
  }

  /**
   * The heap lies where no page tables exist yet, so the first `map_to` creates three
   * and the rest none. With exactly as many usable frames as heap pages, the walk runs
   * dry at page 253 before its own frame is drawn.
   */
  lemma WalkWithFirstTables(frames: seq<nat>, pages: seq<nat>, tableFrames: seq<nat>,
                            result: Result<seq<HeapMapping>, MemoryError>, next: nat)
    requires |tableFrames| == |pages| == |frames| == 256
    requires tableFrames[0] == 3 && forall j :: 0 < j < |tableFrames| ==> tableFrames[j] == 0
    requires HeapWalkOutcome(frames, pages, tableFrames, result, next)
    ensures result == Err(OutOfMemory) && next == 257
  {
    FirstPageTablesShortenHeap(tableFrames);
    assert FirstMisfit(tableFrames, 256, 253);
  }


  /** Once page `i` is known not to fit, after all earlier pages did, only page `i` is the first misfit. */
  lemma FailureAt(tableFrames: seq<nat>, n: nat, i: nat)
    requires i < |tableFrames| && !PageFits(tableFrames, n, i)
    requires forall j :: 0 <= j < i ==> PageFits(tableFrames, n, j)
    ensures forall k :: FirstMisfit(tableFrames, n, k) <==> k == i
  {
    forall k | FirstMisfit(tableFrames, n, k) ensures k == i {
      FirstMisfitUnique(tableFrames, n, i, k);
    }
  }

  // ---------------------------------------------------------------------------
  // The x86_64 platform memory manager
  // ---------------------------------------------------------------------------

  /** `X86MemoryManager`: every operation is still a stub with a fixed outcome. */
  class X86MemoryManager {
    var frameAllocator: Option<BootInfoFrameAllocator>

    constructor ()
      ensures frameAllocator == None
    {
      frameAllocator := None;
    }

    method Init() returns (r: Result<(), MemoryError>)
      ensures r == Ok(())
    {
      r := Ok(());
    }

    method AllocatePages(count: nat) returns (r: Result<nat, MemoryError>)
      ensures r == Err(FrameAllocationFailed)
    {
      r := Err(FrameAllocationFailed);
    }

    method DeallocatePages(phys: nat, count: nat) returns (r: Result<(), MemoryError>)
      ensures r == Ok(())
    {
      r := Ok(());
    }

    method MapPages(virt: nat, phys: nat, count: nat, flags: nat) returns (r: Result<(), MemoryError>)
      ensures r == Err(MappingFailed)
    {
      r := Err(MappingFailed);
    }

    method UnmapPages(virt: nat, count: nat) returns (r: Result<(), MemoryError>)
      ensures r == Ok(())
    {
      r := Ok(());
    }
  }
}
