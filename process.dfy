/**
 * Process management (src/process/mod.rs): process control blocks, the round-robin
 * scheduler over a process table and a ready queue, and process creation.
 *
 * The scheduler is a class with the source's three fields. Each of its operations is
 * specified by a step function on the abstract state `SchedState`; the lemmas below
 * the step functions are what the operations promise.
 */
module Process {
  import opened Wrappers
  import opened Machine

  /** `ProcessId` is a `u64`. */
  type ProcessId = Uint64

  datatype ProcessState = Running | Ready | Blocked | Terminated

  /** Number of general-purpose registers saved in a control block. */
  const RegisterCount: nat := 16

  datatype ProcessControlBlock = ProcessControlBlock(
    id: ProcessId,
    name: string,
    state: ProcessState,
    priority: Byte,
    stackPointer: Option<Uint64>,
    programCounter: Option<Uint64>,
    registers: seq<Uint64>)

  /** `ProcessControlBlock::new`: a fresh, ready, zeroed control block. */
  function NewPcb(id: ProcessId, name: string): (p: ProcessControlBlock)
    ensures p.id == id && p.name == name
    ensures p.state == Ready && p.priority == 0
    ensures p.stackPointer == None && p.programCounter == None
    ensures |p.registers| == RegisterCount
    ensures forall i :: 0 <= i < |p.registers| ==> p.registers[i] == 0
  {
    ProcessControlBlock(id, name, Ready, 0, None, None, seq(RegisterCount, _ => 0))
  }

  /** `ProcessControlBlock::set_state`: changes the state and nothing else. */
  function SetState(p: ProcessControlBlock, s: ProcessState): (r: ProcessControlBlock)
    ensures r.state == s
    ensures r.(state := p.state) == p
  {
    p.(state := s)
  }

  // ---------------------------------------------------------------------------
  // Abstract scheduler state and the effect of each operation on it
  // ---------------------------------------------------------------------------

  datatype SchedState = SchedState(
    processes: map<ProcessId, ProcessControlBlock>,
    readyQueue: seq<ProcessId>,
    current: Option<ProcessId>)

  /**
   * What the scheduler's operations keep: every control block is filed under its own
   * id, and every queued pid names a process in the table.
   */
  ghost predicate Consistent(s: SchedState) {
    && (forall pid :: pid in s.processes ==> s.processes[pid].id == pid)
    && (forall i :: 0 <= i < |s.readyQueue| ==> s.readyQueue[i] in s.processes)
  }

  const EmptyState: SchedState := SchedState(map[], [], None)

  /** `q.retain(|&x| x != pid)`: the queue with every occurrence of `pid` dropped. */
  function Without(q: seq<ProcessId>, pid: ProcessId): (r: seq<ProcessId>)
    ensures |r| <= |q|
  {
    if q == [] then []
    else (if q[0] == pid then [] else [q[0]]) + Without(q[1..], pid)
  }

  /** `retain` drops every occurrence of `pid` and keeps the count of every other pid. */
  lemma {:induction false} WithoutMultiset(q: seq<ProcessId>, pid: ProcessId)
    ensures multiset(Without(q, pid)) == multiset(q)[pid := 0]
  {
    if q != [] {
      WithoutMultiset(q[1..], pid);
      var head: seq<ProcessId> := if q[0] == pid then [] else [q[0]];
      assert Without(q, pid) == head + Without(q[1..], pid);
      var first: seq<ProcessId> := [q[0]];
      assert q == first + q[1..];
      assert multiset(Without(q, pid)) == multiset(head) + multiset(Without(q[1..], pid));
      assert multiset(q) == multiset(first) + multiset(q[1..]);
    }
  }

  /**
   * `retain` drops exactly the occurrences of `pid`: every other pid keeps its number
   * of occurrences.
   */
  lemma WithoutCounts(q: seq<ProcessId>, pid: ProcessId)
    ensures pid !in Without(q, pid)
    ensures forall x :: x != pid ==> (x in Without(q, pid) <==> x in q)
    ensures multiset(Without(q, pid)) == multiset(q)[pid := 0]
  {
    WithoutMultiset(q, pid);
    assert pid !in multiset(Without(q, pid));
    forall x | x != pid
      ensures x in Without(q, pid) <==> x in q
    {
      assert x in Without(q, pid) <==> x in multiset(Without(q, pid));
      assert x in q <==> x in multiset(q);
    }
  }

  /** Moves the head of a non-empty queue to its tail. */
  function Rotate(q: seq<ProcessId>): (r: seq<ProcessId>)
    requires q != []
    ensures |r| == |q|
  {
    q[1..] + [q[0]]
  }

  /** A rotation keeps every entry: the queue after it is a permutation of the one before. */
  lemma RotatePermutes(q: seq<ProcessId>)
    requires q != []
    ensures multiset(Rotate(q)) == multiset(q)
    ensures Rotate(q)[|q| - 1] == q[0]
  {
    assert q == [q[0]] + q[1..];
  }

  /** Sets the state of `pid` if the table holds it. */
  function MarkState(m: map<ProcessId, ProcessControlBlock>, pid: ProcessId, s: ProcessState)
    : (r: map<ProcessId, ProcessControlBlock>)
    ensures r.Keys == m.Keys
    ensures forall q :: q in m && q != pid ==> r[q] == m[q]
    ensures pid in m ==> r[pid] == SetState(m[pid], s)
  {
    if pid in m then m[pid := SetState(m[pid], s)] else m
  }

  /** `add_process`. */
  function AddStep(s: SchedState, pcb: ProcessControlBlock): SchedState {
    SchedState(s.processes[pcb.id := pcb], s.readyQueue + [pcb.id], s.current)
  }

  /** `remove_process`: the new state and the removed control block. */
  function RemoveStep(s: SchedState, pid: ProcessId): (SchedState, Option<ProcessControlBlock>) {
    (SchedState(s.processes - {pid}, Without(s.readyQueue, pid), s.current), Get(s.processes, pid))
  }

  /** `schedule`: the new state and the control block of the process picked. */
  function ScheduleStep(s: SchedState): (SchedState, Option<ProcessControlBlock>) {
    if s.readyQueue == [] then (s, None)
    else
      var next := s.readyQueue[0];
      (SchedState(s.processes, Rotate(s.readyQueue), Some(next)), Get(s.processes, next))
  }

  /** `block_current`. */
  function BlockStep(s: SchedState): SchedState {
    match s.current
    case None => s
    case Some(pid) => SchedState(MarkState(s.processes, pid, Blocked), s.readyQueue, None)
  }

  /** `unblock`. */
  function UnblockStep(s: SchedState, pid: ProcessId): SchedState {
    if pid in s.processes && s.processes[pid].state == Blocked then
      SchedState(s.processes[pid := SetState(s.processes[pid], Ready)], s.readyQueue + [pid], s.current)
    else s
  }

  /** `current_process`: the control block of the current pid, if it is still in the table. */
  function CurrentOf(s: SchedState): (r: Option<ProcessControlBlock>)
    ensures r.Some? <==> s.current.Some? && s.current.value in s.processes
    ensures r.Some? ==> r.value == s.processes[s.current.value]
  {
    match s.current
    case None => None
    case Some(pid) => Get(s.processes, pid)
  }

  /** The state after `n` calls of `schedule` with nothing in between. */
  function ScheduleN(s: SchedState, n: nat): SchedState {
    if n == 0 then s else ScheduleStep(ScheduleN(s, n - 1)).0
  }

  // ---------------------------------------------------------------------------
  // What the operations promise
  // ---------------------------------------------------------------------------

  lemma AddStepProperties(s: SchedState, pcb: ProcessControlBlock)
    requires Consistent(s)
    ensures Consistent(AddStep(s, pcb))
    ensures AddStep(s, pcb).processes[pcb.id] == pcb
    ensures |AddStep(s, pcb).readyQueue| == |s.readyQueue| + 1
    ensures AddStep(s, pcb).readyQueue[..|s.readyQueue|] == s.readyQueue
    ensures AddStep(s, pcb).readyQueue[|s.readyQueue|] == pcb.id
    ensures forall p :: p in s.processes && p != pcb.id ==> p in AddStep(s, pcb).processes && AddStep(s, pcb).processes[p] == s.processes[p]
    ensures AddStep(s, pcb).current == s.current
  {
    assert (s.readyQueue + [pcb.id])[..|s.readyQueue|] == s.readyQueue;
  }

  lemma RemoveStepProperties(s: SchedState, pid: ProcessId)
    requires Consistent(s)
    ensures var (t, removed) := RemoveStep(s, pid);
      && Consistent(t)
      && removed == (if pid in s.processes then Some(s.processes[pid]) else None)
      && pid !in t.processes && pid !in t.readyQueue
      && (forall q :: q in s.processes && q != pid ==> q in t.processes && t.processes[q] == s.processes[q])
      && multiset(t.readyQueue) == multiset(s.readyQueue)[pid := 0]
      && t.current == s.current
  {
    WithoutCounts(s.readyQueue, pid);
    var t := RemoveStep(s, pid).0;
    forall i | 0 <= i < |t.readyQueue| ensures t.readyQueue[i] in t.processes {
      assert t.readyQueue[i] in Without(s.readyQueue, pid);
    }
  }

  /** `retain` keeps the other entries in their order: it commutes with appending. */
  lemma {:induction false} WithoutAppend(a: seq<ProcessId>, b: seq<ProcessId>, pid: ProcessId)
    ensures Without(a + b, pid) == Without(a, pid) + Without(b, pid)
  {
    if a == [] {
      assert a + b == b;
    } else {
      assert (a + b)[0] == a[0];
      assert (a + b)[1..] == a[1..] + b;
      WithoutAppend(a[1..], b, pid);
    }
  }

  /** `retain` on a one-entry queue. */
  lemma WithoutSingle(x: ProcessId, pid: ProcessId)
    ensures Without([x], pid) == if x == pid then [] else [x]
  {
    assert [x][1..] == [];
  }

  /** A queue without `pid` is left as it is. */
  lemma {:induction false} WithoutAbsent(q: seq<ProcessId>, pid: ProcessId)
    requires pid !in q
    ensures Without(q, pid) == q
  {
    if q != [] {
      assert q[1..] + [] == q[1..];
      WithoutAbsent(q[1..], pid);
      assert [q[0]] + q[1..] == q;
    }
  }

  /**
   * `schedule` on an empty queue picks nothing and changes nothing; otherwise it picks
   * the head, makes it current and moves it to the tail.
   */
  lemma ScheduleStepProperties(s: SchedState)
    requires Consistent(s)
    ensures var (t, next) := ScheduleStep(s);
      && Consistent(t)
      && t.processes == s.processes
      && (s.readyQueue == [] <==> next.None?)
      && (s.readyQueue == [] ==> t == s)
      && (s.readyQueue != [] ==>
            && next == Some(s.processes[s.readyQueue[0]])
            && t.current == Some(s.readyQueue[0])
            && t.readyQueue == s.readyQueue[1..] + [s.readyQueue[0]]
            && multiset(t.readyQueue) == multiset(s.readyQueue))
  {
    if s.readyQueue != [] {
      RotatePermutes(s.readyQueue);
      var t := ScheduleStep(s).0;
      forall i | 0 <= i < |t.readyQueue| ensures t.readyQueue[i] in t.processes {
        assert t.readyQueue[i] in multiset(s.readyQueue);
      }
    }
  }

  /** The queue after `n` rotations. */
  function RotateN(q: seq<ProcessId>, n: nat): (r: seq<ProcessId>)
    ensures |r| == |q|
  {
    if n == 0 || q == [] then q else Rotate(RotateN(q, n - 1))
  }

  /** `n` calls of `schedule` rotate the queue `n` times and leave the table alone. */
  lemma {:induction false} ScheduleNQueue(s: SchedState, n: nat)
    ensures ScheduleN(s, n).readyQueue == RotateN(s.readyQueue, n)
    ensures ScheduleN(s, n).processes == s.processes
  {
    if n > 0 {
      ScheduleNQueue(s, n - 1);
    }
  }

  /** Up to a full turn, `n` rotations bring position `n` to the front. */
  lemma {:induction false} RotateNSplit(q: seq<ProcessId>, n: nat)
    requires n <= |q|
    ensures RotateN(q, n) == q[n..] + q[..n]
  {
    if n == 0 {
      assert q[0..] + q[..0] == q;
    } else {
      RotateNSplit(q, n - 1);
      var r := q[n - 1..] + q[..n - 1];
      assert r[0] == q[n - 1];
      assert r[1..] == q[n..] + q[..n - 1];
      assert q[..n - 1] + [q[n - 1]] == q[..n];
    }
  }

  lemma {:induction false} RotateNAdd(q: seq<ProcessId>, a: nat, b: nat)
    ensures RotateN(q, a + b) == RotateN(RotateN(q, a), b)
  {
    if b > 0 && q != [] {
      RotateNAdd(q, a, b - 1);
      assert RotateN(q, a + b) == Rotate(RotateN(q, a + b - 1));
    }
  }

  /** Whole turns cancel out: `d` turns plus `m` rotations are `m` rotations. */
  lemma {:induction false} RotateNTurns(q: seq<ProcessId>, d: nat, m: nat)
    ensures RotateN(q, d * |q| + m) == RotateN(q, m)
  {
    if d > 0 {
      var prev := (d - 1) * |q| + m;
      assert d * |q| + m == prev + |q|;
      RotateNAdd(q, prev, |q|);
      RotateNTurns(q, d - 1, m);
      var r := RotateN(q, m);
      RotateNSplit(r, |r|);
      assert r[|r|..] + r[..|r|] == r;
    }
  }

  /**
   * Round robin: with nothing in between, call number `d * |queue| + m` of `schedule`
   * (counting from 0, with `m < |queue|`) picks the entry at position `m` of the
   * original queue and makes it current. A queue [A, B] yields A, B, A, B, ...
   */
  lemma SchedulePicksCyclically(s: SchedState, d: nat, m: nat)
    requires Consistent(s) && m < |s.readyQueue|
    ensures ScheduleStep(ScheduleN(s, d * |s.readyQueue| + m)).1 == Some(s.processes[s.readyQueue[m]])
    ensures ScheduleN(s, d * |s.readyQueue| + m + 1).current == Some(s.readyQueue[m])
  {
    RotateNTurnsHead(s.readyQueue, d, m);
    SchedulePickAt(s, d * |s.readyQueue| + m, s.readyQueue[m]);
  }

  /** After `d` whole turns and `m` more rotations, entry `m` is at the front. */
  lemma RotateNTurnsHead(q: seq<ProcessId>, d: nat, m: nat)
    requires m < |q|
    ensures RotateN(q, d * |q| + m)[0] == q[m]
  {
    RotateNTurns(q, d, m);
    RotateNSplit(q, m);
    assert (q[m..] + q[..m])[0] == q[m];
  }

  /** Call number `k` of `schedule` picks the head of the queue rotated `k` times. */
  lemma SchedulePickAt(s: SchedState, k: nat, p: ProcessId)
    requires s.readyQueue != [] && RotateN(s.readyQueue, k)[0] == p && p in s.processes
    ensures ScheduleStep(ScheduleN(s, k)).1 == Some(s.processes[p])
    ensures ScheduleN(s, k + 1).current == Some(p)
  {
    ScheduleNQueue(s, k);
    assert ScheduleN(s, k + 1) == ScheduleStep(ScheduleN(s, k)).0;
  }

  /**
   * `block_current` marks the current process Blocked and clears the current slot; it
   * does nothing when no process is current, and never touches the ready queue.
   */
  lemma BlockStepProperties(s: SchedState)
    requires Consistent(s)
    ensures var t := BlockStep(s);
      && Consistent(t)
      && t.readyQueue == s.readyQueue
      && t.current == None
      && (s.current.None? ==> t == s)
      && (s.current.Some? && s.current.value in s.processes ==>
            t.processes == s.processes[s.current.value := SetState(s.processes[s.current.value], Blocked)])
      && (s.current.Some? && s.current.value !in s.processes ==> t.processes == s.processes)
  {
  }

  /**
   * `unblock` acts only on a present, Blocked process, which becomes Ready and is
   * queued once at the tail; in every other case nothing changes.
   */
  lemma UnblockStepProperties(s: SchedState, pid: ProcessId)
    requires Consistent(s)
    ensures var t := UnblockStep(s, pid);
      && Consistent(t)
      && t.current == s.current
      && (pid in s.processes && s.processes[pid].state == Blocked ==>
            && t.processes == s.processes[pid := SetState(s.processes[pid], Ready)]
            && t.readyQueue == s.readyQueue + [pid])
      && (!(pid in s.processes && s.processes[pid].state == Blocked) ==> t == s)
  {
  }

  /** A second `unblock` of the same pid is a no-op. */
  lemma UnblockIdempotent(s: SchedState, pid: ProcessId)
    ensures UnblockStep(UnblockStep(s, pid), pid) == UnblockStep(s, pid)
  {
  }

  /**
   * The code does not keep a ready queue of Ready processes only: after the process `p`
   * is scheduled and blocked, its pid is still queued although it is Blocked, and an
   * `unblock` then queues it a second time.
   */
  lemma BlockedPidStaysQueued(p: ProcessId)
    ensures var s := BlockStep(ScheduleStep(AddStep(EmptyState, NewPcb(p, "p"))).0);
      && s.readyQueue == [p]
      && s.processes[p].state == Blocked
      && UnblockStep(s, p).readyQueue == [p, p]
  {
  }

  // ---------------------------------------------------------------------------
  // The scheduler object
  // ---------------------------------------------------------------------------

  /** `Scheduler`: the process table, the ready queue and the current pid. */
  class Scheduler {
    var processes: map<ProcessId, ProcessControlBlock>
    var readyQueue: seq<ProcessId>
    var current: Option<ProcessId>

    function State(): SchedState
      reads this
    {
      SchedState(processes, readyQueue, current)
    }

    ghost predicate Valid()
      reads this
    {
      Consistent(State())
    }

    /** `Scheduler::new`. */
    constructor ()
      ensures Valid() && State() == EmptyState
    {
      processes := map[];
      readyQueue := [];
      current := None;
    }

    /** `add_process`: files the block under its id and queues the id at the tail. */
    method AddProcess(pcb: ProcessControlBlock)
      requires Valid()
      modifies this
      ensures Valid()
      ensures State() == AddStep(old(State()), pcb)
    {
      AddStepProperties(State(), pcb);
      processes := processes[pcb.id := pcb];
      readyQueue := readyQueue + [pcb.id];
    }

    /**
     * `remove_process`: drops every occurrence of `pid` from the queue (the `retain`
     * loop) and removes it from the table, returning its block if it was there.
     */
    method RemoveProcess(pid: ProcessId) returns (removed: Option<ProcessControlBlock>)
      requires Valid()
      modifies this
      ensures Valid()
      ensures (State(), removed) == RemoveStep(old(State()), pid)
    {
      var queue := readyQueue;
      var kept: seq<ProcessId> := [];
      var i := 0;
      while i < |queue|
        invariant 0 <= i <= |queue|
        invariant kept == Without(queue[..i], pid)
        invariant State() == old(State())
      {
        assert queue[..i + 1] == queue[..i] + [queue[i]];
        WithoutAppend(queue[..i], [queue[i]], pid);
        WithoutSingle(queue[i], pid);
        if queue[i] != pid {
          kept := kept + [queue[i]];
        }
        i := i + 1;
      }
      assert queue[..i] == queue;
      readyQueue := kept;
      removed := Get(processes, pid);
      processes := processes - {pid};
      RemoveStepProperties(old(State()), pid);
    }

    /** `current_process`. */
    function CurrentProcess(): (r: Option<ProcessControlBlock>)
      reads this
      ensures r == CurrentOf(State())
    {
      if current.Some? && current.value in processes then Some(processes[current.value]) else None
    }

    /** `schedule`: round robin over the ready queue. */
    method Schedule() returns (next: Option<ProcessControlBlock>)
      requires Valid()
      modifies this
      ensures Valid()
      ensures (State(), next) == ScheduleStep(old(State()))
    {
      ScheduleStepProperties(State());
      if readyQueue == [] {
        return None;
      }
      var nextPid := readyQueue[0];
      readyQueue := readyQueue[1..];
      readyQueue := readyQueue + [nextPid];
      current := Some(nextPid);
      next := Get(processes, nextPid);
    }

    /** `block_current`. */
    method BlockCurrent()
      requires Valid()
      modifies this
      ensures Valid()
      ensures State() == BlockStep(old(State()))
    {
      BlockStepProperties(State());
      if current.Some? {
        var pid := current.value;
        if pid in processes {
          processes := processes[pid := SetState(processes[pid], Blocked)];
        }
        current := None;
      }
    }

    /** `unblock`. */
    method Unblock(pid: ProcessId)
      requires Valid()
      modifies this
      ensures Valid()
      ensures State() == UnblockStep(old(State()), pid)
    {
      UnblockStepProperties(State(), pid);
      if pid in processes {
        if processes[pid].state == Blocked {
          processes := processes[pid := SetState(processes[pid], Ready)];
          readyQueue := readyQueue + [pid];
        }
      }
    }
  }

  // ---------------------------------------------------------------------------
  // The global scheduler and process creation
  // ---------------------------------------------------------------------------

  /**
   * The global `SCHEDULER` together with the `NEXT_PID` counter of `create_process`,
   * which starts at 1.
   */
  class ProcessManager {
    const scheduler: Scheduler
    var nextPid: ProcessId

    constructor ()
      ensures fresh(scheduler) && scheduler.Valid() && scheduler.State() == EmptyState
      ensures nextPid == 1
    {
      scheduler := new Scheduler();
      nextPid := 1;
    }

    /** `init`: registers the kernel process under pid 0. */
    method Init()
      requires scheduler.Valid()
      modifies scheduler
      ensures scheduler.Valid()
      ensures scheduler.State() == AddStep(old(scheduler.State()), NewPcb(0, "kernel"))
    {
      var kernel := NewPcb(0, "kernel");
      scheduler.AddProcess(kernel);
    }

    /** `create_process`: issues the next pid and adds a fresh block under it. */
    method CreateProcess(name: string) returns (pid: ProcessId)
      requires scheduler.Valid()
      requires nextPid < Uint64Max
      modifies this, scheduler
      ensures scheduler.Valid()
      ensures pid == old(nextPid) && nextPid == pid + 1
      ensures scheduler.State() == AddStep(old(scheduler.State()), NewPcb(pid, name))
    {
      pid := nextPid;
      nextPid := nextPid + 1;
      var process := NewPcb(pid, name);
      scheduler.AddProcess(process);
    }

    /** `switch_to_next_process`: the block `schedule` picks, which the source prints. */
    method SwitchToNextProcess() returns (switched: Option<ProcessControlBlock>)
      requires scheduler.Valid()
      modifies scheduler
      ensures scheduler.Valid()
      ensures (scheduler.State(), switched) == ScheduleStep(old(scheduler.State()))
    {
      switched := scheduler.Schedule();
    }
  }

  /**
   * The boot sequence of `_start`: `init`, then two `create_process` calls, then
   * five `switch_to_next_process` calls over the queue [0, 1, 2].
   */
  method BootScenario()
  {
    var pm := new ProcessManager();
    pm.Init();
    var a := pm.CreateProcess("test_process_1");
    var b := pm.CreateProcess("test_process_2");
    assert a == 1 && b == 2;
    assert pm.scheduler.readyQueue == [0, 1, 2];
    assert forall p :: 0 <= p < 3 ==> p in pm.scheduler.processes && pm.scheduler.processes[p].id == p;
    BootSwitches(pm);
  }

  /** The five switches of `_start` over the queue [0, 1, 2] pick 0, 1, 2, 0 and 1. */
  method BootSwitches(pm: ProcessManager)
    requires pm.scheduler.Valid() && pm.scheduler.readyQueue == [0, 1, 2]
    requires forall p :: 0 <= p < 3 ==> p in pm.scheduler.processes && pm.scheduler.processes[p].id == p
    modifies pm.scheduler
  {
    var p0 := pm.SwitchToNextProcess();
    assert pm.scheduler.readyQueue == [1, 2, 0] && p0.Some? && p0.value.id == 0;
    var p1 := pm.SwitchToNextProcess();
    assert pm.scheduler.readyQueue == [2, 0, 1] && p1.Some? && p1.value.id == 1;
    var p2 := pm.SwitchToNextProcess();
    assert pm.scheduler.readyQueue == [0, 1, 2] && p2.Some? && p2.value.id == 2;
    var p3 := pm.SwitchToNextProcess();
    assert pm.scheduler.readyQueue == [1, 2, 0] && p3.Some? && p3.value.id == 0;
    var p4 := pm.SwitchToNextProcess();
    assert p4.Some? && p4.value.id == 1;
  }
}
