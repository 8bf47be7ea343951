/**
 The death-observation protocol as a transition system.

 A state holds what the kernel keeps (process table, pending signals, eventfd
 counter), what the library keeps (observer map and its mutex, the loop of
 SignalTrap::run, the calls in progress on every thread) and histories used only
 to state properties.  Every step is one system call, one lock operation or one
 update that the code makes while it holds the lock, so that all interleavings of
 children, signal trap, add() and on_sig_child() are runs of the system.
 */
module Observation {
  import opened Options

  type Pid = int
  type Tid = int
  type Signal = int

  const SIGCHLD: Signal := 17
  /** Capacity of the buffer that one read from the signalfd fills. */
  const BATCH: nat := 5
  /** Largest value an eventfd counter takes; a write beyond it fails. */
  const EVENTFD_MAX: nat := 0xffff_ffff_ffff_fffe
  /** The one thread that executes SignalTrap::run. */
  const RUNNER: Tid := 0

  datatype Life = Alive | Zombie | Reaped

  /** A child of this process; inGroup says whether it is in our process group, where waitpid(0, ..) can see it. */
  datatype Child = Child(life: Life, inGroup: bool)

  /** Where a thread stands inside add() or on_sig_child(). */
  datatype ThreadPc =
    | Idle
    | AddCalled(pid: Pid)    // add: waiting for the lock
    | AddLocked(pid: Pid)    // add: lock held, about to insert
    | AddInserted(pid: Pid)  // add: inserted, about to call waitpid(pid)
    | AddMissed(pid: Pid)    // add: waitpid was non-zero, about to emit child_died
    | AddTold(pid: Pid)      // add: emitted, about to erase
    | Draining               // on_sig_child: about to call waitpid(0)
    | Collected(pid: Pid)    // on_sig_child: waitpid returned pid, waiting for the lock
    | DrainLocked(pid: Pid)  // on_sig_child: lock held, about to look pid up
    | DrainTold(pid: Pid)    // on_sig_child: emitted, about to erase

  /** Where SignalTrap::run stands. */
  datatype RunPc =
    | NotRunning
    | Polling
    | Polled(signalled: bool, stopping: bool)
    | Dispatching(rest: seq<Signal>, stopping: bool)
    | Broken  // a failed read, whose -1 would be used as an unsigned length

  /** SignalTrap: its signals, what the kernel keeps for it, its loop, and histories. */
  datatype Trap = Trap(
    mask: set<Signal>,
    pending: set<Signal>,
    counter: nat,
    runner: RunPc,
    dequeued: seq<Signal>,        // signals read from the signalfd, in order
    emitted: seq<Signal>,         // emissions of signal_raised, in order
    raisedAt: map<Signal, nat>,   // length of emitted when the signal was last raised
    stops: nat,                   // successful stop() calls
    drained: nat)                 // sum of the values read from the eventfd

  /** DeathObserverImpl: its mutex and map, and histories. */
  datatype Observer = Observer(
    lock: Option<Tid>,
    children: set<Pid>,
    handles: set<Pid>,            // pids of all handles ever passed to add()
    inserted: multiset<Pid>,      // successful insertions
    rejected: multiset<Pid>,      // insertions that found the pid present
    announced: multiset<Pid>)     // emissions of child_died

  datatype State = State(procs: map<Pid, Child>, trap: Trap, obs: Observer, threads: map<Tid, ThreadPc>)

  /** What waitpid(0, .., WNOHANG) answers. */
  datatype WaitResult = NoChild | NotYet | Got(pid: Pid) | Interrupted

  /** Children, senders of signals, and callers of stop(). */
  datatype WorldStep =
    | Spawn(pid: Pid)                   // fork: a child starts in its parent's process group
    | Regroup(pid: Pid, inGroup: bool)  // setpgid: a living child leaves the group or comes back
    | Die(pid: Pid)
    | Raise(sig: Signal)
    | Stop

  /** SignalTrap::run. */
  datatype LoopStep =
    | EnterRun
    | PollInterrupted
    | PollFailed
    | PollReady
    | ReadSignals(batch: seq<Signal>)
    | ReadFailed
    | SkipSignals
    | Dispatch
    | EndIteration

  /** add() and on_sig_child(). */
  datatype CallStep =
    | CallAdd(pid: Pid)
    | CallOnSigChild
    | Lock
    | Insert
    | Probe
    | Announce
    | Erase
    | WaitAny(result: WaitResult)

  datatype Step = World(w: WorldStep) | Loop(l: LoopStep) | Call(t: Tid, c: CallStep)

  function Pc(s: State, t: Tid): ThreadPc {
    if t in s.threads then s.threads[t] else Idle
  }

  predicate Holds(pc: ThreadPc) {
    pc.AddLocked? || pc.AddInserted? || pc.AddMissed? || pc.AddTold? || pc.DrainLocked? || pc.DrainTold?
  }

  predicate InHandler(pc: ThreadPc) {
    pc.Draining? || pc.Collected? || pc.DrainLocked? || pc.DrainTold?
  }

  /** pid is not, or no longer, an unreaped child. */
  predicate Gone(s: State, pid: Pid) {
    pid in s.procs ==> s.procs[pid].life == Reaped
  }

  predicate IsZombie(s: State, pid: Pid) {
    pid in s.procs && s.procs[pid] == Child(Zombie, true)
  }

  predicate Unreaped(s: State, pid: Pid) {
    pid in s.procs && s.procs[pid].inGroup && s.procs[pid].life != Reaped
  }

  predicate Readable(t: Trap) {
    exists x :: x in t.pending && x in t.mask
  }

  /** The kernel's answer to waitpid(0, .., WNOHANG). */
  predicate WaitAnswer(s: State, result: WaitResult) {
    match result
    case NoChild => forall p | p in s.procs :: !Unreaped(s, p)
    case NotYet => (exists p | p in s.procs :: Unreaped(s, p)) && forall p | p in s.procs :: !IsZombie(s, p)
    case Got(pid) => IsZombie(s, pid)
    case Interrupted => true
  }

  /** The signals of the current batch that are still to be dispatched. */
  function Rest(t: Trap): seq<Signal> {
    if t.runner.Dispatching? then t.runner.rest else []
  }

  /** What one read from a readable signalfd may return. */
  predicate BatchOf(t: Trap, batch: seq<Signal>) {
    && 1 <= |batch| <= BATCH
    && (forall i, j :: 0 <= i < j < |batch| ==> batch[i] != batch[j])
    && forall x :: x in batch ==> x in t.pending && x in t.mask
  }

  predicate WorldEnabled(s: State, w: WorldStep) {
    match w
    case Spawn(pid) => pid !in s.procs && pid !in s.obs.handles
    case Regroup(pid, _) => pid in s.procs && s.procs[pid].life == Alive
    case Die(pid) => pid in s.procs && s.procs[pid].life == Alive
    case Raise(_) => true
    case Stop => s.trap.counter < EVENTFD_MAX
  }

  /** Whether the loop can take a step; waiting says that its thread is not inside a slot. */
  predicate LoopEnabled(t: Trap, waiting: bool, l: LoopStep) {
    match l
    case EnterRun => t.runner == NotRunning && waiting
    case PollInterrupted => t.runner == Polling
    case PollFailed => t.runner == Polling
    case PollReady => t.runner == Polling && (Readable(t) || t.counter > 0)
    case ReadSignals(batch) => t.runner.Polled? && t.runner.signalled && BatchOf(t, batch)
    case ReadFailed => t.runner.Polled? && t.runner.signalled && !Readable(t)
    case SkipSignals => t.runner.Polled? && !t.runner.signalled
    case Dispatch => t.runner.Dispatching? && t.runner.rest != [] && waiting
    case EndIteration => t.runner.Dispatching? && t.runner.rest == [] && waiting
  }

  predicate CallEnabled(s: State, t: Tid, c: CallStep) {
    var pc := Pc(s, t);
    match c
    case CallAdd(_) => pc == Idle && (t == RUNNER ==> s.trap.runner == NotRunning)
    case CallOnSigChild => pc == Idle && (t == RUNNER ==> s.trap.runner == NotRunning)
    case Lock => (pc.AddCalled? || pc.Collected?) && s.obs.lock == None
    case Insert => pc.AddLocked?
    case Probe => pc.AddInserted?
    case Announce => pc.AddMissed? || pc.DrainLocked?
    case Erase => pc.AddTold? || pc.DrainTold?
    case WaitAny(result) => pc == Draining && WaitAnswer(s, result)
  }

  predicate Enabled(s: State, step: Step) {
    match step
    case World(w) => WorldEnabled(s, w)
    case Loop(l) => LoopEnabled(s.trap, Pc(s, RUNNER) == Idle, l)
    case Call(t, c) => CallEnabled(s, t, c)
  }

  function RaiseSignal(t: Trap, sig: Signal): Trap {
    t.(pending := t.pending + {sig}, raisedAt := t.raisedAt[sig := |t.emitted|])
  }

  function ApplyWorld(s: State, w: WorldStep): State
    requires WorldEnabled(s, w)
  {
    match w
    case Spawn(pid) => s.(procs := s.procs[pid := Child(Alive, true)])
    case Regroup(pid, inGroup) => s.(procs := s.procs[pid := Child(Alive, inGroup)])
    case Die(pid) => s.(procs := s.procs[pid := s.procs[pid].(life := Zombie)], trap := RaiseSignal(s.trap, SIGCHLD))
    case Raise(sig) => s.(trap := RaiseSignal(s.trap, sig))
    case Stop => s.(trap := s.trap.(counter := s.trap.counter + 1, stops := s.trap.stops + 1))
  }

  /** One step of the loop on the trap itself; the has() filter guards the emission. */
  function ApplyLoop(t: Trap, waiting: bool, l: LoopStep): Trap
    requires LoopEnabled(t, waiting, l)
  {
    match l
    case EnterRun => t.(runner := Polling)
    case PollInterrupted => t
    case PollFailed => t.(runner := NotRunning)
    case PollReady => t.(runner := Polled(Readable(t), t.counter > 0))
    case ReadSignals(batch) =>
      t.(runner := Dispatching(batch, t.runner.stopping),
      pending := t.pending - (set x | x in batch),
      dequeued := t.dequeued + batch)
    case ReadFailed => t.(runner := Broken)
    case SkipSignals => t.(runner := Dispatching([], t.runner.stopping))
    case Dispatch =>
      t.(runner := Dispatching(t.runner.rest[1..], t.runner.stopping),
      emitted := if t.runner.rest[0] in t.mask then t.emitted + [t.runner.rest[0]] else t.emitted)
    case EndIteration =>
      if t.runner.stopping then t.(runner := NotRunning, drained := t.drained + t.counter, counter := 0)
      else t.(runner := Polling)
  }

  /** Emitting SIGCHLD makes the running thread enter on_sig_child. */
  predicate EntersHandler(t: Trap, l: LoopStep) {
    l.Dispatch? && t.runner.Dispatching? && t.runner.rest != [] && t.runner.rest[0] == SIGCHLD && SIGCHLD in t.mask
  }

  function Goto(s: State, t: Tid, pc: ThreadPc): State {
    s.(threads := s.threads[t := pc])
  }

  function Reap(s: State, pid: Pid): State
    requires pid in s.procs
  {
    s.(procs := s.procs[pid := s.procs[pid].(life := Reaped)])
  }

  /** add(): insert under the lock; a pid already present ends the call. */
  function InsertEntry(s: State, t: Tid, pid: Pid): State {
    if pid in s.obs.children
    then Goto(s, t, Idle).(obs := s.obs.(lock := None, rejected := s.obs.rejected + multiset{pid}))
    else Goto(s, t, AddInserted(pid)).(obs := s.obs.(children := s.obs.children + {pid},
    inserted := s.obs.inserted + multiset{pid}))
  }

  /** add(): waitpid(pid, .., WNOHANG) answers 0 for a living child only. */
  function ProbeEntry(s: State, t: Tid, pid: Pid): State {
    if pid !in s.procs then Goto(s, t, AddMissed(pid))
    else if s.procs[pid].life == Alive then Goto(s, t, Idle).(obs := s.obs.(lock := None))
    else Goto(Reap(s, pid), t, AddMissed(pid))
  }

  /** Emission of child_died, by add() or, when the pid is in the map, by on_sig_child(). */
  function AnnounceEntry(s: State, t: Tid, pid: Pid, adding: bool): State {
    if !adding && pid !in s.obs.children then Goto(s, t, Draining).(obs := s.obs.(lock := None))
    else Goto(s, t, if adding then AddTold(pid) else DrainTold(pid)).(obs := s.obs.(announced := s.obs.announced + multiset{pid}))
  }

  function EraseEntry(s: State, t: Tid, pid: Pid, adding: bool): State {
    Goto(s, t, if adding then Idle else Draining).(obs := s.obs.(lock := None, children := s.obs.children - {pid}))
  }

  function ApplyCall(s: State, t: Tid, c: CallStep): State
    requires CallEnabled(s, t, c)
  {
    var pc := Pc(s, t);
    match c
    case CallAdd(pid) =>
      if pid == -1 then s else Goto(s, t, AddCalled(pid)).(obs := s.obs.(handles := s.obs.handles + {pid}))
    case CallOnSigChild => Goto(s, t, Draining)
    case Lock => Goto(s, t, if pc.AddCalled? then AddLocked(pc.pid) else DrainLocked(pc.pid)).(obs := s.obs.(lock := Some(t)))
    case Insert => InsertEntry(s, t, pc.pid)
    case Probe => ProbeEntry(s, t, pc.pid)
    case Announce => AnnounceEntry(s, t, pc.pid, pc.AddMissed?)
    case Erase => EraseEntry(s, t, pc.pid, pc.AddTold?)
    case WaitAny(result) =>
      match result {
        case NoChild => Goto(s, t, Idle)
        case NotYet => Goto(s, t, Idle)
        case Got(pid) => Goto(Reap(s, pid), t, Collected(pid))
        case Interrupted => s
      }
  }

  function Apply(s: State, step: Step): State
    requires Enabled(s, step)
  {
    match step
    case World(w) => ApplyWorld(s, w)
    case Loop(l) =>
      var s' := s.(trap := ApplyLoop(s.trap, Pc(s, RUNNER) == Idle, l));
      if EntersHandler(s.trap, l) then Goto(s', RUNNER, Draining) else s'
    case Call(t, c) => ApplyCall(s, t, c)
  }

  /**
   The observer has just been created on a trap for SIGCHLD: nothing is observed, no call
   is in progress.  Children may have died before, with or without a SIGCHLD pending.
   */
  ghost predicate Init(s: State) {
    && SIGCHLD in s.trap.mask
    && s.obs == Observer(None, {}, {}, multiset{}, multiset{}, multiset{})
    && s.threads == map[]
    && s.trap == Trap(s.trap.mask, s.trap.pending, 0, NotRunning, [], [], map[], 0, 0)
  }

  /** steps is a run of the system from s to s'. */
  predicate Run(s: State, steps: seq<Step>, s': State)
    decreases |steps|
  {
    if steps == [] then s == s'
    else Enabled(s, steps[0]) && Run(Apply(s, steps[0]), steps[1..], s')
  }
}
