/** The inductive invariant of the death-observation protocol, one conjunct at a time. */
module ObservationInvariant {
  import opened Options
  import opened Observation

  /** The mutex is held by exactly the thread that is inside a critical section. */
  ghost predicate LockInv(s: State) {
    forall t :: Holds(Pc(s, t)) <==> s.obs.lock == Some(t)
  }

  ghost predicate PcFacts(s: State, pc: ThreadPc) {
    match pc
    case Idle => true
    case Draining => true
    case AddCalled(p) => p in s.obs.handles
    case AddLocked(p) => p in s.obs.handles
    case AddInserted(p) => p in s.obs.handles && p in s.obs.children
    case AddMissed(p) => p in s.obs.handles && p in s.obs.children && Gone(s, p)
    case AddTold(p) => p in s.obs.handles && p in s.obs.children && Gone(s, p)
    case Collected(p) => p in s.procs && Gone(s, p)
    case DrainLocked(p) => p in s.procs && Gone(s, p)
    case DrainTold(p) => p in s.procs && Gone(s, p) && p in s.obs.children
  }

  /** What each program counter implies; observed pids come from handles. */
  ghost predicate PcInv(s: State) {
    && s.obs.children <= s.obs.handles
    && forall t :: PcFacts(s, Pc(s, t))
  }

  predicate Told(pc: ThreadPc, p: Pid) {
    pc == AddTold(p) || pc == DrainTold(p)
  }

  /** p has been announced by the lock holder and is still to be erased. */
  predicate InFlight(s: State, p: Pid) {
    s.obs.lock.Some? && Told(Pc(s, s.obs.lock.value), p)
  }

  predicate Balanced(s: State, p: Pid) {
    s.obs.inserted[p] + (if InFlight(s, p) then 1 else 0) == s.obs.announced[p] + (if p in s.obs.children then 1 else 0)
  }

  /** Every registration is either still in the map or has been announced. */
  ghost predicate BalanceInv(s: State) {
    forall p :: Balanced(s, p)
  }

  ghost predicate RejectInv(s: State) {
    forall p :: p in s.obs.rejected ==> p in s.obs.inserted
  }

  ghost predicate SoundInv(s: State) {
    forall p :: p in s.obs.announced ==> Gone(s, p) && p in s.obs.handles
  }

  predicate RunnerDraining(s: State) {
    s.trap.runner.Dispatching? && InHandler(Pc(s, RUNNER))
  }

  predicate Woken(s: State) {
    SIGCHLD in s.trap.pending || SIGCHLD in Rest(s.trap) || RunnerDraining(s)
  }

  /** The lock holder has inserted p and calls waitpid(p) next. */
  predicate AboutToProbe(s: State, p: Pid) {
    s.obs.lock.Some? && Pc(s, s.obs.lock.value) == AddInserted(p)
  }

  /** An observed zombie of the group that on_sig_child() has to find. */
  predicate Due(s: State, p: Pid) {
    IsZombie(s, p) && p in s.obs.children && !AboutToProbe(s, p)
  }

  /** No lost wake-up. */
  ghost predicate WakeInv(s: State) {
    forall p :: Due(s, p) ==> Woken(s)
  }

  predicate Pursues(pc: ThreadPc, p: Pid) {
    || pc == AddInserted(p) || pc == AddMissed(p) || pc == AddTold(p)
    || pc == Collected(p) || pc == DrainLocked(p) || pc == DrainTold(p)
  }

  ghost predicate Pursued(s: State, p: Pid) {
    exists t :: Pursues(Pc(s, t), p)
  }

  /** An observed pid that has been reaped is being dealt with by some call in progress. */
  ghost predicate PursuitInv(s: State) {
    forall p :: p in s.obs.children && Gone(s, p) ==> Pursued(s, p)
  }

  /** The last raise of x is still pending, still in the batch, or has been emitted since. */
  predicate Answered(t: Trap, x: Signal)
    requires x in t.raisedAt
  {
    t.raisedAt[x] <= |t.emitted| && (x in t.pending || x in Rest(t) || x in t.emitted[t.raisedAt[x]..])
  }

  /** SignalTrap::run: emissions follow dequeues, and nothing trapped is dropped. */
  ghost predicate TrapInv(t: Trap) {
    && t.dequeued == t.emitted + Rest(t) && |Rest(t)| <= BATCH
    && (forall x :: x in Rest(t) ==> x in t.mask)
    && (forall x :: x in t.raisedAt && x in t.mask ==> Answered(t, x))
  }

  /** stop() and the loop: what poll reported is still there when it is read. */
  ghost predicate StopInv(t: Trap) {
    && t.stops == t.drained + t.counter
    && t.counter <= EVENTFD_MAX
    && t.runner != Broken
    && (t.runner.Polled? && t.runner.signalled ==> Readable(t))
    && (t.runner.Polled? && t.runner.stopping ==> t.counter > 0)
    && (t.runner.Polled? ==> t.runner.signalled || t.runner.stopping)
    && (t.runner.Dispatching? && t.runner.stopping ==> t.counter > 0)
  }

  /** The running thread is inside a slot only while it dispatches, and then in on_sig_child. */
  ghost predicate RunnerInv(s: State) {
    && SIGCHLD in s.trap.mask
    && (s.trap.runner != NotRunning && Pc(s, RUNNER) != Idle ==> RunnerDraining(s))
  }

  ghost predicate Inv(s: State) {
    && LockInv(s) && PcInv(s) && BalanceInv(s) && RejectInv(s) && SoundInv(s)
    && WakeInv(s) && PursuitInv(s) && TrapInv(s.trap) && StopInv(s.trap) && RunnerInv(s)
  }

  lemma InitInv(s: State)
    requires Init(s)
    ensures Inv(s)
  {
  }

  /** The thread whose program counter a step may change; -1 for the steps of the world. */
  function Actor(step: Step): Tid {
    match step
    case World(_) => -1
    case Loop(_) => RUNNER
    case Call(t, _) => t
  }

  /** Steps of one thread leave every other thread where it is. */
  lemma OthersStay(s: State, step: Step, t: Tid)
    requires Enabled(s, step) && (t != Actor(step) || step.World?)
    ensures Pc(Apply(s, step), t) == Pc(s, t)
  {
  }

  /** Pids are not reused: what is gone stays gone. */
  lemma GoneStays(s: State, step: Step, p: Pid)
    requires Enabled(s, step) && Gone(s, p) && (p in s.procs || p in s.obs.handles)
    ensures Gone(Apply(s, step), p)
  {
  }

  /** The process table and the set of handles only grow. */
  lemma TablesGrow(s: State, step: Step)
    requires Enabled(s, step)
    ensures s.procs.Keys <= Apply(s, step).procs.Keys
    ensures s.obs.handles <= Apply(s, step).obs.handles
  {
  }

  /** Only a thread inside its critical section changes the observer's map. */
  lemma MapGuarded(s: State, step: Step)
    requires Enabled(s, step) && Apply(s, step).obs.children != s.obs.children
    ensures step.Call? && Holds(Pc(s, step.t))
  {
  }

  lemma LockStep(s: State, step: Step)
    requires LockInv(s) && RunnerInv(s) && Enabled(s, step)
    ensures LockInv(Apply(s, step))
  {
    var s' := Apply(s, step);
    forall t ensures Holds(Pc(s', t)) <==> s'.obs.lock == Some(t) {
      assert Holds(Pc(s, t)) <==> s.obs.lock == Some(t);
      if step.Call? { LockCall(s, step.t, step.c, t); }
    }
  }

  lemma LockCall(s: State, u: Tid, c: CallStep, t: Tid)
    requires CallEnabled(s, u, c)
    requires Holds(Pc(s, t)) <==> s.obs.lock == Some(t)
    requires Holds(Pc(s, u)) <==> s.obs.lock == Some(u)
    ensures Holds(Pc(ApplyCall(s, u, c), t)) <==> ApplyCall(s, u, c).obs.lock == Some(t)
  {
  }

  /** The acting thread keeps what its program counter says. */
  lemma PcStepOwn(s: State, step: Step)
    requires PcInv(s) && Enabled(s, step)
    ensures PcFacts(Apply(s, step), Pc(Apply(s, step), Actor(step)))
  {
    assert PcFacts(s, Pc(s, Actor(step)));
    if step.Call? { PcCall(s, step.t, step.c); }
  }

  lemma PcCall(s: State, t: Tid, c: CallStep)
    requires CallEnabled(s, t, c) && PcFacts(s, Pc(s, t))
    ensures PcFacts(ApplyCall(s, t, c), Pc(ApplyCall(s, t, c), t))
  {
  }

  lemma PcStepOther(s: State, step: Step, t: Tid)
    requires LockInv(s) && PcInv(s) && Enabled(s, step) && t != Actor(step)
    ensures PcFacts(Apply(s, step), Pc(Apply(s, step), t))
  {
    var pc := Pc(s, t);
    assert PcFacts(s, pc);
    OthersStay(s, step, t);
    TablesGrow(s, step);
    if Apply(s, step).obs.children != s.obs.children {
      MapGuarded(s, step);
      assert Holds(pc) <==> s.obs.lock == Some(t);
      assert Holds(Pc(s, step.t)) <==> s.obs.lock == Some(step.t);
    }
    if !pc.Idle? && !pc.Draining? && Gone(s, pc.pid) {
      GoneStays(s, step, pc.pid);
    }
  }

  lemma PcStep(s: State, step: Step)
    requires LockInv(s) && PcInv(s) && Enabled(s, step)
    ensures PcInv(Apply(s, step))
  {
    var s' := Apply(s, step);
    assert PcFacts(s, Pc(s, Actor(step)));
    TablesGrow(s, step);
    forall t ensures PcFacts(s', Pc(s', t)) {
      if t == Actor(step) { PcStepOwn(s, step); } else { PcStepOther(s, step, t); }
    }
  }

  lemma BalanceStep(s: State, step: Step)
    requires LockInv(s) && PcInv(s) && BalanceInv(s) && RunnerInv(s) && Enabled(s, step)
    ensures BalanceInv(Apply(s, step))
  {
    var s' := Apply(s, step);
    forall p ensures Balanced(s', p) {
      assert Balanced(s, p);
      if step.Call? {
        BalanceCall(s, step.t, step.c, p);
      } else if s.obs.lock.Some? {
        assert Holds(Pc(s, s.obs.lock.value)) <==> s.obs.lock == Some(s.obs.lock.value);
      }
    }
  }

  lemma BalanceCall(s: State, t: Tid, c: CallStep, p: Pid)
    requires LockInv(s) && PcInv(s) && Balanced(s, p) && CallEnabled(s, t, c)
    ensures Balanced(ApplyCall(s, t, c), p)
  {
    assert PcFacts(s, Pc(s, t));
    assert Holds(Pc(s, t)) <==> s.obs.lock == Some(t);
  }

  lemma RejectStep(s: State, step: Step)
    requires BalanceInv(s) && RejectInv(s) && LockInv(s) && Enabled(s, step)
    ensures RejectInv(Apply(s, step))
  {
    if step.Call? && step.c.Insert? {
      var p := Pc(s, step.t).pid;
      assert Balanced(s, p);
      assert Holds(Pc(s, step.t)) <==> s.obs.lock == Some(step.t);
    }
  }

  lemma SoundStep(s: State, step: Step)
    requires PcInv(s) && SoundInv(s) && Enabled(s, step)
    ensures SoundInv(Apply(s, step))
  {
    var s' := Apply(s, step);
    assert PcFacts(s, Pc(s, Actor(step)));
    TablesGrow(s, step);
    forall p | p in s'.obs.announced ensures Gone(s', p) && p in s'.obs.handles {
      if p in s.obs.announced { GoneStays(s, step, p); }
    }
  }

  /** A step that makes a zombie leaves SIGCHLD pending; no other step adds one. */
  lemma ZombiesCome(s: State, step: Step, p: Pid)
    requires Enabled(s, step) && IsZombie(Apply(s, step), p)
    ensures IsZombie(s, p) || SIGCHLD in Apply(s, step).trap.pending
  {
  }

  /** The wake-up token moves from the kernel to the batch to the handler ... */
  lemma TokenMoves(s: State, step: Step)
    requires RunnerInv(s) && Enabled(s, step) && !step.Call? && Woken(s)
    ensures Woken(Apply(s, step))
  {
    if step == Loop(Dispatch) {
      var rest := s.trap.runner.rest;
      assert rest == [rest[0]] + rest[1..];
    }
  }

  /** ... and the handler gives it up only when no zombie is left. */
  lemma TokenStays(s: State, t: Tid, c: CallStep, p: Pid)
    requires CallEnabled(s, t, c) && Woken(s) && IsZombie(s, p) && RunnerInv(s)
    ensures Woken(ApplyCall(s, t, c))
  {
    assert c == WaitAny(NoChild) ==> !Unreaped(s, p);
  }

  /** A zombie that is there before and after a step keeps the token in place. */
  lemma TokenKept(s: State, step: Step, p: Pid)
    requires RunnerInv(s) && Enabled(s, step) && Woken(s) && IsZombie(s, p)
    ensures Woken(Apply(s, step))
  {
    if step.Call? { TokenStays(s, step.t, step.c, p); } else { TokenMoves(s, step); }
  }

  /** A zombie becomes due only by dying: an insertion is followed by waitpid, which reaps it. */
  lemma DueComes(s: State, step: Step, p: Pid)
    requires LockInv(s) && RunnerInv(s) && Enabled(s, step) && IsZombie(s, p) && Due(Apply(s, step), p)
    ensures Due(s, p)
  {
    assert step.Call? ==> (Holds(Pc(s, step.t)) <==> s.obs.lock == Some(step.t));
    if s.obs.lock.Some? {
      assert Holds(Pc(s, s.obs.lock.value)) <==> s.obs.lock == Some(s.obs.lock.value);
    }
  }

  lemma WakeStep(s: State, step: Step)
    requires LockInv(s) && RunnerInv(s) && WakeInv(s) && Enabled(s, step)
    ensures WakeInv(Apply(s, step))
  {
    var s' := Apply(s, step);
    forall p | Due(s', p) ensures Woken(s') {
      ZombiesCome(s, step, p);
      if IsZombie(s, p) {
        DueComes(s, step, p);
        TokenKept(s, step, p);
      }
    }
  }

  /** Reaping, and inserting what is gone, put the acting thread in pursuit. */
  lemma PursuitBegins(s: State, step: Step, p: Pid)
    requires Enabled(s, step) && p in Apply(s, step).obs.children && Gone(Apply(s, step), p)
    requires !(p in s.obs.children && Gone(s, p))
    ensures Pursues(Pc(Apply(s, step), Actor(step)), p)
  {
  }

  /** A pursuit ends only when the pid has left the map or is alive. */
  lemma PursuitGoesOn(s: State, t: Tid, c: CallStep, p: Pid)
    requires CallEnabled(s, t, c) && Pursues(Pc(s, t), p) && Gone(s, p)
    requires p in ApplyCall(s, t, c).obs.children
    ensures Pursues(Pc(ApplyCall(s, t, c), t), p)
  {
  }

  lemma PursuitStays(s: State, step: Step, t: Tid, p: Pid)
    requires RunnerInv(s) && Enabled(s, step) && Pursues(Pc(s, t), p) && Gone(s, p)
    requires p in Apply(s, step).obs.children
    ensures Pursues(Pc(Apply(s, step), t), p)
  {
    if step.Call? && step.t == t {
      PursuitGoesOn(s, t, step.c, p);
    } else if !step.Loop? {
      OthersStay(s, step, t);
    }
  }

  lemma PursuitStepAt(s: State, step: Step, p: Pid)
    requires PursuitInv(s) && RunnerInv(s) && Enabled(s, step)
    requires p in Apply(s, step).obs.children && Gone(Apply(s, step), p)
    ensures Pursued(Apply(s, step), p)
  {
    if p in s.obs.children && Gone(s, p) {
      var t :| Pursues(Pc(s, t), p);
      PursuitStays(s, step, t, p);
    } else {
      PursuitBegins(s, step, p);
    }
  }

  lemma PursuitStep(s: State, step: Step)
    requires PursuitInv(s) && RunnerInv(s) && Enabled(s, step)
    ensures PursuitInv(Apply(s, step))
  {
    var s' := Apply(s, step);
    forall p | p in s'.obs.children && Gone(s', p) ensures Pursued(s', p) {
      PursuitStepAt(s, step, p);
    }
  }

  lemma AnsweredStep(t: Trap, waiting: bool, l: LoopStep, x: Signal)
    requires TrapInv(t) && LoopEnabled(t, waiting, l) && x in t.raisedAt && x in t.mask
    ensures Answered(ApplyLoop(t, waiting, l), x)
  {
    assert Answered(t, x);
    if l.Dispatch? {
      var rest := t.runner.rest;
      assert rest == [rest[0]] + rest[1..];
      assert rest[0] in Rest(t);
      assert (t.emitted + [rest[0]])[t.raisedAt[x]..] == t.emitted[t.raisedAt[x]..] + [rest[0]];
    }
  }

  lemma TrapLoop(t: Trap, waiting: bool, l: LoopStep)
    requires TrapInv(t) && LoopEnabled(t, waiting, l)
    ensures TrapInv(ApplyLoop(t, waiting, l))
  {
    var t' := ApplyLoop(t, waiting, l);
    assert t.emitted + [] == t.emitted;
    if l.Dispatch? {
      var rest := t.runner.rest;
      var first: Signal := rest[0];
      assert rest == [first] + rest[1..];
      assert first in Rest(t);
      assert t.emitted + rest == t.emitted + [first] + rest[1..];
    }
    forall x | x in t'.raisedAt && x in t'.mask ensures Answered(t', x) {
      AnsweredStep(t, waiting, l, x);
    }
  }

  lemma TrapRaise(t: Trap, sig: Signal)
    requires TrapInv(t)
    ensures TrapInv(RaiseSignal(t, sig))
  {
    var t' := RaiseSignal(t, sig);
    forall x | x in t'.raisedAt && x in t'.mask ensures Answered(t', x) {
      if x != sig { assert Answered(t, x); }
    }
  }

  lemma TrapStep(s: State, step: Step)
    requires TrapInv(s.trap) && Enabled(s, step)
    ensures TrapInv(Apply(s, step).trap)
  {
    match step {
      case World(w) =>
        if w.Die? { TrapRaise(s.trap, SIGCHLD); }
        if w.Raise? { TrapRaise(s.trap, w.sig); }
        if w.Stop? {
          forall x | x in s.trap.raisedAt && x in s.trap.mask ensures Answered(Apply(s, step).trap, x) {
            assert Answered(s.trap, x);
          }
        }
      case Loop(l) => TrapLoop(s.trap, Pc(s, RUNNER) == Idle, l);
      case Call(_, _) =>
    }
  }

  lemma StopLoop(t: Trap, waiting: bool, l: LoopStep)
    requires StopInv(t) && LoopEnabled(t, waiting, l)
    ensures StopInv(ApplyLoop(t, waiting, l))
  {
  }

  lemma StopStep(s: State, step: Step)
    requires StopInv(s.trap) && Enabled(s, step)
    ensures StopInv(Apply(s, step).trap)
  {
    if step.Loop? { StopLoop(s.trap, Pc(s, RUNNER) == Idle, step.l); }
  }

  lemma RunnerStep(s: State, step: Step)
    requires RunnerInv(s) && Enabled(s, step)
    ensures RunnerInv(Apply(s, step))
  {
  }

  lemma StepInv(s: State, step: Step)
    requires Inv(s) && Enabled(s, step)
    ensures Inv(Apply(s, step))
  {
    LockStep(s, step);
    PcStep(s, step);
    BalanceStep(s, step);
    RejectStep(s, step);
    SoundStep(s, step);
    WakeStep(s, step);
    PursuitStep(s, step);
    TrapStep(s, step);
    StopStep(s, step);
    RunnerStep(s, step);
  }

  /** Every reachable state satisfies the invariant. */
  lemma {:induction false} RunInv(s: State, steps: seq<Step>, s': State)
    requires Inv(s) && Run(s, steps, s')
    ensures Inv(s')
    decreases |steps|
  {
    if steps != [] {
      StepInv(s, steps[0]);
      RunInv(Apply(s, steps[0]), steps[1..], s');
    }
  }

  predicate LaterLife(a: Child, b: Child) {
    && (a.life != Alive ==> a.inGroup == b.inGroup)
    && (a.life == Zombie ==> b.life != Alive)
    && (a.life == Reaped ==> b.life == Reaped)
  }

  /** What every run keeps: lives only go forward and histories only grow. */
  ghost predicate Advances(s: State, s': State) {
    && (forall p :: p in s.procs ==> p in s'.procs && LaterLife(s.procs[p], s'.procs[p]))
    && s.obs.inserted <= s'.obs.inserted
    && s.obs.rejected <= s'.obs.rejected
    && s.obs.announced <= s'.obs.announced
    && s.trap.drained <= s'.trap.drained
  }

  lemma CallAdvances(s: State, t: Tid, c: CallStep)
    requires CallEnabled(s, t, c)
    ensures Advances(s, ApplyCall(s, t, c))
  {
  }

  lemma StepAdvances(s: State, step: Step)
    requires Enabled(s, step)
    ensures Advances(s, Apply(s, step))
  {
    if step.Call? { CallAdvances(s, step.t, step.c); }
  }

  lemma {:induction false} RunAdvances(s: State, steps: seq<Step>, s': State)
    requires Run(s, steps, s')
    ensures Advances(s, s')
    decreases |steps|
  {
    if steps != [] {
      StepAdvances(s, steps[0]);
      RunAdvances(Apply(s, steps[0]), steps[1..], s');
    }
  }
}
