/**
 The code of the observer and of the signal-trap loop, statement by statement, on one
 thread, while every other thread, every child and every caller of stop() takes any
 number of steps between any two statements.  Each method extends a ghost trace, so
 what it does is a run of the protocol and the protocol's theorems apply to it.
 */
module ObserverCode {
  import opened Options
  import opened Observation
  import opened ObservationInvariant
  import opened ObservationProgress

  /** step is taken by somebody else than thread t. */
  predicate ByOthers(step: Step, t: Tid) {
    match step
    case World(_) => true
    case Loop(_) => t != RUNNER
    case Call(u, _) => u != t
  }

  predicate AllByOthers(steps: seq<Step>, t: Tid) {
    forall i :: 0 <= i < |steps| ==> ByOthers(steps[i], t)
  }

  function CountArrivals(steps: seq<Step>): nat {
    if steps == [] then 0 else (if Arrives(steps[0]) then 1 else 0) + CountArrivals(steps[1..])
  }

  /** What steps of others leave of the trap to the thread that runs its loop. */
  ghost predicate LoopKept(t: Trap, t': Trap) {
    && t'.runner == t.runner && t'.counter >= t.counter && t'.mask == t.mask && t.pending <= t'.pending
    && t'.dequeued == t.dequeued && t'.emitted == t.emitted
  }

  /** Every zombie that the group had in s has been reaped in s'. */
  ghost predicate Cleared(s: State, s': State) {
    forall p :: IsZombie(s, p) ==> p in s'.procs && s'.procs[p].life == Reaped
  }

  lemma ClearedLater(s: State, s1: State, s2: State)
    requires Cleared(s, s1) && Advances(s1, s2)
    ensures Cleared(s, s2)
  {
    forall p | IsZombie(s, p) ensures p in s2.procs && s2.procs[p].life == Reaped {
      assert LaterLife(s1.procs[p], s2.procs[p]);
    }
  }

  lemma NowCleared(s: State, s1: State, s2: State)
    requires Advances(s, s1) && Advances(s1, s2) && forall p :: !IsZombie(s2, p)
    ensures Cleared(s, s2)
  {
    forall p | IsZombie(s, p) ensures p in s2.procs && s2.procs[p].life == Reaped {
      assert LaterLife(s.procs[p], s1.procs[p]) && LaterLife(s1.procs[p], s2.procs[p]);
      assert !IsZombie(s2, p);
    }
  }

  lemma EarlierCleared(s: State, s1: State, s2: State)
    requires Advances(s, s1) && Cleared(s1, s2) && Advances(s1, s2)
    ensures Cleared(s, s2)
  {
    forall p | IsZombie(s, p) ensures p in s2.procs && s2.procs[p].life == Reaped {
      assert LaterLife(s.procs[p], s1.procs[p]) && LaterLife(s1.procs[p], s2.procs[p]);
      assert s1.procs[p].life == Zombie ==> IsZombie(s1, p);
    }
  }

  predicate ObservedAlive(s: State, pid: Pid) {
    pid in s.obs.children && pid in s.procs && s.procs[pid].life == Alive
  }

  /** A longer run from the same start continues the shorter one. */
  lemma {:induction false} RunSuffix(s: State, a: seq<Step>, m: State, b: seq<Step>, s': State)
    requires a <= b && Run(s, a, m) && Run(s, b, s')
    ensures Run(m, b[|a|..], s')
    decreases |a|
  {
    if a == [] {
      assert b[0..] == b;
    } else {
      assert b[1..][|a| - 1..] == b[|a|..];
      RunSuffix(Apply(s, a[0]), a[1..], m, b[1..], s');
    }
  }

  /** The invariant, progress and frame facts of a run that thread t does not take part in. */
  lemma {:induction false} OthersRun(s: State, steps: seq<Step>, s': State, t: Tid)
    requires Inv(s) && Run(s, steps, s') && AllByOthers(steps, t)
    ensures Inv(s') && Pc(s', t) == Pc(s, t)
    ensures Load(s') <= Load(s) + CountArrivals(steps)
    ensures t == RUNNER ==> LoopKept(s.trap, s'.trap)
    decreases |steps|
  {
    if steps != [] {
      var mid := Apply(s, steps[0]);
      StepInv(s, steps[0]);
      StepLoad(s, steps[0]);
      assert ByOthers(steps[0], t);
      OthersStep(s, steps[0], t);
      OthersRun(mid, steps[1..], s', t);
    }
  }

  lemma OthersStep(s: State, step: Step, t: Tid)
    requires Enabled(s, step) && ByOthers(step, t)
    ensures Pc(Apply(s, step), t) == Pc(s, t)
    ensures t == RUNNER ==> LoopKept(s.trap, Apply(s, step).trap)
  {
  }

  function StepsLeft(pc: ThreadPc): nat {
    match pc
    case AddLocked(_) => 4
    case AddInserted(_) => 3
    case AddMissed(_) => 2
    case DrainLocked(_) => 2
    case AddTold(_) => 1
    case DrainTold(_) => 1
    case _ => 0
  }

  lemma SectionStep(s: State, u: Tid)
    requires LockInv(s) && s.obs.lock == Some(u)
    ensures Holds(Pc(s, u)) && CallEnabled(s, u, NextInSection(Pc(s, u)))
    ensures var s' := ApplyCall(s, u, NextInSection(Pc(s, u)));
            s'.obs.lock == None || (s'.obs.lock == Some(u) && StepsLeft(Pc(s', u)) < StepsLeft(Pc(s, u)))
  {
    assert Holds(Pc(s, u)) <==> s.obs.lock == Some(u);
  }

  /** No deadlock: whoever holds the mutex can release it by its own steps alone. */
  lemma {:induction false} LockIsReleased(s: State, t: Tid) returns (steps: seq<Step>, s': State)
    requires Inv(s) && !Holds(Pc(s, t))
    ensures Run(s, steps, s') && AllByOthers(steps, t) && CountArrivals(steps) == 0 && s'.obs.lock == None
    decreases if s.obs.lock.Some? then StepsLeft(Pc(s, s.obs.lock.value)) + 1 else 0
  {
    if s.obs.lock == None {
      steps, s' := [], s;
    } else {
      var u := s.obs.lock.value;
      SectionStep(s, u);
      assert Holds(Pc(s, t)) <==> s.obs.lock == Some(t);
      var step := Call(u, NextInSection(Pc(s, u)));
      StepInv(s, step);
      var tail;
      OthersStep(s, step, t);
      tail, s' := LockIsReleased(Apply(s, step), t);
      steps := [step] + tail;
      assert steps[1..] == tail;
    }
  }

  class Program {
    var s: State
    /** How many more children join the group while the code runs, and how many more calls a signal interrupts. */
    var arrivals: nat
    var interrupts: nat
    ghost const start: State
    ghost var trace: seq<Step>

    /** The state has been reached by a run of the protocol. */
    ghost predicate Valid()
      reads this
    {
      Init(start) && Run(start, trace, s)
    }

    constructor (initial: State, arrivals: nat, interrupts: nat)
      requires Init(initial)
      ensures Valid() && s == start == initial
    {
      s, start, trace := initial, initial, [];
      this.arrivals, this.interrupts := arrivals, interrupts;
    }

    lemma Good()
      requires Valid()
      ensures Inv(s)
    {
      InitInv(start);
      RunInv(start, trace, s);
    }

    /** An earlier point of the same run. */
    ghost predicate Passed(s0: State, trace0: seq<Step>)
      reads this
    {
      trace0 <= trace && Run(start, trace0, s0)
    }

    lemma Since(s0: State, trace0: seq<Step>)
      requires Valid() && Passed(s0, trace0)
      ensures Advances(s0, s)
    {
      RunSuffix(start, trace0, s0, trace, s);
      RunAdvances(s0, trace[|trace0|..], s);
    }

    /** Thread t took step c in state s1, after trace0. */
    ghost predicate Took(t: Tid, c: CallStep, s1: State, trace1: seq<Step>, trace0: seq<Step>)
      reads this
    {
      trace0 <= trace1 && trace1 + [Call(t, c)] <= trace && Run(start, trace1, s1)
    }

    /** After trace0 thread t itself put pid, which was not there, into the map. */
    ghost predicate Registered(t: Tid, pid: Pid, trace0: seq<Step>)
      reads this
    {
      exists s1, trace1 :: Took(t, Insert, s1, trace1, trace0) && Pc(s1, t) == AddLocked(pid) && pid !in s1.obs.children
    }

    /** After trace0 thread t itself called waitpid(pid), and pid was then observed and alive. */
    ghost predicate ProbedAlive(t: Tid, pid: Pid, trace0: seq<Step>)
      reads this
    {
      exists s1, trace1 :: Took(t, Probe, s1, trace1, trace0) && Pc(s1, t) == AddInserted(pid) && ObservedAlive(s1, pid)
    }

    /** After trace0 thread t itself tried to insert pid and found it in the map. */
    ghost predicate Refused(t: Tid, pid: Pid, trace0: seq<Step>)
      reads this
    {
      exists s1, trace1 :: Took(t, Insert, s1, trace1, trace0) && Pc(s1, t) == AddLocked(pid) && pid in s1.obs.children
    }

    /** After trace0 thread t itself announced pid, which its add() had found gone. */
    ghost predicate FoundGone(t: Tid, pid: Pid, trace0: seq<Step>)
      reads this
    {
      exists s1, trace1 :: Took(t, Announce, s1, trace1, trace0) && Pc(s1, t) == AddMissed(pid) && Gone(s1, pid)
    }

    /** What happened after a later point happened after an earlier one. */
    lemma Earlier(t: Tid, pid: Pid, trace0: seq<Step>, trace1: seq<Step>)
      requires trace0 <= trace1
      ensures Registered(t, pid, trace1) ==> Registered(t, pid, trace0)
      ensures ProbedAlive(t, pid, trace1) ==> ProbedAlive(t, pid, trace0)
      ensures Refused(t, pid, trace1) ==> Refused(t, pid, trace0)
      ensures FoundGone(t, pid, trace1) ==> FoundGone(t, pid, trace0)
    {
      if Refused(t, pid, trace1) {
        var s2, trace2 :| Took(t, Insert, s2, trace2, trace1) && Pc(s2, t) == AddLocked(pid) && pid in s2.obs.children;
        assert Took(t, Insert, s2, trace2, trace0);
      }
      if FoundGone(t, pid, trace1) {
        var s2, trace2 :| Took(t, Announce, s2, trace2, trace1) && Pc(s2, t) == AddMissed(pid) && Gone(s2, pid);
        assert Took(t, Announce, s2, trace2, trace0);
      }
      if Registered(t, pid, trace1) {
        var s2, trace2 :| Took(t, Insert, s2, trace2, trace1) && Pc(s2, t) == AddLocked(pid) && pid !in s2.obs.children;
        assert Took(t, Insert, s2, trace2, trace0);
      }
      if ProbedAlive(t, pid, trace1) {
        var s2, trace2 :| Took(t, Probe, s2, trace2, trace1) && Pc(s2, t) == AddInserted(pid) && ObservedAlive(s2, pid);
        assert Took(t, Probe, s2, trace2, trace0);
      }
    }

    method Extend(steps: seq<Step>, s': State)
      requires Valid() && Run(s, steps, s')
      modifies this`s, this`trace
      ensures Valid() && s == s' && Passed(old(s), old(trace)) && trace == old(trace) + steps
    {
      RunConcat(start, trace, s, steps, s');
      s, trace := s', trace + steps;
    }

    /** One statement of thread t inside add() or on_sig_child(). */
    method Do(t: Tid, c: CallStep)
      requires Valid() && CallEnabled(s, t, c)
      modifies this`s, this`trace
      ensures Valid() && s == ApplyCall(old(s), t, c) && Passed(old(s), old(trace)) && trace == old(trace) + [Call(t, c)]
    {
      assert Run(s, [Call(t, c)], ApplyCall(s, t, c));
      Extend([Call(t, c)], ApplyCall(s, t, c));
    }

    /** One statement of run(). */
    method DoLoop(l: LoopStep)
      requires Valid() && Enabled(s, Loop(l))
      modifies this`s, this`trace
      ensures Valid() && s == Apply(old(s), Loop(l)) && Passed(old(s), old(trace)) && trace == old(trace) + [Loop(l)]
    {
      assert Run(s, [Loop(l)], Apply(s, Loop(l)));
      Extend([Loop(l)], Apply(s, Loop(l)));
    }

    /** Everybody else runs for a while. */
    method Others(t: Tid)
      requires Valid()
      modifies this`s, this`trace, this`arrivals
      ensures Valid() && Passed(old(s), old(trace)) && Pc(s, t) == Pc(old(s), t)
      ensures Load(s) + arrivals <= Load(old(s)) + old(arrivals)
      ensures t == RUNNER ==> LoopKept(old(s.trap), s.trap)
    {
      assert Run(s, [], s) && AllByOthers([], t) && CountArrivals([]) <= arrivals;
      var steps, s' :| Run(s, steps, s') && AllByOthers(steps, t) && CountArrivals(steps) <= arrivals;
      Good();
      OthersRun(s, steps, s', t);
      Extend(steps, s');
      arrivals := arrivals - CountArrivals(steps);
    }

    /** Everybody else runs until the mutex is free; then thread t takes it. */
    method AcquireMutex(t: Tid)
      requires Valid() && (Pc(s, t).AddCalled? || Pc(s, t).Collected?)
      modifies this`s, this`trace, this`arrivals
      ensures Valid() && Passed(old(s), old(trace))
      ensures Pc(s, t) == if Pc(old(s), t).AddCalled? then AddLocked(Pc(old(s), t).pid) else DrainLocked(Pc(old(s), t).pid)
      ensures Load(s) + arrivals <= Load(old(s)) + old(arrivals)
      ensures t == RUNNER ==> LoopKept(old(s.trap), s.trap)
    {
      Good();
      ghost var w, ws := LockIsReleased(s, t);
      var steps, s' :| Run(s, steps, s') && AllByOthers(steps, t) && CountArrivals(steps) <= arrivals && s'.obs.lock == None;
      OthersRun(s, steps, s', t);
      Extend(steps, s');
      arrivals := arrivals - CountArrivals(steps);
      StepLoad(s, Call(t, Lock));
      Do(t, Lock);
    }

    /**
     add(): true for a child that this call put into the map and found alive at its own
     waitpid; false for pid -1, for a pid that this call found in the map, and for one that
     this call found gone and announced.
     */
    method Add(t: Tid, pid: Pid) returns (added: bool)
      requires Valid() && Pc(s, t) == Idle && (t == RUNNER ==> s.trap.runner == NotRunning)
      modifies this
      ensures Valid() && Passed(old(s), old(trace)) && Pc(s, t) == Idle
      ensures added ==> pid != -1 && Registered(t, pid, old(trace)) && ProbedAlive(t, pid, old(trace))
      ensures !added && pid != -1 ==>
                Refused(t, pid, old(trace)) || (Registered(t, pid, old(trace)) && FoundGone(t, pid, old(trace)))
      ensures added ==> s.obs.inserted[pid] > old(s.obs.inserted[pid])
      ensures pid == -1 ==> s == old(s)
    {
      if pid == -1 {
        return false;
      }
      Do(t, CallAdd(pid));
      AcquireMutex(t);
      Others(t);
      Since(old(s), old(trace));
      ghost var mid := trace;
      added := InsertAndCheck(t, pid);
      Earlier(t, pid, old(trace), mid);
    }

    /** The critical section of add(). */
    method InsertAndCheck(t: Tid, pid: Pid) returns (added: bool)
      requires Valid() && Pc(s, t) == AddLocked(pid)
      modifies this
      ensures Valid() && Passed(old(s), old(trace)) && Pc(s, t) == Idle
      ensures added ==> s.obs.inserted[pid] > old(s.obs.inserted[pid])
      ensures added ==> Registered(t, pid, old(trace)) && ProbedAlive(t, pid, old(trace))
      ensures !added ==> Refused(t, pid, old(trace)) || (Registered(t, pid, old(trace)) && FoundGone(t, pid, old(trace)))
    {
      Do(t, Insert);
      ghost var mid := trace;
      added := Pc(s, t).AddInserted?;
      if added {
        added := CheckAlive(t, pid);
        Earlier(t, pid, old(trace), mid);
      }
      assert Took(t, Insert, old(s), old(trace), old(trace));
    }

    /** The part of add() after a successful insertion. */
    method CheckAlive(t: Tid, pid: Pid) returns (alive: bool)
      requires Valid() && Pc(s, t) == AddInserted(pid)
      modifies this
      ensures Valid() && Passed(old(s), old(trace)) && Pc(s, t) == Idle
      ensures s.obs.inserted[pid] >= old(s.obs.inserted[pid])
      ensures alive ==> ProbedAlive(t, pid, old(trace))
      ensures !alive ==> FoundGone(t, pid, old(trace))
    {
      Others(t);
      Good();
      assert PcFacts(s, Pc(s, t));
      ghost var s1, trace1 := s, trace;
      Do(t, Probe);
      alive := Pc(s, t) == Idle;
      if alive { assert Took(t, Probe, s1, trace1, old(trace)); }
      Since(old(s), old(trace));
      if !alive {
        ghost var mid := trace;
        TellAndErase(t, pid);
        Earlier(t, pid, old(trace), mid);
        Since(old(s), old(trace));
      }
    }

    /** add() has found the child gone. */
    method TellAndErase(t: Tid, pid: Pid)
      requires Valid() && Pc(s, t) == AddMissed(pid)
      modifies this
      ensures Valid() && Passed(old(s), old(trace)) && Pc(s, t) == Idle
      ensures FoundGone(t, pid, old(trace))
    {
      Others(t);
      Good();
      assert PcFacts(s, Pc(s, t));
      ghost var s1, trace1 := s, trace;
      Do(t, Announce);
      Others(t);
      Do(t, Erase);
      assert Took(t, Announce, s1, trace1, old(trace));
    }

    /**
     on_sig_child(): terminates although children keep dying; afterwards the group
     has no zombie, and every observed child that was dead on entry has been
     announced, unless a concurrent call has reaped it and is about to announce it.
     */
    method OnSigChild(t: Tid)
      requires Valid() && Pc(s, t) == Draining
      modifies this
      ensures Valid() && Passed(old(s), old(trace)) && Pc(s, t) == Idle
      ensures forall p :: !IsZombie(s, p)
      ensures forall p :: IsZombie(old(s), p) && p in old(s.obs.children) ==> Settled(old(s), s, t, p)
      ensures t == RUNNER ==> LoopKept(old(s.trap), s.trap)
    {
      var draining := true;
      while draining
        invariant Valid() && Passed(old(s), old(trace)) && Pc(s, t) == if draining then Draining else Idle
        invariant !draining ==> forall p :: !IsZombie(s, p)
        invariant t == RUNNER ==> LoopKept(old(s.trap), s.trap)
        decreases draining, Load(s) + arrivals + interrupts
      {
        Others(t);
        ghost var possible := AnswerOf(s);
        var result :| WaitAnswer(s, result) && (result.Interrupted? ==> interrupts > 0);
        StepLoad(s, Call(t, WaitAny(result)));
        if result.NoChild? || result.NotYet? { Drained(s, t, result); }
        Do(t, WaitAny(result));
        if result.Interrupted? {
          interrupts := interrupts - 1;
        } else if result.Got? {
          ReportChild(t);
        } else {
          draining := false;
        }
      }
      AllSettled(old(s), old(trace), t);
    }

    /** A direct call of on_sig_child(), on any thread. */
    method CallHandler(t: Tid)
      requires Valid() && Pc(s, t) == Idle && (t == RUNNER ==> s.trap.runner == NotRunning)
      modifies this
      ensures Valid() && Passed(old(s), old(trace)) && Pc(s, t) == Idle
      ensures forall p :: !IsZombie(s, p)
      ensures forall p :: IsZombie(old(s), p) && p in old(s.obs.children) ==> Settled(old(s), s, t, p)
    {
      Do(t, CallOnSigChild);
      OnSigChild(t);
    }

    lemma AllSettled(s0: State, trace0: seq<Step>, t: Tid)
      requires Valid() && Passed(s0, trace0) && Pc(s, t) == Idle && forall p :: !IsZombie(s, p)
      ensures forall p :: IsZombie(s0, p) && p in s0.obs.children ==> Settled(s0, s, t, p)
    {
      Good();
      InitInv(start);
      RunInv(start, trace0, s0);
      Since(s0, trace0);
      forall p | IsZombie(s0, p) && p in s0.obs.children ensures Settled(s0, s, t, p) {
        Settle(s0, s, t, p);
      }
    }

    /** The body of the waitpid loop for a reaped child. */
    method ReportChild(t: Tid)
      requires Valid() && Pc(s, t).Collected?
      modifies this`s, this`trace, this`arrivals
      ensures Valid() && Passed(old(s), old(trace)) && Pc(s, t) == Draining
      ensures Load(s) + arrivals <= Load(old(s)) + old(arrivals)
      ensures t == RUNNER ==> LoopKept(old(s.trap), s.trap)
    {
      AcquireMutex(t);
      Others(t);
      StepLoad(s, Call(t, Announce));
      Do(t, Announce);
      if Pc(s, t).DrainTold? {
        Others(t);
        StepLoad(s, Call(t, Erase));
        Do(t, Erase);
      }
    }

    /** The loop over one batch, entering on_sig_child for SIGCHLD. */
    method DispatchBatch()
      requires Valid() && s.trap.runner.Dispatching? && Pc(s, RUNNER) == Idle
      modifies this
      ensures Valid() && Passed(old(s), old(trace)) && Pc(s, RUNNER) == Idle
      ensures s.trap.runner == Dispatching([], old(s.trap.runner.stopping))
      ensures s.trap.dequeued == old(s.trap.dequeued)
      ensures SIGCHLD in old(s.trap.runner.rest) ==> Cleared(old(s), s)
    {
      while s.trap.runner.rest != []
        invariant Valid() && Passed(old(s), old(trace)) && Pc(s, RUNNER) == Idle
        invariant s.trap.runner.Dispatching? && s.trap.runner.stopping == old(s.trap.runner.stopping)
        invariant s.trap.dequeued == old(s.trap.dequeued)
        invariant SIGCHLD in old(s.trap.runner.rest) ==> SIGCHLD in s.trap.runner.rest || Cleared(old(s), s)
        decreases |s.trap.runner.rest|
      {
        DispatchOne(old(s), old(trace));
      }
    }

    /** One emission of signal_raised. */
    method DispatchOne(ghost s0: State, ghost trace0: seq<Step>)
      requires Valid() && Passed(s0, trace0) && s.trap.runner.Dispatching? && s.trap.runner.rest != [] && Pc(s, RUNNER) == Idle
      modifies this
      ensures Valid() && Passed(s0, trace0) && Pc(s, RUNNER) == Idle && s.trap.dequeued == old(s.trap.dequeued)
      ensures s.trap.runner == Dispatching(old(s.trap.runner.rest)[1..], old(s.trap.runner.stopping))
      ensures old(s.trap.runner.rest)[0] == SIGCHLD || Cleared(s0, old(s)) ==> Cleared(s0, s)
    {
      ghost var s1, trace1 := s, trace;
      Since(s0, trace0);
      Others(RUNNER);
      Good();
      DoLoop(Dispatch);
      if Pc(s, RUNNER) == Draining {
        OnSigChild(RUNNER);
        Since(s1, trace1);
        NowCleared(s0, s1, s);
      } else {
        Since(s1, trace1);
        if Cleared(s0, s1) { ClearedLater(s0, s1, s); }
      }
    }

    /** read() from the signalfd, if poll() reported it readable. */
    method ReadBatch()
      requires Valid() && s.trap.runner.Polled? && Pc(s, RUNNER) == Idle
      modifies this
      ensures Valid() && Passed(old(s), old(trace)) && Pc(s, RUNNER) == Idle
      ensures s.trap.runner.Dispatching? && s.trap.runner.stopping == old(s.trap.runner.stopping)
      ensures s.trap.dequeued == old(s.trap.dequeued) + s.trap.runner.rest
      ensures old(s.trap.runner.signalled) ==> s.trap.runner.rest != []
    {
      Good();
      if s.trap.runner.signalled {
        var x :| x in s.trap.pending && x in s.trap.mask;
        assert BatchOf(s.trap, [x]);
        var batch :| BatchOf(s.trap, batch);
        assert BatchOf(s.trap, batch);
        DoLoop(ReadSignals(batch));
      } else {
        DoLoop(SkipSignals);
      }
    }

    /** The first half of a turn: if SIGCHLD was among the signals read, no zombie from before is left. */
    method ReadAndDispatch()
      requires Valid() && s.trap.runner.Polled? && Pc(s, RUNNER) == Idle
      modifies this
      ensures Valid() && Passed(old(s), old(trace)) && Pc(s, RUNNER) == Idle
      ensures s.trap.runner == Dispatching([], old(s.trap.runner.stopping))
      ensures old(s.trap.dequeued) <= s.trap.dequeued
      ensures old(s.trap.runner.signalled) ==> |s.trap.dequeued| > |old(s.trap.dequeued)|
      ensures SIGCHLD in s.trap.dequeued[|old(s.trap.dequeued)|..] ==> Cleared(old(s), s)
    {
      Others(RUNNER);
      ReadBatch();
      Since(old(s), old(trace));
      ghost var s1, trace1 := s, trace;
      assert s.trap.dequeued[|old(s.trap.dequeued)|..] == s.trap.runner.rest;
      DispatchBatch();
      Since(s1, trace1);
      if SIGCHLD in s1.trap.runner.rest { EarlierCleared(old(s), s1, s); }
    }

    /** One turn of run() after poll() has reported readiness; stopped says that a stop() was consumed. */
    method HandleReady() returns (stopped: bool)
      requires Valid() && s.trap.runner.Polled? && Pc(s, RUNNER) == Idle
      modifies this
      ensures Valid() && Passed(old(s), old(trace)) && Pc(s, RUNNER) == Idle
      ensures stopped == old(s.trap.runner.stopping)
      ensures !stopped ==> s.trap.runner == Polling
      ensures stopped ==> s.trap.runner == NotRunning && s.trap.counter == 0 && s.trap.drained > old(s.trap.drained)
      ensures old(s.trap.dequeued) <= s.trap.dequeued == s.trap.emitted
      ensures old(s.trap.runner.signalled) ==> |s.trap.dequeued| > |old(s.trap.dequeued)|
      ensures SIGCHLD in s.trap.dequeued[|old(s.trap.dequeued)|..] ==> Cleared(old(s), s)
    {
      stopped := s.trap.runner.stopping;
      ReadAndDispatch();
      ghost var s1, trace1 := s, trace;
      Others(RUNNER);
      Good();
      Since(old(s), old(trace));
      assert s.trap.emitted + [] == s.trap.emitted;
      DoLoop(EndIteration);
      Since(s1, trace1);
      if Cleared(old(s), s1) { ClearedLater(old(s), s1, s); }
    }

    /** One turn of run(), in which poll() works or fails for good. */
    method Turn(polls: bool)
      requires Valid() && s.trap.runner == Polling && Pc(s, RUNNER) == Idle
      modifies this
      ensures Valid() && Passed(old(s), old(trace)) && Pc(s, RUNNER) == Idle
      ensures TurnEffect(old(s), polls, s)
    {
      Good();
      Others(RUNNER);
      Since(old(s), old(trace));
      assert s.trap.emitted + [] == s.trap.emitted;
      if !polls {
        DoLoop(PollFailed);
      } else if Readable(s.trap) || s.trap.counter > 0 {
        assert old(Readable(s.trap)) ==> Readable(s.trap);
        DoLoop(PollReady);
        Since(old(s), old(trace));
        ghost var s1, trace1 := s, trace;
        var _ := HandleReady();
        Since(s1, trace1);
        if Cleared(s1, s) { SettleAll(old(s), old(trace), s1); }
      } else {
        DoLoop(PollInterrupted);
      }
    }

    lemma SettleAll(s0: State, trace0: seq<Step>, s1: State)
      requires Valid() && Passed(s0, trace0) && Advances(s0, s1) && Cleared(s1, s) && Advances(s1, s) && Pc(s, RUNNER) == Idle
      ensures forall p :: IsZombie(s0, p) && p in s0.obs.children ==> Settled(s0, s, RUNNER, p)
    {
      Good();
      InitInv(start);
      RunInv(start, trace0, s0);
      Since(s0, trace0);
      EarlierCleared(s0, s1, s);
      forall p | IsZombie(s0, p) && p in s0.obs.children ensures Settled(s0, s, RUNNER, p) {
        Settle(s0, s, RUNNER, p);
      }
    }

    /**
     run(): one turn of its loop for every element of polls, or fewer if it returns.  turns
     has the states at the beginning of every turn and at the end.  Each turn has its effect,
     so that run() goes on exactly as long as poll() works and no stop() is consumed.
     */
    method RunLoop(polls: seq<bool>) returns (ghost turns: seq<State>)
      requires Valid() && s.trap.runner == NotRunning && Pc(s, RUNNER) == Idle
      modifies this
      ensures Valid() && Passed(old(s), old(trace)) && Pc(s, RUNNER) == Idle
      ensures Turns(turns, polls) && turns[0] == old(s).(trap := old(s.trap).(runner := Polling)) && turns[|turns| - 1] == s
      ensures s.trap.runner == NotRunning || (s.trap.runner == Polling && |turns| == |polls| + 1)
    {
      DoLoop(EnterRun);
      turns := [s];
      for n := 0 to |polls|
        invariant Valid() && Passed(old(s), old(trace)) && Pc(s, RUNNER) == Idle
        invariant Turns(turns, polls) && turns[0] == old(s).(trap := old(s.trap).(runner := Polling))
        invariant |turns| == n + 1 && turns[n] == s && s.trap.runner == Polling
      {
        Turn(polls[n]);
        OneMoreTurn(turns, polls, s);
        turns := turns + [s];
        if s.trap.runner == NotRunning {
          return;
        }
      }
    }
  }

  /**
   What one turn of run() does.  It leaves the loop only if poll() fails or a stop() is
   consumed; a stop() that was there at the beginning is consumed; if a signal was readable
   at the beginning, one is dequeued; all that is dequeued is emitted in order; and if
   SIGCHLD is among it, the observed children that were dead at the beginning are settled.
   */
  ghost predicate TurnEffect(s: State, polls: bool, s': State) {
    var t, t' := s.trap, s'.trap;
    && (t'.runner == NotRunning || t'.runner == Polling)
    && (!polls || t.counter > 0 ==> t'.runner == NotRunning)
    && (polls && t'.runner == NotRunning ==> t'.counter == 0 && t'.drained > t.drained)
    && t.dequeued <= t'.dequeued && t'.dequeued == t'.emitted
    && (polls && Readable(t) ==> |t'.dequeued| > |t.dequeued|)
    && (SIGCHLD in t'.dequeued[|t.dequeued|..] ==>
          forall p :: IsZombie(s, p) && p in s.obs.children ==> Settled(s, s', RUNNER, p))
  }

  ghost predicate Turns(turns: seq<State>, polls: seq<bool>) {
    && 1 <= |turns| <= |polls| + 1
    && forall i :: 0 <= i < |turns| - 1 ==> turns[i].trap.runner == Polling && TurnEffect(turns[i], polls[i], turns[i + 1])
  }

  lemma OneMoreTurn(turns: seq<State>, polls: seq<bool>, s: State)
    requires Turns(turns, polls) && |turns| <= |polls|
    requires turns[|turns| - 1].trap.runner == Polling && TurnEffect(turns[|turns| - 1], polls[|turns| - 1], s)
    ensures Turns(turns + [s], polls)
  {
  }

  /** p has been announced between s and s', or a call other than t's is about to; in the latter case only it may still be in the map. */
  ghost predicate Settled(s: State, s': State, t: Tid, p: Pid) {
    || (p !in s'.obs.children && s'.obs.announced[p] > s.obs.announced[p])
    || exists u :: u != t && Pursues(Pc(s', u), p)
  }

  lemma Settle(s: State, s': State, t: Tid, p: Pid)
    requires Inv(s) && Inv(s') && Advances(s, s') && Pc(s', t) == Idle
    requires IsZombie(s, p) && p in s.obs.children && !IsZombie(s', p)
    ensures Settled(s, s', t, p)
  {
    assert Balanced(s, p) && Balanced(s', p);
    if s.obs.lock.Some? {
      assert PcFacts(s, Pc(s, s.obs.lock.value));
    }
    assert Gone(s', p);
    if p in s'.obs.children {
      var u :| Pursues(Pc(s', u), p);
    } else if s'.obs.lock.Some? {
      assert PcFacts(s', Pc(s', s'.obs.lock.value));
    }
  }
}
