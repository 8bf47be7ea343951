/**
 Progress of the death-observation protocol: a measure that every step of the library's
 own code lowers, and what is left when no such step remains.
 */
module ObservationProgress {
  import opened Options
  import opened Collections
  import opened Observation
  import opened ObservationInvariant
  import opened ObservationTheorems

  /** A child enters the process group, by being forked or by setpgid. */
  predicate Arrives(step: Step) {
    step.World? && (step.w.Spawn? || (step.w.Regroup? && step.w.inGroup))
  }

  ghost function UnreapedSet(s: State): set<Pid> {
    set p | p in s.procs && Unreaped(s, p)
  }

  /** The number of children that waitpid(0, ..) has still to report. */
  ghost function Load(s: State): nat {
    |UnreapedSet(s)|
  }

  /** Reaping lowers the load, only an arrival raises it. */
  lemma StepLoad(s: State, step: Step)
    requires Enabled(s, step)
    ensures Load(Apply(s, step)) <= Load(s) + (if Arrives(step) then 1 else 0)
    ensures step.Call? && step.c.WaitAny? && step.c.result.Got? ==> Load(Apply(s, step)) < Load(s)
  {
    var a, b := UnreapedSet(s), UnreapedSet(Apply(s, step));
    if Arrives(step) {
      assert b <= a + {step.w.pid};
      SubsetSize(b, a + {step.w.pid});
    } else if step.Call? {
      CallLoad(s, step.t, step.c);
    } else {
      assert b <= a;
      SubsetSize(b, a);
    }
  }

  lemma CallLoad(s: State, t: Tid, c: CallStep)
    requires CallEnabled(s, t, c)
    ensures Load(ApplyCall(s, t, c)) <= Load(s)
    ensures c.WaitAny? && c.result.Got? ==> Load(ApplyCall(s, t, c)) < Load(s)
  {
    var a, b := UnreapedSet(s), UnreapedSet(ApplyCall(s, t, c));
    if c.WaitAny? && c.result.Got? {
      assert c.result.pid in a && b <= a - {c.result.pid};
      SubsetSize(b, a - {c.result.pid});
    } else {
      assert b <= a;
      SubsetSize(b, a);
    }
  }

  /** A step of calls in progress or of a running loop, as opposed to a new call, a failure or a retry. */
  predicate Own(step: Step) {
    match step
    case World(_) => false
    case Loop(l) => l.PollReady? || l.ReadSignals? || l.SkipSignals? || l.Dispatch? || l.EndIteration?
    case Call(_, c) =>
      c.Lock? || c.Insert? || c.Probe? || c.Announce? || c.Erase? || (c.WaitAny? && !c.result.Interrupted?)
  }

  ghost predicate AllOwn(steps: seq<Step>) {
    forall i :: 0 <= i < |steps| ==> Own(steps[i])
  }

  function Depth(pc: ThreadPc): nat {
    match pc
    case Idle => 0
    case Draining => 1
    case DrainTold(_) => 2
    case DrainLocked(_) => 3
    case Collected(_) => 4
    case AddTold(_) => 2
    case AddMissed(_) => 3
    case AddInserted(_) => 4
    case AddLocked(_) => 5
    case AddCalled(_) => 6
  }

  ghost function TotalDepth(threads: map<Tid, ThreadPc>): nat {
    if t :| t in threads then Depth(threads[t]) + TotalDepth(threads - {t}) else 0
  }

  /** The sum does not depend on the order of the threads. */
  lemma {:induction false} DepthOf(threads: map<Tid, ThreadPc>, t: Tid)
    requires t in threads
    ensures TotalDepth(threads) == Depth(threads[t]) + TotalDepth(threads - {t})
  {
    var u :| u in threads && TotalDepth(threads) == Depth(threads[u]) + TotalDepth(threads - {u});
    if u != t {
      DepthOf(threads - {u}, t);
      DepthOf(threads - {t}, u);
      assert threads - {u} - {t} == threads - {t} - {u};
    }
  }

  lemma DepthAfter(s: State, t: Tid, pc: ThreadPc)
    ensures TotalDepth(s.threads[t := pc]) == TotalDepth(s.threads) - Depth(Pc(s, t)) + Depth(pc)
    ensures TotalDepth(s.threads) >= Depth(Pc(s, t))
  {
    DepthOf(s.threads[t := pc], t);
    assert s.threads[t := pc] - {t} == s.threads - {t};
    if t in s.threads {
      DepthOf(s.threads, t);
    } else {
      assert s.threads - {t} == s.threads;
    }
  }

  function Backlog(t: Trap): set<Signal> {
    set x | x in t.pending && x in t.mask
  }

  /** The loop: a batch costs less than the pending signal it takes at least. */
  function LoopMeasure(t: Trap): nat {
    20 * |Backlog(t)| +
    match t.runner
    case NotRunning => 0
    case Polling => 3
    case Polled(_, _) => 2
    case Dispatching(rest, stopping) => 2 * |rest| + (if stopping then 1 else 4)
    case Broken => 0
  }

  ghost function Measure(s: State): nat {
    10 * Load(s) + LoopMeasure(s.trap) + TotalDepth(s.threads)
  }

  lemma LoopDecreases(t: Trap, waiting: bool, l: LoopStep)
    requires StopInv(t) && LoopEnabled(t, waiting, l) && Own(Loop(l))
    ensures LoopMeasure(ApplyLoop(t, waiting, l)) + (if l.Dispatch? then 2 else 1) <= LoopMeasure(t)
  {
    var t' := ApplyLoop(t, waiting, l);
    if l.ReadSignals? {
      var x: Signal := l.batch[0];
      assert x in l.batch;
      assert x in Backlog(t) && Backlog(t') <= Backlog(t) - {x};
      SubsetSize(Backlog(t'), Backlog(t) - {x});
    } else {
      assert Backlog(t') == Backlog(t);
    }
  }

  lemma CallDecreases(s: State, t: Tid, c: CallStep)
    requires CallEnabled(s, t, c) && Own(Call(t, c))
    ensures Measure(ApplyCall(s, t, c)) < Measure(s)
  {
    var s' := ApplyCall(s, t, c);
    DepthAfter(s, t, Pc(s', t));
    assert s'.threads == s.threads[t := Pc(s', t)];
    StepLoad(s, Call(t, c));
  }

  /** Every step of the library's own code lowers the measure. */
  lemma OwnDecreases(s: State, step: Step)
    requires Inv(s) && Enabled(s, step) && Own(step)
    ensures Measure(Apply(s, step)) < Measure(s)
  {
    match step {
      case Loop(l) =>
        LoopDecreases(s.trap, Pc(s, RUNNER) == Idle, l);
        StepLoad(s, step);
        DepthAfter(s, RUNNER, Draining);
      case Call(t, c) => CallDecreases(s, t, c);
    }
  }

  lemma {:induction false} OwnRunBounded(s: State, steps: seq<Step>, s': State)
    requires Inv(s) && Run(s, steps, s') && AllOwn(steps)
    ensures |steps| + Measure(s') <= Measure(s)
    decreases |steps|
  {
    if steps != [] {
      assert Own(steps[0]);
      OwnDecreases(s, steps[0]);
      StepInv(s, steps[0]);
      OwnRunBounded(Apply(s, steps[0]), steps[1..], s');
    }
  }

  /** No step of the library's own code is possible. */
  ghost predicate Stuck(s: State) {
    forall step :: Own(step) ==> !Enabled(s, step)
  }

  /** A call in progress can always be continued, or the one that holds the mutex can. */
  lemma CallsContinue(s: State, t: Tid) returns (step: Step)
    requires Inv(s) && Pc(s, t) != Idle
    ensures Own(step) && Enabled(s, step)
  {
    var pc := Pc(s, t);
    if pc == Draining {
      var result := AnswerOf(s);
      step := Call(t, WaitAny(result));
    } else if s.obs.lock == None {
      assert Holds(pc) <==> s.obs.lock == Some(t);
      step := Call(t, Lock);
    } else {
      var u := s.obs.lock.value;
      assert Holds(Pc(s, u)) <==> s.obs.lock == Some(u);
      step := Call(u, NextInSection(Pc(s, u)));
    }
  }

  /** What the lock holder does next. */
  function NextInSection(pc: ThreadPc): CallStep
    requires Holds(pc)
  {
    match pc
    case AddLocked(_) => Insert
    case AddInserted(_) => Probe
    case AddMissed(_) => Announce
    case DrainLocked(_) => Announce
    case _ => Erase
  }

  lemma AnswerOf(s: State) returns (result: WaitResult)
    ensures WaitAnswer(s, result) && !result.Interrupted?
  {
    if p :| p in s.procs && IsZombie(s, p) {
      result := Got(p);
    } else if p :| p in s.procs && Unreaped(s, p) {
      result := NotYet;
    } else {
      result := NoChild;
    }
  }

  /** waitpid(0, ..) that reports no child leaves no zombie behind. */
  lemma Drained(s: State, t: Tid, result: WaitResult)
    requires CallEnabled(s, t, WaitAny(result)) && (result.NoChild? || result.NotYet?)
    ensures forall p :: !IsZombie(ApplyCall(s, t, WaitAny(result)), p)
  {
    forall p ensures !IsZombie(ApplyCall(s, t, WaitAny(result)), p) {
      if p in s.procs { assert result.NoChild? ==> !Unreaped(s, p); }
    }
  }

  lemma LoopContinues(s: State) returns (step: Step)
    requires Inv(s) && Pc(s, RUNNER) == Idle && s.trap.runner != NotRunning
    requires s.trap.runner == Polling ==> Readable(s.trap) || s.trap.counter > 0
    ensures Own(step) && Enabled(s, step)
  {
    match s.trap.runner {
      case Polling => step := Loop(PollReady);
      case Polled(signalled, _) =>
        if signalled {
          var x :| x in s.trap.pending && x in s.trap.mask;
          step := Loop(ReadSignals([x]));
        } else {
          step := Loop(SkipSignals);
        }
      case Dispatching(rest, _) => step := if rest == [] then Loop(EndIteration) else Loop(Dispatch);
    }
  }

  /** When nothing of the library is left to do, no call is in progress and the loop waits in poll() for nothing outstanding, or has returned. */
  lemma WhenStuck(s: State)
    requires Inv(s) && Stuck(s)
    ensures forall t :: Pc(s, t) == Idle
    ensures s.trap.runner == NotRunning || (s.trap.runner == Polling && !Readable(s.trap) && s.trap.counter == 0)
  {
    forall t ensures Pc(s, t) == Idle {
      if Pc(s, t) != Idle { var step := CallsContinue(s, t); }
    }
    if s.trap.runner != NotRunning && (s.trap.runner == Polling ==> Readable(s.trap) || s.trap.counter > 0) {
      var step := LoopContinues(s);
    }
  }

  /** Own steps never leave the loop unless a stop() is outstanding. */
  lemma {:induction false} LoopStays(s: State, steps: seq<Step>, s': State)
    requires Inv(s) && Run(s, steps, s') && AllOwn(steps) && s.trap.runner != NotRunning && s.trap.counter == 0
    ensures s'.trap.runner != NotRunning
    decreases |steps|
  {
    if steps != [] {
      assert Own(steps[0]);
      StepInv(s, steps[0]);
      LoopStaysStep(s, steps[0]);
      LoopStays(Apply(s, steps[0]), steps[1..], s');
    }
  }

  lemma LoopStaysStep(s: State, step: Step)
    requires StopInv(s.trap) && Enabled(s, step) && Own(step) && s.trap.runner != NotRunning && s.trap.counter == 0
    ensures Apply(s, step).trap.runner != NotRunning && Apply(s, step).trap.counter == 0
  {
  }

  lemma {:induction false} RunConcat(s: State, a: seq<Step>, m: State, b: seq<Step>, s': State)
    requires Run(s, a, m) && Run(m, b, s')
    ensures Run(s, a + b, s')
    decreases |a|
  {
    if a == [] {
      assert a + b == b;
    } else {
      assert (a + b)[1..] == a[1..] + b;
      RunConcat(Apply(s, a[0]), a[1..], m, b, s');
    }
  }

  /**
   Eventual announcement: while run() is active and no stop() is outstanding, let the
   library's own code run in any order, without new calls and without further deaths.
   It comes to rest after a bounded number of steps, and then what is still observed is
   alive or a zombie outside the group, and every registration of another pid has been
   announced.
   */
  lemma EventuallyAnnounced(s: State, steps: seq<Step>, s': State, p: Pid)
    requires Reachable(s) && s.trap.runner != NotRunning && s.trap.counter == 0
    requires Run(s, steps, s') && AllOwn(steps)
    ensures |steps| <= Measure(s)
    ensures Stuck(s') ==>
              && Quiescent(s')
              && (p in s'.obs.children ==> p in s'.procs && (s'.procs[p].life == Alive || s'.procs[p] == Child(Zombie, false)))
              && (p !in s'.obs.children ==> s'.obs.announced[p] == s'.obs.inserted[p])
  {
    ReachableInv(s);
    OwnRunBounded(s, steps, s');
    if Stuck(s') {
      RunInv(s, steps, s');
      LoopStays(s, steps, s');
      WhenStuck(s');
      assert SIGCHLD !in s'.trap.pending;
      ReachableOn(s, steps, s');
      ExactlyOnceAtQuiescence(s', p);
    }
  }

  /** Own steps leave the loop only by consuming every stop() that is outstanding. */
  predicate Stopping(t: Trap) {
    (t.runner != NotRunning && t.counter > 0) || (t.runner == NotRunning && t.counter == 0)
  }

  lemma StoppingStep(s: State, step: Step)
    requires StopInv(s.trap) && Enabled(s, step) && Own(step) && Stopping(s.trap)
    ensures Stopping(Apply(s, step).trap)
  {
  }

  lemma {:induction false} StoppingRun(s: State, steps: seq<Step>, s': State)
    requires Inv(s) && Run(s, steps, s') && AllOwn(steps) && Stopping(s.trap)
    ensures Stopping(s'.trap)
    decreases |steps|
  {
    if steps != [] {
      assert Own(steps[0]);
      StepInv(s, steps[0]);
      StoppingStep(s, steps[0]);
      StoppingRun(Apply(s, steps[0]), steps[1..], s');
    }
  }

  /**
   An outstanding stop() makes run() return: however the library's own steps are ordered,
   they come to rest after a bounded number of them, and then the loop has returned,
   consumed every stop() and emitted every signal it dequeued.
   */
  lemma StopReturns(s: State, steps: seq<Step>, s': State)
    requires Reachable(s) && s.trap.runner != NotRunning && s.trap.counter > 0
    requires Run(s, steps, s') && AllOwn(steps)
    ensures |steps| <= Measure(s)
    ensures Stuck(s') ==>
              s'.trap.runner == NotRunning && s'.trap.drained == s'.trap.stops && s'.trap.emitted == s'.trap.dequeued
  {
    ReachableInv(s);
    OwnRunBounded(s, steps, s');
    StoppingRun(s, steps, s');
    RunInv(s, steps, s');
    if Stuck(s') {
      WhenStuck(s');
      assert s'.trap.emitted + [] == s'.trap.emitted;
    }
  }

  /** One stop() is enough to end run(), whatever the loop was doing. */
  lemma StopEndsRun(s: State, steps: seq<Step>, s': State)
    requires Reachable(s) && s.trap.runner != NotRunning && Enabled(s, World(Stop))
    requires Run(Apply(s, World(Stop)), steps, s') && AllOwn(steps) && Stuck(s')
    ensures s'.trap.runner == NotRunning && s'.trap.counter == 0 && s'.trap.drained == s.trap.drained + s.trap.counter + 1
  {
    var s1 := Apply(s, World(Stop));
    ReachableInv(s);
    assert Run(s, [World(Stop)], s1);
    ReachableOn(s, [World(Stop)], s1);
    StopReturns(s1, steps, s');
    StopsCounted(s1, steps, s');
    OwnHasNoStop(steps);
    ReachableInv(s1);
    RunInv(s1, steps, s');
  }

  lemma {:induction false} OwnHasNoStop(steps: seq<Step>)
    requires AllOwn(steps)
    ensures CountStops(steps) == 0
  {
    if steps != [] {
      assert Own(steps[0]);
      OwnHasNoStop(steps[1..]);
    }
  }

  /** What any other step adds to the measure at most: the cost of one more pending signal. */
  const PRICE: nat := 20

  lemma RaisePrice(t: Trap, sig: Signal)
    ensures |Backlog(RaiseSignal(t, sig))| <= |Backlog(t)| + 1
  {
    SubsetSize(Backlog(RaiseSignal(t, sig)), Backlog(t) + {sig});
  }

  lemma OtherPrice(s: State, step: Step)
    requires Enabled(s, step) && !Own(step)
    ensures Measure(Apply(s, step)) <= Measure(s) + PRICE
  {
    StepLoad(s, step);
    match step {
      case World(w) =>
        if w.Die? { RaisePrice(s.trap, SIGCHLD); }
        if w.Raise? { RaisePrice(s.trap, w.sig); }
        if w.Stop? { assert Backlog(Apply(s, step).trap) == Backlog(s.trap); }
      case Loop(_) =>
        assert Backlog(Apply(s, step).trap) == Backlog(s.trap);
      case Call(t, c) =>
        DepthAfter(s, t, Pc(Apply(s, step), t));
    }
  }

  function CountOwn(steps: seq<Step>): nat {
    if steps == [] then 0 else (if Own(steps[0]) then 1 else 0) + CountOwn(steps[1..])
  }

  /**
   Bounded work: in any run, while children come, die and move, signals arrive and calls
   keep coming, the library takes at most Measure(s) steps of its own plus a fixed number
   for each step of the others.  It never works without cause.
   */
  lemma {:induction false} WorkIsBounded(s: State, steps: seq<Step>, s': State)
    requires Inv(s) && Run(s, steps, s')
    ensures CountOwn(steps) <= |steps|
    ensures CountOwn(steps) + Measure(s') <= Measure(s) + PRICE * (|steps| - CountOwn(steps))
    decreases |steps|
  {
    if steps != [] {
      if Own(steps[0]) { OwnDecreases(s, steps[0]); } else { OtherPrice(s, steps[0]); }
      StepInv(s, steps[0]);
      WorkIsBounded(Apply(s, steps[0]), steps[1..], s');
    }
  }

  /** An observed child outside the group that has died, with no add() of it past its insertion. */
  ghost predicate Missed(s: State, p: Pid) {
    p in s.obs.children && p in s.procs && s.procs[p] == Child(Zombie, false) && !Pursued(s, p)
  }

  lemma MissedStays(s: State, step: Step, p: Pid)
    requires Missed(s, p) && Enabled(s, step)
    ensures Missed(Apply(s, step), p) && Apply(s, step).obs.announced[p] == s.obs.announced[p]
  {
    var s' := Apply(s, step);
    assert !Pursues(Pc(s, Actor(step)), p);
    forall t ensures !Pursues(Pc(s', t), p) {
      assert !Pursues(Pc(s, t), p);
      if t != Actor(step) { OthersStay(s, step, t); }
    }
  }

  /**
   The header promises an emission whenever an observed child ceases to exist.  For a
   child outside the process group this fails in every run: whatever happens after its
   death, further add() calls included, it is never announced and never leaves the map.
   */
  lemma {:induction false} OutsideGroupNeverAnnounced(s: State, steps: seq<Step>, s': State, p: Pid)
    requires Missed(s, p) && Run(s, steps, s')
    ensures Missed(s', p) && s'.obs.announced[p] == s.obs.announced[p]
    decreases |steps|
  {
    if steps != [] {
      MissedStays(s, steps[0], p);
      OutsideGroupNeverAnnounced(Apply(s, steps[0]), steps[1..], s', p);
    }
  }

  /** A dead child that is observed only while some call deals with it. */
  ghost predicate InHand(s: State, p: Pid) {
    p in s.procs && s.procs[p].life != Alive && (p in s.obs.children ==> Pursued(s, p))
  }

  /** Inserting a dead child starts a pursuit, and a pursuit of it ends only with its removal. */
  lemma InHandStep(s: State, step: Step, p: Pid)
    requires PcInv(s) && RunnerInv(s) && InHand(s, p) && Enabled(s, step)
    ensures InHand(Apply(s, step), p)
  {
    DeadStays(s, step, p);
    if p in Apply(s, step).obs.children {
      if p in s.obs.children {
        var t :| Pursues(Pc(s, t), p);
        PursuerStays(s, step, t, p);
      } else {
        InsertionPursues(s, step, p);
      }
    }
  }

  lemma PursuerStays(s: State, step: Step, t: Tid, p: Pid)
    requires PcFacts(s, Pc(s, t)) && RunnerInv(s) && Enabled(s, step) && Pursues(Pc(s, t), p)
    requires p in s.procs && s.procs[p].life != Alive && p in Apply(s, step).obs.children
    ensures Pursues(Pc(Apply(s, step), t), p)
  {
    if step.Call? && step.t == t {
      InHandCall(s, t, step.c, p);
    } else if !step.Loop? {
      OthersStay(s, step, t);
    }
  }

  lemma DeadStays(s: State, step: Step, p: Pid)
    requires Enabled(s, step) && p in s.procs && s.procs[p].life != Alive
    ensures p in Apply(s, step).procs && Apply(s, step).procs[p].life != Alive
  {
  }

  lemma InsertionPursues(s: State, step: Step, p: Pid)
    requires Enabled(s, step) && p !in s.obs.children && p in Apply(s, step).obs.children
    ensures Pursues(Pc(Apply(s, step), Actor(step)), p)
  {
  }

  lemma InHandCall(s: State, t: Tid, c: CallStep, p: Pid)
    requires CallEnabled(s, t, c) && PcFacts(s, Pc(s, t)) && Pursues(Pc(s, t), p)
    requires p in s.procs && s.procs[p].life != Alive && p in ApplyCall(s, t, c).obs.children
    ensures Pursues(Pc(ApplyCall(s, t, c), t), p)
  {
  }

  lemma {:induction false} InHandRun(s: State, steps: seq<Step>, s': State, p: Pid)
    requires Inv(s) && Run(s, steps, s') && InHand(s, p)
    ensures InHand(s', p)
    decreases |steps|
  {
    if steps != [] {
      InHandStep(s, steps[0], p);
      StepInv(s, steps[0]);
      InHandRun(Apply(s, steps[0]), steps[1..], s', p);
    }
  }

  /**
   Which registrations are announced: take a dead child at any moment and let anything
   happen until the library is at rest.  Then all its registrations, earlier and later ones,
   have been announced if and only if the child was not Missed at that moment.
   */
  lemma AnnouncedUnlessMissed(s: State, steps: seq<Step>, s': State, p: Pid)
    requires Reachable(s) && p in s.procs && s.procs[p].life != Alive
    requires Run(s, steps, s') && Quiescent(s')
    ensures s'.obs.announced[p] == s'.obs.inserted[p] <==> !Missed(s, p)
  {
    ReachableInv(s);
    RunInv(s, steps, s');
    ReachableOn(s, steps, s');
    ExactlyOnceAtQuiescence(s', p);
    if Missed(s, p) {
      OutsideGroupNeverAnnounced(s, steps, s', p);
      StillMissed(s', p);
    } else if IsZombie(s, p) {
      RunAdvances(s, steps, s');
    } else {
      InHandRun(s, steps, s', p);
      assert !Pursued(s', p);
    }
  }

  lemma StillMissed(s: State, p: Pid)
    requires Inv(s) && Missed(s, p)
    ensures s.obs.announced[p] < s.obs.inserted[p]
  {
    assert Balanced(s, p);
    if s.obs.lock.Some? { assert !Pursues(Pc(s, s.obs.lock.value), p); }
  }

  lemma ReachableOn(s: State, steps: seq<Step>, s': State)
    requires Reachable(s) && Run(s, steps, s')
    ensures Reachable(s')
  {
    var start, before :| Init(start) && Run(start, before, s);
    RunConcat(start, before, s, steps, s');
  }

  /**
   The header promises an emission whenever an observed child ceases to exist.  Exactly
   when this is so: the child is in the caller's process group when it dies, or the add()
   that registered it has still to call waitpid.
   */
  lemma DeathAnnouncedExactly(s: State, p: Pid, steps: seq<Step>, s': State)
    requires Reachable(s) && Enabled(s, World(Die(p))) && p in s.obs.children
    requires Run(Apply(s, World(Die(p))), steps, s') && Quiescent(s')
    ensures s'.obs.announced[p] > s.obs.announced[p] <==> s.procs[p].inGroup || exists t :: Pc(s, t) == AddInserted(p)
  {
    var dead := Apply(s, World(Die(p)));
    ReachableInv(s);
    assert Run(s, [World(Die(p))], dead);
    ReachableOn(s, [World(Die(p))], dead);
    AnnouncedUnlessMissed(dead, steps, s', p);
    DeathMisses(s, p);
    RunAdvances(dead, steps, s');
    if Missed(dead, p) { OutsideGroupNeverAnnounced(dead, steps, s', p); }
  }

  lemma DeathMisses(s: State, p: Pid)
    requires Inv(s) && Enabled(s, World(Die(p))) && p in s.obs.children
    ensures Missed(Apply(s, World(Die(p))), p) <==> !s.procs[p].inGroup && forall t :: Pc(s, t) != AddInserted(p)
    ensures s.obs.inserted[p] == s.obs.announced[p] + 1
  {
    var dead := Apply(s, World(Die(p)));
    assert Balanced(s, p);
    forall t ensures Pc(dead, t) == Pc(s, t) && (Pursues(Pc(s, t), p) <==> Pc(s, t) == AddInserted(p)) {
      assert PcFacts(s, Pc(s, t));
    }
    if s.obs.lock.Some? { assert PcFacts(s, Pc(s, s.obs.lock.value)); }
  }

  const NOTHING_OBSERVED := Observer(None, {}, {}, multiset{}, multiset{}, multiset{})
  const ONE_OBSERVED := Observer(None, {7}, {7}, multiset{7}, multiset{}, multiset{})

  /** Such a death does happen: child 7 is forked and registered, leaves the group, and dies. */
  lemma MissedDeath(mask: set<Signal>) returns (s: State)
    requires SIGCHLD in mask
    ensures Reachable(s) && Missed(s, 7) && s.obs.announced[7] == 0
  {
    var start := State(map[], Trap(mask, {}, 0, NotRunning, [], [], map[], 0, 0), NOTHING_OBSERVED, map[]);
    var forked := start.(procs := map[7 := Child(Alive, true)]);
    var added := forked.(obs := ONE_OBSERVED, threads := map[1 := Idle]);
    var left := added.(procs := map[7 := Child(Alive, false)]);
    assert Run(start, [World(Spawn(7))], forked) by { Then(start, [], start, World(Spawn(7))); }
    var steps := Register(forked);
    RunConcat(start, [World(Spawn(7))], forked, steps, added);
    Then(start, [World(Spawn(7))] + steps, added, World(Regroup(7, false)));
    assert Apply(added, World(Regroup(7, false))) == left;
    Then(start, [World(Spawn(7))] + steps + [World(Regroup(7, false))], left, World(Die(7)));
    s := Apply(left, World(Die(7)));
    assert forall t :: Pc(s, t) == Idle;
  }

  /** Coming back undoes leaving. */
  lemma BackInGroup(s: State, p: Pid)
    requires p in s.procs && s.procs[p] == Child(Alive, true)
    ensures var left := Apply(s, World(Regroup(p, false)));
            left.procs[p] == Child(Alive, false) && Apply(left, World(Regroup(p, true))) == s
  {
    assert s.procs[p := Child(Alive, false)][p := Child(Alive, true)] == s.procs;
  }

  /** One more step of a run. */
  lemma Then(start: State, steps: seq<Step>, s: State, step: Step)
    requires Run(start, steps, s) && Enabled(s, step)
    ensures Run(start, steps + [step], Apply(s, step))
  {
    assert Run(s, [step], Apply(s, step));
    RunConcat(start, steps, s, [step], Apply(s, step));
  }

  /** add() of a living child on thread 1. */
  lemma Register(s: State) returns (steps: seq<Step>)
    requires s.threads == map[] && s.obs == NOTHING_OBSERVED && s.procs == map[7 := Child(Alive, true)]
    ensures Run(s, steps, s.(obs := ONE_OBSERVED, threads := map[1 := Idle]))
  {
    var s1 := s.(obs := NOTHING_OBSERVED.(handles := {7}), threads := map[1 := AddCalled(7)]);
    var s2 := s1.(obs := s1.obs.(lock := Some(1)), threads := map[1 := AddLocked(7)]);
    var s3 := s.(obs := ONE_OBSERVED.(lock := Some(1)), threads := map[1 := AddInserted(7)]);
    var s4 := s.(obs := ONE_OBSERVED, threads := map[1 := Idle]);
    assert map[1 := AddCalled(7)][1 := AddLocked(7)] == map[1 := AddLocked(7)];
    assert map[1 := AddLocked(7)][1 := AddInserted(7)] == map[1 := AddInserted(7)];
    assert map[1 := AddInserted(7)][1 := Idle] == map[1 := Idle];
    assert ApplyCall(s, 1, CallAdd(7)) == s1;
    assert ApplyCall(s1, 1, Lock) == s2;
    assert ApplyCall(s2, 1, Insert) == s3;
    assert ApplyCall(s3, 1, Probe) == s4;
    Then(s, [], s, Call(1, CallAdd(7)));
    Then(s, [Call(1, CallAdd(7))], s1, Call(1, Lock));
    Then(s, [Call(1, CallAdd(7)), Call(1, Lock)], s2, Call(1, Insert));
    Then(s, [Call(1, CallAdd(7)), Call(1, Lock), Call(1, Insert)], s3, Call(1, Probe));
    steps := [Call(1, CallAdd(7)), Call(1, Lock), Call(1, Insert)] + [Call(1, Probe)];
  }
}
