/** What the death-observation protocol guarantees in every reachable state. */
module ObservationTheorems {
  import opened Options
  import opened Observation
  import opened ObservationInvariant

  ghost predicate Reachable(s: State) {
    exists start, steps :: Init(start) && Run(start, steps, s)
  }

  lemma ReachableInv(s: State)
    requires Reachable(s)
    ensures Inv(s)
  {
    var start, steps :| Init(start) && Run(start, steps, s);
    InitInv(start);
    RunInv(start, steps, s);
  }

  /**
   No lost wake-up: an observed zombie of the process group, except the one that an
   add() is about to probe, is accounted for by a pending SIGCHLD, by one that has been
   read and not dispatched, or by on_sig_child running before its final waitpid; in
   particular a loop that waits in poll() is woken.
   */
  lemma NoLostWakeUp(s: State, p: Pid)
    requires Reachable(s) && IsZombie(s, p) && p in s.obs.children
    requires forall t :: Pc(s, t) != AddInserted(p)
    ensures || SIGCHLD in s.trap.pending
            || SIGCHLD in Rest(s.trap)
            || (s.trap.runner.Dispatching? && InHandler(Pc(s, RUNNER)))
    ensures s.trap.runner == Polling ==>
              Enabled(s, Loop(PollReady)) && Apply(s, Loop(PollReady)).trap.runner.signalled
  {
    ReachableInv(s);
    assert Due(s, p);
  }

  /**
   If no child had died unnoticed when the observer was created, the same holds for every
   zombie of the group, observed or not.
   */
  lemma {:induction false} EveryZombieWakes(s: State, steps: seq<Step>, s': State, p: Pid)
    requires Inv(s) && Run(s, steps, s') && IsZombie(s', p)
    requires forall q :: IsZombie(s, q) ==> Woken(s)
    ensures Woken(s')
    decreases |steps|
  {
    if steps != [] {
      var mid := Apply(s, steps[0]);
      StepInv(s, steps[0]);
      forall q | IsZombie(mid, q) ensures Woken(mid) {
        ZombiesCome(s, steps[0], q);
        if IsZombie(s, q) { TokenKept(s, steps[0], q); }
      }
      EveryZombieWakes(mid, steps[1..], s', p);
    }
  }

  /** Announcement balance: while the mutex is free, registrations are announcements plus the map. */
  lemma AnnouncementBalance(s: State)
    requires Reachable(s) && s.obs.lock == None
    ensures s.obs.inserted == s.obs.announced + multiset(s.obs.children)
  {
    ReachableInv(s);
    forall p ensures s.obs.inserted[p] == (s.obs.announced + multiset(s.obs.children))[p] {
      assert Balanced(s, p);
    }
  }

  /**
   Announcement soundness: child_died is emitted for pid only when pid has been
   reaped or never was a child, whoever reaped it and whenever add() ran.
   */
  lemma AnnouncementSoundness(s: State, step: Step, p: Pid)
    requires Reachable(s) && Enabled(s, step)
    requires Apply(s, step).obs.announced[p] != s.obs.announced[p]
    ensures step.Call? && step.c == Announce && Pc(s, step.t).pid == p
    ensures Apply(s, step).obs.announced[p] == s.obs.announced[p] + 1
    ensures p in s.procs ==> s.procs[p].life == Reaped
  {
    ReachableInv(s);
    assert PcFacts(s, Pc(s, Actor(step)));
  }

  /**
   Registration soundness: a pid is registered exactly when a thread in add() inserts it and
   finds it absent, and refused exactly when it finds it present.
   */
  lemma RegistrationSoundness(s: State, step: Step, p: Pid)
    requires Enabled(s, step)
    ensures var inserting := step.Call? && step.c == Insert && Pc(s, step.t) == AddLocked(p);
            var s' := Apply(s, step);
            && s'.obs.inserted[p] == s.obs.inserted[p] + (if inserting && p !in s.obs.children then 1 else 0)
            && s'.obs.rejected[p] == s.obs.rejected[p] + (if inserting && p in s.obs.children then 1 else 0)
  {
  }

  /** No SIGCHLD outstanding, run() idle, no add() or on_sig_child() in progress. */
  ghost predicate Quiescent(s: State) {
    && SIGCHLD !in s.trap.pending
    && (s.trap.runner == NotRunning || s.trap.runner == Polling)
    && forall t :: Pc(s, t) == Idle
  }

  /**
   Exactly once: at quiescence an observed pid is a living child or a zombie outside
   the group, which waitpid(0, ..) cannot see.  Every other pid has been announced
   exactly as often as it was registered; in particular one add() of a child of the
   group that died gave exactly one announcement.
   */
  lemma ExactlyOnceAtQuiescence(s: State, p: Pid)
    requires Reachable(s) && Quiescent(s)
    ensures p in s.obs.children ==> p in s.procs && (s.procs[p].life == Alive || s.procs[p] == Child(Zombie, false))
    ensures p !in s.obs.children ==> s.obs.announced[p] == s.obs.inserted[p]
    ensures p in s.procs && s.procs[p].inGroup && s.procs[p].life != Alive && s.obs.inserted[p] + s.obs.rejected[p] == 1 ==>
              s.obs.announced[p] == 1
  {
    ReachableInv(s);
    assert Balanced(s, p);
    assert !Holds(Pc(s, if s.obs.lock.Some? then s.obs.lock.value else 0));
    assert !Due(s, p);
    assert !Pursued(s, p);
    if s.obs.rejected[p] > 0 { assert p in s.obs.inserted; }
  }

  /**
   Dispatch fidelity: emissions are the dequeued signals, in order, less the part of
   the current batch of at most five still to come; outside a batch nothing is owed.  Every raise
   of a trapped signal is pending, in the batch, or has been followed by an
   emission.  The read after poll never fails.
   */
  lemma DispatchFidelity(s: State)
    requires Reachable(s)
    ensures s.trap.dequeued == s.trap.emitted + Rest(s.trap) && |Rest(s.trap)| <= 5
    ensures !s.trap.runner.Dispatching? ==> s.trap.emitted == s.trap.dequeued
    ensures forall x :: x in s.trap.raisedAt && x in s.trap.mask && x !in s.trap.pending && x !in Rest(s.trap) ==>
              s.trap.raisedAt[x] <= |s.trap.emitted| && x in s.trap.emitted[s.trap.raisedAt[x]..]
    ensures !Enabled(s, Loop(ReadFailed)) && s.trap.runner != Broken
    ensures s.trap.runner.Polled? && s.trap.runner.signalled ==> exists batch :: Enabled(s, Loop(ReadSignals(batch)))
  {
    ReachableInv(s);
    assert s.trap.emitted + [] == s.trap.emitted;
    forall x | x in s.trap.raisedAt && x in s.trap.mask && x !in s.trap.pending && x !in Rest(s.trap)
      ensures s.trap.raisedAt[x] <= |s.trap.emitted| && x in s.trap.emitted[s.trap.raisedAt[x]..]
    {
      assert Answered(s.trap, x);
    }
    if s.trap.runner.Polled? && s.trap.runner.signalled {
      var x :| x in s.trap.pending && x in s.trap.mask;
      assert Enabled(s, Loop(ReadSignals([x])));
    }
  }

  /** The trap of a later state: its signals are the same, and what was raised or emitted earlier still counts. */
  ghost predicate LaterTrap(t: Trap, t': Trap) {
    && t'.mask == t.mask && t.emitted <= t'.emitted && t.dequeued <= t'.dequeued
    && forall x :: x in t.raisedAt && x in t.mask ==> x in t'.raisedAt && t'.raisedAt[x] >= t.raisedAt[x]
  }

  lemma LoopLater(t: Trap, waiting: bool, l: LoopStep)
    requires LoopEnabled(t, waiting, l)
    ensures LaterTrap(t, ApplyLoop(t, waiting, l))
  {
  }

  lemma RaiseLater(t: Trap, sig: Signal)
    requires TrapInv(t)
    ensures LaterTrap(t, RaiseSignal(t, sig))
  {
    assert forall x :: x in t.raisedAt && x in t.mask ==> Answered(t, x);
  }

  lemma TrapLater(s: State, step: Step)
    requires TrapInv(s.trap) && Enabled(s, step)
    ensures LaterTrap(s.trap, Apply(s, step).trap)
  {
    match step
    case World(w) =>
      if w.Die? { RaiseLater(s.trap, SIGCHLD); }
      if w.Raise? { RaiseLater(s.trap, w.sig); }
    case Loop(l) => LoopLater(s.trap, Pc(s, RUNNER) == Idle, l);
    case Call(_, _) =>
  }

  lemma {:induction false} RunLater(s: State, steps: seq<Step>, s': State)
    requires Inv(s) && Run(s, steps, s')
    ensures LaterTrap(s.trap, s'.trap)
    decreases |steps|
  {
    if steps != [] {
      TrapLater(s, steps[0]);
      StepInv(s, steps[0]);
      RunLater(Apply(s, steps[0]), steps[1..], s');
    }
  }

  /** Raising x, as anybody may or as the death of a child does. */
  predicate Raises(step: Step, x: Signal) {
    step == World(Raise(x)) || (step.World? && step.w.Die? && x == SIGCHLD)
  }

  /**
   No signal is lost: whatever happens after a trapped signal has been raised, it is still
   pending, in the batch, or has been emitted since.
   */
  lemma RaiseIsAnswered(s: State, step: Step, x: Signal, steps: seq<Step>, s': State)
    requires Reachable(s) && Enabled(s, step) && Raises(step, x) && x in s.trap.mask && Run(Apply(s, step), steps, s')
    ensures |s.trap.emitted| <= |s'.trap.emitted|
    ensures x in s'.trap.pending || x in Rest(s'.trap) || x in s'.trap.emitted[|s.trap.emitted|..]
  {
    ReachableInv(s);
    StepInv(s, step);
    RunLater(Apply(s, step), steps, s');
    RunInv(Apply(s, step), steps, s');
    assert Answered(s'.trap, x);
    LaterTail(s'.trap.emitted, |s.trap.emitted|, s'.trap.raisedAt[x], x);
  }

  lemma LaterTail(signals: seq<Signal>, i: nat, j: nat, x: Signal)
    requires i <= j <= |signals|
    ensures x in signals[j..] ==> x in signals[i..]
  {
    assert signals[i..][j - i..] == signals[j..];
  }

  function CountRaises(steps: seq<Step>, x: Signal): nat {
    if steps == [] then 0 else (if Raises(steps[0], x) then 1 else 0) + CountRaises(steps[1..], x)
  }

  /** How often x has been dequeued, with the one that may be pending. */
  function Occurrences(t: Trap, x: Signal): nat {
    multiset(t.dequeued)[x] + if x in t.pending then 1 else 0
  }

  lemma {:induction false} InBatchOnce(batch: seq<Signal>, x: Signal)
    requires forall i, j :: 0 <= i < j < |batch| ==> batch[i] != batch[j]
    ensures multiset(batch)[x] == if x in batch then 1 else 0
    decreases |batch|
  {
    if batch != [] {
      InBatchOnce(batch[1..], x);
      assert batch == [batch[0]] + batch[1..];
      assert forall k :: 0 <= k < |batch[1..]| ==> batch[1..][k] == batch[k + 1];
    }
  }

  lemma OccurrencesStep(s: State, step: Step, x: Signal)
    requires Enabled(s, step)
    ensures Occurrences(Apply(s, step).trap, x) <= Occurrences(s.trap, x) + (if Raises(step, x) then 1 else 0)
  {
    if step.Loop? && step.l.ReadSignals? { InBatchOnce(step.l.batch, x); }
  }

  lemma {:induction false} OccurrencesRun(s: State, steps: seq<Step>, s': State, x: Signal)
    requires Run(s, steps, s')
    ensures Occurrences(s'.trap, x) <= Occurrences(s.trap, x) + CountRaises(steps, x)
    decreases |steps|
  {
    if steps != [] {
      OccurrencesStep(s, steps[0], x);
      OccurrencesRun(Apply(s, steps[0]), steps[1..], s', x);
    }
  }

  /** Nothing is emitted that was not raised: at most once for each raise, and once for a signal that was pending at the start. */
  lemma NoSpuriousEmission(start: State, steps: seq<Step>, s: State, x: Signal)
    requires Init(start) && Run(start, steps, s)
    ensures multiset(s.trap.emitted)[x] <= CountRaises(steps, x) + if x in start.trap.pending then 1 else 0
  {
    InitInv(start);
    RunInv(start, steps, s);
    OccurrencesRun(start, steps, s, x);
    assert multiset(s.trap.dequeued) == multiset(s.trap.emitted) + multiset(Rest(s.trap));
  }

  /** on_sig_child is entered by the loop exactly when SIGCHLD is emitted, once each time. */
  lemma HandlerFollowsEmission(s: State, l: LoopStep)
    requires Reachable(s) && Enabled(s, Loop(l))
    ensures Pc(Apply(s, Loop(l)), RUNNER) != Pc(s, RUNNER) <==> Apply(s, Loop(l)).trap.emitted == s.trap.emitted + [SIGCHLD]
    ensures Pc(Apply(s, Loop(l)), RUNNER) != Pc(s, RUNNER) ==> Pc(Apply(s, Loop(l)), RUNNER) == Draining
  {
    ReachableInv(s);
    var e, e' := s.trap.emitted, Apply(s, Loop(l)).trap.emitted;
    if l == Dispatch {
      var first: Signal := s.trap.runner.rest[0];
      assert first in Rest(s.trap);
      assert e' == e + [first] && e'[|e|] == first;
    } else {
      assert |e'| == |e|;
    }
  }

  /** has(): a dequeued signal is emitted exactly if the trap is one for it. */
  lemma OnlyTrappedEmitted(t: Trap)
    requires LoopEnabled(t, true, Dispatch)
    ensures t.runner.rest[0] in t.mask <==> ApplyLoop(t, true, Dispatch).emitted == t.emitted + [t.runner.rest[0]]
    ensures t.runner.rest[0] !in t.mask <==> ApplyLoop(t, true, Dispatch).emitted == t.emitted
  {
    assert |t.emitted + [t.runner.rest[0]]| == |t.emitted| + 1;
  }

  function CountStops(steps: seq<Step>): nat {
    if steps == [] then 0 else (if steps[0] == World(Stop) then 1 else 0) + CountStops(steps[1..])
  }

  lemma {:induction false} StopsCounted(s: State, steps: seq<Step>, s': State)
    requires Run(s, steps, s')
    ensures s'.trap.stops == s.trap.stops + CountStops(steps)
    decreases |steps|
  {
    if steps != [] {
      StopsCounted(Apply(s, steps[0]), steps[1..], s');
    }
  }

  /**
   Stop accounting: the stop() calls of a run are the values drained plus the counter, a
   loop in poll() with a stop outstanding is woken, and a return on stop drains them all.
   */
  lemma StopAccounting(start: State, steps: seq<Step>, s: State)
    requires Init(start) && Run(start, steps, s)
    ensures CountStops(steps) == s.trap.drained + s.trap.counter
    ensures CountStops(steps) > s.trap.drained && s.trap.runner == Polling ==>
              Enabled(s, Loop(PollReady)) && Apply(s, Loop(PollReady)).trap.runner.stopping
    ensures Enabled(s, Loop(EndIteration)) && Apply(s, Loop(EndIteration)).trap.runner == NotRunning ==>
              var s' := Apply(s, Loop(EndIteration));
              s'.trap.drained == CountStops(steps) > s.trap.drained && s'.trap.emitted == s'.trap.dequeued
  {
    InitInv(start);
    RunInv(start, steps, s);
    StopsCounted(start, steps, s);
  }
}
