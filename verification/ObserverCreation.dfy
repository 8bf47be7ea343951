/** Concurrent calls of DeathObserver::create_once_with_signal_trap on any number of threads. */
module ObserverCreation {
  type Tid = nat

  /** Where a call stands after it has won the exchange: building the observer, or unwinding from its constructor. */
  datatype Phase = Constructing(trapsChld: bool) | Unwinding

  datatype State = State(flag: bool, calls: map<Tid, Phase>, created: nat, refused: nat, failed: nat)

  datatype Step =
    | Exchange(t: Tid, trapsChld: bool)  // has_been_created_once.exchange(true)
    | Construct(t: Tid)                  // the constructor returns or throws
    | Reset(t: Tid)                      // has_been_created_once.store(false) in the handler

  predicate Enabled(s: State, step: Step) {
    match step
    case Exchange(t, _) => t !in s.calls
    case Construct(t) => t in s.calls && s.calls[t].Constructing?
    case Reset(t) => t in s.calls && s.calls[t].Unwinding?
  }

  function Apply(s: State, step: Step): State
    requires Enabled(s, step)
  {
    match step
    case Exchange(t, trapsChld) =>
      if s.flag then s.(refused := s.refused + 1)
      else s.(flag := true, calls := s.calls[t := Constructing(trapsChld)])
    case Construct(t) =>
      if s.calls[t].trapsChld then s.(calls := s.calls - {t}, created := s.created + 1)
      else s.(calls := s.calls[t := Unwinding])
    case Reset(t) => s.(flag := false, calls := s.calls - {t}, failed := s.failed + 1)
  }

  ghost predicate Run(s: State, steps: seq<Step>, s': State)
    decreases |steps|
  {
    if steps == [] then s == s'
    else Enabled(s, steps[0]) && Run(Apply(s, steps[0]), steps[1..], s')
  }

  const INITIAL := State(false, map[], 0, 0, 0)

  /** Observers created and under construction number one exactly when the flag is set, and none otherwise. */
  predicate Inv(s: State) {
    s.created + |s.calls| == if s.flag then 1 else 0
  }

  lemma StepInv(s: State, step: Step)
    requires Inv(s) && Enabled(s, step)
    ensures Inv(Apply(s, step))
  {
    if !step.Exchange? {
      assert |s.calls.Keys| == |s.calls|;
      assert s.calls.Keys == (s.calls.Keys - {step.t}) + {step.t};
      assert (s.calls - {step.t}).Keys == s.calls.Keys - {step.t};
      assert |(s.calls - {step.t}).Keys| == |s.calls - {step.t}|;
    }
  }

  lemma {:induction false} RunInv(s: State, steps: seq<Step>, s': State)
    requires Inv(s) && Run(s, steps, s')
    ensures Inv(s')
    decreases |steps|
  {
    if steps != [] {
      StepInv(s, steps[0]);
      RunInv(Apply(s, steps[0]), steps[1..], s');
    }
  }

  function CountExchanges(steps: seq<Step>): nat {
    if steps == [] then 0 else (if steps[0].Exchange? then 1 else 0) + CountExchanges(steps[1..])
  }

  function CountResets(steps: seq<Step>): nat {
    if steps == [] then 0 else (if steps[0].Reset? then 1 else 0) + CountResets(steps[1..])
  }

  /** Every call is accounted for: it was refused, it failed, it made an observer, or it is still in progress. */
  lemma {:induction false} CallsAccountedFor(s: State, steps: seq<Step>, s': State)
    requires Run(s, steps, s')
    ensures s'.refused + s'.failed + s'.created + |s'.calls| == s.refused + s.failed + s.created + |s.calls| + CountExchanges(steps)
    ensures s'.failed == s.failed + CountResets(steps)
    decreases |steps|
  {
    if steps != [] {
      var t := steps[0].t;
      if !steps[0].Exchange? {
        assert |s.calls.Keys| == |s.calls|;
        assert s.calls.Keys == (s.calls.Keys - {t}) + {t};
        assert (s.calls - {t}).Keys == s.calls.Keys - {t};
        assert |(s.calls - {t}).Keys| == |s.calls - {t}|;
      }
      CallsAccountedFor(Apply(s, steps[0]), steps[1..], s');
    }
  }

  /**
   A call that finds no observer makes one if and only if its trap is one for SIGCHLD;
   otherwise it unwinds, and leaves everything as it was before, so that creation can be retried.
   */
  lemma CreatedIfTrapped(s: State, t: Tid, trapsChld: bool)
    requires Inv(s) && !s.flag && t !in s.calls
    ensures var s1 := Apply(s, Exchange(t, trapsChld));
            && Enabled(s1, Construct(t))
            && var s2 := Apply(s1, Construct(t));
            && (s2.created == s.created + 1 <==> trapsChld)
            && (trapsChld ==> s2.flag && s2.calls == s.calls)
            && (!trapsChld ==> Enabled(s2, Reset(t)) && Apply(s2, Reset(t)) == s.(failed := s.failed + 1))
  {
    assert s.calls == map[];
    var s1 := Apply(s, Exchange(t, trapsChld));
    assert s1.calls - {t} == s.calls;
    var s2 := Apply(s1, Construct(t));
    if !trapsChld { assert s2.calls - {t} == s.calls; }
  }

  /**
   Single creation: over every interleaving, at most one observer exists or is being
   built, the flag says which; every call of the run was refused, failed, made the observer
   or is in progress; a caller is refused only if an observer exists or is being built; and
   once a failed construction has been unwound the next caller gets its turn.
   */
  lemma SingleCreation(steps: seq<Step>, s: State, t: Tid, trapsChld: bool)
    requires Run(INITIAL, steps, s)
    ensures s.created + |s.calls| <= 1 && (s.flag <==> s.created + |s.calls| == 1)
    ensures CountExchanges(steps) == s.refused + s.failed + s.created + |s.calls| && s.failed == CountResets(steps)
    ensures t !in s.calls ==>
              var s' := Apply(s, Exchange(t, trapsChld));
              (t in s'.calls <==> s.created == 0 && s.calls == map[]) && (t !in s'.calls ==> s'.refused == s.refused + 1)
    ensures t in s.calls && s.calls[t].Unwinding? ==>
              var s' := Apply(s, Reset(t));
              s'.created == 0 && s'.calls == map[] && Apply(s', Exchange(t, true)).calls == map[t := Constructing(true)]
  {
    RunInv(INITIAL, steps, s);
    CallsAccountedFor(INITIAL, steps, s);
    if t in s.calls {
      assert Inv(s);
      if s.calls[t].Unwinding? {
        StepInv(s, Reset(t));
      }
    }
  }
}
