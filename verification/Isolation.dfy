/**
 Which processes hold the ends of a child's pipes, over any sequence of library forks,
 plain forks, descriptor operations and exits, in any process.  A library fork is any
 step that the contract of Fork.ForkProcess allows.
 */
module Isolation {
  import opened Descriptors
  import opened Fork

  type ProcId = nat

  /** lineage: the process itself and all its ancestors. */
  datatype Proc = Proc(fds: Table, lineage: set<ProcId>)

  /** outputs: for every pipe made for a child's stdout or stderr, that child; inputs: the same for stdin. */
  datatype World = World(
    procs: map<ProcId, Proc>,
    outputs: map<nat, ProcId>,
    inputs: map<nat, ProcId>,
    pipesUsed: set<nat>,
    pidsUsed: set<ProcId>)

  datatype Step =
    | LibraryFork(parent: ProcId, child: ProcId, flags: Streams, names: Names, after: Table, handle: Handle, done: Streams, childFds: Table)
    | PlainFork(parent: ProcId, child: ProcId)
    | PlainPipe(q: ProcId, id: nat, r: int, w: int)
    | Duplicate(q: ProcId, fd: int, to: int)
    | CloseFd(q: ProcId, fd: int)
    | Exit(q: ProcId)

  predicate FreshNames(w: World, names: Names) {
    && names.inp != names.out && names.out != names.err && names.inp != names.err
    && names.inp !in w.pipesUsed && names.out !in w.pipesUsed && names.err !in w.pipesUsed
  }

  ghost predicate Enabled(w: World, step: Step) {
    match step
    case LibraryFork(parent, child, flags, names, after, handle, done, childFds) =>
      && parent in w.procs && child !in w.pidsUsed && FreshNames(w, names)
      && ParentSide(w.procs[parent].fds, flags, names, after, handle)
      && ChildHolds(w.procs[parent].fds, done, names, childFds) && Among(done, flags)
    case PlainFork(parent, child) => parent in w.procs && child !in w.pidsUsed
    case PlainPipe(q, id, r, wr) => q in w.procs && id !in w.pipesUsed && r != wr
    case Duplicate(q, fd, _) => q in w.procs && fd in w.procs[q].fds
    case CloseFd(q, _) => q in w.procs
    case Exit(q) => q in w.procs
  }

  function SetTable(w: World, q: ProcId, fds: Table): World
    requires q in w.procs
  {
    w.(procs := w.procs[q := w.procs[q].(fds := fds)])
  }

  function AddChild(w: World, parent: ProcId, child: ProcId, fds: Table): World
    requires parent in w.procs
  {
    w.(procs := w.procs[child := Proc(fds, w.procs[parent].lineage + {child})], pidsUsed := w.pidsUsed + {child})
  }

  ghost function Apply(w: World, step: Step): World
    requires Enabled(w, step)
  {
    match step
    case LibraryFork(parent, child, flags, names, after, handle, done, childFds) =>
      AddChild(SetTable(w, parent, after), parent, child, childFds)
      .(outputs := w.outputs[names.out := child][names.err := child],
      inputs := w.inputs[names.inp := child],
      pipesUsed := w.pipesUsed + {names.inp, names.out, names.err})
    case PlainFork(parent, child) => AddChild(w, parent, child, w.procs[parent].fds)
    case PlainPipe(q, id, r, wr) =>
      SetTable(w, q, w.procs[q].fds[r := ReadEnd(id)][wr := WriteEnd(id)]).(pipesUsed := w.pipesUsed + {id})
    case Duplicate(q, fd, to) => SetTable(w, q, w.procs[q].fds[to := w.procs[q].fds[fd]])
    case CloseFd(q, fd) => SetTable(w, q, w.procs[q].fds - {fd})
    case Exit(q) => w.(procs := w.procs - {q})
  }

  ghost predicate Run(w: World, steps: seq<Step>, w': World)
    decreases |steps|
  {
    if steps == [] then w == w'
    else Enabled(w, steps[0]) && Run(Apply(w, steps[0]), steps[1..], w')
  }

  ghost predicate Init(w: World) {
    && w.outputs == map[] && w.inputs == map[] && w.pidsUsed == w.procs.Keys
    && (forall q :: q in w.procs ==> w.procs[q].lineage == {q})
    && (forall q :: q in w.procs ==> PipesKnown(w, w.procs[q].fds))
  }

  ghost predicate PipesKnown(w: World, fds: Table) {
    forall k :: k in fds ==> fds[k].Other? || fds[k].pipe in w.pipesUsed
  }

  ghost predicate Holds(fds: Table, end: End) {
    exists k :: k in fds && fds[k] == end
  }

  /** A table in which every write end of an output pipe belongs to a member of the lineage. */
  ghost predicate Confined(w: World, fds: Table, lineage: set<ProcId>) {
    forall k :: k in fds && fds[k].WriteEnd? && fds[k].pipe in w.outputs ==> w.outputs[fds[k].pipe] in lineage
  }

  /** A table without a write end of the stdin pipe of any member of the lineage. */
  ghost predicate Deprived(w: World, fds: Table, lineage: set<ProcId>) {
    forall k :: k in fds && fds[k].WriteEnd? && fds[k].pipe in w.inputs ==> w.inputs[fds[k].pipe] !in lineage
  }

  ghost predicate Good(w: World, q: ProcId)
    requires q in w.procs
  {
    && q in w.procs[q].lineage && w.procs[q].lineage <= w.pidsUsed
    && PipesKnown(w, w.procs[q].fds)
    && Confined(w, w.procs[q].fds, w.procs[q].lineage)
    && Deprived(w, w.procs[q].fds, w.procs[q].lineage)
  }

  ghost predicate Inv(w: World) {
    && w.outputs.Keys <= w.pipesUsed && w.inputs.Keys <= w.pipesUsed
    && (forall id :: id in w.inputs ==> w.inputs[id] in w.pidsUsed)
    && (forall q :: q in w.procs ==> q in w.pidsUsed && Good(w, q))
  }

  lemma InitInv(w: World)
    requires Init(w)
    ensures Inv(w)
  {
  }

  /** The parent keeps no write end of the new output pipes, and is not a descendant of the new child. */
  lemma ParentStaysGood(w: World, step: Step)
    requires Inv(w) && step.LibraryFork? && Enabled(w, step)
    ensures Good(Apply(w, step), step.parent)
  {
    var w', before, after, names := Apply(w, step), w.procs[step.parent].fds, step.after, step.names;
    assert Good(w, step.parent);
    forall k | k in after
      ensures after[k].Other? || after[k].pipe in w'.pipesUsed
      ensures after[k].WriteEnd? && after[k].pipe in w'.outputs ==> w'.outputs[after[k].pipe] in w.procs[step.parent].lineage
      ensures after[k].WriteEnd? && after[k].pipe in w'.inputs ==> w'.inputs[after[k].pipe] !in w.procs[step.parent].lineage
    {
      if k in before {
        assert after[k] == before[k];
      } else {
        assert k in OwnedBy(step.handle);
        assert after[k] == WriteEnd(names.inp) || after[k] == ReadEnd(names.out) || after[k] == ReadEnd(names.err);
      }
    }
  }

  lemma ChildIsGood(w: World, step: Step)
    requires Inv(w) && step.LibraryFork? && Enabled(w, step)
    ensures Good(Apply(w, step), step.child)
  {
    var w', before, fds, names := Apply(w, step), w.procs[step.parent].fds, step.childFds, step.names;
    assert Good(w, step.parent);
    forall k | k in fds
      ensures fds[k].Other? || fds[k].pipe in w'.pipesUsed
      ensures fds[k].WriteEnd? && fds[k].pipe in w'.outputs ==> w'.outputs[fds[k].pipe] in w'.procs[step.child].lineage
      ensures fds[k].WriteEnd? && fds[k].pipe in w'.inputs ==> w'.inputs[fds[k].pipe] !in w'.procs[step.child].lineage
    {
      if k in before && before[k] == fds[k] {
        assert before[k].Other? || before[k].pipe in w.pipesUsed;
      }
    }
  }

  lemma ForkStep(w: World, step: Step)
    requires Inv(w) && step.LibraryFork? && Enabled(w, step)
    ensures Inv(Apply(w, step))
  {
    var w' := Apply(w, step);
    ParentStaysGood(w, step);
    ChildIsGood(w, step);
    forall q | q in w'.procs ensures q in w'.pidsUsed && Good(w', q) {
      if q != step.parent && q != step.child { assert Good(w, q); }
    }
  }

  lemma OtherStep(w: World, step: Step)
    requires Inv(w) && !step.LibraryFork? && Enabled(w, step)
    ensures Inv(Apply(w, step))
  {
    var w' := Apply(w, step);
    forall q | q in w'.procs ensures q in w'.pidsUsed && Good(w', q) {
      assert Good(w, if step.PlainFork? && q == step.child then step.parent else q);
    }
  }

  lemma {:induction false} RunInv(w: World, steps: seq<Step>, w': World)
    requires Inv(w) && Run(w, steps, w')
    ensures Inv(w')
    decreases |steps|
  {
    if steps != [] {
      if steps[0].LibraryFork? { ForkStep(w, steps[0]); } else { OtherStep(w, steps[0]); }
      RunInv(Apply(w, steps[0]), steps[1..], w');
    }
  }

  predicate Forks(step: Step) {
    step.LibraryFork? || step.PlainFork?
  }

  ghost predicate Reachable(w: World) {
    exists start, steps :: Init(start) && Run(start, steps, w)
  }

  lemma ReachableInv(w: World)
    requires Reachable(w)
    ensures Inv(w)
  {
    var start, steps :| Init(start) && Run(start, steps, w);
    InitInv(start);
    RunInv(start, steps, w);
  }

  function Grown(step: Step, family: set<ProcId>): set<ProcId> {
    if Forks(step) && step.parent in family then family + {step.child} else family
  }

  /** The processes family and all that they and their descendants fork in the steps. */
  function Family(steps: seq<Step>, family: set<ProcId>): set<ProcId> {
    if steps == [] then family else Family(steps[1..], Grown(steps[0], family))
  }

  /** family are the processes that have k in their lineage. */
  ghost predicate Descends(w: World, k: ProcId, family: set<ProcId>) {
    && k in w.pidsUsed && family <= w.pidsUsed
    && forall q :: q in w.procs ==> (k in w.procs[q].lineage <==> q in family)
  }

  lemma DescendsStep(w: World, step: Step, k: ProcId, family: set<ProcId>)
    requires Inv(w) && Enabled(w, step) && Descends(w, k, family)
    ensures Descends(Apply(w, step), k, Grown(step, family))
  {
    var family' := Grown(step, family);
    var w' := Apply(w, step);
    forall q | q in w'.procs ensures k in w'.procs[q].lineage <==> q in family' {
      if Forks(step) && q == step.child {
        assert k in w.procs[step.parent].lineage <==> step.parent in family;
      } else {
        assert q in w.procs && w'.procs[q].lineage == w.procs[q].lineage;
      }
    }
  }

  /** The lineages recorded in the world are those that the forks of a run make. */
  lemma {:induction false} DescendsRun(w: World, steps: seq<Step>, w': World, k: ProcId, family: set<ProcId>)
    requires Inv(w) && Run(w, steps, w') && Descends(w, k, family)
    ensures Descends(w', k, Family(steps, family))
    decreases |steps|
  {
    if steps != [] {
      DescendsStep(w, steps[0], k, family);
      if steps[0].LibraryFork? { ForkStep(w, steps[0]); } else { OtherStep(w, steps[0]); }
      DescendsRun(Apply(w, steps[0]), steps[1..], w', k, Grown(steps[0], family));
    }
  }

  /** A pipe made for a child stays that child's. */
  ghost predicate Belongs(w: World, names: Names, child: ProcId) {
    && names.out in w.outputs && w.outputs[names.out] == child
    && names.err in w.outputs && w.outputs[names.err] == child
    && names.inp in w.inputs && w.inputs[names.inp] == child
  }

  lemma {:induction false} BelongsRun(w: World, steps: seq<Step>, w': World, names: Names, child: ProcId)
    requires Inv(w) && Run(w, steps, w') && Belongs(w, names, child)
    ensures Belongs(w', names, child)
    decreases |steps|
  {
    if steps != [] {
      assert Belongs(Apply(w, steps[0]), names, child);
      if steps[0].LibraryFork? { ForkStep(w, steps[0]); } else { OtherStep(w, steps[0]); }
      BelongsRun(Apply(w, steps[0]), steps[1..], w', names, child);
    }
  }

  /** Where a run from a library fork leads: the child's family is known, and so are its pipes. */
  lemma SinceFork(w: World, fork: Step, steps: seq<Step>, w': World)
    requires Reachable(w) && fork.LibraryFork? && Enabled(w, fork) && Run(Apply(w, fork), steps, w')
    ensures Inv(w') && Belongs(w', fork.names, fork.child) && Descends(w', fork.child, Family(steps, {fork.child}))
  {
    var w1 := Apply(w, fork);
    ReachableInv(w);
    ForkStep(w, fork);
    RunInv(w1, steps, w');
    BelongsRun(w1, steps, w', fork.names, fork.child);
    forall q | q in w1.procs ensures fork.child in w1.procs[q].lineage <==> q in {fork.child} {
      if q != fork.child { assert Good(w, q); }
    }
    DescendsRun(w1, steps, w', fork.child, {fork.child});
  }

  /**
   EOF isolation: whatever happens after a library fork, a write end of the child's stdout
   or stderr pipe is held only by the child and its descendants; once all of these are
   gone nobody holds one, so the parent reads end-of-file.
   */
  lemma EofIsolation(w: World, fork: Step, steps: seq<Step>, w': World, id: nat)
    requires Reachable(w) && fork.LibraryFork? && Enabled(w, fork) && Run(Apply(w, fork), steps, w')
    requires id == fork.names.out || id == fork.names.err
    ensures forall q :: q in w'.procs && Holds(w'.procs[q].fds, WriteEnd(id)) ==> q in Family(steps, {fork.child})
    ensures Family(steps, {fork.child}) !! w'.procs.Keys ==>
              forall q :: q in w'.procs ==> !Holds(w'.procs[q].fds, WriteEnd(id))
  {
    SinceFork(w, fork, steps, w');
    forall q | q in w'.procs && Holds(w'.procs[q].fds, WriteEnd(id)) ensures q in Family(steps, {fork.child}) {
      assert Good(w', q);
      var k :| k in w'.procs[q].fds && w'.procs[q].fds[k] == WriteEnd(id);
    }
  }

  /**
   A fork by a process that holds a write end of pipe id, in case of a library fork at a
   descriptor that the child does not redirect.
   */
  ghost predicate HandsOn(w: World, step: Step, id: nat)
    requires Enabled(w, step)
  {
    match step
    case LibraryFork(parent, _, _, _, _, _, done, _) =>
      exists k :: k in w.procs[parent].fds && w.procs[parent].fds[k] == WriteEnd(id) && Survives(done, k)
    case PlainFork(parent, _) => Holds(w.procs[parent].fds, WriteEnd(id))
    case _ => false
  }

  /**
   Stdin is not isolated in this way.  Exactly which write ends a new child gets of the
   pipes that existed before the fork: those that the fork hands on.  So a child forked
   while the parent has the handle of an earlier child holds that child's stdin.
   */
  lemma InheritedExactly(w: World, step: Step, id: nat)
    requires Forks(step) && Enabled(w, step) && id in w.pipesUsed
    ensures Holds(Apply(w, step).procs[step.child].fds, WriteEnd(id)) <==> HandsOn(w, step, id)
  {
    if step.LibraryFork? {
      var before, fds := w.procs[step.parent].fds, step.childFds;
      if k :| k in before && before[k] == WriteEnd(id) && Survives(step.done, k) {
        assert fds[k] == WriteEnd(id);
      }
      if k :| k in fds && fds[k] == WriteEnd(id) {
        assert k in before && before[k] == WriteEnd(id);
        assert Survives(step.done, k);
      }
    }
  }

  /**
   End-of-file on stdin: whatever happens after a library fork, neither the child nor any
   of its descendants holds a write end of its stdin pipe, so the child reads end-of-file
   exactly when everybody else, parent and siblings alike, has dropped it.
   */
  lemma StdinEndOfFile(w: World, fork: Step, steps: seq<Step>, w': World)
    requires Reachable(w) && fork.LibraryFork? && Enabled(w, fork) && Run(Apply(w, fork), steps, w')
    ensures forall q :: q in w'.procs && q in Family(steps, {fork.child}) ==> !Holds(w'.procs[q].fds, WriteEnd(fork.names.inp))
    ensures (forall q :: q in w'.procs ==> !Holds(w'.procs[q].fds, WriteEnd(fork.names.inp))) <==>
            forall q :: q in w'.procs && q !in Family(steps, {fork.child}) ==> !Holds(w'.procs[q].fds, WriteEnd(fork.names.inp))
  {
    SinceFork(w, fork, steps, w');
    forall q | q in w'.procs && Holds(w'.procs[q].fds, WriteEnd(fork.names.inp)) ensures q !in Family(steps, {fork.child}) {
      assert Good(w', q);
      var k :| k in w'.procs[q].fds && w'.procs[q].fds[k] == WriteEnd(fork.names.inp);
    }
  }

  /** q's table has end at a descriptor outside except. */
  ghost predicate HoldsBut(fds: Table, end: End, except: set<int>) {
    exists k :: k in fds && fds[k] == end && k !in except
  }

  /** The other steps: who holds an end of any pipe after them. */
  lemma HoldersAfter(w: World, step: Step, q: ProcId, end: End)
    requires Enabled(w, step) && !step.LibraryFork? && q in Apply(w, step).procs
    ensures var holds := Holds(Apply(w, step).procs[q].fds, end);
            match step
            case PlainFork(parent, child) => holds <==> Holds(w.procs[if q == child then parent else q].fds, end)
            case PlainPipe(p, id, r, wr) =>
              q in w.procs && (holds <==> if q == p then end == ReadEnd(id) || end == WriteEnd(id) || HoldsBut(w.procs[q].fds, end, {r, wr}) else Holds(w.procs[q].fds, end))
            case Duplicate(p, fd, to) =>
              q in w.procs && (holds <==> if q == p then end == w.procs[p].fds[fd] || HoldsBut(w.procs[q].fds, end, {to}) else Holds(w.procs[q].fds, end))
            case CloseFd(p, fd) =>
              q in w.procs && (holds <==> HoldsBut(w.procs[q].fds, end, if q == p then {fd} else {}))
            case Exit(p) => q in w.procs && q != p && (holds <==> Holds(w.procs[q].fds, end))
  {
    var fds := Apply(w, step).procs[q].fds;
    match step
    case PlainPipe(p, id, r, wr) =>
      if q == p {
        assert fds[r] == ReadEnd(id) && fds[wr] == WriteEnd(id);
        if HoldsBut(w.procs[q].fds, end, {r, wr}) {
          var k :| k in w.procs[q].fds && w.procs[q].fds[k] == end && k !in {r, wr};
          assert fds[k] == end;
        }
      }
    case Duplicate(p, fd, to) =>
      if q == p {
        assert fds[to] == w.procs[p].fds[fd];
        if HoldsBut(w.procs[q].fds, end, {to}) {
          var k :| k in w.procs[q].fds && w.procs[q].fds[k] == end && k !in {to};
          assert fds[k] == end;
        }
      }
    case CloseFd(p, fd) =>
      if k :| k in w.procs[q].fds && w.procs[q].fds[k] == end && (q == p ==> k != fd) {
        assert fds[k] == end;
      }
    case _ =>
  }

  ghost predicate NoHandOn(w: World, steps: seq<Step>, id: nat)
    decreases |steps|
  {
    steps != [] && Enabled(w, steps[0]) ==>
      !HandsOn(w, steps[0], id) && NoHandOn(Apply(w, steps[0]), steps[1..], id)
  }

  /** Nothing but a fork that hands it on makes a new holder. */
  lemma HolderStep(w: World, step: Step, id: nat, q: ProcId)
    requires Enabled(w, step) && id in w.pipesUsed && !HandsOn(w, step, id)
    requires q in Apply(w, step).procs && Holds(Apply(w, step).procs[q].fds, WriteEnd(id))
    ensures q in w.procs && Holds(w.procs[q].fds, WriteEnd(id))
  {
    if Forks(step) { InheritedExactly(w, step, id); }
    var fds := Apply(w, step).procs[q].fds;
    var k :| k in fds && fds[k] == WriteEnd(id);
    if step.Duplicate? && q == step.q && k == step.to {
      assert w.procs[q].fds[step.fd] == WriteEnd(id);
    } else {
      assert q in w.procs && k in w.procs[q].fds && w.procs[q].fds[k] == WriteEnd(id);
    }
  }

  /** Over a run without such a fork no process comes to hold the pipe. */
  lemma {:induction false} NoNewHolder(w: World, steps: seq<Step>, w': World, id: nat, q: ProcId)
    requires Run(w, steps, w') && id in w.pipesUsed && NoHandOn(w, steps, id)
    requires q in w'.procs && Holds(w'.procs[q].fds, WriteEnd(id))
    ensures q in w.procs && Holds(w.procs[q].fds, WriteEnd(id))
    decreases |steps|
  {
    if steps != [] {
      NoNewHolder(Apply(w, steps[0]), steps[1..], w', id, q);
      HolderStep(w, steps[0], id, q);
    }
  }

  /** Nobody but q0 holds a write end of pipe id ... */
  ghost predicate Alone(w: World, id: nat, q0: ProcId) {
    forall q :: q in w.procs && Holds(w.procs[q].fds, WriteEnd(id)) ==> q == q0
  }

  /** ... at any point of a run. */
  ghost predicate AlwaysAlone(w: World, steps: seq<Step>, id: nat, q0: ProcId)
    decreases |steps|
  {
    && Alone(w, id, q0)
    && (steps != [] && Enabled(w, steps[0]) ==> AlwaysAlone(Apply(w, steps[0]), steps[1..], id, q0))
  }

  lemma AloneStep(w: World, step: Step, id: nat, q0: ProcId)
    requires Inv(w) && Enabled(w, step) && id in w.pipesUsed && Alone(w, id, q0)
    ensures Alone(Apply(w, step), id, q0) <==> !HandsOn(w, step, id)
  {
    var w' := Apply(w, step);
    if HandsOn(w, step, id) {
      InheritedExactly(w, step, id);
      assert Holds(w.procs[step.parent].fds, WriteEnd(id));
      assert step.child in w'.procs && step.child != step.parent;
    } else {
      forall q | q in w'.procs && Holds(w'.procs[q].fds, WriteEnd(id)) ensures q == q0 {
        HolderStep(w, step, id, q);
      }
    }
  }

  lemma {:induction false} AloneExactly(w: World, steps: seq<Step>, w': World, id: nat, q0: ProcId)
    requires Inv(w) && Run(w, steps, w') && id in w.pipesUsed && Alone(w, id, q0)
    ensures AlwaysAlone(w, steps, id, q0) <==> NoHandOn(w, steps, id)
    decreases |steps|
  {
    if steps != [] {
      AloneStep(w, steps[0], id, q0);
      if !HandsOn(w, steps[0], id) {
        if steps[0].LibraryFork? { ForkStep(w, steps[0]); } else { OtherStep(w, steps[0]); }
        AloneExactly(Apply(w, steps[0]), steps[1..], w', id, q0);
      }
    }
  }

  /** Right after a library fork the parent alone can hold a write end of the child's stdin. */
  lemma NewStdin(w: World, step: Step, q: ProcId)
    requires Inv(w) && step.LibraryFork? && Enabled(w, step)
    requires q in Apply(w, step).procs && Holds(Apply(w, step).procs[q].fds, WriteEnd(step.names.inp))
    ensures q == step.parent
  {
    assert q in w.procs ==> Good(w, q);
    ChildIsGood(w, step);
  }

  /**
   Exactly when stdin is isolated: from the fork of child k on, k's parent is at every
   point the only process that can hold a write end of k's stdin if and only if no
   fork hands one on.
   */
  lemma IsolatedStdin(w: World, fork: Step, steps: seq<Step>, w': World)
    requires Inv(w) && fork.LibraryFork? && Enabled(w, fork) && Run(Apply(w, fork), steps, w')
    ensures AlwaysAlone(Apply(w, fork), steps, fork.names.inp, fork.parent) <==>
            NoHandOn(Apply(w, fork), steps, fork.names.inp)
  {
    var w1 := Apply(w, fork);
    forall q | q in w1.procs && Holds(w1.procs[q].fds, WriteEnd(fork.names.inp)) ensures q == fork.parent {
      NewStdin(w, fork, q);
    }
    ForkStep(w, fork);
    AloneExactly(w1, steps, w', fork.names.inp, fork.parent);
  }

  const STANDARD: Table := map[0 := Other(0), 1 := Other(1), 2 := Other(2)]
  const STDIN_ONLY := Handle(Pipe(-1, 3), NO_PIPE, NO_PIPE)
  const NO_STREAM := Handle(NO_PIPE, NO_PIPE, NO_PIPE)

  /** The fork of child 1 with its stdin redirected, as fork() lays out the two tables. */
  const FIRST := LibraryFork(0, 1, Streams(true, false, false), Names(10, 11, 12),
                             STANDARD[3 := WriteEnd(10)], STDIN_ONLY, Streams(true, false, false), STANDARD[0 := ReadEnd(10)][5 := ReadEnd(10)])

  /** The fork of child 2 with nothing redirected, while the handle of child 1 is alive. */
  const SECOND := LibraryFork(0, 2, NOTHING, Names(20, 21, 22),
                              STANDARD[3 := WriteEnd(10)], NO_STREAM, NOTHING, STANDARD[3 := WriteEnd(10)])

  /** The process that makes the two forks. */
  const BEGINNING := World(map[0 := Proc(STANDARD, {0})], map[], map[], {}, {0})

  lemma FirstFork() returns (w1: World)
    ensures Init(BEGINNING) && Enabled(BEGINNING, FIRST) && w1 == Apply(BEGINNING, FIRST)
    ensures w1.procs.Keys == {0, 1} && w1.procs[0] == Proc(STANDARD[3 := WriteEnd(10)], {0})
    ensures w1.pipesUsed == {10, 11, 12} && w1.pidsUsed == {0, 1} && w1.inputs == map[10 := 1]
  {
    assert OwnedBy(STDIN_ONLY) == {3};
    assert STANDARD[3 := WriteEnd(10)].Keys == STANDARD.Keys + {3};
    assert ChildHolds(STANDARD, FIRST.done, FIRST.names, FIRST.childFds);
    w1 := Apply(BEGINNING, FIRST);
  }

  lemma NothingRedirected(t: Table, names: Names)
    ensures ParentSide(t, NOTHING, names, t, NO_STREAM) && ChildHolds(t, NOTHING, names, t)
  {
    assert OwnedBy(NO_STREAM) == {};
  }

  lemma SecondFork(w1: World) returns (w2: World)
    requires 0 in w1.procs && w1.procs[0] == Proc(STANDARD[3 := WriteEnd(10)], {0})
    requires w1.pipesUsed == {10, 11, 12} && w1.pidsUsed == {0, 1} && w1.inputs == map[10 := 1]
    ensures Enabled(w1, SECOND) && w2 == Apply(w1, SECOND)
    ensures 0 in w2.procs && w2.procs[0] == w1.procs[0]
    ensures 2 in w2.procs && w2.procs[2] == Proc(STANDARD[3 := WriteEnd(10)], {0, 2})
    ensures 10 in w2.inputs && w2.inputs[10] == 1
  {
    NothingRedirected(w1.procs[0].fds, SECOND.names);
    w2 := Apply(w1, SECOND);
  }

  lemma ThreeSteps(w: World, a: Step, b: Step, c: Step)
    requires Enabled(w, a) && Enabled(Apply(w, a), b) && Enabled(Apply(Apply(w, a), b), c)
    ensures Run(w, [a, b, c], Apply(Apply(Apply(w, a), b), c))
  {
    var w2 := Apply(Apply(w, a), b);
    assert Run(Apply(w2, c), [], Apply(w2, c));
    assert [c][1..] == [];
    assert Run(w2, [c], Apply(w2, c));
    assert [b, c][1..] == [c];
    assert [a, b, c][1..] == [b, c];
  }

  /**
   A run of this kind: after both forks the parent drops its end of child 1's stdin, and
   child 1 still gets no end-of-file, because child 2, no descendant of it, holds one.
   */
  lemma StdinHeldBySibling() returns (w': World)
    ensures Init(BEGINNING) && Run(BEGINNING, [FIRST, SECOND, CloseFd(0, 3)], w')
    ensures 10 in w'.inputs && w'.inputs[10] == 1 && 0 in w'.procs && 2 in w'.procs
    ensures !Holds(w'.procs[0].fds, WriteEnd(10))
    ensures Holds(w'.procs[2].fds, WriteEnd(10)) && 1 !in w'.procs[2].lineage
  {
    var w1 := FirstFork();
    var w2 := SecondFork(w1);
    ThreeSteps(BEGINNING, FIRST, SECOND, CloseFd(0, 3));
    w' := Apply(w2, CloseFd(0, 3));
    assert w'.procs[2].fds[3] == WriteEnd(10);
  }
}
