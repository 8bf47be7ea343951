/**
 Any number of Pipe objects in one process, under any sequence of their operations.
 Effect says what each operation does to the objects and to the descriptor table; every
 operation keeps the ownership of descriptors, Owning.
 */
module PipeOwnership {
  import opened Options
  import opened Collections
  import opened Descriptors

  datatype Op =
    | Construct(i: nat, id: nat)
    | Copy(i: nat, from: nat)
    | Assign(i: nat, from: nat)
    | CloseReadEnd(i: nat)
    | CloseWriteEnd(i: nat)
    | Destroy(i: nat)

  /** The objects an operation names exist, and a constructed one does not yet. */
  predicate Legal(op: Op, pipes: map<nat, Pipe>) {
    match op
    case Construct(i, _) => i !in pipes
    case Copy(i, from) => i !in pipes && from in pipes
    case Assign(i, from) => i in pipes && from in pipes
    case CloseReadEnd(i) => i in pipes
    case CloseWriteEnd(i) => i in pipes
    case Destroy(i) => i in pipes
  }

  /** The descriptor table and the objects. */
  datatype State = State(fds: Table, pipes: map<nat, Pipe>)

  /** Of all objects at most number i changes, and it exists afterwards. */
  predicate Only(i: nat, s: State, s': State) {
    i in s'.pipes && s'.pipes == s.pipes[i := s'.pipes[i]]
  }

  /**
   What an operation does.  Copies and assignments share the pipe of from, end by end; an
   end is missing only if the table was full when its turn came.  Self-assignment loses the pipe.  An
   operation that names no object, or constructs one twice, is not a program and is skipped.
   */
  ghost predicate Effect(s: State, op: Op, s': State, limit: nat) {
    if !Legal(op, s.pipes) then s' == s
    else match op
      case Construct(i, id) =>
        || (s' == s && !PipeFits(s.fds, id, limit))
        || (&& Only(i, s, s') && Framed(s.fds, s'.fds, Owned(s'.pipes[i])) && Ends(s'.fds, s'.pipes[i], id)
            && s'.pipes[i].r != -1 && s'.pipes[i].w != -1)
      case Copy(i, from) =>
        && Only(i, s, s') && Framed(s.fds, s'.fds, Owned(s'.pipes[i]))
        && CopyOf(s.fds, s.pipes[from], s'.fds, s'.pipes[i], |s.fds| + 2 <= limit)
        && Eager(s.fds, s.pipes[from], s'.pipes[i], limit)
      case Assign(i, from) =>
        && Only(i, s, s') && Framed(s.fds - Owned(s.pipes[i]), s'.fds, Owned(s'.pipes[i]))
        && (if i == from then s'.pipes[i] == NO_PIPE
            else
              && CopyOf(s.fds, s.pipes[from], s'.fds, s'.pipes[i], |s.fds| + 2 <= limit)
              && Eager(s.fds - Owned(s.pipes[i]), s.pipes[from], s'.pipes[i], limit))
      case CloseReadEnd(i) => s' == State(s.fds - Single(s.pipes[i].r), s.pipes[i := s.pipes[i].(r := -1)])
      case CloseWriteEnd(i) => s' == State(s.fds - Single(s.pipes[i].w), s.pipes[i := s.pipes[i].(w := -1)])
      case Destroy(i) => s' == State(s.fds - Owned(s.pipes[i]), s.pipes - {i})
  }

  /** What p holds is open, and a read and a write end of one pipe. */
  predicate Sound(fds: Table, p: Pipe) {
    && AllOpen(fds, p)
    && (p.r != -1 ==> fds[p.r].ReadEnd?)
    && (p.w != -1 ==> fds[p.w].WriteEnd?)
    && (p.r != -1 && p.w != -1 ==> fds[p.r].pipe == fds[p.w].pipe)
  }

  predicate Owns(p: Pipe, k: int) {
    k != -1 && (k == p.r || k == p.w)
  }

  ghost predicate AllSound(fds: Table, pipes: map<nat, Pipe>) {
    forall i :: i in pipes ==> Sound(fds, pipes[i])
  }

  ghost predicate OneOwner(base: Table, pipes: map<nat, Pipe>) {
    && (forall i, k :: i in pipes && Owns(pipes[i], k) ==> k !in base)
    && (forall i, j, k :: i in pipes && j in pipes && Owns(pipes[i], k) && Owns(pipes[j], k) ==> i == j)
  }

  ghost predicate NoLeak(base: Table, fds: Table, pipes: map<nat, Pipe>) {
    forall k :: k in fds ==> k in base || exists i :: i in pipes && Owns(pipes[i], k)
  }

  /** Every descriptor beyond base has exactly one owner, and base is untouched. */
  ghost predicate Owning(base: Table, fds: Table, pipes: map<nat, Pipe>) {
    && -1 !in fds
    && (forall k :: k in base ==> k in fds && fds[k] == base[k])
    && AllSound(fds, pipes) && OneOwner(base, pipes) && NoLeak(base, fds, pipes)
  }

  lemma Added(base: Table, fds: Table, pipes: map<nat, Pipe>, fds': Table, i: nat, p: Pipe)
    requires Owning(base, fds, pipes) && i !in pipes
    requires Framed(fds, fds', Owned(p)) && Sound(fds', p)
    ensures Owning(base, fds', pipes[i := p])
  {
    var pipes' := pipes[i := p];
    assert forall k :: Owns(p, k) ==> k in Owned(p) && k !in fds;
    forall j | j in pipes' ensures Sound(fds', pipes'[j]) {
      if j != i { assert Sound(fds, pipes[j]); }
    }
    assert OneOwner(base, pipes') by {
      forall j, k | j in pipes && Owns(pipes[j], k) ensures !Owns(p, k) {
        assert Sound(fds, pipes[j]);
      }
    }
    forall k | k in fds' && k !in base ensures exists j :: j in pipes' && Owns(pipes'[j], k) {
      if k in fds {
        var j :| j in pipes && Owns(pipes[j], k);
        assert j in pipes' && Owns(pipes'[j], k);
      } else {
        assert Owns(pipes'[i], k);
      }
    }
  }

  lemma Removed(base: Table, fds: Table, pipes: map<nat, Pipe>, i: nat)
    requires Owning(base, fds, pipes) && i in pipes
    ensures Owning(base, fds - Owned(pipes[i]), pipes - {i})
  {
    var fds', pipes' := fds - Owned(pipes[i]), pipes - {i};
    assert Sound(fds, pipes[i]);
    assert forall k :: k in Owned(pipes[i]) <==> Owns(pipes[i], k);
    forall j | j in pipes' ensures Sound(fds', pipes'[j]) {
      assert Sound(fds, pipes[j]);
      assert Owns(pipes[j], pipes[j].r) ==> !Owns(pipes[i], pipes[j].r);
      assert Owns(pipes[j], pipes[j].w) ==> !Owns(pipes[i], pipes[j].w);
    }
    forall k | k in fds' && k !in base ensures exists j :: j in pipes' && Owns(pipes'[j], k) {
      var j :| j in pipes && Owns(pipes[j], k);
      assert j in pipes' && Owns(pipes'[j], k);
    }
  }

  lemma Reassigned(base: Table, fds: Table, pipes: map<nat, Pipe>, fds': Table, i: nat, p: Pipe)
    requires Owning(base, fds, pipes) && i in pipes
    requires Framed(fds - Owned(pipes[i]), fds', Owned(p)) && Sound(fds', p)
    ensures Owning(base, fds', pipes[i := p])
  {
    Removed(base, fds, pipes, i);
    Added(base, fds - Owned(pipes[i]), pipes - {i}, fds', i, p);
    assert (pipes - {i})[i := p] == pipes[i := p];
  }

  predicate Half(p: Pipe, q: Pipe, fd: int) {
    (fd == p.r && q == p.(r := -1)) || (fd == p.w && q == p.(w := -1))
  }

  lemma HalvedSound(base: Table, fds: Table, pipes: map<nat, Pipe>, i: nat, p: Pipe, fd: int)
    requires Owning(base, fds, pipes) && i in pipes && Half(pipes[i], p, fd)
    ensures AllSound(fds - Single(fd), pipes[i := p])
  {
    assert Sound(fds, pipes[i]);
    assert fd != -1 ==> Owns(pipes[i], fd);
    forall j | j in pipes && j != i ensures Sound(fds - Single(fd), pipes[j]) {
      assert Sound(fds, pipes[j]);
      assert fd != -1 ==> !Owns(pipes[j], fd);
    }
  }

  lemma HalvedNoLeak(base: Table, fds: Table, pipes: map<nat, Pipe>, i: nat, p: Pipe, fd: int)
    requires Owning(base, fds, pipes) && i in pipes && Half(pipes[i], p, fd)
    ensures NoLeak(base, fds - Single(fd), pipes[i := p])
  {
    var pipes' := pipes[i := p];
    forall k | k in fds - Single(fd) && k !in base ensures exists j :: j in pipes' && Owns(pipes'[j], k) {
      var j :| j in pipes && Owns(pipes[j], k);
      assert j in pipes' && Owns(pipes'[j], k);
    }
  }

  /** Half of a pipe is closed: its descriptor fd goes, the object keeps the rest. */
  lemma Halved(base: Table, fds: Table, pipes: map<nat, Pipe>, i: nat, p: Pipe, fd: int)
    requires Owning(base, fds, pipes) && i in pipes && Half(pipes[i], p, fd)
    ensures Owning(base, fds - Single(fd), pipes[i := p])
  {
    HalvedSound(base, fds, pipes, i, p, fd);
    HalvedNoLeak(base, fds, pipes, i, p, fd);
    assert forall k :: Owns(p, k) ==> Owns(pipes[i], k);
    assert fd != -1 ==> Owns(pipes[i], fd);
  }

  lemma Apart(base: Table, fds: Table, pipes: map<nat, Pipe>, i: nat, j: nat)
    requires Owning(base, fds, pipes) && i in pipes && j in pipes
    ensures i != j ==> Owned(pipes[i]) !! Owned(pipes[j])
    ensures pipes[i].r == -1 || pipes[i].r != pipes[i].w
    ensures i != j && pipes[i] == pipes[j] ==> pipes[i] == NO_PIPE
  {
    assert Sound(fds, pipes[i]);
    assert forall k :: k in Owned(pipes[i]) ==> Owns(pipes[i], k);
    assert forall k :: k in Owned(pipes[j]) ==> Owns(pipes[j], k);
    assert pipes[i].r != -1 ==> Owns(pipes[i], pipes[i].r);
    assert pipes[i].w != -1 ==> Owns(pipes[i], pipes[i].w);
  }

  /** An assigned pipe is a sound one, and a copy of the right side unless that was itself. */
  lemma AssignedFrom(fds: Table, lhs: Pipe, rhs: Pipe, fds': Table, p: Pipe, room: bool)
    requires -1 !in fds && Sound(fds, rhs) && Framed(fds - Owned(lhs), fds', Owned(p)) && (p.r == -1 || p.r != p.w)
    requires p.r != -1 ==> rhs.r in fds && fds'[p.r] == fds[rhs.r]
    requires p.w != -1 ==> rhs.w in fds && fds'[p.w] == fds[rhs.w]
    requires lhs != rhs && room ==> (p.r == -1 <==> rhs.r == -1) && (p.w == -1 <==> rhs.w == -1)
    requires lhs == rhs ==> p == NO_PIPE
    ensures Sound(fds', p) && (lhs != rhs || rhs == NO_PIPE ==> CopyOf(fds, rhs, fds', p, room))
  {
    assert p.r != -1 ==> p.r in Owned(p);
    assert p.w != -1 ==> p.w in Owned(p);
  }

  lemma NothingLeft(base: Table, fds: Table, pipes: map<nat, Pipe>)
    requires Owning(base, fds, pipes) && pipes == map[]
    ensures fds == base
  {
    assert forall k :: k in fds ==> k in base;
    assert forall k :: k in base ==> k in fds && fds[k] == base[k];
    SameMap(base, fds);
  }

  class Library {
    const proc: Process
    var pipes: map<nat, Pipe>
    ghost const base: Table

    ghost predicate Valid()
      reads this, proc
    {
      Owning(base, proc.fds, pipes)
    }

    constructor (proc: Process)
      requires -1 !in proc.fds
      ensures this.proc == proc && base == proc.fds && pipes == map[] && Valid()
    {
      this.proc, base, pipes := proc, proc.fds, map[];
    }

    ghost function Now(): State
      reads this, proc
    {
      State(proc.fds, pipes)
    }

    /** A constructor that throws leaves no object. */
    method ConstructPipe(i: nat, id: nat)
      requires Valid() && i !in pipes
      modifies this, proc
      ensures Valid() && Effect(old(Now()), Construct(i, id), Now(), proc.limit)
    {
      var p := proc.NewPipe(id);
      if p.Some? {
        Added(base, old(proc.fds), pipes, proc.fds, i, p.value);
        pipes := pipes[i := p.value];
      }
    }

    method CopyFrom(i: nat, from: nat)
      requires Valid() && i !in pipes && from in pipes
      modifies this, proc
      ensures Valid() && Effect(old(Now()), Copy(i, from), Now(), proc.limit)
    {
      assert Sound(proc.fds, pipes[from]);
      var p := proc.CopyPipe(pipes[from]);
      Added(base, old(proc.fds), pipes, proc.fds, i, p);
      pipes := pipes[i := p];
    }

    method AssignFrom(i: nat, from: nat)
      requires Valid() && i in pipes && from in pipes
      modifies this, proc
      ensures Valid() && Effect(old(Now()), Assign(i, from), Now(), proc.limit)
    {
      assert Sound(proc.fds, pipes[i]) && Sound(proc.fds, pipes[from]);
      Apart(base, proc.fds, pipes, i, from);
      var p := AssignEnds(pipes[i], pipes[from]);
      Reassigned(base, old(proc.fds), pipes, proc.fds, i, p);
      pipes := pipes[i := p];
    }

    method AssignEnds(lhs: Pipe, rhs: Pipe) returns (p: Pipe)
      requires -1 !in proc.fds && Sound(proc.fds, lhs) && Sound(proc.fds, rhs) && (lhs.r == -1 || lhs.r != lhs.w)
      requires lhs == rhs || Owned(lhs) !! Owned(rhs)
      modifies proc
      ensures Framed(old(proc.fds) - Owned(lhs), proc.fds, Owned(p)) && Sound(proc.fds, p)
      ensures lhs == rhs ==> p == NO_PIPE
      ensures lhs != rhs || rhs == NO_PIPE ==>
                && CopyOf(old(proc.fds), rhs, proc.fds, p, |old(proc.fds)| + 2 <= proc.limit)
                && Eager(old(proc.fds) - Owned(lhs), rhs, p, proc.limit)
    {
      p := proc.AssignPipe(lhs, rhs);
      AssignedFrom(old(proc.fds), lhs, rhs, proc.fds, p, |old(proc.fds)| + 2 <= proc.limit);
    }

    method CloseReadOf(i: nat)
      requires Valid() && i in pipes
      modifies this, proc
      ensures Valid() && Effect(old(Now()), CloseReadEnd(i), Now(), proc.limit)
    {
      assert Sound(proc.fds, pipes[i]);
      Halved(base, proc.fds, pipes, i, pipes[i].(r := -1), pipes[i].r);
      var p := proc.CloseRead(pipes[i]);
      pipes := pipes[i := p];
    }

    method CloseWriteOf(i: nat)
      requires Valid() && i in pipes
      modifies this, proc
      ensures Valid() && Effect(old(Now()), CloseWriteEnd(i), Now(), proc.limit)
    {
      assert Sound(proc.fds, pipes[i]);
      Halved(base, proc.fds, pipes, i, pipes[i].(w := -1), pipes[i].w);
      var p := proc.CloseWrite(pipes[i]);
      pipes := pipes[i := p];
    }

    method DestroyOf(i: nat)
      requires Valid() && i in pipes
      modifies this, proc
      ensures Valid() && Effect(old(Now()), Destroy(i), Now(), proc.limit)
    {
      assert Sound(proc.fds, pipes[i]);
      Removed(base, proc.fds, pipes, i);
      proc.DestroyPipe(pipes[i]);
      pipes := pipes - {i};
    }

    method Perform(op: Op)
      requires Valid()
      modifies this, proc
      ensures Valid() && Effect(old(Now()), op, Now(), proc.limit)
    {
      if Legal(op, pipes) {
        match op
        case Construct(i, id) => ConstructPipe(i, id);
        case Copy(i, from) => CopyFrom(i, from);
        case Assign(i, from) => AssignFrom(i, from);
        case CloseReadEnd(i) => CloseReadOf(i);
        case CloseWriteEnd(i) => CloseWriteOf(i);
        case Destroy(i) => DestroyOf(i);
      }
    }

    /**
     Every sequence of operations, with the states it passes through: each operation has
     its effect, every state has one owner for each descriptor beyond base, and whenever
     no object is left the table is base again.
     */
    method PerformAll(ops: seq<Op>) returns (ghost trace: seq<State>)
      requires Valid()
      modifies this, proc
      ensures Valid() && |trace| == |ops| + 1 && trace[0] == old(Now()) && trace[|ops|] == Now()
      ensures forall n :: 0 <= n < |ops| ==> Effect(trace[n], ops[n], trace[n + 1], proc.limit)
      ensures forall n :: 0 <= n < |trace| ==> Owning(base, trace[n].fds, trace[n].pipes)
      ensures forall n :: 0 <= n < |trace| && trace[n].pipes == map[] ==> trace[n].fds == base
    {
      trace := [Now()];
      for m := 0 to |ops|
        invariant Valid() && |trace| == m + 1 && trace[0] == old(Now()) && trace[m] == Now()
        invariant forall n :: 0 <= n < m ==> Effect(trace[n], ops[n], trace[n + 1], proc.limit)
        invariant forall n :: 0 <= n <= m ==> Owning(base, trace[n].fds, trace[n].pipes)
      {
        Perform(ops[m]);
        trace := trace + [Now()];
      }
      forall n | 0 <= n < |trace| && trace[n].pipes == map[] ensures trace[n].fds == base {
        NothingLeft(base, trace[n].fds, trace[n].pipes);
      }
    }
  }
}
