/** core::posix::fork and the construction of the ChildProcess it returns. */
module Fork {
  import opened Options
  import opened Descriptors

  /** The selection made by the StandardStream flags. */
  datatype Streams = Streams(sin: bool, sout: bool, serr: bool)

  /** The kernel's names for the pipes a fork creates for stdin, stdout and stderr. */
  datatype Names = Names(inp: nat, out: nat, err: nat)

  /** The pipes kept by ChildProcess::Private. */
  datatype Handle = Handle(stdin: Pipe, stdout: Pipe, stderr: Pipe)

  function OwnedBy(h: Handle): set<int> {
    Owned(h.stdin) + Owned(h.stdout) + Owned(h.stderr)
  }

  /** done: the redirections made in the child; started: there are no others to make, so main() is called there. */
  datatype ForkResult = Threw | Forked(child: Process, handle: Handle, done: Streams, started: bool)

  function Selected(flags: Streams): nat {
    (if flags.sin then 1 else 0) + (if flags.sout then 1 else 0) + (if flags.serr then 1 else 0)
  }

  /** The parent's side: one descriptor at most per stream, of the end that faces the child. */
  ghost predicate ParentSide(before: Table, flags: Streams, names: Names, after: Table, h: Handle) {
    && Framed(before, after, OwnedBy(h))
    && Owned(h.stdin) !! Owned(h.stdout) !! Owned(h.stderr)
    && h.stdin.r == -1 && h.stdout.w == -1 && h.stderr.w == -1
    && Ends(after, h.stdin, names.inp) && Ends(after, h.stdout, names.out) && Ends(after, h.stderr, names.err)
    && (!flags.sin ==> h.stdin == NO_PIPE) && (!flags.sout ==> h.stdout == NO_PIPE) && (!flags.serr ==> h.stderr == NO_PIPE)
  }

  predicate SameAt(before: Table, child: Table, k: int) {
    (k in child <==> k in before) && (k in before ==> child[k] == before[k])
  }

  predicate NoneOpen(t: Table) {
    0 !in t && 1 !in t && 2 !in t
  }

  /**
   The child's standard descriptors when main() starts: the selected ones are its ends of
   the new pipes and the others are what they were, open or closed.  One exception: a
   parent with none of the three open gets descriptor 2 for the read end of the stdin
   pipe, and the child keeps that if stderr is not selected.
   */
  predicate ChildSide(before: Table, flags: Streams, names: Names, child: Table) {
    && (if flags.sin then 0 in child && child[0] == ReadEnd(names.inp) else SameAt(before, child, 0))
    && (if flags.sout then 1 in child && child[1] == WriteEnd(names.out) else SameAt(before, child, 1))
    && (if flags.serr then 2 in child && child[2] == WriteEnd(names.err)
        else if flags.sin && NoneOpen(before) then 2 in child && child[2] == ReadEnd(names.inp)
        else SameAt(before, child, 2))
  }

  /** Descriptor k is not one that a redirection replaces. */
  predicate Survives(done: Streams, k: int) {
    !(k == 0 && done.sin) && !(k == 1 && done.sout) && !(k == 2 && done.serr)
  }

  predicate Among(done: Streams, flags: Streams) {
    (done.sin ==> flags.sin) && (done.sout ==> flags.sout) && (done.serr ==> flags.serr)
  }

  /**
   What the child holds after the redirections done: its own ends where it was
   redirected, everywhere else what the parent held, and nothing more but its own
   ends of the new pipes.
   */
  ghost predicate ChildHolds(before: Table, done: Streams, names: Names, child: Table) {
    && (done.sin ==> 0 in child && child[0] == ReadEnd(names.inp))
    && (done.sout ==> 1 in child && child[1] == WriteEnd(names.out))
    && (done.serr ==> 2 in child && child[2] == WriteEnd(names.err))
    && (forall k :: k in before && Survives(done, k) ==> k in child && child[k] == before[k])
    && (forall k :: k in child ==>
          || (k in before && child[k] == before[k])
          || child[k] == ReadEnd(names.inp) || child[k] == WriteEnd(names.out) || child[k] == WriteEnd(names.err))
  }

  /** A stream's pipe in the course of fork(). */
  predicate Stream(fds: Table, selected: bool, p: Pipe, id: nat) {
    && Ends(fds, p, id)
    && (p.r == -1 || p.r != p.w)
    && (!selected ==> p == NO_PIPE)
    && (p.r != -1 ==> p.r >= 2) && (p.w != -1 ==> p.w >= 3)
  }

  /** The first pipe of a fork takes descriptor 2 exactly in a table without standard descriptors. */
  predicate TakesTwo(base: Table, p: Pipe) {
    p.r != -1 ==> (p.r == 2 <==> NoneOpen(base))
  }

  /**
   A selected stream in a table of n descriptors, all below the limit: with two free
   descriptors its pipe can be made, a third one holds the read end, a fourth the write end.
   */
  predicate ExactEnds(n: nat, selected: bool, p: Pipe, limit: nat) {
    selected ==> (p.r != -1 <==> n + 3 <= limit) && (p.w != -1 <==> n + 4 <= limit)
  }

  function Held(n: nat, selected: bool, limit: nat): nat {
    if !selected || n + 2 >= limit then 0 else if n + 3 == limit then 1 else 2
  }

  /** All pipes of fork() can be made: with two free descriptors, or if none has to be made. */
  predicate CanOpen(n: nat, invalidBuilt: bool, flags: Streams, limit: nat) {
    (invalidBuilt && Selected(flags) == 0) || n + 2 <= limit
  }

  /** Which ends the three local pipes of fork() hold at the system call, started from n descriptors. */
  predicate ExactStreams(n: nat, flags: Streams, inp: Pipe, out: Pipe, err: Pipe, limit: nat) {
    ExactEnds(n, flags.sin, inp, limit) && ExactOutputs(n + Held(n, flags.sin, limit), flags, out, err, limit)
  }

  predicate ExactOutputs(n: nat, flags: Streams, out: Pipe, err: Pipe, limit: nat) {
    ExactEnds(n, flags.sout, out, limit) && ExactEnds(n + Held(n, flags.sout, limit), flags.serr, err, limit)
  }

  /** The redirections made: in this order, up to the first that fails. */
  function DoneOf(flags: Streams, inp: int, out: int, err: int): Streams {
    var sin := flags.sin && inp != -1;
    var sout := flags.sout && out != -1 && sin == flags.sin;
    Streams(sin, sout, flags.serr && err != -1 && sin == flags.sin && sout == flags.sout)
  }

  /** Which redirections fork() makes and which ends the handle it returns holds, started from n descriptors. */
  predicate ExactFork(n: nat, flags: Streams, done: Streams, h: Handle, limit: nat) {
    var n1 := n + Held(n, flags.sin, limit);
    var n2 := n1 + Held(n1, flags.sout, limit);
    && (done.sin <==> flags.sin && n + 3 <= limit)
    && (done.sout <==> flags.sout && n1 + 4 <= limit && done.sin == flags.sin)
    && (done.serr <==> flags.serr && n2 + 4 <= limit && done.sin == flags.sin && done.sout == flags.sout)
    && (h.stdin.w != -1 <==> flags.sin && n + 4 <= limit)
    && (h.stdout.r != -1 <==> flags.sout && n1 + 3 <= limit)
    && (h.stderr.r != -1 <==> flags.serr && n2 + 3 <= limit)
  }

  /** The ends facing the child can be copied on top of n descriptors and themselves. */
  predicate Roomy(n: nat, inp: Pipe, out: Pipe, err: Pipe, limit: nat) {
    n + 2 * (Count(inp.(r := -1)) + Count(out.(w := -1)) + Count(err.(w := -1))) <= limit
  }

  /** By count: the ends that the parent keeps can always be copied into the handle. */
  lemma ForkByCount(n: nat, flags: Streams, inp: Pipe, out: Pipe, err: Pipe, done: Streams, h: Handle, limit: nat)
    requires ExactStreams(n, flags, inp, out, err, limit) && done == DoneOf(flags, inp.r, out.w, err.w)
    requires (!flags.sin ==> inp == NO_PIPE) && (!flags.sout ==> out == NO_PIPE) && (!flags.serr ==> err == NO_PIPE)
    requires Facing(inp, out, err, h, Roomy(n, inp, out, err, limit))
    ensures ExactFork(n, flags, done, h, limit)
  {
  }

  lemma ForkWithRoom(n: nat, flags: Streams, inp: Pipe, out: Pipe, err: Pipe, done: Streams, h: Handle, limit: nat)
    requires n + 8 <= limit && BothEnds(flags, Handle(inp, out, err)) && done == DoneOf(flags, inp.r, out.w, err.w)
    requires Facing(inp, out, err, h, Roomy(n, inp, out, err, limit))
    ensures done == flags && FacingEnds(flags, h)
  {
  }

  lemma ExactAll(n: nat, n1: nat, flags: Streams, inp: Pipe, out: Pipe, err: Pipe, limit: nat)
    requires n1 == n + Held(n, flags.sin, limit)
    requires ExactEnds(n, flags.sin, inp, limit) && ExactOutputs(n1, flags, out, err, limit)
    ensures ExactStreams(n, flags, inp, out, err, limit)
  {
  }

  lemma OpensByCount(n: nat, flags: Streams, limit: nat)
    ensures CanOpen(n, true, flags, limit) <==>
            && (flags.sin ==> n + 2 <= limit)
            && (flags.sout || flags.serr ==> n + Held(n, flags.sin, limit) + 2 <= limit)
  {
  }

  lemma EndsByCount(n: nat, tmp: Pipe, mid: Table, q: Pipe, after: Table, limit: nat)
    requires |mid| == n + 2 && tmp.r in mid && tmp.w in mid && Framed(mid, after, Owned(q)) && Within(after, limit)
    requires (q.r == -1 || q.r != q.w) && (q.w != -1 ==> q.r != -1) && Eager(mid, tmp, q, limit)
    ensures n + 2 <= limit && ExactEnds(n, true, q, limit)
  {
    FramedSize(mid, after, Owned(q));
    WithinSize(after, limit);
    if q.w != -1 { assert Owned(q) == {q.r, q.w} && |{q.r, q.w}| == 2; }
  }

  lemma StreamSize(base: Table, fds: Table, selected: bool, p: Pipe, id: nat, limit: nat)
    requires Framed(base, fds, Owned(p)) && Stream(fds, selected, p, id) && ExactEnds(|base|, selected, p, limit)
    ensures |fds| == |base| + Held(|base|, selected, limit)
  {
    FramedSize(base, fds, Owned(p));
    if p.r != -1 && p.w != -1 { assert |{p.r, p.w}| == 2 && Owned(p) == {p.r, p.w}; }
  }

  /** Pipe::invalid(): on first use a pipe is created and both ends are closed. */
  method InvalidPipe(proc: Process) returns (p: Option<Pipe>)
    requires -1 !in proc.fds
    modifies proc
    ensures proc.fds == old(proc.fds)
    ensures p.Some? ==> p.value == NO_PIPE
    ensures |proc.fds| + 2 <= proc.limit ==> p.Some?
    ensures proc.invalidBuilt == (old(proc.invalidBuilt) || p.Some?)
    ensures Within(proc.fds, proc.limit) ==> (p.Some? <==> old(proc.invalidBuilt) || |proc.fds| + 2 <= proc.limit)
  {
    if !proc.invalidBuilt {
      var q := proc.NewPipe(0);
      if q.None? {
        return None;
      }
      FramedRemoval(old(proc.fds), proc.fds, Owned(q.value));
      if Within(proc.fds, proc.limit) { WithinSize(proc.fds, proc.limit); }
      proc.DestroyPipe(q.value);
      proc.invalidBuilt := true;
    }
    return Some(NO_PIPE);
  }

  lemma NothingOwned(t: Table)
    ensures t - Owned(NO_PIPE) == t && Owned(NO_PIPE) == {}
  {
    assert (t - Owned(NO_PIPE)).Keys == t.Keys;
  }

  lemma Opened(base: Table, tmp: Pipe, mid: Table, q: Pipe, after: Table, id: nat)
    requires -1 !in base && Framed(base, mid, Owned(tmp)) && Ends(mid, tmp, id)
    requires 0 <= tmp.r < tmp.w && forall k :: 0 <= k <= tmp.w ==> k in mid
    requires Framed(mid, after, Owned(q)) && (q.r == -1 || q.r != q.w) && (q.w != -1 ==> 0 <= q.r < q.w)
    requires tmp.r == LowestFree(base) && (q.r != -1 ==> q.r == LowestFree(mid))
    requires q.r != -1 ==> after[q.r] == mid[tmp.r]
    requires q.w != -1 ==> after[q.w] == mid[tmp.w]
    ensures Framed(base, after - Owned(tmp), Owned(q)) && Stream(after - Owned(tmp), true, q, id)
    ensures Owned(tmp) <= after.Keys && TakesTwo(base, q)
  {
    TemporaryClosed(base, Owned(tmp), mid, Owned(q), after);
    ThirdDescriptor(base, tmp, mid, q);
    assert q.r != -1 ==> q.r in Owned(q);
    assert q.w != -1 ==> q.w in Owned(q);
  }

  /** The duplicate of the temporary's read end is the third descriptor to be allocated. */
  lemma ThirdDescriptor(base: Table, tmp: Pipe, mid: Table, q: Pipe)
    requires Framed(base, mid, Owned(tmp)) && tmp.r == LowestFree(base) && 0 <= tmp.r < tmp.w
    requires (forall k :: 0 <= k <= tmp.w ==> k in mid) && (q.r != -1 ==> q.r == LowestFree(mid))
    ensures TakesTwo(base, q) && (q.r != -1 ==> q.r >= 2)
  {
    if q.r != -1 {
      assert q.r !in mid && q.r > tmp.w;
      if q.r == 2 {
        assert tmp.r == 0 && tmp.w == 1;
      }
      if NoneOpen(base) {
        assert tmp.r == 0;
        assert tmp.w == 1 by { assert 1 in mid && 1 in Owned(tmp); }
        assert 2 !in mid;
      }
    }
  }

  /** The assignment of a temporary to an invalid pipe: there is nothing to close. */
  method AssignToInvalid(proc: Process, tmp: Pipe) returns (q: Pipe)
    requires -1 !in proc.fds && Owned(tmp) <= proc.fds.Keys && tmp.r != -1
    modifies proc`fds
    ensures Framed(old(proc.fds), proc.fds, Owned(q)) && (q.r == -1 || q.r != q.w) && (q.w != -1 ==> 0 <= q.r < q.w)
    ensures q.r != -1 ==> q.r == LowestFree(old(proc.fds)) && proc.fds[q.r] == old(proc.fds)[tmp.r]
    ensures q.w != -1 ==> tmp.w in old(proc.fds) && proc.fds[q.w] == old(proc.fds)[tmp.w]
    ensures Eager(old(proc.fds), tmp, q, proc.limit) && (Within(old(proc.fds), proc.limit) ==> Within(proc.fds, proc.limit))
    ensures |old(proc.fds)| + 2 <= proc.limit ==> (q.r == -1 <==> tmp.r == -1) && (q.w == -1 <==> tmp.w == -1)
  {
    NothingOwned(proc.fds);
    assert tmp.r in Owned(tmp);
    q := proc.AssignPipe(NO_PIPE, tmp);
  }

  /** `stream = Pipe()`: a temporary, two dups, and the temporary closed. */
  method AssignNewPipe(proc: Process, id: nat) returns (p: Option<Pipe>)
    requires -1 !in proc.fds
    modifies proc`fds
    ensures p.None? ==> proc.fds == old(proc.fds)
    ensures p.Some? ==> Framed(old(proc.fds), proc.fds, Owned(p.value)) && Stream(proc.fds, true, p.value, id)
    ensures p.Some? ==> TakesTwo(old(proc.fds), p.value)
    ensures |old(proc.fds)| + 4 <= proc.limit ==> p.Some? && p.value.r != -1 && p.value.w != -1
    ensures Within(old(proc.fds), proc.limit) ==>
              && Within(proc.fds, proc.limit) && (p.Some? <==> |old(proc.fds)| + 2 <= proc.limit)
              && (p.Some? ==> ExactEnds(|old(proc.fds)|, true, p.value, proc.limit))
  {
    ghost var base := proc.fds;
    var tmp := proc.NewPipe(id);
    if tmp.None? {
      return None;
    }
    ghost var mid := proc.fds;
    var q := AssignToInvalid(proc, tmp.value);
    Opened(base, tmp.value, mid, q, proc.fds, id);
    if Within(base, proc.limit) { EndsByCount(|base|, tmp.value, mid, q, proc.fds, proc.limit); }
    proc.DestroyPipe(tmp.value);
    return Some(q);
  }

  /** The local pipe of one stream, if it is selected. */
  method OpenStream(proc: Process, selected: bool, id: nat) returns (p: Option<Pipe>)
    requires -1 !in proc.fds
    modifies proc`fds
    ensures p.None? ==> proc.fds == old(proc.fds)
    ensures p.Some? ==> Framed(old(proc.fds), proc.fds, Owned(p.value)) && Stream(proc.fds, selected, p.value, id)
    ensures p.Some? ==> TakesTwo(old(proc.fds), p.value)
    ensures |proc.fds| <= |old(proc.fds)| + 2
    ensures |old(proc.fds)| + 4 <= proc.limit ==>
              p.Some? && (selected ==> p.value.r != -1 && p.value.w != -1)
    ensures Within(old(proc.fds), proc.limit) ==>
              && Within(proc.fds, proc.limit) && (p.Some? <==> !selected || |old(proc.fds)| + 2 <= proc.limit)
              && (p.Some? ==> ExactEnds(|old(proc.fds)|, selected, p.value, proc.limit))
              && (p.Some? ==> |proc.fds| == |old(proc.fds)| + Held(|old(proc.fds)|, selected, proc.limit))
  {
    if !selected {
      return Some(NO_PIPE);
    }
    p := AssignNewPipe(proc, id);
    if p.Some? {
      PipeSize(old(proc.fds), proc.fds, p.value);
      if Within(old(proc.fds), proc.limit) { StreamSize(old(proc.fds), proc.fds, selected, p.value, id, proc.limit); }
    }
  }

  /** The three pipes of fork() on top of the caller's table. */
  ghost predicate Opening(base: Table, flags: Streams, names: Names, fds: Table, inp: Pipe, out: Pipe, err: Pipe) {
    && Framed(base, fds, Owned(inp) + Owned(out) + Owned(err))
    && Owned(inp) !! Owned(out) !! Owned(err)
    && Stream(fds, flags.sin, inp, names.inp) && TakesTwo(base, inp)
    && Stream(fds, flags.sout, out, names.out)
    && Stream(fds, flags.serr, err, names.err)
  }

  /** The child's own ends stay open where they were, besides the standard descriptors they were copied to. */
  predicate OwnEnds(child: Table, done: Streams, names: Names, inp: int, out: int, err: int) {
    && (inp != -1 && Survives(done, inp) ==> inp in child && child[inp] == ReadEnd(names.inp))
    && (out != -1 ==> out in child && child[out] == WriteEnd(names.out))
    && (err != -1 ==> err in child && child[err] == WriteEnd(names.err))
  }

  const NOTHING := Streams(false, false, false)

  /** The child: close the parent's ends, then redirect the selected streams. */
  method RunChild(child: Process, flags: Streams, names: Names, inp: Pipe, out: Pipe, err: Pipe, ghost base: Table)
    returns (ok: bool, done: Streams)
    requires -1 !in base && Opening(base, flags, names, child.fds, inp, out, err)
    modifies child`fds
    ensures ok ==> ChildSide(base, flags, names, child.fds)
    ensures ChildHolds(base, done, names, child.fds) && Among(done, flags) && (ok <==> done == flags)
    ensures done == DoneOf(flags, inp.r, out.w, err.w)
    ensures OwnEnds(child.fds, done, names, inp.r, out.w, err.w)
  {
    var inp' := child.CloseWrite(inp);
    var out' := child.CloseRead(out);
    var err' := child.CloseRead(err);
    ClosedInChild(base, flags, names, old(child.fds), inp, out, err, child.fds);
    ok, done := RedirectAll(child, flags, names, inp'.r, out'.w, err'.w, base);
  }

  /** A failed dup2 throws, which skips the rest and main(). */
  method RedirectAll(child: Process, flags: Streams, names: Names, inp: int, out: int, err: int, ghost base: Table)
    returns (ok: bool, done: Streams)
    requires ChildHolds(base, NOTHING, names, child.fds)
    requires forall k :: 0 <= k <= 2 && k in child.fds ==> k in base || k == inp
    requires -1 !in child.fds && (out != -1 ==> out >= 3) && (err != -1 ==> err >= 3)
    requires inp != -1 ==> inp >= 2 && (inp == 2 <==> NoneOpen(base))
    requires !flags.sin ==> inp == -1
    requires inp != -1 ==> inp in child.fds && child.fds[inp] == ReadEnd(names.inp)
    requires out != -1 ==> out in child.fds && child.fds[out] == WriteEnd(names.out)
    requires err != -1 ==> err in child.fds && child.fds[err] == WriteEnd(names.err)
    modifies child`fds
    ensures ok ==> ChildSide(base, flags, names, child.fds)
    ensures ChildHolds(base, done, names, child.fds) && Among(done, flags) && (ok <==> done == flags)
    ensures done == DoneOf(flags, inp, out, err)
    ensures OwnEnds(child.fds, done, names, inp, out, err)
  {
    ok, done := true, NOTHING;
    if flags.sin {
      ok := child.Dup2(inp, 0);
      done := done.(sin := ok);
    }
    if ok && flags.sout {
      ok := child.Dup2(out, 1);
      done := done.(sout := ok);
    }
    if ok && flags.serr {
      ok := child.Dup2(err, 2);
      done := done.(serr := ok);
    }
  }

  lemma ClosedInChild(base: Table, flags: Streams, names: Names, before: Table, inp: Pipe, out: Pipe, err: Pipe, fds: Table)
    requires -1 !in base && Opening(base, flags, names, before, inp, out, err)
    requires fds == before - Single(inp.w) - Single(out.r) - Single(err.r)
    ensures -1 !in fds
    ensures forall k :: 0 <= k <= 2 && k in fds ==> k in base || k == inp.r
    ensures inp.r != -1 ==> inp.r in fds && fds[inp.r] == ReadEnd(names.inp)
    ensures out.w != -1 ==> out.w in fds && fds[out.w] == WriteEnd(names.out)
    ensures err.w != -1 ==> err.w in fds && fds[err.w] == WriteEnd(names.err)
    ensures ChildHolds(base, NOTHING, names, fds)
  {
  }

  /** The pipes for stdout and stderr; an exception at the second destroys the first. */
  method OpenOutputs(proc: Process, flags: Streams, names: Names) returns (ok: bool, out: Pipe, err: Pipe)
    requires -1 !in proc.fds
    modifies proc`fds
    ensures !ok ==> proc.fds == old(proc.fds)
    ensures ok ==> Framed(old(proc.fds), proc.fds, Owned(out) + Owned(err)) && Owned(out) !! Owned(err)
    ensures ok ==> Stream(proc.fds, flags.sout, out, names.out) && Stream(proc.fds, flags.serr, err, names.err)
    ensures |old(proc.fds)| + 6 <= proc.limit ==>
              && ok
              && (flags.sout ==> out.r != -1 && out.w != -1)
              && (flags.serr ==> err.r != -1 && err.w != -1)
    ensures Within(old(proc.fds), proc.limit) ==>
              && (ok <==> (flags.sout || flags.serr ==> |old(proc.fds)| + 2 <= proc.limit))
              && (ok ==> ExactOutputs(|old(proc.fds)|, flags, out, err, proc.limit))
  {
    ok, out, err := false, NO_PIPE, NO_PIPE;
    ghost var t1 := proc.fds;
    var p := OpenStream(proc, flags.sout, names.out);
    if p.None? { return; }
    out := p.value;
    ghost var t2 := proc.fds;
    p := OpenStream(proc, flags.serr, names.err);
    if p.None? {
      FramedRemoval(t1, t2, Owned(out));
      proc.DestroyPipe(out);
      return;
    }
    err := p.value;
    ok := true;
    FramedTwice(t1, Owned(out), t2, Owned(err), proc.fds);
  }

  /** The three local pipes of fork(), made out of invalid ones. */
  method OpenStreams(proc: Process, flags: Streams, names: Names) returns (ok: bool, inp: Pipe, out: Pipe, err: Pipe)
    requires -1 !in proc.fds
    modifies proc
    ensures !ok ==> proc.fds == old(proc.fds)
    ensures ok ==> Opening(old(proc.fds), flags, names, proc.fds, inp, out, err)
    ensures |old(proc.fds)| + 8 <= proc.limit ==> ok && BothEnds(flags, Handle(inp, out, err))
    ensures Within(old(proc.fds), proc.limit) ==>
              && (ok <==> CanOpen(|old(proc.fds)|, old(proc.invalidBuilt), flags, proc.limit))
              && (ok ==> ExactStreams(|old(proc.fds)|, flags, inp, out, err, proc.limit))
  {
    var invalid := InvalidPipe(proc);
    if invalid.None? {
      return false, NO_PIPE, NO_PIPE, NO_PIPE;
    }
    ghost var n;
    ok, inp, out, err, n := OpenSelected(proc, flags, names);
    if ok && Within(old(proc.fds), proc.limit) { ExactAll(|old(proc.fds)|, n, flags, inp, out, err, proc.limit); }
  }

  predicate BothEnds(flags: Streams, h: Handle) {
    && (flags.sin ==> h.stdin.r != -1 && h.stdin.w != -1)
    && (flags.sout ==> h.stdout.r != -1 && h.stdout.w != -1)
    && (flags.serr ==> h.stderr.r != -1 && h.stderr.w != -1)
  }

  /** The pipes of the selected streams; an exception destroys those already built. */
  method OpenSelected(proc: Process, flags: Streams, names: Names)
    returns (ok: bool, inp: Pipe, out: Pipe, err: Pipe, ghost n: nat)
    requires -1 !in proc.fds
    modifies proc`fds
    ensures !ok ==> proc.fds == old(proc.fds)
    ensures ok ==> Opening(old(proc.fds), flags, names, proc.fds, inp, out, err)
    ensures |old(proc.fds)| + 8 <= proc.limit ==> ok && BothEnds(flags, Handle(inp, out, err))
    ensures Within(old(proc.fds), proc.limit) ==>
              && (ok <==> CanOpen(|old(proc.fds)|, true, flags, proc.limit))
              && (ok ==> n == |old(proc.fds)| + Held(|old(proc.fds)|, flags.sin, proc.limit))
              && (ok ==> ExactEnds(|old(proc.fds)|, flags.sin, inp, proc.limit) && ExactOutputs(n, flags, out, err, proc.limit))
  {
    ok, inp, out, err, n := false, NO_PIPE, NO_PIPE, NO_PIPE, 0;
    ghost var t0 := proc.fds;
    var p := OpenStream(proc, flags.sin, names.inp);
    OpensByCount(|t0|, flags, proc.limit);
    if p.None? { return; }
    inp := p.value;
    ghost var t1 := proc.fds;
    n := |t1|;
    ok, out, err := OpenOutputs(proc, flags, names);
    if !ok {
      FramedRemoval(t0, t1, Owned(inp));
      proc.DestroyPipe(inp);
      return;
    }
    AllOpened(t0, t1, proc.fds, flags, names, inp, out, err);
  }

  lemma AllOpened(t0: Table, t1: Table, t2: Table, flags: Streams, names: Names, inp: Pipe, out: Pipe, err: Pipe)
    requires Framed(t0, t1, Owned(inp)) && Stream(t1, flags.sin, inp, names.inp) && TakesTwo(t0, inp)
    requires Framed(t1, t2, Owned(out) + Owned(err)) && Owned(out) !! Owned(err)
    requires Stream(t2, flags.sout, out, names.out) && Stream(t2, flags.serr, err, names.err)
    ensures Opening(t0, flags, names, t2, inp, out, err)
  {
    FramedTwice(t0, Owned(inp), t1, Owned(out) + Owned(err), t2);
    assert Owned(inp) + (Owned(out) + Owned(err)) == Owned(inp) + Owned(out) + Owned(err);
  }

  /** The destructors of the three local pipes. */
  method DestroyLocals(proc: Process, inp: Pipe, out: Pipe, err: Pipe)
    requires Owned(inp) + Owned(out) + Owned(err) <= proc.fds.Keys && Owned(inp) !! Owned(out) !! Owned(err)
    requires (inp.r == -1 || inp.r != inp.w) && (out.r == -1 || out.r != out.w) && (err.r == -1 || err.r != err.w)
    modifies proc`fds
    ensures proc.fds == old(proc.fds) - (Owned(inp) + Owned(out) + Owned(err))
  {
    proc.DestroyPipe(err);
    proc.DestroyPipe(out);
    proc.DestroyPipe(inp);
  }

  /**
   ChildProcess::Private: the parameters are named stderr, stdin, stdout and initialise,
   in this order, members declared in the order stdin, stdout, stderr.
   */
  method MakePrivate(proc: Process, stderr: Pipe, stdin: Pipe, stdout: Pipe, ghost room: bool) returns (h: Handle)
    requires -1 !in proc.fds && AllOpen(proc.fds, stderr) && AllOpen(proc.fds, stdin) && AllOpen(proc.fds, stdout)
    requires room ==> |proc.fds| + Count(stderr) + Count(stdin) + Count(stdout) <= proc.limit
    modifies proc`fds
    ensures Framed(old(proc.fds), proc.fds, OwnedBy(h)) && Owned(h.stdin) !! Owned(h.stdout) !! Owned(h.stderr)
    ensures CopyOf(old(proc.fds), stderr, proc.fds, h.stdin, room)
    ensures CopyOf(old(proc.fds), stdin, proc.fds, h.stdout, room)
    ensures CopyOf(old(proc.fds), stdout, proc.fds, h.stderr, room)
  {
    ghost var t0 := proc.fds;
    var first := CopyMember(proc, stderr, room);
    ghost var t1 := proc.fds;
    StillOpen(t0, t1, Owned(first), stdin);
    StillOpen(t0, t1, Owned(first), stdout);
    var second, third := CopyPair(proc, stdin, stdout, room);
    ghost var t2 := proc.fds;
    h := Handle(first, second, third);
    MembersCopied(t0, t1, t2, stderr, stdin, stdout, h, room);
  }

  lemma MembersCopied(t0: Table, t1: Table, t2: Table, a: Pipe, b: Pipe, c: Pipe, h: Handle, room: bool)
    requires -1 !in t1 && AllOpen(t0, b) && AllOpen(t0, c)
    requires Framed(t0, t1, Owned(h.stdin)) && CopyOf(t0, a, t1, h.stdin, room)
    requires Framed(t1, t2, Owned(h.stdout) + Owned(h.stderr)) && Owned(h.stdout) !! Owned(h.stderr)
    requires CopyOf(t1, b, t2, h.stdout, room) && CopyOf(t1, c, t2, h.stderr, room)
    ensures Framed(t0, t2, OwnedBy(h)) && Owned(h.stdin) !! Owned(h.stdout) !! Owned(h.stderr)
    ensures CopyOf(t0, a, t2, h.stdin, room) && CopyOf(t0, b, t2, h.stdout, room) && CopyOf(t0, c, t2, h.stderr, room)
  {
    HandleFramed(t0, t1, t2, h);
    CopyAfter(t0, t1, t2, Owned(h.stdout) + Owned(h.stderr), a, h.stdin, room, room);
    CopyBefore(t0, t1, t2, Owned(h.stdin), b, h.stdout, room, room);
    CopyBefore(t0, t1, t2, Owned(h.stdin), c, h.stderr, room, room);
  }

  lemma HandleFramed(t0: Table, t1: Table, t2: Table, h: Handle)
    requires Framed(t0, t1, Owned(h.stdin)) && Framed(t1, t2, Owned(h.stdout) + Owned(h.stderr))
    requires Owned(h.stdout) !! Owned(h.stderr)
    ensures Framed(t0, t2, OwnedBy(h)) && Owned(h.stdin) !! Owned(h.stdout) !! Owned(h.stderr)
  {
    FramedTwice(t0, Owned(h.stdin), t1, Owned(h.stdout) + Owned(h.stderr), t2);
    assert OwnedBy(h) == Owned(h.stdin) + (Owned(h.stdout) + Owned(h.stderr));
  }

  /** One member of Private, copied from a parameter. */
  method CopyMember(proc: Process, p: Pipe, ghost room: bool) returns (p': Pipe)
    requires -1 !in proc.fds && AllOpen(proc.fds, p) && (room ==> |proc.fds| + Count(p) <= proc.limit)
    modifies proc`fds
    ensures Framed(old(proc.fds), proc.fds, Owned(p')) && CopyOf(old(proc.fds), p, proc.fds, p', room)
    ensures -1 !in proc.fds && |proc.fds| <= |old(proc.fds)| + Count(p)
  {
    p' := proc.CopyPipe(p);
  }

  method CopyPair(proc: Process, p: Pipe, q: Pipe, ghost room: bool) returns (p': Pipe, q': Pipe)
    requires -1 !in proc.fds && AllOpen(proc.fds, p) && AllOpen(proc.fds, q)
    requires room ==> |proc.fds| + Count(p) + Count(q) <= proc.limit
    modifies proc`fds
    ensures Framed(old(proc.fds), proc.fds, Owned(p') + Owned(q')) && Owned(p') !! Owned(q')
    ensures CopyOf(old(proc.fds), p, proc.fds, p', room) && CopyOf(old(proc.fds), q, proc.fds, q', room)
  {
    ghost var t0 := proc.fds;
    p' := CopyMember(proc, p, room);
    ghost var t1 := proc.fds;
    q' := CopyMember(proc, q, room);
    FramedTwice(t0, Owned(p'), t1, Owned(q'), proc.fds);
    CopyAfter(t0, t1, proc.fds, Owned(q'), p, p', room, room);
    CopyBefore(t0, t1, proc.fds, Owned(p'), q, q', room, room);
  }

  /** ChildProcess(pid, stdin, stdout, stderr) hands its pipes to Private by position. */
  method MakeChildProcess(proc: Process, stdin: Pipe, stdout: Pipe, stderr: Pipe, ghost room: bool) returns (h: Handle)
    requires -1 !in proc.fds && AllOpen(proc.fds, stdin) && AllOpen(proc.fds, stdout) && AllOpen(proc.fds, stderr)
    requires room ==> |proc.fds| + Count(stdin) + Count(stdout) + Count(stderr) <= proc.limit
    modifies proc`fds
    ensures Framed(old(proc.fds), proc.fds, OwnedBy(h)) && Owned(h.stdin) !! Owned(h.stdout) !! Owned(h.stderr)
    ensures CopyOf(old(proc.fds), stdin, proc.fds, h.stdin, room)
    ensures CopyOf(old(proc.fds), stdout, proc.fds, h.stdout, room)
    ensures CopyOf(old(proc.fds), stderr, proc.fds, h.stderr, room)
  {
    h := MakePrivate(proc, stdin, stdout, stderr, room);
  }

  /** The parent after fork(): only the ends that face the child are still open. */
  ghost predicate Kept(base: Table, names: Names, fds: Table, inp: Pipe, out: Pipe, err: Pipe) {
    && Framed(base, fds, Owned(inp) + Owned(out) + Owned(err))
    && Owned(inp) !! Owned(out) !! Owned(err)
    && Ends(fds, inp, names.inp) && Ends(fds, out, names.out) && Ends(fds, err, names.err)
    && inp.r == -1 && out.w == -1 && err.w == -1
  }

  method KeepParentEnds(proc: Process, flags: Streams, names: Names, inp: Pipe, out: Pipe, err: Pipe, ghost base: Table)
    returns (inp': Pipe, out': Pipe, err': Pipe)
    requires -1 !in base && Opening(base, flags, names, proc.fds, inp, out, err)
    modifies proc`fds
    ensures Kept(base, names, proc.fds, inp', out', err')
    ensures inp' == inp.(r := -1) && out' == out.(w := -1) && err' == err.(w := -1)
  {
    inp' := proc.CloseRead(inp);
    out' := proc.CloseWrite(out);
    err' := proc.CloseWrite(err);
    ClosedInParent(base, flags, names, old(proc.fds), inp, out, err, proc.fds);
  }

  lemma ClosedInParent(base: Table, flags: Streams, names: Names, before: Table, inp: Pipe, out: Pipe, err: Pipe, fds: Table)
    requires -1 !in base && Opening(base, flags, names, before, inp, out, err)
    requires fds == before - Single(inp.r) - Single(out.w) - Single(err.w)
    ensures Kept(base, names, fds, inp.(r := -1), out.(w := -1), err.(w := -1))
  {
  }

  /** The handle is built from the local pipes, which are then destroyed. */
  method ReturnHandle(proc: Process, flags: Streams, names: Names, inp: Pipe, out: Pipe, err: Pipe,
                      ghost base: Table, ghost room: bool)
    returns (h: Handle)
    requires -1 !in base && Kept(base, names, proc.fds, inp, out, err)
    requires (!flags.sin ==> inp == NO_PIPE) && (!flags.sout ==> out == NO_PIPE) && (!flags.serr ==> err == NO_PIPE)
    requires room ==> |base| + 2 * (Count(inp) + Count(out) + Count(err)) <= proc.limit
    modifies proc`fds
    ensures ParentSide(base, flags, names, proc.fds, h) && Facing(inp, out, err, h, room)
  {
    ghost var mid := proc.fds;
    KeptSize(base, names, mid, inp, out, err);
    KeptOpen(base, names, mid, inp, out, err);
    h := MakeChildProcess(proc, inp, out, err, room);
    Returned(base, flags, names, mid, inp, out, err, proc.fds, h, room);
    DestroyLocals(proc, inp, out, err);
  }

  /** The handle has ends facing the child that the local pipes have: all of them if there is room. */
  predicate Facing(inp: Pipe, out: Pipe, err: Pipe, h: Handle, room: bool) {
    && (inp.w == -1 ==> h.stdin.w == -1) && (out.r == -1 ==> h.stdout.r == -1) && (err.r == -1 ==> h.stderr.r == -1)
    && (room ==> (inp.w != -1 ==> h.stdin.w != -1) && (out.r != -1 ==> h.stdout.r != -1) && (err.r != -1 ==> h.stderr.r != -1))
  }

  lemma KeptSize(base: Table, names: Names, fds: Table, inp: Pipe, out: Pipe, err: Pipe)
    requires -1 !in base && Kept(base, names, fds, inp, out, err)
    ensures |fds| == |base| + Count(inp) + Count(out) + Count(err)
  {
    HalfSize(inp);
    HalfSize(out);
    HalfSize(err);
    DisjointSize(Owned(inp), Owned(out), Owned(err));
    FramedSize(base, fds, Owned(inp) + Owned(out) + Owned(err));
  }

  lemma KeptOpen(base: Table, names: Names, fds: Table, inp: Pipe, out: Pipe, err: Pipe)
    requires -1 !in base && Kept(base, names, fds, inp, out, err)
    ensures -1 !in fds && AllOpen(fds, inp) && AllOpen(fds, out) && AllOpen(fds, err)
  {
  }

  lemma HalfSize(p: Pipe)
    requires p.r == -1 || p.w == -1
    ensures |Owned(p)| == Count(p) <= 1
  {
    assert Owned(p) == Single(if p.r == -1 then p.w else p.r);
  }

  lemma DisjointSize(a: set<int>, b: set<int>, c: set<int>)
    requires a !! b !! c
    ensures |a + b + c| == |a| + |b| + |c|
  {
    assert |a + b + c| == |a + b| + |c|;
  }

  lemma Returned(base: Table, flags: Streams, names: Names, mid: Table, inp: Pipe, out: Pipe, err: Pipe, after: Table, h: Handle,
                 room: bool)
    requires -1 !in base && Kept(base, names, mid, inp, out, err)
    requires (!flags.sin ==> inp == NO_PIPE) && (!flags.sout ==> out == NO_PIPE) && (!flags.serr ==> err == NO_PIPE)
    requires Framed(mid, after, OwnedBy(h)) && Owned(h.stdin) !! Owned(h.stdout) !! Owned(h.stderr)
    requires CopyOf(mid, inp, after, h.stdin, room) && CopyOf(mid, out, after, h.stdout, room) && CopyOf(mid, err, after, h.stderr, room)
    ensures ParentSide(base, flags, names, after - (Owned(inp) + Owned(out) + Owned(err)), h)
    ensures Owned(inp) + Owned(out) + Owned(err) <= after.Keys
    ensures Facing(inp, out, err, h, room)
  {
    var local := Owned(inp) + Owned(out) + Owned(err);
    TemporaryClosed(base, local, mid, OwnedBy(h), after);
    ReturnedEnds(mid, inp, after, h.stdin, names.inp, local, room);
    ReturnedEnds(mid, out, after, h.stdout, names.out, local, room);
    ReturnedEnds(mid, err, after, h.stderr, names.err, local, room);
  }

  lemma ReturnedEnds(mid: Table, p: Pipe, after: Table, q: Pipe, id: nat, local: set<int>, room: bool)
    requires -1 !in mid && Ends(mid, p, id) && CopyOf(mid, p, after, q, room)
    requires forall k :: k in Owned(q) ==> k !in local
    ensures Ends(after - local, q, id) && (p.r == -1 ==> q.r == -1) && (p.w == -1 ==> q.w == -1)
    ensures room ==> (q.r == -1 <==> p.r == -1) && (q.w == -1 <==> p.w == -1)
  {
    assert q.r != -1 ==> q.r in Owned(q);
    assert q.w != -1 ==> q.w in Owned(q);
  }

  /**
   fork().  forkWorks says whether the system call succeeds.  An exception leaves the
   caller's table as it was.  Otherwise the handle owns exactly the descriptors that
   were added, and if main() starts in the child its standard descriptors are wired
   to them.  With eight free descriptors nothing but the system call can fail; with fewer,
   in a table whose descriptors are all below the limit, it is exact by count what fails.
   */
  method ForkProcess(proc: Process, flags: Streams, names: Names, forkWorks: bool) returns (r: ForkResult)
    requires -1 !in proc.fds
    modifies proc
    ensures r.Threw? ==> proc.fds == old(proc.fds)
    ensures r.Forked? ==> fresh(r.child) && forkWorks
    ensures r.Forked? ==> ParentSide(old(proc.fds), flags, names, proc.fds, r.handle)
    ensures r.Forked? ==> ChildHolds(old(proc.fds), r.done, names, r.child.fds) && Among(r.done, flags)
    ensures r.Forked? ==> (r.started <==> r.done == flags)
    ensures r.Forked? && r.started ==> ChildSide(old(proc.fds), flags, names, r.child.fds)
    ensures |old(proc.fds)| + 8 <= proc.limit && forkWorks ==> r.Forked? && r.started && FacingEnds(flags, r.handle)
    ensures Within(old(proc.fds), proc.limit) ==>
              && (r.Forked? <==> forkWorks && CanOpen(|old(proc.fds)|, old(proc.invalidBuilt), flags, proc.limit))
              && (r.Forked? ==> ExactFork(|old(proc.fds)|, flags, r.done, r.handle, proc.limit))
  {
    ghost var base := proc.fds;
    var ok, inp, out, err := OpenStreams(proc, flags, names);
    if !ok {
      return Threw;
    }
    if !forkWorks {
      FramedRemoval(base, proc.fds, Owned(inp) + Owned(out) + Owned(err));
      DestroyLocals(proc, inp, out, err);
      return Threw;
    }
    r := AfterFork(proc, flags, names, inp, out, err, base);
    if Within(base, proc.limit) { ForkByCount(|base|, flags, inp, out, err, r.done, r.handle, proc.limit); }
    if |base| + 8 <= proc.limit { ForkWithRoom(|base|, flags, inp, out, err, r.done, r.handle, proc.limit); }
  }

  /** The handle has the end that faces the child for every selected stream. */
  predicate FacingEnds(flags: Streams, h: Handle) {
    (flags.sin ==> h.stdin.w != -1) && (flags.sout ==> h.stdout.r != -1) && (flags.serr ==> h.stderr.r != -1)
  }

  /** What happens in the child and in the parent once the system call has succeeded. */
  method AfterFork(proc: Process, flags: Streams, names: Names, inp: Pipe, out: Pipe, err: Pipe, ghost base: Table)
    returns (r: ForkResult)
    requires -1 !in base && Opening(base, flags, names, proc.fds, inp, out, err)
    modifies proc`fds
    ensures r.Forked? && fresh(r.child) && ParentSide(base, flags, names, proc.fds, r.handle)
    ensures ChildHolds(base, r.done, names, r.child.fds) && Among(r.done, flags) && (r.started <==> r.done == flags)
    ensures r.started ==> ChildSide(base, flags, names, r.child.fds)
    ensures r.done == DoneOf(flags, inp.r, out.w, err.w)
    ensures Facing(inp, out, err, r.handle, Roomy(|base|, inp, out, err, proc.limit))
  {
    var child := new Process(proc.fds, proc.limit, proc.invalidBuilt);
    var started, done := RunChild(child, flags, names, inp, out, err, base);
    var h := ParentAfterFork(proc, flags, names, inp, out, err, base, Roomy(|base|, inp, out, err, proc.limit));
    r := Forked(child, h, done, started);
  }

  /** The parent: close the child's ends, build the handle, destroy the local pipes. */
  method ParentAfterFork(proc: Process, flags: Streams, names: Names, inp: Pipe, out: Pipe, err: Pipe,
                         ghost base: Table, ghost room: bool)
    returns (h: Handle)
    requires -1 !in base && Opening(base, flags, names, proc.fds, inp, out, err)
    requires room ==> Roomy(|base|, inp, out, err, proc.limit)
    modifies proc`fds
    ensures ParentSide(base, flags, names, proc.fds, h) && Facing(inp, out, err, h, room)
  {
    var inp', out', err' := KeepParentEnds(proc, flags, names, inp, out, err, base);
    h := ReturnHandle(proc, flags, names, inp', out', err', base, room);
  }

  /** The last handle is dropped: Private is destroyed and the caller's table is what it was before the fork. */
  method DropHandle(proc: Process, h: Handle, ghost flags: Streams, ghost names: Names, ghost before: Table)
    requires ParentSide(before, flags, names, proc.fds, h)
    modifies proc`fds
    ensures proc.fds == before
  {
    FramedRemoval(before, proc.fds, OwnedBy(h));
    DestroyLocals(proc, h.stdin, h.stdout, h.stderr);
  }

  /** Conservation: with every selected end in place, a fork has added one descriptor per selected stream. */
  lemma OneDescriptorPerStream(before: Table, flags: Streams, names: Names, after: Table, h: Handle)
    requires ParentSide(before, flags, names, after, h)
    requires (flags.sin ==> h.stdin.w != -1) && (flags.sout ==> h.stdout.r != -1) && (flags.serr ==> h.stderr.r != -1)
    ensures |after| == |before| + Selected(flags)
  {
    HalfSize(h.stdin);
    HalfSize(h.stdout);
    HalfSize(h.stderr);
    DisjointSize(Owned(h.stdin), Owned(h.stdout), Owned(h.stderr));
    FramedSize(before, after, OwnedBy(h));
  }
}
