/**
 Descriptor tables and ChildProcess::Pipe.

 A table maps open descriptors to what they refer to.  New descriptors are the lowest
 free ones and the table has room for limit of them, as POSIX prescribes, so system
 calls fail for the reasons they really fail for.  Closing requires an open
 descriptor: that every close() of the library meets this is part of what is proved.
 */
module Descriptors {
  import opened Options
  import opened Collections

  datatype End = ReadEnd(pipe: nat) | WriteEnd(pipe: nat) | Other(id: nat)

  type Table = map<int, End>

  /** ChildProcess::Pipe: two descriptors, -1 for an end that is not held. */
  datatype Pipe = Pipe(r: int, w: int)

  const NO_PIPE := Pipe(-1, -1)

  function Single(fd: int): set<int> {
    if fd == -1 then {} else {fd}
  }

  function Owned(p: Pipe): set<int> {
    Single(p.r) + Single(p.w)
  }

  /** The number of ends that p holds. */
  function Count(p: Pipe): nat {
    (if p.r == -1 then 0 else 1) + (if p.w == -1 then 0 else 1)
  }

  predicate AllOpen(fds: Table, p: Pipe) {
    (p.r == -1 || p.r in fds) && (p.w == -1 || p.w in fds)
  }

  /** fds is base plus exactly the descriptors own. */
  ghost predicate Framed(base: Table, fds: Table, own: set<int>) {
    && fds.Keys == base.Keys + own
    && base.Keys !! own
    && forall k :: k in base ==> fds[k] == base[k]
  }

  /** The ends that p holds are open ends of pipe id. */
  predicate Ends(fds: Table, p: Pipe, id: nat) {
    && (p.r != -1 ==> p.r in fds && fds[p.r] == ReadEnd(id))
    && (p.w != -1 ==> p.w in fds && fds[p.w] == WriteEnd(id))
  }

  /** to holds the ends that from holds: all of them if there is room, and no others. */
  predicate CopyOf(before: Table, from: Pipe, after: Table, to: Pipe, room: bool) {
    && (to.r != -1 ==> from.r in before && to.r in after && after[to.r] == before[from.r])
    && (to.w != -1 ==> from.w in before && to.w in after && after[to.w] == before[from.w])
    && (to.r == -1 || to.r != to.w)
    && (room ==> (to.r != -1 <==> from.r in before) && (to.w != -1 <==> from.w in before))
  }

  /** A copy stays one while the table grows ... */
  lemma CopyAfter(t0: Table, t1: Table, t2: Table, own: set<int>, from: Pipe, to: Pipe, room': bool, room: bool)
    requires CopyOf(t0, from, t1, to, room') && (room ==> room') && Framed(t1, t2, own)
    ensures CopyOf(t0, from, t2, to, room)
  {
  }

  /** ... and is one as seen from a smaller table in which the source was open. */
  lemma CopyBefore(t0: Table, t1: Table, t2: Table, own: set<int>, from: Pipe, to: Pipe, room': bool, room: bool)
    requires Framed(t0, t1, own) && AllOpen(t0, from) && -1 !in t1
    requires CopyOf(t1, from, t2, to, room') && (room ==> room')
    ensures CopyOf(t0, from, t2, to, room)
  {
  }

  function Below(i: nat): (r: set<int>)
    ensures |r| == i && forall k :: k in r <==> 0 <= k < i
  {
    if i == 0 then {} else Below(i - 1) + {i - 1}
  }

  /** The lowest free descriptor not below i. */
  function LowestFrom(t: Table, i: nat): (r: nat)
    requires forall k :: 0 <= k < i ==> k in t
    ensures r !in t && forall k :: 0 <= k < r ==> k in t
    decreases |t.Keys - Below(i)|
  {
    if i !in t then i
    else
      assert t.Keys - Below(i + 1) == (t.Keys - Below(i)) - {i};
      LowestFrom(t, i + 1)
  }

  function LowestFree(t: Table): (r: nat)
    ensures r !in t && forall k :: 0 <= k < r ==> k in t
  {
    LowestFrom(t, 0)
  }

  /** Room by count: a table of n descriptors has a free one at or below n. */
  lemma LowestFreeBound(t: Table)
    ensures LowestFree(t) <= |t|
  {
    SubsetSize(Below(LowestFree(t)), t.Keys);
    assert |t| == |t.Keys|;
  }

  /** What dup(fd) answers, and the table it leaves. */
  function DupOf(t: Table, fd: int, limit: nat): int {
    if fd in t && LowestFree(t) < limit then LowestFree(t) else -1
  }

  function AfterDup(t: Table, fd: int, limit: nat): Table {
    if fd in t && LowestFree(t) < limit then t[LowestFree(t) := t[fd]] else t
  }

  /** The descriptors that pipe() takes; it fails if they are not below the limit. */
  function NewEnds(t: Table, id: nat): Pipe {
    Pipe(LowestFree(t), LowestFree(t[LowestFree(t) := ReadEnd(id)]))
  }

  predicate PipeFits(t: Table, id: nat, limit: nat) {
    NewEnds(t, id).w < limit
  }

  function NewTable(t: Table, id: nat): Table {
    t[NewEnds(t, id).r := ReadEnd(id)][NewEnds(t, id).w := WriteEnd(id)]
  }

  /** Every open descriptor is below the limit, as it is unless the limit has been lowered. */
  ghost predicate Within(t: Table, limit: nat) {
    forall k :: k in t ==> 0 <= k < limit
  }

  lemma WithinSize(t: Table, limit: nat)
    requires Within(t, limit)
    ensures |t| <= limit
  {
    SubsetSize(t.Keys, Below(limit));
    assert |t| == |t.Keys|;
  }

  /** Each end of from that is open is copied unless the table is full by then. */
  predicate Eager(before: Table, from: Pipe, to: Pipe, limit: nat) {
    && (from.r in before && |before| < limit ==> to.r != -1)
    && (from.w in before && |before| + (if to.r == -1 then 0 else 1) < limit ==> to.w != -1)
  }

  lemma SizeAfterRemoval(t: Table, own: set<int>)
    requires own <= t.Keys
    ensures |t - own| == |t| - |own|
  {
    assert (t - own).Keys == t.Keys - own;
    assert t.Keys == (t.Keys - own) + own;
  }

  lemma FramedSize(base: Table, fds: Table, own: set<int>)
    requires Framed(base, fds, own)
    ensures |fds| == |base| + |own|
  {
    assert |fds| == |fds.Keys| && |base| == |base.Keys|;
  }

  lemma PipeSize(base: Table, fds: Table, p: Pipe)
    requires Framed(base, fds, Owned(p))
    ensures |fds| <= |base| + 2
  {
    FramedSize(base, fds, Owned(p));
  }

  lemma FramedRemoval(base: Table, fds: Table, own: set<int>)
    requires Framed(base, fds, own)
    ensures fds - own == base
  {
    assert (fds - own).Keys == base.Keys;
    assert forall k :: k in base ==> (fds - own)[k] == base[k];
  }

  lemma StillOpen(base: Table, fds: Table, own: set<int>, q: Pipe)
    requires Framed(base, fds, own) && -1 !in own && -1 !in base && AllOpen(base, q)
    ensures -1 !in fds && AllOpen(fds, q)
  {
  }

  lemma FramedTwice(a: Table, x: set<int>, b: Table, y: set<int>, c: Table)
    requires Framed(a, b, x) && Framed(b, c, y)
    ensures Framed(a, c, x + y) && x !! y
  {
  }

  /** A temporary that is closed after its ends have been duplicated leaves only the duplicates. */
  lemma TemporaryClosed(base: Table, x: set<int>, mid: Table, y: set<int>, after: Table)
    requires Framed(base, mid, x) && Framed(mid, after, y)
    ensures Framed(base, after - x, y)
    ensures forall k :: k in y ==> (after - x)[k] == after[k]
  {
  }

  /** What a copy made after lhs was closed means in terms of the table before. */
  lemma Assigned(before: Table, lhs: Pipe, rhs: Pipe, mid: Table, after: Table, p: Pipe, room: bool)
    requires -1 !in before && mid == before - Owned(lhs) && Framed(mid, after, Owned(p)) && CopyOf(mid, rhs, after, p, room)
    requires Owned(rhs) <= before.Keys && (lhs == rhs || Owned(lhs) !! Owned(rhs))
    ensures lhs == rhs ==> p == NO_PIPE && after == mid
    ensures p.r != -1 ==> rhs.r in before && after[p.r] == before[rhs.r]
    ensures p.w != -1 ==> rhs.w in before && after[p.w] == before[rhs.w]
    ensures rhs.r != -1 && lhs != rhs ==> rhs.r in mid
    ensures lhs != rhs && room ==> (p.r == -1 <==> rhs.r == -1) && (p.w == -1 <==> rhs.w == -1)
  {
    assert rhs.r != -1 ==> rhs.r in Owned(rhs);
    assert rhs.w != -1 ==> rhs.w in Owned(rhs);
    if lhs == rhs {
      FramedRemoval(mid, after, {});
      assert after - {} == after;
    }
  }

  class Process {
    var fds: Table
    const limit: nat
    /** Whether the static object behind Pipe::invalid() has been built. */
    var invalidBuilt: bool

    constructor (fds: Table, limit: nat, invalidBuilt: bool)
      ensures this.fds == fds && this.limit == limit && this.invalidBuilt == invalidBuilt
    {
      this.fds, this.limit, this.invalidBuilt := fds, limit, invalidBuilt;
    }

    method Close(fd: int)
      requires fd in fds
      modifies this`fds
      ensures fds == old(fds) - {fd}
    {
      fds := fds - {fd};
    }

    /** dup(): -1 for a descriptor that is not open or when the table is full. */
    method Dup(fd: int) returns (n: int)
      modifies this`fds
      ensures n == DupOf(old(fds), fd, limit) && fds == AfterDup(old(fds), fd, limit)
    {
      if fd !in fds || LowestFree(fds) >= limit {
        return -1;
      }
      n := LowestFree(fds);
      fds := fds[n := fds[fd]];
    }

    /** dup2() onto a standard descriptor. */
    method Dup2(fd: int, target: int) returns (ok: bool)
      requires 0 <= target <= 2
      modifies this`fds
      ensures ok == (fd in old(fds))
      ensures fds == if ok then old(fds)[target := old(fds)[fd]] else old(fds)
    {
      ok := fd in fds;
      if ok {
        fds := fds[target := fds[fd]];
      }
    }

    /** Pipe::Pipe(): pipe() or an exception. */
    method NewPipe(id: nat) returns (p: Option<Pipe>)
      requires -1 !in fds
      modifies this`fds
      ensures p == if PipeFits(old(fds), id, limit) then Some(NewEnds(old(fds), id)) else None
      ensures fds == if p.Some? then NewTable(old(fds), id) else old(fds)
      ensures p.Some? ==> Framed(old(fds), fds, Owned(p.value)) && Ends(fds, p.value, id)
      ensures p.Some? ==> |fds| == |old(fds)| + 2 && 0 <= p.value.r < p.value.w && forall k :: 0 <= k <= p.value.w ==> k in fds
      ensures |old(fds)| + 2 <= limit ==> p.Some?
      ensures Within(old(fds), limit) ==> Within(fds, limit)
    {
      var r := LowestFree(fds);
      var t := fds[r := ReadEnd(id)];
      var w := LowestFree(t);
      LowestFreeBound(fds);
      LowestFreeBound(t);
      assert |t| == |fds| + 1;
      if r >= limit || w >= limit {
        return None;
      }
      fds := t[w := WriteEnd(id)];
      return Some(Pipe(r, w));
    }

    /** Pipe::Pipe(const Pipe&): dup of each end held; a failed dup leaves -1. */
    method CopyPipe(rhs: Pipe) returns (p: Pipe)
      requires -1 !in fds && (AllOpen(fds, rhs) || (rhs.r !in fds && rhs.w !in fds))
      modifies this`fds
      ensures Framed(old(fds), fds, Owned(p))
      ensures CopyOf(old(fds), rhs, fds, p, |old(fds)| + Count(rhs) <= limit) && |fds| <= |old(fds)| + Count(rhs)
      ensures p.w != -1 && rhs.r in old(fds) ==> 0 <= p.r < p.w
      ensures p.r != -1 ==> p.r == LowestFree(old(fds))
      ensures Eager(old(fds), rhs, p, limit) && (Within(old(fds), limit) ==> Within(fds, limit))
    {
      var r := DupEnd(rhs.r);
      ghost var mid := fds;
      var w := DupEnd(rhs.w);
      p := Pipe(r, w);
      FramedTwice(old(fds), Single(r), mid, Single(w), fds);
    }

    /** dup() of an end, if it is held. */
    method DupEnd(fd: int) returns (n: int)
      requires -1 !in fds
      modifies this`fds
      ensures Framed(old(fds), fds, Single(n)) && |fds| <= |old(fds)| + 1
      ensures n != -1 ==> fd in old(fds) && fds[n] == old(fds)[fd] && forall k :: 0 <= k <= n ==> k in fds
      ensures n == DupOf(old(fds), fd, limit) && fds == AfterDup(old(fds), fd, limit)
      ensures fd in old(fds) && |old(fds)| < limit ==> n != -1
      ensures |fds| == |old(fds)| + if n == -1 then 0 else 1
      ensures Within(old(fds), limit) ==> Within(fds, limit)
    {
      LowestFreeBound(fds);
      n := -1;
      if fd != -1 {
        n := Dup(fd);
      }
    }

    /** Pipe::~Pipe(). */
    method DestroyPipe(p: Pipe)
      requires Owned(p) <= fds.Keys && (p.r == -1 || p.r != p.w)
      modifies this`fds
      ensures fds == old(fds) - Owned(p)
    {
      if p.r != -1 {
        Close(p.r);
      }
      if p.w != -1 {
        Close(p.w);
      }
    }

    method CloseRead(p: Pipe) returns (p': Pipe)
      requires p.r != -1 ==> p.r in fds
      modifies this`fds
      ensures p' == p.(r := -1)
      ensures fds == old(fds) - Single(p.r)
    {
      p' := p;
      if p.r != -1 {
        Close(p.r);
        p' := p.(r := -1);
      }
    }

    method CloseWrite(p: Pipe) returns (p': Pipe)
      requires p.w != -1 ==> p.w in fds
      modifies this`fds
      ensures p' == p.(w := -1)
      ensures fds == old(fds) - Single(p.w)
    {
      p' := p;
      if p.w != -1 {
        Close(p.w);
        p' := p.(w := -1);
      }
    }

    /**
     Pipe::operator=: the old ends are closed, then the ends of rhs are duplicated.
     Assigning to a distinct object shares the pipe of rhs; assigning an object to
     itself finds both descriptors closed and loses the pipe.
     */
    method AssignPipe(lhs: Pipe, rhs: Pipe) returns (p: Pipe)
      requires -1 !in fds
      requires Owned(lhs) <= fds.Keys && (lhs.r == -1 || lhs.r != lhs.w)
      requires Owned(rhs) <= fds.Keys && (lhs == rhs || Owned(lhs) !! Owned(rhs))
      modifies this`fds
      ensures Framed(old(fds) - Owned(lhs), fds, Owned(p)) && (p.r == -1 || p.r != p.w)
      ensures lhs == rhs ==> p == NO_PIPE && fds == old(fds) - Owned(lhs)
      ensures p.r != -1 ==> rhs.r in old(fds) && fds[p.r] == old(fds)[rhs.r]
      ensures p.w != -1 ==> rhs.w in old(fds) && fds[p.w] == old(fds)[rhs.w]
      ensures p.w != -1 && rhs.r != -1 ==> 0 <= p.r < p.w
      ensures p.r != -1 ==> p.r == LowestFree(old(fds) - Owned(lhs))
      ensures Within(old(fds), limit) ==> Within(fds, limit)
      ensures lhs != rhs ==> Eager(old(fds) - Owned(lhs), rhs, p, limit)
      ensures lhs != rhs && |old(fds)| + 2 <= limit ==> (p.r == -1 <==> rhs.r == -1) && (p.w == -1 <==> rhs.w == -1)
    {
      SizeAfterRemoval(fds, Owned(lhs));
      DestroyPipe(lhs);
      ghost var mid := fds;
      p := CopyPipe(rhs);
      Assigned(old(fds), lhs, rhs, mid, fds, p, |mid| + Count(rhs) <= limit);
    }
  }
}
