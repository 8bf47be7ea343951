/**
 core::testing::CrossProcessSync: a counting semaphore over a pipe that is shared by
 copies of an object within a process and by forks of the process.

 Next and Seen are the semaphore as its users see it: two numbers per pipe.  World is
 the code: the pipe is a byte queue and reading decodes four bytes in the machine's
 little-endian order, so that the branches for a short read and for a wrong value are
 there to be proved unreachable.  The code refines the semaphore.
 */
module CrossProcessSync {
  import opened Options

  type Byte = b: int | 0 <= b < 256
  type PipeId = nat

  /** An object is named by its process and its address there. */
  datatype Key = Key(proc: nat, addr: nat)

  const TWO_32 := 0x1_0000_0000
  /** Linux's default pipe capacity. */
  const CAPACITY := 65536

  /** The bytes of std::uint32_t{1}. */
  const WORD: seq<Byte> := [1, 0, 0, 0]

  /** The numbers of signals ever sent through a pipe and ever collected from it. */
  datatype Account = Account(signals: nat, waits: nat)

  /** An instance; None for an end lost to a failed dup.  inherited and own are histories. */
  datatype Sync = Sync(rd: Option<PipeId>, wr: Option<PipeId>, counter: nat, inherited: nat, own: nat)

  datatype Outcome = Signalled | Collected(counter: nat) | Timeout | PollFailed | BrokenPipe | EndOfFile | ShortRead | WrongValue

  /** What a caller of signal or wait on an object saw, and the pipe end it used. */
  datatype Event = Event(key: Key, pipe: Option<PipeId>, outcome: Outcome)

  /** Whether each of the two dup calls of a copy succeeds. */
  datatype Dups = Dups(rd: bool, wr: bool)

  /** works: pipe() succeeds; polls: poll() does. */
  datatype Op =
    | Construct(k: Key, p: PipeId, works: bool)
    | Copy(k: Key, from: Key, dups: Dups)
    | Assign(k: Key, from: Key, dups: Dups)
    | Destroy(k: Key)
    | Fork(parent: nat, child: nat)
    | Signal(k: Key, polls: bool)
    | Wait(k: Key, polls: bool)

  // ----- The semaphore -----

  datatype State = State(accounts: map<PipeId, Account>, objects: map<Key, Sync>)

  function AccountOf(s: State, p: PipeId): Account {
    if p in s.accounts then s.accounts[p] else Account(0, 0)
  }

  /** Nothing is collected that was not signalled, and what is outstanding fits. */
  predicate Sane(a: Account) {
    a.waits <= a.signals && 4 * (a.signals - a.waits) <= CAPACITY
  }

  /** The ends of an object are those of existing pipes; its counter is the inherited count plus own waits. */
  predicate Proper(pipes: set<PipeId>, o: Sync) {
    && (o.rd.Some? ==> o.rd.value in pipes) && (o.wr.Some? ==> o.wr.value in pipes)
    && o.counter == (o.inherited + o.own) % TWO_32
  }

  predicate WellFormed(s: State) {
    && (forall p :: p in s.accounts ==> Sane(s.accounts[p]))
    && (forall k :: k in s.objects ==> Proper(s.accounts.Keys, s.objects[k]))
  }

  predicate Intact(s: Sync) {
    s.rd.Some? && s.wr == s.rd
  }

  predicate HasReader(objects: map<Key, Sync>, p: PipeId) {
    exists k :: k in objects && objects[k].rd == Some(p)
  }

  predicate HasWriter(objects: map<Key, Sync>, p: PipeId) {
    exists k :: k in objects && objects[k].wr == Some(p)
  }

  predicate Legal(s: State, op: Op) {
    match op
    case Construct(k, p, _) => k !in s.objects && p !in s.accounts
    case Copy(k, from, _) => k !in s.objects && from in s.objects && k.proc == from.proc
    case Assign(k, from, _) => k in s.objects && from in s.objects && k.proc == from.proc
    case Destroy(k) => k in s.objects
    case Fork(_, child) => forall k :: k in s.objects ==> k.proc != child
    case Signal(k, _) => k in s.objects
    case Wait(k, _) => k in s.objects
  }

  /** The copy that copy construction and assignment take of rhs. */
  function CopyOf(rhs: Sync, dups: Dups): Sync {
    Sync(if dups.rd then rhs.rd else None, if dups.wr then rhs.wr else None, rhs.counter, rhs.counter, 0)
  }

  /** What a fork adds: a copy of every object of the parent at the same address in the child. */
  function Clones(objects: map<Key, Sync>, parent: nat, child: nat): (m: map<Key, Sync>)
    ensures forall k :: k in m <==> k.proc == child && Key(parent, k.addr) in objects
    ensures forall k :: k in m ==> m[k] == CopyOf(objects[Key(parent, k.addr)], Dups(true, true))
  {
    var keys := set k | k in objects && k.proc == parent :: Key(child, k.addr);
    assert forall k :: k in keys <==> k.proc == child && Key(parent, k.addr) in objects by {
      forall k: Key | k.proc == child && Key(parent, k.addr) in objects ensures k in keys {
        assert Key(child, Key(parent, k.addr).addr) == k;
      }
    }
    map k | k in keys :: CopyOf(objects[Key(parent, k.addr)], Dups(true, true))
  }

  /** poll() ignores a lost end and times out on it; it reports a pipe without readers at once, full or not. */
  ghost function SignalOutcome(s: State, o: Sync, polls: bool): Outcome {
    if !polls then PollFailed
    else if o.wr.None? then Timeout
    else
      var a := AccountOf(s, o.wr.value);
      if !HasReader(s.objects, o.wr.value) then BrokenPipe
      else if 4 * (a.signals - a.waits + 1) > CAPACITY then Timeout
      else Signalled
  }

  /** A signal that is there is collected; without one a pipe without writers is at its end. */
  ghost function WaitOutcome(s: State, o: Sync, polls: bool): Outcome {
    if !polls then PollFailed
    else if o.rd.None? then Timeout
    else
      var a := AccountOf(s, o.rd.value);
      if a.signals > a.waits then Collected((o.inherited + o.own + 1) % TWO_32)
      else if HasWriter(s.objects, o.rd.value) then Timeout
      else EndOfFile
  }

  function Signalling(s: State, p: PipeId): State {
    var a := AccountOf(s, p);
    s.(accounts := s.accounts[p := a.(signals := a.signals + 1)])
  }

  function Collecting(s: State, k: Key, o: Sync, p: PipeId): State {
    var a := AccountOf(s, p);
    State(s.accounts[p := a.(waits := a.waits + 1)],
          s.objects[k := o.(counter := (o.inherited + o.own + 1) % TWO_32, own := o.own + 1)])
  }

  /** What the caller of an operation sees. */
  ghost function Seen(s: State, op: Op): seq<Event> {
    if !Legal(s, op) then []
    else match op
      case Signal(k, polls) => [Event(k, s.objects[k].wr, SignalOutcome(s, s.objects[k], polls))]
      case Wait(k, polls) => [Event(k, s.objects[k].rd, WaitOutcome(s, s.objects[k], polls))]
      case _ => []
  }

  /** The semaphore's step; an operation that names no object is not a program and is skipped. */
  ghost function Next(s: State, op: Op): State {
    if !Legal(s, op) then s
    else match op
      case Construct(k, p, works) =>
        if works then State(s.accounts[p := Account(0, 0)], s.objects[k := Sync(Some(p), Some(p), 0, 0, 0)]) else s
      case Copy(k, from, dups) => s.(objects := s.objects[k := CopyOf(s.objects[from], dups)])
      case Assign(k, from, dups) =>
        s.(objects := s.objects[k := CopyOf(s.objects[from], if k == from then Dups(false, false) else dups)])
      case Destroy(k) => s.(objects := s.objects - {k})
      case Fork(parent, child) => s.(objects := s.objects + Clones(s.objects, parent, child))
      case Signal(k, polls) =>
        if SignalOutcome(s, s.objects[k], polls).Signalled? then Signalling(s, s.objects[k].wr.value) else s
      case Wait(k, polls) =>
        if WaitOutcome(s, s.objects[k], polls).Collected? then Collecting(s, k, s.objects[k], s.objects[k].rd.value) else s
  }

  ghost function After(s: State, ops: seq<Op>): State {
    if ops == [] then s else Next(After(s, ops[..|ops| - 1]), ops[|ops| - 1])
  }

  ghost function Events(s: State, ops: seq<Op>): seq<Event> {
    if ops == [] then []
    else Events(s, ops[..|ops| - 1]) + Seen(After(s, ops[..|ops| - 1]), ops[|ops| - 1])
  }

  lemma ForkWellFormed(s: State, parent: nat, child: nat)
    requires WellFormed(s)
    ensures WellFormed(s.(objects := s.objects + Clones(s.objects, parent, child)))
  {
    var clones := Clones(s.objects, parent, child);
    forall k | k in clones ensures Proper(s.accounts.Keys, clones[k]) {
      assert Proper(s.accounts.Keys, s.objects[Key(parent, k.addr)]);
    }
  }

  lemma SignallingWellFormed(s: State, p: PipeId)
    requires WellFormed(s) && p in s.accounts && 4 * (s.accounts[p].signals - s.accounts[p].waits + 1) <= CAPACITY
    ensures WellFormed(Signalling(s, p))
  {
    var s' := Signalling(s, p);
    assert s'.accounts.Keys == s.accounts.Keys;
    assert Sane(s.accounts[p]);
  }

  lemma NextWellFormed(s: State, op: Op)
    requires WellFormed(s)
    ensures WellFormed(Next(s, op))
  {
    if op.Fork? {
      ForkWellFormed(s, op.parent, op.child);
    } else if op.Copy? || op.Assign? {
      assert op.from in s.objects ==> Proper(s.accounts.Keys, s.objects[op.from]);
    } else if op.Signal? || op.Wait? {
      assert op.k in s.objects ==> Proper(s.accounts.Keys, s.objects[op.k]);
    }
  }

  lemma {:induction false} AfterWellFormed(s: State, ops: seq<Op>)
    requires WellFormed(s)
    ensures WellFormed(After(s, ops))
  {
    if ops != [] {
      AfterWellFormed(s, ops[..|ops| - 1]);
      NextWellFormed(After(s, ops[..|ops| - 1]), ops[|ops| - 1]);
    }
  }

  // ----- What callers saw -----

  predicate SignalOn(e: Event, p: PipeId) {
    e.pipe == Some(p) && e.outcome.Signalled?
  }

  predicate CollectionFrom(e: Event, p: PipeId) {
    e.pipe == Some(p) && e.outcome.Collected?
  }

  /** How many signals went through pipe p according to the events. */
  function Sent(events: seq<Event>, p: PipeId): nat {
    if events == [] then 0
    else Sent(events[..|events| - 1], p) + if SignalOn(events[|events| - 1], p) then 1 else 0
  }

  /** How many were collected from it. */
  function Taken(events: seq<Event>, p: PipeId): nat {
    if events == [] then 0
    else Taken(events[..|events| - 1], p) + if CollectionFrom(events[|events| - 1], p) then 1 else 0
  }

  /** The account of p has grown by exactly what callers saw: so many signals sent, so many collected. */
  predicate Tallies(s: State, events: seq<Event>, s': State, p: PipeId) {
    && AccountOf(s', p).signals == AccountOf(s, p).signals + Sent(events, p)
    && AccountOf(s', p).waits == AccountOf(s, p).waits + Taken(events, p)
  }

  lemma TallyAppend(events: seq<Event>, e: Event, p: PipeId)
    ensures Sent(events + [e], p) == Sent(events, p) + if SignalOn(e, p) then 1 else 0
    ensures Taken(events + [e], p) == Taken(events, p) + if CollectionFrom(e, p) then 1 else 0
  {
    assert (events + [e])[..|events|] == events;
  }

  /** The account of p grows by what one event says. */
  predicate Booked(t: State, e: Event, t': State, p: PipeId) {
    && AccountOf(t', p).signals == AccountOf(t, p).signals + (if SignalOn(e, p) then 1 else 0)
    && AccountOf(t', p).waits == AccountOf(t, p).waits + (if CollectionFrom(e, p) then 1 else 0)
  }

  lemma TallyBooked(s: State, events: seq<Event>, t: State, e: Event, t': State, p: PipeId)
    requires Tallies(s, events, t, p) && Booked(t, e, t', p)
    ensures Tallies(s, events + [e], t', p)
  {
    TallyAppend(events, e, p);
  }

  lemma SignalBooked(t: State, k: Key, polls: bool, p: PipeId)
    requires k in t.objects
    ensures Booked(t, Event(k, t.objects[k].wr, SignalOutcome(t, t.objects[k], polls)), Next(t, Signal(k, polls)), p)
  {
    var o := t.objects[k];
    var r := SignalOutcome(t, o, polls);
    assert Next(t, Signal(k, polls)) == if r.Signalled? then Signalling(t, o.wr.value) else t;
  }

  lemma WaitBooked(t: State, k: Key, polls: bool, p: PipeId)
    requires k in t.objects
    ensures Booked(t, Event(k, t.objects[k].rd, WaitOutcome(t, t.objects[k], polls)), Next(t, Wait(k, polls)), p)
  {
    var o := t.objects[k];
    var r := WaitOutcome(t, o, polls);
    assert Next(t, Wait(k, polls)) == if r.Collected? then Collecting(t, k, o, o.rd.value) else t;
  }

  lemma NextTally(s: State, events: seq<Event>, t: State, op: Op, p: PipeId)
    requires Tallies(s, events, t, p)
    ensures Tallies(s, events + Seen(t, op), Next(t, op), p)
  {
    if op.Signal? && op.k in t.objects {
      SignalBooked(t, op.k, op.polls, p);
      TallyBooked(s, events, t, Seen(t, op)[0], Next(t, op), p);
    } else if op.Wait? && op.k in t.objects {
      WaitBooked(t, op.k, op.polls, p);
      TallyBooked(s, events, t, Seen(t, op)[0], Next(t, op), p);
    } else {
      assert events + Seen(t, op) == events;
    }
  }

  lemma {:induction false} RunTally(s: State, ops: seq<Op>, p: PipeId)
    ensures Tallies(s, Events(s, ops), After(s, ops), p)
  {
    if ops != [] {
      var before := ops[..|ops| - 1];
      RunTally(s, before, p);
      NextTally(s, Events(s, before), After(s, before), ops[|ops| - 1], p);
    }
  }

  /** Conservation, in terms of outcomes only: never more collected than sent, never more outstanding than fit. */
  lemma SemaphoreLaw(ops: seq<Op>, p: PipeId)
    ensures var events := Events(State(map[], map[]), ops);
            Taken(events, p) <= Sent(events, p) && 4 * (Sent(events, p) - Taken(events, p)) <= CAPACITY
  {
    RunTally(State(map[], map[]), ops, p);
    AfterWellFormed(State(map[], map[]), ops);
  }

  /** How many signals the object k collected according to the events. */
  function CollectedBy(events: seq<Event>, k: Key): nat {
    if events == [] then 0
    else CollectedBy(events[..|events| - 1], k) + if CollectionBy(events[|events| - 1], k) then 1 else 0
  }

  predicate CollectionBy(e: Event, k: Key) {
    e.key == k && e.outcome.Collected?
  }

  lemma CollectedAppend(events: seq<Event>, e: Event, k: Key)
    ensures CollectedBy(events + [e], k) == CollectedBy(events, k) + if CollectionBy(e, k) then 1 else 0
  {
    assert (events + [e])[..|events|] == events;
  }

  /** op does not make, overwrite or destroy the object k. */
  predicate Spares(op: Op, k: Key) {
    match op
    case Fork(_, child) => k.proc != child
    case Signal(_, _) => true
    case Wait(_, _) => true
    case _ => op.k != k
  }

  ghost predicate Counts(s: State, events: seq<Event>, s': State, k: Key) {
    && k in s.objects && k in s'.objects
    && s'.objects[k].inherited == s.objects[k].inherited
    && s'.objects[k].own == s.objects[k].own + CollectedBy(events, k)
  }

  lemma NextCounts(s: State, events: seq<Event>, t: State, op: Op, k: Key)
    requires Counts(s, events, t, k) && Spares(op, k)
    ensures Counts(s, events + Seen(t, op), Next(t, op), k)
  {
    if Seen(t, op) == [] {
      assert events + Seen(t, op) == events;
    } else {
      var e := Seen(t, op)[0];
      assert Seen(t, op) == [e];
      CollectedAppend(events, e, k);
    }
  }

  lemma {:induction false} RunCounts(s: State, ops: seq<Op>, k: Key)
    requires k in s.objects && forall i :: 0 <= i < |ops| ==> Spares(ops[i], k)
    ensures Counts(s, Events(s, ops), After(s, ops), k)
  {
    if ops != [] {
      var before := ops[..|ops| - 1];
      RunCounts(s, before, k);
      NextCounts(s, Events(s, before), After(s, before), ops[|ops| - 1], k);
    }
  }

  lemma AddedTo(a: nat, b: nat)
    ensures (a % TWO_32 + b) % TWO_32 == (a + b) % TWO_32
  {
  }

  /**
   The counter of an object is the number of signals it has collected: over any run that
   leaves the object in place it grows by exactly the collections made through it, modulo
   2^32 ...
   */
  lemma CounterLaw(s: State, ops: seq<Op>, k: Key)
    requires WellFormed(s) && k in s.objects && forall i :: 0 <= i < |ops| ==> Spares(ops[i], k)
    ensures CounterGrows(s, Events(s, ops), After(s, ops), k)
  {
    RunCounts(s, ops, k);
    AfterWellFormed(s, ops);
    CounterOf(s, Events(s, ops), After(s, ops), k);
  }

  ghost predicate CounterGrows(s: State, events: seq<Event>, s': State, k: Key) {
    && k in s.objects && k in s'.objects
    && s'.objects[k].counter == (s.objects[k].counter + CollectedBy(events, k)) % TWO_32
  }

  lemma CounterOf(s: State, events: seq<Event>, s': State, k: Key)
    requires WellFormed(s) && WellFormed(s') && Counts(s, events, s', k)
    ensures CounterGrows(s, events, s', k)
  {
    var o, o' := s.objects[k], s'.objects[k];
    assert Proper(s.accounts.Keys, o) && Proper(s'.accounts.Keys, o');
    AddedTo(o.inherited + o.own, CollectedBy(events, k));
  }

  /** ... and each collection answers with the counter that it leaves, one more than before. */
  lemma AnswerIsCounter(s: State, k: Key, polls: bool, e: Event)
    requires WellFormed(s) && k in s.objects && e in Seen(s, Wait(k, polls)) && e.outcome.Collected?
    ensures k in Next(s, Wait(k, polls)).objects
    ensures e.outcome.counter == Next(s, Wait(k, polls)).objects[k].counter == (s.objects[k].counter + 1) % TWO_32
  {
    var o := s.objects[k];
    assert Proper(s.accounts.Keys, o);
    AddedTo(o.inherited + o.own, 1);
  }

  /** An object starts at zero on a pipe that holds no signal. */
  lemma FreshObject(s: State, k: Key, p: PipeId)
    requires WellFormed(s) && Legal(s, Construct(k, p, true))
    ensures var s' := Next(s, Construct(k, p, true));
            && k in s'.objects && s'.objects[k].counter == 0
            && Seen(s', Wait(k, true)) == [Event(k, Some(p), Timeout)]
            && Seen(s', Signal(k, true)) == [Event(k, Some(p), Signalled)]
            && Seen(Next(s', Signal(k, true)), Wait(k, true)) == [Event(k, Some(p), Collected(1))]
  {
    var s' := Next(s, Construct(k, p, true));
    assert s'.objects[k] == Sync(Some(p), Some(p), 0, 0, 0) && s'.accounts[p] == Account(0, 0);
    assert HasReader(s'.objects, p) && HasWriter(s'.objects, p);
    var s2 := Next(s', Signal(k, true));
    assert s2.accounts[p].signals == 1 && s2.accounts[p].waits == 0 && s2.objects == s'.objects;
  }

  /** Who is left to read and to write. */
  ghost predicate SameEnds(objects: map<Key, Sync>, objects': map<Key, Sync>) {
    forall p :: (HasReader(objects', p) <==> HasReader(objects, p)) && (HasWriter(objects', p) <==> HasWriter(objects, p))
  }

  lemma CopyEnds(s: State, k: Key, from: Key)
    requires Legal(s, Copy(k, from, Dups(true, true)))
    ensures SameEnds(s.objects, Next(s, Copy(k, from, Dups(true, true))).objects)
  {
    var objects' := Next(s, Copy(k, from, Dups(true, true))).objects;
    assert objects' == s.objects[k := CopyOf(s.objects[from], Dups(true, true))];
    forall p: PipeId
      ensures HasReader(objects', p) <==> HasReader(s.objects, p)
      ensures HasWriter(objects', p) <==> HasWriter(s.objects, p)
    {
      if j :| j in s.objects && s.objects[j].rd == Some(p) { assert objects'[j].rd == Some(p); }
      if j :| j in s.objects && s.objects[j].wr == Some(p) { assert objects'[j].wr == Some(p); }
      if j :| j in objects' && objects'[j].rd == Some(p) { assert s.objects[if j == k then from else j].rd == Some(p); }
      if j :| j in objects' && objects'[j].wr == Some(p) { assert s.objects[if j == k then from else j].wr == Some(p); }
    }
  }

  lemma ForkEnds(s: State, parent: nat, child: nat)
    requires Legal(s, Fork(parent, child))
    ensures SameEnds(s.objects, Next(s, Fork(parent, child)).objects)
  {
    var clones := Clones(s.objects, parent, child);
    var objects' := s.objects + clones;
    forall p: PipeId
      ensures HasReader(objects', p) <==> HasReader(s.objects, p)
      ensures HasWriter(objects', p) <==> HasWriter(s.objects, p)
    {
      if j :| j in s.objects && s.objects[j].rd == Some(p) { assert j !in clones && objects'[j].rd == Some(p); }
      if j :| j in s.objects && s.objects[j].wr == Some(p) { assert j !in clones && objects'[j].wr == Some(p); }
      if j :| j in objects' && objects'[j].rd == Some(p) {
        assert s.objects[if j in clones then Key(parent, j.addr) else j].rd == Some(p);
      }
      if j :| j in objects' && objects'[j].wr == Some(p) {
        assert s.objects[if j in clones then Key(parent, j.addr) else j].wr == Some(p);
      }
    }
  }

  /** Two objects in two states that no call can tell apart. */
  ghost predicate Alike(s: State, k: Key, s': State, k': Key) {
    && k in s.objects && k' in s'.objects
    && s'.objects[k'].rd == s.objects[k].rd && s'.objects[k'].wr == s.objects[k].wr
    && SignalOutcome(s', s'.objects[k'], true) == SignalOutcome(s, s.objects[k], true)
    && WaitOutcome(s', s'.objects[k'], true) == WaitOutcome(s, s.objects[k], true)
  }

  lemma SameAnswers(s: State, k: Key, s': State, k': Key)
    requires WellFormed(s) && k in s.objects && k' in s'.objects && s'.accounts == s.accounts && SameEnds(s.objects, s'.objects)
    requires s'.objects[k'] == s.objects[k] || s'.objects[k'] == CopyOf(s.objects[k], Dups(true, true))
    ensures Alike(s, k, s', k')
  {
    var o := s.objects[k];
    assert Proper(s.accounts.Keys, o);
    AddedTo(o.inherited + o.own, 1);
  }

  /** A copy signals, collects and counts as its original would, and changes nothing for the others. */
  lemma CopyAnswers(s: State, k: Key, from: Key)
    requires WellFormed(s) && Legal(s, Copy(k, from, Dups(true, true)))
    ensures var s' := Next(s, Copy(k, from, Dups(true, true)));
            Alike(s, from, s', k) && forall j :: j in s.objects ==> Alike(s, j, s', j)
  {
    var s' := Next(s, Copy(k, from, Dups(true, true)));
    CopyEnds(s, k, from);
    SameAnswers(s, from, s', k);
    forall j | j in s.objects ensures Alike(s, j, s', j) { SameAnswers(s, j, s', j); }
  }

  /** A copy uses the ends whose dup succeeded; on one whose dup failed it can only time out. */
  lemma PartialCopy(s: State, k: Key, from: Key, dups: Dups)
    requires Legal(s, Copy(k, from, dups))
    ensures var s' := Next(s, Copy(k, from, dups));
            && Seen(s', Wait(k, true))[0].pipe == (if dups.rd then s.objects[from].rd else None)
            && Seen(s', Signal(k, true))[0].pipe == (if dups.wr then s.objects[from].wr else None)
            && (!dups.rd ==> Seen(s', Wait(k, true)) == [Event(k, None, Timeout)])
            && (!dups.wr ==> Seen(s', Signal(k, true)) == [Event(k, None, Timeout)])
  {
    assert Next(s, Copy(k, from, dups)).objects[k] == CopyOf(s.objects[from], dups);
  }

  /** So do the objects of a forked child, and those of its parent stay as they are. */
  lemma ForkAnswers(s: State, parent: nat, child: nat, addr: nat)
    requires WellFormed(s) && Legal(s, Fork(parent, child)) && Key(parent, addr) in s.objects
    ensures var s' := Next(s, Fork(parent, child));
            Alike(s, Key(parent, addr), s', Key(child, addr)) && forall j :: j in s.objects ==> Alike(s, j, s', j)
  {
    var s' := Next(s, Fork(parent, child));
    var clones := Clones(s.objects, parent, child);
    ForkEnds(s, parent, child);
    assert Key(child, addr) in clones && s'.objects[Key(child, addr)] == clones[Key(child, addr)];
    SameAnswers(s, Key(parent, addr), s', Key(child, addr));
    forall j | j in s.objects ensures Alike(s, j, s', j) {
      assert j !in clones;
      SameAnswers(s, j, s', j);
    }
  }

  /**
   Assignment to a distinct object gives it the ends of the right side, and it collects and
   counts as that would; if the right side holds both ends of its pipe, no call can tell the
   two apart.  Assignment to itself leaves an object that can only time out.
   */
  lemma AssignAnswers(s: State, k: Key, from: Key)
    requires WellFormed(s) && Legal(s, Assign(k, from, Dups(true, true)))
    ensures var s' := Next(s, Assign(k, from, Dups(true, true)));
            if k == from then
              Seen(s', Wait(k, true)) == [Event(k, None, Timeout)] && Seen(s', Signal(k, true)) == [Event(k, None, Timeout)]
            else
              var r, r' := WaitOutcome(s, s.objects[from], true), WaitOutcome(s', s'.objects[k], true);
              && s'.objects[k].rd == s.objects[from].rd && s'.objects[k].wr == s.objects[from].wr
              && (r.Collected? || r'.Collected? ==> r' == r)
              && (Intact(s.objects[from]) ==> Alike(s, from, s', k))
  {
    var s' := Next(s, Assign(k, from, Dups(true, true)));
    var o := s.objects[from];
    assert Proper(s.accounts.Keys, o);
    AddedTo(o.inherited + o.own, 1);
    if k != from && Intact(o) {
      var p := o.rd.value;
      assert s'.objects[k] == CopyOf(o, Dups(true, true));
      assert s.objects[from].rd == Some(p) && s.objects[from].wr == Some(p);
      assert s'.objects[k].rd == Some(p) && s'.objects[k].wr == Some(p);
      assert HasReader(s.objects, p) && HasWriter(s.objects, p) && HasReader(s'.objects, p) && HasWriter(s'.objects, p);
    }
  }

  /** When the last object with a write end is destroyed, whoever waits for an empty pipe meets its end. */
  lemma LastWriter(s: State, k: Key, j: Key, p: PipeId)
    requires k in s.objects && j in s.objects && k != j && s.objects[j].rd == Some(p)
    requires AccountOf(s, p).signals == AccountOf(s, p).waits
    ensures Seen(Next(s, Destroy(k)), Wait(j, true)) == [Event(j, Some(p), EndOfFile)] <==>
            forall i :: i in s.objects && i != k ==> s.objects[i].wr != Some(p)
  {
    var s' := Next(s, Destroy(k));
    assert s'.objects == s.objects - {k};
    if i :| i in s.objects && i != k && s.objects[i].wr == Some(p) {
      assert s'.objects[i].wr == Some(p);
    }
  }

  /** A pipe takes 16384 signals and no more. */
  lemma FullPipe(s: State, k: Key)
    requires k in s.objects && s.objects[k].wr.Some? && HasReader(s.objects, s.objects[k].wr.value)
    ensures var a := AccountOf(s, s.objects[k].wr.value);
            SignalOutcome(s, s.objects[k], true) == if a.signals - a.waits < 16384 then Signalled else Timeout
  {
  }

  /** Every value read is whole and right, in any run. */
  lemma {:induction false} NoMisread(s: State, ops: seq<Op>)
    ensures forall e :: e in Events(s, ops) ==> !e.outcome.ShortRead? && !e.outcome.WrongValue?
  {
    if ops != [] {
      NoMisread(s, ops[..|ops| - 1]);
    }
  }

  predicate AllIntact(objects: map<Key, Sync>) {
    forall k :: k in objects ==> Intact(objects[k])
  }

  /** No dup fails and no object is assigned to itself. */
  predicate Faithful(op: Op) {
    match op
    case Copy(_, _, dups) => dups == Dups(true, true)
    case Assign(k, from, dups) => k != from && dups == Dups(true, true)
    case _ => true
  }

  predicate NoPipeError(e: Event) {
    !e.outcome.BrokenPipe? && !e.outcome.EndOfFile? && !e.outcome.ShortRead? && !e.outcome.WrongValue?
  }

  lemma FaithfulStep(s: State, op: Op)
    requires Faithful(op) && AllIntact(s.objects)
    ensures AllIntact(Next(s, op).objects)
    ensures forall e :: e in Seen(s, op) ==> NoPipeError(e)
  {
    if (op.Signal? || op.Wait?) && op.k in s.objects {
      assert Intact(s.objects[op.k]);
    }
  }

  /** Unless a dup fails or an object is assigned to itself, no call meets end-of-file or a broken pipe. */
  lemma {:induction false} FaithfulRun(s: State, ops: seq<Op>)
    requires AllIntact(s.objects) && forall i :: 0 <= i < |ops| ==> Faithful(ops[i])
    ensures AllIntact(After(s, ops).objects)
    ensures forall e :: e in Events(s, ops) ==> NoPipeError(e)
  {
    if ops != [] {
      FaithfulRun(s, ops[..|ops| - 1]);
      FaithfulStep(After(s, ops[..|ops| - 1]), ops[|ops| - 1]);
    }
  }

  // ----- Bytes -----

  function Words(n: nat): seq<Byte> {
    if n == 0 then [] else WORD + Words(n - 1)
  }

  lemma {:induction false} WordsLength(n: nat)
    ensures |Words(n)| == 4 * n
  {
    if n > 0 { WordsLength(n - 1); }
  }

  lemma {:induction false} WordsAppend(n: nat)
    ensures Words(n) + WORD == Words(n + 1)
  {
    if n == 0 {
      assert Words(1) == WORD + Words(0);
    } else {
      WordsAppend(n - 1);
      assert (WORD + Words(n - 1)) + WORD == WORD + (Words(n - 1) + WORD);
    }
  }

  function Decode(b: seq<Byte>): nat
    requires |b| == 4
  {
    (b[0] as int) + 256 * (b[1] as int) + 65536 * (b[2] as int) + 16777216 * (b[3] as int)
  }

  /** A pipe that is not empty starts with a whole word of value 1. */
  lemma FrontWord(n: nat)
    requires n > 0
    ensures |Words(n)| >= 4 && Words(n)[..4] == WORD && Decode(Words(n)[..4]) == 1
    ensures Words(n)[4..] == Words(n - 1)
  {
    assert Words(n) == WORD + Words(n - 1);
  }

  // ----- The code -----

  class World {
    /** The bytes in every pipe. */
    var queues: map<PipeId, seq<Byte>>
    var objects: map<Key, Sync>
    ghost var accounts: map<PipeId, Account>

    ghost function Now(): State
      reads this
    {
      State(accounts, objects)
    }

    /** A pipe holds one whole word for every signal that has not been collected. */
    ghost predicate Valid()
      reads this
    {
      && WellFormed(Now())
      && queues.Keys == accounts.Keys
      && forall p :: p in accounts ==> queues[p] == Words(accounts[p].signals - accounts[p].waits)
    }

    constructor ()
      ensures Valid() && Now() == State(map[], map[])
    {
      queues, objects, accounts := map[], map[], map[];
    }

    /** CrossProcessSync(): a new pipe, or an exception when pipe() fails. */
    method MakeSync(k: Key, p: PipeId, works: bool)
      requires Valid() && Legal(Now(), Construct(k, p, works))
      modifies this
      ensures Valid() && Now() == Next(old(Now()), Construct(k, p, works))
    {
      if works {
        queues, accounts := queues[p := []], accounts[p := Account(0, 0)];
        objects := objects[k := Sync(Some(p), Some(p), 0, 0, 0)];
      }
    }

    method CopySync(k: Key, from: Key, dups: Dups)
      requires Valid() && Legal(Now(), Copy(k, from, dups))
      modifies this`objects
      ensures Valid() && Now() == Next(old(Now()), Copy(k, from, dups))
    {
      NextWellFormed(Now(), Copy(k, from, dups));
      objects := objects[k := CopyOf(objects[from], dups)];
    }

    /** operator=: both ends are closed before those of rhs are duplicated, so self-assignment loses the pipe. */
    method AssignSync(k: Key, from: Key, dups: Dups)
      requires Valid() && Legal(Now(), Assign(k, from, dups))
      modifies this`objects
      ensures Valid() && Now() == Next(old(Now()), Assign(k, from, dups))
    {
      NextWellFormed(Now(), Assign(k, from, dups));
      objects := objects[k := objects[k].(rd := None, wr := None)];
      objects := objects[k := CopyOf(objects[from], dups)];
      assert objects == old(objects)[k := objects[k]];
    }

    method DestroySync(k: Key)
      requires Valid() && Legal(Now(), Destroy(k))
      modifies this`objects
      ensures Valid() && Now() == Next(old(Now()), Destroy(k))
    {
      objects := objects - {k};
    }

    /** A fork: the child gets a copy of every object of its parent, sharing the pipes. */
    method ForkAll(parent: nat, child: nat)
      requires Valid() && Legal(Now(), Fork(parent, child))
      modifies this`objects
      ensures Valid() && Now() == Next(old(Now()), Fork(parent, child))
    {
      NextWellFormed(Now(), Fork(parent, child));
      objects := objects + Clones(objects, parent, child);
    }

    /** try_signal_ready_for(). */
    method TrySignal(k: Key, polls: bool) returns (r: Outcome)
      requires Valid() && k in objects
      modifies this`queues, this`accounts
      ensures Valid() && Now() == Next(old(Now()), Signal(k, polls)) && Seen(old(Now()), Signal(k, polls)) == [Event(k, objects[k].wr, r)]
    {
      if !polls {
        return PollFailed;
      }
      if objects[k].wr.None? {
        return Timeout;
      }
      var p := objects[k].wr.value;
      if forall j | j in objects :: objects[j].rd != Some(p) {
        return BrokenPipe;
      }
      assert Proper(accounts.Keys, objects[k]) && Sane(accounts[p]);
      WordsLength(accounts[p].signals - accounts[p].waits);
      if |queues[p]| + 4 > CAPACITY {
        return Timeout;
      }
      SendWord(p);
      return Signalled;
    }

    /** The write() after poll() has found the pipe writable. */
    method SendWord(p: PipeId)
      requires Valid() && p in accounts && 4 * (accounts[p].signals - accounts[p].waits + 1) <= CAPACITY
      modifies this`queues, this`accounts
      ensures Valid() && Now() == Signalling(old(Now()), p)
    {
      assert Sane(accounts[p]);
      SignallingWellFormed(Now(), p);
      WriteWord(p, accounts[p].signals - accounts[p].waits);
    }

    method WriteWord(p: PipeId, ghost n: nat)
      requires p in queues && p in accounts && queues[p] == Words(n)
      modifies this`queues, this`accounts
      ensures Now() == Signalling(old(Now()), p) && queues == old(queues)[p := Words(n + 1)]
    {
      WordsAppend(n);
      queues := queues[p := queues[p] + WORD];
      accounts := accounts[p := accounts[p].(signals := accounts[p].signals + 1)];
    }

    /** wait_for_signal_ready_for(): the value read is always 1 and never cut short. */
    method WaitForSignal(k: Key, polls: bool) returns (r: Outcome)
      requires Valid() && k in objects
      modifies this
      ensures Valid() && Now() == Next(old(Now()), Wait(k, polls)) && Seen(old(Now()), Wait(k, polls)) == [Event(k, old(objects)[k].rd, r)]
    {
      if !polls {
        return PollFailed;
      }
      if objects[k].rd.None? {
        return Timeout;
      }
      var p := objects[k].rd.value;
      assert Proper(accounts.Keys, objects[k]) && Sane(accounts[p]);
      ghost var n := accounts[p].signals - accounts[p].waits;
      WordsLength(n);
      if queues[p] == [] {
        if forall j | j in objects :: objects[j].wr != Some(p) {
          return EndOfFile;
        }
        return Timeout;
      }
      NextWellFormed(Now(), Wait(k, polls));
      FrontWord(n);
      r := ReadWord(k, p, n);
    }

    /** The read() after poll() has found the pipe readable, with the checks of what it returns. */
    method ReadWord(k: Key, p: PipeId, ghost n: nat) returns (r: Outcome)
      requires k in objects && p in queues && p in accounts && n > 0 && queues[p] == Words(n)
      requires objects[k].counter == (objects[k].inherited + objects[k].own) % TWO_32
      modifies this
      ensures r == Collected((old(objects)[k].inherited + old(objects)[k].own + 1) % TWO_32)
      ensures Now() == Collecting(old(Now()), k, old(objects)[k], p) && queues == old(queues)[p := Words(n - 1)]
    {
      var read := if |queues[p]| < 4 then queues[p] else queues[p][..4];
      FrontWord(n);
      if |read| != 4 {
        return ShortRead;
      }
      if Decode(read) != 1 {
        return WrongValue;
      }
      var o := objects[k];
      AddedTo(o.inherited + o.own, 1);
      queues := queues[p := queues[p][4..]];
      accounts := accounts[p := accounts[p].(waits := accounts[p].waits + 1)];
      objects := objects[k := o.(counter := (o.counter + Decode(read)) % TWO_32, own := o.own + 1)];
      return Collected(objects[k].counter);
    }

    method IsLegal(op: Op) returns (b: bool)
      requires Valid()
      ensures b == Legal(Now(), op)
    {
      match op
      case Construct(k, p, _) => return k !in objects && p !in queues;
      case Copy(k, from, _) => return k !in objects && from in objects && k.proc == from.proc;
      case Assign(k, from, _) => return k in objects && from in objects && k.proc == from.proc;
      case Destroy(k) => return k in objects;
      case Fork(_, child) => return forall k | k in objects :: k.proc != child;
      case Signal(k, _) => return k in objects;
      case Wait(k, _) => return k in objects;
    }

    method Perform(op: Op) returns (events: seq<Event>)
      requires Valid()
      modifies this
      ensures Valid() && Now() == Next(old(Now()), op) && events == Seen(old(Now()), op)
    {
      events := [];
      var legal := IsLegal(op);
      if legal {
        match op
        case Construct(k, p, works) => MakeSync(k, p, works);
        case Copy(k, from, dups) => CopySync(k, from, dups);
        case Assign(k, from, dups) => AssignSync(k, from, dups);
        case Destroy(k) => DestroySync(k);
        case Fork(parent, child) => ForkAll(parent, child);
        case Signal(k, polls) =>
          var r := TrySignal(k, polls);
          events := [Event(k, objects[k].wr, r)];
        case Wait(k, polls) =>
          var end := objects[k].rd;
          var r := WaitForSignal(k, polls);
          events := [Event(k, end, r)];
      }
    }

    /**
     Every run of constructions, copies, assignments, forks, signals and waits behaves as
     the semaphore does, event by event; the account of every pipe is what callers saw;
     and no call reads a wrong or partial value.
     */
    method PerformAll(ops: seq<Op>) returns (events: seq<Event>)
      requires Valid()
      modifies this
      ensures Valid() && Now() == After(old(Now()), ops) && events == Events(old(Now()), ops)
      ensures forall p :: Tallies(old(Now()), events, Now(), p)
      ensures forall e :: e in events ==> !e.outcome.ShortRead? && !e.outcome.WrongValue?
      ensures (forall i :: 0 <= i < |ops| ==> Faithful(ops[i])) && old(AllIntact(objects)) ==>
                AllIntact(objects) && forall e :: e in events ==> NoPipeError(e)
    {
      events := [];
      for n := 0 to |ops|
        invariant Valid() && Now() == After(old(Now()), ops[..n]) && events == Events(old(Now()), ops[..n])
      {
        var more := Perform(ops[n]);
        assert ops[..n + 1][..n] == ops[..n];
        events := events + more;
      }
      assert ops[..|ops|] == ops;
      forall p ensures Tallies(old(Now()), events, Now(), p) {
        RunTally(old(Now()), ops, p);
      }
      NoMisread(old(Now()), ops);
      if (forall i :: 0 <= i < |ops| ==> Faithful(ops[i])) && old(AllIntact(objects)) {
        FaithfulRun(old(Now()), ops);
      }
    }
  }
}
