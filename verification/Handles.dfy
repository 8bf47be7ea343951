/**
 ChildProcess handles and the SIGKILL sent by ~Private.

 Every process has its own memory of handle variables and reference-counted Private
 objects; a fork copies the whole memory.  The observer's map is part of the
 variables: its entry for a pid is one more handle.
 */
module Handles {
  type Pid = int
  type ObjId = nat

  datatype Slot = Local(id: nat) | ObserverEntry(pid: Pid)

  /** ChildProcess::Private with the reference count of the shared_ptr that owns it. */
  datatype Private = Private(originalParent: Pid, originalChild: Pid, refs: nat)

  datatype Memory = Memory(vars: map<Slot, ObjId>, heap: map<ObjId, Private>)

  datatype Kill = Kill(sender: Pid, target: Pid)

  /** born: for every Private object, the process that created it and its child. */
  datatype World = World(mems: map<Pid, Memory>, kills: multiset<Kill>, born: map<ObjId, Kill>, pidsUsed: set<Pid>)

  datatype Step =
    | LibraryFork(q: Pid, slot: Slot, obj: ObjId, child: Pid)
    | PlainFork(q: Pid, child: Pid)
    | Copy(q: Pid, from: Slot, to: Slot)
    | Assign(q: Pid, from: Slot, to: Slot)
    | Drop(q: Pid, slot: Slot)
    | Exit(q: Pid)

  predicate Enabled(w: World, step: Step) {
    step.q in w.mems &&
    var m := w.mems[step.q];
    match step
    case LibraryFork(_, slot, obj, child) => slot !in m.vars && obj !in w.born && child !in w.pidsUsed && child > 0
    case PlainFork(_, child) => child !in w.pidsUsed && child > 0
    case Copy(_, from, to) => from in m.vars && to !in m.vars
    case Assign(_, from, to) => from in m.vars && to in m.vars
    case Drop(_, slot) => slot in m.vars
    case Exit(_) => true
  }

  function Retain(m: Memory, obj: ObjId): Memory {
    if obj in m.heap then m.(heap := m.heap[obj := m.heap[obj].(refs := m.heap[obj].refs + 1)]) else m
  }

  /** Drop one reference; the last one destroys the object. */
  function Release(m: Memory, obj: ObjId): Memory {
    if obj !in m.heap then m
    else if m.heap[obj].refs <= 1 then m.(heap := m.heap - {obj})
    else m.(heap := m.heap[obj := m.heap[obj].(refs := m.heap[obj].refs - 1)])
  }

  /** ~Private: SIGKILL, but only in the process that created the object. */
  function KillsOnRelease(q: Pid, m: Memory, obj: ObjId): multiset<Kill> {
    if obj in m.heap && m.heap[obj].refs <= 1 && m.heap[obj].originalParent == q
    then multiset{Kill(q, m.heap[obj].originalChild)}
    else multiset{}
  }

  function Apply(w: World, step: Step): World
    requires Enabled(w, step)
  {
    var q, m := step.q, w.mems[step.q];
    match step
    case LibraryFork(_, slot, obj, child) =>
      var m' := Memory(m.vars[slot := obj], m.heap[obj := Private(q, child, 1)]);
      World(w.mems[child := m][q := m'], w.kills, w.born[obj := Kill(q, child)], w.pidsUsed + {child})
    case PlainFork(_, child) =>
      w.(mems := w.mems[child := m], pidsUsed := w.pidsUsed + {child})
    case Copy(_, from, to) =>
      w.(mems := w.mems[q := Retain(m, m.vars[from]).(vars := m.vars[to := m.vars[from]])])
    case Assign(_, from, to) =>
      var kept, gone := Retain(m, m.vars[from]), m.vars[to];
      w.(mems := w.mems[q := Release(kept, gone).(vars := m.vars[to := m.vars[from]])],
      kills := w.kills + KillsOnRelease(q, kept, gone))
    case Drop(_, slot) =>
      w.(mems := w.mems[q := Release(m, m.vars[slot]).(vars := m.vars - {slot})],
      kills := w.kills + KillsOnRelease(q, m, m.vars[slot]))
    case Exit(_) =>
      w.(mems := w.mems - {q})
  }

  ghost predicate Run(w: World, steps: seq<Step>, w': World)
    decreases |steps|
  {
    if steps == [] then w == w'
    else Enabled(w, steps[0]) && Run(Apply(w, steps[0]), steps[1..], w')
  }

  /** One process that has no handle yet. */
  ghost predicate Init(w: World) {
    exists q :: w == World(map[q := Memory(map[], map[])], multiset{}, map[], {q})
  }

  ghost function Pointers(m: Memory, obj: ObjId): set<Slot> {
    SlotsOf(m.vars, obj)
  }

  ghost function SlotsOf(vars: map<Slot, ObjId>, obj: ObjId): set<Slot> {
    set v | v in vars && vars[v] == obj
  }

  lemma SlotsAfterSet(vars: map<Slot, ObjId>, v: Slot, x: ObjId, o: ObjId)
    ensures SlotsOf(vars[v := x], o) == SlotsOf(vars, o) - {v} + (if x == o then {v} else {})
  {
  }

  lemma SlotsAfterDrop(vars: map<Slot, ObjId>, v: Slot, o: ObjId)
    ensures SlotsOf(vars - {v}, o) == SlotsOf(vars, o) - {v}
  {
  }

  /** Reference counts are right, and nothing is kept without a reference. */
  ghost predicate Counted(m: Memory) {
    && (forall v :: v in m.vars ==> m.vars[v] in m.heap)
    && (forall o :: o in m.heap ==> m.heap[o].refs == |Pointers(m, o)| > 0)
  }

  ghost predicate Known(born: map<ObjId, Kill>, m: Memory) {
    forall o :: o in m.heap ==> o in born && born[o] == Kill(m.heap[o].originalParent, m.heap[o].originalChild)
  }

  /** The account of the object that process q created. */
  predicate Settled(w: World, o: ObjId)
    requires o in w.born
  {
    var q := w.born[o].sender;
    if q in w.mems then w.kills[w.born[o]] == (if o in w.mems[q].heap then 0 else 1)
    else w.kills[w.born[o]] <= 1
  }

  ghost predicate AllCounted(w: World) {
    forall q :: q in w.mems ==> q in w.pidsUsed && Counted(w.mems[q])
  }

  ghost predicate AllKnown(w: World) {
    forall q :: q in w.mems ==> Known(w.born, w.mems[q])
  }

  /** Pids are not reused: no two objects are for the same child. */
  ghost predicate Births(w: World) {
    && (forall o :: o in w.born ==> w.born[o].sender in w.pidsUsed && w.born[o].target in w.pidsUsed)
    && (forall o, o' :: o in w.born && o' in w.born && w.born[o].target == w.born[o'].target ==> o == o')
  }

  ghost predicate AllSettled(w: World) {
    forall o :: o in w.born ==> Settled(w, o)
  }

  ghost predicate Traced(w: World) {
    forall k :: k in w.kills ==> exists o :: o in w.born && w.born[o] == k
  }

  ghost predicate Inv(w: World) {
    AllCounted(w) && AllKnown(w) && Births(w) && AllSettled(w) && Traced(w)
  }

  lemma RetainCounts(m: Memory, from: Slot, to: Slot)
    requires Counted(m) && from in m.vars && to !in m.vars
    ensures Counted(Retain(m, m.vars[from]).(vars := m.vars[to := m.vars[from]]))
  {
    var m' := Retain(m, m.vars[from]).(vars := m.vars[to := m.vars[from]]);
    forall o | o in m'.heap ensures m'.heap[o].refs == |Pointers(m', o)| > 0 {
      SlotsAfterSet(m.vars, to, m.vars[from], o);
      assert to !in Pointers(m, o);
    }
  }

  /** An object with one reference is pointed to by one slot only. */
  lemma OnlySlot(s: set<Slot>, v: Slot)
    requires v in s && |s| <= 1
    ensures s == {v}
  {
    assert |s - {v}| == |s| - 1;
    assert s == (s - {v}) + {v};
  }

  lemma DropCounts(m: Memory, slot: Slot)
    requires Counted(m) && slot in m.vars
    ensures Counted(Release(m, m.vars[slot]).(vars := m.vars - {slot}))
  {
    var m', obj := Release(m, m.vars[slot]).(vars := m.vars - {slot}), m.vars[slot];
    assert slot in Pointers(m, obj);
    forall o | o in m'.heap ensures m'.heap[o].refs == |Pointers(m', o)| > 0 {
      SlotsAfterDrop(m.vars, slot, o);
      if o != obj { assert slot !in Pointers(m, o); }
    }
    if m.heap[obj].refs <= 1 { OnlySlot(Pointers(m, obj), slot); }
    forall v | v in m'.vars ensures m'.vars[v] in m'.heap {
      if m.vars[v] == obj { assert v in Pointers(m, obj); }
    }
  }

  /** Assignment retains the source before it releases the target, which makes self-assignment safe. */
  lemma AssignCounts(m: Memory, from: Slot, to: Slot)
    requires Counted(m) && from in m.vars && to in m.vars
    ensures Counted(Release(Retain(m, m.vars[from]), m.vars[to]).(vars := m.vars[to := m.vars[from]]))
  {
    var m' := Release(Retain(m, m.vars[from]), m.vars[to]).(vars := m.vars[to := m.vars[from]]);
    if m.vars[from] == m.vars[to] {
      assert m'.vars == m.vars && m'.heap == m.heap;
    } else {
      forall o | o in m'.heap ensures m'.heap[o].refs == |Pointers(m', o)| > 0 {
        AssignRefs(m, from, to, o);
      }
      AssignTargets(m, from, to);
    }
  }

  lemma AssignRefs(m: Memory, from: Slot, to: Slot, o: ObjId)
    requires Counted(m) && from in m.vars && to in m.vars && m.vars[from] != m.vars[to]
    requires o in Release(Retain(m, m.vars[from]), m.vars[to]).heap
    ensures Release(Retain(m, m.vars[from]), m.vars[to]).heap[o].refs == |SlotsOf(m.vars[to := m.vars[from]], o)| > 0
  {
    SlotsAfterSet(m.vars, to, m.vars[from], o);
    assert o in m.heap && m.heap[o].refs == |SlotsOf(m.vars, o)| > 0;
    assert to in SlotsOf(m.vars, o) <==> o == m.vars[to];
  }

  lemma AssignTargets(m: Memory, from: Slot, to: Slot)
    requires Counted(m) && from in m.vars && to in m.vars && m.vars[from] != m.vars[to]
    ensures forall v :: v in m.vars && v != to ==> m.vars[v] in Release(Retain(m, m.vars[from]), m.vars[to]).heap
    ensures m.vars[from] in Release(Retain(m, m.vars[from]), m.vars[to]).heap
  {
    var b := m.vars[to];
    assert to in SlotsOf(m.vars, b) && b in m.heap && m.heap[b].refs == |SlotsOf(m.vars, b)|;
    if m.heap[b].refs <= 1 { OnlySlot(SlotsOf(m.vars, b), to); }
    forall v | v in m.vars && v != to ensures m.vars[v] in Release(Retain(m, m.vars[from]), m.vars[to]).heap {
      assert m.vars[v] == b ==> v in SlotsOf(m.vars, b);
    }
  }

  /** What assignment does to the objects of one memory. */
  lemma AssignHeap(m: Memory, from: Slot, to: Slot)
    requires Counted(m) && from in m.vars && to in m.vars
    ensures var a, b := m.vars[from], m.vars[to];
            var kept := Retain(m, a);
            && a in m.heap && b in m.heap && kept.heap.Keys == m.heap.Keys
            && (kept.heap[b].refs <= 1 ==> kept.heap[b] == m.heap[b] && Release(kept, b).heap.Keys == m.heap.Keys - {b})
            && (kept.heap[b].refs > 1 ==> Release(kept, b).heap.Keys == m.heap.Keys)
            && SameOrigins(m, Release(kept, b))
  {
  }

  /** m' holds no object that m does not hold, and none has changed parent or child. */
  ghost predicate SameOrigins(m: Memory, m': Memory) {
    forall o :: o in m'.heap ==>
      && o in m.heap
      && m'.heap[o].originalParent == m.heap[o].originalParent && m'.heap[o].originalChild == m.heap[o].originalChild
  }

  /** The kill sent when process q destroys its copy of an object. */
  function DestroyKills(q: Pid, p: Private): multiset<Kill> {
    if p.originalParent == q then multiset{Kill(q, p.originalChild)} else multiset{}
  }

  /** A step inside q that keeps all objects and kills nobody. */
  lemma QuietSettles(w: World, q: Pid, m': Memory)
    requires AllSettled(w) && q in w.mems && m'.heap.Keys == w.mems[q].heap.Keys
    ensures AllSettled(w.(mems := w.mems[q := m']))
  {
    var w' := w.(mems := w.mems[q := m']);
    forall o | o in w'.born ensures Settled(w', o) {
      assert Settled(w, o);
      assert o in m'.heap.Keys <==> o in w.mems[q].heap.Keys;
    }
  }

  /** A step inside q that destroys obj settles its account and no other. */
  lemma DestroySettles(w: World, q: Pid, m': Memory, obj: ObjId)
    requires AllSettled(w) && Births(w) && q in w.mems && Known(w.born, w.mems[q])
    requires obj in w.mems[q].heap && m'.heap.Keys == w.mems[q].heap.Keys - {obj}
    ensures AllSettled(w.(mems := w.mems[q := m'], kills := w.kills + DestroyKills(q, w.mems[q].heap[obj])))
  {
    var p := w.mems[q].heap[obj];
    var w' := w.(mems := w.mems[q := m'], kills := w.kills + DestroyKills(q, p));
    assert w.born[obj] == Kill(p.originalParent, p.originalChild);
    forall o | o in w'.born ensures Settled(w', o) {
      assert Settled(w, o);
      assert o in m'.heap.Keys <==> o in w.mems[q].heap.Keys && o != obj;
      assert o != obj ==> w.born[o] != w.born[obj];
    }
  }

  lemma DestroyTraced(w: World, q: Pid, obj: ObjId, w': World)
    requires Traced(w) && q in w.mems && Known(w.born, w.mems[q]) && obj in w.mems[q].heap
    requires w'.born == w.born && w'.kills == w.kills + DestroyKills(q, w.mems[q].heap[obj])
    ensures Traced(w')
  {
    forall k | k in w'.kills ensures exists o :: o in w'.born && w'.born[o] == k {
      if k !in w.kills { assert w'.born[obj] == k; }
    }
  }

  lemma QuietStep(w: World, q: Pid, m': Memory)
    requires Inv(w) && q in w.mems && Counted(m') && Known(w.born, m') && m'.heap.Keys == w.mems[q].heap.Keys
    ensures Inv(w.(mems := w.mems[q := m']))
  {
    QuietSettles(w, q, m');
  }

  lemma DestroyStep(w: World, q: Pid, m': Memory, obj: ObjId)
    requires Inv(w) && q in w.mems && Counted(m') && Known(w.born, m')
    requires obj in w.mems[q].heap && m'.heap.Keys == w.mems[q].heap.Keys - {obj}
    ensures Inv(w.(mems := w.mems[q := m'], kills := w.kills + DestroyKills(q, w.mems[q].heap[obj])))
  {
    assert Known(w.born, w.mems[q]);
    DestroySettles(w, q, m', obj);
    DestroyTraced(w, q, obj, w.(mems := w.mems[q := m'], kills := w.kills + DestroyKills(q, w.mems[q].heap[obj])));
  }

  lemma CopyStep(w: World, q: Pid, from: Slot, to: Slot)
    requires Inv(w) && Enabled(w, Copy(q, from, to))
    ensures Inv(Apply(w, Copy(q, from, to)))
  {
    var m := w.mems[q];
    assert Counted(m) && Known(w.born, m);
    RetainCounts(m, from, to);
    assert m.vars[from] in m.heap;
    QuietStep(w, q, Retain(m, m.vars[from]).(vars := m.vars[to := m.vars[from]]));
  }

  lemma DropStep(w: World, q: Pid, slot: Slot)
    requires Inv(w) && Enabled(w, Drop(q, slot))
    ensures Inv(Apply(w, Drop(q, slot)))
  {
    var m := w.mems[q];
    assert Counted(m) && Known(w.born, m);
    DropCounts(m, slot);
    var obj := m.vars[slot];
    var m' := Release(m, obj).(vars := m.vars - {slot});
    if m.heap[obj].refs <= 1 {
      assert m'.heap.Keys == m.heap.Keys - {obj};
      DestroyStep(w, q, m', obj);
    } else {
      assert w.kills + multiset{} == w.kills;
      QuietStep(w, q, m');
    }
  }

  lemma AssignStep(w: World, q: Pid, from: Slot, to: Slot)
    requires Inv(w) && Enabled(w, Assign(q, from, to))
    ensures Inv(Apply(w, Assign(q, from, to)))
  {
    var m := w.mems[q];
    assert Counted(m) && Known(w.born, m);
    AssignCounts(m, from, to);
    AssignHeap(m, from, to);
    var kept, obj := Retain(m, m.vars[from]), m.vars[to];
    var m' := Release(kept, obj).(vars := m.vars[to := m.vars[from]]);
    AssignWorld(w, q, from, to, kept, obj, m');
    if kept.heap[obj].refs <= 1 {
      DestroyStep(w, q, m', obj);
    } else {
      QuietStep(w, q, m');
    }
  }

  lemma AssignWorld(w: World, q: Pid, from: Slot, to: Slot, kept: Memory, obj: ObjId, m': Memory)
    requires Enabled(w, Assign(q, from, to)) && kept == Retain(w.mems[q], w.mems[q].vars[from]) && obj == w.mems[q].vars[to]
    requires m' == Release(kept, obj).(vars := w.mems[q].vars[to := w.mems[q].vars[from]])
    requires obj in kept.heap && obj in w.mems[q].heap && (kept.heap[obj].refs <= 1 ==> kept.heap[obj] == w.mems[q].heap[obj])
    ensures Apply(w, Assign(q, from, to)) ==
            if kept.heap[obj].refs <= 1 then w.(mems := w.mems[q := m'], kills := w.kills + DestroyKills(q, w.mems[q].heap[obj]))
            else w.(mems := w.mems[q := m'])
  {
    assert w.kills + multiset{} == w.kills;
  }

  /** A fork copies the parent's memory; the new pid was never anybody's creator or child. */
  lemma PlainForkStep(w: World, q: Pid, child: Pid)
    requires Inv(w) && q in w.mems && child !in w.pidsUsed
    ensures Inv(w.(mems := w.mems[child := w.mems[q]], pidsUsed := w.pidsUsed + {child}))
  {
    var w' := w.(mems := w.mems[child := w.mems[q]], pidsUsed := w.pidsUsed + {child});
    forall o | o in w'.born ensures Settled(w', o) {
      assert Settled(w, o);
    }
  }

  /** The creator's memory gains a new object with one reference. */
  lemma CreateCounts(m: Memory, slot: Slot, obj: ObjId, p: Private)
    requires Counted(m) && slot !in m.vars && obj !in m.heap && p.refs == 1
    ensures Counted(Memory(m.vars[slot := obj], m.heap[obj := p]))
  {
    var m' := Memory(m.vars[slot := obj], m.heap[obj := p]);
    assert Pointers(m', obj) == {slot};
    forall o | o in m.heap ensures m'.heap[o].refs == |Pointers(m', o)| > 0 {
      assert Pointers(m', o) == Pointers(m, o);
    }
  }

  lemma CreateStep(w: World, q: Pid, child: Pid, obj: ObjId, m': Memory)
    requires Inv(w) && q in w.mems && obj !in w.born && child in w.pidsUsed && Counted(m')
    requires forall o :: o in w.born ==> w.born[o].target != child
    requires m'.heap == w.mems[q].heap[obj := Private(q, child, 1)]
    ensures Inv(w.(mems := w.mems[q := m'], born := w.born[obj := Kill(q, child)]))
  {
    var w' := w.(mems := w.mems[q := m'], born := w.born[obj := Kill(q, child)]);
    CreateKnown(w, w', q, child, obj);
    CreateSettles(w, w', q, child, obj);
    CreateTraced(w, w', obj);
    CreateBirths(w, w', q, child, obj);
  }

  lemma CreateTraced(w: World, w': World, obj: ObjId)
    requires Traced(w) && w'.kills == w.kills && obj !in w.born && obj in w'.born && w'.born == w.born[obj := w'.born[obj]]
    ensures Traced(w')
  {
    forall k | k in w'.kills ensures exists o :: o in w'.born && w'.born[o] == k {
      var o :| o in w.born && w.born[o] == k;
      assert w'.born[o] == k;
    }
  }

  lemma CreateBirths(w: World, w': World, q: Pid, child: Pid, obj: ObjId)
    requires Births(w) && w'.pidsUsed == w.pidsUsed && q in w.pidsUsed && child in w.pidsUsed
    requires w'.born == w.born[obj := Kill(q, child)]
    requires obj !in w.born && forall o :: o in w.born ==> w.born[o].target != child
    ensures Births(w')
  {
  }

  lemma CreateKnown(w: World, w': World, q: Pid, child: Pid, obj: ObjId)
    requires AllKnown(w) && q in w.mems && q in w'.mems && obj !in w.born && w'.born == w.born[obj := Kill(q, child)]
    requires w' == w.(mems := w.mems[q := w'.mems[q]], born := w'.born)
    requires w'.mems[q].heap == w.mems[q].heap[obj := Private(q, child, 1)]
    ensures AllKnown(w')
  {
    forall p | p in w'.mems ensures Known(w'.born, w'.mems[p]) {
      assert Known(w.born, w.mems[p]);
    }
  }

  lemma CreateSettles(w: World, w': World, q: Pid, child: Pid, obj: ObjId)
    requires AllSettled(w) && Traced(w) && q in w.mems && q in w'.mems && obj !in w.born && w'.born == w.born[obj := Kill(q, child)]
    requires w' == w.(mems := w.mems[q := w'.mems[q]], born := w'.born)
    requires w'.mems[q].heap == w.mems[q].heap[obj := Private(q, child, 1)]
    requires forall o :: o in w.born ==> w.born[o].target != child
    ensures AllSettled(w')
  {
    assert Kill(q, child) !in w.kills;
    forall o | o in w'.born ensures Settled(w', o) {
      if o != obj { assert Settled(w, o); }
    }
  }

  lemma LibraryForkStep(w: World, q: Pid, slot: Slot, obj: ObjId, child: Pid)
    requires Inv(w) && Enabled(w, LibraryFork(q, slot, obj, child))
    ensures Inv(Apply(w, LibraryFork(q, slot, obj, child)))
  {
    var m := w.mems[q];
    var w1 := w.(mems := w.mems[child := m], pidsUsed := w.pidsUsed + {child});
    var m' := Memory(m.vars[slot := obj], m.heap[obj := Private(q, child, 1)]);
    assert Known(w.born, m) && Counted(m);
    PlainForkStep(w, q, child);
    CreateCounts(m, slot, obj, Private(q, child, 1));
    CreateStep(w1, q, child, obj, m');
  }

  lemma StepInv(w: World, step: Step)
    requires Inv(w) && Enabled(w, step)
    ensures Inv(Apply(w, step))
  {
    match step
    case LibraryFork(q, slot, obj, child) => LibraryForkStep(w, q, slot, obj, child);
    case PlainFork(q, child) => PlainForkStep(w, q, child);
    case Exit(q) =>
      forall o | o in w.born ensures Settled(Apply(w, step), o) {
        assert Settled(w, o);
      }
    case Copy(q, from, to) => CopyStep(w, q, from, to);
    case Assign(q, from, to) => AssignStep(w, q, from, to);
    case Drop(q, slot) => DropStep(w, q, slot);
  }

  lemma {:induction false} RunInv(w: World, steps: seq<Step>, w': World)
    requires Inv(w) && Run(w, steps, w')
    ensures Inv(w')
    decreases |steps|
  {
    if steps != [] {
      StepInv(w, steps[0]);
      RunInv(Apply(w, steps[0]), steps[1..], w');
    }
  }

  ghost predicate Reachable(w: World) {
    exists start, steps :: Init(start) && Run(start, steps, w)
  }

  lemma ReachableInv(w: World)
    requires Reachable(w)
    ensures Inv(w)
  {
    var start, steps :| Init(start) && Run(start, steps, w);
    assert Inv(start);
    RunInv(start, steps, w);
  }

  /**
   A library fork gives its caller one handle and the child a copy of all the caller's
   other handles; dropping that one handle at once sends the child SIGKILL.
   */
  lemma ForkYieldsHandle(w: World, q: Pid, slot: Slot, obj: ObjId, child: Pid)
    requires Inv(w) && Enabled(w, LibraryFork(q, slot, obj, child))
    ensures var w1 := Apply(w, LibraryFork(q, slot, obj, child));
            && q in w1.mems && slot in w1.mems[q].vars && w1.mems[q].vars[slot] == obj
            && obj in w1.born && w1.born[obj] == Kill(q, child)
            && w1.kills == w.kills && child in w1.mems && w1.mems[child] == w.mems[q]
            && Enabled(w1, Drop(q, slot)) && Apply(w1, Drop(q, slot)).kills == w.kills + multiset{Kill(q, child)}
  {
    assert q in w.pidsUsed;
  }

  /** A plain fork gives the child a copy of all handles. */
  lemma PlainForkCopies(w: World, q: Pid, child: Pid)
    requires Inv(w) && Enabled(w, PlainFork(q, child))
    ensures var w1 := Apply(w, PlainFork(q, child));
            w1.mems == w.mems[child := w.mems[q]] && w1.kills == w.kills && w1.mems[q] == w.mems[q]
  {
    assert q in w.pidsUsed;
  }

  /** A process that exits destroys nothing: its handles vanish without a signal. */
  lemma ExitIsSilent(w: World, q: Pid)
    requires Enabled(w, Exit(q))
    ensures Apply(w, Exit(q)).mems == w.mems - {q} && Apply(w, Exit(q)).kills == w.kills
  {
  }

  /** A step of another process leaves q's memory alone, and creates no object for q. */
  lemma OtherProcess(w: World, q: Pid, step: Step)
    requires AllCounted(w) && q in w.mems && Enabled(w, step) && step.q != q
    ensures q in Apply(w, step).mems && Apply(w, step).mems[q] == w.mems[q]
    ensures forall o :: o in Apply(w, step).born && Apply(w, step).born[o].sender == q ==> o in w.born
  {
    assert q in w.pidsUsed;
  }

  /** What the steps of a program in its own memory do to its handles. */
  lemma VarsAfter(w: World, step: Step)
    requires AllCounted(w) && Enabled(w, step) && !step.LibraryFork? && !step.Exit?
    ensures Apply(w, step).born == w.born && step.q in Apply(w, step).mems
    ensures Apply(w, step).mems[step.q].vars ==
            match step
            case Copy(_, from, to) => w.mems[step.q].vars[to := w.mems[step.q].vars[from]]
            case Assign(_, from, to) => w.mems[step.q].vars[to := w.mems[step.q].vars[from]]
            case Drop(_, slot) => w.mems[step.q].vars - {slot}
            case PlainFork(_, _) => w.mems[step.q].vars
  {
    assert step.q in w.pidsUsed;
  }

  lemma BornStays(w: World, step: Step)
    requires Enabled(w, step)
    ensures forall o :: o in w.born ==> o in Apply(w, step).born && Apply(w, step).born[o] == w.born[o]
    ensures Apply(w, step).born != w.born ==> step.LibraryFork? && Apply(w, step).born == w.born[step.obj := Kill(step.q, step.child)]
  {
  }

  lemma {:induction false} BornStaysRun(w: World, steps: seq<Step>, w': World, o: ObjId)
    requires Run(w, steps, w') && o in w.born
    ensures o in w'.born && w'.born[o] == w.born[o]
    decreases |steps|
  {
    if steps != [] {
      BornStays(w, steps[0]);
      BornStaysRun(Apply(w, steps[0]), steps[1..], w', o);
    }
  }

  /** In q some variable, the observer's entries included, is a handle on object o. */
  ghost predicate HasHandle(w: World, q: Pid, o: ObjId)
    requires q in w.mems
  {
    exists v :: v in w.mems[q].vars && w.mems[q].vars[v] == o
  }

  /**
   Kill discipline: whatever happens after a library fork, the child has received no
   destructor SIGKILL while its creator holds any handle to it, the observer's entry
   included, exactly one once the creator has dropped the last, and none from any
   other process, forked copies of the handles included.
   */
  lemma KillDiscipline(w: World, fork: Step, steps: seq<Step>, w': World)
    requires Reachable(w) && fork.LibraryFork? && Enabled(w, fork) && Run(Apply(w, fork), steps, w')
    ensures fork.q in w'.mems ==> w'.kills[Kill(fork.q, fork.child)] == if HasHandle(w', fork.q, fork.obj) then 0 else 1
    ensures w'.kills[Kill(fork.q, fork.child)] <= 1
    ensures forall p :: p != fork.q ==> Kill(p, fork.child) !in w'.kills
  {
    ReachableInv(w);
    ForkYieldsHandle(w, fork.q, fork.slot, fork.obj, fork.child);
    StepInv(w, fork);
    BornStaysRun(Apply(w, fork), steps, w', fork.obj);
    RunInv(Apply(w, fork), steps, w');
    Discipline(w', fork.obj);
  }

  lemma Discipline(w: World, o: ObjId)
    requires Inv(w) && o in w.born
    ensures var creator, child := w.born[o].sender, w.born[o].target;
            && (creator in w.mems ==> w.kills[Kill(creator, child)] == if HasHandle(w, creator, o) then 0 else 1)
            && w.kills[Kill(creator, child)] <= 1
            && (forall p :: p != creator ==> Kill(p, child) !in w.kills)
  {
    assert Settled(w, o);
    var creator, child := w.born[o].sender, w.born[o].target;
    forall p | Kill(p, child) in w.kills ensures p == creator {
      var o' :| o' in w.born && w.born[o'] == Kill(p, child);
    }
    if creator in w.mems {
      var m := w.mems[creator];
      assert Counted(m);
      if o in m.heap {
        var v :| v in Pointers(m, o);
        assert v in m.vars && m.vars[v] == o;
      }
    }
  }
}
