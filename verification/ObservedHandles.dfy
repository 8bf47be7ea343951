/**
 The observer's map and the handles together: in one process, q, the map's entry for a pid
 is a handle, made when add() inserts it and dropped when the entry is erased; the copies
 that add() and child_died hand around are local handles like any other.  Everything
 else that the protocol of Observation and the handles of Handles can do, in q and in
 other processes, happens in between.
 */
module ObservedHandles {
  import O = Observation
  import I = ObservationInvariant
  import H = Handles

  datatype Joint = Joint(s: O.State, w: H.World)

  datatype Step =
    | Watch(protocol: O.Step, from: H.Slot)  // from: the handle that an insertion copies
    | Handle(handle: H.Step)
    | Fork(slot: H.Slot, obj: H.ObjId, child: O.Pid)

  predicate Inserts(s: O.State, step: O.Step, p: O.Pid) {
    step.Call? && step.c.Insert? && O.Pc(s, step.t) == O.AddLocked(p) && p !in s.obs.children
  }

  predicate Erases(s: O.State, step: O.Step, p: O.Pid) {
    step.Call? && step.c.Erase? && (O.Pc(s, step.t) == O.AddTold(p) || O.Pc(s, step.t) == O.DrainTold(p))
  }

  /** The handle step that goes with a step of the protocol. */
  function Companion(s: O.State, q: H.Pid, step: O.Step, from: H.Slot): (r: seq<H.Step>)
    ensures |r| <= 1
  {
    if step.Call? && step.c.Insert? && O.Pc(s, step.t).AddLocked? && O.Pc(s, step.t).pid !in s.obs.children
    then [H.Copy(q, from, H.ObserverEntry(O.Pc(s, step.t).pid))]
    else if step.Call? && step.c.Erase? && (O.Pc(s, step.t).AddTold? || O.Pc(s, step.t).DrainTold?)
    then [H.Drop(q, H.ObserverEntry(O.Pc(s, step.t).pid))]
    else []
  }

  /** The program itself does not touch the observer's entries, and process q goes on. */
  predicate LeavesEntries(step: H.Step) {
    match step
    case LibraryFork(_, _, _, _) => false
    case PlainFork(_, _) => true
    case Copy(_, _, to) => to.Local?
    case Assign(_, _, to) => to.Local?
    case Drop(_, slot) => slot.Local?
    case Exit(_) => false
  }

  /** slot is a handle, in process q, for the child with pid p. */
  predicate HandleFor(w: H.World, q: H.Pid, slot: H.Slot, p: O.Pid) {
    && q in w.mems && slot in w.mems[q].vars
    && w.mems[q].vars[slot] in w.born && w.born[w.mems[q].vars[slot]].target == p
  }

  ghost predicate Enabled(j: Joint, q: H.Pid, step: Step) {
    match step
    case Watch(ostep, from) =>
      O.Enabled(j.s, ostep) && forall p :: Inserts(j.s, ostep, p) ==> from.Local? && HandleFor(j.w, q, from, p)
    case Handle(hstep) => H.Enabled(j.w, hstep) && (hstep.q == q ==> LeavesEntries(hstep))
    case Fork(slot, obj, child) =>
      slot.Local? && H.Enabled(j.w, H.LibraryFork(q, slot, obj, child)) && O.Enabled(j.s, O.World(O.Spawn(child)))
  }

  function After(w: H.World, hsteps: seq<H.Step>): H.World
    requires |hsteps| <= 1
  {
    if hsteps == [] || !H.Enabled(w, hsteps[0]) then w else H.Apply(w, hsteps[0])
  }

  ghost function Apply(j: Joint, q: H.Pid, step: Step): Joint
    requires Enabled(j, q, step)
  {
    match step
    case Watch(ostep, from) => Joint(O.Apply(j.s, ostep), After(j.w, Companion(j.s, q, ostep, from)))
    case Handle(hstep) => j.(w := H.Apply(j.w, hstep))
    case Fork(slot, obj, child) =>
      Joint(O.Apply(j.s, O.World(O.Spawn(child))), H.Apply(j.w, H.LibraryFork(q, slot, obj, child)))
  }

  ghost predicate Run(j: Joint, q: H.Pid, steps: seq<Step>, j': Joint)
    decreases |steps|
  {
    if steps == [] then j == j'
    else Enabled(j, q, steps[0]) && Run(Apply(j, q, steps[0]), q, steps[1..], j')
  }

  ghost predicate Init(j: Joint, q: H.Pid) {
    O.Init(j.s) && H.Init(j.w) && q in j.w.mems
  }

  /** The map is exactly the set of entry handles, and every entry is a handle for its pid. */
  ghost predicate Coupled(s: O.State, w: H.World, q: H.Pid) {
    && q in w.mems
    && (forall p :: p in s.obs.children <==> H.ObserverEntry(p) in w.mems[q].vars)
    && (forall p :: p in s.obs.children ==> HandleFor(w, q, H.ObserverEntry(p), p))
  }

  /** A child made by a library fork in q is in the kernel's table of q's children. */
  ghost predicate Listed(s: O.State, w: H.World, q: H.Pid) {
    forall o :: o in w.born && w.born[o].sender == q ==> w.born[o].target in s.procs
  }

  ghost predicate Inv(j: Joint, q: H.Pid) {
    I.Inv(j.s) && H.Inv(j.w) && Coupled(j.s, j.w, q) && Listed(j.s, j.w, q)
  }

  lemma InitInv(j: Joint, q: H.Pid)
    requires Init(j, q)
    ensures Inv(j, q)
  {
    I.InitInv(j.s);
  }

  /** Only an insertion and an erasure change the observer's map. */
  lemma MapChanges(s: O.State, step: O.Step, p: O.Pid)
    requires O.Enabled(s, step)
    ensures p in O.Apply(s, step).obs.children <==> Inserts(s, step, p) || (p in s.obs.children && !Erases(s, step, p))
  {
  }

  /** The companion of a step is possible whenever the step is. */
  lemma CompanionEnabled(j: Joint, q: H.Pid, step: O.Step, from: H.Slot)
    requires Inv(j, q) && Enabled(j, q, Watch(step, from))
    ensures forall h :: h in Companion(j.s, q, step, from) ==> H.Enabled(j.w, h)
  {
    if step.Call? {
      var p := if step.c.Insert? || step.c.Erase? then O.Pc(j.s, step.t).pid else 0;
      assert I.PcFacts(j.s, O.Pc(j.s, step.t));
      assert step.c.Insert? && p !in j.s.obs.children ==> Inserts(j.s, step, p);
      assert p in j.s.obs.children <==> H.ObserverEntry(p) in j.w.mems[q].vars;
    }
  }

  /** A step of the protocol and its companion keep the map and the entries alike. */
  lemma WatchCoupled(j: Joint, q: H.Pid, step: O.Step, from: H.Slot)
    requires Inv(j, q) && Enabled(j, q, Watch(step, from))
    ensures Coupled(Apply(j, q, Watch(step, from)).s, Apply(j, q, Watch(step, from)).w, q)
  {
    var j' := Apply(j, q, Watch(step, from));
    CompanionEnabled(j, q, step, from);
    forall p
      ensures p in j'.s.obs.children <==> H.ObserverEntry(p) in j'.w.mems[q].vars
      ensures p in j'.s.obs.children ==> HandleFor(j'.w, q, H.ObserverEntry(p), p)
    {
      MapChanges(j.s, step, p);
      assert p in j.s.obs.children <==> H.ObserverEntry(p) in j.w.mems[q].vars;
      EntryAfter(j, q, step, from, p);
    }
  }

  /** The entry of p after the entry of p0 has been made ... */
  lemma EntryMade(w: H.World, q: H.Pid, from: H.Slot, p0: O.Pid, p: O.Pid)
    requires H.AllCounted(w) && H.Enabled(w, H.Copy(q, from, H.ObserverEntry(p0))) && HandleFor(w, q, from, p0)
    requires H.ObserverEntry(p) in w.mems[q].vars ==> HandleFor(w, q, H.ObserverEntry(p), p)
    ensures var w' := H.Apply(w, H.Copy(q, from, H.ObserverEntry(p0)));
            && w'.born == w.born && q in w'.mems
            && (H.ObserverEntry(p) in w'.mems[q].vars <==> p == p0 || H.ObserverEntry(p) in w.mems[q].vars)
            && (H.ObserverEntry(p) in w'.mems[q].vars ==> HandleFor(w', q, H.ObserverEntry(p), p))
  {
    H.VarsAfter(w, H.Copy(q, from, H.ObserverEntry(p0)));
  }

  /** ... and after it has been dropped. */
  lemma EntryDropped(w: H.World, q: H.Pid, p0: O.Pid, p: O.Pid)
    requires H.AllCounted(w) && H.Enabled(w, H.Drop(q, H.ObserverEntry(p0)))
    requires H.ObserverEntry(p) in w.mems[q].vars ==> HandleFor(w, q, H.ObserverEntry(p), p)
    ensures var w' := H.Apply(w, H.Drop(q, H.ObserverEntry(p0)));
            && w'.born == w.born && q in w'.mems
            && (H.ObserverEntry(p) in w'.mems[q].vars <==> p != p0 && H.ObserverEntry(p) in w.mems[q].vars)
            && (H.ObserverEntry(p) in w'.mems[q].vars ==> HandleFor(w', q, H.ObserverEntry(p), p))
  {
    H.VarsAfter(w, H.Drop(q, H.ObserverEntry(p0)));
  }

  lemma EntryAfter(j: Joint, q: H.Pid, step: O.Step, from: H.Slot, p: O.Pid)
    requires H.AllCounted(j.w) && Coupled(j.s, j.w, q) && Enabled(j, q, Watch(step, from))
    requires forall h :: h in Companion(j.s, q, step, from) ==> H.Enabled(j.w, h)
    ensures var w' := After(j.w, Companion(j.s, q, step, from));
            && w'.born == j.w.born && q in w'.mems
            && (H.ObserverEntry(p) in w'.mems[q].vars <==>
                Inserts(j.s, step, p) || (H.ObserverEntry(p) in j.w.mems[q].vars && !Erases(j.s, step, p)))
            && (H.ObserverEntry(p) in w'.mems[q].vars ==> HandleFor(w', q, H.ObserverEntry(p), p))
  {
    var hs := Companion(j.s, q, step, from);
    assert p in j.s.obs.children ==> HandleFor(j.w, q, H.ObserverEntry(p), p);
    if hs != [] {
      var h, p0 := hs[0], O.Pc(j.s, step.t).pid;
      assert h in hs;
      if step.c.Insert? {
        assert Inserts(j.s, step, p0);
        EntryMade(j.w, q, from, p0, p);
      } else {
        EntryDropped(j.w, q, p0, p);
      }
    }
  }

  lemma WatchStep(j: Joint, q: H.Pid, step: O.Step, from: H.Slot)
    requires Inv(j, q) && Enabled(j, q, Watch(step, from))
    ensures Inv(Apply(j, q, Watch(step, from)), q)
  {
    var hs := Companion(j.s, q, step, from);
    I.StepInv(j.s, step);
    I.TablesGrow(j.s, step);
    CompanionEnabled(j, q, step, from);
    WatchCoupled(j, q, step, from);
    EntryAfter(j, q, step, from, 0);
    if hs != [] {
      assert hs[0] in hs;
      H.StepInv(j.w, hs[0]);
    }
  }

  /** Steps of other processes, and of the program in q, leave q's entries alone. */
  lemma HandleCoupled(s: O.State, w: H.World, q: H.Pid, step: H.Step)
    requires H.AllCounted(w) && Coupled(s, w, q) && H.Enabled(w, step) && (step.q == q ==> LeavesEntries(step))
    ensures Coupled(s, H.Apply(w, step), q)
  {
    var w' := H.Apply(w, step);
    H.BornStays(w, step);
    if step.q == q { H.VarsAfter(w, step); } else { H.OtherProcess(w, q, step); }
    forall p | p in s.obs.children ensures HandleFor(w', q, H.ObserverEntry(p), p) {
      assert HandleFor(w, q, H.ObserverEntry(p), p);
    }
  }

  lemma HandleStep(j: Joint, q: H.Pid, step: H.Step)
    requires Inv(j, q) && Enabled(j, q, Handle(step))
    ensures Inv(Apply(j, q, Handle(step)), q)
  {
    H.StepInv(j.w, step);
    HandleCoupled(j.s, j.w, q, step);
    if step.q == q { H.VarsAfter(j.w, step); } else { H.OtherProcess(j.w, q, step); }
  }

  /** A joint fork leaves a handle for the new child. */
  lemma ForkGivesHandle(j: Joint, q: H.Pid, slot: H.Slot, obj: H.ObjId, child: O.Pid)
    requires Inv(j, q) && Enabled(j, q, Fork(slot, obj, child))
    ensures HandleFor(Apply(j, q, Fork(slot, obj, child)).w, q, slot, child)
    ensures child in Apply(j, q, Fork(slot, obj, child)).s.procs
  {
    H.ForkYieldsHandle(j.w, q, slot, obj, child);
  }

  lemma ForkStep(j: Joint, q: H.Pid, slot: H.Slot, obj: H.ObjId, child: O.Pid)
    requires Inv(j, q) && Enabled(j, q, Fork(slot, obj, child))
    ensures Inv(Apply(j, q, Fork(slot, obj, child)), q)
  {
    var j' := Apply(j, q, Fork(slot, obj, child));
    I.StepInv(j.s, O.World(O.Spawn(child)));
    H.StepInv(j.w, H.LibraryFork(q, slot, obj, child));
    forall p | p in j.s.obs.children ensures HandleFor(j'.w, q, H.ObserverEntry(p), p) {
      assert HandleFor(j.w, q, H.ObserverEntry(p), p);
    }
  }

  lemma StepInv(j: Joint, q: H.Pid, step: Step)
    requires Inv(j, q) && Enabled(j, q, step)
    ensures Inv(Apply(j, q, step), q)
  {
    match step
    case Watch(ostep, from) => WatchStep(j, q, ostep, from);
    case Handle(hstep) => HandleStep(j, q, hstep);
    case Fork(slot, obj, child) => ForkStep(j, q, slot, obj, child);
  }

  lemma {:induction false} RunInv(j: Joint, q: H.Pid, steps: seq<Step>, j': Joint)
    requires Inv(j, q) && Run(j, q, steps, j')
    ensures Inv(j', q)
    decreases |steps|
  {
    if steps != [] {
      StepInv(j, q, steps[0]);
      RunInv(Apply(j, q, steps[0]), q, steps[1..], j');
    }
  }

  /** The steps that a joint run takes in the protocol ... */
  function ProtocolSteps(steps: seq<Step>): seq<O.Step> {
    if steps == [] then []
    else (match steps[0]
          case Watch(ostep, _) => [ostep]
          case Handle(_) => []
          case Fork(_, _, child) => [O.World(O.Spawn(child))]) + ProtocolSteps(steps[1..])
  }

  /** ... and with the handles. */
  ghost function HandleSteps(j: Joint, q: H.Pid, steps: seq<Step>): seq<H.Step>
    decreases |steps|
  {
    if steps == [] || !Enabled(j, q, steps[0]) then []
    else (match steps[0]
          case Watch(ostep, from) => Companion(j.s, q, ostep, from)
          case Handle(hstep) => [hstep]
          case Fork(slot, obj, child) => [H.LibraryFork(q, slot, obj, child)]) + HandleSteps(Apply(j, q, steps[0]), q, steps[1..])
  }

  lemma ProtocolStepsHead(steps: seq<Step>, ostep: O.Step, s: O.State, s': O.State)
    requires steps != [] && ProtocolSteps(steps) == [ostep] + ProtocolSteps(steps[1..])
    requires O.Enabled(s, ostep) && O.Run(O.Apply(s, ostep), ProtocolSteps(steps[1..]), s')
    ensures O.Run(s, ProtocolSteps(steps), s')
  {
    assert ([ostep] + ProtocolSteps(steps[1..]))[1..] == ProtocolSteps(steps[1..]);
  }

  /** A joint run is a run of the protocol ... */
  lemma {:induction false} ProtocolRun(j: Joint, q: H.Pid, steps: seq<Step>, j': Joint)
    requires Run(j, q, steps, j')
    ensures O.Run(j.s, ProtocolSteps(steps), j'.s)
    decreases |steps|
  {
    if steps != [] {
      ProtocolRun(Apply(j, q, steps[0]), q, steps[1..], j');
      match steps[0] {
        case Watch(ostep, _) => ProtocolStepsHead(steps, ostep, j.s, j'.s);
        case Fork(_, _, child) => ProtocolStepsHead(steps, O.World(O.Spawn(child)), j.s, j'.s);
        case Handle(_) => assert ProtocolSteps(steps) == ProtocolSteps(steps[1..]);
      }
    }
  }

  lemma HandleHead(w: H.World, first: seq<H.Step>, rest: seq<H.Step>, w': H.World)
    requires |first| <= 1 && (forall h :: h in first ==> H.Enabled(w, h)) && H.Run(After(w, first), rest, w')
    ensures H.Run(w, first + rest, w')
  {
    if first == [] {
      assert first + rest == rest;
    } else {
      assert first[0] in first;
      assert (first + rest)[1..] == rest;
    }
  }

  /** ... and a run of the handles, with one step for every entry that comes or goes. */
  lemma {:induction false} HandleRun(j: Joint, q: H.Pid, steps: seq<Step>, j': Joint)
    requires Inv(j, q) && Run(j, q, steps, j')
    ensures H.Run(j.w, HandleSteps(j, q, steps), j'.w)
    decreases |steps|
  {
    if steps != [] {
      var mid := Apply(j, q, steps[0]);
      StepInv(j, q, steps[0]);
      HandleRun(mid, q, steps[1..], j');
      var rest := HandleSteps(mid, q, steps[1..]);
      match steps[0] {
        case Watch(ostep, from) =>
          CompanionEnabled(j, q, ostep, from);
          HandleHead(j.w, Companion(j.s, q, ostep, from), rest, j'.w);
        case Handle(hstep) => HandleHead(j.w, [hstep], rest, j'.w);
        case Fork(slot, obj, child) => HandleHead(j.w, [H.LibraryFork(q, slot, obj, child)], rest, j'.w);
      }
    }
  }

  /** slot holds the only reference to its object. */
  ghost predicate LastHandle(m: H.Memory, slot: H.Slot)
    requires slot in m.vars
  {
    forall v :: v in m.vars && m.vars[v] == m.vars[slot] ==> v == slot
  }

  lemma LastMeansOne(m: H.Memory, slot: H.Slot)
    requires H.Counted(m) && slot in m.vars
    ensures m.vars[slot] in m.heap && (m.heap[m.vars[slot]].refs <= 1 <==> LastHandle(m, slot))
  {
    var ptrs := H.Pointers(m, m.vars[slot]);
    assert slot in ptrs;
    assert LastHandle(m, slot) ==> ptrs == {slot};
    if m.heap[m.vars[slot]].refs <= 1 {
      H.OnlySlot(ptrs, slot);
      forall v | v in m.vars && m.vars[v] == m.vars[slot] ensures v == slot {
        assert v in ptrs;
      }
    }
  }

  /** What dropping a handle for p kills. */
  lemma DropKills(w: H.World, q: H.Pid, slot: H.Slot, p: O.Pid)
    requires H.Inv(w) && HandleFor(w, q, slot, p)
    ensures H.Apply(w, H.Drop(q, slot)).kills ==
            w.kills + if w.born[w.mems[q].vars[slot]].sender == q && LastHandle(w.mems[q], slot)
                      then multiset{H.Kill(q, p)} else multiset{}
  {
    assert H.Counted(w.mems[q]) && H.Known(w.born, w.mems[q]);
    LastMeansOne(w.mems[q], slot);
  }

  /**
   An entry is erased only after its pid has been reaped, and erasing it sends SIGKILL
   exactly when it is the last handle in the process that forked the child.  Such a signal
   is always sent to a pid that is no longer this child's.
   */
  lemma EraseKillsReaped(j: Joint, q: H.Pid, step: O.Step, from: H.Slot, p: O.Pid)
    requires Inv(j, q) && Enabled(j, q, Watch(step, from)) && Erases(j.s, step, p)
    ensures O.Gone(j.s, p) && HandleFor(j.w, q, H.ObserverEntry(p), p)
    ensures var sent := j.w.born[j.w.mems[q].vars[H.ObserverEntry(p)]].sender == q && LastHandle(j.w.mems[q], H.ObserverEntry(p));
            && Apply(j, q, Watch(step, from)).w.kills == j.w.kills + (if sent then multiset{H.Kill(q, p)} else multiset{})
            && (sent ==> p in j.s.procs && j.s.procs[p].life == O.Reaped)
  {
    ErasedEntry(j, q, step, p);
    DropKills(j.w, q, H.ObserverEntry(p), p);
    assert Companion(j.s, q, step, from) == [H.Drop(q, H.ObserverEntry(p))];
  }

  lemma ErasedEntry(j: Joint, q: H.Pid, step: O.Step, p: O.Pid)
    requires I.PcInv(j.s) && Coupled(j.s, j.w, q) && Erases(j.s, step, p)
    ensures O.Gone(j.s, p) && HandleFor(j.w, q, H.ObserverEntry(p), p)
  {
    assert I.PcFacts(j.s, O.Pc(j.s, step.t));
    assert p in j.s.obs.children;
  }

  /** While p has an entry, no other drop or assignment in q destroys the object for p. */
  lemma EntryProtects(w: H.World, q: H.Pid, step: H.Step, p: O.Pid)
    requires H.Inv(w) && HandleFor(w, q, H.ObserverEntry(p), p) && H.Enabled(w, step) && step.q == q && LeavesEntries(step)
    ensures H.Apply(w, step).kills[H.Kill(q, p)] == w.kills[H.Kill(q, p)]
  {
    var m := w.mems[q];
    assert H.Counted(m) && H.Known(w.born, m);
    if step.Drop? || step.Assign? {
      var slot := if step.Drop? then step.slot else step.to;
      LastMeansOne(m, slot);
      assert m.vars[slot] == m.vars[H.ObserverEntry(p)] ==> !LastHandle(m, slot);
      assert w.born[m.vars[slot]].target == p ==> m.vars[slot] == m.vars[H.ObserverEntry(p)];
    }
  }

  lemma OthersKills(w: H.World, q: H.Pid, step: H.Step, k: H.Kill)
    requires H.Enabled(w, step) && step.q != q && k.sender == q
    ensures H.Apply(w, step).kills[k] == w.kills[k]
  {
  }

  lemma ObservedKill(j: Joint, q: H.Pid, step: Step, p: O.Pid)
    requires Inv(j, q) && Enabled(j, q, step) && p in j.s.obs.children
    requires Apply(j, q, step).w.kills[H.Kill(q, p)] != j.w.kills[H.Kill(q, p)]
    ensures step.Watch? && Erases(j.s, step.protocol, p)
  {
    assert HandleFor(j.w, q, H.ObserverEntry(p), p);
    match step
    case Handle(h) => if h.q == q { EntryProtects(j.w, q, h, p); } else { OthersKills(j.w, q, h, H.Kill(q, p)); }
    case Fork(_, _, _) =>
    case Watch(ostep, from) =>
      if p0 :| Erases(j.s, ostep, p0) {
        EraseKillsReaped(j, q, ostep, from, p0);
      } else {
        CompanionEnabled(j, q, ostep, from);
      }
  }

  /**
   Over any run of protocol and handles together: no destructor in q sends SIGKILL to an
   observed child before the child has been reaped.  The only one that is sent while the
   child is observed comes from erasing its entry, as the last handle.
   */
  lemma KillFollowsReaping(start: Joint, q: H.Pid, steps: seq<Step>, j: Joint, step: Step, p: O.Pid)
    requires Init(start, q) && Run(start, q, steps, j) && Enabled(j, q, step) && p in j.s.obs.children
    requires Apply(j, q, step).w.kills[H.Kill(q, p)] != j.w.kills[H.Kill(q, p)]
    ensures p in j.s.procs && j.s.procs[p].life == O.Reaped
    ensures step.Watch? && Erases(j.s, step.protocol, p)
    ensures LastHandle(j.w.mems[q], H.ObserverEntry(p))
  {
    InitInv(start, q);
    RunInv(start, q, steps, j);
    ObservedKill(j, q, step, p);
    EraseKillsReaped(j, q, step.protocol, step.from, p);
  }
}
