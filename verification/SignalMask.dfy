/**
 The signal mask of a thread under any construction and destruction of signal traps on
 it.  The constructor blocks the trap's signals; the destructor blocks, rather than
 restores, the mask that the constructor found.
 */
module SignalMask {
  type Signal = int

  const SIGKILL: Signal := 9
  const SIGSTOP: Signal := 19

  predicate IsSignal(x: Signal) {
    1 <= x <= 64
  }

  /** What blocking a set really blocks: SIGKILL and SIGSTOP are silently left out. */
  function Blockable(mask: set<Signal>): set<Signal> {
    mask - {SIGKILL, SIGSTOP}
  }

  /** The valid signals of an initializer list. */
  function SigSet(signals: seq<Signal>): (r: set<Signal>)
    ensures forall x :: x in r <==> x in signals && IsSignal(x)
  {
    set x | x in signals && IsSignal(x)
  }

  lemma SigSetGrows(signals: seq<Signal>, i: nat)
    requires i < |signals|
    ensures SigSet(signals[..i + 1]) == SigSet(signals[..i]) + (if IsSignal(signals[i]) then {signals[i]} else {})
  {
    assert signals[..i + 1] == signals[..i] + [signals[i]];
  }

  class Thread {
    var blocked: set<Signal>

    constructor (blocked: set<Signal>)
      ensures this.blocked == blocked
    {
      this.blocked := blocked;
    }

    /** pthread_sigmask(SIG_BLOCK, ..) and, on one thread, sigprocmask(SIG_BLOCK, ..). */
    method Block(mask: set<Signal>) returns (previous: set<Signal>)
      modifies this
      ensures previous == old(blocked) && blocked == old(blocked) + Blockable(mask)
    {
      previous := blocked;
      blocked := blocked + Blockable(mask);
    }
  }

  class SignalTrap {
    const thread: Thread
    var blockedSignals: set<Signal>
    var oldSignals: set<Signal>

    constructor (thread: Thread, signals: seq<Signal>)
      modifies thread
      ensures this.thread == thread && blockedSignals == SigSet(signals) && oldSignals == old(thread.blocked)
      ensures thread.blocked == old(thread.blocked) + Blockable(SigSet(signals))
    {
      this.thread := thread;
      blockedSignals := {};
      oldSignals := {};
      new;
      for i := 0 to |signals|
        invariant blockedSignals == SigSet(signals[..i])
        invariant thread.blocked == old(thread.blocked)
      {
        SigSetGrows(signals, i);
        if IsSignal(signals[i]) {
          blockedSignals := blockedSignals + {signals[i]};
        }
      }
      assert signals[..|signals|] == signals;
      oldSignals := thread.Block(blockedSignals);
    }

    method Destroy()
      modifies thread
      ensures thread.blocked == old(thread.blocked) + Blockable(oldSignals)
    {
      var _ := thread.Block(oldSignals);
    }
  }

  /** A trap's destructor undoes its constructor exactly when there was nothing new to block. */
  method ConstructAndDestroy(thread: Thread, signals: seq<Signal>)
    modifies thread
    ensures thread.blocked == old(thread.blocked) + Blockable(SigSet(signals))
    ensures thread.blocked == old(thread.blocked) <==> Blockable(SigSet(signals)) <= old(thread.blocked)
  {
    var trap := new SignalTrap(thread, signals);
    trap.Destroy();
    assert thread.blocked == old(thread.blocked) + Blockable(SigSet(signals));
  }

  /**
   It fails on a thread that blocks nothing: SIGCHLD and the last real-time signal stay
   blocked.  SIGKILL and SIGSTOP cannot be, and numbers that are no signals are ignored.
   */
  method MaskNotRestored(thread: Thread)
    requires thread.blocked == {}
    modifies thread
    ensures thread.blocked == {17, 64}
  {
    var signals := [0, 9, 17, 19, 64, 65];
    assert Blockable(SigSet(signals)) == {17, 64} by {
      assert signals[2] == 17 && signals[4] == 64;
    }
    ConstructAndDestroy(thread, signals);
  }

  datatype Op = Construct(id: nat, signals: seq<Signal>, eventfdWorks: bool) | Destroy(id: nat)

  /** The signals of the traps that a sequence of operations constructs, when live is the set of traps alive before it. */
  function Trapped(ops: seq<Op>, live: set<nat>): set<Signal> {
    if ops == [] then {}
    else match ops[0]
      case Construct(id, signals, works) =>
        if id in live || !works then Trapped(ops[1..], live)
        else SigSet(signals) + Trapped(ops[1..], live + {id})
      case Destroy(id) => Trapped(ops[1..], live - {id})
  }

  /** The traps alive on one thread, with the signals of all traps there ever were. */
  class Program {
    const thread: Thread
    var traps: map<nat, SignalTrap>
    ghost const initial: set<Signal>
    ghost var everTrapped: set<Signal>

    /** The mask is the initial one plus everything ever trapped, so the signals of live traps are blocked. */
    ghost predicate Valid()
      reads this, thread, traps.Values
    {
      && thread.blocked == initial + Blockable(everTrapped)
      && forall i :: i in traps ==>
           && traps[i].thread == thread
           && traps[i].blockedSignals <= everTrapped
           && Blockable(traps[i].blockedSignals) <= thread.blocked
           && traps[i].oldSignals <= thread.blocked
    }

    constructor (thread: Thread)
      ensures this.thread == thread && initial == thread.blocked && everTrapped == {} && traps == map[] && Valid()
    {
      this.thread, initial := thread, thread.blocked;
      traps, everTrapped := map[], {};
    }

    method MakeTrap(id: nat, signals: seq<Signal>, eventfdWorks: bool)
      requires Valid() && id !in traps
      modifies this, thread
      ensures Valid() && (eventfdWorks ==> everTrapped == old(everTrapped) + SigSet(signals))
      ensures !eventfdWorks ==> thread.blocked == old(thread.blocked) && everTrapped == old(everTrapped)
      ensures traps.Keys == if eventfdWorks then old(traps.Keys) + {id} else old(traps.Keys)
    {
      if eventfdWorks {
        var trap := new SignalTrap(thread, signals);
        traps := traps[id := trap];
        everTrapped := everTrapped + SigSet(signals);
      }
    }

    method DropTrap(id: nat)
      requires Valid() && id in traps
      modifies this, thread
      ensures Valid() && everTrapped == old(everTrapped) && thread.blocked == old(thread.blocked)
      ensures traps == old(traps) - {id}
    {
      traps[id].Destroy();
      traps := traps - {id};
    }

    /** Every sequence of constructions and destructions, in any order. */
    method PerformAll(ops: seq<Op>)
      requires Valid()
      modifies this, thread
      ensures Valid() && everTrapped == old(everTrapped) + Trapped(ops, old(traps.Keys))
      ensures thread.blocked == initial + Blockable(old(everTrapped) + Trapped(ops, old(traps.Keys)))
    {
      for n := 0 to |ops|
        invariant Valid()
        invariant everTrapped + Trapped(ops[n..], traps.Keys) == old(everTrapped) + Trapped(ops, old(traps.Keys))
      {
        assert ops[n..][0] == ops[n] && ops[n..][1..] == ops[n + 1..];
        match ops[n]
        case Construct(id, signals, works) =>
          if id !in traps {
            MakeTrap(id, signals, works);
          }
        case Destroy(id) =>
          if id in traps {
            DropTrap(id);
          } else {
            assert traps.Keys - {id} == traps.Keys;
          }
      }
    }
  }
}
