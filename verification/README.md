# A Dafny model of process-cpp

process-cpp wraps POSIX process control for C++.  Most of it is thin; what is not thin is a
set of protocols over state that the kernel and several processes or threads share.  This
project models those protocols and proves what the library promises about them, for every
interleaving, every run and every input.  `dafny verify dfyconfig.toml` checks all of it.

| file | content |
|---|---|
| `Options.dfy`, `Collections.dfy` | optional values; facts about sets and maps |
| `Observation.dfy` | death observation as a transition system: process table, pending signals, eventfd, `SignalTrap::run`, `add`, `on_sig_child` |
| `ObservationInvariant.dfy` | its inductive invariant |
| `ObservationTheorems.dfy` | what holds in every reachable state |
| `ObservationProgress.dfy` | a measure lowered by every step of the library's own code, and what is left when none remains |
| `ObserverCode.dfy` | the code of `add`, `on_sig_child` and `run` as methods and loops, with everybody else running in between |
| `ObserverCreation.dfy` | concurrent `create_once_with_signal_trap` |
| `SignalMask.dfy` | the thread's signal mask under trap construction and destruction |
| `Descriptors.dfy` | descriptor tables and `ChildProcess::Pipe` |
| `PipeOwnership.dfy` | any number of `Pipe` objects under any sequence of operations |
| `Fork.dfy` | `fork`, the child's redirections, and the construction of the returned handle |
| `Isolation.dfy` | who holds the ends of a child's pipes, over any run of any processes |
| `Handles.dfy` | shared handles and the SIGKILL of the last drop |
| `ObservedHandles.dfy` | the observer's map and the handles together: what erasing an entry kills |
| `CrossProcessSync.dfy` | the pipe semaphore: what its users see, and the code over bytes that refines it |
| `ExecEnvironment.dfy` | `exec`'s argv and envp against `env::for_each` |

## How the code is modelled

Death observation runs on several threads, so it appears twice.  `Observation` is a
transition system whose steps are single system calls, lock operations and updates made
under the lock; `waitpid` in `on_sig_child` is one step and taking the lock is a later one,
whereas `add` inserts, probes, emits and erases while it holds the lock.  `ObserverCode` is
the code itself: methods with the source's branches and loops that call `Do` for each
statement and let arbitrary steps of all other threads, children and `stop` callers happen
in between (`Others`).  A ghost trace ties the two together: a `Program` is valid when its
state is reached by a run of the transition system, every method keeps it valid, and so the
theorems hold at every point of the code.

Assumptions of the observation model: SIGCHLD is blocked in every thread; one thread calls
`run`; only the observer reaps observed children (`include/core/posix/child_process.h:49-53`);
pids are not reused; slots do not call the observer.  A child is created in the caller's
process group and may leave and rejoin it while it is alive.  Signals coalesce while pending (section 2.4.1 of POSIX.1-2017
System Interfaces).  A `waitpid` with WNOHANG for one pid is not interrupted, as on Linux;
`waitpid(0, ..)` may be.  Children may have died before the observer was created, with their
SIGCHLD pending or discarded.

Descriptors are allocated lowest-first (section 2.14 of POSIX.1-2017 System Interfaces) in a
table of `limit` slots, so `pipe` and `dup` fail when the table is full and unchecked failures
of `dup` behave as they do in the code.  `Process.Close` requires an open descriptor; every
`close` in the library is proved to meet that.

Where the code differs from its documentation or from what one would expect, the model
follows the code:

- `child_died` is documented to be emitted whenever an observed child ceases to exist.
  `waitpid(0, ..)` sees only the caller's process group.  `DeathAnnouncedExactly` says which
  deaths of observed children are announced: those of children that are in the group when
  they die or whose `add` has still to call `waitpid`.  `AnnouncedUnlessMissed` says the same
  of all registrations of a dead child, `OutsideGroupNeverAnnounced` that the others are
  never announced, and `MissedDeath` gives a run with such a death.
- A trap's destructor does not restore the mask; `ConstructAndDestroy` says when it does and
  `MaskNotRestored` gives a mask and a trap for which it does not.
- End-of-file isolation as stdout and stderr have it fails for stdin: `StdinHeldBySibling` is
  a run in which a later child keeps an earlier one's stdin open after the parent closed it.
  `InheritedExactly` says when a fork hands the write end on (exactly when the forking
  process holds it at a descriptor that the child does not redirect), `IsolatedStdin` that
  the parent stays the only holder if and only if no fork hands it on, and `StdinEndOfFile`
  that the child's own lineage never holds its stdin open.
- When the observer's entry is the last handle, erasing it sends SIGKILL to a pid that has
  already been reaped; `EraseKillsReaped` says exactly when, `KillFollowsReaping` that an
  observed child gets no such signal any earlier.
- A parent with none of descriptors 0 to 2 open that redirects stdin but not stderr gives the
  child a descriptor 2 that is the read end of its stdin pipe (`RunChild`).
- Assigning a `Pipe` or a `CrossProcessSync` to itself loses the pipe.
- `Private`'s parameter names are rotated twice (`src/core/posix/child_process.cpp:277-281`,
  `307-309`, `337`); `MakePrivate` and `MakeChildProcess` keep both rotations.
- `for_each` reports a line without `=` as both name and value.

## Model

| member | source | states |
|---|---|---|
| ObservationInvariant.StepInv | src/core/posix/child_process.cpp:65-139 | every step of children, signals, `run`, `add` and `on_sig_child`, in any interleaving, keeps mutual exclusion, the announcement account, the wake-up token, the pursuit of reaped observed pids, dispatch order and the stop account |
| ObservationTheorems.NoLostWakeUp | src/core/posix/signal.cpp:132-175 | an observed zombie of the group that no `add` is about to probe has a SIGCHLD pending, read and undispatched, or `on_sig_child` still before its last `waitpid`; a loop in `poll` is then woken |
| ObservationTheorems.EveryZombieWakes | src/core/posix/signal.cpp:132-175 | the same for every zombie, observed or not, from any state in which it holds, such as a start without discarded SIGCHLDs |
| ObservationTheorems.AnnouncementBalance | src/core/posix/child_process.cpp:70-91 | while the mutex is free, insertions equal announcements plus the map, as multisets of pids |
| ObservationTheorems.AnnouncementSoundness | src/core/posix/child_process.cpp:81-87 | `child_died` is emitted for a pid only once per step and only when the pid is reaped or never was a child |
| ObservationTheorems.RegistrationSoundness | src/core/posix/child_process.cpp:72-76 | a pid is registered exactly when a thread in `add` inserts it and finds it absent, refused exactly when it finds it present |
| ObservationTheorems.ExactlyOnceAtQuiescence | src/core/posix/child_process.cpp:65-139 | at rest what is still observed is alive or a zombie outside the group, everything else was announced as often as registered, one `add` of a group child that died gave one announcement |
| ObservationTheorems.DispatchFidelity | src/core/posix/signal.cpp:150-174 | emissions are the dequeued signals in order, less what is left of a batch of at most five; at every moment, dispatching included, every raise of a trapped signal is pending, in what is left of the batch, or followed by an emission; the read after `poll` cannot fail |
| ObservationTheorems.RaiseIsAnswered | src/core/posix/signal.cpp:150-162 | whatever happens after a trapped signal was raised, by anybody or by a death, it is pending, in the batch, or has been emitted since |
| ObservationTheorems.NoSpuriousEmission | src/core/posix/signal.cpp:150-162 | over any run a signal is emitted at most as often as it was raised, plus once if it was pending at the start |
| ObservationTheorems.HandlerFollowsEmission | src/core/posix/child_process.cpp:45-57 | the loop enters `on_sig_child` exactly when it emits SIGCHLD |
| ObservationTheorems.OnlyTrappedEmitted | src/core/posix/signal.cpp:156-161 | a dequeued signal is emitted if and only if the trap is one for it |
| ObservationTheorems.StopAccounting | src/core/posix/signal.cpp:165-185 | the `stop` calls of a run are the drained values plus the counter; an outstanding one wakes the loop; a return on stop drains all of them with nothing left to emit |
| ObservationProgress.OwnDecreases | src/core/posix/signal.cpp:132-175 | every step of the library's own code lowers one measure, so it cannot go on for ever without new events |
| ObservationProgress.CallsContinue | src/core/posix/child_process.cpp:70-139 | deadlock freedom: a call in progress, or the holder of the mutex it waits for, can always go on |
| ObservationProgress.EventuallyAnnounced | src/core/posix/child_process.cpp:105-139 | with `run` active and no stop outstanding, every run of the library's own steps is bounded and ends with every registration of a dead group child announced |
| ObservationProgress.WorkIsBounded | src/core/posix/signal.cpp:132-175 | in any run, while children come and die and calls keep coming, the library takes at most a fixed number of steps of its own per step of the others, beyond its initial measure |
| ObservationProgress.StopReturns | src/core/posix/signal.cpp:132-185 | with a stop outstanding every run of the library's own steps is bounded and ends with `run` returned, every stop consumed and every dequeued signal emitted |
| ObservationProgress.StopEndsRun | src/core/posix/signal.cpp:165-185 | one `stop` makes a running `run` return, whatever it was doing, and exactly the outstanding stops and this one are drained |
| ObservationProgress.AnnouncedUnlessMissed | src/core/posix/child_process.cpp:65-139 | for a dead child at any moment and any run to rest, all its registrations have been announced if and only if it was not then observed, outside the group and in no call's hands |
| ObservationProgress.DeathAnnouncedExactly | src/core/posix/child_process.cpp:105-139 | the death of an observed child is announced by the time the library rests if and only if the child is in the group when it dies or its `add` has still to call `waitpid` |
| ObservationProgress.OutsideGroupNeverAnnounced | src/core/posix/child_process.cpp:110 | a dead observed child outside the group is never announced and never leaves the map, in any run |
| ObservationProgress.MissedDeath | src/core/posix/child_process.cpp:110 | a run to such a death: a child is forked, registered, leaves the group and dies |
| ObserverCode.LockIsReleased | src/core/posix/child_process.cpp:126-137 | whoever holds the mutex releases it by its own steps alone |
| ObserverCode.OthersRun | src/core/posix/child_process.cpp:105-139 | steps of others keep the invariant and a thread's place, and raise the number of unreaped children of the group only by new arrivals in it |
| ObserverCode.Settle | src/core/posix/child_process.cpp:129-136 | an observed child dead at an earlier point and reaped since has been announced and removed, or another call is about to do so |
| ObserverCode.Program.Add | src/core/posix/child_process.cpp:65-92 | under interference: true for a child that this thread's own step inserted and found alive at its own `waitpid`; false for pid -1, for a pid that its own insertion found present, and for one that it inserted, found gone and announced; no other case |
| ObserverCode.Program.OnSigChild | src/core/posix/child_process.cpp:105-139 | terminates though children keep dying, leaves no zombie in the group, and settles every observed child dead at entry |
| ObserverCode.Program.CallHandler | src/core/posix/child_process.cpp:105-139 | the same for a direct call from any thread |
| ObserverCode.Program.HandleReady | src/core/posix/signal.cpp:150-174 | dequeues at least one signal if the signalfd was reported, emits all it dequeued in order, reaps every zombie from before if SIGCHLD was among them, and returns on the eventfd |
| ObserverCode.Program.Turn | src/core/posix/signal.cpp:126-175 | one turn: leaves the loop only on a failed `poll` or a consumed stop, consumes a stop that was there, dequeues if something was readable, settles the observed children that were dead if SIGCHLD was dequeued |
| ObserverCode.Program.RunLoop | src/core/posix/signal.cpp:101-178 | given which `poll` calls work, `run` makes one turn after another, each with that effect, and goes on as long as it is not left |
| ObserverCreation.SingleCreation | src/core/posix/child_process.cpp:155-179 | over every interleaving at most one observer exists or is being built, the flag says which, every call was refused, failed, made the observer or is in progress, refusals happen only while one exists or is being built, and a failed construction can be retried |
| ObserverCreation.CreatedIfTrapped | src/core/posix/child_process.cpp:59-62 | a call that finds no observer makes one if and only if its trap is one for SIGCHLD; otherwise it restores everything |
| SignalMask.ConstructAndDestroy | src/core/posix/signal.cpp:57-94 | destroying a trap restores the mask exactly if it blocked nothing new |
| SignalMask.MaskNotRestored | src/core/posix/signal.cpp:57-94 | on a thread that blocks nothing, SIGCHLD stays blocked after the trap's destruction; SIGKILL, SIGSTOP and numbers that are no signals never are |
| SignalMask.Program.PerformAll | src/core/posix/signal.cpp:32-94 | after any constructions and destructions the mask is the initial one plus every blockable signal ever trapped |
| Descriptors.LowestFreeBound | src/core/posix/child_process.cpp:203 | a table of n descriptors has a free one at or below n, which turns room by count into success of `pipe` and `dup` |
| Descriptors.Process.CopyPipe | src/core/posix/child_process.cpp:209-216 | the copy owns new descriptors only, each for the same end as the original's, and lacks one only if the table was full when its turn came |
| Descriptors.Process.AssignPipe | src/core/posix/child_process.cpp:254-271 | the old ends are closed and those of the right side shared; self-assignment loses the pipe |
| PipeOwnership.Added | src/core/posix/child_process.cpp:201-216 | a new pipe on new descriptors keeps one owner per descriptor |
| PipeOwnership.Removed | src/core/posix/child_process.cpp:218-224 | destroying a pipe closes what it owned and nothing else's |
| PipeOwnership.Library.PerformAll | src/core/posix/child_process.cpp:201-271 | over any sequence of operations, state by state: each operation has its effect on objects and table (new pipe unless it does not fit, shared ends unless the table is full, closed ends), every descriptor beyond the caller's own has exactly one owner, and whenever no object is left the table is the caller's own |
| Fork.OpenStream | src/core/posix/fork.cpp:64-69 | a failed `pipe` adds nothing; otherwise what is added is exactly what the stream's pipe owns, ends of the new pipe at 2 or above, the read end at 2 exactly in a table without standard descriptors; by count: two free descriptors to make it, a third for the read end, a fourth for the write end |
| Fork.RunChild | src/core/posix/fork.cpp:76-93 | for every parent table: before `main` the selected standard descriptors are the child's ends and the others are what they were, open or closed, except that a parent with none of the three open that selects stdin but not stderr gives the child its stdin pipe at 2 as well; in every case, failed redirections included, redirections are made in order up to the first that fails, the child holds what the parent held wherever it was not redirected, and beyond that exactly its own new ends |
| Fork.MakeChildProcess | src/core/posix/child_process.cpp:277-337 | through both rotations each stream's pipe ends up in its own member |
| Fork.ForkProcess | src/core/posix/fork.cpp:57-120 | an exception leaves the table unchanged; otherwise the handle owns exactly what was added, each end facing the child's standard descriptor of the same pipe; eight free descriptors rule out all failures but that of `fork`; with fewer, in a table whose descriptors are below the limit, it is stated by count exactly when it throws, which redirections are made and which ends the handle has |
| Fork.OneDescriptorPerStream | src/core/posix/fork.cpp:112-119 | a fork adds one descriptor per selected stream |
| Fork.DropHandle | src/core/posix/child_process.cpp:293-310 | dropping the last handle restores the table that was there before the fork |
| Isolation.ForkStep | src/core/posix/fork.cpp:57-120 | a library fork, by its contract alone, confines the write ends of the new output pipes to the child |
| Isolation.EofIsolation | src/core/posix/fork.cpp:112-114 | whatever forks, descriptor operations and exits follow a library fork in all processes, only the child and those that it and its descendants forked hold a write end of its stdout or stderr; once they are gone nobody does |
| Isolation.DescendsRun | src/core/posix/fork.cpp:71 | the lineages recorded in the world are those that the forks of a run make |
| Isolation.InheritedExactly | src/core/posix/fork.cpp:71-93 | of every existing pipe a new child holds a write end if and only if the parent holds one at a descriptor that the child does not redirect |
| Isolation.StdinEndOfFile | src/core/posix/fork.cpp:80-84 | whatever follows a library fork, the child and its descendants never hold a write end of its own stdin, so it reads end-of-file exactly when everybody else has dropped it |
| Isolation.NoNewHolder | src/core/posix/fork.cpp:71 | over any run in which no fork hands a write end of a pipe on, nobody comes to hold one |
| Isolation.IsolatedStdin | src/core/posix/fork.cpp:64-93 | from a library fork on, the parent is at every point the only possible holder of the child's stdin if and only if no fork hands it on |
| Isolation.StdinHeldBySibling | src/core/posix/fork.cpp:112-119 | a run of two forks after which the parent has closed the first child's stdin and the second child still holds it |
| Handles.AssignStep | src/core/posix/child_process.cpp:293-303 | assignment, self-assignment included, keeps reference counts and sends the signal exactly when it destroys the creator's object |
| Handles.ForkYieldsHandle | src/core/posix/child_process.cpp:331-338 | a library fork gives its caller one handle and the child a copy of the others; dropping that handle sends the child SIGKILL |
| Handles.VarsAfter | src/core/posix/child_process.cpp:293-303 | what copies, assignments, drops and plain forks do to a program's handles |
| Handles.KillDiscipline | src/core/posix/child_process.cpp:293-322 | whatever forks, copies, assignments, drops and observer entries follow a library fork, the child gets no destructor SIGKILL while its creator holds a handle, exactly one afterwards, and none from another process |
| ObservedHandles.EraseKillsReaped | src/core/posix/child_process.cpp:81-86 | an entry is erased only after its pid was reaped; that sends SIGKILL if and only if the entry is the last handle in the process that forked the child |
| ObservedHandles.KillFollowsReaping | src/core/posix/child_process.cpp:126-137 | over any joint run of protocol and handles, no destructor of the process sends SIGKILL to a child that is observed, except by erasing its entry as the last handle after reaping it |
| ObservedHandles.ProtocolRun | src/core/posix/child_process.cpp:65-139 | a joint run is a run of the observation protocol |
| ObservedHandles.HandleRun | src/core/posix/child_process.cpp:65-139 | a joint run is a run of the handles, in which every entry is made by a copy and dropped by an erasure |
| CrossProcessSync.WordsAppend | src/core/testing/cross_process_sync.cpp:73-75 | signalling appends one whole word |
| CrossProcessSync.World.TrySignal | src/core/testing/cross_process_sync.cpp:62-76 | writing bytes is a semaphore step: one signal more, or nothing changed with a failed `poll`, a lost end or a full pipe (timeout) or no readers (error, full or not) |
| CrossProcessSync.World.WaitForSignal | src/core/testing/cross_process_sync.cpp:78-99 | reading and decoding bytes is a semaphore step that counts modulo 2^32; short reads and wrong values do not occur, end-of-file only without writers; a failed `poll` changes nothing |
| CrossProcessSync.RunTally | src/core/testing/cross_process_sync.cpp:62-99 | over any run the account of every pipe grows by exactly the signals and collections that callers saw |
| CrossProcessSync.SemaphoreLaw | src/core/testing/cross_process_sync.cpp:62-99 | over any run, in terms of outcomes alone, never more collected than signalled through a pipe and never more outstanding than fit in it |
| CrossProcessSync.CounterLaw | src/core/testing/cross_process_sync.cpp:95-97 | over any run that leaves an object in place its counter grows by exactly the signals collected through it, modulo 2^32 |
| CrossProcessSync.AnswerIsCounter | src/core/testing/cross_process_sync.cpp:95-97 | a collection answers with the counter it leaves, one more than before |
| CrossProcessSync.FreshObject | src/core/testing/cross_process_sync.cpp:32-36 | a new object counts from zero: its first signal is collected as 1 |
| CrossProcessSync.CopyAnswers | src/core/testing/cross_process_sync.cpp:38-42 | a copy signals, collects and counts as its original would, and changes nothing for the others |
| CrossProcessSync.PartialCopy | src/core/testing/cross_process_sync.cpp:38-42 | a copy uses the ends whose `dup` succeeded and can only time out on the others |
| CrossProcessSync.ForkAnswers | src/core/testing/cross_process_sync.cpp:38-42 | the objects of a forked child answer as those of its parent, which stay as they are |
| CrossProcessSync.AssignAnswers | src/core/testing/cross_process_sync.cpp:50-60 | after assignment the left side answers as the right side would; an object assigned to itself can only time out |
| CrossProcessSync.LastWriter | src/core/testing/cross_process_sync.cpp:44-48 | destroying an object makes a waiter on an empty pipe meet its end if and only if it had the last write end |
| CrossProcessSync.FullPipe | src/core/testing/cross_process_sync.cpp:62-76 | a pipe takes 16384 outstanding signals and no more |
| CrossProcessSync.FaithfulRun | src/core/testing/cross_process_sync.cpp:38-60 | unless a `dup` fails or an object is assigned to itself, no call ever meets end-of-file or a broken pipe |
| CrossProcessSync.World.PerformAll | src/core/testing/cross_process_sync.cpp:32-99 | any run of constructions, copies, assignments, destructions, forks, signals and waits ends in the semaphore's state with the semaphore's events, with accounts that match them and no misread |
| ExecEnvironment.BuildArgv | src/core/posix/exec.cpp:50-59 | program, arguments, null, filling the array exactly |
| ExecEnvironment.BuildEnv | src/core/posix/exec.cpp:61-67 | one `name=value` line per entry, cut at a NUL, then null |
| ExecEnvironment.CString | src/core/posix/exec.cpp:64 | the copied string is the part before the first NUL |
| ExecEnvironment.ForEach | src/core/posix/this_process.cpp:55-66 | the calls made of the functor, one per line up to the null |
| ExecEnvironment.Split | src/core/posix/this_process.cpp:61-63 | a line is cut at its first `=`; one without `=` is both name and value |
| ExecEnvironment.WalkUpToNull | src/core/posix/this_process.cpp:55-66 | one call for each line up to the first null, in order |
| ExecEnvironment.EntryRoundTrip | src/core/posix/this_process.cpp:61-63 | an entry survives exactly when its name has no `=` or NUL and its value no NUL |
| ExecEnvironment.EnvironmentRoundTrip | src/core/posix/exec.cpp:61-67 | the walked array gives back the environment if and only if every entry is such |

## Left out

- `vfork`: the child changes the parent's `Pipe` objects through shared memory.
- `fork_and_run` and `wait_for`: decoding of a finite status word; it would add only easy members.
- `env` get, set and unset, `Process`, `ProcessGroup`, `Signalable`, flag operators: single calls.
- `ChildProcess::invalid()`: its handle carries pid 1 and would need special cases in `Handles`.
- `SignalTrap::has` on numbers that are no signals, where `sigismember` answers -1.
- `/proc` readers, backtraces, boost stream buffers and the slot machinery: an emission is an entry in a history.
- Exceptional exits of `run()`, two threads in `run()`, and the check-then-set of its state flag.
- Timeouts: a timeout is an outcome that changes nothing; durations are not modelled.
- ObserverCode.Program.RunLoop: follows `run` for any given number of turns, because `run` need not return.
- Handles: memories are values, copied by a fork; update in place is modelled only within one step.
- CrossProcessSync.World.WaitForSignal: `poll` and `read` are one step, so a reader that blocks because another took the word is one that waits longer.
- CrossProcessSync.World.TrySignal: `poll` and `write` are one step, and a pipe is full when its bytes are, where Linux counts page-sized buffers; SIGPIPE, which a write without readers raises before it fails, is taken to be ignored.
- CrossProcessSync.AssignAnswers: end-of-file and broken pipes only for a right side that holds both ends, because overwriting the left side may close the only other one.
- Isolation: a library fork is one step of the world, from the call to its return in the parent.
