# simplesched: the coroutine scheduler, modelled and proved

simplesched runs coroutines on a fixed number of threads. Every thread has a `Processor`; all
processors share one bounded ready queue and one atomic work counter, and a thread stops when
its pop, its slab and the counter all say that nothing is left. Coroutine handles are `Copy`
raw pointers, so nothing in the language keeps a coroutine from being queued twice, run by two
threads, dropped twice or forgotten: that rests on the protocol alone. A `Mutex` which spins by
yielding to the scheduler sits on top.

This project models that protocol, the scripts that run under it and the single-threaded
implementation of it, and proves what the source promises of each. `dafny verify dfyconfig.toml`
checks all of it.

## How the model is built

1. **The protocol** (`Protocol.dfy`): N processors as a transition system. Each processor has a
   program counter and the fields of the source (`cur_running`, `last_result`, `new_spawned`, the
   slab, the stack pool). Every access to shared state is one event, so any interleaving of the
   threads is a sequence of events: `fetch_add` and the creation of the coroutine are two events,
   as are `fetch_sub` and the drop, and the three termination checks. A running coroutine may do
   anything; I/O events may be duplicate, stale or unknown. Addresses may be reused after a drop;
   coroutines are told apart by birth number. `Ownership.dfy` and `Invariant.dfy` hold the
   inductive invariant; `Safety.dfy`, `LifeCycle.dfy`, `Fairness.dfy`, `Capacity.dfy`,
   `Stacks.dfy` and `Segments.dfy` what follows from it for every run.
2. **Scripts** (`Programs.dfy`): coroutines with code. A script is a tree of actions: yield,
   spawn a script, wait for I/O, lock, try_lock, unlock, load, store, panic. Its continuation
   keeps the loop counter of `lock` and the place inside the loop of `Guard::drop`; locking is
   one compare-and-swap per step, so other coroutines and other processors run in between.
   A run of scripts is proved to be a run of the protocol. `Traces.dfy`, `MutexLaws.dfy`,
   `MutexRaces.dfy`, `LostUpdate.dfy`, `RetryBound.dfy`, `LockCalls.dfy`, `Actions.dfy`,
   `Waiting.dfy`, `Work.dfy`, `Endings.dfy`, `Population.dfy` and `Liveness.dfy` are about such
   runs. `Switching.dfy` refines them: a context is loaded from the coroutine's box when it is
   resumed, worked on by the processor and written back by the next switch, so that a coroutine in
   two hands would repeat its actions, as `Repeats.dfy` shows. Under the protocol the two semantics
   are proved to have the same runs. `Premises.dfy` says what the protocol depends on.
3. **One processor, imperatively** (`Runtime.dfy`): classes `Scheduler`, `Mutex` and `Processor`
   with the fields of the source and the loops of `ready`, `Guard::drop`, `resume`, `schedule` and
   the event batch. The methods log the moves they make in a ghost field, and the invariant `Valid`
   says that this log is a run of the scripts from the start which ends in exactly the present field
   values, and that each poll in it has brought the next answer of the event source
   (`Environment.dfy`): the implementation refines layers 1 and 2, so their theorems hold of it.
   `Work.dfy` has the termination measure, `Moves.dfy` the moves of a single processor spelled out,
   and `Wakeups.dfy` what a batch of events wakes.

An entry of a trace says which coroutine performed which action and whether the action panicked.
`hide` in a proof keeps a definition that the proof does not need from the solver.

## Premises

What a promise of the code depends on is stated exactly, as an equivalence over whole runs.

- Every live coroutine has exactly one owner in every state of a run if and only if no registration
  with the event loop fails and no coroutine is created while `new_spawned` of its processor is full
  (`RunOwnedIff`; step by step, `StepOwnedIff`). Nothing else is asked: coroutines may be launched on
  any thread at any time. Whether the slot is full can be seen before the call; whether a registration
  succeeds cannot. The slot can be full because `sched` does nothing when no coroutine runs
  (`src/processor.rs:87-94`, `src/processor.rs:157-165`). `TopSpawnDecides` and `RegistrationDecides`
  are the two calls by themselves; `WitnessLostSpawn` is a run in which a coroutine spawned by a
  coroutine overwrites a launched one.
- What a processor concludes from a zero counter stays true if and only if no coroutine is launched
  from outside any more (`BreakHoldsIff`). `Protocol.Orderly` is the usage that the results about exits
  and about the loop head assume: one launch, before any thread schedules, and registrations that
  succeed. Results about ownership and counting need `Protocol.Harmless` only.
- The slab insert of `wait_event` comes before the registration and is not undone when that fails
  (`src/processor.rs:203-207`). From then on the thread cannot leave its loop except by an I/O error,
  whatever else happens, as long as no event arrives for the token that was refused (`FailureTraps`).
  If the event loop reports that token all the same, the coroutine can be queued twice
  (`WitnessQueuedTwice`) and two processors perform one action of it twice (`WitnessRepeats`) or finish it
  twice (`WitnessWrap`).
- The mutex excludes exactly as long as no release is a steal (`ExclusiveIff`), although its
  documentation promises exclusion without a condition (`src/sync/mutex.rs:37`,
  `src/sync/mutex.rs:52`). On one processor that is so if and only if no lock and no try_lock
  fails while the flag is set (`OneProcessorIff`). With two processors it can fail
  without any failure (`UnlockRaces`, `WitnessRace`), since `Guard::drop` repeats its
  compare-and-swap after a successful one; and a failed `lock` or `try_lock` hands out a guard
  that was never acquired, whose drop releases somebody else's lock (`FailureReleases`). The program
  of the repository's own test, on two threads, can return without error and without a panic and
  still have lost an increment (`WitnessLostUpdate`).

The documentation of `Processor::spawn_opts` says that the new coroutine runs immediately
(`src/processor.rs:86`); in the code it runs when the spawner has yielded and has been queued
(`ChildRunsNext`).

## Model

| member | source | states |
|---|---|---|
| Invariant.InvStep | src/processor.rs:87-243 | Every legal event of every processor keeps the whole invariant: unique ownership, registers that agree with the program counter, exact counting, births and drops in balance |
| Safety.ExclusiveOwner | src/scheduler.rs:42-59 | In every state of every run without a failed registration and without a creation into a full slot, for any number of processors and launches at any time, a coroutine is live if and only if exactly one place owns it: the queue, one slot, one processor's hand or one slab entry; the queue has no duplicates |
| Safety.NeverTwice | src/processor.rs:101-215 | In every such state a coroutine that a processor works on is not queued, not in any slot, not worked on by another processor, and in a slab only if it is inside that processor's own wait, under the token of that wait |
| Safety.ExitDecides | src/processor.rs:119-132 | The three non-atomic checks decide safely: a processor that has left its loop by the break knows that then and ever after nothing is queued, parked, handed over or running; one that left by an I/O error knows that work remains and that nobody else can break |
| Safety.RunReturns | src/scheduler.rs:128-149 | When all threads of run have returned without error, no coroutine is left and every one ever spawned was dropped exactly once |
| Safety.CounterExact | src/scheduler.rs:100-125 | The counter is exactly the number of coroutines in memory, plus spawns between add and create, minus finishes between subtract and drop, in every state of every such run, whatever the interleaving |
| Safety.CounterCovers | src/scheduler.rs:100-110 | The counter is never less than the number of live coroutines that are not being dropped, so it is zero only when no work is left |
| Safety.CounterNeverWraps | src/scheduler.rs:101 | fetch_sub lowers the counter by one and never wraps around below zero |
| Safety.ZeroStep | src/scheduler.rs:108-110 | A zero counter stays zero except by a new top-level spawn |
| LifeCycle.TrailingLoopUnreachable | src/coroutine.rs:56-58 | The loop after the final yield of a coroutine is never reached |
| LifeCycle.ResultIsOwn | src/processor.rs:144-154 | When resume looks, last_result holds the value of that very coroutine's latest yield; the default is never used |
| LifeCycle.ExecutionIsClean | src/processor.rs:49-57 | cur_running is set exactly while a coroutine executes, and then last_result and new_spawned are empty, so no result is lost and no child overwritten |
| LifeCycle.ResultIsThere | src/processor.rs:144-154 | last_result is present exactly between a switch back to main_coro and its taking by resume |
| LifeCycle.EndIsFinal | src/coroutine.rs:37-54 | A coroutine that has returned or panicked is never executed again by any processor, even after its address is reused |
| LifeCycle.FreedWasOver | src/scheduler.rs:100-105 | Only coroutines that have ended are dropped, each once |
| Segments.ChildRunsNext | src/processor.rs:86-137 | Over any stretch of any run: a processor that holds a spawned child pops nothing and pushes nothing but the parent until it resumes something, and what it resumes first is the child, after the parent was queued |
| Segments.SlabIsInjective | src/processor.rs:203-213 | In every reachable state a coroutine waits under one token only |
| Segments.BatchWakesOnce | src/processor.rs:229-243 | For N processors and any interleaving, from the delivery of a batch until it is handed out, the processor queues exactly the coroutines whose tokens are in it, each once, and leaves every other entry of its slab |
| Fairness.FifoTaken | src/processor.rs:120-123 | A coroutine at queue position k is taken by the (k+1)-th pop, whichever processors pop and whatever is pushed |
| Fairness.PushSucceeds | src/scheduler.rs:66-90 | With at most 4096 coroutines alive the first push of ready succeeds, in every reachable state of any number of processors |
| Capacity.PushDecides | src/scheduler.rs:66-90 | In every reachable state a push appends its handle if and only if fewer than 4096 coroutines are queued, and otherwise changes nothing; never are more queued |
| Capacity.WitnessFull | src/scheduler.rs:66-90 | That bound is reached: a run on one processor after which 4096 coroutines are queued and ready spins |
| Fairness.WorkIsSomewhere | src/processor.rs:119-137 | With N processors, counted work with an empty queue is in some processor's hand, slot or slab, or between count and create or subtract and drop |
| Fairness.SleepsOnlyAtBoot | src/processor.rs:124-131 | On one processor, a counted coroutine with queue and slab empty is the top-level one in new_spawned that has not run yet: the loop cannot sleep for ever |
| Fairness.RoundRobin | src/processor.rs:101-137 | Two coroutines that stay runnable on one processor are resumed in strict alternation over any run, whatever else is spawned, woken or finished |
| Fairness.TurnOfOne | src/scheduler.rs:83-90 | Of any two runnable coroutines it is always the turn of one, so that alternation starts from every state |
| Stacks.StacksConserved | src/coroutine.rs:77-108 | Every stack ever mapped is in exactly one pool or owned by exactly one live coroutine, across threads |
| Stacks.PooledStacksAreIdle | src/coroutine.rs:96-108 | No pool holds the stack of a coroutine that any processor works on |
| Environment.MappedWhileAlive | src/coroutine.rs:77-108 | Where a new coroutine takes a stack from the pool of its thread if there is one, on one thread, there was a moment at which as many coroutines were alive as stacks have ever been mapped |
| Premises.RunOwnedIff | src/processor.rs:86-213 | For any number of processors, any interleaving and launches on any thread at any time: every live coroutine has exactly one owner in every state of a run if and only if no registration in it fails and no coroutine is created while new_spawned of its processor is full |
| Premises.StepOwnedIff | src/processor.rs:86-213 | From a state in which every live coroutine has one owner and the registers agree with the program counter, one step of any kind leaves every live coroutine with one owner if and only if it is neither a failed registration nor a creation into a full slot |
| Premises.BreakHoldsIff | src/scheduler.rs:108-110 | After a state with a zero counter, nothing is queued, parked, handed over or running in any later state if and only if no coroutine is launched from outside any more |
| Premises.FailureTraps | src/processor.rs:203-237 | After a failed registration, whatever follows on any processor, the entry stays in the slab and the thread neither checks the counter nor leaves its loop, unless an event arrives for the refused token or its event loop fails |
| Premises.RegistrationDecides | src/processor.rs:190-207 | Whenever fewer than 102400 coroutines are parked on its thread, wait_event keeps every coroutine owned when registration succeeds and breaks it, for every state and token, when registration fails |
| Premises.TopSpawnDecides | src/processor.rs:87-94 | Right after a spawn from outside any coroutine every live coroutine has one owner if and only if the slot of the thread was empty before |
| Premises.WitnessLostSpawn | src/processor.rs:87-94 | A run of two threads with one top-level spawn each after which a live coroutine is nowhere |
| Programs.PlayRefines | src/processor.rs:118-188 | Every run of scripts is a run of the protocol with the same state |
| Traces.GoodStep | src/processor.rs:101-188 | Every move keeps continuations, births, ends and the trace in agreement |
| Switching.OperateIffPlay | src/processor.rs:144-188 | Contexts that are loaded by a resumption and saved by a switch allow the same moves and yield the same states as continuations shared by all processors: no processor loads a stale context or one that another has loaded |
| Switching.ActionsInOrder | src/coroutine.rs:91-93 | With contexts loaded and saved at every switch, on any number of processors, the actions of each coroutine in the global trace are a prefix of its script, in order: nothing is skipped, repeated or reordered |
| Repeats.QueuedTwiceRepeats | src/processor.rs:144-148 | In every state in which a coroutine is queued twice, two processors that pop next load its context twice and both perform the one action at which it stands |
| Repeats.AttemptsRefine | src/processor.rs:203-213 | Every run of scripts in which registrations may fail is a run of what the code can do |
| Repeats.WitnessQueuedTwice | src/processor.rs:203-237 | A run with one failed registration and one event that the event loop nevertheless reports for the refused token, after which the queue holds the same coroutine twice |
| Repeats.WitnessRepeats | src/processor.rs:203-237 | From the start: if a registration fails and the event loop also reports the refused token, two processors perform an action that the script contains once |
| Repeats.WitnessWrap | src/scheduler.rs:100-105 | From the same queue, two processors finish the coroutine both: the second fetch_sub wraps the counter around to 2^64 - 1 |
| Traces.NeverStuck | src/coroutine.rs:37-43 | A coroutine that is in its own code always has a defined next step |
| Traces.RunCompletes | src/scheduler.rs:128-149 | When all threads have returned, every script, nested spawns included, has been performed to its end, or up to an action that did panic and no earlier one |
| MutexLaws.ExclusiveIff | src/sync/mutex.rs:53-95 | For any number of processors, a step keeps the flag set exactly while one guard is live if and only if it is not a release of a lock that is not its own |
| MutexLaws.NoLostUpdates | src/sync/mutex.rs:53-110 | As long as no release steals, the flag is set exactly while one guard is live, and the data is its initial value plus the number of stores, for any interleaving of disciplined scripts |
| MutexLaws.OneProcessorIff | src/sync/mutex.rs:53-95 | On one processor, in every run: no lock and no try_lock has failed while the flag was set if and only if no release has been a steal and none is about to be |
| MutexLaws.OneProcessorSafe | src/sync/mutex.rs:91-95 | In particular no release steals while no lock has exhausted its retries and no try_lock has failed |
| MutexLaws.StoresConserved | src/sync/mutex.rs:161-181 | Stores performed plus stores outstanding are the stores of the launched scripts, in every state |
| MutexLaws.EveryStoreCounts | src/sync/mutex.rs:161-181 | When all threads have returned, no release was a steal and nobody has panicked, the data has grown by exactly the number of stores written in the scripts, for any number of threads |
| MutexRaces.FailureReleases | src/sync/mutex.rs:62-71 | In every state in which a lock or try_lock fails on a held lock and its error is unwrapped, two steps clear the flag while the holder's guard is live |
| MutexRaces.UnlockRaces | src/sync/mutex.rs:91-95 | Whenever one processor is about to drop a guard and another about to lock, three steps break exclusion without any failed lock |
| MutexRaces.WitnessRace | src/sync/mutex.rs:91-95 | Such a state is reachable with two processors: a concrete run to it and through the race |
| LostUpdate.WitnessLostUpdate | src/sync/mutex.rs:161-181 | The program of the test with two coroutines of two increments on two threads: a run in which both threads return without error, nobody failed to lock or panicked and the lock is free, and the total is three |
| RetryBound.FailuresBounded | src/sync/mutex.rs:53-63 | On one processor, during one hold no other coroutine fails to lock more often than the holder yields |
| RetryBound.HoldCannotExhaust | src/sync/mutex.rs:35-63 | A hold with fewer than POISON_RETRY_COUNT yields cannot exhaust a lock begun in it |
| LockCalls.LockAnswers | src/sync/mutex.rs:53-63 | What each attempt of lock answers, in every run on any number of processors: with the flag clear it takes the lock, with the flag set it yields, and after 102400 failed attempts it panics without taking the lock, whether the flag is set or clear |
| LockCalls.LockPanicsIff | src/sync/mutex.rs:35-63 | A lock call panics if and only if it has failed 102400 times |
| LockCalls.CallFailsCounted | src/sync/mutex.rs:53-60 | The failed attempts of a lock call are among the failures of its coroutine in the run |
| LockCalls.HoldCannotPanic | src/sync/mutex.rs:35-63 | On one processor, while a holder yields fewer than 102400 times, no lock call that another coroutine begins meanwhile panics |
| Actions.PanicsIff | src/sync/mutex.rs:53-72 | When a performed action panics, exactly, in every run on any number of processors: a throw always, a wait if 102400 are parked on its thread, a lock after 102400 failed attempts, a try_lock if the flag is set, and nothing else |
| Actions.SwitchesIff | src/processor.rs:86-215 | A performed yield or spawn leaves its coroutine suspended, a wait that does not panic parks it, and no other action gives the processor away; the child of a spawn has the spawned script |
| Actions.YieldsIff | src/processor.rs:157-165 | A coroutine gives its processor away and remains runnable by nothing but a yield, a spawn or a failed attempt to lock a set flag |
| Actions.EndsAsThrown | src/coroutine.rs:37-54 | A coroutine ends as panicking if and only if the last action that it performed has panicked, and else with its script performed in full; its guards are dropped first |
| Actions.StoresLastRead | src/sync/mutex.rs:97-108 | A store writes one more than its coroutine found at its latest load, whoever has stored meanwhile; nothing else writes the data, and only lock, try_lock and unlock touch the flag |
| Wakeups.WokenExactly | src/processor.rs:229-243 | A batch of events wakes a coroutine if and only if its token is waited for and occurs in the batch |
| Wakeups.WokenCounts | src/processor.rs:229-243 | The slab shrinks by exactly the number of coroutines queued |
| Wakeups.WokenOnce | src/processor.rs:229-243 | Where every coroutine waits under one token, as in all reachable states, no coroutine is queued twice by one batch, whatever duplicate, stale or unknown tokens it contains |
| Waiting.SlabBounded | src/processor.rs:190-194 | No processor ever has more than 102400 coroutines parked |
| Waiting.WaitThrowsIff | src/processor.rs:203-213 | A wait panics if and only if 102400 other coroutines are parked on its thread at that moment; otherwise its coroutine is in the slab, under a token that nobody else waits for |
| Waiting.WaitsSucceed | src/processor.rs:190-207 | Where at most 102400 coroutines are ever born, on any number of processors, no wait panics |
| Work.UserSaves | src/processor.rs:118-141 | Every step of a coroutine leaves less work, on any number of processors |
| Work.KernelSaves | src/processor.rs:118-141 | No move of the scheduler adds work, and every resumption, wake-up and drop leaves less |
| Work.WorkIsBounded | src/processor.rs:118-141 | The steps of coroutines, resumptions, wake-ups and drops of a run are bounded by the launched scripts, for any number of processors and without assuming fairness, stolen locks included |
| Liveness.FairRunsReturn | src/processor.rs:118-141 | For any number of processors: from every reachable state after the launch in which no event loop has failed, every infinite run in which no thread is left out for ever, each poll wakes somebody and at most GLOBAL_QUEUE_SIZE coroutines are alive at any time reaches the clean return of all threads |
| Liveness.FairRunsComplete | src/scheduler.rs:128-149 | By then every coroutine, nested spawns included, has performed its script to its end or up to a panic, and none is left in memory |
| Liveness.CanAct | src/processor.rs:118-188 | In every such state each thread that has not left its loop has a move, so there is no deadlock and such infinite runs exist |
| Liveness.CanReturnIff | src/scheduler.rs:128-149 | From a reachable state after the launch, of scripts that cannot have more coroutines than the queue holds, there is a continuation in which all threads return without error if and only if no event loop has failed so far |
| Endings.TameRun | src/sync/mutex.rs:53-63 | On one processor, scripts that do not yield inside a critical section never fail to lock |
| Endings.CleanTotal | src/sync/mutex.rs:161-181 | After a clean end of a launched script in which nobody panicked, all its stores and those of all it spawned have counted and the lock is free |
| Endings.ErrorEnd | src/processor.rs:126 | A processor that stops with an I/O error leaves somebody parked |
| Environment.FittingAt | src/processor.rs:126 | In a run whose log fits an event source, the k-th poll brings the k-th answer of the source to the slab of that moment |
| Environment.ErrorIff | src/processor.rs:126 | In such a run the thread has left its loop with an I/O error if and only if the source has answered some call with one |
| Endings.SpinningEnd | src/scheduler.rs:83-90 | ready can only spin while more coroutines are alive than the queue can hold |
| Endings.CounterTotal | src/sync/mutex.rs:164-178 | The program of the test, for any number of coroutines and increments, is disciplined, never yields inside a critical section and contains their product of stores |
| Population.CounterShape | src/sync/mutex.rs:164-174 | It spawns exactly the given number of coroutines, each with exactly the given number of rounds of lock, read, write and release and without children |
| Population.BornBudget | src/scheduler.rs:120-125 | Coroutines born plus spawns outstanding are those that the launched scripts are good for, in every state |
| Population.AllBorn | src/scheduler.rs:120-149 | When all threads have returned and nobody has panicked, exactly the coroutines that the launched scripts spawn have been born |
| Population.LiveWithinBudget | src/scheduler.rs:66 | No more coroutines are ever alive than the launched script can spawn, itself included |
| Population.LiveWithinPeak | src/processor.rs:135-137 | On one processor two coroutines at most are alive where each child runs to its end before its parent goes on, however many there are |
| Population.WaitlessRun | src/processor.rs:203-213 | Where no script waits for I/O, no processor ever has anybody in its slab |
| Population.CounterIsShallow | src/sync/mutex.rs:164-178 | The program of the test never waits, and each of its children runs to its end at once |
| Runtime.Scheduler.Ready | src/scheduler.rs:83-90 | The spin loop pushes at once or, as long as nobody pops, never, and keeps the handle in every case |
| Runtime.Processor.YieldWith | src/processor.rs:179-187 | Takes cur_running and sets last_result, or does nothing when no coroutine runs |
| Runtime.Processor.StepCoroutine | src/sync/mutex.rs:53-95 | Every kind of action keeps the fields those of a logged run and leaves less work |
| Runtime.Processor.DropLoop | src/sync/mutex.rs:91-95 | The release loop ends, keeps the fields those of a logged run and leaves the coroutine running outside it |
| Runtime.Processor.Resume | src/processor.rs:144-154 | Runs the coroutine until it switches back and returns the value of its yield, never the default |
| Runtime.Processor.RunTask | src/processor.rs:101-115 | By the result of the coroutine: it is queued last, or is in the slab, or is gone from memory; the queue is otherwise as it was, and less work is left |
| Runtime.Processor.HandleEvent | src/processor.rs:229-243 | Removes the token's entry, if any, and queues exactly that coroutine; other entries stay |
| Runtime.Processor.RunOnce | src/processor.rs:126 | Asks the event source once, for its next answer; after a batch, the slab has exactly the entries whose tokens were not in it and the queue exactly the woken coroutines in addition |
| Runtime.Processor.CheckCounter | src/processor.rs:127-131 | Breaks if and only if the counter is zero; otherwise new_spawned is full |
| Runtime.Processor.Drain | src/processor.rs:135-137 | Runs spawned coroutines until the slot is empty; the queue only grows meanwhile, so nothing is popped |
| Runtime.Processor.Schedule | src/processor.rs:118-141 | The loop ends for all scripts and all event sources that, when they succeed, wake somebody: by its break, by an I/O error if and only if the source has answered one of the calls made with an error, or by spinning on a full queue |
| Runtime.SpawnAndRun | src/scheduler.rs:113-149 | One launched script on one thread returns without error if it cannot have more coroutines alive than the queue holds, and does not wait or the source does not fail; in plain numbers, with fewer than 4096 spawns it does not spin, and with fewer than 102400 no wait panics. After a clean return every coroutine has run to its end, no store was lost, and unless somebody has panicked as many have been born as the script spawns. An error is returned if and only if a call of the source was answered with one; failure to return needs more coroutines alive than the queue holds; no more stacks are mapped than coroutines can be alive at a time |
| Runtime.CounterProgram | src/sync/mutex.rs:161-181 | The test of the source on one thread, for any number of coroutines and increments: it returns without error, the total is their product, and one coroutine more than their number has been born |

## Left out

- Context switching, real stacks, unwinding and the closures themselves: a switch is a transfer
  of control, a panic an outcome of a coroutine, and code is a script.
- The event loop, `Slab`, `BoundedQueue` and `StackPool` come from other crates: they are a
  source of arbitrary token batches, a finite map with fresh tokens and a capacity, a
  linearizable bounded FIFO, and a set which on one thread is asked before a stack is mapped.
- Runtime.Processor.Schedule: the event source is a parameter that wakes at least one waiter
  whenever it succeeds; how long `run_once` blocks and how long `sleep_ms` sleeps is not modelled.
- Runtime.Scheduler.Ready: on one thread a full queue would spin for ever, so the loop is watched
  for a positive number of rounds, and `Spins` is the outcome of a loop that would not end.
- Runtime.Processor.Launch: one spawn from outside any coroutine before `run`; later ones, a second
  call of `run` and threads that each spawn are outside the premises.
- Safety.CounterNeverWraps: `fetch_add` is unbounded addition, since wrapping it takes 2^64
  coroutines in memory.
- Liveness.FairRunsReturn: asks for at most GLOBAL_QUEUE_SIZE live coroutines at any time, since on a
  full queue `ready` spins for ever when nobody pops.
- Liveness.CanReturnIff: derives this from the launched scripts, by the bound of Population.BornBudget.
- Runtime.Processor.StepCoroutine: works on the saved context of the coroutine in place; loading
  and saving are in `Switching.dfy`.
- RetryBound.FailuresBounded: the holder may yield and spawn during the hold but not wait for I/O
  or end; while a holder is parked, failures are not bounded by its yields.
- LifeCycle.TrailingLoopUnreachable: the event it excludes yields `Finished` for every coroutine, also
  for one that has panicked, whose loop in the source would yield `Panicked`.
- `PoisonError::into_inner`, `get_ref` and `get_mut`: scripts unwrap the result of lock and try_lock.
- `deregister(..).unwrap()` in the Linux handler, which would panic on the scheduler's own stack.
- The BSD versions of `wait_event` and the handler, which differ in file descriptor bookkeeping only.
- Memory ordering below sequential consistency: every atomic in the source uses SeqCst.
- `Options`, `Builder`, logging, stack sizes, `src/net` and its HTTP adapters: setters and retry
  loops around foreign calls, whose only scheduling content is the wait action.
