# registry-io in Dafny

A model of the handler registries of `registry-io` and proofs about every run of it. The crate keeps
each registry's handler list in a `SnapCell`: dispatches read it under hazard announcements, writers
replace it under a mutex and free old lists when nobody announces them.

`dafny verify dfyconfig.toml` checks the whole project.

## What is modelled

**The protocol (`src/hazard.rs`, `src/snapshot.rs`) is one step machine.** There are any number of
threads, cells and records. Every atomic load, store, compare-exchange and lock operation is a step of its
own, so scans, record walks, the protect loop, acquisition, thread exit, writes, waits and fallback reads
interleave freely. A thread is a stack of frames (reads it is inside, handlers, one-shot bodies and panic
callbacks it runs, lists it is dropping) with one operation on top; handlers, callbacks and destructors are
user code, so between operations a thread may start any other operation at any depth. A handler's end, by
returning or by panicking into the unwind boundary around it, is a step, and so are the count of the panic,
the look for a callback and the callback's end. The address of a freed list may be given out again at once,
and the first load of `protect` may return any stale non-null address. A read may also be left by unwinding;
`notify` leaves otherwise only at the end of its list.

- `HazardDomain`: records, slots, the record list, acquisition and release, and the counting invariant.
- `SnapCell`: the machine. `HandlerList` and `RegistryLog`: what a write does to a list, and the history
  of one registry (lists, writes, ids drawn, one-shot bodies).
- `SnapInvariant`: the inductive invariant. `SnapStable`: what one thread's step may do to the others
  (rely and guarantee). `SnapQuiet`, `SnapReader`, `SnapLock`, `SnapUser`, `SnapHeap`, `SnapFallback`,
  `SnapWrite`, `SnapLife`: every step keeps it. `SnapSafety`: hence every state of every run has it.
- `SnapLabels`: runs with their steps written beside them. `SnapTouch` and `SnapLogs`: which cell a step works
  on, and what it does to the cell's history.
- `SnapCalls`, `SnapOnce`, `SnapReads`, `SnapLoads`: calls from the step that makes them to their effect.
- `SnapRuns`, `SnapRecords`, `SnapWalks`, `SnapPush`, `SnapResults`, `SnapProgress`, `SnapMutex`, `SnapReclaim`,
  `SnapWait`, `SnapLook`, `SnapDispatch`, `SnapUnwind`, `SnapEnds`, `SnapRemoval`: what else follows for whole runs.
  `SnapReach`, `SnapWaitGap`, `SnapNestedGap`, `SnapReclaimGap`: runs that show where a promise stops.

**The registries' own loops are methods** proved against the functions the machine uses: `RegistryWrites`
(binary-search insertion, removal, `collect_unprotected`, the id counter), `FutureExt` and `AsyncDispatch`
(the concurrent join and sequential dispatch, polled by an executor). The synchronous `notify` loop calls
user code that may dispatch again on any thread, so it is part of the machine. `RegistryOrder` describes the
lists independently.

Modelling decisions:

- Atomics are sequentially consistent. Data behind the writer mutex is touched only by its holder, so
  consecutive accesses to it by the holder are one step.
- Fields the source does not have (a list's version, a cell's history, which frame owns a slot, the
  largest number of active threads) are history variables. No update of a source field reads them, and the
  guards that mention them always hold where the source would go on (`NoThreadIsStuck`).
- `acquire_record` goes on walking after a successful claim without touching anything; the model stops there.
- Between two handlers of a dispatch the model also lets the thread start other operations, which the source
  does not do; every statement holds of those runs too. Statements about the steps of a run hold of any
  labelling of it by steps, and every run has one (`SnapLabels.RunHasLabels`).
- The thread-local `FALLBACK_DEPTH` is taken to stay accessible.
- The id counter and the panic counter wrap at 2^64. Statements that rest on ids being unique are made
  for runs that draw at most 2^64 ids per registry.
- The documentation of `unregister_and_wait` says that the handler will never run again. A caller inside a
  dispatch that has still to call the handler is not promised this: the dispatch goes on over its own list.
  The model follows the code, and `NeverRunsAgain` and `RunsAgain` give the exact condition.
- The comments of `src/snapshot.rs` speak of `wait_until_unused`; the code's function is
  `wait_for_retired_readers`, and the model follows the code.

## Model

| member | source | states |
|---|---|---|
| `HazardDomain.StepKept` | src/hazard.rs:48-254 | every step of acquiring, publishing, announcing in and releasing records keeps the chain finite and linked, records singly owned, free and unpublished records blank, and at most peak minus j threads at or past walk position j |
| `HazardDomain.SkipCount` | src/hazard.rs:225-234 | a walker passing an occupied record keeps the count, because the record's owner stays behind it |
| `HazardDomain.PublishCount` | src/hazard.rs:238-254 | a push at the head moves every other thread one position deeper and still keeps the count |
| `SnapRecords.RecordBound` | src/hazard.rs:9-17 | in every run the records ever created number at most the threads that owned or were acquiring one at some single earlier instant, the busiest there was |
| `SnapRecords.WalkVisitsEachOnce` | src/hazard.rs:200-219 | the list from the head holds exactly the published records, each once |
| `SnapRecords.RunLinks` | src/hazard.rs:223-254 | along a run records are never freed, the list only grows at the head, and a published record keeps its link and place |
| `SnapWalks.WalkFollowsList` | src/hazard.rs:200-219 | a reclaimer's scan, a waiter's scan and an acquirer's search, interleaved with anything, have visited exactly the first so many records of the list as it was at their head load and have the rest of it still to visit |
| `SnapWalks.ScanLoadsEverySlot` | src/hazard.rs:187-198 | a scan loads the eight slots of every record published at its head load, record by record in order, each once, and nothing else |
| `SnapWalks.WalkShrinks` | src/hazard.rs:200-234 | each of the three walks ends while others keep pushing: its own steps bring it strictly closer to its end and the steps of all other threads leave it where it is |
| `SnapPush.RetryGoesThrough` | src/hazard.rs:245-253 | a push that has failed has taken over the head it saw: it can go through whenever its thread comes to it, unless another push has gone through since |
| `SnapPush.ExitGivesUpTheRecord` | src/hazard.rs:57-79 | a thread has its thread-local storage from its start until its exit begins and not after, and once the exit is over no record is owned by it |
| `SnapResults.RecordsHaveOneOwner` | src/hazard.rs:57-79 | in every reachable state a record has at most one owner, and a record not in use is owned by nobody and announces nothing |
| `SnapResults.SlotsAreLivePins` | src/hazard.rs:87-142 | a thread's non-null slots are exactly those of its live pins, as many as there are pins, and at most eight |
| `SnapResults.FallbackIffEightReads` | src/hazard.rs:112-142 | with live thread-local storage `pin` fails if and only if eight reads of the thread are in progress, a thread's first pin included |
| `SnapSafety.StateStepKept` | src/snapshot.rs:54-314 | every step of every thread keeps the protocol's invariant |
| `SnapSafety.RunKept` | src/snapshot.rs:54-314 | every state of every run satisfies the invariant |
| `SnapResults.ReadersAreSafe` | src/snapshot.rs:71-105 | whatever a read dereferences, under a hazard or on the fallback, is allocated, was never freed, and is still the very version it validated, although addresses are reused |
| `SnapResults.AnnouncedListsStay` | src/snapshot.rs:83-105 | a validated announcement of any thread keeps its list allocated and in its cell; no scan has taken it out |
| `SnapProgress.NoThreadIsStuck` | src/snapshot.rs:71-294 | no pointer, slot or counter access can fail: a thread inside an operation has a step unless it waits for the writer lock or for fallback readers, and between operations a dispatch can call its next handler and any other frame can end |
| `SnapMutex.LockMeansInside` | src/snapshot.rs:160-215 | in every reachable state the writer lock is taken by a thread if and only if that thread is inside one of its critical sections, and a thread inside one waits for nothing |
| `SnapMutex.HolderGoesOn` | src/snapshot.rs:199-215 | every step of the holder brings its unlock strictly closer, the unlock frees the lock, and steps of all other threads leave the lock taken and the holder where it was |
| `SnapMutex.LockComesBack` | src/snapshot.rs:11-18 | from every state of every run in which the lock is taken, steps of the holder alone lead to a state with the lock free |
| `SnapUnwind.CanReturn` | src/snapshot.rs:16-18 | a thread at any depth of dispatches, reads, handlers, one-shot bodies, callbacks and drops can return from all of them from any state of any run: the handlers left are called, lists reclaimed, one-shot handlers removed, and no reader is waited for |
| `SnapEnds.CallCanEnd` | src/snapshot.rs:94-105 | a call of `read` or `load_arc_if` can get its list from any state of any run, through acquisition, the protect loop or the fallback: its own steps suffice, but for the holder of the writer lock going on |
| `SnapEnds.ThreadCanReturn` | src/snapshot.rs:16-18 | so a thread at any point of any operation but a wait can return from everything it is inside, thread exit included |
| `SnapResults.StrongCountsOwners` | src/snapshot.rs:134-215 | a list's strong count is at least one and equals its owners: the cell, its retired vector or the thread dropping it, plus one for every owned handle |
| `SnapResults.FreedExactlyOnce` | src/snapshot.rs:199-314 | every version ever installed is allocated, or has been freed exactly once and is allocated nowhere |
| `SnapResults.GarbageBound` | src/snapshot.rs:199-215 | with the writer lock free `retired_len` is exact and the retired lists number at most eight per record, hence eight per thread of the busiest instant |
| `SnapReclaim.CollectionIsExact` | src/snapshot.rs:278-294 | what a collection keeps is exactly the retired lists some load of its scan returned, and it frees exactly the others |
| `SnapReclaim.EmptiesIffNothingLoaded` | src/snapshot.rs:278-294 | it empties the retired vector if and only if no load of its scan returned a retired list |
| `SnapReclaim.ReclaimIsExact` | src/snapshot.rs:107-115 | from the step that ends a hazard read (not by unwinding) or decides a `load_arc_if`, or that calls a write which takes effect, to the moment the thread is next idle, the lock free at the start and no other thread in the cell: the lock is free, the length word exact, and the retired vector holds exactly those lists it might have freed that some load of its scan returned |
| `SnapReclaim.ReadAlwaysScans` | src/snapshot.rs:107-115 | such a read, ending with something retired, always makes a scan on its way out |
| `SnapReclaim.ReadTakesNoLock` | src/snapshot.rs:8-10 | a read that ends while nothing is retired is over without its thread ever being at the lock, whoever else is in the cell |
| `SnapReclaim.KeptIsHeld` | src/snapshot.rs:11-14 | each such load was of a slot of a read of the cell the thread itself is inside, or of an announcement not yet validated by a thread that calls another cell |
| `SnapReclaim.ReclaimEmptiesRetired` | src/snapshot.rs:11-14 | so if there is neither while it works, a read on its way out or a write leaves nothing retired, a zero length word and a free lock |
| `SnapReclaimGap.StaleAnnouncementKeepsAList` | src/snapshot.rs:94-105 | the second does happen: a reachable state where a write has completed with nobody in the cell and the lock free, and a list stays retired because a reader of another cell announced its reused address |
| `SnapReads.ReadIsAtomic` | src/snapshot.rs:71-105 | the list a read iterates over was the current list at some instant between its call and its first handler, on both paths |
| `SnapReads.LoadIsAtomic` | src/snapshot.rs:134-190 | when `load_arc_if` takes its reference, under a hazard or under the writer lock, the list is allocated with a strong count of at least one and was current at some instant of the call |
| `SnapLoads.CallEndsWithItsList` | src/snapshot.rs:71-158 | a call goes on as the call it is until it has its list: a `read` ends inside its read of the cell it was called on, before the first handler; a `load_arc_if` ends with its decision or its fallback reference |
| `SnapLoads.LoadArcReturns` | src/snapshot.rs:134-158 | `load_arc_if` asked to keep the list hands out exactly one new reference, to a list that was current at some instant of the call, and counts it; asked not to, it hands out none and counts none |
| `SnapLoads.FallbackLoadReturns` | src/snapshot.rs:135-138 | on the fallback path the one reference taken under the lock becomes the caller's |
| `SnapReads.RetriesBoundedByWrites` | src/snapshot.rs:94-105 | a call retries its announcement at most once more than the cell has been written since the call |
| `SnapWait.WaitLeavesOnlyRecent` | src/snapshot.rs:243-261 | when the wait returns, no other thread reads a version older than the one current when it began |
| `SnapLook.RoundIsExact` | src/hazard.rs:163-183 | a round of the wait over one retired list starts the wait again if and only if some load of another thread's slot returned that list |
| `SnapLook.WaitComesToAnEnd` | src/snapshot.rs:239-261 | whenever the lock is free, no fallback read counts and no slot of another thread holds a retired list of the cell, the waiter's own steps end the wait, at whatever point of it they start |
| `SnapWait.RemovedHandlerNeverRunsElsewhere` | src/snapshot.rs:223-261 | after a wait that began with the handler removed, no other thread reads a list with it, then or in any continuation of the run |
| `SnapWait.WaitingRemoval` | src/sync/mod.rs:365-371 | the same for a whole `unregister_and_wait` or `clear_and_wait`: an id listed, taken out, a wait called and about to return, any continuation; fallback reads are included unless the caller was inside one |
| `SnapWait.RemovalUnlists` | src/sync/mod.rs:376-394 | the write of a removal that finds its id, or of a clear, leaves a current list without the ids it removes |
| `SnapCalls.CallTakesEffect` | src/sync/mod.rs:373-394 | the first write of a thread after it called `register`, `unregister`, `clear` or ended a one-shot body applies exactly what was asked for: an entry goes after all of its priority or a higher one and before the lower ones, an id is taken out, the list is emptied; the last two change the list, which is what the call returns, if and only if there was something to take out |
| `SnapCalls.CallWrites` | src/snapshot.rs:199-215 | no such call comes to an end without that write |
| `SnapCalls.WriteWasAsked` | src/snapshot.rs:199-215 | every write a registry has applied was asked for by a call, of which it was its thread's first write |
| `SnapCalls.OneWritePerCall` | src/snapshot.rs:199-215 | no two writes come from one call |
| `SnapCalls.EntryWasRegistered` | src/sync/mod.rs:219-231 | every entry in the history was registered by exactly one call, with that priority, that kind and the id that call drew |
| `SnapCalls.RegistrationIsWritten` | src/sync/mod.rs:219-231 | a registration that has returned stands in the history exactly once, with the priority and kind it was called with |
| `SnapWait.RunDepth` | src/snapshot.rs:160-176 | the thread-local depth is exactly the number of fallback reads the thread is inside |
| `SnapWait.SkipsFallbackIffInside` | src/snapshot.rs:234-248 | a wait skips fallback readers if and only if its caller is inside a fallback read |
| `SnapWaitGap.FallbackCallerIsNotPromised` | src/snapshot.rs:234-248 | the exception is needed: a reachable state where such a caller's wait returns while another thread is in a fallback read of the removed handler |
| `SnapRemoval.HandlerStandsOnItsRead` | src/sync/mod.rs:692-705 | in every reachable state a running handler was called by the read right under it on the stack, which is of its registry and has its id in the list |
| `SnapRemoval.WhereItStillRuns` | src/sync/mod.rs:325-335 | in any continuation of a run in which a waiting removal is about to return, a removed handler that is running runs on the caller's own thread, which was running it or inside a dispatch still to call it; or it runs for another thread's fallback read and the caller was inside one too |
| `SnapRemoval.NeverRunsAgain` | src/sync/mod.rs:325-335 | a caller inside no fallback read, not running the handler and inside no dispatch still to call it: no thread is running the handler when the wait returns or at any later point |
| `SnapRemoval.RunsAgain` | src/sync/mod.rs:325-335 | the condition is exact: whenever the caller is running the handler or inside a dispatch still to call it, there is a continuation in which the handler runs after the wait |
| `SnapNestedGap.RemovedHandlerRunsLater` | src/sync/mod.rs:331-335 | such a run exists: a handler removes the next handler of its list and waits, and the next handler is called after the wait has returned |
| `RegistryWrites.CollectUnprotected` | src/snapshot.rs:278-294 | the `swap_remove` loop ends and splits the retired multiset exactly: what it returns was not announced, what it keeps was |
| `RegistryWrites.CollectStep` | src/snapshot.rs:199-215 | run when a thread's scan is over, that loop is one of the machine's collection steps |
| `RegistryWrites.PartitionPoint` | src/sync/mod.rs:234-243 | the binary search returns the position after every entry of equal or higher priority and before every lower one |
| `RegistryWrites.InsertEntry` | src/sync/mod.rs:234-243 | insertion makes the machine's write and keeps the list the stable sort, the new arrival last among its equals |
| `RegistryWrites.RemoveEntry` | src/sync/mod.rs:376-386 | removal makes the machine's write and leaves the list alone exactly when the id is absent |
| `RegistryWrites.HandlerIds.Next` | src/handler_id.rs:108-111 | the id issued is new among the first 2^64 and is the one the machine draws |
| `RegistryOrder.ListsAreStableSorts` | src/sync/mod.rs:233-243 | every list a history of writes produces is the descending, stable sort of the registrations standing at the time, in the order of the writes |
| `RegistryOrder.StableSortIsUnique` | src/sync/mod.rs:233-243 | there is only one such list |
| `RegistryOrder.LeavesForGood` | src/sync/mod.rs:376-394 | an id that has left the list is in no later list |
| `SnapResults.RegistryIsAtomicList` | src/sync/mod.rs:233-394 | in every reachable state the current list is the last of a history the writes made one at a time, every list of it is a stable sort without repeated ids, and its length is insertions minus removals |
| `SnapResults.OneRemovalPerId` | src/sync/mod.rs:373-386 | in a run at most one removal of an id takes effect |
| `SnapResults.OneShotBodies` | src/sync/mod.rs:469-496 | a one-shot body runs at most once over concurrent and re-entrant dispatches, and once it is over with the registry alive its id is in no list from then on |
| `SnapOnce.CallRunsBody` | src/sync/mod.rs:475-489 | a dispatch that calls a one-shot handler whose closure is still there takes it and has its body on top of the stack |
| `SnapOnce.OnceIsArmed` | src/sync/mod.rs:469-496 | a handler registered as one-shot has its closure from the call on until its body is run |
| `SnapOnce.OneShotRunsOnce` | src/sync/mod.rs:475-489 | when a `notify` returns, every one-shot handler of its list has had its body run exactly once |
| `SnapOnce.AbandonedOnlyWhenGone` | src/sync/mod.rs:735-739 | a one-shot handler is left in the list only by a body that ended with the registry gone |
| `SnapResults.RunningBodies` | src/sync/mod.rs:729-740 | until then the thread that ran it is still inside it or about to remove it |
| `SnapDispatch.NotifyIsADispatch` | src/sync/mod.rs:692-705 | in every run a `notify` that leaves without unwinding has called every handler of its list once, in list order, whatever panicked, each panic told before the next handler is called, with any nested and concurrent dispatches in between |
| `SnapDispatch.DispatchIds` | src/sync/mod.rs:692-705 | in such a dispatch the ids called are the list's ids and the ids told are the ids that panicked, both in order |
| `SnapDispatch.PanicIsToldNext` | src/sync/mod.rs:710-726 | the very next step of a thread whose handler has panicked looks for the callback and calls it with that handler's id if one is installed then |
| `SnapDispatch.PanicCountIsExact` | src/sync/mod.rs:710-711 | in every reachable state `panic_count` is the number of handler panics of the run so far, modulo 2^64 |
| `SnapDispatch.CallbackIsTheLastSet` | src/sync/mod.rs:621-652 | in every reachable state the callback is what the last `on_panic` or `clear_panic_callback` left, and there is none before any |
| `FutureExt.PollSlot` | src/future_ext.rs:99-114 | polling a slot moves it one round on and reports whether it has ended; an ended slot is left alone |
| `FutureExt.CatchUnwind.Poll` | src/future_ext.rs:56-73 | ready at the poll the future ends and at no other, the future dropped at that poll |
| `AsyncDispatch.Join.Poll` | src/async_registry/mod.rs:513-533 | `running` is the number of running slots, every future is polled once a round until it ends and never after, and the join is ready exactly when as many rounds have passed as the slowest handler needs |
| `AsyncDispatch.Join.Report` | src/async_registry/mod.rs:535-539 | after the join each panicking handler is reported once, in list order |
| `AsyncDispatch.ReportsAreInOrder` | src/async_registry/mod.rs:535-539 | the reports of all three forms are the ids at increasing places of the list, and a place is among them if and only if its handler panics building its future or being polled |
| `AsyncDispatch.AwaitOne` | src/async_registry/mod.rs:504-512 | a single handler is awaited for exactly the polls it needs and its panic reported |
| `AsyncDispatch.Notify` | src/async_registry/mod.rs:498-542 | concurrent dispatch resolves after exactly max(1, slowest handler) polls, with every future polled to its end and the panicking ids in list order |
| `AsyncDispatch.Sequence.Poll` | src/async_registry/mod.rs:577-590 | one poll runs handlers in order until one is pending; it is ready exactly when no pending poll is left |
| `AsyncDispatch.NotifySequential` | src/async_registry/mod.rs:577-590 | sequential dispatch resolves after exactly one poll more than the pending polls of all futures, with the same futures run to their ends and the same reports as the concurrent form |
| `AsyncDispatch.ConcurrentIsNoSlower` | src/async_registry/mod.rs:498-590 | the concurrent form never takes more polls than the sequential one |

## Left out

- Weak memory: atomics are sequentially consistent steps; the argument for `SeqCst` over acquire loads is not expressed.
- Termination of `wait_for_retired_readers` in general: it depends on handlers returning, and two handlers that wait for each other do not; that it ends once nobody else reads anything retired, and what holds when it returns, is proved.
- SnapWait.WaitingRemoval: for a caller inside a fallback read it covers other threads' hazard reads only, because the code skips fallback readers there and `FallbackCallerIsNotPromised` shows the rest is false.
- SnapReclaim.ReclaimEmptiesRetired: is stated for a thread outside hazard reads of the same cell with no unvalidated announcement anywhere, because without either the statement is false; `ReclaimIsExact` and `KeptIsHeld` say what is kept in general.
- SnapRemoval.NeverRunsAgain: excludes a caller inside a dispatch still to call the handler, because there the documented promise is false, as `RunsAgain` and `RemovedHandlerRunsLater` show.
- SnapResults.OneShotBodies: says nothing of a body that ends after the registry's last `Arc` is gone, where the code removes nothing.
- SnapDispatch.NotifyIsADispatch: says nothing of a `notify` left by unwinding, which needs a panicking payload destructor.
- Handles returned by `load_arc_if` are owned references that a waiting removal does not wait for; they exist in the asynchronous registry, which has no waiting removal.
- Panicking payload or handler destructors, allocation failure and mutex poisoning are excluded outcomes.
- Backing off while waiting, cache-line alignment, pointer provenance and the `Send` and `Sync` impls have no protocol content.
- `PanicInfo`, guards, `handler_count`, `contains` and formatting would only add easy members.
- Wakers and the executor: polling is a schedule that calls the dispatch until it is ready.
