# asco, modelled in Dafny

asco is a C++23 coroutine runtime on hand-written lock-free structures and a nested scheduler. This
project models its hardest components and proves what they are for.

Concurrent components are state machines: an event is one atomic operation of one agent, a run is any
sequence of events, and there may be any number of agents. Their theorems are about every run, that is,
about every sequentially consistent interleaving. Sequential components are classes with the fields of
the source, and their methods say what they do to the meaning of those fields.

| file | component |
|---|---|
| Probe, Table, HashMap | the hash map, operations one at a time, as a finite map |
| BucketProtocol, InsertRuns | the hash map under any interleaving, with guards and rehashes; inserts that run out of buckets |
| SoloRuns, SoloGrowth | what every operation of the bucket protocol does to the map when nobody disturbs it |
| RwLock, RwAnswers | the upgradable reader-writer lock; when its operations succeed and when they may refuse |
| Park, DynPrio, Cycle | parking and waking; the two schedulers and their fairness |
| NestedDomains, WorkerPasses | the tree of execution domains and the worker that walks it; whole passes of the worker |
| CoroutinePool, PoolRuns, PoolBlocks | the allocator of coroutine frames; whole runs of it; what becomes of unused blocks and freed objects |
| JoinHandshake | waking the joiner of a coroutine |
| RingStorage, RingQueue | the ring queue |
| Semaphore, ChannelProtocol, Channel | permits and the channel |
| Timer | the high-resolution timer |
| AgentCount, Modular, Wrappers | counting agents; remainders and powers of two; missing values |

Some properties one might expect fail for some inputs. For those the condition under which they hold is
proved to be exact, and where it takes a run to get there, the run is given: `RwLock.RunExact` (2^61 read
guards, `CountOverflows`), `NestedDomains.RunExact` (a coroutine that makes a subdomain and suspends itself
in the same turn, `SuspendAfterCreate`), `PoolRuns.RunExact` (a block opened with an exponent of 52 or more,
which 16 refused requests never reach and 17 can, `FewRefusals`, `SeventeenBreak`), `DynPrio.LowersExactly`
(a requeued priority that wraps around, `WrapStarves`), `Channel.DrainsAllExactly` (a full buffer at
`stop`), `Cycle.CountEnds` (an endless scan, `StaleAwakeSpins`), `Cycle.Cycle.Attach` (a handle that is used
twice, `ReusedHandle`), `Timer.HighResolutionTimer.Register` (an id that is cancelled and not yet taken out
by a pass, `ReregistrationLost`, or shared by two tokens with the same hash, `SameHashShares`),
`SoloGrowth.RehashAlone` (a guard that is not dropped, `RehashWaits`), `Park.AwakeIsKept` (a turn of the
dynamic-priority scheduler that ends after the awake answered its request, `AnsweringIsOnce`). That an
insert always finds a bucket fails under interleavings with an empty map
(`InsertRuns.UnreachableIsReached`), and `InsertRuns.UnreachableNeeds` says what it takes.

## Model

| member | source | states |
|---|---|---|
| Probe.HasherProper | asco/concurrency/hash_map.h:873-876 | whatever the caller's hash function, every probe step is odd |
| Probe.WrapInvisible | asco/concurrency/hash_map.h:554-562 | with a power-of-two table the 64-bit wrap of the index computation never shows |
| Probe.ProbesDistinct | asco/concurrency/hash_map.h:554-562 | two different probes of one key below the table size hit different buckets |
| Probe.ProbesCover | asco/concurrency/hash_map.h:554-562 | every bucket is on the probe path of every key, so a probe loop of `size` steps sees the whole table |
| Table.MachinePath | asco/concurrency/hash_map.h:554-562 | in a table of at most 2^64 buckets the index in wrapping 64-bit arithmetic is the one on the probe path that the hash map is proved with |
| Table.Absent | asco/concurrency/hash_map.h:794-796 | an empty bucket on the path, with no match before it, means that the key is not stored anywhere |
| Table.NotFull | asco/concurrency/hash_map.h:550-562 | a table below its load limit has a bucket on the path of every key that is not filled, so an insert always finds a place |
| Table.StoreGood | asco/concurrency/hash_map.h:669-678 | storing a pair in the first free bucket of its path keeps keys distinct and every key reachable, and adds exactly that entry to the map |
| Table.EraseGood | asco/concurrency/hash_map.h:756-775 | leaving a tombstone keeps every other key reachable and takes exactly that entry out of the map |
| Table.MovedAll | asco/concurrency/hash_map.h:829-861 | once every filled bucket is moved, the new array represents the old map |
| HashMap.HashMap.TryInsert | asco/concurrency/hash_map.h:548-682 | refines map insertion: which of the three answers is given and when, the new map, the exact load; buckets under a guard are undisturbed; the final `unreachable` is not reached |
| HashMap.HashMap.TryGet | asco/concurrency/hash_map.h:782-824 | a guard exactly for a stored key; only the reference count of its bucket changes |
| HashMap.HashMap.Drop | asco/concurrency/hash_map.h:248-259 | the guard destructor takes back exactly its own pin |
| HashMap.HashMap.TryContains | asco/concurrency/hash_map.h:502-515 | membership, and nothing has changed afterwards |
| HashMap.HashMap.TryRemove | asco/concurrency/hash_map.h:684-780 | returns the value and removes the key, or reports a missing key; a guarded key is protected and then nothing changes |
| HashMap.HashMap.Erase | asco/concurrency/hash_map.h:756-775 | the sole owner takes the pair out, and load and map lose exactly it |
| HashMap.HashMap.Place | asco/concurrency/hash_map.h:839-861 | a pair goes to the first empty bucket of its path in the new table, which exists |
| HashMap.HashMap.TryRehash | asco/concurrency/hash_map.h:826-865 | twice the size, the same map, the same load, no guard and no tombstone left |
| HashMap.HashMap.Insert | asco/concurrency/hash_map.h:369-390 | finishes after at most one rehash, and rehashes exactly when the load limit is reached |
| BucketProtocol.ApplyKeeps | asco/concurrency/hash_map.h:561-681 | every atomic step of every operation keeps the whole bucket invariant |
| BucketProtocol.RefcountIsPins | asco/concurrency/hash_map.h:690-754 | in every interleaving a bucket's reference count is the number of its live pins: guards, probing operations, the remover's own |
| BucketProtocol.ReadsArePinned | asco/concurrency/hash_map.h:792-817 | a key is read only under a pin, in a bucket that holds a constructed pair; behind a guard stands the key that was looked up |
| BucketProtocol.OwnersAreAlone | asco/concurrency/hash_map.h:741-775 | a pair is destroyed by a sole owner with no pin left, and constructed only in storage without a pair |
| BucketProtocol.RehashIsAlone | asco/concurrency/hash_map.h:826-865 | during a rehash nobody is inside an operation, no bucket is half built or half removed, and a pair is moved only with no pin left |
| BucketProtocol.LoadIsExact | asco/concurrency/hash_map.h:675-676 | the load is the number of filled buckets up to the operations that stand between counting and their last store |
| BucketProtocol.PlaceExists | asco/concurrency/hash_map.h:845-861 | the inner loop of a rehash always finds an empty bucket |
| BucketProtocol.PairMovesUnpinned | asco/concurrency/hash_map.h:826-861 | whatever event destroys, builds or moves a pair finds it unpinned |
| BucketProtocol.PinnedPairStays | asco/concurrency/hash_map.h:248-259 | no guard dangles: as long as a pin is held, its pair stays constructed, in place and with its key, across any run |
| BucketProtocol.EnterCasKeeps | asco/sync/spinrwlock.h:128-139 | entering the table's read lock keeps the whole invariant: the lock word counts those inside, and there is no rehash |
| BucketProtocol.GrowStartKeeps | asco/sync/spinrwlock.h:168-181 | a successful try_write keeps the whole invariant: it finds nobody inside an operation |
| InsertRuns.BehindKeeps | asco/concurrency/hash_map.h:561-681 | every event of every agent, except the end of a removal, leaves only buckets with pairs behind an insert that probes without a claimed bucket |
| InsertRuns.UnreachableNeeds | asco/concurrency/hash_map.h:548-681 | in every interleaving an insert gets to the place that should be unreachable only if every bucket holds a pair, or another agent finished a removal since its load check |
| InsertRuns.UnreachableIsReached | asco/concurrency/hash_map.h:548-681 | and the second suffices: a run from a new map takes a slow insert there with nobody else inside, a load of zero and no pair in any bucket, given for every bucket some other key that starts there |
| InsertRuns.PlainIsStranded | asco/concurrency/hash_map.h:548-681 | with keys that are their own hashes there is such a run for every key |
| SoloRuns.InsertAlone | asco/concurrency/hash_map.h:548-682 | from any state of the protocol with nobody inside that stores a map, guards included, an insert that runs alone ends; it stores the key with its value and raises the load by one, or changes nothing, which is if the key is there or the load limit is reached |
| SoloRuns.GetAlone | asco/concurrency/hash_map.h:782-824 | a lookup that runs alone becomes a guard of the key's own bucket if and only if the key is stored; its pin is all that changes |
| SoloRuns.DropAlone | asco/concurrency/hash_map.h:248-259 | a guard that is dropped alone takes back one pin, and the map is the same with one guard fewer |
| SoloRuns.RemoveAlone | asco/concurrency/hash_map.h:684-780 | a removal that runs alone takes exactly its key out, with its load, if and only if the key is stored without a guard; otherwise it changes nothing |
| SoloRuns.NewStores | asco/concurrency/hash_map.h:548-562 | a new map stores nothing |
| SoloGrowth.RehashAlone | asco/concurrency/hash_map.h:826-865 | a rehash that runs alone without guards ends with twice the buckets and the same map |
| SoloGrowth.RehashWaits | asco/concurrency/hash_map.h:826-865 | with a guard on any key it never ends |
| RwLock.Unpacked | asco/sync/rwlock.h:25-27 | the four fields of the word are recovered from it by its bits |
| RwLock.ApplyKeeps | asco/sync/rwlock.h:103-136 | every event keeps the word equal to the live guards if and only if fewer than 2^61 read guards are live |
| RwLock.RunExact | asco/sync/rwlock.h:153-214 | over every run the word matches the guards at every moment if and only if there are always fewer than 2^61 read guards |
| RwLock.RunSafe | asco/sync/rwlock.h:153-214 | fewer than 2^61 agents are enough for the invariant at every point of every interleaving |
| RwLock.Exclusion | asco/sync/rwlock.h:36-44 | a write guard excludes every other guard, a pending upgrader every other one and every writer; it shows as write-willing with a reader |
| RwLock.ReadViewStable | asco/sync/rwlock.h:76-84 | while a read guard is held nobody has a write guard, and the protected value stays as it is |
| RwLock.UpgradeAtomic | asco/sync/rwlock.h:124-135 | a successful upgrade is atomic: no write guard existed between the read guard and the write guard, the value is the one that was read, and the new guard is alone |
| RwLock.CountOverflows | asco/sync/rwlock.h:25-27 | with 2^61 read guards the word reads as a pending upgrade without readers |
| RwAnswers.UpgradeRefused | asco/sync/rwlock.h:103-136 | in every run of fewer than 2^61 agents an upgrade is refused only if, at its own step after it began, another upgrade was pending or a writer had announced itself |
| RwAnswers.TryReadRefused | asco/sync/rwlock.h:165-176 | in every run of fewer than 2^61 agents `try_read` is refused only at a step at which a writer has the lock or has announced itself, or an upgrade is pending |
| RwAnswers.TryWriteRefused | asco/sync/rwlock.h:201-214 | in every run of fewer than 2^61 agents `try_write` is refused only at a step at which another agent holds a guard, has announced a write, or has an upgrade pending |
| RwAnswers.ReadsAlone | asco/sync/rwlock.h:153-176 | on a lock without writers, `read` and `try_read` have their guard after two steps that nobody disturbs |
| RwAnswers.WritesAlone | asco/sync/rwlock.h:178-214 | on a free lock, `try_write` has its guard after two steps that nobody disturbs, and `write` after five |
| RwAnswers.UpgradesAlone | asco/sync/rwlock.h:103-136 | the only reader, with no writer announced, has the write guard three undisturbed steps after it asked for the upgrade |
| RwAnswers.WaitersComeIn | asco/sync/rwlock.h:123-135 | when the last guard goes, a waiting writer has the write guard after at most six undisturbed steps, a reader that waited for a writer after two, and a pending upgrade after one |
| Park.ParkedIsQuiet | asco/core/task/dynprio_scheduler.cpp:25-81 | under both schedulers, in every history, an execution is parked only if no awake arrived since its last suspend request, or because it has completed |
| Park.OneRequestParks | asco/core/task/dynprio_scheduler.cpp:25-38 | after a turn with one suspend request the execution is parked if no awake is pending from before and none arrives during it, and ready otherwise |
| Park.SecondRequestTakesToken | asco/core/task/dynprio_scheduler.cpp:75-77 | with two requests in one turn the second one uses up the token, and the execution is parked |
| Park.AwakeIsKept | asco/core/task/dynprio_scheduler.cpp:25-81 | over every history of both schedulers, an awake that finds the execution not parked is still pending as long as there is no later suspend request; the only turn that uses it up is one of the dynamic-priority scheduler whose own request it answered |
| Park.NextRequestIsAnswered | asco/core/task/dynprio_scheduler.cpp:25-81 | after such a history the next turn with one suspend request ends ready if the awake is still pending, and without any other awake only then |
| Park.AnsweringIsOnce | asco/core/task/dynprio_scheduler.cpp:27-38 | with the dynamic-priority scheduler an awake that answers a request made before it in the same turn is gone after that turn, and the next request parks |
| DynPrio.StepKeeps | asco/core/task/dynprio_scheduler.cpp:25-81 | a change for one execution that is a step of its life keeps every execution in exactly one of ready, running, suspended |
| DynPrio.NoLostWakeup | asco/core/task/dynprio_scheduler.cpp:51-81 | in every state of the scheduler a suspended execution is nowhere else, and no awake came since its last suspend request |
| DynPrio.DynPrio.Attach | asco/core/task/dynprio_scheduler.cpp:40-43 | the execution starts ready with priority 0, ahead of every positive priority value, and with a token if one was left behind; all others are as before |
| DynPrio.DynPrio.DetachSuspended | asco/core/task/dynprio_scheduler.cpp:45-49 | only a parked execution is forgotten; all others are as before |
| DynPrio.DynPrio.Awake | asco/core/task/dynprio_scheduler.cpp:51-61 | exactly Park's awake for this execution, and a parked one is queued with priority 0, so that nothing is ahead of it; nothing for an unknown one, all others as before |
| DynPrio.DynPrio.SuspendCurrent | asco/core/task/dynprio_scheduler.cpp:69-81 | exactly Park's suspend request for this execution, all others as before |
| DynPrio.DynPrio.Schedule | asco/core/task/dynprio_scheduler.cpp:83-91 | gives out an entry of the smallest priority value and takes it off the queue |
| DynPrio.DynPrio.End | asco/core/task/dynprio_scheduler.cpp:25-38 | exactly Park's end of turn; an execution of priority p whose turn took d ticks of the 64-bit clock, p + d below 2^64, is queued again with priority p + d, also if the clock wrapped in between |
| DynPrio.DynPrio.HasActive | asco/core/task/dynprio_scheduler.cpp:93-96 | true exactly when some execution is ready |
| DynPrio.TurnCosts | asco/core/task/dynprio_scheduler.cpp:33-34 | a turn of another execution lowers the sum of max(0, p - p_j + 1) over the others if and only if its entry is not queued again with a wrapped priority; the waiting entry stays queued |
| DynPrio.LowersExactly | asco/core/task/dynprio_scheduler.cpp:25-38 | over any run that passes a ready execution over, every turn lowers that sum if and only if no entry is queued again with a wrapped priority |
| DynPrio.Fair | asco/core/task/dynprio_scheduler.cpp:83-91 | a ready execution waits for no more turns than that sum, if no requeued priority wraps and nobody is attached or awoken meanwhile |
| DynPrio.NextAtZero | asco/core/task/dynprio_scheduler.h:41-46 | when the sum is zero, the next entry given out is the target's |
| DynPrio.TurnOfBooks | asco/core/task/dynprio_scheduler.cpp:25-38 | the turns of the fairness theorem are what scheduling and ending a turn do to the queue |
| DynPrio.WrapStarves | asco/core/task/dynprio_scheduler.cpp:33-34 | two executions attached with priority 0: after one long turn of the first, two turns of the second with a wrap in them can be repeated for ever while the first stays ready |
| Cycle.ScanEnds | asco/core/task/cycle_scheduler.h:121-128 | the scan ends if and only if some slot is active and not detached, and then within n slots |
| Cycle.CountEnds | asco/core/task/cycle_scheduler.h:121-130 | the scan ends if and only if the active count is positive or a slot was never filled |
| Cycle.CountsFit | asco/core/task/cycle_scheduler.h:131-131 | active plus detached never exceeds the filled slots, and is less exactly when some execution is parked |
| Cycle.ChangedSound | asco/core/task/cycle_scheduler.h:31-41 | a change of one slot that is a step of its execution's life keeps counters and slots in agreement |
| Cycle.NoLostWakeup | asco/core/task/cycle_scheduler.h:83-119 | an inactive, not detached slot has had no awake since its last suspend request |
| Cycle.Waits | asco/core/task/cycle_scheduler.h:121-128 | calls that find a slot eligible and give out others never pass it |
| Cycle.Fair | asco/core/task/cycle_scheduler.h:121-128 | a slot that stays eligible is given out within n calls, whatever the other slots do in between |
| Cycle.StaleAwakeSpins | asco/core/task/cycle_scheduler.h:83-97 | an awake that reaches a detached slot makes the counter positive and, with nothing else active, the scan endless |
| Cycle.ReusedHandle | asco/core/task/cycle_scheduler.h:84-97 | once a handle is attached a second time, every search for it stops at the earlier slot, even if that is detached, so nothing addressed to it reaches the new execution |
| Cycle.Cycle.Attach | asco/core/task/cycle_scheduler.h:60-68 | fills the next slot with a ready execution; the books stay right, with all others as before, if and only if the handle is not in the index map yet |
| Cycle.Cycle.DetachSuspended | asco/core/task/cycle_scheduler.h:70-81 | marks the slot of a parked execution and counts it; all others are as before |
| Cycle.Cycle.Awake | asco/core/task/cycle_scheduler.h:83-97 | exactly Park's awake for the execution's slot, all others as before; reports the failed assertion exactly for a detached execution, with its slot marked active |
| Cycle.Cycle.SuspendCurrent | asco/core/task/cycle_scheduler.h:106-119 | exactly Park's suspend request for the execution's slot |
| Cycle.Cycle.Schedule | asco/core/task/cycle_scheduler.h:121-128 | terminates whenever the scan can end at all, gives out the first eligible slot from the cursor on and leaves the cursor behind it; an unfilled slot is nobody's and changes nothing |
| Cycle.Cycle.End | asco/core/task/cycle_scheduler.h:31-41 | exactly Park's end of turn, which keeps a used token |
| Cycle.Cycle.HasSuspended | asco/core/task/cycle_scheduler.h:131-131 | the unsigned subtraction does not wrap, and what it says about parked and unfilled slots |
| NestedDomains.PickKeeps | asco/core/worker.cpp:81-107 | one level of the descent, with the empty-subdomain protocol and the adaptive suspension, keeps the tree invariant |
| NestedDomains.EndKeeps | asco/core/task/executor.cpp:31-39 | ending a turn from the inside out keeps the tree invariant |
| NestedDomains.WakeUpKeeps | asco/core/task/dynprio_scheduler.cpp:62-66 | passing an awake up to suspended owners leaves no owner asleep over something ready |
| NestedDomains.BadEndIsBad | asco/core/worker.cpp:109-117 | a coroutine that owns a new subdomain and ends its turn asleep or completed parks an owner that must not be parked |
| NestedDomains.ApplyKeeps | asco/core/worker.cpp:59-123 | every event keeps the invariant, except the one that breaks the property |
| NestedDomains.RunExact | asco/core/worker.cpp:81-119 | over every run: an owner is parked only over a non-empty subdomain with nothing ready, if and only if no bad end occurs |
| NestedDomains.ChainAwake | asco/core/worker.cpp:81-107 | every ready or running execution has only unparked owners, up to the root |
| NestedDomains.SleepsOnlyIdle | asco/core/worker.cpp:59-64 | a worker with nothing ready in the root domain has nothing ready in any domain |
| NestedDomains.WorkerReaches | asco/core/worker.cpp:81-107 | from rest, one descent along the owners reaches any ready execution; what it finds there decides: no subdomain, and the execution is resumed; something ready in it, and the descent goes on; an empty one, and it is taken away and the pass ends; members but none ready, and the owner asks to sleep and the pass ends. Nothing else changes |
| NestedDomains.DescentEnds | asco/core/worker.cpp:81-107 | a descent has at most as many levels as there are domains |
| NestedDomains.YoungIsReachable | asco/core/task/execution_domain_proxy.h:16-34 | a coroutine that makes a subdomain and attaches an execution gets there from the start |
| NestedDomains.SuspendAfterCreate | asco/core/task/execution_domain_proxy.h:16-34 | the bad end is real: the parked owner hides a ready execution |
| WorkerPasses.PassChangesOwner | asco/core/worker.cpp:59-107 | a whole pass over an owner with nothing ready below it changes the record of this owner and nothing else |
| WorkerPasses.EmptyThenResumed | asco/core/worker.cpp:88-92 | the empty-subdomain protocol: the first pass takes the empty subdomain off its owner, and the second one resumes the owner |
| WorkerPasses.IdleOwnerSleeps | asco/core/worker.cpp:96-105 | the adaptive suspension: after one pass the owner of a subdomain with members and nothing ready is parked, if and only if no token was waiting, which is used up |
| WorkerPasses.TurnEnds | asco/core/worker.cpp:109-119 | when the resumed coroutine returns, a completed execution is forgotten, one that asked for it and has no token sleeps, any other is ready; its owners are ready again, and nothing else changes |
| WorkerPasses.WakeReaches | asco/core/task/dynprio_scheduler.cpp:51-67 | an awake makes a parked execution ready and leaves a token with any other one, and afterwards none of its owners up to the root is parked |
| CoroutinePool.SizesFit | asco/core/mm/coroutine_pool.h:28-64 | the caller's bytes and the header of a freed object end before the owner word; the size class is the number of units |
| CoroutinePool.BlockBytesExact | asco/core/mm/coroutine_pool.cpp:62-68 | the byte count of a new block is right up to exponent 51 and zero from 52 on |
| CoroutinePool.FreeBlockIsUnused | asco/core/mm/coroutine_pool.cpp:139-141 | a block whose counter says all was given back is fully bump-allocated and holds no live and no cached object |
| CoroutinePool.BytesApart | asco/core/mm/coroutine_pool.h:47-65 | a byte of an object belongs to no header, to no other block and to no other object; what its user may write and what it carries while freed ends before its owner word |
| CoroutinePool.WritesApart | asco/core/mm/coroutine_pool.cpp:94-103 | no word that the user of a live object may write, and none outside the blocks, is an owner word or a word of a freed object |
| CoroutinePool.WriteSound | asco/core/mm/coroutine_pool.cpp:94-103 | whatever users write into the bytes they asked for, and whatever anybody writes outside the blocks, every list, owner word and account stays right |
| CoroutinePool.BumpSound | asco/core/mm/coroutine_pool.cpp:123-132 | bump allocation, with its owner word, keeps objects disjoint and the accounts of every block |
| CoroutinePool.GiveBackSound | asco/core/mm/coroutine_pool.cpp:134-137 | giving units back, from any thread, keeps given-back plus live plus cached equal to the bump index |
| CoroutinePool.PopSound | asco/core/mm/coroutine_pool.cpp:29-35 | reusing the newest freed object, by the link it carries in its own memory, keeps all lists and accounts |
| CoroutinePool.PushSound | asco/core/mm/coroutine_pool.cpp:94-100 | caching a freed object writes link and length over its user's bytes and keeps all lists, all owner words and all accounts while the list is within its limit |
| CoroutinePool.LengthIsLength | asco/core/mm/coroutine_pool.cpp:94-100 | the length that the newest freed object carries is the length of its list, at most 1025 |
| CoroutinePool.UnlinkSound | asco/core/mm/coroutine_pool.cpp:42-53 | taking a block out of the doubly linked list keeps all lists, and nothing lived in the block |
| CoroutinePool.LinkSound | asco/core/mm/coroutine_pool.cpp:68-77 | putting a new block in front keeps all lists and overlaps nothing |
| CoroutinePool.WalkSound | asco/core/mm/coroutine_pool.cpp:37-57 | the walk over the blocks ends, releases only blocks that nothing lives in, and serves the request or leaves every object and every word as it was |
| CoroutinePool.RequestSound | asco/core/mm/coroutine_pool.cpp:15-80 | what a request returns and when; the object is nobody's or was cached by this thread, all other objects and all words outside it are as before; the books stay sound if and only if no block is opened with an exponent of 52 or more, and else the object lies outside its block |
| CoroutinePool.CoroutinePools.FromBlocks | asco/core/mm/coroutine_pool.cpp:37-57 | the loop over the linked list, with its releases, is the walk of which WalkSound speaks |
| CoroutinePool.CoroutinePools.Allocate | asco/core/mm/coroutine_pool.cpp:15-80 | refines the request for every pool: the answer, the new counters and exponent, and that the pool stays valid exactly unless it opens an empty block, in which case the object lies outside it |
| CoroutinePool.CoroutinePools.Deallocate | asco/core/mm/coroutine_pool.cpp:82-105 | the object is cached by this thread, or its units go back to the block found through its owner word, exactly by the length limit; the pools stay valid |
| PoolBlocks.WalkReleases | asco/core/mm/coroutine_pool.cpp:37-57 | the walk releases exactly those blocks that it comes to without having found room, that have no room, and that everything was given back to |
| PoolBlocks.FreedIsKept | asco/core/mm/coroutine_pool.cpp:94-105 | a freed object is kept in the list of its size as long as that has at most 1024 objects; otherwise its units are given back to its block |
| PoolBlocks.FreedIsNext | asco/core/mm/coroutine_pool.cpp:26-35 | the next request for the size is answered with the object that was freed last |
| PoolRuns.ApplyKeeps | asco/core/mm/coroutine_pool.cpp:15-105 | every request, free and write by others keeps the books sound, except a request that opens an empty block, which breaks them |
| PoolRuns.RunExact | asco/core/mm/coroutine_pool.cpp:59-79 | over every run of all threads: no two objects ever share a byte, and all lists and accounts are right, at every point, if and only if no block is opened with an exponent of 52 or more |
| PoolRuns.OwnerStays | asco/core/mm/coroutine_pool.cpp:102-103 | however often an object is cached, reused and written to, its owner word stays and names its block as long as it is not given back |
| PoolRuns.DataStays | asco/core/mm/coroutine_pool.cpp:15-105 | what a user has written stays until he writes again, whatever is requested, freed and written around it |
| PoolRuns.AskPaced | asco/core/mm/coroutine_pool.cpp:107-116 | a request that is not refused keeps the balance between the exponent, the counters and the room in the newest block; a refused one shifts it by one |
| PoolRuns.FewRefusals | asco/core/mm/coroutine_pool.cpp:59-66 | in a run of any length in which no pool is refused more than 16 times, the books are sound at every point and the exponent is at most 4 plus three for every refusal |
| PoolRuns.SeventeenBreak | asco/core/mm/coroutine_pool.cpp:15-116 | 17 is the least number of refusals that can break the books: a run with 17 on one pool, and reuse of one object, opens a block of zero bytes and answers with an object outside of it |
| JoinHandshake.ApplyKeeps | asco/join_handle.h:79-89 | every atomic step of every completion path and of the joiner keeps the handshake invariant |
| JoinHandshake.OneWinner | asco/join_handle.h:79-89 | exactly one completion path wins as soon as one has ended; it alone stores the outcome, and the semaphore is released once |
| JoinHandshake.OutcomeStays | asco/join_handle.h:114-155 | a stored value or exception is never overwritten |
| JoinHandshake.NeverLeftAsleep | asco/join_handle.h:180-195 | once the winner has finished, the joiner is not parked, in every interleaving and under both schedulers |
| JoinHandshake.WinnerFinishes | asco/join_handle.h:217-230 | after its compare-exchange the winner needs at most four steps of its own until nobody is left asleep |
| JoinHandshake.ResumedMeansCompleted | asco/join_handle.h:180-206 | in every run, a joiner that is resumed while the coroutine has not completed was awoken by somebody else, or by a token that was there before |
| JoinHandshake.JoinerResumes | asco/join_handle.h:176-206 | once the winner has finished, the joiner resumes within four steps of its own |
| JoinHandshake.LoneWins | asco/join_handle.h:79-89 | a completion path that nobody disturbs wins within two steps and stores its outcome with the third |
| RingStorage.CellInBounds | asco/concurrency/ring_queue.h:93-109 | every index has a cell in bounds, and the cell gives the index back |
| RingStorage.NoSharing | asco/concurrency/ring_queue.h:80-109 | for every capacity and element size two indices share neither a value cell nor a state cell |
| RingStorage.WholePack | asco/concurrency/ring_queue.h:94-95 | elements larger than a cache line are found by their index alone |
| RingQueue.ApplyKeeps | asco/concurrency/ring_queue.h:157-203 | every atomic step of producer and consumer keeps the slot window |
| RingQueue.BoundedFifo | asco/concurrency/ring_queue.h:248-314 | received is a prefix of sent, at most the capacity is queued, no slot is read before construction or constructed over |
| RingQueue.SendAppends | asco/concurrency/ring_queue.h:184-197 | an attempt that moves the tail adds exactly its value, at the end |
| RingQueue.AnswersAreRight | asco/concurrency/ring_queue.h:163-169 | undisturbed, a send is refused exactly at capacity, and a receive gives up exactly on an empty queue |
| RingQueue.RecvAlone | asco/concurrency/ring_queue.h:248-314 | after every run, a receive that the producer does not disturb takes the oldest value out, finds it under construction, or finds the queue empty; in the last two cases nothing changes |
| RingQueue.SendAlone | asco/concurrency/ring_queue.h:157-203 | after every run, a send that the consumer does not disturb puts its value into the slot at the tail and behind the others if fewer than `capacity` values are queued, and changes nothing otherwise |
| Semaphore.PermitsConserved | asco/sync/semaphore.h:38-48 | in every interleaving no permit is lost or made up, and there are never more than the maximum |
| Semaphore.ReleaseGives | asco/sync/semaphore.h:85-110 | a release gives exactly what fits under the maximum and reports that |
| Semaphore.ReleaseAlone | asco/sync/semaphore.h:85-110 | after every run, a release of n that nobody disturbs adds n permits, or as many as fit |
| Semaphore.AcquireAlone | asco/sync/semaphore.h:38-83 | undisturbed, `try_acquire` takes one permit if there is one and refuses otherwise; `acquire` takes one or waits |
| ChannelProtocol.ApplyKeeps | asco/sync/channel.h:78-97 | every step of senders, receivers and stops keeps the permits balanced |
| ChannelProtocol.SenderFindsRoom | asco/sync/channel.h:87-96 | a sender that reaches the queue finds room in every interleaving with stops, so its ignored result never drops a value; received plus queued is sent, in order |
| ChannelProtocol.ReceiverFindsValue | asco/sync/channel.h:178-189 | before a stop a receiver with a permit finds a value |
| ChannelProtocol.SendAlone | asco/sync/channel.h:78-97 | after every run, an undisturbed send on an open channel with room puts its value behind the others and down a permit for it; on a closed channel it changes nothing |
| ChannelProtocol.RecvAlone | asco/sync/channel.h:168-191 | after every run, an undisturbed receive on an open channel with a permit takes the oldest value and makes room; on a closed channel without permits it changes nothing |
| ChannelProtocol.StopAlone | asco/sync/channel.h:119-125 | an undisturbed stop closes the channel and adds one permit on each side that has fewer than 1024 |
| Channel.Channel.Send | asco/sync/channel.h:78-97 | one at a time: accepted values go to the end, a closed channel returns the value, a full one waits; in these two cases nothing changes |
| Channel.Channel.Recv | asco/sync/channel.h:168-191 | one at a time: the oldest value, or the end, or waiting |
| Channel.Channel.Stop | asco/sync/channel.h:119-125 | leaves all buffered values in place with a permit for each of them but the 1024th, so that all later receives get exactly those, in order, and then the end |
| Channel.DrainsAfterStop | asco/sync/channel.h:168-199 | after a stop exactly the buffered values arrive in order and then the end for ever, but of 1024 buffered values the last is lost |
| Channel.DrainsAllExactly | asco/sync/channel.h:119-125 | everything buffered arrives if and only if fewer than 1024 values were buffered |
| Timer.HighResolutionTimer.Register | asco/core/time/high_resolution_timer.cpp:28-47 | stores the timer unless its deadline has passed; it is going to fire if and only if its id is not cancelled and still waiting for a pass, and it awakes its own token if and only if no other token with the same hash and deadline is stored |
| Timer.ReregistrationLost | asco/core/time/high_resolution_timer.cpp:28-61 | register, cancel, register again: the second registration is accepted and never fires |
| Timer.SameHashShares | asco/core/time/high_resolution_timer.cpp:34-43 | of two tokens with the same hash and deadline the second registration awakes the first token |
| Timer.HighResolutionTimer.Cancel | asco/core/time/high_resolution_timer.cpp:49-61 | the timer is no longer going to fire, all others are; its id stays marked until a pass takes it out |
| Timer.HighResolutionTimer.IsExpired | asco/core/time/high_resolution_timer.cpp:63-77 | true exactly for timers that are not going to fire |
| Timer.HighResolutionTimer.ServeArea | asco/core/time/high_resolution_timer.cpp:93-108 | the pass over one area takes entries in order and stops at the first live one in the future |
| Timer.HighResolutionTimer.RunOnce | asco/core/time/high_resolution_timer.cpp:79-139 | fires in order exactly the pending timers of the first second that are due and awakes the tokens stored with them; which ids stay stored, pending and marked; the wake-up is the smallest stored deadline |
| Timer.HighResolutionTimer.CatchUp | asco/core/daemon.cpp:40-41 | the daemon's loop at a fixed time ends after at most one pass for every begun second with something stored; then everything that was due has fired, once and in order of the deadlines, nothing else has, and the wake-up lies in the future |
| Timer.PassDone | asco/core/time/high_resolution_timer.cpp:95-108 | when the pass stops, exactly what was due and not cancelled has fired |
| Timer.Minimum | asco/core/time/high_resolution_timer.cpp:122-130 | the first entry of the first area has the smallest deadline of all |
| Timer.NoSecondFiring | asco/core/time/high_resolution_timer.cpp:106-107 | between two firings of a timer there is a registration |
| Timer.NoFiringAfterCancel | asco/core/time/high_resolution_timer.cpp:96-100 | between a cancellation and a firing there is a registration |

## Left out

- Memory order weaker than sequential consistency, and spurious failures of weak compare-exchange, which matter for progress only.
- BucketProtocol.RefcountIsPins: reference counts and the reader count of the table lock are unbounded; the widths of the packed words are not modelled.
- BucketProtocol.ApplyKeeps: what the operations answer is claimed for operations that do not overlap (SoloRuns, SoloGrowth). Linearizability and unique keys under overlapping inserts are not claimed: a probe can pass a bucket that is buried and claimed again behind it. The destructor of the map is not modelled.
- HashMap.HashMap.TryRehash: the wait for the guards of a bucket ends when their owners drop them; the model lets that happen inside the wait. With a guard that is never dropped the source waits for ever (SoloGrowth.RehashWaits).
- HashMap.HashMap.TryInsert: the comparison of `load / size` with 0.6 in doubles is modelled as `5 * load >= 3 * size`, which agrees for every table that fits in memory.
- RwLock.Exclusion: guards that are moved or assigned, cancellation of a waiting upgrader, and wake-ups of waiting readers and writers are not modelled.
- The documentation of `rwlock` says that an upgrade fails only while another upgrade is pending (docs/zh-cn/src/sync/rwlock.md:114); the code fails it as soon as a writer waits, too (asco/sync/rwlock.h:111-113), and the model follows the code.
- `spinrwlock::write`, and readers that wait; `hash_map` uses only the try-operations.
- DynPrio.Fair: turns take at least one tick of the clock.
- DynPrio.DynPrio.DetachSuspended: the record of the execution in its domain goes with the one in the scheduler, as the worker does it; an awake between the end of a completed execution and its detaching is not modelled.
- Cycle.Cycle.Schedule: the cursor does not wrap around.
- NestedDomains.RunExact: a scheduler method is one step, and the adaptive check together with its suspend request is one step. Cancellation, `activate_all`, `select`, executions without any coroutine frame and late awakes of completed executions are not modelled.
- NestedDomains.WorkerReaches: which ready execution a scheduler gives out is open here; DynPrio.Fair and Cycle.Fair say when it is a given one.
- CoroutinePool.CoroutinePools.Allocate: the counters and the exponent do not wrap, and shifting by 64 or more, which C++ leaves undefined, is taken to give zero as it does from 52 on. Requests above 4032 bytes go to the general memory resource and are not modelled.
- CoroutinePool.CoroutinePools.Deallocate: an object is freed once, with the size it was allocated with. Memory is a map of aligned words; block headers are a map of their own, which CoroutinePool.BytesApart justifies. A method is one step; the pool of a thread that ends is not modelled.
- JoinHandshake.NeverLeftAsleep: one joiner, awaiting once. When the result may be read is not claimed, since a value is stored after the completion mark; the token of the cancelled coroutine itself is not modelled.
- RingQueue.BoundedFifo: one producer and one consumer; with several producers the fullness comparison can be out of date across a whole round. Throwing constructors and the `void` queue are not modelled.
- Semaphore.PermitsConserved: safety only; waiting and notification are left to the events.
- ChannelProtocol.SenderFindsRoom: the queue is an atomic first-in-first-out queue. Values whose sender overlaps a stop may stay in the queue.
- Channel.DrainsAfterStop: one stop, and no send in flight.
- Timer.HighResolutionTimer.RunOnce: the stop token, the locks and the sleep are not modelled.
- Timer.HighResolutionTimer.CatchUp: the clock stands still and nobody registers or cancels during the loop.
- Idle-worker wake-up, operating-system back ends, coroutine frames, type erasure, `mutex`, `interval`, `buffer`, `flags` and `cstring`: input and output, foreign calls, or members that would only be easy.
