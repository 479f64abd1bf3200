# Pheromone: verified models of its coordination core

Pheromone is a serverless platform in which functions are triggered by the data they wait for. This project models the parts of it where many steps, threads or nodes have to agree, and proves what they promise. Every file is a Dafny 4.11 module of the same name; `dafny verify dfyconfig.toml` checks them all.

- **Ring, RingTheorems, RingOutcomes**: the lock-free unicast ring with several producers and consumers, under all interleavings of its atomic steps: order and integrity, progress of a thread while the others stand still anywhere, and what the result of each operation says.
- **Triggers, TriggerStreams**: the by-set, dynamic-group, by-batch-size and redundant triggers.
- **TwoLevelBySet, TwoLevelBySetRuns, TwoLevelGroup, TwoLevelGroupRuns**: the protocols that replicate a trigger on every worker and on the coordinator, so that it fires once; the second of each pair says so in terms of the schedule alone.
- **SharedMutex, SharedMutexProgress, RwLock**: the contention-free recursive mutex and the spinning readers-writer lock, with exclusion and progress.
- **Fragments**: cutting messages into 64-byte fragments and putting interleaved fragments together again.
- **ArgJoin, ArgJoinRuns, Dispatcher, CallMessage**: the local scheduler, with the join of calls and the objects they wait for, the choice of an executor and the delay queue, and the message the executor parses into argument slots.
- **Placement**: how the coordinator places a call with several requests on worker nodes.
- **WordCount**: the map-reduce word count, from input text through printed records to the counts.
- **PartitionedMap**: the partitioned ordered map as one flat ordered container.
- **Lattices**: merging vector clocks and maps of them.
- **Options**: optional values.
- **Text**: the library functions for splitting, joining and numerals that CallMessage and WordCount share.

How to read the models:

- Code that threads or nodes run concurrently is a state with a total function `Exec(state, label)` for one atomic step. A run is a sequence of labels, which a scheduler may choose in any way, and a theorem is about every such sequence.
- Objects changed in place are classes whose methods are proved against a pure step function or against a property stated outright. Loops are loops, with their invariants.
- Random choices, the clock, memory that was never written and the iteration order of hash tables are left open: a parameter, or any value at all.
- Fields called history (for instance what was pushed, issued or delivered) serve the statements only.

What the proofs turned up, where the code and its description differ or a natural property fails:

- The comment on the contention-free mutex promises that exclusive-to-shared nesting works. A thread that holds the flag returns from its nested call only if it has no slot and registration fails; a thread that has a slot, or finds one in that very call, waits for itself forever (`SharedMutex.NestsIff`, `SharedMutex.LockThenSharedIsCaught`).
- A push that loaded `ct_` before another thread pushed and popped a message reports a full ring when it is empty; it reports full rightly whenever its load is current (`RingOutcomes.StaleLoadSaysFull`, `RingOutcomes.FullOnlyWithoutRoom`).
- A pop reports empty while a pusher stands still in the middle of writing the oldest ticket, even if later pushes are complete (`RingTheorems.PopOnce`).
- A call that waits for an object is not helped by the object being stored locally meanwhile; only an answer from outside lets it go (`ArgJoinRuns.CallWaitsUntilComplete`).
- A dynamic-group round without data leaves control keys at the workers unless one worker hosts all mappers (`TwoLevelGroup.RoundLeavesReplicasClean`, `TwoLevelGroup.ControlKeysStay`).
- A redundant trigger with k >= n has rounds of k + 1 objects, not n (`TriggerStreams.RedundantFires`).
- A word that holds a ';' is lost and may add to the count of another word; commas are harmless (`WordCount.ExactIff`, `WordCount.WrongCount`).
- A crowded fragment cache forgets messages whose ids are far from the new one, and then returns the rest of such a message as if it were the whole (`Fragments.WholeIff`, `Fragments.OutputIsTail`, `Fragments.CrowdedLosesHead`).
- An object size of 2^31 or more is written by the scheduler but not read by the executor (`Text.StoiOfNumeral`), and an empty last argument is dropped (`CallMessage.MessageRoundTrip`).
- With executors that are not shared, a queued call that finds no executor goes to the back of the delay queue with a new time, so its limit starts over; this happens exactly to calls whose index is below the number of available executors (`Dispatcher.TimeKeptIffNotVisited`, `Dispatcher.Scheduler.LimitStartsOver`).

## Model

| member | source | states |
|---|---|---|
| Ring.ResidueIsLowByte | common/shm-ipc/src/libipc/circ/elem_def.h:22-24 | the slot index used by the model is, with 256 slots, the conversion of a ticket to an 8-bit integer |
| Ring.ExecKeepsInv | common/shm-ipc/src/libipc/prod_cons.h:117-187 | every step of every thread, spurious exchange failures included, keeps the invariant of the ring: ordered cursors, the meaning of each commit flag, what each thread may rely on at each of its steps, and that unpopped slots hold what was pushed |
| Ring.KeepsTakeTicket | common/shm-ipc/src/libipc/prod_cons.h:119-129 | winning the exchange on `ct_` keeps the invariant, by which the pusher is then the only owner of its slot |
| Ring.KeepsWriteByte | common/shm-ipc/src/libipc/prod_cons.h:130-131 | writing one byte of a payload keeps the invariant: it touches no slot another thread relies on |
| Ring.KeepsSetFlag | common/shm-ipc/src/libipc/prod_cons.h:132-133 | setting the commit flag after the last byte keeps the invariant: an announced slot holds the whole payload |
| Ring.KeepsClearFlag | common/shm-ipc/src/libipc/prod_cons.h:142-145 | taking a flag down, in a push or in a pop, keeps the invariant: at most one thread is entitled to store `wt_` |
| Ring.KeepsAdvanceWt | common/shm-ipc/src/libipc/prod_cons.h:145-148 | the plain store of `wt_` by the entitled thread keeps the invariant |
| Ring.KeepsAdvanceRd | common/shm-ipc/src/libipc/prod_cons.h:179-183 | winning the exchange on `rd_` keeps the invariant: the bytes copied before it are the payload of that ticket |
| RingTheorems.HistoryIsWhatPopsReturn | common/shm-ipc/src/libipc/prod_cons.h:179-183 | the history of pops grows by exactly the payload that the pop returns, and only then |
| RingTheorems.FirstInFirstOut | common/shm-ipc/src/libipc/prod_cons.h:117-187 | in every interleaving the payloads popped, in the order of the exchanges on `rd_`, are a prefix of those pushed in the order of the exchanges on `ct_`: no loss, no duplicate, no torn copy |
| RingTheorems.CursorsOrdered | common/shm-ipc/src/libipc/prod_cons.h:118-186 | in every reachable state `rd_` <= `wt_` <= `ct_` <= `rd_` + N - 1 |
| RingTheorems.StageAdvances | common/shm-ipc/src/libipc/prod_cons.h:118-181 | each ticket goes through not taken, being written, announced, flag cleared, passed by `wt_`, one stage at a time |
| RingTheorems.StageMonotone | common/shm-ipc/src/libipc/prod_cons.h:118-181 | along every run the stage of a ticket never goes back |
| RingTheorems.OneClearerPerTicket | common/shm-ipc/src/libipc/prod_cons.h:134-145 | in every run the commit flag of a ticket is taken down at most once |
| RingTheorems.ExactlyOneClearer | common/shm-ipc/src/libipc/prod_cons.h:134-145 | in every run, once `wt_` has passed a ticket, exactly one earlier step took its commit flag down |
| RingTheorems.ClearedStage | common/shm-ipc/src/libipc/prod_cons.h:139-144 | taking a flag down moves the ticket at `wt_` from announced to cleared and makes the thread its claimant |
| RingTheorems.ClaimHeld | common/shm-ipc/src/libipc/prod_cons.h:142-145 | a claimant keeps its claim until its own store of `wt_`, whatever others do meanwhile |
| RingTheorems.WtMovesByClaimant | common/shm-ipc/src/libipc/prod_cons.h:134-149 | `wt_` moves by one and only by the claimant of its ticket |
| RingTheorems.ClearerMovesWt | common/shm-ipc/src/libipc/prod_cons.h:134-149 | over a whole run, the thread that cleared ticket t's flag is the one that moves `wt_` from t to t + 1 |
| RingTheorems.WtMonotone | common/shm-ipc/src/libipc/prod_cons.h:145-145 | `wt_` never regresses |
| RingTheorems.AnnouncedSlotKept | common/shm-ipc/src/libipc/prod_cons.h:130-133 | no step rewrites the slot of an announced ticket that is not yet popped |
| RingTheorems.ReadyUnlessOwned | common/shm-ipc/src/libipc/prod_cons.h:167-177 | unless some thread is writing a ticket or about to store `wt_`, a pop finds a payload exactly when a ticket is outstanding, so a lagging `wt_` hides nothing |
| RingTheorems.PopperProgress | common/shm-ipc/src/libipc/prod_cons.h:162-186 | whatever the other threads are in the middle of, every step of a popper ends its pop or brings it closer to the end, stale loads included |
| RingTheorems.PopEnds | common/shm-ipc/src/libipc/prod_cons.h:160-187 | from any reachable state, wherever the other threads stand still, a pop in progress ends by steps of its own thread alone |
| RingTheorems.PopOnce | common/shm-ipc/src/libipc/prod_cons.h:160-187 | a whole pop while others stand still ends with the oldest payload if `wt_` has passed it or its commit flag is up, and with empty otherwise |
| RingTheorems.DrainCollectsAll | common/shm-ipc/src/libipc/prod_cons.h:160-187 | from any reachable state at rest, one thread popping until told empty collects exactly the outstanding payloads in ticket order |
| RingTheorems.TicketProgress | common/shm-ipc/src/libipc/prod_cons.h:119-129 | every step of a pusher without a ticket reports full, takes the ticket `ct_` for its payload, or brings it closer, whatever it last loaded |
| RingTheorems.PusherProgress | common/shm-ipc/src/libipc/prod_cons.h:130-149 | every step of a pusher that has its ticket ends its push or brings it closer to the end: it writes on, or helps `wt_` towards `ct_` |
| RingTheorems.PushEnds | common/shm-ipc/src/libipc/prod_cons.h:117-151 | from any reachable state, wherever the other threads stand still, a push in progress ends by steps of its own thread alone, having appended its payload once or not at all as it reports |
| RingTheorems.PushOnce | common/shm-ipc/src/libipc/prod_cons.h:117-151 | a whole push while others stand still reports full exactly when N - 1 tickets are outstanding, and otherwise pushes its payload |
| RingOutcomes.PushReturnsWhatItDid | common/shm-ipc/src/libipc/prod_cons.h:117-151 | over every run, between the start of a push and its return: it returns success or full; with success the steps of its thread appended its payload to the history, once and nothing else, with full they appended nothing |
| RingOutcomes.PopReturnsWhatItTook | common/shm-ipc/src/libipc/prod_cons.h:160-187 | over every run, between the start of a pop and its return, the steps of its thread took exactly the payload it returns, and none if it returns empty |
| RingOutcomes.OnlyPushesGrowHistory | common/shm-ipc/src/libipc/prod_cons.h:126-128 | the history of pushes grows only by the payload of a push whose exchange on `ct_` succeeds, which then owns that ticket |
| RingOutcomes.FullOnlyWithoutRoom | common/shm-ipc/src/libipc/prod_cons.h:120-125 | a push reports full only on its room test, and then N - 1 tickets are outstanding or the `ct_` it loaded is older than `rd_` |
| RingOutcomes.StaleLoadSaysFull | common/shm-ipc/src/libipc/prod_cons.h:120-125 | a run on any ring: a push that loaded `ct_` before another thread pushed and popped one message reports full on an empty ring |
| RingOutcomes.EmptyOnlyUnannounced | common/shm-ipc/src/libipc/prod_cons.h:163-174 | a pop reports empty only on finding that the ticket at the `wt_` it loaded is not announced, or no longer |
| Triggers.BySetFiresWhenComplete | common/include/trigger.hpp:209-226 | comparing sizes suffices: the trigger fires if and only if the object completes the key set of its session |
| Triggers.BySetTrigger.ActionForNewObject | common/include/trigger.hpp:209-226 | fires exactly on completion, with one action that names the function and, at each position, the session and the key of the set at that position, and forgets the session then |
| Triggers.GroupIsPrefix | common/include/trigger.hpp:290-300 | the group of a key ends at its first delimiter |
| Triggers.GroupByPartitions | common/include/trigger.hpp:290-316 | groups cover the data keys, are not empty, and hold a key only under its own prefix |
| Triggers.DynamicGroupTrigger.ActionForNewObject | common/include/trigger.hpp:290-316 | collects data by group, and at the last control key hands out one action for each group, which names exactly the keys of that group, each once and under the session, then starts anew |
| Triggers.ActionsFor | common/include/trigger.hpp:302-313 | one action for each group, each naming every key of its group exactly once |
| TwoLevelBySet.ExecKeepsInv | src/coordinator/notify_handler.cpp:63-76 | producing an object, replaying a notification at the coordinator and obeying a clear message keep the agreement of worker replicas, coordinator replica, links and activations |
| TwoLevelBySet.ActiveMeansAllHere | src/coordinator/notify_handler.cpp:197-215 | when the coordinator's replica completes, the notification says it was active exactly if one worker had produced all keys itself |
| TwoLevelBySet.RememberedMeansNotified | src/coordinator/notify_handler.cpp:63-76 | a worker that still remembers a completed session is one the coordinator knows, so the clear message reaches it |
| TwoLevelBySet.AtMostOneActivation | src/scheduler/object_handlers.cpp:24-32 | in every run, for any placement of keys and any delay of clear messages, a session activates the trigger at most once across all workers and the coordinator, and only with all its keys produced |
| TwoLevelBySet.ExactlyOneActivation | src/scheduler/scheduler_server.cpp:415-423 | when all keys of a session are produced and all notifications delivered it has activated exactly once, and no replica remembers it once its clear message has arrived |
| TwoLevelBySet.ActivationSite | src/coordinator/notify_handler.cpp:63-76 | in every run a session activates at a worker exactly if all its keys were produced there, and otherwise at the coordinator |
| TwoLevelBySet.ClearKeepsInv | include/scheduler/comm_helper.hpp:313-322 | a clear message that arrives at any later time keeps the invariant |
| TwoLevelBySetRuns.ProducedIsScheduled | src/scheduler/object_handlers.cpp:24-32 | in every run an object of the key set counts as produced exactly if the schedule produces it, at the worker where it first does |
| TwoLevelBySetRuns.DeliverTakesOldest | src/coordinator/notify_handler.cpp:63-76 | the coordinator takes the oldest notification off a link and touches no other link |
| TwoLevelBySetRuns.ClearTakesOne | include/scheduler/comm_helper.hpp:313-322 | a clear message makes the worker forget the session and is used up |
| TwoLevelBySetRuns.Settles | src/coordinator/notify_handler.cpp:63-76 | from every reachable state deliveries alone lead to one with no notification and no clear message under way |
| TwoLevelBySetRuns.EverySessionActivates | src/scheduler/scheduler_server.cpp:415-423 | whatever has happened, if every key of a session is produced somewhere then deliveries alone lead to a state in which it has activated, once among all replicas, and no replica remembers it |
| TwoLevelGroup.ExecKeepsInv | src/coordinator/notify_handler.cpp:63-77 | sending data, finishing a mapper, replaying a notification and obeying a clear message keep the agreement of all replicas of the dynamic group |
| TwoLevelGroup.FinishOutcome | common/include/trigger.hpp:290-316 | a worker's replica fires exactly when all mappers were its own, and then holds all data keys |
| TwoLevelGroup.AllArrived | examples/cpp/map_reduce/mapper_template.cpp:161-175 | because a mapper sends its control key last, a coordinator that has every control key has every data key |
| TwoLevelGroup.LastControl | src/coordinator/notify_handler.cpp:197-215 | at the last control key the coordinator defers to a worker exactly if that worker has handed out the data |
| TwoLevelGroup.AtMostOneFiring | common/include/trigger.hpp:290-316 | in every run at most one replica hands out groups, and they are all the data keys of all mappers split by prefix |
| TwoLevelGroup.BarrierFiresOnce | src/coordinator/notify_handler.cpp:63-77 | when all mappers have finished and all notifications are delivered, exactly one replica has fired if any data was sent, and none otherwise |
| TwoLevelGroup.RoundLeavesReplicasClean | common/include/trigger.hpp:330-333 | a round leaves every replica as new if and only if data was sent or one worker hosted all mappers; otherwise control keys stay behind |
| TwoLevelGroup.ControlKeysStay | common/include/trigger.hpp:298-310 | a concrete run: two mappers on two workers finish without data, all is delivered, and each worker keeps a control key |
| TwoLevelGroupRuns.HistoryIsScheduled | examples/cpp/map_reduce/mapper_template.cpp:161-175 | in every run the finished mappers are those the schedule finishes, and the data keys those it sends from mappers not yet finished |
| TwoLevelGroupRuns.Settles | src/coordinator/notify_handler.cpp:63-77 | from every reachable state deliveries alone lead to one with no notification and no clear message under way |
| TwoLevelGroupRuns.EveryRoundFires | src/coordinator/notify_handler.cpp:63-77 | whatever has happened, if every mapper finishes then deliveries alone lead to a state in which exactly one replica has handed out exactly the data keys sent, group by group, or none has if none was sent |
| TriggerStreams.BatchLaw | common/include/trigger.hpp:153-169 | for every stream, the batches followed by the buffer are the arrivals, and every batch has exactly the configured size (one, if that is zero) |
| TriggerStreams.ByBatchSizeTrigger.ActionForNewObject | common/include/trigger.hpp:153-169 | one arrival: the batch it completes, if any, and the buffer left |
| TriggerStreams.RedundantFires | common/include/trigger.hpp:346-363 | for every stream and every k >= 1, the actions are the first k objects of each round; a round has n objects if k < n and k + 1 otherwise |
| TriggerStreams.HeadAt | common/include/trigger.hpp:346-363 | the j-th action exists exactly if the stream is long enough, and is the k objects from the start of round j |
| TriggerStreams.RoundStartIsProduct | common/include/trigger.hpp:356-359 | round j starts after j whole rounds |
| TriggerStreams.NeverFires | common/include/trigger.hpp:349-359 | with k = 0 nothing ever fires |
| TriggerStreams.RedundantTrigger.ActionForNewObject | common/include/trigger.hpp:346-363 | one arrival: collected, completing an action, dropped, or starting the next round |
| SharedMutex.ExecKeepsInv | common/include/safe_ptr.hpp:451-548 | every step of registration, of both locks and both unlocks keeps the invariant, for any recursion depth and any number of threads |
| SharedMutex.KeepsTakeFlag | common/include/safe_ptr.hpp:530-533 | winning the exchange on the flag keeps the invariant: its holder is unique and named |
| SharedMutex.ScanKeepsInv | common/include/safe_ptr.hpp:535-536 | the steps of a writer's scan over the slots keep the invariant: a slot it has passed has no reader inside while the flag is up |
| SharedMutex.KeepsEnter | common/include/safe_ptr.hpp:483-489 | a reader that has announced itself, sees the flag down and enters keeps the invariant: no writer can have passed its slot |
| SharedMutex.FallKeepsInv | common/include/safe_ptr.hpp:494-502 | the steps of readers without a slot, who take the flag themselves, keep the invariant |
| SharedMutex.Exclusion | common/include/safe_ptr.hpp:473-548 | in every interleaving without a shared-to-exclusive upgrade, a thread inside the exclusive section is the only thread inside either section |
| SharedMutex.FlagHolderWithSlotNeverGetsShared | common/include/safe_ptr.hpp:473-490 | contrary to the comment at line 347, a thread that has a slot and holds the flag never gets the shared lock, under any schedule |
| SharedMutex.FlagHolderWithoutSlotNests | common/include/safe_ptr.hpp:494-502 | if it has no slot and registration fails, the same thread gets the shared lock in two more steps of its own |
| SharedMutex.NestsIff | common/include/safe_ptr.hpp:451-503 | the exact condition: past registration, some schedule lets a thread that holds the flag return from `lock_shared` if and only if it had no slot and registration failed; with an old slot, or one found in this very call, it never returns |
| SharedMutex.LockThenSharedIsCaught | common/include/safe_ptr.hpp:473-490 | a concrete run from the initial state: a thread without a slot locks, asks for the shared lock, finds a slot and waits for itself |
| SharedMutexProgress.CalmSlots | common/include/safe_ptr.hpp:535-536 | with no other thread in an operation or inside, no slot is above one: free slots and the slots of idle registered threads do not hold up the scan of `lock` |
| SharedMutexProgress.LockCall | common/include/safe_ptr.hpp:522-540 | then `lock`, also a nested one, comes back after finitely many steps of its thread, with the flag up, the thread its owner, the lock counted once more, and nothing else changed |
| SharedMutexProgress.UnlockCall | common/include/safe_ptr.hpp:542-547 | `unlock` comes back with one hold less; the last leaves the flag down and no owner |
| SharedMutexProgress.SharedCall | common/include/safe_ptr.hpp:473-490 | `lock_shared` of a registered thread that does not hold the flag comes back with one access more in its slot |
| SharedMutexProgress.RegisteringSharedCall | common/include/safe_ptr.hpp:451-490 | `lock_shared` of a thread that finds a free slot registers there and comes back with one access in it |
| SharedMutexProgress.FallbackSharedCall | common/include/safe_ptr.hpp:494-502 | `lock_shared` of a thread for which there is no slot comes back inside through the flag, also when the thread already holds it |
| SharedMutexProgress.UnlockSharedCall | common/include/safe_ptr.hpp:505-520 | `unlock_shared` comes back with one access less, in the slot or at the flag; the last one at the flag leaves it down and without an owner |
| SharedMutexProgress.SharedReturns | common/include/safe_ptr.hpp:473-503 | a `lock_shared` caught anywhere past registration, backing off and waiting included, comes back once the others are gone, unless it holds the flag and has a slot |
| SharedMutexProgress.LockThenUnlock | common/include/safe_ptr.hpp:522-547 | `lock` followed by `unlock` leaves the mutex exactly as it was |
| SharedMutexProgress.UnregistersIffOutside | common/include/safe_ptr.hpp:417-422 | a thread gives its slot back exactly when it is not inside through it |
| SharedMutexProgress.RunHoldsSlots | common/include/safe_ptr.hpp:451-471 | in every run a slot that is not zero belongs to a registered thread |
| RwLock.ExecKeepsInv | common/shm-ipc/include/libipc/rw_lock.h:133-168 | every step that leaves at most `w_mask` readers inside keeps the flag and the reader count in agreement with who is inside, for any number of threads |
| RwLock.Exclusion | common/shm-ipc/include/libipc/rw_lock.h:133-168 | in every interleaving in which at most `w_mask` threads read at once, a writer inside is inside alone |
| RwLock.LowBitsCountReaders | common/shm-ipc/include/libipc/rw_lock.h:150-168 | all along a run the low bits are the number of readers inside and the top bit says whether a writer has claimed the lock, if and only if at most `w_mask` threads read at once |
| RwLock.CountHoldsIffItFits | common/shm-ipc/include/libipc/rw_lock.h:159-161 | one more reader is counted rightly if and only if fewer than `w_mask` readers are inside |
| RwLock.WriterEntersIffNoReaders | common/shm-ipc/include/libipc/rw_lock.h:142-145 | a waiting writer goes in at its next step if and only if no reader is inside |
| RwLock.WriterClaimsIffNoWriter | common/shm-ipc/include/libipc/rw_lock.h:134-141 | a writer claims the lock at its next step if and only if no other has |
| RwLock.WaitingWriterShutsReadersOut | common/shm-ipc/include/libipc/rw_lock.h:150-163 | while a writer waits, whoever moves, the readers inside only become fewer |
| RwLock.WriterGetsIn | common/shm-ipc/include/libipc/rw_lock.h:133-148 | once each reader inside has released, one step each, the waiting writer is inside after one more step |
| RwLock.ReaderGetsIn | common/shm-ipc/include/libipc/rw_lock.h:150-163 | with no writer about, a reader in the middle of its call is inside after at most three steps, whatever it last loaded |
| RwLock.SharedRoundTrip | common/shm-ipc/include/libipc/rw_lock.h:150-168 | with no writer about, `lock_shared` counts the reader once and `unlock_shared` leaves the word as it was |
| RwLock.ExclusiveRoundTrip | common/shm-ipc/include/libipc/rw_lock.h:133-149 | with nobody inside, `lock` sets the flag and `unlock` leaves the word as it was |
| Fragments.Send | common/shm-ipc/src/ipc.cpp:461-478 | the fragment loop puts out exactly the pieces of the message, also for exact multiples of 64, and refuses an empty message |
| Fragments.MakeCache | common/shm-ipc/src/ipc.cpp:65-70 | a new buffer starts with the bytes of the fragment, as many as fit |
| Fragments.Receiver.Accept | common/shm-ipc/src/ipc.cpp:530-588 | one fragment updates the cache and returns a message as the specification says, including fragments from itself and cache collection |
| Fragments.FirstPiece | common/shm-ipc/src/ipc.cpp:546-573 | a piece of a message that is not in the cache is taken for the first: alone it is returned, else it begins a buffer |
| Fragments.NextPiece | common/shm-ipc/src/ipc.cpp:575-587 | the next piece of a message extends its buffer by exactly its bytes, and the last piece returns the buffer |
| Fragments.OutputIsTail | common/shm-ipc/src/ipc.cpp:530-588 | for any messages with distinct ids and any interleaving of their fragments that keeps each message's own order, the receiver returns something exactly at the last fragment of a message: the message from the piece on at which its buffer starts, whatever was forgotten on the way |
| Fragments.WholeIff | common/shm-ipc/src/ipc.cpp:560-588 | a message comes out whole if and only if it was never forgotten: no fragment began a buffer in a cache of more than 1024 while the message was in it with an id more than 8192 away |
| Fragments.RoundTrip | common/shm-ipc/src/ipc.cpp:530-588 | if, whenever a message of several fragments begins, at most 1024 others are in progress or all have near ids, every message is returned byte for byte exactly at its last fragment, and nothing else is returned |
| Fragments.FewOrNearIsRoomy | common/shm-ipc/src/ipc.cpp:560-570 | that is so in particular with at most 1025 messages in all, or with ids all near each other |
| Fragments.CrowdedLosesHead | common/shm-ipc/src/ipc.cpp:560-573 | a concrete stream: 1025 messages begin, then one with a far id, and the first then comes out without its first 64 bytes |
| Fragments.NothingLeftBehind | common/shm-ipc/src/ipc.cpp:580-583 | when all messages have arrived the cache is empty, even if some were forgotten on the way |
| Fragments.ReturnedOnce | common/shm-ipc/src/ipc.cpp:580-583 | two fragments on which the receiver returns something belong to different messages |
| ArgJoin.Tables.FuncCall | src/scheduler/scheduler_server.cpp:494-531 | the loop over the keys of a call updates both tables, the fetches and the dispatches as specified |
| ArgJoin.Tables.DataResponded | src/scheduler/scheduler_server.cpp:533-572 | the loop over the waiting calls updates both tables and dispatches, in ascending order of call id, those that waited for this key alone |
| ArgJoin.ExecKeepsInv | src/scheduler/scheduler_server.cpp:487-575 | every event keeps the two tables mirrored, every waiting call accounted for, and every dispatch unique and ready |
| ArgJoin.TablesMirror | src/scheduler/scheduler_server.cpp:505-512 | in every run a call id is listed under a key exactly when that key is still missing for the call |
| ArgJoin.EachCallOnce | src/scheduler/scheduler_server.cpp:515-575 | in every run a call that named keys is waiting or was dispatched, never both and never twice, and a dispatched call has a recorded length for each key |
| ArgJoin.DispatchedAtLastAnswer | src/scheduler/scheduler_server.cpp:553-575 | over any run, a waiting call is dispatched exactly when the last of its missing keys is answered, and until then waits for exactly the unanswered ones |
| ArgJoin.FetchWhenNobodyWaits | src/scheduler/scheduler_server.cpp:502-512 | a call asks for a key if and only if it is absent and no call waits for it yet, and asks once |
| ArgJoin.DispatchesCarryLengths | src/scheduler/scheduler_server.cpp:555-561 | every dispatch lists, key by key, the lengths recorded at that moment |
| ArgJoinRuns.CallKeepsItsName | src/scheduler/scheduler_server.cpp:494-531 | in every run, whatever waits or is dispatched under the id that a call was given is that very call: its function, session, flag and keys |
| ArgJoinRuns.CallWaitsUntilComplete | src/scheduler/scheduler_server.cpp:494-575 | in every run a call is dispatched if and only if each of its keys was on the node before it or has been answered since, and until then waits for exactly the other keys; an object stored meanwhile does not count |
| ArgJoinRuns.DispatchCarriesSizes | src/scheduler/scheduler_server.cpp:556-569 | in every run the dispatch of a call carries, key by key, the sizes last brought by the events up to the one that completes it |
| ArgJoinRuns.KeyLenIsRecorded | src/scheduler/scheduler_server.cpp:534-534 | in every run the recorded length of an object is the size in the last event that brought it, response or local store |
| ArgJoinRuns.CallIdIs | src/scheduler/scheduler_server.cpp:530-530 | in every run the next call id is the number of ids used so far |
| Placement.Survey | src/coordinator/func_call_handler.cpp:44-58 | finds the usable nodes, their total of free executors, and the first node with the most |
| Placement.Fill | src/coordinator/func_call_handler.cpp:65-75 | both loops end, and the loads are a filling: level r on every node and r + 1 on the first ones, as far as each has room, summing up to the number of requests |
| Placement.FilledIsFair | src/coordinator/func_call_handler.cpp:67-75 | no load exceeds the free executors, and only a full node lags another by two |
| Placement.IdleNodesLast | src/coordinator/func_call_handler.cpp:67-75 | nodes without a request come last |
| Placement.FillingUnique | src/coordinator/func_call_handler.cpp:67-75 | the number of requests alone determines the loads |
| Placement.SmallestPeak | src/coordinator/func_call_handler.cpp:67-75 | no other placement of the requests has a smaller largest load |
| Placement.Split | src/coordinator/func_call_handler.cpp:77-95 | each node with a load is sent its slice of the request list and no other node is sent anything |
| Placement.SlicesRejoin | src/coordinator/func_call_handler.cpp:81-95 | the slices put end to end are the request list |
| Placement.Place | src/coordinator/func_call_handler.cpp:43-121 | all paths: whole to the best node, cut over the nodes, refused exactly when the usable nodes have too few free executors, and the fallback for a single request; what is sent always adds up to the request list in order, within each node's capacity when there are several requests, and then never to the node the call came from |
| Dispatcher.Select | src/scheduler/scheduler_server.cpp:131-153 | picks the first available executor that has the function loaded, or when there is none an empty one or, if shared, any available one, and finds none only if there is none of these |
| Dispatcher.Scheduler.CountAvail | src/scheduler/scheduler_server.cpp:57-70 | counts the executors that are empty or available |
| Dispatcher.AvailCountsFree | src/scheduler/scheduler_server.cpp:57-70 | that count is the size of the set of executors in state 0 or 1 |
| Dispatcher.Scheduler.Route | src/scheduler/scheduler_server.cpp:129-216 | a call goes to a chosen executor, which is then awaited, or is queued, forwarded or rejected as configured, and to exactly one of these |
| Dispatcher.Scheduler.Submit | src/scheduler/scheduler_server.cpp:129-216 | the calls ever submitted are exactly those dispatched, queued, forwarded and rejected, as a multiset |
| Dispatcher.Scheduler.DispatchQueued | src/scheduler/scheduler_server.cpp:618-626 | visits one queued call for each available executor, oldest first; a visited call is dispatched or stands at the end with a new time, and at the end of the pass no executor suits any call that stands there; the oldest call is dispatched first if any executor suits it; the others keep their place and time; only calls that some executor suited are dispatched, to executors that were free and pairwise distinct; with shared executors exactly min(available, queued) oldest calls leave, in order |
| Dispatcher.TimeKeptIffNotVisited | src/scheduler/scheduler_server.cpp:620-626 | a call that stays in the queue keeps its time if and only if its index was at least the number of available executors |
| Dispatcher.Scheduler.LimitStartsOver | src/scheduler/scheduler_server.cpp:185-189 | a concrete queue: a call that has waited 100 when 10 are allowed and suits no executor is put back as new |
| Dispatcher.Scheduler.DropExpired | src/scheduler/scheduler_server.cpp:627-646 | gives up on exactly the calls at the front that have waited too long, forwarding or rejecting them in order |
| Dispatcher.Scheduler.Drain | src/scheduler/scheduler_server.cpp:617-647 | one pass, with shared executors or not: conserves all calls, dispatches the oldest if any executor suits it, leaves at the end only calls that none suits any more, then gives up on the overdue front of what is left; afterwards no queued call has waited longer than the limit since its recorded time |
| Dispatcher.TakingOneExecutor | src/scheduler/scheduler_server.cpp:176-176 | dispatching lowers the number of available executors by one |
| Dispatcher.SharedFinds | src/scheduler/scheduler_server.cpp:139-141 | with shared executors an available executor always suits |
| Dispatcher.StillAccounted | src/scheduler/scheduler_server.cpp:620-626 | handing out the front of the queue or putting it back at the end loses no call and keeps the queue in order of time |
| Text.SplitLoop | common/include/common.hpp:109-116 | the `getline` loop computes the tokens of the specification, without an empty piece at the end |
| Text.SplitUndoesJoin | common/include/common.hpp:109-116 | splitting undoes joining if and only if no token holds the separator and the last one is not empty |
| Text.StoiOfNumeral | src/executor/executor_server.cpp:146-146 | a size is read back if and only if it fits a 32-bit int |
| CallMessage.Write | src/scheduler/scheduler_server.cpp:155-168 | the message is the three header bytes and the parts joined by bars |
| CallMessage.ReadFramed | src/executor/executor_server.cpp:87-101 | a message whose first byte is 1 is taken for a call, and reading it recovers the flags and the tokens of the text up to its first zero byte |
| CallMessage.MessageRoundTrip | src/executor/executor_server.cpp:86-101 | the executor recovers session, function and arguments if and only if no part holds a bar or a zero byte and the last part is not empty |
| CallMessage.Fill | src/executor/executor_server.cpp:117-171 | fills every argument slot for each flag, and refuses a token count that is not one more than a multiple of three |
| CallMessage.FillObjects | src/executor/executor_server.cpp:134-164 | each slot is written exactly once, with the object, or with the key and the object, of its own triple |
| CallMessage.SameText | src/scheduler/scheduler_server.cpp:556-559 | naming objects by bucket and key with a bar inside gives the same text as three separate parts |
| CallMessage.ObjectsReadBack | src/executor/executor_server.cpp:94-101 | a call on objects is read as one triple of bucket, key and size for each object |
| CallMessage.CallOnObjects | src/executor/executor_server.cpp:86-171 | end to end, the function gets exactly its objects, in order, each preceded by its key if the flag is 2 |
| CallMessage.NameRoundTrip | common/include/common.hpp:30-72 | a name splits back into bucket, key and session if and only if the bucket has no bar and either the session has 16 characters and the key is not empty or both are empty |
| WordCount.MapWords | examples/cpp/map_reduce/wc_map.cpp:1-6 | each distinct word gets as many ones as it has occurrences |
| WordCount.Sum | examples/cpp/map_reduce/wc_reduce.cpp:1-5 | adds up the values |
| WordCount.Mapper | examples/cpp/map_reduce/mapper_template.cpp:117-151 | each group's object is the printout of the counts of the group's words in the order they are visited; a group without words has no object |
| WordCount.Parse | examples/cpp/map_reduce/reducer_template.cpp:111-135 | the character scan with its moving start pointers computes the specified scan |
| WordCount.Reducer | examples/cpp/map_reduce/reducer_template.cpp:97-149 | parses all objects into one table and adds up the values of each key, or stops at a value that is not a number |
| WordCount.CountGroup | examples/cpp/map_reduce/reducer_template.cpp:84-149 | running all mappers and one reducer computes the output of that group |
| WordCount.ParseUndoesPrint | examples/cpp/map_reduce/reducer_template.cpp:111-135 | parsing a printout enters its records if no word holds a ';'; commas in words do no harm |
| WordCount.TableIsExact | examples/cpp/map_reduce/reducer_template.cpp:97-136 | after any number of mappers the table holds exactly the group's words with their numbers of occurrences |
| WordCount.KeysAreClean | examples/cpp/map_reduce/reducer_template.cpp:116-133 | whatever the text, no key ever holds a ';' |
| WordCount.ExactIff | examples/cpp/map_reduce/mapper_template.cpp:117-151 | for every list of inputs, every visiting order and every grouping function, all reducers together count every non-empty word exactly if and only if no word holds a ';' |
| WordCount.WrongCount | examples/cpp/map_reduce/reducer_template.cpp:121-133 | a concrete input, "a;b b", for which the word b is counted twice |
| PartitionedMap.SafeMap.Emplace | common/include/safe_ptr.hpp:616-618 | inserts into the flat container unless the key is taken |
| PartitionedMap.SafeMap.Erase | common/include/safe_ptr.hpp:625-625 | removes the key from the flat container and returns how many entries went |
| PartitionedMap.SafeMap.EraseLowerUpper | common/include/safe_ptr.hpp:610-614 | removes exactly the flat container's entries in the range |
| PartitionedMap.SafeMap.Clear | common/include/safe_ptr.hpp:626-626 | empties the flat container |
| PartitionedMap.SafeMap.Size | common/include/safe_ptr.hpp:620-624 | the size of the flat container |
| PartitionedMap.SafeMap.GetRangeEqual | common/include/safe_ptr.hpp:593-598 | the flat container's entry of that key, if any |
| PartitionedMap.SafeMap.GetRangeLowerUpper | common/include/safe_ptr.hpp:600-608 | for low <= up, the flat container's entries in the range, in key order |
| PartitionedMap.FlatIsSorted | common/include/safe_ptr.hpp:587-590 | the containers end to end are in strict key order |
| PartitionedMap.PartMonotone | common/include/safe_ptr.hpp:587-588 | greater keys never go to an earlier container |
| PartitionedMap.NothingBetween | common/include/safe_ptr.hpp:600-608 | containers the loop skips have no key in the range |
| PartitionedMap.InsertedLaws | common/include/safe_ptr.hpp:616-618 | inserting keeps the order and adds exactly the new entry, unless its key was taken |
| Lattices.FoldIsLeastUpperBound | common/include/lattices/core_lattices.hpp:31-39 | merging values one by one gives their least upper bound |
| Lattices.Convergence | common/include/lattices/core_lattices.hpp:136-151 | merging the same values in any order and with any repetition gives the same result |
| Lattices.LiftIsSemilattice | common/include/lattices/core_lattices.hpp:136-151 | maps merged key by key inherit the laws from their values |
| Lattices.JoinIsGreatest | common/include/lattices/core_lattices.hpp:31-39 | a merged clock has the keys of both, each with the greatest of its entries |
| Lattices.ClocksConverge | common/include/lattices/core_lattices.hpp:136-151 | vector clocks converge |
| Lattices.ClockMapsConverge | common/include/lattices/core_lattices.hpp:136-151 | maps of vector clocks converge |
| Lattices.ClockTests | common/include/lattices/single_key_causal_lattice.hpp:52-61 | the two comparisons after a merge decide exactly whether the incoming clock or the current one dominates |
| Lattices.VectorClock.InsertPair | common/include/lattices/core_lattices.hpp:136-145 | merges one pair |
| Lattices.VectorClock.Merge | common/include/lattices/core_lattices.hpp:147-151 | merging the pairs in any order gives the join of the clocks |
| Lattices.SingleKeyCausal.Merge | common/include/lattices/single_key_causal_lattice.hpp:52-61 | a dominating version replaces the value, a dominated one changes nothing, a concurrent one is merged in |

## Left out

- Weak memory ordering and the wrap-around of 32-bit cursors: the ring and the mutex are sequentially consistent and the ring's counters unbounded.
- Progress of a ring operation, or of a lock, while other threads keep moving: every operation is shown to end when its thread runs alone from wherever it is.
- The other variants of the ring (single producer, broadcast), `force_push`, connecting and disconnecting receivers.
- The storage pool for large messages and its fallback; message sizes of 2^31 bytes or more.
- Waiters, shared-memory handles, sockets, protobuf encoding, logging, configuration and the loading of function libraries.
- The key-value store clients and the Python clients.
- Rerun timeouts and the session status caches of the triggers.
- The immediate, by-name and by-time triggers, and several triggers on one bucket, which work independently of each other.
- Whether an activation is executed: the coordinator drops one when no worker is available, so the trigger theorems are about activations.
- Shared-to-exclusive upgrades of the mutex, which the original forbids, and the deletion of a mutex while threads are registered.
- In batch placement, that the requests of a split call are sent without the session id.
- The packing of small objects into forwarded calls, and the flattening of their arguments.
- In argument joining, remote get requests that wait for the same object.
- Signs and leading white space in numerals.
- Zero bytes in the inputs of the word count, the size limits of its objects, the overflow of its counts, and the text its reducer finally writes, which has no separators.
- The custom key mode of the map-reduce templates and the sort job.
- Locking inside the partitioned map: each operation is one step.
- The set lattices and the last-writer-wins lattice; for values guarded by a clock only the effect of one merge is stated.
- Which free executor a call gets when several suit, and so which of two calls that suit the same executors is put back: left open, as the original chooses at random.
