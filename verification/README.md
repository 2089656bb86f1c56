# Verified model of shmem-util

A Dafny model of the shared-memory allocator and of the bounded channel of `shmem-util`, with proofs
of what they promise. `dafny verify dfyconfig.toml` checks everything.

## The allocator

`free_space.dfy`, `sorted_vec.dfy`, `chunks.dfy` and `shmem_alloc.dfy` follow the source file by file
and layer by layer; the structures that the source changes in place are classes whose methods are
proved against sets of free cells. `bitmap.dfy` is an independent reference: an allocator that knows
only which cells are free. `runs.dfy` states the representation invariant by addresses (non-empty
runs, none overlapping or touching another) although the list is ordered by size, and proves that the
free cells then determine the list. `merging.dfy` follows one run through its merges. `replay.dfy`
takes whole sequences of requests and returns: the answers are those of the reference, free cells and
live blocks partition the buffer, fragmentation is bounded, and the list depends on nothing but which
blocks are out, so that returns may come in any order and undo their requests.

Sizes and addresses are natural numbers; `ChunksForIsLeast` shows that the one checked addition of the
source cannot overflow. The outcome of the memory mappings enters `ShmemAlloc.New` as parameters; a
mapped buffer is taken to be at a multiple of 8 above 8, as page-aligned non-null addresses are, so
that no live pointer can be mistaken for the dangling pointer of an empty layout.

## The channel

`channel.dfy` is a state machine whose steps are single atomic reads and writes: the load of
`dropping`, taking the mutex, each disjunct of a wait predicate, the reads repeated after the wait,
push, pop, signal, unlock, the load and the exchange of `atomic_checked_sub`, and each step of a clone,
of a drop and of the destruction. Any number of operation calls run at once, each with its own program
counter. Handles are made in the creating process or in forked ones; only the former reach the
reference counter. Taken for granted are mutual exclusion, sequential consistency, and the
`pthread_cond_wait`/`pthread_cond_signal` semantics of POSIX.1-2017: release and sleep are one step, a
signal wakes at least one sleeper if there is one, and sleepers may wake spuriously. A signal is taken
to go to a call that is still asleep; that it may be used up by a call whose deadline has just passed,
which POSIX permits, is assumed away. Timeouts may strike at any time. A queue that is pushed to while full either reallocates or fails.

`channel_safety.dfy` has the invariants of the lock and of each call, `channel_answers.dfy` what each
answer means, `channel_provenance.dfy` what a call has read before each of its steps,
`channel_history.dfy` the FIFO order and the exactly-once ledger, `channel_wakeups.dfy` the accounting behind wakeups,
`channel_lifetimes.dfy` the counters and the destruction, `channel_counting.dfy` the exchange loop of
`atomic_checked_sub`, `channel_delivery.dfy` what can be lost on sleepers in runs without a destruction,
`channel_bounds.dfy` the queue bound, the `expect` calls and the end of the stream,
`channel_closure.dfy` the broadcasts of a closing, `channel_destruction.dfy` the counts the destruction
takes over, and `channel_limits.dfy` the runs that show where
guarantees end, put together with `channel_runs.dfy`. `process_rc.dfy` is the fork-aware counter with
its own interleavings, and `channel_refs.dfy` shows that they refine the machine's single steps.

Six promises hold only under a condition, and the condition is made exact:

- While nothing is destroyed and no closing broadcast is to come, n items can lie beside a sleeping
  receiver with no call woken for them if and only if n calls of `wait_for_message` have found an item,
  since such a call takes a signal and leaves the item; n units of room can lie beside a sleeping sender
  if and only if the queue has grown by n more than the item it grew for, so never within the creation
  capacity (`ItemsLostOnlyToFinders`, `RoomLostOnlyBeyondCapacity`, `LossIff`, with the tight runs
  `ItemsAreForgotten` and `RoomIsForgotten`). `ItemLeftBehindIff` and `RoomLeftBehindIff` say at which
  steps a call leaves something behind.
- A push onto a full queue, or the failure of the `expect` of `try_receive_until`, comes if and only if
  the call has read a peer count of zero and later one above zero (`PushOntoFullIff`, `ExpectFailsIff`).
  Runs in which each of them happens are `EveryCapacityCanBeExceeded`, `SendCanPanic` and
  `ReceiveCanPanic`.
- After the closing broadcast, with the peers staying gone, a receive or send can be asleep at some
  later time if and only if at the broadcast it had read the count, within its deadline, and not yet
  fallen asleep; it can then be left with no broadcast to come (`BroadcastMissesIff`, `StrandedForGood`).
- After the destruction's broadcast to one side, a call of that side can be asleep, even when the
  queue is freed, if and only if at the broadcast it was at the point of falling asleep
  (`DestructionMissesIff`); runs come to that on both sides (`SomeCallIsAbandoned`).
- The reset of the reference counter in a forked child makes it exact if and only if an `increase` is
  the first to swap the pid (`ForkResetIff`). This is about the component alone: `Channel::drop` returns
  before `decrease` in every process but the creating one (src/channel.rs:122-129), and values cloned in
  a child keep the creator's pid. Only `Channel::destroy` gets there, and its safety contract rules out
  an `increase` afterwards.
- `usable_size` agrees with what `alloc_excess` reports on multiples of 8 and on sizes 65 to 71 only
  (`UsableSizeIsRightIff`).

Where code and comments differ the code is followed: `Receiver::receive` is documented to return
`Err(())` without senders and returns `None`; `try_receive_until` answers `NoSenders` even with items
still queued, unlike `receive` and `try_receive_once` (`EndWithItemsIff`, `NoSendersWithItemQueued`).

## Model

| member | source | states |
|---|---|---|
| FreeSpaces.FreeSpace.Split | src/allocator/free_chunk.rs:65-83 | the front keeps exactly the cells below the cut, the rest is there exactly if chunks remain, and has all remaining cells |
| FreeSpaces.MergeJoinsCells | src/allocator/free_chunk.rs:86-100 | two runs merge exactly if one ends where the other begins, into a run with the cells of both |
| FreeSpaces.MergeUndoesSplit | src/allocator/free_chunk.rs:65-100 | merging the parts of a split, in either order, gives the run back |
| FreeSpaces.OrderIsTotal | src/allocator/free_chunk.rs:109-115 | a run comes before another exactly if it has fewer chunks, or as many and a lower beginning: a strict total order whose equality is equality |
| SortedVec.FixesSortedVec.UpperBound | src/allocator/chunks/sorted_vec.rs:18 | the binary search finds the first index whose element is greater |
| SortedVec.FixesSortedVec.LowerBoundByCount | src/allocator/chunks.rs:34-36 | the binary search finds the first run with at least the required count |
| SortedVec.FixesSortedVec.Push | src/allocator/chunks/sorted_vec.rs:16-22 | with a free slot, the vector stays sorted and gains exactly the item |
| SortedVec.FixesSortedVec.Pop | src/allocator/chunks/sorted_vec.rs:24-26 | the item at the index is returned and exactly that one leaves |
| SortedVec.SortedPermutationIsUnique | src/allocator/chunks/sorted_vec.rs:16-22 | sorted sequences with equal multisets are equal |
| SortedVec.PushAll | src/allocator/chunks/sorted_vec.rs:43-54 | pushing any sequence yields its one sorted permutation |
| ChunksManager.ChunksForIsLeast | src/allocator/chunks.rs:29-33 | the rounding gives the least sufficient number of chunks and its checked addition never overflows |
| ChunksManager.Chunks.constructor | src/allocator/chunks.rs:19-23 | a new manager has one run covering every cell |
| ChunksManager.Chunks.FindAndMerge | src/allocator/chunks.rs:70-78 | the first mergeable entry and the merged run, or none exactly if nothing merges |
| ChunksManager.Chunks.MergeNeighbours | src/allocator/chunks.rs:56-61 | the loop ends with a run that is apart from every entry; list and held run keep the cells throughout |
| ChunksManager.Chunks.PushApart | src/allocator/chunks.rs:63-64 | pushing a run apart from all others keeps the invariant, and there is a slot for it |
| ChunksManager.Chunks.InsertChunkAndMerge | src/allocator/chunks.rs:50-68 | the invariant is restored, exactly the run's cells are added, and the list grows by one less the number of free neighbours (at most two merges) |
| ChunksManager.Chunks.Get | src/allocator/chunks.rs:28-48 | answer and new free cells are those of the bitmap reference; the reinserted rest never merges |
| ChunksManager.Chunks.ReturnBack | src/allocator/chunks.rs:81-92 | exactly the block's cells become free again, the invariant holds |
| ChunksManager.FrontTaken | src/allocator/chunks.rs:34-47 | taking the front of the first sufficient entry is the best-fit answer, and the rest touches nothing free |
| ChunksManager.RoomForOneMore | src/allocator/chunks/sorted_vec.rs:17 | the capacity assertion cannot fire: a run apart from all listed ones always has a slot |
| Merging.NothingToMerge | src/allocator/chunks.rs:57-64 | when the scan finds nothing, the held run is apart from every entry |
| Merging.MergeStep | src/allocator/chunks.rs:57-61 | each merge, whichever neighbour is found first, keeps the loop invariant with the half-merged run outside the list |
| Bitmap.RequestIsDeterministic | src/allocator/chunks.rs:28-48 | the reference leaves no choice of answer or new state |
| Bitmap.AnswerIsFree | src/allocator/chunks.rs:38-47 | a granted block was free, has the asked length and is cut off exactly |
| Runs.ListedIffMaximal | src/allocator/chunks.rs:101-125 | the listed runs are exactly the maximal runs of free cells |
| Runs.CanonicalFormIsUnique | src/allocator/chunks.rs:101-125 | lists meeting the invariant with the same free cells are equal |
| Runs.FitsIffConsecutive | src/allocator/chunks.rs:25-37 | a request can be met exactly if that many consecutive cells are free |
| Runs.LastDecides | src/allocator/chunks.rs:94-98 | a request can be met exactly if it fits the last entry |
| Runs.FirstSufficientIsBestFit | src/allocator/chunks.rs:34-38 | the entry found by the search is the sufficient run of the smallest count, and among those the one that begins lowest |
| Runs.HalfFull | src/allocator/chunks/sorted_vec.rs:12-22 | a non-empty list of length n needs 2n - 1 cells, so the capacity always suffices |
| Replay.RunKeepsPartition | src/allocator/chunks.rs:28-92 | in every state of every run free cells and live blocks are disjoint and cover the buffer |
| Replay.ReferenceRunIsDeterministic | src/allocator/chunks.rs:28-92 | a sequence of requests and returns determines all answers and states of the reference |
| Replay.Perform | src/allocator/chunks.rs:28-92 | one request or return on the real list is a step of the bitmap reference, with its answer |
| Replay.ReplayActions | src/allocator/chunks.rs:163-202 | on the real list, any sequence of requests and returns gets the reference's answers and ends in its canonical list |
| Replay.ListDependsOnBlocksOut | src/allocator/chunks.rs:28-92 | two whole runs that end with the same blocks out end with equal lists |
| Replay.GetAndReturn | src/allocator/chunks.rs:28-92 | on the real list, a request and the return of its block leave the exact list as it was |
| Replay.ReturnUndoesRequest | src/allocator/chunks.rs:28-92 | after any run, a further request and the return of its block end in the same list as without them |
| Replay.ReturnOrderIsIrrelevant | src/allocator/chunks.rs:50-92 | after any run, the same blocks given back in any two orders end in equal lists |
| Replay.AllReturnedIsInitial | src/allocator/chunks.rs:19-23 | with everything returned the list is the initial single run |
| Replay.FragmentationBound | src/allocator/chunks.rs:50-68 | after any run there is at most one free run more than there are live blocks |
| Replay.NextRequestIff | src/allocator/chunks.rs:28-37 | after any run the next request is granted exactly if it fits a free run |
| Replay.EnoughFreeCellsAreAnswered | src/allocator/chunks.rs:28-68 | after any run with m live blocks and more than (m + 1)n cells free, the next request for at most n + 1 chunks is granted |
| ShmemAllocator.UsableBytesIsLeast | src/allocator.rs:158 | the reported usable size is the least multiple of 8 that holds the request |
| ShmemAllocator.AlignmentOkIff | src/allocator.rs:107-118 | a non-empty layout passes exactly if its alignment is 1, 2, 4 or 8 (or zero, which no layout has) |
| ShmemAllocator.UsableSizeIsOffBy | src/allocator.rs:137-149 | off multiples of 8 `usable_size` loses the remainder and gains one for each full chunk; an unusable alignment gives zero |
| ShmemAllocator.UsableSizeIsRightIff | src/allocator.rs:137-149 | `usable_size` equals the reported size exactly on multiples of 8 and on 65 to 71 |
| ShmemAllocator.UsableSizeCanBeTooSmallOrTooLarge | src/allocator.rs:137-149 | concrete sizes on which `usable_size` is too small and too large |
| ShmemAllocator.ShmemAlloc.New | src/allocator.rs:76-105 | succeeds exactly for a positive multiple of 8 with all mappings made, with nothing live; each of the five errors occurs exactly in its case |
| ShmemAllocator.ShmemAlloc.AllocExcess | src/allocator.rs:151-169 | a non-empty request succeeds exactly if its alignment is 1, 2, 4 or 8 and enough consecutive chunks are free; the block is aligned, inside the buffer, of the reported size, and shares no byte with a live one |
| ShmemAllocator.ShmemAlloc.Alloc | src/allocator.rs:124-128 | the same answer without the size, under the same condition and with the same effect on free chunks and live blocks |
| ShmemAllocator.ShmemAlloc.Dealloc | src/allocator.rs:171-189 | the same pointer and layout give back exactly that block's chunks; dangling, misaligned and low pointers change nothing |
| ShmemAllocator.ChunkBoundaryIsAligned | src/allocator/free_chunk.rs:34-37 | a chunk boundary satisfies every alignment that divides 8 |
| ShmemAllocator.BytesApart | src/allocator/free_chunk.rs:34-37 | chunk-disjoint allocations are byte-disjoint |
| ShmemAllocator.BlockIsNew | src/allocator.rs:157-161 | a granted block extends the partition of the buffer among live allocations |
| ChannelSafety.BasicStep | src/channel.rs:365-562 | every step keeps lock ownership, the queue's history, and for each call the truth of why its wait ended |
| ChannelAnswers.AnswerIff | src/channel.rs:392-562 | in every run, for every operation and every answer, `Panicked` included: a call has that answer exactly if a step of its own decided so, each such step stated on the queue, the counts, `dropping` and the lock |
| ChannelProvenance.EveryPointIsLedTo | src/channel.rs:392-562 | in every run, each point of a call is where its last step leads, given what that step read |
| ChannelProvenance.LocksOnlyWhenOpen | src/channel.rs:417-429 | a call takes the mutex only if its last step, after every failed attempt too, read `dropping` unset |
| ChannelProvenance.LooksBeforeSleeping | src/channel.rs:430-434 | a call goes to sleep only after reading, one after the other, nothing there, peers present (unless a waiter), `dropping` unset |
| ChannelProvenance.LooksBeforeActing | src/channel.rs:501-509 | a send, or a receive with a deadline, pushes or pops only after reading a reason to stop waiting, then peers present, then `dropping` unset |
| ChannelProvenance.TimeUpIff | src/condvar.rs:177-208 | an operation with a deadline answers that its time is up exactly if an attempt to lock failed, or its deadline passed in its sleep and it then looked in vain with peers present and `dropping` unset |
| ChannelProvenance.NeverSleepsPastDeadline | src/condvar.rs:194-199 | a call whose deadline passed in its sleep does not sleep again |
| ChannelProvenance.OnceEndsIff | src/channel.rs:466-482 | `try_receive_once` that popped nothing answers `NoSenders` exactly if it then read no senders, or `dropping`; else `TimedOut` |
| ChannelHistory.FifoAndConservation | src/channel.rs:367-384 | in every state the pushed items are the popped ones followed by the queue, and each popped one went to one receive |
| ChannelHistory.FailedSendHandsBackItsItem | src/channel.rs:485-562 | a failed send returns its own item and pushed nothing; a successful one pushed its item exactly once |
| ChannelHistory.ReceivedOnceAndSent | src/channel.rs:415-482 | what a receive returns was sent, by a call that succeeded, and went to no other receive |
| ChannelWakeups.AttendedStep | src/condvar.rs:117-208 | every step keeps: while someone sleeps, what is available is matched by calls under way, a pending signal, or an earlier call's leaving |
| ChannelWakeups.RunKeepsWakeups | src/channel.rs:367-384 | that invariant in every state of every run, for items and for room |
| ChannelWakeups.NoLostItem | src/channel.rs:415-463 | with nothing left behind and the mutex free, a sleeping receiver means at most as many items as woken calls |
| ChannelWakeups.NoLostRoom | src/channel.rs:485-541 | the same for free room and sleeping senders |
| ChannelWakeups.ItemLeftBehindIff | src/channel.rs:401-463 | an item is left behind exactly when `wait_for_message` finds one, or `try_receive_until` reads no senders or `dropping` with items queued |
| ChannelWakeups.RoomLeftBehindIff | src/channel.rs:501-561 | room is left behind exactly when a send reads no receivers or `dropping` although there is some |
| ChannelWakeups.NothingLeftBehind | src/channel.rs:415-562 | with peers for every running call, no destruction and no mere waiting, nothing is ever left behind |
| ChannelWakeups.NeverAvailableWithAllAsleep | src/channel.rs:415-541 | then items (room) are never there with every receiver (sender) asleep |
| ChannelDelivery.UnforsakenStep | src/channel.rs:223-233 | every step keeps: with the peers gone, whoever sleeps beside something not excused by finders or growth has a closing broadcast ahead |
| ChannelDelivery.ItemsLostOnlyToFinders | src/channel.rs:392-463 | in every run without destruction, peers or not: with the mutex free and a receiver asleep, at most as many items as woken calls and waiters that have found one, or a closing broadcast is to come |
| ChannelDelivery.RoomLostOnlyBeyondCapacity | src/channel.rs:485-541 | in every run without destruction, grown or not: with the mutex free and a sender asleep, at most as much room within the creation capacity as woken calls, or a closing broadcast is to come |
| ChannelDelivery.NoLostWakeup | src/channel.rs:365-562 | in particular, without `wait_for_message` (growth), at most as many items (as much room) as woken calls |
| ChannelLimits.LossIff | src/channel.rs:365-562 | over all runs without destruction, n items can be lost with e finders, and n units of room with e added by growth beyond its item, exactly if n <= e |
| ChannelLimits.ItemsAreForgotten | src/channel.rs:392-412 | for every n, a run in which n calls of `wait_for_message` take every signal and n items lie beside a sleeping receiver, with both peers there throughout |
| ChannelLimits.RoomIsForgotten | src/channel.rs:501-509 | for every capacity and extra room, a run in which the queue grows while a sender sleeps on beside the new room |
| ChannelLimits.EveryCapacityCanBeExceeded | src/channel.rs:501-509 | for every capacity, a run that pushes beyond it after a receiver reappears |
| ChannelLimits.SendCanPanic | src/channel.rs:501-541 | for every capacity, a run in which the `expect` of `try_send` (`try_send_until`) fails because the full queue cannot grow |
| ChannelLimits.ReceiveCanPanic | src/channel.rs:448-461 | a run in which the `expect` of `try_receive_until` fails after a sender reappears |
| ChannelLifetimes.CountersAreExact | src/channel.rs:38-104 | the reference counter equals the live values; each count equals creations less decrements while nothing is destroyed |
| ChannelLifetimes.OnlyOneDestruction | src/channel.rs:131-138 | at most one drop in a run takes the destruction path |
| ChannelLifetimes.DestructionIffLastReleased | src/channel.rs:131-138 | one does exactly when no value of the creating process holds a reference |
| ChannelLifetimes.LastDropFindsChannelIdle | src/channel.rs:137-172 | in a single process the destruction finds zero counts, a free mutex, no call running or asleep, all other values gone |
| ChannelCounting.DropIsOneSaturatingDecrement | src/channel.rs:193-233 | in every run, the exchange loop of each drop is one atomic saturating decrement at one of its steps, with the answer that belongs to it, and its other steps change nothing |
| ChannelCounting.EachDropDecrementsOnce | src/channel.rs:193-233 | over a whole run each drop decrements its count exactly once, by the time it leaves the loop, unless a destruction has zeroed the counts under values of other processes |
| ChannelCounting.DecrementNeverSaturates | src/channel.rs:193-221 | with matched makes and drops and no destruction the counter is never found at zero |
| ChannelBounds.PushOntoFullIff | src/channel.rs:501-509 | a send is about to push onto a full queue exactly if it has read no receivers and later some; `try_send_once` never is |
| ChannelBounds.ExpectFailsIff | src/channel.rs:448-461 | the `expect` of `try_receive_until` is about to fail exactly if the call has read no senders and later some |
| ChannelBounds.QueueBound | src/channel.rs:485-562 | if receivers once gone stay gone, the queue never exceeds its capacity and no send panics |
| ChannelBounds.ReceiveNeverPanics | src/channel.rs:439-463 | if senders once gone stay gone, no receive panics |
| ChannelBounds.EndOfStreamIsFinal | src/channel.rs:415-482 | if senders once gone stay gone, after `None` or `NoSenders` given with nothing being destroyed, everything pushed has been popped, for good, even through a later destruction |
| ChannelBounds.EndWithItemsIff | src/channel.rs:448-459 | `try_receive_until` answers `NoSenders` after its wait with items queued exactly if its wait ended because there was one |
| ChannelLimits.NoSendersWithItemQueued | src/channel.rs:458-459 | a run in which it does |
| ChannelClosure.BroadcastMissesIff | src/channel.rs:223-233 | after a closing broadcast, while the peers stay gone, a receive (send) can be asleep exactly if at the broadcast it had read the count, within its deadline, and not yet fallen asleep; exactly those can be left with no broadcast to come |
| ChannelClosure.StrandedForGood | src/condvar.rs:117-208 | over any stretch of a run: until a peer comes or a destruction begins, only a spurious wakeup or its deadline wakes such a call |
| ChannelClosure.SomeCallIsStranded | src/channel.rs:328-338 | for every capacity, runs that leave a receive, and runs that leave a send, asleep in this way |
| ChannelClosure.DestructionMissesIff | src/channel.rs:137-166 | after the destruction's broadcast to receivers (senders) of other processes, a call of that side can be asleep, and be so when the queue is freed, exactly if at the broadcast it had passed its last check and not yet fallen asleep |
| ChannelDestruction.DestructionActsOnWhatItFound | src/channel.rs:138-154 | the destruction takes both counts to zero after setting `dropping`, and whether it broadcasts to a side is decided by the count it found there |
| ChannelClosure.SomeCallIsAbandoned | src/channel.rs:137-166 | for every capacity and both sides, a run in which that happens, up to the queue freed with the call asleep |
| ChannelRefs.StepsRefineMachine | src/process_rc.rs:26-52 | in the creating process every step of an `increase` or `decrease` is silent or is the channel machine's atomic step, with its counter and its answer, and each call has one such step, its last |
| ProcessRc.ForkResetIff | src/process_rc.rs:26-52 | in a child, over all interleavings of increases and decreases, the settled counter is increases less decreases exactly if an `increase` swapped the pid first; otherwise the inherited count stays in it and a `decrease` has claimed to be the last |
| ProcessRc.IncreasePanicsIff | src/process_rc.rs:29-32 | in a child the "counter equals to zero" panic fires exactly if the inherited count is zero and an `increase` is the first to swap the pid |
| ProcessRc.ForkResetIsInterleavingIndependent | src/process_rc.rs:26-37 | in a fresh child any interleaving of k increases keeps the counter positive, never panics, and ends at exactly k |
| ProcessRc.HomeCounterIsExact | src/process_rc.rs:26-52 | in the creating process the counter is the initial count plus increases less decreases, and no decrease claims to be the last without counting |
| ProcessRc.DecreaseFirstForestallsReset | src/process_rc.rs:40-52 | a run of the component alone in which a decrease comes first in the child, claims to be the last, and the reset never happens |

## Left out

- Allocation failures of the internal vector, box and buffer have no cause in the model; they are parameters of `ShmemAlloc.New`.
- The sorted vector is modelled for `FreeSpace`, its only use, and as a sequence with a fixed capacity; `Vec` and `VecDeque` internals are not part of this model.
- The `while let` loop of `insert_chunk_and_merge` and its final push are methods of their own here, so that each stays small.
- The channel is modelled on values, as steps between states, because its behaviour is that of interleavings; update in place and aliasing of `Inner` are not captured.
- ReceiveNeverPanics: no claim without its condition, because a sender that reappears after a zero count was read makes the `expect` fail (`ReceiveCanPanic`).
- EachDropDecrementsOnce: no claim once a destruction has set the counts to zero while other processes still have values, because their drops then find nothing to take off.
- EndOfStreamIsFinal: says nothing about `try_receive_until`, which can answer `NoSenders` with items still queued; `EndWithItemsIff` says when.
- No claim that every blocked call returns after closure: `BroadcastMissesIff` and `DestructionMissesIff` say which calls need not.
- Relaxed loads in `atomic_checked_sub` are treated as sequentially consistent; overflow of the counts past the machine word is not modelled.
- What happens after the queue's memory is freed, drops of handles copied by `fork`, and `Channel::destroy`: governed by obligations on the user.
- `alloc_zeroed`, whose claim about reused memory the code does not keep, and `time.rs`: timeouts strike at any step instead.
- Mutex and condition variable attributes, logging, page size, `ShmemSafe`, benches and examples: foreign calls or no behaviour.
