# LBZ: a verified model of the block translation layer

LBZ is a log-structured block translation layer over a zoned (ZNS) SSD. Writes are
appended to zones, a logical-to-physical mapping and per-zone reverse maps say where each
block lives, a collector moves live blocks out of a victim zone, and a worker closes and
resets zones. Writers, readers, the collector and the worker interleave; the C code guards
its global correctness with `BUG_ON` and `panic` only. This project models that behaviour as
one state machine, proves one inductive invariant over all of its steps, and derives the
guarantees from it for every run.

## How it is organised

| files | content |
|---|---|
| `Machine.dfy` | the state and its twenty-three kinds of step |
| `Counting.dfy`, `Invariant.dfy`, `Frames.dfy` | exact counts over operations in flight, the invariant, how its parts react to one change |
| `TaskSteps.dfy`, `TreeSteps.dfy`, `ReadSteps.dfy`, `CollectorSteps.dfy`, `ZoneSteps.dfy`, `MapSteps.dfy`, `Runs.dfy` | every step keeps the invariant, hence every reachable state has it |
| `Placement.dfy` | where tasks wait: every step keeps each idle task in exactly one place |
| `Refinement.dfy`, `Discards.dfy`, `LostDiscard.dfy` | every run is a run of a plain array of blocks; when a discard is final, and a run in which one is not |
| `Guarantees.dfy`, `Progress.dfy`, `ExactlyOnce.dfy` | what the code asserts and relies on |
| `Effort.dfy`, `Liveness.dfy` | measures of the work under way, and the runs that end a collection, dispatch a writer and drain the device |
| `Turns.dfy`, `Driver.dfy`, `Retry.dfy` | what runs leave unseen; the driver as an object whose methods change its fields statement by statement; each method is proved to be a step, or a run, of the machine |
| `Division.dfy`, `Paging.dfy`, `MappingTree.dfy`, `ReverseMap.dfy`, `Tables.dfy` | the three-level mapping tree and the paged reverse map as flat maps, block addresses, and both together as the machine's maps |
| `NatSit.dfy`, `CommitRace.dfy`, `LongBio.dfy` | the twin free list, its commit while writers go on, long requests |
| `WorkerFlag.dfy`, `EndioHalves.dfy` | the worker's shared flag; the GC completion in two halves |
| `ResetHalves.dfy`, `Owing.dfy`, `EarlyReset.dfy`, `Starvation.dfy` | the device with the reset in two halves, what it must heed, and why it must |
| `Scenes.dfy` | whole writes on a device that is otherwise idle, for the small runs of `LostDiscard`, `WorkerFlag`, `EarlyVictim` and `LostStreams` |
| `EarlyVictim.dfy`, `LostStreams.dfy` | two runs of that device in which GC-flagged attempts fail |

Zone capacity, number of zones, number of streams, number of logical blocks, and all page and
node sizes are symbolic. `Reachable(c, s)` means that some sequence of enabled steps leads from
an all-empty device to `s`. Lemmas about one step assume the invariant `Inv`, or `Sound`, which is
`Inv` with the places of tasks; the initial state has both and so has every reachable state
(`Runs.ReachableInv`, `Placement.ReachableSound`). Both are made of named parts (`Invariant.Part`,
`Placement.Spot`), of which a proof looks up those it needs.

## Choices

- One endio handler, one lock-protected section, one worker action on one zone and one turn of
  the collector's loop are each one atomic step. In the machine the
  stream that an allocation tries first is arbitrary, and the fallback then tries every other one;
  the driver's methods take the block's own stream first, which is an arbitrary function of the block.
- An append stores at the zone's device write pointer and returns that address (Zone Append,
  section 3.4.1 of the NVM Express Zoned Namespace Command Set Specification 1.1). The order in
  which the device executes outstanding appends is arbitrary.
- Runs are fault free and start from an all-empty device (`src/create.sh:2`).
- Tasks wait in the state itself: in the queue of writes, in the queue of GC tasks, on the list that
  the retry worker has spliced off one of them, or in the hand of whoever submits them. A step of a
  submission needs the task in hand, so a task that were lost from its queue could never go on.
- The worker decides zone by zone, as its comments intend. The code keeps one flag for the whole
  pass; `WorkerFlag` states exactly when that is the same, for the zones as the pass finds them one after
  the other while the device goes on, and gives two runs in which it closes a zone that is still
  being written: one in which the zone is being written before the pass starts, and one in which a
  write overtakes the pass.
- A reset is one step. The code clears the zone's GC flag (`src/lbz-zone-metadata.c:661`) before it
  credits the zone's blocks under a lock (`src/lbz-zone-metadata.c:664-671`), and the collector tests
  the flag without that lock (`src/lbz-gc.c:85`). `ResetHalves` is the device in which the halves are two
  steps with anything in between. There no GC-flagged task runs out of streams if every victim
  chosen in between holds no more valid blocks than can be allocated, and the credit never comes
  while such a task has tried a stream in vain (`EarlyReset.HeedfulNeverStarves`). Nothing in the
  code sees to either. The first is exactly what is needed: for any number of streams, from every
  state between the halves that is sound once credited (`Starvation.ChoiceIff`), and with one stream
  after every sparing run (`Starvation.EarlyChoiceIff`). The second is exactly when the credit keeps what the proof
  rests on (`EarlyReset.CreditIff`), and `LostStreams` is a run with two streams in which it alone is
  not heeded and a GC task tries both in vain.
- A discard that meets a GC write past its re-check can be undone by that write's callback.
  `Refinement` proves the plain array for runs without such discards, which include all runs of the
  default build; `Discards` proves that exactly the other discards are final, and the weaker array
  for every run; `LostDiscard` gives a reachable discard that does not last.
- A read of an unmapped block ends at once. The log text says that it reads zero, but nothing writes
  its pages (`src/lbz-io-scheduler.c:248-253`); the array theorems say nothing of such reads.
- The reverse-map macro fetches one entry past the last before it tests its bound. The walk
  in `ReverseMap` reports that fetch, with the exact condition under which it leaves the page table.
- The split loop counts eight sectors from the start of the request, so the pieces are single blocks
  only for a request that does not cross its first block boundary; `LongBio.PiecesInOneBlockIff` gives
  the exact condition and `LongBio.UnalignedPieces` a request that fails it. The device announces
  logical blocks of 4 KiB (`src/lbz-dev.c:277-279`, `src/lbz-proc.c:55`), so such a request is
  outside its queue limits; `LongBio.AlignedPieces` is the case inside them.
- `lbz_nat_sit_add_rule` checks that the tables start at a segment, not at a pair of segments;
  `NatSit.TwinClosedIff` gives the condition under which twins stay inside the tables, and
  `NatSit.AcceptedNotClosed` an accepted layout that fails it.

## Model

| member | source | states |
|---|---|---|
| Runs.StepKeepsInv | src/lbz-io-scheduler.c:327-856 | every step of writers, readers, collector and worker keeps the whole invariant: maps inverse, exact references and counters, zone life cycle, task links, space owed to GC |
| Runs.InitialInv | src/lbz-zone-metadata.c:691-746 | an all-empty device satisfies the invariant |
| Runs.RunKeepsInv | src/lbz-io-scheduler.c:327-856 | so does every state of every run |
| Runs.ReachableInv | src/lbz-zone-metadata.c:453-680 | and every reachable state |
| TaskSteps.SubmitInv | src/lbz-io-scheduler.c:549-574 | submitting a write keeps the invariant |
| TreeSteps.InsertInv | src/lbz-io-scheduler.c:16-44 | inserting a task, or meeting another one in the tree, keeps the invariant |
| TreeSteps.ResolveInv | src/lbz-io-scheduler.c:339-345 | a conflict, including the parking of a GC task on a writer whose last reference it then drops, keeps the invariant |
| TreeSteps.MeetsUser | src/lbz-io-scheduler.c:761-771 | whoever a GC task meets in the tree is a user write on the same block |
| ZoneSteps.OpenInv | src/lbz-zone-metadata.c:431-442 | opening a zone from the empty list keeps the invariant |
| ZoneSteps.TryAllocInv | src/lbz-zone-metadata.c:453-525 | an allocation, with or without opening a zone and with or without filling it, keeps the invariant, the space owed to GC included |
| ZoneSteps.AppendInv | src/lbz-io-scheduler.c:386-405 | a device append lands on a fresh slot of the chosen zone and keeps the invariant |
| MapSteps.UnmapInv | src/lbz-nat-sit.c:64-72 | giving up a block's copy keeps the invariant |
| MapSteps.EndioInv | src/lbz-io-scheduler.c:186-218 | the completion of a user or GC write, with the release of the old copy, keeps the invariant |
| ReadSteps.LookupInv | src/lbz-io-scheduler.c:241-259 | a lookup that takes a zone reference keeps the invariant |
| ReadSteps.ReadEndioInv | src/lbz-io-scheduler.c:159-174 | the end of a read keeps the invariant |
| CollectorSteps.SelectInv | src/lbz-zone-metadata.c:356-393 | taking a victim keeps the invariant: what the victim still needs fits in the reserve |
| CollectorSteps.VisitInv | src/lbz-gc.c:33-49 | one turn of the collector's loop keeps the invariant |
| CollectorSteps.EndScanInv | src/lbz-gc.c:50-53 | dropping the collector's own reference keeps the invariant |
| Runs.RecheckInv | src/lbz-io-scheduler.c:772-793 | the re-check under the tree slot, stale or not, keeps the invariant |
| CollectorSteps.FinishInv | src/lbz-io-scheduler.c:632-648 | the tail of a GC callback keeps the invariant |
| ZoneSteps.CloseInv | src/lbz-zone-metadata.c:615-637 | closing a written-out zone keeps the invariant |
| ZoneSteps.ResetInv | src/lbz-zone-metadata.c:638-673 | resetting the victim keeps the invariant |
| Refinement.StepRefines | src/lbz-io-scheduler.c:176-219 | each step is a step of a plain array: a write takes effect at its endio, a read is fixed at its lookup, collection, closing and resetting change nothing |
| Refinement.EndioAbs | src/lbz-io-scheduler.c:613-630 | a user completion stores the submitted page at the submitted block; a GC completion changes nothing unless its block was discarded meanwhile |
| Refinement.RunRefines | src/lbz-io-scheduler.c:241-259 | every run with safe discards is a run of the plain array |
| Refinement.DeviceRefinesArray | src/lbz-io-scheduler.c:159-219 | from an empty device, the visible blocks are those of the array, and a read that completes delivers the value recorded at its lookup, whatever ran in between |
| Refinement.OnlyRecheckPasses | src/lbz-io-scheduler.c:772-793 | only a successful re-check takes a GC task to the point where it will write |
| Refinement.StepKeepsNoGhost | src/lbz-io-scheduler.c:620-630 | without an unsafe discard no GC task ever carries a discarded block |
| Discards.DiscardFinalIff | src/lbz-nat-sit.c:61-73 | in every reachable state, whatever GC tasks still hold of blocks discarded before: a discard is final, that is, in every run up to the next discard of this block the block and each read of it made since are what the array says, exactly when no GC task holds the block past its re-check |
| Discards.UnsafeComesBack | src/lbz-io-scheduler.c:794-822 | otherwise a run without any further discard brings the very page back that was discarded, while the array's block stays empty |
| Discards.GhostReturns | src/lbz-io-scheduler.c:613-630 | a GC task that carries a discarded block comes to its callback by steps of its own and restores the page |
| LostDiscard.DiscardUndone | src/lbz-nat-sit.c:61-73 | a reachable state of a device of three zones, its discard of a block, and a run after which the block has its page again |
| Refinement.UnsafeDiscard | src/lbz-nat-sit.c:61-73 | such a discard leaves a GC task past its re-check that carries the discarded block |
| Refinement.GhostUndoesDiscard | src/lbz-io-scheduler.c:622-629 | once landed, that task's callback restores the discarded page |
| Discards.StepIsLoose | src/lbz-io-scheduler.c:622-629 | any step is one of an array in which a GC completion may bring back the page last discarded from a block, and nothing else |
| Discards.RunIsLoose | src/lbz-nat-sit.c:54-81 | the same for every run with discards anywhere |
| Discards.UndiscardedIsExact | src/lbz-nat-sit.c:61-73 | in such a run a block that is never discarded is exactly what the plain array says |
| Discards.UndiscardedBlocks | src/lbz-nat-sit.c:61-73 | so on the device, for the block, for the writes under way on it and for the values that reads of it deliver, whatever else is discarded |
| Guarantees.ReserveIsEnough | src/lbz-io-scheduler.c:347-374 | a GC-flagged allocation, by a GC task or by a writer that carries one, always finds an untried stream with room |
| Guarantees.GcNeverStarves | src/lbz-io-scheduler.c:794-822 | in every reachable state a GC-flagged task has not tried all streams, and the last one left succeeds, for any number of streams, a reset being one step |
| Guarantees.ResetIsSafe | src/lbz-zone-metadata.c:638-673 | a zone being reset has weight 0, no mapping into it and no read, write or GC task on it |
| Guarantees.RelocationIsExact | src/lbz-io-scheduler.c:756-793 | past its re-check a GC task's block maps to its source or was discarded, the source is referenced and cannot be reused, and the copied page is the source's |
| Guarantees.MapsAreInverse | src/lbz-io-scheduler.c:186-196 | a block maps to an address exactly when that address's reverse entry is the block |
| Guarantees.ZoneLedger | src/lbz-zone-metadata.c:89-133 | a zone's references, pending writes, weight and write pointer are exactly what the operations in flight account for |
| Guarantees.GlobalLedger | src/lbz-zone-metadata.c:495-503 | allocable blocks are the unallocated ones, valid blocks are the mapped ones plus writes under way, no counter is negative |
| Guarantees.LifeCycleIsPartition | src/lbz-zone-metadata.c:612-676 | a zone is in exactly one of empty list, active slot, limbo, full list, collection; an active one is never full and a full one is completely written |
| Guarantees.VictimIsBest | src/lbz-zone-metadata.c:356-393 | in every reachable state, a victim that can be chosen is a full zone with something to win, and no other full zone has fewer blocks to move |
| Guarantees.OneVictimOneMove | src/lbz-gc.c:85-88 | one victim at a time, one GC task per block, and a GC task always meets a writer that carries no other GC task |
| Guarantees.ParkedIsCarried | src/lbz-io-scheduler.c:105-123 | a parked GC task's host is alive and carries exactly it, even when only the parker still holds the host |
| Guarantees.TreeIsExact | src/lbz-io-scheduler.c:16-54 | a task is in the tree exactly while its status says so, and its reference count is exact |
| Placement.StepKeepsPlaced | src/lbz-io-scheduler.c:411-530 | every step keeps each task that is not on the device, parked or called back in exactly one place: one of the two queues, the retry worker's list or a submitter's hand, each holding it once |
| Placement.ReachableSound | src/lbz-io-scheduler.c:411-530 | so in every reachable state |
| Placement.UserTaskPlace | src/lbz-io-scheduler.c:549-582 | in every reachable state a live user write is in exactly one of queue, worker's list, hand and device, and holds its tree slot exactly by its status |
| Placement.GcTaskPlace | src/lbz-io-scheduler.c:650-662 | the same for a GC task until its callback: being read or written, queued, on the worker's list, in the worker's hand, parked or in its callback |
| Placement.DrainedMeansIdle | src/lbz-dev.c:326-336 | when both write counters are zero the tree and both queues are empty, nobody has a task in hand, no zone has a pending write and every remaining task is done |
| Progress.SomeLightZone | src/lbz-zone-metadata.c:356-393 | with fewer logical blocks than (zones - streams) * capacity, a settled state short of space has a full zone with an invalid block |
| Progress.RefusedHasVictim | src/lbz-zone-metadata.c:466-472 | so a victim exists whenever user writes are refused in a settled state |
| Progress.ResetAdmitsWriters | src/lbz-zone-metadata.c:657-671 | after a reset no writer is refused for space |
| Liveness.Advance | src/lbz-io-scheduler.c:411-509 | as long as anything is under way, some run of steps that bring in nothing from outside reduces the work left or dispatches a waiting write: writers, collector and workers never deadlock |
| Liveness.GcCanComplete | src/lbz-gc.c:26-54 | from every such state, steps already in flight alone lead to the reset and to a zone's worth of allocable blocks |
| Liveness.CollectionCanEnd | src/lbz-gc.c:26-54 | the same for every reachable state |
| Liveness.OneCycleAdmits | src/lbz-zone-metadata.c:466-472 | from a settled state that refuses writers, choosing one victim and completing that one collection admits them |
| Liveness.WriterCanProceed | src/lbz-io-scheduler.c:327-405 | from every reachable state, each waiting write can be brought to the device by steps that bring in nothing from outside, whatever the shortage of space and whatever is under way, with fewer logical blocks than (zones - streams) * capacity |
| Liveness.DeviceCanDrain | src/lbz-dev.c:326-336 | and all operations can be brought to their end, so that the removal's wait can be over |
| ExactlyOnce.MoveEndsOnce | src/lbz-io-scheduler.c:613-648 | a GC task dies only by its own callback, comes alive only by being issued, and the in-flight counter follows |
| ExactlyOnce.FinishEnds | src/lbz-io-scheduler.c:632-648 | a callback ends its own task and no other |
| ExactlyOnce.CallbackPerTask | src/lbz-io-scheduler.c:473-497 | over every run, each GC task that was issued has run its callback exactly once or is still alive |
| ExactlyOnce.DeviceCallbacks | src/lbz-io-scheduler.c:613-717 | from an empty device, tasks issued under an identity are exactly its callbacks plus the one still alive, if any |
| Driver.Lbz.constructor | src/lbz-zone-metadata.c:691-746 | the driver starts in the machine's initial state, with the invariant and with every list counter equal to the length of its list, which every method keeps |
| Driver.Lbz.PutZone | src/lbz-zone-metadata.c:96-117 | drops a reference and marks the zone ready for reset or closing as the machine does |
| Driver.Lbz.TaskPut | src/lbz-io-scheduler.c:105-123 | drops a task reference; the last one destroys the task and hands its parked GC task over |
| Driver.Lbz.Remap | src/lbz-io-scheduler.c:187-196 | moves a block to a new address in both maps |
| Driver.Lbz.Discard | src/lbz-nat-sit.c:64-72 | unmaps one block, tells whether it was mapped, and keeps the invariant |
| Driver.Lbz.CompleteWrite | src/lbz-zone-metadata.c:124-127 | counts a pending write off and drops its zone reference |
| Driver.Lbz.Retire | src/lbz-io-scheduler.c:208-212 | removes a task from the tree and drops its two references |
| Driver.Lbz.WriteEndio | src/lbz-io-scheduler.c:176-219 | a user completion, statement by statement, is the machine's completion step |
| Driver.Lbz.GcEndio | src/lbz-io-scheduler.c:613-638 | a GC completion in the order of its own statements, the write counted off first and the new reverse entry before the old one goes, is the same step, and its `BUG_ON` holds |
| Driver.Lbz.SubmitRead | src/lbz-io-scheduler.c:241-259 | a lookup pins the zone and is the machine's lookup step; an unmapped block leaves no operation behind |
| Driver.Lbz.CompleteRead | src/lbz-io-scheduler.c:159-174 | a read completion delivers the page read and releases the zone |
| Driver.Lbz.CompleteGcRead | src/lbz-io-scheduler.c:650-662 | a GC read without error puts the task, with the source's page, at the end of the GC queue |
| Driver.Lbz.AllocRes | src/lbz-zone-metadata.c:453-525 | an attempt on one stream succeeds exactly when it is not refused and the stream has or can open a zone with room; the block is in the stream's zone, or in the first empty one |
| Driver.Lbz.TakeBlock | src/lbz-zone-metadata.c:495-509 | takes one block and retires the zone from its slot when that was the last |
| Driver.Lbz.OpenZone | src/lbz-zone-metadata.c:473-494 | makes the first empty zone the stream's active one, and leaves the others in their order |
| Driver.Lbz.AllocAnyStream | src/lbz-io-scheduler.c:350-369 | the block's own stream comes first: the block is in its zone, else in the first empty zone, else in the zone of the first stream that has one; the task gets none exactly when it is refused or no stream has room, and then nothing changes; it never fails with the GC flag |
| Driver.Lbz.FindVictim | src/lbz-zone-metadata.c:356-393 | the victim is the first lightest full zone; none is found exactly when every full zone has nothing to win or, in regular mode, more than one percent of valid blocks |
| Driver.Lbz.LightestFull | src/lbz-zone-metadata.c:366-371 | the loop finds the first of the full zones of least weight |
| Driver.Lbz.VisitEntry | src/lbz-gc.c:33-49 | one turn of the walk is the machine's visit step |
| Driver.Lbz.GcOneZone | src/lbz-gc.c:26-54 | the walk issues a GC task for every block mapped into the victim, keeps all other operations and does nothing else |
| Driver.Lbz.InsertTask | src/lbz-io-scheduler.c:16-44 | conflicts exactly when the block has a task in the tree |
| Driver.Lbz.ResolveConflict | src/lbz-io-scheduler.c:761-771 | requeues a writer or parks a GC task, then drops the host's reference |
| Driver.Lbz.RecheckTask | src/lbz-io-scheduler.c:772-793 | a task is stale exactly when its block no longer maps to its source |
| Driver.Lbz.FinishTask | src/lbz-io-scheduler.c:632-648 | the callback's tail ends the task for good |
| Driver.Lbz.SubmitWrite | src/lbz-io-scheduler.c:327-409 | a write in hand is dispatched, to the zone that its stream leads to, exactly when it has its tree slot or nobody has it, and it is admitted and some stream has room; otherwise it is left to be queued again as it was or with its tree slot; one that carries a GC task is always dispatched |
| Driver.Lbz.SubmitUser | src/lbz-io-scheduler.c:549-582 | the new task carries the caller's block and page, and an observer sees exactly one write more; it is dispatched at once exactly when nobody has its block, a zone's worth of blocks is left and some stream has room, and otherwise waits at the end of the retry queue |
| Driver.Lbz.AddToRetry | src/lbz-io-scheduler.c:518-526 | puts a write whose submission has failed at the end of the retry queue and counts it |
| Driver.Lbz.SpliceWrites | src/lbz-io-scheduler.c:420-423 | moves the whole queue of writes to the worker's list and zeroes its counter |
| Driver.Lbz.SpliceCopies | src/lbz-io-scheduler.c:467-471 | the same for the GC queue |
| Driver.Lbz.NextOfBatch | src/lbz-io-scheduler.c:425-426 | takes the first task of the worker's list in hand |
| Driver.Lbz.SubmitGc | src/lbz-io-scheduler.c:738-856 | a GC task parks exactly when its block is busy, is skipped and ended exactly when its block has moved, and is dispatched otherwise; it never waits for space and never goes back to its queue |
| Driver.Lbz.ZoneStateWork | src/lbz-zone-metadata.c:600-680 | a pass of the worker closes exactly the zones due to be closed, resets exactly those due to be reset and changes no other zone; nothing is due afterwards, and its `panic` is unreachable |
| Driver.Lbz.CloseZone | src/lbz-zone-metadata.c:622-635 | moves the zone to the full list |
| Driver.Lbz.ResetZone | src/lbz-zone-metadata.c:647-673 | empties a zone whose weight is proved to be 0 |
| Turns.QuietRun | src/lbz-io-scheduler.c:411-510 | submissions, collection and the worker's passes change neither the mapping nor anything an observer sees |
| Turns.Flights | src/lbz-io-scheduler.c:549-551 | the counter of writes in flight is the number of writes an observer waits for |
| Retry.SpaceAdmits | src/lbz-zone-metadata.c:453-494 | while a zone's worth of blocks is left, every task is admitted |
| Retry.TurnKept | src/lbz-io-scheduler.c:327-409 | a task's own turn moves no other task, except that a parked GC task may be called back |
| Retry.RetryWrites | src/lbz-io-scheduler.c:411-453 | the loop submits each write of the queue once, in order; it ends on the device exactly if it could be dispatched when its turn came, and else in the queue, which holds those in their old order; other tasks are left alone |
| Retry.RetryGc | src/lbz-io-scheduler.c:459-499 | the loop gives each task of the GC queue its turn, in order; it parks, is skipped or is dispatched as its block demands at that turn; the queue ends empty, so the requeue and `BUG` branches are dead |
| Retry.RetryWork | src/lbz-io-scheduler.c:500-510 | both loops one after the other and nothing else, turn by turn, with the same statements about both queues at the end; an observer sees nothing of it, and the first write of the queue gets to the device if its slot is free and a zone's worth of blocks is left |
| Retry.GcTurn | src/lbz-gc.c:66-121 | a collector turn takes a victim exactly if there is a reason, none is under collection and some full zone is worth it; the victim is the first lightest full zone, every block mapped into it gets a GC task, and nothing else happens |
| MappingTree.TripleHitsLeaf | src/lbz-mapping.c:9-16 | for all node sizes the index triple of a block below the maximum hits an allocated leaf |
| MappingTree.TripleIsInjective | src/lbz-mapping.c:11-13 | different blocks have different index triples |
| MappingTree.RootFits | src/include/lbz-mapping.h:33-39 | the fixed root table is large enough for every supported device |
| MappingTree.FillNode | src/lbz-mapping.c:129-134 | the inner loop fills one internal node with fresh leaves in key order |
| MappingTree.AllocateNodes | src/lbz-mapping.c:119-135 | initialisation hangs exactly the leaves needed, each header naming its first key |
| MappingTree.Mapping.constructor | src/lbz-mapping.c:115-136 | a new tree is the empty map |
| MappingTree.Mapping.FindNode | src/lbz-mapping.c:5-17 | the leaf's first key plus the index gives the block back |
| MappingTree.Mapping.Lookup | src/lbz-mapping.c:28-45 | looks the block up in the flat map; -ENOENT exactly when absent, where absent means the mark 0xFFFFFFFF |
| MappingTree.Mapping.Add | src/lbz-mapping.c:48-64 | updates one entry of the flat map and returns the old one; every address below 0xFFFFFFFF is found again |
| MappingTree.Mapping.Remove | src/lbz-mapping.c:66-82 | removes one entry of the flat map and returns the old one |
| Paging.OneSlot | src/lbz-mapping.c:59-60 | storing one slot of a paged table changes that key's entry and no other |
| ReverseMap.AddressRoundTrip | src/lbz-zone-metadata.c:135-145 | dividing an address by the zone size finds its zone although capacity may be below zone size |
| ReverseMap.AddressesResolve | src/lbz-zone-metadata.c:344-353 | every mapped or landed address of a reachable state resolves to its own zone, is not the unmapped mark, and indexes an existing reverse-map page |
| ReverseMap.PageCount | src/lbz-zone-metadata.c:215-216 | the page count computed in bytes is the number of pages that hold the capacity |
| ReverseMap.MacroInRangeIff | src/include/lbz-zone-metadata.h:188-197 | the for-each macro stays in the page table exactly when the zone is not full or the last page has a spare entry |
| ReverseMap.MacroOverrun | src/include/lbz-zone-metadata.h:188-197 | with pages of 1024 entries a full zone of 1024 blocks is read past the table |
| ReverseMap.ListedExact | src/lbz-gc.c:33-49 | the walk visits an address exactly when its entry is live and below the write pointer |
| ReverseMap.ListedIncreasing | src/lbz-gc.c:33-49 | in increasing address order, so each once |
| ReverseMap.ZoneMap.constructor | src/lbz-zone-metadata.c:188-193 | a new reverse map is empty |
| ReverseMap.ZoneMap.Update | src/lbz-zone-metadata.c:344-353 | sets the entry of one address to any block below 0xFFFFFFFF, or clears it |
| ReverseMap.ZoneMap.Clear | src/lbz-zone-metadata.c:662-663 | wiping the pages empties the map |
| ReverseMap.ZoneMap.Fetch | src/include/lbz-zone-metadata.h:189-191 | one fetch of the macro gives the raw entry, with 0xFFFFFFFF for none, or shows that the table has ended |
| ReverseMap.ZoneMap.Walk | src/lbz-gc.c:26-49 | the walk with its running address lists exactly the live entries, and tells whether a fetch left the table |
| Tables.EndioTables | src/lbz-io-scheduler.c:186-196 | a completion moves its block in the mapping and in the reverse entries, and changes no other entry of either |
| Tables.OtherTables | src/lbz-mapping.c:48-82 | no step but a completion, a discard and a reset changes the mapping or a reverse entry |
| Tables.Store.constructor | src/lbz-mapping.c:115-136 | new tables are those of the machine's initial state |
| Tables.Store.Lookup | src/lbz-mapping.c:19-46 | with the tables of a state, tree lookup and division by the zone size give back the machine's physical block, -ENOENT exactly when there is none |
| Tables.Store.CompleteWrite | src/lbz-io-scheduler.c:186-196 | the table updates of a user completion turn the tables of a state into those of the machine's next state |
| Tables.Store.CompleteCopy | src/lbz-io-scheduler.c:621-630 | so do those of a GC callback, in their other order |
| Tables.Store.Discard | src/lbz-nat-sit.c:64-72 | and those of a discard, which finds an old copy exactly when the block was mapped |
| Tables.Store.WipeZone | src/lbz-zone-metadata.c:662-663 | and the wiping of a zone's pages in a reset |
| NatSit.TwinPairs | src/include/lbz-nat-sit.h:132-143 | taking the twin is a fixed-point-free involution that keeps the place in the segment and the pair of segments |
| NatSit.TwinClosedIff | src/include/lbz-nat-sit.h:96-101 | a region starting at a segment holds its twins exactly when it is empty or made of whole pairs of segments |
| NatSit.AcceptedNotClosed | src/lbz-nat-sit.c:101-104 | an accepted layout with a twin outside the tables |
| NatSit.UnmapAllExact | src/lbz-nat-sit.c:54-81 | a commit unmaps exactly the recorded blocks, gives up one valid block for each that was mapped, and touches no operation in flight |
| NatSit.CommitKeepsWritten | src/lbz-nat-sit.c:54-81 | after the commit a block is mapped exactly when it was and its twin was not written |
| NatSit.CommitLosesNothingIff | src/lbz-nat-sit.c:54-81 | no new copy is lost exactly when no pair was written on both sides |
| NatSit.Mgmt.constructor | src/lbz-nat-sit.c:84-115 | a new list is empty |
| NatSit.Mgmt.AddBlkid | src/lbz-nat-sit.c:22-48 | appends to the recorded sequence, across page boundaries |
| NatSit.TwinInDevice | src/include/lbz-nat-sit.h:132-143 | in tables that lie in the device and hold the twins of all their blocks, the twin of a table block is a table block of the device |
| NatSit.Mgmt.RecordWrite | src/lbz-io-scheduler.c:296-303 | a write to a table block records its twin; with tables that fit, all recorded blocks stay blocks of the device |
| NatSit.Mgmt.DrainPage | src/lbz-nat-sit.c:62-73 | the inner loop unmaps one page's blocks and counts those that were mapped |
| NatSit.Mgmt.TxComplete | src/lbz-nat-sit.c:54-81 | a commit that no writer interrupts unmaps the recorded sequence in order, adds the number of mapped ones to the total and empties the list |
| CommitRace.CommitReachesAllIff | src/lbz-nat-sit.c:54-81 | however writers and steps of the device interleave with the walk: the device takes a run of the machine in which the walk discards the entries it reaches, in order; a reached block is mapped afterwards exactly when a write of it has completed since; each recorded entry is reached or late, and none is lost exactly when none came to the page at hand behind its count |
| CommitRace.StepBinds | src/lbz-nat-sit.c:62-73 | beside the walk, only a completion maps a block and only a discard unmaps one |
| CommitRace.LateEntryLost | src/lbz-nat-sit.c:22-48 | a commit that loses an entry recorded while it walks |
| LongBio.Split | src/lbz-request.c:317-326 | the split loop cuts the request into its pieces |
| LongBio.PiecesTile | src/lbz-request.c:317-331 | the pieces tile the request: each sector lies in exactly one of them |
| LongBio.PiecesInOneBlockIff | src/lbz-request.c:308-331 | every piece lies in one block exactly when the first does not cross a block boundary |
| LongBio.AlignedPieces | src/lbz-dev.c:277-279 | for a request within the queue limits, piece i is block number i of the request and nothing else |
| LongBio.UnalignedPieces | src/lbz-request.c:308-331 | a request outside them whose pieces each lie in two blocks |
| LongBio.CompletionIsSafe | src/lbz-request.c:230-247 | in every interleaving of cuts and completions the user's completion never runs twice, only after every piece, with an error exactly when some piece failed |
| LongBio.CompletionHappens | src/lbz-request.c:308-331 | a run can go on exactly while the completion has not run, and ends after two steps for each piece |
| WorkerFlag.SharedFlagPass | src/lbz-zone-metadata.c:606-677 | with the flag as written, a zone gets a command exactly when the pass looks at it and some zone up to it is due |
| WorkerFlag.FlagIsExactIff | src/lbz-zone-metadata.c:606-677 | the flag decides as a decision per zone would exactly when no zone considered but not due follows one that is due |
| WorkerFlag.FlagIsSafeIff | src/lbz-zone-metadata.c:612-637 | for the zones as a pass sees them, each in the reachable state in which the pass gets to it: the pass is right exactly when no zone still being written lies behind one that was due |
| WorkerFlag.CloseAnywayBreaks | src/lbz-zone-metadata.c:622-635 | closing a zone still being written breaks the invariant |
| WorkerFlag.FlagClosesTooMuch | src/lbz-zone-metadata.c:606-635 | a reachable state in which the pass does so |
| WorkerFlag.FlagOutrun | src/lbz-zone-metadata.c:606-635 | a pass that starts where the flag would do no harm and does so all the same, because a write fills a zone after the first close and before the pass gets there |
| ResetHalves.Halves | src/lbz-zone-metadata.c:657-671 | the flag half and the credit half of a reset make up the machine's reset |
| ResetHalves.Commute | src/lbz-zone-metadata.c:664-671 | given at once or later, the credit makes no difference to any step but an attempt to allocate |
| ResetHalves.CommuteAttempt | src/lbz-zone-metadata.c:453-525 | an attempt that succeeds without the credit takes the same block with it, and one that fails leaves the device as it was but for the streams tried |
| EarlyReset.EveryRunSplits | src/lbz-zone-metadata.c:638-673 | every run of the machine is one of the device in halves |
| EarlyReset.StepKeepsHalf | src/lbz-gc.c:85-91 | every step between the halves, an early choice that can be afforded and a credit that comes while nothing was tried in vain included, keeps the invariant of the credited device and what GC tasks are owed within what is left |
| EarlyReset.HeedfulNeverStarves | src/lbz-io-scheduler.c:794-822 | in every run of the device in halves that heeds both, for any number of streams, no GC-flagged task has tried all streams in vain |
| EarlyReset.CreditIff | src/lbz-zone-metadata.c:664-671 | the credit keeps the invariant, and that tried streams have no room, exactly when it comes while no task has tried a stream in vain |
| EarlyReset.SparingNeverFails | src/lbz-zone-metadata.c:482-488 | with one stream, no GC-flagged attempt fails in any run in which every victim chosen between the halves can be afforded |
| Starvation.UnaffordableStarves | src/lbz-io-scheduler.c:794-822 | from any state between the halves that is sound once credited and has no stream tried, for any number of streams: if a victim is chosen that holds more valid blocks than can be allocated, steps already under way and writes that come in lead to a GC-flagged attempt that no stream has room for |
| Starvation.EarlyChoiceIff | src/lbz-gc.c:85-91 | with one stream, after any run that was sparing so far: choosing v between the halves is safe, that is, no GC-flagged attempt fails in any sparing continuation, exactly when v holds no more valid blocks than can be allocated |
| Starvation.ChoiceIff | src/lbz-gc.c:85-91 | for any number of streams, in any state between the halves that is sound once credited: after choosing v no GC-flagged task runs out of streams in any heedful continuation exactly when v holds no more valid blocks than can be allocated |
| EarlyVictim.EarlyVictimStarves | src/lbz-zone-metadata.c:657-671 | a run from an empty device of two zones: a reset begins, the next victim is chosen before the credit, and a GC-flagged attempt fails for which no stream has room |
| LostStreams.CreditStarves | src/lbz-io-scheduler.c:794-822 | a run from an empty device with two streams in which every early victim could be afforded, the credit comes between two attempts of a GC task, and the task has tried both streams in vain with a block left to allocate |
| EndioHalves.TwoHalves | src/lbz-io-scheduler.c:707-709 | counting the write off and then running the GC callback is the machine's completion |
| EndioHalves.EarlyCloseIsLateClose | src/lbz-io-scheduler.c:213-216 | if in between the end of a read lets the worker close the zone, the callback ends in the very state that completing first and closing later leads to, with the invariant |
| EndioHalves.VictimHeld | src/lbz-io-scheduler.c:632-648 | meanwhile the victim keeps the GC task's reference, no zone can be reset and no other victim chosen |

## Left out

- Device errors, faulty devices and allocation failure: the code abandons its accounting once the device is faulty.
- Init of a partly written device, which sets weights without a mapping (`src/lbz-zone-metadata.c:246-247`).
- Interleavings inside one handler: an endio and a submission's locked sections are each one step. `EndioHalves` shows for the GC completion that the one other order that matters, a close in between, ends in the same state; other steps in between are not modelled.
- The transient zone reference of the re-check's lookup is taken and dropped within one step (`src/lbz-io-scheduler.c:772-783`).
- The reverse-map entry that the collector reads and the task it issues for it are one step (`src/lbz-gc.c:33-48`).
- Zones whose active slot holds a full zone (`src/lbz-zone-metadata.c:473-476`): unreachable, by the life-cycle theorem, and not modelled.
- When the collector wakes up: timers, the emergency bit and the watermark tests, whose unsigned subtraction turns them off below the reserve (`src/include/lbz-zone-metadata.h:228-244`), are an arbitrary choice of the turn.
- Fairness: liveness says that a finishing run exists from every state, not that a scheduler takes it.
- Reads of unmapped blocks: what their pages hold, since the code does not write them.
- Locks, memory barriers, red-black balancing: a locked section is one step and the task tree is a map.
- Flush, checkpoint-pack selection and stream choice by region: no invariant beyond an arbitrary stream.
- NatSit.TwinClosedIff: region bounds are unbounded integers, so an unsigned overflow of the region's end is not modelled.
- Driver.Lbz.ZoneStateWork: decides zone by zone; the code's one flag for the pass is modelled by WorkerFlag.SharedFlagPass, which does not change the device in place.
- Guarantees.GcNeverStarves: takes a reset as one step; EarlyReset.HeedfulNeverStarves is the statement for a reset in two halves.
- NatSit.Mgmt.TxComplete: is one call without writers in between; CommitRace has them, but not what happens to a page that is freed while a writer still holds it.
- LongBio.CompletionIsSafe: requests without data, which complete at once, and flush requests are not modelled; lower layers are taken to write a bio's status only on failure.
- ReverseMap.AddressesResolve: assumes that all addresses fit an unsigned int, as the code does.
- Integrity payload, on-disk log contents, the /proc interface, statistics, device creation and removal apart from its drain condition, NVMe passthrough and the shell scripts.
