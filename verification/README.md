# ecopy in Dafny

A model of the schedulers, queues and protocols of ecopy, a parallel file copier, with proofs
of what they keep in every interleaving. Data structures that the program changes in place are
classes whose methods carry out the same steps; threads that share a lock are state machines in
which one lock hold, or one system call between lock holds, is one step, and any order of steps
is a run. A parked thread carries an explicit bit that says whether it has been signalled, so lost
and surplus wakes are part of the model.

## What is modelled

| part | files |
|---|---|
| Large-file pipeline: extents, cursor, readers and writers over a buffer pool | `Extents`, `Pipeline`, `PipelineLocks`, `PipelineSafety`, `PipelineProgress`, `PipelineRounds`, `PipelineEnds`, `PipelineHang` |
| Copy scheduler: heap, directory queue, slots, parking | `TaskHeap`, `DirQueue`, `Scheduler`, `SchedulerProof`, `SchedulerTheorems`, `SchedulerWork`, `SchedulerEnds`, `SchedulerStall` |
| Verification: sampling, sample domain, feeder and barriers | `Bits`, `SampleDomain`, `Sampling`, `Feeder`, `FeederProof`, `FeederOvertakes`, `FeederEnds` |
| Remote peer: handle cache, directory cache, path confinement | `HandleCache`, `DirCache`, `DirCacheEnds`, `PathNormal`, `PathMeaning`, `PathBuffers` |
| Walk and removal pass | `Walker`, `WalkerEnds`, `DirPaths`, `RmdirPass`, `RmdirRuns`, `RmdirEnds` |
| Telemetry sketch | `Histogram` |
| Link registry | `HardLinks` |
| Wire format | `Wire`, `Frames`, `VerifyBatch`, `VerifyLayout`, `VerifyCodec` |
| Counting, sums and machine constants used throughout | `Counting`, `Machine` |

Parameters stand for what the program cannot decide: which waiter a signal wakes, how many bytes
a read or write moves, whether an allocation or a system call succeeds, which callback fails, the
words of the random generator, the hash of a path.

## Findings

- **Large-file pipeline.** A batch handed back sends one signal, and a reader that is woken after the
  last claim exits without waking its peers (`workers.c:2077`). The exact condition under which the
  pipeline never gets stuck is `(readers - 1) * batch <= buffers`, which one batch per reader implies.
  With 4 readers and 1 or 2 buffers it can sleep forever.
- **Extent list.** `extent_list_add` keeps its list sorted, separated and aligned for runs in any order, but a
  run that begins before the last extent is covered only from that extent on
  (`Extents.BackwardsLosesRun`). For ascending runs the coverage is exact.
- **Scheduler.** A worker gives its small slot back and parks without a second look at the large queue. No
  work is stranded if and only if one large file takes fewer slots than there are workers; with
  equality a queued large file waits for the next broadcast.
- **Sample domain.** Two extents that meet inside one block give that block two ordinals, as [0, 1) and [2, 3) do. The enumeration is
  free of repetition if and only if no two neighbouring extents share a block, which the
  alignment that `verify.c:485` relies on guarantees.
- **Feeder.** A generation is released even after a barrier has failed (`verify.c:1153`). Once the connection
  of a file has had its turn, a check can overtake the file if and only if that connection has not
  answered the barrier, the file is not applied yet and some connection lives
  (`FeederOvertakes.OvertakesIff`); `FeederOvertakes.OvertakingRun` is such a run. A failed barrier
  endangers no file of another connection or generation, and the feeder reports it.
- **Verification request.** `server.c:1565` serves a request without digests before the check for stray
  bytes at `server.c:1672`, and `pdec_str` cuts a path at a NUL. So an accepted request is the encoding of the batch it
  is taken for if and only if its path holds no NUL and nothing follows what was read; with digests
  nothing may follow.
- **Histogram.** A sample of 1 is reported as 0, because values 0 and 1 share the first bin.

## Model

| member | source | states |
|---|---|---|
| Extents.AddRunWellFormed | workers.c:603-639 | adding any run, in any order, keeps the extent list sorted, separated by gaps, non-empty per extent, inside the file and aligned to 4096, given a limit that is a multiple of 4096, as the bulk end is |
| Extents.AddRunCovers | workers.c:603-639 | exactly which bytes one call adds: the rounded run, from the start of the last extent on |
| Extents.RoundingIsTight | workers.c:605-615 | rounding moves the start of a run down and its end up by less than 4096 bytes each, never below zero, and the limit cuts off what lies behind it |
| Extents.TotalIsCount | workers.c:619-637 | the byte count of the list is the number of bytes that it covers |
| Extents.WalkWellFormed | workers.c:603-639 | a whole walk of runs yields a well-formed list |
| Extents.WalkCovers | workers.c:603-639 | for runs reported in ascending order the list covers exactly the bytes of the rounded runs |
| Extents.WalkIsBlocks | workers.c:603-639 | for ascending non-empty runs the list covers a byte if and only if it lies below the limit and its block of 4096 bytes holds a byte of a run |
| Extents.WalkIsNear | workers.c:603-639 | no byte that is a block or more away from all runs is ever added |
| Extents.WalkKeepsRuns | workers.c:603-639 | a walk in ascending order loses no byte of its runs below the limit |
| Extents.BackwardsLosesRun | workers.c:619-627 | two runs reported backwards, of which the second is lost |
| Extents.ExtentList.Grow | workers.c:603-639 | doubling the array keeps the contents |
| Extents.ExtentList.AppendRounded | workers.c:619-639 | merging into the last extent or appending, in the array, is the abstract append; a failed allocation changes nothing; the byte count stays the total length |
| Extents.ExtentList.Add | workers.c:603-639 | one call on the array is one abstract addition; a failed allocation changes nothing |
| Extents.ClaimOk | workers.c:2022-2047 | one claim is a non-empty chunk of data, as long as a buffer unless the data ends there, and nothing between it and the next cursor position is data |
| Extents.StartCursorOk | workers.c:2022-2039 | the first position skips no data byte |
| PipelineLocks.LargeFile.SkipHolesLocked | workers.c:2022-2039 | the loop over the extents computes the abstract skip |
| PipelineLocks.LargeFile.ClaimNext | workers.c:2092-2104 | one turn of the claim loop on the shared fields is one claim of the state machine |
| PipelineLocks.LargeFile.ClaimBatch | workers.c:2089-2105 | the claim loop hands out a batch of free buffers, as the state machine does in one step |
| PipelineLocks.LargeFile.ReaderEnter | workers.c:2055-2106 | the first lock hold of a reader parks, exits or claims exactly as the reader's step |
| PipelineLocks.LargeFile.ReaderFinish | workers.c:2135-2167 | the second lock hold of a reader hands its batch over in order, or gives it back after a failure, exactly as the reader's step, and signals only if a waiter is counted |
| PipelineLocks.LargeFile.WriterEnter | workers.c:2176-2215 | the first lock hold of a writer parks, exits or takes the oldest batch exactly as the writer's step |
| PipelineLocks.LargeFile.WriterReturn | workers.c:2247-2264 | the last lock hold returns the whole batch in order and signals only if a waiter is counted |
| PipelineSafety.StepSafe | workers.c:2049-2280 | every lock hold and every pwrite keeps buffers conserved, each held by one owner, and every byte of the destination equal to the source or untouched |
| PipelineSafety.RunSafe | workers.c:2049-2280 | the invariant holds after every run, whatever fails |
| PipelineSafety.NothingForeignWritten | workers.c:2206-2243 | at every moment each destination byte is the source byte or untouched, and bytes outside the data are untouched |
| PipelineSafety.ClaimedOnce | workers.c:2089-2105 | no two claims ever share a byte, and only data is claimed |
| PipelineProgress.StepProgress | workers.c:2067-2264 | every step keeps the bound on sleeping readers by outstanding batches and the rules for sleeping writers |
| PipelineProgress.NeverStuck | workers.c:2067-2264 | no reachable state is stuck when the pool holds a batch for all readers but one, whatever reads and writes fail |
| PipelineProgress.OneBatchPerReader | workers.c:184-196 | at most ceil(buffers / batch) readers implies that condition |
| PipelineProgress.BuffersComeBack | workers.c:2247-2264 | when all threads of an unfailed file have exited, every buffer is on the free list once |
| PipelineProgress.CopiedExactly | workers.c:2049-2280 | an unfailed finished file equals the source up to the bulk end, claims partition the data into chunks that fill a buffer unless the data ends there, nothing else is written |
| PipelineProgress.WalkedConfigOk | workers.c:603-639 | the list built from ascending runs that contain every byte other than zero is a layout that the pipeline copies in full |
| PipelineProgress.CopiedFromRuns | workers.c:603-2280 | for ascending runs that contain every byte other than zero, an unfailed finished file equals the source up to the bulk end; claimed, each byte once, is nothing a block or more away from all runs, and for non-empty runs exactly the blocks of 4096 bytes that hold a byte of a run; nothing else is written |
| PipelineRounds.BatchIsQuarter | workers.c:186-196 | a batch is a quarter of the pool, rounded down, within 1 and 4 |
| PipelineRounds.ReaderEnters | workers.c:2055-2106 | a reader with the lock parks only when data is left and no buffer is free, leaves only when nothing is left or the file has failed, and else takes the first free buffers: a full batch unless buffers or data run out |
| PipelineRounds.ReaderFinishes | workers.c:2135-2172 | a batch read is appended to the ready list; after a failure it goes back to the free list and the reader leaves |
| PipelineRounds.WriterEnters | workers.c:2176-2215 | a writer with the lock parks only when nothing is ready and readers are at work, leaves only when nothing is ready and nothing will be, and else takes the oldest ready buffers: a full batch unless fewer are ready |
| PipelineRounds.WriterReturns | workers.c:2247-2264 | a writer gives back all its buffers, and leaves if a write has failed |
| PipelineRounds.FailedIff | workers.c:2049-2280 | over all runs a file counts as failed if and only if some read or write of it has failed |
| PipelineEnds.StepFalls | workers.c:2049-2280 | every step of a reader or writer lowers a measure, and a wake for no reason raises it by one |
| PipelineEnds.EveryRunEnds | workers.c:2049-2280 | the length of every run is bounded by the file's size, the number of threads and the wakes for no reason, whatever fails; with few enough readers a run that only such a wake can continue has seen all threads exit |
| PipelineHang.HangRun | workers.c:2067-2085 | with one reader too many there is an interleaving without failure after which every thread sleeps |
| PipelineHang.NeverStuckIff | workers.c:2067-2264 | over all files and interleavings the pipeline never gets stuck if and only if (readers - 1) * batch is at most the number of buffers |
| TaskHeap.RootIsMax | workers.c:902-973 | in a 4-ary heap no key exceeds the root's |
| TaskHeap.Heap.Reserve | workers.c:896-909 | growing the array keeps the heap |
| TaskHeap.Heap.Push | workers.c:924-939 | a push keeps heap order and adds exactly the new task |
| TaskHeap.Heap.LargestChild | workers.c:941-973 | the scan over at most four children finds a largest one |
| TaskHeap.Heap.SiftDown | workers.c:941-973 | sifting down restores heap order and keeps the entries |
| TaskHeap.Heap.PopMax | workers.c:941-973 | a pop returns an entry of the highest key, keeps heap order and removes exactly that entry |
| TaskHeap.ArrivalAppends | workers.c:3413-3416 | sequence keys fall strictly, so arrivals stay ordered |
| TaskHeap.PopIsFifo | workers.c:3413-3416 | with sequence keys the entry of the highest key is the oldest one held |
| TaskHeap.FirstInFirstOut | workers.c:924-973 | over every run of pushes and pops of the heap with sequence keys, the tasks popped are the first ones pushed, in the order of the pushes, and the heap holds the others |
| DirQueue.ClaimKeepsFiles | workers.c:2750-2782 | a claim takes one to eight files of one directory and loses or duplicates none |
| DirQueue.ClaimIsFull | workers.c:2750-2782 | a claim takes the next files of the head directory in order, eight or all that are left, and only a directory with files left goes to the back |
| DirQueue.TakeRun | workers.c:2750-2782 | the fill loop takes the next files of the batch in order |
| DirQueue.SmallQueue.PushBatch | workers.c:976-987 | appends a batch and keeps the file count |
| DirQueue.SmallQueue.PopBatch | workers.c:989-998 | removes the head batch and keeps the file count |
| DirQueue.SmallQueue.Claim | workers.c:2750-2782 | the worker's claim is the abstract claim, with the rest of the batch rotated to the back |
| DirQueue.OthersGoFirst | workers.c:2750-2782 | between two claims from one directory batch every other batch queued at the first of them is claimed from |
| SchedulerProof.StepInv | workers.c:2623-2803 | every lock hold of workers, traversal threads and large files keeps slot counts, limits, queue bound and the no-stranding invariant |
| SchedulerProof.RunInv | workers.c:2623-2803 | the invariant holds at every moment of every run |
| SchedulerProof.ParkingStrandsNothing | workers.c:2776-2798 | the last worker to park has seen both queues empty when a large file leaves a slot free |
| SchedulerTheorems.TasksConserved | workers.c:3353-3423 | every pushed task is in exactly one of directory queue, heap, one stash or dispatched, at every moment |
| SchedulerTheorems.KindsKept | workers.c:3405-3423 | in every run small files stay in directory batches, stashes and small copies, and large files in the heap, with their keys, and in large starts |
| SchedulerTheorems.LimitsHold | workers.c:2607-2610 | small slots equal the threads holding one; small + large * slots per large file never exceeds the workers; the queues never exceed their bound |
| SchedulerTheorems.ReturnsWhenDone | workers.c:2784-2803 | a worker returns only after the stop, with both queues empty, no large file running and no slot or stash held |
| SchedulerTheorems.NothingStranded | workers.c:2662-2803 | when every worker sleeps unsignalled and no large file is active, nothing is queued, nobody sleeps after the stop, and no traversal thread waits for room in vain |
| SchedulerTheorems.RunIsTrace | workers.c:2750-2782 | a run of the scheduler, seen at the directory queue, is a sequence of appends and claims |
| SchedulerTheorems.RotationIsFair | workers.c:2750-2782 | in every run, between two claims from one batch every other batch queued at the first is claimed from |
| SchedulerWork.ClaimsWhenItCan | workers.c:2719-2803 | over all runs a worker with the lock starts a large file if and only if one is queued, fewer than the limit are active and its slots are free, else takes small files if and only if some are queued and it has a slot or may take one, else returns or parks |
| SchedulerWork.ParksOnlyWhenFull | workers.c:2776-2798 | after a worker has parked no small file is queued, or the small-file limit or all slots are in use; and a large file that would fit now did not fit before the worker gave its slot back |
| SchedulerWork.SomebodyIsAwake | workers.c:2719-2803 | at every moment of every run, while a small file is queued and large files leave a slot free, some worker is awake |
| SchedulerWork.WakeMinIsQuarter | workers.c:2612-2620 | parked traversal threads are woken at a quarter of the queue bound, within 1 and 1024 |
| SchedulerWork.PushFills | workers.c:3345-3373 | a traversal thread parks only when neither all its files fit nor that quarter is free, and else pushes all its files or the first ones until the queues are full |
| SchedulerWork.ClaimWakesProducer | workers.c:2622-2630 | a claim wakes exactly one parked traversal thread if it sees that quarter free, and else none |
| SchedulerWork.PushWakesMost | workers.c:3427-3471 | a push wakes as many sleepers as can start a large file or take eight small ones with the free slots, and no more |
| SchedulerEnds.StepFalls | workers.c:2719-3471 | every step of workers, large files and traversal threads lowers a measure that files found and wakes for no reason raise |
| SchedulerEnds.EveryRunEnds | workers.c:2719-3471 | the length of every run is bounded by workers, files found and wakes for no reason; when nothing can go on and a large file leaves a slot free, every pushed file has been handed to a copy, and after the stop every worker has returned |
| SchedulerStall.StallRun | workers.c:2719-2798 | when one large file takes all slots, there is an interleaving that leaves a large file queued with every worker asleep |
| SchedulerStall.NeverStrandsIff | workers.c:2719-2803 | no run strands work if and only if the slots of one large file are fewer than the workers |
| SampleDomain.BuildMap | verify.c:400-434 | the SEEK_DATA/SEEK_HOLE walk yields sorted, disjoint extents that hold exactly the allocated bytes |
| SampleDomain.RangeIsHole | verify.c:436-448 | the binary search answers whether no extent reaches into the range |
| SampleDomain.InitDomain | verify.c:496-523 | the running block counts are those of the reference enumeration of data blocks |
| SampleDomain.DataBytesIsCount | verify.c:496-523 | the byte count of the domain is the number of data bytes |
| SampleDomain.SampleAt | verify.c:525-546 | the binary search gives the block with that ordinal in the reference enumeration, and a length cut at the end of the file |
| SampleDomain.DomainIsData | verify.c:483-546 | ordinals enumerate exactly the blocks that hold data, in file order, and strictly so if and only if no two neighbouring extents meet in one block |
| SampleDomain.SharedBlockTwice | verify.c:496-523 | two extents inside block 0 give it two ordinals |
| SampleDomain.SampleInFile | verify.c:436-448 | every sample lies inside the file, has 4096 bytes unless it ends the file, never none, and is never taken for a hole |
| SampleDomain.BlockMeetsData | verify.c:496-546 | a block has an ordinal if and only if a data byte lies in it |
| SampleDomain.AlignedShareNothing | verify.c:482-485 | extents that start on block boundaries never share a block |
| Bits.MaskIsMod | verify.c:593-600 | masking with 2^k - 1 is the remainder modulo 2^k |
| Bits.OddCancel | verify.c:594-598 | an odd factor can be cancelled modulo a power of two |
| Bits.AffineDistinct | verify.c:594-598 | an affine map with an odd factor is injective below a power of two |
| Sampling.VisitIsAffine | verify.c:597-598 | 64-bit wrap-around does not disturb the masked position |
| Sampling.WalkPermutes | verify.c:592-598 | for every odd factor and offset the walk is a permutation of the power-of-two domain |
| Sampling.PermutationReachesAll | verify.c:596-602 | so it reaches every ordinal |
| Sampling.EmitBatch | verify.c:465-477 | a batch is sorted by offset and handed over completely, or up to the callback that fails |
| Sampling.Sampler.Flush | verify.c:465-477 | after a flush exactly the samples chosen so far have been handed over |
| Sampling.Sampler.Append | verify.c:578-585 | one more distinct sample, delivered with its batch when the batch is full |
| Sampling.ForEachSample | verify.c:554-607 | exactly the wanted number of distinct samples, at least two and at most all, among them the first and the last block; the others are the blocks that the affine walk of the seed over the smallest power of two hits first; sorted within batches; delivery ends at the first failing callback |
| Sampling.RandomBlocks | verify.c:592-604 | the walk delivers exactly the missing samples, at the positions (a * j + b) modulo the power of two |
| Sampling.DomainFor | verify.c:593 | the smallest power of two that holds all ordinals |
| Sampling.Sequential | verify.c:569-576 | full coverage is one scan in order |
| FeederProof.StepInv | verify.c:1147-1250 | every step of copy threads, feeder, verification threads and servers keeps the ordering invariant |
| FeederProof.BarrierAhead | ssh_transport.c:1080-1090 | when a barrier is sent, the files of the generation on that connection are ahead of it |
| FeederProof.ReadMoved | server.c:2106-2136 | a server answers a barrier only with an empty pool, so the files ahead of it are applied |
| FeederProof.BarrierPassed | verify.c:1153 | an answered barrier means the files of the generation on that connection are applied |
| FeederProof.NeverOvertakes | verify.c:1147-1250 | a check of a file that is not durable is sent only after the file was applied on its own server, unless that server had not answered the barrier of the file's own generation, which takes a failure and is reported |
| FeederProof.MissedIff | verify.c:1147-1166 | the files of that exception are exactly those released while their connection had not answered the barrier of their generation |
| FeederOvertakes.StepOrder | ssh_transport.c:1067-1165 | every lock on a connection has a holder, and what a thread waits for is there, on its way, or lost with the connection |
| FeederOvertakes.UnansweredOvertakes | verify.c:1147-1166 | when a file's connection has had its turn without an answer, the file is not applied and some connection lives, the run can go on to a check that overtakes it |
| FeederOvertakes.OvertakesIff | verify.c:1147-1166 | for every run at which a file of the generation has had its connection's turn, an overtaking check can follow if and only if that connection has not answered, the file is not applied and some connection lives, given a verification thread and room in its queue; an answer always means that the file is applied |
| FeederOvertakes.OvertakingRun | verify.c:1147-1166 | a run of eleven steps in which a file is checked while its frame is unread |
| FeederProof.AllVerified | verify.c:1168-1250 | when the feeder has finished and the verification threads are idle, every queued item has been verified, or was queued after the stop and is still in the intake |
| FeederEnds.ServerReadsWhen | server.c:1973-2136 | a server takes a job as long as its pool has room, and any other frame when no job is outstanding |
| FeederEnds.DecideReleases | verify.c:1244-1251 | what is held back is released if and only if it is a full generation, or the wait timed out, or the feeder has to stop |
| FeederEnds.RouteSorts | verify.c:1204-1224 | a durable item is handed on at once, any other joins the generation, in the order of the intake |
| FeederEnds.BoundsHold | verify.c:1244-1251 | in every run the pools and the queue of the verification threads stay within their limits, and a waiting feeder holds back less than a generation |
| FeederEnds.OneBarrierAtATime | ssh_transport.c:1080-1165 | in every run at most one barrier is awaited on a connection at a time |
| FeederEnds.StepFalls | verify.c:1168-1250 | every step of feeder, verification threads, waiting copy threads and servers lowers a measure that only files, checks, timeouts and failures raise |
| FeederEnds.EveryRunEnds | verify.c:1168-1250 | the length of every run is bounded by what is sent, queued and checked; when nothing can go on after the stop, the feeder has finished and every item queued before the stop is verified, and without a stop less than a generation waits |
| HandleCache.Cache.LruUnlink | server.c:625-632 | unlinking keeps the list in order of use |
| HandleCache.Cache.LruPushFront | server.c:635-642 | pushing to the front keeps the list in order of use |
| HandleCache.Cache.Find | server.c:645-656 | walking the chain finds the entry of a path if and only if there is one |
| HandleCache.Cache.LookupPin | server.c:645-656 | a hit gets one more user and becomes the most recently used; nothing else changes |
| HandleCache.Cache.RemoveFromChain | server.c:668-671 | the entry leaves its chain, and every other entry stays reachable |
| HandleCache.Cache.Drop | server.c:667-677 | list, chains and count lose exactly the entry |
| HandleCache.Cache.Evict | server.c:662-679 | afterwards the cache is within its bound or every entry is in use; victims were unused and least recently used, no more than needed, and exactly their handles are closed |
| HandleCache.Cache.Release | server.c:681-687 | one user fewer, never below zero |
| HandleCache.Cache.Insert | server.c:745-752 | one entry per path; the new one has one user and is the most recently used |
| HandleCache.Cache.Store | server.c:727-757 | a race for the same path keeps one entry, makes it the most recently used and closes the other handle; a new entry is the most recently used, all others keep their order of use, and it is never evicted by its own insertion |
| HandleCache.BucketIsMask | server.c:647 | the bucket is the hash masked with 65535 |
| HandleCache.UnlinkedOk | server.c:625-632 | unlinking any entry, also first or last, leaves a correctly linked list |
| HandleCache.OnePredecessor | server.c:668-671 | only one pointer leads to an entry |
| DirCache.SingleCreator | server.c:422-480 | a directory has at most one creator at any time, and the entry names it |
| DirCache.EntriesAreFinal | server.c:509-520 | entries that are ready or failed never change, so no directory is created twice |
| DirCache.CallsGoUp | server.c:484-489 | the recursion goes to ancestors only and is bounded by the length of the path |
| DirCache.WaitingGoesUp | server.c:443-446 | who waits for a thread that waits itself waits for a longer path: there is no circle |
| DirCache.NeverDeadlocks | server.c:422-525 | while a call is under way, some thread can go on |
| DirCache.GrantedExists | server.c:422-525 | a call that returned 0 leaves the directory and all its ancestors |
| DirCache.OnlyTroubleRefuses | server.c:471-507 | a refusal needs a file in the way, a failed system call or failed allocation |
| DirCache.StepInv | server.c:422-525 | every lock hold and mkdir keeps the invariant of entries, stacks and tree |
| DirCacheEnds.StepFalls | server.c:422-525 | every step of a call lowers a measure made of path lengths and states |
| DirCacheEnds.EveryCallReturns | server.c:422-525 | the length of every run is bounded by a fixed number of steps for each component of the paths called for, and when no thread can go on every call has returned |
| DirCacheEnds.SameAnswer | server.c:440-455 | all calls for one path get the same answer, unless memory for its entry was once lacking |
| DirCacheEnds.CallsSucceed | server.c:422-525 | every call that is over has been answered; without files in the way and without failures the answer is 0 and the directory and all its ancestors exist |
| DirPaths.SiblingsAdjacent | edelete.c:623-628 | sorting equal depths by strcmp puts the children of one directory next to each other |
| DirPaths.SameParentIsExact | edelete.c:637-650 | comparing the bytes before the last slash decides whether two directories have the same parent |
| RmdirPass.SiblingsContiguous | edelete.c:623-650 | in the sorted list everything between two siblings is a sibling |
| RmdirPass.LevelEnd | dirwalk.c:575-577 | the scan finds the end of the level |
| RmdirPass.LevelIsComplete | dirwalk.c:569-577 | a level holds all directories of its depth, and all deeper ones lie before it |
| RmdirPass.SnapToRunStart | dirwalk.c:483-492 | the loop finds the first boundary between parents at or after the position |
| RmdirPass.CutsTile | dirwalk.c:516-519 | the slices of the threads follow each other and cover the level |
| RmdirPass.CutIsNearest | dirwalk.c:483-533 | the slice of a thread begins at the first boundary between runs at or after its even share of the level |
| RmdirPass.OneSliceEach | dirwalk.c:516-519 | every directory of a level belongs to exactly one thread |
| RmdirPass.SiblingsOneThread | dirwalk.c:483-519 | the children of one directory all belong to the same thread |
| RmdirRuns.CollapseByChildren | edelete.c:708-716 | a directory collapses if and only if it holds only directories that collapse |
| RmdirRuns.EmptyIffCollapses | edelete.c:658-704 | when a directory is tried, it is empty if and only if the original tree below it held only directories |
| RmdirRuns.DeepestFirst | dirwalk.c:569-627 | whenever a directory is tried, all deeper directories have been tried |
| RmdirRuns.RemovedIffCollapses | edelete.c:724-732 | after the pass a visited directory is gone if and only if it was not "/" and no non-directory was below it; everything else is untouched |
| RmdirEnds.ThreadsOfLevel | dirwalk.c:562-583 | a level gets as many threads as asked for, but no more than directories and at least one |
| RmdirEnds.EveryPassEnds | dirwalk.c:569-627 | every pass ends after at most two steps for each directory, and then exactly the visited directories with nothing but directories below them are gone |
| Walker.StepInv | dirwalk.c:305-370 | every lock hold keeps: queued, taken and finished directories are exactly the discovered ones, each once |
| Walker.DoneMeansAll | dirwalk.c:362-366 | the end is announced only with an empty queue and nobody at work, when every reachable directory has been taken exactly once and finished |
| Walker.TakenInOrder | dirwalk.c:58-92 | directories are taken in the order in which they were found |
| Walker.NeverStuck | dirwalk.c:330-370 | until all workers have left one of them can go on, workers leave only at the end, and nobody sleeps through it |
| WalkerEnds.StepFalls | dirwalk.c:330-370 | every step of a worker lowers a measure, and a wake for no reason raises it by one |
| WalkerEnds.EveryWalkEnds | dirwalk.c:330-370 | on a finite tree the length of every run is bounded by directories, workers and wakes for no reason, and when only such a wake is possible all workers have left and exactly the reachable directories are finished |
| Histogram.IndexMonotone | telemetry.c:39-57 | larger values go to the same or to later bins |
| Histogram.IndexInRange | telemetry.c:39-57 | every 64-bit value has a bin |
| Histogram.ValueOfIndex | telemetry.c:39-66 | a bin reports at most the value and at most an eighth less, exactly below 8, except that 1 reports 0 |
| Histogram.ValueMonotone | telemetry.c:59-66 | later bins report the same or larger values |
| Histogram.RankIsLeast | telemetry.c:93-94 | the rank is the least one, from 1 on, that covers the given percent of the samples |
| Histogram.RankBin | telemetry.c:90-101 | the scan stops at the bin of the nearest-rank sample |
| Histogram.RankExists | telemetry.c:90-93 | every rank has a nearest-rank sample |
| Histogram.PercentileBound | telemetry.c:90-101 | the percentile is at most the nearest-rank sample x, within x/8 of it from 2 on, exact for 2 to 7 and for 0 |
| Histogram.PercentileMonotone | telemetry.c:90-101 | a higher percent never reports less |
| Histogram.PercentileBeyond | telemetry.c:90-101 | without samples 0 is reported, and beyond 100 percent the largest sample |
| Histogram.Sketch.Add | telemetry.c:68-75 | bins, count, sum modulo 2^64, minimum and maximum are those of the samples and the new one |
| Histogram.Sketch.MergeFrom | telemetry.c:77-88 | merging gives the sketch of both sample lists and empties the source |
| Histogram.Sketch.ReportPercentile | telemetry.c:90-101 | the accumulating loop computes the percentile |
| Histogram.SameSketch | telemetry.c:138-153 | adding directly or merging in any grouping and order gives the same sketch |
| PathNormal.NormalIsClean | server.c:263-292 | a normal path has no empty, "." or ".." components and fits the buffer |
| PathNormal.NormalizeIdempotent | server.c:263-292 | normalising a normal path changes nothing and never fails |
| PathNormal.TokensOfText | server.c:274-275 | tokenising the text of a path gives its components |
| PathNormal.UnderRootIsPrefix | server.c:295-301 | the byte comparison accepts a path if and only if the components of the root begin it |
| PathMeaning.NormalizeIsMeaning | server.c:263-292 | the normal form is made of the names that survive, a path being too long if and only if its text is or some path on the way does not fit |
| PathMeaning.MeaningSurvives | server.c:274-288 | a name survives if and only if no stretch of tokens right after it climbs more often than it descends, and the survivors keep their order |
| PathMeaning.DotDotClimbs | server.c:276-282 | ".." leads from a directory to its parent and from the root to itself |
| PathMeaning.DotStays | server.c:275 | "." leads nowhere |
| PathMeaning.ClimbingOutIsRefused | server.c:295-309 | a path that climbs out of the root is normalised and refused |
| PathBuffers.NormalizeAbs | server.c:263-292 | the buffer ends up with the component-stack meaning, or the routine fails for the same inputs and lengths |
| PathBuffers.NormalizeAbsPathLexically | main.c:224-253 | the client's routine meets the same specification, so both agree in result and failure |
| PathBuffers.AppendPathComponent | main.c:206-222 | appends, or fails if and only if the text and its NUL do not fit, leaving the buffer |
| PathBuffers.RemoveLastPathComponent | main.c:190-204 | leaves the text of the parent, and "/" at the root |
| PathBuffers.ResolvePath | server.c:304-309 | accepts exactly the paths under the root |
| HardLinks.Links.Grow | hardlinks.c:57-76 | rehashing loses nothing, moves every entry to its new bucket and keeps a power of two |
| HardLinks.Links.MoveBucket | hardlinks.c:61-70 | relinking one chain moves exactly its entries |
| HardLinks.SameBucketIff | hardlinks.c:50-55 | two inodes of one device share a bucket if and only if their numbers agree modulo the number of buckets |
| HardLinks.Links.Find | hardlinks.c:115-117 | the chain walk finds the inode if and only if it is registered |
| HardLinks.Links.NoteLink | hardlinks.c:106-164 | one call is one step of the abstract registry, or an error that changes nothing; the buckets double exactly when a new entry would fill more than 3/4 of them |
| HardLinks.OnePrimaryPerInode | hardlinks.c:106-164 | in every interleaving exactly the first call for an inode returns primary |
| HardLinks.JobsNamePrimary | hardlinks.c:118-136 | every deferred link names the destination of that first call |
| HardLinks.FirstDefersNothing | hardlinks.c:139-164 | the first call for an inode registers its destination and defers nothing |
| Wire.LeRoundTrip | protocol.h:123-132 | reading little-endian bytes back gives the number |
| Wire.FromLeRoundTrip | protocol.h:158-167 | writing a number read gives the bytes back |
| Wire.LeDigit | protocol.h:123-132 | byte i of a number is its digit i to the base 256 |
| Wire.TwosComplement | protocol.h:134-169 | signed numbers travel modulo 2^64 and are read back between -2^63 and 2^63 |
| Wire.Encoder.PutBytes | protocol.h:115-119 | appends all bytes or none, and remembers an overflow |
| Wire.Encoder.PutNumber | protocol.h:121-132 | appends the little-endian bytes |
| Wire.Encoder.PutString | protocol.h:137-141 | without overflow appends length and bytes |
| Wire.Decoder.GetBytes | protocol.h:147-152 | moves the cursor or sets the error flag, as specified |
| Wire.Decoder.GetNumber | protocol.h:154-167 | assembles the number from its bytes |
| Wire.Decoder.GetString | protocol.h:175-182 | takes a string that is shorter than the limit and inside the data |
| VerifyBatch.RoundTrip | server.c:1529-1551 | decoding a request that a client has encoded gives its fields and consumes every byte |
| VerifyBatch.PrefixIsMalformed | server.c:1637-1675 | every strict prefix of an encoded request sets the sticky error |
| VerifyBatch.AcceptedIff | server.c:1529-1675 | a request is accepted as a given batch if and only if it is the encoding of an acceptable batch that is understood as that one, followed by anything when there are no digests and by nothing otherwise |
| VerifyBatch.EncodingIff | protocol.h:175-182 | an accepted request is the encoding of the batch it is taken for if and only if its path holds no NUL and no byte follows what was read |
| VerifyBatch.TrailingByteAccepted | server.c:1565-1589 | a request without digests and with a stray byte after it is accepted |
| VerifyBatch.NulPathAccepted | protocol.h:175-182 | a request whose path holds a NUL is taken for one with the path before it |
| VerifyLayout.RequestLayout | ssh_transport.c:1366-1386 | where every field of a request stands: path, seven metadata fields, size, flags, count, and digests of 45 bytes each |
| VerifyLayout.AcceptableMeans | server.c:1552-1652 | what a request has to say to be accepted, field by field |
| VerifyCodec.SendBatch | ssh_transport.c:1348-1389 | the buffer never overflows: the payload is exactly the concatenation of the fields |
| VerifyCodec.EncodeMeta | ssh_transport.c:1250-1259 | the seven metadata fields in order |
| VerifyCodec.PathResolves | server.c:304-309 | a path is resolved if and only if it has a normal form that the root's components begin |
| VerifyCodec.HandleVerifyPath | server.c:1529-1675 | the cursor steps, checks and the early end without digests compute the specified decoding |
| Frames.Pipe.WriteAll | protocol.c:16-33 | short and interrupted writes deliver all bytes; a failure delivers a strict prefix |
| Frames.Pipe.ReadAll | protocol.c:35-53 | short and interrupted reads deliver exactly the next bytes, or fail, also at the end of the stream |
| Frames.EncodeHeader | protocol.c:55-63 | type, request number and length, little-endian |
| Frames.Pipe.WriteFrame | protocol.c:65-108 | header and payload parts reach the stream as one frame |
| Frames.Pipe.ReadHeader | protocol.c:110-125 | reads back what the header says |
| Frames.Pipe.ReadFrame | server.c:2088-2104 | reads the frame that begins the stream, whenever one does |
| Frames.Pipe.ReadFrames | server.c:2083-2104 | a stream of written frames is read back as the same sequence of frames |
| Frames.FrameLayout | protocol.c:55-63 | kind, eight bytes of the request number, four of the length, lowest first, then the payload |
| Frames.FrameUnique | protocol.c:55-125 | no two frames begin the same stream |
| Frames.StreamUnique | protocol.c:55-125 | a stream determines its frames |

## Left out

- Shutdown and Ctrl+C branches of all parts: every property is about runs without a shutdown.
- Thread creation failures, and `active_writers`, which nothing reads while the pipeline runs.
- Reads and writes of the file system: a read delivers the claimed range or fails; a write may be short; the destination starts as zeros.
- Direct I/O, the unaligned tail after the bulk end, FIEMAP, preallocation, metadata and fadvise calls.
- Overflow of file offsets, counters and queue lengths: unbounded, except the wrap-around of the sampling walk and of the histogram's sum; the rank of a percentile is taken without overflow of `count * percent`.
- Backpressure of the verification intake and the display counters of the feeder.
- Sampling.ForEachSample: takes the wanted number of samples as an integer instead of computing it from a percentage in floating point, and the two words of the generator as parameters; the number of blocks is at most 2^63, beyond which the doubling loop of the program does not end.
- HandleCache.Cache.Store: the recursive acquisition of the parent's handle between the two lock holds is left out; entries are cells of a memory addressed by references, so the use of freed memory is not modelled.
- DirCache.StepInv: the cache is a map from path to entry; hash buckets and lock shards are left out, and nothing deletes directories.
- RmdirRuns.RemovedIffCollapses: the tree changes only by the pass itself, and no removal of an empty directory fails.
- Walker.StepInv: a fixed tree, no stop request and no errors, so every subdirectory found is pushed.
- VerifyCodec.HandleVerifyPath: the state of the file, hashing and comparing the blocks are left out, so a file that cannot be opened, which ends the request before its digests are read, is not modelled.
- PathBuffers.NormalizeAbs: strings contain no NUL, and the temporary copy of the input is not a buffer of its own.
- HardLinks.Links.NoteLink: chains are values that the buckets hold, so freeing and reuse of entries are not modelled; making the deferred links is left out.
- The streamed transfer (OPEN, WRITE, COMMIT) and the metadata policy of the remote peer: settled by single branches.
- BLAKE3, signals, command line and environment, ssh process handling, progress and reports.
