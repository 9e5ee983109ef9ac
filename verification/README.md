# Volume protection: the session pipeline, its checkpoints and its restarts

This project models how a volume is backed up and restored, session by session, and proves what the
pipeline keeps at every step, over whole runs, over runs cut by crashes, and over chains of
incremental backups.

One session is a concurrent program. A reader fills block buffers, hasher workers compute digests and, in
DIFF mode, drop unchanged blocks, a writer writes the copy, and the control thread pauses the reader,
snapshots two bitmaps, flushes the checksum table and the data, and saves a checkpoint. A crash may come
between any two steps; the next run resumes from the saved bitmaps. Restore is the same pipeline without
hashers.

## How the model is laid out

- `Pipeline.dfy` is a labelled transition system. A step makes at most one access to memory in which another thread can
  see a change: a queue, the allocation table, a byte of a bitmap, a flag, the checksum table. What is merged into it is
  private to its thread (the buffer it holds, its status, the writer's failure count) or a counter that is only ever
  added to. So all interleavings of the threads are runs. `ReaderStep` follows src/task/VolumeBlockReader.cpp:147-271,
  `WorkerStep` src/task/VolumeBlockHasher.cpp:84-128 and 156-166, `WriterStep` src/task/VolumeBlockWriter.cpp:125-178,
  `ControlStep` src/task/VolumeBackupTask.cpp:270-300 with src/task/VolumeProtectTaskContext.cpp:215-227 and 360-440, `Boot`
  and `Crash` src/task/VolumeBackupTask.cpp:185-208 with src/task/VolumeProtectTaskContext.cpp:442-543. `Bitmap::Set` is a
  load and a store; a snapshot is copied byte by byte; the two saves of a refresh are two steps; an fsync may fail and
  nobody looks. A crash takes down the process or the whole machine: after the first the next run finds all that was
  written, after the second only what was on disk is sure, and any other block may be torn. The digest is any function,
  assumed free of collisions where that matters. The volume, what a failed Write leaves in its block, what a crash tears,
  which file operations succeed and when the control thread refreshes, finishes or aborts are all inputs.
- `Handshake`, `Stages`, `StageSteps`, `Ownership`, `Bounds`, `Holders`, `Control`, `Cut` and `Counting` (with `Frames`,
  `WorkerSums` and `Totals`) are the invariants on blocks, buffers, bits, snapshots and counters; they hold for sessions of
  every size and mode and make up `Session.Core`. `Durability` and `Checkpoint` are the invariants on what the target, the
  table and the files hold; with them `Core` becomes `Session.Inv`. Each has one preservation lemma per thread, and
  `Session` carries both over every run, crashes and restarts included.
- `Convergence`, `Delivery`, `Accounting`, `Progress` and `Termination` draw the conclusions. `Termination` is about infinite
  runs: under fairness every thread exits. `Stopping` says what aborts, pauses and errors stop, and `Restarts` what a run
  takes up from a checkpoint, how long a checkpoint is kept, and that nothing is left of it once it has been cleared.
- `Departures` says for which sessions the failures nobody notices do harm: exactly those in which `Safety` and `Sharing` do
  not show the opposite. `QuietRuns`, `Driving` and `DoubleFree` build the harmful runs, for sessions of every size, mode
  and number of workers.
- `Threads.dfy` holds the loops of the three kinds of threads as methods on a shared session, each proved to do its
  whole job when it is left alone, and a whole session under an arbitrary scheduler, proved to end in success.
- `IncrementalChain` composes generations of one session. `BackupRestore` runs the pipelines of all sessions of a volume over
  the bytes of real files, in any order and with any crashes, and composes a backup with a restore, on top of `Geometry`
  (volume, sessions, blocks), `RawIO` (shifted file offsets) and `CopyFiles` (file names). `Generations` puts the two
  together: a full backup of a volume, incremental ones over the same files, and a restore.
- `Bitmap`, `Allocator`, `BlockingQueue`, `Snapshot` and `ZeroCopy` are classes over arrays and mutable fields, proved
  against functions on sets, sequences and maps. `PipelineQueues` ties the queues of the pipeline to the monitor that
  `BlockingQueue` implements.

## Where the code departs from its intent

- Success of a session means that its target is right only for sessions that take no checkpoints or have nothing to write,
  and that its digests are right only for sessions that take no checkpoints or compute none
  (`Departures.SuccessMeansRightCopy`, `Departures.SuccessMeansRightTable`). Five failures are to blame. For each of them,
  and for any set of them (`Departures.CopyRightExactly`, `Departures.TableRightExactly`), these are exactly the sessions
  harmed:
  - A failed Write falls through: the block is marked written and processed and its buffer is freed twice
    (src/task/VolumeBlockWriter.cpp:157-169). A checkpoint taken before the failure is seen makes the next run skip the
    block: every session that takes checkpoints and writes any block. The buffer freed twice goes to two blocks, so that
    one is hashed with the bytes of another: every session that hashes and takes checkpoints and has two neighbouring
    blocks with different digests behind one that it writes (`Departures.FailedWriteIsForgotten`).
  - The result of fsync is not looked at (src/native/linux/PosixRawIO.cpp:109-116): after one that fails, both saves
    follow, and a crash of the machine loses data behind a saved checkpoint: every session that takes checkpoints and
    writes a block that differs from what the target held. No digest is lost (`Departures.FailedFsyncLosesData`).
  - A refresh saves a newer snapshot before the one that is safe (src/task/VolumeProtectTaskContext.cpp:393-398). A crash
    between the two saves, or a second save that fails, harms the same sessions, and the digests of all that hash and take
    checkpoints (`Departures.CrashBetweenSavesLosesData`).
  - The result of the last table save is ignored (src/task/VolumeBackupTask.cpp:295-297): all sessions that hash and take
    checkpoints can succeed without a digest after a restart, but lose no data (`Departures.LostTableIsForgotten`).
  - A restart that cannot read the saved table starts afresh but leaves the old bitmap file in place
    (src/task/VolumeProtectTaskContext.cpp:442-461); together with a table it saves later those bits lie. The same sessions
    (`Departures.UnreadableTableLosesDigest`).
- A block may be in the written bitmap of a checkpoint and not in the processed one, which is copied first
  (src/task/VolumeProtectTaskContext.cpp:360-370). The next run writes it again and counts its bytes twice: after success the
  bytes counted as written are those of the written bitmap exactly if there is no such block (`Accounting.SuccessCounts`).
- Digests are compared at a 32-bit offset (src/task/VolumeBlockHasher.cpp:110-113): right for at most 2^27 blocks a
  session (`Departures.ComparesOwnDigest`, `Departures.ChangedBlockIsDropped`).
- The metadata of a copy record the default block size of 4 MiB whatever block size is configured
  (src/task/VolumeBackupTask.cpp:84 against 155), and an incremental backup is refused unless its block size is the
  recorded one (src/task/VolumeBackupTask.cpp:360). So the validation admits exactly the increments configured with 4 MiB,
  also on top of a copy made with another block size, and refuses a chain that keeps any other one. The theorems on chains
  ask for the same block size throughout, which the validation ensures only for copies made with the default.
- The size of the buffer pool is computed in 32 bits (src/task/VolumeProtectTaskContext.cpp:27-33): from blocks of 128 MiB
  on the pool is too small for its 32 buffers (`Allocator.PoolHoldsBuffers`).
- The previous table is read for whole blocks only and not at all for a session shorter than a block or of exactly 2^27
  whole blocks (src/task/VolumeBackupTask.cpp:324-339, `IncrementalChain.PreviousLoads`).
- The splitter of the resource manager never advances the session index (src/native/TaskResourceManager.cpp:38-58), so a
  full backup in binary format with more than one session cannot create its copy, and when started again finds only the
  first file (`CopyFiles.BackupTaskResourceManager.PrepareCopyResource`, `CopyFiles.PreparedForEverySession`).
- The split of a volume into sessions adds in 64 bits (src/task/VolumeBackupTask.cpp:100-103). It goes right exactly when
  the sessions, the last one taken whole, end below 2^64 (`Geometry.SplitIsRight`), which sessions of a terabyte and
  volumes of less than 2^63 bytes do; with a session size of zero it never ends (`Geometry.ZeroNeverEnds`).
- A zero-copy restore whose copy is too short asks for ever for bytes that are not there, and one of a session that does
  not start at 0 writes to the wrong place (src/task/VolumeZeroCopyRestoreTask.cpp:163-197,
  `ZeroCopy.VolumeZeroCopyRestoreTask.PerformZeroCopyRestore`, `ZeroCopy.RightOnlyAtZero`).
- The error check of CheckpointSnapshot::LoadFrom tests for an even size; its message speaks of three parts
  (src/task/VolumeProtectTaskContext.cpp:306-308). The model follows the code.

## Hypotheses of the main theorems

- `ValidConfig`: a nonempty session whose blocks tile it, blocks below 128 MiB so that the buffers fit into their pool, at
  least one worker when hashing, DIFF only when hashing.
- `Comparable`: a DIFF session has at most 2^27 blocks. Needed for what the target and the table hold; the theorems about
  the handshake, delivery, counters, progress and termination do without it.
- `CleanRun`: any steps in any order, with any number of crashes, that meet none of the five failures of `Departures`: no
  Write and no fsync fails, no crash comes between the two saves of a refresh and the second of them does not fail, the
  table save at the very end succeeds, and, with a hasher, a restart can read the table. A bitmap file that cannot be read
  does no harm, nor does a crash anywhere else. `RunsWith` allows a set of these failures; `Departures` says for
  which sessions which of them can be allowed.
- `NoZeroDigest`, in the theorems on harm to digests: no digest is all zero, which is what a fresh table holds.
- The volume does not change during the runs of one backup. In a chain, each backup has its own output directory for
  metadata (a new table) and the same block size throughout, and the checkpoints of the one before have been cleared, as
  they are on success unless that is switched off; checkpoint directories may be shared.

## Model

| member | source | states |
|---|---|---|
| Common.NeedToWriteIffNotZero | src/task/VolumeBlockWriter.cpp:113-123 | comparing a buffer with itself shifted by one byte finds it empty exactly when every byte is zero |
| Pipeline.CompareOffset | src/task/VolumeBlockHasher.cpp:110 | the 32-bit comparison offset equals the store offset exactly below index 2^27 |
| Pipeline.FirstFree | src/task/VolumeProtectTaskContext.cpp:47-59 | the first free buffer, all before it being taken |
| Pipeline.FirstUnset | src/task/VolumeProtectTaskContext.cpp:141-149 | the least absent index within the capacity |
| Handshake.LastOneOut | src/task/VolumeBlockHasher.cpp:156-166 | a worker that reads zero after its decrement finishes the queue only when no worker holds a block or can get one |
| Handshake.NotTheLast | src/task/VolumeBlockHasher.cpp:156-163 | a worker that reads another value leaves somebody behind who will finish the queue |
| Stages.StoreIsTruthful | src/task/VolumeProtectTaskContext.cpp:125-131 | a racing store may lose bits set since the load but never those restored, and invents none |
| Cut.CopyByte | src/task/VolumeProtectTaskContext.cpp:360-370 | copying the written bitmap after the processed one keeps every copied byte consistent |
| Session.StepKeeps | src/task/VolumeBackupTask.cpp:185-300 | every step of every thread, and a crash of process or machine with its restart, keeps all invariants, those on content included |
| Session.StepKeepsCore | src/task/VolumeBackupTask.cpp:185-300 | the invariants on blocks, buffers, bits, snapshots and counters are kept in sessions of any size and mode |
| Session.CrashLeavesStartable | src/task/VolumeProtectTaskContext.cpp:442-502 | any crash leaves a target and files that a run can start from |
| Session.CrashLeavesRight | src/task/VolumeProtectTaskContext.cpp:442-502 | whatever a crash tears, the bits the next run may load name blocks that are right on the target, on disk and in the saved table |
| Session.ReachableInv | src/task/VolumeBackupTask.cpp:185-300 | all invariants hold in every reachable state, over any number of runs |
| Session.ReachableCore | src/task/VolumeBackupTask.cpp:185-300 | the structural ones hold whatever the size and mode of the session |
| Convergence.SuccessMeansDone | src/task/VolumeBlockWriter.cpp:136-141 | when all threads end in success every block is done and no queue or thread holds one |
| Convergence.SuccessIsRight | src/task/VolumeBackupTask.cpp:270-300 | after any history, success of the last run without failed Write or lying checkpoint leaves the right target and table, on disk as well once the session has ended and no fsync has failed |
| Convergence.CheckpointIsSound | src/task/VolumeProtectTaskContext.cpp:382-402 | each bit of a file saved by a completed refresh, with no fsync failed before, names a block that survives any crash of process or machine and whose digest is in the saved table |
| Convergence.CleanCheckpointIsSound | src/task/VolumeProtectTaskContext.cpp:373-403 | in clean runs every checkpoint is sound except between the two saves |
| Convergence.CrashRestartConvergence | src/task/VolumeProtectTaskContext.cpp:373-501 | over any number of runs cut anywhere outside that window, with no failed Write, fsync or last table save and a table that restarts can read, success leaves every block and digest as one undisturbed run would, on disk as well once the session has ended |
| Convergence.TargetIsVolume | src/task/VolumeBlockHasher.cpp:111-119 | with a truthful previous table the result is the volume exactly when skipped empty blocks are empty on the target |
| Convergence.FinishedSessionIsIdle | src/task/VolumeBlockReader.cpp:147-177 | a run, of any length, of a fully restored session leaves target, table and buffers as the restart found them and all six counters as restored, bytes read and written among them |
| Stopping.AbortStops | src/task/VolumeBlockReader.cpp:165-168 | in any run, once its abort flag is up, the reader takes up at most the block it was past its look at the flag with, each worker at most one, and the writer at most one |
| Stopping.AbortReachesAll | src/task/VolumeProtectTaskContext.cpp:215-226 | an abort raises the flags of reader, hasher and writer, and none is up without one; a session ends unfinished only when all three are up or a thread has failed |
| Stopping.IdleChoices | src/task/VolumeBackupTask.cpp:276-292 | while it watches the session, the main thread may end it unfinished without an abort exactly if a thread has failed, and may finish it exactly if all threads have ended |
| Stopping.RefreshHoldsReader | src/task/VolumeProtectTaskContext.cpp:373-380 | from the beginning of a refresh to its end the reader takes up at most the block it was past the pause loop with |
| Stopping.RefreshStopsOnError | src/task/VolumeProtectTaskContext.cpp:385-396 | a refresh that fails to save the table or the newer snapshot changes neither table nor checkpoint any more |
| Stopping.ReadErrorIsFinal | src/task/VolumeBlockReader.cpp:178-188 | after a failed read or a wait for a buffer that timed out the reader takes up nothing more in the run, stays failed, and the session never succeeds |
| Stopping.WriteErrorIsFinal | src/task/VolumeBlockWriter.cpp:149-170 | after a failed Write no block is written any more in the run, and the session never succeeds |
| Stopping.FailuresAreCounted | src/task/VolumeBlockWriter.cpp:149-163 | the count of failed blocks is that of the block whose Write failed and of all blocks lost since |
| Restarts.ResumesWhereItStopped | src/task/VolumeBlockReader.cpp:137-145 | a run that takes up a checkpoint has exactly its blocks behind it and goes on with the first one that is not among them |
| Restarts.CheckpointsAreKept | src/task/VolumeBackupTask.cpp:240-300 | a saved checkpoint is kept through any failures, aborts and crashes until a session has come to its end |
| Restarts.EndsWithLastSave | src/task/VolumeBackupTask.cpp:294-297 | a session comes to its end with a save of the bitmaps as they finally are; if that succeeds the checkpoint has them all |
| Restarts.NoTableWithoutHasher | src/task/VolumeProtectTaskContext.cpp:405-417 | a session that does not hash, as every restore, never saves a table |
| Restarts.ClearedStartsAfresh | src/task/VolumeBackupTask.cpp:368-378 | after a checkpoint has been cleared, any run that finds what is left, of any session and after any crash, starts with every block to do, empty bitmaps, a fresh table and fresh counters, whatever it can read |
| Restarts.StartsOverAfresh | src/task/VolumeBackupTask.cpp:266 | so the next backup on the same copy starts as a first backup on it would |
| Delivery.ShutdownHandshake | src/task/VolumeBlockHasher.cpp:84-166 | no push is ever refused; a finished write queue means no worker holds a block and, unless aborted, an empty finished hashing queue; when all workers are gone it is finished |
| Delivery.PushNeverWaits | include/VolumeProtector.h:30-31 | at most 32 blocks are in flight, 33 after a failed Write, so no push meets a full queue |
| Delivery.BuffersAreExclusive | src/task/VolumeProtectTaskContext.cpp:47-72 | while no Write has failed blocks in flight share no buffer and keep what was read |
| Delivery.StepMovesForward | src/task/VolumeBlockReader.cpp:155-196 | a step moves blocks forward only, and content changes only on the way out of the writer |
| Delivery.EndedOnce | src/task/VolumeBlockWriter.cpp:131-170 | within one run every block that has been dropped, written, restored or lost stays there, and its content is not touched again |
| Delivery.ExactlyOnce | src/task/VolumeBlockHasher.cpp:89-124 | after success each block not restored was dropped or written, nothing is left over and all buffers are free |
| Delivery.BitsAreTruthful | src/task/VolumeProtectTaskContext.cpp:125-131 | whatever races lose, a set bit names a block that is done; with one setter the final set is exact |
| Delivery.SnapshotsAreConsistent | src/task/VolumeProtectTaskContext.cpp:360-370 | at any interleaving every snapshot the control thread holds, the first, the second and the final one, shows a processed block as written unless dropped or restored; in DIRECT mode always |
| Delivery.FilesAreConsistent | src/task/VolumeProtectTaskContext.cpp:393-402 | in DIRECT mode a saved checkpoint has its processed bits among its written ones |
| Accounting.BytesAreConserved | src/task/VolumeBlockHasher.cpp:109-123 | bytes charged minus bytes counted written are the lengths of the blocks between charge and count, at every step |
| Accounting.SuccessCounts | src/task/VolumeBlockReader.cpp:199-211 | after success charged equals written and to-hash equals hashed; bytes read equal the session size exactly when the restored count was exact; bytes written are those of the blocks restored as written and of the blocks written since, exactly under the same condition, and then those of the written bitmap exactly if no block was written twice |
| Accounting.RestartCounts | src/task/VolumeProtectTaskContext.cpp:504-520 | a run starts with the bytes of its processed blocks as read and those of its written blocks as written, each exactly when the set has no short last block without all others, and with the processed blocks as hashed |
| Totals.RestoredBytesExact | src/task/VolumeProtectTaskContext.cpp:504-520 | the restored byte count never exceeds the session and is exact unless a short last block is in it while another is not |
| Totals.BlockEnds | src/task/VolumeBlockReader.cpp:253-263 | every block but the last is full, and the last ends where the session ends |
| Totals.AllBytesPrefix | src/task/VolumeBlockReader.cpp:253-263 | the lengths of all blocks add up to the session size |
| Progress.StepDecreases | src/task/VolumeBlockReader.cpp:155-251 | every thread step but a turn of the pause loop uses up a measure, and the control thread adds nothing to it |
| Progress.RunsAreFinite | src/task/VolumeBlockWriter.cpp:131-177 | a run of n blocks and w workers, from any restart, takes at most 70n + 6w + 11 thread steps and one more for each look at a raised pause flag, failures and aborts included |
| Progress.NoDeadlock | src/task/VolumeBlockHasher.cpp:89-127 | until all threads have exited one can move, or the reader waits for a refresh to lower its pause flag |
| Progress.RefreshEnds | src/task/VolumeProtectTaskContext.cpp:373-403 | every step of a refresh brings it nearer its end, and at its end the flag is down |
| Progress.StarvedReaderIsServed | src/task/VolumeBlockReader.cpp:233-251 | in a run without abort a reader without a free buffer always leaves the writer or a worker able to move, whatever Writes have failed |
| Termination.FairRunsEnd | src/task/VolumeBlockReader.cpp:155-251 | in every infinite run that is fair to its threads and in which a raised pause flag is seen finitely often all threads exit, failures and aborts included |
| Termination.RunsWithRefreshesEnd | src/task/VolumeBackupTask.cpp:270-300 | in every fair run with finitely many refreshes all threads exit: a refresh ends and its pause flag comes down |
| IncrementalChain.PreviousLoads | src/task/VolumeBackupTask.cpp:324-339 | when exactly the previous table loads, and what of it: all but a short last block |
| IncrementalChain.LoadedIsTruthful | src/task/VolumeBackupTask.cpp:302-339 | what a generation loads describes what it writes onto |
| IncrementalChain.ChainIsFaithful | src/task/VolumeBackupTask.cpp:302-339 | every generation of a chain, each a clean run to its end on what the one before left after its checkpoint was cleared, starts as if nothing had been there, and after it the copy on disk is the volume and the saved table its digests |
| IncrementalChain.IncrementalEqualsFull | src/task/VolumeBlockHasher.cpp:103-119 | a chain of incremental backups leaves on disk the copy and table of one full backup of the last volume |
| Departures.SuccessMeansRightCopy | src/task/VolumeBackupTask.cpp:185-300 | over all runs, with any failures and crashes, success means that every block is as it should be exactly for sessions that take no checkpoints or never write a block |
| Departures.SuccessMeansRightTable | src/task/VolumeBackupTask.cpp:185-300 | and that every digest is right exactly for sessions that take no checkpoints or do not hash |
| Departures.CopyRightExactly | src/task/VolumeBlockWriter.cpp:157-169 | for every set of the five failures: success means a right target exactly if the session takes no checkpoints, or writes no block where Writes may fail and nothing new where fsyncs or second saves may |
| Departures.TableRightExactly | src/task/VolumeProtectTaskContext.cpp:382-403 | and right digests exactly if it takes no checkpoints or does not hash, or the set has at most failed fsyncs and Writes, and no digests differ behind a block whose Write may fail |
| Safety.WithoutCheckpoints | src/task/VolumeProtectTaskContext.cpp:373-380 | without checkpoints every success is right, after any failures and any crashes |
| Sharing.WithSameTail | src/task/VolumeBlockWriter.cpp:162-169 | failed Writes and fsyncs leave the digests right in every session whose blocks behind one that it writes all have the same digest |
| DoubleFree.SpoilDigest | src/task/VolumeBlockWriter.cpp:162-169 | from the start of any hashing session, one failed Write, whose buffer is freed twice, can make any later block but the last be hashed with the bytes of the block after it |
| Departures.OneBlockIsHarmed | src/task/VolumeBackupTask.cpp:185-300 | a session of one block and one byte is harmed by each of the failures |
| Departures.FailedWriteIsForgotten | src/task/VolumeBlockWriter.cpp:157-169 | failed Writes can leave a wrong target after success exactly in sessions that take checkpoints and write any block, and a wrong digest exactly in hashing ones whose digests differ behind such a block |
| Departures.CrashBetweenSavesLosesData | src/task/VolumeProtectTaskContext.cpp:393-402 | crashes between the two saves, or second saves that fail, can lose data after success exactly in sessions that take checkpoints and write a block that is new to the target, and a digest exactly in those that hash and take checkpoints |
| Departures.FailedFsyncLosesData | src/native/linux/PosixRawIO.cpp:109-116 | failed fsyncs can lose data after success exactly in sessions that take checkpoints and write a block that is new to the target, and never lose a digest |
| Departures.LostTableIsForgotten | src/task/VolumeBackupTask.cpp:295-297 | last table saves that fail never cost data, and can cost a digest after success exactly in sessions that hash and take checkpoints |
| Departures.UnreadableTableLosesDigest | src/task/VolumeProtectTaskContext.cpp:442-461 | tables that cannot be read never cost data, and can cost a digest after success exactly in sessions that hash and take checkpoints |
| Departures.ComparesOwnDigest | src/task/VolumeBlockHasher.cpp:110-113 | each block is compared with its own previous digest exactly up to 2^27 blocks |
| Departures.ChangedBlockIsDropped | src/task/VolumeBlockHasher.cpp:110-118 | in a larger session block 2^27 is dropped exactly when block 0 is unchanged |
| Threads.SharedSession.ReadBlocks | src/task/VolumeBlockReader.cpp:147-196 | left alone, the reader hands out in order exactly the blocks the checkpoint does not have, each with the content of the volume, and stops only at its end, at a raised pause flag or for want of a buffer; it succeeds exactly when it has come to the end, fails exactly on a failed read or a wait that timed out, and once told to abort hands out at most the block it is on |
| Threads.SharedSession.HashBlocks | src/task/VolumeBlockHasher.cpp:84-128 | left alone, a worker empties the hashing queue unless aborted; of the blocks it works off those with an unchanged digest are dropped and all others handed on; once told to abort it takes at most one more |
| Threads.SharedSession.WriteBlocks | src/task/VolumeBlockWriter.cpp:125-178 | left alone, the writer empties the write queue unless aborted; every block in it is written as it was read or skipped if empty, save the one whose Write fails and those after it, which are lost; no other block is touched; it succeeds exactly when no Write has failed, ends otherwise than aborted only on a finished empty queue, and once told to abort takes at most one more block |
| Threads.SharedSession.CopySession | src/task/VolumeBackupTask.cpp:240-300 | from any start or restart and under any scheduler, a session in which nothing fails and nobody aborts ends in success with every block and every digest as it should be |
| BlockingQueues.BlockingQueue.BlockingPush | include/common/BlockingQueue.h:60-71 | one critical section of a push, up to waiting or returning |
| BlockingQueues.BlockingQueue.BlockingPop | include/common/BlockingQueue.h:80-93 | one critical section of a pop |
| BlockingQueues.BlockingQueue.ResumePush | include/common/BlockingQueue.h:67-70 | a woken producer pushes or waits again; it does not look at the finished flag a second time |
| BlockingQueues.BlockingQueue.ResumePop | include/common/BlockingQueue.h:83-92 | a woken consumer pops, is refused or waits again |
| BlockingQueues.BlockingQueue.Finish | include/common/BlockingQueue.h:100-107 | the queue is finished and every waiter woken |
| BlockingQueues.BlockingQueue.TryBlockingPush | include/common/BlockingQueue.h:116-126 | a push that never waits |
| BlockingQueues.BlockingQueue.TryBlockingPop | include/common/BlockingQueue.h:135-146 | a pop that never waits |
| BlockingQueues.BoundedFifo | include/common/BlockingQueue.h:60-146 | in every history popped items followed by the contents are the accepted pushes in order, within the bound |
| BlockingQueues.AcceptsWhatWasPushed | include/common/BlockingQueue.h:60-71 | a push that goes through, after any number of waits, adds the item its caller came with, and nothing else adds any |
| BlockingQueues.NoLostWakeUp | include/common/BlockingQueue.h:60-146 | while a consumer waits every queued item has a woken consumer on its way, dually for producers and free places |
| BlockingQueues.SleepersHaveReason | include/common/BlockingQueue.h:60-107 | if nobody woken is left, consumers wait on an empty unfinished queue, producers on a full one, both only if it can hold nothing |
| BlockingQueues.ConsumerReturns | include/common/BlockingQueue.h:80-93 | exactly when a pop waits, is refused, or returns the oldest undelivered item |
| BlockingQueues.FalsePopIsFinal | include/common/BlockingQueue.h:80-107 | a refused pop means nothing more will ever be accepted exactly when no producer was left inside |
| PipelineQueues.PushIsPush | include/common/BlockingQueue.h:60-71 | a push of the pipeline is possible exactly when the monitor lets it through, and does to items and finished flag what the monitor does |
| PipelineQueues.PopIsPop | include/common/BlockingQueue.h:80-93 | so for a pop, whether it is the first look at the queue or one after a wait |
| PipelineQueues.ReaderPushes | src/task/VolumeBlockReader.cpp:199-210 | the reader's step at its push is that critical section on the queue it feeds, waits and refusals included |
| PipelineQueues.WorkerPops | src/task/VolumeBlockHasher.cpp:96-99 | a worker's step at its pop is the critical section on the hashing queue, and it goes on with the item or leaves |
| PipelineQueues.WorkerPushes | src/task/VolumeBlockHasher.cpp:121-123 | a worker's step at its push is the critical section on the write queue |
| PipelineQueues.WriterPops | src/task/VolumeBlockWriter.cpp:137-141 | the writer's step at its pop is the critical section on the write queue, and it goes on with the item or ends |
| PipelineQueues.ReaderFinishes | src/task/VolumeBlockReader.cpp:194 | the reader's last step finishes the queue it feeds |
| PipelineQueues.WorkerFinishes | src/task/VolumeBlockHasher.cpp:156-166 | the last worker's step finishes the write queue |
| PipelineQueues.OthersLeaveTheQueues | src/task/VolumeBlockHasher.cpp:84-166 | no other step of any thread changes either queue |
| Bitmaps.OrSetsOneBit | src/task/VolumeProtectTaskContext.cpp:130 | or-ing in a mask sets one bit and keeps the other seven |
| Bitmaps.StoreIndices | src/task/VolumeProtectTaskContext.cpp:130 | storing a byte loaded earlier replaces exactly that byte's indices |
| Bitmaps.Bitmap.constructor | src/task/VolumeProtectTaskContext.cpp:106-111 | a new bitmap is empty and has a spare bit |
| Bitmaps.Bitmap.Set | src/task/VolumeProtectTaskContext.cpp:125-131 | adds one index within the capacity and changes no other |
| Bitmaps.Bitmap.Test | src/task/VolumeProtectTaskContext.cpp:133-139 | tells membership |
| Bitmaps.Bitmap.FirstIndexUnset | src/task/VolumeProtectTaskContext.cpp:141-149 | the least index not in the bitmap |
| Bitmaps.Bitmap.TotalSetCount | src/task/VolumeProtectTaskContext.cpp:161-168 | the number of indices in the bitmap |
| Bitmaps.ResumeIndex | src/task/VolumeBlockReader.cpp:137-145 | the resume index stays within the session and is one past the last block exactly when all are processed |
| Allocator.VolumeBlockAllocator.BlockAlloc | src/task/VolumeProtectTaskContext.cpp:47-59 | hands out the first free buffer and marks it, or null when none is free |
| Allocator.VolumeBlockAllocator.BlockFree | src/task/VolumeProtectTaskContext.cpp:61-72 | frees the buffer at an address, and fails exactly when no buffer starts there |
| Allocator.PoolHoldsBuffers | src/task/VolumeProtectTaskContext.cpp:27-33 | buffers lie inside the pool, without overlap, exactly when the pool is smaller than 4 GB |
| Allocator.FreeUndoesAlloc | src/task/VolumeProtectTaskContext.cpp:47-72 | freeing what was handed out restores the table |
| Snapshots.CheckpointSnapshot.SaveTo | src/task/VolumeProtectTaskContext.cpp:325-337 | the first half of the file is the processed bitmap and the second the written one |
| Snapshots.CheckpointSnapshot.LoadFrom | src/task/VolumeProtectTaskContext.cpp:303-323 | exactly files of even positive size load, the first half as processed and the second as written |
| Snapshots.RoundTrip | src/task/VolumeProtectTaskContext.cpp:303-337 | loading what was saved gives both bitmaps back for every positive length |
| Snapshots.SessionContext.RestoreSessionBitmap | src/task/VolumeProtectTaskContext.cpp:478-501 | a file of the wrong size changes nothing, another replaces both bitmaps by its halves |
| Snapshots.SessionContext.RestoreSessionCounter | src/task/VolumeProtectTaskContext.cpp:504-520 | all six counters from the two bitmaps: bytes read are those of the processed blocks and bytes written those of the written ones, each exactly when its set has no short last block without all others |
| Snapshots.SessionContext.RestoreSessionCheckpoint | src/task/VolumeProtectTaskContext.cpp:442-461 | the whole context after a restore, on every error path; without a checkpoint file nothing is taken up, not even a table |
| Snapshots.RestoringTwiceIsOnce | src/task/VolumeBackupTask.cpp:209-255 | restoring a session a second time changes nothing |
| Snapshots.BootIsRestore | src/task/VolumeBackupTask.cpp:185-208 | the transition system starts from what the imperative restore gives, with a checkpoint file and without one |
| Geometry.SplitSessions | src/task/VolumeBackupTask.cpp:99-124 | the sessions tile the volume, only the last one short, for every volume and session size whose sessions end below 2^64 |
| Geometry.SplitIsRight | src/task/VolumeBackupTask.cpp:99-124 | the loop stands where it should after every turn exactly when the sessions, the last one taken whole, end below 2^64 |
| Geometry.ZeroNeverEnds | src/task/VolumeBackupTask.cpp:99-124 | with a session size of zero the loop ends exactly for an empty volume |
| Geometry.SplitIsUnique | src/native/TaskResourceManager.cpp:38-58 | two splits of a volume agree on every session |
| Common.BlocksCover | src/task/VolumeProtectTaskContext.cpp:182-189 | the block count is the least number of blocks that cover the session |
| Geometry.JoinBlocks | src/task/VolumeBlockReader.cpp:253-263 | splitting a session into blocks loses nothing |
| Geometry.StoreIsSplice | src/task/VolumeBlockWriter.cpp:157-158 | replacing a block is writing its bytes at its offset |
| RawIO.PosixRawDataReader.Read | src/native/linux/PosixRawIO.cpp:37-52 | reads at the shifted offset, and fails on every short read |
| RawIO.PosixRawDataWriter.Write | src/native/linux/PosixRawIO.cpp:82-97 | writes at the shifted offset what the system accepts, and fails unless that is all |
| RawIO.BlockLocation | src/native/RawIO.cpp:37-98 | with the shift of its side, volume or copy, a block lies at the session's base plus its own offset |
| RawIO.WriteStoresBlock | src/native/linux/PosixRawIO.cpp:82-97 | a raw write of a block changes that block of the session and no byte outside the session |
| RawIO.ReadFetchesBlock | src/native/linux/PosixRawIO.cpp:37-52 | a raw read of a block gives that block, for any block size |
| RawIO.WriteKeepsOthers | src/native/RawIO.cpp:66-98 | writing within one session changes no byte of another, in one image or in separate files |
| CopyFiles.CopyFilesDistinct | src/common/VolumeUtils.cpp:29-51 | two sessions share a copy file exactly in image format |
| CopyFiles.CopiesApart | src/common/VolumeUtils.cpp:29-51 | two copy files have the same path exactly if they are in the same directory, of the same copy and format, and of the same session or one image |
| CopyFiles.CopyDataNamesApart | src/common/VolumeUtils.cpp:29-51 | their names tell copies, formats and sessions apart, for copy names of any form |
| CopyFiles.NamingIsDistinct | src/common/VolumeUtils.cpp:29-51 | the naming of copy files is what separate sessions need, for every directory, name and format |
| CopyFiles.SessionFilesDistinct | src/common/VolumeUtils.cpp:19-59 | two checksum or checkpoint files have the same name exactly if copy, session and kind are the same |
| CopyFiles.DataApartFromMeta | src/common/VolumeUtils.cpp:19-59 | no data file has the name of a checksum or checkpoint file of any copy |
| CopyFiles.MetaFilesApart | src/common/VolumeUtils.cpp:19-59 | a checksum table and a checkpoint are never one file, and tables, and checkpoints, are one file only for the same directory, copy and session |
| CopyFiles.BackupTaskResourceManager.SplitFragmentBinaryBackupCopy | src/native/TaskResourceManager.cpp:38-58 | the sizes of the sessions, always with the index of the first |
| CopyFiles.BackupTaskResourceManager.CreateFragmentBinaryBackupCopy | src/native/TaskResourceManager.cpp:60-79 | succeeds exactly for no session, or for one whose file is new |
| CopyFiles.BackupTaskResourceManager.PrepareCopyResource | src/native/TaskResourceManager.cpp:239-260 | exactly when preparing succeeds and which file it creates |
| CopyFiles.PreparedForEverySession | src/native/TaskResourceManager.cpp:239-285 | a fresh full backup has a file for every session exactly in image format or with at most one session |
| BackupRestore.GeometryIsValid | src/task/VolumeProtectTaskContext.cpp:182-189 | any nonempty session with a positive block size is a configuration of the pipeline exactly when 32 of its blocks fit into 4 GB |
| BackupRestore.PipelineWriteIsRawWrite | src/task/VolumeBlockWriter.cpp:157-158 | every step of the writer, failed Writes included, does to the bytes of the file at the shifted volume offset what it does to the blocks, and touches no byte outside the session |
| BackupRestore.TouchIsStep | src/native/linux/PosixRawIO.cpp:82-97 | every step of a session, a crash that tears blocks included, does to the bytes of its file what it does to the blocks |
| BackupRestore.TurnKeeps | src/task/VolumeBackupTask.cpp:240-269 | with all sessions of a volume running over their files in any order, a step of one keeps every session's file in line with its target, its own and the others' |
| BackupRestore.TaskCopies | src/task/VolumeBackupTask.cpp:240-269 | when every session has succeeded, over any number of crashes and restarts, the files hold for each the bytes it was read from |
| BackupRestore.BackupThenRestore | src/task/VolumeRestoreTask.cpp:206-234 | a backup and a restore of its copy, each run to success through any crashes, turn a target of the volume's size into the volume, for every session size, pair of block sizes and format |
| BackupRestore.NamedCopyComesBack | src/common/VolumeUtils.cpp:29-51 | so do they with the copy files named as the code names them |
| Generations.ChainHolds | src/task/VolumeBackupTask.cpp:302-339 | a full backup of a volume and each incremental one over the files of all its sessions, begun on what the one before left after its checkpoints were cleared, begin afresh, and after each the files hold the bytes and the tables the digests of the volume as that backup found it |
| Generations.ChainThenRestore | src/task/VolumeRestoreTask.cpp:206-234 | a full backup, any number of incremental ones and a restore, each through any clean crashes, give back the volume as the last backup found it, byte for byte |
| ZeroCopy.VolumeZeroCopyRestoreTask.PerformZeroCopyRestore | src/task/VolumeZeroCopyRestoreTask.cpp:163-197 | what has been transferred so far lies at the start of the device and is counted once, and is what so many calls of a block each move; an error of one call ends the loop at once and nothing else fails it; it is done exactly when the whole session has been moved, so never on a copy that is too short, and it does get there if every call moves something |
| ZeroCopy.RightOnlyAtZero | src/task/VolumeZeroCopyRestoreTask.cpp:139-185 | that is the right place exactly for a session at offset 0 or an empty one |

## Left out

- Convergence.CrashRestartConvergence: says of a run without the five failures that it ends well, and nothing of one with them; for which sessions such runs can end badly is said, both ways, in `Departures`.
- RawIO.PosixRawDataWriter.Write: file sizes are unbounded, and a seek beyond 2^63 is only described as leaving the position alone, because no session reaches there.
- BackupRestore.BackupThenRestore: every session's copy file is taken to exist and to be long enough, which in binary format with several sessions the code itself does not achieve; and no Write or fsync fails, as in `CleanRun`.
- ZeroCopy.VolumeZeroCopyRestoreTask.PerformZeroCopyRestore: the sum of session end and block size is taken to fit in 64 bits, as offsets of files and devices are below 2^63.
- Threads.SharedSession.ReadBlocks: the methods of `Threads` take the steps of the transition system one by one; the bodies of the loops are written once, as `ReaderStep`, `WorkerStep` and `WriterStep`. The queue, the bitmap and the allocator these steps use are modelled as classes of their own, and the steps use their abstract values.
- Memory is sequentially consistent; only `Bitmap::Set` is split into a load and a store.
- The sessions of a task may take their steps in any order in `BackupRestore`, of which the order of the code is one; that the code runs one session at a time is not stated.
- The control thread's test for failure and its test for termination are one observation each of the three statuses; the session is taken to have ended once all three are final, and a writer that passes through success before failure may be seen in between.
- The status between construction and start, failures to start a thread or to open a device, the `m_failed` test at the top of the reader's loop (a failed read has already left it) and the error codes.
- Writes of the table and checkpoint files are atomic and durable; a file that cannot be read back is treated as missing.
- The checkpoints of all sessions are cleared together once the last session has succeeded; in the model each session's may be cleared once that session has come to its end, or not at all, as when clearing is switched off.
- The one-minute timer of a refresh, the 60-second wait for a buffer and the sleep intervals are free choices of a step.
- SHA-256 itself, and the error exits of the digest call that leave the table entry alone.
- Saving the table is one step, while the code walks it in memory as workers store into it. What the file then holds may be a mixture of entries before and after; the snapshot that is finally kept was taken earlier, and the entries of its blocks no longer change.
- The JSON metadata, logging, statistics merged over sessions, path joining beyond one separator.
- Virtual disk formats, Windows raw I/O, partition tables, mounting and unmounting, the command line and the language bindings: calls into foreign code or interface code.
- Several sessions of a zero-copy restore in a row: the descriptor is reopened for each, so only the single session is modelled.
