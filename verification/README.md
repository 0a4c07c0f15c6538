# Concurrency and data integrity of the ECS archive driver, in Dafny

The archive driver moves files to and from S3/ECS storage over a set of cooperating threads. This
project models the parts in which that can go wrong without anybody noticing, and proves what they
are for: that the object on the server is the file, that no thread waits for ever for a wake-up that
has passed, that a buffer shared by several handles behaves like a value, that a lock excludes.

`dafny verify dfyconfig.toml` checks everything.

## How the model is organised

| component | specification and results | in the source's own form |
|---|---|---|
| multipart upload (`FileSupport.cpp`, stream-send loop of `ECSConnection.cpp`) | `UploadState`, `UploadInvariants`, `UploadSteps`, `UploadTheorems`, `UploadCauses`, `UploadProgress`, `UploadChecksum`, `UploadExample` | `UploadLoops`, `UploadSender` |
| part plans | `PartPlan` | `PartPlan` |
| checksum and single-request producer (`FileSupport.cpp`) | `FileStream` | `FileStream` |
| thread pool (`ThreadPool.h`) | `PoolState`, `PoolInvariants`, `PoolTheorems`, `PoolExample` | `ThreadPool` |
| re-entrant reader/writer lock (`CRWLock.cpp`) | `LockState`, `LockTheorems`, `LockFlags`, `LockExample` | `RWLock` |
| copy-on-write buffer (`cbuffer.cpp`) | `SharingState`, `SharingTheorems`, `SharingExample` (all interleavings) | `Buffer` (heap objects) |
| shared queue and its events (`CSharedQueue.h`, `CSharedQueue.cpp`) | `WakeUp` | `SharedQueue`, `StreamQueue` |
| address failover (`ECSConnection.cpp`) | `Failover` | `Failover` |
| session cache (`ECSConnection.cpp`) | `SessionState`, `SessionTheorems`, `SessionExample` | `SessionCache` |
| throttle (`ECSConnection.cpp`) | `Throttle` | `Throttle` |
| recursive delete (`ECSConnection.cpp`) | `KeyOrder`, `DeleteHistory`, `DeleteOrder` | `RecursiveDelete` |
| canonical request strings (`ECSConnection.cpp`) | `KeyOrder`, `Canonical` | `Canonical` |
| percent coding (`UriUtils.cpp`) | `PercentCoding` | `PercentCoding` |

A protocol between threads is a state machine: one step is one critical section or one thread-local
action, `Enabled` says when it can happen, `Apply` what it does, and the results speak about every
run. Everything that the file system, the network, the clock or the scheduler decides (how many bytes
a read or a write moves, whether it fails, what a listing shows, who runs next) is a parameter of the
step or of the method, or an unknown value. What one thread does by itself in loops is a method with those
loops. Classes whose methods are critical sections are tied to the state machine by
`Abs() == F(old(Abs()))`, and the upload loops take the steps of the machine one by one, with any
number of steps of other threads in between.

What the driver relies on is stated as a precondition: a positive part size, a positive buffer size,
reads that deliver at least one byte, buffer sizes for which header and slack do not wrap, buffers
that are not appended to themselves, and locks that a thread gives back last-in-first-out.

## What the proofs found out about the code

Each of these is stated exactly, with its condition, in the table below.

* The announced limit of 1000 parts is exceeded by one when the undivided part length goes exactly
  1000 times into the size, with a remainder (`PartPlan.PartCountLimit`, `PartPlan.ThousandAndOneParts`).
* A pool whose minimum of threads is above its positive maximum exceeds the maximum, and only such a pool
  does (`PoolTheorems.LimitIsKeptExactly`); the unsigned difference that is compared with zero then lets
  it start one thread more (`PoolTheorems.AddThreadsWithinLimit`).
* `SendRequest` keeps its own error code in the base class and returns the one of the embedded record. When
  no address forbids another attempt and the last attempt of all reports no error, although no server
  answered, the request returns a success and every address of the host is marked bad
  (`Failover.Connection.SendRequest`, `Failover.TwoSilentAddresses`). The comment above `LogBadIPAddr` says
  that this cannot happen.
* Session keys above half of the 32-bit range are negative and are never found by the search, which
  starts at key 0 (`SessionTheorems.IdleNegativeKeyIsLost`, `SessionExample.LostAfterHalfTheRange`); after
  the counter has come round a session in use can be handed to a second holder
  (`SessionTheorems.CreateIsExclusive`, `SessionExample.TwoHoldersAfterTheWrap`).
* `CBuffer::Compare` subtracts sizes in 32 bits, so its order is transitive exactly among sizes below 2 GB
  (`Buffer.TransitiveExactly`, `Buffer.OrderCycles`), while its equality is exact (`Buffer.EqualExactly`).
* A folder that is given twice, and lists a new file the second time, can be deleted before that file: the
  folder's key is sent after a key beneath it exactly if the key was known by then
  (`DeleteOrder.SentAfterWhatWasKnown`, `DeleteOrder.FolderBeforeItsNewFile`). The last request for the
  folder always comes after everything (`DeleteOrder.FoldersGoLast`).
* A streamed request that has to be sent again for authentication finds its queue drained and can only end
  with an error; nothing else ever holds up an upload (`UploadProgress.NeverStuck`,
  `UploadExample.SentAgainWaits`).
* The flag of a lock is cleared after the lock has been given back, so the flags of two writers can be set at
  the same time, although never both in possession (`LockFlags.FlagsOverlap`,
  `LockFlags.FlagsOverlapOnlyInPassing`).
* With a repeated signed parameter the canonical resource depends on the order of the parameters
  (`Canonical.OrderDoesNotMatter`).
* `UriEncodeS3` drops the high byte of a wide character (`PercentCoding.S3RoundTrip`).
* The trigger of a pop sees the length before the pop (`SharedQueue.SharedQueue.PopFront`), so the pop
  that makes room does not wake a waiting producer; the model lets producers poll.

## Model

| member | source | states |
|---|---|---|
| `UploadLoops.DoS3MultiPartUpload` | ECSUtil/FileSupport.cpp:428-762 | The whole upload, for any answers of the file system, the caller and the server. It is declined exactly for the three size reasons, refused exactly for zero threads, not started exactly when the server refuses; a success means the server was called "initiate, complete" and holds exactly the file; any other end of a started upload is an abort, as the last call, and has a reason: a failed read, a requested abort, a refused completion, spent patience, or a part that failed on all its tries |
| `UploadLoops.Uploader.Run` | ECSUtil/FileSupport.cpp:526-761 | The outer loop with its wake-ups, followed by complete or abort, is a run of the step machine that ends; it fails only for a reason that its answers or the requests of a part give |
| `UploadLoops.Uploader.ScanParts` | ECSUtil/FileSupport.cpp:528-611 | The pass over the part list is a run of the step machine: it leaves to the wait, to the completion, or by an error |
| `UploadLoops.Uploader.FillPart` | ECSUtil/FileSupport.cpp:556-606 | The first read-and-queue pass over a part terminates under every pattern of short reads and hands the part to the pool |
| `UploadLoops.Uploader.RefillPart` | ECSUtil/FileSupport.cpp:691-720 | The refill loop stops only with a full queue or a fully read part, whatever the sender removes meanwhile |
| `UploadLoops.Uploader.PurgePass` | ECSUtil/FileSupport.cpp:643-730 | The pass over the pending list terminates and either gives up for a cause given by its answers, rescans the parts, or waits again |
| `UploadLoops.FailedRequestIsRetried` | ECSUtil/FileSupport.cpp:655-673 | At a failed request with tries left the uploading thread has no step but the retry, after which the part can be handed out again |
| `UploadCauses.FailureHasACause` | ECSUtil/FileSupport.cpp:526-761 | A run fails only if the uploading thread gave up by itself, the server refused the completion, or a part failed more often than it may be tried again |
| `UploadCauses.FailureHasAReason` | ECSUtil/FileSupport.cpp:526-761 | In a given environment: a read that failed, a request to abort, spent patience, a refused completion, or such a part; so one failed request does not end an upload with retries |
| `UploadCauses.FailsByGivingUp` | ECSUtil/FileSupport.cpp:526-761 | A run has failed if and only if one of its steps gave up, so a success has seen none of these causes |
| `UploadCauses.WornOutMeans` | ECSUtil/FileSupport.cpp:660-673 | A part that failed more often than it may be tried again was handed out exactly retries plus one times, failed each time, and its last failure was not answered |
| `UploadCauses.StepCounts` | ECSUtil/FileSupport.cpp:655-690 | Every step keeps count: each failed request of a part is answered by one retry or is its last |
| `UploadSender.SendStream` | ECSUtil/ECSConnection.cpp:1555-1642 | The stream-send loop with partial writes terminates: when it ends by itself the request body is exactly the part's slice of the file, whatever all other threads did in between, and every write was taken; it fails only if a write failed, or the queue is empty and stayed so for too long or somebody asked to abort |
| `UploadSender.WaitStreamSend` | ECSUtil/ECSConnection.cpp:242-283 | The wait ends with an element in the queue, or fails with an empty queue after an abort or more waits in vain than allowed |
| `UploadSender.Feed` | ECSUtil/ECSConnection.cpp:1556-1642 | Each round of the loop loads, writes or removes and leaves less to do, or fails for such a cause |
| `UploadSender.OthersLeave` | ECSUtil/ECSConnection.cpp:1556-1642 | No step of another worker or of the pool changes what a sender has written, its place in the front entry, or the entries it has removed |
| `UploadSender.OrchestratorLeaves` | ECSUtil/FileSupport.cpp:650-727 | No step of the uploading thread, retries included, disturbs a request under way: it only appends to its queue |
| `UploadSteps.StepKeepsInv` | ECSUtil/FileSupport.cpp:526-792 | Every step of the uploading thread, of a worker or of the pool keeps the invariant of the whole system |
| `UploadTheorems.InitialInv` | ECSUtil/FileSupport.cpp:514-525 | The invariant holds when the upload has been initiated |
| `UploadTheorems.WireIsTheSlice` | ECSUtil/ECSConnection.cpp:1556-1642 | In every interleaving the bytes written by one attempt are a prefix of its slice of the file, and once the entry marked last is gone they are the whole slice, of the announced length |
| `UploadTheorems.AttemptFeedsTheSlice` | ECSUtil/FileSupport.cpp:564-596 | What one attempt queued is the file from the part's start, in order; exactly one entry is marked last once the part is fully fed, none before; the queue never exceeds its configured size |
| `UploadTheorems.NeverWaitsForNothing` | ECSUtil/FileSupport.cpp:526-641 | The uploading thread never enters its wait with an empty pending list, and live workers never exceed the maximum |
| `UploadProgress.NeverStuck` | ECSUtil/FileSupport.cpp:612-730 | Deadlock freedom: in every reachable waiting state the next pass finds a finished message or a part to refill, or a worker or the pool can make a step that changes something and is no failure, unless a request was sent again for authentication |
| `UploadProgress.SentAgainCanOnlyFail` | ECSUtil/ECSConnection.cpp:1583-1589 | Such a request finds its queue drained and its part fully read: of all steps on it only the failing return is left |
| `UploadProgress.StepKeepsPlain` | ECSUtil/FileSupport.cpp:526-792 | Every step keeps what progress rests on: workers in use and queued messages are compatible, a worker that ends is free, only reported messages have left the queue |
| `UploadExample.SentAgainWaits` | ECSUtil/ECSConnection.cpp:1719-1738 | A run to such a state, in which nothing can go on until the request gives up |
| `UploadSteps.SomethingIsPending` | ECSUtil/FileSupport.cpp:536-537 | When the cut-off stops the scan, more messages are queued than workers live, so one of them is still pending |
| `UploadTheorems.OnePendingMessagePerPart` | ECSUtil/FileSupport.cpp:538-555 | A part is in process and not complete exactly if one pending message is for it, and never two |
| `UploadTheorems.AttemptsAreBounded` | ECSUtil/FileSupport.cpp:663-676 | No run hands a part to the pool more than the number of retries plus one times |
| `UploadTheorems.PurgeUsesATry` | ECSUtil/FileSupport.cpp:655-690 | Each finished message strictly lowers the sum of the remaining tries of the unfinished parts |
| `UploadTheorems.PurgesAreBounded` | ECSUtil/FileSupport.cpp:655-690 | A whole run handles at most parts times (retries plus one) finished messages |
| `UploadTheorems.EndOfTheRun` | ECSUtil/FileSupport.cpp:733-761 | A successful end has exactly one completion, after all parts were accepted, and the accepted bodies in part order are the file; a failed end has exactly one abort, as its last call |
| `UploadExample.SuccessIsPossible` | ECSUtil/FileSupport.cpp:526-761 | There is a run from the initial state to a successful end, so the statements about runs are not empty |
| `UploadTheorems.PurgedMessagesAreHeld` | ECSUtil/FileSupport.cpp:641-692 | A message purged from the pending list while the pool still queues it is held by exactly one live worker, so there are never more of them than the maximum of threads |
| `FileStream.S3Write` | ECSUtil/FileSupport.cpp:224-287 | A complete pass of the producer loop has queued exactly the file, each entry at its offset, with only the final, empty entry marked last; an incomplete one has queued a prefix and marked nothing; it is incomplete only after a failed read or a request to abort |
| `FileStream.CalcUploadChecksum` | ECSUtil/FileSupport.cpp:168-219 | The hash covers exactly the slice, or the whole file when offset and length are 0, under every pattern of short reads; never anything beyond; it fails only after a failed read, a request to abort, or a read of nothing behind the end |
| `UploadChecksum.ChecksumIsOfTheSlice` | ECSUtil/FileSupport.cpp:559-603 | With checksums on, every request under way carries the hash of exactly its slice, although the first pass reads on beyond what it can queue |
| `UploadChecksum.StepHashes` | ECSUtil/FileSupport.cpp:559-603 | Every step of every thread keeps the relation between hashes and slices |
| `PartPlan.PlanUpload` | ECSUtil/FileSupport.cpp:461-500 | The planned parts tile the file without gap or overlap with numbers from 1, all but the last of full length; declined exactly for the three size reasons, the first of them in 32-bit arithmetic |
| `PartPlan.Cut` | ECSUtil/FileSupport.cpp:474-497 | The listing loop terminates with slices that tile the total, and with at least two exactly if the total exceeds a part |
| `PartPlan.NumberOfParts` | ECSUtil/FileSupport.cpp:464-497 | The number of parts is the total divided by the part length, rounded up |
| `PartPlan.PartCountLimit` | ECSUtil/FileSupport.cpp:464-469 | At most 1000 parts exactly unless the undivided length goes 1000 times into the total with a remainder; never more than 1001 |
| `PartPlan.Redivided` | ECSUtil/FileSupport.cpp:466-469 | Dividing by the enlarged part length gives the intended 999 back |
| `PartPlan.ThousandAndOneParts` | ECSUtil/FileSupport.cpp:464-469 | A total that is cut into 1001 parts |
| `PartPlan.PlanCopy` | ECSUtil/ECSConnection.cpp:3613-3630 | The copy tiles the object by 1 GB parts, and its inclusive byte ranges join without gap or overlap from the first to the last byte |
| `PoolTheorems.ExactlyOnePlace` | ECSUtil/ThreadPool.h:325-385 | In every reachable state an accepted message is waiting, processed or finished, in exactly one way, and processed exactly if one worker, and only one, holds it |
| `PoolTheorems.RunKeeps` | ECSUtil/ThreadPool.h:317-427 | Queue order, conservation, holding and grouping are kept by every run of sends, takes, finishes, thread starts and exits |
| `PoolTheorems.OrderIsStable` | ECSUtil/ThreadPool.h:882-909 | Two messages queued before and after any run stand in the same order |
| `PoolTheorems.TakeThenPutBack` | ECSUtil/ThreadPool.h:332-384 | A worker takes the most urgent waiting message; a failed one is back in its old place and the queue is as before |
| `PoolTheorems.InUseWorkersAreCompatible` | ECSUtil/ThreadPool.h:487-505 | Any two workers in use have the same grouping, below the "alone" base |
| `PoolTheorems.AddThreadsWithinLimit` | ECSUtil/ThreadPool.h:780-797 | Starting threads respects the maximum exactly if the configured minimum does: the unsigned difference overshoots otherwise |
| `PoolTheorems.ThreadsAreAdded` | ECSUtil/ThreadPool.h:778-797 | Below the maximum the minimum of threads is made up, and one more is started exactly if there are more messages than threads and the front message fits to all workers in use; at the maximum none is |
| `PoolTheorems.GrowsByNeed` | ECSUtil/ThreadPool.h:787-796 | A pool between its minimum and its maximum grows by one exactly if one more thread would help |
| `PoolExample.AllThreadsWork` | ECSUtil/ThreadPool.h:758-799 | For every maximum there is a run from an empty pool after which that many threads process a message each at the same time |
| `PoolTheorems.LiveThreadsNeverExceedLimit` | ECSUtil/ThreadPool.h:758-799 | With a minimum not above the maximum, or no threads allowed, no run ever has more live threads than the maximum |
| `PoolTheorems.LimitIsKeptExactly` | ECSUtil/ThreadPool.h:758-799 | All runs from an empty pool keep the maximum if and only if the minimum is not above it or it is 0; otherwise the first start of threads already exceeds it |
| `PoolTheorems.AllProcessingFitsThreads` | ECSUtil/ThreadPool.h:357-385 | If every queued message is being processed, there are no more of them than live threads |
| `PoolInvariants.TakeKeeps` | ECSUtil/ThreadPool.h:327-349 | The first critical section of a worker keeps the invariant |
| `PoolInvariants.FinishKeeps` | ECSUtil/ThreadPool.h:358-385 | The second critical section keeps the invariant for both results of the processing |
| `PoolState.InsertKeepsOrder` | ECSUtil/ThreadPool.h:896-908 | Insertion keeps non-increasing priority with equal priorities in arrival order |
| `PoolState.InsertPos` | ECSUtil/ThreadPool.h:896-908 | The place of a message: behind the last entry that is at least as urgent, before all less urgent ones |
| `PoolState.StartUpTo` | ECSUtil/ThreadPool.h:784-786 | Threads are started until exactly the minimum is active, and none when it is already |
| `ThreadPool.ThreadPool.IfInGroup` | ECSUtil/ThreadPool.h:487-505 | The loop over the workers decides compatibility with all workers in use |
| `ThreadPool.ThreadPool.GetNumThreads` | ECSUtil/ThreadPool.h:603-635 | The loop counts the active workers |
| `ThreadPool.ThreadPool.SendMessageToPool` | ECSUtil/ThreadPool.h:874-912 | The walk from the end of the list inserts as specified |
| `ThreadPool.ThreadPool.StartNewThread` | ECSUtil/ThreadPool.h:654-687 | A dead slot is reused before a new one is appended |
| `ThreadPool.ThreadPool.AddThreads` | ECSUtil/ThreadPool.h:758-799 | The locked part of AddThreads: between minimum and maximum it starts exactly one thread if one more would help, and none otherwise |
| `ThreadPool.ThreadPool.TakeMessage` | ECSUtil/ThreadPool.h:327-349 | The first critical section of DoWork: the first unprocessed entry is flagged and held, or nothing happens when it is not compatible |
| `ThreadPool.ThreadPool.FinishMessage` | ECSUtil/ThreadPool.h:358-385 | The second critical section of DoWork: the entry is erased, or waits again in place |
| `ThreadPool.ThreadPool.SetIdle` | ECSUtil/ThreadPool.h:258-263 | The worker is no longer in use |
| `ThreadPool.ThreadPool.KillIfTooMany` | ECSUtil/ThreadPool.h:388-394 | A worker leaves exactly when more threads are active than allowed |
| `ThreadPool.ThreadPool.ExitInstance` | ECSUtil/ThreadPool.h:430-441 | The slot of a leaving thread becomes free |
| `LockTheorems.MutualExclusion` | ECSUtil/CRWLock.cpp:119-191 | If each thread unlocks last-in-first-out: while some thread has a locked write acquire no other thread has a locked acquire |
| `LockTheorems.ReleasedOncePerOutermost` | ECSUtil/CRWLock.cpp:119-191 | Each thread's calls to the operating-system lock alternate between taking and giving back in the same mode, and it possesses the lock exactly while it has a locked acquire |
| `LockTheorems.NestedRequests` | ECSUtil/CRWLock.cpp:155-184 | A nested request is answered at once exactly if it is no upgrade, without touching the operating-system lock |
| `LockTheorems.UpgradeDeadlocks` | ECSUtil/CRWLock.cpp:173-177 | A pending upgrade of a thread that holds the lock can never be granted |
| `LockTheorems.OuterFirst` | ECSUtil/CRWLock.cpp:119-145 | Unlocking the outer of two nested acquires first leaves the operating-system lock sound exactly if both were taken in the same mode |
| `LockTheorems.StepKeeps` | ECSUtil/CRWLock.cpp:71-191 | Every create, request, grant, unlock and destroy keeps the invariant |
| `LockTheorems.AppendKeeps` | ECSUtil/CRWLock.cpp:71-90 | Entering an acquire into the instance list keeps the invariant of the lock: no holder, no mode and no call of the operating system changes |
| `RWLock.RWLock.Unlock` | ECSUtil/CRWLock.cpp:119-145 | Only the thread's last locked acquire releases the operating-system lock, in its own mode |
| `RWLock.RWLock.CountOtherLocks` | ECSUtil/CRWLock.cpp:126-132 | The scan finds another locked acquire of the thread if there is one |
| `RWLock.RWLock.ScanThread` | ECSUtil/CRWLock.cpp:155-169 | The scan finds whether the thread has the lock, and whether in write mode |
| `RWLock.RWLock.BeginLock` | ECSUtil/CRWLock.cpp:147-184 | Lock up to the call of the operating system: the acquire has the mode it asked for, and waits in that mode unless its thread already has the lock |
| `LockTheorems.RequestRemembersMode` | ECSUtil/CRWLock.cpp:147-188 | A request stores its mode, and waits for the operating system if its thread has no other lock |
| `LockTheorems.GrantableExactly` | ECSUtil/CRWLock.cpp:185-188 | In every reachable state a waiting reader can be let in if and only if no thread writes, a waiting writer if and only if no thread has the lock |
| `LockTheorems.GrantedInItsMode` | ECSUtil/CRWLock.cpp:185-190 | Who is let in possesses the lock in the mode it asked for |
| `LockExample.ManyReaders` | ECSUtil/CRWLock.cpp:185-188 | For every n there is a run after which n threads have the lock for reading at the same time |
| `LockTheorems.GrantKeeps` | ECSUtil/CRWLock.cpp:185-190 | When the operating system lets a waiting acquire in, its thread becomes a holder in the mode of the call, and the invariant of the lock is kept |
| `LockFlags.RunRefines` | ECSUtil/CRWLock.cpp:139-143 | With the flags set after and cleared before the calls of the operating system as steps of their own, every run does to the lock what a run without them does |
| `LockFlags.ScansSeeTheTruth` | ECSUtil/CRWLock.cpp:126-169 | The scans of a thread read flags, and find exactly what the thread possesses |
| `LockFlags.FlagsOverlapOnlyInPassing` | ECSUtil/CRWLock.cpp:119-191 | Exclusion holds over possession: of two threads with a flag set, one of them for writing, one has given the lock back |
| `LockFlags.FlagsOverlap` | ECSUtil/CRWLock.cpp:139-143 | A run in which the flags of two writers are set at the same time |
| `RWLock.RWLock.Unregister` | ECSUtil/CRWLock.cpp:92-117 | The destructor unlocks and leaves the list |
| `Buffer.CBuffer.Grow` | ECSUtil/cbuffer.cpp:52-129 | The handle ends as the only one of a block of the new size with the common prefix kept; the count protocol holds and every other handle keeps its block and its contents; a lock survives |
| `Buffer.CBuffer.Settle` | ECSUtil/cbuffer.cpp:63-95 | Whatever leaves a block taking its count along, or changes a block of its own, keeps all counts right and all other contents |
| `Buffer.CBuffer.Joined` | ECSUtil/cbuffer.cpp:206-211 | Raising the count on entering a block keeps all counts right and all contents |
| `Buffer.CBuffer.Assign` | ECSUtil/cbuffer.cpp:188-213 | Assignment ends with the source's contents, shared or copied; every other handle is unchanged; a locked target stays locked unless it becomes empty |
| `Buffer.CBuffer.Copy` | ECSUtil/cbuffer.cpp:235-251 | The copy constructor adds a handle with the source's contents to the world and changes nothing else |
| `Buffer.CBuffer.AppendBuffer` | ECSUtil/cbuffer.cpp:219-230 | Appending another buffer |
| `Buffer.CBuffer.Append` | ECSUtil/cbuffer.cpp:282-292 | Appending bytes, with every other handle unchanged |
| `Buffer.CBuffer.Load` | ECSUtil/cbuffer.cpp:266-276 | Loading bytes, with every other handle unchanged |
| `Buffer.CBuffer.SetAt` | ECSUtil/cbuffer.cpp:175-182 | One element is stored, the buffer grows if needed, all other elements and handles are unchanged |
| `Buffer.CBuffer.SetBufSize` | ECSUtil/cbuffer.cpp:163-166 | Resizing keeps the common prefix |
| `Buffer.CBuffer.GetData` | ECSUtil/cbuffer.h:139-145 | The writable pointer belongs to a block that nobody else refers to, with the contents unchanged |
| `Buffer.CBuffer.Empty` | ECSUtil/cbuffer.cpp:170-173 | Giving the block up leaves every other handle unchanged |
| `Buffer.CBuffer.FreeExtra` | ECSUtil/cbuffer.cpp:257-260 | Reallocation leaves the contents unchanged |
| `Buffer.CBuffer.Lock` | ECSUtil/cbuffer.cpp:135-143 | A non-empty buffer ends with a block of its own, marked as locked |
| `Buffer.CBuffer.Unlock` | ECSUtil/cbuffer.cpp:145-152 | The mark is removed, nothing else |
| `Buffer.CBuffer.Compare` | ECSUtil/cbuffer.cpp:302-312 | The comparison is the order of the contents in which sizes are compared first, as a signed 32-bit difference |
| `Buffer.EqualExactly` | ECSUtil/cbuffer.cpp:302-312 | Two buffers compare equal exactly if their contents are equal |
| `Buffer.LongerIsGreater` | ECSUtil/cbuffer.cpp:302-306 | The longer buffer is the greater one exactly if the sizes differ by less than 2 GB |
| `Buffer.Antisymmetric` | ECSUtil/cbuffer.cpp:302-312 | "Less" one way is "greater" the other way exactly unless the sizes differ by exactly 2 GB |
| `Buffer.TransitiveExactly` | ECSUtil/cbuffer.cpp:302-312 | For each size limit: the order of all buffers up to it is transitive if and only if the limit is below 2 GB |
| `Buffer.OrderCycles` | ECSUtil/cbuffer.cpp:302-306 | Above 2 GB it even has cycles: three sizes of which each is less than the next |
| `Buffer.MemcmpIsTotal` | ECSUtil/cbuffer.cpp:307-310 | The bytewise comparison is zero exactly for equal bytes, and changes its sign when swapped |
| `SharingTheorems.NoUseAfterFree` | ECSUtil/cbuffer.cpp:63-95 | With handles that belong to one thread at a time and share blocks across threads: in every interleaving no step reads, writes, counts or releases a block that has been released |
| `SharingTheorems.ReleasedExactlyOnce` | ECSUtil/cbuffer.cpp:63-95 | When no operation is under way exactly the blocks without a handle have been released, each by exactly one release of the run, and every other count is the number of handles or the lock mark with one handle |
| `SharingTheorems.InPlaceOnlyAlone` | ECSUtil/cbuffer.cpp:63-128 | A block is changed in place only while no other handle refers to it |
| `SharingTheorems.ValuesAreIndependent` | ECSUtil/cbuffer.cpp:188-213 | A handle that does not move keeps its value under any steps of all other handles and threads |
| `SharingTheorems.StepMeaning` | ECSUtil/cbuffer.cpp:63-95 | A bytewise copy interleaved with other threads ends with the whole old value; sharing, and copying from a locked block, end with the source's value; counting, releasing and locking do not change it |
| `SharingTheorems.StepKeeps` | ECSUtil/cbuffer.cpp:52-129 | Every single step of the count protocol, and handing a handle over to another thread, keeps the invariant |
| `SharingTheorems.LastLeaverFrees` | ECSUtil/cbuffer.cpp:76-81 | A decrement has to release the block if and only if no other handle of any thread still counts on it |
| `SharingExample.TheRaceHappens` | ECSUtil/cbuffer.cpp:63-95 | A run in which handles of two threads share a block, both see a count of 2 and copy at the same time, the second decrement reaches 0 and the block is released exactly once |
| `SharingTheorems.CountFrees` | ECSUtil/cbuffer.cpp:76-81 | Over any run a block is released at most once, and exactly if it ends released |
| `WakeUp.NoLostWakeUp` | ECSUtil/CSharedQueue.h:204-219 | A sender parked on a non-empty queue has its event set, although the event fires before the element is inserted |
| `WakeUp.SeenElementStays` | ECSUtil/ECSConnection.cpp:1583-1589 | The second test for an empty queue, which would fail the request, never finds one |
| `WakeUp.FirstInFirstOut` | ECSUtil/CSharedQueue.h:212-277 | Elements leave in the order of insertion, none lost and none twice |
| `WakeUp.BoundedLength` | ECSUtil/CSharedQueue.h:117-139 | With m producers a bounded queue exceeds its bound by at most m, and by one more per aborted wait |
| `WakeUp.BoundIsTight` | ECSUtil/CSharedQueue.h:212-219 | A single producer can fill a queue to its bound plus one |
| `WakeUp.StepKeeps` | ECSUtil/ECSConnection.cpp:242-283 | Every step of producers and sender keeps the invariant |
| `SharedQueue.QueueEvent.Link` | ECSUtil/CSharedQueue.cpp:96-111 | Both sides of a link are entered, and links stay symmetric |
| `SharedQueue.QueueEvent.UnlinkFrom` | ECSUtil/CSharedQueue.cpp:130-141 | One link is removed on both sides |
| `SharedQueue.QueueEvent.Unlink` | ECSUtil/CSharedQueue.cpp:118-129 | All links of the event are removed on both sides, and no queue loses another event |
| `SharedQueue.SharedQueue.TriggerEvent` | ECSUtil/CSharedQueue.cpp:23-34 | A linked event that is enabled and hears the trigger is set: always if it listens for all lengths, otherwise if the length is at most its count; every other event keeps its signal |
| `StreamQueue.Stream.Attach` | ECSUtil/ECSConnection.cpp:1543-1550 | Linking and setting up the sender's event is the link step of the wake-up protocol |
| `StreamQueue.Stream.PushBack` | ECSUtil/CSharedQueue.h:212-219 | A push on the queue object does exactly what the fire and insert steps do, and sets the sender's event |
| `StreamQueue.Stream.PopFront` | ECSUtil/CSharedQueue.h:266-271 | A pop does exactly the pop step, and the sender's own event does not hear it |
| `StreamQueue.Stream.ParkedIsWoken` | ECSUtil/ECSConnection.cpp:242-283 | In the code that sets the events: while the sender is parked and the queue is not empty its event is set |
| `SharedQueue.SharedQueue.PushBack` | ECSUtil/CSharedQueue.h:212-219 | The element goes to the end; every linked event that hears pushes reacts to the length before |
| `SharedQueue.SharedQueue.PopFront` | ECSUtil/CSharedQueue.h:266-271 | The front element goes out; every linked event that hears pops reacts to the length before |
| `SharedQueue.SharedQueue.Clear` | ECSUtil/CSharedQueue.h:193-198 | The queue is emptied; every linked event that hears this reacts to the length after |
| `Failover.Connection.SendRequest` | ECSUtil/ECSConnection.cpp:1115-1250 | For any outcomes of the attempts, readings of the clock and bad-address map: at least one attempt on a non-empty list and at most the distinct addresses times the retry count, their number as foreseen from these inputs; only the last attempt may have been answered and its address is not bad afterwards; only addresses without an answer are added, and only by an outcome without error; all addresses end up bad exactly when the inputs let every usable address be tried in vain and the last attempt of all reports no error; streams are never retried |
| `Failover.FalseSuccessesBlameAll` | ECSUtil/ECSConnection.cpp:1152-1213 | If every attempt reports no error without an answer, all addresses of the host are marked bad, from any state |
| `Failover.OnlyFalseSuccessBlamesAll` | ECSUtil/ECSConnection.cpp:1152-1250 | If no attempt does, they are not |
| `Failover.TwoSilentAddresses` | ECSUtil/ECSConnection.cpp:1160-1169 | Two addresses without a mark that both end up bad, with a request that reports success |
| `Failover.Connection.TryAddresses` | ECSUtil/ECSConnection.cpp:1139-1218 | The loop over the addresses terminates with an outcome that forbids another attempt, or with every address bad or used; the number of attempts, which of the two, and the final limits are those foreseen from the inputs |
| `Failover.Connection.TryAddress` | ECSUtil/ECSConnection.cpp:1150-1213 | The retries on one address: which outcomes end the request, which go to the next address |
| `Failover.VerdictMeans` | ECSUtil/ECSConnection.cpp:1152-1213 | What the verdict on an address says about its last attempt: success only with an answer 200, the next address only without an answer, after all retries or a timeout that nothing can relax, and never for a stream; a secure failure or an abort ends the request |
| `Failover.TimeoutsWearOff` | ECSUtil/ECSConnection.cpp:1180-1210 | Four timeouts bring the size of a write from its default to the least one and the wait to a minute, and then nothing is left to change |
| `Failover.SearchesGoRound` | ECSUtil/ECSConnection.cpp:1012-1017 | Successive searches begin at successive addresses, in a circle |
| `Failover.NextRound` | ECSUtil/ECSConnection.cpp:1139-1148 | Another address is tried exactly if more addresses are without a mark than have been tried |
| `Failover.Connection.GetNext` | ECSUtil/ECSConnection.cpp:987-1037 | The chosen address is the first usable one at or after the load-balancing start, in cyclic order; none is chosen exactly if all are bad or used |
| `Failover.Connection.Expire` | ECSUtil/ECSConnection.cpp:999-1009 | An entry stays exactly while it is not older than the age of bad addresses |
| `Failover.Connection.TestAllBad` | ECSUtil/ECSConnection.cpp:1042-1083 | The marks of a host are cleared exactly if all its addresses are marked |
| `Failover.Connection.LogBad` | ECSUtil/ECSConnection.cpp:1089-1109 | The failed addresses are marked with the current time |
| `Failover.Connection.Relax` | ECSUtil/ECSConnection.cpp:1180-1210 | What a timeout changes, and when nothing is left to change |
| `Failover.BlameDecides` | ECSUtil/ECSConnection.cpp:1160-1250 | All addresses end up bad exactly if the list is exhausted and the outcome is no error |
| `SessionTheorems.OneHolder` | ECSUtil/ECSConnection.cpp:4492-4556 | Until the 32-bit key counter comes round: an entry in use has exactly one holder whose pointer is valid, an idle one has none and is never marked |
| `SessionTheorems.KilledNeverReturns` | ECSUtil/ECSConnection.cpp:4564-4582 | No session that existed at a kill is ever handed out afterwards |
| `SessionTheorems.GivenBackIsReused` | ECSUtil/ECSConnection.cpp:4492-4556 | A session given back in order is handed to the next request for the same host and address within two minutes, and no other is created, unless one with a smaller key is idle |
| `SessionTheorems.CollectedAfterTwoMinutes` | ECSUtil/ECSConnection.cpp:4585-4605 | An idle session is collected exactly when it has been idle for more than two minutes, one in use never |
| `SessionTheorems.CreateIsExclusive` | ECSUtil/ECSConnection.cpp:4514-4523 | When the counter comes round the new holder is the only one exactly if the drawn key does not belong to a session in use |
| `SessionTheorems.DrawnKeyIsNew` | ECSUtil/ECSConnection.cpp:4514-4519 | Before that a drawn key is always new |
| `SessionTheorems.IdleNegativeKeyIsLost` | ECSUtil/ECSConnection.cpp:4498-4512 | A session with a negative key is not found again once it is idle |
| `SessionExample.TwoHoldersAfterTheWrap` | ECSUtil/ECSConnection.cpp:4516-4523 | A run from an empty cache in which the counter comes round and a second request gets the session that the first one uses |
| `SessionExample.LostAfterHalfTheRange` | ECSUtil/ECSConnection.cpp:4498-4523 | A run from an empty cache to an idle session with a negative key, which the next request for the same address does not find |
| `SessionTheorems.StepKeeps` | ECSUtil/ECSConnection.cpp:4492-4605 | Alloc, release, mark, kill and collect keep the invariant |
| `SessionCache.SessionCache.AllocSession` | ECSUtil/ECSConnection.cpp:4492-4523 | The walk along the map reuses the first idle entry from key 0 on, or creates one |
| `SessionCache.SessionCache.FindIdle` | ECSUtil/ECSConnection.cpp:4499-4512 | The walk finds the least reusable key if there is one |
| `SessionTheorems.ReleaseKeeps` | ECSUtil/ECSConnection.cpp:4533-4556 | Giving a session back keeps every other holder's pointer valid and exclusive, and leaves no marked entry idle |
| `SessionCache.SessionCache.KillHostSessions` | ECSUtil/ECSConnection.cpp:4564-4582 | Every idle entry is removed and every entry in use is marked |
| `SessionCache.SessionCache.GarbageCollect` | ECSUtil/ECSConnection.cpp:4585-4605 | Exactly the entries idle for too long are removed |
| `Throttle.OverdraftIsBounded` | ECSUtil/ECSConnection.cpp:1911-1938 | With m requests and blocks of at most c bytes the budget never falls below -m*c, and by c more per aborted request |
| `Throttle.WindowIsBounded` | ECSUtil/ECSConnection.cpp:299-333 | Between any two states of a run at most the budget at the beginning and the rounded-down allowances of the ticks are received, plus one block per request and per abort |
| `Throttle.RateIsBounded` | ECSUtil/ECSConnection.cpp:299-333 | From the start at most one full interval and the rounded-down allowances of the ticks are received, plus one block per request and per abort; so in time T at most rate * (1 + T) |
| `Throttle.GrantedIsTime` | ECSUtil/ECSConnection.cpp:305-319 | The rounded-down allowances never sum up to more than the rate times the time of the ticks |
| `Throttle.BurstIsBounded` | ECSUtil/ECSConnection.cpp:324-331 | Nothing is saved up: between two ticks at most the allowance of the first is received, plus one block per request and per abort |
| `Throttle.WaitingEnds` | ECSUtil/ECSConnection.cpp:316-331 | Once the timer alone has granted the deepest overdraft, every waiting request may go on |
| `Throttle.WaitingEndsInTime` | ECSUtil/ECSConnection.cpp:316-331 | In time: when the rate times the time of the ticks covers the deepest overdraft and one byte per tick, every waiting request may go on |
| `Throttle.AllowanceIsTheRate` | ECSUtil/ECSConnection.cpp:324-331 | A tick grants the rate times its time, less than one byte short |
| `Throttle.GrantedIsTheRate` | ECSUtil/ECSConnection.cpp:305-331 | The ticks of a run grant the rate times their time, less than one byte short for each |
| `Throttle.BusyHostGetsItsRate` | ECSUtil/ECSConnection.cpp:324-331 | A host that leaves nothing of its budget over receives exactly its budget and the allowances of all ticks |
| `Throttle.Budget.Refill` | ECSUtil/ECSConnection.cpp:324-331 | The timer refills an overdrawn budget and saves nothing up; when the rate times the time covers what was overdrawn, the budget is not negative any more |
| `Throttle.StepOverdraft` | ECSUtil/ECSConnection.cpp:1916-1938 | Charging, passing, aborting and refilling each keep the overdraft within one block for every request that waits and every one that was aborted |
| `RecursiveDelete.Deleter.Delete` | ECSUtil/ECSConnection.cpp:2261-2276 | A complete delete leaves nothing pending and sends exactly the keys that were given or discovered, in batches of 1 to 1000 keys without repetition; a folder's last request comes after those for everything any listing of it led to; and, also when the delete fails on the way, no request for a folder precedes the one for a key that all listings of the folder lead to; within one bucket it fails exactly if one of its listings fails or the server refuses a request |
| `RecursiveDelete.Deleter.DeleteInternal` | ECSUtil/ECSConnection.cpp:2278-2306 | Keys are collected contents first; errors of listing and sending end the recursion, with a prefix of the keys discovered and the order of the requests still kept |
| `RecursiveDelete.Deleter.Send` | ECSUtil/ECSConnection.cpp:2394-2500 | One request with the greatest pending keys; keys within one bucket are never rejected |
| `RecursiveDelete.Deleter.TakeBatch` | ECSUtil/ECSConnection.cpp:2426-2464 | The walk from the end takes at most 1000 keys in descending order and rejects a second bucket |
| `RecursiveDelete.Deleter.Push` | ECSUtil/ECSConnection.cpp:2301-2304 | The pending list never keeps more than 1000 keys |
| `DeleteHistory.AddBatch` | ECSUtil/ECSConnection.cpp:2421-2464 | Sending a batch from the top of the pending keys keeps over the whole history: a key is sent after it was discovered, no key while one beneath it is waiting, every discovery is pending or sent since |
| `DeleteOrder.OrderIsKept` | ECSUtil/ECSConnection.cpp:2278-2306 | In every batching: if a key beneath a folder is discovered before each discovery of the folder, it is sent before each request for the folder |
| `DeleteOrder.SentAfterWhatWasKnown` | ECSUtil/ECSConnection.cpp:2301-2304 | Each request for a folder comes after one for a key beneath it if and only if the key had been discovered by then |
| `DeleteOrder.DiscoveredAfter` | ECSUtil/ECSConnection.cpp:2283-2301 | The recursion discovers a folder after every key that all its listings lead to |
| `DeleteOrder.FoldersGoLast` | ECSUtil/ECSConnection.cpp:2261-2306 | For every tree of listings the last request for a folder comes after those for everything any listing of it led to |
| `DeleteOrder.ContentsGoFirst` | ECSUtil/ECSConnection.cpp:2278-2306 | At every stage of a delete, complete or failed, contents that all listings of a folder lead to have been sent before any request for the folder |
| `DeleteOrder.FolderBeforeItsNewFile` | ECSUtil/ECSConnection.cpp:2283-2304 | A list with a folder given twice whose second listing shows a new file: the folder is sent first |
| `DeleteOrder.WholeKeeps` | ECSUtil/ECSConnection.cpp:2266-2270 | A complete delete accounts for every discovered key, and has sent exactly those |
| `DeleteOrder.RequestsAreFew` | ECSUtil/ECSConnection.cpp:2301-2304 | Different keys are deleted with the number of keys divided by 1000, rounded up, requests |
| `DeleteHistory.AllSent` | ECSUtil/ECSConnection.cpp:2266-2270 | With nothing pending, what was sent is what was pushed |
| `DeleteHistory.BeneathTheFolder` | ECSUtil/ECSConnection.cpp:2283-2299 | Everything a listing leads to lies beneath its folder |
| `KeyOrder.ExtensionIsGreater` | ECSUtil/ECSConnection.h:259-274 | A key beneath a folder is greater than the folder's key |
| `KeyOrder.UniqueOfOrdered` | ECSUtil/ECSConnection.cpp:2422-2423 | Sorting and removing repetitions leaves every key once, in ascending order |
| `KeyOrder.LessIsTotal` | ECSUtil/ECSConnection.h:259-274 | The key order is total |
| `Canonical.CanonicalizedResource` | ECSUtil/ECSConnection.cpp:594-621 | The loops over the query string and the map compute the specified canonical resource |
| `Canonical.OrderDoesNotMatter` | ECSUtil/ECSConnection.cpp:513-528 | The canonical resource is independent of the order of the parameters exactly if no two different parameters share a signed name |
| `Canonical.NameIsPlain` | ECSUtil/ECSConnection.cpp:515-523 | Neither the case of a parameter name nor blanks around it matter, nor the value behind the equals sign |
| `Canonical.UnsignedDoesNotMatter` | ECSUtil/ECSConnection.cpp:513-528 | A parameter that is not signed can be added anywhere |
| `Canonical.CanonIsIdempotent` | ECSUtil/ECSConnection.cpp:594-621 | Canonicalizing twice is canonicalizing once, for every string |
| `Canonical.CanonOfList` | ECSUtil/ECSConnection.cpp:599-608 | A resource written from a list of parameters is read as that list |
| `Canonical.ResourceDetermines` | ECSUtil/ECSConnection.cpp:609-620 | Different signed parameters give different canonical resources |
| `Canonical.BuildIsFirst` | ECSUtil/ECSConnection.cpp:513-528 | Of several parameters with one signed name the first is kept |
| `Canonical.CheckQuery` | ECSUtil/ECSConnection.cpp:513-528 | A parameter is entered under its lower-case, trimmed name if that is signed and new |
| `Canonical.Tokenize` | ECSUtil/ECSConnection.cpp:602-608 | One call delivers the next token, or none at the end |
| `Canonical.TokensOfJoin` | ECSUtil/ECSConnection.cpp:602-620 | Tokenizing undoes joining |
| `Canonical.HeaderValue` | ECSUtil/ECSConnection.cpp:582-588 | The loop that removes double blanks terminates; the value has no double blank and no blank at its ends |
| `Canonical.CollapseKeepsOthers` | ECSUtil/ECSConnection.cpp:583-585 | Nothing but blanks is removed |
| `Canonical.CollapseIsClean` | ECSUtil/ECSConnection.cpp:583-585 | Collapsing leaves no double blank |
| `PercentCoding.RoundTrip` | ECSUtil/UriUtils.cpp:145-278 | Decoding undoes encoding for every byte string and every table |
| `PercentCoding.EncodingsAreCanonical` | ECSUtil/UriUtils.cpp:235-278 | A string is an encoding exactly if it consists of safe bytes and upper-case escapes of unsafe ones, and then of one string only |
| `PercentCoding.S3RoundTrip` | ECSUtil/UriUtils.cpp:317-331 | The S3 encoder can be undone exactly if every character fits into a byte |
| `PercentCoding.DecodeIsIdentity` | ECSUtil/UriUtils.cpp:145-183 | Decoding changes a string exactly if it contains a percent sign with two hexadecimal digits |
| `PercentCoding.UriEncode` | ECSUtil/UriUtils.cpp:235-278 | The buffer of three times the length suffices, and the loop computes the encoding |
| `PercentCoding.UriDecode` | ECSUtil/UriUtils.cpp:145-183 | The two loops compute the decoding, within a buffer of the source's length |
| `PercentCoding.UriEncodeS3` | ECSUtil/UriUtils.cpp:317-331 | The loop computes the S3 encoding |
| `PercentCoding.Encode` | ECSUtil/UriUtils.cpp:235-278 | The output is at least as long as the input and at most three times as long |

## Left out

* WinHTTP, Win32 files, real threads and events, certificates, proxies, hashes, base64, XML and logging: each
  call is an unknown result.
* The test dialog, `DETState`, `DETAction`, `DETBaseExImpl`, lifecycle and administration calls: status
  copying and input/output.
* `S3Read` (`ECSUtil/FileSupport.cpp:94`): its exit test can leave before the queue is drained, so nothing is
  claimed for that path.
* The early return of `DoProcess` (`ECSUtil/FileSupport.cpp:766-771`) for a pending list that is gone: it is
  reached only when the upload function has ended and its objects are being destroyed.
* `SearchMessageKill` and `Terminate` of the pool, which may erase an entry that is being processed;
  delayed messages and `TransferFutureQueue`; the interpolation of the maximum over a range of queue lengths
  and the idle timeout of 10 seconds (a worker may leave whenever it is idle); performance counters.
* The limit on queue length in `SendMessageToPool`: the uploader passes none.
* The destructor of the queue side of an event link, which erases from the set it iterates.
* The ceiling of 62 wait events in the uploader: its wait has a timeout, so an event that is left out only
  delays it.
* Authentication rounds of the stream sender are kept as a resend with an emptied queue; the parameters of
  the authentication are not. What ends the wait of such a request is the failing return.
* Locks: read-to-write upgrades are part of the model only to show that they block; other orders than
  last-in-first-out only in `LockTheorems.OuterFirst`. Fairness of the operating-system lock is unknown.
* Buffers: the 32-bit overflow exception of `Grow`, base64 loading, self-append, and the number of bytes that
  `FreeExtra` really frees. A count beyond 31 bits is not modelled.
* Sessions: the mark that a failed request sets without holding the lock is taken as one step.
* Failover: overlapping requests, the disconnect callback, and the propagation of a smaller write size to other
  connections.
* Throttle: changes of the rate during a run, 32-bit overflow of the budget, and stream uploads, whose last
  block leaves before it is charged. Time is the sum of what the ticks count; the first one counts a second.
* Recursive delete: version ids (entries are compared by key only) and the per-key errors of a response, which
  are one kind of failed request here. An empty key is not looked into.
* Canonical strings: which headers are covered, the HMAC and the encoding; lower case and blanks are those of
  ASCII.
* Exceptions of the uploading thread other than failed reads, requested aborts and server errors (memory,
  system objects).
- UploadLoops.DoS3MultiPartUpload: the number of wake-ups before an abort is a parameter, because the original waits as long as it takes.
- UploadSender.SendStream: the limit on waits in vain is a parameter; the original computes it from its timeouts. A write takes at least one byte.
- WakeUp.BoundedLength: the abort callback is a step that may happen whenever a producer polls.
- Buffer.CBuffer.SetBufSize: says nothing about the bytes beyond the old size; they are zero only after a reallocation, and a size that grows within the allocation shows what was there before.
