# A model of kls::io

kls::io is a thin asynchronous I/O layer for C++ coroutines. On Linux every operation becomes one io_uring
submission, tagged with the address of the await object that the caller's coroutine suspends on; one reaper thread
turns each completion into a wake-up. On Windows ("NTOS") an operation either fails at once or is completed by a
callback. On top sit partial-transfer loops for sockets, block files and TCP connection set-up.

This project models the parts with real logic and proves what they keep. `dafny verify dfyconfig.toml` checks all
of it.

| Files | Content |
|---|---|
| `IoStatus` | status codes, the packed `IOResult`, the errno translation, int32 narrowing |
| `OneShot` | the one-shot trigger, and the abstract future (submitted, completed, observed, each once) |
| `Ring`, `RingInvariant`, `RingTheorems` | the io_uring engine as a transition system, its invariant, its safety properties and its refinement of the future |
| `RingHistory` | what a run owes to its steps: the requests callers passed, the results the kernel gave, the resumptions |
| `Finite`, `RingProgress`, `RingJam` | progress when submits flush fully, and the full queue that never empties when they do not |
| `RingObjects` | the await object and the ring as classes, an abstraction relation to the engine's states, and the run that each operation performs |
| `NtosAwait`, `NtosTheorems`, `NtosProgress` | the same for the NTOS await: immediate and callback completion, safety, refinement and progress |
| `NtosHistory`, `NtosObjects` | what an NTOS run owes to its calls and callbacks, and the class `IOAwait` on the machine |
| `TcpUtil` | `read_fully` / `write_fully` as loops on arrays against any socket behaviour |
| `Delivery`, `DeliveryTheorems` | writers and readers interleaved over a bounded byte channel |
| `Windows`, `WindowsTheorems`, `Composition` | any number of concurrent calls over the abstract future, how each of them ends, and then over either engine |
| `OpenFlags`, `BlockFiles` | the two open-flag encodings and both file back ends over one model file system |
| `FdLedger` | who owns which file descriptor while connects, accepts and closes interleave |

## What is assumed

* The trigger (its class is external) is a one-shot cell: `trap` is refused exactly when the cell is already pulled,
  and `pull` on a trapped cell schedules that one handle.
* The kernel takes submission entries in order, completes each one exactly once, in any order, with any result. What
  it reads of a message header, it may read as late as the completion. `io_uring_submit` may flush any prefix of what
  is queued, since its return value is ignored; only `RingProgress` assumes that it flushes everything.
* Every await that is created is awaited. Only the lock holder submits: the spin lock gives mutual exclusion.
* A Windows completion callback is queued exactly when the overlapped call succeeds or reports that it is pending.
* A socket operation moves at most its window and what is available, possibly nothing, or fails with any status.
* open() follows the System Interfaces volume of POSIX.1-2017, plus the Linux rule that O_EXCL without O_CREAT is
  ignored for regular files. O_TRUNC without write access is undefined there, so every choice is allowed. CreateFileW
  refuses TRUNCATE_EXISTING without GENERIC_WRITE, and refuses any open of a file that is open already if either side
  has a right that the other does not share. ReadFile at or behind the end of a file fails with
  ERROR_HANDLE_EOF. Linux moves at most 0x7ffff000 bytes in one read or write.
* Handles are used linearly: a handle is closed at most once and not used after.
* The concurrent calls in `Windows` work on disjoint buffers.
* close() releases its descriptor even when it reports an error; it may then change errno.
* NTOS `map_error` takes code zero to IO_OK and every other code to some other status; any such table is allowed.

## Where the code and its intent differ

The model follows the code. In each case the exact condition is proved.

* `map_result` passes the negative completion result to `map_error`, whose cases are positive. Every failure reads as
  IO_UNKNOWN (or IO_EOF for -1), and the errno survives exactly when the table does not list it
  (`IoStatus.ErrnoSurvivesIffUnlisted`; `MapResultOfErrno` is the intended form and is used for nothing else).
* A Linux status await never yields IO_OK, not even for success (`IoStatus.StatusAwaitNeverOk`).
* The retry loop in `get_sqe` cannot help: only the lock holder's own submit frees slots. It returns exactly when its
  first try succeeds (`RingJam.GetSqeReturnsIffSlotFree`), and prefix flushes can bring the engine into a state where
  it never returns (`RingJam.JamIsReachable`).
* The reaper's stop test is for the positive ENXIO, which liburing does not return
  (`RingObjects.IoRing.WaitOne`).
* A failed connect throws the status of whatever errno the resuming thread holds. That is its completion's own status
  exactly when the two numbers are the same or neither is in the table (`FdLedger.Connect`, by
  `IoStatus.ReportedAlikeIff`); `FdLedger.RefusedConnect` is an input on which it is not.
* The result of `read_fully` and `write_fully` is right exactly below 2^31 bytes; at 2^31 a completed transfer reads
  as a failure (`TcpUtil.SuccessIffWholeBuffer`).
* The file back ends disagree on F_TRUNC without F_WRITE and on files that F_EXLOCK keeps from being shared
  (`OpenFlags.OpenAgreesIff`), on reads that start at the end of
  the file and on transfers above 0x7ffff000 bytes (`BlockFiles.ReadAgreesIff`, `BlockFiles.WriteAgreesIff`).

## Model

| member | source | states |
|---|---|---|
| IoStatus.ResultRoundTrip | Common/Published/kls/io/Status.h:106-119 | the accessors undo both constructors, for every enumerator and every count; success exactly for IO_OK with a non-negative count |
| IoStatus.MapErrorIsNeverOk | Linux5/Module/Error.cpp:29-95 | no system error number is translated to IO_OK |
| IoStatus.FailureNeverBecomesSuccess | Linux5/Module/Error.cpp:97-99 | success exactly on a non-negative result, count kept, every failure one of two statuses |
| IoStatus.ErrnoSurvivesIffUnlisted | Linux5/Module/Error.cpp:29-99 | a failure reports its errno exactly when the table has no entry for it |
| IoStatus.ReportedAlikeIff | Linux5/Module/Error.cpp:29-95 | no two entries of the table share a status: two numbers are reported alike exactly when equal or both unlisted |
| IoStatus.ErrnoRoundTrip | Linux5/Module/Error.cpp:29-95 | the table is a bijection between the listed errnos and the statuses named after them |
| IoStatus.StatusAwaitNeverOk | Linux5/Published/kls/io/Await.h:62-66 | no kernel result resumes a status await with IO_OK; a failure is IO_EOF at -1 and IO_UNKNOWN otherwise, never its own errno; a positive result is looked up as if it were an errno |
| IoStatus.NarrowingIsExactIff | Common/Module/TCPUtil.cpp:33 | the int32 cast of a size is that size exactly below 2^31, and always congruent to it modulo 2^32 |
| OneShot.TraceIsLawful | Linux5/Published/kls/io/Await.h:38-54 | every run of the abstract future submits, delivers and observes an operation at most once, in that order, and observes what was delivered |
| OneShot.ProgressIsKept | Linux5/Published/kls/io/Await.h:38-54 | a future never goes back to an earlier stage |
| RingInvariant.InvNext | Linux5/Module/Uring.h:79-104 | every step of submitters, kernel, reaper and coroutines keeps the engine's invariant |
| RingTheorems.ExactlyOnePlace | Linux5/Module/Uring.h:79-104 | in every reachable state an operation is in exactly one of: not queued yet, queued, in flight, completion pending, released; no queue holds it twice |
| RingTheorems.ResultsAreRouted | Linux5/Module/Uring.cpp:42-47 | whatever the completion order, a coroutine reads at most one result, that of its own operation, and the kernel served the caller's own arguments |
| RingTheorems.WokenExactlyOnce | Linux5/Published/kls/io/Await.h:43-49 | continuations granted plus taken are one exactly when both trap and pull have happened; none is granted before the result is in place |
| RingTheorems.ReaperWorksOnLiveAwait | Linux5/Module/Uring.cpp:44-45 | until it pulls, the reaper's user data is the address of the live, unreleased await of the completion's own operation |
| RingTheorems.ReaperTouchesNoOther | Linux5/Published/kls/io/Await.h:49 | the reaper changes no other await: none it has already pulled, none built later in the same storage |
| RingTheorems.SeenCommutes | Linux5/Module/Uring.cpp:44-47 | after the pull, marking the completion as seen commutes with every step, also with destroying the await and reusing its storage |
| RingTheorems.SubmissionIsDisciplined | Linux5/Module/Uring.h:79-104 | at most one thread is inside the lock; what a submit hands over carries its own tag and arguments; the queue never exceeds its depth |
| RingTheorems.HeaderOutlivesFlight | Linux5/Published/kls/io/Await.h:69-76 | a message in flight points at the unchanged header copy in its own live await, never at the submitter's stack |
| RingTheorems.StepRefines | Linux5/Published/kls/io/Await.h:38-67 | each step of the engine is one event of the abstract future, or none |
| RingTheorems.LinuxRunRefinesFuture | Linux5/Published/kls/io/Await.h:38-67 | every run of the engine is a lawful trace of the abstract future ending in the futures the engine's state shows |
| RingHistory.RequestsAreForwarded | Linux5/Module/Uring.h:79-104 | over every run: an operation constructed by a thread carries what that thread's last call passed; the kernel is handed, and serves, just those arguments, or the header copied into the await |
| RingHistory.EveryOperationWasCalled | Linux5/Module/Uring.h:79-104 | conversely, every operation the engine knows comes from a call |
| RingHistory.CompletionsAreTold | Linux5/Module/Uring.cpp:44-45 | an operation is recorded as completed with a result exactly if the kernel completed it with that result, which happens at most once |
| RingHistory.CallersGetTheKernelsResult | Linux5/Published/kls/io/Await.h:43-52 | a coroutine resumes at most once, only after a completion of its operation, and has read exactly the kernel's result |
| RingProgress.EachStepIsOneStepCloser | Linux5/Module/Uring.h:80-90 | every step but a new call or a spin lowers the work left by exactly one |
| RingProgress.FullRunsNeverSpin | Linux5/Module/Uring.cpp:37-40 | with full flushes the queue is empty whenever the lock is free and get_sqe never spins |
| RingProgress.SomethingMoves | Linux5/Module/Uring.cpp:37-49 | with full flushes some working step is possible until everything is done |
| RingProgress.EveryBatchDrains | Linux5/Module/Uring.cpp:37-49 | every batch from any number of threads drains: bounded runs, and a maximal one ends with empty queues and every coroutine resumed once with its own result |
| RingJam.JamIsForever | Linux5/Module/Uring.cpp:37-40 | a lock holder that finds the queue full stays in get_sqe in every continuation |
| RingJam.GetSqeReturnsIffSlotFree | Linux5/Module/Uring.cpp:37-40 | get_sqe under the lock can return exactly when a slot is free at its first try |
| RingJam.JamIsReachable | Linux5/Module/Uring.h:84-87 | with prefix flushes a reachable state exists from which get_sqe never returns |
| RingObjects.AwaitCore.constructor | Linux5/Published/kls/io/Await.h:69-75 | a new await has no result, an untouched trigger and a VecAwait its message |
| RingObjects.AwaitCore.AwaitSuspend | Linux5/Published/kls/io/Await.h:43-46 | suspends exactly when not pulled, registering the handle and nothing else |
| RingObjects.AwaitCore.Release | Linux5/Published/kls/io/Await.h:49 | result stored, trigger pulled, the trapped handle scheduled |
| RingObjects.AwaitCore.AwaitResume | Linux5/Published/kls/io/Await.h:62-66 | success and count exactly as the kernel's result; the two statuses of a failure |
| RingObjects.AwaitCore.AwaitResumeStatus | Linux5/Published/kls/io/Await.h:62-66 | the status await: never IO_OK, and a failure's own errno never survives |
| RingObjects.IoRing.GetSqe | Linux5/Module/Uring.cpp:37-40 | after any number of turns a slot was obtained exactly if one was free at the first, and the queue is otherwise unchanged |
| RingObjects.IoRing.Submit | Linux5/Module/Uring.h:87 | the kernel holds the flushed prefix, the queue the rest |
| RingObjects.IoRing.Start | Linux5/Module/Uring.h:79-104 | one call queues one entry with its own arguments and address and submits; on a full queue it stays inside with the lock |
| RingObjects.IoRing.WaitOne | Linux5/Module/Uring.cpp:42-49 | one turn releases exactly the tagged await and drops the completion; the stop test never fires for the numbers liburing returns |
| RingObjects.WaitOneIsARun | Linux5/Module/Uring.cpp:42-49 | an uninterrupted wait_one is a run of the engine with the effect of Release |
| RingObjects.StartIsARun | Linux5/Module/Uring.h:79-104 | an uninterrupted io_plain / io_message, from waiting for the lock to giving it back, is a run of the engine with the effect of Start |
| RingObjects.StartOnEngine | Linux5/Module/Uring.h:79-104 | on a ring that shows an engine state, the call leaves it showing the state that the whole call's run ends in, or the one stuck inside get_sqe |
| RingObjects.WaitOneOnEngine | Linux5/Module/Uring.cpp:42-49 | in every reachable state with a completion, the turn finds a live await and leaves the ring showing the end of a run that wakes exactly the returned handle |
| RingObjects.SuspendOnEngine | Linux5/Published/kls/io/Await.h:43-46 | the ring then shows the trap step, and false is returned exactly when that step lets the coroutine go on |
| RingObjects.ResumeOnEngine | Linux5/Published/kls/io/Await.h:62-66 | a coroutine that may go on gets what map_result makes of its own operation's completion |
| NtosTheorems.WsaoTellsWhoWrites | NTOS/Module/TCP.cpp:46-49 | pending is reported exactly when a callback is coming, otherwise the call's own error |
| NtosTheorems.InvNext | NTOS/Published/kls/io/Await.h:58-91 | every step of callers, callbacks and coroutines keeps the invariant |
| NtosTheorems.ExactlyOneWriter | NTOS/Published/kls/io/Await.h:62-73 | never two writes, one for each delivered result; a call that did not fail has its callback to come until it is delivered; a failed call has none and is delivered once constructed; await_ready exactly on the immediate path |
| NtosTheorems.WokenExactlyOnce | NTOS/Published/kls/io/Await.h:69-88 | no lost and no double wake-up on either path, and what is read is what was delivered |
| NtosTheorems.StepRefines | NTOS/Module/IOCP.h:34-36 | each step is one event of the same abstract future, or none |
| NtosTheorems.NtosRunRefinesFuture | NTOS/Published/kls/io/Await.h:58-89 | every run is a lawful trace of the same abstract future as on Linux |
| NtosHistory.CallersGetTheCallbacksValue | NTOS/Published/kls/io/Await.h:75-88 | over every run: what a callback brings, its code and its count, is what is delivered and read; nothing else is delivered for a call that did not fail; a failed call delivers its own code; at most one resumption |
| NtosHistory.EveryOperationWasIssued | NTOS/Published/kls/io/Await.h:62-67 | every operation the machine knows was issued, with just these arguments and this outcome |
| NtosObjects.ConstructOnMachine | NTOS/Published/kls/io/Await.h:62-67 | the new object looks as the machine's issue and settle steps leave it |
| NtosObjects.ReleaseOnMachine | NTOS/Module/IOCP.h:34-36 | the callback finds a live await, stores its code and count there, delivers them, and wakes the handle the machine wakes |
| NtosObjects.AskOnMachine | NTOS/Published/kls/io/Await.h:69 | ready exactly when the machine's coroutine goes on without suspending |
| NtosObjects.SuspendOnMachine | NTOS/Published/kls/io/Await.h:71-73 | the object shows the trap step, and false is returned exactly when that step lets the coroutine go on |
| NtosObjects.ResumeOnMachine | NTOS/Published/kls/io/Await.h:75-79 | a coroutine that may go on gets the delivered code and count |
| NtosProgress.EachStepIsOneStepCloser | NTOS/Published/kls/io/Await.h:62-88 | every step but a new call lowers the work left by exactly one |
| NtosProgress.SomethingMoves | NTOS/Published/kls/io/Await.h:62-88 | until every await is completed some step is possible |
| NtosProgress.EveryCallCompletes | NTOS/Published/kls/io/Await.h:62-88 | runs without new calls are bounded; one cannot be extended exactly when every await has been resumed once, with its own result |
| NtosTheorems.IOAwait.constructor | NTOS/Published/kls/io/Await.h:62-67 | an immediate failure is complete with its code, anything else waits for the callback |
| NtosTheorems.IOAwait.SetResult | NTOS/Published/kls/io/Await.h:88 | both result fields and nothing else |
| NtosTheorems.IOAwait.AwaitReady | NTOS/Published/kls/io/Await.h:69 | ready exactly after an immediate completion |
| NtosTheorems.IOAwait.AwaitSuspend | NTOS/Published/kls/io/Await.h:71-73 | suspends exactly when not pulled |
| NtosTheorems.IOAwait.Release | NTOS/Published/kls/io/Await.h:87 | result set, trigger pulled, the trapped handle scheduled |
| NtosTheorems.IOAwait.AwaitResume | NTOS/Published/kls/io/Await.h:75-79 | a non-zero code is reported as its status; success exactly for code zero and a count below 2^31, which is then the result |
| TcpUtil.ReadTurn | Common/Module/TCPUtil.cpp:30-35 | one awaited read extends the filled prefix, and its answer decides what the loop does next |
| TcpUtil.ReadFully | Common/Module/TCPUtil.cpp:26-37 | the filled part of the buffer is exactly the consumed stream prefix, the rest is untouched, for every socket behaviour |
| TcpUtil.WriteFully | Common/Module/TCPUtil.cpp:39-50 | exactly a prefix of the buffer has been sent, the buffer is untouched |
| TcpUtil.DriveFinishes | Common/Module/TCPUtil.cpp:29-36 | the loop ends after at most one operation per byte and one more, within its buffer and the supply |
| TcpUtil.DriveEndsFor | Common/Module/TCPUtil.cpp:29-36 | from any point of the loop: which operation ended it and what was returned |
| TcpUtil.OutcomeOfFully | Common/Module/TCPUtil.cpp:26-50 | full exactly when the whole buffer moved; own IO_EOF only after an operation that moved nothing; a failure returned unchanged |
| TcpUtil.SuccessIffWholeBuffer | Common/Module/TCPUtil.cpp:33 | success means the whole buffer, and its size is the result exactly below 2^31 |
| DeliveryTheorems.TurnIsLoopBody | Common/Module/TCPUtil.cpp:30-35 | an issue, its answer and the resumption are one turn of the loop body |
| DeliveryTheorems.StepKeeps | Common/Module/TCPUtil.cpp:26-50 | every step of either end keeps the channel a FIFO queue and lowers the work left |
| DeliveryTheorems.ChannelIsFifo | Common/Module/TCPUtil.cpp:26-50 | in every run, failures included, received bytes followed by those in the channel are those sent; runs are bounded |
| DeliveryTheorems.MaximalRunCompletesIff | Common/Module/TCPUtil.cpp:26-50 | a clean maximal run returns every call on both ends exactly when the reads ask for no more than is written and the rest fits the channel |
| DeliveryTheorems.EveryCallAccounts | Common/Module/TCPUtil.cpp:26-50 | in every run, failures included: each write has sent the front of its own buffer and each returned call either moved everything, with IO_OK, or less, with IO_EOF for an operation that moved nothing or a failed operation's result unchanged |
| DeliveryTheorems.EveryByteIsDelivered | Common/Module/TCPUtil.cpp:26-50 | equal totals, any capacity, any interleaving, any partial transfers: every call returns IO_OK with its narrowed size (a success below 2^31 bytes) and the read buffers are the written bytes |
| Windows.InvNext | Common/Module/TCPUtil.cpp:29-35 | every start, issue, answer and continuation keeps the calls apart |
| Windows.WindowsTile | Common/Module/TCPUtil.cpp:42-48 | one operation in flight per call, operations in flight never overlap, transferred ranges tile the front of each buffer in order |
| WindowsTheorems.OperationsGetTheRest | Common/Module/TCPUtil.cpp:27-35 | every operation of a call has the rest of the buffer that the call was started with, and just the answer it was given |
| WindowsTheorems.CallsEndRightly | Common/Module/TCPUtil.cpp:26-50 | a call over the engines keeps the buffer it was started with; its ranges, each moved by an answered operation, tile it up to where it stopped; IO_OK with the narrowed size exactly for the whole buffer, IO_EOF only after a zero answer, any other result an operation's answer unchanged |
| Composition.LinuxOperationsNeverOverlap | Linux5/Module/TCP.cpp:140-143 | over the io_uring engine: unreleased operations of concurrent calls never overlap in memory, in whatever queue they are, and the arguments in flight or served name just the ranges that the callers passed |
| Composition.LinuxLoopsSeeTheirResults | Linux5/Published/kls/io/Await.h:62-66 | what a loop acts on is map_result of what the kernel completed that very operation with |
| Composition.NtosOperationsNeverOverlap | NTOS/Module/TCP.cpp:247-266 | the same over the NTOS awaits, for undelivered operations and the arguments of their callbacks to come |
| Composition.NtosLoopsSeeTheirResults | NTOS/Published/kls/io/Await.h:75-79 | what a loop acts on is the code and count that the callback of that very operation brought, or the code of the failed call |
| OpenFlags.FlagConvMeans | Linux5/Module/Block.cpp:35-50 | refused exactly without read and write; otherwise every portable flag is in the open() word and only there |
| OpenFlags.AccessMeans | NTOS/Module/Block.cpp:46-54 | the access word carries exactly the portable read and write rights |
| OpenFlags.DispositionMeans | NTOS/Module/Block.cpp:56-80 | the switch covers every flag word and picks the disposition of its three creation flags |
| OpenFlags.ShareMeans | NTOS/Module/Block.cpp:82-84 | an open clashes with an open handle exactly when one of them is F_EXLOCK and the other has any right |
| OpenFlags.OpenAgreesIff | Linux5/Module/Block.cpp:35-50 | both encodings open alike, whatever is open already and under every choice POSIX leaves open, exactly when truncation comes with write access and no handle is in the way, or neither matters |
| OpenFlags.LinuxOpenMeans | Linux5/Module/Block.cpp:35-65 | by the portable flags alone: when open refuses, which rights the handle has, whether the file is kept or cut, and that no other file changes |
| OpenFlags.NtosOpenMeans | NTOS/Module/Block.cpp:46-113 | the same for the NTOS words, sharing conflicts included |
| OpenFlags.FlagsAgreeIff | NTOS/Module/Block.cpp:46-80 | the flag words on which both agree for all files that nobody has open |
| BlockFiles.SplitRoundTrip | NTOS/Module/Block.cpp:119-124 | splitting a 64-bit offset and rejoining it are inverse to each other |
| BlockFiles.SetOverlapped | NTOS/Module/Block.cpp:119-124 | both fields fit a DWORD and hold the offset |
| BlockFiles.ReadAgreesIff | NTOS/Module/Block.cpp:133-148 | both back ends read the same bytes exactly when the read is refused by both, empty, or starts before the end and moves no more than Linux moves at once |
| BlockFiles.WriteAgreesIff | NTOS/Module/Block.cpp:150-160 | both leave the same files and count exactly when the write is refused or no more than Linux moves at once |
| BlockFiles.LinuxReadIs | Linux5/Module/Block.cpp:74-76 | every read, portable or not: a failure, or just the bytes that one Linux read moves |
| BlockFiles.LinuxWriteIs | Linux5/Module/Block.cpp:78-80 | every write, portable or not: a failure, or just the bytes that one Linux write moves, and their count |
| BlockFiles.NtosRunIsFlat | NTOS/Module/Block.cpp:119-160 | every run with split offsets, narrowed counts and callback codes is the run of a flat file with direct 64-bit offsets |
| BlockFiles.StepAgreesIff | Linux5/Module/Block.cpp:58-88 | one command has the same effect and reply exactly when it is portable |
| BlockFiles.BackendsAgreeIff | Linux5/Module/Block.cpp:58-88 | whole runs, F_EXLOCK included, agree in every state and reply exactly when each command is portable where it is issued |
| BlockFiles.OpenDoes | Linux5/Module/Block.cpp:58-65 | a portable open adds a handle with the rights asked for, on the file as it was or cut, or changes nothing |
| BlockFiles.CloseDoes | Linux5/Module/Block.cpp:86-88 | a close takes exactly its own handle out of use |
| BlockFiles.WriteDoes | Linux5/Module/Block.cpp:78-80 | a portable write changes just the handle's file and there just its bytes; a refused one changes nothing |
| BlockFiles.ReadDoes | Linux5/Module/Block.cpp:74-76 | a portable read returns just the bytes of the handle's file from its offset on, and changes nothing |
| BlockFiles.SpliceAt | Linux5/Module/Block.cpp:78-80 | what a write leaves at every position: data, zeros in a gap, the old bytes |
| BlockFiles.ReadBack | Tests/Block.cpp:48 | on either back end a read of any size returns what any handle wrote at that offset, cut off or followed by what the file has behind it |
| BlockFiles.FileEcho | Tests/Block.cpp:37-51 | the test's run, for any data, file and read size, is the same on both back ends; a longer read returns just the data exactly if the file was no longer before |
| FdLedger.LedgerBalances | Linux5/Module/TCP.cpp:61-136 | in every run each open descriptor has exactly one owner and no close hits another's |
| FdLedger.StepIgnores | Linux5/Module/TCP.cpp:86-96 | a step of anybody else does not see a suspended owner's descriptor |
| FdLedger.RunIgnores | Linux5/Module/TCP.cpp:86-96 | nor does a whole run |
| FdLedger.FailedConnectLeavesNoTrace | Linux5/Module/TCP.cpp:86-108 | a connect that fails after any interleaved run leaves the ledger as if it had never been |
| FdLedger.FailedAcceptorLeavesNoTrace | Linux5/Module/TCP.cpp:110-136 | nor does an acceptor whose set-up fails |
| FdLedger.ConnectHandsOver | Linux5/Module/TCP.cpp:86-108 | a connect that succeeds after any interleaved run leaves the ledger as without it, but that its handle owns its own open descriptor |
| FdLedger.AcceptorHandsOver | Linux5/Module/TCP.cpp:110-136 | the same for an acceptor whose set-up succeeds |
| FdLedger.AcceptHandsOver | Linux5/Module/TCP.cpp:61-79 | the same for an accept, from the kernel's completion to the coroutine's handle |
| FdLedger.AcceptOwnsNothing | Linux5/Module/TCP.cpp:61-66 | an accept that is issued, or fails, has and takes no descriptor |
| FdLedger.CloseTakesItsOwn | Linux5/Module/TCP.cpp:169-172 | closing a socket or an acceptor, whatever goes on meanwhile, removes exactly its own descriptor |
| FdLedger.ConnectionLeavesNoTrace | Linux5/Module/TCP.cpp:86-172 | a connection's whole life, interleaved with anything, leaves the ledger as if it had never been |
| FdLedger.ConnectOnLedger | Linux5/Module/TCP.cpp:86-108 | the code performs the ledger's connect steps on the kernel's table, or nothing |
| FdLedger.MakeAcceptorOnLedger | Linux5/Module/TCP.cpp:110-136 | the code performs the ledger's acceptor steps on the kernel's table, or nothing |
| FdLedger.MakeAcceptor | Linux5/Module/TCP.cpp:110-136 | a handle exactly if all four calls succeed; otherwise the open set is restored, and the status is that of the first failure, or of a failing close |
| FdLedger.Connect | Linux5/Module/TCP.cpp:86-108 | a handle exactly if both steps succeed; otherwise the open set is restored and the resuming thread's errno reported, which is the completion's own status exactly when both numbers are the same or unlisted |
| FdLedger.RefusedConnect | Linux5/Module/TCP.cpp:91-95 | an input on which the status thrown is not the completion's |

## Left out

- The entries of the NTOS error-code table: which status a non-zero code gets is a finite lookup, so the table is a parameter (`IoStatus.ErrorTable`).
- RingTheorems.SubmissionIsDisciplined: the queue is one sequence; liburing's head and tail indices, barriers and C++ memory ordering are not modelled.
- RingTheorems.HeaderOutlivesFlight: covers the message header copied into the await, not the caller's iovec array it points to, which the caller must keep.
- Composition.LinuxOperationsNeverOverlap: which range a submission's arguments name is a parameter; pointers and lengths are not modelled as such.
- Windows.WindowsTile: supposes disjoint buffers; the library does not check that.
- BlockFiles.BackendsAgreeIff: commands run one after another; a close's status is not compared, as the Linux one is never IO_OK; directories, path conversion, file modes, a full disk, maximum file sizes and sync are not modelled.
- BlockFiles.SetOverlapped: mask and shift are written as remainder and quotient by 2^32. The all-ones offset, which the systems give special meanings, is not a file offset here.
- FdLedger.LedgerBalances: a handle that is dropped without close, or closed twice, is the caller's; suspended accepts on a closed acceptor simply fail or complete.
- RingObjects.IoRing.WaitOne: the shutdown of the ring and static destruction are not modelled; all runs are over a live ring.
- The NTOS socket ledger: its acceptor has no closing destructor and closing disconnects, so the Linux ledger does not carry over.
- liburing truncates a socket operation's length to 32 bits; `TcpUtil` covers this as one of the behaviours a socket may show.
- The synchronous NTOS `Await`, WSA set-up and extension functions, addresses and sockaddr conversions, status messages: forwarding, lookups or short conversions.
