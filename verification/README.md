# Verified models of esynet

esynet is a reactor library for Linux: an event loop with timers and pollers,
TCP connections on top of it, and two logger back ends. This project models the
parts of it that hold state and proves what they keep, for every input, every
run and, where two threads meet, every interleaving. `dafny verify
dfyconfig.toml` checks all of it.

Most components come in two layers. A value layer states what an operation
means (a transition system, a byte sequence, a map from descriptors to masks)
and carries the theorems over whole runs. A class layer has the program's own
fields, pointers, arrays and loops, and each method is proved to be the step,
or the run of steps, of the value layer that it implements.

| component | value layer | class layer |
|---|---|---|
| log files, rotation | `LogFiles` | `SyncLogging` |
| AsyncLogger | `AsyncProtocol`, `AsyncInvariant`, `AsyncOrder`, `AsyncTheorems`, `AsyncRuns`, `AsyncCalls`, `AsyncTurn`, `AsyncProgress`, `AsyncStop` | `AsyncLogging` |
| Looper | `LooperProtocol`, `LooperTheorems` | `Loopers` |
| TimerQueue | `TimerSpec`, `TimerTheorems` | `TimerQueues` |
| Event, PollPoller, EpollPoller | `Events` (masks, registry), `PollersAgree` | `Events`, `PollPollers`, `EpollPollers` |
| Buffer | `Buffers` (operations on strings) | `Buffers` |
| TcpConnection | `TcpProtocol`, `TcpTheorems` | `TcpConnections` |
| Connector | `ConnectorProtocol`, `ConnectorTheorems` | `Connectors` |

System calls are parameters: what `write`, `connect`, `poll` and `epoll_wait`
answer, what the clock says, and the name a rotation takes from the clock. A
region that holds a mutex is one step; what a thread does without the mutex is
split into its separate accesses.

Several things the code seems to promise do not hold of it. Each is stated with
the exact condition under which it does:

- the asynchronous log is in the order of acceptance exactly when no message was
  ever written while an older one waited in another buffer (`FilesOrderIff` for
  every reachable state, `FinishedLogOrderIff` after stop). Two runs show that it
  can be lost (`OrderCanBeLost`) and that a buffer that overtakes another need
  not lose it (`OrderCanBeRestored`);
- a rotation keeps every file only if its target name and `log.log` are unused
  (`RotationKeepsFilesIff`); two rotations within a second lose a file
  (`SecondRotationLosesFirstFile`);
- two timers with the same expiration break the agreement of the two maps,
  whether the second is added (`AddTimer`) or restarted (`Settle`); calls on a
  new queue that do so: `AddOntoTakenTime`, `RestartOntoTakenTime`;
- the epoll scratch area holds only up to 16 registered events (`SplitHoldsIff`);
  17 of them that are all ready overwrite the registry (`SeventeenReady`);
- enabling an event that was disabled after its cancel has no effect
  (`EnableTakesEffectIff`);
- a send after a drain and before the next report of the poller strands its
  bytes, because `Event::writable` reads the last report and not the interest
  mask (`SendStrandsIff`, and a run that does it: `SendCanStrand`);
- `shutdown` cuts the backlog off when no write report is outstanding, and
  never shuts the write side when one is (`ShutdownLosesBacklogIff`,
  `DeferredShutdownNeverComes`, and a run that loses bytes: `ShutdownCanLose`);
- a hang-up closes the socket but leaves the connection in its state, so that a
  connected one goes on accepting bytes nobody sends (`HangUpEnds`);
- `Connector::stop` does not stop the retries (`StopsAreIdle`), and an attempt
  that ends in an error report alone leaves its event with the poller
  (`EventDanglesIff`).

## Model

| member | source | states |
|---|---|---|
| LogFiles.RecordedHolds | logger/SyncLogger.cpp:28-36 | one record keeps every file at one leading header followed by whole messages in order, a file finished only above the limit and none larger than twice it |
| LogFiles.RotationKeepsFilesIff | logger/AsyncLogger.cpp:105-109 | a rotation loses no file exactly when the target name and log.log belong to no other file |
| LogFiles.SecondRotationLosesFirstFile | logger/SyncLogger.cpp:30-36 | from a new logger: two single messages of exactly the maximum size each fill a file, and when both rotations take the same name the first file is gone |
| LogFiles.RotationPreservesLog | logger/SyncLogger.cpp:21-37 | over any calls the file bodies, in rotation order, are exactly the messages that are not oversized, and every finished file has more than 100 and at most 200 MiB |
| LogFiles.EnteredMessages | logger/SyncLogger.cpp:30-36 | moving to a new file neither drops nor repeats a message of the history |
| LogFiles.FreshLogHolds | utils/FileUtil.h:34-42 | a logger opened on an empty or missing file starts with an empty history |
| LogFiles.OpeningKeepsFiles | utils/FileUtil.h:34-42 | opening keeps the text of every file, the log file's too, counts its size, and creates at most the log file, empty |
| LogFiles.AppendingExtends | utils/FileUtil.h:44-48 | an append, opening first if need be, puts the data behind the text of the log file and touches no other |
| LogFiles.FirstRecordHasHeader | logger/SyncLogger.cpp:28-36 | in an empty file the first message comes behind exactly the header line |
| SyncLogging.FileWriter.Open | utils/FileUtil.h:34-42 | opening creates the file if needed and takes its size; a second open changes nothing |
| SyncLogging.FileWriter.Append | utils/FileUtil.h:44-48 | the file grows by the data and the counted size stays the file's size |
| SyncLogging.FileWriter.Rename | utils/FileUtil.h:29-32 | the contents move to the target, replacing what it held, only if the file was open |
| SyncLogging.SyncLogger.Append | logger/SyncLogger.cpp:21-37 | the files become those of the history function; an oversized message changes nothing |
| AsyncLogging.LogBuffer.Append | utils/Buffer.h:42-48 | the text up to the first zero byte is copied whole if strictly less than the room left, otherwise nothing is |
| AsyncLogging.LogBuffer.Reset | utils/Buffer.h:58 | the buffer stands for no message |
| AsyncLogging.StrLen | utils/Buffer.h:43 | the length up to the first zero byte |
| AsyncLogging.AsyncLogger.constructor | logger/AsyncLogger.cpp:11-18 | two empty buffers with one owner each, not running, the file not open |
| AsyncLogging.AsyncLogger.Start | logger/AsyncLogger.cpp:27-32 | the object after start is the start state of the protocol |
| AsyncLogging.AsyncLogger.Submit | logger/AsyncLogger.cpp:54-60 | the unlocked part of append lets exactly the data through that fits a buffer while the logger runs |
| AsyncLogging.AsyncLogger.Append | logger/AsyncLogger.cpp:62-77 | the locked part of append, on the buffers behind the pointers, is the protocol's step, and leaves every buffer with one owner |
| AsyncLogging.AsyncLogger.Spill | logger/AsyncLogger.cpp:68-71 | the log buffer moves to the extra queue and a new one takes its place |
| AsyncLogging.AsyncLogger.Take | logger/AsyncLogger.cpp:89-94 | the locked part of the writer after its wait, exchanging and moving pointers, is the protocol's step, about which EveryTurnWrites speaks |
| AsyncLogging.AsyncLogger.WriteOut | logger/AsyncLogger.cpp:102-111 | the bytes of one buffer reach the files under the header and rotation rule, as the recording step of the protocol |
| AsyncLogging.AsyncLogger.FlushWriteBuffer | logger/AsyncLogger.cpp:115-119 | writing and resetting the write buffer in place is one run of the separate protocol steps |
| AsyncLogging.AsyncLogger.FlushQueue | logger/AsyncLogger.cpp:120-123 | the loop writes, resets and pops every queued buffer, first to last |
| AsyncLogging.AsyncLogger.DrainBuffers | logger/AsyncLogger.cpp:41-46 | the moves of stop out of both pointers are two protocol steps, tied to the protocol by BuffersDrainedIsRun |
| AsyncLogging.AsyncLogger.DrainQueue | logger/AsyncLogger.cpp:47-50 | the loop moves every pointer of the extra queue, in order |
| AsyncInvariant.NextKeeps | logger/AsyncLogger.cpp:34-124 | every step of appenders, writer and stop keeps control, capacity, file and accounting invariants |
| AsyncInvariant.RunKeeps | logger/AsyncLogger.cpp:34-124 | so does every interleaving |
| AsyncInvariant.AppendKeeps | logger/AsyncLogger.cpp:62-77 | an append at any point of the writer keeps the invariant |
| AsyncInvariant.ConsumeKeeps | logger/AsyncLogger.cpp:80-124 | every single access of the flushing thread keeps the invariant |
| AsyncInvariant.MoveLog | logger/AsyncLogger.cpp:66-70 | moving the log buffer in front of other buffers keeps each message once and puts newer before older exactly when both are non-empty |
| AsyncOrder.RecordOrder | logger/AsyncLogger.cpp:111 | a block extends the files in order exactly when they were in order and no older message waits outside it |
| AsyncOrder.NextOrder | logger/AsyncLogger.cpp:34-124 | every step of any thread keeps: the files are in order exactly as long as nothing jumped |
| AsyncTheorems.AcceptedIff | logger/AsyncLogger.cpp:62-77 | for any data: what is accepted is the text up to the first zero byte, exactly when it is non-empty and smaller than the room that append finds or makes |
| AsyncTheorems.AcceptedWholeIff | logger/AsyncLogger.cpp:62-77 | without zero bytes: accepted whole exactly when non-empty, smaller than a buffer, and there is or can be made room |
| AsyncTheorems.CStringIs | utils/Buffer.h:42-48 | what a buffer copies is the longest beginning of the data without a zero byte |
| AsyncCalls.AppendMovesBuffers | logger/AsyncLogger.cpp:62-76 | no buffer moves while the data fits behind the log buffer of 4 MiB; otherwise it becomes the write buffer if that is empty and not being written, else an extra buffer while there are fewer than 64 |
| AsyncCalls.CallsAreConserved | logger/AsyncLogger.cpp:54-62 | over every run: the calls made while the logger runs, with at most 4 MiB of data, are exactly those that take the mutex, once each, and those still on their way |
| AsyncTheorems.Conservation | logger/AsyncLogger.cpp:34-124 | in every reachable state each accepted message is in exactly one of files, write buffer, queue, extras, log buffer |
| AsyncTheorems.StopFlushesEverything | logger/AsyncLogger.cpp:34-52 | after stop, with no append as late as its drain, the files hold every accepted message |
| AsyncTheorems.StoppedLosesExactlyTheBuffers | logger/AsyncLogger.cpp:34-52 | after any stop the files are complete exactly when late appends left nothing in the buffers |
| AsyncTheorems.WriteBufferExclusion | logger/AsyncLogger.cpp:102-119 | from the unlocked emptiness test to the reset no append changes the write buffer, and the reset drops only what is written |
| AsyncTheorems.FilesOrderIff | logger/AsyncLogger.cpp:34-124 | in every reachable state, during and after stop too, the files are a prefix of the accepted messages in order exactly when no message was written while an older one waited in another buffer |
| AsyncTheorems.FinishedLogOrderIff | logger/AsyncLogger.cpp:34-52 | after stop, with no late append, the files are the accepted messages in order exactly under that condition |
| AsyncTheorems.OrderIffNoOvertaking | logger/AsyncLogger.cpp:62-97 | until stop drains, files and buffers together are in the order of acceptance exactly when no buffer overtook another |
| AsyncTheorems.DrainOrderIff | logger/AsyncLogger.cpp:41-50 | stop itself keeps the order exactly when it does not queue a non-empty write buffer behind non-empty extras |
| AsyncTheorems.OrderWithoutExtras | logger/AsyncLogger.cpp:40-97 | in every run that never uses the extra queue, files, write buffer and log buffer are the accepted messages in order, and after stop the files are |
| AsyncTheorems.WriteFlushedIsRun | logger/AsyncLogger.cpp:115-119 | flush on the write buffer, uninterrupted, is a run of the protocol's single accesses |
| AsyncTheorems.QueueFlushedIsRun | logger/AsyncLogger.cpp:120-123 | flush on the queue, uninterrupted, is a run of the protocol's single accesses |
| AsyncTheorems.BuffersDrainedIsRun | logger/AsyncLogger.cpp:41-46 | the moves of stop, uninterrupted, are a run of the protocol's single steps |
| AsyncStop.StopReturns | logger/AsyncLogger.cpp:34-124 | once running is off the flushing thread has at most Left(s) accesses to go: every run that gives it so many ends stopped, however late appends fall between them |
| AsyncStop.StopEnds | logger/AsyncLogger.cpp:34-124 | a stop at any point of any run turns the logger off, and ends after at most Left(s) accesses |
| AsyncRuns.OrderCanBeLost | logger/AsyncLogger.cpp:66-123 | a run to the end of stop whose files hold the messages 0, 2, 1 |
| AsyncRuns.OrderCanBeRestored | logger/AsyncLogger.cpp:40-123 | a run to the end of stop in which a buffer overtook another and the files are in order |
| AsyncTurn.WaitsIff | logger/AsyncLogger.cpp:85-88 | the writer waits exactly when both the extra queue and the write buffer are empty |
| AsyncProgress.EveryTurnWrites | logger/AsyncLogger.cpp:80-124 | in every run from the test, region or wait of the writer to its test again, appends in between or not, the write buffer and the extra buffers reach the files, and the log buffer too if the write buffer was empty |
| AsyncProgress.EverythingIsWritten | logger/AsyncLogger.cpp:54-124 | while nobody calls stop, every accepted message is in the files once the writer has made 411 more accesses, whatever the other threads do |
| LooperProtocol.NextAwake | net/base/Looper.cpp:81-153 | every step of either thread keeps: blocked with the eventfd at 0, each task of run() and each unseen stop call itself still owes its eventfd write |
| LooperProtocol.NextFifo | net/base/Looper.cpp:99-146 | every step keeps executed, batch and queue equal to the pushes in order |
| LooperProtocol.RunKeeps | net/base/Looper.cpp:81-153 | both hold over every interleaving |
| LooperTheorems.NoLostWakeup | net/base/Looper.cpp:81-153 | blocked with the eventfd at 0, no task of a returned run is waiting and no stop call since start that has returned is unseen, whatever other stop calls are on their way |
| LooperTheorems.UnseenUntil | net/base/Looper.cpp:84-113 | what unseen means: over every run without a restart a stop call is unseen exactly until the loop has come to its test and returned |
| LooperTheorems.FifoExactlyOnce | net/base/Looper.cpp:100-146 | tasks run in push order, once each, in the batch right after the push |
| LooperTheorems.OneBatchPerReturn | net/base/Looper.cpp:87-109 | every return from poll is followed by exactly one batch |
| LooperTheorems.NothingLeftBehind | net/base/Looper.cpp:87-109 | whatever woke it, the loop does not block again before it ran everything that was queued |
| LooperTheorems.StopEndsLoop | net/base/Looper.cpp:87-113 | once stop is set outside poll, the loop never blocks again without a restart |
| LooperTheorems.StopSeenAfterReturn | net/base/Looper.cpp:87-113 | a stop that came during poll takes effect at the next return |
| LooperTheorems.GoesOn | net/base/Looper.cpp:87-109 | in every run without a stop the loop never returns, whatever is queued, run or woken |
| LooperTheorems.StopStops | net/base/Looper.cpp:87-113 | a stop of either kind is recorded as unseen, keeps the flag up and, from the next return from poll on, the loop from blocking |
| LooperTheorems.EveryPushCounts | net/base/Looper.cpp:133-146 | over every run each run from another thread and each queue pushes one task |
| LooperTheorems.EventfdCounts | net/base/Looper.cpp:62-153 | over every run the eventfd holds exactly the writes of run and stop since it was last read |
| LooperTheorems.WakeupIsEnough | net/base/Looper.cpp:62-109 | one written eventfd lets the loop run everything queued, and then block again with the eventfd read, or return if it was stopped |
| LooperTheorems.QueueDoesNotWake | net/base/Looper.cpp:141-146 | a run in which queue alone leaves the loop blocked with a task waiting |
| LooperTheorems.EarlyStopIsForgotten | net/base/Looper.cpp:84-113 | a run in which a stop that returned before start is forgotten |
| Loopers.AllRunRuns | net/base/Looper.cpp:106-108 | a batch runs exactly the tasks it took, in order, whatever they push |
| Loopers.AllRunIsRun | net/base/Looper.cpp:106-108 | running a batch, pushes of its tasks included, is a run of the protocol |
| Loopers.Looper.RunPush | net/base/Looper.cpp:133-146 | the push of a cross-thread run is the protocol's step |
| Loopers.Looper.RunWake | net/base/Looper.cpp:138-153 | its eventfd write is the protocol's step |
| Loopers.Looper.Stop | net/base/Looper.cpp:113 | stop in the loop thread sets the flag and writes the eventfd |
| Loopers.Looper.StopSet | net/base/Looper.cpp:113 | stop in another thread, up to its eventfd write, is the protocol's step |
| Loopers.Looper.StopWake | net/base/Looper.cpp:113 | its eventfd write is the protocol's step for that call |
| Loopers.Looper.Start | net/base/Looper.cpp:81-85 | the entry of start, which clears the flag, is the protocol's step |
| Loopers.Looper.Test | net/base/Looper.cpp:87 | the loop goes on to poll exactly when the flag is off, as the protocol's step |
| Loopers.Looper.ReadCallback | net/base/Looper.cpp:62-68 | reading the eventfd empties it |
| Loopers.Looper.TakeTasks | net/base/Looper.cpp:101-105 | the swap takes the whole queue as the batch |
| Loopers.Looper.CallAll | net/base/Looper.cpp:106-108 | the loop calls the functions of the batch in order, each once, and what they queue joins the queue in order |
| Loopers.Looper.RunTasks | net/base/Looper.cpp:100-109 | that loop and the way back to the test are a run of the protocol, which executes exactly the batch |
| TimerSpec.BatchUnique | net/timer/TimerQueue.cpp:92-99 | the due timers, earliest first, are one definite sequence |
| TimerTheorems.PassRuns | net/timer/TimerQueue.cpp:72-91 | a pass logs exactly one run per timer of the batch, in its order |
| TimerTheorems.PassRunsExactlyTheDue | net/timer/TimerQueue.cpp:72-99 | a pass runs exactly the timers with expiration <= now, once each, in ascending expiration |
| TimerTheorems.PassTurns | net/timer/TimerQueue.cpp:80-88 | afterwards a one-shot is gone and a repeating timer is due an interval after its restart, unless a later callback cancelled it |
| TimerTheorems.PassLeavesOthers | net/timer/TimerQueue.cpp:72-91 | timers outside the batch are as the callbacks alone would leave them |
| TimerTheorems.LaterFate | net/timer/TimerQueue.cpp:61-91 | a timer outside the batch survives a pass exactly when no callback cancels it |
| TimerTheorems.RunKeeps | net/timer/TimerQueue.cpp:49-99 | over every run expirations stay distinct and the log stays punctual |
| TimerTheorems.NeverEarlyNeverTwice | net/timer/TimerQueue.cpp:72-91 | in every run no callback comes before its expiration, and a one-shot runs at most once |
| TimerTheorems.DeadStaysDead | net/timer/TimerQueue.cpp:61-91 | an id that has left the queue never runs again |
| TimerTheorems.CancelledNeverRuns | net/timer/TimerQueue.cpp:61-70 | an id cancelled outside a pass never runs afterwards |
| TimerTheorems.CancelledInPassNeverRuns | net/timer/TimerQueue.cpp:61-91 | an id outside the batch that a callback of a pass cancels runs neither in this pass nor in any later run |
| TimerTheorems.WaitsUntilDue | net/timer/TimerQueue.cpp:49-99 | over every run of calls and passes before its expiration a timer stays as it is exactly if nothing cancels it |
| TimerTheorems.NeverLate | net/timer/TimerQueue.cpp:49-99 | a timer runs in the first pass at or after its expiration exactly when nothing has cancelled it before |
| TimerTheorems.AddedWaits | net/timer/TimerQueue.cpp:49-60 | a timer that is added gets a new id and the time and interval asked for, repeats exactly if the interval is not zero, and leaves the others alone |
| TimerQueues.Timer.constructor | net/timer/Timer.cpp:10-12 | a timer repeats exactly if its interval is positive |
| TimerQueues.Timer.Restart | net/timer/Timer.cpp:17-23 | a repeating timer is due an interval after now, a one-shot at zero |
| TimerQueues.ArmedForEarliest | net/timer/TimerQueue.cpp:23-35 | the kernel timer is a valid timespec of exactly the earliest expiration in microseconds, zero exactly when nothing is scheduled |
| TimerQueues.TimerQueue.UpdateTimerFd | net/timer/TimerQueue.cpp:23-35 | the kernel timer is armed for the earliest key of the map |
| TimerQueues.TimerQueue.AddTimer | net/timer/TimerQueue.cpp:49-60 | map and index go on agreeing exactly when the time is not taken; then the queue gains exactly the new timer |
| TimerQueues.TimerQueue.Cancel | net/timer/TimerQueue.cpp:61-70 | exactly the timer with this id leaves both maps; an unknown id changes nothing |
| TimerQueues.TimerQueue.GetExpired | net/timer/TimerQueue.cpp:92-99 | the scan returns all due timers and no other, earliest first |
| TimerQueues.TimerQueue.Settle | net/timer/TimerQueue.cpp:78-88 | after its callback a timer is re-armed or removed in both maps and the others stay; the maps agree afterwards exactly when the time it is re-armed for is not taken |
| TimerQueues.TimerQueue.HandleAll | net/timer/TimerQueue.cpp:75-89 | the loop over the snapshot, with callbacks that add and cancel, is the pass of the specification |
| TimerQueues.TimerQueue.Handle | net/timer/TimerQueue.cpp:72-91 | handle is one pass, keeps map and index in agreement and leaves the kernel timer armed for the earliest |
| TimerQueues.AddOntoTakenTime | net/timer/TimerQueue.cpp:49-60 | a new queue and two timers for one time: the first is lost, its id points at the second, the maps disagree |
| TimerQueues.RestartOntoTakenTime | net/timer/TimerQueue.cpp:78-88 | a repeating timer restarted onto the time of a waiting one makes the maps disagree |
| Events.EnableTakesEffectIff | net/base/Event.cpp:46-55 | enabling makes an event listen exactly when it listens already or its mask is -1 |
| Events.DisabledAfterCancelStaysDeaf | net/base/Event.cpp:56-69 | a disable on a cancelled event leaves a negative mask that two enables are needed to undo |
| Events.EnableAddsOwnBits | net/base/Event.cpp:46-55 | enabling one interest adds its bits and keeps the other; from -1 there is none to keep |
| Events.DisableTakesOwnBits | net/base/Event.cpp:56-65 | disabling one interest takes its bits and keeps the other; without a bit left the mask is -1 |
| Events.MaskedIsWantedIff | net/base/Event.cpp:46-69 | one call makes the mask that of the interests wanted exactly unless it disables where nothing is wanted |
| Events.MaskIsInterest | net/base/Event.cpp:46-69 | over any calls that never disable where nothing is wanted the mask is exactly the interests asked for, each as its last call left it |
| Events.MaskedReachable | net/base/Event.cpp:46-69 | the reachable masks, and which calls take a listening event out |
| Events.Event.Enable | net/base/Event.cpp:46-55 | the mask after an enable |
| Events.Event.Disable | net/base/Event.cpp:56-65 | the mask after a disable; an empty one becomes -1 |
| PollPollers.PollPoller.Detach | net/poller/PollPoller.cpp:59-71 | swap-with-last removal keeps array, map and back-pointers in agreement |
| PollPollers.PollPoller.Remove | net/poller/PollPoller.cpp:59-73 | exactly this descriptor leaves the registry, and the event's index turns negative |
| PollPollers.PollPoller.Update | net/poller/PollPoller.cpp:27-57 | the registry holds the event's mask exactly when it is not negative |
| PollPollers.PollPoller.Perform | net/base/Event.cpp:46-72 | every enable, disable and cancel keeps the representation and is one registry update |
| PollPollers.PollPoller.SameSize | net/poller/PollPoller.cpp:27-73 | the array and the map have the same number of entries |
| PollPollers.PollPoller.FillActive | net/poller/PollPoller.cpp:75-88 | the scan returns the ready entries in order, up to the count, and sets no other event; with poll's own count it returns exactly the events whose entry has positive revents |
| PollPollers.CountCoversReady | net/poller/PollPoller.cpp:13-26 | poll's count is never below the number of ready entries, and equal exactly when no revents is negative |
| PollPollers.ReadyExactly | net/poller/PollPoller.cpp:76-87 | the ready entries are those with positive revents |
| EpollPollers.EpollPoller.Add | net/poller/EpollPoller.cpp:95-109 | the kernel and the vector gain the event, at the index it keeps |
| EpollPollers.EpollPoller.Detach | net/poller/EpollPoller.cpp:77-91 | swap-with-last removal behind the scratch area keeps vector, map and back-pointers in agreement |
| EpollPollers.EpollPoller.Remove | net/poller/EpollPoller.cpp:77-93 | exactly this descriptor leaves the kernel's list and the map |
| EpollPollers.EpollPoller.Update | net/poller/EpollPoller.cpp:53-75 | the kernel holds the event's mask exactly when it is not negative |
| EpollPollers.EpollPoller.Perform | net/base/Event.cpp:46-72 | every enable, disable and cancel keeps the representation and is one registry update |
| EpollPollers.EpollPoller.SameSize | net/poller/EpollPoller.cpp:39-117 | the vector has 16 slots more than there are events, so epoll_wait never truncates |
| EpollPollers.EpollPoller.Poll | net/poller/EpollPoller.cpp:39-51 | up to 16 ready events leave the whole representation valid and the registry part alone, and every lookup of a ready event hits |
| EpollPollers.EpollPoller.Fill | net/poller/EpollPoller.cpp:111-117 | each reported slot becomes the active event of its descriptor with the reported mask |
| EpollPollers.EpollPoller.PerformAll | net/poller/EpollPoller.cpp:39-117 | over any sequence of interest changes and polls, with at most 16 ready events in each answer, all parts agree, the kernel's list is what the masks say and the vector has 16 slots more |
| EpollPollers.SplitHoldsIff | net/poller/EpollPoller.cpp:39-51 | the registry part survives every kernel answer exactly when at most 16 events are registered |
| EpollPollers.SeventeenReady | net/poller/EpollPoller.cpp:39-51 | 17 events registered one by one and all ready at one poll leave a vector that no longer says where they are |
| PollersAgree.RegisteredIffNotNegative | net/base/Event.cpp:46-72 | over any calls the registry is exactly the events with a non-negative mask, with their masks |
| PollersAgree.Create | net/base/Looper.cpp:54-58 | two new pollers agree |
| PollersAgree.AdoptBoth | net/base/Event.cpp:11 | a new event on each keeps the agreement |
| PollersAgree.PerformBoth | net/base/Looper.cpp:156-171 | one call on both pollers keeps the same descriptors with the same masks |
| PollersAgree.PerformAll | net/base/Looper.cpp:156-171 | so does every sequence of calls |
| Buffers.Buffer.Append | utils/Buffer.h:226-237 | the contents grow by the bytes; the branch without space is never taken |
| Buffers.Buffer.MakeSpace | utils/Buffer.h:285-295 | the contents stay, there is room for the bytes, and the storage obeys the space bound; compaction only moves forward |
| Buffers.Buffer.Compact | utils/Buffer.h:288-294 | the forward copy onto itself keeps the contents |
| Buffers.Buffer.Prepend | utils/Buffer.h:240-247 | the bytes come before the contents |
| Buffers.Buffer.Retrieve | utils/Buffer.h:185-203 | the first bytes are dropped, or all of them |
| Buffers.Buffer.RetrieveAsString | utils/Buffer.h:206-215 | returns and drops a prefix; asking for too much returns and changes nothing |
| Buffers.Buffer.UndoAppend | utils/Buffer.h:218-224 | the last bytes are dropped, if there are so many |
| Buffers.Buffer.ReadSocket | utils/Buffer.h:251-271 | the contents grow by all bytes read, however they split over buffer and stack |
| Buffers.Buffer.PerformAll | utils/Buffer.h:185-295 | over any calls, up to the first that cannot be made, the buffer is its byte sequence, and its size is at most max(8 + initial, 2 * peak + 7) |
| Buffers.FirstInFirstOut | utils/Buffer.h:185-271 | what was taken followed by what is left is what was there followed by what was appended or read |
| Buffers.UndoUndoesAppend | utils/Buffer.h:218-237 | undoAppend takes back exactly an append of the same length |
| TcpTheorems.StreamOrder | net/TcpConnection.cpp:127-245 | over every run wire followed by backlog is what was accepted, so the wire is a prefix of it |
| TcpTheorems.WireIsPrefixOfSends | net/TcpConnection.cpp:127-161 | from a new connection, wire and backlog are the accepted sends laid end to end |
| TcpTheorems.NextKeepsInv | net/TcpConnection.cpp:127-252 | every call and event keeps stream order and the interest mask well-formed |
| TcpTheorems.CompletesIff | net/TcpConnection.cpp:139-234 | write-complete is reported exactly by a successful write that leaves everything accepted on the wire |
| TcpTheorems.OverflowsIff | net/TcpConnection.cpp:150-155 | the high-water callback comes exactly when the send lets the backlog grow to the mark or above |
| TcpTheorems.WireIsWhatTheSocketTook | net/TcpConnection.cpp:127-245 | over every run the wire grows by exactly as many bytes as the socket said it took |
| TcpTheorems.EstablishedReads | net/TcpConnection.cpp:150-252 | from its establishment to its close a connection listens for reads, whatever is sent, drained or shut down |
| TcpTheorems.DrainsIff | net/TcpConnection.cpp:150-245 | without another send the backlog can reach the wire exactly when the socket takes bytes and a write event is due or awaited |
| TcpTheorems.SendStrandsIff | net/TcpConnection.cpp:134-158 | a send on a working connection leaves bytes that no event will send exactly when the last report says writable but write interest is off |
| TcpTheorems.DrainStrandsTheNextSend | net/TcpConnection.cpp:134-229 | every non-empty send between a drain and the next report is such a send |
| TcpTheorems.SendCanStrand | net/TcpConnection.cpp:134-229 | a run from a new connection that ends connected, with a byte no event will send |
| TcpTheorems.ReportClearsTheWay | net/TcpConnection.cpp:134-158 | after a report without the write bit a send on an empty backlog goes to the socket at once and what is left can drain |
| TcpTheorems.DrainQuiets | net/TcpConnection.cpp:221-230 | the write callback that writes the last byte leaves the event no longer waiting for writability |
| TcpTheorems.ShutdownLosesBacklogIff | net/TcpConnection.cpp:163-173 | shutdown makes a backlog unsendable exactly when the last report is not writable; otherwise it does not shut the write side |
| TcpTheorems.ShutdownCanLose | net/TcpConnection.cpp:134-173 | a run from a new connection whose shutdown cuts off a byte |
| TcpTheorems.DeferredShutdownNeverComes | net/TcpConnection.cpp:235-237 | after shutdown or close no run shuts the write side any more |
| TcpTheorems.ShutdownEndsSends | net/TcpConnection.cpp:127-173 | after shutdown no send is accepted in any run without a new establishment, and the backlog stays |
| TcpTheorems.RefusedUntilEstablished | net/TcpConnection.cpp:127-128 | a new connection accepts and sends nothing before it is established |
| TcpTheorems.ClosedIsSilent | net/TcpConnection.cpp:246-252 | nothing is sent after a close |
| TcpTheorems.ForceCloseEnds | net/TcpConnection.cpp:174-252 | a connection that is up is cancelled at the poller and closed, and over every run after it sends nothing and accepts nothing until it is established again |
| TcpTheorems.ForceClosesIff | net/TcpConnection.cpp:174-176 | it does so exactly when connected or disconnecting, and changes nothing otherwise |
| TcpTheorems.HangUpEnds | net/TcpConnection.cpp:246-252 | a hang-up cancels and closes, nothing is sent after it, and the state stays, so that a connected one still accepts |
| TcpConnections.TcpConnection.Send | net/TcpConnection.cpp:127-161 | send is the protocol's step, calling both callbacks exactly when the protocol says |
| TcpConnections.TcpConnection.HandleWrite | net/TcpConnection.cpp:221-245 | the write callback is the protocol's step and reports completion exactly after the last byte |
| TcpConnections.TcpConnection.Enqueue | net/TcpConnection.cpp:150-159 | what the socket did not take joins the backlog, and the event waits for writability unless the last report had it |
| TcpConnections.TcpConnection.Shutdown | net/TcpConnection.cpp:163-173 | shutdown is the protocol's step; only a connected one changes |
| TcpConnections.TcpConnection.ForceClose | net/TcpConnection.cpp:174-202 | a connection that is up is closed and told so, another one is left alone |
| TcpConnections.TcpConnection.HandleClose | net/TcpConnection.cpp:246-252 | event cancelled, socket closed, state unchanged |
| TcpConnections.TcpConnection.ConnectComplete | net/TcpConnection.cpp:191-197 | connected and reading |
| ConnectorTheorems.NextKeeps | net/Connector.cpp:24-121 | every call, timer and report keeps state, attempts, delays and timers in agreement |
| ConnectorTheorems.OneAttemptAtATime | net/Connector.cpp:24-114 | in every run at most one attempt is in flight, the last, and it is listened for |
| ConnectorTheorems.ConnectsAtMostOnce | net/Connector.cpp:88-121 | after any run, the connect callback is called at most once until the next restart, and not at all when already connected |
| ConnectorTheorems.CallsBounded | net/Connector.cpp:61-121 | with restarts: it is called at most once more than there are restarts |
| ConnectorTheorems.ReachesAtMostOnce | net/Connector.cpp:88-121 | between restarts at most one attempt reaches the peer, the last one |
| ConnectorTheorems.RetryDelays | net/Connector.cpp:61-80 | the k-th delay since a restart is min(500 * 2^k, 30000) ms, one delay for every retried attempt |
| ConnectorTheorems.RetryIsPending | net/Connector.cpp:24-80 | a connector that is not connected, in flight or thrown out of has a retry timer running |
| ConnectorTheorems.StartAnswers | net/Connector.cpp:24-49 | by the errno of connect: which answers are waited for, which are retried after the current delay with the next one doubled, which are thrown, and what each leaves unchanged |
| ConnectorTheorems.FireIsStart | net/Connector.cpp:70-78 | a retry timer does what a call of start does, and neither does anything while the connector may not connect |
| ConnectorTheorems.RestartBeginsAgain | net/Connector.cpp:61-68 | a restart always makes an attempt, with delays beginning at 500 ms again, and abandons the one in flight |
| ConnectorTheorems.ReportOutcome | net/Connector.cpp:88-121 | what each report makes of the attempt in flight, and that it changes nothing else |
| ConnectorTheorems.OneTimerPerRetry | net/Connector.cpp:70-80 | over every run the timers that have fired and those still running are exactly one for each retried attempt |
| ConnectorTheorems.ErrorAfterWriteIsIdle | net/Connector.cpp:88-112 | when both bits arrive in one report, the error callback does nothing |
| ConnectorTheorems.ResolvedOnce | net/Connector.cpp:70-121 | a resolved attempt keeps its outcome over every run |
| ConnectorTheorems.ConnectedIsFinal | net/Connector.cpp:24-121 | once connected, stale timers and late reports change nothing until a restart |
| ConnectorTheorems.StopsAreIdle | net/Connector.cpp:51-59 | every run makes the same attempts at the same delays as without its stops |
| ConnectorTheorems.FireAfterStopIff | net/Connector.cpp:24-59 | a timer begins an attempt after a stop exactly when it would have without it |
| ConnectorTheorems.EventDanglesIff | net/Connector.cpp:24-113 | after any run, stops and restarts included, a start, timer or restart replaces an event the poller still holds exactly when it launches an attempt and, since the last stop that cancelled, the last event was left uncancelled |
| ConnectorTheorems.RestartInFlightDangles | net/Connector.cpp:61-86 | a restart during an attempt always does, if the new attempt gets underway |
| ConnectorTheorems.ErrorOnlyDangles | net/Connector.cpp:82-112 | an attempt that ends in an error report has its event replaced uncancelled exactly when the report had no write bit |
| ConnectorTheorems.NothingDangles | net/Connector.cpp:82-114 | if every report has the write bit and nothing restarts, no event is ever replaced uncancelled |
| Connectors.Connector.Start | net/Connector.cpp:24-49 | start is the protocol's step and throws exactly on EACCES, EPERM, EAFNOSUPPORT and errors not named |
| Connectors.Connector.Stop | net/Connector.cpp:51-59 | stop is the protocol's step |
| Connectors.Connector.Restart | net/Connector.cpp:61-68 | restart is the protocol's step |
| Connectors.Connector.Retry | net/Connector.cpp:70-80 | the delay is scheduled, then doubled up to the limit |
| Connectors.Connector.CheckConnect | net/Connector.cpp:82-114 | a new event replaces the old one and waits for writability |
| Connectors.Connector.WriteCallback | net/Connector.cpp:88-103 | cancels, then connects or retries, once |
| Connectors.Connector.ErrorCallback | net/Connector.cpp:104-112 | retries only while in flight, without a cancel |
| Connectors.Connector.Handle | net/base/Event.cpp:13-30 | the write callback runs before the error callback of the same report, and the connect callback is called exactly when the protocol says |

## Left out

- AsyncTheorems.StopFlushesEverything: an append that takes the mutex after stop began to drain is covered by `StoppedLosesExactlyTheBuffers`; one that would read a moved-from pointer is not a step.
- AsyncLogging.AsyncLogger.DrainQueue: the loop in stop is one step of the protocol, since only late appends could see its middle.
- AsyncLogger: each buffer access is atomic, the local queue is empty after it was moved from, `start` after `stop` and `abort` are not modelled, and the notification is a wait that may end at any time.
- LogFiles.RotationPreservesLog: starts from an empty or missing file; the file size is an unbounded integer, and file system errors do not occur.
- LooperTheorems.NoLostWakeup: the eventfd counter does not overflow, and a failed eventfd call, which the code only logs, does not occur.
- TimerTheorems.NeverEarlyNeverTwice: expirations are positive and not another timer's; `AddTimer` and `Settle` state what a taken time breaks. Times are whole microseconds and an interval is a whole number of them instead of a double.
- TimerQueues.TimerQueue.Handle: a callback that cancels a timer of the pass that is running destroys an object the pass still uses, which is not modelled; a re-arm onto a taken time ends the run, by the condition `Settle` states.
- TimerQueues.TimerQueue.AddTimer: calls come from the loop thread; the cross-thread form captures locals by reference.
- PollPollers.PollPoller.Update: one live event per descriptor; what the code only logs (an event that exists already, or a different one) cannot happen then.
- EpollPollers.EpollPoller.Poll: with more than 16 ready events in one answer the registry part is overwritten; `SplitHoldsIff` states this, runs after it are not modelled.
- Buffers.Buffer.Prepend: a prefix longer than the room before the contents ends the program, so it is a precondition; `PerformAll` stops there.
- Buffer: search (`findCRLF`, `findEOL`, `find`), `retrieveUntil`, `swap` and the fixed-width reads would only add easy members.
- TcpTheorems.StreamOrder: calls come from the loop thread, a high-water or completion callback does not send, and a write answers with at most the bytes it was given; the `size_t` tests of net/base/Socket.cpp that never see an error are modelled as the errors they meant to catch.
- TcpConnections.TcpConnection.HandleClose: the receive buffer, the message callback and the removal of a closed connection by its server or client are not modelled.
- ConnectorTheorems.OneAttemptAtATime: a replaced event that the poller still holds is counted as dangling; what the poller then does with it is not modelled.
- Connectors.Connector.Start: the connect callback does not call back into the connector, and the descriptor of a thrown attempt is not tracked.
- Event: the close and read callbacks, and lifetimes of events, sockets and callbacks.
- HTTP parsing, addresses, Acceptor, TcpServer, TcpClient, thread pools, formatting, FileReader and StringPiece.
- System calls, errno plumbing, destructors, fatal exits and overflow of ids and counters.
