# Verified model of a multi-reactor TCP library

This project models the core of a C++ TCP library built from event loops (reactors): the timer
queue, the connection with its channel and its epoll poller, the life of a server connection across
event loops, the task queue with its eventfd, the byte buffer, and the log stream. It states what
these parts promise as Dafny theorems. `dafny verify dfyconfig.toml` checks all of them.

| file | contents |
|---|---|
| `ByteQueue.dfy`, `Buffer.dfy` | the plain byte queue and its line framing; the in-place buffer that refines it |
| `LogStream.dfy` | bounded text buffer and in-place integer formatting |
| `TimerSpec.dfy`, `TimerRuns.dfy` | the timer queue as a machine, its invariant, and what follows for all runs |
| `TimerSteps.dfy` | what each event of the timer queue comes to, written out |
| `TimerCancel.dfy` | exactly when a cancellation is final |
| `TimerQueue.dfy` | the class with its two indices, proved to follow that machine with arbitrary callbacks |
| `EventLoop.dfy` | task queue, eventfd and quit flag under every interleaving |
| `Poller.dfy` | channel, poller map and kernel interest table |
| `ConnSpec.dfy`, `Connection.dfy` | the connection as a machine; the class on its buffers, channel and poller |
| `ConnSteps.dfy` | what each operation of a connection comes to, written out |
| `Sharing.dfy` | any number of connections on one poller |
| `ServerSpec.dfy`, `ServerRuns.dfy`, `Server.dfy` | connections across any number of loops; the server class |
| `ServerSteps.dfy` | what each event of the server comes to, written out |
| `ServerFailures.dfy` | exactly which polls make an assert of the server's code fail |

Each stateful part is written twice: as a class whose methods change fields the way the source does,
and as a machine on values over which whole runs are quantified. The `ensures` clauses of the methods
tie the two together.

## What was found

- **A close can leave a dead descriptor watched.** `stopRead` with nothing to write empties the
  interest mask, so the poller deletes the descriptor from the kernel's table. A later close calls
  `disableAll`, whose update *adds* the descriptor again with an empty mask.
  `ConnSpec.ClosedStaysUnwatchedIff` gives the exact condition. The life cycle theorems hold on such
  runs too, until a hang-up is reported before the destruction: it enters `handleClose` a second
  time and its assert fails (`ServerFailures.StoppedReaderRun`, a run from the start).
- **A hang-up with priority data but without readable data** makes both closing callbacks
  (`Pollers.TwoClosersIff`, `ServerFailures.HangupWithPriorityRun`).
- These two kinds of report are all that can go wrong. `ServerFailures.CleanIsExact` proves that a
  step leads to a failing assert, before anything else is polled, if and only if it is a poll that
  reports one of them; `ServerFailures.CleanRunsNeverFail` that runs without them never fail.
- **A cancel that reaches the loop before the add task of its timer is lost.** Every other cancel is
  final: `TimerCancels.CancelFinalIff` is an if-and-only-if for every state, and
  `TimerCancels.LostCancelRun` a run from the start in which the cancelled timer is called. A cancel
  posted by another thread is never lost in this way, because the queue is first in, first out
  (`TimerCancels.PostedCancelIsFinal`).
- **Timers with an expiration at or before the epoch are not forgotten**, although `reset` skips an
  invalid timestamp: the arming made when they were inserted is early enough. The theorem only needs
  a clock after the epoch.
- **A task that the loop's own thread queues before `loop()` does not wake the loop**
  (`EventLoops.EarlyTaskSleeps`). Every other task does, also one queued beside such a task
  (`EventLoops.NoLostWakeup`).
- **`formatInteger` prints a number that reads back, except for the signed minimum**
  (`LogStreams.RoundTrip`). The minima of the two signed types even print alike
  (`LogStreams.RenderedInjective`).
- **`forceClose` can overtake a `send` from another thread**, whose message is then dropped
  (`ConnSpec.ForceCloseOvertakesSend`).
- `startRead` binds the function called `stopReadInLoop`, which switches reading *on*; the names are
  swapped in the source and the model follows the code.

## Assumptions

- `forceClose` is one step, although it checks and sets a plain field. `startRead` and `stopRead` are
  called only while the connection is up. The server outlives its connections.
- There is one clock, it never goes back, and it starts after the epoch. Times and intervals are whole
  microseconds, intervals after the cast of `addTime`. 64-bit overflow of times and of the
  sequence counter is not modelled.
- No timer lives at the greatest address. An allocator never returns an address that is in use.
- A repeating timer's interval is not negative (its flag is "interval greater than zero").
- The kernel's `epoll_ctl` fails only for adding what is there or changing what is not.
- `write` takes any prefix or fails with an errno; `readv` delivers any bytes up to what was offered.

## Model

| member | source | states |
|---|---|---|
| `ByteQueue.LineEnd` | net/buffer/Buffer.cc:165-171 | the position found is that of the first newline, or the length if there is none |
| `ByteQueue.LineEndUnique` | net/buffer/Buffer.cc:165-171 | any position with no newline before it and a newline (or the end) at it is the one the search finds |
| `ByteQueue.SplitIsFramed` | net/buffer/Buffer.cc:165-175 | cutting a byte string into lines and a tail loses and moves no byte; each line has its only newline as its last byte |
| `ByteQueue.FramingUnique` | net/buffer/Buffer.cc:165-175 | there is only one way to frame a byte string |
| `ByteQueue.TakeLine` | net/buffer/Buffer.cc:165-175 | taking the first line before or after more bytes arrive gives the same lines and the same tail |
| `ByteQueue.StreamingIsLegal` | net/buffer/Buffer.cc:111-210 | arrivals and `getLine` calls are legal in any order, from any queue |
| `ByteQueue.FramingInvariant` | net/buffer/Buffer.cc:111-210 | after any mix of arrivals and `getLine` calls, lines handed out plus lines still inside are the lines of the whole input |
| `ByteQueue.ChunkingIndependent` | net/buffer/Buffer.cc:111-210 | two drained streams with the same bytes agree on lines and tail, however they were chunked and interleaved |
| `ByteQueue.RunSnoc` | net/buffer/Buffer.cc:79-210 | a run extends by one operation with exactly that operation's state, lines and demand |
| `ByteQueue.DemandIs` | net/buffer/Buffer.cc:118-125 | the demand that bounds the storage is readable bytes plus requested length |
| `ByteQueue.SureRoom` | net/buffer/Buffer.cc:79-163 | eight bytes in front are sure at all times but after a prepend, and again once the buffer was read empty |
| `ByteQueue.SampleLines` | net/buffer/Buffer.cc:165-175 | a sample: the line feed ends a line |
| `Buffers.Buffer.constructor` | net/buffer/Buffer.cc:12-15 | a new buffer is the empty queue with eight bytes of prepend room |
| `Buffers.Buffer.RetrieveAll` | net/buffer/Buffer.cc:92-96 | the buffer becomes the empty queue |
| `Buffers.Buffer.Retrieve` | net/buffer/Buffer.cc:79-90 | exactly the first `len` bytes leave; the reader resets when nothing is left |
| `Buffers.Buffer.RetrieveAsString` | net/buffer/Buffer.cc:98-104 | what is returned followed by what is left is what was there |
| `Buffers.Buffer.MoveDown` | net/buffer/Buffer.cc:150-150 | the overlapping forward copy inside the vector carries the bytes over unchanged |
| `Buffers.Buffer.Resize` | net/buffer/Buffer.cc:144-144 | growth keeps the old bytes in front |
| `Buffers.Buffer.MakeSpace` | net/buffer/Buffer.cc:138-155 | contents unchanged, room for `len`, storage never shrinks and stays within the bound; both asserts of the compaction branch hold |
| `Buffers.Buffer.EnsureWritableBytes` | net/buffer/Buffer.cc:118-125 | the same, from any state, and the final assert holds |
| `Buffers.Buffer.HasWritten` | net/buffer/Buffer.cc:127-131 | the writer moves by `len` and stays inside the storage |
| `Buffers.Buffer.Fill` | net/buffer/Buffer.cc:114-115 | bytes copied at the writer are appended to the contents |
| `Buffers.Buffer.Append` | net/buffer/Buffer.cc:111-116 | contents become old contents followed by the data |
| `Buffers.Buffer.Prepend` | net/buffer/Buffer.cc:157-163 | contents become the data followed by the old contents |
| `Buffers.Buffer.FindNewline` | net/buffer/Buffer.cc:167-167 | the scan of the storage finds the first newline of the contents |
| `Buffers.Buffer.GetLine` | net/buffer/Buffer.cc:165-175 | the first line with its newline is returned and removed, or nothing changes if there is none |
| `Buffers.Buffer.ReadFd` | net/buffer/Buffer.cc:177-210 | for any result of the scatter read, contents grow by exactly the bytes delivered over both areas; a failure changes nothing |
| `Buffers.Buffer.Offered` | net/buffer/Buffer.cc:179-187 | a read is offered the writable bytes, plus 64 KiB if they are fewer than that |
| `Buffers.Buffer.Perform` | net/buffer/Buffer.cc:79-210 | every operation does to the buffer what it does to the byte queue; a prepend may be as long as the space in front, as the source's assert says |
| `Buffers.Replay` | net/buffer/Buffer.cc:79-210 | over any run the buffer holds the bytes and hands out the lines of the byte queue, and its storage is at most max(1024, 2 * demand + 7); it stops only before a prepend that the source's assert refuses or a read beyond what was offered |
| `LogStreams.DecimalParses` | base/log/LogStream.h:128-132 | decimal digits read back as the number, without a leading zero |
| `LogStreams.TextLength` | base/log/LogStream.h:110-116 | no number of any integer type takes more than 21 characters |
| `LogStreams.RoundTrip` | base/log/LogStream.h:113-141 | the text reads back as the number, except for the signed minimum, whose text is no number; the only text that starts with a zero digit is the zero |
| `LogStreams.RenderedInjective` | base/log/LogStream.h:113-141 | two numbers of any of the integer types print alike if and only if they are equal or both the minimum of their signed type |
| `LogStreams.ReversedAt` | base/log/LogStream.h:138-138 | reversal maps each position to its mirror |
| `LogStreams.NextDigit` | base/log/LogStream.h:128-132 | one round of the digit loop keeps digits to come followed by reversed digits done equal to the number's digits, and has room for its digit |
| `LogStreams.Accept` | base/log/LogStream.h:20-27 | after any item there is still room for the terminator |
| `LogStreams.AcceptAll` | base/log/LogStream.h:20-42 | the same after any sequence of items |
| `LogStreams.AcceptedIffRoom` | base/log/LogStream.h:20-27 | an item is appended whole if and only if there is room for it: a byte to spare for text, 32 bytes for a number |
| `LogStreams.AllAccepted` | base/log/LogStream.h:20-141 | items whose needs add up to less than the free space are all there, in order |
| `LogStreams.Samples` | base/log/LogStream.h:113-141 | sample texts, in base ten with a leading minus |
| `LogStreams.LogStream.constructor` | base/log/LogStream.h:17-17 | a new stream is empty |
| `LogStreams.LogStream.Append` | base/log/LogStream.h:20-27 | the text is taken whole if it fits with a byte to spare, otherwise not at all |
| `LogStreams.LogStream.Reverse` | base/log/LogStream.h:138-138 | exactly the given range is reversed in place |
| `LogStreams.LogStream.Digits` | base/log/LogStream.h:128-132 | the loop writes the digits low first, within 20 bytes, and touches nothing else |
| `LogStreams.LogStream.Render` | base/log/LogStream.h:118-138 | the reserved bytes hold the number's text and a terminator; nothing outside them changes |
| `LogStreams.LogStream.FormatInteger` | base/log/LogStream.h:113-141 | the number is taken whole if 32 bytes are free, otherwise not at all; writes stay within those bytes |
| `LogStreams.LogStream.LogAll` | base/log/LogStream.h:20-141 | after any mix of text and numbers the buffer was not overrun and holds the items that fitted; if there is room for all, it holds all, in order |
| `TimerSpec.Earliest` | net/timer/TimerQueue.cc:209-214 | the time is that of a queued timer and no queued timer comes before it |
| `TimerRuns.InsertWatches` | net/timer/TimerQueue.cc:119-128 | after an insertion the timerfd is still set early enough for every queued timer |
| `TimerRuns.PostAddKeeps` | net/timer/TimerQueue.cc:112-117 | creating a timer from another thread keeps the invariant: the new timer is owned by its task |
| `TimerRuns.AddNowKeeps` | net/timer/TimerQueue.cc:112-128 | creating and inserting a timer in the loop, even inside a callback, keeps the invariant |
| `TimerRuns.CancelKeeps` | net/timer/TimerQueue.cc:135-153 | any cancel, genuine or stale, keeps the invariant |
| `TimerRuns.RunTaskKeeps` | net/timer/TimerQueue.cc:112-133 | running a queued add or cancel keeps the invariant |
| `TimerRuns.FireKeeps` | net/timer/TimerQueue.cc:222-231 | taking the due timers out keeps the invariant, whether or not the read of the timerfd finds anything |
| `TimerRuns.CallNextKeeps` | net/timer/TimerQueue.cc:233-236 | each callback run is due and comes at least an interval after the last one of its timer |
| `TimerRuns.RearmWatches` | net/timer/TimerQueue.cc:209-219 | the end of `reset` covers the whole queue, also when it leaves the timerfd alone |
| `TimerRuns.DoneKeeps` | net/timer/TimerQueue.cc:193-240 | freeing and restarting the batch keeps the invariant |
| `TimerSteps.CreatedAsAsked` | net/timer/Timer.h:17-23 | the timer created has exactly the time, interval and flag asked for and the next number; it is queued at once or left to a task |
| `TimerSteps.ArmedFor` | net/timer/TimerQueue.cc:21-44 | an arming is for the very microsecond, or for 100us ahead if less is left |
| `TimerSteps.AddSetsTimerfd` | net/timer/TimerQueue.cc:119-128 | an addition sets the timerfd, for the new timer's time, if and only if it comes before all queued ones |
| `TimerSteps.TaskSetsTimerfd` | net/timer/TimerQueue.cc:119-128 | so does a queued add task, which queues its timer |
| `TimerSteps.DoneDecides` | net/timer/TimerQueue.cc:193-207 | a timer of the batch that repeats and was not cancelled is queued again exactly one interval after the time of the batch; every other one is freed |
| `TimerSteps.DoneLeavesOthers` | net/timer/TimerQueue.cc:193-207 | the end of a batch changes no timer outside it |
| `TimerSteps.DoneSetsTimerfd` | net/timer/TimerQueue.cc:209-219 | it sets the timerfd for the earliest queued timer, if that one's time is after the epoch, and otherwise leaves it |
| `TimerSteps.FireBegins` | net/timer/TimerQueue.cc:222-231 | a batch starts at the current time, with no cancellations noted |
| `TimerSteps.CancelDecides` | net/timer/TimerQueue.cc:135-153 | a cancel frees a queued timer of that name; otherwise the name is noted during a batch, and nothing happens outside one |
| `TimerRuns.StartsInv` | net/timer/TimerQueue.cc:88-97 | an empty queue with a clock after the epoch satisfies the invariant |
| `TimerRuns.EveryRunKeepsInv` | net/timer/TimerQueue.cc:112-267 | the invariant holds after every run of adds, cancels, ticks, batches and callbacks |
| `TimerRuns.OneOwner` | net/timer/TimerQueue.cc:112-207 | every live timer is in exactly one of an add task, the queue or the batch; sequence numbers are unique |
| `TimerRuns.NoTimerForgotten` | net/timer/TimerQueue.cc:21-44 | outside a batch, if a timer is queued the timerfd is set, with a deadline no later than max(earliest expiration, time of setting + 100us) |
| `TimerRuns.FireTakesAllDue` | net/timer/TimerQueue.cc:156-175 | a batch holds a queued timer if and only if it is due, and the others stay queued |
| `TimerRuns.BatchRunsInOrder` | net/timer/TimerQueue.cc:222-240 | each timer of a batch was run exactly once, in order of expiration and then of address, even if it was cancelled meanwhile |
| `TimerRuns.RunsArePunctual` | net/timer/TimerQueue.cc:156-240 | no timer runs early, a one-shot timer runs once, a repeating one at least its interval apart |
| `TimerCancels.GenuineForever` | net/timer/TimerQueue.cc:112-117 | a timer id names its timer, or nothing, for ever, also when its address is reused |
| `TimerCancels.DoomedRun` | net/timer/TimerQueue.cc:135-240 | a timer that is freed, or in the batch and not to be restarted, never runs in a later batch |
| `TimerCancels.CancelIsFinal` | net/timer/TimerQueue.cc:135-153 | a cancelled timer that is not in an add task never runs in a later batch, whatever happens afterwards |
| `TimerCancels.CancelSparesOthers` | net/timer/TimerQueue.cc:135-153 | no timer with another sequence number is affected, not even one at the same address |
| `TimerCancels.CancelBeforeInsertIsLost` | net/timer/TimerQueue.cc:130-153 | a cancel that comes before the add task changes nothing that matters later |
| `TimerCancels.CancelFinalIff` | net/timer/TimerQueue.cc:130-153 | in every state, a cancel is final if and only if its timer is not waiting for its add task |
| `TimerCancels.LostCancelRuns` | net/timer/TimerQueue.cc:112-153 | from every state in which it waits, a cancelled timer can still be called in a later batch |
| `TimerCancels.PostedIsQueued` | net/timer/TimerQueue.cc:130-133 | a cancel from another thread goes behind all queued tasks and changes nothing else |
| `TimerCancels.PostedCancelFinalIff` | net/timer/TimerQueue.cc:130-153 | once its task runs, it is as final as a cancel in the loop, under the same condition |
| `TimerCancels.PostedCancelIsFinal` | net/timer/TimerQueue.cc:112-153 | and the condition always holds: over any run, a cancel posted for a timer already named comes after its add task |
| `TimerCancels.BatchExists` | net/timer/TimerQueue.cc:156-175 | the due timers can always be put in the order of a batch |
| `TimerCancels.LostCancelRun` | net/timer/TimerQueue.cc:112-153 | a run from the start in which a cancelled timer is called |
| `TimerQueues.HowMuchTimeFromNow` | net/timer/TimerQueue.cc:21-44 | the timespec is normalised, worth max(100us, time left) and never zero |
| `TimerQueues.SizesAgree` | net/timer/TimerQueue.cc:138-138 | the two indices have the same size |
| `TimerQueues.BothAreNew` | net/timer/TimerQueue.cc:254-263 | both insertions of a timer outside the queue are new |
| `TimerQueues.TimerQueue.SizesMatch` | net/timer/TimerQueue.cc:265-265 | the size assert holds in every valid state |
| `TimerQueues.TimerQueue.constructor` | net/timer/TimerQueue.cc:88-97 | a new queue is the empty machine |
| `TimerQueues.TimerQueue.LowerBound` | net/timer/TimerQueue.cc:161-161 | the cut separates the entries below the key from those that are not |
| `TimerQueues.TimerQueue.EarliestIsFirst` | net/timer/TimerQueue.cc:248-252 | looking at the front decides whether the new timer is earlier than all |
| `TimerQueues.TimerQueue.Insert` | net/timer/TimerQueue.cc:242-267 | the timer joins both indices, which still agree; the result says whether it is earlier than all; the asserts hold |
| `TimerQueues.TimerQueue.ResetTimerfd` | net/timer/TimerQueue.cc:57-81 | the timerfd is set for the expiration, at least 100us ahead |
| `TimerQueues.TimerQueue.AddTimerInLoop` | net/timer/TimerQueue.cc:119-128 | the code makes the machine's insertion |
| `TimerQueues.TimerQueue.AddTimer` | net/timer/TimerQueue.cc:112-117 | in the loop thread: the id returned names the new timer with a fresh sequence number, and the timer is inserted at once |
| `TimerQueues.TimerQueue.PostTimer` | net/timer/TimerQueue.cc:112-117 | in another thread: the same id, and the insertion left to the loop as a task, as the machine does it |
| `TimerQueues.TimerQueue.RunTask` | net/timer/TimerQueue.cc:119-153 | running a queued add or cancel is the machine's step |
| `TimerQueues.TimerQueue.CancelInLoop` | net/timer/TimerQueue.cc:135-153 | the code makes the machine's cancellation; exactly one entry is erased |
| `TimerQueues.TimerQueue.KeyFound` | net/timer/TimerQueue.cc:143-144 | a queued timer is found under its current expiration |
| `TimerQueues.TimerQueue.GetExpired` | net/timer/TimerQueue.cc:156-175 | exactly the due timers leave both indices, returned in order; the asserts hold |
| `TimerQueues.TimerQueue.EraseActive` | net/timer/TimerQueue.cc:166-171 | each expired name is found and erased |
| `TimerQueues.TimerQueue.Reset` | net/timer/TimerQueue.cc:193-220 | each timer of the batch is queued again one interval after the batch or freed, as it repeats and was not cancelled or not; the timerfd follows the earliest |
| `TimerQueues.TimerQueue.PutBack` | net/timer/TimerQueue.cc:197-206 | one timer is requeued exactly one interval after the time of the batch, or freed, and the indices still agree |
| `TimerQueues.TimerQueue.FrontIsEarliest` | net/timer/TimerQueue.cc:211-214 | the front of the ordered index is the earliest expiration |
| `TimerQueues.TimerQueue.RunCallback` | net/timer/TimerQueue.cc:233-236 | the callback does exactly the additions and cancels it is told to, as a run of the machine |
| `TimerQueues.TimerQueue.HandleRead` | net/timer/TimerQueue.cc:222-240 | the whole call, with arbitrary callbacks doing exactly what a script says, is a run of the machine from one idle state to another, so all theorems on runs apply to it |
| `TimerQueues.RequeueSnoc` | net/timer/TimerQueue.cc:195-207 | requeueing the batch as a whole is requeueing its timers one by one |
| `TimerQueues.OtherTimersKeyed` | net/timer/Timer.cc:7-17 | restarting or freeing a timer outside the indices leaves every key equal to its timer's expiration |
| `EventLoops.StepKeeps` | net/eventloop/EventLoop.cc:89-163 | every step of every thread keeps the invariant |
| `EventLoops.RunKeeps` | net/eventloop/EventLoop.cc:89-272 | so does every interleaving |
| `EventLoops.NoLostWakeup` | net/eventloop/EventLoop.cc:89-163 | about to poll with a task pending that was not queued by the loop thread before `loop()`, or a quit requested, the eventfd is readable or a thread is about to write it |
| `EventLoops.EarlyTaskSleeps` | net/eventloop/EventLoop.cc:152-163 | a task queued by the loop thread before `loop()` leaves the loop asleep |
| `EventLoops.EarlyNeedsEarlyPush` | net/eventloop/EventLoop.cc:152-163 | without such a push every pending task counts |
| `EventLoops.TasksAreFifo` | net/eventloop/EventLoop.cc:152-272 | executed tasks, rest of the batch and pending tasks are, in order, all tasks ever queued |
| `EventLoops.ExecutedAsQueued` | net/eventloop/EventLoop.cc:152-272 | over any run, tasks executed, swapped and pending are, in order, the very tasks that the threads' calls queued |
| `EventLoops.HistoryIsPushes` | net/eventloop/EventLoop.cc:152-157 | the history of the queue is the sequence of `queueInLoop` calls |
| `EventLoops.BatchIsFixed` | net/eventloop/EventLoop.cc:257-272 | one `doPendingFunctors` runs exactly the tasks present at its swap, however many are queued meanwhile |
| `EventLoops.WokenLoopServes` | net/eventloop/EventLoop.cc:97-116 | from a readable eventfd, one turn of the loop can execute everything ever queued, in a bounded number of steps |
| `EventLoops.EventfdCounts` | net/eventloop/EventLoop.cc:37-55 | a served wakeup leaves the eventfd empty, a write leaves it readable |
| `EventLoops.QuitIsAsked` | net/eventloop/EventLoop.cc:122-129 | both ways to quit set the flag; another thread also has to write the eventfd |
| `EventLoops.QuitStops` | net/eventloop/EventLoop.cc:97-129 | once asked to quit, whatever happens in between, the loop ends the next time it looks at the flag |
| `EventLoops.EnterStartsAnew` | net/eventloop/EventLoop.cc:89-97 | entering the loop forgets an earlier request to quit |
| `EventLoops.WokenLoopStops` | net/eventloop/EventLoop.cc:97-129 | a loop asked to quit while it sleeps on a readable eventfd can serve everything queued and stop, in a bounded number of steps |
| `Pollers.Channel.SetEvents` | net/channel/Channel.cc:44-48 | after the update the map, the index and the kernel's table agree on the new mask, and other descriptors are untouched |
| `Pollers.Channel.EnableReading` | net/channel/Channel.h:33-33 | the mask grows by the read flags, and the kernel watches with it |
| `Pollers.Channel.DisableReading` | net/channel/Channel.h:34-34 | reading off, writing unchanged, watched exactly if something is left to watch |
| `Pollers.Channel.EnableWriting` | net/channel/Channel.h:35-35 | writing on, the rest unchanged, watched by the kernel with this mask |
| `Pollers.Channel.DisableWriting` | net/channel/Channel.h:36-36 | writing off, the rest unchanged, watched exactly if something is left to watch |
| `Pollers.Channel.DisableAll` | net/channel/Channel.h:37-37 | nothing is asked for; the descriptor is in the kernel's table afterwards exactly if it was not before |
| `Pollers.Channel.Remove` | net/channel/Channel.cc:50-55 | the descriptor is in neither the map nor the kernel's table, and nothing else changed |
| `Pollers.EPollPoller.Control` | net/poller/epollpoller/EPollPoller.cc:128-146 | fails exactly when adding what is there or changing what is not, and then changes nothing |
| `Pollers.EPollPoller.UpdateChannel` | net/poller/epollpoller/EPollPoller.cc:56-89 | agreement of map, indices, masks and kernel's table is restored and no kernel call fails |
| `Pollers.EPollPoller.RemoveChannel` | net/poller/epollpoller/EPollPoller.cc:91-101 | the channel leaves both tables, agreement holds and no kernel call fails |
| `Pollers.EPollPoller.KeptIsKnown` | net/poller/epollpoller/EPollPoller.cc:56-101 | a change for one descriptor leaves the channels of all others known to the poller |
| `Pollers.EPollPoller.HasChannel` | net/poller/Poller.cc:14-18 | the map knows the channel exactly when its index is not new |
| `Pollers.EPollPoller.FillActiveChannels` | net/poller/epollpoller/EPollPoller.cc:118-126 | the active list names registered channels, each once, each holding what was reported for its descriptor |
| `Pollers.TwoClosersIff` | net/channel/Channel.cc:76-107 | both closing callbacks are made exactly for a hang-up with priority data or half-close but no readable data |
| `Pollers.DispatchIff` | net/channel/Channel.cc:76-107 | each of the four callbacks is made exactly for its flags |
| `Pollers.DispatchInOrder` | net/channel/Channel.cc:76-107 | each at most once, in the order close, error, read, write |
| `ConnSpec.StepKeeps` | net/Tcp/TcpConnection.cc:83-388 | every operation keeps write interest exact and index, mask and reading flag consistent |
| `ConnSpec.RunKeeps` | net/Tcp/TcpConnection.cc:83-388 | so does every run |
| `ConnSpec.SendConserves` | net/Tcp/TcpConnection.cc:83-153 | a message that is not dropped is, whole and in order, with the kernel or behind what was buffered |
| `ConnSpec.OutputConserved` | net/Tcp/TcpConnection.cc:83-356 | over any run, bytes taken by the kernel followed by bytes buffered are the messages not dropped, in order |
| `ConnSpec.RunSnoc` | net/Tcp/TcpConnection.cc:83-388 | a run extends by one operation with exactly its state, its bytes and its posts |
| `ConnSteps.SendMeans` | net/Tcp/TcpConnection.cc:83-153 | a message is lost, changing nothing, only if the connection is down, or on EPIPE or ECONNRESET with nothing in front of it; any other is, whole and in order, with the kernel or buffered, also on EWOULDBLOCK |
| `ConnSteps.SendPosts` | net/Tcp/TcpConnection.cc:112-145 | the connection answers for exactly the messages that are not lost, and queues write-complete or high-water exactly when due |
| `ConnSteps.FullBufferWaits` | net/Tcp/TcpConnection.cc:123-151 | a full kernel buffer loses nothing: the message waits and writability is watched |
| `ConnSteps.HandleWriteMeans` | net/Tcp/TcpConnection.cc:318-356 | exactly the bytes the kernel takes move; with the last one write interest ends, write-complete is queued, and a disconnecting connection closes |
| `ConnSteps.EstablishMeans` | net/Tcp/TcpConnection.cc:228-237 | an established connection is connected, reads and is watched |
| `ConnSteps.DisconnectingIsAsked` | net/Tcp/TcpConnection.cc:176-183 | only `forceClose` of a connected connection makes it disconnecting |
| `ConnSteps.ConnectedIsEstablished` | net/Tcp/TcpConnection.cc:228-237 | only the establishment makes a connection connected |
| `ConnSteps.DownIsFinal` | net/Tcp/TcpConnection.cc:358-366 | down is final, and nothing goes back to connecting |
| `ConnSteps.ForceCloseMeans` | net/Tcp/TcpConnection.cc:176-183 | an up connection is marked and one closing task queued; another one is left alone |
| `ConnSteps.ForceCloseInLoopMeans` | net/Tcp/TcpConnection.cc:196-206 | what is still up ends down, asking for nothing, and the owner is told once |
| `ConnSteps.HandleReadMeans` | net/Tcp/TcpConnection.cc:297-317 | end of stream closes; data and errors leave the connection as it is |
| `ConnSteps.SwitchReadMeans` | net/Tcp/TcpConnection.cc:214-226 | switching reading changes the flag and the read interest and nothing else |
| `ConnSteps.DestroyMeans` | net/Tcp/TcpConnection.cc:268-278 | down, asking for nothing, out of the poller |
| `ConnSpec.MovesForward` | net/Tcp/TcpConnection.cc:176-388 | the state never goes back; the owner is told exactly when an operation other than destruction brings the connection down |
| `ConnSpec.ToldAtMostOnce` | net/Tcp/TcpConnection.cc:358-388 | over any run the close callback is made at most once, and then the connection ends down |
| `ConnSpec.HighWaterOnCrossing` | net/Tcp/TcpConnection.cc:137-151 | the high-water task is queued exactly on an upward crossing of the mark and carries the new size |
| `ConnSpec.FiringsAreSeparated` | net/Tcp/TcpConnection.cc:137-151 | between two high-water tasks there is a write event that drains below the mark |
| `ConnSpec.WriteCompleteMeansAllSent` | net/Tcp/TcpConnection.cc:112-122 | when a write-complete task is queued, every byte not dropped over the whole run has reached the kernel |
| `ConnSpec.ForceCloseOvertakesSend` | net/Tcp/TcpConnection.cc:336-339 | from any connected state with output waiting, a forced close makes a later message be dropped |
| `ConnSpec.ClosedIsUnwatchedIff` | net/Tcp/TcpConnection.cc:358-366 | a close takes the descriptor out of the kernel's table exactly if the connection was still watching something |
| `ConnSpec.ClosedStaysUnwatchedIff` | net/Tcp/TcpConnection.cc:358-366 | and so it stays over any run up to the destruction, asking for nothing |
| `Connections.TcpConnection.WriteInterestIsExact` | net/Tcp/TcpConnection.cc:112-151 | through connection, channel and poller: while not down, the kernel watches for writability exactly if the output buffer is not empty |
| `Connections.TcpConnection.constructor` | net/Tcp/TcpConnection.cc:15-36 | a new connection is in the initial state with two empty buffers of its own |
| `Connections.TcpConnection.ConnectEstablished` | net/Tcp/TcpConnection.cc:228-237 | connected, the read interest added, and watched by the poller |
| `Connections.TcpConnection.SendInLoop` | net/Tcp/TcpConnection.cc:83-153 | for every outcome of the direct write the message is lost or delivered whole as `ConnSteps.Delivered` writes out, and the machine's tasks are queued |
| `Connections.TcpConnection.WriteDirectly` | net/Tcp/TcpConnection.cc:112-135 | the kernel takes the prefix; only EPIPE and ECONNRESET are fatal |
| `Connections.TcpConnection.Keep` | net/Tcp/TcpConnection.cc:137-151 | the rest is buffered in order, writability is watched, the high-water task is queued on a crossing |
| `Connections.TcpConnection.ForceClose` | net/Tcp/TcpConnection.cc:176-183 | an up connection starts disconnecting and the close is queued |
| `Connections.TcpConnection.ForceCloseInLoop` | net/Tcp/TcpConnection.cc:196-206 | closes exactly if still up |
| `Connections.TcpConnection.HandleClose` | net/Tcp/TcpConnection.cc:358-388 | down, nothing asked for, owner told; in the kernel's table afterwards exactly if it was not before |
| `Connections.TcpConnection.HandleRead` | net/Tcp/TcpConnection.cc:297-317 | bytes go to the input buffer in order; end of stream closes; an error changes nothing |
| `Connections.TcpConnection.HandleWrite` | net/Tcp/TcpConnection.cc:318-356 | for every outcome of the write the object makes the machine's step and queues its tasks |
| `Connections.TcpConnection.Drained` | net/Tcp/TcpConnection.cc:329-340 | write interest is given up; a disconnecting connection closes |
| `Connections.TcpConnection.StopRead` | net/Tcp/TcpConnection.cc:218-226 | the object makes the machine's step and stays consistent with channel and poller |
| `Connections.TcpConnection.StartRead` | net/Tcp/TcpConnection.cc:414-422 | the object makes the machine's step and stays consistent with channel and poller |
| `Connections.TcpConnection.ConnectDestroyed` | net/Tcp/TcpConnection.cc:268-278 | afterwards the descriptor is in neither the poller's map nor the kernel's table |
| `Connections.TcpConnection.Perform` | net/Tcp/TcpConnection.cc:83-422 | every operation of the object is the machine's step and touches no other descriptor in the poller |
| `Sharing.PerformOn` | net/poller/epollpoller/EPollPoller.cc:56-101 | an operation on one of many connections of a poller is its step, and the others stay as they are |
| `Sharing.Join` | net/Tcp/TcpConnection.cc:15-36 | a new connection with a descriptor of its own joins the others |
| `Sharing.RunScript` | net/Tcp/TcpConnection.cc:83-422 | for any interleaving of operations on any connections of one poller, each ends where its own operations alone lead, with exact write interest for all |
| `ServerRuns.EraseStatus` | net/Tcp/TcpServer.cc:97-107 | out of the map, one erasure counted, one destruction queued on the io loop, nobody else concerned |
| `ServerRuns.NoticeStatus` | net/Tcp/TcpServer.cc:91-95 | the owner's part of a close: erased at once on the base loop, or one removal queued there |
| `ServerRuns.TellStatus` | net/Tcp/TcpServer.cc:91-95 | telling the owner concerns this connection only: erased with its destruction queued on the base loop, one more removal queued otherwise |
| `ServerRuns.PushTallies` | net/eventloop/EventLoop.cc:152-157 | queueing a task adds one to the count of that kind for its connection and changes the standing of no other |
| `ServerRuns.ApplyStatus` | net/Tcp/TcpConnection.cc:83-388 | an operation and what it posts change the standing of its own connection only |
| `ServerRuns.NeutralKeeps` | net/Tcp/TcpConnection.cc:83-226 | operations that do not open, close or destroy keep the invariant |
| `ServerRuns.CloseKeeps` | net/Tcp/TcpConnection.cc:358-388 | every close keeps the invariant, also of a connection that watches nothing |
| `ServerRuns.PollKeeps` | net/eventloop/EventLoop.cc:100-101 | what a clean poll reports is registered, and closing callbacks are to be made only for connections that are up, at most one each |
| `ServerRuns.ServeKeeps` | net/eventloop/EventLoop.cc:108-112 | each channel callback passes its asserts and keeps the invariant |
| `ServerRuns.SwapKeeps` | net/eventloop/EventLoop.cc:262-265 | taking the batch keeps the invariant |
| `ServerRuns.EstablishTaskKeeps` | net/Tcp/TcpConnection.cc:228-237 | the establishment finds the connection connecting |
| `ServerRuns.ForceTaskKeeps` | net/Tcp/TcpConnection.cc:196-206 | a queued forced close finds its connection still listed if it is up |
| `ServerRuns.RemoveTaskKeeps` | net/Tcp/TcpServer.cc:97-107 | the erasure finds exactly one entry |
| `ServerRuns.DestroyTaskKeeps` | net/Tcp/TcpConnection.cc:268-278 | the destruction comes after the close and finds the channel still known to the poller, its own loop serving no event |
| `ServerRuns.RunTaskKeeps` | net/eventloop/EventLoop.cc:257-272 | any queued task passes its asserts and keeps the invariant |
| `ServerRuns.UserKeeps` | net/Tcp/TcpConnection.cc:62-226 | user calls at any moment keep the invariant |
| `ServerRuns.AcceptKeeps` | net/Tcp/TcpServer.cc:63-89 | accepting keeps the invariant, on the base loop and on another |
| `ServerRuns.UnheldIsDead` | net/Tcp/TcpConnection.cc:38-42 | a connection nobody holds is down, closed, erased and destroyed once each, and in no poller: the asserts of its destructor hold |
| `ServerRuns.ReleaseKeeps` | net/channel/Channel.cc:28-36 | releasing it keeps the invariant |
| `ServerRuns.SysStepKeeps` | net/Tcp/TcpServer.cc:63-107 | every step on any loop passes all asserts, and keeps the invariant unless it is a poll with an unbearable report |
| `ServerRuns.StartsInv` | net/Tcp/TcpServer.cc:15-28 | a server without connections satisfies the invariant, for any set of loops |
| `ServerRuns.EveryCleanRunKeepsInv` | net/Tcp/TcpServer.cc:63-107 | so does every run without such polls |
| `ServerRuns.SysRunSnoc` | net/Tcp/TcpServer.cc:63-107 | a clean run extends by one event with exactly its step |
| `ServerRuns.LifeCycle` | net/Tcp/TcpServer.cc:91-107 | closed, erased and destroyed at most once each and in this order; in the map exactly until erased; known to its poller exactly from establishment to destruction; asking for nothing once closed |
| `ServerRuns.NothingDangles` | net/eventloop/EventLoop.cc:200-224 | whatever is queued or being served refers to a live connection still known to its poller |
| `ServerSteps.AcceptHereMeans` | net/Tcp/TcpServer.cc:63-89 | accepted on the base loop, a connection is listed under a new number, connected and reading at once |
| `ServerSteps.AcceptThereMeans` | net/Tcp/TcpServer.cc:63-89 | accepted on another loop, it is listed and its establishment queued there |
| `ServerSteps.PollMeans` | net/channel/Channel.cc:76-107 | after a poll exactly the callbacks that the flags ask for are still to be made; readable data will be read |
| `ServerSteps.ServeMeans` | net/eventloop/EventLoop.cc:108-112 | a callback closes, reads or writes as it should: data keeps the connection up, a write moves exactly what the kernel takes, end of stream and hang-up bring it down |
| `ServerSteps.OpenCloseTaskMeans` | net/eventloop/EventLoop.cc:257-272 | a queued establishment connects; a queued forced close brings down what is up |
| `ServerSteps.RemoveTaskMeans` | net/Tcp/TcpServer.cc:97-107 | a queued removal takes its connection out of the map and queues the destruction on the io loop |
| `ServerSteps.OtherTaskMeans` | net/Tcp/TcpConnection.cc:268-278 | a queued destruction takes the channel out of the poller; a user's task is only taken off |
| `ServerSteps.PostsAreQueued` | net/Tcp/TcpConnection.cc:112-145 | user callbacks, forced closes and notices all reach the right queue, in order, and no other |
| `ServerSteps.OperationMeans` | net/Tcp/TcpConnection.cc:83-388 | an operation takes its connection to the next state, queues its posts and leaves all others as they are |
| `ServerSteps.UserSendMeans` | net/Tcp/TcpConnection.cc:62-153 | a user's message is lost or delivered whole; nobody else changes |
| `ServerSteps.UserForceCloseMeans` | net/Tcp/TcpConnection.cc:176-183 | a user's forced close marks the connection and goes to the end of its loop's queue |
| `ServerSteps.UserSwitchMeans` | net/Tcp/TcpConnection.cc:214-226 | a user's switch of reading sets flag and interest; nobody else changes |
| `ServerSteps.ReleaseMeans` | net/Tcp/TcpConnection.cc:38-42 | the last reference gone, exactly that object is gone |
| `ServerFailures.CleanIsExact` | net/channel/Channel.cc:76-107 | from every good state the next asserts hold, and a step leads to a failing assert before anything else is polled if and only if it reports a hang-up to a connection that is down, or with priority but no readable data |
| `ServerFailures.CleanRunsNeverFail` | net/channel/Channel.cc:76-107 | a run without unbearable reports fails no assert anywhere |
| `ServerFailures.UncleanFails` | net/channel/Channel.cc:76-107 | after an unbearable report, serving the events in order fails an assert |
| `ServerFailures.EofEffect` | net/eventloop/EventLoop.cc:108-112 | a callback that meets end of stream changes its own connection only |
| `ServerFailures.UnwatchedCloseCanFail` | net/Tcp/TcpConnection.cc:358-366 | a closed connection left in the kernel's table fails the assert of `handleClose` on the next hang-up |
| `ServerFailures.StoppedReaderCanFail` | net/Tcp/TcpConnection.cc:176-226 | from every good state with an idle loop: reading stopped, nothing to write, forced close, hang-up, failure |
| `ServerFailures.HangupWithPriorityCanFail` | net/channel/Channel.cc:80-101 | from every good state with an idle loop: one report makes both closing callbacks and the second fails |
| `ServerFailures.StoppedReaderRun` | net/Tcp/TcpConnection.cc:176-226 | the same from a new server: accept, stop reading, force the close, hang up, fail |
| `ServerFailures.HangupWithPriorityRun` | net/channel/Channel.cc:80-101 | the same from a new server: accept, hang up with priority data, fail |
| `Servers.NameIsNew` | net/Tcp/TcpServer.cc:68-71 | the next connection name was never given to a live connection |
| `Servers.TcpServer.constructor` | net/Tcp/TcpServer.cc:15-28 | a new server has idle loops, no connection and 1 as the next number, and satisfies the invariant |
| `Servers.TcpServer.NewConnection` | net/Tcp/TcpServer.cc:63-89 | the object makes the system's accept step; the new name is listed and replaced nobody, and the connection is connected at once on the base loop |
| `Servers.TcpServer.RemoveConnectionInLoop` | net/Tcp/TcpServer.cc:97-107 | exactly one entry is erased and the destruction is queued |
| `Servers.TcpServer.RunRemoval` | net/Tcp/TcpServer.cc:97-107 | a queued removal finds its connection listed and makes the system's step |

## Left out

- Socket system calls, addresses and options (net/socket, net/inetaddress): only the results of reads and writes appear, as arbitrary values.
- Acceptor and its idle-descriptor trick: an accept is an environment step that supplies a new connection.
- TcpClient: blocking connect, errno dispatch and retry.
- EventLoopThread and EventLoopThreadPool: the io loop of a connection is chosen arbitrarily.
- Logger, Timestamp formatting, the double and pointer log overloads, null strings: library formatting; the 16-bit overloads convert to 32 bits first.
- Destructors of server, loop, timer queue and buffer, and calls made after a server is gone.
- Threads: the event loop and the loops of a server are interleaved steps on values, because Dafny objects have no threads; `EventLoop` and the multi-loop system are therefore not classes. The lock makes a push and a swap single steps. `looping_`, `iteration_` and entering `loop()` again after it returned are not modelled.
- Copies of a connection's `shared_ptr` kept by user code, and the batch vector that keeps its functors until it ends: both only prolong a life.
- Raw `this` in cross-thread binds of `send` and `startRead`: a message or read switch from another thread is modelled as the loop-thread call at an arbitrary later moment, while the connection lives.
- Names of connections are numbers, not text.
- Servers.TcpServer.constructor: the acceptor, the thread pool and the callbacks it also sets up are not modelled.
- LogStreams.RoundTrip: negating the signed minimum is undefined in C++; the model takes two's-complement wrap-around.
- Buffers.Buffer: `size_t` overflow is not modelled.
- Connections.TcpConnection.ConnectEstablished: the user's connection and message callbacks are not called from within; what they do to the connection is a later operation of the run.
- EventLoops.WokenLoopServes: says that the loop can do it when no other thread intervenes; fairness of scheduling is not modelled.
