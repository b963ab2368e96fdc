# Verified model of RewriteMuduo

RewriteMuduo is a reactor-style TCP library in C++: event loops over epoll that run functors posted by
other threads, connections that belong to one loop each, a server that accepts on one loop and tears
connections down across loops, timers on a timerfd, growable connection buffers, and an asynchronous
log backend. This project models that core in Dafny and proves what the code relies on.

Most parts come twice. One is a state machine over values, whose steps are the critical sections or
loop-thread methods of the source; theorems about it quantify over all schedules, all inputs and all
results of system calls, and a step whose assert fails makes the run undefined, so a theorem that a run
is defined says that no assert fails. The other is a class with the source's fields, whose methods are
proved to take exactly the steps of that machine. `dafny verify dfyconfig.toml` checks everything.

| file | models |
|---|---|
| `Teardown.dfy` | a connection's life across loops: the methods of TcpServer, TcpConnection and Channel, and what they keep true |
| `Reactor.dfy` | the loops that call them: poll, dispatch, functor batches, in every interleaving |
| `TcpServer.dfy` | the same on the heap: connection, channel and poller objects updated in place |
| `TcpConnection.dfy` | output path, half-close, high-water marks; the class uses the buffer of `ConnBuffer.dfy` |
| `TimerQueue.dfy`, `TimerQueueClass.dfy` | timers, cancellation, address reuse, the timerfd alarm |
| `AsyncLogging.dfy` | double buffering between producers and the log thread |
| `EventLoop.dfy` | pending functors and the eventfd wakeup |
| `Registration.dfy` | channels, the poller's map and the kernel's interest set |
| `ConnBuffer.dfy`, `Codec.dfy` | the growable buffer as a byte sequence, and typed integers in network order |
| `LogStream.dfy` | integer formatting into a fixed-size buffer |
| `Common.dfy` | definitions shared by the others |

## Where the code does less than it seems to

Lemmas say exactly when each property holds and show it fail otherwise.

- Closing a connection takes its descriptor out of epoll only if it was in. A connection that has
  stopped reading and has nothing to write is not; clearing its empty mask then adds it again, and a
  later hang-up reaches a closed connection, whose assert fails (`Teardown.CloseSilencesIff`,
  `Reactor.CloseAfterStopReadFails`). The same happens when a handler stops reading from a connection
  whose own hang-up is waiting in the same round of dispatch (`Reactor.StaleReportFails`), and when
  reading is started or stopped after the close (`Reactor.LateInterestIsHeard`,
  `Reactor.LateStopReadFails`). A hang-up without readable data that comes with urgent data can close
  twice (`Reactor.UrgentHangUpFails`). A schedule that does none of this is called heedful. Heedful
  schedules are exactly those in which no assert fails and no closed connection gets back into the
  kernel's reach (`Reactor.HeedfulRunIff`). Asserts alone can hold longer: reading stopped after the
  close, just before the destruction in the same batch, brings the descriptor back without failing one.
- A Shutdown called on another thread changes the state at once but shuts the write side later. If the
  buffer drains in between, the write side is shut twice; if the connection closes in between, it is shut
  with bytes left (`TcpConnection.HalfCloseIff`, `TcpConnection.ForeignShutdownShutsTwice`,
  `TcpConnection.ForeignShutdownAfterClose`). The header marks Shutdown as not thread safe
  (src/network/TcpConnection.h:49); sends from other threads are harmless.
- Reset sets the timerfd only for positive times, so timers are covered by it only as long as the clock
  is positive (`TimerQueue.ResetCoversIff`, `TimerQueue.InvalidClockLosesAlarm`).
- A log message of 1024000 bytes or more fits into no buffer and is dropped without a notice, but does
  push the current buffer out (`AsyncLogging.HeldIff`, `AsyncLogging.OversizeIsLost`).

## Model

| member | source | states |
|---|---|---|
| `Reactor.TeardownInOrder` | src/network/TcpServer.cc:57-93 | For every schedule of polls, dispatched reports (stale ones included), functor batches of all loops, accepts, and user calls that is heedful, no assert fails anywhere and the invariant holds: exactly one life-cycle functor carries each connection from place to place, it is erased from the map once, destroyed once after that on its own loop with an empty mask, no report is dispatched to a channel that is gone, and the user saw one "up" and at most one "down" |
| `Reactor.StepKeeps` | src/network/EventLoop.cc:80-107 | One heedful step of any kind, from any state that meets the invariant, fails no assert and keeps the invariant for all connections, queues, pollers and waiting reports |
| `Reactor.HeedfulIff` | src/network/TcpConnection.cc:344-357 | A step fails no assert and leaves every closed connection out of the kernel's reach if and only if it is heedful: it does not close twice, does not close a connection that is not with the kernel, and does not change the interest of a closed one |
| `Reactor.HeedfulRunIff` | src/network/TcpConnection.cc:344-357 | The same for whole schedules |
| `Reactor.WhenQuiet` | src/network/TcpServer.cc:86-93 | Once all queues are empty, a connection is either up, or it was opened, closed, erased and destroyed exactly once and is known neither to the server nor to any poller |
| `Reactor.CloseCompletes` | src/network/TcpServer.cc:80-93 | Under every heedful schedule, whatever it interleaves: a closed connection has been erased once the accepting loop has run n functors, and an erased one destroyed once its own loop has run n, for an n fixed at the beginning |
| `Reactor.ReachesFunctor` | src/network/EventLoop.cc:204-217 | A functor at position i of a queue waits at position i - n after its loop has run n <= i functors, and has done its work for good after more, under every heedful schedule: established, closed, erased or destroyed its connection |
| `Reactor.LoopGoesOn` | src/network/EventLoop.cc:80-107 | In a state that meets the invariant no loop is stuck: the next poll, dispatch, swap or functor is possible |
| `Reactor.KernelWatchesOutput` | src/network/TcpConnection.cc:112-173 | Under every heedful schedule, until a connection is down: the kernel watches its descriptor for EPOLLOUT if and only if bytes are waiting in its output buffer |
| `Reactor.KernelWatchesInput` | src/network/TcpConnection.cc:241-274 | Under every heedful schedule, while a connection is up: the kernel watches its descriptor for readable and for urgent data if and only if reading is not stopped, whatever is waiting to be written |
| `Reactor.PausedIff` | src/network/TcpConnection.cc:241-263 | Reading is stopped by StopRead alone, and until StartRead |
| `Reactor.BytesKept` | src/network/TcpConnection.cc:112-173 | Until a connection is down, the bytes that wait and those that go to the kernel are those that waited and those that were sent; no event changes the count of another connection |
| `Reactor.Leaves` | src/network/TcpConnection.cc:176-200 | Shutdown and ForceClose change the state of one connection at once; only a forced close of an open one queues a functor, last and on its own loop |
| `Reactor.ForceCloseCloses` | src/network/TcpConnection.cc:193-208 | Under every heedful schedule an open connection that is forced to close is down once its loop has run n functors, for an n fixed at the beginning |
| `Reactor.Accepts` | src/network/TcpServer.cc:57-77 | The new connection has the descriptor and the loop that were chosen, is up at once on the accepting loop only, and no other connection changes |
| `Reactor.PhaseIs` | src/network/EventLoop.cc:80-107 | Only its own events move a loop: a poll to the reports returned, a dispatch by one report, the swap to as many functors as are queued, a turn by one |
| `Reactor.RoundIsComplete` | src/network/EventLoop.cc:204-217 | Under every heedful schedule, between the swap and the next poll a loop runs exactly as many functors as were queued at the swap |
| `Reactor.ThinnedRuns` | src/network/EventLoop.cc:80-107 | Leaving out the events that are not possible when their turn comes changes neither where a schedule leads nor whether it is heedful |
| `Reactor.FunctorIsUnreported` | src/network/EventLoop.cc:165-174 | No report waits for the connection of a functor that is run, so the assert of RemoveChannel about the active channels holds |
| `Reactor.ReportedIsLive` | src/network/EventLoop.cc:87-100 | What a poll can report names an existing channel of a connection that is up and registered |
| `Reactor.EventCloses` | src/network/Channel.cc:53-81 | Handling an event closes as often as its bits and the read say: not at all, once, or, failing an assert, twice; each case is spelled out in the bits |
| `Reactor.HeardIsFatal` | src/network/TcpConnection.cc:344-357 | A closed connection that the kernel can still report leads to a failed assert at the next poll of its loop |
| `Reactor.CloseAfterStopReadFails` | src/network/TcpConnection.cc:253-263 | A failing schedule from every state with an idle accepting loop: accept, stop reading, force a close, hang-up |
| `Reactor.StaleReportFails` | src/network/EventLoop.cc:87-100 | A failing schedule from every state with two idle loops: a hang-up is reported, a handler dispatched before it stops reading from that connection, and the close adds it to epoll again |
| `Reactor.LateStopReadFails` | src/network/TcpConnection.cc:253-263 | A failing schedule from every state with two idle loops: reading is stopped between the close and the destruction |
| `Reactor.UrgentHangUpFails` | src/network/Channel.cc:53-81 | A failing schedule from every state with an idle accepting loop: a hang-up with urgent data, nothing to read, and end of file |
| `Reactor.FailuresFromTheStart` | src/network/TcpServer.cc:44-52 | All four from the start of a server with two loops |
| `Reactor.LateInterestIsHeard` | src/network/TcpConnection.cc:241-263 | StartRead on a closed connection, and StopRead unless reading had been stopped before, put it back into the kernel's set |
| `Teardown.EstablishFunctor` | src/network/TcpConnection.cc:266-274 | Running a queued ConnectEstablished: the connection is still connecting, registration succeeds, invariant kept |
| `Teardown.RemoveFunctor` | src/network/TcpServer.cc:86-93 | Running a queued RemoveConnectionInLoop: the name is in the map, so the erase count is one; invariant kept |
| `Teardown.DestroyFunctor` | src/network/TcpConnection.cc:278-290 | Running a queued ConnectDestroyed: the mask is empty and the channel is mapped, so its removal is legal; invariant kept |
| `Teardown.ForceCloseFunctor` | src/network/TcpConnection.cc:202-208 | Running a queued ForceCloseInLoop on a connection in any state keeps the invariant, provided that an open connection is with the kernel |
| `Teardown.CloseKeeps` | src/network/TcpConnection.cc:344-357 | HandleClose on an open connection that is with the kernel fails no assert and keeps the invariant, on the accepting loop and on others |
| `Teardown.AcceptKeeps` | src/network/TcpServer.cc:57-77 | A new connection, established at once or through its loop's queue, keeps the invariant |
| `Teardown.HeadAsserts` | src/network/TcpConnection.cc:266-290 | What the method of a queued functor asserts about its connection is so when its turn comes |
| `Teardown.CloseSilencesIff` | src/network/TcpConnection.cc:344-357 | After HandleClose the descriptor is with the kernel if and only if it was not before |
| `Teardown.LateInterest` | src/network/TcpConnection.cc:241-263 | Any change of interest of a closed connection adds it to the kernel's set |
| `TcpServer.NamesApply` | src/network/Epoll.cc:98-153 | What is done to a channel object is, under the name of its connection, the same operation on the poller of names |
| `TcpServer.Server.FreshIsValid` | src/network/TcpServer.cc:19-23 | A server just made, with idle loops, stands for the start state |
| `TcpServer.Server.Watch` | src/network/Channel.cc:30-39 | A mask operation or removal of one channel object is that operation on the abstract poller, and no other loop's poller or channel is disturbed |
| `TcpServer.Server.Create` | src/network/TcpServer.cc:57-77 | Objects for a connection and its channel come into being; the abstract world gains exactly that connection |
| `TcpServer.Server.NewConnection` | src/network/TcpServer.cc:57-77 | On the objects, the accepted connection of the protocol, established at once on the accepting loop and queued for any other; reading flags and output buffers of the others are as before |
| `TcpServer.Server.RemoveConnectionInLoop` | src/network/TcpServer.cc:86-93 | Given the erase finds the name: on the objects, the protocol's removal |
| `TcpServer.Server.ConnectEstablished` | src/network/TcpConnection.cc:266-274 | Given the source's assert: connection object, channel object, poller and kernel set change as one abstract step |
| `TcpServer.Server.HandleClose` | src/network/TcpConnection.cc:344-357 | Given the source's assert: likewise, with the removal started |
| `TcpServer.Server.ConnectDestroyed` | src/network/TcpConnection.cc:278-290 | Given the asserts of Channel::remove: the channel object leaves the poller and is deleted, and no other object changes |
| `TcpServer.Server.StartReadInLoop` | src/network/TcpConnection.cc:245-251 | The flag, the channel object and the poller change as one abstract step, or nothing does |
| `TcpServer.Server.StopReadInLoop` | src/network/TcpConnection.cc:257-263 | Likewise |
| `TcpServer.Server.SendInLoop` | src/network/TcpConnection.cc:112-173 | Backlog, channel object, poller and kernel set change as the abstract step says: nothing on a closed connection; what the direct write leaves is buffered, and write interest goes on unless it is on |
| `TcpServer.Server.HandleWrite` | src/network/TcpConnection.cc:310-342 | The backlog shrinks, and write interest goes off in channel, poller and kernel when it is gone |
| `TcpServer.Server.ForceClose` | src/network/TcpConnection.cc:193-200 | An open connection starts to disconnect and its functor is queued on its own loop; any other is left alone |
| `TcpServer.Server.Shutdown` | src/network/TcpConnection.cc:176-183 | The state half: a connected one starts to disconnect, and nothing else changes |
| `TcpServer.Server.HandleEvent` | src/network/Channel.cc:53-81 | Close callback, then read callback, for an event that closes at most once |
| `TcpServer.Server.RunNextFunctor` | src/network/EventLoop.cc:204-217 | From a state that meets the invariant, a heedful turn meets every precondition of the methods it calls, that is, every assert of the source; it is the step of the machine, and the invariant holds again |
| `TcpServer.Server.DispatchNext` | src/network/EventLoop.cc:87-100 | The same for the next report of a poll, stale or not |
| `TcpServer.Server.Accept` | src/network/TcpServer.cc:57-77 | The same for a new connection |
| `TcpServer.Server.Poll` | src/network/Epoll.cc:38-76 | What epoll_wait returns about channel objects, through FillActiveChannels, is a possible poll of the machine with the events of each channel in order, and the step it takes; every revents_ is what the kernel reported |
| `TcpServer.Server.TakePending` | src/network/EventLoop.cc:204-211 | The swap: the loop takes the functors queued by then, and later ones wait for the next round |
| `TcpServer.Server.Perform` | src/network/EventLoop.cc:80-107 | Any possible heedful event from any state that meets the invariant: the step of the machine on the objects, and the invariant again |
| `TcpServer.Server.Serve` | src/network/EventLoop.cc:80-107 | A whole schedule of possible events: every precondition on the way is met, and the objects end as the state the schedule leads to |
| `TcpServer.RunServer` | src/network/TcpServer.cc:19-52 | From the constructor on, with any set of loops and every heedful schedule: no assert fails, and the view of the server is exactly the state that the schedule leads to from the start |
| `TcpConnection.OutputConserved` | src/network/TcpConnection.cc:112-173 | At every point of every schedule of calls on any thread: bytes taken by the kernel followed by the output buffer are the accepted messages in order; while not disconnected, write interest is on exactly when the buffer is nonempty; every write-complete was queued with all accepted bytes written |
| `TcpConnection.NextKeeps` | src/network/TcpConnection.cc:310-342 | The same for one event of any kind, enabled or not |
| `TcpConnection.DroppedWhole` | src/network/TcpConnection.cc:112-173 | A message is dropped, and then changes nothing at all, exactly when disconnected or when the direct write meets a broken connection; otherwise it is accepted whole |
| `TcpConnection.AcceptedIff` | src/network/TcpConnection.cc:74-125 | For every event: a message that reaches the loop is accepted, whole and behind all others, unless nothing waits in front of it and the peer is gone; nothing else is accepted |
| `TcpConnection.KernelGets` | src/network/TcpConnection.cc:120-149 | For every event: the kernel gets exactly as many of the bytes offered as the write returned; a message is offered straight away only if none waits |
| `TcpConnection.WriteCompleteIff` | src/network/TcpConnection.cc:134-137 | For every event: write-complete is queued, once, if and only if it was asked for and a write takes all there is to write, a whole message or all that waits; every accepted byte is then with the kernel |
| `TcpConnection.LifeIff` | src/network/TcpConnection.cc:176-208 | For every event: which states a connection can come from and go to, and that nothing else changes the settings |
| `TcpConnection.PostedInOrder` | src/network/TcpConnection.cc:74-109 | For every schedule: what other threads hand over while the connection is up reaches the loop in this order, each once, and nothing else does |
| `TcpConnection.HalfCloseIff` | src/network/TcpConnection.cc:176-191 | For calls on any thread: up to any point of a schedule the write side is shut at most once, only with every accepted byte written, and nothing is accepted or written afterwards, if and only if every posted shutdown that ran found the connection writing, or not yet shut and with an empty buffer |
| `TcpConnection.HalfCloseAfterDrain` | src/network/TcpConnection.cc:176-191 | So it holds for every schedule, with sends from any thread, in which Shutdown is called on the loop thread |
| `TcpConnection.ShutsIff` | src/network/TcpConnection.cc:176-191 | For every event: the write side is shut, once, by a loop-thread Shutdown that finds nothing waiting, a posted one that finds nothing being written, or a drain while disconnecting, and by nothing else |
| `TcpConnection.ShutdownShutsIff` | src/network/TcpConnection.cc:176-191 | A loop-thread Shutdown of a connected connection shuts the write side at once, with every accepted byte written, if and only if no byte waits |
| `TcpConnection.ShutdownTakesEffect` | src/network/TcpConnection.cc:176-191 | For every careful schedule: after a loop-thread Shutdown that took effect, with no close since, the write side is not shut while bytes wait and has been shut exactly once when none does |
| `TcpConnection.DrainShuts` | src/network/TcpConnection.cc:310-330 | A deferred half-close happens when the buffer drains, with every accepted byte written |
| `TcpConnection.DrainThenPosted` | src/network/TcpConnection.cc:176-191 | A posted shutdown that is still waiting when the buffer drains shuts the write side a second time |
| `TcpConnection.ForeignShutdownShutsTwice` | src/network/TcpConnection.cc:176-191 | That in a run from a new connection |
| `TcpConnection.ForeignShutdownAfterClose` | src/network/TcpConnection.cc:176-191 | A run in which a posted shutdown shuts the write side with a byte left in the buffer, because the connection was closed before |
| `TcpConnection.HighWaterIsCrossing` | src/network/TcpConnection.cc:153-173 | A high-water notification is queued if and only if the event takes the backlog from below the mark to the mark or above, and it reports the new backlog |
| `TcpConnection.HighWaterSpacing` | src/network/TcpConnection.cc:153-173 | Between two notifications for one mark the backlog was below the mark |
| `TcpConnection.Connection.constructor` | src/network/TcpConnection.cc:24-48 | A connecting connection with an empty output buffer and the default mark |
| `TcpConnection.Connection.DoSendInLoop` | src/network/TcpConnection.cc:112-173 | On a real output buffer: direct write, error cases, completion callback, buffering of the rest |
| `TcpConnection.Connection.Send` | src/network/TcpConnection.cc:74-88 | When connected, sends on the loop thread and posts a copy from another |
| `TcpConnection.Connection.RunNextPosted` | src/network/TcpConnection.cc:107-109 | The loop runs the next posted send or shutdown |
| `TcpConnection.Connection.HandleWrite` | src/network/TcpConnection.cc:310-342 | Writes from the buffer, and on draining it stops writing, queues completion and performs a deferred half-close |
| `TcpConnection.Connection.ShutdownInLoop` | src/network/TcpConnection.cc:185-191 | Shuts only when nothing is being written |
| `TcpConnection.Connection.Shutdown` | src/network/TcpConnection.cc:176-183 | A connected one starts to disconnect at once; the shutdown is done on the loop thread and posted from another |
| `TcpConnection.Connection.HandleClose` | src/network/TcpConnection.cc:344-357 | Disconnected and no write interest |
| `TimerQueue.TimersOwned` | src/network/TimerQueue.cc:92-200 | In every state of every run, callbacks that add and cancel included: timers_ and activeTimers_ describe the same timers through their current expirations, every timer ever made is in exactly one of pending insertion, queued, current batch or freed, and no address in use is freed twice or dangling |
| `TimerQueue.NextKeeps` | src/network/TimerQueue.cc:92-200 | The same for one event |
| `TimerQueue.AssertsHold` | src/network/TimerQueue.cc:101-200 | What the source asserts, at every event: both indexes have the same size, an insertion is new to both, a cancelled or expired timer is found in both, everything due is taken and nothing else, the batch names live timers, each once, and every insertion that Reset makes on the way is new to both indexes and finds them of equal size |
| `TimerQueue.ResetAssertsHold` | src/network/TimerQueue.cc:154-168 | The asserts of Insert at any point of the loop of Reset |
| `TimerQueue.Fate` | src/network/TimerQueue.cc:101-168 | For every event and timer: deleted exactly by a cancel that names it while queued or by Reset when it does not repeat or was cancelled; restarted exactly by Reset, at the clock reading of the batch plus its interval; otherwise unchanged |
| `TimerQueue.FateOfPlace` | src/network/TimerQueue.cc:92-168 | For every event and timer: when it enters and leaves the queue and the batch |
| `TimerQueue.DeltaTruncates` | src/unix/Time.h:95-98 | The interval in microseconds, cut to a whole number |
| `TimerQueue.Recorded` | src/network/TimerQueue.cc:81-133 | A new timer has the time and interval asked for; a cancel is noted only while callbacks run and forgotten when the next batch begins |
| `TimerQueue.BatchRunsOnce` | src/network/TimerQueue.cc:117-133 | Whatever callbacks add and cancel, a batch runs every timer in it once, in order, with its clock reading, and no other |
| `TimerQueue.BatchIsDue` | src/network/TimerQueue.cc:135-152 | A batch is exactly the queued timers that are due, in order |
| `TimerQueue.TimersDisciplined` | src/network/TimerQueue.cc:117-167 | For any clock: no timer runs early; two runs of one timer are runs of a repeating one, in different batches and at least its interval apart; the runs of one batch follow the order of expirations |
| `TimerQueue.CancelIsFinal` | src/network/TimerQueue.cc:101-133 | After CancelInLoop for an inserted timer, every later run of that timer in every continuation is the one already due in the current batch |
| `TimerQueue.CancelledNeverRunsLater` | src/network/TimerQueue.cc:154-167 | A doomed timer never runs in another batch |
| `TimerQueue.DoomedForGood` | src/network/TimerQueue.cc:154-167 | A cancelled timer stays cancelled through every event and is gone when the next batch begins |
| `TimerQueue.StaleCancelIsHarmless` | src/network/TimerQueue.cc:101-115 | A timer id whose sequence number is not that of the timer now at the address neither cancels, nor moves, nor suppresses that timer |
| `TimerQueue.AlarmCovers` | src/network/TimerQueue.cc:154-200 | With positive clock readings, outside the callbacks every queued timer is covered by the armed or unread timerfd, across all adds, cancels and batches, for expirations of any value |
| `TimerQueue.ResetCoversIff` | src/network/TimerQueue.cc:154-176 | Reset leaves the queue covered if and only if it is empty, its earliest expiration is positive, or the alarm covers it already |
| `TimerQueue.ResetArms` | src/network/TimerQueue.cc:154-176 | Reset arms the timerfd for the expiration of a queued timer that no queued timer precedes, and for nothing earlier; with no timer, or one that is not positive, it leaves the timerfd alone |
| `TimerQueue.AlarmOtherwise` | src/network/TimerQueue.cc:92-126 | An insertion arms it exactly when the new timer comes before all others; no other event arms it, and reading it disarms it |
| `TimerQueue.InvalidClockLosesAlarm` | src/network/TimerQueue.cc:170-175 | A run from the start, with the clock at -5, after which a repeating timer is queued and the timerfd is disarmed |
| `TimerQueue.HowMuchTimeFromNow` | src/network/TimerQueue.cc:18-30 | The delay is normalised, never zero, at least 100 microseconds, never too early, and exact from 100 microseconds on |
| `TimerQueue.ResetTimerfd` | src/network/TimerQueue.cc:43-54 | timerfd_settime, for which a zero delay would disarm, arms the alarm at every expiration and every clock reading |
| `TimerQueueClass.Queue.AddTimer` | src/network/TimerQueue.cc:81-86 | A new timer with the next sequence number, and its id |
| `TimerQueueClass.Queue.Insert` | src/network/TimerQueue.cc:178-200 | Given the asserts of the source: enters the timer into both indexes, which stay of equal size, and says whether it comes first |
| `TimerQueueClass.Queue.ResetTimerfd` | src/network/TimerQueue.cc:43-54 | Armed, whatever the clock reads |
| `TimerQueueClass.Queue.AddTimerInLoop` | src/network/TimerQueue.cc:92-99 | Inserted, and the alarm reset when it is the earliest |
| `TimerQueueClass.Queue.CancelInLoop` | src/network/TimerQueue.cc:101-115 | Taken from both indexes and freed, or noted while callbacks run |
| `TimerQueueClass.Queue.GetExpired` | src/network/TimerQueue.cc:135-152 | Returns exactly the timers due, each once and in order, and takes exactly these from both indexes |
| `TimerQueueClass.Queue.RestartOrDelete` | src/network/TimerQueue.cc:156-168 | A repeating timer that was not cancelled is restarted and inserted; any other is freed |
| `TimerQueueClass.Queue.Reset` | src/network/TimerQueue.cc:154-176 | The whole batch is restarted or freed and the alarm set for the earliest timer |
| `TimerQueueClass.Queue.HandleRead` | src/network/TimerQueue.cc:117-133 | With arbitrary adds and cancels made inside every callback: runs exactly the expired timers, each once and in order, and what it did is a run of the events above, so all theorems about runs apply |
| `TimerQueueClass.FirstOf` | src/network/TimerQueue.cc:170-175 | The first entry in the order of timers_ |
| `AsyncLogging.EveryScheduleIsSafe` | src/log/AsynLogBackend.cc:52-108 | Under every schedule of producers and backend, every assert of the backend holds and the invariant is kept, overload and resize(2) included |
| `AsyncLogging.SparesKept` | src/log/AsynLogBackend.cc:29-106 | The whereabouts of the spares alone imply the asserts and are kept by every step |
| `AsyncLogging.Conservation` | src/log/AsynLogBackend.cc:22-108 | At every point of every schedule in which no batch exceeds 25 buffers: file, unwritten buffers, full buffers and current buffer together are the accepted messages in order, and no message is torn |
| `AsyncLogging.LossIsExact` | src/log/AsynLogBackend.cc:74-85 | Between batches the file holds the first two buffers of every oversize batch and all of any other, with one notice per oversize batch naming the number of buffers lost |
| `AsyncLogging.FileIsSubsequence` | src/log/AsynLogBackend.cc:74-85 | Always, the messages in the file are some of the accepted ones, whole and in order |
| `AsyncLogging.HeldIff` | src/log/AsynLogBackend.cc:22-40 | Append adds a message to what the shared buffers hold if and only if it is shorter than 1024000 bytes; a longer one is lost and still moves the current buffer out |
| `AsyncLogging.MovedOutIff` | src/log/AsynLogBackend.cc:22-40 | The current buffer is moved out if and only if the message does not fit behind what it holds; then the message begins the next buffer |
| `AsyncLogging.TakeTakesAll` | src/log/AsynLogBackend.cc:57-70 | One critical section of the backend takes every message handed over and leaves an empty buffer and a spare |
| `AsyncLogging.OversizeIsLost` | src/log/AsynLogBackend.cc:22-40 | A run with such a message |
| `AsyncLogging.AsyncLogging.constructor` | src/log/AsynLogBackend.cc:14-20 | The start state, no messages |
| `AsyncLogging.AsyncLogging.Append` | src/log/AsynLogBackend.cc:22-40 | One Append step |
| `AsyncLogging.AsyncLogging.TakeBuffers` | src/log/AsynLogBackend.cc:57-70 | One critical section of the backend |
| `AsyncLogging.AsyncLogging.ShedOverload` | src/log/AsynLogBackend.cc:74-80 | Cuts an oversize batch to two buffers and writes the notice |
| `AsyncLogging.AsyncLogging.WriteBuffers` | src/log/AsynLogBackend.cc:82-85 | Writes exactly the buffers of the batch, in order, while producers go on appending |
| `AsyncLogging.AsyncLogging.Restock` | src/log/AsynLogBackend.cc:87-106 | Refills the missing spares from the back of the batch, which always suffices |
| `AsyncLogging.AsyncLogging.RecycleBuffers` | src/log/AsynLogBackend.cc:87-107 | The last step of a round |
| `AsyncLogging.AsyncLogging.ThreadFunction` | src/log/AsynLogBackend.cc:42-110 | After any number of rounds with arbitrary interleaved appends, the file holds what is to be kept of every batch and one notice per loss, and batches, full buffers and current buffer are all accepted messages |
| `EventLoop.NoLostWakeup` | src/network/EventLoop.cc:80-107 | From an empty queue, under every interleaving: when the loop polls with functors pending, the eventfd is readable or an enqueuer is between its push and its wakeup |
| `EventLoop.FirstInFirstOut` | src/network/EventLoop.cc:127-136 | Executed functors, rest of the batch and pending functors are always the enqueue history in order, so each runs at most once |
| `EventLoop.BatchIsFixed` | src/network/EventLoop.cc:204-217 | While a batch runs, what has run and what is left of it are fixed, so functors that queue themselves cannot prolong it |
| `EventLoop.ReadableIffWritten` | src/network/EventLoop.cc:188-202 | In every interleaving the counter of the eventfd is the number of writes since the loop last read it, so the loop polls with a readable eventfd only if someone has written since |
| `EventLoop.RunKeeps` | src/network/EventLoop.cc:188-217 | The invariant behind these holds in every reachable state |
| `EventLoop.Loop.Wakeup` | src/network/EventLoop.cc:188-194 | Adds one to the counter, or leaves it at its maximum; the eventfd is readable afterwards |
| `EventLoop.Loop.HandleWakeUp` | src/network/EventLoop.cc:196-202 | The counter is zero afterwards, and nothing else changes |
| `EventLoop.Loop.QueueInLoop` | src/network/EventLoop.cc:127-136 | Appends, and wakes up from another thread or while functors run |
| `EventLoop.Loop.DoPendingFunctors` | src/network/EventLoop.cc:204-217 | Runs exactly the functors pending at the swap, in order; all that is queued meanwhile stays pending, and then the eventfd is readable; with nothing queued it is as it was |
| `EventLoop.Loop.Poll` | src/network/EventLoop.cc:87-90 | What other threads queue while the loop polls is appended in order and leaves the eventfd readable; the steps taken are a run of the machine |
| `EventLoop.Loop.HandleEvents` | src/network/EventLoop.cc:94-101 | The handlers, with the eventfd read if it was reported, make a run of the steps above |
| `EventLoop.Loop.Iterate` | src/network/EventLoop.cc:87-103 | One round runs, in this order, all that was pending, all that other threads queued during poll and all that the handlers queued; what functors queue stays pending with the eventfd readable; after a round that read the eventfd and queued nothing since, it is not readable |
| `EventLoop.Loop.RunLoop` | src/network/EventLoop.cc:80-107 | Any number of rounds from the constructor on is a run of the steps above, so all theorems about runs apply; after one round all that was pending before has run, in order |
| `EventLoop.Loop.RunBatch` | src/network/EventLoop.cc:212-215 | The loop over the batch |
| `Registration.RunMirrors` | src/network/Epoll.cc:98-153 | After any legal sequence of operations on channels with distinct descriptors: Added means in the kernel with the current mask, Deleted means mapped, no events and not in the kernel, New means unmapped; and every assert holds and no epoll_ctl request is refused |
| `Registration.ApplyKeeps` | src/network/Epoll.cc:98-153 | The same for one operation |
| `Registration.ReportableIsMapped` | src/network/Epoll.cc:62-76 | Whatever the kernel can report names a live, mapped, added channel with that descriptor and mask |
| `Registration.DisableAllSilences` | src/network/Channel.h:55-58 | Disabling a channel that is with the kernel takes it out and makes its removal legal |
| `Registration.UpdateAfterDisableAllAddsAgain` | src/network/Epoll.cc:102-118 | A further update of a deleted channel adds it to the kernel again, even with an empty mask |
| `Registration.ReadsIff` | src/network/Channel.h:39-58 | For any mask: reading is on after EnableReading, with both read bits, off after DisableReading, and as it was after a change of writing |
| `Registration.WriteBit` | src/network/Channel.h:39-58 | Likewise for writing |
| `Registration.NothingElse` | src/network/Channel.h:39-58 | No change of interest touches any other bit |
| `Registration.Channel.SetEvents` | src/network/Channel.h:39-58 | The new mask is stored and passed on; the records agree again |
| `Registration.Epoll.Update` | src/network/Epoll.cc:78-96 | One accepted epoll_ctl request |
| `Registration.Epoll.UpdateChannel` | src/network/Epoll.cc:98-135 | The ADD, MOD or DEL that index and mask call for; records agree again |
| `Registration.Epoll.RemoveChannel` | src/network/Epoll.cc:137-153 | Unmapped, out of the kernel, New |
| `Registration.Epoll.NewChannel` | src/network/Channel.cc:15-15 | A channel on a descriptor no other live channel has; poller and kernel do not know it yet |
| `Registration.Epoll.DeleteChannel` | src/network/Channel.cc:17-23 | The channel is gone; the poller did not have it |
| `Registration.Channel.Remove` | src/network/Channel.cc:35-39 | With an empty mask, the channel leaves map and kernel set |
| `Registration.Epoll.FillActiveChannels` | src/network/Epoll.cc:62-76 | Lists the reported channels in order, each of them mapped and with the events that the kernel reported for it; nothing else changes |
| `ConnBuffer.RunRefines` | src/file/ConnBuffer.h:78-167 | Every run of legal operations acts on the readable bytes as the plain sequence operations do, and keeps reader <= writer <= size and size >= 8 |
| `ConnBuffer.ApplyRefines` | src/file/ConnBuffer.h:286-334 | The same for one operation |
| `ConnBuffer.MakeSpaceOk` | src/file/ConnBuffer.h:320-334 | Making space keeps the readable bytes and makes enough room; when it compacts, the reader is beyond the prepend area, also after prepends |
| `ConnBuffer.RunBounded` | src/file/ConnBuffer.h:144-149 | Without Shrink, if every request has readable + len <= M and len <= L, the storage never exceeds max(initial, M + L + 7) |
| `ConnBuffer.GrowthBounded` | src/file/ConnBuffer.h:320-334 | What one request can cost |
| `ConnBuffer.StorageIs` | src/file/ConnBuffer.h:293-334 | The size of the vector after every operation: it grows only when the free bytes on both sides do not suffice, and then to the end of what was asked for; Shrink gives back all but what data and reserve need |
| `ConnBuffer.RoomIs` | src/file/ConnBuffer.h:78-114 | The room asked for is there; a buffer read to its end starts at the front again |
| `ConnBuffer.RunKeepsCheapPrepend` | src/file/ConnBuffer.h:286-334 | Without Prepend the 8 bytes in front stay free |
| `ConnBuffer.ReadInOk` | src/file/ConnBuffer.cc:12-40 | A scatter read appends all bytes read, whether or not they fit |
| `ConnBuffer.CopyLeft` | src/file/ConnBuffer.h:325-333 | The overlapping left copy moves the bytes unharmed and touches nothing else |
| `ConnBuffer.Buffer.MakeSpace` | src/file/ConnBuffer.h:320-334 | Same readable bytes, enough room |
| `ConnBuffer.Buffer.EnsureWritableBytes` | src/file/ConnBuffer.h:144-149 | Same readable bytes, enough room |
| `ConnBuffer.Buffer.Append` | src/file/ConnBuffer.h:134-138 | Readable bytes extended at the end |
| `ConnBuffer.Buffer.Prepend` | src/file/ConnBuffer.h:286-291 | Readable bytes extended in front, storage kept |
| `ConnBuffer.Buffer.Retrieve` | src/file/ConnBuffer.h:78-86 | Readable bytes without the first len |
| `ConnBuffer.Buffer.RetrieveAll` | src/file/ConnBuffer.h:110-113 | No readable bytes |
| `ConnBuffer.Buffer.Unwrite` | src/file/ConnBuffer.h:164-167 | Readable bytes without the last len |
| `ConnBuffer.Buffer.Shrink` | src/file/ConnBuffer.h:293-299 | Same readable bytes in fresh storage |
| `ConnBuffer.Buffer.ReadFd` | src/file/ConnBuffer.cc:12-40 | Count and bytes of the read, or -1 and errno with nothing changed |
| `Codec.TypedQueue` | src/file/ConnBuffer.h:172-262 | For any mix of typed appends, typed reads, space requests and shrinks, on hosts of either byte order: the values read followed by those left are the values appended, in order |
| `Codec.WireIsBigEndian` | src/network/Endian.h:7-17 | On either kind of host the bytes appended are the big-endian two's complement of the value |
| `Codec.WireByte` | src/network/Endian.h:7-17 | Byte i on the wire, on either kind of host and for negative values too, is the digit of the value at place n - 1 - i in base 256 |
| `Codec.PeekInvertsWire` | src/file/ConnBuffer.h:230-262 | Reading on any host undoes writing on any host, for all widths and values |
| `Codec.PrependThenRead` | src/file/ConnBuffer.h:264-291 | A prepended integer is read first and leaves the body untouched |
| `Codec.BigRoundTrip` | src/network/Endian.h:7-17 | Decoding undoes encoding |
| `Codec.BigBytes` | src/network/Endian.h:7-17 | Encoding undoes decoding |
| `Codec.PeekedIsBigEndian` | src/file/ConnBuffer.h:230-262 | On either kind of host the value read is the big-endian two's complement reading of the bytes |
| `Codec.AppendInt` | src/file/ConnBuffer.h:172-193 | Big-endian bytes at the end of the readable bytes |
| `Codec.PeekInt` | src/file/ConnBuffer.h:230-260 | The big-endian two's complement reading of the first bytes, on any host |
| `Codec.ReadInt` | src/file/ConnBuffer.h:198-225 | The same value, and its bytes consumed |
| `Codec.PrependInt` | src/file/ConnBuffer.h:264-285 | Big-endian bytes in front of the readable bytes |
| `LogStream.CanonicalIff` | src/log/LogStream.cc:16-33 | A string is the text Convert writes for v if and only if it is canonical, without leading zeros or a negative zero, and parses to v |
| `LogStream.HexIff` | src/log/LogStream.cc:34-48 | The same for hexadecimal |
| `LogStream.NumeralMeans` | src/log/LogStream.cc:16-33 | The digits are canonical and parse to the number |
| `LogStream.NumeralUnique` | src/log/LogStream.cc:16-33 | Only one canonical string parses to a number |
| `LogStream.FitsInTwenty` | src/log/LogStream.cc:16-33 | At most 20 characters for every 64-bit value, signed or unsigned |
| `LogStream.HexFitsInSixteen` | src/log/LogStream.cc:34-48 | At most 16 digits |
| `LogStream.Tables` | src/log/LogStream.cc:9-14 | Both digit tables, the decimal one also for negative remainders |
| `LogStream.ReverseInPlace` | src/log/LogStream.cc:16-33 | Reverses a range of the array and touches nothing else |
| `LogStream.WriteDigits` | src/log/LogStream.cc:16-33 | The do-while loop with truncated division writes the numeral backwards, for the least value too |
| `LogStream.Convert` | src/log/LogStream.cc:16-33 | The text of the value and a NUL, and nothing else is written |
| `LogStream.ConvertHex` | src/log/LogStream.cc:34-48 | The hexadecimal numeral and a NUL, and nothing else is written |
| `LogStream.SizedBuffer.Append` | src/file/Buffer.h:17-24 | The whole string or nothing |
| `LogStream.SizedBuffer.Reset` | src/file/Buffer.h:43-45 | Empty |
| `LogStream.SizedBuffer.FormatInteger` | src/log/LogStream.cc:181-186 | The text appended if 48 bytes are free, nothing otherwise; never past the end |
| `LogStream.SizedBuffer.FormatPointer` | src/log/LogStream.cc:218-228 | 0x and the numeral appended if 48 bytes are free, nothing otherwise; never past the end |

## Left out

- System calls (sockets, epoll_wait, eventfd, timerfd, files, clocks): each is a parameter with any
  result the kernel may give; the kernel's own state is modelled only as far as the properties need it.
- TcpServer.Server.RunNextFunctor: all threads act on one server object, one step at a time; threads are the
  interleavings of `Reactor`, and data races on non-atomic fields such as `state_` are not modelled.
- TcpServer's destructor, which can reach ConnectDestroyed in the disconnecting state.
- Reactor.TeardownInOrder: the bytes themselves are in `TcpConnection`; here an output buffer is the number of
  its bytes, a direct write that meets a broken connection counts as taking all, HandleWrite may come at any
  time and not only when EPOLLOUT is dispatched, and StartRead and StopRead are what their loop-thread halves
  do. Reference counts are not modelled: the channel is deleted when ConnectDestroyed ends, and a user who
  keeps the connection longer is not considered.
- Cancelling a timer whose insertion is still queued: the code promises nothing for it.
- Timer intervals are real numbers, not doubles, and 64-bit overflow of times is not modelled.
- TimerQueue.AlarmCovers: says that the alarm is set early enough, not that the kernel delivers it in time.
- Functors queued on the loop thread before Loop starts, for which no wakeup is issued.
- EventLoop.Loop.DoPendingFunctors: what a running functor does is reduced to the functors it queues.
- The growth of the poller's event list, and priorities among active channels.
- Draining at AsyncLogging's Stop: the loop may end with messages in the current buffer.
- AsyncLogging.AsyncLogging.ThreadFunction: a bounded number of rounds instead of a running flag; timestamps in notices are not modelled.
- Swap, FindCrlf, FindEol and the string conversions of the connection buffer: easy members.
- FormatSi, FormatIec, double output and Duration, which depend on floating-point rounding and snprintf.
- LogFile, File, Logger, Thread, LoopThread, LoopThreadPool, Acceptor, Socket, NetAddress: wrappers.
- Connector and the http directory.
