# Verified models of a reactor library

A muduo-style event-driven networking library in C++ and the utility layer under it, modelled in Dafny, with
proofs about the parts whose correctness is not obvious from one function. `dafny verify dfyconfig.toml` checks
all of it.

| module | models | main results |
|---|---|---|
| `CivilDate` | day numbers, breaking seconds into dates | inverse conversions, counting from 1970, exact 32-bit range |
| `TimeZone` | UTC to local time and back through a transition table | exactly which seconds come back, for each flag; branch = number of preimages |
| `TzFile`, `TzLayout` | the TZif reader | every encoded file is read back; exactly which bytes are accepted, and as what |
| `EventLoop` | the cross-thread queue and its wake-ups | the loop is never stuck if and only if it started properly; everything runs once, in order |
| `TimerQueue`, `TimerCancel`, `TimerSchedule` | timers in two indexes over one timerfd | indexes agree, exactly when each timer runs, exactly what can still run after a cancel |
| `Pollers` | poll and epoll interest tables | slot/index bijection, both refine one map |
| `Buffer`, `Bytes` | the I/O buffer over an array | refines a byte sequence; integers come back |
| `TcpConnection` | send, write, shutdown, close | in-order delivery under partial writes; shutdown is carried out, and exactly when it is safe |
| `Tunnel` | flow control between two connections | bytes pass in order; back-pressure engages at the mark, holds until drained and never sticks |
| `Connector` | connect, retry, stop | each socket released once; exactly when start, restart and a retry are safe; back-off |
| `BlockingQueue` | bounded queue and thread pool | no lost wake-up, no joint sleep, stop wakes everyone |
| `AsyncLogging` | double-buffered logging | the byte stream is conserved; exactly what is discarded |
| `HttpContext`, `HttpMessage`, `HttpServer` | the resumable HTTP parser and onMessage | exactly which bytes are a request, and as what it is read; when fragmentation matters |
| `TrailingCounter` | sliding-window counters | the running total is the sum over the full history |

How the models are built:

- A component that reacts to events is a state, a set of events, a predicate saying when an event can happen, and
  a step function. A theorem about it is about every valid sequence of events. Threads are interleaved steps, one
  for each critical section or system call.
- Beside it stands a class with the source's fields, whose methods carry out the source's statements and are
  proved to perform exactly that step. So the theorems hold of the methods.
- What the kernel, the clock or another thread answers is a parameter of the event: any count up to the length for
  a write, any error, any subset for a poll, any set of woken threads for a signal.
- An assertion of the source is a condition the invariant is proved to give. Where callers can break it, the
  exact condition on the caller is proved.

Where the code falls short of what one would expect, the model keeps the code, shows an input and proves the exact
condition:

- A fold at the first or at the last row of the transition table loses its first copies (`TimeZone.FirstFoldLoses`,
  `TimeZone.LastFoldLoses`; exactly which seconds: `TimeZone.RoundTrip`).
- A functor queued before `loop()` by the loop thread is not announced and can wait in poll
  (`EventLoop.QueuedBeforeLoopWaits`, `EventLoop.NeverStuck`).
- A quit asked for before `loop()` is forgotten (`EventLoop.QuitIsKept`).
- A timer of the batch being run is not cancelled and can run again (`TimerCancel.SelfCancelRunsAgain`,
  `TimerCancel.CancellingIsExact`).
- A shutdown asked for by another thread can be carried out after the peer closed, with bytes unsent
  (`TcpConnection.LateShutdownLosesBytes`, `TcpConnection.ShutdownIsSafe`).
- Calling `stop` and then `start` while a retry is scheduled can lead to a failed assertion
  (`Connector.StartAfterStopFails`, `Connector.StartIsSafe`, `Connector.QueuedStartIsSafe`), and so can a retry
  timer that overtakes the reset of the last channel (`Connector.LateTimerFails`, `Connector.TimerIsSafe`).
- A second request in one message is not served until another message comes (`HttpServer.CutMatters`,
  `HttpServer.ServesAll`).
- Any line without a colon ends the headers, not only an empty one (`HttpMessage.MessageIsParsed`,
  `HttpMessage.ParsedIsMessage`).
- A bounded queue of capacity zero puts both sides to sleep (`BlockingQueue.ZeroCapacityDeadlocks`,
  `BlockingQueue.NeverBothAsleep`).
- Disabling a disabled channel is ignored by PollPoller and makes EPollPoller watch it again with an empty mask
  (`Pollers.DisabledTwice`, `Pollers.StepsAgree`, `Pollers.RunsAgree`).
- Log buffers are lost when 25 or more are queued at a collection (`AsyncLogging.SomeRunLoses`,
  `AsyncLogging.DiscardsExactly`, `AsyncLogging.LossMeansFallingBehind`).
- The hour count covers between 59 and 60 minutes, not the 3600 seconds its comment promises
  (`TrailingCounter.PromiseHoldsAt`, `TrailingCounter.PromiseIsKept`).

Where code and comments disagree the code is followed: `restart` is announced as callable from any thread
(networking/Connector.h:29) but asserts the loop thread.

## Model

| member | source | states |
|---|---|---|
| `TimeZone.RoundTrip` | utility/TimeZone.cpp:269-421 | for every UTC second, exactly when local time and back returns it: with `true` unless it is the first copy of a repeated second, with `false` unless it is a second copy at an inner row or lost at an end, with either flag unless it is a first copy at the first or the last row |
| `TimeZone.LastFoldLoses` | utility/TimeZone.cpp:318-321 | a table and a second lost to both flags, at a fold in the last row |
| `TimeZone.FirstFoldLoses` | utility/TimeZone.cpp:353-368 | a table and a second lost to both flags, at a fold in the first of two rows |
| `TimeZone.RoundTripOfSeconds` | utility/TimeZone.cpp:303-372 | the same three equivalences on seconds, without the split into dates, for every second |
| `TimeZone.UniqueTimeComesBack` | utility/TimeZone.cpp:394-421 | when no other UTC second is shown alike, both flags return the second |
| `TimeZone.CopiesAreShownAlike` | utility/TimeZone.cpp:303-372 | the first copies of a fold correspond one to one to its second copies, the offset change later, and are shown alike |
| `TimeZone.Preimages` | utility/TimeZone.cpp:269-301 | the UTC seconds shown as a local second are exactly those found in the two segments next to the searched row |
| `TimeZone.BranchCountsPreimages` | utility/TimeZone.cpp:303-372 | between the second row and the last, the skip, repeat and unique branches are taken for exactly 0, 2 and 1 preimages; in a repeat `false` gives the earliest and `true` the latest, in a skip the other way round |
| `TimeZone.FirstRowHasNoPrior` | utility/TimeZone.cpp:353-371 | before the second row every local second that is shown takes the repeat branch with one offset for both flags, because the prior second is not computed there |
| `TimeZone.LocalRow` | utility/TimeZone.cpp:313-321 | the binary search over local times stops at a row exactly when the second lies between it and the row before |
| `TimeZone.ShownByOffset` | utility/TimeZone.cpp:394-408 | a second is shown as itself plus the offset in force after the last row at or before it |
| `CivilDate.DayRoundTrip` | utility/Date.cpp:17-37 | every day number from 1 March -4800 on converts to a calendar date whose day number it is |
| `CivilDate.DateRoundTrip` | utility/Date.cpp:17-37 | every calendar date from 1 March -4800 on comes back from its day number |
| `CivilDate.RangeIsTight` | utility/Date.cpp:17-23 | one day earlier two dates share a day number, so the range cannot be wider |
| `CivilDate.NextDayIsNextNumber` | utility/Date.cpp:17-23 | the next day of the Gregorian calendar, defined by month lengths and leap years, has the next day number |
| `CivilDate.OrderIsPreserved` | utility/Date.cpp:17-23 | a date is earlier if and only if its day number is smaller |
| `CivilDate.YearMonthDayFits` | utility/Date.cpp:25-37 | no intermediate value leaves 32 bits if and only if the day number is at most 536838867 |
| `CivilDate.JulianDayFits` | utility/Date.cpp:17-23 | no intermediate value leaves 32 bits if and only if the date is not later than 15 December 5874689 |
| `CivilDate.BreakTimeFloors` | utility/TimeZone.cpp:241-265 | the borrow after truncating division gives the floored day and a second of the day in range, for negative seconds too |
| `CivilDate.SecondsRoundTrip` | utility/TimeZone.cpp:248-265 | breaking a second into date and time and back returns it, before 1970 as after |
| `CivilDate.DateTimeRoundTrip` | utility/TimeZone.cpp:427-432 | a valid date and time comes back from its second |
| `CivilDate.EpochIsZero` | utility/Date.h:23 | 1 January 1970 has day number 2440588, and its first second is second zero |
| `CivilDate.CountsFromEpoch` | utility/TimeZone.cpp:241-265 | the date of every second is found by counting calendar days from 1 January 1970, forward or back, one for each 86400 seconds; its clock time is the seconds since midnight |
| `CivilDate.SecondsFromEpoch` | utility/TimeZone.cpp:427-432 | a date n calendar days after 1 January 1970 has the seconds of n days and of its clock time |
| `TzFile.ReadsBackV1` | utility/TimeZone.cpp:142-239 | every version-1 file is read back to exactly its rows, each with local time the UTC time plus its type's offset, and refused if and only if it has leap seconds or a row with no type record |
| `TzFile.ReadsBackV2` | utility/TimeZone.cpp:202-239 | in every version-2 file the first block, whatever it holds, is skipped to the second header, and the second block is read back with its zone string, or refused under the same condition |
| `TzFile.BodySize` | utility/TimeZone.cpp:219-222 | the computed skip is the length of every encoded version-1 block |
| `TzFile.ReadTablesAreWellFormed` | utility/TimeZone.cpp:142-200 | whatever the bytes, a table that was read and has a type record meets the conditions of the conversions |
| `TzFile.BlockOfEncode` | utility/TimeZone.cpp:142-200 | one encoded data block is read back to its zone, or refused exactly for leap seconds or an untyped row |
| `TzFile.File.ReadBytes` | utility/TimeZone.cpp:89-96 | a read gives the next bytes and moves past them, and fails exactly when fewer are left |
| `TzFile.File.ReadInt` | utility/TimeZone.cpp:108-124 | the next big-endian signed integer, or failure exactly when it is not all there |
| `TzFile.File.ReadUInt8` | utility/TimeZone.cpp:126-133 | the next byte, or failure exactly at the end |
| `TzFile.File.ReadToEnd` | utility/TimeZone.cpp:98-106 | the chunked loop returns everything that is left |
| `TzFile.File.Skip` | utility/TimeZone.cpp:135-135 | a seek leaves what follows the skipped bytes, nothing when it goes past the end |
| `TzFile.ReadInts` | utility/TimeZone.cpp:158-166 | the loop reads the given number of integers, or fails exactly when some are missing |
| `TzFile.ReadUInt8s` | utility/TimeZone.cpp:168-173 | the same for the row types |
| `TzFile.ReadLocalTimes` | utility/TimeZone.cpp:175-182 | the same for the type records |
| `TzFile.AddTransitions` | utility/TimeZone.cpp:184-187 | each row gets its type's offset, or the block is refused when a type is out of range |
| `TzFile.ReadDataBlock` | utility/TimeZone.cpp:142-200 | the file cursor version computes exactly the block parser of the read-back theorems |
| `TzFile.ReadTimeZoneFile` | utility/TimeZone.cpp:202-239 | the whole reader computes exactly the file parser of the read-back theorems |
| `TzLayout.ReadIsExact` | utility/TimeZone.cpp:202-239 | the converse: a file is accepted if and only if it has the magic, the counts and, at the position its version says, a readable block; the zone is the one that block holds |
| `TzLayout.BlockIsExact` | utility/TimeZone.cpp:142-200 | a block is accepted if and only if it has no leap seconds, indicators for no type or all, everything its counts promise up to the characters, and a record for every row's type; table and strings are then given by position |
| `TzLayout.TakeIntsAt` | utility/TimeZone.cpp:158-166 | integers are read at multiples of four or eight bytes, or refused exactly when some are missing |
| `TzLayout.TakeRecordsAt` | utility/TimeZone.cpp:175-182 | type records are read at multiples of six bytes: offset, flag set by any nonzero byte, index |
| `Bytes.DecodeOfEncode` | networking/Endian.h:14-19 | a signed integer that fits comes back from its network byte order |
| `Bytes.EncodeOfDecode` | networking/Endian.h:14-19 | every byte string is the encoding of the integer it is read as |
| `Bytes.MostSignificantFirst` | networking/Endian.h:14-19 | of two byte strings put together the first weighs 256 for every byte of the second |
| `Bytes.SignIsLeading` | networking/Endian.h:14-19 | a leading byte of 128 or more makes the integer negative, by the whole span |
| `EventLoop.NeverStuck` | networking/EventLoop.cpp:74-206 | some interleaving leaves the loop in poll with work or a quit nobody will announce if and only if what was queued before the loop started was not announced |
| `EventLoop.SilentStartGetsStuck` | networking/EventLoop.cpp:117-126 | every such start gets stuck at once |
| `EventLoop.QueuedBeforeLoopWaits` | networking/EventLoop.cpp:74-126 | the failing run from a new loop: its own thread queues a functor, enters loop() and waits in poll with it |
| `EventLoop.InPostingOrder` | networking/EventLoop.cpp:117-206 | in every interleaving executed, current batch and queue together are what was posted, in posting order |
| `EventLoop.QueuedIsExecuted` | networking/EventLoop.cpp:194-206 | everything posted by the swap has run, in order, once the loop leaves that batch |
| `EventLoop.BatchIsServed` | networking/EventLoop.cpp:194-206 | a batch that was swapped out is run to its end, without losing or repeating any of it |
| `EventLoop.QuitIsKept` | networking/EventLoop.cpp:74-107 | a quit, asked for by the loop thread or another, can be forgotten by some continuation if and only if loop() has not been entered yet |
| `EventLoop.QuitIsHonoured` | networking/EventLoop.cpp:81-107 | a quit that is kept stops the loop for good the next time it looks, whatever happens meanwhile |
| `EventLoop.QuitStopsTheLoop` | networking/EventLoop.cpp:74-107 | every run that enters loop(), has any thread ask to quit after that and looks at the flag after that ends with the loop stopped |
| `EventLoop.StopsOnlyWhenAsked` | networking/EventLoop.cpp:81-107 | a loop that stops was asked to quit |
| `EventLoop.EventfdCounts` | networking/EventLoop.cpp:178-192 | in every run the eventfd holds the number of wake-ups since it was last read, up to two less than 2 to the 64 |
| `EventLoop.StepKeepsInv` | networking/EventLoop.cpp:74-206 | every step of every thread keeps the wake-up and conservation invariant |
| `EventLoop.RunKeepsInv` | networking/EventLoop.cpp:74-206 | so does every run |
| `EventLoop.Loop.DoPendingFunctors` | networking/EventLoop.cpp:194-206 | exactly the functors queued at the swap are executed, in order; exactly what other threads and the functors themselves queued meanwhile is left in the queue |
| `EventLoop.Loop.ServeBatch` | networking/EventLoop.cpp:202-204 | the loop over the batch runs all of it, in order, whatever each functor queues |
| `EventLoop.Loop.LoopRound` | networking/EventLoop.cpp:81-96 | one pass of the loop runs everything that was queued when it began, and leaves nothing half done |
| `EventLoop.Loop.PollAndHandle` | networking/EventLoop.cpp:81-94 | the invariant is kept and nothing queued is lost while the thread polls and handles events |
| `EventLoop.Loop.RunLoop` | networking/EventLoop.cpp:74-100 | over any number of passes everything queued before a pass has run after it, and the loop ends exactly when it finds the quit flag at its head |
| `EventLoop.Loop.QueueInLoop` | networking/EventLoop.cpp:117-126 | the push step of the protocol; a wake-up must follow exactly for another thread or while functors are being run |
| `EventLoop.Loop.Quit` | networking/EventLoop.cpp:102-107 | the quit step; a wake-up must follow exactly for another thread |
| `EventLoop.Loop.WriteWakeup` | networking/EventLoop.cpp:178-184 | the wake-up step, which pays what the caller owes |
| `EventLoop.Loop.CheckQuit` | networking/EventLoop.cpp:81-82 | the loop condition step; poll is entered exactly when quit is not set |
| `EventLoop.Loop.ReadWakeup` | networking/EventLoop.cpp:186-192 | the read finds a positive count and resets it |
| `TimerQueue.IndexesAlwaysAgree` | networking/TimerQueue.cpp:118-234 | in every run, callbacks that add or cancel included, both indexes hold the same live timers under their current expirations, have the same size, and no timer is freed twice |
| `TimerQueue.SameSize` | networking/TimerQueue.cpp:128-129 | indexes that agree have the same size, as the source asserts at every entry |
| `TimerQueue.CancelIsExact` | networking/TimerQueue.cpp:126-142 | cancelling acts if and only if a timer is queued under exactly that address and sequence; a stale id does nothing even when its address is in use again |
| `TimerQueue.FreedNeverRuns` | networking/TimerQueue.cpp:144-207 | a deleted timer never runs again, whatever follows |
| `TimerQueue.CancelledNeverRuns` | networking/TimerQueue.cpp:126-162 | a queued timer that is cancelled never runs again |
| `TimerCancel.WhatCanRun` | networking/TimerQueue.cpp:118-207 | some continuation runs a timer number if and only if it is not given out yet, or its timer is being handed over, queued, still to run in the batch, or a repeating one of the batch |
| `TimerCancel.CancellingIsExact` | networking/TimerQueue.cpp:126-142 | in every run, after cancelling some continuation still runs the timer if and only if it was to come and not in the index: not given out, being handed over, in the batch and still to run, or in the batch and repeating |
| `TimerCancel.SelfCancelRunsAgain` | networking/TimerQueue.cpp:144-207 | the failing case: a repeating timer cancels itself in its own callback and can run again |
| `TimerQueue.FireTakesTheDue` | networking/TimerQueue.cpp:164-183 | exactly the timers due by now leave both indexes, in order of time and address |
| `TimerQueue.DueTimersRun` | networking/TimerQueue.cpp:144-162 | every due timer runs exactly once, in order, before the batch is reset, whatever callbacks add or cancel meanwhile |
| `TimerQueue.AlarmIsInTime` | networking/TimerQueue.cpp:35-234 | in every run, outside handleRead, with timers queued the timerfd is armed or has gone off no later than the earliest of them, up to the 100-microsecond floor |
| `TimerQueue.StepKeepsInv` | networking/TimerQueue.cpp:118-234 | every step keeps the agreement of the indexes, the placement of each live timer in exactly one place, and the uniqueness of sequence numbers |
| `TimerQueue.RunKeepsInv` | networking/TimerQueue.cpp:118-234 | so does every run |
| `TimerQueue.StepIsTimely` | networking/TimerQueue.cpp:118-207 | every step keeps the deadline, although cancel never re-arms and insert does so only for a new earliest |
| `TimerQueue.OrderedFacts` | networking/TimerQueue.cpp:164-183 | the ordered form of a set of entries has exactly its entries, in strictly increasing order |
| `TimerSchedule.FirstRun` | networking/TimerQueue.cpp:106-183 | in every run a new timer, until it first runs, is taken by exactly those batches at or after the time it was made for, once added and unless cancelled; it first runs in such a batch |
| `TimerSchedule.NextRun` | networking/TimerQueue.cpp:144-207 | in every run, after a repeating timer has run in a batch taken at some time, it is taken again by exactly those batches at or after that time plus the interval it was made with, unless cancelled |
| `TimerSchedule.RunsWhenDue` | networking/TimerQueue.cpp:144-207 | the same for any timer that is to run at a time, up to its next run |
| `TimerSchedule.StepPends` | networking/TimerQueue.cpp:118-207 | only running it or deleting it ends the wait of a timer, and it is not run before its time |
| `TimerSchedule.TimerIsKept` | networking/Timer.cpp:9-15 | a timer keeps its number, interval and whether it repeats until it is deleted |
| `TimerSchedule.AlarmIsExact` | networking/TimerQueue.cpp:35-78 | whenever the timerfd is set it is for the earliest timer queued, or 100 microseconds ahead if later; only a new earliest timer and the end of a batch set it, and only a read at its time clears it |
| `TimerQueue.Queue.NewTimer` | networking/TimerQueue.cpp:106-112 | the step that makes a timer and its id |
| `TimerQueue.Queue.ResetTimerfd` | networking/TimerQueue.cpp:65-78 | the timerfd is set for the expiration, no sooner than 100 microseconds from now |
| `TimerQueue.Queue.InsertTimer` | networking/TimerQueue.cpp:209-234 | the timer enters both indexes; the result says whether it is the new earliest |
| `TimerQueue.Queue.AddTimer` | networking/TimerQueue.cpp:118-124 | the add step: insert, and arm exactly for a new earliest |
| `TimerQueue.Queue.CancelTimer` | networking/TimerQueue.cpp:126-142 | the cancel step; the erase finds its entry |
| `TimerQueue.Queue.TakeDue` | networking/TimerQueue.cpp:168-172 | the due entries come out of the ordered set, in order |
| `TimerQueue.Queue.GetExpired` | networking/TimerQueue.cpp:164-183 | the due entries leave both indexes and are returned in order |
| `TimerQueue.Queue.EraseKeys` | networking/TimerQueue.cpp:174-179 | the loop erases the ids of exactly the expired entries |
| `TimerQueue.Queue.BeginHandleRead` | networking/TimerQueue.cpp:144-153 | the first step of handleRead: the batch of due timers |
| `TimerQueue.Queue.RestartOrDelete` | networking/TimerQueue.cpp:188-198 | one timer of the batch is restarted and queued again, or deleted |
| `TimerQueue.Queue.RearmTimerfd` | networking/TimerQueue.cpp:200-206 | the timerfd is armed for the earliest timer left |
| `TimerQueue.Queue.Reset` | networking/TimerQueue.cpp:185-207 | the loop does the reset step for the whole batch and then re-arms |
| `Pollers.DriveBoth` | networking/poller/PollPoller.cpp:56-114 | for every sequence of interest changes and removals carried out on both poller objects, both ask the kernel for exactly the last events of each registered channel, and watch the same descriptors if and only if no channel was last disabled an even number of times in a row |
| `Pollers.DisabledTwice` | networking/poller/EPollPoller.cpp:79-113 | the shortest run on which they part |
| `Pollers.StepsAgree` | networking/poller/EPollPoller.cpp:79-135 | the two pollers treat a change alike, watched or ignored, if and only if it does not disable a channel that is already disabled |
| `Pollers.RunsAgree` | networking/poller/EPollPoller.cpp:79-135 | they agree after every step of a run if and only if none of its changes disables a disabled channel |
| `Pollers.EndsAgree` | networking/poller/PollPoller.cpp:56-114 | they agree at the end of a run if and only if no registered channel was last disabled an even number of times in a row |
| `Pollers.AddSlotWatches` | networking/poller/PollPoller.cpp:59-69 | a new slot keeps index and slot in one-to-one correspondence and changes one descriptor's watch |
| `Pollers.SetSlotWatches` | networking/poller/PollPoller.cpp:71-84 | changing a slot keeps the correspondence and changes one descriptor's watch |
| `Pollers.DropSlotWatches` | networking/poller/PollPoller.cpp:99-113 | swap-with-last removal keeps the correspondence and every other descriptor's watch, the moved one's included |
| `Pollers.ReadyAreExact` | networking/poller/PollPoller.cpp:40-54 | a slot is reported, right after those before it, exactly when something happened on it |
| `Pollers.PollPoller.UpdateChannel` | networking/poller/PollPoller.cpp:56-86 | the index names the channel's own slot, and the watches change as the poll update says |
| `Pollers.PollPoller.RemoveChannel` | networking/poller/PollPoller.cpp:88-114 | the descriptor is forgotten and nothing else; the moved channel's index is repaired |
| `Pollers.PollPoller.FillActiveChannels` | networking/poller/PollPoller.cpp:40-54 | the ready slots are answered by their own channels, in slot order, up to the number of events; only they learn what happened |
| `Pollers.EPollPoller.Control` | networking/poller/EPollPoller.cpp:137-156 | the kernel's set after one epoll_ctl; it is never asked to add what it has or change what it has not |
| `Pollers.EPollPoller.UpdateChannel` | networking/poller/EPollPoller.cpp:79-113 | the three-valued index says what the kernel knows, and the watches change as the epoll update says |
| `Pollers.EPollPoller.RemoveChannel` | networking/poller/EPollPoller.cpp:115-135 | the descriptor is forgotten by poller and kernel, and the channel is new again |
| `TcpConnection.DeliversInOrder` | networking/TcpConnection.cpp:96-138 | in every run, whatever partial and refused writes, bytes taken by the kernel followed by bytes waiting are the payloads in order; while up, write interest is on exactly when bytes wait, and SHUT_WR has been issued only with every byte handed over |
| `TcpConnection.ShutdownIsSafe` | networking/TcpConnection.cpp:140-152 | in every reachable Connected state, a call of shutdown can end with SHUT_WR issued over unsent bytes, later ones included, if and only if it comes from another thread, and over bytes sent before the call if and only if besides some of them are still waiting |
| `TcpConnection.ShutdownIsIssued` | networking/TcpConnection.cpp:140-285 | a shutdown of a Connected connection is carried out: at every moment from a call in the loop thread on, and once the functors queued up to a call from another thread have run, SHUT_WR has been issued if and only if everything sent has been handed over, until the connection is down |
| `TcpConnection.HandsOverWhatWasTaken` | networking/TcpConnection.cpp:96-285 | in every run the bytes counted as handed over are as many as write() answered, so none is written twice or skipped |
| `TcpConnection.NoticesAreExact` | networking/TcpConnection.cpp:96-285 | the high-water callback is queued, with the number of bytes waiting, exactly when they reach the mark from below, and the write-complete one exactly when a write leaves nothing waiting |
| `TcpConnection.ForceCloseCloses` | networking/TcpConnection.cpp:154-167 | once the functors queued up to forceClose have run the connection is down for good; a hang-up closes it at once |
| `TcpConnection.NeverConnectedAgain` | networking/TcpConnection.cpp:140-190 | after any request to end it a connection is not Connected again in any continuation |
| `TcpConnection.ReadsAsAsked` | networking/TcpConnection.cpp:194-237 | in every run, while up the channel asks for readability as the last request said, and once down for nothing |
| `TcpConnection.ClosedStaysClosed` | networking/TcpConnection.cpp:287-297 | once down, a connection on which nobody sends or starts reading stays down: no interest comes back and no byte is taken, whatever is still queued |
| `TcpConnection.SendReopensClosed` | networking/TcpConnection.cpp:96-138 | a send on a connection that is down, which the code only warns about, hands bytes over or turns the write interest on again if and only if there is something to send and it does not meet a fault with nothing waiting |
| `TcpConnection.LateShutdownLosesBytes` | networking/TcpConnection.cpp:147-152 | the failing case: a shutdown queued by another thread runs after the peer closed, with five bytes unsent |
| `TcpConnection.SendKeepsBytes` | networking/TcpConnection.cpp:96-138 | what a send hands over and what it keeps are the waiting bytes followed by the payload |
| `TcpConnection.WriteKeepsBytes` | networking/TcpConnection.cpp:261-285 | what a write hands over and what is left are the waiting bytes; a pending shutdown is done only when nothing is left |
| `TcpConnection.OfferedIsPayloads` | networking/TcpConnection.cpp:96-138 | the recorded stream is the payloads of the run, end to end |
| `TcpConnection.StepKeepsInv` | networking/TcpConnection.cpp:96-297 | every handler keeps the byte stream, the write interest and the half-close condition |
| `TcpConnection.RunKeepsInv` | networking/TcpConnection.cpp:96-297 | so does every run |
| `TcpConnection.Connection.SendPayload` | networking/TcpConnection.cpp:96-138 | the send step: direct write only when nothing waits, the rest kept, callbacks queued exactly on crossing the mark or on completion |
| `TcpConnection.Connection.TryWrite` | networking/TcpConnection.cpp:98-122 | the direct write, tried exactly when nothing waits; a broken pipe is told from other errors |
| `TcpConnection.Connection.KeepRest` | networking/TcpConnection.cpp:125-137 | the rest joins the output, with the high-water callback exactly on crossing the mark |
| `TcpConnection.Connection.WriteReady` | networking/TcpConnection.cpp:261-285 | the write step, with write-complete and a pending shutdown exactly on draining |
| `TcpConnection.Connection.ShutdownWrite` | networking/TcpConnection.cpp:147-152 | the write side is shut exactly when the channel is not writing |
| `TcpConnection.Connection.RequestShutdown` | networking/TcpConnection.cpp:140-145 | the shutdown step, at once or queued |
| `TcpConnection.Connection.RequestClose` | networking/TcpConnection.cpp:154-160 | the force-close step, always queued |
| `TcpConnection.Connection.RequestCloseLater` | networking/TcpConnection.cpp:169-175 | the delayed force-close step: from then on the connection is being shut |
| `TcpConnection.Connection.RunNext` | networking/TcpConnection.cpp:147-167 | the step that runs the first queued functor |
| `TcpConnection.Connection.StartReadInLoop` | networking/TcpConnection.cpp:202-208 | the start-reading step |
| `TcpConnection.Connection.StopReadInLoop` | networking/TcpConnection.cpp:210-216 | the stop-reading step |
| `TcpConnection.Connection.ConnectDestroyed` | networking/TcpConnection.cpp:228-237 | the destruction step; the channel has no interest left |
| `Tunnel.BackPressureNeverSticks` | networking-examples/socks4a/tunnel.h:92-139 | from every reachable state, one write that takes all of a side's output and one round of the loop's queue leave the other side reading |
| `Tunnel.PausedWillResume` | networking-examples/socks4a/tunnel.h:92-139 | in every run, while a side is paused the opposite connection has the write-complete callback installed and either unsent output with write interest or a queued write-complete |
| `Tunnel.HighWaterHolds` | networking-examples/socks4a/tunnel.h:92-139 | from the high-water callback of a side with output waiting until its write-complete callback, the other side is not read and what waits never grows, whatever arrives, is written or is called meanwhile |
| `Tunnel.BackPressureEngages` | networking-examples/socks4a/tunnel.h:92-114 | in every run started below the mark of 1048576 bytes, an output that has reached it has the other side paused or its high-water callback queued; a side is paused exactly while the opposite write-complete callback is installed |
| `Tunnel.RelaysInOrder` | networking-examples/socks4a/tunnel.h:78-88 | in every run the bytes taken from a side, followed by those waiting there, are what waited at first followed by the bytes read on the other side, in order, but for messages dropped whole by a fault |
| `Tunnel.PausedOnlyDrains` | networking-examples/socks4a/tunnel.h:78-139 | a paused side stays paused, and the opposite output only loses bytes from its front, until that side's write-complete callback runs |
| `Tunnel.DrainResumes` | networking-examples/socks4a/tunnel.h:126-139 | once a side has drained, running whatever is queued, in its order, resumes the other side |
| `Tunnel.StepKeepsInv` | networking-examples/socks4a/tunnel.h:92-139 | every message, write and callback keeps that a paused side will be resumed |
| `Tunnel.RunKeepsInv` | networking-examples/socks4a/tunnel.h:92-139 | so does every run |
| `Tunnel.SendEffect` | networking/TcpConnection.cpp:96-138 | a send never drains the output and changes nothing but output and write interest |
| `Tunnel.WriteEffect` | networking/TcpConnection.cpp:261-285 | a write that drains the output announces it when the callback is installed |
| `Tunnel.Tunnel.HighWaterMark` | networking-examples/socks4a/tunnel.h:92-114 | the two connections change as the pausing step says: the other side is paused only while output waits |
| `Tunnel.Tunnel.WriteCompleted` | networking-examples/socks4a/tunnel.h:126-139 | the two connections change as the resuming step says |
| `Connector.EverySocketOnce` | networking/Connector.cpp:26-173 | in every run in which start and restart are called only when idle and no retry timer is late, no assertion fails and every socket created is in exactly one place: held while connecting, closed once, or handed over once |
| `Connector.StartIsSafe` | networking/Connector.cpp:26-39 | a call of start in the loop thread can lead to a failed assertion if and only if an attempt is under way, one is scheduled or queued, or the last channel is still there; a stop in between does not help |
| `Connector.QueuedStartIsSafe` | networking/Connector.cpp:26-39 | a call of start from another thread can lead to a failed assertion if and only if an attempt or a connection is there, or one is scheduled or queued; a channel that waits for its reset does no harm |
| `Connector.RestartIsSafe` | networking/Connector.cpp:95-101 | the same for restart, where the connection state does not matter |
| `Connector.TimerIsSafe` | networking/Connector.cpp:158-173 | a retry timer that fires can lead to a failed assertion if and only if it is late: an attempt is wanted and the last channel still waits for its reset |
| `Connector.StartAfterStopFails` | networking/Connector.cpp:26-53 | a reachable state in which start is not safe: refused, stopped, and served |
| `Connector.LateTimerFails` | networking/Connector.cpp:46-111 | a reachable late timer: a stop queued before a start gives the new attempt up, and the assertion on the channel fails |
| `Connector.HandoverIsExact` | networking/Connector.cpp:123-156 | in every such run the next step hands a socket over if and only if the attempt becomes writable without error, is no self-connect and is still wanted; then it is the held socket |
| `Connector.RetriesBackOff` | networking/Connector.cpp:158-173 | the k-th wait since construction or restart is 500 times 2 to the k up to k = 5 and 30000 from then on |
| `Connector.NothingAfterStop` | networking/Connector.cpp:41-53 | after a call of stop nothing is created, handed over or scheduled, whatever the loop goes on to do |
| `Connector.AttemptIsExact` | networking/Connector.cpp:31-93 | in every well-used state a socket is created exactly when a step calls connect(2), and is then connecting or closed at once as the error number says |
| `Connector.RetryIsExact` | networking/Connector.cpp:41-173 | a retry is scheduled exactly when an attempt fails in a retryable way while it is wanted; restart forgets the waits before it |
| `Connector.WantedAsAsked` | networking/Connector.cpp:26-101 | whether a connection is wanted is what the last call of start, restart or stop said |
| `Connector.StoppedIsClean` | networking/Connector.cpp:21-24 | in every continuation of a call of stop, once the queued functors have run, no attempt is under way, every socket is closed or handed over and the destructor's assertion holds |
| `Connector.StepKeepsInv` | networking/Connector.cpp:26-173 | every step keeps the socket ledger, the back-off law and the control invariant |
| `Connector.RunKeepsInv` | networking/Connector.cpp:26-173 | so does every run |
| `Connector.Connector.constructor` | networking/Connector.cpp:15-19 | a new connector |
| `Connector.Connector.RetryLater` | networking/Connector.cpp:158-173 | the socket is closed and a retry scheduled exactly when still wanted |
| `Connector.Connector.Attempt` | networking/Connector.cpp:55-93 | the three classes of errno: in progress, retry, close; the asserted absence of a channel is required |
| `Connector.Connector.StartLoop` | networking/Connector.cpp:31-39 | an attempt exactly when wanted; the asserted state is required |
| `Connector.Connector.StartConnecting` | networking/Connector.cpp:26-29 | the start step |
| `Connector.Connector.StartFromOtherThread` | networking/Connector.cpp:26-29 | the queued start step; the invariant is kept |
| `Connector.Connector.RestartConnecting` | networking/Connector.cpp:95-101 | the restart step |
| `Connector.Connector.Abandon` | networking/Connector.cpp:46-53 | giving up an attempt, as stopInLoop and handleError do |
| `Connector.Connector.WriteReady` | networking/Connector.cpp:123-146 | retry on an error or a self-connect, else hand over or close |
| `Connector.Connector.ChannelReady` | networking/Connector.cpp:123-156 | the event step, error callback first |
| `Connector.Connector.TimerExpired` | networking/Connector.cpp:166-167 | the retry step; the assertions it needs hold unless the timer is late, which is exactly when they can fail |
| `Connector.Connector.NextFunctor` | networking/Connector.cpp:31-53 | the step that runs the first queued functor; the assertions of a queued start hold |
| `BlockingQueue.NoLostWakeUp` | utility/BoundedBlockingQueue.h:21-51 | in every interleaving, spurious wake-ups included, a sleeping taker means no more elements than woken takers, dually for putters and free slots; the bound is kept and values leave in the order accepted |
| `BlockingQueue.NeverBothAsleep` | utility/BoundedBlockingQueue.h:21-51 | takers and putters never all sleep at once, for every capacity but zero |
| `BlockingQueue.ZeroCapacityDeadlocks` | utility/BoundedBlockingQueue.h:18-19 | with capacity zero they do |
| `BlockingQueue.AfterStop` | utility/ThreadPool.cpp:37-96 | once stop has run nobody sleeps or goes to sleep again and nothing more is accepted |
| `BlockingQueue.StopIsFinal` | utility/ThreadPool.cpp:37-48 | in every run, from a stop on nobody sleeps and nothing is accepted that was not accepted before it |
| `BlockingQueue.PutsAreAccepted` | utility/BoundedBlockingQueue.h:21-39 | in every run without a stop what is accepted is the arguments of the calls of put that have returned, in the order of their return |
| `BlockingQueue.TakesReturnElements` | utility/BoundedBlockingQueue.h:41-51 | in every run without a stop each take that returns has taken one element, and no other call has |
| `BlockingQueue.DrainedAfterStop` | utility/ThreadPool.cpp:74-90 | after a stop each pass through take gets the next element as long as there are any |
| `BlockingQueue.StepKeepsInv` | utility/BoundedBlockingQueue.h:21-51 | every pass, wake-up and stop keeps the wake-up invariant and the order of values |
| `BlockingQueue.RunKeepsInv` | utility/BoundedBlockingQueue.h:21-51 | so does every run |
| `BlockingQueue.BoundedBlockingQueue.Put` | utility/BoundedBlockingQueue.h:21-39 | one pass of the wait loop: queued with one signal, or asleep exactly when full |
| `BlockingQueue.BoundedBlockingQueue.Take` | utility/BoundedBlockingQueue.h:41-51 | one pass of the wait loop: the front with one signal, or asleep exactly when empty |
| `BlockingQueue.ThreadPool.Started` | utility/ThreadPool.cpp:20-35 | a started pool, bounded exactly for a positive limit |
| `BlockingQueue.ThreadPool.Run` | utility/ThreadPool.cpp:55-72 | queued, refused once stopped, or waiting exactly while full |
| `BlockingQueue.ThreadPool.Take` | utility/ThreadPool.cpp:74-90 | a task, sleep exactly while running and empty, or no task once stopped |
| `AsyncLogging.NothingGoesMissing` | utility/AsyncLogging.cpp:27-131 | in every interleaving, written or discarded, being written, queued and current bytes together are the lines appended, in order; at each loop head both spares are there and empty; the next buffer is absent exactly while one is queued |
| `AsyncLogging.DiscardsExactly` | utility/AsyncLogging.cpp:62-103 | in every interleaving buffers are lost if and only if a batch of more than 25 is written; the lost ones are exactly those from the third on of each such batch, in order; when that never happens the file followed by what is on its way is everything appended |
| `AsyncLogging.LossMeansFallingBehind` | utility/AsyncLogging.cpp:67-103 | once every batch is dealt with, buffers have been lost if and only if the logging thread once collected with 25 or more queued |
| `AsyncLogging.SomeRunLoses` | utility/AsyncLogging.cpp:27-47 | it does happen: producers that fill buffers while the logging thread is slow |
| `AsyncLogging.NoticesTellTheLoss` | utility/AsyncLogging.cpp:88-98 | in every run the notices in the file announce as many dropped buffers as were dropped |
| `AsyncLogging.BuffersFit` | utility/AsyncLogging.cpp:27-47 | in every run no buffer of 4000000 bytes is overfull, and a line makes the current one queued exactly when it would be |
| `AsyncLogging.DisposedStream` | utility/AsyncLogging.cpp:88-103 | disposing of a batch accounts for every byte of it, in order |
| `AsyncLogging.AppendedIsLines` | utility/AsyncLogging.cpp:27-47 | the recorded stream is the lines of the run, end to end |
| `AsyncLogging.StepKeepsInv` | utility/AsyncLogging.cpp:27-131 | every producer and consumer step keeps the stream, the spares and the refill condition |
| `AsyncLogging.RunKeepsInv` | utility/AsyncLogging.cpp:27-131 | so does every run |
| `AsyncLogging.Logger.AppendLogLine` | utility/AsyncLogging.cpp:27-47 | the append step; the logging thread is notified exactly when a buffer was queued |
| `AsyncLogging.Logger.CollectCritical` | utility/AsyncLogging.cpp:67-85 | the swap step under the lock |
| `AsyncLogging.Logger.WriteBatch` | utility/AsyncLogging.cpp:88-103 | the batch is cut and written as the discard rule says |
| `AsyncLogging.Logger.WriteAndRefill` | utility/AsyncLogging.cpp:87-128 | the write step; the refill assertions hold and both spares end up empty |
| `Buffer.Buffer.constructor` | networking/Buffer.h:23-29 | empty, with the asked-for room and the reserve in front |
| `Buffer.Buffer.FindCRLF` | networking/Buffer.h:45-55 | the first CR LF of the readable bytes, or none |
| `Buffer.Buffer.Peek` | networking/Buffer.h:43-43 | the leading readable bytes |
| `Buffer.Buffer.Retrieve` | networking/Buffer.h:71-78 | the contents lose exactly their first bytes |
| `Buffer.Buffer.RetrieveAll` | networking/Buffer.h:88-91 | the contents become empty |
| `Buffer.Buffer.RetrieveAsString` | networking/Buffer.h:103-108 | the first bytes are returned and removed |
| `Buffer.Buffer.Unwrite` | networking/Buffer.h:144-147 | the contents lose exactly their last bytes |
| `Buffer.Buffer.MoveDown` | networking/Buffer.h:263-264 | the overlapping forward copy keeps the bytes it moves |
| `Buffer.Buffer.MakeSpace` | networking/Buffer.h:257-269 | room for the asked-for bytes, contents unchanged, whether grown or compacted; the assertion inside holds |
| `Buffer.Buffer.EnsureWritableBytes` | networking/Buffer.h:128-133 | room for the asked-for bytes, contents unchanged |
| `Buffer.Buffer.Append` | networking/Buffer.h:118-122 | the contents gain exactly the data at the end |
| `Buffer.Buffer.Prepend` | networking/Buffer.h:234-239 | the contents gain exactly the data in front |
| `Buffer.Buffer.Swap` | networking/Buffer.h:31-35 | the two buffers change places |
| `Buffer.Buffer.Shrink` | networking/Buffer.h:241-246 | contents unchanged, with the reserve as room |
| `Buffer.Buffer.AppendInt` | networking/Buffer.h:149-164 | the contents gain the integer in network byte order |
| `Buffer.Buffer.PrependInt` | networking/Buffer.h:217-232 | the same in front |
| `Buffer.Buffer.PeekInt` | networking/Buffer.h:190-215 | the integer the leading bytes encode |
| `Buffer.Buffer.ReadInt` | networking/Buffer.h:166-188 | the same, removed |
| `Buffer.Buffer.ReadFd` | networking/Buffer.cpp:15-40 | the contents gain exactly what was read, through the overflow area or not; an error changes nothing |
| `Buffer.IntComesBack` | networking/Buffer.h:149-232 | an integer appended to or put in front of any contents is read back equal, with the rest unchanged |
| `HttpContext.FragmentationDoesNotMatter` | networking/http/HttpContext.cpp:38-74 | any bytes in any pieces leave the same verdict, state, request and unread bytes as one call on all of them |
| `HttpContext.ParsePieces` | networking/http/HttpContext.cpp:38-74 | pieces appended to a buffer and parsed one by one leave parser and buffer as one call on all the bytes |
| `HttpMessage.MessageIsParsed` | networking/http/HttpContext.cpp:7-74 | every request line, with any header lines, a line that ends them and any rest, is read to its end and no further, as exactly its method, path, query, version and, for each field, the value of its last line |
| `HttpMessage.ParsedIsMessage` | networking/http/HttpContext.cpp:7-74 | the converse: whatever is taken for a whole request is one, followed by the bytes left unread |
| `HttpMessage.RefusalIsExact` | networking/http/HttpContext.cpp:41-55 | bytes are refused, with nothing consumed, if and only if the first line is whole and no request line; until it is whole nothing changes |
| `HttpMessage.HeaderIsTaken` | networking/http/HttpRequest.h:88-99 | a header line sets its field to its value, whatever space surrounds it |
| `HttpMessage.Spelling` | networking/http/HttpRequest.h:28-72 | the methods, versions and signs are the ASCII words, and the spaces are those of the C locale |
| `HttpServer.ServesAll` | networking/http/HttpServer.cpp:45-59 | exactly when the way a stream is cut into messages does not change what is served: everything complete has been served if and only if in every stretch at the end there are at least as many messages as requests completed in it |
| `HttpServer.ServedInOrder` | networking/http/HttpServer.cpp:45-59 | whatever the messages, what is served is the beginning of what the stream holds, in order |
| `HttpServer.OneAtATime` | networking/http/HttpServer.cpp:45-59 | a message serves exactly one request more if one is complete and unserved, else none |
| `HttpServer.CutMatters` | networking/http/HttpServer.cpp:45-59 | the failing case, for every request: twice in one message it is served once, in two messages twice |
| `HttpServer.RefusedExactly` | networking/http/HttpServer.cpp:45-59 | a message refuses the connection if and only if what has been received holds, right after the requests served before, a whole line that is no request line; then nothing more is served |
| `HttpServer.Connection.OnMessage` | networking/http/HttpServer.cpp:45-59 | parser, buffer and served requests change as the message step says |
| `HttpServer.Serve` | networking/http/HttpServer.cpp:45-59 | a connection object with all its messages has served the beginning of the stream, and all of it if and only if the messages keep up |
| `HttpContext.ParseResumes` | networking/http/HttpContext.cpp:38-74 | parsing a prefix and then feeding the rest is parsing the whole, from every state |
| `HttpContext.RequestLineIsExact` | networking/http/HttpContext.cpp:7-36 | a line is accepted if and only if it is method, space, target, space, version (RFC 7230 section 3.1.1); then the fields written back give the line, the path has no question mark and the query starts with one |
| `HttpContext.LayoutIsAccepted` | networking/http/HttpContext.cpp:7-36 | a line so laid out is accepted with exactly its parts |
| `HttpContext.HeaderIsExact` | networking/http/HttpRequest.h:88-99 | a header line with a colon sets exactly its field to its value without surrounding space, and nothing else |
| `HttpContext.LineIsStable` | networking/http/HttpContext.cpp:41-60 | more bytes do not change what a whole line does |
| `HttpContext.MethodStrings` | networking/http/HttpRequest.h:50-72 | the text of a method is parsed as that method |
| `HttpContext.MethodOfIsInverse` | networking/http/HttpRequest.h:28-46 | an accepted method text is that method's text |
| `HttpContext.TrimLeft` | networking/http/HttpRequest.h:91-93 | the loop skips exactly the leading space |
| `HttpContext.TrimRight` | networking/http/HttpRequest.h:95-97 | the loop drops exactly the trailing space |
| `HttpContext.Parser.ProcessRequestLine` | networking/http/HttpContext.cpp:7-36 | the verdict and the request are those of the request-line function, fields set before a refusal included |
| `HttpContext.Parser.AddHeader` | networking/http/HttpRequest.h:88-99 | the request gains exactly the trimmed header |
| `HttpContext.Parser.TakeLine` | networking/http/HttpContext.cpp:41-72 | one round consumes one whole line and no more |
| `HttpContext.Parser.ParseRequest` | networking/http/HttpContext.cpp:38-74 | the loop on the buffer does exactly what the parser of the fragmentation theorem does to verdict, state and unread bytes |
| `TrailingCounter.TrailingCountIsExact` | utility/MinuteHourCounter.h:53-82 | for every sequence of adds and queries in time order, whatever the uninitialised update time holds, the trailing count is the sum of all counts in the last buckets of the full history |
| `TrailingCounter.TrailingCountInSeconds` | utility/MinuteHourCounter.h:53-82 | the count a query returns is the sum of everything added no longer ago than n - 1 whole buckets and the part of the current one that has gone by |
| `TrailingCounter.PromiseIsKept` | utility/MinuteHourCounter.h:86-114 | the count is the one over the promised span (60 and 3600 seconds) if and only if nothing was added in the part of the span beyond that reach |
| `TrailingCounter.PromiseHoldsAt` | utility/MinuteHourCounter.h:86-114 | it is so for every history if and only if the query falls in the last second of a bucket: always for the minute, one second in sixty for the hour |
| `TrailingCounter.ApplyAgrees` | utility/MinuteHourCounter.h:59-81 | every operation keeps each queue item equal to its bucket's sum in the history |
| `TrailingCounter.ShiftKeepsTotal` | utility/MinuteHourCounter.h:27-46 | the running total stays the sum of the queue through growth, falling off and clearing |
| `TrailingCounter.AddToBackAdds` | utility/MinuteHourCounter.h:17-22 | an addition changes the newest item and the total, from an empty queue too |
| `TrailingCounter.ConveyorQueue.PushZeros` | utility/MinuteHourCounter.h:35-39 | the first loop adds one zero for each bucket gone by |
| `TrailingCounter.ConveyorQueue.DropOldest` | utility/MinuteHourCounter.h:41-45 | the second loop keeps the newest items and takes the rest off the total |
| `TrailingCounter.ConveyorQueue.ShiftBy` | utility/MinuteHourCounter.h:27-46 | the two loops together are the shift of the exactness theorem |
| `TrailingCounter.ConveyorQueue.AddBack` | utility/MinuteHourCounter.h:17-22 | the addition of the exactness theorem |
| `TrailingCounter.TrailingBucketCounter.UpdateTo` | utility/MinuteHourCounter.h:59-66 | the queue shifts by the buckets gone by |
| `TrailingCounter.TrailingBucketCounter.AddCount` | utility/MinuteHourCounter.h:73-76 | the add operation of the exactness theorem |
| `TrailingCounter.TrailingBucketCounter.TrailingCount` | utility/MinuteHourCounter.h:78-81 | the query operation, returning the running total |
| `TrailingCounter.MinuteHourCounter.AddNow` | utility/MinuteHourCounter.h:98-103 | one clock reading is added to the 60 one-second and the 60 one-minute buckets |

## Left out

- Socket, SocketsOps, InetAddress, Acceptor, FileUtil, LogFile, ProcessInfo: wrappers of system calls; only the results they can return appear.
- networking-examples other than the tunnel's flow control: glue, or behaviour that lies in c-ares and libcurl.
- networking/inspect, HttpResponse, the responses of HttpServer: text output with no deep invariant.
- LogStream formatting, Timestamp as a double, Condition::waitForSeconds: printf and floating-point behaviour.
- MutexLock, Thread, ThreadLocal, Singleton, CurrentThread: their meaning is the step model itself (mutual exclusion, signal and broadcast, spurious wake-ups).
- CountDownLatch, BlockingQueue.h, EventLoopThreadPool, TcpServer, TcpClient: easy next to the rest, or reliant on caller discipline the code does not enforce.
- Channel::handleEvent: only the order of the error and write callbacks is used, in the connector; the tie to the owner's lifetime is not modelled.
- Memory: objects are values or Dafny objects, so allocation failure, use after free by another thread and destruction order are not modelled; addresses matter only in the timer queue, where they are reused freely.
- The std::set and std::map containers are sets with an order and maps; iteration order is modelled where it matters, in the timer queue.
- Two's-complement overflow is modelled in the civil-date arithmetic; other integers are unbounded (counters, buffer sizes, sums of the trailing counter, 6 * typecnt in the file reader).
- TimeZone.RoundTrip: for tables whose rows are further apart than the adjacent offset changes together, and seconds shown within the date range; the fixed-offset constructor is not modelled, and the zone string is read but, as in the code, never used.
- TzFile.ReadsBackV1: negative counts are refused as the reader does; a negative designation length, which is undefined in the code, is modelled as a refusal; a file that cannot be opened is not modelled.
- TzFile.ReadsBackV2: only the version octet '2' selects the second part, as in the code; a version-3 file is read as version 1.
- EventLoop.NeverStuck: loop() is entered once; one poll result is the wake-up channel being ready or not; other channels' callbacks enter as pushes and quits by the loop thread.
- TimerQueue.AlarmIsInTime: the two clocks are taken to advance together; a repeat interval is a whole number of microseconds.
- TcpConnection.DeliversInOrder: for runs without a send or a start of reading after the connection is down, where the code only warns; payloads dropped by a broken pipe are not in the stream; sends are loop-thread steps; the output buffer is a byte sequence here and the array behind it is in `Buffer`.
- Tunnel.BackPressureNeverSticks: both connections on one loop and up; teardown is not modelled.
- Connector.EverySocketOnce: for runs without the calls and late timers that Connector.StartIsSafe, Connector.QueuedStartIsSafe, Connector.RestartIsSafe and Connector.TimerIsSafe show to be unsafe; restart is a call in the loop thread, as it asserts, and the new-connection callback does not call back into the connector.
- Pollers.PollPoller.RemoveChannel: requires, as the code asserts, that the channel was disabled after its first registration; a removed channel keeps its index and cannot be updated again.
- Pollers.PollPoller.FillActiveChannels: what the kernel wrote into the slots is given; poll and epoll_wait themselves are not modelled, nor is the growth of the epoll event list.
- AsyncLogging.NothingGoesMissing: for lines shorter than a buffer; a longer line is dropped silently by the fixed buffer. The flush interval is a step that may happen at any time. What is still queued when the logger stops is not written.
- BlockingQueue.NoLostWakeUp: worker threads' exceptions and the start-up of the pool are not modelled; a pool without threads, which runs tasks at once, is left out.
- HttpContext.FragmentationDoesNotMatter: the receive time is left out, and the parser is not entered again after a whole request; there is no body parsing in the code.
- HttpServer.ServesAll: messages that arrive after a refused request are not parsed in the model; in the code they meet the refused line again.
- TrailingCounter.TrailingCountIsExact: needs at least two buckets; with one the code reads the back of an empty queue.
- Buffer.Buffer.ReadFd: what readv delivered is given; the error code is not.
