# Giri in Dafny

Giri interprets Go programs in SSA form. It has its own goroutine runtime, a vector-clock race
detector, value-faithful memory, and an instrumented session for running one function many times.
This project models those four parts and proves what they promise.

**Goroutine runtime.** `Runtime` gives each operation of `chan.go`, the `sync` clock effects and the
`go` statement as a step on a `World`; an operation is atomic up to its wait, and a later step resumes
or aborts it. A `World` also carries two history variables: `trace`, the clock effects under the name
of the memory-model event they stand for, and `logs`, what was sent on and taken from each channel.
`RuntimeInvariant` states what every step keeps, `RuntimeSteps`, `RuntimeOps` and `RuntimeRuns` prove it,
and `RuntimeTheorems`, `RuntimeHistory`, `RuntimeDelivery`, `RuntimeSends`, `RuntimeLossless`, `RuntimeEdges`,
`RuntimeEvents`, `RuntimeSync`, `RuntimeOrder` and `RuntimeRaces` draw the conclusions for every run.
`RuntimeMade`, `RuntimeCounts`, `RuntimeWaits` and `RuntimeAnswers` say how every operation answers in every
reachable state, in terms of the program's own earlier steps: the makes, closes, Adds, Locks, sends and
receives it did, and the goroutines that wait.
`ChannelOps` is the imperative form: a class whose methods update the interpreter's tables in place,
each proved to take exactly the step of the specification.

**Clocks and races.** `ClockMachine` is the clock calculus alone, `HappensBefore` defines chains of
synchronised-before edges without mentioning clocks and proves that clock order is exactly chain
existence. `Detector`, `RaceDetector` (the class with shared snapshots), `Races` and `Dormancy` are the
race detector and what its reports mean.

**Baton passing.** `Baton` is the hand-over protocol between host goroutines as a step system with
messages in flight, and `Returning` shows that it ends once it is halting; `Scheduling` has the strategies and `pickNext`,
`Fairness` what round robin means over whole runs. `RuntimeDeadlock` runs the protocol and the runtime
together.

**Concrete values.** `Integers`, `IntegerBits` and `Uintptr` are typed integers and encoded pointers;
`Memory` and `Slices` are arrays, structs, append and copy over a flat store.

**Sessions.** `Ssa` is the instructions the value cache may answer, with static types, run-time values and
what executing them does, and `Evaluation` what that means in Go; `Session`, `ExecRun` and `Slots` are the
value cache, step accounting, and slot-numbered frames.

Five results are about the code not meeting a stated promise, each with the run or input that shows it
and the exact condition under which the promise holds:

- A detector with one last read per byte misses a race with an earlier read
  (`Races.EarlierReadIsMissed`); a byte on which nothing was reported is free of races exactly when
  every read of it, not only the last, is ordered before the next write (`Races.QuietIsRaceFreeIff`).
- Every Done is documented to happen before Wait returns, and every Unlock before every later Lock.
  Release clocks are kept one per allocation and an Unlock replaces what was there
  (`RuntimeSync.UnlockHidesDone`, `RuntimeOrder.StolenUnlockIsHidden`). The order holds exactly when the
  release is, or happens before, one that no Unlock replaced, or reaches the acquiring goroutine by
  another way (`RuntimeOrder.DoneBeforeWaitIff`, `RuntimeOrder.UnlockBeforeLockIff`); for Unlocks it always
  does if each is by a goroutine that locked since the previous one
  (`RuntimeOrder.DisciplinedUnlockBeforeLock`).
- A uintptr decodes to the pointer it encodes exactly when the allocation id is below 2^31 or among the
  last 2^31 ids and the offset is in [-2^31, 2^31) (`Uintptr.RoundTripIff`); an offset of 2^31 is lost
  (`Uintptr.FarOffsetIsLost`).
- Round robin is to cycle through each goroutine. The caller is never a candidate for its own hand-over,
  so while the same N goroutines, and no others, stay able to run, all are served if and only if N is 2
  (`Fairness.FairIffTwo`).
  Of three or more the second smallest is never picked again after N decisions
  (`Fairness.SecondSmallestStarves`), and each other one is picked in every N - 1
  (`Fairness.OthersAreServed`). Such runs exist for any goroutines and any length
  (`Fairness.RoundRobinCanStarve`).
- Purity is decided from underlying types, unsafe conversions from printed type names. A conversion from
  a scalar type named like uintptr to a scalar type named like unsafe.Pointer counts as pure and clears
  the pending uintptr conversions; a cache hit does not. For every such conversion, on every scalar
  operand but an integer, there is a program in which it shows (`Session.MasqueradeShows`); a hit agrees
  with its execution exactly when there is nothing to clear (`Session.DisguisedHitIff`); and a run that
  comes to none is the same with and without the cache (`Session.CacheIsTransparent`).

## Model

| member | source | states |
|---|---|---|
| Clock.JoinIsLeastUpperBound | pkg/interpreter/interpreter.go:289-307 | merging two clocks gives the least clock above both in the componentwise order |
| Clock.VectorClock.Merge | pkg/interpreter/interpreter.go:291-297 | the loop over the other clock's entries leaves the pointwise maximum, absent components counting as 0 |
| Clock.VectorClock.HappensBefore | pkg/interpreter/interpreter.go:300-307 | the loop decides the componentwise order |
| ClockMachine.OwnAheadAlways | pkg/interpreter/chan.go:153-178 | in every state of every run of the clock calculus a goroutine's own component is strictly above that component in every other goroutine's clock and in every published clock |
| ClockMachine.LiveClocksIncomparable | pkg/interpreter/chan.go:153-168 | clocks of two live goroutines are never ordered |
| ClockMachine.StatesGrow | pkg/interpreter/interpreter.go:312-344 | clocks only grow along a run |
| ClockMachine.OwnCountsTicks | pkg/interpreter/interpreter.go:278-287 | in every run a goroutine's own component is one more than the number of its ticks |
| HappensBefore.ClocksCharacteriseHappensBefore | pkg/detector/detector.go:384-394 | for two events of any run, clock order, the own-component comparison and the existence of a chain of synchronised-before edges are equivalent |
| HappensBefore.LaterNeverBelow | pkg/detector/detector.go:321-325 | a later event of another goroutine is never clock-ordered before an earlier one, so the detector's second comparison never hides a race |
| HappensBefore.LastEdge | pkg/interpreter/chan.go:12-24 | an event happens before another exactly when it is, or happens before, the source of an edge into it |
| Detector.CheckDecidesPerByte | pkg/detector/detector.go:292-318 | updating while checking does not matter: the loop reports the first byte that races with the history before the access, records the bytes before it with this access, and changes no other byte |
| RaceDetector.Recorder.constructor | pkg/detector/detector.go:270-275 | a new detector is awake and has no history |
| RaceDetector.Recorder.SetDormant | pkg/detector/detector.go:369-371 | sleeping or waking leaves the history as it is |
| RaceDetector.Recorder.Reset | pkg/detector/detector.go:373-378 | forgets every recorded access |
| RaceDetector.Recorder.Snapshot | pkg/detector/detector.go:346-367 | returns a clock equal to the given one, never the caller's own map, and reusing the previous snapshot changes nothing recorded |
| RaceDetector.Recorder.FindConflict | pkg/detector/detector.go:297-304 | finds the recorded access that races at a byte: the last write, or for a write the last read |
| RaceDetector.Recorder.RecordByte | pkg/detector/detector.go:306-315 | a write replaces the byte's last write and drops its last read; a read replaces the last read |
| RaceDetector.Recorder.CheckBytes | pkg/detector/detector.go:294-318 | the loop over heap-allocated shared snapshots does what the specification does with a copied clock per access |
| RaceDetector.Recorder.CheckAccess | pkg/detector/detector.go:286-319 | awake: the specified check, although snapshots are shared objects; dormant: no effect and no report |
| RaceDetector.SameClock | pkg/detector/detector.go:349-359 | the size test and the one-sided loop decide equality of two clock maps |
| Races.ConcurrentIsUnordered | pkg/detector/detector.go:321-325 | the detector's test on a recorded access holds exactly when no chain orders it before the current one |
| Races.ReportsAreRaces | pkg/detector/detector.go:286-319 | every report names two accesses to one byte by different goroutines, one of them a write, with no chain between them, with their sites |
| Races.QuietMeansOrderedAfterWrites | pkg/detector/detector.go:292-316 | while nothing was reported at a byte, every write of it happens before every later access of it |
| Races.FirstReportIsExact | pkg/detector/detector.go:292-316 | up to the first report at a byte the detector finds a conflict exactly when some earlier write is unordered, or the access is a write unordered with the last read |
| Races.ForgottenReadIsCovered | pkg/detector/detector.go:310-312 | dropping the last read at a write loses nothing: a later access unordered with that read is unordered with the write, and found |
| Races.QuietIsRaceFreeIff | pkg/detector/detector.go:236-241 | a byte without reports is free of races exactly when each read of it is ordered before the next write |
| Races.EarlierReadIsMissed | pkg/detector/detector.go:313-315 | a run in which a write races with an earlier read and nothing is reported, because a second read replaced the entry |
| Dormancy.DormancyIsInvisible | pkg/interpreter/session.go:249-261 | in a session of any number of calls, a detector that forgets and falls asleep between calls and wakes at the call's first go statement gives the same report at every access as one that only forgets |
| Dormancy.DormancyIsInvisibleInOneRun | pkg/detector/detector.go:250-254 | in a run with one entry goroutine, asleep until the first go statement, it reports what a detector always awake reports |
| Dormancy.NoRaceAcrossCalls | pkg/interpreter/session.go:234-261 | although every call's clock starts afresh, no report is of a race between two calls |
| RuntimeInvariant.FreshInv | pkg/interpreter/interpreter.go:692-757 | a fresh interpreter satisfies the runtime invariant |
| RuntimeOps.SendKeepsInv | pkg/interpreter/chan.go:195-252 | a send keeps the invariant: named clocks, sorted complete queues, no missed meeting, sound selects, logs and waits |
| RuntimeOps.RecvKeepsInv | pkg/interpreter/chan.go:280-352 | a receive keeps it |
| RuntimeOps.SelectKeepsInv | pkg/interpreter/chan.go:448-472 | a select, with all its offers, keeps it |
| RuntimeOps.SelectResumeKeepsInv | pkg/interpreter/chan.go:473-501 | the rest of a select after its wait keeps it |
| RuntimeSteps.CloseKeepsInv | pkg/interpreter/chan.go:366-378 | a close keeps it |
| RuntimeSteps.GiveToKeepsInv | pkg/interpreter/chan.go:215-221 | completing a waiting receiver, dropping stale entries before it, keeps it |
| RuntimeSteps.TakeFromKeepsInv | pkg/interpreter/chan.go:342-346 | taking a waiting sender's value keeps it |
| RuntimeSteps.KthReceiveMeetsSend | pkg/interpreter/chan.go:238-252 | the kept clock a buffered send merges is the one the receive C places earlier published, and it is there whenever C values have been sent |
| RuntimeSteps.BufPutKeepsInv | pkg/interpreter/chan.go:238-252 | a buffered send keeps the invariant |
| RuntimeSteps.BufTakeKeepsInv | pkg/interpreter/chan.go:317-332 | a buffered receive keeps it |
| RuntimeRuns.ResumeKeepsInv | pkg/interpreter/chan.go:224-234 | completing any wait keeps it |
| RuntimeRuns.AbortKeepsInv | pkg/interpreter/chan.go:225-228 | aborting any wait, with its offers withdrawn, keeps it |
| RuntimeRuns.GoKeepsInv | pkg/interpreter/exec.go:351-358 | a go statement keeps it |
| RuntimeRuns.LockKeepsInv | pkg/interpreter/interpreter.go:1832-1841 | Lock and TryLock keep it |
| RuntimeRuns.RLockKeepsInv | pkg/interpreter/interpreter.go:1842-1847 | RLock keeps it |
| RuntimeRuns.UnlockKeepsInv | pkg/interpreter/interpreter.go:1862-1870 | Unlock keeps it |
| RuntimeRuns.RUnlockKeepsInv | pkg/interpreter/interpreter.go:1880-1889 | RUnlock keeps it |
| RuntimeRuns.GroupAddKeepsInv | pkg/interpreter/interpreter.go:1898-1912 | WaitGroup Add and Done keep it |
| RuntimeRuns.RunsKeepInv | pkg/interpreter/chan.go:12-24 | every state of every run satisfies the invariant, and no queue entry or wait ever refers to something missing |
| RuntimeTheorems.GoroutineClocksIncomparable | pkg/interpreter/chan.go:153-168 | in every reachable state two goroutines' clocks are incomparable, each ahead on its own component |
| RuntimeTheorems.SudogClocksBehind | pkg/interpreter/chan.go:124-130 | in every reachable state the clocks stored on a waiter, its own and its counterpart's, are behind every goroutine's own component |
| RuntimeTheorems.ChannelClocksBehind | pkg/interpreter/chan.go:238-252 | the same of buffered items, kept receive clocks and the close clock; a closed channel has a close clock |
| RuntimeTheorems.SyncClocksBehind | pkg/interpreter/interpreter.go:1831-1912 | the same of the release clocks of mutexes and wait groups |
| RuntimeMade.ChannelsAreAsMade | pkg/interpreter/chan.go:87-92 | in every reachable state a channel exists exactly if a step made it, with the capacity that step asked for, and is closed exactly if a step closed it |
| RuntimeMade.CapacityIsAsMade | pkg/interpreter/chan.go:87-92 | a channel made with room for n values has room for n in every later state |
| RuntimeCounts.CountsAreOfSteps | pkg/interpreter/interpreter.go:1828-1929 | in every reachable state a wait group's counter is the sum of the deltas added so far, a mutex is locked exactly if its last Lock or Unlock was a Lock, and its readers are the RLocks not undone |
| RuntimeCounts.WaitAnswers | pkg/interpreter/interpreter.go:1920-1927 | in every reachable state a Wait returns exactly if that sum is not positive, and else waits |
| RuntimeCounts.WaitingWaitAnswers | pkg/interpreter/interpreter.go:1920-1927 | a waiting Wait may go on exactly where that sum is not positive, and then returns |
| RuntimeCounts.UnlockAnswers | pkg/interpreter/interpreter.go:1862-1870 | an Unlock panics, leaving the mutex and every goroutine as they were, exactly if the last Lock or Unlock was not a Lock |
| RuntimeCounts.RUnlockAnswers | pkg/interpreter/interpreter.go:1880-1889 | an RUnlock panics, leaving the mutex and every goroutine as they were, exactly if every RLock has been undone |
| RuntimeWaits.StepParks | pkg/interpreter/chan.go:195-310 | every action but an abort leaves its goroutine waiting for that very action if its outcome says so, and able to act otherwise |
| RuntimeWaits.WaitBegan | pkg/interpreter/chan.go:195-310 | in every run a goroutine waits for the operation it last began, with that channel, value, cases or group, and has done nothing since |
| RuntimeWaits.WaitingSelectOffers | pkg/interpreter/chan.go:454-468 | in every run a waiting select has offered each case on an unbuffered channel, with its direction, value and index, and the offer is still there |
| RuntimeWaits.LiveIffWaiting | pkg/interpreter/chan.go:78-121 | in every reachable state the waiters that can be met on an open channel are exactly those in which a goroutine waits and which nobody has met |
| RuntimeAnswers.ProceedsIff | pkg/interpreter/chan.go:132-151 | the tests canSend and canRecv are exact: closed, room for one more than are sent and not received, a value sent and not received, or a goroutine that waits in the other direction, leaving out the select's own offers |
| RuntimeAnswers.SendAnswers | pkg/interpreter/chan.go:195-235 | in every reachable state how a send answers: no effect on an unknown channel, a panic on a closed one, completion with room or by giving the value to the oldest waiting receiver, and else a wait |
| RuntimeAnswers.RecvAnswers | pkg/interpreter/chan.go:280-352 | in every reachable state how a receive answers: the first value not received, the value of the oldest waiting sender, the zero value without ok if closed and drained, and else a wait |
| RuntimeAnswers.CloseAnswers | pkg/interpreter/chan.go:364-378 | a close of an unknown channel has no effect, a second close panics and changes nothing, the first one closes |
| RuntimeAnswers.SelectAnswers | pkg/interpreter/chan.go:402-501 | in every reachable state a select does exactly what its first case that need not wait would do alone; without one it takes the default and changes nothing, or waits |
| RuntimeAnswers.MayResumeIff | pkg/interpreter/chan.go:202-305 | in every reachable state a goroutine may resume exactly when what it waits for has come about, in terms of counterparts, closes, values and Adds |
| RuntimeAnswers.ResumeAnswers | pkg/interpreter/chan.go:224-310 | how it then ends: a met operation with what it was given, a send ended by a close with a panic, a receive ended by one with the zero value and not ok, a select with its met or else its first case |
| RuntimeAnswers.CloseWakes | pkg/interpreter/chan.go:364-378 | a close lets every goroutine resume that waits to send or receive on the channel or in a select with a case on it |
| RuntimeAnswers.MetInOrder | pkg/interpreter/chan.go:101-111 | in every run waiters on a channel are met in the order in which they began to wait |
| RuntimeTheorems.NoMissedRendezvous | pkg/interpreter/chan.go:215-223 | in every reachable state an open channel has a live waiting sender and a live waiting receiver only if both belong to one select |
| RuntimeTheorems.OldestWaiterFirst | pkg/interpreter/chan.go:101-111 | the waiter popLive finds exists whenever any waiter is live on that side, and is the oldest |
| RuntimeTheorems.ReceivesMatchDistinctSends | pkg/interpreter/chan.go:342-346 | in every reachable state each completed receive has the value of its own send |
| RuntimeTheorems.SentIsReceivedThenBuffered | pkg/interpreter/chan.go:238-252 | in every reachable state of a channel made with room for n values the sent values are the received ones followed by the buffer, which holds at most n |
| RuntimeTheorems.SendMergesReceiveCapacityEarlier | pkg/interpreter/chan.go:239-249 | on a channel made with room for n, a send with room finds a kept clock exactly when n values have been sent, and it is the one published by the receive n places earlier |
| RuntimeHistory.SettledForever | pkg/interpreter/chan.go:123-130 | over any stretch of any run a completed or withdrawn waiter stays so with the same counterpart and value: none is claimed twice or after its offer was withdrawn |
| RuntimeDelivery.ResumedSelectFinishes | pkg/interpreter/chan.go:469-501 | a resumed select finishes with the case its counterpart completed, or with the first case ready without its own offers; it never parks again or finds no case, and panics only sending on a closed channel |
| RuntimeDelivery.OneCasePerSelect | pkg/interpreter/chan.go:123-130 | in every reachable state at most one offered case of a select has met a counterpart, and it is the one recorded |
| RuntimeDelivery.ResumedSelectMovesOneChannel | pkg/interpreter/chan.go:477-501 | only the chosen case takes effect: no other channel's buffer, queues or history change |
| RuntimeDelivery.StepTakes | pkg/interpreter/chan.go:280-346 | in every step the receive history grows by exactly the value the program received with ok, on that channel |
| RuntimeSends.StepSends | pkg/interpreter/chan.go:195-252 | in every step the send history grows by exactly the send its goroutine completes, a select's too, or the waiting send its receive meets, on that channel and with that value |
| RuntimeDelivery.ReceiptsAreTaken | pkg/interpreter/chan.go:280-346 | in every run what the program received from a channel is, in order, the receive history |
| RuntimeDelivery.EachReceiptIsItsOwnSend | pkg/interpreter/chan.go:195-346 | in every run the values received from a channel are the values of distinct sends: nothing is invented and nothing is delivered twice |
| RuntimeSends.EachSentIsASend | pkg/interpreter/chan.go:195-346 | in every run each value of the send history was recorded by the step that completed a send of that value on that channel |
| RuntimeSends.WaitingSendWasMade | pkg/interpreter/chan.go:222-223 | in every run each waiting send was offered by an earlier send or select of its goroutine, on that channel and with that value |
| RuntimeDelivery.BufferedReceiptsAreFifo | pkg/interpreter/chan.go:238-332 | in every run of a buffered channel what was sent is what the program received followed by what the buffer holds |
| RuntimeLossless.NothingIsLost | pkg/interpreter/chan.go:195-346 | in every run in which no goroutine holding a value of an unbuffered channel is aborted, every value handed over on it was received or is held for the receiver that will return it |
| RuntimeLossless.LostIffDropped | pkg/interpreter/chan.go:224-228 | in every run a value handed over on an unbuffered channel is lost exactly when the goroutine that held it was aborted |
| RuntimeEdges.BufferedSendBeforeReceive | pkg/interpreter/chan.go:18-24 | in every run the k-th send on a buffered channel comes before the k-th receive and is synchronised before it |
| RuntimeEdges.ReceiveBeforeSendCapacityLater | pkg/interpreter/chan.go:238-252 | in every run the k-th receive on a channel made with capacity n is synchronised before the (k+n)-th send |
| RuntimeEdges.OfferBeforeCompletion | pkg/interpreter/chan.go:215-221 | in every run a waiting send or receive is synchronised before the operation that meets it |
| RuntimeEdges.CompletionBeforeReturn | pkg/interpreter/chan.go:224-234 | in every run the operation that met a waiting one is synchronised before the waiting one returns, in a select too |
| RuntimeEdges.CloseBeforeEmptyReceive | pkg/interpreter/chan.go:349-378 | in every run a close is synchronised before every receive that returns without a value |
| RuntimeEdges.ChannelsGrow | pkg/interpreter/chan.go:202-211 | along every run channel histories only grow, a closed channel stays closed, and after the close nothing more is sent |
| RuntimeEdges.EdgeOrdersAccesses | pkg/interpreter/chan.go:18-24 | across any of these edges what the first goroutine accessed before happens before what the second accesses after |
| RuntimeEdges.GoOrdersAccesses | pkg/interpreter/exec.go:347-358 | what a goroutine accessed before a go statement happens before everything the new goroutine accesses |
| RuntimeEvents.EveryEventHasItsOperation | pkg/interpreter/chan.go:153-178 | in every run each clock event was recorded by a step of its goroutine that did the operation the event stands for |
| RuntimeEvents.NoSpuriousEdge | pkg/interpreter/chan.go:12-24 | in every run each edge joins two steps that did the matching operations: the k-th send and receive, a close and a receive it ended, an offer and its completion, a release and an acquire of one allocation |
| RuntimeSync.GenerationsCountUnlocks | pkg/interpreter/interpreter.go:1780-1816 | an allocation's release clock is of the same generation at two states exactly when no Unlock of it came between |
| RuntimeOrder.AcquireOrderIff | pkg/interpreter/interpreter.go:1828-1929 | for every event and every later Lock, RLock or returning Wait of a released allocation, exactly when the one happens before the other |
| RuntimeOrder.DoneBeforeWaitIff | pkg/interpreter/interpreter.go:1894-1929 | a Done happens before a later Wait returns exactly when it is or precedes a release no Unlock replaced, or reaches the waiter otherwise; always without an Unlock between |
| RuntimeOrder.UnlockBeforeLockIff | pkg/interpreter/interpreter.go:1832-1870 | the same of an Unlock and a later Lock or RLock, a Lock also through an RUnlock |
| RuntimeOrder.UnlocksAreOrdered | pkg/interpreter/interpreter.go:1832-1870 | if each Unlock is by a goroutine that locked since the previous Unlock, the Unlocks of an allocation are totally ordered |
| RuntimeOrder.DisciplinedUnlockBeforeLock | pkg/interpreter/interpreter.go:1832-1870 | then every Unlock happens before every later Lock and RLock |
| RuntimeOrder.StolenUnlockIsHidden | pkg/interpreter/interpreter.go:1862-1870 | a run in which another goroutine unlocks what one locked, and the earlier Unlock does not happen before a later Lock |
| RuntimeSync.RUnlockReachesLock | pkg/interpreter/interpreter.go:1828-1889 | every RUnlock happens before every later Lock of the allocation |
| RuntimeSync.UnlockHidesDone | pkg/interpreter/interpreter.go:1862-1870 | a run in which an Unlock in the same allocation comes between a Done and the Wait, and no chain orders the Done before the Wait |
| RuntimeRaces.AccessClocksCharacteriseChains | pkg/interpreter/chan.go:18-24 | in every run of the runtime the clocks with which two accesses are checked are ordered exactly when a chain of program order, go statements, rendezvous, buffered sends and receives, closes and sync operations orders them |
| RuntimeRaces.RuntimeReportsAreRaces | pkg/detector/detector.go:286-319 | every report of the detector beside any run of the runtime is a race between an earlier access step and this one, and names both |
| RuntimeRaces.FirstRuntimeReportIsExact | pkg/detector/detector.go:292-316 | up to the first report at a byte in any run of the runtime, the detector finds exactly the accesses unordered with an earlier write, or writes unordered with the last read |
| ChannelOps.Interpreter.FindLive | pkg/interpreter/chan.go:101-111 | the loop finds the first live entry of a queue |
| ChannelOps.Interpreter.AnyLive | pkg/interpreter/chan.go:114-121 | the loop decides whether a live entry outside a select exists |
| ChannelOps.Interpreter.RecvWouldProceed | pkg/interpreter/chan.go:134-139 | decides whether a receive would complete now |
| ChannelOps.Interpreter.SendWouldProceed | pkg/interpreter/chan.go:143-151 | decides whether a send would proceed now |
| ChannelOps.Interpreter.CaseWouldProceed | pkg/interpreter/chan.go:391-400 | decides whether a case is ready |
| ChannelOps.Interpreter.FindReady | pkg/interpreter/chan.go:421-428 | the loop finds the first ready case in source order |
| ChannelOps.Interpreter.OfferCases | pkg/interpreter/chan.go:454-468 | the loop makes the specified offers, one per case on an unbuffered channel |
| ChannelOps.Interpreter.WaitIsOver | pkg/interpreter/chan.go:202-204 | decides the readiness predicate of any wait |
| ChannelOps.Interpreter.Perform | pkg/interpreter/chan.go:12-24 | any action takes exactly the step of the specification and keeps the runtime invariant |
| Baton.TakeTaskRemovesOne | pkg/interpreter/gosched.go:201-211 | taking a task by moving the last one leaves exactly the other tasks |
| Baton.TakeTask | pkg/interpreter/gosched.go:201-211 | the in-place loop finds a goroutine's entry exactly when it is queued, and removes it |
| Baton.RunsKeepInv | pkg/interpreter/gosched.go:73-279 | every state of every run of the protocol satisfies its invariant |
| Baton.OneHostActs | pkg/interpreter/gosched.go:16-31 | in every state at most one host acts, none while a message is in flight, and until runDriver returns there is one or the other: the baton is neither duplicated nor lost |
| Baton.WokenToRunIsReady | pkg/interpreter/gosched.go:120-135 | block returns true only in a state where its readiness predicate holds |
| Baton.PickIsQueuedOrParked | pkg/interpreter/gosched.go:186-198 | whichever candidate is picked is queued and not started, or parked, so transfer's panic is unreachable |
| Baton.NothingOutlivesRunDriver | pkg/interpreter/gosched.go:70-88 | when runDriver returns no host, message or queued task is left |
| Baton.DeadlockIsSound | pkg/interpreter/gosched.go:136-143 | a deadlock is recorded only when the run is not halting, the queue is empty and every waiting goroutine, the driver's among them, has a false predicate; the run is then halted |
| Baton.DeadlockIsReported | pkg/interpreter/gosched.go:117-143 | a deadlock is recorded exactly when the driver's goroutine begins or goes on waiting with a false predicate while the queue is empty and no host's wait is over, unless the run is halting or one is recorded |
| Baton.DrainedIsAsleep | pkg/interpreter/gosched.go:240-251 | when draining ends without a halt every goroutine still blocked has a false predicate and none is queued |
| Baton.NeverStuck | pkg/interpreter/gosched.go:95-279 | until runDriver returns a step of the protocol itself is possible, without more work of the program |
| Returning.HaltingRunsAreShort | pkg/interpreter/gosched.go:95-279 | once the run is halting, a number computed from the state bounds the steps that can still follow without work of the program, whatever they are |
| Returning.HaltingRunsReturn | pkg/interpreter/gosched.go:70-88 | from every state of a halting run runDriver returns within that many steps |
| RuntimeDeadlock.StepIsOwn | pkg/interpreter/chan.go:195-501 | no operation touches another goroutine's clock or wait: others are reached through queues, tables and released clocks only |
| RuntimeDeadlock.RunsKeepCoupled | pkg/interpreter/gosched.go:112-135 | in every run of the protocol and the runtime together, until it is halted, the goroutines the protocol holds ready are those whose waits in the runtime are over, and parked ones are in a wait |
| RuntimeDeadlock.DeadlockIffNobodyCanAct | pkg/interpreter/gosched.go:117-143 | in every such run a deadlock is recorded exactly when the driver's goroutine blocks, or is woken where it is parked, and no goroutine that has not ended has any operation it may perform |
| Scheduling.RoundRobin.Next | pkg/scheduler/scheduler.go:64-72 | picks a runnable goroutine, the next place in sorted order; -1 only when there is none |
| Scheduling.UnchangedSetIsServed | pkg/scheduler/scheduler.go:64-72 | a caller that offers Next the same n goroutines n times in a row, which pickNext is not, has each of them picked |
| Fairness.RoundRobinCanStarve | pkg/interpreter/gosched.go:156-181 | for any three or more goroutines, with any ids, and any number of decisions, a run of the protocol in which the second smallest could run at each of them and is never picked |
| Fairness.PickedIffRank | pkg/interpreter/gosched.go:156-181 | in every run with round robin a goroutine is picked exactly when the run is not halting, it is a candidate, and the number of candidates with a smaller id is the turn |
| Fairness.SteadyRunsExist | pkg/interpreter/gosched.go:112-211 | for any two or more goroutines and any number of decisions there is a run in which they stay able to run |
| Fairness.TwoAreServed | pkg/interpreter/gosched.go:156-181 | two goroutines that alone stay able to run are each picked in any two decisions |
| Fairness.SecondSmallestStarves | pkg/interpreter/gosched.go:156-181 | in every run, while N goroutines, three or more, and no others stay able to run, from the N-th decision on the second smallest is not picked |
| Fairness.OthersAreServed | pkg/interpreter/gosched.go:156-181 | each other one is then picked in every N - 1 decisions |
| Fairness.FairIffTwo | pkg/scheduler/scheduler.go:62-72 | in every run, while a set of goroutines and no others stay able to run, all of them are picked again and again if and only if there are two |
| Scheduling.Pct.AssignPriorities | pkg/scheduler/scheduler.go:172-177 | each new goroutine gets one of the values drawn, others keep theirs |
| Scheduling.Pct.ChangePriority | pkg/scheduler/scheduler.go:179-187 | exactly at a change point the runnable goroutine at the drawn place gets minus the next value drawn as priority, and no other changes |
| Scheduling.Pct.Highest | pkg/scheduler/scheduler.go:189-197 | the loop finds the first runnable goroutine of highest priority |
| Scheduling.Pct.Next | pkg/scheduler/scheduler.go:164-200 | picks the first runnable goroutine of highest priority; -1 only when there is none |
| Scheduling.Candidates | pkg/interpreter/gosched.go:164-180 | the loops collect exactly the queued goroutines and the waiting ones whose wait is over, in order |
| Scheduling.PickNext | pkg/interpreter/gosched.go:156-181 | the pick is the candidate whose turn it is; there is none only if the run halts or there is no candidate, also by the shortcut |
| Scheduling.PickNextPct | pkg/interpreter/gosched.go:156-181 | with the PCT strategy the pick is the first candidate of highest priority; the strategy is consulted exactly when the run is not halting and there is a candidate |
| Integers.WrapRepresents | pkg/interpreter/concrete.go:91-110 | wrap gives a representation congruent to its argument modulo 2^bits |
| Integers.ArithIsGo | pkg/interpreter/concrete.go:139-161 | for every width and signedness, + - * / % on representations represent the exact result wrapped around to the kind |
| Integers.TruncatedDivision | pkg/interpreter/concrete.go:146-161 | quotient and remainder satisfy x = q*y + r with r smaller than y and of x's sign |
| Integers.QuotientOverflow | pkg/interpreter/concrete.go:146-153 | division is exact except for the most negative value divided by -1, which yields the dividend |
| Integers.RemainderIsExact | pkg/interpreter/concrete.go:154-161 | a remainder never overflows |
| Integers.NegIsGo | pkg/interpreter/concrete.go:266-268 | negation represents the negated value wrapped around |
| Integers.CompareIsGo | pkg/interpreter/concrete.go:190-213 | comparisons of representations compare the values, signed or unsigned |
| Integers.ConvertIsGo | pkg/interpreter/concrete.go:292-297 | conversion between integer kinds keeps the value modulo the target's size, and exactly when it fits |
| IntegerBits.BitwiseIsGo | pkg/interpreter/concrete.go:162-169 | AND, OR, XOR and AND NOT act on each bit of the values and give a representation, normalised or not |
| IntegerBits.BitsDecideValue | pkg/interpreter/concrete.go:54-61 | two representations of a kind with the same bits are equal |
| IntegerBits.ComplementIsGo | pkg/interpreter/concrete.go:269-270 | complement flips each bit of the value and gives a representation |
| IntegerBits.ShlIsGo | pkg/interpreter/concrete.go:170-179 | for every count a left shift represents the value times 2^count wrapped around |
| IntegerBits.ShrIsGo | pkg/interpreter/concrete.go:180-189 | for every count a right shift represents the value divided by 2^count, rounded down |
| IntegerBits.TruncTowardZero | pkg/interpreter/concrete.go:338-338 | truncation drops the fraction and keeps the sign |
| IntegerBits.FloatToIntClamps | pkg/interpreter/concrete.go:332-357 | a float converts to its truncation clamped to the kind's range; infinities to the bounds, NaN to 0 |
| Uintptr.RoundTrip | pkg/interpreter/concrete.go:455-468 | encodable pointers survive encoding and decoding, and only nil encodes as 0 |
| Uintptr.RoundTripIff | pkg/interpreter/concrete.go:446-468 | for every allocation id, a pointer survives exactly when the id is below 2^31 or among the last 2^31 and its offset is in [-2^31, 2^31) |
| Uintptr.FarOffsetIsLost | pkg/interpreter/concrete.go:446-468 | offset 2^31 in allocation 1 decodes as offset -2^31 in allocation 2 |
| Uintptr.ArithmeticMovesOffset | pkg/interpreter/concrete.go:446-468 | adding to an encoded pointer moves its offset within the allocation while it stays in range |
| Uintptr.RangesAreDisjoint | pkg/interpreter/concrete.go:446-453 | encodings of different allocations do not mix, and order, distance and alignment within one are kept |
| Memory.RepeatLeaves | pkg/interpreter/concrete.go:649-656 | the nested loops give the array's repeated layout |
| Memory.LayoutIsPacked | pkg/interpreter/concrete.go:642-670 | for every nested array and struct type leaf offsets increase strictly, leaves do not overlap, and all are inside the type |
| Memory.ComponentLayout | pkg/interpreter/concrete.go:643-670 | a field's or element's layout is a run of the whole's layout at its offset |
| Memory.LoadAfterStore | pkg/interpreter/concrete.go:673-703 | scatter then gather is the identity; zero and unknown values read back leaf by leaf as zero and unknown |
| Memory.StoreFrame | pkg/interpreter/concrete.go:688-703 | a store changes nothing outside the value's own bytes |
| Memory.LoadElsewhere | pkg/interpreter/concrete.go:673-703 | a load of memory that does not overlap a store is not affected by it |
| Memory.SearchLeaf | pkg/interpreter/concrete.go:716-718 | the binary search finds the first leaf at or after an offset |
| Memory.ProjectIsLoad | pkg/interpreter/concrete.go:707-753 | projecting a field or element from a loaded value is loading it at its derived address |
| Memory.LoadComponentAfterStore | pkg/interpreter/concrete.go:688-731 | storing any value, zero and unknown ones included, and loading a component is projecting the component from what was stored |
| Memory.ProjectAgreesWithMemory | pkg/interpreter/concrete.go:707-753 | projecting a component from a value directly agrees with loading it from where the value was stored |
| Slices.GrowCap | pkg/interpreter/concrete.go:1040-1057 | the loop ends with the first capacity of the growth sequence that is at least the new length, exactly the new length beyond double the old capacity, double the old capacity when that is below 256, and less than a quarter of the length plus 192 above it otherwise |
| Slices.Heap.LoadValue | pkg/interpreter/concrete.go:814-825 | the gather loop reads the value of the flat store |
| Slices.Heap.StoreValue | pkg/interpreter/concrete.go:829-838 | the scatter loop writes the value to the flat store |
| Slices.Heap.SliceElems | pkg/interpreter/concrete.go:865-881 | reads all elements of a slice, none of a nil one |
| Slices.Heap.NewSlice | pkg/interpreter/concrete.go:842-861 | a slice in fresh memory holding the given elements; nothing else changes |
| Slices.Heap.AppendInPlace | pkg/interpreter/concrete.go:932-938 | with room, writes only slots beyond the base's length |
| Slices.Heap.AppendValues | pkg/interpreter/concrete.go:901-944 | the result holds the base's elements followed by the extra ones and the base still sees its own, in place or reallocated |
| Slices.Heap.AppendSlice | pkg/interpreter/concrete.go:916-944 | the same when the appended slice shares memory with the base |
| Slices.Heap.Copy | pkg/interpreter/concrete.go:946-969 | copies the shorter length as a simultaneous move, also between overlapping slices, and changes nothing else |
| Ssa.PureIsFunctional | pkg/interpreter/session.go:423-476 | a pure instruction that is not disguised leaves all memory alone, and its result, panic and own reports depend on its operand values only: two interpreters that agree on nothing else get the same |
| Ssa.PanicsIff | pkg/interpreter/session.go:605-624 | a pure instruction other than a call panics exactly on an integer division by zero or a negative signed shift count, and reports it |
| Evaluation.ArithmeticIsGo | pkg/interpreter/concrete.go:131-161 | executing an integer + - * / % on operands in source order binds the exact result wrapped around to the kind, and does nothing else |
| Evaluation.DivisionByZeroPanics | pkg/interpreter/session.go:606-613 | integer division by zero reports, begins a panic and binds 0 |
| Evaluation.BitOperationIsGo | pkg/interpreter/concrete.go:162-169 | executing AND, OR, XOR or AND NOT binds the operation on each pair of bits |
| Evaluation.ShiftIsGo | pkg/interpreter/concrete.go:170-189 | executing a shift by a count of any integer kind that is not negative binds the wrapped product or the quotient rounded down |
| Evaluation.NegativeShiftPanics | pkg/interpreter/session.go:614-622 | a negative shift count reports itself, begins a panic and binds 0 |
| Evaluation.ComparisonIsGo | pkg/interpreter/concrete.go:190-213 | executing an integer comparison binds the comparison of the values, signed or unsigned |
| Evaluation.BooleanIsGo | pkg/interpreter/exec.go:2191-2205 | boolean operations and comparisons |
| Evaluation.StringComparisonIsGo | pkg/interpreter/exec.go:2207-2232 | a string comparison decides by the first difference |
| Evaluation.ConcatenationIsGo | pkg/interpreter/exec.go:2207-2232 | + on strings is the left followed by the right one |
| Evaluation.FloatsInOrder | pkg/interpreter/concrete.go:217-227 | float arithmetic and comparison take the operands in source order, and round to float32 for that type only arithmetic |
| Evaluation.ComplexInOrder | pkg/interpreter/exec.go:2171-2189 | complex arithmetic takes the operands in source order, and equality is of both parts |
| Evaluation.UnaryIntegerIsGo | pkg/interpreter/concrete.go:260-274 | executing - on an integer binds the wrapped negative, ^ flips every bit |
| Evaluation.UnaryOtherIsGo | pkg/interpreter/exec.go:587-601 | executing ! negates a boolean, - a float or a complex number |
| Evaluation.IntegerConversionIsGo | pkg/interpreter/concrete.go:292-297 | executing a conversion between integer kinds keeps the value modulo the target's size, and exactly when it fits |
| Evaluation.IntegerToFloat | pkg/interpreter/concrete.go:299-313 | an integer converts to the float of its value, signed or unsigned |
| Evaluation.FloatToInteger | pkg/interpreter/concrete.go:315-320 | a float converts to its truncation clamped to the kind's range |
| Evaluation.FloatToFloat | pkg/interpreter/concrete.go:322-327 | a float converts to a float, rounded exactly when the target is float32 |
| Evaluation.OtherConversions | pkg/interpreter/exec.go:2409-2487 | an integer converts to the string of that rune or a complex number without imaginary part, as does a float to the latter |
| Evaluation.ChangeTypeKeepsValue | pkg/interpreter/exec.go:1333-1335 | a change of type binds the same value |
| Evaluation.CallPassesArguments | pkg/interpreter/exec.go:1391-1561 | a pure intercept gets the arguments in order, its safepoint is checked, and its panic is the call's |
| Evaluation.PureIff | pkg/interpreter/session.go:439-476 | the pure instructions are exactly those that compute a value without loading or receiving and whose operands and result have scalar types |
| Session.StoredNeverPanics | pkg/interpreter/session.go:435-438 | no entry is stored for a division by zero or a negative shift, although a value is bound for them |
| Session.StoredIsRight | pkg/interpreter/session.go:359-367 | what one execution stored is what executing the instruction on those operands gives in every state of memory, besides what a safepoint finds |
| Session.HitIsExecution | pkg/interpreter/session.go:336-351 | a hit does what executing the instruction would, a call's safepoint included |
| Session.CachedStepAgrees | pkg/interpreter/session.go:309-376 | one instruction with the cache, whatever it has forgotten, does what the instruction without it does |
| Session.CacheIsTransparent | pkg/interpreter/session.go:309-376 | unless it comes to a disguised conversion of a scalar other than an integer, a cached and an uncached run, past recovered panics too, agree at every point on values, memory, reports, trace, step counts and exhaustion, and go on or stop together |
| Session.CompleteRunsAgree | pkg/interpreter/session.go:309-376 | complete runs with and without the cache have the same number of steps and the same end |
| Session.CallsAgree | pkg/interpreter/session.go:215-278 | a whole call ends with the cache exactly when it ends without it, in the same state, and leaves the cache faithful for the next call |
| Session.RemembersIff | pkg/interpreter/session.go:354-367 | a pure instruction on scalars that was not in the cache is afterwards exactly if it reported nothing, did not panic and gave a scalar; it counts as executed |
| Session.RememberedIsHit | pkg/interpreter/session.go:336-351 | what is in the cache is answered from it, counted as a hit and not executed |
| Session.NothingRunsWhilePanicking | pkg/interpreter/exec.go:456-460 | in every run no instruction executes while the goroutine has stopped or a panic unwinds |
| Session.ClassesCount | pkg/interpreter/session.go:318-355 | in every run, cached or not, each class counts exactly the instructions of that class |
| Session.DisguisedHitIff | pkg/interpreter/exec.go:2058-2082 | a hit on a disguised conversion agrees with its execution exactly when clearing the pending conversions changes nothing |
| Session.DisguisedIntegerIsNotStored | pkg/interpreter/concrete.go:492-512 | on an integer such a conversion yields a pointer or nil and is never stored |
| Session.MasqueradeShows | pkg/interpreter/session.go:335-351 | for every such conversion and operand other than an integer, a program and two runs of it: the hit leaves pinned what the execution clears |
| Session.StepIsAccounted | pkg/interpreter/session.go:311-356 | each instruction counts one step in one class, steps never pass the limit, and the run is exhausted exactly when it reaches it |
| Session.BudgetEnds | pkg/interpreter/session.go:309-315 | a call with a budget ends within one round more than its budget |
| Session.Session.ResolveOperands | pkg/interpreter/session.go:403-421 | the loop resolves the operands in order |
| Session.Session.AllScalarValues | pkg/interpreter/session.go:381-388 | the loop decides whether every operand is a scalar |
| Session.Session.ExecInstruction | pkg/interpreter/session.go:309-376 | takes the specified instruction, with or without a cache |
| Session.Session.Call | pkg/interpreter/session.go:215-278 | with any budget, 0 for none, a call runs to its end; it takes at most its budget, its class counts add up to its steps, it is exhausted only at exactly the budget, and a panic is reported exactly when it was not cut off |
| ExecRun.Run | pkg/exec/exec.go:226-353 | nothing runs if an argument set is not good, and the first fault is returned; otherwise the k-th call begins with the k-th set's arguments in the state the calls before left and runs to its end, outcome, outputs, read-back arguments, steps, trace and violations of the k-th set are those of that call, steps are the sum per set and per class and within the budget, every call's limit is the budget itself, no spent budget is passed on, and the run is exhausted exactly when its last outcome is |
| ExecRun.CheckArgs | pkg/exec/exec.go:234-245 | the loops find the first set with a wrong count, or the first value that does not match its parameter |
| Slots.SlotTable.NumberFunc | pkg/interpreter/slots.go:26-54 | a function's values get the slots 0 to n-1, each exactly one, and earlier numbers stay |
| Slots.Frame.constructor | pkg/interpreter/slots.go:57-64 | a new frame stands for the empty map |
| Slots.Frame.SetLocal | pkg/interpreter/slots.go:67-76 | writing a slot updates the map from values the frame stands for |
| Slots.Frame.GetLocal | pkg/interpreter/slots.go:79-88 | reading a slot is looking the value up in that map |
| Slots.Goroutines.Lookup | pkg/interpreter/slots.go:108-120 | the lookup agrees with the table whatever is cached |
| Slots.Goroutines.Add | pkg/interpreter/interpreter.go:932-933 | a new goroutine keeps the cache coherent |
| Slots.Goroutines.Forget | pkg/interpreter/slots.go:122-128 | forgetting a goroutine keeps the cache coherent |

## Left out

- Runs without race tracking: clocks are then nil; the runtime model always tracks them.
- Goroutine ends: a finished goroutine stays in the model's table, as in the code's, and simply takes no more steps.
- Sudogs, select waits and channels are entries of the interpreter's tables rather than heap objects, so aliasing between them is by index.
- Refill channels (timers, signals), probes, errgroups, host crashes and a missing scheduler: stand-ins and implementation detail.
- Mutual exclusion, Cond, Once, sync.Map and Pool: Lock never waits here, so only release and acquire clocks are modelled.
- Arena escapes, site strings and violation texts of channel operations: they do not influence the steps.
- Arithmetic on floats and complex numbers, runes and the pure intercepts: parameters of `Ssa`; float to integer conversion is over the reals.
- In a session: loads, stores, calls into interpreted functions, and everything between two instructions (branches, defers, recovery, goroutine switches) are arbitrary parameters; line suppressions of reports and symbolic mode are not modelled.
- Deferred calls of an aborted goroutine: in `RuntimeDeadlock` an aborted goroutine only ends its wait.
- The result tuple of a select's other receive cases, which hold zero values.
- Session.Session.Call: without a budget takes a bound on the rounds the program needs, because a call without a budget need not end.
- Matching a Go value with a parameter type, unsupported signatures, marshalling and reading back are parameters of `ExecRun`.
- Slices.Heap.AppendValues: string sources are given as their element values.
- Memory.LayoutIsPacked: field offsets and sizes are given, with what types.Sizes promises about them.
- Races.QuietIsRaceFreeIff: is about one byte and one detector run; between session calls the history is forgotten (`Dormancy`).
- Fairness.FairIffTwo: is about a set of goroutines that stays the same for the decisions considered; with goroutines coming and going only which one is picked is stated (`Fairness.PickedIffRank`).
- The PCT probability bound, which is a claim about random draws.
- Package loading, the standard-library intercept tables, reporting, caching of results on disk and the language server.
