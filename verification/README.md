# Verified models of the asyncio runtime

This project models the lock-free core of a C async I/O runtime and the incremental
HTTP and URI code that ships with it, and proves what that code promises.

* **Timer wheel** (`Radix`, `Geometry`, `TimerClock`, `WheelScan`, `Wheel*`,
  `TimerWheel`). A cascading wheel whose slots hold a chain and the start of the window
  they are open for, a helping sweep cursor, an occupancy bitmap that sleep is planned
  from, and the pre-clear protocol that keeps bitmap and chains in step. `WheelMachine`
  is the concurrent wheel, one atomic access a step, for any number of inserters,
  sweepers and loops; `TimerWheel` is the same code run by one thread, as a class that
  refines a multimap from deadlines to links. The number of levels and of bits per level
  are parameters (at least 1 and at least 6).
* **Concurrent queue** (`Queue*`): the bounded rings of the unbounded multi-producer,
  multi-consumer queue, the ladder of rings and the sealing of drained ones, for any
  number of rings and any size of the first one.
* **Combiner and object lifetime** (`Combiner*`): the tagged stack in one word that is an
  object's lock and its ordered mailbox, with reference counts and the delete signal.
* **Operation queues** (`OperationQueue`): the doubly linked queues on the heap and the
  walks that cancel, reap and execute them.
* **User events**: the timer's control word (`EventTimer`), what becomes of its ticks
  (`EventTicks`), of publications and signals (`EventRequests`) and of schedules
  (`EventSchedules`), the waiter word (`EventWaiter`) and its permits (`EventPermits`); and the **coroutine wake counter**
  (`CoroutineCounter`).
* **HTTP** (`Digits`, `Http*`): the scanners as loops, the request and response parsers as
  a class that is fed one buffer at a time, the proof of what the cuts between buffers
  change (`HttpCut`, `HttpResponse`), and the other direction: messages written from their
  parts are reported as those parts (`HttpRequestLine`, `HttpHeaders`, `HttpFraming`,
  `HttpChunks`, `HttpMessages`).
* **Header table** (`Header*`): the perfect hash table that is built at run time, and its
  one-probe lookup.
* **URI** (`UriPercent`, `UriIpv6`, `UriIpv6Steps`, `UriIpv6Text`, `UriIpv6Strict`):
  percent escapes and IPv6 literals, both printed and read, and the reader against the
  grammar of RFC 3986.

Concurrent code is a state machine: a step is one load, store, fetch operation or
compare-and-swap of one thread, the halves of a 128-bit load are separate steps, and a
run is any sequence of steps of any threads. Theorems quantify over all runs. Auxiliary
state (which publication a chain entry belongs to, what was pushed and dispatched in
which order) is never read by a step. Sequential code is imperative: classes, arrays and
loops, each method proved against a specification function or an outright property.

## What the models show

* **One-level wheels refuse too early.** `timerWheelInsert` refuses when a level-0 window
  is missed. For every geometry the refusal is sound when the deadline is in range of the
  cursor hint (`RefusalSound`), as it always is with two levels or more, and `RefusalExact`
  proves that nothing less will do. With a single level a deadline beyond the range is
  clamped to the last window in range; `RefusesAhead` sweeps such a wheel for a whole range
  and has an insert refused whose deadline is still ahead. The shipped geometry has more
  than one level.
* **A queue whose first ring has one cell loses values.** The size of the first ring is a
  compile-time setting that may be 1. The sequence number of a cell that was just published
  is then the next position, so the next push overwrites it: `Overwrites` is a run of two
  pushes, and `NothingLostExact` proves that nothing is lost if and only if the first ring
  has two cells or more.
* **A late `coroutineCall` can enter a finished coroutine.** The call looks at the
  finished flag and then adds to the counter; if the coroutine finishes and is freed in
  between, the add sees a counter at rest. `LateCallReenters` is such a run, and
  `LateCallExact` says exactly when it happens. Without late calls the counter keeps all
  its promises.
* **A timeout is never early** exactly as long as arming time plus timeout stays within
  the representable tick grid, where the deadline saturates (`NeverEarly`).
* **Percent decoding undoes percent encoding** for exactly the extra sets without `%`
  (`RoundTripExact`); the four sets in use are such sets.
* **IPv6 literals with leading zeros**: the reader accepts octets with leading zeros in an
  embedded dotted quad, which `dec-octet` in section 3.2.2 of RFC 3986, cited by the code,
  does not have. `StrictExact` proves that this is the only difference: by the grammar a
  text means what the reader makes of it exactly when its quad has no such octet, and
  nothing otherwise. `PaddedIsAccepted` is the literal `::1.02.3.4`.
* **The final mark of a response body depends on the cuts.** A response parser marks the
  last report of a body of known length only when that report is the whole body.
  `ResponseCuts` proves that any cuts give the verdict, phase, length and reports of one
  buffer, with the mark missing exactly when a call ended strictly inside the body;
  `MarkLost` is a message with `Content-Length:2` in two pieces, and `TablesLoseMark`
  says that every header table reads it so. Requests and chunked bodies keep their mark
  whatever the cuts.

## Model

| member | source | states |
|---|---|---|
| Radix.QuotRemIsDivision | src/asyncio/timerWheel.c:86-97 | the quotients and remainders by level widths that the wheel model is written with are those of integer division, as the shifts and masks of powers of two are |
| Geometry.LevelBounds | src/asyncio/timerWheel.c:86-97 | the level chosen by the highest bit of a distance has a period above the distance and a width at most it |
| Geometry.RouteLands | src/asyncio/timerWheel.c:178-230 | routing lands in a window of the chosen slot that opens at or after the hint, strictly after it above level 0, within one rotation |
| Geometry.RerouteDescends | src/asyncio/timerWheel.c:178-230 | the retry from a missed window is closer to the deadline and strictly descends a level when the deadline is in range |
| Geometry.LevelZeroIsExact | src/asyncio/timerWheel.c:178-230 | a level-0 route names the deadline's own tick if and only if it was not clamped to the range; with two levels it never is |
| Geometry.MismatchIsDrained | src/asyncio/timerWheel.c:178-230 | with all windows below the hint visited, a slot found open for another window proves the routed one drained |
| Geometry.WindowsApart | src/asyncio/timerWheel.c:86-97 | two different windows of the same slot are at least one rotation apart |
| Geometry.WindowsRecur | src/asyncio/timerWheel.c:86-97 | two windows of the same slot are a whole number of rotations apart |
| Geometry.InitialBaseOk | src/asyncio/timerWheel.c:118-135 | initialization opens every slot for the first window that starts at or after the current tick |
| TimerClock.TicksOfReading | src/asyncio/timerWheel.c:99-116 | the tick computed from seconds and nanoseconds separately is the tick of the whole reading |
| TimerClock.NeverEarly | src/asyncio/asyncioImpl.c:190-208 | every sweep that can fire a timeout comes after its microseconds, if and only if arming time plus timeout is within the tick grid |
| TimerClock.DeadlineIsTight | src/asyncio/asyncioImpl.c:190-208 | a deadline one tick sooner would fire early for some arming time in the same tick |
| TimerClock.SleepReaches | src/asyncio/timerWheel.h:56-77 | the kernel wait fits a signed 32-bit millisecond count, never runs past the wake tick, and reaches it if and only if it was not cut short |
| WheelScan.NextVisitIsLeast | src/asyncio/timerWheel.c:453-493 | no window start of a slot lies between a tick and the slot's next visit |
| WheelScan.ScanLevel | src/asyncio/timerWheel.c:453-493 | the circular word scan of one level, with its early exits, serves all occupied slots of the level |
| WheelScan.NearestWake | src/asyncio/timerWheel.c:453-493 | the planned wake is one past the earliest visit of any occupied slot on any level, never when none is occupied |
| WheelScan.WordScanExact | src/asyncio/timerWheel.c:453-493 | the planner of the concurrent model, which loads one word at a time, finds the same wake when the bitmap stays |
| WheelTheorems.RunInvariant | src/asyncio/timerWheel.c:165-585 | every step of every thread keeps the wheel's invariant, so it holds in every state of every run |
| WheelTheorems.NoLostWakeup | src/asyncio/timerWheel.c:249-264 | in no run is every loop asleep past deadline + 1 of a parked link whose insert has returned, unless the doorbell is pending |
| WheelTheorems.BitlessChain | src/asyncio/timerWheel.c:309-372 | a chain in a slot with a clear bit has a publisher that has not set its bit yet, or a visitor between its clear and its drain or repair |
| WheelTheorems.QuiescentBitmap | src/asyncio/timerWheel.c:69-83 | with no thread publishing or visiting, every chain has its bit |
| WheelTheorems.DetachedOnce | src/asyncio/timerWheel.c:309-372 | over a whole run a detached publication never hangs off a slot again and never changes hands |
| WheelTheorems.OnePlace | src/asyncio/timerWheel.c:165-176 | a publication is in exactly its own slot's chain, or in exactly its holder's detached chain, or consumed; no other live publication uses its link |
| WheelTheorems.CursorPasses | src/asyncio/timerWheel.c:426-439 | the cursor never rewinds and stands on every tick it passes |
| WheelTheorems.SweptBelowCursor | src/asyncio/timerWheel.c:407-424 | below the cursor every window has been drained and reopened, and nothing parked is overdue |
| WheelTheorems.TimeoutsSound | src/asyncio/timerWheel.c:376-398 | for every geometry, no link is timed out before its deadline tick is over if the deadline was in range of the hint it was routed from; with two levels or more it always was |
| WheelTheorems.TimedOutOnce | src/asyncio/timerWheel.c:376-398 | no operation generation is timed out twice, for any geometry |
| WheelDelivery.ArmedIsCarried | src/asyncio/timerWheel.c:266-307 | in every state after a timeout was armed, an operation that still waits with its generation has its link parked, held by a sweeper or in an insertion |
| WheelDelivery.SweptIsOver | src/asyncio/timerWheel.c:376-439 | once the cursor is past the deadline and no thread has the link, the operation does not wait any more |
| WheelDelivery.DueIsTimedOut | src/asyncio/timerWheel.c:376-439 | if nothing else ended or recycled it meanwhile, it has been timed out |
| WheelProgress.SweepReaches | src/asyncio/timerWheel.c:426-439 | a sweep that has ended has brought the cursor to its tick |
| WheelProgress.ConfirmPasses | src/asyncio/timerWheel.c:407-424 | a tick that a sweeper confirms is behind the cursor, whoever moved it |
| WheelProgress.RingsForSleepers | src/asyncio/timerWheel.c:249-264 | the bell is rung only by an insert that has seen a loop asleep past its deadline |
| WheelProgress.WakeHasReason | src/asyncio/timerWheel.c:521-578 | the wake that a loop settles on is one tick behind where its scan began, or that of the next visit of a slot which it found marked |
| WheelTheorems.RefusalSound | src/asyncio/timerWheel.c:178-230 | for every geometry and a deadline in range of its hint, an insert is refused, or a link found due, only when the sweep has reached the deadline and the tick is over; for a refused one the deadline's own level-0 slot is drained and open for a later rotation; with two levels or more every deadline is in range |
| WheelTheorems.RefusalExact | src/asyncio/timerWheel.c:178-230 | a level-0 miss is a sound reason to refuse, whatever the sweep did since, if and only if the deadline was within range of the hint |
| WheelTheorems.SingleLevelRefusal | src/asyncio/timerWheel.c:178-230 | on a single-level wheel every deadline beyond the range can meet such a miss while it is still ahead |
| WheelTheorems.NoEarlyTimeout | src/asyncio/timerWheel.c:376-439 | a timeout the concurrent wheel delivers comes at least the requested microseconds after it was armed, with two levels or more or a deadline in range of its hint |
| WheelInsert.InsertPublishKeeps | src/asyncio/timerWheel.c:165-176 | the swap that hangs a link off the exact window it was routed to keeps the whole invariant, whatever the sweepers did since the slot was read |
| WheelInsert.InsertMarkKeeps | src/asyncio/timerWheel.c:165-176 | setting the bit after the publication keeps it, the cover of every sleeping loop included |
| WheelInsert.InsertLostKeeps | src/asyncio/timerWheel.c:178-230 | a lost swap leaves the insert with a true view of the slot |
| WheelInsert.KickEndKeeps | src/asyncio/timerWheel.c:249-264 | when the search for uncovered sleepers ends without one, the insert may return |
| WheelSweep.DetachOpenKeeps | src/asyncio/timerWheel.c:309-372 | announcing a bit about to be cleared keeps the invariant |
| WheelSweep.DetachClearKeeps | src/asyncio/timerWheel.c:309-372 | clearing the bit inside the bracket keeps it: the clearer answers for the chain |
| WheelSweep.DetachRepairKeeps | src/asyncio/timerWheel.c:309-372 | so does setting the bit again after a lost race |
| WheelSweep.DetachDrainKeeps | src/asyncio/timerWheel.c:309-372 | so does the swap that takes the chain and opens the next rotation |
| WheelSweep.ProcessLinkKeeps | src/asyncio/timerWheel.c:376-398 | so does dropping, parking again or timing out a held link |
| WheelSweep.SweepConfirmKeeps | src/asyncio/timerWheel.c:407-424 | so does moving the cursor, by the sweeper or a helper |
| TimerWheel.Wheel.constructor | src/asyncio/timerWheel.c:118-135 | a fresh wheel is consistent, empty and at the current tick |
| TimerWheel.Wheel.Publish | src/asyncio/timerWheel.c:165-176 | the link joins its slot's chain, the bit is set, no window moves |
| TimerWheel.Wheel.Insert | src/asyncio/timerWheel.c:178-230 | from any stale hint the link is parked exactly when its deadline is not swept (and the hint is usable on a single-level wheel); nothing else changes |
| TimerWheel.Wheel.Reopen | src/asyncio/timerWheel.c:309-372 | the chain is taken whole and the slot is open for its next rotation |
| TimerWheel.Wheel.Detach | src/asyncio/timerWheel.c:309-372 | exactly the chain leaves the wheel; a slot already open for a later window keeps its links |
| TimerWheel.Wheel.Handle | src/asyncio/timerWheel.c:376-398 | a link is dropped when its operation is gone, parked again when its deadline is ahead, timed out when due |
| TimerWheel.Wheel.ProcessDetached | src/asyncio/timerWheel.c:376-398 | the due links of a chain are timed out in chain order and the rest stay pending |
| TimerWheel.Wheel.Visit | src/asyncio/timerWheel.c:400-405 | a window visit takes due links only, and opens its slot past the cursor |
| TimerWheel.Wheel.SweepTick | src/asyncio/timerWheel.c:407-424 | sweeping tick t times out exactly the pending links with deadline t, across all cascades |
| TimerWheel.Wheel.Confirm | src/asyncio/timerWheel.c:407-424 | the cursor moves on once every window that starts at it is drained |
| TimerWheel.Wheel.ProcessTimeoutQueue | src/asyncio/timerWheel.c:426-439 | exactly the pending links with a deadline before now are timed out, in deadline order |
| TimerWheel.Wheel.Arm | src/asyncio/timerWheel.c:266-307 | an armed link becomes pending, or is timed out at once when its tick is already swept |
| TimerWheel.Wheel.SetOperation | src/asyncio/asyncioImpl.c:167-188 | after an operation starts, completes or is recycled, its parked links are live exactly when it is pending with their generation; other links and the wheel are as before |
| TimerWheel.Wheel.PlanSleep | src/asyncio/timerWheel.c:521-578 | the planned wake is one past the earliest next visit of a marked slot and never exactly when none is marked; it is at most deadline + 1 of every pending link |
| TimerWheel.Wheel.PendingAhead | src/asyncio/timerWheel.c:407-439 | everything parked has its deadline at or ahead of the cursor |
| TimerWheel.RefusesAhead | src/asyncio/timerWheel.c:178-230 | on every single-level wheel, swept for one range, an insert with a stale hint is refused although its deadline is ahead, and accepted with the current one |
| QueueTheorems.RunInvariant | src/asyncio/ringBuffer.c:40-155 | every step keeps the queue's invariant, for any number of rings and any first ring of two cells or more |
| QueueTheorems.PopReturnsPush | src/asyncio/ringBuffer.c:71-102 | a pop returns the value pushed at the position it took, and no pushed value is returned twice |
| QueueTheorems.NothingLost | src/asyncio/ringBuffer.c:104-155 | with no operation in progress every value ever pushed is in its cell or was returned |
| QueueEmpty.EmptyIsTrue | src/asyncio/ringBuffer.c:123-155 | a pop that answers empty saw it: at some moment of the call the ring read was the ring written and nothing was published at its next position |
| QueueEmpty.EmptyAloneIsDrained | src/asyncio/ringBuffer.c:123-155 | when no other operation was in progress, every value ever pushed has been returned |
| QueueProgress.PushDecides | src/asyncio/ringBuffer.c:40-69 | a push leaves a ring only when it is full or sealed, and looks at it again only when another push has taken the position |
| QueueProgress.PopDecides | src/asyncio/ringBuffer.c:71-102 | a pop looks at a ring again only when another pop has taken the position |
| QueueProgress.GrowPasses | src/asyncio/ringBuffer.c:104-121 | a push that leaves a ring finds the write cursor behind it, unless it is the last ring |
| QueueProgress.AdvancePasses | src/asyncio/ringBuffer.c:123-155 | a pop that leaves a sealed ring finds the read cursor behind it |
| QueueTheorems.TakenInOrder | src/asyncio/ringBuffer.c:123-155 | positions are taken one after the other within a ring, and a later ring after an earlier one |
| QueueTheorems.ReadPassesDrained | src/asyncio/ringBuffer.c:123-155 | the read cursor leaves a ring only when every claimed position was taken, and never passes the write cursor |
| QueueTheorems.SealedForGood | src/asyncio/ringBuffer.c:123-155 | no push claims a cell of a sealed ring again |
| QueueOverwrite.Overwrites | src/asyncio/ringBuffer.c:8-69 | with a first ring of one cell, two pushes one after the other and no pop lose the first value |
| QueueOverwrite.NothingLostExact | src/asyncio/ringBuffer.c:8-69 | in no run is a pushed value lost, if and only if the first ring has two cells or more |
| QueueSteps.PushClaimsKeep | src/asyncio/ringBuffer.c:40-69 | claiming a position keeps the queue's invariant: its cell is free and the position new |
| QueueSteps.PushPublishesKeep | src/asyncio/ringBuffer.c:40-69 | so does publishing the cell |
| QueueSteps.PopClaimsKeep | src/asyncio/ringBuffer.c:71-102 | so does taking a position: its cell holds the value pushed there |
| QueueSteps.PopReleasesKeep | src/asyncio/ringBuffer.c:71-102 | so does freeing the cell for the next turn |
| QueueSteps.PopSealsKeep | src/asyncio/ringBuffer.c:123-155 | so does sealing a ring, which succeeds only when it is drained |
| QueueSteps.PopAdvancesKeep | src/asyncio/ringBuffer.c:123-155 | so does moving the read cursor past a sealed ring |
| CombinerTheorems.RunInvariant | src/asyncio/asyncioImpl.c:698-772 | every step keeps the combiner's invariant |
| CombinerTheorems.SingleOwner | src/asyncio/asyncioImpl.h:221-310 | at most one thread owns a living object, and none exactly when its word is zero |
| CombinerTheorems.DispatchedInOrder | src/asyncio/asyncioImpl.c:698-772 | what was dispatched is a prefix of what was pushed, with the signals that were or-ed on; a zero word leaves nothing undispatched |
| CombinerTheorems.SignalIsPositional | src/asyncio/asyncioImpl.h:221-235 | a signal, whether pushed with a reference, validated by its generation or the delete signal, stays on the entry that was newest when it was pushed, so a sweep covers all before it and nothing after |
| CombinerPushes.ValidatedSignalLands | src/asyncio/asyncioImpl.h:221-235 | a signal begun for the current generation of a living object is, however often its swap loses, on an entry no older than the newest at the beginning when the thread is through and the generation is kept |
| CombinerPushes.OperationLands | src/asyncio/asyncioImpl.h:237-304 | the step that ends an operation's push makes it the newest entry, or acquires the object for the pusher, who drops it |
| CombinerPlaces.OperationsFound | src/asyncio/asyncioImpl.c:698-772 | in every state every operation that is not over is with its pusher, on the stack, in the captured chain and not dispatched, or started |
| CombinerPlaces.IdleMeansStarted | src/asyncio/asyncioImpl.c:698-772 | when nobody owns the object or pushes it, an operation has been started |
| CombinerTheorems.DeleteOnce | src/asyncio/lifetime.c:79-93 | one delete signal per incarnation, pushed by one thread, when no reference is left |
| CombinerTheorems.LastReferenceDeletes | src/asyncio/lifetime.c:79-93 | an object without references has its delete signal about to be pushed or still to be dispatched by an owner, or is destroyed |
| CombinerTheorems.DestroyedIdle | src/asyncio/asyncioImpl.c:665-682 | when delete is dispatched no reference is held, no operation is waiting, captured or started, and both queues and the initialization slot are empty; it is the last thing dispatched |
| CombinerTheorems.DeadIsFinal | src/asyncio/asyncioImpl.h:221-235 | nothing touches a destroyed object until its storage becomes a new one; late signals fail their generation check |
| CombinerTheorems.NeverStuck | src/asyncio/asyncioImpl.c:698-772 | a thread inside an operation always has a next step, so the guards hide no behaviour |
| CombinerSteps.PushStacksKeep | src/asyncio/asyncioImpl.h:286-304 | a push onto an owned object keeps the combiner's invariant |
| CombinerSteps.PushOwnsKeep | src/asyncio/asyncioImpl.h:286-304 | so does a push that takes ownership |
| CombinerSteps.AcquireKeeps | src/asyncio/asyncioImpl.h:237-284 | so does the acquisition of an idle object by its caller, who takes its own turn |
| CombinerSteps.AcquireHoldingKeeps | src/asyncio/asyncioImpl.h:237-284 | so does an acquisition by a caller that had prepared an operation against an earlier look at the word |
| CombinerSteps.OwnDropsKeep | src/asyncio/asyncioImpl.h:277-284 | so does the release of that operation, whose reference is not the last one |
| CombinerSteps.OrKeeps | src/asyncio/asyncioImpl.h:221-235 | so does or-ing signals onto the newest entry |
| CombinerSteps.PushDeletesKeep | src/asyncio/asyncioImpl.h:312-318 | so does the delete signal of the last reference |
| CombinerSteps.OwnCapturesKeep | src/asyncio/asyncioImpl.c:698-772 | so does the owner's capture of everything pushed meanwhile |
| CombinerSteps.OwnWalksKeep | src/asyncio/asyncioImpl.c:698-772 | so does a step of the reversal that restores push order |
| CombinerSteps.OwnReleasesKeep | src/asyncio/asyncioImpl.c:698-772 | so does giving up ownership, which finds nothing pushed |
| CombinerSteps.DestroyKeeps | src/asyncio/asyncioImpl.c:665-682 | when delete is dispatched it is alone in its entry, no operation exists and the object is condemned |
| OperationQueue.Parted | src/asyncio/asyncioImpl.c:379-439 | every operation is kept or released, as often as it was queued |
| OperationQueue.KeptInOrder | src/asyncio/asyncioImpl.c:387-401 | survivors keep their relative order |
| OperationQueue.Queue.PushBack | src/asyncio/asyncioImpl.c:155-165 | the queue is its old contents and the operation, and well linked |
| OperationQueue.Queue.Remove | src/asyncio/asyncioImpl.c:127-153 | exactly the operation leaves, its links are clear, and an operation in no queue is left alone |
| OperationQueue.Queue.AppendSurvivor | src/asyncio/asyncioImpl.c:387-395 | the survivors' list grows by one and stays well linked |
| OperationQueue.Queue.CancelOperationList | src/asyncio/asyncioImpl.c:534-570 | which operations are kept and released, in order, and every field; everything kept was ended by another thread first, and is as that thread left it, or is in flight with the hook's promise to report it; everything released carries the status of the cancel and nothing runs for it |
| OperationQueue.Queue.Reap | src/asyncio/asyncioImpl.c:406-439 | the same for a reap: everything kept is pending or in flight, everything released is terminal and nothing runs for it; a start is asked for exactly when a waiting operation is first |
| OperationQueue.Queue.Execute | src/asyncio/asyncioImpl.c:489-532 | the released operations are exactly the front that is terminal or completes, each with the first status that was set; the one the walk stops at was pending and is started, with the status set meanwhile, or left alone on a dying object; the others are untouched |
| OperationQueue.Queue.CutFront | src/asyncio/asyncioImpl.c:524-531 | dropping a front leaves a well linked queue |
| EventTimer.RunInvariant | src/asyncio/events.c:50-271 | every step keeps the control word's invariant |
| EventTimer.OneOwner | src/asyncio/events.c:99-193 | at most one thread processes the word, and a clear owner bit means no pending tick and no unapplied request |
| EventTimer.TicksLandOnActive | src/asyncio/events.c:230-271 | a signal that lands finds the active word of its own generation, so a period is never read as ticks |
| EventTimer.AtMostCounter | src/asyncio/events.c:110-193 | what is drained was accepted, and a schedule with a positive counter delivers at most that many ticks |
| EventTicks.TicksAccountedFor | src/asyncio/events.c:110-193 | drained ticks were drained by an owner that came with a signal or with a publication; of the former, all were handed to the backend or found no armed timer when the word is released |
| EventTicks.DeliversExactly | src/asyncio/events.c:145-193 | a schedule delivers every tick that the backend reports, a finite one up to its counter |
| EventTicks.OnlySignalsDeliver | src/asyncio/events.c:110-193 | only a counting step of an owner that came with a signal delivers or hands ticks on |
| EventTicks.OwnershipBegan | src/asyncio/events.c:110-193 | an owner is of the kind of the step that gave it the word |
| EventRequests.SignalLands | src/asyncio/events.c:230-271 | a signal whose generation is still in the word when its thread is through has added its ticks, however often its swap lost |
| EventRequests.PublicationLands | src/asyncio/events.c:195-222 | a publication is in the word when its thread is through, unless the event died or the generation it required was gone |
| EventRequests.DeletionCloses | src/asyncio/events.c:466-475 | the deletion's own publication is carried out in any case |
| EventRequests.TerminalIsLast | src/asyncio/events.c:195-222 | no publication follows it, no tick is added behind it, and the timer is stopped once the word is released |
| EventSchedules.RequestIsInForce | src/asyncio/events.c:110-222 | a publication that was carried out and not superseded is in force when the word is free: with a period the timer was armed for it, without one it is stopped and never was |
| EventSchedules.OwnerAloneFrees | src/asyncio/events.c:99-193 | an owner that nobody disturbs gives the word back within eight steps |
| EventSchedules.ScheduleIsKept | src/asyncio/events.c:145-271 | for every positive counter there is a run that delivers exactly that many ticks and leaves the timer stopped |
| EventWaiter.RunInvariant | src/asyncio/events.c:273-388 | every step keeps the waiter word's invariant, the readiness path's exchange, look and store included |
| EventWaiter.PermitsConserved | src/asyncio/events.c:273-348 | permits accepted are resumes, consumed and banked credits; no wait is woken twice |
| EventWaiter.DeletedAbsorbs | src/asyncio/events.c:298-314 | the terminal mark is never left |
| EventWaiter.CancellationOnTheWay | src/asyncio/events.c:466-514 | a committed waiter and a delete never miss each other: one of them posts the cancellation |
| EventWaiter.OneWaiter | src/asyncio/events.c:324-348 | a coroutine that installs itself never finds another waiter |
| EventWaiter.LeavesWoken | src/asyncio/events.c:273-314 | a wait that has left the word was woken |
| EventPermits.ActivationsArePermits | src/asyncio/events.c:448-464 | until deletion every activation of a semaphore is a permit granted, one that a loop thread carries to the waiter word, or still signalled |
| EventPermits.AllActivationsGranted | src/asyncio/events.c:371-386 | with no signal pending and nobody carrying any, as many permits were granted as activations posted, on a plain event at most as many |
| EventPermits.ActivationCounts | src/asyncio/events.c:448-464 | an activation, on a plain event too, counts for at least one permit beyond those taken before it |
| EventPermits.SignalIsHeard | src/asyncio/events.c:448-464 | a pending signal has its bell rung, about to be rung or being answered |
| EventPermits.WaitReturns | src/asyncio/events.c:324-348 | a wait ends only with a banked permit, a wake, or on a deleted event |
| CoroutineCounter.RunInvariant | src/asyncio/coroutinePosix.c:272-327 | every step keeps the counter's invariant while no call touches a freed coroutine |
| CoroutineCounter.OneRunner | src/asyncio/coroutinePosix.c:272-327 | at most one thread runs the coroutine |
| CoroutineCounter.CallsAccountedFor | src/asyncio/coroutinePosix.c:272-327 | every call is exactly one resumption or stays banked |
| CoroutineCounter.YieldsForBanked | src/asyncio/coroutinePosix.c:312-327 | a yield switches out if and only if no call is banked |
| CoroutineCounter.NeverReentered | src/asyncio/coroutinePosix.c:138-152 | a finished context is not entered, by a switch or by a banked wake |
| CoroutineCounter.LateCallExact | src/asyncio/coroutinePosix.c:272-310 | a call that adds after the coroutine was freed enters the finished context if and only if no other call was left banked |
| CoroutineCounter.LateCallReenters | src/asyncio/coroutinePosix.c:272-310 | a run in which it happens |
| HttpScan.TokenStable | src/p2putils/HttpTokens.c:6-52 | an answer of the token scan does not depend on bytes that arrive later |
| HttpScan.LineStable | src/p2putils/HttpParseUtils.h:59-77 | the same for the line scan |
| HttpScan.DecStable | src/p2putils/HttpParseUtils.h:79-103 | the same for decimal numbers, overflow included |
| HttpScan.HexStable | src/p2putils/HttpParseUtils.h:105-141 | the same for chunk sizes, extensions included |
| HttpScan.TextEndStable | src/p2putils/UriParse.cpp:285-340 | the same for path and fragment text with its escapes |
| HttpScan.QueryEndStable | src/p2putils/UriParse.cpp:427-499 | the same for query elements |
| HttpScan.NamesFoldAlike | src/p2putils/HttpTokens.c:6-52 | names fold alike if and only if they differ in the case of letters only |
| HttpBytes.TokenCharsAre | src/p2putils/HttpTokenTableData.h:30-43 | token characters are the visible characters without the delimiters of section 5.6.2 of RFC 9110 |
| HttpBytes.PathCharsAre | src/p2putils/UriParse.cpp:74-82 | path characters are the visible characters without those that section 3.3 of RFC 3986 leaves out |
| HttpBytes.PathMaskIsExact | src/p2putils/UriParse.cpp:74-82 | a byte has its bit in the 128-bit map if and only if it is a path character |
| HttpBytes.CaseBit | src/p2putils/HttpParseUtils.h:143-160 | comparing with the case bit set is comparing with a lower-case letter up to case |
| HttpReaders.ReadUntilCrLf | src/p2putils/HttpParseUtils.h:59-77 | the byte search finds the first line end, or asks for more |
| HttpReaders.TrimTrailingOws | src/p2putils/HttpParseUtils.h:53-57 | what goes is blanks only, and what stays does not end with one |
| HttpReaders.ReadDec | src/p2putils/HttpParseUtils.h:79-103 | the loop reads what the specification reads |
| HttpReaders.ReadHex | src/p2putils/HttpParseUtils.h:105-141 | the loop reads what the specification reads |
| Digits.DecMeans | src/p2putils/HttpParseUtils.h:79-103 | a decimal number read has the value of its run of digits and is refused exactly above the largest size |
| Digits.DecimalReads | src/p2putils/HttpParseUtils.h:79-103 | the decimal digits of a number are read as that number |
| Digits.HexMeans | src/p2putils/HttpParseUtils.h:105-141 | the same for a chunk size, with its extension |
| HttpReaders.ReadToken | src/p2putils/HttpTokens.c:6-52 | the token scan loop |
| HttpReaders.ReadText | src/p2putils/UriParse.cpp:285-340 | the text scan loop |
| HttpReaders.ReadQuery | src/p2putils/UriParse.cpp:427-499 | the query scan loop |
| HttpSpec.MicroAdvances | src/p2putils/HttpRequestParse.cpp:88-282 | every unit consumes input or moves to a later phase, within the buffer, so the parsers terminate |
| HttpCut.MicroStable | src/p2putils/HttpParseUtils.h:59-286 | a unit that was decided stays decided the same way when more bytes arrive |
| HttpCut.MarkingCuttable | src/p2putils/HttpRequestParse.cpp:29-291 | a parser that marks every end has what the cut theorem needs: progress, stability and bodies that may be cut anywhere |
| HttpCut.RequestCuttable | src/p2putils/HttpRequestParse.cpp:29-291 | the request parser is such a parser |
| HttpCut.CutOnce | src/asyncio/http.c:164-198 | one cut anywhere, with the rest carried over, changes nothing |
| HttpCut.Idles | src/asyncio/http.c:164-198 | trying again without new bytes changes nothing |
| HttpCut.CutIndependent | src/p2putils/HttpRequestParse.cpp:284-291 | any cuts of any request, chunked bodies and trailers included, give the verdict, phase, length and reports of one buffer, the mark of the last report included |
| HttpCut.CutsAgree | src/p2putils/HttpRequestParse.cpp:284-291 | two ways of cutting the same request agree |
| HttpResponse.ResponseCuts | src/p2putils/HttpParse.cpp:70-176 | any cuts of any response give the verdict, phase, length and reports of one buffer, with the mark of the last report missing if and only if a call ended strictly inside a body of known length; behind a chunked body the mark never is |
| HttpResponse.CutsInsideAre | src/p2putils/HttpParse.cpp:70-126 | a call ends strictly inside the body when some prefix of the pieces does |
| HttpResponse.MarkLost | src/p2putils/HttpParse.cpp:70-126 | a message that is marked in one buffer and, with everything else the same, not marked in two |
| HttpResponse.TablesLoseMark | src/p2putils/HttpTokenTableData.h:83-126 | the message loses its mark in two pieces under every header table with the reserved name, whatever else the table holds |
| HttpChunks.ChunkedBodyReports | src/p2putils/HttpParseUtils.h:238-286 | a body written in chunks, with any spelling of the sizes, extensions and trailers, is reported as its bytes and the end mark, and consumed to its end |
| HttpChunks.Written | src/p2putils/HttpParseUtils.h:238-286 | every body has such a spelling |
| HttpRequestLine.QueryReports | src/p2putils/UriParse.cpp:427-499 | a query written from names with values and parts without is reported as the names and values in order; a value starts behind the last equals sign |
| HttpRequestLine.PathReports | src/p2putils/UriParse.cpp:285-340 | a path written from elements is reported as those elements in order |
| HttpRequestLine.FragmentReports | src/p2putils/UriParse.cpp:501-538 | a written fragment is reported as its text, an empty one not at all |
| HttpRequestLine.RequestLineReports | src/p2putils/HttpRequestParse.cpp:88-242 | a request line written from a method, path elements, query parts, a fragment and a version is reported as exactly those, in order, and consumed to its end |
| HttpHeaders.StatusLineReports | src/p2putils/HttpParse.cpp:4-50 | a status line written from a version, a code and a reason is reported as those and consumed to its end |
| HttpHeaders.HeaderLineReports | src/p2putils/HttpParseUtils.h:187-236 | a written header line is reported as its name and its value without the white space around it, a length with its number, and refused exactly for what it says about the body |
| HttpFraming.ChunkedMeans | src/p2putils/HttpParseUtils.h:143-160 | a coding list ends with chunked if and only if its last element, behind a comma and white space or alone, is that word in letters of any case |
| HttpFraming.HeaderBlockReports | src/p2putils/HttpParseUtils.h:187-236 | a written block of header lines is accepted if and only if it has lengths that are all one number that fits, or codings with chunked last and only there, and not both; then every line is reported and the body framed as it says |
| HttpMessages.RequestReports | src/p2putils/HttpRequestParse.cpp:88-291 | a written request with its header lines and the body they announce, plain or chunked, is reported part by part and consumed exactly, whatever follows |
| HttpMessages.ResponseReports | src/p2putils/HttpParse.cpp:70-176 | the same for a response |
| HttpParser.Parser.constructor | src/p2putils/HttpParse.cpp:52-62 | a new parser waits for the start of a message |
| HttpParser.Parser.ChunkData | src/p2putils/HttpParseUtils.h:238-286 | one unit of chunk data does what the specification says |
| HttpParser.Parser.ChunkSize | src/p2putils/HttpParseUtils.h:238-286 | the same for a chunk size line |
| HttpParser.Parser.LengthData | src/p2putils/HttpParse.cpp:70-126 | the same for a body of known length |
| HttpParser.Parser.TrailerLine | src/p2putils/HttpParseUtils.h:164-185 | the same for a trailer line, with the end report behind the last one |
| HttpParser.Parser.HeaderLine | src/p2putils/HttpParseUtils.h:187-236 | the same for a header line, framing fields included |
| HttpParser.Parser.StatusLine | src/p2putils/HttpParse.cpp:4-50 | the same for a status line |
| HttpParser.Parser.MethodToken | src/p2putils/HttpRequestParse.cpp:88-282 | the same for the method |
| HttpParser.Parser.PathPart | src/p2putils/UriParse.cpp:285-340 | the same for a path element |
| HttpParser.Parser.QueryPart | src/p2putils/UriParse.cpp:427-499 | the same for a query element; HttpRequestLine.QueryReports says what that is |
| HttpParser.Parser.FragmentPart | src/p2putils/UriParse.cpp:501-538 | the same for the fragment |
| HttpParser.Parser.VersionPart | src/p2putils/HttpRequestParse.cpp:221-242 | the same for the version |
| HttpParser.Parser.Parse | src/p2putils/HttpParse.cpp:128-176 | one call on one buffer has the verdict, new phase, consumed length and reports of the specification |
| HttpStream.ReadMessage | src/asyncio/http.c:164-198 | a request parser fed piece by piece with the carry rule ends as if given the concatenation at once; a response parser too, with the mark missing exactly when a call ended strictly inside a body of known length |
| HeaderTable.SlotIsPlace | src/p2putils/HttpTokens.c:67-91 | the 32-bit arithmetic of the lookup and the 64-bit arithmetic of the placement choose the same slot |
| HeaderTable.Lookup | src/p2putils/HttpTokens.c:6-52 | one probe returns the value of the entry equal up to case, and 0 when there is none |
| HeaderTable.AnswerIsUnique | src/p2putils/HttpTokens.c:67-91 | that answer is unique |
| HeaderBuckets.AllGrouped | src/p2putils/HttpTokens.c:148-165 | the groups partition the keys |
| HeaderBuckets.CountSizes | src/p2putils/HttpTokens.c:148-165 | the counting pass gives the size of every group |
| HeaderBuckets.StartOffsets | src/p2putils/HttpTokens.c:148-165 | the running sum gives where every group starts |
| HeaderBuckets.FillBuckets | src/p2putils/HttpTokens.c:148-165 | the scatter pass, which moves the starts, puts every group's keys in order into its range |
| HeaderBuckets.Rewind | src/p2putils/HttpTokens.c:148-165 | the starts are put back |
| HeaderBuild.SortGroups | src/p2putils/HttpTokens.c:123-166 | the groups with their sizes, largest first, ties in group order |
| HeaderBuild.OneOrder | src/p2putils/HttpTokens.c:123-166 | there is one such order only |
| HeaderBuild.TryDisplacement | src/p2putils/HttpTokens.c:166-208 | a displacement is accepted if and only if it puts the group's keys into free and different slots |
| HeaderBuild.PlaceGroup | src/p2putils/HttpTokens.c:166-208 | the least displacement that fits is used, and the group is refused exactly when none does |
| HeaderBuild.WriteGroup | src/p2putils/HttpTokens.c:166-208 | the group's slots get its keys and no other slot changes |
| HeaderBuild.SettleGroup | src/p2putils/HttpTokens.c:166-208 | placing one more group keeps all earlier keys where a lookup finds them |
| HeaderBuild.PlaceKeys | src/p2putils/HttpTokens.c:135-208 | succeeds if and only if the greedy placement does, largest group first, each with its least displacement; then exactly the slots computed from the hashes and displacements hold the keys |
| HeaderBuild.OrderDecides | src/p2putils/HttpTokens.c:135-208 | since the order is unique, the greedy placement has one outcome |
| HeaderPrepare.AllDistinct | src/p2putils/HttpTokens.c:111-116 | sorting and comparing neighbours finds a repeated hash if and only if there is one |
| HeaderPrepare.Pack | src/p2putils/HttpTokens.c:213-289 | a placement becomes a table that lookups agree with |
| HeaderPrepare.TrySize | src/p2putils/HttpTokens.c:213-289 | a table if and only if the greedy placement works out for a displacement count tried, with the largest such count; it agrees with the keys |
| HeaderPrepare.Build | src/p2putils/HttpTokens.c:213-289 | a table if and only if the keys can be placed in some size up to the largest; it has the smallest such size and agrees with the keys |
| HeaderPrepare.CheckName | src/p2putils/HttpTokens.c:93-109 | a name is valid if and only if it is a non-empty token |
| HeaderPrepare.Prepare | src/p2putils/HttpTokens.c:303-371 | a table is made if and only if the list is short enough, its entries are valid, no two hashes of entries and reserved names are equal and some size can be placed; then it agrees with entries and reserved names together |
| UriPercent.DecodeUndoesEncode | src/p2putils/UriParse.cpp:623-658 | decoding returns every byte string that was encoded with an extra set without the percent sign |
| UriPercent.RoundTripExact | src/p2putils/UriParse.cpp:643-658 | it does so for all byte strings if and only if the set has no percent sign, as the four in use |
| UriPercent.EscapesWhatItMust | src/p2putils/UriParse.cpp:643-658 | text is left as it is if and only if all of it is unreserved, a sub-delimiter or in the extra set |
| UriPercent.FragmentScansBack | src/p2putils/UriParse.cpp:501-538 | the fragment scanner reads an encoded fragment to its end and no further |
| UriPercent.Encode | src/p2putils/UriParse.cpp:643-658 | the loop writes an encoding that decodes to its input |
| UriPercent.DecodeInPlace | src/p2putils/UriParse.cpp:623-641 | reading and writing the same buffer decodes it |
| UriIpv6.ShownMeans | src/p2putils/UriParse.cpp:749-788 | the text for eight 16-bit groups means those groups, whichever zero run is compressed |
| UriIpv6.BestRunIsUnique | src/p2putils/UriParse.cpp:750-764 | the longest, leftmost zero run is unique, so the text is determined by the groups |
| UriIpv6.QuadWritten | src/p2putils/UriParse.cpp:147-172 | four octets with dots between them mean the two groups of those bytes, high byte first |
| UriIpv6.QuadRead | src/p2putils/UriParse.cpp:147-172 | nothing else is a dotted quad |
| UriIpv6Text.ReadHexGroup | src/p2putils/UriParse.cpp:135-145 | one to four digits and their 16-bit value, or proof that no group starts here |
| UriIpv6Text.ReadOctet | src/p2putils/UriParse.cpp:156-166 | one to three digits up to 255, or proof that no quad goes on here |
| UriIpv6Text.ReadQuad | src/p2putils/UriParse.cpp:147-172 | accepts exactly a dotted quad that closes the literal, as two groups |
| UriIpv6Text.ReadSeparator | src/p2putils/UriParse.cpp:187-200 | a colon, the one double colon or the end; every other continuation has no meaning |
| UriIpv6Text.ReadPart | src/p2putils/UriParse.cpp:131-200 | one turn of the loop keeps the meaning of the literal, or proves that it has none |
| UriIpv6Text.CollectGroups | src/p2putils/UriParse.cpp:131-201 | the loop ends at the bracket with the groups before and after the double colon, within eight places |
| UriIpv6Text.PlaceTail | src/p2putils/UriParse.cpp:203-208 | the tail moves to the end over the zeros |
| UriIpv6Text.ParseIpLiteral | src/p2putils/UriParse.cpp:112-218 | accepts exactly the literals with a meaning, with those groups, and never reads behind the terminator |
| UriIpv6Strict.StrictExact | src/p2putils/UriParse.cpp:112-218 | by the grammar a text means what the reader makes of it if its dotted quad has no octet with a leading zero, and nothing otherwise |
| UriIpv6Strict.AcceptedConforms | src/p2putils/UriParse.cpp:112-218 | an accepted literal conforms, with the same groups, if and only if no octet of its quad has a leading zero |
| UriIpv6Strict.PaddedIsAccepted | src/p2putils/UriParse.cpp:147-172 | the literal `::1.02.3.4` is accepted and does not conform |
| UriIpv6Text.LongestZeroRun | src/p2putils/UriParse.cpp:750-764 | the longest run of two or more zero groups, the leftmost on a tie, or none |
| UriIpv6Text.PrintGroup | src/p2putils/UriParse.cpp:774-778 | lower-case digits without leading zeros |
| UriIpv6Text.PrintGroups | src/p2putils/UriParse.cpp:766-786 | the groups with single colons, and the double colon for the run |
| UriIpv6Text.PrintedReadsBack | src/p2putils/UriParse.cpp:749-788 | for all eight 16-bit groups, reading the printed literal returns them and ends where the text ends |
| UriIpv6Text.BuildIpLiteral | src/p2putils/UriParse.cpp:749-788 | the printing loops produce that literal |

## Left out

- Weak memory: steps are sequentially consistent; the placement of acquire, release and relaxed accesses and of fences is not checked.
- Backend system calls, sockets and devices: a hook's answer is a parameter, the doorbell is a pending flag, a backend timer may fire while it is armed.
- Entering and leaving of loop threads by a quit request, and the teardown of wheel and queues.
- Allocation failure, object pools, poisoning and padding.
- Wrap-around of generations, of the 64-bit tick and of reference counts: they are unbounded naturals. A saturated deadline is modelled.
- The bit layout of the occupancy words, the control word, the waiter word and the tagged pointers: they are sets and records; the word-wise order of the occupancy scan is modelled.
- The claim and delete tag of a user event (events.h) and the reuse of an event's storage.
- startOperation, the order of the operations inside the two queues and the reactor's combiner core; in the combiner model the owner may file and release any started operation.
- The packing of kernel handles.
- WheelTheorems.TimeoutsSound: says nothing of a deadline out of range of its hint, for which it is false; RefusalExact proves the condition exact and TimerWheel.RefusesAhead gives the case.
- WheelTheorems.RefusalSound: says nothing of such a deadline either, for the same reason.
- WheelTheorems.NoEarlyTimeout: requires two levels or a deadline in range of its hint, and that arming time plus timeout is on the tick grid, which TimerClock.NeverEarly proves to be the exact condition.
- WheelDelivery.ArmedIsCarried: is about a link armed for the operation's current or an earlier generation, as every caller arms it.
- QueueTheorems.RunInvariant: is about first rings of two cells or more, because with one cell it is false, as QueueOverwrite shows, and fewer than 2^62 positions are claimed in one ring.
- QueueOverwrite.NothingLostExact: is about up to 32 rings, the number in the source; rings of 2^62 cells and more have no room below the seal.
- EventWaiter.PermitsConserved: a timer's wake may give up whenever it looks at the word; that it does so only for a superseded schedule is checked on the timer's word and not here.
- EventTicks.DeliversExactly: counts what is handed to a callback-less event even where a newer generation takes its place before the wake.
- CoroutineCounter.RunInvariant: is about runs in which no call touches a freed coroutine; LateCallExact states what such a call does.
- HttpCut.CutIndependent: callbacks never cancel.
- HttpRequestLine.RequestLineReports: is about paths that start with a slash and single spaces; the scanners also take a path without a slash and more spaces.
- HttpResponse.ResponseCuts: callbacks never cancel, and the fragment flag that a phase carries inside a body of known length is compared through the reports that follow, not by itself.
- The hash of header names is a definition: what is proved of the table holds for any function in its place.
- HeaderPrepare.Prepare: names are strings, so the check for a null name is not modelled, and the sort of the hashes is an insertion sort.
- UriIpv6Text.ParseIpLiteral: the callback never cancels.
- Context switching, stacks and sanitizer hooks of coroutines.
- The rest of the URI parser (scheme, authority, host names, IPv4 hosts, ports) and the whole-URI round trip, which its header does not promise.
- SMTP, ZMTP, BTC and RLPx framing, base64, TLS, streams and buffers: easier members.
