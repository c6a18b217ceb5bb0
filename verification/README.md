# Verified model of the roo_testing host services

roo_testing emulates microcontroller services on a desktop host. Five of its services carry state
machines that must hold under interleaving, and this project models them in Dafny and proves what
they promise:

- **System time and alarms** (`roo_testing/system/timer.cpp`). A lock-free monotonic uptime, a
  reservation counter for explicit delays, a deadline-ordered alarm queue with an id index,
  single-owner re-entrant delivery, a background worker with a wake generation, and a two-phase
  shutdown.
- **Interrupt controller** (`roo_testing/interrupts/interrupt_controller.cpp`). Sixty-four slots
  with packed generation and flag words, updated by compare-exchange from host threads, and a
  dispatcher that rescans until nothing is ready.
- **Host event gateway** (`roo_testing/host_event/host_event_endpoint.cpp`). A table of endpoints
  whose pending flags are set by native threads, polled by the tick hook and delivered by one task.
- **Condition variable** (`roo_testing/sys/condition_variable.cpp`). Eight waiter places, priority
  selection and latched task notifications.
- **Wall clock** (`roo_testing/system/wall_clock.cpp`). UTC as a reference plus elapsed uptime.

## How the model is laid out

| files | content |
|---|---|
| `Int64`, `AlarmQueue` | integer ranges; the list ordered by deadline and registration that the multimap refines |
| `AlarmDelivery`, `SystemTimeService` | one thread in manual mode: the semantics on values, and the class that updates its fields in place and refines it |
| `AlarmTheorems`, `AlarmTrace`, `AlarmOrder`, `AlarmPeriodic` | theorems about that semantics: reservations and work, the calls made and what their delays add up to, order and times, periodic alarms |
| `UptimePublication`, `UptimeModes` | the uptime register, one atomic access per step; what auto-sync and manual mode mean for it |
| `AlarmProtocol`, `AlarmOwnership`, `AlarmReservations`, `AlarmWorker`, `AlarmLedger` | the alarm service under interleaving, one lock section per step, and four invariants of every run |
| `AlarmRelease`, `AlarmCompletion`, `AlarmService` | what becomes due while delivery is being released; that no delay is dropped; that shutdown and the worker do their work |
| `AlarmThread`, `AlarmSimulation` | one thread's own runs of that model, and the simulation of the sequential semantics by them |
| `InterruptWord`, `InterruptController` | the packed word; the controller over an array of words, with the dispatcher as a loop |
| `InterruptProtocol`, `InterruptRegistry`, `InterruptDelivery`, `InterruptService`, `InterruptSimulation` | the controller under interleaving: identity, delivery and fairness, what each assertion leads to, undisturbed runs of the core, and the simulation of single operations |
| `HostEventProtocol`, `HostEventDelivery`, `HostEventGateway` | the gateway under interleaving with its properties; the table and endpoint objects updated in place |
| `ConditionVariable` | the waiter array updated in place, and runs of waits and notifications |
| `WallClock` | the two reference variables, and runs of settings, resets and reads |

Each interleaving model is a function `Step` on a state and an event, with `Enabled` saying which
events may happen, and every whole-run statement quantifies over all event sequences; lemmas named
`PowerOn...` and `Created...` show that the initial state satisfies the invariants. Atomics are
sequentially consistent, and a weak compare-exchange may fail spuriously. A failed `CHECK` ends the
process: the class and the sequential semantics record it as `aborted`, after which nothing
happens, and the interleaving models have no such step. A callback is data, a finite script of
service calls, so that scheduling, cancelling, delaying, lagging, pumping and shutting down from
inside a callback really happen in the model. Fields that record a run (logs, counters, owners) are
read by no step.

## What is proved

- *Uptime.* Every returned `add` and `publishAtLeast` lands exactly once, the uptime is a sequential
  register over those landings, reads never go back, a raised floor holds for ever, the mode and
  host origin are fixed once, reads in auto-sync mode follow the host clock, and reads in manual mode
  move nothing.
- *Delivery in manual mode.* For every program of service calls with any nesting: whenever a
  top-level call returns, uptime equals the reserved uptime and has moved by at least the sum of all
  delays called for, and after a delay or a pump nothing is due. A drain over callbacks that insert
  nothing has a closed form, cancellations among them included: which alarms run, in which order, and
  what time each one sees; a pump moves no clock. Whatever callbacks register or cancel, none runs
  early or past the limit, and no due alarm is left out, unless one moves time. A periodic alarm fires
  once at each multiple. The number of callbacks of a drain is bounded by a sum over pending alarms.
- *Interleaving.* One delivery owner; nothing is claimed or called after shutdown begins; every id
  is in exactly one of pending, claimed, cancelled and discarded; a cancel before the claim wins for
  ever; completed delays are covered by the uptime; the worker never waits on stale information; a
  release of delivery leaves due work behind exactly when another thread made it due in between.
  Every program of the sequential semantics is a run of the interleaving model.
- *Interrupts.* None lost: a lasting registration that was asserted is pending, in flight, or its own
  handler has been called since. None invented, none after unregistering; handles never reused; a
  stale compare-exchange is harmless; no slot starves; the dispatcher terminates with nothing ready.
- *Host events.* The table and the slot fields are inverse; no notification to a lasting connection
  is lost; a pass serves everybody owed a call at its start; handler calls never exceed
  notifications; none runs while the endpoint is disconnected.
- *Condition variable.* Exact signalling, the unique highest-priority choice, and delivery of every
  notification to a different waiter.
- *Wall clock.* A read equals the last setting plus the elapsed uptime, and fails exactly when that
  does not fit.

Three properties one might expect do not hold of the code. Running each callback at exactly its
deadline fails for ties and overdue alarms: `AlarmOrder.TieJumpsToLimit` gives the input and
`AlarmOrder.DrainIsExactIff` the exact condition. And `doc/emulated_time_alarms.md` (lines 216-219)
has ownership cleared in the section that confirms that nothing is due, whereas the code releases
in a second lock section (timer.cpp:376-379), so work that becomes due in between is left behind:
`AlarmRelease.ReleaseStrandsDueAlarm` gives the run, `AlarmRelease.BecomesDueIff` and
`AlarmRelease.ReleaseLeavesDueIff` the exact condition, and
`AlarmRelease.QuietReleaseLeavesNothingDue` what the owner can count on. In auto-sync mode the
notification owed after the release moves the worker's wake generation on; in manual mode there is
no worker, and the alarm waits for the next pump or delay. Third, a slot that is ready when the
dispatcher starts need not have its handler called: another handler may disable it first.
`InterruptController.DisabledIsNotCalled` gives the input and `InterruptController.CalledInPassIff`
the exact condition for one pass; over a whole dispatch such a slot ends pending and disabled, or
its handler has been called. `wall_clock.h` says that setting the time may fail; the code always
succeeds, and so does the model.

## Model

| member | source | states |
|---|---|---|
| `AlarmQueue.InsertKeepsOrder` | roo_testing/system/timer.cpp:413-415 | registering puts the alarm after every equal deadline: order by deadline and then registration, distinct ids, exactly one alarm added |
| `AlarmQueue.RemoveKeepsOrder` | roo_testing/system/timer.cpp:430-435 | removing one alarm keeps the others in order and removes exactly its id |
| `AlarmQueue.OrderIsCanonical` | roo_testing/system/timer.cpp:183-187 | the ordered list is determined by the set of pending alarms |
| `SystemTimeService.IndexInsert` | roo_testing/system/timer.cpp:412-415 | queue and id index stay inverse under registration |
| `SystemTimeService.IndexRemove` | roo_testing/system/timer.cpp:430-435 | queue and id index stay inverse under removal |
| `SystemTimeService.EmplaceNode` | roo_testing/system/timer.cpp:413-414 | the scan for the end of the equal range inserts where the list specification does |
| `SystemTimeService.EraseNode` | roo_testing/system/timer.cpp:434-435 | erasing the node an iterator denotes is removal of its id from the list |
| `SystemTimeService.SystemTimeService.ScheduleAlarm` | roo_testing/system/timer.cpp:401-422 | refines registration on the list, keeps the invariant and the index, and returns a fresh id; aborts on an unrepresentable deadline, a stopped service or exhausted ids |
| `SystemTimeService.SystemTimeService.CancelAlarm` | roo_testing/system/timer.cpp:424-438 | refines cancellation; unknown and zero ids change nothing; the id is not pending afterwards |
| `SystemTimeService.SystemTimeService.NextDeadline` | roo_testing/system/timer.cpp:448-452 | the least pending deadline, and `INT64_MAX` exactly when nothing is pending |
| `SystemTimeService.SystemTimeService.LagNs` | roo_testing/system/timer.cpp:219-227 | moves the uptime by exactly `ns` and raises the reserved uptime with it, or aborts |
| `SystemTimeService.SystemTimeService.DelayMicros` | roo_testing/system/timer.cpp:514-521 | reserves the target before delivering, then refines delivery to it; made while delivery is active it takes its full time at once, beyond everything reserved |
| `SystemTimeService.SystemTimeService.ProcessAlarms` | roo_testing/system/timer.cpp:440-446 | refines delivery of what is due without moving time; does nothing while delivery is active or after shutdown began |
| `SystemTimeService.SystemTimeService.DeliverAlarmsThrough` | roo_testing/system/timer.cpp:332-342 | re-entrant calls publish their target and return; the owner drains |
| `SystemTimeService.SystemTimeService.DrainAlarms` | roo_testing/system/timer.cpp:344-384 | the loop refines the recursive drain, callbacks included, and terminates |
| `SystemTimeService.SystemTimeService.DrainOnce` | roo_testing/system/timer.cpp:347-382 | one iteration preserves the final outcome of the drain and consumes pending work |
| `SystemTimeService.SystemTimeService.AdvanceToward` | roo_testing/system/timer.cpp:350-363 | the time movement of one iteration |
| `SystemTimeService.SystemTimeService.ClaimHead` | roo_testing/system/timer.cpp:365-373 | the head leaves queue and index before its callback runs |
| `SystemTimeService.SystemTimeService.TryBeginShutdown` | roo_testing/system/timer.cpp:454-463 | answers true exactly when running and nobody delivers, and then the service is closing; otherwise the service is unchanged |
| `SystemTimeService.SystemTimeService.FinishServiceShutdown` | roo_testing/system/timer.cpp:465-489 | aborts exactly when not closing; otherwise discards every pending callback in delivery order and leaves the service stopped with queue and index empty |
| `AlarmDelivery.ActKeeps` | roo_testing/system/timer.cpp:401-521 | every service call keeps the invariant (sorted distinct queue, uptime within the reserved uptime, no early callback, idle when not running), and clocks, ids and the firing record only grow |
| `AlarmDelivery.RunKeeps` | roo_testing/system/timer.cpp:332-384 | the same for every script of calls, from the top level or from a callback |
| `AlarmTheorems.CallbackKeepsLevel` | roo_testing/system/timer.cpp:230-238 | whatever a callback nests, no reserved target lies above both the drain limit and the uptime |
| `AlarmTheorems.DrainSettles` | roo_testing/system/timer.cpp:344-384 | a drain ends at or past its limit, with uptime at the reserved uptime and nothing due |
| `AlarmTheorems.ActSettles` | roo_testing/system/timer.cpp:514-521 | a top-level delay advances by at least its duration and leaves nothing due; a pump leaves nothing due |
| `AlarmTheorems.EveryProgramSettles` | roo_testing/system/timer.cpp:230-238 | for every program, at return to the top level the uptime has reached every target that any delay at any depth reserved, and delivery is idle |
| `AlarmTrace.EveryDelayElapses` | roo_testing/system/timer.cpp:230-238 | for every program, at return to the top level the uptime has moved by at least the sum of the durations of all the delays in the calls it made, at any depth, counted from the scripts |
| `AlarmTrace.NestedDelayElapses` | roo_testing/system/timer.cpp:233-237 | a delay made while delivery is active ends with the uptime at its duration beyond everything reserved before, and aborts exactly when that does not fit |
| `AlarmTrace.LagAdds` | roo_testing/system/timer.cpp:498-504 | a lag moves the uptime by exactly its amount, or aborts exactly when stopped or out of range |
| `AlarmTrace.IdlePump` | roo_testing/system/timer.cpp:336-339 | a pump made while delivery is active, or after shutdown began, does nothing |
| `AlarmTrace.ShutdownBeginsIff` | roo_testing/system/timer.cpp:454-463 | a shutdown begins exactly when the service is running and nobody delivers |
| `AlarmTrace.ShutdownStops` | roo_testing/system/timer.cpp:454-489 | shutting down an idle service stops it with nothing pending and nothing run |
| `Int64.AlarmBoundsAreExact` | roo_testing/system/timer.cpp:37-40 | a deadline is within the alarm bounds if and only if its nanoseconds fit in 64 bits |
| `AlarmOrder.DrainsInOrder` | roo_testing/system/timer.cpp:344-384 | closed form of a drain over callbacks that neither move time nor insert, but may cancel one another: exactly the alarms of `RunOrder` run, in that order, at the times given, and the drain ends at the limit with only later alarms pending |
| `AlarmOrder.DelayRunsInOrder` | roo_testing/system/timer.cpp:514-521 | the same closed form for every top-level delay over such callbacks |
| `AlarmOrder.PumpRunsWhatIsDue` | roo_testing/system/timer.cpp:440-446 | a top-level pump over callbacks that neither move time nor insert runs exactly the alarms due at the present uptime, in order and each at that uptime, leaves the others, and moves no clock |
| `AlarmOrder.PumpKeepsTime` | roo_testing/system/timer.cpp:440-446 | a pump moves no clock as long as no callback does, whatever callbacks insert |
| `AlarmOrder.RunOrderIsSorted` | roo_testing/system/timer.cpp:365-373 | what runs is pending, due, and in order of deadline and registration |
| `AlarmOrder.UncancelledIsInOrder` | roo_testing/system/timer.cpp:365-373 | a due alarm that no pending callback cancels is among those that run |
| `AlarmOrder.RunOrderWithoutCancels` | roo_testing/system/timer.cpp:365-373 | without cancellations what runs is everything due and what stays is everything later |
| `AlarmOrder.CallbackCancels` | roo_testing/system/timer.cpp:424-438 | all that such a callback does to the service is to remove the ids it cancels |
| `AlarmOrder.DueAlarmRuns` | roo_testing/system/timer.cpp:344-384 | for callbacks that do not move time, whatever they insert: every due alarm that no callback cancels is run, unless the drain aborts |
| `AlarmOrder.DrainStaysWithin` | roo_testing/system/timer.cpp:344-384 | for any callbacks that do not move time, whatever they register or cancel: no callback is early or past the limit, times never go back, and the drain ends exactly at the limit with nothing due |
| `AlarmOrder.DrainKeepsOrder` | roo_testing/system/timer.cpp:365-373 | callbacks that insert nothing, but may cancel one another, run in deadline order, first registered first |
| `AlarmOrder.DrainIsExactIff` | roo_testing/system/timer.cpp:350-363 | for such callbacks, every one runs at exactly its deadline if and only if, among the alarms that run, none short of the limit is tied with its predecessor or overdue at the start |
| `AlarmOrder.TieJumpsToLimit` | roo_testing/system/timer.cpp:354-358 | two alarms tied at 2 us and a delay to 10 us: the second sees 10 us |
| `AlarmPeriodic.FireCountIs` | roo_testing/system/timer.cpp:344-384 | the number of firings is the number of multiples within the limit |
| `AlarmPeriodic.FiresPeriodically` | roo_testing/system/timer.cpp:344-384 | an alarm re-armed by its callback every p microseconds fires once at each d, d + p, ... within the limit, at exactly that uptime |
| `AlarmPeriodic.PeriodicCompletesIff` | roo_testing/system/timer.cpp:401-412 | the drain aborts exactly when ids or representable deadlines do not last for the re-arms made on the way to the limit |
| `AlarmPeriodic.DelayFiresPeriodically` | roo_testing/system/timer.cpp:514-521 | the same for every top-level delay, which ends with uptime at its target, and aborts exactly when ids or representable deadlines run out before |
| `AlarmTheorems.DrainWorkBound` | roo_testing/system/timer.cpp:344-384 | callbacks that re-arm at most one strictly later alarm run at most the sum of max(0, limit - deadline + 1) times, ties and overdue alarms included |
| `UptimePublication.StepKeeps` | roo_testing/system/timer.cpp:61-158 | each atomic access keeps the invariant, never lowers the uptime, and never changes a selected mode or origin |
| `UptimePublication.RunKeeps` | roo_testing/system/timer.cpp:61-158 | the same for every interleaving with spurious failures |
| `UptimePublication.LandsExactlyOnce` | roo_testing/system/timer.cpp:88-99 | each returned update is in the log exactly once, and the uptime is the log replayed |
| `UptimePublication.RaiseIsForever` | roo_testing/system/timer.cpp:151-158 | after `publishAtLeast(c)` returned, every later uptime is at least c |
| `UptimePublication.ReadsNeverGoBack` | roo_testing/system/timer.cpp:61-71 | a read that starts after another returned never returns less |
| `UptimePublication.AddsAreNotLost` | roo_testing/system/timer.cpp:88-99 | in every run the uptime is at least the sum of all landed additions, and equal to it without raises |
| `UptimeModes.AutoReadsFollowHost` | roo_testing/system/timer.cpp:61-71 | a read that starts in auto-sync mode returns at least the host clock at its start minus the origin, in every interleaving |
| `UptimeModes.ModeIsTold` | roo_testing/system/timer.cpp:74-85 | in every run the mode query answers the configured mode, and in manual mode no read moves the uptime |
| `UptimeModes.UptimeIsHostTime` | roo_testing/system/timer.cpp:124-138 | in a run of nothing but reads and mode queries the uptime never runs ahead of the host time elapsed since power-on, the origin lies between power-on and now, and in manual mode the uptime stays zero |
| `UptimeModes.StepsComeCloser` | roo_testing/system/timer.cpp:61-158 | every step of a call returns or comes closer to its return, except a mode query that waits for another thread's initialisation |
| `AlarmOwnership.StepKeeps` | roo_testing/system/timer.cpp:332-384 | every lock section keeps the ownership invariant of all stacks |
| `AlarmOwnership.RunKeeps` | roo_testing/system/timer.cpp:249-268 | the same for every run |
| `AlarmOwnership.SingleOwner` | roo_testing/system/timer.cpp:332-342 | at most one frame of one thread is inside the drain, and then delivery is active and the service running |
| `AlarmOwnership.CallbackIsOwned` | roo_testing/system/timer.cpp:376-384 | a callback runs only on the owner's stack, directly above the drain, while the service runs |
| `AlarmOwnership.NothingAfterShutdown` | roo_testing/system/timer.cpp:454-463 | once shutdown has begun no step claims an alarm or starts a callback |
| `AlarmOwnership.ShutdownIsFinal` | roo_testing/system/timer.cpp:454-489 | the same for every continuation of the run |
| `AlarmService.ShutdownBeginsIff` | roo_testing/system/timer.cpp:454-463 | a running service starts closing exactly by a shutdown call made while nobody delivers |
| `AlarmService.ShutdownIsARun` | roo_testing/system/timer.cpp:454-489 | from any idle running service without a worker the two shutdown calls end stopped, with every pending id discarded |
| `AlarmService.ShutdownFromPowerOn` | roo_testing/system/timer.cpp:454-489 | a run from power-on that registers an alarm and ends stopped, with that alarm discarded and not run |
| `AlarmService.RunLives` | roo_testing/system/timer.cpp:416-418 | in every run in auto-sync mode, while the service is running and an alarm is pending, the worker is alive |
| `AlarmService.WorkerDelivers` | roo_testing/system/timer.cpp:302-317 | with a due head and nobody delivering, the worker's own next steps make it the owner, claim the head and start its callback |
| `AlarmService.WorkerLeaves` | roo_testing/system/timer.cpp:304 | once shutdown has begun the worker ends |
| `AlarmService.WorkerRechecks` | roo_testing/system/timer.cpp:276-292 | a worker that finds a new generation does not wait |
| `AlarmService.LagMoves` | roo_testing/system/timer.cpp:219-227 | a lag moves the uptime by its amount, and in auto-sync mode on to the host's time |
| `AlarmService.AdvanceMoves` | roo_testing/system/timer.cpp:350-363 | where one drain iteration moves the uptime, in both modes |
| `AlarmRelease.BecomesDueIff` | roo_testing/system/timer.cpp:374-379 | between the section that finds nothing due and the release, a step of another thread or the host brings the first due alarm if and only if it registers one whose deadline is reached or moves the uptime to the head deadline |
| `AlarmRelease.StepInWindow` | roo_testing/system/timer.cpp:374-379 | each such step leaves delivery active and changes the due alarms by exactly those it cancels and those it makes due |
| `AlarmRelease.ReleaseLeavesDueIff` | roo_testing/system/timer.cpp:344-379 | for every interleaving in between, the release leaves an alarm due if and only if some step made an alarm due that no later step cancelled |
| `AlarmRelease.QuietReleaseLeavesNothingDue` | roo_testing/system/timer.cpp:344-379 | nothing is due at the release when no other thread registers due work or moves time to a pending deadline |
| `AlarmRelease.ReleaseStrandsDueAlarm` | roo_testing/system/timer.cpp:336-379 | a run from power-on in which two pumps return and a due alarm stays pending with nobody delivering |
| `AlarmSimulation.SimAct` | roo_testing/system/timer.cpp:401-521 | every service call of the sequential model that completes is a run of the interleaving model by one thread, which makes that call and those of the callbacks it delivers, in order and with their arguments, and ends in the same state |
| `AlarmSimulation.SimDrain` | roo_testing/system/timer.cpp:344-384 | the same for a drain with its callbacks and the calls they nest |
| `AlarmSimulation.EveryProgramIsARun` | roo_testing/system/timer.cpp:401-521 | the same for every program from power-on: the program's own calls, the same clocks, the same queue, the same callbacks in the same order |
| `AlarmReservations.RunKeeps` | roo_testing/system/timer.cpp:211-238 | in every run targets are nondecreasing and within the reserved uptime, nothing exceeds 64 bits, manual uptime stays within the reserved uptime, and clocks never go back |
| `AlarmReservations.CompletedDelaysElapsed` | roo_testing/system/timer.cpp:229-238 | the uptime covers the sum of the recorded durations of all completed delays, concurrent and nested |
| `AlarmReservations.DelaysElapseSince` | roo_testing/system/timer.cpp:229-238 | from any point of any run, the uptime is at least the uptime there plus the durations of all delays reserved since and completed |
| `AlarmReservations.DelaysAreCalls` | roo_testing/system/timer.cpp:229-238 | the delays reserved in a run are the run's own delay calls in order, each with the duration it was called with |
| `AlarmCompletion.NoDelayIsDropped` | roo_testing/system/timer.cpp:332-384 | in every run, while the service is running, every delay has completed or its call has not returned |
| `AlarmCompletion.EveryDelayElapses` | roo_testing/system/timer.cpp:229-238 | from power-on, whenever nobody is inside a running service, the uptime is at least the sum of all delays that the run called for |
| `AlarmWorker.StepKeepsFresh` | roo_testing/system/timer.cpp:203-208 | every change of what the worker looked at is announced or owed |
| `AlarmWorker.PowerOnFresh` | roo_testing/system/timer.cpp:176-191 | the invariant holds at power-on |
| `AlarmWorker.WorkerNeverStale` | roo_testing/system/timer.cpp:296-321 | whenever the worker waits with alarms pending, the service running and nobody delivering, the generation has moved, a notification is owed, or its deadline is the head deadline |
| `AlarmLedger.RunKeepsLedger` | roo_testing/system/timer.cpp:401-438 | in every run every id issued is in exactly one of pending, claimed, cancelled and discarded, and callbacks start in claim order |
| `AlarmLedger.ClaimIsEarliest` | roo_testing/system/timer.cpp:365-373 | a claim takes the pending alarm that precedes all others, and only when due |
| `AlarmLedger.CancelledNeverRuns` | roo_testing/system/timer.cpp:424-438 | a cancelled alarm is never claimed or called, in any continuation |
| `AlarmLedger.CallbackRunsOnce` | roo_testing/system/timer.cpp:381-382 | no alarm is called back twice |
| `InterruptWord.DecodeEncode` | roo_testing/interrupts/interrupt_controller.cpp:47-53 | packing a slot into a word loses nothing |
| `InterruptWord.SameWordIffSameSlot` | roo_testing/interrupts/interrupt_controller.cpp:77-79 | comparing words is comparing slots, so a compare-exchange on words is one on slots |
| `InterruptWord.CompareExchangeOnSlots` | roo_testing/interrupts/interrupt_controller.cpp:166-168 | what a compare-exchange leaves in the word decodes to what it leaves in the slot |
| `InterruptWord.EnableOnWord` | roo_testing/interrupts/interrupt_controller.cpp:165 | sets the enabled flag and touches no other field |
| `InterruptWord.DisableOnWord` | roo_testing/interrupts/interrupt_controller.cpp:184 | clears the enabled flag and touches no other field |
| `InterruptWord.AssertOnWord` | roo_testing/interrupts/interrupt_controller.cpp:199 | sets the pending flag and touches no other field |
| `InterruptWord.ClaimOnWord` | roo_testing/interrupts/interrupt_controller.cpp:77 | clears the pending flag and touches no other field |
| `InterruptWord.ReadyOnWord` | roo_testing/interrupts/interrupt_controller.cpp:75-76 | the three-bit test is allocated, enabled and pending |
| `InterruptController.ApplyAllAddsAtMost` | roo_testing/interrupts/interrupt_controller.cpp:157-210 | a list of operations makes at most that many more slots pending and changes no identity |
| `InterruptController.InterruptController.Operate` | roo_testing/interrupts/interrupt_controller.cpp:157-210 | enable, disable and set-pending: one flag of the named slot, false and no change on a stale handle, a request exactly when enabled and pending |
| `InterruptController.InterruptController.RegisterInterrupt` | roo_testing/interrupts/interrupt_controller.cpp:95-132 | each result and when it occurs; the first slot with an unused generation gets the next generation; on failure nothing changes, the caller's handle included |
| `InterruptController.InterruptController.FirstUnused` | roo_testing/interrupts/interrupt_controller.cpp:112-117 | finds the first slot that is free and has an unused generation |
| `InterruptController.InterruptController.UnregisterInterrupt` | roo_testing/interrupts/interrupt_controller.cpp:134-155 | succeeds exactly for a live handle in task context, keeps the generation, clears flags and handler |
| `InterruptController.InterruptController.ClaimAndInvoke` | roo_testing/interrupts/interrupt_controller.cpp:77-87 | the pending bit is cleared before the handler runs, so a handler can reassert itself; the measure falls |
| `InterruptController.InterruptController.ScanOnce` | roo_testing/interrupts/interrupt_controller.cpp:72-88 | a pass is the specified scan, handler calls included; one that dispatched nothing found nothing ready, any other lowers the measure |
| `InterruptController.InterruptController.DispatchPendingInterrupts` | roo_testing/interrupts/interrupt_controller.cpp:70-91 | terminates with no slot ready; every slot ready at the start has had its handler called, unless it is pending and disabled; silent handlers are called exactly once each in slot order; invocations are bounded by pending slots plus remaining reassertions, each of a live registration |
| `InterruptController.InvokeKeeps` | roo_testing/interrupts/interrupt_controller.cpp:77-87 | a claim keeps identities and lowers the measure |
| `InterruptController.ScanKeeps` | roo_testing/interrupts/interrupt_controller.cpp:72-88 | a pass claims something and lowers the measure, or finds nothing ready and changes nothing |
| `InterruptController.PassesServe` | roo_testing/interrupts/interrupt_controller.cpp:70-91 | over any number of passes a pending slot with a handler stays pending or has its handler called |
| `InterruptController.SilentDispatch` | roo_testing/interrupts/interrupt_controller.cpp:70-91 | with handlers that make no controller calls the dispatcher's calls are exactly the ready slots', in slot order |
| `InterruptController.CalledInPassIff` | roo_testing/interrupts/interrupt_controller.cpp:72-88 | in one pass the handler of a slot that was ready at its start is called if and only if the handlers of the slots before it have left it enabled |
| `InterruptController.DisabledIsNotCalled` | roo_testing/interrupts/interrupt_controller.cpp:75-76 | a handler that disables another pending slot keeps that slot's handler from being called |
| `InterruptRegistry.RunKeeps` | roo_testing/interrupts/interrupt_controller.cpp:95-155 | in every run slots, routines and issued handles agree, and every call used its registration's handler and argument |
| `InterruptRegistry.GenerationsNeverReturn` | roo_testing/interrupts/interrupt_controller.cpp:55-58 | generations never fall, an exhausted slot is never registered again, a stale handle stays stale |
| `InterruptRegistry.StaleIsHarmless` | roo_testing/interrupts/interrupt_controller.cpp:164-173 | a delayed compare-exchange with a stale handle changes nothing and answers false |
| `InterruptRegistry.IssuedOnce` | roo_testing/interrupts/interrupt_controller.cpp:112-128 | no handle is issued twice in any run |
| `InterruptSimulation.OperationIsARun` | roo_testing/interrupts/interrupt_controller.cpp:157-210 | an operation that nothing interferes with is a run of one producer in the interleaving model, with the same slots and the same request |
| `InterruptDelivery.NoLostInterrupt` | roo_testing/interrupts/interrupt_controller.cpp:157-210 | in every run a ready slot has a latched request, a producer about to request, or a dispatcher that will still scan it |
| `InterruptService.AssertionNotLost` | roo_testing/interrupts/interrupt_controller.cpp:193-210 | after a successful set-pending, as long as the registration lasts, it is pending, in flight, or its handler has been called since, in every run |
| `InterruptService.ClaimIsCalled` | roo_testing/interrupts/interrupt_controller.cpp:82-84 | from a claim the next step calls the claimed registration's own handler with its own argument, once |
| `InterruptService.RegistrationIsARun` | roo_testing/interrupts/interrupt_controller.cpp:106-128 | an undisturbed registration takes the first usable slot, the next generation and the requested flags, and issues the handle |
| `InterruptService.UnregistrationIsARun` | roo_testing/interrupts/interrupt_controller.cpp:140-155 | an undisturbed unregistration leaves the slot free with its generation, and the handle stale |
| `InterruptService.DispatchIsARun` | roo_testing/interrupts/interrupt_controller.cpp:70-91 | a latched request leads to the call of the first ready slot's handler |
| `InterruptService.DispatchEnds` | roo_testing/interrupts/interrupt_controller.cpp:70-91 | with nothing left to do the dispatcher finishes its pass, makes one more and gives the core back |
| `InterruptDelivery.NoInventedInterrupt` | roo_testing/interrupts/interrupt_controller.cpp:193-210 | invocations plus the delivery in flight plus the pending bit never exceed successful set-pending calls |
| `InterruptDelivery.ClaimsOnlyReady` | roo_testing/interrupts/interrupt_controller.cpp:74-81 | a claim is made from a slot allocated, enabled and pending at that step, and takes its pending bit |
| `InterruptDelivery.NoCallAfterUnregister` | roo_testing/interrupts/interrupt_controller.cpp:140-155 | after a successful unregister no step of any run invokes that registration |
| `InterruptDelivery.NobodyStarves` | roo_testing/interrupts/interrupt_controller.cpp:70-91 | when a slot is claimed, no other slot has stayed ready since its previous claim |
| `HostEventDelivery.RunKeeps` | roo_testing/host_event/host_event_endpoint.cpp:39-144 | in every run table and slot fields are inverse, and the log is proper: each handler call belongs to a live connection and uses its handler, and no disconnect happens inside one |
| `HostEventDelivery.HandlerCallsBounded` | roo_testing/host_event/host_event_endpoint.cpp:45-50 | handler calls never exceed notifications, in every run from power-on |
| `HostEventDelivery.NotificationNotLost` | roo_testing/host_event/host_event_endpoint.cpp:142-144 | a notification to a lasting connection is pending, taken for an imminent call, or followed by a call begun after it |
| `HostEventDelivery.PassServes` | roo_testing/host_event/host_event_endpoint.cpp:44-52 | a finished pass has served everybody connected and owed a call at its start |
| `HostEventDelivery.NextPassServes` | roo_testing/host_event/host_event_endpoint.cpp:41-54 | a call owed now is made by the end of the first pass that starts later, whatever interleaves |
| `HostEventDelivery.TickLatches` | roo_testing/host_event/host_event_endpoint.cpp:69-82 | a tick ends with the gateway notified if a connected endpoint was owed a call when it began |
| `HostEventDelivery.DisconnectQuiesces` | roo_testing/host_event/host_event_endpoint.cpp:120-136 | after its critical section the endpoint is out of the table and no pass is in progress |
| `HostEventDelivery.NoCallWhileDisconnected` | roo_testing/host_event/host_event_endpoint.cpp:120-136 | an endpoint that is not connected has no handler running and gets no call until it is connected |
| `HostEventDelivery.ConnectAnswers` | roo_testing/host_event/host_event_endpoint.cpp:89-118 | what each answer of connect says about the table before and after |
| `HostEventDelivery.DisconnectIsARun` | roo_testing/host_event/host_event_endpoint.cpp:120-136 | with the mutex free a task's disconnect takes the endpoint out of the table, resets it and gives the mutex back |
| `HostEventDelivery.GatewayGoesOn` | roo_testing/host_event/host_event_endpoint.cpp:41-54 | a notified gateway goes on to its pass, and every step of a pass brings it closer to its end |
| `HostEventDelivery.TickGoesOn` | roo_testing/host_event/host_event_endpoint.cpp:69-82 | a tick looks at one place after another and ends |
| `HostEventGateway.OneCallPerDuePlace` | roo_testing/host_event/host_event_endpoint.cpp:45-50 | a pass makes one call per pending endpoint and no other |
| `HostEventGateway.CallsInTableOrder` | roo_testing/host_event/host_event_endpoint.cpp:45-50 | the calls of a pass come in table order |
| `HostEventGateway.HostEventGateway.Connect` | roo_testing/host_event/host_event_endpoint.cpp:89-118 | each answer and when it occurs; the first free place is taken, pending is cleared, the bijection kept |
| `HostEventGateway.HostEventGateway.Disconnect` | roo_testing/host_event/host_event_endpoint.cpp:120-136 | the endpoint leaves the table with its fields reset, or nothing changes; the bijection kept |
| `HostEventGateway.HostEventGateway.OnTick` | roo_testing/host_event/host_event_endpoint.cpp:69-82 | notifies the gateway once exactly when started and some connected endpoint is pending |
| `HostEventGateway.HostEventGateway.DeliverPass` | roo_testing/host_event/host_event_endpoint.cpp:45-50 | calls the pending handlers in table order and leaves nothing pending |
| `ConditionVariable.ConditionVariable.NotifyOne` | roo_testing/sys/condition_variable.cpp:31-48 | signals and removes the first waiter of highest priority, or changes nothing when nobody waits |
| `ConditionVariable.ConditionVariable.NotifyAll` | roo_testing/sys/condition_variable.cpp:50-59 | signals every waiter and empties the array |
| `ConditionVariable.ConditionVariable.Enqueue` | roo_testing/sys/condition_variable.cpp:64-71 | takes the first free place, and fails exactly when there is none |
| `ConditionVariable.ConditionVariable.Leave` | roo_testing/sys/condition_variable.cpp:80-87 | gives up the task's first place, if it has one |
| `ConditionVariable.ChosenIsUnique` | roo_testing/sys/condition_variable.cpp:34-42 | when anybody waits there is exactly one waiter to pick |
| `ConditionVariable.StepKeeps` | roo_testing/sys/condition_variable.cpp:31-88 | each critical section and wake-up keeps the exactness invariant |
| `ConditionVariable.RunKeeps` | roo_testing/sys/condition_variable.cpp:31-88 | in every run no task is in the array twice, a blocked task is in it unsignalled or out of it with one latched signal, and returns match signals one to one |
| `ConditionVariable.LeavesSignalled` | roo_testing/sys/condition_variable.cpp:43-46 | a task leaves the array only by being signalled, once |
| `ConditionVariable.NotifyAllReachesEveryone` | roo_testing/sys/condition_variable.cpp:50-59 | every task waiting at the start of a run with a notify-all is signalled by its end |
| `ConditionVariable.EachNotifyReachesAnother` | roo_testing/sys/condition_variable.cpp:31-48 | as many notify-one calls as waiters reach all of them |
| `ConditionVariable.SignalledTaskReturns` | roo_testing/sys/condition_variable.cpp:76-87 | a signalled task's own steps take it out of the wait with its signal used up |
| `ConditionVariable.WaiterIsQueued` | roo_testing/sys/condition_variable.cpp:64-71 | a waiting task is in the array, unsignalled, from the moment it waits |
| `WallClock.WallClock.SetUnixTimeMicros` | roo_testing/system/wall_clock.cpp:15-20 | always succeeds and maps the given instant to the current uptime |
| `WallClock.WallClock.GetUnixTimeMicros` | roo_testing/system/wall_clock.cpp:22-32 | gives the mapped time or fails and leaves the output as it was |
| `WallClock.WallClock.ResetToPowerOnMapping` | roo_testing/system/wall_clock.cpp:34-38 | restores the mapping of power-on |
| `WallClock.ReadsLastSet` | roo_testing/system/wall_clock.cpp:22-32 | after any run a read is the last setting plus elapsed uptime, and fails exactly when that exceeds 64 bits |
| `WallClock.ReadsUptimeAfterReset` | roo_testing/system/wall_clock.cpp:34-38 | after power-on or a reset a read is the uptime |
| `WallClock.ClockFollowsUptime` | roo_testing/system/wall_clock.cpp:22-32 | between settings the clock advances exactly with the uptime, and a failing read keeps failing |
| `WallClock.SetGetRoundTrip` | roo_testing/system/wall_clock.cpp:15-32 | setting and reading at one uptime round-trips every 64-bit value |

## Left out

- The worker's wake-up liveness: the generation is bumped and broadcast without the wake mutex (timer.cpp:203-208), so that a worker between its test and its wait sees the broadcast does not follow from the code; what is proved is that its information is not stale.
- `PaceAutoSync`, `system_time_sync`, `system_time_busy_wait_micros` and condition timing: they depend on how the host sleeps.
- The weak runtime hooks for delay, sync and time advance: their bodies are elsewhere; they are modelled as absent.
- Signal masking around host locks: only its effect, atomic lock sections.
- Memory orders and lock-freedom assertions: sequential consistency is assumed.
- Callbacks that throw, and the ownership guard that handles them: callbacks are non-throwing by contract. An empty callback is refused by a `CHECK` and has no script.
- Callbacks with unbounded or data-dependent behaviour: a script is finite, so a periodic alarm re-arms a given number of times; the number is arbitrary.
- Callbacks that insert alarms, for the closed form of delivery times: covered for periodic alarms; in general times stay within bounds (`DrainStaysWithin`), no due alarm is left out (`DueAlarmRuns`) and the work is bounded (`DrainWorkBound`).
- The 64-bit wrap of the wake generation and the 32-bit wrap of the gateway's notification value: both are unbounded counters, or a latch, in the model.
- The order of the clock sample and the uptime load when the origin is initialised: the model samples the clock first.
- Host clock values whose derived uptime exceeds 64 bits: the model's host clock does not produce them.
- AlarmWorker.WorkerNeverStale: the timed wait is identified with its deadline; the conversion to host time (timer.cpp:114-120), which falls back to an untimed wait when unrepresentable, is not modelled.
- InterruptController.InterruptController.DispatchPendingInterrupts: runs with no producer interfering; interference is covered by the interleaving model.
- HostEventGateway.HostEventGateway.DeliverPass: runs with no host thread notifying meanwhile; that is covered by the interleaving model, which names endpoints by number and is not formally tied to the objects.
- Registration, unregistration and dispatch of the controller on words are not formally tied to the interleaving model, which has its own undisturbed runs of them (`InterruptService`); single operations are tied (`InterruptSimulation`).
- The smaller identity space that a test-only build selects: the model uses the 32-bit maximum.
- FreeRTOS itself, task creation, priorities of running tasks and the simulated-interrupt port: single steps for a latched notification, a latched request, a mutex and a critical section.
- Destruction of a connected endpoint, and calls of connect or disconnect from a handler, which assert.
- `condition_variable::wait_until_impl`: a waiter that times out can still be signalled before it leaves the array, and a past deadline goes through unsigned arithmetic, so exactness does not extend to it.
- The user mutex that a wait releases and retakes, and more than eight waiters, which a `CHECK` refuses.
- `thread.cpp` and `mutex.cpp`: thin wrappers that would only add easy members.
- The uptime that the wall clock reads is a parameter, assumed monotonic as proved for the register.
