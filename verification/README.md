# event-hub-cpp: a verified model of the passive scheduling core

This project models the parts of event-hub-cpp that decide what runs, when, how often and whether a
sleeping loop wakes up, and proves what they promise. `dafny verify dfyconfig.toml` checks all of it.

- **TaskManager.** `TaskTypes` holds the data: entries, control blocks, three priority deques, the delayed
  container, the id index and the counters. `TaskOps` gives each mutex region as a function. `TaskInvariant`
  and `TaskSteps` prove the invariant kept by every region and by the consumer's lock-free steps.
  `TaskProcess` is one call of `process()` with callbacks and exception handlers that are arbitrary programs
  over the manager's interface. `TaskWorld` interleaves producers, cancellers and the consumer; a `cancel()`
  loads the state and CASes it in two steps. `TaskLive`, `TaskOrder`, `TaskSnapshot`, `TaskOutcome`, `TaskThrow`,
  `TaskThrowRuns`, `TaskFate`, `TaskAnswers`, `TaskLedger`, `TaskTiming` and `TaskDeadlines` prove the main results,
  and `TaskProcessRuns` that a call of `process()` is a run of `TaskWorld`. `DelayedHeap`, `TaskClearing` and
  `TaskManagerClass` are the imperative form: a class whose methods change vectors, a binary heap and counters in
  place, each proved to be the corresponding function.
- **Wake-up protocol.** `WakeUp` is the protocol of generations, with every enqueue and its notification as two
  steps; `WakeUpLoops` gives the bodies of `RunLoop::run_until`, the module worker loop and
  `ModuleHub::run_loop`, and `WakeUpPasses` says what a loop has done before it waits. `RunLoopClass` is the class whose loops look at the sources.
- **Calendar rules.** `CalendarDates` has proleptic Gregorian dates (ISO 8601), `CalendarScan` the day-by-day
  search under an arbitrary zone, `CalendarRules` normalisation and the search windows, `CalendarMeaning` when a
  rule occurs, told from its lists and the calendar, `CalendarPlans` the missed-run and overlap policies. `CalendarCore` interleaves every thread that uses a scheduler with every
  thread that uses its manager: each section under the scheduler's mutex and each call into the manager is a
  step, so submitting a task and recording it are two. `CalendarSteps` proves the invariant. `CalendarRuns`
  (one task per rule), `CalendarTimes` and `CalendarLife` (planned times, rules out of step), `CalendarClocks` (from
  planned times to running times) and `CalendarCounts` have the results about whole runs, `CalendarRace` two runs; `CalendarSchedulerClass` is the class.
- **Events.** `EventQueue` is the asynchronous queue, `EventGuards` dispatch with lifetime guards, `EventDispatch`
  who a dispatch reaches, `EventAwaiters` awaiters, timeouts and requests.
- **Hub.** `HubLifecycle` is the life cycle of a hub and its modules.

Clock readings, callback behaviour, thrown exceptions and the interleaving are inputs: every theorem holds for
all of them. Observers in the theorems (of deadlines, cycles, clock readings, passes) write down arguments and readings
only, so that what a task or a rule does is told from what was asked. In `TaskWorld` clock readings never decrease; nothing else is assumed about them. Ids, sequence
numbers and generations are unbounded, and atomics are sequentially consistent.

Two statements in the source's comments are stronger than its code, and the code is what is modelled.
`EventEndpoint::subscribe` says that closing prevents guarded callbacks from starting later
(include/event_hub/event_endpoint.hpp:99-100): a callback still in flight keeps the guard alive, so a nested or
parallel dispatch can start another one (`NestedStartAfterClose`); it happens only then
(`StartsAfterCloseOnlyInFlight`). `TaskManager::cancel` says it answers true for a task in the current snapshot or
for an executing periodic task (include/event_hub/task_manager.hpp:542-546): if the consumer starts the task between
the load and the CAS it answers false (`PeriodicCancelCanFail`); `CancelLosesOnlyToStart` says exactly when.

A calendar rule is meant to keep the id and the planned time of its one queued task, and its planned times are
meant to increase. `schedule_one` submits a task outside the scheduler's mutex and takes the lock to record it
afterwards (include/event_hub/calendar_scheduler.hpp:476-492). If another thread's `process()` starts the first task
of a rule in between, both can fail. That a rule has never more than one live task holds all the same
(`OneTaskPerRule`).
- *The id.* If that run ends before add_rule comes back, the rule keeps the id and the time of a finished task while
  its next one is queued (`RaceRun`). After the record the rule knows its task if and only if `run_due` has not begun
  for the task when the adder takes the lock (`RecordAgrees`).
- *The time.* `run_due` takes its rule's planned time and task id under one lock (lines 511-521). It begins with those
  of its own task except in two cases (`BeginReads`): the rule has not been recorded yet, and the run begins with time
  zero and no id; or add_rule has come back late (`LateRecord`), and it begins with those of an earlier task. Of a
  run that began with time `r`, for a task planned for `p`, at clock reading `now`, the next planned time is the right
  one exactly if `r` is `p`, or the rule skips overdue times and both `p` and `r` have come (`ReplanExact`; `RacedPlan`
  for a run that began with time zero). So under `queue_one_after_current` the first run of such a rule plans from the
  epoch: a rule run for day 2 is planned and recorded for day 1 next (`GoesBackRun`).
- *How it starts and ends.* Only a `run_due` that begins between the two sections of the rule's own add_rule puts a
  recorded rule out of step, in id or in time (`RacedOnlyByBegin`). The first task recorded by a run after add_rule has
  come back puts it in step (`BackInStep`), for good, and from then on planned times increase (`PlansIncrease`).

## Model

| member | source | states |
|---|---|---|
| TaskSteps.KeepsApply | include/event_hub/task_manager.hpp:547-1070 | Any submission, cancellation, reschedule, close or clear, at any moment of the consumer's work, keeps every entry in the place of its task's state, the index and both counters exact |
| TaskSteps.KeepsStart | include/event_hub/task_manager.hpp:626-640 | A CAS from ready_snapshot to executing that succeeds on a one-shot task leaves exactly one decrement owed, and nothing else is out of step |
| TaskSteps.KeepsFinishSuccess | include/event_hub/task_manager.hpp:1182-1231 | However a callback ended, what it asked for and whether the manager was closed meanwhile, finishing keeps the invariant and empties the running slot |
| TaskProcess.KeepsProcess | include/event_hub/task_manager.hpp:612-666 | A call of process() that returns or throws leaves the manager consistent and nothing in the snapshot, whatever callbacks and handler do |
| TaskWorld.StepKeeps | include/event_hub/task_manager.hpp:547-707 | Every step of every thread keeps the invariant, the lock-free CAS and decrement and the two halves of cancel() included |
| TaskWorld.CountersExact | include/event_hub/task_manager.hpp:547-707 | At every moment of every run ready_count is the number of queued_ready entries in the deques; pending_count adds the delayed and snapshotted ones, a running periodic task and the decrement still owed; neither underflows |
| TaskWorld.ExactlyOnePlace | include/event_hub/task_manager.hpp:1088-1136 | At every moment a live task has an entry exactly where its state says, in one deque at most, and nowhere else |
| TaskLive.NextDeadlineIsLeast | include/event_hub/task_manager.hpp:730-738 | next_deadline() is the least due time over the live delayed tasks, dead entries notwithstanding, and none exactly when there are none |
| TaskLive.PromoteResult | include/event_hub/task_manager.hpp:1088-1110 | Promotion leaves no live delayed task that is due and appends the promoted ones to their own deque in (due, submission) order |
| TaskLive.TakeResult | include/event_hub/task_manager.hpp:1112-1136 | The snapshot is the first live tasks of high, normal, low in that order, and what is left keeps its order |
| TaskOrder.SnapshotInOrder | include/event_hub/task_manager.hpp:1088-1136 | In every run a call takes, as many as it may, the first of the tasks that are ready or whose time has come, and leaves the others ready behind them: priority 0 before others and 2 after them, within a priority what was ready before in its order, then by deadline and submission |
| TaskOrder.PostedLast | include/event_hub/task_manager.hpp:862-879 | An accepted task that may start at once goes behind all others of its priority and before those of a lower one |
| TaskOrder.PostedDelayed | include/event_hub/task_manager.hpp:881-903 | An accepted task that has to wait goes after all that are due before or with it, and before those due later |
| TaskOrder.RequeuedLast | include/event_hub/task_manager.hpp:1138-1180 | A task that comes back ready from its callback keeps its priority and goes behind all others of it |
| TaskOrder.RequeuedDelayed | include/event_hub/task_manager.hpp:1138-1180 | One that has to wait for its next run keeps its priority too, and goes after all that are due before or with it |
| TaskProcessRuns.ProcessIsRun | include/event_hub/task_manager.hpp:612-666 | Every call of process(), whatever callbacks and handler do, is a run of the interleaved steps that ends where the call ends and starts the same tasks in the same order, so what holds of runs holds of calls |
| TaskSnapshot.SnapshotRefinement | include/event_hub/task_manager.hpp:612-666 | process(n) visits, in order and each once, the first n tasks that were live after promotion at entry, or a prefix of them if an exception escapes; nothing queued during the call starts in it |
| TaskSnapshot.SkippedMeansCancelled | include/event_hub/task_manager.hpp:626-636 | A visited task that does not start was cancelled earlier in the same call |
| TaskSnapshot.CancelledMeansSkipped | include/event_hub/task_manager.hpp:626-636 | Once a callback or the handler has been told that it cancelled a task, the same call does not start that task |
| TaskSnapshot.StartedIffNotCancelled | include/event_hub/task_manager.hpp:626-636 | Of the visited tasks exactly those start that nobody cancelled before their turn in the same call |
| TaskOutcome.ThrowsExactly | include/event_hub/task_manager.hpp:642-664 | An exception escapes process() at task id if and only if id is the first started task whose callback raises while there is no handler, or whose handler raises, told from the strategies of the user code and the log |
| TaskOutcome.HandledAlwaysFinishes | include/event_hub/task_manager.hpp:642-664 | With a handler that never raises every call goes to its end, and its answer is the number of tasks that started |
| TaskOutcome.RaisedIsOver | include/event_hub/task_manager.hpp:1233-1256 | A task whose callback raised is over when its turn ends, handler or not, and out of the index |
| TaskThrowRuns.ThrowEquivalence | include/event_hub/task_manager.hpp:1258-1276 | If an exception escapes process(n) at the (i+1)-th visited task, live queues, delayed set, index and counters are those of process(i+1) throwing there |
| TaskThrow.SimApply | include/event_hub/task_manager.hpp:547-1070 | No call other than clear_pending and ready_count can tell a task that is in the snapshot from one that is still queued |
| TaskLedger.CancelIsFinal | include/event_hub/task_manager.hpp:547-603 | Once a cancellation of a task has answered true the task never starts again, reschedule requests included, and no later one answers true |
| TaskLedger.StartsUnlessCancelled | include/event_hub/task_manager.hpp:547-640 | In every interleaving a task the consumer comes to in its snapshot starts if and only if no thread has had a true answer from cancelling it |
| TaskLedger.LeavesIndexOnce | include/event_hub/task_manager.hpp:1182-1256 | An id that leaves the index never returns, and its task is completed, or cancelled, for good |
| TaskLedger.CancelLosesOnlyToStart | include/event_hub/task_manager.hpp:557-597 | For a live task cancel() answers false exactly when its callback has started and either the start came between load and CAS or the task is one-shot |
| TaskLedger.PeriodicCancelCanFail | include/event_hub/task_manager.hpp:557-597 | A run in which cancel() answers false for a periodic task whose callback goes on executing and which is queued for its next cycle |
| TaskLedger.DrainStep | include/event_hub/task_manager.hpp:1196-1209 | In a closed manager a start uses up one waiting task, and no step makes a new one |
| TaskLedger.DrainsAfterClose | include/event_hub/task_manager.hpp:111-121 | From close() on, at most as many callbacks start as tasks were waiting then, over all later calls of process() |
| TaskDeadlines.StartsInTime | include/event_hub/task_manager.hpp:363-386 | In every run no task starts before the time asked for it: the due time of post_at, the first deadline or next cycle of a periodic task, or the last reschedule that took effect |
| TaskDeadlines.NextDeadlineIsLeastAsked | include/event_hub/task_manager.hpp:730-738 | At every moment next_deadline() is the least time asked for among the tasks that wait for one, and none exactly if none waits |
| TaskDeadlines.NoneLeftWaiting | include/event_hub/task_manager.hpp:1088-1110 | A call of process() leaves no task waiting whose time has come |
| TaskDeadlines.ReturnDecides | include/event_hub/task_manager.hpp:1182-1231 | What becomes of a task whose callback returns: cancelled, completed in a closed manager, queued for the time it asked for last, queued for its next cycle, or completed, in that order; ready exactly if that time has come |
| TaskDeadlines.RaiseEnds | include/event_hub/task_manager.hpp:1233-1256 | In every run a task whose callback raises is over, cancelled if it was and completed otherwise, whatever it had asked for |
| TaskAnswers.SubmissionAnswers | include/event_hub/task_manager.hpp:363-386 | A submission is refused, with id 0 and no effect, exactly if it has no callable, the manager is closed or the interval is not positive; otherwise its id is new and it is ready exactly if its time has come |
| TaskAnswers.RescheduleAnswers | include/event_hub/task_manager.hpp:1048-1070 | context.reschedule_at() answers true exactly for a running, not cancelled task in an open manager, and changes nothing otherwise |
| TaskAnswers.CancellationsAnswer | include/event_hub/task_manager.hpp:547-603 | cancel() and context.cancel() answer true exactly for a task they can still stop; it is then cancelled, no other task is touched, and a false answer changes nothing |
| TaskAnswers.ClearCancelsQueued | include/event_hub/task_manager.hpp:671-707 | clear_pending() cancels every ready and delayed task, leaves every other one, and pending_count goes down by the number it cancels |
| TaskAnswers.CloseRefuses | include/event_hub/task_manager.hpp:111-126 | From close() on, in every run, every submission is refused with id 0 and every reschedule request with false, and neither changes anything |
| TaskAnswers.QuestionsAnswer | include/event_hub/task_manager.hpp:710-718 | ready_count, pending_count, is_closed and context.is_cancelled answer from the states of the tasks and change nothing |
| TaskTiming.StepTimed | include/event_hub/task_manager.hpp:1138-1180 | Every step keeps each periodic entry planned for its own place in its series of cycles |
| TaskTiming.NoDrift | include/event_hub/task_manager.hpp:1138-1180 | At every moment a fixed-rate series has started at most floor((now - anchor) / interval) + 1 cycles; the anchor is the first deadline or the last explicit reschedule |
| TaskTiming.StartsOnTime | include/event_hub/task_manager.hpp:1211-1222 | Cycle k of a fixed-rate series is planned for anchor + k * interval and not started before; a fixed-delay cycle starts at least one interval after the previous finish |
| DelayedHeap.PushHeap | include/event_hub/task_manager.hpp:895-901 | Sifting up gives a heap of the same entries |
| DelayedHeap.PopHeap | include/event_hub/task_manager.hpp:1091-1095 | Sifting down moves the root to the back and leaves a heap of the others |
| DelayedHeap.RootIsHead | include/event_hub/task_manager.hpp:807-815 | The front of the heap is the front of the same entries sorted by deadline and submission |
| TaskClearing.HeapCleared | include/event_hub/task_manager.hpp:690-704 | Clearing the heap's vector in its own order does what clearing the sorted list does |
| TaskManagerClass.TaskManager.PostAt | include/event_hub/task_manager.hpp:363-386 | Submission at a deadline: the fields change as the modelled region says, in either container; when such a task starts is `TaskDeadlines.StartsInTime` |
| TaskManagerClass.TaskManager.Cancel | include/event_hub/task_manager.hpp:547-603 | The switch over the six states is the modelled cancellation |
| TaskManagerClass.TaskManager.PromoteDue | include/event_hub/task_manager.hpp:1088-1110 | The loop over the heap, with pruning, is promotion of the sorted list |
| TaskManagerClass.TaskManager.TakeReadyBatch | include/event_hub/task_manager.hpp:1112-1136 | The loops over the three deques are the modelled snapshot |
| TaskManagerClass.TaskManager.RestoreUnrun | include/event_hub/task_manager.hpp:1258-1276 | The loop from the back of the snapshot is the modelled restore |
| TaskManagerClass.TaskManager.ClearPending | include/event_hub/task_manager.hpp:671-707 | The loops over deques and heap are the modelled clearing, and the answer is what pending_count loses |
| TaskManagerClass.TaskManager.Process | include/event_hub/task_manager.hpp:612-666 | The whole method, user code and exceptions included, is the modelled process(): same state, same count, same events, same outcome, of which `TaskOutcome` and `TaskProcessRuns` say what they are |
| WakeUp.StepSafe | include/event_hub/notifier.hpp:48-86 | Every step of every thread keeps: what the loop has looked at since it captured the generation has no work, or a notification has arrived, or the one for it is still owed |
| WakeUp.QuietCall | include/event_hub/task_manager.hpp:547-738 | A call by anybody but the consumer makes no task ready and brings no deadline in, except for the one task it submits, which it announces |
| WakeUpLoops.RunLoopMissesNothing | include/event_hub/run_loop.hpp:158-186 | While run_until is parked with its captured generation, every ready task, every queued event and a stop request has its own notification still to come, and so has every live delayed task unless the wait ends by its deadline |
| WakeUpLoops.WorkerMissesNothing | include/event_hub/module.hpp:252-289 | The same for the worker loop of a module |
| WakeUpLoops.HubMissesNothing | include/event_hub/module_hub.hpp:430-460 | The same for the hub's loop with any mix of modules, stored worker exceptions included |
| WakeUpLoops.WakesUp | include/event_hub/notifier.hpp:63-86 | Once all notifications are sent, a parked loop that has something to do can leave its wait |
| WakeUpPasses.RunLoopPasses | include/event_hub/run_loop.hpp:158-186 | run_until waits only after a pass that has processed every bus and every manager and in which no event was found and no task started |
| WakeUpPasses.WorkerPasses | include/event_hub/module.hpp:252-289 | The same for the worker loop of a module |
| WakeUpPasses.HubPasses | include/event_hub/module_hub.hpp:430-460 | The same for the hub's loop with any mix of modules |
| RunLoopClass.RunLoop.HasReadyOrPendingWork | include/event_hub/run_loop.hpp:207-221 | True exactly when an event is queued or a live task is ready in some source |
| RunLoopClass.RunLoop.NextTaskWait | include/event_hub/run_loop.hpp:223-246 | The least wait over all managers, zero as soon as one has ready work; looking changes nothing live |
| CalendarDates.DateOf | include/event_hub/calendar_scheduler/detail.hpp:148-152 | Every day number has a valid date with that number |
| CalendarDates.DateRoundTrip | include/event_hub/calendar_scheduler/detail.hpp:148-158 | Every valid date is the date of its own day number |
| CalendarMeaning.DatesFollow | include/event_hub/calendar_scheduler/detail.hpp:148-158 | Day 0 is 1970-01-01, and each next day has the next date by the lengths of the months |
| CalendarMeaning.MonthStarts | include/event_hub/calendar_scheduler/detail.hpp:148-158 | The day of the year on which each month starts, leap years included |
| CalendarMeaning.WeekdaysFollow | include/event_hub/calendar_scheduler/detail.hpp:236-258 | Day 0 was a Thursday, counting from Sunday as 0, and each next day has the next weekday |
| CalendarDates.MonthDayRecurs | include/event_hub/calendar_scheduler/detail.hpp:260-286 | Every day 1..31 of a month recurs within 62 days of any date, leap years included |
| CalendarScan.ScanLocalDays | include/event_hub/calendar_scheduler/detail.hpp:160-198 | The nested loops compute the modelled search |
| CalendarScan.NextTimeIsLeast | include/event_hub/calendar_scheduler/detail.hpp:160-198 | A returned time is the least occurrence strictly after the bound over all local days, for any lawful zone |
| CalendarScan.NextTimeFinds | include/event_hub/calendar_scheduler/detail.hpp:160-198 | A time is returned exactly when an occurrence after the bound lies within the window |
| CalendarScan.ChangingLawful | include/event_hub/calendar_scheduler/detail.hpp:120-146 | A zone with a gap or a fold satisfies the zone laws |
| CalendarScan.GapsAndFolds | include/event_hub/calendar_scheduler/detail.hpp:132-146 | Local times in a gap have no instant, and those in a fold stand for their first |
| CalendarRules.NormalizeSeconds | include/event_hub/calendar_scheduler/detail.hpp:65-75 | The valid seconds, in order, each once |
| CalendarRules.NormalizeWeekly | include/event_hub/calendar_scheduler/detail.hpp:77-84 | A weekly rule is accepted exactly when some weekday has a valid second |
| CalendarRules.NormalizeMonthly | include/event_hub/calendar_scheduler/detail.hpp:86-96 | A monthly rule is accepted exactly when some day 1..31 has a valid second |
| CalendarMeaning.RuleOccurs | include/event_hub/calendar_scheduler/detail.hpp:200-286 | In any zone a rule occurs exactly at the instants of its listed seconds, those of the weekday or day of the month of each local day |
| CalendarMeaning.OffsetOccurs | include/event_hub/calendar_scheduler/detail.hpp:200-286 | With a fixed offset a rule occurs at u if and only if the local time u + offset is a whole second listed for its day |
| CalendarMeaning.OffsetNextTime | include/event_hub/calendar_scheduler/detail.hpp:200-286 | The next time with a fixed offset, in full: it exists, lies after the bound, falls on a second listed for its weekday or day of the month, and no instant before it does |
| CalendarMeaning.ChangeOccurs | include/event_hub/calendar_scheduler/detail.hpp:120-198 | Across one change of offset a rule occurs at u if and only if the local time then is listed and no earlier instant has the same local time |
| CalendarMeaning.LooksAhead | include/event_hub/calendar_scheduler/detail.hpp:200-286 | In any lawful zone the search finds a time exactly if there is one within 2, 14 or 370 local days |
| CalendarRules.FixedOffsetSuffices | include/event_hub/calendar_scheduler/detail.hpp:200-286 | With a fixed offset the windows 2, 14 and 370 always yield a next time for an accepted rule |
| CalendarRules.ChangeSuffices | include/event_hub/calendar_scheduler/detail.hpp:200-286 | They do so even across one change of offset of less than a day |
| CalendarPlans.FirstSound | include/event_hub/calendar_scheduler.hpp:400-444 | The first plan is the least occurrence the missed-run policy asks for, and "missed" is reported exactly when an occurrence the search can see lies between the persisted time and the present |
| CalendarPlans.AfterRunSound | include/event_hub/calendar_scheduler.hpp:587-627 | The next plan is strictly later, least after the previous plan or after the present as the policy says, and "missed" is reported exactly when an occurrence the search can see lies between |
| CalendarPlans.MissedExactly | include/event_hub/calendar_scheduler.hpp:400-627 | For an accepted rule with a fixed offset, or across one change of offset of less than a day, "missed" is reported exactly when any occurrence lies between, with no limit on how far |
| CalendarPlans.AlwaysPlans | include/event_hub/calendar_scheduler.hpp:400-627 | Such a rule is never without a first or a next plan |
| CalendarSteps.CalStepKeeps | include/event_hub/calendar_scheduler.hpp:348-725 | Every step of every thread, the two sections of add_rule, removals, runs, throws and everything else the manager does, keeps rules and tasks in agreement |
| CalendarRuns.OneTaskPerRule | include/event_hub/calendar_scheduler.hpp:446-725 | At every moment of every interleaving a rule has at most one live task: exactly one when added and at rest, none while its callback runs; it keeps that task's id exactly if it was not raced, and a rule that is gone and was not raced leaves no waiting task that nobody is about to cancel |
| CalendarRuns.RecordAgrees | include/event_hub/calendar_scheduler.hpp:484-494 | After add_rule records the task of a rule that is still there, the rule agrees with its tasks if and only if run_due has not begun for that task |
| CalendarRuns.BeginRuns | include/event_hub/calendar_scheduler.hpp:504-523 | The task run_due begins for is the one live task of its rule; the callback runs exactly if the rule is still there, and the rule knew the task exactly if it was not raced |
| CalendarTimes.PlanFrom | include/event_hub/calendar_scheduler.hpp:587-627 | For a task planned for p whose run plans from r: the next time is later than p, and is the least occurrence the policy asks for after p, exactly under the stated conditions on p, r and the present |
| CalendarLife.BeginReads | include/event_hub/calendar_scheduler.hpp:511-521 | A run begins with time zero and no id exactly if add_rule is still on its way with its task, with its own task's time and id exactly if not and add_rule has not come back late, and otherwise with those of an earlier task of the rule |
| CalendarLife.ReplanExact | include/event_hub/calendar_scheduler.hpp:587-627 | Over every run and for every resubmission: whether the next planned time is later than that of the task just run, and whether it is the right one, by conditions on what the run began with; a run that began with its own task's time always plans the right one |
| CalendarLife.RacedPlan | include/event_hub/calendar_scheduler.hpp:587-627 | After a run that began before the record, for a time p not before zero, the next time is right, and later than p, exactly if p is zero, or overdue times are skipped and p has come |
| CalendarLife.LateRecord | include/event_hub/calendar_scheduler.hpp:484-494 | A record puts the first task's id and time into a rule at rest; the rule is in step afterwards if and only if run_due has not begun for that task, that is, if that task is the rule's newest |
| CalendarLife.BackInStep | include/event_hub/calendar_scheduler.hpp:484-494 | The next task recorded by a run after add_rule has come back puts the rule in step |
| CalendarLife.InStepStays | include/event_hub/calendar_scheduler.hpp:348-725 | No step of any thread puts a rule in step out of it, and only schedule_after_run gives it a new task |
| CalendarLife.RacedOnlyByBegin | include/event_hub/calendar_scheduler.hpp:476-523 | If a recorded rule does not know its live task, or plans from another time than its task's, then a run_due of that rule began between the two sections of its add_rule |
| CalendarLife.PlannedOccurs | include/event_hub/calendar_scheduler.hpp:484-494 | At every moment the time a recorded rule is planned for is an occurrence of the rule, in step or not |
| CalendarLife.PlansIncrease | include/event_hub/calendar_scheduler.hpp:587-627 | Over every run, from the moment a rule is in step, the time of each of its tasks is later than those of all tasks before, and a right successor of the one before: the next occurrence under the queue-one policy, the next after the present under the skip policy |
| CalendarLife.InStepPlanned | include/event_hub/calendar_scheduler.hpp:484-494 | A rule in step and at rest keeps the time for which its newest task was submitted |
| CalendarLife.LivesOn | include/event_hub/calendar_scheduler.hpp:555-725 | Over every run with an open manager, a rule with a fixed or once changing offset leaves the map only by a removal, a cancellation from inside its callback, or a callback that throws |
| CalendarClocks.BeginsOnTime | include/event_hub/calendar_scheduler.hpp:446-474 | In every run run_due begins for a task only when the steady clock has come as far past the reading at its submission as its planned time was past the calendar's reading |
| CalendarClocks.WaitsForItsMoment | include/event_hub/calendar_scheduler.hpp:446-474 | A task of a rule that waits in the manager is due at exactly that moment, and at the steady reading itself if its planned time was not after the calendar's reading |
| CalendarClocks.ReadyIfOverdue | include/event_hub/calendar_scheduler.hpp:446-474 | A first task is submitted ready exactly if its moment has come |
| CalendarCounts.RunsCounted | include/event_hub/calendar_scheduler.hpp:555-563 | At every moment of every run a rule's run count is the number of its callbacks that returned with the rule still there and not cancelled |
| CalendarRace.RaceRun | include/event_hub/calendar_scheduler.hpp:476-492 | A run from the empty state in which process() starts and finishes the first task of a rule before add_rule records it: the rule then keeps the id and time of the finished task |
| CalendarRace.GoesBackRun | include/event_hub/calendar_scheduler.hpp:476-523 | A run from the empty state in which add_rule records the first task, of day 2, while it is running, and the next task is planned and recorded for day 1 |
| CalendarSchedulerClass.CalendarScheduler.ScheduleOne | include/event_hub/calendar_scheduler.hpp:446-502 | A task is submitted for the steady reading plus the planned time less the observed one, or for the steady reading if that is not positive, and recorded, or cancelled if the rule has gone; nothing changes if the manager refuses it |
| CalendarSchedulerClass.CalendarScheduler.AddRule | include/event_hub/calendar_scheduler.hpp:348-398 | The plan is computed by the search; the rule stays in the map with its task exactly when both are open, it has a first time and the manager takes the task, whatever the observer does to the manager |
| CalendarSchedulerClass.AddInThreeSteps | include/event_hub/calendar_scheduler.hpp:348-398 | AddRule is the modelled insertion, submission and record with nothing in between |
| CalendarSchedulerClass.CalendarScheduler.CancelAll | include/event_hub/calendar_scheduler.hpp:686-725 | The map is emptied at once and the tasks are cancelled one by one, in whatever order the map is walked |
| CalendarSchedulerClass.AllSettled | include/event_hub/calendar_scheduler.hpp:711-714 | After that walk none of the rules' tasks waits |
| CalendarSchedulerClass.CalendarScheduler.EndRun | include/event_hub/calendar_scheduler.hpp:555-627 | The next plan is computed by the search; the rule goes on with one more run, a new task and a new time exactly when it is there, was not cancelled, has a next time and the manager takes the task |
| EventQueue.FifoExactlyOnce | include/event_hub/event_bus.hpp:356-379 | In every interleaving, dispatched events, the rest of the snapshot and the queue are all posts in enqueue order |
| EventQueue.HandledGrows | include/event_hub/event_bus.hpp:356-379 | Nothing dispatched is taken back or dispatched again, a throwing event included |
| EventQueue.EventBus.RestoreUnprocessed | include/event_hub/event_bus.hpp:457-476 | The rest of the snapshot goes ahead of what has arrived since |
| EventQueue.EventBus.Process | include/event_hub/event_bus.hpp:356-379 | Dispatches the events queued at entry up to the first that throws, and keeps the rest ahead of later posts |
| EventGuards.StepValid | include/event_hub/event_bus.hpp:478-507 | The guard's reference count is one for an open endpoint plus one for each of its callbacks in flight |
| EventDispatch.FinishVisitsAll | include/event_hub/event_bus.hpp:484-504 | A dispatch that ends without an exception has come to every subscriber its kind had when it began and to no other record, in the order of subscription and once each |
| EventDispatch.VisitsInOrder | include/event_hub/event_bus.hpp:484-504 | At every moment of a dispatch, and when an exception ends it, it has come to the first of them, in order |
| EventDispatch.VisitRuns | include/event_hub/event_bus.hpp:488-504 | A visit runs the callback exactly if the record has no guard, or its endpoint is open or has a callback in flight |
| EventDispatch.ReachesSubscriber | include/event_hub/event_bus.hpp:224-300 | A dispatch reaches a subscriber of its kind exactly if nobody has unsubscribed it, or all of its owner, before the dispatch began |
| EventDispatch.SubsStep | include/event_hub/event_bus.hpp:118-300 | A step adds the new record, guarded if its endpoint is open and never locking if it is closed, removes exactly those it unsubscribes, and keeps the order of the others |
| EventGuards.StartsAfterCloseOnlyInFlight | include/event_hub/event_bus.hpp:478-507 | After close the count is the number of callbacks in flight, and a callback can start exactly while it is not zero |
| EventGuards.DeadForGood | include/event_hub/event_endpoint.hpp:65-73 | Once nothing of a closed endpoint is in flight, nothing of it ever starts, from a copied list or a later subscription |
| EventGuards.NothingStartsAfterClose | include/event_hub/event_endpoint.hpp:65-73 | With un-nested single-threaded dispatch nothing of an endpoint starts once it is closed |
| EventGuards.NestedStartAfterClose | include/event_hub/event_bus.hpp:488-504 | A run in which a nested dispatch starts a callback of a closed endpoint |
| EventAwaiters.EventAwaiter.HandleEvent | include/event_hub/event_awaiter.hpp:227-250 | User code is called exactly for an accepted event of an active awaiter, and a one-shot awaiter is cancelled first |
| EventAwaiters.EventAwaiter.PollTimeout | include/event_hub/event_awaiter.hpp:150-175 | on_timeout is called exactly when the deadline has come and nothing else has ended the awaiter |
| EventAwaiters.StepValid | include/event_hub/event_awaiter.hpp:129-175 | Every event, poll and cancellation keeps at most one outcome per one-shot awaiter, promises set as often as there were outcomes, and results matched to their own request |
| EventAwaiters.OneOutcome | include/event_hub/event_endpoint.hpp:378-410 | A one-shot awaiter yields at most one of callback and timeout, and a request_future promise is set at most once |
| EventAwaiters.SilentOnceCancelled | include/event_hub/event_awaiter.hpp:129-143 | A cancelled awaiter yields nothing more, even for an event already copied for dispatch |
| EventAwaiters.OwnResults | include/event_hub/event_endpoint.hpp:354-372 | A result reaches the awaiter of the one request whose id it carries |
| EventAwaiters.Reports | include/event_hub/event_awaiter.hpp:150-250 | A step reports an event exactly if the awaiter is active, its token is not cancelled and it accepts the event, a timeout exactly if the deadline has come, and nothing else |
| EventAwaiters.AwaiterHears | include/event_hub/event_awaiter.hpp:227-250 | In every run an awaiter, one-shot or not, is told of every event it accepts until its wait ends by a cancellation, its timeout or, if one-shot, its event |
| EventAwaiters.FirstResultDelivered | include/event_hub/event_endpoint.hpp:354-410 | In every run the first result with a request's number that comes before its cancellation or timeout is delivered to it, and sets the promise of request_future |
| EventAwaiters.RequestIdGenerator.Next | include/event_hub/request.hpp:33-39 | An id is never zero, and the next one is greater |
| HubLifecycle.ModuleHub.Initialize | include/event_hub/module_hub.hpp:124-152 | Hooks run in registration order until one fails; after a failure every module is stopped and those that initialised were shut down in reverse order; after success every module is initialised and has a worker exactly if it has a thread of its own |
| HubLifecycle.ModuleHub.Shutdown | include/event_hub/module_hub.hpp:371-387 | on_shutdown has run exactly once for each module that ever initialised and for no other, in reverse order, after all workers were joined; a second call does nothing |
| HubLifecycle.ModuleHub.InitializeModule | include/event_hub/module.hpp:114-125 | Initialising a stopped module is refused, and its hook does not run |
| HubLifecycle.InitializedOnce | include/event_hub/module.hpp:110-124 | Over the life of a hub no module's on_initialize succeeds twice |
| HubLifecycle.ModuleHub.Run | include/event_hub/module_hub.hpp:287-317 | However the loop ends, the hub is shut down; run() throws exactly if the loop does, or the hub was not initialised and a module is stopped, a hook fails or a thread cannot be started |

## Left out

- Control blocks are a table keyed by task id rather than shared objects; an entry reaches its block through its id, so aliasing is by key.
- The delayed container of `TaskOps` is a sorted list; `DelayedHeap` and the class keep the vector in heap order and connect the two.
- Callbacks are strategies over the manager's interface with a bound on their calls, any bound; re-entrant `process()` is not part of this model.
- Batch submission, futures of `submit`, millisecond and template overloads and `Task` type erasure: wrappers around what is modelled.
- Width and wrap-around of 64-bit ids, sequence numbers and generations; weak memory orders.
- TaskManagerClass.TaskManager.Process: one thread; the interleavings with other threads are those of `TaskWorld`.
- TaskProcessRuns.ProcessIsRun: the clock readings of one call do not go back, which is what a steady clock gives.
- TaskThrowRuns.ThrowEquivalence: the callbacks do not call clear_pending or read ready_count, both of which can tell a snapshotted task from a queued one.
- WakeUpLoops.HubMissesNothing: modules stay as they are while the loop runs, and a module's deadline hint is whatever it returns at the moment it is asked.
- RunLoopClass: process_once and run_until as methods; the loop itself is a body of `WakeUp`, because its point is what other threads do between its steps.
- CalendarRuns.OneTaskPerRule: calendar callbacks do not reschedule themselves through the task context, and nobody but the scheduler cancels or clears its tasks; a rule that was raced may leave one queued task when it is removed, which then finds its rule gone.
- CalendarLife.RacedPlan: for a planned time before the epoch only the general condition of `ReplanExact` is stated, which then also asks that no occurrence is left out.
- CalendarCore.AfterStep: a rule cancelled while its callback ran is marked and erased in one step rather than two; every other section takes a marked rule for one that is gone.
- CalendarSchedulerClass.CalendarScheduler.AddRule: the observer's calls reach the manager but not the scheduler itself; that is what the steps of `CalendarCore` are for.
- What observers of calendar rules are told, other than missed times; custom providers that throw or do not advance.
- time-shield itself, its clocks and its zone database: zones are any maps that satisfy `Lawful`, with a fixed offset and a changing offset as instances; a second of day is valid from 0 to 86399.
- EventGuards: the callback map is one list of records and endpoints are ids; dispatch, unsubscription and the two steps of closing are steps on values rather than methods.
- EventAwaiters.StepValid: one dispatching thread and predicates without side effects; an endpoint's closing appears as cancellation of its awaiters.
- Event metadata, listeners, nodes, `Reply` and cancellation sources.
- HubLifecycle.ModuleHub.Initialize: stop flags and the loop are left to `WakeUp`; joining from a worker's own thread and destructors are not modelled.
