/** The rules a CalendarScheduler keeps, the one-shot tasks it queues for them in a TaskManager, and
    every interleaving of the threads that use the two. Each section under the scheduler's mutex is one
    step and so is each call into the manager; submitting a task and recording it are two steps. */
module CalendarCore {
  import opened TaskTypes
  import TaskOps
  import opened TaskWorld
  import TaskLedger
  import CalendarScan
  import CalendarPlans

  type CalId = nat

  /** The options of a rule, with its provider: they never change. */
  datatype Options = Options(search: CalendarScan.Search, lastDue: Option<int>, missed: CalendarPlans.MissedPolicy,
                             overlap: CalendarPlans.OverlapPolicy, priority: int)

  /** A rule in the core map; `taskId` is scheduled_task_id, zero when there is none. */
  datatype RuleState = RuleState(taskId: TaskId, planned: int, runCount: nat)

  datatype Core = Core(tasks: map<CalId, RuleState>, nextId: CalId, closed: bool)

  const EMPTY_CORE: Core := Core(map[], 1, false)

  // ---------- the sections under the scheduler's mutex ----------

  /** add_rule: a number and a place in the map, unless the scheduler or the manager is closed. */
  function InsertRule(c: Core, managerClosed: bool): (Core, CalId) {
    if c.closed || managerClosed then (c, 0)
    else (c.(nextId := c.nextId + 1, tasks := c.tasks[c.nextId := RuleState(0, 0, 0)]), c.nextId)
  }

  /** schedule_one: record the task that was submitted, if the rule is still there. */
  function RecordTask(c: Core, id: CalId, t: TaskId, planned: int): (Core, bool) {
    if id !in c.tasks || c.closed then (c, false)
    else (c.(tasks := c.tasks[id := c.tasks[id].(taskId := t, planned := planned)]), true)
  }

  /** cancel_on_core and mark_completed: the rule leaves the map. */
  function Erase(c: Core, id: CalId): Core {
    c.(tasks := c.tasks - {id})
  }

  function TaskIdOf(c: Core, id: CalId): set<TaskId> {
    if id in c.tasks && c.tasks[id].taskId != 0 then {c.tasks[id].taskId} else {}
  }

  function AllTaskIds(c: Core): set<TaskId> {
    set id | id in c.tasks && c.tasks[id].taskId != 0 :: c.tasks[id].taskId
  }

  /** cancel_all_on_core. */
  function EraseAll(c: Core, close: bool): Core {
    c.(tasks := map[], closed := c.closed || close)
  }

  /** run_due before the callback: a rule that is gone does not run. */
  function BeginRun(c: Core, id: CalId): (Core, bool) {
    if id !in c.tasks || c.closed then (c, false)
    else (c.(tasks := c.tasks[id := c.tasks[id].(taskId := 0)]), true)
  }

  /** run_due after a callback that returned. */
  function CountRun(c: Core, id: CalId): Core
    requires id in c.tasks
  {
    c.(tasks := c.tasks[id := c.tasks[id].(runCount := c.tasks[id].runCount + 1)])
  }

  /** The steady deadline of a plan; `steady` and `observed` are the two clocks. */
  function Due(plan: CalendarPlans.Plan, observed: int, steady: Time): Time {
    steady + if plan.immediate || plan.planned <= observed then 0 else plan.planned - observed
  }

  // ---------- threads ----------

  /** A call of add_rule on its way: in the map, submitted but not recorded, or about to give up. */
  datatype Adding = Inserted | Posted(t: TaskId, planned: int) | Doomed

  /** What the consumer is doing with a task of the scheduler. run_due holds the planned time and the
      task id that its rule had when it began. */
  datatype Run =
    | NoRun
    | Starting
    | Running(id: CalId, previous: int, known: TaskId)
    | Planning(id: CalId, previous: int, known: TaskId, observed: int)
    | Ending(id: CalId, t: TaskId, planned: int)
    | Ended
    | Failing

  /** `owner` says which rule a queued closure refers to, `plans` for which time each task was submitted,
      and `newest` which task of a rule was submitted last; `removing` holds the tasks that a removal has
      yet to cancel. `raced` is an observer's record of the rules whose task id is out of date: a task of
      theirs got into run_due before add_rule had recorded the first one, and none has begun or been
      recorded since. */
  datatype Cal = Cal(w: World, core: Core, options: map<CalId, Options>, owner: map<TaskId, CalId>,
                     plans: map<TaskId, int>, newest: map<CalId, TaskId>, adding: map<CalId, Adding>, removing: set<TaskId>,
                     run: Run, raced: set<CalId>)

  datatype CalAct =
    | Plain(a: Action)
    | StartOwn
    | Insert(o: Options)
    | Post(id: CalId, observed: int, steady: Time, locked: Time)
    | Record(id: CalId)
    | Drop(id: CalId)
    | Remove(id: CalId)
    | RemoveAll(close: bool)
    | GiveUp(t: TaskId)
    | Begin
    | After(observed: int)
    | Gone
    | Replan(steady: Time, locked: Time)
    | Rerecord
    | Throws
    | Return(now: Time, locked: Time)
    | Escape

  function Front(s: Sched): TaskId
    requires s.running != []
  {
    s.running[0].id
  }

  /** Steps of the manager that have nothing to do with the scheduler: they start no task of its own,
      and neither cancel, clear nor reschedule one. The exceptions are the scheduler's own cancellations
      and a callback that cancels itself through its context. */
  ghost predicate Foreign(x: Cal, a: Action) {
    match a
    case Cas => x.w.s.batch != [] && (TaskOps.Start(x.w.s).1 ==> x.w.s.batch[0].id !in x.owner)
    case Finish(_, _) => x.run.NoRun?
    case Throw => x.run.NoRun?
    case TryCancel => x.w.mutex.Loaded? && (x.w.mutex.id in x.owner ==> x.w.mutex.id in x.removing)
    case Request(op) =>
      && !op.OpClearPending? && !op.OpCancel?
      && (op.OpCtxReschedule? ==> op.id !in x.owner) && (op.OpCtxCancel? && op.id in x.owner ==> x.run.Running?)
    case _ => true
  }

  ghost predicate Submits(w: World, w': World, due: Time, priority: int, locked: Time) {
    Step(w, Request(TaskOps.OpPostAt(true, due, priority, locked)), w')
  }

  /** The submission in `w'` was accepted, with the id that was next in `w`. */
  predicate Accepted(w: World, w': World) {
    w'.s.nextId != w.s.nextId
  }

  predicate InFlight(x: Cal, id: CalId, t: TaskId) {
    id in x.adding && x.adding[id].Posted? && x.adding[id].t == t
  }

  ghost predicate PlainStep(x: Cal, a: Action, y: Cal) {
    && Foreign(x, a) && Step(x.w, a, y.w)
    && y == x.(w := y.w, removing := if a.TryCancel? then x.removing - {x.w.mutex.id} else x.removing)
  }

  ghost predicate StartStep(x: Cal, y: Cal) {
    && x.run.NoRun? && x.w.s.batch != [] && TaskOps.Start(x.w.s).1 && x.w.s.batch[0].id in x.owner
    && Step(x.w, Cas, y.w) && y == x.(w := y.w, run := Starting)
  }

  ghost predicate InsertStep(x: Cal, o: Options, y: Cal) {
    && CalendarScan.Sound(o.search)
    && var (c, id) := InsertRule(x.core, x.w.s.closed);
       y == if id == 0 then x else x.(core := c, options := x.options[id := o], adding := x.adding[id := Inserted])
  }

  /** add_rule between its two sections: the first plan and, if there is one, the submission. */
  ghost predicate PostStep(x: Cal, id: CalId, observed: int, steady: Time, locked: Time, y: Cal) {
    && id in x.adding && x.adding[id].Inserted? && id in x.options
    && var o := x.options[id];
       var plan := CalendarPlans.FirstPlan(o.search, o.lastDue, observed, o.missed).plan;
       if plan.None? then y == x.(adding := x.adding[id := Doomed])
       else
         && Submits(x.w, y.w, Due(plan.value, observed, steady), o.priority, locked)
         && y == if Accepted(x.w, y.w) then
                   x.(w := y.w, owner := x.owner[x.w.s.nextId := id], plans := x.plans[x.w.s.nextId := plan.value.planned],
                      newest := x.newest[id := x.w.s.nextId], adding := x.adding[id := Posted(x.w.s.nextId, plan.value.planned)])
                 else x.(w := y.w, adding := x.adding[id := Doomed])
  }

  ghost predicate RecordStep(x: Cal, id: CalId, y: Cal) {
    && id in x.adding && x.adding[id].Posted?
    && var (t, planned) := (x.adding[id].t, x.adding[id].planned);
       var (c, ok) := RecordTask(x.core, id, t, planned);
       y == x.(core := c, adding := x.adding - {id}, removing := if ok then x.removing else x.removing + {t})
  }

  ghost predicate DropStep(x: Cal, id: CalId, y: Cal) {
    && id in x.adding && x.adding[id].Doomed?
    && y == x.(core := Erase(x.core, id), adding := x.adding - {id}, removing := x.removing + TaskIdOf(x.core, id))
  }

  ghost predicate RemoveStep(x: Cal, id: CalId, y: Cal) {
    id in x.core.tasks && y == x.(core := Erase(x.core, id), removing := x.removing + TaskIdOf(x.core, id))
  }

  ghost predicate RemoveAllStep(x: Cal, close: bool, y: Cal) {
    y == x.(core := EraseAll(x.core, close), removing := x.removing + AllTaskIds(x.core))
  }

  /** cancel() of the manager does not find the task any more. */
  ghost predicate GiveUpStep(x: Cal, t: TaskId, y: Cal) {
    t in x.removing && x.w.mutex.Free? && t !in x.w.s.index && y == x.(removing := x.removing - {t})
  }

  ghost predicate BeginStep(x: Cal, y: Cal) {
    && x.run.Starting? && x.w.phase.InCallback? && x.w.s.running != [] && Front(x.w.s) in x.owner
    && var id := x.owner[Front(x.w.s)];
       var (c, runs) := BeginRun(x.core, id);
       y == if runs then
              x.(core := c, run := Running(id, x.core.tasks[id].planned, x.core.tasks[id].taskId),
                 raced := if id in x.adding then x.raced + {id} else x.raced - {id})
            else x.(run := Ended)
  }

  /** A callback that returned. A rule that was cancelled meanwhile is marked here and erased a moment
      later; every other section takes a marked rule for one that is gone, so it is erased at once. */
  ghost predicate AfterStep(x: Cal, observed: int, y: Cal) {
    && x.run.Running? && x.w.s.running != []
    && y == if x.run.id !in x.core.tasks || HasState(x.w.s, Front(x.w.s), Cancelled) then
              x.(core := Erase(x.core, x.run.id), run := Ended)
            else x.(core := CountRun(x.core, x.run.id), run := Planning(x.run.id, x.run.previous, x.run.known, observed))
  }

  /** The second look, before the next time is planned: the rule has gone meanwhile. */
  ghost predicate GoneStep(x: Cal, y: Cal) {
    x.run.Planning? && x.run.id !in x.core.tasks && y == x.(run := Ended)
  }

  ghost predicate ReplanStep(x: Cal, steady: Time, locked: Time, y: Cal) {
    && x.run.Planning? && x.run.id in x.options
    && var (o, id) := (x.options[x.run.id], x.run.id);
       var plan := CalendarPlans.PlanAfterRun(o.search, x.run.previous, x.run.observed, o.overlap).plan;
       if plan.None? then y == x.(core := Erase(x.core, id), run := Ended)
       else
         && Submits(x.w, y.w, Due(plan.value, x.run.observed, steady), o.priority, locked)
         && y == if Accepted(x.w, y.w) then
                   x.(w := y.w, owner := x.owner[x.w.s.nextId := id], plans := x.plans[x.w.s.nextId := plan.value.planned],
                      newest := x.newest[id := x.w.s.nextId], run := Ending(id, x.w.s.nextId, plan.value.planned))
                 else x.(w := y.w, core := Erase(x.core, id), run := Ended)
  }

  ghost predicate RerecordStep(x: Cal, y: Cal) {
    && x.run.Ending?
    && var (c, ok) := RecordTask(x.core, x.run.id, x.run.t, x.run.planned);
       y == x.(core := c, run := Ended, removing := if ok then x.removing else x.removing + {x.run.t},
               raced := if ok && x.run.id !in x.adding then x.raced - {x.run.id} else x.raced)
  }

  /** The callback throws: the rule is completed and the exception passed on. */
  ghost predicate ThrowsStep(x: Cal, y: Cal) {
    x.run.Running? && y == x.(core := Erase(x.core, x.run.id), run := Failing)
  }

  ghost predicate ReturnStep(x: Cal, now: Time, locked: Time, y: Cal) {
    x.run.Ended? && Step(x.w, Finish(now, locked), y.w) && y == x.(w := y.w, run := NoRun)
  }

  ghost predicate EscapeStep(x: Cal, y: Cal) {
    x.run.Failing? && Step(x.w, Throw, y.w) && y == x.(w := y.w, run := NoRun)
  }

  ghost predicate CalStep(x: Cal, act: CalAct, y: Cal) {
    match act
    case Plain(a) => PlainStep(x, a, y)
    case StartOwn => StartStep(x, y)
    case Insert(o) => InsertStep(x, o, y)
    case Post(id, observed, steady, locked) => PostStep(x, id, observed, steady, locked, y)
    case Record(id) => RecordStep(x, id, y)
    case Drop(id) => DropStep(x, id, y)
    case Remove(id) => RemoveStep(x, id, y)
    case RemoveAll(close) => RemoveAllStep(x, close, y)
    case GiveUp(t) => GiveUpStep(x, t, y)
    case Begin => BeginStep(x, y)
    case After(observed) => AfterStep(x, observed, y)
    case Gone => GoneStep(x, y)
    case Replan(steady, locked) => ReplanStep(x, steady, locked, y)
    case Rerecord => RerecordStep(x, y)
    case Throws => ThrowsStep(x, y)
    case Return(now, locked) => ReturnStep(x, now, locked, y)
    case Escape => EscapeStep(x, y)
  }

  const START_CAL: Cal := Cal(START, EMPTY_CORE, map[], map[], map[], map[], map[], {}, NoRun, {})

  // ---------- the invariant ----------

  predicate StartingTask(x: Cal, t: TaskId) {
    x.run.Starting? && x.w.s.running != [] && Front(x.w.s) == t
  }

  /** Task `t` is live and run_due has not yet begun for it. */
  predicate Unstarted(x: Cal, t: TaskId) {
    TaskLedger.Waits(x.w.s, t) || StartingTask(x, t)
  }

  predicate RunsRule(x: Cal, id: CalId) {
    (x.run.Running? || x.run.Planning? || x.run.Ending?) && x.run.id == id
  }

  /** Task `t` has been submitted and the thread that did so has yet to come back for the lock. */
  predicate Pending(x: Cal, t: TaskId)
    requires t in x.owner
  {
    InFlight(x, x.owner[t], t) || (x.run.Ending? && x.run.id == x.owner[t] && x.run.t == t) || t in x.removing
  }

  /** A queued task is one-shot, and only the newest of its rule can be waiting. If the rule is gone,
      somebody is about to cancel it. */
  ghost predicate TaskFits(x: Cal, t: TaskId) {
    t in x.owner ==>
      && t != 0 && t in x.w.s.ctl && !x.w.s.ctl[t].periodic && !x.w.s.ctl[t].rescheduleRequested
      && var id := x.owner[t];
         && 0 < id < x.core.nextId && id in x.options && id in x.newest
         && (Unstarted(x, t) ==> x.newest[id] == t)
         && (TaskLedger.Waits(x.w.s, t) && id !in x.core.tasks && id !in x.raced ==> Pending(x, t))
  }

  /** A rule that is being added or is running keeps no task id, and any other one has a live task and
      keeps its id: exactly when it was not raced. */
  ghost predicate RuleFits(x: Cal, id: CalId) {
    id in x.core.tasks ==>
      var t := x.core.tasks[id].taskId;
      && 0 < id < x.core.nextId && id in x.options && (t != 0 ==> t in x.owner && x.owner[t] == id)
      && if id in x.adding && id !in x.raced then
           t == 0 && !RunsRule(x, id) && (x.adding[id].Posted? ==> Unstarted(x, x.adding[id].t))
         else if RunsRule(x, id) then id !in x.adding ==> (t == 0 <==> id !in x.raced)
         else
           && id in x.newest && Unstarted(x, x.newest[id])
           && (id !in x.adding ==> (t == x.newest[id] <==> id !in x.raced))
  }

  ghost predicate AddingFits(x: Cal, id: CalId) {
    id in x.adding ==>
      && 0 < id < x.core.nextId && id in x.options
      && if x.adding[id].Posted? then
           var t := x.adding[id].t;
           t in x.owner && x.owner[t] == id && id in x.newest && (id in x.raced ==> !Unstarted(x, t))
         else id !in x.newest
  }

  ghost predicate NewestFits(x: Cal, id: CalId) {
    && (id in x.newest ==> 0 < id < x.core.nextId && x.newest[id] in x.owner && x.owner[x.newest[id]] == id)
    && (id in x.raced ==> id in x.newest)
  }

  /** A task that is yet to be cancelled belongs to a rule that is gone. */
  ghost predicate RemovingFits(x: Cal, t: TaskId) {
    t in x.removing ==> t in x.owner && x.owner[t] !in x.core.tasks
  }

  /** What the consumer is doing is about the task in its hands. */
  ghost predicate RunFits(x: Cal) {
    if x.run.NoRun? then x.w.s.running != [] ==> Front(x.w.s) !in x.owner
    else
      && x.w.s.running != [] && Front(x.w.s) in x.owner && !TaskLedger.Waits(x.w.s, Front(x.w.s))
      && (if x.run.Starting? then x.w.phase.Owing? || x.w.phase.InCallback? else x.w.phase.InCallback?)
      && (x.run.Running? || x.run.Planning? || x.run.Ending? ==> x.owner[Front(x.w.s)] == x.run.id && x.run.id in x.newest)
      && (x.run.Running? || x.run.Planning? ==> x.newest[x.run.id] == Front(x.w.s))
      && (x.run.Ending? ==> x.newest[x.run.id] == x.run.t && (x.run.id in x.core.tasks ==> TaskLedger.Waits(x.w.s, x.run.t)))
  }

  ghost predicate CoreFits(c: Core) {
    c.nextId >= 1 && (c.closed ==> c.tasks == map[])
  }

  ghost predicate Fits(x: Cal) {
    && CoreFits(x.core) && RunFits(x)
    && (forall t :: TaskFits(x, t)) && (forall id :: RuleFits(x, id))
    && (forall id :: AddingFits(x, id)) && (forall id :: NewestFits(x, id)) && (forall t :: RemovingFits(x, t))
    && (forall id :: id in x.options ==> CalendarScan.Sound(x.options[id].search))
  }

  ghost predicate CalInv(x: Cal) {
    WorldInv(x.w) && Fits(x)
  }

  // ---------- runs ----------

  ghost predicate CalStepAt(xs: seq<Cal>, acts: seq<CalAct>, i: nat)
    requires |xs| == |acts| + 1 && i < |acts|
  {
    CalStep(xs[i], acts[i], xs[i + 1])
  }

  ghost predicate IsCalRun(xs: seq<Cal>, acts: seq<CalAct>) {
    && |xs| == |acts| + 1 && CalInv(xs[0])
    && forall i :: 0 <= i < |acts| ==> CalStepAt(xs, acts, i)
  }

  lemma StartCal()
    ensures CalInv(START_CAL)
  {
    StartInv();
  }
}
