/** From planned times to running times: an observer writes down the readings of the two clocks with which
    each task of a rule was submitted, and in every run the task waits for the moment they give. */
module CalendarClocks {
  import opened TaskTypes
  import TaskOps
  import TaskInvariant
  import TaskLive
  import opened TaskWorld
  import TaskTiming
  import opened TaskDeadlines
  import CalendarPlans
  import opened CalendarCore
  import CalendarRuns
  import CalendarSteps

  // ---------- the observer ----------

  /** What the calendar's clock and the steady clock showed when a task was planned and submitted. */
  datatype Reading = Reading(utc: int, steady: Time)

  /** The readings of each task, and what the calendar's clock showed after the last callback. */
  datatype Readings = Readings(of: map<TaskId, Reading>, last: int)

  function Noted(x: Cal, act: CalAct, y: Cal, r: Readings): Readings {
    match act
    case Post(_, observed, steady, _) => NewTask(x, y, r, Reading(observed, steady))
    case Replan(steady, _) => NewTask(x, y, r, Reading(r.last, steady))
    case After(observed) => r.(last := observed)
    case _ => r
  }

  function NewTask(x: Cal, y: Cal, r: Readings, reading: Reading): Readings {
    if Accepted(x.w, y.w) then r.(of := r.of[x.w.s.nextId := reading]) else r
  }

  /** The moment of the steady clock at which a task planned for `planned` should run: as much after the
      steady reading as the planned time is after the calendar's reading, and at once if it is overdue. */
  function RunTime(planned: int, r: Reading): Time {
    if planned <= r.utc then r.steady else r.steady + (planned - r.utc)
  }

  // ---------- the invariant ----------

  ghost predicate TaskClocked(x: Cal, r: Readings, h: Watch, t: TaskId) {
    t in x.owner ==> t in x.plans && t in r.of && t in h.asked && h.asked[t] == RunTime(x.plans[t], r.of[t])
  }

  /** A task on its way into run_due has waited for its moment. */
  ghost predicate StartClocked(x: Cal, r: Readings) {
    x.run.Starting? && x.w.s.running != [] ==>
      var t := Front(x.w.s);
      t in x.plans && t in r.of && RunTime(x.plans[t], r.of[t]) <= x.w.now
  }

  ghost predicate ClockedBy(x: Cal, r: Readings, h: Watch) {
    Kept(x.w, h) && (forall t :: TaskClocked(x, r, h, t)) && StartClocked(x, r) && (x.run.Planning? ==> x.run.observed == r.last)
  }

  ghost predicate Clocked(x: Cal, r: Readings) {
    exists h :: ClockedBy(x, r, h)
  }

  // ---------- steps of the manager ----------

  /** What was asked for a one-shot task stays, unless it asks for another time itself. */
  lemma AskedStays(w: World, a: Action, h: Watch, t: TaskId)
    requires t in w.s.ctl && t in h.asked && w.s.nextId !in w.s.ctl
    requires a.Finish? && w.s.running != [] && w.s.running[0].id == t ==> t !in h.wanted && !w.s.running[0].periodic
    ensures t in Watching(w, a, h).asked && Watching(w, a, h).asked[t] == h.asked[t]
  {
  }

  lemma OwnFinish(x: Cal, h: Watch, t: TaskId)
    requires WorldInv(x.w) && Kept(x.w, h) && TaskFits(x, t) && t in x.owner && x.w.s.running != [] && Front(x.w.s) == t
    requires HasState(x.w.s, t, Executing)
    ensures t !in h.wanted && !x.w.s.running[0].periodic
  {
    assert RequestKept(x.w, h, t);
    assert TaskInvariant.EntryOk(x.w.s.running[0], x.w.s.ctl, x.w.s.nextSeq, Executing);
  }

  /** The same, for a task of the scheduler. */
  lemma OwnAsked(x: Cal, a: Action, y: Cal, h: Watch, t: TaskId)
    requires CalInv(x) && Kept(x.w, h) && Step(x.w, a, y.w) && t in x.owner && t in h.asked
    ensures t in Watching(x.w, a, h).asked && Watching(x.w, a, h).asked[t] == h.asked[t]
  {
    assert TaskFits(x, t) && TaskInvariant.TaskOk(x.w.s, x.w.s.nextId);
    if a.Finish? && Front(x.w.s) == t {
      if HasState(x.w.s, t, Executing) {
        OwnFinish(x, h, t);
        AskedStays(x.w, a, h, t);
      }
    } else {
      AskedStays(x.w, a, h, t);
    }
  }

  lemma TimeGoesOn(w: World, a: Action, w': World)
    requires Step(w, a, w')
    ensures w.now <= w'.now
  {
  }

  /** A step that leaves rules and tasks as they are. */
  lemma MovedClocked(x: Cal, a: Action, y: Cal, r: Readings, h: Watch)
    requires CalInv(x) && ClockedBy(x, r, h) && Step(x.w, a, y.w)
    requires y.owner == x.owner && y.plans == x.plans
    ensures Kept(y.w, Watching(x.w, a, h)) && forall t :: TaskClocked(y, r, Watching(x.w, a, h), t)
  {
    StepKept(x.w, a, y.w, h);
    forall t: TaskId
      ensures TaskClocked(y, r, Watching(x.w, a, h), t)
    {
      assert TaskClocked(x, r, h, t);
      if t in x.owner {
        OwnAsked(x, a, y, h, t);
      }
    }
  }

  lemma PlainClocked(x: Cal, a: Action, y: Cal, r: Readings, h: Watch)
    requires CalInv(x) && ClockedBy(x, r, h) && PlainStep(x, a, y)
    ensures ClockedBy(y, r, Watching(x.w, a, h))
  {
    MovedClocked(x, a, y, r, h);
    CalendarSteps.PlainRun(x, a, y);
    TimeGoesOn(x.w, a, y.w);
  }

  /** The task that the consumer starts was due. */
  lemma StartOwnClocked(x: Cal, y: Cal, r: Readings, h: Watch)
    requires CalInv(x) && ClockedBy(x, r, h) && StartStep(x, y)
    ensures ClockedBy(y, r, Watching(x.w, Cas, h))
  {
    MovedClocked(x, Cas, y, r, h);
    var e := x.w.s.batch[0];
    assert e in x.w.s.batch && TaskTiming.Held(x.w.s, e) && EntryKept(x.w, h, e) && TaskClocked(x, r, h, e.id);
  }

  lemma LeaveClocked(x: Cal, act: CalAct, y: Cal, r: Readings, h: Watch)
    requires CalInv(x) && ClockedBy(x, r, h) && CalStep(x, act, y) && (act.Return? || act.Escape?)
    ensures Clocked(y, r)
  {
    var a := if act.Return? then Finish(act.now, act.locked) else Throw;
    MovedClocked(x, a, y, r, h);
    assert ClockedBy(y, r, Watching(x.w, a, h));
  }

  // ---------- submissions ----------

  /** A plan goes to the manager with the moment at which its task should run. */
  lemma DueIsRunTime(plan: CalendarPlans.Plan, observed: int, steady: Time)
    requires plan.immediate ==> plan.planned <= observed
    ensures Due(plan, observed, steady) == RunTime(plan.planned, Reading(observed, steady))
  {
  }

  /** Task `t` is new: it was planned for `planned` with reading `reading`. */
  lemma SubmittedClocked(x: Cal, y: Cal, r: Readings, h: Watch, due: Time, priority: int, locked: Time, planned: int, reading: Reading)
    requires CalInv(x) && ClockedBy(x, r, h) && Submits(x.w, y.w, due, priority, locked) && Accepted(x.w, y.w)
    requires due == RunTime(planned, reading)
    requires y.owner.Keys == x.owner.Keys + {x.w.s.nextId} && y.plans == x.plans[x.w.s.nextId := planned]
    requires y.run.Starting? ==> x.run.Starting?
    requires y.run.Planning? ==> y.run == x.run
    ensures Clocked(y, NewTask(x, y, r, reading))
  {
    var a := Request(TaskOps.OpPostAt(true, due, priority, locked));
    var (g, r') := (Watching(x.w, a, h), NewTask(x, y, r, reading));
    StepKept(x.w, a, y.w, h);
    CalendarSteps.SubmitOutcome(x.w, y.w, due, priority, locked);
    TimeGoesOn(x.w, a, y.w);
    forall t: TaskId
      ensures TaskClocked(y, r', g, t)
    {
      assert TaskClocked(x, r, h, t) && TaskFits(x, t);
    }
    assert ClockedBy(y, r', g);
  }

  /** The manager is closed and takes nothing. */
  lemma RefusedClocked(x: Cal, y: Cal, r: Readings, h: Watch, due: Time, priority: int, locked: Time)
    requires CalInv(x) && ClockedBy(x, r, h) && Submits(x.w, y.w, due, priority, locked) && !Accepted(x.w, y.w)
    requires y.owner == x.owner && y.plans == x.plans && (y.run.Starting? ==> x.run.Starting?) && (y.run.Planning? ==> y.run == x.run)
    ensures Clocked(y, r)
  {
    var a := Request(TaskOps.OpPostAt(true, due, priority, locked));
    MovedClocked(x, a, y, r, h);
    CalendarSteps.SubmitOutcome(x.w, y.w, due, priority, locked);
    TimeGoesOn(x.w, a, y.w);
    assert ClockedBy(y, r, Watching(x.w, a, h));
  }

  /** Either way, where the due time is the moment that plan and readings give. */
  lemma SubmitClocked(x: Cal, y: Cal, r: Readings, h: Watch, plan: CalendarPlans.Plan, o: Options, locked: Time, reading: Reading)
    requires CalInv(x) && ClockedBy(x, r, h) && Submits(x.w, y.w, Due(plan, reading.utc, reading.steady), o.priority, locked)
    requires plan.immediate ==> plan.planned <= reading.utc
    requires (y.run.Starting? ==> x.run.Starting?) && (y.run.Planning? ==> y.run == x.run)
    requires Accepted(x.w, y.w) ==> y.owner.Keys == x.owner.Keys + {x.w.s.nextId} && y.plans == x.plans[x.w.s.nextId := plan.planned]
    requires !Accepted(x.w, y.w) ==> y.owner == x.owner && y.plans == x.plans
    ensures Clocked(y, NewTask(x, y, r, reading))
  {
    var due := Due(plan, reading.utc, reading.steady);
    DueIsRunTime(plan, reading.utc, reading.steady);
    if Accepted(x.w, y.w) {
      SubmittedClocked(x, y, r, h, due, o.priority, locked, plan.planned, reading);
    } else {
      RefusedClocked(x, y, r, h, due, o.priority, locked);
    }
  }

  lemma PostClocked(x: Cal, id: CalId, observed: int, steady: Time, locked: Time, y: Cal, r: Readings, h: Watch)
    requires CalInv(x) && ClockedBy(x, r, h) && PostStep(x, id, observed, steady, locked, y)
    ensures Clocked(y, NewTask(x, y, r, Reading(observed, steady)))
  {
    var o := x.options[id];
    var plan := CalendarPlans.FirstPlan(o.search, o.lastDue, observed, o.missed).plan;
    if plan.None? {
      SameClocked(x, y, r, h);
    } else {
      CalendarPlans.FirstSound(o.search, o.lastDue, observed, o.missed);
      SubmitClocked(x, y, r, h, plan.value, o, locked, Reading(observed, steady));
    }
  }

  lemma ReplanClocked(x: Cal, steady: Time, locked: Time, y: Cal, r: Readings, h: Watch)
    requires CalInv(x) && ClockedBy(x, r, h) && ReplanStep(x, steady, locked, y)
    ensures Clocked(y, NewTask(x, y, r, Reading(r.last, steady)))
  {
    var o := x.options[x.run.id];
    var plan := CalendarPlans.PlanAfterRun(o.search, x.run.previous, x.run.observed, o.overlap).plan;
    if plan.None? {
      SameClocked(x, y, r, h);
    } else {
      CalendarPlans.AfterRunSound(o.search, x.run.previous, x.run.observed, o.overlap);
      SubmitClocked(x, y, r, h, plan.value, o, locked, Reading(x.run.observed, steady));
    }
  }

  /** A section under the scheduler's mutex. */
  lemma SameClocked(x: Cal, y: Cal, r: Readings, h: Watch)
    requires ClockedBy(x, r, h) && y.w == x.w && y.owner == x.owner && y.plans == x.plans
    requires (y.run.Starting? ==> x.run.Starting?) && (y.run.Planning? ==> y.run == x.run)
    ensures Clocked(y, r)
  {
    forall t: TaskId
      ensures TaskClocked(y, r, h, t)
    {
      assert TaskClocked(x, r, h, t);
    }
    assert ClockedBy(y, r, h);
  }

  // ---------- every step ----------

  /** The clock is read when the callback has returned. */
  lemma AfterClocked(x: Cal, observed: int, y: Cal, r: Readings, h: Watch)
    requires ClockedBy(x, r, h) && AfterStep(x, observed, y)
    ensures Clocked(y, r.(last := observed))
  {
    forall t: TaskId
      ensures TaskClocked(y, r.(last := observed), h, t)
    {
      assert TaskClocked(x, r, h, t);
    }
    assert ClockedBy(y, r.(last := observed), h);
  }

  lemma SectionClocked(x: Cal, act: CalAct, y: Cal, r: Readings, h: Watch)
    requires ClockedBy(x, r, h) && CalStep(x, act, y)
    requires !act.Plain? && !act.StartOwn? && !act.Return? && !act.Escape? && !act.Post? && !act.Replan?
    ensures Clocked(y, Noted(x, act, y, r))
  {
    if act.After? {
      AfterClocked(x, act.observed, y, r, h);
    } else {
      SameClocked(x, y, r, h);
    }
  }

  lemma ManagerClocked(x: Cal, act: CalAct, y: Cal, r: Readings, h: Watch)
    requires CalInv(x) && ClockedBy(x, r, h) && CalStep(x, act, y) && (act.Plain? || act.StartOwn? || act.Return? || act.Escape?)
    ensures Clocked(y, r)
  {
    if act.Plain? {
      PlainClocked(x, act.a, y, r, h);
      assert ClockedBy(y, r, Watching(x.w, act.a, h));
    } else if act.StartOwn? {
      StartOwnClocked(x, y, r, h);
      assert ClockedBy(y, r, Watching(x.w, Cas, h));
    } else {
      LeaveClocked(x, act, y, r, h);
    }
  }

  /** Every step of every thread keeps each task of a rule to the moment its readings give. */
  lemma StepClocked(x: Cal, act: CalAct, y: Cal, r: Readings)
    requires CalInv(x) && Clocked(x, r) && CalStep(x, act, y)
    ensures Clocked(y, Noted(x, act, y, r))
  {
    var h :| ClockedBy(x, r, h);
    if act.Plain? || act.StartOwn? || act.Return? || act.Escape? {
      ManagerClocked(x, act, y, r, h);
    } else if act.Post? {
      PostClocked(x, act.id, act.observed, act.steady, act.locked, y, r, h);
    } else if act.Replan? {
      ReplanClocked(x, act.steady, act.locked, y, r, h);
    } else {
      SectionClocked(x, act, y, r, h);
    }
  }

  // ---------- runs ----------

  /** A run with its observer. */
  ghost predicate IsClocked(xs: seq<Cal>, acts: seq<CalAct>, rs: seq<Readings>) {
    && IsCalRun(xs, acts) && |rs| == |xs| && Clocked(xs[0], rs[0])
    && forall i :: 0 <= i < |acts| ==> rs[i + 1] == Noted(xs[i], acts[i], xs[i + 1], rs[i])
  }

  lemma StartIsClocked()
    ensures Clocked(START_CAL, Readings(map[], 0))
  {
    StartKept();
    assert ClockedBy(START_CAL, Readings(map[], 0), Watch(map[], map[]));
  }

  lemma NextClocked(xs: seq<Cal>, acts: seq<CalAct>, rs: seq<Readings>, i: nat)
    requires IsClocked(xs, acts, rs) && i < |acts| && CalInv(xs[i]) && Clocked(xs[i], rs[i])
    ensures Clocked(xs[i + 1], rs[i + 1])
  {
    assert CalStepAt(xs, acts, i);
    StepClocked(xs[i], acts[i], xs[i + 1], rs[i]);
  }

  lemma {:induction false} RunClocked(xs: seq<Cal>, acts: seq<CalAct>, rs: seq<Readings>, i: nat)
    requires IsClocked(xs, acts, rs) && i < |xs|
    ensures CalInv(xs[i]) && Clocked(xs[i], rs[i])
  {
    CalendarRuns.CalRunInv(xs, acts, i);
    if i == 0 {
    } else {
      RunClocked(xs, acts, rs, i - 1);
      NextClocked(xs, acts, rs, i - 1);
    }
  }

  /** In every run, run_due begins for a task only when the steady clock has come as far past the reading
      with which the task was submitted as the time it is planned for was past the calendar's reading. */
  lemma BeginsOnTime(xs: seq<Cal>, acts: seq<CalAct>, rs: seq<Readings>, i: nat)
    requires IsClocked(xs, acts, rs) && i < |acts| && acts[i] == Begin
    ensures xs[i].w.s.running != []
    ensures var (x, t) := (xs[i], Front(xs[i].w.s));
      t in x.plans && t in rs[i].of && rs[i].of[t].steady + (x.plans[t] - rs[i].of[t].utc) <= x.w.now && rs[i].of[t].steady <= x.w.now
  {
    RunClocked(xs, acts, rs, i);
    assert CalStepAt(xs, acts, i);
    var h :| ClockedBy(xs[i], rs[i], h);
    assert TaskClocked(xs[i], rs[i], h, Front(xs[i].w.s));
  }

  /** A task of a rule that waits in the manager's heap is there under that very moment, so it becomes ready
      with the first call of process() from then on, and not before. */
  lemma WaitsForItsMoment(xs: seq<Cal>, acts: seq<CalAct>, rs: seq<Readings>, i: nat, t: TaskId)
    requires IsClocked(xs, acts, rs) && i < |xs| && t in xs[i].owner
    ensures t in xs[i].plans && t in rs[i].of
    ensures HasState(xs[i].w.s, t, QueuedDelayed) ==> exists e :: e in TaskLive.LiveDelayed(xs[i].w.s) && IsDueAt(e, t, xs[i].plans[t], rs[i].of[t])
  {
    RunClocked(xs, acts, rs, i);
    var h :| ClockedBy(xs[i], rs[i], h);
    assert TaskClocked(xs[i], rs[i], h, t);
    if HasState(xs[i].w.s, t, QueuedDelayed) {
      var e := DelayedEntry(xs[i].w, h, t);
      assert IsDueAt(e, t, xs[i].plans[t], rs[i].of[t]);
    }
  }

  predicate IsDueAt(e: Entry, t: TaskId, planned: int, r: Reading) {
    e.id == t && e.due == r.steady + if planned <= r.utc then 0 else planned - r.utc
  }

  /** A task is submitted ready exactly if its moment has come, so one whose time is not after the
      calendar's reading never waits in the heap. */
  lemma ReadyIfOverdue(x: Cal, id: CalId, observed: int, steady: Time, locked: Time, y: Cal)
    requires CalInv(x) && PostStep(x, id, observed, steady, locked, y) && Accepted(x.w, y.w)
    ensures var t := x.w.s.nextId;
      && t in y.plans && t in y.w.s.ctl
      && y.w.s.ctl[t].state == (if RunTime(y.plans[t], Reading(observed, steady)) <= locked then QueuedReady else QueuedDelayed)
  {
    var o := x.options[id];
    CalendarPlans.FirstSound(o.search, o.lastDue, observed, o.missed);
    CalendarSteps.SubmitOutcome(x.w, y.w,
      Due(CalendarPlans.FirstPlan(o.search, o.lastDue, observed, o.missed).plan.value, observed, steady), o.priority, locked);
  }
}
