/** CalendarScheduler as an object over a TaskManager object: add_rule, schedule_one, the two halves of
    run_due and the removals as they run when no other thread comes in between. Their interleavings are
    those of CalendarCore, whose sections the methods perform. */
module CalendarSchedulerClass {
  import opened TaskTypes
  import TaskOps
  import opened TaskInvariant
  import TaskProcess
  import TaskWorld
  import opened TaskLedger
  import TaskManagerClass
  import CalendarScan
  import opened CalendarPlans
  import opened CalendarCore

  /** The manager after the tasks of the rules in `order` have been cancelled one by one. */
  function CancelTasks(s: Sched, rules: map<CalId, RuleState>, order: seq<CalId>): Sched
    decreases |order|
  {
    if order == [] then s
    else CancelTasks(if order[0] in rules then TaskOps.Cancel(s, rules[order[0]].taskId).0 else s, rules, order[1..])
  }

  lemma {:induction false} StaysSettled(s: Sched, rules: map<CalId, RuleState>, order: seq<CalId>, owed: nat, t: TaskId)
    requires Inv(s, owed) && t in s.ctl && !Waits(s, t)
    ensures var u := CancelTasks(s, rules, order); Inv(u, owed) && t in u.ctl && !Waits(u, t)
    decreases |order|
  {
    if order == [] {
    } else {
      var next := if order[0] in rules then TaskOps.Cancel(s, rules[order[0]].taskId).0 else s;
      CancelKeeps(s, if order[0] in rules then rules[order[0]].taskId else 0, owed, t);
      StaysSettled(next, rules, order[1..], owed, t);
    }
  }

  lemma CancelKeeps(s: Sched, id: TaskId, owed: nat, t: TaskId)
    requires Inv(s, owed) && t in s.ctl
    ensures var u := TaskOps.Cancel(s, id).0; Inv(u, owed) && t in u.ctl && (Waits(u, t) ==> Waits(s, t) && t != id)
  {
    assert TaskOk(s, t);
    CancelEnds(s, id, t);
    if id in s.ctl {
      KeepsCancelCas(s, id, s.ctl[id].state, owed);
    }
  }

  lemma CancelEnds(s: Sched, id: TaskId, t: TaskId)
    requires TaskOk(s, t) && t in s.ctl
    ensures var u := TaskOps.Cancel(s, id).0; t in u.ctl && (Waits(u, t) ==> Waits(s, t) && t != id)
  {
  }

  /** When every rule has had its turn, none of their tasks waits, in whatever order they came. */
  lemma {:induction false} AllSettled(s: Sched, rules: map<CalId, RuleState>, order: seq<CalId>, owed: nat, id: CalId)
    requires Inv(s, owed) && id in order && id in rules && rules[id].taskId in s.ctl
    ensures !Waits(CancelTasks(s, rules, order), rules[id].taskId)
    decreases |order|
  {
    var t := rules[id].taskId;
    var next := if order[0] in rules then TaskOps.Cancel(s, rules[order[0]].taskId).0 else s;
    CancelKeeps(s, if order[0] in rules then rules[order[0]].taskId else 0, owed, t);
    if order[0] == id {
      StaysSettled(next, rules, order[1..], owed, t);
    } else {
      AllSettled(next, rules, order[1..], owed, id);
    }
  }

  class CalendarScheduler {
    const manager: TaskManagerClass.TaskManager
    var tasks: map<CalId, RuleState>
    var nextId: CalId
    var closed: bool

    ghost function CoreNow(): Core
      reads this
    {
      Core(tasks, nextId, closed)
    }

    ghost predicate Valid()
      reads this, manager
    {
      && manager.Valid() && 0 < nextId && (forall id :: id in tasks ==> 0 < id < nextId) && (closed ==> tasks == map[])
    }

    constructor (manager: TaskManagerClass.TaskManager)
      requires manager.Valid()
      ensures Valid() && this.manager == manager && CoreNow() == EMPTY_CORE
    {
      this.manager := manager;
      tasks, nextId, closed := map[], 1, false;
    }

    // ---------- planning ----------

    static method FirstPlannedDue(o: Options, observed: int) returns (d: Decision)
      ensures d == FirstPlan(o.search, o.lastDue, observed, o.missed)
    {
      if o.lastDue.Some? {
        var missed := CalendarScan.ScanLocalDays(o.search, o.lastDue.value);
        if missed.None? {
          return Decision(None, None);
        }
        if missed.value > observed {
          return Decision(Some(Plan(missed.value, false)), None);
        }
        if o.missed == RunOnceImmediately {
          return Decision(Some(Plan(missed.value, true)), missed);
        }
        var future := CalendarScan.ScanLocalDays(o.search, observed);
        return Decision(if future.None? then None else Some(Plan(future.value, future.value <= observed)), missed);
      }
      var planned := CalendarScan.ScanLocalDays(o.search, observed);
      return Decision(if planned.None? then None else Some(Plan(planned.value, planned.value <= observed)), None);
    }

    static method NextPlannedDue(o: Options, previous: int, observed: int) returns (d: Decision)
      ensures d == PlanAfterRun(o.search, previous, observed, o.overlap)
    {
      var next := CalendarScan.ScanLocalDays(o.search, previous);
      if next.None? {
        return Decision(None, None);
      }
      if next.value > observed {
        return Decision(Some(Plan(next.value, false)), None);
      }
      if o.overlap == QueueOneAfterCurrent {
        return Decision(Some(Plan(next.value, true)), next);
      }
      var future := CalendarScan.ScanLocalDays(o.search, observed);
      return Decision(if future.None? then None else Some(Plan(future.value, future.value <= observed)), next);
    }

    // ---------- adding and removing ----------

    method ScheduleOne(id: CalId, o: Options, plan: Plan, observed: int, steady: Time, locked: Time) returns (ok: bool)
      requires Valid()
      modifies this`tasks, manager
      ensures Valid()
      ensures var due := if plan.immediate || plan.planned <= observed then steady else steady + (plan.planned - observed);
        var (s, t) := TaskOps.PostAt(old(manager.model), true, due, o.priority, locked);
        if t == 0 then !ok && manager.model == s && tasks == old(tasks)
        else
          && (CoreNow(), ok) == RecordTask(old(CoreNow()), id, t, plan.planned)
          && manager.model == if ok then s else TaskOps.Cancel(s, t).0
    {
      var delay := if plan.immediate || plan.planned <= observed then 0 else plan.planned - observed;
      var taskId := manager.PostAt(true, steady + delay, o.priority, locked);
      if taskId == 0 {
        return false;
      }
      if id !in tasks || closed {
        var _ := manager.Cancel(taskId);
        return false;
      }
      tasks := tasks[id := tasks[id].(taskId := taskId, planned := plan.planned)];
      return true;
    }

    /** The rule goes, and its task with it. */
    method Cancel(id: CalId) returns (cancelled: bool)
      requires Valid()
      modifies this`tasks, manager
      ensures Valid() && CoreNow() == Erase(old(CoreNow()), id) && (cancelled <==> id in old(tasks))
      ensures manager.model ==
        if id in old(tasks) then TaskOps.Cancel(old(manager.model), old(tasks)[id].taskId).0 else old(manager.model)
    {
      if id == 0 || id !in tasks {
        return false;
      }
      var taskId := tasks[id].taskId;
      tasks := tasks - {id};
      if taskId != 0 {
        var _ := manager.Cancel(taskId);
      }
      return true;
    }

    /** The part of add_rule after the rule has been put into the map: it stays there with its task, or goes. */
    method ScheduleFirst(id: CalId, o: Options, observed: int, steady: Time, locked: Time) returns (ok: bool)
      requires Valid() && id in tasks && tasks[id].taskId == 0
      modifies this`tasks, manager
      ensures Valid()
      ensures var plan := FirstPlan(o.search, o.lastDue, observed, o.missed).plan;
        var (s, t) := if plan.None? then (old(manager.model), 0)
                      else TaskOps.PostAt(old(manager.model), true, Due(plan.value, observed, steady), o.priority, locked);
        && manager.model == s && ok == (t != 0)
        && tasks == if ok then old(tasks)[id := old(tasks)[id].(taskId := t, planned := plan.value.planned)] else old(tasks) - {id}
    {
      var first := FirstPlannedDue(o, observed);
      ok := false;
      if first.plan.Some? {
        ok := ScheduleOne(id, o, first.plan.value, observed, steady, locked);
      }
      if !ok {
        var _ := Cancel(id);
      }
    }

    /** Accepted exactly when both are open at the start, there is a time to plan for, and the manager
        takes the task: then the rule has a number, a queued task and the time it is planned for.
        Otherwise the map stays as it is and no task is left. `observer` is what the rule's observer does
        to the manager when it is told of the new rule. */
    method AddRule(o: Options, observer: TaskProcess.Callback, observed: int, steady: Time, locked: Time) returns (id: CalId)
      requires Valid()
      modifies this`tasks, this`nextId, manager
      ensures Valid()
      ensures old(closed) || old(manager.closed) ==> id == 0 && CoreNow() == old(CoreNow()) && manager.model == old(manager.model)
      ensures !old(closed) && !old(manager.closed) ==>
        var plan := FirstPlan(o.search, o.lastDue, observed, o.missed).plan;
        var u := TaskProcess.Run(old(manager.model), observer, []).s;
        var (s, t) := if plan.None? then (u, 0) else TaskOps.PostAt(u, true, Due(plan.value, observed, steady), o.priority, locked);
        && manager.model == s && nextId == old(nextId) + 1
        && if t == 0 then id == 0 && tasks == old(tasks)
           else id == old(nextId) && tasks == old(tasks)[id := RuleState(t, plan.value.planned, 0)]
    {
      if closed || manager.closed {
        return 0;
      }
      id := nextId;
      nextId := nextId + 1;
      tasks := tasks[id := RuleState(0, 0, 0)];
      var _, _ := manager.RunCallback(observer);
      var ok := ScheduleFirst(id, o, observed, steady, locked);
      if !ok {
        assert tasks == old(tasks);
        id := 0;
      }
    }

    /** `order` is the order in which the map is walked. */
    method CancelAll(close: bool, order: seq<CalId>) returns (count: nat)
      requires Valid()
      modifies this`tasks, this`closed, manager
      ensures Valid() && CoreNow() == EraseAll(old(CoreNow()), close) && count == |old(tasks)|
      ensures manager.model == CancelTasks(old(manager.model), old(tasks), order)
    {
      ghost var rules := tasks;
      var states := tasks;
      count := |tasks|;
      closed := closed || close;
      tasks := map[];
      var i := 0;
      while i < |order|
        invariant 0 <= i <= |order| && manager.Valid() && tasks == map[] && states == rules && nextId == old(nextId)
        invariant closed == (old(closed) || close)
        invariant CancelTasks(manager.model, rules, order[i..]) == CancelTasks(old(manager.model), rules, order)
      {
        if order[i] in states && states[order[i]].taskId != 0 {
          var _ := manager.Cancel(states[order[i]].taskId);
        }
        assert order[i..][1..] == order[i + 1..];
        i := i + 1;
      }
    }

    // ---------- running ----------

    /** run_due up to the callback: the plan of the rule, if it is still there. */
    method BeginRun(id: CalId) returns (planned: Option<int>)
      requires Valid()
      modifies this`tasks
      ensures Valid() && (CoreNow(), planned.Some?) == CalendarCore.BeginRun(old(CoreNow()), id)
      ensures planned.Some? ==> id in old(tasks) && planned.value == old(tasks)[id].planned
    {
      if id !in tasks || closed {
        return None;
      }
      planned := Some(tasks[id].planned);
      tasks := tasks[id := tasks[id].(taskId := 0)];
    }

    method MarkCompleted(id: CalId)
      requires Valid()
      modifies this`tasks
      ensures Valid() && CoreNow() == Erase(old(CoreNow()), id)
    {
      tasks := tasks - {id};
    }

    /** schedule_after_run: the rule gets its next task and time, or is completed. */
    method ScheduleAfterRun(id: CalId, o: Options, previous: int, observed: int, steady: Time, locked: Time)
      requires Valid() && id in tasks && !closed
      modifies this`tasks, manager
      ensures Valid()
      ensures var plan := PlanAfterRun(o.search, previous, observed, o.overlap).plan;
        var (s, t) := if plan.None? then (old(manager.model), 0)
                      else TaskOps.PostAt(old(manager.model), true, Due(plan.value, observed, steady), o.priority, locked);
        && manager.model == s
        && tasks == if t == 0 then old(tasks) - {id}
                    else old(tasks)[id := old(tasks)[id].(taskId := t, planned := plan.value.planned)]
    {
      var next := NextPlannedDue(o, previous, observed);
      if next.plan.None? {
        MarkCompleted(id);
        return;
      }
      var ok := ScheduleOne(id, o, next.plan.value, observed, steady, locked);
      if !ok {
        MarkCompleted(id);
      }
    }

    /** run_due after a callback that returned. The rule goes on, with one more run, a new task and a new
        time, exactly when it is still there, was not cancelled, has a next time and the manager takes the task. */
    method EndRun(id: CalId, o: Options, cancelled: bool, previous: int, observed: int, steady: Time, locked: Time)
      requires Valid()
      modifies this`tasks, manager
      ensures Valid()
      ensures var plan := PlanAfterRun(o.search, previous, observed, o.overlap).plan;
        var (s, t) := if id !in old(tasks) || cancelled || plan.None? then (old(manager.model), 0)
                      else TaskOps.PostAt(old(manager.model), true, Due(plan.value, observed, steady), o.priority, locked);
        && manager.model == s
        && tasks == if t == 0 then old(tasks) - {id}
                    else old(tasks)[id := RuleState(t, plan.value.planned, old(tasks)[id].runCount + 1)]
    {
      if id !in tasks || closed || cancelled {
        MarkCompleted(id);
        return;
      }
      tasks := tasks[id := tasks[id].(runCount := tasks[id].runCount + 1)];
      assert tasks - {id} == old(tasks) - {id};
      ScheduleAfterRun(id, o, previous, observed, steady, locked);
    }
  }

  // ---------- the methods as uninterrupted runs ----------

  lemma OpenSubmits(w: TaskWorld.World, due: Time, priority: int, locked: Time) returns (w': TaskWorld.World)
    requires !w.s.closed && w.mutex.Free? && w.now <= locked && 0 < w.s.nextId
    ensures Submits(w, w', due, priority, locked) && Accepted(w, w')
    ensures TaskOps.PostAt(w.s, true, due, priority, locked) == (w'.s, w.s.nextId)
  {
    var op := TaskOps.OpPostAt(true, due, priority, locked);
    w' := w.(s := TaskOps.Apply(w.s, op).0, now := TaskWorld.Clock(w.now, op));
  }

  lemma OpenPosts(x: Cal, id: CalId, plan: Plan, observed: int, steady: Time, locked: Time) returns (y: Cal)
    requires !x.w.s.closed && x.w.mutex.Free? && x.w.now <= locked && 0 < x.w.s.nextId
    requires id in x.adding && x.adding[id].Inserted? && id in x.options
    requires var o := x.options[id]; FirstPlan(o.search, o.lastDue, observed, o.missed).plan == Some(plan)
    ensures PostStep(x, id, observed, steady, locked, y) && y.core == x.core && y.removing == x.removing
    ensures y.adding == x.adding[id := Posted(x.w.s.nextId, plan.planned)]
    ensures TaskOps.PostAt(x.w.s, true, Due(plan, observed, steady), x.options[id].priority, locked) == (y.w.s, x.w.s.nextId)
  {
    var t := x.w.s.nextId;
    var w := OpenSubmits(x.w, Due(plan, observed, steady), x.options[id].priority, locked);
    y := x.(w := w, owner := x.owner[t := id], plans := x.plans[t := plan.planned], newest := x.newest[id := t],
            adding := x.adding[id := Posted(t, plan.planned)]);
  }

  /** What AddRule does is what the three steps of an addition do when nothing comes in between. */
  lemma AddInThreeSteps(x: Cal, o: Options, observed: int, steady: Time, locked: Time) returns (x1: Cal, x2: Cal, x3: Cal)
    requires CalendarScan.Sound(o.search) && !x.core.closed && !x.w.s.closed && x.w.mutex.Free? && x.w.now <= locked
    requires x.core.nextId !in x.adding && 0 < x.core.nextId && 0 < x.w.s.nextId
    requires FirstPlan(o.search, o.lastDue, observed, o.missed).plan.Some?
    ensures InsertStep(x, o, x1) && PostStep(x1, x.core.nextId, observed, steady, locked, x2) && RecordStep(x2, x.core.nextId, x3)
    ensures var plan := FirstPlan(o.search, o.lastDue, observed, o.missed).plan.value;
      var (s, t) := TaskOps.PostAt(x.w.s, true, Due(plan, observed, steady), o.priority, locked);
      && x3.w.s == s && x3.core.tasks == x.core.tasks[x.core.nextId := RuleState(t, plan.planned, 0)]
      && x3.adding == x.adding && x3.removing == x.removing
  {
    var id := x.core.nextId;
    var plan := FirstPlan(o.search, o.lastDue, observed, o.missed).plan.value;
    x1 := x.(core := InsertRule(x.core, false).0, options := x.options[id := o], adding := x.adding[id := Inserted]);
    x2 := OpenPosts(x1, id, plan, observed, steady, locked);
    x3 := x2.(core := RecordTask(x2.core, id, x.w.s.nextId, plan.planned).0, adding := x2.adding - {id});
    assert x3.adding == x.adding;
  }
}
