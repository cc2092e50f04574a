/** Planned times over whole runs of a CalendarScheduler: what each run plans its rule from, when the
    next time is the right one, and that rules live on. */
module CalendarTimes {
  import opened TaskTypes
  import TaskOps
  import opened TaskWorld
  import TaskLedger
  import opened CalendarScan
  import opened CalendarPlans
  import opened CalendarCore
  import opened CalendarSteps

  // ---------- the right next time ----------

  /** What a rule plans from after planned time `p`, at clock reading `now`. */
  function Base(o: Options, p: int, now: int): int {
    if o.overlap == QueueOneAfterCurrent then p else Max(p, now)
  }

  /** A right successor of planned time `p`: the least occurrence after `p`, or after the later of `p`
      and the present if the rule skips overdue times. */
  ghost predicate FollowsAt(o: Options, p: int, now: int, p': int) {
    IsLeastAfter(o.search, Base(o, p, now), p')
  }

  ghost predicate Follows(o: Options, p: int, p': int) {
    exists now :: FollowsAt(o, p, now, p')
  }

  ghost predicate NoneBetween(q: Search, a: int, b: int) {
    forall v :: Occurs(q, v) ==> !(a < v <= b)
  }

  /** A task was planned for `p`, its run plans from `r`, and the next task is planned for `p'`. That is
      later than `p` exactly if `p` is not after the base of `r`, and the right time exactly if nothing
      lies between the two bases either. Where `r` is an occurrence, or not after `p`, that is to say: if
      `r` is `p`, or the rule skips overdue times and the present has come to both. */
  ghost predicate ExactNext(o: Options, p: int, r: int, now: int, p': int) {
    && (p < p' <==> p <= Base(o, r, now))
    && (FollowsAt(o, p, now, p') <==> p <= Base(o, r, now) && NoneBetween(o.search, Base(o, p, now), Base(o, r, now)))
    && (r <= p || Occurs(o.search, r) ==>
          (FollowsAt(o, p, now, p') <==> r == p || (o.overlap == SkipOverdue && p <= now && r <= now)))
  }

  lemma PlanFrom(o: Options, p: int, r: int, now: int)
    requires Sound(o.search) && Occurs(o.search, p) && PlanAfterRun(o.search, r, now, o.overlap).plan.Some?
    ensures ExactNext(o, p, r, now, PlanAfterRun(o.search, r, now, o.overlap).plan.value.planned)
  {
    AfterRunSound(o.search, r, now, o.overlap);
    assert FollowsAt(o, r, now, PlanAfterRun(o.search, r, now, o.overlap).plan.value.planned);
  }

  // ---------- what is known of planned times ----------

  ghost predicate PlansFit(x: Cal) {
    (forall id :: RulePlanFits(x, id)) && (forall t :: TaskPlanFits(x, t)) && RunPlanFits(x)
  }

  /** Every task was submitted for an occurrence of its rule. */
  ghost predicate TaskPlanFits(x: Cal, t: TaskId) {
    && (t in x.plans <==> t in x.owner)
    && (t in x.owner && x.owner[t] in x.options ==> Occurs(x.options[x.owner[t]].search, x.plans[t]))
  }

  ghost predicate AddingPlanFits(x: Cal, id: CalId) {
    id in x.adding && id in x.options ==>
      && (x.adding[id].Posted? ==> x.adding[id].t in x.plans && x.plans[x.adding[id].t] == x.adding[id].planned)
      && (x.adding[id].Doomed? && AlwaysFinds(x.options[id].search) ==> x.w.s.closed)
  }

  /** A rule keeps the planned time of the task whose id it keeps. One that is not running and keeps no
      id has not been recorded yet, and its planned time is still zero; while it is being added it
      keeps its newest task or none. */
  ghost predicate RulePlanFits(x: Cal, id: CalId) {
    && AddingPlanFits(x, id)
    && (id in x.core.tasks ==>
          var s := x.core.tasks[id];
          && (s.taskId != 0 ==> s.taskId in x.plans && s.planned == x.plans[s.taskId])
          && (!RunsRule(x, id) && s.taskId == 0 ==> s.planned == 0 && id in x.adding && (id in x.newest ==> InFlight(x, id, x.newest[id])))
          && (!RunsRule(x, id) && s.taskId != 0 && id in x.adding ==> id in x.newest && s.taskId == x.newest[id])
          && (id !in x.adding && id in x.options ==> Occurs(x.options[id].search, s.planned)))
  }

  /** What run_due took for the planned time of its task. */
  ghost predicate RunPlanFits(x: Cal) {
    && (x.run.Running? || x.run.Planning? ==>
          if x.run.known == 0 then x.run.previous == 0
          else
            && x.run.known in x.plans && x.run.previous == x.plans[x.run.known]
            && x.run.known in x.owner && x.owner[x.run.known] == x.run.id)
    && (x.run.Ending? ==> x.run.t in x.plans && x.plans[x.run.t] == x.run.planned)
  }

  // ---------- steps of the manager ----------

  lemma ClosedStays(x: Cal, act: CalAct, y: Cal)
    requires CalInv(x) && CalStep(x, act, y) && x.w.s.closed
    ensures y.w.s.closed
  {
    if y.w != x.w {
      var a := ManagerStep(x, act, y);
      TaskLedger.ClosedStep(x.w, a, y.w);
    }
  }

  /** A step changes the manager by one of the manager's own steps, if at all. */
  lemma ManagerStep(x: Cal, act: CalAct, y: Cal) returns (a: Action)
    requires CalStep(x, act, y) && y.w != x.w
    ensures Step(x.w, a, y.w)
  {
    match act
    case Plain(b) => a := b;
    case StartOwn => a := Cas;
    case Post(id, observed, steady, locked) =>
      var o := x.options[id];
      var plan := FirstPlan(o.search, o.lastDue, observed, o.missed).plan;
      a := Request(TaskOps.OpPostAt(true, Due(plan.value, observed, steady), o.priority, locked));
    case Replan(steady, locked) =>
      var o := x.options[x.run.id];
      var plan := PlanAfterRun(o.search, x.run.previous, x.run.observed, o.overlap).plan;
      a := Request(TaskOps.OpPostAt(true, Due(plan.value, x.run.observed, steady), o.priority, locked));
    case Return(now, locked) => a := Finish(now, locked);
    case Escape => a := Throw;
  }

  predicate ByManager(act: CalAct) {
    act.Plain? || act.StartOwn? || act.Return? || act.Escape? || act.GiveUp?
  }

  /** The manager's own steps leave all that the scheduler knows, and what runs of its rules. */
  ghost predicate SameRules(x: Cal, y: Cal) {
    && y == x.(w := y.w, removing := y.removing, run := y.run)
    && (y.run == x.run || !((x.run.Running? || x.run.Planning? || x.run.Ending?) || (y.run.Running? || y.run.Planning? || y.run.Ending?)))
  }

  lemma ManagerActs(x: Cal, act: CalAct, y: Cal)
    requires CalStep(x, act, y) && ByManager(act)
    ensures SameRules(x, y)
  {
  }

  lemma ManagerPlans(x: Cal, act: CalAct, y: Cal)
    requires CalInv(x) && PlansFit(x) && CalStep(x, act, y) && ByManager(act)
    ensures PlansFit(y)
  {
    ManagerActs(x, act, y);
    if x.w.s.closed {
      ClosedStays(x, act, y);
    }
    SameRulesPlans(x, y);
  }

  lemma SameRulesPlans(x: Cal, y: Cal)
    requires PlansFit(x) && SameRules(x, y) && (x.w.s.closed ==> y.w.s.closed)
    ensures PlansFit(y)
  {
    forall id: CalId
      ensures RulePlanFits(y, id)
    {
      assert RulePlanFits(x, id) && AddingPlanFits(x, id);
    }
    forall t: TaskId
      ensures TaskPlanFits(y, t)
    {
      assert TaskPlanFits(x, t);
    }
  }

  // ---------- submissions ----------

  ghost predicate NothingNew(x: Cal, y: Cal) {
    && y.options == x.options && y.raced == x.raced && y.core.nextId == x.core.nextId
    && (forall id :: id in y.core.tasks ==> id in x.core.tasks && y.core.tasks[id] == x.core.tasks[id])
  }

  lemma PostActs(x: Cal, id: CalId, observed: int, steady: Time, locked: Time, y: Cal)
    requires PostStep(x, id, observed, steady, locked, y)
    ensures NothingNew(x, y) && id in x.adding && id in y.adding && y.adding == x.adding[id := y.adding[id]]
  {
  }

  lemma ReplanActs(x: Cal, steady: Time, locked: Time, y: Cal)
    requires ReplanStep(x, steady, locked, y)
    ensures NothingNew(x, y) && y.adding == x.adding
  {
  }

  lemma SubmitActs(x: Cal, act: CalAct, y: Cal)
    requires CalStep(x, act, y) && (act.Post? || act.Replan?)
    ensures NothingNew(x, y)
    ensures if act.Post? then act.id in x.adding && act.id in y.adding && y.adding == x.adding[act.id := y.adding[act.id]]
            else y.adding == x.adding
  {
    match act
    case Post(id, observed, steady, locked) => PostActs(x, id, observed, steady, locked, y);
    case Replan(steady, locked) => ReplanActs(x, steady, locked, y);
  }

  lemma NewPlan(x: Cal, y: Cal, id: CalId, t: TaskId, planned: int, k: TaskId)
    requires Fits(x) && TaskPlanFits(x, k) && t !in x.owner && id in x.options && Occurs(x.options[id].search, planned)
    requires y.owner == x.owner[t := id] && y.plans == x.plans[t := planned] && y.options == x.options
    ensures TaskPlanFits(y, k)
  {
  }

  lemma PostedPlans(x: Cal, id: CalId, t: TaskId, planned: int, y: Cal)
    requires Fits(x) && PlansFit(x) && id in x.adding && x.adding[id].Inserted? && id in x.options && t !in x.owner && t != 0
    requires PostedTask(x, id, t, planned, y) && Occurs(x.options[id].search, planned) && (x.w.s.closed ==> y.w.s.closed)
    ensures PlansFit(y)
  {
    assert TaskPlanFits(x, t);
    forall k: CalId
      ensures RulePlanFits(y, k)
    {
      assert RulePlanFits(x, k) && AddingPlanFits(x, k) && RuleFits(x, k) && AddingFits(x, k) && NewestFits(x, k);
    }
    forall k: TaskId
      ensures TaskPlanFits(y, k)
    {
      assert TaskPlanFits(x, k);
      NewPlan(x, y, id, t, planned, k);
    }
  }

  lemma DoomedPlans(x: Cal, id: CalId, y: Cal)
    requires PlansFit(x) && id in x.adding && x.adding[id].Inserted? && id in x.options && AddingFits(x, id)
    requires y == x.(w := y.w, adding := x.adding[id := Doomed])
    requires (x.w.s.closed ==> y.w.s.closed) && (AlwaysFinds(x.options[id].search) ==> y.w.s.closed)
    ensures PlansFit(y)
  {
    forall k: CalId
      ensures RulePlanFits(y, k)
    {
      assert RulePlanFits(x, k) && AddingPlanFits(x, k);
    }
    forall t: TaskId
      ensures TaskPlanFits(y, t)
    {
      assert TaskPlanFits(x, t);
    }
  }

  lemma PostPlans(x: Cal, id: CalId, observed: int, steady: Time, locked: Time, y: Cal)
    requires CalInv(x) && PlansFit(x) && PostStep(x, id, observed, steady, locked, y)
    ensures PlansFit(y)
  {
    var o := x.options[id];
    var d := FirstPlan(o.search, o.lastDue, observed, o.missed);
    FirstSound(o.search, o.lastDue, observed, o.missed);
    assert AddingFits(x, id);
    if x.w.s.closed {
      ClosedStays(x, Post(id, observed, steady, locked), y);
    }
    if AlwaysFinds(o.search) {
      AlwaysPlans(o.search, o.lastDue, 0, observed, o.overlap, o.missed);
    }
    if d.plan.Some? {
      SubmitOutcome(x.w, y.w, Due(d.plan.value, observed, steady), o.priority, locked);
      assert Occurs(o.search, d.plan.value.planned);
    }
    if d.plan.Some? && Accepted(x.w, y.w) {
      assert TaskFits(x, x.w.s.nextId);
      PostedPlans(x, id, x.w.s.nextId, d.plan.value.planned, y);
    } else {
      DoomedPlans(x, id, y);
    }
  }

  lemma ReplannedPlans(x: Cal, t: TaskId, planned: int, y: Cal)
    requires Fits(x) && PlansFit(x) && x.run.Planning? && x.run.id in x.options && t !in x.owner
    requires ReplannedTask(x, t, planned, y) && Occurs(x.options[x.run.id].search, planned) && (x.w.s.closed ==> y.w.s.closed)
    ensures PlansFit(y)
  {
    assert TaskPlanFits(x, t);
    forall k: CalId
      ensures RulePlanFits(y, k)
    {
      assert RulePlanFits(x, k) && AddingPlanFits(x, k) && RuleFits(x, k);
    }
    forall k: TaskId
      ensures TaskPlanFits(y, k)
    {
      assert TaskPlanFits(x, k);
      NewPlan(x, y, x.run.id, t, planned, k);
    }
  }

  lemma ReplanPlans(x: Cal, steady: Time, locked: Time, y: Cal)
    requires CalInv(x) && PlansFit(x) && ReplanStep(x, steady, locked, y)
    ensures PlansFit(y)
  {
    var o := x.options[x.run.id];
    var d := PlanAfterRun(o.search, x.run.previous, x.run.observed, o.overlap);
    AfterRunSound(o.search, x.run.previous, x.run.observed, o.overlap);
    if x.w.s.closed {
      ClosedStays(x, Replan(steady, locked), y);
    }
    if d.plan.Some? {
      SubmitOutcome(x.w, y.w, Due(d.plan.value, x.run.observed, steady), o.priority, locked);
      assert Occurs(o.search, d.plan.value.planned);
    }
    if d.plan.Some? && Accepted(x.w, y.w) {
      assert TaskFits(x, x.w.s.nextId);
      ReplannedPlans(x, x.w.s.nextId, d.plan.value.planned, y);
    } else {
      RunErases(x, y);
      ErasePlans(x, y);
    }
  }

  // ---------- sections under the scheduler's mutex ----------

  lemma ErasePlans(x: Cal, y: Cal)
    requires PlansFit(x) && Erases(x, y)
    ensures PlansFit(y)
  {
    forall id: CalId
      ensures RulePlanFits(y, id)
    {
      assert RulePlanFits(x, id) && AddingPlanFits(x, id) && ErasesRule(x, y, id);
    }
    forall t: TaskId
      ensures TaskPlanFits(y, t)
    {
      assert TaskPlanFits(x, t);
    }
  }

  /** The steps that take rules out of the map. */
  predicate Erasing(act: CalAct) {
    act.Drop? || act.Remove? || act.RemoveAll? || act.Gone? || act.Throws?
  }

  lemma ErasingErases(x: Cal, act: CalAct, y: Cal)
    requires Fits(x) && CalStep(x, act, y) && Erasing(act)
    ensures Erases(x, y)
  {
    match act
    case Drop(id) => DropErases(x, id, y);
    case Remove(id) => RemoveErases(x, id, y);
    case RemoveAll(close) => RemoveAllErases(x, close, y);
    case Gone =>
      assert Erase(x.core, x.run.id).tasks == x.core.tasks;
      RunErases(x, y);
    case Throws => RunErases(x, y);
  }

  lemma InsertPlans(x: Cal, o: Options, y: Cal)
    requires Fits(x) && PlansFit(x) && InsertStep(x, o, y)
    ensures PlansFit(y)
  {
    assert NewestFits(x, x.core.nextId);
    forall id: CalId
      ensures RulePlanFits(y, id)
    {
      assert RulePlanFits(x, id) && AddingPlanFits(x, id) && AddingFits(x, id) && RuleFits(x, id);
    }
    forall t: TaskId
      ensures TaskPlanFits(y, t)
    {
      assert TaskPlanFits(x, t) && TaskFits(x, t);
    }
  }

  lemma RecordPlans(x: Cal, id: CalId, y: Cal)
    requires Fits(x) && PlansFit(x) && RecordStep(x, id, y)
    ensures PlansFit(y)
  {
    assert AddingFits(x, id) && RulePlanFits(x, id) && AddingPlanFits(x, id);
    var t := x.adding[id].t;
    assert TaskPlanFits(x, t) && TaskFits(x, t);
    forall k: CalId
      ensures RulePlanFits(y, k)
    {
      assert RulePlanFits(x, k) && AddingPlanFits(x, k) && RuleFits(x, k);
    }
    forall k: TaskId
      ensures TaskPlanFits(y, k)
    {
      assert TaskPlanFits(x, k);
    }
  }

  lemma RerecordPlans(x: Cal, y: Cal)
    requires Fits(x) && PlansFit(x) && RerecordStep(x, y)
    ensures PlansFit(y)
  {
    var t := x.run.t;
    assert NewestFits(x, x.run.id) && TaskFits(x, t) && TaskPlanFits(x, t);
    forall k: CalId
      ensures RulePlanFits(y, k)
    {
      assert RulePlanFits(x, k) && AddingPlanFits(x, k);
    }
    forall k: TaskId
      ensures TaskPlanFits(y, k)
    {
      assert TaskPlanFits(x, k);
    }
  }

  lemma BeginRunPlan(x: Cal, y: Cal)
    requires Fits(x) && PlansFit(x) && BeginStep(x, y)
    ensures RunPlanFits(y)
  {
    var id := x.owner[Front(x.w.s)];
    assert RulePlanFits(x, id) && RuleFits(x, id);
  }

  lemma BeginRulePlan(x: Cal, y: Cal, k: CalId)
    requires RulePlanFits(x, k) && AddingPlanFits(x, k) && BeginStep(x, y)
    ensures RulePlanFits(y, k)
  {
  }

  lemma BeginPlans(x: Cal, y: Cal)
    requires Fits(x) && PlansFit(x) && BeginStep(x, y)
    ensures PlansFit(y)
  {
    BeginRunPlan(x, y);
    forall k: CalId
      ensures RulePlanFits(y, k)
    {
      assert RulePlanFits(x, k) && AddingPlanFits(x, k);
      BeginRulePlan(x, y, k);
    }
    forall k: TaskId
      ensures TaskPlanFits(y, k)
    {
      assert TaskPlanFits(x, k);
    }
  }

  lemma CountPlans(x: Cal, observed: int, y: Cal)
    requires PlansFit(x) && x.run.Running? && x.run.id in x.core.tasks
    requires y == x.(core := CountRun(x.core, x.run.id), run := Planning(x.run.id, x.run.previous, x.run.known, observed))
    ensures PlansFit(y)
  {
    forall k: CalId
      ensures RulePlanFits(y, k)
    {
      assert RulePlanFits(x, k) && AddingPlanFits(x, k);
    }
    forall k: TaskId
      ensures TaskPlanFits(y, k)
    {
      assert TaskPlanFits(x, k);
    }
  }

  lemma SectionPlans(x: Cal, act: CalAct, y: Cal)
    requires Fits(x) && PlansFit(x) && CalStep(x, act, y)
    requires act.Insert? || act.Record? || act.Begin? || act.Rerecord? || act.After?
    ensures PlansFit(y)
  {
    match act
    case Insert(o) => InsertPlans(x, o, y);
    case Record(id) => RecordPlans(x, id, y);
    case Begin => BeginPlans(x, y);
    case Rerecord => RerecordPlans(x, y);
    case After(observed) =>
      if y.run.Ended? {
        RunErases(x, y);
        ErasePlans(x, y);
      } else {
        CountPlans(x, observed, y);
      }
  }

  lemma PlansKeep(x: Cal, act: CalAct, y: Cal)
    requires CalInv(x) && PlansFit(x) && CalStep(x, act, y)
    ensures PlansFit(y)
  {
    if ByManager(act) {
      ManagerPlans(x, act, y);
    } else if act.Post? {
      PostPlans(x, act.id, act.observed, act.steady, act.locked, y);
    } else if act.Replan? {
      ReplanPlans(x, act.steady, act.locked, y);
    } else if Erasing(act) {
      ErasingErases(x, act, y);
      ErasePlans(x, y);
    } else {
      SectionPlans(x, act, y);
    }
  }
}
