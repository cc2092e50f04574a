/** The life of a calendar rule over whole runs: what its runs plan from, planned times that increase,
    what puts a rule out of step with its tasks and back, and that rules live on. */
module CalendarLife {
  import opened TaskTypes
  import TaskInvariant
  import CalendarScan
  import opened CalendarPlans
  import opened CalendarCore
  import opened CalendarSteps
  import opened CalendarRuns
  import opened CalendarTimes

  lemma PlansKeepAt(xs: seq<Cal>, acts: seq<CalAct>, i: nat)
    requires IsCalRun(xs, acts) && i < |acts| && PlansFit(xs[i])
    ensures PlansFit(xs[i + 1])
  {
    CalRunInv(xs, acts, i);
    assert CalStepAt(xs, acts, i);
    PlansKeep(xs[i], acts[i], xs[i + 1]);
  }

  lemma {:induction false} PlansRunInv(xs: seq<Cal>, acts: seq<CalAct>, i: nat)
    requires IsCalRun(xs, acts) && PlansFit(xs[0]) && i < |xs|
    ensures PlansFit(xs[i])
  {
    if i == 0 {
    } else {
      PlansRunInv(xs, acts, i - 1);
      PlansKeepAt(xs, acts, i - 1);
    }
  }

  /** At every moment the time a recorded rule is planned for is an occurrence of the rule. */
  lemma PlannedOccurs(xs: seq<Cal>, acts: seq<CalAct>, i: nat, id: CalId)
    requires IsCalRun(xs, acts) && xs[0] == START_CAL && i < |xs| && id in xs[i].core.tasks && id !in xs[i].adding
    ensures id in xs[i].options && CalendarScan.Occurs(xs[i].options[id].search, xs[i].core.tasks[id].planned)
  {
    CalRunInv(xs, acts, i);
    PlansRunInv(xs, acts, i);
    assert RuleFits(xs[i], id) && RulePlanFits(xs[i], id);
  }

  // ---------- what a run plans from ----------

  /** What run_due takes from its rule, for its task `t`: the rule's planned time and task id, which are
      those of a task of the rule, or nothing at all. */
  ghost predicate Reads(x: Cal, y: Cal, id: CalId, t: TaskId) {
    && y.run.Running? && y.run.id == id
    && (y.run.known == 0 ==> y.run.previous == 0)
    && (y.run.known != 0 ==>
          && y.run.known in x.plans && y.run.previous == x.plans[y.run.known]
          && y.run.known in x.owner && x.owner[y.run.known] == id)
    && (y.run.known == 0 <==> InFlight(x, id, t))
    && (y.run.known == t <==> !InFlight(x, id, t) && (id in x.adding || id !in x.raced))
  }

  lemma BeginStepReads(x: Cal, y: Cal)
    requires CalInv(x) && PlansFit(x) && BeginStep(x, y) && y.run.Running?
    ensures Reads(x, y, y.run.id, Front(x.w.s))
  {
    var (t, id) := (Front(x.w.s), y.run.id);
    assert TaskFits(x, t) && RuleFits(x, id) && AddingFits(x, id) && RulePlanFits(x, id);
  }

  /** run_due begins with the time and the id of its own task exactly if add_rule is not still on its way
      with that task, and has not come back late. In the first case it begins with time zero and no id,
      in the second with those of an earlier task, which the late add_rule has put back. */
  lemma BeginReads(xs: seq<Cal>, acts: seq<CalAct>, k: nat)
    requires IsCalRun(xs, acts) && xs[0] == START_CAL && k < |acts| && acts[k] == Begin && xs[k + 1].run.Running?
    ensures xs[k].w.s.running != [] && Reads(xs[k], xs[k + 1], xs[k + 1].run.id, Front(xs[k].w.s))
  {
    CalRunInv(xs, acts, k);
    PlansRunInv(xs, acts, k);
    assert CalStepAt(xs, acts, k);
    BeginStepReads(xs[k], xs[k + 1]);
  }

  /** schedule_after_run has submitted the next task. */
  predicate Resubmits(x: Cal, act: CalAct, y: Cal) {
    act.Replan? && x.run.Planning? && y.run.Ending?
  }

  /** What the consumer knew and what it has planned, for the task in its hands and the next one. */
  ghost predicate PlansNext(x: Cal, y: Cal) {
    && x.run.Planning? && y.run.Ending? && x.w.s.running != [] && Front(x.w.s) in x.plans && x.run.id in x.options
    && (x.run.known == 0 ==> x.run.previous == 0)
    && (x.run.known != 0 ==>
          && x.run.known in x.plans && x.run.previous == x.plans[x.run.known]
          && CalendarScan.Occurs(x.options[x.run.id].search, x.run.previous))
    && y.run.t in y.plans && y.plans[y.run.t] == y.run.planned && y.newest == x.newest[x.run.id := y.run.t]
    && var (o, p, r, now, p') := (x.options[x.run.id], x.plans[Front(x.w.s)], x.run.previous, x.run.observed, y.run.planned);
       && ExactNext(o, p, r, now, p')
       && (x.run.known != 0 ==> (FollowsAt(o, p, now, p') <==> r == p || (o.overlap == SkipOverdue && p <= now && r <= now)))
       && (x.run.known == Front(x.w.s) ==> FollowsAt(o, p, now, p'))
  }

  lemma ReplanStepExact(x: Cal, steady: Time, locked: Time, y: Cal)
    requires CalInv(x) && PlansFit(x) && ReplanStep(x, steady, locked, y) && y.run.Ending?
    ensures PlansNext(x, y)
  {
    var t := Front(x.w.s);
    assert TaskFits(x, t) && TaskPlanFits(x, t);
    if x.run.known != 0 {
      assert TaskPlanFits(x, x.run.known);
    }
    PlanFrom(x.options[x.run.id], x.plans[t], x.run.previous, x.run.observed);
  }

  /** Whatever a run began with, the next time of its rule is later than that of its own task, and is the
      right one, exactly when `ExactNext` says so. A run that began with an id plans the right time
      exactly if that was the time of its own task, or the rule skips overdue times and the present has
      come to both. */
  lemma ReplanExact(xs: seq<Cal>, acts: seq<CalAct>, k: nat)
    requires IsCalRun(xs, acts) && xs[0] == START_CAL && k < |acts| && Resubmits(xs[k], acts[k], xs[k + 1])
    ensures PlansNext(xs[k], xs[k + 1])
  {
    CalRunInv(xs, acts, k);
    PlansRunInv(xs, acts, k);
    assert CalStepAt(xs, acts, k);
    ReplanStepExact(xs[k], acts[k].steady, acts[k].locked, xs[k + 1]);
  }

  lemma NoTaskZero(x: Cal)
    requires CalInv(x) && x.run.Planning?
    ensures x.w.s.running != [] && Front(x.w.s) != 0
  {
    assert TaskFits(x, Front(x.w.s));
  }

  /** A run that began before its rule had been recorded plans from time zero. Of a task planned for `p`,
      not before time zero, the next time is the right one, and later than `p`, exactly if the rule skips
      overdue times and the present has come to `p`, or `p` is zero. */
  lemma RacedPlan(xs: seq<Cal>, acts: seq<CalAct>, k: nat)
    requires IsCalRun(xs, acts) && xs[0] == START_CAL && k < |acts| && Resubmits(xs[k], acts[k], xs[k + 1])
    requires xs[k].run.known == 0
    ensures PlansNext(xs[k], xs[k + 1])
    ensures var (x, o) := (xs[k], xs[k].options[xs[k].run.id]);
      var (p, now, p') := (x.plans[Front(x.w.s)], x.run.observed, xs[k + 1].run.planned);
      p >= 0 ==>
        && (FollowsAt(o, p, now, p') <==> p == 0 || (o.overlap == SkipOverdue && p <= now))
        && (p < p' <==> p == 0 || (o.overlap == SkipOverdue && p <= now))
  {
    ReplanExact(xs, acts, k);
  }

  // ---------- what a step changes ----------

  /** Where an addition in progress comes from. */
  ghost predicate AddedBy(x: Cal, act: CalAct, y: Cal, id: CalId) {
    id in y.adding ==>
      && (id in x.adding || (act.Insert? && id == x.core.nextId))
      && ((id in x.adding && y.adding[id] == x.adding[id]) || y.adding[id].Inserted? || (act.Post? && act.id == id))
  }

  lemma AddingInSection(x: Cal, act: CalAct, y: Cal, id: CalId)
    requires CalStep(x, act, y) && !ByManager(act) && !act.Post? && !act.Replan?
    ensures AddedBy(x, act, y, id)
  {
  }

  lemma AddingFrom(x: Cal, act: CalAct, y: Cal, id: CalId)
    requires CalStep(x, act, y)
    ensures AddedBy(x, act, y, id)
  {
    if ByManager(act) {
      ManagerActs(x, act, y);
    } else if act.Post? || act.Replan? {
      SubmitActs(x, act, y);
    } else {
      AddingInSection(x, act, y, id);
    }
  }

  lemma OptionsInSection(x: Cal, act: CalAct, y: Cal)
    requires CalStep(x, act, y) && !ByManager(act) && !act.Post? && !act.Replan?
    ensures x.core.nextId <= y.core.nextId
    ensures y.options == x.options || (act.Insert? && y.options == x.options[x.core.nextId := act.o])
  {
  }

  /** Options never change, and numbers are never used again. */
  lemma OptionsStay(x: Cal, act: CalAct, y: Cal)
    requires CalStep(x, act, y)
    ensures x.core.nextId <= y.core.nextId
    ensures forall id :: id < x.core.nextId ==> (id in y.options <==> id in x.options)
    ensures forall id :: id < x.core.nextId && id in x.options ==> y.options[id] == x.options[id]
  {
    if ByManager(act) {
      ManagerActs(x, act, y);
    } else if act.Post? || act.Replan? {
      SubmitActs(x, act, y);
    } else {
      OptionsInSection(x, act, y);
    }
  }

  // ---------- in step ----------

  predicate RunOf(x: Cal, id: CalId) {
    (x.run.Running? || x.run.Planning?) && x.run.id == id
  }

  /** The rule has been recorded, and its next run, or the one it is in, begins with the time and the id
      of its own task. */
  predicate InStep(x: Cal, id: CalId) {
    && id in x.core.tasks && id in x.newest && id !in x.adding
    && (if RunOf(x, id) then x.run.known == x.newest[id] else RunsRule(x, id) || id !in x.raced)
  }

  ghost predicate SameRule(x: Cal, y: Cal, id: CalId) {
    && id in x.newest && id in y.newest && y.newest[id] == x.newest[id]
    && (x.newest[id] in x.plans ==> x.newest[id] in y.plans && y.plans[x.newest[id]] == x.plans[x.newest[id]])
  }

  lemma ManagerInStep(x: Cal, act: CalAct, y: Cal, id: CalId)
    requires CalStep(x, act, y) && ByManager(act) && InStep(x, id)
    ensures InStep(y, id) && SameRule(x, y, id)
  {
    ManagerActs(x, act, y);
  }

  /** The id of the next submission belongs to no rule yet. */
  lemma FreshId(x: Cal)
    requires CalInv(x)
    ensures x.w.s.nextId !in x.owner
  {
    assert TaskFits(x, x.w.s.nextId) && TaskInvariant.TaskOk(x.w.s, x.w.s.nextId);
  }

  lemma PostInStep(x: Cal, k: CalId, observed: int, steady: Time, locked: Time, y: Cal, id: CalId)
    requires CalInv(x) && PlansFit(x) && PostStep(x, k, observed, steady, locked, y) && InStep(x, id)
    ensures InStep(y, id) && SameRule(x, y, id)
  {
    FreshId(x);
    assert NewestFits(x, id);
  }

  lemma ReplannedInStep(x: Cal, t: TaskId, planned: int, y: Cal, id: CalId)
    requires x.run.Planning? && ReplannedTask(x, t, planned, y) && InStep(x, id) && (x.run.id != id ==> x.newest[id] != t)
    ensures InStep(y, id) && (SameRule(x, y, id) || x.run.id == id)
  {
  }

  lemma EraseInStep(x: Cal, y: Cal, id: CalId)
    requires Erases(x, y) && InStep(x, id) && id in y.core.tasks
    ensures InStep(y, id) && SameRule(x, y, id)
  {
    assert ErasesRule(x, y, id);
  }

  lemma ReplanInStep(x: Cal, steady: Time, locked: Time, y: Cal, id: CalId)
    requires CalInv(x) && PlansFit(x) && ReplanStep(x, steady, locked, y) && InStep(x, id) && id in y.core.tasks
    ensures InStep(y, id) && (SameRule(x, y, id) || (y.run.Ending? && x.run.id == id))
  {
    FreshId(x);
    assert NewestFits(x, id);
    if y.run.Ending? {
      ReplannedInStep(x, x.w.s.nextId, y.run.planned, y, id);
    } else {
      ReplanGivesUp(x, steady, locked, y);
      RunErases(x, y);
      EraseInStep(x, y, id);
    }
  }

  lemma ReplanGivesUp(x: Cal, steady: Time, locked: Time, y: Cal)
    requires CalInv(x) && ReplanStep(x, steady, locked, y) && !y.run.Ending?
    ensures y.run.Ended? && SameManager(x.w, y.w) && y == x.(w := y.w, core := Erase(x.core, x.run.id), run := y.run)
  {
    var o := x.options[x.run.id];
    var plan := PlanAfterRun(o.search, x.run.previous, x.run.observed, o.overlap).plan;
    if plan.Some? {
      SubmitOutcome(x.w, y.w, Due(plan.value, x.run.observed, steady), o.priority, locked);
    }
  }

  lemma InsertInStep(x: Cal, o: Options, y: Cal, id: CalId)
    requires RuleFits(x, id) && InsertStep(x, o, y) && InStep(x, id)
    ensures InStep(y, id) && SameRule(x, y, id)
  {
  }

  lemma RecordInStep(x: Cal, k: CalId, y: Cal, id: CalId)
    requires RecordStep(x, k, y) && InStep(x, id)
    ensures InStep(y, id) && SameRule(x, y, id)
  {
  }

  lemma RerecordInStep(x: Cal, y: Cal, id: CalId)
    requires RerecordStep(x, y) && InStep(x, id) && CoreFits(x.core)
    ensures InStep(y, id) && SameRule(x, y, id)
  {
  }

  lemma BeginInStep(x: Cal, y: Cal, id: CalId)
    requires RuleFits(x, id) && x.w.s.running != [] && TaskFits(x, Front(x.w.s)) && BeginStep(x, y) && InStep(x, id)
    ensures InStep(y, id) && SameRule(x, y, id)
  {
  }

  lemma SectionInStep(x: Cal, act: CalAct, y: Cal, id: CalId)
    requires CalInv(x) && CalStep(x, act, y) && (act.Insert? || act.Record? || act.Rerecord? || act.Begin?)
    requires InStep(x, id)
    ensures InStep(y, id) && SameRule(x, y, id)
  {
    assert RuleFits(x, id);
    match act
    case Insert(o) => InsertInStep(x, o, y, id);
    case Record(k) => RecordInStep(x, k, y, id);
    case Rerecord => RerecordInStep(x, y, id);
    case Begin =>
      assert TaskFits(x, Front(x.w.s));
      BeginInStep(x, y, id);
  }

  lemma AfterInStep(x: Cal, observed: int, y: Cal, id: CalId)
    requires Fits(x) && AfterStep(x, observed, y) && InStep(x, id) && id in y.core.tasks
    ensures InStep(y, id) && SameRule(x, y, id)
  {
  }

  /** A rule in step stays in step, as long as it is there, and only a resubmission gives it a new task. */
  lemma InStepStays(x: Cal, act: CalAct, y: Cal, id: CalId)
    requires CalInv(x) && PlansFit(x) && CalStep(x, act, y) && InStep(x, id) && id in y.core.tasks
    ensures InStep(y, id) && (SameRule(x, y, id) || (Resubmits(x, act, y) && x.run.id == id))
  {
    if ByManager(act) {
      ManagerInStep(x, act, y, id);
    } else if act.Post? {
      PostInStep(x, act.id, act.observed, act.steady, act.locked, y, id);
    } else if act.Replan? {
      ReplanInStep(x, act.steady, act.locked, y, id);
    } else if Erasing(act) {
      ErasingErases(x, act, y);
      EraseInStep(x, y, id);
    } else if act.After? {
      AfterInStep(x, act.observed, y, id);
    } else {
      SectionInStep(x, act, y, id);
    }
  }

  lemma GoneInRecord(x: Cal, k: CalId, y: Cal, id: CalId)
    requires RecordStep(x, k, y) && id !in x.core.tasks
    ensures id !in y.core.tasks
  {
  }

  lemma GoneInRerecord(x: Cal, y: Cal, id: CalId)
    requires RerecordStep(x, y) && id !in x.core.tasks
    ensures id !in y.core.tasks
  {
  }

  lemma GoneInBegin(x: Cal, y: Cal, id: CalId)
    requires BeginStep(x, y) && id !in x.core.tasks
    ensures id !in y.core.tasks
  {
  }

  lemma GoneInAfter(x: Cal, observed: int, y: Cal, id: CalId)
    requires AfterStep(x, observed, y) && id !in x.core.tasks
    ensures id !in y.core.tasks
  {
    if y.run.Planning? {
      assert x.run.id in x.core.tasks && y.core == CountRun(x.core, x.run.id);
    } else {
      assert y.core == Erase(x.core, x.run.id);
    }
  }

  lemma GoneInInsert(x: Cal, o: Options, y: Cal, id: CalId)
    requires InsertStep(x, o, y) && id < x.core.nextId && id !in x.core.tasks
    ensures id !in y.core.tasks
  {
  }

  lemma GoneInErasing(x: Cal, act: CalAct, y: Cal, id: CalId)
    requires CalStep(x, act, y) && Erasing(act) && id !in x.core.tasks
    ensures id !in y.core.tasks
  {
  }

  /** A rule that has left the map does not come back. */
  lemma StaysGone(x: Cal, act: CalAct, y: Cal, id: CalId)
    requires CalStep(x, act, y) && id < x.core.nextId && id !in x.core.tasks
    ensures id !in y.core.tasks && id < y.core.nextId
  {
    OptionsStay(x, act, y);
    if ByManager(act) {
      ManagerActs(x, act, y);
    } else if act.Post? || act.Replan? {
      SubmitActs(x, act, y);
    } else if Erasing(act) {
      GoneInErasing(x, act, y, id);
    } else {
      match act
      case Insert(o) => GoneInInsert(x, o, y, id);
      case Record(k) => GoneInRecord(x, k, y, id);
      case Rerecord => GoneInRerecord(x, y, id);
      case Begin => GoneInBegin(x, y, id);
      case After(observed) => GoneInAfter(x, observed, y, id);
    }
  }

  lemma {:induction false} GoneRun(xs: seq<Cal>, acts: seq<CalAct>, i: nat, j: nat, id: CalId)
    requires IsCalRun(xs, acts) && i <= j < |xs| && id < xs[i].core.nextId && id !in xs[i].core.tasks
    ensures id !in xs[j].core.tasks
    decreases j - i
  {
    if i == j {
    } else {
      assert CalStepAt(xs, acts, i);
      StaysGone(xs[i], acts[i], xs[i + 1], id);
      GoneRun(xs, acts, i + 1, j, id);
    }
  }

  // ---------- planned times increase ----------

  /** The time for which the newest task of a rule was submitted. */
  function LastPlan(x: Cal, id: CalId): int {
    if id in x.newest && x.newest[id] in x.plans then x.plans[x.newest[id]] else 0
  }

  predicate NextPlanned(x: Cal, act: CalAct, y: Cal, id: CalId) {
    Resubmits(x, act, y) && x.run.id == id
  }

  lemma ResubmitPlan(x: Cal, steady: Time, locked: Time, y: Cal)
    requires CalInv(x) && PlansFit(x) && ReplanStep(x, steady, locked, y) && y.run.Ending? && InStep(x, x.run.id)
    ensures x.run.id in x.options
    ensures Follows(x.options[x.run.id], LastPlan(x, x.run.id), LastPlan(y, x.run.id))
  {
    NoTaskZero(x);
    ReplanStepExact(x, steady, locked, y);
    assert x.newest[x.run.id] == Front(x.w.s);
    assert FollowsAt(x.options[x.run.id], LastPlan(x, x.run.id), x.run.observed, LastPlan(y, x.run.id));
  }

  lemma LastPlanStep(x: Cal, act: CalAct, y: Cal, id: CalId)
    requires CalInv(x) && PlansFit(x) && CalStep(x, act, y) && InStep(x, id) && id in y.core.tasks && id in x.options
    ensures InStep(y, id)
    ensures if NextPlanned(x, act, y, id) then Follows(x.options[id], LastPlan(x, id), LastPlan(y, id))
            else LastPlan(y, id) == LastPlan(x, id)
  {
    InStepStays(x, act, y, id);
    if NextPlanned(x, act, y, id) {
      ResubmitPlan(x, act.steady, act.locked, y);
    } else {
      assert NewestFits(x, id) && TaskPlanFits(x, x.newest[id]);
    }
  }

  lemma LastPlanAt(xs: seq<Cal>, acts: seq<CalAct>, k: nat, id: CalId)
    requires IsCalRun(xs, acts) && xs[0] == START_CAL && k < |acts| && InStep(xs[k], id) && id in xs[k + 1].core.tasks
    ensures InStep(xs[k + 1], id) && id in xs[k].options && id in xs[k + 1].options && xs[k + 1].options[id] == xs[k].options[id]
    ensures if NextPlanned(xs[k], acts[k], xs[k + 1], id) then Follows(xs[k].options[id], LastPlan(xs[k], id), LastPlan(xs[k + 1], id))
            else LastPlan(xs[k + 1], id) == LastPlan(xs[k], id)
  {
    InStepOptions(xs, acts, k, id);
    OptionsAt(xs, acts, k, id);
    CalRunInv(xs, acts, k);
    PlansRunInv(xs, acts, k);
    assert CalStepAt(xs, acts, k);
    LastPlanStep(xs[k], acts[k], xs[k + 1], id);
  }

  lemma OptionsAt(xs: seq<Cal>, acts: seq<CalAct>, k: nat, id: CalId)
    requires IsCalRun(xs, acts) && k < |acts| && id < xs[k].core.nextId && id in xs[k].options
    ensures id in xs[k + 1].options && xs[k + 1].options[id] == xs[k].options[id]
  {
    assert CalStepAt(xs, acts, k);
    OptionsStay(xs[k], acts[k], xs[k + 1]);
  }

  lemma {:induction false} PlansGrow(xs: seq<Cal>, acts: seq<CalAct>, i: nat, j: nat, id: CalId)
    requires IsCalRun(xs, acts) && xs[0] == START_CAL && i <= j < |xs| && InStep(xs[i], id) && id in xs[j].core.tasks
    ensures InStep(xs[j], id) && LastPlan(xs[i], id) <= LastPlan(xs[j], id)
    ensures id in xs[i].options && id in xs[j].options && xs[j].options[id] == xs[i].options[id]
    decreases j - i
  {
    InStepOptions(xs, acts, i, id);
    if i == j {
    } else {
      if id !in xs[i + 1].core.tasks {
        GoneAfter(xs, acts, i, j, id);
      }
      LastPlanAt(xs, acts, i, id);
      PlansGrow(xs, acts, i + 1, j, id);
    }
  }

  lemma InStepOptions(xs: seq<Cal>, acts: seq<CalAct>, i: nat, id: CalId)
    requires IsCalRun(xs, acts) && i < |xs| && id in xs[i].core.tasks
    ensures id in xs[i].options && id < xs[i].core.nextId
  {
    CalRunInv(xs, acts, i);
    assert RuleFits(xs[i], id);
  }

  lemma GoneAfter(xs: seq<Cal>, acts: seq<CalAct>, i: nat, j: nat, id: CalId)
    requires IsCalRun(xs, acts) && i < j < |xs| && id in xs[i].core.tasks && id !in xs[i + 1].core.tasks
    ensures id !in xs[j].core.tasks
  {
    InStepOptions(xs, acts, i, id);
    assert CalStepAt(xs, acts, i);
    OptionsStay(xs[i], acts[i], xs[i + 1]);
    GoneRun(xs, acts, i + 1, j, id);
  }

  /** From the moment a rule is in step, the time each of its tasks is planned for is a right successor of
      the time of the one before, and so strictly later than that of all that came before. */
  lemma PlansIncrease(xs: seq<Cal>, acts: seq<CalAct>, i: nat, k: nat, id: CalId)
    requires IsCalRun(xs, acts) && xs[0] == START_CAL && i <= k < |acts| && InStep(xs[i], id)
    requires NextPlanned(xs[k], acts[k], xs[k + 1], id) && id in xs[k + 1].core.tasks && id in xs[k].core.tasks
    ensures InStep(xs[k], id) && InStep(xs[k + 1], id) && id in xs[i].options
    ensures Follows(xs[i].options[id], LastPlan(xs[k], id), LastPlan(xs[k + 1], id))
    ensures LastPlan(xs[i], id) <= LastPlan(xs[k], id) < LastPlan(xs[k + 1], id)
  {
    PlansGrow(xs, acts, i, k, id);
    LastPlanAt(xs, acts, k, id);
  }

  /** A rule in step that is not running keeps the time of its newest task. */
  lemma InStepPlanned(x: Cal, id: CalId)
    requires CalInv(x) && PlansFit(x) && InStep(x, id) && !RunsRule(x, id)
    ensures x.core.tasks[id].planned == LastPlan(x, id)
  {
    assert RuleFits(x, id) && RulePlanFits(x, id) && NewestFits(x, id);
  }

  // ---------- out of step, and back ----------

  /** What add_rule puts into a rule when it comes back late, to a rule whose next task is queued: the id
      and the time of the first task. The run of that next task begins with them. */
  lemma LateRecord(x: Cal, id: CalId, y: Cal)
    requires CalInv(x) && PlansFit(x) && RecordStep(x, id, y) && id in x.core.tasks && !RunsRule(x, id)
    ensures var t := x.adding[id].t;
      && t in x.plans && y.core.tasks[id] == x.core.tasks[id].(taskId := t, planned := x.plans[t])
      && id in x.newest && (InStep(y, id) <==> Unstarted(x, t)) && (InStep(y, id) <==> x.newest[id] == t)
  {
    var t := x.adding[id].t;
    assert AddingFits(x, id) && RuleFits(x, id) && RulePlanFits(x, id) && TaskFits(x, t);
  }

  /** At the latest the next task that a run records after add_rule has come back puts the rule in step,
      for good (`InStepStays`). */
  lemma BackInStep(x: Cal, y: Cal)
    requires CalInv(x) && RerecordStep(x, y) && x.run.id in x.core.tasks && x.run.id !in x.adding
    ensures InStep(y, x.run.id) && y.core.tasks[x.run.id].planned == x.run.planned
  {
    assert RuleFits(x, x.run.id);
  }

  /** Run_due begins for a task of rule `id` between the two sections of its add_rule. */
  ghost predicate Races(x: Cal, act: CalAct, id: CalId) {
    act.Begin? && id in x.adding && x.run.Starting? && x.w.s.running != [] && Front(x.w.s) in x.owner && x.owner[Front(x.w.s)] == id
  }

  lemma {:induction false} RacedSince(xs: seq<Cal>, acts: seq<CalAct>, i: nat, id: CalId) returns (k: nat)
    requires IsCalRun(xs, acts) && i < |xs| && id !in xs[0].raced && id in xs[i].raced
    ensures k < i && Races(xs[k], acts[k], id)
  {
    assert CalStepAt(xs, acts, i - 1);
    k := i - 1;
    if id !in xs[k].raced {
    } else {
      k := RacedSince(xs, acts, k, id);
    }
  }

  /** The steps that end an addition: its record, and giving up. */
  lemma AdditionEnds(x: Cal, act: CalAct, y: Cal, id: CalId)
    requires CalStep(x, act, y) && !ByManager(act) && !act.Post? && !act.Replan? && id in x.adding && id !in y.adding
    ensures act == Record(id) || (act.Drop? && id !in y.core.tasks)
  {
  }

  lemma RecordedInStep(x: Cal, id: CalId, y: Cal)
    requires CalInv(x) && RecordStep(x, id, y) && id in y.core.tasks && id !in x.raced
    ensures InStep(y, id)
  {
    assert AddingFits(x, id) && RuleFits(x, id);
  }

  /** A recorded rule that is out of step was so before, or raced. */
  lemma StaleBefore(x: Cal, act: CalAct, y: Cal, id: CalId)
    requires CalInv(x) && PlansFit(x) && CalStep(x, act, y) && id in y.core.tasks && id !in y.adding && id < x.core.nextId
    requires !InStep(y, id) && id !in x.raced
    ensures id in x.core.tasks && id !in x.adding && !InStep(x, id)
  {
    if id !in x.core.tasks {
      StaysGone(x, act, y, id);
    } else if id in x.adding {
      if ByManager(act) {
        ManagerActs(x, act, y);
      } else if act.Post? || act.Replan? {
        SubmitActs(x, act, y);
      } else {
        AdditionEnds(x, act, y, id);
        RecordedInStep(x, id, y);
      }
    } else if InStep(x, id) {
      InStepStays(x, act, y, id);
    }
  }

  lemma NewIsAdding(x: Cal, act: CalAct, y: Cal, id: CalId)
    requires CalStep(x, act, y) && id >= x.core.nextId && id !in x.core.tasks && id in y.core.tasks
    ensures id in y.adding
  {
    if ByManager(act) {
      ManagerActs(x, act, y);
    } else if act.Post? || act.Replan? {
      SubmitActs(x, act, y);
    } else {
      NewInSection(x, act, y, id);
    }
  }

  lemma NewInSection(x: Cal, act: CalAct, y: Cal, id: CalId)
    requires CalStep(x, act, y) && !ByManager(act) && !act.Post? && !act.Replan? && id !in x.core.tasks && id in y.core.tasks
    ensures act.Insert? && id in y.adding
  {
  }

  lemma StaleStep(x: Cal, act: CalAct, y: Cal, id: CalId)
    requires CalInv(x) && PlansFit(x) && CalStep(x, act, y) && id in y.core.tasks && id !in y.adding
    requires !InStep(y, id) && id !in x.raced
    ensures id in x.core.tasks && id !in x.adding && !InStep(x, id)
  {
    assert RuleFits(x, id);
    if id >= x.core.nextId {
      NewIsAdding(x, act, y, id);
    }
    StaleBefore(x, act, y, id);
  }

  lemma StaleAt(xs: seq<Cal>, acts: seq<CalAct>, i: nat, id: CalId)
    requires IsCalRun(xs, acts) && xs[0] == START_CAL && i < |acts| && id in xs[i + 1].core.tasks && id !in xs[i + 1].adding
    requires !InStep(xs[i + 1], id) && id !in xs[i].raced
    ensures id in xs[i].core.tasks && id !in xs[i].adding && !InStep(xs[i], id)
  {
    CalRunInv(xs, acts, i);
    PlansRunInv(xs, acts, i);
    assert CalStepAt(xs, acts, i);
    StaleStep(xs[i], acts[i], xs[i + 1], id);
  }

  lemma {:induction false} OutOfStepSince(xs: seq<Cal>, acts: seq<CalAct>, i: nat, id: CalId) returns (k: nat)
    requires IsCalRun(xs, acts) && xs[0] == START_CAL && i < |xs| && id in xs[i].core.tasks && id !in xs[i].adding
    requires !InStep(xs[i], id)
    ensures k < i && Races(xs[k], acts[k], id)
  {
    if id in xs[i - 1].raced {
      k := RacedSince(xs, acts, i - 1, id);
    } else {
      StaleAt(xs, acts, i - 1, id);
      k := OutOfStepSince(xs, acts, i - 1, id);
    }
  }

  /** A recorded rule that does not know its live task, or whose next or present run plans from another
      time than that of its own task, owes it to a run_due that began between the two sections of its
      add_rule. Nothing else brings that about. */
  lemma RacedOnlyByBegin(xs: seq<Cal>, acts: seq<CalAct>, i: nat, id: CalId) returns (k: nat)
    requires IsCalRun(xs, acts) && xs[0] == START_CAL && i < |xs| && id in xs[i].core.tasks && id !in xs[i].adding
    requires !Agrees(xs[i], id) || !InStep(xs[i], id)
    ensures k < i && Races(xs[k], acts[k], id)
  {
    CalRunInv(xs, acts, i);
    AgreesExactly(xs[i], id);
    if !Agrees(xs[i], id) {
      k := RacedSince(xs, acts, i, id);
    } else {
      k := OutOfStepSince(xs, acts, i, id);
    }
  }

  // ---------- rules live on ----------

  /** What can take a rule out of the map: its removal, a cancellation from inside its callback, and a
      callback that throws. */
  ghost predicate Removes(x: Cal, act: CalAct, id: CalId) {
    || act == Remove(id) || act.RemoveAll?
    || (act.After? && x.run.Running? && x.run.id == id && x.w.s.running != [] && HasState(x.w.s, Front(x.w.s), Cancelled))
    || (act.Throws? && x.run.Running? && x.run.id == id)
  }

  lemma ReplanLives(x: Cal, steady: Time, locked: Time, y: Cal, id: CalId)
    requires CalInv(x) && ReplanStep(x, steady, locked, y) && id in x.core.tasks && id !in y.core.tasks
    requires id in x.options && AlwaysFinds(x.options[id].search)
    ensures y.w.s.closed
  {
    var o := x.options[id];
    assert x.run.id == id;
    AlwaysPlans(o.search, None, x.run.previous, x.run.observed, o.overlap, o.missed);
    var plan := PlanAfterRun(o.search, x.run.previous, x.run.observed, o.overlap).plan;
    SubmitOutcome(x.w, y.w, Due(plan.value, x.run.observed, steady), o.priority, locked);
  }

  lemma StaysInMap(x: Cal, act: CalAct, y: Cal, id: CalId)
    requires CalStep(x, act, y) && !Erasing(act) && !act.Replan? && !act.After?
    ensures id in x.core.tasks ==> id in y.core.tasks
  {
  }

  lemma DropLives(x: Cal, dropped: CalId, y: Cal, id: CalId)
    requires AddingPlanFits(x, id) && DropStep(x, dropped, y)
    requires id in x.core.tasks && id !in y.core.tasks && id in x.options && AlwaysFinds(x.options[id].search)
    ensures y.w.s.closed
  {
  }

  lemma CancelledInside(x: Cal, observed: int, y: Cal, id: CalId)
    requires AfterStep(x, observed, y) && id in x.core.tasks && id !in y.core.tasks
    ensures Removes(x, After(observed), id)
  {
  }

  lemma ErasedBy(x: Cal, act: CalAct, y: Cal, id: CalId)
    requires CalStep(x, act, y) && Erasing(act) && !act.Drop? && id in x.core.tasks && id !in y.core.tasks
    ensures Removes(x, act, id)
  {
  }

  lemma LivesStep(x: Cal, act: CalAct, y: Cal, id: CalId)
    requires CalInv(x) && PlansFit(x) && CalStep(x, act, y) && id in x.core.tasks && id !in y.core.tasks
    requires id in x.options && AlwaysFinds(x.options[id].search)
    ensures Removes(x, act, id) || y.w.s.closed
  {
    if act.Replan? {
      ReplanLives(x, act.steady, act.locked, y, id);
    } else if act.Drop? {
      assert RulePlanFits(x, id);
      DropLives(x, act.id, y, id);
    } else if act.After? {
      CancelledInside(x, act.observed, y, id);
    } else if Erasing(act) {
      ErasedBy(x, act, y, id);
    } else {
      StaysInMap(x, act, y, id);
    }
  }

  lemma ClosedStaysAt(xs: seq<Cal>, acts: seq<CalAct>, i: nat)
    requires IsCalRun(xs, acts) && i < |acts|
    ensures xs[i].w.s.closed ==> xs[i + 1].w.s.closed
  {
    CalRunInv(xs, acts, i);
    assert CalStepAt(xs, acts, i);
    if xs[i].w.s.closed {
      ClosedStays(xs[i], acts[i], xs[i + 1]);
    }
  }

  lemma {:induction false} ClosedRun(xs: seq<Cal>, acts: seq<CalAct>, i: nat, j: nat)
    requires IsCalRun(xs, acts) && i <= j < |xs| && xs[i].w.s.closed
    ensures xs[j].w.s.closed
    decreases j
  {
    if i == j {
    } else {
      ClosedRun(xs, acts, i, j - 1);
      ClosedStaysAt(xs, acts, j - 1);
    }
  }

  lemma LivesAt(xs: seq<Cal>, acts: seq<CalAct>, i: nat, id: CalId)
    requires IsCalRun(xs, acts) && PlansFit(xs[0]) && i < |acts| && id in xs[i].core.tasks
    requires id in xs[i].options && AlwaysFinds(xs[i].options[id].search)
    ensures id in xs[i + 1].core.tasks || Removes(xs[i], acts[i], id) || xs[i + 1].w.s.closed
    ensures id in xs[i + 1].options && xs[i + 1].options[id] == xs[i].options[id]
  {
    CalRunInv(xs, acts, i);
    PlansRunInv(xs, acts, i);
    assert CalStepAt(xs, acts, i) && RuleFits(xs[i], id);
    OptionsStay(xs[i], acts[i], xs[i + 1]);
    if id !in xs[i + 1].core.tasks {
      LivesStep(xs[i], acts[i], xs[i + 1], id);
    }
  }

  /** With a fixed offset, or one change of offset of less than a day, and an open manager, a rule that
      has left the map was removed, cancelled from inside its callback, or threw. */
  lemma {:induction false} LivesOn(xs: seq<Cal>, acts: seq<CalAct>, i: nat, j: nat, id: CalId) returns (k: nat)
    requires IsCalRun(xs, acts) && xs[0] == START_CAL && i <= j < |xs| && id in xs[i].core.tasks && id !in xs[j].core.tasks
    requires id in xs[i].options && AlwaysFinds(xs[i].options[id].search) && !xs[j].w.s.closed
    ensures i <= k < j && Removes(xs[k], acts[k], id)
    decreases j - i
  {
    LivesAt(xs, acts, i, id);
    k := i;
    if id in xs[i + 1].core.tasks {
      k := LivesOn(xs, acts, i + 1, j, id);
    } else if xs[i + 1].w.s.closed {
      ClosedRun(xs, acts, i + 1, j);
    }
  }
}
