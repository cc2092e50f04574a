/** Whole runs of a CalendarScheduler under every interleaving: one live task per rule, and whether the
    rule knows it. */
module CalendarRuns {
  import TaskTypes
  import TaskLedger
  import opened CalendarCore
  import CalendarSteps

  lemma {:induction false} CalRunInv(xs: seq<Cal>, acts: seq<CalAct>, i: nat)
    requires IsCalRun(xs, acts) && i < |xs|
    ensures CalInv(xs[i])
  {
    if i == 0 {
    } else {
      CalRunInv(xs, acts, i - 1);
      assert CalStepAt(xs, acts, i - 1);
      CalendarSteps.CalStepKeeps(xs[i - 1], acts[i - 1], xs[i]);
    }
  }

  // ---------- one task per rule ----------

  /** The tasks of a rule for which run_due can still begin. */
  ghost function LiveOf(x: Cal, id: CalId): set<TaskTypes.TaskId> {
    set t | t in x.owner && x.owner[t] == id && Unstarted(x, t)
  }

  /** The rule keeps the id of its one live task, and none while its callback runs. */
  ghost predicate Agrees(x: Cal, id: CalId)
    requires id in x.core.tasks
  {
    if RunsRule(x, id) then x.core.tasks[id].taskId == 0 else LiveOf(x, id) == {x.core.tasks[id].taskId}
  }

  lemma LiveIsNewest(x: Cal, id: CalId)
    requires CalInv(x)
    ensures LiveOf(x, id) == if id in x.newest && Unstarted(x, x.newest[id]) then {x.newest[id]} else {}
  {
    assert NewestFits(x, id);
    forall t | t in LiveOf(x, id)
      ensures id in x.newest && t == x.newest[id]
    {
      assert TaskFits(x, t);
    }
  }

  lemma AgreesExactly(x: Cal, id: CalId)
    requires CalInv(x) && id in x.core.tasks && id !in x.adding
    ensures Agrees(x, id) <==> id !in x.raced
    ensures !RunsRule(x, id) ==> |LiveOf(x, id)| == 1
  {
    assert RuleFits(x, id);
    LiveIsNewest(x, id);
  }

  /** At every moment, in every interleaving, a rule has at most one live task: exactly one if the rule
      is in the map, added and not running, and none while its callback runs. The rule keeps the id of
      that task exactly if it was not raced. A rule that is gone leaves no waiting task behind, unless
      it was raced: somebody is about to cancel it. */
  lemma OneTaskPerRule(xs: seq<Cal>, acts: seq<CalAct>, i: nat, id: CalId)
    requires IsCalRun(xs, acts) && i < |xs|
    ensures var x := xs[i];
      && |LiveOf(x, id)| <= 1
      && (id in x.core.tasks && id !in x.adding ==> (Agrees(x, id) <==> id !in x.raced))
      && (id in x.core.tasks && id !in x.adding && !RunsRule(x, id) ==> |LiveOf(x, id)| == 1)
      && ((x.run.Running? || x.run.Planning?) && x.run.id == id ==> LiveOf(x, id) == {})
      && (id !in x.core.tasks && id !in x.raced ==> forall t :: t in LiveOf(x, id) && TaskLedger.Waits(x.w.s, t) ==> Pending(x, t))
  {
    CalRunInv(xs, acts, i);
    var x := xs[i];
    LiveIsNewest(x, id);
    if id in x.core.tasks && id !in x.adding {
      AgreesExactly(x, id);
    }
    forall t | t in LiveOf(x, id)
      ensures TaskFits(x, t)
    {
    }
  }

  /** When add_rule comes back for the lock with the task it has submitted, and the rule is still there,
      the rule is right afterwards if and only if run_due has not begun for that task. */
  lemma RecordAgrees(x: Cal, id: CalId, y: Cal)
    requires CalInv(x) && RecordStep(x, id, y) && id in x.core.tasks
    ensures id in y.core.tasks && (Agrees(y, id) <==> Unstarted(x, x.adding[id].t))
  {
    assert AddingFits(x, id) && RuleFits(x, id);
    CalendarSteps.RecordFits(x, id, y);
    AgreesExactly(y, id);
  }

  /** The task that run_due begins for is the one live task of its rule. The rule knows it unless it was
      raced, and begins to run with none. */
  lemma BeginRuns(x: Cal, y: Cal)
    requires CalInv(x) && BeginStep(x, y)
    ensures var (t, id) := (Front(x.w.s), x.owner[Front(x.w.s)]);
      && LiveOf(x, id) == {t} && LiveOf(y, id) == {}
      && (y.run.Running? <==> id in x.core.tasks)
      && (id in x.core.tasks && id !in x.adding ==> (x.core.tasks[id].taskId == t <==> id !in x.raced) && Agrees(y, id))
  {
    var (t, id) := (Front(x.w.s), x.owner[Front(x.w.s)]);
    assert TaskFits(x, t) && RuleFits(x, id);
    LiveIsNewest(x, id);
    CalendarSteps.BeginFits(x, y);
    LiveIsNewest(y, id);
  }
}
