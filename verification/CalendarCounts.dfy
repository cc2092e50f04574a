/** What run_count() of a calendar rule counts, over whole runs. */
module CalendarCounts {
  import opened TaskTypes
  import opened CalendarCore
  import CalendarRuns

  /** A callback of rule `id` has returned, and the rule goes on: nobody has removed or cancelled it. */
  predicate Completes(x: Cal, act: CalAct, id: CalId) {
    && act.After? && x.run.Running? && x.run.id == id && id in x.core.tasks
    && x.w.s.running != [] && !HasState(x.w.s, Front(x.w.s), Cancelled)
  }

  function Completions(xs: seq<Cal>, acts: seq<CalAct>, id: CalId, n: nat): nat
    requires |xs| == |acts| + 1 && n <= |acts|
  {
    if n == 0 then 0 else Completions(xs, acts, id, n - 1) + if Completes(xs[n - 1], acts[n - 1], id) then 1 else 0
  }

  /** The count of rule `id` goes up by `more`; a new rule starts from zero. */
  predicate CountsUp(c: Core, d: Core, id: CalId, more: nat) {
    && (id in c.tasks && id in d.tasks ==> d.tasks[id].runCount == c.tasks[id].runCount + more)
    && (id !in c.tasks && id in d.tasks ==> id == c.nextId && d.tasks[id].runCount == 0)
    && c.nextId <= d.nextId
  }

  lemma SectionCounts(x: Cal, act: CalAct, y: Cal, id: CalId)
    requires CalStep(x, act, y) && CoreFits(x.core) && (id in x.core.tasks ==> id < x.core.nextId)
    requires act.Insert? || act.Record? || act.Drop? || act.Remove? || act.RemoveAll? || act.GiveUp? || act.Rerecord? || act.Begin?
    ensures CountsUp(x.core, y.core, id, 0)
  {
  }

  lemma RunCounts(x: Cal, act: CalAct, y: Cal, id: CalId)
    requires CalStep(x, act, y) && (act.After? || act.Gone? || act.Throws?)
    ensures CountsUp(x.core, y.core, id, if Completes(x, act, id) then 1 else 0)
  {
  }

  lemma ManagerCounts(x: Cal, act: CalAct, y: Cal, id: CalId)
    requires CalStep(x, act, y) && (act.Plain? || act.StartOwn? || act.Return? || act.Escape?)
    ensures CountsUp(x.core, y.core, id, 0)
  {
  }

  lemma SubmitCounts(x: Cal, act: CalAct, y: Cal, id: CalId)
    requires CalStep(x, act, y) && (act.Post? || act.Replan?)
    ensures CountsUp(x.core, y.core, id, 0)
  {
    assert y.core == x.core || (act.Replan? && y.core == Erase(x.core, x.run.id));
  }

  lemma CountStep(x: Cal, act: CalAct, y: Cal, id: CalId)
    requires CalStep(x, act, y) && CoreFits(x.core) && (id in x.core.tasks ==> id < x.core.nextId)
    ensures CountsUp(x.core, y.core, id, if Completes(x, act, id) then 1 else 0)
  {
    if act.After? || act.Gone? || act.Throws? {
      RunCounts(x, act, y, id);
    } else if act.Plain? || act.StartOwn? || act.Return? || act.Escape? {
      ManagerCounts(x, act, y, id);
    } else if act.Post? || act.Replan? {
      SubmitCounts(x, act, y, id);
    } else {
      SectionCounts(x, act, y, id);
    }
  }

  lemma StepAtCounts(xs: seq<Cal>, acts: seq<CalAct>, i: nat, id: CalId)
    requires IsCalRun(xs, acts) && i < |acts|
    ensures CountsUp(xs[i].core, xs[i + 1].core, id, if Completes(xs[i], acts[i], id) then 1 else 0)
    ensures Completes(xs[i], acts[i], id) ==> id < xs[i].core.nextId
  {
    CalendarRuns.CalRunInv(xs, acts, i);
    assert CalStepAt(xs, acts, i);
    assert RuleFits(xs[i], id);
    CountStep(xs[i], acts[i], xs[i + 1], id);
  }

  lemma {:induction false} CountsFrom(xs: seq<Cal>, acts: seq<CalAct>, n: nat, id: CalId)
    requires IsCalRun(xs, acts) && xs[0] == START_CAL && n < |xs|
    ensures id in xs[n].core.tasks ==> xs[n].core.tasks[id].runCount == Completions(xs, acts, id, n)
    ensures id >= xs[n].core.nextId ==> Completions(xs, acts, id, n) == 0
  {
    if n == 0 {
    } else {
      CountsFrom(xs, acts, n - 1, id);
      StepAtCounts(xs, acts, n - 1, id);
    }
  }

  /** At every moment of every run, a rule's count is the number of its callbacks that have returned with
      the rule still there and not cancelled. */
  lemma RunsCounted(xs: seq<Cal>, acts: seq<CalAct>, n: nat, id: CalId)
    requires IsCalRun(xs, acts) && xs[0] == START_CAL && n < |xs| && id in xs[n].core.tasks
    ensures xs[n].core.tasks[id].runCount == Completions(xs, acts, id, n)
  {
    CountsFrom(xs, acts, n, id);
  }
}
