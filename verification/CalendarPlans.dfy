/** Which time a rule is planned for next: when it is added, and after each run of its callback. */
module CalendarPlans {
  import opened TaskTypes
  import opened CalendarScan
  import opened CalendarRules

  datatype MissedPolicy = SkipMissed | RunOnceImmediately

  datatype OverlapPolicy = SkipOverdue | QueueOneAfterCurrent

  datatype Plan = Plan(planned: int, immediate: bool)

  /** The next plan, if any, and the time reported to the observer as missed, if any. */
  datatype Decision = Decision(plan: Option<Plan>, missed: Option<int>)

  /** first_planned_due. */
  function FirstPlan(q: Search, lastDue: Option<int>, now: int, policy: MissedPolicy): Decision {
    if lastDue.None? then Decision(Future(q, now), None)
    else
      var missed := NextTime(q, lastDue.value);
      if missed.None? then Decision(None, None)
      else if missed.value > now then Decision(Some(Plan(missed.value, false)), None)
      else if policy == RunOnceImmediately then Decision(Some(Plan(missed.value, true)), missed)
      else Decision(Future(q, now), missed)
  }

  function Future(q: Search, now: int): Option<Plan> {
    var future := NextTime(q, now);
    if future.None? then None else Some(Plan(future.value, future.value <= now))
  }

  /** schedule_after_run. A rule with no plan is completed. */
  function PlanAfterRun(q: Search, previous: int, now: int, policy: OverlapPolicy): Decision {
    var next := NextTime(q, previous);
    if next.None? then Decision(None, None)
    else if next.value > now then Decision(Some(Plan(next.value, false)), None)
    else if policy == QueueOneAfterCurrent then Decision(Some(Plan(next.value, true)), next)
    else Decision(Future(q, now), next)
  }

  function Max(a: int, b: int): int {
    if a < b then b else a
  }

  ghost predicate SomeMissed(q: Search, previous: int, now: int) {
    exists v :: Occurs(q, v) && previous < v <= now
  }

  /** The same, as far as the search looks. */
  ghost predicate SeenMissed(q: Search, previous: int, now: int) {
    exists d, k: nat, v :: Within(q, previous, d, k, v) && v <= now
  }

  /** What a decision has to be after `previous`, at `now`; `catchUp` is the policy that runs one
      missed time. */
  ghost predicate GoodDecision(q: Search, previous: int, now: int, catchUp: bool, d: Decision) {
    && (d.plan.Some? ==>
          && previous < d.plan.value.planned
          && IsLeastAfter(q, if catchUp then previous else Max(previous, now), d.plan.value.planned)
          && (d.plan.value.immediate <==> d.plan.value.planned <= now))
    && (d.missed.Some? ==> IsLeastAfter(q, previous, d.missed.value) && d.missed.value <= now)
    && (d.missed.Some? <==> SeenMissed(q, previous, now))
    && (NextTime(q, previous).Some? ==> (d.missed.Some? <==> SomeMissed(q, previous, now)))
  }

  /** Where the search finds anything, it sees a missed time exactly when there is one. */
  lemma SeenIsSome(q: Search, previous: int, now: int)
    requires Sound(q) && NextTime(q, previous).Some?
    ensures SeenMissed(q, previous, now) <==> NextTime(q, previous).value <= now
    ensures SomeMissed(q, previous, now) <==> NextTime(q, previous).value <= now
  {
    NextTimeFinds(q, previous);
    NextTimeIsLeast(q, previous);
    var u := NextTime(q, previous).value;
    var d, k: nat :| Within(q, previous, d, k, u);
    if SeenMissed(q, previous, now) {
      var d', k': nat, v :| Within(q, previous, d', k', v) && v <= now;
      assert Occurs(q, v);
    }
  }

  lemma DecisionSound(q: Search, previous: int, now: int, catchUp: bool, d: Decision)
    requires Sound(q)
    requires var next := NextTime(q, previous);
      d == if next.None? then Decision(None, None)
           else if next.value > now then Decision(Some(Plan(next.value, false)), None)
           else if catchUp then Decision(Some(Plan(next.value, true)), next)
           else Decision(Future(q, now), next)
    ensures GoodDecision(q, previous, now, catchUp, d)
  {
    NextTimeFinds(q, previous);
    if NextTime(q, previous).Some? {
      NextTimeIsLeast(q, previous);
      SeenIsSome(q, previous, now);
    }
    if NextTime(q, now).Some? {
      NextTimeIsLeast(q, now);
    }
  }

  /** After a run the new plan comes strictly after the previous one. Under the skip policy it is the
      least occurrence after both the previous plan and the present; under the queue-one policy the
      least after the previous plan. A time is reported missed exactly when one lies between them. */
  lemma AfterRunSound(q: Search, previous: int, now: int, policy: OverlapPolicy)
    requires Sound(q)
    ensures GoodDecision(q, previous, now, policy == QueueOneAfterCurrent, PlanAfterRun(q, previous, now, policy))
  {
    DecisionSound(q, previous, now, policy == QueueOneAfterCurrent, PlanAfterRun(q, previous, now, policy));
  }

  /** The same for a rule that is added with a persisted last time; without one, the first plan is the
      least occurrence after the present. */
  lemma FirstSound(q: Search, lastDue: Option<int>, now: int, policy: MissedPolicy)
    requires Sound(q)
    ensures var d := FirstPlan(q, lastDue, now, policy);
      if lastDue.Some? then GoodDecision(q, lastDue.value, now, policy == RunOnceImmediately, d)
      else d.missed.None? && (d.plan.Some? ==> IsLeastAfter(q, now, d.plan.value.planned) && !d.plan.value.immediate)
  {
    if lastDue.Some? {
      DecisionSound(q, lastDue.value, now, policy == RunOnceImmediately, FirstPlan(q, lastDue, now, policy));
    } else if NextTime(q, now).Some? {
      NextTimeIsLeast(q, now);
    }
  }

  /** With a fixed offset, or across one change of offset of less than a day, "missed" is reported
      exactly when an occurrence lies between the previous time and the present. */
  lemma MissedExactly(q: Search, previous: int, now: int, overlap: OverlapPolicy, policy: MissedPolicy)
    requires AlwaysFinds(q)
    ensures PlanAfterRun(q, previous, now, overlap).missed.Some? <==> SomeMissed(q, previous, now)
    ensures FirstPlan(q, Some(previous), now, policy).missed.Some? <==> SomeMissed(q, previous, now)
  {
    FindsSound(q);
    assert NextTime(q, previous).Some?;
    AfterRunSound(q, previous, now, overlap);
    FirstSound(q, Some(previous), now, policy);
  }

  /** An accepted rule in a zone with a fixed offset, or with one change of offset of less than a day. */
  ghost predicate AlwaysFinds(q: Search) {
    exists rule :: Accepted(rule) && TamelyZoned(q, rule)
  }

  ghost predicate TamelyZoned(q: Search, rule: Rule) {
    || (exists offset :: q == SearchOf(FixedOffset(offset), rule))
    || (exists t, before, late :: -MS_PER_DAY < late - before < MS_PER_DAY && q == SearchOf(Changing(t, before, late), rule))
  }

  lemma FindsSound(q: Search)
    requires AlwaysFinds(q)
    ensures Sound(q) && forall after :: NextTime(q, after).Some?
  {
    var rule :| Accepted(rule) && TamelyZoned(q, rule);
    if offset :| q == SearchOf(FixedOffset(offset), rule) {
      FixedOffsetLawful(offset);
      AcceptedSound(FixedOffset(offset), rule);
      forall after: int
        ensures NextTime(q, after).Some?
      {
        FixedOffsetSuffices(offset, rule, after);
      }
    } else {
      var t, before, late :| -MS_PER_DAY < late - before < MS_PER_DAY && q == SearchOf(Changing(t, before, late), rule);
      ChangingLawful(t, before, late);
      AcceptedSound(Changing(t, before, late), rule);
      forall after: int
        ensures NextTime(q, after).Some?
      {
        ChangeSuffices(t, before, late, rule, after);
      }
    }
  }

  /** Such a rule is never without a next plan. */
  lemma AlwaysPlans(q: Search, lastDue: Option<int>, previous: int, now: int, overlap: OverlapPolicy, policy: MissedPolicy)
    requires AlwaysFinds(q)
    ensures PlanAfterRun(q, previous, now, overlap).plan.Some? && FirstPlan(q, lastDue, now, policy).plan.Some?
  {
    FindsSound(q);
    assert NextTime(q, previous).Some? && NextTime(q, now).Some?;
    if lastDue.Some? {
      assert NextTime(q, lastDue.value).Some?;
    }
  }
}
