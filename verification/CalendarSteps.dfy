/** Every step of every thread keeps a CalendarScheduler and its TaskManager in agreement. */
module CalendarSteps {
  import opened TaskTypes
  import opened TaskOps
  import TaskInvariant
  import TaskSteps
  import TaskProcess
  import opened TaskWorld
  import opened TaskLedger
  import CalendarPlans
  import opened CalendarCore

  // ---------- what the manager's own steps do to a task of the scheduler ----------

  /** Task `t` waits if and only if it did, and stays one-shot with no reschedule request. */
  ghost predicate Untouched(s: Sched, s': Sched, t: TaskId) {
    t in s.ctl ==>
      && t in s'.ctl && (Waits(s', t) <==> Waits(s, t)) && s'.ctl[t].periodic == s.ctl[t].periodic
      && (!s.ctl[t].rescheduleRequested ==> !s'.ctl[t].rescheduleRequested)
  }

  lemma PruneUntouched(s: Sched, t: TaskId)
    ensures Untouched(s, Prune(s), t)
  {
    PruneFrame(s);
  }

  lemma {:induction false} PromoteLoopUntouched(s: Sched, now: Time, t: TaskId)
    ensures Untouched(s, PromoteLoop(s, now), t)
    decreases |s.delayed|
  {
    if s.delayed == [] || s.delayed[0].due > now {
    } else {
      PruneShrinks(PromoteFront(s));
      PruneUntouched(PromoteFront(s), t);
      PromoteLoopUntouched(Prune(PromoteFront(s)), now, t);
    }
  }

  lemma {:induction false} TakeFromUntouched(s: Sched, p: nat, maxTasks: nat, t: TaskId)
    requires p < 3
    ensures Untouched(s, TakeFrom(s, p, maxTasks), t)
    decreases |s.ready[p]|
  {
    if s.ready[p] == [] || |s.batch| >= maxTasks {
    } else {
      TakeFromUntouched(TakeFront(s, p), p, maxTasks, t);
    }
  }

  lemma EnterUntouched(s: Sched, now: Time, maxTasks: nat, t: TaskId)
    ensures Untouched(s, Take(Promote(s, now), maxTasks), t)
  {
    var u := Promote(s, now);
    PruneUntouched(s, t);
    PromoteLoopUntouched(Prune(s), now, t);
    TakeFromUntouched(u, 0, maxTasks, t);
    TakeFromUntouched(TakeFrom(u, 0, maxTasks), 1, maxTasks, t);
    TakeFromUntouched(TakeFrom(TakeFrom(u, 0, maxTasks), 1, maxTasks), 2, maxTasks, t);
  }

  lemma {:induction false} RestoreUntouched(s: Sched, t: TaskId)
    ensures Untouched(s, Restore(s), t)
    decreases |s.batch|
  {
    if s.batch == [] {
    } else {
      RestoreUntouched(RestoreBack(s), t);
    }
  }

  lemma RequestUntouched(s: Sched, op: Op, t: TaskId)
    requires !op.OpClearPending? && (op.OpCancel? || op.OpCtxReschedule? ==> op.id != t) && (t in s.ctl ==> t != s.nextId)
    ensures Untouched(s, Apply(s, op).0, t)
  {
    if op.OpNextDeadline? {
      PruneUntouched(s, t);
    }
  }

  lemma FinishUntouched(s: Sched, now: Time, lockedNow: Time, t: TaskId)
    requires s.running != [] && t != Front(s)
    ensures Untouched(s, FinishSuccess(s, now, lockedNow), t) && Untouched(s, FinishException(s), t)
  {
  }

  /** A one-shot task that asked for nothing is over when its callback is. */
  lemma FrontOver(s: Sched, now: Time, locked: Time)
    requires s.running != [] && (HasState(s, Front(s), Executing) || HasState(s, Front(s), Cancelled))
    requires !s.running[0].periodic && !s.ctl[Front(s)].rescheduleRequested
    ensures Untouched(s, FinishSuccess(s, now, locked), Front(s)) && Untouched(s, FinishException(s), Front(s))
    ensures FinishSuccess(s, now, locked).running == [] && FinishException(s).running == []
  {
  }

  lemma FinishOwn(s: Sched, now: Time, locked: Time, t: TaskId)
    requires TaskInvariant.QueuesOk(s) && s.running != [] && Front(s) in s.ctl && !s.ctl[Front(s)].periodic && !s.ctl[Front(s)].rescheduleRequested
    ensures Untouched(s, FinishSuccess(s, now, locked), t) && Untouched(s, FinishException(s), t)
    ensures FinishSuccess(s, now, locked).running == [] && FinishException(s).running == []
  {
    TaskInvariant.OnlyAtHome(s, Front(s));
    FrontOver(s, now, locked);
    if t != Front(s) {
      FinishUntouched(s, now, locked, t);
    }
  }

  /** A task that is being cancelled may stop waiting; nothing else may change for it. */
  ghost predicate Spared(s: Sched, s': Sched, t: TaskId, doomed: bool) {
    t in s.ctl ==>
      && t in s'.ctl && s'.ctl[t].periodic == s.ctl[t].periodic
      && (!s.ctl[t].rescheduleRequested ==> !s'.ctl[t].rescheduleRequested)
      && (Waits(s', t) ==> Waits(s, t)) && (!doomed && Waits(s, t) ==> Waits(s', t))
  }

  lemma SmallSpared(x: Cal, a: Action, y: Cal, t: TaskId)
    requires PlainStep(x, a, y) && t in x.owner
    requires a.Cas? || a.Decrease? || a.Handled? || a.Leaving? || a.Load? || a.TryCancel?
    ensures Spared(x.w.s, y.w.s, t, t in x.removing)
  {
  }

  lemma PlainSpared(x: Cal, a: Action, y: Cal, t: TaskId)
    requires WorldInv(x.w) && RunFits(x) && PlainStep(x, a, y) && t in x.owner
    ensures Spared(x.w.s, y.w.s, t, t in x.removing)
  {
    assert TaskInvariant.TaskOk(x.w.s, t);
    match a
    case Enter(n, now) => EnterUntouched(x.w.s, now, n, t);
    case GiveBack => RestoreUntouched(x.w.s, t);
    case Request(op) => RequestUntouched(x.w.s, op, t);
    case Finish(now, locked) => FinishUntouched(x.w.s, now, locked, t);
    case Throw => FinishUntouched(x.w.s, 0, 0, t);
    case _ => SmallSpared(x, a, y, t);
  }

  /** While a callback runs, no other step touches the running slot. */
  lemma PlainRunning(w: World, a: Action, w': World)
    requires WorldInv(w) && Step(w, a, w') && !a.Finish? && !a.Throw? && w.s.running != []
    ensures w'.s.running == w.s.running && (w'.phase == w.phase || a.Decrease?) && (w.phase.InCallback? ==> w'.phase.InCallback?)
    ensures w.phase.Owing? ==> w'.phase.Owing? || w'.phase.InCallback?
  {
    match a
    case Request(op) => TaskProcess.ApplyFrame(w.s, op);
    case TryCancel => CancelFrame(w.s, w.mutex.id, w.mutex.observed);
    case _ =>
  }

  /** A task that is not the scheduler's comes into the running slot, or leaves it. */
  lemma PlainIdle(x: Cal, a: Action, y: Cal)
    requires WorldInv(x.w) && RunFits(x) && PlainStep(x, a, y) && x.run.NoRun?
    ensures y.w.s.running != [] ==> Front(y.w.s) !in x.owner
  {
    match a
    case Enter(n, now) =>
      TaskProcess.PromoteFrame(x.w.s, now);
      TaskProcess.TakeFrame(Promote(x.w.s, now), n);
    case Finish(now, locked) => TaskSteps.KeepsFinishSuccess(x.w.s, now, locked);
    case Throw => TaskSteps.KeepsFinishException(x.w.s);
    case GiveBack => TaskProcess.RestoreFrame(x.w.s);
    case Request(op) => TaskProcess.ApplyFrame(x.w.s, op);
    case TryCancel => CancelFrame(x.w.s, x.w.mutex.id, x.w.mutex.observed);
    case _ =>
  }

  lemma PlainRun(x: Cal, a: Action, y: Cal)
    requires CalInv(x) && PlainStep(x, a, y)
    ensures RunFits(y)
    ensures x.run.NoRun? || y.w.s.running == x.w.s.running
  {
    if x.run.NoRun? {
      PlainIdle(x, a, y);
    } else {
      PlainRunning(x.w, a, y.w);
      PlainSpared(x, a, y, Front(x.w.s));
      assert TaskFits(x, Front(x.w.s));
      if x.run.Ending? {
        EndingSpared(x, a, y);
      }
    }
  }

  lemma EndingSpared(x: Cal, a: Action, y: Cal)
    requires CalInv(x) && PlainStep(x, a, y) && x.run.Ending?
    ensures x.run.id in x.core.tasks ==> Waits(y.w.s, x.run.t)
  {
    assert NewestFits(x, x.run.id);
    PlainSpared(x, a, y, x.run.t);
    assert TaskFits(x, x.run.t) && RemovingFits(x, x.run.t);
  }

  // ---------- steps that change the manager only ----------

  /** What a step of the manager does to what the scheduler knows about its task `t`. */
  ghost predicate Calm(x: Cal, y: Cal, t: TaskId) {
    && Spared(x.w.s, y.w.s, t, t in x.removing || StartingTask(y, t))
    && (Unstarted(y, t) ==> Unstarted(x, t)) && (t !in x.removing && Unstarted(x, t) ==> Unstarted(y, t))
  }

  /** Everything but the manager, the consumer's place and finished cancellations stays. */
  ghost predicate ManagerOnly(x: Cal, y: Cal) {
    && y == x.(w := y.w, removing := y.removing, run := y.run) && y.removing <= x.removing
    && (forall t :: t in x.owner ==> Calm(x, y, t))
    && (forall t :: t in x.removing && t !in y.removing ==> !Waits(y.w.s, t))
    && (forall id :: RunsRule(y, id) <==> RunsRule(x, id)) && (x.run.Ending? || y.run.Ending? ==> y.run == x.run)
  }

  lemma ManagerTask(x: Cal, y: Cal, t: TaskId)
    requires Fits(x) && ManagerOnly(x, y)
    ensures TaskFits(y, t) && RemovingFits(y, t)
  {
    assert TaskFits(x, t) && RemovingFits(x, t);
    if t in x.owner {
      assert Calm(x, y, t);
    }
  }

  lemma ManagerRule(x: Cal, y: Cal, id: CalId)
    requires Fits(x) && ManagerOnly(x, y)
    ensures RuleFits(y, id) && AddingFits(y, id) && NewestFits(y, id)
  {
    assert RuleFits(x, id) && AddingFits(x, id) && NewestFits(x, id) && (RunsRule(y, id) <==> RunsRule(x, id));
    if id in x.adding && x.adding[id].Posted? {
      var t := x.adding[id].t;
      assert Calm(x, y, t) && RemovingFits(x, t);
    }
    if id in x.newest {
      var t := x.newest[id];
      assert Calm(x, y, t) && RemovingFits(x, t);
    }
  }

  lemma ManagerFits(x: Cal, y: Cal)
    requires Fits(x) && ManagerOnly(x, y) && RunFits(y)
    ensures Fits(y)
  {
    forall t: TaskId
      ensures TaskFits(y, t) && RemovingFits(y, t)
    {
      ManagerTask(x, y, t);
    }
    forall id: CalId
      ensures RuleFits(y, id) && AddingFits(y, id) && NewestFits(y, id)
    {
      ManagerRule(x, y, id);
    }
  }

  lemma SameStarting(x: Cal, y: Cal, t: TaskId)
    requires y.run == x.run && (x.run.Starting? ==> y.w.s.running == x.w.s.running) && t in x.w.s.ctl
    requires Spared(x.w.s, y.w.s, t, t in x.removing)
    ensures Calm(x, y, t)
  {
  }

  /** A cancellation that has run its course leaves no waiting task, whether or not it won. */
  lemma CancelSettles(x: Cal, y: Cal)
    requires WorldInv(x.w) && PlainStep(x, TryCancel, y) && TaskFits(x, x.w.mutex.id)
    ensures x.w.mutex.id in x.owner ==> !Waits(y.w.s, x.w.mutex.id)
  {
  }

  lemma PlainOnly(x: Cal, a: Action, y: Cal)
    requires CalInv(x) && PlainStep(x, a, y) && (x.run.NoRun? || y.w.s.running == x.w.s.running)
    ensures ManagerOnly(x, y)
  {
    forall t | t in x.owner
      ensures Calm(x, y, t)
    {
      assert TaskFits(x, t);
      PlainSpared(x, a, y, t);
      SameStarting(x, y, t);
    }
    if a.TryCancel? {
      assert TaskFits(x, x.w.mutex.id);
      CancelSettles(x, y);
      assert forall t :: t in x.removing ==> RemovingFits(x, t);
    }
  }

  lemma PlainKeeps(x: Cal, a: Action, y: Cal)
    requires CalInv(x) && PlainStep(x, a, y)
    ensures CalInv(y)
  {
    StepKeeps(x.w, a, y.w);
    PlainRun(x, a, y);
    PlainOnly(x, a, y);
    ManagerFits(x, y);
  }

  lemma StartRun(x: Cal, y: Cal)
    requires CalInv(x) && StartStep(x, y)
    ensures ManagerOnly(x, y) && RunFits(y)
  {
    forall t | t in x.owner
      ensures Calm(x, y, t)
    {
    }
  }

  lemma StartKeeps(x: Cal, y: Cal)
    requires CalInv(x) && StartStep(x, y)
    ensures CalInv(y)
  {
    StepKeeps(x.w, Cas, y.w);
    StartRun(x, y);
    ManagerFits(x, y);
  }

  /** The manager takes back the scheduler's task: whatever else is queued stays. */
  ghost predicate Leaves(x: Cal, y: Cal) {
    exists now, locked :: ReturnStep(x, now, locked, y) || EscapeStep(x, y)
  }

  lemma LeaveCalm(x: Cal, y: Cal, t: TaskId)
    requires TaskInvariant.QueuesOk(x.w.s) && !x.run.NoRun? && RunFits(x) && TaskFits(x, Front(x.w.s)) && TaskFits(x, t)
    requires Leaves(x, y) && t in x.owner
    ensures Calm(x, y, t) && y.w.s.running == []
  {
    var now, locked :| ReturnStep(x, now, locked, y) || EscapeStep(x, y);
    FinishOwn(x.w.s, now, locked, t);
  }

  lemma LeaveFits(x: Cal, y: Cal)
    requires WorldInv(x.w) && Fits(x) && Leaves(x, y)
    ensures Fits(y)
  {
    var now, locked :| ReturnStep(x, now, locked, y) || EscapeStep(x, y);
    assert TaskFits(x, Front(x.w.s));
    LeaveCalm(x, y, Front(x.w.s));
    forall t | t in x.owner
      ensures Calm(x, y, t)
    {
      assert TaskFits(x, t);
      LeaveCalm(x, y, t);
    }
    ManagerFits(x, y);
  }

  lemma LeaveKeeps(x: Cal, y: Cal)
    requires CalInv(x) && Leaves(x, y)
    ensures CalInv(y)
  {
    var now, locked :| ReturnStep(x, now, locked, y) || EscapeStep(x, y);
    if ReturnStep(x, now, locked, y) {
      StepKeeps(x.w, Finish(now, locked), y.w);
    } else {
      StepKeeps(x.w, Throw, y.w);
    }
    LeaveFits(x, y);
  }

  // ---------- sections under the scheduler's mutex ----------

  lemma InsertTask(x: Cal, o: Options, y: Cal, t: TaskId)
    requires Fits(x) && InsertStep(x, o, y)
    ensures TaskFits(y, t) && RemovingFits(y, t)
  {
    assert TaskFits(x, t) && RemovingFits(x, t);
  }

  lemma InsertOne(x: Cal, o: Options, y: Cal, id: CalId)
    requires Fits(x) && InsertStep(x, o, y)
    ensures RuleFits(y, id) && AddingFits(y, id) && NewestFits(y, id)
  {
    assert RuleFits(x, id) && AddingFits(x, id) && NewestFits(x, id);
  }

  lemma InsertRun(x: Cal, o: Options, y: Cal)
    requires Fits(x) && InsertStep(x, o, y)
    ensures RunFits(y) && CoreFits(y.core)
  {
    assert NewestFits(x, x.core.nextId);
  }

  lemma InsertFits(x: Cal, o: Options, y: Cal)
    requires Fits(x) && InsertStep(x, o, y)
    ensures Fits(y)
  {
    InsertRun(x, o, y);
    forall t: TaskId
      ensures TaskFits(y, t) && RemovingFits(y, t)
    {
      InsertTask(x, o, y, t);
    }
    forall id: CalId
      ensures RuleFits(y, id) && AddingFits(y, id) && NewestFits(y, id)
    {
      InsertOne(x, o, y, id);
    }
  }

  // ---------- rules leave the map ----------

  ghost predicate ErasesRule(x: Cal, y: Cal, id: CalId) {
    && (id in y.core.tasks ==> id in x.core.tasks && y.core.tasks[id] == x.core.tasks[id])
    && (id in y.adding ==> id in x.adding && y.adding[id] == x.adding[id])
    && (id in x.adding && id !in y.adding ==> id !in y.core.tasks && !x.adding[id].Posted?)
    && (id in x.core.tasks && id !in y.core.tasks && id !in x.raced ==>
          x.core.tasks[id].taskId == 0 || x.core.tasks[id].taskId in y.removing)
  }

  ghost predicate ErasesTask(x: Cal, y: Cal, t: TaskId) {
    && (t in x.removing ==> t in y.removing)
    && (t in y.removing ==> t in x.removing || (t in x.owner && x.owner[t] !in y.core.tasks))
  }

  /** One rule, or every rule, leaves the map; its task is cancelled next. */
  ghost predicate Erases(x: Cal, y: Cal) {
    && y == x.(w := y.w, core := y.core, adding := y.adding, removing := y.removing, run := y.run)
    && y.w.s == x.w.s && y.w.phase == x.w.phase
    && y.core.nextId == x.core.nextId && (y.core.closed ==> y.core.tasks == map[])
    && (forall id :: ErasesRule(x, y, id)) && (forall t :: ErasesTask(x, y, t))
    && (y.run == x.run
        || ((x.run.Running? || x.run.Planning?) && (y.run.Ended? || y.run.Failing?) && x.run.id !in y.core.tasks))
  }

  lemma EraseTask(x: Cal, y: Cal, t: TaskId)
    requires Fits(x) && Erases(x, y)
    ensures TaskFits(y, t) && RemovingFits(y, t)
  {
    assert TaskFits(x, t) && RemovingFits(x, t) && ErasesTask(x, y, t);
    if t in x.owner {
      var id := x.owner[t];
      assert RuleFits(x, id) && AddingFits(x, id) && ErasesRule(x, y, id);
      if id in x.adding && x.adding[id].Posted? {
        assert TaskFits(x, x.adding[id].t);
      }
    }
  }

  lemma EraseRule(x: Cal, y: Cal, id: CalId)
    requires Fits(x) && Erases(x, y)
    ensures RuleFits(y, id) && AddingFits(y, id) && NewestFits(y, id)
  {
    assert RuleFits(x, id) && AddingFits(x, id) && NewestFits(x, id) && ErasesRule(x, y, id);
  }

  lemma EraseRun(x: Cal, y: Cal)
    requires RunFits(x) && Erases(x, y)
    ensures RunFits(y)
  {
    if x.run.Ending? {
      assert ErasesRule(x, y, x.run.id);
    }
  }

  lemma EraseFits(x: Cal, y: Cal)
    requires Fits(x) && Erases(x, y)
    ensures Fits(y)
  {
    EraseRun(x, y);
    forall t: TaskId
      ensures TaskFits(y, t) && RemovingFits(y, t)
    {
      EraseTask(x, y, t);
    }
    forall id: CalId
      ensures RuleFits(y, id) && AddingFits(y, id) && NewestFits(y, id)
    {
      EraseRule(x, y, id);
    }
  }

  lemma DropErases(x: Cal, id: CalId, y: Cal)
    requires Fits(x) && DropStep(x, id, y)
    ensures Erases(x, y)
  {
    assert RuleFits(x, id);
  }

  lemma RemoveErases(x: Cal, id: CalId, y: Cal)
    requires Fits(x) && RemoveStep(x, id, y)
    ensures Erases(x, y)
  {
    assert RuleFits(x, id);
  }

  lemma RemoveAllErases(x: Cal, close: bool, y: Cal)
    requires Fits(x) && RemoveAllStep(x, close, y)
    ensures Erases(x, y)
  {
    forall t
      ensures ErasesTask(x, y, t)
    {
      if t in AllTaskIds(x.core) {
        var id :| id in x.core.tasks && x.core.tasks[id].taskId == t && t != 0;
        assert RuleFits(x, id);
      }
    }
  }

  /** The consumer gives up on a rule: its callback threw, it was cancelled, or it has no next time. */
  lemma RunErases(x: Cal, y: Cal)
    requires Fits(x) && (x.run.Running? || x.run.Planning?) && (y.run.Ended? || y.run.Failing?) && SameManager(x.w, y.w)
    requires y == x.(w := y.w, core := Erase(x.core, x.run.id), run := y.run)
    ensures Erases(x, y)
  {
    assert RuleFits(x, x.run.id);
  }

  predicate SameManager(w: World, w': World) {
    w'.s == w.s && w'.phase == w.phase
  }

  // ---------- a task is submitted ----------

  /** The manager has taken in a new waiting task `t`, and nothing else is different. */
  ghost predicate Admits(w: World, w': World, t: TaskId) {
    && t == w.s.nextId && t != 0 && t !in w.s.ctl && w'.phase == w.phase
    && w'.s.running == w.s.running && (w.s.running != [] ==> Front(w.s) != t)
    && t in w'.s.ctl && w'.s.ctl == w.s.ctl[t := w'.s.ctl[t]]
    && Waits(w'.s, t) && !w'.s.ctl[t].periodic && !w'.s.ctl[t].rescheduleRequested
  }

  lemma SubmitOutcome(w: World, w': World, due: Time, priority: int, locked: Time)
    requires WorldInv(w) && Submits(w, w', due, priority, locked)
    ensures WorldInv(w')
    ensures if Accepted(w, w') then Admits(w, w', w.s.nextId) else SameManager(w, w') && w.s.closed
  {
    StepKeeps(w, Request(OpPostAt(true, due, priority, locked)), w');
    assert TaskInvariant.TaskOk(w.s, w.s.nextId);
  }

  /** Task `t` is the new one of rule `id`, which had none waiting. */
  ghost predicate Submitted(x: Cal, y: Cal, id: CalId, t: TaskId) {
    && y == x.(w := y.w, owner := x.owner[t := id], plans := y.plans, newest := x.newest[id := t],
            adding := y.adding, run := y.run)
    && Admits(x.w, y.w, t) && 0 < id < x.core.nextId && id in x.options
    && (forall k :: k in x.owner && Unstarted(x, k) ==> x.owner[k] != id)
    && (y.run == x.run || (x.run.Planning? && y.run.Ending?)) && (InFlight(y, id, t) || (y.run.Ending? && y.run.id == id && y.run.t == t))
    && (forall k, u :: InFlight(x, k, u) ==> InFlight(y, k, u))
  }

  lemma SubmittedTask(x: Cal, y: Cal, id: CalId, t: TaskId, k: TaskId)
    requires Fits(x) && Submitted(x, y, id, t)
    ensures TaskFits(y, k) && RemovingFits(y, k)
  {
    assert TaskFits(x, k) && RemovingFits(x, k) && TaskFits(x, t);
  }

  ghost predicate PostedTask(x: Cal, id: CalId, t: TaskId, planned: int, y: Cal) {
    y == x.(w := y.w, owner := x.owner[t := id], plans := x.plans[t := planned], newest := x.newest[id := t],
            adding := x.adding[id := Posted(t, planned)])
  }

  ghost predicate ReplannedTask(x: Cal, t: TaskId, planned: int, y: Cal)
    requires x.run.Planning?
  {
    var id := x.run.id;
    y == x.(w := y.w, owner := x.owner[t := id], plans := x.plans[t := planned], newest := x.newest[id := t],
            run := Ending(id, t, planned))
  }

  lemma PostSubmits(x: Cal, id: CalId, t: TaskId, planned: int, y: Cal)
    requires Fits(x) && id in x.adding && x.adding[id].Inserted? && Admits(x.w, y.w, t)
    requires PostedTask(x, id, t, planned, y)
    ensures Submitted(x, y, id, t)
  {
    assert AddingFits(x, id);
    forall k | k in x.owner && Unstarted(x, k)
      ensures x.owner[k] != id
    {
      assert TaskFits(x, k);
    }
  }

  lemma PostRule(x: Cal, id: CalId, t: TaskId, planned: int, y: Cal, k: CalId)
    requires Fits(x) && id in x.adding && x.adding[id].Inserted? && Admits(x.w, y.w, t) && t !in x.owner
    requires PostedTask(x, id, t, planned, y)
    ensures RuleFits(y, k) && AddingFits(y, k) && NewestFits(y, k)
  {
    assert RuleFits(x, k) && AddingFits(x, k) && NewestFits(x, k);
  }

  lemma PostRun(x: Cal, id: CalId, t: TaskId, planned: int, y: Cal)
    requires Fits(x) && id in x.adding && x.adding[id].Inserted? && Admits(x.w, y.w, t) && t !in x.owner
    requires PostedTask(x, id, t, planned, y)
    ensures RunFits(y)
  {
    assert AddingFits(x, id);
    if !x.run.NoRun? {
      assert TaskFits(x, Front(x.w.s));
    }
  }

  lemma PostFits(x: Cal, id: CalId, t: TaskId, planned: int, y: Cal)
    requires Fits(x) && id in x.adding && x.adding[id].Inserted? && Admits(x.w, y.w, t)
    requires PostedTask(x, id, t, planned, y)
    ensures Fits(y)
  {
    assert TaskFits(x, t);
    PostSubmits(x, id, t, planned, y);
    PostRun(x, id, t, planned, y);
    forall k: TaskId
      ensures TaskFits(y, k) && RemovingFits(y, k)
    {
      SubmittedTask(x, y, id, t, k);
    }
    forall k: CalId
      ensures RuleFits(y, k) && AddingFits(y, k) && NewestFits(y, k)
    {
      PostRule(x, id, t, planned, y, k);
    }
  }

  /** add_rule gives up: the rule has no time, or the manager is closed. */
  lemma DoomRule(x: Cal, id: CalId, y: Cal, k: CalId)
    requires Fits(x) && id in x.adding && x.adding[id].Inserted? && SameManager(x.w, y.w)
    requires y == x.(w := y.w, adding := x.adding[id := Doomed])
    ensures RuleFits(y, k) && AddingFits(y, k) && NewestFits(y, k)
  {
    assert RuleFits(x, k) && AddingFits(x, k) && NewestFits(x, k);
  }

  lemma DoomFits(x: Cal, id: CalId, y: Cal)
    requires Fits(x) && id in x.adding && x.adding[id].Inserted? && SameManager(x.w, y.w)
    requires y == x.(w := y.w, adding := x.adding[id := Doomed])
    ensures Fits(y)
  {
    forall t: TaskId
      ensures TaskFits(y, t) && RemovingFits(y, t)
    {
      assert TaskFits(x, t) && RemovingFits(x, t);
    }
    forall k: CalId
      ensures RuleFits(y, k) && AddingFits(y, k) && NewestFits(y, k)
    {
      DoomRule(x, id, y, k);
    }
  }

  lemma PostKeeps(x: Cal, id: CalId, observed: int, steady: Time, locked: Time, y: Cal)
    requires CalInv(x) && PostStep(x, id, observed, steady, locked, y)
    ensures CalInv(y)
  {
    var o := x.options[id];
    var plan := CalendarPlans.FirstPlan(o.search, o.lastDue, observed, o.missed).plan;
    if plan.None? {
      DoomFits(x, id, y);
    } else {
      SubmitOutcome(x.w, y.w, Due(plan.value, observed, steady), o.priority, locked);
      if Accepted(x.w, y.w) {
        PostFits(x, id, x.w.s.nextId, plan.value.planned, y);
      } else {
        DoomFits(x, id, y);
      }
    }
  }

  lemma ReplanSubmits(x: Cal, t: TaskId, planned: int, y: Cal)
    requires Fits(x) && x.run.Planning? && Admits(x.w, y.w, t)
    requires ReplannedTask(x, t, planned, y)
    ensures Submitted(x, y, x.run.id, t)
  {
    assert TaskFits(x, Front(x.w.s));
    forall k | k in x.owner && Unstarted(x, k)
      ensures x.owner[k] != x.run.id
    {
      assert TaskFits(x, k);
    }
  }

  lemma ReplanRule(x: Cal, t: TaskId, planned: int, y: Cal, k: CalId)
    requires Fits(x) && x.run.Planning? && Admits(x.w, y.w, t) && t !in x.owner
    requires ReplannedTask(x, t, planned, y)
    ensures RuleFits(y, k) && AddingFits(y, k) && NewestFits(y, k)
  {
    assert RuleFits(x, k) && AddingFits(x, k) && NewestFits(x, k);
    assert TaskFits(x, Front(x.w.s));
  }

  lemma ReplanFits(x: Cal, t: TaskId, planned: int, y: Cal)
    requires Fits(x) && x.run.Planning? && Admits(x.w, y.w, t)
    requires ReplannedTask(x, t, planned, y)
    ensures Fits(y)
  {
    assert TaskFits(x, t);
    ReplanSubmits(x, t, planned, y);
    assert TaskFits(x, Front(x.w.s));
    assert RunFits(y);
    forall k: TaskId
      ensures TaskFits(y, k) && RemovingFits(y, k)
    {
      SubmittedTask(x, y, x.run.id, t, k);
    }
    forall k: CalId
      ensures RuleFits(y, k) && AddingFits(y, k) && NewestFits(y, k)
    {
      ReplanRule(x, t, planned, y, k);
    }
  }

  lemma ReplanKeeps(x: Cal, steady: Time, locked: Time, y: Cal)
    requires CalInv(x) && ReplanStep(x, steady, locked, y)
    ensures CalInv(y)
  {
    var (o, id) := (x.options[x.run.id], x.run.id);
    var plan := CalendarPlans.PlanAfterRun(o.search, x.run.previous, x.run.observed, o.overlap).plan;
    if plan.Some? {
      SubmitOutcome(x.w, y.w, Due(plan.value, x.run.observed, steady), o.priority, locked);
    }
    if plan.Some? && Accepted(x.w, y.w) {
      ReplanFits(x, x.w.s.nextId, plan.value.planned, y);
    } else {
      RunErases(x, y);
      EraseFits(x, y);
    }
  }

  // ---------- a task is recorded, or begins ----------

  lemma RecordOne(x: Cal, id: CalId, y: Cal, k: CalId)
    requires Fits(x) && RecordStep(x, id, y)
    ensures RuleFits(y, k) && AddingFits(y, k) && NewestFits(y, k)
  {
    assert RuleFits(x, k) && AddingFits(x, k) && NewestFits(x, k);
    assert TaskFits(x, x.adding[id].t);
  }

  lemma RecordFits(x: Cal, id: CalId, y: Cal)
    requires Fits(x) && RecordStep(x, id, y)
    ensures Fits(y)
  {
    assert AddingFits(x, id);
    forall t: TaskId
      ensures TaskFits(y, t) && RemovingFits(y, t)
    {
      assert TaskFits(x, t) && RemovingFits(x, t);
    }
    forall k: CalId
      ensures RuleFits(y, k) && AddingFits(y, k) && NewestFits(y, k)
    {
      RecordOne(x, id, y, k);
    }
  }

  lemma RerecordOne(x: Cal, y: Cal, k: CalId)
    requires Fits(x) && RerecordStep(x, y)
    ensures RuleFits(y, k) && AddingFits(y, k) && NewestFits(y, k)
  {
    assert RuleFits(x, k) && AddingFits(x, k) && NewestFits(x, k);
    assert NewestFits(x, x.run.id) && TaskFits(x, x.run.t);
  }

  lemma RerecordFits(x: Cal, y: Cal)
    requires Fits(x) && RerecordStep(x, y)
    ensures Fits(y)
  {
    assert NewestFits(x, x.run.id) && TaskFits(x, x.run.t);
    forall t: TaskId
      ensures TaskFits(y, t) && RemovingFits(y, t)
    {
      assert TaskFits(x, t) && RemovingFits(x, t);
    }
    forall k: CalId
      ensures RuleFits(y, k) && AddingFits(y, k) && NewestFits(y, k)
    {
      RerecordOne(x, y, k);
    }
  }

  lemma BeginOne(x: Cal, y: Cal, k: CalId)
    requires Fits(x) && BeginStep(x, y)
    ensures RuleFits(y, k) && AddingFits(y, k) && NewestFits(y, k)
  {
    assert RuleFits(x, k) && AddingFits(x, k) && NewestFits(x, k);
    assert TaskFits(x, Front(x.w.s));
    if k in x.adding && x.adding[k].Posted? {
      assert TaskFits(x, x.adding[k].t);
    }
  }

  lemma BeginFits(x: Cal, y: Cal)
    requires Fits(x) && BeginStep(x, y)
    ensures Fits(y)
  {
    assert TaskFits(x, Front(x.w.s));
    forall t: TaskId
      ensures TaskFits(y, t) && RemovingFits(y, t)
    {
      assert TaskFits(x, t) && RemovingFits(x, t);
    }
    forall k: CalId
      ensures RuleFits(y, k) && AddingFits(y, k) && NewestFits(y, k)
    {
      BeginOne(x, y, k);
    }
  }

  lemma CountFits(x: Cal, observed: int, y: Cal)
    requires Fits(x) && x.run.Running? && x.run.id in x.core.tasks
    requires y == x.(core := CountRun(x.core, x.run.id), run := Planning(x.run.id, x.run.previous, x.run.known, observed))
    ensures Fits(y)
  {
    forall t: TaskId
      ensures TaskFits(y, t) && RemovingFits(y, t)
    {
      assert TaskFits(x, t) && RemovingFits(x, t);
    }
    forall k: CalId
      ensures RuleFits(y, k) && AddingFits(y, k) && NewestFits(y, k)
    {
      assert RuleFits(x, k) && AddingFits(x, k) && NewestFits(x, k);
    }
  }

  lemma GiveUpFits(x: Cal, t: TaskId, y: Cal)
    requires WorldInv(x.w) && Fits(x) && GiveUpStep(x, t, y)
    ensures Fits(y)
  {
    assert TaskInvariant.TaskOk(x.w.s, t) && RemovingFits(x, t) && TaskFits(x, t);
    ManagerFits(x, y);
  }

  // ---------- every step ----------

  lemma SectionKeeps(x: Cal, act: CalAct, y: Cal)
    requires CalInv(x) && CalStep(x, act, y)
    requires act.Insert? || act.Record? || act.Drop? || act.Remove? || act.RemoveAll? || act.GiveUp?
    ensures CalInv(y)
  {
    match act
    case Insert(o) => InsertFits(x, o, y);
    case Record(id) => RecordFits(x, id, y);
    case Drop(id) =>
      DropErases(x, id, y);
      EraseFits(x, y);
    case Remove(id) =>
      RemoveErases(x, id, y);
      EraseFits(x, y);
    case RemoveAll(close) =>
      RemoveAllErases(x, close, y);
      EraseFits(x, y);
    case GiveUp(t) => GiveUpFits(x, t, y);
  }

  lemma RunKeeps(x: Cal, act: CalAct, y: Cal)
    requires CalInv(x) && CalStep(x, act, y) && (act.Begin? || act.After? || act.Gone? || act.Rerecord? || act.Throws?)
    ensures CalInv(y)
  {
    match act
    case Begin => BeginFits(x, y);
    case After(observed) =>
      if y.run.Ended? {
        RunErases(x, y);
        EraseFits(x, y);
      } else {
        CountFits(x, observed, y);
      }
    case Gone =>
      assert Erase(x.core, x.run.id).tasks == x.core.tasks;
      RunErases(x, y);
      EraseFits(x, y);
    case Rerecord => RerecordFits(x, y);
    case Throws =>
      RunErases(x, y);
      EraseFits(x, y);
  }

  lemma ManagerKeeps(x: Cal, act: CalAct, y: Cal)
    requires CalInv(x) && CalStep(x, act, y) && (act.Plain? || act.StartOwn? || act.Return? || act.Escape?)
    ensures CalInv(y)
  {
    match act
    case Plain(a) => PlainKeeps(x, a, y);
    case StartOwn => StartKeeps(x, y);
    case Return(now, locked) =>
      assert ReturnStep(x, now, locked, y);
      LeaveKeeps(x, y);
    case Escape =>
      assert ReturnStep(x, 0, 0, y) || EscapeStep(x, y);
      LeaveKeeps(x, y);
  }

  lemma SubmitKeeps(x: Cal, act: CalAct, y: Cal)
    requires CalInv(x) && CalStep(x, act, y) && (act.Post? || act.Replan?)
    ensures CalInv(y)
  {
    match act
    case Post(id, observed, steady, locked) => PostKeeps(x, id, observed, steady, locked, y);
    case Replan(steady, locked) => ReplanKeeps(x, steady, locked, y);
  }

  /** Every step of every thread, with the manager's own steps and user code in between, keeps rules
      and tasks in agreement. */
  lemma CalStepKeeps(x: Cal, act: CalAct, y: Cal)
    requires CalInv(x) && CalStep(x, act, y)
    ensures CalInv(y)
  {
    if act.Plain? || act.StartOwn? || act.Return? || act.Escape? {
      ManagerKeeps(x, act, y);
    } else if act.Post? || act.Replan? {
      SubmitKeeps(x, act, y);
    } else if act.Begin? || act.After? || act.Gone? || act.Rerecord? || act.Throws? {
      RunKeeps(x, act, y);
    } else {
      SectionKeeps(x, act, y);
    }
  }
}
