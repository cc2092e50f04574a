/** What each region can do to the state of one task. */
module TaskFate {
  import opened TaskTypes
  import opened TaskOps

  /** The one call that moves task `id`: it was live and is now cancelled, and the caller was told. */
  ghost predicate Cancels(op: Op, reply: Reply, id: TaskId, before: State) {
    || (op == OpCancel(id) && reply == Flag(true))
    || (op == OpCtxCancel(id) && reply == Flag(true) && before == Executing)
    || (op == OpClearPending && (before == QueuedReady || before == QueuedDelayed))
  }

  ghost predicate Same(s: Sched, t: Sched, id: TaskId) {
    id in s.ctl && id in t.ctl && t.ctl[id].state == s.ctl[id].state && t.ctl[id].periodic == s.ctl[id].periodic
  }

  ghost predicate Dies(s: Sched, t: Sched, id: TaskId) {
    id in s.ctl && Live(s.ctl[id].state) && HasState(t, id, Cancelled) && t.ctl[id].periodic == s.ctl[id].periodic
  }

  lemma {:induction false} ClearReadyFate(s: Sched, p: nat, id: TaskId)
    requires p < 3 && id in s.ctl
    ensures Same(s, ClearReady(s, p), id) || (HasState(s, id, QueuedReady) && Dies(s, ClearReady(s, p), id))
    decreases |s.ready[p]|
  {
    if s.ready[p] == [] {
    } else {
      ClearReadyFate(DropReady(s, p), p, id);
    }
  }

  lemma {:induction false} ClearDelayedFate(s: Sched, id: TaskId)
    requires id in s.ctl
    ensures Same(s, ClearDelayed(s), id) || (HasState(s, id, QueuedDelayed) && Dies(s, ClearDelayed(s), id))
    decreases |s.delayed|
  {
    if s.delayed == [] {
    } else {
      ClearDelayedFate(DropDelayed(s), id);
    }
  }

  lemma ClearFate(s: Sched, id: TaskId)
    requires id in s.ctl
    ensures var t := ClearPending(s);
      Same(s, t, id) || ((HasState(s, id, QueuedReady) || HasState(s, id, QueuedDelayed)) && Dies(s, t, id))
  {
    var s1 := ClearReady(s, 0);
    var s2 := ClearReady(s1, 1);
    var s3 := ClearReady(s2, 2);
    ClearReadyFate(s, 0, id);
    ClearReadyFate(s1, 1, id);
    ClearReadyFate(s2, 2, id);
    ClearDelayedFate(s3, id);
  }

  /** A call leaves a known task in its state, or cancels it and says so. */
  lemma ApplyFate(s: Sched, op: Op, id: TaskId)
    requires id in s.ctl && id != s.nextId
    ensures var (t, reply) := Apply(s, op);
      Same(s, t, id) || (Cancels(op, reply, id, s.ctl[id].state) && Dies(s, t, id))
  {
    if op.OpClearPending? {
      ClearFate(s, id);
    } else if op.OpNextDeadline? {
      PruneFrame(s);
    }
  }

  /** The converse: when cancel() answers true the task is cancelled. */
  lemma CancelTells(s: Sched, op: Op, id: TaskId)
    requires (op == OpCancel(id) || op == OpCtxCancel(id)) && Apply(s, op).1 == Flag(true)
    ensures id in s.ctl && Live(s.ctl[id].state) && HasState(Apply(s, op).0, id, Cancelled)
  {
  }

  // ---------- the consumer ----------

  lemma {:induction false} PromoteLoopFate(s: Sched, now: Time, id: TaskId)
    requires id in s.ctl
    ensures var t := PromoteLoop(s, now);
      Same(s, t, id) || (HasState(s, id, QueuedDelayed) && HasState(t, id, QueuedReady) && t.ctl[id].periodic == s.ctl[id].periodic)
    decreases |s.delayed|
  {
    if s.delayed == [] || s.delayed[0].due > now {
    } else {
      PruneShrinks(PromoteFront(s));
      PruneFrame(PromoteFront(s));
      PromoteLoopFate(Prune(PromoteFront(s)), now, id);
    }
  }

  lemma PromoteFate(s: Sched, now: Time, id: TaskId)
    requires id in s.ctl
    ensures var t := Promote(s, now);
      Same(s, t, id) || (HasState(s, id, QueuedDelayed) && HasState(t, id, QueuedReady) && t.ctl[id].periodic == s.ctl[id].periodic)
  {
    PruneFrame(s);
    PromoteLoopFate(Prune(s), now, id);
  }

  lemma {:induction false} TakeFromFate(s: Sched, p: nat, maxTasks: nat, id: TaskId)
    requires p < 3 && id in s.ctl
    ensures var t := TakeFrom(s, p, maxTasks);
      Same(s, t, id) || (HasState(s, id, QueuedReady) && HasState(t, id, ReadySnapshot) && t.ctl[id].periodic == s.ctl[id].periodic)
    decreases |s.ready[p]|
  {
    if s.ready[p] == [] || |s.batch| >= maxTasks {
    } else {
      TakeFromFate(TakeFront(s, p), p, maxTasks, id);
    }
  }

  lemma TakeFate(s: Sched, maxTasks: nat, id: TaskId)
    requires id in s.ctl
    ensures var t := Take(s, maxTasks);
      Same(s, t, id) || (HasState(s, id, QueuedReady) && HasState(t, id, ReadySnapshot) && t.ctl[id].periodic == s.ctl[id].periodic)
  {
    var s1 := TakeFrom(s, 0, maxTasks);
    var s2 := TakeFrom(s1, 1, maxTasks);
    TakeFromFate(s, 0, maxTasks, id);
    TakeFromFate(s1, 1, maxTasks, id);
    TakeFromFate(s2, 2, maxTasks, id);
  }

  lemma {:induction false} RestoreFate(s: Sched, id: TaskId)
    requires id in s.ctl
    ensures var t := Restore(s);
      Same(s, t, id) || (HasState(s, id, ReadySnapshot) && HasState(t, id, QueuedReady) && t.ctl[id].periodic == s.ctl[id].periodic)
    decreases |s.batch|
  {
    if s.batch == [] {
    } else {
      RestoreFate(RestoreBack(s), id);
    }
  }

  /** Finishing touches the running task only; a cancelled task stays cancelled. */
  lemma FinishFate(s: Sched, now: Time, lockedNow: Time, id: TaskId)
    requires s.running != [] && id in s.ctl
    ensures var t := FinishSuccess(s, now, lockedNow);
      Same(s, t, id) || (id == s.running[0].id && HasState(s, id, Executing) &&
        (HasState(t, id, Completed) || (!s.closed && (HasState(t, id, QueuedReady) || HasState(t, id, QueuedDelayed)))))
    ensures var t := FinishException(s);
      Same(s, t, id) || (id == s.running[0].id && HasState(s, id, Executing) && HasState(t, id, Completed))
  {
  }
}
