/** What every call of the manager answers, and what it changes, told from the states of the tasks. */
module TaskAnswers {
  import opened TaskTypes
  import opened TaskOps
  import opened TaskInvariant
  import TaskFate
  import TaskLedger
  import TaskSteps
  import opened TaskWorld

  // ---------- submissions and requests ----------

  /** context.reschedule_at() answers true exactly for a task whose callback is running, and has not been
      cancelled, in an open manager; a request that is refused changes nothing. */
  lemma RescheduleAnswers(s: Sched, owed: nat, id: TaskId, due: Time)
    requires Inv(s, owed)
    ensures var (t, reply) := Apply(s, OpCtxReschedule(id, due));
      && reply == Flag(!s.closed && HasState(s, id, Executing))
      && (reply == Flag(false) ==> t == s)
  {
    assert TaskOk(s, id);
  }

  /** A submission is refused, with id 0 and no effect, exactly if it has no callable, the manager is closed
      or the interval is not positive. Otherwise its id is new, and the task waits in a deque exactly if it
      may start at once. */
  lemma SubmissionAnswers(s: Sched, owed: nat, op: Op)
    requires Inv(s, owed) && Posts(op)
    ensures var (t, reply) := Apply(s, op);
      if !op.callable || s.closed || (op.OpPostEvery? && op.interval <= 0) then reply == Id(0) && t == s
      else
        && reply.Id? && reply.id != 0 && reply.id !in s.ctl && reply.id !in s.index && reply.id in t.index
        && HasState(t, reply.id, if MayStart(op) then QueuedReady else QueuedDelayed)
        && (forall id :: id in s.ctl ==> id in t.ctl && t.ctl[id] == s.ctl[id])
  {
    assert TaskOk(s, s.nextId);
  }

  /** The time of the submission has come when it is accepted. */
  predicate MayStart(op: Op)
    requires Posts(op)
  {
    match op
    case OpPost(_, _) => true
    case OpPostAt(_, due, _, now) => due <= now
    case OpPostEvery(_, delay, _, _, _, now, lockedNow) => now <= lockedNow && (delay <= 0 || now + delay <= lockedNow)
  }

  // ---------- clear_pending ----------

  predicate Queued(c: Control) {
    c.state == QueuedReady || c.state == QueuedDelayed
  }

  ghost function QueuedTasks(c: Controls): set<TaskId> {
    set id | id in c && Queued(c[id])
  }

  lemma {:induction false} ClearReadyEmpties(s: Sched, p: nat, q: nat)
    requires p < 3 && q < 3
    ensures var t := ClearReady(s, p);
      t.ready[p] == [] && (q != p ==> t.ready[q] == s.ready[q]) && t.delayed == s.delayed
    decreases |s.ready[p]|
  {
    if s.ready[p] == [] {
    } else {
      ClearReadyEmpties(DropReady(s, p), p, q);
    }
  }

  lemma {:induction false} ClearDelayedEmpties(s: Sched)
    ensures ClearDelayed(s).delayed == [] && ClearDelayed(s).ready == s.ready
    decreases |s.delayed|
  {
    if s.delayed == [] {
    } else {
      ClearDelayedEmpties(DropDelayed(s));
    }
  }

  lemma ClearEmpties(s: Sched)
    ensures var t := ClearPending(s); t.delayed == [] && t.ready[0] == [] && t.ready[1] == [] && t.ready[2] == []
  {
    var s1 := ClearReady(s, 0);
    var s2 := ClearReady(s1, 1);
    var s3 := ClearReady(s2, 2);
    ClearReadyEmpties(s, 0, 0);
    ClearReadyEmpties(s1, 1, 0);
    ClearReadyEmpties(s2, 2, 0);
    ClearReadyEmpties(s2, 2, 1);
    ClearDelayedEmpties(s3);
  }

  /** clear_pending() cancels every task that is queued, ready or delayed, and takes it out of the index. It
      leaves every other task as it is, and pending_count() goes down by the number of those it cancels. */
  lemma ClearCancelsQueued(s: Sched, owed: nat)
    requires Inv(s, owed)
    ensures var t := Apply(s, OpClearPending).0;
      && t.ctl.Keys == s.ctl.Keys && QueuedTasks(t.ctl) == {} && t.readyCount == 0
      && (forall id :: id in s.ctl ==> t.ctl[id].state == if Queued(s.ctl[id]) then Cancelled else s.ctl[id].state)
      && (forall id :: id in t.index <==> id in s.index && !(id in s.ctl && Queued(s.ctl[id])))
      && t.pendingCount == s.pendingCount - |QueuedTasks(s.ctl)|
  {
    var t := ClearPending(s);
    TaskSteps.KeepsClear(s, owed);
    TaskLedger.ClearKeys(s);
    forall id: TaskId
      ensures id in s.ctl ==> t.ctl[id].state == if Queued(s.ctl[id]) then Cancelled else s.ctl[id].state
      ensures id in s.ctl ==> t.ctl[id].periodic == s.ctl[id].periodic
      ensures id in t.index <==> id in s.index && !(id in s.ctl && Queued(s.ctl[id]))
    {
      ClearOne(s, t, id, owed);
    }
    assert WaitingIds(t.ctl) == {};
    PendingLoses(s.ctl, t.ctl);
  }

  lemma ClearOne(s: Sched, t: Sched, id: TaskId, owed: nat)
    requires Inv(s, owed) && Inv(t, owed) && t == ClearPending(s)
    ensures id in s.ctl ==> id in t.ctl && t.ctl[id].state == if Queued(s.ctl[id]) then Cancelled else s.ctl[id].state
    ensures id in s.ctl ==> t.ctl[id].periodic == s.ctl[id].periodic
    ensures id in t.index <==> id in s.index && !(id in s.ctl && Queued(s.ctl[id]))
  {
    assert TaskOk(s, id) && TaskOk(t, id);
    ClearEmpties(s);
    TaskLedger.ClearKeys(s);
    ClearRunning(s);
    OnlyAtHome(s, id);
    if id in s.ctl {
      TaskFate.ClearFate(s, id);
    }
  }

  lemma {:induction false} ClearReadyRunning(s: Sched, p: nat)
    requires p < 3
    ensures ClearReady(s, p).running == s.running
    decreases |s.ready[p]|
  {
    if s.ready[p] == [] {
    } else {
      ClearReadyRunning(DropReady(s, p), p);
    }
  }

  lemma {:induction false} ClearDelayedRunning(s: Sched)
    ensures ClearDelayed(s).running == s.running
    decreases |s.delayed|
  {
    if s.delayed == [] {
    } else {
      ClearDelayedRunning(DropDelayed(s));
    }
  }

  lemma ClearRunning(s: Sched)
    ensures ClearPending(s).running == s.running
  {
    var s1 := ClearReady(s, 0);
    var s2 := ClearReady(s1, 1);
    ClearReadyRunning(s, 0);
    ClearReadyRunning(s1, 1);
    ClearReadyRunning(s2, 2);
    ClearDelayedRunning(ClearReady(s2, 2));
  }

  lemma PendingLoses(c: Controls, d: Controls)
    requires d.Keys == c.Keys
    requires forall id :: id in c ==> d[id].periodic == c[id].periodic && d[id].state == if Queued(c[id]) then Cancelled else c[id].state
    ensures |PendingIds(d)| == |PendingIds(c)| - |QueuedTasks(c)|
  {
    forall id
      ensures id in PendingIds(c) <==> id in PendingIds(d) + QueuedTasks(c)
      ensures !(id in PendingIds(d) && id in QueuedTasks(c))
    {
    }
    DisjointSum(PendingIds(d), QueuedTasks(c), PendingIds(c));
  }

  lemma DisjointSum(a: set<TaskId>, b: set<TaskId>, c: set<TaskId>)
    requires a !! b && c == a + b
    ensures |c| == |a| + |b|
  {
  }

  // ---------- close ----------

  lemma {:induction false} ClosedForGood(ws: seq<World>, acts: seq<Action>, i: nat, j: nat)
    requires IsRun(ws, acts) && i <= j < |ws| && ws[i].s.closed
    ensures ws[j].s.closed
    decreases j
  {
    if i == j {
    } else {
      ClosedForGood(ws, acts, i, j - 1);
      TaskLedger.RunStep(ws, acts, j - 1);
      TaskLedger.ClosedStep(ws[j - 1], acts[j - 1], ws[j]);
    }
  }

  /** From the call of close() on the manager stays closed, in every run. Every later submission is refused
      with id 0, every later reschedule request is refused, and both change nothing. */
  lemma CloseRefuses(ws: seq<World>, acts: seq<Action>, i: nat, j: nat)
    requires IsRun(ws, acts) && i < j < |ws| && acts[i] == Request(OpClose)
    ensures Apply(ws[j].s, OpIsClosed).1 == Flag(true)
    ensures forall op :: Posts(op) ==> Apply(ws[j].s, op) == (ws[j].s, Id(0))
    ensures forall id, due :: Apply(ws[j].s, OpCtxReschedule(id, due)) == (ws[j].s, Flag(false))
  {
    assert StepAt(ws, acts, i);
    ClosedForGood(ws, acts, i + 1, j);
  }

  /** close() itself changes nothing else. */
  lemma CloseOnly(s: Sched)
    ensures var t := Apply(s, OpClose).0;
      && t.closed && t.ready == s.ready && t.delayed == s.delayed && t.batch == s.batch && t.running == s.running
      && t.ctl == s.ctl && t.index == s.index && t.readyCount == s.readyCount && t.pendingCount == s.pendingCount
      && t.nextId == s.nextId && t.nextSeq == s.nextSeq
  {
  }

  // ---------- questions and cancellations ----------

  /** The task waits, in a queue or in the snapshot, or is periodic and its callback is running. */
  predicate Waiting(c: Control) {
    Queued(c) || c.state == ReadySnapshot || (c.state == Executing && c.periodic)
  }

  /** The questions answer from the tasks and change nothing. */
  lemma QuestionsAnswer(s: Sched, owed: nat, id: TaskId)
    requires Inv(s, owed)
    ensures Apply(s, OpIsClosed) == (s, Flag(s.closed))
    ensures Apply(s, OpReadyCount) == (s, Count(|set k | k in s.ctl && s.ctl[k].state == QueuedReady|))
    ensures Apply(s, OpPendingCount) == (s, Count(owed + |set k | k in s.ctl && Waiting(s.ctl[k])|))
    ensures Apply(s, OpCtxIsCancelled(id)) == (s, Flag(HasState(s, id, Cancelled) && s.running != [] && s.running[0].id == id))
  {
    assert TaskOk(s, id);
    assert WaitingIds(s.ctl) == set k | k in s.ctl && s.ctl[k].state == QueuedReady;
    assert PendingIds(s.ctl) == set k | k in s.ctl && Waiting(s.ctl[k]);
  }

  /** A cancellation answers true exactly for a task that it can still stop: cancel() for one that
      pending_count() counts, context.cancel() for the running one. The
      task is then cancelled and will not be queued again; no other task is touched, and after a false
      answer nothing is. */
  lemma CancellationsAnswer(s: Sched, owed: nat, op: Op)
    requires Inv(s, owed) && (op.OpCancel? || op.OpCtxCancel?)
    ensures var (t, reply) := Apply(s, op); var id := op.id;
      && reply == Flag(id in s.ctl && if op.OpCancel? then Waiting(s.ctl[id]) else s.ctl[id].state == Executing)
      && (reply == Flag(false) ==> t == s)
      && (reply == Flag(true) ==>
            HasState(t, id, Cancelled) && t.ctl == s.ctl[id := t.ctl[id]] && (id in t.index <==> s.ctl[id].state == Executing))
  {
    assert TaskOk(s, op.id);
  }
}
