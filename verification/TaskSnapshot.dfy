/** Which tasks one call of process() starts. */
module TaskSnapshot {
  import opened TaskTypes
  import opened TaskOps
  import opened TaskInvariant
  import opened TaskSteps
  import TaskLive
  import TaskFate
  import opened TaskProcess

  function EntryIds(q: seq<Entry>): (r: seq<TaskId>)
    ensures |r| == |q| && forall i :: 0 <= i < |q| ==> r[i] == q[i].id
  {
    if q == [] then [] else [q[0].id] + EntryIds(q[1..])
  }

  /** The snapshot entries in the order the consumer reached them. */
  function Visited(log: seq<Event>): seq<TaskId> {
    if log == [] then []
    else match log[0]
      case Started(id) => [id] + Visited(log[1..])
      case Skipped(id) => [id] + Visited(log[1..])
      case Called(_, _) => Visited(log[1..])
  }

  /** The callbacks that ran, in order. */
  function Starts(log: seq<Event>): seq<TaskId> {
    if log == [] then []
    else match log[0]
      case Started(id) => [id] + Starts(log[1..])
      case Skipped(_) => Starts(log[1..])
      case Called(_, _) => Starts(log[1..])
  }

  lemma {:induction false} LogConcat(a: seq<Event>, b: seq<Event>)
    ensures Visited(a + b) == Visited(a) + Visited(b) && Starts(a + b) == Starts(a) + Starts(b)
  {
    if a == [] {
      assert a + b == b;
    } else {
      assert (a + b)[1..] == a[1..] + b;
      LogConcat(a[1..], b);
    }
  }

  lemma {:induction false} RunVisitsNothing(s: Sched, c: Callback, replies: seq<Reply>)
    ensures Visited(Run(s, c, replies).log) == [] && Starts(Run(s, c, replies).log) == []
    decreases c.maxCalls - |replies|
  {
    var move := c.next(replies);
    if !move.Call? || |replies| >= c.maxCalls {
    } else {
      RunVisitsNothing(Apply(s, move.op).0, c, replies + [Apply(s, move.op).1]);
    }
  }

  lemma StartedVisitsNothing(s: Sched, id: TaskId, program: Program, handler: Handler)
    requires s.running != []
    ensures var log := RunStarted(s, id, program, handler).log; Visited(log) == [] && Starts(log) == []
  {
    var body := Run(Decrement(s), program(id), []);
    RunVisitsNothing(Decrement(s), program(id), []);
    if body.threw && handler.Handler? {
      var u := FinishException(body.s);
      RunVisitsNothing(u, handler.handle(id), []);
      LogConcat(body.log, Run(u, handler.handle(id), []).log);
    }
  }

  /** The consumer visits its snapshot in order, all of it unless an exception escapes; then the
      last one visited is the one that threw, and it had been started. */
  ghost predicate VisitsInOrder(snapshot: seq<TaskId>, r: ProcessResult) {
    match r.outcome
    case Finished => Visited(r.log) == snapshot && r.processed == |Starts(r.log)|
    case Rethrown(id) =>
      && Visited(r.log) <= snapshot && Visited(r.log) != [] && Visited(r.log)[|Visited(r.log)| - 1] == id
      && Starts(r.log) != [] && Starts(r.log)[|Starts(r.log)| - 1] == id
  }

  lemma ThenVisits(snapshot: seq<TaskId>, r: ProcessResult, id: TaskId, head: seq<Event>, started: bool)
    requires VisitsInOrder(snapshot, r)
    requires Visited(head) == [id] && Starts(head) == if started then [id] else []
    ensures VisitsInOrder([id] + snapshot, r.(processed := r.processed + (if started then 1 else 0), log := head + r.log))
  {
    LogConcat(head, r.log);
  }

  lemma {:induction false} BatchVisits(s: Sched, program: Program, handler: Handler)
    requires s.running == []
    ensures VisitsInOrder(EntryIds(s.batch), RunBatch(s, program, handler))
    decreases |s.batch|
  {
    if s.batch == [] {
    } else {
      var id := s.batch[0].id;
      var (t, started) := Start(s);
      if !started {
        BatchVisits(t, program, handler);
        ThenVisits(EntryIds(t.batch), RunBatch(t, program, handler), id, [Skipped(id)], false);
      } else {
        var one := RunStarted(t, id, program, handler);
        StartedVisitsNothing(t, id, program, handler);
        LogConcat([Started(id)], one.log);
        if !one.threw {
          BatchVisits(one.s, program, handler);
          ThenVisits(EntryIds(one.s.batch), RunBatch(one.s, program, handler), id, [Started(id)] + one.log, true);
        }
      }
    }
  }

  /** The first `maxTasks` live waiting tasks, as they stand after promotion at entry. */
  function SnapshotIds(s: Sched, maxTasks: nat, now: Time): seq<TaskId> {
    var order := TaskLive.ReadyOrder(Promote(s, now));
    EntryIds(order[..TaskLive.Min(maxTasks, |order|)])
  }

  /** process(n) visits exactly the first n live tasks of high ++ normal ++ low as they stood after
      promotion at entry, in that order (a prefix of them on a throw); a task submitted or requeued
      during the call is not among them, and no task is visited twice. */
  lemma SnapshotRefinement(s: Sched, maxTasks: nat, now: Time, program: Program, handler: Handler)
    requires Inv(s, 0) && s.batch == [] && s.running == []
    ensures VisitsInOrder(SnapshotIds(s, maxTasks, now), Process(s, maxTasks, now, program, handler))
    ensures var ids := SnapshotIds(s, maxTasks, now); forall i, j :: 0 <= i < j < |ids| ==> ids[i] != ids[j]
  {
    var u := Promote(s, now);
    PromoteFrame(s, now);
    KeepsPromote(s, now, 0);
    TakeFrame(u, maxTasks);
    TaskLive.TakeResult(u, maxTasks, 0);
    KeepsTake(u, maxTasks, 0);
    var t := Take(u, maxTasks);
    assert t.batch == TaskLive.ReadyOrder(u)[..TaskLive.Min(maxTasks, |TaskLive.ReadyOrder(u)|)];
    BatchDistinct(t.batch, t.ctl, t.nextSeq);
    if maxTasks != 0 {
      BatchVisits(t, program, handler);
    }
  }

  lemma {:induction false} BatchDistinct(q: seq<Entry>, c: Controls, n: nat)
    requires QueueOk(q, c, n, ReadySnapshot)
    ensures forall i, j :: 0 <= i < j < |q| ==> q[i].id != q[j].id
    ensures forall i :: 0 <= i < |q| ==> q[i].id in Ids(q)
  {
    if q == [] {
    } else {
      BatchDistinct(q[1..], c, n);
    }
  }

  // ---------- skipped means cancelled ----------

  ghost predicate CancelledIn(log: seq<Event>, id: TaskId) {
    Called(OpCancel(id), Flag(true)) in log
  }

  /** A snapshot entry still waits for its turn, or was cancelled by a call recorded in `past`. */
  ghost predicate Accounted(s: Sched, q: seq<Entry>, past: seq<Event>) {
    forall e :: e in q ==> HasState(s, e.id, ReadySnapshot) || CancelledIn(past, e.id)
  }

  lemma {:induction false} RunAccounts(s: Sched, c: Callback, replies: seq<Reply>, id: TaskId)
    requires Inv(s, 0) && HasState(s, id, ReadySnapshot)
    ensures var r := Run(s, c, replies); HasState(r.s, id, ReadySnapshot) || CancelledIn(r.log, id)
    decreases c.maxCalls - |replies|
  {
    var move := c.next(replies);
    if !move.Call? || |replies| >= c.maxCalls {
    } else {
      var (t, reply) := Apply(s, move.op);
      assert TaskOk(s, id);
      TaskFate.ApplyFate(s, move.op, id);
      KeepsApply(s, move.op, 0);
      if TaskFate.Same(s, t, id) {
        RunAccounts(t, c, replies + [reply], id);
      }
    }
  }

  lemma StartedAccounts(s: Sched, program: Program, handler: Handler, id: TaskId)
    requires s.running != [] && Inv(s, if s.running[0].periodic then 0 else 1) && HasState(s, id, ReadySnapshot)
    ensures var r := RunStarted(s, s.running[0].id, program, handler); HasState(r.s, id, ReadySnapshot) || CancelledIn(r.log, id)
  {
    var c := program(s.running[0].id);
    var body := Run(Decrement(s), c, []);
    KeepsDecrement(s);
    KeepsRun(Decrement(s), c, []);
    RunAccounts(Decrement(s), c, [], id);
    if HasState(body.s, id, ReadySnapshot) {
      OnlyAtHome(body.s, id);
      TaskFate.FinishFate(body.s, c.finishNow, c.finishLockedNow, id);
      KeepsFinishException(body.s);
      if body.threw && handler.Handler? {
        RunAccounts(FinishException(body.s), handler.handle(s.running[0].id), [], id);
      }
    }
  }

  /** Every skip in the log comes after a call that cancelled that very task. */
  ghost predicate SkipsExplained(past: seq<Event>, log: seq<Event>) {
    forall i, id :: 0 <= i < |log| && log[i] == Skipped(id) ==> CancelledIn(past + log[..i], id)
  }

  lemma {:induction false} BatchSkips(s: Sched, program: Program, handler: Handler, past: seq<Event>)
    requires Inv(s, 0) && s.running == [] && Accounted(s, s.batch, past)
    ensures SkipsExplained(past, RunBatch(s, program, handler).log)
    decreases |s.batch|
  {
    if s.batch == [] {
    } else {
      var e := s.batch[0];
      var (t, started) := Start(s);
      KeepsStart(s);
      StartOthers(s, past);
      if !started {
        OneSkip(past, e.id);
        StillAccounted(t, past, [Skipped(e.id)]);
        BatchSkips(t, program, handler, past + [Skipped(e.id)]);
        Prefixed(past, [Skipped(e.id)], RunBatch(t, program, handler).log);
      } else {
        var one := RunStarted(t, e.id, program, handler);
        StartedSkipsNothing(t, e.id, program, handler, past);
        if !one.threw {
          KeepsRunStarted(t, e.id, program, handler);
          StartedAccountsAll(t, program, handler, past);
          BatchSkips(one.s, program, handler, past + ([Started(e.id)] + one.log));
          Prefixed(past, [Started(e.id)] + one.log, RunBatch(one.s, program, handler).log);
        }
      }
    }
  }

  lemma StillAccounted(s: Sched, past: seq<Event>, more: seq<Event>)
    requires Accounted(s, s.batch, past)
    ensures Accounted(s, s.batch, past + more)
  {
  }

  lemma StartedAccountsAll(s: Sched, program: Program, handler: Handler, past: seq<Event>)
    requires s.running != [] && Inv(s, if s.running[0].periodic then 0 else 1) && Accounted(s, s.batch, past)
    ensures var one := RunStarted(s, s.running[0].id, program, handler);
      Accounted(one.s, one.s.batch, past + ([Started(s.running[0].id)] + one.log))
  {
    var one := RunStarted(s, s.running[0].id, program, handler);
    forall x | x in s.batch
      ensures HasState(one.s, x.id, ReadySnapshot) || CancelledIn(past + ([Started(s.running[0].id)] + one.log), x.id)
    {
      if HasState(s, x.id, ReadySnapshot) {
        StartedAccounts(s, program, handler, x.id);
      }
    }
  }

  lemma StartOthers(s: Sched, past: seq<Event>)
    requires Inv(s, 0) && s.batch != [] && s.running == [] && Accounted(s, s.batch, past)
    ensures var (t, started) := Start(s);
      Accounted(t, t.batch, past) && (!started ==> CancelledIn(past, s.batch[0].id))
  {
    IdsInQueue(s.batch[1..]);
  }

  lemma {:induction false} IdsInQueue(q: seq<Entry>)
    ensures forall e :: e in q ==> e.id in Ids(q)
  {
    if q == [] {
    } else {
      IdsInQueue(q[1..]);
    }
  }

  lemma Prefixed(past: seq<Event>, head: seq<Event>, log: seq<Event>)
    requires SkipsExplained(past, head) && SkipsExplained(past + head, log)
    ensures SkipsExplained(past, head + log)
  {
    forall i, id | 0 <= i < |head + log| && (head + log)[i] == Skipped(id)
      ensures CancelledIn(past + (head + log)[..i], id)
    {
      if i < |head| {
        assert (head + log)[..i] == head[..i];
      } else {
        assert past + (head + log)[..i] == past + head + log[..i - |head|];
      }
    }
  }

  lemma {:induction false} RunSkipsNothing(s: Sched, c: Callback, replies: seq<Reply>)
    ensures forall x :: x in Run(s, c, replies).log ==> x.Called?
    decreases c.maxCalls - |replies|
  {
    var move := c.next(replies);
    if !move.Call? || |replies| >= c.maxCalls {
    } else {
      RunSkipsNothing(Apply(s, move.op).0, c, replies + [Apply(s, move.op).1]);
    }
  }

  lemma StartedSkipsNothing(s: Sched, id: TaskId, program: Program, handler: Handler, past: seq<Event>)
    requires s.running != []
    ensures SkipsExplained(past, [Started(id)] + RunStarted(s, id, program, handler).log)
  {
    var body := Run(Decrement(s), program(id), []);
    RunSkipsNothing(Decrement(s), program(id), []);
    if handler.Handler? {
      RunSkipsNothing(FinishException(body.s), handler.handle(id), []);
    }
    var log := RunStarted(s, id, program, handler).log;
    assert forall x :: x in log ==> x.Called?;
    assert forall i :: 1 <= i < |[Started(id)] + log| ==> ([Started(id)] + log)[i] in log;
  }

  lemma OneSkip(past: seq<Event>, id: TaskId)
    requires CancelledIn(past, id)
    ensures SkipsExplained(past, [Skipped(id)])
  {
    assert past + [Skipped(id)][..0] == past;
  }

  lemma {:induction false} TakeFromSnapshots(s: Sched, p: nat, maxTasks: nat)
    requires p < 3 && Accounted(s, s.batch, [])
    ensures Accounted(TakeFrom(s, p, maxTasks), TakeFrom(s, p, maxTasks).batch, [])
    decreases |s.ready[p]|
  {
    if s.ready[p] == [] || |s.batch| >= maxTasks {
    } else {
      TakeFromSnapshots(TakeFront(s, p), p, maxTasks);
    }
  }

  /** A snapshot task is not started only if a callback (or the handler) had cancelled it in this very
      call, before its turn, and had been told so. */
  lemma SkippedMeansCancelled(s: Sched, maxTasks: nat, now: Time, program: Program, handler: Handler)
    requires Inv(s, 0) && s.batch == [] && s.running == []
    ensures SkipsExplained([], Process(s, maxTasks, now, program, handler).log)
  {
    if maxTasks != 0 {
      var u := Promote(s, now);
      PromoteFrame(s, now);
      KeepsPromote(s, now, 0);
      TakeFrame(u, maxTasks);
      KeepsTake(u, maxTasks, 0);
      TakeFromSnapshots(u, 0, maxTasks);
      TakeFromSnapshots(TakeFrom(u, 0, maxTasks), 1, maxTasks);
      TakeFromSnapshots(TakeFrom(TakeFrom(u, 0, maxTasks), 1, maxTasks), 2, maxTasks);
      BatchSkips(Take(u, maxTasks), program, handler, []);
    }
  }

  // ---------- cancelled means skipped ----------

  /** A call recorded in `log` cancelled task `id` and was told so. */
  ghost predicate ToldCancelled(log: seq<Event>, id: TaskId) {
    CancelledIn(log, id) || Called(OpCtxCancel(id), Flag(true)) in log
  }

  ghost predicate Ended(s: Sched, id: TaskId) {
    id in s.ctl && !Live(s.ctl[id].state)
  }

  /** Whoever was told of a cancellation was told the truth, and nothing undoes it. */
  lemma {:induction false} RunEnds(s: Sched, c: Callback, replies: seq<Reply>, id: TaskId)
    requires Inv(s, 0)
    ensures var r := Run(s, c, replies); Ended(s, id) || ToldCancelled(r.log, id) ==> Ended(r.s, id)
    decreases c.maxCalls - |replies|
  {
    var move := c.next(replies);
    if !move.Call? || |replies| >= c.maxCalls {
    } else {
      var (t, reply) := Apply(s, move.op);
      KeepsApply(s, move.op, 0);
      RunUnfold(s, c, replies);
      RunEnds(t, c, replies + [reply], id);
      CallEnds(s, move.op, id);
      ToldFirst(Called(move.op, reply), Run(t, c, replies + [reply]).log, id);
    }
  }

  lemma CallEnds(s: Sched, op: Op, id: TaskId)
    requires Inv(s, 0)
    ensures var (t, reply) := Apply(s, op); Ended(s, id) || ToldCancelled([Called(op, reply)], id) ==> Ended(t, id)
  {
    assert TaskOk(s, id);
    var (t, reply) := Apply(s, op);
    if ToldCancelled([Called(op, reply)], id) {
      TaskFate.CancelTells(s, op, id);
    } else if id in s.ctl {
      TaskFate.ApplyFate(s, op, id);
    }
  }

  lemma ToldFirst(e: Event, log: seq<Event>, id: TaskId)
    ensures ToldCancelled([e] + log, id) <==> ToldCancelled([e], id) || ToldCancelled(log, id)
  {
  }

  lemma ToldBoth(a: seq<Event>, b: seq<Event>, id: TaskId)
    ensures ToldCancelled(a + b, id) <==> ToldCancelled(a, id) || ToldCancelled(b, id)
  {
  }

  lemma StartedEnds(s: Sched, program: Program, handler: Handler, id: TaskId)
    requires s.running != [] && Inv(s, if s.running[0].periodic then 0 else 1)
    ensures var r := RunStarted(s, s.running[0].id, program, handler); Ended(s, id) || ToldCancelled(r.log, id) ==> Ended(r.s, id)
  {
    var c := program(s.running[0].id);
    var body := Run(Decrement(s), c, []);
    KeepsDecrement(s);
    KeepsRun(Decrement(s), c, []);
    RunEnds(Decrement(s), c, [], id);
    KeepsFinishException(body.s);
    if id in body.s.ctl {
      TaskFate.FinishFate(body.s, c.finishNow, c.finishLockedNow, id);
    }
    if body.threw && handler.Handler? {
      var h := handler.handle(s.running[0].id);
      RunEnds(FinishException(body.s), h, [], id);
      ToldBoth(body.log, Run(FinishException(body.s), h, []).log, id);
    }
  }

  /** No start in the log comes after a call that cancelled that very task. */
  ghost predicate StartsAllowed(past: seq<Event>, log: seq<Event>) {
    forall i, id :: 0 <= i < |log| && log[i] == Started(id) ==> !ToldCancelled(past + log[..i], id)
  }

  /** What was cancelled stays cancelled. */
  ghost predicate AllEnded(s: Sched, past: seq<Event>) {
    forall id :: ToldCancelled(past, id) ==> Ended(s, id)
  }

  lemma StartPrefixed(past: seq<Event>, head: seq<Event>, log: seq<Event>)
    requires StartsAllowed(past, head) && StartsAllowed(past + head, log)
    ensures StartsAllowed(past, head + log)
  {
    forall i, id | 0 <= i < |head + log| && (head + log)[i] == Started(id)
      ensures !ToldCancelled(past + (head + log)[..i], id)
    {
      if i < |head| {
        assert (head + log)[..i] == head[..i];
      } else {
        assert past + (head + log)[..i] == past + head + log[..i - |head|];
      }
    }
  }

  lemma OneStart(past: seq<Event>, id: TaskId, log: seq<Event>)
    requires !ToldCancelled(past, id) && forall x :: x in log ==> x.Called?
    ensures StartsAllowed(past, [Started(id)] + log)
  {
    var all := [Started(id)] + log;
    assert past + all[..0] == past;
    assert forall i :: 1 <= i < |all| ==> all[i] in log;
  }

  lemma StartedCallsOnly(s: Sched, id: TaskId, program: Program, handler: Handler)
    requires s.running != []
    ensures forall x :: x in RunStarted(s, id, program, handler).log ==> x.Called?
  {
    var body := Run(Decrement(s), program(id), []);
    RunSkipsNothing(Decrement(s), program(id), []);
    if handler.Handler? {
      RunSkipsNothing(FinishException(body.s), handler.handle(id), []);
    }
  }

  lemma StartKeepsEnded(s: Sched, past: seq<Event>)
    requires s.batch != [] && AllEnded(s, past)
    ensures var (t, started) := Start(s); AllEnded(t, past) && (started ==> !ToldCancelled(past, s.batch[0].id))
  {
  }

  lemma StillEnded(s: Sched, past: seq<Event>, id: TaskId)
    requires AllEnded(s, past)
    ensures AllEnded(s, past + [Skipped(id)])
  {
    forall k | ToldCancelled(past + [Skipped(id)], k)
      ensures Ended(s, k)
    {
      ToldBoth(past, [Skipped(id)], k);
    }
  }

  lemma StartedKeepsEnded(s: Sched, program: Program, handler: Handler, past: seq<Event>)
    requires s.running != [] && Inv(s, if s.running[0].periodic then 0 else 1) && AllEnded(s, past)
    ensures var one := RunStarted(s, s.running[0].id, program, handler);
      AllEnded(one.s, past + ([Started(s.running[0].id)] + one.log))
  {
    var id := s.running[0].id;
    var one := RunStarted(s, id, program, handler);
    forall k | ToldCancelled(past + ([Started(id)] + one.log), k)
      ensures Ended(one.s, k)
    {
      ToldBoth(past, [Started(id)] + one.log, k);
      ToldFirst(Started(id), one.log, k);
      StartedEnds(s, program, handler, k);
    }
  }

  lemma {:induction false} BatchStarts(s: Sched, program: Program, handler: Handler, past: seq<Event>)
    requires Inv(s, 0) && s.running == [] && AllEnded(s, past)
    ensures StartsAllowed(past, RunBatch(s, program, handler).log)
    decreases |s.batch|
  {
    if s.batch == [] {
    } else {
      var id := s.batch[0].id;
      var (t, started) := Start(s);
      KeepsStart(s);
      StartKeepsEnded(s, past);
      if !started {
        StillEnded(t, past, id);
        BatchStarts(t, program, handler, past + [Skipped(id)]);
        StartPrefixed(past, [Skipped(id)], RunBatch(t, program, handler).log);
      } else {
        var one := RunStarted(t, id, program, handler);
        StartedCallsOnly(t, id, program, handler);
        OneStart(past, id, one.log);
        if !one.threw {
          KeepsRunStarted(t, id, program, handler);
          StartedKeepsEnded(t, program, handler, past);
          BatchStarts(one.s, program, handler, past + ([Started(id)] + one.log));
          StartPrefixed(past, [Started(id)] + one.log, RunBatch(one.s, program, handler).log);
        }
      }
    }
  }

  /** Once a callback (or the handler) has cancelled a task in this very call, and has been told so, the
      call does not start it. */
  lemma CancelledMeansSkipped(s: Sched, maxTasks: nat, now: Time, program: Program, handler: Handler)
    requires Inv(s, 0) && s.batch == [] && s.running == []
    ensures StartsAllowed([], Process(s, maxTasks, now, program, handler).log)
  {
    if maxTasks != 0 {
      var u := Promote(s, now);
      PromoteFrame(s, now);
      KeepsPromote(s, now, 0);
      TakeFrame(u, maxTasks);
      KeepsTake(u, maxTasks, 0);
      BatchStarts(Take(u, maxTasks), program, handler, []);
    }
  }

  /** Of the snapshot, exactly those tasks are started that nobody cancelled before their turn. */
  lemma StartedIffNotCancelled(s: Sched, maxTasks: nat, now: Time, program: Program, handler: Handler, i: nat, id: TaskId)
    requires Inv(s, 0) && s.batch == [] && s.running == []
    requires var log := Process(s, maxTasks, now, program, handler).log;
      i < |log| && (log[i] == Started(id) || log[i] == Skipped(id))
    ensures var log := Process(s, maxTasks, now, program, handler).log;
      log[i] == Started(id) <==> !CancelledIn(log[..i], id)
  {
    SkippedMeansCancelled(s, maxTasks, now, program, handler);
    CancelledMeansSkipped(s, maxTasks, now, program, handler);
    var log := Process(s, maxTasks, now, program, handler).log;
    assert [] + log[..i] == log[..i];
  }
}
