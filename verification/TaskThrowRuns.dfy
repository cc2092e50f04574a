/** Throw equivalence over whole calls of process(), on top of the relation of module TaskThrow. */
module TaskThrowRuns {
  import opened TaskTypes
  import opened TaskOps
  import opened TaskInvariant
  import opened TaskSteps
  import opened TaskLive
  import opened TaskProcess
  import opened TaskSnapshot
  import opened TaskThrow

  // ---------- user code ----------

  ghost predicate DiscreetCallback(c: Callback) {
    forall replies :: c.next(replies).Call? ==> Discreet(c.next(replies).op)
  }

  /** No callback, and no handler, clears the queues or asks for the ready count. */
  ghost predicate DiscreetCode(program: Program, handler: Handler) {
    && (forall id :: DiscreetCallback(program(id)))
    && (handler.Handler? ==> forall id :: DiscreetCallback(handler.handle(id)))
  }

  /** The two results look the same from outside, and leave the runs related. */
  ghost predicate SimResult(x: RunResult, y: RunResult, tail: seq<Entry>) {
    x.log == y.log && x.threw == y.threw && Sim(x.s, y.s, tail)
  }

  lemma {:induction false} SimRun(a: Sched, b: Sched, tail: seq<Entry>, c: Callback, replies: seq<Reply>)
    requires Inv(a, 0) && Inv(b, 0) && Sim(a, b, tail) && DiscreetCallback(c)
    ensures SimResult(Run(a, c, replies), Run(b, c, replies), tail)
    decreases c.maxCalls - |replies|
  {
    var move := c.next(replies);
    if move.Call? && |replies| < c.maxCalls {
      var (a', reply) := Apply(a, move.op);
      var (b', reply') := Apply(b, move.op);
      SimApply(a, b, tail, move.op);
      KeepsApply(a, move.op, 0);
      KeepsApply(b, move.op, 0);
      SimRun(a', b', tail, c, replies + [reply]);
      RunUnfold(a, c, replies);
      RunUnfold(b, c, replies);
      SimLonger(Run(a', c, replies + [reply]), Run(b', c, replies + [reply]), tail, [Called(move.op, reply)]);
    } else {
      RunEnd(a, c, replies);
      RunEnd(b, c, replies);
    }
  }

  lemma SimLonger(x: RunResult, y: RunResult, tail: seq<Entry>, head: seq<Event>)
    requires SimResult(x, y, tail)
    ensures SimResult(x.(log := head + x.log), y.(log := head + y.log), tail)
  {
  }

  // ---------- the consumer ----------

  lemma SimStart(a: Sched, b: Sched, tail: seq<Entry>)
    requires Inv(a, 0) && Sim(a, b, tail) && b.batch != [] && a.running == []
    ensures Start(a).1 == Start(b).1 && Sim(Start(a).0, Start(b).0, tail)
  {
    TailIsBatch(a, b, tail);
    SimStartStep(a, b, tail);
  }

  lemma SimStartStep(a: Sched, b: Sched, tail: seq<Entry>)
    requires Sim(a, b, tail) && b.batch != [] && b.batch[0].id !in Ids(tail)
    ensures Start(a).1 == Start(b).1 && Sim(Start(a).0, Start(b).0, tail)
  {
    var id := b.batch[0].id;
    var a', b' := Start(a).0, Start(b).0;
    assert a.batch[0] == b.batch[0] && a.batch[1..] == b.batch[1..] + tail;
    assert SimControl(a.ctl, b.ctl, Ids(tail), id);
    if HasState(a, id, ReadySnapshot) {
      SimOne(a.ctl, b.ctl, a'.ctl, b'.ctl, Ids(tail), id);
    }
    SimQuiet(a, b, a', b', tail);
  }

  lemma SimDecrement(a: Sched, b: Sched, tail: seq<Entry>)
    requires Sim(a, b, tail) && a.running != []
    ensures Sim(Decrement(a), Decrement(b), tail)
  {
  }

  lemma SimLeave(a: Sched, b: Sched, tail: seq<Entry>, st: State)
    requires Sim(a, b, tail) && a.running != [] && a.running[0].id in a.ctl && a.running[0].id !in Ids(tail)
    requires !Live(st) && !HasState(a, a.running[0].id, QueuedReady)
    ensures b.running[0].id in b.ctl && Sim(Leave(a, st), Leave(b, st), tail)
  {
    var id := a.running[0].id;
    assert SimControl(a.ctl, b.ctl, Ids(tail), id);
    SimOne(a.ctl, b.ctl, Leave(a, st).ctl, Leave(b, st).ctl, Ids(tail), id);
    SimQuiet(a, b, Leave(a, st), Leave(b, st), tail);
  }

  lemma RequeueBoth(a: Sched, b: Sched, due: Time, now: Time)
    requires SimRest(a, b) && a.running != [] && HasState(a, a.running[0].id, Executing)
    requires a.running[0].id in b.ctl && b.ctl[a.running[0].id] == a.ctl[a.running[0].id]
    ensures var e := a.running[0].(seqNo := a.nextSeq, due := due, planned := due);
      BothPut(a, b, Requeue(a, due, now), Requeue(b, due, now), e, due <= now) && SimRest(Requeue(a, due, now), Requeue(b, due, now))
  {
  }

  lemma SimRequeue(a: Sched, b: Sched, tail: seq<Entry>, due: Time, now: Time)
    requires Sim(a, b, tail) && a.running != [] && HasState(a, a.running[0].id, Executing)
    requires a.running[0].id !in Ids(tail) && a.running[0].id !in ReadyIds(a) && a.running[0].id !in ReadyIds(b)
    ensures Sim(Requeue(a, due, now), Requeue(b, due, now), tail)
  {
    var e := a.running[0].(seqNo := a.nextSeq, due := due, planned := due);
    assert SimControl(a.ctl, b.ctl, Ids(tail), e.id);
    RequeueBoth(a, b, due, now);
    SimPut(a, b, Requeue(a, due, now), Requeue(b, due, now), tail, e, due <= now);
  }

  lemma SimFlag(a: Sched, b: Sched, tail: seq<Entry>, id: TaskId)
    requires Sim(a, b, tail) && id in a.ctl
    ensures id in b.ctl && Sim(WithFlag(a, id, false), WithFlag(b, id, false), tail)
  {
    assert SimControl(a.ctl, b.ctl, Ids(tail), id);
    SimOne(a.ctl, b.ctl, WithFlag(a, id, false).ctl, WithFlag(b, id, false).ctl, Ids(tail), id);
    SimQuiet(a, b, WithFlag(a, id, false), WithFlag(b, id, false), tail);
  }

  /** What the simulation of a finishing step needs to know of the running task. */
  ghost predicate RunsApart(a: Sched, b: Sched, tail: seq<Entry>) {
    && a.running != [] && a.running[0].id in a.ctl
    && (HasState(a, a.running[0].id, Executing) || HasState(a, a.running[0].id, Cancelled))
    && a.running[0].id !in Ids(tail)
    && (HasState(a, a.running[0].id, Executing) ==> a.running[0].id !in ReadyIds(a) && a.running[0].id !in ReadyIds(b))
  }

  lemma RunningApart(a: Sched, b: Sched, tail: seq<Entry>)
    requires Inv(a, 0) && Inv(b, 0) && Sim(a, b, tail) && a.running != []
    requires a.running[0].id !in Ids(tail)
    ensures RunsApart(a, b, tail)
  {
    var id := a.running[0].id;
    OnlyAtHome(a, id);
    OnlyAtHome(b, id);
    assert SimControl(a.ctl, b.ctl, Ids(tail), id);
  }

  lemma SimFinish(a: Sched, b: Sched, tail: seq<Entry>, now: Time, lockedNow: Time)
    requires Sim(a, b, tail) && RunsApart(a, b, tail)
    ensures Sim(FinishSuccess(a, now, lockedNow), FinishSuccess(b, now, lockedNow), tail)
  {
    var e := a.running[0];
    assert SimControl(a.ctl, b.ctl, Ids(tail), e.id);
    if HasState(a, e.id, Cancelled) {
      SimLeave(a, b, tail, Cancelled);
    } else if a.closed {
      SimLeave(a, b, tail, Completed);
    } else if a.ctl[e.id].rescheduleRequested {
      SimFlag(a, b, tail, e.id);
      SimRequeue(WithFlag(a, e.id, false), WithFlag(b, e.id, false), tail, a.ctl[e.id].rescheduleDue, lockedNow);
    } else if e.periodic {
      SimRequeue(a, b, tail, NextPeriodicDue(e, now), lockedNow);
    } else {
      SimLeave(a, b, tail, Completed);
    }
  }

  lemma SimFail(a: Sched, b: Sched, tail: seq<Entry>)
    requires Sim(a, b, tail) && RunsApart(a, b, tail)
    ensures Sim(FinishException(a), FinishException(b), tail)
  {
    assert SimControl(a.ctl, b.ctl, Ids(tail), a.running[0].id);
    if HasState(a, a.running[0].id, Executing) {
      SimLeave(a, b, tail, Completed);
    } else {
      SimLeave(a, b, tail, Cancelled);
    }
  }

  lemma SimRunStarted(a: Sched, b: Sched, tail: seq<Entry>, program: Program, handler: Handler)
    requires a.running != [] && b.running == a.running && Sim(a, b, tail) && DiscreetCode(program, handler)
    requires var owed := if a.running[0].periodic then 0 else 1; Inv(a, owed) && Inv(b, owed)
    requires a.running[0].id !in Ids(tail)
    ensures var id := a.running[0].id;
      SimResult(RunStarted(a, id, program, handler), RunStarted(b, id, program, handler), tail)
  {
    var id := a.running[0].id;
    var c := program(id);
    var a1, b1 := Decrement(a), Decrement(b);
    KeepsDecrement(a);
    KeepsDecrement(b);
    SimDecrement(a, b, tail);
    SimRun(a1, b1, tail, c, []);
    KeepsRun(a1, c, []);
    KeepsRun(b1, c, []);
    var a2, b2 := Run(a1, c, []).s, Run(b1, c, []).s;
    RunningApart(a2, b2, tail);
    if !Run(a1, c, []).threw {
      SimFinish(a2, b2, tail, c.finishNow, c.finishLockedNow);
    } else {
      SimFail(a2, b2, tail);
      if handler.Handler? {
        KeepsFinishException(a2);
        KeepsFinishException(b2);
        SimRun(FinishException(a2), FinishException(b2), tail, handler.handle(id), []);
      }
    }
  }

  // ---------- restoring the tail ----------

  /** Nothing that a caller or a later process() call can observe tells the two states apart: same
      table, index, counters, heap and flags, and the same live entries in the same order. Only dead
      entries left in the deques may differ. */
  ghost predicate Equivalent(a: Sched, b: Sched) {
    && a.ctl == b.ctl && SimRest(a, b) && a.readyCount == b.readyCount && a.batch == [] && b.batch == []
    && LiveDeque(a, 0) == LiveDeque(b, 0) && LiveDeque(a, 1) == LiveDeque(b, 1) && LiveDeque(a, 2) == LiveDeque(b, 2)
  }

  lemma SimNothing(a: Sched, b: Sched)
    requires Sim(a, b, []) && b.batch == []
    ensures Equivalent(a, b)
  {
    forall id: TaskId
      ensures (id in a.ctl <==> id in b.ctl) && (id in a.ctl ==> a.ctl[id] == b.ctl[id])
    {
      assert SimControl(a.ctl, b.ctl, Ids([]), id);
    }
    assert a.ctl == b.ctl;
  }

  lemma RestoreDeque(a: Sched, b: Sched, t: Sched, tail: seq<Entry>, e: Entry, p: nat)
    requires p < 3 && SimDeque(a, b, tail + [e], p)
    requires SameButOne(a.ctl, t.ctl, e.id) && t.ctl[e.id].state == QueuedReady && HasState(b, e.id, QueuedReady)
    requires e.id !in Ids(a.ready[p])
    requires t.ready[p] == if p == PriorityIndex(e.priority) then [e] + a.ready[p] else a.ready[p]
    ensures SimDeque(t, b, tail, p)
  {
    DequeOfConcat(tail, [e], p);
    LiveConcat(DequeOf(tail, p), DequeOf([e], p), b.ctl, QueuedReady);
    LiveConcat([e], a.ready[p], t.ctl, QueuedReady);
    LiveFrame(a.ready[p], a.ctl, t.ctl, QueuedReady, e.id);
  }

  lemma DiscardDeque(a: Sched, b: Sched, tail: seq<Entry>, e: Entry, p: nat)
    requires p < 3 && SimDeque(a, b, tail + [e], p) && !HasState(b, e.id, QueuedReady)
    ensures SimDeque(a, b, tail, p)
  {
    DequeOfConcat(tail, [e], p);
    LiveConcat(DequeOf(tail, p), DequeOf([e], p), b.ctl, QueuedReady);
  }

  lemma SimShorter(c: Controls, d: Controls, c': Controls, tail: seq<Entry>, e: Entry)
    requires SimControls(c, d, Ids(tail + [e])) && e.id !in Ids(tail) && e.id in c && e.id in d
    requires if d[e.id].state == QueuedReady then c' == c[e.id := c[e.id].(state := QueuedReady)] else c' == c
    ensures SimControls(c', d, Ids(tail))
  {
    IdsConcat(tail, [e]);
    forall id: TaskId
      ensures SimControl(c', d, Ids(tail), id)
    {
      assert SimControl(c, d, Ids(tail + [e]), id);
    }
  }

  /** One step of the restore moves one entry from the tail to the front of its deque. */
  lemma SimRestoreBack(a: Sched, b: Sched, tail: seq<Entry>, e: Entry)
    requires Inv(a, 0) && Sim(a, b, tail + [e]) && b.batch == []
    ensures Sim(RestoreBack(a), b, tail)
  {
    TailIsBatch(a, b, tail + [e]);
    Concat(tail, [e], a.ctl, a.nextSeq, ReadySnapshot);
    OnlyAtHome(a, e.id);
    assert SimControl(a.ctl, b.ctl, Ids(tail + [e]), e.id);
    SimRestoreStep(a, b, tail, e);
  }

  lemma SimRestoreStep(a: Sched, b: Sched, tail: seq<Entry>, e: Entry)
    requires Sim(a, b, tail + [e]) && b.batch == [] && e.id in a.ctl && e.id in b.ctl && e.id !in Ids(tail)
    requires HasState(a, e.id, ReadySnapshot) <==> HasState(b, e.id, QueuedReady)
    requires HasState(a, e.id, ReadySnapshot) ==> e.id !in ReadyIds(a)
    ensures Sim(RestoreBack(a), b, tail)
  {
    assert a.batch == tail + [e] && a.batch[|a.batch| - 1] == e && a.batch[..|a.batch| - 1] == tail;
    LiveConcat(tail, [e], b.ctl, QueuedReady);
    if HasState(a, e.id, ReadySnapshot) {
      SimRestoreLive(a, b, tail, e);
    } else {
      SimShorter(a.ctl, b.ctl, a.ctl, tail, e);
      DiscardDeque(a, b, tail, e, 0);
      DiscardDeque(a, b, tail, e, 1);
      DiscardDeque(a, b, tail, e, 2);
    }
  }

  lemma SimRestoreLive(a: Sched, b: Sched, tail: seq<Entry>, e: Entry)
    requires Sim(a, b, tail + [e]) && b.batch == [] && e.id in a.ctl && e.id in b.ctl && e.id !in Ids(tail)
    requires HasState(a, e.id, ReadySnapshot) && HasState(b, e.id, QueuedReady) && e.id !in ReadyIds(a)
    requires a.batch != [] && a.batch[|a.batch| - 1] == e && a.batch[..|a.batch| - 1] == tail
    requires LiveOf(tail + [e], b.ctl, QueuedReady) == LiveOf(tail, b.ctl, QueuedReady) + LiveOf([e], b.ctl, QueuedReady)
    ensures Sim(RestoreBack(a), b, tail)
  {
    var t := RestoreBack(a);
    SimShorter(a.ctl, b.ctl, t.ctl, tail, e);
    RestoreDeque(a, b, t, tail, e, 0);
    RestoreDeque(a, b, t, tail, e, 1);
    RestoreDeque(a, b, t, tail, e, 2);
  }

  lemma {:induction false} SimRestore(a: Sched, b: Sched, tail: seq<Entry>)
    requires Inv(a, 0) && Sim(a, b, tail) && b.batch == []
    ensures Equivalent(Restore(a), b)
    decreases |tail|
  {
    if tail == [] {
      SimNothing(a, b);
    } else {
      var e := tail[|tail| - 1];
      assert tail == tail[..|tail| - 1] + [e];
      SimRestoreBack(a, b, tail[..|tail| - 1], e);
      KeepsRestoreBack(a, 0);
      SimRestore(RestoreBack(a), b, tail[..|tail| - 1]);
    }
  }

  // ---------- the two batches ----------

  /** If run `a` throws exactly when run `b`'s snapshot is used up, `b` throws there too. */
  ghost predicate ThrowsAlike(x: ProcessResult, y: ProcessResult) {
    x.outcome == y.outcome && x.log == y.log && Equivalent(x.s, y.s)
  }

  lemma ThenAlike(x: ProcessResult, y: ProcessResult, n: nat, head: seq<Event>)
    requires ThrowsAlike(x, y)
    ensures ThrowsAlike(x.(processed := x.processed + n, log := head + x.log), y.(processed := y.processed + n, log := head + y.log))
  {
  }

  lemma BatchSkip(s: Sched, program: Program, handler: Handler)
    requires s.running == [] && s.batch != [] && !Start(s).1
    ensures var r := RunBatch(Start(s).0, program, handler);
      RunBatch(s, program, handler) == r.(processed := r.processed + 0, log := [Skipped(s.batch[0].id)] + r.log)
    ensures |Visited(RunBatch(s, program, handler).log)| == 1 + |Visited(RunBatch(Start(s).0, program, handler).log)|
  {
  }

  lemma BatchThrow(s: Sched, program: Program, handler: Handler)
    requires s.running == [] && s.batch != [] && Start(s).1 && RunStarted(Start(s).0, s.batch[0].id, program, handler).threw
    ensures var one := RunStarted(Start(s).0, s.batch[0].id, program, handler);
      RunBatch(s, program, handler) == ProcessResult(Restore(one.s), 0, [Started(s.batch[0].id)] + one.log, Rethrown(s.batch[0].id))
    ensures |Visited(RunBatch(s, program, handler).log)| == 1
  {
    StartedVisitsNothing(Start(s).0, s.batch[0].id, program, handler);
    LogConcat([Started(s.batch[0].id)], RunStarted(Start(s).0, s.batch[0].id, program, handler).log);
  }

  lemma BatchGoOn(s: Sched, program: Program, handler: Handler)
    requires s.running == [] && s.batch != [] && Start(s).1 && !RunStarted(Start(s).0, s.batch[0].id, program, handler).threw
    ensures var one := RunStarted(Start(s).0, s.batch[0].id, program, handler);
      var r := RunBatch(one.s, program, handler);
      && RunBatch(s, program, handler) == r.(processed := r.processed + 1, log := [Started(s.batch[0].id)] + one.log + r.log)
      && |Visited(RunBatch(s, program, handler).log)| == 1 + |Visited(r.log)|
  {
    var one := RunStarted(Start(s).0, s.batch[0].id, program, handler);
    StartedVisitsNothing(Start(s).0, s.batch[0].id, program, handler);
    LogConcat([Started(s.batch[0].id)], one.log);
    LogConcat([Started(s.batch[0].id)] + one.log, RunBatch(one.s, program, handler).log);
  }

  /** What the induction needs after the two runs have started the same entry. */
  lemma BothStart(a: Sched, b: Sched, tail: seq<Entry>)
    requires Inv(a, 0) && Inv(b, 0) && Sim(a, b, tail) && a.running == [] && b.batch != []
    ensures a.batch != [] && a.batch[0] == b.batch[0] && Start(a).1 == Start(b).1 && Sim(Start(a).0, Start(b).0, tail)
    ensures !Start(a).1 ==> Inv(Start(a).0, 0) && Inv(Start(b).0, 0) && Start(a).0.running == []
    ensures var owed := if a.batch[0].periodic then 0 else 1;
      Start(a).1 ==> Inv(Start(a).0, owed) && Inv(Start(b).0, owed) && Start(a).0.running == [a.batch[0]] && a.batch[0].id !in Ids(tail)
  {
    SimStart(a, b, tail);
    KeepsStart(a);
    KeepsStart(b);
    TailIsBatch(a, b, tail);
  }

  lemma RethrownVisits(s: Sched, program: Program, handler: Handler)
    requires s.running == [] && RunBatch(s, program, handler).outcome.Rethrown?
    ensures |Visited(RunBatch(s, program, handler).log)| >= 1
  {
    BatchVisits(s, program, handler);
  }

  lemma {:induction false} SimBatch(a: Sched, b: Sched, tail: seq<Entry>, program: Program, handler: Handler)
    requires Inv(a, 0) && Inv(b, 0) && Sim(a, b, tail) && a.running == [] && DiscreetCode(program, handler)
    requires RunBatch(a, program, handler).outcome.Rethrown? && |Visited(RunBatch(a, program, handler).log)| == |b.batch|
    ensures ThrowsAlike(RunBatch(a, program, handler), RunBatch(b, program, handler))
    decreases |b.batch|, 1
  {
    RethrownVisits(a, program, handler);
    BothStart(a, b, tail);
    if !Start(a).1 {
      SimBatchSkipped(a, b, tail, program, handler, Start(a).0, Start(b).0);
    } else {
      SimBatchStarted(a, b, tail, program, handler, Start(a).0, Start(b).0, a.batch[0]);
    }
  }

  lemma {:induction false} SimBatchSkipped(a: Sched, b: Sched, tail: seq<Entry>, program: Program, handler: Handler, a1: Sched, b1: Sched)
    requires a.running == [] && b.running == [] && a.batch != [] && b.batch != [] && a.batch[0] == b.batch[0]
    requires Start(a) == (a1, false) && Start(b) == (b1, false) && Sim(a1, b1, tail) && Inv(a1, 0) && Inv(b1, 0)
    requires DiscreetCode(program, handler)
    requires RunBatch(a, program, handler).outcome.Rethrown? && |Visited(RunBatch(a, program, handler).log)| == |b.batch|
    ensures ThrowsAlike(RunBatch(a, program, handler), RunBatch(b, program, handler))
    decreases |b.batch|, 0
  {
    BatchSkip(a, program, handler);
    BatchSkip(b, program, handler);
    SimBatch(a1, b1, tail, program, handler);
    ThenAlike(RunBatch(a1, program, handler), RunBatch(b1, program, handler), 0, [Skipped(a.batch[0].id)]);
  }

  lemma {:induction false} SimBatchStarted(a: Sched, b: Sched, tail: seq<Entry>, program: Program, handler: Handler, a1: Sched, b1: Sched, e: Entry)
    requires a.running == [] && b.running == [] && a.batch != [] && b.batch != [] && a.batch[0] == b.batch[0] == e
    requires Start(a) == (a1, true) && Start(b) == (b1, true) && Sim(a1, b1, tail)
    requires var owed := if e.periodic then 0 else 1; Inv(a1, owed) && Inv(b1, owed)
    requires a1.running == [e] && e.id !in Ids(tail) && DiscreetCode(program, handler) && b1.batch == b.batch[1..]
    requires RunBatch(a, program, handler).outcome.Rethrown? && |Visited(RunBatch(a, program, handler).log)| == |b.batch|
    ensures ThrowsAlike(RunBatch(a, program, handler), RunBatch(b, program, handler))
    decreases |b.batch|, 0
  {
    var x, y := RunStarted(a1, e.id, program, handler), RunStarted(b1, e.id, program, handler);
    SimRunStarted(a1, b1, tail, program, handler);
    KeepsRunStarted(a1, e.id, program, handler);
    KeepsRunStarted(b1, e.id, program, handler);
    if x.threw {
      BatchThrow(a, program, handler);
      BatchThrow(b, program, handler);
      SimRestore(x.s, y.s, tail);
      RestoreNothing(y.s);
    } else {
      BatchGoOn(a, program, handler);
      BatchGoOn(b, program, handler);
      SimBatch(x.s, y.s, tail, program, handler);
      ThenAlike(RunBatch(x.s, program, handler), RunBatch(y.s, program, handler), 1, [Started(e.id)] + x.log);
    }
  }

  lemma RestoreNothing(s: Sched)
    requires s.batch == []
    ensures Restore(s) == s
  {
  }

  // ---------- the two snapshots ----------

  lemma TakeDeque(a: Sched, b: Sched, t: Sched, tail: seq<Entry>, e: Entry, q: nat)
    requires q < 3 && SimDeque(a, b, tail, q) && HasState(b, e.id, QueuedReady)
    requires LiveDeque(a, q) == (if q == PriorityIndex(e.priority) then [e] else []) + LiveDeque(t, q)
    ensures SimDeque(t, b, tail + [e], q)
  {
    DequeOfConcat(tail, [e], q);
    LiveConcat(DequeOf(tail, q), DequeOf([e], q), b.ctl, QueuedReady);
  }

  /** What the snapshot step needs to know of the entry at the front of deque `p`. */
  lemma FrontFacts(a: Sched, b: Sched, tail: seq<Entry>, p: nat)
    requires Inv(a, 0) && Sim(a, b, tail) && p < 3 && a.ready[p] != []
    ensures PriorityIndex(a.ready[p][0].priority) == p
    ensures Taken(a, p) != [] ==> a.ready[p][0].id !in Ids(tail) && HasState(b, a.ready[p][0].id, QueuedReady)
  {
    var e := a.ready[p][0];
    PopReady(a, p);
    TailIsBatch(a, b, tail);
    Elsewhere(tail, a.ctl, a.nextSeq, ReadySnapshot, e.id);
    assert SimControl(a.ctl, b.ctl, Ids(tail), e.id);
  }

  lemma SimTakeFront(a: Sched, b: Sched, tail: seq<Entry>, p: nat)
    requires Inv(a, 0) && Sim(a, b, tail) && p < 3 && a.ready[p] != []
    ensures Sim(TakeFront(a, p), b, tail + Taken(a, p))
  {
    FrontFacts(a, b, tail, p);
    TakeFrontLive(a, p, 0);
    SimTakeStep(a, b, TakeFront(a, p), tail, p);
  }

  lemma SimTakeStep(a: Sched, b: Sched, t: Sched, tail: seq<Entry>, p: nat)
    requires Sim(a, b, tail) && p < 3 && a.ready[p] != [] && t == TakeFront(a, p) && PriorityIndex(a.ready[p][0].priority) == p
    requires Taken(a, p) != [] ==> a.ready[p][0].id !in Ids(tail) && HasState(b, a.ready[p][0].id, QueuedReady)
    requires LiveDeque(a, p) == Taken(a, p) + LiveDeque(t, p)
    requires p != 0 ==> LiveDeque(t, 0) == LiveDeque(a, 0)
    requires p != 1 ==> LiveDeque(t, 1) == LiveDeque(a, 1)
    requires p != 2 ==> LiveDeque(t, 2) == LiveDeque(a, 2)
    ensures Sim(t, b, tail + Taken(a, p))
  {
    if Taken(a, p) != [] {
      TakeDeque(a, b, t, tail, a.ready[p][0], 0);
      TakeDeque(a, b, t, tail, a.ready[p][0], 1);
      TakeDeque(a, b, t, tail, a.ready[p][0], 2);
      SimTaken(a, b, tail, p);
    } else {
      assert tail + Taken(a, p) == tail;
      SimSame(a, b, t, tail);
    }
  }

  lemma SimSame(a: Sched, b: Sched, t: Sched, tail: seq<Entry>)
    requires Sim(a, b, tail) && t == a.(ready := t.ready)
    requires LiveDeque(t, 0) == LiveDeque(a, 0) && LiveDeque(t, 1) == LiveDeque(a, 1) && LiveDeque(t, 2) == LiveDeque(a, 2)
    ensures Sim(t, b, tail)
  {
  }

  lemma SimTaken(a: Sched, b: Sched, tail: seq<Entry>, p: nat)
    requires Sim(a, b, tail) && p < 3 && a.ready[p] != [] && Taken(a, p) != [] && HasState(b, a.ready[p][0].id, QueuedReady)
    requires a.ready[p][0].id !in Ids(tail)
    ensures var t := TakeFront(a, p); var tail' := tail + Taken(a, p);
      && SimRest(t, b) && SimControls(t.ctl, b.ctl, Ids(tail')) && t.batch == b.batch + tail'
      && b.readyCount == t.readyCount + |LiveOf(tail', b.ctl, QueuedReady)|
  {
    var e := a.ready[p][0];
    var t := TakeFront(a, p);
    IdsConcat(tail, [e]);
    LiveConcat(tail, [e], b.ctl, QueuedReady);
    forall id: TaskId
      ensures SimControl(t.ctl, b.ctl, Ids(tail + [e]), id)
    {
      assert SimControl(a.ctl, b.ctl, Ids(tail), id);
    }
  }

  /** How the tail grows while deque `p` is read. */
  ghost function TailAfter(a: Sched, tail: seq<Entry>, p: nat, maxTasks: nat): seq<Entry>
    requires p < 3
    decreases |a.ready[p]|
  {
    if a.ready[p] == [] || |a.batch| >= maxTasks then tail
    else TailAfter(TakeFront(a, p), tail + Taken(a, p), p, maxTasks)
  }

  lemma TakeFromStep(a: Sched, tail: seq<Entry>, p: nat, maxTasks: nat)
    requires p < 3 && a.ready[p] != [] && |a.batch| < maxTasks
    ensures TakeFrom(a, p, maxTasks) == TakeFrom(TakeFront(a, p), p, maxTasks)
    ensures TailAfter(a, tail, p, maxTasks) == TailAfter(TakeFront(a, p), tail + Taken(a, p), p, maxTasks)
  {
  }

  lemma {:induction false} SimTakeFrom(a: Sched, b: Sched, tail: seq<Entry>, p: nat, maxTasks: nat)
    requires Inv(a, 0) && Sim(a, b, tail) && p < 3
    ensures Sim(TakeFrom(a, p, maxTasks), b, TailAfter(a, tail, p, maxTasks))
    decreases |a.ready[p]|
  {
    if a.ready[p] == [] || |a.batch| >= maxTasks {
    } else {
      var t, longer := TakeFront(a, p), tail + Taken(a, p);
      SimTakeFront(a, b, tail, p);
      KeepsTakeFront(a, p, 0);
      SimTakeFrom(t, b, longer, p, maxTasks);
      TakeFromStep(a, tail, p, maxTasks);
    }
  }

  lemma {:induction false} TakeFromMore(s: Sched, p: nat, k: nat, n: nat)
    requires p < 3 && k <= n
    ensures TakeFrom(TakeFrom(s, p, k), p, n) == TakeFrom(s, p, n)
    ensures |TakeFrom(s, p, k).batch| < k ==> TakeFrom(s, p, n) == TakeFrom(s, p, k) && TakeFrom(s, p, k).ready[p] == []
    ensures |s.batch| >= k ==> TakeFrom(s, p, k) == s
    ensures forall q :: 0 <= q < 3 && q != p ==> TakeFrom(s, p, k).ready[q] == s.ready[q]
    decreases |s.ready[p]|
  {
    if s.ready[p] == [] || |s.batch| >= k {
    } else {
      TakeFromMore(TakeFront(s, p), p, k, n);
    }
  }

  /** A larger snapshot is a smaller one, continued. */
  lemma TakeMore(s: Sched, k: nat, n: nat)
    requires k <= n
    ensures Take(Take(s, k), n) == Take(s, n)
  {
    var s0 := TakeFrom(s, 0, k);
    var s1 := TakeFrom(s0, 1, k);
    var s2 := TakeFrom(s1, 2, k);
    TakeFromMore(s, 0, k, n);
    TakeFromMore(s0, 1, k, n);
    TakeFromMore(s1, 2, k, n);
  }

  lemma SimTake(s: Sched, k: nat, n: nat) returns (tail: seq<Entry>)
    requires Inv(s, 0) && k <= n
    ensures Sim(Take(s, n), Take(s, k), tail)
  {
    var b := Take(s, k);
    KeepsTake(s, k, 0);
    var a0 := TakeFrom(b, 0, n);
    var a1 := TakeFrom(a0, 1, n);
    KeepsTakeFrom(b, 0, n, 0);
    KeepsTakeFrom(a0, 1, n, 0);
    SimSelf(b);
    var t0 := TailAfter(b, [], 0, n);
    var t1 := TailAfter(a0, t0, 1, n);
    SimTakeFrom(b, b, [], 0, n);
    SimTakeFrom(a0, b, t0, 1, n);
    SimTakeFrom(a1, b, t1, 2, n);
    tail := TailAfter(a1, t1, 2, n);
    TakeMore(s, k, n);
  }

  lemma SimSelf(s: Sched)
    ensures Sim(s, s, [])
  {
  }

  // ---------- the theorem ----------

  /** If an exception escapes process(N) at batch position i, then process(i + 1), from the same state
      and with the same user code, throws at the same task after the same visible events, and the
      states left behind are equivalent. The code may do anything but re-enter process(), clear the
      queues or read the ready count. */
  lemma ThrowEquivalence(s: Sched, maxTasks: nat, now: Time, program: Program, handler: Handler)
    requires Inv(s, 0) && s.batch == [] && s.running == [] && DiscreetCode(program, handler)
    requires Process(s, maxTasks, now, program, handler).outcome.Rethrown?
    ensures var r := Process(s, maxTasks, now, program, handler);
      var i := |Visited(r.log)| - 1;
      i >= 0 && ThrowsAlike(r, Process(s, i + 1, now, program, handler))
  {
    var u := Promote(s, now);
    var r := Process(s, maxTasks, now, program, handler);
    SnapshotRefinement(s, maxTasks, now, program, handler);
    var k := |Visited(r.log)|;
    PromoteFrame(s, now);
    KeepsPromote(s, now, 0);
    TakeFrame(u, maxTasks);
    TakeFrame(u, k);
    TakeResult(u, maxTasks, 0);
    TakeResult(u, k, 0);
    KeepsTake(u, maxTasks, 0);
    KeepsTake(u, k, 0);
    var tail := SimTake(u, k, maxTasks);
    SimBatch(Take(u, maxTasks), Take(u, k), tail, program, handler);
  }
}
