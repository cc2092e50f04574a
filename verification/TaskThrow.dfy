/** Throw equivalence. If an exception escapes process(N) at batch position i, the manager is left as
    process(i + 1) leaves it when it throws at the same task. The two runs are related step by step:
    the tasks that run N has snapshotted but not reached still wait, in run i + 1, at the front of
    their deques. */
module TaskThrow {
  import opened TaskTypes
  import opened TaskOps
  import opened TaskInvariant
  import opened TaskLive

  // ---------- the relation ----------

  /** The entries of `q` that belong to deque `p`. */
  function DequeOf(q: seq<Entry>, p: nat): seq<Entry> {
    if q == [] then [] else (if PriorityIndex(q[0].priority) == p then [q[0]] else []) + DequeOf(q[1..], p)
  }

  /** The tables agree, except that a task of `ids` is snapshotted on one side and queued on the other. */
  ghost predicate SimControl(c: Controls, d: Controls, ids: set<TaskId>, id: TaskId) {
    && (id in c <==> id in d)
    && (id in c ==>
          if id in ids && d[id].state == QueuedReady then c[id] == d[id].(state := ReadySnapshot)
          else c[id] == d[id] && (id in ids ==> d[id].state == Cancelled))
  }

  ghost predicate SimControls(c: Controls, d: Controls, ids: set<TaskId>) {
    forall id :: SimControl(c, d, ids, id)
  }

  ghost predicate SimRest(a: Sched, b: Sched) {
    && a.running == b.running && a.delayed == b.delayed && a.index == b.index && a.nextId == b.nextId
    && a.nextSeq == b.nextSeq && a.closed == b.closed && a.pendingCount == b.pendingCount
  }

  ghost predicate SimDeque(a: Sched, b: Sched, tail: seq<Entry>, p: nat)
    requires p < 3
  {
    LiveDeque(b, p) == LiveOf(DequeOf(tail, p), b.ctl, QueuedReady) + LiveDeque(a, p)
  }

  /** `a` has `tail` in its snapshot, behind what the two runs share. */
  ghost predicate Sim(a: Sched, b: Sched, tail: seq<Entry>) {
    && a.batch == b.batch + tail
    && SimRest(a, b) && SimControls(a.ctl, b.ctl, Ids(tail))
    && SimDeque(a, b, tail, 0) && SimDeque(a, b, tail, 1) && SimDeque(a, b, tail, 2)
    && b.readyCount == a.readyCount + |LiveOf(tail, b.ctl, QueuedReady)|
  }

  // ---------- live parts under a change of one control block ----------

  ghost predicate SameMembers(c: Controls, d: Controls, st: State) {
    forall id :: (id in c && c[id].state == st) <==> (id in d && d[id].state == st)
  }

  lemma {:induction false} LiveSame(q: seq<Entry>, c: Controls, d: Controls, st: State)
    requires SameMembers(c, d, st)
    ensures LiveOf(q, c, st) == LiveOf(q, d, st)
  {
    if q == [] {
    } else {
      LiveSame(q[1..], c, d, st);
    }
  }

  function Without(q: seq<Entry>, id: TaskId): seq<Entry> {
    if q == [] then [] else (if q[0].id == id then [] else [q[0]]) + Without(q[1..], id)
  }

  lemma {:induction false} WithoutConcat(a: seq<Entry>, b: seq<Entry>, id: TaskId)
    ensures Without(a + b, id) == Without(a, id) + Without(b, id)
  {
    if a == [] {
      assert a + b == b;
    } else {
      assert (a + b)[1..] == a[1..] + b;
      WithoutConcat(a[1..], b, id);
    }
  }

  /** A task that dies disappears from every live list. */
  lemma {:induction false} LiveKill(q: seq<Entry>, c: Controls, d: Controls, st: State, id: TaskId)
    requires SameButOne(c, d, id) && d[id].state != st
    ensures LiveOf(q, d, st) == Without(LiveOf(q, c, st), id)
  {
    if q == [] {
    } else {
      LiveKill(q[1..], c, d, st, id);
      var head := if q[0].id in c && c[q[0].id].state == st then [q[0]] else [];
      WithoutConcat(head, LiveOf(q[1..], c, st), id);
    }
  }

  lemma {:induction false} WithoutLength(q: seq<Entry>, c: Controls, n: nat, st: State, live: State, id: TaskId)
    requires QueueOk(q, c, n, st)
    ensures |Without(LiveOf(q, c, live), id)| ==
      |LiveOf(q, c, live)| - (if id in Ids(q) && id in c && c[id].state == live then 1 else 0)
  {
    if q == [] {
    } else {
      WithoutLength(q[1..], c, n, st, live, id);
      var head := if q[0].id in c && c[q[0].id].state == live then [q[0]] else [];
      WithoutConcat(head, LiveOf(q[1..], c, live), id);
    }
  }

  lemma {:induction false} DequeOfIds(q: seq<Entry>, p: nat, id: TaskId)
    ensures id in Ids(DequeOf(q, p)) ==> id in Ids(q)
  {
    if q == [] {
    } else {
      DequeOfIds(q[1..], p, id);
      IdsConcat(if PriorityIndex(q[0].priority) == p then [q[0]] else [], DequeOf(q[1..], p));
    }
  }

  lemma {:induction false} DequeOfConcat(a: seq<Entry>, b: seq<Entry>, p: nat)
    ensures DequeOf(a + b, p) == DequeOf(a, p) + DequeOf(b, p)
  {
    if a == [] {
      assert a + b == b;
    } else {
      assert (a + b)[1..] == a[1..] + b && (a + b)[0] == a[0];
      DequeOfConcat(a[1..], b, p);
      var head := if PriorityIndex(a[0].priority) == p then [a[0]] else [];
      assert head + (DequeOf(a[1..], p) + DequeOf(b, p)) == head + DequeOf(a[1..], p) + DequeOf(b, p);
    }
  }

  // ---------- steps that change no waiting task ----------

  /** Both sides change the same task in the same way, and it was not and is not waiting in a deque. */
  lemma SimQuiet(a: Sched, b: Sched, a': Sched, b': Sched, tail: seq<Entry>)
    requires Sim(a, b, tail) && SimRest(a', b') && SimControls(a'.ctl, b'.ctl, Ids(tail))
    requires a'.ready == a.ready && b'.ready == b.ready && a'.readyCount == a.readyCount && b'.readyCount == b.readyCount
    requires a'.batch == b'.batch + tail
    requires SameMembers(a.ctl, a'.ctl, QueuedReady) && SameMembers(b.ctl, b'.ctl, QueuedReady)
    ensures Sim(a', b', tail)
  {
    LiveSame(tail, b.ctl, b'.ctl, QueuedReady);
    SimQuietDeque(a, b, a', b', tail, 0);
    SimQuietDeque(a, b, a', b', tail, 1);
    SimQuietDeque(a, b, a', b', tail, 2);
  }

  lemma SimQuietDeque(a: Sched, b: Sched, a': Sched, b': Sched, tail: seq<Entry>, p: nat)
    requires p < 3 && SimDeque(a, b, tail, p) && a'.ready[p] == a.ready[p] && b'.ready[p] == b.ready[p]
    requires SameMembers(a.ctl, a'.ctl, QueuedReady) && SameMembers(b.ctl, b'.ctl, QueuedReady)
    ensures SimDeque(a', b', tail, p)
  {
    LiveSame(a.ready[p], a.ctl, a'.ctl, QueuedReady);
    LiveSame(b.ready[p], b.ctl, b'.ctl, QueuedReady);
    LiveSame(DequeOf(tail, p), b.ctl, b'.ctl, QueuedReady);
  }

  // ---------- a task dies ----------

  lemma SimKillDeque(a: Sched, b: Sched, a': Sched, b': Sched, tail: seq<Entry>, p: nat, id: TaskId)
    requires p < 3 && SimDeque(a, b, tail, p) && a'.ready[p] == a.ready[p] && b'.ready[p] == b.ready[p]
    requires SameButOne(a.ctl, a'.ctl, id) && SameButOne(b.ctl, b'.ctl, id)
    requires a'.ctl[id].state == Cancelled && b'.ctl[id].state == Cancelled
    ensures SimDeque(a', b', tail, p)
  {
    LiveKill(a.ready[p], a.ctl, a'.ctl, QueuedReady, id);
    LiveKill(b.ready[p], b.ctl, b'.ctl, QueuedReady, id);
    LiveKill(DequeOf(tail, p), b.ctl, b'.ctl, QueuedReady, id);
    WithoutConcat(LiveOf(DequeOf(tail, p), b.ctl, QueuedReady), LiveDeque(a, p), id);
  }

  lemma SimKill(a: Sched, b: Sched, a': Sched, b': Sched, tail: seq<Entry>, id: TaskId)
    requires Sim(a, b, tail) && SimRest(a', b') && SimControls(a'.ctl, b'.ctl, Ids(tail)) && a'.batch == b'.batch + tail
    requires QueueOk(tail, a.ctl, a.nextSeq, ReadySnapshot)
    requires a'.ready == a.ready && b'.ready == b.ready
    requires SameButOne(a.ctl, a'.ctl, id) && SameButOne(b.ctl, b'.ctl, id)
    requires a'.ctl[id].state == Cancelled && b'.ctl[id].state == Cancelled
    requires a'.readyCount == a.readyCount - Bit(HasState(a, id, QueuedReady))
    requires b'.readyCount == b.readyCount - Bit(HasState(b, id, QueuedReady))
    ensures Sim(a', b', tail)
  {
    SimKillDeque(a, b, a', b', tail, 0, id);
    SimKillDeque(a, b, a', b', tail, 1, id);
    SimKillDeque(a, b, a', b', tail, 2, id);
    LiveKill(tail, b.ctl, b'.ctl, QueuedReady, id);
    TailLength(a, b, tail, id);
  }

  lemma TailLength(a: Sched, b: Sched, tail: seq<Entry>, id: TaskId)
    requires SimControls(a.ctl, b.ctl, Ids(tail)) && QueueOk(tail, a.ctl, a.nextSeq, ReadySnapshot)
    ensures |Without(LiveOf(tail, b.ctl, QueuedReady), id)| ==
      |LiveOf(tail, b.ctl, QueuedReady)| - Bit(HasState(b, id, QueuedReady)) + Bit(HasState(a, id, QueuedReady))
  {
    TailSwap(tail, a.ctl, b.ctl, a.nextSeq, Ids(tail));
    WithoutLength(tail, a.ctl, a.nextSeq, ReadySnapshot, ReadySnapshot, id);
    assert SimControl(a.ctl, b.ctl, Ids(tail), id);
    Elsewhere(tail, a.ctl, a.nextSeq, ReadySnapshot, id);
  }

  /** The part of the tail that is live is the same on both sides. */
  lemma {:induction false} TailSwap(q: seq<Entry>, c: Controls, d: Controls, n: nat, ids: set<TaskId>)
    requires QueueOk(q, c, n, ReadySnapshot) && Ids(q) <= ids && SimControls(c, d, ids)
    ensures LiveOf(q, d, QueuedReady) == LiveOf(q, c, ReadySnapshot)
  {
    if q == [] {
    } else {
      assert SimControl(c, d, ids, q[0].id);
      TailSwap(q[1..], c, d, n, ids);
    }
  }

  // ---------- a task arrives ----------

  /** Both sides put the same entry of a task outside the tail into the same place. */
  ghost predicate BothPut(a: Sched, b: Sched, a': Sched, b': Sched, e: Entry, ready: bool) {
    && SameButOne(a.ctl, a'.ctl, e.id) && SameButOne(b.ctl, b'.ctl, e.id)
    && a'.ctl[e.id].state == (if ready then QueuedReady else QueuedDelayed) && b'.ctl[e.id] == a'.ctl[e.id]
    && a'.ready == Put(a, e, ready).ready && b'.ready == Put(b, e, ready).ready
    && a'.readyCount == a.readyCount + Bit(ready) && b'.readyCount == b.readyCount + Bit(ready)
    && a'.batch == a.batch && b'.batch == b.batch
  }

  lemma SimPutDeque(a: Sched, b: Sched, a': Sched, b': Sched, tail: seq<Entry>, e: Entry, ready: bool, p: nat)
    requires p < 3 && SimDeque(a, b, tail, p) && BothPut(a, b, a', b', e, ready)
    requires e.id !in Ids(tail) && e.id !in Ids(a.ready[p]) && e.id !in Ids(b.ready[p])
    ensures SimDeque(a', b', tail, p)
  {
    DequeOfIds(tail, p, e.id);
    LiveFrame(DequeOf(tail, p), b.ctl, b'.ctl, QueuedReady, e.id);
    LiveFrame(a.ready[p], a.ctl, a'.ctl, QueuedReady, e.id);
    LiveFrame(b.ready[p], b.ctl, b'.ctl, QueuedReady, e.id);
    LiveConcat(a.ready[p], [e], a'.ctl, QueuedReady);
    LiveConcat(b.ready[p], [e], b'.ctl, QueuedReady);
  }

  lemma SimPut(a: Sched, b: Sched, a': Sched, b': Sched, tail: seq<Entry>, e: Entry, ready: bool)
    requires Sim(a, b, tail) && BothPut(a, b, a', b', e, ready) && SimRest(a', b')
    requires e.id !in Ids(tail) && e.id !in ReadyIds(a) && e.id !in ReadyIds(b)
    ensures Sim(a', b', tail)
  {
    SimPutDeque(a, b, a', b', tail, e, ready, 0);
    SimPutDeque(a, b, a', b', tail, e, ready, 1);
    SimPutDeque(a, b, a', b', tail, e, ready, 2);
    LiveFrame(tail, b.ctl, b'.ctl, QueuedReady, e.id);
    SimOne(a.ctl, b.ctl, a'.ctl, b'.ctl, Ids(tail), e.id);
  }

  lemma SimOne(c: Controls, d: Controls, c': Controls, d': Controls, ids: set<TaskId>, id: TaskId)
    requires SimControls(c, d, ids) && SameButOne(c, c', id) && SameButOne(d, d', id) && SimControl(c', d', ids, id)
    ensures SimControls(c', d', ids)
  {
    forall k: TaskId
      ensures SimControl(c', d', ids, k)
    {
      assert SimControl(c, d, ids, k);
    }
  }

  // ---------- calls ----------

  /** Calls whose effect or reply tells a snapshotted task from a waiting one. */
  predicate Discreet(op: Op) {
    !op.OpClearPending? && !op.OpReadyCount?
  }

  lemma FreshId(s: Sched)
    requires Inv(s, 0)
    ensures s.nextId !in s.ctl && s.nextId !in ReadyIds(s) && s.nextId !in Ids(s.batch)
  {
    assert TaskOk(s, s.nextId);
    OnlyAtHome(s, s.nextId);
  }

  lemma AdmitBoth(a: Sched, b: Sched, e: Entry, ready: bool)
    requires SimRest(a, b) && e.id == a.nextId && e.seqNo == a.nextSeq && e.id !in a.ctl && e.id !in b.ctl
    ensures BothPut(a, b, Admit(a, e, ready), Admit(b, e, ready), e, ready) && SimRest(Admit(a, e, ready), Admit(b, e, ready))
  {
  }

  lemma SimAdmit(a: Sched, b: Sched, tail: seq<Entry>, e: Entry, ready: bool)
    requires Inv(a, 0) && Inv(b, 0) && Sim(a, b, tail) && e.id == a.nextId && e.seqNo == a.nextSeq
    ensures Sim(Admit(a, e, ready), Admit(b, e, ready), tail)
  {
    FreshId(a);
    FreshId(b);
    IdsConcat(b.batch, tail);
    AdmitBoth(a, b, e, ready);
    SimPut(a, b, Admit(a, e, ready), Admit(b, e, ready), tail, e, ready);
  }

  lemma SimPost(a: Sched, b: Sched, tail: seq<Entry>, op: Op)
    requires Inv(a, 0) && Inv(b, 0) && Sim(a, b, tail) && Posts(op)
    ensures Apply(a, op).1 == Apply(b, op).1 && Sim(Apply(a, op).0, Apply(b, op).0, tail)
  {
    PostShape(a, op);
    PostShape(b, op);
    var (e, ready) := PostedEntry(a, op);
    if Accepts(a, op) {
      SimAdmit(a, b, tail, e, ready);
    }
  }

  /** The tail is part of `a`'s snapshot. */
  lemma TailIsBatch(a: Sched, b: Sched, tail: seq<Entry>)
    requires Inv(a, 0) && Sim(a, b, tail)
    ensures QueueOk(tail, a.ctl, a.nextSeq, ReadySnapshot) && Ids(a.batch) == Ids(b.batch) + Ids(tail) && Ids(b.batch) !! Ids(tail)
  {
    Concat(b.batch, tail, a.ctl, a.nextSeq, ReadySnapshot);
  }

  ghost predicate KillShape(s: Sched, t: Sched, id: TaskId) {
    && t.ready == s.ready && t.batch == s.batch && SameButOne(s.ctl, t.ctl, id) && t.ctl[id].state == Cancelled
    && t.readyCount == s.readyCount - Bit(HasState(s, id, QueuedReady))
  }

  /** What a cancellation that answers true does: `t` is `s` with task `id` cancelled. */
  ghost predicate KillEffect(s: Sched, t: Sched, id: TaskId) {
    && KillShape(s, t, id) && id in s.ctl
    && t == s.(ctl := t.ctl, index := t.index, readyCount := t.readyCount, pendingCount := t.pendingCount)
    && t.index == (if s.ctl[id].state == Executing then s.index else s.index - {id})
    && t.pendingCount == s.pendingCount - (if s.ctl[id].state == Executing && !s.ctl[id].periodic then 0 else 1)
    && t.ctl[id] == s.ctl[id].(state := Cancelled, rescheduleRequested := s.ctl[id].state != Executing && s.ctl[id].rescheduleRequested)
  }

  lemma CancelEffect(s: Sched, op: Op, id: TaskId)
    requires op == OpCancel(id) || op == OpCtxCancel(id)
    ensures Apply(s, op).1 == Flag(true) ==> KillEffect(s, Apply(s, op).0, id)
    ensures Apply(s, op).1 != Flag(true) ==> Apply(s, op) == (s, Flag(false))
    ensures Apply(s, op).1 == Flag(true) <==> CanCancel(s, op, id)
  {
  }

  ghost predicate CanCancel(s: Sched, op: Op, id: TaskId) {
    && id != 0 && id in s.index && id in s.ctl
    && (op.OpCancel? ==> Live(s.ctl[id].state) && (s.ctl[id].state == Executing ==> s.ctl[id].periodic))
    && (op.OpCtxCancel? ==> s.ctl[id].state == Executing)
  }

  /** The two sides answer a cancellation alike: a snapshotted task can be cancelled, and so can a queued one. */
  lemma CancelBoth(a: Sched, b: Sched, ids: set<TaskId>, op: Op, id: TaskId)
    requires SimRest(a, b) && SimControl(a.ctl, b.ctl, ids, id) && (op == OpCancel(id) || op == OpCtxCancel(id))
    ensures Apply(a, op).1 == Apply(b, op).1
    ensures Apply(a, op).1 != Flag(true) ==> Apply(a, op).0 == a && Apply(b, op).0 == b
    ensures Apply(a, op).1 == Flag(true) ==> KilledBoth(a, b, Apply(a, op).0, Apply(b, op).0, ids, id)
  {
    CancelEffect(a, op, id);
    CancelEffect(b, op, id);
    assert CanCancel(a, op, id) <==> CanCancel(b, op, id);
    if CanCancel(a, op, id) {
      KillBoth(a, b, Apply(a, op).0, Apply(b, op).0, ids, id);
    }
  }

  ghost predicate KilledBoth(a: Sched, b: Sched, a': Sched, b': Sched, ids: set<TaskId>, id: TaskId) {
    SimRest(a', b') && KillShape(a, a', id) && KillShape(b, b', id) && SimControl(a'.ctl, b'.ctl, ids, id)
  }

  lemma KillBoth(a: Sched, b: Sched, a': Sched, b': Sched, ids: set<TaskId>, id: TaskId)
    requires SimRest(a, b) && SimControl(a.ctl, b.ctl, ids, id) && KillEffect(a, a', id) && KillEffect(b, b', id)
    ensures KilledBoth(a, b, a', b', ids, id)
  {
  }

  lemma SimCancelled(a: Sched, b: Sched, tail: seq<Entry>, op: Op, id: TaskId)
    requires Inv(a, 0) && Inv(b, 0) && Sim(a, b, tail) && (op == OpCancel(id) || op == OpCtxCancel(id))
    ensures Apply(a, op).1 == Apply(b, op).1 && Sim(Apply(a, op).0, Apply(b, op).0, tail)
  {
    TailIsBatch(a, b, tail);
    SimCancelStep(a, b, tail, op, id);
  }

  lemma SimCancelStep(a: Sched, b: Sched, tail: seq<Entry>, op: Op, id: TaskId)
    requires Sim(a, b, tail) && (op == OpCancel(id) || op == OpCtxCancel(id)) && QueueOk(tail, a.ctl, a.nextSeq, ReadySnapshot)
    ensures Apply(a, op).1 == Apply(b, op).1 && Sim(Apply(a, op).0, Apply(b, op).0, tail)
  {
    var a', b' := Apply(a, op).0, Apply(b, op).0;
    assert SimControl(a.ctl, b.ctl, Ids(tail), id);
    CancelBoth(a, b, Ids(tail), op, id);
    if Apply(a, op).1 == Flag(true) {
      SimOne(a.ctl, b.ctl, a'.ctl, b'.ctl, Ids(tail), id);
      SimKill(a, b, a', b', tail, id);
    }
  }

  lemma SimRescheduled(a: Sched, b: Sched, tail: seq<Entry>, id: TaskId, due: Time)
    requires Sim(a, b, tail)
    ensures CtxReschedule(a, id, due).1 == CtxReschedule(b, id, due).1
    ensures Sim(CtxReschedule(a, id, due).0, CtxReschedule(b, id, due).0, tail)
  {
    var a', b' := CtxReschedule(a, id, due).0, CtxReschedule(b, id, due).0;
    assert SimControl(a.ctl, b.ctl, Ids(tail), id);
    if CtxReschedule(a, id, due).1 {
      SimOne(a.ctl, b.ctl, a'.ctl, b'.ctl, Ids(tail), id);
      SimQuiet(a, b, a', b', tail);
    }
  }

  lemma {:induction false} SimPrune(a: Sched, b: Sched, tail: seq<Entry>)
    requires Sim(a, b, tail)
    ensures Sim(Prune(a), Prune(b), tail) && Prune(a).delayed == Prune(b).delayed
    decreases |a.delayed|
  {
    if a.delayed == [] {
    } else {
      assert SimControl(a.ctl, b.ctl, Ids(tail), a.delayed[0].id);
      if Dead(a, a.delayed[0]) {
        var a', b' := a.(delayed := a.delayed[1..]), b.(delayed := b.delayed[1..]);
        SimQuiet(a, b, a', b', tail);
        SimPrune(a', b', tail);
      }
    }
  }

  /** A discreet call cannot tell the two runs apart, and keeps them related. */
  lemma SimApply(a: Sched, b: Sched, tail: seq<Entry>, op: Op)
    requires Inv(a, 0) && Inv(b, 0) && Sim(a, b, tail) && Discreet(op)
    ensures Apply(a, op).1 == Apply(b, op).1 && Sim(Apply(a, op).0, Apply(b, op).0, tail)
  {
    if Posts(op) {
      SimPost(a, b, tail, op);
    } else if op.OpCancel? || op.OpCtxCancel? {
      SimCancelled(a, b, tail, op, op.id);
    } else {
      SimOther(a, b, tail, op);
    }
  }

  lemma SimOther(a: Sched, b: Sched, tail: seq<Entry>, op: Op)
    requires Sim(a, b, tail) && Discreet(op) && !Posts(op) && !op.OpCancel? && !op.OpCtxCancel?
    ensures Apply(a, op).1 == Apply(b, op).1 && Sim(Apply(a, op).0, Apply(b, op).0, tail)
  {
    match op
    case OpCtxIsCancelled(id) => assert SimControl(a.ctl, b.ctl, Ids(tail), id);
    case OpCtxReschedule(id, due) => SimRescheduled(a, b, tail, id, due);
    case OpNextDeadline => SimPrune(a, b, tail);
    case OpClose => SimQuiet(a, b, Close(a), Close(b), tail);
    case _ =>
  }
}
