/** TaskManager as an object whose methods update its fields in place. `model` is the state that the
    other modules reason about; every method says which function of TaskOps or TaskProcess it is. */
module TaskManagerClass {
  import opened TaskTypes
  import opened TaskOps
  import TaskInvariant
  import opened TaskProcess
  import opened DelayedHeap
  import opened TaskClearing

  lemma LogStep(whole: RunResult, before: seq<Event>, now: seq<Event>, rest: RunResult)
    requires whole == rest.(log := before + (now + rest.log))
    ensures whole == rest.(log := (before + now) + rest.log)
  {
    assert before + (now + rest.log) == (before + now) + rest.log;
  }

  lemma PutHeap(s: Sched, e: Entry, isReady: bool)
    requires DelayedOk(s.delayed, s.nextSeq) && e.seqNo == s.nextSeq
    ensures var t := Put(s, e, isReady);
      && DelayedOk(t.delayed, s.nextSeq + 1)
      && multiset(t.delayed) == multiset(s.delayed) + (if isReady then multiset{} else multiset{e})
  {
    InsertMultiset(s.delayed, e);
    InsertDelayed(s.delayed, e, s.nextSeq);
  }

  class TaskManager {
    var ready: Deques
    var heap: seq<Entry>
    var control: map<TaskId, Control>
    var index: set<TaskId>
    var readyCount: int
    var pendingCount: int
    var nextId: nat
    var nextSeq: nat
    var closed: bool

    /** The consumer's snapshot and running entry are locals of Process; the model holds them too. */
    ghost var model: Sched

    /** The fields hold what the model says; the heap holds the model's delayed entries. */
    ghost predicate Shadow()
      reads this
    {
      && ready == model.ready && control == model.ctl && index == model.index
      && readyCount == model.readyCount && pendingCount == model.pendingCount
      && nextId == model.nextId && nextSeq == model.nextSeq && closed == model.closed
      && IsHeap(heap) && multiset(heap) == multiset(model.delayed)
    }

    /** The invariant `Inv(model, owed)` is kept by the model's steps (TaskSteps, TaskProcess); the fields
        need only this much of it. */
    ghost predicate Valid()
      reads this
    {
      Shadow() && DelayedOk(model.delayed, model.nextSeq)
    }

    constructor ()
      ensures Valid() && model == EMPTY
    {
      ready, heap, control, index := [[], [], []], [], map[], {};
      readyCount, pendingCount, nextId, nextSeq, closed := 0, 0, 1, 1, false;
      model := EMPTY;
    }

    // ---------- the containers ----------

    predicate StateIs(id: TaskId, st: State)
      reads this
    {
      id in control && control[id].state == st
    }

    method SetState(id: TaskId, st: State)
      requires id in control
      modifies this`control
      ensures control == old(control)[id := old(control)[id].(state := st)]
    {
      control := control[id := control[id].(state := st)];
    }

    method PushReady(e: Entry)
      modifies this`ready
      ensures ready == old(ready)[PriorityIndex(e.priority) := old(ready)[PriorityIndex(e.priority)] + [e]]
    {
      var p := PriorityIndex(e.priority);
      ready := ready[p := ready[p] + [e]];
    }

    method PushDelayed(e: Entry)
      requires IsHeap(heap)
      modifies this`heap
      ensures IsHeap(heap) && multiset(heap) == multiset(old(heap)) + multiset{e}
    {
      var q := heap + [e];
      assert q[..|q| - 1] == heap;
      heap := PushHeap(q);
    }

    /** pop_heap and pop_back. */
    method PopDelayed() returns (e: Entry)
      requires IsHeap(heap) && heap != []
      modifies this`heap
      ensures e == old(heap)[0] && IsHeap(heap) && multiset(heap) == multiset(old(heap)) - multiset{e}
    {
      var q := PopHeap(heap);
      e := q[|q| - 1];
      FrontMultiset(q);
      heap := q[..|q| - 1];
    }

    // ---------- submission ----------

    /** A fresh control block, and the id's place in the index. */
    method Register(e: Entry, st: State)
      modifies this`control, this`nextId, this`nextSeq, this`index
      ensures control == old(control)[e.id := Control(st, e.periodic, false, 0)] && index == old(index) + {e.id}
      ensures nextId == old(nextId) + 1 && nextSeq == old(nextSeq) + 1
    {
      control := control[e.id := Control(st, e.periodic, false, 0)];
      nextId, nextSeq := nextId + 1, nextSeq + 1;
      index := index + {e.id};
    }

    /** enqueue_ready_locked, and the ready branch of enqueue_periodic_locked. */
    method EnqueueReady(e: Entry)
      requires Valid() && e.id == nextId && e.seqNo == nextSeq
      modifies this
      ensures Valid() && model == Admit(old(model), e, true)
    {
      PutHeap(model, e, true);
      Register(e, QueuedReady);
      PushReady(e);
      readyCount := readyCount + 1;
      pendingCount := pendingCount + 1;
      model := Admit(model, e, true);
    }

    /** enqueue_delayed_locked, and the delayed branch of enqueue_periodic_locked. */
    method EnqueueDelayed(e: Entry)
      requires Valid() && e.id == nextId && e.seqNo == nextSeq
      modifies this
      ensures Valid() && model == Admit(old(model), e, false)
    {
      PutHeap(model, e, false);
      Register(e, QueuedDelayed);
      PushDelayed(e);
      pendingCount := pendingCount + 1;
      model := Admit(model, e, false);
    }

    method Post(callable: bool, priority: int) returns (id: TaskId)
      requires Valid()
      modifies this
      ensures Valid() && (model, id) == TaskOps.Post(old(model), callable, priority)
    {
      if !callable || closed {
        return 0;
      }
      id := nextId;
      EnqueueReady(Entry(nextId, nextSeq, priority, 0, false, 0, FixedDelay, 0));
    }

    method PostAt(callable: bool, due: Time, priority: int, now: Time) returns (id: TaskId)
      requires Valid()
      modifies this
      ensures Valid() && (model, id) == TaskOps.PostAt(old(model), callable, due, priority, now)
    {
      if !callable || closed {
        return 0;
      }
      id := nextId;
      if due <= now {
        EnqueueReady(Entry(nextId, nextSeq, priority, 0, false, 0, FixedDelay, 0));
      } else {
        EnqueueDelayed(Entry(nextId, nextSeq, priority, due, false, 0, FixedDelay, 0));
      }
    }

    method PostEvery(callable: bool, delay: int, interval: int, priority: int, schedule: PeriodicSchedule,
                     now: Time, lockedNow: Time) returns (id: TaskId)
      requires Valid()
      modifies this
      ensures Valid()
      ensures (model, id) == TaskOps.PostEvery(old(model), callable, delay, interval, priority, schedule, now, lockedNow)
    {
      if !callable || interval <= 0 || closed {
        return 0;
      }
      var due := if delay <= 0 then now else now + delay;
      id := nextId;
      var e := Entry(nextId, nextSeq, priority, due, true, interval, schedule, due);
      if due <= lockedNow {
        EnqueueReady(e);
      } else {
        EnqueueDelayed(e);
      }
    }
  
    // ---------- cancellation and rescheduling ----------

    method Cancel(id: TaskId) returns (cancelled: bool)
      requires Valid()
      modifies this
      ensures Valid() && (model, cancelled) == TaskOps.Cancel(old(model), id)
    {
      if id == 0 || id !in index || id !in control {
        return false;
      }
      model := TaskOps.Cancel(model, id).0;
      match control[id].state
      case QueuedReady =>
        SetState(id, Cancelled);
        readyCount := readyCount - 1;
        pendingCount := pendingCount - 1;
        index := index - {id};
        return true;
      case QueuedDelayed | ReadySnapshot =>
        SetState(id, Cancelled);
        pendingCount := pendingCount - 1;
        index := index - {id};
        return true;
      case Executing =>
        if !control[id].periodic {
          return false;
        }
        SetState(id, Cancelled);
        pendingCount := pendingCount - 1;
        control := control[id := control[id].(rescheduleRequested := false)];
        return true;
      case Cancelled | Completed =>
        return false;
    }

    method CancelFromContext(id: TaskId) returns (cancelled: bool)
      requires Valid()
      modifies this
      ensures Valid() && (model, cancelled) == CtxCancel(old(model), id)
    {
      if id == 0 || id !in index || !StateIs(id, Executing) {
        return false;
      }
      model := CtxCancel(model, id).0;
      SetState(id, Cancelled);
      control := control[id := control[id].(rescheduleRequested := false)];
      if control[id].periodic {
        pendingCount := pendingCount - 1;
      }
      return true;
    }

    method RescheduleFromContext(id: TaskId, due: Time) returns (accepted: bool)
      requires Valid()
      modifies this
      ensures Valid() && (model, accepted) == CtxReschedule(old(model), id, due)
    {
      if id == 0 || closed || id !in index || !StateIs(id, Executing) {
        return false;
      }
      model := CtxReschedule(model, id, due).0;
      control := control[id := control[id].(rescheduleRequested := true, rescheduleDue := due)];
      return true;
    }

    // ---------- the delayed heap ----------

    /** The root of the heap is the head of the model's list, and popping either pops the other. */
    ghost predicate Rooted()
      reads this
    {
      && (heap == [] <==> model.delayed == [])
      && (heap != [] ==>
            heap[0] == model.delayed[0] && multiset(model.delayed[1..]) == multiset(heap) - multiset{heap[0]})
    }

    ghost method Root()
      requires Valid()
      ensures Rooted()
    {
      RootIsHead(heap, model.delayed);
      if heap != [] {
        TailMultiset(model.delayed);
      }
    }

    method PruneDelayedTop()
      requires Valid()
      modifies this`heap, this`model
      ensures Valid() && model == Prune(old(model))
    {
      Root();
      while heap != [] && heap[0].id in control && !Live(control[heap[0].id].state)
        invariant Valid() && Rooted() && Prune(model) == Prune(old(model))
        decreases |model.delayed|
      {
        var _ := PopDelayed();
        model := model.(delayed := model.delayed[1..]);
        Root();
      }
    }

    method PromoteDue(now: Time)
      requires Valid()
      modifies this
      ensures Valid() && model == Promote(old(model), now)
    {
      PruneDelayedTop();
      Root();
      while heap != [] && heap[0].due <= now
        invariant Valid() && Rooted() && PromoteLoop(model, now) == Promote(old(model), now)
        decreases |model.delayed|
      {
        PromoteNext(now);
      }
    }

    method PromoteNext(now: Time)
      requires Valid() && Rooted() && heap != [] && heap[0].due <= now
      modifies this
      ensures Valid() && Rooted()
      ensures PromoteLoop(model, now) == PromoteLoop(old(model), now) && |model.delayed| < |old(model).delayed|
    {
      PruneShrinks(PromoteFront(model));
      PopAndPromote();
      PruneDelayedTop();
      Root();
    }

    method PopAndPromote()
      requires Valid() && Rooted() && heap != []
      modifies this
      ensures Valid() && model == PromoteFront(old(model))
    {
      var e := PopDelayed();
      if StateIs(e.id, QueuedDelayed) {
        SetState(e.id, QueuedReady);
        PushReady(e);
        readyCount := readyCount + 1;
      }
      model := PromoteFront(model);
    }

    method NextDeadline() returns (due: Option<Time>)
      requires Valid()
      modifies this
      ensures Valid() && (model, due) == TaskOps.NextDeadline(old(model))
    {
      PruneDelayedTop();
      Root();
      due := if heap == [] then None else Some(heap[0].due);
    }

    // ---------- the consumer ----------

    method TakeReadyBatch(maxTasks: nat) returns (batch: seq<Entry>)
      requires Valid() && model.batch == []
      modifies this
      ensures Valid() && model == Take(old(model), maxTasks) && batch == model.batch
    {
      batch := [];
      var p := 0;
      while p < 3
        invariant 0 <= p <= 3 && Valid() && batch == model.batch
        invariant Take(old(model), maxTasks) == TakeAfter(model, p, maxTasks)
      {
        batch := TakeDeque(p, batch, maxTasks);
        p := p + 1;
      }
    }

    /** The inner loop, over one deque. */
    method TakeDeque(p: nat, batch: seq<Entry>, maxTasks: nat) returns (more: seq<Entry>)
      requires Valid() && p < 3 && batch == model.batch
      modifies this
      ensures Valid() && model == TakeFrom(old(model), p, maxTasks) && more == model.batch
    {
      more := batch;
      while ready[p] != [] && |more| < maxTasks
        invariant Valid() && more == model.batch && TakeFrom(model, p, maxTasks) == TakeFrom(old(model), p, maxTasks)
        decreases |ready[p]|
      {
        more := TakeOne(p, more);
      }
    }

    /** Pop the front of deque `p`; a live entry joins the batch. */
    method TakeOne(p: nat, batch: seq<Entry>) returns (more: seq<Entry>)
      requires Valid() && p < 3 && ready[p] != [] && batch == model.batch
      modifies this
      ensures Valid() && model == TakeFront(old(model), p) && more == model.batch
    {
      more := batch;
      var e := ready[p][0];
      ready := ready[p := ready[p][1..]];
      if StateIs(e.id, QueuedReady) {
        SetState(e.id, ReadySnapshot);
        readyCount := readyCount - 1;
        more := batch + [e];
      }
      model := TakeFront(model, p);
    }

    /** What is left of take_ready_batch_locked once the deques before `p` are done. */
    static ghost function TakeAfter(s: Sched, p: nat, maxTasks: nat): Sched {
      if p == 0 then Take(s, maxTasks)
      else if p == 1 then TakeFrom(TakeFrom(s, 1, maxTasks), 2, maxTasks)
      else if p == 2 then TakeFrom(s, 2, maxTasks)
      else s
    }

    /** enqueue_existing_locked. */
    method EnqueueExisting(e: Entry, due: Time, now: Time)
      requires Valid() && model.running == [e]
      modifies this
      ensures Valid() && model == Requeue(old(model), due, now)
    {
      if !StateIs(e.id, Executing) {
        model := model.(running := []);
        return;
      }
      var again := e.(seqNo := nextSeq, due := due, planned := due);
      if due <= now {
        RequeueReady(e, again, now);
      } else {
        RequeueDelayed(e, again, now);
      }
    }

    method Revive(e: Entry, st: State)
      requires e.id in control
      modifies this`control, this`pendingCount, this`nextSeq
      ensures control == old(control)[e.id := old(control)[e.id].(state := st)]
      ensures pendingCount == old(pendingCount) + (if e.periodic then 0 else 1) && nextSeq == old(nextSeq) + 1
    {
      control := control[e.id := control[e.id].(state := st)];
      if !e.periodic {
        pendingCount := pendingCount + 1;
      }
      nextSeq := nextSeq + 1;
    }

    method RequeueReady(e: Entry, again: Entry, now: Time)
      requires Valid() && model.running == [e] && StateIs(e.id, Executing)
      requires again == e.(seqNo := nextSeq, due := again.due, planned := again.due) && again.due <= now
      modifies this
      ensures Valid() && model == Requeue(old(model), again.due, now)
    {
      PutHeap(model, again, true);
      Revive(e, QueuedReady);
      PushReady(again);
      readyCount := readyCount + 1;
      model := Requeue(model, again.due, now);
    }

    method RequeueDelayed(e: Entry, again: Entry, now: Time)
      requires Valid() && model.running == [e] && StateIs(e.id, Executing)
      requires again == e.(seqNo := nextSeq, due := again.due, planned := again.due) && again.due > now
      modifies this
      ensures Valid() && model == Requeue(old(model), again.due, now)
    {
      PutHeap(model, again, false);
      Revive(e, QueuedDelayed);
      PushDelayed(again);
      model := Requeue(model, again.due, now);
    }

    method Retire(e: Entry, st: State)
      requires Valid() && model.running == [e] && e.id in control
      modifies this
      ensures Valid() && model == Leave(old(model), st)
    {
      SetState(e.id, st);
      if st == Completed && e.periodic {
        pendingCount := pendingCount - 1;
      }
      control := control[e.id := control[e.id].(rescheduleRequested := false)];
      index := index - {e.id};
      model := Leave(model, st);
    }

    method FinishAfterSuccess(e: Entry, now: Time, lockedNow: Time)
      requires Valid() && model.running == [e]
      modifies this
      ensures Valid() && model == FinishSuccess(old(model), now, lockedNow)
    {
      if StateIs(e.id, Cancelled) {
        Retire(e, Cancelled);
      } else if !StateIs(e.id, Executing) {
        model := model.(running := []);
      } else if closed {
        Retire(e, Completed);
      } else if control[e.id].rescheduleRequested {
        var due := control[e.id].rescheduleDue;
        control := control[e.id := control[e.id].(rescheduleRequested := false)];
        model := WithFlag(model, e.id, false);
        EnqueueExisting(e, due, lockedNow);
      } else if e.periodic {
        EnqueueExisting(e, NextPeriodicDue(e, now), lockedNow);
      } else {
        Retire(e, Completed);
      }
    }

    method FinishAfterException(e: Entry)
      requires Valid() && model.running == [e]
      modifies this
      ensures Valid() && model == FinishException(old(model))
    {
      if StateIs(e.id, Executing) {
        Retire(e, Completed);
      } else if StateIs(e.id, Cancelled) {
        Retire(e, Cancelled);
      } else {
        if e.id in control {
          control := control[e.id := control[e.id].(rescheduleRequested := false)];
        }
        model := FinishException(model);
      }
    }

    /** restore_unrun: from the back of the snapshot to `first`, each live entry to the front of its deque. */
    method RestoreUnrun(batch: seq<Entry>, first: nat)
      requires Valid() && first <= |batch| && model.batch == batch[first..]
      modifies this
      ensures Valid() && model == Restore(old(model))
    {
      var i := |batch|;
      while i > first
        invariant first <= i <= |batch| && Valid() && model.batch == batch[first..i]
        invariant Restore(model) == Restore(old(model))
      {
        i := i - 1;
        assert batch[first..i + 1] == batch[first..i] + [batch[i]];
        RestoreOne(batch[i]);
      }
    }

    method RestoreOne(e: Entry)
      requires Valid() && model.batch != [] && e == model.batch[|model.batch| - 1]
      modifies this
      ensures Valid() && model == RestoreBack(old(model)) && model.batch == old(model).batch[..|old(model).batch| - 1]
    {
      if StateIs(e.id, ReadySnapshot) {
        SetState(e.id, QueuedReady);
        var p := PriorityIndex(e.priority);
        ready := ready[p := [e] + ready[p]];
        readyCount := readyCount + 1;
      }
      model := RestoreBack(model);
    }

    // ---------- closing and clearing ----------

    method Close()
      requires Valid()
      modifies this`closed, this`model
      ensures Valid() && model == TaskOps.Close(old(model))
    {
      closed := true;
      model := TaskOps.Close(model);
    }
  
    /** clear_pending on one deque: cancel what still waits, entry by entry, then empty it. */
    method ClearDeque(p: nat) returns (dropped: nat)
      requires Valid() && p < 3
      modifies this
      ensures Valid() && model == ClearReady(old(model), p) && dropped == old(pendingCount) - pendingCount
    {
      dropped := 0;
      var q := ready[p];
      ghost var t := model;
      var i := 0;
      while i < |q|
        invariant 0 <= i <= |q| && q == ready[p] && ready == old(ready) && model == old(model)
        invariant t == model.(ready := ready[p := q[i..]], ctl := control, index := index, readyCount := readyCount, pendingCount := pendingCount)
        invariant ClearReady(t, p) == ClearReady(old(model), p)
        invariant nextId == model.nextId && nextSeq == model.nextSeq && closed == model.closed && heap == old(heap)
        invariant dropped == old(pendingCount) - pendingCount
      {
        t := DropReady(t, p);
        var one := CancelWaiting(q[i].id, QueuedReady);
        dropped := dropped + one;
        i := i + 1;
      }
      ready := ready[p := []];
      model := t;
    }

    /** The CAS of clear_pending on one entry, and what follows when it succeeds. */
    method CancelWaiting(id: TaskId, waiting: State) returns (dropped: nat)
      requires waiting == QueuedReady || waiting == QueuedDelayed
      modifies this`control, this`index, this`readyCount, this`pendingCount
      ensures dropped == (if old(StateIs(id, waiting)) then 1 else 0)
      ensures pendingCount == old(pendingCount) - dropped
      ensures readyCount == old(readyCount) - (if waiting == QueuedReady then dropped else 0)
      ensures control == if dropped == 1 then old(control)[id := old(control)[id].(state := Cancelled)] else old(control)
      ensures index == if dropped == 1 then old(index) - {id} else old(index)
    {
      if !StateIs(id, waiting) {
        return 0;
      }
      control := control[id := control[id].(state := Cancelled)];
      if waiting == QueuedReady {
        readyCount := readyCount - 1;
      }
      pendingCount := pendingCount - 1;
      index := index - {id};
      return 1;
    }

    /** clear_pending on the heap, in the order of the vector. */
    method ClearHeap() returns (dropped: nat)
      requires Valid()
      modifies this
      ensures Valid() && model == ClearDelayed(old(model)) && dropped == old(pendingCount) - pendingCount
    {
      ghost var t;
      dropped, t := CancelHeap();
      HeapCleared(model, heap);
      heap := [];
      model := t.(delayed := []);
    }

    method CancelHeap() returns (dropped: nat, ghost t: Sched)
      requires ShadowsBut(model)
      modifies this`control, this`index, this`readyCount, this`pendingCount
      ensures ShadowsBut(t) && t == DropIds(model, TaskInvariant.Ids(heap)) && dropped == old(pendingCount) - pendingCount
    {
      dropped, t := 0, model;
      DropNone(model);
      assert heap[..0] == [];
      var i := 0;
      while i < |heap|
        invariant 0 <= i <= |heap| && t == DropIds(model, TaskInvariant.Ids(heap[..i])) && ShadowsBut(t)
        invariant dropped == old(pendingCount) - pendingCount
      {
        var one;
        one, t := ClearNext(i, t);
        dropped := dropped + one;
        i := i + 1;
      }
      assert heap[..i] == heap;
    }

    method ClearNext(i: nat, ghost s: Sched) returns (dropped: nat, ghost t: Sched)
      requires i < |heap| && s == DropIds(model, TaskInvariant.Ids(heap[..i])) && ShadowsBut(s)
      modifies this`control, this`index, this`readyCount, this`pendingCount
      ensures dropped == old(pendingCount) - pendingCount && ShadowsBut(t) && t == DropIds(model, TaskInvariant.Ids(heap[..i + 1]))
    {
      DropNext(model, heap, i);
      dropped, t := CancelDelayed(heap[i].id, s);
    }

    method CancelDelayed(id: TaskId, ghost s: Sched) returns (dropped: nat, ghost t: Sched)
      requires ShadowsBut(s)
      modifies this`control, this`index, this`readyCount, this`pendingCount
      ensures dropped == old(pendingCount) - pendingCount && ShadowsBut(t)
      ensures t == DropOne(s, id)
    {
      dropped := CancelWaiting(id, QueuedDelayed);
      t := DropOne(s, id);
    }

    /** The fields other than the heap are those of `s`. */
    ghost predicate ShadowsBut(s: Sched)
      reads this
    {
      && ready == s.ready && control == s.ctl && index == s.index
      && readyCount == s.readyCount && pendingCount == s.pendingCount
      && nextId == s.nextId && nextSeq == s.nextSeq && closed == s.closed
    }

    method ClearPending() returns (dropped: nat)
      requires Valid()
      modifies this
      ensures Valid() && model == TaskOps.ClearPending(old(model)) && dropped == old(pendingCount) - pendingCount
    {
      var high := ClearDeque(0);
      var normal := ClearDeque(1);
      var low := ClearDeque(2);
      var later := ClearHeap();
      dropped := high + normal + low + later;
    }

    // ---------- process() ----------

    /** One call of a callback or another user of the manager. */
    method Serve(op: Op) returns (reply: Reply)
      requires Valid()
      modifies this
      ensures Valid() && (model, reply) == Apply(old(model), op)
    {
      match op
      case OpPost(c, p) => var id := Post(c, p); reply := Id(id);
      case OpPostAt(c, due, p, now) => var id := PostAt(c, due, p, now); reply := Id(id);
      case OpPostEvery(c, d, i, p, sch, now, lnow) => var id := PostEvery(c, d, i, p, sch, now, lnow); reply := Id(id);
      case OpCancel(id) => var b := Cancel(id); reply := Flag(b);
      case OpCtxCancel(id) => var b := CancelFromContext(id); reply := Flag(b);
      case OpCtxIsCancelled(id) => reply := Flag(id != 0 && id in index && StateIs(id, Cancelled));
      case OpCtxReschedule(id, due) => var b := RescheduleFromContext(id, due); reply := Flag(b);
      case OpNextDeadline => var due := NextDeadline(); reply := Deadline(due);
      case OpIsClosed => reply := Flag(closed);
      case OpClose => Close(); reply := Nothing;
      case OpClearPending => var _ := ClearPending(); reply := Nothing;
      case OpReadyCount => reply := Count(readyCount);
      case OpPendingCount => reply := Count(pendingCount);
    }

    /** Run user code to its end. */
    method RunCallback(c: Callback) returns (threw: bool, ghost log: seq<Event>)
      requires Valid()
      modifies this
      ensures Valid() && Run(old(model), c, []) == RunResult(model, log, threw)
    {
      var replies: seq<Reply> := [];
      log := [];
      threw := c.next(replies).Raise?;
      while c.next(replies).Call? && |replies| < c.maxCalls
        invariant Valid() && threw == c.next(replies).Raise?
        invariant Run(old(model), c, []) == Run(model, c, replies).(log := log + Run(model, c, replies).log)
        decreases c.maxCalls - |replies|
      {
        var op := c.next(replies).op;
        RunUnfold(model, c, replies);
        LogStep(Run(old(model), c, []), log, [Called(op, Apply(model, op).1)], Run(Apply(model, op).0, c, replies + [Apply(model, op).1]));
        var reply := Serve(op);
        log := log + [Called(op, reply)];
        replies := replies + [reply];
        threw := c.next(replies).Raise?;
      }
      RunEnd(model, c, replies);
    }

    /** The consumer's CAS on a snapshot entry, with the decrement that follows for a one-shot task. */
    method StartNext(e: Entry) returns (started: bool)
      requires Valid() && model.batch != [] && model.batch[0] == e && model.running == []
      modifies this
      ensures Valid() && started == Start(old(model)).1
      ensures model == if started then Decrement(Start(old(model)).0) else Start(old(model)).0
    {
      started := StateIs(e.id, ReadySnapshot);
      model := if started then Decrement(Start(model).0) else Start(model).0;
      if started {
        SetState(e.id, Executing);
        if !e.periodic {
          pendingCount := pendingCount - 1;
        }
      }
    }
  
    /** A started entry to its end: the callback, then either finish or the exception policy. */
    method RunTask(e: Entry, program: Program, handler: Handler, ghost started: Sched) returns (threw: bool, ghost log: seq<Event>)
      requires Valid() && started.running == [e] && model == Decrement(started)
      modifies this
      ensures Valid() && RunStarted(started, e.id, program, handler) == RunResult(model, log, threw)
    {
      var c := program(e.id);
      threw, log := RunCallback(c);
      if !threw {
        FinishAfterSuccess(e, c.finishNow, c.finishLockedNow);
      } else {
        FinishAfterException(e);
        match handler
        case NoHandler =>
        case Handler(h) =>
          ghost var handled;
          threw, handled := RunCallback(h(e.id));
          log := log + handled;
      }
    }

    method Process(maxTasks: nat, now: Time, program: Program, handler: Handler)
        returns (processed: nat, outcome: Outcome, ghost log: seq<Event>)
      requires Valid() && model.batch == [] && model.running == []
      modifies this
      ensures Valid()
      ensures TaskProcess.Process(old(model), maxTasks, now, program, handler) == ProcessResult(model, processed, log, outcome)
    {
      processed, outcome, log := 0, Finished, [];
      if maxTasks == 0 {
        return;
      }
      PromoteFrame(model, now);
      TakeFrame(Promote(model, now), maxTasks);
      PromoteDue(now);
      var batch := TakeReadyBatch(maxTasks);
      processed, outcome, log := VisitAll(batch, program, handler);
    }

    /** The loop over the snapshot. */
    method VisitAll(batch: seq<Entry>, program: Program, handler: Handler)
        returns (processed: nat, outcome: Outcome, ghost log: seq<Event>)
      requires Valid() && model.batch == batch && model.running == []
      modifies this
      ensures Valid() && RunBatch(old(model), program, handler) == ProcessResult(model, processed, log, outcome)
    {
      processed, outcome, log := 0, Finished, [];
      assert batch[0..] == batch;
      var i := 0;
      while i < |batch|
        invariant 0 <= i <= |batch| && Valid() && model.batch == batch[i..] && model.running == [] && outcome == Finished
        invariant RunBatch(old(model), program, handler) == After(processed, log, RunBatch(model, program, handler))
      {
        var started, threw; ghost var head;
        started, threw, head := Visit(batch, i, program, handler);
        if threw {
          return processed, Rethrown(batch[i].id), log + head;
        }
        AfterAgain(processed, log, if started then 1 else 0, head, RunBatch(model, program, handler));
        processed := processed + if started then 1 else 0;
        log := log + head;
        i := i + 1;
      }
    }

    /** One turn of that loop: skip a cancelled entry, or start it and see it through. */
    method Visit(batch: seq<Entry>, i: nat, program: Program, handler: Handler)
        returns (started: bool, threw: bool, ghost head: seq<Event>)
      requires Valid() && i < |batch| && model.batch == batch[i..] && model.running == []
      modifies this
      ensures Valid()
      ensures threw ==> RunBatch(old(model), program, handler) == ProcessResult(model, 0, head, Rethrown(batch[i].id))
      ensures !threw ==> model.batch == batch[i + 1..] && model.running == []
      ensures !threw ==>
        RunBatch(old(model), program, handler) == After(if started then 1 else 0, head, RunBatch(model, program, handler))
    {
      ghost var s := model;
      BatchUnfold(s, program, handler);
      started := StartNext(batch[i]);
      if !started {
        return false, false, [Skipped(batch[i].id)];
      }
      threw, head := RunTask(batch[i], program, handler, Start(s).0);
      head := [Started(batch[i].id)] + head;
      if threw {
        RestoreUnrun(batch, i + 1);
      }
    }
  }

  /** What a call of process() returns when `processed` tasks and `log` lie behind it. */
  ghost function After(processed: nat, log: seq<Event>, rest: ProcessResult): ProcessResult {
    rest.(processed := processed + rest.processed, log := log + rest.log)
  }

  lemma BatchUnfold(s: Sched, program: Program, handler: Handler)
    requires s.running == [] && s.batch != []
    ensures var (t, started) := Start(s);
      if !started then RunBatch(s, program, handler) == After(0, [Skipped(s.batch[0].id)], RunBatch(t, program, handler))
      else
        var one := RunStarted(t, s.batch[0].id, program, handler);
        var head := [Started(s.batch[0].id)] + one.log;
        if one.threw then RunBatch(s, program, handler) == ProcessResult(Restore(one.s), 0, head, Rethrown(s.batch[0].id))
        else RunBatch(s, program, handler) == After(1, head, RunBatch(one.s, program, handler))
  {
  }

  lemma AfterAgain(n: nat, log: seq<Event>, m: nat, more: seq<Event>, rest: ProcessResult)
    ensures After(n, log, After(m, more, rest)) == After(n + m, log + more, rest)
  {
    assert log + (more + rest.log) == (log + more) + rest.log;
  }
}
