/** The mutex regions of TaskManager, each as a function from the state before to the state after.
    A region that loops is a function that repeats a single-entry step, so that what every step
    keeps, every region keeps. */
module TaskOps {
  import opened TaskTypes

  // ---------- submission ----------

  /** Insert into a list sorted by `Sooner`. */
  function Insert(q: seq<Entry>, e: Entry): seq<Entry> {
    if q == [] || Sooner(e, q[0]) then [e] + q else [q[0]] + Insert(q[1..], e)
  }

  function Put(s: Sched, e: Entry, ready: bool): Sched {
    if ready then
      var p := PriorityIndex(e.priority);
      s.(ready := s.ready[p := s.ready[p] + [e]])
    else
      s.(delayed := Insert(s.delayed, e))
  }

  /** A fresh id, a fresh control block and a new entry in the deque or the heap. */
  function Admit(s: Sched, e: Entry, ready: bool): Sched
    requires e.id == s.nextId && e.seqNo == s.nextSeq
  {
    var control := Control(if ready then QueuedReady else QueuedDelayed, e.periodic, false, 0);
    Put(s, e, ready).(
      ctl := s.ctl[e.id := control],
      index := s.index + {e.id},
      readyCount := s.readyCount + (if ready then 1 else 0),
      pendingCount := s.pendingCount + 1,
      nextId := s.nextId + 1,
      nextSeq := s.nextSeq + 1)
  }

  function OneShot(s: Sched, priority: int, due: Time): Entry {
    Entry(s.nextId, s.nextSeq, priority, due, false, 0, FixedDelay, 0)
  }

  function PeriodicEntry(s: Sched, priority: int, due: Time, interval: int, schedule: PeriodicSchedule): Entry {
    Entry(s.nextId, s.nextSeq, priority, due, true, interval, schedule, due)
  }

  function Post(s: Sched, callable: bool, priority: int): (Sched, TaskId) {
    if !callable || s.closed then (s, 0) else (Admit(s, OneShot(s, priority, 0), true), s.nextId)
  }

  function PostAt(s: Sched, callable: bool, due: Time, priority: int, now: Time): (Sched, TaskId) {
    if !callable || s.closed then (s, 0)
    else if due <= now then (Admit(s, OneShot(s, priority, 0), true), s.nextId)
    else (Admit(s, OneShot(s, priority, due), false), s.nextId)
  }

  /** `now` is read before the lock and gives the first deadline; `lockedNow` is read inside. */
  function PostEvery(s: Sched, callable: bool, delay: int, interval: int, priority: int,
                     schedule: PeriodicSchedule, now: Time, lockedNow: Time): (Sched, TaskId)
  {
    if !callable || interval <= 0 || s.closed then (s, 0)
    else
      var due := if delay <= 0 then now else now + delay;
      (Admit(s, PeriodicEntry(s, priority, due, interval, schedule), due <= lockedNow), s.nextId)
  }

  // ---------- cancellation and rescheduling ----------

  /** The CAS of cancel(), from the state it loaded. It fails when the state has moved on. */
  function CancelCas(s: Sched, id: TaskId, observed: State): (Sched, bool)
    requires id in s.ctl
  {
    var c := s.ctl[id];
    if !Live(observed) || (observed == Executing && !c.periodic) || c.state != observed then (s, false)
    else if observed == Executing then
      (s.(ctl := s.ctl[id := c.(state := Cancelled, rescheduleRequested := false)],
          pendingCount := s.pendingCount - 1), true)
    else
      (WithState(s, id, Cancelled).(
         readyCount := s.readyCount - (if observed == QueuedReady then 1 else 0),
         pendingCount := s.pendingCount - 1,
         index := s.index - {id}), true)
  }

  function Cancel(s: Sched, id: TaskId): (Sched, bool) {
    if id == 0 || id !in s.index || id !in s.ctl then (s, false)
    else CancelCas(s, id, s.ctl[id].state)
  }

  function CtxCancel(s: Sched, id: TaskId): (Sched, bool) {
    if id == 0 || id !in s.index || !HasState(s, id, Executing) then (s, false)
    else
      var c := s.ctl[id];
      (s.(ctl := s.ctl[id := c.(state := Cancelled, rescheduleRequested := false)],
          pendingCount := s.pendingCount - (if c.periodic then 1 else 0)), true)
  }

  predicate CtxIsCancelled(s: Sched, id: TaskId) {
    id != 0 && id in s.index && HasState(s, id, Cancelled)
  }

  function CtxReschedule(s: Sched, id: TaskId, due: Time): (Sched, bool) {
    if id == 0 || s.closed || id !in s.index || !HasState(s, id, Executing) then (s, false)
    else
      (s.(ctl := s.ctl[id := s.ctl[id].(rescheduleRequested := true, rescheduleDue := due)]), true)
  }

  // ---------- the delayed container ----------

  predicate Dead(s: Sched, e: Entry) {
    e.id in s.ctl && !Live(s.ctl[e.id].state)
  }

  function Prune(s: Sched): Sched
    decreases |s.delayed|
  {
    var q := s.delayed;
    if q != [] && Dead(s, q[0]) then Prune(s.(delayed := q[1..])) else s
  }

  /** Pop the front of the heap and move it to its deque if it is still waiting. */
  function PromoteFront(s: Sched): Sched
    requires s.delayed != []
  {
    var e := s.delayed[0];
    var s1 := s.(delayed := s.delayed[1..]);
    if HasState(s, e.id, QueuedDelayed) then
      Put(WithState(s1, e.id, QueuedReady), e, true).(readyCount := s.readyCount + 1)
    else s1
  }

  function PromoteLoop(s: Sched, now: Time): Sched
    decreases |s.delayed|
  {
    var q := s.delayed;
    if q != [] && q[0].due <= now then
      PruneShrinks(PromoteFront(s));
      PromoteLoop(Prune(PromoteFront(s)), now)
    else s
  }

  function Promote(s: Sched, now: Time): Sched {
    PromoteLoop(Prune(s), now)
  }

  lemma PruneShrinks(s: Sched)
    ensures |Prune(s).delayed| <= |s.delayed|
    decreases |s.delayed|
  {
    var q := s.delayed;
    if q == [] || !Dead(s, q[0]) {
    } else {
      PruneShrinks(s.(delayed := q[1..]));
    }
  }

  /** Pruning touches the delayed container only. */
  lemma {:induction false} PruneFrame(s: Sched)
    ensures Prune(s) == s.(delayed := Prune(s).delayed)
    decreases |s.delayed|
  {
    if s.delayed == [] || !Dead(s, s.delayed[0]) {
    } else {
      PruneFrame(s.(delayed := s.delayed[1..]));
    }
  }

  function NextDeadline(s: Sched): (Sched, Option<Time>) {
    var t := Prune(s);
    (t, if t.delayed == [] then None else Some(t.delayed[0].due))
  }

  // ---------- the consumer ----------

  /** Pop the front of ready deque `p`: a live entry joins the snapshot, a dead one is discarded. */
  function TakeFront(s: Sched, p: nat): Sched
    requires p < 3 && s.ready[p] != []
  {
    var e := s.ready[p][0];
    var s1 := s.(ready := s.ready[p := s.ready[p][1..]]);
    if HasState(s, e.id, QueuedReady) then
      WithState(s1, e.id, ReadySnapshot).(batch := s.batch + [e], readyCount := s.readyCount - 1)
    else s1
  }

  function TakeFrom(s: Sched, p: nat, maxTasks: nat): Sched
    requires p < 3
    decreases |s.ready[p]|
  {
    if s.ready[p] == [] || |s.batch| >= maxTasks then s else TakeFrom(TakeFront(s, p), p, maxTasks)
  }

  /** take_ready_batch_locked: high, then normal, then low, until the snapshot is full. */
  function Take(s: Sched, maxTasks: nat): Sched {
    TakeFrom(TakeFrom(TakeFrom(s, 0, maxTasks), 1, maxTasks), 2, maxTasks)
  }

  /** The consumer's lock-free CAS on the next snapshot entry. On success the entry is running. */
  function Start(s: Sched): (Sched, bool)
    requires s.batch != []
  {
    var e := s.batch[0];
    var s1 := s.(batch := s.batch[1..]);
    if HasState(s, e.id, ReadySnapshot) then
      (WithState(s1, e.id, Executing).(running := [e]), true)
    else (s1, false)
  }

  /** The decrement that follows the CAS for a one-shot task, also outside the lock. */
  function Decrement(s: Sched): Sched
    requires s.running != []
  {
    if s.running[0].periodic then s else s.(pendingCount := s.pendingCount - 1)
  }

  function NextPeriodicDue(e: Entry, now: Time): Time {
    if e.schedule == FixedRate then e.planned + e.interval else now + e.interval
  }

  /** enqueue_existing_locked: the running entry goes back to a deque or the heap. */
  function Requeue(s: Sched, due: Time, now: Time): Sched
    requires s.running != []
  {
    var e := s.running[0];
    var s1 := s.(running := []);
    if !HasState(s, e.id, Executing) then s1
    else
      var e' := e.(seqNo := s.nextSeq, due := due, planned := due);
      var st := if due <= now then QueuedReady else QueuedDelayed;
      Put(WithState(s1, e.id, st), e', due <= now).(
        nextSeq := s.nextSeq + 1,
        pendingCount := s.pendingCount + (if e.periodic then 0 else 1),
        readyCount := s.readyCount + (if due <= now then 1 else 0))
  }

  function WithFlag(s: Sched, id: TaskId, requested: bool): Sched
    requires id in s.ctl
  {
    s.(ctl := s.ctl[id := s.ctl[id].(rescheduleRequested := requested)])
  }

  /** The running entry leaves for good: its id leaves the index. */
  function Leave(s: Sched, st: State): Sched
    requires s.running != [] && s.running[0].id in s.ctl
  {
    var e := s.running[0];
    WithFlag(WithState(s, e.id, st), e.id, false).(
      running := [],
      index := s.index - {e.id},
      pendingCount := s.pendingCount - (if st == Completed && e.periodic then 1 else 0))
  }

  /** finish_after_success. `now` feeds a fixed-delay deadline, `lockedNow` decides ready or delayed. */
  function FinishSuccess(s: Sched, now: Time, lockedNow: Time): Sched
    requires s.running != []
  {
    var e := s.running[0];
    if HasState(s, e.id, Cancelled) then Leave(s, Cancelled)
    else if !HasState(s, e.id, Executing) then s.(running := [])
    else if s.closed then Leave(s, Completed)
    else if s.ctl[e.id].rescheduleRequested then Requeue(WithFlag(s, e.id, false), s.ctl[e.id].rescheduleDue, lockedNow)
    else if e.periodic then Requeue(s, NextPeriodicDue(e, now), lockedNow)
    else Leave(s, Completed)
  }

  function FinishException(s: Sched): Sched
    requires s.running != []
  {
    var id := s.running[0].id;
    if HasState(s, id, Executing) then Leave(s, Completed)
    else if HasState(s, id, Cancelled) then Leave(s, Cancelled)
    else if id in s.ctl then WithFlag(s, id, false).(running := [])
    else s.(running := [])
  }

  /** The last unvisited snapshot entry goes back to the front of its deque. */
  function RestoreBack(s: Sched): Sched
    requires s.batch != []
  {
    var b := s.batch;
    var e := b[|b| - 1];
    var s1 := s.(batch := b[..|b| - 1]);
    if HasState(s, e.id, ReadySnapshot) then
      var p := PriorityIndex(e.priority);
      WithState(s1, e.id, QueuedReady).(ready := s.ready[p := [e] + s.ready[p]], readyCount := s.readyCount + 1)
    else s1
  }

  function Restore(s: Sched): Sched
    decreases |s.batch|
  {
    if s.batch == [] then s else Restore(RestoreBack(s))
  }

  // ---------- closing and clearing ----------

  function Close(s: Sched): Sched {
    s.(closed := true)
  }

  /** clear_pending on one entry of a deque. */
  function DropReady(s: Sched, p: nat): Sched
    requires p < 3 && s.ready[p] != []
  {
    var e := s.ready[p][0];
    var s1 := s.(ready := s.ready[p := s.ready[p][1..]]);
    if HasState(s, e.id, QueuedReady) then
      WithState(s1, e.id, Cancelled).(
        readyCount := s.readyCount - 1,
        pendingCount := s.pendingCount - 1,
        index := s.index - {e.id})
    else s1
  }

  /** clear_pending on one entry of the heap. */
  function DropDelayed(s: Sched): Sched
    requires s.delayed != []
  {
    var e := s.delayed[0];
    var s1 := s.(delayed := s.delayed[1..]);
    if HasState(s, e.id, QueuedDelayed) then
      WithState(s1, e.id, Cancelled).(pendingCount := s.pendingCount - 1, index := s.index - {e.id})
    else s1
  }

  function ClearReady(s: Sched, p: nat): Sched
    requires p < 3
    decreases |s.ready[p]|
  {
    if s.ready[p] == [] then s else ClearReady(DropReady(s, p), p)
  }

  function ClearDelayed(s: Sched): Sched
    decreases |s.delayed|
  {
    if s.delayed == [] then s else ClearDelayed(DropDelayed(s))
  }

  function ClearPending(s: Sched): Sched {
    ClearDelayed(ClearReady(ClearReady(ClearReady(s, 0), 1), 2))
  }

  // ---------- what a callback or another thread can call ----------

  datatype Op =
    | OpPost(callable: bool, priority: int)
    | OpPostAt(callable: bool, due: Time, priority: int, now: Time)
    | OpPostEvery(callable: bool, delay: int, interval: int, priority: int, schedule: PeriodicSchedule,
                  now: Time, lockedNow: Time)
    | OpCancel(id: TaskId)
    | OpCtxCancel(id: TaskId)
    | OpCtxIsCancelled(id: TaskId)
    | OpCtxReschedule(id: TaskId, due: Time)
    | OpNextDeadline
    | OpIsClosed
    | OpClose
    | OpClearPending
    | OpReadyCount
    | OpPendingCount

  datatype Reply = Id(id: TaskId) | Flag(b: bool) | Deadline(due: Option<Time>) | Count(n: int) | Nothing

  /** One call: the new state and the value returned to the caller. */
  function Apply(s: Sched, op: Op): (Sched, Reply) {
    match op
    case OpPost(c, p) => var (t, id) := Post(s, c, p); (t, Id(id))
    case OpPostAt(c, due, p, now) => var (t, id) := PostAt(s, c, due, p, now); (t, Id(id))
    case OpPostEvery(c, d, i, p, sch, now, lnow) => var (t, id) := PostEvery(s, c, d, i, p, sch, now, lnow); (t, Id(id))
    case OpCancel(id) => var (t, b) := Cancel(s, id); (t, Flag(b))
    case OpCtxCancel(id) => var (t, b) := CtxCancel(s, id); (t, Flag(b))
    case OpCtxIsCancelled(id) => (s, Flag(CtxIsCancelled(s, id)))
    case OpCtxReschedule(id, due) => var (t, b) := CtxReschedule(s, id, due); (t, Flag(b))
    case OpNextDeadline => var (t, due) := NextDeadline(s); (t, Deadline(due))
    case OpIsClosed => (s, Flag(s.closed))
    case OpClose => (Close(s), Nothing)
    case OpClearPending => (ClearPending(s), Nothing)
    case OpReadyCount => (s, Count(s.readyCount))
    case OpPendingCount => (s, Count(s.pendingCount))
  }

  // ---------- submissions at a glance ----------

  predicate Posts(op: Op) {
    op.OpPost? || op.OpPostAt? || op.OpPostEvery?
  }

  /** The entry that a submission makes, and whether it starts out ready. */
  function PostedEntry(s: Sched, op: Op): (Entry, bool)
    requires Posts(op)
  {
    match op
    case OpPost(_, p) => (OneShot(s, p, 0), true)
    case OpPostAt(_, due, p, now) => (OneShot(s, p, if due <= now then 0 else due), due <= now)
    case OpPostEvery(_, d, i, p, sch, now, lnow) =>
      var due := if d <= 0 then now else now + d;
      (PeriodicEntry(s, p, due, i, sch), due <= lnow)
  }

  predicate Accepts(s: Sched, op: Op)
    requires Posts(op)
  {
    op.callable && !s.closed && (op.OpPostEvery? ==> op.interval > 0)
  }

  /** A submission is accepted whole or changes nothing. */
  lemma PostShape(s: Sched, op: Op)
    requires Posts(op)
    ensures var (e, ready) := PostedEntry(s, op);
      e.id == s.nextId && e.seqNo == s.nextSeq &&
      Apply(s, op) == if Accepts(s, op) then (Admit(s, e, ready), Id(s.nextId)) else (s, Id(0))
  {
  }
}
