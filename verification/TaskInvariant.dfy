/** What every step of the scheduler keeps: where each task's entry is, what the index holds and
    what the two counters count. */
module TaskInvariant {
  import opened TaskTypes
  import opened TaskOps

  type Controls = map<TaskId, Control>

  // ---------- the invariant ----------

  ghost function Ids(q: seq<Entry>): set<TaskId> {
    if q == [] then {} else {q[0].id} + Ids(q[1..])
  }

  /** A list sorted by `Sooner`, which is transitive. */
  ghost predicate Sorted(q: seq<Entry>) {
    |q| >= 2 ==> Sooner(q[0], q[1]) && Sorted(q[1..])
  }

  ghost predicate EntryOk(e: Entry, c: Controls, nextSeq: nat, st: State) {
    && e.id in c && (c[e.id].state == st || c[e.id].state == Cancelled)
    && e.periodic == c[e.id].periodic && e.seqNo < nextSeq
  }

  /** Every entry of `q` belongs to a known task that is in state `st`, the state of this place, or
      cancelled. No task has two entries here. */
  ghost predicate QueueOk(q: seq<Entry>, c: Controls, nextSeq: nat, st: State) {
    q != [] ==> EntryOk(q[0], c, nextSeq, st) && q[0].id !in Ids(q[1..]) && QueueOk(q[1..], c, nextSeq, st)
  }

  ghost predicate InDeque(q: seq<Entry>, p: nat) {
    q != [] ==> PriorityIndex(q[0].priority) == p && InDeque(q[1..], p)
  }

  ghost predicate DequeOk(s: Sched, p: nat)
    requires p < 3
  {
    QueueOk(s.ready[p], s.ctl, s.nextSeq, QueuedReady) && InDeque(s.ready[p], p)
  }

  ghost predicate QueuesOk(s: Sched) {
    && DequeOk(s, 0) && DequeOk(s, 1) && DequeOk(s, 2)
    && QueueOk(s.delayed, s.ctl, s.nextSeq, QueuedDelayed) && Sorted(s.delayed)
    && QueueOk(s.batch, s.ctl, s.nextSeq, ReadySnapshot)
    && QueueOk(s.running, s.ctl, s.nextSeq, Executing) && |s.running| <= 1
  }

  ghost function ReadyIds(s: Sched): set<TaskId> {
    Ids(s.ready[0]) + Ids(s.ready[1]) + Ids(s.ready[2])
  }

  /** Where a live task has its entry. */
  ghost predicate HasEntry(s: Sched, id: TaskId, st: State) {
    match st
    case QueuedReady => id in ReadyIds(s)
    case QueuedDelayed => id in Ids(s.delayed)
    case ReadySnapshot => id in Ids(s.batch)
    case Executing => id in Ids(s.running)
    case _ => true
  }

  /** A known task: a live one has an entry in the place of its state, only one deque holds it, and
      the index holds it while it is live, or cancelled with its callback still running. */
  ghost predicate TaskOk(s: Sched, id: TaskId) {
    && (id in s.ctl <==> 1 <= id < s.nextId)
    && (id in s.ctl ==> HasEntry(s, id, s.ctl[id].state))
    && (id in s.index <==> id in s.ctl && (Live(s.ctl[id].state) || id in Ids(s.running)))
    && !(id in Ids(s.ready[0]) && id in Ids(s.ready[1]))
    && !(id in Ids(s.ready[0]) && id in Ids(s.ready[2]))
    && !(id in Ids(s.ready[1]) && id in Ids(s.ready[2]))
  }

  ghost predicate Housed(s: Sched) {
    1 <= s.nextId && forall id :: TaskOk(s, id)
  }

  ghost function WaitingIds(c: Controls): set<TaskId> {
    set id | id in c && c[id].state == QueuedReady
  }

  predicate Counted(c: Control) {
    c.state == QueuedReady || c.state == QueuedDelayed || c.state == ReadySnapshot || (c.state == Executing && c.periodic)
  }

  ghost function PendingIds(c: Controls): set<TaskId> {
    set id | id in c && Counted(c[id])
  }

  /** `owed` is 1 exactly while the consumer sits between its CAS on a one-shot task and the decrement. */
  ghost predicate Tallied(s: Sched, owed: nat) {
    && s.readyCount == |WaitingIds(s.ctl)|
    && s.pendingCount == |PendingIds(s.ctl)| + owed
  }

  ghost predicate Inv(s: Sched, owed: nat) {
    QueuesOk(s) && Housed(s) && Tallied(s, owed)
  }

  lemma EmptyInv()
    ensures Inv(EMPTY, 0)
  {
    assert WaitingIds(EMPTY.ctl) == {} && PendingIds(EMPTY.ctl) == {};
  }

  // ---------- sequences of entries ----------

  lemma {:induction false} IdsConcat(a: seq<Entry>, b: seq<Entry>)
    ensures Ids(a + b) == Ids(a) + Ids(b)
  {
    if a == [] {
      assert a + b == b;
    } else {
      assert (a + b)[1..] == a[1..] + b;
      IdsConcat(a[1..], b);
    }
  }

  /** Two stretches of one place: both are well kept and no task has an entry in both. */
  lemma {:induction false} Concat(a: seq<Entry>, b: seq<Entry>, c: Controls, n: nat, st: State)
    ensures QueueOk(a + b, c, n, st) <==> QueueOk(a, c, n, st) && QueueOk(b, c, n, st) && Ids(a) !! Ids(b)
    ensures Ids(a + b) == Ids(a) + Ids(b)
  {
    if a == [] {
      assert a + b == b;
    } else {
      assert (a + b)[1..] == a[1..] + b;
      Concat(a[1..], b, c, n, st);
    }
  }

  lemma {:induction false} InDequeConcat(a: seq<Entry>, b: seq<Entry>, p: nat)
    ensures InDeque(a + b, p) <==> InDeque(a, p) && InDeque(b, p)
  {
    if a == [] {
      assert a + b == b;
    } else {
      assert (a + b)[1..] == a[1..] + b;
      InDequeConcat(a[1..], b, p);
    }
  }

  lemma {:induction false} PopBack(q: seq<Entry>, c: Controls, n: nat, st: State)
    requires q != [] && QueueOk(q, c, n, st)
    ensures var r, e := q[..|q| - 1], q[|q| - 1];
      QueueOk(r, c, n, st) && EntryOk(e, c, n, st) && e.id !in Ids(r) && Ids(q) == Ids(r) + {e.id}
  {
    var r, e := q[..|q| - 1], q[|q| - 1];
    assert q == r + [e];
    Concat(r, [e], c, n, st);
  }

  lemma {:induction false} Append(q: seq<Entry>, e: Entry, c: Controls, n: nat, st: State)
    requires QueueOk(q, c, n, st) && e.id !in Ids(q) && EntryOk(e, c, n, st)
    ensures QueueOk(q + [e], c, n, st) && Ids(q + [e]) == Ids(q) + {e.id}
  {
    Concat(q, [e], c, n, st);
  }

  lemma {:induction false} Prepend(q: seq<Entry>, e: Entry, c: Controls, n: nat, st: State)
    requires QueueOk(q, c, n, st) && e.id !in Ids(q) && EntryOk(e, c, n, st)
    ensures QueueOk([e] + q, c, n, st) && Ids([e] + q) == Ids(q) + {e.id}
  {
    Concat([e], q, c, n, st);
  }

  lemma {:induction false} InsertKeeps(q: seq<Entry>, e: Entry, c: Controls, n: nat, st: State)
    requires QueueOk(q, c, n, st) && e.id !in Ids(q) && EntryOk(e, c, n, st)
    ensures QueueOk(Insert(q, e), c, n, st) && Ids(Insert(q, e)) == Ids(q) + {e.id}
  {
    if q == [] || Sooner(e, q[0]) {
      Prepend(q, e, c, n, st);
    } else {
      InsertKeeps(q[1..], e, c, n, st);
      Prepend(Insert(q[1..], e), q[0], c, n, st);
    }
  }

  /** An entry with a fresh sequence number is never tied with another one. */
  lemma {:induction false} InsertSorted(q: seq<Entry>, e: Entry, c: Controls, n: nat, st: State)
    requires Sorted(q) && QueueOk(q, c, n, st) && n <= e.seqNo
    ensures Sorted(Insert(q, e))
  {
    if q == [] || Sooner(e, q[0]) {
    } else {
      InsertSorted(q[1..], e, c, n, st);
    }
  }

  /** A task in another state has no entry here. */
  lemma {:induction false} Elsewhere(q: seq<Entry>, c: Controls, n: nat, st: State, id: TaskId)
    requires QueueOk(q, c, n, st)
    ensures id in Ids(q) ==> id in c && (c[id].state == st || c[id].state == Cancelled)
  {
    if q == [] {
    } else {
      Elsewhere(q[1..], c, n, st, id);
    }
  }

  // ---------- changing one control block ----------

  /** Outside task `id`, the two tables agree. */
  ghost predicate SameButOne(c: Controls, d: Controls, id: TaskId) {
    && id in d && d.Keys == c.Keys + {id}
    && (forall k :: k in c && k != id ==> d[k] == c[k])
    && (id in c ==> d[id].periodic == c[id].periodic)
  }

  ghost predicate Suits(q: seq<Entry>, d: Controls, st: State, id: TaskId) {
    id in Ids(q) && id in d ==> d[id].state == st || d[id].state == Cancelled
  }

  lemma {:induction false} Frame(q: seq<Entry>, c: Controls, n: nat, d: Controls, m: nat, st: State, id: TaskId)
    requires QueueOk(q, c, n, st) && SameButOne(c, d, id) && n <= m && Suits(q, d, st, id)
    ensures QueueOk(q, d, m, st)
  {
    if q == [] {
    } else {
      Frame(q[1..], c, n, d, m, st, id);
    }
  }

  /** The table changes at `id` only, to a state that suits every place that still holds the task. */
  lemma FrameAll(s: Sched, d: Controls, m: nat, id: TaskId)
    requires QueuesOk(s) && SameButOne(s.ctl, d, id) && s.nextSeq <= m
    requires Suits(s.ready[0], d, QueuedReady, id) && Suits(s.ready[1], d, QueuedReady, id) && Suits(s.ready[2], d, QueuedReady, id)
    requires Suits(s.delayed, d, QueuedDelayed, id) && Suits(s.batch, d, ReadySnapshot, id) && Suits(s.running, d, Executing, id)
    ensures QueuesOk(s.(ctl := d, nextSeq := m))
  {
    Frame(s.ready[0], s.ctl, s.nextSeq, d, m, QueuedReady, id);
    Frame(s.ready[1], s.ctl, s.nextSeq, d, m, QueuedReady, id);
    Frame(s.ready[2], s.ctl, s.nextSeq, d, m, QueuedReady, id);
    Frame(s.delayed, s.ctl, s.nextSeq, d, m, QueuedDelayed, id);
    Frame(s.batch, s.ctl, s.nextSeq, d, m, ReadySnapshot, id);
    Frame(s.running, s.ctl, s.nextSeq, d, m, Executing, id);
  }

  /** A task has entries only in places that suit its state. */
  lemma OnlyAtHome(s: Sched, id: TaskId)
    requires QueuesOk(s)
    ensures id in ReadyIds(s) ==> id in s.ctl && (s.ctl[id].state == QueuedReady || s.ctl[id].state == Cancelled)
    ensures id in Ids(s.delayed) ==> id in s.ctl && (s.ctl[id].state == QueuedDelayed || s.ctl[id].state == Cancelled)
    ensures id in Ids(s.batch) ==> id in s.ctl && (s.ctl[id].state == ReadySnapshot || s.ctl[id].state == Cancelled)
    ensures id in Ids(s.running) ==> id in s.ctl && (s.ctl[id].state == Executing || s.ctl[id].state == Cancelled)
  {
    Elsewhere(s.ready[0], s.ctl, s.nextSeq, QueuedReady, id);
    Elsewhere(s.ready[1], s.ctl, s.nextSeq, QueuedReady, id);
    Elsewhere(s.ready[2], s.ctl, s.nextSeq, QueuedReady, id);
    Elsewhere(s.delayed, s.ctl, s.nextSeq, QueuedDelayed, id);
    Elsewhere(s.batch, s.ctl, s.nextSeq, ReadySnapshot, id);
    Elsewhere(s.running, s.ctl, s.nextSeq, Executing, id);
  }

  lemma OneApart(a: set<TaskId>, b: set<TaskId>, id: TaskId)
    requires a - {id} == b - {id}
    ensures |b| == |a| - (if id in a then 1 else 0) + (if id in b then 1 else 0)
  {
    assert |a - {id}| == |a| - (if id in a then 1 else 0);
    assert |b - {id}| == |b| - (if id in b then 1 else 0);
  }

  /** One task's change of state, in terms of the two counts. */
  lemma Tally(c: Controls, d: Controls, id: TaskId)
    requires SameButOne(c, d, id)
    ensures |WaitingIds(d)| == |WaitingIds(c)| - (if id in c && c[id].state == QueuedReady then 1 else 0) + (if d[id].state == QueuedReady then 1 else 0)
    ensures |PendingIds(d)| == |PendingIds(c)| - (if id in c && Counted(c[id]) then 1 else 0) + (if Counted(d[id]) then 1 else 0)
  {
    assert WaitingIds(c) - {id} == WaitingIds(d) - {id};
    OneApart(WaitingIds(c), WaitingIds(d), id);
    assert PendingIds(c) - {id} == PendingIds(d) - {id};
    OneApart(PendingIds(c), PendingIds(d), id);
  }

  /** Apart from task `id`, every place and the index hold the same tasks. */
  ghost predicate SameElsewhere(s: Sched, t: Sched, id: TaskId) {
    && SameButOne(s.ctl, t.ctl, id)
    && Ids(t.ready[0]) - {id} == Ids(s.ready[0]) - {id}
    && Ids(t.ready[1]) - {id} == Ids(s.ready[1]) - {id}
    && Ids(t.ready[2]) - {id} == Ids(s.ready[2]) - {id}
    && Ids(t.delayed) - {id} == Ids(s.delayed) - {id}
    && Ids(t.batch) - {id} == Ids(s.batch) - {id}
    && Ids(t.running) - {id} == Ids(s.running) - {id}
    && t.index - {id} == s.index - {id}
    && (t.nextId == s.nextId || (t.nextId == s.nextId + 1 && id == s.nextId))
  }

  lemma HousedAfter(s: Sched, t: Sched, id: TaskId)
    requires Housed(s) && SameElsewhere(s, t, id) && TaskOk(t, id)
    ensures Housed(t)
  {
    forall k: TaskId
      ensures TaskOk(t, k)
    {
      assert TaskOk(s, k);
      if k != id {
        assert forall a: set<TaskId> :: k in a <==> k in a - {id};
      }
    }
  }

  // ---------- every step keeps the invariant ----------

  ghost function Bit(b: bool): int { if b then 1 else 0 }

  /** What the counters gain when one control block changes. */
  ghost predicate Counts(s: Sched, t: Sched, id: TaskId, owed: nat, owed': nat) {
    && id in t.ctl
    && t.readyCount == s.readyCount - Bit(HasState(s, id, QueuedReady)) + Bit(HasState(t, id, QueuedReady))
    && t.pendingCount - owed' == s.pendingCount - owed - Bit(id in s.ctl && Counted(s.ctl[id])) + Bit(Counted(t.ctl[id]))
  }

  /** The closing step of every preservation proof: one task changed, everything else stayed. */
  lemma Settle(s: Sched, t: Sched, id: TaskId, owed: nat, owed': nat)
    requires Inv(s, owed) && QueuesOk(t) && SameElsewhere(s, t, id) && TaskOk(t, id) && Counts(s, t, id, owed, owed')
    ensures Inv(t, owed')
  {
    SettleParts(s, t, id, owed, owed');
  }

  lemma SettleParts(s: Sched, t: Sched, id: TaskId, owed: nat, owed': nat)
    requires Housed(s) && Tallied(s, owed) && SameElsewhere(s, t, id) && TaskOk(t, id) && Counts(s, t, id, owed, owed')
    ensures Housed(t) && Tallied(t, owed')
  {
    HousedAfter(s, t, id);
    TalliedAfter(s, t, id, owed, owed');
  }

  lemma TalliedAfter(s: Sched, t: Sched, id: TaskId, owed: nat, owed': nat)
    requires Tallied(s, owed) && SameButOne(s.ctl, t.ctl, id) && Counts(s, t, id, owed, owed')
    ensures Tallied(t, owed')
  {
    Tally(s.ctl, t.ctl, id);
  }

  /** What becoming cancelled does to the counters and the index. */
  ghost predicate Killed(s: Sched, t: Sched, id: TaskId) {
    && id in s.ctl && Live(s.ctl[id].state) && SameButOne(s.ctl, t.ctl, id) && t.ctl[id].state == Cancelled
    && t.readyCount == s.readyCount - (if s.ctl[id].state == QueuedReady then 1 else 0)
    && t.pendingCount == s.pendingCount - (if Counted(s.ctl[id]) then 1 else 0)
    && t.index == (if s.ctl[id].state == Executing then s.index else s.index - {id})
    && t.nextSeq == s.nextSeq && t.nextId == s.nextId
  }

  ghost predicate SamePlaces(s: Sched, t: Sched) {
    t.ready == s.ready && t.delayed == s.delayed && t.batch == s.batch && t.running == s.running
  }

  lemma KillQueues(s: Sched, t: Sched, id: TaskId)
    requires QueuesOk(s) && Killed(s, t, id) && SamePlaces(s, t)
    ensures QueuesOk(t)
  {
    OnlyAtHome(s, id);
    FrameAll(s, t.ctl, t.nextSeq, id);
  }

  lemma KillOk(s: Sched, t: Sched, id: TaskId, owed: nat)
    requires TaskOk(s, id) && Killed(s, t, id) && SamePlaces(s, t)
    requires s.ctl[id].state != Executing ==> id !in Ids(s.running)
    ensures TaskOk(t, id) && SameElsewhere(s, t, id) && Counts(s, t, id, owed, owed)
  {
  }

  lemma KeepsKill(s: Sched, t: Sched, id: TaskId, owed: nat)
    requires Inv(s, owed) && Killed(s, t, id) && SamePlaces(s, t)
    ensures Inv(t, owed)
  {
    assert TaskOk(s, id);
    OnlyAtHome(s, id);
    KillQueues(s, t, id);
    KillOk(s, t, id, owed);
    Settle(s, t, id, owed, owed);
  }

  lemma KeepsCancelCas(s: Sched, id: TaskId, observed: State, owed: nat)
    requires Inv(s, owed) && id in s.ctl
    ensures Inv(CancelCas(s, id, observed).0, owed)
  {
    var t := CancelCas(s, id, observed).0;
    if t != s {
      KeepsKill(s, t, id, owed);
    }
  }

  lemma KeepsCtxCancel(s: Sched, id: TaskId, owed: nat)
    requires Inv(s, owed)
    ensures Inv(CtxCancel(s, id).0, owed)
  {
    var t := CtxCancel(s, id).0;
    if t != s {
      KeepsKill(s, t, id, owed);
    }
  }

  lemma FlagQueues(s: Sched, t: Sched, id: TaskId)
    requires QueuesOk(s) && id in s.ctl && id in t.ctl && t == s.(ctl := s.ctl[id := t.ctl[id]])
    requires t.ctl[id].state == s.ctl[id].state && t.ctl[id].periodic == s.ctl[id].periodic
    ensures QueuesOk(t)
  {
    OnlyAtHome(s, id);
    FrameAll(s, t.ctl, s.nextSeq, id);
  }

  lemma FlagOk(s: Sched, t: Sched, id: TaskId, owed: nat)
    requires TaskOk(s, id) && id in s.ctl && id in t.ctl && t == s.(ctl := s.ctl[id := t.ctl[id]])
    requires t.ctl[id].state == s.ctl[id].state && t.ctl[id].periodic == s.ctl[id].periodic
    ensures TaskOk(t, id) && SameElsewhere(s, t, id) && Counts(s, t, id, owed, owed)
  {
  }

  lemma KeepsFlag(s: Sched, c: Control, id: TaskId, owed: nat)
    requires Inv(s, owed) && id in s.ctl && c.state == s.ctl[id].state && c.periodic == s.ctl[id].periodic
    ensures Inv(s.(ctl := s.ctl[id := c]), owed)
  {
    var t := s.(ctl := s.ctl[id := c]);
    assert TaskOk(s, id);
    FlagQueues(s, t, id);
    FlagOk(s, t, id, owed);
    Settle(s, t, id, owed, owed);
  }

  // Places by number: the deques 0, 1, 2, then the heap, the snapshot and the running slot.
  const HEAP := 3
  const BATCH := 4
  const RUNNING := 5
  const NOWHERE := 6

  ghost function PlaceState(p: nat): State {
    if p < 3 then QueuedReady else if p == HEAP then QueuedDelayed else if p == BATCH then ReadySnapshot else Executing
  }

  ghost predicate Shift(q: seq<Entry>, r: seq<Entry>, id: TaskId, out: bool, inn: bool) {
    if out then id in Ids(q) && id !in Ids(r) && Ids(q) == Ids(r) + {id}
    else if inn then Ids(r) == Ids(q) + {id}
    else r == q
  }

  /** `t` is `s` with the entry of task `id` gone from place `a` and added to place `b`. */
  ghost predicate Relocated(s: Sched, t: Sched, id: TaskId, a: nat, b: nat) {
    && a <= NOWHERE && b <= NOWHERE && a != b
    && Shift(s.ready[0], t.ready[0], id, a == 0, b == 0)
    && Shift(s.ready[1], t.ready[1], id, a == 1, b == 1)
    && Shift(s.ready[2], t.ready[2], id, a == 2, b == 2)
    && Shift(s.delayed, t.delayed, id, a == HEAP, b == HEAP)
    && Shift(s.batch, t.batch, id, a == BATCH, b == BATCH)
    && Shift(s.running, t.running, id, a == RUNNING, b == RUNNING)
  }

  lemma RelocatedElsewhere(s: Sched, t: Sched, id: TaskId, a: nat, b: nat)
    requires Relocated(s, t, id, a, b) && SameButOne(s.ctl, t.ctl, id)
    requires t.index - {id} == s.index - {id} && (t.nextId == s.nextId || (t.nextId == s.nextId + 1 && id == s.nextId))
    ensures SameElsewhere(s, t, id)
  {
  }

  /** A task comes to place `b`, new or from place `a`. */
  ghost predicate Moves(s: Sched, t: Sched, id: TaskId, b: nat) {
    && SameButOne(s.ctl, t.ctl, id) && b < NOWHERE && t.ctl[id].state == PlaceState(b)
    && t.index == s.index + {id}
    && t.nextId == (if id in s.ctl then s.nextId else s.nextId + 1) && (id in s.ctl || id == s.nextId)
    && (b < 3 ==> id !in ReadyIds(s))
  }

  lemma MovesOk(s: Sched, t: Sched, id: TaskId, a: nat, b: nat)
    requires Relocated(s, t, id, a, b) && Moves(s, t, id, b) && TaskOk(s, id) && 1 <= s.nextId
    ensures TaskOk(t, id) && SameElsewhere(s, t, id)
  {
    RelocatedElsewhere(s, t, id, a, b);
  }

  lemma KeepsMove(s: Sched, t: Sched, id: TaskId, a: nat, b: nat, owed: nat, owed': nat)
    requires Inv(s, owed) && QueuesOk(t) && Relocated(s, t, id, a, b) && Moves(s, t, id, b) && Counts(s, t, id, owed, owed')
    ensures Inv(t, owed')
  {
    HousedTask(s, id);
    MovesOk(s, t, id, a, b);
    SettleParts(s, t, id, owed, owed');
  }

  lemma HousedTask(s: Sched, id: TaskId)
    requires Housed(s)
    ensures TaskOk(s, id) && 1 <= s.nextId
  {
  }

  /** A task's entry is dropped from place `a` and the task is over. */
  ghost predicate Leaves(s: Sched, t: Sched, id: TaskId) {
    && SameButOne(s.ctl, t.ctl, id) && id in s.ctl && !Live(t.ctl[id].state)
    && t.index == s.index - {id} && t.nextId == s.nextId && id !in Ids(t.running)
  }

  lemma KeepsLeaving(s: Sched, t: Sched, id: TaskId, a: nat, owed: nat)
    requires Inv(s, owed) && QueuesOk(t) && Relocated(s, t, id, a, NOWHERE) && Leaves(s, t, id) && Counts(s, t, id, owed, owed)
    ensures Inv(t, owed)
  {
    HousedTask(s, id);
    LeavesOk(s, t, id, a);
    SettleParts(s, t, id, owed, owed);
  }

  lemma LeavesOk(s: Sched, t: Sched, id: TaskId, a: nat)
    requires Relocated(s, t, id, a, NOWHERE) && Leaves(s, t, id) && TaskOk(s, id)
    ensures TaskOk(t, id) && SameElsewhere(s, t, id)
  {
    RelocatedElsewhere(s, t, id, a, NOWHERE);
  }

  /** A dead entry is dropped from a queue. */
  lemma KeepsDiscard(s: Sched, t: Sched, id: TaskId, a: nat, owed: nat)
    requires Inv(s, owed) && QueuesOk(t) && Relocated(s, t, id, a, NOWHERE) && a < RUNNING
    requires id in s.ctl && !Live(s.ctl[id].state)
    requires t == s.(ready := t.ready, delayed := t.delayed, batch := t.batch)
    ensures Inv(t, owed)
  {
    HousedTask(s, id);
    DiscardOk(s, t, id, a, owed);
    SettleParts(s, t, id, owed, owed);
  }

  lemma DiscardOk(s: Sched, t: Sched, id: TaskId, a: nat, owed: nat)
    requires Relocated(s, t, id, a, NOWHERE) && a < RUNNING && TaskOk(s, id)
    requires id in s.ctl && !Live(s.ctl[id].state) && t == s.(ready := t.ready, delayed := t.delayed, batch := t.batch)
    ensures TaskOk(t, id) && SameElsewhere(s, t, id) && Counts(s, t, id, owed, owed)
  {
    RelocatedElsewhere(s, t, id, a, NOWHERE);
  }

  ghost function Target(e: Entry, ready: bool): nat {
    if ready then PriorityIndex(e.priority) else HEAP
  }

  lemma PutJoins(s: Sched, e: Entry, ready: bool)
    ensures Relocated(s, Put(s, e, ready), e.id, NOWHERE, Target(e, ready))
  {
    var t := Put(s, e, ready);
    if ready {
      var p := PriorityIndex(e.priority);
      assert t.ready[p] == s.ready[p] + [e];
      IdsConcat(s.ready[p], [e]);
    } else {
      InsertIds(s.delayed, e);
    }
  }

  lemma {:induction false} InsertIds(q: seq<Entry>, e: Entry)
    ensures Ids(Insert(q, e)) == Ids(q) + {e.id}
  {
    if q == [] || Sooner(e, q[0]) {
      IdsConcat([e], q);
    } else {
      InsertIds(q[1..], e);
      IdsConcat([q[0]], Insert(q[1..], e));
    }
  }

  /** A new or moved entry joins its deque or the heap. */
  lemma PutKeeps(s: Sched, e: Entry, ready: bool, n: nat)
    requires QueuesOk(s) && EntryOk(e, s.ctl, s.nextSeq, if ready then QueuedReady else QueuedDelayed)
    requires e.id !in ReadyIds(s) && e.id !in Ids(s.delayed)
    requires ready || (QueueOk(s.delayed, s.ctl, n, QueuedDelayed) && n <= e.seqNo)
    ensures QueuesOk(Put(s, e, ready))
  {
    if ready {
      var p := PriorityIndex(e.priority);
      Append(s.ready[p], e, s.ctl, s.nextSeq, QueuedReady);
      InDequeConcat(s.ready[p], [e], p);
    } else {
      InsertKeeps(s.delayed, e, s.ctl, s.nextSeq, QueuedDelayed);
      InsertSorted(s.delayed, e, s.ctl, n, QueuedDelayed);
    }
  }

  lemma AdmitQueues(s: Sched, e: Entry, ready: bool)
    requires QueuesOk(s) && e.id == s.nextId && e.seqNo == s.nextSeq && e.id !in s.ctl
    ensures QueuesOk(Admit(s, e, ready))
    ensures e.id !in ReadyIds(s)
  {
    var t := Admit(s, e, ready);
    OnlyAtHome(s, e.id);
    FrameAll(s, t.ctl, t.nextSeq, e.id);
    Frame(s.delayed, s.ctl, s.nextSeq, t.ctl, s.nextSeq, QueuedDelayed, e.id);
    PutKeeps(s.(ctl := t.ctl, nextSeq := t.nextSeq), e, ready, s.nextSeq);
  }

  lemma AdmitMoves(s: Sched, e: Entry, ready: bool, owed: nat)
    requires e.id == s.nextId && e.seqNo == s.nextSeq && e.id !in s.ctl && e.id !in ReadyIds(s)
    ensures var t := Admit(s, e, ready); Moves(s, t, e.id, Target(e, ready)) && Counts(s, t, e.id, owed, owed)
  {
  }

  lemma KeepsAdmit(s: Sched, e: Entry, ready: bool, owed: nat)
    requires Inv(s, owed) && e.id == s.nextId && e.seqNo == s.nextSeq
    ensures Inv(Admit(s, e, ready), owed)
  {
    assert TaskOk(s, e.id);
    AdmitQueues(s, e, ready);
    AdmitMoves(s, e, ready, owed);
    PutJoins(s, e, ready);
    KeepsMove(s, Admit(s, e, ready), e.id, NOWHERE, Target(e, ready), owed, owed);
  }
}
