/** The order in which process() takes tasks, told from their priorities, deadlines and order of submission. */
module TaskOrder {
  import opened TaskTypes
  import opened TaskOps
  import opened TaskInvariant
  import opened TaskLive
  import TaskSteps
  import TaskProcess
  import opened TaskWorld
  import TaskLedger

  // ---------- the order ----------

  /** Priority 0 is high and goes first, 2 is low and goes last, and anything else is normal. */
  predicate Ahead(a: int, b: int) {
    (a == 0 && b != 0) || (a != 2 && b == 2)
  }

  predicate SameClass(a: int, b: int) {
    (a == 0 <==> b == 0) && (a == 2 <==> b == 2)
  }

  ghost predicate Precedes(q: seq<Entry>, x: Entry, y: Entry) {
    exists i, j :: 0 <= i < j < |q| && q[i] == x && q[j] == y
  }

  predicate Earlier(x: Entry, y: Entry) {
    x.due < y.due || (x.due == y.due && x.seqNo < y.seqNo)
  }

  /** `x` goes before `y`: it has the higher priority, or the same and was ready first. What is ready goes
      before what becomes ready now, and of those the earlier deadline, or submission, goes first. */
  ghost predicate GoesBefore(s: Sched, x: Entry, y: Entry) {
    || Ahead(x.priority, y.priority)
    || (SameClass(x.priority, y.priority) &&
          (|| Precedes(ReadyOrder(s), x, y)
           || (x in ReadyOrder(s) && y in LiveDelayed(s))
           || (x in LiveDelayed(s) && y in LiveDelayed(s) && Earlier(x, y))))
  }

  ghost predicate Chain(s: Sched, q: seq<Entry>) {
    forall i, j :: 0 <= i < j < |q| ==> GoesBefore(s, q[i], q[j])
  }

  lemma ChainConcat(s: Sched, a: seq<Entry>, b: seq<Entry>)
    requires Chain(s, a) && Chain(s, b) && forall x, y :: x in a && y in b ==> GoesBefore(s, x, y)
    ensures Chain(s, a + b)
  {
  }

  // ---------- the heap ----------

  ghost predicate Rising(q: seq<Entry>) {
    forall i, j :: 0 <= i < j < |q| ==> Earlier(q[i], q[j])
  }

  lemma {:induction false} SortedRises(q: seq<Entry>)
    requires Sorted(q)
    ensures Rising(q)
  {
    if |q| < 2 {
    } else {
      SortedRises(q[1..]);
      forall j | 0 < j < |q|
        ensures Earlier(q[0], q[j])
      {
        assert q[j] == q[1..][j - 1];
        assert q[1] == q[1..][0];
        if j > 1 {
          assert Earlier(q[1..][0], q[1..][j - 1]);
        }
      }
      RisesFrom(q);
    }
  }

  lemma RisesFrom(q: seq<Entry>)
    requires q != [] && Rising(q[1..]) && forall j :: 0 < j < |q| ==> Earlier(q[0], q[j])
    ensures Rising(q)
  {
    forall i, j | 0 <= i < j < |q|
      ensures Earlier(q[i], q[j])
    {
      if i > 0 {
        assert Earlier(q[1..][i - 1], q[1..][j - 1]);
      }
    }
  }

  lemma RisesAfter(e: Entry, q: seq<Entry>, rest: seq<Entry>)
    requires Rising([e] + q) && Rising(rest) && forall x :: x in rest ==> x in q
    ensures Rising([e] + rest)
  {
    forall j | 0 <= j < |rest|
      ensures Earlier(e, rest[j])
    {
      assert rest[j] in q;
      var k :| 0 <= k < |q| && q[k] == rest[j];
      assert ([e] + q)[0] == e && ([e] + q)[k + 1] == rest[j];
    }
    assert ([e] + rest)[1..] == rest;
    RisesFrom([e] + rest);
  }

  lemma {:induction false} LiveRises(q: seq<Entry>, c: Controls, st: State)
    requires Rising(q)
    ensures Rising(LiveOf(q, c, st))
  {
    if q == [] {
    } else {
      assert Rising(q[1..]);
      LiveRises(q[1..], c, st);
      if q[0].id in c && c[q[0].id].state == st {
        forall x | x in LiveOf(q[1..], c, st)
          ensures x in q[1..]
        {
          LiveIn(q[1..], c, st, x);
        }
        assert q == [q[0]] + q[1..];
        RisesAfter(q[0], q[1..], LiveOf(q[1..], c, st));
      }
    }
  }

  predicate DueIn(e: Entry, now: Time, p: nat) {
    e.due <= now && PriorityIndex(e.priority) == p
  }

  lemma {:induction false} DueForIn(q: seq<Entry>, now: Time, p: nat, e: Entry)
    ensures e in DueFor(q, now, p) <==> e in q && DueIn(e, now, p)
  {
    if q == [] {
    } else {
      DueForIn(q[1..], now, p, e);
      assert e in q <==> e == q[0] || e in q[1..];
    }
  }

  lemma {:induction false} DueForRises(q: seq<Entry>, now: Time, p: nat)
    requires Rising(q)
    ensures Rising(DueFor(q, now, p))
  {
    if q == [] {
    } else {
      assert Rising(q[1..]);
      DueForRises(q[1..], now, p);
      if DueIn(q[0], now, p) {
        forall x | x in DueFor(q[1..], now, p)
          ensures x in q[1..]
        {
          DueForIn(q[1..], now, p, x);
        }
        assert q == [q[0]] + q[1..];
        RisesAfter(q[0], q[1..], DueFor(q[1..], now, p));
      }
    }
  }

  lemma DelayedRises(s: Sched)
    requires QueuesOk(s)
    ensures Rising(LiveDelayed(s))
  {
    SortedRises(s.delayed);
    LiveRises(s.delayed, s.ctl, QueuedDelayed);
  }

  // ---------- the deques ----------

  lemma {:induction false} DequeClass(q: seq<Entry>, p: nat, e: Entry)
    requires InDeque(q, p) && e in q
    ensures PriorityIndex(e.priority) == p
  {
    if e == q[0] {
    } else {
      DequeClass(q[1..], p, e);
    }
  }

  lemma LiveClass(s: Sched, p: nat, e: Entry)
    requires QueuesOk(s) && p < 3 && e in LiveDeque(s, p)
    ensures PriorityIndex(e.priority) == p && e in ReadyOrder(s)
  {
    LiveIn(s.ready[p], s.ctl, QueuedReady, e);
    DequeClass(s.ready[p], p, e);
  }

  /** Where deque `p` begins in the order of the waiting tasks. */
  function Offset(s: Sched, p: nat): nat
    requires p < 3
  {
    if p == 0 then 0 else if p == 1 then |LiveDeque(s, 0)| else |LiveDeque(s, 0)| + |LiveDeque(s, 1)|
  }

  lemma DequeAt(s: Sched, p: nat, i: nat)
    requires p < 3 && i < |LiveDeque(s, p)|
    ensures Offset(s, p) + i < |ReadyOrder(s)| && ReadyOrder(s)[Offset(s, p) + i] == LiveDeque(s, p)[i]
  {
  }

  lemma DequeChain(s: Sched, p: nat)
    requires QueuesOk(s) && p < 3
    ensures Chain(s, LiveDeque(s, p))
  {
    var q := LiveDeque(s, p);
    forall i, j | 0 <= i < j < |q|
      ensures GoesBefore(s, q[i], q[j])
    {
      DequeAt(s, p, i);
      DequeAt(s, p, j);
      LiveClass(s, p, q[i]);
      LiveClass(s, p, q[j]);
      assert Precedes(ReadyOrder(s), q[i], q[j]);
    }
  }

  lemma DueChain(s: Sched, now: Time, p: nat)
    requires QueuesOk(s) && p < 3
    ensures Chain(s, DueFor(LiveDelayed(s), now, p))
  {
    var q := DueFor(LiveDelayed(s), now, p);
    DelayedRises(s);
    DueForRises(LiveDelayed(s), now, p);
    forall i, j | 0 <= i < j < |q|
      ensures GoesBefore(s, q[i], q[j])
    {
      DueForIn(LiveDelayed(s), now, p, q[i]);
      DueForIn(LiveDelayed(s), now, p, q[j]);
    }
  }

  /** Deque `p` once what is due has joined it. */
  function Joined(s: Sched, now: Time, p: nat): seq<Entry>
    requires p < 3
  {
    LiveDeque(s, p) + DueFor(LiveDelayed(s), now, p)
  }

  lemma JoinedIn(s: Sched, now: Time, p: nat, e: Entry)
    requires QueuesOk(s) && p < 3 && e in Joined(s, now, p)
    ensures PriorityIndex(e.priority) == p
    ensures e in ReadyOrder(s) || (e in LiveDelayed(s) && e.due <= now)
  {
    if e in LiveDeque(s, p) {
      LiveClass(s, p, e);
    } else {
      DueForIn(LiveDelayed(s), now, p, e);
    }
  }

  lemma JoinedChain(s: Sched, now: Time, p: nat)
    requires QueuesOk(s) && p < 3
    ensures Chain(s, Joined(s, now, p))
  {
    DequeChain(s, p);
    DueChain(s, now, p);
    forall x, y | x in LiveDeque(s, p) && y in DueFor(LiveDelayed(s), now, p)
      ensures GoesBefore(s, x, y)
    {
      LiveClass(s, p, x);
      DueForIn(LiveDelayed(s), now, p, y);
    }
    ChainConcat(s, LiveDeque(s, p), DueFor(LiveDelayed(s), now, p));
  }

  lemma ClassesApart(s: Sched, now: Time, p: nat, r: nat, x: Entry, y: Entry)
    requires QueuesOk(s) && p < r < 3 && x in Joined(s, now, p) && y in Joined(s, now, r)
    ensures GoesBefore(s, x, y)
  {
    JoinedIn(s, now, p, x);
    JoinedIn(s, now, r, y);
  }

  function AllReady(s: Sched, now: Time): seq<Entry> {
    Joined(s, now, 0) + Joined(s, now, 1) + Joined(s, now, 2)
  }

  lemma AllJoined(s: Sched, now: Time)
    requires QueuesOk(s)
    ensures Chain(s, AllReady(s, now))
  {
    var (a, b, c) := (Joined(s, now, 0), Joined(s, now, 1), Joined(s, now, 2));
    JoinedChain(s, now, 0);
    JoinedChain(s, now, 1);
    JoinedChain(s, now, 2);
    forall x, y | x in a && y in b
      ensures GoesBefore(s, x, y)
    {
      ClassesApart(s, now, 0, 1, x, y);
    }
    ChainConcat(s, a, b);
    forall x, y | x in a + b && y in c
      ensures GoesBefore(s, x, y)
    {
      ClassesApart(s, now, if x in a then 0 else 1, 2, x, y);
    }
    ChainConcat(s, a + b, c);
  }

  lemma JoinedMembers(s: Sched, now: Time, e: Entry)
    requires QueuesOk(s)
    ensures e in AllReady(s, now) <==>
      e in ReadyOrder(s) || (e in LiveDelayed(s) && e.due <= now)
  {
    if e in Joined(s, now, 0) {
      JoinedIn(s, now, 0, e);
    } else if e in Joined(s, now, 1) {
      JoinedIn(s, now, 1, e);
    } else if e in Joined(s, now, 2) {
      JoinedIn(s, now, 2, e);
    }
    DueForIn(LiveDelayed(s), now, PriorityIndex(e.priority), e);
  }

  // ---------- the snapshot of a call ----------

  /** A call of process() takes, as many as it may, the first of the tasks that are ready or whose time has
      come, and leaves the others ready behind them: all in the order that priorities, deadlines and
      submissions give. */
  lemma SnapshotInOrder(ws: seq<World>, acts: seq<Action>, i: nat)
    requires IsRun(ws, acts) && i < |acts| && acts[i].Enter?
    ensures var (s, t, a) := (ws[i].s, ws[i + 1].s, acts[i]); var q := t.batch + ReadyOrder(t);
      && (forall e :: e in q <==> e in ReadyOrder(s) || (e in LiveDelayed(s) && e.due <= a.now))
      && (forall j, k :: 0 <= j < k < |q| ==> GoesBefore(s, q[j], q[k]))
      && |t.batch| == if |q| < a.maxTasks then |q| else a.maxTasks
  {
    TaskLedger.RunStep(ws, acts, i);
    var (s, a) := (ws[i].s, acts[i]);
    TakesInOrder(s, a.now, a.maxTasks);
  }

  lemma PromotedOrder(s: Sched, now: Time)
    requires Inv(s, 0)
    ensures Inv(Promote(s, now), 0) && Promote(s, now).batch == s.batch && ReadyOrder(Promote(s, now)) == AllReady(s, now)
  {
    PromoteResult(s, now, 0);
    TaskSteps.KeepsPromote(s, now, 0);
    TaskProcess.PromoteFrame(s, now);
  }

  lemma TakenSplit(u: Sched, maxTasks: nat)
    requires Inv(u, 0) && u.batch == []
    ensures var (t, q) := (Take(u, maxTasks), ReadyOrder(u));
      t.batch + ReadyOrder(t) == q && |t.batch| == if |q| < maxTasks then |q| else maxTasks
  {
    TakeResult(u, maxTasks, 0);
    SplitAt(ReadyOrder(u), maxTasks, Take(u, maxTasks).batch, ReadyOrder(Take(u, maxTasks)));
  }

  lemma SplitAt(q: seq<Entry>, maxTasks: nat, first: seq<Entry>, rest: seq<Entry>)
    requires first == [] + q[..Min(maxTasks, |q|)] && rest == q[Min(maxTasks, |q|)..]
    ensures first + rest == q && |first| == if |q| < maxTasks then |q| else maxTasks
  {
  }

  lemma TakesInOrder(s: Sched, now: Time, maxTasks: nat)
    requires Inv(s, 0) && s.batch == []
    ensures var t := Take(Promote(s, now), maxTasks); var q := t.batch + ReadyOrder(t);
      && (forall e :: e in q <==> e in ReadyOrder(s) || (e in LiveDelayed(s) && e.due <= now))
      && Chain(s, q) && |t.batch| == if |q| < maxTasks then |q| else maxTasks
  {
    PromotedOrder(s, now);
    TakenSplit(Promote(s, now), maxTasks);
    AllJoined(s, now);
    forall e
      ensures e in AllReady(s, now) <==> e in ReadyOrder(s) || (e in LiveDelayed(s) && e.due <= now)
    {
      JoinedMembers(s, now, e);
    }
  }

  // ---------- becoming ready ----------

  /** In `t`, entry `e` has joined the waiting tasks of `s` as the last of its class. */
  ghost predicate JoinsLast(s: Sched, t: Sched, e: Entry) {
    exists a, b :: JoinsBetween(s, t, e, a, b)
  }

  ghost predicate JoinsBetween(s: Sched, t: Sched, e: Entry, a: seq<Entry>, b: seq<Entry>) {
    && ReadyOrder(s) == a + b && ReadyOrder(t) == a + [e] + b
    && (forall x :: x in a ==> !Ahead(e.priority, x.priority)) && (forall x :: x in b ==> Ahead(e.priority, x.priority))
  }

  lemma PutDeques(s: Sched, t: Sched, e: Entry, p: nat)
    requires p < 3 && t.ready == Put(s, e, true).ready && SameButOne(s.ctl, t.ctl, e.id)
    requires e.id !in Ids(s.ready[p]) && HasState(t, e.id, QueuedReady)
    ensures LiveDeque(t, p) == LiveDeque(s, p) + if p == PriorityIndex(e.priority) then [e] else []
  {
    LiveFrame(s.ready[p], s.ctl, t.ctl, QueuedReady, e.id);
    LiveConcat(s.ready[p], [e], t.ctl, QueuedReady);
    assert LiveOf([e], t.ctl, QueuedReady) == [e];
  }

  lemma PutLast(s: Sched, t: Sched, e: Entry)
    requires QueuesOk(s) && t.ready == Put(s, e, true).ready && SameButOne(s.ctl, t.ctl, e.id)
    requires e.id !in ReadyIds(s) && HasState(t, e.id, QueuedReady)
    ensures JoinsLast(s, t, e)
  {
    var p := PriorityIndex(e.priority);
    PutDeques(s, t, e, 0);
    PutDeques(s, t, e, 1);
    PutDeques(s, t, e, 2);
    LastOfClass(s, t, e, p);
  }

  lemma LastOfClass(s: Sched, t: Sched, e: Entry, p: nat)
    requires QueuesOk(s) && p == PriorityIndex(e.priority)
    requires forall r :: 0 <= r < 3 ==> LiveDeque(t, r) == LiveDeque(s, r) + if r == p then [e] else []
    ensures JoinsLast(s, t, e)
  {
    var (x, y, z) := (LiveDeque(s, 0), LiveDeque(s, 1), LiveDeque(s, 2));
    var a := if p == 0 then x else if p == 1 then x + y else x + y + z;
    var b := if p == 0 then y + z else if p == 1 then z else [];
    forall d: Entry
      ensures d in a ==> !Ahead(e.priority, d.priority)
      ensures d in b ==> Ahead(e.priority, d.priority)
    {
      SplitClass(s, d);
    }
    Splices(x, y, z, e, p, LiveDeque(t, 0), LiveDeque(t, 1), LiveDeque(t, 2));
    assert JoinsBetween(s, t, e, a, b);
  }

  lemma Splices(x: seq<Entry>, y: seq<Entry>, z: seq<Entry>, e: Entry, p: nat, x': seq<Entry>, y': seq<Entry>, z': seq<Entry>)
    requires p < 3 && x' == x + (if p == 0 then [e] else []) && y' == y + (if p == 1 then [e] else []) && z' == z + (if p == 2 then [e] else [])
    ensures p == 0 ==> x + y + z == x + (y + z) && x' + y' + z' == x + [e] + (y + z)
    ensures p == 1 ==> x' + y' + z' == x + y + [e] + z
    ensures p == 2 ==> x + y + z == x + y + z + [] && x' + y' + z' == x + y + z + [e] + []
  {
  }

  lemma SplitClass(s: Sched, d: Entry)
    requires QueuesOk(s)
    ensures d in LiveDeque(s, 0) ==> PriorityIndex(d.priority) == 0
    ensures d in LiveDeque(s, 1) ==> PriorityIndex(d.priority) == 1
    ensures d in LiveDeque(s, 2) ==> PriorityIndex(d.priority) == 2
  {
    if d in LiveDeque(s, 0) { LiveClass(s, 0, d); }
    if d in LiveDeque(s, 1) { LiveClass(s, 1, d); }
    if d in LiveDeque(s, 2) { LiveClass(s, 2, d); }
  }

  /** An accepted task that may start at once waits behind all others of its priority, and before those of
      a lower one. */
  lemma PostedLast(s: Sched, owed: nat, op: Op)
    requires Inv(s, owed) && Posts(op) && Accepts(s, op) && HasState(Apply(s, op).0, s.nextId, QueuedReady)
    ensures exists e: Entry :: e.id == s.nextId && e.priority == op.priority && JoinsLast(s, Apply(s, op).0, e)
  {
    PostShape(s, op);
    assert TaskOk(s, s.nextId);
    OnlyAtHome(s, s.nextId);
    AdmittedLast(s, PostedEntry(s, op).0, PostedEntry(s, op).1);
  }

  lemma AdmittedLast(s: Sched, e: Entry, ready: bool)
    requires QueuesOk(s) && e.id == s.nextId && e.seqNo == s.nextSeq && e.id !in s.ctl && e.id !in ReadyIds(s)
    requires HasState(Admit(s, e, ready), e.id, QueuedReady)
    ensures JoinsLast(s, Admit(s, e, ready), e)
  {
    PutLast(s, Admit(s, e, ready), e);
  }

  /** The same for a task that comes back from its callback, ready for another run. */
  lemma RequeuedLast(s: Sched, owed: nat, now: Time, lockedNow: Time)
    requires Inv(s, owed) && s.running != [] && HasState(FinishSuccess(s, now, lockedNow), s.running[0].id, QueuedReady)
    ensures exists e: Entry :: e.id == s.running[0].id && e.priority == s.running[0].priority && JoinsLast(s, FinishSuccess(s, now, lockedNow), e)
  {
    var x, t := s.running[0], FinishSuccess(s, now, lockedNow);
    OnlyAtHome(s, x.id);
    assert x.id in Ids(s.running);
    var e := TaskSteps.Again(s, if s.ctl[x.id].rescheduleRequested then s.ctl[x.id].rescheduleDue else NextPeriodicDue(x, now));
    AgainLast(s, now, lockedNow, e);
  }

  lemma AgainLast(s: Sched, now: Time, lockedNow: Time, e: Entry)
    requires QueuesOk(s) && s.running != [] && HasState(s, s.running[0].id, Executing) && s.running[0].id !in ReadyIds(s)
    requires HasState(FinishSuccess(s, now, lockedNow), s.running[0].id, QueuedReady)
    requires var x := s.running[0];
      e == TaskSteps.Again(s, if s.ctl[x.id].rescheduleRequested then s.ctl[x.id].rescheduleDue else NextPeriodicDue(x, now))
    ensures JoinsLast(s, FinishSuccess(s, now, lockedNow), e)
  {
    PutLast(s, FinishSuccess(s, now, lockedNow), e);
  }

  // ---------- becoming delayed ----------

  lemma {:induction false} InsertHas(q: seq<Entry>, e: Entry)
    ensures e in Insert(q, e)
  {
    if q == [] || Sooner(e, q[0]) {
    } else {
      InsertHas(q[1..], e);
    }
  }

  lemma {:induction false} OlderSeq(q: seq<Entry>, c: Controls, n: nat, st: State, x: Entry)
    requires QueueOk(q, c, n, st) && x in q
    ensures x.seqNo < n
  {
    if x == q[0] {
    } else {
      OlderSeq(q[1..], c, n, st, x);
    }
  }

  predicate BetweenDues(q: seq<Entry>, e: Entry) {
    forall x :: x in q ==> if x.due <= e.due then Earlier(x, e) else Earlier(e, x)
  }

  /** An accepted task that has to wait for its time goes after all that are due before or with it, and
      before those that are due later. */
  lemma PostedDelayed(s: Sched, owed: nat, op: Op)
    requires Inv(s, owed) && Posts(op) && Accepts(s, op) && HasState(Apply(s, op).0, s.nextId, QueuedDelayed)
    ensures exists e: Entry :: e.id == s.nextId && e.priority == op.priority && e in LiveDelayed(Apply(s, op).0) && BetweenDues(LiveDelayed(s), e)
  {
    PostShape(s, op);
    var t := Apply(s, op).0;
    var e := PostedEntry(s, op).0;
    InsertHas(s.delayed, e);
    LiveIn(t.delayed, t.ctl, QueuedDelayed, e);
    NewestBetween(s, owed, e);
  }

  /** The same for a task that comes back from its callback and has to wait for its next run. */
  lemma RequeuedDelayed(s: Sched, owed: nat, now: Time, lockedNow: Time)
    requires Inv(s, owed) && s.running != [] && HasState(FinishSuccess(s, now, lockedNow), s.running[0].id, QueuedDelayed)
    ensures var (x, q) := (s.running[0], LiveDelayed(FinishSuccess(s, now, lockedNow)));
      exists e: Entry :: e.id == x.id && e.priority == x.priority && e in q && BetweenDues(LiveDelayed(s), e)
  {
    var x := s.running[0];
    OnlyAtHome(s, x.id);
    assert x.id in Ids(s.running);
    var e := TaskSteps.Again(s, if s.ctl[x.id].rescheduleRequested then s.ctl[x.id].rescheduleDue else NextPeriodicDue(x, now));
    AgainListed(s, now, lockedNow, e);
    NewestBetween(s, owed, e);
  }

  lemma AgainListed(s: Sched, now: Time, lockedNow: Time, e: Entry)
    requires s.running != [] && HasState(s, s.running[0].id, Executing)
    requires HasState(FinishSuccess(s, now, lockedNow), s.running[0].id, QueuedDelayed)
    requires var x := s.running[0];
      e == TaskSteps.Again(s, if s.ctl[x.id].rescheduleRequested then s.ctl[x.id].rescheduleDue else NextPeriodicDue(x, now))
    ensures e in LiveDelayed(FinishSuccess(s, now, lockedNow))
  {
    var t := FinishSuccess(s, now, lockedNow);
    InsertHas(s.delayed, e);
    LiveIn(t.delayed, t.ctl, QueuedDelayed, e);
  }

  lemma NewestBetween(s: Sched, owed: nat, e: Entry)
    requires Inv(s, owed) && e.seqNo == s.nextSeq
    ensures BetweenDues(LiveDelayed(s), e)
  {
    forall x | x in LiveDelayed(s)
      ensures if x.due <= e.due then Earlier(x, e) else Earlier(e, x)
    {
      LiveIn(s.delayed, s.ctl, QueuedDelayed, x);
      OlderSeq(s.delayed, s.ctl, s.nextSeq, QueuedDelayed, x);
    }
  }
}
