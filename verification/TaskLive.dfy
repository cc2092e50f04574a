/** The scheduler without its dead entries: what the deques and the heap mean. */
module TaskLive {
  import opened TaskTypes
  import opened TaskOps
  import opened TaskInvariant
  import opened TaskSteps

  /** The entries of `q` whose task is in state `st`, in order. */
  function LiveOf(q: seq<Entry>, c: Controls, st: State): seq<Entry> {
    if q == [] then []
    else (if q[0].id in c && c[q[0].id].state == st then [q[0]] else []) + LiveOf(q[1..], c, st)
  }

  function LiveDeque(s: Sched, p: nat): seq<Entry>
    requires p < 3
  {
    LiveOf(s.ready[p], s.ctl, QueuedReady)
  }

  /** The order in which process() would run the waiting tasks. */
  function ReadyOrder(s: Sched): seq<Entry> {
    LiveDeque(s, 0) + LiveDeque(s, 1) + LiveDeque(s, 2)
  }

  function LiveDelayed(s: Sched): seq<Entry> {
    LiveOf(s.delayed, s.ctl, QueuedDelayed)
  }

  lemma {:induction false} LiveConcat(a: seq<Entry>, b: seq<Entry>, c: Controls, st: State)
    ensures LiveOf(a + b, c, st) == LiveOf(a, c, st) + LiveOf(b, c, st)
  {
    if a == [] {
      assert a + b == b;
    } else {
      assert (a + b)[1..] == a[1..] + b;
      LiveConcat(a[1..], b, c, st);
    }
  }

  lemma {:induction false} LiveIn(q: seq<Entry>, c: Controls, st: State, e: Entry)
    ensures e in LiveOf(q, c, st) <==> e in q && e.id in c && c[e.id].state == st
  {
    if q == [] {
    } else {
      LiveIn(q[1..], c, st, e);
      assert e in q <==> e == q[0] || e in q[1..];
    }
  }

  /** A task with no entry in `q` can change without changing the live part of `q`. */
  lemma {:induction false} LiveFrame(q: seq<Entry>, c: Controls, d: Controls, st: State, id: TaskId)
    requires SameButOne(c, d, id) && id !in Ids(q)
    ensures LiveOf(q, d, st) == LiveOf(q, c, st)
  {
    if q == [] {
    } else {
      LiveFrame(q[1..], c, d, st, id);
    }
  }

  // ---------- the counters count live entries ----------

  ghost function Tasks(c: Controls, st: State): set<TaskId> {
    set id | id in c && c[id].state == st
  }

  lemma {:induction false} LiveLength(q: seq<Entry>, c: Controls, n: nat, st: State)
    requires QueueOk(q, c, n, st)
    ensures |LiveOf(q, c, st)| == |Ids(q) * Tasks(c, st)|
  {
    if q == [] {
    } else {
      LiveLength(q[1..], c, n, st);
      OneMore(Ids(q[1..]), q[0].id, Tasks(c, st));
    }
  }

  lemma OneMore(a: set<TaskId>, id: TaskId, w: set<TaskId>)
    requires id !in a
    ensures |({id} + a) * w| == |a * w| + (if id in w then 1 else 0)
  {
    assert ({id} + a) * w == a * w + (if id in w then {id} else {});
  }

  lemma CoveredBy(a: set<TaskId>, b: set<TaskId>, c: set<TaskId>, w: set<TaskId>)
    requires w <= a + b + c
    requires forall id :: id in w ==> !(id in a && id in b) && !(id in a && id in c) && !(id in b && id in c)
    ensures |w| == |a * w| + |b * w| + |c * w|
  {
    assert w == a * w + (b * w + c * w);
    assert a * w !! b * w + c * w && b * w !! c * w;
    assert |a * w + (b * w + c * w)| == |a * w| + |b * w + c * w|;
  }

  /** ready_count() is the number of queued_ready entries in the three deques. */
  lemma ReadyCountIsLive(s: Sched, owed: nat)
    requires Inv(s, owed)
    ensures s.readyCount == |ReadyOrder(s)|
  {
    LiveLength(s.ready[0], s.ctl, s.nextSeq, QueuedReady);
    LiveLength(s.ready[1], s.ctl, s.nextSeq, QueuedReady);
    LiveLength(s.ready[2], s.ctl, s.nextSeq, QueuedReady);
    AllHoused(s, owed);
    ReadyTotal(s);
  }

  lemma ReadyTotal(s: Sched)
    requires Tasks(s.ctl, QueuedReady) <= ReadyIds(s) && OneDeque(s)
    ensures |WaitingIds(s.ctl)| ==
      |Ids(s.ready[0]) * Tasks(s.ctl, QueuedReady)| + |Ids(s.ready[1]) * Tasks(s.ctl, QueuedReady)| + |Ids(s.ready[2]) * Tasks(s.ctl, QueuedReady)|
  {
    assert WaitingIds(s.ctl) == Tasks(s.ctl, QueuedReady);
    CoveredBy(Ids(s.ready[0]), Ids(s.ready[1]), Ids(s.ready[2]), Tasks(s.ctl, QueuedReady));
  }

  ghost predicate OneDeque(s: Sched) {
    forall id :: id in Tasks(s.ctl, QueuedReady) ==> var (a, b, c) := (Ids(s.ready[0]), Ids(s.ready[1]), Ids(s.ready[2]));
      !(id in a && id in b) && !(id in a && id in c) && !(id in b && id in c)
  }

  lemma AllHoused(s: Sched, owed: nat)
    requires Inv(s, owed)
    ensures Tasks(s.ctl, QueuedReady) <= ReadyIds(s)
    ensures OneDeque(s)
    ensures Tasks(s.ctl, QueuedDelayed) <= Ids(s.delayed) && Tasks(s.ctl, ReadySnapshot) <= Ids(s.batch)
  {
    forall id | id in s.ctl
      ensures TaskOk(s, id)
    {
    }
  }

  ghost function RunningPeriodic(c: Controls): set<TaskId> {
    set id | id in c && c[id].state == Executing && c[id].periodic
  }

  /** pending_count() counts the waiting, delayed and snapshotted entries and a running periodic
      task, plus one while the consumer owes a decrement. */
  lemma PendingCountIsLive(s: Sched, owed: nat)
    requires Inv(s, owed)
    ensures s.pendingCount ==
      |ReadyOrder(s)| + |LiveDelayed(s)| + |LiveOf(s.batch, s.ctl, ReadySnapshot)| + |RunningPeriodic(s.ctl)| + owed
  {
    ReadyCountIsLive(s, owed);
    AllHoused(s, owed);
    HeldCount(s.delayed, s.ctl, s.nextSeq, QueuedDelayed);
    HeldCount(s.batch, s.ctl, s.nextSeq, ReadySnapshot);
    PendingSplit(s.ctl);
  }

  lemma HeldCount(q: seq<Entry>, c: Controls, n: nat, st: State)
    requires QueueOk(q, c, n, st) && Tasks(c, st) <= Ids(q)
    ensures |LiveOf(q, c, st)| == |Tasks(c, st)|
  {
    LiveLength(q, c, n, st);
    assert Ids(q) * Tasks(c, st) == Tasks(c, st);
  }

  lemma PendingSplit(c: Controls)
    ensures |PendingIds(c)| ==
      |WaitingIds(c)| + |Tasks(c, QueuedDelayed)| + |Tasks(c, ReadySnapshot)| + |RunningPeriodic(c)|
  {
    var w, d, b, r := WaitingIds(c), Tasks(c, QueuedDelayed), Tasks(c, ReadySnapshot), RunningPeriodic(c);
    assert PendingIds(c) == w + (d + (b + r));
    assert b !! r && d !! b + r && w !! d + (b + r);
  }

  // ---------- the heap: next deadline and promotion ----------

  ghost predicate AllAfter(q: seq<Entry>, due: Time) {
    q != [] ==> due <= q[0].due && AllAfter(q[1..], due)
  }

  lemma {:induction false} SortedAfter(q: seq<Entry>, due: Time)
    requires Sorted(q) && (q != [] ==> due <= q[0].due)
    ensures AllAfter(q, due)
  {
    if q == [] {
    } else {
      SortedAfter(q[1..], due);
    }
  }

  lemma {:induction false} LiveAfter(q: seq<Entry>, c: Controls, st: State, due: Time)
    requires AllAfter(q, due)
    ensures AllAfter(LiveOf(q, c, st), due)
  {
    if q == [] {
    } else {
      LiveAfter(q[1..], c, st, due);
      assert LiveOf(q, c, st) == (if q[0].id in c && c[q[0].id].state == st then [q[0]] + LiveOf(q[1..], c, st) else LiveOf(q[1..], c, st));
    }
  }

  /** Pruning removes nothing live, and leaves a live entry on top. */
  lemma {:induction false} PruneKeepsLive(s: Sched, owed: nat)
    requires Inv(s, owed)
    ensures Prune(s) == s.(delayed := Prune(s).delayed) && LiveDelayed(Prune(s)) == LiveDelayed(s)
    ensures var q := Prune(s).delayed; q != [] ==> HasState(s, q[0].id, QueuedDelayed) && LiveDelayed(s) != [] && LiveDelayed(s)[0] == q[0]
    decreases |s.delayed|
  {
    if s.delayed == [] {
    } else {
      PopDelayed(s);
      if Dead(s, s.delayed[0]) {
        var t := s.(delayed := s.delayed[1..]);
        KeepsDiscard(s, t, s.delayed[0].id, HEAP, owed);
        PruneKeepsLive(t, owed);
      }
    }
  }

  /** next_deadline() is the least due time over the live delayed tasks, if there is one. */
  lemma NextDeadlineIsLeast(s: Sched, owed: nat)
    requires Inv(s, owed)
    ensures var (t, due) := NextDeadline(s);
      && LiveDelayed(t) == LiveDelayed(s)
      && (due.None? <==> LiveDelayed(s) == [])
      && (due.Some? ==> LiveDelayed(s) != [] && due.value == LiveDelayed(s)[0].due && AllAfter(LiveDelayed(s), due.value))
  {
    KeepsPrune(s, owed);
    PruneKeepsLive(s, owed);
    var q := Prune(s).delayed;
    if q != [] {
      SortedAfter(q, q[0].due);
      LiveAfter(q, s.ctl, QueuedDelayed, q[0].due);
    }
  }

  /** The entries of a live list that are due by `now` and belong to deque `p`, in order. */
  function DueFor(q: seq<Entry>, now: Time, p: nat): seq<Entry> {
    if q == [] then []
    else (if q[0].due <= now && PriorityIndex(q[0].priority) == p then [q[0]] else []) + DueFor(q[1..], now, p)
  }

  function NotDue(q: seq<Entry>, now: Time): seq<Entry> {
    if q == [] then [] else (if q[0].due <= now then [] else [q[0]]) + NotDue(q[1..], now)
  }

  lemma {:induction false} NoneDue(q: seq<Entry>, now: Time, p: nat)
    requires AllAfter(q, now + 1)
    ensures DueFor(q, now, p) == [] && NotDue(q, now) == q
  {
    if q == [] {
    } else {
      NoneDue(q[1..], now, p);
    }
  }

  /** `t` is `s` after promoting, at `now`, some of the live delayed list `q` that was left before. */
  ghost predicate Promoted(s: Sched, t: Sched, now: Time) {
    && LiveDeque(t, 0) == LiveDeque(s, 0) + DueFor(LiveDelayed(s), now, 0)
    && LiveDeque(t, 1) == LiveDeque(s, 1) + DueFor(LiveDelayed(s), now, 1)
    && LiveDeque(t, 2) == LiveDeque(s, 2) + DueFor(LiveDelayed(s), now, 2)
    && LiveDelayed(t) == NotDue(LiveDelayed(s), now)
  }

  lemma PromoteFrontLive(s: Sched, owed: nat)
    requires Inv(s, owed) && s.delayed != [] && HasState(s, s.delayed[0].id, QueuedDelayed)
    ensures var (e, t) := (s.delayed[0], PromoteFront(s));
      && (forall p :: 0 <= p < 3 ==> LiveDeque(t, p) == LiveDeque(s, p) + (if p == PriorityIndex(e.priority) then [e] else []))
      && LiveDelayed(s) == [e] + LiveDelayed(t)
  {
    PopDelayed(s);
    OnlyAtHome(s, s.delayed[0].id);
    PromotedLive(s);
  }

  lemma PromotedLive(s: Sched)
    requires s.delayed != [] && HasState(s, s.delayed[0].id, QueuedDelayed) && s.delayed[0].id !in Ids(s.delayed[1..])
    requires s.delayed[0].id !in Ids(s.ready[0]) && s.delayed[0].id !in Ids(s.ready[1]) && s.delayed[0].id !in Ids(s.ready[2])
    ensures var (e, t) := (s.delayed[0], PromoteFront(s));
      && (forall p :: 0 <= p < 3 ==> LiveDeque(t, p) == LiveDeque(s, p) + (if p == PriorityIndex(e.priority) then [e] else []))
      && LiveDelayed(s) == [e] + LiveDelayed(t)
  {
    LiveFrame(s.delayed[1..], s.ctl, PromoteFront(s).ctl, QueuedDelayed, s.delayed[0].id);
    PromotedDeque(s, 0);
    PromotedDeque(s, 1);
    PromotedDeque(s, 2);
  }

  lemma PromotedDeque(s: Sched, p: nat)
    requires p < 3 && s.delayed != [] && HasState(s, s.delayed[0].id, QueuedDelayed) && s.delayed[0].id !in Ids(s.ready[p])
    ensures var (e, t) := (s.delayed[0], PromoteFront(s));
      LiveDeque(t, p) == LiveDeque(s, p) + (if p == PriorityIndex(e.priority) then [e] else [])
  {
    var e := s.delayed[0];
    var t := PromoteFront(s);
    LiveFrame(s.ready[p], s.ctl, t.ctl, QueuedReady, e.id);
    LiveConcat(s.ready[p], [e], t.ctl, QueuedReady);
  }

  lemma {:induction false} PromoteLoopResult(s: Sched, now: Time, owed: nat)
    requires Inv(s, owed) && Prune(s) == s
    ensures Promoted(s, PromoteLoop(s, now), now)
    decreases |s.delayed|
  {
    PruneKeepsLive(s, owed);
    if s.delayed != [] && s.delayed[0].due <= now {
      var u := PromoteFront(s);
      PromoteFrontLive(s, owed);
      KeepsPromoteFront(s, owed);
      PruneShrinks(u);
      PruneKeepsLive(u, owed);
      KeepsPrune(u, owed);
      PruneTwice(u);
      PromoteLoopResult(Prune(u), now, owed);
      PromotedStep(s, Prune(u), PromoteLoop(s, now), now);
    } else if s.delayed != [] {
      SortedAfter(s.delayed, now + 1);
      LiveAfter(s.delayed, s.ctl, QueuedDelayed, now + 1);
      NoneDue(LiveDelayed(s), now, 0);
      NoneDue(LiveDelayed(s), now, 1);
      NoneDue(LiveDelayed(s), now, 2);
    }
  }

  lemma PromotedStep(s: Sched, u: Sched, t: Sched, now: Time)
    requires Promoted(u, t, now) && LiveDelayed(s) != [] && LiveDelayed(s)[0].due <= now
    requires var e := LiveDelayed(s)[0];
      && (forall p :: 0 <= p < 3 ==> LiveDeque(u, p) == LiveDeque(s, p) + (if p == PriorityIndex(e.priority) then [e] else []))
      && LiveDelayed(s) == [e] + LiveDelayed(u)
    ensures Promoted(s, t, now)
  {
    assert LiveDelayed(s)[1..] == LiveDelayed(u);
  }

  lemma {:induction false} PruneTwice(s: Sched)
    ensures Prune(Prune(s)) == Prune(s)
    decreases |s.delayed|
  {
    if s.delayed == [] || !Dead(s, s.delayed[0]) {
    } else {
      PruneTwice(s.(delayed := s.delayed[1..]));
    }
  }

  /** Promotion at `now` leaves no live delayed task that is due, and appends the promoted ones to
      their own deque in (due, submission) order. */
  lemma PromoteResult(s: Sched, now: Time, owed: nat)
    requires Inv(s, owed)
    ensures Promoted(s, Promote(s, now), now)
  {
    KeepsPrune(s, owed);
    PruneKeepsLive(s, owed);
    PruneTwice(s);
    PromoteLoopResult(Prune(s), now, owed);
  }

  // ---------- the snapshot ----------

  function Min(a: nat, b: nat): nat {
    if a <= b then a else b
  }

  /** The task at the front of deque `p` has no other entry in the deques. */
  lemma FrontIsOnly(s: Sched, p: nat, owed: nat)
    requires Inv(s, owed) && p < 3 && s.ready[p] != []
    ensures var id := s.ready[p][0].id;
      id !in Ids(s.ready[p][1..]) && (p != 0 ==> id !in Ids(s.ready[0])) && (p != 1 ==> id !in Ids(s.ready[1])) && (p != 2 ==> id !in Ids(s.ready[2]))
  {
    var id := s.ready[p][0].id;
    assert TaskOk(s, id);
    PopReady(s, p);
    assert id in Ids(s.ready[p]);
  }

  lemma TakeFrontControls(s: Sched, p: nat)
    requires p < 3 && s.ready[p] != [] && Taken(s, p) != []
    ensures SameButOne(s.ctl, TakeFront(s, p).ctl, s.ready[p][0].id) && !HasState(TakeFront(s, p), s.ready[p][0].id, QueuedReady)
  {
  }

  /** What taking the front of deque `p` does to the live part of every deque. */
  lemma TakeFrontLive(s: Sched, p: nat, owed: nat)
    requires Inv(s, owed) && p < 3 && s.ready[p] != []
    ensures LiveDeque(s, p) == Taken(s, p) + LiveDeque(TakeFront(s, p), p)
    ensures p != 0 ==> LiveDeque(TakeFront(s, p), 0) == LiveDeque(s, 0)
    ensures p != 1 ==> LiveDeque(TakeFront(s, p), 1) == LiveDeque(s, 1)
    ensures p != 2 ==> LiveDeque(TakeFront(s, p), 2) == LiveDeque(s, 2)
  {
    FrontIsOnly(s, p, owed);
    var id, t := s.ready[p][0].id, TakeFront(s, p);
    assert t.ready == s.ready[p := s.ready[p][1..]];
    if Taken(s, p) != [] {
      TakeFrontControls(s, p);
      LiveFrame(s.ready[p][1..], s.ctl, t.ctl, QueuedReady, id);
      OthersLive(s, t, p, id);
    }
  }

  lemma OthersLive(s: Sched, t: Sched, p: nat, id: TaskId)
    requires p < 3 && SameButOne(s.ctl, t.ctl, id)
    requires p != 0 ==> id !in Ids(s.ready[0]) && t.ready[0] == s.ready[0]
    requires p != 1 ==> id !in Ids(s.ready[1]) && t.ready[1] == s.ready[1]
    requires p != 2 ==> id !in Ids(s.ready[2]) && t.ready[2] == s.ready[2]
    ensures p != 0 ==> LiveDeque(t, 0) == LiveDeque(s, 0)
    ensures p != 1 ==> LiveDeque(t, 1) == LiveDeque(s, 1)
    ensures p != 2 ==> LiveDeque(t, 2) == LiveDeque(s, 2)
  {
    if p != 0 { LiveFrame(s.ready[0], s.ctl, t.ctl, QueuedReady, id); }
    if p != 1 { LiveFrame(s.ready[1], s.ctl, t.ctl, QueuedReady, id); }
    if p != 2 { LiveFrame(s.ready[2], s.ctl, t.ctl, QueuedReady, id); }
  }

  /** One live entry, or nothing. */
  function Taken(s: Sched, p: nat): seq<Entry>
    requires p < 3 && s.ready[p] != []
  {
    var e := s.ready[p][0];
    if HasState(s, e.id, QueuedReady) then [e] else []
  }

  /** `t` is `s` with the first live entries of deque `p` moved to the snapshot, as many as fit. */
  ghost predicate TookFrom(s: Sched, t: Sched, p: nat, maxTasks: nat)
    requires p < 3
  {
    && |s.batch| <= maxTasks
    && var k := Min(maxTasks - |s.batch|, |LiveDeque(s, p)|);
    && t.batch == s.batch + LiveDeque(s, p)[..k] && LiveDeque(t, p) == LiveDeque(s, p)[k..]
    && (p != 0 ==> LiveDeque(t, 0) == LiveDeque(s, 0))
    && (p != 1 ==> LiveDeque(t, 1) == LiveDeque(s, 1))
    && (p != 2 ==> LiveDeque(t, 2) == LiveDeque(s, 2))
  }

  lemma {:induction false} TakeFromResult(s: Sched, p: nat, maxTasks: nat, owed: nat)
    requires Inv(s, owed) && |s.batch| <= maxTasks && p < 3
    ensures TookFrom(s, TakeFrom(s, p, maxTasks), p, maxTasks)
    decreases |s.ready[p]|
  {
    if s.ready[p] != [] && |s.batch| < maxTasks {
      var t := TakeFront(s, p);
      TakeFrontLive(s, p, owed);
      TakeFrontBatch(s, p);
      KeepsTakeFront(s, p, owed);
      TakeFromResult(t, p, maxTasks, owed);
      TakeStep(s, t, TakeFrom(t, p, maxTasks), p, Taken(s, p), maxTasks);
    } else {
      TookNothing(s, p, maxTasks);
    }
  }

  lemma TookNothing(s: Sched, p: nat, maxTasks: nat)
    requires p < 3 && |s.batch| <= maxTasks && (s.ready[p] == [] || |s.batch| == maxTasks)
    ensures TookFrom(s, s, p, maxTasks)
  {
  }

  lemma TakeFrontBatch(s: Sched, p: nat)
    requires p < 3 && s.ready[p] != []
    ensures TakeFront(s, p).batch == s.batch + Taken(s, p)
  {
  }

  lemma TakeStep(s: Sched, t: Sched, end: Sched, p: nat, taken: seq<Entry>, maxTasks: nat)
    requires p < 3 && |taken| <= 1 && t.batch == s.batch + taken && |s.batch| < maxTasks
    requires LiveDeque(s, p) == taken + LiveDeque(t, p)
    requires p != 0 ==> LiveDeque(t, 0) == LiveDeque(s, 0)
    requires p != 1 ==> LiveDeque(t, 1) == LiveDeque(s, 1)
    requires p != 2 ==> LiveDeque(t, 2) == LiveDeque(s, 2)
    requires TookFrom(t, end, p, maxTasks)
    ensures TookFrom(s, end, p, maxTasks)
  {
    var l := LiveDeque(s, p);
    var k, k' := Min(maxTasks - |s.batch|, |l|), Min(maxTasks - |t.batch|, |LiveDeque(t, p)|);
    assert l[..k] == taken + LiveDeque(t, p)[..k'];
    assert l[k..] == LiveDeque(t, p)[k'..];
  }

  /** take_ready_batch_locked takes the first live tasks of high ++ normal ++ low, in that order. */
  lemma TakeResult(s: Sched, maxTasks: nat, owed: nat)
    requires Inv(s, owed) && |s.batch| <= maxTasks
    ensures var k := Min(maxTasks - |s.batch|, |ReadyOrder(s)|);
      Take(s, maxTasks).batch == s.batch + ReadyOrder(s)[..k] && ReadyOrder(Take(s, maxTasks)) == ReadyOrder(s)[k..]
  {
    var s1 := TakeFrom(s, 0, maxTasks);
    var s2 := TakeFrom(s1, 1, maxTasks);
    TakeFromResult(s, 0, maxTasks, owed);
    KeepsTakeFrom(s, 0, maxTasks, owed);
    TakeFromResult(s1, 1, maxTasks, owed);
    KeepsTakeFrom(s1, 1, maxTasks, owed);
    TakeFromResult(s2, 2, maxTasks, owed);
    TakeThree(s, s1, s2, TakeFrom(s2, 2, maxTasks), maxTasks);
  }

  lemma TakeThree(s: Sched, s1: Sched, s2: Sched, s3: Sched, maxTasks: nat)
    requires TookFrom(s, s1, 0, maxTasks) && TookFrom(s1, s2, 1, maxTasks) && TookFrom(s2, s3, 2, maxTasks)
    ensures var k := Min(maxTasks - |s.batch|, |ReadyOrder(s)|);
      s3.batch == s.batch + ReadyOrder(s)[..k] && ReadyOrder(s3) == ReadyOrder(s)[k..]
  {
    ThreeTakes(s.batch, s1.batch, s2.batch, s3.batch, LiveDeque(s, 0), LiveDeque(s, 1), LiveDeque(s, 2), maxTasks);
  }

  lemma ThreeTakes(x: seq<Entry>, x1: seq<Entry>, x2: seq<Entry>, x3: seq<Entry>, a: seq<Entry>, b: seq<Entry>, c: seq<Entry>, n: nat)
    requires |x| <= n && |x1| <= n && |x2| <= n
    requires x1 == x + a[..Min(n - |x|, |a|)] && x2 == x1 + b[..Min(n - |x1|, |b|)] && x3 == x2 + c[..Min(n - |x2|, |c|)]
    ensures var m := Min(n - |x|, |a + b + c|);
      && x3 == x + (a + b + c)[..m]
      && a[Min(n - |x|, |a|)..] + b[Min(n - |x1|, |b|)..] + c[Min(n - |x2|, |c|)..] == (a + b + c)[m..]
  {
    var (p, q, r) := (a[..Min(n - |x|, |a|)], b[..Min(n - |x1|, |b|)], c[..Min(n - |x2|, |c|)]);
    assert |x1| == |x| + |p| && |x2| == |x1| + |q|;
    ThreePrefixes(a, b, c, n - |x|);
    Reassociate(x, p, q, r, x1, x2, x3);
  }

  lemma Reassociate(x: seq<Entry>, a: seq<Entry>, b: seq<Entry>, c: seq<Entry>, x1: seq<Entry>, x2: seq<Entry>, x3: seq<Entry>)
    requires x1 == x + a && x2 == x1 + b && x3 == x2 + c
    ensures x3 == x + (a + b + c)
  {
  }

  /** Filling up to `n` from three lists in turn is filling from their concatenation. */
  lemma ThreePrefixes(a: seq<Entry>, b: seq<Entry>, c: seq<Entry>, n: nat)
    ensures var i := Min(n, |a|); var j := Min(n - i, |b|); var k := Min(n - i - j, |c|); var m := Min(n, |a + b + c|);
      && a[..i] + b[..j] + c[..k] == (a + b + c)[..m]
      && a[i..] + b[j..] + c[k..] == (a + b + c)[m..]
  {
  }
}
