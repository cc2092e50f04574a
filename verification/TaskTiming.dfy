/** When periodic tasks start: cycle numbers, deadlines and clock values over whole runs. */
module TaskTiming {
  import opened TaskTypes
  import opened TaskOps
  import opened TaskInvariant
  import TaskSteps
  import TaskFate
  import TaskProcess
  import opened TaskWorld
  import opened TaskLedger

  // ---------- the observer ----------

  /** What an observer has seen of a periodic task: the time its present series of cycles is anchored
      at, how many cycles of that series have started, and when the last cycle of it finished. */
  datatype Series = Series(schedule: PeriodicSchedule, interval: int, anchor: Time, starts: nat, finished: Option<Time>)

  type History = map<TaskId, Series>

  /** The observer opens a series when a periodic task is accepted and when an explicit reschedule
      takes effect, and otherwise counts starts and notes finishes. */
  function Observe(w: World, a: Action, h: History): History {
    match a
    case Request(OpPostEvery(callable, delay, interval, _, schedule, now, _)) =>
      if !callable || interval <= 0 || w.s.closed then h
      else h[w.s.nextId := Series(schedule, interval, if delay <= 0 then now else now + delay, 0, None)]
    case Cas =>
      if w.s.batch != [] && Start(w.s).1 && w.s.batch[0].id in h then
        h[w.s.batch[0].id := h[w.s.batch[0].id].(starts := h[w.s.batch[0].id].starts + 1)]
      else h
    case Finish(now, _) =>
      if w.s.running == [] || w.s.running[0].id !in h then h
      else
        var id := w.s.running[0].id;
        if !HasState(w.s, id, Executing) || w.s.closed then h
        else if w.s.ctl[id].rescheduleRequested then
          h[id := h[id].(anchor := w.s.ctl[id].rescheduleDue, starts := 0, finished := None)]
        else h[id := h[id].(finished := Some(now))]
    case _ => h
  }

  // ---------- the invariant ----------

  predicate Ripe(s: Sched, e: Entry) {
    e in s.ready[0] || e in s.ready[1] || e in s.ready[2] || e in s.batch || e in s.running
  }

  predicate Held(s: Sched, e: Entry) {
    Ripe(s, e) || e in s.delayed
  }

  /** The cycle number of a held entry: the starts so far, less its own if it is the running one. */
  predicate CycleOk(e: Entry, x: Series, running: bool) {
    && x.schedule == e.schedule && x.interval == e.interval > 0 && e.planned == e.due
    && (running ==> x.starts >= 1)
    && (e.schedule == FixedRate ==> e.due == x.anchor + (x.starts - if running then 1 else 0) * x.interval)
    && (e.schedule == FixedDelay ==>
          if x.finished.Some? then (running || x.starts >= 1) && (!running ==> e.due == x.finished.value + x.interval)
          else e.due == x.anchor)
  }

  predicate EntryTimed(w: World, h: History, e: Entry) {
    e.periodic && !Over(w.s, e.id) ==>
      && e.id in h && CycleOk(e, h[e.id], e in w.s.running)
      && (Ripe(w.s, e) ==> e.due <= w.now)
  }

  /** No cycle of a fixed-rate series has started ahead of its place in the series. */
  predicate OnTime(x: Series, now: Time) {
    && x.interval > 0
    && (x.schedule == FixedRate && x.starts > 0 ==> x.anchor + (x.starts - 1) * x.interval <= now)
  }

  predicate SeriesOk(w: World, h: History, id: TaskId) {
    id in h && id in w.s.ctl && w.s.ctl[id].periodic && OnTime(h[id], w.now)
  }

  ghost predicate Timed(w: World, h: History) {
    && (forall e :: Held(w.s, e) ==> EntryTimed(w, h, e))
    && (forall id :: id in h ==> SeriesOk(w, h, id))
  }

  // ---------- where each entry comes from ----------

  lemma {:induction false} InsertFrom(q: seq<Entry>, x: Entry, e: Entry)
    ensures e in Insert(q, x) ==> e == x || e in q
  {
    if q == [] || Sooner(x, q[0]) {
    } else {
      InsertFrom(q[1..], x, e);
    }
  }

  /** `t` holds nothing that `s` did not hold; an entry that became ripe was due by `now`. */
  ghost predicate NothingNew(s: Sched, t: Sched, now: Time, e: Entry) {
    && (e in t.running ==> e in s.running)
    && (Ripe(t, e) ==> Ripe(s, e) || (e in s.delayed && e.due <= now))
    && (e in t.delayed ==> e in s.delayed)
  }

  lemma {:induction false} PruneFrom(s: Sched, now: Time, e: Entry)
    ensures NothingNew(s, Prune(s), now, e)
    decreases |s.delayed|
  {
    if s.delayed == [] || !Dead(s, s.delayed[0]) {
    } else {
      PruneFrom(s.(delayed := s.delayed[1..]), now, e);
    }
  }

  lemma PromoteFrontFrom(s: Sched, now: Time, e: Entry)
    requires s.delayed != [] && s.delayed[0].due <= now
    ensures NothingNew(s, PromoteFront(s), now, e)
  {
  }

  lemma {:induction false} PromoteLoopFrom(s: Sched, now: Time, e: Entry)
    ensures NothingNew(s, PromoteLoop(s, now), now, e)
    decreases |s.delayed|
  {
    if s.delayed == [] || s.delayed[0].due > now {
    } else {
      var t := PromoteFront(s);
      PruneShrinks(t);
      PromoteFrontFrom(s, now, e);
      PruneFrom(t, now, e);
      PromoteLoopFrom(Prune(t), now, e);
    }
  }

  lemma {:induction false} TakeFromFrom(s: Sched, p: nat, maxTasks: nat, now: Time, e: Entry)
    requires p < 3
    ensures NothingNew(s, TakeFrom(s, p, maxTasks), now, e)
    decreases |s.ready[p]|
  {
    if s.ready[p] == [] || |s.batch| >= maxTasks {
    } else {
      TakeFrontFrom(s, p, now, e);
      TakeFromFrom(TakeFront(s, p), p, maxTasks, now, e);
    }
  }

  lemma TakeFrontFrom(s: Sched, p: nat, now: Time, e: Entry)
    requires p < 3 && s.ready[p] != []
    ensures NothingNew(s, TakeFront(s, p), now, e)
  {
  }

  lemma EnterFrom(s: Sched, maxTasks: nat, now: Time, e: Entry)
    ensures NothingNew(s, Take(Promote(s, now), maxTasks), now, e)
  {
    var u := Promote(s, now);
    var u0 := TakeFrom(u, 0, maxTasks);
    var u1 := TakeFrom(u0, 1, maxTasks);
    PruneFrom(s, now, e);
    PromoteLoopFrom(Prune(s), now, e);
    TakeFromFrom(u, 0, maxTasks, now, e);
    TakeFromFrom(u0, 1, maxTasks, now, e);
    TakeFromFrom(u1, 2, maxTasks, now, e);
  }

  lemma {:induction false} RestoreFrom(s: Sched, now: Time, e: Entry)
    ensures NothingNew(s, Restore(s), now, e)
    decreases |s.batch|
  {
    if s.batch == [] {
    } else {
      RestoreBackFrom(s, now, e);
      RestoreFrom(RestoreBack(s), now, e);
    }
  }

  lemma RestoreBackFrom(s: Sched, now: Time, e: Entry)
    requires s.batch != []
    ensures NothingNew(s, RestoreBack(s), now, e)
  {
  }

  lemma {:induction false} ClearReadyFrom(s: Sched, p: nat, now: Time, e: Entry)
    requires p < 3
    ensures NothingNew(s, ClearReady(s, p), now, e)
    decreases |s.ready[p]|
  {
    if s.ready[p] == [] {
    } else {
      ClearReadyFrom(DropReady(s, p), p, now, e);
    }
  }

  lemma {:induction false} ClearDelayedFrom(s: Sched, now: Time, e: Entry)
    ensures NothingNew(s, ClearDelayed(s), now, e)
    decreases |s.delayed|
  {
    if s.delayed == [] {
    } else {
      ClearDelayedFrom(DropDelayed(s), now, e);
    }
  }

  lemma ClearFrom(s: Sched, now: Time, e: Entry)
    ensures NothingNew(s, ClearPending(s), now, e)
  {
    var s0 := ClearReady(s, 0);
    var s1 := ClearReady(s0, 1);
    ClearReadyFrom(s, 0, now, e);
    ClearReadyFrom(s0, 1, now, e);
    ClearReadyFrom(s1, 2, now, e);
    ClearDelayedFrom(ClearReady(s1, 2), now, e);
  }

  lemma PutFrom(s: Sched, x: Entry, ready: bool, e: Entry)
    ensures var t := Put(s, x, ready);
      && (Ripe(t, e) ==> Ripe(s, e) || (ready && e == x))
      && (e in t.delayed ==> e in s.delayed || (!ready && e == x))
      && t.running == s.running
  {
    InsertFrom(s.delayed, x, e);
  }

  lemma {:induction false} HeldId(q: seq<Entry>, e: Entry)
    requires e in q
    ensures e.id in Ids(q)
  {
    if e == q[0] {
    } else {
      HeldId(q[1..], e);
    }
  }

  /** A held entry belongs to a known task and sits where the state of that task allows. */
  lemma HeldHome(s: Sched, e: Entry)
    requires QueuesOk(s) && Held(s, e)
    ensures e.id in s.ctl
    ensures HasState(s, e.id, ReadySnapshot) ==> e in s.batch
    ensures HasState(s, e.id, Executing) ==> e in s.running
    ensures s.running != [] && e in s.running ==> e == s.running[0]
  {
    OnlyAtHome(s, e.id);
    if e in s.ready[0] { HeldId(s.ready[0], e); }
    if e in s.ready[1] { HeldId(s.ready[1], e); }
    if e in s.ready[2] { HeldId(s.ready[2], e); }
    if e in s.delayed { HeldId(s.delayed, e); }
    if e in s.batch { HeldId(s.batch, e); }
    if e in s.running { HeldId(s.running, e); }
  }

  // ---------- every step keeps the invariant ----------

  /** A step that only moves entries. */
  lemma QuietEntry(w: World, w': World, h: History, now: Time, e: Entry)
    requires Timed(w, h) && NothingNew(w.s, w'.s, now, e) && Held(w'.s, e)
    requires w.now <= w'.now && now <= w'.now && (e in w.s.running ==> e in w'.s.running)
    requires Over(w.s, e.id) ==> Over(w'.s, e.id)
    ensures EntryTimed(w', h, e)
  {
    assert Held(w.s, e) && EntryTimed(w, h, e);
  }

  lemma HeldFate(w: World, a: Action, w': World, e: Entry)
    requires WorldInv(w) && Step(w, a, w') && Held(w.s, e)
    ensures e.id in w.s.ctl && e.id in w'.s.ctl && (Over(w.s, e.id) ==> Over(w'.s, e.id))
  {
    HeldHome(w.s, e);
    StepFate(w, a, w', e.id);
  }

  lemma EntersTimed(w: World, a: Action, w': World, h: History)
    requires WorldInv(w) && Timed(w, h) && Step(w, a, w') && a.Enter?
    ensures forall e :: Held(w'.s, e) ==> EntryTimed(w', h, e)
  {
    forall e | Held(w'.s, e)
      ensures EntryTimed(w', h, e)
    {
      EnterFrom(w.s, a.maxTasks, a.now, e);
      HeldFate(w, a, w', e);
      QuietEntry(w, w', h, a.now, e);
    }
  }

  lemma GiveBackTimed(w: World, a: Action, w': World, h: History)
    requires WorldInv(w) && Timed(w, h) && Step(w, a, w') && a.GiveBack?
    ensures forall e :: Held(w'.s, e) ==> EntryTimed(w', h, e)
  {
    forall e | Held(w'.s, e)
      ensures EntryTimed(w', h, e)
    {
      RestoreFrom(w.s, w.now, e);
      HeldFate(w, a, w', e);
      QuietEntry(w, w', h, w.now, e);
    }
  }

  lemma CasTimed(w: World, a: Action, w': World, h: History)
    requires WorldInv(w) && Timed(w, h) && Step(w, a, w') && a.Cas?
    ensures forall e :: Held(w'.s, e) ==> EntryTimed(w', Observe(w, a, h), e)
  {
    forall e | Held(w'.s, e)
      ensures EntryTimed(w', Observe(w, a, h), e)
    {
      assert Held(w.s, e) && EntryTimed(w, h, e);
      HeldHome(w.s, e);
      BatchIds(w.s, e);
    }
  }

  /** The cycle about to start is in its place in the series, and due. */
  lemma StartsInPlace(w: World, h: History)
    requires WorldInv(w) && Timed(w, h) && w.s.batch != [] && w.s.batch[0].id in h && Start(w.s).1
    ensures var (e, x) := (w.s.batch[0], h[w.s.batch[0].id]);
      && e.periodic && x.interval > 0 && e.due <= w.now && e.planned == e.due
      && (x.schedule == FixedRate ==> e.due == x.anchor + x.starts * x.interval)
      && (x.schedule == FixedDelay ==> e.due == if x.finished.Some? then x.finished.value + x.interval else x.anchor)
  {
    var e := w.s.batch[0];
    assert e in w.s.batch && Held(w.s, e) && EntryTimed(w, h, e) && SeriesOk(w, h, e.id);
    NotRunning(w.s, e);
    assert EntryOk(e, w.s.ctl, w.s.nextSeq, ReadySnapshot);
  }

  lemma NotRunning(s: Sched, e: Entry)
    requires QueuesOk(s) && HasState(s, e.id, ReadySnapshot)
    ensures e !in s.running
  {
    if e in s.running {
      HeldHome(s, e);
      OnlyAtHome(s, e.id);
      HeldId(s.running, e);
    }
  }

  lemma CasSeries(w: World, a: Action, w': World, h: History)
    requires WorldInv(w) && Timed(w, h) && Step(w, a, w') && a.Cas?
    ensures forall id :: id in Observe(w, a, h) ==> SeriesOk(w', Observe(w, a, h), id)
  {
    if w.s.batch[0].id in h && Start(w.s).1 {
      StartsInPlace(w, h);
    }
    forall id | id in Observe(w, a, h)
      ensures SeriesOk(w', Observe(w, a, h), id)
    {
      assert SeriesOk(w, h, id);
    }
  }

  lemma BatchIds(s: Sched, e: Entry)
    requires QueuesOk(s) && s.batch != []
    ensures e in s.batch[1..] ==> e.id != s.batch[0].id
  {
    if e in s.batch[1..] {
      HeldId(s.batch[1..], e);
    }
  }

  predicate Waiting(s: Sched, e: Entry) {
    e in s.ready[0] || e in s.ready[1] || e in s.ready[2] || e in s.batch || e in s.delayed
  }

  lemma FinishFrom(s: Sched, now: Time, lockedNow: Time, e: Entry)
    requires s.running != []
    ensures var t := FinishSuccess(s, now, lockedNow);
      t.running == [] && (Held(t, e) ==> (Waiting(s, e) && (Ripe(t, e) ==> Ripe(s, e))) || Requeued(s, t, now, lockedNow, e))
  {
    var x := s.running[0];
    if HasState(s, x.id, Executing) && !s.closed {
      if s.ctl[x.id].rescheduleRequested {
        PutFrom(s.(running := []), TaskSteps.Again(s, s.ctl[x.id].rescheduleDue), s.ctl[x.id].rescheduleDue <= lockedNow, e);
      } else if x.periodic {
        PutFrom(s.(running := []), TaskSteps.Again(s, NextPeriodicDue(x, now)), NextPeriodicDue(x, now) <= lockedNow, e);
      }
    }
  }

  /** `e` is the next cycle of the task that ran. */
  predicate Requeued(s: Sched, t: Sched, now: Time, lockedNow: Time, e: Entry)
    requires s.running != []
  {
    var x := s.running[0];
    && HasState(s, x.id, Executing) && !s.closed
    && (s.ctl[x.id].rescheduleRequested || x.periodic)
    && e == TaskSteps.Again(s, if s.ctl[x.id].rescheduleRequested then s.ctl[x.id].rescheduleDue else NextPeriodicDue(x, now))
    && (Ripe(t, e) ==> e.due <= lockedNow) && t.running == []
  }

  lemma FinishTimed(w: World, a: Action, w': World, h: History)
    requires WorldInv(w) && Timed(w, h) && Step(w, a, w') && a.Finish?
    ensures forall e :: Held(w'.s, e) ==> EntryTimed(w', Observe(w, a, h), e)
  {
    forall e | Held(w'.s, e)
      ensures EntryTimed(w', Observe(w, a, h), e)
    {
      FinishFrom(w.s, a.now, a.lockedNow, e);
      if Requeued(w.s, w'.s, a.now, a.lockedNow, e) {
        NextCycle(w, a, w', h, e);
      } else {
        HeldFate(w, a, w', e);
        OtherTask(w, a, w', h, e);
      }
    }
  }

  /** The entry of the next cycle. */
  lemma NextCycle(w: World, a: Action, w': World, h: History, e: Entry)
    requires WorldInv(w) && Timed(w, h) && Step(w, a, w') && a.Finish? && Requeued(w.s, w'.s, a.now, a.lockedNow, e)
    ensures EntryTimed(w', Observe(w, a, h), e)
  {
    var x := w.s.running[0];
    assert x in w.s.running && Held(w.s, x) && EntryTimed(w, h, x);
  }

  /** What stays held after a finish is not the entry that ran. */
  lemma OtherTask(w: World, a: Action, w': World, h: History, e: Entry)
    requires WorldInv(w) && Timed(w, h) && Step(w, a, w') && a.Finish? && Waiting(w.s, e)
    requires e !in w'.s.running && (Ripe(w'.s, e) ==> Ripe(w.s, e)) && (Over(w.s, e.id) ==> Over(w'.s, e.id))
    ensures EntryTimed(w', Observe(w, a, h), e)
  {
    assert Held(w.s, e) && EntryTimed(w, h, e);
    WaitingHome(w.s, e);
  }

  lemma WaitingHome(s: Sched, e: Entry)
    requires QueuesOk(s) && Waiting(s, e)
    ensures e.id in s.ctl && !HasState(s, e.id, Executing)
    ensures s.running != [] && e == s.running[0] ==> Over(s, e.id)
  {
    OnlyAtHome(s, e.id);
    if e in s.ready[0] { HeldId(s.ready[0], e); }
    if e in s.ready[1] { HeldId(s.ready[1], e); }
    if e in s.ready[2] { HeldId(s.ready[2], e); }
    if e in s.delayed { HeldId(s.delayed, e); }
    if e in s.batch { HeldId(s.batch, e); }
  }

  lemma FinishKind(s: Sched, now: Time, lockedNow: Time, id: TaskId)
    requires s.running != [] && id in s.ctl
    ensures SameKind(s, FinishSuccess(s, now, lockedNow), id)
  {
  }

  lemma FinishOnTime(w: World, now: Time, lockedNow: Time, h: History, id: TaskId)
    requires id in h && OnTime(h[id], w.now) && w.now <= lockedNow
    ensures var g := Observe(w, Finish(now, lockedNow), h); g.Keys == h.Keys && OnTime(g[id], lockedNow)
  {
  }

  lemma FinishSeries(w: World, a: Action, w': World, h: History)
    requires WorldInv(w) && Timed(w, h) && Step(w, a, w') && a.Finish?
    ensures forall id :: id in Observe(w, a, h) ==> SeriesOk(w', Observe(w, a, h), id)
  {
    forall id | id in Observe(w, a, h)
      ensures SeriesOk(w', Observe(w, a, h), id)
    {
      assert SeriesOk(w, h, id);
      FinishKind(w.s, a.now, a.lockedNow, id);
      FinishOnTime(w, a.now, a.lockedNow, h, id);
    }
  }

  // ---------- the other steps ----------

  lemma PostsTimed(w: World, a: Action, w': World, h: History, e: Entry)
    requires WorldInv(w) && Timed(w, h) && Step(w, a, w') && a.Request? && Posts(a.op) && Held(w'.s, e)
    ensures EntryTimed(w', Observe(w, a, h), e)
  {
    PostShape(w.s, a.op);
    assert TaskOk(w.s, w.s.nextId);
    if !Accepts(w.s, a.op) {
      assert EntryTimed(w, h, e);
    } else {
      var (x, ready) := PostedEntry(w.s, a.op);
      PutFrom(w.s, x, ready, e);
      if Held(w.s, e) {
        assert EntryTimed(w, h, e);
        HeldHome(w.s, e);
      }
      AdmittedTimed(w, a, w', h, e, x, ready);
    }
  }

  lemma AdmittedTimed(w: World, a: Action, w': World, h: History, e: Entry, x: Entry, ready: bool)
    requires a.Request? && Posts(a.op) && Accepts(w.s, a.op) && PostedEntry(w.s, a.op) == (x, ready)
    requires x.id == w.s.nextId && x.seqNo == w.s.nextSeq && w'.s == Admit(w.s, x, ready)
    requires w.s.nextId !in w.s.ctl && w.now <= w'.now && w'.now == Clock(w.now, a.op) && ClockOk(w.now, a.op)
    requires (Ripe(w'.s, e) ==> Ripe(w.s, e) || (ready && e == x)) && (e in w'.s.delayed ==> e in w.s.delayed || (!ready && e == x))
    requires Held(w.s, e) ==> EntryTimed(w, h, e) && e.id in w.s.ctl
    requires Held(w'.s, e) && x.id !in Ids(w.s.running)
    ensures EntryTimed(w', Observe(w, a, h), e)
  {
    if x in w.s.running {
      HeldId(w.s.running, x);
    }
  }

  lemma RequestFrom(s: Sched, op: Op, now: Time, e: Entry)
    requires !Posts(op)
    ensures NothingNew(s, Apply(s, op).0, now, e)
  {
    if op.OpClearPending? {
      ClearFrom(s, now, e);
    } else if op.OpNextDeadline? {
      PruneFrom(s, now, e);
    }
  }

  /** The remaining steps move no entry, or drop some. */
  lemma RestFrom(w: World, a: Action, w': World, e: Entry)
    requires WorldInv(w) && Step(w, a, w') && !a.Enter? && !a.Cas? && !a.Finish? && !a.GiveBack? && !a.Throw?
    requires a.Request? ==> !Posts(a.op)
    ensures NothingNew(w.s, w'.s, w.now, e) && w'.s.running == w.s.running && w'.now == w.now
  {
    match a
    case Request(op) =>
      RequestFrom(w.s, op, w.now, e);
      TaskProcess.ApplyFrame(w.s, op);
    case TryCancel => CancelFrame(w.s, w.mutex.id, w.mutex.observed);
    case _ =>
  }

  lemma RestTimed(w: World, a: Action, w': World, h: History, e: Entry)
    requires WorldInv(w) && Timed(w, h) && Step(w, a, w') && Held(w'.s, e)
    requires !a.Enter? && !a.Cas? && !a.Finish? && !a.GiveBack? && !a.Throw?
    requires a.Request? ==> !Posts(a.op)
    ensures EntryTimed(w', h, e)
  {
    RestFrom(w, a, w', e);
    HeldFate(w, a, w', e);
    QuietEntry(w, w', h, w.now, e);
  }

  lemma ThrowTimed(w: World, a: Action, w': World, h: History, e: Entry)
    requires WorldInv(w) && Timed(w, h) && Step(w, a, w') && Held(w'.s, e) && a.Throw?
    ensures EntryTimed(w', h, e)
  {
    FailFrom(w.s, e);
    assert EntryTimed(w, h, e);
    HeldFate(w, a, w', e);
    WaitingHome(w.s, e);
  }

  lemma FailFrom(s: Sched, e: Entry)
    requires QueuesOk(s) && s.running != []
    ensures var t := FinishException(s);
      t.running == [] && (Held(t, e) ==> Waiting(s, e) && Held(s, e) && (Ripe(t, e) ==> Ripe(s, e)))
  {
  }

  ghost predicate SameKind(s: Sched, t: Sched, id: TaskId) {
    id in s.ctl && id in t.ctl && t.ctl[id].periodic == s.ctl[id].periodic
  }

  lemma EnterKind(s: Sched, now: Time, n: nat, id: TaskId)
    requires id in s.ctl
    ensures SameKind(s, Take(Promote(s, now), n), id)
  {
    TaskFate.PromoteFate(s, now, id);
    TaskFate.TakeFate(Promote(s, now), n, id);
  }

  /** A task is periodic or one-shot for good. */
  lemma StepKind(w: World, a: Action, w': World, id: TaskId)
    requires WorldInv(w) && Step(w, a, w') && id in w.s.ctl && !a.Cas? && !a.Finish?
    ensures SameKind(w.s, w'.s, id)
  {
    if a.Enter? {
      EnterKind(w.s, a.now, a.maxTasks, id);
    } else if a.GiveBack? {
      TaskFate.RestoreFate(w.s, id);
    } else if a.Request? {
      RequestKind(w.s, a.op, id);
    } else if a.Throw? {
      TaskFate.FinishFate(w.s, 0, 0, id);
    }
  }

  lemma RequestKind(s: Sched, op: Op, id: TaskId)
    requires Housed(s) && id in s.ctl
    ensures SameKind(s, Apply(s, op).0, id)
  {
    assert TaskOk(s, id);
    TaskFate.ApplyFate(s, op, id);
  }

  lemma RestSeries(w: World, a: Action, w': World, h: History)
    requires WorldInv(w) && Timed(w, h) && Step(w, a, w') && !a.Cas? && !a.Finish?
    ensures forall id :: id in Observe(w, a, h) ==> SeriesOk(w', Observe(w, a, h), id)
  {
    forall id | id in Observe(w, a, h)
      ensures SeriesOk(w', Observe(w, a, h), id)
    {
      if id in h {
        assert SeriesOk(w, h, id);
        assert TaskOk(w.s, w.s.nextId);
        StepKind(w, a, w', id);
      }
    }
  }

  /** Every step of every thread keeps each held entry in its place in its series. */
  lemma StepTimed(w: World, a: Action, w': World, h: History)
    requires WorldInv(w) && Timed(w, h) && Step(w, a, w')
    ensures Timed(w', Observe(w, a, h))
  {
    if a.Cas? {
      CasTimed(w, a, w', h);
      CasSeries(w, a, w', h);
    } else if a.Finish? {
      FinishTimed(w, a, w', h);
      FinishSeries(w, a, w', h);
    } else {
      RestSeries(w, a, w', h);
      RestEntries(w, a, w', h);
    }
  }

  lemma RestEntries(w: World, a: Action, w': World, h: History)
    requires WorldInv(w) && Timed(w, h) && Step(w, a, w') && !a.Cas? && !a.Finish?
    ensures forall e :: Held(w'.s, e) ==> EntryTimed(w', Observe(w, a, h), e)
  {
    if a.Enter? {
      EntersTimed(w, a, w', h);
    } else if a.GiveBack? {
      GiveBackTimed(w, a, w', h);
    } else {
      forall e | Held(w'.s, e)
        ensures EntryTimed(w', Observe(w, a, h), e)
      {
        if a.Request? && Posts(a.op) {
          PostsTimed(w, a, w', h, e);
        } else if a.Throw? {
          ThrowTimed(w, a, w', h, e);
        } else {
          RestTimed(w, a, w', h, e);
        }
      }
    }
  }

  // ---------- runs ----------

  /** A run with its observer. */
  ghost predicate IsObserved(ws: seq<World>, acts: seq<Action>, hs: seq<History>) {
    && IsRun(ws, acts) && |hs| == |ws| && Timed(ws[0], hs[0])
    && forall i :: 0 <= i < |acts| ==> hs[i + 1] == Observe(ws[i], acts[i], hs[i])
  }

  lemma StartTimed()
    ensures Timed(START, map[])
  {
  }

  lemma {:induction false} RunTimed(ws: seq<World>, acts: seq<Action>, hs: seq<History>, i: nat)
    requires IsObserved(ws, acts, hs) && i < |ws|
    ensures WorldInv(ws[i]) && Timed(ws[i], hs[i])
  {
    RunInv(ws, acts, i);
    if i == 0 {
    } else {
      RunTimed(ws, acts, hs, i - 1);
      assert hs[i - 1 + 1] == Observe(ws[i - 1], acts[i - 1], hs[i - 1]);
      RunStep(ws, acts, i - 1);
      StepTimed(ws[i - 1], acts[i - 1], ws[i], hs[i - 1]);
    }
  }

  lemma TimesAtMost(a: int, b: int, interval: int)
    requires a <= b && interval > 0
    ensures a * interval <= b * interval
  {
    assert 0 <= (b - a) * interval;
  }

  lemma WholeCycles(elapsed: int, interval: int, cycles: nat)
    requires interval > 0 && cycles * interval <= elapsed
    ensures 0 <= elapsed && cycles <= elapsed / interval
  {
    TimesAtMost(0, cycles, interval);
    var q := elapsed / interval;
    assert (q + 1) * interval == q * interval + interval > elapsed;
    if q + 1 <= cycles {
      TimesAtMost(q + 1, cycles, interval);
    }
  }

  /** No drift: at every moment of every run, a fixed-rate series anchored at `anchor` has started at
      most floor((now - anchor) / interval) + 1 cycles, and none before its anchor. The anchor is the
      first deadline, or the time asked for by the last explicit reschedule that took effect. */
  lemma NoDrift(ws: seq<World>, acts: seq<Action>, hs: seq<History>, i: nat, id: TaskId)
    requires IsObserved(ws, acts, hs) && i < |ws| && id in hs[i] && hs[i][id].schedule == FixedRate
    ensures var (x, now) := (hs[i][id], ws[i].now);
      x.interval > 0 && (x.starts > 0 ==> x.anchor <= now && x.starts <= (now - x.anchor) / x.interval + 1)
  {
    RunTimed(ws, acts, hs, i);
    assert SeriesOk(ws[i], hs[i], id);
    var x := hs[i][id];
    if x.starts > 0 {
      WholeCycles(ws[i].now - x.anchor, x.interval, x.starts - 1);
    }
  }

  /** A start of a periodic task: cycle k of a fixed-rate series is planned for anchor + k * interval
      and starts no earlier; a fixed-delay cycle starts at least one interval after the previous
      finish, and the first of a series no earlier than its anchor. */
  lemma StartsOnTime(ws: seq<World>, acts: seq<Action>, hs: seq<History>, i: nat, id: TaskId)
    requires IsObserved(ws, acts, hs) && i < |acts| && StartsAt(ws[i], acts[i], id) && id in hs[i]
    ensures var (e, x, now) := (ws[i].s.batch[0], hs[i][id], ws[i].now);
      && (x.schedule == FixedRate ==> e.planned == x.anchor + x.starts * x.interval && e.planned <= now)
      && (x.schedule == FixedDelay ==> if x.finished.Some? then x.finished.value + x.interval <= now else x.anchor <= now)
      && id in hs[i + 1] && hs[i + 1][id] == x.(starts := x.starts + 1)
  {
    RunTimed(ws, acts, hs, i);
    RunStep(ws, acts, i);
    StartsInPlace(ws[i], hs[i]);
    assert hs[i + 1] == Observe(ws[i], acts[i], hs[i]);
  }
}
