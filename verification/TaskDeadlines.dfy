/** When tasks run, told from what was asked of the manager: an observer writes down the time each
    submission, each cycle and each reschedule asks for, and every task keeps to it in every run. */
module TaskDeadlines {
  import opened TaskTypes
  import opened TaskOps
  import opened TaskInvariant
  import TaskSteps
  import TaskFate
  import TaskLive
  import TaskProcess
  import opened TaskWorld
  import opened TaskLedger
  import opened TaskTiming

  // ---------- the observer ----------

  /** `asked` is the time before which a task must not start, for tasks that were given one; `wanted` is
      what the running callback has asked for by its last accepted reschedule request. */
  datatype Watch = Watch(asked: map<TaskId, Time>, wanted: map<TaskId, Time>)

  /** A submission's argument, the deadline of the next cycle, or the accepted request. */
  function Watching(w: World, a: Action, h: Watch): Watch {
    match a
    case Request(OpPostAt(callable, due, _, _)) =>
      if !callable || w.s.closed then h else h.(asked := h.asked[w.s.nextId := due])
    case Request(OpPostEvery(callable, delay, interval, _, _, now, _)) =>
      if !callable || interval <= 0 || w.s.closed then h
      else h.(asked := h.asked[w.s.nextId := if delay <= 0 then now else now + delay])
    case Request(OpCtxReschedule(id, due)) =>
      if Apply(w.s, OpCtxReschedule(id, due)).1 == Flag(true) then h.(wanted := h.wanted[id := due]) else h
    case Finish(now, _) => if w.s.running == [] then h else AfterRun(w.s, w.s.running[0], now, h)
    case Throw => if w.s.running == [] then h else h.(wanted := h.wanted - {w.s.running[0].id})
    case _ => h
  }

  function AfterRun(s: Sched, e: Entry, now: Time, h: Watch): Watch {
    var rest := h.wanted - {e.id};
    if !HasState(s, e.id, Executing) || s.closed then h.(wanted := rest)
    else if e.id in h.wanted then Watch(h.asked[e.id := h.wanted[e.id]], rest)
    else if e.periodic && e.schedule == FixedRate && e.id in h.asked then
      Watch(h.asked[e.id := h.asked[e.id] + e.interval], rest)
    else if e.periodic then Watch(h.asked[e.id := now + e.interval], rest)
    else h.(wanted := rest)
  }

  // ---------- the invariant ----------

  /** A waiting entry: in the heap it is due when it was asked to be; elsewhere that time has come. */
  predicate EntryKept(w: World, h: Watch, e: Entry) {
    !Over(w.s, e.id) ==>
      && (e in w.s.delayed ==> e.id in h.asked && h.asked[e.id] == e.due)
      && (Ripe(w.s, e) && e.id in h.asked ==> h.asked[e.id] <= w.now)
      && (e.periodic ==> e.id in h.asked && h.asked[e.id] == e.due == e.planned)
  }

  predicate RequestKept(w: World, h: Watch, id: TaskId) {
    && (id in h.wanted ==> id in w.s.ctl && w.s.running != [] && w.s.running[0].id == id)
    && (HasState(w.s, id, Executing) ==>
          if w.s.ctl[id].rescheduleRequested then id in h.wanted && h.wanted[id] == w.s.ctl[id].rescheduleDue else id !in h.wanted)
    && (id in w.s.ctl && Live(w.s.ctl[id].state) && w.s.ctl[id].state != Executing ==> !w.s.ctl[id].rescheduleRequested)
    && (id in h.asked ==> id in w.s.ctl)
  }

  ghost predicate Kept(w: World, h: Watch) {
    (forall e :: Held(w.s, e) ==> EntryKept(w, h, e)) && (forall id :: RequestKept(w, h, id))
  }

  // ---------- entries ----------

  /** A step that only moves entries. */
  lemma QuietKept(w: World, w': World, h: Watch, h': Watch, now: Time, e: Entry)
    requires Kept(w, h) && NothingNew(w.s, w'.s, now, e) && Held(w'.s, e) && h'.asked == h.asked
    requires w.now <= w'.now && now <= w'.now && (Over(w.s, e.id) ==> Over(w'.s, e.id))
    ensures EntryKept(w', h', e)
  {
    assert Held(w.s, e) && EntryKept(w, h, e);
  }

  lemma EnterKept(w: World, a: Action, w': World, h: Watch)
    requires WorldInv(w) && Kept(w, h) && Step(w, a, w') && a.Enter?
    ensures forall e :: Held(w'.s, e) ==> EntryKept(w', h, e)
  {
    forall e | Held(w'.s, e)
      ensures EntryKept(w', h, e)
    {
      EnterFrom(w.s, a.maxTasks, a.now, e);
      HeldFate(w, a, w', e);
      QuietKept(w, w', h, h, a.now, e);
    }
  }

  lemma GiveBackKept(w: World, a: Action, w': World, h: Watch)
    requires WorldInv(w) && Kept(w, h) && Step(w, a, w') && a.GiveBack?
    ensures forall e :: Held(w'.s, e) ==> EntryKept(w', h, e)
  {
    forall e | Held(w'.s, e)
      ensures EntryKept(w', h, e)
    {
      RestoreFrom(w.s, w.now, e);
      HeldFate(w, a, w', e);
      QuietKept(w, w', h, h, w.now, e);
    }
  }

  lemma CasKept(w: World, a: Action, w': World, h: Watch)
    requires WorldInv(w) && Kept(w, h) && Step(w, a, w') && a.Cas?
    ensures forall e :: Held(w'.s, e) ==> EntryKept(w', h, e)
  {
    forall e | Held(w'.s, e)
      ensures EntryKept(w', h, e)
    {
      assert Held(w.s, e) && EntryKept(w, h, e);
      HeldHome(w.s, e);
      BatchIds(w.s, e);
    }
  }

  lemma RestKept(w: World, a: Action, w': World, h: Watch, e: Entry)
    requires WorldInv(w) && Kept(w, h) && Step(w, a, w') && Held(w'.s, e)
    requires !a.Enter? && !a.Cas? && !a.Finish? && !a.GiveBack? && !a.Throw?
    requires a.Request? ==> !Posts(a.op)
    ensures EntryKept(w', Watching(w, a, h), e)
  {
    RestFrom(w, a, w', e);
    HeldFate(w, a, w', e);
    QuietKept(w, w', h, Watching(w, a, h), w.now, e);
  }

  lemma ThrowKept(w: World, a: Action, w': World, h: Watch, e: Entry)
    requires WorldInv(w) && Kept(w, h) && Step(w, a, w') && Held(w'.s, e) && a.Throw?
    ensures EntryKept(w', Watching(w, a, h), e)
  {
    FailFrom(w.s, e);
    assert EntryKept(w, h, e);
    HeldFate(w, a, w', e);
    WaitingHome(w.s, e);
  }

  // ---------- finishing ----------

  lemma NextKept(w: World, a: Action, w': World, h: Watch, e: Entry)
    requires WorldInv(w) && Kept(w, h) && Step(w, a, w') && a.Finish? && Requeued(w.s, w'.s, a.now, a.lockedNow, e)
    ensures EntryKept(w', Watching(w, a, h), e)
  {
    var x := w.s.running[0];
    assert x in w.s.running && Held(w.s, x) && EntryKept(w, h, x) && RequestKept(w, h, x.id);
  }

  lemma OthersKept(w: World, a: Action, w': World, h: Watch, e: Entry)
    requires WorldInv(w) && Kept(w, h) && Step(w, a, w') && a.Finish? && Waiting(w.s, e)
    requires e !in w'.s.running && (Ripe(w'.s, e) ==> Ripe(w.s, e))
    requires e in w'.s.delayed ==> e in w.s.delayed || e.id == w.s.running[0].id
    requires Over(w.s, e.id) ==> Over(w'.s, e.id)
    ensures EntryKept(w', Watching(w, a, h), e)
  {
    assert Held(w.s, e) && EntryKept(w, h, e);
    WaitingHome(w.s, e);
    assert EntryOk(w.s.running[0], w.s.ctl, w.s.nextSeq, Executing);
    AskedElsewhere(w.s, w.s.running[0], a.now, h, e.id);
  }

  lemma AskedElsewhere(s: Sched, x: Entry, now: Time, h: Watch, id: TaskId)
    requires id != x.id || !HasState(s, id, Executing)
    ensures var g := AfterRun(s, x, now, h); (id in g.asked <==> id in h.asked) && (id in h.asked ==> g.asked[id] == h.asked[id])
  {
  }

  lemma FinishDelayed(s: Sched, now: Time, lockedNow: Time, e: Entry)
    requires s.running != []
    ensures var t := FinishSuccess(s, now, lockedNow); e in t.delayed ==> e in s.delayed || e.id == s.running[0].id
  {
    var x := s.running[0];
    if HasState(s, x.id, Executing) && !s.closed {
      if s.ctl[x.id].rescheduleRequested {
        PutFrom(s.(running := []), TaskSteps.Again(s, s.ctl[x.id].rescheduleDue), s.ctl[x.id].rescheduleDue <= lockedNow, e);
      } else if x.periodic {
        PutFrom(s.(running := []), TaskSteps.Again(s, NextPeriodicDue(x, now)), NextPeriodicDue(x, now) <= lockedNow, e);
      }
    }
  }

  lemma FinishKept(w: World, a: Action, w': World, h: Watch)
    requires WorldInv(w) && Kept(w, h) && Step(w, a, w') && a.Finish?
    ensures forall e :: Held(w'.s, e) ==> EntryKept(w', Watching(w, a, h), e)
  {
    forall e | Held(w'.s, e)
      ensures EntryKept(w', Watching(w, a, h), e)
    {
      FinishFrom(w.s, a.now, a.lockedNow, e);
      FinishDelayed(w.s, a.now, a.lockedNow, e);
      if Requeued(w.s, w'.s, a.now, a.lockedNow, e) {
        NextKept(w, a, w', h, e);
      } else {
        HeldFate(w, a, w', e);
        OthersKept(w, a, w', h, e);
      }
    }
  }

  // ---------- submissions ----------

  lemma PostsKept(w: World, a: Action, w': World, h: Watch, e: Entry)
    requires WorldInv(w) && Kept(w, h) && Step(w, a, w') && a.Request? && Posts(a.op) && Held(w'.s, e)
    ensures EntryKept(w', Watching(w, a, h), e)
  {
    PostShape(w.s, a.op);
    assert TaskOk(w.s, w.s.nextId) && RequestKept(w, h, w.s.nextId);
    if !Accepts(w.s, a.op) {
      assert EntryKept(w, h, e);
    } else {
      var (x, ready) := PostedEntry(w.s, a.op);
      PutFrom(w.s, x, ready, e);
      if Held(w.s, e) {
        assert EntryKept(w, h, e);
        HeldHome(w.s, e);
      }
      AdmittedKept(w, a, w', h, e, x, ready);
    }
  }

  lemma AdmittedKept(w: World, a: Action, w': World, h: Watch, e: Entry, x: Entry, ready: bool)
    requires a.Request? && Posts(a.op) && Accepts(w.s, a.op) && PostedEntry(w.s, a.op) == (x, ready)
    requires x.id == w.s.nextId && x.seqNo == w.s.nextSeq && w'.s == Admit(w.s, x, ready)
    requires w.s.nextId !in w.s.ctl && w.s.nextId !in h.asked
    requires w.now <= w'.now && w'.now == Clock(w.now, a.op) && ClockOk(w.now, a.op)
    requires (Ripe(w'.s, e) ==> Ripe(w.s, e) || (ready && e == x)) && (e in w'.s.delayed ==> e in w.s.delayed || (!ready && e == x))
    requires Held(w.s, e) ==> EntryKept(w, h, e) && e.id in w.s.ctl
    requires Held(w'.s, e) && x.id !in Ids(w.s.running)
    ensures EntryKept(w', Watching(w, a, h), e)
  {
    if x in w.s.running {
      HeldId(w.s.running, x);
    }
  }

  // ---------- requests ----------

  /** Nothing happens to the reschedule request of a task. */
  ghost predicate FlagStays(s: Sched, t: Sched, id: TaskId) {
    id in s.ctl ==>
      id in t.ctl && t.ctl[id].rescheduleRequested == s.ctl[id].rescheduleRequested && t.ctl[id].rescheduleDue == s.ctl[id].rescheduleDue
  }

  lemma PruneFlag(s: Sched, id: TaskId)
    ensures FlagStays(s, Prune(s), id)
  {
    PruneFrame(s);
  }

  lemma {:induction false} PromoteLoopFlag(s: Sched, now: Time, id: TaskId)
    ensures FlagStays(s, PromoteLoop(s, now), id)
    decreases |s.delayed|
  {
    if s.delayed == [] || s.delayed[0].due > now {
    } else {
      PruneShrinks(PromoteFront(s));
      PruneFlag(PromoteFront(s), id);
      PromoteLoopFlag(Prune(PromoteFront(s)), now, id);
    }
  }

  lemma {:induction false} TakeFromFlag(s: Sched, p: nat, maxTasks: nat, id: TaskId)
    requires p < 3
    ensures FlagStays(s, TakeFrom(s, p, maxTasks), id)
    decreases |s.ready[p]|
  {
    if s.ready[p] == [] || |s.batch| >= maxTasks {
    } else {
      TakeFromFlag(TakeFront(s, p), p, maxTasks, id);
    }
  }

  lemma EnterFlag(s: Sched, now: Time, maxTasks: nat, id: TaskId)
    ensures FlagStays(s, Take(Promote(s, now), maxTasks), id)
  {
    var u := Promote(s, now);
    PruneFlag(s, id);
    PromoteLoopFlag(Prune(s), now, id);
    TakeFromFlag(u, 0, maxTasks, id);
    TakeFromFlag(TakeFrom(u, 0, maxTasks), 1, maxTasks, id);
    TakeFromFlag(TakeFrom(TakeFrom(u, 0, maxTasks), 1, maxTasks), 2, maxTasks, id);
  }

  lemma {:induction false} RestoreFlag(s: Sched, id: TaskId)
    ensures FlagStays(s, Restore(s), id)
    decreases |s.batch|
  {
    if s.batch == [] {
    } else {
      RestoreFlag(RestoreBack(s), id);
    }
  }

  lemma {:induction false} ClearReadyFlag(s: Sched, p: nat, id: TaskId)
    requires p < 3
    ensures FlagStays(s, ClearReady(s, p), id)
    decreases |s.ready[p]|
  {
    if s.ready[p] == [] {
    } else {
      ClearReadyFlag(DropReady(s, p), p, id);
    }
  }

  lemma {:induction false} ClearDelayedFlag(s: Sched, id: TaskId)
    ensures FlagStays(s, ClearDelayed(s), id)
    decreases |s.delayed|
  {
    if s.delayed == [] {
    } else {
      ClearDelayedFlag(DropDelayed(s), id);
    }
  }

  lemma ClearFlag(s: Sched, id: TaskId)
    ensures FlagStays(s, ClearPending(s), id)
  {
    var s1 := ClearReady(s, 0);
    var s2 := ClearReady(s1, 1);
    ClearReadyFlag(s, 0, id);
    ClearReadyFlag(s1, 1, id);
    ClearReadyFlag(s2, 2, id);
    ClearDelayedFlag(ClearReady(s2, 2), id);
  }

  /** Only the running task has an entry in the running slot. */
  lemma OnlyRunning(s: Sched, id: TaskId)
    requires QueuesOk(s) && Housed(s) && HasState(s, id, Executing)
    ensures s.running != [] && s.running[0].id == id
  {
    assert TaskOk(s, id);
  }

  lemma MoveRequest(w: World, a: Action, w': World, h: Watch, id: TaskId)
    requires WorldInv(w) && WorldInv(w') && Kept(w, h) && Step(w, a, w') && (a.Enter? || a.GiveBack?)
    ensures RequestKept(w', h, id)
  {
    assert RequestKept(w, h, id);
    if id in w.s.ctl {
      StepFate(w, a, w', id);
      if a.Enter? {
        EnterFlag(w.s, a.now, a.maxTasks, id);
      } else {
        RestoreFlag(w.s, id);
      }
    }
    MoveIdle(w, a, w');
    if HasState(w.s, id, Executing) {
      OnlyRunning(w.s, id);
    }
    if HasState(w'.s, id, Executing) {
      OnlyRunning(w'.s, id);
    }
    assert TaskOk(w.s, id) && TaskOk(w'.s, id);
    if a.Enter? {
      EnterTable(w.s, a.now, a.maxTasks, id);
    } else {
      RestoreTable(w.s, id);
    }
  }

  lemma MoveIdle(w: World, a: Action, w': World)
    requires WorldInv(w) && Step(w, a, w') && (a.Enter? || a.GiveBack?)
    ensures w.s.running == [] && w'.s.running == []
  {
    if a.Enter? {
      TaskProcess.PromoteFrame(w.s, a.now);
      TaskProcess.TakeFrame(Promote(w.s, a.now), a.maxTasks);
    } else {
      TaskProcess.RestoreFrame(w.s);
    }
  }

  lemma EnterTable(s: Sched, now: Time, maxTasks: nat, id: TaskId)
    ensures id in Take(Promote(s, now), maxTasks).ctl ==> id in s.ctl
  {
    EnterKeys(s, now, maxTasks);
  }

  lemma RestoreTable(s: Sched, id: TaskId)
    ensures id in Restore(s).ctl ==> id in s.ctl
  {
    RestoreKeys(s);
  }

  lemma CasRequest(w: World, a: Action, w': World, h: Watch, id: TaskId)
    requires WorldInv(w) && Kept(w, h) && Step(w, a, w') && a.Cas?
    ensures RequestKept(w', h, id)
  {
    assert RequestKept(w, h, id);
    if HasState(w.s, id, Executing) {
      OnlyRunning(w.s, id);
    }
  }

  lemma FinishRequest(w: World, a: Action, w': World, h: Watch, id: TaskId)
    requires WorldInv(w) && Kept(w, h) && Step(w, a, w') && (a.Finish? || a.Throw?)
    ensures RequestKept(w', Watching(w, a, h), id)
  {
    assert RequestKept(w, h, id);
    var x := w.s.running[0];
    assert EntryOk(x, w.s.ctl, w.s.nextSeq, Executing);
    if id != x.id {
      if HasState(w.s, id, Executing) {
        OnlyRunning(w.s, id);
      }
      FinishElsewhere(w.s, if a.Finish? then a.now else 0, if a.Finish? then a.lockedNow else 0, id);
    } else {
      FinishedRequest(w.s, if a.Finish? then a.now else 0, if a.Finish? then a.lockedNow else 0);
    }
  }

  lemma FinishElsewhere(s: Sched, now: Time, lockedNow: Time, id: TaskId)
    requires s.running != [] && id != s.running[0].id
    ensures var (t, u) := (FinishSuccess(s, now, lockedNow), FinishException(s));
      (id in t.ctl <==> id in s.ctl) && (id in s.ctl ==> t.ctl[id] == s.ctl[id])
      && (id in u.ctl <==> id in s.ctl) && (id in s.ctl ==> u.ctl[id] == s.ctl[id])
  {
  }

  lemma FinishedRequest(s: Sched, now: Time, lockedNow: Time)
    requires s.running != [] && s.running[0].id in s.ctl
    requires HasState(s, s.running[0].id, Executing) || HasState(s, s.running[0].id, Cancelled)
    ensures var (t, u, id) := (FinishSuccess(s, now, lockedNow), FinishException(s), s.running[0].id);
      && id in t.ctl && id in u.ctl && t.ctl[id].state != Executing && u.ctl[id].state != Executing
      && !t.ctl[id].rescheduleRequested && !u.ctl[id].rescheduleRequested
  {
  }

  lemma CallRequest(w: World, op: Op, w': World, h: Watch, id: TaskId)
    requires WorldInv(w) && Kept(w, h) && Step(w, Request(op), w')
    ensures RequestKept(w', Watching(w, Request(op), h), id)
  {
    assert RequestKept(w, h, id) && TaskOk(w.s, id) && TaskOk(w.s, w.s.nextId) && RequestKept(w, h, w.s.nextId);
    TaskProcess.ApplyFrame(w.s, op);
    if op.OpClearPending? {
      ClearFlag(w.s, id);
      ClearKeys(w.s);
      if id in w.s.ctl {
        TaskFate.ApplyFate(w.s, op, id);
      }
    } else if op.OpNextDeadline? {
      PruneFrame(w.s);
    } else if op.OpCtxReschedule? && HasState(w.s, op.id, Executing) {
      OnlyRunning(w.s, op.id);
    }
  }

  lemma OtherRequest(w: World, a: Action, w': World, h: Watch, id: TaskId)
    requires WorldInv(w) && Kept(w, h) && Step(w, a, w')
    requires a.Decrease? || a.Handled? || a.Leaving? || a.Load? || a.TryCancel?
    ensures RequestKept(w', h, id)
  {
    assert RequestKept(w, h, id);
    if a.TryCancel? {
      CancelFrame(w.s, w.mutex.id, w.mutex.observed);
    }
  }

  // ---------- every step ----------

  lemma KeptEntries(w: World, a: Action, w': World, h: Watch)
    requires WorldInv(w) && Kept(w, h) && Step(w, a, w')
    ensures forall e :: Held(w'.s, e) ==> EntryKept(w', Watching(w, a, h), e)
  {
    if a.Enter? {
      EnterKept(w, a, w', h);
    } else if a.GiveBack? {
      GiveBackKept(w, a, w', h);
    } else if a.Cas? {
      CasKept(w, a, w', h);
    } else if a.Finish? {
      FinishKept(w, a, w', h);
    } else {
      forall e | Held(w'.s, e)
        ensures EntryKept(w', Watching(w, a, h), e)
      {
        if a.Request? && Posts(a.op) {
          PostsKept(w, a, w', h, e);
        } else if a.Throw? {
          ThrowKept(w, a, w', h, e);
        } else {
          RestKept(w, a, w', h, e);
        }
      }
    }
  }

  lemma KeptRequest(w: World, a: Action, w': World, h: Watch, id: TaskId)
    requires WorldInv(w) && WorldInv(w') && Kept(w, h) && Step(w, a, w')
    ensures RequestKept(w', Watching(w, a, h), id)
  {
    if a.Enter? || a.GiveBack? {
      MoveRequest(w, a, w', h, id);
    } else if a.Cas? {
      CasRequest(w, a, w', h, id);
    } else if a.Finish? || a.Throw? {
      FinishRequest(w, a, w', h, id);
    } else if a.Request? {
      CallRequest(w, a.op, w', h, id);
    } else {
      OtherRequest(w, a, w', h, id);
    }
  }

  /** Every step of every thread keeps every task to what was asked. */
  lemma StepKept(w: World, a: Action, w': World, h: Watch)
    requires WorldInv(w) && Kept(w, h) && Step(w, a, w')
    ensures Kept(w', Watching(w, a, h))
  {
    StepKeeps(w, a, w');
    KeptEntries(w, a, w', h);
    forall id: TaskId
      ensures RequestKept(w', Watching(w, a, h), id)
    {
      KeptRequest(w, a, w', h, id);
    }
  }

  // ---------- runs ----------

  /** A run with its observer. */
  ghost predicate IsWatched(ws: seq<World>, acts: seq<Action>, hs: seq<Watch>) {
    && IsRun(ws, acts) && |hs| == |ws| && Kept(ws[0], hs[0])
    && forall i :: 0 <= i < |acts| ==> hs[i + 1] == Watching(ws[i], acts[i], hs[i])
  }

  lemma StartKept()
    ensures Kept(START, Watch(map[], map[]))
  {
  }

  lemma {:induction false} RunKept(ws: seq<World>, acts: seq<Action>, hs: seq<Watch>, i: nat)
    requires IsWatched(ws, acts, hs) && i < |ws|
    ensures WorldInv(ws[i]) && Kept(ws[i], hs[i])
  {
    RunInv(ws, acts, i);
    if i == 0 {
    } else {
      RunKept(ws, acts, hs, i - 1);
      assert hs[i - 1 + 1] == Watching(ws[i - 1], acts[i - 1], hs[i - 1]);
      RunStep(ws, acts, i - 1);
      StepKept(ws[i - 1], acts[i - 1], ws[i], hs[i - 1]);
    }
  }

  /** No task starts before the time that was asked for it: the `due` of post_at, the first deadline and
      each next cycle of a periodic task, or the time of the last reschedule that took effect. */
  lemma StartsInTime(ws: seq<World>, acts: seq<Action>, hs: seq<Watch>, i: nat, id: TaskId)
    requires IsWatched(ws, acts, hs) && i < |acts| && StartsAt(ws[i], acts[i], id) && id in hs[i].asked
    ensures hs[i].asked[id] <= ws[i].now
  {
    RunKept(ws, acts, hs, i);
    var e := ws[i].s.batch[0];
    assert e in ws[i].s.batch && Held(ws[i].s, e) && EntryKept(ws[i], hs[i], e);
  }

  // ---------- the tasks in the heap ----------

  lemma {:induction false} WithId(q: seq<Entry>, id: TaskId) returns (e: Entry)
    requires id in Ids(q)
    ensures e in q && e.id == id
  {
    if q[0].id == id {
      e := q[0];
    } else {
      e := WithId(q[1..], id);
    }
  }

  lemma {:induction false} LeastOf(q: seq<Entry>, due: Time, e: Entry)
    requires TaskLive.AllAfter(q, due) && e in q
    ensures due <= e.due
  {
    if e == q[0] {
    } else {
      LeastOf(q[1..], due, e);
    }
  }

  predicate Delayed(s: Sched, id: TaskId) {
    HasState(s, id, QueuedDelayed)
  }

  /** A task that waits in the heap is there under the time asked for it. */
  lemma DelayedEntry(w: World, h: Watch, id: TaskId) returns (e: Entry)
    requires WorldInv(w) && Kept(w, h) && Delayed(w.s, id)
    ensures e in TaskLive.LiveDelayed(w.s) && e.id == id && id in h.asked && e.due == h.asked[id]
  {
    assert TaskOk(w.s, id);
    e := WithId(w.s.delayed, id);
    TaskLive.LiveIn(w.s.delayed, w.s.ctl, QueuedDelayed, e);
    assert Held(w.s, e) && EntryKept(w, h, e);
  }

  /** At every moment of every run next_deadline() answers the least time asked for among the tasks that
      wait for one, and nothing exactly if none waits. */
  lemma NextDeadlineIsLeastAsked(ws: seq<World>, acts: seq<Action>, hs: seq<Watch>, i: nat)
    requires IsWatched(ws, acts, hs) && i < |ws|
    ensures forall id :: Delayed(ws[i].s, id) ==> id in hs[i].asked
    ensures match NextDeadline(ws[i].s).1
      case None => forall id :: !Delayed(ws[i].s, id)
      case Some(due) =>
        && (forall id :: Delayed(ws[i].s, id) ==> due <= hs[i].asked[id])
        && (exists id :: Delayed(ws[i].s, id) && hs[i].asked[id] == due)
  {
    RunKept(ws, acts, hs, i);
    var (w, h) := (ws[i], hs[i]);
    TaskLive.NextDeadlineIsLeast(w.s, Owed(w));
    var due := NextDeadline(w.s).1;
    var q := TaskLive.LiveDelayed(w.s);
    forall id | Delayed(w.s, id)
      ensures id in h.asked && due.Some? && due.value <= h.asked[id]
    {
      var e := DelayedEntry(w, h, id);
      LeastOf(q, due.value, e);
    }
    if due.Some? {
      var e := q[0];
      TaskLive.LiveIn(w.s.delayed, w.s.ctl, QueuedDelayed, e);
      assert Held(w.s, e) && EntryKept(w, h, e) && Delayed(w.s, e.id);
    }
  }

  lemma {:induction false} NotDueLater(q: seq<Entry>, now: Time, e: Entry)
    requires e in TaskLive.NotDue(q, now)
    ensures now < e.due
  {
    if q != [] && e in TaskLive.NotDue(q[1..], now) {
      NotDueLater(q[1..], now, e);
    }
  }

  lemma {:induction false} TakeFromDelayed(s: Sched, p: nat, maxTasks: nat)
    requires p < 3
    ensures TakeFrom(s, p, maxTasks).delayed == s.delayed
    decreases |s.ready[p]|
  {
    if s.ready[p] == [] || |s.batch| >= maxTasks {
    } else {
      TakeFromDelayed(TakeFront(s, p), p, maxTasks);
    }
  }

  lemma TakeDelayed(u: Sched, maxTasks: nat)
    ensures Take(u, maxTasks).delayed == u.delayed
  {
    TakeFromDelayed(u, 0, maxTasks);
    TakeFromDelayed(TakeFrom(u, 0, maxTasks), 1, maxTasks);
    TakeFromDelayed(TakeFrom(TakeFrom(u, 0, maxTasks), 1, maxTasks), 2, maxTasks);
  }

  /** A call of process() leaves nobody waiting whose time has come. */
  lemma NoneLeftWaiting(ws: seq<World>, acts: seq<Action>, hs: seq<Watch>, i: nat, id: TaskId)
    requires IsWatched(ws, acts, hs) && i < |acts| && acts[i].Enter? && Delayed(ws[i + 1].s, id)
    ensures id in hs[i + 1].asked && acts[i].now < hs[i + 1].asked[id]
  {
    RunKept(ws, acts, hs, i);
    RunKept(ws, acts, hs, i + 1);
    RunStep(ws, acts, i);
    var (w, a) := (ws[i], acts[i]);
    var u := Promote(w.s, a.now);
    TaskLive.PromoteResult(w.s, a.now, Owed(w));
    TakeDelayed(u, a.maxTasks);
    var e := DelayedEntry(ws[i + 1], hs[i + 1], id);
    TaskLive.LiveIn(ws[i + 1].s.delayed, ws[i + 1].s.ctl, QueuedDelayed, e);
    TaskSteps.KeepsPromote(w.s, a.now, 0);
    assert TaskOk(w.s, id);
    StillDelayed(u, a.maxTasks, w.s, a.now, id);
    TaskLive.LiveIn(u.delayed, u.ctl, QueuedDelayed, e);
    NotDueLater(TaskLive.LiveDelayed(w.s), a.now, e);
  }

  /** Taking the snapshot delays nobody. */
  lemma StillDelayed(u: Sched, maxTasks: nat, s: Sched, now: Time, id: TaskId)
    requires Delayed(Take(u, maxTasks), id) && u == Promote(s, now)
    ensures Delayed(u, id)
  {
    EnterTable(s, now, maxTasks, id);
    TaskFate.PromoteFate(s, now, id);
    TaskFate.TakeFate(u, maxTasks, id);
  }

  // ---------- how a run of a task ends ----------

  /** The task ends here: it is over and out of the index. */
  predicate Ends(w': World, id: TaskId, st: State) {
    HasState(w'.s, id, st) && id !in w'.s.index && w'.s.running == []
  }

  /** The task goes on: it waits for `due`, in a deque exactly if that time has come. */
  predicate GoesOn(w': World, id: TaskId, due: Time, now: Time) {
    && id in w'.s.index && w'.s.running == []
    && (due <= now ==> HasState(w'.s, id, QueuedReady))
    && (due > now ==> HasState(w'.s, id, QueuedDelayed))
  }

  /** What becomes of a task whose callback returns, in this order: a cancelled task ends cancelled; in a
      closed manager it completes; one that asked for another run gets it at the time it asked for last;
      a periodic one gets its next cycle, a fixed-rate one at one interval after the cycle it was planned
      for, a fixed-delay one at one interval after its end; any other completes. */
  lemma ReturnDecides(ws: seq<World>, acts: seq<Action>, hs: seq<Watch>, i: nat)
    requires IsWatched(ws, acts, hs) && i < |acts| && acts[i].Finish?
    ensures ws[i].s.running != []
    ensures var (w, h, w', g, x) := (ws[i], hs[i], ws[i + 1], hs[i + 1], ws[i].s.running[0]);
      if HasState(w.s, x.id, Cancelled) then Ends(w', x.id, Cancelled)
      else if w.s.closed then Ends(w', x.id, Completed)
      else if x.id in h.wanted then
        GoesOn(w', x.id, h.wanted[x.id], acts[i].lockedNow) && x.id in g.asked && g.asked[x.id] == h.wanted[x.id]
      else if x.periodic then
        && x.id in h.asked && x.id in g.asked && GoesOn(w', x.id, g.asked[x.id], acts[i].lockedNow)
        && g.asked[x.id] == (if x.schedule == FixedRate then h.asked[x.id] else acts[i].now) + x.interval
      else Ends(w', x.id, Completed)
  {
    RunKept(ws, acts, hs, i);
    RunStep(ws, acts, i);
    var x := ws[i].s.running[0];
    assert hs[i + 1] == Watching(ws[i], acts[i], hs[i]);
    FinishingEntry(ws[i], hs[i]);
    FinishEnds(ws[i].s, acts[i].now, acts[i].lockedNow);
    FinishGoesOn(ws[i].s, acts[i].now, acts[i].lockedNow);
  }

  lemma FinishingEntry(w: World, h: Watch)
    requires WorldInv(w) && Kept(w, h) && w.s.running != []
    ensures var x := w.s.running[0];
      && (HasState(w.s, x.id, Cancelled) || HasState(w.s, x.id, Executing)) && x.id in w.s.index
      && (HasState(w.s, x.id, Executing) ==> w.s.ctl[x.id].rescheduleRequested == (x.id in h.wanted))
      && (HasState(w.s, x.id, Executing) && x.id in h.wanted ==> h.wanted[x.id] == w.s.ctl[x.id].rescheduleDue)
      && (x.periodic && HasState(w.s, x.id, Executing) ==> x.id in h.asked && h.asked[x.id] == x.planned)
  {
    var x := w.s.running[0];
    assert x in w.s.running && Held(w.s, x) && EntryKept(w, h, x) && RequestKept(w, h, x.id);
    assert EntryOk(x, w.s.ctl, w.s.nextSeq, Executing) && TaskOk(w.s, x.id);
  }

  lemma FinishEnds(s: Sched, now: Time, lockedNow: Time)
    requires s.running != [] && s.running[0].id in s.ctl
    ensures var (x, t) := (s.running[0], FinishSuccess(s, now, lockedNow));
      && (HasState(s, x.id, Cancelled) ==> HasState(t, x.id, Cancelled) && x.id !in t.index && t.running == [])
      && (HasState(s, x.id, Executing) && (s.closed || (!s.ctl[x.id].rescheduleRequested && !x.periodic)) ==>
            HasState(t, x.id, Completed) && x.id !in t.index && t.running == [])
  {
  }

  lemma FinishGoesOn(s: Sched, now: Time, lockedNow: Time)
    requires s.running != [] && s.running[0].id in s.ctl
    ensures var (x, t) := (s.running[0], FinishSuccess(s, now, lockedNow));
      HasState(s, x.id, Executing) && !s.closed && (s.ctl[x.id].rescheduleRequested || x.periodic) ==>
        var due := if s.ctl[x.id].rescheduleRequested then s.ctl[x.id].rescheduleDue
          else (if x.schedule == FixedRate then x.planned else now) + x.interval;
        HasState(t, x.id, if due <= lockedNow then QueuedReady else QueuedDelayed) && t.index == s.index && t.running == []
  {
  }

  /** A task whose callback raises is over, cancelled if it was and completed otherwise, whatever it had
      asked for. */
  lemma RaiseEnds(ws: seq<World>, acts: seq<Action>, i: nat)
    requires IsRun(ws, acts) && i < |acts| && acts[i].Throw?
    ensures ws[i].s.running != []
    ensures var id := ws[i].s.running[0].id;
      Ends(ws[i + 1], id, if HasState(ws[i].s, id, Cancelled) then Cancelled else Completed)
  {
    RunStep(ws, acts, i);
    assert EntryOk(ws[i].s.running[0], ws[i].s.ctl, ws[i].s.nextSeq, Executing);
  }
}
