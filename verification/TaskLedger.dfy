/** Whole runs of the interleaved scheduler: what happens to each accepted task id, and how many
    callbacks can still start once the manager is closed. */
module TaskLedger {
  import opened TaskTypes
  import opened TaskOps
  import opened TaskInvariant
  import TaskSteps
  import opened TaskFate
  import opened TaskProcess
  import opened TaskWorld

  // ---------- one step, one task ----------

  predicate StartsAt(w: World, a: Action, id: TaskId) {
    a.Cas? && w.s.batch != [] && w.s.batch[0].id == id && Start(w.s).1
  }

  /** The call cancel(id), or context.cancel() in the callback of `id`, answers true in this step. */
  predicate CancelsAt(w: World, a: Action, id: TaskId) {
    || (a.TryCancel? && w.mutex.Loaded? && w.mutex.id == id && id in w.s.ctl && CancelCas(w.s, id, w.mutex.observed).1)
    || (a == Request(OpCtxCancel(id)) && CtxCancel(w.s, id).1)
  }

  predicate Over(s: Sched, id: TaskId) {
    id in s.ctl && !Live(s.ctl[id].state)
  }

  /** How the consumer's steps can change one task's state. */
  lemma ConsumerFate(w: World, a: Action, w': World, id: TaskId)
    requires WorldInv(w) && Step(w, a, w') && id in w.s.ctl
    requires a.Enter? || a.Cas? || a.Decrease? || a.Finish? || a.Throw? || a.GiveBack?
    ensures id in w'.s.ctl
    ensures Over(w.s, id) ==> Same(w.s, w'.s, id)
    ensures Waits(w'.s, id) && w.s.closed ==> Waits(w.s, id) && !StartsAt(w, a, id)
  {
    match a
    case Enter(n, now) =>
      PromoteFate(w.s, now, id);
      TakeFate(Promote(w.s, now), n, id);
    case Cas =>
    case Decrease =>
    case Finish(t, u) => FinishFate(w.s, t, u, id);
    case Throw => FinishFate(w.s, 0, 0, id);
    case GiveBack => RestoreFate(w.s, id);
  }

  /** A task that has been accepted and has not been started since it was last queued. */
  predicate Waits(s: Sched, id: TaskId) {
    id in s.ctl && (s.ctl[id].state == QueuedReady || s.ctl[id].state == QueuedDelayed || s.ctl[id].state == ReadySnapshot)
  }

  lemma OtherFate(w: World, a: Action, w': World, id: TaskId)
    requires WorldInv(w) && Step(w, a, w') && id in w.s.ctl
    requires a.Handled? || a.Leaving? || a.Request? || a.Load? || a.TryCancel?
    ensures id in w'.s.ctl
    ensures Over(w.s, id) ==> Same(w.s, w'.s, id)
    ensures Waits(w'.s, id) ==> Waits(w.s, id) && !StartsAt(w, a, id)
  {
    if a.Request? {
      assert TaskOk(w.s, id);
      ApplyWaits(w.s, a.op, id);
    } else if a.TryCancel? {
      CancelWaits(w.s, w.mutex.id, w.mutex.observed, id);
    }
  }

  lemma ApplyWaits(s: Sched, op: Op, id: TaskId)
    requires id in s.ctl && id != s.nextId
    ensures var t := Apply(s, op).0; id in t.ctl && (Over(s, id) ==> Same(s, t, id)) && (Waits(t, id) ==> Waits(s, id))
  {
    ApplyFate(s, op, id);
  }

  lemma CancelWaits(s: Sched, cancelled: TaskId, observed: State, id: TaskId)
    requires id in s.ctl && cancelled in s.ctl
    ensures var t := CancelCas(s, cancelled, observed).0;
      id in t.ctl && (Over(s, id) ==> Same(s, t, id)) && (Waits(t, id) ==> Waits(s, id))
  {
  }

  /** A task that is over stays in its final state; the table only grows. */
  lemma StepFate(w: World, a: Action, w': World, id: TaskId)
    requires WorldInv(w) && Step(w, a, w') && id in w.s.ctl
    ensures id in w'.s.ctl
    ensures Over(w.s, id) ==> Same(w.s, w'.s, id)
    ensures Waits(w'.s, id) && w.s.closed ==> Waits(w.s, id) && !StartsAt(w, a, id)
  {
    if a.Handled? || a.Leaving? || a.Request? || a.Load? || a.TryCancel? {
      OtherFate(w, a, w', id);
    } else {
      ConsumerFate(w, a, w', id);
    }
  }

  /** Only a started task comes into the running slot. */
  lemma RunningStep(w: World, a: Action, w': World, id: TaskId)
    requires WorldInv(w) && Step(w, a, w') && id in Ids(w'.s.running)
    ensures id in Ids(w.s.running) || (StartsAt(w, a, id) && HasState(w.s, id, ReadySnapshot))
  {
    match a
    case Enter(n, now) =>
      PromoteFrame(w.s, now);
      TakeFrame(Promote(w.s, now), n);
    case Finish(t, u) => TaskSteps.KeepsFinishSuccess(w.s, t, u);
    case Throw => TaskSteps.KeepsFinishException(w.s);
    case GiveBack => RestoreFrame(w.s);
    case Request(op) => ApplyFrame(w.s, op);
    case TryCancel => CancelFrame(w.s, w.mutex.id, w.mutex.observed);
    case _ =>
  }

  /** An id that has left the index does not come back. */
  lemma IndexStep(w: World, a: Action, w': World, id: TaskId)
    requires WorldInv(w) && Step(w, a, w') && id in w.s.ctl && id !in w.s.index
    ensures id in w'.s.ctl && id !in w'.s.index
  {
    StepKeeps(w, a, w');
    assert TaskOk(w.s, id) && TaskOk(w'.s, id);
    StepFate(w, a, w', id);
    if id in Ids(w'.s.running) {
      RunningStep(w, a, w', id);
    }
  }

  // ---------- whole runs ----------

  lemma RunStep(ws: seq<World>, acts: seq<Action>, i: nat)
    requires IsRun(ws, acts) && i < |acts|
    ensures WorldInv(ws[i]) && WorldInv(ws[i + 1]) && Step(ws[i], acts[i], ws[i + 1])
  {
    RunInv(ws, acts, i);
    RunInv(ws, acts, i + 1);
    assert StepAt(ws, acts, i);
  }

  /** What the next step of a run cannot undo. */
  lemma RunFate(ws: seq<World>, acts: seq<Action>, i: nat, id: TaskId)
    requires IsRun(ws, acts) && i < |acts| && id in ws[i].s.ctl
    ensures id in ws[i + 1].s.ctl && (Over(ws[i].s, id) ==> ws[i + 1].s.ctl[id].state == ws[i].s.ctl[id].state)
    ensures id !in ws[i].s.index ==> id !in ws[i + 1].s.index
  {
    RunStep(ws, acts, i);
    StepFate(ws[i], acts[i], ws[i + 1], id);
    if id !in ws[i].s.index {
      IndexStep(ws[i], acts[i], ws[i + 1], id);
    }
  }

  lemma {:induction false} OverForever(ws: seq<World>, acts: seq<Action>, i: nat, j: nat, id: TaskId)
    requires IsRun(ws, acts) && i <= j < |ws| && Over(ws[i].s, id)
    ensures Over(ws[j].s, id) && ws[j].s.ctl[id].state == ws[i].s.ctl[id].state
    decreases j
  {
    if i == j {
    } else {
      OverForever(ws, acts, i, j - 1, id);
      RunFate(ws, acts, j - 1, id);
    }
  }

  lemma {:induction false} GoneForever(ws: seq<World>, acts: seq<Action>, i: nat, j: nat, id: TaskId)
    requires IsRun(ws, acts) && i <= j < |ws| && id in ws[i].s.ctl && id !in ws[i].s.index
    ensures id in ws[j].s.ctl && id !in ws[j].s.index
    decreases j
  {
    if i == j {
    } else {
      GoneForever(ws, acts, i, j - 1, id);
      RunFate(ws, acts, j - 1, id);
    }
  }

  lemma CancelIsOver(w: World, a: Action, w': World, id: TaskId)
    requires Step(w, a, w') && CancelsAt(w, a, id)
    ensures Over(w'.s, id) && HasState(w'.s, id, Cancelled) && id in w.s.ctl && Live(w.s.ctl[id].state)
  {
  }

  /** Once a cancellation of a task has answered true, the task never starts again, whatever its
      callback had asked for, and no later cancellation of it answers true. */
  lemma CancelIsFinal(ws: seq<World>, acts: seq<Action>, i: nat, j: nat, id: TaskId)
    requires IsRun(ws, acts) && i < j < |acts| && CancelsAt(ws[i], acts[i], id)
    ensures !StartsAt(ws[j], acts[j], id) && !CancelsAt(ws[j], acts[j], id)
  {
    RunInv(ws, acts, i);
    assert StepAt(ws, acts, i) && StepAt(ws, acts, j);
    CancelIsOver(ws[i], acts[i], ws[i + 1], id);
    OverForever(ws, acts, i + 1, j, id);
    if CancelsAt(ws[j], acts[j], id) {
      CancelIsOver(ws[j], acts[j], ws[j + 1], id);
    }
  }

  // ---------- a visited task starts unless it was cancelled ----------

  lemma SnapshotState(s: Sched, id: TaskId)
    requires QueuesOk(s) && id in Ids(s.batch)
    ensures HasState(s, id, ReadySnapshot) || HasState(s, id, Cancelled)
  {
    Elsewhere(s.batch, s.ctl, s.nextSeq, ReadySnapshot, id);
  }

  lemma {:induction false} TakeFromJoins(s: Sched, p: nat, maxTasks: nat, id: TaskId)
    requires p < 3 && (id in Ids(s.batch) ==> HasState(s, id, ReadySnapshot))
    ensures var t := TakeFrom(s, p, maxTasks); id in Ids(t.batch) ==> HasState(t, id, ReadySnapshot)
    decreases |s.ready[p]|
  {
    if s.ready[p] == [] || |s.batch| >= maxTasks {
    } else {
      IdsConcat(s.batch, [s.ready[p][0]]);
      TakeFromJoins(TakeFront(s, p), p, maxTasks, id);
    }
  }

  /** Only waiting tasks come into the snapshot. */
  lemma EnterJoins(s: Sched, now: Time, maxTasks: nat, id: TaskId)
    requires s.batch == []
    ensures var t := Take(Promote(s, now), maxTasks); id in Ids(t.batch) ==> HasState(t, id, ReadySnapshot)
  {
    var u := Promote(s, now);
    PromoteFrame(s, now);
    TakeFromJoins(u, 0, maxTasks, id);
    TakeFromJoins(TakeFrom(u, 0, maxTasks), 1, maxTasks, id);
    TakeFromJoins(TakeFrom(TakeFrom(u, 0, maxTasks), 1, maxTasks), 2, maxTasks, id);
  }

  /** A cancelled entry of the snapshot was there before, and was cancelled before or in this step. */
  lemma CancelledStep(w: World, a: Action, w': World, id: TaskId)
    requires WorldInv(w) && Step(w, a, w') && id in Ids(w'.s.batch) && HasState(w'.s, id, Cancelled)
    ensures id in Ids(w.s.batch) && (HasState(w.s, id, Cancelled) || CancelsAt(w, a, id))
  {
    match a
    case Enter(n, now) => EnterJoins(w.s, now, n, id);
    case Request(op) => RequestCancels(w, op, w', id);
    case TryCancel =>
      CancelFrame(w.s, w.mutex.id, w.mutex.observed);
      SnapshotState(w.s, id);
    case GiveBack => RestoreFrame(w.s);
    case Finish(t, u) =>
      FinishBatch(w.s, t, u);
      SnapshotState(w.s, id);
      FinishCancels(w.s, t, u, id);
    case Throw =>
      FinishBatch(w.s, 0, 0);
      SnapshotState(w.s, id);
      FinishCancels(w.s, 0, 0, id);
    case _ =>
  }

  lemma FinishBatch(s: Sched, now: Time, lockedNow: Time)
    requires s.running != []
    ensures FinishSuccess(s, now, lockedNow).batch == s.batch && FinishException(s).batch == s.batch
  {
  }

  /** Finishing cancels nothing. */
  lemma FinishCancels(s: Sched, now: Time, lockedNow: Time, id: TaskId)
    requires s.running != [] && id in s.ctl
    ensures HasState(FinishSuccess(s, now, lockedNow), id, Cancelled) || HasState(FinishException(s), id, Cancelled) ==>
      HasState(s, id, Cancelled)
  {
    FinishFate(s, now, lockedNow, id);
  }

  lemma RequestCancels(w: World, op: Op, w': World, id: TaskId)
    requires WorldInv(w) && Step(w, Request(op), w') && id in Ids(w'.s.batch) && HasState(w'.s, id, Cancelled)
    ensures id in Ids(w.s.batch) && (HasState(w.s, id, Cancelled) || CancelsAt(w, Request(op), id))
  {
    ApplyFrame(w.s, op);
    SnapshotState(w.s, id);
    assert TaskOk(w.s, id);
    ApplyFate(w.s, op, id);
  }

  lemma CancelledAt(ws: seq<World>, acts: seq<Action>, j: nat, id: TaskId)
    requires IsRun(ws, acts) && j < |acts| && id in Ids(ws[j + 1].s.batch) && HasState(ws[j + 1].s, id, Cancelled)
    ensures id in Ids(ws[j].s.batch) && (HasState(ws[j].s, id, Cancelled) || CancelsAt(ws[j], acts[j], id))
  {
    RunStep(ws, acts, j);
    CancelledStep(ws[j], acts[j], ws[j + 1], id);
  }

  /** Somebody cancelled a cancelled entry of the snapshot, and was told so. */
  lemma {:induction false} WhoCancelled(ws: seq<World>, acts: seq<Action>, j: nat, id: TaskId) returns (i: nat)
    requires IsRun(ws, acts) && ws[0] == START && j < |ws| && id in Ids(ws[j].s.batch) && HasState(ws[j].s, id, Cancelled)
    ensures i < j && CancelsAt(ws[i], acts[i], id)
  {
    CancelledAt(ws, acts, j - 1, id);
    i := j - 1;
    if CancelsAt(ws[i], acts[i], id) {
    } else {
      i := WhoCancelled(ws, acts, i, id);
    }
  }

  /** In every interleaving a task that the consumer comes to in its snapshot starts if and only if no
      thread has cancelled it before. */
  lemma StartsUnlessCancelled(ws: seq<World>, acts: seq<Action>, j: nat)
    requires IsRun(ws, acts) && ws[0] == START && j < |acts| && acts[j] == Cas
    ensures ws[j].s.batch != []
    ensures var id := ws[j].s.batch[0].id;
      StartsAt(ws[j], Cas, id) <==> forall i :: 0 <= i < j ==> !CancelsAt(ws[i], acts[i], id)
  {
    RunStep(ws, acts, j);
    var id := ws[j].s.batch[0].id;
    SnapshotState(ws[j].s, id);
    if StartsAt(ws[j], Cas, id) {
      forall i | 0 <= i < j
        ensures !CancelsAt(ws[i], acts[i], id)
      {
        if CancelsAt(ws[i], acts[i], id) {
          CancelIsFinal(ws, acts, i, j, id);
        }
      }
    } else {
      var i := WhoCancelled(ws, acts, j, id);
    }
  }

  /** Every accepted id is in the index while its task is live. It leaves the index once; from then on
      the task is completed or cancelled, the same one forever. */
  lemma LeavesIndexOnce(ws: seq<World>, acts: seq<Action>, i: nat, j: nat, id: TaskId)
    requires IsRun(ws, acts) && i < j < |ws| && id in ws[i].s.index && id !in ws[i + 1].s.index
    ensures id in ws[j].s.ctl && id !in ws[j].s.index
    ensures id in ws[i + 1].s.ctl && ws[j].s.ctl[id].state == ws[i + 1].s.ctl[id].state && Over(ws[j].s, id)
  {
    RunInv(ws, acts, i);
    RunInv(ws, acts, i + 1);
    assert TaskOk(ws[i].s, id) && TaskOk(ws[i + 1].s, id);
    assert StepAt(ws, acts, i);
    StepFate(ws[i], acts[i], ws[i + 1], id);
    GoneForever(ws, acts, i + 1, j, id);
    OverForever(ws, acts, i + 1, j, id);
  }

  /** cancel(id) can answer false for a live task in two ways only: the task is one-shot and its
      callback has started, or the consumer started it between the canceller's load and its CAS. In
      the second case the task may be periodic and stay live. */
  lemma CancelLosesOnlyToStart(w: World, w': World)
    requires WorldInv(w) && Step(w, TryCancel, w') && Live(w.s.ctl[w.mutex.id].state)
    ensures !CancelCas(w.s, w.mutex.id, w.mutex.observed).1 <==>
      HasState(w.s, w.mutex.id, Executing) && (w.mutex.observed == ReadySnapshot || !w.s.ctl[w.mutex.id].periodic)
  {
    assert TaskOk(w.s, w.mutex.id);
  }

  lemma TakenInSnapshot(e: Entry, s1: Sched, s2: Sched) returns (ws: seq<World>, acts: seq<Action>)
    requires e == Entry(1, 1, 1, 0, true, 5, FixedRate, 0)
    requires s1 == Sched([[], [e], []], [], [], [], map[1 := Control(QueuedReady, true, false, 0)], {1}, 1, 1, 2, 2, false)
    requires s2 == Sched([[], [], []], [], [e], [], map[1 := Control(ReadySnapshot, true, false, 0)], {1}, 0, 1, 2, 2, false)
    ensures IsRun(ws, acts) && ws[0] == START && |acts| == 2 && ws[2] == World(s2, Visiting, Free, 0)
  {
    PostedFirst(e, s1);
    TakenFirst(e, s1, s2);
    StartInv();
    ws, acts := [START], [];
    ws, acts := RunGrows(ws, acts, Request(OpPostEvery(true, 0, 5, 1, FixedRate, 0, 0)), World(s1, Idle, Free, 0));
    ws, acts := RunGrows(ws, acts, Enter(1, 0), World(s2, Visiting, Free, 0));
  }

  lemma StartedBetween(e: Entry, s1: Sched, s2: Sched, s3: Sched) returns (ws: seq<World>, acts: seq<Action>)
    requires e == Entry(1, 1, 1, 0, true, 5, FixedRate, 0)
    requires s1 == Sched([[], [e], []], [], [], [], map[1 := Control(QueuedReady, true, false, 0)], {1}, 1, 1, 2, 2, false)
    requires s2 == Sched([[], [], []], [], [e], [], map[1 := Control(ReadySnapshot, true, false, 0)], {1}, 0, 1, 2, 2, false)
    requires s3 == Sched([[], [], []], [], [], [e], map[1 := Control(Executing, true, false, 0)], {1}, 0, 1, 2, 2, false)
    ensures IsRun(ws, acts) && ws[0] == START && |acts| == 4 && acts[2] == Load(1)
    ensures ws[4] == World(s3, Owing, Loaded(1, ReadySnapshot), 0)
  {
    StartedFirst(e, s2, s3);
    ws, acts := TakenInSnapshot(e, s1, s2);
    ws, acts := RunGrows(ws, acts, Load(1), World(s2, Visiting, Loaded(1, ReadySnapshot), 0));
    ws, acts := RunGrows(ws, acts, Cas, World(s3, Owing, Loaded(1, ReadySnapshot), 0));
  }

  /** The second case does happen: the consumer starts a periodic task between the canceller's load and
      its CAS; cancel() answers false, the task goes on executing, and it is queued for its next cycle. */
  lemma PeriodicCancelCanFail() returns (ws: seq<World>, acts: seq<Action>)
    ensures IsRun(ws, acts) && ws[0] == START && |acts| == 7 && acts[2] == Load(1) && acts[4] == TryCancel
    ensures ws[4].mutex == Loaded(1, ReadySnapshot) && !CancelsAt(ws[4], TryCancel, 1)
    ensures HasState(ws[5].s, 1, Executing) && ws[5].s.ctl[1].periodic && ws[5].mutex.Free?
    ensures HasState(ws[7].s, 1, QueuedDelayed) && 1 in ws[7].s.index
  {
    var e := Entry(1, 1, 1, 0, true, 5, FixedRate, 0);
    var s1 := Sched([[], [e], []], [], [], [], map[1 := Control(QueuedReady, true, false, 0)], {1}, 1, 1, 2, 2, false);
    var s2 := Sched([[], [], []], [], [e], [], map[1 := Control(ReadySnapshot, true, false, 0)], {1}, 0, 1, 2, 2, false);
    var s3 := Sched([[], [], []], [], [], [e], map[1 := Control(Executing, true, false, 0)], {1}, 0, 1, 2, 2, false);
    var again := e.(seqNo := 2, due := 5, planned := 5);
    var s4 := Sched([[], [], []], [again], [], [], map[1 := Control(QueuedDelayed, true, false, 0)], {1}, 0, 1, 2, 3, false);
    StartedFirst(e, s2, s3);
    RequeuedFirst(e, s3, again, s4);
    ws, acts := StartedBetween(e, s1, s2, s3);
    ws, acts := RunGrows(ws, acts, TryCancel, World(s3, Owing, Free, 0));
    ws, acts := RunGrows(ws, acts, Decrease, World(s3, InCallback, Free, 0));
    ws, acts := RunGrows(ws, acts, Finish(0, 0), World(s4, Visiting, Free, 0));
  }

  lemma RunGrows(ws: seq<World>, acts: seq<Action>, a: Action, w: World) returns (more: seq<World>, all: seq<Action>)
    requires IsRun(ws, acts) && Step(ws[|acts|], a, w)
    ensures IsRun(more, all) && more == ws + [w] && all == acts + [a]
  {
    more, all := ws + [w], acts + [a];
    forall i | 0 <= i < |all|
      ensures StepAt(more, all, i)
    {
      if i < |acts| {
        assert StepAt(ws, acts, i);
      }
    }
  }

  lemma PostedFirst(e: Entry, s: Sched)
    requires e == Entry(1, 1, 1, 0, true, 5, FixedRate, 0)
    requires s == Sched([[], [e], []], [], [], [], map[1 := Control(QueuedReady, true, false, 0)], {1}, 1, 1, 2, 2, false)
    ensures Apply(EMPTY, OpPostEvery(true, 0, 5, 1, FixedRate, 0, 0)).0 == s
  {
    assert EMPTY.ready[1] + [e] == [e];
    assert EMPTY.ready[1 := [e]] == [[], [e], []];
  }

  lemma TakenFirst(e: Entry, s: Sched, t: Sched)
    requires e == Entry(1, 1, 1, 0, true, 5, FixedRate, 0)
    requires s == Sched([[], [e], []], [], [], [], map[1 := Control(QueuedReady, true, false, 0)], {1}, 1, 1, 2, 2, false)
    requires t == Sched([[], [], []], [], [e], [], map[1 := Control(ReadySnapshot, true, false, 0)], {1}, 0, 1, 2, 2, false)
    ensures Take(Promote(s, 0), 1) == t
  {
    assert Promote(s, 0) == s;
    assert TakeFrom(s, 0, 1) == s;
    assert [e][1..] == [];
    assert s.ready[1 := []] == [[], [], []];
    assert s.ctl[1 := Control(ReadySnapshot, true, false, 0)] == t.ctl;
    assert TakeFront(s, 1) == t;
    assert TakeFrom(s, 1, 1) == TakeFrom(t, 1, 1) == t;
    assert TakeFrom(t, 2, 1) == t;
  }

  lemma StartedFirst(e: Entry, s: Sched, t: Sched)
    requires e == Entry(1, 1, 1, 0, true, 5, FixedRate, 0)
    requires s == Sched([[], [], []], [], [e], [], map[1 := Control(ReadySnapshot, true, false, 0)], {1}, 0, 1, 2, 2, false)
    requires t == Sched([[], [], []], [], [], [e], map[1 := Control(Executing, true, false, 0)], {1}, 0, 1, 2, 2, false)
    ensures Start(s) == (t, true) && CancelCas(t, 1, ReadySnapshot) == (t, false)
  {
    assert [e][1..] == [];
    assert s.ctl[1 := Control(Executing, true, false, 0)] == t.ctl;
  }

  lemma RequeuedFirst(e: Entry, s: Sched, again: Entry, t: Sched)
    requires e == Entry(1, 1, 1, 0, true, 5, FixedRate, 0) && again == e.(seqNo := 2, due := 5, planned := 5)
    requires s == Sched([[], [], []], [], [], [e], map[1 := Control(Executing, true, false, 0)], {1}, 0, 1, 2, 2, false)
    requires t == Sched([[], [], []], [again], [], [], map[1 := Control(QueuedDelayed, true, false, 0)], {1}, 0, 1, 2, 3, false)
    ensures FinishSuccess(s, 0, 0) == t && TaskOps.Decrement(s) == s
  {
    assert Insert([], again) == [again];
    assert s.ctl[1 := Control(QueuedDelayed, true, false, 0)] == t.ctl;
  }

  // ---------- draining ----------

  ghost function WaitingTasks(s: Sched): set<TaskId> {
    set id | id in s.ctl && Waits(s, id)
  }

  ghost predicate SomeStart(w: World, a: Action) {
    a.Cas? && w.s.batch != [] && Start(w.s).1
  }

  lemma ApplyKeys(s: Sched, op: Op)
    requires s.closed
    ensures var t := Apply(s, op).0; t.closed && t.ctl.Keys == s.ctl.Keys
  {
    if op.OpNextDeadline? {
      PruneFrame(s);
    } else if op.OpClearPending? {
      ClearKeys(s);
    }
  }

  lemma {:induction false} ClearReadyKeys(s: Sched, p: nat)
    requires p < 3
    ensures ClearReady(s, p).ctl.Keys == s.ctl.Keys && ClearReady(s, p).closed == s.closed
    decreases |s.ready[p]|
  {
    if s.ready[p] == [] {
    } else {
      ClearReadyKeys(DropReady(s, p), p);
    }
  }

  lemma {:induction false} ClearDelayedKeys(s: Sched)
    ensures ClearDelayed(s).ctl.Keys == s.ctl.Keys && ClearDelayed(s).closed == s.closed
    decreases |s.delayed|
  {
    if s.delayed == [] {
    } else {
      ClearDelayedKeys(DropDelayed(s));
    }
  }

  lemma ClearKeys(s: Sched)
    ensures ClearPending(s).ctl.Keys == s.ctl.Keys && ClearPending(s).closed == s.closed
  {
    var s1 := ClearReady(s, 0);
    var s2 := ClearReady(s1, 1);
    ClearReadyKeys(s, 0);
    ClearReadyKeys(s1, 1);
    ClearReadyKeys(s2, 2);
    ClearDelayedKeys(ClearReady(s2, 2));
  }

  lemma {:induction false} PromoteLoopKeys(s: Sched, now: Time)
    ensures PromoteLoop(s, now).ctl.Keys == s.ctl.Keys && PromoteLoop(s, now).closed == s.closed
    decreases |s.delayed|
  {
    if s.delayed == [] || s.delayed[0].due > now {
    } else {
      PruneShrinks(PromoteFront(s));
      PruneFrame(PromoteFront(s));
      PromoteLoopKeys(Prune(PromoteFront(s)), now);
    }
  }

  lemma {:induction false} TakeFromKeys(s: Sched, p: nat, maxTasks: nat)
    requires p < 3
    ensures TakeFrom(s, p, maxTasks).ctl.Keys == s.ctl.Keys && TakeFrom(s, p, maxTasks).closed == s.closed
    decreases |s.ready[p]|
  {
    if s.ready[p] == [] || |s.batch| >= maxTasks {
    } else {
      TakeFromKeys(TakeFront(s, p), p, maxTasks);
    }
  }

  lemma EnterKeys(s: Sched, now: Time, maxTasks: nat)
    ensures var t := Take(Promote(s, now), maxTasks); t.ctl.Keys == s.ctl.Keys && t.closed == s.closed
  {
    var u := Promote(s, now);
    PruneFrame(s);
    PromoteLoopKeys(Prune(s), now);
    TakeFromKeys(u, 0, maxTasks);
    TakeFromKeys(TakeFrom(u, 0, maxTasks), 1, maxTasks);
    TakeFromKeys(TakeFrom(TakeFrom(u, 0, maxTasks), 1, maxTasks), 2, maxTasks);
  }

  lemma {:induction false} RestoreKeys(s: Sched)
    ensures Restore(s).ctl.Keys == s.ctl.Keys && Restore(s).closed == s.closed
    decreases |s.batch|
  {
    if s.batch == [] {
    } else {
      RestoreKeys(RestoreBack(s));
    }
  }

  /** Closing is for good, and a closed manager accepts nothing. */
  lemma ClosedStep(w: World, a: Action, w': World)
    requires WorldInv(w) && Step(w, a, w') && w.s.closed
    ensures w'.s.closed && w'.s.ctl.Keys == w.s.ctl.Keys
  {
    match a
    case Enter(n, now) => EnterKeys(w.s, now, n);
    case GiveBack => RestoreKeys(w.s);
    case Request(op) => ApplyKeys(w.s, op);
    case Finish(t, u) =>
      assert TaskOk(w.s, w.s.running[0].id);
      FinishKeys(w.s, t, u);
    case Throw => FinishKeys(w.s, 0, 0);
    case _ => SmallKeys(w, a, w');
  }

  lemma FinishKeys(s: Sched, now: Time, lockedNow: Time)
    requires s.running != [] && s.closed
    ensures var (t, u) := (FinishSuccess(s, now, lockedNow), FinishException(s));
      t.closed && t.ctl.Keys == s.ctl.Keys && u.closed && u.ctl.Keys == s.ctl.Keys
  {
  }

  lemma SmallKeys(w: World, a: Action, w': World)
    requires Step(w, a, w') && w.s.closed && (a.Cas? || a.Decrease? || a.Handled? || a.Leaving? || a.Load? || a.TryCancel?)
    ensures w'.s.closed && w'.s.ctl.Keys == w.s.ctl.Keys
  {
  }

  /** In a closed manager a start uses up one waiting task, and no step makes a new one. */
  lemma DrainStep(w: World, a: Action, w': World)
    requires WorldInv(w) && Step(w, a, w') && w.s.closed
    ensures w'.s.closed && |WaitingTasks(w'.s)| + (if SomeStart(w, a) then 1 else 0) <= |WaitingTasks(w.s)|
  {
    ClosedStep(w, a, w');
    var started := if SomeStart(w, a) then {w.s.batch[0].id} else {};
    forall id | id in WaitingTasks(w'.s)
      ensures id in WaitingTasks(w.s) - started
    {
      StepFate(w, a, w', id);
    }
    Smaller(WaitingTasks(w'.s), WaitingTasks(w.s) - started);
    assert started <= WaitingTasks(w.s);
  }

  lemma {:induction false} Smaller(a: set<TaskId>, b: set<TaskId>)
    requires a <= b
    ensures |a| <= |b|
  {
    assert b == a + (b - a);
  }

  /** The number of callbacks that start in a run. */
  ghost function StartCount(ws: seq<World>, acts: seq<Action>): nat
    requires |ws| == |acts| + 1
  {
    if acts == [] then 0 else (if SomeStart(ws[0], acts[0]) then 1 else 0) + StartCount(ws[1..], acts[1..])
  }

  /** From the moment the manager is closed, at most as many callbacks start as tasks were waiting at
      that moment, over all later calls of process() and whatever the callbacks, the periodic tasks
      and the reschedule requests do. */
  lemma {:induction false} DrainsAfterClose(ws: seq<World>, acts: seq<Action>)
    requires IsRun(ws, acts) && ws[0].s.closed
    ensures StartCount(ws, acts) + |WaitingTasks(ws[|acts|].s)| <= |WaitingTasks(ws[0].s)|
  {
    if acts == [] {
    } else {
      assert StepAt(ws, acts, 0);
      StepKeeps(ws[0], acts[0], ws[1]);
      DrainStep(ws[0], acts[0], ws[1]);
      assert IsRun(ws[1..], acts[1..]) by {
        forall i | 0 <= i < |acts[1..]|
          ensures StepAt(ws[1..], acts[1..], i)
        {
          assert StepAt(ws, acts, i + 1);
        }
      }
      DrainsAfterClose(ws[1..], acts[1..]);
    }
  }
}
