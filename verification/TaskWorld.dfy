/** The scheduler under every interleaving of producers, cancellers and the consumer. Each mutex
    region is one step, except that cancel() loads the state and then CASes it in two steps: in
    between, the consumer's own CAS, which takes no lock, can win. */
module TaskWorld {
  import opened TaskTypes
  import opened TaskOps
  import opened TaskInvariant
  import opened TaskSteps
  import opened TaskLive
  import TaskProcess

  /** Where the consumer is in process(). `Owing` is the point between its CAS and the decrement;
      `Failed` is the point after a callback's exception has been recorded. */
  datatype Phase = Idle | Visiting | Owing | InCallback | Failed

  /** Who holds the mutex across steps: nobody, or a canceller that has loaded a state. */
  datatype Mutex = Free | Loaded(id: TaskId, observed: State)

  datatype World = World(s: Sched, phase: Phase, mutex: Mutex, now: Time)

  datatype Action =
    | Enter(maxTasks: nat, now: Time)
    | Cas
    | Decrease
    | Finish(now: Time, lockedNow: Time)
    | Throw
    | Handled
    | GiveBack
    | Leaving
    | Request(op: Op)
    | Load(id: TaskId)
    | TryCancel

  function Later(a: Time, b: Time): Time { if a < b then b else a }

  /** The clock value after a call. A submission reads the clock inside the lock; post_every also read
      it before, so that value may be old, but not newer. */
  function Clock(now: Time, op: Op): Time {
    match op
    case OpPostAt(_, _, _, t) => Later(now, t)
    case OpPostEvery(_, _, _, _, _, t, u) => Later(now, u)
    case _ => now
  }

  ghost predicate ClockOk(now: Time, op: Op) {
    match op
    case OpPostAt(_, _, _, t) => now <= t
    case OpPostEvery(_, _, _, _, _, t, u) => now <= u && t <= u
    case _ => true
  }

  ghost predicate Step(w: World, a: Action, w': World) {
    match a
    case Enter(n, now) =>
      w.mutex.Free? && w.phase == Idle && n > 0 && w.now <= now
      && w' == World(Take(Promote(w.s, now), n), Visiting, Free, now)
    case Cas =>
      w.phase == Visiting && w.s.batch != []
      && w' == w.(s := Start(w.s).0, phase := if Start(w.s).1 then Owing else Visiting)
    case Decrease =>
      w.phase == Owing && w.s.running != [] && w' == w.(s := TaskOps.Decrement(w.s), phase := InCallback)
    case Finish(t, u) =>
      w.mutex.Free? && w.phase == InCallback && w.s.running != [] && w.now <= t <= u
      && w' == w.(s := FinishSuccess(w.s, t, u), phase := Visiting, now := u)
    case Throw =>
      w.mutex.Free? && w.phase == InCallback && w.s.running != [] && w' == w.(s := FinishException(w.s), phase := Failed)
    case Handled => w.phase == Failed && w' == w.(phase := Visiting)
    case GiveBack => w.mutex.Free? && w.phase == Failed && w' == w.(s := Restore(w.s), phase := Idle)
    case Leaving => w.phase == Visiting && w.s.batch == [] && w' == w.(phase := Idle)
    case Request(op) =>
      w.mutex.Free? && !op.OpCancel? && ClockOk(w.now, op)
      && w' == w.(s := Apply(w.s, op).0, now := Clock(w.now, op))
    case Load(id) =>
      w.mutex.Free? && id in w.s.index && id in w.s.ctl && w' == w.(mutex := Loaded(id, w.s.ctl[id].state))
    case TryCancel =>
      w.mutex.Loaded? && w.mutex.id in w.s.ctl
      && w' == w.(s := CancelCas(w.s, w.mutex.id, w.mutex.observed).0, mutex := Free)
  }

  const START: World := World(EMPTY, Idle, Free, 0)

  // ---------- the invariant ----------

  ghost function Owed(w: World): nat {
    if w.phase == Owing && w.s.running != [] && !w.s.running[0].periodic then 1 else 0
  }

  ghost predicate PhaseOk(w: World) {
    match w.phase
    case Idle => w.s.batch == [] && w.s.running == []
    case Visiting => w.s.running == []
    case Owing => w.s.running != []
    case InCallback => w.s.running != []
    case Failed => w.s.running == []
  }

  /** What a canceller loaded is still so, unless the consumer has just started that very task. */
  ghost predicate MutexOk(w: World) {
    w.mutex.Loaded? ==>
      && w.mutex.id in w.s.ctl && w.mutex.id in w.s.index
      && (w.s.ctl[w.mutex.id].state == w.mutex.observed
          || (w.mutex.observed == ReadySnapshot && w.s.ctl[w.mutex.id].state == Executing))
  }

  ghost predicate WorldInv(w: World) {
    Inv(w.s, Owed(w)) && PhaseOk(w) && MutexOk(w)
  }

  lemma StartInv()
    ensures WorldInv(START)
  {
    EmptyInv();
  }

  lemma EnterKeeps(w: World, a: Action, w': World)
    requires WorldInv(w) && Step(w, a, w') && a.Enter?
    ensures WorldInv(w')
  {
    var u := Promote(w.s, a.now);
    KeepsPromote(w.s, a.now, 0);
    KeepsTake(u, a.maxTasks, 0);
    TaskProcess.PromoteFrame(w.s, a.now);
    TaskProcess.TakeFrame(u, a.maxTasks);
  }

  lemma CasKeeps(w: World, a: Action, w': World)
    requires WorldInv(w) && Step(w, a, w') && a.Cas?
    ensures WorldInv(w')
  {
    KeepsStart(w.s);
  }

  lemma ConsumerKeeps(w: World, a: Action, w': World)
    requires WorldInv(w) && Step(w, a, w') && (a.Decrease? || a.Finish? || a.Throw? || a.GiveBack?)
    ensures WorldInv(w')
  {
    match a
    case Decrease => KeepsDecrement(w.s);
    case Finish(t, u) => KeepsFinishSuccess(w.s, t, u);
    case Throw => KeepsFinishException(w.s);
    case GiveBack =>
      KeepsRestore(w.s, 0);
      TaskProcess.RestoreFrame(w.s);
  }

  lemma CancelFrame(s: Sched, id: TaskId, observed: State)
    requires id in s.ctl
    ensures var t := CancelCas(s, id, observed).0; t.batch == s.batch && t.running == s.running
  {
  }

  lemma OtherKeeps(w: World, a: Action, w': World)
    requires WorldInv(w) && Step(w, a, w') && (a.Request? || a.Load? || a.TryCancel?)
    ensures WorldInv(w')
  {
    match a
    case Request(op) =>
      KeepsApply(w.s, op, Owed(w));
      TaskProcess.ApplyFrame(w.s, op);
    case Load(id) =>
    case TryCancel =>
      KeepsCancelCas(w.s, w.mutex.id, w.mutex.observed, Owed(w));
      CancelFrame(w.s, w.mutex.id, w.mutex.observed);
  }

  /** Every step of every thread keeps the invariant. */
  lemma StepKeeps(w: World, a: Action, w': World)
    requires WorldInv(w) && Step(w, a, w')
    ensures WorldInv(w')
  {
    if a.Enter? {
      EnterKeeps(w, a, w');
    } else if a.Cas? {
      CasKeeps(w, a, w');
    } else if a.Decrease? || a.Finish? || a.Throw? || a.GiveBack? {
      ConsumerKeeps(w, a, w');
    } else if a.Request? || a.Load? || a.TryCancel? {
      OtherKeeps(w, a, w');
    }
  }

  // ---------- runs ----------

  ghost predicate StepAt(ws: seq<World>, acts: seq<Action>, i: nat)
    requires |ws| == |acts| + 1 && i < |acts|
  {
    Step(ws[i], acts[i], ws[i + 1])
  }

  /** A run: worlds joined by the steps between them. */
  ghost predicate IsRun(ws: seq<World>, acts: seq<Action>) {
    && |ws| == |acts| + 1
    && WorldInv(ws[0])
    && forall i :: 0 <= i < |acts| ==> StepAt(ws, acts, i)
  }

  lemma {:induction false} RunInv(ws: seq<World>, acts: seq<Action>, i: nat)
    requires IsRun(ws, acts) && i < |ws|
    ensures WorldInv(ws[i])
  {
    if i == 0 {
    } else {
      RunInv(ws, acts, i - 1);
      assert StepAt(ws, acts, i - 1);
      StepKeeps(ws[i - 1], acts[i - 1], ws[i]);
    }
  }

  /** At every moment of every run: ready_count() is the number of queued_ready entries in the three
      deques; pending_count() is the waiting, delayed and snapshotted entries plus a running periodic
      task, plus one while the consumer owes its decrement. Neither ever underflows. */
  lemma CountersExact(ws: seq<World>, acts: seq<Action>, i: nat)
    requires IsRun(ws, acts) && i < |ws|
    ensures var (s, w) := (ws[i].s, ws[i]);
      && s.readyCount == |ReadyOrder(s)|
      && s.pendingCount == |ReadyOrder(s)| + |LiveDelayed(s)| + |LiveOf(s.batch, s.ctl, ReadySnapshot)| + |RunningPeriodic(s.ctl)| + Owed(w)
      && 0 <= s.readyCount <= s.pendingCount
  {
    RunInv(ws, acts, i);
    ReadyCountIsLive(ws[i].s, Owed(ws[i]));
    PendingCountIsLive(ws[i].s, Owed(ws[i]));
  }

  /** At every moment a live task has an entry exactly where its state says, and nowhere else. */
  lemma ExactlyOnePlace(ws: seq<World>, acts: seq<Action>, i: nat, id: TaskId)
    requires IsRun(ws, acts) && i < |ws| && id in ws[i].s.ctl && Live(ws[i].s.ctl[id].state)
    ensures var s := ws[i].s; var st := s.ctl[id].state;
      && (id in ReadyIds(s) <==> st == QueuedReady)
      && (id in Ids(s.delayed) <==> st == QueuedDelayed)
      && (id in Ids(s.batch) <==> st == ReadySnapshot)
      && (id in Ids(s.running) <==> st == Executing)
      && !(id in Ids(s.ready[0]) && id in Ids(s.ready[1])) && !(id in Ids(s.ready[0]) && id in Ids(s.ready[2]))
      && !(id in Ids(s.ready[1]) && id in Ids(s.ready[2]))
  {
    RunInv(ws, acts, i);
    assert TaskOk(ws[i].s, id);
    OnlyAtHome(ws[i].s, id);
  }
}
