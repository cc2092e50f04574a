/** The wake-up protocol shared by RunLoop, the module worker and ModuleHub: capture the notifier's
    generation, process, look at every source, and only then sleep until the generation changes or a
    deadline comes. Producers enqueue and notify in two separate steps. */
module WakeUp {
  import opened TaskTypes
  import opened TaskOps
  import opened TaskInvariant
  import TaskSteps
  import TaskFate
  import opened TaskWorld
  import TaskLedger
  import TaskTiming

  // ---------- the system ----------

  /** Why a notification is owed: somebody has submitted task `id` to manager `i`, has closed manager
      `i`, and so on, and has yet to call notify(). */
  datatype Cause = FromTask(i: nat, id: TaskId) | FromClose(i: nat) | FromBus(i: nat) | FromStop | FromWorker(i: nat)

  /** One instruction of a loop body, between the capture of the generation and the wait. */
  datatype Instr =
    | CheckStop
    | CheckWorker(i: nat)
    | RunBus(i: nat)
    | RunManager(i: nat)
    | RunHook
    | CheckWork
    | ProbeBus(i: nat)
    | ProbeReady(i: nat)
    | ReadClock
    | ProbeDue(i: nat)
    | ProbeDeadline(i: nat)
    | CheckHint
    | Hint

  type Body = seq<Instr>

  datatype Where = AtTop | AtCapture | At(pc: nat) | Parked(timeout: Option<int>) | Exited

  /** `inside` says that the loop's thread is in user code called from a source. */
  datatype Loop = Loop(at: Where, captured: nat, work: bool, clock: Time, best: Option<Time>, inside: bool)

  /** `owed` holds the notifications other threads have yet to send, `own` the one that user code on
      the loop's own thread has yet to send. */
  datatype System = System(managers: seq<World>, buses: seq<nat>, failed: seq<bool>, stop: bool,
                           gen: nat, owed: multiset<Cause>, own: Option<Cause>, loop: Loop)

  datatype Act =
    | Advance(time: Time, hint: Option<Time>)
    | Consume(i: nat, a: Action)
    | Abort
    | Ask(mine: bool, i: nat, a: Action)
    | PostEvent(mine: bool, i: nat)
    | RequestStop(mine: bool)
    | ResetStop
    | FailWorker(i: nat)
    | Pay(cause: Cause)
    | PayOwn
    | Wake

  /** The calls that notify: an accepted submission and the first close(). */
  predicate Announces(s: Sched, a: Action) {
    a.Request? && (Apply(s, a.op).0.nextId != s.nextId || (a.op.OpClose? && !s.closed))
  }

  function CauseOf(s: Sched, i: nat, a: Action): Cause
    requires a.Request?
  {
    if Apply(s, a.op).0.nextId != s.nextId then FromTask(i, s.nextId) else FromClose(i)
  }

  function Owe(x: System, mine: bool, cause: Cause): System {
    if mine then x.(own := Some(cause)) else x.(owed := x.owed + multiset{cause})
  }

  /** User code on the loop's own thread runs only inside a source and sends its notification before
      it goes on; any other thread may act at any time. */
  predicate MayAct(x: System, mine: bool) {
    mine ==> x.loop.inside && x.own.None?
  }

  function Earlier(best: Option<Time>, due: Option<Time>): Option<Time> {
    if best.None? then due else if due.None? then best else if due.value < best.value then due else best
  }

  function Goto(x: System, at: Where): System {
    x.(loop := x.loop.(at := at))
  }

  function Next(x: System): System
    requires x.loop.at.At?
  {
    Goto(x, At(x.loop.at.pc + 1))
  }

  /** What the loop's thread does at instruction `ins`. */
  ghost predicate Exec(x: System, ins: Instr, time: Time, hint: Option<Time>, y: System)
    requires x.loop.at.At?
  {
    match ins
    case CheckStop => y == if x.stop then Goto(x, Exited) else Next(x)
    case CheckWorker(i) =>
      i < |x.failed| && y == if x.failed[i] then Goto(x, Exited).(failed := x.failed[i := false]) else Next(x)
    case RunBus(i) =>
      i < |x.buses| &&
      if x.loop.inside then y == Next(x.(loop := x.loop.(inside := false)))
      else y == x.(buses := x.buses[i := 0], loop := x.loop.(work := x.loop.work || x.buses[i] > 0, inside := true))
    case RunManager(i) =>
      i < |x.managers| && x.loop.inside && x.managers[i].phase.Idle? && y == Next(x.(loop := x.loop.(inside := false)))
    case RunHook =>
      if x.loop.inside then y == Next(x.(loop := x.loop.(inside := false, work := x.loop.work || hint.Some?)))
      else y == x.(loop := x.loop.(inside := true))
    case CheckWork => y == if x.loop.work then Goto(x, AtTop) else Next(x)
    case ProbeBus(i) => i < |x.buses| && y == if x.buses[i] > 0 then Goto(x, AtTop) else Next(x)
    case ProbeReady(i) => i < |x.managers| && y == if x.managers[i].s.readyCount != 0 then Goto(x, AtTop) else Next(x)
    case ReadClock => y == Next(x.(loop := x.loop.(clock := time)))
    case ProbeDue(i) =>
      i < |x.managers| && x.managers[i].mutex.Free? &&
      var (t, due) := NextDeadline(x.managers[i].s);
      var z := x.(managers := x.managers[i := x.managers[i].(s := t)]);
      y == if due.Some? && due.value <= x.loop.clock then Goto(z, AtTop) else Next(z)
    case ProbeDeadline(i) =>
      i < |x.managers| && x.managers[i].mutex.Free? &&
      var (t, due) := NextDeadline(x.managers[i].s);
      y == Next(x.(managers := x.managers[i := x.managers[i].(s := t)], loop := x.loop.(best := Earlier(x.loop.best, due))))
    case CheckHint => y == if hint.Some? && hint.value <= x.loop.clock then Goto(x, AtTop) else Next(x)
    case Hint => y == Next(x.(loop := x.loop.(best := Earlier(x.loop.best, hint))))
  }

  /** The end of the body: wait for the generation to change, with a bound if a deadline is known. */
  function Park(x: System): System {
    var l := x.loop;
    if l.best.None? then Goto(x, Parked(None))
    else if l.best.value <= l.clock then Goto(x, AtTop)
    else Goto(x, Parked(Some(l.best.value - l.clock)))
  }

  ghost predicate LoopStep(body: Body, x: System, time: Time, hint: Option<Time>, y: System) {
    x.own.None? &&
    match x.loop.at
    case AtTop => y == Goto(x, if x.stop then Exited else AtCapture)
    case AtCapture => y == x.(loop := Loop(At(0), x.gen, false, x.loop.clock, None, false))
    case At(pc) => pc <= |body| && if pc < |body| then Exec(x, body[pc], time, hint, y) else y == Park(x)
    case _ => false
  }

  predicate IsConsumer(a: Action) {
    a.Enter? || a.Cas? || a.Decrease? || a.Finish? || a.Throw? || a.Handled? || a.GiveBack? || a.Leaving?
  }

  ghost predicate SystemStep(body: Body, x: System, act: Act, y: System) {
    match act
    case Advance(time, hint) => LoopStep(body, x, time, hint, y)
    case Consume(i, a) =>
      x.loop.at.At? && x.loop.at.pc < |body| && body[x.loop.at.pc] == RunManager(i) && i < |x.managers| && x.own.None?
      && IsConsumer(a) && (a.Enter? <==> !x.loop.inside)
      && |y.managers| == |x.managers| && Step(x.managers[i], a, y.managers[i])
      && y == x.(managers := x.managers[i := y.managers[i]],
                 loop := x.loop.(inside := true, work := x.loop.work || TaskLedger.SomeStart(x.managers[i], a)))
    case Abort => x.loop.inside && x.own.None? && y == x.(loop := x.loop.(at := Exited, inside := false))
    case Ask(mine, i, a) =>
      MayAct(x, mine) && i < |x.managers| && !IsConsumer(a)
      && |y.managers| == |x.managers| && Step(x.managers[i], a, y.managers[i])
      && var z := x.(managers := x.managers[i := y.managers[i]]);
         y == if Announces(x.managers[i].s, a) then Owe(z, mine, CauseOf(x.managers[i].s, i, a)) else z
    case PostEvent(mine, i) =>
      MayAct(x, mine) && i < |x.buses| && y == Owe(x.(buses := x.buses[i := x.buses[i] + 1]), mine, FromBus(i))
    case RequestStop(mine) => MayAct(x, mine) && y == Owe(x.(stop := true), mine, FromStop)
    case ResetStop => y == x.(stop := false)
    case FailWorker(i) => i < |x.failed| && y == Owe(x.(failed := x.failed[i := true]), false, FromWorker(i))
    case Pay(cause) => cause in x.owed && y == x.(owed := x.owed - multiset{cause}, gen := x.gen + 1)
    case PayOwn => x.own.Some? && y == x.(own := None, gen := x.gen + 1)
    case Wake => x.loop.at.Parked? && (x.gen != x.loop.captured || x.loop.at.timeout.Some?) && y == Goto(x, AtTop)
  }

  // ---------- the invariant ----------

  predicate LiveDelayedEntry(s: Sched, e: Entry) {
    e in s.delayed && HasState(s, e.id, QueuedDelayed)
  }

  /** A ready task of manager `i` has its own notification to come. */
  ghost predicate ReadyOwed(x: System, i: nat, id: TaskId)
    requires i < |x.managers|
  {
    HasState(x.managers[i].s, id, QueuedReady) ==> FromTask(i, id) in x.owed
  }

  /** A live delayed task of manager `i` is due at the best deadline or later, or has its own
      notification to come. */
  ghost predicate DelayedOwed(x: System, i: nat, e: Entry)
    requires i < |x.managers|
  {
    LiveDelayedEntry(x.managers[i].s, e) ==> FromTask(i, e.id) in x.owed || Bounds(x.loop.best, e.due)
  }

  predicate Bounds(best: Option<Time>, due: Time) {
    best.Some? && best.value <= due
  }

  /** What instruction `ins` has established and nothing can undo without owing a notification. */
  ghost predicate Established(x: System, ins: Instr) {
    match ins
    case CheckStop => x.stop ==> FromStop in x.owed
    case CheckWorker(i) => i < |x.failed| && (x.failed[i] ==> FromWorker(i) in x.owed)
    case ProbeBus(i) => i < |x.buses| && x.buses[i] <= x.owed[FromBus(i)]
    case ProbeReady(i) => i < |x.managers| && forall id :: ReadyOwed(x, i, id)
    case ProbeDeadline(i) => i < |x.managers| && forall e :: DelayedOwed(x, i, e)
    case _ => true
  }

  ghost predicate Covered(x: System, ins: Instr) {
    x.gen != x.loop.captured || x.own.Some? || Established(x, ins)
  }

  ghost predicate CoveredUpTo(body: Body, x: System, n: nat) {
    n <= |body| && forall k :: 0 <= k < n ==> Covered(x, body[k])
  }

  ghost predicate Consistent(x: System) {
    forall i :: 0 <= i < |x.managers| ==> WorldInv(x.managers[i])
  }

  /** A wait is bounded by the best deadline seen, and unbounded only if none was seen. */
  predicate WaitOk(l: Loop) {
    l.at.Parked? ==>
      if l.at.timeout.None? then l.best.None? else l.best.Some? && l.at.timeout.value == l.best.value - l.clock > 0
  }

  predicate InSource(body: Body, pc: nat) {
    pc < |body| && (body[pc].RunBus? || body[pc].RunManager? || body[pc].RunHook?)
  }

  ghost predicate Safe(body: Body, x: System) {
    && Consistent(x) && x.loop.captured <= x.gen && WaitOk(x.loop)
    && (x.own.Some? ==> x.loop.inside)
    && (x.loop.inside ==> x.loop.at.At? && InSource(body, x.loop.at.pc))
    && (x.loop.at.At? ==> CoveredUpTo(body, x, x.loop.at.pc))
    && (x.loop.at.Parked? ==> CoveredUpTo(body, x, |body|))
  }

  /** No source is processed after it has been looked at. */
  ghost predicate WellOrdered(body: Body) {
    forall k, m :: 0 <= k < m < |body| && body[m].RunManager? ==> !body[k].ProbeReady? && !body[k].ProbeDeadline?
  }

  // ---------- requests by anybody ----------

  /** A call by anybody but the consumer makes no task ready and brings no deadline in, except for the
      task that it submits and announces. */
  lemma QuietCall(w: World, a: Action, w': World)
    requires WorldInv(w) && Step(w, a, w') && !IsConsumer(a)
    ensures forall id :: HasState(w'.s, id, QueuedReady) ==> HasState(w.s, id, QueuedReady) || Submitted(w, a, w', id)
    ensures forall e :: LiveDelayedEntry(w'.s, e) ==> LiveDelayedEntry(w.s, e) || Submitted(w, a, w', e.id)
  {
    StepKeeps(w, a, w');
    forall id | HasState(w'.s, id, QueuedReady)
      ensures HasState(w.s, id, QueuedReady) || Submitted(w, a, w', id)
    {
      QuietTask(w, a, w', id);
    }
    forall e | LiveDelayedEntry(w'.s, e)
      ensures LiveDelayedEntry(w.s, e) || Submitted(w, a, w', e.id)
    {
      QuietDelayed(w, a, w', e);
      QuietTask(w, a, w', e.id);
    }
  }

  ghost predicate Submitted(w: World, a: Action, w': World, id: TaskId) {
    a.Request? && w'.s.nextId != w.s.nextId && id == w.s.nextId
  }

  lemma QuietTask(w: World, a: Action, w': World, id: TaskId)
    requires WorldInv(w) && WorldInv(w') && Step(w, a, w') && !IsConsumer(a) && id in w'.s.ctl
    ensures Submitted(w, a, w', id) || (id in w.s.ctl && (w'.s.ctl[id].state == w.s.ctl[id].state || w'.s.ctl[id].state == Cancelled))
  {
    assert TaskOk(w.s, id) && TaskOk(w'.s, id);
    if a.Request? {
      QuietApply(w.s, a.op, id);
    } else if a.TryCancel? {
      QuietCancel(w.s, w.mutex.id, w.mutex.observed, id);
    }
  }

  lemma QuietCancel(s: Sched, cancelled: TaskId, observed: State, id: TaskId)
    requires cancelled in s.ctl && id in s.ctl
    ensures var c := CancelCas(s, cancelled, observed).0.ctl;
      id in c && (c[id].state == s.ctl[id].state || c[id].state == Cancelled)
  {
  }

  lemma QuietApply(s: Sched, op: Op, id: TaskId)
    requires Housed(s) && Housed(Apply(s, op).0) && id in Apply(s, op).0.ctl
    ensures var t := Apply(s, op).0;
      || (t.nextId != s.nextId && id == s.nextId)
      || (id in s.ctl && (t.ctl[id].state == s.ctl[id].state || t.ctl[id].state == Cancelled))
  {
    NextIds(s, op);
    assert TaskOk(s, id) && TaskOk(Apply(s, op).0, id);
    if id in s.ctl {
      TaskFate.ApplyFate(s, op, id);
    }
  }

  lemma NextIds(s: Sched, op: Op)
    ensures var t := Apply(s, op).0; t.nextId == s.nextId || t.nextId == s.nextId + 1
  {
    if op.OpNextDeadline? {
      PruneFrame(s);
    } else if op.OpClearPending? {
      ClearNextId(s);
    }
  }

  lemma {:induction false} ClearReadyNextId(s: Sched, p: nat)
    requires p < 3
    ensures ClearReady(s, p).nextId == s.nextId
    decreases |s.ready[p]|
  {
    if s.ready[p] == [] {
    } else {
      ClearReadyNextId(DropReady(s, p), p);
    }
  }

  lemma {:induction false} ClearDelayedNextId(s: Sched)
    ensures ClearDelayed(s).nextId == s.nextId
    decreases |s.delayed|
  {
    if s.delayed == [] {
    } else {
      ClearDelayedNextId(DropDelayed(s));
    }
  }

  lemma ClearNextId(s: Sched)
    ensures ClearPending(s).nextId == s.nextId
  {
    var s1 := ClearReady(s, 0);
    var s2 := ClearReady(s1, 1);
    ClearReadyNextId(s, 0);
    ClearReadyNextId(s1, 1);
    ClearReadyNextId(s2, 2);
    ClearDelayedNextId(ClearReady(s2, 2));
  }

  /** An entry new in the heap is that of the submitted task. */
  lemma QuietDelayed(w: World, a: Action, w': World, e: Entry)
    requires WorldInv(w) && Step(w, a, w') && !IsConsumer(a)
    ensures e in w'.s.delayed ==> e in w.s.delayed || Submitted(w, a, w', e.id)
  {
    if a.Request? && Posts(a.op) {
      PostShape(w.s, a.op);
      TaskTiming.InsertFrom(w.s.delayed, PostedEntry(w.s, a.op).0, e);
    } else {
      TaskTiming.RestFrom(w, a, w', e);
    }
  }

  lemma AskOwed(x: System, mine: bool, i: nat, a: Action, y: System, body: Body)
    requires i < |x.managers| && WorldInv(x.managers[i]) && SystemStep(body, x, Ask(mine, i, a), y)
    ensures y == x.(managers := x.managers[i := y.managers[i]], owed := y.owed, own := y.own)
    ensures x.own.Some? ==> y.own.Some?
    ensures y.own.None? ==> x.owed <= y.owed
    ensures y.own.None? ==> forall id :: Submitted(x.managers[i], a, y.managers[i], id) ==> FromTask(i, id) in y.owed
  {
  }

  lemma AskCovered(x: System, mine: bool, i: nat, a: Action, y: System, body: Body, ins: Instr)
    requires i < |x.managers| && WorldInv(x.managers[i]) && SystemStep(body, x, Ask(mine, i, a), y) && Covered(x, ins)
    ensures Covered(y, ins)
  {
    AskOwed(x, mine, i, a, y, body);
    QuietCall(x.managers[i], a, y.managers[i]);
    StillCovered(x, i, a, y, ins);
  }

  lemma StillCovered(x: System, i: nat, a: Action, y: System, ins: Instr)
    requires i < |x.managers| && |y.managers| == |x.managers| && Covered(x, ins) && (x.own.Some? ==> y.own.Some?)
    requires y == x.(managers := x.managers[i := y.managers[i]], owed := y.owed, own := y.own)
    requires var (w, w') := (x.managers[i], y.managers[i]);
      && (y.own.None? ==> x.owed <= y.owed && forall id :: Submitted(w, a, w', id) ==> FromTask(i, id) in y.owed)
      && (forall id :: HasState(w'.s, id, QueuedReady) ==> HasState(w.s, id, QueuedReady) || Submitted(w, a, w', id))
      && (forall e :: LiveDelayedEntry(w'.s, e) ==> LiveDelayedEntry(w.s, e) || Submitted(w, a, w', e.id))
    ensures Covered(y, ins)
  {
    if Established(x, ins) && y.own.None? {
      match ins
      case ProbeReady(j) =>
        forall id
          ensures ReadyOwed(y, j, id)
        {
          assert ReadyOwed(x, j, id);
        }
      case ProbeDeadline(j) =>
        forall e
          ensures DelayedOwed(y, j, e)
        {
          assert DelayedOwed(x, j, e);
        }
      case _ =>
    }
  }

  lemma AskSafe(body: Body, x: System, mine: bool, i: nat, a: Action, y: System)
    requires Safe(body, x) && SystemStep(body, x, Ask(mine, i, a), y)
    ensures Safe(body, y)
  {
    StepKeeps(x.managers[i], a, y.managers[i]);
    forall k | 0 <= k < |body| && Covered(x, body[k])
      ensures Covered(y, body[k])
    {
      AskCovered(x, mine, i, a, y, body, body[k]);
    }
  }

  lemma OtherCovered(body: Body, x: System, act: Act, y: System, ins: Instr)
    requires SystemStep(body, x, act, y) && Covered(x, ins)
    requires act.PostEvent? || act.RequestStop? || act.ResetStop? || act.FailWorker? || act.Pay? || act.PayOwn?
    requires x.loop.captured <= x.gen
    ensures Covered(y, ins)
  {
    if act.Pay? || act.PayOwn? {
      assert y.gen == x.gen + 1;
    } else {
      MoreOwed(x, y, ins);
    }
  }

  /** A source that has more to do owes a notification for it. */
  lemma MoreOwed(x: System, y: System, ins: Instr)
    requires Covered(x, ins) && y == x.(buses := y.buses, failed := y.failed, stop := y.stop, owed := y.owed, own := y.own)
    requires |y.buses| == |x.buses| && |y.failed| == |x.failed| && (y.own.None? ==> x.own.None? && x.owed <= y.owed)
    requires y.own.None? && y.stop ==> x.stop || FromStop in y.owed
    requires y.own.None? ==> forall i :: 0 <= i < |x.failed| && y.failed[i] ==> x.failed[i] || FromWorker(i) in y.owed
    requires y.own.None? ==> forall i :: 0 <= i < |x.buses| ==> y.buses[i] + x.owed[FromBus(i)] <= x.buses[i] + y.owed[FromBus(i)]
    ensures Covered(y, ins)
  {
    if Established(x, ins) && y.own.None? {
      match ins
      case ProbeReady(j) =>
        forall id
          ensures ReadyOwed(y, j, id)
        {
          assert ReadyOwed(x, j, id);
        }
      case ProbeDeadline(j) =>
        forall e
          ensures DelayedOwed(y, j, e)
        {
          assert DelayedOwed(x, j, e);
        }
      case _ =>
    }
  }

  lemma OtherSafe(body: Body, x: System, act: Act, y: System)
    requires Safe(body, x) && SystemStep(body, x, act, y)
    requires act.PostEvent? || act.RequestStop? || act.ResetStop? || act.FailWorker? || act.Pay? || act.PayOwn?
    ensures Safe(body, y)
  {
    forall k | 0 <= k < |body| && Covered(x, body[k])
      ensures Covered(y, body[k])
    {
      OtherCovered(body, x, act, y, body[k]);
    }
  }

  // ---------- the loop's own steps ----------

  lemma ConsumeSafe(body: Body, x: System, i: nat, a: Action, y: System)
    requires WellOrdered(body) && Safe(body, x) && SystemStep(body, x, Consume(i, a), y)
    ensures Safe(body, y)
  {
    StepKeeps(x.managers[i], a, y.managers[i]);
    var pc := x.loop.at.pc;
    forall k | 0 <= k < pc
      ensures Covered(y, body[k])
    {
      assert Covered(x, body[k]);
      assert body[pc].RunManager? && !body[k].ProbeReady? && !body[k].ProbeDeadline?;
    }
  }

  /** Looking for the next deadline takes no live entry away, and finds the least deadline. */
  lemma PrunedEntries(s: Sched, owed: nat)
    requires Inv(s, owed)
    ensures var (t, due) := NextDeadline(s);
      && t == s.(delayed := t.delayed)
      && forall e :: LiveDelayedEntry(t, e) ==> LiveDelayedEntry(s, e) && Bounds(due, e.due)
  {
    var (t, due) := NextDeadline(s);
    PruneFrame(s);
    forall e | LiveDelayedEntry(t, e)
      ensures LiveDelayedEntry(s, e) && Bounds(due, e.due)
    {
      TaskTiming.PruneFrom(s, 0, e);
      TaskSteps.KeepsPrune(s, owed);
      HeadFirst(t.delayed, e);
    }
  }

  lemma {:induction false} HeadFirst(q: seq<Entry>, e: Entry)
    requires Sorted(q) && e in q
    ensures q[0].due <= e.due
  {
    if e == q[0] {
    } else {
      HeadFirst(q[1..], e);
    }
  }

  /** next_deadline() as a step of the manager. */
  lemma AskedDeadline(w: World)
    requires WorldInv(w) && w.mutex.Free?
    ensures WorldInv(w.(s := NextDeadline(w.s).0))
  {
    var w' := w.(s := Apply(w.s, OpNextDeadline).0);
    assert Step(w, Request(OpNextDeadline), w');
    StepKeeps(w, Request(OpNextDeadline), w');
  }

  lemma ProbeCovered(x: System, i: nat, y: System, best: Option<Time>, ins: Instr)
    requires i < |x.managers| && WorldInv(x.managers[i]) && x.managers[i].mutex.Free? && Covered(x, ins)
    requires y == x.(managers := y.managers, loop := y.loop) && y.loop.captured == x.loop.captured
    requires y.managers == x.managers[i := x.managers[i].(s := NextDeadline(x.managers[i].s).0)]
    requires y.loop.best == x.loop.best || y.loop.best == Earlier(x.loop.best, best)
    ensures Covered(y, ins)
  {
    PrunedEntries(x.managers[i].s, Owed(x.managers[i]));
    if Established(x, ins) {
      match ins
      case ProbeReady(j) =>
        forall id
          ensures ReadyOwed(y, j, id)
        {
          assert ReadyOwed(x, j, id);
        }
      case ProbeDeadline(j) =>
        forall e
          ensures DelayedOwed(y, j, e)
        {
          assert DelayedOwed(x, j, e);
        }
      case _ =>
    }
  }

  /** The instructions that look at a manager's deadline. */
  lemma ProbeExec(x: System, ins: Instr, time: Time, hint: Option<Time>, y: System, was: Instr)
    requires Consistent(x) && x.loop.at.At? && Exec(x, ins, time, hint, y) && (ins.ProbeDue? || ins.ProbeDeadline?)
    requires Covered(x, was)
    ensures Covered(y, was)
  {
    var w := x.managers[ins.i];
    assert WorldInv(w);
    ProbeCovered(x, ins.i, y, NextDeadline(w.s).1, was);
  }

  lemma ProbeNew(x: System, ins: Instr, time: Time, hint: Option<Time>, y: System)
    requires Consistent(x) && x.loop.at.At? && Exec(x, ins, time, hint, y) && (ins.ProbeDue? || ins.ProbeDeadline?)
    ensures Consistent(y) && Covered(y, ins)
  {
    var w := x.managers[ins.i];
    assert WorldInv(w);
    AskedDeadline(w);
    PrunedEntries(w.s, Owed(w));
  }

  predicate OnlyLooks(ins: Instr) {
    ins.CheckStop? || ins.CheckWorker? || ins.CheckWork? || ins.ProbeBus? || ins.ProbeReady? || ins.ReadClock? || ins.CheckHint?
  }

  /** Where ready_count() is zero no task is ready. */
  lemma NoneReady(w: World, id: TaskId)
    requires WorldInv(w) && w.s.readyCount == 0
    ensures !HasState(w.s, id, QueuedReady)
  {
    assert id in WaitingIds(w.s.ctl) <==> HasState(w.s, id, QueuedReady);
  }

  lemma LookExec(x: System, ins: Instr, time: Time, hint: Option<Time>, y: System)
    requires Consistent(x) && x.loop.at.At? && Exec(x, ins, time, hint, y) && OnlyLooks(ins)
    ensures y == x.(failed := y.failed, loop := y.loop) && y.loop == x.loop.(at := y.loop.at, clock := y.loop.clock)
    ensures y.loop.at == At(x.loop.at.pc + 1) || y.loop.at == AtTop || y.loop.at == Exited
    ensures y.loop.at == At(x.loop.at.pc + 1) ==> y.failed == x.failed && Covered(y, ins)
  {
    if ins.ProbeReady? && y.loop.at == At(x.loop.at.pc + 1) {
      forall id
        ensures ReadyOwed(y, ins.i, id)
      {
        NoneReady(x.managers[ins.i], id);
      }
    }
  }

  lemma LookSafe(body: Body, x: System, time: Time, hint: Option<Time>, y: System)
    requires Safe(body, x) && x.own.None? && x.loop.at.At? && x.loop.at.pc < |body|
    requires Exec(x, body[x.loop.at.pc], time, hint, y) && OnlyLooks(body[x.loop.at.pc])
    ensures Safe(body, y)
  {
    var pc := x.loop.at.pc;
    LookExec(x, body[pc], time, hint, y);
    if y.loop.at == At(pc + 1) {
      forall k | 0 <= k < pc
        ensures Covered(y, body[k])
      {
        assert Covered(x, body[k]);
        LookedFurther(x, y, body[k]);
      }
    }
  }

  /** Going through a source, or taking a module's hint into account. */
  lemma RunCovered(x: System, ins: Instr, time: Time, hint: Option<Time>, y: System, was: Instr)
    requires x.loop.at.At? && Exec(x, ins, time, hint, y) && (ins.RunBus? || ins.RunManager? || ins.RunHook? || ins.Hint?)
    requires Covered(x, was)
    ensures Covered(y, was)
  {
    LookedFurther(x, y, was);
  }

  /** Emptied buses and an earlier best deadline undo nothing. */
  lemma LookedFurther(x: System, y: System, was: Instr)
    requires Covered(x, was) && y == x.(buses := y.buses, loop := y.loop) && y.loop.captured == x.loop.captured
    requires |y.buses| == |x.buses| && forall i :: 0 <= i < |x.buses| ==> y.buses[i] <= x.buses[i]
    requires y.loop.best == x.loop.best || exists hint :: y.loop.best == Earlier(x.loop.best, hint)
    ensures Covered(y, was)
  {
    if Established(x, was) {
      match was
      case ProbeReady(j) =>
        forall id
          ensures ReadyOwed(y, j, id)
        {
          assert ReadyOwed(x, j, id);
        }
      case ProbeDeadline(j) =>
        forall e
          ensures DelayedOwed(y, j, e)
        {
          assert DelayedOwed(x, j, e);
        }
      case _ =>
    }
  }

  lemma RunSafe(body: Body, x: System, time: Time, hint: Option<Time>, y: System)
    requires Safe(body, x) && x.own.None? && x.loop.at.At? && x.loop.at.pc < |body|
    requires var ins := body[x.loop.at.pc]; Exec(x, ins, time, hint, y) && (ins.RunBus? || ins.RunManager? || ins.RunHook? || ins.Hint?)
    ensures Safe(body, y)
  {
    var pc := x.loop.at.pc;
    forall k | 0 <= k < pc
      ensures Covered(y, body[k])
    {
      assert Covered(x, body[k]);
      RunCovered(x, body[pc], time, hint, y, body[k]);
    }
  }

  lemma ProbeSafe(body: Body, x: System, time: Time, hint: Option<Time>, y: System)
    requires Safe(body, x) && x.own.None? && x.loop.at.At? && x.loop.at.pc < |body|
    requires var ins := body[x.loop.at.pc]; Exec(x, ins, time, hint, y) && (ins.ProbeDue? || ins.ProbeDeadline?)
    ensures Safe(body, y)
  {
    var pc := x.loop.at.pc;
    ProbeNew(x, body[pc], time, hint, y);
    ProbeKeeps(body, x, time, hint, y);
    ProbeFrame(x, body[pc], time, hint, y);
  }

  lemma ProbeKeeps(body: Body, x: System, time: Time, hint: Option<Time>, y: System)
    requires Consistent(x) && x.loop.at.At? && x.loop.at.pc < |body| && CoveredUpTo(body, x, x.loop.at.pc)
    requires var ins := body[x.loop.at.pc]; Exec(x, ins, time, hint, y) && (ins.ProbeDue? || ins.ProbeDeadline?)
    ensures CoveredUpTo(body, y, x.loop.at.pc)
  {
    forall k | 0 <= k < x.loop.at.pc
      ensures Covered(y, body[k])
    {
      ProbeExec(x, body[x.loop.at.pc], time, hint, y, body[k]);
    }
  }

  lemma ProbeFrame(x: System, ins: Instr, time: Time, hint: Option<Time>, y: System)
    requires x.loop.at.At? && Exec(x, ins, time, hint, y) && (ins.ProbeDue? || ins.ProbeDeadline?)
    ensures y == x.(managers := y.managers, loop := y.loop)
    ensures y.loop == x.loop.(at := y.loop.at, best := y.loop.best)
    ensures y.loop.at == At(x.loop.at.pc + 1) || y.loop.at == AtTop
  {
  }

  lemma ExecSafe(body: Body, x: System, time: Time, hint: Option<Time>, y: System)
    requires Safe(body, x) && x.own.None? && x.loop.at.At? && x.loop.at.pc < |body|
    requires Exec(x, body[x.loop.at.pc], time, hint, y)
    ensures Safe(body, y)
  {
    var ins := body[x.loop.at.pc];
    if OnlyLooks(ins) {
      LookSafe(body, x, time, hint, y);
    } else if ins.ProbeDue? || ins.ProbeDeadline? {
      ProbeSafe(body, x, time, hint, y);
    } else {
      RunSafe(body, x, time, hint, y);
    }
  }

  lemma LoopSafe(body: Body, x: System, time: Time, hint: Option<Time>, y: System)
    requires Safe(body, x) && LoopStep(body, x, time, hint, y)
    ensures Safe(body, y)
  {
    if x.loop.at.At? {
      if x.loop.at.pc < |body| {
        ExecSafe(body, x, time, hint, y);
      } else {
        ParkSafe(body, x, y);
      }
    }
  }

  lemma ParkSafe(body: Body, x: System, y: System)
    requires Safe(body, x) && x.loop.at == At(|body|) && y == Park(x) && x.own.None?
    ensures Safe(body, y)
  {
    forall k | 0 <= k < |body|
      ensures Covered(y, body[k])
    {
      assert Covered(x, body[k]);
      LookedFurther(x, y, body[k]);
    }
  }

  /** Every step of every thread keeps the protocol's invariant. */
  lemma StepSafe(body: Body, x: System, act: Act, y: System)
    requires WellOrdered(body) && Safe(body, x) && SystemStep(body, x, act, y)
    ensures Safe(body, y)
  {
    match act
    case Advance(time, hint) => LoopSafe(body, x, time, hint, y);
    case Consume(i, a) => ConsumeSafe(body, x, i, a, y);
    case Ask(mine, i, a) => AskSafe(body, x, mine, i, a, y);
    case Abort =>
    case Wake =>
    case _ => OtherSafe(body, x, act, y);
  }
}
