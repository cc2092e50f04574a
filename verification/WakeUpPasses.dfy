/** What a loop has done before it waits: one whole pass over every bus and every manager, in which
    nothing was found to do. */
module WakeUpPasses {
  import opened TaskTypes
  import opened TaskWorld
  import opened WakeUp
  import opened WakeUpLoops

  // ---------- the observer ----------

  /** The present pass, since the loop last captured the generation: the buses whose queue it has taken, the
      managers whose process() it has entered, and whether it has found an event or started a task. */
  datatype Pass = Pass(buses: set<nat>, managers: set<nat>, worked: bool)

  function Passing(body: Body, x: System, act: Act, p: Pass): Pass {
    match act
    case Advance(_, _) =>
      if x.loop.at.AtCapture? then Pass({}, {}, false)
      else if x.loop.at.At? && x.loop.at.pc < |body| && !x.loop.inside && body[x.loop.at.pc].RunBus? then
        var i := body[x.loop.at.pc].i;
        Pass(p.buses + {i}, p.managers, p.worked || (i < |x.buses| && x.buses[i] > 0))
      else p
    case Consume(i, a) =>
      Pass(p.buses, if a.Enter? then p.managers + {i} else p.managers, p.worked || Starts(x, i, a))
    case _ => p
  }

  predicate Starts(x: System, i: nat, a: Action) {
    i < |x.managers| && a.Cas? && x.managers[i].s.batch != [] && HasState(x.managers[i].s, x.managers[i].s.batch[0].id, ReadySnapshot)
  }

  // ---------- the invariant ----------

  predicate Ran(ins: Instr, p: Pass) {
    (ins.RunBus? ==> ins.i in p.buses) && (ins.RunManager? ==> ins.i in p.managers)
  }

  predicate RanUpTo(body: Body, p: Pass, n: nat) {
    n <= |body| && forall k :: 0 <= k < n ==> Ran(body[k], p)
  }

  /** Instruction `c` asks whether this pass has done anything, and nothing is run after it. */
  predicate ChecksWork(body: Body, c: nat) {
    c < |body| && body[c] == CheckWork && forall k :: c < k < |body| ==> !body[k].RunBus? && !body[k].RunManager?
  }

  ghost predicate PassFits(body: Body, c: nat, x: System, p: Pass) {
    && (x.loop.inside ==> x.loop.at.At? && InSource(body, x.loop.at.pc) && Ran(body[x.loop.at.pc], p))
    && (x.loop.at.At? ==>
          RanUpTo(body, p, x.loop.at.pc) && (p.worked ==> x.loop.work) && (c < x.loop.at.pc ==> !p.worked))
    && (x.loop.at.Parked? ==> RanUpTo(body, p, |body|) && !p.worked)
  }

  lemma RanOneMore(body: Body, p: Pass, n: nat)
    requires RanUpTo(body, p, n) && n < |body| && Ran(body[n], p)
    ensures RanUpTo(body, p, n + 1)
  {
  }

  lemma RanMore(body: Body, p: Pass, q: Pass, n: nat)
    requires RanUpTo(body, p, n) && p.buses <= q.buses && p.managers <= q.managers
    ensures RanUpTo(body, q, n)
  {
    forall k | 0 <= k < n
      ensures Ran(body[k], q)
    {
      assert Ran(body[k], p);
    }
  }

  /** Where an instruction takes the loop. */
  predicate Moves(l: Loop, ins: Instr, found: bool, m: Loop)
    requires l.at.At?
  {
    var source := ins.RunBus? || ins.RunManager? || ins.RunHook?;
    || ((m.at.AtTop? || m.at.Exited?) && !source && m.inside == l.inside)
    || (m.at == l.at && !l.inside && m.inside && source && !ins.RunManager? && m.work == (l.work || found))
    || (m.at == At(l.at.pc + 1) && !m.inside && (source ==> l.inside) && (l.work ==> m.work) && (ins.CheckWork? ==> !l.work))
  }

  function Finds(x: System, ins: Instr): bool {
    ins.RunBus? && ins.i < |x.buses| && x.buses[ins.i] > 0
  }

  lemma ExecMoves(x: System, ins: Instr, time: Time, hint: Option<Time>, y: System)
    requires x.loop.at.At? && Exec(x, ins, time, hint, y) && (x.loop.inside ==> ins.RunBus? || ins.RunManager? || ins.RunHook?)
    ensures Moves(x.loop, ins, Finds(x, ins), y.loop)
  {
  }

  lemma MovesFit(body: Body, c: nat, x: System, y: System, p: Pass, q: Pass)
    requires ChecksWork(body, c) && PassFits(body, c, x, p) && x.loop.at.At? && x.loop.at.pc < |body|
    requires var ins := body[x.loop.at.pc];
      && Moves(x.loop, ins, Finds(x, ins), y.loop)
      && q == if !x.loop.inside && ins.RunBus? then Pass(p.buses + {ins.i}, p.managers, p.worked || Finds(x, ins)) else p
    ensures PassFits(body, c, y, q)
  {
    var pc := x.loop.at.pc;
    RanMore(body, p, q, pc);
    if y.loop.at == At(pc + 1) {
      RanOneMore(body, q, pc);
    }
  }

  lemma ExecFits(body: Body, c: nat, x: System, time: Time, hint: Option<Time>, y: System, p: Pass)
    requires ChecksWork(body, c) && PassFits(body, c, x, p) && x.loop.at.At? && x.loop.at.pc < |body|
    requires Exec(x, body[x.loop.at.pc], time, hint, y)
    ensures PassFits(body, c, y, Passing(body, x, Advance(time, hint), p))
  {
    ExecMoves(x, body[x.loop.at.pc], time, hint, y);
    MovesFit(body, c, x, y, p, Passing(body, x, Advance(time, hint), p));
  }

  lemma AdvanceFits(body: Body, c: nat, x: System, time: Time, hint: Option<Time>, y: System, p: Pass)
    requires ChecksWork(body, c) && PassFits(body, c, x, p) && LoopStep(body, x, time, hint, y)
    ensures PassFits(body, c, y, Passing(body, x, Advance(time, hint), p))
  {
    if x.loop.at.At? && x.loop.at.pc < |body| {
      ExecFits(body, c, x, time, hint, y, p);
    }
  }

  lemma ConsumeFits(body: Body, c: nat, x: System, i: nat, a: Action, y: System, p: Pass)
    requires ChecksWork(body, c) && PassFits(body, c, x, p) && SystemStep(body, x, Consume(i, a), y)
    ensures PassFits(body, c, y, Passing(body, x, Consume(i, a), p))
  {
    RanMore(body, p, Passing(body, x, Consume(i, a), p), x.loop.at.pc);
  }

  lemma StepFits(body: Body, c: nat, x: System, act: Act, y: System, p: Pass)
    requires ChecksWork(body, c) && PassFits(body, c, x, p) && SystemStep(body, x, act, y)
    ensures PassFits(body, c, y, Passing(body, x, act, p))
  {
    if act.Advance? {
      AdvanceFits(body, c, x, act.time, act.hint, y, p);
    } else if act.Consume? {
      ConsumeFits(body, c, x, act.i, act.a, y, p);
    } else {
      assert y.loop.inside ==> x.loop.inside;
      assert y.loop.at == x.loop.at || y.loop.at.AtTop? || y.loop.at.Exited?;
    }
  }

  // ---------- runs ----------

  /** A run with its observer. */
  ghost predicate IsPassRun(body: Body, xs: seq<System>, acts: seq<Act>, ps: seq<Pass>) {
    && IsSystemRun(body, xs, acts) && |ps| == |xs|
    && forall i :: 0 <= i < |acts| ==> ps[i + 1] == Passing(body, xs[i], acts[i], ps[i])
  }

  lemma NextFits(body: Body, c: nat, xs: seq<System>, acts: seq<Act>, ps: seq<Pass>, n: nat)
    requires ChecksWork(body, c) && IsPassRun(body, xs, acts, ps) && n < |acts| && PassFits(body, c, xs[n], ps[n])
    ensures PassFits(body, c, xs[n + 1], ps[n + 1])
  {
    assert ps[n + 1] == Passing(body, xs[n], acts[n], ps[n]);
    assert SystemStep(body, xs[n], acts[n], xs[n + 1]);
    StepFits(body, c, xs[n], acts[n], xs[n + 1], ps[n]);
  }

  lemma FreshFits(body: Body, c: nat, x: System, p: Pass)
    requires Fresh(x)
    ensures PassFits(body, c, x, p)
  {
  }

  lemma {:induction false} RunFits(body: Body, c: nat, xs: seq<System>, acts: seq<Act>, ps: seq<Pass>, n: nat)
    requires ChecksWork(body, c) && IsPassRun(body, xs, acts, ps) && n < |xs|
    ensures PassFits(body, c, xs[n], ps[n])
  {
    if n == 0 {
      FreshFits(body, c, xs[0], ps[0]);
    } else {
      RunFits(body, c, xs, acts, ps, n - 1);
      NextFits(body, c, xs, acts, ps, n - 1);
    }
  }

  lemma {:induction false} RunSources(body: Body, xs: seq<System>, acts: seq<Act>, n: nat)
    requires IsSystemRun(body, xs, acts) && n < |xs|
    ensures SameSources(xs[0], xs[n])
  {
    if n == 0 {
    } else {
      RunSources(body, xs, acts, n - 1);
      assert SystemStep(body, xs[n - 1], acts[n - 1], xs[n - 1 + 1]);
      StepSources(body, xs[n - 1], acts[n - 1], xs[n]);
    }
  }

  /** The pass went through every bus and every manager, and found nothing to do. */
  ghost predicate WholeIdlePass(x: System, p: Pass) {
    (forall i :: 0 <= i < |x.buses| ==> i in p.buses) && (forall i :: 0 <= i < |x.managers| ==> i in p.managers) && !p.worked
  }

  /** The body runs every source. */
  ghost predicate RunsAll(body: Body, x: System) {
    (forall i :: 0 <= i < |x.buses| ==> RunBus(i) in body) && (forall i :: 0 <= i < |x.managers| ==> RunManager(i) in body)
  }

  lemma ParkedAfterPass(body: Body, c: nat, xs: seq<System>, acts: seq<Act>, ps: seq<Pass>, n: nat)
    requires ChecksWork(body, c) && n < |xs| && RunsAll(body, xs[0]) && IsPassRun(body, xs, acts, ps) && xs[n].loop.at.Parked?
    ensures WholeIdlePass(xs[n], ps[n])
  {
    RunFits(body, c, xs, acts, ps, n);
    RunSources(body, xs, acts, n);
    forall ins | ins in body
      ensures Ran(ins, ps[n])
    {
      var k :| 0 <= k < |body| && body[k] == ins;
    }
    forall i | 0 <= i < |xs[n].buses|
      ensures i in ps[n].buses
    {
      assert Ran(RunBus(i), ps[n]);
    }
    forall i | 0 <= i < |xs[n].managers|
      ensures i in ps[n].managers
    {
      assert Ran(RunManager(i), ps[n]);
    }
  }

  // ---------- the three loops ----------

  predicate RunsNone(b: Body) {
    forall ins :: ins in b ==> !ins.RunBus? && !ins.RunManager?
  }

  lemma ChecksBetween(a: Body, b: Body)
    requires b != [] && b[0] == CheckWork && RunsNone(b)
    ensures ChecksWork(a + b, |a|)
  {
    forall k | |a| < k < |a + b|
      ensures !(a + b)[k].RunBus? && !(a + b)[k].RunManager?
    {
      assert (a + b)[k] in b;
    }
  }

  lemma {:induction false} NextWaitsRunNone(n: nat)
    ensures RunsNone(NextWaits(n))
  {
    if n == 0 {
    } else {
      NextWaitsRunNone(n - 1);
    }
  }

  /** RunLoop::run_until waits only after a pass that has processed every bus and every manager and in which
      no event was found and no task was started. */
  lemma RunLoopPasses(xs: seq<System>, acts: seq<Act>, ps: seq<Pass>, n: nat)
    requires n < |xs| && IsPassRun(RunLoopBody(|xs[0].buses|, |xs[0].managers|), xs, acts, ps) && xs[n].loop.at.Parked?
    ensures WholeIdlePass(xs[n], ps[n])
  {
    var (nb, nm) := (|xs[0].buses|, |xs[0].managers|);
    var a := RunBuses(nb) + RunManagers(nm);
    var b := [CheckWork, CheckStop, RunHook] + ProbeBuses(nb) + ProbeReadies(nm) + [ReadClock] + NextWaits(nm);
    NextWaitsRunNone(nm);
    ChecksBetween(a, b);
    forall i | 0 <= i < nb
      ensures RunBus(i) in a + b
    {
      assert RunBuses(nb)[i] == RunBus(i);
    }
    forall i | 0 <= i < nm
      ensures RunManager(i) in a + b
    {
      assert RunManagers(nm)[i] == RunManager(i);
    }
    ParkedAfterPass(a + b, |a|, xs, acts, ps, n);
  }

  /** The same for the worker thread of a module. */
  lemma WorkerPasses(xs: seq<System>, acts: seq<Act>, ps: seq<Pass>, n: nat)
    requires n < |xs| && |xs[0].buses| == 0 && |xs[0].managers| == 1
    requires IsPassRun(WorkerBody(), xs, acts, ps) && xs[n].loop.at.Parked?
    ensures WholeIdlePass(xs[n], ps[n])
  {
    assert WorkerBody()[0] == RunManager(0) && ChecksWork(WorkerBody(), 1);
    ParkedAfterPass(WorkerBody(), 1, xs, acts, ps, n);
  }

  lemma {:induction false} HubTasksRun(ms: Modules, k: nat)
    ensures k < |ms| && ms[k].Some? ==> RunManager(ms[k].value) in HubTasks(ms)
  {
    if ms == [] {
    } else {
      var last := |ms| - 1;
      HubTasksRun(ms[..last], k);
      if k == last && ms[k].Some? {
        assert [RunManager(ms[k].value)][0] == RunManager(ms[k].value);
      } else if k < last {
        assert ms[..last][k] == ms[k];
      }
    }
  }

  lemma {:induction false} HubRunsNone(ms: Modules)
    ensures RunsNone(HubPending(ms)) && RunsNone(HubDeadlines(ms))
  {
    if ms == [] {
    } else {
      HubRunsNone(ms[..|ms| - 1]);
    }
  }

  /** The same for ModuleHub::run_loop, whatever mix of modules it has. */
  lemma HubPasses(ms: Modules, xs: seq<System>, acts: seq<Act>, ps: seq<Pass>, n: nat)
    requires n < |xs| && Hub(ms, xs[0]) && IsPassRun(HubBody(ms), xs, acts, ps) && xs[n].loop.at.Parked?
    ensures WholeIdlePass(xs[n], ps[n])
  {
    var a := [RunBus(0)] + HubTasks(ms) + HubHooks(ms);
    var b := [CheckWork, CheckStop, ProbeBus(0), ReadClock] + HubPending(ms) + HubDeadlines(ms) + [ReadClock];
    HubRunsNone(ms);
    ChecksBetween(a, b);
    assert (a + b)[0] == RunBus(0);
    forall i | 0 <= i < |xs[0].managers|
      ensures RunManager(i) in a + b
    {
      var k :| 0 <= k < |ms| && ms[k] == Some(i);
      HubTasksRun(ms, k);
    }
    ParkedAfterPass(a + b, |a|, xs, acts, ps, n);
  }
}
