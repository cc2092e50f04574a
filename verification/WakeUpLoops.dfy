/** RunLoop::run_until, the module worker and ModuleHub::run_loop as bodies of the wake-up protocol,
    and what the protocol promises for each of them. */
module WakeUpLoops {
  import opened TaskTypes
  import TaskInvariant
  import TaskLive
  import TaskWorld
  import opened WakeUp

  // ---------- the three loop bodies ----------

  function RunBuses(n: nat): Body {
    seq(n, i requires 0 <= i => RunBus(i))
  }

  function RunManagers(n: nat): Body {
    seq(n, i requires 0 <= i => RunManager(i))
  }

  function ProbeBuses(n: nat): Body {
    seq(n, i requires 0 <= i => ProbeBus(i))
  }

  function ProbeReadies(n: nat): Body {
    seq(n, i requires 0 <= i => ProbeReady(i))
  }

  /** next_task_wait(): each manager is looked at once more, then its deadline is taken. */
  function NextWaits(n: nat): Body {
    if n == 0 then [] else NextWaits(n - 1) + [ProbeReady(n - 1), ProbeDeadline(n - 1)]
  }

  function RunLoopBody(buses: nat, managers: nat): Body {
    RunBuses(buses) + RunManagers(managers) + ([CheckWork, CheckStop, RunHook]
      + ProbeBuses(buses) + ProbeReadies(managers) + [ReadClock] + NextWaits(managers))
  }

  function WorkerBody(): Body {
    [RunManager(0), CheckWork, CheckStop, ProbeReady(0), ProbeDeadline(0), ReadClock]
  }

  /** A hub's modules, in order: an inline one runs manager `i` in the hub's loop. */
  type Modules = seq<Option<nat>>

  function HubTasks(ms: Modules): Body {
    if ms == [] then []
    else
      var k := |ms| - 1;
      HubTasks(ms[..k]) + [CheckWorker(k)] + (if ms[k].Some? then [RunManager(ms[k].value)] else [])
  }

  function HubHooks(ms: Modules): Body {
    if ms == [] then [] else HubHooks(ms[..|ms| - 1]) + [CheckWorker(|ms| - 1), RunHook]
  }

  function HubPending(ms: Modules): Body {
    if ms == [] then []
    else
      var k := |ms| - 1;
      HubPending(ms[..k]) + (if ms[k].Some? then [ProbeReady(ms[k].value), ProbeDue(ms[k].value)] else []) + [CheckHint]
  }

  function HubDeadlines(ms: Modules): Body {
    if ms == [] then []
    else
      var k := |ms| - 1;
      HubDeadlines(ms[..k]) + (if ms[k].Some? then [ProbeDeadline(ms[k].value)] else []) + [Hint]
  }

  function HubBody(ms: Modules): Body {
    [RunBus(0)] + HubTasks(ms) + HubHooks(ms) + ([CheckWork, CheckStop, ProbeBus(0), ReadClock]
      + HubPending(ms) + HubDeadlines(ms) + [ReadClock])
  }

  // ---------- their shape ----------

  ghost predicate NoProbes(b: Body) {
    forall ins :: ins in b ==> !ins.ProbeReady? && !ins.ProbeDeadline?
  }

  ghost predicate NoRuns(b: Body) {
    forall ins :: ins in b ==> !ins.RunManager?
  }

  lemma RunsFirst(a: Body, b: Body)
    requires NoProbes(a) && NoRuns(b)
    ensures WellOrdered(a + b)
  {
    var c := a + b;
    forall m | |a| <= m < |c|
      ensures !c[m].RunManager?
    {
      assert c[m] in b;
    }
    forall k | 0 <= k < |a|
      ensures !c[k].ProbeReady? && !c[k].ProbeDeadline?
    {
      assert c[k] in a;
    }
  }

  /** The body looks at everything that can give the loop something to do. */
  ghost predicate Complete(b: Body, x: System) {
    && CheckStop in b
    && (forall i :: 0 <= i < |x.buses| ==> ProbeBus(i) in b)
    && (forall i :: 0 <= i < |x.managers| ==> ProbeReady(i) in b && ProbeDeadline(i) in b)
    && (forall i :: 0 <= i < |x.failed| ==> CheckWorker(i) in b)
  }

  lemma {:induction false} NextWaitsShape(n: nat)
    ensures NoRuns(NextWaits(n)) && forall i :: 0 <= i < n ==> ProbeDeadline(i) in NextWaits(n)
  {
    if n == 0 {
    } else {
      NextWaitsShape(n - 1);
      var last := [ProbeReady(n - 1), ProbeDeadline(n - 1)];
      assert last[1] == ProbeDeadline(n - 1);
      forall i | 0 <= i < n
        ensures ProbeDeadline(i) in NextWaits(n)
      {
        if i < n - 1 {
          assert ProbeDeadline(i) in NextWaits(n - 1);
        } else {
          assert ProbeDeadline(i) in last;
        }
      }
    }
  }

  /** RunLoop::run_until looks at every bus and manager after it has processed them. */
  lemma RunLoopShape(x: System)
    requires |x.failed| == 0
    ensures var b := RunLoopBody(|x.buses|, |x.managers|); WellOrdered(b) && Complete(b, x)
  {
    var nb, nm := |x.buses|, |x.managers|;
    var a := RunBuses(nb) + RunManagers(nm);
    var b := [CheckWork, CheckStop, RunHook] + ProbeBuses(nb) + ProbeReadies(nm) + [ReadClock] + NextWaits(nm);
    NextWaitsShape(nm);
    RunsFirst(a, b);
    assert [CheckWork, CheckStop, RunHook][1] == CheckStop;
    forall i | 0 <= i < nb
      ensures ProbeBus(i) in a + b
    {
      assert ProbeBuses(nb)[i] == ProbeBus(i);
    }
    forall i | 0 <= i < nm
      ensures ProbeReady(i) in a + b && ProbeDeadline(i) in a + b
    {
      assert ProbeReadies(nm)[i] == ProbeReady(i);
      assert ProbeDeadline(i) in NextWaits(nm);
    }
  }

  lemma WorkerShape(x: System)
    requires |x.buses| == 0 && |x.managers| == 1 && |x.failed| == 0
    ensures WellOrdered(WorkerBody()) && Complete(WorkerBody(), x)
  {
    var b := WorkerBody();
    assert b[2] == CheckStop && b[3] == ProbeReady(0) && b[4] == ProbeDeadline(0);
  }

  lemma {:induction false} HubRuns(ms: Modules)
    ensures NoProbes(HubTasks(ms)) && NoProbes(HubHooks(ms))
    ensures forall k :: 0 <= k < |ms| ==> CheckWorker(k) in HubTasks(ms)
  {
    if ms == [] {
    } else {
      var k := |ms| - 1;
      HubRuns(ms[..k]);
      assert CheckWorker(k) in [CheckWorker(k)];
    }
  }

  lemma {:induction false} HubReady(ms: Modules, k: nat)
    ensures NoRuns(HubPending(ms))
    ensures k < |ms| && ms[k].Some? ==> ProbeReady(ms[k].value) in HubPending(ms)
  {
    if ms == [] {
    } else {
      var last := |ms| - 1;
      HubReady(ms[..last], k);
      if k == last && ms[k].Some? {
        assert [ProbeReady(ms[k].value), ProbeDue(ms[k].value)][0] == ProbeReady(ms[k].value);
      } else if k < last {
        assert ms[..last][k] == ms[k];
      }
    }
  }

  lemma {:induction false} HubDeadline(ms: Modules, k: nat)
    ensures NoRuns(HubDeadlines(ms))
    ensures k < |ms| && ms[k].Some? ==> ProbeDeadline(ms[k].value) in HubDeadlines(ms)
  {
    if ms == [] {
    } else {
      var last := |ms| - 1;
      HubDeadline(ms[..last], k);
      if k < last {
        assert ms[..last][k] == ms[k];
      }
    }
  }

  /** Every inline manager belongs to a module. */
  ghost predicate Hub(ms: Modules, x: System) {
    && |x.buses| == 1 && |x.failed| == |ms|
    && forall i :: 0 <= i < |x.managers| ==> exists k :: 0 <= k < |ms| && ms[k] == Some(i)
  }

  /** ModuleHub::run_loop looks at the bus, at every inline manager and at every worker's exception. */
  lemma HubBodyShape(ms: Modules, x: System)
    requires Hub(ms, x)
    ensures WellOrdered(HubBody(ms)) && Complete(HubBody(ms), x)
  {
    var a := [RunBus(0)] + HubTasks(ms) + HubHooks(ms);
    var b := [CheckWork, CheckStop, ProbeBus(0), ReadClock] + HubPending(ms) + HubDeadlines(ms) + [ReadClock];
    HubRuns(ms);
    HubReady(ms, 0);
    HubDeadline(ms, 0);
    RunsFirst(a, b);
    assert [CheckWork, CheckStop, ProbeBus(0), ReadClock][1] == CheckStop;
    assert [CheckWork, CheckStop, ProbeBus(0), ReadClock][2] == ProbeBus(0);
    forall i | 0 <= i < |x.managers|
      ensures ProbeReady(i) in a + b && ProbeDeadline(i) in a + b
    {
      var k :| 0 <= k < |ms| && ms[k] == Some(i);
      HubReady(ms, k);
      HubDeadline(ms, k);
    }
  }

  // ---------- runs ----------

  /** The loop is about to start; producers may already have been at work. */
  ghost predicate Fresh(x: System) {
    Consistent(x) && x.loop.at.AtTop? && !x.loop.inside && x.own.None? && x.loop.captured <= x.gen
  }

  ghost predicate IsSystemRun(body: Body, xs: seq<System>, acts: seq<Act>) {
    && |xs| == |acts| + 1 && Fresh(xs[0])
    && forall i :: 0 <= i < |acts| ==> SystemStep(body, xs[i], acts[i], xs[i + 1])
  }

  ghost predicate SameSources(x: System, y: System) {
    |x.managers| == |y.managers| && |x.buses| == |y.buses| && |x.failed| == |y.failed|
  }

  lemma {:induction false} RunSafely(body: Body, xs: seq<System>, acts: seq<Act>, n: nat)
    requires WellOrdered(body) && IsSystemRun(body, xs, acts) && n < |xs|
    ensures Safe(body, xs[n]) && SameSources(xs[0], xs[n])
  {
    if n == 0 {
    } else {
      RunSafely(body, xs, acts, n - 1);
      assert SystemStep(body, xs[n - 1], acts[n - 1], xs[n - 1 + 1]);
      StepSafe(body, xs[n - 1], acts[n - 1], xs[n]);
      StepSources(body, xs[n - 1], acts[n - 1], xs[n]);
    }
  }

  lemma StepSources(body: Body, x: System, act: Act, y: System)
    requires SystemStep(body, x, act, y)
    ensures SameSources(x, y)
  {
    if act.Advance? && x.loop.at.At? && x.loop.at.pc < |body| {
      ExecSources(x, body[x.loop.at.pc], act.time, act.hint, y);
    }
  }

  lemma ExecSources(x: System, ins: Instr, time: Time, hint: Option<Time>, y: System)
    requires x.loop.at.At? && Exec(x, ins, time, hint, y)
    ensures SameSources(x, y)
  {
  }

  /** No notification has arrived since the loop looked, and its wait is not over. */
  predicate Asleep(x: System) {
    x.loop.at.Parked? && x.gen == x.loop.captured
  }

  /** Whatever a sleeping loop has to do, the notification for it is still to come: one for each queued
      event, one for each ready task and one for each delayed task that is due before the wait ends. */
  ghost predicate NothingMissed(x: System) {
    && (x.stop ==> FromStop in x.owed)
    && (forall i :: 0 <= i < |x.buses| ==> x.buses[i] <= x.owed[FromBus(i)])
    && (forall i :: 0 <= i < |x.failed| && x.failed[i] ==> FromWorker(i) in x.owed)
    && (forall i :: 0 <= i < |x.managers| ==> SleepsWell(x, i))
  }

  /** For every task of manager `i`: if it is ready, its own notification is still to come; if it is
      live and delayed, so it is, or the wait ends by its deadline. */
  ghost predicate SleepsWell(x: System, i: nat)
    requires i < |x.managers|
  {
    && (forall id :: ReadyOwed(x, i, id))
    && (forall e :: LiveDelayedEntry(x.managers[i].s, e) ==> FromTask(i, e.id) in x.owed || WakesBy(x.loop, e.due))
  }

  /** The wait is bounded by `due` less the clock value read in this pass. */
  predicate WakesBy(l: Loop, due: Time) {
    l.at.Parked? && l.at.timeout.Some? && l.at.timeout.value <= due - l.clock
  }

  lemma ManagerAsleep(x: System, i: nat)
    requires i < |x.managers| && WaitOk(x.loop) && x.loop.at.Parked?
    requires Established(x, ProbeReady(i)) && Established(x, ProbeDeadline(i))
    ensures SleepsWell(x, i)
  {
    forall e | LiveDelayedEntry(x.managers[i].s, e)
      ensures FromTask(i, e.id) in x.owed || WakesBy(x.loop, e.due)
    {
      assert DelayedOwed(x, i, e);
    }
  }

  lemma BodyEstablished(body: Body, x: System, ins: Instr)
    requires Safe(body, x) && Asleep(x) && ins in body
    ensures Established(x, ins)
  {
    var k :| 0 <= k < |body| && body[k] == ins;
    assert Covered(x, body[k]);
  }

  lemma AsleepMissesNothing(body: Body, x: System)
    requires Safe(body, x) && Complete(body, x) && Asleep(x)
    ensures NothingMissed(x)
  {
    BodyEstablished(body, x, CheckStop);
    forall i | 0 <= i < |x.buses|
      ensures x.buses[i] <= x.owed[FromBus(i)]
    {
      BodyEstablished(body, x, ProbeBus(i));
    }
    forall i | 0 <= i < |x.failed|
      ensures x.failed[i] ==> FromWorker(i) in x.owed
    {
      BodyEstablished(body, x, CheckWorker(i));
    }
    forall i | 0 <= i < |x.managers|
      ensures SleepsWell(x, i)
    {
      BodyEstablished(body, x, ProbeReady(i));
      BodyEstablished(body, x, ProbeDeadline(i));
      ManagerAsleep(x, i);
    }
  }

  /** No lost wake-up, in every interleaving of producers, stoppers, failing workers, cancellers and
      the loop: RunLoop::run_until. */
  lemma RunLoopMissesNothing(xs: seq<System>, acts: seq<Act>, n: nat)
    requires n < |xs| && |xs[0].failed| == 0
    requires IsSystemRun(RunLoopBody(|xs[0].buses|, |xs[0].managers|), xs, acts) && Asleep(xs[n])
    ensures NothingMissed(xs[n])
  {
    var body := RunLoopBody(|xs[0].buses|, |xs[0].managers|);
    RunLoopShape(xs[0]);
    RunSafely(body, xs, acts, n);
    RunLoopShape(xs[n]);
    AsleepMissesNothing(body, xs[n]);
  }

  /** The same for the worker thread of a module. */
  lemma WorkerMissesNothing(xs: seq<System>, acts: seq<Act>, n: nat)
    requires n < |xs| && |xs[0].buses| == 0 && |xs[0].managers| == 1 && |xs[0].failed| == 0
    requires IsSystemRun(WorkerBody(), xs, acts) && Asleep(xs[n])
    ensures NothingMissed(xs[n])
  {
    WorkerShape(xs[0]);
    RunSafely(WorkerBody(), xs, acts, n);
    WorkerShape(xs[n]);
    AsleepMissesNothing(WorkerBody(), xs[n]);
  }

  /** The same for ModuleHub::run_loop, whatever mix of modules it has. */
  lemma HubMissesNothing(ms: Modules, xs: seq<System>, acts: seq<Act>, n: nat)
    requires n < |xs| && Hub(ms, xs[0])
    requires IsSystemRun(HubBody(ms), xs, acts) && Asleep(xs[n])
    ensures NothingMissed(xs[n])
  {
    HubBodyShape(ms, xs[0]);
    RunSafely(HubBody(ms), xs, acts, n);
    HubBodyShape(ms, xs[n]);
    AsleepMissesNothing(HubBody(ms), xs[n]);
  }

  /** Once every notification has been sent, a loop that has something to do can leave its wait. */
  lemma WakesUp(body: Body, x: System)
    requires Safe(body, x) && Complete(body, x) && x.loop.at.Parked? && x.owed == multiset{}
    requires x.stop || (exists i :: 0 <= i < |x.buses| && x.buses[i] > 0) || (exists i :: 0 <= i < |x.failed| && x.failed[i])
      || (exists i :: 0 <= i < |x.managers| && TaskLive.ReadyOrder(x.managers[i].s) != [])
    ensures x.gen != x.loop.captured && SystemStep(body, x, Wake, Goto(x, AtTop))
  {
    if Asleep(x) {
      AsleepMissesNothing(body, x);
      forall i | 0 <= i < |x.managers|
        ensures TaskLive.ReadyOrder(x.managers[i].s) == []
      {
        assert SleepsWell(x, i);
        NoneListed(x, i);
      }
    }
  }

  lemma NoneListed(x: System, i: nat)
    requires i < |x.managers| && TaskWorld.WorldInv(x.managers[i]) && x.owed == multiset{} && forall id :: ReadyOwed(x, i, id)
    ensures TaskLive.ReadyOrder(x.managers[i].s) == []
  {
    var s := x.managers[i].s;
    TaskLive.ReadyCountIsLive(s, TaskWorld.Owed(x.managers[i]));
    forall id
      ensures id !in TaskInvariant.WaitingIds(s.ctl)
    {
      assert ReadyOwed(x, i, id);
    }
    assert TaskInvariant.WaitingIds(s.ctl) == {};
  }
}
