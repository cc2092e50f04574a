/** Two runs in which another thread's process() starts the first task of a rule before add_rule has
    recorded it: in one the rule loses track of its task, in the other its planned time goes back. */
module CalendarRace {
  import opened TaskTypes
  import opened TaskOps
  import TaskInvariant
  import opened TaskWorld
  import opened CalendarScan
  import opened CalendarPlans
  import opened CalendarCore
  import CalendarRuns

  // ---------- two rules ----------

  function Midnight(): Search {
    Search(FixedOffset(0), day => [0], 2)
  }

  /** Midnight, every day, in UTC; the last time on record is a millisecond before midnight of day 0, a
      missed time is run at once, and overdue times are skipped. */
  function Midnights(): Options {
    Options(Midnight(), Some(-1), RunOnceImmediately, SkipOverdue, 1)
  }

  /** The same up to midnight of day 2, with overdue times run one by one. */
  function CatchUp(): Options {
    Options(Midnight(), Some(2 * MS_PER_DAY - 1), RunOnceImmediately, QueueOneAfterCurrent, 1)
  }

  lemma MidnightSound()
    ensures Sound(Midnight())
  {
    FixedOffsetLawful(0);
    forall day: int
      ensures Normal(Midnight().slots(day))
    {
    }
  }

  /** The midnight that ends day `day` is the next one from any time in it. */
  lemma NextMidnight(day: int, after: int)
    requires Local(day, 0) <= after < Local(day + 1, 0)
    ensures NextTime(Midnight(), after) == Some(Local(day + 1, 0))
  {
    var q := Midnight();
    assert FirstDay(q, after) == day;
    assert ScanDay(q.zone, after, day, q.slots(day), 0) == ScanDay(q.zone, after, day, q.slots(day), 1) == None;
    assert ScanDay(q.zone, after, day + 1, q.slots(day + 1), 0) == Some(Local(day + 1, 0));
    assert ScanDays(q, after, day, day + 2) == ScanDays(q, after, day + 1, day + 2) == Some(Local(day + 1, 0));
  }

  /** The missed midnight of day 0 is run at once; the next one is that of day 1. */
  lemma MidnightPlans()
    ensures var o := Midnights();
      && FirstPlan(o.search, o.lastDue, 0, o.missed).plan == Some(Plan(0, true))
      && PlanAfterRun(o.search, 0, 0, o.overlap).plan == Some(Plan(MS_PER_DAY, false))
  {
    NextMidnight(-1, -1);
    NextMidnight(0, 0);
  }

  /** The missed midnight of day 2 is run at once; from time zero the next one is that of day 1. */
  lemma CatchUpPlans()
    ensures var o := CatchUp();
      && FirstPlan(o.search, o.lastDue, 2 * MS_PER_DAY, o.missed).plan == Some(Plan(2 * MS_PER_DAY, true))
      && PlanAfterRun(o.search, 0, 2 * MS_PER_DAY, o.overlap).plan == Some(Plan(MS_PER_DAY, true))
  {
    NextMidnight(1, 2 * MS_PER_DAY - 1);
    NextMidnight(0, 0);
  }

  // ---------- the manager, step by step ----------

  const FIRST: Entry := Entry(1, 1, 1, 0, false, 0, FixedDelay, 0)
  const SECOND: Entry := Entry(2, 2, 1, MS_PER_DAY, false, 0, FixedDelay, 0)
  const AT_ONCE: Entry := Entry(2, 2, 1, 0, false, 0, FixedDelay, 0)

  function OneTask(st: State): TaskInvariant.Controls {
    map[1 := Control(st, false, false, 0)]
  }

  function TwoTasks(st: State): TaskInvariant.Controls {
    map[1 := Control(st, false, false, 0), 2 := Control(QueuedDelayed, false, false, 0)]
  }

  const QUEUED: Sched := Sched([[], [FIRST], []], [], [], [], OneTask(QueuedReady), {1}, 1, 1, 2, 2, false)
  const TAKEN: Sched := Sched([[], [], []], [], [FIRST], [], OneTask(ReadySnapshot), {1}, 0, 1, 2, 2, false)
  const STARTED: Sched := Sched([[], [], []], [], [], [FIRST], OneTask(Executing), {1}, 0, 1, 2, 2, false)
  const CALLED: Sched := STARTED.(pendingCount := 0)
  const AGAIN: Sched := Sched([[], [], []], [SECOND], [], [FIRST], TwoTasks(Executing), {1, 2}, 0, 1, 3, 3, false)
  const SOON: Sched := Sched([[], [AT_ONCE], []], [], [], [FIRST],
                             map[1 := Control(Executing, false, false, 0), 2 := Control(QueuedReady, false, false, 0)],
                             {1, 2}, 1, 1, 3, 3, false)
  const ENDED: Sched := Sched([[], [], []], [SECOND], [], [], TwoTasks(Completed), {2}, 0, 1, 3, 3, false)

  lemma FirstQueued()
    ensures Apply(EMPTY, OpPostAt(true, 0, 1, 0)).0 == QUEUED
  {
    assert EMPTY.ready[1] + [FIRST] == [FIRST];
    assert EMPTY.ready[1 := [FIRST]] == [[], [FIRST], []];
  }

  lemma FirstTaken()
    ensures Take(Promote(QUEUED, 0), 1) == TAKEN
  {
    assert Promote(QUEUED, 0) == QUEUED;
    assert TakeFrom(QUEUED, 0, 1) == QUEUED;
    assert [FIRST][1..] == [];
    assert QUEUED.ready[1 := []] == [[], [], []];
    assert QUEUED.ctl[1 := Control(ReadySnapshot, false, false, 0)] == TAKEN.ctl;
    assert TakeFront(QUEUED, 1) == TAKEN;
    assert TakeFrom(QUEUED, 1, 1) == TakeFrom(TAKEN, 1, 1) == TAKEN;
    assert TakeFrom(TAKEN, 2, 1) == TAKEN;
  }

  lemma FirstStarted()
    ensures Start(TAKEN) == (STARTED, true) && TaskOps.Decrement(STARTED) == CALLED
  {
    assert [FIRST][1..] == [];
    assert TAKEN.ctl[1 := Control(Executing, false, false, 0)] == STARTED.ctl;
  }

  lemma SecondQueued()
    ensures Apply(CALLED, OpPostAt(true, MS_PER_DAY, 1, 0)).0 == AGAIN
  {
    assert TaskOps.Insert([], SECOND) == [SECOND];
    assert CALLED.ctl[2 := Control(QueuedDelayed, false, false, 0)] == AGAIN.ctl;
    assert CALLED.index + {2} == AGAIN.index;
  }

  lemma SecondAtOnce()
    ensures Apply(CALLED, OpPostAt(true, 0, 1, 0)).0 == SOON
  {
    assert CALLED.ready[1] + [AT_ONCE] == [AT_ONCE];
    assert CALLED.ready[1 := [AT_ONCE]] == [[], [AT_ONCE], []];
    assert CALLED.ctl[2 := Control(QueuedReady, false, false, 0)] == SOON.ctl;
    assert CALLED.index + {2} == SOON.index;
  }

  lemma FirstEnded()
    ensures FinishSuccess(AGAIN, 0, 0) == ENDED
  {
    assert AGAIN.index - {1} == ENDED.index;
    assert AGAIN.ctl[1 := Control(Completed, false, false, 0)] == ENDED.ctl;
  }

  // ---------- runs ----------

  /** A run of `k` steps from the start to `x`. */
  ghost predicate Leads(xs: seq<Cal>, acts: seq<CalAct>, k: nat, x: Cal) {
    |acts| == k && IsCalRun(xs, acts) && xs[0] == START_CAL && xs[k] == x
  }

  lemma Extend(xs: seq<Cal>, acts: seq<CalAct>, k: nat, act: CalAct, x: Cal, y: Cal) returns (more: seq<Cal>, all: seq<CalAct>)
    requires Leads(xs, acts, k, x) && CalStep(x, act, y)
    ensures Leads(more, all, k + 1, y) && more == xs + [y] && all == acts + [act]
  {
    more, all := xs + [y], acts + [act];
    forall i | 0 <= i < |all|
      ensures CalStepAt(more, all, i)
    {
      if i < k {
        assert CalStepAt(xs, acts, i);
      }
    }
  }

  /** The scheduler's side: rule 1 and what is known of it. */
  function Scene(o: Options, s: Sched, phase: Phase, rule: RuleState, owner: map<TaskId, CalId>, plans: map<TaskId, int>,
                 newest: map<CalId, TaskId>, adding: map<CalId, Adding>, run: Run, raced: set<CalId>): Cal
  {
    Cal(World(s, phase, Free, 0), Core(map[1 := rule], 2, false), map[1 := o], owner, plans, newest, adding, {}, run, raced)
  }

  const NEW_RULE: RuleState := RuleState(0, 0, 0)

  function Added(o: Options): Cal {
    Scene(o, EMPTY, Idle, NEW_RULE, map[], map[], map[], map[1 := Inserted], NoRun, {})
  }

  /** Task 1, planned for `p`, has been submitted and not recorded. */
  function Posting(o: Options, p: int, s: Sched, phase: Phase, rule: RuleState, run: Run, raced: set<CalId>): Cal {
    Scene(o, s, phase, rule, map[1 := 1], map[1 := p], map[1 := 1], map[1 := Posted(1, p)], run, raced)
  }

  /** The first plan of the rule, at clock reading `now`, is to run at once for time `p`. */
  ghost predicate AtOnce(o: Options, p: int, now: int) {
    Sound(o.search) && o.priority == 1 && FirstPlan(o.search, o.lastDue, now, o.missed).plan == Some(Plan(p, true))
  }

  lemma MidnightsAtOnce()
    ensures AtOnce(Midnights(), 0, 0)
  {
    MidnightSound();
    MidnightPlans();
  }

  lemma CatchUpAtOnce()
    ensures AtOnce(CatchUp(), 2 * MS_PER_DAY, 2 * MS_PER_DAY)
  {
    MidnightSound();
    CatchUpPlans();
  }

  lemma Inserts(o: Options)
    requires Sound(o.search)
    ensures CalStep(START_CAL, CalAct.Insert(o), Added(o))
  {
  }

  lemma Posts(o: Options, p: int, now: int)
    requires AtOnce(o, p, now)
    ensures CalStep(Added(o), Post(1, now, 0, 0), Posting(o, p, QUEUED, Idle, NEW_RULE, NoRun, {}))
  {
    FirstQueued();
    assert map[][1 := 1] == map[1 := 1];
  }

  lemma Enters(o: Options, p: int)
    ensures CalStep(Posting(o, p, QUEUED, Idle, NEW_RULE, NoRun, {}), Plain(Enter(1, 0)),
                    Posting(o, p, TAKEN, Visiting, NEW_RULE, NoRun, {}))
  {
    FirstTaken();
  }

  lemma Starts(o: Options, p: int)
    ensures CalStep(Posting(o, p, TAKEN, Visiting, NEW_RULE, NoRun, {}), StartOwn,
                    Posting(o, p, STARTED, Owing, NEW_RULE, Starting, {}))
  {
    FirstStarted();
  }

  lemma Calls(o: Options, p: int)
    ensures CalStep(Posting(o, p, STARTED, Owing, NEW_RULE, Starting, {}), Plain(Decrease),
                    Posting(o, p, CALLED, InCallback, NEW_RULE, Starting, {}))
  {
    FirstStarted();
  }

  lemma Begins(o: Options, p: int)
    ensures CalStep(Posting(o, p, CALLED, InCallback, NEW_RULE, Starting, {}), Begin,
                    Posting(o, p, CALLED, InCallback, NEW_RULE, Running(1, 0, 0), {1}))
  {
  }

  lemma LeadsToPosted(o: Options, p: int, now: int) returns (xs: seq<Cal>, acts: seq<CalAct>)
    requires AtOnce(o, p, now)
    ensures Leads(xs, acts, 2, Posting(o, p, QUEUED, Idle, NEW_RULE, NoRun, {})) && acts[1] == Post(1, now, 0, 0)
  {
    StartCal();
    assert Leads([START_CAL], [], 0, START_CAL);
    Inserts(o);
    xs, acts := Extend([START_CAL], [], 0, CalAct.Insert(o), START_CAL, Added(o));
    Posts(o, p, now);
    xs, acts := Extend(xs, acts, 1, Post(1, now, 0, 0), Added(o), Posting(o, p, QUEUED, Idle, NEW_RULE, NoRun, {}));
  }

  lemma LeadsToEntered(o: Options, p: int, now: int) returns (xs: seq<Cal>, acts: seq<CalAct>)
    requires AtOnce(o, p, now)
    ensures Leads(xs, acts, 3, Posting(o, p, TAKEN, Visiting, NEW_RULE, NoRun, {})) && acts[1] == Post(1, now, 0, 0)
  {
    xs, acts := LeadsToPosted(o, p, now);
    Enters(o, p);
    xs, acts := Extend(xs, acts, 2, Plain(Enter(1, 0)), Posting(o, p, QUEUED, Idle, NEW_RULE, NoRun, {}),
                       Posting(o, p, TAKEN, Visiting, NEW_RULE, NoRun, {}));
  }

  lemma LeadsToStarted(o: Options, p: int, now: int) returns (xs: seq<Cal>, acts: seq<CalAct>)
    requires AtOnce(o, p, now)
    ensures Leads(xs, acts, 4, Posting(o, p, STARTED, Owing, NEW_RULE, Starting, {})) && acts[1] == Post(1, now, 0, 0)
  {
    xs, acts := LeadsToEntered(o, p, now);
    Starts(o, p);
    xs, acts := Extend(xs, acts, 3, StartOwn, Posting(o, p, TAKEN, Visiting, NEW_RULE, NoRun, {}),
                       Posting(o, p, STARTED, Owing, NEW_RULE, Starting, {}));
  }

  lemma LeadsToCalled(o: Options, p: int, now: int) returns (xs: seq<Cal>, acts: seq<CalAct>)
    requires AtOnce(o, p, now)
    ensures Leads(xs, acts, 5, Posting(o, p, CALLED, InCallback, NEW_RULE, Starting, {})) && acts[1] == Post(1, now, 0, 0)
  {
    xs, acts := LeadsToStarted(o, p, now);
    Calls(o, p);
    xs, acts := Extend(xs, acts, 4, Plain(Decrease), Posting(o, p, STARTED, Owing, NEW_RULE, Starting, {}),
                       Posting(o, p, CALLED, InCallback, NEW_RULE, Starting, {}));
  }

  /** Another thread's process() begins to run task 1 before add_rule has come back. */
  lemma LeadsToBegun(o: Options, p: int, now: int) returns (xs: seq<Cal>, acts: seq<CalAct>)
    requires AtOnce(o, p, now)
    ensures Leads(xs, acts, 6, Posting(o, p, CALLED, InCallback, NEW_RULE, Running(1, 0, 0), {1}))
    ensures acts[1] == Post(1, now, 0, 0) && acts[5] == Begin
  {
    xs, acts := LeadsToCalled(o, p, now);
    Begins(o, p);
    xs, acts := Extend(xs, acts, 5, Begin, Posting(o, p, CALLED, InCallback, NEW_RULE, Starting, {}),
                       Posting(o, p, CALLED, InCallback, NEW_RULE, Running(1, 0, 0), {1}));
  }

  // ---------- the adder comes back after the run ----------

  function Late(s: Sched, phase: Phase, rule: RuleState, adding: map<CalId, Adding>, run: Run): Cal {
    Scene(Midnights(), s, phase, rule, map[1 := 1, 2 := 1], map[1 := 0, 2 := MS_PER_DAY], map[1 := 2], adding, run, {1})
  }

  const RETURNED: Cal := Posting(Midnights(), 0, CALLED, InCallback, RuleState(0, 0, 1), Planning(1, 0, 0, 0), {1})
  const REPLANNED: Cal := Late(AGAIN, InCallback, RuleState(0, 0, 1), map[1 := Posted(1, 0)], Ending(1, 2, MS_PER_DAY))
  const RERECORDED: Cal := Late(AGAIN, InCallback, RuleState(2, MS_PER_DAY, 1), map[1 := Posted(1, 0)], Run.Ended)
  const RESTED: Cal := Late(ENDED, Visiting, RuleState(2, MS_PER_DAY, 1), map[1 := Posted(1, 0)], NoRun)
  const RECORDED: Cal := Late(ENDED, Visiting, RuleState(1, 0, 1), map[], NoRun)

  lemma Comes()
    ensures CalStep(Posting(Midnights(), 0, CALLED, InCallback, NEW_RULE, Running(1, 0, 0), {1}), After(0), RETURNED)
  {
  }

  lemma Replans()
    ensures CalStep(RETURNED, Replan(0, 0), REPLANNED)
  {
    MidnightPlans();
    SecondQueued();
  }

  lemma Rerecords()
    ensures CalStep(REPLANNED, Rerecord, RERECORDED)
  {
  }

  lemma Rests()
    ensures CalStep(RERECORDED, Return(0, 0), RESTED)
  {
    FirstEnded();
  }

  lemma RecordsLate()
    ensures CalStep(RESTED, Record(1), RECORDED)
  {
  }

  lemma LeadsToReturned() returns (xs: seq<Cal>, acts: seq<CalAct>)
    ensures Leads(xs, acts, 7, RETURNED) && acts[1] == Post(1, 0, 0, 0) && acts[5] == Begin
  {
    MidnightsAtOnce();
    xs, acts := LeadsToBegun(Midnights(), 0, 0);
    Comes();
    xs, acts := Extend(xs, acts, 6, After(0), Posting(Midnights(), 0, CALLED, InCallback, NEW_RULE, Running(1, 0, 0), {1}), RETURNED);
  }

  lemma LeadsToReplanned() returns (xs: seq<Cal>, acts: seq<CalAct>)
    ensures Leads(xs, acts, 8, REPLANNED) && acts[1] == Post(1, 0, 0, 0) && acts[5] == Begin
  {
    xs, acts := LeadsToReturned();
    Replans();
    xs, acts := Extend(xs, acts, 7, Replan(0, 0), RETURNED, REPLANNED);
  }

  lemma LeadsToRested() returns (xs: seq<Cal>, acts: seq<CalAct>)
    ensures Leads(xs, acts, 10, RESTED) && acts[1] == Post(1, 0, 0, 0) && acts[5] == Begin && acts[8] == Rerecord
  {
    xs, acts := LeadsToReplanned();
    Rerecords();
    xs, acts := Extend(xs, acts, 8, Rerecord, REPLANNED, RERECORDED);
    Rests();
    xs, acts := Extend(xs, acts, 9, Return(0, 0), RERECORDED, RESTED);
  }

  lemma OutOfStep()
    ensures var x := RECORDED;
      && !RunsRule(x, 1) && 1 !in x.adding && CalendarRuns.LiveOf(x, 1) == {2} && HasState(x.w.s, 1, Completed)
      && !CalendarRuns.Agrees(x, 1)
  {
    assert Unstarted(RECORDED, 2);
  }

  /** A thread adds a rule and is held up between its two sections; meanwhile process() runs the rule's
      first task to its end, which plans and records the second. When the first thread comes back, the
      rule is at rest, its one live task is the second one, and it keeps the id and the time of the first,
      which is over. */
  lemma RaceRun() returns (xs: seq<Cal>, acts: seq<CalAct>)
    ensures IsCalRun(xs, acts) && xs[0] == START_CAL && |acts| == 11
    ensures acts[1] == Post(1, 0, 0, 0) && acts[5] == Begin && acts[8] == Rerecord && acts[10] == Record(1)
    ensures xs[10].core.tasks == map[1 := RuleState(2, MS_PER_DAY, 1)] && xs[11].core.tasks == map[1 := RuleState(1, 0, 1)]
    ensures var x := xs[11];
      && !RunsRule(x, 1) && 1 !in x.adding && CalendarRuns.LiveOf(x, 1) == {2} && HasState(x.w.s, 1, Completed)
      && !CalendarRuns.Agrees(x, 1)
  {
    OutOfStep();
    RecordsLate();
    xs, acts := LeadsToRested();
    xs, acts := Extend(xs, acts, 10, Record(1), RESTED, RECORDED);
  }

  // ---------- the adder comes back during the run ----------

  const KEPT: Cal := Scene(CatchUp(), CALLED, InCallback, RuleState(1, 2 * MS_PER_DAY, 0), map[1 := 1], map[1 := 2 * MS_PER_DAY],
                           map[1 := 1], map[], Running(1, 0, 0), {1})
  const COUNTED: Cal := KEPT.(core := Core(map[1 := RuleState(1, 2 * MS_PER_DAY, 1)], 2, false),
                              run := Planning(1, 0, 0, 2 * MS_PER_DAY))

  function Back(rule: RuleState, run: Run, raced: set<CalId>): Cal {
    Scene(CatchUp(), SOON, InCallback, rule, map[1 := 1, 2 := 1], map[1 := 2 * MS_PER_DAY, 2 := MS_PER_DAY], map[1 := 2], map[], run, raced)
  }

  const BEFORE: Cal := Back(RuleState(1, 2 * MS_PER_DAY, 1), Ending(1, 2, MS_PER_DAY), {1})
  const AFTERWARDS: Cal := Back(RuleState(2, MS_PER_DAY, 1), Run.Ended, {})

  lemma RecordsInRun()
    ensures CalStep(Posting(CatchUp(), 2 * MS_PER_DAY, CALLED, InCallback, NEW_RULE, Running(1, 0, 0), {1}), Record(1), KEPT)
  {
  }

  lemma CountsRun()
    ensures CalStep(KEPT, After(2 * MS_PER_DAY), COUNTED)
  {
  }

  lemma ReplansFromZero()
    ensures CalStep(COUNTED, Replan(0, 0), BEFORE)
  {
    CatchUpPlans();
    SecondAtOnce();
  }

  lemma RecordsBack()
    ensures CalStep(BEFORE, Rerecord, AFTERWARDS)
  {
  }

  lemma LeadsToKept() returns (xs: seq<Cal>, acts: seq<CalAct>)
    ensures Leads(xs, acts, 7, KEPT)
    ensures acts[1] == Post(1, 2 * MS_PER_DAY, 0, 0) && acts[5] == Begin && acts[6] == Record(1)
  {
    CatchUpAtOnce();
    xs, acts := LeadsToBegun(CatchUp(), 2 * MS_PER_DAY, 2 * MS_PER_DAY);
    RecordsInRun();
    xs, acts := Extend(xs, acts, 6, Record(1),
                       Posting(CatchUp(), 2 * MS_PER_DAY, CALLED, InCallback, NEW_RULE, Running(1, 0, 0), {1}), KEPT);
  }

  lemma LeadsToCounted() returns (xs: seq<Cal>, acts: seq<CalAct>)
    ensures Leads(xs, acts, 8, COUNTED) && xs[7] == KEPT
    ensures acts[1] == Post(1, 2 * MS_PER_DAY, 0, 0) && acts[5] == Begin && acts[6] == Record(1)
  {
    xs, acts := LeadsToKept();
    CountsRun();
    xs, acts := Extend(xs, acts, 7, After(2 * MS_PER_DAY), KEPT, COUNTED);
  }

  lemma LeadsToBefore() returns (xs: seq<Cal>, acts: seq<CalAct>)
    ensures Leads(xs, acts, 9, BEFORE) && xs[7] == KEPT && xs[8] == COUNTED
    ensures acts[1] == Post(1, 2 * MS_PER_DAY, 0, 0) && acts[5] == Begin && acts[6] == Record(1)
  {
    xs, acts := LeadsToCounted();
    ReplansFromZero();
    xs, acts := Extend(xs, acts, 8, Replan(0, 0), COUNTED, BEFORE);
  }

  /** A rule that runs its overdue times one by one: the thread that adds it comes back while its first
      task, of day 2, is running. That run goes on from time zero, so the next task is planned for day 1,
      and recorded so. */
  lemma GoesBackRun() returns (xs: seq<Cal>, acts: seq<CalAct>)
    ensures IsCalRun(xs, acts) && xs[0] == START_CAL && |acts| == 10
    ensures acts[1] == Post(1, 2 * MS_PER_DAY, 0, 0) && acts[5] == Begin && acts[6] == Record(1) && acts[9] == Rerecord
    ensures xs[7].core.tasks == map[1 := RuleState(1, 2 * MS_PER_DAY, 0)] && xs[10].core.tasks == map[1 := RuleState(2, MS_PER_DAY, 1)]
    ensures xs[8].run == Planning(1, 0, 0, 2 * MS_PER_DAY) && xs[10].plans == map[1 := 2 * MS_PER_DAY, 2 := MS_PER_DAY]
  {
    xs, acts := LeadsToBefore();
    RecordsBack();
    xs, acts := Extend(xs, acts, 9, Rerecord, BEFORE, AFTERWARDS);
  }
}
