/** process() as one thread of the interleaved scheduler: whatever the callbacks do, a call is a run of the
    small steps, so everything proved of runs holds of calls. */
module TaskProcessRuns {
  import opened TaskTypes
  import opened TaskOps
  import opened TaskInvariant
  import TaskSteps
  import opened TaskProcess
  import TaskSnapshot
  import opened TaskWorld

  // ---------- paths ----------

  datatype Path = End | Then(a: Action, next: World, rest: Path)

  ghost predicate IsPath(w: World, p: Path)
    decreases p
  {
    p.Then? ==> Step(w, p.a, p.next) && IsPath(p.next, p.rest)
  }

  function Final(w: World, p: Path): World
    decreases p
  {
    if p.End? then w else Final(p.next, p.rest)
  }

  /** The tasks that the consumer starts on the way. */
  function StartsOn(w: World, p: Path): seq<TaskId>
    decreases p
  {
    if p.End? then []
    else (if p.a.Cas? && w.s.batch != [] && Start(w.s).1 then [w.s.batch[0].id] else []) + StartsOn(p.next, p.rest)
  }

  function Join(p: Path, q: Path): Path {
    if p.End? then q else Then(p.a, p.next, Join(p.rest, q))
  }

  lemma {:induction false} JoinPath(w: World, p: Path, q: Path)
    requires IsPath(w, p) && IsPath(Final(w, p), q)
    ensures IsPath(w, Join(p, q)) && Final(w, Join(p, q)) == Final(Final(w, p), q)
    decreases p
  {
    if p.End? {
    } else {
      JoinPath(p.next, p.rest, q);
      assert Join(p, q) == Then(p.a, p.next, Join(p.rest, q));
    }
  }

  lemma {:induction false} JoinStarts(w: World, p: Path, q: Path)
    ensures StartsOn(w, Join(p, q)) == StartsOn(w, p) + StartsOn(Final(w, p), q)
    decreases p
  {
    if p.End? {
    } else {
      JoinStarts(p.next, p.rest, q);
      assert Join(p, q) == Then(p.a, p.next, Join(p.rest, q));
    }
  }

  function Acts(p: Path): seq<Action> {
    if p.End? then [] else [p.a] + Acts(p.rest)
  }

  function Worlds(w: World, p: Path): seq<World>
    decreases p
  {
    if p.End? then [w] else [w] + Worlds(p.next, p.rest)
  }

  lemma {:induction false} PathRun(w: World, p: Path)
    requires WorldInv(w) && IsPath(w, p)
    ensures IsRun(Worlds(w, p), Acts(p)) && Worlds(w, p)[0] == w && Worlds(w, p)[|Acts(p)|] == Final(w, p)
    decreases p
  {
    if p.End? {
    } else {
      StepKeeps(w, p.a, p.next);
      PathRun(p.next, p.rest);
      PathGrows(w, p);
    }
  }

  lemma PathGrows(w: World, p: Path)
    requires p.Then? && WorldInv(w) && Step(w, p.a, p.next) && IsRun(Worlds(p.next, p.rest), Acts(p.rest))
    requires Worlds(p.next, p.rest)[0] == p.next
    ensures IsRun(Worlds(w, p), Acts(p))
  {
    var (ws, acts) := (Worlds(w, p), Acts(p));
    forall i | 0 <= i < |acts|
      ensures StepAt(ws, acts, i)
    {
      if i > 0 {
        assert StepAt(Worlds(p.next, p.rest), Acts(p.rest), i - 1);
      }
    }
  }

  /** There is a way from `w` to `w'` on which the tasks `ids` start, in that order. */
  ghost predicate Leads(w: World, ids: seq<TaskId>, w': World) {
    exists p :: IsPath(w, p) && Final(w, p) == w' && StartsOn(w, p) == ids
  }

  lemma Stays(w: World)
    ensures Leads(w, [], w)
  {
    assert IsPath(w, End) && Final(w, End) == w && StartsOn(w, End) == [];
  }

  lemma Steps(w: World, a: Action, w': World, ids: seq<TaskId>)
    requires Step(w, a, w') && ids == if a.Cas? && w.s.batch != [] && Start(w.s).1 then [w.s.batch[0].id] else []
    ensures Leads(w, ids, w')
  {
    var p := Then(a, w', End);
    assert Final(w, p) == Final(w', p.rest) == w' && StartsOn(w', p.rest) == [];
    assert StartsOn(w, p) == ids + [] == ids;
    assert IsPath(w', p.rest) && IsPath(w, p);
  }

  lemma Onwards(w: World, ids: seq<TaskId>, u: World, more: seq<TaskId>, w': World)
    requires Leads(w, ids, u) && Leads(u, more, w')
    ensures Leads(w, ids + more, w')
  {
    var p :| IsPath(w, p) && Final(w, p) == u && StartsOn(w, p) == ids;
    var q :| IsPath(u, q) && Final(u, q) == w' && StartsOn(u, q) == more;
    JoinPath(w, p, q);
    JoinStarts(w, p, q);
    assert IsPath(w, Join(p, q));
  }

  // ---------- the clock ----------

  /** The clock readings of a piece of user code never go back; `RunNow` is the clock value at its end. */
  ghost predicate RunClocks(s: Sched, c: Callback, replies: seq<Reply>, now: Time)
    decreases c.maxCalls - |replies|
  {
    match c.next(replies)
    case Call(op) =>
      if |replies| >= c.maxCalls then true
      else ClockOk(now, op) && RunClocks(Apply(s, op).0, c, replies + [Apply(s, op).1], Clock(now, op))
    case _ => true
  }

  function RunNow(s: Sched, c: Callback, replies: seq<Reply>, now: Time): Time
    decreases c.maxCalls - |replies|
  {
    match c.next(replies)
    case Call(op) =>
      if |replies| >= c.maxCalls then now else RunNow(Apply(s, op).0, c, replies + [Apply(s, op).1], Clock(now, op))
    case _ => now
  }

  ghost predicate StartedClocks(s: Sched, id: TaskId, program: Program, handler: Handler, now: Time)
    requires s.running != []
  {
    var c := program(id);
    var body := Run(Decrement(s), c, []);
    var t := RunNow(Decrement(s), c, [], now);
    && RunClocks(Decrement(s), c, [], now)
    && (!body.threw ==> t <= c.finishNow <= c.finishLockedNow)
    && (body.threw && handler.Handler? ==> RunClocks(FinishException(body.s), handler.handle(id), [], t))
  }

  function StartedNow(s: Sched, id: TaskId, program: Program, handler: Handler, now: Time): Time
    requires s.running != []
  {
    var c := program(id);
    var body := Run(Decrement(s), c, []);
    var t := RunNow(Decrement(s), c, [], now);
    if !body.threw then c.finishLockedNow
    else if handler.Handler? then RunNow(FinishException(body.s), handler.handle(id), [], t) else t
  }

  ghost predicate BatchClocks(s: Sched, program: Program, handler: Handler, now: Time)
    requires s.running == []
    decreases |s.batch|
  {
    s.batch != [] ==>
      var (id, (t, started)) := (s.batch[0].id, Start(s));
      if !started then BatchClocks(t, program, handler, now)
      else
        && StartedClocks(t, id, program, handler, now)
        && var one := RunStarted(t, id, program, handler);
           (!one.threw ==> BatchClocks(one.s, program, handler, StartedNow(t, id, program, handler, now)))
  }

  // ---------- user code ----------

  lemma CancelLeads(w: World, id: TaskId)
    requires WorldInv(w) && w.mutex.Free?
    ensures Leads(w, [], w.(s := Cancel(w.s, id).0))
  {
    assert TaskOk(w.s, id);
    if id in w.s.index {
      var u := w.(mutex := Loaded(id, w.s.ctl[id].state));
      var v := w.(s := Cancel(w.s, id).0);
      assert Step(w, Load(id), u) && Step(u, TryCancel, v);
      Steps(w, Load(id), u, []);
      Steps(u, TryCancel, v, []);
      Onwards(w, [], u, [], v);
    } else {
      Stays(w);
    }
  }

  lemma CallLeads(w: World, op: Op)
    requires WorldInv(w) && w.mutex.Free? && ClockOk(w.now, op)
    ensures Leads(w, [], w.(s := Apply(w.s, op).0, now := Clock(w.now, op)))
  {
    var v := w.(s := Apply(w.s, op).0, now := Clock(w.now, op));
    if op.OpCancel? {
      CancelLeads(w, op.id);
    } else {
      Steps(w, Request(op), v, []);
    }
  }

  lemma CallKeeps(w: World, op: Op)
    requires WorldInv(w) && w.mutex.Free?
    ensures WorldInv(w.(s := Apply(w.s, op).0, now := Clock(w.now, op)))
  {
    TaskSteps.KeepsApply(w.s, op, Owed(w));
    ApplyFrame(w.s, op);
  }

  lemma {:induction false} RunLeads(w: World, c: Callback, replies: seq<Reply>)
    requires WorldInv(w) && w.mutex.Free? && RunClocks(w.s, c, replies, w.now)
    ensures var u := w.(s := Run(w.s, c, replies).s, now := RunNow(w.s, c, replies, w.now));
      WorldInv(u) && Leads(w, [], u)
    decreases c.maxCalls - |replies|
  {
    if c.next(replies).Call? && |replies| < c.maxCalls {
      var op := c.next(replies).op;
      var v := w.(s := Apply(w.s, op).0, now := Clock(w.now, op));
      CallLeads(w, op);
      CallKeeps(w, op);
      RunLeads(v, c, replies + [Apply(w.s, op).1]);
      RunUnfold(w.s, c, replies);
      Onwards(w, [], v, [], w.(s := Run(w.s, c, replies).s, now := RunNow(w.s, c, replies, w.now)));
    } else {
      Stays(w);
    }
  }

  // ---------- one snapshot entry ----------

  /** From the consumer's CAS to the end of the callback. */
  lemma BodyLeads(w: World, id: TaskId, program: Program)
    requires WorldInv(w) && w.mutex.Free? && w.phase == Owing && w.s.running != []
    requires RunClocks(Decrement(w.s), program(id), [], w.now)
    ensures var u := World(Run(Decrement(w.s), program(id), []).s, InCallback, Free, RunNow(Decrement(w.s), program(id), [], w.now));
      WorldInv(u) && Leads(w, [], u)
  {
    var v := w.(s := Decrement(w.s), phase := InCallback);
    assert Step(w, Decrease, v);
    StepKeeps(w, Decrease, v);
    Steps(w, Decrease, v, []);
    RunLeads(v, program(id), []);
    Onwards(w, [], v, [], v.(s := Run(v.s, program(id), []).s, now := RunNow(v.s, program(id), [], v.now)));
  }

  /** After an exception: the handler, if there is one. */
  lemma FailedLeads(w: World, id: TaskId, handler: Handler)
    requires WorldInv(w) && w.mutex.Free? && w.phase == InCallback && w.s.running != []
    requires handler.Handler? ==> RunClocks(FinishException(w.s), handler.handle(id), [], w.now)
    ensures var x := FinishException(w.s);
      var u := if handler.NoHandler? then World(x, Failed, Free, w.now)
        else World(Run(x, handler.handle(id), []).s, Failed, Free, RunNow(x, handler.handle(id), [], w.now));
      WorldInv(u) && Leads(w, [], u)
  {
    var v := w.(s := FinishException(w.s), phase := Failed);
    assert Step(w, Throw, v);
    StepKeeps(w, Throw, v);
    Steps(w, Throw, v, []);
    if handler.Handler? {
      RunLeads(v, handler.handle(id), []);
      Onwards(w, [], v, [], v.(s := Run(v.s, handler.handle(id), []).s, now := RunNow(v.s, handler.handle(id), [], v.now)));
    }
  }

  /** The started entry ends well, or its exception escapes. */
  lemma StartedLeads(w: World, id: TaskId, program: Program, handler: Handler)
    requires WorldInv(w) && w.mutex.Free? && w.phase == Owing && w.s.running != [] && StartedClocks(w.s, id, program, handler, w.now)
    ensures var one := RunStarted(w.s, id, program, handler);
      var u := World(one.s, if one.threw then Failed else Visiting, Free, StartedNow(w.s, id, program, handler, w.now));
      WorldInv(u) && Leads(w, [], u)
  {
    var c := program(id);
    var body := Run(Decrement(w.s), c, []);
    var v := World(body.s, InCallback, Free, RunNow(Decrement(w.s), c, [], w.now));
    BodyLeads(w, id, program);
    assert body.s.running == w.s.running;
    var one := RunStarted(w.s, id, program, handler);
    var u := World(one.s, if one.threw then Failed else Visiting, Free, StartedNow(w.s, id, program, handler, w.now));
    if !body.threw {
      assert Step(v, Finish(c.finishNow, c.finishLockedNow), u);
      StepKeeps(v, Finish(c.finishNow, c.finishLockedNow), u);
      Steps(v, Finish(c.finishNow, c.finishLockedNow), u, []);
    } else {
      FailedLeads(v, id, handler);
      if !one.threw {
        var f := u.(phase := Failed);
        assert Step(f, TaskWorld.Handled, u);
        Steps(f, TaskWorld.Handled, u, []);
        Onwards(v, [], f, [], u);
      }
    }
    Onwards(w, [], v, [], u);
  }

  // ---------- a whole call ----------

  ghost function BatchNow(s: Sched, program: Program, handler: Handler, now: Time): Time
    requires s.running == []
    decreases |s.batch|
  {
    if s.batch == [] then now
    else
      var (id, (t, started)) := (s.batch[0].id, Start(s));
      if !started then BatchNow(t, program, handler, now)
      else
        var one := RunStarted(t, id, program, handler);
        var u := StartedNow(t, id, program, handler, now);
        if one.threw then u else BatchNow(one.s, program, handler, u)
  }

  /** Where the consumer is when it leaves process(). */
  ghost function AfterBatch(s: Sched, program: Program, handler: Handler, now: Time): World
    requires s.running == []
  {
    World(RunBatch(s, program, handler).s, Idle, Free, BatchNow(s, program, handler, now))
  }

  /** The next entry of the snapshot is started. */
  lemma StartLeads(w: World)
    requires WorldInv(w) && w.mutex.Free? && w.phase == Visiting && w.s.batch != []
    ensures var (t, started) := Start(w.s); var u := w.(s := t, phase := if started then Owing else Visiting);
      WorldInv(u) && Leads(w, if started then [w.s.batch[0].id] else [], u)
  {
    var u := w.(s := Start(w.s).0, phase := if Start(w.s).1 then Owing else Visiting);
    assert Step(w, Cas, u);
    StepKeeps(w, Cas, u);
    Steps(w, Cas, u, if Start(w.s).1 then [w.s.batch[0].id] else []);
  }

  lemma EscapedLeads(w: World)
    requires WorldInv(w) && w.mutex.Free? && w.phase == Failed
    ensures Leads(w, [], World(Restore(w.s), Idle, Free, w.now))
  {
    Steps(w, GiveBack, World(Restore(w.s), Idle, Free, w.now), []);
  }

  lemma {:induction false} BatchLeads(w: World, program: Program, handler: Handler)
    requires WorldInv(w) && w.mutex.Free? && w.phase == Visiting && BatchClocks(w.s, program, handler, w.now)
    ensures Leads(w, TaskSnapshot.Starts(RunBatch(w.s, program, handler).log), AfterBatch(w.s, program, handler, w.now))
    decreases |w.s.batch|
  {
    if w.s.batch == [] {
      Steps(w, Leaving, w.(phase := Idle), []);
    } else {
      var id := w.s.batch[0].id;
      var (t, started) := Start(w.s);
      StartLeads(w);
      if !started {
        var u := w.(s := t);
        BatchLeads(u, program, handler);
        Onwards(w, [], u, TaskSnapshot.Starts(RunBatch(t, program, handler).log), AfterBatch(t, program, handler, w.now));
      } else {
        EntryLeads(w, w.(s := t, phase := Owing), id, program, handler);
      }
    }
  }

  lemma {:induction false} EntryLeads(w: World, v: World, id: TaskId, program: Program, handler: Handler)
    requires w.s.running == [] && w.s.batch != [] && id == w.s.batch[0].id && Start(w.s) == (v.s, true) && v == w.(s := v.s, phase := Owing)
    requires WorldInv(v) && v.mutex.Free? && BatchClocks(w.s, program, handler, w.now) && Leads(w, [id], v)
    ensures Leads(w, TaskSnapshot.Starts(RunBatch(w.s, program, handler).log), AfterBatch(w.s, program, handler, w.now))
    decreases |w.s.batch|, 0
  {
    var one := RunStarted(v.s, id, program, handler);
    var u := World(one.s, if one.threw then Failed else Visiting, Free, StartedNow(v.s, id, program, handler, v.now));
    EntryClocks(w.s, v.s, program, handler, w.now);
    StartedLeads(v, id, program, handler);
    Onwards(w, [id], v, [], u);
    EntryStarts(w.s, id, program, handler);
    if one.threw {
      EscapedLeads(u);
      Onwards(w, [id] + [], u, [], World(Restore(u.s), Idle, Free, u.now));
    } else {
      BatchLeads(u, program, handler);
      Onwards(w, [id] + [], u, TaskSnapshot.Starts(RunBatch(one.s, program, handler).log), AfterBatch(one.s, program, handler, u.now));
      assert [id] + [] == [id];
    }
  }

  /** The rest of the call after a started entry. */
  lemma EntryClocks(s: Sched, t: Sched, program: Program, handler: Handler, now: Time)
    requires s.running == [] && s.batch != [] && Start(s) == (t, true) && BatchClocks(s, program, handler, now)
    ensures var (id, u) := (s.batch[0].id, StartedNow(t, s.batch[0].id, program, handler, now));
      var one := RunStarted(t, id, program, handler);
      && StartedClocks(t, id, program, handler, now)
      && (one.threw ==> AfterBatch(s, program, handler, now) == World(Restore(one.s), Idle, Free, u))
      && (!one.threw ==> BatchClocks(one.s, program, handler, u) && AfterBatch(s, program, handler, now) == AfterBatch(one.s, program, handler, u))
  {
  }

  /** What a started entry adds to the log. */
  lemma EntryStarts(s: Sched, id: TaskId, program: Program, handler: Handler)
    requires s.running == [] && s.batch != [] && id == s.batch[0].id && Start(s).1
    ensures var one := RunStarted(Start(s).0, id, program, handler);
      TaskSnapshot.Starts(RunBatch(s, program, handler).log) ==
        [id] + if one.threw then [] else TaskSnapshot.Starts(RunBatch(one.s, program, handler).log)
  {
    var one := RunStarted(Start(s).0, id, program, handler);
    TaskSnapshot.StartedVisitsNothing(Start(s).0, id, program, handler);
    if one.threw {
      TaskSnapshot.LogConcat([Started(id)], one.log);
    } else {
      var rest := RunBatch(one.s, program, handler).log;
      TaskSnapshot.LogConcat([Started(id)] + one.log, rest);
      TaskSnapshot.LogConcat([Started(id)], one.log);
    }
  }

  /** The clock readings of a call never go back. */
  ghost predicate ProcessClocks(s: Sched, maxTasks: nat, now: Time, program: Program, handler: Handler)
    requires s.batch == [] && s.running == []
  {
    if maxTasks == 0 then true
    else
      PromoteFrame(s, now);
      TakeFrame(Promote(s, now), maxTasks);
      BatchClocks(Take(Promote(s, now), maxTasks), program, handler, now)
  }

  /** Every call of process() is a run of the consumer's small steps and of the calls that its callbacks and
      its exception handler make: the tasks that start in the run are those that the call logs as started,
      in the same order, and the run ends where the call ends. */
  lemma ProcessIsRun(s: Sched, maxTasks: nat, before: Time, now: Time, program: Program, handler: Handler)
    returns (ws: seq<World>, acts: seq<Action>, p: Path)
    requires Inv(s, 0) && s.batch == [] && s.running == [] && before <= now && ProcessClocks(s, maxTasks, now, program, handler)
    ensures IsRun(ws, acts) && ws[0] == World(s, Idle, Free, before)
    ensures ws == Worlds(ws[0], p) && acts == Acts(p) && StartsOn(ws[0], p) == TaskSnapshot.Starts(Process(s, maxTasks, now, program, handler).log)
    ensures var w := ws[|acts|]; w.s == Process(s, maxTasks, now, program, handler).s && w.phase == Idle && w.mutex == Free
  {
    var w := World(s, Idle, Free, before);
    var r := Process(s, maxTasks, now, program, handler);
    if maxTasks == 0 {
      Stays(w);
      p :| IsPath(w, p) && Final(w, p) == w && StartsOn(w, p) == [];
    } else {
      PromoteFrame(s, now);
      TakeFrame(Promote(s, now), maxTasks);
      var v := World(Take(Promote(s, now), maxTasks), Visiting, Free, now);
      assert Step(w, Enter(maxTasks, now), v);
      StepKeeps(w, Enter(maxTasks, now), v);
      Steps(w, Enter(maxTasks, now), v, []);
      BatchLeads(v, program, handler);
      var end := AfterBatch(v.s, program, handler, now);
      Onwards(w, [], v, TaskSnapshot.Starts(r.log), end);
      assert [] + TaskSnapshot.Starts(r.log) == TaskSnapshot.Starts(r.log);
      p :| IsPath(w, p) && Final(w, p) == end && StartsOn(w, p) == TaskSnapshot.Starts(r.log);
    }
    PathRun(w, p);
    ws, acts := Worlds(w, p), Acts(p);
  }
}
