/** When an exception escapes process(): told from the log of the call and from what the callbacks and
    the handler are, and what becomes of a task whose callback raised. */
module TaskOutcome {
  import opened TaskTypes
  import opened TaskOps
  import opened TaskInvariant
  import opened TaskSteps
  import TaskFate
  import opened TaskProcess
  import opened TaskSnapshot

  // ---------- following user code along the log ----------

  /** How user code ended, and what comes after its calls in the log. */
  datatype End = Strayed | Returned(rest: seq<Event>) | Raised(rest: seq<Event>)

  /** Follow strategy `c` along recorded calls: each call is the one the strategy makes after the replies
      it has had so far. */
  function Follow(c: Callback, replies: seq<Reply>, log: seq<Event>): End
    decreases |log|
  {
    match c.next(replies)
    case Return => Returned(log)
    case Raise => Raised(log)
    case Call(op) =>
      if |replies| >= c.maxCalls then Returned(log)
      else if log == [] || !log[0].Called? || log[0].op != op then Strayed
      else Follow(c, replies + [log[0].reply], log[1..])
  }

  predicate CallsOver(log: seq<Event>) {
    log == [] || !log[0].Called?
  }

  /** After the start of task `id` come exactly the calls of its callback, and then those of the handler
      if the callback raised and there is one. */
  predicate Faithful(id: TaskId, program: Program, handler: Handler, log: seq<Event>) {
    match Follow(program(id), [], log)
    case Strayed => false
    case Returned(rest) => CallsOver(rest)
    case Raised(rest) =>
      if handler.NoHandler? then CallsOver(rest)
      else
        var handled := Follow(handler.handle(id), [], rest);
        !handled.Strayed? && CallsOver(handled.rest)
  }

  predicate CallbackRaises(id: TaskId, program: Program, log: seq<Event>) {
    Follow(program(id), [], log).Raised?
  }

  /** The callback of `id` raised, and there is no handler or the handler raised too. */
  predicate Escapes(id: TaskId, program: Program, handler: Handler, log: seq<Event>) {
    var body := Follow(program(id), [], log);
    body.Raised? && (handler.NoHandler? || Follow(handler.handle(id), [], body.rest).Raised?)
  }

  ghost predicate OnlyCalls(log: seq<Event>) {
    forall x :: x in log ==> x.Called?
  }

  function EndOf(threw: bool, tail: seq<Event>): End {
    if threw then Raised(tail) else Returned(tail)
  }

  lemma FollowStep(c: Callback, replies: seq<Reply>, op: Op, reply: Reply, calls: seq<Event>, tail: seq<Event>, end: End)
    requires c.next(replies) == Call(op) && |replies| < c.maxCalls && Follow(c, replies + [reply], calls + tail) == end
    ensures Follow(c, replies, [Called(op, reply)] + calls + tail) == end
  {
    var log := [Called(op, reply)] + calls + tail;
    assert log[0] == Called(op, reply) && log[1..] == calls + tail;
  }

  lemma FollowEnd(c: Callback, replies: seq<Reply>, tail: seq<Event>)
    requires !c.next(replies).Call? || |replies| >= c.maxCalls
    ensures Follow(c, replies, [] + tail) == EndOf(c.next(replies).Raise?, tail)
  {
    assert [] + tail == tail;
  }

  lemma {:induction false} RunFollows(s: Sched, c: Callback, replies: seq<Reply>, tail: seq<Event>)
    ensures Follow(c, replies, Run(s, c, replies).log + tail) == EndOf(Run(s, c, replies).threw, tail)
    decreases c.maxCalls - |replies|
  {
    var move := c.next(replies);
    if !move.Call? || |replies| >= c.maxCalls {
      RunEnd(s, c, replies);
      FollowEnd(c, replies, tail);
    } else {
      var (t, reply) := Apply(s, move.op);
      var rest := Run(t, c, replies + [reply]);
      RunUnfold(s, c, replies);
      RunFollows(t, c, replies + [reply], tail);
      FollowStep(c, replies, move.op, reply, rest.log, tail, EndOf(rest.threw, tail));
    }
  }

  /** The callback's part of the log, and the handler's. */
  lemma StartedLog(s: Sched, id: TaskId, program: Program, handler: Handler)
    requires s.running != []
    ensures var body := Run(Decrement(s), program(id), []); var one := RunStarted(s, id, program, handler);
      if body.threw && handler.Handler? then
        var handled := Run(FinishException(body.s), handler.handle(id), []);
        one.log == body.log + handled.log && one.threw == handled.threw
      else one.log == body.log && one.threw == body.threw
  {
  }

  lemma StartedCalls(s: Sched, id: TaskId, program: Program, handler: Handler)
    requires s.running != []
    ensures OnlyCalls(RunStarted(s, id, program, handler).log)
  {
    var body := Run(Decrement(s), program(id), []);
    StartedLog(s, id, program, handler);
    RunSkipsNothing(Decrement(s), program(id), []);
    if body.threw && handler.Handler? {
      RunSkipsNothing(FinishException(body.s), handler.handle(id), []);
    }
  }

  lemma TwoParts(c: Callback, calls: seq<Event>, handled: seq<Event>, tail: seq<Event>, end: End)
    requires Follow(c, [], calls + (handled + tail)) == end
    ensures Follow(c, [], calls + handled + tail) == end
  {
    assert calls + (handled + tail) == calls + handled + tail;
  }

  lemma CallbackFollows(s: Sched, id: TaskId, program: Program, handler: Handler, tail: seq<Event>)
    requires s.running != []
    ensures var body := Run(Decrement(s), program(id), []); var one := RunStarted(s, id, program, handler);
      Follow(program(id), [], one.log + tail) ==
        if !body.threw then Returned(tail)
        else if handler.NoHandler? then Raised(tail)
        else Raised(Run(FinishException(body.s), handler.handle(id), []).log + tail)
  {
    var c := program(id);
    var body := Run(Decrement(s), c, []);
    StartedLog(s, id, program, handler);
    if body.threw && handler.Handler? {
      var handled := Run(FinishException(body.s), handler.handle(id), []);
      RunFollows(Decrement(s), c, [], handled.log + tail);
      TwoParts(c, body.log, handled.log, tail, Raised(handled.log + tail));
    } else {
      RunFollows(Decrement(s), c, [], tail);
    }
  }

  lemma StartedFollows(s: Sched, id: TaskId, program: Program, handler: Handler, tail: seq<Event>)
    requires s.running != [] && CallsOver(tail)
    ensures var one := RunStarted(s, id, program, handler);
      && OnlyCalls(one.log) && Faithful(id, program, handler, one.log + tail)
      && (Escapes(id, program, handler, one.log + tail) <==> one.threw)
  {
    var body := Run(Decrement(s), program(id), []);
    StartedCalls(s, id, program, handler);
    CallbackFollows(s, id, program, handler, tail);
    StartedLog(s, id, program, handler);
    if body.threw && handler.Handler? {
      RunFollows(FinishException(body.s), handler.handle(id), [], tail);
    }
  }

  // ---------- the outcome ----------

  /** What the start of `id`, with the rest of the log after it, says of the outcome. */
  ghost predicate Verdict(id: TaskId, program: Program, handler: Handler, after: seq<Event>, outcome: Outcome) {
    && Faithful(id, program, handler, after)
    && (Escapes(id, program, handler, after) <==> outcome == Rethrown(id) && OnlyCalls(after))
  }

  ghost predicate Verdicts(program: Program, handler: Handler, log: seq<Event>, outcome: Outcome) {
    forall i, id :: 0 <= i < |log| && log[i] == Started(id) ==> Verdict(id, program, handler, log[i + 1..], outcome)
  }

  lemma VerdictsAfter(program: Program, handler: Handler, head: seq<Event>, log: seq<Event>, outcome: Outcome)
    requires Verdicts(program, handler, log, outcome)
    requires forall i :: 0 < i < |head| ==> head[i].Called?
    requires head != [] && forall id :: head[0] == Started(id) ==> Verdict(id, program, handler, head[1..] + log, outcome)
    ensures Verdicts(program, handler, head + log, outcome)
  {
    var all := head + log;
    forall i, id | 0 <= i < |all| && all[i] == Started(id)
      ensures Verdict(id, program, handler, all[i + 1..], outcome)
    {
      if i == 0 {
        assert all[1..] == head[1..] + log;
      } else {
        assert all[i + 1..] == log[i - |head| + 1..];
      }
    }
  }

  /** Where an exception escapes, its task was started and only calls came after that. */
  ghost predicate ThrowsLast(log: seq<Event>, outcome: Outcome) {
    outcome.Rethrown? ==> exists i :: 0 <= i < |log| && log[i] == Started(outcome.id) && OnlyCalls(log[i + 1..])
  }

  ghost predicate OutcomeOk(program: Program, handler: Handler, log: seq<Event>, outcome: Outcome) {
    Verdicts(program, handler, log, outcome) && CallsOver(log) && ThrowsLast(log, outcome)
  }

  lemma LaterStart(head: seq<Event>, log: seq<Event>, outcome: Outcome)
    requires ThrowsLast(log, outcome)
    ensures ThrowsLast(head + log, outcome)
  {
    if outcome.Rethrown? {
      var i :| 0 <= i < |log| && log[i] == Started(outcome.id) && OnlyCalls(log[i + 1..]);
      assert (head + log)[|head| + i] == log[i] && (head + log)[|head| + i + 1..] == log[i + 1..];
    }
  }

  lemma NotTheLast(id: TaskId, program: Program, handler: Handler, calls: seq<Event>, log: seq<Event>, outcome: Outcome)
    requires Faithful(id, program, handler, calls + log) && !Escapes(id, program, handler, calls + log)
    requires ThrowsLast(log, outcome)
    ensures Verdict(id, program, handler, calls + log, outcome)
  {
    if outcome.Rethrown? {
      var i :| 0 <= i < |log| && log[i] == Started(outcome.id) && OnlyCalls(log[i + 1..]);
      assert (calls + log)[|calls| + i] == log[i];
      assert log[i] in calls + log;
    }
  }

  lemma SkippedFirst(id: TaskId, program: Program, handler: Handler, log: seq<Event>, outcome: Outcome)
    requires OutcomeOk(program, handler, log, outcome)
    ensures OutcomeOk(program, handler, [Skipped(id)] + log, outcome)
  {
    VerdictsAfter(program, handler, [Skipped(id)], log, outcome);
    LaterStart([Skipped(id)], log, outcome);
  }

  lemma StartedFirst(id: TaskId, program: Program, handler: Handler, calls: seq<Event>, log: seq<Event>, outcome: Outcome)
    requires OutcomeOk(program, handler, log, outcome) && OnlyCalls(calls)
    requires Faithful(id, program, handler, calls + log) && !Escapes(id, program, handler, calls + log)
    ensures OutcomeOk(program, handler, [Started(id)] + calls + log, outcome)
  {
    var head := [Started(id)] + calls;
    assert head[1..] == calls;
    assert forall i :: 0 < i < |head| ==> head[i] == calls[i - 1] && calls[i - 1] in calls;
    NotTheLast(id, program, handler, calls, log, outcome);
    VerdictsAfter(program, handler, head, log, outcome);
    LaterStart(head, log, outcome);
  }

  lemma StartedLast(id: TaskId, program: Program, handler: Handler, calls: seq<Event>)
    requires OnlyCalls(calls) && Faithful(id, program, handler, calls) && Escapes(id, program, handler, calls)
    ensures OutcomeOk(program, handler, [Started(id)] + calls, Rethrown(id))
  {
    var head := [Started(id)] + calls;
    assert head[1..] == calls && calls + [] == calls && head + [] == head;
    assert forall i :: 0 < i < |head| ==> head[i] == calls[i - 1] && calls[i - 1] in calls;
    VerdictsAfter(program, handler, head, [], Rethrown(id));
    assert head[0] == Started(id) && OnlyCalls(head[0 + 1..]);
  }

  lemma {:induction false} BatchOutcome(s: Sched, program: Program, handler: Handler)
    requires s.running == []
    ensures var r := RunBatch(s, program, handler); OutcomeOk(program, handler, r.log, r.outcome)
    decreases |s.batch|
  {
    if s.batch == [] {
    } else {
      var id := s.batch[0].id;
      var (t, started) := Start(s);
      if !started {
        BatchOutcome(t, program, handler);
        SkippedFirst(id, program, handler, RunBatch(t, program, handler).log, RunBatch(t, program, handler).outcome);
      } else {
        var one := RunStarted(t, id, program, handler);
        if one.threw {
          StartedFollows(t, id, program, handler, []);
          assert one.log + [] == one.log;
          StartedLast(id, program, handler, one.log);
        } else {
          var r := RunBatch(one.s, program, handler);
          BatchOutcome(one.s, program, handler);
          StartedFollows(t, id, program, handler, r.log);
          StartedFirst(id, program, handler, one.log, r.log, r.outcome);
        }
      }
    }
  }

  /** Every started task's user code makes exactly the calls in the log. An exception escapes, and is that
      of task `id`, if and only if `id` was started and raised with no handler, or its handler raised;
      nothing is visited after that. */
  lemma ThrowsExactly(s: Sched, maxTasks: nat, now: Time, program: Program, handler: Handler)
    requires s.batch == [] && s.running == []
    ensures var r := Process(s, maxTasks, now, program, handler);
      && (forall i, id :: 0 <= i < |r.log| && r.log[i] == Started(id) ==>
            && Faithful(id, program, handler, r.log[i + 1..])
            && (Escapes(id, program, handler, r.log[i + 1..]) <==> r.outcome == Rethrown(id) && OnlyCalls(r.log[i + 1..])))
      && (r.outcome.Rethrown? ==>
            exists i :: 0 <= i < |r.log| && r.log[i] == Started(r.outcome.id) && Escapes(r.outcome.id, program, handler, r.log[i + 1..]))
  {
    if maxTasks == 0 {
    } else {
      PromoteFrame(s, now);
      TakeFrame(Promote(s, now), maxTasks);
      BatchOutcome(Take(Promote(s, now), maxTasks), program, handler);
      var r := Process(s, maxTasks, now, program, handler);
      if r.outcome.Rethrown? {
        var i :| 0 <= i < |r.log| && r.log[i] == Started(r.outcome.id) && OnlyCalls(r.log[i + 1..]);
        assert Verdict(r.outcome.id, program, handler, r.log[i + 1..], r.outcome);
      }
    }
  }

  lemma {:induction false} NeverRaised(c: Callback, replies: seq<Reply>, log: seq<Event>)
    requires forall rs :: !c.next(rs).Raise?
    ensures !Follow(c, replies, log).Raised?
    decreases |log|
  {
    if c.next(replies).Call? && |replies| < c.maxCalls && log != [] && log[0].Called? {
      NeverRaised(c, replies + [log[0].reply], log[1..]);
    } else {
    }
  }

  /** With a handler that never raises no exception escapes, whatever the callbacks do: every visited task
      has its turn, and those that started are counted. */
  lemma HandledAlwaysFinishes(s: Sched, maxTasks: nat, now: Time, program: Program, handler: Handler)
    requires Inv(s, 0) && s.batch == [] && s.running == []
    requires handler.Handler? && forall id, rs :: !handler.handle(id).next(rs).Raise?
    ensures var r := Process(s, maxTasks, now, program, handler);
      r.outcome == Finished && r.processed == |Starts(r.log)| && Visited(r.log) == SnapshotIds(s, maxTasks, now)
  {
    var r := Process(s, maxTasks, now, program, handler);
    ThrowsExactly(s, maxTasks, now, program, handler);
    SnapshotRefinement(s, maxTasks, now, program, handler);
    if r.outcome.Rethrown? {
      var id := r.outcome.id;
      var i :| 0 <= i < |r.log| && r.log[i] == Started(id) && Escapes(id, program, handler, r.log[i + 1..]);
      NeverRaised(handler.handle(id), [], Follow(program(id), [], r.log[i + 1..]).rest);
    }
  }

  // ---------- a task whose callback raised ----------

  lemma {:induction false} BatchEnds(s: Sched, program: Program, handler: Handler, id: TaskId)
    requires Inv(s, 0) && s.running == [] && Ended(s, id)
    ensures Ended(RunBatch(s, program, handler).s, id)
    decreases |s.batch|
  {
    if s.batch == [] {
    } else {
      var (t, started) := Start(s);
      KeepsStart(s);
      if !started {
        BatchEnds(t, program, handler, id);
      } else {
        StartedThenEnds(t, program, handler, id);
        var one := RunStarted(t, s.batch[0].id, program, handler);
        KeepsRunStarted(t, s.batch[0].id, program, handler);
        if !one.threw {
          BatchEnds(one.s, program, handler, id);
        } else {
          TaskFate.RestoreFate(one.s, id);
        }
      }
    }
  }

  lemma StartedThenEnds(t: Sched, program: Program, handler: Handler, id: TaskId)
    requires t.running != [] && Inv(t, if t.running[0].periodic then 0 else 1) && Ended(t, id)
    ensures Ended(RunStarted(t, t.running[0].id, program, handler).s, id)
  {
    StartedEnds(t, program, handler, id);
  }

  /** What has raised is over when its exception has been dealt with. */
  lemma RaisedEnds(t: Sched, program: Program, handler: Handler)
    requires t.running != [] && Inv(t, if t.running[0].periodic then 0 else 1)
    ensures var id := t.running[0].id;
      Run(Decrement(t), program(id), []).threw ==> Ended(RunStarted(t, id, program, handler).s, id)
  {
    var id := t.running[0].id;
    var body := Run(Decrement(t), program(id), []);
    if body.threw {
      KeepsDecrement(t);
      KeepsRun(Decrement(t), program(id), []);
      KeepsFinishException(body.s);
      RaisedState(body.s);
      if handler.Handler? {
        RunEnds(FinishException(body.s), handler.handle(id), [], id);
      }
    }
  }

  lemma RaisedState(s: Sched)
    requires s.running != [] && QueuesOk(s)
    ensures Ended(FinishException(s), s.running[0].id)
  {
    assert EntryOk(s.running[0], s.ctl, s.nextSeq, Executing);
  }

  ghost predicate RaisedOver(program: Program, log: seq<Event>, s: Sched) {
    forall i, id :: 0 <= i < |log| && log[i] == Started(id) && CallbackRaises(id, program, log[i + 1..]) ==> Ended(s, id)
  }

  lemma RaisedLater(program: Program, head: seq<Event>, log: seq<Event>, s: Sched)
    requires RaisedOver(program, log, s) && head != [] && forall i :: 0 < i < |head| ==> head[i].Called?
    requires forall id :: head[0] == Started(id) && CallbackRaises(id, program, head[1..] + log) ==> Ended(s, id)
    ensures RaisedOver(program, head + log, s)
  {
    var all := head + log;
    forall i, id | 0 <= i < |all| && all[i] == Started(id) && CallbackRaises(id, program, all[i + 1..])
      ensures Ended(s, id)
    {
      if i == 0 {
        assert all[1..] == head[1..] + log;
      } else {
        assert all[i + 1..] == log[i - |head| + 1..];
      }
    }
  }

  lemma StartedRaised(id: TaskId, program: Program, calls: seq<Event>, log: seq<Event>, s: Sched)
    requires OnlyCalls(calls) && RaisedOver(program, log, s) && (CallbackRaises(id, program, calls + log) ==> Ended(s, id))
    ensures RaisedOver(program, [Started(id)] + calls + log, s)
  {
    var head := [Started(id)] + calls;
    assert head[1..] == calls;
    assert forall i :: 0 < i < |head| ==> head[i] == calls[i - 1] && calls[i - 1] in calls;
    RaisedLater(program, head, log, s);
  }

  lemma {:induction false} BatchRaised(s: Sched, program: Program, handler: Handler)
    requires Inv(s, 0) && s.running == []
    ensures var r := RunBatch(s, program, handler); RaisedOver(program, r.log, r.s)
    decreases |s.batch|
  {
    if s.batch == [] {
    } else {
      var id := s.batch[0].id;
      var (t, started) := Start(s);
      KeepsStart(s);
      if !started {
        BatchRaised(t, program, handler);
        RaisedLater(program, [Skipped(id)], RunBatch(t, program, handler).log, RunBatch(t, program, handler).s);
      } else {
        var one := RunStarted(t, id, program, handler);
        if one.threw {
          LastRaised(t, id, program, handler);
        } else {
          KeepsRunStarted(t, id, program, handler);
          BatchRaised(one.s, program, handler);
          OneRaised(t, id, program, handler);
        }
      }
    }
  }

  lemma LastRaised(t: Sched, id: TaskId, program: Program, handler: Handler)
    requires t.running != [] && t.running[0].id == id && Inv(t, if t.running[0].periodic then 0 else 1)
    ensures var one := RunStarted(t, id, program, handler); RaisedOver(program, [Started(id)] + one.log, Restore(one.s))
  {
    var one := RunStarted(t, id, program, handler);
    RaisedEnds(t, program, handler);
    StartedCalls(t, id, program, handler);
    CallbackFollows(t, id, program, handler, []);
    assert one.log + [] == one.log && [Started(id)] + one.log + [] == [Started(id)] + one.log;
    if Ended(one.s, id) {
      TaskFate.RestoreFate(one.s, id);
    }
    StartedRaised(id, program, one.log, [], Restore(one.s));
  }

  lemma OneRaised(t: Sched, id: TaskId, program: Program, handler: Handler)
    requires t.running != [] && t.running[0].id == id && Inv(t, if t.running[0].periodic then 0 else 1)
    requires var one := RunStarted(t, id, program, handler); var r := RunBatch(one.s, program, handler);
      RaisedOver(program, r.log, r.s)
    ensures var one := RunStarted(t, id, program, handler); var r := RunBatch(one.s, program, handler);
      RaisedOver(program, [Started(id)] + one.log + r.log, r.s)
  {
    var one := RunStarted(t, id, program, handler);
    var r := RunBatch(one.s, program, handler);
    RaisedEnds(t, program, handler);
    KeepsRunStarted(t, id, program, handler);
    StartedCalls(t, id, program, handler);
    CallbackFollows(t, id, program, handler, r.log);
    if Ended(one.s, id) {
      BatchEnds(one.s, program, handler, id);
    }
    StartedRaised(id, program, one.log, r.log, r.s);
  }

  /** A task whose callback raised is over when the call ends, handler or not: it is neither queued again
      nor left running. */
  lemma RaisedIsOver(s: Sched, maxTasks: nat, now: Time, program: Program, handler: Handler)
    requires Inv(s, 0) && s.batch == [] && s.running == []
    ensures var r := Process(s, maxTasks, now, program, handler); RaisedOver(program, r.log, r.s)
  {
    if maxTasks == 0 {
    } else {
      PromoteFrame(s, now);
      TakeFrame(Promote(s, now), maxTasks);
      KeepsPromote(s, now, 0);
      KeepsTake(Promote(s, now), maxTasks, 0);
      BatchRaised(Take(Promote(s, now), maxTasks), program, handler);
    }
  }
}
