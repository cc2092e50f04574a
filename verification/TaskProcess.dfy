/** One call of process(): the snapshot, the callbacks as arbitrary programs over the manager's own
    interface, the exception policy, and what the caller may rely on. */
module TaskProcess {
  import opened TaskTypes
  import opened TaskOps
  import opened TaskInvariant
  import opened TaskSteps

  /** What a callback does next, given the replies it has had so far. */
  datatype Move = Return | Raise | Call(op: Op)

  /** A terminating callback: any strategy over the manager's interface, with a bound on its calls.
      The two clock values are what the manager reads when it finishes the task. */
  datatype Callback = Callback(next: seq<Reply> -> Move, maxCalls: nat, finishNow: Time, finishLockedNow: Time)

  /** What each task does if it is started. A task is started at most once in one call. */
  type Program = TaskId -> Callback

  /** The exception handler, itself user code that may use the manager, and that may throw. */
  datatype Handler = NoHandler | Handler(handle: TaskId -> Callback)

  datatype Outcome = Finished | Rethrown(id: TaskId)

  /** What can be seen of a call of process(), in order: each snapshot entry is started or skipped,
      and the user code that runs makes calls and gets replies. */
  datatype Event = Started(id: TaskId) | Skipped(id: TaskId) | Called(op: Op, reply: Reply)

  datatype ProcessResult = ProcessResult(s: Sched, processed: nat, log: seq<Event>, outcome: Outcome)

  datatype RunResult = RunResult(s: Sched, log: seq<Event>, threw: bool)

  function Run(s: Sched, c: Callback, replies: seq<Reply>): (r: RunResult)
    ensures r.s.batch == s.batch && r.s.running == s.running
    decreases c.maxCalls - |replies|
  {
    match c.next(replies)
    case Return => RunResult(s, [], false)
    case Raise => RunResult(s, [], true)
    case Call(op) =>
      if |replies| >= c.maxCalls then RunResult(s, [], false)
      else
        ApplyFrame(s, op);
        var (t, reply) := Apply(s, op);
        var r := Run(t, c, replies + [reply]);
        r.(log := [Called(op, reply)] + r.log)
  }

  /** The consumer's part of one snapshot entry whose CAS succeeded; `threw` says whether an
      exception escapes. */
  function RunStarted(s: Sched, id: TaskId, program: Program, handler: Handler): (r: RunResult)
    requires s.running != []
    ensures r.s.batch == s.batch && r.s.running == []
  {
    var c := program(id);
    var body := Run(Decrement(s), c, []);
    if !body.threw then RunResult(FinishSuccess(body.s, c.finishNow, c.finishLockedNow), body.log, false)
    else
      var u := FinishException(body.s);
      match handler
      case NoHandler => RunResult(u, body.log, true)
      case Handler(h) => var handled := Run(u, h(id), []); handled.(log := body.log + handled.log)
  }

  function RunBatch(s: Sched, program: Program, handler: Handler): ProcessResult
    requires s.running == []
    decreases |s.batch|
  {
    if s.batch == [] then ProcessResult(s, 0, [], Finished)
    else
      var id := s.batch[0].id;
      var (t, started) := Start(s);
      if !started then
        var r := RunBatch(t, program, handler);
        r.(log := [Skipped(id)] + r.log)
      else
        var one := RunStarted(t, id, program, handler);
        if one.threw then ProcessResult(Restore(one.s), 0, [Started(id)] + one.log, Rethrown(id))
        else
          var r := RunBatch(one.s, program, handler);
          r.(processed := r.processed + 1, log := [Started(id)] + one.log + r.log)
  }

  /** process(max_tasks), entered at clock value `now`. */
  function Process(s: Sched, maxTasks: nat, now: Time, program: Program, handler: Handler): ProcessResult
    requires s.batch == [] && s.running == []
  {
    if maxTasks == 0 then ProcessResult(s, 0, [], Finished)
    else
      PromoteFrame(s, now);
      TakeFrame(Promote(s, now), maxTasks);
      RunBatch(Take(Promote(s, now), maxTasks), program, handler)
  }

  // ---------- one call of user code at a time ----------

  lemma RunUnfold(s: Sched, c: Callback, replies: seq<Reply>)
    requires c.next(replies).Call? && |replies| < c.maxCalls
    ensures var op := c.next(replies).op; var (t, reply) := Apply(s, op); var r := Run(t, c, replies + [reply]);
      Run(s, c, replies) == r.(log := [Called(op, reply)] + r.log)
  {
  }

  lemma RunEnd(s: Sched, c: Callback, replies: seq<Reply>)
    requires !c.next(replies).Call? || |replies| >= c.maxCalls
    ensures Run(s, c, replies) == RunResult(s, [], c.next(replies).Raise?)
  {
  }

  // ---------- the consumer's own data ----------

  lemma {:induction false} PromoteLoopFrame(s: Sched, now: Time)
    ensures PromoteLoop(s, now).batch == s.batch && PromoteLoop(s, now).running == s.running
    decreases |s.delayed|
  {
    if s.delayed == [] || s.delayed[0].due > now {
    } else {
      PruneShrinks(PromoteFront(s));
      PruneFrame(PromoteFront(s));
      PromoteLoopFrame(Prune(PromoteFront(s)), now);
    }
  }

  lemma PromoteFrame(s: Sched, now: Time)
    ensures Promote(s, now).batch == s.batch && Promote(s, now).running == s.running
  {
    PruneFrame(s);
    PromoteLoopFrame(Prune(s), now);
  }

  lemma {:induction false} TakeFromFrame(s: Sched, p: nat, maxTasks: nat)
    requires p < 3
    ensures TakeFrom(s, p, maxTasks).running == s.running
    decreases |s.ready[p]|
  {
    if s.ready[p] == [] || |s.batch| >= maxTasks {
    } else {
      TakeFromFrame(TakeFront(s, p), p, maxTasks);
    }
  }

  lemma TakeFrame(s: Sched, maxTasks: nat)
    ensures Take(s, maxTasks).running == s.running
  {
    TakeFromFrame(s, 0, maxTasks);
    TakeFromFrame(TakeFrom(s, 0, maxTasks), 1, maxTasks);
    TakeFromFrame(TakeFrom(TakeFrom(s, 0, maxTasks), 1, maxTasks), 2, maxTasks);
  }

  lemma {:induction false} ClearReadyFrame(s: Sched, p: nat)
    requires p < 3
    ensures ClearReady(s, p).batch == s.batch && ClearReady(s, p).running == s.running
    decreases |s.ready[p]|
  {
    if s.ready[p] == [] {
    } else {
      ClearReadyFrame(DropReady(s, p), p);
    }
  }

  lemma {:induction false} ClearDelayedFrame(s: Sched)
    ensures ClearDelayed(s).batch == s.batch && ClearDelayed(s).running == s.running
    decreases |s.delayed|
  {
    if s.delayed == [] {
    } else {
      ClearDelayedFrame(DropDelayed(s));
    }
  }

  /** No call touches the snapshot or the running slot. */
  lemma ApplyFrame(s: Sched, op: Op)
    ensures Apply(s, op).0.batch == s.batch && Apply(s, op).0.running == s.running
  {
    if op.OpNextDeadline? {
      PruneFrame(s);
    } else if op.OpClearPending? {
      var s1 := ClearReady(s, 0);
      var s2 := ClearReady(s1, 1);
      ClearReadyFrame(s, 0);
      ClearReadyFrame(s1, 1);
      ClearReadyFrame(s2, 2);
      ClearDelayedFrame(ClearReady(s2, 2));
    }
  }

  // ---------- the invariant over a whole call ----------

  lemma {:induction false} KeepsRun(s: Sched, c: Callback, replies: seq<Reply>)
    requires Inv(s, 0)
    ensures Inv(Run(s, c, replies).s, 0)
    decreases c.maxCalls - |replies|
  {
    var move := c.next(replies);
    if !move.Call? || |replies| >= c.maxCalls {
    } else {
      KeepsApply(s, move.op, 0);
      KeepsRun(Apply(s, move.op).0, c, replies + [Apply(s, move.op).1]);
    }
  }

  lemma KeepsRunStarted(s: Sched, id: TaskId, program: Program, handler: Handler)
    requires s.running != [] && Inv(s, if s.running[0].periodic then 0 else 1)
    ensures Inv(RunStarted(s, id, program, handler).s, 0)
  {
    var c := program(id);
    var body := Run(Decrement(s), c, []);
    KeepsDecrement(s);
    KeepsRun(Decrement(s), c, []);
    if !body.threw {
      KeepsFinishSuccess(body.s, c.finishNow, c.finishLockedNow);
    } else {
      KeepsFinishException(body.s);
      if handler.Handler? {
        KeepsRun(FinishException(body.s), handler.handle(id), []);
      }
    }
  }

  lemma {:induction false} KeepsRunBatch(s: Sched, program: Program, handler: Handler)
    requires Inv(s, 0) && s.running == []
    ensures var t := RunBatch(s, program, handler).s; Inv(t, 0) && t.batch == [] && t.running == []
    decreases |s.batch|
  {
    if s.batch == [] {
    } else {
      var id := s.batch[0].id;
      var (t, started) := Start(s);
      KeepsStart(s);
      if !started {
        KeepsRunBatch(t, program, handler);
      } else {
        var one := RunStarted(t, id, program, handler);
        KeepsRunStarted(t, id, program, handler);
        if one.threw {
          KeepsRestore(one.s, 0);
          RestoreFrame(one.s);
        } else {
          KeepsRunBatch(one.s, program, handler);
        }
      }
    }
  }

  lemma {:induction false} RestoreFrame(s: Sched)
    ensures Restore(s).batch == [] && Restore(s).running == s.running
    decreases |s.batch|
  {
    if s.batch == [] {
    } else {
      RestoreFrame(RestoreBack(s));
    }
  }

  /** Whatever the callbacks and the handler do, a call of process() that returns or throws leaves
      the manager consistent: every entry where its state says, both counters exact, nothing left in
      the snapshot. */
  lemma KeepsProcess(s: Sched, maxTasks: nat, now: Time, program: Program, handler: Handler)
    requires Inv(s, 0) && s.batch == [] && s.running == []
    ensures var t := Process(s, maxTasks, now, program, handler).s; Inv(t, 0) && t.batch == [] && t.running == []
  {
    if maxTasks != 0 {
      PromoteFrame(s, now);
      TakeFrame(Promote(s, now), maxTasks);
      KeepsPromote(s, now, 0);
      KeepsTake(Promote(s, now), maxTasks, 0);
      KeepsRunBatch(Take(Promote(s, now), maxTasks), program, handler);
    }
  }
}
