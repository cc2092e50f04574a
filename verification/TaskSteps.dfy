/** Every mutex region, and every lock-free step of the consumer, keeps the invariant. */
module TaskSteps {
  import opened TaskTypes
  import opened TaskOps
  import opened TaskInvariant

  // ---------- the delayed heap ----------

  lemma PopDelayed(s: Sched)
    requires QueuesOk(s) && s.delayed != []
    ensures var t := s.(delayed := s.delayed[1..]); QueuesOk(t) && Relocated(s, t, s.delayed[0].id, HEAP, NOWHERE)
    ensures EntryOk(s.delayed[0], s.ctl, s.nextSeq, QueuedDelayed)
  {
  }

  lemma {:induction false} KeepsPrune(s: Sched, owed: nat)
    requires Inv(s, owed)
    ensures Inv(Prune(s), owed)
    decreases |s.delayed|
  {
    if s.delayed == [] || !Dead(s, s.delayed[0]) {
    } else {
      var t := s.(delayed := s.delayed[1..]);
      PopDelayed(s);
      KeepsDiscard(s, t, s.delayed[0].id, HEAP, owed);
      KeepsPrune(t, owed);
    }
  }

  /** Popping an entry from one place and putting it, live, into a ready deque at the back or the front. */
  lemma PutReady(u: Sched, e: Entry, back: bool, t: Sched)
    requires QueuesOk(u) && e.id in u.ctl && e.id !in ReadyIds(u) && EntryOk(e, t.ctl, u.nextSeq, QueuedReady)
    requires SameButOne(u.ctl, t.ctl, e.id) && t.ctl[e.id].state == QueuedReady
    requires e.id !in Ids(u.delayed) && e.id !in Ids(u.batch) && e.id !in Ids(u.running)
    requires var p := PriorityIndex(e.priority);
      t.ready == u.ready[p := if back then u.ready[p] + [e] else [e] + u.ready[p]]
    requires t.delayed == u.delayed && t.batch == u.batch && t.running == u.running && t.nextSeq == u.nextSeq
    ensures QueuesOk(t)
    ensures Relocated(u, t, e.id, NOWHERE, PriorityIndex(e.priority))
  {
    var p := PriorityIndex(e.priority);
    FrameAll(u, t.ctl, t.nextSeq, e.id);
    if back {
      Append(u.ready[p], e, t.ctl, t.nextSeq, QueuedReady);
      InDequeConcat(u.ready[p], [e], p);
    } else {
      Prepend(u.ready[p], e, t.ctl, t.nextSeq, QueuedReady);
      InDequeConcat([e], u.ready[p], p);
    }
  }

  lemma Relay(s: Sched, u: Sched, t: Sched, id: TaskId, a: nat, b: nat)
    requires Relocated(s, u, id, a, NOWHERE) && Relocated(u, t, id, NOWHERE, b) && a != b
    ensures Relocated(s, t, id, a, b)
  {
  }

  lemma PromoteQueues(s: Sched)
    requires QueuesOk(s) && s.delayed != [] && HasState(s, s.delayed[0].id, QueuedDelayed)
    ensures var e := s.delayed[0];
      QueuesOk(PromoteFront(s)) && Relocated(s, PromoteFront(s), e.id, HEAP, PriorityIndex(e.priority)) && e.id !in ReadyIds(s)
  {
    var e := s.delayed[0];
    var u := s.(delayed := s.delayed[1..]);
    PopDelayed(s);
    OnlyAtHome(s, e.id);
    PutReady(u, e, true, PromoteFront(s));
    Relay(s, u, PromoteFront(s), e.id, HEAP, PriorityIndex(e.priority));
  }

  lemma PromoteMoves(s: Sched, owed: nat)
    requires s.delayed != [] && HasState(s, s.delayed[0].id, QueuedDelayed)
    requires s.delayed[0].id in s.index && s.delayed[0].id !in ReadyIds(s)
    ensures var e := s.delayed[0];
      Moves(s, PromoteFront(s), e.id, PriorityIndex(e.priority)) && Counts(s, PromoteFront(s), e.id, owed, owed)
  {
  }

  lemma KeepsPromoteFront(s: Sched, owed: nat)
    requires Inv(s, owed) && s.delayed != []
    ensures Inv(PromoteFront(s), owed)
  {
    var e := s.delayed[0];
    if HasState(s, e.id, QueuedDelayed) {
      assert TaskOk(s, e.id);
      PromoteQueues(s);
      PromoteMoves(s, owed);
      KeepsMove(s, PromoteFront(s), e.id, HEAP, PriorityIndex(e.priority), owed, owed);
    } else {
      PopDelayed(s);
      KeepsDiscard(s, PromoteFront(s), e.id, HEAP, owed);
    }
  }

  lemma {:induction false} KeepsPromoteLoop(s: Sched, now: Time, owed: nat)
    requires Inv(s, owed)
    ensures Inv(PromoteLoop(s, now), owed)
    decreases |s.delayed|
  {
    if s.delayed == [] || s.delayed[0].due > now {
    } else {
      KeepsPromoteFront(s, owed);
      KeepsPrune(PromoteFront(s), owed);
      PruneShrinks(PromoteFront(s));
      KeepsPromoteLoop(Prune(PromoteFront(s)), now, owed);
    }
  }

  lemma KeepsPromote(s: Sched, now: Time, owed: nat)
    requires Inv(s, owed)
    ensures Inv(Promote(s, now), owed)
  {
    KeepsPrune(s, owed);
    KeepsPromoteLoop(Prune(s), now, owed);
  }

  // ---------- the snapshot ----------

  lemma PopReady(s: Sched, p: nat)
    requires QueuesOk(s) && p < 3 && s.ready[p] != []
    ensures var t := s.(ready := s.ready[p := s.ready[p][1..]]); QueuesOk(t) && Relocated(s, t, s.ready[p][0].id, p, NOWHERE)
    ensures EntryOk(s.ready[p][0], s.ctl, s.nextSeq, QueuedReady) && s.ready[p][0].id in ReadyIds(s)
    ensures PriorityIndex(s.ready[p][0].priority) == p
  {
  }

  lemma TakeQueues(s: Sched, p: nat)
    requires QueuesOk(s) && p < 3 && s.ready[p] != [] && TaskOk(s, s.ready[p][0].id) && HasState(s, s.ready[p][0].id, QueuedReady)
    ensures QueuesOk(TakeFront(s, p)) && Relocated(s, TakeFront(s, p), s.ready[p][0].id, p, BATCH)
  {
    var u := s.(ready := s.ready[p := s.ready[p][1..]]);
    PopReady(s, p);
    OnlyAtHome(s, s.ready[p][0].id);
    FrontLeaves(s, u, p);
    TakenJoins(s, u, p);
    Relay(s, u, TakeFront(s, p), s.ready[p][0].id, p, BATCH);
  }

  lemma TakenJoins(s: Sched, u: Sched, p: nat)
    requires p < 3 && s.ready[p] != [] && u == s.(ready := s.ready[p := s.ready[p][1..]]) && QueuesOk(u)
    requires var e := s.ready[p][0];
      && HasState(s, e.id, QueuedReady) && EntryOk(e, s.ctl, s.nextSeq, QueuedReady)
      && e.id !in ReadyIds(u) && e.id !in Ids(s.delayed) && e.id !in Ids(s.batch) && e.id !in Ids(s.running)
    ensures QueuesOk(TakeFront(s, p)) && Relocated(u, TakeFront(s, p), s.ready[p][0].id, NOWHERE, BATCH)
  {
    JoinBatch(u, TakeFront(s, p), s.ready[p][0]);
  }

  lemma FrontLeaves(s: Sched, u: Sched, p: nat)
    requires p < 3 && s.ready[p] != [] && TaskOk(s, s.ready[p][0].id) && Relocated(s, u, s.ready[p][0].id, p, NOWHERE)
    ensures s.ready[p][0].id !in ReadyIds(u)
  {
  }

  lemma JoinBatch(u: Sched, t: Sched, e: Entry)
    requires QueuesOk(u) && SameButOne(u.ctl, t.ctl, e.id) && t.ctl[e.id].state == ReadySnapshot && t.nextSeq == u.nextSeq
    requires EntryOk(e, t.ctl, u.nextSeq, ReadySnapshot)
    requires e.id !in ReadyIds(u) && e.id !in Ids(u.delayed) && e.id !in Ids(u.batch) && e.id !in Ids(u.running)
    requires t.ready == u.ready && t.delayed == u.delayed && t.running == u.running && t.batch == u.batch + [e]
    ensures QueuesOk(t) && Relocated(u, t, e.id, NOWHERE, BATCH)
  {
    FrameAll(u, t.ctl, t.nextSeq, e.id);
    Append(u.batch, e, t.ctl, t.nextSeq, ReadySnapshot);
  }

  lemma TakeMoves(s: Sched, p: nat, owed: nat)
    requires p < 3 && s.ready[p] != [] && HasState(s, s.ready[p][0].id, QueuedReady) && s.ready[p][0].id in s.index
    ensures Moves(s, TakeFront(s, p), s.ready[p][0].id, BATCH) && Counts(s, TakeFront(s, p), s.ready[p][0].id, owed, owed)
  {
  }

  lemma KeepsTakeFront(s: Sched, p: nat, owed: nat)
    requires Inv(s, owed) && p < 3 && s.ready[p] != []
    ensures Inv(TakeFront(s, p), owed)
  {
    var e := s.ready[p][0];
    if HasState(s, e.id, QueuedReady) {
      assert TaskOk(s, e.id);
      TakeQueues(s, p);
      TakeMoves(s, p, owed);
      KeepsMove(s, TakeFront(s, p), e.id, p, BATCH, owed, owed);
    } else {
      PopReady(s, p);
      KeepsDiscard(s, TakeFront(s, p), e.id, p, owed);
    }
  }

  lemma {:induction false} KeepsTakeFrom(s: Sched, p: nat, maxTasks: nat, owed: nat)
    requires Inv(s, owed) && p < 3
    ensures Inv(TakeFrom(s, p, maxTasks), owed)
    decreases |s.ready[p]|
  {
    if s.ready[p] == [] || |s.batch| >= maxTasks {
    } else {
      KeepsTakeFront(s, p, owed);
      KeepsTakeFrom(TakeFront(s, p), p, maxTasks, owed);
    }
  }

  lemma KeepsTake(s: Sched, maxTasks: nat, owed: nat)
    requires Inv(s, owed)
    ensures Inv(Take(s, maxTasks), owed)
  {
    KeepsTakeFrom(s, 0, maxTasks, owed);
    KeepsTakeFrom(TakeFrom(s, 0, maxTasks), 1, maxTasks, owed);
    KeepsTakeFrom(TakeFrom(TakeFrom(s, 0, maxTasks), 1, maxTasks), 2, maxTasks, owed);
  }

  lemma StartQueues(s: Sched)
    requires QueuesOk(s) && s.batch != [] && s.running == [] && HasState(s, s.batch[0].id, ReadySnapshot)
    ensures QueuesOk(Start(s).0) && Relocated(s, Start(s).0, s.batch[0].id, BATCH, RUNNING)
  {
    var e := s.batch[0];
    var t := Start(s).0;
    OnlyAtHome(s, e.id);
    FrameAll(s.(batch := s.batch[1..]), t.ctl, t.nextSeq, e.id);
  }

  lemma StartMoves(s: Sched)
    requires s.batch != [] && HasState(s, s.batch[0].id, ReadySnapshot) && s.batch[0].id in s.index
    requires s.batch[0].periodic == s.ctl[s.batch[0].id].periodic
    ensures var (e, t) := (s.batch[0], Start(s).0);
      Moves(s, t, e.id, RUNNING) && Counts(s, t, e.id, 0, if e.periodic then 0 else 1)
  {
  }

  lemma PopBatch(s: Sched)
    requires QueuesOk(s) && s.batch != []
    ensures var t := s.(batch := s.batch[1..]); QueuesOk(t) && Relocated(s, t, s.batch[0].id, BATCH, NOWHERE)
    ensures EntryOk(s.batch[0], s.ctl, s.nextSeq, ReadySnapshot)
  {
  }

  /** After a successful CAS on a one-shot task the decrement is owed. */
  lemma KeepsStart(s: Sched)
    requires Inv(s, 0) && s.batch != [] && s.running == []
    ensures var (t, started) := Start(s);
      Inv(t, if started && !t.running[0].periodic then 1 else 0) && (started <==> t.running != [])
  {
    var e := s.batch[0];
    var (t, started) := Start(s);
    PopBatch(s);
    if started {
      assert TaskOk(s, e.id);
      StartQueues(s);
      StartMoves(s);
      KeepsMove(s, t, e.id, BATCH, RUNNING, 0, if e.periodic then 0 else 1);
    } else {
      KeepsDiscard(s, t, e.id, BATCH, 0);
    }
  }

  lemma KeepsDecrement(s: Sched)
    requires s.running != [] && Inv(s, if s.running[0].periodic then 0 else 1)
    ensures Inv(Decrement(s), 0)
  {
    forall id: TaskId
      ensures TaskOk(Decrement(s), id)
    {
      assert TaskOk(s, id);
    }
  }

  // ---------- finishing ----------

  /** The entry of the next cycle. */
  function Again(s: Sched, due: Time): Entry
    requires s.running != []
  {
    s.running[0].(seqNo := s.nextSeq, due := due, planned := due)
  }

  /** The entry has left the running slot and its control block has changed; it is yet to be put. */
  function Unslotted(s: Sched, st: State): Sched
    requires s.running != [] && s.running[0].id in s.ctl
  {
    WithState(s, s.running[0].id, st).(running := [], nextSeq := s.nextSeq + 1)
  }

  lemma UnslottedQueues(s: Sched, st: State)
    requires QueuesOk(s) && s.running != [] && HasState(s, s.running[0].id, Executing) && (st == QueuedReady || st == QueuedDelayed)
    ensures var (u, e) := (Unslotted(s, st), s.running[0]);
      && QueuesOk(u) && QueueOk(u.delayed, u.ctl, s.nextSeq, QueuedDelayed) && EntryOk(e, s.ctl, s.nextSeq, Executing)
      && e.id !in ReadyIds(s) && e.id !in Ids(s.delayed) && Relocated(s, u, e.id, RUNNING, NOWHERE)
  {
    var e, u := s.running[0], Unslotted(s, st);
    OnlyAtHome(s, e.id);
    FrameAll(s.(running := []), u.ctl, u.nextSeq, e.id);
    Frame(s.delayed, s.ctl, s.nextSeq, u.ctl, s.nextSeq, QueuedDelayed, e.id);
  }

  lemma RequeueIsPut(s: Sched, due: Time, now: Time)
    requires s.running != [] && HasState(s, s.running[0].id, Executing)
    ensures var u := Unslotted(s, if due <= now then QueuedReady else QueuedDelayed);
      var p := Put(u, Again(s, due), due <= now);
      Requeue(s, due, now) == p.(readyCount := Requeue(s, due, now).readyCount, pendingCount := Requeue(s, due, now).pendingCount)
  {
  }

  lemma RequeueQueues(s: Sched, due: Time, now: Time)
    requires QueuesOk(s) && s.running != [] && HasState(s, s.running[0].id, Executing)
    ensures QueuesOk(Requeue(s, due, now))
    ensures Relocated(s, Requeue(s, due, now), s.running[0].id, RUNNING, Target(s.running[0], due <= now))
    ensures s.running[0].id !in ReadyIds(s)
  {
    var e := s.running[0];
    var st := if due <= now then QueuedReady else QueuedDelayed;
    var u := Unslotted(s, st);
    UnslottedQueues(s, st);
    PutKeeps(u, Again(s, due), due <= now, s.nextSeq);
    PutJoins(u, Again(s, due), due <= now);
    Relay(s, u, Put(u, Again(s, due), due <= now), e.id, RUNNING, Target(e, due <= now));
    RequeueIsPut(s, due, now);
  }

  lemma RequeueMoves(s: Sched, due: Time, now: Time)
    requires s.running != [] && HasState(s, s.running[0].id, Executing) && s.running[0].periodic == s.ctl[s.running[0].id].periodic
    requires s.running[0].id in s.index && s.running[0].id !in ReadyIds(s)
    ensures var (e, t) := (s.running[0], Requeue(s, due, now));
      Moves(s, t, e.id, Target(e, due <= now)) && Counts(s, t, e.id, 0, 0)
  {
  }

  lemma KeepsRequeue(s: Sched, due: Time, now: Time)
    requires Inv(s, 0) && s.running != [] && HasState(s, s.running[0].id, Executing)
    ensures Inv(Requeue(s, due, now), 0)
  {
    var e := s.running[0];
    assert TaskOk(s, e.id);
    RequeueQueues(s, due, now);
    RequeueMoves(s, due, now);
    KeepsMove(s, Requeue(s, due, now), e.id, RUNNING, Target(e, due <= now), 0, 0);
  }

  lemma LeaveQueues(s: Sched, st: State)
    requires QueuesOk(s) && s.running != [] && s.running[0].id in s.ctl && !Live(st)
    requires HasState(s, s.running[0].id, Executing) || (HasState(s, s.running[0].id, Cancelled) && st == Cancelled)
    ensures QueuesOk(Leave(s, st)) && Relocated(s, Leave(s, st), s.running[0].id, RUNNING, NOWHERE)
  {
    var e := s.running[0];
    OnlyAtHome(s, e.id);
    FrameAll(s.(running := []), Leave(s, st).ctl, s.nextSeq, e.id);
  }

  lemma LeaveCounts(s: Sched, st: State)
    requires s.running != [] && s.running[0].id in s.ctl && s.running[0].periodic == s.ctl[s.running[0].id].periodic
    requires if st == Completed then HasState(s, s.running[0].id, Executing) else st == Cancelled && HasState(s, s.running[0].id, Cancelled)
    requires |s.running| <= 1
    ensures Leaves(s, Leave(s, st), s.running[0].id) && Counts(s, Leave(s, st), s.running[0].id, 0, 0)
  {
  }

  lemma KeepsLeave(s: Sched, st: State)
    requires Inv(s, 0) && s.running != [] && s.running[0].id in s.ctl
    requires if st == Completed then HasState(s, s.running[0].id, Executing) else st == Cancelled && HasState(s, s.running[0].id, Cancelled)
    ensures Inv(Leave(s, st), 0)
  {
    LeaveQueues(s, st);
    LeaveCounts(s, st);
    KeepsLeaving(s, Leave(s, st), s.running[0].id, RUNNING, 0);
  }

  lemma KeepsFinishSuccess(s: Sched, now: Time, lockedNow: Time)
    requires Inv(s, 0) && s.running != []
    ensures var t := FinishSuccess(s, now, lockedNow); Inv(t, 0) && t.running == []
  {
    var e := s.running[0];
    OnlyAtHome(s, e.id);
    var c := s.ctl[e.id];
    if c.state == Cancelled {
      KeepsLeave(s, Cancelled);
    } else if s.closed {
      KeepsLeave(s, Completed);
    } else if c.rescheduleRequested {
      KeepsFlag(s, c.(rescheduleRequested := false), e.id, 0);
      KeepsRequeue(WithFlag(s, e.id, false), c.rescheduleDue, lockedNow);
    } else if e.periodic {
      KeepsRequeue(s, NextPeriodicDue(e, now), lockedNow);
    } else {
      KeepsLeave(s, Completed);
    }
  }

  lemma KeepsFinishException(s: Sched)
    requires Inv(s, 0) && s.running != []
    ensures var t := FinishException(s); Inv(t, 0) && t.running == []
  {
    var e := s.running[0];
    OnlyAtHome(s, e.id);
    if s.ctl[e.id].state == Executing {
      KeepsLeave(s, Completed);
    } else {
      KeepsLeave(s, Cancelled);
    }
  }

  lemma RestoreQueues(s: Sched)
    requires QueuesOk(s) && s.batch != [] && HasState(s, s.batch[|s.batch| - 1].id, ReadySnapshot)
    ensures var e := s.batch[|s.batch| - 1];
      QueuesOk(RestoreBack(s)) && Relocated(s, RestoreBack(s), e.id, BATCH, PriorityIndex(e.priority)) && e.id !in ReadyIds(s)
  {
    var b := s.batch;
    var e := b[|b| - 1];
    var u := s.(batch := b[..|b| - 1]);
    PopBack(b, s.ctl, s.nextSeq, ReadySnapshot);
    OnlyAtHome(s, e.id);
    PutReady(u, e, false, RestoreBack(s));
    Relay(s, u, RestoreBack(s), e.id, BATCH, PriorityIndex(e.priority));
  }

  lemma RestoreMoves(s: Sched, owed: nat)
    requires s.batch != [] && HasState(s, s.batch[|s.batch| - 1].id, ReadySnapshot)
    requires s.batch[|s.batch| - 1].id in s.index && s.batch[|s.batch| - 1].id !in ReadyIds(s)
    ensures var e := s.batch[|s.batch| - 1];
      Moves(s, RestoreBack(s), e.id, PriorityIndex(e.priority)) && Counts(s, RestoreBack(s), e.id, owed, owed)
  {
  }

  lemma KeepsRestoreBack(s: Sched, owed: nat)
    requires Inv(s, owed) && s.batch != []
    ensures Inv(RestoreBack(s), owed)
  {
    var e := s.batch[|s.batch| - 1];
    PopBack(s.batch, s.ctl, s.nextSeq, ReadySnapshot);
    if HasState(s, e.id, ReadySnapshot) {
      assert TaskOk(s, e.id);
      RestoreQueues(s);
      RestoreMoves(s, owed);
      KeepsMove(s, RestoreBack(s), e.id, BATCH, PriorityIndex(e.priority), owed, owed);
    } else {
      KeepsDiscard(s, RestoreBack(s), e.id, BATCH, owed);
    }
  }

  lemma {:induction false} KeepsRestore(s: Sched, owed: nat)
    requires Inv(s, owed)
    ensures Inv(Restore(s), owed)
    decreases |s.batch|
  {
    if s.batch == [] {
    } else {
      KeepsRestoreBack(s, owed);
      KeepsRestore(RestoreBack(s), owed);
    }
  }

  // ---------- clearing ----------

  lemma DropReadyQueues(s: Sched, p: nat)
    requires QueuesOk(s) && p < 3 && s.ready[p] != []
    ensures QueuesOk(DropReady(s, p)) && Relocated(s, DropReady(s, p), s.ready[p][0].id, p, NOWHERE)
    ensures HasState(s, s.ready[p][0].id, QueuedReady) ==> s.ready[p][0].id !in Ids(s.running)
  {
    var e := s.ready[p][0];
    PopReady(s, p);
    OnlyAtHome(s, e.id);
    FrameAll(s.(ready := s.ready[p := s.ready[p][1..]]), DropReady(s, p).ctl, s.nextSeq, e.id);
  }

  lemma DropReadyCounts(s: Sched, p: nat, owed: nat)
    requires p < 3 && s.ready[p] != [] && HasState(s, s.ready[p][0].id, QueuedReady) && s.ready[p][0].id !in Ids(s.running)
    ensures Leaves(s, DropReady(s, p), s.ready[p][0].id) && Counts(s, DropReady(s, p), s.ready[p][0].id, owed, owed)
  {
  }

  lemma KeepsDropReady(s: Sched, p: nat, owed: nat)
    requires Inv(s, owed) && p < 3 && s.ready[p] != []
    ensures Inv(DropReady(s, p), owed)
  {
    var e := s.ready[p][0];
    PopReady(s, p);
    DropReadyQueues(s, p);
    if HasState(s, e.id, QueuedReady) {
      DropReadyCounts(s, p, owed);
      KeepsLeaving(s, DropReady(s, p), e.id, p, owed);
    } else {
      KeepsDiscard(s, DropReady(s, p), e.id, p, owed);
    }
  }

  lemma DropDelayedQueues(s: Sched)
    requires QueuesOk(s) && s.delayed != []
    ensures QueuesOk(DropDelayed(s)) && Relocated(s, DropDelayed(s), s.delayed[0].id, HEAP, NOWHERE)
    ensures HasState(s, s.delayed[0].id, QueuedDelayed) ==> s.delayed[0].id !in Ids(s.running)
  {
    var e := s.delayed[0];
    PopDelayed(s);
    OnlyAtHome(s, e.id);
    FrameAll(s.(delayed := s.delayed[1..]), DropDelayed(s).ctl, s.nextSeq, e.id);
  }

  lemma DropDelayedCounts(s: Sched, owed: nat)
    requires s.delayed != [] && HasState(s, s.delayed[0].id, QueuedDelayed) && s.delayed[0].id !in Ids(s.running)
    ensures Leaves(s, DropDelayed(s), s.delayed[0].id) && Counts(s, DropDelayed(s), s.delayed[0].id, owed, owed)
  {
  }

  lemma KeepsDropDelayed(s: Sched, owed: nat)
    requires Inv(s, owed) && s.delayed != []
    ensures Inv(DropDelayed(s), owed)
  {
    var e := s.delayed[0];
    PopDelayed(s);
    DropDelayedQueues(s);
    if HasState(s, e.id, QueuedDelayed) {
      DropDelayedCounts(s, owed);
      KeepsLeaving(s, DropDelayed(s), e.id, HEAP, owed);
    } else {
      KeepsDiscard(s, DropDelayed(s), e.id, HEAP, owed);
    }
  }

  lemma {:induction false} KeepsClearReady(s: Sched, p: nat, owed: nat)
    requires Inv(s, owed) && p < 3
    ensures Inv(ClearReady(s, p), owed)
    decreases |s.ready[p]|
  {
    if s.ready[p] == [] {
    } else {
      KeepsDropReady(s, p, owed);
      KeepsClearReady(DropReady(s, p), p, owed);
    }
  }

  lemma {:induction false} KeepsClearDelayed(s: Sched, owed: nat)
    requires Inv(s, owed)
    ensures Inv(ClearDelayed(s), owed)
    decreases |s.delayed|
  {
    if s.delayed == [] {
    } else {
      KeepsDropDelayed(s, owed);
      KeepsClearDelayed(DropDelayed(s), owed);
    }
  }

  lemma KeepsClear(s: Sched, owed: nat)
    requires Inv(s, owed)
    ensures Inv(ClearPending(s), owed)
  {
    KeepsClearReady(s, 0, owed);
    KeepsClearReady(ClearReady(s, 0), 1, owed);
    KeepsClearReady(ClearReady(ClearReady(s, 0), 1), 2, owed);
    KeepsClearDelayed(ClearReady(ClearReady(ClearReady(s, 0), 1), 2), owed);
  }

  lemma KeepsClose(s: Sched, owed: nat)
    requires Inv(s, owed)
    ensures Inv(Close(s), owed)
  {
    forall id: TaskId
      ensures TaskOk(Close(s), id)
    {
      assert TaskOk(s, id);
    }
  }

  // ---------- any call ----------

  lemma KeepsPost(s: Sched, op: Op, owed: nat)
    requires Inv(s, owed) && (op.OpPost? || op.OpPostAt? || op.OpPostEvery?)
    ensures Inv(Apply(s, op).0, owed)
  {
    match op
    case OpPost(_, p) => KeepsAdmit(s, OneShot(s, p, 0), true, owed);
    case OpPostAt(_, due, p, now) =>
      KeepsAdmit(s, OneShot(s, p, 0), true, owed);
      KeepsAdmit(s, OneShot(s, p, due), false, owed);
    case OpPostEvery(_, d, i, p, sch, now, lnow) =>
      var due := if d <= 0 then now else now + d;
      KeepsAdmit(s, PeriodicEntry(s, p, due, i, sch), due <= lnow, owed);
  }

  /** Whatever a callback or another thread calls, at whatever moment of the consumer's work. */
  lemma KeepsApply(s: Sched, op: Op, owed: nat)
    requires Inv(s, owed)
    ensures Inv(Apply(s, op).0, owed)
  {
    if op.OpPost? || op.OpPostAt? || op.OpPostEvery? {
      KeepsPost(s, op, owed);
    } else if op.OpCancel? {
      if op.id in s.ctl {
        KeepsCancelCas(s, op.id, s.ctl[op.id].state, owed);
      }
    } else if op.OpCtxCancel? {
      KeepsCtxCancel(s, op.id, owed);
    } else if op.OpCtxReschedule? {
      if op.id in s.ctl {
        KeepsFlag(s, s.ctl[op.id].(rescheduleRequested := true, rescheduleDue := op.due), op.id, owed);
      }
    } else if op.OpNextDeadline? {
      KeepsPrune(s, owed);
    } else if op.OpClose? {
      KeepsClose(s, owed);
    } else if op.OpClearPending? {
      KeepsClear(s, owed);
    }
  }
}
