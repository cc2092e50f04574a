/** The parts of RunLoop that look at its sources: the loops over buses and managers that decide
    whether, and how long, to sleep. */
module RunLoopClass {
  import opened TaskTypes
  import TaskOps
  import TaskInvariant
  import opened TaskLive
  import TaskManagerClass
  import EventQueue

  ghost predicate AllConsistent(ss: seq<Sched>) {
    forall i {:trigger TaskInvariant.Inv(ss[i], 0)} :: 0 <= i < |ss| ==> TaskInvariant.Inv(ss[i], 0)
  }

  /** The wait that manager state `s` asks for at clock value `now`, if any. */
  ghost function WaitFor(s: Sched, now: Time): Option<int> {
    if ReadyOrder(s) != [] then Some(0)
    else if LiveDelayed(s) == [] then None
    else Some(if LiveDelayed(s)[0].due <= now then 0 else LiveDelayed(s)[0].due - now)
  }

  ghost function Waits(ss: seq<Sched>, now: Time): (ws: seq<Option<int>>)
    ensures |ws| == |ss| && forall i :: 0 <= i < |ws| ==> ws[i] == WaitFor(ss[i], now)
  {
    seq(|ss|, i requires 0 <= i < |ss| => WaitFor(ss[i], now))
  }

  /** `best` is the least of the first `n` waits. */
  ghost predicate Least(ws: seq<Option<int>>, n: nat, best: Option<int>)
    requires n <= |ws|
  {
    && (forall j :: 0 <= j < n && ws[j].Some? ==> best.Some? && best.value <= ws[j].value)
    && (best.Some? ==> exists j :: 0 <= j < n && ws[j] == best)
  }

  lemma ReadyIsCounted(ss: seq<Sched>, i: nat)
    requires AllConsistent(ss) && i < |ss|
    ensures ss[i].readyCount != 0 <==> ReadyOrder(ss[i]) != []
  {
    assert TaskInvariant.Inv(ss[i], 0);
    ReadyCountIsLive(ss[i], 0);
  }

  lemma DeadlineIsWait(ss: seq<Sched>, i: nat, now: Time)
    requires AllConsistent(ss) && i < |ss| && ReadyOrder(ss[i]) == []
    ensures var due := TaskOps.NextDeadline(ss[i]).1;
      WaitFor(ss[i], now) == if due.None? then None else Some(if due.value <= now then 0 else due.value - now)
  {
    assert TaskInvariant.Inv(ss[i], 0);
    NextDeadlineIsLeast(ss[i], 0);
  }

  class RunLoop {
    var buses: seq<EventQueue.EventBus>
    var managers: seq<TaskManagerClass.TaskManager>
    var maxTasks: nat

    ghost predicate Distinct()
      reads this
    {
      && maxTasks >= 1
      && (forall i, j :: 0 <= i < j < |managers| ==> managers[i] != managers[j])
      && (forall i, j :: 0 <= i < j < |buses| ==> buses[i] != buses[j])
    }

    constructor ()
      ensures Distinct() && buses == [] && managers == []
    {
      buses, managers, maxTasks := [], [], 128;
    }

    /** A limit of zero would make process() do nothing for ever; it counts as one. */
    method SetMaxTasks(n: nat)
      requires Distinct()
      modifies this`maxTasks
      ensures Distinct() && maxTasks == if n == 0 then 1 else n
    {
      maxTasks := if n == 0 then 1 else n;
    }

    /** Adding a manager twice has no effect. */
    method AddTaskManager(m: TaskManagerClass.TaskManager)
      requires Distinct()
      modifies this`managers
      ensures Distinct() && managers == if m in old(managers) then old(managers) else old(managers) + [m]
    {
      if m in managers {
        return;
      }
      managers := managers + [m];
    }

    method AddBus(b: EventQueue.EventBus)
      requires Distinct()
      modifies this`buses
      ensures Distinct() && buses == if b in old(buses) then old(buses) else old(buses) + [b]
    {
      if b in buses {
        return;
      }
      buses := buses + [b];
    }

    ghost function Models(): (ss: seq<Sched>)
      reads this, managers
      ensures |ss| == |managers| && forall i :: 0 <= i < |ss| ==> ss[i] == managers[i].model
    {
      seq(|managers|, i requires 0 <= i < |managers| reads this, managers => managers[i].model)
    }

    ghost predicate AllGood()
      reads this, managers
    {
      (forall i :: 0 <= i < |managers| ==> managers[i].Valid()) && AllConsistent(Models())
    }

    /** True exactly when an event is queued or a task is ready somewhere. */
    method HasReadyOrPendingWork() returns (work: bool)
      requires AllGood()
      ensures work <==>
        || (exists i :: 0 <= i < |buses| && buses[i].queue != [])
        || (exists i :: 0 <= i < |managers| && ReadyOrder(managers[i].model) != [])
    {
      var i := 0;
      while i < |buses|
        invariant 0 <= i <= |buses| && forall j :: 0 <= j < i ==> buses[j].queue == []
      {
        if buses[i].queue != [] {
          return true;
        }
        i := i + 1;
      }
      i := 0;
      while i < |managers|
        invariant 0 <= i <= |managers| && forall j :: 0 <= j < i ==> ReadyOrder(managers[j].model) == []
      {
        ReadyIsCounted(Models(), i);
        if managers[i].readyCount != 0 {
          return true;
        }
        i := i + 1;
      }
      return false;
    }

    /** The first `i` managers have been looked at, the others are as they were. */
    ghost predicate Looked(ss: seq<Sched>, i: nat)
      reads this, managers
    {
      && i <= |managers| == |ss|
      && (forall j :: 0 <= j < |managers| ==> managers[j].Valid())
      && (forall j :: 0 <= j < i ==> managers[j].model == TaskOps.Prune(ss[j]))
      && (forall j :: i <= j < |managers| ==> managers[j].model == ss[j])
    }

    /** next_task_wait(): the least wait over all managers, zero as soon as one has ready work. Looking
        prunes dead entries and changes nothing else. */
    method NextTaskWait(now: Time) returns (best: Option<int>)
      requires Distinct() && AllGood()
      modifies managers
      ensures forall i :: 0 <= i < |managers| ==> managers[i].Valid()
      ensures forall i :: 0 <= i < |managers| ==>
        managers[i].model == old(managers[i].model) || managers[i].model == TaskOps.Prune(old(managers[i].model))
      ensures Least(Waits(old(Models()), now), |managers|, best)
    {
      best := None;
      ghost var ss := Models();
      ghost var ws := Waits(ss, now);
      var i := 0;
      while i < |managers|
        invariant 0 <= i <= |managers| && Looked(ss, i) && Least(ws, i, best)
      {
        ReadyIsCounted(ss, i);
        if managers[i].readyCount != 0 {
          ReadyWins(ss, ws, i, now);
          return Some(0);
        }
        best := LookAtNext(i, ss, ws, best, now);
        i := i + 1;
      }
    }

    method LookAtNext(i: nat, ghost ss: seq<Sched>, ghost ws: seq<Option<int>>, best: Option<int>, now: Time)
      returns (better: Option<int>)
      requires Distinct() && Looked(ss, i) && i < |managers| && AllConsistent(ss) && ReadyOrder(ss[i]) == []
      requires |ws| == |ss| && ws[i] == WaitFor(ss[i], now) && Least(ws, i, best)
      modifies managers
      ensures Looked(ss, i + 1) && Least(ws, i + 1, better)
    {
      better := LookAt(managers[i], ss, ws, i, best, now);
    }

    /** One turn of that loop, for a manager with nothing ready. */
    static method LookAt(m: TaskManagerClass.TaskManager, ghost ss: seq<Sched>, ghost ws: seq<Option<int>>, ghost i: nat,
                         best: Option<int>, now: Time) returns (better: Option<int>)
      requires m.Valid() && AllConsistent(ss) && i < |ss| && m.model == ss[i] && ReadyOrder(ss[i]) == []
      requires |ws| == |ss| && ws[i] == WaitFor(ss[i], now) && Least(ws, i, best)
      modifies m
      ensures m.Valid() && m.model == TaskOps.Prune(ss[i]) && Least(ws, i + 1, better)
    {
      DeadlineIsWait(ss, i, now);
      LeastOfMore(ws, i, best);
      var deadline := m.NextDeadline();
      better := best;
      if deadline.Some? {
        var wait := if deadline.value <= now then 0 else deadline.value - now;
        if best.None? || wait < best.value {
          better := Some(wait);
        }
      }
    }
  }

  function Better(best: Option<int>, wait: Option<int>): Option<int> {
    if wait.Some? && (best.None? || wait.value < best.value) then wait else best
  }

  lemma LeastOfMore(ws: seq<Option<int>>, i: nat, best: Option<int>)
    requires i < |ws| && Least(ws, i, best)
    ensures Least(ws, i + 1, Better(best, ws[i]))
  {
    var better := Better(best, ws[i]);
    if better.Some? {
      if better == best {
        var j :| 0 <= j < i && ws[j] == best;
        assert ws[j] == better;
      } else {
        assert ws[i] == better;
      }
    }
  }

  /** Zero is the least wait there can be. */
  lemma ReadyWins(ss: seq<Sched>, ws: seq<Option<int>>, i: nat, now: Time)
    requires i < |ss| && ReadyOrder(ss[i]) != [] && ws == Waits(ss, now)
    ensures Least(ws, |ws|, Some(0))
  {
    assert ws[i] == Some(0);
  }
}
