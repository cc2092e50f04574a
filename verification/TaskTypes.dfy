/** The data of a TaskManager: entries, control blocks and the containers that hold them.

    An `Entry` is what sits in a container; its `Control` block is shared with the id index.
    The source shares it through a `shared_ptr`; here all control blocks live in one table keyed
    by task id, so sharing a block is sharing its key. */
module TaskTypes {
  type TaskId = nat

  /** A steady-clock time point, in clock ticks. */
  type Time = int

  datatype Option<+T> = None | Some(value: T)

  datatype State = QueuedReady | QueuedDelayed | ReadySnapshot | Executing | Cancelled | Completed

  datatype PeriodicSchedule = FixedDelay | FixedRate

  datatype Entry = Entry(
    id: TaskId,
    seqNo: nat,
    priority: int,
    due: Time,
    periodic: bool,
    interval: int,
    schedule: PeriodicSchedule,
    planned: Time)

  datatype Control = Control(
    state: State,
    periodic: bool,
    rescheduleRequested: bool,
    rescheduleDue: Time)

  /** The three ready deques: high, normal, low. */
  type Deques = r: seq<seq<Entry>> | |r| == 3 witness [[], [], []]

  /** Everything the manager's mutex and atomics protect, plus the consumer's local snapshot: the
      part not yet visited (`batch`) and the entry in the hands of the callback (`running`).
      The delayed container is kept in heap order by the source; here it is the same entries,
      sorted by `Sooner` (module DelayedHeap connects the two). */
  datatype Sched = Sched(
    ready: Deques,
    delayed: seq<Entry>,
    batch: seq<Entry>,
    running: seq<Entry>,
    ctl: map<TaskId, Control>,
    index: set<TaskId>,
    readyCount: int,
    pendingCount: int,
    nextId: nat,
    nextSeq: nat,
    closed: bool)

  const EMPTY: Sched := Sched([[], [], []], [], [], [], map[], {}, 0, 0, 1, 1, false)

  /** The deque of a priority. An enumerator outside the three named ones counts as normal. */
  function PriorityIndex(priority: int): (p: nat)
    ensures p < 3
  {
    if 0 <= priority <= 2 then priority else 1
  }

  /** The order of the delayed heap: deadline first, then submission order. */
  predicate Sooner(a: Entry, b: Entry) {
    a.due < b.due || (a.due == b.due && a.seqNo < b.seqNo)
  }

  predicate Live(st: State) {
    st != Cancelled && st != Completed
  }

  predicate HasState(s: Sched, id: TaskId, st: State) {
    id in s.ctl && s.ctl[id].state == st
  }

  function WithState(s: Sched, id: TaskId, st: State): Sched
    requires id in s.ctl
  {
    s.(ctl := s.ctl[id := s.ctl[id].(state := st)])
  }
}
