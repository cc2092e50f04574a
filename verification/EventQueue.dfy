/** The asynchronous queue of an EventBus: posts from any thread, one consumer, callbacks that post
    more events, and callbacks that throw. */
module EventQueue {
  datatype Event = Event(kind: nat, payload: int)

  // ---------- every interleaving ----------

  /** Where the consumer is: outside process(), in its loop, or between a throw and the restore. */
  datatype Consumer = Outside | Looping | Unwinding

  /** `snapshot` is the local queue of process(); `posted` and `handled` are the observer's record of
      all posts in enqueue order and of all dispatched events. */
  datatype Bus = Bus(queue: seq<Event>, snapshot: seq<Event>, consumer: Consumer, posted: seq<Event>, handled: seq<Event>)

  datatype Action = Post(e: Event) | Swap | Dispatch(throws: bool) | Restore | Return

  const EMPTY_BUS: Bus := Bus([], [], Outside, [], [])

  predicate Step(b: Bus, a: Action, c: Bus) {
    match a
    case Post(e) => c == b.(queue := b.queue + [e], posted := b.posted + [e])
    case Swap => b.consumer.Outside? && c == b.(queue := [], snapshot := b.queue, consumer := Looping)
    case Dispatch(throws) =>
      b.consumer.Looping? && b.snapshot != []
      && c == b.(snapshot := b.snapshot[1..], handled := b.handled + [b.snapshot[0]],
                 consumer := if throws then Unwinding else Looping)
    case Restore => b.consumer.Unwinding? && c == b.(queue := b.snapshot + b.queue, snapshot := [], consumer := Outside)
    case Return => b.consumer.Looping? && b.snapshot == [] && c == b.(consumer := Outside)
  }

  /** The events dispatched so far, then the rest of the snapshot, then the queue, are all posts in
      enqueue order. */
  predicate InOrder(b: Bus) {
    b.handled + b.snapshot + b.queue == b.posted && (b.consumer.Outside? ==> b.snapshot == [])
  }

  lemma StepInOrder(b: Bus, a: Action, c: Bus)
    requires InOrder(b) && Step(b, a, c)
    ensures InOrder(c)
  {
    match a
    case Post(e) => assert b.handled + b.snapshot + (b.queue + [e]) == b.posted + [e];
    case Swap => assert b.handled + b.queue + [] == b.handled + [] + b.queue;
    case Dispatch(_) => assert b.snapshot == [b.snapshot[0]] + b.snapshot[1..];
    case Restore => assert b.handled + [] + (b.snapshot + b.queue) == b.handled + b.snapshot + b.queue;
    case Return =>
  }

  ghost predicate IsRun(bs: seq<Bus>, acts: seq<Action>) {
    |bs| == |acts| + 1 && InOrder(bs[0]) && forall i :: 0 <= i < |acts| ==> Step(bs[i], acts[i], bs[i + 1])
  }

  /** First in, first out, and exactly once, in every interleaving: what has been dispatched is always
      a prefix of what has been posted, thrown events included and never repeated, and what has not is
      still held, in order. */
  lemma FifoExactlyOnce(bs: seq<Bus>, acts: seq<Action>, i: nat)
    requires IsRun(bs, acts) && i < |bs|
    ensures InOrder(bs[i]) && bs[i].handled <= bs[i].posted
    ensures bs[i].consumer.Outside? ==> bs[i].handled + bs[i].queue == bs[i].posted
  {
    RunInOrder(bs, acts, i);
    Prefix(bs[i]);
  }

  lemma {:induction false} RunInOrder(bs: seq<Bus>, acts: seq<Action>, i: nat)
    requires IsRun(bs, acts) && i < |bs|
    ensures InOrder(bs[i])
  {
    if i == 0 {
    } else {
      RunInOrder(bs, acts, i - 1);
      assert Step(bs[i - 1], acts[i - 1], bs[i - 1 + 1]);
      StepInOrder(bs[i - 1], acts[i - 1], bs[i]);
    }
  }

  lemma Prefix(b: Bus)
    requires InOrder(b)
    ensures b.handled <= b.posted && (b.consumer.Outside? ==> b.handled + b.queue == b.posted)
  {
    assert b.handled + b.snapshot + b.queue == b.handled + (b.snapshot + b.queue);
  }

  /** Nothing dispatched is ever taken back or dispatched again. */
  lemma {:induction false} HandledGrows(bs: seq<Bus>, acts: seq<Action>, i: nat, j: nat)
    requires IsRun(bs, acts) && i <= j < |bs|
    ensures bs[i].handled <= bs[j].handled && bs[i].posted <= bs[j].posted
    decreases j
  {
    if i == j {
    } else {
      HandledGrows(bs, acts, i, j - 1);
      assert Step(bs[j - 1], acts[j - 1], bs[j - 1 + 1]);
    }
  }

  // ---------- the queue as an object ----------

  /** What happens while one event is dispatched: the posts that arrive, from callbacks or other
      threads, and whether an exception escapes. `late` are posts between that and the restore. */
  datatype Dispatched = Dispatched(posts: seq<Event>, throws: bool, late: seq<Event>)

  class EventBus {
    var queue: seq<Event>
    ghost var posted: seq<Event>
    ghost var handled: seq<Event>

    ghost predicate Valid()
      reads this
    {
      handled + queue == posted
    }

    constructor ()
      ensures Valid() && posted == [] && queue == []
    {
      queue, posted, handled := [], [], [];
    }

    method Enqueue(e: Event)
      modifies this`queue, this`posted
      ensures queue == old(queue) + [e] && posted == old(posted) + [e]
    {
      queue := queue + [e];
      posted := posted + [e];
    }

    method EnqueueAll(es: seq<Event>)
      modifies this`queue, this`posted
      ensures queue == old(queue) + es && posted == old(posted) + es
    {
      var i := 0;
      while i < |es|
        invariant 0 <= i <= |es| && queue == old(queue) + es[..i] && posted == old(posted) + es[..i]
      {
        Enqueue(es[i]);
        assert es[..i + 1] == es[..i] + [es[i]];
        i := i + 1;
      }
      assert es[..i] == es;
    }

    /** restore_unprocessed_events: the rest of the snapshot goes in front of what has arrived since. */
    method RestoreUnprocessed(remaining: seq<Event>)
      modifies this`queue
      ensures queue == remaining + old(queue)
    {
      if remaining == [] {
        return;
      }
      if queue == [] {
        queue := remaining;
        return;
      }
      var restored: seq<Event> := [];
      var i := 0;
      while i < |remaining|
        invariant 0 <= i <= |remaining| && restored == remaining[..i]
      {
        restored := restored + [remaining[i]];
        i := i + 1;
      }
      assert remaining[..i] == remaining;
      while queue != []
        invariant restored + queue == remaining + old(queue)
        decreases |queue|
      {
        assert restored + queue == restored + [queue[0]] + queue[1..];
        restored := restored + [queue[0]];
        queue := queue[1..];
      }
      queue := restored;
    }

    /** process(): the events queued at entry, in order, up to the first that throws; what was not
        dispatched stays ahead of everything posted meanwhile. */
    method Process(dispatch: Event -> Dispatched) returns (processed: nat, threw: bool)
      requires Valid()
      modifies this
      ensures Valid() && processed <= |old(queue)| && (threw ==> processed < |old(queue)|)
      ensures handled == old(handled) + old(queue)[..processed + if threw then 1 else 0]
      ensures !threw ==> processed == |old(queue)|
      ensures threw ==> dispatch(old(queue)[processed]).throws
      ensures forall k :: 0 <= k < processed ==> !dispatch(old(queue)[k]).throws
      ensures old(posted) <= posted
    {
      var snapshot := queue;
      queue := [];
      processed := 0;
      while processed < |snapshot|
        invariant 0 <= processed <= |snapshot| && snapshot == old(queue)
        invariant handled == old(handled) + snapshot[..processed]
        invariant handled + snapshot[processed..] + queue == posted && old(posted) <= posted
        invariant forall k :: 0 <= k < processed ==> !dispatch(snapshot[k]).throws
      {
        var result := dispatch(snapshot[processed]);
        Handle(snapshot, processed, result.posts);
        if result.throws {
          EnqueueAll(result.late);
          RestoreUnprocessed(snapshot[processed + 1..]);
          return processed, true;
        }
        processed := processed + 1;
      }
      threw := false;
    }

    /** One dispatch, with the posts that arrive during it. */
    method Handle(snapshot: seq<Event>, k: nat, posts: seq<Event>)
      requires k < |snapshot| && handled + snapshot[k..] + queue == posted
      modifies this
      ensures handled == old(handled) + [snapshot[k]] && queue == old(queue) + posts && posted == old(posted) + posts
      ensures handled + snapshot[k + 1..] + queue == posted
    {
      handled := handled + [snapshot[k]];
      assert snapshot[k..] == [snapshot[k]] + snapshot[k + 1..];
      EnqueueAll(posts);
    }
  }
}
