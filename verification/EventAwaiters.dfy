/** Awaiters, timeouts and request-response pairs on one dispatching thread, with nested emits,
    cancellations and polls in any order. */
module EventAwaiters {
  import opened TaskTypes

  type RequestId = nat

  type WaiterId = nat

  /** A result event; other events carry request id zero. */
  datatype Event = Event(requestId: RequestId, payload: int)

  datatype Outcome = Delivered(w: WaiterId, e: Event) | TimedOut(w: WaiterId)

  // ---------- one awaiter ----------

  /** What an awaiter waits for, and whether it has been cancelled. */
  datatype Awaiter = Awaiter(once: bool, accepts: Event -> bool, deadline: Option<Time>, cancelled: bool)

  /** The awaiter after an event, and whether user code is to be called with it. */
  function AfterEvent(a: Awaiter, e: Event, tokenCancelled: bool): (Awaiter, bool) {
    if a.cancelled then (a, false)
    else if tokenCancelled then (a.(cancelled := true), false)
    else if !a.accepts(e) then (a, false)
    else (a.(cancelled := a.once), true)
  }

  /** The awaiter after a poll, and whether its timeout is to be reported. */
  function AfterPoll(a: Awaiter, now: Time, tokenCancelled: bool): (Awaiter, bool) {
    if a.cancelled then (a, false)
    else if tokenCancelled then (a.(cancelled := true), false)
    else if a.deadline.Some? && a.deadline.value <= now then (a.(cancelled := true), true)
    else (a, false)
  }

  /** An EventAwaiter. A method answers whether user code is to be called next; that code runs after
      the awaiter's own state has changed, so it may come back to the same awaiter. */
  class EventAwaiter {
    const once: bool
    const accepts: Event -> bool
    const deadline: Option<Time>
    var cancelled: bool
    var subscribed: bool
    var retained: bool

    /** How many times user code has been called with an outcome. */
    ghost var outcomes: nat

    ghost predicate Valid()
      reads this
    {
      && (once && outcomes > 0 ==> cancelled && outcomes == 1)
      && (cancelled ==> !subscribed && !retained) && (!cancelled ==> subscribed && retained == once)
    }

    ghost function View(): Awaiter
      reads this
    {
      Awaiter(once, accepts, deadline, cancelled)
    }

    constructor (once: bool, accepts: Event -> bool, deadline: Option<Time>)
      ensures Valid() && View() == Awaiter(once, accepts, deadline, false) && outcomes == 0
    {
      this.once, this.accepts, this.deadline := once, accepts, deadline;
      cancelled, subscribed, retained, outcomes := false, true, once, 0;
    }

    method Cancel()
      requires Valid()
      modifies this
      ensures Valid() && View() == old(View()).(cancelled := true) && outcomes == old(outcomes)
    {
      if cancelled {
        return;
      }
      cancelled := true;
      subscribed := false;
      retained := false;
    }

    method HandleEvent(e: Event, tokenCancelled: bool) returns (call: bool)
      requires Valid()
      modifies this
      ensures Valid() && (View(), call) == AfterEvent(old(View()), e, tokenCancelled)
      ensures call <==> !old(cancelled) && !tokenCancelled && accepts(e)
      ensures cancelled <==> old(cancelled) || tokenCancelled || (once && call)
      ensures outcomes == old(outcomes) + if call then 1 else 0
    {
      if cancelled {
        return false;
      }
      if tokenCancelled {
        Cancel();
        return false;
      }
      if !accepts(e) {
        return false;
      }
      if once {
        Cancel();
      }
      outcomes := outcomes + 1;
      return true;
    }

    method PollTimeout(now: Time, tokenCancelled: bool) returns (call: bool)
      requires Valid()
      modifies this
      ensures Valid() && (View(), call) == AfterPoll(old(View()), now, tokenCancelled)
      ensures call <==> !old(cancelled) && !tokenCancelled && deadline.Some? && deadline.value <= now
      ensures cancelled <==> old(cancelled) || tokenCancelled || call
      ensures outcomes == old(outcomes) + if call then 1 else 0
    {
      if cancelled {
        return false;
      }
      if tokenCancelled {
        Cancel();
        return false;
      }
      if deadline.Some? && deadline.value <= now {
        Cancel();
        outcomes := outcomes + 1;
        return true;
      }
      return false;
    }
  }

  /** RequestIdGenerator: ids start from 1. */
  class RequestIdGenerator {
    var upcoming: RequestId

    constructor ()
      ensures upcoming == 1
    {
      upcoming := 1;
    }

    method Next() returns (id: RequestId)
      modifies this
      ensures id == if old(upcoming) == 0 then 1 else old(upcoming)
      ensures id != 0 && upcoming == id + 1
    {
      id := upcoming;
      upcoming := upcoming + 1;
      if id == 0 {
        id := upcoming;
        upcoming := upcoming + 1;
      }
    }
  }

  // ---------- many awaiters and requests ----------

  /** `request` is the id of the request this awaiter belongs to; a promise counts how often it is set. */
  datatype Promise = NoPromise | Promise(completed: bool, sets: nat)

  datatype Waiter = Waiter(a: Awaiter, request: Option<RequestId>, promise: Promise)

  datatype Bus = Bus(waiters: seq<Waiter>, upcoming: RequestId, log: seq<Outcome>)

  datatype Action =
    | Await(once: bool, accepts: Event -> bool, deadline: Option<Time>)
    | Request(deadline: Option<Time>, future: bool)
    | Handle(w: WaiterId, e: Event, tokenCancelled: bool)
    | Poll(w: WaiterId, now: Time, tokenCancelled: bool)
    | Cancel(w: WaiterId)

  const EMPTY_BUS: Bus := Bus([], 1, [])

  /** The closures of request_future: the first outcome sets the promise. */
  function Complete(p: Promise): Promise {
    if p.Promise? && !p.completed then Promise(true, p.sets + 1) else p
  }

  function WithAwaiter(b: Bus, w: WaiterId, a: Awaiter): Bus
    requires w < |b.waiters|
  {
    b.(waiters := b.waiters[w := b.waiters[w].(a := a)])
  }

  function Cancelled(b: Bus, w: WaiterId): Bus
    requires w < |b.waiters|
  {
    WithAwaiter(b, w, b.waiters[w].a.(cancelled := true))
  }

  /** User code of awaiter `w` is called with an outcome. */
  function Called(b: Bus, w: WaiterId, o: Outcome): Bus
    requires w < |b.waiters|
  {
    b.(waiters := b.waiters[w := b.waiters[w].(promise := Complete(b.waiters[w].promise))], log := b.log + [o])
  }

  function HandleEvent(b: Bus, w: WaiterId, e: Event, tokenCancelled: bool): Bus
    requires w < |b.waiters|
  {
    var (a, call) := AfterEvent(b.waiters[w].a, e, tokenCancelled);
    if call then Called(WithAwaiter(b, w, a), w, Delivered(w, e)) else WithAwaiter(b, w, a)
  }

  function PollTimeout(b: Bus, w: WaiterId, now: Time, tokenCancelled: bool): Bus
    requires w < |b.waiters|
  {
    var (a, call) := AfterPoll(b.waiters[w].a, now, tokenCancelled);
    if call then Called(WithAwaiter(b, w, a), w, TimedOut(w)) else WithAwaiter(b, w, a)
  }

  /** The predicate request() gives its awaiter. */
  function Matching(id: RequestId): Event -> bool {
    (e: Event) => e.requestId == id
  }

  ghost predicate Step(b: Bus, a: Action, c: Bus) {
    match a
    case Await(once, accepts, deadline) =>
      c == b.(waiters := b.waiters + [Waiter(Awaiter(once, accepts, deadline, false), None, NoPromise)])
    case Request(deadline, future) =>
      var id := b.upcoming;
      c == b.(waiters := b.waiters + [Waiter(Awaiter(true, Matching(id), deadline, false), Some(id),
                                             if future then Promise(false, 0) else NoPromise)],
              upcoming := id + 1)
    case Handle(w, e, tc) => w < |b.waiters| && c == HandleEvent(b, w, e, tc)
    case Poll(w, now, tc) => w < |b.waiters| && c == PollTimeout(b, w, now, tc)
    case Cancel(w) => w < |b.waiters| && c == Cancelled(b, w)
  }

  // ---------- the invariant ----------

  function OutcomesOf(log: seq<Outcome>, w: WaiterId): seq<Outcome> {
    if log == [] then []
    else OutcomesOf(log[..|log| - 1], w) + (if log[|log| - 1].w == w then [log[|log| - 1]] else [])
  }

  lemma OutcomesGrow(log: seq<Outcome>, o: Outcome, w: WaiterId)
    ensures OutcomesOf(log + [o], w) == OutcomesOf(log, w) + (if o.w == w then [o] else [])
  {
    assert (log + [o])[..|log|] == log;
  }

  ghost predicate WaiterOk(b: Bus, w: WaiterId)
    requires w < |b.waiters|
  {
    var x, n := b.waiters[w], |OutcomesOf(b.log, w)|;
    && (x.a.once ==> n <= 1 && (n == 1 ==> x.a.cancelled))
    && (x.promise.Promise? ==> x.a.once && x.promise.sets == n && (x.promise.completed <==> n == 1))
    && (x.request.Some? ==> 0 < x.request.value < b.upcoming && x.a.once && forall e :: x.a.accepts(e) <==> e.requestId == x.request.value)
  }

  ghost predicate OutcomeOk(b: Bus, o: Outcome) {
    o.w < |b.waiters| && (o.Delivered? ==> b.waiters[o.w].a.accepts(o.e))
  }

  ghost predicate Valid(b: Bus) {
    && b.upcoming >= 1
    && (forall w :: 0 <= w < |b.waiters| ==> WaiterOk(b, w))
    && (forall o :: o in b.log ==> OutcomeOk(b, o))
    && (forall v, w :: 0 <= v < w < |b.waiters| && b.waiters[v].request.Some? && b.waiters[w].request.Some? ==>
          b.waiters[v].request.value < b.waiters[w].request.value)
  }

  lemma {:induction false} NoOutcomeYet(b: Bus, log: seq<Outcome>, w: WaiterId)
    requires (forall o :: o in log ==> OutcomeOk(b, o)) && w >= |b.waiters|
    ensures OutcomesOf(log, w) == []
  {
    if log == [] {
    } else {
      NoOutcomeYet(b, log[..|log| - 1], w);
      assert log[|log| - 1] in log;
    }
  }

  lemma AddValid(b: Bus, a: Action, c: Bus)
    requires Valid(b) && Step(b, a, c) && (a.Await? || a.Request?)
    ensures Valid(c)
  {
    NoOutcomeYet(b, b.log, |b.waiters|);
    forall w | 0 <= w < |c.waiters|
      ensures WaiterOk(c, w)
    {
      if w < |b.waiters| {
        assert WaiterOk(b, w);
      }
    }
    forall o | o in c.log
      ensures OutcomeOk(c, o)
    {
      assert OutcomeOk(b, o);
    }
    forall v | 0 <= v < |b.waiters| && b.waiters[v].request.Some?
      ensures b.waiters[v].request.value < b.upcoming
    {
      assert WaiterOk(b, v);
    }
  }

  /** Cancelling an awaiter, or leaving it as it is. */
  lemma CancelledValid(b: Bus, w: WaiterId, a: Awaiter)
    requires Valid(b) && w < |b.waiters| && (a == b.waiters[w].a || a == b.waiters[w].a.(cancelled := true))
    ensures Valid(WithAwaiter(b, w, a))
  {
    var c := WithAwaiter(b, w, a);
    forall v | 0 <= v < |c.waiters|
      ensures WaiterOk(c, v)
    {
      assert WaiterOk(b, v);
    }
    forall o | o in c.log
      ensures OutcomeOk(c, o)
    {
      assert OutcomeOk(b, o);
    }
  }

  lemma CalledValid(b: Bus, w: WaiterId, o: Outcome)
    requires Valid(b) && w < |b.waiters| && o.w == w
    requires if b.waiters[w].a.once then OutcomesOf(b.log, w) == [] && b.waiters[w].a.cancelled else true
    requires o.Delivered? ==> b.waiters[w].a.accepts(o.e)
    ensures Valid(Called(b, w, o))
  {
    var c := Called(b, w, o);
    forall v | 0 <= v < |c.waiters|
      ensures WaiterOk(c, v)
    {
      assert WaiterOk(b, v);
      OutcomesGrow(b.log, o, v);
    }
    forall p | p in c.log
      ensures OutcomeOk(c, p)
    {
      if p in b.log {
        assert OutcomeOk(b, p);
      }
    }
  }

  /** Every event, poll and cancellation keeps: at most one outcome per one-shot awaiter, a promise set
      exactly as often as there was an outcome, and results only for their own request. */
  lemma StepValid(b: Bus, a: Action, c: Bus)
    requires Valid(b) && Step(b, a, c)
    ensures Valid(c)
  {
    match a
    case Await(_, _, _) => AddValid(b, a, c);
    case Request(_, _) => AddValid(b, a, c);
    case Cancel(w) => CancelledValid(b, w, b.waiters[w].a.(cancelled := true));
    case Handle(w, e, tc) =>
      assert WaiterOk(b, w);
      var (next, call) := AfterEvent(b.waiters[w].a, e, tc);
      CancelledValid(b, w, next);
      if call {
        CalledValid(WithAwaiter(b, w, next), w, Delivered(w, e));
      }
    case Poll(w, now, tc) =>
      assert WaiterOk(b, w);
      var (next, call) := AfterPoll(b.waiters[w].a, now, tc);
      CancelledValid(b, w, next);
      if call {
        CalledValid(WithAwaiter(b, w, next), w, TimedOut(w));
      }
  }

  // ---------- runs ----------

  ghost predicate IsRun(bs: seq<Bus>, acts: seq<Action>) {
    |bs| == |acts| + 1 && Valid(bs[0]) && forall i :: 0 <= i < |acts| ==> Step(bs[i], acts[i], bs[i + 1])
  }

  lemma {:induction false} RunValid(bs: seq<Bus>, acts: seq<Action>, i: nat)
    requires IsRun(bs, acts) && i < |bs|
    ensures Valid(bs[i])
  {
    if i == 0 {
    } else {
      RunValid(bs, acts, i - 1);
      assert Step(bs[i - 1], acts[i - 1], bs[i - 1 + 1]);
      StepValid(bs[i - 1], acts[i - 1], bs[i]);
    }
  }

  /** A one-shot awaiter yields at most one of its callback and its timeout, ever; a promise is set at
      most once, and exactly when there was an outcome. */
  lemma OneOutcome(bs: seq<Bus>, acts: seq<Action>, i: nat, w: WaiterId)
    requires IsRun(bs, acts) && i < |bs| && w < |bs[i].waiters| && bs[i].waiters[w].a.once
    ensures |OutcomesOf(bs[i].log, w)| <= 1
    ensures var p := bs[i].waiters[w].promise; p.Promise? ==> p.sets <= 1 && p.sets == |OutcomesOf(bs[i].log, w)|
  {
    RunValid(bs, acts, i);
    assert WaiterOk(bs[i], w);
  }

  /** What one step can do to an awaiter that is there already. */
  lemma StepWaiter(b: Bus, a: Action, c: Bus, w: WaiterId)
    requires Step(b, a, c) && w < |b.waiters|
    ensures w < |c.waiters| && c.waiters[w].a.once == b.waiters[w].a.once && c.waiters[w].request == b.waiters[w].request
    ensures b.waiters[w].a.cancelled ==> c.waiters[w].a.cancelled && OutcomesOf(c.log, w) == OutcomesOf(b.log, w)
  {
    match a
    case Handle(v, e, tc) => OutcomesGrow(b.log, Delivered(v, e), w);
    case Poll(v, now, tc) => OutcomesGrow(b.log, TimedOut(v), w);
    case _ =>
  }

  /** Once cancelled, by anybody and from anywhere, an awaiter yields nothing more, even if an event
      for it has been copied for dispatch already. */
  lemma {:induction false} SilentOnceCancelled(bs: seq<Bus>, acts: seq<Action>, i: nat, j: nat, w: WaiterId)
    requires IsRun(bs, acts) && i <= j < |bs| && w < |bs[i].waiters| && bs[i].waiters[w].a.cancelled
    ensures w < |bs[j].waiters| && bs[j].waiters[w].a.cancelled && OutcomesOf(bs[j].log, w) == OutcomesOf(bs[i].log, w)
    decreases j
  {
    if i == j {
    } else {
      SilentOnceCancelled(bs, acts, i, j - 1, w);
      assert Step(bs[j - 1], acts[j - 1], bs[j - 1 + 1]);
      StepWaiter(bs[j - 1], acts[j - 1], bs[j], w);
    }
  }

  /** Any number of outstanding requests: ids are distinct, and a result that was delivered to the
      awaiter of a request carried the id of that request and of no other. */
  lemma OwnResults(bs: seq<Bus>, acts: seq<Action>, i: nat, v: WaiterId, w: WaiterId, e: Event)
    requires IsRun(bs, acts) && i < |bs| && v < |bs[i].waiters| && w < |bs[i].waiters|
    requires bs[i].waiters[v].request.Some? && bs[i].waiters[w].request.Some? && Delivered(v, e) in bs[i].log
    ensures bs[i].waiters[v].request == Some(e.requestId)
    ensures v != w ==> bs[i].waiters[w].request != Some(e.requestId) && Delivered(w, e) !in bs[i].log
  {
    RunValid(bs, acts, i);
    var b := bs[i];
    assert OutcomeOk(b, Delivered(v, e)) && WaiterOk(b, v) && WaiterOk(b, w);
    if Delivered(w, e) in b.log {
      assert OutcomeOk(b, Delivered(w, e));
    }
  }

  // ---------- what is delivered ----------

  /** User code hears of an event exactly if its awaiter is active, its token is not cancelled and it accepts
      the event, of a timeout exactly if the deadline has come; nothing else is reported, to anybody. */
  lemma Reports(b: Bus, a: Action, c: Bus)
    requires Step(b, a, c)
    ensures match a
      case Handle(w, e, tc) =>
        c.log == b.log + if !b.waiters[w].a.cancelled && !tc && b.waiters[w].a.accepts(e) then [Delivered(w, e)] else []
      case Poll(w, now, tc) =>
        var x := b.waiters[w].a;
        c.log == b.log + if !x.cancelled && !tc && x.deadline.Some? && x.deadline.value <= now then [TimedOut(w)] else []
      case _ => c.log == b.log
  {
  }

  /** Request `w` with number `id` is still waiting for its result. */
  ghost predicate Outstanding(b: Bus, w: WaiterId, id: RequestId, deadline: Option<Time>, future: bool) {
    && w < |b.waiters| && !b.waiters[w].a.cancelled && b.waiters[w].a.deadline == deadline && b.waiters[w].request == Some(id)
    && WaiterOk(b, w) && b.waiters[w].promise.Promise? == future
  }

  /** The step ends the wait of request `w`: its result, its timeout, or a cancellation. */
  predicate EndsWait(a: Action, w: WaiterId, id: RequestId, deadline: Option<Time>) {
    match a
    case Handle(v, e, tc) => v == w && (tc || e.requestId == id)
    case Poll(v, now, tc) => v == w && (tc || (deadline.Some? && deadline.value <= now))
    case Cancel(v) => v == w
    case _ => false
  }

  lemma StaysOutstanding(b: Bus, a: Action, c: Bus, w: WaiterId, id: RequestId, deadline: Option<Time>, future: bool)
    requires Valid(b) && Step(b, a, c) && Outstanding(b, w, id, deadline, future) && !EndsWait(a, w, id, deadline)
    ensures Outstanding(c, w, id, deadline, future)
  {
    StepValid(b, a, c);
  }

  lemma {:induction false} WaitsOn(bs: seq<Bus>, acts: seq<Action>, i: nat, j: nat, w: WaiterId, deadline: Option<Time>, future: bool)
    requires IsRun(bs, acts) && i < j < |bs| && acts[i].Request? && acts[i].deadline == deadline && acts[i].future == future && w == |bs[i].waiters|
    requires forall k :: i < k < j ==> !EndsWait(acts[k], w, bs[i].upcoming, deadline)
    ensures Outstanding(bs[j], w, bs[i].upcoming, deadline, future)
    decreases j
  {
    var k := j - 1;
    RunValid(bs, acts, k);
    assert Step(bs[k], acts[k], bs[k + 1]);
    StepValid(bs[k], acts[k], bs[k + 1]);
    if k == i {
      assert WaiterOk(bs[j], w);
    } else {
      WaitsOn(bs, acts, i, k, w, deadline, future);
      StaysOutstanding(bs[k], acts[k], bs[j], w, bs[i].upcoming, deadline, future);
    }
  }

  /** A request gets its result: the first event with its number that comes before it is cancelled or timed
      out is delivered to it, and to a request that was made for a future it sets the promise. */
  lemma FirstResultDelivered(bs: seq<Bus>, acts: seq<Action>, i: nat, j: nat, e: Event)
    requires IsRun(bs, acts) && i < j < |acts| && acts[i].Request? && e.requestId == bs[i].upcoming
    requires acts[j] == Handle(|bs[i].waiters|, e, false)
    requires forall k :: i < k < j ==> !EndsWait(acts[k], |bs[i].waiters|, bs[i].upcoming, acts[i].deadline)
    ensures var w := |bs[i].waiters|;
      && bs[j + 1].log == bs[j].log + [Delivered(w, e)] && w < |bs[j + 1].waiters| && bs[j + 1].waiters[w].a.cancelled
      && bs[j + 1].waiters[w].promise == if acts[i].future then Promise(true, 1) else NoPromise
  {
    var w := |bs[i].waiters|;
    WaitsOn(bs, acts, i, j, w, acts[i].deadline, acts[i].future);
    assert Step(bs[j], acts[j], bs[j + 1]);
    Reports(bs[j], acts[j], bs[j + 1]);
  }

  /** The awaiter is the one that was asked for, and is active. */
  ghost predicate Listening(b: Bus, w: WaiterId, x: Awaiter) {
    w < |b.waiters| && b.waiters[w].a == x && !x.cancelled
  }

  /** The step ends the wait of awaiter `w`: a cancellation, its timeout, or its event if it waits for one only. */
  predicate EndsListening(a: Action, w: WaiterId, x: Awaiter) {
    match a
    case Handle(v, e, tc) => v == w && (tc || (x.once && x.accepts(e)))
    case Poll(v, now, tc) => v == w && (tc || (x.deadline.Some? && x.deadline.value <= now))
    case Cancel(v) => v == w
    case _ => false
  }

  lemma StaysListening(b: Bus, a: Action, c: Bus, w: WaiterId, x: Awaiter)
    requires Step(b, a, c) && Listening(b, w, x) && !EndsListening(a, w, x)
    ensures Listening(c, w, x)
  {
  }

  lemma {:induction false} ListensOn(bs: seq<Bus>, acts: seq<Action>, i: nat, j: nat, w: WaiterId, x: Awaiter)
    requires IsRun(bs, acts) && i < j < |bs| && w == |bs[i].waiters|
    requires !x.cancelled && acts[i] == Await(x.once, x.accepts, x.deadline)
    requires forall k :: i < k < j ==> !EndsListening(acts[k], w, x)
    ensures Listening(bs[j], w, x)
    decreases j
  {
    var k := j - 1;
    assert Step(bs[k], acts[k], bs[k + 1]);
    if k == i {
    } else {
      ListensOn(bs, acts, i, k, w, x);
      StaysListening(bs[k], acts[k], bs[j], w, x);
    }
  }

  /** await_each and await_once: until its wait ends, an awaiter is told of every event that comes to it and
      that it accepts, and of no other. */
  lemma AwaiterHears(bs: seq<Bus>, acts: seq<Action>, i: nat, j: nat, x: Awaiter, e: Event)
    requires IsRun(bs, acts) && i < j < |acts| && !x.cancelled && acts[i] == Await(x.once, x.accepts, x.deadline)
    requires acts[j] == Handle(|bs[i].waiters|, e, false)
    requires forall k :: i < k < j ==> !EndsListening(acts[k], |bs[i].waiters|, x)
    ensures bs[j + 1].log == bs[j].log + if x.accepts(e) then [Delivered(|bs[i].waiters|, e)] else []
  {
    ListensOn(bs, acts, i, j, |bs[i].waiters|, x);
    assert Step(bs[j], acts[j], bs[j + 1]);
    Reports(bs[j], acts[j], bs[j + 1]);
  }
}
