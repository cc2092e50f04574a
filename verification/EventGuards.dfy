/** Dispatch with lifetime guards: copied callback lists, nested and parallel dispatches, and an
    endpoint that closes while its callbacks run. */
module EventGuards {
  import opened TaskTypes

  type EndpointId = nat

  type FrameId = nat

  /** A record's guard: none, a weak reference to an endpoint's guard, or a weak reference taken from
      an endpoint that was closed already, which never locks. */
  datatype Guard = Unguarded | Weak(ep: EndpointId) | Expired

  datatype Record = Record(id: nat, owner: EndpointId, kind: nat, guard: Guard)

  /** A dispatch in progress: the records still to visit, and the one whose callback is running, with
      the strong reference it holds. */
  datatype Frame = Frame(rest: seq<Record>, running: Option<Record>)

  /** `strong` is the reference count of each endpoint's guard, `used` the subscription ids given so far. */
  datatype Bus = Bus(open: set<EndpointId>, strong: map<EndpointId, nat>, subs: seq<Record>, used: set<nat>,
                     frames: map<FrameId, Frame>)

  datatype Action =
    | Create(ep: EndpointId)
    | Subscribe(ep: EndpointId, kind: nat, id: nat)
    | SubscribeUnguarded(ep: EndpointId, kind: nat, id: nat)
    | Unsubscribe(id: nat)
    | Emit(f: FrameId, kind: nat)
    | Visit(f: FrameId)
    | Returned(f: FrameId)
    | Thrown(f: FrameId)
    | Finish(f: FrameId)
    | Close(ep: EndpointId)
    | UnsubscribeAll(ep: EndpointId)

  function OfKind(q: seq<Record>, kind: nat): seq<Record> {
    if q == [] then [] else (if q[0].kind == kind then [q[0]] else []) + OfKind(q[1..], kind)
  }

  function Drop(q: seq<Record>, id: nat): seq<Record> {
    if q == [] then [] else (if q[0].id == id then [] else [q[0]]) + Drop(q[1..], id)
  }

  function DropOwner(q: seq<Record>, ep: EndpointId): seq<Record> {
    if q == [] then [] else (if q[0].owner == ep then [] else [q[0]]) + DropOwner(q[1..], ep)
  }

  /** weak_ptr::lock succeeds while some strong reference is left. */
  predicate Locks(b: Bus, g: Guard) {
    g.Unguarded? || (g.Weak? && g.ep in b.strong && b.strong[g.ep] > 0)
  }

  function Hold(b: Bus, g: Guard): map<EndpointId, nat> {
    if g.Weak? && g.ep in b.strong then b.strong[g.ep := b.strong[g.ep] + 1] else b.strong
  }

  function Release(b: Bus, g: Guard): map<EndpointId, nat> {
    if g.Weak? && g.ep in b.strong && b.strong[g.ep] > 0 then b.strong[g.ep := b.strong[g.ep] - 1] else b.strong
  }

  /** A subscription takes its id before the bus's lock and is added under it, so ids need not be added in the
      order in which they are given; an id is never given twice. close() of an endpoint is two steps: it resets the guard, and then unsubscribes under the bus's
      lock. In between, another thread can still copy its records. */
  predicate Step(b: Bus, a: Action, c: Bus) {
    match a
    case Create(ep) => ep !in b.strong && c == b.(open := b.open + {ep}, strong := b.strong[ep := 1])
    case Subscribe(ep, kind, id) =>
      ep in b.strong && id !in b.used
      && c == b.(subs := b.subs + [Record(id, ep, kind, if ep in b.open then Weak(ep) else Expired)], used := b.used + {id})
    case SubscribeUnguarded(ep, kind, id) =>
      id !in b.used && c == b.(subs := b.subs + [Record(id, ep, kind, Unguarded)], used := b.used + {id})
    case Unsubscribe(id) => c == b.(subs := Drop(b.subs, id))
    case Emit(f, kind) => f !in b.frames && c == b.(frames := b.frames[f := Frame(OfKind(b.subs, kind), None)])
    case Visit(f) =>
      f in b.frames && b.frames[f].running.None? && b.frames[f].rest != []
      && var (r, rest) := (b.frames[f].rest[0], b.frames[f].rest[1..]);
         c == if Locks(b, r.guard) then b.(strong := Hold(b, r.guard), frames := b.frames[f := Frame(rest, Some(r))])
              else b.(frames := b.frames[f := Frame(rest, None)])
    case Returned(f) =>
      f in b.frames && b.frames[f].running.Some?
      && c == b.(strong := Release(b, b.frames[f].running.value.guard), frames := b.frames[f := b.frames[f].(running := None)])
    case Thrown(f) =>
      f in b.frames && b.frames[f].running.Some?
      && c == b.(strong := Release(b, b.frames[f].running.value.guard), frames := b.frames - {f})
    case Finish(f) => f in b.frames && b.frames[f] == Frame([], None) && c == b.(frames := b.frames - {f})
    case Close(ep) =>
      ep in b.strong
      && c == b.(open := b.open - {ep}, strong := if ep in b.open then Release(b, Weak(ep)) else b.strong)
    case UnsubscribeAll(ep) => c == b.(subs := DropOwner(b.subs, ep))
  }

  const EMPTY_BUS: Bus := Bus({}, map[], [], {}, map[])

  // ---------- the reference count ----------

  /** The dispatches in which a callback of `ep` is running. */
  ghost function InFlight(b: Bus, ep: EndpointId): set<FrameId> {
    set f | f in b.frames && b.frames[f].running.Some? && b.frames[f].running.value.guard == Weak(ep)
  }

  ghost predicate Counted(b: Bus, ep: EndpointId) {
    && (ep in b.strong ==> b.strong[ep] == (if ep in b.open then 1 else 0) + |InFlight(b, ep)|)
    && (ep !in b.strong ==> ep !in b.open && InFlight(b, ep) == {})
  }

  ghost predicate Valid(b: Bus) {
    forall ep :: Counted(b, ep)
  }

  lemma SetGains(a: set<FrameId>, b: set<FrameId>, f: FrameId)
    requires b - {f} == a - {f}
    ensures |b| == |a| - (if f in a then 1 else 0) + (if f in b then 1 else 0)
  {
    assert |a - {f}| == |a| - (if f in a then 1 else 0);
    assert |b - {f}| == |b| - (if f in b then 1 else 0);
  }

  lemma StepCounts(b: Bus, a: Action, c: Bus, ep: EndpointId)
    requires Valid(b) && Step(b, a, c)
    ensures Counted(c, ep)
  {
    assert Counted(b, ep);
    if a.Emit? || a.Visit? || a.Returned? || a.Thrown? || a.Finish? {
      assert InFlight(c, ep) - {a.f} == InFlight(b, ep) - {a.f};
      SetGains(InFlight(b, ep), InFlight(c, ep), a.f);
    } else {
      assert InFlight(c, ep) == InFlight(b, ep);
    }
  }

  /** Every step keeps the count exact: one for an open endpoint, and one for each of its callbacks in
      flight, in whichever dispatch it runs. */
  lemma StepValid(b: Bus, a: Action, c: Bus)
    requires Valid(b) && Step(b, a, c)
    ensures Valid(c)
  {
    forall ep: EndpointId
      ensures Counted(c, ep)
    {
      StepCounts(b, a, c, ep);
    }
  }

  // ---------- runs ----------

  ghost predicate IsRun(bs: seq<Bus>, acts: seq<Action>) {
    |bs| == |acts| + 1 && Valid(bs[0]) && forall i :: 0 <= i < |acts| ==> Step(bs[i], acts[i], bs[i + 1])
  }

  /** A guarded callback of `ep` starts in this step. */
  predicate StartsIn(b: Bus, a: Action, ep: EndpointId) {
    a.Visit? && a.f in b.frames && b.frames[a.f].rest != [] && b.frames[a.f].rest[0].guard == Weak(ep) && Locks(b, Weak(ep))
  }

  predicate Closed(b: Bus, ep: EndpointId) {
    ep in b.strong && ep !in b.open
  }

  lemma {:induction false} RunValid(bs: seq<Bus>, acts: seq<Action>, i: nat)
    requires IsRun(bs, acts) && i < |bs|
    ensures Valid(bs[i])
  {
    if i == 0 {
    } else {
      RunValid(bs, acts, i - 1);
      assert Step(bs[i - 1], acts[i - 1], bs[i - 1 + 1]);
      StepValid(bs[i - 1], acts[i - 1], bs[i]);
    }
  }

  lemma {:induction false} StaysClosed(bs: seq<Bus>, acts: seq<Action>, i: nat, j: nat, ep: EndpointId)
    requires IsRun(bs, acts) && i <= j < |bs| && Closed(bs[i], ep)
    ensures Closed(bs[j], ep)
    decreases j
  {
    if i == j {
    } else {
      StaysClosed(bs, acts, i, j - 1, ep);
      assert Step(bs[j - 1], acts[j - 1], bs[j - 1 + 1]);
    }
  }

  /** Once an endpoint is closed its count is the number of its callbacks in flight. One of its
      callbacks, even one copied before, can start only while another one is still in flight. */
  lemma StartsAfterCloseOnlyInFlight(bs: seq<Bus>, acts: seq<Action>, i: nat, j: nat, ep: EndpointId)
    requires IsRun(bs, acts) && i <= j < |acts| && Closed(bs[i], ep)
    ensures ep in bs[j].strong && bs[j].strong[ep] == |InFlight(bs[j], ep)|
    ensures Locks(bs[j], Weak(ep)) <==> InFlight(bs[j], ep) != {}
    ensures StartsIn(bs[j], acts[j], ep) ==> exists g :: g in InFlight(bs[j], ep) && g != acts[j].f
  {
    StaysClosed(bs, acts, i, j, ep);
    RunValid(bs, acts, j);
    assert Counted(bs[j], ep);
    if StartsIn(bs[j], acts[j], ep) {
      assert Step(bs[j], acts[j], bs[j + 1]);
      assert InFlight(bs[j], ep) != {};
      var g :| g in InFlight(bs[j], ep);
    }
  }

  /** Once nothing of a closed endpoint is in flight, nothing of it ever starts again, and its count
      stays zero: not from a list copied before, not from a later subscription. */
  lemma {:induction false} DeadForGood(bs: seq<Bus>, acts: seq<Action>, i: nat, j: nat, ep: EndpointId)
    requires IsRun(bs, acts) && i <= j < |bs| && Closed(bs[i], ep) && InFlight(bs[i], ep) == {}
    ensures Closed(bs[j], ep) && InFlight(bs[j], ep) == {} && bs[j].strong[ep] == 0
    ensures j < |acts| ==> !StartsIn(bs[j], acts[j], ep)
    decreases j
  {
    StaysClosed(bs, acts, i, j, ep);
    RunValid(bs, acts, j);
    if i == j {
    } else {
      DeadForGood(bs, acts, i, j - 1, ep);
      assert Step(bs[j - 1], acts[j - 1], bs[j - 1 + 1]);
      RunValid(bs, acts, j - 1);
      assert Counted(bs[j - 1], ep);
      StaysEmpty(bs[j - 1], acts[j - 1], bs[j], ep);
    }
    assert Counted(bs[j], ep);
  }

  lemma StaysEmpty(b: Bus, a: Action, c: Bus, ep: EndpointId)
    requires Step(b, a, c) && InFlight(b, ep) == {} && !StartsIn(b, a, ep)
    ensures InFlight(c, ep) == {}
  {
    assert InFlight(c, ep) <= InFlight(b, ep);
  }

  /** One thread, and no dispatch from inside a callback. */
  ghost predicate OneDispatch(bs: seq<Bus>) {
    forall i :: 0 <= i < |bs| ==> |bs[i].frames| <= 1
  }

  /** With un-nested single-threaded dispatch nothing of an endpoint starts once it is closed, not even
      after the callback that closed it. */
  lemma NothingStartsAfterClose(bs: seq<Bus>, acts: seq<Action>, i: nat, j: nat, ep: EndpointId)
    requires IsRun(bs, acts) && OneDispatch(bs) && i <= j < |acts| && Closed(bs[i], ep)
    ensures !StartsIn(bs[j], acts[j], ep)
  {
    StartsAfterCloseOnlyInFlight(bs, acts, i, j, ep);
    if StartsIn(bs[j], acts[j], ep) {
      var g :| g in InFlight(bs[j], ep) && g != acts[j].f;
      assert {g, acts[j].f} <= bs[j].frames.Keys;
      Smaller({g, acts[j].f}, bs[j].frames.Keys);
    }
  }

  lemma Smaller(a: set<FrameId>, b: set<FrameId>)
    requires a <= b
    ensures |a| <= |b|
  {
    assert b == a + (b - a);
  }

  /** With a nested dispatch it can: the callback in flight keeps the guard alive, and a second
      callback of the closed endpoint, already copied by the nested dispatch, starts. */
  lemma NestedStartAfterClose()
    returns (bs: seq<Bus>, acts: seq<Action>)
    ensures IsRun(bs, acts) && bs[0] == EMPTY_BUS
    ensures exists j :: 0 <= j < |acts| && Closed(bs[j], 1) && StartsIn(bs[j], acts[j], 1)
  {
    var r, s := Record(1, 1, 7, Weak(1)), Record(2, 1, 8, Weak(1));
    var b1 := Bus({1}, map[1 := 1], [], {}, map[]);
    var b2 := b1.(subs := [r], used := {1});
    var b3 := b2.(subs := [r, s], used := {1, 2});
    var b4 := b3.(frames := map[0 := Frame([r], None)]);
    var b5 := b4.(frames := map[0 := Frame([], Some(r))], strong := map[1 := 2]);
    var b6 := b5.(frames := map[0 := Frame([], Some(r)), 1 := Frame([s], None)]);
    var b7 := b6.(open := {}, strong := map[1 := 1]);
    var b8 := b7.(subs := []);
    var b9 := b8.(frames := map[0 := Frame([], Some(r)), 1 := Frame([], Some(s))], strong := map[1 := 2]);
    bs := [EMPTY_BUS, b1, b2, b3, b4, b5, b6, b7, b8, b9];
    acts := [Create(1), Subscribe(1, 7, 1), Subscribe(1, 8, 2), Emit(0, 7), Visit(0), Emit(1, 8), Close(1), UnsubscribeAll(1), Visit(1)];
    NestedSubscribe(r, s, b1, b2, b3);
    NestedDispatch(r, s, b3, b4, b5);
    NestedClose(r, s, b5, b6, b7, b8, b9);
    assert Valid(EMPTY_BUS);
    assert Closed(bs[8], 1) && StartsIn(bs[8], acts[8], 1);
  }

  lemma NestedSubscribe(r: Record, s: Record, b1: Bus, b2: Bus, b3: Bus)
    requires r == Record(1, 1, 7, Weak(1)) && s == Record(2, 1, 8, Weak(1)) && b1 == Bus({1}, map[1 := 1], [], {}, map[])
    requires b2 == b1.(subs := [r], used := {1}) && b3 == b2.(subs := [r, s], used := {1, 2})
    ensures Step(EMPTY_BUS, Create(1), b1) && Step(b1, Subscribe(1, 7, 1), b2) && Step(b2, Subscribe(1, 8, 2), b3)
  {
    assert [] + [r] == [r] && [r] + [s] == [r, s];
    assert {} + {1} == {1} && {1} + {2} == {1, 2};
  }

  lemma NestedDispatch(r: Record, s: Record, b3: Bus, b4: Bus, b5: Bus)
    requires r == Record(1, 1, 7, Weak(1)) && s == Record(2, 1, 8, Weak(1)) && b3 == Bus({1}, map[1 := 1], [r, s], {1, 2}, map[])
    requires b4 == b3.(frames := map[0 := Frame([r], None)])
    requires b5 == b4.(frames := map[0 := Frame([], Some(r))], strong := map[1 := 2])
    ensures Step(b3, Emit(0, 7), b4) && Step(b4, Visit(0), b5)
  {
    Lists(r, s);
  }

  lemma NestedClose(r: Record, s: Record, b5: Bus, b6: Bus, b7: Bus, b8: Bus, b9: Bus)
    requires r == Record(1, 1, 7, Weak(1)) && s == Record(2, 1, 8, Weak(1))
    requires b5 == Bus({1}, map[1 := 2], [r, s], {1, 2}, map[0 := Frame([], Some(r))])
    requires b6 == b5.(frames := map[0 := Frame([], Some(r)), 1 := Frame([s], None)])
    requires b7 == b6.(open := {}, strong := map[1 := 1])
    requires b8 == b7.(subs := [])
    requires b9 == b8.(frames := map[0 := Frame([], Some(r)), 1 := Frame([], Some(s))], strong := map[1 := 2])
    ensures Step(b5, Emit(1, 8), b6) && Step(b6, Close(1), b7) && Step(b7, UnsubscribeAll(1), b8) && Step(b8, Visit(1), b9)
  {
    Lists(r, s);
  }

  lemma Lists(r: Record, s: Record)
    requires r.kind == 7 && s.kind == 8 && r.owner == 1 && s.owner == 1
    ensures OfKind([r, s], 7) == [r] && OfKind([r, s], 8) == [s] && DropOwner([r, s], 1) == []
    ensures [r][1..] == [] && [s][1..] == []
  {
    var one: seq<Record> := [s];
    assert one[0] == s && one[1..] == [];
    assert OfKind(one, 7) == [] && OfKind(one, 8) == one && DropOwner(one, 1) == [];
    assert [r, s][1..] == one;
  }
}
