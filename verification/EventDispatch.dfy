/** Who a dispatch reaches: every subscriber of its kind, in the order of subscription and once, whatever
    the callbacks and the other threads do to the subscriptions meanwhile. */
module EventDispatch {
  import opened TaskTypes
  import opened EventGuards

  // ---------- subscriptions ----------

  /** No id is given twice. */
  ghost predicate Distinct(q: seq<Record>, used: set<nat>) {
    (forall i :: 0 <= i < |q| ==> q[i].id in used) && forall i, j :: 0 <= i < j < |q| ==> q[i].id != q[j].id
  }

  ghost predicate Registered(b: Bus) {
    Distinct(b.subs, b.used)
  }

  /** `r` was added before `x`. */
  ghost predicate Before(q: seq<Record>, r: Record, x: Record) {
    exists i, j :: 0 <= i < j < |q| && q[i] == r && q[j] == x
  }

  ghost predicate InOrderOf(v: seq<Record>, q: seq<Record>) {
    forall i, j :: 0 <= i < j < |v| ==> Before(q, v[i], v[j])
  }

  lemma MembersOf(q: seq<Record>)
    requires q != []
    ensures forall r :: r in q <==> r == q[0] || r in q[1..]
  {
  }

  lemma BeforeMore(q: seq<Record>, r: Record, x: Record)
    requires q != [] && Before(q[1..], r, x)
    ensures Before(q, r, x)
  {
    var i, j :| 0 <= i < j < |q[1..]| && q[1..][i] == r && q[1..][j] == x;
    assert q[i + 1] == r && q[j + 1] == x;
  }

  lemma FirstBefore(q: seq<Record>, x: Record)
    requires q != [] && x in q[1..]
    ensures Before(q, q[0], x)
  {
    var j :| 0 <= j < |q[1..]| && q[1..][j] == x;
    assert q[j + 1] == x;
  }

  /** The first record goes before what is left of the others. */
  lemma FirstInOrder(q: seq<Record>, rest: seq<Record>)
    requires q != [] && InOrderOf(rest, q[1..]) && forall r :: r in rest ==> r in q[1..]
    ensures InOrderOf([q[0]] + rest, q) && InOrderOf(rest, q)
  {
    var v := [q[0]] + rest;
    forall i, j | 0 <= i < j < |rest|
      ensures Before(q, rest[i], rest[j])
    {
      BeforeMore(q, rest[i], rest[j]);
    }
    forall i, j | 0 <= i < j < |v|
      ensures Before(q, v[i], v[j])
    {
      assert v[j] == rest[j - 1] && rest[j - 1] in rest;
      if i == 0 {
        FirstBefore(q, v[j]);
      } else {
        assert v[i] == rest[i - 1];
      }
    }
  }

  lemma {:induction false} KindMembers(q: seq<Record>, kind: nat)
    ensures InOrderOf(OfKind(q, kind), q) && forall r :: r in OfKind(q, kind) <==> r in q && r.kind == kind
  {
    if q == [] {
    } else {
      KindMembers(q[1..], kind);
      MembersOf(q);
      FirstInOrder(q, OfKind(q[1..], kind));
    }
  }

  lemma {:induction false} DropMembers(q: seq<Record>, id: nat)
    ensures InOrderOf(Drop(q, id), q) && forall r :: r in Drop(q, id) <==> r in q && r.id != id
  {
    if q == [] {
    } else {
      DropMembers(q[1..], id);
      MembersOf(q);
      FirstInOrder(q, Drop(q[1..], id));
    }
  }

  lemma {:induction false} DropOwnerMembers(q: seq<Record>, ep: EndpointId)
    ensures InOrderOf(DropOwner(q, ep), q) && forall r :: r in DropOwner(q, ep) <==> r in q && r.owner != ep
  {
    if q == [] {
    } else {
      DropOwnerMembers(q[1..], ep);
      MembersOf(q);
      FirstInOrder(q, DropOwner(q[1..], ep));
    }
  }

  lemma PartDistinct(v: seq<Record>, q: seq<Record>, used: set<nat>)
    requires Distinct(q, used) && InOrderOf(v, q) && forall r :: r in v ==> r in q
    ensures Distinct(v, used)
  {
    forall i | 0 <= i < |v|
      ensures v[i].id in used
    {
      assert v[i] in q;
    }
    forall i, j | 0 <= i < j < |v|
      ensures v[i].id != v[j].id
    {
      assert Before(q, v[i], v[j]);
    }
  }

  /** The record that a subscription makes: a closed endpoint's never locks. */
  predicate NewRecord(b: Bus, a: Action, r: Record) {
    match a
    case Subscribe(ep, kind, id) => r == Record(id, ep, kind, if ep in b.open then Weak(ep) else Expired)
    case SubscribeUnguarded(ep, kind, id) => r == Record(id, ep, kind, Unguarded)
    case _ => false
  }

  predicate Removes(a: Action, r: Record) {
    a == Unsubscribe(r.id) || a == UnsubscribeAll(r.owner)
  }

  /** What a step does to the subscriptions: a new one is added, those that it removes go, and the others keep
      their order. */
  lemma SubsStep(b: Bus, a: Action, c: Bus)
    requires Registered(b) && Step(b, a, c)
    ensures Registered(c) && b.used <= c.used
    ensures forall r :: r in c.subs <==> NewRecord(b, a, r) || (r in b.subs && !Removes(a, r))
    ensures forall r, x :: r in b.subs && Before(c.subs, r, x) ==> NewRecord(b, a, x) || Before(b.subs, r, x)
  {
    match a
    case Unsubscribe(id) =>
      DropMembers(b.subs, id);
      PartDistinct(c.subs, b.subs, b.used);
    case UnsubscribeAll(ep) =>
      DropOwnerMembers(b.subs, ep);
      PartDistinct(c.subs, b.subs, b.used);
    case _ =>
  }

  // ---------- runs ----------

  ghost predicate IsBusRun(bs: seq<Bus>, acts: seq<Action>) {
    IsRun(bs, acts) && Registered(bs[0])
  }

  lemma EmptyRegistered()
    ensures Registered(EMPTY_BUS) && Valid(EMPTY_BUS)
  {
  }

  lemma {:induction false} RunRegistered(bs: seq<Bus>, acts: seq<Action>, i: nat)
    requires IsBusRun(bs, acts) && i < |bs|
    ensures Registered(bs[i])
  {
    if i == 0 {
    } else {
      RunRegistered(bs, acts, i - 1);
      assert Step(bs[i - 1], acts[i - 1], bs[i - 1 + 1]);
      SubsStep(bs[i - 1], acts[i - 1], bs[i]);
    }
  }

  /** Nothing has taken the subscription `r` back since step `i`. */
  ghost predicate StaysSubscribed(acts: seq<Action>, i: nat, j: nat, r: Record)
    requires j <= |acts|
  {
    forall k :: i < k < j ==> !Removes(acts[k], r)
  }

  /** A subscription made in step `i` is there exactly as long as nobody removes it or all of its owner. */
  lemma {:induction false} SubscribedUntil(bs: seq<Bus>, acts: seq<Action>, i: nat, j: nat, r: Record)
    requires IsBusRun(bs, acts) && i < j < |bs| && NewRecord(bs[i], acts[i], r)
    ensures r in bs[j].subs <==> StaysSubscribed(acts, i, j, r)
    ensures r.id in bs[j].used
    decreases j
  {
    RunRegistered(bs, acts, j - 1);
    assert Step(bs[j - 1], acts[j - 1], bs[j - 1 + 1]);
    SubsStep(bs[j - 1], acts[j - 1], bs[j]);
    if i == j - 1 {
    } else {
      SubscribedUntil(bs, acts, i, j - 1, r);
      assert StaysSubscribed(acts, i, j, r) <==> StaysSubscribed(acts, i, j - 1, r) && !Removes(acts[j - 1], r);
    }
  }

  // ---------- one dispatch ----------

  /** Dispatch `f` begins in step `i` and is still going on before step `j`. */
  ghost predicate GoesOn(acts: seq<Action>, i: nat, j: nat, f: FrameId, kind: nat) {
    i < j <= |acts| && acts[i] == Emit(f, kind) && forall k :: i < k < j ==> acts[k] != Finish(f) && acts[k] != Thrown(f)
  }

  /** The record whose turn it is in a visit. */
  function Turn(b: Bus, a: Action, f: FrameId): seq<Record> {
    if a == Visit(f) && f in b.frames && b.frames[f].rest != [] then [b.frames[f].rest[0]] else []
  }

  /** The records that dispatch `f` comes to in the steps from `i` up to `j`, in order. */
  function Visited(bs: seq<Bus>, acts: seq<Action>, f: FrameId, i: nat, j: nat): seq<Record>
    requires |bs| == |acts| + 1 && j <= |acts|
    decreases j
  {
    if j <= i then [] else Visited(bs, acts, f, i, j - 1) + Turn(bs[j - 1], acts[j - 1], f)
  }

  lemma ListCopied(b: Bus, f: FrameId, kind: nat, c: Bus)
    requires Step(b, Emit(f, kind), c)
    ensures f in c.frames && c.frames[f].rest == OfKind(b.subs, kind)
  {
  }

  lemma Shifts(v: seq<Record>, turn: seq<Record>, rest: seq<Record>, before: seq<Record>, all: seq<Record>)
    requires v + before == all && turn + rest == before
    ensures v + turn + rest == all
  {
  }

  lemma {:induction false} VisitsList(bs: seq<Bus>, acts: seq<Action>, f: FrameId, kind: nat, i: nat, j: nat)
    requires IsRun(bs, acts) && GoesOn(acts, i, j, f, kind)
    ensures f in bs[j].frames && Visited(bs, acts, f, i + 1, j) + bs[j].frames[f].rest == OfKind(bs[i].subs, kind)
    decreases j
  {
    var k := j - 1;
    assert Step(bs[k], acts[k], bs[k + 1]);
    if j == i + 1 {
      ListCopied(bs[i], f, kind, bs[j]);
    } else {
      VisitsList(bs, acts, f, kind, i, k);
      TurnTaken(bs[k], acts[k], bs[j], f);
      Shifts(Visited(bs, acts, f, i + 1, k), Turn(bs[k], acts[k], f), bs[j].frames[f].rest, bs[k].frames[f].rest, OfKind(bs[i].subs, kind));
    }
  }

  lemma TurnTaken(b: Bus, a: Action, c: Bus, f: FrameId)
    requires f in b.frames && Step(b, a, c) && a != Finish(f) && a != Thrown(f)
    ensures f in c.frames && Turn(b, a, f) + c.frames[f].rest == b.frames[f].rest
  {
  }

  /** The visits so far are to the first subscribers of the kind, in the order in which they were added. */
  ghost predicate FirstOfKind(v: seq<Record>, subs: seq<Record>, kind: nat) {
    && (forall r :: r in v ==> r in subs && r.kind == kind)
    && InOrderOf(v, subs) && (forall i, j :: 0 <= i < j < |v| ==> v[i].id != v[j].id)
    && (forall r, x :: r in subs && r.kind == kind && r !in v && x in v ==> Before(subs, x, r))
  }

  /** What has not been visited comes after what has. */
  lemma RestIsLater(v: seq<Record>, rest: seq<Record>, q: seq<Record>, subs: seq<Record>, r: Record, x: Record)
    requires InOrderOf(q, subs) && v + rest == q && r in q && r !in v && x in v
    ensures Before(subs, x, r)
  {
    var j :| 0 <= j < |v| && v[j] == x;
    assert forall k :: 0 <= k < |v| ==> q[k] == v[k];
    var i :| 0 <= i < |q| && q[i] == r;
    assert Before(subs, q[j], q[i]);
  }

  lemma BeginningInOrder(v: seq<Record>, rest: seq<Record>, q: seq<Record>, subs: seq<Record>)
    requires InOrderOf(q, subs) && v + rest == q
    ensures InOrderOf(v, subs)
  {
    forall i, j | 0 <= i < j < |v|
      ensures Before(subs, v[i], v[j])
    {
      assert v[i] == q[i] && v[j] == q[j];
    }
  }

  lemma FirstOnes(v: seq<Record>, rest: seq<Record>, subs: seq<Record>, kind: nat, used: set<nat>)
    requires Distinct(subs, used) && v + rest == OfKind(subs, kind)
    ensures FirstOfKind(v, subs, kind) && (rest == [] ==> forall r :: r in v <==> r in subs && r.kind == kind)
  {
    var q := OfKind(subs, kind);
    KindMembers(subs, kind);
    BeginningInOrder(v, rest, q, subs);
    forall r | r in v
      ensures r in subs && r.kind == kind
    {
      assert r in q;
    }
    PartDistinct(v, subs, used);
    forall r, x | r in subs && r.kind == kind && r !in v && x in v
      ensures Before(subs, x, r)
    {
      RestIsLater(v, rest, q, subs, r, x);
    }
    if rest == [] {
      assert v == q;
    }
  }

  /** At every moment of a dispatch, and when an exception ends it, it has come to the first of the
      subscribers that its kind had when it began, in the order of subscription and to each once. */
  lemma VisitsInOrder(bs: seq<Bus>, acts: seq<Action>, f: FrameId, kind: nat, i: nat, j: nat)
    requires IsBusRun(bs, acts) && GoesOn(acts, i, j, f, kind)
    ensures FirstOfKind(Visited(bs, acts, f, i + 1, j), bs[i].subs, kind)
  {
    VisitsList(bs, acts, f, kind, i, j);
    RunRegistered(bs, acts, i);
    FirstOnes(Visited(bs, acts, f, i + 1, j), bs[j].frames[f].rest, bs[i].subs, kind, bs[i].used);
  }

  /** A dispatch that ends without an exception has come to every subscriber that its kind had when it
      began, and to no other record, in the order of subscription and to each once. */
  lemma FinishVisitsAll(bs: seq<Bus>, acts: seq<Action>, f: FrameId, kind: nat, i: nat, j: nat)
    requires IsBusRun(bs, acts) && GoesOn(acts, i, j, f, kind) && j < |acts| && acts[j] == Finish(f)
    ensures FirstOfKind(Visited(bs, acts, f, i + 1, j), bs[i].subs, kind)
    ensures forall r :: r in Visited(bs, acts, f, i + 1, j) <==> r in bs[i].subs && r.kind == kind
  {
    VisitsList(bs, acts, f, kind, i, j);
    RunRegistered(bs, acts, i);
    assert Step(bs[j], acts[j], bs[j + 1]);
    FirstOnes(Visited(bs, acts, f, i + 1, j), bs[j].frames[f].rest, bs[i].subs, kind, bs[i].used);
  }

  /** A visit runs the callback exactly if the record has no guard, or some strong reference to its open
      endpoint or to a callback of it in flight is left; while it runs it holds one more. */
  lemma VisitRuns(bs: seq<Bus>, acts: seq<Action>, f: FrameId, k: nat)
    requires IsRun(bs, acts) && k < |acts| && acts[k] == Visit(f)
    ensures |Turn(bs[k], acts[k], f)| == 1 && f in bs[k + 1].frames
    ensures var r := Turn(bs[k], acts[k], f)[0];
      bs[k + 1].frames[f].running ==
        if r.guard.Unguarded? || (r.guard.Weak? && (r.guard.ep in bs[k].open || InFlight(bs[k], r.guard.ep) != {})) then Some(r) else None
  {
    assert Step(bs[k], acts[k], bs[k + 1]);
    RunValid(bs, acts, k);
    var r := Turn(bs[k], acts[k], f)[0];
    if r.guard.Weak? {
      assert Counted(bs[k], r.guard.ep);
    }
  }

  /** A subscriber is reached by a dispatch of its kind exactly if it subscribed before and has not been
      unsubscribed when the dispatch begins. */
  lemma ReachesSubscriber(bs: seq<Bus>, acts: seq<Action>, f: FrameId, kind: nat, s: nat, i: nat, j: nat, r: Record)
    requires IsBusRun(bs, acts) && GoesOn(acts, i, j, f, kind) && j < |acts| && acts[j] == Finish(f)
    requires s < i && NewRecord(bs[s], acts[s], r)
    ensures r in Visited(bs, acts, f, i + 1, j) <==> r.kind == kind && StaysSubscribed(acts, s, i, r)
  {
    FinishVisitsAll(bs, acts, f, kind, i, j);
    SubscribedUntil(bs, acts, s, i, r);
  }
}
