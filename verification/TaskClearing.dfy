/** clear_pending() in one formula, whatever order the entries are visited in. */
module TaskClearing {
  import opened TaskTypes
  import TaskOps
  import opened TaskInvariant

  ghost function Victims(c: Controls, ids: set<TaskId>, st: State): set<TaskId> {
    set id | id in ids && id in c && c[id].state == st
  }

  ghost function Dropped(c: Controls, ids: set<TaskId>, st: State): Controls {
    map id | id in c :: if id in ids && c[id].state == st then c[id].(state := Cancelled) else c[id]
  }

  /** `s` with the waiting tasks among `ids` cancelled. */
  ghost function DropIds(s: Sched, ids: set<TaskId>): Sched {
    var gone := Victims(s.ctl, ids, QueuedDelayed);
    s.(ctl := Dropped(s.ctl, ids, QueuedDelayed), pendingCount := s.pendingCount - |gone|, index := s.index - gone)
  }

  function DropOne(s: Sched, id: TaskId): Sched {
    if HasState(s, id, QueuedDelayed) then
      WithState(s, id, Cancelled).(pendingCount := s.pendingCount - 1, index := s.index - {id})
    else s
  }

  lemma DropNone(s: Sched)
    ensures DropIds(s, {}) == s
  {
    assert Victims(s.ctl, {}, QueuedDelayed) == {} && Dropped(s.ctl, {}, QueuedDelayed) == s.ctl;
  }

  lemma DropNext(s: Sched, q: seq<Entry>, i: nat)
    requires i < |q|
    ensures DropIds(s, Ids(q[..i + 1])) == DropOne(DropIds(s, Ids(q[..i])), q[i].id)
  {
    assert q[..i + 1] == q[..i] + [q[i]];
    IdsConcat(q[..i], [q[i]]);
    assert Ids(q[..i + 1]) == Ids(q[..i]) + {q[i].id};
    DropOneMore(s, Ids(q[..i]), q[i].id);
  }

  /** One more entry visited. */
  lemma DropOneMore(s: Sched, ids: set<TaskId>, id: TaskId)
    ensures DropIds(s, ids + {id}) == DropOne(DropIds(s, ids), id)
  {
    var c := s.ctl;
    var v, w := Victims(c, ids, QueuedDelayed), Victims(c, ids + {id}, QueuedDelayed);
    var t := DropIds(s, ids);
    if HasState(t, id, QueuedDelayed) {
      assert w == v + {id} && id !in v;
      assert Dropped(c, ids + {id}, QueuedDelayed) == t.ctl[id := t.ctl[id].(state := Cancelled)];
      assert s.index - w == s.index - v - {id};
    } else {
      assert w == v;
      assert Dropped(c, ids + {id}, QueuedDelayed) == t.ctl;
    }
  }

  lemma {:induction false} ClearDelayedFrom(s: Sched, ids: set<TaskId>, q: seq<Entry>)
    ensures TaskOps.ClearDelayed(DropIds(s, ids).(delayed := q)) == DropIds(s, ids + Ids(q)).(delayed := [])
    decreases |q|
  {
    if q == [] {
      assert ids + Ids(q) == ids;
    } else {
      var id := q[0].id;
      DropOneMore(s, ids, id);
      assert ids + {id} + Ids(q[1..]) == ids + Ids(q);
      ClearDelayedFrom(s, ids + {id}, q[1..]);
      assert TaskOps.DropDelayed(DropIds(s, ids).(delayed := q)) == DropIds(s, ids + {id}).(delayed := q[1..]);
    }
  }

  /** Dropping everything in the heap depends only on which tasks are in it. */
  lemma ClearDelayedIs(s: Sched)
    ensures TaskOps.ClearDelayed(s) == DropIds(s, Ids(s.delayed)).(delayed := [])
  {
    DropNone(s);
    assert {} + Ids(s.delayed) == Ids(s.delayed);
    ClearDelayedFrom(s, {}, s.delayed);
  }

  lemma {:induction false} IdHasEntry(q: seq<Entry>, id: TaskId)
    ensures id in Ids(q) <==> exists e :: e in q && e.id == id
  {
    if q == [] {
    } else {
      IdHasEntry(q[1..], id);
      if id in Ids(q[1..]) {
        var e :| e in q[1..] && e.id == id;
        assert e in q;
      }
      if e :| e in q && e.id == id {
        assert e == q[0] || e in q[1..];
      }
    }
  }

  /** The same entries in another order hold the same tasks. */
  lemma SameIds(a: seq<Entry>, b: seq<Entry>)
    requires multiset(a) == multiset(b)
    ensures Ids(a) == Ids(b)
  {
    forall id: TaskId
      ensures id in Ids(a) <==> id in Ids(b)
    {
      IdHasEntry(a, id);
      IdHasEntry(b, id);
      assert forall e :: e in a <==> e in multiset(a);
      assert forall e :: e in b <==> e in multiset(b);
    }
  }

  /** Visiting the heap's vector from front to back drops what visiting the sorted list drops. */
  lemma HeapCleared(s: Sched, heap: seq<Entry>)
    requires multiset(heap) == multiset(s.delayed)
    ensures TaskOps.ClearDelayed(s) == DropIds(s, Ids(heap)).(delayed := [])
  {
    SameIds(heap, s.delayed);
    ClearDelayedIs(s);
  }
}
