/** The delayed container as the source keeps it: a vector in heap order, changed in place by the
    heap operations of section [alg.heap.operations] of ISO C++17. The other modules speak of the
    same entries as one list sorted by `Sooner`; this module connects the two. */
module DelayedHeap {
  import opened TaskTypes
  import TaskOps
  import TaskInvariant

  function Parent(i: nat): nat
    requires i > 0
  {
    (i - 1) / 2
  }

  /** An entry is not sooner than its parent. */
  predicate Ordered(q: seq<Entry>, k: nat) {
    0 < k < |q| ==> !Sooner(q[k], q[Parent(k)])
  }

  /** The first `m` elements are in heap order. */
  ghost predicate HeapUpTo(q: seq<Entry>, m: nat) {
    m <= |q| && forall k :: 0 < k < m ==> Ordered(q, k)
  }

  ghost predicate IsHeap(q: seq<Entry>) {
    HeapUpTo(q, |q|)
  }

  lemma HeapPrefix(q: seq<Entry>, m: nat)
    requires m <= |q|
    ensures IsHeap(q[..m]) <==> HeapUpTo(q, m)
  {
    forall k: nat | 0 < k < m
      ensures Ordered(q[..m], k) <==> Ordered(q, k)
    {
    }
    if IsHeap(q[..m]) {
      forall k | 0 < k < m
        ensures Ordered(q, k)
      {
        assert Ordered(q[..m], k);
      }
    }
  }

  function Swap(q: seq<Entry>, i: nat, j: nat): (r: seq<Entry>)
    requires i < |q| && j < |q|
    ensures |r| == |q| && multiset(r) == multiset(q)
  {
    q[i := q[j]][j := q[i]]
  }

  /** Sifting up: heap order everywhere except between `i` and its parent; the children of `i` are in
      order with their grandparent. */
  ghost predicate Rising(q: seq<Entry>, i: nat) {
    && i < |q|
    && (forall k :: 0 < k < |q| && k != i ==> Ordered(q, k))
    && (i > 0 ==> Spans(q, |q|, i))
  }

  predicate Spans(q: seq<Entry>, m: nat, i: nat)
    requires 0 < i && m <= |q|
  {
    && (2 * i + 1 < m ==> !Sooner(q[2 * i + 1], q[Parent(i)]))
    && (2 * i + 2 < m ==> !Sooner(q[2 * i + 2], q[Parent(i)]))
  }

  lemma Rise(q: seq<Entry>, i: nat)
    requires Rising(q, i) && i > 0 && Sooner(q[i], q[Parent(i)])
    ensures Rising(Swap(q, i, Parent(i)), Parent(i))
  {
    var p := Parent(i);
    var r := Swap(q, i, p);
    forall k | 0 < k < |q| && k != p
      ensures Ordered(r, k)
    {
      if k != i {
        assert Ordered(q, k);
      }
    }
    if p > 0 {
      assert Ordered(q, p);
      assert 2 * p + 1 != i ==> Ordered(q, 2 * p + 1);
      assert 2 * p + 2 != i ==> Ordered(q, 2 * p + 2);
    }
  }

  /** push_heap: the last element of the vector joins the heap in front of it. */
  method PushHeap(q: seq<Entry>) returns (r: seq<Entry>)
    requires q != [] && IsHeap(q[..|q| - 1])
    ensures IsHeap(r) && multiset(r) == multiset(q)
  {
    r := q;
    var i: nat := |q| - 1;
    HeapPrefix(q, i);
    while i > 0 && Sooner(r[i], r[Parent(i)])
      invariant |r| == |q| && Rising(r, i) && multiset(r) == multiset(q)
    {
      Rise(r, i);
      r := Swap(r, i, Parent(i));
      i := Parent(i);
    }
  }

  /** Sifting down: heap order in the first `m` elements except between `i` and its children. */
  ghost predicate Sinking(q: seq<Entry>, m: nat, i: nat) {
    && m <= |q|
    && (forall k :: 0 < k < m && Parent(k) != i ==> Ordered(q, k))
    && (i > 0 ==> Spans(q, m, i))
  }

  predicate SoonestChild(q: seq<Entry>, m: nat, i: nat, c: nat) {
    && c < m <= |q| && (c == 2 * i + 1 || c == 2 * i + 2)
    && (2 * i + 1 < m ==> !Sooner(q[2 * i + 1], q[c])) && (2 * i + 2 < m ==> !Sooner(q[2 * i + 2], q[c]))
  }

  function SoonerChild(q: seq<Entry>, m: nat, i: nat): (c: nat)
    requires m <= |q|
    ensures i < c && (2 * i + 1 < m <==> c < m) && (c < m ==> SoonestChild(q, m, i, c))
  {
    var c := 2 * i + 1;
    if c + 1 < m && Sooner(q[c + 1], q[c]) then c + 1 else c
  }

  lemma Sink(q: seq<Entry>, m: nat, i: nat, c: nat)
    requires Sinking(q, m, i) && SoonestChild(q, m, i, c) && Sooner(q[c], q[i])
    ensures Sinking(Swap(q, i, c), m, c)
  {
    var r := Swap(q, i, c);
    forall k | 0 < k < m && Parent(k) != c
      ensures Ordered(r, k)
    {
      if Parent(k) != i {
        assert Ordered(q, k);
      } else {
        assert k == 2 * i + 1 || k == 2 * i + 2;
      }
    }
    if 2 * c + 1 < m {
      assert Ordered(q, 2 * c + 1);
    }
    if 2 * c + 2 < m {
      assert Ordered(q, 2 * c + 2);
    }
  }

  lemma Settled(q: seq<Entry>, m: nat, i: nat, c: nat)
    requires Sinking(q, m, i)
    requires 2 * i + 1 < m ==> SoonestChild(q, m, i, c) && !Sooner(q[c], q[i])
    ensures HeapUpTo(q, m)
  {
    forall k | 0 < k < m
      ensures Ordered(q, k)
    {
      if Parent(k) == i {
        assert k == 2 * i + 1 || k == 2 * i + 2;
      }
    }
  }

  /** pop_heap: the root moves to the back of the vector, the rest is a heap. */
  method PopHeap(q: seq<Entry>) returns (r: seq<Entry>)
    requires q != [] && IsHeap(q)
    ensures |r| == |q| && r[|r| - 1] == q[0] && IsHeap(r[..|r| - 1]) && multiset(r) == multiset(q)
  {
    var m: nat := |q| - 1;
    r := Swap(q, 0, m);
    var i: nat := 0;
    Exchanged(q, r);
    var c: nat := SoonerChild(r, m, i);
    while c < m && Sooner(r[c], r[i])
      invariant |r| == |q| && r[m] == q[0] && multiset(r) == multiset(q) && Sinking(r, m, i)
      invariant c == SoonerChild(r, m, i)
      decreases m - i
    {
      Sink(r, m, i, c);
      r := Swap(r, i, c);
      i := c;
      c := SoonerChild(r, m, i);
    }
    Settled(r, m, i, c);
    HeapPrefix(r, m);
  }

  lemma Exchanged(q: seq<Entry>, r: seq<Entry>)
    requires q != [] && IsHeap(q) && r == Swap(q, 0, |q| - 1)
    ensures Sinking(r, |q| - 1, 0)
  {
    forall k | 0 < k < |q| - 1 && Parent(k) != 0
      ensures Ordered(r, k)
    {
      assert Ordered(q, k);
    }
  }

  // ---------- the sorted view ----------

  lemma {:induction false} RootIsSoonest(q: seq<Entry>, k: nat)
    requires IsHeap(q) && k < |q|
    ensures !Sooner(q[k], q[0])
  {
    if k == 0 {
    } else {
      assert Ordered(q, k);
      RootIsSoonest(q, Parent(k));
    }
  }

  lemma {:induction false} HeadIsSoonest(q: seq<Entry>, e: Entry)
    requires TaskInvariant.Sorted(q) && e in q
    ensures e == q[0] || Sooner(q[0], e)
  {
    if e == q[0] {
    } else {
      HeadIsSoonest(q[1..], e);
    }
  }

  /** The front of the heap is the front of the sorted list of the same entries. */
  lemma RootIsHead(heap: seq<Entry>, sorted: seq<Entry>)
    requires IsHeap(heap) && TaskInvariant.Sorted(sorted) && multiset(heap) == multiset(sorted)
    ensures (heap == [] <==> sorted == []) && (heap != [] ==> heap[0] == sorted[0])
  {
    assert |heap| == |multiset(heap)| && |sorted| == |multiset(sorted)|;
    if heap != [] {
      assert heap[0] in multiset(sorted) && sorted[0] in multiset(heap);
      var k :| 0 <= k < |heap| && heap[k] == sorted[0];
      RootIsSoonest(heap, k);
      HeadIsSoonest(sorted, heap[0]);
    }
  }

  lemma {:induction false} InsertMultiset(q: seq<Entry>, e: Entry)
    ensures multiset(TaskOps.Insert(q, e)) == multiset(q) + multiset{e}
  {
    if q == [] || Sooner(e, q[0]) {
    } else {
      InsertMultiset(q[1..], e);
      assert q == [q[0]] + q[1..];
    }
  }

  lemma TailMultiset(q: seq<Entry>)
    requires q != []
    ensures multiset(q[1..]) == multiset(q) - multiset{q[0]}
  {
    assert q == [q[0]] + q[1..];
  }

  lemma FrontMultiset(q: seq<Entry>)
    requires q != []
    ensures multiset(q[..|q| - 1]) == multiset(q) - multiset{q[|q| - 1]}
  {
    assert q == q[..|q| - 1] + [q[|q| - 1]];
  }

  ghost predicate Below(q: seq<Entry>, nextSeq: nat) {
    q != [] ==> q[0].seqNo < nextSeq && Below(q[1..], nextSeq)
  }

  /** A sorted list whose sequence numbers have all been handed out. */
  ghost predicate DelayedOk(q: seq<Entry>, nextSeq: nat) {
    TaskInvariant.Sorted(q) && Below(q, nextSeq)
  }

  /** A fresh sequence number keeps the list strictly sorted. */
  lemma {:induction false} InsertDelayed(q: seq<Entry>, e: Entry, nextSeq: nat)
    requires DelayedOk(q, nextSeq) && e.seqNo == nextSeq
    ensures DelayedOk(TaskOps.Insert(q, e), nextSeq + 1) && DelayedOk(q, nextSeq + 1)
  {
    if q == [] {
    } else {
      InsertDelayed(q[1..], e, nextSeq);
    }
  }

  lemma {:induction false} PruneDelayed(s: Sched, nextSeq: nat)
    requires DelayedOk(s.delayed, nextSeq)
    ensures DelayedOk(TaskOps.Prune(s).delayed, nextSeq)
    decreases |s.delayed|
  {
    if s.delayed == [] || !TaskOps.Dead(s, s.delayed[0]) {
    } else {
      PruneDelayed(s.(delayed := s.delayed[1..]), nextSeq);
    }
  }

  /** The invariant of the scheduler gives what the heap needs. */
  lemma {:induction false} InvDelayed(q: seq<Entry>, c: TaskInvariant.Controls, nextSeq: nat, st: State)
    requires TaskInvariant.QueueOk(q, c, nextSeq, st) && TaskInvariant.Sorted(q)
    ensures DelayedOk(q, nextSeq)
  {
    if q == [] {
    } else {
      InvDelayed(q[1..], c, nextSeq, st);
    }
  }
}
