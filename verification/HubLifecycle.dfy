/** The life cycle of a ModuleHub and its modules, driven through the hub by one thread: hooks that
    throw, workers, failed initialisation and repeated calls. */
module HubLifecycle {
  /** What an observer sees of module `m`, the `m`-th one registered. */
  datatype Hook = Init(m: nat) | InitThrew(m: nat) | Start(m: nat) | Join(m: nat) | Shut(m: nat)

  datatype Module = Module(privateThread: bool, initialized: bool, stopped: bool, joinable: bool)

  // ---------- traces ----------

  function Last(t: seq<Hook>): Hook
    requires t != []
  {
    t[|t| - 1]
  }

  function Front(t: seq<Hook>): seq<Hook>
    requires t != []
  {
    t[..|t| - 1]
  }

  function Inits(t: seq<Hook>): seq<nat> {
    if t == [] then [] else Inits(Front(t)) + (if Last(t).Init? then [Last(t).m] else [])
  }

  function Shuts(t: seq<Hook>): seq<nat> {
    if t == [] then [] else Shuts(Front(t)) + (if Last(t).Shut? then [Last(t).m] else [])
  }

  /** The workers that have been started and not joined. */
  function Working(t: seq<Hook>): set<nat> {
    if t == [] then {}
    else if Last(t).Start? then Working(Front(t)) + {Last(t).m}
    else if Last(t).Join? then Working(Front(t)) - {Last(t).m}
    else Working(Front(t))
  }

  /** No shutdown hook has run while a worker was still there. */
  predicate JoinedFirst(t: seq<Hook>) {
    t != [] ==> JoinedFirst(Front(t)) && (Last(t).Shut? ==> Working(Front(t)) == {})
  }

  lemma Extend(t: seq<Hook>, h: Hook)
    ensures Inits(t + [h]) == Inits(t) + (if h.Init? then [h.m] else [])
    ensures Shuts(t + [h]) == Shuts(t) + (if h.Shut? then [h.m] else [])
    ensures Working(t + [h]) == if h.Start? then Working(t) + {h.m} else if h.Join? then Working(t) - {h.m} else Working(t)
    ensures JoinedFirst(t + [h]) <==> JoinedFirst(t) && (h.Shut? ==> Working(t) == {})
  {
    assert Front(t + [h]) == t;
  }

  /** 0, 1, ..., n - 1. */
  function UpTo(n: nat): (r: seq<nat>)
    ensures |r| == n && forall i :: 0 <= i < n ==> r[i] == i
  {
    if n == 0 then [] else UpTo(n - 1) + [n - 1]
  }

  /** n - 1, ..., k. */
  function DownFrom(n: nat, k: nat): (r: seq<nat>)
    requires k <= n
    ensures |r| == n - k && forall i :: 0 <= i < n - k ==> r[i] == n - 1 - i
    decreases n - k
  {
    if k == n then [] else DownFrom(n, k + 1) + [k]
  }

  lemma OneMoreUp(n: nat)
    ensures UpTo(n + 1) == UpTo(n) + [n] && DownFrom(n + 1, n + 1) == DownFrom(n, n) == []
  {
  }

  ghost predicate Mirrors(a: seq<nat>, b: seq<nat>) {
    |a| == |b| && forall i :: 0 <= i < |a| ==> a[i] == b[|b| - 1 - i]
  }

  lemma ReverseOfUpTo(n: nat)
    ensures Mirrors(DownFrom(n, 0), UpTo(n))
  {
  }

  lemma {:induction false} InitsPrefix(t: seq<Hook>, k: nat)
    requires k <= |t|
    ensures Inits(t[..k]) <= Inits(t)
    decreases |t|
  {
    if k == |t| {
      assert t[..k] == t;
    } else {
      InitsPrefix(Front(t), k);
      assert t[..k] == Front(t)[..k];
    }
  }

  lemma InitAt(t: seq<Hook>, k: nat)
    requires k < |t| && t[k].Init?
    ensures Inits(t[..k + 1]) == Inits(t[..k]) + [t[k].m] && Inits(t[..k + 1]) <= Inits(t)
  {
    assert Front(t[..k + 1]) == t[..k];
    InitsPrefix(t, k + 1);
  }

  /** Where the initialise hooks are numbered 0, 1, ... in the order they ran, no module initialises
      twice. */
  lemma InitializedOnce(t: seq<Hook>, n: nat, i: nat, j: nat)
    requires Inits(t) == UpTo(n) && i < j < |t| && t[i].Init? && t[j].Init?
    ensures t[i].m != t[j].m
  {
    var a, b := |Inits(t[..i])|, |Inits(t[..j])|;
    InitAt(t, i);
    InitAt(t, j);
    InitsPrefix(t[..j], i + 1);
    assert t[..j][..i + 1] == t[..i + 1];
    assert Inits(t)[a] == t[i].m && Inits(t)[b] == t[j].m && a < b;
  }

  // ---------- the hub ----------

  class ModuleHub {
    var modules: seq<Module>
    var initialized: bool

    ghost var trace: seq<Hook>

    /** How many modules have ever initialised. */
    ghost var inits: nat

    ghost predicate WorkersKnown()
      reads this
    {
      forall m :: m in Working(trace) <==> 0 <= m < |modules| && modules[m].joinable
    }

    ghost predicate Quiet()
      reads this
    {
      forall i :: 0 <= i < |modules| ==> !modules[i].initialized && !modules[i].joinable
    }

    /** Every module is up, and those that have a thread of their own have their worker. */
    ghost predicate Serving()
      reads this
    {
      forall i :: 0 <= i < |modules| ==> modules[i].initialized && modules[i].joinable == modules[i].privateThread
    }

    ghost predicate Valid()
      reads this
    {
      && inits <= |modules| && Inits(trace) == UpTo(inits) && JoinedFirst(trace) && WorkersKnown()
      && (forall i :: 0 <= i < |modules| ==> !(modules[i].initialized && modules[i].stopped))
      && (if initialized then
            Shuts(trace) == [] && inits == |modules| && Serving()
          else
            Shuts(trace) == DownFrom(inits, 0) && Quiet()
            && (forall i :: 0 <= i < |modules| && modules[i].stopped ==> modules[0].stopped)
            && (inits > 0 ==> modules[0].stopped))
    }

    constructor ()
      ensures Valid() && modules == [] && trace == []
    {
      modules, initialized, trace, inits := [], false, [], 0;
    }

    /** add_module: refused once the hub is initialised. */
    method AddModule(privateThread: bool) returns (added: bool)
      requires Valid()
      modifies this`modules
      ensures Valid() && added == !initialized
      ensures modules == if added then old(modules) + [Module(privateThread, false, false, false)] else old(modules)
    {
      if initialized {
        return false;
      }
      modules := modules + [Module(privateThread, false, false, false)];
      return true;
    }

    /** Module::initialize, for a module that is not initialised: refused after shutdown. */
    method InitializeModule(i: nat, throws: bool) returns (ok: bool)
      requires i < |modules| && !modules[i].initialized
      modifies this`modules, this`trace
      ensures ok == (!old(modules)[i].stopped && !throws)
      ensures modules == if ok then old(modules)[i := old(modules)[i].(initialized := true)] else old(modules)
      ensures trace == if old(modules)[i].stopped then old(trace) else old(trace) + [if throws then InitThrew(i) else Init(i)]
    {
      if modules[i].stopped {
        return false;
      }
      trace := trace + [if throws then InitThrew(i) else Init(i)];
      if throws {
        return false;
      }
      modules := modules[i := modules[i].(initialized := true)];
      return true;
    }

    /** Module::join_worker_noexcept. */
    method JoinWorker(i: nat)
      requires i < |modules|
      modifies this`modules, this`trace
      ensures modules == old(modules)[i := old(modules)[i].(joinable := false)]
      ensures trace == if old(modules)[i].joinable then old(trace) + [Join(i)] else old(trace)
    {
      if modules[i].joinable {
        trace := trace + [Join(i)];
      }
      modules := modules[i := modules[i].(joinable := false)];
    }

    /** Module::shutdown. */
    method ShutdownModule(i: nat)
      requires i < |modules| && !modules[i].joinable && !(modules[i].initialized && modules[i].stopped)
      modifies this`modules, this`trace
      ensures modules == old(modules)[i := old(modules)[i].(initialized := false, stopped := true)]
      ensures trace == if old(modules)[i].initialized then old(trace) + [Shut(i)] else old(trace)
    {
      if modules[i].stopped {
        return;
      }
      JoinWorker(i);
      if modules[i].initialized {
        trace := trace + [Shut(i)];
      }
      modules := modules[i := modules[i].(initialized := false, stopped := true)];
    }

    /** The first `n` modules, and no other, are up: either every module that ever initialised, or none. */
    ghost predicate FirstUp(n: nat)
      reads this
    {
      && n <= inits <= |modules| && (n == inits || n == 0) && Inits(trace) == UpTo(inits) && Shuts(trace) == DownFrom(inits, n)
      && JoinedFirst(trace) && WorkersKnown()
      && (forall i :: 0 <= i < |modules| ==> modules[i].initialized == (i < n) && !(modules[i].initialized && modules[i].stopped))
    }

    /** join_worker_noexcept on every module. */
    method JoinAll(ghost n: nat)
      requires FirstUp(n)
      modifies this`modules, this`trace
      ensures FirstUp(n) && |modules| == |old(modules)| && Working(trace) == {}
      ensures forall i :: 0 <= i < |modules| ==> !modules[i].joinable
      ensures Working(old(trace)) == {} ==> trace == old(trace)
      ensures forall i :: 0 <= i < |modules| ==> modules[i].stopped == old(modules)[i].stopped
    {
      var i := 0;
      while i < |modules|
        invariant 0 <= i <= |modules| == |old(modules)| && FirstUp(n)
        invariant forall j :: 0 <= j < i ==> !modules[j].joinable
        invariant Working(old(trace)) == {} ==> trace == old(trace)
        invariant forall j :: 0 <= j < |modules| ==> modules[j].stopped == old(modules)[j].stopped
      {
        JoinNext(i, n);
        i := i + 1;
      }
    }

    method JoinNext(i: nat, ghost n: nat)
      requires FirstUp(n) && i < |modules|
      modifies this`modules, this`trace
      ensures FirstUp(n) && modules == old(modules)[i := old(modules)[i].(joinable := false)]
      ensures !old(modules)[i].joinable ==> trace == old(trace)
    {
      Extend(trace, Join(i));
      JoinWorker(i);
    }

    /** shutdown() on every module, last first, when no worker is left. */
    method ShutdownAll(ghost n: nat)
      requires FirstUp(n) && Working(trace) == {} && forall i :: 0 <= i < |modules| ==> !modules[i].joinable
      modifies this`modules, this`trace
      ensures |modules| == |old(modules)| && FirstUp(0) && Working(trace) == {}
      ensures (forall i :: 0 <= i < |modules| ==> old(modules)[i].stopped) ==> trace == old(trace)
      ensures forall i :: 0 <= i < |modules| ==> modules[i].stopped && !modules[i].joinable
    {
      var i: nat := |modules|;
      while i > 0
        invariant DownTo(n, i) && |modules| == |old(modules)|
        invariant (forall j :: 0 <= j < |modules| ==> old(modules)[j].stopped) ==> trace == old(trace) && modules == old(modules)
      {
        i := i - 1;
        ShutdownNext(n, i);
      }
    }

    /** The modules from `i` on have been shut down. */
    ghost predicate DownTo(n: nat, i: nat)
      reads this
    {
      && i <= |modules| && n <= inits <= |modules| && (n == inits || n == 0) && Inits(trace) == UpTo(inits)
      && Shuts(trace) == DownFrom(inits, if i < n then i else n)
      && JoinedFirst(trace) && Working(trace) == {} && (forall j :: 0 <= j < |modules| ==> !modules[j].joinable)
      && (forall j :: 0 <= j < i ==> modules[j].initialized == (j < n) && !(modules[j].initialized && modules[j].stopped))
      && (forall j :: i <= j < |modules| ==> !modules[j].initialized && modules[j].stopped)
    }

    method ShutdownNext(ghost n: nat, i: nat)
      requires DownTo(n, i + 1)
      modifies this`modules, this`trace
      ensures DownTo(n, i) && |modules| == |old(modules)|
      ensures old(modules)[i].stopped ==> trace == old(trace) && modules == old(modules)
    {
      Extend(trace, Shut(i));
      ShutdownModule(i);
    }

    /** start_worker on every module, until a thread cannot be started. */
    method StartWorkers(startThrows: nat -> bool, ghost n: nat) returns (ok: bool)
      requires FirstUp(n) && n == inits && forall i :: 0 <= i < |modules| ==> !modules[i].joinable
      modifies this`modules, this`trace
      ensures FirstUp(n) && |modules| == |old(modules)|
      ensures ok <==> forall i :: 0 <= i < |modules| ==> !(old(modules)[i].privateThread && startThrows(i))
      ensures ok ==> forall i :: 0 <= i < |modules| ==> modules[i] == old(modules)[i].(joinable := old(modules)[i].privateThread)
    {
      var i := 0;
      while i < |modules|
        invariant 0 <= i <= |modules| == |old(modules)| && FirstUp(n)
        invariant forall j :: 0 <= j < i ==> !(old(modules)[j].privateThread && startThrows(j))
        invariant forall j :: i <= j < |modules| ==> modules[j] == old(modules)[j]
        invariant forall j :: 0 <= j < i ==> modules[j] == old(modules)[j].(joinable := old(modules)[j].privateThread)
      {
        if modules[i].privateThread && !modules[i].joinable {
          if startThrows(i) {
            return false;
          }
          Extend(trace, Start(i));
          trace := trace + [Start(i)];
          modules := modules[i := modules[i].(joinable := true)];
        }
        i := i + 1;
      }
      return true;
    }

    /** One turn of that loop. */
    method InitializeNext(n: nat, throws: bool) returns (ok: bool)
      requires FirstUp(n) && n < |modules| && (n > 0 ==> n == inits) && (inits > 0 && n == 0 ==> modules[0].stopped)
      modifies this`modules, this`trace, this`inits
      ensures ok == (!old(modules)[n].stopped && !throws)
      ensures modules == if ok then old(modules)[n := old(modules)[n].(initialized := true)] else old(modules)
      ensures if ok then FirstUp(n + 1) && inits == n + 1 else FirstUp(n) && inits == old(inits)
    {
      Extend(trace, if throws then InitThrew(n) else Init(n));
      ok := InitializeModule(n, throws);
      if ok {
        OneMoreUp(n);
        inits := n + 1;
      }
    }

    /** The initialise hooks, in registration order, until one throws or a module has been stopped. */
    method InitializeModules(initThrows: nat -> bool) returns (ok: bool, n: nat)
      requires Valid() && !initialized
      modifies this`modules, this`trace, this`inits
      ensures FirstUp(n) && |modules| == |old(modules)| && (ok ==> n == |modules| == inits)
      ensures ok <==> forall i :: 0 <= i < |modules| ==> !old(modules)[i].stopped && !initThrows(i)
      ensures forall i :: 0 <= i < |modules| ==> modules[i] == old(modules)[i].(initialized := i < n)
    {
      n := 0;
      while n < |modules|
        invariant n <= |modules| == |old(modules)| && FirstUp(n) && (n > 0 ==> n == inits)
        invariant inits > 0 && n == 0 ==> modules[0].stopped
        invariant n == |modules| ==> n == inits
        invariant forall j :: 0 <= j < |modules| ==> modules[j] == old(modules)[j].(initialized := j < n)
        invariant forall j :: 0 <= j < n ==> !old(modules)[j].stopped && !initThrows(j)
      {
        ok := InitializeNext(n, initThrows(n));
        if !ok {
          return false, n;
        }
        n := n + 1;
      }
      ok := true;
    }

    /** initialize(). `initThrows` and `startThrows` say which hooks and thread starts fail. */
    method Initialize(initThrows: nat -> bool, startThrows: nat -> bool) returns (ok: bool)
      requires Valid()
      modifies this
      ensures Valid() && |modules| == |old(modules)| && initialized == ok && (old(initialized) ==> ok && trace == old(trace))
      ensures !ok ==> forall i :: 0 <= i < |modules| ==> modules[i].stopped
      ensures ok <==> old(initialized) || forall i :: 0 <= i < |modules| ==>
        !old(modules)[i].stopped && !initThrows(i) && !(old(modules)[i].privateThread && startThrows(i))
      ensures ok ==> forall i :: 0 <= i < |modules| ==>
        && modules[i].privateThread == old(modules)[i].privateThread
        && modules[i].initialized && (i in Working(trace) <==> modules[i].privateThread)
    {
      if initialized {
        return true;
      }
      var n;
      ok, n := InitializeModules(initThrows);
      if ok {
        ok := StartWorkers(startThrows, n);
      }
      if !ok {
        JoinAll(n);
        ShutdownAll(n);
        return;
      }
      initialized := true;
    }

    /** shutdown(): idempotent; workers are joined before the first hook runs. */
    method Shutdown()
      requires Valid()
      modifies this
      ensures Valid() && !initialized && |modules| == |old(modules)| && inits == old(inits)
      ensures forall i :: 0 <= i < |modules| ==> modules[i].stopped
      ensures Inits(trace) == UpTo(inits) && Mirrors(Shuts(trace), Inits(trace)) && JoinedFirst(trace)
      ensures (forall i :: 0 <= i < |modules| ==> old(modules)[i].stopped) && !old(initialized) ==> trace == old(trace)
    {
      ghost var n := if initialized then |modules| else 0;
      assert !initialized ==> Working(trace) == {};
      JoinAll(n);
      ShutdownAll(n);
      initialized := false;
      ReverseOfUpTo(inits);
    }

    /** run(): the loop may end by a stop request or by an exception; either way the hub is shut down. */
    method Run(initThrows: nat -> bool, startThrows: nat -> bool, loopThrows: bool) returns (threw: bool)
      requires Valid()
      modifies this
      ensures Valid() && !initialized && (forall i :: 0 <= i < |modules| ==> modules[i].stopped)
      ensures Inits(trace) == UpTo(inits) && Mirrors(Shuts(trace), Inits(trace)) && JoinedFirst(trace)
      ensures threw <==> loopThrows || !(old(initialized) || forall i :: 0 <= i < |old(modules)| ==>
        !old(modules)[i].stopped && !initThrows(i) && !(old(modules)[i].privateThread && startThrows(i)))
    {
      var ok := Initialize(initThrows, startThrows);
      threw := !ok || loopThrows;
      Shutdown();
    }
  }
}
