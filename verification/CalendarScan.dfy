/** The search for the next occurrence of a calendar rule under an arbitrary local-time zone. */
module CalendarScan {
  import opened TaskTypes
  import CalendarDates

  const MS_PER_SEC := 1000
  const MS_PER_DAY := 86400000
  const MAX_SEC_PER_DAY := 86399

  // ---------- zones ----------

  /** A zone: local time from UTC, and UTC from local time where the local time exists. An ambiguous
      local time stands for its first UTC instant. */
  datatype Zone = Zone(toLocal: int -> int, toUtc: int -> Option<int>)

  ghost predicate Increasing(z: Zone, a: int, b: int) {
    a < b && z.toUtc(a).Some? && z.toUtc(b).Some? ==> z.toUtc(a).value < z.toUtc(b).value
  }

  ghost predicate Lawful(z: Zone) {
    && (forall a, b :: Increasing(z, a, b))
    && (forall u :: z.toUtc(z.toLocal(u)).Some? && z.toUtc(z.toLocal(u)).value <= u)
  }

  function FixedOffset(offset: int): Zone {
    Zone(u => u + offset, l => Some(l - offset))
  }

  /** A zone that changes its offset once, at UTC instant `t`: forward, which leaves a gap in local
      time, or backward, which makes a fold. */
  function Changing(t: int, before: int, after: int): Zone {
    Zone(u => if u < t then u + before else u + after,
         l => if l < t + before then Some(l - before) else if l >= t + after then Some(l - after) else None)
  }

  lemma FixedOffsetLawful(offset: int)
    ensures Lawful(FixedOffset(offset))
  {
  }

  lemma ChangingLawful(t: int, before: int, after: int)
    ensures Lawful(Changing(t, before, after))
  {
  }

  /** In a gap no UTC instant has that local time and the map back is undefined; in a fold two do and
      the map back gives the first. */
  lemma GapsAndFolds(t: int, before: int, after: int, l: int)
    ensures var z := Changing(t, before, after);
      && (z.toUtc(l).None? <==> forall u :: z.toLocal(u) != l)
      && (z.toUtc(l).Some? ==> z.toLocal(z.toUtc(l).value) == l && forall u :: z.toLocal(u) == l ==> z.toUtc(l).value <= u)
  {
    var z := Changing(t, before, after);
    if z.toUtc(l).None? {
      forall u
        ensures z.toLocal(u) != l
      {
      }
    } else {
      assert z.toLocal(z.toUtc(l).value) == l;
    }
  }

  // ---------- rules ----------

  predicate ValidSecond(s: int) {
    0 <= s <= MAX_SEC_PER_DAY
  }

  ghost predicate Normal(seconds: seq<int>) {
    && (forall i :: 0 <= i < |seconds| ==> ValidSecond(seconds[i]))
    && (forall i, j :: 0 <= i < j < |seconds| ==> seconds[i] < seconds[j])
  }

  /** What a rule gives the search: the seconds of each local day, none on a day it does not allow, and
      how many days to look ahead. */
  datatype Search = Search(zone: Zone, slots: int -> seq<int>, window: nat)

  ghost predicate Sound(q: Search) {
    Lawful(q.zone) && forall day :: Normal(q.slots(day))
  }

  function Local(day: int, second: int): int {
    day * MS_PER_DAY + second * MS_PER_SEC
  }

  /** Slot `k` of local day `day` is the UTC instant `u`. */
  predicate OccursAt(q: Search, day: int, k: nat, u: int) {
    k < |q.slots(day)| && q.zone.toUtc(Local(day, q.slots(day)[k])) == Some(u)
  }

  ghost predicate Occurs(q: Search, u: int) {
    exists day, k :: OccursAt(q, day, k, u)
  }

  // ---------- the search ----------

  function ScanDay(z: Zone, after: int, day: int, seconds: seq<int>, k: nat): Option<int>
    decreases |seconds| - k
  {
    if k >= |seconds| then None
    else
      var due := z.toUtc(Local(day, seconds[k]));
      if due.Some? && due.value > after then due else ScanDay(z, after, day, seconds, k + 1)
  }

  function ScanDays(q: Search, after: int, day: int, last: int): Option<int>
    decreases last - day
  {
    if day > last then None
    else
      var found := ScanDay(q.zone, after, day, q.slots(day), 0);
      if found.Some? then found else ScanDays(q, after, day + 1, last)
  }

  /** The local day that `after` falls on. */
  function FirstDay(q: Search, after: int): int {
    q.zone.toLocal(after) / MS_PER_DAY
  }

  function NextTime(q: Search, after: int): Option<int> {
    ScanDays(q, after, FirstDay(q, after), FirstDay(q, after) + q.window)
  }

  /** local_day_start_ms, in days: the date of a local time and back. */
  method LocalDayStart(local: int) returns (day: int)
    ensures day == local / MS_PER_DAY
  {
    day := CalendarDates.DayNumber(CalendarDates.DateOf(local / MS_PER_DAY));
  }

  /** scan_local_days: the loop over local days. */
  method ScanLocalDays(q: Search, after: int) returns (r: Option<int>)
    ensures r == NextTime(q, after)
  {
    var start := LocalDayStart(q.zone.toLocal(after));
    var last := start + q.window;
    var day := start;
    while day <= last
      invariant start <= day <= last + 1
      invariant NextTime(q, after) == ScanDays(q, after, day, last)
    {
      r := ScanSeconds(q.zone, after, day, q.slots(day));
      if r.Some? {
        return;
      }
      day := day + 1;
    }
    return None;
  }

  /** The loop over the seconds of one local day. */
  method ScanSeconds(z: Zone, after: int, day: int, seconds: seq<int>) returns (r: Option<int>)
    ensures r == ScanDay(z, after, day, seconds, 0)
  {
    var k := 0;
    while k < |seconds|
      invariant 0 <= k <= |seconds|
      invariant ScanDay(z, after, day, seconds, 0) == ScanDay(z, after, day, seconds, k)
    {
      var due := z.toUtc(Local(day, seconds[k]));
      if due.Some? && due.value > after {
        return due;
      }
      k := k + 1;
    }
    return None;
  }

  // ---------- what the search finds ----------

  lemma {:induction false} ScanDayFinds(z: Zone, after: int, day: int, seconds: seq<int>, k: nat) returns (at: nat)
    requires k <= |seconds|
    ensures k <= at <= |seconds|
    ensures forall j :: k <= j < at ==> var due := z.toUtc(Local(day, seconds[j])); due.Some? ==> due.value <= after
    ensures var r := ScanDay(z, after, day, seconds, k);
      if at < |seconds| then r == z.toUtc(Local(day, seconds[at])) && r.Some? && r.value > after else r == None
    decreases |seconds| - k
  {
    at := k;
    if k >= |seconds| {
    } else {
      var due := z.toUtc(Local(day, seconds[k]));
      if !(due.Some? && due.value > after) {
        at := ScanDayFinds(z, after, day, seconds, k + 1);
      }
    }
  }

  /** Every slot before slot `at` of day `found`, from day `day` on, is not after `after`. */
  ghost predicate AllBefore(q: Search, after: int, day: int, found: int, at: nat) {
    forall d, k: nat, u :: day <= d && (d < found || (d == found && k < at)) && OccursAt(q, d, k, u) ==> u <= after
  }

  lemma {:induction false} ScanDaysFinds(q: Search, after: int, day: int, last: int) returns (found: int, at: nat)
    requires day <= last + 1
    ensures day <= found <= last + 1 && AllBefore(q, after, day, found, at)
    ensures var r := ScanDays(q, after, day, last);
      if found <= last then r.Some? && OccursAt(q, found, at, r.value) && r.value > after else at == 0 && r == None
    decreases last + 1 - day
  {
    if day > last {
      return day, 0;
    }
    at := ScanDayFinds(q.zone, after, day, q.slots(day), 0);
    found := day;
    if at < |q.slots(day)| {
    } else {
      found, at := ScanDaysFinds(q, after, day + 1, last);
    }
    forall d, k: nat, u | day <= d && (d < found || (d == found && k < at)) && OccursAt(q, d, k, u)
      ensures u <= after
    {
      if d > day {
        assert AllBefore(q, after, day + 1, found, at);
      }
    }
  }

  /** No occurrence on an earlier local day than `after` comes after it. */
  lemma EarlierDays(q: Search, after: int, d: int, k: nat, u: int)
    requires Sound(q) && OccursAt(q, d, k, u) && u > after
    ensures d >= FirstDay(q, after)
  {
    assert Normal(q.slots(d));
    var l := Local(d, q.slots(d)[k]);
    assert ValidSecond(q.slots(d)[k]);
    assert Increasing(q.zone, l, q.zone.toLocal(after));
  }

  /** Occurrences come in the order of their local times. */
  lemma LaterSlots(q: Search, d: int, k: nat, u: int, d': int, k': nat, u': int)
    requires Sound(q) && OccursAt(q, d, k, u) && OccursAt(q, d', k', u')
    requires d < d' || (d == d' && k <= k')
    ensures u <= u'
  {
    assert Normal(q.slots(d));
    assert Normal(q.slots(d'));
    var l, l' := Local(d, q.slots(d)[k]), Local(d', q.slots(d')[k']);
    assert ValidSecond(q.slots(d)[k]) && ValidSecond(q.slots(d')[k']);
    assert Increasing(q.zone, l, l');
  }

  /** An occurrence after `after` within the window. */
  predicate Within(q: Search, after: int, d: int, k: nat, u: int) {
    OccursAt(q, d, k, u) && u > after && d <= FirstDay(q, after) + q.window
  }

  ghost predicate IsLeastAfter(q: Search, after: int, u: int) {
    Occurs(q, u) && u > after && forall v :: Occurs(q, v) && v > after ==> u <= v
  }

  /** When the search returns a time, it is the least occurrence of the rule strictly after `after`,
      over all local days: gaps are skipped, and an ambiguous time counts once. */
  lemma NextTimeIsLeast(q: Search, after: int)
    requires Sound(q) && NextTime(q, after).Some?
    ensures IsLeastAfter(q, after, NextTime(q, after).value)
  {
    var first := FirstDay(q, after);
    var u := NextTime(q, after).value;
    var found, at := ScanDaysFinds(q, after, first, first + q.window);
    forall v | Occurs(q, v) && v > after
      ensures u <= v
    {
      var d, k :| OccursAt(q, d, k, v);
      EarlierDays(q, after, d, k, v);
      LaterSlots(q, found, at, u, d, k, v);
    }
  }

  /** The search finds a time exactly when an occurrence after `after` lies within its window. */
  lemma NextTimeFinds(q: Search, after: int)
    requires Sound(q)
    ensures NextTime(q, after).Some? <==> exists d, k: nat, u :: Within(q, after, d, k, u)
    ensures NextTime(q, after).Some? ==> exists d, k: nat :: Within(q, after, d, k, NextTime(q, after).value)
  {
    var first := FirstDay(q, after);
    var found, at := ScanDaysFinds(q, after, first, first + q.window);
    if NextTime(q, after).Some? {
      assert Within(q, after, found, at, NextTime(q, after).value);
    }
    if d, k: nat, u :| Within(q, after, d, k, u) {
      EarlierDays(q, after, d, k, u);
    }
  }
}
