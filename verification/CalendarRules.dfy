/** Accepting calendar rules: normalisation, and search windows that are long enough. */
module CalendarRules {
  import CalendarDates
  import opened CalendarScan

  // ---------- rules ----------

  type ByWeekday = r: seq<seq<int>> | |r| == 7 witness [[], [], [], [], [], [], []]

  type ByMonthDay = r: seq<seq<int>> | |r| == 32 witness seq(32, i => [])

  datatype Rule = Daily(seconds: seq<int>) | Weekly(byWeekday: ByWeekday) | Monthly(byDay: ByMonthDay)

  function SecondsOn(rule: Rule, day: int): seq<int> {
    match rule
    case Daily(s) => s
    case Weekly(w) => w[CalendarDates.Weekday(day)]
    case Monthly(m) => m[CalendarDates.DateOf(day).day]
  }

  /** What an accepted rule looks like: normalised, and not empty. */
  ghost predicate Accepted(rule: Rule) {
    match rule
    case Daily(s) => Normal(s) && s != []
    case Weekly(w) => (forall i :: 0 <= i < 7 ==> Normal(w[i])) && exists i :: 0 <= i < 7 && w[i] != []
    case Monthly(m) => m[0] == [] && (forall i :: 0 <= i < 32 ==> Normal(m[i])) && exists i :: 0 <= i < 32 && m[i] != []
  }

  function Window(rule: Rule): nat {
    match rule
    case Daily(_) => 2
    case Weekly(_) => 14
    case Monthly(_) => 370
  }

  function SearchOf(z: Zone, rule: Rule): Search {
    Search(z, day => SecondsOn(rule, day), Window(rule))
  }

  lemma AcceptedSound(z: Zone, rule: Rule)
    requires Lawful(z) && Accepted(rule)
    ensures Sound(SearchOf(z, rule))
  {
    forall day: int
      ensures Normal(SearchOf(z, rule).slots(day))
    {
      SecondsNormal(rule, day);
    }
  }

  lemma SecondsNormal(rule: Rule, day: int)
    requires Accepted(rule)
    ensures Normal(SecondsOn(rule, day))
  {
  }

  // ---------- normalisation ----------

  ghost predicate SameValid(seconds: seq<int>, r: seq<int>) {
    forall x :: x in r <==> x in seconds && ValidSecond(x)
  }

  ghost predicate Ascending(q: seq<int>) {
    forall i, j :: 0 <= i < j < |q| ==> q[i] <= q[j]
  }

  /** erase(remove_if(!valid_second_of_day)). */
  method RemoveInvalid(seconds: seq<int>) returns (r: seq<int>)
    ensures SameValid(seconds, r)
  {
    r := [];
    var i := 0;
    while i < |seconds|
      invariant 0 <= i <= |seconds| && SameValid(seconds[..i], r)
    {
      assert seconds[..i + 1] == seconds[..i] + [seconds[i]];
      if ValidSecond(seconds[i]) {
        r := r + [seconds[i]];
      }
      i := i + 1;
    }
    assert seconds[..i] == seconds;
  }

  function InsertSecond(q: seq<int>, x: int): (r: seq<int>)
    ensures |r| == |q| + 1 && forall y :: y in r <==> y == x || y in q
  {
    if q == [] || x <= q[0] then [x] + q
    else
      var rest := InsertSecond(q[1..], x);
      assert forall y :: y in q <==> y == q[0] || y in q[1..];
      [q[0]] + rest
  }

  lemma {:induction false} InsertAscending(q: seq<int>, x: int)
    requires Ascending(q)
    ensures Ascending(InsertSecond(q, x))
  {
    if q == [] || x <= q[0] {
    } else {
      InsertAscending(q[1..], x);
      var rest := InsertSecond(q[1..], x);
      forall j | 0 <= j < |rest|
        ensures q[0] <= rest[j]
      {
        assert rest[j] in rest;
      }
    }
  }

  method Sort(q: seq<int>) returns (r: seq<int>)
    ensures Ascending(r) && forall x :: x in r <==> x in q
  {
    r := [];
    var i := 0;
    while i < |q|
      invariant 0 <= i <= |q| && Ascending(r) && forall x :: x in r <==> x in q[..i]
    {
      InsertAscending(r, q[i]);
      r := InsertSecond(r, q[i]);
      assert q[..i + 1] == q[..i] + [q[i]];
      i := i + 1;
    }
    assert q[..i] == q;
  }

  ghost predicate StrictlyAscending(q: seq<int>) {
    forall i, j :: 0 <= i < j < |q| ==> q[i] < q[j]
  }

  /** erase(unique). */
  method Unique(q: seq<int>) returns (r: seq<int>)
    requires Ascending(q)
    ensures StrictlyAscending(r) && forall x :: x in r <==> x in q
  {
    r := [];
    var i := 0;
    while i < |q|
      invariant 0 <= i <= |q| && StrictlyAscending(r) && forall x :: x in r <==> x in q[..i]
      invariant if i == 0 then r == [] else r != [] && r[|r| - 1] == q[i - 1]
    {
      assert q[..i + 1] == q[..i] + [q[i]];
      if i == 0 || q[i] != q[i - 1] {
        r := r + [q[i]];
      }
      i := i + 1;
    }
    assert q[..i] == q;
  }

  /** The valid seconds of the list, in order and each once. */
  method NormalizeSeconds(seconds: seq<int>) returns (r: seq<int>)
    ensures Normal(r) && SameValid(seconds, r)
  {
    var valid := RemoveInvalid(seconds);
    var sorted := Sort(valid);
    r := Unique(sorted);
    forall i | 0 <= i < |r|
      ensures ValidSecond(r[i])
    {
      assert r[i] in r;
    }
  }

  /** A weekly schedule is accepted exactly when some weekday has a valid second. */
  method NormalizeWeekly(schedule: ByWeekday) returns (w: ByWeekday, accepted: bool)
    ensures forall i :: 0 <= i < 7 ==> Normal(w[i]) && SameValid(schedule[i], w[i])
    ensures accepted <==> Accepted(Weekly(w))
    ensures accepted <==> exists i, x :: 0 <= i < 7 && x in schedule[i] && ValidSecond(x)
  {
    w, accepted := schedule, false;
    var i := 0;
    while i < 7
      invariant 0 <= i <= 7
      invariant forall j :: 0 <= j < i ==> Normal(w[j]) && SameValid(schedule[j], w[j])
      invariant forall j :: i <= j < 7 ==> w[j] == schedule[j]
      invariant accepted <==> exists j :: 0 <= j < i && w[j] != []
    {
      var seconds := NormalizeSeconds(w[i]);
      w := w[i := seconds];
      accepted := accepted || seconds != [];
      i := i + 1;
    }
    SomeValid(schedule, w);
  }

  /** A monthly schedule is accepted exactly when some day 1..31 has a valid second; day 0 is cleared. */
  method NormalizeMonthly(schedule: ByMonthDay) returns (m: ByMonthDay, accepted: bool)
    ensures m[0] == [] && forall i :: 1 <= i < 32 ==> Normal(m[i]) && SameValid(schedule[i], m[i])
    ensures accepted <==> Accepted(Monthly(m))
    ensures accepted <==> exists i, x :: 1 <= i < 32 && x in schedule[i] && ValidSecond(x)
  {
    m, accepted := schedule[0 := []], false;
    var i := 1;
    while i < 32
      invariant 1 <= i <= 32 && m[0] == []
      invariant forall j :: 1 <= j < i ==> Normal(m[j]) && SameValid(schedule[j], m[j])
      invariant forall j :: i <= j < 32 ==> m[j] == schedule[j]
      invariant accepted <==> exists j :: 0 <= j < i && m[j] != []
    {
      var seconds := NormalizeSeconds(m[i]);
      m := m[i := seconds];
      accepted := accepted || seconds != [];
      i := i + 1;
    }
    SomeValidMonthly(schedule, m);
  }

  lemma SomeValid(schedule: seq<seq<int>>, w: seq<seq<int>>)
    requires |schedule| == |w| && forall i :: 0 <= i < |w| ==> SameValid(schedule[i], w[i])
    ensures (exists i :: 0 <= i < |w| && w[i] != []) <==> exists i, x :: 0 <= i < |w| && x in schedule[i] && ValidSecond(x)
  {
    if i :| 0 <= i < |w| && w[i] != [] {
      var x := w[i][0];
      assert SameValid(schedule[i], w[i]) && x in w[i];
    }
    if i, x :| 0 <= i < |w| && x in schedule[i] && ValidSecond(x) {
      assert SameValid(schedule[i], w[i]) && x in w[i];
    }
  }

  lemma SomeValidMonthly(schedule: ByMonthDay, m: ByMonthDay)
    requires m[0] == [] && forall i :: 1 <= i < 32 ==> SameValid(schedule[i], m[i])
    ensures (exists i :: 0 <= i < 32 && m[i] != []) <==> exists i, x :: 1 <= i < 32 && x in schedule[i] && ValidSecond(x)
  {
    if i :| 0 <= i < 32 && m[i] != [] {
      assert m[i][0] in m[i];
      assert m[i][0] in schedule[i] && ValidSecond(m[i][0]);
    }
  }

  // ---------- the windows suffice ----------

  /** Two days with the same slots, within the window of the rule. */
  lemma TwoDays(rule: Rule, first: int) returns (d: int, e: int)
    requires Accepted(rule)
    ensures first < d < e <= first + Window(rule) && SecondsOn(rule, d) == SecondsOn(rule, e) != []
  {
    match rule
    case Daily(_) => d, e := first + 1, first + 2;
    case Weekly(w) =>
      var i :| 0 <= i < 7 && w[i] != [];
      d := first + 1 + (i - (first + 1 + 4)) % 7;
      e := d + 7;
      SameWeekday(first + 1, i);
    case Monthly(m) => d, e := TwoMonthDays(m, first);
  }

  lemma TwoMonthDays(m: ByMonthDay, first: int) returns (d: int, e: int)
    requires Accepted(Monthly(m))
    ensures first < d < e <= first + 124 && SecondsOn(Monthly(m), d) == SecondsOn(Monthly(m), e) != []
  {
    var i :| 0 <= i < 32 && m[i] != [];
    d := SlotDay(m, first, i);
    e := SlotDay(m, d, i);
  }

  lemma SlotDay(m: ByMonthDay, n: int, i: int) returns (d: int)
    requires 1 <= i <= 31
    ensures n < d <= n + 62 && SecondsOn(Monthly(m), d) == m[i]
  {
    var k := CalendarDates.MonthDayRecurs(n, i);
    d := n + k;
  }

  lemma SameWeekday(n: int, i: int)
    requires 0 <= i < 7
    ensures var d := n + (i - (n + 4)) % 7; CalendarDates.Weekday(d) == i && CalendarDates.Weekday(d + 7) == i
  {
    var q := (i - (n + 4)) / 7;
    assert n + (i - (n + 4)) % 7 + 4 == i - 7 * q;
  }

  /** With a fixed offset every accepted rule always has a next time. */
  lemma FixedOffsetSuffices(offset: int, rule: Rule, after: int)
    requires Accepted(rule)
    ensures NextTime(SearchOf(FixedOffset(offset), rule), after).Some?
  {
    var q := SearchOf(FixedOffset(offset), rule);
    FixedOffsetLawful(offset);
    AcceptedSound(q.zone, rule);
    var d, e := TwoDays(rule, FirstDay(q, after));
    OffsetSlot(q, offset, after, d);
    NextTimeFinds(q, after);
  }

  lemma OffsetSlot(q: Search, offset: int, after: int, d: int)
    requires Sound(q) && q.zone == FixedOffset(offset) && FirstDay(q, after) < d <= FirstDay(q, after) + q.window && q.slots(d) != []
    ensures exists d, k: nat, u :: Within(q, after, d, k, u)
  {
    assert Normal(q.slots(d)) && ValidSecond(q.slots(d)[0]);
    assert Within(q, after, d, 0, Local(d, q.slots(d)[0]) - offset);
  }

  /** The windows are long enough even across a change of offset, forward or backward, of less than a
      day: if one of the two days of the rule is lost to the change, the other is not. */
  lemma ChangeSuffices(t: int, before: int, late: int, rule: Rule, after: int)
    requires Accepted(rule) && -MS_PER_DAY < late - before < MS_PER_DAY
    ensures NextTime(SearchOf(Changing(t, before, late), rule), after).Some?
  {
    var q := SearchOf(Changing(t, before, late), rule);
    ChangingLawful(t, before, late);
    AcceptedSound(q.zone, rule);
    var d, e := TwoDays(rule, FirstDay(q, after));
    ChangeSlot(q, t, before, late, after, d, e);
    NextTimeFinds(q, after);
  }

  lemma ChangeSlot(q: Search, t: int, before: int, late: int, after: int, d: int, e: int)
    requires Sound(q) && q.zone == Changing(t, before, late) && -MS_PER_DAY < late - before < MS_PER_DAY
    requires FirstDay(q, after) < d < e <= FirstDay(q, after) + q.window && q.slots(d) == q.slots(e) != []
    ensures exists d, k: nat, u :: Within(q, after, d, k, u)
  {
    var z, s := q.zone, q.slots(d)[0];
    assert Normal(q.slots(d)) && ValidSecond(s);
    var l, m := Local(d, s), Local(e, s);
    assert l + MS_PER_DAY <= m;
    if z.toUtc(m).Some? && z.toUtc(m).value > after {
      assert Within(q, after, e, 0, z.toUtc(m).value);
    } else {
      assert z.toUtc(l).Some? && z.toUtc(l).value > after;
      assert Within(q, after, d, 0, z.toUtc(l).value);
    }
  }
}
