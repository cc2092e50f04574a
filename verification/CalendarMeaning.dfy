/** What calendar rules mean: the instants at which a rule occurs, told from its lists of seconds and from
    the calendar itself. */
module CalendarMeaning {
  import opened TaskTypes
  import opened CalendarDates
  import opened CalendarScan
  import opened CalendarRules

  // ---------- the calendar ----------

  /** The lengths of the months of a year, January first. */
  function Lengths(y: int): seq<int> {
    [31, if y % 4 == 0 && (y % 100 != 0 || y % 400 == 0) then 29 else 28, 31, 30, 31, 30, 31, 31, 30, 31, 30, 31]
  }

  function Tomorrow(d: Date): Date
    requires 1 <= d.month <= 12
  {
    if d.day < Lengths(d.year)[d.month - 1] then d.(day := d.day + 1)
    else if d.month < 12 then Date(d.year, d.month + 1, 1)
    else Date(d.year + 1, 1, 1)
  }

  /** Day 0 is 1970-01-01 and each next day has the next date: this determines the date of every day. */
  lemma DatesFollow(n: int)
    ensures DateOf(n + 1) == Tomorrow(DateOf(n))
    ensures n == 0 ==> DateOf(n) == Date(1970, 1, 1)
  {
    var d := DateIs(n);
    TomorrowNumber(d, n);
    DateAt(Tomorrow(d), n + 1);
    if n == 0 {
      FirstDate();
      DateAt(Date(1970, 1, 1), n);
    }
  }

  lemma FirstDate()
    ensures DayNumber(Date(1970, 1, 1)) == 0
  {
  }

  lemma TomorrowNumber(d: Date, n: int)
    requires ValidDate(d) && DayNumber(d) == n
    ensures ValidDate(Tomorrow(d)) && DayNumber(Tomorrow(d)) == n + 1
  {
    assert MonthLength(d.year, d.month) == Lengths(d.year)[d.month - 1];
    InMonth(d.year, d.month, d.day);
    if d.day == MonthLength(d.year, d.month) {
      MonthAfter(d.year, d.month);
    } else {
      InMonth(d.year, d.month, d.day + 1);
    }
  }

  /** Day 0 was a Thursday, which is number 4 when Sunday is 0, and each next day has the next weekday. */
  lemma WeekdaysFollow(n: int)
    ensures Weekday(0) == 4 && Weekday(n + 1) == if Weekday(n) == 6 then 0 else Weekday(n) + 1
  {
  }

  /** Where the months start within a year. */
  lemma MonthStarts(y: int)
    ensures var leap := if y % 4 == 0 && (y % 100 != 0 || y % 400 == 0) then 1 else 0;
      && MonthStart(y, 1) == 0 && MonthStart(y, 2) == 31 && MonthStart(y, 3) == 59 + leap && MonthStart(y, 4) == 90 + leap
      && MonthStart(y, 5) == 120 + leap && MonthStart(y, 6) == 151 + leap && MonthStart(y, 7) == 181 + leap
      && MonthStart(y, 8) == 212 + leap && MonthStart(y, 9) == 243 + leap && MonthStart(y, 10) == 273 + leap
      && MonthStart(y, 11) == 304 + leap && MonthStart(y, 12) == 334 + leap && YearLength(y) == 365 + leap
  {
    assert MonthStart(y, 2) == MonthStart(y, 1) + 31;
    assert MonthStart(y, 4) == MonthStart(y, 3) + 31;
    assert MonthStart(y, 6) == MonthStart(y, 5) + 31;
    assert MonthStart(y, 8) == MonthStart(y, 7) + 31;
    assert MonthStart(y, 10) == MonthStart(y, 9) + 30;
    assert MonthStart(y, 12) == MonthStart(y, 11) + 30;
  }

  // ---------- when a rule occurs ----------

  /** The rule's list for that local day holds that second. */
  predicate Lists(rule: Rule, day: int, second: int) {
    match rule
    case Daily(s) => second in s
    case Weekly(w) => second in w[Weekday(day)]
    case Monthly(m) => second in m[DateOf(day).day]
  }

  lemma ListsIsSlot(rule: Rule, day: int, second: int)
    ensures Lists(rule, day, second) <==> second in SecondsOn(rule, day)
  {
  }

  predicate ComesAt(z: Zone, rule: Rule, day: int, second: int, u: int) {
    Lists(rule, day, second) && z.toUtc(86400000 * day + 1000 * second) == Some(u)
  }

  lemma LocalIs(day: int, second: int)
    ensures Local(day, second) == 86400000 * day + 1000 * second
  {
  }

  lemma IndexOf(q: seq<int>, x: int) returns (k: nat)
    requires x in q
    ensures k < |q| && q[k] == x
  {
    k :| 0 <= k < |q| && q[k] == x;
  }

  lemma SlotComesAt(z: Zone, rule: Rule, day: int, k: nat, u: int)
    requires OccursAt(SearchOf(z, rule), day, k, u)
    ensures k < |SecondsOn(rule, day)| && ComesAt(z, rule, day, SecondsOn(rule, day)[k], u)
  {
    assert SearchOf(z, rule).slots(day) == SecondsOn(rule, day);
    ListsIsSlot(rule, day, SecondsOn(rule, day)[k]);
    LocalIs(day, SecondsOn(rule, day)[k]);
  }

  lemma ComesAtSlot(z: Zone, rule: Rule, day: int, second: int, u: int) returns (k: nat)
    requires ComesAt(z, rule, day, second, u)
    ensures OccursAt(SearchOf(z, rule), day, k, u)
  {
    ListsIsSlot(rule, day, second);
    LocalIs(day, second);
    k := IndexOf(SecondsOn(rule, day), second);
    assert SearchOf(z, rule).slots(day) == SecondsOn(rule, day);
  }

  /** In any zone, a rule occurs exactly at the instants that the zone gives for its listed seconds, each
      counted from the start of its local day. */
  lemma RuleOccurs(z: Zone, rule: Rule, u: int)
    ensures Occurs(SearchOf(z, rule), u) <==> exists day, second :: ComesAt(z, rule, day, second, u)
  {
    if day, k: nat :| OccursAt(SearchOf(z, rule), day, k, u) {
      SlotComesAt(z, rule, day, k, u);
    }
    if day, second :| ComesAt(z, rule, day, second, u) {
      var k := ComesAtSlot(z, rule, day, second, u);
    }
  }

  lemma ListedValid(rule: Rule, day: int, second: int)
    requires Accepted(rule) && Lists(rule, day, second)
    ensures 0 <= second < 86400
  {
    SecondsNormal(rule, day);
    ListsIsSlot(rule, day, second);
    var k := IndexOf(SecondsOn(rule, day), second);
    assert ValidSecond(SecondsOn(rule, day)[k]);
  }

  /** The local time `l`, in milliseconds from the start of 1970-01-01, is one of the rule's. */
  predicate IsListed(rule: Rule, l: int) {
    var (day, second) := (l / 86400000, l % 86400000 / 1000);
    l % 1000 == 0 &&
      match rule
      case Daily(s) => second in s
      case Weekly(w) => second in w[Weekday(day)]
      case Monthly(m) => second in m[DateOf(day).day]
  }

  lemma SplitLocal(l: int, day: int, second: int)
    requires 0 <= second < 86400
    ensures l == 86400000 * day + 1000 * second <==> l % 1000 == 0 && l / 86400000 == day && l % 86400000 / 1000 == second
  {
  }

  /** A local time is the rule's exactly if it is a listed second of its day. */
  lemma ListedIsLocal(rule: Rule, l: int)
    requires Accepted(rule)
    ensures IsListed(rule, l) <==> exists day, second :: IsSecondOf(rule, day, second, l)
  {
    if IsListed(rule, l) {
      SplitLocal(l, l / 86400000, l % 86400000 / 1000);
      assert IsSecondOf(rule, l / 86400000, l % 86400000 / 1000, l);
    }
    if day, second :| IsSecondOf(rule, day, second, l) {
      ListedValid(rule, day, second);
      SplitLocal(l, day, second);
    }
  }

  predicate IsSecondOf(rule: Rule, day: int, second: int, l: int) {
    Lists(rule, day, second) && l == 86400000 * day + 1000 * second
  }

  predicate ListedAt(offset: int, rule: Rule, u: int) {
    IsListed(rule, u + offset)
  }

  /** With a fixed offset the rule occurs at `u` exactly if the local time `u + offset` is one of its own. */
  lemma OffsetOccurs(offset: int, rule: Rule, u: int)
    requires Accepted(rule)
    ensures Occurs(SearchOf(FixedOffset(offset), rule), u) <==> IsListed(rule, u + offset)
  {
    var z, l := FixedOffset(offset), u + offset;
    RuleOccurs(z, rule, u);
    ListedIsLocal(rule, l);
    if day, second :| ComesAt(z, rule, day, second, u) {
      assert IsSecondOf(rule, day, second, l);
    }
    if day, second :| IsSecondOf(rule, day, second, l) {
      assert ComesAt(z, rule, day, second, u);
    }
  }

  /** The next time of a rule with a fixed offset, in full: it exists, it is after `after`, it falls on a
      second that the rule lists for that day of the week or month, and no instant in between does. */
  lemma OffsetNextTime(offset: int, rule: Rule, after: int)
    requires Accepted(rule)
    ensures NextTime(SearchOf(FixedOffset(offset), rule), after).Some?
    ensures var u := NextTime(SearchOf(FixedOffset(offset), rule), after).value; var l := u + offset;
      && after < u && l % 1000 == 0
      && (rule.Daily? ==> l % 86400000 / 1000 in rule.seconds)
      && (rule.Weekly? ==> l % 86400000 / 1000 in rule.byWeekday[Weekday(l / 86400000)])
      && (rule.Monthly? ==> l % 86400000 / 1000 in rule.byDay[DateOf(l / 86400000).day])
      && forall v :: after < v < u ==> !ListedAt(offset, rule, v)
  {
    OffsetNextListed(offset, rule, after);
  }

  lemma OffsetNextListed(offset: int, rule: Rule, after: int)
    requires Accepted(rule)
    ensures var r := NextTime(SearchOf(FixedOffset(offset), rule), after);
      r.Some? && after < r.value && ListedAt(offset, rule, r.value) && forall v :: after < v < r.value ==> !ListedAt(offset, rule, v)
  {
    var q := SearchOf(FixedOffset(offset), rule);
    FixedOffsetSuffices(offset, rule, after);
    FixedOffsetLawful(offset);
    AcceptedSound(q.zone, rule);
    NextTimeIsLeast(q, after);
    var u := NextTime(q, after).value;
    OffsetOccurs(offset, rule, u);
    forall v | after < v < u
      ensures !ListedAt(offset, rule, v)
    {
      OffsetOccurs(offset, rule, v);
    }
  }

  /** An occurrence that the search can see: it falls on one of the local days that it looks through. */
  predicate InSight(z: Zone, rule: Rule, after: int, day: int, second: int, u: int) {
    ComesAt(z, rule, day, second, u) && after < u &&
    day <= z.toLocal(after) / 86400000 + match rule case Daily(_) => 2 case Weekly(_) => 14 case Monthly(_) => 370
  }

  /** In any zone, the search looks two days ahead for a daily rule, two weeks for a weekly and 370 days for
      a monthly one, and finds a time exactly if there is one as near as that. */
  lemma LooksAhead(z: Zone, rule: Rule, after: int)
    requires Lawful(z) && Accepted(rule)
    ensures NextTime(SearchOf(z, rule), after).Some? <==> exists day, second, u :: InSight(z, rule, after, day, second, u)
  {
    AcceptedSound(z, rule);
    NextTimeFinds(SearchOf(z, rule), after);
    if day, k: nat, u :| Within(SearchOf(z, rule), after, day, k, u) {
      SlotComesAt(z, rule, day, k, u);
      assert InSight(z, rule, after, day, SecondsOn(rule, day)[k], u);
    }
    if day, second, u :| InSight(z, rule, after, day, second, u) {
      var k := ComesAtSlot(z, rule, day, second, u);
      assert Within(SearchOf(z, rule), after, day, k, u);
    }
  }

  // ---------- across a change of offset ----------

  /** The local time at instant `u` where the offset changes from `before` to `late` at `t`. */
  function LocalAt(t: int, before: int, late: int, u: int): int {
    u + if u < t then before else late
  }

  /** Across a change of offset the rule occurs at `u` exactly if the local time then is one of its own and
      no earlier instant has the same local time: what falls into a gap is skipped, and of a time that
      comes twice only the first counts. */
  lemma ChangeOccurs(t: int, before: int, late: int, rule: Rule, u: int)
    requires Accepted(rule)
    ensures Occurs(SearchOf(Changing(t, before, late), rule), u) <==>
      IsListed(rule, LocalAt(t, before, late, u)) && forall v :: v < u ==> LocalAt(t, before, late, v) != LocalAt(t, before, late, u)
  {
    var z := Changing(t, before, late);
    var l := LocalAt(t, before, late, u);
    RuleOccurs(z, rule, u);
    ListedIsLocal(rule, l);
    FirstInstant(t, before, late, u);
    if day, second :| ComesAt(z, rule, day, second, u) {
      InstantLocal(t, before, late, 86400000 * day + 1000 * second, u);
      assert IsSecondOf(rule, day, second, l);
    }
    if z.toUtc(l) == Some(u) && IsListed(rule, l) {
      var day, second :| IsSecondOf(rule, day, second, l);
      assert ComesAt(z, rule, day, second, u);
    }
  }

  lemma InstantLocal(t: int, before: int, late: int, l: int, u: int)
    requires Changing(t, before, late).toUtc(l) == Some(u)
    ensures LocalAt(t, before, late, u) == l
  {
  }

  lemma FirstInstant(t: int, before: int, late: int, u: int)
    ensures Changing(t, before, late).toUtc(LocalAt(t, before, late, u)) == Some(u) <==>
      forall v :: v < u ==> LocalAt(t, before, late, v) != LocalAt(t, before, late, u)
  {
    var z, l := Changing(t, before, late), LocalAt(t, before, late, u);
    GapsAndFolds(t, before, late, l);
    assert z.toLocal(u) == l;
    if z.toUtc(l) == Some(u) {
      forall v | v < u
        ensures LocalAt(t, before, late, v) != l
      {
        assert z.toLocal(v) == LocalAt(t, before, late, v);
      }
    } else {
      var v := z.toUtc(l).value;
      assert z.toLocal(v) == LocalAt(t, before, late, v) == l && v < u;
    }
  }
}
