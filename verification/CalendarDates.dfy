/** Proleptic Gregorian dates (ISO 8601) by day number, day 0 being 1970-01-01. */
module CalendarDates {
  datatype Date = Date(year: int, month: int, day: int)

  predicate IsLeap(y: int) {
    y % 4 == 0 && (y % 100 != 0 || y % 400 == 0)
  }

  function YearLength(y: int): (n: nat)
    ensures 365 <= n <= 366
  {
    if IsLeap(y) then 366 else 365
  }

  function MonthLength(y: int, m: int): (n: nat)
    requires 1 <= m <= 12
    ensures 28 <= n <= 31
  {
    if m == 2 then (if IsLeap(y) then 29 else 28)
    else if m == 4 || m == 6 || m == 9 || m == 11 then 30
    else 31
  }

  predicate ValidDate(d: Date) {
    1 <= d.month <= 12 && 1 <= d.day <= MonthLength(d.year, d.month)
  }

  /** The day number of 1 January. */
  function YearStart(y: int): int
    decreases if y >= 1970 then y - 1970 else 1970 - y
  {
    if y == 1970 then 0
    else if y > 1970 then YearStart(y - 1) + YearLength(y - 1)
    else YearStart(y + 1) - YearLength(y)
  }

  function MonthStart(y: int, m: int): (n: nat)
    requires 1 <= m <= 13
    decreases m
  {
    if m == 1 then 0 else MonthStart(y, m - 1) + MonthLength(y, m - 1)
  }

  function DayNumber(d: Date): int
    requires ValidDate(d)
  {
    YearStart(d.year) + MonthStart(d.year, d.month) + d.day - 1
  }

  /** 0 is Sunday. Day 0 was a Thursday. */
  function Weekday(n: int): (w: nat)
    ensures w < 7
  {
    (n + 4) % 7
  }

  // ---------- years ----------

  lemma NextYear(y: int)
    ensures YearStart(y + 1) == YearStart(y) + YearLength(y)
  {
  }

  /** Leap years before year `y`, counted from year 1; `/` rounds down here. */
  function LeapsBefore(y: int): int {
    (y - 1) / 4 - (y - 1) / 100 + (y - 1) / 400
  }

  /** The usual closed form. */
  lemma {:induction false} YearStartClosedForm(y: int)
    ensures YearStart(y) == 365 * (y - 1970) + LeapsBefore(y) - LeapsBefore(1970)
    decreases if y >= 1970 then y - 1970 else 1970 - y
  {
    if y > 1970 {
      YearStartClosedForm(y - 1);
      LeapCount(y - 1);
    } else if y < 1970 {
      YearStartClosedForm(y + 1);
      LeapCount(y);
    }
  }

  lemma LeapCount(y: int)
    ensures LeapsBefore(y + 1) - LeapsBefore(y) == if IsLeap(y) then 1 else 0
  {
    Quotients(y, 4);
    Quotients(y, 100);
    Quotients(y, 400);
    Multiples(y);
  }

  lemma Multiples(y: int)
    ensures y % 400 == 0 ==> y % 100 == 0
    ensures y % 100 == 0 ==> y % 4 == 0
  {
    if y % 400 == 0 {
      MultipleOf(y, 100, 4);
    }
    if y % 100 == 0 {
      MultipleOf(y, 4, 25);
    }
  }

  lemma MultipleOf(y: int, a: int, b: int)
    requires (a == 100 && b == 4) || (a == 4 && b == 25)
    requires y % (a * b) == 0
    ensures y % a == 0
  {
    var q := y / (a * b);
    assert y == a * (b * q);
  }

  lemma Quotients(y: int, k: int)
    requires k == 4 || k == 100 || k == 400
    ensures y / k == (y - 1) / k + if y % k == 0 then 1 else 0
  {
  }

  lemma {:induction false} YearsGrow(a: int, b: int)
    requires a <= b
    ensures YearStart(a) + 365 * (b - a) <= YearStart(b) <= YearStart(a) + 366 * (b - a)
    decreases b - a
  {
    if a == b {
    } else {
      YearsGrow(a, b - 1);
      NextYear(b - 1);
    }
  }

  /** The year of day `n`, searched from `y`. */
  function YearFrom(y: int, n: int): (r: int)
    requires YearStart(y) <= n
    ensures YearStart(r) <= n < YearStart(r + 1)
    decreases n - YearStart(y)
  {
    NextYear(y);
    if n < YearStart(y + 1) then y else YearFrom(y + 1, n)
  }

  /** A year that is surely not after day `n`. */
  function EarlyYear(n: int): (y: int)
    ensures YearStart(y) <= n
  {
    var y := if n >= 0 then 1970 else 1970 + n / 365 - 1;
    assert YearStart(1970) == 0;
    if y <= 1970 then YearsGrow(y, 1970); y else y
  }

  function YearOf(n: int): (y: int)
    ensures YearStart(y) <= n < YearStart(y + 1)
  {
    YearFrom(EarlyYear(n), n)
  }

  lemma OneYear(y: int, z: int, n: int)
    requires YearStart(y) <= n < YearStart(y + 1) && YearStart(z) <= n < YearStart(z + 1)
    ensures y == z
  {
    if y < z {
      YearsGrow(y + 1, z);
    } else if z < y {
      YearsGrow(z + 1, y);
    }
  }

  // ---------- months ----------

  lemma YearOfMonths(y: int)
    ensures MonthStart(y, 13) == YearLength(y)
  {
    assert MonthStart(y, 3) == 31 + MonthLength(y, 2);
    assert MonthStart(y, 5) == MonthStart(y, 3) + 61;
    assert MonthStart(y, 7) == MonthStart(y, 5) + 61;
    assert MonthStart(y, 9) == MonthStart(y, 7) + 62;
    assert MonthStart(y, 11) == MonthStart(y, 9) + 61;
  }

  /** The month of the day `k` days into year `y`, searched from `m`. */
  function MonthFrom(y: int, m: int, k: int): (r: int)
    requires 1 <= m <= 12 && MonthStart(y, m) <= k < MonthStart(y, 13)
    ensures 1 <= r <= 12 && MonthStart(y, r) <= k < MonthStart(y, r + 1)
    decreases 12 - m
  {
    if k < MonthStart(y, m + 1) || m == 12 then m else MonthFrom(y, m + 1, k)
  }

  lemma {:induction false} MonthsGrow(y: int, a: int, b: int)
    requires 1 <= a <= b <= 13
    ensures MonthStart(y, a) <= MonthStart(y, b)
    decreases b - a
  {
    if a == b {
    } else {
      MonthsGrow(y, a, b - 1);
    }
  }

  // ---------- dates ----------

  function DateOf(n: int): (d: Date)
    ensures ValidDate(d) && DayNumber(d) == n
  {
    var y := YearOf(n);
    NextYear(y);
    YearOfMonths(y);
    var k := n - YearStart(y);
    var m := MonthFrom(y, 1, k);
    Date(y, m, k - MonthStart(y, m) + 1)
  }

  /** Every valid date is the date of its day number, so the numbering is one-to-one. */
  lemma DateRoundTrip(d: Date)
    requires ValidDate(d)
    ensures DateOf(DayNumber(d)) == d
  {
    OneDate(d, DateOf(DayNumber(d)));
  }

  lemma OneDate(d: Date, e: Date)
    requires ValidDate(d) && ValidDate(e) && DayNumber(d) == DayNumber(e)
    ensures d == e
  {
    DayInYear(d);
    DayInYear(e);
    OneYear(d.year, e.year, DayNumber(d));
    OneMonth(d, e);
  }

  lemma OneMonth(d: Date, e: Date)
    requires ValidDate(d) && ValidDate(e) && d.year == e.year && DayNumber(d) == DayNumber(e)
    ensures d == e
  {
    if d.month < e.month {
      MonthsApart(d, e);
    } else if e.month < d.month {
      MonthsApart(e, d);
    }
  }

  lemma MonthsApart(d: Date, e: Date)
    requires ValidDate(d) && ValidDate(e) && d.year == e.year && d.month < e.month
    ensures MonthStart(d.year, d.month) + d.day < MonthStart(e.year, e.month) + e.day
  {
    MonthsGrow(d.year, d.month + 1, e.month);
    assert MonthStart(d.year, d.month + 1) == MonthStart(d.year, d.month) + MonthLength(d.year, d.month);
  }

  lemma DayInYear(d: Date)
    requires ValidDate(d)
    ensures YearStart(d.year) <= DayNumber(d) < YearStart(d.year + 1)
  {
    NextYear(d.year);
    YearOfMonths(d.year);
    MonthsGrow(d.year, d.month + 1, 13);
    assert MonthStart(d.year, d.month + 1) == MonthStart(d.year, d.month) + MonthLength(d.year, d.month);
  }

  function NextMonth(y: int, m: int): (r: (int, int))
    requires 1 <= m <= 12
    ensures 1 <= r.1 <= 12
  {
    if m == 12 then (y + 1, 1) else (y, m + 1)
  }

  lemma MonthAfter(y: int, m: int)
    requires 1 <= m <= 12
    ensures var (y', m') := NextMonth(y, m);
      DayNumber(Date(y', m', 1)) == DayNumber(Date(y, m, 1)) + MonthLength(y, m)
  {
    assert MonthStart(y, m + 1) == MonthStart(y, m) + MonthLength(y, m);
    if m == 12 {
      NextYear(y);
      YearOfMonths(y);
    }
  }

  /** A short month stands between two long ones. */
  lemma NoTwoShortMonths(y: int, m: int)
    requires 1 <= m <= 12
    ensures var (y', m') := NextMonth(y, m); MonthLength(y, m) == 31 || MonthLength(y', m') == 31
  {
  }

  /** Every day of the month 1..31 recurs within 62 days of any date, leap years included. */
  lemma MonthDayRecurs(n: int, day: int) returns (k: nat)
    requires 1 <= day <= 31
    ensures 1 <= k <= 62 && DateOf(n + k).day == day
  {
    var d := DateIs(n);
    k := NextMonthDayOf(d, n, day);
  }

  lemma NextMonthDayOf(d: Date, n: int, day: int) returns (k: nat)
    requires ValidDate(d) && DayNumber(d) == n && 1 <= day <= 31
    ensures 1 <= k <= 62 && DateOf(n + k).day == day
  {
    var found;
    found, k := NextMonthDay(d, day);
    DayAt(found, n + k, day);
  }

  lemma DayAt(d: Date, n: int, day: int)
    requires ValidDate(d) && d.day == day && DayNumber(d) == n
    ensures DateOf(n).day == day
  {
    DateAt(d, n);
  }

  lemma DateIs(n: int) returns (d: Date)
    ensures ValidDate(d) && DayNumber(d) == n && DateOf(n) == d
  {
    d := DateOf(n);
  }

  lemma DateAt(d: Date, n: int)
    requires ValidDate(d) && DayNumber(d) == n
    ensures DateOf(n) == d
  {
    DateRoundTrip(d);
  }

  lemma NextMonthDay(d: Date, day: int) returns (found: Date, k: nat)
    requires ValidDate(d) && 1 <= day <= 31
    ensures ValidDate(found) && found.day == day && 1 <= k <= 62 && DayNumber(found) == DayNumber(d) + k
  {
    var (y1, m1) := NextMonth(d.year, d.month);
    var (y2, m2) := NextMonth(y1, m1);
    var len, len1 := MonthLength(d.year, d.month), MonthLength(y1, m1);
    NoTwoShortMonths(d.year, d.month);
    NoTwoShortMonths(y1, m1);
    InMonth(d.year, d.month, d.day);
    if d.day < day <= len {
      found, k := Date(d.year, d.month, day), day - d.day;
      InMonth(d.year, d.month, day);
    } else if day <= len1 {
      found, k := Date(y1, m1, day), len - d.day + day;
      MonthAfter(d.year, d.month);
      InMonth(y1, m1, day);
    } else {
      found, k := Date(y2, m2, day), len - d.day + len1 + day;
      MonthAfter(d.year, d.month);
      MonthAfter(y1, m1);
      InMonth(y2, m2, day);
    }
  }

  lemma InMonth(y: int, m: int, day: int)
    requires ValidDate(Date(y, m, day))
    ensures DayNumber(Date(y, m, day)) == DayNumber(Date(y, m, 1)) + day - 1
  {
  }
}
