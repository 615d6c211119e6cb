/** Working days for legal deadlines (compliance/services.py). Years are not bounded. */
module BusinessDays {
  import opened Calendar

  /* ---- days in order ---- */

  function NextDay(d: Day): Day {
    if d.day < DaysInMonth(d.year, d.month) then Date(d.year, d.month, d.day + 1)
    else if d.month < 12 then Date(d.year, d.month + 1, 1)
    else Date(d.year + 1, 1, 1)
  }

  function DaysBeforeMonth(year: int, month: int): int
    requires 1 <= month <= 12
    decreases month
  {
    if month == 1 then 0 else DaysBeforeMonth(year, month - 1) + DaysInMonth(year, month - 1)
  }

  function DaysBeforeYear(year: int): int {
    var y := year - 1;
    y * 365 + y / 4 - y / 100 + y / 400
  }

  /** The proleptic Gregorian ordinal: 1 for the first day of year 1. */
  function Ordinal(d: Day): int { DaysBeforeYear(d.year) + DaysBeforeMonth(d.year, d.month) + d.day }

  /** Monday is 0. */
  function Weekday(d: Day): int { (Ordinal(d) + 6) % 7 }

  function Plus(d: Day, n: nat): Day
    decreases n
  {
    if n == 0 then d else Plus(NextDay(d), n - 1)
  }

  lemma Quotients(y: int)
    ensures y / 4 - (y - 1) / 4 == if y % 4 == 0 then 1 else 0
    ensures y / 100 - (y - 1) / 100 == if y % 100 == 0 then 1 else 0
    ensures y / 400 - (y - 1) / 400 == if y % 400 == 0 then 1 else 0
  {
  }

  lemma TimesIs(q: int, n: int)
    requires n == 4 || n == 100
    ensures (n * q) % n == 0
  {
  }

  lemma Multiples(y: int)
    ensures y % 100 == 0 ==> y % 4 == 0
    ensures y % 400 == 0 ==> y % 100 == 0
  {
    TimesIs(25 * (y / 100), 4);
    TimesIs(4 * (y / 400), 100);
    assert y == 100 * (y / 100) + y % 100;
    assert y == 400 * (y / 400) + y % 400;
  }

  lemma YearLength(year: int)
    ensures DaysBeforeYear(year + 1) - DaysBeforeYear(year) == if Leap(year) then 366 else 365
  {
    Quotients(year);
    Multiples(year);
  }

  lemma MonthTable(year: int)
    ensures var f := if Leap(year) then 1 else 0;
            && DaysBeforeMonth(year, 1) == 0 && DaysBeforeMonth(year, 2) == 31 && DaysBeforeMonth(year, 3) == 59 + f
            && DaysBeforeMonth(year, 4) == 90 + f && DaysBeforeMonth(year, 5) == 120 + f && DaysBeforeMonth(year, 6) == 151 + f
            && DaysBeforeMonth(year, 7) == 181 + f && DaysBeforeMonth(year, 8) == 212 + f && DaysBeforeMonth(year, 9) == 243 + f
            && DaysBeforeMonth(year, 10) == 273 + f && DaysBeforeMonth(year, 11) == 304 + f && DaysBeforeMonth(year, 12) == 334 + f
  {
    MonthTableStart(year);
    assert DaysBeforeMonth(year, 7) == DaysBeforeMonth(year, 6) + 30;
    assert DaysBeforeMonth(year, 8) == DaysBeforeMonth(year, 7) + 31;
    assert DaysBeforeMonth(year, 9) == DaysBeforeMonth(year, 8) + 31;
    assert DaysBeforeMonth(year, 10) == DaysBeforeMonth(year, 9) + 30;
    assert DaysBeforeMonth(year, 11) == DaysBeforeMonth(year, 10) + 31;
    assert DaysBeforeMonth(year, 12) == DaysBeforeMonth(year, 11) + 30;
  }

  lemma MonthTableStart(year: int)
    ensures var f := if Leap(year) then 1 else 0;
            && DaysBeforeMonth(year, 1) == 0 && DaysBeforeMonth(year, 2) == 31 && DaysBeforeMonth(year, 3) == 59 + f
            && DaysBeforeMonth(year, 4) == 90 + f && DaysBeforeMonth(year, 5) == 120 + f && DaysBeforeMonth(year, 6) == 151 + f
  {
    assert DaysBeforeMonth(year, 2) == DaysBeforeMonth(year, 1) + 31;
    assert DaysBeforeMonth(year, 3) == DaysBeforeMonth(year, 2) + DaysInMonth(year, 2);
    assert DaysBeforeMonth(year, 4) == DaysBeforeMonth(year, 3) + 31;
    assert DaysBeforeMonth(year, 5) == DaysBeforeMonth(year, 4) + 30;
    assert DaysBeforeMonth(year, 6) == DaysBeforeMonth(year, 5) + 31;
  }

  /** The next day has the next ordinal. */
  lemma NextOrdinal(d: Day)
    ensures Ordinal(NextDay(d)) == Ordinal(d) + 1
  {
    hide DaysBeforeYear;
    if d.day == DaysInMonth(d.year, d.month) && d.month == 12 {
      YearLength(d.year);
      MonthTable(d.year);
    }
  }

  lemma {:induction false} PlusOrdinal(d: Day, n: nat)
    ensures Ordinal(Plus(d, n)) == Ordinal(d) + n
    decreases n
  {
    hide Ordinal;
    if n > 0 {
      NextOrdinal(d);
      PlusOrdinal(NextDay(d), n - 1);
    }
  }

  lemma {:induction false} PlusPlus(d: Day, m: nat, n: nat)
    ensures Plus(Plus(d, m), n) == Plus(d, m + n)
    decreases m
  {
    if m > 0 {
      PlusPlus(NextDay(d), m - 1, n);
    }
  }

  /* ---- holidays ---- */

  /** `_monday`: the given Monday of a month, counted from 1. */
  function Monday(year: int, month: int, count: int): (d: Day)
    requires 1 <= month <= 12 && 1 <= count <= 3
  {
    Date(year, month, 1 + (-Weekday(Date(year, month, 1))) % 7 + 7 * (count - 1))
  }

  /** It is a Monday, and exactly `count - 1` Mondays of the month come before it. */
  lemma MondayIsMonday(year: int, month: int, count: int)
    requires 1 <= month <= 12 && 1 <= count <= 3
    ensures Weekday(Monday(year, month, count)) == 0
    ensures 7 * (count - 1) < Monday(year, month, count).day <= 7 * count
  {
    hide DaysBeforeYear, DaysBeforeMonth;
    var first := Date(year, month, 1);
    var w := Weekday(first);
    assert (-w) % 7 == if w == 0 then 0 else 7 - w;
  }

  /** `mexican_base_holidays`. */
  function BaseHolidays(year: int): set<Day> {
    {Date(year, 1, 1), Monday(year, 2, 1), Monday(year, 3, 3), Date(year, 5, 1), Date(year, 9, 16), Monday(year, 11, 3), Date(year, 12, 25)}
    + if (year - 2024) % 6 == 0 then {Date(year, 10, 1)} else {}
  }

  /** A holiday on a fixed date. */
  predicate Fixed(d: Date) { (d.month, d.day) in {(1, 1), (5, 1), (9, 16), (10, 1), (12, 25)} }

  predicate Working(overrides: map<Day, bool>, d: Day) {
    if d in overrides then overrides[d] else Weekday(d) < 5 && d !in BaseHolidays(d.year)
  }

  lemma {:induction false} YearsApart(a: int, b: int)
    requires a <= b
    ensures DaysBeforeYear(b) - DaysBeforeYear(a) >= 365 * (b - a)
    decreases b - a
  {
    hide DaysBeforeYear;
    if a < b {
      YearLength(b - 1);
      YearsApart(a, b - 1);
    }
  }

  /** Two fixed holidays are never within a week of each other. */
  lemma FixedApart(a: Day, b: Day)
    requires Fixed(a) && Fixed(b) && Ordinal(a) < Ordinal(b)
    ensures Ordinal(a) + 7 <= Ordinal(b)
  {
    hide DaysBeforeYear;
    MonthTable(a.year);
    MonthTable(b.year);
    if a.year < b.year {
      YearsApart(a.year + 1, b.year);
      YearLength(a.year);
    } else if b.year < a.year {
      YearsApart(b.year + 1, a.year);
      YearLength(b.year);
    }
  }

  /** From Tuesday to Friday only a fixed holiday stops work. */
  lemma IdleIsFixed(overrides: map<Day, bool>, d: Day)
    requires d !in overrides && 0 < Weekday(d) < 5 && !Working(overrides, d)
    ensures Fixed(d)
  {
    hide Ordinal;
    MondayIsMonday(d.year, 2, 1);
    MondayIsMonday(d.year, 3, 3);
    MondayIsMonday(d.year, 11, 3);
  }

  /** The days until the next one with weekday `w`. */
  function Until(d: Day, w: int): (k: nat)
    requires 0 <= w < 7
    ensures 1 <= k <= 7
  {
    (w - Weekday(d) - 1) % 7 + 1
  }

  lemma UntilWeekday(d: Day, w: int)
    requires 0 <= w < 7
    ensures Weekday(Plus(d, Until(d, w))) == w
  {
    hide Ordinal, Plus;
    PlusOrdinal(d, Until(d, w));
  }

  ghost predicate Past(overrides: map<Day, bool>, d: Day) {
    forall x :: x in overrides ==> Ordinal(x) <= Ordinal(d)
  }

  /** Beyond the last override every seven days hold a working day. */
  lemma WeekHasWork(overrides: map<Day, bool>, d: Day) returns (k: nat)
    requires Past(overrides, d)
    ensures 1 <= k <= 7 && Working(overrides, Plus(d, k))
  {
    hide Ordinal, Plus, Fixed, Working, Weekday;
    var j, m := Until(d, 1), Until(d, 3);
    UntilWeekday(d, 1);
    UntilWeekday(d, 3);
    PlusOrdinal(d, j);
    PlusOrdinal(d, m);
    k := if Working(overrides, Plus(d, j)) then j else m;
    NotBothIdle(overrides, Plus(d, j), Plus(d, m));
  }

  lemma NotBothIdle(overrides: map<Day, bool>, a: Day, b: Day)
    requires a !in overrides && b !in overrides && Weekday(a) == 1 && Weekday(b) == 3
    requires -7 < Ordinal(a) - Ordinal(b) < 7
    ensures Working(overrides, a) || Working(overrides, b)
  {
    hide Working, Ordinal;
    if !Working(overrides, a) && !Working(overrides, b) {
      IdleIsFixed(overrides, a);
      IdleIsFixed(overrides, b);
      if Ordinal(a) < Ordinal(b) { FixedApart(a, b); } else { FixedApart(b, a); }
    }
  }

  /** How many days on from `d` until every override is past. */
  lemma {:induction false} OverridesEnd(overrides: map<Day, bool>, d: Day) returns (n: nat)
    ensures Past(overrides, Plus(d, n))
    decreases overrides.Keys
  {
    hide Ordinal, Plus;
    if overrides == map[] {
      n := 0;
    } else {
      var x :| x in overrides;
      var rest := overrides - {x};
      var m := OverridesEnd(rest, d);
      n := if Ordinal(x) - Ordinal(d) > m then Ordinal(x) - Ordinal(d) else m;
      PlusOrdinal(d, m);
      PlusOrdinal(d, n);
      assert forall y :: y in overrides ==> y == x || y in rest;
    }
  }

  /** However the calendar is overridden, there is a working day ahead. */
  lemma WorkAhead(overrides: map<Day, bool>, d: Day)
    ensures exists k: nat :: 1 <= k && Working(overrides, Plus(d, k))
  {
    hide Ordinal, Working, Past;
    var n := OverridesEnd(overrides, d);
    var k := WeekHasWork(overrides, Plus(d, n));
    PlusPlus(d, n, k);
    assert Working(overrides, Plus(d, n + k));
  }

  /* ---- counting working days ---- */

  /** The first working day among `Plus(d, j)`, …, `Plus(d, m)`. */
  function FirstFrom(overrides: map<Day, bool>, d: Day, j: nat, m: nat): (k: nat)
    requires j <= m && Working(overrides, Plus(d, m))
    ensures j <= k <= m && Working(overrides, Plus(d, k)) && forall i :: j <= i < k ==> !Working(overrides, Plus(d, i))
    decreases m - j
  {
    if Working(overrides, Plus(d, j)) then j else FirstFrom(overrides, d, j + 1, m)
  }

  /** The days until the next working day. */
  ghost function Gap(overrides: map<Day, bool>, d: Day): (k: nat)
    ensures 1 <= k && Working(overrides, Plus(d, k)) && forall i :: 1 <= i < k ==> !Working(overrides, Plus(d, i))
  {
    WorkAhead(overrides, d);
    var m: nat :| 1 <= m && Working(overrides, Plus(d, m));
    FirstFrom(overrides, d, 1, m)
  }

  lemma GapNext(overrides: map<Day, bool>, d: Day)
    ensures Gap(overrides, d) == if Working(overrides, NextDay(d)) then 1 else 1 + Gap(overrides, NextDay(d))
  {
    hide Working, Gap;
    var k, n := Gap(overrides, d), Gap(overrides, NextDay(d));
    assert Plus(d, 1) == NextDay(d);
    assert forall i :: 1 <= i ==> Plus(d, i + 1) == Plus(NextDay(d), i);
    assert Plus(d, n + 1) == Plus(NextDay(d), n);
    if !Working(overrides, NextDay(d)) {
      assert k > 1;
      var j: nat := k - 1;
      assert Plus(d, k) == Plus(NextDay(d), j);
    }
  }

  /** The working days among the `n` days after `d`. */
  function CountWorking(overrides: map<Day, bool>, d: Day, n: nat): nat {
    if n == 0 then 0 else CountWorking(overrides, d, n - 1) + if Working(overrides, Plus(d, n)) then 1 else 0
  }

  /** The days until the `count`-th working day. */
  ghost function DaysTo(overrides: map<Day, bool>, d: Day, count: nat): nat
    decreases count
  {
    if count == 0 then 0
    else
      var k := Gap(overrides, d);
      k + DaysTo(overrides, Plus(d, k), count - 1)
  }

  /** The date `count` working days after `start`. */
  ghost function Deadline(overrides: map<Day, bool>, start: Day, count: nat): Day {
    Plus(start, DaysTo(overrides, start, count))
  }

  lemma {:induction false} CountPlus(overrides: map<Day, bool>, d: Day, m: nat, n: nat)
    ensures CountWorking(overrides, d, m + n) == CountWorking(overrides, d, m) + CountWorking(overrides, Plus(d, m), n)
    decreases n
  {
    hide Working;
    if n > 0 {
      CountPlus(overrides, d, m, n - 1);
      PlusPlus(d, m, n);
    }
  }

  lemma {:induction false} NoneWorking(overrides: map<Day, bool>, d: Day, n: nat)
    requires forall i :: 1 <= i <= n ==> !Working(overrides, Plus(d, i))
    ensures CountWorking(overrides, d, n) == 0
    decreases n
  {
    if n > 0 {
      NoneWorking(overrides, d, n - 1);
    }
  }

  /** The deadline is the least date with exactly `count` working days after `start`, and, when
      any is asked for, a working day itself. */
  lemma {:induction false} DeadlineIsLeast(overrides: map<Day, bool>, start: Day, count: nat)
    ensures var n := DaysTo(overrides, start, count);
            && CountWorking(overrides, start, n) == count
            && (count > 0 ==> Working(overrides, Plus(start, n)))
            && forall m: nat :: m < n ==> CountWorking(overrides, start, m) < count
    decreases count
  {
    hide Working, Gap;
    if count > 0 {
      var k := Gap(overrides, start);
      var rest := DaysTo(overrides, Plus(start, k), count - 1);
      DeadlineIsLeast(overrides, Plus(start, k), count - 1);
      NoneWorking(overrides, start, k - 1);
      assert CountWorking(overrides, start, k) == 1;
      CountPlus(overrides, start, k, rest);
      PlusPlus(start, k, rest);
      forall m: nat | m < k + rest
        ensures CountWorking(overrides, start, m) < count
      {
        if m < k {
          NoneWorking(overrides, start, m);
        } else {
          CountPlus(overrides, start, k, m - k);
        }
      }
    }
  }

  lemma DaysToNext(overrides: map<Day, bool>, d: Day, count: nat)
    requires count > 0
    ensures var k := Gap(overrides, d); DaysTo(overrides, d, count) == k + DaysTo(overrides, Plus(d, k), count - 1)
  {
    hide Gap, Working, Plus;
  }

  lemma {:induction false} DaysToPlus(overrides: map<Day, bool>, start: Day, a: nat, b: nat)
    ensures DaysTo(overrides, start, a + b)
            == DaysTo(overrides, start, a) + DaysTo(overrides, Plus(start, DaysTo(overrides, start, a)), b)
    decreases a
  {
    hide *;
    if a == 0 {
      DaysToNone(overrides, start);
      assert a + b == b;
    } else {
      var k := Gap(overrides, start);
      var p := Plus(start, k);
      var rest := DaysTo(overrides, p, a - 1);
      DaysToNext(overrides, start, a);
      DaysToNext(overrides, start, a + b);
      assert a + b - 1 == (a - 1) + b;
      DaysToPlus(overrides, p, a - 1, b);
      PlusPlus(start, k, rest);
    }
  }

  lemma DaysToNone(overrides: map<Day, bool>, start: Day)
    ensures DaysTo(overrides, start, 0) == 0 && Plus(start, 0) == start
  {
  }

  /** Deadlines add up: `a` working days and then `b` more are `a + b`. */
  lemma DeadlinesAdd(overrides: map<Day, bool>, start: Day, a: nat, b: nat)
    ensures Deadline(overrides, Deadline(overrides, start, a), b) == Deadline(overrides, start, a + b)
  {
    hide DaysTo;
    DaysToPlus(overrides, start, a, b);
    PlusPlus(start, DaysTo(overrides, start, a), DaysTo(overrides, Deadline(overrides, start, a), b));
  }

  datatype Due = On(date: Day) | NegativeCount

  /** `add_business_days`: ends however the finite calendar of overrides looks. */
  method AddBusinessDays(start: Day, count: int, overrides: map<Day, bool>) returns (due: Due)
    ensures due == if count < 0 then NegativeCount else On(Deadline(overrides, start, count))
  {
    hide Working, Gap;
    if count < 0 {
      return NegativeCount;
    }
    var cursor := start;
    var left: nat := count;
    while left > 0
      invariant Deadline(overrides, cursor, left) == Deadline(overrides, start, count)
      decreases left, if left > 0 then Gap(overrides, cursor) else 0
    {
      GapNext(overrides, cursor);
      DeadlineNext(overrides, cursor, left);
      cursor := NextDay(cursor);
      if Working(overrides, cursor) {
        left := left - 1;
      }
    }
    due := On(cursor);
  }

  lemma DeadlineNext(overrides: map<Day, bool>, d: Day, count: nat)
    requires count > 0
    ensures Deadline(overrides, d, count)
            == Deadline(overrides, NextDay(d), if Working(overrides, NextDay(d)) then count - 1 else count)
  {
    hide Working, Gap;
    GapNext(overrides, d);
    var k := Gap(overrides, d);
    PlusPlus(d, 1, k - 1);
    assert Plus(d, 1) == NextDay(d);
    assert Plus(d, k) == Plus(NextDay(d), k - 1);
    DeadlineSplits(overrides, d, count);
    if !Working(overrides, NextDay(d)) { DeadlineSplits(overrides, NextDay(d), count); }
  }

  lemma DeadlineSplits(overrides: map<Day, bool>, d: Day, count: nat)
    requires count > 0
    ensures Deadline(overrides, d, count) == Deadline(overrides, Plus(d, Gap(overrides, d)), count - 1)
  {
    hide Working, Gap;
    var k := Gap(overrides, d);
    PlusPlus(d, k, DaysTo(overrides, Plus(d, k), count - 1));
  }
}
