/** Which days are working days, by their weekday and their date. */
module WorkingDays {
  import opened Calendar
  import opened BusinessDays

  /** 1 January 2024 was a Monday. */
  lemma KnownMonday()
    ensures Weekday(Date(2024, 1, 1)) == 0
  {
  }

  /** The weekdays follow each other. */
  lemma WeekdaysInOrder(d: Day)
    ensures 0 <= Weekday(d) < 7 && Weekday(NextDay(d)) == if Weekday(d) == 6 then 0 else Weekday(d) + 1
  {
    NextOrdinal(d);
    hide NextDay, Ordinal;
    assert Ordinal(NextDay(d)) == Ordinal(d) + 1;
  }

  /** Two Mondays of the same week of a month are the same day. */
  lemma SameMonday(a: Day, b: Day, week: nat)
    requires a.year == b.year && a.month == b.month && Weekday(a) == 0 && Weekday(b) == 0
    requires 7 * week < a.day <= 7 * (week + 1) && 7 * week < b.day <= 7 * (week + 1)
    ensures a == b
  {
    hide DaysBeforeYear, DaysBeforeMonth;
    var base := DaysBeforeYear(a.year) + DaysBeforeMonth(a.year, a.month);
    assert (base + a.day + 6) % 7 == 0 && (base + b.day + 6) % 7 == 0;
  }

  /** The days of rest that the law names, by month and day, or by Monday of the month; 1 October every sixth year, as in 2024. */
  predicate Statutory(d: Day) {
    || (d.month == 1 && d.day == 1)
    || (d.month == 2 && Weekday(d) == 0 && d.day <= 7)
    || (d.month == 3 && Weekday(d) == 0 && 15 <= d.day <= 21)
    || (d.month == 5 && d.day == 1)
    || (d.month == 9 && d.day == 16)
    || (d.month == 10 && d.day == 1 && d.year % 6 == 2)
    || (d.month == 11 && Weekday(d) == 0 && 15 <= d.day <= 21)
    || (d.month == 12 && d.day == 25)
  }

  /** A day works exactly as an entry for it says, and without one when it is Monday to Friday and not a day of rest. */
  lemma WorkingExactlyWhen(overrides: map<Day, bool>, d: Day)
    ensures Working(overrides, d) <==> if d in overrides then overrides[d] else Weekday(d) != 5 && Weekday(d) != 6 && !Statutory(d)
  {
    WeekdaysInOrder(d);
    hide Weekday, DaysBeforeYear, DaysBeforeMonth, Monday;
    MondayOf(d, 2, 1);
    MondayOf(d, 3, 3);
    MondayOf(d, 11, 3);
  }

  lemma MondayOf(d: Day, month: int, count: int)
    requires 1 <= month <= 12 && 1 <= count <= 3
    ensures d == Monday(d.year, month, count) <==> d.month == month && Weekday(d) == 0 && 7 * (count - 1) < d.day <= 7 * count
  {
    hide Weekday, DaysBeforeYear, DaysBeforeMonth;
    MondayIsMonday(d.year, month, count);
    var m := Monday(d.year, month, count);
    SameMonth(d.year, month, count);
    if d.month == month && Weekday(d) == 0 && 7 * (count - 1) < d.day <= 7 * count { SameMonday(d, m, count - 1); }
  }

  lemma SameMonth(year: int, month: int, count: int)
    requires 1 <= month <= 12 && 1 <= count <= 3
    ensures Monday(year, month, count).year == year && Monday(year, month, count).month == month
  {
    hide Weekday;
  }
}
