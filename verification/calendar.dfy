/** Dates, and the anniversaries that bound the billing periods (billing/services.py). */
module Calendar {
  import opened Common

  datatype Date = Date(year: int, month: int, day: int)

  predicate Leap(year: int) { year % 4 == 0 && (year % 100 != 0 || year % 400 == 0) }

  function DaysInMonth(year: int, month: int): (n: int)
    ensures 28 <= n <= 31
  {
    if month == 2 then (if Leap(year) then 29 else 28)
    else if month in {4, 6, 9, 11} then 30
    else 31
  }

  /** Months have 31 and 30 days in turn, beginning again in August, but for February; every fourth year is a leap
      year, except a century that 400 does not divide. */
  lemma MonthLengths(year: int, month: int)
    requires 1 <= month <= 12
    ensures var leap := if year % 100 == 0 then year % 400 == 0 else year % 4 == 0;
            DaysInMonth(year, month) == if month == 2 then (if leap then 29 else 28) else if month <= 7 then 30 + month % 2 else 31 - month % 2
  {
  }

  predicate Valid(d: Date) { 1 <= d.month <= 12 && 1 <= d.day <= DaysInMonth(d.year, d.month) }

  /** A date that exists. */
  type Day = d: Date | Valid(d) witness Date(2000, 1, 1)

  predicate Before(a: Date, b: Date) {
    || a.year < b.year
    || (a.year == b.year && (a.month < b.month || (a.month == b.month && a.day < b.day)))
  }

  /** `anniversary`: the same day of the month `months` later, or the last day of a shorter month. */
  function Anniversary(start: Date, months: int): Date {
    var index := start.year * 12 + start.month - 1 + months;
    var year, month := index / 12, index % 12 + 1;
    Date(year, month, Min(start.day, DaysInMonth(year, month)))
  }

  /** The months from one date's month to another's, as `create_period` counts them. */
  function MonthsBetween(activation: Date, start: Date): int {
    (start.year - activation.year) * 12 + start.month - activation.month
  }

  /** The month count is the exact inverse of `Anniversary`, and an anniversary is a real date. */
  lemma AnniversaryInverse(start: Date, months: int)
    requires Valid(start)
    ensures Valid(Anniversary(start, months))
    ensures MonthsBetween(start, Anniversary(start, months)) == months
    ensures Anniversary(start, 0) == start
  {
    var index := start.year * 12 + start.month - 1 + months;
    assert index == 12 * (index / 12) + index % 12;
  }

  lemma AnniversaryInjective(start: Date, j: int, k: int)
    requires Valid(start)
    ensures Anniversary(start, j) == Anniversary(start, k) ==> j == k
  {
    AnniversaryInverse(start, j);
    AnniversaryInverse(start, k);
  }

  /** Anniversaries follow the order of the month counts, in both directions. */
  lemma AnniversaryOrder(start: Date, j: int, k: int)
    requires Valid(start)
    ensures Before(Anniversary(start, j), Anniversary(start, k)) <==> j < k
  {
    var a, b := Anniversary(start, j), Anniversary(start, k);
    AnniversaryInverse(start, j);
    AnniversaryInverse(start, k);
    assert b.year * 12 + b.month - (a.year * 12 + a.month) == k - j;
  }

  lemma BeforeIsStrictOrder(a: Date, b: Date, c: Date)
    ensures !Before(a, a)
    ensures Before(a, b) && Before(b, c) ==> Before(a, c)
    ensures a == b || Before(a, b) || Before(b, a)
  {
  }

  /** Anchoring at the activation matters: stepping month by month from an anniversary gives
      the same dates for every later month exactly when no month has shortened the day yet. */
  lemma AnchoringMatters(start: Date, j: int)
    requires Valid(start)
    ensures (forall k: int :: Anniversary(Anniversary(start, j), k) == Anniversary(start, j + k))
            <==> Anniversary(start, j).day == start.day
  {
    AnniversaryInverse(start, j);
    var a := Anniversary(start, j);
    if a.day == start.day {
      forall k: int
        ensures Anniversary(a, k) == Anniversary(start, j + k)
      {
      }
    } else {
      var k := 1 - a.month;
      assert (a.year * 12 + a.month - 1 + k) == 12 * a.year;
      assert Anniversary(a, k).month == 1 && Anniversary(a, k).day == a.day;
      assert Anniversary(start, j + k).month == 1 && Anniversary(start, j + k).day == start.day;
    }
  }
}
