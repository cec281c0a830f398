/** Proleptic Gregorian dates and the whole-day difference `(b - a).days`
    that the scripts use to place the lockdown on the data's day axis. */
module Calendar {
  datatype Date = Date(year: int, month: int, day: int)

  predicate IsLeap(year: int)
  {
    year % 4 == 0 && (year % 100 != 0 || year % 400 == 0)
  }

  function DaysInMonth(year: int, month: int): (n: int)
    requires 1 <= month <= 12
    ensures 28 <= n <= 31
    ensures month == 2 ==> (n == 29 <==> IsLeap(year))
  {
    if month == 2 then (if IsLeap(year) then 29 else 28)
    else if month == 4 || month == 6 || month == 9 || month == 11 then 30
    else 31
  }

  predicate Valid(d: Date)
  {
    d.year >= 1 && 1 <= d.month <= 12 && 1 <= d.day <= DaysInMonth(d.year, d.month)
  }

  /** Days in the years before `year`. */
  function DaysBeforeYear(year: int): int
    requires year >= 1
  {
    var y := year - 1;
    y * 365 + y / 4 - y / 100 + y / 400
  }

  /** Days in the months of `year` before `month`, from the cumulative table. */
  function DaysBeforeMonth(year: int, month: int): int
    requires 1 <= month <= 12
  {
    var table := [0, 31, 59, 90, 120, 151, 181, 212, 243, 273, 304, 334];
    table[month - 1] + (if month > 2 && IsLeap(year) then 1 else 0)
  }

  /** `date.toordinal()`: 1 January of year 1 is day 1. */
  function Ordinal(d: Date): int
    requires Valid(d)
  {
    DaysBeforeYear(d.year) + DaysBeforeMonth(d.year, d.month) + d.day
  }

  /** `(later - earlier).days`. */
  function DaysBetween(earlier: Date, later: Date): int
    requires Valid(earlier) && Valid(later)
  {
    Ordinal(later) - Ordinal(earlier)
  }

  /** The following calendar day. */
  function NextDay(d: Date): (e: Date)
    requires Valid(d)
    ensures Valid(e)
  {
    if d.day < DaysInMonth(d.year, d.month) then Date(d.year, d.month, d.day + 1)
    else if d.month < 12 then Date(d.year, d.month + 1, 1)
    else Date(d.year + 1, 1, 1)
  }

  /** The month table agrees with the month lengths. */
  lemma MonthTable(year: int, month: int)
    requires 1 <= month < 12
    ensures DaysBeforeMonth(year, month + 1) == DaysBeforeMonth(year, month) + DaysInMonth(year, month)
  {
  }

  /** A year has 366 days exactly when it is a leap year. */
  lemma YearLength(year: int)
    requires year >= 1
    ensures DaysBeforeYear(year + 1) - DaysBeforeYear(year) == if IsLeap(year) then 366 else 365
  {
    var y := year - 1;
    MultiplesStep(y);
  }

  /** Counting multiples of 4, 100 and 400 up to y + 1 rather than y adds
      one exactly when y + 1 is such a multiple. */
  lemma MultiplesStep(y: int)
    requires y >= 0
    ensures (y + 1) / 4 - y / 4 == if (y + 1) % 4 == 0 then 1 else 0
    ensures (y + 1) / 100 - y / 100 == if (y + 1) % 100 == 0 then 1 else 0
    ensures (y + 1) / 400 - y / 400 == if (y + 1) % 400 == 0 then 1 else 0
  {
  }

  /** Ordinals count days: the next day is one later, so `DaysBetween`
      counts the days stepped over. */
  lemma NextDayOrdinal(d: Date)
    requires Valid(d)
    ensures Ordinal(NextDay(d)) == Ordinal(d) + 1
    ensures DaysBetween(d, NextDay(d)) == 1
  {
    if d.day < DaysInMonth(d.year, d.month) {
    } else if d.month < 12 {
      MonthTable(d.year, d.month);
    } else {
      YearLength(d.year);
    }
  }

  /** `(df['date'] - df['date'].iloc[0]).dt.days` for dates given as
      ordinals: whole days since the first row. */
  function DayOffsets(dates: seq<int>): (days: seq<int>)
    requires |dates| > 0
    ensures |days| == |dates| && days[0] == 0
    ensures forall k :: 0 <= k < |dates| ==> dates[k] == dates[0] + days[k]
  {
    seq(|dates|, k requires 0 <= k < |dates| => dates[k] - dates[0])
  }

  /** The rows whose date lies in [start, end], both ends included, in
      their original order: `df[(df[date] >= start) & (df[date] <= end)]`. */
  function DateWindow<T(!new)>(rows: seq<T>, dateOf: T -> int, start: int, end: int): (kept: seq<T>)
    ensures |kept| <= |rows|
    ensures forall x :: x in kept <==> x in rows && start <= dateOf(x) <= end
  {
    if |rows| == 0 then []
    else
      var rest := DateWindow(rows[1..], dateOf, start, end);
      assert forall x :: x in rows <==> x == rows[0] || x in rows[1..];
      if start <= dateOf(rows[0]) <= end then [rows[0]] + rest else rest
  }

  /** Filtering commutes with concatenation, so the window keeps the rows'
      relative order. */
  lemma {:induction false} DateWindowAppend<T(!new)>(a: seq<T>, b: seq<T>, dateOf: T -> int, start: int, end: int)
    ensures DateWindow(a + b, dateOf, start, end) == DateWindow(a, dateOf, start, end) + DateWindow(b, dateOf, start, end)
  {
    if |a| > 0 {
      assert (a + b)[1..] == a[1..] + b;
      DateWindowAppend(a[1..], b, dateOf, start, end);
    } else {
      assert a + b == b;
    }
  }
}
