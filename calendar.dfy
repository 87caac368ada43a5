/**
 * The proleptic Gregorian calendar of Python's `datetime`, as far as the
 * recurring-expense detector uses it: `datetime.fromisoformat` on a `YYYY-MM-DD`
 * date and the day number whose differences are `(d2 - d1).days`.
 */
module Calendar {
  import opened Wrappers
  import opened Text

  /** Every fourth year is a leap year, except centuries not divisible by 400. */
  predicate IsLeap(y: int) { y % 4 == 0 && (y % 100 != 0 || y % 400 == 0) }

  function DaysInMonth(y: int, m: int): (n: int)
    requires 1 <= m <= 12
    ensures 28 <= n <= 31
    ensures n == 29 <==> m == 2 && IsLeap(y)
  {
    if m == 2 then (if IsLeap(y) then 29 else 28)
    else if m == 4 || m == 6 || m == 9 || m == 11 then 30
    else 31
  }

  function DaysInYear(y: int): int { if IsLeap(y) then 366 else 365 }

  /** The days of the months of year `y` before month `m`; month 13 stands for the whole year. */
  function DaysBeforeMonth(y: int, m: int): (n: int)
    requires 1 <= m <= 13
    ensures 28 * (m - 1) <= n <= 31 * (m - 1)
    decreases m
  {
    if m == 1 then 0 else DaysBeforeMonth(y, m - 1) + DaysInMonth(y, m - 1)
  }

  /** The days of the years before year `y`, counted from year 1. */
  function DaysBeforeYear(y: int): int
    requires y >= 1
  {
    var y1 := y - 1;
    y1 * 365 + y1 / 4 - y1 / 100 + y1 / 400
  }

  /** A calendar date: a year from 1 on, a month, and a day within that month. */
  predicate IsValidDate(y: int, m: int, d: int)
  {
    y >= 1 && 1 <= m <= 12 && 1 <= d <= DaysInMonth(y, m)
  }

  /** `date(y, m, d).toordinal()`: 0001-01-01 is day 1, the only date numbered 1; `DayNumberIncreasing` shows that later dates get larger numbers. */
  function DayNumber(y: int, m: int, d: int): (n: int)
    requires IsValidDate(y, m, d)
    ensures n >= 1
    ensures n == 1 <==> y == 1 && m == 1 && d == 1
  {
    DaysBeforeYear(y) + DaysBeforeMonth(y, m) + d
  }

  /** The twelve months add up to the year. */
  lemma MonthsMakeYear(y: int)
    ensures DaysBeforeMonth(y, 13) == DaysInYear(y)
  {
    var leap := if IsLeap(y) then 1 else 0;
    assert DaysBeforeMonth(y, 3) == 59 + leap;
    assert DaysBeforeMonth(y, 6) == 151 + leap;
    assert DaysBeforeMonth(y, 9) == 243 + leap;
    assert DaysBeforeMonth(y, 13) == 365 + leap;
  }

  /** The next year starts as many days later as this year has. */
  lemma YearStep(y: int)
    requires y >= 1
    ensures DaysBeforeYear(y + 1) == DaysBeforeYear(y) + DaysInYear(y)
  {
    var y1 := y - 1;
    assert (y1 + 1) / 4 - y1 / 4 == if y % 4 == 0 then 1 else 0;
    assert (y1 + 1) / 100 - y1 / 100 == if y % 100 == 0 then 1 else 0;
    assert (y1 + 1) / 400 - y1 / 400 == if y % 400 == 0 then 1 else 0;
  }

  /** Later months start later in the year: the start of month `m2` is at least the end of any earlier month. */
  lemma {:induction false} MonthStartsGrow(y: int, m1: int, m2: int)
    requires 1 <= m1 < m2 <= 13
    ensures DaysBeforeMonth(y, m1) + DaysInMonth(y, m1) <= DaysBeforeMonth(y, m2)
    decreases m2
  {
    if m1 + 1 < m2 {
      MonthStartsGrow(y, m1, m2 - 1);
    }
  }

  /** Later years start later: the start of year `y2` is at least the end of any earlier year. */
  lemma {:induction false} YearStartsGrow(y1: int, y2: int)
    requires 1 <= y1 < y2
    ensures DaysBeforeYear(y1) + DaysInYear(y1) <= DaysBeforeYear(y2)
    decreases y2 - y1
  {
    YearStep(y1);
    if y1 + 1 < y2 {
      YearStartsGrow(y1 + 1, y2);
    }
  }

  /** Day numbers follow the calendar order: a date earlier in (year, month, day) order has a smaller day number. */
  lemma DayNumberIncreasing(y1: int, m1: int, d1: int, y2: int, m2: int, d2: int)
    requires IsValidDate(y1, m1, d1) && IsValidDate(y2, m2, d2)
    requires y1 < y2 || (y1 == y2 && (m1 < m2 || (m1 == m2 && d1 < d2)))
    ensures DayNumber(y1, m1, d1) < DayNumber(y2, m2, d2)
  {
    if y1 < y2 {
      MonthStartsGrow(y1, m1, 13);
      MonthsMakeYear(y1);
      YearStartsGrow(y1, y2);
    } else if m1 < m2 {
      MonthStartsGrow(y1, m1, m2);
    }
  }

  /** The date after (`y`, `m`, `d`): the next day of the month, else the first of the next month, else New Year's Day. */
  function NextDate(y: int, m: int, d: int): (r: (int, int, int))
    requires IsValidDate(y, m, d)
    ensures IsValidDate(r.0, r.1, r.2)
    ensures r.0 > y || (r.0 == y && (r.1 > m || (r.1 == m && r.2 > d)))
  {
    if d < DaysInMonth(y, m) then (y, m, d + 1)
    else if m < 12 then (y, m + 1, 1)
    else (y + 1, 1, 1)
  }

  /** The next date is numbered exactly one more: `timedelta(days=1)` steps from one date to the next. */
  lemma NextDateIsNextDay(y: int, m: int, d: int)
    requires IsValidDate(y, m, d)
    ensures DayNumber(NextDate(y, m, d).0, NextDate(y, m, d).1, NextDate(y, m, d).2) == DayNumber(y, m, d) + 1
  {
    if d == DaysInMonth(y, m) && m == 12 {
      MonthsMakeYear(y);
      YearStep(y);
    }
  }

  /** The date `k` days after (`y`, `m`, `d`), counted one calendar day at a time. */
  function AddDays(y: int, m: int, d: int, k: nat): (r: (int, int, int))
    requires IsValidDate(y, m, d)
    ensures IsValidDate(r.0, r.1, r.2)
    decreases k
  {
    if k == 0 then (y, m, d)
    else
      var n := NextDate(y, m, d);
      AddDays(n.0, n.1, n.2, k - 1)
  }

  /**
   * Day numbers count calendar days: the date `k` days on is numbered `k` more, so
   * `(d2 - d1).days` is the number of days from one date to the other.
   */
  lemma {:induction false} AddDaysDistance(y: int, m: int, d: int, k: nat)
    requires IsValidDate(y, m, d)
    ensures DayNumber(AddDays(y, m, d, k).0, AddDays(y, m, d, k).1, AddDays(y, m, d, k).2) == DayNumber(y, m, d) + k
    decreases k
  {
    if k > 0 {
      var n := NextDate(y, m, d);
      NextDateIsNextDay(y, m, d);
      AddDaysDistance(n.0, n.1, n.2, k - 1);
    }
  }

  /** No date lies strictly between a date and the next one. */
  lemma NothingBetween(y: int, m: int, d: int, y2: int, m2: int, d2: int)
    requires IsValidDate(y, m, d) && IsValidDate(y2, m2, d2)
    ensures DayNumber(y, m, d) < DayNumber(y2, m2, d2) ==>
      DayNumber(NextDate(y, m, d).0, NextDate(y, m, d).1, NextDate(y, m, d).2) <= DayNumber(y2, m2, d2)
  {
    NextDateIsNextDay(y, m, d);
  }

  /** The shape `fromisoformat` accepts here: `YYYY-MM-DD` naming a real date. */
  predicate IsIsoDate(s: string)
  {
    && |s| == 10 && s[4] == '-' && s[7] == '-'
    && AllDigits(s[..4]) && AllDigits(s[5..7]) && AllDigits(s[8..])
    && IsValidDate(DigitsValue(s[..4]), DigitsValue(s[5..7]), DigitsValue(s[8..]))
  }

  function Year(s: string): int requires IsIsoDate(s) { DigitsValue(s[..4]) }
  function Month(s: string): int requires IsIsoDate(s) { DigitsValue(s[5..7]) }
  function DayOfMonth(s: string): int requires IsIsoDate(s) { DigitsValue(s[8..]) }

  /** The day number of an ISO date. */
  function Day(s: string): int
    requires IsIsoDate(s)
  {
    DayNumber(Year(s), Month(s), DayOfMonth(s))
  }

  /** `datetime.fromisoformat(s)` as a day number; `None` stands for the `ValueError` it raises on other text. */
  function ParseIsoDay(s: string): (r: Option<int>)
    ensures r.Some? <==> IsIsoDate(s)
    ensures r.Some? ==> r.value == Day(s) && r.value >= 1
  {
    if IsIsoDate(s) then
      assert Day(s) >= 1 by { assert DaysBeforeYear(Year(s)) >= 0; }
      Some(Day(s))
    else None
  }

  /** Two ISO dates compare as text exactly as their (year, month, day) fields compare. */
  lemma IsoTextOrder(a: string, b: string)
    requires IsIsoDate(a) && IsIsoDate(b)
    ensures LexLe(a, b) <==>
      Year(a) < Year(b) || (Year(a) == Year(b) && (Month(a) < Month(b) || (Month(a) == Month(b) && DayOfMonth(a) <= DayOfMonth(b))))
  {
    assert a == a[..4] + a[4..] && b == b[..4] + b[4..];
    LexLeSplit(a[..4], a[4..], b[..4], b[4..]);
    DigitsOrder(a[..4], b[..4]);
    if a[..4] == b[..4] {
      MonthDayTextOrder(a, b);
    }
  }

  /** The `-MM-DD` tails of two ISO dates compare as text as their (month, day) fields compare. */
  lemma MonthDayTextOrder(a: string, b: string)
    requires IsIsoDate(a) && IsIsoDate(b)
    ensures LexLe(a[4..], b[4..]) <==> Month(a) < Month(b) || (Month(a) == Month(b) && DayOfMonth(a) <= DayOfMonth(b))
  {
    assert a[4..] == [a[4]] + a[5..] && b[4..] == [b[4]] + b[5..];
    LexLeSplit([a[4]], a[5..], [b[4]], b[5..]);
    assert a[5..] == a[5..7] + a[7..] && b[5..] == b[5..7] + b[7..];
    LexLeSplit(a[5..7], a[7..], b[5..7], b[7..]);
    DigitsOrder(a[5..7], b[5..7]);
    if a[5..7] == b[5..7] {
      assert a[7..] == [a[7]] + a[8..] && b[7..] == [b[7]] + b[8..];
      LexLeSplit([a[7]], a[8..], [b[7]], b[8..]);
      DigitsOrder(a[8..], b[8..]);
    }
  }

  /**
   * Sorting ISO dates as text sorts them in time: for two valid dates, text order
   * and day-number order agree.
   */
  lemma IsoOrderIsChronological(a: string, b: string)
    requires IsIsoDate(a) && IsIsoDate(b)
    ensures LexLe(a, b) <==> Day(a) <= Day(b)
  {
    IsoTextOrder(a, b);
    var ya, ma, da := Year(a), Month(a), DayOfMonth(a);
    var yb, mb, db := Year(b), Month(b), DayOfMonth(b);
    if ya < yb || (ya == yb && (ma < mb || (ma == mb && da < db))) {
      DayNumberIncreasing(ya, ma, da, yb, mb, db);
    } else if yb < ya || (ya == yb && (mb < ma || (ma == mb && db < da))) {
      DayNumberIncreasing(yb, mb, db, ya, ma, da);
    }
  }
}
