/**
 * Calendar days as the planner uses them: a day is a whole number of days
 * counted from 1970-01-01, which was a Thursday. Its weekday, the start of its
 * week and its Gregorian year, month and day of month are computed from that
 * number.
 */
module Dates {
  import opened Text

  /** `getDay()`: 0 for Sunday up to 6 for Saturday. */
  function Weekday(n: int): (w: nat)
    ensures w < 7
  {
    (n + 4) % 7
  }

  /** The weekStart setting. */
  datatype WeekStart = Monday | Sunday

  /** The weekday a week opens with: 0 (Sunday) or 1 (Monday). */
  function StartIndex(ws: WeekStart): (k: nat)
    ensures k <= 1
  {
    if ws == Sunday then 0 else 1
  }

  /**
   * computeWeekStart: the day `offset` weeks after `today`, moved back to the
   * first day of its week. The remainder is taken of a number between 6 and
   * 13, so JavaScript's `%` and Dafny's agree.
   */
  function ComputeWeekStart(today: int, offset: int, ws: WeekStart): (start: int)
    ensures Weekday(start) == StartIndex(ws)
    ensures today + 7 * offset - 6 <= start <= today + 7 * offset
  {
    var base := today + offset * 7;
    var diff := (Weekday(base) - StartIndex(ws) + 7) % 7;
    base - diff
  }

  /** Of the seven days up to the day `offset` weeks after `today`, the week start is the one with the start weekday. */
  lemma WeekStartUnique(today: int, offset: int, ws: WeekStart, d: int)
    requires today + 7 * offset - 6 <= d <= today + 7 * offset
    requires Weekday(d) == StartIndex(ws)
    ensures d == ComputeWeekStart(today, offset, ws)
  {
    var s := ComputeWeekStart(today, offset, ws);
    assert (d - s) % 7 == 0 by {
      assert (d + 4) % 7 == (s + 4) % 7;
    }
  }

  // ---------------------------------------------------------------------
  // the Gregorian calendar

  predicate Leap(y: int)
  {
    y % 4 == 0 && (y % 100 != 0 || y % 400 == 0)
  }

  function YearLength(y: int): nat
  {
    if Leap(y) then 366 else 365
  }

  function MonthLength(y: int, m: int): (r: nat)
    requires 1 <= m <= 12
    ensures 28 <= r <= 31
  {
    if m == 2 then (if Leap(y) then 29 else 28)
    else if m == 4 || m == 6 || m == 9 || m == 11 then 30
    else 31
  }

  /** The days from the first of month `m` to the end of year `y`. */
  function DaysFrom(y: int, m: int): nat
    requires 1 <= m <= 12
    decreases 12 - m
  {
    if m == 12 then 31 else MonthLength(y, m) + DaysFrom(y, m + 1)
  }

  /** The twelve months fill the year. */
  lemma MonthsFillYear(y: int)
    ensures DaysFrom(y, 1) == YearLength(y)
  {
    assert DaysFrom(y, 12) == 31;
    assert DaysFrom(y, 11) == 61;
    assert DaysFrom(y, 10) == 92;
    assert DaysFrom(y, 9) == 122;
    assert DaysFrom(y, 8) == 153;
    assert DaysFrom(y, 7) == 184;
    assert DaysFrom(y, 6) == 214;
    assert DaysFrom(y, 5) == 245;
    assert DaysFrom(y, 4) == 275;
    assert DaysFrom(y, 3) == 306;
  }

  /**
   * The year holding the day `k` days after January 1st of `y`, and the
   * index of that day within its year.
   */
  function YearAndIndex(y: int, k: int): (r: (int, nat))
    ensures r.1 < YearLength(r.0)
    decreases if k < 0 then 400 - k else k
  {
    if k < 0 then YearAndIndex(y - 1, k + YearLength(y - 1))
    else if k >= YearLength(y) then YearAndIndex(y + 1, k - YearLength(y))
    else (y, k)
  }

  /** The month and day of month of the day `k` days after the first of month `m`. */
  function MonthAndDay(y: int, m: int, k: nat): (r: (int, int))
    requires 1 <= m <= 12 && k < DaysFrom(y, m)
    ensures m <= r.0 <= 12 && 1 <= r.1 <= MonthLength(y, r.0)
    decreases 12 - m
  {
    if k < MonthLength(y, m) then (m, k + 1) else MonthAndDay(y, m + 1, k - MonthLength(y, m))
  }

  /** A calendar date: `getFullYear()`, `getMonth() + 1` and `getDate()`. */
  datatype Civil = Civil(year: int, month: int, day: int)

  /** The calendar date of day `n`. */
  function CivilOf(n: int): (c: Civil)
    ensures 1 <= c.month <= 12 && 1 <= c.day <= MonthLength(c.year, c.month)
  {
    var yk := YearAndIndex(1970, n);
    MonthsFillYear(yk.0);
    var md := MonthAndDay(yk.0, 1, yk.1);
    Civil(yk.0, md.0, md.1)
  }

  /** The first day of the month `n` falls in: `new Date(year, month, 1)`. */
  function FirstOfMonth(n: int): (f: int)
    ensures n - 30 <= f <= n
  {
    n - (CivilOf(n).day - 1)
  }
}
