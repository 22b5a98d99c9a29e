/** Local calendar time as the screens read it from `Date` objects
    (`getFullYear`, `getMonth() + 1`, `getDate()`, `getDay()`), and the
    `Date` constructions the history screen uses to bound its periods.
    A fixed-offset time zone is assumed, so comparing two `Date` values is
    comparing their local readings. */
module Calendar {

  /** A local wall-clock reading: `month` is 1..12 (one more than
      `getMonth()`), `millis` is the time of day in milliseconds. */
  datatype Moment = Moment(year: int, month: int, day: int, millis: int)

  const DayMillis: int := 86_400_000

  predicate IsLeap(y: int) {
    y % 4 == 0 && (y % 100 != 0 || y % 400 == 0)
  }

  function DaysInMonth(y: int, m: int): (n: int)
    requires 1 <= m <= 12
    ensures 28 <= n <= 31
    ensures m == 2 ==> (n == 29 <==> IsLeap(y))
  {
    if m == 2 then (if IsLeap(y) then 29 else 28)
    else if m == 4 || m == 6 || m == 9 || m == 11 then 30
    else 31
  }

  predicate ValidDate(y: int, m: int, d: int) {
    1 <= m <= 12 && 1 <= d <= DaysInMonth(y, m)
  }

  predicate Valid(t: Moment) {
    ValidDate(t.year, t.month, t.day) && 0 <= t.millis < DayMillis
  }

  /** `a < b` on the `Date` values the readings come from. */
  predicate Before(a: Moment, b: Moment) {
    || a.year < b.year
    || (a.year == b.year && a.month < b.month)
    || (a.year == b.year && a.month == b.month && a.day < b.day)
    || (a.year == b.year && a.month == b.month && a.day == b.day && a.millis < b.millis)
  }

  /** `a >= b`. */
  predicate NotBefore(a: Moment, b: Moment) {
    !Before(a, b)
  }

  lemma BeforeTransitive(a: Moment, b: Moment, c: Moment)
    requires Before(a, b) && Before(b, c)
    ensures Before(a, c)
  {
  }

  lemma BeforeTrichotomy(a: Moment, b: Moment)
    ensures Before(a, b) || a == b || Before(b, a)
    ensures !(Before(a, b) && Before(b, a))
  {
  }

  /** The month before (`y`, `m`): what `new Date(y, m - 2, 1)` lands in. */
  function PreviousMonth(y: int, m: int): (r: (int, int))
    requires 1 <= m <= 12
    ensures 1 <= r.1 <= 12
    ensures r.0 * 12 + r.1 == y * 12 + m - 1
  {
    if m == 1 then (y - 1, 12) else (y, m - 1)
  }

  /** Days since 1970-01-01 of a proleptic Gregorian date, counting years
      from March so that the leap day ends a year. */
  function DayNumber(y: int, m: int, d: int): int
    requires 1 <= m <= 12
  {
    var mp := if m > 2 then m - 3 else m + 9;
    MarchYear(if m <= 2 then y - 1 else y) + (153 * mp + 2) / 5 + d - 1 - 719468
  }

  /** The day count of March 1 of year `y + 1` from March 1 of year 0: 365
      days a year plus the leap days of the years 1..y. */
  function MarchYear(y: int): int {
    365 * y + y / 4 - y / 100 + y / 400
  }

  /** Quotient and remainder by 4, 100 and 400 are determined by any
      decomposition. */
  lemma DivMod4(a: int, q: int, r: int)
    requires a == q * 4 + r && 0 <= r < 4
    ensures a / 4 == q && a % 4 == r
  {
  }

  lemma DivMod100(a: int, q: int, r: int)
    requires a == q * 100 + r && 0 <= r < 100
    ensures a / 100 == q && a % 100 == r
  {
  }

  lemma DivMod400(a: int, q: int, r: int)
    requires a == q * 400 + r && 0 <= r < 400
    ensures a / 400 == q && a % 400 == r
  {
  }

  /** Going from `y - 1` to `y` raises each quotient by one exactly when `y`
      is a multiple of the divisor. */
  lemma Step4(y: int)
    ensures y / 4 - (y - 1) / 4 == (if y % 4 == 0 then 1 else 0)
  {
    var q, r := (y - 1) / 4, (y - 1) % 4;
    if r == 3 { DivMod4(y, q + 1, 0); } else { DivMod4(y, q, r + 1); }
  }

  lemma Step100(y: int)
    ensures y / 100 - (y - 1) / 100 == (if y % 100 == 0 then 1 else 0)
  {
    var q, r := (y - 1) / 100, (y - 1) % 100;
    if r == 99 { DivMod100(y, q + 1, 0); } else { DivMod100(y, q, r + 1); }
  }

  lemma Step400(y: int)
    ensures y / 400 - (y - 1) / 400 == (if y % 400 == 0 then 1 else 0)
  {
    var q, r := (y - 1) / 400, (y - 1) % 400;
    if r == 399 { DivMod400(y, q + 1, 0); } else { DivMod400(y, q, r + 1); }
  }

  /** A multiple of 400 is one of 100, and a multiple of 100 one of 4. */
  lemma Multiples(y: int)
    ensures y % 400 == 0 ==> y % 100 == 0
    ensures y % 100 == 0 ==> y % 4 == 0
  {
    if y % 400 == 0 {
      DivMod100(y, (y / 400) * 4, 0);
    }
    if y % 100 == 0 {
      DivMod4(y, (y / 100) * 25, 0);
    }
  }

  /** A year of the March-to-February count has 366 days when its February
      has 29. */
  lemma MarchYearStep(y: int)
    ensures MarchYear(y) == MarchYear(y - 1) + 365 + (if IsLeap(y) then 1 else 0)
  {
    Step4(y);
    Step100(y);
    Step400(y);
    Multiples(y);
  }

  /** `getDay()`: 0 for Sunday up to 6 for Saturday (1970-01-01 was a Thursday). */
  function Weekday(y: int, m: int, d: int): (w: int)
    requires 1 <= m <= 12
    ensures 0 <= w < 7
  {
    (DayNumber(y, m, d) + 4) % 7
  }

  /** Within a month the day number counts days. */
  lemma DayNumberInMonth(y: int, m: int, d: int, d': int)
    requires 1 <= m <= 12
    ensures DayNumber(y, m, d') == DayNumber(y, m, d) + (d' - d)
  {
  }

  lemma DoyStep(mp: int)
    requires 0 <= mp < 11
    ensures (153 * (mp + 1) + 2) / 5 - (153 * mp + 2) / 5 ==
            (if mp == 1 || mp == 3 || mp == 6 || mp == 8 then 30 else 31)
  {
    if mp == 0 {} else if mp == 1 {} else if mp == 2 {} else if mp == 3 {} else if mp == 4 {}
    else if mp == 5 {} else if mp == 6 {} else if mp == 7 {} else if mp == 8 {} else {}
  }

  /** The days March 1 adds over February's last day: one, leap year or not. */
  lemma MarchFollowsFebruary(y: int)
    ensures DayNumber(y, 3, 1) == DayNumber(y, 2, DaysInMonth(y, 2)) + 1
  {
    MarchYearStep(y);
  }

  /** The first of a month is the day after the last of the month before. */
  lemma {:induction false} MonthBoundary(y: int, m: int)
    requires 1 <= m <= 12
    ensures var (py, pm) := PreviousMonth(y, m);
            DayNumber(y, m, 1) == DayNumber(py, pm, DaysInMonth(py, pm)) + 1
  {
    if m == 3 {
      MarchFollowsFebruary(y);
    } else if m == 1 {
      assert DayNumber(y, 1, 1) == DayNumber(y - 1, 12, 31) + 1;
    } else {
      var mp := if m > 2 then m - 3 else m + 9;
      DoyStep(mp - 1);
    }
  }

  /** `setDate(d - k)` on a date with `0 <= k < 7`: the same month when the
      day stays positive, otherwise the matching day of the month before. */
  function DaysBack(y: int, m: int, d: int, k: int): (r: (int, int, int))
    requires ValidDate(y, m, d) && 0 <= k < 7
    ensures ValidDate(r.0, r.1, r.2)
  {
    if d - k >= 1 then (y, m, d - k)
    else
      var (py, pm) := PreviousMonth(y, m);
      (py, pm, DaysInMonth(py, pm) + d - k)
  }

  /** Stepping back `k` days lowers the day number by exactly `k`. */
  lemma DaysBackCounts(y: int, m: int, d: int, k: int)
    requires ValidDate(y, m, d) && 0 <= k < 7
    ensures var r := DaysBack(y, m, d, k);
            DayNumber(r.0, r.1, r.2) == DayNumber(y, m, d) - k
  {
    if d - k < 1 {
      var (py, pm) := PreviousMonth(y, m);
      MonthBoundary(y, m);
      DayNumberInMonth(py, pm, DaysInMonth(py, pm), DaysInMonth(py, pm) + d - k);
    }
  }

  /** The date of the Sunday that starts the week of (`y`, `m`, `d`). */
  function SundayOf(y: int, m: int, d: int): (r: (int, int, int))
    requires ValidDate(y, m, d)
    ensures ValidDate(r.0, r.1, r.2)
  {
    DaysBack(y, m, d, Weekday(y, m, d))
  }

  lemma SundayIsSunday(y: int, m: int, d: int)
    requires ValidDate(y, m, d)
    ensures var s := SundayOf(y, m, d);
            Weekday(s.0, s.1, s.2) == 0 && DayNumber(y, m, d) - 6 <= DayNumber(s.0, s.1, s.2) <= DayNumber(y, m, d)
  {
    var n, w := DayNumber(y, m, d), Weekday(y, m, d);
    DaysBackCounts(y, m, d, w);
    WeekStartMod(n);
  }

  lemma WeekStartMod(n: int)
    ensures (n - (n + 4) % 7 + 4) % 7 == 0
  {
    var q := (n + 4) / 7;
    assert n - (n + 4) % 7 + 4 == 7 * q;
    assert (7 * q) % 7 == 0;
  }
}
