/** UTC days and billing months, in milliseconds since 1 January 1970. */
module Calendar {

  const DAY_MS: nat := 86_400_000

  function DayOf(now: nat): nat { now / DAY_MS }

  function DayStart(now: nat): nat { DayOf(now) * DAY_MS }

  predicate IsLeap(year: nat) { year % 4 == 0 && (year % 100 != 0 || year % 400 == 0) }

  /** Length of month `k`, counted from January 1970. */
  function DaysInMonth(k: nat): (n: nat)
    ensures 28 <= n <= 31
  {
    var m := k % 12;
    if m == 1 then (if IsLeap(1970 + k / 12) then 29 else 28)
    else if m in {3, 5, 8, 10} then 30 else 31
  }

  function MonthStartDay(k: nat): nat { if k == 0 then 0 else MonthStartDay(k - 1) + DaysInMonth(k - 1) }

  function FindMonth(day: nat, k: nat): (m: nat)
    requires MonthStartDay(k) <= day
    ensures MonthStartDay(m) <= day < MonthStartDay(m + 1)
    decreases day - MonthStartDay(k)
  {
    if day < MonthStartDay(k + 1) then k else FindMonth(day, k + 1)
  }

  /** The UTC billing month a moment belongs to. */
  function MonthOf(now: nat): nat { FindMonth(DayOf(now), 0) }

  function MonthEnd(now: nat): nat { MonthStartDay(MonthOf(now) + 1) * DAY_MS }

  /** Days left in the billing month: the ceiling of the time left, at least one. */
  function RemainingUtcDays(now: nat): (n: nat)
    ensures n >= 1
  {
    var ms := MonthEnd(now) - now;
    var days := (ms + DAY_MS - 1) / DAY_MS;
    if days > 1 then days else 1
  }

  /** The ceiling counts today, at exact midnight as at any later instant of the day. */
  lemma RemainingDaysCountToday(now: nat)
    ensures RemainingUtcDays(now) == MonthStartDay(MonthOf(now) + 1) - DayOf(now) >= 1
  {
    var last, day := MonthStartDay(MonthOf(now) + 1), DayOf(now);
    var into := now - day * DAY_MS;
    assert 0 <= into < DAY_MS;
    assert MonthEnd(now) - now == (last - day) * DAY_MS - into;
    CeilingOfDays(last - day, into);
  }

  /** Days from the start of the year to that of month `m`, leap day aside. */
  function DaysBefore(m: nat): nat
    requires m < 12
  {
    [0, 31, 59, 90, 120, 151, 181, 212, 243, 273, 304, 334][m]
  }

  /** Leap days of the Gregorian calendar from 1970 up to the start of the year. */
  function LeapDaysBefore(year: nat): int
    requires year >= 1970
  {
    (year - 1) / 4 - (year - 1) / 100 + (year - 1) / 400 - 477
  }

  /** Multiples met by counting up to `y`. */
  lemma NextMultiple(y: nat)
    requires y >= 1
    ensures y / 4 == (y - 1) / 4 + if y % 4 == 0 then 1 else 0
    ensures y / 100 == (y - 1) / 100 + if y % 100 == 0 then 1 else 0
    ensures y / 400 == (y - 1) / 400 + if y % 400 == 0 then 1 else 0
  {
  }

  lemma LeapDayOfYear(year: nat)
    requires year >= 1970
    ensures LeapDaysBefore(year + 1) == LeapDaysBefore(year) + if IsLeap(year) then 1 else 0
  {
    NextMultiple(year);
    assert year % 100 == 0 ==> year % 4 == 0 by {
      assert year % 100 == 0 ==> year == 4 * (25 * (year / 100));
    }
    assert year % 400 == 0 ==> year % 100 == 0 by {
      assert year % 400 == 0 ==> year == 100 * (4 * (year / 400));
    }
  }

  lemma MonthLength(k: nat)
    ensures var year, m := 1970 + k / 12, k % 12;
      DaysInMonth(k) == (if m == 11 then 365 else DaysBefore(m + 1)) - DaysBefore(m)
        + if m == 1 && IsLeap(year) then 1 else 0
  {
    hide IsLeap;
  }

  /** Counted month by month, a month starts where the Gregorian calendar has it. */
  lemma {:induction false} MonthsAreGregorian(k: nat)
    ensures var year, m := 1970 + k / 12, k % 12;
      MonthStartDay(k) == 365 * (year - 1970) + LeapDaysBefore(year) + DaysBefore(m)
        + if m >= 2 && IsLeap(year) then 1 else 0
  {
    hide IsLeap, DaysInMonth;
    if k > 0 {
      MonthsAreGregorian(k - 1);
      MonthLength(k - 1);
      hide LeapDaysBefore;
      var year, m := 1970 + (k - 1) / 12, (k - 1) % 12;
      if m == 11 {
        assert k % 12 == 0 && 1970 + k / 12 == year + 1;
        LeapDayOfYear(year);
      } else {
        assert k % 12 == m + 1 && k / 12 == (k - 1) / 12;
      }
    } else {
      assert LeapDaysBefore(1970) == 0;
    }
  }

  lemma CeilingOfDays(n: int, into: nat)
    requires into < DAY_MS
    ensures (n * DAY_MS - into + DAY_MS - 1) / DAY_MS == n
  {
  }

  lemma SameDaySameMonth(a: nat, b: nat)
    requires DayOf(a) == DayOf(b)
    ensures DayStart(a) == DayStart(b) && MonthOf(a) == MonthOf(b) && RemainingUtcDays(a) == RemainingUtcDays(b)
  {
    RemainingDaysCountToday(a);
    RemainingDaysCountToday(b);
  }

  lemma LaterDayFewerDays(a: nat, b: nat)
    requires MonthOf(a) == MonthOf(b) && a <= b
    ensures DayOf(a) <= DayOf(b) && RemainingUtcDays(b) == RemainingUtcDays(a) - (DayOf(b) - DayOf(a))
  {
    RemainingDaysCountToday(a);
    RemainingDaysCountToday(b);
  }
}
