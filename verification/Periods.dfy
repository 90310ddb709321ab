/**
 * Billing periods: month starts as `Date.UTC(year, month, 1)` gives them in the
 * proleptic Gregorian calendar, and the inclusive count of usage between two.
 */
module Periods {
  import opened Basics

  const DAY_MS: int := 86_400_000

  /** Days from 1 January of year 1 to 1 January of `year`. */
  function YearStart(year: int): int {
    365 * (year - 1) + (year - 1) / 4 - (year - 1) / 100 + (year - 1) / 400
  }

  predicate Leap(year: int) {
    year % 4 == 0 && (year % 100 != 0 || year % 400 == 0)
  }

  /** Days before month k (0 = January) within its year. */
  function MonthOffset(year: int, k: nat): int
    requires k < 12
  {
    [0, 31, 59, 90, 120, 151, 181, 212, 243, 273, 304, 334][k] + if k >= 2 && Leap(year) then 1 else 0
  }

  /** Start of a month counted as 12 * year + month, in milliseconds since 1970. */
  function MonthStart(m: int): int {
    DAY_MS * (YearStart(m / 12) + MonthOffset(m / 12, m % 12) - YearStart(1970))
  }

  datatype Period = Period(start: int, end: int)

  /**
   * `currentPeriod`, given the clock's UTC year and month and the calendar's month
   * starts; `Date.UTC` carries a month past December into the next year.
   */
  function CurrentPeriod(starts: int -> int, year: int, month: int): Period {
    Period(starts(12 * year + month), starts(12 * year + (month + 1)))
  }

  lemma YearLength(year: int)
    ensures YearStart(year + 1) == YearStart(year) + 365 + if Leap(year) then 1 else 0
  {
    Carry(year, 4);
    Carry(year, 100);
    Carry(year, 400);
    DividesDown(year, 100, 4);
    DividesDown(year, 4, 25);
  }

  lemma DividesDown(y: int, d: int, k: int)
    requires d > 1 && k > 0
    ensures y % (d * k) == 0 ==> y % d == 0
  {
    if y % (d * k) == 0 {
      var q := y / (d * k);
      assert y == q * (d * k) == (q * k) * d;
      DivIs(y, d, q * k, 0);
    }
  }

  lemma Carry(y: int, d: int)
    requires d > 1
    ensures y / d == (y - 1) / d + if y % d == 0 then 1 else 0
  {
    var q, r := y / d, y % d;
    assert y == q * d + r;
    if r == 0 {
      DivIs(y - 1, d, q - 1, d - 1);
    } else {
      DivIs(y - 1, d, q, r - 1);
    }
  }

  lemma DivIs(x: int, d: int, q: int, r: int)
    requires 0 <= r < d && x == q * d + r
    ensures x / d == q
  {
    var q' := x / d;
    assert x == q' * d + x % d;
    assert q' < q ==> (q' + 1) * d <= q * d;
    assert q < q' ==> (q + 1) * d <= q' * d;
  }

  /** The days of month k of a year. */
  predicate Lasts(year: int, k: nat, days: int) {
    match k
    case 1 => days == if year % 4 == 0 && (year % 100 != 0 || year % 400 == 0) then 29 else 28
    case 3 | 5 | 8 | 10 => days == 30
    case _ => days == 31
  }

  lemma OffsetLength(year: int, k: nat)
    requires k < 11
    ensures Lasts(year, k, MonthOffset(year, k + 1) - MonthOffset(year, k))
  {
  }

  lemma DecemberLength(year: int)
    ensures YearStart(year + 1) + MonthOffset(year + 1, 0) - YearStart(year) - MonthOffset(year, 11) == 31
  {
    YearLength(year);
  }

  /** Each month lasts its own number of days of 24 hours. */
  lemma MonthLength(m: int) returns (days: int)
    ensures Lasts(m / 12, m % 12, days) && MonthStart(m + 1) == MonthStart(m) + days * (24 * 60 * 60 * 1000)
  {
    var y, k := m / 12, m % 12;
    if k == 11 {
      DecemberLength(y);
      DivIs(m + 1, 12, y + 1, 0);
      days := 31;
    } else {
      OffsetLength(y, k);
      DivIs(m + 1, 12, y, k + 1);
      days := MonthOffset(y, k + 1) - MonthOffset(y, k);
    }
  }

  /** Time is counted from 1 January 1970. */
  lemma Epoch()
    ensures MonthStart(12 * 1970) == 0
  {
    DivIs(12 * 1970, 12, 1970, 0);
  }

  predicate Before(starts: int -> int, a: int, b: int) {
    starts(a) < starts(b)
  }

  ghost predicate Increasing(starts: int -> int) {
    forall a, b :: a < b ==> Before(starts, a, b)
  }

  predicate StepsUp(starts: int -> int, m: int) {
    starts(m) < starts(m + 1)
  }

  lemma {:induction false} StepsAddUp(starts: int -> int, a: int, b: int)
    requires a < b && forall m :: a <= m < b ==> StepsUp(starts, m)
    ensures Before(starts, a, b)
    decreases b - a
  {
    assert StepsUp(starts, b - 1);
    if a < b - 1 {
      StepsAddUp(starts, a, b - 1);
    }
  }

  lemma CalendarIncreases()
    ensures Increasing(MonthStart)
  {
    forall a, b | a < b ensures Before(MonthStart, a, b) {
      forall m | a <= m < b ensures StepsUp(MonthStart, m) {
        var _ := MonthLength(m);
      }
      StepsAddUp(MonthStart, a, b);
    }
  }

  /**
   * Stamped periods tile time: one ends where the next month's starts, also across
   * December; and a moment of the month falls in the period stamped then.
   */
  lemma PeriodsTile(starts: int -> int, year: int, month: int, now: int)
    requires Increasing(starts) && 0 <= month < 12
    ensures var p := CurrentPeriod(starts, year, month);
      var next := if month == 11 then CurrentPeriod(starts, year + 1, 0) else CurrentPeriod(starts, year, month + 1);
      && p.start < p.end == next.start
      && (starts(12 * year + month) <= now < starts(12 * year + month + 1) <==> p.start <= now < p.end)
  {
    assert Before(starts, 12 * year + month, 12 * year + (month + 1));
  }

  /** A moment falls in at most one stamped period, taken as [start, end). */
  lemma OnePeriod(starts: int -> int, now: int, a: int, b: int)
    requires Increasing(starts)
    requires starts(a) <= now < starts(a + 1) && starts(b) <= now < starts(b + 1)
    ensures a == b
  {
    assert a + 1 < b ==> Before(starts, a + 1, b);
    assert b + 1 < a ==> Before(starts, b + 1, a);
  }

  /** `count({ createdAt: Between(from, to) })`: both ends included. */
  function CountBetween(log: seq<int>, from: int, to: int): nat {
    if log == [] then 0 else CountBetween(ButLast(log), from, to) + if from <= Last(log) <= to then 1 else 0
  }

  /** The log entries in a closed range, by their place in the log. */
  ghost function EntriesBetween(log: seq<int>, from: int, to: int): set<int> {
    set i | 0 <= i < |log| && from <= log[i] <= to
  }

  /** Every logged request in the closed range is counted, and once. */
  lemma {:induction false} CountIsSize(log: seq<int>, from: int, to: int)
    ensures CountBetween(log, from, to) == |EntriesBetween(log, from, to)|
  {
    if log == [] {
      assert EntriesBetween(log, from, to) == {};
    } else {
      CountIsSize(ButLast(log), from, to);
      var rest := EntriesBetween(ButLast(log), from, to);
      if from <= Last(log) <= to {
        assert EntriesBetween(log, from, to) == rest + {|log| - 1};
      } else {
        assert EntriesBetween(log, from, to) == rest;
      }
    }
  }

  /** What the period of month m counts: the requests `Between` its start and its end. */
  function CountIn(log: seq<int>, starts: int -> int, m: int): nat {
    CountBetween(log, starts(m), starts(m + 1))
  }

  /** What consecutive periods a, a+1, ..., b-1 count in total. */
  function CountPeriods(log: seq<int>, starts: int -> int, a: int, b: int): nat
    requires a <= b
    decreases b - a
  {
    if a == b then 0 else CountPeriods(log, starts, a, b - 1) + CountIn(log, starts, b - 1)
  }

  /** Requests logged exactly on a boundary strictly inside the range. */
  function OnBoundaries(log: seq<int>, starts: int -> int, a: int, b: int): nat
    requires a < b
    decreases b - a
  {
    if a + 1 == b then 0 else OnBoundaries(log, starts, a, b - 1) + CountBetween(log, starts(b - 1), starts(b - 1))
  }

  lemma {:induction false} BetweenMeets(log: seq<int>, a: int, b: int, c: int)
    requires a <= b <= c
    ensures CountBetween(log, a, b) + CountBetween(log, b, c) == CountBetween(log, a, c) + CountBetween(log, b, b)
  {
    if log != [] {
      BetweenMeets(ButLast(log), a, b, c);
    }
  }

  /**
   * Because `Between` is inclusive, periods billed one after the other count a
   * request on an interior boundary twice, unlike the half-open [start, end) of
   * the comment: the sum is the whole range plus those requests.
   */
  lemma {:induction false} BoundariesCountTwice(log: seq<int>, starts: int -> int, a: int, b: int)
    requires Increasing(starts) && a < b
    ensures CountPeriods(log, starts, a, b) ==
      CountBetween(log, starts(a), starts(b)) + OnBoundaries(log, starts, a, b)
    decreases b - a
  {
    if a + 1 < b {
      BoundariesCountTwice(log, starts, a, b - 1);
      assert Before(starts, a, b - 1) && Before(starts, b - 1, b);
      BetweenMeets(log, starts(a), starts(b - 1), starts(b));
    } else {
      assert CountPeriods(log, starts, a, a) == 0;
    }
  }

  /** Consecutive invoices add up exactly if nothing was logged on an interior boundary. */
  lemma UsageExactIff(log: seq<int>, starts: int -> int, a: int, b: int)
    requires Increasing(starts) && a < b
    ensures CountPeriods(log, starts, a, b) == CountBetween(log, starts(a), starts(b))
      <==> forall m :: a < m < b ==> Off(log, starts, m)
  {
    BoundariesCountTwice(log, starts, a, b);
    NoneOnBoundariesIff(log, starts, a, b);
  }

  /** Nothing was logged at the start of month m. */
  predicate Off(log: seq<int>, starts: int -> int, m: int) {
    starts(m) !in log
  }

  lemma {:induction false} NoneOnBoundariesIff(log: seq<int>, starts: int -> int, a: int, b: int)
    requires a < b
    ensures OnBoundaries(log, starts, a, b) == 0 <==> forall m :: a < m < b ==> Off(log, starts, m)
    decreases b - a
  {
    if a + 1 < b {
      NoneOnBoundariesIff(log, starts, a, b - 1);
      CountAtZeroIff(log, starts(b - 1));
      assert Off(log, starts, b - 1) <==> starts(b - 1) !in log;
    }
  }

  lemma {:induction false} CountAtZeroIff(log: seq<int>, t: int)
    ensures CountBetween(log, t, t) == 0 <==> t !in log
  {
    if log != [] {
      CountAtZeroIff(ButLast(log), t);
      assert log == ButLast(log) + [Last(log)];
    }
  }
}
