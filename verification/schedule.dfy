/** The proleptic Gregorian calendar, in days since the first of January of year 1. */
module Calendar {
  predicate Leap(y: int) { y % 4 == 0 && (y % 100 != 0 || y % 400 == 0) }

  function YearLength(y: int): nat { if Leap(y) then 366 else 365 }

  /** The first day of a year. */
  function YearStart(y: nat): nat
    requires y >= 1
    decreases y
  {
    if y == 1 then 0 else YearStart(y - 1) + YearLength(y - 1)
  }

  function MonthLength(y: int, m: int): nat
    requires 1 <= m <= 12
  {
    if m == 2 then (if Leap(y) then 29 else 28)
    else if m == 4 || m == 6 || m == 9 || m == 11 then 30
    else 31
  }

  /** The days of the year before a month; month 13 stands for the year after. */
  function MonthStart(y: int, m: nat): nat
    requires 1 <= m <= 13
    decreases m
  {
    if m == 1 then 0 else MonthStart(y, m - 1) + MonthLength(y, m - 1)
  }

  /** A date's day number; a day past the end of its month runs on into the next. */
  function DayOf(y: nat, m: nat, d: nat): nat
    requires y >= 1 && 1 <= m <= 12 && d >= 1
  {
    YearStart(y) + MonthStart(y, m) + d - 1
  }

  function YearFrom(n: nat, y: nat): (r: nat)
    requires y >= 1 && YearStart(y) <= n
    ensures r >= y && YearStart(r) <= n < YearStart(r + 1)
    decreases n - YearStart(y)
  {
    if n < YearStart(y + 1) then y else YearFrom(n, y + 1)
  }

  function YearOf(n: nat): (y: nat)
    ensures y >= 1 && YearStart(y) <= n < YearStart(y + 1)
  {
    YearFrom(n, 1)
  }

  lemma TwelveMonths(y: int)
    ensures MonthStart(y, 13) == YearLength(y)
  {
    assert MonthStart(y, 3) == 31 + MonthLength(y, 2);
    assert MonthStart(y, 5) == MonthStart(y, 3) + 61;
    assert MonthStart(y, 7) == MonthStart(y, 5) + 61;
    assert MonthStart(y, 9) == MonthStart(y, 7) + 62;
    assert MonthStart(y, 11) == MonthStart(y, 9) + 61;
    assert MonthStart(y, 13) == MonthStart(y, 11) + 61;
  }

  function MonthFrom(y: int, doy: nat, m: nat): (r: nat)
    requires 1 <= m <= 12 && MonthStart(y, m) <= doy < MonthStart(y, 13)
    ensures m <= r <= 12 && MonthStart(y, r) <= doy < MonthStart(y, r + 1)
    decreases 12 - m
  {
    if doy < MonthStart(y, m + 1) then m else MonthFrom(y, doy, m + 1)
  }

  function MonthOf(n: nat): (m: nat)
    ensures var y := YearOf(n); 1 <= m <= 12 && MonthStart(y, m) <= n - YearStart(y) < MonthStart(y, m + 1)
  {
    var y := YearOf(n);
    TwelveMonths(y);
    MonthFrom(y, n - YearStart(y), 1)
  }

  function DayOfMonth(n: nat): (d: nat)
    ensures 1 <= d <= MonthLength(YearOf(n), MonthOf(n))
  {
    n - YearStart(YearOf(n)) - MonthStart(YearOf(n), MonthOf(n)) + 1
  }

  /** Sunday is 0; the calendar begins on a Monday. */
  function Weekday(n: nat): nat { (n + 1) % 7 }

  /** A day number is its date's day number. */
  lemma DateRoundTrip(n: nat)
    ensures DayOf(YearOf(n), MonthOf(n), DayOfMonth(n)) == n
    ensures DayOf(YearOf(n), MonthOf(n), DayOfMonth(n) + 1) == n + 1
  {
  }

  lemma {:induction false} YearStartGrows(y: nat, z: nat)
    requires 1 <= y <= z
    ensures YearStart(y) + 365 * (z - y) <= YearStart(z)
    decreases z
  {
    if y < z { YearStartGrows(y, z - 1); }
  }

  lemma {:induction false} MonthStartGrows(y: int, m: nat, k: nat)
    requires 1 <= m <= k <= 13
    ensures MonthStart(y, m) + 28 * (k - m) <= MonthStart(y, k)
    decreases k
  {
    if m < k { MonthStartGrows(y, m, k - 1); }
  }

  lemma YearIsUnique(n: nat, y: nat)
    requires y >= 1 && YearStart(y) <= n < YearStart(y + 1)
    ensures YearOf(n) == y
  {
    var z := YearOf(n);
    if z < y { YearStartGrows(z + 1, y); } else if y < z { YearStartGrows(y + 1, z); }
  }

  lemma NoLaterMonth(y: int, k: nat, m: nat, from: nat, until: nat)
    requires 1 <= k <= 12 && 1 <= m <= 12 && from == MonthStart(y, m) && until == MonthStart(y, k + 1) && from < until
    ensures m <= k
  {
    if k < m {
      MonthStartGrows(y, k + 1, m);
      assert false;
    }
  }

  lemma MonthIsUnique(n: nat, y: nat, m: nat)
    requires y == YearOf(n) && 1 <= m <= 12 && MonthStart(y, m) <= n - YearStart(y) < MonthStart(y, m + 1)
    ensures MonthOf(n) == m
  {
    var k := MonthOf(n);
    NoLaterMonth(y, k, m, MonthStart(y, m), MonthStart(y, k + 1));
    NoLaterMonth(y, m, k, MonthStart(y, k), MonthStart(y, m + 1));
  }

  /** Every date is the date of its day number. */
  lemma DayRoundTrip(y: nat, m: nat, d: nat)
    requires y >= 1 && 1 <= m <= 12 && 1 <= d <= MonthLength(y, m)
    ensures var n := DayOf(y, m, d); YearOf(n) == y && MonthOf(n) == m && DayOfMonth(n) == d
  {
    var n := DayOf(y, m, d);
    TwelveMonths(y);
    MonthStartGrows(y, m + 1, 13);
    YearIsUnique(n, y);
    MonthIsUnique(n, y, m);
  }

  /** The closed form the calendar is usually given by. */
  lemma {:induction false} YearStartClosed(y: nat)
    requires y >= 1
    ensures YearStart(y) == 365 * (y - 1) + (y - 1) / 4 - (y - 1) / 100 + (y - 1) / 400
    decreases y
  {
    if y > 1 {
      YearStartClosed(y - 1);
      By4(y - 1);
      By100(y - 1);
      By400(y - 1);
    }
  }

  lemma AtLeastOnce(d: nat, k: nat)
    requires d >= 1
    ensures d * k >= k
  {
  }

  /** Quotient and remainder are unique. */
  lemma NextQuotient(x: nat, k: nat, q: nat, r: nat)
    requires k > 0 && x == k * q + r && r < k
    ensures x / k == q && x % k == r
  {
    assert x == k * (x / k) + x % k;
    if x / k > q {
      AtLeastOnce(x / k - q, k);
      assert false;
    } else if x / k < q {
      AtLeastOnce(q - x / k, k);
      assert false;
    }
  }

  lemma By4(x: nat)
    requires x >= 1
    ensures x / 4 == (x - 1) / 4 + if x % 4 == 0 then 1 else 0
  {
  }

  lemma By100(x: nat)
    requires x >= 1
    ensures x / 100 == (x - 1) / 100 + if x % 100 == 0 then 1 else 0
    ensures x % 100 == 0 ==> x % 4 == 0
  {
    var q, r := (x - 1) / 100, (x - 1) % 100;
    if r == 99 {
      NextQuotient(x, 100, q + 1, 0);
      NextQuotient(x, 4, 25 * (q + 1), 0);
    } else {
      NextQuotient(x, 100, q, r + 1);
    }
  }

  lemma By400(x: nat)
    requires x >= 1
    ensures x / 400 == (x - 1) / 400 + if x % 400 == 0 then 1 else 0
    ensures x % 400 == 0 ==> x % 100 == 0
  {
    var q, r := (x - 1) / 400, (x - 1) % 400;
    if r == 399 {
      NextQuotient(x, 400, q + 1, 0);
      NextQuotient(x, 100, 4 * (q + 1), 0);
    } else {
      NextQuotient(x, 400, q, r + 1);
    }
  }
}

/** Cron schedules, in whole minutes since the start of the calendar. */
module Cron {
  import opened Types
  import opened Calendar

  const DAY := 1440

  datatype CronSchedule = CronSchedule(minutes: set<int>, hours: set<int>, days: set<int>, months: set<int>, weekdays: set<int>)

  predicate MatchesDate(c: CronSchedule, n: nat) {
    var dayMatch, weekdayMatch := DayOfMonth(n) in c.days, Weekday(n) in c.weekdays;
    && MonthOf(n) in c.months
    && if |c.days| != 31 && |c.weekdays| != 7 then dayMatch || weekdayMatch
       else if |c.days| != 31 then dayMatch
       else if |c.weekdays| != 7 then weekdayMatch
       else true
  }

  predicate Matches(c: CronSchedule, t: nat) {
    t % 60 in c.minutes && t / 60 % 24 in c.hours && MatchesDate(c, t / DAY)
  }

  // ---- Searching ----

  /** The first whole minute after an instant. */
  function After(at: Time): nat
    requires at >= 0
  {
    at / MINUTE + 1
  }

  /** The same date and time of day four years on. */
  function FourYearsOn(t: nat): nat {
    var n := t / DAY;
    DayOf(YearOf(n) + 4, MonthOf(n), DayOfMonth(n)) * DAY + t % DAY
  }

  function Limit(at: Time): nat
    requires at >= 0
  {
    FourYearsOn(After(at))
  }

  lemma SameDay(c: CronSchedule, t: nat, u: nat)
    requires t <= u < (t / DAY + 1) * DAY && !MatchesDate(c, t / DAY)
    ensures !Matches(c, u)
  {
    assert u / DAY == t / DAY;
  }

  /** On a day that cannot match, nothing matches up to the midnight that ends it. */
  lemma SkippedDay(c: CronSchedule, t: nat, n: nat)
    requires n == t / DAY && !MatchesDate(c, n)
    ensures var midnight := DayOf(YearOf(n), MonthOf(n), DayOfMonth(n) + 1) * DAY;
            midnight > t && forall u :: t <= u < midnight ==> !Matches(c, u)
  {
    DateRoundTrip(n);
    var midnight := (n + 1) * DAY;
    forall u | t <= u < midnight ensures !Matches(c, u) { SameDay(c, t, u); }
  }

  /** The first matching minute strictly after an instant and before the limit, although days that cannot match
      are skipped whole; and none exactly when there is none. */
  method Next(c: CronSchedule, at: Time) returns (r: Option<nat>)
    requires at >= 0
    ensures r.Some? ==> After(at) <= r.value < Limit(at) && Matches(c, r.value)
    ensures forall t :: After(at) <= t < Limit(at) && (r.Some? ==> t < r.value) ==> !Matches(c, t)
  {
    var first, limit := After(at), Limit(at);
    var candidate := first;
    while candidate < limit
      invariant first <= candidate
      invariant forall t :: first <= t < candidate ==> !Matches(c, t)
      decreases limit - candidate
    {
      var n := candidate / DAY;
      if !MatchesDate(c, n) {
        SkippedDay(c, candidate, n);
        candidate := DayOf(YearOf(n), MonthOf(n), DayOfMonth(n) + 1) * DAY;
      } else if Matches(c, candidate) {
        return Some(candidate);
      } else {
        candidate := candidate + 1;
      }
    }
    return None;
  }

  /** A slot is a matching minute after the last run and no later than now. */
  ghost predicate SlotBy(c: CronSchedule, t: nat, lastRun: Time, now: Time) {
    lastRun < t * MINUTE <= now && Matches(c, t)
  }

  lemma SlotsAreMinutes(t: nat, lastRun: Time, now: Time)
    requires lastRun >= 0 && now >= 0
    ensures lastRun < t * MINUTE <= now <==> After(lastRun) <= t <= now / MINUTE
  {
  }

  /** Nothing ran yet: due if the current minute matches. Otherwise due exactly when a slot has passed since the
      last run, as long as it came before the search limit. */
  method Due(c: CronSchedule, now: Time, lastRun: Time) returns (due: bool)
    requires now >= 0 && lastRun >= 0
    ensures lastRun == 0 ==> due == Matches(c, now / MINUTE)
    ensures lastRun > 0 ==> (due <==> exists t: nat :: SlotBy(c, t, lastRun, now) && t < Limit(lastRun))
  {
    if lastRun == 0 { return Matches(c, now / MINUTE); }
    var next := Next(c, lastRun);
    if next.None? {
      forall t: nat | SlotBy(c, t, lastRun, now) ensures t >= Limit(lastRun) { SlotsAreMinutes(t, lastRun, now); }
      return false;
    }
    due := next.value <= now / MINUTE;
    SlotsAreMinutes(next.value, lastRun, now);
    if due {
      assert SlotBy(c, next.value, lastRun, now);
    } else {
      forall t: nat | SlotBy(c, t, lastRun, now) ensures t >= Limit(lastRun) { SlotsAreMinutes(t, lastRun, now); }
    }
  }

  lemma WithinDay(n: nat, k: nat)
    requires k < DAY
    ensures (n * DAY + k) / DAY == n && (n * DAY + k) % DAY == k
  {
  }

  lemma Midnight(n: nat)
    ensures n * DAY % 60 == 0 && n * DAY / 60 % 24 == 0 && n * DAY / DAY == n
  {
    assert n * DAY == (n * 24) * 60;
    assert n * DAY / 60 == n * 24;
    WithinDay(n, 0);
  }

  /** Midnight on the 29th of February, whatever the weekday. */
  predicate IsLeapDayJob(c: CronSchedule) {
    c.minutes == {0} && c.hours == {0} && c.days == {29} && c.months == {2} && |c.weekdays| == 7
  }

  lemma LaterDay(m: nat, n: nat)
    requires m < n
    ensures m * DAY + 1 <= n * DAY
  {
  }

  lemma NoSlotBefore(c: CronSchedule, y: nat, slot: nat, until: nat, t: nat)
    requires IsLeapDayJob(c) && y >= 1 && Leap(y) && !Leap(y + 4)
    requires slot == DayOf(y, 2, 29) && until == DayOf(y + 4, 3, 1) && slot * DAY < t < until * DAY + 1
    ensures !Matches(c, t)
  {
    EarlyMonths(y);
    assert slot + 1 == DayOf(y, 3, 1);
    if t < (slot + 1) * DAY {
      OnlyMidnight(c, slot, t);
    } else {
      NoSlotMeanwhile(c, y, t, slot + 1, until);
    }
  }

  lemma OnlyMidnight(c: CronSchedule, n: nat, t: nat)
    requires IsLeapDayJob(c) && n * DAY < t < (n + 1) * DAY
    ensures !Matches(c, t)
  {
    var k := t - n * DAY;
    assert t == n * 24 * 60 + k;
    MinuteOfDay(n, k);
  }

  lemma MinuteOfDay(n: nat, k: nat)
    requires 0 < k < DAY
    ensures (n * DAY + k) % 60 != 0 || (n * DAY + k) / 60 % 24 != 0
  {
    var h, m := k / 60, k % 60;
    Quotient(n * DAY + k, 60, n * 24 + h, m);
    Quotient(n * 24 + h, 24, n, h);
  }

  lemma Quotient(x: nat, d: nat, q: nat, r: nat)
    requires d > 0 && r < d && x == q * d + r
    ensures x / d == q && x % d == r
  {
    NextQuotient(x, d, q, r);
  }

  lemma AfterMinute(t: nat)
    ensures After(t * MINUTE) == t + 1
  {
  }

  lemma NoLeapDayThen(y: nat)
    requires y >= 1 && !Leap(y)
    ensures DayOf(y, 2, 29) == DayOf(y, 3, 1)
  {
    EarlyMonths(y);
  }

  /** The four years from the leap day itself end on the first of March, there being no 29th of February then. */
  lemma LimitRollsOver(y: nat, slot: nat, until: nat)
    requires y >= 1 && Leap(y) && !Leap(y + 4) && slot == DayOf(y, 2, 29) && until == DayOf(y + 4, 3, 1)
    ensures FourYearsOn(slot * DAY + 1) == until * DAY + 1
  {
    DayRoundTrip(y, 2, 29);
    FourYearsOnAt(slot, 1, y, 2, 29);
    NoLeapDayThen(y + 4);
  }

  /** The leap day of a leap year whose successor is skipped, where the search from it ends, and the next leap day. */
  predicate SkippedLeapDay(y: nat, slot: nat, until: nat, next: nat) {
    y >= 1 && Leap(y) && !Leap(y + 4) && slot == DayOf(y, 2, 29) && until == DayOf(y + 4, 3, 1) && next == DayOf(y + 8, 2, 29)
  }

  lemma LeapDaysApart(c: CronSchedule, y: nat, slot: nat, until: nat, next: nat)
    requires IsLeapDayJob(c) && SkippedLeapDay(y, slot, until, next)
    ensures Matches(c, slot * DAY) && Matches(c, next * DAY) && slot < until < next && until * DAY + 1 <= next * DAY
  {
    EighthIsLeap(y);
    LeapDaySlot(c, y, slot);
    LeapDaySlot(c, y + 8, next);
    NextSlotIsLater(y, slot, until, next);
    LaterDay(until, next);
  }

  lemma SearchEnds(y: nat, slot: nat, until: nat, next: nat, at: nat)
    requires SkippedLeapDay(y, slot, until, next) && at == slot * DAY
    ensures Limit(at * MINUTE) == until * DAY + 1
  {
    LimitRollsOver(y, slot, until);
    AfterMinute(at);
  }

  lemma SlotIsBeyond(c: CronSchedule, y: nat, slot: nat, until: nat, next: nat, at: nat, t: nat, now: Time)
    requires IsLeapDayJob(c) && SkippedLeapDay(y, slot, until, next) && at == slot * DAY && SlotBy(c, t, at * MINUTE, now)
    ensures t >= until * DAY + 1
  {
    LaterMinute(at, t);
    if t < until * DAY + 1 {
      NoSlotBefore(c, y, slot, until, t);
      assert false;
    }
  }

  /** No slot after the last run lies before the limit of the search, so that the job is due at no time. */
  ghost predicate NeverDue(c: CronSchedule, lastRun: Time)
    requires lastRun >= 0
  {
    forall now: Time, t: nat :: SlotBy(c, t, lastRun, now) ==> t >= Limit(lastRun)
  }

  lemma NothingDue(c: CronSchedule, y: nat, slot: nat, until: nat, next: nat, at: nat, lastRun: Time)
    requires IsLeapDayJob(c) && SkippedLeapDay(y, slot, until, next) && at == slot * DAY && lastRun == at * MINUTE >= 0
    requires Limit(lastRun) == until * DAY + 1
    ensures NeverDue(c, lastRun)
  {
    forall now: Time, t: nat | SlotBy(c, t, lastRun, now) ensures t >= Limit(lastRun) {
      SlotIsBeyond(c, y, slot, until, next, at, t, now);
    }
  }

  /** A leap-day job that last ran in its own slot, in a leap year whose successor is skipped, such as 2096, is due
      at no later time: its next slot is eight years on, and the search ends on the first of March after four. */
  lemma LeapDayBeyondLimit(c: CronSchedule, y: nat, slot: nat, until: nat, next: nat, at: nat, lastRun: Time)
    requires IsLeapDayJob(c) && SkippedLeapDay(y, slot, until, next) && at == slot * DAY && lastRun == at * MINUTE >= 0
    ensures Matches(c, at) && Matches(c, next * DAY) && slot < until < next && until * DAY + 1 <= next * DAY
    ensures Limit(lastRun) == until * DAY + 1
    ensures NeverDue(c, lastRun)
  {
    LeapDaysApart(c, y, slot, until, next);
    SearchEnds(y, slot, until, next, at);
    NothingDue(c, y, slot, until, next, at, lastRun);
  }

  lemma LaterMinute(m: nat, t: nat)
    requires m * MINUTE < t * MINUTE
    ensures m < t
  {
  }

  lemma EighthIsLeap(y: nat)
    requires Leap(y) && !Leap(y + 4)
    ensures Leap(y + 8)
  {
    NextQuotient(y + 4, 4, y / 4 + 1, 0);
    NextQuotient(y + 8, 4, y / 4 + 2, 0);
    NextQuotient(y + 8, 100, (y + 4) / 100, 4);
  }

  lemma EarlyMonths(y: int)
    ensures MonthStart(y, 2) == 31 && MonthStart(y, 3) == if Leap(y) then 60 else 59
  {
  }

  lemma NextSlotIsLater(y: nat, slot: nat, until: nat, next: nat)
    requires y >= 1 && Leap(y) && !Leap(y + 4) && slot == DayOf(y, 2, 29) && until == DayOf(y + 4, 3, 1) && next == DayOf(y + 8, 2, 29)
    ensures slot < until < next
  {
    YearStartGrows(y, y + 4);
    YearStartGrows(y + 4, y + 8);
    EarlyMonths(y);
    EarlyMonths(y + 4);
    EarlyMonths(y + 8);
  }

  lemma WithinDays(t: nat, from: nat, until: nat)
    requires from * DAY <= t <= until * DAY
    ensures from <= t / DAY <= until
  {
  }

  lemma NoSlotMeanwhile(c: CronSchedule, y: nat, t: nat, from: nat, until: nat)
    requires IsLeapDayJob(c) && y >= 1 && Leap(y) && !Leap(y + 4)
    requires from == DayOf(y, 3, 1) && until == DayOf(y + 4, 3, 1) && from * DAY <= t <= until * DAY
    ensures !Matches(c, t)
  {
    var n := t / DAY;
    WithinDays(t, from, until);
    if MonthOf(n) == 2 && DayOfMonth(n) == 29 { NoLeapDayMeanwhile(y, n, until); }
  }

  lemma LeapDaySlot(c: CronSchedule, y: nat, n: nat)
    requires IsLeapDayJob(c) && y >= 1 && Leap(y) && n == DayOf(y, 2, 29)
    ensures Matches(c, n * DAY)
  {
    DayRoundTrip(y, 2, 29);
    Midnight(n);
  }

  lemma FourYearsOnAt(n: nat, k: nat, y: nat, m: nat, d: nat)
    requires k < DAY && YearOf(n) == y && MonthOf(n) == m && DayOfMonth(n) == d
    ensures FourYearsOn(n * DAY + k) == DayOf(y + 4, m, d) * DAY + k
  {
    WithinDay(n, k);
  }

  lemma NoLeapDayMeanwhile(y: nat, n: nat, until: nat)
    requires y >= 1 && Leap(y) && !Leap(y + 4) && until == DayOf(y + 4, 3, 1)
    requires DayOf(y, 3, 1) <= n && MonthOf(n) == 2 && DayOfMonth(n) == 29
    ensures n > until
  {
    var z := YearOf(n);
    assert Leap(z);
    EarlyMonths(z);
    EarlyMonths(y);
    EarlyMonths(y + 4);
    if z < y { YearStartGrows(z + 1, y); }
    NextLeapYear(y, z);
    YearStartGrows(y + 5, z);
  }

  lemma NextLeapYear(y: nat, z: nat)
    requires Leap(y) && !Leap(y + 4) && Leap(z) && z > y
    ensures z >= y + 5
  {
  }

  // ---- The either-matches rule ----

  function Between(lo: int, hi: int): (r: set<int>)
    requires lo <= hi + 1
    ensures forall v :: v in r <==> lo <= v <= hi
    ensures |r| == hi + 1 - lo
    decreases hi + 1 - lo
  {
    if lo > hi then {} else Between(lo, hi - 1) + {hi}
  }

  ghost predicate Ranges(s: set<int>, lo: int, hi: int) { forall v :: v in s ==> lo <= v <= hi }
  ghost predicate Fills(s: set<int>, lo: int, hi: int) { forall v :: lo <= v <= hi ==> v in s }

  /** A field holds as many values as its range exactly when it is a wildcard. */
  lemma FullField(s: set<int>, lo: int, hi: int)
    requires lo <= hi + 1 && Ranges(s, lo, hi)
    ensures |s| == hi + 1 - lo <==> Fills(s, lo, hi)
  {
    var all := Between(lo, hi);
    assert s <= all;
    assert |all - s| == |all| - |s|;
    if |s| == |all| { assert all - s == {}; }
    if Fills(s, lo, hi) { assert s == all; }
  }

  /** With a wildcard in either day field both must match; with both restricted, either does. */
  lemma EitherDayMatches(c: CronSchedule, n: nat)
    requires Ranges(c.days, 1, 31) && Ranges(c.weekdays, 0, 6)
    ensures var day, weekday := DayOfMonth(n) in c.days, Weekday(n) in c.weekdays;
            MatchesDate(c, n) <==>
              && MonthOf(n) in c.months
              && ((day && weekday) || ((day || weekday) && !Fills(c.days, 1, 31) && !Fills(c.weekdays, 0, 6)))
  {
    FullField(c.days, 1, 31);
    FullField(c.weekdays, 0, 6);
  }

  // ---- Parsing ----

  /** One comma-separated part of a field: a wildcard, a range or a value, and a step. */
  datatype Range = Any | Span(low: int, high: int) | Only(value: int)
  datatype Part = Part(range: Range, step: int)

  function Low(p: Part, min: int): int { match p.range case Any => min case Span(low, _) => low case Only(v) => v }
  function High(p: Part, max: int): int { match p.range case Any => max case Span(_, high) => high case Only(v) => v }

  predicate Usable(p: Part, min: int, max: int) { p.step > 0 && min <= Low(p, min) <= High(p, max) <= max }

  predicate Hop(low: int, step: int, k: nat, v: int) { v == low + k * step }

  /** The values a part stands for: every step-th from its low end. */
  ghost predicate Covers(p: Part, min: int, max: int, v: int) {
    Usable(p, min, max) && v <= High(p, max) && exists k: nat :: Hop(Low(p, min), p.step, k, v)
  }

  function Stepped(low: int, high: int, step: int): set<int>
    requires step > 0
    decreases high + 1 - low
  {
    if low > high then {} else {low} + Stepped(low + step, high, step)
  }

  lemma {:induction false} SteppedMember(low: int, high: int, step: int, v: int) returns (k: nat)
    requires step > 0 && v in Stepped(low, high, step)
    ensures Hop(low, step, k, v) && low <= v <= high
    decreases high + 1 - low
  {
    if v == low {
      k := 0;
    } else {
      var j := SteppedMember(low + step, high, step, v);
      k := j + 1;
      assert k * step == j * step + step;
    }
  }

  lemma {:induction false} SteppedHas(low: int, high: int, step: int, k: nat, v: int)
    requires step > 0 && Hop(low, step, k, v) && v <= high
    ensures v in Stepped(low, high, step) && low <= v
    decreases k
  {
    assert k * step >= 0;
    if k > 0 {
      assert k * step == (k - 1) * step + step;
      SteppedHas(low + step, high, step, k - 1, v);
    }
  }

  lemma SteppedIsCover(p: Part, min: int, max: int, v: int)
    requires Usable(p, min, max)
    ensures v in Stepped(Low(p, min), High(p, max), p.step) <==> Covers(p, min, max, v)
    ensures Covers(p, min, max, v) ==> min <= v <= max
  {
    if v in Stepped(Low(p, min), High(p, max), p.step) {
      var k := SteppedMember(Low(p, min), High(p, max), p.step, v);
    }
    if Covers(p, min, max, v) {
      var k: nat :| Hop(Low(p, min), p.step, k, v);
      SteppedHas(Low(p, min), High(p, max), p.step, k, v);
    }
  }

  method ParseField(parts: seq<Part>, min: int, max: int) returns (r: Result<set<int>>)
    ensures r.Ok? <==> parts != [] && forall p :: p in parts ==> Usable(p, min, max)
    ensures r.Ok? ==> forall v :: v in r.value ==> min <= v <= max
    ensures r.Ok? ==> forall v :: v in r.value <==> exists p :: p in parts && Covers(p, min, max, v)
  {
    if parts == [] { return Err; }
    var values: set<int>, k := {}, 0;
    while k < |parts|
      invariant 0 <= k <= |parts|
      invariant forall p :: p in parts[..k] ==> Usable(p, min, max)
      invariant forall v :: v in values ==> min <= v <= max
      invariant forall v :: v in values <==> exists p :: p in parts[..k] && Covers(p, min, max, v)
    {
      var p := parts[k];
      assert p in parts;
      if p.step <= 0 { return Err; }
      var low, high := Low(p, min), High(p, max);
      if low < min || high > max || low > high { return Err; }
      var value, more: set<int> := low, {};
      while value <= high
        invariant more + Stepped(value, high, p.step) == Stepped(low, high, p.step)
        decreases high - value
      {
        more, value := more + {value}, value + p.step;
      }
      forall v ensures v in more <==> Covers(p, min, max, v) { SteppedIsCover(p, min, max, v); }
      forall v ensures v in more ==> min <= v <= max { SteppedIsCover(p, min, max, v); }
      CoveredNext(parts, k, min, max, values, more);
      values, k := values + more, k + 1;
    }
    assert parts[..k] == parts;
    return Ok(values);
  }

  lemma CoveredNext(parts: seq<Part>, k: nat, min: int, max: int, values: set<int>, more: set<int>)
    requires k < |parts|
    requires forall v :: v in values <==> exists p :: p in parts[..k] && Covers(p, min, max, v)
    requires forall v :: v in more <==> Covers(parts[k], min, max, v)
    ensures forall v :: v in values + more <==> exists p :: p in parts[..k + 1] && Covers(p, min, max, v)
  {
    assert parts[..k + 1] == parts[..k] + [parts[k]];
    forall v ensures v in values + more <==> exists p :: p in parts[..k + 1] && Covers(p, min, max, v) {
      if v in values {
        var p :| p in parts[..k] && Covers(p, min, max, v);
        assert p in parts[..k + 1];
      } else if v in more {
        assert parts[k] in parts[..k + 1];
      } else {
        forall p | p in parts[..k + 1] ensures !Covers(p, min, max, v) { assert p in parts[..k] || p == parts[k]; }
      }
    }
  }
}
