/** The UTC calendar from 1970 to 9999: the scheduler's times written as dates keep their order. */
module Calendar {
  import opened Types
  import opened Ordering
  import opened Schedule
  import opened Timestamps

  datatype Date = Date(year: nat, month: nat, day: nat)

  predicate IsLeap(year: nat) { year % 4 == 0 && (year % 100 != 0 || year % 400 == 0) }

  function MonthLength(year: nat, month: nat): (n: nat)
    ensures 28 <= n <= 31
  {
    if month == 2 then if IsLeap(year) then 29 else 28
    else if month == 4 || month == 6 || month == 9 || month == 11 then 30
    else 31
  }

  function NextDay(d: Date): Date {
    if d.day < MonthLength(d.year, d.month) then d.(day := d.day + 1)
    else if d.month < 12 then Date(d.year, d.month + 1, 1)
    else Date(d.year + 1, 1, 1)
  }

  /** The date `n` days after the first of January 1970. */
  function DateOf(n: nat): Date {
    if n == 0 then Date(1970, 1, 1) else NextDay(DateOf(n - 1))
  }

  /** The days of a common year before the month. */
  function DaysBefore(month: nat): nat {
    match month
    case 0 | 1 => 0
    case 2 => 31
    case 3 => 59
    case 4 => 90
    case 5 => 120
    case 6 => 151
    case 7 => 181
    case 8 => 212
    case 9 => 243
    case 10 => 273
    case 11 => 304
    case _ => 334
  }

  predicate IsDate(d: Date) {
    1970 <= d.year && 1 <= d.month <= 12 && 1 <= d.day <= MonthLength(d.year, d.month)
  }

  /** The leap years up to and with `year`. */
  function LeapYears(year: nat): int { year / 4 - year / 100 + year / 400 }

  lemma OneMore(x: nat, k: nat)
    requires k > 0
    ensures (x + 1) / k == x / k + if (x + 1) % k == 0 then 1 else 0
  {
    var d, e := x / k, (x + 1) / k;
    assert x == d * k + x % k && x + 1 == e * k + (x + 1) % k;
    if x % k + 1 < k { QuotientIs(x + 1, k, d); } else { QuotientIs(x + 1, k, d + 1); }
  }

  lemma Multiples(x: nat)
    ensures (x % 400 == 0 ==> x % 100 == 0) && (x % 100 == 0 ==> x % 4 == 0)
  {
    if x % 400 == 0 { QuotientIs(x, 100, 4 * (x / 400)); }
    if x % 100 == 0 { QuotientIs(x, 4, 25 * (x / 100)); }
  }

  lemma OneMoreYear(year: nat)
    ensures LeapYears(year + 1) == LeapYears(year) + if IsLeap(year + 1) then 1 else 0
  {
    OneMore(year, 4);
    OneMore(year, 100);
    OneMore(year, 400);
    Multiples(year + 1);
  }

  lemma {:induction false} LeapYearsGrow(year: nat, years: nat)
    ensures LeapYears(year + years) >= LeapYears(year)
    decreases years
  {
    if years == 0 {
    } else {
      LeapYearsGrow(year, years - 1);
      OneMoreYear(year + years - 1);
    }
  }

  /** The days since 1970 by the rule of the calendar. */
  function DayNumber(d: Date): int
    requires IsDate(d)
  {
    365 * (d.year - 1970) + LeapYears(d.year - 1) - LeapYears(1969)
    + DaysBefore(d.month) + (if d.month > 2 && IsLeap(d.year) then 1 else 0) + d.day - 1
  }

  lemma FirstDay()
    ensures IsDate(DateOf(0)) && DayNumber(DateOf(0)) == 0
  {}

  lemma NextMonth(year: nat, month: nat)
    requires 1 <= month < 12
    ensures DaysBefore(month + 1) + (if month + 1 > 2 && IsLeap(year) then 1 else 0)
      == DaysBefore(month) + (if month > 2 && IsLeap(year) then 1 else 0) + MonthLength(year, month)
  {}

  lemma NextMonthIsDate(d: Date)
    requires IsDate(d) && d.day == MonthLength(d.year, d.month) && d.month < 12
    ensures IsDate(NextDay(d)) && DayNumber(NextDay(d)) == DayNumber(d) + 1
  {
    NextMonth(d.year, d.month);
  }

  lemma NextYearIsDate(d: Date)
    requires IsDate(d) && d.day == MonthLength(d.year, d.month) && d.month == 12
    ensures IsDate(NextDay(d)) && DayNumber(NextDay(d)) == DayNumber(d) + 1
  {
    OneMoreYear(d.year - 1);
  }

  lemma NextDayIsDate(d: Date)
    requires IsDate(d)
    ensures IsDate(NextDay(d)) && DayNumber(NextDay(d)) == DayNumber(d) + 1
  {
    if d.day == MonthLength(d.year, d.month) {
      if d.month < 12 { NextMonthIsDate(d); } else { NextYearIsDate(d); }
    }
  }

  /** The dates are those of the Gregorian calendar. */
  lemma {:induction false} DateOfIsDate(n: nat)
    ensures IsDate(DateOf(n)) && DayNumber(DateOf(n)) == n
  {
    if n == 0 {
      FirstDay();
    } else {
      DateOfIsDate(n - 1);
      NextDayIsDate(DateOf(n - 1));
    }
  }

  predicate DateLess(a: Date, b: Date) {
    a.year < b.year || (a.year == b.year && (a.month < b.month || (a.month == b.month && a.day < b.day)))
  }

  lemma {:induction false} DatesGrow(n: nat, k: nat)
    requires n < k
    ensures DateLess(DateOf(n), DateOf(k))
    decreases k
  {
    if k == n + 1 {
      assert DateOf(k) == NextDay(DateOf(n));
    } else {
      DatesGrow(n, k - 1);
      assert DateLess(DateOf(k - 1), NextDay(DateOf(k - 1)));
    }
  }

  lemma DateOrder(n: nat, k: nat)
    ensures DateLess(DateOf(n), DateOf(k)) <==> n < k
    ensures DateOf(n) == DateOf(k) <==> n == k
  {
    if n < k { DatesGrow(n, k); }
    if k < n { DatesGrow(k, n); }
  }

  // ----- the time of day -----

  const DAY: nat := 86400

  predicate TimeLess(h: nat, m: nat, s: nat, h': nat, m': nat, s': nat) {
    h < h' || (h == h' && (m < m' || (m == m' && s < s')))
  }

  lemma TimeParts(x: nat)
    requires x < DAY
    ensures x == 3600 * (x / 3600) + 60 * (x / 60 % 60) + x % 60
    ensures x / 3600 < 24 && x / 60 % 60 < 60 && x % 60 < 60
  {
    assert x == 60 * (x / 60) + x % 60;
    assert x / 60 == 60 * (x / 60 / 60) + x / 60 % 60;
    assert x / 60 / 60 == x / 3600;
  }

  lemma TimeOrder(x: nat, y: nat)
    requires x < DAY && y < DAY
    ensures TimeLess(x / 3600, x / 60 % 60, x % 60, y / 3600, y / 60 % 60, y % 60) <==> x < y
  {
    TimeParts(x);
    TimeParts(y);
  }

  // ----- moments -----

  function MomentOf(days: nat, time: nat, micro: nat): Moment {
    var d := DateOf(days);
    Moment(d.year, d.month, d.day, time / 3600, time / 60 % 60, time % 60, micro)
  }

  /** The UTC date and time at `t` microseconds after the start of 1970. */
  function UtcAt(t: Instant): Moment {
    if t < 0 then MomentOf(0, 0, 0) else MomentOf(t / SECOND / DAY, t / SECOND % DAY, t % SECOND)
  }

  /** So many days of common years that the year 9999 is not left. */
  const DAYS: nat := 365 * 8030

  lemma YearIsInRange(d: Date)
    requires IsDate(d)
    ensures 365 * (d.year - 1970) <= DayNumber(d)
  {
    LeapYearsGrow(1969, d.year - 1970);
  }

  lemma MomentIsValid(days: nat, time: nat, micro: nat)
    requires days < DAYS && time < DAY && micro < SECOND
    ensures MomentOf(days, time, micro).Valid()
  {
    DateOfIsDate(days);
    TimeParts(time);
    YearIsInRange(DateOf(days));
  }

  lemma LexStep(u: seq<nat>, v: seq<nat>)
    requires |u| == |v| > 0
    ensures Lex(u, v) <==> u[0] < v[0] || (u[0] == v[0] && Lex(u[1..], v[1..]))
  {}

  lemma LexParts(a: Moment, b: Moment)
    ensures Lex(a.Fields(), b.Fields()) <==>
      DateLess(Date(a.year, a.month, a.day), Date(b.year, b.month, b.day))
      || (Date(a.year, a.month, a.day) == Date(b.year, b.month, b.day)
          && TimeLess(a.hour, a.minute, a.second, b.hour, b.minute, b.second))
  {
    var u, v := a.Fields(), b.Fields();
    LexStep(u, v);
    LexStep(u[1..], v[1..]);
    LexStep(u[1..][1..], v[1..][1..]);
    LexStep(u[1..][1..][1..], v[1..][1..][1..]);
    LexStep(u[1..][1..][1..][1..], v[1..][1..][1..][1..]);
    LexStep(u[1..][1..][1..][1..][1..], v[1..][1..][1..][1..][1..]);
  }

  lemma MomentOrder(d: nat, x: nat, m: nat, d': nat, x': nat, m': nat)
    requires x < DAY && x' < DAY
    ensures Lex(MomentOf(d, x, m).Fields(), MomentOf(d', x', m').Fields()) <==> d < d' || (d == d' && x < x')
  {
    LexParts(MomentOf(d, x, m), MomentOf(d', x', m'));
    DateOrder(d, d');
    TimeOrder(x, x');
  }

  lemma SecondsOrder(a: nat, b: nat)
    ensures a / DAY < b / DAY || (a / DAY == b / DAY && a % DAY < b % DAY) <==> a < b
  {
    assert a == DAY * (a / DAY) + a % DAY && b == DAY * (b / DAY) + b % DAY;
  }

  lemma InRange(t: Instant)
    requires 0 <= t < DAYS * DAY * SECOND
    ensures t / SECOND / DAY < DAYS
  {
    assert t / SECOND < DAYS * DAY;
  }

  /** The real calendar is a calendar in the sense of Timestamps, so its texts compare as the scheduler model says. */
  lemma UtcIsCalendar()
    ensures IsCalendar(UtcAt, 0, DAYS * DAY * SECOND)
  {
    forall t | 0 <= t < DAYS * DAY * SECOND ensures UtcAt(t).Valid() && UtcAt(t).micro == t % SECOND {
      InRange(t);
      MomentIsValid(t / SECOND / DAY, t / SECOND % DAY, t % SECOND);
    }
    forall t, u | 0 <= t < DAYS * DAY * SECOND && 0 <= u < DAYS * DAY * SECOND
      ensures Lex(UtcAt(t).Fields(), UtcAt(u).Fields()) <==> t / SECOND < u / SECOND
    {
      MomentOrder(t / SECOND / DAY, t / SECOND % DAY, t % SECOND, u / SECOND / DAY, u / SECOND % DAY, u % SECOND);
      SecondsOrder(t / SECOND, u / SECOND);
    }
  }

  /** For all times from 1970 until far beyond the year 9900: the due query, which compares texts, answers as
      `NotAfter`. */
  lemma TextsCompareAsModelled(a: Instant, b: Instant)
    requires 0 <= a < DAYS * DAY * SECOND && 0 <= b < DAYS * DAY * SECOND
    ensures UtcAt(a).Valid() && UtcAt(b).Valid() && (!Less(Iso(UtcAt(b)), Iso(UtcAt(a))) <==> NotAfter(a, b))
  {
    UtcIsCalendar();
    TextsCompareLikeNotAfter(UtcAt, 0, DAYS * DAY * SECOND, a, b);
  }
}
