/** When a task runs next (nanoclaw/task_scheduler.py, `compute_next_run`). Times are in microseconds. */
module Schedule {
  import opened Types

  const MINUTE: Instant := 60 * 1000 * 1000

  function Micros(ms: int): int { ms * 1000 }

  /** The clock by which a cron expression is read. */
  datatype Zone = UtcTime | LocalTime

  /** When an expression fires, by a clock. */
  type Firings = (Zone, string, Instant) -> bool

  ghost predicate IsNextFiring(fires: Firings, zone: Zone, value: string, now: Instant, next: Instant) {
    now < next && fires(zone, value, next) && forall t :: now < t < next ==> !fires(zone, value, t)
  }

  /** The catch-up loop, one interval at a time. */
  function CatchUp(scheduled: Instant, now: Instant, interval: int): Instant
    requires interval > 0
    decreases now - scheduled
  {
    if scheduled > now then scheduled else CatchUp(scheduled + interval, now, interval)
  }

  /** `cronNext` is what the cron library answers. */
  function NextRun(task: ScheduledTask, now: Instant, cronNext: Instant): Option<Instant> {
    match task.scheduleType
    case Once | OtherSchedule => None
    case Cron => Some(cronNext)
    case Interval =>
      if task.intervalMs.None? || task.intervalMs.value <= 0 then Some(now + MINUTE)
      else if task.nextRun.None? then Some(now)
      else Some(CatchUp(task.nextRun.value, now, Micros(task.intervalMs.value)))
  }

  method ComputeNextRun(task: ScheduledTask, now: Instant, cronNext: Instant) returns (next: Option<Instant>)
    ensures next == NextRun(task, now, cronNext)
  {
    if task.scheduleType == Once {
      return None;
    }
    if task.scheduleType == Cron {
      return Some(cronNext);
    }
    if task.scheduleType == Interval {
      if task.intervalMs.None? || task.intervalMs.value <= 0 {
        return Some(now + MINUTE);
      }
      if task.nextRun.None? {
        return Some(now);
      }
      var interval := Micros(task.intervalMs.value);
      var nextTime := task.nextRun.value;
      while nextTime <= now
        invariant CatchUp(nextTime, now, interval) == CatchUp(task.nextRun.value, now, interval)
        decreases now - nextTime
      {
        nextTime := nextTime + interval;
      }
      return Some(nextTime);
    }
    return None;
  }

  // ----- times as text -----

  const SECOND: Instant := 1000 * 1000

  /** In the same second, and only one of the two prints a fraction. */
  predicate IsMixed(a: Instant, b: Instant) { a / SECOND == b / SECOND && (a % SECOND == 0) != (b % SECOND == 0) }

  /** `a <= b` as the database compares the stored texts; Timestamps proves that the texts compare like this. */
  predicate NotAfter(a: Instant, b: Instant) { if IsMixed(a, b) then a % SECOND != 0 else a <= b }

  lemma NotAfterIsTotal(a: Instant, b: Instant)
    ensures NotAfter(a, b) || NotAfter(b, a)
  {}

  lemma NotAfterIsTransitive(a: Instant, b: Instant, c: Instant)
    requires NotAfter(a, b) && NotAfter(b, c)
    ensures NotAfter(a, c)
  {}

  // ----- closed arithmetic -----

  lemma MulLess(a: int, b: int, i: int)
    requires a < b && i > 0
    ensures a * i + i <= b * i
  {
    var d := b - a - 1;
    assert b * i == a * i + i + d * i;
    assert d * i >= 0;
  }

  lemma QuotientIs(x: int, i: int, d: int)
    requires i > 0 && d * i <= x < d * i + i
    ensures x / i == d && x % i == x - d * i
  {
    var e := x / i;
    assert x == e * i + x % i;
    if e < d { MulLess(e, d, i); }
    if d < e { MulLess(d, e, i); }
  }

  lemma AddOne(x: int, i: int)
    requires i > 0
    ensures (x + i) / i == x / i + 1 && (x + i) % i == x % i
  {
    var d := x / i;
    assert x == d * i + x % i;
    assert (d + 1) * i == d * i + i;
    QuotientIs(x + i, i, d + 1);
  }

  lemma {:induction false} CatchUpClosed(s: Instant, now: Instant, i: int)
    requires i > 0
    ensures CatchUp(s, now, i) == if s > now then s else s + ((now - s) / i + 1) * i
    decreases now - s
  {
    if s > now {
    } else {
      CatchUpClosed(s + i, now, i);
      if s + i <= now {
        var d := (now - s - i) / i;
        AddOne(now - s - i, i);
        assert (d + 1 + 1) * i == i + (d + 1) * i;
      } else {
        QuotientIs(now - s, i, 0);
      }
    }
  }

  /** The slot after a late run: the first one of the progression that lies in the future, at most one interval away. */
  lemma {:induction false} CatchUpIsLeast(s: Instant, now: Instant, i: int, k: nat)
    requires i > 0 && s <= now && s + k * i > now
    ensures now < CatchUp(s, now, i) <= now + i
    ensures CatchUp(s, now, i) <= s + k * i
    ensures (CatchUp(s, now, i) - s) % i == 0
    decreases now - s
  {
    if s + i > now {
      assert k != 0;
      MulLess(0, k, i);
      QuotientIs(i, i, 1);
    } else {
      assert k * i == (if k < 1 then 0 else i + (k - 1) * i);
      CatchUpIsLeast(s + i, now, i, k - 1);
      AddOne(CatchUp(s, now, i) - s - i, i);
    }
  }

  /** The schedule is an interval that `compute_next_run` accepts. */
  predicate IsPeriodic(task: ScheduledTask) {
    task.scheduleType == Interval && task.intervalMs.Some? && task.intervalMs.value > 0
  }

  /** What a run that ended at `at` finds as the next slot: none for a task with a single run; for a cron task the next
      firing by the local clock; one minute later where the interval is unusable; at once where it has no slot of its
      own; else the first time of the grid of that slot, from it on, that lies ahead. */
  ghost predicate IsNextSlot(fires: Firings, t: ScheduledTask, at: Instant, next: Option<Instant>) {
    match t.scheduleType
    case Once | OtherSchedule => next == None
    case Cron => next.Some? && IsNextFiring(fires, LocalTime, t.scheduleValue, at, next.value)
    case Interval =>
      if !IsPeriodic(t) then next == Some(at + 60 * 1000 * 1000)
      else if t.nextRun.None? then next == Some(at)
      else
        var slot, i := t.nextRun.value, t.intervalMs.value * 1000;
        && next.Some? && slot <= next.value && at < next.value && (next.value - slot) % i == 0
        && (next.value == slot || next.value - i <= at)
  }

  lemma CatchUpIsNext(s: Instant, now: Instant, i: int)
    requires i > 0
    ensures var next := CatchUp(s, now, i);
      now < next && s <= next && (next - s) % i == 0 && (next == s || next - i <= now)
  {
    if s <= now {
      var k := now - s + 1;
      assert s + k * i > now by { assert k * i >= k; }
      CatchUpIsLeast(s, now, i, k);
    }
  }

  lemma NextRunIsNextSlot(fires: Firings, task: ScheduledTask, now: Instant, cronNext: Instant)
    requires task.scheduleType == Cron ==> IsNextFiring(fires, LocalTime, task.scheduleValue, now, cronNext)
    ensures IsNextSlot(fires, task, now, NextRun(task, now, cronNext))
  {
    if IsPeriodic(task) && task.nextRun.Some? {
      CatchUpIsNext(task.nextRun.value, now, Micros(task.intervalMs.value));
    }
  }

  lemma SmallMultiple(d: int, i: int)
    requires 0 <= d < i && d % i == 0
    ensures d == 0
  {
    QuotientIs(d, i, 0);
  }

  /** The same slot comes next exactly if it still lies ahead. */
  lemma SlotRepeatsWhenAhead(fires: Firings, task: ScheduledTask, at: Instant, next: Option<Instant>)
    requires IsPeriodic(task) && task.nextRun.Some? && IsNextSlot(fires, task, at, next)
    ensures next == task.nextRun <==> at < task.nextRun.value
  {
    if at < task.nextRun.value && next != task.nextRun {
      SmallMultiple(next.value - task.nextRun.value, task.intervalMs.value * 1000);
    }
  }

  /** A run that ends before its own slot has come gets the same slot again. */
  lemma EarlyRunRepeatsSlot(task: ScheduledTask, now: Instant, cronNext: Instant)
    requires IsPeriodic(task) && task.nextRun.Some?
    ensures NextRun(task, now, cronNext) == task.nextRun <==> now < task.nextRun.value
  {
    CatchUpIsNext(task.nextRun.value, now, Micros(task.intervalMs.value));
  }
}
