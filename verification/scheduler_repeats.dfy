/** A life in which one slot of a task runs again and again: polled on the second, half a second before it is due. */
module SchedulerRepeats {
  import opened Types
  import opened Schedule
  import opened QueueModel
  import opened SchedulerModel

  const SLOT: Instant := SECOND + SECOND / 2

  function TaskRow(next: Option<Instant>): ScheduledTask {
    ScheduledTask("t", "main", "local:main", Interval, "1000", Some(1000), next, Active)
  }

  const DUE := TaskRow(Some(SLOT))

  const RUNNING := FRESH_GROUP.(active := true, isTaskContainer := true, runningTaskId := Some("t"))

  /** Nothing runs, and the task is due by its text. */
  ghost predicate IsIdle(s: Sched) {
    && s.tasks == map["t" := DUE] && s.now == SECOND
    && s.q.background == map[] && s.q.waiting == [] && s.q.activeCount == 0 < s.q.maxConcurrent && !s.q.shuttingDown
    && GroupOf(s.q, "local:main") == FRESH_GROUP
  }

  lemma LifeOn(s: Sched, step: SchedStep, rest: seq<SchedStep>)
    requires CanStep(s, step) && IsLife(TakeStep(s, step), rest)
    ensures IsLife(s, [step] + rest) && Afterwards(s, [step] + rest) == Afterwards(TakeStep(s, step), rest)
  {
    assert ([step] + rest)[1..] == rest;
  }

  lemma PollFindsIt(s: Sched)
    requires IsIdle(s)
    ensures CanStep(s, DoPoll(["t"]))
    ensures var polled := PollTasks(s, ["t"]); var h := s.q.nextHandle;
      && polled == s.(q := polled.q)
      && polled.q.background == map[h := RunTask("local:main", QueuedTask("t", "local:main", DUE), false)]
      && polled.q.waiting == [] && polled.q.activeCount == 1 && polled.q.maxConcurrent == s.q.maxConcurrent
      && !polled.q.shuttingDown
      && GroupOf(polled.q, "local:main") == RUNNING
  {
    assert IsDue(DUE, SECOND);
    assert ["t"][1..] == [];
    assert PollTasks(s, ["t"]) == PollTask(s, "t");
  }

  /** The run that the poll has started begins and ends at once. */
  function Ended(s: Sched, h: nat): Sched
    requires h in s.q.background && s.q.background[h].RunTask?
  {
    FinishTask(s.(q := BeginRun(s.q, h)), h, Recorded(SECOND + 1))
  }

  lemma EndsIdle(s: Sched, h: nat)
    requires s.tasks == map["t" := DUE] && s.now == SECOND
    requires s.q.background == map[h := RunTask("local:main", QueuedTask("t", "local:main", DUE), false)]
    requires s.q.waiting == [] && s.q.activeCount == 1 <= s.q.maxConcurrent && !s.q.shuttingDown
    requires GroupOf(s.q, "local:main") == RUNNING
    ensures IsIdle(Ended(s, h)) && Ended(s, h).runs == s.runs + [Run(DUE, SECOND, Some(SLOT))]
  {
    var begun := BeginRun(s.q, h);
    var settled := SettleTaskRun(begun, h);
    assert settled.background == map[];
    assert GroupOf(settled, "local:main") == FRESH_GROUP;
    assert DrainGroup(settled, "local:main") == Note(Touch(settled, "local:main"), SlotReleased("local:main"));
    assert NextRun(DUE, SECOND, SECOND + 1) == Some(SLOT);
    assert UpdateAfterRun(s.tasks, "t", Some(SLOT)) == s.tasks;
  }

  /** `n` runs of the same slot. */
  function Repeats(n: nat): (r: seq<Run>)
    ensures |r| == n && forall i :: 0 <= i < n ==> r[i] == Run(DUE, SECOND, Some(SLOT))
  {
    seq(n, i => Run(DUE, SECOND, Some(SLOT)))
  }

  /** Polled, begun and ended. */
  lemma OneRound(s: Sched, more: seq<SchedStep>) returns (steps: seq<SchedStep>)
    requires IsIdle(s)
    requires var h, polled := s.q.nextHandle, PollTasks(s, ["t"]);
      h in polled.q.background && polled.q.background[h].RunTask? && IsLife(Ended(polled, h), more)
    ensures IsLife(s, steps)
    ensures Afterwards(s, steps) == Afterwards(Ended(PollTasks(s, ["t"]), s.q.nextHandle), more)
  {
    var h, polled := s.q.nextHandle, PollTasks(s, ["t"]);
    PollFindsIt(s);
    var end := [DoEndTask(h, Recorded(SECOND + 1))] + more;
    LifeOn(polled.(q := BeginRun(polled.q, h)), DoEndTask(h, Recorded(SECOND + 1)), more);
    LifeOn(polled, DoOther(DoBegin(h)), end);
    LifeOn(s, DoPoll(["t"]), [DoOther(DoBegin(h))] + end);
    steps := [DoPoll(["t"])] + ([DoOther(DoBegin(h))] + end);
  }

  lemma {:induction false} IdleRepeats(s: Sched, n: nat) returns (steps: seq<SchedStep>)
    requires IsIdle(s)
    ensures IsLife(s, steps) && Afterwards(s, steps).runs == s.runs + Repeats(n)
    decreases n
  {
    if n == 0 {
      steps := [];
    } else {
      var h, polled := s.q.nextHandle, PollTasks(s, ["t"]);
      PollFindsIt(s);
      EndsIdle(polled, h);
      var more := IdleRepeats(Ended(polled, h), n - 1);
      steps := OneRound(s, more);
      assert [Run(DUE, SECOND, Some(SLOT))] + Repeats(n - 1) == Repeats(n);
    }
  }

  /** For every n there is a life of the process in which one slot of an interval task is recorded n times. */
  lemma SlotCanRepeat(r: int, fires: Firings, n: nat) returns (s0: Sched, steps: seq<SchedStep>)
    ensures IsStart(s0) && IsLife(s0, steps) && Afterwards(s0, steps).runs == Repeats(n)
  {
    s0 := Sched(Init(1, r), map[], SECOND / 2, fires, {}, []);
    var s1 := ScheduleTask(s0, TaskRow(None), None, SECOND);
    var s2 := s1.(now := SECOND);
    assert IsIdle(s2);
    var more := IdleRepeats(s2, n);
    LifeOn(s1, DoTick(SECOND), more);
    LifeOn(s0, DoSchedule(TaskRow(None), None, SECOND), [DoTick(SECOND)] + more);
    steps := [DoSchedule(TaskRow(None), None, SECOND)] + ([DoTick(SECOND)] + more);
  }
}
