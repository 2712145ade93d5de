/** Each slot of a task runs at most once, and a finished task stays finished: over every life of the task table,
    restarts of the process included. */
module SchedulerTheorems {
  import opened Types
  import opened Schedule
  import opened QueueModel
  import opened QueueInvariants
  import opened QueueTasks
  import opened SchedulerModel

  // ----- the invariant -----

  /** The columns that no statement ever updates. */
  predicate SameTask(a: ScheduledTask, b: ScheduledTask) {
    && a.id == b.id && a.groupFolder == b.groupFolder && a.chatJid == b.chatJid && a.scheduleType == b.scheduleType
    && a.scheduleValue == b.scheduleValue && a.intervalMs == b.intervalMs
  }

  predicate HasOneRun(t: ScheduledTask) { t.scheduleType == Once || t.scheduleType == OtherSchedule }

  /** `t` holds a slot of the same task that lies after the end of the run `r`, on the same grid if it is periodic. */
  predicate Precedes(r: Run, t: ScheduledTask) {
    && SameTask(r.task, t) && !HasOneRun(t)
    && r.task.nextRun.Some? && t.nextRun.Some? && r.at < t.nextRun.value
    && (IsPeriodic(t) ==> (t.nextRun.value - r.task.nextRun.value) % Micros(t.intervalMs.value) == 0)
  }

  ghost predicate RowsOk(s: Sched) { IsTable(s.tasks, s.used) }

  /** A snapshot in the queue holds a slot whose second has come, and it is the slot of its row if that still exists. */
  ghost predicate SnapshotOk(s: Sched, t: QueuedTask) {
    && t.id == t.fn.id && t.groupJid == t.fn.chatJid && t.id in s.used
    && t.fn.nextRun.Some? && t.fn.nextRun.value / SECOND <= s.now / SECOND
    && (t.id in s.tasks ==> SameTask(s.tasks[t.id], t.fn) && s.tasks[t.id].nextRun == t.fn.nextRun)
  }

  ghost predicate SnapshotsOk(s: Sched) {
    && (forall t :: InQueue(s.q, t) ==> SnapshotOk(s, t))
    && (forall t, u :: InQueue(s.q, t) && InQueue(s.q, u) && t.id == u.id ==> SameTask(t.fn, u.fn))
  }

  /** A completed run computed its next slot as the program does, and ended in the second of its slot or later. */
  ghost predicate RunOk(s: Sched, r: Run) {
    && r.task.id in s.used && r.at <= s.now && r.task.nextRun.Some? && r.task.nextRun.value / SECOND <= r.at / SECOND
    && IsNextSlot(s.fires, r.task, r.at, r.next)
  }

  /** No later run of the same task. */
  ghost predicate IsLast(runs: seq<Run>, i: nat)
    requires i < |runs|
  {
    forall k :: i < k < |runs| ==> runs[k].task.id != runs[i].task.id
  }

  /** Every completed run precedes whatever of its task is in the table, queued, running or completed after it. */
  ghost predicate RunsPrecede(s: Sched) {
    && (forall i, t :: 0 <= i < |s.runs| && InQueue(s.q, t) && s.runs[i].task.id == t.id ==> Precedes(s.runs[i], t.fn))
    && (forall i, id :: 0 <= i < |s.runs| && id in s.tasks && s.runs[i].task.id == id && s.tasks[id].nextRun.Some? ==>
          Precedes(s.runs[i], s.tasks[id]))
    && (forall i, k :: 0 <= i < k < |s.runs| && s.runs[i].task.id == s.runs[k].task.id ==>
          Precedes(s.runs[i], s.runs[k].task))
  }

  /** Run `k` is the next of its task after run `i`. */
  ghost predicate AreConsecutive(runs: seq<Run>, i: nat, k: nat)
    requires i < k < |runs|
  {
    runs[i].task.id == runs[k].task.id && forall x :: i < x < k ==> runs[x].task.id != runs[i].task.id
  }

  /** The slot that the last run of a task computed is the one in the table, and in the snapshot taken since. */
  ghost predicate SlotsFollow(s: Sched) {
    && (forall i :: 0 <= i < |s.runs| && IsLast(s.runs, i) && s.runs[i].task.id in s.tasks ==>
          s.tasks[s.runs[i].task.id].nextRun == s.runs[i].next)
    && (forall i, t :: 0 <= i < |s.runs| && IsLast(s.runs, i) && InQueue(s.q, t) && t.id == s.runs[i].task.id ==>
          t.fn.nextRun == s.runs[i].next)
    && (forall i, k :: 0 <= i < k < |s.runs| && AreConsecutive(s.runs, i, k) ==>
          s.runs[k].task.nextRun == s.runs[i].next)
  }

  ghost predicate RunsOk(s: Sched) {
    (forall i :: 0 <= i < |s.runs| ==> RunOk(s, s.runs[i])) && RunsPrecede(s) && SlotsFollow(s)
  }

  ghost predicate Records(s: Sched) { RowsOk(s) && SnapshotsOk(s) && RunsOk(s) }

  ghost predicate SchedInv(s: Sched) { Inv(s.q) && Records(s) }

  // ----- steps -----

  lemma OtherKeeps(s: Sched, q': Queue)
    requires Records(s) && OnlyLoses(s.q, q')
    ensures Records(s.(q := q'))
  {}

  lemma TickKeeps(s: Sched, now: Instant)
    requires Records(s) && s.now <= now
    ensures Records(s.(now := now))
  {}

  lemma ScheduleKeeps(s: Sched, t: ScheduledTask, once: Option<Instant>, cronNext: Instant)
    requires Records(s) && t.id !in s.used
    ensures Records(ScheduleTask(s, t, once, cronNext))
  {}

  /** Rows may be gone or have another status; nothing else about them has changed. */
  ghost predicate KeepsSlots(ts: Tasks, ts': Tasks) {
    forall id :: id in ts' ==> id in ts && SameTask(ts'[id], ts[id]) && ts'[id].nextRun == ts[id].nextRun
  }

  lemma SlotsKeepPreceding(s: Sched, ts: Tasks)
    requires RunsPrecede(s) && KeepsSlots(s.tasks, ts)
    ensures RunsPrecede(s.(tasks := ts))
  {
    forall i, id | 0 <= i < |s.runs| && id in ts && s.runs[i].task.id == id && ts[id].nextRun.Some?
      ensures Precedes(s.runs[i], ts[id])
    {
      assert Precedes(s.runs[i], s.tasks[id]);
    }
  }

  lemma SlotsKeepFollowing(s: Sched, ts: Tasks)
    requires SlotsFollow(s) && KeepsSlots(s.tasks, ts)
    ensures SlotsFollow(s.(tasks := ts))
  {}

  lemma SlotsKeepRuns(s: Sched, ts: Tasks)
    requires RunsOk(s) && KeepsSlots(s.tasks, ts)
    ensures RunsOk(s.(tasks := ts))
  {
    SlotsKeepPreceding(s, ts);
    SlotsKeepFollowing(s, ts);
    forall i | 0 <= i < |s.runs| ensures RunOk(s.(tasks := ts), s.runs[i]) { assert RunOk(s, s.runs[i]); }
  }

  lemma SlotsKeepSnapshots(s: Sched, ts: Tasks)
    requires SnapshotsOk(s) && KeepsSlots(s.tasks, ts)
    ensures SnapshotsOk(s.(tasks := ts))
  {
    forall t | InQueue(s.q, t) ensures SnapshotOk(s.(tasks := ts), t) { assert SnapshotOk(s, t); }
  }

  lemma StatusKeeps(s: Sched, id: string, status: TaskStatus)
    requires Records(s) && status != Completed
    ensures Records(s.(tasks := SetStatus(s.tasks, id, status)))
  {
    SlotsKeepRuns(s, SetStatus(s.tasks, id, status));
    SlotsKeepSnapshots(s, SetStatus(s.tasks, id, status));
  }

  lemma CancelKeeps(s: Sched, id: string)
    requires Records(s)
    ensures Records(s.(tasks := s.tasks - {id}))
  {
    SlotsKeepRuns(s, s.tasks - {id});
    SlotsKeepSnapshots(s, s.tasks - {id});
  }

  /** The queue may have taken up a snapshot of row `id`. */
  ghost predicate MayAdd(s: Sched, s': Sched, id: string) {
    && id in s.tasks && s' == s.(q := s'.q)
    && forall t :: InQueue(s'.q, t) ==> InQueue(s.q, t) || t == QueuedTask(id, s.tasks[id].chatJid, s.tasks[id])
  }

  lemma AddKeepsSnapshots(s: Sched, s': Sched, id: string)
    requires RowsOk(s) && SnapshotsOk(s) && MayAdd(s, s', id) && IsDue(s.tasks[id], s.now)
    ensures SnapshotsOk(s')
  {
    forall t | InQueue(s'.q, t) ensures SnapshotOk(s', t) { assert InQueue(s.q, t) ==> SnapshotOk(s, t); }
  }

  lemma AddKeepsRuns(s: Sched, s': Sched, id: string)
    requires RowsOk(s) && RunsOk(s) && MayAdd(s, s', id) && IsDue(s.tasks[id], s.now)
    ensures RunsOk(s')
  {
    assert RunsPrecede(s') && SlotsFollow(s');
    forall i | 0 <= i < |s.runs| ensures RunOk(s', s.runs[i]) { assert RunOk(s, s.runs[i]); }
  }

  lemma PollTaskKeeps(s: Sched, id: string)
    requires Records(s) && (id in s.tasks ==> IsDue(s.tasks[id], s.now) || s.tasks[id].status != Active)
    ensures Records(PollTask(s, id))
  {
    if id in s.tasks && s.tasks[id].status == Active {
      EnqueueTaskAdds(s.q, s.tasks[id].chatJid, id, s.tasks[id]);
      AddKeepsSnapshots(s, PollTask(s, id), id);
      AddKeepsRuns(s, PollTask(s, id), id);
    }
  }

  lemma {:induction false} PollKeeps(s: Sched, due: seq<string>)
    requires SchedInv(s) && forall id :: id in due ==> id in s.tasks && IsDue(s.tasks[id], s.now)
    ensures SchedInv(PollTasks(s, due))
    ensures PollTasks(s, due) == s.(q := PollTasks(s, due).q)
    decreases |due|
  {
    if due == [] {
    } else {
      assert due[0] in due;
      PollTaskKeeps(s, due[0]);
      EnqueueTaskKeeps(s.q, s.tasks[due[0]].chatJid, due[0], s.tasks[due[0]]);
      PollKeeps(PollTask(s, due[0]), due[1..]);
    }
  }

  lemma RunningSnapshot(s: Sched, h: nat)
    requires SchedInv(s) && h in s.q.background && s.q.background[h].RunTask?
    ensures var t := s.q.background[h].task; InQueue(s.q, t) && t.groupJid == s.q.background[h].jid
  {
    assert IsRunning(s.q, h, s.q.background[h].task);
    assert LiveRun(s.q, h, s.q.background[h].jid);
  }

  /** The run that ends was the only snapshot of its task. */
  lemma NoOtherSnapshot(s: Sched, h: nat, t: QueuedTask)
    requires SchedInv(s) && h in s.q.background && s.q.background[h].RunTask?
    requires InQueue(FinishTaskRun(s.q, h), t)
    ensures InQueue(s.q, t) && t.id != s.q.background[h].task.id
  {
    RunningSnapshot(s, h);
    FinishTaskIsLast(s.q, h, t);
  }

  lemma SumOfMultiples(x: int, y: int, i: int)
    requires i > 0 && x % i == 0 && y % i == 0
    ensures (x + y) % i == 0
  {
    assert x == (x / i) * i && y == (y / i) * i;
    assert (x / i + y / i) * i == (x / i) * i + (y / i) * i;
    QuotientIs(x + y, i, x / i + y / i);
  }

  /** The row after the run `t` is preceded by that run, and by every run that preceded `t`. */
  lemma NextIsPreceded(fires: Firings, t: ScheduledTask, row: ScheduledTask, now: Instant, r: Run)
    requires t.nextRun.Some? && SameTask(row, t)
    requires IsNextSlot(fires, t, now, row.nextRun) && row.nextRun.Some?
    requires r == Run(t, now, row.nextRun) || (Precedes(r, t) && r.at <= now)
    ensures Precedes(r, row)
  {
    if IsPeriodic(row) && r.task != t {
      var step, before := row.nextRun.value - t.nextRun.value, t.nextRun.value - r.task.nextRun.value;
      SumOfMultiples(step, before, Micros(t.intervalMs.value));
    }
  }

  /** The state after the run of the snapshot `u` is recorded, and the queue has gone on. */
  ghost predicate IsRecorded(s: Sched, s': Sched, u: QueuedTask, cronNext: Instant) {
    var next := NextRun(u.fn, s.now, cronNext);
    && s' == s.(q := s'.q, runs := s.runs + [Run(u.fn, s.now, next)], tasks := UpdateAfterRun(s.tasks, u.fn.id, next))
    && InQueue(s.q, u) && IsAnswer(s, u.fn, cronNext)
    && forall v :: InQueue(s'.q, v) ==> InQueue(s.q, v) && v.id != u.id
  }

  lemma RecordKeepsPreceding(s: Sched, s': Sched, u: QueuedTask, cronNext: Instant)
    requires RowsOk(s) && SnapshotsOk(s) && RunsPrecede(s) && IsRecorded(s, s', u, cronNext)
    requires forall i :: 0 <= i < |s.runs| ==> RunOk(s, s.runs[i])
    ensures RunsPrecede(s')
  {
    var id := u.id;
    assert SnapshotOk(s, u);
    NextRunIsNextSlot(s.fires, u.fn, s.now, cronNext);
    if id in s.tasks && s'.tasks[id].nextRun.Some? {
      forall i | 0 <= i < |s'.runs| && s'.runs[i].task.id == id ensures Precedes(s'.runs[i], s'.tasks[id]) {
        assert i < |s.runs| ==> RunOk(s, s.runs[i]) && Precedes(s.runs[i], u.fn);
        NextIsPreceded(s.fires, u.fn, s'.tasks[id], s.now, s'.runs[i]);
      }
    }
  }

  lemma RecordKeepsSlots(s: Sched, s': Sched, u: QueuedTask, cronNext: Instant)
    requires SnapshotsOk(s) && SlotsFollow(s) && IsRecorded(s, s', u, cronNext)
    ensures SlotsFollow(s')
  {
    assert SnapshotOk(s, u);
    var n := |s.runs|;
    forall i | 0 <= i < n && AreConsecutive(s'.runs, i, n) ensures u.fn.nextRun == s.runs[i].next {
      assert IsLast(s.runs, i) by { assert forall k :: i < k < n ==> s'.runs[k] == s.runs[k]; }
    }
    forall i | 0 <= i < n && IsLast(s'.runs, i) ensures IsLast(s.runs, i) && s.runs[i].task.id != u.id {
      assert forall k :: i < k < n ==> s'.runs[k] == s.runs[k];
      assert s'.runs[n].task.id == u.id;
    }
    forall i, k | 0 <= i < k < n && AreConsecutive(s'.runs, i, k) ensures AreConsecutive(s.runs, i, k) {
      assert forall x :: i < x < k ==> s'.runs[x] == s.runs[x];
    }
  }

  lemma RecordKeepsRest(s: Sched, s': Sched, u: QueuedTask, cronNext: Instant)
    requires RowsOk(s) && SnapshotsOk(s) && IsRecorded(s, s', u, cronNext)
    requires forall i :: 0 <= i < |s.runs| ==> RunOk(s, s.runs[i])
    ensures RowsOk(s') && SnapshotsOk(s') && forall i :: 0 <= i < |s'.runs| ==> RunOk(s', s'.runs[i])
  {
    assert SnapshotOk(s, u);
    NextRunIsNextSlot(s.fires, u.fn, s.now, cronNext);
    forall i | 0 <= i < |s.runs| ensures RunOk(s', s.runs[i]) { assert RunOk(s, s.runs[i]); }
  }

  lemma RecordedKeeps(s: Sched, h: nat, cronNext: Instant)
    requires SchedInv(s) && h in s.q.background && s.q.background[h].RunTask?
    requires IsAnswer(s, s.q.background[h].task.fn, cronNext)
    ensures Records(FinishTask(s, h, Recorded(cronNext)))
  {
    var u, s' := s.q.background[h].task, FinishTask(s, h, Recorded(cronNext));
    RunningSnapshot(s, h);
    forall v | InQueue(s'.q, v) ensures InQueue(s.q, v) && v.id != u.id { NoOtherSnapshot(s, h, v); }
    assert IsRecorded(s, s', u, cronNext);
    RecordKeepsPreceding(s, s', u, cronNext);
    RecordKeepsSlots(s, s', u, cronNext);
    RecordKeepsRest(s, s', u, cronNext);
  }

  lemma EndTaskKeeps(s: Sched, h: nat, e: TaskEnding)
    requires SchedInv(s) && CanStep(s, DoEndTask(h, e))
    ensures SchedInv(FinishTask(s, h, e))
  {
    FinishTaskKeeps(s.q, h);
    RunningSnapshot(s, h);
    match e
    case Recorded(cronNext) => RecordedKeeps(s, h, cronNext);
    case BadFolder =>
      var t := s.q.background[h].task.fn;
      StatusKeeps(s, t.id, Paused);
      forall u | InQueue(FinishTaskRun(s.q, h), u) ensures InQueue(s.q, u) { NoOtherSnapshot(s, h, u); }
      OtherKeeps(s.(tasks := SetStatus(s.tasks, t.id, Paused)), FinishTaskRun(s.q, h));
    case BrokenOff =>
      forall u | InQueue(FinishTaskRun(s.q, h), u) ensures InQueue(s.q, u) { NoOtherSnapshot(s, h, u); }
      OtherKeeps(s, FinishTaskRun(s.q, h));
  }

  lemma NothingQueuedAtStart(c: int, r: int)
    ensures forall t :: !InQueue(Init(c, r), t)
  {}

  /** A fresh queue holds no snapshot: what the table and the recorded runs satisfy stays. */
  lemma RestartKeeps(s: Sched, c: int, r: int)
    requires SchedInv(s)
    ensures SchedInv(Restart(s, c, r))
  {
    InitKeeps(c, r);
    NothingQueuedAtStart(c, r);
    OtherKeeps(s, Init(c, r));
  }

  lemma SchedStepKeeps(s: Sched, step: SchedStep)
    requires SchedInv(s) && CanStep(s, step)
    ensures SchedInv(TakeStep(s, step))
  {
    match step
    case DoTick(now) => TickKeeps(s, now);
    case DoSchedule(t, once, cronNext) => ScheduleKeeps(s, t, once, cronNext);
    case DoPause(id) => StatusKeeps(s, id, Paused);
    case DoResume(id) => StatusKeeps(s, id, Active);
    case DoCancel(id) => CancelKeeps(s, id);
    case DoPoll(due) => PollKeeps(s, due);
    case DoEndTask(h, e) => EndTaskKeeps(s, h, e);
    case DoOther(queueStep) =>
      StepKeeps(s.q, queueStep);
      StepLoses(s.q, queueStep);
      OtherKeeps(s, Apply(s.q, queueStep));
    case DoRestart(c, r) => RestartKeeps(s, c, r);
  }

  lemma {:induction false} LifeKeeps(s: Sched, steps: seq<SchedStep>)
    requires SchedInv(s) && IsLife(s, steps)
    ensures SchedInv(Afterwards(s, steps))
    decreases |steps|
  {
    if steps == [] {
    } else {
      SchedStepKeeps(s, steps[0]);
      LifeKeeps(TakeStep(s, steps[0]), steps[1..]);
    }
  }

  lemma StartKeeps(s: Sched)
    requires IsStart(s)
    ensures SchedInv(s)
  {
    InitKeeps(s.q.maxConcurrent, s.q.maxRetries);
    NothingQueuedAtStart(s.q.maxConcurrent, s.q.maxRetries);
  }

  lemma Reached(s0: Sched, steps: seq<SchedStep>)
    requires IsStart(s0) && IsLife(s0, steps)
    ensures SchedInv(Afterwards(s0, steps))
  {
    StartKeeps(s0);
    LifeKeeps(s0, steps);
  }

  // ----- theorems -----

  /** Over every life, from any table and across restarts: a task with a single run completes at most one; of any other
      task, the slot of a later run lies after the end of every earlier one, on the same grid if the task is periodic.
      So slots strictly increase wherever the earlier run did not end before its own slot had come. */
  lemma EachSlotRunsAtMostOnce(s0: Sched, steps: seq<SchedStep>, i: nat, k: nat)
    requires IsStart(s0) && IsLife(s0, steps)
    requires var runs := Afterwards(s0, steps).runs;
      i < k < |runs| && runs[i].task.id == runs[k].task.id
    ensures var runs := Afterwards(s0, steps).runs;
      && Precedes(runs[i], runs[k].task)
      && (runs[i].task.nextRun.value <= runs[i].at ==> runs[i].task.nextRun.value < runs[k].task.nextRun.value)
  {
    Reached(s0, steps);
  }

  /** A periodic slot runs twice exactly when its first run ends before the slot; and that run then began and ended
      within the very second of the slot, whose text has a fraction. */
  lemma SlotRunsTwiceExactlyWhenEarly(s0: Sched, steps: seq<SchedStep>, i: nat, k: nat)
    requires IsStart(s0) && IsLife(s0, steps)
    requires var runs := Afterwards(s0, steps).runs;
      i < k < |runs| && AreConsecutive(runs, i, k) && IsPeriodic(runs[i].task)
    ensures var runs := Afterwards(s0, steps).runs;
      && runs[i].task.nextRun.Some?
      && (runs[k].task.nextRun == runs[i].task.nextRun <==> runs[i].at < runs[i].task.nextRun.value)
      && (runs[i].at < runs[i].task.nextRun.value ==> runs[i].at / SECOND == runs[i].task.nextRun.value / SECOND)
  {
    Reached(s0, steps);
    var s := Afterwards(s0, steps);
    assert RunOk(s, s.runs[i]);
    SlotRepeatsWhenAhead(s.fires, s.runs[i].task, s.runs[i].at, s.runs[i].next);
  }

  /** Whenever a poll takes a periodic slot too early and its run ends at once, the slot is due again. */
  lemma EarlyRunLeavesSlotDue(ts: Tasks, id: string, now: Instant, cronNext: Instant)
    requires id in ts && IsDue(ts[id], now) && IsPeriodic(ts[id]) && now < ts[id].nextRun.value
    ensures var ts' := UpdateAfterRun(ts, id, NextRun(ts[id], now, cronNext)); ts' == ts && IsDue(ts'[id], now)
  {
    EarlyRunRepeatsSlot(ts[id], now, cronNext);
  }

  /** The task has no next run: it is not due, and nothing of it is queued or running. */
  ghost predicate IsFinished(s: Sched, id: string) {
    id in s.used && (id in s.tasks ==> s.tasks[id].nextRun == None) && forall t :: InQueue(s.q, t) ==> t.id != id
  }

  lemma NullMeansFinished(s: Sched, id: string)
    requires SchedInv(s) && id in s.tasks && s.tasks[id].nextRun == None
    ensures IsFinished(s, id) && !IsDue(s.tasks[id], s.now)
  {
    forall t | InQueue(s.q, t) ensures t.id != id { assert SnapshotOk(s, t); }
  }

  lemma {:induction false} PollSkipsFinished(s: Sched, due: seq<string>, id: string)
    requires SchedInv(s) && IsFinished(s, id) && forall x :: x in due ==> x in s.tasks && IsDue(s.tasks[x], s.now)
    ensures IsFinished(PollTasks(s, due), id)
    decreases |due|
  {
    if due == [] {
    } else {
      var x := due[0];
      assert x in due && x != id;
      var next := PollTask(s, x);
      EnqueueTaskAdds(s.q, s.tasks[x].chatJid, x, s.tasks[x]);
      PollTaskKeeps(s, x);
      EnqueueTaskKeeps(s.q, s.tasks[x].chatJid, x, s.tasks[x]);
      PollSkipsFinished(next, due[1..], id);
    }
  }

  lemma RunningIsNotFinished(s: Sched, h: nat, id: string)
    requires SchedInv(s) && h in s.q.background && s.q.background[h].RunTask? && IsFinished(s, id)
    ensures s.q.background[h].task.fn.id == s.q.background[h].task.id != id
  {
    RunningSnapshot(s, h);
    assert SnapshotOk(s, s.q.background[h].task);
  }

  lemma EndLeavesFinished(s: Sched, h: nat, e: TaskEnding, id: string)
    requires SchedInv(s) && CanStep(s, DoEndTask(h, e)) && IsFinished(s, id)
    ensures IsFinished(FinishTask(s, h, e), id)
  {
    RunningIsNotFinished(s, h, id);
    forall t | InQueue(FinishTaskRun(s.q, h), t) ensures t.id != id { NoOtherSnapshot(s, h, t); }
  }

  /** No step makes a finished task due or starts it, whatever is polled, paused, resumed or completed. */
  lemma FinishedIsFinal(s: Sched, step: SchedStep, id: string)
    requires SchedInv(s) && CanStep(s, step) && IsFinished(s, id)
    ensures IsFinished(TakeStep(s, step), id)
  {
    match step
    case DoPoll(due) => PollSkipsFinished(s, due, id);
    case DoEndTask(h, e) => EndLeavesFinished(s, h, e, id);
    case DoOther(queueStep) => StepLoses(s.q, queueStep);
    case DoRestart(c, r) => NothingQueuedAtStart(c, r);
    case _ =>
  }

  lemma RunsOnlyGrow(s: Sched, step: SchedStep, id: string)
    requires SchedInv(s) && CanStep(s, step) && IsFinished(s, id)
    ensures s.runs <= TakeStep(s, step).runs
    ensures forall i :: |s.runs| <= i < |TakeStep(s, step).runs| ==> TakeStep(s, step).runs[i].task.id != id
  {
    match step
    case DoPoll(due) => PollKeeps(s, due);
    case DoEndTask(h, e) => RunningIsNotFinished(s, h, id);
    case _ =>
  }

  /** From the moment a task has no next run on, no run of it completes any more. */
  lemma {:induction false} FinishedForever(s: Sched, steps: seq<SchedStep>, id: string)
    requires SchedInv(s) && IsLife(s, steps) && IsFinished(s, id)
    ensures IsFinished(Afterwards(s, steps), id)
    ensures s.runs <= Afterwards(s, steps).runs
    ensures forall i :: |s.runs| <= i < |Afterwards(s, steps).runs| ==> Afterwards(s, steps).runs[i].task.id != id
    decreases |steps|
  {
    if steps == [] {
    } else {
      var next := TakeStep(s, steps[0]);
      SchedStepKeeps(s, steps[0]);
      FinishedIsFinal(s, steps[0], id);
      RunsOnlyGrow(s, steps[0], id);
      FinishedForever(next, steps[1..], id);
    }
  }

  /** Completed status implies that there is no next run, in every reachable state. */
  lemma CompletedMeansFinished(s0: Sched, steps: seq<SchedStep>, id: string)
    requires IsStart(s0) && IsLife(s0, steps)
    requires var s := Afterwards(s0, steps); id in s.tasks && s.tasks[id].status == Completed
    ensures IsFinished(Afterwards(s0, steps), id)
  {
    Reached(s0, steps);
    NullMeansFinished(Afterwards(s0, steps), id);
  }

  /** A poll before shutdown misses no due task: each is pending or running afterwards. */
  lemma {:induction false} PollQueuesEveryDueTask(s: Sched, due: seq<string>)
    requires SchedInv(s) && !s.q.shuttingDown && forall id :: id in due ==> id in s.tasks && IsDue(s.tasks[id], s.now)
    ensures forall id :: id in due || IsQueued(s.q, id) ==> IsQueued(PollTasks(s, due).q, id)
    decreases |due|
  {
    if due == [] {
    } else {
      var x, next := due[0], PollTask(s, due[0]);
      assert x in due;
      EnqueueTaskPlaces(s.q, s.tasks[x].chatJid, x, s.tasks[x]);
      EnqueueTaskGrows(s.q, s.tasks[x].chatJid, x, s.tasks[x]);
      PollTaskKeeps(s, x);
      EnqueueTaskKeeps(s.q, s.tasks[x].chatJid, x, s.tasks[x]);
      PollQueuesEveryDueTask(next, due[1..]);
      forall id | id in due || IsQueued(s.q, id) ensures id in due[1..] || IsQueued(next.q, id) {
        if IsQueued(s.q, id) { var t :| InQueue(s.q, t) && t.id == id; }
      }
    }
  }

  /** The first slot of a new cron or interval task lies ahead, one interval from now for an interval. */
  lemma FirstSlotIsAhead(t: ScheduledTask, once: Option<Instant>, now: Instant, cronNext: Instant)
    requires t.scheduleType == Cron ==> now < cronNext
    ensures var first := FirstRun(t.scheduleType, t.intervalMs, once, now, cronNext);
      && (IsPeriodic(t) <==> t.scheduleType == Interval && first.Some?)
      && (first.Some? && t.scheduleType != Once ==> first.value > now)
      && (IsPeriodic(t) ==> CatchUp(now, now, Micros(t.intervalMs.value)) == first.value)
  {
    if IsPeriodic(t) { assert CatchUp(now + Micros(t.intervalMs.value), now, Micros(t.intervalMs.value)) > now; }
  }

  // ----- requests -----

  /** What a request does is a step of the machine, or nothing: all that is proved of lives covers the requests. */
  lemma RequestsAreSteps(s: Sched, r: ScheduleRequest, source: string, groups: map<Jid, string>, isMain: bool,
                         cronNext: Instant)
    requires r.id !in s.used
    requires r.scheduleType == Cron ==> IsNextFiring(s.fires, UtcTime, r.scheduleValue, s.now, cronNext)
    ensures var s' := Schedules(s, r, source, groups, isMain, cronNext);
      s' == s || exists step :: CanStep(s, step) && s' == TakeStep(s, step)
  {
    if r.wellFormed && r.targetJid in groups && MayTouch(groups[r.targetJid], source, isMain) {
      var t := TaskOf(r, groups[r.targetJid]);
      var step := DoSchedule(t, r.once, cronNext);
      assert CanStep(s, step) && Schedules(s, r, source, groups, isMain, cronNext) == TakeStep(s, step);
    }
  }

  lemma MutationsAreSteps(s: Sched, kind: Mutation, id: string, source: string, isMain: bool)
    ensures var s' := Mutates(s, kind, id, source, isMain);
      s' == s || exists step :: CanStep(s, step) && s' == TakeStep(s, step)
  {
    var step := match kind case Pause => DoPause(id) case Resume => DoResume(id) case _ => DoCancel(id);
    assert CanStep(s, step);
    assert Mutates(s, kind, id, source, isMain) == s || Mutates(s, kind, id, source, isMain) == TakeStep(s, step);
  }

  lemma SchedulesKeeps(s: Sched, r: ScheduleRequest, source: string, groups: map<Jid, string>, isMain: bool,
                       cronNext: Instant)
    requires SchedInv(s) && r.id !in s.used
    ensures SchedInv(Schedules(s, r, source, groups, isMain, cronNext))
  {
    if r.wellFormed && r.targetJid in groups && MayTouch(groups[r.targetJid], source, isMain) {
      var t := TaskOf(r, groups[r.targetJid]);
      ScheduleKeeps(s, t, r.once, cronNext);
    }
  }

  lemma MutatesKeeps(s: Sched, kind: Mutation, id: string, source: string, isMain: bool)
    requires SchedInv(s)
    ensures SchedInv(Mutates(s, kind, id, source, isMain))
  {
    match kind
    case Pause => StatusKeeps(s, id, Paused);
    case Resume => StatusKeeps(s, id, Active);
    case Cancel => CancelKeeps(s, id);
    case OtherMutation =>
  }

  /** The row, if it belongs to folder `f`. */
  function RowOf(ts: Tasks, id: string, f: string): Option<ScheduledTask> {
    if id in ts && ts[id].groupFolder == f then Some(ts[id]) else None
  }

  /** An agent that is not main leaves every other group's tasks alone. */
  lemma MutationsStayHome(s: Sched, kind: Mutation, id: string, source: string, f: string, k: string)
    requires f != source
    ensures RowOf(Mutates(s, kind, id, source, false).tasks, k, f) == RowOf(s.tasks, k, f)
  {
    var ts := Mutates(s, kind, id, source, false).tasks;
    if k != id { assert k in ts <==> k in s.tasks; }
  }

  lemma SchedulesStayHome(s: Sched, r: ScheduleRequest, source: string, groups: map<Jid, string>, cronNext: Instant,
                          f: string, k: string)
    requires f != source && r.id !in s.used && RowsOk(s)
    ensures RowOf(Schedules(s, r, source, groups, false, cronNext).tasks, k, f) == RowOf(s.tasks, k, f)
  {}

  // ----- the due query always has an answer -----

  ghost predicate IsOrdered(due: seq<string>, ts: Tasks) {
    && (forall i, k :: 0 <= i < k < |due| ==> due[i] != due[k])
    && (forall i, k :: 0 <= i < k < |due| ==> NotLater(ts, due[i], due[k]))
  }

  lemma NotLaterIsTransitive(ts: Tasks, a: string, b: string, c: string)
    requires NotLater(ts, a, b) && NotLater(ts, b, c)
    ensures NotLater(ts, a, c)
  {
    NotAfterIsTransitive(ts[a].nextRun.value, ts[b].nextRun.value, ts[c].nextRun.value);
  }

  ghost predicate HasSlot(ts: Tasks, id: string) { id in ts && ts[id].nextRun.Some? }

  lemma {:induction false} InsertDue(due: seq<string>, ts: Tasks, id: string) returns (r: seq<string>)
    requires IsOrdered(due, ts) && id !in due && HasSlot(ts, id) && forall x :: x in due ==> HasSlot(ts, x)
    ensures IsOrdered(r, ts) && forall x :: x in r <==> x in due || x == id
    decreases |due|
  {
    if due == [] {
      r := [id];
    } else if NotLater(ts, id, due[0]) {
      r := [id] + due;
      forall k | 0 <= k < |due| ensures NotLater(ts, id, due[k]) {
        if k > 0 { NotLaterIsTransitive(ts, id, due[0], due[k]); }
      }
    } else {
      assert due[0] in due;
      NotAfterIsTotal(ts[id].nextRun.value, ts[due[0]].nextRun.value);
      var rest := InsertDue(due[1..], ts, id);
      assert due == [due[0]] + due[1..];
      r := [due[0]] + rest;
      forall k | 0 <= k < |rest| ensures NotLater(ts, due[0], rest[k]) && rest[k] != due[0] {
        assert rest[k] in rest;
        if rest[k] != id {
          var i :| 0 <= i < |due| - 1 && due[1..][i] == rest[k];
          assert due[i + 1] == rest[k];
        }
      }
    }
  }

  lemma {:induction false} SortDue(ids: set<string>, ts: Tasks) returns (due: seq<string>)
    requires forall id :: id in ids ==> HasSlot(ts, id)
    ensures IsOrdered(due, ts) && forall id :: id in due <==> id in ids
    decreases |ids|
  {
    if ids == {} {
      due := [];
    } else {
      var id :| id in ids;
      var rest := SortDue(ids - {id}, ts);
      due := InsertDue(rest, ts, id);
    }
  }

  /** So what is proved for every answer of the due query is not proved of nothing. */
  lemma DueListExists(ts: Tasks, now: Instant) returns (due: seq<string>)
    ensures IsDueList(due, ts, now)
  {
    var ids := set id | id in ts && IsDue(ts[id], now);
    due := SortDue(ids, ts);
  }
}
