/** What becomes of the rows of the task table: the slots that runs find, a row after its run, new rows, and what the
    requests of the agents do to a row. */
module SchedulerTables {
  import opened Types
  import opened Schedule
  import opened QueueModel
  import opened QueueTasks
  import opened SchedulerModel
  import opened SchedulerTheorems

  // ----- the slots of recorded runs -----

  lemma {:induction false} FiringsStay(s: Sched, steps: seq<SchedStep>)
    requires SchedInv(s) && IsLife(s, steps)
    ensures Afterwards(s, steps).fires == s.fires
    decreases |steps|
  {
    if steps == [] {
    } else {
      if steps[0].DoPoll? { PollKeeps(s, steps[0].due); }
      SchedStepKeeps(s, steps[0]);
      FiringsStay(TakeStep(s, steps[0]), steps[1..]);
    }
  }

  /** Over every life, from any table and across restarts: a recorded run found its next slot by the rule of its
      schedule, and that is the slot which the next run of the task has. */
  lemma NextRunHasNextSlot(s0: Sched, steps: seq<SchedStep>, i: nat, k: nat)
    requires IsStart(s0) && IsLife(s0, steps)
    requires i < k < |Afterwards(s0, steps).runs| && AreConsecutive(Afterwards(s0, steps).runs, i, k)
    ensures var runs := Afterwards(s0, steps).runs;
      && runs[i].task.nextRun.Some? && SameTask(runs[i].task, runs[k].task)
      && IsNextSlot(s0.fires, runs[i].task, runs[i].at, runs[i].next) && runs[k].task.nextRun == runs[i].next
  {
    Reached(s0, steps);
    StartKeeps(s0);
    FiringsStay(s0, steps);
    var s := Afterwards(s0, steps);
    assert RunOk(s, s.runs[i]);
  }

  /** A cron task runs at a firing of its expression, and at the first one since its last run ended. */
  lemma CronRunsAtFirings(s0: Sched, steps: seq<SchedStep>, i: nat, k: nat)
    requires IsStart(s0) && IsLife(s0, steps)
    requires i < k < |Afterwards(s0, steps).runs| && AreConsecutive(Afterwards(s0, steps).runs, i, k)
    requires Afterwards(s0, steps).runs[i].task.scheduleType == Cron
    ensures var before, run := Afterwards(s0, steps).runs[i], Afterwards(s0, steps).runs[k];
      && run.task.nextRun.Some? && before.at < run.task.nextRun.value
      && s0.fires(LocalTime, run.task.scheduleValue, run.task.nextRun.value)
      && forall t :: before.at < t < run.task.nextRun.value ==> !s0.fires(LocalTime, run.task.scheduleValue, t)
  {
    NextRunHasNextSlot(s0, steps, i, k);
  }

  // ----- a row after its run -----

  /** Only the row `id` may differ, and not in the columns that it was created with. */
  ghost predicate OnlyRow(ts: Tasks, ts': Tasks, id: string) {
    && (forall x :: x != id ==> (x in ts' <==> x in ts))
    && (forall x :: x != id && x in ts ==> ts'[x] == ts[x])
    && (id in ts && id in ts' ==> SameTask(ts'[id], ts[id]))
  }

  /** What the run of the snapshot `t`, recorded at `at`, leaves in the table. */
  ghost predicate LeavesNextSlot(ts: Tasks, ts': Tasks, t: ScheduledTask, r: Run) {
    && OnlyRow(ts, ts', t.id) && (t.id in ts' <==> t.id in ts)
    && (t.id in ts ==>
          && ts'[t.id].nextRun == r.next && (ts'[t.id].status == Completed <==> r.next == None)
          && (r.next != None ==> ts'[t.id].status == ts[t.id].status))
  }

  lemma UpdateLeavesNextSlot(ts: Tasks, t: ScheduledTask, r: Run)
    requires t.id in ts ==> ts[t.id].status != Completed
    ensures LeavesNextSlot(ts, UpdateAfterRun(ts, t.id, r.next), t, r)
  {}

  /** Who runs is not completed. */
  lemma RunningIsOpen(s: Sched, h: nat)
    requires SchedInv(s) && h in s.q.background && s.q.background[h].RunTask?
    ensures var t := s.q.background[h].task.fn;
      t.nextRun.Some? && (t.id in s.tasks ==> s.tasks[t.id].status != Completed)
  {
    RunningSnapshot(s, h);
    assert SnapshotOk(s, s.q.background[h].task);
  }

  /** A recorded run leaves the next slot in its row, if that still exists; it completes the row exactly if there is
      none, and otherwise leaves the status, so that a pause during the run survives. */
  lemma RowAfterRun(s: Sched, h: nat, cronNext: Instant)
    requires SchedInv(s) && CanStep(s, DoEndTask(h, Recorded(cronNext)))
    ensures var t, s' := s.q.background[h].task.fn, FinishTask(s, h, Recorded(cronNext));
      && t.nextRun.Some? && |s'.runs| == |s.runs| + 1 && s.runs <= s'.runs
      && var r := s'.runs[|s.runs|];
         && r.task == t && r.at == s.now && IsNextSlot(s.fires, t, s.now, r.next)
         && LeavesNextSlot(s.tasks, s'.tasks, t, r)
  {
    var t := s.q.background[h].task.fn;
    RunningIsOpen(s, h);
    NextRunIsNextSlot(s.fires, t, s.now, cronNext);
    UpdateLeavesNextSlot(s.tasks, t, Run(t, s.now, NextRun(t, s.now, cronNext)));
  }

  /** A run in a bad folder pauses its row and records nothing; one that is broken off leaves the table as it is. */
  lemma RowAfterNoRecord(s: Sched, h: nat, e: TaskEnding)
    requires CanStep(s, DoEndTask(h, e)) && !e.Recorded?
    ensures var t, s' := s.q.background[h].task.fn, FinishTask(s, h, e);
      && s'.runs == s.runs
      && if e == BrokenOff then s'.tasks == s.tasks
         else
           && OnlyRow(s.tasks, s'.tasks, t.id) && (t.id in s'.tasks <==> t.id in s.tasks)
           && (t.id in s.tasks ==>
                 s'.tasks[t.id].status == Paused && s'.tasks[t.id].nextRun == s.tasks[t.id].nextRun)
  {}

  // ----- new rows -----

  /** The schedule of the request can be used: a time that parses, a positive interval, a cron expression. */
  predicate IsUsable(r: ScheduleRequest) {
    match r.scheduleType
    case Once => r.once.Some?
    case Interval => r.intervalMs.Some? && r.intervalMs.value > 0
    case Cron => true
    case OtherSchedule => false
  }

  /** A request for a new task adds a row exactly if it is well-formed, its target is a registered group that the agent
      may act on, and its schedule can be used. The row belongs to the target group, is active and has the first slot of
      its schedule; everything else stays. */
  lemma RequestAddsRow(s: Sched, r: ScheduleRequest, source: string, groups: map<Jid, string>, isMain: bool,
                       cronNext: Instant)
    requires RowsOk(s) && r.id !in s.used
    requires r.scheduleType == Cron ==> IsNextFiring(s.fires, UtcTime, r.scheduleValue, s.now, cronNext)
    ensures var s' := Schedules(s, r, source, groups, isMain, cronNext);
      if r.wellFormed && r.targetJid in groups && (isMain || groups[r.targetJid] == source) && IsUsable(r)
      then
        && r.id in s'.tasks && OnlyRow(s.tasks, s'.tasks, r.id)
        && s' == s.(tasks := s'.tasks, used := s.used + {r.id})
        && var row := s'.tasks[r.id];
           && row.id == r.id && row.groupFolder == groups[r.targetJid] && row.chatJid == r.targetJid
           && row.scheduleType == r.scheduleType && row.scheduleValue == r.scheduleValue
           && row.intervalMs == r.intervalMs && row.status == Active && row.nextRun.Some?
           && match r.scheduleType
              case Once => row.nextRun == r.once
              case Interval => row.nextRun.value == s.now + r.intervalMs.value * 1000
              case _ => IsNextFiring(s.fires, UtcTime, r.scheduleValue, s.now, row.nextRun.value)
      else s' == s
  {}

  /** The first slot of a cron task is found by the clock of UTC, every later one by the local clock: so it is the first
      local firing exactly if both clocks have the same next one. */
  lemma FirstCronSlotIsLocalExactlyWhen(s: Sched, t: ScheduledTask, utc: Instant, local: Instant)
    requires t.scheduleType == Cron && CanStep(s, DoSchedule(t, None, utc))
    requires IsNextFiring(s.fires, LocalTime, t.scheduleValue, s.now, local)
    ensures var ts := TakeStep(s, DoSchedule(t, None, utc)).tasks;
      && t.id in ts && ts[t.id].nextRun.Some?
      && (IsNextFiring(s.fires, LocalTime, t.scheduleValue, s.now, ts[t.id].nextRun.value) <==> utc == local)
  {}

  const HOUR: Instant := 3600 * SECOND

  /** Daily at nine, where the local clock is an hour ahead of UTC. */
  predicate AtNine(zone: Zone, value: string, t: Instant) {
    (if zone == LocalTime then t + HOUR else t) % (24 * HOUR) == 9 * HOUR
  }

  /** A task for nine o'clock that is scheduled at midnight of UTC runs at ten first. */
  lemma FirstCronSlotIsUtc(s: Sched, t: ScheduledTask)
    requires s.fires == AtNine && s.now == 0 && t.id !in s.used && t.scheduleType == Cron
    ensures IsNextFiring(s.fires, LocalTime, t.scheduleValue, s.now, 8 * HOUR)
    ensures CanStep(s, DoSchedule(t, None, 9 * HOUR))
    ensures var ts := TakeStep(s, DoSchedule(t, None, 9 * HOUR)).tasks;
      t.id in ts && ts[t.id].nextRun == Some(9 * HOUR) && !s.fires(LocalTime, t.scheduleValue, 9 * HOUR)
  {}

  // ----- pausing, resuming, cancelling -----

  /** A pause makes the row due at no time; a resumption makes it due exactly when its slot has come; a cancellation
      removes it. An agent that is neither main nor of the row's folder changes nothing, and no request changes another
      row or another column. */
  lemma MutationMeans(s: Sched, kind: Mutation, id: string, source: string, isMain: bool, now: Instant)
    ensures var s' := Mutates(s, kind, id, source, isMain);
      if id in s.tasks && (isMain || s.tasks[id].groupFolder == source) && !kind.OtherMutation?
      then
        && s' == s.(tasks := s'.tasks) && OnlyRow(s.tasks, s'.tasks, id)
        && (id !in s'.tasks <==> kind == Cancel)
        && (id in s'.tasks ==>
              && s'.tasks[id].nextRun == s.tasks[id].nextRun
              && (IsDue(s'.tasks[id], now) <==>
                    kind == Resume && s.tasks[id].nextRun.Some? && NotAfter(s.tasks[id].nextRun.value, now)))
      else s' == s
  {}

  /** What a poll brings in are snapshots of due rows, for the group of the row. */
  lemma {:induction false} PollTakesOnlyDue(s: Sched, due: seq<string>)
    requires forall id :: id in due ==> id in s.tasks
    ensures var s' := PollTasks(s, due);
      && s' == s.(q := s'.q)
      && forall t :: InQueue(s'.q, t) ==>
           InQueue(s.q, t) || (t.id in due && t == QueuedTask(t.id, s.tasks[t.id].chatJid, s.tasks[t.id]))
    decreases |due|
  {
    if due == [] {
    } else {
      assert due[0] in due;
      EnqueueTaskAdds(s.q, s.tasks[due[0]].chatJid, due[0], s.tasks[due[0]]);
      PollTakesOnlyDue(PollTask(s, due[0]), due[1..]);
    }
  }

  /** The row is gone, or not active. */
  ghost predicate IsAsleep(s: Sched, id: string) {
    id in s.used && (id in s.tasks ==> s.tasks[id].status != Active)
  }

  /** Of the task nothing has come into the queue. */
  ghost predicate NothingCame(q: Queue, q': Queue, id: string) {
    forall t :: InQueue(q', t) && t.id == id ==> InQueue(q, t)
  }

  lemma StepSleeps(s: Sched, step: SchedStep, id: string)
    requires SchedInv(s) && CanStep(s, step) && IsAsleep(s, id) && (step == DoResume(id) ==> id !in s.tasks)
    ensures IsAsleep(TakeStep(s, step), id) && NothingCame(s.q, TakeStep(s, step).q, id)
    ensures id !in s.tasks ==> id !in TakeStep(s, step).tasks
  {
    match step
    case DoPoll(due) => PollTakesOnlyDue(s, due);
    case DoEndTask(h, e) =>
      forall t | InQueue(FinishTaskRun(s.q, h), t) ensures InQueue(s.q, t) { NoOtherSnapshot(s, h, t); }
    case DoOther(queueStep) => StepLoses(s.q, queueStep);
    case DoRestart(c, r) => NothingQueuedAtStart(c, r);
    case _ =>
  }

  /** No poll takes a paused task into the queue until it is resumed, restarts included; and a cancelled one never. */
  lemma {:induction false} SleepsUntilResumed(s: Sched, steps: seq<SchedStep>, id: string)
    requires SchedInv(s) && IsLife(s, steps) && IsAsleep(s, id) && (DoResume(id) in steps ==> id !in s.tasks)
    ensures IsAsleep(Afterwards(s, steps), id) && NothingCame(s.q, Afterwards(s, steps).q, id)
    decreases |steps|
  {
    if steps == [] {
    } else {
      StepSleeps(s, steps[0], id);
      SchedStepKeeps(s, steps[0]);
      SleepsUntilResumed(TakeStep(s, steps[0]), steps[1..], id);
    }
  }
}
