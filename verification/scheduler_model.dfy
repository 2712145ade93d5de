/** The recurring-task dispatcher (nanoclaw/task_scheduler.py) with the task table (nanoclaw/db.py) and the task
    requests of the agents (nanoclaw/ipc.py), on top of the group queue. */
module SchedulerModel {
  import opened Types
  import opened Schedule
  import opened QueueModel

  type Tasks = map<string, ScheduledTask>

  /** A run that reached `update_task_after_run`: the snapshot it ran, when it ended, and the next slot it computed. */
  datatype Run = Run(task: ScheduledTask, at: Instant, next: Option<Instant>)

  datatype Sched = Sched(
    q: Queue, tasks: Tasks, now: Instant,
    fires: Firings,      // what the cron library knows
    used: set<string>,   // every task id ever given out
    runs: seq<Run>)      // oldest first

  /** What a database can hold: rows under their own ids, all of them given out, and no next run in a completed row. */
  ghost predicate IsTable(ts: Tasks, used: set<string>) {
    forall id :: id in ts ==> ts[id].id == id && id in used && (ts[id].status == Completed ==> ts[id].nextRun == None)
  }

  /** A process starts over the rows that earlier ones have left. */
  ghost predicate IsStart(s: Sched) {
    s.q == Init(s.q.maxConcurrent, s.q.maxRetries) && IsTable(s.tasks, s.used) && s.runs == []
  }

  // ----- the task table -----

  function CreateTask(ts: Tasks, t: ScheduledTask): Tasks { ts[t.id := t] }

  function SetStatus(ts: Tasks, id: string, status: TaskStatus): Tasks {
    if id in ts then ts[id := ts[id].(status := status)] else ts
  }

  function UpdateAfterRun(ts: Tasks, id: string, next: Option<Instant>): Tasks {
    if id !in ts then ts
    else ts[id := ts[id].(nextRun := next, status := if next.None? then Completed else ts[id].status)]
  }

  /** `status = 'active' AND next_run IS NOT NULL AND next_run <= ?`, on texts. */
  predicate IsDue(t: ScheduledTask, now: Instant) {
    t.status == Active && t.nextRun.Some? && NotAfter(t.nextRun.value, now)
  }

  predicate NotLater(ts: Tasks, a: string, b: string) {
    && a in ts && b in ts && ts[a].nextRun.Some? && ts[b].nextRun.Some?
    && NotAfter(ts[a].nextRun.value, ts[b].nextRun.value)
  }

  /** A possible answer of `get_due_tasks`: all due rows, by `next_run`; ties in any order. */
  ghost predicate IsDueList(due: seq<string>, ts: Tasks, now: Instant) {
    && (forall id :: id in due <==> id in ts && IsDue(ts[id], now))
    && (forall i, k :: 0 <= i < k < |due| ==> due[i] != due[k])
    && (forall i, k :: 0 <= i < k < |due| ==> NotLater(ts, due[i], due[k]))
  }

  // ----- segments -----

  /** `_compute_first_run`; `once` is the parsed time of a once-task. None where it returns nothing. */
  function FirstRun(scheduleType: ScheduleType, intervalMs: Option<int>, once: Option<Instant>, now: Instant,
                    cronNext: Instant)
    : Option<Instant>
  {
    match scheduleType
    case Cron => Some(cronNext)
    case Interval => if intervalMs.None? || intervalMs.value <= 0 then None else Some(now + Micros(intervalMs.value))
    case Once => once
    case OtherSchedule => None
  }

  /** `schedule_task` with a fresh id: nothing happens where there is no first run. */
  function ScheduleTask(s: Sched, t: ScheduledTask, once: Option<Instant>, cronNext: Instant): Sched {
    var first := FirstRun(t.scheduleType, t.intervalMs, once, s.now, cronNext);
    if first.None? then s
    else s.(tasks := CreateTask(s.tasks, t.(nextRun := first, status := Active)), used := s.used + {t.id})
  }

  /** A request for a new task. `wellFormed` is the type test on its four fields, `id` the given or the random id. */
  datatype ScheduleRequest = ScheduleRequest(
    wellFormed: bool, id: string, targetJid: Jid, scheduleType: ScheduleType, scheduleValue: string,
    intervalMs: Option<int>, once: Option<Instant>)

  /** May an agent of folder `source` act on folder `target`? */
  predicate MayTouch(target: string, source: string, isMain: bool) { isMain || target == source }

  function TaskOf(r: ScheduleRequest, folder: string): ScheduledTask {
    ScheduledTask(r.id, folder, r.targetJid, r.scheduleType, r.scheduleValue, r.intervalMs, None, Active)
  }

  function Schedules(s: Sched, r: ScheduleRequest, source: string, groups: map<Jid, string>, isMain: bool,
                     cronNext: Instant): Sched
  {
    if r.wellFormed && r.targetJid in groups && MayTouch(groups[r.targetJid], source, isMain)
    then ScheduleTask(s, TaskOf(r, groups[r.targetJid]), r.once, cronNext)
    else s
  }

  datatype Mutation = Pause | Resume | Cancel | OtherMutation

  function Mutates(s: Sched, kind: Mutation, id: string, source: string, isMain: bool): Sched {
    if id !in s.tasks || !MayTouch(s.tasks[id].groupFolder, source, isMain) then s
    else
      match kind
      case Pause => s.(tasks := SetStatus(s.tasks, id, Paused))
      case Resume => s.(tasks := SetStatus(s.tasks, id, Active))
      case Cancel => s.(tasks := s.tasks - {id})
      case OtherMutation => s
  }

  /** One turn of the loop in `run_once`. */
  function PollTask(s: Sched, id: string): Sched {
    if id !in s.tasks || s.tasks[id].status != Active then s
    else s.(q := EnqueueTask(s.q, s.tasks[id].chatJid, id, s.tasks[id]))
  }

  function PollTasks(s: Sched, due: seq<string>): Sched
    decreases |due|
  {
    if due == [] then s else PollTasks(PollTask(s, due[0]), due[1..])
  }

  /** How `_run_and_record` ends: recorded, paused for a bad folder, or broken off before the record. */
  datatype TaskEnding = Recorded(cronNext: Instant) | BadFolder | BrokenOff

  function FinishTask(s: Sched, h: nat, e: TaskEnding): Sched
    requires h in s.q.background && s.q.background[h].RunTask?
  {
    var t := s.q.background[h].task.fn;
    var s' :=
      match e
      case Recorded(cronNext) =>
        var next := NextRun(t, s.now, cronNext);
        s.(tasks := UpdateAfterRun(s.tasks, t.id, next), runs := s.runs + [Run(t, s.now, next)])
      case BadFolder => s.(tasks := SetStatus(s.tasks, t.id, Paused))
      case BrokenOff => s;
    s'.(q := FinishTaskRun(s.q, h))
  }

  /** The process dies and comes back: the queue is gone, the table and what was recorded stay. */
  function Restart(s: Sched, maxConcurrent: int, maxRetries: int): Sched { s.(q := Init(maxConcurrent, maxRetries)) }

  // ----- steps -----

  datatype SchedStep =
    | DoTick(now: Instant)
    | DoSchedule(task: ScheduledTask, once: Option<Instant>, cronNext: Instant)
    | DoPause(id: string)
    | DoResume(id: string)
    | DoCancel(id: string)
    | DoPoll(due: seq<string>)
    | DoEndTask(h: nat, ending: TaskEnding)
    | DoOther(s: Step)
    | DoRestart(maxConcurrent: int, maxRetries: int)

  /** What the cron library may answer at the end of a run. */
  ghost predicate IsAnswer(s: Sched, t: ScheduledTask, cronNext: Instant) {
    t.scheduleType == Cron ==> IsNextFiring(s.fires, LocalTime, t.scheduleValue, s.now, cronNext)
  }

  ghost predicate CanStep(s: Sched, step: SchedStep) {
    match step
    case DoTick(now) => s.now <= now
    case DoSchedule(t, _, cronNext) =>
      && t.id !in s.used
      && (t.scheduleType == Cron ==> IsNextFiring(s.fires, UtcTime, t.scheduleValue, s.now, cronNext))
    case DoPoll(due) => IsDueList(due, s.tasks, s.now)
    case DoEndTask(h, e) =>
      && h in s.q.background && s.q.background[h].RunTask? && s.q.background[h].started
      && (e.Recorded? ==> IsAnswer(s, s.q.background[h].task.fn, e.cronNext))
    case DoOther(queueStep) => Enabled(s.q, queueStep) && !queueStep.DoEnqueueTask? && !queueStep.DoFinishTask?
    case _ => true
  }

  ghost function TakeStep(s: Sched, step: SchedStep): Sched
    requires CanStep(s, step)
  {
    match step
    case DoTick(now) => s.(now := now)
    case DoSchedule(t, once, cronNext) => ScheduleTask(s, t, once, cronNext)
    case DoPause(id) => s.(tasks := SetStatus(s.tasks, id, Paused))
    case DoResume(id) => s.(tasks := SetStatus(s.tasks, id, Active))
    case DoCancel(id) => s.(tasks := s.tasks - {id})
    case DoPoll(due) => PollTasks(s, due)
    case DoEndTask(h, e) => FinishTask(s, h, e)
    case DoOther(queueStep) => s.(q := Apply(s.q, queueStep))
    case DoRestart(c, r) => Restart(s, c, r)
  }

  ghost predicate IsLife(s: Sched, steps: seq<SchedStep>)
    decreases |steps|
  {
    steps == [] || (CanStep(s, steps[0]) && IsLife(TakeStep(s, steps[0]), steps[1..]))
  }

  ghost function Afterwards(s: Sched, steps: seq<SchedStep>): Sched
    requires IsLife(s, steps)
    decreases |steps|
  {
    if steps == [] then s else Afterwards(TakeStep(s, steps[0]), steps[1..])
  }
}
