/** The dispatcher and the agents' task requests with their mutable state (nanoclaw/task_scheduler.py, nanoclaw/ipc.py).
    Every method computes exactly the corresponding function of SchedulerModel, and keeps the invariant of
    SchedulerTheorems whenever its arguments are what the program would pass. */
module TaskSchedulerClass {
  import opened Types
  import opened Schedule
  import opened QueueModel
  import opened GroupQueueClass
  import opened SchedulerModel
  import opened SchedulerTheorems
  import opened Database

  class TaskScheduler {
    const queue: GroupQueue
    const db: NanoClawDb
    ghost const fires: Firings

    ghost function Value(now: Instant): Sched
      reads queue, db
    {
      SchedOf(queue.Value(), db, now, fires)
    }

    constructor (queue: GroupQueue, db: NanoClawDb, ghost fires: Firings)
      ensures this.queue == queue && this.db == db && this.fires == fires
    {
      this.queue, this.db, this.fires := queue, db, fires;
    }

    /** `due` is what the query answers. */
    method RunOnce(due: seq<string>, ghost now: Instant)
      modifies queue
      ensures Value(now) == PollTasks(old(Value(now)), due)
      ensures SchedInv(old(Value(now))) && IsDueList(due, db.tasks, now) ==> SchedInv(Value(now))
    {
      if SchedInv(Value(now)) && IsDueList(due, db.tasks, now) { PollKeeps(Value(now), due); }
      for i := 0 to |due|
        invariant PollTasks(Value(now), due[i..]) == PollTasks(old(Value(now)), due)
      {
        var id := due[i];
        assert due[i..][0] == id && due[i..][1..] == due[i + 1..];
        if id in db.tasks {
          var current := db.tasks[id];
          if current.status == Active {
            queue.EnqueueTask(current.chatJid, id, current);
          }
        }
      }
    }

    /** `_run_and_record` from the end of the task on, and the queue's end of the run. */
    method RunAndRecord(h: nat, ending: TaskEnding, now: Instant)
      requires h in queue.background && queue.background[h].RunTask?
      modifies queue, db
      ensures Value(now) == FinishTask(old(Value(now)), h, ending)
      ensures SchedInv(old(Value(now))) && old(CanStep(Value(now), DoEndTask(h, ending))) ==> SchedInv(Value(now))
    {
      if SchedInv(Value(now)) && CanStep(Value(now), DoEndTask(h, ending)) { EndTaskKeeps(Value(now), h, ending); }
      var task := queue.background[h].task.fn;
      match ending {
        case Recorded(cronNext) =>
          var nextRun := ComputeNextRun(task, now, cronNext);
          db.UpdateTaskAfterRun(task, nextRun, now);
        case BadFolder =>
          db.UpdateTaskStatus(task.id, Paused);
        case BrokenOff =>
      }
      queue.FinishTaskRun(h);
    }
  }

  class IpcWatcher {
    const db: NanoClawDb
    ghost const fires: Firings

    constructor (db: NanoClawDb, ghost fires: Firings)
      ensures this.db == db && this.fires == fires
    {
      this.db, this.fires := db, fires;
    }

    /** `groups` gives the folders of the registered groups. */
    method HandleScheduleTask(request: ScheduleRequest, source: string, groups: map<Jid, string>, isMain: bool,
                              now: Instant, cronNext: Instant, ghost q: Queue)
      modifies db
      ensures SchedOf(q, db, now, fires)
        == Schedules(old(SchedOf(q, db, now, fires)), request, source, groups, isMain, cronNext)
      ensures SchedInv(old(SchedOf(q, db, now, fires))) && request.id !in old(db.usedIds) ==>
        SchedInv(SchedOf(q, db, now, fires))
    {
      if SchedInv(SchedOf(q, db, now, fires)) && request.id !in db.usedIds {
        SchedulesKeeps(SchedOf(q, db, now, fires), request, source, groups, isMain, cronNext);
      }
      if !request.wellFormed {
        return;
      }
      if request.targetJid !in groups {
        return;
      }
      if !isMain && groups[request.targetJid] != source {
        return;
      }
      var nextRun := FirstRun(request.scheduleType, request.intervalMs, request.once, now, cronNext);
      if nextRun.None? {
        return;
      }
      var task := ScheduledTask(request.id, groups[request.targetJid], request.targetJid, request.scheduleType,
                                request.scheduleValue, request.intervalMs, nextRun, Active);
      db.CreateTask(task);
    }

    method HandleTaskMutation(kind: Mutation, taskId: string, source: string, isMain: bool, ghost q: Queue,
                              ghost now: Instant)
      modifies db
      ensures SchedOf(q, db, now, fires)
        == Mutates(old(SchedOf(q, db, now, fires)), kind, taskId, source, isMain)
      ensures SchedInv(old(SchedOf(q, db, now, fires))) ==> SchedInv(SchedOf(q, db, now, fires))
    {
      if SchedInv(SchedOf(q, db, now, fires)) {
        MutatesKeeps(SchedOf(q, db, now, fires), kind, taskId, source, isMain);
      }
      if taskId !in db.tasks {
        return;
      }
      if !isMain && db.tasks[taskId].groupFolder != source {
        return;
      }
      match kind {
        case Pause => db.UpdateTaskStatus(taskId, Paused);
        case Resume => db.UpdateTaskStatus(taskId, Active);
        case Cancel => db.DeleteTask(taskId);
        case OtherMutation =>
      }
    }
  }
}
