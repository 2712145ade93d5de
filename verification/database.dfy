/** The database object with its mutable tables (nanoclaw/db.py). */
module Database {
  import opened Types
  import opened QueueModel
  import opened MessageStore
  import opened AppModel
  import opened Schedule
  import opened SchedulerModel

  class NanoClawDb {
    var messages: Table
    var tasks: Tasks
    var registeredGroups: map<Jid, Registered>
    var lastAgentTimestamp: map<Jid, string>   // the router_state row of that name, decoded
    ghost var commits: seq<Commit>             // every commit ever made
    ghost var usedIds: set<string>             // every task id ever given out
    ghost var runs: seq<Run>                   // every task run ever recorded

    constructor ()
      ensures messages == map[] && tasks == map[] && registeredGroups == map[] && lastAgentTimestamp == map[]
      ensures commits == [] && usedIds == {} && runs == []
    {
      messages, tasks, registeredGroups, lastAgentTimestamp := map[], map[], map[], map[];
      commits, usedIds, runs := [], {}, [];
    }

    method StoreMessage(m: NewMessage)
      modifies this`messages
      ensures messages == MessageStore.StoreMessage(old(messages), m)
    {
      messages := messages[(m.id, m.chatJid) := m];
    }

    method SetRegisteredGroup(j: Jid, g: Registered)
      modifies this`registeredGroups
      ensures registeredGroups == old(registeredGroups)[j := g]
    {
      registeredGroups := registeredGroups[j := g];
    }

    method SetLastAgentTimestamp(cursor: map<Jid, string>)
      modifies this`lastAgentTimestamp
      ensures lastAgentTimestamp == cursor
    {
      lastAgentTimestamp := cursor;
    }

    method CreateTask(t: ScheduledTask)
      modifies this`tasks, this`usedIds
      ensures tasks == SchedulerModel.CreateTask(old(tasks), t) && usedIds == old(usedIds) + {t.id}
    {
      tasks, usedIds := tasks[t.id := t], usedIds + {t.id};
    }

    method UpdateTaskStatus(id: string, status: TaskStatus)
      modifies this`tasks
      ensures tasks == SetStatus(old(tasks), id, status)
    {
      if id in tasks {
        tasks := tasks[id := tasks[id].(status := status)];
      }
    }

    /** The run of the snapshot `t` is recorded. */
    method UpdateTaskAfterRun(t: ScheduledTask, nextRun: Option<Instant>, ghost now: Instant)
      modifies this`tasks, this`runs
      ensures tasks == UpdateAfterRun(old(tasks), t.id, nextRun) && runs == old(runs) + [Run(t, now, nextRun)]
    {
      runs := runs + [Run(t, now, nextRun)];
      if t.id in tasks {
        var status := if nextRun.None? then Completed else tasks[t.id].status;
        tasks := tasks[t.id := tasks[t.id].(nextRun := nextRun, status := status)];
      }
    }

    method DeleteTask(id: string)
      modifies this`tasks
      ensures tasks == old(tasks) - {id}
    {
      tasks := tasks - {id};
    }
  }

  /** The scheduler's view of the object; `fires` is what the cron library knows. */
  ghost function SchedOf(q: Queue, db: NanoClawDb, now: Instant, fires: Firings): Sched
    reads db
  {
    Sched(q, db.tasks, now, fires, db.usedIds, db.runs)
  }
}
