/** The records that pass between the components (nanoclaw/types.py). */
module Types {

  datatype Option<+T> = None | Some(value: T)

  /** A chat identifier; one conversation group per identifier. */
  type Jid = string

  /** A point in time, in microseconds. */
  type Instant = int

  datatype NewMessage = NewMessage(
    id: string, chatJid: Jid, senderName: string, content: string, timestamp: string,
    isFromMe: bool, isBotMessage: bool)

  datatype ScheduleType = Cron | Interval | Once | OtherSchedule

  datatype TaskStatus = Active | Paused | Completed

  /** `intervalMs` is `int(scheduleValue)`, or None where that conversion raises. */
  datatype ScheduledTask = ScheduledTask(
    id: string, groupFolder: string, chatJid: Jid,
    scheduleType: ScheduleType, scheduleValue: string, intervalMs: Option<int>,
    nextRun: Option<Instant>, status: TaskStatus)

  /** A queued task; `fn` stands for the closure, by the task row it captured. */
  datatype QueuedTask = QueuedTask(id: string, groupJid: Jid, fn: ScheduledTask)
}
