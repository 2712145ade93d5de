/** The group queue (nanoclaw/group_queue.py) as a value with one function per atomic segment:
    the code between two real suspensions of the event loop. */
module QueueModel {
  import opened Types

  datatype GroupState = GroupState(
    active: bool, idleWaiting: bool, isTaskContainer: bool, runningTaskId: Option<string>,
    pendingMessages: bool, pendingTasks: seq<QueuedTask>, retryCount: int)
  {
    predicate HasWork() { pendingMessages || pendingTasks != [] }
  }

  const FRESH_GROUP := GroupState(false, false, false, None, false, [], 0)

  /** The coroutines that the queue hands to the event loop. `started` turns true at the first step. */
  datatype Coroutine =
    | RunForGroup(jid: Jid, started: bool)
    | RunTask(jid: Jid, task: QueuedTask, started: bool)
    | Retry(jid: Jid)

  /** What an observer of the queue sees happen, oldest first. */
  datatype History = Nothing | After(earlier: History, last: Event)

  datatype Event =
    | Accepted(jid: Jid, task: QueuedTask)   // a new task entered the queue
    | TaskStarted(jid: Jid, task: QueuedTask)
    | MessagesStarted(jid: Jid)
    | StdinClosed(jid: Jid)                  // the close-stdin callback was invoked
    | Joined(jid: Jid)                       // the group was appended to the waiting line
    | Called(jid: Jid)                       // the group was taken from the head of the line
    | SlotReleased(jid: Jid)                 // a run ended in a group with nothing pending

  datatype Queue = Queue(
    groups: map<Jid, GroupState>, activeCount: int, waiting: seq<Jid>, shuttingDown: bool,
    maxConcurrent: int, maxRetries: int,
    background: map<nat, Coroutine>, nextHandle: nat, history: History)

  datatype Outcome = Succeeded | Failed | Raised | Cancelled

  function Max(a: int, b: int): int { if a < b then b else a }

  function Init(maxConcurrent: int, maxRetries: int): Queue {
    Queue(map[], 0, [], false, Max(1, maxConcurrent), maxRetries, map[], 0, Nothing)
  }

  // ----- helpers -----

  function GroupOf(q: Queue, j: Jid): GroupState { if j in q.groups then q.groups[j] else FRESH_GROUP }

  function Put(q: Queue, j: Jid, g: GroupState): Queue { q.(groups := q.groups[j := g]) }

  /** `_get_group`: a group unknown so far gets a fresh state. */
  function Touch(q: Queue, j: Jid): Queue { Put(q, j, GroupOf(q, j)) }

  function Note(q: Queue, e: Event): Queue { q.(history := After(q.history, e)) }

  function Spawn(q: Queue, c: Coroutine): Queue {
    q.(background := q.background[q.nextHandle := c], nextHandle := q.nextHandle + 1)
  }

  function StartRunForGroup(q: Queue, j: Jid): Queue {
    var g := GroupOf(q, j).(active := true, idleWaiting := false, isTaskContainer := false, pendingMessages := false);
    Spawn(Note(Put(q, j, g).(activeCount := q.activeCount + 1), MessagesStarted(j)), RunForGroup(j, false))
  }

  function StartRunTask(q: Queue, j: Jid, t: QueuedTask): Queue {
    var g := GroupOf(q, j).(active := true, idleWaiting := false, isTaskContainer := true, runningTaskId := Some(t.id));
    Spawn(Note(Put(q, j, g).(activeCount := q.activeCount + 1), TaskStarted(j, t)), RunTask(j, t, false))
  }

  /** `pending_tasks.popleft()` followed by `_start_run_task`. */
  function StartNextTask(q: Queue, j: Jid): Queue
    requires GroupOf(q, j).pendingTasks != []
  {
    var g := GroupOf(q, j);
    StartRunTask(Put(q, j, g.(pendingTasks := g.pendingTasks[1..])), j, g.pendingTasks[0])
  }

  function JoinLine(q: Queue, j: Jid): Queue {
    if j in q.waiting then q else Note(q.(waiting := q.waiting + [j]), Joined(j))
  }

  // ----- the segments -----

  function EnqueueMessageCheck(q: Queue, j: Jid): Queue {
    if q.shuttingDown then q
    else
      var g := GroupOf(q, j);
      if g.active then Put(q, j, g.(pendingMessages := true))
      else if q.activeCount >= q.maxConcurrent then JoinLine(Put(q, j, g.(pendingMessages := true)), j)
      else StartRunForGroup(q, j)
  }

  predicate IsDuplicate(g: GroupState, id: string) {
    g.runningTaskId == Some(id) || exists i :: 0 <= i < |g.pendingTasks| && g.pendingTasks[i].id == id
  }

  /** Where an accepted task goes: behind the group's other tasks, into the line with its group, or to a slot. */
  function PlaceTask(q: Queue, j: Jid, t: QueuedTask): Queue {
    var g := GroupOf(q, j);
    var queued := Put(q, j, g.(pendingTasks := g.pendingTasks + [t]));
    if g.active then if g.idleWaiting then Note(queued, StdinClosed(j)) else queued
    else if q.activeCount >= q.maxConcurrent then JoinLine(queued, j)
    else StartRunTask(q, j, t)
  }

  function EnqueueTask(q: Queue, j: Jid, id: string, fn: ScheduledTask): Queue {
    if q.shuttingDown || IsDuplicate(GroupOf(q, j), id) then q
    else
      var t := QueuedTask(id, j, fn);
      PlaceTask(Note(q, Accepted(j, t)), j, t)
  }

  function NotifyIdle(q: Queue, j: Jid): Queue {
    var g := GroupOf(q, j);
    var idle := Put(q, j, g.(idleWaiting := true));
    if g.pendingTasks != [] then Note(idle, StdinClosed(j)) else idle
  }

  /** One turn of the loop in `_drain_waiting`. */
  function ServeHead(q: Queue): Queue
    requires q.waiting != []
  {
    var j := q.waiting[0];
    var called := Note(q.(waiting := q.waiting[1..]), Called(j));
    var g := GroupOf(called, j);
    if g.pendingTasks != [] then StartNextTask(called, j)
    else if g.pendingMessages then StartRunForGroup(called, j)
    else Touch(called, j)
  }

  function DrainWaiting(q: Queue): Queue
    decreases |q.waiting|
  {
    if q.waiting == [] || q.activeCount >= q.maxConcurrent then q else DrainWaiting(ServeHead(q))
  }

  function DrainGroup(q: Queue, j: Jid): Queue {
    if q.shuttingDown then q
    else
      var g := GroupOf(q, j);
      if g.pendingTasks != [] then StartNextTask(q, j)
      else if g.pendingMessages then StartRunForGroup(q, j)
      else DrainWaiting(Note(Touch(q, j), SlotReleased(j)))
  }

  function ScheduleRetry(q: Queue, j: Jid): Queue {
    var g := GroupOf(q, j);
    if g.retryCount + 1 > q.maxRetries then Put(q, j, g.(retryCount := 0))
    else Spawn(Put(q, j, g.(retryCount := g.retryCount + 1)), Retry(j))
  }

  /** The slot is given back: `active` falls and the counter with it. */
  function Deactivate(q: Queue, j: Jid): Queue {
    Put(q, j, GroupOf(q, j).(active := false)).(activeCount := q.activeCount - 1)
  }

  function Forget(q: Queue, h: nat): Queue { q.(background := q.background - {h}) }

  /** First step of a run: everything up to its first suspension. */
  function BeginRun(q: Queue, h: nat): Queue
    requires h in q.background && !q.background[h].Retry?
  {
    q.(background := q.background[h := q.background[h].(started := true)])
  }

  /** The retry counter after a message run. */
  function RecordOutcome(q: Queue, j: Jid, outcome: Outcome): Queue {
    match outcome
    case Succeeded => Put(q, j, GroupOf(q, j).(retryCount := 0))
    case Failed | Raised => ScheduleRetry(q, j)
    case Cancelled => q
  }

  /** `_run_for_group` from the return of the message processor to the drain. */
  function SettleMessageRun(q: Queue, h: nat, outcome: Outcome): Queue
    requires h in q.background && q.background[h].RunForGroup?
  {
    var j := q.background[h].jid;
    Deactivate(RecordOutcome(Forget(q, h), j, outcome), j)
  }

  function FinishMessageRun(q: Queue, h: nat, outcome: Outcome): Queue
    requires h in q.background && q.background[h].RunForGroup?
  {
    DrainGroup(SettleMessageRun(q, h, outcome), q.background[h].jid)
  }

  /** `_run_task` from the return of the task to the drain; how the task ended does not matter to the queue. */
  function SettleTaskRun(q: Queue, h: nat): Queue
    requires h in q.background && q.background[h].RunTask?
  {
    var j := q.background[h].jid;
    var ended := Forget(q, h);
    var g := GroupOf(ended, j).(active := false, idleWaiting := false, isTaskContainer := false, runningTaskId := None);
    Put(ended, j, g).(activeCount := q.activeCount - 1)
  }

  function FinishTaskRun(q: Queue, h: nat): Queue
    requires h in q.background && q.background[h].RunTask?
  {
    DrainGroup(SettleTaskRun(q, h), q.background[h].jid)
  }

  function TimerFires(q: Queue, h: nat): Queue
    requires h in q.background && q.background[h].Retry?
  {
    EnqueueMessageCheck(Forget(q, h), q.background[h].jid)
  }

  function Shutdown(q: Queue): Queue { q.(shuttingDown := true) }

  // ----- steps and runs -----

  datatype Step =
    | DoEnqueueMessage(jid: Jid)
    | DoEnqueueTask(jid: Jid, id: string, fn: ScheduledTask)
    | DoNotifyIdle(jid: Jid)
    | DoBegin(h: nat)
    | DoFinishMessages(h: nat, outcome: Outcome)
    | DoFinishTask(h: nat)
    | DoTimer(h: nat)
    | DoShutdown
    | DoCancelUnstarted(h: nat)  // a coroutine cancelled before its first step, or a timer cancelled in its sleep

  predicate Enabled(q: Queue, s: Step) {
    match s
    case DoBegin(h) => h in q.background && !q.background[h].Retry? && !q.background[h].started
    case DoFinishMessages(h, _) => h in q.background && q.background[h].RunForGroup? && q.background[h].started
    case DoFinishTask(h) => h in q.background && q.background[h].RunTask? && q.background[h].started
    case DoTimer(h) => h in q.background && q.background[h].Retry?
    case DoCancelUnstarted(h) =>
      q.shuttingDown && h in q.background && (q.background[h].Retry? || !q.background[h].started)
    case _ => true
  }

  function Apply(q: Queue, s: Step): Queue
    requires Enabled(q, s)
  {
    match s
    case DoEnqueueMessage(j) => EnqueueMessageCheck(q, j)
    case DoEnqueueTask(j, id, fn) => EnqueueTask(q, j, id, fn)
    case DoNotifyIdle(j) => NotifyIdle(q, j)
    case DoBegin(h) => BeginRun(q, h)
    case DoFinishMessages(h, outcome) => FinishMessageRun(q, h, outcome)
    case DoFinishTask(h) => FinishTaskRun(q, h)
    case DoTimer(h) => TimerFires(q, h)
    case DoShutdown => Shutdown(q)
    case DoCancelUnstarted(h) => Forget(q, h)
  }

  /** Every step is possible at its turn. */
  predicate IsRun(q: Queue, steps: seq<Step>)
    decreases |steps|
  {
    steps == [] || (Enabled(q, steps[0]) && IsRun(Apply(q, steps[0]), steps[1..]))
  }

  function RunFrom(q: Queue, steps: seq<Step>): Queue
    requires IsRun(q, steps)
    decreases |steps|
  {
    if steps == [] then q else RunFrom(Apply(q, steps[0]), steps[1..])
  }
}
