# NanoClaw: verified model of the group queue, its consumers and its protocols

This project models the scheduling core of NanoClaw in Dafny and proves what it promises, for every run.

* **Group queue** (`nanoclaw/group_queue.py`). Many groups share a number of container slots. Each group has a message
  flag, a FIFO of pending tasks, a retry counter with timers and a place in a shared waiting line. `QueueModel` has one
  function per atomic segment, that is, the code between two real suspensions of the event loop, and a `Step` that picks
  any segment with any outcome. `QueueInvariants`, `QueueTheorems`, `QueueStarvation`, `QueueRetries`, `QueueBudget`,
  `QueueDifference`, `QueueEffects`, `QueueTasks` and `QueueSignals` prove what every run keeps. `GroupQueueClass` is the queue object
  itself, with mutable fields and the source's control flow; each method is proved to compute the function of its segment
  and to keep the invariant.
* **Message consumer** (`nanoclaw/app.py`, message part of `nanoclaw/db.py`). Inbound messages, runs that fetch past a
  cursor and commit it, recovery, saving, pruning, crash and restart: `MessageStore`, `AppModel`, `AppInvariants`,
  `AppTheorems`, `AppGates`, `AppBacklog`, and the objects in `Database` and `NanoClawApp`.
* **Recurring tasks** (`nanoclaw/task_scheduler.py`, task part of `nanoclaw/db.py`, `nanoclaw/ipc.py`). Polls, pauses,
  resumes, cancellations, new tasks, completed runs and restarts over any table of tasks, interleaved in any way on top
  of the queue: `Schedule`, `SchedulerModel`, `SchedulerTheorems`, `SchedulerTables`, `SchedulerRepeats`,
  `TaskSchedulerClass`. `Timestamps` and `Calendar` prove how the stored texts compare.
* **Output frames** (`nanoclaw/agent_runner.py`, `nanoclaw/container_runner.py`): `Markers`, `MarkerFrames`,
  `MarkerTheorems`.
* **Input directory** (`nanoclaw/ipc_io.py`, `nanoclaw/agent_runner.py`): `IpcNames`, `InputQueue`,
  `InputQueueInvariants`, `InputQueueTheorems`, `InputDirectory`.
* **Prompt encoding** (`nanoclaw/router.py`): `Prompt`.

`Ordering` has the order of strings and the lemma that decimals of fixed width keep the order of numbers; the file names
and the timestamps both rest on it. All theorems about runs quantify over every interleaving of the steps of their
machine, from the initial state; those of the scheduler from any table of tasks. Restarts of the process are steps of the
consumer, of the scheduler and of the input directory.

## Where the code does less than it seems to promise

Each of these comes with an input that the program can reach, and with the condition under which it happens.

* *Retry budget.* `tokens * (max_retries + 1) - retry_count` is never negative before a shutdown
  (`QueueDifference.NeverNegativeBeforeShutdown`). A shutdown can make it negative: from a non-negative value exactly the
  step that spends the last token of a group with retries behind it does so, which is the cancelled end of its message
  run, its timer firing into the shutdown, or its timer cancelled (`StepDifference`, over runs
  `NegativeExactlyWhenSpent`; a run from the start that does it is in `CancelledRetryOverdraws`). With no token left the
  budget is taken as 0; then it bounds the finished message runs always (`QueueRetries.RetriesStop`), and from every state
  before shutdown some run reaches the bound (`QueueBudget.BudgetIsReached`).
* *Long backlogs.* Of more than 200 eligible rows only the newest 200 reach the prompt, and the commit passes the rest:
  a row that was eligible when a committed run fetched is in that prompt or in no prompt ever, and none is cut exactly
  when at most 200 were eligible (`AppTheorems.PromptedNowOrNever`; 201 messages from the start: `AppBacklog.BacklogIsCut`).
  Likewise a row that is not past its group's cursor, for instance because it came in late with an old timestamp, is never
  fetched (`AppTheorems.PassedForever`). `NoMessageLost` is about the rows past the cursor.
* *One run per slot.* Due times are compared as texts, and `isoformat` leaves a zero fraction out. A slot with a fraction
  is due already when the clock reads its whole second. A run that also ends before its slot computes the same slot again
  and repeats it: exactly then, and only within that second (`SchedulerTheorems.SlotRunsTwiceExactlyWhenEarly`; a life of
  the process with n runs of one slot: `SchedulerRepeats.SlotCanRepeat`). This counts recorded runs: one that a crash cuts
  off before its record leaves its slot in the table, where the next process finds it due.
* *Cron by two clocks.* The first slot of a cron task is found by the clock of UTC, every later one by the configured time
  zone. So a task for nine o'clock may run first at another local hour; the first slot is the local one exactly if both
  clocks have the same next firing (`SchedulerTables.FirstCronSlotIsLocalExactlyWhen`; an example an hour east of UTC:
  `FirstCronSlotIsUtc`). From the second run on a cron task runs at local firings (`CronRunsAtFirings`).
* *Starvation.* A group keeps its slot while it has work of its own, so a waiting group may wait without bound
  (`QueueStarvation.WaitingHasNoBound`, for every number of slots). What holds is that each slot given back goes to the
  head of the line, so a group at index i waits for exactly i+1 of them (`QueueTheorems.OvertakingIsBounded`,
  `ReleaseStartsHead`).
* *Frames.* Frames never disturb each other, whatever the payloads are (`MarkerFrames.FramesScanApart`). A payload that
  contains the end marker is cut there and lost (an agent that answers with the marker: `MarkerTheorems.MentionIsLost`),
  so all outputs are found exactly when no payload contains it (`ScannerInvertsPrinter`). This assumes of a payload with
  the end marker that no text which its markers set off decodes on its own. For the text before an end marker and for the
  text from a start marker to the end of the payload that is true of every JSON object; but an answer that quotes a whole
  frame behind an end marker is found as what the quoted frame says (`InnerFrameIsFound`). A frame that decodes to
  something other than an object makes the program raise; the result of the scan says so (`Markers.Scan`).
* *Order of the input directory.* File names with one clock reading sort like their numbers only up to eight digits;
  `IpcNames.NumberOrder` says when they do beyond that, and `NinthDigitBreaksOrder` is the first pair that does not. After
  a restart the numbers begin again at 0, so the order across it, and even that names are distinct, rests on the clock
  having moved on: with that the directory theorems hold across restarts of the sender, and without it a document can be
  overwritten (`InputDirectory.StandingClockOverwrites`).

## Assumptions

An event loop is running. The clock does not go back, and it has moved on when a process comes back. Task ids are not
reused, and payloads of task requests are of the expected JSON types. Groups are registered before recovery, and
channels deliver a message under its own chat identifier. One process at a time sends into an input directory and one
reads from it; a directory listing is a snapshot. The cron library answers with the next firing of an expression; when
expressions fire is a parameter. What the agent, the channels, the JSON decoder, the sender allowlist, the trigger test
and the local time display answer are parameters; SQL queries answer any sequence that their `WHERE`, `ORDER BY` and
`LIMIT` allow (`IsFetch`, `IsDueList`).

## Model

| member | source | states |
|---|---|---|
| QueueTheorems.CapHolds | nanoclaw/group_queue.py:69-79 | In every reachable state, during and after shutdown too, the counter is the number of active groups and at most the cap; no group has two live runs. |
| QueueTheorems.NoLostWakeUp | nanoclaw/group_queue.py:171-196 | Until shutdown an inactive group has pending work exactly when it is in the waiting line, once; every active group has a live run; while anyone waits all slots are taken. |
| QueueTheorems.TasksStartOnceInOrder | nanoclaw/group_queue.py:81-107 | Per group the accepted tasks are the started ones followed by the pending ones; pending ids are distinct and differ from the running id, which is set exactly while a task runs. |
| QueueTheorems.IdleAgentIsTold | nanoclaw/group_queue.py:95-113 | A task that waits behind an idle agent implies that the agent was told to finish since its start. |
| QueueSignals.ToldExactlyWhen | nanoclaw/group_queue.py:95-113 | A step tells a group's agent to finish, once, exactly if it is an idle report or adds a task behind a run, and afterwards the agent is idle with a task waiting. |
| QueueSignals.NeverToldAtWork | nanoclaw/group_queue.py:95-113 | In every run from the start: whenever an agent is told to finish, it is idle and a task waits. |
| QueueSignals.IdleMeansReported | nanoclaw/group_queue.py:109-113 | The agent of a running group counts as idle exactly if it has reported idle since its run started. |
| QueueSignals.TasksComeFirst | nanoclaw/group_queue.py:171-196 | In every run from the start: messages of a group start only while no task of it is pending. |
| QueueSignals.NothingStartsAfterShutdown | nanoclaw/group_queue.py:63-107 | From a shutdown on no run starts, no task is accepted and the line stands still, whatever follows. |
| QueueTheorems.OvertakingIsBounded | nanoclaw/group_queue.py:188-196 | The group at index i of the line moves up one place per slot release and is called by exactly the (i+1)-th; nobody is inserted before it. |
| QueueTheorems.ReleaseStartsHead | nanoclaw/group_queue.py:171-196 | A run that ends in a group with nothing pending hands its slot to the head of the line and to nobody else. |
| QueueTheorems.StepMovesLine | nanoclaw/group_queue.py:188-196 | One step appends to the line or, if it releases a slot, takes its head; calls and releases are counted exactly. |
| QueueStarvation.WaitingHasNoBound | nanoclaw/group_queue.py:171-186 | For every number of slots and every n a run from the start finishes n runs of one group while another waits in the line and nobody is called. |
| QueueInvariants.StepKeeps | nanoclaw/group_queue.py:63-244 | Every step with any outcome keeps the whole invariant of the queue. |
| QueueInvariants.DrainKeeps | nanoclaw/group_queue.py:171-196 | The drain after a run restores the line invariant that the freed slot had broken. |
| QueueInvariants.FreeSlotMeansNoIdleWork | nanoclaw/group_queue.py:69-107 | While a slot is free, an inactive group has nothing pending, so the direct start is in FIFO order. |
| QueueRetries.RetriesStop | nanoclaw/group_queue.py:153-169 | Without outside enqueues a group finishes at most as many message runs as its budget, whatever their outcomes and whatever else happens. |
| QueueRetries.StepBudget | nanoclaw/group_queue.py:119-169 | No step raises the budget, and every finished message run lowers it by at least one. |
| QueueBudget.BudgetIsReached | nanoclaw/group_queue.py:119-196 | From every state before shutdown, whatever else is running, pending or waiting, some run without outside enqueues finishes exactly as many message runs as the budget says. |
| QueueBudget.OneEnqueueIsRetriedToTheEnd | nanoclaw/group_queue.py:153-169 | After one enqueue on a fresh queue that is max_retries + 1. |
| QueueSignals.SuccessRestoresBudget | nanoclaw/group_queue.py:126-127 | A message run that succeeds leaves its group the whole budget for each way left to finish another run. |
| QueueRetries.RetriedExactlyWhen | nanoclaw/group_queue.py:119-169 | The end of a message run sets one timer, for its own group, exactly if the run failed and retries are left. |
| QueueDifference.StepDifference | nanoclaw/group_queue.py:119-215 | From a non-negative difference, exactly the spending of the last token of a group with retries behind it leads to a negative one. |
| QueueDifference.NegativeExactlyWhenSpent | nanoclaw/group_queue.py:119-215 | A run keeps the difference non-negative exactly if none of its steps does that. |
| QueueDifference.NeverNegativeBeforeShutdown | nanoclaw/group_queue.py:63-169 | From the start and without shutdown and cancellation the difference is never negative. |
| QueueDifference.CancelledRetryOverdraws | nanoclaw/group_queue.py:198-215 | A run from the start whose shutdown cancels a retried run ends with the difference at -1. |
| QueueTasks.FinishTaskIsLast | nanoclaw/group_queue.py:140-151 | When a task run ends, no task of the same group with its id is pending or running any more. |
| QueueTasks.StepLoses | nanoclaw/group_queue.py:81-107 | No step but the enqueue of a task brings a task into the queue. |
| QueueTasks.EnqueueTaskPlaces | nanoclaw/group_queue.py:81-107 | After an enqueue before shutdown a task of that id is pending or running. |
| GroupQueueClass.GroupQueue.constructor | nanoclaw/group_queue.py:31-48 | The new object is the initial state. |
| GroupQueueClass.GroupQueue.EnqueueMessageCheck | nanoclaw/group_queue.py:63-79 | The object's new state is that of the segment: dropped, flagged, lined up or started; the invariant is kept. |
| GroupQueueClass.GroupQueue.EnqueueTask | nanoclaw/group_queue.py:81-107 | As above for a task: duplicates dropped, an idle agent told to finish. |
| GroupQueueClass.GroupQueue.NotifyIdle | nanoclaw/group_queue.py:109-113 | The idle flag is set; with pending tasks the agent is told to finish. |
| GroupQueueClass.GroupQueue.FinishMessageRun | nanoclaw/group_queue.py:119-138 | End of a message run: retry bookkeeping, slot given back, drain, as one segment. |
| GroupQueueClass.GroupQueue.FinishTaskRun | nanoclaw/group_queue.py:140-151 | End of a task run likewise. |
| GroupQueueClass.GroupQueue.ScheduleRetry | nanoclaw/group_queue.py:153-169 | The counter goes up and a timer is set, or the counter is reset once it is used up. |
| GroupQueueClass.GroupQueue.DrainGroup | nanoclaw/group_queue.py:171-186 | The group's own tasks come before its messages, and both before the line. |
| GroupQueueClass.GroupQueue.DrainWaiting | nanoclaw/group_queue.py:188-196 | The loop serves heads of the line while slots are free. |
| GroupQueueClass.GroupQueue.TimerFires | nanoclaw/group_queue.py:164-169 | A timer enqueues a message check unless the queue is shutting down. |
| GroupQueueClass.GroupQueue.StartRunForGroup | nanoclaw/group_queue.py:228-235 | Flags, counter and coroutine of a message run. |
| GroupQueueClass.GroupQueue.StartRunTask | nanoclaw/group_queue.py:237-244 | Flags, counter and coroutine of a task run. |
| GroupQueueClass.GroupQueue.Shutdown | nanoclaw/group_queue.py:198-199 | The flag is set. |
| AppTheorems.NoMessageLost | nanoclaw/app.py:191-208 | After recovery and until shutdown, an eligible row past the cursor of a registered group is with a message run in progress, flagged, or waiting for a timer; or the group's last run saw it and had no channel, found no trigger, failed after output was sent, or failed with its retries used up. |
| AppTheorems.LastRunIsLast | nanoclaw/app.py:269-363 | The last run of a group, as recorded, is the one that ended last in this process. |
| AppTheorems.ParkedWaits | nanoclaw/app.py:269-363 | A group without run, flag and timer stays so until it is announced again. |
| AppTheorems.EndingSetsTimer | nanoclaw/app.py:346-363 | A run is retried exactly if it raised, or failed before any output was sent, and retries are left. |
| AppTheorems.EndingMovesCursor | nanoclaw/app.py:349-356 | A committed run strictly raises its group's cursor and no other; every other ending leaves cursors, saved state and commits alone. |
| AppTheorems.CommittedAgainIsLater | nanoclaw/app.py:280-283 | Rows of a later commit of a group have strictly later timestamps than rows of an earlier one. |
| AppTheorems.CommittedAtMostOnce | nanoclaw/db.py:184-213 | Over every history, restarts included, a row is in at most one committed prompt, at one place. |
| AppTheorems.PromptedNowOrNever | nanoclaw/db.py:184-213 | A row eligible when a committed run fetched is in its prompt or in no prompt ever; all are in it exactly when at most 200 were eligible. |
| AppTheorems.PassedForever | nanoclaw/app.py:280-283 | A row not past its group's cursor is in no later answer of the query and in no later prompt, restarts included. |
| AppGates.AgentCalledExactlyWhen | nanoclaw/app.py:269-294 | From every state that keeps the books, a run that has just begun can commit or fail in the agent exactly if its group has a channel, there are eligible messages, and the group is main, needs no trigger or is triggered; otherwise which of the early returns it takes. |
| AppGates.AgentRunsWereAllowed | nanoclaw/app.py:269-294 | In every history a run that commits or fails in the agent began in an earlier step, on the rows it works on, when its group was registered and main, in no need of a trigger, or triggered by those rows. |
| AppGates.PromptedAreEligible | nanoclaw/db.py:184-213 | In every history the rows of a run are of its group, past its cursor, not empty, and neither from the assistant nor under its name. |
| AppGates.PlainIsEligible | nanoclaw/db.py:215-230 | A stored message with text, without a colon and not from the assistant is eligible exactly if it is past its group's cursor. |
| AppGates.InboundIsStored | nanoclaw/app.py:191-201 | A message for a registered group is stored in place of one with its id and announced; one for another chat leaves no trace. |
| AppGates.ReplyIsNoNews | nanoclaw/app.py:229-246 | What the assistant says is stored, is never eligible and announces nobody. |
| AppGates.RecoveryAnnouncesExactly | nanoclaw/app.py:203-208 | After recovery a group has a run, a flag or a timer exactly if it had one before or has an eligible row past its cursor. |
| AppGates.SavingPrunes | nanoclaw/app.py:86-96 | Cursors of registered groups are kept, the others dropped once any group is registered, and what is left is what is saved. |
| AppBacklog.BacklogIsCut | nanoclaw/app.py:354-356 | From the start 201 messages come in, one run commits, and one of them is in no prompt. |
| AppTheorems.RestartKeepsCursors | nanoclaw/app.py:75-96 | In every history a restart loses only the queue and the runs in progress: cursors, rows, registrations and commits are those that were in force. |
| AppInvariants.AppStepKeeps | nanoclaw/app.py:191-363 | Every step of the consumer keeps its books, among them that nothing eligible is unannounced. |
| MessageStore.LikeExamples | nanoclaw/db.py:193-199 | The name is matched without regard to ASCII case, `_` in it matches anything, and the colon must follow at once. |
| MessageStore.NothingIsCutExactlyWhen | nanoclaw/db.py:184-213 | A fetch cuts rows off exactly when more than the limit are admitted. |
| MessageStore.LastIsNewest | nanoclaw/db.py:184-213 | No admitted row is newer than the last fetched one, so the commit passes all of them. |
| MessageStore.FetchExists | nanoclaw/db.py:184-213 | The query has an answer for every table. |
| NanoClawApp.NanoClawApp.OnInboundMessage | nanoclaw/app.py:191-201 | Stored and announced, for registered groups only, and not from a sender who is dropped; the invariant is kept. |
| NanoClawApp.NanoClawApp.SendMessage | nanoclaw/app.py:229-246 | The assistant's text is stored and announces nothing; the invariant is kept. |
| NanoClawApp.NanoClawApp.RegisterGroup | nanoclaw/app.py:98-102 | The group is registered here and in the database; before recovery the invariant is kept. |
| NanoClawApp.NanoClawApp.RecoverPendingMessages | nanoclaw/app.py:203-208 | The loop announces every group with an eligible row past its cursor; over all registered groups it keeps the invariant. |
| NanoClawApp.NanoClawApp.SaveState | nanoclaw/app.py:86-96 | Cursors of unregistered groups are pruned once any group is registered; what is kept is saved. |
| NanoClawApp.NanoClawApp.Begin | nanoclaw/app.py:269-294 | The first step of a run, on any rows that the query can answer: what it fetched, and where it returns before the agent is called; the invariant is kept. |
| NanoClawApp.NanoClawApp.End | nanoclaw/app.py:349-363 | The end of a run, by any ending it can have: commit and save, or neither, then the queue's part; the invariant is kept. |
| NanoClawApp.NanoClawApp.constructor | nanoclaw/app.py:75-84 | A new process over the same database is the restart of the old one. |
| Database.NanoClawDb.UpdateTaskAfterRun | nanoclaw/db.py:330-341 | New slot; completed exactly if there is none. |
| Schedule.ComputeNextRun | nanoclaw/task_scheduler.py:23-60 | The case analysis and the catch-up loop. |
| Schedule.CatchUpClosed | nanoclaw/task_scheduler.py:55-58 | The loop equals the closed form s + ((now - s) div i + 1) * i, or s if it lies ahead. |
| Schedule.CatchUpIsLeast | nanoclaw/task_scheduler.py:55-58 | It is the least member of the progression after now, at most one interval ahead. |
| Schedule.EarlyRunRepeatsSlot | nanoclaw/task_scheduler.py:51-58 | The same slot comes out exactly when it still lies ahead. |
| Schedule.NextRunIsNextSlot | nanoclaw/task_scheduler.py:23-60 | What is computed is the next slot of the schedule: none for a single run, the next local firing for cron, one minute on for a bad interval, at once where there is no slot, else the first time of the slot's grid that lies ahead. |
| SchedulerTheorems.EachSlotRunsAtMostOnce | nanoclaw/task_scheduler.py:92-154 | From any table and across restarts: the slot of a later run of a task lies after the end of every earlier run, on the same grid for intervals; slots strictly increase after every run that did not end before its slot; a single-run task completes once. |
| SchedulerTheorems.SlotRunsTwiceExactlyWhenEarly | nanoclaw/db.py:300-310 | From any table and across restarts: consecutive runs of an interval task have the same slot exactly when the first ended before it, and then within its second. |
| SchedulerTables.NextRunHasNextSlot | nanoclaw/task_scheduler.py:152-154 | From any table and across restarts: every recorded run found its next slot by that rule, and the next run of the task has that slot. |
| SchedulerTables.CronRunsAtFirings | nanoclaw/task_scheduler.py:29-37 | From any table and across restarts: the slot of a later run of a cron task is a local firing of its expression, and none lies between the end of the run before and it. |
| SchedulerTables.FirstCronSlotIsLocalExactlyWhen | nanoclaw/ipc.py:214-218 | The first slot of a cron task is the next local firing exactly if that is also the next one by UTC. |
| SchedulerTables.FirstCronSlotIsUtc | nanoclaw/ipc.py:214-218 | An hour east of UTC a task for nine o'clock, scheduled at midnight of UTC, runs at ten first. |
| SchedulerTables.RowAfterRun | nanoclaw/db.py:330-341 | A recorded run leaves the next slot in its row, completes it exactly if there is none, and otherwise leaves its status, so that a pause during the run survives; no other row or column changes. |
| SchedulerTables.RowAfterNoRecord | nanoclaw/task_scheduler.py:108-129 | A run in a bad folder pauses its row and records nothing; one broken off changes nothing. |
| SchedulerTheorems.EarlyRunLeavesSlotDue | nanoclaw/task_scheduler.py:152-154 | A run taken too early and ended at once leaves its slot due. |
| SchedulerRepeats.SlotCanRepeat | nanoclaw/db.py:300-310 | For every n there is a life of the process in which one slot of an interval task is recorded n times. |
| SchedulerTheorems.PollQueuesEveryDueTask | nanoclaw/task_scheduler.py:92-98 | Before shutdown a poll leaves every due task pending or running. |
| SchedulerTables.PollTakesOnlyDue | nanoclaw/task_scheduler.py:92-98 | What a poll brings into the queue are the current rows of due tasks, each under the chat of its row. |
| SchedulerTables.SleepsUntilResumed | nanoclaw/ipc.py:206-211 | Over every life, restarts included: nothing of a paused task enters the queue until it is resumed, and nothing of a cancelled one ever. |
| SchedulerTheorems.DueListExists | nanoclaw/db.py:300-310 | The due query has an answer for every table and time. |
| SchedulerTheorems.FirstSlotIsAhead | nanoclaw/ipc.py:214-239 | The first slot of a cron or interval task lies ahead, and an interval task exists exactly with a valid interval. |
| SchedulerTheorems.FinishedIsFinal | nanoclaw/db.py:300-341 | No step makes a task without next run due, queued or running. |
| SchedulerTheorems.FinishedForever | nanoclaw/db.py:330-341 | From then on no run of it is recorded, restarts included. |
| SchedulerTheorems.CompletedMeansFinished | nanoclaw/db.py:330-341 | Completed status implies that there is no next run and nothing queued or running, in every state from any table on. |
| SchedulerTheorems.SchedStepKeeps | nanoclaw/task_scheduler.py:92-154 | Every poll, request, completion and restart keeps rows, snapshots and recorded runs consistent. |
| SchedulerTheorems.RequestsAreSteps | nanoclaw/ipc.py:147-187 | A request for a new task is a step of the machine or nothing. |
| SchedulerTheorems.MutationsAreSteps | nanoclaw/ipc.py:189-211 | So is a pause, resume or cancellation. |
| SchedulerTables.MutationMeans | nanoclaw/ipc.py:189-211 | A permitted pause makes the row due at no time, a resumption makes it due exactly when its slot has come, a cancellation removes it; other rows and columns stay, and every other request changes nothing. |
| SchedulerTables.RequestAddsRow | nanoclaw/ipc.py:147-187 | A request adds a row exactly if it is well-formed, permitted, for a registered group and with a usable schedule; the row has the folder and chat of the target group, is active and has the parsed time, the next UTC firing, or one interval from now as its slot. |
| SchedulerTheorems.MutationsStayHome | nanoclaw/ipc.py:189-211 | An agent that is not main changes no row of another folder. |
| SchedulerTheorems.SchedulesStayHome | nanoclaw/ipc.py:147-187 | Nor does its request for a new task. |
| TaskSchedulerClass.TaskScheduler.RunOnce | nanoclaw/task_scheduler.py:92-98 | The loop enqueues the due rows that still exist and are active, by their current snapshot; on any answer of the due query it keeps the invariant. |
| TaskSchedulerClass.TaskScheduler.RunAndRecord | nanoclaw/task_scheduler.py:108-154 | Recorded, paused for a bad folder, or broken off; then the queue's end of the run; the invariant is kept. |
| TaskSchedulerClass.IpcWatcher.HandleScheduleTask | nanoclaw/ipc.py:147-187 | Checks, first run and new row. |
| TaskSchedulerClass.IpcWatcher.HandleTaskMutation | nanoclaw/ipc.py:189-211 | Checks and the change of the row. |
| Timestamps.TextOrderIsTimeOrder | nanoclaw/task_scheduler.py:19-20 | Texts order like times exactly unless both lie in one second and only one prints a fraction. |
| Timestamps.DueQueryIsOff | nanoclaw/db.py:300-310 | When the due query is too early and when too late, exactly. |
| Timestamps.IsoIsInjective | nanoclaw/db.py:121-123 | Different times have different texts. |
| Timestamps.IsoText | nanoclaw/task_scheduler.py:19-20 | The text of a time, spelled out; a fraction has six digits or is left out. |
| Calendar.TextsCompareAsModelled | nanoclaw/db.py:300-310 | For all times from 1970 to beyond 9900 the texts of their UTC dates compare as the scheduler model does. |
| Calendar.UtcIsCalendar | nanoclaw/task_scheduler.py:19-20 | The UTC calendar writes times in their order. |
| Calendar.DateOfIsDate | nanoclaw/task_scheduler.py:19-20 | The dates are those of the Gregorian calendar: the n-th day after the start of 1970 has day number n by the rule of leap years. |
| Markers.ExtractMarkers | nanoclaw/container_runner.py:61-87 | The loop collects what the scan specification says, or raises exactly where that does: at a document that is no object. |
| MarkerFrames.ScanRaisesExactlyWhen | nanoclaw/container_runner.py:75-86 | The scan raises exactly if one of the texts it reads, stripped and not blank, decodes to something other than an object. |
| MarkerFrames.TurnTakesFirst | nanoclaw/container_runner.py:64-73 | A turn takes the first start marker and the first end marker from its beginning on; where the two overlap, the text between is empty. |
| Markers.StripIs | nanoclaw/container_runner.py:71 | Stripping takes the white space off both ends and nothing else. |
| Markers.BlankIsStripped | nanoclaw/container_runner.py:71-73 | A blank text strips to nothing. |
| Markers.Output.WriteOutput | nanoclaw/agent_runner.py:31-35 | One frame is appended. |
| MarkerTheorems.ScannerInvertsPrinter | nanoclaw/container_runner.py:61-87 | From printed frames with noise between them the scanner returns every output in order but those whose payload contains the end marker, so all of them exactly when none does. |
| MarkerFrames.FramesScanApart | nanoclaw/container_runner.py:64-74 | For any payloads the texts read in the whole output are those read in each frame alone: no marker match straddles a frame border. |
| MarkerTheorems.ReadsPieces | nanoclaw/container_runner.py:64-74 | Of a payload with the end marker the text before the first one is read, and then only texts that its own markers set off. |
| Markers.ScanIsMonotone | nanoclaw/container_runner.py:61-87 | What is found in a prefix of the output is a prefix of what is found in all of it, unless the whole raises; where the prefix raises the whole does. |
| MarkerTheorems.MentionIsLost | nanoclaw/container_runner.py:68-74 | The document of an agent that answers with the end marker yields nothing. |
| MarkerTheorems.InnerFrameIsFound | nanoclaw/container_runner.py:65-74 | The document of an agent that answers with an end marker and a frame around `{}` yields the error output that `{}` stands for. |
| MarkerFrames.OutputIsProper | nanoclaw/constants.py:3-4 | The two markers do not contain each other or a newline. |
| InputQueueTheorems.DeliveredExactlyOnce | nanoclaw/ipc_io.py:30-41 | Under any interleaving, restarts of the sender included, every finished send is in the directory or delivered, never both, nothing twice, nothing else, and no half-written document is visible. |
| InputQueueTheorems.DeliveredInOrder | nanoclaw/ipc_io.py:23-27 | A send that finished before another read the clock is delivered before it, across restarts of the sender too. |
| InputQueueTheorems.IsFifoQueue | nanoclaw/ipc_io.py:58-69 | With one sender at a time what came out is a prefix of what was sent, and all of it once no document is left. |
| InputQueueTheorems.DrainDeliversEarlierSends | nanoclaw/agent_runner.py:96-108 | A send that finished before a drain started is delivered when that drain has used up its listing, whatever other sends do meanwhile. |
| InputQueueInvariants.TakeKeepsOrder | nanoclaw/agent_runner.py:96-108 | Reading and unlinking the next listed file keeps the order. |
| InputDirectory.IpcDirectory.OrderedFilename | nanoclaw/ipc_io.py:23-27 | The name from clock reading and counter, and the counter moved on. |
| InputDirectory.IpcDirectory.WriteIpcJson | nanoclaw/ipc_io.py:30-37 | The document under its final name, the temporary file gone. |
| InputDirectory.IpcDirectory.Drain | nanoclaw/ipc_io.py:58-69 | The messages of the listed files in order, and no document left. |
| InputDirectory.SendIsRun | nanoclaw/ipc_io.py:30-41 | An uninterrupted send is a run of the machine with the same effect. |
| InputDirectory.DrainIsRun | nanoclaw/agent_runner.py:96-108 | So is an uninterrupted drain, the listing included. |
| InputDirectory.StandingClockOverwrites | nanoclaw/ipc_io.py:23-36 | If the counter begins again at one clock reading, the next send takes the name of the last one and overwrites its document. |
| InputDirectory.ListingExists | nanoclaw/ipc_io.py:60 | Every directory has a sorted listing, so a drain can always start. |
| IpcNames.NamesSortLikeNumbers | nanoclaw/ipc_io.py:27 | In range, names sort exactly by clock reading and then by number. |
| IpcNames.NumberOrder | nanoclaw/ipc_io.py:27 | When two numbers of any size sort correctly at one clock reading. |
| IpcNames.NinthDigitBreaksOrder | nanoclaw/ipc_io.py:27 | 100000000 sorts before 99999999. |
| IpcNames.NamesAreInjective | nanoclaw/ipc_io.py:23-27 | No two sends share a name, however large the numbers. |
| IpcNames.NameShape | nanoclaw/ipc_io.py:27 | In range a name is twenty digits, a dash, eight digits and `.json`. |
| IpcNames.TmpNeverMatches | nanoclaw/ipc_io.py:34-36 | A temporary name does not match the drainer's pattern. |
| Ordering.FixedOrder | nanoclaw/ipc_io.py:27 | Decimals of fixed width order like numbers. |
| Prompt.FormatMessages | nanoclaw/router.py:19-29 | The loop and the join produce the specified prompt, and a decoder finds in it as many entries as there are messages, each with sender name, displayed time and content of its message. |
| Prompt.PromptText | nanoclaw/router.py:19-29 | The prompt spelled out: context, opening tag, one line for each message, closing tag. |
| Prompt.EscapeOne | nanoclaw/router.py:13-16 | The five replacements, one after the other, act on each character separately. |
| Prompt.UnescapeInverts | nanoclaw/router.py:13-16 | Escaping loses nothing, on any text. |
| Prompt.EscapedIsInert | nanoclaw/router.py:13-16 | Escaped text contains no quote and no angle bracket. |
| Prompt.DecodeInverts | nanoclaw/router.py:19-29 | A decoder recovers sender, display time and content of every message. |
| Prompt.FormatIsInjective | nanoclaw/router.py:19-29 | For a fixed timezone different conversations make different prompts. |

## Left out

- GroupQueueClass.GroupQueue.GetGroup: the per-group record is a value in a map, so a record held by a coroutine across a suspension is looked up again instead of shared; the source reads no stale field of it.
- GroupQueueClass.GroupQueue.Shutdown: the grace period, the waiting and the final clearing of the set of background coroutines; that they may be cancelled at any point is part of the machine.
- NanoClawApp.NanoClawApp.RegisterGroup: the folder check and the log directory.
- NanoClawApp.NanoClawApp.End: the session that the agent returns is not stored.
- NanoClawApp.NanoClawApp.constructor: the fallback to no cursors when the saved row does not decode; `save_state` only writes rows that do.
- TaskSchedulerClass.TaskScheduler.RunAndRecord: the log of task runs.
- Database.NanoClawDb.UpdateTaskAfterRun: the columns `last_run` and `last_result`, on which nothing depends.
- InputDirectory.IpcDirectory.Drain: a file that vanishes or holds JSON other than an object raises in the source; with one reader and the documents of `send_container_input` neither occurs.
- Queue without an event loop: the source then drops the coroutine although its slot is counted.
- Back-off delays: a timer may fire at any moment.
- NanoClawApp.NanoClawApp.SaveState: the `last_timestamp` row beside the cursors, which nothing in the modelled code changes.
- Agent sessions: pruning drops them in memory only, so saving and loading does not bring them back.
- Database failures after the cursor is committed, and SQLite, JSON, cron expressions, time zones and regular expressions themselves.
- `strip_internal_tags`: one substitution by a regular expression; removing one pair of tags can form another.
- Cron expressions that do not parse: the library raises, so a request changes nothing and a run counts as broken off.
- Survival of the request watcher on malformed payloads: a repeated task id or a payload that is not an object ends its loop.
- The agent's main loop and its calls of the Claude command line.
- HTTP servers, credential proxy, subprocesses, channels, sender allowlist, mounts, folder checks and configuration.
