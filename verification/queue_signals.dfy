/** What an observer of the queue sees when: the agent is told to finish only when it is idle and a task waits, messages
    start only when no task is pending, and after a shutdown nothing starts any more. */
module QueueSignals {
  import opened Types
  import opened QueueModel
  import opened QueueInvariants
  import opened QueueRetries

  // ----- counting -----

  /** How often the group's agent was told to finish. */
  ghost function Closes(h: History, j: Jid): nat {
    match h
    case Nothing => 0
    case After(e, StdinClosed(k)) => Closes(e, j) + Bit(k == j)
    case After(e, _) => Closes(e, j)
  }

  ghost function MessageStarts(h: History, j: Jid): nat {
    match h
    case Nothing => 0
    case After(e, MessagesStarted(k)) => MessageStarts(e, j) + Bit(k == j)
    case After(e, _) => MessageStarts(e, j)
  }

  ghost function Starts(h: History, j: Jid): nat { MessageStarts(h, j) + |StartedTasks(h, j)| }

  // ----- what a segment does to one group -----

  /** Nothing was started and nobody was told: if the group is running, it was running already, idle or not. */
  ghost predicate Keeps(q: Queue, q': Queue, j: Jid) {
    && Closes(q'.history, j) == Closes(q.history, j) && MessageStarts(q'.history, j) == MessageStarts(q.history, j)
    && StartedTasks(q'.history, j) == StartedTasks(q.history, j)
    && GroupOf(q', j).pendingTasks == GroupOf(q, j).pendingTasks
    && (GroupOf(q', j).active ==> GroupOf(q, j).active && GroupOf(q', j).idleWaiting == GroupOf(q, j).idleWaiting)
  }

  /** One run was started, of messages only if no task was pending; the new agent is not idle. */
  ghost predicate StartsOnce(q: Queue, q': Queue, j: Jid) {
    && Closes(q'.history, j) == Closes(q.history, j) && Starts(q'.history, j) == Starts(q.history, j) + 1
    && MessageStarts(q'.history, j) >= MessageStarts(q.history, j)
    && |GroupOf(q', j).pendingTasks| <= |GroupOf(q, j).pendingTasks|
    && (MessageStarts(q'.history, j) > MessageStarts(q.history, j) ==> GroupOf(q, j).pendingTasks == [])
    && GroupOf(q', j).active && !GroupOf(q', j).idleWaiting && !q.shuttingDown
  }

  ghost predicate KeepsOrStarts(q: Queue, q': Queue, j: Jid) { Keeps(q, q', j) || StartsOnce(q, q', j) }

  lemma KeepsThen(q: Queue, settled: Queue, q': Queue, j: Jid)
    requires Keeps(q, settled, j) && KeepsOrStarts(settled, q', j) && settled.shuttingDown == q.shuttingDown
    ensures KeepsOrStarts(q, q', j)
  {}

  lemma MessagesSignal(q: Queue, k: Jid, j: Jid)
    requires GroupOf(q, k).pendingTasks == [] && !q.shuttingDown
    ensures KeepsOrStarts(q, StartRunForGroup(q, k), j)
  {
    assert StartRunForGroup(q, k).history == After(q.history, MessagesStarted(k));
  }

  lemma TaskSignals(q: Queue, k: Jid, t: QueuedTask, j: Jid)
    requires !q.shuttingDown
    ensures KeepsOrStarts(q, StartRunTask(q, k, t), j)
  {
    assert StartRunTask(q, k, t).history == After(q.history, TaskStarted(k, t));
  }

  lemma NextTaskSignals(q: Queue, k: Jid, j: Jid)
    requires GroupOf(q, k).pendingTasks != [] && !q.shuttingDown
    ensures KeepsOrStarts(q, StartNextTask(q, k), j)
  {
    assert StartNextTask(q, k).history == After(q.history, TaskStarted(k, GroupOf(q, k).pendingTasks[0]));
  }

  lemma CallHeadKeepsAll(q: Queue, j: Jid)
    requires q.waiting != []
    ensures Keeps(q, CallHead(q), j)
  {
    assert CallHead(q).history == After(q.history, Called(q.waiting[0]));
  }

  lemma CallNextSignals(q: Queue, j: Jid)
    requires q.waiting != [] && !q.shuttingDown
    ensures KeepsOrStarts(q, CallNext(q), j)
  {
    var called, w := CallHead(q), q.waiting[0];
    CallHeadKeepsAll(q, j);
    if GroupOf(q, w).pendingTasks != [] { NextTaskSignals(called, w, j); } else { MessagesSignal(called, w, j); }
    KeepsThen(q, called, CallNext(q), j);
  }

  lemma ReleaseSignals(q: Queue, k: Jid, j: Jid)
    requires Draining(q, k) && !q.groups[k].HasWork()
    ensures KeepsOrStarts(q, DrainWaiting(Note(Touch(q, k), SlotReleased(k))), j)
  {
    var released := Note(Touch(q, k), SlotReleased(k));
    assert released.history == After(q.history, SlotReleased(k)) && released.groups == q.groups;
    assert Keeps(q, released, j);
    if q.waiting != [] {
      assert q.waiting[0] in q.waiting;
      DrainCallsOne(released);
      CallNextSignals(released, j);
    }
    KeepsThen(q, released, DrainWaiting(released), j);
  }

  lemma DrainSignals(q: Queue, k: Jid, j: Jid)
    requires Draining(q, k)
    ensures KeepsOrStarts(q, DrainGroup(q, k), j)
  {
    if q.groups[k].pendingTasks != [] {
      NextTaskSignals(q, k, j);
    } else if q.groups[k].pendingMessages {
      MessagesSignal(q, k, j);
    } else {
      ReleaseSignals(q, k, j);
    }
  }

  lemma OutcomeKeepsAll(q: Queue, k: Jid, outcome: Outcome, j: Jid)
    ensures Keeps(q, RecordOutcome(q, k, outcome), j)
  {}

  lemma SettleMessagesKeepsAll(q: Queue, h: nat, outcome: Outcome, j: Jid)
    requires h in q.background && q.background[h].RunForGroup?
    ensures Keeps(q, SettleMessageRun(q, h, outcome), j)
  {
    OutcomeKeepsAll(Forget(q, h), q.background[h].jid, outcome, j);
  }

  lemma FinishMessagesSignals(q: Queue, h: nat, outcome: Outcome, j: Jid)
    requires Inv(q) && h in q.background && q.background[h].RunForGroup?
    ensures KeepsOrStarts(q, FinishMessageRun(q, h, outcome), j)
  {
    var settled, k := SettleMessageRun(q, h, outcome), q.background[h].jid;
    SettleMessagesKeepsAll(q, h, outcome, j);
    if !q.shuttingDown {
      SettleMessagesDrains(q, h, outcome);
      DrainSignals(settled, k, j);
      KeepsThen(q, settled, DrainGroup(settled, k), j);
    }
  }

  lemma FinishTaskSignals(q: Queue, h: nat, j: Jid)
    requires Inv(q) && h in q.background && q.background[h].RunTask?
    ensures KeepsOrStarts(q, FinishTaskRun(q, h), j)
  {
    var settled, k := SettleTaskRun(q, h), q.background[h].jid;
    assert Keeps(q, settled, j);
    if !q.shuttingDown {
      FinishTaskKeeps(q, h);
      DrainSignals(settled, k, j);
      KeepsThen(q, settled, DrainGroup(settled, k), j);
    }
  }

  lemma EnqueueSignals(q: Queue, k: Jid, j: Jid)
    requires Inv(q)
    ensures KeepsOrStarts(q, EnqueueMessageCheck(q, k), j)
  {
    if !q.shuttingDown {
      if !GroupOf(q, k).active && q.activeCount < q.maxConcurrent {
        FreeSlotMeansNoIdleWork(q, k);
        MessagesSignal(q, k, j);
      } else {
        var flagged := Put(q, k, GroupOf(q, k).(pendingMessages := true));
        assert JoinLine(flagged, k).history == if k in q.waiting then q.history else After(q.history, Joined(k));
      }
    }
  }

  lemma TimerSignals(q: Queue, h: nat, j: Jid)
    requires Inv(q) && h in q.background && q.background[h].Retry?
    ensures KeepsOrStarts(q, TimerFires(q, h), j)
  {
    ForgetKeepsMachine(q, h);
    CoroutinesOnly(q, Forget(q, h));
    EnqueueSignals(Forget(q, h), q.background[h].jid, j);
    KeepsThen(q, Forget(q, h), TimerFires(q, h), j);
  }

  /** A group that is running is told at once if its agent is idle; whoever else gets the task is not told. */
  ghost predicate TakesTask(q: Queue, q': Queue, j: Jid) {
    && Closes(q'.history, j) == Closes(q.history, j) + Bit(GroupOf(q, j).active && GroupOf(q, j).idleWaiting)
    && Starts(q'.history, j) == Starts(q.history, j) && MessageStarts(q'.history, j) == MessageStarts(q.history, j)
    && |GroupOf(q', j).pendingTasks| == |GroupOf(q, j).pendingTasks| + 1
    && GroupOf(q', j).active == GroupOf(q, j).active && GroupOf(q', j).idleWaiting == GroupOf(q, j).idleWaiting
  }

  lemma PlaceSignals(q: Queue, k: Jid, t: QueuedTask, j: Jid)
    requires !q.shuttingDown
    ensures KeepsOrStarts(q, PlaceTask(q, k, t), j) || (j == k && TakesTask(q, PlaceTask(q, k, t), j))
  {
    var g := GroupOf(q, k);
    var queued := Put(q, k, g.(pendingTasks := g.pendingTasks + [t]));
    assert Note(queued, StdinClosed(k)).history == After(q.history, StdinClosed(k));
    assert JoinLine(queued, k).history == if k in q.waiting then q.history else After(q.history, Joined(k));
    if !g.active && q.activeCount < q.maxConcurrent { TaskSignals(q, k, t, j); }
  }

  lemma EnqueueTaskSignals(q: Queue, k: Jid, id: string, fn: ScheduledTask, j: Jid)
    ensures var q' := EnqueueTask(q, k, id, fn); KeepsOrStarts(q, q', j) || (j == k && TakesTask(q, q', j))
  {
    if !q.shuttingDown && !IsDuplicate(GroupOf(q, k), id) {
      var t := QueuedTask(id, k, fn);
      var accepted := Note(q, Accepted(k, t));
      assert accepted.history == After(q.history, Accepted(k, t));
      assert Keeps(q, accepted, j);
      PlaceSignals(accepted, k, t, j);
    }
  }

  lemma NotifySignals(q: Queue, k: Jid, j: Jid)
    ensures var q' := NotifyIdle(q, k);
      && Starts(q'.history, j) == Starts(q.history, j) && MessageStarts(q'.history, j) == MessageStarts(q.history, j)
      && Closes(q'.history, j) == Closes(q.history, j) + Bit(k == j && GroupOf(q, j).pendingTasks != [])
      && GroupOf(q', j) == GroupOf(q, j).(idleWaiting := if k == j then true else GroupOf(q, j).idleWaiting)
  {
    var idle := Put(q, k, GroupOf(q, k).(idleWaiting := true));
    assert Note(idle, StdinClosed(k)).history == After(q.history, StdinClosed(k));
  }

  /** Every step but an idle report and an accepted task only keeps or starts. */
  lemma StepSignals(q: Queue, s: Step, j: Jid)
    requires Inv(q) && Enabled(q, s) && !s.DoNotifyIdle? && !s.DoEnqueueTask?
    ensures KeepsOrStarts(q, Apply(q, s), j)
  {
    match s
    case DoEnqueueMessage(k) => EnqueueSignals(q, k, j);
    case DoFinishMessages(h, outcome) => FinishMessagesSignals(q, h, outcome, j);
    case DoFinishTask(h) => FinishTaskSignals(q, h, j);
    case DoTimer(h) => TimerSignals(q, h, j);
    case _ =>
  }

  // ----- who is told to finish -----

  /** The step reports the group's agent idle, or puts a task behind its run. */
  predicate GivesReason(q: Queue, s: Step, j: Jid)
    requires Enabled(q, s)
  {
    || s == DoNotifyIdle(j)
    || (s.DoEnqueueTask? && s.jid == j && GroupOf(Apply(q, s), j).active
        && |GroupOf(Apply(q, s), j).pendingTasks| > |GroupOf(q, j).pendingTasks|)
  }

  /** The agent of a group is told to finish exactly when, by an idle report or a new task, it is idle with a task
      waiting; and once for each. */
  lemma ToldExactlyWhen(q: Queue, s: Step, j: Jid)
    requires Inv(q) && Enabled(q, s)
    ensures var q' := Apply(q, s); var g := GroupOf(q', j);
      Closes(q'.history, j) == Closes(q.history, j) + Bit(GivesReason(q, s, j) && g.idleWaiting && g.pendingTasks != [])
  {
    match s
    case DoEnqueueTask(k, id, fn) => EnqueueTaskSignals(q, k, id, fn, j);
    case DoNotifyIdle(k) => NotifySignals(q, k, j);
    case _ => StepSignals(q, s, j);
  }

  /** In every run: whenever the agent is told to finish, it is idle and a task is waiting. */
  lemma NeverToldAtWork(c: int, r: int, steps: seq<Step>, s: Step, j: Jid)
    requires IsRun(Init(c, r), steps) && Enabled(RunFrom(Init(c, r), steps), s)
    ensures var q := RunFrom(Init(c, r), steps); var q' := Apply(q, s);
      Closes(q'.history, j) > Closes(q.history, j) ==> GroupOf(q', j).idleWaiting && GroupOf(q', j).pendingTasks != []
  {
    InitKeeps(c, r);
    RunKeeps(Init(c, r), steps);
    ToldExactlyWhen(RunFrom(Init(c, r), steps), s, j);
  }

  // ----- what idle means -----

  /** Along the run: an idle report of the group since its last start, or else `before`. */
  ghost predicate Reported(q: Queue, steps: seq<Step>, j: Jid, before: bool)
    requires IsRun(q, steps)
    decreases |steps|
  {
    if steps == [] then before
    else
      var next := Apply(q, steps[0]);
      var now := steps[0] == DoNotifyIdle(j) || (before && Starts(next.history, j) == Starts(q.history, j));
      Reported(next, steps[1..], j, now)
  }

  lemma StepKeepsIdle(q: Queue, s: Step, j: Jid)
    requires Inv(q) && Enabled(q, s)
    ensures var q' := Apply(q, s); GroupOf(q', j).active ==>
      if Starts(q'.history, j) > Starts(q.history, j) then !GroupOf(q', j).idleWaiting && s != DoNotifyIdle(j)
      else && Starts(q'.history, j) == Starts(q.history, j) && GroupOf(q, j).active
           && GroupOf(q', j).idleWaiting == (GroupOf(q, j).idleWaiting || s == DoNotifyIdle(j))
  {
    match s
    case DoEnqueueTask(k, id, fn) => EnqueueTaskSignals(q, k, id, fn, j);
    case DoNotifyIdle(k) => NotifySignals(q, k, j);
    case _ => StepSignals(q, s, j);
  }

  lemma {:induction false} IdleFollows(q: Queue, steps: seq<Step>, j: Jid, before: bool)
    requires Inv(q) && IsRun(q, steps) && (GroupOf(q, j).active ==> GroupOf(q, j).idleWaiting == before)
    ensures var q' := RunFrom(q, steps);
      GroupOf(q', j).active ==> GroupOf(q', j).idleWaiting == Reported(q, steps, j, before)
    decreases |steps|
  {
    if steps == [] {
    } else {
      var next := Apply(q, steps[0]);
      StepKeeps(q, steps[0]);
      StepKeepsIdle(q, steps[0], j);
      IdleFollows(next, steps[1..], j,
                  steps[0] == DoNotifyIdle(j) || (before && Starts(next.history, j) == Starts(q.history, j)));
    }
  }

  /** The agent of a running group counts as idle exactly if it has reported idle since its start. */
  lemma IdleMeansReported(c: int, r: int, steps: seq<Step>, j: Jid)
    requires IsRun(Init(c, r), steps) && GroupOf(RunFrom(Init(c, r), steps), j).active
    ensures GroupOf(RunFrom(Init(c, r), steps), j).idleWaiting <==> Reported(Init(c, r), steps, j, false)
  {
    InitKeeps(c, r);
    IdleFollows(Init(c, r), steps, j, false);
  }

  // ----- what starts -----

  lemma MessagesAfterTasks(q: Queue, s: Step, j: Jid)
    requires Inv(q) && Enabled(q, s)
    ensures MessageStarts(Apply(q, s).history, j) >= MessageStarts(q.history, j)
    ensures MessageStarts(Apply(q, s).history, j) > MessageStarts(q.history, j) ==> GroupOf(q, j).pendingTasks == []
  {
    match s
    case DoEnqueueTask(k, id, fn) => EnqueueTaskSignals(q, k, id, fn, j);
    case DoNotifyIdle(k) => NotifySignals(q, k, j);
    case _ => StepSignals(q, s, j);
  }

  /** In every run: a group's tasks come before its messages. */
  lemma TasksComeFirst(c: int, r: int, steps: seq<Step>, s: Step, j: Jid)
    requires IsRun(Init(c, r), steps) && Enabled(RunFrom(Init(c, r), steps), s)
    ensures var q := RunFrom(Init(c, r), steps);
      MessageStarts(Apply(q, s).history, j) > MessageStarts(q.history, j) ==> GroupOf(q, j).pendingTasks == []
  {
    InitKeeps(c, r);
    RunKeeps(Init(c, r), steps);
    MessagesAfterTasks(RunFrom(Init(c, r), steps), s, j);
  }

  /** Nothing is started or accepted, and nobody is lined up or called. */
  ghost predicate IsOver(q: Queue, q': Queue, j: Jid) {
    && q'.shuttingDown && Starts(q'.history, j) == Starts(q.history, j)
    && AcceptedTasks(q'.history, j) == AcceptedTasks(q.history, j) && q'.waiting == q.waiting
  }

  lemma SettledInShutdown(q: Queue, s: Step, j: Jid)
    requires Runs(q) && Enabled(q, s) && q.shuttingDown && !s.DoNotifyIdle?
    ensures Apply(q, s).history == q.history && Apply(q, s).waiting == q.waiting && Apply(q, s).shuttingDown
  {}

  lemma NotifyAccepts(q: Queue, k: Jid, j: Jid)
    ensures AcceptedTasks(NotifyIdle(q, k).history, j) == AcceptedTasks(q.history, j)
    ensures NotifyIdle(q, k).waiting == q.waiting && NotifyIdle(q, k).shuttingDown == q.shuttingDown
  {
    var idle := Put(q, k, GroupOf(q, k).(idleWaiting := true));
    assert Note(idle, StdinClosed(k)).history == After(q.history, StdinClosed(k));
  }

  /** From a shutdown on no run starts, no task is accepted and the line stands still, whatever happens. */
  lemma {:induction false} NothingStartsAfterShutdown(q: Queue, steps: seq<Step>, j: Jid)
    requires Inv(q) && IsRun(q, steps) && q.shuttingDown
    ensures IsOver(q, RunFrom(q, steps), j)
    decreases |steps|
  {
    if steps == [] {
    } else {
      if steps[0].DoNotifyIdle? {
        NotifySignals(q, steps[0].jid, j);
        NotifyAccepts(q, steps[0].jid, j);
      } else {
        SettledInShutdown(q, steps[0], j);
      }
      StepKeeps(q, steps[0]);
      NothingStartsAfterShutdown(Apply(q, steps[0]), steps[1..], j);
    }
  }

  /** A message run that succeeds gives its group the whole budget back for each way left to finish another one. */
  lemma SuccessRestoresBudget(q: Queue, h: nat)
    requires Inv(q) && h in q.background && q.background[h].RunForGroup?
    ensures var j, q' := q.background[h].jid, FinishMessageRun(q, h, Succeeded);
      Tokens(q', j) == Tokens(q, j) - 1 && Budget(q', j) == BudgetOf(Tokens(q', j), 0, q.maxRetries)
  {
    FinishMessagesState(q, h, Succeeded, q.background[h].jid);
  }
}
