/** Where a task is between its acceptance and the end of its run, and that it is in one place only. */
module QueueTasks {
  import opened Types
  import opened QueueModel
  import opened QueueInvariants

  predicate IsPending(q: Queue, j: Jid, t: QueuedTask) { t in GroupOf(q, j).pendingTasks }

  predicate IsRunning(q: Queue, h: nat, t: QueuedTask) {
    h in q.background && q.background[h].RunTask? && q.background[h].task == t
  }

  ghost predicate InQueue(q: Queue, t: QueuedTask) {
    (exists j :: IsPending(q, j, t)) || (exists h :: IsRunning(q, h, t))
  }

  /** No task came in. */
  ghost predicate OnlyLoses(q: Queue, q': Queue) { forall t :: InQueue(q', t) ==> InQueue(q, t) }

  /** What decides whether tasks come in: pending queues and task coroutines. */
  lemma NothingNew(q: Queue, q': Queue)
    requires forall j :: GroupOf(q', j).pendingTasks == GroupOf(q, j).pendingTasks
    requires forall h :: h in q'.background && q'.background[h].RunTask? ==>
      h in q.background && q.background[h].RunTask? && q.background[h].task == q'.background[h].task
    ensures OnlyLoses(q, q')
  {
    forall t | InQueue(q', t) ensures InQueue(q, t) {
      if j :| IsPending(q', j, t) {
        assert IsPending(q, j, t);
      } else {
        var h :| IsRunning(q', h, t);
        assert IsRunning(q, h, t);
      }
    }
  }

  lemma StartNextMoves(q: Queue, j: Jid)
    requires GroupOf(q, j).pendingTasks != []
    ensures OnlyLoses(q, StartNextTask(q, j))
  {
    var q', ts := StartNextTask(q, j), GroupOf(q, j).pendingTasks;
    forall t | InQueue(q', t) ensures InQueue(q, t) {
      if k :| IsPending(q', k, t) {
        assert IsPending(q, k, t);
      } else {
        var h :| IsRunning(q', h, t);
        if h == q.nextHandle { assert IsPending(q, j, ts[0]); } else { assert IsRunning(q, h, t); }
      }
    }
  }

  lemma ServeLoses(q: Queue)
    requires q.waiting != []
    ensures OnlyLoses(q, ServeHead(q))
  {
    var called := Note(q.(waiting := q.waiting[1..]), Called(q.waiting[0]));
    NothingNew(q, called);
    if GroupOf(q, q.waiting[0]).pendingTasks != [] {
      StartNextMoves(called, q.waiting[0]);
    } else {
      NothingNew(called, ServeHead(q));
    }
  }

  lemma {:induction false} DrainWaitingLoses(q: Queue)
    ensures OnlyLoses(q, DrainWaiting(q))
    decreases |q.waiting|
  {
    if q.waiting == [] || q.activeCount >= q.maxConcurrent {
    } else {
      ServeLoses(q);
      DrainWaitingLoses(ServeHead(q));
    }
  }

  lemma DrainLoses(q: Queue, j: Jid)
    ensures OnlyLoses(q, DrainGroup(q, j))
  {
    if q.shuttingDown {
    } else if GroupOf(q, j).pendingTasks != [] {
      StartNextMoves(q, j);
    } else if GroupOf(q, j).pendingMessages {
      NothingNew(q, StartRunForGroup(q, j));
    } else {
      var released := Note(Touch(q, j), SlotReleased(j));
      NothingNew(q, released);
      DrainWaitingLoses(released);
    }
  }

  lemma RetryLoses(q: Queue, j: Jid, count: int)
    ensures OnlyLoses(q, Put(q, j, GroupOf(q, j).(retryCount := count)))
  {
    NothingNew(q, Put(q, j, GroupOf(q, j).(retryCount := count)));
  }

  lemma ScheduleLoses(q: Queue, j: Jid)
    ensures OnlyLoses(q, ScheduleRetry(q, j))
  {
    NothingNew(q, ScheduleRetry(q, j));
  }

  lemma RecordLoses(q: Queue, j: Jid, outcome: Outcome)
    ensures OnlyLoses(q, RecordOutcome(q, j, outcome))
  {
    match outcome
    case Succeeded => RetryLoses(q, j, 0);
    case Failed | Raised => RetryLoses(q, j, 0); ScheduleLoses(q, j);
    case Cancelled =>
  }

  lemma ForgetLoses(q: Queue, h: nat)
    ensures OnlyLoses(q, Forget(q, h))
  {
    NothingNew(q, Forget(q, h));
  }

  lemma SettleLoses(q: Queue, h: nat, outcome: Outcome)
    requires h in q.background && q.background[h].RunForGroup?
    ensures OnlyLoses(q, SettleMessageRun(q, h, outcome))
  {
    var j, ended := q.background[h].jid, Forget(q, h);
    ForgetLoses(q, h);
    RecordLoses(ended, j, outcome);
    NothingNew(RecordOutcome(ended, j, outcome), Deactivate(RecordOutcome(ended, j, outcome), j));
  }

  lemma FinishMessagesLoses(q: Queue, h: nat, outcome: Outcome)
    requires h in q.background && q.background[h].RunForGroup?
    ensures OnlyLoses(q, FinishMessageRun(q, h, outcome))
  {
    SettleLoses(q, h, outcome);
    DrainLoses(SettleMessageRun(q, h, outcome), q.background[h].jid);
  }

  lemma EnqueueMessageLoses(q: Queue, j: Jid)
    ensures OnlyLoses(q, EnqueueMessageCheck(q, j))
  {
    NothingNew(q, EnqueueMessageCheck(q, j));
  }

  lemma NotifyIdleLoses(q: Queue, j: Jid)
    ensures OnlyLoses(q, NotifyIdle(q, j))
  {
    NothingNew(q, NotifyIdle(q, j));
  }

  lemma FinishTaskLoses(q: Queue, h: nat)
    requires h in q.background && q.background[h].RunTask?
    ensures OnlyLoses(q, FinishTaskRun(q, h))
  {
    NothingNew(q, SettleTaskRun(q, h));
    DrainLoses(SettleTaskRun(q, h), q.background[h].jid);
  }

  /** Only an enqueue brings a task in. */
  lemma StepLoses(q: Queue, s: Step)
    requires Enabled(q, s) && !s.DoEnqueueTask?
    ensures OnlyLoses(q, Apply(q, s))
  {
    match s
    case DoEnqueueMessage(j) => EnqueueMessageLoses(q, j);
    case DoNotifyIdle(j) => NotifyIdleLoses(q, j);
    case DoBegin(h) => NothingNew(q, BeginRun(q, h));
    case DoFinishMessages(h, outcome) => FinishMessagesLoses(q, h, outcome);
    case DoFinishTask(h) => FinishTaskLoses(q, h);
    case DoTimer(h) => ForgetLoses(q, h); EnqueueMessageLoses(Forget(q, h), q.background[h].jid);
    case DoShutdown => NothingNew(q, Shutdown(q));
    case DoCancelUnstarted(h) => ForgetLoses(q, h);
  }

  /** Only the new task comes in, and only if none of its id is in the group. */
  lemma EnqueueTaskAdds(q: Queue, j: Jid, id: string, fn: ScheduledTask)
    ensures forall t :: InQueue(EnqueueTask(q, j, id, fn), t) ==> InQueue(q, t) || t == QueuedTask(id, j, fn)
  {
    var q' := EnqueueTask(q, j, id, fn);
    forall t | InQueue(q', t) ensures InQueue(q, t) || t == QueuedTask(id, j, fn) {
      if k :| IsPending(q', k, t) {
        assert IsPending(q, k, t) || t == QueuedTask(id, j, fn);
      } else {
        var h :| IsRunning(q', h, t);
        assert IsRunning(q, h, t) || t == QueuedTask(id, j, fn);
      }
    }
  }

  /** A task of this id is pending or running. */
  ghost predicate IsQueued(q: Queue, id: string) { exists t :: InQueue(q, t) && t.id == id }

  lemma EnqueueTaskGrows(q: Queue, j: Jid, id: string, fn: ScheduledTask)
    requires Runs(q)
    ensures forall t :: InQueue(q, t) ==> InQueue(EnqueueTask(q, j, id, fn), t)
  {
    var q' := EnqueueTask(q, j, id, fn);
    forall t | InQueue(q, t) ensures InQueue(q', t) {
      if k :| IsPending(q, k, t) {
        assert IsPending(q', k, t);
      } else {
        var h :| IsRunning(q, h, t);
        assert IsRunning(q', h, t);
      }
    }
  }

  lemma RunningIdIsQueued(q: Queue, j: Jid, id: string)
    requires Runs(q) && Tidy(q) && !q.shuttingDown && GroupOf(q, j).runningTaskId == Some(id)
    ensures IsQueued(q, id)
  {
    assert GroupTidy(j, q.groups[j], q.maxRetries) && HasRun(q, j);
    var h :| LiveRun(q, h, j);
    assert IsRunning(q, h, q.background[h].task);
  }

  /** After an enqueue the task is in the queue, newly or from before. */
  lemma EnqueueTaskPlaces(q: Queue, j: Jid, id: string, fn: ScheduledTask)
    requires Runs(q) && Tidy(q) && !q.shuttingDown
    ensures IsQueued(EnqueueTask(q, j, id, fn), id)
  {
    var g, q', t := GroupOf(q, j), EnqueueTask(q, j, id, fn), QueuedTask(id, j, fn);
    if IsDuplicate(g, id) {
      if g.runningTaskId == Some(id) {
        RunningIdIsQueued(q, j, id);
      } else {
        var i :| 0 <= i < |g.pendingTasks| && g.pendingTasks[i].id == id;
        assert IsPending(q, j, g.pendingTasks[i]);
      }
    } else if g.active || q.activeCount >= q.maxConcurrent {
      assert t in g.pendingTasks + [t];
      assert IsPending(q', j, t);
    } else {
      assert IsRunning(q', q.nextHandle, t);
    }
  }

  /** When a task run ends, no task of its id is left in the group: neither behind it nor in another run. */
  lemma FinishTaskIsLast(q: Queue, h: nat, t: QueuedTask)
    requires Inv(q) && h in q.background && q.background[h].RunTask? && InQueue(FinishTaskRun(q, h), t)
    ensures InQueue(q, t)
    ensures t.groupJid == q.background[h].jid ==> t.id != q.background[h].task.id
  {
    var k, settled := q.background[h].jid, SettleTaskRun(q, h);
    DrainLoses(settled, k);
    assert LiveRun(q, h, k);
    if j :| IsPending(settled, j, t) {
      assert IsPending(q, j, t);
      var i :| 0 <= i < |q.groups[j].pendingTasks| && q.groups[j].pendingTasks[i] == t;
    } else {
      var i :| IsRunning(settled, i, t);
      assert IsRunning(q, i, t) && LiveRun(q, i, q.background[i].jid);
    }
  }
}
