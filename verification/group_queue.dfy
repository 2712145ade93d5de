/** The group queue with its mutable fields. Every method computes exactly the corresponding function of QueueModel;
    what is proved of those functions in QueueInvariants, QueueTheorems and QueueRetries is proved of the methods. */
module GroupQueueClass {
  import opened Types
  import opened QueueModel
  import opened QueueInvariants

  /** Whether the group's record exists already does not matter to where a task goes. */
  lemma TouchedPlaces(q: Queue, j: Jid, t: QueuedTask)
    ensures PlaceTask(Touch(q, j), j, t) == PlaceTask(q, j, t)
  {
    var g := GroupOf(q, j);
    OverwriteTwice(q.groups, j, g, g.(pendingTasks := g.pendingTasks + [t]));
    var running := g.(active := true, idleWaiting := false, isTaskContainer := true, runningTaskId := Some(t.id));
    OverwriteTwice(q.groups, j, g, running);
  }

  class GroupQueue {
    var groups: map<Jid, GroupState>
    var activeCount: int
    var waiting: seq<Jid>
    var shuttingDown: bool
    const maxConcurrent: int
    const maxRetries: int
    var background: map<nat, Coroutine>
    var nextHandle: nat
    ghost var history: History

    ghost function Value(): Queue
      reads this
    {
      Queue(groups, activeCount, waiting, shuttingDown, maxConcurrent, maxRetries, background, nextHandle, history)
    }

    constructor (maxConcurrentContainers: int, maxRetries: int)
      ensures Value() == Init(maxConcurrentContainers, maxRetries)
    {
      groups, activeCount, waiting, shuttingDown := map[], 0, [], false;
      maxConcurrent := Max(1, maxConcurrentContainers);
      this.maxRetries := maxRetries;
      background, nextHandle, history := map[], 0, Nothing;
    }

    // ----- internals -----

    method GetGroup(j: Jid) returns (g: GroupState)
      modifies this`groups
      ensures Value() == Touch(old(Value()), j) && g == GroupOf(old(Value()), j)
      ensures forall g' {:trigger groups[j := g']} :: groups[j := g'] == old(groups)[j := g']
    {
      if j !in groups {
        groups := groups[j := FRESH_GROUP];
      }
      g := groups[j];
    }

    method CreateBackgroundTask(c: Coroutine)
      modifies this`background, this`nextHandle
      ensures Value() == Spawn(old(Value()), c)
    {
      background, nextHandle := background[nextHandle := c], nextHandle + 1;
    }

    method CloseStdin(j: Jid)
      modifies this`history
      ensures Value() == Note(old(Value()), StdinClosed(j))
    {
      history := After(history, StdinClosed(j));
    }

    method StartRunForGroup(j: Jid)
      modifies this
      ensures Value() == QueueModel.StartRunForGroup(old(Value()), j)
    {
      var g := GetGroup(j);
      g := g.(active := true, idleWaiting := false, isTaskContainer := false, pendingMessages := false);
      groups := groups[j := g];
      activeCount := activeCount + 1;
      history := After(history, MessagesStarted(j));
      CreateBackgroundTask(RunForGroup(j, false));
    }

    method StartRunTask(j: Jid, t: QueuedTask)
      modifies this
      ensures Value() == QueueModel.StartRunTask(old(Value()), j, t)
    {
      var g := GetGroup(j);
      g := g.(active := true, idleWaiting := false, isTaskContainer := true, runningTaskId := Some(t.id));
      groups := groups[j := g];
      activeCount := activeCount + 1;
      history := After(history, TaskStarted(j, t));
      CreateBackgroundTask(RunTask(j, t, false));
    }

    method PopAndStart(j: Jid)
      requires GroupOf(Value(), j).pendingTasks != []
      modifies this
      ensures Value() == StartNextTask(old(Value()), j)
    {
      var g := GetGroup(j);
      var t := g.pendingTasks[0];
      groups := groups[j := g.(pendingTasks := g.pendingTasks[1..])];
      StartRunTask(j, t);
    }

    method Join(j: Jid)
      modifies this`waiting, this`history
      ensures Value() == JoinLine(old(Value()), j)
    {
      if j !in waiting {
        waiting := waiting + [j];
        history := After(history, Joined(j));
      }
    }

    method ScheduleRetry(j: Jid)
      modifies this
      ensures Value() == QueueModel.ScheduleRetry(old(Value()), j)
    {
      var g := GetGroup(j);
      var count := g.retryCount + 1;
      if count > maxRetries {
        groups := groups[j := g.(retryCount := 0)];
        return;
      }
      groups := groups[j := g.(retryCount := count)];
      CreateBackgroundTask(Retry(j));
    }

    method ServeHead()
      requires waiting != []
      modifies this
      ensures Value() == QueueModel.ServeHead(old(Value()))
    {
      var j := waiting[0];
      waiting := waiting[1..];
      history := After(history, Called(j));
      var g := GetGroup(j);
      if g.pendingTasks != [] {
        PopAndStart(j);
      } else if g.pendingMessages {
        StartRunForGroup(j);
      }
    }

    method DrainWaiting()
      modifies this
      ensures Value() == QueueModel.DrainWaiting(old(Value()))
    {
      while waiting != [] && activeCount < maxConcurrent
        invariant QueueModel.DrainWaiting(Value()) == QueueModel.DrainWaiting(old(Value()))
        decreases |waiting|
      {
        ServeHead();
      }
    }

    method DrainGroup(j: Jid)
      modifies this
      ensures Value() == QueueModel.DrainGroup(old(Value()), j)
    {
      if shuttingDown {
        return;
      }
      var g := GetGroup(j);
      if g.pendingTasks != [] {
        PopAndStart(j);
        return;
      }
      if g.pendingMessages {
        StartRunForGroup(j);
        return;
      }
      history := After(history, SlotReleased(j));
      DrainWaiting();
    }

    // ----- the segments -----

    method EnqueueMessageCheck(j: Jid)
      modifies this
      ensures Value() == QueueModel.EnqueueMessageCheck(old(Value()), j)
      ensures Inv(old(Value())) ==> Inv(Value())
    {
      if Inv(Value()) { EnqueueMessageKeeps(Value(), j); }
      if shuttingDown {
        return;
      }
      var g := GetGroup(j);
      if g.active {
        groups := groups[j := g.(pendingMessages := true)];
        return;
      }
      if activeCount >= maxConcurrent {
        groups := groups[j := g.(pendingMessages := true)];
        Join(j);
        return;
      }
      StartRunForGroup(j);
    }

    /** The rest of `enqueue_task`, once the task is accepted. */
    method PlaceTask(j: Jid, queued: QueuedTask)
      modifies this
      ensures Value() == QueueModel.PlaceTask(old(Value()), j, queued)
    {
      var g := GetGroup(j);
      if g.active {
        groups := groups[j := g.(pendingTasks := g.pendingTasks + [queued])];
        if g.idleWaiting {
          CloseStdin(j);
        }
        return;
      }
      if activeCount >= maxConcurrent {
        groups := groups[j := g.(pendingTasks := g.pendingTasks + [queued])];
        Join(j);
        return;
      }
      StartRunTask(j, queued);
    }

    method EnqueueTask(j: Jid, taskId: string, fn: ScheduledTask)
      modifies this
      ensures Value() == QueueModel.EnqueueTask(old(Value()), j, taskId, fn)
      ensures Inv(old(Value())) ==> Inv(Value())
    {
      if Inv(Value()) { EnqueueTaskKeeps(Value(), j, taskId, fn); }
      if shuttingDown {
        return;
      }
      var g := GetGroup(j);
      if g.runningTaskId == Some(taskId) {
        return;
      }
      if exists i :: 0 <= i < |g.pendingTasks| && g.pendingTasks[i].id == taskId {
        return;
      }
      var queued := QueuedTask(taskId, j, fn);
      history := After(history, Accepted(j, queued));
      TouchedPlaces(Note(old(Value()), Accepted(j, queued)), j, queued);
      PlaceTask(j, queued);
    }

    method NotifyIdle(j: Jid)
      modifies this
      ensures Value() == QueueModel.NotifyIdle(old(Value()), j)
      ensures Inv(old(Value())) ==> Inv(Value())
    {
      if Inv(Value()) { NotifyIdleKeeps(Value(), j); }
      var g := GetGroup(j);
      groups := groups[j := g.(idleWaiting := true)];
      if g.pendingTasks != [] {
        CloseStdin(j);
      }
    }

    /** First step of the coroutine `h`. */
    method BeginRun(h: nat)
      requires h in background && !background[h].Retry?
      modifies this`background
      ensures Value() == QueueModel.BeginRun(old(Value()), h)
      ensures Inv(old(Value())) ==> Inv(Value())
    {
      if Inv(Value()) { BeginKeepsMachine(Value(), h); CoroutinesOnly(Value(), QueueModel.BeginRun(Value(), h)); }
      background := background[h := background[h].(started := true)];
    }

    method Deactivate(j: Jid)
      modifies this
      ensures Value() == QueueModel.Deactivate(old(Value()), j)
    {
      var g := GetGroup(j);
      groups := groups[j := g.(active := false)];
      activeCount := activeCount - 1;
    }

    /** `_run_for_group` from the return of the message processor to the drain. */
    method SettleMessageRun(h: nat, outcome: Outcome)
      requires h in background && background[h].RunForGroup?
      modifies this
      ensures Value() == QueueModel.SettleMessageRun(old(Value()), h, outcome)
    {
      var j := background[h].jid;
      background := background - {h};
      if outcome.Succeeded? {
        var g := GetGroup(j);
        groups := groups[j := g.(retryCount := 0)];
      } else if !outcome.Cancelled? {
        ScheduleRetry(j);
      }
      Deactivate(j);
    }

    method FinishMessageRun(h: nat, outcome: Outcome)
      requires h in background && background[h].RunForGroup?
      modifies this
      ensures Value() == QueueModel.FinishMessageRun(old(Value()), h, outcome)
      ensures Inv(old(Value())) ==> Inv(Value())
    {
      if Inv(Value()) { FinishMessagesKeeps(Value(), h, outcome); }
      var j := background[h].jid;
      SettleMessageRun(h, outcome);
      DrainGroup(j);
    }

    /** `_run_task` from the return of the task to its end. */
    method FinishTaskRun(h: nat)
      requires h in background && background[h].RunTask?
      modifies this
      ensures Value() == QueueModel.FinishTaskRun(old(Value()), h)
      ensures Inv(old(Value())) ==> Inv(Value())
    {
      if Inv(Value()) { FinishTaskKeeps(Value(), h); }
      var j := background[h].jid;
      background := background - {h};
      var g := GetGroup(j);
      groups := groups[j := g.(active := false, idleWaiting := false, isTaskContainer := false, runningTaskId := None)];
      activeCount := activeCount - 1;
      assert Value() == SettleTaskRun(old(Value()), h);
      DrainGroup(j);
    }

    /** `_retry` after its sleep. */
    method TimerFires(h: nat)
      requires h in background && background[h].Retry?
      modifies this
      ensures Value() == QueueModel.TimerFires(old(Value()), h)
      ensures Inv(old(Value())) ==> Inv(Value())
    {
      if Inv(Value()) { StepKeeps(Value(), DoTimer(h)); }
      var j := background[h].jid;
      background := background - {h};
      if !shuttingDown {
        EnqueueMessageCheck(j);
      }
    }

    method Shutdown()
      modifies this`shuttingDown
      ensures Value() == QueueModel.Shutdown(old(Value()))
      ensures Inv(old(Value())) ==> Inv(Value())
    {
      if Inv(Value()) { ShutdownKeeps(Value()); }
      shuttingDown := true;
    }
  }
}
