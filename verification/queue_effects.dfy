/** What a step of the queue does to the coroutines and to the groups that it is not about. */
module QueueEffects {
  import opened Types
  import opened QueueModel
  import opened QueueInvariants
  import opened QueueRetries

  /** Coroutines only come, and only unstarted. */
  ghost predicate Grows(q: Queue, q': Queue) {
    && q.nextHandle <= q'.nextHandle
    && (forall h :: h in q.background ==> h in q'.background && q'.background[h] == q.background[h])
    && (forall h :: h in q'.background && h !in q.background ==>
          q.nextHandle <= h && (q'.background[h].Retry? || !q'.background[h].started))
  }

  /** A group that is running keeps its record, except that it may be told of new work. */
  ghost predicate LeavesRunning(q: Queue, q': Queue) {
    forall j :: GroupOf(q, j).active ==>
      GroupOf(q', j).active && (GroupOf(q, j).pendingMessages ==> GroupOf(q', j).pendingMessages)
  }

  ghost predicate Calm(q: Queue, q': Queue) { Grows(q, q') && LeavesRunning(q, q') }

  lemma SpawnGrows(q: Queue, q': Queue, c: Coroutine)
    requires Runs(q) && (c.Retry? || !c.started)
    requires q'.background == q.background[q.nextHandle := c] && q'.nextHandle == q.nextHandle + 1
    ensures Grows(q, q')
  {}

  lemma StartMessagesCalm(q: Queue, j: Jid)
    requires Runs(q) && !GroupOf(q, j).active
    ensures Calm(q, StartRunForGroup(q, j))
  {
    SpawnGrows(q, StartRunForGroup(q, j), RunForGroup(j, false));
  }

  lemma StartNextCalm(q: Queue, j: Jid)
    requires Runs(q) && !GroupOf(q, j).active && GroupOf(q, j).pendingTasks != []
    ensures Calm(q, StartNextTask(q, j))
  {
    SpawnGrows(q, StartNextTask(q, j), RunTask(j, GroupOf(q, j).pendingTasks[0], false));
  }

  lemma CallNextCalm(q: Queue, released: Queue)
    requires Runs(q) && q.waiting != [] && IsIdleWithWork(q, q.waiting[0])
    requires released.groups == q.groups && released.background == q.background && released.nextHandle == q.nextHandle
      && released.waiting == q.waiting && released.shuttingDown == q.shuttingDown
    ensures Calm(q, CallNext(released))
  {
    var called := CallHead(released);
    SameRuns(q, called);
    if GroupOf(q, q.waiting[0]).pendingTasks != [] {
      StartNextCalm(called, q.waiting[0]);
    } else {
      StartMessagesCalm(called, q.waiting[0]);
    }
  }

  lemma DrainCalm(q: Queue, k: Jid)
    requires Draining(q, k)
    ensures Calm(q, DrainGroup(q, k))
  {
    var g := q.groups[k];
    if g.pendingTasks != [] {
      StartNextCalm(q, k);
    } else if g.pendingMessages {
      StartMessagesCalm(q, k);
    } else {
      var released := Note(Touch(q, k), SlotReleased(k));
      assert released.groups == q.groups;
      if q.waiting != [] {
        assert q.waiting[0] in q.waiting;
        DrainCallsOne(released);
        CallNextCalm(q, released);
      }
    }
  }

  lemma EnqueueCalm(q: Queue, j: Jid)
    requires Inv(q)
    ensures Calm(q, EnqueueMessageCheck(q, j))
    ensures !q.shuttingDown ==>
      Tokens(EnqueueMessageCheck(q, j), j) > 0
      && (GroupOf(q, j).active ==> GroupOf(EnqueueMessageCheck(q, j), j).pendingMessages)
  {
    if !q.shuttingDown && !GroupOf(q, j).active && q.activeCount < q.maxConcurrent { StartMessagesCalm(q, j); }
  }

  lemma EnqueueTaskCalm(q: Queue, j: Jid, id: string, fn: ScheduledTask)
    requires Runs(q)
    ensures Calm(q, EnqueueTask(q, j, id, fn))
  {
    if !q.shuttingDown && !IsDuplicate(GroupOf(q, j), id) && !GroupOf(q, j).active && q.activeCount < q.maxConcurrent {
      var t := QueuedTask(id, j, fn);
      SpawnGrows(q, EnqueueTask(q, j, id, fn), RunTask(j, t, false));
    }
  }

  /** After a message run of `k` ends, up to the drain: what happened to the coroutines and to the other groups. */
  ghost predicate Over(q: Queue, q': Queue, h: nat, k: Jid) {
    && q.nextHandle <= q'.nextHandle
    && (forall i :: i in q.background && i != h ==> i in q'.background && q'.background[i] == q.background[i])
    && (forall i :: i in q'.background && i !in q.background ==>
          q.nextHandle <= i && (q'.background[i].Retry? || !q'.background[i].started))
    && h !in q'.background
    && (forall j :: j != k && GroupOf(q, j).active ==>
          GroupOf(q', j).active && (GroupOf(q, j).pendingMessages ==> GroupOf(q', j).pendingMessages))
  }

  lemma SettleMessagesOver(q: Queue, h: nat, outcome: Outcome)
    requires Runs(q) && h in q.background && q.background[h].RunForGroup?
    ensures Over(q, SettleMessageRun(q, h, outcome), h, q.background[h].jid)
  {
    SettleBackground(q, h, outcome);
  }

  lemma OverThenCalm(q: Queue, settled: Queue, q': Queue, h: nat, k: Jid)
    requires Over(q, settled, h, k) && Calm(settled, q') && h < q.nextHandle
    ensures Over(q, q', h, k)
  {}

  lemma FinishMessagesOver(q: Queue, h: nat, outcome: Outcome)
    requires Inv(q) && h in q.background && q.background[h].RunForGroup?
    ensures Over(q, FinishMessageRun(q, h, outcome), h, q.background[h].jid)
  {
    var k, settled := q.background[h].jid, SettleMessageRun(q, h, outcome);
    FinishMessagesKeeps(q, h, outcome);
    SettleMessagesOver(q, h, outcome);
    if !q.shuttingDown { DrainCalm(settled, k); OverThenCalm(q, settled, DrainGroup(settled, k), h, k); }
  }

  lemma FinishTaskOver(q: Queue, h: nat)
    requires Inv(q) && h in q.background && q.background[h].RunTask?
    ensures Over(q, FinishTaskRun(q, h), h, q.background[h].jid)
  {
    var k, settled := q.background[h].jid, SettleTaskRun(q, h);
    FinishTaskKeeps(q, h);
    assert Over(q, settled, h, k);
    if !q.shuttingDown { DrainCalm(settled, k); OverThenCalm(q, settled, DrainGroup(settled, k), h, k); }
  }

  /** When a message run ends, its group has a token left exactly if a message came meanwhile, a retry was set,
      or a timer was running anyway. */
  lemma FinishMessagesTokens(q: Queue, h: nat, outcome: Outcome, j: Jid)
    requires Inv(q) && h in q.background && q.background[h].RunForGroup?
    ensures Tokens(FinishMessageRun(q, h, outcome), j)
      == if j == q.background[h].jid
         then |Timers(q, j)| + Bit(GroupOf(q, j).pendingMessages) + Bit(IsRetried(q, h, outcome))
         else Tokens(q, j)
  {
    FinishMessagesState(q, h, outcome, j);
    assert LiveRun(q, h, q.background[h].jid);
  }

  // ----- the shutdown flag -----

  lemma {:induction false} DrainWaitingKeepsShutdown(q: Queue)
    ensures DrainWaiting(q).shuttingDown == q.shuttingDown
    decreases |q.waiting|
  {
    if q.waiting == [] || q.activeCount >= q.maxConcurrent {
    } else {
      DrainWaitingKeepsShutdown(ServeHead(q));
    }
  }

  lemma DrainKeepsShutdown(q: Queue, j: Jid)
    ensures DrainGroup(q, j).shuttingDown == q.shuttingDown
  {
    DrainWaitingKeepsShutdown(Note(Touch(q, j), SlotReleased(j)));
  }

  lemma FinishKeepsShutdown(q: Queue, h: nat, outcome: Outcome)
    requires h in q.background && q.background[h].RunForGroup?
    ensures FinishMessageRun(q, h, outcome).shuttingDown == q.shuttingDown
  {
    DrainKeepsShutdown(SettleMessageRun(q, h, outcome), q.background[h].jid);
  }

  /** Only a shutdown shuts down. */
  lemma StepKeepsShutdown(q: Queue, s: Step)
    requires Enabled(q, s) && !s.DoShutdown?
    ensures Apply(q, s).shuttingDown == q.shuttingDown
  {
    match s
    case DoFinishMessages(h, outcome) => FinishKeepsShutdown(q, h, outcome);
    case DoFinishTask(h) => DrainKeepsShutdown(SettleTaskRun(q, h), q.background[h].jid);
    case _ =>
  }
}
