/** The retry process of one group stops: an exact bound on how many message runs it can still finish. */
module QueueRetries {
  import opened Types
  import opened QueueModel
  import opened QueueInvariants

  ghost function Timers(q: Queue, j: Jid): set<nat> { set h | h in q.background && q.background[h] == Retry(j) }

  function Bit(b: bool): nat { if b then 1 else 0 }

  /** The ways in which group `j` can come to finish another message run. */
  ghost function Tokens(q: Queue, j: Jid): nat {
    |Timers(q, j)| + Bit(GroupOf(q, j).pendingMessages) + Bit(GroupOf(q, j).active && !GroupOf(q, j).isTaskContainer)
  }

  ghost function BudgetOf(tokens: nat, retryCount: int, maxRetries: int): int {
    if tokens == 0 then 0 else tokens * (Max(0, maxRetries) + 1) - retryCount
  }

  ghost function Budget(q: Queue, j: Jid): int { BudgetOf(Tokens(q, j), GroupOf(q, j).retryCount, q.maxRetries) }

  /** The part of the state that the budget of `j` reads. */
  ghost predicate SameBudget(q: Queue, q': Queue, j: Jid) {
    && Tokens(q', j) == Tokens(q, j) && GroupOf(q', j).retryCount == GroupOf(q, j).retryCount
    && q'.maxRetries == q.maxRetries
  }

  lemma BudgetNatural(q: Queue, j: Jid)
    requires Tidy(q)
    ensures 0 <= Budget(q, j) && (Tokens(q, j) > 0 ==> Budget(q, j) >= 1)
  {
    var t, m := Tokens(q, j), Max(0, q.maxRetries);
    if t > 0 { assert t * (m + 1) >= m + 1; }
  }

  lemma OneTokenIsWorth(t': nat, t: nat, k: nat)
    requires t' < t
    ensures t' * k + k <= t * k
  {
    assert t * k == t' * k + (t - t') * k;
    assert (t - t') * k == k + (t - t' - 1) * k;
  }

  /** One token less, with the counter wherever it likes, or a retry in exchange for the token of a failed run. */
  lemma BudgetFalls(t: nat, c: int, t': nat, c': int, m: int)
    requires t > 0 && 0 <= c <= Max(0, m) && 0 <= c'
    requires t' < t || (t' == t && c' > c)
    ensures BudgetOf(t', c', m) <= BudgetOf(t, c, m) - 1
  {
    var k := Max(0, m) + 1;
    if t' < t {
      OneTokenIsWorth(t', t, k);
      OneTokenIsWorth(0, t, k);
    }
  }

  lemma SpawnTimers(q: Queue, q': Queue, c: Coroutine, j: Jid)
    requires Runs(q) && q'.background == q.background[q.nextHandle := c]
    ensures |Timers(q', j)| == |Timers(q, j)| + Bit(c == Retry(j))
  {
    if c == Retry(j) {
      assert Timers(q', j) == Timers(q, j) + {q.nextHandle};
    } else {
      assert Timers(q', j) == Timers(q, j);
    }
  }

  lemma StartMessagesSameBudget(q: Queue, k: Jid, j: Jid)
    requires Machine(q) && !GroupOf(q, k).active && GroupOf(q, k).pendingMessages
    ensures SameBudget(q, StartRunForGroup(q, k), j)
  {
    SpawnTimers(q, StartRunForGroup(q, k), RunForGroup(k, false), j);
  }

  lemma StartNextSameBudget(q: Queue, k: Jid, j: Jid)
    requires Machine(q) && !GroupOf(q, k).active && GroupOf(q, k).pendingTasks != []
    ensures SameBudget(q, StartNextTask(q, k), j)
  {
    SpawnTimers(q, StartNextTask(q, k), RunTask(k, GroupOf(q, k).pendingTasks[0], false), j);
  }

  lemma CallNextSameBudget(q: Queue, j: Jid)
    requires Machine(q) && q.waiting != [] && IsIdleWithWork(q, q.waiting[0]) && q.activeCount == q.maxConcurrent - 1
    ensures SameBudget(q, DrainWaiting(q), j)
  {
    DrainCallsOne(q);
    var k, called := q.waiting[0], CallHead(q);
    SameRuns(q, called);
    assert Machine(called) by { assert ActiveGroups(called) == ActiveGroups(q); }
    assert Timers(called, j) == Timers(q, j);
    if GroupOf(q, k).pendingTasks != [] {
      StartNextSameBudget(called, k, j);
    } else {
      StartMessagesSameBudget(called, k, j);
    }
  }

  lemma DrainSameBudget(q: Queue, k: Jid, j: Jid)
    requires Draining(q, k)
    ensures SameBudget(q, DrainGroup(q, k), j)
  {
    var g := q.groups[k];
    if g.pendingTasks != [] {
      StartNextSameBudget(q, k, j);
    } else if g.pendingMessages {
      StartMessagesSameBudget(q, k, j);
    } else {
      var released := Note(Touch(q, k), SlotReleased(k));
      assert released.groups == q.groups;
      assert Timers(released, j) == Timers(q, j);
      if q.waiting != [] {
        assert q.waiting[0] in q.waiting;
        StayKeepsMachine(q, released, k, g);
        CallNextSameBudget(released, j);
      }
    }
  }

  lemma SameTimers(q: Queue, q': Queue, j: Jid)
    requires q'.background == q.background
    ensures Timers(q', j) == Timers(q, j)
  {}

  lemma EnqueueTimers(q: Queue, k: Jid, j: Jid)
    requires Runs(q)
    ensures |Timers(EnqueueMessageCheck(q, k), j)| == |Timers(q, j)|
  {
    var q' := EnqueueMessageCheck(q, k);
    if !q.shuttingDown && !GroupOf(q, k).active && q.activeCount < q.maxConcurrent {
      SpawnTimers(q, q', RunForGroup(k, false), j);
    } else {
      SameTimers(q, q', j);
    }
  }

  lemma EnqueueBudget(q: Queue, k: Jid, j: Jid)
    requires Inv(q)
    ensures var q' := EnqueueMessageCheck(q, k);
      && GroupOf(q', j).retryCount == GroupOf(q, j).retryCount && q'.maxRetries == q.maxRetries
      && Tokens(q, j) <= Tokens(q', j) <= Tokens(q, j) + Bit(k == j)
  {
    EnqueueTimers(q, k, j);
    if !q.shuttingDown && !GroupOf(q, k).active && q.activeCount < q.maxConcurrent { FreeSlotMeansNoIdleWork(q, k); }
  }

  lemma EnqueueTaskTimers(q: Queue, k: Jid, id: string, fn: ScheduledTask, j: Jid)
    requires Runs(q)
    ensures |Timers(EnqueueTask(q, k, id, fn), j)| == |Timers(q, j)|
  {
    var q' := EnqueueTask(q, k, id, fn);
    if !q.shuttingDown && !IsDuplicate(GroupOf(q, k), id) && !GroupOf(q, k).active && q.activeCount < q.maxConcurrent {
      SpawnTimers(q, q', RunTask(k, QueuedTask(id, k, fn), false), j);
    } else {
      SameTimers(q, q', j);
    }
  }

  lemma EnqueueTaskFlags(q: Queue, k: Jid, id: string, fn: ScheduledTask, j: Jid)
    ensures var g, g' := GroupOf(q, j), GroupOf(EnqueueTask(q, k, id, fn), j);
      && g'.pendingMessages == g.pendingMessages && g'.retryCount == g.retryCount
      && (g'.active && !g'.isTaskContainer <==> g.active && !g.isTaskContainer)
    ensures EnqueueTask(q, k, id, fn).maxRetries == q.maxRetries
  {}

  lemma EnqueueTaskSameBudget(q: Queue, k: Jid, id: string, fn: ScheduledTask, j: Jid)
    requires Runs(q)
    ensures SameBudget(q, EnqueueTask(q, k, id, fn), j)
  {
    EnqueueTaskTimers(q, k, id, fn, j);
    EnqueueTaskFlags(q, k, id, fn, j);
  }

  predicate Finishes(q: Queue, s: Step, j: Jid)
    requires Enabled(q, s)
  {
    s.DoFinishMessages? && q.background[s.h].jid == j
  }

  predicate IsRetried(q: Queue, h: nat, outcome: Outcome)
    requires h in q.background && q.background[h].RunForGroup?
  {
    outcome in {Failed, Raised} && GroupOf(q, q.background[h].jid).retryCount + 1 <= q.maxRetries
  }

  lemma SettleBackground(q: Queue, h: nat, outcome: Outcome)
    requires h in q.background && q.background[h].RunForGroup?
    ensures SettleMessageRun(q, h, outcome).background
      == if IsRetried(q, h, outcome) then (q.background - {h})[q.nextHandle := Retry(q.background[h].jid)]
         else q.background - {h}
  {}

  lemma SettleTimers(q: Queue, q': Queue, h: nat, retried: bool, j: Jid)
    requires Runs(q) && h in q.background && q.background[h].RunForGroup?
    requires q'.background
      == if retried then (q.background - {h})[q.nextHandle := Retry(q.background[h].jid)] else q.background - {h}
    ensures |Timers(q', j)| == |Timers(q, j)| + Bit(retried && q.background[h].jid == j)
  {
    if retried && q.background[h].jid == j {
      assert Timers(q', j) == Timers(q, j) + {q.nextHandle};
    } else {
      assert Timers(q', j) == Timers(q, j);
    }
  }

  function CounterAfter(q: Queue, h: nat, outcome: Outcome): int
    requires h in q.background && q.background[h].RunForGroup?
  {
    var c := GroupOf(q, q.background[h].jid).retryCount;
    if IsRetried(q, h, outcome) then c + 1 else if outcome == Cancelled then c else 0
  }

  /** What the end of a message run, up to the drain, does to counter and tokens. */
  lemma SettleMessagesState(q: Queue, h: nat, outcome: Outcome, j: Jid)
    requires Runs(q) && h in q.background && q.background[h].RunForGroup?
    ensures var k, q' := q.background[h].jid, SettleMessageRun(q, h, outcome);
      && GroupOf(q', j).retryCount == (if k == j then CounterAfter(q, h, outcome) else GroupOf(q, j).retryCount)
      && Tokens(q', j) == Tokens(q, j) - Bit(k == j && !IsRetried(q, h, outcome)) && q'.maxRetries == q.maxRetries
  {
    assert LiveRun(q, h, q.background[h].jid);
    SettleBackground(q, h, outcome);
    SettleTimers(q, SettleMessageRun(q, h, outcome), h, IsRetried(q, h, outcome), j);
  }

  /** The same for the whole segment: the drain moves tokens and spends none. */
  lemma FinishMessagesState(q: Queue, h: nat, outcome: Outcome, j: Jid)
    requires Inv(q) && h in q.background && q.background[h].RunForGroup?
    ensures var k, q' := q.background[h].jid, FinishMessageRun(q, h, outcome);
      && GroupOf(q', j).retryCount == (if k == j then CounterAfter(q, h, outcome) else GroupOf(q, j).retryCount)
      && Tokens(q', j) == Tokens(q, j) - Bit(k == j && !IsRetried(q, h, outcome)) && q'.maxRetries == q.maxRetries
  {
    SettleMessagesState(q, h, outcome, j);
    if !q.shuttingDown {
      SettleMessagesDrains(q, h, outcome);
      DrainSameBudget(SettleMessageRun(q, h, outcome), q.background[h].jid, j);
    }
  }

  lemma OwnRunCounts(q: Queue, h: nat, j: Jid)
    requires Runs(q) && Tidy(q) && h in q.background && q.background[h].RunForGroup? && q.background[h].jid == j
    ensures Tokens(q, j) > 0 && 0 <= GroupOf(q, j).retryCount <= Max(0, q.maxRetries)
  {
    assert LiveRun(q, h, j);
  }

  lemma FinishMessagesBudget(q: Queue, h: nat, outcome: Outcome, j: Jid)
    requires Inv(q) && h in q.background && q.background[h].RunForGroup?
    ensures Budget(FinishMessageRun(q, h, outcome), j) <= Budget(q, j) - Bit(q.background[h].jid == j)
  {
    FinishMessagesState(q, h, outcome, j);
    if q.background[h].jid == j {
      OwnRunCounts(q, h, j);
      var q' := FinishMessageRun(q, h, outcome);
      BudgetFalls(Tokens(q, j), GroupOf(q, j).retryCount, Tokens(q', j), GroupOf(q', j).retryCount, q.maxRetries);
    }
  }

  lemma SettleTaskSameBudget(q: Queue, h: nat, j: Jid)
    requires Runs(q) && h in q.background && q.background[h].RunTask?
    ensures SameBudget(q, SettleTaskRun(q, h), j)
  {
    assert LiveRun(q, h, q.background[h].jid);
    assert Timers(SettleTaskRun(q, h), j) == Timers(q, j);
  }

  lemma FinishTaskSameBudget(q: Queue, h: nat, j: Jid)
    requires Inv(q) && h in q.background && q.background[h].RunTask?
    ensures SameBudget(q, FinishTaskRun(q, h), j)
  {
    SettleTaskSameBudget(q, h, j);
    FinishTaskKeeps(q, h);
    if !q.shuttingDown { DrainSameBudget(SettleTaskRun(q, h), q.background[h].jid, j); }
  }

  lemma ForgetBudget(q: Queue, h: nat, j: Jid)
    requires h in q.background
    ensures var q' := Forget(q, h); Tokens(q', j) == Tokens(q, j) - Bit(q.background[h] == Retry(j))
  {
    var q' := Forget(q, h);
    if q.background[h] == Retry(j) {
      assert Timers(q', j) == Timers(q, j) - {h};
    } else {
      assert Timers(q', j) == Timers(q, j);
    }
  }

  /** The timer's token is spent first; enqueueing gives back at most that one. */
  lemma TimerBudget(q: Queue, h: nat, j: Jid)
    requires Inv(q) && h in q.background && q.background[h].Retry?
    ensures Budget(TimerFires(q, h), j) <= Budget(q, j)
  {
    var waking := Forget(q, h);
    ForgetKeepsMachine(q, h);
    CoroutinesOnly(q, waking);
    ForgetBudget(q, h, j);
    EnqueueBudget(waking, q.background[h].jid, j);
    var q' := TimerFires(q, h);
    if Tokens(q', j) < Tokens(q, j) {
      BudgetFalls(Tokens(q, j), GroupOf(q, j).retryCount, Tokens(q', j), GroupOf(q', j).retryCount, q.maxRetries);
    }
  }

  lemma BeginSameBudget(q: Queue, h: nat, j: Jid)
    requires h in q.background && !q.background[h].Retry?
    ensures SameBudget(q, BeginRun(q, h), j)
  {
    assert Timers(BeginRun(q, h), j) == Timers(q, j);
  }

  lemma NotifyIdleSameBudget(q: Queue, k: Jid, j: Jid)
    ensures SameBudget(q, NotifyIdle(q, k), j)
  {
    SameTimers(q, NotifyIdle(q, k), j);
  }

  lemma CancelBudget(q: Queue, h: nat, j: Jid)
    requires Tidy(q) && h in q.background
    ensures Budget(Forget(q, h), j) <= Budget(q, j)
  {
    var q' := Forget(q, h);
    ForgetBudget(q, h, j);
    if Tokens(q', j) < Tokens(q, j) {
      BudgetFalls(Tokens(q, j), GroupOf(q, j).retryCount, Tokens(q', j), GroupOf(q', j).retryCount, q.maxRetries);
    }
  }

  /** No step but an outside enqueue for `j` raises the budget of `j`, and a finished message run lowers it. */
  lemma StepBudget(q: Queue, s: Step, j: Jid)
    requires Inv(q) && Enabled(q, s) && s != DoEnqueueMessage(j)
    ensures Budget(Apply(q, s), j) <= Budget(q, j) - Bit(Finishes(q, s, j))
  {
    match s
    case DoEnqueueMessage(k) => EnqueueBudget(q, k, j);
    case DoEnqueueTask(k, id, fn) => EnqueueTaskSameBudget(q, k, id, fn, j);
    case DoNotifyIdle(k) => NotifyIdleSameBudget(q, k, j);
    case DoBegin(h) => BeginSameBudget(q, h, j);
    case DoFinishMessages(h, outcome) => FinishMessagesBudget(q, h, outcome, j);
    case DoFinishTask(h) => FinishTaskSameBudget(q, h, j);
    case DoTimer(h) => TimerBudget(q, h, j);
    case DoShutdown => SameTimers(q, Shutdown(q), j);
    case DoCancelUnstarted(h) => CancelBudget(q, h, j);
  }

  predicate NoEnqueueFor(steps: seq<Step>, j: Jid) { forall i :: 0 <= i < |steps| ==> steps[i] != DoEnqueueMessage(j) }

  /** How many message runs of `j` the run finishes. */
  function FinishedRuns(q: Queue, steps: seq<Step>, j: Jid): nat
    requires IsRun(q, steps)
    decreases |steps|
  {
    if steps == [] then 0
    else Bit(Finishes(q, steps[0], j)) + FinishedRuns(Apply(q, steps[0]), steps[1..], j)
  }

  /** Whatever else happens, and however the runs end: without outside enqueues the budget bounds them. */
  lemma {:induction false} RetriesStop(q: Queue, steps: seq<Step>, j: Jid)
    requires Inv(q) && IsRun(q, steps) && NoEnqueueFor(steps, j)
    ensures FinishedRuns(q, steps, j) <= Budget(q, j) - Budget(RunFrom(q, steps), j)
    ensures FinishedRuns(q, steps, j) <= Budget(q, j)
    decreases |steps|
  {
    if steps == [] {
    } else {
      StepBudget(q, steps[0], j);
      StepKeeps(q, steps[0]);
      RetriesStop(Apply(q, steps[0]), steps[1..], j);
    }
    RunKeeps(q, steps);
    BudgetNatural(RunFrom(q, steps), j);
  }

  // ----- one group alone -----

  /** Nothing exists but group `j`, in its (c+1)-th attempt. */
  ghost predicate Attempting(q: Queue, j: Jid, h: nat, c: int) {
    && q.groups == map[j := FRESH_GROUP.(active := true, retryCount := c)]
    && q.background == map[h := RunForGroup(j, false)] && h < q.nextHandle
    && q.waiting == [] && q.activeCount == 1 <= q.maxConcurrent && !q.shuttingDown
    && 0 <= c <= q.maxRetries
  }

  /** The run begins and fails. */
  function FailedAttempt(q: Queue, h: nat): Queue
    requires h in q.background && q.background[h].RunForGroup?
  {
    FinishMessageRun(BeginRun(q, h), h, Failed)
  }

  lemma AttemptFails(q: Queue, j: Jid, h: nat, c: int)
    requires Attempting(q, j, h, c)
    ensures var q' := FailedAttempt(q, h);
      && q'.waiting == [] && q'.activeCount == 0 && !q'.shuttingDown && SameLimits(q, q')
      && (if c < q.maxRetries
          then && q'.groups == map[j := FRESH_GROUP.(retryCount := c + 1)]
               && q'.background == map[q.nextHandle := Retry(j)] && q.nextHandle < q'.nextHandle
          else q'.background == map[])
  {
    var begun := BeginRun(q, h);
    var settled := SettleMessageRun(begun, h, Failed);
    assert begun.background == map[h := RunForGroup(j, true)];
    assert Forget(begun, h).background == map[];
    assert settled.groups == map[j := FRESH_GROUP.(retryCount := if c < q.maxRetries then c + 1 else 0)];
  }

  lemma RetryAttempts(q: Queue, j: Jid, h: nat, c: int)
    requires q.groups == map[j := FRESH_GROUP.(retryCount := c)] && q.background == map[h := Retry(j)]
      && h < q.nextHandle
    requires q.waiting == [] && q.activeCount == 0 < q.maxConcurrent && !q.shuttingDown && 0 <= c <= q.maxRetries
    ensures Attempting(TimerFires(q, h), j, q.nextHandle, c)
  {
    assert Forget(q, h).background == map[];
  }

  lemma Prepend(q: Queue, s: Step, steps: seq<Step>, j: Jid)
    requires Enabled(q, s) && IsRun(Apply(q, s), steps)
    ensures IsRun(q, [s] + steps) && RunFrom(q, [s] + steps) == RunFrom(Apply(q, s), steps)
    ensures FinishedRuns(q, [s] + steps, j) == Bit(Finishes(q, s, j)) + FinishedRuns(Apply(q, s), steps, j)
  {
    assert ([s] + steps)[1..] == steps;
  }

  lemma FirstAttempt(c: int, r: nat, j: Jid)
    ensures Attempting(EnqueueMessageCheck(Init(c, r), j), j, 0, 0)
  {}

  // ----- when a run is retried -----

  lemma StartNextTimers(q: Queue, k: Jid, j: Jid)
    requires Runs(q) && GroupOf(q, k).HasWork()
    ensures var q' := if GroupOf(q, k).pendingTasks != [] then StartNextTask(q, k) else StartRunForGroup(q, k);
      |Timers(q', j)| == |Timers(q, j)|
  {
    if GroupOf(q, k).pendingTasks != [] {
      SpawnTimers(q, StartNextTask(q, k), RunTask(k, GroupOf(q, k).pendingTasks[0], false), j);
    } else {
      SpawnTimers(q, StartRunForGroup(q, k), RunForGroup(k, false), j);
    }
  }

  lemma DrainTimers(q: Queue, k: Jid, j: Jid)
    requires Draining(q, k)
    ensures |Timers(DrainGroup(q, k), j)| == |Timers(q, j)|
  {
    if q.groups[k].HasWork() {
      StartNextTimers(q, k, j);
    } else if q.waiting != [] {
      var released := Note(Touch(q, k), SlotReleased(k));
      assert released.groups == q.groups && q.waiting[0] in q.waiting;
      DrainCallsOne(released);
      SameRuns(q, CallHead(released));
      SameTimers(q, CallHead(released), j);
      StartNextTimers(CallHead(released), q.waiting[0], j);
    } else {
      SameTimers(q, DrainGroup(q, k), j);
    }
  }

  /** The end of a message run sets one timer, for its own group, exactly if it failed and retries are left. */
  lemma RetriedExactlyWhen(q: Queue, h: nat, outcome: Outcome, j: Jid)
    requires Inv(q) && h in q.background && q.background[h].RunForGroup?
    ensures |Timers(FinishMessageRun(q, h, outcome), j)|
      == |Timers(q, j)| + Bit(IsRetried(q, h, outcome) && q.background[h].jid == j)
  {
    SettleBackground(q, h, outcome);
    SettleTimers(q, SettleMessageRun(q, h, outcome), h, IsRetried(q, h, outcome), j);
    if !q.shuttingDown {
      SettleMessagesDrains(q, h, outcome);
      DrainTimers(SettleMessageRun(q, h, outcome), q.background[h].jid, j);
    }
  }
}
