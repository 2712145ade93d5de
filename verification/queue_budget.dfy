/** The retry budget is exact: from every state before shutdown all of it can be used. */
module QueueBudget {
  import opened Types
  import opened QueueModel
  import opened QueueInvariants
  import opened QueueRetries
  import opened QueueEffects

  ghost predicate Ready(q: Queue) { Inv(q) && !q.shuttingDown }

  // ----- the end of a live run -----

  /** The run has begun. */
  function Begun(q: Queue, h: nat): Queue
    requires h in q.background && !q.background[h].Retry?
  {
    if q.background[h].started then q else BeginRun(q, h)
  }

  function EndStep(c: Coroutine, h: nat, outcome: Outcome): Step {
    if c.RunTask? then DoFinishTask(h) else DoFinishMessages(h, outcome)
  }

  /** Up to the drain. */
  function Settled(q: Queue, h: nat, outcome: Outcome): Queue
    requires h in q.background && !q.background[h].Retry?
  {
    if q.background[h].RunTask? then SettleTaskRun(Begun(q, h), h) else SettleMessageRun(Begun(q, h), h, outcome)
  }

  function Ended(q: Queue, h: nat, outcome: Outcome): Queue
    requires h in q.background && !q.background[h].Retry?
  {
    if q.background[h].RunTask? then FinishTaskRun(Begun(q, h), h) else FinishMessageRun(Begun(q, h), h, outcome)
  }

  lemma EndedIsDrained(q: Queue, h: nat, outcome: Outcome)
    requires h in q.background && !q.background[h].Retry?
    ensures Ended(q, h, outcome) == DrainGroup(Settled(q, h, outcome), q.background[h].jid)
  {}

  lemma BegunIsReady(q: Queue, h: nat)
    requires Ready(q) && h in q.background && !q.background[h].Retry?
    ensures Ready(Begun(q, h))
  {
    if !q.background[h].started { StepKeeps(q, DoBegin(h)); }
  }

  lemma SettledDrains(q: Queue, h: nat, outcome: Outcome)
    requires Ready(q) && h in q.background && !q.background[h].Retry?
    ensures Draining(Settled(q, h, outcome), q.background[h].jid)
  {
    BegunIsReady(q, h);
    if q.background[h].RunTask? {
      FinishTaskKeeps(Begun(q, h), h);
    } else {
      FinishMessagesKeeps(Begun(q, h), h, outcome);
    }
  }

  lemma EndedIsReady(q: Queue, h: nat, outcome: Outcome)
    requires Ready(q) && h in q.background && !q.background[h].Retry?
    ensures Ready(Ended(q, h, outcome))
  {
    var settled, k := Settled(q, h, outcome), q.background[h].jid;
    SettledDrains(q, h, outcome);
    EndedIsDrained(q, h, outcome);
    DrainKeeps(settled, k);
    DrainKeepsShutdown(settled, k);
  }

  /** Only group `k` has changed, and not in what it has pending. */
  predicate OnlyGroup(q: Queue, q': Queue, k: Jid) {
    && k in q'.groups && q'.groups == q.groups[k := q'.groups[k]] && q'.waiting == q.waiting
    && q'.groups[k].pendingTasks == GroupOf(q, k).pendingTasks
    && q'.groups[k].pendingMessages == GroupOf(q, k).pendingMessages
  }

  lemma SettleTaskIs(q: Queue, h: nat)
    requires h in q.background && q.background[h].RunTask?
    ensures OnlyGroup(q, SettleTaskRun(q, h), q.background[h].jid)
  {}

  lemma OutcomeIs(q: Queue, k: Jid, outcome: Outcome)
    requires k in q.groups
    ensures OnlyGroup(q, RecordOutcome(q, k, outcome), k)
  {}

  lemma SettleMessagesIs(q: Queue, h: nat, outcome: Outcome)
    requires h in q.background && q.background[h].RunForGroup? && q.background[h].jid in q.groups
    ensures OnlyGroup(q, SettleMessageRun(q, h, outcome), q.background[h].jid)
  {
    OutcomeIs(Forget(q, h), q.background[h].jid, outcome);
  }

  lemma SettledIs(q: Queue, h: nat, outcome: Outcome)
    requires Runs(q) && h in q.background && !q.background[h].Retry?
    ensures OnlyGroup(q, Settled(q, h, outcome), q.background[h].jid)
  {
    assert LiveRun(q, h, q.background[h].jid);
    if q.background[h].RunTask? { SettleTaskIs(Begun(q, h), h); } else { SettleMessagesIs(Begun(q, h), h, outcome); }
  }

  /** What a group has still to run. */
  function Backlog(g: GroupState): nat { |g.pendingTasks| + Bit(g.pendingMessages) }

  /** The group goes on with its next task, or else with its messages. */
  predicate IsNext(g: GroupState, g': GroupState) {
    && g'.active && g.HasWork()
    && (if g.pendingTasks != []
        then g'.isTaskContainer && g'.pendingTasks == g.pendingTasks[1..] && g'.pendingMessages == g.pendingMessages
        else !g'.isTaskContainer && g'.pendingTasks == [] && !g'.pendingMessages)
  }

  lemma DrainGoesOn(q: Queue, k: Jid)
    requires Draining(q, k) && q.groups[k].HasWork()
    ensures var q' := DrainGroup(q, k);
      && k in q'.groups && IsNext(q.groups[k], q'.groups[k]) && q'.groups == q.groups[k := q'.groups[k]]
      && q'.waiting == q.waiting
  {}

  /** The group goes on with its own work, and nothing else changes. */
  ghost predicate GoesOnAlone(q: Queue, q': Queue, k: Jid) {
    && IsNext(GroupOf(q, k), GroupOf(q', k)) && Backlog(GroupOf(q', k)) < Backlog(GroupOf(q, k))
    && q'.waiting == q.waiting
    && forall j :: j != k ==> GroupOf(q', j) == GroupOf(q, j)
  }

  lemma DrainGoesOnAlone(q: Queue, settled: Queue, k: Jid)
    requires OnlyGroup(q, settled, k) && Draining(settled, k) && GroupOf(q, k).HasWork()
    ensures GoesOnAlone(q, DrainGroup(settled, k), k)
  {
    DrainGoesOn(settled, k);
  }

  /** A run of a group that has work of its own: the group goes on with it. */
  lemma GoesOnWithOwn(q: Queue, h: nat, outcome: Outcome)
    requires Ready(q) && h in q.background && !q.background[h].Retry? && GroupOf(q, q.background[h].jid).HasWork()
    ensures GoesOnAlone(q, Ended(q, h, outcome), q.background[h].jid)
  {
    SettledDrains(q, h, outcome);
    SettledIs(q, h, outcome);
    EndedIsDrained(q, h, outcome);
    DrainGoesOnAlone(q, Settled(q, h, outcome), q.background[h].jid);
  }

  lemma CallNextStarts(q: Queue)
    requires q.waiting != [] && IsIdleWithWork(q, q.waiting[0])
    ensures var w, q' := q.waiting[0], CallNext(q);
      && w in q'.groups && IsNext(q.groups[w], q'.groups[w]) && q'.groups == q.groups[w := q'.groups[w]]
      && q'.waiting == q.waiting[1..]
  {}

  lemma DrainReleases(q: Queue, k: Jid)
    requires Draining(q, k) && !q.groups[k].HasWork()
    ensures var q' := DrainGroup(q, k);
      if q.waiting == [] then q'.groups == q.groups && q'.waiting == []
      else var w := q.waiting[0];
        && w in q'.groups && w != k && IsNext(GroupOf(q, w), q'.groups[w]) && q'.groups == q.groups[w := q'.groups[w]]
        && q'.waiting == q.waiting[1..]
  {
    var released := Note(Touch(q, k), SlotReleased(k));
    assert released.groups == q.groups;
    if q.waiting != [] {
      assert q.waiting[0] in q.waiting;
      DrainCallsOne(released);
      CallNextStarts(released);
    }
  }

  /** The head of the line goes on with what it has; but for it and the group `k`, nothing changes. */
  ghost predicate CallsHead(q: Queue, q': Queue, k: Jid) {
    && !GroupOf(q', k).HasWork() && !GroupOf(q', k).active
    && (if q.waiting == []
        then forall j :: j != k ==> GroupOf(q', j) == GroupOf(q, j)
        else && q.waiting[0] != k && q'.waiting == q.waiting[1..]
             && IsNext(GroupOf(q, q.waiting[0]), GroupOf(q', q.waiting[0]))
             && forall j :: j != k && j != q.waiting[0] ==> GroupOf(q', j) == GroupOf(q, j))
  }

  lemma DrainCallsHead(q: Queue, settled: Queue, k: Jid)
    requires OnlyGroup(q, settled, k) && Draining(settled, k) && !GroupOf(q, k).HasWork()
    ensures CallsHead(q, DrainGroup(settled, k), k)
  {
    DrainReleases(settled, k);
  }

  /** A run of a group without work of its own: the head of the line is called. */
  lemma ReleasesToHead(q: Queue, h: nat, outcome: Outcome)
    requires Ready(q) && h in q.background && !q.background[h].Retry? && !GroupOf(q, q.background[h].jid).HasWork()
    ensures CallsHead(q, Ended(q, h, outcome), q.background[h].jid)
  {
    SettledDrains(q, h, outcome);
    SettledIs(q, h, outcome);
    EndedIsDrained(q, h, outcome);
    DrainCallsHead(q, Settled(q, h, outcome), q.background[h].jid);
  }

  // ----- what it does to the budget -----

  lemma BegunSameBudget(q: Queue, h: nat, j: Jid)
    requires h in q.background && !q.background[h].Retry?
    ensures SameBudget(q, Begun(q, h), j)
  {
    if !q.background[h].started { BeginSameBudget(q, h, j); }
  }

  /** Neither a task run nor a run of another group touches the budget. */
  lemma EndedSameBudget(q: Queue, h: nat, outcome: Outcome, j: Jid)
    requires Ready(q) && h in q.background && !q.background[h].Retry?
    requires q.background[h].RunTask? || q.background[h].jid != j
    ensures SameBudget(q, Ended(q, h, outcome), j)
  {
    BegunIsReady(q, h);
    BegunSameBudget(q, h, j);
    if q.background[h].RunTask? {
      FinishTaskSameBudget(Begun(q, h), h, j);
    } else {
      FinishMessagesState(Begun(q, h), h, outcome, j);
    }
  }

  lemma OneLess(t: nat, c: int, m: int)
    requires t > 0 && 0 <= c <= Max(0, m)
    ensures c + 1 <= m ==> BudgetOf(t, c + 1, m) == BudgetOf(t, c, m) - 1
    ensures c + 1 > m ==> BudgetOf(t - 1, 0, m) == BudgetOf(t, c, m) - 1
  {
    var k := Max(0, m) + 1;
    assert t * k == (t - 1) * k + k;
  }

  lemma FailureUsesOne(q: Queue, h: nat, j: Jid)
    requires Inv(q) && h in q.background && q.background[h].RunForGroup? && q.background[h].jid == j
    ensures Budget(FinishMessageRun(q, h, Failed), j) == Budget(q, j) - 1
  {
    OwnRunCounts(q, h, j);
    FinishMessagesState(q, h, Failed, j);
    OneLess(Tokens(q, j), GroupOf(q, j).retryCount, q.maxRetries);
  }

  /** A failed run of the group uses up exactly one. */
  lemma FailedUsesOne(q: Queue, h: nat, j: Jid)
    requires Ready(q) && h in q.background && q.background[h].RunForGroup? && q.background[h].jid == j
    ensures Budget(Ended(q, h, Failed), j) == Budget(q, j) - 1
  {
    BegunIsReady(q, h);
    BegunSameBudget(q, h, j);
    FailureUsesOne(Begun(q, h), h, j);
  }

  lemma TimerTokens(q: Queue, j: Jid)
    requires Ready(q) && !GroupOf(q, j).active && !GroupOf(q, j).HasWork()
    ensures var q' := EnqueueMessageCheck(q, j);
      && Tokens(q', j) == Tokens(q, j) + 1 && GroupOf(q', j).retryCount == GroupOf(q, j).retryCount
      && q'.maxRetries == q.maxRetries && GroupOf(q', j).pendingTasks == []
      && (GroupOf(q', j).active ==> !GroupOf(q', j).isTaskContainer)
      && (!GroupOf(q', j).active ==> j in q'.waiting)
  {
    EnqueueTimers(q, j, j);
  }

  /** A timer of an idle group trades its token for a run, or for a flag and a place in the line. */
  lemma TimerMoves(q: Queue, h: nat, j: Jid)
    requires Ready(q) && h in q.background && q.background[h] == Retry(j) && !GroupOf(q, j).active && j !in q.waiting
    ensures var q' := TimerFires(q, h);
      && Ready(q') && SameBudget(q, q', j) && GroupOf(q', j).pendingTasks == []
      && (GroupOf(q', j).active ==> !GroupOf(q', j).isTaskContainer)
      && (!GroupOf(q', j).active ==> j in q'.waiting)
  {
    StepKeeps(q, DoTimer(h));
    ForgetBudget(q, h, j);
    ForgetKeepsMachine(q, h);
    CoroutinesOnly(q, Forget(q, h));
    assert !IsIdleWithWork(q, j);
    TimerTokens(Forget(q, h), j);
  }

  // ----- a run that uses all of it -----

  lemma BeginThen(q: Queue, h: nat, rest: seq<Step>, j: Jid) returns (steps: seq<Step>)
    requires h in q.background && !q.background[h].Retry? && IsRun(Begun(q, h), rest) && NoEnqueueFor(rest, j)
    ensures IsRun(q, steps) && NoEnqueueFor(steps, j) && FinishedRuns(q, steps, j) == FinishedRuns(Begun(q, h), rest, j)
  {
    if q.background[h].started {
      steps := rest;
    } else {
      Prepend(q, DoBegin(h), rest, j);
      steps := [DoBegin(h)] + rest;
    }
  }

  lemma EndStepIs(q: Queue, h: nat, outcome: Outcome)
    requires h in q.background && !q.background[h].Retry?
    ensures var begun, end := Begun(q, h), EndStep(q.background[h], h, outcome);
      && Enabled(begun, end) && Apply(begun, end) == Ended(q, h, outcome)
      && forall j :: Finishes(begun, end, j) <==> q.background[h].RunForGroup? && q.background[h].jid == j
  {}

  lemma EndThen(q: Queue, h: nat, outcome: Outcome, rest: seq<Step>, j: Jid) returns (steps: seq<Step>)
    requires h in q.background && !q.background[h].Retry? && IsRun(Ended(q, h, outcome), rest) && NoEnqueueFor(rest, j)
    ensures IsRun(q, steps) && NoEnqueueFor(steps, j)
    ensures FinishedRuns(q, steps, j)
      == Bit(q.background[h].RunForGroup? && q.background[h].jid == j) + FinishedRuns(Ended(q, h, outcome), rest, j)
  {
    var end := EndStep(q.background[h], h, outcome);
    EndStepIs(q, h, outcome);
    Prepend(Begun(q, h), end, rest, j);
    steps := BeginThen(q, h, [end] + rest, j);
  }

  lemma TimerThen(q: Queue, h: nat, rest: seq<Step>, j: Jid) returns (steps: seq<Step>)
    requires h in q.background && q.background[h].Retry? && IsRun(TimerFires(q, h), rest) && NoEnqueueFor(rest, j)
    ensures IsRun(q, steps) && NoEnqueueFor(steps, j)
    ensures FinishedRuns(q, steps, j) == FinishedRuns(TimerFires(q, h), rest, j)
  {
    Prepend(q, DoTimer(h), rest, j);
    steps := [DoTimer(h)] + rest;
  }

  /** How far the group is from a message run: it runs tasks, has only timers, waits in the line, or is there. */
  function Stage(q: Queue, j: Jid): nat {
    var g := GroupOf(q, j);
    if g.active then if g.isTaskContainer then 3 else 0 else if j in q.waiting then 1 else 2
  }

  function IndexIn(line: seq<Jid>, j: Jid): nat {
    if line == [] || line[0] == j then 0 else 1 + IndexIn(line[1..], j)
  }

  function TasksOf(q: Queue, j: Jid): nat { |GroupOf(q, j).pendingTasks| }

  lemma LiveRunOf(q: Queue, j: Jid) returns (h: nat)
    requires Ready(q) && GroupOf(q, j).active
    ensures LiveRun(q, h, j) && q.background[h].RunTask? == GroupOf(q, j).isTaskContainer
  {
    assert HasRun(q, j);
    h :| LiveRun(q, h, j);
  }

  lemma SomeoneIsActive(q: Queue) returns (k: Jid)
    requires Ready(q) && q.waiting != []
    ensures GroupOf(q, k).active
  {
    assert ActiveGroups(q) != {};
    k :| k in ActiveGroups(q);
  }

  /** In a line that lost its head, a waiting group is nearer to a run of its own. */
  predicate IsNearer(q: Queue, q': Queue, j: Jid) {
    || TasksOf(q', j) < TasksOf(q, j)
    || (TasksOf(q', j) == TasksOf(q, j) && Stage(q', j) == 0)
    || (TasksOf(q', j) == TasksOf(q, j) && Stage(q', j) == 1 && IndexIn(q'.waiting, j) < IndexIn(q.waiting, j))
  }

  lemma CallsNearer(q: Queue, q': Queue, k: Jid, j: Jid)
    requires CallsHead(q, q', k) && j in q.waiting && j != k && IsIdleWithWork(q, j)
    ensures IsNearer(q, q', j)
  {}

  /** The end of another group's run uses up its work, or else moves the line. */
  lemma EndingMovesLine(q: Queue, j: Jid, k: Jid, h: nat)
    requires Ready(q) && j in q.waiting && LiveRun(q, h, k)
    ensures var q' := Ended(q, h, Succeeded);
      && k != j && Ready(q') && SameBudget(q, q', j)
      && (if GroupOf(q, k).HasWork() then GoesOnAlone(q, q', k) else IsNearer(q, q', j))
  {
    assert IsIdleWithWork(q, j);
    EndedIsReady(q, h, Succeeded);
    EndedSameBudget(q, h, Succeeded, j);
    if GroupOf(q, k).HasWork() {
      GoesOnWithOwn(q, h, Succeeded);
    } else {
      ReleasesToHead(q, h, Succeeded);
      CallsNearer(q, Ended(q, h, Succeeded), k, j);
    }
  }

  /** From every state before shutdown, some run without outside enqueues for the group finishes exactly as many message
      runs of it as its budget says; by QueueRetries.RetriesStop none can finish more. */
  lemma {:induction false} BudgetIsReached(q: Queue, j: Jid) returns (steps: seq<Step>)
    requires Ready(q)
    ensures IsRun(q, steps) && NoEnqueueFor(steps, j) && FinishedRuns(q, steps, j) == Budget(q, j)
    decreases Budget(q, j), TasksOf(q, j), Stage(q, j), IndexIn(q.waiting, j), 1, 0
  {
    BudgetNatural(q, j);
    if Tokens(q, j) == 0 {
      steps := [];
    } else if GroupOf(q, j).active {
      steps := ReachedFromRun(q, j);
    } else if j in q.waiting {
      var k := SomeoneIsActive(q);
      steps := ReachedFromLine(q, j, k);
    } else {
      assert !IsIdleWithWork(q, j);
      var h :| h in Timers(q, j);
      TimerMoves(q, h, j);
      var rest := BudgetIsReached(TimerFires(q, h), j);
      steps := TimerThen(q, h, rest, j);
    }
  }

  lemma {:induction false} ReachedFromRun(q: Queue, j: Jid) returns (steps: seq<Step>)
    requires Ready(q) && GroupOf(q, j).active && Tokens(q, j) > 0
    ensures IsRun(q, steps) && NoEnqueueFor(steps, j) && FinishedRuns(q, steps, j) == Budget(q, j)
    decreases Budget(q, j), TasksOf(q, j), Stage(q, j), IndexIn(q.waiting, j), 0, 0
  {
    BudgetNatural(q, j);
    var h := LiveRunOf(q, j);
    EndedIsReady(q, h, Failed);
    if GroupOf(q, j).isTaskContainer {
      EndedSameBudget(q, h, Failed, j);
      if GroupOf(q, j).HasWork() { GoesOnWithOwn(q, h, Failed); } else { ReleasesToHead(q, h, Failed); }
    } else {
      FailedUsesOne(q, h, j);
    }
    var rest := BudgetIsReached(Ended(q, h, Failed), j);
    steps := EndThen(q, h, Failed, rest, j);
  }

  /** `k` is the active group whose work is being used up. */
  lemma {:induction false} ReachedFromLine(q: Queue, j: Jid, k: Jid) returns (steps: seq<Step>)
    requires Ready(q) && j in q.waiting && GroupOf(q, k).active
    ensures IsRun(q, steps) && NoEnqueueFor(steps, j) && FinishedRuns(q, steps, j) == Budget(q, j)
    decreases Budget(q, j), TasksOf(q, j), 1, IndexIn(q.waiting, j), 0, Backlog(GroupOf(q, k))
  {
    var h := LiveRunOf(q, k);
    BudgetNatural(q, j);
    EndingMovesLine(q, j, k, h);
    var rest;
    if GroupOf(q, k).HasWork() {
      rest := ReachedFromLine(Ended(q, h, Succeeded), j, k);
    } else {
      rest := BudgetIsReached(Ended(q, h, Succeeded), j);
    }
    steps := EndThen(q, h, Succeeded, rest, j);
  }

  lemma EnqueuedBudget(c: int, r: int, j: Jid)
    ensures Ready(EnqueueMessageCheck(Init(c, r), j)) && Budget(EnqueueMessageCheck(Init(c, r), j), j) == Max(0, r) + 1
  {
    InitKeeps(c, r);
    EnqueueMessageKeeps(Init(c, r), j);
    assert Timers(EnqueueMessageCheck(Init(c, r), j), j) == {};
  }

  /** In particular after one enqueue on a fresh queue: max_retries + 1 runs. */
  lemma OneEnqueueIsRetriedToTheEnd(c: int, r: int, j: Jid) returns (steps: seq<Step>)
    ensures var q := EnqueueMessageCheck(Init(c, r), j);
      IsRun(q, steps) && NoEnqueueFor(steps, j) && FinishedRuns(q, steps, j) == Max(0, r) + 1
  {
    EnqueuedBudget(c, r, j);
    steps := BudgetIsReached(EnqueueMessageCheck(Init(c, r), j), j);
  }
}
