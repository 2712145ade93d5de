/** What the invariant of the group queue means for whole runs. */
module QueueTheorems {
  import opened Types
  import opened QueueModel
  import opened QueueInvariants

  // ----- the waiting line -----

  /** The step gives a slot back: a run ends in a group that has nothing pending. */
  ghost predicate GivesBack(q: Queue, s: Step)
    requires Enabled(q, s)
  {
    && !q.shuttingDown
    && (s.DoFinishMessages? || s.DoFinishTask?)
    && !GroupOf(q, q.background[s.h].jid).HasWork()
  }

  /** How one step moves the line: at most a release calls the head, and nobody is inserted but at the back. */
  ghost predicate LineMoves(q: Queue, q': Queue, release: bool) {
    && q'.maxConcurrent == q.maxConcurrent && q'.maxRetries == q.maxRetries
    && Joins(q.history) <= Joins(q'.history)
    && Calls(q'.history) == Calls(q.history) + (if release && q.waiting != [] then [q.waiting[0]] else [])
    && Releases(q'.history) == Releases(q.history) + (if release then 1 else 0)
  }

  lemma EnqueueMovesLine(q: Queue, j: Jid)
    ensures LineMoves(q, EnqueueMessageCheck(q, j), false)
  {
    var flagged := Put(q, j, GroupOf(q, j).(pendingMessages := true));
    assert JoinLine(flagged, j).history == if j in q.waiting then q.history else After(q.history, Joined(j));
  }

  lemma EnqueueTaskMovesLine(q: Queue, j: Jid, id: string, fn: ScheduledTask)
    ensures LineMoves(q, EnqueueTask(q, j, id, fn), false)
  {
    var t := QueuedTask(id, j, fn);
    var accepted := Note(q, Accepted(j, t));
    assert LineMoves(q, accepted, false);
    var queued := Put(accepted, j, GroupOf(q, j).(pendingTasks := GroupOf(q, j).pendingTasks + [t]));
    assert JoinLine(queued, j).history
      == if j in q.waiting then accepted.history else After(accepted.history, Joined(j));
    assert StartRunTask(accepted, j, t).history == After(accepted.history, TaskStarted(j, t));
    assert Note(queued, StdinClosed(j)).history == After(accepted.history, StdinClosed(j));
  }

  lemma CallNextMovesLine(q: Queue)
    requires q.waiting != []
    ensures var h := CallNext(q).history;
      && Joins(h) == Joins(q.history) && Calls(h) == Calls(q.history) + [q.waiting[0]]
      && Releases(h) == Releases(q.history)
  {
    var j, g := q.waiting[0], GroupOf(q, q.waiting[0]);
    var called := CallHead(q).history;
    assert called == After(q.history, Called(j));
    assert CallNext(q).history
      == After(called, if g.pendingTasks != [] then TaskStarted(j, g.pendingTasks[0]) else MessagesStarted(j));
  }

  lemma ReleaseMovesLine(q: Queue, j: Jid)
    requires Draining(q, j) && !q.groups[j].HasWork()
    ensures LineMoves(q, DrainWaiting(Note(Touch(q, j), SlotReleased(j))), true)
  {
    var released := Note(Touch(q, j), SlotReleased(j));
    assert released.history == After(q.history, SlotReleased(j));
    assert released.groups == q.groups;
    if q.waiting != [] {
      assert q.waiting[0] in q.waiting;
      DrainCallsOne(released);
      CallNextMovesLine(released);
    }
  }

  lemma DrainMovesLine(q: Queue, j: Jid)
    requires Draining(q, j)
    ensures LineMoves(q, DrainGroup(q, j), !q.groups[j].HasWork())
  {
    var g := q.groups[j];
    if g.pendingTasks != [] {
      assert DrainGroup(q, j).history == After(q.history, TaskStarted(j, g.pendingTasks[0]));
    } else if !g.pendingMessages {
      ReleaseMovesLine(q, j);
    }
  }

  lemma SettleLeavesLine(q: Queue, h: nat, outcome: Outcome)
    requires h in q.background && !q.background[h].Retry?
    ensures var j := q.background[h].jid;
      var q' := if q.background[h].RunTask? then SettleTaskRun(q, h) else SettleMessageRun(q, h, outcome);
      && q'.history == q.history && q'.waiting == q.waiting && SameLimits(q, q')
      && j in q'.groups && q'.groups[j].HasWork() == GroupOf(q, j).HasWork()
  {}

  lemma FinishMessagesMovesLine(q: Queue, h: nat, outcome: Outcome)
    requires Inv(q) && h in q.background && q.background[h].RunForGroup?
    ensures LineMoves(q, FinishMessageRun(q, h, outcome), !q.shuttingDown && !GroupOf(q, q.background[h].jid).HasWork())
  {
    SettleLeavesLine(q, h, outcome);
    if !q.shuttingDown {
      SettleMessagesDrains(q, h, outcome);
      DrainMovesLine(SettleMessageRun(q, h, outcome), q.background[h].jid);
    }
  }

  lemma FinishTaskMovesLine(q: Queue, h: nat)
    requires Inv(q) && h in q.background && q.background[h].RunTask?
    ensures LineMoves(q, FinishTaskRun(q, h), !q.shuttingDown && !GroupOf(q, q.background[h].jid).HasWork())
  {
    SettleLeavesLine(q, h, Succeeded);
    FinishTaskKeeps(q, h);
    if !q.shuttingDown { DrainMovesLine(SettleTaskRun(q, h), q.background[h].jid); }
  }

  lemma StepMovesLine(q: Queue, s: Step)
    requires Inv(q) && Enabled(q, s)
    ensures LineMoves(q, Apply(q, s), GivesBack(q, s))
  {
    match s
    case DoEnqueueMessage(j) => EnqueueMovesLine(q, j);
    case DoEnqueueTask(j, id, fn) => EnqueueTaskMovesLine(q, j, id, fn);
    case DoTimer(h) => EnqueueMovesLine(Forget(q, h), q.background[h].jid);
    case DoFinishMessages(h, outcome) => FinishMessagesMovesLine(q, h, outcome);
    case DoFinishTask(h) => FinishTaskMovesLine(q, h);
    case _ =>
  }

  /** Calls come at most one per release, and one per release until the whole line of `q` is called. */
  ghost predicate LineAdvances(q: Queue, q': Queue) {
    var r := Releases(q'.history) - Releases(q.history);
    && 0 <= r && Joins(q.history) <= Joins(q'.history)
    && |Calls(q.history)| + (if r < |q.waiting| then r else |q.waiting|) <= |Calls(q'.history)|
    && |Calls(q'.history)| <= |Calls(q.history)| + r
  }

  lemma AdvanceOneMore(q: Queue, next: Queue, q': Queue, release: bool)
    requires LineMoves(q, next, release) && LineAdvances(next, q')
    requires LineIsFifo(q) && LineIsFifo(next)
    ensures LineAdvances(q, q')
  {
    assert |next.waiting| >= |q.waiting| - (if release then 1 else 0);
  }

  lemma {:induction false} RunMovesLine(q: Queue, steps: seq<Step>)
    requires Inv(q) && IsRun(q, steps)
    ensures LineAdvances(q, RunFrom(q, steps))
    decreases |steps|
  {
    if steps == [] {
    } else {
      var next := Apply(q, steps[0]);
      StepMovesLine(q, steps[0]);
      StepKeeps(q, steps[0]);
      RunMovesLine(next, steps[1..]);
      AdvanceOneMore(q, next, RunFrom(q, steps), GivesBack(q, steps[0]));
    }
  }

  /** Where the i-th of a FIFO's queue is after `taken` more have been taken. */
  lemma FifoIndex(in0: seq<Jid>, out0: seq<Jid>, line0: seq<Jid>, in1: seq<Jid>, out1: seq<Jid>, line1: seq<Jid>,
                  i: nat)
    requires in0 == out0 + line0 && in1 == out1 + line1 && in0 <= in1 && |out0| <= |out1| && i < |line0|
    ensures if |out1| <= |out0| + i
      then |out0| + i - |out1| < |line1| && line1[|out0| + i - |out1|] == line0[i]
      else out1[|out0| + i] == line0[i]
  {
    assert in1[|out0| + i] == in0[|out0| + i] == line0[i];
  }

  /** From `q` to `q'` the group at index `i` of the line moved up one place per release, to the head and out. */
  ghost predicate ServedInTurn(q: Queue, q': Queue, i: nat)
    requires i < |q.waiting|
  {
    var r := Releases(q'.history) - Releases(q.history);
    var called := |Calls(q.history)|;
    if r <= i
    then |Calls(q'.history)| == called + r && 0 <= i - r < |q'.waiting| && q'.waiting[i - r] == q.waiting[i]
    else called + i < |Calls(q'.history)| && Calls(q'.history)[called + i] == q.waiting[i]
  }

  lemma ServedInTurnFromFifo(q: Queue, q': Queue, i: nat)
    requires LineIsFifo(q) && LineIsFifo(q') && i < |q.waiting| && LineAdvances(q, q')
    ensures ServedInTurn(q, q', i)
  {
    FifoIndex(Joins(q.history), Calls(q.history), q.waiting, Joins(q'.history), Calls(q'.history), q'.waiting, i);
  }

  /** Bounded overtaking: the group at index `i` of the line is called by exactly the (i+1)-th release from now. */
  lemma OvertakingIsBounded(q: Queue, steps: seq<Step>, i: nat)
    requires Inv(q) && IsRun(q, steps) && i < |q.waiting|
    ensures ServedInTurn(q, RunFrom(q, steps), i)
  {
    RunMovesLine(q, steps);
    RunKeeps(q, steps);
    ServedInTurnFromFifo(q, RunFrom(q, steps), i);
  }

  lemma SettleFreesSlot(q: Queue, s: Step)
    requires Runs(q) && Enabled(q, s) && (s.DoFinishMessages? || s.DoFinishTask?)
    ensures var q' := if s.DoFinishTask? then SettleTaskRun(q, s.h) else SettleMessageRun(q, s.h, s.outcome);
      ActiveGroups(q') == ActiveGroups(q) - {q.background[s.h].jid}
  {
    assert LiveRun(q, s.h, q.background[s.h].jid);
  }

  lemma CallNextActivates(q: Queue)
    requires q.waiting != [] && q.waiting[0] in q.groups
    ensures ActiveGroups(CallNext(q)) == ActiveGroups(q) + {q.waiting[0]} && CallNext(q).waiting == q.waiting[1..]
  {}

  lemma ReleaseCallsHead(q: Queue, j: Jid)
    requires Draining(q, j) && !q.groups[j].HasWork() && q.waiting != []
    ensures ActiveGroups(DrainGroup(q, j)) == ActiveGroups(q) + {q.waiting[0]}
    ensures DrainGroup(q, j).waiting == q.waiting[1..]
  {
    var released := Note(Touch(q, j), SlotReleased(j));
    assert released.groups == q.groups;
    assert q.waiting[0] in q.waiting;
    DrainCallsOne(released);
    CallNextActivates(released);
  }

  /** A release with someone waiting hands the slot over: the head of the line becomes active, and nobody else. */
  lemma ReleaseStartsHead(q: Queue, s: Step)
    requires Inv(q) && Enabled(q, s) && GivesBack(q, s) && q.waiting != []
    ensures var q' := Apply(q, s);
      && q.waiting[0] !in ActiveGroups(q)
      && ActiveGroups(q') == ActiveGroups(q) - {q.background[s.h].jid} + {q.waiting[0]}
      && q'.waiting == q.waiting[1..]
  {
    var h := s.h;
    assert q.waiting[0] in q.waiting;
    SettleFreesSlot(q, s);
    if s.DoFinishTask? {
      SettleLeavesLine(q, h, Succeeded);
      FinishTaskKeeps(q, h);
      ReleaseCallsHead(SettleTaskRun(q, h), q.background[h].jid);
    } else {
      SettleLeavesLine(q, h, s.outcome);
      FinishMessagesKeeps(q, h, s.outcome);
      ReleaseCallsHead(SettleMessageRun(q, h, s.outcome), q.background[h].jid);
    }
  }

  // ----- every state of every run -----

  lemma {:induction false} LimitsStay(q: Queue, steps: seq<Step>)
    requires Inv(q) && IsRun(q, steps)
    ensures RunFrom(q, steps).maxConcurrent == q.maxConcurrent && RunFrom(q, steps).maxRetries == q.maxRetries
    decreases |steps|
  {
    if steps == [] {
    } else {
      StepMovesLine(q, steps[0]);
      StepKeeps(q, steps[0]);
      LimitsStay(Apply(q, steps[0]), steps[1..]);
    }
  }

  lemma Reached(c: int, r: int, steps: seq<Step>)
    requires IsRun(Init(c, r), steps)
    ensures Inv(RunFrom(Init(c, r), steps)) && RunFrom(Init(c, r), steps).maxConcurrent == Max(1, c)
  {
    InitKeeps(c, r);
    RunKeeps(Init(c, r), steps);
    LimitsStay(Init(c, r), steps);
  }

  /** Counting and cap, during and after shutdown too: the counter is the number of active groups and never exceeds
      the cap, and no group has two live runs. */
  lemma CapHolds(c: int, r: int, steps: seq<Step>)
    requires IsRun(Init(c, r), steps)
    ensures var q := RunFrom(Init(c, r), steps);
      && q.activeCount == |ActiveGroups(q)| <= Max(1, c)
      && forall h, k, j :: LiveRun(q, h, j) && LiveRun(q, k, j) ==> h == k && j in ActiveGroups(q)
  {
    Reached(c, r, steps);
  }

  /** No lost wake-up and no idle slot: until shutdown, an inactive group has pending work exactly when it is in the
      line, once; every active group is really running; and while anyone waits all slots are taken. */
  lemma NoLostWakeUp(c: int, r: int, steps: seq<Step>)
    requires IsRun(Init(c, r), steps) && !RunFrom(Init(c, r), steps).shuttingDown
    ensures var q := RunFrom(Init(c, r), steps);
      && (forall j :: j in q.waiting <==> IsIdleWithWork(q, j))
      && NoRepeats(q.waiting)
      && (forall j :: j in ActiveGroups(q) ==> HasRun(q, j))
      && (q.waiting != [] ==> q.activeCount == Max(1, c))
  {
    Reached(c, r, steps);
  }

  /** Every accepted task is started once, in the order of acceptance, or still pending; and what is pending has
      distinct ids, all different from the running one, which is there exactly while a task runs. */
  lemma TasksStartOnceInOrder(c: int, r: int, steps: seq<Step>, j: Jid)
    requires IsRun(Init(c, r), steps)
    ensures var q := RunFrom(Init(c, r), steps); var g := GroupOf(q, j);
      && AcceptedTasks(q.history, j) == StartedTasks(q.history, j) + g.pendingTasks
      && Distinct(g.pendingTasks)
      && (forall i :: 0 <= i < |g.pendingTasks| ==> Some(g.pendingTasks[i].id) != g.runningTaskId)
      && (g.runningTaskId.Some? <==> g.active && g.isTaskContainer)
  {
    Reached(c, r, steps);
    var q := RunFrom(Init(c, r), steps);
    if j in q.groups { assert GroupTidy(j, q.groups[j], q.maxRetries); }
  }

  /** A task never waits behind an idle agent that was not told to finish. */
  lemma IdleAgentIsTold(c: int, r: int, steps: seq<Step>, j: Jid)
    requires IsRun(Init(c, r), steps) && IsPreempted(RunFrom(Init(c, r), steps), j)
    ensures ToldToFinish(RunFrom(Init(c, r), steps).history, j)
  {
    Reached(c, r, steps);
  }
}
