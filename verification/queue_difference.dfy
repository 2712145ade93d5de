/** The difference between what the tokens of a group allow and what its retry counter has used up: when it stays
    non-negative, and the only steps that can make it negative. */
module QueueDifference {
  import opened Types
  import opened QueueModel
  import opened QueueInvariants
  import opened QueueEffects
  import opened QueueRetries

  ghost function Difference(q: Queue, j: Jid): int {
    Tokens(q, j) * (Max(0, q.maxRetries) + 1) - GroupOf(q, j).retryCount
  }

  /** Whoever has retries behind it has something ahead of it. */
  ghost predicate Backed(q: Queue, j: Jid) { GroupOf(q, j).retryCount > 0 ==> Tokens(q, j) > 0 }

  lemma DifferenceSign(q: Queue, j: Jid)
    requires Tidy(q)
    ensures Difference(q, j) >= 0 <==> Backed(q, j)
  {
    var k := Max(0, q.maxRetries) + 1;
    if j in q.groups { assert GroupTidy(j, q.groups[j], q.maxRetries); }
    if Tokens(q, j) > 0 { assert Tokens(q, j) * k >= k; }
  }

  // ----- one step -----

  /** The step ends a run, a timer or a timer's sleep of `j` and puts nothing in its place: the cancelled end of a
      message run, a timer that fires into the shutdown, or a timer cancelled in its sleep. */
  predicate SpendsToken(q: Queue, s: Step, j: Jid)
    requires Enabled(q, s)
  {
    match s
    case DoFinishMessages(h, outcome) => q.background[h].jid == j && outcome == Cancelled
    case DoTimer(h) => q.background[h].jid == j && q.shuttingDown
    case DoCancelUnstarted(h) => q.background[h] == Retry(j)
    case _ => false
  }

  /** The step spends the last token of a group that has retries behind it. */
  ghost predicate SpendsLast(q: Queue, s: Step, j: Jid)
    requires Enabled(q, s)
  {
    SpendsToken(q, s, j) && Tokens(q, j) == 1 && GroupOf(q, j).retryCount > 0
  }

  lemma TimerState(q: Queue, h: nat, j: Jid)
    requires Inv(q) && h in q.background && q.background[h].Retry?
    ensures var q' := TimerFires(q, h);
      && GroupOf(q', j).retryCount == GroupOf(q, j).retryCount
      && (q.background[h].jid != j ==> Tokens(q', j) >= Tokens(q, j))
      && (q.background[h].jid == j ==> if q.shuttingDown then Tokens(q', j) == Tokens(q, j) - 1 else Tokens(q', j) > 0)
  {
    var waking := Forget(q, h);
    ForgetKeepsMachine(q, h);
    CoroutinesOnly(q, waking);
    ForgetBudget(q, h, j);
    EnqueueBudget(waking, q.background[h].jid, j);
    EnqueueCalm(waking, q.background[h].jid);
  }

  /** What the step does to the backing: it is kept, or exactly one token is spent. */
  ghost predicate Backs(q: Queue, q': Queue, spends: bool, j: Jid) {
    if spends then Tokens(q', j) == Tokens(q, j) - 1 && GroupOf(q', j).retryCount == GroupOf(q, j).retryCount
    else Backed(q, j) ==> Backed(q', j)
  }

  lemma FinishBacks(q: Queue, h: nat, outcome: Outcome, j: Jid)
    requires Inv(q) && h in q.background && q.background[h].RunForGroup?
    ensures Backs(q, FinishMessageRun(q, h, outcome), q.background[h].jid == j && outcome == Cancelled, j)
  {
    FinishMessagesState(q, h, outcome, j);
    if q.background[h].jid == j { OwnRunCounts(q, h, j); }
  }

  lemma StepBacks(q: Queue, s: Step, j: Jid)
    requires Inv(q) && Enabled(q, s)
    ensures Backs(q, Apply(q, s), SpendsToken(q, s, j), j)
  {
    match s
    case DoEnqueueMessage(k) => EnqueueBudget(q, k, j);
    case DoEnqueueTask(k, id, fn) => EnqueueTaskSameBudget(q, k, id, fn, j);
    case DoNotifyIdle(k) => NotifyIdleSameBudget(q, k, j);
    case DoBegin(h) => BeginSameBudget(q, h, j);
    case DoFinishMessages(h, outcome) => FinishBacks(q, h, outcome, j);
    case DoFinishTask(h) => FinishTaskSameBudget(q, h, j);
    case DoTimer(h) => TimerState(q, h, j);
    case DoShutdown => SameTimers(q, Shutdown(q), j);
    case DoCancelUnstarted(h) => ForgetBudget(q, h, j);
  }

  lemma SignsAgree(q: Queue, q': Queue, spends: bool, j: Jid)
    requires Tidy(q) && Tidy(q') && Backs(q, q', spends, j) && Difference(q, j) >= 0
    ensures Difference(q', j) < 0 <==> spends && Tokens(q, j) == 1 && GroupOf(q, j).retryCount > 0
  {
    DifferenceSign(q, j);
    DifferenceSign(q', j);
  }

  /** From a non-negative difference, exactly the spending of a last token leads to a negative one. */
  lemma StepDifference(q: Queue, s: Step, j: Jid)
    requires Inv(q) && Enabled(q, s) && Difference(q, j) >= 0
    ensures Difference(Apply(q, s), j) < 0 <==> SpendsLast(q, s, j)
  {
    StepBacks(q, s, j);
    StepKeeps(q, s);
    SignsAgree(q, Apply(q, s), SpendsToken(q, s, j), j);
  }

  // ----- whole runs -----

  ghost predicate NeverNegative(q: Queue, steps: seq<Step>, j: Jid)
    requires IsRun(q, steps)
    decreases |steps|
  {
    Difference(q, j) >= 0 && (steps == [] || NeverNegative(Apply(q, steps[0]), steps[1..], j))
  }

  ghost predicate NeverSpendsLast(q: Queue, steps: seq<Step>, j: Jid)
    requires IsRun(q, steps)
    decreases |steps|
  {
    steps == [] || (!SpendsLast(q, steps[0], j) && NeverSpendsLast(Apply(q, steps[0]), steps[1..], j))
  }

  /** The difference is never negative in a run exactly if the run never spends a last token. */
  lemma {:induction false} NegativeExactlyWhenSpent(q: Queue, steps: seq<Step>, j: Jid)
    requires Inv(q) && IsRun(q, steps) && Difference(q, j) >= 0
    ensures NeverNegative(q, steps, j) <==> NeverSpendsLast(q, steps, j)
    decreases |steps|
  {
    if steps == [] {
    } else {
      var next := Apply(q, steps[0]);
      StepKeeps(q, steps[0]);
      StepDifference(q, steps[0], j);
      if Difference(next, j) >= 0 { NegativeExactlyWhenSpent(next, steps[1..], j); }
    }
  }

  /** Nothing is cancelled. */
  predicate IsQuiet(s: Step) { !s.DoShutdown? && (s.DoFinishMessages? ==> s.outcome != Cancelled) }

  lemma {:induction false} QuietRunSpendsNothing(q: Queue, steps: seq<Step>, j: Jid)
    requires IsRun(q, steps) && !q.shuttingDown && forall i :: 0 <= i < |steps| ==> IsQuiet(steps[i])
    ensures NeverSpendsLast(q, steps, j)
    decreases |steps|
  {
    if steps == [] {
    } else {
      assert IsQuiet(steps[0]);
      StepKeepsShutdown(q, steps[0]);
      QuietRunSpendsNothing(Apply(q, steps[0]), steps[1..], j);
    }
  }

  /** From the start on, the difference is never negative before a shutdown: only a shutdown cancels. */
  lemma NeverNegativeBeforeShutdown(c: int, r: int, steps: seq<Step>, j: Jid)
    requires IsRun(Init(c, r), steps) && forall i :: 0 <= i < |steps| ==> IsQuiet(steps[i])
    ensures NeverNegative(Init(c, r), steps, j)
  {
    InitKeeps(c, r);
    DifferenceSign(Init(c, r), j);
    QuietRunSpendsNothing(Init(c, r), steps, j);
    NegativeExactlyWhenSpent(Init(c, r), steps, j);
  }

  // ----- a run that does spend it -----

  lemma CancelledAttempt(q: Queue, j: Jid, h: nat, c: int)
    requires Attempting(q, j, h, c)
    ensures Difference(FinishMessageRun(Shutdown(BeginRun(q, h)), h, Cancelled), j) == -c
  {
    var begun := Shutdown(BeginRun(q, h));
    assert begun.background == map[h := RunForGroup(j, true)];
    assert Forget(begun, h).background == map[];
    var q' := FinishMessageRun(begun, h, Cancelled);
    assert Timers(q', j) == {};
  }

  lemma RunOn(q: Queue, s: Step, rest: seq<Step>)
    requires Enabled(q, s) && IsRun(Apply(q, s), rest)
    ensures IsRun(q, [s] + rest) && RunFrom(q, [s] + rest) == RunFrom(Apply(q, s), rest)
  {
    assert ([s] + rest)[1..] == rest;
  }

  lemma FailedOnce(c: int, r: nat, j: Jid)
    requires r > 0
    ensures var q := EnqueueMessageCheck(Init(c, r), j); var failed := FailedAttempt(q, 0);
      && Attempting(q, j, 0, 0)
      && failed.background == map[1 := Retry(j)] && failed.nextHandle == 2
      && Attempting(TimerFires(failed, 1), j, 2, 1)
  {
    var q := EnqueueMessageCheck(Init(c, r), j);
    FirstAttempt(c, r, j);
    AttemptFails(q, j, 0, 0);
    assert FailedAttempt(q, 0).nextHandle == 2;
    RetryAttempts(FailedAttempt(q, 0), j, 1, 1);
  }

  /** The run begins, a shutdown comes, and the run is cancelled. */
  lemma CancelledOnce(q: Queue, j: Jid, h: nat, c: int) returns (steps: seq<Step>)
    requires Attempting(q, j, h, c)
    ensures IsRun(q, steps) && Difference(RunFrom(q, steps), j) == -c
  {
    var begun := BeginRun(q, h);
    CancelledAttempt(q, j, h, c);
    var end := [DoFinishMessages(h, Cancelled)] + [];
    RunOn(Shutdown(begun), DoFinishMessages(h, Cancelled), []);
    RunOn(begun, DoShutdown, end);
    RunOn(q, DoBegin(h), [DoShutdown] + end);
    steps := [DoBegin(h)] + ([DoShutdown] + end);
  }

  /** From the start: a message, its failed run, the timer, the second run, and a shutdown that cancels it. */
  lemma CancelledRetryOverdraws(c: int, r: nat, j: Jid) returns (steps: seq<Step>)
    requires r > 0
    ensures IsRun(Init(c, r), steps) && Difference(RunFrom(Init(c, r), steps), j) == -1
  {
    var q1 := EnqueueMessageCheck(Init(c, r), j);
    var failed := FailedAttempt(q1, 0);
    FailedOnce(c, r, j);
    var rest := CancelledOnce(TimerFires(failed, 1), j, 2, 1);
    RunOn(failed, DoTimer(1), rest);
    var more := [DoTimer(1)] + rest;
    RunOn(BeginRun(q1, 0), DoFinishMessages(0, Failed), more);
    RunOn(q1, DoBegin(0), [DoFinishMessages(0, Failed)] + more);
    RunOn(Init(c, r), DoEnqueueMessage(j), [DoBegin(0)] + ([DoFinishMessages(0, Failed)] + more));
    steps := [DoEnqueueMessage(j)] + ([DoBegin(0)] + ([DoFinishMessages(0, Failed)] + more));
  }
}
