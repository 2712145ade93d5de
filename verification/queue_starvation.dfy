/** A group that keeps getting work of its own can keep its slot for ever, whoever waits. */
module QueueStarvation {
  import opened Types
  import opened QueueModel
  import opened QueueInvariants
  import opened QueueRetries

  const WAITING_GROUP := FRESH_GROUP.(pendingMessages := true)

  /** All slots are taken, one of them by `a`, for the run `h` that has not begun; and `b` waits. */
  ghost predicate Hogging(q: Queue, a: Jid, b: Jid, h: nat) {
    && a != b && GroupOf(q, a) == FRESH_GROUP.(active := true) && GroupOf(q, b) == WAITING_GROUP
    && h in q.background && q.background[h] == RunForGroup(a, false)
    && (forall i :: i in q.background ==> i < q.nextHandle)
    && q.waiting == [b] && q.activeCount == q.maxConcurrent && !q.shuttingDown
    && Calls(q.history) == []
  }

  /** A message for `a` comes in while it runs, and the run succeeds. */
  function AnotherRound(q: Queue, a: Jid, h: nat): Queue
    requires h in q.background && q.background[h].RunForGroup?
  {
    FinishMessageRun(BeginRun(EnqueueMessageCheck(q, a), h), h, Succeeded)
  }

  lemma ToldLeavesRun(q: Queue, a: Jid, b: Jid, h: nat)
    requires Hogging(q, a, b, h)
    ensures EnqueueMessageCheck(q, a) == Put(q, a, FRESH_GROUP.(active := true, pendingMessages := true))
  {}

  lemma RoundSettles(q: Queue, a: Jid, b: Jid, h: nat)
    requires Hogging(q, a, b, h)
    ensures var begun := BeginRun(Put(q, a, FRESH_GROUP.(active := true, pendingMessages := true)), h);
      var settled := SettleMessageRun(begun, h, Succeeded);
      settled == q.(groups := q.groups[a := WAITING_GROUP], activeCount := q.activeCount - 1,
                    background := q.background - {h})
  {
    var begun := BeginRun(Put(q, a, FRESH_GROUP.(active := true, pendingMessages := true)), h);
    assert begun.background - {h} == q.background - {h};
    assert begun.groups[a := WAITING_GROUP] == q.groups[a := WAITING_GROUP];
  }

  lemma RoundKeepsHogging(q: Queue, a: Jid, b: Jid, h: nat)
    requires Hogging(q, a, b, h)
    ensures EnqueueMessageCheck(q, a).background == q.background
    ensures Hogging(AnotherRound(q, a, h), a, b, q.nextHandle)
  {
    ToldLeavesRun(q, a, b, h);
    RoundSettles(q, a, b, h);
    var settled :=
      q.(groups := q.groups[a := WAITING_GROUP], activeCount := q.activeCount - 1, background := q.background - {h});
    assert AnotherRound(q, a, h) == StartRunForGroup(settled, a);
    assert StartRunForGroup(settled, a).history == After(q.history, MessagesStarted(a));
  }

  lemma {:induction false} HoggingGoesOn(q: Queue, a: Jid, b: Jid, h: nat, n: nat) returns (steps: seq<Step>)
    requires Hogging(q, a, b, h)
    ensures IsRun(q, steps) && FinishedRuns(q, steps, a) == n
    ensures RunFrom(q, steps).waiting == [b] && Calls(RunFrom(q, steps).history) == []
    decreases n
  {
    if n == 0 {
      steps := [];
    } else {
      RoundKeepsHogging(q, a, b, h);
      var more := HoggingGoesOn(AnotherRound(q, a, h), a, b, q.nextHandle, n - 1);
      var told := EnqueueMessageCheck(q, a);
      var finish := [DoFinishMessages(h, Succeeded)] + more;
      Prepend(BeginRun(told, h), DoFinishMessages(h, Succeeded), more, a);
      Prepend(told, DoBegin(h), finish, a);
      Prepend(q, DoEnqueueMessage(a), [DoBegin(h)] + finish, a);
      steps := [DoEnqueueMessage(a)] + ([DoBegin(h)] + finish);
    }
  }

  // ----- the other slots -----

  /** A group that is neither `a` nor `b`, for every `k` another one. */
  function Other(a: Jid, b: Jid, k: nat): (j: Jid)
    ensures |j| == |a| + |b| + k + 1
  {
    a + b + seq(k + 1, i => '+')
  }

  /** The first `k` slots are taken by other groups. */
  ghost predicate Filled(q: Queue, a: Jid, b: Jid, k: nat) {
    && (forall j :: j in q.groups ==> |a| + |b| < |j| <= |a| + |b| + k)
    && (forall i :: i in q.background ==> i < q.nextHandle)
    && q.waiting == [] && q.activeCount == k && !q.shuttingDown && Calls(q.history) == []
  }

  lemma OneMoreFilled(q: Queue, a: Jid, b: Jid, k: nat)
    requires Filled(q, a, b, k) && k < q.maxConcurrent
    ensures Filled(EnqueueMessageCheck(q, Other(a, b, k)), a, b, k + 1)
  {
    var j := Other(a, b, k);
    assert EnqueueMessageCheck(q, j).history == After(q.history, MessagesStarted(j));
  }

  lemma HoggingStarts(q: Queue, a: Jid, b: Jid)
    requires a != b && 0 < q.maxConcurrent && Filled(q, a, b, q.maxConcurrent - 1)
    ensures Hogging(EnqueueMessageCheck(EnqueueMessageCheck(q, a), b), a, b, q.nextHandle)
  {
    var q' := EnqueueMessageCheck(q, a);
    assert q'.history == After(q.history, MessagesStarted(a)) && Calls(q'.history) == [];
    assert GroupOf(q', b) == FRESH_GROUP;
    assert EnqueueMessageCheck(q', b).history == After(q'.history, Joined(b));
  }

  lemma {:induction false} FillThenHog(q: Queue, a: Jid, b: Jid, k: nat, n: nat) returns (steps: seq<Step>)
    requires a != b && Filled(q, a, b, k) && k < q.maxConcurrent
    ensures IsRun(q, steps) && FinishedRuns(q, steps, a) == n
    ensures RunFrom(q, steps).waiting == [b] && Calls(RunFrom(q, steps).history) == []
    decreases q.maxConcurrent - k
  {
    if k == q.maxConcurrent - 1 {
      var q1 := EnqueueMessageCheck(q, a);
      HoggingStarts(q, a, b);
      var more := HoggingGoesOn(EnqueueMessageCheck(q1, b), a, b, q.nextHandle, n);
      Prepend(q1, DoEnqueueMessage(b), more, a);
      Prepend(q, DoEnqueueMessage(a), [DoEnqueueMessage(b)] + more, a);
      steps := [DoEnqueueMessage(a)] + ([DoEnqueueMessage(b)] + more);
    } else {
      var j := Other(a, b, k);
      OneMoreFilled(q, a, b, k);
      var more := FillThenHog(EnqueueMessageCheck(q, j), a, b, k + 1, n);
      Prepend(q, DoEnqueueMessage(j), more, a);
      steps := [DoEnqueueMessage(j)] + more;
    }
  }

  /** For every cap and every n there is a run from the start in which one group finishes n runs while another, which
      joined the line before the first of them ended, is still in it and nobody was ever called. */
  lemma WaitingHasNoBound(c: int, r: int, a: Jid, b: Jid, n: nat) returns (steps: seq<Step>)
    requires a != b
    ensures IsRun(Init(c, r), steps) && FinishedRuns(Init(c, r), steps, a) == n
    ensures RunFrom(Init(c, r), steps).waiting == [b] && Calls(RunFrom(Init(c, r), steps).history) == []
  {
    steps := FillThenHog(Init(c, r), a, b, 0, n);
  }
}
