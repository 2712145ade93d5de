/** What every reachable state of the group queue satisfies, and the proof that every segment keeps it. */
module QueueInvariants {
  import opened Types
  import opened QueueModel

  // ----- readings of the history -----

  ghost function AcceptedTasks(h: History, j: Jid): seq<QueuedTask> {
    match h
    case Nothing => []
    case After(e, Accepted(k, t)) => if k == j then AcceptedTasks(e, j) + [t] else AcceptedTasks(e, j)
    case After(e, _) => AcceptedTasks(e, j)
  }

  ghost function StartedTasks(h: History, j: Jid): seq<QueuedTask> {
    match h
    case Nothing => []
    case After(e, TaskStarted(k, t)) => if k == j then StartedTasks(e, j) + [t] else StartedTasks(e, j)
    case After(e, _) => StartedTasks(e, j)
  }

  /** Everyone who ever joined the waiting line, and everyone who was ever called from it. */
  ghost function Joins(h: History): seq<Jid> {
    match h
    case Nothing => []
    case After(e, Joined(j)) => Joins(e) + [j]
    case After(e, _) => Joins(e)
  }

  ghost function Calls(h: History): seq<Jid> {
    match h
    case Nothing => []
    case After(e, Called(j)) => Calls(e) + [j]
    case After(e, _) => Calls(e)
  }

  ghost function Releases(h: History): nat {
    match h
    case Nothing => 0
    case After(e, SlotReleased(_)) => Releases(e) + 1
    case After(e, _) => Releases(e)
  }

  /** Since the group's last start, the agent in it was told to finish. */
  ghost predicate ToldToFinish(h: History, j: Jid) {
    match h
    case Nothing => false
    case After(e, StdinClosed(k)) => k == j || ToldToFinish(e, j)
    case After(e, TaskStarted(k, _)) => k != j && ToldToFinish(e, j)
    case After(e, MessagesStarted(k)) => k != j && ToldToFinish(e, j)
    case After(e, _) => ToldToFinish(e, j)
  }

  // ----- the invariant -----

  ghost function ActiveGroups(q: Queue): set<Jid> { set j | j in q.groups && q.groups[j].active }

  ghost predicate Counted(q: Queue) {
    && q.activeCount == |ActiveGroups(q)|
    && q.activeCount <= q.maxConcurrent
    && 1 <= q.maxConcurrent
  }

  /** Coroutine `h` is a live run of group `j`. */
  predicate LiveRun(q: Queue, h: nat, j: Jid) {
    h in q.background && !q.background[h].Retry? && q.background[h].jid == j
  }

  ghost predicate HasRun(q: Queue, j: Jid) { exists h :: LiveRun(q, h, j) }

  ghost predicate RunMatches(c: Coroutine, g: GroupState) {
    && g.active
    && g.isTaskContainer == c.RunTask?
    && (c.RunTask? ==> g.runningTaskId == Some(c.task.id) && c.task.groupJid == c.jid)
  }

  /** One live run per active group, of the kind that the flags say. */
  ghost predicate Runs(q: Queue) {
    && (forall h :: h in q.background ==> h < q.nextHandle)
    && (forall h, j :: LiveRun(q, h, j) ==> j in q.groups && RunMatches(q.background[h], q.groups[j]))
    && (forall h, k, j :: LiveRun(q, h, j) && LiveRun(q, k, j) ==> h == k)
    && (!q.shuttingDown ==> forall j :: j in q.groups && q.groups[j].active ==> HasRun(q, j))
  }

  ghost predicate Distinct(ts: seq<QueuedTask>) { forall i, k :: 0 <= i < k < |ts| ==> ts[i].id != ts[k].id }

  ghost predicate GroupTidy(j: Jid, g: GroupState, maxRetries: int) {
    && (g.runningTaskId.Some? <==> g.active && g.isTaskContainer)
    && Distinct(g.pendingTasks)
    && (forall i :: 0 <= i < |g.pendingTasks| ==>
          g.pendingTasks[i].groupJid == j && Some(g.pendingTasks[i].id) != g.runningTaskId)
    && 0 <= g.retryCount <= Max(0, maxRetries)
  }

  ghost predicate Tidy(q: Queue) { forall j :: j in q.groups ==> GroupTidy(j, q.groups[j], q.maxRetries) }

  /** Accepted tasks are the started ones followed by the pending ones. */
  ghost predicate Conserved(q: Queue) {
    forall j :: AcceptedTasks(q.history, j) == StartedTasks(q.history, j) + GroupOf(q, j).pendingTasks
  }

  ghost predicate NoRepeats(js: seq<Jid>) { forall i, k :: 0 <= i < k < |js| ==> js[i] != js[k] }

  /** The line is a FIFO: everyone who joined is either called, in that order, or still in it. */
  ghost predicate LineIsFifo(q: Queue) {
    && Joins(q.history) == Calls(q.history) + q.waiting
    && NoRepeats(q.waiting)
  }

  /** A task waits behind an agent that has nothing left to do. */
  predicate IsPreempted(q: Queue, j: Jid) {
    j in q.groups && q.groups[j].active && q.groups[j].idleWaiting && q.groups[j].pendingTasks != []
  }

  ghost predicate Preempting(q: Queue) { forall j :: IsPreempted(q, j) ==> ToldToFinish(q.history, j) }

  /** The running machinery: slots, coroutines and group flags. */
  ghost predicate Machine(q: Queue) { Counted(q) && Runs(q) && Tidy(q) }

  /** The books: what the history says agrees with what the queue holds. */
  ghost predicate Books(q: Queue) { Conserved(q) && LineIsFifo(q) && Preempting(q) }

  predicate IsIdleWithWork(q: Queue, j: Jid) { j in q.groups && !q.groups[j].active && q.groups[j].HasWork() }

  /** An inactive group other than `except` has work exactly when it is in the line. */
  ghost predicate LineHoldsIdleWork(q: Queue, except: Option<Jid>) {
    forall j :: j in q.waiting <==> IsIdleWithWork(q, j) && Some(j) != except
  }

  /** No lost wake-up, and no idle slot while someone waits. */
  ghost predicate Line(q: Queue) {
    LineHoldsIdleWork(q, None) && (q.waiting != [] ==> q.activeCount == q.maxConcurrent)
  }

  /** Machine and Books hold always, Line until shutdown begins. */
  ghost predicate Inv(q: Queue) { Machine(q) && Books(q) && (!q.shuttingDown ==> Line(q)) }

  // ----- Machine -----

  ghost predicate SameLimits(q: Queue, q': Queue) {
    q'.shuttingDown == q.shuttingDown && q'.maxConcurrent == q.maxConcurrent && q'.maxRetries == q.maxRetries
  }

  /** What the three ways of starting a run have in common. */
  ghost predicate Starts(q: Queue, q': Queue, j: Jid, g: GroupState, c: Coroutine) {
    && SameLimits(q, q')
    && q'.groups == q.groups[j := g] && q'.activeCount == q.activeCount + 1
    && q'.background == q.background[q.nextHandle := c] && q'.nextHandle == q.nextHandle + 1
    && c.jid == j && !c.Retry? && g.active && g.isTaskContainer == c.RunTask?
    && (c.RunTask? ==> g.runningTaskId == Some(c.task.id) && c.task.groupJid == j)
  }

  predicate SameFlags(g: GroupState, g': GroupState) {
    g'.active == g.active && g'.isTaskContainer == g.isTaskContainer && g'.runningTaskId == g.runningTaskId
  }

  /** Group `j` changes without starting or ending a run. */
  ghost predicate Stays(q: Queue, q': Queue, j: Jid, g: GroupState) {
    && SameLimits(q, q')
    && q'.groups == q.groups[j := g] && q'.activeCount == q.activeCount
    && q'.background == q.background && q'.nextHandle == q.nextHandle
    && SameFlags(GroupOf(q, j), g)
  }

  /** The run `h` of group `j` is over; a retry timer may have been set. */
  ghost predicate Ends(q: Queue, q': Queue, j: Jid, g: GroupState, h: nat) {
    && SameLimits(q, q')
    && LiveRun(q, h, j)
    && q'.groups == q.groups[j := g] && q'.activeCount == q.activeCount - 1
    && !g.active
    && ((q'.background == q.background - {h} && q'.nextHandle == q.nextHandle)
        || (q'.background == (q.background - {h})[q.nextHandle := Retry(j)] && q'.nextHandle == q.nextHandle + 1))
  }

  lemma StartKeepsRuns(q: Queue, q': Queue, j: Jid, g: GroupState, c: Coroutine)
    requires Runs(q) && Starts(q, q', j, g, c) && !GroupOf(q, j).active
    ensures Runs(q')
  {
    assert forall h, k :: LiveRun(q', h, k) ==> if h == q.nextHandle then k == j else LiveRun(q, h, k) && k != j;
    assert LiveRun(q', q.nextHandle, j);
    forall k | k in q'.groups && q'.groups[k].active && !q.shuttingDown
      ensures HasRun(q', k)
    {
      if k != j {
        var h :| LiveRun(q, h, k);
        assert LiveRun(q', h, k);
      }
    }
  }

  lemma StartKeepsMachine(q: Queue, q': Queue, j: Jid, g: GroupState, c: Coroutine)
    requires Machine(q) && Starts(q, q', j, g, c) && !GroupOf(q, j).active && q.activeCount < q.maxConcurrent
    requires GroupTidy(j, g, q.maxRetries)
    ensures Machine(q')
  {
    StartKeepsRuns(q, q', j, g, c);
    assert Counted(q') by { assert ActiveGroups(q') == ActiveGroups(q) + {j}; }
  }

  lemma SameRuns(q: Queue, q': Queue)
    requires Runs(q) && q'.background == q.background && q'.nextHandle == q.nextHandle
    requires q'.shuttingDown == q.shuttingDown
    requires forall j :: j in q.groups ==> j in q'.groups && SameFlags(q.groups[j], q'.groups[j])
    requires forall j :: j in q'.groups && j !in q.groups ==> !q'.groups[j].active
    ensures Runs(q')
  {
    assert forall h, k :: LiveRun(q', h, k) ==> LiveRun(q, h, k);
    forall k | k in q'.groups && q'.groups[k].active && !q.shuttingDown
      ensures HasRun(q', k)
    {
      var h :| LiveRun(q, h, k);
      assert LiveRun(q', h, k);
    }
  }

  lemma StayKeepsMachine(q: Queue, q': Queue, j: Jid, g: GroupState)
    requires Machine(q) && Stays(q, q', j, g) && GroupTidy(j, g, q.maxRetries)
    ensures Machine(q')
  {
    SameRuns(q, q');
    assert ActiveGroups(q') == ActiveGroups(q);
  }

  lemma EndKeepsRuns(q: Queue, q': Queue, j: Jid, g: GroupState, h: nat)
    requires Runs(q) && Ends(q, q', j, g, h)
    ensures Runs(q')
  {
    forall i, k | LiveRun(q', i, k) ensures LiveRun(q, i, k) && k != j {
      assert LiveRun(q, i, k);
    }
    forall k | k in q'.groups && q'.groups[k].active && !q.shuttingDown
      ensures HasRun(q', k)
    {
      var i :| LiveRun(q, i, k);
      assert LiveRun(q', i, k);
    }
  }

  lemma EndKeepsMachine(q: Queue, q': Queue, j: Jid, g: GroupState, h: nat)
    requires Machine(q) && Ends(q, q', j, g, h) && GroupTidy(j, g, q.maxRetries)
    ensures Machine(q')
  {
    EndKeepsRuns(q, q', j, g, h);
    assert Counted(q') by {
      assert ActiveGroups(q') == ActiveGroups(q) - {j};
    }
  }

  lemma ForgetKeepsMachine(q: Queue, h: nat)
    requires Machine(q) && h in q.background && (q.background[h].Retry? || q.shuttingDown)
    ensures Machine(Forget(q, h))
  {
    var q' := Forget(q, h);
    assert ActiveGroups(q') == ActiveGroups(q);
    assert forall i, k :: LiveRun(q', i, k) ==> LiveRun(q, i, k);
    forall k | k in q'.groups && q'.groups[k].active && !q.shuttingDown
      ensures HasRun(q', k)
    {
      var i :| LiveRun(q, i, k);
      assert LiveRun(q', i, k);
    }
  }

  lemma BeginKeepsMachine(q: Queue, h: nat)
    requires Machine(q) && h in q.background && !q.background[h].Retry?
    ensures Machine(BeginRun(q, h))
  {
    var q' := BeginRun(q, h);
    assert ActiveGroups(q') == ActiveGroups(q);
    assert forall i, k :: LiveRun(q', i, k) <==> LiveRun(q, i, k);
    forall k | k in q'.groups && q'.groups[k].active && !q.shuttingDown
      ensures HasRun(q', k)
    {
      var i :| LiveRun(q, i, k);
      assert LiveRun(q', i, k);
    }
  }

  // ----- the segments that start something -----

  lemma StartMessagesKeeps(q: Queue, j: Jid)
    requires Machine(q) && Books(q) && !GroupOf(q, j).active && q.activeCount < q.maxConcurrent
    ensures Machine(StartRunForGroup(q, j)) && Books(StartRunForGroup(q, j))
  {
    var q' := StartRunForGroup(q, j);
    assert Machine(q') by { StartKeepsMachine(q, q', j, q'.groups[j], RunForGroup(j, false)); }
    assert q'.history == After(q.history, MessagesStarted(j));
  }

  lemma StartNextTaskKeepsBooks(q: Queue, j: Jid)
    requires Books(q) && !GroupOf(q, j).active && GroupOf(q, j).pendingTasks != []
    ensures Books(StartNextTask(q, j))
  {
    var q' := StartNextTask(q, j);
    var ts := GroupOf(q, j).pendingTasks;
    assert q'.history == After(q.history, TaskStarted(j, ts[0]));
    assert ts == [ts[0]] + q'.groups[j].pendingTasks;
  }

  lemma StartNextTaskKeeps(q: Queue, j: Jid)
    requires Machine(q) && Books(q) && !GroupOf(q, j).active && q.activeCount < q.maxConcurrent
    requires GroupOf(q, j).pendingTasks != []
    ensures Machine(StartNextTask(q, j)) && Books(StartNextTask(q, j))
  {
    var q' := StartNextTask(q, j);
    var ts := GroupOf(q, j).pendingTasks;
    assert q.groups[j].pendingTasks == ts;
    assert Machine(q') by { StartKeepsMachine(q, q', j, q'.groups[j], RunTask(j, ts[0], false)); }
    StartNextTaskKeepsBooks(q, j);
  }

  /** A run is over in group `j`, whose own work is not in the line; a slot is free while others may wait. */
  ghost predicate Draining(q: Queue, j: Jid) {
    && Machine(q) && Books(q) && !q.shuttingDown
    && j in q.groups && !q.groups[j].active && j !in q.waiting
    && LineHoldsIdleWork(q, Some(j))
    && q.activeCount < q.maxConcurrent
    && (q.waiting != [] ==> q.activeCount == q.maxConcurrent - 1)
  }

  /** The head leaves the line. */
  function CallHead(q: Queue): Queue
    requires q.waiting != []
  {
    Note(q.(waiting := q.waiting[1..]), Called(q.waiting[0]))
  }

  /** A released slot goes to exactly the head of the line, if there is one. */
  function CallNext(q: Queue): Queue
    requires q.waiting != []
  {
    var j := q.waiting[0];
    if GroupOf(q, j).pendingTasks != [] then StartNextTask(CallHead(q), j) else StartRunForGroup(CallHead(q), j)
  }

  lemma CallHeadKeeps(q: Queue)
    requires Machine(q) && Books(q) && q.waiting != []
    ensures Machine(CallHead(q)) && Books(CallHead(q))
  {
    var q' := CallHead(q);
    assert Machine(q') by { SameRuns(q, q'); assert ActiveGroups(q') == ActiveGroups(q); }
    assert q.waiting == [q.waiting[0]] + q'.waiting;
    assert q'.history == After(q.history, Called(q.waiting[0]));
  }

  lemma WithoutHead(line: seq<Jid>, j: Jid)
    requires NoRepeats(line) && line != []
    ensures j in line[1..] <==> j in line && j != line[0]
  {
    assert line == [line[0]] + line[1..];
  }

  lemma CallNextIdles(q: Queue, j: Jid)
    requires q.waiting != [] && q.waiting[0] in q.groups
    ensures IsIdleWithWork(CallNext(q), j) <==> IsIdleWithWork(q, j) && j != q.waiting[0]
    ensures CallNext(q).waiting == q.waiting[1..] && CallNext(q).activeCount == q.activeCount + 1
    ensures CallNext(q).maxConcurrent == q.maxConcurrent
  {}

  lemma CallNextFillsLine(q: Queue, r: Jid)
    requires LineHoldsIdleWork(q, Some(r)) && !GroupOf(q, r).HasWork() && NoRepeats(q.waiting) && q.waiting != []
    requires q.activeCount == q.maxConcurrent - 1
    ensures Line(CallNext(q)) && CallNext(q).activeCount == q.maxConcurrent
  {
    assert q.waiting[0] in q.waiting;
    CallNextIdles(q, q.waiting[0]);
    forall k ensures k in q.waiting[1..] <==> IsIdleWithWork(CallNext(q), k) {
      WithoutHead(q.waiting, k);
      CallNextIdles(q, k);
    }
  }

  lemma DrainCallsOne(q: Queue)
    requires q.waiting != [] && IsIdleWithWork(q, q.waiting[0]) && q.activeCount == q.maxConcurrent - 1
    ensures DrainWaiting(q) == CallNext(q)
  {
    assert ServeHead(q) == CallNext(q);
    assert CallNext(q).activeCount == q.maxConcurrent;
  }

  lemma CallNextKeeps(q: Queue, r: Jid)
    requires Draining(q, r) && !q.groups[r].HasWork() && q.waiting != []
    ensures Inv(CallNext(q)) && DrainWaiting(q) == CallNext(q)
  {
    var j := q.waiting[0];
    assert j in q.waiting;
    DrainCallsOne(q);
    CallNextFillsLine(q, r);
    CallHeadKeeps(q);
    if GroupOf(q, j).pendingTasks != [] {
      StartNextTaskKeeps(CallHead(q), j);
    } else {
      StartMessagesKeeps(CallHead(q), j);
    }
  }

  lemma ReleaseKeeps(q: Queue, j: Jid)
    requires Draining(q, j) && !q.groups[j].HasWork()
    ensures Inv(DrainWaiting(Note(Touch(q, j), SlotReleased(j))))
  {
    var released := Note(Touch(q, j), SlotReleased(j));
    assert Machine(released) by { StayKeepsMachine(q, released, j, q.groups[j]); }
    assert released.groups == q.groups;
    if q.waiting != [] { CallNextKeeps(released, j); }
  }

  lemma DrainKeeps(q: Queue, j: Jid)
    requires Draining(q, j)
    ensures Inv(DrainGroup(q, j))
  {
    var g := q.groups[j];
    if g.pendingTasks != [] {
      StartNextTaskKeeps(q, j);
    } else if g.pendingMessages {
      StartMessagesKeeps(q, j);
    } else {
      ReleaseKeeps(q, j);
    }
  }

  /** Books only read the history, the line, the pending tasks and who is idle. */
  lemma SameBooks(q: Queue, q': Queue, j: Jid, g: GroupState)
    requires Books(q) && q'.groups == q.groups[j := g] && q'.history == q.history && q'.waiting == q.waiting
    requires g.pendingTasks == GroupOf(q, j).pendingTasks
    requires g.active && g.idleWaiting ==> GroupOf(q, j).active && GroupOf(q, j).idleWaiting
    ensures Books(q')
  {}

  lemma JoinKeeps(q: Queue, j: Jid)
    requires Machine(q) && Books(q) && IsIdleWithWork(q, j) && q.activeCount == q.maxConcurrent
    requires forall k :: k != j ==> (k in q.waiting <==> IsIdleWithWork(q, k))
    ensures Inv(JoinLine(q, j))
  {
    var q' := JoinLine(q, j);
    if j !in q.waiting {
      assert Machine(q') by { SameRuns(q, q'); assert ActiveGroups(q') == ActiveGroups(q); }
      assert q'.history == After(q.history, Joined(j));
    }
  }

  lemma EnqueueMessageKeeps(q: Queue, j: Jid)
    requires Inv(q)
    ensures Inv(EnqueueMessageCheck(q, j))
  {
    if !q.shuttingDown {
      var g := GroupOf(q, j);
      if !g.active && q.activeCount < q.maxConcurrent {
        StartMessagesKeeps(q, j);
        assert q.waiting == [];
      } else {
        var flagged := Put(q, j, g.(pendingMessages := true));
        StayKeepsMachine(q, flagged, j, flagged.groups[j]);
        SameBooks(q, flagged, j, flagged.groups[j]);
        assert forall k :: k != j ==> IsIdleWithWork(flagged, k) == IsIdleWithWork(q, k);
        if !g.active { JoinKeeps(flagged, j); }
      }
    }
  }

  /** Accepting a task: it goes to the end of the pending queue. */
  function Accept(q: Queue, j: Jid, t: QueuedTask): Queue {
    Put(Note(q, Accepted(j, t)), j, GroupOf(q, j).(pendingTasks := GroupOf(q, j).pendingTasks + [t]))
  }

  lemma AcceptKeepsMachine(q: Queue, j: Jid, t: QueuedTask)
    requires Machine(q) && !IsDuplicate(GroupOf(q, j), t.id) && t.groupJid == j
    ensures Machine(Accept(q, j, t)) && Machine(Note(Accept(q, j, t), StdinClosed(j)))
  {
    var q' := Accept(q, j, t);
    StayKeepsMachine(q, q', j, q'.groups[j]);
    StayKeepsMachine(q, Note(q', StdinClosed(j)), j, q'.groups[j]);
  }

  lemma TellingIsQuiet(q: Queue, j: Jid)
    requires Conserved(q) && LineIsFifo(q)
    requires forall k :: k != j && IsPreempted(q, k) ==> ToldToFinish(q.history, k)
    ensures Books(Note(q, StdinClosed(j)))
  {
    assert Note(q, StdinClosed(j)).history == After(q.history, StdinClosed(j));
  }

  lemma AcceptKeepsBooks(q: Queue, j: Jid, t: QueuedTask)
    requires Books(q)
    ensures var g, q' := GroupOf(q, j), Accept(q, j, t);
      if g.active && g.idleWaiting then Books(Note(q', StdinClosed(j))) else Books(q')
  {
    var q' := Accept(q, j, t);
    assert q'.history == After(q.history, Accepted(j, t));
    assert AcceptedTasks(q'.history, j) == StartedTasks(q.history, j) + GroupOf(q', j).pendingTasks;
    assert Conserved(q');
    TellingIsQuiet(q', j);
  }

  lemma OverwriteTwice(m: map<Jid, GroupState>, j: Jid, a: GroupState, b: GroupState)
    ensures m[j := a][j := b] == m[j := b]
  {}

  /** Starting a task at once is the same as queueing it in an empty queue and starting the next. */
  lemma DirectIsNext(q: Queue, j: Jid, t: QueuedTask)
    requires GroupOf(q, j).pendingTasks == []
    ensures StartNextTask(Accept(q, j, t), j) == StartRunTask(Note(q, Accepted(j, t)), j, t)
  {
    var queued := GroupOf(q, j).(pendingTasks := [t]);
    var running :=
      GroupOf(q, j).(active := true, idleWaiting := false, isTaskContainer := true, runningTaskId := Some(t.id));
    assert [] + [t] == [t] && [t][1..] == [];
    OverwriteTwice(q.groups, j, queued, GroupOf(q, j));
    OverwriteTwice(q.groups, j, GroupOf(q, j), running);
  }

  /** With a free slot nobody waits, so on the direct-start path the group has nothing pending. */
  lemma FreeSlotMeansNoIdleWork(q: Queue, j: Jid)
    requires Line(q) && q.activeCount < q.maxConcurrent && !GroupOf(q, j).active
    ensures q.waiting == [] && !GroupOf(q, j).HasWork()
  {
    assert !IsIdleWithWork(q, j);
  }

  lemma StartKeepsEmptyLine(q: Queue, q': Queue, j: Jid)
    requires Line(q) && q.waiting == [] && q'.waiting == []
    requires j in q'.groups && q'.groups[j].active && q'.groups == q.groups[j := q'.groups[j]]
    ensures Line(q')
  {
    assert forall k :: k != j ==> IsIdleWithWork(q', k) == IsIdleWithWork(q, k);
  }

  lemma DirectStartKeeps(q: Queue, j: Jid, t: QueuedTask)
    requires Inv(q) && !q.shuttingDown && !GroupOf(q, j).active && q.activeCount < q.maxConcurrent && t.groupJid == j
    ensures Inv(StartRunTask(Note(q, Accepted(j, t)), j, t))
  {
    var q' := StartNextTask(Accept(q, j, t), j);
    FreeSlotMeansNoIdleWork(q, j);
    DirectIsNext(q, j, t);
    StartKeepsEmptyLine(q, q', j);
    assert Machine(q') && Books(q') by {
      AcceptKeepsMachine(q, j, t);
      AcceptKeepsBooks(q, j, t);
      StartNextTaskKeeps(Accept(q, j, t), j);
    }
  }

  lemma EnqueueTaskKeeps(q: Queue, j: Jid, id: string, fn: ScheduledTask)
    requires Inv(q)
    ensures Inv(EnqueueTask(q, j, id, fn))
  {
    var g := GroupOf(q, j);
    if !q.shuttingDown && !IsDuplicate(g, id) {
      var t := QueuedTask(id, j, fn);
      var queued := Accept(q, j, t);
      if g.active || q.activeCount >= q.maxConcurrent {
        AcceptKeepsMachine(q, j, t);
        AcceptKeepsBooks(q, j, t);
        assert forall k :: k != j ==> IsIdleWithWork(queued, k) == IsIdleWithWork(q, k);
        if !g.active { JoinKeeps(queued, j); }
      } else {
        DirectStartKeeps(q, j, t);
      }
    }
  }

  lemma IdleWithoutTasks(q: Queue, j: Jid)
    requires Books(q) && GroupOf(q, j).pendingTasks == []
    ensures Books(Put(q, j, GroupOf(q, j).(idleWaiting := true)))
  {}

  lemma SameIdleWork(q: Queue, q': Queue, j: Jid)
    requires Line(q) && q'.waiting == q.waiting && q'.activeCount == q.activeCount
      && q'.maxConcurrent == q.maxConcurrent
    requires j in q'.groups && q'.groups == q.groups[j := q'.groups[j]]
    requires IsIdleWithWork(q', j) == IsIdleWithWork(q, j)
    ensures Line(q')
  {
    assert forall k :: k != j ==> IsIdleWithWork(q', k) == IsIdleWithWork(q, k);
  }

  lemma NotifyIdleKeepsBooks(q: Queue, j: Jid)
    requires Books(q)
    ensures Books(NotifyIdle(q, j))
  {
    if GroupOf(q, j).pendingTasks != [] {
      TellingIsQuiet(Put(q, j, GroupOf(q, j).(idleWaiting := true)), j);
    } else {
      IdleWithoutTasks(q, j);
    }
  }

  lemma NotifyIdleKeepsMachine(q: Queue, j: Jid)
    requires Machine(q)
    ensures Machine(NotifyIdle(q, j))
  {
    StayKeepsMachine(q, NotifyIdle(q, j), j, NotifyIdle(q, j).groups[j]);
  }

  lemma NotifyIdleKeeps(q: Queue, j: Jid)
    requires Inv(q)
    ensures Inv(NotifyIdle(q, j))
  {
    NotifyIdleKeepsMachine(q, j);
    NotifyIdleKeepsBooks(q, j);
    if !q.shuttingDown { SameIdleWork(q, NotifyIdle(q, j), j); }
  }

  /** A step that only touches the coroutines leaves books and line alone. */
  lemma CoroutinesOnly(q: Queue, q': Queue)
    requires Inv(q) && Machine(q') && q' == q.(background := q'.background)
    ensures Inv(q')
  {}

  lemma ShutdownKeeps(q: Queue)
    requires Inv(q)
    ensures Inv(Shutdown(q))
  {
    var q' := Shutdown(q);
    assert ActiveGroups(q') == ActiveGroups(q);
    assert forall h, k :: LiveRun(q', h, k) ==> LiveRun(q, h, k);
  }

  // ----- every step -----

  lemma SettleMessagesEnds(q: Queue, h: nat, outcome: Outcome)
    requires Runs(q) && Tidy(q) && h in q.background && q.background[h].RunForGroup?
    ensures var j, q' := q.background[h].jid, SettleMessageRun(q, h, outcome);
      j in q'.groups && Ends(q, q', j, q'.groups[j], h) && GroupTidy(j, q'.groups[j], q.maxRetries)
  {
    assert LiveRun(q, h, q.background[h].jid);
  }

  lemma SettleMessagesKeeps(q: Queue, h: nat, outcome: Outcome)
    requires Machine(q) && Books(q) && h in q.background && q.background[h].RunForGroup?
    ensures Machine(SettleMessageRun(q, h, outcome)) && Books(SettleMessageRun(q, h, outcome))
  {
    var j, q' := q.background[h].jid, SettleMessageRun(q, h, outcome);
    SettleMessagesEnds(q, h, outcome);
    EndKeepsMachine(q, q', j, q'.groups[j], h);
    SameBooks(q, q', j, q'.groups[j]);
  }

  /** The other groups' idle work is in the line as before, and the slot of `j` is free. */
  lemma SettleMessagesFreesSlot(q: Queue, h: nat, outcome: Outcome)
    requires Runs(q) && Counted(q) && Line(q) && !q.shuttingDown && h in q.background && q.background[h].RunForGroup?
    ensures var j, q' := q.background[h].jid, SettleMessageRun(q, h, outcome);
      && !q'.shuttingDown && j in q'.groups && !q'.groups[j].active && j !in q'.waiting
      && LineHoldsIdleWork(q', Some(j)) && q'.activeCount < q'.maxConcurrent
      && (q'.waiting != [] ==> q'.activeCount == q'.maxConcurrent - 1)
  {
    var j, q' := q.background[h].jid, SettleMessageRun(q, h, outcome);
    assert LiveRun(q, h, j);
    assert forall k :: k != j ==> IsIdleWithWork(q', k) == IsIdleWithWork(q, k);
  }

  lemma SettleMessagesDrains(q: Queue, h: nat, outcome: Outcome)
    requires Inv(q) && !q.shuttingDown && h in q.background && q.background[h].RunForGroup?
    ensures Draining(SettleMessageRun(q, h, outcome), q.background[h].jid)
  {
    SettleMessagesKeeps(q, h, outcome);
    SettleMessagesFreesSlot(q, h, outcome);
  }

  lemma FinishMessagesKeeps(q: Queue, h: nat, outcome: Outcome)
    requires Inv(q) && h in q.background && q.background[h].RunForGroup?
    ensures Inv(FinishMessageRun(q, h, outcome))
    ensures var q' := SettleMessageRun(q, h, outcome);
      !q.shuttingDown ==> Draining(q', q.background[h].jid)
  {
    SettleMessagesKeeps(q, h, outcome);
    if !q.shuttingDown {
      SettleMessagesFreesSlot(q, h, outcome);
      DrainKeeps(SettleMessageRun(q, h, outcome), q.background[h].jid);
    }
  }

  lemma FinishTaskKeeps(q: Queue, h: nat)
    requires Inv(q) && h in q.background && q.background[h].RunTask?
    ensures Inv(FinishTaskRun(q, h))
    ensures var q' := SettleTaskRun(q, h); !q.shuttingDown ==> Draining(q', q.background[h].jid)
  {
    var j := q.background[h].jid;
    var q' := SettleTaskRun(q, h);
    assert LiveRun(q, h, j);
    EndKeepsMachine(q, q', j, q'.groups[j], h);
    SameBooks(q, q', j, q'.groups[j]);
    if !q.shuttingDown {
      assert forall k :: k != j ==> IsIdleWithWork(q', k) == IsIdleWithWork(q, k);
      DrainKeeps(q', j);
    }
  }

  lemma StepKeeps(q: Queue, s: Step)
    requires Inv(q) && Enabled(q, s)
    ensures Inv(Apply(q, s))
  {
    match s
    case DoEnqueueMessage(j) => EnqueueMessageKeeps(q, j);
    case DoEnqueueTask(j, id, fn) => EnqueueTaskKeeps(q, j, id, fn);
    case DoNotifyIdle(j) => NotifyIdleKeeps(q, j);
    case DoBegin(h) => BeginKeepsMachine(q, h); CoroutinesOnly(q, BeginRun(q, h));
    case DoFinishMessages(h, outcome) => FinishMessagesKeeps(q, h, outcome);
    case DoFinishTask(h) => FinishTaskKeeps(q, h);
    case DoTimer(h) =>
      ForgetKeepsMachine(q, h);
      CoroutinesOnly(q, Forget(q, h));
      EnqueueMessageKeeps(Forget(q, h), q.background[h].jid);
    case DoShutdown => ShutdownKeeps(q);
    case DoCancelUnstarted(h) => ForgetKeepsMachine(q, h); CoroutinesOnly(q, Forget(q, h));
  }

  /** The invariant holds in every state of every run from the initial state. */
  lemma {:induction false} RunKeeps(q: Queue, steps: seq<Step>)
    requires Inv(q) && IsRun(q, steps)
    ensures Inv(RunFrom(q, steps))
    decreases |steps|
  {
    if steps == [] {
    } else {
      StepKeeps(q, steps[0]);
      RunKeeps(Apply(q, steps[0]), steps[1..]);
    }
  }

  lemma InitKeeps(maxConcurrent: int, maxRetries: int)
    ensures Inv(Init(maxConcurrent, maxRetries))
  {
    var q := Init(maxConcurrent, maxRetries);
    assert ActiveGroups(q) == {};
  }
}
