/** What every reachable state of the message consumer satisfies. */
module AppInvariants {
  import opened Types
  import opened Ordering
  import opened QueueModel
  import opened QueueInvariants
  import opened QueueRetries
  import opened QueueEffects
  import opened MessageStore
  import opened AppModel

  // ----- the invariant -----

  predicate IsStarted(q: Queue, h: nat) { IsMessageRun(q, h) && q.background[h].started }

  ghost predicate LocalIsFetch(bot: string, j: Jid, l: Local) {
    && l.jid == j
    && IsFetch(l.rows, l.admitted, LIMIT)
    && (forall m :: m in l.admitted ==> IsPast(m, j, l.since, bot))
    && (forall m, n :: m in l.admitted && n in l.admitted && m.id == n.id ==> m == n)
    && (l.early == Some(NothingNew) ==> l.rows == [])
    && l.early != Some(NotRegistered)
    && (l.early.None? ==> l.rows != [])
  }

  ghost predicate LocalMatches(cursor: map<Jid, string>, bot: string, j: Jid, l: Local) {
    l.since == CursorOf(cursor, j) && LocalIsFetch(bot, j, l)
  }

  /** Every started message run has its local variables, and its cursor has not moved since it fetched. */
  ghost predicate LocalsMatch(a: App) {
    && (forall h :: h in a.locals <==> IsStarted(a.q, h))
    && (forall h :: h in a.locals ==> LocalMatches(a.cursor, a.botName, a.q.background[h].jid, a.locals[h]))
  }

  /** Message runs, message flags and timers exist for registered groups only. */
  ghost predicate Owned(a: App) { forall j :: Tokens(a.q, j) > 0 ==> j in a.registered }

  ghost predicate CursorsSaved(a: App) { a.cursor == a.saved && a.cursor.Keys <= a.registered.Keys }

  /** What a run in progress did not see has been announced to the queue. */
  ghost predicate Seen(a: App) {
    forall h, m :: h in a.locals && m in PastOf(a, a.locals[h].jid) ==>
      m in a.locals[h].admitted || GroupOf(a.q, a.locals[h].jid).pendingMessages
  }

  ghost predicate NoLost(a: App) {
    forall j, m :: j in a.registered && m in PastOf(a, j) ==> Tokens(a.q, j) > 0 || m in ParkedOf(a, j)
  }

  /** A row of group `j` later than `since` and not later than `upTo`. */
  predicate RowBetween(m: NewMessage, j: Jid, since: string, upTo: string) {
    m.chatJid == j && Less(since, m.timestamp) && !Less(upTo, m.timestamp)
  }

  ghost predicate CommitMatches(cursor: map<Jid, string>, registered: map<Jid, Registered>, c: Commit) {
    && c.jid in registered && c.rows != [] && IsFetch(c.rows, c.admitted, LIMIT)
    && c.cursor == c.rows[|c.rows| - 1].timestamp && Less(c.since, c.cursor)
    && (forall m :: m in c.admitted ==> RowBetween(m, c.jid, c.since, c.cursor))
    && (forall i, k :: 0 <= i < k < |c.rows| ==> c.rows[i].id != c.rows[k].id)
    && !Less(CursorOf(cursor, c.jid), c.cursor)
  }

  ghost predicate CommitsInOrder(cursor: map<Jid, string>, registered: map<Jid, Registered>, commits: seq<Commit>) {
    && (forall i :: 0 <= i < |commits| ==> CommitMatches(cursor, registered, commits[i]))
    && (forall i, k :: 0 <= i < k < |commits| && commits[i].jid == commits[k].jid ==>
          !Less(commits[k].since, commits[i].cursor))
  }

  /** The books of the consumer about the queue, the rows and the cursors. */
  ghost predicate AppBooks(a: App) {
    && WellKeyed(a.table) && LocalsMatch(a) && Owned(a) && CursorsSaved(a)
    && CommitsInOrder(a.cursor, a.registered, a.commits)
    && (!a.q.shuttingDown ==> Seen(a) && (a.recovered ==> NoLost(a)))
  }

  ghost predicate AppInv(a: App) { Inv(a.q) && AppBooks(a) }

  // ----- steps of the queue that are not about messages -----

  /** The run `h` goes on in `q'`, and no announcement to its group is lost. */
  ghost predicate GoesOn(q: Queue, q': Queue, h: nat)
    requires h in q.background && h in q'.background
  {
    && q'.background[h].jid == q.background[h].jid
    && (GroupOf(q, q.background[h].jid).pendingMessages ==> GroupOf(q', q.background[h].jid).pendingMessages)
  }

  ghost predicate SameTokens(q: Queue, q': Queue) { forall j :: Tokens(q', j) > 0 <==> Tokens(q, j) > 0 }

  ghost predicate FewerTokens(q: Queue, q': Queue) { forall j :: Tokens(q', j) > 0 ==> Tokens(q, j) > 0 }

  /** The queue changes without starting, ending or announcing anything about messages. */
  ghost predicate Quiet(q: Queue, q': Queue) {
    && (forall h :: IsStarted(q', h) <==> IsStarted(q, h))
    && (forall h :: IsStarted(q, h) ==> GoesOn(q, q', h))
    && FewerTokens(q, q')
    && (!q'.shuttingDown ==> !q.shuttingDown && SameTokens(q, q'))
  }

  lemma CalmRunsGoOn(q: Queue, q': Queue)
    requires Runs(q) && Calm(q, q')
    ensures forall h :: IsStarted(q', h) <==> IsStarted(q, h)
    ensures forall h :: IsStarted(q, h) ==> GoesOn(q, q', h)
  {
    forall h | IsStarted(q, h) ensures GoesOn(q, q', h) {
      assert LiveRun(q, h, q.background[h].jid);
    }
  }

  lemma OverRunsGoOn(q: Queue, q': Queue, e: nat)
    requires Runs(q) && e in q.background && !q.background[e].Retry? && Over(q, q', e, q.background[e].jid)
    ensures forall h :: IsStarted(q', h) <==> IsStarted(q, h) && h != e
    ensures forall h :: IsStarted(q, h) && h != e ==> GoesOn(q, q', h)
  {
    forall h | IsStarted(q, h) && h != e ensures GoesOn(q, q', h) {
      assert LiveRun(q, h, q.background[h].jid) && LiveRun(q, e, q.background[e].jid);
    }
  }

  lemma TimerIsQuiet(q: Queue, h: nat)
    requires Inv(q) && h in q.background && q.background[h].Retry?
    ensures Quiet(q, TimerFires(q, h))
  {
    var k, waking, q' := q.background[h].jid, Forget(q, h), TimerFires(q, h);
    ForgetKeepsMachine(q, h);
    CoroutinesOnly(q, waking);
    EnqueueCalm(waking, k);
    CalmRunsGoOn(waking, q');
    assert forall i :: IsStarted(waking, i) <==> IsStarted(q, i);
    forall j ensures Tokens(q', j) > 0 ==> Tokens(q, j) > 0
             ensures !q.shuttingDown && Tokens(q, j) > 0 ==> Tokens(q', j) > 0
    {
      ForgetBudget(q, h, j);
      EnqueueBudget(waking, k, j);
    }
    assert forall i :: IsStarted(q, i) ==> GoesOn(waking, q', i) && GoesOn(q, q', i);
  }

  lemma EnqueueTaskIsQuiet(q: Queue, k: Jid, id: string, fn: ScheduledTask)
    requires Inv(q)
    ensures Quiet(q, EnqueueTask(q, k, id, fn))
  {
    EnqueueTaskCalm(q, k, id, fn);
    CalmRunsGoOn(q, EnqueueTask(q, k, id, fn));
    forall j ensures Tokens(EnqueueTask(q, k, id, fn), j) == Tokens(q, j) { EnqueueTaskSameBudget(q, k, id, fn, j); }
  }

  lemma NotifyIsQuiet(q: Queue, k: Jid)
    requires Inv(q)
    ensures Quiet(q, NotifyIdle(q, k))
  {
    CalmRunsGoOn(q, NotifyIdle(q, k));
    forall j ensures Tokens(NotifyIdle(q, k), j) == Tokens(q, j) { NotifyIdleSameBudget(q, k, j); }
  }

  lemma BeginTaskIsQuiet(q: Queue, h: nat)
    requires h in q.background && q.background[h].RunTask?
    ensures Quiet(q, BeginRun(q, h))
  {
    forall j ensures Tokens(BeginRun(q, h), j) == Tokens(q, j) { BeginSameBudget(q, h, j); }
  }

  lemma FinishTaskIsQuiet(q: Queue, h: nat)
    requires Inv(q) && h in q.background && q.background[h].RunTask?
    ensures Quiet(q, FinishTaskRun(q, h))
  {
    FinishTaskOver(q, h);
    OverRunsGoOn(q, FinishTaskRun(q, h), h);
    DrainKeepsShutdown(SettleTaskRun(q, h), q.background[h].jid);
    forall j ensures Tokens(FinishTaskRun(q, h), j) == Tokens(q, j) { FinishTaskSameBudget(q, h, j); }
  }

  lemma ShutdownIsQuiet(q: Queue)
    ensures Quiet(q, Shutdown(q))
  {
    forall j ensures Tokens(Shutdown(q), j) == Tokens(q, j) { SameTimers(q, Shutdown(q), j); }
  }

  lemma CancelIsQuiet(q: Queue, h: nat)
    requires q.shuttingDown && h in q.background && !IsStarted(q, h)
    ensures Quiet(q, Forget(q, h))
  {
    forall j ensures Tokens(Forget(q, h), j) <= Tokens(q, j) { ForgetBudget(q, h, j); }
  }

  lemma QueueStepIsQuiet(q: Queue, s: Step)
    requires Inv(q) && Enabled(q, s) && !s.DoEnqueueMessage? && !s.DoFinishMessages?
    requires s.DoBegin? ==> !IsMessageRun(q, s.h)
    ensures Quiet(q, Apply(q, s))
  {
    match s
    case DoEnqueueTask(k, id, fn) => EnqueueTaskIsQuiet(q, k, id, fn);
    case DoNotifyIdle(k) => NotifyIsQuiet(q, k);
    case DoBegin(h) => BeginTaskIsQuiet(q, h);
    case DoFinishTask(h) => FinishTaskIsQuiet(q, h);
    case DoTimer(h) => TimerIsQuiet(q, h);
    case DoShutdown => ShutdownIsQuiet(q);
    case DoCancelUnstarted(h) => CancelIsQuiet(q, h);
  }

  lemma QuietKeeps(a: App, q': Queue)
    requires AppInv(a) && Inv(q') && Quiet(a.q, q')
    ensures AppInv(a.(q := q'))
  {
    var a' := a.(q := q');
    assert forall j :: PastOf(a', j) == PastOf(a, j);
    assert LocalsMatch(a') by {
      forall h | h in a'.locals ensures LocalMatches(a.cursor, a.botName, a'.q.background[h].jid, a'.locals[h]) {
        assert GoesOn(a.q, q', h);
      }
    }
    if !q'.shuttingDown {
      forall h, m | h in a'.locals && m in PastOf(a', a'.locals[h].jid)
        ensures m in a'.locals[h].admitted || GroupOf(q', a'.locals[h].jid).pendingMessages
      {
        assert GoesOn(a.q, q', h);
      }
    }
  }

  // ----- announcing -----

  lemma StorePast(t: Table, m: NewMessage, j: Jid, since: string, bot: string)
    requires WellKeyed(t)
    ensures WellKeyed(StoreMessage(t, m))
    ensures forall x :: x in Past(StoreMessage(t, m), j, since, bot) ==>
      x in Past(t, j, since, bot) || (x == m && j == m.chatJid && !m.isBotMessage)
  {
    var t' := StoreMessage(t, m);
    forall x | x in Past(t', j, since, bot)
      ensures x in Past(t, j, since, bot) || (x == m && j == m.chatJid && !m.isBotMessage)
    {
      var k :| k in t' && t'[k] == x && IsPast(x, j, since, bot);
      if k != (m.id, m.chatJid) { assert k in t && t[k] == x; }
    }
  }

  lemma EnqueueKeepsTokens(q: Queue, j: Jid)
    requires Inv(q)
    ensures var q' := EnqueueMessageCheck(q, j);
      forall k :: (Tokens(q', k) > 0 ==> Tokens(q, k) > 0 || k == j) && (Tokens(q, k) > 0 ==> Tokens(q', k) > 0)
  {
    forall k ensures Tokens(EnqueueMessageCheck(q, j), k) > 0 ==> Tokens(q, k) > 0 || k == j
             ensures Tokens(q, k) > 0 ==> Tokens(EnqueueMessageCheck(q, j), k) > 0
    {
      EnqueueBudget(q, j, k);
    }
  }

  lemma AnnounceKeepsLocals(a: App, a': App)
    requires LocalsMatch(a) && a' == a.(table := a'.table, q := a'.q)
    requires forall h :: IsStarted(a'.q, h) <==> IsStarted(a.q, h)
    requires forall h :: IsStarted(a.q, h) ==> IsStarted(a'.q, h) && GoesOn(a.q, a'.q, h)
    ensures LocalsMatch(a')
  {
    forall h | h in a'.locals ensures LocalMatches(a.cursor, a.botName, a'.q.background[h].jid, a.locals[h]) {
      assert GoesOn(a.q, a'.q, h);
    }
  }

  lemma AnnounceKeepsSeen(a: App, j: Jid, t: Table)
    requires Inv(a.q) && LocalsMatch(a) && Seen(a) && !a.q.shuttingDown
    requires forall k, m :: m in Past(t, k, CursorOf(a.cursor, k), a.botName) ==> k == j || m in PastOf(a, k)
    ensures Seen(a.(table := t, q := EnqueueMessageCheck(a.q, j)))
  {
    var a' := a.(table := t, q := EnqueueMessageCheck(a.q, j));
    EnqueueCalm(a.q, j);
    CalmRunsGoOn(a.q, a'.q);
    forall h, m | h in a'.locals && m in PastOf(a', a'.locals[h].jid)
      ensures m in a'.locals[h].admitted || GroupOf(a'.q, a'.locals[h].jid).pendingMessages
    {
      assert GoesOn(a.q, a'.q, h) && LiveRun(a.q, h, a.locals[h].jid);
    }
  }

  /** The rows change, at most by rows of `j`, and `j` is announced to the queue. */
  lemma AnnounceKeeps(a: App, j: Jid, t: Table)
    requires AppInv(a) && j in a.registered && WellKeyed(t)
    requires forall k, m :: m in Past(t, k, CursorOf(a.cursor, k), a.botName) ==> k == j || m in PastOf(a, k)
    ensures var a' := a.(table := t, q := EnqueueMessageCheck(a.q, j));
      AppInv(a') && (!a.q.shuttingDown ==> Tokens(a'.q, j) > 0)
  {
    var a' := a.(table := t, q := EnqueueMessageCheck(a.q, j));
    EnqueueMessageKeeps(a.q, j);
    EnqueueCalm(a.q, j);
    CalmRunsGoOn(a.q, a'.q);
    assert a'.q.shuttingDown == a.q.shuttingDown;
    EnqueueKeepsTokens(a.q, j);
    AnnounceKeepsLocals(a, a');
    if !a.q.shuttingDown { AnnounceKeepsSeen(a, j, t); }
  }

  lemma InboundKeeps(a: App, m: NewMessage)
    requires AppInv(a)
    ensures AppInv(Inbound(a, m))
  {
    if m.chatJid in a.registered {
      forall k ensures forall x :: x in Past(StoreMessage(a.table, m), k, CursorOf(a.cursor, k), a.botName) ==>
        k == m.chatJid || x in PastOf(a, k)
      {
        StorePast(a.table, m, k, CursorOf(a.cursor, k), a.botName);
      }
      StorePast(a.table, m, m.chatJid, "", "");
      AnnounceKeeps(a, m.chatJid, StoreMessage(a.table, m));
    }
  }

  lemma ReplyKeeps(a: App, m: NewMessage)
    requires AppInv(a) && m.isBotMessage
    ensures AppInv(Reply(a, m))
  {
    var a' := Reply(a, m);
    StorePast(a.table, m, m.chatJid, "", "");
    forall k ensures PastOf(a', k) <= PastOf(a, k) {
      StorePast(a.table, m, k, CursorOf(a.cursor, k), a.botName);
    }
  }

  // ----- recovery -----

  /** Only the queue changed; tokens stayed, and the groups in `order` with rows past their cursor have one. */
  ghost predicate Announced(a: App, a': App, order: seq<Jid>) {
    && a' == a.(q := a'.q) && a'.q.shuttingDown == a.q.shuttingDown
    && (forall j :: Tokens(a.q, j) > 0 ==> Tokens(a'.q, j) > 0)
    && (!a.q.shuttingDown ==> forall j :: j in order && PastOf(a, j) != {} ==> Tokens(a'.q, j) > 0)
  }

  lemma EnqueueAnnounces(a: App, j: Jid)
    requires Inv(a.q)
    ensures Announced(a, a.(q := EnqueueMessageCheck(a.q, j)), [j])
  {
    EnqueueCalm(a.q, j);
    forall k ensures Tokens(a.q, k) > 0 ==> Tokens(EnqueueMessageCheck(a.q, j), k) > 0 {
      EnqueueBudget(a.q, j, k);
    }
  }

  lemma RecoverGroupAnnounces(a: App, j: Jid)
    requires AppInv(a) && j in a.registered
    ensures AppInv(RecoverGroup(a, j)) && Announced(a, RecoverGroup(a, j), [j])
  {
    if PastOf(a, j) != {} {
      var a' := a.(table := a.table, q := EnqueueMessageCheck(a.q, j));
      assert RecoverGroup(a, j) == a';
      AnnounceKeeps(a, j, a.table);
      EnqueueAnnounces(a, j);
    } else {
      assert RecoverGroup(a, j) == a;
    }
  }

  lemma AnnouncedTwice(a: App, next: App, a': App, order: seq<Jid>)
    requires order != [] && Announced(a, next, [order[0]]) && Announced(next, a', order[1..])
    ensures Announced(a, a', order)
  {
    assert forall k :: k in order ==> k in [order[0]] || k in order[1..];
    assert forall k :: PastOf(next, k) == PastOf(a, k);
  }

  lemma {:induction false} RecoverGroupsAnnounce(a: App, order: seq<Jid>)
    requires AppInv(a) && forall j :: j in order ==> j in a.registered
    ensures AppInv(RecoverGroups(a, order)) && Announced(a, RecoverGroups(a, order), order)
    decreases |order|
  {
    if order == [] {
    } else {
      assert order[0] in order;
      var next := RecoverGroup(a, order[0]);
      RecoverGroupAnnounces(a, order[0]);
      RecoverGroupsAnnounce(next, order[1..]);
      AnnouncedTwice(a, next, RecoverGroups(a, order), order);
    }
  }

  lemma RecoveredLosesNothing(a: App, groups: App, order: seq<Jid>)
    requires AppBooks(groups) && Announced(a, groups, order) && forall j :: j in a.registered <==> j in order
    ensures AppBooks(groups.(recovered := true))
  {
    var a' := groups.(recovered := true);
    assert forall k :: PastOf(a', k) == PastOf(a, k) == PastOf(groups, k);
  }

  lemma RecoverKeeps(a: App, order: seq<Jid>)
    requires AppInv(a) && forall j :: j in a.registered <==> j in order
    ensures AppInv(Recover(a, order))
  {
    RecoverGroupsAnnounce(a, order);
    RecoveredLosesNothing(a, RecoverGroups(a, order), order);
  }

  // ----- a run begins -----

  lemma FetchMatches(a: App, j: Jid, rows: seq<NewMessage>, hasChannel: bool, hasTrigger: bool)
    requires WellKeyed(a.table) && j in a.registered && IsFetch(rows, PastOf(a, j), LIMIT)
    ensures LocalMatches(a.cursor, a.botName, j,
      Local(j, CursorOf(a.cursor, j), PastOf(a, j), rows, Early(a, j, rows, hasChannel, hasTrigger)))
  {}

  lemma BeginStarts(q: Queue, h: nat)
    requires IsMessageRun(q, h)
    ensures forall i :: IsStarted(BeginRun(q, h), i) <==> IsStarted(q, i) || i == h
    ensures forall i :: i in q.background ==>
      i in BeginRun(q, h).background && BeginRun(q, h).background[i].jid == q.background[i].jid
  {}

  lemma BeginLocals(a: App, a': App, h: nat, l: Local)
    requires LocalsMatch(a) && IsMessageRun(a.q, h) && !a.q.background[h].started
    requires LocalMatches(a.cursor, a.botName, a.q.background[h].jid, l)
    requires a' == a.(q := BeginRun(a.q, h), locals := a.locals[h := l])
    ensures LocalsMatch(a')
  {
    BeginStarts(a.q, h);
    forall i | i in a'.locals ensures LocalMatches(a'.cursor, a'.botName, a'.q.background[i].jid, a'.locals[i]) {
      if i != h { assert LocalMatches(a.cursor, a.botName, a.q.background[i].jid, a.locals[i]); }
    }
  }

  lemma BeginSeenAndLost(a: App, a': App, h: nat, l: Local)
    requires a' == a.(q := a'.q, locals := a.locals[h := l]) && l.admitted == PastOf(a, l.jid)
    requires a'.q.groups == a.q.groups && forall k :: Tokens(a'.q, k) == Tokens(a.q, k)
    ensures (Seen(a) ==> Seen(a')) && (NoLost(a) ==> NoLost(a')) && (Owned(a) ==> Owned(a'))
  {
    assert forall k :: PastOf(a', k) == PastOf(a, k);
    assert forall k :: GroupOf(a'.q, k) == GroupOf(a.q, k);
  }

  lemma BeginKeeps(a: App, h: nat, rows: seq<NewMessage>, hasChannel: bool, hasTrigger: bool)
    requires AppInv(a) && IsMessageRun(a.q, h) && !a.q.background[h].started
    requires IsFetch(rows, PastOf(a, a.q.background[h].jid), LIMIT)
    ensures AppInv(BeginMessages(a, h, rows, hasChannel, hasTrigger))
  {
    var j, a' := a.q.background[h].jid, BeginMessages(a, h, rows, hasChannel, hasTrigger);
    assert Inv(a'.q) by {
      BeginKeepsMachine(a.q, h);
      CoroutinesOnly(a.q, a'.q);
    }
    assert AppBooks(a') by {
      assert j in a.registered by { assert LiveRun(a.q, h, j); }
      FetchMatches(a, j, rows, hasChannel, hasTrigger);
      BeginLocals(a, a', h, a'.locals[h]);
      forall k ensures Tokens(a'.q, k) == Tokens(a.q, k) { BeginSameBudget(a.q, h, k); }
      BeginSeenAndLost(a, a', h, a'.locals[h]);
    }
  }

  // ----- a run ends -----

  lemma FinishTokens(q: Queue, h: nat, outcome: Outcome)
    requires Inv(q) && h in q.background && q.background[h].RunForGroup?
    ensures forall j :: Tokens(FinishMessageRun(q, h, outcome), j) > 0 ==> Tokens(q, j) > 0
    ensures !q.shuttingDown ==>
      forall j :: j != q.background[h].jid && Tokens(q, j) > 0 ==> Tokens(FinishMessageRun(q, h, outcome), j) > 0
  {
    assert LiveRun(q, h, q.background[h].jid);
    forall j ensures Tokens(FinishMessageRun(q, h, outcome), j) > 0 ==> Tokens(q, j) > 0
             ensures !q.shuttingDown && j != q.background[h].jid && Tokens(q, j) > 0 ==>
               Tokens(FinishMessageRun(q, h, outcome), j) > 0
    {
      FinishMessagesTokens(q, h, outcome, j);
    }
  }

  /** An ending without commit: what the run saw is retried or parked. */
  lemma EndLosesNothing(a: App, h: nat, e: Ending, m: NewMessage)
    requires Inv(a.q) && LocalsMatch(a) && Seen(a) && !a.q.shuttingDown && CanEndMessages(a, h, e) && e != Committed
    requires m in PastOf(a, a.locals[h].jid)
    ensures Tokens(FinishMessageRun(a.q, h, OutcomeOf(e)), a.locals[h].jid) > 0
      || (Parks(e, HasRetriesLeft(a.q, h)) && m in a.locals[h].admitted)
  {
    var j := a.locals[h].jid;
    FinishMessagesTokens(a.q, h, OutcomeOf(e), j);
    assert m in a.locals[h].admitted || GroupOf(a.q, j).pendingMessages;
    if a.locals[h].rows == [] { assert a.locals[h].admitted == {}; }
  }

  ghost predicate GoesOnElsewhere(a: App, a': App, i: nat, k: Jid)
    requires i in a'.locals && IsStarted(a'.q, i)
  {
    && i in a.locals && IsStarted(a.q, i)
    && a.q.background[i].jid == a.locals[i].jid != k && GoesOn(a.q, a'.q, i)
  }

  /** Apart from group `k` and its run `h`, an ending changes nothing that the books of the runs depend on. */
  ghost predicate Ended(a: App, a': App, h: nat, k: Jid) {
    && a'.botName == a.botName && a'.table == a.table && a'.locals == a.locals - {h}
    && a'.registered == a.registered && a'.recovered == a.recovered
    && (forall i :: i in a'.locals <==> IsStarted(a'.q, i))
    && (forall i :: i in a'.locals ==> GoesOnElsewhere(a, a', i, k))
    && (forall j :: j != k ==> CursorOf(a'.cursor, j) == CursorOf(a.cursor, j) && ParkedOf(a', j) == ParkedOf(a, j))
  }

  lemma EndedLocals(a: App, a': App, h: nat, k: Jid)
    requires LocalsMatch(a) && Ended(a, a', h, k)
    ensures LocalsMatch(a')
  {}

  lemma EndedSeen(a: App, a': App, h: nat, k: Jid)
    requires Ended(a, a', h, k) && Seen(a) && h in a.locals
    ensures Seen(a')
  {
    forall i, m | i in a'.locals && m in PastOf(a', a'.locals[i].jid)
      ensures m in a'.locals[i].admitted || GroupOf(a'.q, a'.locals[i].jid).pendingMessages
    {
      assert m in PastOf(a, a.locals[i].jid);
    }
  }

  lemma EndedNoLost(a: App, a': App, h: nat, k: Jid)
    requires Ended(a, a', h, k) && NoLost(a)
    requires forall j :: j != k && Tokens(a.q, j) > 0 ==> Tokens(a'.q, j) > 0
    requires forall m :: m in PastOf(a', k) ==> Tokens(a'.q, k) > 0 || m in ParkedOf(a', k)
    ensures NoLost(a')
  {
    assert forall j :: j != k ==> PastOf(a', j) == PastOf(a, j);
  }

  /** The queue's part of an ending: the other runs go on, and their groups keep their tokens. */
  ghost predicate QueueEnds(q: Queue, q': Queue, h: nat)
    requires h in q.background
  {
    && (forall i :: IsStarted(q', i) <==> IsStarted(q, i) && i != h)
    && (forall i :: IsStarted(q, i) && i != h ==> q.background[i].jid != q.background[h].jid && GoesOn(q, q', i))
    && FewerTokens(q, q') && q'.shuttingDown == q.shuttingDown
    && (!q.shuttingDown ==> forall j :: j != q.background[h].jid && Tokens(q, j) > 0 ==> Tokens(q', j) > 0)
  }

  lemma FinishQueueEnds(q: Queue, h: nat, outcome: Outcome)
    requires Inv(q) && IsMessageRun(q, h)
    ensures QueueEnds(q, FinishMessageRun(q, h, outcome), h)
  {
    FinishMessagesOver(q, h, outcome);
    OverRunsGoOn(q, FinishMessageRun(q, h, outcome), h);
    FinishTokens(q, h, outcome);
    FinishKeepsShutdown(q, h, outcome);
    forall i | IsStarted(q, i) && i != h ensures q.background[i].jid != q.background[h].jid {
      assert LiveRun(q, i, q.background[i].jid) && LiveRun(q, h, q.background[h].jid);
    }
  }

  ghost predicate LocalsRun(a: App) {
    && (forall h :: h in a.locals <==> IsStarted(a.q, h))
    && (forall h :: h in a.locals ==> a.q.background[h].jid == a.locals[h].jid)
  }

  lemma LocalsMatchRuns(a: App)
    requires LocalsMatch(a)
    ensures LocalsRun(a)
  {
    assert forall h :: h in a.locals ==> LocalMatches(a.cursor, a.botName, a.q.background[h].jid, a.locals[h]);
  }

  lemma QueueEndsIsEnded(a: App, a': App, h: nat, k: Jid)
    requires LocalsRun(a) && h in a.locals && IsMessageRun(a.q, h) && k == a.locals[h].jid && QueueEnds(a.q, a'.q, h)
    requires a'.botName == a.botName && a'.table == a.table && a'.locals == a.locals - {h}
    requires a'.registered == a.registered && a'.recovered == a.recovered
    requires forall j :: j != k ==> CursorOf(a'.cursor, j) == CursorOf(a.cursor, j) && ParkedOf(a', j) == ParkedOf(a, j)
    ensures Ended(a, a', h, k)
  {
    forall i | i in a'.locals ensures IsStarted(a'.q, i) && GoesOnElsewhere(a, a', i, k) {
      assert i in a.locals && IsStarted(a.q, i);
    }
  }

  /** The ending keeps the invariant if it keeps the books on cursors and takes care of what its own group has left. */
  lemma EndedKeeps(a: App, a': App, h: nat, k: Jid)
    requires AppBooks(a) && h in a.locals && Ended(a, a', h, k)
    requires CursorsSaved(a') && CommitsInOrder(a'.cursor, a'.registered, a'.commits)
    requires FewerTokens(a.q, a'.q) && a'.q.shuttingDown == a.q.shuttingDown
    requires !a.q.shuttingDown ==> forall j :: j != k && Tokens(a.q, j) > 0 ==> Tokens(a'.q, j) > 0
    requires !a.q.shuttingDown ==> forall m :: m in PastOf(a', k) ==> Tokens(a'.q, k) > 0 || m in ParkedOf(a', k)
    ensures AppBooks(a')
  {
    EndedLocals(a, a', h, k);
    if !a'.q.shuttingDown {
      EndedSeen(a, a', h, k);
      if a.recovered { EndedNoLost(a, a', h, k); }
    }
  }

  /** The state after an ending without commit. */
  function Closing(a: App, h: nat, e: Ending, q': Queue): App
    requires IsMessageRun(a.q, h) && h in a.locals
  {
    var l := a.locals[h];
    a.(q := q', locals := a.locals - {h}, lastRun := a.lastRun[l.jid := LastRun(e, HasRetriesLeft(a.q, h), l.admitted)])
  }

  lemma ClosingIsEnded(a: App, h: nat, e: Ending, q': Queue)
    requires LocalsMatch(a) && CanEndMessages(a, h, e) && QueueEnds(a.q, q', h)
    ensures Ended(a, Closing(a, h, e, q'), h, a.locals[h].jid)
  {
    LocalsMatchRuns(a);
    QueueEndsIsEnded(a, Closing(a, h, e, q'), h, a.locals[h].jid);
  }

  lemma CloseWithoutCommit(a: App, h: nat, e: Ending, q': Queue)
    requires AppBooks(a) && CanEndMessages(a, h, e) && e != Committed && QueueEnds(a.q, q', h)
    requires !a.q.shuttingDown ==> forall m :: m in PastOf(a, a.locals[h].jid) ==>
      Tokens(q', a.locals[h].jid) > 0 || (Parks(e, HasRetriesLeft(a.q, h)) && m in a.locals[h].admitted)
    ensures AppBooks(Closing(a, h, e, q'))
  {
    assert PastOf(Closing(a, h, e, q'), a.locals[h].jid) == PastOf(a, a.locals[h].jid);
    ClosingIsEnded(a, h, e, q');
    EndedKeeps(a, Closing(a, h, e, q'), h, a.locals[h].jid);
  }

  lemma EndWithoutCommitKeeps(a: App, h: nat, e: Ending)
    requires AppInv(a) && CanEndMessages(a, h, e) && e != Committed
    ensures AppInv(FinishMessages(a, h, e))
  {
    var k, q' := a.locals[h].jid, FinishMessageRun(a.q, h, OutcomeOf(e));
    FinishMessagesKeeps(a.q, h, OutcomeOf(e));
    FinishQueueEnds(a.q, h, OutcomeOf(e));
    forall m | m in PastOf(a, k) && !a.q.shuttingDown
      ensures Tokens(q', k) > 0 || (Parks(e, HasRetriesLeft(a.q, h)) && m in a.locals[h].admitted)
    {
      EndLosesNothing(a, h, e, m);
    }
    CloseWithoutCommit(a, h, e, q');
  }

  lemma CommitCursor(a: App, l: Local)
    requires CursorsSaved(a) && l.jid in a.registered && l.rows != []
    ensures var a' := CommitRun(a, l);
      a'.cursor == a'.saved == a.cursor[l.jid := NewCursor(l)] && a'.cursor.Keys <= a'.registered.Keys
  {}

  lemma NewCommitMatches(cursor: map<Jid, string>, registered: map<Jid, Registered>, bot: string, l: Local)
    requires l.jid in registered && l.rows != [] && LocalIsFetch(bot, l.jid, l)
    ensures CommitMatches(cursor[l.jid := NewCursor(l)], registered, CommitOf(l))
  {
    assert l.rows[|l.rows| - 1] in l.admitted;
    forall m | m in l.admitted ensures RowBetween(m, l.jid, l.since, NewCursor(l)) {
      LastIsNewest(l.rows, l.admitted, LIMIT, m);
    }
    LessIsIrreflexive(NewCursor(l));
  }

  lemma OldCommitMatches(cursor: map<Jid, string>, registered: map<Jid, Registered>, c: Commit, j: Jid, ts: string)
    requires CommitMatches(cursor, registered, c) && Less(CursorOf(cursor, j), ts)
    ensures CommitMatches(cursor[j := ts], registered, c)
  {
    LessIsAsymmetric(CursorOf(cursor, j), ts);
    if c.jid == j { NotLessIsTransitive(c.cursor, CursorOf(cursor, j), ts); }
  }

  lemma CommitExtends(cursor: map<Jid, string>, registered: map<Jid, Registered>, bot: string, commits: seq<Commit>,
                      l: Local)
    requires CommitsInOrder(cursor, registered, commits) && l.jid in registered && l.rows != []
    requires LocalMatches(cursor, bot, l.jid, l)
    ensures CommitsInOrder(cursor[l.jid := NewCursor(l)], registered, commits + [CommitOf(l)])
  {
    NewCommitMatches(cursor, registered, bot, l);
    assert Less(l.since, NewCursor(l)) by { assert l.rows[|l.rows| - 1] in l.admitted; }
    forall i | 0 <= i < |commits|
      ensures CommitMatches(cursor[l.jid := NewCursor(l)], registered, commits[i])
      ensures commits[i].jid == l.jid ==> !Less(l.since, commits[i].cursor)
    {
      assert CommitMatches(cursor, registered, commits[i]);
      OldCommitMatches(cursor, registered, commits[i], l.jid, NewCursor(l));
    }
  }

  /** Past the new cursor lies nothing that the run saw. */
  lemma CommitPassesSeen(a: App, l: Local, m: NewMessage)
    requires LocalMatches(a.cursor, a.botName, l.jid, l) && l.rows != []
    requires m in Past(a.table, l.jid, NewCursor(l), a.botName)
    ensures m in PastOf(a, l.jid) && m !in l.admitted
  {
    var last := l.rows[|l.rows| - 1];
    assert last in l.admitted;
    LessIsTransitive(l.since, last.timestamp, m.timestamp);
    if m in l.admitted { LastIsNewest(l.rows, l.admitted, LIMIT, m); }
  }

  /** Whatever lies past the new cursor has been announced, so the group keeps a token for it. */
  lemma CommitLeavesAnnounced(a: App, h: nat)
    requires Inv(a.q) && !a.q.shuttingDown && IsMessageRun(a.q, h) && h in a.locals && Seen(a)
    requires LocalMatches(a.cursor, a.botName, a.q.background[h].jid, a.locals[h]) && a.locals[h].rows != []
    requires Past(a.table, a.locals[h].jid, NewCursor(a.locals[h]), a.botName) != {}
    ensures Tokens(FinishMessageRun(a.q, h, Succeeded), a.locals[h].jid) > 0
  {
    var m :| m in Past(a.table, a.locals[h].jid, NewCursor(a.locals[h]), a.botName);
    CommitPassesSeen(a, a.locals[h], m);
    FinishMessagesTokens(a.q, h, Succeeded, a.locals[h].jid);
  }

  /** The state after a commit, with pruning gone: every cursor belongs to a registered group. */
  function Committing(a: App, h: nat, q': Queue): App
    requires IsMessageRun(a.q, h) && h in a.locals && a.locals[h].rows != []
  {
    var l := a.locals[h];
    var cursor' := a.cursor[l.jid := NewCursor(l)];
    a.(q := q', cursor := cursor', saved := cursor', locals := a.locals - {h},
       lastRun := a.lastRun[l.jid := LastRun(Committed, HasRetriesLeft(a.q, h), l.admitted)],
       commits := a.commits + [CommitOf(l)])
  }

  lemma CloseCommitted(a: App, h: nat, q': Queue)
    requires CursorsSaved(a) && CanEndMessages(a, h, Committed) && a.locals[h].jid in a.registered
    ensures CloseRun(a, h, Committed).(q := q') == Committing(a, h, q')
  {
    CommitCursor(a, a.locals[h]);
  }

  lemma CommittingIsEnded(a: App, h: nat, q': Queue)
    requires LocalsMatch(a) && CanEndMessages(a, h, Committed) && QueueEnds(a.q, q', h)
    ensures Ended(a, Committing(a, h, q'), h, a.locals[h].jid)
  {
    LocalsMatchRuns(a);
    QueueEndsIsEnded(a, Committing(a, h, q'), h, a.locals[h].jid);
  }

  lemma CommittingExtends(a: App, h: nat, q': Queue)
    requires AppBooks(a) && CanEndMessages(a, h, Committed) && a.locals[h].jid in a.registered
    ensures var a' := Committing(a, h, q'); CursorsSaved(a') && CommitsInOrder(a'.cursor, a'.registered, a'.commits)
  {
    CommitExtends(a.cursor, a.registered, a.botName, a.commits, a.locals[h]);
  }

  lemma CommittingKeeps(a: App, h: nat, q': Queue)
    requires AppBooks(a) && CanEndMessages(a, h, Committed) && QueueEnds(a.q, q', h) && a.locals[h].jid in a.registered
    requires !a.q.shuttingDown && Past(a.table, a.locals[h].jid, NewCursor(a.locals[h]), a.botName) != {} ==>
      Tokens(q', a.locals[h].jid) > 0
    ensures AppBooks(Committing(a, h, q'))
  {
    CommittingExtends(a, h, q');
    CommittingIsEnded(a, h, q');
    EndedKeeps(a, Committing(a, h, q'), h, a.locals[h].jid);
  }

  lemma RunIsRegistered(a: App, h: nat)
    requires Runs(a.q) && Owned(a) && IsMessageRun(a.q, h)
    ensures a.q.background[h].jid in a.registered
  {
    assert LiveRun(a.q, h, a.q.background[h].jid);
  }

  lemma CommitKeepsBooks(a: App, h: nat)
    requires AppInv(a) && CanEndMessages(a, h, Committed) && a.locals[h].jid in a.registered
    requires QueueEnds(a.q, FinishMessageRun(a.q, h, Succeeded), h)
    ensures AppBooks(Committing(a, h, FinishMessageRun(a.q, h, Succeeded)))
  {
    if !a.q.shuttingDown && Past(a.table, a.locals[h].jid, NewCursor(a.locals[h]), a.botName) != {} {
      CommitLeavesAnnounced(a, h);
    }
    CommittingKeeps(a, h, FinishMessageRun(a.q, h, Succeeded));
  }

  lemma EndWithCommitKeeps(a: App, h: nat)
    requires AppInv(a) && CanEndMessages(a, h, Committed)
    ensures AppInv(FinishMessages(a, h, Committed))
  {
    RunIsRegistered(a, h);
    FinishMessagesKeeps(a.q, h, Succeeded);
    FinishQueueEnds(a.q, h, Succeeded);
    CommitKeepsBooks(a, h);
    CloseCommitted(a, h, FinishMessageRun(a.q, h, Succeeded));
  }

  lemma EndKeeps(a: App, h: nat, e: Ending)
    requires AppInv(a) && CanEndMessages(a, h, e)
    ensures AppInv(FinishMessages(a, h, e))
  {
    if e == Committed { EndWithCommitKeeps(a, h); } else { EndWithoutCommitKeeps(a, h, e); }
  }

  // ----- every step -----

  lemma RegisterKeepsCommits(a: App, j: Jid, g: Registered)
    requires CommitsInOrder(a.cursor, a.registered, a.commits)
    ensures CommitsInOrder(a.cursor, Register(a, j, g).registered, a.commits)
  {
    forall i | 0 <= i < |a.commits| ensures CommitMatches(a.cursor, Register(a, j, g).registered, a.commits[i]) {
      assert CommitMatches(a.cursor, a.registered, a.commits[i]);
    }
  }

  lemma RegisterKeeps(a: App, j: Jid, g: Registered)
    requires AppInv(a) && !a.recovered
    ensures AppInv(Register(a, j, g))
  {
    RegisterKeepsCommits(a, j, g);
    assert forall k :: PastOf(Register(a, j, g), k) == PastOf(a, k);
  }

  lemma NoTokensAtStart(maxConcurrent: int, maxRetries: int, j: Jid)
    ensures Tokens(Init(maxConcurrent, maxRetries), j) == 0
  {
    assert Timers(Init(maxConcurrent, maxRetries), j) == {};
  }

  lemma RestartKeeps(a: App, maxConcurrent: int, maxRetries: int)
    requires AppInv(a)
    ensures AppInv(Restart(a, maxConcurrent, maxRetries))
  {
    InitKeeps(maxConcurrent, maxRetries);
    forall j ensures Tokens(Init(maxConcurrent, maxRetries), j) == 0 { NoTokensAtStart(maxConcurrent, maxRetries, j); }
  }

  lemma BootKeeps(maxConcurrent: int, maxRetries: int, botName: string)
    ensures AppInv(Boot(maxConcurrent, maxRetries, botName))
  {
    InitKeeps(maxConcurrent, maxRetries);
    forall j ensures Tokens(Init(maxConcurrent, maxRetries), j) == 0 { NoTokensAtStart(maxConcurrent, maxRetries, j); }
  }

  lemma AppStepKeeps(a: App, s: AppStep)
    requires AppInv(a) && Possible(a, s)
    ensures AppInv(Take(a, s))
  {
    match s
    case DoRegister(j, g) => RegisterKeeps(a, j, g);
    case DoInbound(m) => InboundKeeps(a, m);
    case DoReply(m) => ReplyKeeps(a, m);
    case DoRecover(order) => RecoverKeeps(a, order);
    case DoBeginMessages(h, rows, ch, tr) => BeginKeeps(a, h, rows, ch, tr);
    case DoEndMessages(h, e) => EndKeeps(a, h, e);
    case DoQueue(step) =>
      QueueStepIsQuiet(a.q, step);
      StepKeeps(a.q, step);
      QuietKeeps(a, Apply(a.q, step));
    case DoRestart(c, m) => RestartKeeps(a, c, m);
  }

  lemma {:induction false} HistoryKeeps(a: App, steps: seq<AppStep>)
    requires AppInv(a) && IsHistory(a, steps)
    ensures AppInv(Later(a, steps))
    decreases |steps|
  {
    if steps == [] {
    } else {
      AppStepKeeps(a, steps[0]);
      HistoryKeeps(Take(a, steps[0]), steps[1..]);
    }
  }
}
