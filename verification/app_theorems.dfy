/** What becomes of a message, over every history of the consumer, restarts included: none past its cursor is forgotten,
    none is in two committed prompts, and which ones a commit leaves behind for good. */
module AppTheorems {
  import opened Types
  import opened Ordering
  import opened QueueModel
  import opened QueueInvariants
  import opened QueueRetries
  import opened MessageStore
  import opened AppModel
  import opened AppInvariants

  // ----- no lost message -----

  /** A message run of the group is in progress. */
  ghost predicate HasMessageRun(q: Queue, j: Jid) { exists h :: IsMessageRun(q, h) && q.background[h].jid == j }

  ghost predicate HasTimer(q: Queue, j: Jid) { exists h :: h in q.background && q.background[h] == Retry(j) }

  /** The message flag is set, and the group is running something or has its place in the waiting line. */
  ghost predicate IsFlagged(q: Queue, j: Jid) {
    GroupOf(q, j).pendingMessages && (HasRun(q, j) || j in q.waiting)
  }

  lemma TokenIsSomething(q: Queue, j: Jid)
    requires Inv(q) && !q.shuttingDown && Tokens(q, j) > 0
    ensures HasMessageRun(q, j) || IsFlagged(q, j) || HasTimer(q, j)
  {
    var g := GroupOf(q, j);
    if Timers(q, j) != {} {
      var h :| h in Timers(q, j);
    } else if g.active {
      assert HasRun(q, j);
      var h :| LiveRun(q, h, j);
      if !g.isTaskContainer { assert IsMessageRun(q, h); }
    } else {
      assert IsIdleWithWork(q, j);
    }
  }

  lemma {:induction false} RecoverKeepsRecords(a: App, order: seq<Jid>)
    ensures RecoverGroups(a, order).lastRun == a.lastRun
    decreases |order|
  {
    if order == [] {
    } else {
      RecoverKeepsRecords(RecoverGroup(a, order[0]), order[1..]);
    }
  }

  lemma EndRecords(a: App, h: nat, e: Ending)
    requires LocalsRun(a) && CanEndMessages(a, h, e)
    ensures FinishMessages(a, h, e).lastRun
      == a.lastRun[a.q.background[h].jid := LastRun(e, HasRetriesLeft(a.q, h), a.locals[h].admitted)]
  {}

  /** Which run of a group was its last one: every ending is recorded for its group, and nothing else changes the
      records until the process dies. */
  lemma LastRunIsLast(a: App, s: AppStep)
    requires LocalsRun(a) && Possible(a, s)
    ensures Take(a, s).lastRun
      == match s
         case DoEndMessages(h, e) =>
           var j := a.q.background[h].jid;
           a.lastRun[j := LastRun(e, GroupOf(a.q, j).retryCount < a.q.maxRetries, a.locals[h].admitted)]
         case DoRestart(_, _) => map[]
         case _ => a.lastRun
  {
    match s
    case DoEndMessages(h, e) => EndRecords(a, h, e);
    case DoRecover(order) => RecoverKeepsRecords(a, order);
    case _ =>
  }

  /** Once recovery has run and until shutdown: an eligible row past the cursor of a registered group is in the hands of
      a run, announced, or waiting for a retry; or the group's last run saw it, and it had no channel, found no trigger,
      failed after output had been sent, or failed with its retries used up. */
  lemma NoMessageLost(c: int, r: int, bot: string, steps: seq<AppStep>, j: Jid, m: NewMessage)
    requires IsHistory(Boot(c, r, bot), steps)
    requires var a := Later(Boot(c, r, bot), steps);
      a.recovered && !a.q.shuttingDown && j in a.registered && m in PastOf(a, j)
    ensures var a := Later(Boot(c, r, bot), steps);
      || HasMessageRun(a.q, j) || IsFlagged(a.q, j) || HasTimer(a.q, j)
      || (j in a.lastRun && m in a.lastRun[j].admitted
          && var e := a.lastRun[j].ending;
             || e == NoChannel || e == NoTrigger || e == AgentError(true)
             || ((e == AgentError(false) || e == Broke) && !a.lastRun[j].retriesLeft))
  {
    BootKeeps(c, r, bot);
    HistoryKeeps(Boot(c, r, bot), steps);
    var a := Later(Boot(c, r, bot), steps);
    if m !in ParkedOf(a, j) { TokenIsSomething(a.q, j); }
  }

  /** The step announces group `j`: an inbound message, a recovery or a new process. */
  predicate Announces(s: AppStep, j: Jid) {
    (s.DoInbound? && s.m.chatJid == j) || s.DoRecover? || s.DoRestart?
  }

  lemma StepParks(a: App, s: AppStep, j: Jid)
    requires AppInv(a) && Possible(a, s) && !Announces(s, j) && Tokens(a.q, j) == 0
    ensures Tokens(Take(a, s).q, j) == 0
  {
    match s
    case DoInbound(m) => EnqueueBudget(a.q, m.chatJid, j);
    case DoBeginMessages(h, rows, ch, tr) => BeginSameBudget(a.q, h, j);
    case DoEndMessages(h, e) => FinishTokens(a.q, h, OutcomeOf(e));
    case DoQueue(step) => QueueStepIsQuiet(a.q, step);
    case _ =>
  }

  /** In every history: a group without run, flag and timer stays so until it is announced again. */
  lemma ParkedWaits(c: int, r: int, bot: string, steps: seq<AppStep>, s: AppStep, j: Jid)
    requires IsHistory(Boot(c, r, bot), steps) && !Announces(s, j)
    requires var a := Later(Boot(c, r, bot), steps); Possible(a, s) && Tokens(a.q, j) == 0
    ensures Tokens(Take(Later(Boot(c, r, bot), steps), s).q, j) == 0
  {
    BootKeeps(c, r, bot);
    HistoryKeeps(Boot(c, r, bot), steps);
    StepParks(Later(Boot(c, r, bot), steps), s, j);
  }

  /** A run is retried exactly if it raised, or failed before any output was sent, and retries are left. */
  lemma EndingSetsTimer(a: App, h: nat, e: Ending, j: Jid)
    requires Inv(a.q) && CanEndMessages(a, h, e)
    ensures var k := a.q.background[h].jid;
      var retried := (e == Broke || e == AgentError(false)) && GroupOf(a.q, k).retryCount < a.q.maxRetries;
      |Timers(FinishMessages(a, h, e).q, j)| == |Timers(a.q, j)| + Bit(retried && k == j)
  {
    RetriedExactlyWhen(a.q, h, OutcomeOf(e), j);
  }

  // ----- exactly once -----

  lemma CommitIsLater(cursor: map<Jid, string>, bot: string, l: Local)
    requires LocalMatches(cursor, bot, l.jid, l) && l.rows != []
    ensures Less(CursorOf(cursor, l.jid), NewCursor(l))
  {
    assert l.rows[|l.rows| - 1] in l.admitted;
  }

  /** From `a` to `a'` the cursor of `j` rises, and no other moves. */
  ghost predicate RaisesCursor(a: App, a': App, j: Jid) {
    && Less(CursorOf(a.cursor, j), CursorOf(a'.cursor, j))
    && forall k :: k != j ==> CursorOf(a'.cursor, k) == CursorOf(a.cursor, k)
  }

  lemma CommittingRaises(a: App, h: nat, q': Queue)
    requires LocalsMatch(a) && CanEndMessages(a, h, Committed)
    ensures RaisesCursor(a, Committing(a, h, q'), a.q.background[h].jid)
  {
    assert LocalMatches(a.cursor, a.botName, a.q.background[h].jid, a.locals[h]);
    CommitIsLater(a.cursor, a.botName, a.locals[h]);
  }

  lemma CommitMovesCursor(a: App, h: nat, q': Queue)
    requires AppBooks(a) && Runs(a.q) && CanEndMessages(a, h, Committed)
    ensures RaisesCursor(a, CloseRun(a, h, Committed).(q := q'), a.q.background[h].jid)
  {
    RunIsRegistered(a, h);
    LocalsMatchRuns(a);
    CloseCommitted(a, h, q');
    CommittingRaises(a, h, q');
  }

  /** In every history: a committed run strictly raises its group's cursor; every other ending leaves all cursors, the
      saved state and the commits as they are. */
  lemma EndingMovesCursor(c: int, r: int, bot: string, steps: seq<AppStep>, h: nat, e: Ending)
    requires IsHistory(Boot(c, r, bot), steps) && CanEndMessages(Later(Boot(c, r, bot), steps), h, e)
    ensures var a := Later(Boot(c, r, bot), steps); var a' := FinishMessages(a, h, e);
      if e == Committed then RaisesCursor(a, a', a.q.background[h].jid)
      else a'.cursor == a.cursor && a'.saved == a.saved && a'.commits == a.commits
  {
    BootKeeps(c, r, bot);
    HistoryKeeps(Boot(c, r, bot), steps);
    var a := Later(Boot(c, r, bot), steps);
    if e == Committed { CommitMovesCursor(a, h, FinishMessageRun(a.q, h, OutcomeOf(e))); }
  }

  /** In every history: a restart loses nothing but the queue and the runs in progress. It comes back with the cursors
      that were in force. */
  lemma RestartKeepsCursors(c: int, r: int, bot: string, steps: seq<AppStep>)
    requires IsHistory(Boot(c, r, bot), steps)
    ensures var a := Later(Boot(c, r, bot), steps);
      Restart(a, c, r) == a.(q := Init(c, r), locals := map[], recovered := false, lastRun := map[])
  {
    BootKeeps(c, r, bot);
    HistoryKeeps(Boot(c, r, bot), steps);
  }

  /** If one message id is in two committed prompts of a group, the row was replaced by one with a later timestamp. */
  lemma CommittedAgainIsLater(a: App, i: nat, k: nat, x: nat, y: nat)
    requires AppInv(a) && i < k < |a.commits| && a.commits[i].jid == a.commits[k].jid
    requires x < |a.commits[i].rows| && y < |a.commits[k].rows|
    ensures Less(a.commits[i].rows[x].timestamp, a.commits[k].rows[y].timestamp)
  {
    var first, second := a.commits[i], a.commits[k];
    assert CommitMatches(a.cursor, a.registered, first) && CommitMatches(a.cursor, a.registered, second);
    var s, t := first.rows[x].timestamp, second.rows[y].timestamp;
    assert first.rows[x] in first.admitted && second.rows[y] in second.admitted;
    NotLessIsTransitive(s, first.cursor, second.since);
    LessIsTotal(s, second.since);
    if s != second.since { LessIsTransitive(s, second.since, t); }
  }

  /** Over every history, restarts included: a row of the table is in at most one committed prompt, at one place. */
  lemma CommittedAtMostOnce(c: int, r: int, bot: string, steps: seq<AppStep>, i: nat, k: nat, x: nat, y: nat)
    requires IsHistory(Boot(c, r, bot), steps)
    requires var cs := Later(Boot(c, r, bot), steps).commits;
      i < |cs| && k < |cs| && x < |cs[i].rows| && y < |cs[k].rows| && cs[i].rows[x] == cs[k].rows[y]
    ensures i == k && x == y
  {
    BootKeeps(c, r, bot);
    HistoryKeeps(Boot(c, r, bot), steps);
    var a := Later(Boot(c, r, bot), steps);
    var m := a.commits[i].rows[x];
    assert CommitMatches(a.cursor, a.registered, a.commits[i]) && CommitMatches(a.cursor, a.registered, a.commits[k]);
    assert m in a.commits[i].admitted && m in a.commits[k].admitted;
    LessIsIrreflexive(m.timestamp);
    if i < k { CommittedAgainIsLater(a, i, k, x, y); }
    if k < i { CommittedAgainIsLater(a, k, i, y, x); }
  }

  // ----- what a commit leaves behind -----

  /** The rows of the commit lie past the cursor of `a`. */
  ghost predicate FetchedAfter(a: App, c: Commit) {
    forall m :: m in c.rows ==> Less(CursorOf(a.cursor, c.jid), m.timestamp)
  }

  /** No cursor falls, and a new commit of a group starts at its cursor. */
  ghost predicate Advances(a: App, a': App) {
    && (forall j :: !Less(CursorOf(a'.cursor, j), CursorOf(a.cursor, j)))
    && a.commits <= a'.commits
    && forall i :: |a.commits| <= i < |a'.commits| ==> FetchedAfter(a, a'.commits[i])
  }

  lemma SameCursor(a: App, a': App)
    requires a'.cursor == a.cursor && a'.commits == a.commits
    ensures Advances(a, a')
  {
    forall j ensures !Less(CursorOf(a'.cursor, j), CursorOf(a.cursor, j)) { LessIsIrreflexive(CursorOf(a.cursor, j)); }
  }

  lemma RaisedNeverFalls(a: App, a': App, j: Jid, k: Jid)
    requires RaisesCursor(a, a', j)
    ensures !Less(CursorOf(a'.cursor, k), CursorOf(a.cursor, k))
  {
    if k == j {
      LessIsAsymmetric(CursorOf(a.cursor, j), CursorOf(a'.cursor, j));
    } else {
      LessIsIrreflexive(CursorOf(a.cursor, k));
    }
  }

  lemma RowsLieAhead(cursor: map<Jid, string>, bot: string, l: Local)
    requires LocalMatches(cursor, bot, l.jid, l)
    ensures forall m :: m in l.rows ==> Less(CursorOf(cursor, l.jid), m.timestamp)
  {
    forall m | m in l.rows ensures m in l.admitted {}
  }

  lemma OneCommitAdvances(a: App, a': App, l: Local, c: Commit)
    requires RaisesCursor(a, a', l.jid) && LocalMatches(a.cursor, a.botName, l.jid, l)
    requires a'.commits == a.commits + [c] && c.jid == l.jid && c.rows == l.rows
    ensures Advances(a, a')
  {
    forall k ensures !Less(CursorOf(a'.cursor, k), CursorOf(a.cursor, k)) { RaisedNeverFalls(a, a', l.jid, k); }
    RowsLieAhead(a.cursor, a.botName, l);
  }

  lemma CommitAdvances(a: App, h: nat, q': Queue)
    requires AppBooks(a) && Runs(a.q) && CanEndMessages(a, h, Committed)
    ensures Advances(a, CloseRun(a, h, Committed).(q := q'))
  {
    var l := a.locals[h];
    CommitMovesCursor(a, h, q');
    OneCommitAdvances(a, CloseRun(a, h, Committed).(q := q'), l, CommitOf(l));
  }

  lemma StepAdvances(a: App, s: AppStep)
    requires AppInv(a) && Possible(a, s)
    ensures Advances(a, Take(a, s))
  {
    match s
    case DoEndMessages(h, e) =>
      if e == Committed {
        CommitAdvances(a, h, FinishMessageRun(a.q, h, Succeeded));
      } else {
        SameCursor(a, FinishMessages(a, h, e));
      }
    case DoRecover(order) =>
      RecoverGroupsAnnounce(a, order);
      SameCursor(a, Recover(a, order));
    case _ => SameCursor(a, Take(a, s));
  }

  /** `m` is not past the cursor of its group, and no commit from the `n`-th on has it in its prompt. */
  ghost predicate IsPassed(a: App, m: NewMessage, n: nat) {
    && !Less(CursorOf(a.cursor, m.chatJid), m.timestamp)
    && forall i :: n <= i < |a.commits| && a.commits[i].jid == m.chatJid ==> m !in a.commits[i].rows
  }

  lemma AdvanceKeepsPassed(a: App, a': App, m: NewMessage, n: nat)
    requires Advances(a, a') && IsPassed(a, m, n)
    ensures IsPassed(a', m, n)
  {
    NotLessIsTransitive(m.timestamp, CursorOf(a.cursor, m.chatJid), CursorOf(a'.cursor, m.chatJid));
    forall i | n <= i < |a'.commits| && a'.commits[i].jid == m.chatJid ensures m !in a'.commits[i].rows {
      assert if i < |a.commits| then a'.commits[i] == a.commits[i] else FetchedAfter(a, a'.commits[i]);
    }
  }

  lemma {:induction false} PassedKeeps(a: App, steps: seq<AppStep>, m: NewMessage, n: nat)
    requires AppInv(a) && IsHistory(a, steps) && IsPassed(a, m, n)
    ensures IsPassed(Later(a, steps), m, n)
    decreases |steps|
  {
    if steps == [] {
    } else {
      StepAdvances(a, steps[0]);
      AdvanceKeepsPassed(a, Take(a, steps[0]), m, n);
      AppStepKeeps(a, steps[0]);
      PassedKeeps(Take(a, steps[0]), steps[1..], m, n);
    }
  }

  /** A row that is not past its group's cursor, however it got into the table, is never fetched again: not by any query
      and not into any prompt, restarts included. */
  lemma PassedForever(a: App, steps: seq<AppStep>, m: NewMessage)
    requires AppInv(a) && IsHistory(a, steps) && !Less(CursorOf(a.cursor, m.chatJid), m.timestamp)
    ensures var b := Later(a, steps);
      && m !in PastOf(b, m.chatJid)
      && forall i :: |a.commits| <= i < |b.commits| && b.commits[i].jid == m.chatJid ==> m !in b.commits[i].rows
  {
    PassedKeeps(a, steps, m, |a.commits|);
  }

  lemma NotInAnother(a: App, i: nat, k: nat, m: NewMessage)
    requires CommitsInOrder(a.cursor, a.registered, a.commits) && i < |a.commits| && k < |a.commits|
    requires m in a.commits[i].admitted && m in a.commits[k].rows
    ensures i == k
  {
    assert CommitMatches(a.cursor, a.registered, a.commits[i]) && CommitMatches(a.cursor, a.registered, a.commits[k]);
    assert m in a.commits[k].admitted;
    if i < k { NotLessIsTransitive(m.timestamp, a.commits[i].cursor, a.commits[k].since); }
    if k < i { NotLessIsTransitive(m.timestamp, a.commits[k].cursor, a.commits[i].since); }
  }

  /** A row that was eligible when a committed run fetched is in that run's prompt, or in no prompt ever; and all of
      them are in it exactly when there were at most 200. */
  lemma PromptedNowOrNever(c: int, r: int, bot: string, steps: seq<AppStep>, i: nat)
    requires IsHistory(Boot(c, r, bot), steps) && i < |Later(Boot(c, r, bot), steps).commits|
    ensures var cs := Later(Boot(c, r, bot), steps).commits;
      && (forall m, k :: m in cs[i].admitted && m !in cs[i].rows && 0 <= k < |cs| ==> m !in cs[k].rows)
      && ((forall m :: m in cs[i].admitted ==> m in cs[i].rows) <==> |cs[i].admitted| <= 200)
  {
    BootKeeps(c, r, bot);
    HistoryKeeps(Boot(c, r, bot), steps);
    var a := Later(Boot(c, r, bot), steps);
    assert CommitMatches(a.cursor, a.registered, a.commits[i]);
    NothingIsCutExactlyWhen(a.commits[i].rows, a.commits[i].admitted, LIMIT);
    forall m, k | m in a.commits[i].admitted && m !in a.commits[i].rows && 0 <= k < |a.commits|
      ensures m !in a.commits[k].rows
    {
      if m in a.commits[k].rows { NotInAnother(a, i, k, m); }
    }
  }
}
