/** A history in which a commit leaves an eligible row behind for good. */
module AppBacklog {
  import opened Types
  import opened Ordering
  import opened QueueModel
  import opened MessageStore
  import opened AppModel

  const DIGITS: nat := 3

  /** The k-th message of the backlog. */
  function Row(j: Jid, k: nat): NewMessage
    requires k < Pow10(DIGITS)
  {
    NewMessage(Fixed(k, DIGITS), j, "", "x", Fixed(k, DIGITS), false, false)
  }

  function Rows(j: Jid, n: nat): Table
    requires n <= Pow10(DIGITS)
  {
    if n == 0 then map[] else StoreMessage(Rows(j, n - 1), Row(j, n - 1))
  }

  function RowSet(j: Jid, n: nat): set<NewMessage>
    requires n <= Pow10(DIGITS)
  {
    if n == 0 then {} else RowSet(j, n - 1) + {Row(j, n - 1)}
  }

  lemma {:induction false} RowsAreNew(j: Jid, n: nat, k: nat)
    requires n <= k < Pow10(DIGITS)
    ensures Row(j, k) !in RowSet(j, n) && (Row(j, k).id, j) !in Rows(j, n)
  {
    if n == 0 {
    } else {
      RowsAreNew(j, n - 1, k);
      FixedOrder(n - 1, k, DIGITS);
    }
  }

  lemma {:induction false} RowSetCount(j: Jid, n: nat)
    requires n <= Pow10(DIGITS)
    ensures |RowSet(j, n)| == n
  {
    if n == 0 {
    } else {
      RowSetCount(j, n - 1);
      RowsAreNew(j, n - 1, n - 1);
    }
  }

  lemma NewRowIsPast(t: Table, m: NewMessage, j: Jid, since: string, bot: string)
    requires (m.id, m.chatJid) !in t && IsPast(m, j, since, bot)
    ensures Past(StoreMessage(t, m), j, since, bot) == Past(t, j, since, bot) + {m}
  {
    var t' := StoreMessage(t, m);
    assert t'[(m.id, m.chatJid)] == m;
    forall x | x in Past(t, j, since, bot) ensures x in Past(t', j, since, bot) {
      var k :| k in t && IsPast(t[k], j, since, bot) && t[k] == x;
      assert t'[k] == x;
    }
  }

  lemma RowIsEligible(j: Jid, k: nat, bot: string)
    requires k < Pow10(DIGITS)
    ensures IsPast(Row(j, k), j, "", bot)
  {}

  /** All of them are eligible for a group that has no cursor yet. */
  lemma {:induction false} AllArePast(j: Jid, n: nat, bot: string)
    requires n <= Pow10(DIGITS)
    ensures Past(Rows(j, n), j, "", bot) == RowSet(j, n)
  {
    if n == 0 {
    } else {
      AllArePast(j, n - 1, bot);
      RowsAreNew(j, n - 1, n - 1);
      RowIsEligible(j, n - 1, bot);
      NewRowIsPast(Rows(j, n - 1), Row(j, n - 1), j, "", bot);
    }
  }

  lemma {:induction false} AppendStep(a: App, steps: seq<AppStep>, s: AppStep)
    requires IsHistory(a, steps) && Possible(Later(a, steps), s)
    ensures IsHistory(a, steps + [s]) && Later(a, steps + [s]) == Take(Later(a, steps), s)
    decreases |steps|
  {
    if steps == [] {
      assert steps + [s] == [s] && [s][1..] == [];
    } else {
      assert (steps + [s])[1..] == steps[1..] + [s];
      AppendStep(Take(a, steps[0]), steps[1..], s);
    }
  }

  /** The group is registered, and `n` messages have come in for it while its first run has not begun yet. */
  ghost predicate Backlogged(a: App, bot: string, j: Jid, n: nat)
    requires n <= Pow10(DIGITS)
  {
    && a.botName == bot && a.registered == map[j := Registered(true, false)] && a.table == Rows(j, n)
    && a.cursor == map[] && a.commits == [] && !a.q.shuttingDown
    && (n == 0 ==> a.q.groups == map[] && a.q.activeCount == 0 < a.q.maxConcurrent)
    && (n == 0 ==> a.q.nextHandle == 0 && a.q.background == map[])
    && (n > 0 ==> GroupOf(a.q, j).active && a.q.background == map[0 := RunForGroup(j, false)])
  }

  lemma InboundBacklog(a: App, bot: string, j: Jid, n: nat)
    requires n < Pow10(DIGITS) && Backlogged(a, bot, j, n)
    ensures Backlogged(Inbound(a, Row(j, n)), bot, j, n + 1)
  {}

  lemma {:induction false} ReachBacklog(c: int, r: int, bot: string, j: Jid, n: nat) returns (steps: seq<AppStep>)
    requires n <= Pow10(DIGITS)
    ensures IsHistory(Boot(c, r, bot), steps) && Backlogged(Later(Boot(c, r, bot), steps), bot, j, n)
  {
    var boot := Boot(c, r, bot);
    if n == 0 {
      steps := [DoRegister(j, Registered(true, false))];
      AppendStep(boot, [], DoRegister(j, Registered(true, false)));
      assert [] + [DoRegister(j, Registered(true, false))] == steps;
    } else {
      var before := ReachBacklog(c, r, bot, j, n - 1);
      AppendStep(boot, before, DoInbound(Row(j, n - 1)));
      InboundBacklog(Later(boot, before), bot, j, n - 1);
      steps := before + [DoInbound(Row(j, n - 1))];
    }
  }

  lemma BeginBacklog(a: App, bot: string, j: Jid, n: nat, rows: seq<NewMessage>)
    requires 0 < n <= Pow10(DIGITS) && Backlogged(a, bot, j, n) && IsFetch(rows, RowSet(j, n), LIMIT)
    ensures Possible(a, DoBeginMessages(0, rows, true, true))
    ensures var begun := BeginMessages(a, 0, rows, true, true);
      && CanEndMessages(begun, 0, Committed) && begun.locals[0] == Local(j, "", RowSet(j, n), rows, None)
      && begun.commits == []
  {
    AllArePast(j, n, bot);
    RowSetCount(j, n);
    assert PastOf(a, j) == RowSet(j, n);
  }

  lemma EndBacklog(a: App, h: nat)
    requires CanEndMessages(a, h, Committed) && a.commits == []
    ensures var l := a.locals[h];
      FinishMessages(a, h, Committed).commits == [Commit(l.jid, l.since, l.admitted, l.rows, NewCursor(l))]
  {}

  /** From the start: 201 messages come in, one run fetches and commits, and one of them is in no prompt; by
      AppTheorems.PromptedNowOrNever it never will be. */
  lemma BacklogIsCut(c: int, r: int, bot: string, j: Jid) returns (steps: seq<AppStep>)
    ensures IsHistory(Boot(c, r, bot), steps)
    ensures var cs := Later(Boot(c, r, bot), steps).commits;
      |cs| == 1 && |cs[0].admitted| == 201 && exists m :: m in cs[0].admitted && m !in cs[0].rows
  {
    var boot, n := Boot(c, r, bot), LIMIT + 1;
    assert Pow10(DIGITS) == 1000;
    var before := ReachBacklog(c, r, bot, j, n);
    var a := Later(boot, before);
    RowSetCount(j, n);
    FetchExists(RowSet(j, n), LIMIT);
    var rows :| IsFetch(rows, RowSet(j, n), LIMIT);
    BeginBacklog(a, bot, j, n, rows);
    EndBacklog(BeginMessages(a, 0, rows, true, true), 0);
    AppendStep(boot, before, DoBeginMessages(0, rows, true, true));
    AppendStep(boot, before + [DoBeginMessages(0, rows, true, true)], DoEndMessages(0, Committed));
    steps := before + [DoBeginMessages(0, rows, true, true)] + [DoEndMessages(0, Committed)];
    NothingIsCutExactlyWhen(rows, RowSet(j, n), LIMIT);
  }
}
