/** What gets into the consumer and what gets through it: which messages are stored, announced and eligible, and when
    the agent is called. */
module AppGates {
  import opened Types
  import opened Ordering
  import opened QueueRetries
  import opened MessageStore
  import opened AppModel
  import opened AppInvariants

  // ----- when the agent is called -----

  /** How a run can end that has just begun. */
  lemma EndsOpenAfterBegin(a: App, h: nat, j: Jid, rows: seq<NewMessage>, hasChannel: bool, hasTrigger: bool)
    requires IsMessageRun(a.q, h) && j == a.q.background[h].jid && j in a.registered
    ensures var b, g := BeginMessages(a, h, rows, hasChannel, hasTrigger), a.registered[j];
      var called := hasChannel && rows != [] && (g.isMain || !g.requiresTrigger || hasTrigger);
      && (CanEndMessages(b, h, AgentError(true)) <==> called) && (CanEndMessages(b, h, AgentError(false)) <==> called)
      && (CanEndMessages(b, h, Committed) <==> called)
      && (CanEndMessages(b, h, NoChannel) <==> !hasChannel)
      && (CanEndMessages(b, h, NothingNew) <==> hasChannel && rows == [])
      && (CanEndMessages(b, h, NoTrigger) <==> hasChannel && rows != [] && !called)
  {}

  lemma FetchedNothing(rows: seq<NewMessage>, admitted: set<NewMessage>)
    requires IsFetch(rows, admitted, LIMIT)
    ensures rows == [] <==> admitted == {}
  {}

  /** The first step of a run decides how it can end. The agent is called, so that the run can commit or fail, exactly
      if the group is registered and has a channel, there are eligible messages, and the group is main, needs no
      trigger, or a trigger is among them. */
  lemma AgentCalledExactlyWhen(a: App, h: nat, rows: seq<NewMessage>, hasChannel: bool, hasTrigger: bool)
    requires AppInv(a) && Possible(a, DoBeginMessages(h, rows, hasChannel, hasTrigger))
    ensures var b, j := Take(a, DoBeginMessages(h, rows, hasChannel, hasTrigger)), a.q.background[h].jid;
      && j in a.registered && (rows == [] <==> PastOf(a, j) == {})
      && var called := hasChannel && rows != []
           && (a.registered[j].isMain || !a.registered[j].requiresTrigger || hasTrigger);
         && (CanEndMessages(b, h, AgentError(true)) <==> called)
         && (CanEndMessages(b, h, AgentError(false)) <==> called)
         && (CanEndMessages(b, h, Committed) <==> called)
         && (CanEndMessages(b, h, NoChannel) <==> !hasChannel)
         && (CanEndMessages(b, h, NothingNew) <==> hasChannel && rows == [])
         && (CanEndMessages(b, h, NoTrigger) <==> hasChannel && rows != [] && !called)
  {
    RunIsRegistered(a, h);
    EndsOpenAfterBegin(a, h, a.q.background[h].jid, rows, hasChannel, hasTrigger);
    FetchedNothing(rows, PastOf(a, a.q.background[h].jid));
  }

  lemma {:induction false} RecoverIsQueueOnly(a: App, order: seq<Jid>)
    ensures RecoverGroups(a, order) == a.(q := RecoverGroups(a, order).q)
    decreases |order|
  {
    if order == [] {
    } else {
      RecoverIsQueueOnly(RecoverGroup(a, order[0]), order[1..]);
    }
  }

  /** The local variables of a run are those that its first step has set. */
  lemma StepKeepsLocals(a: App, s: AppStep, h: nat)
    requires Possible(a, s) && h in Take(a, s).locals && !(s.DoBeginMessages? && s.h == h)
    ensures h in a.locals && Take(a, s).locals[h] == a.locals[h]
  {
    if s.DoRecover? { RecoverIsQueueOnly(a, s.order); }
  }

  lemma {:induction false} LastStep(a: App, steps: seq<AppStep>)
    requires steps != [] && IsHistory(a, steps)
    ensures var before, s := steps[..|steps| - 1], steps[|steps| - 1];
      IsHistory(a, before) && Possible(Later(a, before), s) && Later(a, steps) == Take(Later(a, before), s)
    decreases |steps|
  {
    if |steps| == 1 {
    } else {
      LastStep(Take(a, steps[0]), steps[1..]);
      assert steps[1..][..|steps| - 2] == steps[..|steps| - 1][1..];
    }
  }

  /** Step `i` of the history began the run `h`, and its local variables are `l` since then. */
  ghost predicate BeganAt(a: App, steps: seq<AppStep>, i: nat, h: nat, l: Local) {
    && i < |steps| && steps[i].DoBeginMessages? && steps[i].h == h && IsHistory(a, steps[..i])
    && var before := Later(a, steps[..i]);
       Possible(before, steps[i]) && h in Take(before, steps[i]).locals && Take(before, steps[i]).locals[h] == l
  }

  lemma {:induction false} RunBegan(a: App, steps: seq<AppStep>, h: nat) returns (i: nat)
    requires IsHistory(a, steps) && a.locals == map[] && h in Later(a, steps).locals
    ensures BeganAt(a, steps, i, h, Later(a, steps).locals[h])
    decreases |steps|
  {
    var n, front := |steps| - 1, steps[..|steps| - 1];
    LastStep(a, steps);
    if steps[n].DoBeginMessages? && steps[n].h == h {
      i := n;
    } else {
      StepKeepsLocals(Later(a, front), steps[n], h);
      i := RunBegan(a, front, h);
      assert front[..i] == steps[..i];
    }
  }

  /** In every history: a run that commits or fails in the agent fetched what it is about in an earlier step, when its
      group was registered and main, in no need of a trigger, or triggered by what was fetched. */
  lemma AgentRunsWereAllowed(c: int, r: int, bot: string, steps: seq<AppStep>, h: nat, e: Ending) returns (i: nat)
    requires IsHistory(Boot(c, r, bot), steps) && CanEndMessages(Later(Boot(c, r, bot), steps), h, e)
    requires e.AgentError? || e == Committed
    ensures var l := Later(Boot(c, r, bot), steps).locals[h];
      && i < |steps| && IsHistory(Boot(c, r, bot), steps[..i])
      && steps[i].DoBeginMessages? && steps[i].h == h && steps[i].hasChannel && steps[i].rows == l.rows != []
      && var a := Later(Boot(c, r, bot), steps[..i]);
         && l.since == CursorOf(a.cursor, l.jid) && l.admitted == PastOf(a, l.jid) && l.jid in a.registered
         && (a.registered[l.jid].isMain || !a.registered[l.jid].requiresTrigger || steps[i].hasTrigger)
  {
    i := RunBegan(Boot(c, r, bot), steps, h);
  }

  // ----- what is stored, announced and eligible -----

  /** A message for a registered group is stored, in place of one with the same id, and its group is announced; a
      message for any other chat leaves no trace. */
  lemma InboundIsStored(a: App, m: NewMessage)
    requires AppInv(a)
    ensures var b := Inbound(a, m);
      if m.chatJid in a.registered
      then
        && b == a.(table := b.table, q := b.q) && (!a.q.shuttingDown ==> Tokens(b.q, m.chatJid) > 0)
        && (forall k :: k in b.table <==> k in a.table || k == (m.id, m.chatJid))
        && (forall k :: k in b.table ==> b.table[k] == if k == (m.id, m.chatJid) then m else a.table[k])
      else b == a
  {
    EnqueueBudget(a.q, m.chatJid, m.chatJid);
  }

  /** What the assistant says is stored, is never eligible, and announces nobody. */
  lemma ReplyIsNoNews(a: App, m: NewMessage)
    requires AppInv(a) && m.isBotMessage
    ensures var b := Reply(a, m);
      && b == a.(table := b.table) && (m.id, m.chatJid) in b.table && b.table[(m.id, m.chatJid)] == m
      && forall j :: PastOf(b, j) <= PastOf(a, j) && m !in PastOf(b, j)
  {
    forall j ensures PastOf(Reply(a, m), j) <= PastOf(a, j) && m !in PastOf(Reply(a, m), j) {
      StorePast(a.table, m, j, CursorOf(a.cursor, j), a.botName);
    }
  }

  lemma {:induction false} RecoveryAnnouncesOnly(a: App, order: seq<Jid>, j: Jid)
    requires AppInv(a) && forall k :: k in order ==> k in a.registered
    ensures Tokens(RecoverGroups(a, order).q, j) > 0 ==> Tokens(a.q, j) > 0 || (j in order && PastOf(a, j) != {})
    decreases |order|
  {
    if order == [] {
    } else {
      var next := RecoverGroup(a, order[0]);
      assert order[0] in order;
      EnqueueKeepsTokens(a.q, order[0]);
      RecoverGroupAnnounces(a, order[0]);
      RecoveryAnnouncesOnly(next, order[1..], j);
      assert PastOf(next, j) == PastOf(a, j);
    }
  }

  /** After recovery a group has a run, a flag or a timer exactly if it had one before or has an eligible row past its
      cursor. */
  lemma RecoveryAnnouncesExactly(a: App, order: seq<Jid>, j: Jid)
    requires AppInv(a) && !a.q.shuttingDown && Possible(a, DoRecover(order)) && j in a.registered
    ensures Tokens(Recover(a, order).q, j) > 0 <==> Tokens(a.q, j) > 0 || PastOf(a, j) != {}
  {
    RecoverGroupsAnnounce(a, order);
    RecoveryAnnouncesOnly(a, order, j);
  }

  /** Saving keeps the cursors of all registered groups, drops the others once any group is registered, and writes down
      what is left. */
  lemma SavingPrunes(a: App)
    ensures var b := SaveState(a);
      && b == a.(cursor := b.cursor, saved := b.cursor)
      && (forall j :: j in b.cursor <==> j in a.cursor && (a.registered == map[] || j in a.registered))
      && (forall j :: j in b.cursor ==> b.cursor[j] == a.cursor[j])
  {}

  lemma OwnNameIsLike(content: string, name: string)
    requires name + ":" <= content
    ensures LikeBot(content, name)
  {
    assert (name + ":")[|name|] == ':' && forall i :: 0 <= i < |name| ==> (name + ":")[i] == name[i];
  }

  lemma PastHasNoPrefix(m: NewMessage, j: Jid, since: string, bot: string)
    requires IsPast(m, j, since, bot)
    ensures !(bot + ":" <= m.content)
  {
    if bot + ":" <= m.content { OwnNameIsLike(m.content, bot); }
  }

  lemma FetchedArePast(cursor: map<Jid, string>, bot: string, j: Jid, l: Local, m: NewMessage)
    requires LocalMatches(cursor, bot, j, l) && m in l.rows
    ensures IsPast(m, j, CursorOf(cursor, j), bot)
  {
    assert m in l.admitted;
  }

  /** In every history: whatever a run works on is of its own group, was there past the cursor, has text, and comes
      neither from the assistant nor under its name. */
  lemma PromptedAreEligible(c: int, r: int, bot: string, steps: seq<AppStep>, h: nat, m: NewMessage)
    requires IsHistory(Boot(c, r, bot), steps)
    requires var a := Later(Boot(c, r, bot), steps); h in a.locals && m in a.locals[h].rows
    ensures var a := Later(Boot(c, r, bot), steps);
      && h in a.q.background && m.chatJid == a.q.background[h].jid && Less(CursorOf(a.cursor, m.chatJid), m.timestamp)
      && m.content != "" && !m.isBotMessage && !(a.botName + ":" <= m.content)
  {
    BootKeeps(c, r, bot);
    HistoryKeeps(Boot(c, r, bot), steps);
    var a := Later(Boot(c, r, bot), steps);
    FetchedArePast(a.cursor, a.botName, a.q.background[h].jid, a.locals[h], m);
    PastHasNoPrefix(m, m.chatJid, CursorOf(a.cursor, m.chatJid), a.botName);
  }

  /** A stored message with text and without a colon, and not of the assistant, is eligible exactly if it is past its
      group's cursor. */
  lemma PlainIsEligible(a: App, m: NewMessage)
    requires (m.id, m.chatJid) in a.table && a.table[(m.id, m.chatJid)] == m
    requires m.content != "" && ':' !in m.content && !m.isBotMessage
    ensures m in PastOf(a, m.chatJid) <==> Less(CursorOf(a.cursor, m.chatJid), m.timestamp)
  {}
}
