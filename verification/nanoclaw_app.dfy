/** The message consumer with its mutable fields (nanoclaw/app.py). Every method computes exactly the corresponding
    function of AppModel, on the values of the application, its queue and its database together, and keeps the invariant
    of AppInvariants whenever its arguments are what the program would pass: rows that the query can have answered, all
    registered groups, an ending that the run can have. */
module NanoClawApp {
  import opened Types
  import opened QueueModel
  import opened GroupQueueClass
  import opened MessageStore
  import opened Database
  import opened AppModel
  import opened AppInvariants

  /** What a process that wrote everything through leaves behind. */
  ghost predicate IsOnDisk(a: App, db: NanoClawDb, assistantName: string)
    reads db
  {
    && a.botName == assistantName && a.registered == db.registeredGroups && a.table == db.messages
    && a.saved == db.lastAgentTimestamp && a.commits == db.commits
  }

  class NanoClawApp {
    const queue: GroupQueue
    const db: NanoClawDb
    const assistantName: string
    var registeredGroups: map<Jid, Registered>
    var lastAgentTimestamp: map<Jid, string>
    var locals: map<nat, Local>
    ghost var recovered: bool
    ghost var lastRun: map<Jid, LastRun>

    ghost function Value(): App
      reads this, queue, db
    {
      App(queue.Value(), assistantName, registeredGroups, db.messages, lastAgentTimestamp, db.lastAgentTimestamp,
          locals, recovered, lastRun, db.commits)
    }

    /** What is registered here is registered in the database too. */
    ghost predicate Synced()
      reads this, db
    {
      registeredGroups == db.registeredGroups
    }

    /** A new process over the same database: `load_state` on fresh objects. */
    constructor (db: NanoClawDb, assistantName: string, maxConcurrent: int, maxRetries: int)
      ensures this.db == db && fresh(queue) && Synced() && unchanged(db)
      ensures forall a: App :: IsOnDisk(a, db, assistantName) ==> Value() == Restart(a, maxConcurrent, maxRetries)
    {
      this.db, this.assistantName := db, assistantName;
      queue := new GroupQueue(maxConcurrent, maxRetries);
      lastAgentTimestamp := db.lastAgentTimestamp;
      registeredGroups := db.registeredGroups;
      locals, recovered, lastRun := map[], false, map[];
    }

    method RegisterGroup(j: Jid, g: Registered)
      requires Synced()
      modifies this, db
      ensures Value() == Register(old(Value()), j, g) && Synced()
      ensures AppInv(old(Value())) && Possible(old(Value()), DoRegister(j, g)) ==> AppInv(Value())
    {
      if AppInv(Value()) && Possible(Value(), DoRegister(j, g)) { AppStepKeeps(Value(), DoRegister(j, g)); }
      registeredGroups := registeredGroups[j := g];
      db.SetRegisteredGroup(j, g);
    }

    /** `isAllowed` is what the sender allowlist answers. */
    method OnInboundMessage(message: NewMessage, isAllowed: bool)
      modifies queue, db
      ensures Value()
        == if isAllowed || message.isFromMe || message.isBotMessage then Inbound(old(Value()), message)
           else old(Value())
      ensures AppInv(old(Value())) && Possible(old(Value()), DoInbound(message)) ==> AppInv(Value())
    {
      if AppInv(Value()) && Possible(Value(), DoInbound(message)) { AppStepKeeps(Value(), DoInbound(message)); }
      if message.chatJid !in registeredGroups {
        return;
      }
      if !message.isFromMe && !message.isBotMessage {
        if !isAllowed {
          return;
        }
      }
      db.StoreMessage(message);
      queue.EnqueueMessageCheck(message.chatJid);
    }

    /** `send_message` once the channel has taken the text. */
    method SendMessage(message: NewMessage)
      modifies db
      ensures Value() == Reply(old(Value()), message)
      ensures AppInv(old(Value())) && Possible(old(Value()), DoReply(message)) ==> AppInv(Value())
    {
      if AppInv(Value()) && Possible(Value(), DoReply(message)) { AppStepKeeps(Value(), DoReply(message)); }
      db.StoreMessage(message);
    }

    /** `groups` is the order in which the loop meets the registered groups. */
    method RecoverPendingMessages(groups: seq<Jid>)
      modifies this, queue
      ensures Value() == Recover(old(Value()), groups)
      ensures AppInv(old(Value())) && Possible(old(Value()), DoRecover(groups)) ==> AppInv(Value())
    {
      if AppInv(Value()) && Possible(Value(), DoRecover(groups)) { AppStepKeeps(Value(), DoRecover(groups)); }
      for i := 0 to |groups|
        invariant RecoverGroups(Value(), groups[i..]) == RecoverGroups(old(Value()), groups)
      {
        var j := groups[i];
        assert groups[i..][0] == j && groups[i..][1..] == groups[i + 1..];
        var since := CursorOf(lastAgentTimestamp, j);
        if HasMessagesSince(db.messages, j, since, assistantName) {
          queue.EnqueueMessageCheck(j);
        }
      }
      recovered := true;
    }

    /** Where `process_group_messages` returns before it calls the agent. */
    method ReturnsEarly(j: Jid, messages: seq<NewMessage>, hasChannel: bool, hasTrigger: bool)
      returns (early: Option<Ending>)
      ensures early == Early(Value(), j, messages, hasChannel, hasTrigger)
    {
      if j !in registeredGroups {
        return Some(NotRegistered);
      }
      if !hasChannel {
        return Some(NoChannel);
      }
      if messages == [] {
        return Some(NothingNew);
      }
      if !registeredGroups[j].isMain && registeredGroups[j].requiresTrigger {
        if !hasTrigger {
          return Some(NoTrigger);
        }
      }
      return None;
    }

    /** `process_group_messages` up to the call of the agent; `messages` is what the query answers. */
    method BeginProcessing(h: nat, messages: seq<NewMessage>, hasChannel: bool, hasTrigger: bool)
      returns (early: Option<Ending>)
      requires h in queue.background && queue.background[h].RunForGroup?
      modifies this, queue
      ensures Value() == BeginMessages(old(Value()), h, messages, hasChannel, hasTrigger)
      ensures early == Early(old(Value()), old(queue.background[h].jid), messages, hasChannel, hasTrigger)
    {
      var j := queue.background[h].jid;
      early := ReturnsEarly(j, messages, hasChannel, hasTrigger);
      var since := CursorOf(lastAgentTimestamp, j);
      var admitted := Past(db.messages, j, since, assistantName);
      locals := locals[h := Local(j, since, admitted, messages, early)];
      queue.BeginRun(h);
    }

    /** The first step of a message run, on the rows that its query answers. */
    method Begin(h: nat, messages: seq<NewMessage>, hasChannel: bool, hasTrigger: bool) returns (early: Option<Ending>)
      requires Possible(Value(), DoBeginMessages(h, messages, hasChannel, hasTrigger))
      modifies this, queue
      ensures Value() == BeginMessages(old(Value()), h, messages, hasChannel, hasTrigger)
      ensures AppInv(old(Value())) ==> AppInv(Value())
    {
      if AppInv(Value()) { BeginKeeps(Value(), h, messages, hasChannel, hasTrigger); }
      early := BeginProcessing(h, messages, hasChannel, hasTrigger);
    }

    method SaveState()
      modifies this, db
      ensures Value() == AppModel.SaveState(old(Value())) && registeredGroups == old(registeredGroups)
      ensures locals == old(locals)
    {
      if registeredGroups != map[] {
        lastAgentTimestamp := map j | j in lastAgentTimestamp && j in registeredGroups :: lastAgentTimestamp[j];
      }
      db.SetLastAgentTimestamp(lastAgentTimestamp);
    }

    /** The rest of `process_group_messages`. */
    method EndProcessing(h: nat, e: Ending)
      requires h in queue.background && queue.background[h].RunForGroup? && h in locals
      requires e == Committed ==> locals[h].rows != []
      modifies this, db
      ensures Value() == CloseRun(old(Value()), h, e)
    {
      var l := locals[h];
      ghost var retriesLeft := HasRetriesLeft(queue.Value(), h);
      if e == Committed {
        var ts := l.rows[|l.rows| - 1].timestamp;
        db.commits := db.commits + [Commit(l.jid, l.since, l.admitted, l.rows, ts)];
        lastAgentTimestamp := lastAgentTimestamp[l.jid := ts];
        SaveState();
      }
      lastRun := lastRun[l.jid := LastRun(e, retriesLeft, l.admitted)];
      locals := locals - {h};
    }

    /** The rest of `process_group_messages`, then the rest of `_run_for_group`. */
    method FinishProcessing(h: nat, e: Ending)
      requires CanEndMessages(Value(), h, e)
      modifies this, queue, db
      ensures Value() == FinishMessages(old(Value()), h, e)
    {
      EndProcessing(h, e);
      queue.FinishMessageRun(h, OutcomeOf(e));
    }

    /** The end of a message run. */
    method End(h: nat, e: Ending)
      requires CanEndMessages(Value(), h, e)
      modifies this, queue, db
      ensures Value() == FinishMessages(old(Value()), h, e)
      ensures AppInv(old(Value())) ==> AppInv(Value())
    {
      if AppInv(Value()) { EndKeeps(Value(), h, e); }
      FinishProcessing(h, e);
    }
  }
}
