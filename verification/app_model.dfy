/** The message consumer (nanoclaw/app.py): inbound messages, runs that fetch past a cursor and commit it, recovery,
    saving and restarting, on top of the group queue. */
module AppModel {
  import opened Types
  import opened QueueModel
  import opened MessageStore

  datatype Registered = Registered(isMain: bool, requiresTrigger: bool)

  /** How `process_group_messages` ends. */
  datatype Ending =
    | NotRegistered | NoChannel | NothingNew | NoTrigger   // before the agent is called
    | AgentError(outputSent: bool)
    | Committed
    | Broke                                                // an exception
    | Stopped                                              // cancelled

  /** The local variables of one `process_group_messages`, from its first step on. `admitted` are the rows that its
      query could have fetched; `early` is set where the function returns without calling the agent. */
  datatype Local = Local(
    jid: Jid, since: string, admitted: set<NewMessage>, rows: seq<NewMessage>, early: Option<Ending>)

  /** One commit: of the rows that were eligible when the run fetched, `rows` went into a prompt; the cursor moved. */
  datatype Commit = Commit(jid: Jid, since: string, admitted: set<NewMessage>, rows: seq<NewMessage>, cursor: string)

  /** How the last run of a group ended, whether it had retries left, and what it could have fetched. */
  datatype LastRun = LastRun(ending: Ending, retriesLeft: bool, admitted: set<NewMessage>)

  datatype App = App(
    q: Queue, botName: string, registered: map<Jid, Registered>, table: Table,
    cursor: map<Jid, string>,                // last_agent_timestamp
    saved: map<Jid, string>,                 // its copy in router_state
    locals: map<nat, Local>,                 // by coroutine
    recovered: bool,                         // recover_pending_messages has run
    lastRun: map<Jid, LastRun>,              // since the process started
    commits: seq<Commit>)

  function CursorOf(cursor: map<Jid, string>, j: Jid): string { if j in cursor then cursor[j] else "" }

  function PastOf(a: App, j: Jid): set<NewMessage> { Past(a.table, j, CursorOf(a.cursor, j), a.botName) }

  /** A run that ends like this leaves its rows behind: no commit, and no retry to come back for them. */
  predicate Parks(e: Ending, retriesLeft: bool) {
    match e
    case NoChannel | NoTrigger => true
    case AgentError(sent) => sent || !retriesLeft
    case Broke => !retriesLeft
    case _ => false
  }

  /** What the last run of the group left behind. */
  function ParkedOf(a: App, j: Jid): set<NewMessage> {
    if j in a.lastRun && Parks(a.lastRun[j].ending, a.lastRun[j].retriesLeft) then a.lastRun[j].admitted else {}
  }

  function Boot(maxConcurrent: int, maxRetries: int, botName: string): App {
    App(Init(maxConcurrent, maxRetries), botName, map[], map[], map[], map[], map[], false, map[], [])
  }

  // ----- segments -----

  function Register(a: App, j: Jid, g: Registered): App { a.(registered := a.registered[j := g]) }

  /** `_on_inbound_message` for a sender who is not dropped. */
  function Inbound(a: App, m: NewMessage): App {
    if m.chatJid !in a.registered then a
    else a.(table := StoreMessage(a.table, m), q := EnqueueMessageCheck(a.q, m.chatJid))
  }

  /** `send_message` stores what the assistant said. */
  function Reply(a: App, m: NewMessage): App { a.(table := StoreMessage(a.table, m)) }

  /** One turn of the loop in `recover_pending_messages`. */
  function RecoverGroup(a: App, j: Jid): App {
    if HasMessagesSince(a.table, j, CursorOf(a.cursor, j), a.botName) then a.(q := EnqueueMessageCheck(a.q, j)) else a
  }

  function RecoverGroups(a: App, order: seq<Jid>): App
    decreases |order|
  {
    if order == [] then a else RecoverGroups(RecoverGroup(a, order[0]), order[1..])
  }

  function Recover(a: App, order: seq<Jid>): App { RecoverGroups(a, order).(recovered := true) }

  /** Where `process_group_messages` returns before it calls the agent. */
  function Early(a: App, j: Jid, rows: seq<NewMessage>, hasChannel: bool, hasTrigger: bool): Option<Ending> {
    if j !in a.registered then Some(NotRegistered)
    else if !hasChannel then Some(NoChannel)
    else if rows == [] then Some(NothingNew)
    else if !a.registered[j].isMain && a.registered[j].requiresTrigger && !hasTrigger then Some(NoTrigger)
    else None
  }

  /** First step of a message run: the rows are fetched. `hasTrigger` is the outcome of the trigger test on them. */
  function BeginMessages(a: App, h: nat, rows: seq<NewMessage>, hasChannel: bool, hasTrigger: bool): App
    requires h in a.q.background && a.q.background[h].RunForGroup?
  {
    var j := a.q.background[h].jid;
    var local := Local(j, CursorOf(a.cursor, j), PastOf(a, j), rows, Early(a, j, rows, hasChannel, hasTrigger));
    a.(q := BeginRun(a.q, h), locals := a.locals[h := local])
  }

  /** `save_state`: entries of groups that are not registered are pruned first, once any group is registered. */
  function SaveState(a: App): App {
    var kept := if a.registered == map[] then a.cursor else map j | j in a.cursor && j in a.registered :: a.cursor[j];
    a.(cursor := kept, saved := kept)
  }

  /** `messages[-1].timestamp`. */
  function NewCursor(l: Local): string
    requires l.rows != []
  {
    l.rows[|l.rows| - 1].timestamp
  }

  function CommitOf(l: Local): Commit
    requires l.rows != []
  {
    Commit(l.jid, l.since, l.admitted, l.rows, NewCursor(l))
  }

  function CommitRun(a: App, l: Local): App
    requires l.rows != []
  {
    SaveState(a.(cursor := a.cursor[l.jid := NewCursor(l)], commits := a.commits + [CommitOf(l)]))
  }

  function OutcomeOf(e: Ending): Outcome {
    match e
    case AgentError(sent) => if sent then Succeeded else Failed
    case Broke => Raised
    case Stopped => Cancelled
    case _ => Succeeded
  }

  predicate IsMessageRun(q: Queue, h: nat) { h in q.background && q.background[h].RunForGroup? }

  /** The group of the run may still be retried. */
  predicate HasRetriesLeft(q: Queue, h: nat)
    requires IsMessageRun(q, h)
  {
    GroupOf(q, q.background[h].jid).retryCount + 1 <= q.maxRetries
  }

  /** The consumer's side of an ending. */
  function CloseRun(a: App, h: nat, e: Ending): App
    requires IsMessageRun(a.q, h) && h in a.locals && (e == Committed ==> a.locals[h].rows != [])
  {
    var l := a.locals[h];
    var a' := if e == Committed then CommitRun(a, l) else a;
    a'.(locals := a.locals - {h}, lastRun := a.lastRun[l.jid := LastRun(e, HasRetriesLeft(a.q, h), l.admitted)])
  }

  function FinishMessages(a: App, h: nat, e: Ending): App
    requires IsMessageRun(a.q, h) && h in a.locals && (e == Committed ==> a.locals[h].rows != [])
  {
    CloseRun(a, h, e).(q := FinishMessageRun(a.q, h, OutcomeOf(e)))
  }

  /** The process dies and comes back: `load_state` on a fresh object over the same database. */
  function Restart(a: App, maxConcurrent: int, maxRetries: int): App {
    a.(q := Init(maxConcurrent, maxRetries), cursor := a.saved, locals := map[], recovered := false, lastRun := map[])
  }

  // ----- steps -----

  datatype AppStep =
    | DoRegister(jid: Jid, group: Registered)
    | DoInbound(m: NewMessage)
    | DoReply(m: NewMessage)
    | DoRecover(order: seq<Jid>)
    | DoBeginMessages(h: nat, rows: seq<NewMessage>, hasChannel: bool, hasTrigger: bool)
    | DoEndMessages(h: nat, ending: Ending)
    | DoQueue(s: Step)
    | DoRestart(maxConcurrent: int, maxRetries: int)

  /** The endings that a run can have. Only a shutdown cancels; everything else may raise. */
  predicate CanEnd(a: App, l: Local, e: Ending) {
    match e
    case Broke => true
    case Stopped => a.q.shuttingDown
    case AgentError(_) => l.early.None?
    case Committed => l.early.None? && l.rows != []
    case _ => l.early == Some(e)
  }

  predicate CanEndMessages(a: App, h: nat, e: Ending) {
    IsMessageRun(a.q, h) && a.q.background[h].started && h in a.locals && CanEnd(a, a.locals[h], e)
  }

  ghost predicate Possible(a: App, s: AppStep) {
    match s
    case DoRegister(_, _) => !a.recovered
    case DoInbound(_) => true
    case DoReply(m) => m.isBotMessage
    case DoRecover(order) => forall j :: j in a.registered <==> j in order
    case DoBeginMessages(h, rows, _, _) =>
      && IsMessageRun(a.q, h) && !a.q.background[h].started
      && IsFetch(rows, PastOf(a, a.q.background[h].jid), LIMIT)
    case DoEndMessages(h, e) => CanEndMessages(a, h, e)
    case DoQueue(step) =>
      && Enabled(a.q, step) && !step.DoEnqueueMessage? && !step.DoFinishMessages?
      && (step.DoBegin? ==> !IsMessageRun(a.q, step.h))
    case DoRestart(_, _) => true
  }

  ghost function Take(a: App, s: AppStep): App
    requires Possible(a, s)
  {
    match s
    case DoRegister(j, g) => Register(a, j, g)
    case DoInbound(m) => Inbound(a, m)
    case DoReply(m) => Reply(a, m)
    case DoRecover(order) => Recover(a, order)
    case DoBeginMessages(h, rows, ch, tr) => BeginMessages(a, h, rows, ch, tr)
    case DoEndMessages(h, e) => FinishMessages(a, h, e)
    case DoQueue(step) => a.(q := Apply(a.q, step))
    case DoRestart(c, m) => Restart(a, c, m)
  }

  ghost predicate IsHistory(a: App, steps: seq<AppStep>)
    decreases |steps|
  {
    steps == [] || (Possible(a, steps[0]) && IsHistory(Take(a, steps[0]), steps[1..]))
  }

  ghost function Later(a: App, steps: seq<AppStep>): App
    requires IsHistory(a, steps)
    decreases |steps|
  {
    if steps == [] then a else Later(Take(a, steps[0]), steps[1..])
  }
}
