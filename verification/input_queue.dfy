/** The input directory between host and agent (nanoclaw/ipc_io.py, nanoclaw/agent_runner.py) as a state machine:
    any number of sends in flight, one drainer, and every interleaving of their file operations. */
module InputQueue {
  import opened Types
  import opened Ordering
  import opened IpcNames

  /** A finished send. `began` counts the sends that had finished when this one read the clock. */
  datatype Send = Send(text: string, ts: nat, number: nat, name: string, began: nat)

  /** A send under way: it has read the clock, may have its number, and may have written part of its temporary file. */
  datatype Pending = Pending(text: string, ts: nat, began: nat, number: Option<nat>, written: Option<nat>)

  /** `since` is what the clock read when the sending process started, and `counter` counts from there. `listing` is
      what is left of the drainer's sorted snapshot; `taken` and `messages` are what it has read so far. */
  datatype Inbox = Inbox(
    clock: nat, since: nat, counter: nat, files: map<string, string>, sending: map<nat, Pending>, nextSend: nat,
    sent: seq<Send>, listing: seq<string>, taken: seq<string>, messages: seq<string>)

  /** How a message becomes a document and back; None is a document that is no message. */
  datatype Codec = Codec(dumps: string -> string, loads: string -> Option<string>)

  ghost predicate RoundTrips(c: Codec) { forall t :: c.loads(c.dumps(t)) == Some(t) }

  const EMPTY_INBOX := Inbox(0, 0, 0, map[], map[], 0, [], [], [], [])

  /** `sorted(dir.glob("*.json"))`. */
  ghost predicate IsListing(files: map<string, string>, l: seq<string>) {
    && (forall i, j :: 0 <= i < j < |l| ==> Less(l[i], l[j]))
    && (forall n :: n in l <==> n in files && IsJson(n))
  }

  datatype Step =
    | Tick(clock: nat)
    | CountElsewhere                      // the same counter names a file of another directory
    | Call(text: string)                  // a send reads the clock
    | TakeNumber(id: nat)
    | Write(id: nat, upto: nat)           // the temporary file now holds this much of the document
    | Rename(id: nat)
    | List(listing: seq<string>)          // a drain starts
    | TakeOne                             // the drain reads and unlinks its next file
    | Restart(clock: nat)                 // the sending process dies and comes back, after the clock has moved on

  ghost predicate Enabled(b: Inbox, s: Step, c: Codec) {
    match s
    case Tick(clock) => b.clock <= clock
    case TakeNumber(id) => id in b.sending && b.sending[id].number.None?
    case Write(id, upto) =>
      && id in b.sending && b.sending[id].number.Some? && upto <= |c.dumps(b.sending[id].text)|
      && (b.sending[id].written.Some? ==> b.sending[id].written.value <= upto)
    case Rename(id) =>
      id in b.sending && b.sending[id].number.Some? && b.sending[id].written == Some(|c.dumps(b.sending[id].text)|)
    case List(l) => b.listing == [] && IsListing(b.files, l)
    case TakeOne => b.listing != []
    case Restart(clock) => b.clock < clock
    case _ => true
  }

  /** The file is read, unlinked, and its message kept if it is one. */
  function TakeHead(b: Inbox, c: Codec): Inbox
    requires b.listing != []
  {
    var name := b.listing[0];
    var text := if name in b.files then c.loads(b.files[name]) else None;
    b.(files := b.files - {name}, listing := b.listing[1..], taken := b.taken + [name],
       messages := b.messages + if text.Some? then [text.value] else [])
  }

  function PathOf(p: Pending): string
    requires p.number.Some?
  {
    FileName(p.ts, p.number.value)
  }

  /** `tmp.rename(path)`. */
  function Finish(b: Inbox, id: nat): Inbox
    requires id in b.sending && b.sending[id].number.Some?
  {
    var p := b.sending[id];
    var tmp := TmpName(PathOf(p));
    var doc := if tmp in b.files then b.files[tmp] else "";
    b.(files := (b.files - {tmp})[PathOf(p) := doc], sending := b.sending - {id},
       sent := b.sent + [Send(p.text, p.ts, p.number.value, PathOf(p), p.began)])
  }

  function Begin(b: Inbox, text: string): Inbox {
    b.(sending := b.sending[b.nextSend := Pending(text, b.clock, |b.sent|, None, None)], nextSend := b.nextSend + 1)
  }

  function Number(b: Inbox, id: nat): Inbox
    requires id in b.sending
  {
    b.(sending := b.sending[id := b.sending[id].(number := Some(b.counter))], counter := b.counter + 1)
  }

  function WriteTmp(b: Inbox, id: nat, upto: nat, c: Codec): Inbox
    requires id in b.sending && b.sending[id].number.Some? && upto <= |c.dumps(b.sending[id].text)|
  {
    var p := b.sending[id];
    b.(sending := b.sending[id := p.(written := Some(upto))],
       files := b.files[TmpName(PathOf(p)) := c.dumps(p.text)[..upto]])
  }

  /** The counter begins again, and the sends under way are gone; their temporary files stay. */
  function Reset(b: Inbox, clock: nat): Inbox { b.(clock := clock, since := clock, counter := 0, sending := map[]) }

  ghost function Apply(b: Inbox, s: Step, c: Codec): Inbox
    requires Enabled(b, s, c)
  {
    match s
    case Tick(clock) => b.(clock := clock)
    case CountElsewhere => b.(counter := b.counter + 1)
    case Call(text) => Begin(b, text)
    case TakeNumber(id) => Number(b, id)
    case Write(id, upto) => WriteTmp(b, id, upto, c)
    case Rename(id) => Finish(b, id)
    case List(l) => b.(listing := l)
    case TakeOne => TakeHead(b, c)
    case Restart(clock) => Reset(b, clock)
  }

  ghost predicate IsRun(b: Inbox, steps: seq<Step>, c: Codec)
    decreases |steps|
  {
    steps == [] || (Enabled(b, steps[0], c) && IsRun(Apply(b, steps[0], c), steps[1..], c))
  }

  ghost function RunFrom(b: Inbox, steps: seq<Step>, c: Codec): Inbox
    requires IsRun(b, steps, c)
    decreases |steps|
  {
    if steps == [] then b else RunFrom(Apply(b, steps[0], c), steps[1..], c)
  }
}
