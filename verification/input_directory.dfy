/** Sending and draining as the program writes them, one call at a time, and how they refine the state machine. */
module InputDirectory {
  import opened Types
  import opened Ordering
  import opened IpcNames
  import opened InputQueue

  function AfterSend(files: map<string, string>, path: string, doc: string): map<string, string> {
    (files - {TmpName(path)})[path := doc]
  }

  /** The messages in the listed files, in order. */
  function MessagesIn(files: map<string, string>, l: seq<string>, loads: string -> Option<string>): seq<string> {
    if l == [] then []
    else
      var last := l[|l| - 1];
      MessagesIn(files, l[..|l| - 1], loads)
      + if last in files && loads(files[last]).Some? then [loads(files[last]).value] else []
  }

  /** `files` without the listed ones. */
  function Without(files: map<string, string>, l: seq<string>): map<string, string> {
    if l == [] then files else Without(files, l[..|l| - 1]) - {l[|l| - 1]}
  }

  lemma {:induction false} WithoutIs(files: map<string, string>, l: seq<string>)
    ensures forall n :: n in Without(files, l) <==> n in files && n !in l
    ensures forall n :: n in Without(files, l) ==> Without(files, l)[n] == files[n]
  {
    if l == [] {
    } else {
      WithoutIs(files, l[..|l| - 1]);
      assert l == l[..|l| - 1] + [l[|l| - 1]];
    }
  }

  lemma OneMore(l: seq<string>, k: nat)
    requires k < |l|
    ensures l[..k + 1][|l[..k + 1]| - 1] == l[k] && l[..k + 1][..k] == l[..k]
  {}

  lemma NotYetUnlinked(files: map<string, string>, l: seq<string>, k: nat)
    requires IsListing(files, l) && k < |l|
    ensures l[k] in files && l[k] in Without(files, l[..k]) && Without(files, l[..k])[l[k]] == files[l[k]]
  {
    LessIsIrreflexive(l[k]);
    WithoutIs(files, l[..k]);
    assert l[k] in l;
  }

  class IpcDirectory {
    var sequence: nat
    var files: map<string, string>

    method OrderedFilename(now: nat) returns (name: string)
      modifies this`sequence
      ensures name == FileName(now, old(sequence)) && sequence == old(sequence) + 1
    {
      var n := sequence;
      sequence := sequence + 1;
      return FileName(now, n);
    }

    method WriteIpcJson(now: nat, document: string) returns (path: string)
      modifies this
      ensures path == FileName(now, old(sequence)) && sequence == old(sequence) + 1
      ensures files == AfterSend(old(files), path, document)
    {
      path := OrderedFilename(now);
      var tmp := TmpName(path);
      files := files[tmp := document];
      files := (files - {tmp})[path := files[tmp]];
    }

    /** `listing` is what the sorted glob answers. */
    method Drain(listing: seq<string>, loads: string -> Option<string>) returns (messages: seq<string>)
      requires IsListing(files, listing)
      modifies this`files
      ensures messages == MessagesIn(old(files), listing, loads)
      ensures files == Without(old(files), listing)
      ensures forall n :: n in files ==> !IsJson(n)
    {
      messages := [];
      for k := 0 to |listing|
        invariant files == Without(old(files), listing[..k])
        invariant messages == MessagesIn(old(files), listing[..k], loads)
      {
        NotYetUnlinked(old(files), listing, k);
        var name := listing[k];
        var text := loads(files[name]);
        if text.Some? {
          messages := messages + [text.value];
        }
        files := files - {name};
        OneMore(listing, k);
      }
      assert listing[..|listing|] == listing;
      WithoutIs(old(files), listing);
    }
  }

  ghost predicate IsSorted(l: seq<string>) { forall i, j :: 0 <= i < j < |l| ==> Less(l[i], l[j]) }

  lemma {:induction false} Insert(l: seq<string>, x: string) returns (r: seq<string>)
    requires IsSorted(l) && x !in l
    ensures IsSorted(r) && forall n :: n in r <==> n in l || n == x
    decreases |l|
  {
    if l == [] || Less(x, l[0]) {
      r := [x] + l;
      forall j | 0 < j < |l| ensures Less(x, l[j]) { if l != [] { LessIsTransitive(x, l[0], l[j]); } }
    } else {
      var rest := Insert(l[1..], x);
      LessIsTotal(x, l[0]);
      assert l == [l[0]] + l[1..];
      r := [l[0]] + rest;
      forall n | n in rest ensures Less(l[0], n) {}
    }
  }

  lemma {:induction false} Sort(names: set<string>) returns (l: seq<string>)
    ensures IsSorted(l) && forall n :: n in l <==> n in names
  {
    if names == {} {
      l := [];
    } else {
      var x :| x in names;
      var rest := Sort(names - {x});
      l := Insert(rest, x);
    }
  }

  /** There always is a sorted listing, so a drain can start in every state. */
  lemma ListingExists(files: map<string, string>) returns (l: seq<string>)
    ensures IsListing(files, l)
  {
    l := Sort(set n | n in files && IsJson(n));
  }

  lemma RunStep(b: Inbox, s: Step, rest: seq<Step>, c: Codec)
    requires Enabled(b, s, c) && IsRun(Apply(b, s, c), rest, c)
    ensures IsRun(b, [s] + rest, c) && RunFrom(b, [s] + rest, c) == RunFrom(Apply(b, s, c), rest, c)
  {
    assert ([s] + rest)[1..] == rest;
  }

  function Sending(b: Inbox, text: string, c: Codec): Inbox {
    var doc := c.dumps(text);
    Finish(WriteTmp(Number(Begin(b, text), b.nextSend), b.nextSend, |doc|, c), b.nextSend)
  }

  lemma PutAndRemove<V>(m: map<string, V>, k: string, v: V)
    ensures m[k := v] - {k} == m - {k}
  {}

  lemma SendingIs(b: Inbox, text: string, c: Codec)
    requires b.nextSend !in b.sending
    ensures var b', path := Sending(b, text, c), FileName(b.clock, b.counter);
      && b'.files == AfterSend(b.files, path, c.dumps(text)) && b'.counter == b.counter + 1
      && b'.sent == b.sent + [Send(text, b.clock, b.counter, path, |b.sent|)] && b'.sending == b.sending
  {
    var id, doc, tmp := b.nextSend, c.dumps(text), TmpName(FileName(b.clock, b.counter));
    var written := WriteTmp(Number(Begin(b, text), id), id, |doc|, c);
    assert written.sending[id] == Pending(text, b.clock, |b.sent|, Some(b.counter), Some(|doc|));
    assert written.files == b.files[tmp := doc] by { assert doc[..|doc|] == doc; }
    PutAndRemove(b.files, tmp, doc);
    assert written.sending - {id} == b.sending;
  }

  /** An uninterrupted send is four steps of the machine. */
  lemma SendIsRun(b: Inbox, text: string, c: Codec) returns (steps: seq<Step>)
    requires b.nextSend !in b.sending
    ensures IsRun(b, steps, c)
    ensures var b', path := RunFrom(b, steps, c), FileName(b.clock, b.counter);
      && b'.files == AfterSend(b.files, path, c.dumps(text)) && b'.counter == b.counter + 1
      && b'.sent == b.sent + [Send(text, b.clock, b.counter, path, |b.sent|)] && b'.sending == b.sending
  {
    var id, doc := b.nextSend, c.dumps(text);
    var b1 := Begin(b, text);
    var b2 := Number(b1, id);
    var b3 := WriteTmp(b2, id, |doc|, c);
    RunStep(b3, Rename(id), [], c);
    RunStep(b2, Write(id, |doc|), [Rename(id)] + [], c);
    RunStep(b1, TakeNumber(id), [Write(id, |doc|)] + ([Rename(id)] + []), c);
    steps := [Call(text)] + ([TakeNumber(id)] + ([Write(id, |doc|)] + ([Rename(id)] + [])));
    RunStep(b, Call(text), [TakeNumber(id)] + ([Write(id, |doc|)] + ([Rename(id)] + [])), c);
    SendingIs(b, text, c);
  }

  /** Why a restart needs a later clock: if the counter begins again at one reading, the next name repeats, and a
      document that nobody has taken is overwritten. */
  lemma StandingClockOverwrites(b: Inbox, text: string, later: string, c: Codec)
    requires b.nextSend !in b.sending && b.nextSend + 1 !in b.sending
    ensures var first := Sending(b, text, c);
      var second := Sending(first.(counter := b.counter), later, c);
      && second.sent == b.sent + [Send(text, b.clock, b.counter, FileName(b.clock, b.counter), |b.sent|)]
                        + [Send(later, b.clock, b.counter, FileName(b.clock, b.counter), |b.sent| + 1)]
      && FileName(b.clock, b.counter) in second.files && second.files[FileName(b.clock, b.counter)] == c.dumps(later)
  {
    var first := Sending(b, text, c);
    SendingIs(b, text, c);
    SendingIs(first.(counter := b.counter), later, c);
  }

  lemma WithoutHead(files: map<string, string>, l: seq<string>)
    requires l != []
    ensures Without(files, l) == Without(files - {l[0]}, l[1..])
  {
    WithoutIs(files, l);
    WithoutIs(files - {l[0]}, l[1..]);
    assert l == [l[0]] + l[1..];
  }

  lemma {:induction false} FirstOfMessages(files: map<string, string>, l: seq<string>, loads: string -> Option<string>)
    requires l != [] && l[0] !in l[1..]
    ensures var first := if l[0] in files && loads(files[l[0]]).Some? then [loads(files[l[0]]).value] else [];
      MessagesIn(files, l, loads) == first + MessagesIn(files - {l[0]}, l[1..], loads)
    decreases |l|
  {
    if |l| > 1 {
      var most := l[..|l| - 1];
      assert most[1..] == l[1..][..|l| - 2] && most[0] == l[0];
      assert l[1..][|l| - 2] == l[|l| - 1];
      FirstOfMessages(files, most, loads);
    } else {
      assert MessagesIn(files, l[..0], loads) == [];
    }
  }

  lemma NotYetReadLater(b: Inbox, loads: string -> Option<string>)
    requires b.listing != [] && forall i, j :: 0 <= i < j < |b.listing| ==> Less(b.listing[i], b.listing[j])
    ensures var name := b.listing[0];
      var first := if name in b.files && loads(b.files[name]).Some? then [loads(b.files[name]).value] else [];
      MessagesIn(b.files, b.listing, loads) == first + MessagesIn(b.files - {name}, b.listing[1..], loads)
  {
    LessIsIrreflexive(b.listing[0]);
    FirstOfMessages(b.files, b.listing, loads);
  }

  lemma {:induction false} TakingIsRun(b: Inbox, c: Codec) returns (steps: seq<Step>)
    requires forall i, j :: 0 <= i < j < |b.listing| ==> Less(b.listing[i], b.listing[j])
    ensures IsRun(b, steps, c)
    ensures var b' := RunFrom(b, steps, c);
      && b'.listing == [] && b'.messages == b.messages + MessagesIn(b.files, b.listing, c.loads)
      && b'.files == Without(b.files, b.listing)
    decreases |b.listing|
  {
    if b.listing == [] {
      steps := [];
    } else {
      var next := TakeHead(b, c);
      var more := TakingIsRun(next, c);
      steps := [TakeOne] + more;
      RunStep(b, TakeOne, more, c);
      NotYetReadLater(b, c.loads);
      WithoutHead(b.files, b.listing);
    }
  }

  /** An uninterrupted drain is a run of the machine with the same messages and the same files gone. */
  lemma DrainIsRun(b: Inbox, l: seq<string>, c: Codec) returns (steps: seq<Step>)
    requires b.listing == [] && IsListing(b.files, l)
    ensures IsRun(b, steps, c)
    ensures var b' := RunFrom(b, steps, c);
      b'.listing == [] && b'.messages == b.messages + MessagesIn(b.files, l, c.loads) && b'.files == Without(b.files, l)
  {
    var listed := b.(listing := l);
    var more := TakingIsRun(listed, c);
    steps := [List(l)] + more;
    RunStep(b, List(l), more, c);
  }
}
