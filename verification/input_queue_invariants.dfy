/** What every step of the input directory keeps. */
module InputQueueInvariants {
  import opened Types
  import opened Ordering
  import opened IpcNames
  import opened InputQueue

  // ----- clock readings and numbers -----

  /** A send of the present process has a number below the counter; the clock has moved on since all others. */
  ghost predicate IsNumbered(b: Inbox, x: Send) {
    x.ts <= b.clock && (x.ts < b.since || x.number < b.counter) && x.name == FileName(x.ts, x.number)
  }

  /** The clock reading decides, and the number where the readings tie. */
  predicate IsEarlier(ts: nat, n: nat, ts': nat, n': nat) { ts < ts' || (ts == ts' && n < n') }

  ghost predicate Precedes(x: Send, y: Send) { IsEarlier(x.ts, x.number, y.ts, y.number) && x.name != y.name }

  /** Finished sends have distinct names; one that began after another had finished has the larger stamp. */
  ghost predicate SentInOrder(sent: seq<Send>) {
    && (forall i, j :: 0 <= i < j < |sent| ==> sent[i].name != sent[j].name)
    && (forall j :: 0 <= j < |sent| ==> sent[j].began <= j)
    && (forall i, j :: 0 <= j < |sent| && 0 <= i < sent[j].began ==> Precedes(sent[i], sent[j]))
  }

  ghost predicate PendingFits(b: Inbox, p: Pending) {
    && b.since <= p.ts <= b.clock && p.began <= |b.sent| && (p.written.Some? ==> p.number.Some?)
    && (forall i :: 0 <= i < p.began ==> b.sent[i].ts <= p.ts)
    && (p.number.Some? ==>
          && p.number.value < b.counter
          && (forall i :: 0 <= i < |b.sent| ==> b.sent[i].ts != p.ts || b.sent[i].number != p.number.value)
          && (forall i :: 0 <= i < p.began ==> IsEarlier(b.sent[i].ts, b.sent[i].number, p.ts, p.number.value)))
  }

  ghost predicate SentNumbered(b: Inbox) { forall i :: 0 <= i < |b.sent| ==> IsNumbered(b, b.sent[i]) }

  ghost predicate PendingsFit(b: Inbox) {
    forall id :: id in b.sending ==> id < b.nextSend && PendingFits(b, b.sending[id])
  }

  ghost predicate NumbersDiffer(b: Inbox) {
    forall id, id' :: id in b.sending && id' in b.sending && id != id' && b.sending[id].number.Some?
      ==> b.sending[id].number != b.sending[id'].number
  }

  ghost predicate Stamps(b: Inbox) {
    b.since <= b.clock && SentNumbered(b) && SentInOrder(b.sent) && PendingsFit(b) && NumbersDiffer(b)
  }

  /** The same process goes on, and no send has finished. */
  ghost predicate GoesOn(b: Inbox, b': Inbox) {
    b'.sent == b.sent && b'.since == b.since && b.clock <= b'.clock && b.counter <= b'.counter
  }

  lemma SentStayNumbered(b: Inbox, b': Inbox)
    requires SentNumbered(b) && GoesOn(b, b')
    ensures SentNumbered(b')
  {
    forall i | 0 <= i < |b'.sent| ensures IsNumbered(b', b'.sent[i]) { assert IsNumbered(b, b.sent[i]); }
  }

  lemma PendingStays(b: Inbox, b': Inbox, p: Pending)
    requires PendingFits(b, p) && GoesOn(b, b')
    ensures PendingFits(b', p)
  {}

  lemma LaterKeepsStamps(b: Inbox, b': Inbox)
    requires Stamps(b) && GoesOn(b, b') && b'.sending == b.sending && b'.nextSend == b.nextSend
    ensures Stamps(b')
  {
    SentStayNumbered(b, b');
    forall id | id in b'.sending ensures PendingFits(b', b'.sending[id]) { PendingStays(b, b', b.sending[id]); }
  }

  lemma CalledFits(b: Inbox, text: string)
    requires SentNumbered(b) && b.since <= b.clock
    ensures PendingFits(b, Pending(text, b.clock, |b.sent|, None, None))
  {
    forall i | 0 <= i < |b.sent| ensures b.sent[i].ts <= b.clock { assert IsNumbered(b, b.sent[i]); }
  }

  lemma CallKeepsStamps(b: Inbox, text: string)
    requires Stamps(b)
    ensures Stamps(Begin(b, text))
  {
    var b' := Begin(b, text);
    SentStayNumbered(b, b');
    CalledFits(b, text);
    forall id | id in b'.sending ensures PendingFits(b', b'.sending[id]) { PendingStays(b, b', b'.sending[id]); }
  }

  lemma NumberedFits(b: Inbox, p: Pending)
    requires SentNumbered(b) && PendingFits(b, p) && p.number.None?
    ensures PendingFits(b.(counter := b.counter + 1), p.(number := Some(b.counter)))
  {
    forall i | 0 <= i < |b.sent|
      ensures b.sent[i].ts != p.ts || b.sent[i].number != b.counter
      ensures i < p.began ==> IsEarlier(b.sent[i].ts, b.sent[i].number, p.ts, b.counter)
    {
      assert IsNumbered(b, b.sent[i]);
    }
  }

  lemma NumberingKeepsPendings(b: Inbox, id: nat)
    requires SentNumbered(b) && PendingsFit(b) && id in b.sending && b.sending[id].number.None?
    ensures PendingsFit(Number(b, id))
  {
    var b' := Number(b, id);
    NumberedFits(b, b.sending[id]);
    forall k | k in b'.sending ensures PendingFits(b', b'.sending[k]) {
      if k == id {
        PendingStays(b.(counter := b.counter + 1), b', b'.sending[id]);
      } else {
        PendingStays(b, b', b.sending[k]);
      }
    }
  }

  lemma NumberingKeepsDiffering(b: Inbox, id: nat)
    requires PendingsFit(b) && NumbersDiffer(b) && id in b.sending
    ensures NumbersDiffer(Number(b, id))
  {
    assert forall k :: k in b.sending ==> PendingFits(b, b.sending[k]);
  }

  lemma NumberingKeeps(b: Inbox, id: nat)
    requires Stamps(b) && id in b.sending && b.sending[id].number.None?
    ensures Stamps(Number(b, id))
  {
    SentStayNumbered(b, Number(b, id));
    NumberingKeepsPendings(b, id);
    NumberingKeepsDiffering(b, id);
  }

  lemma ResetKeepsStamps(b: Inbox, clock: nat)
    requires Stamps(b) && b.clock < clock
    ensures Stamps(Reset(b, clock))
  {
    forall i | 0 <= i < |b.sent| ensures IsNumbered(Reset(b, clock), b.sent[i]) { assert IsNumbered(b, b.sent[i]); }
  }

  lemma WritingKeepsStamps(b: Inbox, id: nat, upto: nat, c: Codec)
    requires Stamps(b) && id in b.sending && b.sending[id].number.Some? && upto <= |c.dumps(b.sending[id].text)|
    ensures Stamps(WriteTmp(b, id, upto, c))
  {
    var b' := WriteTmp(b, id, upto, c);
    SentStayNumbered(b, b');
    forall k | k in b'.sending ensures PendingFits(b', b'.sending[k]) { assert PendingFits(b, b.sending[k]); }
  }

  lemma FreshName(b: Inbox, id: nat)
    requires SentNumbered(b) && PendingsFit(b) && id in b.sending && b.sending[id].number.Some?
    ensures forall i :: 0 <= i < |b.sent| ==> b.sent[i].name != PathOf(b.sending[id])
  {
    var p := b.sending[id];
    assert PendingFits(b, p);
    forall i | 0 <= i < |b.sent| ensures b.sent[i].name != PathOf(p) {
      var x := b.sent[i];
      assert IsNumbered(b, x);
      if x.name == PathOf(p) { NamesAreInjective(x.ts, x.number, p.ts, p.number.value); }
    }
  }

  lemma FinishedFit(b: Inbox, id: nat)
    requires SentNumbered(b) && PendingsFit(b) && NumbersDiffer(b) && id in b.sending && b.sending[id].number.Some?
    ensures SentNumbered(Finish(b, id)) && PendingsFit(Finish(b, id)) && NumbersDiffer(Finish(b, id))
  {
    var b' := Finish(b, id);
    assert PendingFits(b, b.sending[id]);
    forall k | k in b'.sending ensures PendingFits(b', b'.sending[k]) {
      assert PendingFits(b, b.sending[k]);
    }
  }

  lemma FinishedInOrder(b: Inbox, p: Pending)
    requires SentInOrder(b.sent) && PendingFits(b, p) && p.number.Some?
    requires forall i :: 0 <= i < |b.sent| ==> b.sent[i].name != PathOf(p)
    ensures SentInOrder(b.sent + [Send(p.text, p.ts, p.number.value, PathOf(p), p.began)])
  {}

  lemma FinishKeepsStamps(b: Inbox, id: nat)
    requires Stamps(b) && id in b.sending && b.sending[id].number.Some?
    ensures Stamps(Finish(b, id))
  {
    var p := b.sending[id];
    assert PendingFits(b, p);
    FreshName(b, id);
    FinishedInOrder(b, p);
    FinishedFit(b, id);
  }

  lemma StampsKeep(b: Inbox, s: Step, c: Codec)
    requires Stamps(b) && Enabled(b, s, c)
    ensures Stamps(Apply(b, s, c))
  {
    match s
    case Tick(clock) => LaterKeepsStamps(b, b.(clock := clock));
    case CountElsewhere => LaterKeepsStamps(b, b.(counter := b.counter + 1));
    case Call(text) => CallKeepsStamps(b, text);
    case TakeNumber(id) => NumberingKeeps(b, id);
    case Write(id, upto) => WritingKeepsStamps(b, id, upto, c);
    case Rename(id) => FinishKeepsStamps(b, id);
    case List(l) => LaterKeepsStamps(b, b.(listing := l));
    case TakeOne => LaterKeepsStamps(b, TakeHead(b, c));
    case Restart(clock) => ResetKeepsStamps(b, clock);
  }

  // ----- the files -----

  ghost predicate IsDocumentOf(x: Send, n: string, doc: string, c: Codec) { x.name == n && doc == c.dumps(x.text) }

  ghost predicate IsMessageOf(x: Send, n: string, text: string) { x.name == n && x.text == text }

  ghost predicate WasSent(sent: seq<Send>, n: string, text: string) { exists x :: x in sent && IsMessageOf(x, n, text) }

  /** Whatever the drainer can see is the whole document of a finished send. */
  ghost predicate NothingHalfWritten(b: Inbox, c: Codec) {
    forall n :: n in b.files && IsJson(n) ==> exists x :: x in b.sent && IsDocumentOf(x, n, b.files[n], c)
  }

  ghost predicate HasTemp(b: Inbox, p: Pending, c: Codec)
    requires p.number.Some? && p.written.Some?
  {
    var tmp := TmpName(PathOf(p));
    p.written.value <= |c.dumps(p.text)| && tmp in b.files && b.files[tmp] == c.dumps(p.text)[..p.written.value]
  }

  ghost predicate Temps(b: Inbox, c: Codec) {
    forall id :: id in b.sending && b.sending[id].number.Some? && b.sending[id].written.Some? ==>
      HasTemp(b, b.sending[id], c)
  }

  /** A finished send's file is there until it is taken. */
  ghost predicate NothingLost(b: Inbox) {
    forall i :: 0 <= i < |b.sent| ==> b.sent[i].name in b.files || b.sent[i].name in b.taken
  }

  ghost predicate Distinct(l: seq<string>) { forall i, j :: 0 <= i < j < |l| ==> l[i] != l[j] }

  /** What was taken is gone, and no name was taken twice. */
  ghost predicate TakenOnce(b: Inbox) {
    && Distinct(b.taken)
    && (forall n :: n in b.taken ==> IsJson(n) && n !in b.files)
  }

  /** The messages are the texts of the sends whose files were taken. */
  ghost predicate Delivered(b: Inbox) {
    && |b.messages| == |b.taken|
    && (forall k :: 0 <= k < |b.taken| ==> WasSent(b.sent, b.taken[k], b.messages[k]))
  }

  ghost predicate ListingFits(b: Inbox) {
    && (forall i, j :: 0 <= i < j < |b.listing| ==> Less(b.listing[i], b.listing[j]))
    && (forall n :: n in b.listing ==> n in b.files && IsJson(n))
  }

  ghost predicate Files(b: Inbox, c: Codec) {
    NothingHalfWritten(b, c) && Temps(b, c) && NothingLost(b) && TakenOnce(b) && Delivered(b) && ListingFits(b)
  }

  lemma SameFiles(b: Inbox, b': Inbox, c: Codec)
    requires Files(b, c) && b'.files == b.files && b'.sent == b.sent && b'.taken == b.taken && b'.messages == b.messages
    requires b'.listing == b.listing
    requires forall id :: id in b'.sending && b'.sending[id].written.Some? ==>
      id in b.sending && b.sending[id] == b'.sending[id]
    ensures Files(b', c)
  {
    forall id | id in b'.sending && b'.sending[id].number.Some? && b'.sending[id].written.Some?
      ensures HasTemp(b', b'.sending[id], c)
    {
      assert HasTemp(b, b.sending[id], c);
    }
    assert NothingHalfWritten(b', c) && NothingLost(b') && TakenOnce(b') && Delivered(b') && ListingFits(b');
  }

  lemma OtherTemp(b: Inbox, id: nat, id': nat)
    requires NumbersDiffer(b) && id in b.sending && id' in b.sending && id != id'
    requires b.sending[id].number.Some? && b.sending[id'].number.Some?
    ensures TmpName(PathOf(b.sending[id])) != TmpName(PathOf(b.sending[id']))
  {
    var p, p' := b.sending[id], b.sending[id'];
    var a, a' := PathOf(p), PathOf(p');
    if TmpName(a) == TmpName(a') {
      assert TmpName(a)[..|TmpName(a)| - 4] == a && TmpName(a')[..|TmpName(a')| - 4] == a';
      NamesAreInjective(p.ts, p.number.value, p'.ts, p'.number.value);
    }
  }

  lemma WriteKeepsTemps(b: Inbox, id: nat, upto: nat, c: Codec)
    requires NumbersDiffer(b) && Temps(b, c)
    requires id in b.sending && b.sending[id].number.Some? && upto <= |c.dumps(b.sending[id].text)|
    ensures Temps(WriteTmp(b, id, upto, c), c)
  {
    var b' := WriteTmp(b, id, upto, c);
    forall k | k in b'.sending && b'.sending[k].number.Some? && b'.sending[k].written.Some?
      ensures HasTemp(b', b'.sending[k], c)
    {
      if k != id {
        assert HasTemp(b, b.sending[k], c);
        OtherTemp(b, id, k);
      }
    }
  }

  lemma WriteKeepsFiles(b: Inbox, id: nat, upto: nat, c: Codec)
    requires Stamps(b) && Files(b, c)
    requires id in b.sending && b.sending[id].number.Some? && upto <= |c.dumps(b.sending[id].text)|
    ensures Files(WriteTmp(b, id, upto, c), c)
  {
    var b' := WriteTmp(b, id, upto, c);
    TmpNeverMatches(PathOf(b.sending[id]));
    WriteKeepsTemps(b, id, upto, c);
    assert NothingHalfWritten(b', c) && NothingLost(b') && TakenOnce(b') && Delivered(b') && ListingFits(b');
  }

  lemma FinishKeepsTemps(b: Inbox, id: nat, c: Codec)
    requires NumbersDiffer(b) && Temps(b, c) && id in b.sending && b.sending[id].number.Some?
    ensures Temps(Finish(b, id), c)
  {
    var b' := Finish(b, id);
    NamesMatch(b.sending[id].ts, b.sending[id].number.value);
    forall k | k in b'.sending && b'.sending[k].number.Some? && b'.sending[k].written.Some?
      ensures HasTemp(b', b'.sending[k], c)
    {
      assert HasTemp(b, b.sending[k], c);
      OtherTemp(b, id, k);
      TmpNeverMatches(PathOf(b.sending[k]));
    }
  }

  lemma SentNamesMatch(b: Inbox)
    requires SentNumbered(b)
    ensures forall i :: 0 <= i < |b.sent| ==> IsJson(b.sent[i].name)
  {
    forall i | 0 <= i < |b.sent| ensures IsJson(b.sent[i].name) {
      assert IsNumbered(b, b.sent[i]);
      NamesMatch(b.sent[i].ts, b.sent[i].number);
    }
  }

  lemma FinishShows(b: Inbox, id: nat, c: Codec)
    requires NothingHalfWritten(b, c) && Temps(b, c) && Enabled(b, Rename(id), c)
    ensures NothingHalfWritten(Finish(b, id), c)
  {
    var p, b' := b.sending[id], Finish(b, id);
    assert HasTemp(b, p, c);
    var x := Send(p.text, p.ts, p.number.value, PathOf(p), p.began);
    assert x in b'.sent && IsDocumentOf(x, PathOf(p), b'.files[PathOf(p)], c);
    forall n | n in b'.files && IsJson(n) && n != PathOf(p)
      ensures exists y :: y in b'.sent && IsDocumentOf(y, n, b'.files[n], c)
    {
      var y :| y in b.sent && IsDocumentOf(y, n, b.files[n], c);
      assert y in b'.sent;
    }
  }

  lemma FinishKeepsTaken(b: Inbox, id: nat)
    requires TakenOnce(b) && Delivered(b) && id in b.sending && b.sending[id].number.Some?
    requires forall i :: 0 <= i < |b.sent| ==> b.sent[i].name != PathOf(b.sending[id])
    ensures TakenOnce(Finish(b, id)) && Delivered(Finish(b, id))
  {
    var b' := Finish(b, id);
    NamesMatch(b.sending[id].ts, b.sending[id].number.value);
    forall k | 0 <= k < |b.taken|
      ensures b.taken[k] != PathOf(b.sending[id]) && WasSent(b'.sent, b'.taken[k], b'.messages[k])
    {
      assert WasSent(b.sent, b.taken[k], b.messages[k]);
      var x :| x in b.sent && IsMessageOf(x, b.taken[k], b.messages[k]);
      assert x in b'.sent;
    }
  }

  lemma FinishKeepsListing(b: Inbox, id: nat)
    requires ListingFits(b) && NothingLost(b) && SentNumbered(b) && id in b.sending && b.sending[id].number.Some?
    ensures NothingLost(Finish(b, id)) && ListingFits(Finish(b, id))
  {
    TmpNeverMatches(PathOf(b.sending[id]));
    SentNamesMatch(b);
  }

  lemma FinishKeepsFiles(b: Inbox, id: nat, c: Codec)
    requires Stamps(b) && Files(b, c) && Enabled(b, Rename(id), c)
    ensures Files(Finish(b, id), c)
  {
    FreshName(b, id);
    FinishKeepsTemps(b, id, c);
    FinishShows(b, id, c);
    FinishKeepsTaken(b, id);
    FinishKeepsListing(b, id);
  }

  lemma TakeReads(b: Inbox, c: Codec)
    requires RoundTrips(c) && NothingHalfWritten(b, c) && ListingFits(b) && b.listing != []
    ensures b.listing[0] in b.files
    ensures exists x ::
      x in b.sent && IsMessageOf(x, b.listing[0], x.text) && TakeHead(b, c).messages == b.messages + [x.text]
  {
    var n := b.listing[0];
    assert n in b.listing;
    var x :| x in b.sent && IsDocumentOf(x, n, b.files[n], c);
    assert c.loads(c.dumps(x.text)) == Some(x.text);
    assert IsMessageOf(x, n, x.text);
  }

  lemma TakeKeepsDelivered(b: Inbox, c: Codec)
    requires RoundTrips(c) && NothingHalfWritten(b, c) && ListingFits(b) && Delivered(b) && b.listing != []
    ensures Delivered(TakeHead(b, c))
  {
    var b' := TakeHead(b, c);
    TakeReads(b, c);
    var x :| x in b.sent && IsMessageOf(x, b.listing[0], x.text) && b'.messages == b.messages + [x.text];
    forall k | 0 <= k < |b'.taken| ensures WasSent(b'.sent, b'.taken[k], b'.messages[k]) {
      if k < |b.taken| {
        assert WasSent(b.sent, b.taken[k], b.messages[k]);
      } else {
        assert IsMessageOf(x, b'.taken[k], b'.messages[k]);
      }
    }
  }

  lemma TakeKeepsTemps(b: Inbox, c: Codec)
    requires Temps(b, c) && ListingFits(b) && b.listing != []
    ensures Temps(TakeHead(b, c), c)
  {
    var b' := TakeHead(b, c);
    forall k | k in b'.sending && b'.sending[k].number.Some? && b'.sending[k].written.Some?
      ensures HasTemp(b', b'.sending[k], c)
    {
      assert HasTemp(b, b.sending[k], c);
      assert b.listing[0] in b.listing;
      TmpNeverMatches(PathOf(b.sending[k]));
    }
  }

  lemma TakeKeepsFiles(b: Inbox, c: Codec)
    requires RoundTrips(c) && Files(b, c) && b.listing != []
    ensures Files(TakeHead(b, c), c)
  {
    var b' := TakeHead(b, c);
    assert b.listing[0] in b.listing;
    TakeKeepsDelivered(b, c);
    TakeKeepsTemps(b, c);
    LessIsIrreflexive(b.listing[0]);
    assert NothingHalfWritten(b', c) && NothingLost(b') && TakenOnce(b') && ListingFits(b');
  }

  lemma ListKeepsFiles(b: Inbox, l: seq<string>, c: Codec)
    requires Files(b, c) && IsListing(b.files, l)
    ensures Files(b.(listing := l), c)
  {
    var b' := b.(listing := l);
    assert Temps(b', c) by {
      forall id | id in b'.sending && b'.sending[id].number.Some? && b'.sending[id].written.Some?
        ensures HasTemp(b', b'.sending[id], c)
      {
        assert HasTemp(b, b.sending[id], c);
      }
    }
    assert NothingHalfWritten(b', c) && NothingLost(b') && TakenOnce(b') && Delivered(b') && ListingFits(b');
  }

  lemma FilesKeep(b: Inbox, s: Step, c: Codec)
    requires RoundTrips(c) && Stamps(b) && Files(b, c) && Enabled(b, s, c)
    ensures Files(Apply(b, s, c), c)
  {
    match s
    case Write(id, upto) => WriteKeepsFiles(b, id, upto, c);
    case Rename(id) => FinishKeepsFiles(b, id, c);
    case TakeOne => TakeKeepsFiles(b, c);
    case List(l) => ListKeepsFiles(b, l, c);
    case TakeNumber(id) => assert PendingFits(b, b.sending[id]); SameFiles(b, Number(b, id), c);
    case Call(text) => SameFiles(b, Begin(b, text), c);
    case Tick(clock) => SameFiles(b, b.(clock := clock), c);
    case CountElsewhere => SameFiles(b, b.(counter := b.counter + 1), c);
    case Restart(clock) => SameFiles(b, Reset(b, clock), c);
  }

  // ----- the order -----

  /** Whoever finished before another began comes out first. */
  ghost predicate TakenInOrder(b: Inbox) {
    forall i, j, k ::
      0 <= j < |b.sent| && 0 <= i < b.sent[j].began <= |b.sent| && 0 <= k < |b.taken| && b.taken[k] == b.sent[j].name
      ==> b.sent[i].name in b.taken[..k]
  }

  ghost predicate ListedInOrder(b: Inbox) {
    forall i, j :: 0 <= j < |b.sent| && 0 <= i < b.sent[j].began <= |b.sent| && b.sent[j].name in b.listing
      ==> b.sent[i].name in b.taken || b.sent[i].name in b.listing
  }

  ghost predicate InOrder(b: Inbox) { TakenInOrder(b) && ListedInOrder(b) }

  /** The clock and the numbers given out are still within the widths of the file names. */
  ghost predicate InRange(b: Inbox) {
    b.clock < Pow10(TS_WIDTH) && forall i :: 0 <= i < |b.sent| ==> b.sent[i].number < Pow10(SEQ_WIDTH)
  }

  lemma NewestKeepsOrder(b: Inbox, b': Inbox)
    requires InOrder(b) && SentInOrder(b.sent) && b'.listing == b.listing && b'.taken == b.taken
    requires |b'.sent| == |b.sent| + 1 && b'.sent[..|b.sent|] == b.sent
    requires b'.sent[|b.sent|].name !in b.taken && b'.sent[|b.sent|].name !in b.listing
    ensures InOrder(b')
  {
  }

  lemma NotYetSeen(b: Inbox, id: nat)
    requires NothingLost(b) && Delivered(b) && id in b.sending && b.sending[id].number.Some?
    requires forall i :: 0 <= i < |b.sent| ==> b.sent[i].name != PathOf(b.sending[id])
    ensures PathOf(b.sending[id]) !in b.taken
  {
    forall k | 0 <= k < |b.taken| ensures b.taken[k] != PathOf(b.sending[id]) {
      assert WasSent(b.sent, b.taken[k], b.messages[k]);
      var x :| x in b.sent && IsMessageOf(x, b.taken[k], b.messages[k]);
    }
  }

  lemma FinishKeepsOrder(b: Inbox, id: nat, c: Codec)
    requires Stamps(b) && Files(b, c) && InOrder(b) && Enabled(b, Rename(id), c)
    ensures InOrder(Finish(b, id))
  {
    FreshName(b, id);
    NotYetSeen(b, id);
    assert HasTemp(b, b.sending[id], c);
    NewestKeepsOrder(b, Finish(b, id));
  }

  lemma ListKeepsOrder(b: Inbox, l: seq<string>)
    requires SentNumbered(b) && NothingLost(b) && InOrder(b) && IsListing(b.files, l)
    ensures InOrder(b.(listing := l))
  {
    SentNamesMatch(b);
  }

  lemma EarlierIsLess(b: Inbox, i: nat, j: nat)
    requires SentNumbered(b) && SentInOrder(b.sent) && InRange(b) && j < |b.sent| && i < b.sent[j].began
    ensures i < |b.sent| && Less(b.sent[i].name, b.sent[j].name)
  {
    var x, y := b.sent[i], b.sent[j];
    assert IsNumbered(b, x) && IsNumbered(b, y) && Precedes(x, y);
    NamesSortLikeNumbers(x.ts, x.number, y.ts, y.number);
  }

  lemma HeadHasNoEarlier(b: Inbox, i: nat, j: nat)
    requires SentNumbered(b) && SentInOrder(b.sent) && InRange(b) && ListingFits(b) && ListedInOrder(b)
    requires j < |b.sent| && i < b.sent[j].began && b.listing != [] && b.sent[j].name == b.listing[0]
    ensures i < |b.sent| && b.sent[i].name in b.taken
  {
    EarlierIsLess(b, i, j);
    var x := b.sent[i].name;
    if x in b.listing {
      var k :| 0 <= k < |b.listing| && b.listing[k] == x;
      LessIsIrreflexive(x);
      LessIsAsymmetric(x, b.listing[0]);
    }
  }

  lemma TakeKeepsOrder(b: Inbox, c: Codec)
    requires Stamps(b) && InRange(b) && ListingFits(b) && InOrder(b) && b.listing != []
    ensures InOrder(TakeHead(b, c))
  {
    var b', n := TakeHead(b, c), |b.taken|;
    forall i, j, k |
      && 0 <= j < |b'.sent| && 0 <= i < b'.sent[j].began <= |b'.sent|
      && 0 <= k < |b'.taken| && b'.taken[k] == b'.sent[j].name
      ensures b'.sent[i].name in b'.taken[..k]
    {
      if k == n {
        HeadHasNoEarlier(b, i, j);
        assert b'.taken[..n] == b.taken;
      } else {
        assert b'.taken[..k] == b.taken[..k];
      }
    }
    forall x | x in b.listing ensures x in b'.listing || x in b'.taken {}
  }

  lemma OrderKeeps(b: Inbox, s: Step, c: Codec)
    requires Stamps(b) && Files(b, c) && InOrder(b) && InRange(b) && Enabled(b, s, c)
    ensures InOrder(Apply(b, s, c))
  {
    match s
    case Rename(id) => FinishKeepsOrder(b, id, c);
    case List(l) => ListKeepsOrder(b, l);
    case TakeOne => TakeKeepsOrder(b, c);
    case _ =>
  }
}
