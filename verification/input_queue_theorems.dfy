/** The input directory over whole runs: a FIFO queue between processes. */
module InputQueueTheorems {
  import opened IpcNames
  import opened InputQueue
  import opened InputQueueInvariants

  lemma {:induction false} RunKeepsFiles(b: Inbox, steps: seq<Step>, c: Codec)
    requires RoundTrips(c) && Stamps(b) && Files(b, c) && IsRun(b, steps, c)
    ensures Stamps(RunFrom(b, steps, c)) && Files(RunFrom(b, steps, c), c)
    decreases |steps|
  {
    if steps == [] {
    } else {
      StampsKeep(b, steps[0], c);
      FilesKeep(b, steps[0], c);
      RunKeepsFiles(Apply(b, steps[0], c), steps[1..], c);
    }
  }

  lemma {:induction false} RunOnlyAdvances(b: Inbox, steps: seq<Step>, c: Codec)
    requires IsRun(b, steps, c)
    ensures b.clock <= RunFrom(b, steps, c).clock && b.sent <= RunFrom(b, steps, c).sent
    decreases |steps|
  {
    if steps == [] {
    } else {
      RunOnlyAdvances(Apply(b, steps[0], c), steps[1..], c);
    }
  }

  lemma {:induction false} RunKeepsOrder(b: Inbox, steps: seq<Step>, c: Codec)
    requires RoundTrips(c) && Stamps(b) && Files(b, c) && InOrder(b) && IsRun(b, steps, c)
    requires InRange(RunFrom(b, steps, c))
    ensures InOrder(RunFrom(b, steps, c))
    decreases |steps|
  {
    if steps == [] {
    } else {
      RunOnlyAdvances(b, steps, c);
      StampsKeep(b, steps[0], c);
      FilesKeep(b, steps[0], c);
      OrderKeeps(b, steps[0], c);
      RunKeepsOrder(Apply(b, steps[0], c), steps[1..], c);
    }
  }

  lemma EmptyIsFine(c: Codec)
    ensures Stamps(EMPTY_INBOX) && Files(EMPTY_INBOX, c) && InOrder(EMPTY_INBOX)
  {}

  /** Every finished send is in the directory or delivered, never both; nothing is delivered twice, and nothing but the
      text of a finished send is; no document can be seen before it is whole. Holds however large the numbers grow. */
  lemma DeliveredExactlyOnce(steps: seq<Step>, c: Codec)
    requires RoundTrips(c) && IsRun(EMPTY_INBOX, steps, c)
    ensures var b := RunFrom(EMPTY_INBOX, steps, c);
      && (forall i :: 0 <= i < |b.sent| ==> (b.sent[i].name in b.files) != (b.sent[i].name in b.taken))
      && Distinct(b.taken)
      && |b.messages| == |b.taken| && (forall k :: 0 <= k < |b.taken| ==> WasSent(b.sent, b.taken[k], b.messages[k]))
      && NothingHalfWritten(b, c)
  {
    EmptyIsFine(c);
    RunKeepsFiles(EMPTY_INBOX, steps, c);
  }

  lemma TextOf(b: Inbox, i: nat, k: nat)
    requires SentInOrder(b.sent) && Delivered(b) && i < |b.sent| && k < |b.taken| && b.taken[k] == b.sent[i].name
    ensures b.messages[k] == b.sent[i].text
  {
    assert WasSent(b.sent, b.taken[k], b.messages[k]);
    var x :| x in b.sent && IsMessageOf(x, b.taken[k], b.messages[k]);
  }

  lemma TakenEarlier(b: Inbox, i: nat, j: nat, k: nat)
    requires SentInOrder(b.sent) && Delivered(b) && TakenInOrder(b)
    requires j < |b.sent| && i < b.sent[j].began && k < |b.taken| && b.taken[k] == b.sent[j].name
    ensures i < |b.sent| && k < |b.messages|
    ensures exists l :: 0 <= l < k && b.taken[l] == b.sent[i].name && b.messages[l] == b.sent[i].text
  {
    assert b.sent[j].began <= j;
    assert b.sent[i].name in b.taken[..k];
    var l :| 0 <= l < k && b.taken[..k][l] == b.sent[i].name;
    TextOf(b, i, l);
  }

  /** A send that finished before another one read the clock is delivered before it. */
  lemma DeliveredInOrder(steps: seq<Step>, c: Codec, i: nat, j: nat, k: nat)
    requires RoundTrips(c) && IsRun(EMPTY_INBOX, steps, c) && InRange(RunFrom(EMPTY_INBOX, steps, c))
    requires var b := RunFrom(EMPTY_INBOX, steps, c);
      j < |b.sent| && i < b.sent[j].began && k < |b.taken| && b.taken[k] == b.sent[j].name
    ensures var b := RunFrom(EMPTY_INBOX, steps, c);
      && i < |b.sent| && k < |b.messages|
      && exists l :: 0 <= l < k && b.taken[l] == b.sent[i].name && b.messages[l] == b.sent[i].text
  {
    var b := RunFrom(EMPTY_INBOX, steps, c);
    EmptyIsFine(c);
    RunKeepsFiles(EMPTY_INBOX, steps, c);
    RunKeepsOrder(EMPTY_INBOX, steps, c);
    TakenEarlier(b, i, j, k);
  }

  /** Each send began only after the one before it had finished. */
  ghost predicate OneAtATime(b: Inbox) { forall j :: 0 <= j < |b.sent| ==> b.sent[j].began == j }

  /** The k-th file taken is the k-th one sent. */
  ghost predicate InTurn(b: Inbox, k: nat) { k < |b.taken| && k < |b.sent| && b.taken[k] == b.sent[k].name }

  lemma NotBefore(b: Inbox, j: nat, k: nat)
    requires Distinct(b.taken) && j < |b.sent| && k < |b.taken|
    ensures j < k && InTurn(b, j) ==> b.taken[k] != b.sent[j].name
  {
    if j < k { assert b.taken[j] != b.taken[k]; }
  }

  lemma NotOvertaken(b: Inbox, j: nat, k: nat)
    requires SentInOrder(b.sent) && TakenInOrder(b) && OneAtATime(b) && j < |b.sent| && k < |b.taken|
    requires forall l: nat :: l < k ==> InTurn(b, l)
    ensures k < j ==> b.taken[k] != b.sent[j].name
  {
    if k < j {
      assert b.sent[j].began == j;
      forall l: nat | l < k ensures b.taken[..k][l] != b.sent[k].name { assert InTurn(b, l); }
      assert b.sent[k].name !in b.taken[..k];
    }
  }

  lemma {:induction false} TakenInTurn(b: Inbox, k: nat)
    requires SentInOrder(b.sent) && Distinct(b.taken) && Delivered(b) && TakenInOrder(b) && OneAtATime(b)
      && k < |b.taken|
    ensures InTurn(b, k)
    decreases k
  {
    forall l: nat | l < k ensures InTurn(b, l) { TakenInTurn(b, l); }
    assert WasSent(b.sent, b.taken[k], b.messages[k]);
    var x :| x in b.sent && IsMessageOf(x, b.taken[k], b.messages[k]);
    var j :| 0 <= j < |b.sent| && b.sent[j] == x;
    NotBefore(b, j, k);
    NotOvertaken(b, j, k);
  }

  function Texts(sends: seq<Send>): (r: seq<string>)
    ensures |r| == |sends| && forall i :: 0 <= i < |sends| ==> r[i] == sends[i].text
  {
    if sends == [] then [] else [sends[0].text] + Texts(sends[1..])
  }

  lemma TakenAreSent(b: Inbox)
    requires SentInOrder(b.sent) && Distinct(b.taken) && Delivered(b) && TakenInOrder(b) && OneAtATime(b)
    ensures |b.messages| <= |b.sent| && forall k: nat :: k < |b.messages| ==> b.messages[k] == b.sent[k].text
  {
    forall k: nat | k < |b.messages| ensures k < |b.sent| && b.messages[k] == b.sent[k].text {
      TakenInTurn(b, k);
      TextOf(b, k, k);
    }
    if |b.taken| > 0 { TakenInTurn(b, |b.taken| - 1); }
  }

  lemma AreTexts(messages: seq<string>, sent: seq<Send>)
    requires |messages| <= |sent| && forall k: nat :: k < |messages| ==> messages[k] == sent[k].text
    ensures messages == Texts(sent[..|messages|]) && (|messages| >= |sent| ==> messages == Texts(sent))
  {
    assert sent[..|sent|] == sent;
  }

  lemma AllTaken(b: Inbox)
    requires SentInOrder(b.sent) && Distinct(b.taken) && Delivered(b) && TakenInOrder(b) && OneAtATime(b)
    requires SentNumbered(b) && NothingLost(b)
    requires forall n :: n in b.files ==> !IsJson(n)
    ensures |b.taken| >= |b.sent|
  {
    SentNamesMatch(b);
    if |b.sent| > 0 {
      var last := |b.sent| - 1;
      assert b.sent[last].name in b.taken;
      var k :| 0 <= k < |b.taken| && b.taken[k] == b.sent[last].name;
      TakenInTurn(b, k);
    }
  }

  lemma FifoSoFar(b: Inbox)
    requires SentInOrder(b.sent) && Distinct(b.taken) && Delivered(b) && TakenInOrder(b) && OneAtATime(b)
    requires SentNumbered(b) && NothingLost(b)
    ensures |b.messages| <= |b.sent| && b.messages == Texts(b.sent[..|b.messages|])
    ensures (forall n :: n in b.files ==> !IsJson(n)) ==> b.messages == Texts(b.sent)
  {
    TakenAreSent(b);
    AreTexts(b.messages, b.sent);
    if forall n :: n in b.files ==> !IsJson(n) { AllTaken(b); }
  }

  /** With one sender at a time the directory is a FIFO queue: what came out is a beginning of what was sent,
      and all of it once no document is left. */
  lemma IsFifoQueue(steps: seq<Step>, c: Codec)
    requires RoundTrips(c) && IsRun(EMPTY_INBOX, steps, c) && InRange(RunFrom(EMPTY_INBOX, steps, c))
    requires OneAtATime(RunFrom(EMPTY_INBOX, steps, c))
    ensures var b := RunFrom(EMPTY_INBOX, steps, c);
      && |b.messages| <= |b.sent| && b.messages == Texts(b.sent[..|b.messages|])
      && ((forall n :: n in b.files ==> !IsJson(n)) ==> b.messages == Texts(b.sent))
  {
    var b := RunFrom(EMPTY_INBOX, steps, c);
    EmptyIsFine(c);
    RunKeepsFiles(EMPTY_INBOX, steps, c);
    RunKeepsOrder(EMPTY_INBOX, steps, c);
    FifoSoFar(b);
  }

  // ----- progress -----

  predicate StartsNoDrain(steps: seq<Step>) { forall i :: 0 <= i < |steps| ==> !steps[i].List? }

  /** Until the next drain starts, what is taken is what the listing has lost, in its order. */
  lemma {:induction false} TakenComesFromListing(b: Inbox, steps: seq<Step>, c: Codec)
    requires IsRun(b, steps, c) && StartsNoDrain(steps)
    ensures var b' := RunFrom(b, steps, c); b'.taken + b'.listing == b.taken + b.listing
    decreases |steps|
  {
    if steps == [] {
    } else {
      var next := Apply(b, steps[0], c);
      assert !steps[0].List?;
      assert steps[0].TakeOne? ==> b.listing == [b.listing[0]] + next.listing;
      TakenComesFromListing(next, steps[1..], c);
    }
  }

  lemma ListedOrTaken(b: Inbox, l: seq<string>, i: nat)
    requires SentNumbered(b) && NothingLost(b) && IsListing(b.files, l) && i < |b.sent|
    ensures b.sent[i].name in b.taken + l
  {
    SentNamesMatch(b);
  }

  /** A send that finished before a drain started is delivered when that drain has used up its listing, whatever other
      sends do meanwhile. */
  lemma DrainDeliversEarlierSends(before: seq<Step>, l: seq<string>, after: seq<Step>, c: Codec, i: nat)
    requires RoundTrips(c) && IsRun(EMPTY_INBOX, before, c) && Enabled(RunFrom(EMPTY_INBOX, before, c), List(l), c)
    requires var drain := RunFrom(EMPTY_INBOX, before, c).(listing := l);
      IsRun(drain, after, c) && StartsNoDrain(after) && RunFrom(drain, after, c).listing == []
    requires i < |RunFrom(EMPTY_INBOX, before, c).sent|
    ensures var b := RunFrom(EMPTY_INBOX, before, c);
      b.sent[i].name in RunFrom(b.(listing := l), after, c).taken
  {
    var b := RunFrom(EMPTY_INBOX, before, c);
    EmptyIsFine(c);
    RunKeepsFiles(EMPTY_INBOX, before, c);
    ListedOrTaken(b, l, i);
    TakenComesFromListing(b.(listing := l), after, c);
  }
}
