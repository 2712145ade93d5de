/** Printed frames do not disturb each other: where marks can be found in a transcript, and what is read there. */
module MarkerFrames {
  import opened Types
  import opened Markers

  ghost predicate Free(s: string, m: string) { forall i :: !OccursAt(s, m, i) }

  /** Neither mark has a newline, and neither contains the other. */
  ghost predicate Proper(m: Marks) {
    && m.start != "" && m.end != "" && '\n' !in m.start && '\n' !in m.end
    && Free(m.start, m.end) && Free(m.end, m.start)
  }

  lemma StartHasNoEnd()
    ensures Free(OUTPUT.start, OUTPUT.end)
  {
    var s, e := OUTPUT.start, OUTPUT.end;
    assert |s| == 27 && |e| == 25;
    forall i ensures !OccursAt(s, e, i) { assert e[19] == 'E'; }
  }

  lemma EndHasNoStart()
    ensures Free(OUTPUT.end, OUTPUT.start)
  {
    assert |OUTPUT.end| < |OUTPUT.start|;
  }

  lemma NoNewlines()
    ensures '\n' !in OUTPUT.start && '\n' !in OUTPUT.end
  {}

  lemma OutputIsProper()
    ensures Proper(OUTPUT)
  {
    StartHasNoEnd();
    EndHasNoStart();
    NoNewlines();
  }

  /** Free of the start mark, and made of whole lines. */
  ghost predicate IsNoise(n: string, m: Marks) { Free(n, m.start) && (n == "" || n[|n| - 1] == '\n') }

  ghost predicate AllNoise(noise: seq<string>, m: Marks) { forall n :: n in noise ==> IsNoise(n, m) }

  // ----- where the printed text sits in the output -----

  /** A frame for `p` begins at `at`. */
  ghost predicate FrameAt(s: string, at: nat, p: string, m: Marks) {
    var line := at + |m.start| + 1;
    && OccursAt(s, m.start, at) && OccursAt(s, p, line) && OccursAt(s, m.end, line + |p| + 1)
    && s[line - 1] == '\n' && s[line + |p|] == '\n'
  }

  /** `f` is the frame for `p` and nothing else. */
  ghost predicate IsFrame(f: string, p: string, m: Marks) {
    |f| == |m.start| + |p| + 2 + |m.end| && FrameAt(f, 0, p, m)
  }

  lemma FrameAtStart(p: string, m: Marks)
    ensures IsFrame(Frame(p, m), p, m)
  {
    var f := Frame(p, m);
    assert OccursAt(f, m.start, 0) && OccursAt(f, p, |m.start| + 1) && OccursAt(f, m.end, |m.start| + |p| + 2);
  }

  /** The frames and the noise behind each fill `s` from `at` to its end. */
  ghost predicate FramesAt(s: string, at: nat, ps: seq<string>, noise: seq<string>, m: Marks)
    requires |ps| == |noise|
    decreases |ps|
  {
    if ps == [] then at == |s|
    else
      var end := at + |Frame(ps[0], m)|;
      && OccursAt(s, Frame(ps[0], m), at) && OccursAt(s, "\n" + noise[0], end)
      && FramesAt(s, end + 1 + |noise[0]|, ps[1..], noise[1..], m)
  }

  lemma {:induction false} FramesAreThere(before: string, ps: seq<string>, noise: seq<string>, m: Marks)
    requires |ps| == |noise|
    ensures FramesAt(before + Frames(ps, noise, m), |before|, ps, noise, m)
    decreases |ps|
  {
    if ps == [] {
    } else {
      var frame, between, rest := Frame(ps[0], m), "\n" + noise[0], Frames(ps[1..], noise[1..], m);
      var s := before + Frames(ps, noise, m);
      assert s == before + (frame + (between + rest));
      var before' := before + frame + between;
      assert s == before' + rest;
      FramesAreThere(before', ps[1..], noise[1..], m);
    }
  }

  // ----- where the marks are found -----

  lemma OccursWithin(s: string, t: string, at: int, m: string, i: int)
    requires OccursAt(s, t, at) && at <= i && i + |m| <= at + |t|
    ensures OccursAt(s, m, i) <==> OccursAt(t, m, i - at)
  {
    if OccursAt(s, m, i) {
      forall k | 0 <= k < |m| ensures m[k] == t[i - at + k] { assert t[i - at + k] == s[at + (i - at + k)]; }
    }
    if OccursAt(t, m, i - at) {
      forall k | 0 <= k < |m| ensures m[k] == s[i + k] { assert t[i - at + k] == s[at + (i - at + k)]; }
    }
  }

  lemma OccurrenceHas(s: string, m: string, i: int, x: int)
    requires OccursAt(s, m, i) && i <= x < i + |m|
    ensures s[x] in m
  {
    assert m[x - i] == s[x];
  }

  lemma NotThroughNewline(s: string, m: string, i: int, x: int)
    requires '\n' !in m && 0 <= x < |s| && s[x] == '\n' && i <= x < i + |m|
    ensures !OccursAt(s, m, i)
  {
    if OccursAt(s, m, i) { OccurrenceHas(s, m, i, x); }
  }

  /** No start mark begins between the two positions. */
  ghost predicate Quiet(s: string, from: int, to: int, m: Marks) {
    forall i :: from <= i < to ==> !OccursAt(s, m.start, i)
  }

  /** A text without the start mark, cut off by a newline or by the end. */
  lemma SegmentIsQuiet(s: string, from: nat, t: string, m: Marks)
    requires Proper(m) && OccursAt(s, t, from) && Free(t, m.start)
    requires t == "" || t[|t| - 1] == '\n' || from + |t| == |s| || s[from + |t|] == '\n'
    ensures Quiet(s, from, from + |t|, m)
  {
    var to := from + |t|;
    forall i | from <= i < to ensures !OccursAt(s, m.start, i) {
      if i + |m.start| <= to {
        OccursWithin(s, t, from, m.start, i);
      } else if t[|t| - 1] == '\n' {
        assert t[|t| - 1] == s[from + (|t| - 1)];
        NotThroughNewline(s, m.start, i, to - 1);
      } else if to < |s| {
        NotThroughNewline(s, m.start, i, to);
      }
    }
  }

  lemma FindIs(s: string, m: string, from: nat, at: nat)
    requires from <= at && OccursAt(s, m, at) && forall i :: from <= i < at ==> !OccursAt(s, m, i)
    ensures Find(s, m, from) == Some(at)
  {
    FindIsFirst(s, m, from);
  }

  /** A turn takes the first start mark, and the first end mark from there on; where the two overlap, the text between
      them is empty. */
  lemma TurnTakesFirst(s: string, m: Marks, cursor: nat, start: nat, end: nat)
    requires cursor <= start && OccursAt(s, m.start, start)
    requires start <= end && OccursAt(s, m.end, end)
    requires forall i :: cursor <= i < start ==> !OccursAt(s, m.start, i)
    requires forall i :: start <= i < end ==> !OccursAt(s, m.end, i)
    ensures var from := start + |m.start|;
      NextHit(s, m, cursor) == Some(Hit(if from <= end then s[from..end] else "", end + |m.end|))
  {
    FindIs(s, m.start, cursor, start);
    FindIs(s, m.end, start, end);
    NextHitIs(s, m, cursor, start, end);
  }

  lemma NoEndBefore(s: string, at: nat, p: string, m: Marks, e: nat, i: nat)
    requires Proper(m) && FrameAt(s, at, p, m) && at <= i < e
    requires var line := at + |m.start| + 1;
      line <= e <= line + |p| + 1 && forall i :: 0 <= i < e - line ==> !OccursAt(p, m.end, i)
    ensures !OccursAt(s, m.end, i)
  {
    var line := at + |m.start| + 1;
    if i < line {
      if i + |m.end| < line {
        OccursWithin(s, m.start, at, m.end, i);
      } else {
        NotThroughNewline(s, m.end, i, line - 1);
      }
    } else if i + |m.end| <= line + |p| {
      OccursWithin(s, p, line, m.end, i);
    } else {
      NotThroughNewline(s, m.end, i, line + |p|);
    }
  }

  /** From the frame's start mark, the next end mark is the first in the payload, or else the frame's own. */
  lemma EndFoundAt(s: string, at: nat, p: string, m: Marks, e: nat)
    requires Proper(m) && FrameAt(s, at, p, m)
    requires var line := at + |m.start| + 1;
      line <= e <= line + |p| + 1 && OccursAt(s, m.end, e) && forall i :: 0 <= i < e - line ==> !OccursAt(p, m.end, i)
    ensures Find(s, m.end, at) == Some(e)
  {
    forall i | at <= i < e ensures !OccursAt(s, m.end, i) { NoEndBefore(s, at, p, m, e, i); }
    FindIs(s, m.end, at, e);
  }

  // ----- a frame in its surroundings -----

  lemma ShiftedFind(s: string, at: nat, f: string, t: string, x: nat)
    requires OccursAt(s, f, at) && Find(f, t, x).Some?
    ensures Find(s, t, at + x) == Some(at + Find(f, t, x).value)
  {
    var y := Find(f, t, x).value;
    FindIsFirst(f, t, x);
    OccursWithin(s, f, at, t, at + y);
    forall i | at + x <= i < at + y ensures !OccursAt(s, t, i) { OccursWithin(s, f, at, t, i); }
    FindIs(s, t, at + x, at + y);
  }

  lemma ShiftedPart(s: string, at: nat, f: string, from: nat, end: nat)
    requires OccursAt(s, f, at) && end <= |f|
    ensures RawBetween(s, at + from, at + end) == RawBetween(f, from, end)
  {}

  lemma ShiftedHitAt(s: string, at: nat, f: string, m: Marks, x: nat, y: nat, e: nat)
    requires OccursAt(s, f, at) && e <= |f| && Find(f, m.start, x) == Some(y) && Find(f, m.end, y) == Some(e)
    requires Find(s, m.start, at + x) == Some(at + y) && Find(s, m.end, at + y) == Some(at + e)
    ensures NextHit(f, m, x).Some?
    ensures var hit := NextHit(f, m, x).value; NextHit(s, m, at + x) == Some(Hit(hit.raw, at + hit.after))
  {
    ShiftedPart(s, at, f, y + |m.start|, e);
    NextHitIs(f, m, x, y, e);
    NextHitIs(s, m, at + x, at + y, at + e);
  }

  /** What is found inside the frame is found there in its surroundings. */
  lemma ShiftedHit(s: string, at: nat, f: string, m: Marks, x: nat)
    requires OccursAt(s, f, at) && NextHit(f, m, x).Some?
    ensures var hit := NextHit(f, m, x).value; NextHit(s, m, at + x) == Some(Hit(hit.raw, at + hit.after))
  {
    var y := Find(f, m.start, x).value;
    var e := Find(f, m.end, y).value;
    ShiftedFind(s, at, f, m.start, x);
    ShiftedFind(s, at, f, m.end, y);
    ShiftedHitAt(s, at, f, m, x, y, e);
  }

  /** In a text that ends with the end mark, every start mark has an end mark behind it. */
  lemma EndFollows(f: string, m: Marks, x: nat)
    requires Proper(m) && |m.end| <= |f| && OccursAt(f, m.end, |f| - |m.end|) && Find(f, m.start, x).Some?
    ensures NextHit(f, m, x).Some?
  {
    var y, e := Find(f, m.start, x).value, |f| - |m.end|;
    FindIsFirst(f, m.start, x);
    if y >= e { OccursWithin(f, m.end, e, m.start, y); }
    FindIsFirst(f, m.end, y);
  }

  /** Where nothing more is found inside the frame, nothing looks like a start mark up to its end. */
  lemma QuietRest(s: string, at: nat, f: string, m: Marks, x: nat)
    requires Proper(m) && OccursAt(s, f, at) && at + |f| < |s| && s[at + |f|] == '\n' && Find(f, m.start, x) == None
    ensures Quiet(s, at + x, at + |f|, m)
  {
    FindIsFirst(f, m.start, x);
    forall i | at + x <= i < at + |f| ensures !OccursAt(s, m.start, i) {
      if i + |m.start| <= at + |f| {
        OccursWithin(s, f, at, m.start, i);
      } else {
        NotThroughNewline(s, m.start, i, at + |f|);
      }
    }
  }

  lemma QuietWhenDone(s: string, at: nat, f: string, m: Marks, x: nat)
    requires Proper(m) && OccursAt(s, f, at) && at + |f| < |s| && s[at + |f|] == '\n' && NextHit(f, m, x) == None
    requires |m.end| <= |f| && OccursAt(f, m.end, |f| - |m.end|)
    ensures Quiet(s, at + x, at + |f|, m)
  {
    if Find(f, m.start, x).Some? { EndFollows(f, m, x); }
    QuietRest(s, at, f, m, x);
  }

  lemma SameHitAcrossQuiet(s: string, m: Marks, cursor: nat, at: nat)
    requires cursor <= at && Quiet(s, cursor, at, m)
    ensures NextHit(s, m, cursor) == NextHit(s, m, at)
  {
    FindIsFirst(s, m.start, cursor);
    FindIsFirst(s, m.start, at);
    assert Find(s, m.start, cursor) == Find(s, m.start, at);
  }

  /** Behind the frame nothing looks like a start mark up to the next frame. */
  lemma QuietBehind(s: string, end: nat, n: string, m: Marks)
    requires Proper(m) && IsNoise(n, m) && OccursAt(s, "\n" + n, end)
    ensures Quiet(s, end, end + 1 + |n|, m) && s[end] == '\n'
  {
    assert ("\n" + n)[0] == s[end + 0];
    forall k | 0 <= k < |n| ensures n[k] == s[end + 1 + k] { assert ("\n" + n)[1 + k] == s[end + (1 + k)]; }
    SegmentIsQuiet(s, end + 1, n, m);
    NotThroughNewline(s, m.start, end, end);
  }

  // ----- frames do not disturb each other -----

  /** The turns of the loop over `s`, by cursor. */
  function Turns(s: string, m: Marks): nat -> Option<Hit> { (cursor: nat) => NextHit(s, m, cursor) }

  /** The texts that the scan reads, for any turns. */
  function Gather(turns: nat -> Option<Hit>, cursor: nat, bound: nat): seq<string>
    decreases bound - cursor
  {
    var hit := turns(cursor);
    if hit.None? || !(cursor < hit.value.after <= bound) then []
    else [hit.value.raw] + Gather(turns, hit.value.after, bound)
  }

  function Texts(s: string, m: Marks): seq<string> { Gather(Turns(s, m), 0, |s|) }

  function YieldEach(raws: seq<string>, parse: Parser): Outputs {
    if raws == [] then Some([]) else Then(Yield(raws[0], parse), YieldEach(raws[1..], parse))
  }

  lemma YieldNext(raw: string, raws: seq<string>, parse: Parser)
    ensures YieldEach([raw] + raws, parse) == Then(Yield(raw, parse), YieldEach(raws, parse))
  {
    assert ([raw] + raws)[1..] == raws;
  }

  lemma {:induction false} YieldAppends(a: seq<string>, b: seq<string>, parse: Parser)
    ensures YieldEach(a + b, parse) == Then(YieldEach(a, parse), YieldEach(b, parse))
    decreases |a|
  {
    if a == [] {
      assert a + b == b;
      NothingThen(YieldEach(b, parse));
    } else {
      YieldAppends(a[1..], b, parse);
      assert a + b == [a[0]] + (a[1..] + b);
      YieldNext(a[0], a[1..] + b, parse);
      ThenAssociates(Yield(a[0], parse), YieldEach(a[1..], parse), YieldEach(b, parse));
    }
  }

  lemma {:induction false} ScanIsGather(s: string, m: Marks, cursor: nat, parse: Parser)
    requires m.end != ""
    ensures Scan(s, m, cursor, parse) == YieldEach(Gather(Turns(s, m), cursor, |s|), parse)
    decreases |s| - cursor
  {
    var hit := NextHit(s, m, cursor);
    if hit.None? {
    } else {
      ScanIsGather(s, m, hit.value.after, parse);
      ScanGoesOn(s, m, cursor, hit.value, parse);
      YieldNext(hit.value.raw, Gather(Turns(s, m), hit.value.after, |s|), parse);
    }
  }

  /** The text makes the program raise: it decodes, but not to an object. */
  predicate Raises(raw: string, parse: Parser) { Strip(raw) != "" && parse(Strip(raw)) == NoObject }

  lemma {:induction false} OneRaises(raws: seq<string>, parse: Parser)
    ensures YieldEach(raws, parse) == None <==> exists i :: 0 <= i < |raws| && Raises(raws[i], parse)
    decreases |raws|
  {
    if raws == [] {
    } else {
      OneRaises(raws[1..], parse);
      assert raws == [raws[0]] + raws[1..];
      if YieldEach(raws[1..], parse) == None {
        var i :| 0 <= i < |raws| - 1 && Raises(raws[1..][i], parse);
        assert Raises(raws[i + 1], parse);
      }
    }
  }

  /** The scan raises exactly if one of the texts that it reads does. */
  lemma ScanRaisesExactlyWhen(s: string, m: Marks, parse: Parser)
    requires m.end != ""
    ensures Scan(s, m, 0, parse) == None <==> exists i :: 0 <= i < |Texts(s, m)| && Raises(Texts(s, m)[i], parse)
  {
    ScanIsGather(s, m, 0, parse);
    OneRaises(Texts(s, m), parse);
  }

  predicate FollowsFrom(turns: nat -> Option<Hit>, at: nat, frame: nat -> Option<Hit>, n: nat, next: nat, x: nat) {
    match frame(x)
    case Some(hit) => x < hit.after <= n && turns(at + x) == Some(Hit(hit.raw, at + hit.after))
    case None => turns(at + x) == turns(next)
  }

  /** From `at` on the turns are those of a frame of length `n`, and then those from `next` on. */
  ghost predicate Follows(turns: nat -> Option<Hit>, at: nat, frame: nat -> Option<Hit>, n: nat, next: nat) {
    forall x: nat :: x <= n ==> FollowsFrom(turns, at, frame, n, next, x)
  }

  /** The loop makes progress. */
  ghost predicate Advances(turns: nat -> Option<Hit>) {
    forall c: nat :: turns(c).Some? ==> c < turns(c).value.after
  }

  lemma SameTurnsSameRest(turns: nat -> Option<Hit>, c: nat, next: nat, bound: nat)
    requires c <= next && turns(c) == turns(next) && (turns(next).Some? ==> next < turns(next).value.after)
    ensures Gather(turns, c, bound) == Gather(turns, next, bound)
  {}

  lemma GatherNext(turns: nat -> Option<Hit>, c: nat, bound: nat, hit: Hit)
    requires turns(c) == Some(hit) && c < hit.after <= bound
    ensures Gather(turns, c, bound) == [hit.raw] + Gather(turns, hit.after, bound)
  {}

  lemma GatherEnds(turns: nat -> Option<Hit>, c: nat, bound: nat)
    requires turns(c) == None
    ensures Gather(turns, c, bound) == []
  {}

  lemma Append(a: seq<string>, b: seq<string>, c: seq<string>)
    ensures a + (b + c) == (a + b) + c
  {}

  lemma {:induction false} GatherFrame(turns: nat -> Option<Hit>, at: nat, frame: nat -> Option<Hit>, n: nat, next: nat,
                                       x: nat, bound: nat)
    requires Follows(turns, at, frame, n, next) && x <= n && at + n <= next && next <= bound
    requires Advances(turns)
    ensures Gather(turns, at + x, bound) == Gather(frame, x, n) + Gather(turns, next, bound)
    decreases n - x
  {
    assert FollowsFrom(turns, at, frame, n, next, x);
    match frame(x)
    case None =>
      SameTurnsSameRest(turns, at + x, next, bound);
      GatherEnds(frame, x, n);
    case Some(hit) =>
      GatherFrame(turns, at, frame, n, next, hit.after, bound);
      GatherNext(frame, x, n, hit);
      GatherNext(turns, at + x, bound, Hit(hit.raw, at + hit.after));
      Append([hit.raw], Gather(frame, hit.after, n), Gather(turns, next, bound));
  }

  /** The turns over a whole output follow its frames, one after the other. */
  ghost predicate FollowsAll(turns: nat -> Option<Hit>, at: nat, ps: seq<string>, noise: seq<string>, bound: nat,
                             m: Marks)
    requires |ps| == |noise|
    decreases |ps|
  {
    if ps == [] then turns(at) == None
    else
      var n := |Frame(ps[0], m)|;
      var next := at + n + 1 + |noise[0]|;
      && Follows(turns, at, Turns(Frame(ps[0], m), m), n, next) && next <= bound
      && FollowsAll(turns, next, ps[1..], noise[1..], bound, m)
  }

  lemma QuietJoins(s: string, a: nat, b: nat, c: nat, m: Marks)
    requires Quiet(s, a, b, m) && Quiet(s, b, c, m)
    ensures Quiet(s, a, c, m)
  {}

  lemma TurnAdvances(s: string, m: Marks, c: nat)
    requires m.end != ""
    ensures NextHit(s, m, c).Some? ==> c < NextHit(s, m, c).value.after
  {}

  lemma TurnsAdvance(s: string, m: Marks)
    requires m.end != ""
    ensures Advances(Turns(s, m))
  {
    forall c: nat ensures NextHit(s, m, c).Some? ==> c < NextHit(s, m, c).value.after { TurnAdvances(s, m, c); }
  }

  lemma TurnIsShifted(s: string, at: nat, f: string, m: Marks, x: nat, next: nat)
    requires m.end != "" && OccursAt(s, f, at) && NextHit(f, m, x).Some?
    ensures FollowsFrom(Turns(s, m), at, Turns(f, m), |f|, next, x)
  {
    ShiftedHit(s, at, f, m, x);
    TurnAdvances(f, m, x);
  }

  lemma TurnIsNext(s: string, at: nat, f: string, m: Marks, x: nat, next: nat)
    requires Proper(m) && OccursAt(s, f, at) && at + |f| < |s| && s[at + |f|] == '\n' && x <= |f|
      && NextHit(f, m, x) == None
    requires |m.end| <= |f| && OccursAt(f, m.end, |f| - |m.end|) && at + |f| <= next && Quiet(s, at + |f|, next, m)
    ensures FollowsFrom(Turns(s, m), at, Turns(f, m), |f|, next, x)
  {
    QuietWhenDone(s, at, f, m, x);
    QuietJoins(s, at + x, at + |f|, next, m);
    SameHitAcrossQuiet(s, m, at + x, next);
  }

  lemma TurnFollows(s: string, at: nat, f: string, m: Marks, x: nat, next: nat)
    requires Proper(m) && OccursAt(s, f, at) && at + |f| < |s| && s[at + |f|] == '\n' && x <= |f|
    requires |m.end| <= |f| && OccursAt(f, m.end, |f| - |m.end|) && at + |f| <= next && Quiet(s, at + |f|, next, m)
    ensures FollowsFrom(Turns(s, m), at, Turns(f, m), |f|, next, x)
  {
    if NextHit(f, m, x).Some? { TurnIsShifted(s, at, f, m, x, next); } else { TurnIsNext(s, at, f, m, x, next); }
  }

  lemma TurnsFollow(s: string, at: nat, f: string, m: Marks, next: nat)
    requires Proper(m) && OccursAt(s, f, at) && at + |f| < |s| && s[at + |f|] == '\n'
    requires |m.end| <= |f| && OccursAt(f, m.end, |f| - |m.end|) && at + |f| <= next && Quiet(s, at + |f|, next, m)
    ensures Follows(Turns(s, m), at, Turns(f, m), |f|, next)
  {
    forall x: nat | x <= |f| ensures FollowsFrom(Turns(s, m), at, Turns(f, m), |f|, next, x) {
      TurnFollows(s, at, f, m, x, next);
    }
  }

  lemma FrameFollows(s: string, at: nat, p: string, n: string, m: Marks, f: string, next: nat)
    requires Proper(m) && f == Frame(p, m) && OccursAt(s, f, at) && IsNoise(n, m) && OccursAt(s, "\n" + n, at + |f|)
    requires next == at + |f| + 1 + |n|
    ensures Follows(Turns(s, m), at, Turns(f, m), |f|, next)
  {
    QuietBehind(s, at + |f|, n, m);
    FrameAtStart(p, m);
    TurnsFollow(s, at, f, m, next);
  }

  lemma NothingBehind(s: string, m: Marks)
    requires m.start != ""
    ensures NextHit(s, m, |s|) == None
  {
    FindIsFirst(s, m.start, |s|);
  }

  lemma FollowsOneMore(turns: nat -> Option<Hit>, at: nat, ps: seq<string>, noise: seq<string>, bound: nat, m: Marks,
                       next: nat)
    requires |ps| == |noise| && ps != [] && next == at + |Frame(ps[0], m)| + 1 + |noise[0]| && next <= bound
    requires Follows(turns, at, Turns(Frame(ps[0], m), m), |Frame(ps[0], m)|, next)
    requires FollowsAll(turns, next, ps[1..], noise[1..], bound, m)
    ensures FollowsAll(turns, at, ps, noise, bound, m)
  {}

  lemma FirstFrameIsThere(s: string, at: nat, ps: seq<string>, noise: seq<string>, m: Marks)
    requires |ps| == |noise| && ps != [] && FramesAt(s, at, ps, noise, m)
    ensures var end := at + |Frame(ps[0], m)|;
      && OccursAt(s, Frame(ps[0], m), at) && OccursAt(s, "\n" + noise[0], end)
      && end + 1 + |noise[0]| <= |s| && FramesAt(s, end + 1 + |noise[0]|, ps[1..], noise[1..], m)
  {}

  lemma FrontFollows(s: string, at: nat, ps: seq<string>, noise: seq<string>, m: Marks, next: nat)
    requires Proper(m) && |ps| == |noise| && ps != [] && IsNoise(noise[0], m) && next <= |s|
    requires next == at + |Frame(ps[0], m)| + 1 + |noise[0]|
    requires OccursAt(s, Frame(ps[0], m), at) && OccursAt(s, "\n" + noise[0], at + |Frame(ps[0], m)|)
    requires FollowsAll(Turns(s, m), next, ps[1..], noise[1..], |s|, m)
    ensures FollowsAll(Turns(s, m), at, ps, noise, |s|, m)
  {
    FrameFollows(s, at, ps[0], noise[0], m, Frame(ps[0], m), next);
    FollowsOneMore(Turns(s, m), at, ps, noise, |s|, m, next);
  }

  lemma {:induction false} FramesFollow(s: string, at: nat, ps: seq<string>, noise: seq<string>, m: Marks)
    requires Proper(m) && |ps| == |noise| && FramesAt(s, at, ps, noise, m)
    requires AllNoise(noise, m)
    ensures FollowsAll(Turns(s, m), at, ps, noise, |s|, m)
    decreases |ps|
  {
    if ps == [] {
      NothingBehind(s, m);
    } else {
      var next := at + |Frame(ps[0], m)| + 1 + |noise[0]|;
      FirstFrameIsThere(s, at, ps, noise, m);
      FramesFollow(s, next, ps[1..], noise[1..], m);
      FrontFollows(s, at, ps, noise, m, next);
    }
  }

  /** What the scan reads in each frame alone. */
  function EachAlone(ps: seq<string>, m: Marks): seq<string> {
    if ps == [] then [] else Texts(Frame(ps[0], m), m) + EachAlone(ps[1..], m)
  }

  lemma GatherOneFrame(turns: nat -> Option<Hit>, at: nat, f: string, next: nat, bound: nat, m: Marks,
                       rest: seq<string>)
    requires Follows(turns, at, Turns(f, m), |f|, next) && at + |f| <= next <= bound
    requires Advances(turns) && Gather(turns, next, bound) == rest
    ensures Gather(turns, at, bound) == Texts(f, m) + rest
  {
    GatherFrame(turns, at, Turns(f, m), |f|, next, 0, bound);
  }

  lemma {:induction false} GatherFrames(turns: nat -> Option<Hit>, at: nat, ps: seq<string>, noise: seq<string>,
                                        bound: nat, m: Marks)
    requires Advances(turns) && |ps| == |noise| && FollowsAll(turns, at, ps, noise, bound, m)
    ensures Gather(turns, at, bound) == EachAlone(ps, m)
    decreases |ps|
  {
    if ps == [] {
    } else {
      var next := at + |Frame(ps[0], m)| + 1 + |noise[0]|;
      GatherFrames(turns, next, ps[1..], noise[1..], bound, m);
      GatherOneFrame(turns, at, Frame(ps[0], m), next, bound, m, EachAlone(ps[1..], m));
    }
  }

  lemma LeadIsThere(lead: string, rest: string)
    ensures OccursAt(lead + rest, lead, 0)
  {}

  lemma TranscriptFollows(lead: string, ps: seq<string>, noise: seq<string>, m: Marks)
    requires Proper(m) && IsNoise(lead, m) && |ps| == |noise| && AllNoise(noise, m)
    ensures var s := Transcript(lead, ps, noise, m);
      FollowsAll(Turns(s, m), |lead|, ps, noise, |s|, m) && NextHit(s, m, 0) == NextHit(s, m, |lead|)
  {
    var s := Transcript(lead, ps, noise, m);
    FramesAreThere(lead, ps, noise, m);
    FramesFollow(s, |lead|, ps, noise, m);
    LeadIsThere(lead, Frames(ps, noise, m));
    SegmentIsQuiet(s, 0, lead, m);
    SameHitAcrossQuiet(s, m, 0, |lead|);
  }

  /** For any payloads whatever: the host reads in the whole output what it would read in each frame alone, in order. */
  lemma FramesScanApart(lead: string, ps: seq<string>, noise: seq<string>, m: Marks)
    requires Proper(m) && IsNoise(lead, m) && |ps| == |noise| && AllNoise(noise, m)
    ensures Texts(Transcript(lead, ps, noise, m), m) == EachAlone(ps, m)
  {
    var s := Transcript(lead, ps, noise, m);
    TranscriptFollows(lead, ps, noise, m);
    TurnsAdvance(s, m);
    SameTurnsSameRest(Turns(s, m), 0, |lead|, |s|);
    GatherFrames(Turns(s, m), |lead|, ps, noise, |s|, m);
  }
}
