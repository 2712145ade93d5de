/** The scanner inverts the printer. */
module MarkerTheorems {
  import opened Types
  import opened Markers
  import opened MarkerFrames

  // ----- one frame alone -----

  lemma LineUpTo(f: string, p: string, m: Marks, cut: nat)
    requires IsFrame(f, p, m) && cut <= |p|
    ensures f[|m.start|..|m.start| + 1 + cut] == "\n" + p[..cut]
  {}

  lemma WholeLine(f: string, p: string, m: Marks)
    requires IsFrame(f, p, m)
    ensures f[|m.start|..|m.start| + |p| + 2] == "\n" + p + "\n"
  {
    LineUpTo(f, p, m, |p|);
    assert f[|m.start|..|m.start| + |p| + 2] == f[|m.start|..|m.start| + 1 + |p|] + "\n";
    assert p[..|p|] == p;
  }

  lemma HitsWhole(f: string, p: string, m: Marks)
    requires Proper(m) && IsFrame(f, p, m) && Free(p, m.end)
    ensures NextHit(f, m, 0) == Some(Hit("\n" + p + "\n", |f|))
  {
    var e := |m.start| + |p| + 2;
    FindIs(f, m.start, 0, 0);
    EndFoundAt(f, 0, p, m, e);
    NextHitIs(f, m, 0, 0, e);
    WholeLine(f, p, m);
  }

  /** A payload without the end mark is read whole, and nothing else is. */
  lemma ReadsWhole(f: string, p: string, m: Marks)
    requires Proper(m) && IsFrame(f, p, m) && Free(p, m.end)
    ensures Texts(f, m) == ["\n" + p + "\n"]
  {
    HitsWhole(f, p, m);
    NothingBehind(f, m);
    GatherNext(Turns(f, m), 0, |f|, Hit("\n" + p + "\n", |f|));
    GatherEnds(Turns(f, m), |f|, |f|);
  }

  lemma EndFoundAtCut(f: string, p: string, m: Marks, cut: nat)
    requires Proper(m) && IsFrame(f, p, m) && Find(p, m.end, 0) == Some(cut)
    ensures Find(f, m.end, 0) == Some(|m.start| + 1 + cut)
  {
    var line := |m.start| + 1;
    FindIsFirst(p, m.end, 0);
    OccursWithin(f, p, line, m.end, line + cut);
    EndFoundAt(f, 0, p, m, line + cut);
  }

  lemma HitsCut(f: string, p: string, m: Marks, cut: nat)
    requires Proper(m) && IsFrame(f, p, m) && Find(f, m.end, 0) == Some(|m.start| + 1 + cut) && cut <= |p|
    ensures NextHit(f, m, 0) == Some(Hit("\n" + p[..cut], |m.start| + 1 + cut + |m.end|))
  {
    FindIs(f, m.start, 0, 0);
    NextHitIs(f, m, 0, 0, |m.start| + 1 + cut);
    LineUpTo(f, p, m, cut);
  }

  lemma TextsGoOn(f: string, m: Marks, hit: Hit)
    requires m.end != "" && NextHit(f, m, 0) == Some(hit)
    ensures hit.after <= |f| && Texts(f, m) == [hit.raw] + Gather(Turns(f, m), hit.after, |f|)
  {
    TurnAdvances(f, m, 0);
    GatherNext(Turns(f, m), 0, |f|, hit);
  }

  /** A payload with the end mark is cut at its first one, and the scan goes on behind it. */
  lemma ReadsCut(f: string, p: string, m: Marks, cut: nat)
    requires Proper(m) && IsFrame(f, p, m) && Find(p, m.end, 0) == Some(cut)
    ensures NextHit(f, m, 0) == Some(Hit("\n" + p[..cut], |m.start| + 1 + cut + |m.end|))
  {
    EndFoundAtCut(f, p, m, cut);
    HitsCut(f, p, m, cut);
  }

  // ----- the scanner inverts the printer -----

  /** The text from `i` up to an end mark at `k`, or, for `k` at the end, up to the end of the line. */
  function Piece(p: string, i: nat, k: nat): string
    requires k <= |p|
  {
    if k == |p| then RawBetween(p, i, k) + "\n" else RawBetween(p, i, k)
  }

  /** A start mark at `i`, and an end mark at `k` or the end of the payload. */
  predicate SetsOff(p: string, m: Marks, i: nat, k: nat) {
    OccursAt(p, m.start, i) && k <= |p| && (k == |p| || OccursAt(p, m.end, k))
  }

  /** What the scan can read behind the first end mark of a payload. */
  ghost predicate IsPiece(p: string, m: Marks, raw: string) {
    raw == "" || exists i: nat, k: nat :: SetsOff(p, m, i, k) && raw == Piece(p, i + |m.start|, k)
  }

  /** No text that a mark inside the payload sets off decodes on its own, be it to an object or to something else:
      neither one that ends at an end mark of the payload, nor one that begins at a start mark of it. */
  ghost predicate IsSealed(p: string, m: Marks, parse: Parser) {
    && (forall k :: 0 <= k < |p| && OccursAt(p, m.end, k) ==> Yield("\n" + p[..k], parse) == Some([]))
    && (forall i: nat, k: nat :: SetsOff(p, m, i, k) ==> Yield(Piece(p, i + |m.start|, k), parse) == Some([]))
  }

  /** Inside the payload line a start mark is a start mark of the payload. */
  lemma StartInLine(f: string, p: string, m: Marks, y: nat)
    requires Proper(m) && IsFrame(f, p, m) && |m.start| < y && OccursAt(f, m.start, y)
    ensures y <= |m.start| + 1 + |p| && OccursAt(p, m.start, y - |m.start| - 1)
  {
    var line := |m.start| + 1;
    if y + |m.start| <= line + |p| {
      OccursWithin(f, p, line, m.start, y);
    } else if y <= line + |p| {
      NotThroughNewline(f, m.start, y, line + |p|);
    } else {
      OccursWithin(f, m.end, line + |p| + 1, m.start, y);
    }
  }

  /** Inside the payload line an end mark is an end mark of the payload, or the frame's own. */
  lemma EndInLine(f: string, p: string, m: Marks, e: nat)
    requires Proper(m) && IsFrame(f, p, m) && |m.start| < e && OccursAt(f, m.end, e)
    ensures e == |m.start| + |p| + 2 || (e < |m.start| + 1 + |p| && OccursAt(p, m.end, e - |m.start| - 1))
  {
    var line := |m.start| + 1;
    if e + |m.end| <= line + |p| {
      OccursWithin(f, p, line, m.end, e);
    } else if e <= line + |p| {
      NotThroughNewline(f, m.end, e, line + |p|);
    }
  }

  lemma PieceInside(f: string, p: string, m: Marks, i: nat, k: nat)
    requires IsFrame(f, p, m) && k <= |p|
    ensures var line := |m.start| + 1; RawBetween(f, line + i, line + k) == RawBetween(p, i, k)
  {
    ShiftedPart(f, |m.start| + 1, p, i, k);
  }

  lemma SliceGrows(f: string, a: nat, b: nat)
    requires a <= b < |f|
    ensures f[a..b + 1] == f[a..b] + [f[b]]
  {}

  lemma PieceToEnd(f: string, p: string, m: Marks, i: nat)
    requires IsFrame(f, p, m) && i <= |p|
    ensures var line := |m.start| + 1; RawBetween(f, line + i, line + |p| + 1) == p[i..] + "\n"
  {
    var line := |m.start| + 1;
    PieceInside(f, p, m, i, |p|);
    SliceGrows(f, line + i, line + |p|);
  }

  lemma InnerPieceIs(f: string, p: string, m: Marks, i: nat, k: nat)
    requires IsFrame(f, p, m) && OccursAt(p, m.start, i) && k < |p| && OccursAt(p, m.end, k)
    ensures var line := |m.start| + 1; IsPiece(p, m, RawBetween(f, line + (i + |m.start|), line + k))
  {
    PieceInside(f, p, m, i + |m.start|, k);
    assert SetsOff(p, m, i, k);
  }

  lemma LastPieceIs(f: string, p: string, m: Marks, i: nat)
    requires IsFrame(f, p, m) && OccursAt(p, m.start, i)
    ensures var line := |m.start| + 1; IsPiece(p, m, RawBetween(f, line + (i + |m.start|), line + |p| + 1))
  {
    PieceToEnd(f, p, m, i + |m.start|);
    assert SetsOff(p, m, i, |p|) && RawBetween(p, i + |m.start|, |p|) == p[i + |m.start|..];
  }

  lemma PieceIs(f: string, p: string, m: Marks, i: nat, k: nat)
    requires IsFrame(f, p, m) && OccursAt(p, m.start, i)
    requires k == |p| + 1 || (k < |p| && OccursAt(p, m.end, k))
    ensures var line := |m.start| + 1; IsPiece(p, m, RawBetween(f, line + (i + |m.start|), line + k))
  {
    if k < |p| {
      InnerPieceIs(f, p, m, i, k);
    } else {
      LastPieceIs(f, p, m, i);
    }
  }

  lemma HitIsPiece(f: string, p: string, m: Marks, i: nat, k: nat)
    requires Proper(m) && IsFrame(f, p, m)
    requires OccursAt(f, m.start, |m.start| + 1 + i) && OccursAt(f, m.end, |m.start| + 1 + k)
    ensures IsPiece(p, m, RawBetween(f, |m.start| + 1 + (i + |m.start|), |m.start| + 1 + k))
  {
    StartInLine(f, p, m, |m.start| + 1 + i);
    EndInLine(f, p, m, |m.start| + 1 + k);
    PieceIs(f, p, m, i, k);
  }

  lemma NextRaw(f: string, m: Marks, x: nat, y: nat, e: nat)
    requires Find(f, m.start, x) == Some(y) && Find(f, m.end, y) == Some(e)
    ensures NextHit(f, m, x).Some? && NextHit(f, m, x).value.raw == RawBetween(f, y + |m.start|, e)
    ensures OccursAt(f, m.start, y) && OccursAt(f, m.end, e) && x <= y <= e
  {
    NextHitIs(f, m, x, y, e);
    FindIsFirst(f, m.start, x);
    FindIsFirst(f, m.end, y);
  }

  lemma HitIsPieceAt(f: string, p: string, m: Marks, y: nat, e: nat)
    requires Proper(m) && IsFrame(f, p, m) && |m.start| < y <= e && OccursAt(f, m.start, y) && OccursAt(f, m.end, e)
    ensures IsPiece(p, m, RawBetween(f, y + |m.start|, e))
  {
    var i, k := y - |m.start| - 1, e - |m.start| - 1;
    assert y == |m.start| + 1 + i && e == |m.start| + 1 + k && y + |m.start| == |m.start| + 1 + (i + |m.start|);
    HitIsPiece(f, p, m, i, k);
  }

  lemma NextIsPiece(f: string, p: string, m: Marks, x: nat)
    requires Proper(m) && IsFrame(f, p, m) && |m.start| < x && NextHit(f, m, x).Some?
    ensures IsPiece(p, m, NextHit(f, m, x).value.raw)
  {
    var y := Find(f, m.start, x).value;
    var e := Find(f, m.end, y).value;
    NextRaw(f, m, x, y, e);
    HitIsPieceAt(f, p, m, y, e);
  }

  lemma {:induction false} RestArePieces(f: string, p: string, m: Marks, x: nat)
    requires Proper(m) && IsFrame(f, p, m) && |m.start| < x
    ensures forall raw :: raw in Gather(Turns(f, m), x, |f|) ==> IsPiece(p, m, raw)
    decreases |f| - x
  {
    var hit := NextHit(f, m, x);
    if hit.None? || hit.value.after > |f| {
    } else {
      NextIsPiece(f, p, m, x);
      TurnAdvances(f, m, x);
      RestArePieces(f, p, m, hit.value.after);
      GatherNext(Turns(f, m), x, |f|, hit.value);
    }
  }

  lemma {:induction false} NothingYields(raws: seq<string>, parse: Parser)
    requires forall raw :: raw in raws ==> Yield(raw, parse) == Some([])
    ensures YieldEach(raws, parse) == Some([])
  {
    if raws == [] {
    } else {
      assert raws[0] in raws;
      NothingYields(raws[1..], parse);
      NothingThen(YieldEach(raws[1..], parse));
    }
  }

  lemma PieceYieldsNothing(p: string, m: Marks, raw: string, parse: Parser)
    requires IsSealed(p, m, parse) && IsPiece(p, m, raw)
    ensures Yield(raw, parse) == Some([])
  {}

  /** Of a payload with the end mark, the host reads what lies before the first one, and then only pieces. */
  lemma ReadsPieces(f: string, p: string, m: Marks, cut: nat) returns (rest: seq<string>)
    requires Proper(m) && IsFrame(f, p, m) && Find(p, m.end, 0) == Some(cut)
    ensures Texts(f, m) == ["\n" + p[..cut]] + rest && forall raw :: raw in rest ==> IsPiece(p, m, raw)
  {
    var hit := Hit("\n" + p[..cut], |m.start| + 1 + cut + |m.end|);
    ReadsCut(f, p, m, cut);
    TextsGoOn(f, m, hit);
    RestArePieces(f, p, m, hit.after);
    rest := Gather(Turns(f, m), hit.after, |f|);
  }

  lemma PiecesYieldNothing(p: string, m: Marks, raws: seq<string>, parse: Parser)
    requires IsSealed(p, m, parse) && forall raw :: raw in raws ==> IsPiece(p, m, raw)
    ensures YieldEach(raws, parse) == Some([])
  {
    forall raw | raw in raws ensures Yield(raw, parse) == Some([]) { PieceYieldsNothing(p, m, raw, parse); }
    NothingYields(raws, parse);
  }

  lemma CutYieldsNothing(p: string, m: Marks, cut: nat, parse: Parser)
    requires m.end != "" && IsSealed(p, m, parse) && Find(p, m.end, 0) == Some(cut)
    ensures Yield("\n" + p[..cut], parse) == Some([])
  {
    FindIsFirst(p, m.end, 0);
  }

  lemma AllYieldNothing(p: string, m: Marks, cut: nat, rest: seq<string>, parse: Parser)
    requires m.end != "" && IsSealed(p, m, parse) && Find(p, m.end, 0) == Some(cut)
    requires forall raw :: raw in rest ==> IsPiece(p, m, raw)
    ensures YieldEach(["\n" + p[..cut]] + rest, parse) == Some([])
  {
    CutYieldsNothing(p, m, cut, parse);
    PiecesYieldNothing(p, m, rest, parse);
    YieldNext("\n" + p[..cut], rest, parse);
    NothingThen(YieldEach(rest, parse));
  }

  /** A one-line document that the host can read. If it contains the end mark, it is sealed. */
  ghost predicate IsDocument(p: string, o: ContainerOutput, m: Marks, parse: Parser) {
    IsTrimmed(p) && parse(p) == Reads(o) && (Free(p, m.end) || IsSealed(p, m, parse))
  }

  ghost predicate AreDocuments(ps: seq<string>, outs: seq<ContainerOutput>, m: Marks, parse: Parser) {
    |ps| == |outs| && forall k :: 0 <= k < |ps| ==> IsDocument(ps[k], outs[k], m, parse)
  }

  /** The outputs whose payload does not contain the end mark. */
  function Intact(ps: seq<string>, outs: seq<ContainerOutput>, m: Marks): (r: seq<ContainerOutput>)
    requires |ps| == |outs|
    ensures |r| <= |ps|
  {
    if ps == [] then []
    else (if Find(ps[0], m.end, 0).None? then [outs[0]] else []) + Intact(ps[1..], outs[1..], m)
  }

  lemma WholeYields(p: string, o: ContainerOutput, parse: Parser)
    requires IsTrimmed(p) && parse(p) == Reads(o)
    ensures YieldEach(["\n" + p + "\n"], parse) == Some([o])
  {
    StripLines(p);
    YieldNext("\n" + p + "\n", [], parse);
    ThenNothing(Some([o]));
  }

  lemma EndIsFree(p: string, m: Marks)
    requires Find(p, m.end, 0) == None
    ensures Free(p, m.end)
  {
    FindIsFirst(p, m.end, 0);
  }

  lemma MentionsEnd(p: string, m: Marks, cut: nat)
    requires Find(p, m.end, 0) == Some(cut)
    ensures !Free(p, m.end)
  {
    FindIsFirst(p, m.end, 0);
  }

  lemma ReadDocument(p: string, o: ContainerOutput, m: Marks, parse: Parser)
    requires Proper(m) && IsDocument(p, o, m, parse)
    ensures YieldEach(Texts(Frame(p, m), m), parse) == Some(if Find(p, m.end, 0).None? then [o] else [])
  {
    FrameAtStart(p, m);
    match Find(p, m.end, 0)
    case None =>
      EndIsFree(p, m);
      ReadsWhole(Frame(p, m), p, m);
      WholeYields(p, o, parse);
    case Some(cut) =>
      MentionsEnd(p, m, cut);
      var rest := ReadsPieces(Frame(p, m), p, m, cut);
      AllYieldNothing(p, m, cut, rest, parse);
  }

  lemma {:induction false} EachIsIntact(ps: seq<string>, outs: seq<ContainerOutput>, m: Marks, parse: Parser)
    requires Proper(m) && AreDocuments(ps, outs, m, parse)
    ensures YieldEach(EachAlone(ps, m), parse) == Some(Intact(ps, outs, m))
    decreases |ps|
  {
    if ps == [] {
    } else {
      ReadDocument(ps[0], outs[0], m, parse);
      EachIsIntact(ps[1..], outs[1..], m, parse);
      YieldAppends(Texts(Frame(ps[0], m), m), EachAlone(ps[1..], m), parse);
    }
  }

  lemma {:induction false} AllIntact(ps: seq<string>, outs: seq<ContainerOutput>, m: Marks)
    requires |ps| == |outs|
    ensures Intact(ps, outs, m) == outs <==> forall k :: 0 <= k < |ps| ==> Free(ps[k], m.end)
    decreases |ps|
  {
    if ps == [] {
    } else {
      AllIntact(ps[1..], outs[1..], m);
      FindIsFirst(ps[0], m.end, 0);
      assert outs == [outs[0]] + outs[1..];
      assert forall k :: 1 <= k < |ps| ==> ps[k] == ps[1..][k - 1];
    }
  }

  /** What the scanner finds in what the printer wrote: every output but those whose payload contains the end mark.
      Hence it finds them all exactly when no payload contains it. */
  lemma ScannerInvertsPrinter(lead: string, ps: seq<string>, outs: seq<ContainerOutput>, noise: seq<string>,
                              parse: Parser)
    requires IsNoise(lead, OUTPUT) && |ps| == |noise| && AllNoise(noise, OUTPUT)
    requires AreDocuments(ps, outs, OUTPUT, parse)
    ensures var found := Scan(Transcript(lead, ps, noise, OUTPUT), OUTPUT, 0, parse);
      && found == Some(Intact(ps, outs, OUTPUT))
      && (found == Some(outs) <==> forall k :: 0 <= k < |ps| ==> Free(ps[k], OUTPUT.end))
  {
    OutputIsProper();
    FramesScanApart(lead, ps, noise, OUTPUT);
    ScanIsGather(Transcript(lead, ps, noise, OUTPUT), OUTPUT, 0, parse);
    EachIsIntact(ps, outs, OUTPUT, parse);
    AllIntact(ps, outs, OUTPUT);
  }

  // ----- payloads that quote the marks -----

  lemma NotThrough(s: string, m: string, i: int, x: int)
    requires 0 <= x < |s| && s[x] !in m && i <= x < i + |m|
    ensures !OccursAt(s, m, i)
  {
    if OccursAt(s, m, i) { OccurrenceHas(s, m, i, x); }
  }

  /** No end mark can begin in `head` or pass through braces, and no start mark fits into `tail`. */
  predicate IsApart(m: Marks, head: string, tail: string) {
    m.end != "" && m.end[0] !in head && '{' !in m.end && '}' !in m.end && |tail| < |m.start|
  }

  lemma GroupSecond(a: string, b: string, c: string)
    ensures OccursAt(a + b + c, b, |a|)
  {}

  lemma OccursInside(a: string, b: string, c: string, m: string, i: nat)
    requires OccursAt(b, m, i)
    ensures OccursAt(a + b + c, m, |a| + i)
  {
    GroupSecond(a, b, c);
    OccursWithin(a + b + c, b, |a|, m, |a| + i);
  }

  /** The payload begins with `head` and an end mark. */
  ghost predicate IsCutBehind(p: string, head: string, m: Marks) {
    |head| <= |p| && p[..|head|] == head && OccursAt(p, m.end, |head|)
  }

  /** An end mark behind a beginning in which none can begin is the first one. */
  lemma FirstEnd(p: string, head: string, tail: string, m: Marks)
    requires IsApart(m, head, tail) && IsCutBehind(p, head, m)
    ensures Find(p, m.end, 0) == Some(|head|)
  {
    forall i | 0 <= i < |head| ensures !OccursAt(p, m.end, i) { assert p[i] == head[i]; }
    FindIs(p, m.end, 0, |head|);
  }

  lemma FirstTextOf(f: string, p: string, head: string, tail: string, m: Marks)
    requires Proper(m) && IsFrame(f, p, m) && IsApart(m, head, tail) && IsCutBehind(p, head, m)
    ensures NextHit(f, m, 0) == Some(Hit("\n" + head, |m.start| + 1 + |head| + |m.end|))
  {
    FirstEnd(p, head, tail, m);
    ReadsCut(f, p, m, |head|);
  }

  lemma NoStartBehind(f: string, p: string, m: Marks, x: nat)
    requires Proper(m) && IsFrame(f, p, m) && |p| < x + |m.start|
    ensures NextHit(f, m, |m.start| + 1 + x) == None
  {
    var from := |m.start| + 1 + x;
    FindIsFirst(f, m.start, from);
    if Find(f, m.start, from).Some? { StartInLine(f, p, m, Find(f, m.start, from).value); }
  }

  /** The quoted frame: its start mark is at `i`, `{}` behind it, and its end mark at `k`. */
  ghost predicate QuotesAt(p: string, m: Marks, i: nat, k: nat) {
    && k == i + |m.start| + 2 && k + |m.end| <= |p| && p[k - 2] == '{' && p[k - 1] == '}'
    && OccursAt(p, m.start, i) && OccursAt(p, m.end, k)
  }

  lemma QuotedEnd(p: string, head: string, tail: string, m: Marks, i: nat, k: nat, x: nat)
    requires Proper(m) && IsApart(m, head, tail) && QuotesAt(p, m, i, k) && i <= x < k
    ensures !OccursAt(p, m.end, x)
  {
    if x + |m.end| <= k - 2 {
      OccursWithin(p, m.start, i, m.end, x);
    } else if x <= k - 2 {
      NotThrough(p, m.end, x, k - 2);
    } else {
      NotThrough(p, m.end, x, k - 1);
    }
  }

  lemma QuotedHit(p: string, head: string, tail: string, m: Marks, i: nat, k: nat, after: nat)
    requires Proper(m) && IsApart(m, head, tail) && QuotesAt(p, m, i, k) && after == k + |m.end|
    ensures NextHit(p, m, i) == Some(Hit("{}", after))
  {
    FindIs(p, m.start, i, i);
    forall x | i <= x < k ensures !OccursAt(p, m.end, x) { QuotedEnd(p, head, tail, m, i, k, x); }
    FindIs(p, m.end, i, k);
    NextHitIs(p, m, i, i, k);
    assert p[k - 2..k] == "{}";
  }

  /** An end mark, and a whole frame behind it. */
  function Quoted(m: Marks): string { m.end + m.start + "{}" + m.end }

  lemma QuotedParts(m: Marks)
    ensures var r := Quoted(m); OccursAt(r, m.end, 0) && QuotesAt(r, m, |m.end|, |m.end| + |m.start| + 2)
  {
    var r := Quoted(m);
    assert r == m.end + m.start + ("{}" + m.end) && r == (m.end + m.start + "{}") + m.end + "";
    GroupSecond(m.end, m.start, "{}" + m.end);
    GroupSecond(m.end + m.start + "{}", m.end, "");
  }

  /** A hit in the payload is a hit in its frame, `x` and `after` being the same places there. */
  lemma HitInFrame(f: string, p: string, m: Marks, i: nat, hit: Hit, x: nat, after: nat)
    requires OccursAt(f, p, |m.start| + 1) && NextHit(p, m, i) == Some(hit)
    requires x == |m.start| + 1 + i && after == |m.start| + 1 + hit.after
    ensures NextHit(f, m, x) == Some(Hit(hit.raw, after))
  {
    ShiftedHit(f, |m.start| + 1, p, m, i);
  }

  lemma GatherFrom(f: string, m: Marks, x: nat, hit: Hit, rest: seq<string>)
    requires m.end != "" && NextHit(f, m, x) == Some(hit) && Gather(Turns(f, m), hit.after, |f|) == rest
    ensures Gather(Turns(f, m), x, |f|) == [hit.raw] + rest
  {
    TurnAdvances(f, m, x);
    GatherNext(Turns(f, m), x, |f|, hit);
  }

  /** Too close to the end of the payload for a start mark. */
  lemma NothingReadFrom(f: string, p: string, m: Marks, x: nat)
    requires Proper(m) && IsFrame(f, p, m) && |m.start| + 1 + |p| < x + |m.start| && |m.start| < x
    ensures Gather(Turns(f, m), x, |f|) == []
  {
    NoStartBehind(f, p, m, x - |m.start| - 1);
    GatherEnds(Turns(f, m), x, |f|);
  }

  lemma OneAlone(p: string, m: Marks)
    ensures EachAlone([p], m) == Texts(Frame(p, m), m)
  {
    assert [p][1..] == [];
  }

  /** What the host finds in an output that is one frame. */
  lemma ScanOfOne(p: string, m: Marks, parse: Parser)
    requires Proper(m)
    ensures Scan(Transcript("", [p], [""], m), m, 0, parse) == YieldEach(Texts(Frame(p, m), m), parse)
  {
    FramesScanApart("", [p], [""], m);
    OneAlone(p, m);
    ScanIsGather(Transcript("", [p], [""], m), m, 0, parse);
  }

  lemma MentionParts(head: string, tail: string, m: Marks)
    ensures IsCutBehind(head + m.end + tail, head, m)
  {
    GroupSecond(head, m.end, tail);
  }

  lemma QuoteInside(head: string, r: string, tail: string, m: Marks, i: nat, k: nat)
    requires OccursAt(r, m.end, 0) && QuotesAt(r, m, i, k)
    ensures IsCutBehind(head + r + tail, head, m) && QuotesAt(head + r + tail, m, |head| + i, |head| + k)
  {
    OccursInside(head, r, tail, m.end, 0);
    OccursInside(head, r, tail, m.start, i);
    OccursInside(head, r, tail, m.end, k);
  }

  lemma QuoteParts(head: string, r: string, tail: string, m: Marks, i: nat, k: nat)
    requires r == Quoted(m) && i == |head| + |m.end| && k == i + |m.start| + 2
    ensures var p := head + r + tail;
      IsCutBehind(p, head, m) && QuotesAt(p, m, i, k) && |p| == k + |m.end| + |tail|
  {
    QuotedParts(m);
    QuoteInside(head, r, tail, m, |m.end|, |m.end| + |m.start| + 2);
  }

  lemma FirstInMention(head: string, tail: string, m: Marks, f: string, p: string, after: nat)
    requires Proper(m) && IsApart(m, head, tail) && p == head + m.end + tail && IsFrame(f, p, m)
    requires after == |m.start| + 1 + |head| + |m.end|
    ensures NextHit(f, m, 0) == Some(Hit("\n" + head, after))
  {
    MentionParts(head, tail, m);
    FirstTextOf(f, p, head, tail, m);
  }

  /** A payload whose only end mark, at the end of `head`, has too little behind it for a start mark: only `head` is
      read. */
  lemma MentionTexts(head: string, tail: string, m: Marks, p: string)
    requires Proper(m) && IsApart(m, head, tail) && p == head + m.end + tail
    ensures Texts(Frame(p, m), m) == ["\n" + head] + []
  {
    var f, after := Frame(p, m), |m.start| + 1 + |head| + |m.end|;
    FrameAtStart(p, m);
    FirstInMention(head, tail, m, f, p, after);
    NothingReadFrom(f, p, m, after);
    GatherFrom(f, m, 0, Hit("\n" + head, after), []);
  }

  lemma SecondInQuote(f: string, p: string, head: string, tail: string, m: Marks, i: nat, k: nat,
                                         x: nat, after: nat)
    requires Proper(m) && IsApart(m, head, tail) && IsFrame(f, p, m) && QuotesAt(p, m, i, k)
    requires x == |m.start| + 1 + i && after == |m.start| + 1 + (k + |m.end|)
    ensures NextHit(f, m, x) == Some(Hit("{}", after))
  {
    QuotedHit(p, head, tail, m, i, k, k + |m.end|);
    HitInFrame(f, p, m, i, Hit("{}", k + |m.end|), x, after);
  }

  lemma HitsInQuote(f: string, p: string, head: string, tail: string, m: Marks, x: nat, after: nat)
    requires Proper(m) && IsApart(m, head, tail) && p == head + Quoted(m) + tail && IsFrame(f, p, m)
    requires x == |m.start| + 1 + |head| + |m.end| && after == x + |m.start| + 2 + |m.end|
    ensures NextHit(f, m, 0) == Some(Hit("\n" + head, x)) && NextHit(f, m, x) == Some(Hit("{}", after))
  {
    var i, k := |head| + |m.end|, |head| + |m.end| + |m.start| + 2;
    QuoteParts(head, Quoted(m), tail, m, i, k);
    FirstTextOf(f, p, head, tail, m);
    SecondInQuote(f, p, head, tail, m, i, k, x, after);
  }

  /** Of a payload that quotes a frame behind an end mark, what lies before is read, and what the quoted frame holds. */
  lemma QuoteTexts(head: string, tail: string, m: Marks, p: string)
    requires Proper(m) && IsApart(m, head, tail) && p == head + Quoted(m) + tail
    ensures Texts(Frame(p, m), m) == ["\n" + head] + (["{}"] + [])
  {
    var f, x := Frame(p, m), |m.start| + 1 + |head| + |m.end|;
    var after := x + |m.start| + 2 + |m.end|;
    FrameAtStart(p, m);
    HitsInQuote(f, p, head, tail, m, x, after);
    NothingReadFrom(f, p, m, after);
    GatherFrom(f, m, x, Hit("{}", after), []);
    GatherFrom(f, m, 0, Hit("\n" + head, x), ["{}"] + []);
  }

  lemma TrimmedYields(head: string, parse: Parser)
    requires IsTrimmed(head) && parse(head) == NoJson
    ensures Yield("\n" + head, parse) == Some([])
  {
    assert ("\n" + head)[1..] == head;
    assert StripLeft("\n" + head) == StripLeft(head) == head;
  }

  lemma OneTextYields(head: string, parse: Parser)
    requires IsTrimmed(head) && parse(head) == NoJson
    ensures YieldEach(["\n" + head] + [], parse) == Some([])
  {
    TrimmedYields(head, parse);
    YieldNext("\n" + head, [], parse);
    ThenNothing(Some([]));
  }

  lemma TwoTextsYield(head: string, parse: Parser, inner: ContainerOutput)
    requires IsTrimmed(head) && parse(head) == NoJson && parse("{}") == Reads(inner)
    ensures YieldEach(["\n" + head] + (["{}"] + []), parse) == Some([inner])
  {
    TrimmedYields(head, parse);
    YieldNext("\n" + head, ["{}"] + [], parse);
    YieldNext("{}", [], parse);
    assert Yield("{}", parse) == Some([inner]);
    ThenNothing(Some([inner]));
    NothingThen(Some([inner]));
  }

  // ----- such payloads as the agent prints them -----

  const HEAD := "{\"status\": \"success\", \"result\": \""

  const TAIL := "\", \"newSessionId\": null}"

  /** The document that the agent prints for a result that JSON writes as it is, in a first session. */
  function Payload(result: string): string { HEAD + result + TAIL }

  lemma HeadIsPlain()
    ensures IsTrimmed(HEAD) && '-' !in HEAD && |TAIL| < |OUTPUT.start|
  {}

  lemma EndIsPlain()
    ensures OUTPUT.end != "" && OUTPUT.end[0] == '-' && '{' !in OUTPUT.end && '}' !in OUTPUT.end
  {}

  /** An agent answers with the end mark: the host, which can read the document and not its beginning, finds nothing. */
  lemma MentionIsLost(o: ContainerOutput, parse: Parser)
    requires parse(Payload(OUTPUT.end)) == Reads(o) && parse(HEAD) == NoJson
    ensures Scan(Transcript("", [Payload(OUTPUT.end)], [""], OUTPUT), OUTPUT, 0, parse) == Some([])
  {
    OutputIsProper();
    HeadIsPlain();
    EndIsPlain();
    ScanOfOne(Payload(OUTPUT.end), OUTPUT, parse);
    MentionTexts(HEAD, TAIL, OUTPUT, Payload(OUTPUT.end));
    OneTextYields(HEAD, parse);
  }

  /** What the program makes of an object without keys. */
  const NO_KEYS := ContainerOutput("error", None, None, None)

  /** An agent answers with an end mark and a whole frame behind it: the host finds what the quoted frame says, here an
      error, in place of the answer. */
  lemma InnerFrameIsFound(o: ContainerOutput, parse: Parser)
    requires parse(Payload(Quoted(OUTPUT))) == Reads(o) && parse(HEAD) == NoJson && parse("{}") == Reads(NO_KEYS)
    ensures Scan(Transcript("", [Payload(Quoted(OUTPUT))], [""], OUTPUT), OUTPUT, 0, parse) == Some([NO_KEYS])
  {
    OutputIsProper();
    HeadIsPlain();
    EndIsPlain();
    ScanOfOne(Payload(Quoted(OUTPUT)), OUTPUT, parse);
    QuoteTexts(HEAD, TAIL, OUTPUT, Payload(Quoted(OUTPUT)));
    TwoTextsYield(HEAD, parse, NO_KEYS);
  }
}
