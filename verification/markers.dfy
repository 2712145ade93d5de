/** The output frames: the agent prints them (nanoclaw/agent_runner.py), the host scans them back
    (nanoclaw/container_runner.py). */
module Markers {
  import opened Types

  /** What the host makes of one JSON object. */
  datatype ContainerOutput = ContainerOutput(
    status: string, result: Option<string>, newSessionId: Option<string>, error: Option<string>)

  /** What `json.loads` and the reading of the keys make of a text: it does not decode; it decodes, but to something
      that has no keys, where the program raises; or it is an output. */
  datatype Reading = NoJson | NoObject | Reads(output: ContainerOutput)

  type Parser = string -> Reading

  /** None is an exception. */
  type Outputs = Option<seq<ContainerOutput>>

  /** A pair of markers. The program's are OUTPUT. */
  datatype Marks = Marks(start: string, end: string)

  const OUTPUT := Marks("---NANOCLAW_OUTPUT_START---", "---NANOCLAW_OUTPUT_END---")

  // ----- finding -----

  predicate OccursAt(s: string, m: string, i: int) {
    0 <= i && i + |m| <= |s| && forall k :: 0 <= k < |m| ==> m[k] == s[i + k]
  }

  /** `s.find(m, from)`: None stands for -1. */
  function Find(s: string, m: string, from: nat): (r: Option<nat>)
    ensures r.Some? ==> from <= r.value && r.value + |m| <= |s|
    decreases |s| - from
  {
    if from + |m| > |s| then None
    else if OccursAt(s, m, from) then Some(from)
    else Find(s, m, from + 1)
  }

  /** The first occurrence, if there is one. */
  lemma {:induction false} FindIsFirst(s: string, m: string, from: nat)
    ensures var r := Find(s, m, from);
      if r.Some?
      then OccursAt(s, m, r.value) && forall i :: from <= i < r.value ==> !OccursAt(s, m, i)
      else forall i :: from <= i ==> !OccursAt(s, m, i)
    decreases |s| - from
  {
    if from + |m| > |s| || OccursAt(s, m, from) {
    } else {
      FindIsFirst(s, m, from + 1);
    }
  }

  // ----- stripping -----

  /** The characters that `str.strip` removes. */
  predicate IsSpace(c: char) {
    || '\U{0009}' <= c <= '\U{000D}' || '\U{001C}' <= c <= '\U{0020}' || c == '\U{0085}' || c == '\U{00A0}'
    || c == '\U{1680}' || '\U{2000}' <= c <= '\U{200A}' || c == '\U{2028}' || c == '\U{2029}' || c == '\U{202F}'
    || c == '\U{205F}' || c == '\U{3000}'
  }

  function StripLeft(s: string): string {
    if s != [] && IsSpace(s[0]) then StripLeft(s[1..]) else s
  }

  function StripRight(s: string): string {
    if s != [] && IsSpace(s[|s| - 1]) then StripRight(s[..|s| - 1]) else s
  }

  function Strip(s: string): string { StripRight(StripLeft(s)) }

  predicate IsTrimmed(s: string) { s != [] && !IsSpace(s[0]) && !IsSpace(s[|s| - 1]) }

  predicate IsBlank(s: string) { forall i :: 0 <= i < |s| ==> IsSpace(s[i]) }

  lemma {:induction false} StripLeftIs(a: string, t: string)
    requires IsBlank(a) && (t == "" || !IsSpace(t[0]))
    ensures StripLeft(a + t) == t
    decreases |a|
  {
    if a == "" {
      assert a + t == t;
    } else {
      assert (a + t)[1..] == a[1..] + t && (a + t)[0] == a[0];
      StripLeftIs(a[1..], t);
    }
  }

  lemma {:induction false} StripRightIs(t: string, b: string)
    requires IsBlank(b) && (t == "" || !IsSpace(t[|t| - 1]))
    ensures StripRight(t + b) == t
    decreases |b|
  {
    if b == "" {
      assert t + b == t;
    } else {
      var s, front := t + b, b[..|b| - 1];
      assert s[..|s| - 1] == t + front && s[|s| - 1] == b[|b| - 1];
      StripRightIs(t, front);
    }
  }

  /** Stripping takes the white space off both ends, and nothing else. */
  lemma StripIs(a: string, p: string, b: string)
    requires IsBlank(a) && IsTrimmed(p) && IsBlank(b)
    ensures Strip(a + (p + b)) == p
  {
    StripLeftIs(a, p + b);
    StripRightIs(p, b);
  }

  lemma BlankIsStripped(a: string)
    requires IsBlank(a)
    ensures Strip(a) == ""
  {
    StripLeftIs(a, "");
    assert a + "" == a;
  }

  lemma StripLines(p: string)
    requires IsTrimmed(p)
    ensures Strip("\n" + p + "\n") == p
  {
    StripIs("\n", p, "\n");
    assert "\n" + p + "\n" == "\n" + (p + "\n");
  }

  // ----- scanning -----

  /** What one frame yields: nothing if it is blank or does not decode. */
  function Yield(raw: string, parse: Parser): Outputs {
    var text := Strip(raw);
    if text == "" then Some([])
    else
      match parse(text)
      case Reads(o) => Some([o])
      case NoJson => Some([])
      case NoObject => None
  }

  /** One after the other; an exception ends it all. */
  function Then(a: Outputs, b: Outputs): Outputs {
    if a.None? || b.None? then None else Some(a.value + b.value)
  }

  /** `stdout[start + len(START):end]`: empty where the two cross, as slices are in Python. */
  function RawBetween(s: string, from: nat, end: nat): string
    requires end <= |s|
  {
    if from <= end then s[from..end] else ""
  }

  /** What one turn of the loop finds: the text between the marks, and where to go on. */
  datatype Hit = Hit(raw: string, after: nat)

  function NextHit(s: string, m: Marks, cursor: nat): (r: Option<Hit>)
    ensures r.Some? ==> cursor + |m.end| <= r.value.after <= |s|
  {
    var start := Find(s, m.start, cursor);
    if start.None? then None
    else
      var end := Find(s, m.end, start.value);
      if end.None? then None else Some(Hit(RawBetween(s, start.value + |m.start|, end.value), end.value + |m.end|))
  }

  lemma NextHitIs(s: string, m: Marks, cursor: nat, start: nat, end: nat)
    requires Find(s, m.start, cursor) == Some(start) && Find(s, m.end, start) == Some(end)
    ensures NextHit(s, m, cursor) == Some(Hit(RawBetween(s, start + |m.start|, end), end + |m.end|))
  {}

  /** `_extract_markers` from position `cursor` on. */
  function Scan(s: string, m: Marks, cursor: nat, parse: Parser): Outputs
    requires m.end != ""
    decreases |s| - cursor
  {
    var hit := NextHit(s, m, cursor);
    if hit.None? then Some([]) else Then(Yield(hit.value.raw, parse), Scan(s, m, hit.value.after, parse))
  }

  lemma ScanGoesOn(s: string, m: Marks, cursor: nat, hit: Hit, parse: Parser)
    requires m.end != "" && NextHit(s, m, cursor) == Some(hit)
    ensures Scan(s, m, cursor, parse) == Then(Yield(hit.raw, parse), Scan(s, m, hit.after, parse))
  {}

  lemma ThenAssociates(a: Outputs, b: Outputs, c: Outputs)
    ensures Then(a, Then(b, c)) == Then(Then(a, b), c)
  {
    if a.Some? && b.Some? && c.Some? { assert a.value + (b.value + c.value) == (a.value + b.value) + c.value; }
  }

  lemma NothingThen(b: Outputs)
    ensures Then(Some([]), b) == b
  {
    if b.Some? { assert [] + b.value == b.value; }
  }

  lemma ThenNothing(a: Outputs)
    ensures Then(a, Some([])) == a
  {
    if a.Some? { assert a.value + [] == a.value; }
  }

  /** At `cursor`, `sofar` is what the scan has collected of `s`. */
  ghost predicate Collected(s: string, m: Marks, cursor: nat, parse: Parser, sofar: Outputs)
    requires m.end != ""
  {
    Then(sofar, Scan(s, m, cursor, parse)) == Scan(s, m, 0, parse)
  }

  lemma CollectStarts(s: string, m: Marks, parse: Parser)
    requires m.end != ""
    ensures Collected(s, m, 0, parse, Some([]))
  {
    NothingThen(Scan(s, m, 0, parse));
  }

  lemma CollectGoesOn(s: string, m: Marks, cursor: nat, hit: Hit, parse: Parser, sofar: Outputs, sofar': Outputs)
    requires m.end != "" && NextHit(s, m, cursor) == Some(hit) && Collected(s, m, cursor, parse, sofar)
    requires sofar' == Then(sofar, Yield(hit.raw, parse))
    ensures Collected(s, m, hit.after, parse, sofar')
  {
    ScanGoesOn(s, m, cursor, hit, parse);
    ThenAssociates(sofar, Yield(hit.raw, parse), Scan(s, m, hit.after, parse));
  }

  lemma CollectEnds(s: string, m: Marks, cursor: nat, parse: Parser, sofar: seq<ContainerOutput>)
    requires m.end != "" && NextHit(s, m, cursor) == None && Collected(s, m, cursor, parse, Some(sofar))
    ensures Some(sofar) == Scan(s, m, 0, parse)
  {
    ThenNothing(Some(sofar));
  }

  /** The loop body up to `raw`: None is where the loop breaks. */
  method Seek(stdout: string, m: Marks, cursor: nat) returns (hit: Option<Hit>)
    ensures hit == NextHit(stdout, m, cursor)
  {
    var start := Find(stdout, m.start, cursor);
    if start.None? {
      return None;
    }
    var end := Find(stdout, m.end, start.value);
    if end.None? {
      return None;
    }
    return Some(Hit(RawBetween(stdout, start.value + |m.start|, end.value), end.value + |m.end|));
  }

  /** The loop body from `raw` on: blank and undecodable texts are skipped. None is where it raises. */
  method Collect(outputs: seq<ContainerOutput>, raw: string, parse: Parser) returns (outputs': Outputs)
    ensures outputs' == Then(Some(outputs), Yield(raw, parse))
  {
    var text := Strip(raw);
    ThenNothing(Some(outputs));
    if text == "" {
      return Some(outputs);
    }
    match parse(text) {
      case NoJson => return Some(outputs);
      case NoObject => return None;
      case Reads(output) => return Some(outputs + [output]);
    }
  }

  method ExtractMarkers(stdout: string, m: Marks, parse: Parser) returns (result: Outputs)
    requires m.end != ""
    ensures result == Scan(stdout, m, 0, parse)
  {
    var outputs := [];
    var cursor := 0;
    CollectStarts(stdout, m, parse);
    while true
      invariant Collected(stdout, m, cursor, parse, Some(outputs))
      decreases |stdout| - cursor
    {
      var hit := Seek(stdout, m, cursor);
      if hit.None? {
        CollectEnds(stdout, m, cursor, parse, outputs);
        return Some(outputs);
      }
      var collected := Collect(outputs, hit.value.raw, parse);
      CollectGoesOn(stdout, m, cursor, hit.value, parse, Some(outputs), collected);
      if collected.None? {
        return None;
      }
      outputs, cursor := collected.value, hit.value.after;
    }
  }

  // ----- a longer output has the same beginning -----

  lemma OccursInPrefix(s: string, k: nat, m: string, i: int)
    requires k <= |s|
    ensures OccursAt(s[..k], m, i) <==> OccursAt(s, m, i) && i + |m| <= k
  {
  }

  lemma FindInPrefix(s: string, k: nat, m: string, from: nat)
    requires k <= |s|
    ensures Find(s[..k], m, from).Some? ==> Find(s, m, from) == Find(s[..k], m, from)
  {
    forall i ensures OccursAt(s[..k], m, i) <==> OccursAt(s, m, i) && i + |m| <= k { OccursInPrefix(s, k, m, i); }
    FindIsFirst(s, m, from);
    FindIsFirst(s[..k], m, from);
  }

  lemma SamePart(s: string, k: nat, from: nat, end: nat)
    requires end <= k <= |s|
    ensures RawBetween(s[..k], from, end) == RawBetween(s, from, end)
  {}

  lemma NextHitInPrefix(s: string, k: nat, m: Marks, cursor: nat)
    requires k <= |s|
    ensures NextHit(s[..k], m, cursor).Some? ==> NextHit(s, m, cursor) == NextHit(s[..k], m, cursor)
  {
    FindInPrefix(s, k, m.start, cursor);
    var start := Find(s[..k], m.start, cursor);
    if start.Some? {
      FindInPrefix(s, k, m.end, start.value);
      var end := Find(s[..k], m.end, start.value);
      if end.Some? {
        NextHitIs(s[..k], m, cursor, start.value, end.value);
        NextHitIs(s, m, cursor, start.value, end.value);
        SamePart(s, k, start.value + |m.start|, end.value);
      }
    }
  }

  /** What is found in the longer output goes on from what is found in the shorter one, or raises; where the shorter one
      raises the longer one does too. */
  predicate GoesOn(short: Outputs, long: Outputs) { long.None? || (short.Some? && short.value <= long.value) }

  /** What is found in a part of the output is the beginning of what is found in all of it. */
  lemma {:induction false} ScanIsMonotone(s: string, m: Marks, k: nat, cursor: nat, parse: Parser)
    requires k <= |s| && m.end != ""
    ensures GoesOn(Scan(s[..k], m, cursor, parse), Scan(s, m, cursor, parse))
    decreases |s| - cursor
  {
    NextHitInPrefix(s, k, m, cursor);
    var hit := NextHit(s[..k], m, cursor);
    if hit.None? {
    } else {
      ScanIsMonotone(s, m, k, hit.value.after, parse);
    }
  }

  // ----- the printer -----

  /** One frame without its last newline. */
  function Frame(p: string, m: Marks): string { m.start + "\n" + p + "\n" + m.end }

  /** The agent's standard output. */
  class Output {
    var text: string

    method WriteOutput(payload: string, m: Marks)
      modifies this
      ensures text == old(text) + (Frame(payload, m) + "\n")
    {
      text := text + m.start + "\n";
      text := text + payload + "\n";
      text := text + m.end + "\n";
      assert text == old(text) + (Frame(payload, m) + "\n");
    }
  }

  /** Frames, each with its newline and followed by what else was printed. */
  function Frames(ps: seq<string>, noise: seq<string>, m: Marks): string
    requires |ps| == |noise|
  {
    if ps == [] then "" else Frame(ps[0], m) + (("\n" + noise[0]) + Frames(ps[1..], noise[1..], m))
  }

  /** A whole output: something, then the frames. */
  function Transcript(lead: string, ps: seq<string>, noise: seq<string>, m: Marks): string
    requires |ps| == |noise|
  {
    lead + Frames(ps, noise, m)
  }
}
