/** The encoding of messages for the agent's prompt (nanoclaw/router.py), and a decoder that inverts it. */
module Prompt {
  import opened Types

  // ----- escaping -----

  /** `s.replace(c, r)` for a single character. */
  function Replace(s: string, c: char, r: string): string {
    if s == "" then "" else (if s[0] == c then r else [s[0]]) + Replace(s[1..], c, r)
  }

  /** `html.escape(value, quote=True)`: five replacements, one after the other. */
  function EscapeXml(value: string): string {
    var amp := Replace(value, '&', "&amp;");
    var lt := Replace(amp, '<', "&lt;");
    var gt := Replace(lt, '>', "&gt;");
    var quot := Replace(gt, '"', "&quot;");
    Replace(quot, '\'', "&#x27;")
  }

  function EscapeChar(c: char): string {
    match c
    case '&' => "&amp;"
    case '<' => "&lt;"
    case '>' => "&gt;"
    case '"' => "&quot;"
    case '\'' => "&#x27;"
    case _ => [c]
  }

  lemma Glue(x: string, y: string, z: string)
    ensures x + (y + z) == (x + y) + z
  {}

  lemma {:induction false} ReplaceAppends(a: string, b: string, c: char, r: string)
    ensures Replace(a + b, c, r) == Replace(a, c, r) + Replace(b, c, r)
    decreases |a|
  {
    if a == "" {
      assert a + b == b;
    } else {
      ReplaceAppends(a[1..], b, c, r);
      assert (a + b)[1..] == a[1..] + b && (a + b)[0] == a[0];
      Glue(if a[0] == c then r else [a[0]], Replace(a[1..], c, r), Replace(b, c, r));
    }
  }

  lemma {:induction false} ReplaceLeaves(s: string, c: char, r: string)
    requires c !in s
    ensures Replace(s, c, r) == s
    decreases |s|
  {
    if s == "" {
    } else {
      ReplaceLeaves(s[1..], c, r);
    }
  }

  /** One replacement turns `s`, the character or a text without it, into `t`. */
  predicate Turns(s: string, c: char, r: string, t: string) { (s == [c] && t == r) || (c !in s && t == s) }

  lemma ReplaceTurns(s: string, c: char, r: string, t: string)
    requires Turns(s, c, r, t)
    ensures Replace(s, c, r) == t
  {
    if s == [c] {
      assert s[1..] == "";
    } else {
      ReplaceLeaves(s, c, r);
    }
  }

  lemma EscapeTurns(s0: string, s1: string, s2: string, s3: string, s4: string, s5: string)
    requires Turns(s0, '&', "&amp;", s1) && Turns(s1, '<', "&lt;", s2) && Turns(s2, '>', "&gt;", s3)
    requires Turns(s3, '"', "&quot;", s4) && Turns(s4, '\'', "&#x27;", s5)
    ensures EscapeXml(s0) == s5
  {
    ReplaceTurns(s0, '&', "&amp;", s1);
    ReplaceTurns(s1, '<', "&lt;", s2);
    ReplaceTurns(s2, '>', "&gt;", s3);
    ReplaceTurns(s3, '"', "&quot;", s4);
    ReplaceTurns(s4, '\'', "&#x27;", s5);
  }

  /** The replacements do not disturb each other: none touches what an earlier one has put in. */
  lemma EscapeOne(c: char)
    ensures EscapeXml([c]) == EscapeChar(c)
  {
    match c
    case '&' => EscapeTurns([c], "&amp;", "&amp;", "&amp;", "&amp;", "&amp;");
    case '<' => EscapeTurns([c], [c], "&lt;", "&lt;", "&lt;", "&lt;");
    case '>' => EscapeTurns([c], [c], [c], "&gt;", "&gt;", "&gt;");
    case '"' => EscapeTurns([c], [c], [c], [c], "&quot;", "&quot;");
    case '\'' => EscapeTurns([c], [c], [c], [c], [c], "&#x27;");
    case _ => EscapeTurns([c], [c], [c], [c], [c], [c]);
  }

  lemma EscapeAppends(a: string, b: string)
    ensures EscapeXml(a + b) == EscapeXml(a) + EscapeXml(b)
  {
    ReplaceAppends(a, b, '&', "&amp;");
    var a1, b1 := Replace(a, '&', "&amp;"), Replace(b, '&', "&amp;");
    ReplaceAppends(a1, b1, '<', "&lt;");
    var a2, b2 := Replace(a1, '<', "&lt;"), Replace(b1, '<', "&lt;");
    ReplaceAppends(a2, b2, '>', "&gt;");
    var a3, b3 := Replace(a2, '>', "&gt;"), Replace(b2, '>', "&gt;");
    ReplaceAppends(a3, b3, '"', "&quot;");
    ReplaceAppends(Replace(a3, '"', "&quot;"), Replace(b3, '"', "&quot;"), '\'', "&#x27;");
  }

  lemma EscapeFirst(s: string)
    requires s != ""
    ensures EscapeXml(s) == EscapeChar(s[0]) + EscapeXml(s[1..])
  {
    assert s == [s[0]] + s[1..];
    EscapeAppends([s[0]], s[1..]);
    EscapeOne(s[0]);
  }

  predicate IsInert(c: char) { c != '<' && c != '>' && c != '"' && c != '\'' }

  lemma CharIsInert(c: char)
    ensures forall x :: x in EscapeChar(c) ==> IsInert(x)
  {}

  /** Escaped text stays between the quotes and the tags. */
  lemma {:induction false} EscapedIsInert(s: string)
    ensures forall c :: c in EscapeXml(s) ==> IsInert(c)
    decreases |s|
  {
    if s == "" {
    } else {
      EscapedIsInert(s[1..]);
      EscapeFirst(s);
      CharIsInert(s[0]);
    }
  }

  function Unescape(s: string): string
    decreases |s|
  {
    if s == "" then ""
    else if "&amp;" <= s then "&" + Unescape(s[5..])
    else if "&lt;" <= s then "<" + Unescape(s[4..])
    else if "&gt;" <= s then ">" + Unescape(s[4..])
    else if "&quot;" <= s then "\"" + Unescape(s[6..])
    else if "&#x27;" <= s then "'" + Unescape(s[6..])
    else [s[0]] + Unescape(s[1..])
  }

  lemma {:induction false} UnescapeFirst(c: char, rest: string)
    ensures Unescape(EscapeChar(c) + rest) == [c] + Unescape(rest)
  {
    var s := EscapeChar(c) + rest;
    assert s[|EscapeChar(c)|..] == rest;
    if c == '&' {
      assert "&amp;" <= s;
    } else if c == '<' {
      assert s[1] == 'l' && "&lt;" <= s;
    } else if c == '>' {
      assert s[1] == 'g' && "&gt;" <= s;
    } else if c == '"' {
      assert s[1] == 'q' && "&quot;" <= s;
    } else if c == '\'' {
      assert s[1] == '#' && "&#x27;" <= s;
    } else {
      assert s[0] == c;
    }
  }

  lemma {:induction false} UnescapeInverts(s: string)
    ensures Unescape(EscapeXml(s)) == s
    decreases |s|
  {
    if s == "" {
    } else {
      EscapeFirst(s);
      UnescapeFirst(s[0], EscapeXml(s[1..]));
      UnescapeInverts(s[1..]);
    }
  }

  // ----- formatting -----

  /** What the agent is told of a message. */
  datatype Entry = Entry(sender: string, time: string, content: string)

  function EntryOf(m: NewMessage, display: string -> string): Entry {
    Entry(m.senderName, display(m.timestamp), m.content)
  }

  function Escaped(e: Entry): Entry { Entry(EscapeXml(e.sender), EscapeXml(e.time), EscapeXml(e.content)) }

  /** The markup around the fields of a message, before the lines and behind them. The program's is XML. */
  datatype Tags = Tags(lead: string, open: string, middle: string, close: string, end: string)

  const XML := Tags("<messages>\n", "<message sender=\"", " time=\"", "/message>", "\n</messages>")

  /** The line of an escaped entry. */
  function Line(x: Entry, t: Tags): string {
    t.open + (x.sender + "\"" + (t.middle + (x.time + "\"" + (">" + (x.content + "<" + t.close)))))
  }

  function Lines(xs: seq<Entry>, t: Tags): (r: seq<string>)
    ensures |r| == |xs|
  {
    if xs == [] then [] else [Line(xs[0], t)] + Lines(xs[1..], t)
  }

  /** `"\n".join(lines)`. */
  function Join(lines: seq<string>): string {
    if lines == [] then "" else if |lines| == 1 then lines[0] else lines[0] + ("\n" + Join(lines[1..]))
  }

  function Body(xs: seq<Entry>, t: Tags): string { Join(Lines(xs, t)) + t.end }

  function Header(timezone: string): string { "<context timezone=\"" + EscapeXml(timezone) + "\" />\n" }

  function Entries(ms: seq<NewMessage>, display: string -> string): (r: seq<Entry>)
    ensures |r| == |ms| && forall i :: 0 <= i < |ms| ==> r[i] == EntryOf(ms[i], display)
  {
    seq(|ms|, i requires 0 <= i < |ms| => EntryOf(ms[i], display))
  }

  function AllEscaped(es: seq<Entry>): (r: seq<Entry>)
    ensures |r| == |es| && forall i :: 0 <= i < |es| ==> r[i] == Escaped(es[i])
  {
    seq(|es|, i requires 0 <= i < |es| => Escaped(es[i]))
  }

  /** The prompt of `format_messages`. */
  function Formatted(es: seq<Entry>, header: string, t: Tags): string { (header + t.lead) + Body(AllEscaped(es), t) }

  lemma {:induction false} LinesGrow(xs: seq<Entry>, x: Entry, t: Tags)
    ensures Lines(xs + [x], t) == Lines(xs, t) + [Line(x, t)]
    decreases |xs|
  {
    if xs == [] {
      assert xs + [x] == [x];
    } else {
      assert (xs + [x])[1..] == xs[1..] + [x];
      LinesGrow(xs[1..], x, t);
    }
  }

  // ----- decoding -----

  function Expect(s: string, literal: string): (r: Option<string>)
    ensures r.Some? ==> |r.value| + |literal| == |s|
  {
    if literal <= s then Some(s[|literal|..]) else None
  }

  /** The text before the first `c`, and the text behind it. */
  function Until(s: string, c: char): (r: Option<(string, string)>)
    ensures r.Some? ==> |r.value.0| + 1 + |r.value.1| == |s|
    decreases |s|
  {
    if s == "" then None
    else if s[0] == c then Some(("", s[1..]))
    else
      var rest := Until(s[1..], c);
      if rest.None? then None else Some(([s[0]] + rest.value.0, rest.value.1))
  }

  /** `literal`, then text up to `c`. */
  function Field(s: string, literal: string, c: char): (r: Option<(string, string)>)
    ensures r.Some? ==> |r.value.1| < |s|
  {
    var rest := Expect(s, literal);
    if rest.None? then None else Until(rest.value, c)
  }

  /** One line, still escaped, and what follows it. */
  function ParseLine(s: string, t: Tags): (r: Option<(Entry, string)>)
    ensures r.Some? ==> |r.value.1| < |s|
  {
    var sender := Field(s, t.open, '"');
    if sender.None? then None
    else
      var time := Field(sender.value.1, t.middle, '"');
      if time.None? then None
      else
        var content := Field(time.value.1, ">", '<');
        if content.None? then None
        else
          var rest := Expect(content.value.1, t.close);
          if rest.None? then None
          else Some((Entry(sender.value.0, time.value.0, content.value.0), rest.value))
  }

  function ParseLines(s: string, t: Tags): Option<seq<Entry>>
    decreases |s|
  {
    var first := ParseLine(s, t);
    if first.None? then None
    else if first.value.1 == t.end then Some([first.value.0])
    else
      var rest := Expect(first.value.1, "\n");
      if rest.None? then None
      else
        var more := ParseLines(rest.value, t);
        if more.None? then None else Some([first.value.0] + more.value)
  }

  function ParseBody(s: string, t: Tags): Option<seq<Entry>> { if s == t.end then Some([]) else ParseLines(s, t) }

  function Unescaped(x: Entry): Entry { Entry(Unescape(x.sender), Unescape(x.time), Unescape(x.content)) }

  function AllUnescaped(xs: seq<Entry>): (r: seq<Entry>)
    ensures |r| == |xs| && forall i :: 0 <= i < |xs| ==> r[i] == Unescaped(xs[i])
  {
    seq(|xs|, i requires 0 <= i < |xs| => Unescaped(xs[i]))
  }

  function Decode(prompt: string, header: string, t: Tags): Option<seq<Entry>> {
    var body := Expect(prompt, header + t.lead);
    if body.None? then None
    else
      var xs := ParseBody(body.value, t);
      if xs.None? then None else Some(AllUnescaped(xs.value))
  }

  // ----- parsing inverts joining -----

  /** The first characters tell a line from the end of the body. */
  predicate Apart(t: Tags) { |t.open| >= 2 && |t.end| >= 3 && t.open[0] != t.end[0] && t.open[1] != t.end[2] }

  predicate IsInertText(s: string) { forall i :: 0 <= i < |s| ==> IsInert(s[i]) }

  predicate IsInertEntry(x: Entry) { IsInertText(x.sender) && IsInertText(x.time) && IsInertText(x.content) }

  lemma ExpectFinds(literal: string, rest: string)
    ensures Expect(literal + rest, literal) == Some(rest)
  {}

  lemma {:induction false} UntilFinds(a: string, c: char, rest: string)
    requires forall i :: 0 <= i < |a| ==> a[i] != c
    ensures Until(a + [c] + rest, c) == Some((a, rest))
    decreases |a|
  {
    var s := a + [c] + rest;
    if a == "" {
      assert s[1..] == rest;
    } else {
      assert s[1..] == a[1..] + [c] + rest && s[0] == a[0];
      UntilFinds(a[1..], c, rest);
      assert [a[0]] + a[1..] == a;
    }
  }

  lemma FieldFinds(literal: string, text: string, c: char, rest: string)
    requires IsInertText(text) && !IsInert(c)
    ensures Field(literal + (text + [c] + rest), literal, c) == Some((text, rest))
  {
    ExpectFinds(literal, text + [c] + rest);
    UntilFinds(text, c, rest);
  }

  lemma Tail(a: string, b: string, c: string, d: string, rest: string)
    ensures (a + (b + c + d)) + rest == a + (b + c + (d + rest))
  {}

  lemma LineAnd(x: Entry, rest: string, t: Tags)
    ensures var s3 := ">" + (x.content + "<" + (t.close + rest));
      var s2 := t.middle + (x.time + "\"" + s3);
      Line(x, t) + rest == t.open + (x.sender + "\"" + s2)
  {
    var x3 := ">" + (x.content + "<" + t.close);
    var x2 := t.middle + (x.time + "\"" + x3);
    Tail(">", x.content, "<", t.close, rest);
    Tail(t.middle, x.time, "\"", x3, rest);
    Tail(t.open, x.sender, "\"", x2, rest);
  }

  lemma ParseLineFinds(x: Entry, rest: string, t: Tags)
    requires IsInertEntry(x)
    ensures ParseLine(Line(x, t) + rest, t) == Some((x, rest))
  {
    var s3 := ">" + (x.content + "<" + (t.close + rest));
    var s2 := t.middle + (x.time + "\"" + s3);
    LineAnd(x, rest, t);
    FieldFinds(t.open, x.sender, '"', s2);
    FieldFinds(t.middle, x.time, '"', s3);
    FieldFinds(">", x.content, '<', t.close + rest);
    ExpectFinds(t.close, rest);
  }

  lemma Append(a: string, b: string, c: string, d: string)
    ensures (a + (b + c)) + d == a + (b + (c + d))
  {}

  lemma JoinFirst(line: string, lines: seq<string>, end: string)
    requires lines != []
    ensures Join([line] + lines) + end == line + ("\n" + (Join(lines) + end))
  {
    assert ([line] + lines)[1..] == lines;
    Append(line, "\n", Join(lines), end);
  }

  lemma LineIsNotTheEnd(xs: seq<Entry>, t: Tags)
    requires xs != [] && Apart(t)
    ensures "\n" + Body(xs, t) != t.end && Body(xs, t) != t.end
  {
    var body := Body(xs, t);
    assert t.open <= Line(xs[0], t) <= Join(Lines(xs, t));
    assert body[0] == t.open[0] && body[1] == t.open[1];
    assert ("\n" + body)[2] == body[1];
  }

  lemma ParseLast(x: Entry, t: Tags)
    requires IsInertEntry(x)
    ensures ParseLines(Line(x, t) + t.end, t) == Some([x])
  {
    ParseLineFinds(x, t.end, t);
  }

  lemma ParseNext(x: Entry, more: string, xs: seq<Entry>, t: Tags)
    requires IsInertEntry(x) && ParseLines(more, t) == Some(xs) && "\n" + more != t.end
    ensures ParseLines(Line(x, t) + ("\n" + more), t) == Some([x] + xs)
  {
    ParseLineFinds(x, "\n" + more, t);
    ExpectFinds("\n", more);
  }

  lemma {:induction false} ParseLinesInverts(xs: seq<Entry>, t: Tags)
    requires Apart(t) && xs != [] && forall i :: 0 <= i < |xs| ==> IsInertEntry(xs[i])
    ensures ParseLines(Body(xs, t), t) == Some(xs)
    decreases |xs|
  {
    assert xs == [xs[0]] + xs[1..];
    if |xs| == 1 {
      assert xs == [xs[0]] && Join(Lines(xs, t)) == Line(xs[0], t);
      ParseLast(xs[0], t);
    } else {
      JoinFirst(Line(xs[0], t), Lines(xs[1..], t), t.end);
      ParseLinesInverts(xs[1..], t);
      LineIsNotTheEnd(xs[1..], t);
      ParseNext(xs[0], Body(xs[1..], t), xs[1..], t);
    }
  }

  lemma ParseBodyInverts(xs: seq<Entry>, t: Tags)
    requires Apart(t) && forall i :: 0 <= i < |xs| ==> IsInertEntry(xs[i])
    ensures ParseBody(Body(xs, t), t) == Some(xs)
  {
    if xs == [] {
      assert Body(xs, t) == t.end;
    } else {
      LineIsNotTheEnd(xs, t);
      ParseLinesInverts(xs, t);
    }
  }

  // ----- the prompt loses nothing -----

  lemma EscapedEntry(e: Entry)
    ensures IsInertEntry(Escaped(e)) && Unescaped(Escaped(e)) == e
  {
    EscapedIsInert(e.sender);
    EscapedIsInert(e.time);
    EscapedIsInert(e.content);
    UnescapeInverts(e.sender);
    UnescapeInverts(e.time);
    UnescapeInverts(e.content);
  }

  lemma EscapedEntries(es: seq<Entry>)
    ensures AllUnescaped(AllEscaped(es)) == es
    ensures forall i :: 0 <= i < |es| ==> IsInertEntry(AllEscaped(es)[i])
  {
    forall i | 0 <= i < |es| ensures IsInertEntry(AllEscaped(es)[i]) && AllUnescaped(AllEscaped(es))[i] == es[i] {
      EscapedEntry(es[i]);
    }
  }

  /** The decoder finds the sender, display time and text of every message, whatever characters they contain. */
  lemma DecodeInverts(es: seq<Entry>, header: string, t: Tags)
    requires Apart(t)
    ensures Decode(Formatted(es, header, t), header, t) == Some(es)
  {
    ExpectFinds(header + t.lead, Body(AllEscaped(es), t));
    EscapedEntries(es);
    ParseBodyInverts(AllEscaped(es), t);
  }

  // ----- the loop -----

  lemma XmlIsApart()
    ensures Apart(XML)
  {}

  lemma PromptTells(messages: seq<NewMessage>, header: string, display: string -> string, prompt: string)
    requires prompt == Formatted(Entries(messages, display), header, XML)
    ensures var es := Decode(prompt, header, XML);
      && es.Some? && |es.value| == |messages|
      && forall i :: 0 <= i < |messages| ==>
           && es.value[i].sender == messages[i].senderName && es.value[i].time == display(messages[i].timestamp)
           && es.value[i].content == messages[i].content
  {
    XmlIsApart();
    DecodeInverts(Entries(messages, display), header, XML);
  }

  /** `display` is `format_local_time` in the given timezone. */
  method FormatMessages(messages: seq<NewMessage>, timezone: string, t: Tags, display: string -> string)
    returns (prompt: string)
    ensures prompt == Formatted(Entries(messages, display), Header(timezone), t)
    ensures t == XML ==>
      var es := Decode(prompt, Header(timezone), t);
      && es.Some? && |es.value| == |messages|
      && forall i :: 0 <= i < |messages| ==>
           && es.value[i].sender == messages[i].senderName && es.value[i].time == display(messages[i].timestamp)
           && es.value[i].content == messages[i].content
  {
    var lines: seq<string> := [];
    ghost var xs := AllEscaped(Entries(messages, display));
    for i := 0 to |messages|
      invariant lines == Lines(xs[..i], t)
    {
      var message := messages[i];
      var displayTime := display(message.timestamp);
      var line := Line(Entry(EscapeXml(message.senderName), EscapeXml(displayTime), EscapeXml(message.content)), t);
      lines := lines + [line];
      assert xs[i] == Escaped(Entries(messages, display)[i]);
      LinesGrow(xs[..i], xs[i], t);
      assert xs[..i + 1] == xs[..i] + [xs[i]];
    }
    assert xs[..|messages|] == xs;
    var body := Join(lines);
    prompt := (Header(timezone) + t.lead) + (body + t.end);
    if t == XML { PromptTells(messages, Header(timezone), display, prompt); }
  }

  // ----- the text of a prompt -----

  lemma XmlLine(x: Entry)
    ensures Line(x, XML)
      == "<message sender=\"" + x.sender + "\" time=\"" + x.time + "\">" + x.content + "</message>"
  {
    var tail := ">" + (x.content + "<" + "/message>");
    assert tail == ">" + x.content + "</message>";
    var middle := " time=\"" + (x.time + "\"" + tail);
    assert middle == " time=\"" + x.time + "\">" + x.content + "</message>";
    assert x.sender + "\"" + middle == x.sender + "\" time=\"" + x.time + "\">" + x.content + "</message>";
  }

  /** The line of a message, spelled out. */
  function MessageLine(m: NewMessage, display: string -> string): string {
    "<message sender=\"" + EscapeXml(m.senderName) + "\" time=\"" + EscapeXml(display(m.timestamp)) + "\">"
    + EscapeXml(m.content) + "</message>"
  }

  lemma {:induction false} LinesAt(xs: seq<Entry>, t: Tags, i: nat)
    requires i < |xs|
    ensures Lines(xs, t)[i] == Line(xs[i], t)
    decreases |xs|
  {
    if i == 0 {
    } else {
      LinesAt(xs[1..], t, i - 1);
    }
  }

  function MessageLines(ms: seq<NewMessage>, display: string -> string): (r: seq<string>)
    ensures |r| == |ms| && forall i :: 0 <= i < |ms| ==> r[i] == MessageLine(ms[i], display)
  {
    seq(|ms|, i requires 0 <= i < |ms| => MessageLine(ms[i], display))
  }

  lemma LinesAreMessages(ms: seq<NewMessage>, display: string -> string)
    ensures Lines(AllEscaped(Entries(ms, display)), XML) == MessageLines(ms, display)
  {
    var xs := AllEscaped(Entries(ms, display));
    forall i | 0 <= i < |ms| ensures Lines(xs, XML)[i] == MessageLine(ms[i], display) {
      LinesAt(xs, XML, i);
      XmlLine(xs[i]);
    }
  }

  lemma HeaderText(timezone: string)
    ensures Header(timezone) + XML.lead
      == "<context timezone=\"" + EscapeXml(timezone) + "\" />\n<messages>\n"
  {
    var lead := "<context timezone=\"" + EscapeXml(timezone);
    assert (lead + "\" />\n") + "<messages>\n" == lead + "\" />\n<messages>\n";
  }

  /** The prompt is the context, then the messages between their tags, a line for each. */
  lemma PromptText(ms: seq<NewMessage>, timezone: string, display: string -> string)
    ensures Formatted(Entries(ms, display), Header(timezone), XML)
      == ("<context timezone=\"" + EscapeXml(timezone) + "\" />\n<messages>\n")
         + (Join(MessageLines(ms, display)) + "\n</messages>")
  {
    LinesAreMessages(ms, display);
    HeaderText(timezone);
  }

  // ----- different conversations -----

  /** The agent is told the same of both. */
  predicate Agree(m: NewMessage, m': NewMessage, display: string -> string) {
    m.senderName == m'.senderName && m.content == m'.content && display(m.timestamp) == display(m'.timestamp)
  }

  lemma EntriesAgree(ms: seq<NewMessage>, ms': seq<NewMessage>, display: string -> string)
    requires Entries(ms, display) == Entries(ms', display)
    ensures |ms| == |ms'| && forall i :: 0 <= i < |ms| ==> Agree(ms[i], ms'[i], display)
  {
    forall i | 0 <= i < |ms| ensures Agree(ms[i], ms'[i], display) {
      assert Entries(ms, display)[i] == EntryOf(ms[i], display) && Entries(ms', display)[i] == EntryOf(ms'[i], display);
    }
  }

  lemma SamePrompt(es: seq<Entry>, es': seq<Entry>, header: string, t: Tags)
    requires Apart(t) && Formatted(es, header, t) == Formatted(es', header, t)
    ensures es == es'
  {
    DecodeInverts(es, header, t);
    DecodeInverts(es', header, t);
  }

  /** Different conversations make different prompts. */
  lemma FormatIsInjective(ms: seq<NewMessage>, ms': seq<NewMessage>, timezone: string, display: string -> string)
    requires Formatted(Entries(ms, display), Header(timezone), XML)
      == Formatted(Entries(ms', display), Header(timezone), XML)
    ensures |ms| == |ms'| && forall i :: 0 <= i < |ms| ==> Agree(ms[i], ms'[i], display)
  {
    XmlIsApart();
    SamePrompt(Entries(ms, display), Entries(ms', display), Header(timezone), XML);
    EntriesAgree(ms, ms', display);
  }
}
