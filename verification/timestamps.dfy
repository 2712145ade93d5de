/** Timestamps as text, and the due query that compares them as text (nanoclaw/task_scheduler.py, nanoclaw/db.py). */
module Timestamps {
  import opened Types
  import opened Ordering
  import opened Schedule

  /** A UTC time, field by field. */
  datatype Moment = Moment(year: nat, month: nat, day: nat, hour: nat, minute: nat, second: nat, micro: nat)
  {
    /** The ranges of `datetime`. */
    predicate Valid() {
      && 1 <= year <= 9999 && 1 <= month <= 12 && 1 <= day <= 31
      && hour < 24 && minute < 60 && second < 60 && micro < 1000000
    }

    /** Everything but the fraction. */
    function Fields(): (r: seq<nat>)
      ensures |r| == 6
    {
      [year, month, day, hour, minute, second]
    }
  }

  /** A decimal of fixed width and what is printed behind it. */
  datatype Column = Column(width: nat, separator: string)

  const LAYOUT: seq<Column> :=
    [Column(4, "-"), Column(2, "-"), Column(2, "T"), Column(2, ":"), Column(2, ":"), Column(2, "")]

  predicate Fits(vs: seq<nat>, cs: seq<Column>)
    decreases |cs|
  {
    |vs| == |cs| && (cs == [] || (vs[0] < Pow10(cs[0].width) && Fits(vs[1..], cs[1..])))
  }

  function Text(vs: seq<nat>, cs: seq<Column>): string
    requires Fits(vs, cs)
    decreases |cs|
  {
    if cs == [] then "" else Fixed(vs[0], cs[0].width) + (cs[0].separator + Text(vs[1..], cs[1..]))
  }

  predicate Lex(vs: seq<nat>, us: seq<nat>)
    requires |vs| == |us|
    decreases |vs|
  {
    vs != [] && (vs[0] < us[0] || (vs[0] == us[0] && Lex(vs[1..], us[1..])))
  }

  lemma SameHead(a: string, b: string, x: string, y: string)
    requires |a| == |b|
    ensures a + x == b + y <==> a == b && x == y
  {
    assert (a + x)[..|a|] == a && (b + y)[..|a|] == b && (a + x)[|a|..] == x && (b + y)[|a|..] == y;
  }

  lemma HeadOrder(v: nat, u: nat, w: nat, sep: string, x: string, y: string)
    requires v < Pow10(w) && u < Pow10(w)
    ensures Less(Fixed(v, w) + (sep + x), Fixed(u, w) + (sep + y)) <==> v < u || (v == u && Less(x, y))
    ensures Fixed(v, w) + (sep + x) == Fixed(u, w) + (sep + y) <==> v == u && x == y
  {
    LessConcat(Fixed(v, w), Fixed(u, w), sep + x, sep + y);
    LessConcat(sep, sep, x, y);
    LessIsIrreflexive(sep);
    FixedOrder(v, u, w);
    SameHead(Fixed(v, w), Fixed(u, w), sep + x, sep + y);
    SameHead(sep, sep, x, y);
  }

  lemma {:induction false} TextOrder(vs: seq<nat>, us: seq<nat>, cs: seq<Column>)
    requires Fits(vs, cs) && Fits(us, cs)
    ensures |Text(vs, cs)| == |Text(us, cs)|
    ensures Less(Text(vs, cs), Text(us, cs)) <==> Lex(vs, us)
    ensures Text(vs, cs) == Text(us, cs) <==> vs == us
    decreases |cs|
  {
    if cs == [] {
    } else {
      TextOrder(vs[1..], us[1..], cs[1..]);
      HeadOrder(vs[0], us[0], cs[0].width, cs[0].separator, Text(vs[1..], cs[1..]), Text(us[1..], cs[1..]));
      assert vs == [vs[0]] + vs[1..] && us == [us[0]] + us[1..];
    }
  }

  // ----- isoformat -----

  /** `isoformat` leaves the fraction out where it is zero. */
  function Fraction(micro: nat): string
    requires micro < Pow10(6)
  {
    if micro == 0 then "Z" else "." + (Fixed(micro, 6) + "Z")
  }

  lemma ValidFits(m: Moment)
    requires m.Valid()
    ensures Fits(m.Fields(), LAYOUT) && m.micro < Pow10(6)
  {
    assert Pow10(4) == 10000 && Pow10(2) == 100 && Pow10(6) == 1000000;
    assert Fits([m.second], LAYOUT[5..]);
    assert Fits([m.minute, m.second], LAYOUT[4..]);
    assert Fits([m.hour, m.minute, m.second], LAYOUT[3..]);
    assert Fits([m.day, m.hour, m.minute, m.second], LAYOUT[2..]);
    assert Fits([m.month, m.day, m.hour, m.minute, m.second], LAYOUT[1..]);
  }

  /** `_utc_iso` and `_now_iso`. */
  function Iso(m: Moment): string
    requires m.Valid()
  {
    ValidFits(m);
    Text(m.Fields(), LAYOUT) + Fraction(m.micro)
  }

  lemma TextStep(v: nat, vs: seq<nat>, c: Column, cs: seq<Column>)
    requires v < Pow10(c.width) && Fits(vs, cs)
    ensures Fits([v] + vs, [c] + cs) && Text([v] + vs, [c] + cs) == Fixed(v, c.width) + (c.separator + Text(vs, cs))
  {
    assert ([v] + vs)[1..] == vs && ([c] + cs)[1..] == cs;
  }

  lemma ThreeColumns(u: nat, v: nat, w: nat, vs: seq<nat>, a: Column, b: Column, c: Column, cs: seq<Column>)
    requires u < Pow10(a.width) && v < Pow10(b.width) && w < Pow10(c.width) && Fits(vs, cs)
    ensures Fits([u, v, w] + vs, [a, b, c] + cs)
    ensures Text([u, v, w] + vs, [a, b, c] + cs)
      == Fixed(u, a.width) + (a.separator + (Fixed(v, b.width) + (b.separator
         + (Fixed(w, c.width) + (c.separator + Text(vs, cs))))))
  {
    TextStep(w, vs, c, cs);
    TextStep(v, [w] + vs, b, [c] + cs);
    TextStep(u, [v] + ([w] + vs), a, [b] + ([c] + cs));
    assert [u, v, w] + vs == [u] + ([v] + ([w] + vs)) && [a, b, c] + cs == [a] + ([b] + ([c] + cs));
  }

  /** The text spelled out: a fraction has six digits or is left out. */
  lemma IsoText(m: Moment)
    requires m.Valid()
    ensures m.year < Pow10(4) && Pow10(2) == 100 && m.micro < Pow10(6)
    ensures Iso(m)
      == (Fixed(m.year, 4) + ("-" + (Fixed(m.month, 2) + ("-" + (Fixed(m.day, 2) + ("T"
          + (Fixed(m.hour, 2) + (":" + (Fixed(m.minute, 2) + (":" + Fixed(m.second, 2)))))))))))
         + if m.micro == 0 then "Z" else "." + (Fixed(m.micro, 6) + "Z")
  {
    ValidFits(m);
    assert Pow10(2) == 100;
    var first, dash, day, colon, last := Column(4, "-"), Column(2, "-"), Column(2, "T"), Column(2, ":"), Column(2, "");
    ThreeColumns(m.hour, m.minute, m.second, [], colon, colon, last, []);
    var time := [m.hour, m.minute, m.second] + [];
    ThreeColumns(m.year, m.month, m.day, time, first, dash, day, [colon, colon, last] + []);
    assert m.Fields() == [m.year, m.month, m.day] + time;
    assert LAYOUT == [first, dash, day] + ([colon, colon, last] + []);
    assert Fixed(m.second, 2) + ("" + "") == Fixed(m.second, 2);
  }

  predicate Earlier(a: Moment, b: Moment) {
    Lex(a.Fields(), b.Fields()) || (a.Fields() == b.Fields() && a.micro < b.micro)
  }

  lemma FractionOrder(a: nat, b: nat)
    requires a < Pow10(6) && b < Pow10(6)
    ensures Less(Fraction(a), Fraction(b)) <==> a != 0 && (b == 0 || a < b)
    ensures Fraction(a) == Fraction(b) <==> a == b
  {
    if a != 0 && b != 0 {
      var x, y := Fixed(a, 6), Fixed(b, 6);
      FixedOrder(a, b, 6);
      LessConcat(".", ".", x + "Z", y + "Z");
      LessIsIrreflexive(".");
      LessConcat(x, y, "Z", "Z");
      LessIsIrreflexive("Z");
      SameHead(".", ".", x + "Z", y + "Z");
      SameHead(x, y, "Z", "Z");
    }
  }

  lemma IsoOrder(a: Moment, b: Moment)
    requires a.Valid() && b.Valid()
    ensures Less(Iso(a), Iso(b))
      <==> Lex(a.Fields(), b.Fields())
           || (a.Fields() == b.Fields() && a.micro != 0 && (b.micro == 0 || a.micro < b.micro))
  {
    ValidFits(a);
    ValidFits(b);
    TextOrder(a.Fields(), b.Fields(), LAYOUT);
    LessConcat(Text(a.Fields(), LAYOUT), Text(b.Fields(), LAYOUT), Fraction(a.micro), Fraction(b.micro));
    FractionOrder(a.micro, b.micro);
  }

  lemma SameFields(a: Moment, b: Moment)
    requires a.Fields() == b.Fields() && a.micro == b.micro
    ensures a == b
  {
    assert forall i :: 0 <= i < 6 ==> a.Fields()[i] == b.Fields()[i];
  }

  /** A stored timestamp stands for one time only. */
  lemma IsoIsInjective(a: Moment, b: Moment)
    requires a.Valid() && b.Valid()
    ensures Iso(a) == Iso(b) ==> a == b
  {
    ValidFits(a);
    ValidFits(b);
    TextOrder(a.Fields(), b.Fields(), LAYOUT);
    SameHead(Text(a.Fields(), LAYOUT), Text(b.Fields(), LAYOUT), Fraction(a.micro), Fraction(b.micro));
    FractionOrder(a.micro, b.micro);
    if a.Fields() == b.Fields() && a.micro == b.micro { SameFields(a, b); }
  }

  lemma {:induction false} LexIsStrict(vs: seq<nat>, us: seq<nat>)
    requires |vs| == |us|
    ensures vs != us <==> Lex(vs, us) || Lex(us, vs)
    ensures !(Lex(vs, us) && Lex(us, vs))
    decreases |vs|
  {
    if vs == [] {
    } else {
      LexIsStrict(vs[1..], us[1..]);
      assert vs == [vs[0]] + vs[1..] && us == [us[0]] + us[1..];
    }
  }

  /** The two print different numbers of fraction digits inside the same second. */
  predicate MixedInOneSecond(a: Moment, b: Moment) { a.Fields() == b.Fields() && (a.micro == 0) != (b.micro == 0) }

  /** The order of the texts is the order of the times, except exactly there. */
  lemma TextOrderIsTimeOrder(a: Moment, b: Moment)
    requires a.Valid() && b.Valid()
    ensures (Less(Iso(a), Iso(b)) <==> Earlier(a, b)) <==> !MixedInOneSecond(a, b)
  {
    IsoOrder(a, b);
    LexIsStrict(a.Fields(), b.Fields());
  }

  // ----- the due query -----

  /** `next_run <= ?` on the texts. */
  predicate DueByText(next: Moment, now: Moment)
    requires next.Valid() && now.Valid()
  {
    !Less(Iso(now), Iso(next))
  }

  predicate DueByTime(next: Moment, now: Moment) { !Earlier(now, next) }

  /** The query answers too early exactly when the slot has a fraction, the clock reads the whole second of the slot;
      and too late exactly when it is the other way round. Both stay within that second. */
  lemma DueQueryIsOff(next: Moment, now: Moment)
    requires next.Valid() && now.Valid()
    ensures DueByText(next, now) && !DueByTime(next, now)
      <==> next.Fields() == now.Fields() && now.micro == 0 != next.micro
    ensures !DueByText(next, now) && DueByTime(next, now)
      <==> next.Fields() == now.Fields() && next.micro == 0 != now.micro
  {
    IsoOrder(now, next);
    LexIsStrict(now.Fields(), next.Fields());
  }

  // ----- the scheduler's times -----

  /** `at` writes the times from `lo` to `hi` as UTC dates: whole seconds in their order, microseconds as they are. */
  ghost predicate IsCalendar(at: Instant -> Moment, lo: Instant, hi: Instant) {
    && (forall t :: lo <= t < hi ==> at(t).Valid() && at(t).micro == t % SECOND)
    && (forall t, u :: lo <= t < hi && lo <= u < hi ==>
          (Lex(at(t).Fields(), at(u).Fields()) <==> t / SECOND < u / SECOND))
  }

  lemma NotAfterCases(a: Instant, b: Instant)
    ensures NotAfter(a, b) <==>
      a / SECOND < b / SECOND
      || (a / SECOND == b / SECOND && !(b % SECOND != 0 && (a % SECOND == 0 || b % SECOND < a % SECOND)))
  {
    assert a == a / SECOND * SECOND + a % SECOND && b == b / SECOND * SECOND + b % SECOND;
  }

  lemma MomentsCompare(x: Moment, y: Moment, a: Instant, b: Instant)
    requires x.Valid() && y.Valid() && x.micro == a % SECOND && y.micro == b % SECOND
    requires Lex(x.Fields(), y.Fields()) <==> a / SECOND < b / SECOND
    requires Lex(y.Fields(), x.Fields()) <==> b / SECOND < a / SECOND
    ensures !Less(Iso(y), Iso(x)) <==> NotAfter(a, b)
  {
    IsoOrder(y, x);
    LexIsStrict(x.Fields(), y.Fields());
    NotAfterCases(a, b);
  }

  /** So the stored texts compare as the scheduler model says. */
  lemma TextsCompareLikeNotAfter(at: Instant -> Moment, lo: Instant, hi: Instant, a: Instant, b: Instant)
    requires IsCalendar(at, lo, hi) && lo <= a < hi && lo <= b < hi
    ensures !Less(Iso(at(b)), Iso(at(a))) <==> NotAfter(a, b)
  {
    MomentsCompare(at(a), at(b), a, b);
  }
}
