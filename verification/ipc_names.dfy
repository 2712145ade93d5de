/** The names of the files in an IPC directory (nanoclaw/ipc_io.py). */
module IpcNames {
  import opened Ordering

  const TS_WIDTH: nat := 20
  const SEQ_WIDTH: nat := 8

  /** The least number of digits, from `w` on, that holds `n`. */
  function Width(n: nat, w: nat): (r: nat)
    ensures w <= r && n < Pow10(r)
    decreases if n < Pow10(w) then 0 else n - Pow10(w) + 1
  {
    if n < Pow10(w) then w else Width(n, w + 1)
  }

  /** Python's `format(n, "0<w>d")`: at least `w` digits, more where `n` needs more. */
  function Padded(n: nat, w: nat): (s: string)
    ensures |s| == Width(n, w) && forall i :: 0 <= i < |s| ==> '0' <= s[i] <= '9'
  {
    Fixed(n, Width(n, w))
  }

  function FileName(ts: nat, seq_: nat): string { Padded(ts, TS_WIDTH) + "-" + Padded(seq_, SEQ_WIDTH) + ".json" }

  function TmpName(name: string): string { name + ".tmp" }

  /** What the pattern "*.json" matches. */
  predicate IsJson(name: string) { |name| >= 5 && name[|name| - 5..] == ".json" }

  lemma NamesMatch(ts: nat, n: nat)
    ensures IsJson(FileName(ts, n))
  {}

  /** A reading of at most twenty digits and a number of at most eight make a name of 34 characters. */
  lemma NameShape(ts: nat, n: nat)
    requires ts < Pow10(20) && n < Pow10(8)
    ensures FileName(ts, n) == Fixed(ts, 20) + "-" + Fixed(n, 8) + ".json" && |FileName(ts, n)| == 34
  {}

  lemma TmpNeverMatches(name: string)
    ensures !IsJson(TmpName(name))
  {
    var t := TmpName(name);
    if |t| >= 5 { assert t[|t| - 5..][4] == t[|t| - 1] == 'p'; }
    assert ".json"[4] == 'n';
  }

  lemma PaddedIsInjective(a: nat, b: nat, w: nat)
    requires Padded(a, w) == Padded(b, w)
    ensures a == b
  {
    FixedOrder(a, b, Width(a, w));
  }

  /** Two texts with a dash behind their digits are equal part by part. */
  lemma SplitAtDash(a: string, x: string, b: string, y: string)
    requires forall i :: 0 <= i < |a| ==> '0' <= a[i] <= '9'
    requires forall i :: 0 <= i < |b| ==> '0' <= b[i] <= '9'
    requires a + "-" + x == b + "-" + y
    ensures a == b && x == y
  {
    var s := a + "-" + x;
    assert s[|a|] == '-' && s[|b|] == '-';
    assert forall i :: 0 <= i < |a| ==> s[i] == a[i];
    assert forall i :: 0 <= i < |b| ==> s[i] == b[i];
    assert |a| == |b|;
    assert s[..|a|] == a && s[..|b|] == b && s[|a| + 1..] == x && s[|b| + 1..] == y;
  }

  /** No two sends use the same name, however large the numbers grow. */
  lemma NamesAreInjective(ts: nat, n: nat, ts': nat, n': nat)
    requires FileName(ts, n) == FileName(ts', n')
    ensures ts == ts' && n == n'
  {
    var a, x, b, y := Padded(ts, TS_WIDTH), Padded(n, SEQ_WIDTH), Padded(ts', TS_WIDTH), Padded(n', SEQ_WIDTH);
    assert a + "-" + (x + ".json") == FileName(ts, n) && b + "-" + (y + ".json") == FileName(ts', n');
    SplitAtDash(a, x + ".json", b, y + ".json");
    assert (x + ".json")[..|x|] == x && (y + ".json")[..|y|] == y;
    PaddedIsInjective(ts, ts', TS_WIDTH);
    PaddedIsInjective(n, n', SEQ_WIDTH);
  }

  // ----- the order of names -----

  lemma NameParts(ts: nat, n: nat)
    ensures FileName(ts, n) == Padded(ts, TS_WIDTH) + ("-" + (Padded(n, SEQ_WIDTH) + ".json"))
  {}

  /** With clock readings of at most twenty digits, names sort by the reading, then by the text of the number. */
  lemma NameOrder(ts: nat, n: nat, ts': nat, n': nat)
    requires ts < Pow10(TS_WIDTH) && ts' < Pow10(TS_WIDTH)
    ensures Less(FileName(ts, n), FileName(ts', n'))
      <==> ts < ts' || (ts == ts' && Less(Padded(n, SEQ_WIDTH) + ".json", Padded(n', SEQ_WIDTH) + ".json"))
  {
    var x, y := Padded(n, SEQ_WIDTH) + ".json", Padded(n', SEQ_WIDTH) + ".json";
    NameParts(ts, n);
    NameParts(ts', n');
    LessConcat(Padded(ts, TS_WIDTH), Padded(ts', TS_WIDTH), "-" + x, "-" + y);
    LessConcat("-", "-", x, y);
    LessIsIrreflexive("-");
    FixedOrder(ts, ts', TS_WIDTH);
  }

  /** Without its last `d` digits. */
  function Cut(n: nat, d: nat): nat
    decreases d
  {
    if d == 0 then n else Cut(n / 10, d - 1)
  }

  lemma {:induction false} FixedSplits(n: nat, w: nat, d: nat)
    requires n < Pow10(w + d)
    ensures Cut(n, d) < Pow10(w) && Fixed(n, w + d)[..w] == Fixed(Cut(n, d), w)
    decreases d
  {
    if d > 0 {
      FixedSplits(n / 10, w, d - 1);
      assert Fixed(n, w + d) == Fixed(n / 10, w + d - 1) + [Digit(n % 10)];
      assert Fixed(n, w + d)[..w] == Fixed(n / 10, w + d - 1)[..w];
    } else {
      assert Fixed(n, w)[..w] == Fixed(n, w);
    }
  }

  lemma {:induction false} WidthIsMonotone(a: nat, b: nat, w: nat)
    requires a <= b
    ensures Width(a, w) <= Width(b, w)
    decreases if b < Pow10(w) then 0 else b - Pow10(w) + 1
  {
    if a < Pow10(w) || b < Pow10(w) {
    } else {
      WidthIsMonotone(a, b, w + 1);
    }
  }

  /** How many digits more the larger number is written with. */
  function Excess(n: nat, n': nat): nat
    requires n <= n'
  {
    WidthIsMonotone(n, n', SEQ_WIDTH);
    Width(n', SEQ_WIDTH) - Width(n, SEQ_WIDTH)
  }

  lemma PaddedOrder(n: nat, n': nat)
    requires n < n'
    ensures Less(Padded(n, SEQ_WIDTH) + ".json", Padded(n', SEQ_WIDTH) + ".json") <==> n <= Cut(n', Excess(n, n'))
  {
    var w, d := Width(n, SEQ_WIDTH), Excess(n, n');
    FixedSplits(n', w, d);
    var x, y := Fixed(n, w), Fixed(n', w + d);
    assert y + ".json" == y[..w] + (y[w..] + ".json");
    LessConcat(x, y[..w], ".json", y[w..] + ".json");
    FixedOrder(n, Cut(n', d), w);
    if d > 0 {
      assert (y[w..] + ".json")[0] == y[w];
    } else {
      LessIsIrreflexive(".json");
      assert y[w..] == "";
    }
  }

  /** At one clock reading, a later number sorts behind an earlier one exactly when its leading digits, as many as the
      earlier one has, are not smaller. Below 10^8 both have eight digits and this always holds. */
  lemma NumberOrder(ts: nat, n: nat, n': nat)
    requires ts < Pow10(TS_WIDTH) && n < n'
    ensures Less(FileName(ts, n), FileName(ts, n')) <==> n <= Cut(n', Excess(n, n'))
  {
    NameOrder(ts, n, ts, n');
    PaddedOrder(n, n');
  }

  /** While clock and counter stay in their widths, names sort like (clock reading, number). */
  lemma NamesSortLikeNumbers(ts: nat, n: nat, ts': nat, n': nat)
    requires ts < Pow10(TS_WIDTH) && ts' < Pow10(TS_WIDTH) && n < Pow10(SEQ_WIDTH) && n' < Pow10(SEQ_WIDTH)
    ensures Less(FileName(ts, n), FileName(ts', n')) <==> ts < ts' || (ts == ts' && n < n')
  {
    NameOrder(ts, n, ts', n');
    if ts != ts' {
    } else if n < n' {
      NumberOrder(ts, n, n');
    } else if n' < n {
      NumberOrder(ts, n', n);
      LessIsAsymmetric(FileName(ts, n'), FileName(ts, n));
    } else {
      LessIsIrreflexive(FileName(ts, n));
    }
  }

  lemma OrderBreaks(ts: nat, n: nat, n': nat)
    requires ts < Pow10(TS_WIDTH) && n < n' && Cut(n', Excess(n, n')) < n
    ensures Less(FileName(ts, n'), FileName(ts, n))
  {
    NumberOrder(ts, n, n');
    LessIsTotal(FileName(ts, n), FileName(ts, n'));
    if FileName(ts, n) == FileName(ts, n') { NamesAreInjective(ts, n, ts, n'); }
  }

  lemma NinthDigit()
    ensures Cut(100000000, Excess(99999999, 100000000)) == 10000000
  {
    assert Pow10(8) == 100000000;
    assert Width(99999999, 8) == 8 && Width(100000000, 8) == Width(100000000, 9) == 9;
    assert Cut(100000000, 1) == Cut(10000000, 0) == 10000000;
  }

  /** The first name that needs nine digits sorts before the last one that needs eight. */
  lemma NinthDigitBreaksOrder(ts: nat)
    requires ts < Pow10(TS_WIDTH)
    ensures Less(FileName(ts, 100000000), FileName(ts, 99999999))
  {
    NinthDigit();
    OrderBreaks(ts, 99999999, 100000000);
  }
}
