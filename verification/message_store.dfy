/** The messages table and its two queries (nanoclaw/db.py). */
module MessageStore {
  import opened Types
  import opened Ordering

  type Table = map<(string, Jid), NewMessage>

  /** `INSERT OR REPLACE` under the primary key (id, chat_jid). */
  function StoreMessage(t: Table, m: NewMessage): Table { t[(m.id, m.chatJid) := m] }

  ghost predicate WellKeyed(t: Table) { forall k :: k in t ==> k == (t[k].id, t[k].chatJid) }

  function LowerAscii(c: char): char { if 'A' <= c <= 'Z' then c - 'A' + 'a' else c }

  /** `content LIKE '<name>:%'`: ASCII case is ignored and `_` in the name stands for any character. */
  predicate LikeBot(content: string, name: string) {
    && |name| < |content| && content[|name|] == ':'
    && forall i :: 0 <= i < |name| ==> name[i] == '_' || LowerAscii(content[i]) == LowerAscii(name[i])
  }

  /** What counts as said under the name, and what does not. */
  lemma LikeExamples()
    ensures LikeBot("Andy: hi", "Andy") && LikeBot("aNDY:", "Andy") && LikeBot("A-1: x", "A_1")
    ensures !LikeBot("Andy hi", "Andy") && !LikeBot("And: hi", "Andy") && !LikeBot("A_1: x", "A-1")
  {
    assert "A-1"[1] == '-' && LowerAscii("A_1: x"[1]) == '_';
  }

  predicate IsPast(m: NewMessage, j: Jid, since: string, bot: string) {
    && m.chatJid == j && Less(since, m.timestamp)
    && !m.isBotMessage && !LikeBot(m.content, bot) && m.content != ""
  }

  /** The rows that the WHERE clause of `get_messages_since` and `has_messages_since` admits. */
  function Past(t: Table, j: Jid, since: string, bot: string): set<NewMessage> {
    set k | k in t && IsPast(t[k], j, since, bot) :: t[k]
  }

  predicate HasMessagesSince(t: Table, j: Jid, since: string, bot: string) { Past(t, j, since, bot) != {} }

  ghost predicate Ascending(rows: seq<NewMessage>) {
    forall i, k :: 0 <= i < k < |rows| ==> !Less(rows[k].timestamp, rows[i].timestamp)
  }

  ghost predicate Different(rows: seq<NewMessage>) { forall i, k :: 0 <= i < k < |rows| ==> rows[i] != rows[k] }

  /** A possible answer of `get_messages_since`: the newest `limit` admitted rows, oldest first. Where timestamps tie,
      the order and the cut are SQLite's choice. */
  ghost predicate IsFetch(rows: seq<NewMessage>, admitted: set<NewMessage>, limit: nat) {
    && Ascending(rows) && Different(rows)
    && |rows| == (if |admitted| < limit then |admitted| else limit)
    && (forall i :: 0 <= i < |rows| ==> rows[i] in admitted)
    && (forall m, i :: m in admitted && m !in rows && 0 <= i < |rows| ==> !Less(rows[i].timestamp, m.timestamp))
  }

  const LIMIT: nat := 200

  lemma NotLessIsTransitive(a: string, b: string, c: string)
    requires !Less(b, a) && !Less(c, b)
    ensures !Less(c, a)
  {
    LessIsTotal(a, b);
    LessIsTotal(b, c);
    if a != b && b != c {
      LessIsTransitive(a, b, c);
      LessIsAsymmetric(a, c);
    }
  }

  /** No admitted row is newer than the last fetched one: the cursor that a commit sets passes all of them. */
  lemma LastIsNewest(rows: seq<NewMessage>, admitted: set<NewMessage>, limit: nat, m: NewMessage)
    requires IsFetch(rows, admitted, limit) && rows != [] && m in admitted
    ensures !Less(rows[|rows| - 1].timestamp, m.timestamp)
  {
    LessIsIrreflexive(m.timestamp);
  }

  lemma {:induction false} DifferentCount(rows: seq<NewMessage>)
    requires Different(rows)
    ensures |set m | m in rows| == |rows|
    decreases |rows|
  {
    if rows == [] {
    } else {
      var front, last := rows[..|rows| - 1], rows[|rows| - 1];
      DifferentCount(front);
      assert rows == front + [last];
      assert (set m | m in rows) == (set m | m in front) + {last};
    }
  }

  lemma SameSize(a: set<NewMessage>, b: set<NewMessage>)
    requires a <= b && |a| == |b|
    ensures a == b
  {
    assert |b - a| == |b| - |a|;
  }

  /** A fetch cuts rows off exactly when more than `limit` are admitted. */
  lemma NothingIsCutExactlyWhen(rows: seq<NewMessage>, admitted: set<NewMessage>, limit: nat)
    requires IsFetch(rows, admitted, limit)
    ensures (forall m :: m in admitted ==> m in rows) <==> |admitted| <= limit
  {
    var fetched := set m | m in rows;
    DifferentCount(rows);
    assert fetched <= admitted;
    if |admitted| <= limit {
      SameSize(fetched, admitted);
    } else {
      assert fetched != admitted;
    }
  }

  // ----- every set of admitted rows has a fetch -----

  ghost predicate IsSorting(rows: seq<NewMessage>, ms: set<NewMessage>) {
    Ascending(rows) && Different(rows) && (set m | m in rows) == ms && |rows| == |ms|
  }

  lemma {:induction false} InsertSorted(rows: seq<NewMessage>, m: NewMessage) returns (all: seq<NewMessage>)
    requires Ascending(rows) && Different(rows) && m !in rows
    ensures Ascending(all) && Different(all) && |all| == |rows| + 1 && forall x :: x in all <==> x in rows || x == m
  {
    if rows == [] || !Less(m.timestamp, rows[|rows| - 1].timestamp) {
      all := rows + [m];
      forall i | 0 <= i < |rows| ensures !Less(m.timestamp, rows[i].timestamp) {
        LessIsIrreflexive(rows[i].timestamp);
        NotLessIsTransitive(rows[i].timestamp, rows[|rows| - 1].timestamp, m.timestamp);
      }
    } else {
      var last := rows[|rows| - 1];
      var front := InsertSorted(rows[..|rows| - 1], m);
      all := front + [last];
      assert rows == rows[..|rows| - 1] + [last];
      LessIsAsymmetric(m.timestamp, last.timestamp);
      forall i | 0 <= i < |front| ensures !Less(last.timestamp, front[i].timestamp) && front[i] != last {
        assert front[i] in front;
        if front[i] != m {
          var k :| 0 <= k < |rows| - 1 && rows[k] == front[i];
        } else {
          assert last in rows;
        }
      }
    }
  }

  lemma {:induction false} SortingExists(ms: set<NewMessage>)
    ensures exists rows :: IsSorting(rows, ms)
    decreases |ms|
  {
    if ms == {} {
      assert IsSorting([], ms);
    } else {
      var m :| m in ms;
      SortingExists(ms - {m});
      var rest :| IsSorting(rest, ms - {m});
      assert forall x :: x in rest <==> x in (set y | y in rest);
      assert forall x :: x in rest <==> x in ms - {m};
      var rows := InsertSorted(rest, m);
      assert IsSorting(rows, ms);
    }
  }

  lemma NewestAscend(all: seq<NewMessage>, cut: nat)
    requires Ascending(all) && Different(all) && cut <= |all|
    ensures Ascending(all[cut..]) && Different(all[cut..])
  {}

  lemma OlderIsCut(all: seq<NewMessage>, cut: nat, m: NewMessage, i: nat)
    requires Ascending(all) && cut <= |all| && m in all && m !in all[cut..] && i < |all| - cut
    ensures !Less(all[cut..][i].timestamp, m.timestamp)
  {
    assert forall k :: cut <= k < |all| ==> all[k] == all[cut..][k - cut];
    var k :| 0 <= k < |all| && all[k] == m;
  }

  lemma NewestAreFetch(all: seq<NewMessage>, admitted: set<NewMessage>, limit: nat, cut: nat)
    requires Ascending(all) && Different(all) && |all| == |admitted| && (forall m :: m in admitted <==> m in all)
    requires cut == if |all| < limit then 0 else |all| - limit
    ensures IsFetch(all[cut..], admitted, limit)
  {
    NewestAscend(all, cut);
    forall m, i | m in admitted && m !in all[cut..] && 0 <= i < |all| - cut
      ensures !Less(all[cut..][i].timestamp, m.timestamp)
    {
      OlderIsCut(all, cut, m, i);
    }
  }

  /** The query always has an answer, so what is proved for every answer is not proved of nothing. */
  lemma FetchExists(admitted: set<NewMessage>, limit: nat)
    ensures exists rows :: IsFetch(rows, admitted, limit)
  {
    SortingExists(admitted);
    var all :| IsSorting(all, admitted);
    assert forall m :: m in admitted <==> m in (set x | x in all);
    NewestAreFetch(all, admitted, limit, if |all| < limit then 0 else |all| - limit);
  }
}
