/**
 * Four readings of one journal: the GL detail, the SQL aggregate, the dimension buckets and the net
 * balances (financial-statements glDetail.ts, ledger-postgres pgLedgerStore.ts, ledger-kernel dimensions.ts).
 */
module Readings {
  import opened Text
  import opened Dates
  import opened Sums
  import opened Ledger
  import opened Chart
  import opened TrialBalance

  // --- the SQL aggregate ------------------------------------------------------------------------------

  type LineKey = (TenantId, nat, nat)

  /** Entry headers by tenant and sequence; lines by tenant, entry sequence and line index. */
  datatype Tables = Tables(headers: map<(TenantId, nat), Date>, lines: map<LineKey, Line>)

  const NoTables := Tables(map[], map[])

  function WithLines(lines: map<LineKey, Line>, t: TenantId, sequence: nat, added: seq<Line>): map<LineKey, Line> {
    if added == [] then lines
    else WithLines(lines, t, sequence, added[..|added| - 1])[(t, sequence, |added| - 1) := added[|added| - 1]]
  }

  /** One committed append: the header row, then a row per line. */
  function WithEntry(s: Tables, t: TenantId, e: Entry): Tables {
    Tables(s.headers[(t, e.sequence) := e.Date()], WithLines(s.lines, t, e.sequence, e.Lines()))
  }

  /** The tables after a history of appends, whichever tenants they were for. */
  function Stored(history: seq<(TenantId, Entry)>): Tables {
    if history == [] then NoTables
    else
      var last := history[|history| - 1];
      WithEntry(Stored(history[..|history| - 1]), last.0, last.1)
  }

  /** One tenant's journal within a history. */
  function LogOf(history: seq<(TenantId, Entry)>, t: TenantId): seq<Entry> {
    if history == [] then []
    else
      var front, last := LogOf(history[..|history| - 1], t), history[|history| - 1];
      if last.0 == t then front + [last.1] else front
  }

  /** The unique constraint on tenant and sequence. */
  ghost predicate UniqueSequences(history: seq<(TenantId, Entry)>) {
    forall i, j :: 0 <= i < j < |history| ==> (history[i].0, history[i].1.sequence) != (history[j].0, history[j].1.sequence)
  }

  /** The joined and filtered rows. */
  function Joined(s: Tables, t: TenantId, w: Window): map<LineKey, Line> {
    map k | k in s.lines && k.0 == t && (t, k.1) in s.headers && InWindow(s.headers[(t, k.1)], w) :: s.lines[k]
  }

  ghost function GroupAmounts(rows: map<LineKey, Line>, a: AccountId): map<LineKey, int> {
    map k | k in rows && rows[k].accountId == a :: Signed(rows[k])
  }

  /** `SUM(CASE WHEN debit THEN amount ELSE -amount END)` of one group. */
  ghost function GroupNet(rows: map<LineKey, Line>, a: AccountId): int {
    Sum(GroupAmounts(rows, a))
  }

  ghost function Groups(rows: map<LineKey, Line>): set<AccountId> {
    set k | k in rows :: rows[k].accountId
  }

  lemma OneMoreRow(rows: map<LineKey, Line>, k: LineKey, l: Line, a: AccountId)
    requires k !in rows
    ensures GroupNet(rows[k := l], a) == GroupNet(rows, a) + if l.accountId == a then Signed(l) else 0
    ensures Groups(rows[k := l]) == Groups(rows) + {l.accountId}
  {
    var before, after := GroupAmounts(rows, a), GroupAmounts(rows[k := l], a);
    if l.accountId == a {
      assert after == before[k := Signed(l)];
      SumAfterUpdate(before, k, Signed(l));
    } else {
      assert after == before;
    }
    assert rows[k := l][k] == l;
    forall id | id in Groups(rows) ensures id in Groups(rows[k := l]) {
      var j :| j in rows && rows[j].accountId == id;
      assert rows[k := l][j] == rows[j];
    }
  }

  /** One row per account that has any line, with the sum of its lines. */
  ghost predicate Grouped(out: map<AccountId, int>, rows: map<LineKey, Line>) {
    out.Keys == Groups(rows) && forall a :: At(out, a) == GroupNet(rows, a)
  }

  lemma OneMoreGrouped(out: map<AccountId, int>, rows: map<LineKey, Line>, k: LineKey, l: Line)
    requires Grouped(out, rows) && k !in rows
    ensures Grouped(out[l.accountId := At(out, l.accountId) + Signed(l)], rows[k := l])
  {
    var out' := out[l.accountId := At(out, l.accountId) + Signed(l)];
    OneMoreRow(rows, k, l, l.accountId);
    forall a ensures At(out', a) == GroupNet(rows[k := l], a) {
      OneMoreRow(rows, k, l, a);
    }
  }

  /** The GROUP BY, one joined row at a time, into a map from account to net. */
  method NetByAccountSql(s: Tables, t: TenantId, w: Window) returns (out: map<AccountId, int>)
    ensures Grouped(out, Joined(s, t, w))
  {
    out := map[];
    var rows := Joined(s, t, w);
    var todo := rows.Keys;
    ghost var done: map<LineKey, Line> := map[];
    NothingGrouped();
    while todo != {}
      invariant todo <= rows.Keys && done.Keys == rows.Keys - todo
      invariant forall k :: k in done ==> done[k] == rows[k]
      invariant Grouped(out, done)
      decreases todo
    {
      var k :| k in todo;
      var l := rows[k];
      OneMoreGrouped(out, done, k, l);
      out := out[l.accountId := (if l.accountId in out then out[l.accountId] else 0) + Signed(l)];
      todo, done := todo - {k}, done[k := l];
    }
    assert done == rows;
  }

  lemma NothingGrouped()
    ensures forall a :: GroupNet(map[], a) == 0
    ensures Groups(map[]) == {}
  {
    forall a ensures GroupNet(map[], a) == 0 {
      assert GroupAmounts(map[], a) == map[];
    }
  }

  /** The joined rows say what the list of lines says. */
  ghost predicate SameNets(rows: map<LineKey, Line>, lines: seq<Line>) {
    (forall a :: GroupNet(rows, a) == LinesNet(lines, a)) && Groups(rows) == Accounts(lines)
  }

  lemma RowForLine(rows: map<LineKey, Line>, lines: seq<Line>, k: LineKey, l: Line)
    requires k !in rows && SameNets(rows, lines)
    ensures SameNets(rows[k := l], lines + [l])
  {
    forall a ensures GroupNet(rows[k := l], a) == LinesNet(lines + [l], a) {
      OneMoreRow(rows, k, l, a);
      assert (lines + [l])[..|lines|] == lines;
    }
    OneMoreRow(rows, k, l, l.accountId);
    assert forall x :: x in lines + [l] <==> x in lines || x == l;
  }

  /** No line row is filed under a sequence its tenant has not used. */
  ghost predicate Filed(s: Tables) {
    forall k :: k in s.lines ==> (k.0, k.1) in s.headers
  }

  lemma {:induction false} AddedRows(s: Tables, t: TenantId, sequence: nat, date: Date, added: seq<Line>, u: TenantId,
                                     w: Window, lines: seq<Line>)
    requires Filed(s) && (t, sequence) !in s.headers && SameNets(Joined(s, u, w), lines)
    ensures var s' := Tables(s.headers[(t, sequence) := date], WithLines(s.lines, t, sequence, added));
            && Filed(s')
            && (forall k :: k in s'.lines && (k.0, k.1) == (t, sequence) ==> k.2 < |added|)
            && SameNets(Joined(s', u, w), if t == u && InWindow(date, w) then lines + added else lines)
  {
    var headers := s.headers[(t, sequence) := date];
    if added == [] {
      assert Joined(Tables(headers, s.lines), u, w) == Joined(s, u, w);
      assert lines + added == lines;
    } else {
      var front, last := added[..|added| - 1], added[|added| - 1];
      AddedRows(s, t, sequence, date, front, u, w, lines);
      var before := Tables(headers, WithLines(s.lines, t, sequence, front));
      var after := Tables(headers, WithLines(s.lines, t, sequence, added));
      OneRowAdded(before, after, t, sequence, date, |front|, last, u, w);
      if t == u && InWindow(date, w) {
        RowForLine(Joined(before, u, w), lines + front, (t, sequence, |front|), last);
        assert lines + front + [last] == lines + added;
      }
    }
  }

  lemma OneRowAdded(before: Tables, after: Tables, t: TenantId, sequence: nat, date: Date, i: nat, l: Line, u: TenantId, w: Window)
    requires after == before.(lines := before.lines[(t, sequence, i) := l])
    requires (t, sequence) in before.headers && before.headers[(t, sequence)] == date
    ensures Joined(after, u, w) ==
            if t == u && InWindow(date, w) then Joined(before, u, w)[(t, sequence, i) := l] else Joined(before, u, w)
  {
  }

  lemma {:induction false} StoredHeaders(history: seq<(TenantId, Entry)>, t: TenantId, sequence: nat)
    ensures (t, sequence) in Stored(history).headers <==>
            exists i :: 0 <= i < |history| && history[i].0 == t && history[i].1.sequence == sequence
  {
    if history != [] {
      var front := history[..|history| - 1];
      StoredHeaders(front, t, sequence);
      assert forall i :: 0 <= i < |front| ==> front[i] == history[i];
    }
  }

  /**
   * On every table state reached by appends, whoever they were for: the database's GROUP BY has the same
   * accounts and the same nets as summing the tenant's journal line by line.
   */
  lemma {:induction false} PushdownMatchesTheList(history: seq<(TenantId, Entry)>, t: TenantId, w: Window)
    requires UniqueSequences(history)
    ensures SameNets(Joined(Stored(history), t, w), LinesIn(LogOf(history, t), w)) && Filed(Stored(history))
  {
    if history == [] {
      assert Joined(NoTables, t, w) == map[];
      NothingGrouped();
    } else {
      var front, last := history[..|history| - 1], history[|history| - 1];
      PushdownMatchesTheList(front, t, w);
      StoredHeaders(front, last.0, last.1.sequence);
      var log := LogOf(front, t);
      AddedRows(Stored(front), last.0, last.1.sequence, last.1.Date(), last.1.Lines(), t, w, LinesIn(log, w));
      assert (log + [last.1])[..|log|] == log;
      assert LinesIn(log, w) + [] == LinesIn(log, w);
    }
  }

  // --- dimension buckets -------------------------------------------------------------------------------------

  const UNASSIGNED := "(unassigned)"

  function TagOf(dims: seq<(string, string)>, key: string): Option<string> {
    if dims == [] then None
    else if dims[0].0 == key then Some(dims[0].1)
    else TagOf(dims[1..], key)
  }

  function BucketOf(l: Line, key: string): string {
    TagOf(l.dimensions, key).GetOr(UNASSIGNED)
  }

  function InBucket(lines: seq<Line>, key: string, bucket: string): seq<Line> {
    if lines == [] then []
    else
      var front, last := InBucket(lines[..|lines| - 1], key, bucket), lines[|lines| - 1];
      if BucketOf(last, key) == bucket then front + [last] else front
  }

  type Buckets = map<string, map<AccountId, int>>

  ghost predicate IsBuckets(m: Buckets, lines: seq<Line>, key: string) {
    && (forall l :: l in lines ==> BucketOf(l, key) in m)
    && (forall b :: b in m ==> IsNetMap(m[b], InBucket(lines, key, b)) && m[b] != map[])
    && (forall b :: b !in m ==> InBucket(lines, key, b) == [])
  }

  function NetWith(net: map<AccountId, int>, l: Line): map<AccountId, int> {
    net[l.accountId := (if l.accountId in net then net[l.accountId] else 0) + Signed(l)]
  }

  function BucketsWith(m: Buckets, l: Line, key: string): Buckets {
    var b := BucketOf(l, key);
    m[b := NetWith(if b in m then m[b] else map[], l)]
  }

  lemma OneMoreBucketed(m: Buckets, lines: seq<Line>, l: Line, key: string)
    requires IsBuckets(m, lines, key)
    ensures IsBuckets(BucketsWith(m, l, key), lines + [l], key)
  {
    var m', b := BucketsWith(m, l, key), BucketOf(l, key);
    assert (lines + [l])[..|lines|] == lines;
    forall c | c in m' ensures IsNetMap(m'[c], InBucket(lines + [l], key, c)) && m'[c] != map[] {
      if c == b {
        NetOfOneMore(if b in m then m[b] else map[], InBucket(lines, key, b), l);
        assert l.accountId in m'[c];
      }
    }
  }

  lemma NetOfOneMore(net: map<AccountId, int>, lines: seq<Line>, l: Line)
    requires IsNetMap(net, lines)
    ensures IsNetMap(NetWith(net, l), lines + [l])
  {
    assert (lines + [l])[..|lines|] == lines;
    assert forall x :: x in lines + [l] <==> x in lines || x == l;
    if l.accountId !in Accounts(lines) {
      forall i | 0 <= i < |lines| ensures lines[i].accountId != l.accountId {
        assert lines[i] in lines;
      }
      UntouchedNetIsZero(lines, l.accountId);
    }
  }

  /** `trialBalanceByDimension`: the net per bucket and account over the window. */
  method NetByDimension(log: seq<Entry>, key: string, w: Window) returns (m: Buckets)
    ensures IsBuckets(m, LinesIn(log, w), key)
  {
    m := map[];
    for i := 0 to |log|
      invariant IsBuckets(m, LinesIn(log[..i], w), key)
    {
      NextEntry(log, w, i);
      if InWindow(log[i].Date(), w) {
        m := AddBucketed(m, LinesIn(log[..i], w), log[i].Lines(), key);
      }
    }
    assert log[..|log|] == log;
  }

  method AddBucketed(start: Buckets, ghost before: seq<Line>, lines: seq<Line>, key: string) returns (m: Buckets)
    requires IsBuckets(start, before, key)
    ensures IsBuckets(m, before + lines, key)
  {
    m := start;
    assert before + [] == before;
    for i := 0 to |lines|
      invariant IsBuckets(m, before + lines[..i], key)
    {
      m := Bucketed(m, before + lines[..i], lines[i], key);
      assert before + lines[..i] + [lines[i]] == before + lines[..i + 1];
    }
    assert before + lines[..|lines|] == before + lines;
  }

  method Bucketed(m: Buckets, ghost lines: seq<Line>, l: Line, key: string) returns (r: Buckets)
    requires IsBuckets(m, lines, key)
    ensures IsBuckets(r, lines + [l], key)
  {
    OneMoreBucketed(m, lines, l, key);
    r := BucketsWith(m, l, key);
  }

  ghost function BucketNets(buckets: set<string>, lines: seq<Line>, key: string, a: AccountId): map<string, int> {
    map b | b in buckets :: LinesNet(InBucket(lines, key, b), a)
  }

  /** For every account the buckets add up to the undivided net: no line is lost and none is counted twice. */
  lemma {:induction false} BucketsAddUp(buckets: set<string>, lines: seq<Line>, key: string, a: AccountId)
    requires forall l :: l in lines ==> BucketOf(l, key) in buckets
    ensures Sum(BucketNets(buckets, lines, key, a)) == LinesNet(lines, a)
  {
    if lines == [] {
      AllZero(BucketNets(buckets, lines, key, a));
    } else {
      var front, last := lines[..|lines| - 1], lines[|lines| - 1];
      assert lines == front + [last] && last in lines;
      BucketsAddUp(buckets, front, key, a);
      var b := BucketOf(last, key);
      var before, after := BucketNets(buckets, front, key, a), BucketNets(buckets, lines, key, a);
      var bucket := InBucket(front, key, b);
      assert (bucket + [last])[..|bucket|] == bucket;
      assert after == before[b := after[b]];
      SumAfterUpdate(before, b, after[b]);
    }
  }

  lemma {:induction false} AllZero<K>(m: map<K, int>)
    requires forall k :: k in m ==> m[k] == 0
    ensures Sum(m) == 0
    decreases |m|
  {
    if m != map[] {
      var k :| k in m;
      SumTakesAnyKey(m, k);
      assert |(m - {k}).Keys| < |m.Keys|;
      AllZero(m - {k});
    }
  }

  /** The three nets of an account are one: by the list, by the database, and over the dimension buckets. */
  lemma ReadingsAgree(history: seq<(TenantId, Entry)>, t: TenantId, w: Window, key: string, m: Buckets, a: AccountId)
    requires UniqueSequences(history) && IsBuckets(m, LinesIn(LogOf(history, t), w), key)
    ensures Net(LogOf(history, t), w, a) == GroupNet(Joined(Stored(history), t, w), a)
    ensures Net(LogOf(history, t), w, a) == Sum(BucketNets(m.Keys, LinesIn(LogOf(history, t), w), key, a))
  {
    PushdownMatchesTheList(history, t, w);
    NetIsOfLinesIn(LogOf(history, t), w, a);
    BucketsAddUp(m.Keys, LinesIn(LogOf(history, t), w), key, a);
  }

  // --- what a tag is ---------------------------------------------------------------------------------------

  /** A line's tag under a key is the first with that key; without one it goes to the unassigned bucket. */
  lemma {:induction false} TagIsTheFirst(dims: seq<(string, string)>, key: string)
    ensures TagOf(dims, key).None? <==> forall i :: 0 <= i < |dims| ==> dims[i].0 != key
    ensures TagOf(dims, key).Some? ==>
              exists i :: 0 <= i < |dims| && dims[i].0 == key && TagOf(dims, key) == Some(dims[i].1)
                       && forall j :: 0 <= j < i ==> dims[j].0 != key
  {
    if dims != [] {
      TagIsTheFirst(dims[1..], key);
      assert dims == [dims[0]] + dims[1..];
      if dims[0].0 == key {
        assert TagOf(dims, key) == Some(dims[0].1);
      } else if TagOf(dims, key).Some? {
        var i :| 0 <= i < |dims[1..]| && dims[1..][i].0 == key && TagOf(dims[1..], key) == Some(dims[1..][i].1)
                 && forall j :: 0 <= j < i ==> dims[1..][j].0 != key;
        assert dims[i + 1] == dims[1..][i];
        assert forall j :: 0 < j < i + 1 ==> dims[j] == dims[1..][j - 1];
      }
    }
  }

  lemma BucketIsTheTag(l: Line, key: string)
    ensures TagOf(l.dimensions, key).Some? ==> BucketOf(l, key) == TagOf(l.dimensions, key).value
    ensures TagOf(l.dimensions, key).None? ==> BucketOf(l, key) == "(unassigned)"
  {
  }
}
