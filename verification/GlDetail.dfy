/** The general-ledger detail: opening, running rows and closing per account (financial-statements glDetail.ts). */
module GlDetail {
  import opened Text
  import opened Dates
  import opened Ledger
  import opened Chart
  import opened TrialBalance

  datatype GlRow = GlRow(
    entryId: string, sequence: nat, date: Date, memo: string, debit: int, credit: int, change: int, balance: int)

  datatype GlAccount = GlAccount(
    account: Account, opening: int, rows: seq<GlRow>, closing: int, totalDebit: int, totalCredit: int)

  /** A line with the entry it is part of. */
  type Posting = (Entry, Line)

  function PostingsOf(e: Entry): (ps: seq<Posting>)
    ensures |ps| == |e.Lines()| && forall i :: 0 <= i < |ps| ==> ps[i] == (e, e.Lines()[i])
  {
    seq(|e.Lines()|, i requires 0 <= i < |e.Lines()| => (e, e.Lines()[i]))
  }

  /** The postings of the entries dated in a window, in ledger order. */
  function PostingsIn(log: seq<Entry>, w: Window): seq<Posting> {
    if log == [] then []
    else
      var last := log[|log| - 1];
      PostingsIn(log[..|log| - 1], w) + if InWindow(last.Date(), w) then PostingsOf(last) else []
  }

  function NetOf(ps: seq<Posting>, a: AccountId): int {
    if ps == [] then 0
    else
      var last := ps[|ps| - 1].1;
      NetOf(ps[..|ps| - 1], a) + if last.accountId == a then Signed(last) else 0
  }

  function RowFor(p: Posting, prev: int): GlRow {
    var (e, l) := p;
    var memo := if l.memo != "" then l.memo else e.draft.payload.memo;
    GlRow(e.id, e.sequence, e.Date(), memo, if l.side == DEBIT then l.amount else 0,
          if l.side == DEBIT then 0 else l.amount, Signed(l), prev + Signed(l))
  }

  /** An account's rows over some postings, its balance running from an opening one. */
  function RowsOf(ps: seq<Posting>, a: AccountId, opening: int): seq<GlRow> {
    if ps == [] then []
    else
      var front, last := ps[..|ps| - 1], ps[|ps| - 1];
      if last.1.accountId == a then RowsOf(front, a, opening) + [RowFor(last, opening + NetOf(front, a))]
      else RowsOf(front, a, opening)
  }

  ghost function Touching(ps: seq<Posting>): set<AccountId> {
    set p | p in ps :: p.1.accountId
  }

  /** Everything dated strictly before the window; nothing when the window has no start. */
  function BeforeWindow(log: seq<Entry>, from: Option<Date>): seq<Posting> {
    if log == [] then []
    else
      var last := log[|log| - 1];
      BeforeWindow(log[..|log| - 1], from) + if from.Some? && last.Date() < from.value then PostingsOf(last) else []
  }

  function Totals(rows: seq<GlRow>): (int, int) {
    if rows == [] then (0, 0)
    else
      var (d, c) := Totals(rows[..|rows| - 1]);
      (d + rows[|rows| - 1].debit, c + rows[|rows| - 1].credit)
  }

  /** The accounts asked for; none asked for means every account. */
  predicate Wanted(ids: Option<set<AccountId>>, a: AccountId) {
    ids.None? || a in ids.value
  }

  // --- the two passes -----------------------------------------------------------------------------------

  type Balances = map<AccountId, int>

  function BalanceAt(m: Balances, a: AccountId): int {
    if a in m then m[a] else 0
  }

  /** The balances after some postings, over an opening map. */
  ghost predicate RunsFrom(m: Balances, opening: Balances, ps: seq<Posting>, ids: Option<set<AccountId>>) {
    && (forall a :: a in m <==> a in opening || (a in Touching(ps) && Wanted(ids, a)))
    && (forall a :: a in m ==> m[a] == BalanceAt(opening, a) + NetOf(ps, a))
  }

  ghost predicate RowsFitAt(rows: map<AccountId, seq<GlRow>>, opening: Balances, ps: seq<Posting>, ids: Option<set<AccountId>>,
                            a: AccountId)
  {
    && (a in rows <==> a in Touching(ps) && Wanted(ids, a))
    && (a in rows ==> rows[a] == RowsOf(ps, a, BalanceAt(opening, a)))
  }

  ghost predicate RowsFit(rows: map<AccountId, seq<GlRow>>, opening: Balances, ps: seq<Posting>, ids: Option<set<AccountId>>) {
    forall a :: RowsFitAt(rows, opening, ps, ids, a)
  }

  lemma OneMoreTouching(ps: seq<Posting>, p: Posting)
    ensures Touching(ps + [p]) == Touching(ps) + {p.1.accountId}
    ensures forall a :: NetOf(ps + [p], a) == NetOf(ps, a) + if p.1.accountId == a then Signed(p.1) else 0
  {
    assert (ps + [p])[..|ps|] == ps;
    assert forall q :: q in ps + [p] <==> q in ps || q == p;
  }

  lemma {:induction false} UntouchedIsZero(ps: seq<Posting>, a: AccountId, opening: int)
    requires a !in Touching(ps)
    ensures NetOf(ps, a) == 0 && RowsOf(ps, a, opening) == []
  {
    if ps != [] {
      var front, last := ps[..|ps| - 1], ps[|ps| - 1];
      assert ps == front + [last];
      OneMoreTouching(front, last);
      UntouchedIsZero(front, a, opening);
    }
  }

  lemma OneMoreRun(m: Balances, opening: Balances, ps: seq<Posting>, ids: Option<set<AccountId>>, p: Posting)
    requires RunsFrom(m, opening, ps, ids) && Wanted(ids, p.1.accountId)
    ensures BalanceAt(m, p.1.accountId) == BalanceAt(opening, p.1.accountId) + NetOf(ps, p.1.accountId)
    ensures RunsFrom(m[p.1.accountId := BalanceAt(m, p.1.accountId) + Signed(p.1)], opening, ps + [p], ids)
  {
    var a := p.1.accountId;
    OneMoreTouching(ps, p);
    if a !in m {
      UntouchedIsZero(ps, a, 0);
    }
  }

  lemma SkippedRun(m: Balances, opening: Balances, ps: seq<Posting>, ids: Option<set<AccountId>>, p: Posting)
    requires RunsFrom(m, opening, ps, ids) && !Wanted(ids, p.1.accountId)
    requires forall a :: a in opening ==> Wanted(ids, a)
    ensures RunsFrom(m, opening, ps + [p], ids)
  {
    OneMoreTouching(ps, p);
  }

  lemma OneMoreRow(rows: map<AccountId, seq<GlRow>>, opening: Balances, ps: seq<Posting>, ids: Option<set<AccountId>>,
                   p: Posting, prev: int)
    requires RowsFit(rows, opening, ps, ids) && Wanted(ids, p.1.accountId)
    requires prev == BalanceAt(opening, p.1.accountId) + NetOf(ps, p.1.accountId)
    ensures var a := p.1.accountId;
            RowsFit(rows[a := (if a in rows then rows[a] else []) + [RowFor(p, prev)]], opening, ps + [p], ids)
  {
    var a := p.1.accountId;
    var rows' := rows[a := (if a in rows then rows[a] else []) + [RowFor(p, prev)]];
    OneMoreTouching(ps, p);
    forall b ensures RowsFitAt(rows', opening, ps + [p], ids, b) {
      assert RowsFitAt(rows, opening, ps, ids, b);
      NextRow(ps, p, b, BalanceAt(opening, b));
      if b == a && a !in rows {
        UntouchedIsZero(ps, a, BalanceAt(opening, a));
      }
    }
  }

  lemma NextRow(ps: seq<Posting>, p: Posting, a: AccountId, opening: int)
    ensures RowsOf(ps + [p], a, opening)
         == RowsOf(ps, a, opening) + if p.1.accountId == a then [RowFor(p, opening + NetOf(ps, a))] else []
  {
    assert (ps + [p])[..|ps|] == ps;
  }

  lemma SkippedRow(rows: map<AccountId, seq<GlRow>>, opening: Balances, ps: seq<Posting>, ids: Option<set<AccountId>>, p: Posting)
    requires RowsFit(rows, opening, ps, ids) && !Wanted(ids, p.1.accountId)
    ensures RowsFit(rows, opening, ps + [p], ids)
  {
    OneMoreTouching(ps, p);
    forall b ensures RowsFitAt(rows, opening, ps + [p], ids, b) {
      assert RowsFitAt(rows, opening, ps, ids, b);
      NextRow(ps, p, b, BalanceAt(opening, b));
    }
  }

  /** The first pass: opening balances from what came before the window. */
  method Openings(log: seq<Entry>, from: Option<Date>, ids: Option<set<AccountId>>) returns (opening: Balances)
    ensures RunsFrom(opening, map[], BeforeWindow(log, from), ids)
  {
    opening := map[];
    if from.None? {
      NothingBefore(log);
      return;
    }
    for i := 0 to |log|
      invariant RunsFrom(opening, map[], BeforeWindow(log[..i], from), ids)
    {
      assert log[..i + 1][..i] == log[..i];
      if log[i].Date() < from.value {
        opening := AddBalances(opening, BeforeWindow(log[..i], from), PostingsOf(log[i]), ids);
      } else {
        assert BeforeWindow(log[..i], from) + [] == BeforeWindow(log[..i], from);
      }
    }
    assert log[..|log|] == log;
  }

  lemma {:induction false} NothingBefore(log: seq<Entry>)
    ensures BeforeWindow(log, None) == []
  {
    if log != [] {
      NothingBefore(log[..|log| - 1]);
    }
  }

  method AddBalances(start: Balances, ghost before: seq<Posting>, ps: seq<Posting>, ids: Option<set<AccountId>>)
    returns (m: Balances)
    requires RunsFrom(start, map[], before, ids)
    ensures RunsFrom(m, map[], before + ps, ids)
  {
    m := start;
    assert before + [] == before;
    for i := 0 to |ps|
      invariant RunsFrom(m, map[], before + ps[..i], ids)
    {
      assert before + ps[..i] + [ps[i]] == before + ps[..i + 1];
      var a := ps[i].1.accountId;
      if Wanted(ids, a) {
        OneMoreRun(m, map[], before + ps[..i], ids, ps[i]);
        m := m[a := BalanceAt(m, a) + Signed(ps[i].1)];
      } else {
        SkippedRun(m, map[], before + ps[..i], ids, ps[i]);
      }
    }
    assert before + ps[..|ps|] == before + ps;
  }

  /** The second pass: in-window rows, each with the balance it leaves. */
  method Rows(log: seq<Entry>, w: Window, opening: Balances, ids: Option<set<AccountId>>)
    returns (rows: map<AccountId, seq<GlRow>>, running: Balances)
    requires forall a :: a in opening ==> Wanted(ids, a)
    ensures RowsFit(rows, opening, PostingsIn(log, w), ids) && RunsFrom(running, opening, PostingsIn(log, w), ids)
  {
    rows, running := map[], opening;
    for i := 0 to |log|
      invariant RowsFit(rows, opening, PostingsIn(log[..i], w), ids)
      invariant RunsFrom(running, opening, PostingsIn(log[..i], w), ids)
    {
      assert log[..i + 1][..i] == log[..i];
      if InWindow(log[i].Date(), w) {
        rows, running := AddRows(rows, running, opening, PostingsIn(log[..i], w), PostingsOf(log[i]), ids);
      } else {
        assert PostingsIn(log[..i], w) + [] == PostingsIn(log[..i], w);
      }
    }
    assert log[..|log|] == log;
  }

  method AddRows(rows0: map<AccountId, seq<GlRow>>, running0: Balances, ghost opening: Balances, ghost before: seq<Posting>,
                 ps: seq<Posting>, ids: Option<set<AccountId>>)
    returns (rows: map<AccountId, seq<GlRow>>, running: Balances)
    requires RowsFit(rows0, opening, before, ids) && RunsFrom(running0, opening, before, ids)
    requires forall a :: a in opening ==> Wanted(ids, a)
    ensures RowsFit(rows, opening, before + ps, ids) && RunsFrom(running, opening, before + ps, ids)
  {
    rows, running := rows0, running0;
    assert before + [] == before;
    for i := 0 to |ps|
      invariant RowsFit(rows, opening, before + ps[..i], ids) && RunsFrom(running, opening, before + ps[..i], ids)
    {
      assert before + ps[..i] + [ps[i]] == before + ps[..i + 1];
      rows, running := AddRow(rows, running, opening, before + ps[..i], ps[i], ids);
    }
    assert before + ps[..|ps|] == before + ps;
  }

  method AddRow(rows0: map<AccountId, seq<GlRow>>, running0: Balances, ghost opening: Balances, ghost before: seq<Posting>,
                p: Posting, ids: Option<set<AccountId>>)
    returns (rows: map<AccountId, seq<GlRow>>, running: Balances)
    requires RowsFit(rows0, opening, before, ids) && RunsFrom(running0, opening, before, ids)
    requires forall a :: a in opening ==> Wanted(ids, a)
    ensures RowsFit(rows, opening, before + [p], ids) && RunsFrom(running, opening, before + [p], ids)
  {
    var a := p.1.accountId;
    if !Wanted(ids, a) {
      SkippedRow(rows0, opening, before, ids, p);
      SkippedRun(running0, opening, before, ids, p);
      return rows0, running0;
    }
    var prev := BalanceAt(running0, a);
    OneMoreRun(running0, opening, before, ids, p);
    OneMoreRow(rows0, opening, before, ids, p, prev);
    rows := rows0[a := (if a in rows0 then rows0[a] else []) + [RowFor(p, prev)]];
    running := running0[a := prev + Signed(p.1)];
  }

  /** What the report says of one account. */
  function DetailOf(log: seq<Entry>, w: Window, account: Account): GlAccount {
    var opening := NetOf(BeforeWindow(log, w.from), account.id);
    var ps := PostingsIn(log, w);
    var rows := RowsOf(ps, account.id, opening);
    GlAccount(account, opening, rows, opening + NetOf(ps, account.id), Totals(rows).0, Totals(rows).1)
  }

  method SumColumns(rows: seq<GlRow>) returns (debit: int, credit: int)
    ensures (debit, credit) == Totals(rows)
  {
    debit, credit := 0, 0;
    for i := 0 to |rows|
      invariant (debit, credit) == Totals(rows[..i])
    {
      assert rows[..i + 1][..i] == rows[..i];
      debit, credit := debit + rows[i].debit, credit + rows[i].credit;
    }
    assert rows[..|rows|] == rows;
  }

  /** The accounts come in no particular order here; the code sorts them by account code. */
  method GeneralLedgerDetail(log: seq<Entry>, chart: Chart, w: Window, ids: Option<set<AccountId>>)
    returns (out: map<AccountId, GlAccount>)
    ensures forall a :: a in out <==>
              && (a in Touching(BeforeWindow(log, w.from)) || a in Touching(PostingsIn(log, w)))
              && Wanted(ids, a) && Find(chart, a).Some?
    ensures forall a :: a in out ==> out[a] == DetailOf(log, w, Find(chart, a).value)
  {
    var opening := Openings(log, w.from, ids);
    var rows, running := Rows(log, w, opening, ids);
    forall a ensures a in rows <==> a in Touching(PostingsIn(log, w)) && Wanted(ids, a) {
      assert RowsFitAt(rows, opening, PostingsIn(log, w), ids, a);
    }
    out := map[];
    var todo := opening.Keys + rows.Keys;
    while todo != {}
      invariant todo <= opening.Keys + rows.Keys
      invariant forall a :: a in out <==> a in opening.Keys + rows.Keys && a !in todo && Find(chart, a).Some?
      invariant forall a :: a in out ==> out[a] == DetailOf(log, w, Find(chart, a).value)
      decreases todo
    {
      var a :| a in todo;
      todo := todo - {a};
      var account := Find(chart, a);
      if account.Some? {
        var detail := Assembled(log, w, account.value, opening, rows, running, ids);
        out := out[a := detail];
      }
    }
  }

  method Assembled(ghost log: seq<Entry>, ghost w: Window, account: Account, opening: Balances,
                   rows: map<AccountId, seq<GlRow>>, running: Balances, ghost ids: Option<set<AccountId>>)
    returns (detail: GlAccount)
    requires RunsFrom(opening, map[], BeforeWindow(log, w.from), ids)
    requires RowsFit(rows, opening, PostingsIn(log, w), ids) && RunsFrom(running, opening, PostingsIn(log, w), ids)
    requires account.id in opening.Keys + rows.Keys
    ensures detail == DetailOf(log, w, account)
  {
    var a := account.id;
    assert RowsFitAt(rows, opening, PostingsIn(log, w), ids, a);
    var open := BalanceAt(opening, a);
    var list := if a in rows then rows[a] else [];
    if a !in opening {
      UntouchedIsZero(BeforeWindow(log, w.from), a, 0);
    }
    if a !in rows {
      UntouchedIsZero(PostingsIn(log, w), a, open);
    }
    var debit, credit := SumColumns(list);
    detail := GlAccount(account, open, list, if a in running then running[a] else open, debit, credit);
  }

  // --- what the report means -----------------------------------------------------------------------------------

  /** The balance before row i. */
  function BalanceBefore(rows: seq<GlRow>, i: nat, opening: int): int
    requires i <= |rows|
  {
    if i == 0 then opening else rows[i - 1].balance
  }

  /** Each row's balance is the one before it plus the row's change. */
  predicate Runs(rows: seq<GlRow>, opening: int) {
    forall i :: 0 <= i < |rows| ==> rows[i].balance == BalanceBefore(rows, i, opening) + rows[i].change
  }

  lemma {:induction false} ChangesRun(ps: seq<Posting>, a: AccountId, opening: int)
    ensures var rows := RowsOf(ps, a, opening);
            && Totals(rows).0 - Totals(rows).1 == NetOf(ps, a) && Runs(rows, opening)
            && opening + NetOf(ps, a) == BalanceBefore(rows, |rows|, opening)
  {
    if ps != [] {
      var front, last := ps[..|ps| - 1], ps[|ps| - 1];
      ChangesRun(front, a, opening);
      if last.1.accountId == a {
        var rows, row := RowsOf(front, a, opening), RowFor(last, opening + NetOf(front, a));
        assert RowsOf(ps, a, opening) == rows + [row];
        AppendedRow(rows, row, opening);
        AppendedTotals(rows, row);
      }
    }
  }

  lemma AppendedRow(rows: seq<GlRow>, row: GlRow, opening: int)
    requires Runs(rows, opening) && row.balance == BalanceBefore(rows, |rows|, opening) + row.change
    ensures Runs(rows + [row], opening)
  {
    var all := rows + [row];
    forall i | 0 <= i < |all| ensures all[i].balance == BalanceBefore(all, i, opening) + all[i].change {
      if i < |rows| {
        assert all[i] == rows[i] && BalanceBefore(all, i, opening) == BalanceBefore(rows, i, opening);
      } else {
        assert all[i] == row && BalanceBefore(all, i, opening) == BalanceBefore(rows, i, opening);
      }
    }
  }

  lemma AppendedTotals(rows: seq<GlRow>, row: GlRow)
    requires row.change == row.debit - row.credit
    ensures Totals(rows + [row]).0 - Totals(rows + [row]).1 == Totals(rows).0 - Totals(rows).1 + row.change
  {
    assert (rows + [row])[..|rows + [row]| - 1] == rows;
  }

  lemma {:induction false} PostingsNet(a: seq<Posting>, b: seq<Posting>, id: AccountId)
    ensures NetOf(a + b, id) == NetOf(a, id) + NetOf(b, id)
  {
    if b == [] {
      assert a + b == a;
    } else {
      assert (a + b)[..|a + b| - 1] == a + b[..|b| - 1];
      PostingsNet(a, b[..|b| - 1], id);
    }
  }

  lemma {:induction false} EntryNet(e: Entry, n: nat, a: AccountId)
    requires n <= |e.Lines()|
    ensures NetOf(PostingsOf(e)[..n], a) == LinesNet(e.Lines()[..n], a)
  {
    if n > 0 {
      EntryNet(e, n - 1, a);
      assert PostingsOf(e)[..n][..n - 1] == PostingsOf(e)[..n - 1] && e.Lines()[..n][..n - 1] == e.Lines()[..n - 1];
    }
  }

  /** What came before the window and what is in it make up everything through its end. */
  lemma {:induction false} OpeningAndWindowMakeTheNet(log: seq<Entry>, w: Window, a: AccountId)
    requires w.from.Some? && w.to.Some? ==> w.from.value <= w.to.value
    ensures NetOf(BeforeWindow(log, w.from), a) + NetOf(PostingsIn(log, w), a) == Net(log, Window(None, w.to), a)
  {
    if log != [] {
      var front, last := log[..|log| - 1], log[|log| - 1];
      OpeningAndWindowMakeTheNet(front, w, a);
      EntryNet(last, |last.Lines()|, a);
      assert PostingsOf(last)[..|last.Lines()|] == PostingsOf(last) && last.Lines()[..|last.Lines()|] == last.Lines();
      PostingsNet(BeforeWindow(front, w.from), PostingsOf(last), a);
      PostingsNet(PostingsIn(front, w), PostingsOf(last), a);
      assert BeforeWindow(front, w.from) + [] == BeforeWindow(front, w.from);
      assert PostingsIn(front, w) + [] == PostingsIn(front, w);
    }
  }

  /**
   * For every account and window: closing is opening plus the changes, is the last running balance, and is
   * the account's net as of the end of the window.
   */
  lemma DetailAgreesWithTheNet(log: seq<Entry>, w: Window, account: Account)
    requires w.from.Some? && w.to.Some? ==> w.from.value <= w.to.value
    ensures var d := DetailOf(log, w, account);
            && d.closing == d.opening + d.totalDebit - d.totalCredit && Runs(d.rows, d.opening)
            && d.closing == (if d.rows == [] then d.opening else d.rows[|d.rows| - 1].balance)
            && d.closing == Net(log, Window(None, w.to), account.id)
  {
    var opening := NetOf(BeforeWindow(log, w.from), account.id);
    ChangesRun(PostingsIn(log, w), account.id, opening);
    OpeningAndWindowMakeTheNet(log, w, account.id);
  }

  // --- what a row shows ---------------------------------------------------------------------------------

  /** A row shows its entry and its line: the amount on the line's side, the line's memo or else the entry's. */
  lemma RowShows(p: Posting, prev: int)
    ensures var (e, l) := p;
            var row := RowFor(p, prev);
            && row.entryId == e.id && row.sequence == e.sequence && row.date == e.draft.payload.entryDate
            && (l.memo != "" ==> row.memo == l.memo) && (l.memo == "" ==> row.memo == e.draft.payload.memo)
            && (l.side == DEBIT ==> row.debit == l.amount && row.credit == 0)
            && (l.side == CREDIT ==> row.credit == l.amount && row.debit == 0)
            && row.change == row.debit - row.credit && row.balance == prev + row.change
  {
  }

  /** Each of an account's rows is one of its postings. */
  lemma {:induction false} RowsAreLines(ps: seq<Posting>, a: AccountId, opening: int, i: nat)
    requires i < |RowsOf(ps, a, opening)|
    ensures exists p :: p in ps && p.1.accountId == a && RowsOf(ps, a, opening)[i].entryId == p.0.id
                     && RowsOf(ps, a, opening)[i].change == Signed(p.1)
  {
    var front, last := ps[..|ps| - 1], ps[|ps| - 1];
    assert ps == front + [last];
    if i < |RowsOf(front, a, opening)| {
      RowsAreLines(front, a, opening, i);
    } else {
      assert last in ps;
    }
  }
}
