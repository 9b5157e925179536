/** Balances derived from posted lines alone (ledger-kernel trialBalance.ts). */
module TrialBalance {
  import opened Text
  import opened Dates
  import opened Sums
  import opened Ledger
  import opened Chart

  // --- the lines of a window, flat --------------------------------------------------------------

  /** Every line of every entry dated in the window, in posting order. */
  function LinesIn(log: seq<Entry>, w: Window): seq<Line> {
    if log == [] then []
    else
      var last := log[|log| - 1];
      LinesIn(log[..|log| - 1], w) + if InWindow(last.Date(), w) then last.Lines() else []
  }

  lemma {:induction false} NetIsOfLinesIn(log: seq<Entry>, w: Window, a: AccountId)
    ensures Net(log, w, a) == LinesNet(LinesIn(log, w), a)
  {
    if log != [] {
      var front, last := log[..|log| - 1], log[|log| - 1];
      NetIsOfLinesIn(front, w, a);
      LinesNetAppends(LinesIn(front, w), if InWindow(last.Date(), w) then last.Lines() else [], a);
    }
  }

  lemma {:induction false} BalancedEntriesCancel(log: seq<Entry>, w: Window)
    requires forall i :: 0 <= i < |log| ==> Balanced(log[i].Lines())
    ensures LinesTotal(LinesIn(log, w)) == 0
  {
    if log != [] {
      var front, last := log[..|log| - 1], log[|log| - 1];
      BalancedEntriesCancel(front, w);
      LinesNetAppends(LinesIn(front, w), if InWindow(last.Date(), w) then last.Lines() else [], "");
    }
  }

  lemma {:induction false} LinesInAreOfEntries(log: seq<Entry>, w: Window, l: Line)
    requires l in LinesIn(log, w)
    ensures exists i :: 0 <= i < |log| && l in log[i].Lines()
  {
    var front, last := log[..|log| - 1], log[|log| - 1];
    if l in LinesIn(front, w) {
      LinesInAreOfEntries(front, w, l);
      var i :| 0 <= i < |front| && l in front[i].Lines();
      assert l in log[i].Lines();
    } else {
      assert l in last.Lines();
    }
  }

  ghost function Accounts(lines: seq<Line>): set<AccountId> {
    set l | l in lines :: l.accountId
  }

  /** The signed total of the lines whose account is selected. */
  ghost function Selected(lines: seq<Line>, sel: AccountId -> bool): int {
    if lines == [] then 0
    else
      var last := lines[|lines| - 1];
      Selected(lines[..|lines| - 1], sel) + if sel(last.accountId) then Signed(last) else 0
  }

  lemma {:induction false} SelectedAppends(a: seq<Line>, b: seq<Line>, sel: AccountId -> bool)
    ensures Selected(a + b, sel) == Selected(a, sel) + Selected(b, sel)
  {
    if b == [] {
      assert a + b == a;
    } else {
      assert (a + b)[..|a + b| - 1] == a + b[..|b| - 1];
      SelectedAppends(a, b[..|b| - 1], sel);
    }
  }

  ghost function HasType(chart: Chart, of: AccountType): AccountId -> bool {
    a => Find(chart, a).Some? && Find(chart, a).value.accountType == of
  }

  /** The signed total of one account type over a window: assets, liabilities, equity, revenue, expense. */
  ghost function TypeTotal(log: seq<Entry>, w: Window, chart: Chart, of: AccountType): int {
    Selected(LinesIn(log, w), HasType(chart, of))
  }

  lemma {:induction false} SameSelection(lines: seq<Line>, p: AccountId -> bool, q: AccountId -> bool)
    requires forall l :: l in lines ==> p(l.accountId) == q(l.accountId)
    ensures Selected(lines, p) == Selected(lines, q)
  {
    if lines != [] {
      assert lines[|lines| - 1] in lines;
      SameSelection(lines[..|lines| - 1], p, q);
    }
  }

  /** Every charted account has one of the five types. */
  lemma {:induction false} FiveTypesMakeTheTotal(lines: seq<Line>, chart: Chart)
    requires forall l :: l in lines ==> Find(chart, l.accountId).Some?
    ensures Selected(lines, HasType(chart, ASSET)) + Selected(lines, HasType(chart, LIABILITY))
          + Selected(lines, HasType(chart, EQUITY)) + Selected(lines, HasType(chart, REVENUE))
          + Selected(lines, HasType(chart, EXPENSE)) == LinesTotal(lines)
  {
    if lines != [] {
      assert lines[|lines| - 1] in lines;
      FiveTypesMakeTheTotal(lines[..|lines| - 1], chart);
    }
  }

  /** Selecting by disjoint conditions adds up to selecting by either. */
  lemma {:induction false} SelectedSplits(lines: seq<Line>, p: AccountId -> bool, q: AccountId -> bool, r: AccountId -> bool)
    requires forall l :: l in lines ==> (r(l.accountId) <==> p(l.accountId) || q(l.accountId))
    requires forall l :: l in lines ==> !(p(l.accountId) && q(l.accountId))
    ensures Selected(lines, r) == Selected(lines, p) + Selected(lines, q)
  {
    if lines != [] {
      SelectedSplits(lines[..|lines| - 1], p, q, r);
      assert lines[|lines| - 1] in lines;
    }
  }

  lemma {:induction false} SelectingAllIsTotal(lines: seq<Line>, sel: AccountId -> bool)
    requires forall l :: l in lines ==> sel(l.accountId)
    ensures Selected(lines, sel) == LinesTotal(lines)
  {
    if lines != [] {
      SelectingAllIsTotal(lines[..|lines| - 1], sel);
      assert lines[|lines| - 1] in lines;
    }
  }

  ghost function SelectedNets(lines: seq<Line>, sel: AccountId -> bool): map<AccountId, int> {
    map a | a in Accounts(lines) && sel(a) :: LinesNet(lines, a)
  }

  /** Adding up account by account is adding up line by line. */
  lemma {:induction false} AccountsSumToLines(lines: seq<Line>, sel: AccountId -> bool)
    ensures Sum(SelectedNets(lines, sel)) == Selected(lines, sel)
  {
    var nets := SelectedNets(lines, sel);
    if lines == [] {
      assert nets == map[];
    } else {
      var front, last := lines[..|lines| - 1], lines[|lines| - 1];
      AccountsSumToLines(front, sel);
      SelectedNetsGrow(lines, sel);
      if sel(last.accountId) {
        SumAfterUpdate(SelectedNets(front, sel), last.accountId, LinesNet(lines, last.accountId));
      }
    }
  }

  lemma SelectedNetsGrow(lines: seq<Line>, sel: AccountId -> bool)
    requires lines != []
    ensures var front, last := lines[..|lines| - 1], lines[|lines| - 1];
            var before, after := SelectedNets(front, sel), SelectedNets(lines, sel);
            if sel(last.accountId)
            then after == before[last.accountId := LinesNet(lines, last.accountId)]
                 && LinesNet(lines, last.accountId) == At(before, last.accountId) + Signed(last)
            else after == before
  {
    var front, last := lines[..|lines| - 1], lines[|lines| - 1];
    assert lines == front + [last];
    assert Accounts(lines) == Accounts(front) + {last.accountId};
    LastNet(front, last);
    forall a | a in Accounts(front) ensures a != last.accountId ==> LinesNet(lines, a) == LinesNet(front, a) {
    }
  }

  lemma LastNet(front: seq<Line>, last: Line)
    ensures LinesNet(front + [last], last.accountId)
         == (if last.accountId in Accounts(front) then LinesNet(front, last.accountId) else 0) + Signed(last)
  {
    assert (front + [last])[..|front|] == front;
    if last.accountId !in Accounts(front) {
      UntouchedNetIsZero(front, last.accountId);
    }
  }

  // --- netByAccount -------------------------------------------------------------------------------

  /** The map holds every account touched in the window with its net position, and no other. */
  ghost predicate IsNetMap(net: map<AccountId, int>, lines: seq<Line>) {
    && (forall a :: a in net <==> a in Accounts(lines))
    && (forall a :: a in net ==> net[a] == LinesNet(lines, a))
  }

  method NetByAccount(log: seq<Entry>, w: Window) returns (net: map<AccountId, int>)
    ensures IsNetMap(net, LinesIn(log, w))
  {
    net := map[];
    for i := 0 to |log|
      invariant IsNetMap(net, LinesIn(log[..i], w))
    {
      NextEntry(log, w, i);
      if InWindow(log[i].Date(), w) {
        net := AddLines(net, LinesIn(log[..i], w), log[i].Lines());
      }
    }
    assert log[..|log|] == log;
  }

  lemma NextEntry(log: seq<Entry>, w: Window, i: nat)
    requires i < |log|
    ensures LinesIn(log[..i + 1], w)
         == if InWindow(log[i].Date(), w) then LinesIn(log[..i], w) + log[i].Lines() else LinesIn(log[..i], w)
  {
    assert log[..i + 1][..i] == log[..i];
  }

  /** The inner loop: one entry's lines on top of the lines already counted. */
  method AddLines(start: map<AccountId, int>, ghost before: seq<Line>, lines: seq<Line>)
    returns (net: map<AccountId, int>)
    requires IsNetMap(start, before)
    ensures IsNetMap(net, before + lines)
  {
    net := start;
    assert before + lines[..0] == before;
    for j := 0 to |lines|
      invariant IsNetMap(net, before + lines[..j])
    {
      var line := lines[j];
      NextLine(net, before, lines, j);
      var delta := if line.side == DEBIT then line.amount else -line.amount;
      net := net[line.accountId := (if line.accountId in net then net[line.accountId] else 0) + delta];
    }
    assert lines[..|lines|] == lines;
  }

  lemma OneMoreLine(net: map<AccountId, int>, lines: seq<Line>, line: Line)
    requires IsNetMap(net, lines)
    ensures IsNetMap(net[line.accountId := At(net, line.accountId) + Signed(line)], lines + [line])
  {
    assert (lines + [line])[..|lines|] == lines;
    assert Accounts(lines + [line]) == Accounts(lines) + {line.accountId};
    if line.accountId !in net {
      UntouchedNetIsZero(lines, line.accountId);
    }
  }

  lemma NextLine(net: map<AccountId, int>, before: seq<Line>, lines: seq<Line>, j: nat)
    requires j < |lines| && IsNetMap(net, before + lines[..j])
    ensures IsNetMap(net[lines[j].accountId := At(net, lines[j].accountId) + Signed(lines[j])], before + lines[..j + 1])
  {
    OneMoreLine(net, before + lines[..j], lines[j]);
    assert before + lines[..j + 1] == (before + lines[..j]) + [lines[j]];
  }

  /** The accounts any posted line references, reversals included (chartEdit.ts). */
  method PostedAccountIds(log: seq<Entry>) returns (ids: set<AccountId>)
    ensures ids == Accounts(LinesIn(log, Always))
  {
    ids := {};
    for i := 0 to |log|
      invariant ids == Accounts(LinesIn(log[..i], Always))
    {
      assert log[..i + 1][..i] == log[..i];
      ids := ids + set l | l in log[i].Lines() :: l.accountId;
    }
    assert log[..|log|] == log;
  }

  // --- computeTrialBalance -----------------------------------------------------------------------

  datatype Row = Row(account: Account, debit: int, credit: int)

  datatype Report = Report(rows: seq<Row>, totalDebit: int, totalCredit: int, inBalance: bool)

  function RowFor(a: Account, net: int): Row {
    Row(a, if net > 0 then net else 0, if net < 0 then -net else 0)
  }

  function Columns(rows: seq<Row>): (int, int) {
    if rows == [] then (0, 0)
    else
      var (d, c) := Columns(rows[..|rows| - 1]);
      (d + rows[|rows| - 1].debit, c + rows[|rows| - 1].credit)
  }

  ghost predicate DistinctRows(rows: seq<Row>) {
    forall i, j :: 0 <= i < j < |rows| ==> rows[i].account.id != rows[j].account.id
  }

  ghost function RowIds(rows: seq<Row>): set<AccountId> {
    set r | r in rows :: r.account.id
  }

  /** One row per touched account of the chart, in the column its net position belongs to. */
  ghost predicate IsTrialBalance(rows: seq<Row>, lines: seq<Line>, chart: Chart) {
    && DistinctRows(rows)
    && (forall r :: r in rows ==> RowFits(r, lines, chart))
    && (forall a :: a in Accounts(lines) && Find(chart, a).Some? ==> a in RowIds(rows))
  }

  /** The rows come in no particular order here; the code sorts them by account code. */
  method ComputeTrialBalance(log: seq<Entry>, w: Window, chart: Chart) returns (tb: Report)
    ensures IsTrialBalance(tb.rows, LinesIn(log, w), chart)
    ensures (tb.totalDebit, tb.totalCredit) == Columns(tb.rows)
    ensures tb.inBalance <==> tb.totalDebit == tb.totalCredit
  {
    var net := NetByAccount(log, w);
    ghost var lines := LinesIn(log, w);
    var rows: seq<Row> := [];
    var totalDebit, totalCredit := 0, 0;
    var todo := net.Keys;
    while todo != {}
      invariant todo <= net.Keys
      invariant (totalDebit, totalCredit) == Columns(rows)
      invariant RowsBut(todo, rows, lines, chart)
      decreases todo
    {
      var id :| id in todo;
      var account := Find(chart, id);
      if account.Some? {
        var row := RowFor(account.value, net[id]);
        OneMoreRow(row, todo, rows, lines, chart);
        totalDebit, totalCredit := totalDebit + row.debit, totalCredit + row.credit;
        rows := rows + [row];
      }
      todo := todo - {id};
    }
    tb := Report(rows, totalDebit, totalCredit, totalDebit == totalCredit);
  }

  /** The trial balance of every account but those still to do. */
  ghost predicate RowsBut(todo: set<AccountId>, rows: seq<Row>, lines: seq<Line>, chart: Chart) {
    && DistinctRows(rows)
    && (forall r :: r in rows ==> RowFits(r, lines, chart) && r.account.id !in todo)
    && (forall a :: a in Accounts(lines) && a !in todo && Find(chart, a).Some? ==> a in RowIds(rows))
  }

  /** A row is what the trial balance says of its account. */
  ghost predicate RowFits(r: Row, lines: seq<Line>, chart: Chart) {
    && Find(chart, r.account.id) == Some(r.account) && r.account.id in Accounts(lines)
    && r == RowFor(r.account, LinesNet(lines, r.account.id))
  }

  lemma OneMoreRow(row: Row, todo: set<AccountId>, rows: seq<Row>, lines: seq<Line>, chart: Chart)
    requires RowsBut(todo, rows, lines, chart) && RowFits(row, lines, chart) && row.account.id in todo
    ensures RowsBut(todo - {row.account.id}, rows + [row], lines, chart)
    ensures Columns(rows + [row]) == (Columns(rows).0 + row.debit, Columns(rows).1 + row.credit)
  {
    AppendedRow(rows, row);
  }

  lemma AppendedRow(rows: seq<Row>, row: Row)
    ensures RowIds(rows + [row]) == RowIds(rows) + {row.account.id}
    ensures DistinctRows(rows) && row.account.id !in RowIds(rows) ==> DistinctRows(rows + [row])
    ensures Columns(rows + [row]) == (Columns(rows).0 + row.debit, Columns(rows).1 + row.credit)
  {
    assert (rows + [row])[..|rows|] == rows;
    AppendedRowId(rows, row);
    if DistinctRows(rows) && row.account.id !in RowIds(rows) {
      forall i | 0 <= i < |rows| ensures rows[i].account.id != row.account.id {
        assert rows[i] in rows;
      }
    }
  }

  lemma AppendedRowId(rows: seq<Row>, row: Row)
    ensures RowIds(rows + [row]) == RowIds(rows) + {row.account.id}
  {
    assert forall r :: r in rows + [row] <==> r in rows || r == row;
  }

  // --- a trial balance adds up as its lines do ------------------------------------------------------

  function RowSigned(r: Row): int {
    r.debit - r.credit
  }

  /** The signed sum of the rows whose account is selected. */
  ghost function RowsSelected(rows: seq<Row>, sel: AccountId -> bool): int {
    if rows == [] then 0
    else
      var last := rows[|rows| - 1];
      RowsSelected(rows[..|rows| - 1], sel) + if sel(last.account.id) then RowSigned(last) else 0
  }

  lemma {:induction false} RowsSumToMap(rows: seq<Row>, m: map<AccountId, int>, sel: AccountId -> bool)
    requires DistinctRows(rows)
    requires forall r :: r in rows && sel(r.account.id) ==> r.account.id in m && m[r.account.id] == RowSigned(r)
    requires forall a :: a in m ==> a in RowIds(rows) && sel(a)
    ensures RowsSelected(rows, sel) == Sum(m)
  {
    if rows == [] {
      assert m == map[];
    } else {
      var front, last := rows[..|rows| - 1], rows[|rows| - 1];
      assert last in rows && RowIds(rows) == RowIds(front) + {last.account.id};
      forall r | r in front ensures r.account.id != last.account.id && r in rows {
        var i :| 0 <= i < |front| && front[i] == r;
        assert rows[i] == r;
      }
      if sel(last.account.id) {
        SumTakesAnyKey(m, last.account.id);
        RowsSumToMap(front, m - {last.account.id}, sel);
      } else {
        RowsSumToMap(front, m, sel);
      }
    }
  }

  /** For any selection of charted accounts, the rows add up to the lines. */
  lemma RowsSumToLines(rows: seq<Row>, lines: seq<Line>, chart: Chart, sel: AccountId -> bool)
    requires IsTrialBalance(rows, lines, chart)
    requires forall l :: l in lines && sel(l.accountId) ==> Find(chart, l.accountId).Some?
    ensures RowsSelected(rows, sel) == Selected(lines, sel)
  {
    var m := SelectedNets(lines, sel);
    forall r | r in rows && sel(r.account.id) ensures r.account.id in m && m[r.account.id] == RowSigned(r) {
      assert RowFits(r, lines, chart);
    }
    RowsSumToMap(rows, m, sel);
    AccountsSumToLines(lines, sel);
  }

  lemma {:induction false} ColumnsDifference(rows: seq<Row>, sel: AccountId -> bool)
    requires forall r :: r in rows ==> sel(r.account.id)
    ensures Columns(rows).0 - Columns(rows).1 == RowsSelected(rows, sel)
  {
    if rows != [] {
      assert rows[|rows| - 1] in rows;
      ColumnsDifference(rows[..|rows| - 1], sel);
    }
  }

  /** Over every window, the trial balance of balanced entries on charted accounts is in balance. */
  lemma TrialBalanceBalances(rows: seq<Row>, log: seq<Entry>, w: Window, chart: Chart)
    requires IsTrialBalance(rows, LinesIn(log, w), chart)
    requires forall i :: 0 <= i < |log| ==> Balanced(log[i].Lines())
    requires forall l :: l in LinesIn(log, w) ==> Find(chart, l.accountId).Some?
    ensures Columns(rows).0 == Columns(rows).1
  {
    var all := (a: AccountId) => true;
    ColumnsDifference(rows, all);
    RowsSumToLines(rows, LinesIn(log, w), chart, all);
    SelectingAllIsTotal(LinesIn(log, w), all);
    BalancedEntriesCancel(log, w);
  }
}
