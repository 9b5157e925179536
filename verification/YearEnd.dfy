/** Fiscal years and the closing journal that rolls income into retained earnings (close yearEnd.ts). */
module YearEnd {
  import opened Text
  import opened Dates
  import opened Sums
  import opened Ledger
  import opened Chart
  import opened LedgerStore
  import opened PostingEngine
  import opened TrialBalance

  // --- fiscal years ---------------------------------------------------------------------------------------

  function FirstDay(fiscalYear: int, startMonth: int): Date {
    if startMonth == 1 then FromParts(fiscalYear, 1, 1) else FromParts(fiscalYear - 1, startMonth, 1)
  }

  function LastDay(fiscalYear: int, startMonth: int): Date {
    if startMonth == 1 then FromParts(fiscalYear, 12, 31)
    else FromParts(fiscalYear, startMonth - 1, DaysIn(fiscalYear, startMonth - 1))
  }

  /** Fiscal years follow one another: each starts the day after the last one ends. */
  lemma FiscalYearsTile(fiscalYear: int, startMonth: int)
    requires fiscalYear > 1 && 1 <= startMonth <= 12
    ensures ValidDate(FirstDay(fiscalYear, startMonth)) && ValidDate(LastDay(fiscalYear, startMonth))
    ensures FirstDay(fiscalYear, startMonth) <= LastDay(fiscalYear, startMonth)
    ensures PreviousDay(FirstDay(fiscalYear + 1, startMonth)) == LastDay(fiscalYear, startMonth)
  {
    PartsOf(fiscalYear, 1, 1);
    PartsOf(fiscalYear + 1, 1, 1);
    PartsOf(fiscalYear - 1, startMonth, 1);
    PartsOf(fiscalYear, startMonth, 1);
    PartsOf(fiscalYear, 12, 31);
    if startMonth > 1 {
      PartsOf(fiscalYear, startMonth - 1, DaysIn(fiscalYear, startMonth - 1));
    }
  }

  // --- the closing journal ----------------------------------------------------------------------------------

  datatype CloseOptions = CloseOptions(
    tenantId: TenantId, currency: string, retainedEarningsId: AccountId, entryDate: Date, fiscalYear: nat,
    provenance: Provenance, memo: string)

  datatype YearEndClose = YearEndClose(command: Command, netIncome: int, closedAccounts: seq<AccountId>)

  predicate Earns(r: Row) {
    r.account.accountType == REVENUE || r.account.accountType == EXPENSE
  }

  /** The line that takes a row's balance back to zero. */
  function ZeroingLine(r: Row, currency: string): Line {
    var signed := r.debit - r.credit;
    Line(r.account.id, if signed < 0 then DEBIT else CREDIT, if signed < 0 then -signed else signed, currency,
         "Close to retained earnings", [])
  }

  predicate Closes(r: Row) {
    Earns(r) && r.debit != r.credit
  }

  function ZeroingLines(rows: seq<Row>, currency: string): seq<Line> {
    if rows == [] then []
    else
      var front, last := ZeroingLines(rows[..|rows| - 1], currency), rows[|rows| - 1];
      if Closes(last) then front + [ZeroingLine(last, currency)] else front
  }

  function IncomeLine(o: CloseOptions, netIncome: int): Line {
    Line(o.retainedEarningsId, if netIncome > 0 then CREDIT else DEBIT, if netIncome < 0 then -netIncome else netIncome, o.currency,
         if netIncome > 0 then "Net income to retained earnings" else "Net loss to retained earnings", [])
  }

  /** Debits less credits of the zeroing lines: the year's net income. */
  function ClosingLines(rows: seq<Row>, o: CloseOptions): seq<Line> {
    var lines := ZeroingLines(rows, o.currency);
    if LinesTotal(lines) == 0 then lines else lines + [IncomeLine(o, LinesTotal(lines))]
  }

  function ClosingCommand(o: CloseOptions, lines: seq<Line>): Command {
    Command(o.tenantId, "yearend:" + NatText(o.fiscalYear),
            Payload(o.currency, MonthOf(o.entryDate), o.entryDate, o.memo, o.provenance, lines))
  }

  method BuildYearEndClose(rows: seq<Row>, o: CloseOptions) returns (r: YearEndClose)
    ensures r.command == ClosingCommand(o, ClosingLines(rows, o))
    ensures r.netIncome == LinesTotal(ZeroingLines(rows, o.currency))
    ensures forall a :: a in r.closedAccounts <==> exists row :: row in rows && Closes(row) && row.account.id == a
  {
    var lines: seq<Line> := [];
    var closed: seq<AccountId> := [];
    var debitTotal, creditTotal := 0, 0;
    for i := 0 to |rows|
      invariant lines == ZeroingLines(rows[..i], o.currency)
      invariant debitTotal - creditTotal == LinesTotal(lines)
      invariant forall a :: a in closed <==> exists row :: row in rows[..i] && Closes(row) && row.account.id == a
    {
      assert rows[..i + 1][..i] == rows[..i];
      assert rows[..i + 1] == rows[..i] + [rows[i]];
      var row := rows[i];
      if row.account.accountType == REVENUE || row.account.accountType == EXPENSE {
        var signed := row.debit - row.credit;
        if signed != 0 {
          closed := closed + [row.account.id];
          var line := ZeroingLine(row, o.currency);
          assert (lines + [line])[..|lines|] == lines;
          lines := lines + [line];
          if signed < 0 {
            debitTotal := debitTotal - signed;
          } else {
            creditTotal := creditTotal + signed;
          }
        }
      }
    }
    assert rows[..|rows|] == rows;
    var netIncome := debitTotal - creditTotal;
    if netIncome != 0 {
      lines := lines + [IncomeLine(o, netIncome)];
    }
    r := YearEndClose(ClosingCommand(o, lines), netIncome, closed);
  }

  lemma {:induction false} ZeroingLinesArePositive(rows: seq<Row>, currency: string)
    ensures forall l :: l in ZeroingLines(rows, currency) ==> l.amount > 0
    ensures |ZeroingLines(rows, currency)| == 1 ==> LinesTotal(ZeroingLines(rows, currency)) != 0
  {
    if rows != [] {
      var front, last := rows[..|rows| - 1], rows[|rows| - 1];
      ZeroingLinesArePositive(front, currency);
      if Closes(last) {
        var lines := ZeroingLines(front, currency);
        assert (lines + [ZeroingLine(last, currency)])[..|lines|] == lines;
      }
    }
  }

  lemma {:induction false} ZeroingLinesExist(rows: seq<Row>, currency: string)
    ensures |ZeroingLines(rows, currency)| > 0 <==> exists r :: r in rows && Closes(r)
  {
    if rows != [] {
      var front, last := rows[..|rows| - 1], rows[|rows| - 1];
      ZeroingLinesExist(front, currency);
      assert rows == front + [last];
    }
  }

  /** The closing journal balances exactly when some revenue or expense account has a balance to close. */
  lemma ClosingBalancesIffThereIsSomethingToClose(rows: seq<Row>, o: CloseOptions)
    ensures Balanced(ClosingLines(rows, o)) <==> exists r :: r in rows && Closes(r)
  {
    var lines := ZeroingLines(rows, o.currency);
    ZeroingLinesArePositive(rows, o.currency);
    ZeroingLinesExist(rows, o.currency);
    if LinesTotal(lines) != 0 {
      var last := IncomeLine(o, LinesTotal(lines));
      assert (lines + [last])[..|lines|] == lines;
      assert lines != [];
    }
    forall i | 0 <= i < |lines| ensures lines[i].amount > 0 {
      assert lines[i] in lines;
    }
  }

  // --- what the close does to the books -------------------------------------------------------------------------

  /** The zeroing lines undo each earning account's row, and touch no other account. */
  lemma {:induction false} ZeroingNets(rows: seq<Row>, lines: seq<Line>, chart: Chart, currency: string, a: AccountId)
    requires DistinctRows(rows) && forall r :: r in rows ==> RowFits(r, lines, chart)
    ensures LinesNet(ZeroingLines(rows, currency), a) ==
            if a in RowIds(rows) && (HasType(chart, REVENUE)(a) || HasType(chart, EXPENSE)(a)) then -LinesNet(lines, a) else 0
  {
    if rows != [] {
      var front, last := rows[..|rows| - 1], rows[|rows| - 1];
      FrontRowsFit(rows, lines, chart);
      ZeroingNets(front, lines, chart, currency, a);
      OneMoreZeroed(ZeroingLines(front, currency), last, lines, chart, currency, a);
    }
  }

  lemma FrontRowsFit(rows: seq<Row>, lines: seq<Line>, chart: Chart)
    requires rows != [] && DistinctRows(rows) && forall r :: r in rows ==> RowFits(r, lines, chart)
    ensures var front, last := rows[..|rows| - 1], rows[|rows| - 1];
            && DistinctRows(front) && (forall r :: r in front ==> RowFits(r, lines, chart)) && RowFits(last, lines, chart)
            && RowIds(rows) == RowIds(front) + {last.account.id} && last.account.id !in RowIds(front)
  {
    var front, last := rows[..|rows| - 1], rows[|rows| - 1];
    assert rows == front + [last];
    AppendedRowId(front, last);
    assert last in rows;
    forall r | r in front ensures RowFits(r, lines, chart) && r.account.id != last.account.id {
      var i :| 0 <= i < |front| && front[i] == r;
      assert rows[i] == r && rows[|front|] == last;
    }
  }

  lemma OneMoreZeroed(zeroed: seq<Line>, row: Row, lines: seq<Line>, chart: Chart, currency: string, a: AccountId)
    requires RowFits(row, lines, chart)
    ensures Closes(row) ==>
              LinesNet(zeroed + [ZeroingLine(row, currency)], a)
              == LinesNet(zeroed, a) - if row.account.id == a then LinesNet(lines, a) else 0
    ensures Earns(row) <==> HasType(chart, REVENUE)(row.account.id) || HasType(chart, EXPENSE)(row.account.id)
    ensures Earns(row) && !Closes(row) ==> LinesNet(lines, row.account.id) == 0
  {
    assert (zeroed + [ZeroingLine(row, currency)])[..|zeroed|] == zeroed;
    assert HasType(chart, REVENUE)(row.account.id) <==> row.account.accountType == REVENUE;
    assert HasType(chart, EXPENSE)(row.account.id) <==> row.account.accountType == EXPENSE;
  }

  /** The books with the closing entry posted on a date of the window. */
  ghost predicate ClosedBy(log: seq<Entry>, closed: seq<Entry>, w: Window, rows: seq<Row>, o: CloseOptions) {
    && InWindow(o.entryDate, w) && |closed| == |log| + 1 && closed[..|log|] == log
    && closed[|log|].Date() == o.entryDate && closed[|log|].Lines() == ClosingLines(rows, o)
  }

  /** Retained earnings is an account of its own, not one of those closed. */
  ghost predicate RetainedApart(chart: Chart, o: CloseOptions) {
    !HasType(chart, REVENUE)(o.retainedEarningsId) && !HasType(chart, EXPENSE)(o.retainedEarningsId)
  }

  lemma ClosingNets(rows: seq<Row>, log: seq<Entry>, w: Window, chart: Chart, o: CloseOptions, a: AccountId)
    requires IsTrialBalance(rows, LinesIn(log, w), chart) && RetainedApart(chart, o)
    ensures var net, income := LinesNet(ClosingLines(rows, o), a), LinesTotal(ZeroingLines(rows, o.currency));
            && ((HasType(chart, REVENUE)(a) || HasType(chart, EXPENSE)(a)) ==> net == -Net(log, w, a))
            && (!HasType(chart, REVENUE)(a) && !HasType(chart, EXPENSE)(a) ==>
                  net == if a == o.retainedEarningsId then -income else 0)
  {
    var lines := LinesIn(log, w);
    ZeroingNets(rows, lines, chart, o.currency, a);
    NetIsOfLinesIn(log, w, a);
    var zeroing := ZeroingLines(rows, o.currency);
    if LinesTotal(zeroing) != 0 {
      var last := IncomeLine(o, LinesTotal(zeroing));
      assert (zeroing + [last])[..|zeroing|] == zeroing;
    }
    if a !in RowIds(rows) && (HasType(chart, REVENUE)(a) || HasType(chart, EXPENSE)(a)) {
      assert a !in Accounts(lines);
      forall i | 0 <= i < |lines| ensures lines[i].accountId != a {
        assert lines[i] in lines;
      }
      UntouchedNetIsZero(lines, a);
    }
  }

  /**
   * Posting the close on a date inside the window zeroes every revenue and expense account over it, moves
   * retained earnings by the year's income and leaves every other account alone.
   */
  lemma CloseZeroesEarnings(rows: seq<Row>, log: seq<Entry>, closed: seq<Entry>, w: Window, chart: Chart, o: CloseOptions, a: AccountId)
    requires IsTrialBalance(rows, LinesIn(log, w), chart) && RetainedApart(chart, o) && ClosedBy(log, closed, w, rows, o)
    ensures HasType(chart, REVENUE)(a) || HasType(chart, EXPENSE)(a) ==> Net(closed, w, a) == 0
    ensures !HasType(chart, REVENUE)(a) && !HasType(chart, EXPENSE)(a) ==>
              Net(closed, w, a) == Net(log, w, a)
                - if a == o.retainedEarningsId then LinesTotal(ZeroingLines(rows, o.currency)) else 0
  {
    ClosingNets(rows, log, w, chart, o, a);
    ClosedNet(rows, log, closed, w, o, a);
  }

  lemma ClosedNet(rows: seq<Row>, log: seq<Entry>, closed: seq<Entry>, w: Window, o: CloseOptions, a: AccountId)
    requires ClosedBy(log, closed, w, rows, o)
    ensures Net(closed, w, a) == Net(log, w, a) + LinesNet(ClosingLines(rows, o), a)
  {
    assert closed == log + [closed[|log|]];
    NetOfAppended(log, closed[|log|], w, a);
  }

  /** Equity and earnings together. */
  ghost function OwnersSide(chart: Chart): AccountId -> bool {
    a => HasType(chart, EQUITY)(a) || HasType(chart, REVENUE)(a) || HasType(chart, EXPENSE)(a)
  }

  lemma ClosingTotalsZero(rows: seq<Row>, o: CloseOptions)
    ensures LinesTotal(ClosingLines(rows, o)) == 0
  {
    var zeroing := ZeroingLines(rows, o.currency);
    if LinesTotal(zeroing) != 0 {
      var last := IncomeLine(o, LinesTotal(zeroing));
      assert (zeroing + [last])[..|zeroing|] == zeroing;
    }
  }

  /** The close moves nothing in or out of equity and earnings together, whichever window is read. */
  lemma CloseKeepsTotalEquity(rows: seq<Row>, log: seq<Entry>, closed: seq<Entry>, year: Window, w: Window, chart: Chart,
                              o: CloseOptions)
    requires IsTrialBalance(rows, LinesIn(log, year), chart) && ClosedBy(log, closed, year, rows, o)
    requires HasType(chart, EQUITY)(o.retainedEarningsId)
    ensures Selected(LinesIn(closed, w), OwnersSide(chart)) == Selected(LinesIn(log, w), OwnersSide(chart))
  {
    var lines, e := ClosingLines(rows, o), closed[|log|];
    assert closed[..|closed| - 1] == log;
    SelectedAppends(LinesIn(log, w), if InWindow(e.Date(), w) then lines else [], OwnersSide(chart));
    ClosingAccountsAreOwners(rows, LinesIn(log, year), chart, o);
    SelectingAllIsTotal(lines, OwnersSide(chart));
    ClosingTotalsZero(rows, o);
  }

  lemma ClosingAccountsAreOwners(rows: seq<Row>, lines: seq<Line>, chart: Chart, o: CloseOptions)
    requires forall r :: r in rows ==> RowFits(r, lines, chart)
    requires HasType(chart, EQUITY)(o.retainedEarningsId)
    ensures forall l :: l in ClosingLines(rows, o) ==> OwnersSide(chart)(l.accountId)
  {
    forall l | l in ClosingLines(rows, o) ensures OwnersSide(chart)(l.accountId) {
      if l in ZeroingLines(rows, o.currency) {
        ZeroingAccounts(rows, o.currency, l);
        var r :| r in rows && Closes(r) && l.accountId == r.account.id;
        assert RowFits(r, lines, chart);
        OneMoreZeroed([], r, lines, chart, o.currency, "");
      }
    }
  }

  lemma {:induction false} ZeroingAccounts(rows: seq<Row>, currency: string, l: Line)
    requires l in ZeroingLines(rows, currency)
    ensures exists r :: r in rows && Closes(r) && l.accountId == r.account.id
  {
    var front, last := rows[..|rows| - 1], rows[|rows| - 1];
    assert rows == front + [last];
    if l in ZeroingLines(front, currency) {
      ZeroingAccounts(front, currency, l);
    } else {
      assert last in rows && Closes(last);
    }
  }

  /** Closing closed books: there is nothing left to close, and the engine appends nothing. */
  lemma ClosingTwiceAppendsNothing(rows: seq<Row>, again: seq<Row>, b: Books, closed: seq<Entry>, w: Window,
                                   o: CloseOptions, postedAt: string)
    requires IsTrialBalance(rows, LinesIn(b.log, w), b.chart) && RetainedApart(b.chart, o) && ClosedBy(b.log, closed, w, rows, o)
    requires IsTrialBalance(again, LinesIn(closed, w), b.chart)
    ensures ClosingLines(again, o) == []
    ensures PostTo(b.(log := closed), ClosingCommand(o, ClosingLines(again, o)), postedAt).0.log == closed
  {
    forall r | r in again ensures !Closes(r) {
      assert RowFits(r, LinesIn(closed, w), b.chart);
      CloseZeroesEarnings(rows, b.log, closed, w, b.chart, o, r.account.id);
      NetIsOfLinesIn(closed, w, r.account.id);
      OneMoreZeroed([], r, LinesIn(closed, w), b.chart, o.currency, "");
    }
    ZeroingLinesExist(again, o.currency);
  }
}
