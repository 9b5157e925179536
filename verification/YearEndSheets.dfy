/** When the engine takes a year-end close, and what it leaves of the balance sheet (close yearEnd.ts). */
module YearEndSheets {
  import opened Text
  import opened Dates
  import opened Ledger
  import opened Chart
  import opened LedgerStore
  import opened Fingerprint
  import opened PostingEngine
  import opened TrialBalance
  import opened Statements
  import opened StatementLaws
  import opened YearEnd
  import Periods
  import BookRuns

  // --- what the engine accepts -------------------------------------------------------------------------------------

  /** An account of the chart that takes postings in this currency. */
  ghost predicate Takes(chart: Chart, a: AccountId, currency: string) {
    Find(chart, a).Some? && Find(chart, a).value.active && Find(chart, a).value.currency == currency
  }

  lemma {:induction false} ClosingRowHasLine(rows: seq<Row>, currency: string, r: Row)
    requires r in rows && Closes(r)
    ensures ZeroingLine(r, currency) in ZeroingLines(rows, currency)
  {
    var front, last := rows[..|rows| - 1], rows[|rows| - 1];
    assert rows == front + [last];
    if r in front {
      ClosingRowHasLine(front, currency, r);
    }
  }

  lemma {:induction false} LinesCarryTheCurrency(rows: seq<Row>, o: CloseOptions)
    ensures forall l :: l in ZeroingLines(rows, o.currency) ==> l.currency == o.currency
  {
    if rows != [] {
      LinesCarryTheCurrency(rows[..|rows| - 1], o);
    }
  }

  /** Every account the close posts to takes it: each one closed, and retained earnings if income moves. */
  ghost predicate AccountsTake(rows: seq<Row>, chart: Chart, o: CloseOptions) {
    && (forall r :: r in rows && Closes(r) ==> Takes(chart, r.account.id, o.currency))
    && (LinesTotal(ZeroingLines(rows, o.currency)) != 0 ==> Takes(chart, o.retainedEarningsId, o.currency))
  }

  lemma LinesTakeIff(rows: seq<Row>, chart: Chart, o: CloseOptions)
    ensures (forall l :: l in ClosingLines(rows, o) ==> l.currency == o.currency && Takes(chart, l.accountId, o.currency))
            <==> AccountsTake(rows, chart, o)
  {
    LinesCarryTheCurrency(rows, o);
    var zeroing := ZeroingLines(rows, o.currency);
    forall l | l in zeroing ensures exists r :: r in rows && Closes(r) && l.accountId == r.account.id {
      ZeroingAccounts(rows, o.currency, l);
    }
    forall r | r in rows && Closes(r) ensures ZeroingLine(r, o.currency) in ClosingLines(rows, o) {
      ClosingRowHasLine(rows, o.currency, r);
    }
    if LinesTotal(zeroing) != 0 {
      assert IncomeLine(o, LinesTotal(zeroing)) in ClosingLines(rows, o);
    }
  }

  /**
   * The engine posts a close under a new key exactly when its month is open, some revenue or expense account
   * has a balance to close, and every account it posts to is active and in its currency. Under a used key it
   * answers exactly when that entry reads alike.
   */
  lemma CloseIsAcceptedIff(rows: seq<Row>, b: Books, o: CloseOptions, at: string)
    ensures var command := ClosingCommand(o, ClosingLines(rows, o));
            match ByKey(b.log, command.key)
            case None =>
              PostTo(b, command, at).1.Ok? <==>
              && Periods.StatusOf(b.locks, MonthOf(o.entryDate)) == Periods.OPEN
              && (exists r :: r in rows && Closes(r)) && AccountsTake(rows, b.chart, o)
            case Some(e) =>
              PostTo(b, command, at).1.Ok? <==> FingerprintOf(e.draft.payload) == FingerprintOf(command.payload)
  {
    var lines := ClosingLines(rows, o);
    AcceptedIffBalanced(lines, o.currency, b.chart);
    ClosingBalancesIffThereIsSomethingToClose(rows, o);
    LinesTakeIff(rows, b.chart, o);
    assert forall i :: 0 <= i < |lines| ==> lines[i] in lines;
    assert ByKey(b.log, "yearend:" + NatText(o.fiscalYear)).None? ==> !HasKey(b.log, "yearend:" + NatText(o.fiscalYear));
  }

  // --- the balance sheet --------------------------------------------------------------------------------

  /** Equity on the sheet, with the income of the period and of everything before it, is the owners' side of the books. */
  lemma EquityIsTheOwnersSide(log: seq<Entry>, chart: Chart, from: Date, to: Date,
                              period: seq<Row>, end: seq<Row>, start: seq<Row>)
    requires SoundBooks(log, chart) && ValidDate(from) && from <= to
    requires IsTrialBalance(period, LinesIn(log, Between(from, to)), chart)
    requires IsTrialBalance(end, LinesIn(log, Through(to)), chart)
    requires IsTrialBalance(start, LinesIn(log, Through(PreviousDay(from))), chart)
    ensures SheetOf(period, end, start).equity == -Selected(LinesIn(log, Through(to)), OwnersSide(chart))
  {
    NetIncomeOfWindow(period, log, Between(from, to), chart);
    NetIncomeOfWindow(start, log, Through(PreviousDay(from)), chart);
    WindowsSplit(log, from, to, HasType(chart, REVENUE));
    WindowsSplit(log, from, to, HasType(chart, EXPENSE));
    TypeTotalsMatch(end, log, Through(to), chart, EQUITY);
    ClassSum(FromKernelTrialBalance(end), EQUITY);
    OwnersAreThreeTypes(LinesIn(log, Through(to)), chart);
  }

  /** The sheet of a report over three windows: the period, everything through its end, and everything before it. */
  function SheetOf(period: seq<Row>, end: seq<Row>, start: seq<Row>): BalanceSheet {
    BalanceSheetOf(FromKernelTrialBalance(end), IncomeStatement(FromKernelTrialBalance(period)).netIncome,
                   IncomeStatement(FromKernelTrialBalance(start)).netIncome)
  }

  lemma {:induction false} OwnersAreThreeTypes(lines: seq<Line>, chart: Chart)
    ensures Selected(lines, OwnersSide(chart))
         == Selected(lines, HasType(chart, EQUITY)) + Selected(lines, HasType(chart, REVENUE)) + Selected(lines, HasType(chart, EXPENSE))
  {
    if lines != [] {
      OwnersAreThreeTypes(lines[..|lines| - 1], chart);
    }
  }

  /** A report over any dates shows the same total equity before and after the close. */
  lemma CloseKeepsSheetEquity(rows: seq<Row>, log: seq<Entry>, closed: seq<Entry>, year: Window, chart: Chart, o: CloseOptions,
                              from: Date, to: Date, period: seq<Row>, end: seq<Row>, start: seq<Row>,
                              period': seq<Row>, end': seq<Row>, start': seq<Row>)
    requires IsTrialBalance(rows, LinesIn(log, year), chart) && ClosedBy(log, closed, year, rows, o)
    requires HasType(chart, EQUITY)(o.retainedEarningsId)
    requires SoundBooks(log, chart) && SoundBooks(closed, chart) && ValidDate(from) && from <= to
    requires IsTrialBalance(period, LinesIn(log, Between(from, to)), chart)
    requires IsTrialBalance(end, LinesIn(log, Through(to)), chart)
    requires IsTrialBalance(start, LinesIn(log, Through(PreviousDay(from))), chart)
    requires IsTrialBalance(period', LinesIn(closed, Between(from, to)), chart)
    requires IsTrialBalance(end', LinesIn(closed, Through(to)), chart)
    requires IsTrialBalance(start', LinesIn(closed, Through(PreviousDay(from))), chart)
    ensures SheetOf(period', end', start').equity == SheetOf(period, end, start).equity
  {
    EquityIsTheOwnersSide(log, chart, from, to, period, end, start);
    EquityIsTheOwnersSide(closed, chart, from, to, period', end', start');
    CloseKeepsTotalEquity(rows, log, closed, year, Through(to), chart, o);
  }

  // --- an input the engine refuses ----------------------------------------------------------------------

  function Plain(id: AccountId, of: AccountType, active: bool): Account {
    Account(id, id, id, of, "USD", None, None, active, RGNR8)
  }

  const Cash := Plain("cash", ASSET, true)
  const Sales := Plain("sales", REVENUE, false)
  const Retained := Plain("retained", EQUITY, true)

  const ThreeAccounts: Chart := [Cash, Sales, Retained]

  const NoProvenance := Provenance("", "", "", "", "", "", "", "")

  function SaleOf(sequence: nat, date: Date, side: Side): Entry {
    Finalized(Draft("t", NatText(sequence), Payload("USD", MonthOf(date), date, "", NoProvenance,
      [Line("cash", side, 5, "USD", "", []), Line("sales", if side == DEBIT then CREDIT else DEBIT, 5, "USD", "", [])]),
      POSTED, None, "now"), sequence)
  }

  /** Five sold in 2024 and taken back in 2025; the sales account, at zero over all time, was then made inactive. */
  function HiddenSales(): seq<Entry> {
    [SaleOf(1, 20240601, DEBIT), SaleOf(2, 20250601, CREDIT)]
  }

  const Year := Window(Some(20240101), Some(20241231))

  const Rows: seq<Row> := [Row(Cash, 5, 0), Row(Sales, 0, 5)]

  const CloseOf2024 := CloseOptions("t", "USD", "retained", 20241231, 2024, NoProvenance, "")

  lemma SaleNets(sequence: nat, date: Date, side: Side)
    ensures var lines, n := SaleOf(sequence, date, side).Lines(), if side == DEBIT then 5 else -5;
            Balanced(lines) && LinesNet(lines, "cash") == n && LinesNet(lines, "sales") == -n
  {
    var lines := SaleOf(sequence, date, side).Lines();
    assert |"cash"| != |"sales"|;
    TwoLinesNet(lines[0], lines[1], "cash");
    TwoLinesNet(lines[0], lines[1], "sales");
    assert lines == [lines[0], lines[1]];
  }

  lemma TwoLinesNet(a: Line, b: Line, id: AccountId)
    ensures LinesTotal([a, b]) == Signed(a) + Signed(b)
    ensures LinesNet([a, b], id) == (if a.accountId == id then Signed(a) else 0) + if b.accountId == id then Signed(b) else 0
  {
    var one, two := [a], [a, b];
    assert one[..0] == [] && two[..|two| - 1] == one && two[|two| - 1] == b;
    assert LinesNet(one, id) == if a.accountId == id then Signed(a) else 0;
    assert LinesTotal(one) == Signed(a);
  }

  lemma HiddenSalesNet()
    ensures LinesIn(HiddenSales(), Year) == SaleOf(1, 20240601, DEBIT).Lines()
    ensures Net(HiddenSales(), Always, "sales") == 0
  {
    var log := HiddenSales();
    var one := log[..1];
    assert one[..0] == [] && log[..|log| - 1] == one && one[|one| - 1] == log[0] && log[|log| - 1] == log[1];
    SaleNets(1, 20240601, DEBIT);
    SaleNets(2, 20250601, CREDIT);
    assert LinesIn(one[..0], Year) == [] && LinesIn(one, Year) == log[0].Lines();
    assert Net(one, Always, "sales") == -5;
  }

  lemma ThreeAreFound()
    ensures ValidChart(ThreeAccounts) && Arranged(ThreeAccounts, ThreeAccounts)
    ensures Find(ThreeAccounts, "cash") == Some(Cash) && Find(ThreeAccounts, "sales") == Some(Sales)
    ensures Find(ThreeAccounts, "retained") == Some(Retained)
  {
    assert Levels(ThreeAccounts, map["cash" := 1, "sales" := 1, "retained" := 1]);
    FindOwn(ThreeAccounts, Cash);
    FindOwn(ThreeAccounts, Sales);
    FindOwn(ThreeAccounts, Retained);
  }

  lemma RowsAreTheYears()
    ensures IsTrialBalance(Rows, LinesIn(HiddenSales(), Year), ThreeAccounts)
  {
    HiddenSalesNet();
    ThreeAreFound();
    SaleNets(1, 20240601, DEBIT);
    var lines := SaleOf(1, 20240601, DEBIT).Lines();
    assert lines[0].accountId == "cash" && lines[1].accountId == "sales";
    assert Rows[0] in Rows && Rows[1] in Rows;
  }

  lemma HiddenBooksAreSound()
    ensures BookRuns.Inv("t", Books(ThreeAccounts, HiddenSales(), Periods.NoLocks))
  {
    ThreeAreFound();
    HiddenSalesNet();
    SaleNets(1, 20240601, DEBIT);
    SaleNets(2, 20250601, CREDIT);
    assert NatText(1) != NatText(2);
    forall e | e in HiddenSales() ensures BookRuns.EntryFits(e, ThreeAccounts) {
      assert e == HiddenSales()[0] || e == HiddenSales()[1];
    }
    forall a | a in ThreeAccounts ensures BookRuns.Idle(a, HiddenSales()) {
    }
  }

  /**
   * Sound books whose year-end close is refused: the sales account nets to zero over all time, so it could be
   * made inactive, and still has a balance inside the year.
   */
  lemma HiddenAccountRefusesTheClose()
    ensures var b := Books(ThreeAccounts, HiddenSales(), Periods.NoLocks);
            && BookRuns.Inv("t", b) && IsTrialBalance(Rows, LinesIn(b.log, Year), ThreeAccounts)
            && (exists r :: r in Rows && Closes(r))
            && PostTo(b, ClosingCommand(CloseOf2024, ClosingLines(Rows, CloseOf2024)), "now").1.Err?
  {
    var b := Books(ThreeAccounts, HiddenSales(), Periods.NoLocks);
    HiddenBooksAreSound();
    RowsAreTheYears();
    ThreeAreFound();
    var sales := Rows[1];
    assert sales in Rows && Closes(sales) && !Takes(ThreeAccounts, sales.account.id, "USD");
    assert !AccountsTake(Rows, ThreeAccounts, CloseOf2024);
    CloseKeyIsFresh();
    CloseIsAcceptedIff(Rows, b, CloseOf2024, "now");
  }

  lemma CloseKeyIsFresh()
    ensures ByKey(HiddenSales(), "yearend:" + NatText(2024)).None?
  {
    var key := "yearend:" + NatText(2024);
    assert key[0] == 'y' && IsDigit(NatText(1)[0]) && IsDigit(NatText(2)[0]);
    assert HiddenSales()[0].draft.key == NatText(1) && HiddenSales()[1].draft.key == NatText(2);
  }
}
