/** The accounting identities of the statements, over every ledger of balanced entries. */
module StatementLaws {
  import opened Text
  import opened Dates
  import opened Sums
  import opened Ledger
  import opened Chart
  import opened TrialBalance
  import opened Statements

  // --- class totals ------------------------------------------------------------------------------------

  /** The signed total of one type of account. */
  function SignedOf(tb: seq<SignedEntry>, t: AccountType): int {
    if tb == [] then 0
    else
      var last := tb[|tb| - 1];
      SignedOf(tb[..|tb| - 1], t) + if last.account.accountType == t then last.signed else 0
  }

  lemma {:induction false} ClassSum(tb: seq<SignedEntry>, t: AccountType)
    ensures SumNatural(OfClass(tb, t)) == if t == ASSET || t == EXPENSE then SignedOf(tb, t) else -SignedOf(tb, t)
  {
    if tb != [] {
      ClassSum(tb[..|tb| - 1], t);
      OneMoreNatural(OfClass(tb[..|tb| - 1], t), tb[|tb| - 1]);
    }
  }

  lemma OneMoreNatural(front: seq<SignedEntry>, last: SignedEntry)
    ensures SumNatural(front + [last]) == SumNatural(front) + NaturalAmount(last)
  {
    assert (front + [last])[..|front|] == front;
  }

  lemma {:induction false} CogsSplit(entries: seq<SignedEntry>)
    ensures SumNatural(Cogs(entries, true)) + SumNatural(Cogs(entries, false)) == SumNatural(entries)
  {
    if entries != [] {
      CogsSplit(entries[..|entries| - 1]);
      var last := entries[|entries| - 1];
      var front := Cogs(entries[..|entries| - 1], IsCogs(last));
      assert (front + [last])[..|front|] == front;
    }
  }

  /** Net income is what the revenue and expense accounts hold, credit-positive, however it is split up. */
  lemma NetIncomeIsEarnings(tb: seq<SignedEntry>)
    ensures IncomeStatement(tb).netIncome == -(SignedOf(tb, REVENUE) + SignedOf(tb, EXPENSE))
    ensures IncomeStatement(tb).netIncome == IncomeStatement(tb).grossProfit - IncomeStatement(tb).operatingExpenses
  {
    ClassSum(tb, REVENUE);
    ClassSum(tb, EXPENSE);
    CogsSplit(OfClass(tb, EXPENSE));
  }

  /** What the cost-of-goods accounts hold, debit-positive. */
  function SignedCogs(tb: seq<SignedEntry>): int {
    if tb == [] then 0
    else
      var last := tb[|tb| - 1];
      var isCogs := last.account.accountType == EXPENSE && last.account.subtype == Some(COST_OF_GOODS_SOLD);
      SignedCogs(tb[..|tb| - 1]) + if isCogs then last.signed else 0
  }

  lemma {:induction false} CogsAreThose(tb: seq<SignedEntry>)
    ensures SumNatural(Cogs(OfClass(tb, EXPENSE), true)) == SignedCogs(tb)
  {
    if tb != [] {
      var front, last := tb[..|tb| - 1], tb[|tb| - 1];
      CogsAreThose(front);
      if last.account.accountType == EXPENSE {
        var expenses := OfClass(front, EXPENSE);
        assert (expenses + [last])[..|expenses|] == expenses;
        var cogs := Cogs(expenses, true);
        assert (cogs + [last])[..|cogs|] == cogs;
      }
    }
  }

  /** Each figure of the income statement: revenue, cost of goods, and the rest of the expenses. */
  lemma IncomeStatementFigures(tb: seq<SignedEntry>)
    ensures var income := IncomeStatement(tb);
            && income.revenue == -SignedOf(tb, REVENUE)
            && income.costOfGoodsSold == SignedCogs(tb)
            && income.operatingExpenses == SignedOf(tb, EXPENSE) - SignedCogs(tb)
            && income.expenses == SignedOf(tb, EXPENSE)
            && income.grossProfit == -SignedOf(tb, REVENUE) - SignedCogs(tb)
  {
    ClassSum(tb, REVENUE);
    ClassSum(tb, EXPENSE);
    CogsSplit(OfClass(tb, EXPENSE));
    CogsAreThose(tb);
  }

  /** Each figure of the balance sheet, with retained earnings and income in equity. */
  lemma BalanceSheetFigures(tb: seq<SignedEntry>, netIncome: int, beginningRetained: int)
    ensures var sheet := BalanceSheetOf(tb, netIncome, beginningRetained);
            && sheet.assets == SignedOf(tb, ASSET) && sheet.liabilities == -SignedOf(tb, LIABILITY)
            && sheet.equity == -SignedOf(tb, EQUITY) + beginningRetained + netIncome
            && sheet.residual == sheet.assets - sheet.liabilities - sheet.equity && (sheet.balanced <==> sheet.residual == 0)
  {
    ClassSum(tb, ASSET);
    ClassSum(tb, LIABILITY);
    ClassSum(tb, EQUITY);
  }

  /** Balanced entries on charted accounts, dated on real days. */
  ghost predicate SoundBooks(log: seq<Entry>, chart: Chart) {
    && (forall i :: 0 <= i < |log| ==> Balanced(log[i].Lines()) && ValidDate(log[i].Date()))
    && (forall i, l :: 0 <= i < |log| && l in log[i].Lines() ==> Find(chart, l.accountId).Some?)
  }

  lemma WindowIsCharted(log: seq<Entry>, w: Window, chart: Chart)
    requires SoundBooks(log, chart)
    ensures forall l :: l in LinesIn(log, w) ==> Find(chart, l.accountId).Some?
  {
    forall l | l in LinesIn(log, w) ensures Find(chart, l.accountId).Some? {
      LinesInAreOfEntries(log, w, l);
    }
  }

  lemma {:induction false} RowsOfType(rows: seq<Row>, lines: seq<Line>, chart: Chart, t: AccountType)
    requires forall r :: r in rows ==> RowFits(r, lines, chart)
    ensures SignedOf(FromKernelTrialBalance(rows), t) == RowsSelected(rows, HasType(chart, t))
  {
    if rows != [] {
      var front, last := rows[..|rows| - 1], rows[|rows| - 1];
      assert FromKernelTrialBalance(rows)[..|rows| - 1] == FromKernelTrialBalance(front);
      assert last in rows && RowFits(last, lines, chart);
      RowsOfType(front, lines, chart, t);
    }
  }

  /** A kernel trial balance reports, type by type, exactly what the window's lines add up to. */
  lemma TypeTotalsMatch(rows: seq<Row>, log: seq<Entry>, w: Window, chart: Chart, t: AccountType)
    requires SoundBooks(log, chart) && IsTrialBalance(rows, LinesIn(log, w), chart)
    ensures SignedOf(FromKernelTrialBalance(rows), t) == TypeTotal(log, w, chart, t)
  {
    WindowIsCharted(log, w, chart);
    RowsOfType(rows, LinesIn(log, w), chart, t);
    RowsSumToLines(rows, LinesIn(log, w), chart, HasType(chart, t));
  }

  // --- windows ------------------------------------------------------------------------------------------------

  function Through(to: Date): Window {
    Window(None, Some(to))
  }

  function Between(from: Date, to: Date): Window {
    Window(Some(from), Some(to))
  }

  /** Everything through `to` is everything through the day before `from`, and the days between. */
  lemma {:induction false} WindowsSplit(log: seq<Entry>, from: Date, to: Date, sel: AccountId -> bool)
    requires ValidDate(from) && from <= to && forall i :: 0 <= i < |log| ==> ValidDate(log[i].Date())
    ensures Selected(LinesIn(log, Through(to)), sel)
         == Selected(LinesIn(log, Through(PreviousDay(from))), sel) + Selected(LinesIn(log, Between(from, to)), sel)
  {
    if log != [] {
      var front, last := log[..|log| - 1], log[|log| - 1];
      WindowsSplit(front, from, to, sel);
      PreviousDayIsAdjacent(from, last.Date());
      SelectedAppends(LinesIn(front, Through(to)), last.Lines(), sel);
      SelectedAppends(LinesIn(front, Through(PreviousDay(from))), last.Lines(), sel);
      SelectedAppends(LinesIn(front, Between(from, to)), last.Lines(), sel);
      NoMoreLines(LinesIn(front, Through(to)));
      NoMoreLines(LinesIn(front, Through(PreviousDay(from))));
      NoMoreLines(LinesIn(front, Between(from, to)));
    }
  }

  lemma NoMoreLines(lines: seq<Line>)
    ensures lines + [] == lines
  {
  }

  lemma TypesCancel(log: seq<Entry>, w: Window, chart: Chart)
    requires SoundBooks(log, chart)
    ensures TypeTotal(log, w, chart, ASSET) + TypeTotal(log, w, chart, LIABILITY) + TypeTotal(log, w, chart, EQUITY)
          + TypeTotal(log, w, chart, REVENUE) + TypeTotal(log, w, chart, EXPENSE) == 0
  {
    WindowIsCharted(log, w, chart);
    FiveTypesMakeTheTotal(LinesIn(log, w), chart);
    BalancedEntriesCancel(log, w);
  }

  // --- the balance sheet ------------------------------------------------------------------------------------------

  lemma NetIncomeOfWindow(rows: seq<Row>, log: seq<Entry>, w: Window, chart: Chart)
    requires SoundBooks(log, chart) && IsTrialBalance(rows, LinesIn(log, w), chart)
    ensures IncomeStatement(FromKernelTrialBalance(rows)).netIncome
         == -(TypeTotal(log, w, chart, REVENUE) + TypeTotal(log, w, chart, EXPENSE))
  {
    TypeTotalsMatch(rows, log, w, chart, REVENUE);
    TypeTotalsMatch(rows, log, w, chart, EXPENSE);
    NetIncomeIsEarnings(FromKernelTrialBalance(rows));
  }

  /**
   * With the period's income and the income of everything before it, the balance sheet balances to the
   * last minor unit, for every ledger and every reporting window.
   */
  lemma BalanceSheetBalances(log: seq<Entry>, chart: Chart, from: Date, to: Date,
                             period: seq<Row>, end: seq<Row>, start: seq<Row>)
    requires SoundBooks(log, chart) && ValidDate(from) && from <= to
    requires IsTrialBalance(period, LinesIn(log, Between(from, to)), chart)
    requires IsTrialBalance(end, LinesIn(log, Through(to)), chart)
    requires IsTrialBalance(start, LinesIn(log, Through(PreviousDay(from))), chart)
    ensures var bs := BalanceSheetOf(FromKernelTrialBalance(end),
                                     IncomeStatement(FromKernelTrialBalance(period)).netIncome,
                                     IncomeStatement(FromKernelTrialBalance(start)).netIncome);
            bs.residual == 0 && bs.balanced
  {
    NetIncomeOfWindow(period, log, Between(from, to), chart);
    NetIncomeOfWindow(start, log, Through(PreviousDay(from)), chart);
    WindowsSplit(log, from, to, HasType(chart, REVENUE));
    WindowsSplit(log, from, to, HasType(chart, EXPENSE));
    SheetResidual(end, log, Through(to), chart);
    TypesCancel(log, Through(to), chart);
  }

  lemma SheetResidual(rows: seq<Row>, log: seq<Entry>, w: Window, chart: Chart)
    requires SoundBooks(log, chart) && IsTrialBalance(rows, LinesIn(log, w), chart)
    ensures forall ni, prior :: BalanceSheetOf(FromKernelTrialBalance(rows), ni, prior).residual ==
              TypeTotal(log, w, chart, ASSET) + TypeTotal(log, w, chart, LIABILITY) + TypeTotal(log, w, chart, EQUITY) - prior - ni
  {
    var tb := FromKernelTrialBalance(rows);
    TypeTotalsMatch(rows, log, w, chart, ASSET);
    TypeTotalsMatch(rows, log, w, chart, LIABILITY);
    TypeTotalsMatch(rows, log, w, chart, EQUITY);
    ClassSum(tb, ASSET);
    ClassSum(tb, LIABILITY);
    ClassSum(tb, EQUITY);
  }

  // --- cash flow --------------------------------------------------------------------------------------------------------

  /** Every account's movement, whatever its bucket. */
  ghost function AllMovements(s: map<AccountId, SignedEntry>, e: map<AccountId, SignedEntry>, ids: set<AccountId>): map<AccountId, int> {
    map id | id in ids :: SignedAt(e, id) - SignedAt(s, id)
  }

  ghost function InBuckets(c: Classifier, s: map<AccountId, SignedEntry>, e: map<AccountId, SignedEntry>, ids: set<AccountId>): int
    requires ids <= s.Keys + e.Keys
  {
    Moved(c, s, e, ids, CASH) + Moved(c, s, e, ids, EARNINGS)
    + Moved(c, s, e, ids, IN(OPERATING)) + Moved(c, s, e, ids, IN(INVESTING)) + Moved(c, s, e, ids, IN(FINANCING))
  }

  lemma OneMoreInBuckets(c: Classifier, s: map<AccountId, SignedEntry>, e: map<AccountId, SignedEntry>,
                         ids: set<AccountId>, id: AccountId)
    requires ids + {id} <= s.Keys + e.Keys && id !in ids
    ensures InBuckets(c, s, e, ids + {id}) == InBuckets(c, s, e, ids) + SignedAt(e, id) - SignedAt(s, id)
  {
    OneMoreMoved(c, s, e, ids, id, CASH);
    OneMoreMoved(c, s, e, ids, id, EARNINGS);
    OneMoreMoved(c, s, e, ids, id, IN(OPERATING));
    OneMoreMoved(c, s, e, ids, id, IN(INVESTING));
    OneMoreMoved(c, s, e, ids, id, IN(FINANCING));
    var b := BucketOf(c, Rep(s, e, id));
    if b.IN? {
      assert b.section == OPERATING || b.section == INVESTING || b.section == FINANCING;
    }
  }

  lemma EmptyBuckets(c: Classifier, s: map<AccountId, SignedEntry>, e: map<AccountId, SignedEntry>)
    ensures InBuckets(c, s, e, {}) == 0 && Sum(AllMovements(s, e, {})) == 0
  {
    NothingMoved(c, s, e);
    assert AllMovements(s, e, {}) == map[];
    assert Movements(c, s, e, {}, EARNINGS) == map[];
  }

  /** Every movement goes to exactly one bucket. */
  lemma {:induction false} BucketsPartition(c: Classifier, s: map<AccountId, SignedEntry>, e: map<AccountId, SignedEntry>,
                                            ids: set<AccountId>)
    requires ids <= s.Keys + e.Keys
    ensures Sum(AllMovements(s, e, ids)) == InBuckets(c, s, e, ids)
    decreases ids
  {
    if ids == {} {
      EmptyBuckets(c, s, e);
    } else {
      var id :| id in ids;
      var rest := ids - {id};
      assert rest + {id} == ids;
      BucketsPartition(c, s, e, rest);
      OneMoreInBuckets(c, s, e, rest, id);
      OneMoreMovement(s, e, rest, id);
    }
  }

  lemma OneMoreMovement(s: map<AccountId, SignedEntry>, e: map<AccountId, SignedEntry>, ids: set<AccountId>, id: AccountId)
    requires id !in ids
    ensures Sum(AllMovements(s, e, ids + {id})) == Sum(AllMovements(s, e, ids)) + SignedAt(e, id) - SignedAt(s, id)
  {
    var before := AllMovements(s, e, ids);
    assert AllMovements(s, e, ids + {id}) == before[id := SignedAt(e, id) - SignedAt(s, id)];
    SumAfterUpdate(before, id, SignedAt(e, id) - SignedAt(s, id));
  }

  /**
   * Between any two trial balances whose movements cancel, the sections tie to the cash movement exactly
   * when the net income given is what the non-cash revenue and expense accounts moved by.
   */
  lemma ReconciledIffNetIncomeIsEarnings(c: Classifier, s: map<AccountId, SignedEntry>, e: map<AccountId, SignedEntry>,
                                         netIncome: int)
    requires Sum(AllMovements(s, e, s.Keys + e.Keys)) == 0
    ensures var ids := s.Keys + e.Keys;
            netIncome - Moved(c, s, e, ids, IN(OPERATING)) - Moved(c, s, e, ids, IN(INVESTING)) - Moved(c, s, e, ids, IN(FINANCING))
              == Moved(c, s, e, ids, CASH)
            <==> netIncome == -Moved(c, s, e, ids, EARNINGS)
  {
    BucketsPartition(c, s, e, s.Keys + e.Keys);
  }

  /** The index of a trial balance is that of its ledger lines. */
  ghost predicate IndexOfLines(m: map<AccountId, SignedEntry>, lines: seq<Line>, chart: Chart) {
    && (forall id :: id in m <==> id in Accounts(lines))
    && (forall id :: id in m ==> Find(chart, id) == Some(m[id].account) && m[id].signed == LinesNet(lines, id))
  }

  lemma {:induction false} IndexedRows(rows: seq<Row>, lines: seq<Line>, chart: Chart)
    requires forall r :: r in rows ==> RowFits(r, lines, chart)
    ensures Indexed(FromKernelTrialBalance(rows)).Keys == RowIds(rows)
    ensures forall id :: id in RowIds(rows) ==>
              var e := Indexed(FromKernelTrialBalance(rows))[id];
              Find(chart, id) == Some(e.account) && e.signed == LinesNet(lines, id)
  {
    if rows != [] {
      var front, last := rows[..|rows| - 1], rows[|rows| - 1];
      assert FromKernelTrialBalance(rows)[..|rows| - 1] == FromKernelTrialBalance(front);
      assert last in rows && RowFits(last, lines, chart);
      IndexedRows(front, lines, chart);
      assert RowIds(rows) == RowIds(front) + {last.account.id} by {
        assert rows == front + [last];
      }
    }
  }

  lemma IndexMatchesLines(rows: seq<Row>, lines: seq<Line>, chart: Chart)
    requires IsTrialBalance(rows, lines, chart) && forall l :: l in lines ==> Find(chart, l.accountId).Some?
    ensures IndexOfLines(Indexed(FromKernelTrialBalance(rows)), lines, chart)
  {
    IndexedRows(rows, lines, chart);
    forall id | id in RowIds(rows) ensures id in Accounts(lines) {
      var r :| r in rows && r.account.id == id;
      assert RowFits(r, lines, chart);
    }
  }

  /** A sum is not changed by keys that hold nothing. */
  lemma {:induction false} PaddingSumsToNothing<K>(m: map<K, int>, padded: map<K, int>)
    requires m.Keys <= padded.Keys && forall k :: k in padded ==> padded[k] == At(m, k)
    ensures Sum(padded) == Sum(m)
    decreases |padded|
  {
    if m.Keys == padded.Keys {
      assert m == padded;
    } else {
      var k :| k in padded && k !in m;
      SumTakesAnyKey(padded, k);
      assert |(padded - {k}).Keys| < |padded.Keys|;
      PaddingSumsToNothing(m, padded - {k});
    }
  }

  lemma UntouchedNets(lines: seq<Line>, id: AccountId)
    requires id !in Accounts(lines)
    ensures LinesNet(lines, id) == 0
  {
    forall i | 0 <= i < |lines| ensures lines[i].accountId != id {
      assert lines[i] in lines;
    }
    UntouchedNetIsZero(lines, id);
  }

  lemma {:induction false} SelectingOneNets(lines: seq<Line>, id: AccountId)
    ensures Selected(lines, a => a == id) == LinesNet(lines, id)
  {
    if lines != [] {
      SelectingOneNets(lines[..|lines| - 1], id);
      SameSelection(lines[..|lines| - 1], a => a == id, a => a == id);
    }
  }

  /** Between two dates an account moves by exactly its net over the days between. */
  lemma MovementIsPeriodNet(log: seq<Entry>, from: Date, to: Date, id: AccountId)
    requires ValidDate(from) && from <= to && forall i :: 0 <= i < |log| ==> ValidDate(log[i].Date())
    ensures LinesNet(LinesIn(log, Through(to)), id) - LinesNet(LinesIn(log, Through(PreviousDay(from))), id)
         == LinesNet(LinesIn(log, Between(from, to)), id)
  {
    var one := (a: AccountId) => a == id;
    WindowsSplit(log, from, to, one);
    SelectingOneNets(LinesIn(log, Through(to)), id);
    SelectingOneNets(LinesIn(log, Through(PreviousDay(from))), id);
    SelectingOneNets(LinesIn(log, Between(from, to)), id);
    SameSelection(LinesIn(log, Through(to)), one, a => a == id);
    SameSelection(LinesIn(log, Through(PreviousDay(from))), one, a => a == id);
    SameSelection(LinesIn(log, Between(from, to)), one, a => a == id);
  }

  /** The accounts touched between the dates are among those of the sheets at both ends. */
  lemma {:induction false} PeriodAccountsAreKnown(log: seq<Entry>, from: Date, to: Date)
    ensures Accounts(LinesIn(log, Between(from, to))) <= Accounts(LinesIn(log, Through(to)))
  {
    if log != [] {
      var front, last := log[..|log| - 1], log[|log| - 1];
      PeriodAccountsAreKnown(front, from, to);
      MoreLinesMoreAccounts(LinesIn(front, Between(from, to)), last.Lines());
      MoreLinesMoreAccounts(LinesIn(front, Through(to)), last.Lines());
      NoMoreLines(LinesIn(front, Between(from, to)));
    }
  }

  lemma MoreLinesMoreAccounts(a: seq<Line>, b: seq<Line>)
    ensures Accounts(a + b) == Accounts(a) + Accounts(b)
  {
    assert forall l :: l in a + b <==> l in a || l in b;
  }

  /** The movements of selected accounts add up to the period's selected lines. */
  lemma MovementsSumToPeriod(log: seq<Entry>, chart: Chart, from: Date, to: Date, s: map<AccountId, SignedEntry>,
                             e: map<AccountId, SignedEntry>, moves: map<AccountId, int>, sel: AccountId -> bool)
    requires ValidDate(from) && from <= to && forall i :: 0 <= i < |log| ==> ValidDate(log[i].Date())
    requires IndexOfLines(s, LinesIn(log, Through(PreviousDay(from))), chart) && IndexOfLines(e, LinesIn(log, Through(to)), chart)
    requires forall id :: id in moves <==> id in s.Keys + e.Keys && sel(id)
    requires forall id :: id in moves ==> moves[id] == SignedAt(e, id) - SignedAt(s, id)
    ensures Sum(moves) == Selected(LinesIn(log, Between(from, to)), sel)
  {
    var lines := LinesIn(log, Between(from, to));
    PeriodAccountsAreKnown(log, from, to);
    forall id | id in moves ensures moves[id] == At(SelectedNets(lines, sel), id) {
      if id !in e { UntouchedNets(LinesIn(log, Through(to)), id); }
      if id !in s { UntouchedNets(LinesIn(log, Through(PreviousDay(from))), id); }
      MovementIsPeriodNet(log, from, to, id);
      if id !in Accounts(lines) { UntouchedNets(lines, id); }
    }
    PaddingSumsToNothing(SelectedNets(lines, sel), moves);
    AccountsSumToLines(lines, sel);
  }

  /**
   * For every ledger, every window and every classifier whose cash accounts are not revenue or expense:
   * with the period's net income the three sections tie to the movement of cash exactly.
   */
  lemma CashFlowReconciles(log: seq<Entry>, chart: Chart, from: Date, to: Date,
                           period: seq<Row>, end: seq<Row>, start: seq<Row>, c: Classifier)
    requires SoundBooks(log, chart) && ValidDate(from) && from <= to
    requires IsTrialBalance(period, LinesIn(log, Between(from, to)), chart)
    requires IsTrialBalance(end, LinesIn(log, Through(to)), chart)
    requires IsTrialBalance(start, LinesIn(log, Through(PreviousDay(from))), chart)
    requires forall e :: c.isCash(e) ==> e.account.accountType != REVENUE && e.account.accountType != EXPENSE
    ensures var s, e := Indexed(FromKernelTrialBalance(start)), Indexed(FromKernelTrialBalance(end));
            var ids, ni := s.Keys + e.Keys, IncomeStatement(FromKernelTrialBalance(period)).netIncome;
            ni - Moved(c, s, e, ids, IN(OPERATING)) - Moved(c, s, e, ids, IN(INVESTING)) - Moved(c, s, e, ids, IN(FINANCING))
              == Moved(c, s, e, ids, CASH)
  {
    var s, e := Indexed(FromKernelTrialBalance(start)), Indexed(FromKernelTrialBalance(end));
    WindowIsCharted(log, Through(to), chart);
    WindowIsCharted(log, Through(PreviousDay(from)), chart);
    IndexMatchesLines(start, LinesIn(log, Through(PreviousDay(from))), chart);
    IndexMatchesLines(end, LinesIn(log, Through(to)), chart);
    NetIncomeOfWindow(period, log, Between(from, to), chart);
    EverythingMovesToNothing(log, chart, from, to, s, e);
    EarningsMoved(log, chart, from, to, s, e, c);
    ReconciledIffNetIncomeIsEarnings(c, s, e, IncomeStatement(FromKernelTrialBalance(period)).netIncome);
  }

  lemma EverythingMovesToNothing(log: seq<Entry>, chart: Chart, from: Date, to: Date,
                                 s: map<AccountId, SignedEntry>, e: map<AccountId, SignedEntry>)
    requires SoundBooks(log, chart) && ValidDate(from) && from <= to
    requires IndexOfLines(s, LinesIn(log, Through(PreviousDay(from))), chart) && IndexOfLines(e, LinesIn(log, Through(to)), chart)
    ensures Sum(AllMovements(s, e, s.Keys + e.Keys)) == 0
  {
    var all := (a: AccountId) => true;
    MovementsSumToPeriod(log, chart, from, to, s, e, AllMovements(s, e, s.Keys + e.Keys), all);
    SelectingAllIsTotal(LinesIn(log, Between(from, to)), all);
    BalancedEntriesCancel(log, Between(from, to));
  }

  ghost function Earns(chart: Chart): AccountId -> bool {
    a => HasType(chart, REVENUE)(a) || HasType(chart, EXPENSE)(a)
  }

  lemma EarningBucket(chart: Chart, c: Classifier, rep: SignedEntry, id: AccountId)
    requires Find(chart, id) == Some(rep.account)
    requires c.isCash(rep) ==> rep.account.accountType != REVENUE && rep.account.accountType != EXPENSE
    ensures BucketOf(c, rep) == EARNINGS <==> Earns(chart)(id)
  {
    assert HasType(chart, REVENUE)(id) <==> rep.account.accountType == REVENUE;
    assert HasType(chart, EXPENSE)(id) <==> rep.account.accountType == EXPENSE;
    assert Earns(chart)(id) <==> HasType(chart, REVENUE)(id) || HasType(chart, EXPENSE)(id);
  }

  lemma EarningsMoved(log: seq<Entry>, chart: Chart, from: Date, to: Date,
                      s: map<AccountId, SignedEntry>, e: map<AccountId, SignedEntry>, c: Classifier)
    requires SoundBooks(log, chart) && ValidDate(from) && from <= to
    requires IndexOfLines(s, LinesIn(log, Through(PreviousDay(from))), chart) && IndexOfLines(e, LinesIn(log, Through(to)), chart)
    requires forall x :: c.isCash(x) ==> x.account.accountType != REVENUE && x.account.accountType != EXPENSE
    ensures Moved(c, s, e, s.Keys + e.Keys, EARNINGS)
         == TypeTotal(log, Between(from, to), chart, REVENUE) + TypeTotal(log, Between(from, to), chart, EXPENSE)
  {
    var moves := Movements(c, s, e, s.Keys + e.Keys, EARNINGS);
    forall id | id in s.Keys + e.Keys ensures BucketOf(c, Rep(s, e, id)) == EARNINGS <==> Earns(chart)(id) {
      EarningBucket(chart, c, Rep(s, e, id), id);
    }
    MovementsSumToPeriod(log, chart, from, to, s, e, moves, Earns(chart));
    SelectedSplits(LinesIn(log, Between(from, to)), HasType(chart, REVENUE), HasType(chart, EXPENSE), Earns(chart));
  }
}
