/** The three statements over signed trial balances (financial-statements accounts.ts, statements.ts). */
module Statements {
  import opened Text
  import opened Dates
  import opened Sums
  import opened Ledger
  import opened Chart
  import opened TrialBalance

  /** One account's net position over a window, debit-positive. */
  datatype SignedEntry = SignedEntry(account: Account, signed: int)

  function FromKernelTrialBalance(rows: seq<Row>): (tb: seq<SignedEntry>)
    ensures |tb| == |rows| && forall i :: 0 <= i < |tb| ==> tb[i] == SignedEntry(rows[i].account, RowSigned(rows[i]))
  {
    seq(|rows|, i requires 0 <= i < |rows| => SignedEntry(rows[i].account, rows[i].debit - rows[i].credit))
  }

  /** What an account adds to its statement's total: its normal balance reads positive. */
  function NaturalAmount(e: SignedEntry): int {
    if e.account.accountType == ASSET || e.account.accountType == EXPENSE then e.signed else -e.signed
  }

  function OfClass(tb: seq<SignedEntry>, t: AccountType): seq<SignedEntry> {
    if tb == [] then []
    else
      var front, last := OfClass(tb[..|tb| - 1], t), tb[|tb| - 1];
      if last.account.accountType == t then front + [last] else front
  }

  function SumNatural(entries: seq<SignedEntry>): int {
    if entries == [] then 0 else SumNatural(entries[..|entries| - 1]) + NaturalAmount(entries[|entries| - 1])
  }

  // --- income statement --------------------------------------------------------------------------------

  datatype Income = Income(
    revenue: int, costOfGoodsSold: int, grossProfit: int, operatingExpenses: int, expenses: int, netIncome: int)

  predicate IsCogs(e: SignedEntry) {
    e.account.subtype == Some(COST_OF_GOODS_SOLD)
  }

  function Cogs(entries: seq<SignedEntry>, cogs: bool): seq<SignedEntry> {
    if entries == [] then []
    else
      var front, last := Cogs(entries[..|entries| - 1], cogs), entries[|entries| - 1];
      if IsCogs(last) == cogs then front + [last] else front
  }

  function IncomeStatement(tb: seq<SignedEntry>): Income {
    var revenue := SumNatural(OfClass(tb, REVENUE));
    var cogs := SumNatural(Cogs(OfClass(tb, EXPENSE), true));
    var opex := SumNatural(Cogs(OfClass(tb, EXPENSE), false));
    Income(revenue, cogs, revenue - cogs, opex, cogs + opex, revenue - (cogs + opex))
  }

  // --- balance sheet ---------------------------------------------------------------------------------------

  datatype BalanceSheet = BalanceSheet(assets: int, liabilities: int, equity: int, residual: int, balanced: bool)

  function BalanceSheetOf(tb: seq<SignedEntry>, netIncome: int, beginningRetained: int): BalanceSheet {
    var assets, liabilities := SumNatural(OfClass(tb, ASSET)), SumNatural(OfClass(tb, LIABILITY));
    var equity := SumNatural(OfClass(tb, EQUITY)) + beginningRetained + netIncome;
    var residual := assets - (liabilities + equity);
    BalanceSheet(assets, liabilities, equity, residual, residual == 0)
  }

  // --- cash flow ----------------------------------------------------------------------------------------------

  datatype Section = OPERATING | INVESTING | FINANCING

  datatype Classifier = Classifier(isCash: SignedEntry -> bool, section: SignedEntry -> Section)

  datatype CashFlow = CashFlow(
    operating: int, investing: int, financing: int, netChange: int, beginningCash: int, endingCash: int, reconciled: bool)

  /** Later entries replace earlier ones with the same id. */
  function Indexed(tb: seq<SignedEntry>): map<AccountId, SignedEntry> {
    if tb == [] then map[] else Indexed(tb[..|tb| - 1])[tb[|tb| - 1].account.id := tb[|tb| - 1]]
  }

  method IndexById(tb: seq<SignedEntry>) returns (m: map<AccountId, SignedEntry>)
    ensures m == Indexed(tb)
  {
    m := map[];
    for i := 0 to |tb|
      invariant m == Indexed(tb[..i])
    {
      assert tb[..i + 1][..i] == tb[..i];
      m := m[tb[i].account.id := tb[i]];
    }
    assert tb[..|tb|] == tb;
  }

  /** Where an account's movement goes; revenue and expense are already in net income. */
  datatype Bucket = CASH | EARNINGS | IN(section: Section)

  function BucketOf(c: Classifier, rep: SignedEntry): Bucket {
    if c.isCash(rep) then CASH
    else if rep.account.accountType == REVENUE || rep.account.accountType == EXPENSE then EARNINGS
    else IN(c.section(rep))
  }

  /** The entry that speaks for an account: its latest. */
  function Rep(s: map<AccountId, SignedEntry>, e: map<AccountId, SignedEntry>, id: AccountId): SignedEntry
    requires id in s || id in e
  {
    if id in e then e[id] else s[id]
  }

  function SignedAt(m: map<AccountId, SignedEntry>, id: AccountId): int {
    if id in m then m[id].signed else 0
  }

  /** The movements of the accounts of one bucket. */
  ghost function Movements(c: Classifier, s: map<AccountId, SignedEntry>, e: map<AccountId, SignedEntry>,
                           ids: set<AccountId>, b: Bucket): map<AccountId, int>
    requires ids <= s.Keys + e.Keys
  {
    map id | id in ids && BucketOf(c, Rep(s, e, id)) == b :: SignedAt(e, id) - SignedAt(s, id)
  }

  ghost function Moved(c: Classifier, s: map<AccountId, SignedEntry>, e: map<AccountId, SignedEntry>,
                       ids: set<AccountId>, b: Bucket): int
    requires ids <= s.Keys + e.Keys
  {
    Sum(Movements(c, s, e, ids, b))
  }

  lemma OneMoreMoved(c: Classifier, s: map<AccountId, SignedEntry>, e: map<AccountId, SignedEntry>,
                     ids: set<AccountId>, id: AccountId, b: Bucket)
    requires ids + {id} <= s.Keys + e.Keys && id !in ids
    ensures Moved(c, s, e, ids + {id}, b) == Moved(c, s, e, ids, b)
              + if BucketOf(c, Rep(s, e, id)) == b then SignedAt(e, id) - SignedAt(s, id) else 0
  {
    var before, after := Movements(c, s, e, ids, b), Movements(c, s, e, ids + {id}, b);
    if BucketOf(c, Rep(s, e, id)) == b {
      assert after == before[id := SignedAt(e, id) - SignedAt(s, id)];
      SumAfterUpdate(before, id, SignedAt(e, id) - SignedAt(s, id));
    } else {
      assert after == before;
    }
  }

  /** What the cash accounts among these held in one of the two trial balances. */
  ghost function CashHeld(c: Classifier, s: map<AccountId, SignedEntry>, e: map<AccountId, SignedEntry>,
                          ids: set<AccountId>, m: map<AccountId, SignedEntry>): int
    requires ids <= s.Keys + e.Keys
  {
    Sum(CashBalances(c, s, e, ids, m))
  }

  ghost function CashBalances(c: Classifier, s: map<AccountId, SignedEntry>, e: map<AccountId, SignedEntry>,
                              ids: set<AccountId>, m: map<AccountId, SignedEntry>): map<AccountId, int>
    requires ids <= s.Keys + e.Keys
  {
    map id | id in ids && c.isCash(Rep(s, e, id)) :: SignedAt(m, id)
  }

  lemma OneMoreCash(c: Classifier, s: map<AccountId, SignedEntry>, e: map<AccountId, SignedEntry>,
                    ids: set<AccountId>, id: AccountId, m: map<AccountId, SignedEntry>)
    requires ids + {id} <= s.Keys + e.Keys && id !in ids
    ensures CashHeld(c, s, e, ids + {id}, m)
         == CashHeld(c, s, e, ids, m) + if c.isCash(Rep(s, e, id)) then SignedAt(m, id) else 0
  {
    var before, after := CashBalances(c, s, e, ids, m), CashBalances(c, s, e, ids + {id}, m);
    if c.isCash(Rep(s, e, id)) {
      assert after == before[id := SignedAt(m, id)];
      SumAfterUpdate(before, id, SignedAt(m, id));
    } else {
      assert after == before;
    }
  }

  /** The running figures of the one pass. */
  datatype Figures = Figures(beginningCash: int, endingCash: int, working: int, investing: int, financing: int)

  const NoFigures := Figures(0, 0, 0, 0, 0)

  /** One account's part in the figures. */
  function Accrued(f: Figures, c: Classifier, rep: SignedEntry, signedStart: int, signedEnd: int): Figures {
    if c.isCash(rep) then f.(beginningCash := f.beginningCash + signedStart, endingCash := f.endingCash + signedEnd)
    else if rep.account.accountType == REVENUE || rep.account.accountType == EXPENSE then f
    else
      var contribution := signedStart - signedEnd;
      match c.section(rep)
      case INVESTING => f.(investing := f.investing + contribution)
      case FINANCING => f.(financing := f.financing + contribution)
      case OPERATING => f.(working := f.working + contribution)
  }

  /** The figures after some of the accounts have been looked at. */
  ghost predicate FlowSoFar(c: Classifier, s: map<AccountId, SignedEntry>, e: map<AccountId, SignedEntry>,
                            done: set<AccountId>, f: Figures)
    requires done <= s.Keys + e.Keys
  {
    && f.endingCash - f.beginningCash == Moved(c, s, e, done, CASH) && f.working == -Moved(c, s, e, done, IN(OPERATING))
    && f.investing == -Moved(c, s, e, done, IN(INVESTING)) && f.financing == -Moved(c, s, e, done, IN(FINANCING))
    && f.beginningCash == CashHeld(c, s, e, done, s) && f.endingCash == CashHeld(c, s, e, done, e)
  }

  lemma FlowStep(c: Classifier, s: map<AccountId, SignedEntry>, e: map<AccountId, SignedEntry>, done: set<AccountId>,
                 id: AccountId, f: Figures)
    requires done + {id} <= s.Keys + e.Keys && id !in done && FlowSoFar(c, s, e, done, f)
    ensures FlowSoFar(c, s, e, done + {id}, Accrued(f, c, Rep(s, e, id), SignedAt(s, id), SignedAt(e, id)))
  {
    OneMoreMoved(c, s, e, done, id, CASH);
    OneMoreMoved(c, s, e, done, id, IN(OPERATING));
    OneMoreMoved(c, s, e, done, id, IN(INVESTING));
    OneMoreMoved(c, s, e, done, id, IN(FINANCING));
    OneMoreCash(c, s, e, done, id, s);
    OneMoreCash(c, s, e, done, id, e);
  }

  /** The indirect method: one pass over the union of the accounts of both trial balances. */
  method CashFlowOf(tbStart: seq<SignedEntry>, tbEnd: seq<SignedEntry>, netIncome: int, c: Classifier) returns (r: CashFlow)
    ensures var s, e := Indexed(tbStart), Indexed(tbEnd);
            var ids := s.Keys + e.Keys;
            && r.operating == netIncome - Moved(c, s, e, ids, IN(OPERATING))
            && r.investing == -Moved(c, s, e, ids, IN(INVESTING)) && r.financing == -Moved(c, s, e, ids, IN(FINANCING))
            && r.netChange == r.endingCash - r.beginningCash == Moved(c, s, e, ids, CASH)
            && r.beginningCash == CashHeld(c, s, e, ids, s) && r.endingCash == CashHeld(c, s, e, ids, e)
    ensures r.reconciled <==> r.operating + r.investing + r.financing == r.netChange
  {
    var s := IndexById(tbStart);
    var e := IndexById(tbEnd);
    var f := NoFigures;
    var todo := s.Keys + e.Keys;
    ghost var done: set<AccountId> := {};
    NothingMoved(c, s, e);
    while todo != {}
      invariant todo !! done && todo + done == s.Keys + e.Keys
      invariant FlowSoFar(c, s, e, done, f)
      decreases todo
    {
      var id :| id in todo;
      FlowStep(c, s, e, done, id, f);
      todo, done := todo - {id}, done + {id};
      f := Accrued(f, c, Rep(s, e, id), SignedAt(s, id), SignedAt(e, id));
    }
    assert done == s.Keys + e.Keys;
    var operating, netChange := netIncome + f.working, f.endingCash - f.beginningCash;
    r := CashFlow(operating, f.investing, f.financing, netChange, f.beginningCash, f.endingCash,
                  operating + f.investing + f.financing == netChange);
  }

  lemma NothingMoved(c: Classifier, s: map<AccountId, SignedEntry>, e: map<AccountId, SignedEntry>)
    ensures FlowSoFar(c, s, e, {}, NoFigures)
  {
    assert Movements(c, s, e, {}, CASH) == map[];
    assert CashBalances(c, s, e, {}, s) == map[] && CashBalances(c, s, e, {}, e) == map[];
    assert Movements(c, s, e, {}, IN(OPERATING)) == map[];
    assert Movements(c, s, e, {}, IN(INVESTING)) == map[];
    assert Movements(c, s, e, {}, IN(FINANCING)) == map[];
  }
}
