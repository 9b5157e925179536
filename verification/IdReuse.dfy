/** What a new account does to totals already posted when it takes over the id of a renumbered account. */
module IdReuse {
  import opened Text
  import opened Ledger
  import opened Periods
  import opened Chart
  import opened ChartEdit
  import opened ChartSaves
  import opened LedgerStore
  import opened PostingEngine
  import opened TrialBalance
  import opened BookRuns

  lemma {:induction false} SelectionMovesOne(lines: seq<Line>, p: AccountId -> bool, q: AccountId -> bool, id: AccountId)
    requires forall x :: x != id ==> p(x) == q(x)
    ensures Selected(lines, q) - Selected(lines, p)
         == (if q(id) then LinesNet(lines, id) else 0) - if p(id) then LinesNet(lines, id) else 0
  {
    if lines != [] {
      SelectionMovesOne(lines[..|lines| - 1], p, q, id);
    }
  }

  /** `after` looks up as `before`, with `a` in the place of `holder`. */
  ghost predicate Replaces(before: Chart, after: Chart, holder: Account, a: Account) {
    Find(before, a.id) == Some(holder) && forall id :: Find(after, id) == if id == a.id then Some(a) else Find(before, id)
  }

  lemma ReplacingMovesTotal(log: seq<Entry>, w: Window, before: Chart, after: Chart, holder: Account, a: Account,
                            of: AccountType)
    requires Replaces(before, after, holder, a)
    ensures TypeTotal(log, w, after, of)
         == TypeTotal(log, w, before, of)
          + (if a.accountType == of then Net(log, w, a.id) else 0)
          - if holder.accountType == of then Net(log, w, a.id) else 0
  {
    NetIsOfLinesIn(log, w, a.id);
    SelectionMovesOne(LinesIn(log, w), HasType(before, of), HasType(after, of), a.id);
  }

  lemma SavingReplaces(chart: Chart, req: NewAccount, a: Account)
    requires ValidChart(chart) && Drafted(chart, req) == Ok(a) && Find(chart, a.id).Some?
    ensures Replaces(chart, Loaded(Replaced(chart, a)), Find(chart, a.id).value, a)
  {
    SavedIdsStayUnique(chart, req, a);
    forall id ensures Find(Loaded(Replaced(chart, a)), id) == if id == a.id then Some(a) else Find(chart, id) {
      SavedLookups(chart, a, id);
    }
  }

  /** The creation is carried out, and saves its account over the holder of the id. */
  lemma CreationReplaces(b: Books, req: NewAccount, a: Account)
    requires ValidChart(b.chart) && Arranged(b.chart, b.chart)
    requires Drafted(b.chart, req) == Ok(a) && Find(b.chart, a.id).Some?
    ensures EditedChart(b, CreateAccount(req)) == Loaded(Replaced(b.chart, a))
    ensures Replaces(b.chart, EditedChart(b, CreateAccount(req)), Find(b.chart, a.id).value, a)
  {
    NewAccountIsAccepted(b.chart, req);
    SavingReplaces(b.chart, req, a);
  }

  ghost predicate TotalStays(log: seq<Entry>, w: Window, before: Chart, after: Chart, of: AccountType) {
    TypeTotal(log, w, after, of) == TypeTotal(log, w, before, of)
  }

  /**
   * A creation that takes over an id leaves every past total of a window where it was exactly when the
   * account keeps its type or nets to zero there.
   */
  lemma TakenOverIdKeepsTotalsIff(b: Books, req: NewAccount, a: Account, w: Window)
    requires ValidChart(b.chart) && Arranged(b.chart, b.chart)
    requires Drafted(b.chart, req) == Ok(a) && Find(b.chart, a.id).Some?
    ensures (forall of :: TotalStays(b.log, w, b.chart, EditedChart(b, CreateAccount(req)), of))
            <==> a.accountType == Find(b.chart, a.id).value.accountType || Net(b.log, w, a.id) == 0
  {
    var holder, after := Find(b.chart, a.id).value, EditedChart(b, CreateAccount(req));
    CreationReplaces(b, req, a);
    forall of
      ensures TotalStays(b.log, w, b.chart, after, of) <==>
              Net(b.log, w, a.id) == 0 || (a.accountType == of <==> holder.accountType == of)
    {
      ReplacingMovesTotal(b.log, w, b.chart, after, holder, a, of);
    }
    assert a.accountType != holder.accountType && Net(b.log, w, a.id) != 0 ==>
           !TotalStays(b.log, w, b.chart, after, a.accountType);
  }

  // --- an input at which past totals move ------------------------------------------------------------

  const Supplies := NewAccount("1000", "Supplies", Some(EXPENSE), None, None, "USD")

  ghost predicate PlainAccount(a: Account, id: AccountId, code: string, of: AccountType) {
    a.id == id && a.code == code && a.accountType == of && a.parentId.None? && a.subtype.None? && a.active
  }

  /** Cash, renumbered from 1000 to 1001, was debited five units against sales. */
  ghost predicate CashSale(cash: Account, sales: Account, e: Entry) {
    && PlainAccount(cash, "acct:1000", "1001", ASSET) && PlainAccount(sales, "acct:4000", "4000", REVENUE)
    && e.sequence == 1 && e.id == EntryId(e.draft.tenantId, 1)
    && e.Lines() == [Line("acct:1000", DEBIT, 5, "USD", "", []), Line("acct:4000", CREDIT, 5, "USD", "", [])]
  }

  /** A new expense account 1000 takes the five units out of the assets of the past and into its expenses. */
  lemma ReusedIdMovesPastTotals(cash: Account, sales: Account, e: Entry)
    requires CashSale(cash, sales, e)
    ensures var b := Books([cash, sales], [e], NoLocks);
            && Inv(e.draft.tenantId, b)
            && var after := EditedChart(b, CreateAccount(Supplies));
               && ValidChart(after) && !TakesIdSafely(b, CreateAccount(Supplies))
               && TypeTotal([e], Always, after, ASSET) == TypeTotal([e], Always, b.chart, ASSET) - 5
               && TypeTotal([e], Always, after, EXPENSE) == TypeTotal([e], Always, b.chart, EXPENSE) + 5
  {
    var b := Books([cash, sales], [e], NoLocks);
    var a := Account("acct:1000", "1000", "Supplies", EXPENSE, "USD", None, None, true, RGNR8);
    SaleIsSound(cash, sales, e);
    SuppliesDrafted(b.chart);
    CreationReplaces(b, Supplies, a);
    SaleNets(e);
    ReplacingMovesTotal([e], Always, b.chart, EditedChart(b, CreateAccount(Supplies)), cash, a, ASSET);
    ReplacingMovesTotal([e], Always, b.chart, EditedChart(b, CreateAccount(Supplies)), cash, a, EXPENSE);
    SuppliesSaved(cash, sales, a);
    SaleUsesCash(e);
    UsedTypeIsNotKept(b, a, cash);
  }

  lemma UsedTypeIsNotKept(b: Books, a: Account, cash: Account)
    requires ValidChart(b.chart) && Drafted(b.chart, Supplies) == Ok(a) && Find(b.chart, a.id) == Some(cash)
    requires a.id in Accounts(LinesIn(b.log, Always)) && a.accountType != cash.accountType
    ensures !TakesIdSafely(b, CreateAccount(Supplies))
  {
    assert !KeepsUsedType(b, a);
  }

  lemma SaleNets(e: Entry)
    requires e.Lines() == [Line("acct:1000", DEBIT, 5, "USD", "", []), Line("acct:4000", CREDIT, 5, "USD", "", [])]
    ensures Net([e], Always, "acct:1000") == 5 && Balanced(e.Lines())
  {
    var lines := e.Lines();
    var one := lines[..1];
    assert one[..0] == [] && one[0] == lines[0] && lines[..|lines| - 1] == one;
    assert LinesTotal(one[..0]) == 0 && LinesNet(one[..0], "acct:1000") == 0;
    assert Signed(one[0]) == 5 && Signed(lines[1]) == -5;
    assert LinesTotal(one) == 5 && LinesNet(one, "acct:1000") == 5;
    assert [e][..0] == [];
    assert Net([], Always, "acct:1000") == 0;
  }

  lemma SaleUsesCash(e: Entry)
    requires e.Lines() == [Line("acct:1000", DEBIT, 5, "USD", "", []), Line("acct:4000", CREDIT, 5, "USD", "", [])]
    ensures "acct:1000" in Accounts(LinesIn([e], Always))
  {
    var log := [e];
    assert LinesIn(log[..0], Always) == [];
    assert LinesIn(log, Always) == e.Lines();
    assert LinesIn(log, Always)[0].accountId == "acct:1000";
  }

  lemma SaleIsSound(cash: Account, sales: Account, e: Entry)
    requires CashSale(cash, sales, e)
    ensures Inv(e.draft.tenantId, Books([cash, sales], [e], NoLocks))
    ensures Find([cash, sales], "acct:1000") == Some(cash)
  {
    var chart := [cash, sales];
    assert Levels(chart, map["acct:1000" := 1, "acct:4000" := 1]);
    assert Find(chart, "acct:1000") == Some(cash);
    assert Find(chart[1..], "acct:4000") == Some(sales);
    SaleNets(e);
    assert EntryFits(e, chart);
  }

  lemma SuppliesDrafted(chart: Chart)
    requires ValidChart(chart) && FindCode(chart, "1000").None?
    ensures Drafted(chart, Supplies) == Ok(Account("acct:1000", "1000", "Supplies", EXPENSE, "USD", None, None, true, RGNR8))
  {
    TrimKeepsTrimmed("1000");
    TrimKeepsTrimmed("Supplies");
    assert "acct:" + "1000" == "acct:1000";
  }

  lemma SuppliesSaved(cash: Account, sales: Account, a: Account)
    requires PlainAccount(cash, "acct:1000", "1001", ASSET) && PlainAccount(sales, "acct:4000", "4000", REVENUE)
    requires ValidChart([cash, sales]) && Drafted([cash, sales], Supplies) == Ok(a)
    requires a.id == "acct:1000" && a.parentId.None?
    ensures ValidChart(Loaded(Replaced([cash, sales], a)))
  {
    var chart := [cash, sales];
    assert Find(chart, "acct:1000") == Some(cash);
    assert chart[1..] == [sales] && FilterChildren([sales], "acct:1000") == [];
    NewAccountKeepsForestIff(chart, Supplies);
    LoadAcceptsIffForest(Replaced(chart, a));
  }
}
