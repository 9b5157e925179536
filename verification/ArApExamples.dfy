/** Concrete books on which a claim about AR/AP fails: one invoice, five accounts, and a handful of requests. */
module ArApExamples {
  import opened Text
  import opened Dates
  import opened Ledger
  import Periods
  import opened Chart
  import opened LedgerStore
  import opened PostingEngine
  import opened TrialBalance
  import opened Documents
  import opened ArAp
  import opened ArApRuns
  import opened ArApEntries
  import opened ArApRefunds
  import opened ArApControls

  // --- the books ------------------------------------------------------------------------------------

  function Plain(id: AccountId, code: string, of: AccountType, subtype: Option<AccountSubtype>): Account {
    Account(id, code, code, of, "USD", None, subtype, true, RGNR8)
  }

  const Bank := Plain("a1000", "1000", ASSET, Some(BANK))
  const Receivable := Plain("a1200", "1200", ASSET, Some(ACCOUNTS_RECEIVABLE))
  const Payable := Plain("a2000", "2000", LIABILITY, Some(ACCOUNTS_PAYABLE))
  const SalesTax := Plain("a2200", "2200", LIABILITY, Some(SALES_TAX_PAYABLE))
  const Income := Plain("a4000", "4000", REVENUE, None)

  const Accounts5: Chart := [Bank, Receivable, Payable, SalesTax, Income]

  const Day := 20240110

  /** One taxed invoice: 100 and 10 of sales tax. */
  function Invoice(open: int): Doc {
    Doc("i1", INVOICE, "c1", Day, 100, 10, 100_000, 110, open, StatusFor(open, 110), "",
        [DocLine("Work", 1, 100, "4000", 100, true)])
  }

  function Raised(): seq<Line> {
    [Posting("a1200", DEBIT, 110, "USD", ""), Posting("a4000", CREDIT, 100, "USD", "Work"),
     Posting("a2200", CREDIT, 10, "USD", "Sales tax")]
  }

  const First := Finalized(
    Draft("t", "invoice:i1", Payload("USD", 202401, Day, "", ProvenanceFor("invoice", Day, "now"), Raised()), POSTED, None, "now"), 1)

  /** The books of one invoice, whatever was posted after it. */
  ghost predicate Scene(s: State, open: int) {
    && s.t == "t" && s.currency == "USD" && s.books.chart == Accounts5 && s.books.locks == Periods.NoLocks
    && s.items.docs == map[(INVOICE, "i1") := Invoice(open)] && (CUSTOMER, "c1") in s.items.parties
  }

  const Opened := State("t", "USD", Books(Accounts5, [First], Periods.NoLocks),
                        Items(map[(CUSTOMER, "c1") := Party("c1", "Customer")], map[(INVOICE, "i1") := Invoice(110)], map[]))

  const Codes := Overrides(Some("1200"), Some("2000"), Some("1000"))

  lemma Lookup(a: Account)
    requires a in Accounts5
    ensures FindCode(Accounts5, a.code) == Some(a) && Find(Accounts5, a.id) == Some(a)
  {
    assert UniqueIds(Accounts5) && UniqueCodes(Accounts5);
    FindOwn(Accounts5, a);
    CodesIdentify(Accounts5, a, FindCode(Accounts5, a.code).value);
  }

  // --- requests -------------------------------------------------------------------------------------

  function Reversal(id: string): CreditRequest {
    CreditRequest(id, Some(Day), "memo", None, "4000", "1000", "2200", Codes)
  }

  /** Credit all that is open, or refund all that has come off. */
  function Credit(id: string): Op {
    IssueCredit(INVOICE, "i1", Reversal(id), "now")
  }

  function Refund(id: string): Op {
    IssueRefund("i1", Reversal(id), "now")
  }

  function Payment(id: string, amount: int, bankCode: string): Op {
    Pay(INVOICE, "i1", PaymentRequest(id, Some(Day), Some(amount), Some(bankCode), Some("memo"), [], Codes), "now")
  }

  lemma TrimsAway()
    ensures Trim("4000") == "4000" && Trim("1000") == "1000" && Trim("2200") == "2200" && Trim("memo") == "memo"
  {
    TrimKeepsTrimmed("4000");
    TrimKeepsTrimmed("1000");
    TrimKeepsTrimmed("2200");
    TrimKeepsTrimmed("memo");
  }

  /** Lines that balance on accounts of the chart are posted under a fresh key. */
  ghost predicate Postable(lines: seq<Line>) {
    Balanced(lines) && forall i :: 0 <= i < |lines| ==> lines[i].currency == "USD" && Find(Accounts5, lines[i].accountId).Some?
  }

  lemma FreshPosts(b: Books, command: Command, at: string)
    requires b.chart == Accounts5 && b.locks == Periods.NoLocks && !HasKey(b.log, command.key)
    requires Postable(command.payload.lines) && command.payload.currency == "USD"
    ensures var (b', r) := PostTo(b, command, at);
            && r.Ok? && b'.chart == b.chart && b'.locks == b.locks && |b'.log| == |b.log| + 1
            && forall k :: HasKey(b'.log, k) <==> HasKey(b.log, k) || k == command.key
  {
    AcceptedIffBalanced(command.payload.lines, "USD", b.chart);
    var e := PostTo(b, command, at).1.value;
    assert PostTo(b, command, at).0.log == b.log + [e] && e.draft.key == command.key;
    forall k ensures HasKey(b.log + [e], k) <==> HasKey(b.log, k) || k == command.key {
      KeyAfter(b.log, e, k);
    }
  }

  lemma KeyAfter(log: seq<Entry>, e: Entry, k: string)
    ensures HasKey(log + [e], k) <==> HasKey(log, k) || k == e.draft.key
  {
    var log' := log + [e];
    if HasKey(log, k) {
      assert log'[IndexOfKey(log, k)].draft.key == k;
    } else if k == e.draft.key {
      assert log'[|log|].draft.key == k;
    } else {
      assert forall i :: 0 <= i < |log'| ==> log'[i].draft.key != k;
    }
  }

  lemma CodesResolve()
    ensures AccountFor(Accounts5, "1000") == Ok("a1000") && AccountFor(Accounts5, "1200") == Ok("a1200")
    ensures AccountFor(Accounts5, "2200") == Ok("a2200") && AccountFor(Accounts5, "4000") == Ok("a4000")
    ensures !IsControl(Accounts5, "4000")
  {
    Lookup(Bank);
    Lookup(Receivable);
    Lookup(SalesTax);
    Lookup(Income);
  }

  lemma IdsResolve()
    ensures Find(Accounts5, "a2200").Some? && Find(Accounts5, "a4000").Some?
    ensures Find(Accounts5, "a1000").Some? && Find(Accounts5, "a1200").Some?
  {
    Lookup(Bank);
    Lookup(Receivable);
    Lookup(SalesTax);
    Lookup(Income);
  }

  lemma PartsAreOn(chart: Chart, doc: Doc, amount: nat, code: string, taxCode: string, memo: string, income: AccountId, tax: AccountId)
    requires AccountFor(chart, code) == Ok(income) && AccountFor(chart, TaxCodeOf(taxCode)) == Ok(tax)
    requires 0 <= doc.tax <= doc.total
    ensures var parts := ReversalLines(chart, doc, amount, code, taxCode, memo);
            parts.Ok? && forall i :: 0 <= i < |parts.value| ==> parts.value[i].accountId == income || parts.value[i].accountId == tax
  {
    if doc.tax > 0 {
      ShareIsWithin(amount, doc.tax, doc.total);
    }
  }

  lemma PartsResolve(open: nat, amount: nat)
    requires 0 < amount <= 110
    ensures var parts := ReversalLines(Accounts5, Invoice(open), amount, "4000", "2200", "memo");
            parts.Ok? && forall i :: 0 <= i < |parts.value| ==> Find(Accounts5, parts.value[i].accountId).Some?
  {
    TrimsAway();
    CodesResolve();
    IdsResolve();
    PartsAreOn(Accounts5, Invoice(open), amount, "4000", "2200", "memo", "a4000", "a2200");
  }

  lemma InvoiceFits(open: nat)
    requires open <= 110
    ensures DocFits((INVOICE, "i1"), Invoice(open))
  {
  }

  ghost predicate Charted(lines: seq<Line>) {
    forall i :: 0 <= i < |lines| ==> lines[i].currency == "USD" && Find(Accounts5, lines[i].accountId).Some?
  }

  /** What a planned request of these books comes to when its key is fresh. */
  ghost predicate Planned(plan: Result<Plan, ArApError>, key: string, open: nat) {
    && plan.Ok? && plan.value.key == (INVOICE, "i1") && plan.value.doc == Invoice(open)
    && plan.value.command.key == key && plan.value.command.payload.currency == "USD"
    && Charted(plan.value.command.payload.lines)
  }

  lemma PlannedPosts(s: State, op: Op, key: string, before: nat, open: nat)
    requires OnInvoice(op, "i1") && Scene(s, before) && !HasKey(s.books.log, key)
    requires Planned(PlanOf(s.AsDesk(), op), key, open)
    requires Balanced(PlanOf(s.AsDesk(), op).value.command.payload.lines)
    ensures Posts(s, op) && Scene(Step(s, op), open)
    ensures forall k :: HasKey(Step(s, op).books.log, k) <==> HasKey(s.books.log, k) || k == key
  {
    var plan := PlanOf(s.AsDesk(), op).value;
    PlanExecutes(s, plan, op.at, before, open);
    assert Step(s, op) == Execute(s, plan, op.at).0;
  }

  lemma PlanExecutes(s: State, plan: Plan, at: string, before: nat, open: nat)
    requires Scene(s, before) && !HasKey(s.books.log, plan.command.key)
    requires Planned(Ok(plan), plan.command.key, open) && Balanced(plan.command.payload.lines)
    ensures PostTo(s.books, plan.command, at).1.Ok? && Scene(Execute(s, plan, at).0, open)
    ensures forall k :: HasKey(Execute(s, plan, at).0.books.log, k) <==> HasKey(s.books.log, k) || k == plan.command.key
  {
    FreshPosts(s.books, plan.command, at);
    assert s.items.docs[(INVOICE, "i1") := plan.doc] == map[(INVOICE, "i1") := Invoice(open)];
  }

  lemma ReversalCharted(parts: seq<Part>, anchor: AccountId)
    requires Find(Accounts5, anchor).Some?
    requires forall i :: 0 <= i < |parts| ==> Find(Accounts5, parts[i].accountId).Some?
    ensures Charted(CreditLines(INVOICE, parts, anchor, "USD"))
  {
  }

  /** A credit of all that is open is accepted, and leaves nothing open. */
  lemma CreditPosts(s: State, open: nat, id: string)
    requires Scene(s, open) && 0 < open <= 110 && id != "" && Trimmed(id) && !HasKey(s.books.log, "creditmemo:" + id)
    ensures Posts(s, Credit(id)) && Scene(Step(s, Credit(id)), 0)
    ensures forall k :: HasKey(Step(s, Credit(id)).books.log, k) <==> HasKey(s.books.log, k) || k == "creditmemo:" + id
  {
    InvoiceFits(open);
    CreditPlanned(s.AsDesk(), open, id);
    CreditBalances(s.AsDesk(), INVOICE, "i1", Reversal(id), "now");
    PlannedPosts(s, Credit(id), "creditmemo:" + id, open, 0);
  }

  ghost predicate SceneDesk(s: Desk, open: nat) {
    s.t == "t" && s.currency == "USD" && s.chart == Accounts5 && s.items.docs == map[(INVOICE, "i1") := Invoice(open)]
  }

  lemma CreditTermsAre(s: Desk, open: nat, id: string)
    requires SceneDesk(s, open) && 0 < open <= 110 && id != "" && Trimmed(id)
    ensures var parts := ReversalLines(Accounts5, Invoice(open), open, "4000", "2200", "memo");
            && parts.Ok?
            && CreditTermsOf(s, INVOICE, "i1", Reversal(id))
               == Ok(CreditTerms(open, "4000", parts.value, "a1200", "memo", id))
  {
    TrimsAway();
    TrimKeepsTrimmed(id);
    CodesResolve();
    PartsResolve(open, open);
  }

  lemma CreditPlanned(s: Desk, open: nat, id: string)
    requires SceneDesk(s, open) && 0 < open <= 110 && id != "" && Trimmed(id)
    ensures Planned(PlanCredit(s, INVOICE, "i1", Reversal(id), "now"), "creditmemo:" + id, 0)
  {
    CreditTermsAre(s, open, id);
    PartsResolve(open, open);
    Lookup(Receivable);
    ReversalCharted(ReversalLines(Accounts5, Invoice(open), open, "4000", "2200", "memo").value, "a1200");
  }

  /** A refund of all that has come off is accepted, and changes nothing on the invoice. */
  lemma RefundPosts(s: State, open: nat, id: string)
    requires Scene(s, open) && open < 110 && id != "" && Trimmed(id) && !HasKey(s.books.log, "refund:" + id)
    ensures Posts(s, Refund(id)) && Scene(Step(s, Refund(id)), open)
    ensures forall k :: HasKey(Step(s, Refund(id)).books.log, k) <==> HasKey(s.books.log, k) || k == "refund:" + id
  {
    InvoiceFits(open);
    RefundPlanned(s.AsDesk(), open, id);
    RefundBalances(s.AsDesk(), "i1", Reversal(id), "now");
    PlannedPosts(s, Refund(id), "refund:" + id, open, open);
  }

  lemma RefundTermsGiven(s: Desk, docId: string, req: CreditRequest, code: string, parts: seq<Part>, bank: AccountId)
    requires req.date.Some? && (INVOICE, docId) in s.items.docs && req.amount.None? && Trim(req.bankCode) != "" && Trim(req.id) != ""
    requires var doc := s.items.docs[(INVOICE, docId)];
             && doc.total > doc.open && PrimaryAccountOf(doc, req.accountCode) == Ok(code) && !IsControl(s.chart, code)
             && ReversalLines(s.chart, doc, doc.total - doc.open, code, req.salesTaxCode, Trim(req.memo)) == Ok(parts)
    requires Trim(req.memo) != "" && AccountFor(s.chart, Trim(req.bankCode)) == Ok(bank)
    ensures var doc := s.items.docs[(INVOICE, docId)];
            RefundTermsOf(s, docId, req)
            == Ok(CreditTerms(doc.total - doc.open, code, parts, bank, Trim(req.memo), Trim(req.id)))
  {
  }

  lemma RefundTermsAre(s: Desk, open: nat, id: string)
    requires SceneDesk(s, open) && open < 110 && id != "" && Trimmed(id)
    ensures var parts := ReversalLines(Accounts5, Invoice(open), 110 - open, "4000", "2200", "memo");
            && parts.Ok?
            && RefundTermsOf(s, "i1", Reversal(id)) == Ok(CreditTerms(110 - open, "4000", parts.value, "a1000", "memo", id))
  {
    TrimsAway();
    TrimKeepsTrimmed(id);
    CodesResolve();
    PartsResolve(open, 110 - open);
    var parts := ReversalLines(Accounts5, Invoice(open), 110 - open, "4000", "2200", "memo").value;
    RefundTermsGiven(s, "i1", Reversal(id), "4000", parts, "a1000");
  }

  lemma RefundPlanned(s: Desk, open: nat, id: string)
    requires SceneDesk(s, open) && open < 110 && id != "" && Trimmed(id)
    ensures Planned(PlanRefund(s, "i1", Reversal(id), "now"), "refund:" + id, open)
  {
    RefundTermsAre(s, open, id);
    PartsResolve(open, 110 - open);
    Lookup(Bank);
    ReversalCharted(ReversalLines(Accounts5, Invoice(open), 110 - open, "4000", "2200", "memo").value, "a1000");
  }

  /** A payment of at most what is open is accepted, through any account of the chart. */
  lemma PaymentPosts(s: State, open: nat, id: string, amount: nat, bank: Account)
    requires Scene(s, open) && 0 < amount <= open && id != "" && Trimmed(id) && bank in Accounts5
    requires !HasKey(s.books.log, "invoicepay:" + id)
    ensures var op := Payment(id, amount, bank.code);
            && Posts(s, op) && Scene(Step(s, op), open - amount)
            && forall k :: HasKey(Step(s, op).books.log, k) <==> HasKey(s.books.log, k) || k == "invoicepay:" + id
  {
    var op := Payment(id, amount, bank.code);
    PaymentPlanned(s.AsDesk(), open, id, amount, bank);
    PaymentBalances(s.AsDesk(), INVOICE, "i1", op.payment, "now");
    PlannedPosts(s, op, "invoicepay:" + id, open, open - amount);
  }

  lemma PaymentTermsAre(s: Desk, open: nat, id: string, amount: nat, bank: Account)
    requires SceneDesk(s, open) && 0 < amount <= open && id != "" && Trimmed(id) && bank in Accounts5
    ensures PaymentTermsOf(s, INVOICE, "i1", Payment(id, amount, bank.code).payment)
         == Ok(PaymentTerms(amount, bank.id, bank.code, "a1200", id))
  {
    TrimKeepsTrimmed(id);
    Lookup(bank);
    Lookup(Receivable);
    assert bank.code != "";
  }

  lemma PaymentPlanned(s: Desk, open: nat, id: string, amount: nat, bank: Account)
    requires SceneDesk(s, open) && 0 < amount <= open && id != "" && Trimmed(id) && bank in Accounts5
    ensures Planned(PlanPayment(s, INVOICE, "i1", Payment(id, amount, bank.code).payment, "now"), "invoicepay:" + id, open - amount)
  {
    PaymentTermsAre(s, open, id, amount, bank);
    PaymentOnTermsIs(s, open, Payment(id, amount, bank.code).payment, PaymentTerms(amount, bank.id, bank.code, "a1200", id), bank);
  }

  lemma PaymentOnTermsIs(s: Desk, open: nat, req: PaymentRequest, terms: PaymentTerms, bank: Account)
    requires SceneDesk(s, open) && 0 < terms.amount <= open && req.dimensions == []
    requires bank in Accounts5 && terms.bank == bank.id && terms.control == "a1200"
    ensures Planned(Ok(PaymentOnTerms(s, INVOICE, "i1", Invoice(open), req, Day, terms, "now")),
                    "invoicepay:" + terms.paymentId, open - terms.amount)
  {
    PaymentCharted(terms, bank);
    assert "invoice" + "pay:" == "invoicepay:";
  }

  lemma PaymentCharted(terms: PaymentTerms, bank: Account)
    requires bank in Accounts5 && terms.bank == bank.id && terms.control == "a1200"
    ensures Charted(PaymentLines(INVOICE, "i1", terms, [], "USD"))
  {
    Lookup(bank);
    Lookup(Receivable);
  }

  // --- where claims fail ----------------------------------------------------------------------------

  lemma OpenedIsScene()
    ensures Scene(Opened, 110) && Fits(Opened, "i1") && DocsFit(Opened.items.docs)
    ensures forall k :: HasKey(Opened.books.log, k) <==> k == "invoice:i1"
  {
    forall k ensures HasKey(Opened.books.log, k) <==> k == "invoice:i1" {
      KeyAfter([], First, k);
      assert [] + [First] == [First];
    }
  }

  const Banks := {"a1000"}
  const Taxes := {"a2200"}

  lemma RequestsKeepApart(open: nat, op: Op, id: string)
    requires op == Credit(id) || op == Refund(id) || exists amount: nat :: op == Payment(id, amount, "1000")
    ensures OnInvoice(op, "i1") && KeepsApart(Accounts5, Invoice(open), op, Banks, Taxes)
  {
    TrimsAway();
    CodesResolve();
    assert "a1000" != "a2200" && "a1200" != "a1000" && "a1200" != "a2200" && "a4000" != "a1000" && "a4000" != "a2200";
  }

  lemma TwoWholeShares()
    ensures Shares([110, 110], 10, 110) == 20
  {
    var two: seq<nat> := [110, 110];
    assert two[..1] == [110] && two[..1][..0] == [];
    assert Shares(two[..1], 10, 110) == 10;
  }

  lemma CreditThenRefundKeepsApart()
    ensures forall op :: op in [Credit("m"), Refund("r")] ==>
              OnInvoice(op, "i1") && KeepsApart(Accounts5, Invoice(110), op, Banks, Taxes)
  {
    RequestsKeepApart(110, Credit("m"), "m");
    RequestsKeepApart(110, Refund("r"), "r");
  }

  lemma CreditThenRefundCounts()
    ensures var c, r := Credit("m"), Refund("r");
            && Posts(Opened, c) && Posts(Step(Opened, c), r)
            && TallyOf(Opened, [c, r], "i1") == Tally(0, 110, 110, [110, 110])
  {
    var c, r := Credit("m"), Refund("r");
    OpenedIsScene();
    CreditPosts(Opened, 110, "m");
    var s1 := Step(Opened, c);
    assert "refund:r" != "creditmemo:m" && "refund:r" != "invoice:i1" && "refund:" + "r" == "refund:r";
    RefundPosts(s1, 0, "r");
    TallyOfTwo(Opened, c, r);
    assert Counted(s1, r, Invoice(0), Tally(0, 0, 0, [])) == Tally(0, 0, 110, [110]);
  }

  /**
   * An invoice no one has paid is credited in full and then refunded in full: both are accepted, the bank pays
   * out 110 that were never collected, and 20 of sales tax are taken back where 10 were charged.
   */
  lemma CreditThenRefundPaysOutTheUnpaid()
    ensures var ops := [Credit("m"), Refund("r")];
            && Posts(Opened, ops[0]) && Posts(Step(Opened, ops[0]), ops[1])
            && (forall op :: op in ops ==> OnInvoice(op, "i1"))
            && TallyOf(Opened, ops, "i1") == Tally(0, 110, 110, [110, 110])
            && Held(Run(Opened, ops).books.log, Banks) == Held(Opened.books.log, Banks) - 110
            && Held(Run(Opened, ops).books.log, Taxes) == Held(Opened.books.log, Taxes) + 20
  {
    var c, r := Credit("m"), Refund("r");
    OpenedIsScene();
    CreditThenRefundCounts();
    CreditThenRefundKeepsApart();
    RunTallies(Opened, [c, r], "i1", Banks, Taxes);
    TwoWholeShares();
  }

  lemma TallyOfTwo(s: State, a: Op, b: Op)
    requires OnInvoice(a, "i1") && OnInvoice(b, "i1")
    requires (INVOICE, "i1") in s.items.docs && (INVOICE, "i1") in Step(s, a).items.docs
    ensures var s1 := Step(s, a);
            TallyOf(s, [a, b], "i1")
            == Counted(s, a, s.items.docs[(INVOICE, "i1")], Counted(s1, b, s1.items.docs[(INVOICE, "i1")], Tally(0, 0, 0, [])))
  {
    assert [a, b][1..] == [b] && [b][1..] == [];
    assert TallyOf(Step(Step(s, a), b), [], "i1") == Tally(0, 0, 0, []);
  }

  lemma TwoRefundsPost(s: State)
    requires Scene(s, 0) && !HasKey(s.books.log, "refund:r") && !HasKey(s.books.log, "refund:q")
    ensures var s2 := Step(s, Refund("r"));
            Posts(s, Refund("r")) && Scene(s2, 0) && Posts(s2, Refund("q"))
  {
    assert "refund:" + "r" == "refund:r" && "refund:" + "q" == "refund:q" && "refund:q" != "refund:r";
    RefundPosts(s, 0, "r");
    RefundPosts(Step(s, Refund("r")), 0, "q");
  }

  lemma RefundCounts(s: State, id: string, rest: Tally)
    requires Posts(s, Refund(id))
    ensures Counted(s, Refund(id), Invoice(0), rest) == rest.(refunded := rest.refunded + 110, reversed := [110] + rest.reversed)
  {
  }

  lemma TwoRefundsCount(s: State)
    requires Scene(s, 0) && !HasKey(s.books.log, "refund:r") && !HasKey(s.books.log, "refund:q")
    ensures var r1, r2 := Refund("r"), Refund("q");
            Posts(s, r1) && Posts(Step(s, r1), r2) && TallyOf(s, [r1, r2], "i1") == Tally(0, 0, 220, [110, 110])
  {
    TwoRefundsPost(s);
    TallyOfTwo(s, Refund("r"), Refund("q"));
    RefundCounts(Step(s, Refund("r")), "q", Tally(0, 0, 0, []));
    RefundCounts(s, "r", Tally(0, 0, 110, [110]));
  }

  lemma DoubleRefundCounts()
    ensures var p, r1, r2 := Payment("p", 110, "1000"), Refund("r"), Refund("q");
            && Posts(Opened, p) && Posts(Step(Opened, p), r1) && Posts(Step(Step(Opened, p), r1), r2)
            && TallyOf(Opened, [p, r1, r2], "i1") == Tally(110, 0, 220, [110, 110])
  {
    var p, r1, r2 := Payment("p", 110, "1000"), Refund("r"), Refund("q");
    FullPayment();
    TwoRefundsCount(Step(Opened, p));
    assert [p, r1, r2][1..] == [r1, r2];
  }

  lemma FullPayment()
    ensures var s := Step(Opened, Payment("p", 110, "1000"));
            && Posts(Opened, Payment("p", 110, "1000")) && Scene(s, 0)
            && !HasKey(s.books.log, "refund:r") && !HasKey(s.books.log, "refund:q")
  {
    OpenedIsScene();
    assert "invoicepay:" + "p" == "invoicepay:p";
    PaymentPosts(Opened, 110, "p", 110, Bank);
    assert "refund:r" != "invoicepay:p" && "refund:q" != "invoicepay:p";
  }

  lemma DoubleRefundKeepsApart()
    ensures var ops := [Payment("p", 110, "1000"), Refund("r"), Refund("q")];
            forall op :: op in ops ==> OnInvoice(op, "i1") && KeepsApart(Accounts5, Invoice(110), op, Banks, Taxes)
  {
    RequestsKeepApart(110, Payment("p", 110, "1000"), "p");
    RequestsKeepApart(110, Refund("r"), "r");
    RequestsKeepApart(110, Refund("q"), "q");
  }

  /** A paid invoice is refunded in full twice, under two ids: the bank pays out twice what it took in. */
  lemma DoubleRefundPaysTwice()
    ensures var ops := [Payment("p", 110, "1000"), Refund("r"), Refund("q")];
            && (forall op :: op in ops ==> OnInvoice(op, "i1"))
            && TallyOf(Opened, ops, "i1") == Tally(110, 0, 220, [110, 110])
            && Held(Run(Opened, ops).books.log, Banks) == Held(Opened.books.log, Banks) - 110
            && Held(Run(Opened, ops).books.log, Taxes) == Held(Opened.books.log, Taxes) + 20
  {
    var ops := [Payment("p", 110, "1000"), Refund("r"), Refund("q")];
    OpenedIsScene();
    DoubleRefundCounts();
    DoubleRefundKeepsApart();
    RunTallies(Opened, ops, "i1", Banks, Taxes);
    TwoWholeShares();
  }

  // --- the tie-out ----------------------------------------------------------------------------------

  lemma OpenedIsTied()
    ensures Tied(Opened, "a1200", "a2000")
  {
    OpenedIsScene();
    assert OpenAmounts(Opened.items.docs, INVOICE) == map[][(INVOICE, "i1") := 110];
    assert OpenAmounts(Opened.items.docs, BILL) == map[];
    OpenTotalAfterUpdate(map[], (INVOICE, "i1"), Invoice(110), INVOICE);
    assert OpenAmounts(map[], INVOICE) == map[];
    assert Opened.items.docs == map[][(INVOICE, "i1") := Invoice(110)];
    NetOfAppended([], First, Always, "a1200");
    NetOfAppended([], First, Always, "a2000");
    assert [] + [First] == [First];
    RaisedNets();
  }

  lemma RaisedNets()
    ensures LinesNet(Raised(), "a1200") == 110 && LinesNet(Raised(), "a2000") == 0
  {
    var lines := Raised();
    assert lines == [lines[0]] + lines[1..];
    LinesNetAppends([lines[0]], lines[1..], "a1200");
    OneLineNet(lines[0], "a1200");
    UntouchedNetIsZero(lines[1..], "a1200");
    UntouchedNetIsZero(lines, "a2000");
  }

  lemma CodesControl()
    ensures Controlled(Accounts5, Codes, "a1200", "a2000")
  {
    Lookup(Receivable);
    Lookup(Payable);
  }

  /** Fifty paid twice under one id is accepted twice, posted once, and comes off the invoice twice. */
  lemma PayingTwiceUnderOneId()
    ensures var p := Payment("p", 50, "1000");
            var once := Step(Opened, p);
            var twice := Step(once, p);
            && Tied(Opened, "a1200", "a2000") && Posts(Opened, p) && Tied(once, "a1200", "a2000")
            && PlanOf(once.AsDesk(), p).Ok? && twice.books == once.books && !Tied(twice, "a1200", "a2000")
  {
    var p := Payment("p", 50, "1000");
    FiftyPaid();
    var plan := PlanPayment(Opened.AsDesk(), INVOICE, "i1", p.payment, "now").value;
    assert Step(Opened, p) == Execute(Opened, plan, "now").0;
    PayingAgainUnderOneIdBreaksTheTie(Opened, INVOICE, "i1", p.payment, "now", plan, "a1200", "a2000");
  }

  lemma FiftyPaid()
    ensures var p := Payment("p", 50, "1000");
            && Tied(Opened, "a1200", "a2000") && PaymentKeepsOff(Accounts5, p.payment, "a1200", "a2000")
            && Trim(p.payment.id) != "" && Posts(Opened, p)
  {
    OpenedIsScene();
    OpenedIsTied();
    CodesControl();
    Lookup(Bank);
    TrimKeepsTrimmed("p");
    assert "invoicepay:" + "p" == "invoicepay:p";
    PaymentPosts(Opened, 110, "p", 50, Bank);
  }

  /** A payment through the receivable account is accepted, and takes the books out of tie. */
  lemma PayingThroughTheControl()
    ensures var p := Payment("p", 50, "1200");
            && Tied(Opened, "a1200", "a2000") && RightlyControlled(Accounts5, p, "a1200", "a2000")
            && Posts(Opened, p) && !Tied(Step(Opened, p), "a1200", "a2000")
  {
    var p := Payment("p", 50, "1200");
    OpenedIsScene();
    OpenedIsTied();
    CodesControl();
    Lookup(Receivable);
    PaymentPosts(Opened, 110, "p", 50, Receivable);
    StepTiesOutIffHarmless(Opened, p, "a1200", "a2000");
    assert !Off(Accounts5, "1200", "a1200", "a2000");
  }

  const OnControl := CreateRequest("i2", "c1", Some(Day), "", [LineInput("Loan", Some(1), Some(40), "1200", false, [])],
                                   Codes, Some(0), "2200")

  const Loan := Resolved(["a1200"], [DocLine("Loan", 1, 40, "1200", 40, false)], 40)

  lemma OneLineResolves(l: LineInput, id: AccountId, record: DocLine)
    requires ResolveLine(l, Accounts5) == Ok((id, record))
    ensures ResolveLines([l], Accounts5) == Ok(Resolved([id], [record], record.amount))
  {
    var lines, none: seq<AccountId>, noRecords: seq<DocLine> := [l], [], [];
    assert lines[..|lines| - 1] == [] && lines[|lines| - 1] == l;
    assert ResolveLines([], Accounts5) == Ok(Resolved([], [], 0));
    assert none + [id] == [id] && noRecords + [record] == [record];
  }

  lemma OnControlResolves()
    ensures ResolveLines(OnControl.lines, Accounts5) == Ok(Loan)
  {
    TrimKeepsTrimmed("1200");
    Lookup(Receivable);
    OneLineResolves(OnControl.lines[0], "a1200", DocLine("Loan", 1, 40, "1200", 40, false));
  }

  lemma OnControlTerms()
    ensures TermsOf(Opened.AsDesk(), INVOICE, OnControl, Ok(Loan)) == Ok(Terms("a1200", "a1200", 0, Loan))
  {
    Lookup(Receivable);
    TrimKeepsTrimmed("i2");
    TrimKeepsTrimmed("c1");
  }

  lemma LoanCharted()
    ensures Charted(CreationLines(INVOICE, "a1200", "a1200", Loan, [[]], 40, 0, "USD"))
  {
    Lookup(Receivable);
  }

  lemma OnControlPlan()
    ensures var plan := CreationPlan(Opened.AsDesk(), INVOICE, OnControl, "now");
            && plan.Ok? && plan.value.command.key == "invoice:i2" && plan.value.command.payload.currency == "USD"
            && Charted(plan.value.command.payload.lines)
  {
    OnControlResolves();
    OnControlTerms();
    BaseIsNatural(Loan.records);
    PlannedOnTerms(Opened.AsDesk(), INVOICE, OnControl, Terms("a1200", "a1200", 0, Loan), "now");
    LoanPlan(Opened.AsDesk());
  }

  lemma LoanPlan(s: Desk)
    requires s.currency == "USD" && TaxableBase(Loan.records) >= 0
    ensures var plan := PlanOnTerms(s, INVOICE, OnControl, Day, Terms("a1200", "a1200", 0, Loan), "now");
            && plan.command.key == "invoice:i2" && plan.command.payload.currency == "USD"
            && Charted(plan.command.payload.lines)
  {
    NoRateNoTax(TaxableBase(Loan.records));
    assert DimensionsOf(OnControl.lines) == [[]];
    assert "invoice" + ":" + "i2" == "invoice:i2";
    LoanCharted();
  }

  /** An invoice with a line on the receivable account is accepted, and takes the books out of tie. */
  lemma InvoicingTheControl()
    ensures var c := Create(INVOICE, OnControl, "now");
            && Tied(Opened, "a1200", "a2000") && RightlyControlled(Accounts5, c, "a1200", "a2000")
            && Posts(Opened, c) && !Tied(Step(Opened, c), "a1200", "a2000")
  {
    var c := Create(INVOICE, OnControl, "now");
    OpenedIsScene();
    OpenedIsTied();
    CodesControl();
    OnControlPlan();
    CreateBalances(Opened.AsDesk(), INVOICE, OnControl, "now");
    FreshPosts(Opened.books, CreationPlan(Opened.AsDesk(), INVOICE, OnControl, "now").value.command, "now");
    StepTiesOutIffHarmless(Opened, c, "a1200", "a2000");
    OnControlNamesIt();
  }

  lemma OnControlNamesIt()
    ensures forall tax :: !CodesOff(Accounts5, OnControl, tax, "a1200", "a2000")
  {
    TrimKeepsTrimmed("1200");
    Lookup(Receivable);
    assert OnControl.lines[0].accountCode == "1200";
  }
}
