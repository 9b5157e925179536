/**
 * What payments, credits and refunds do to one invoice, to the bank and to sales tax (arap.ts). A refund is
 * bounded by what has come off the invoice, and credits come off it too, so it is not bounded by what was paid.
 */
module ArApRefunds {
  import opened Text
  import opened Ledger
  import opened Chart
  import opened LedgerStore
  import opened PostingEngine
  import opened TrialBalance
  import opened Documents
  import opened ArAp
  import opened ArApRuns
  import opened ArApEntries

  // --- requests on one invoice ----------------------------------------------------------------------

  predicate OnInvoice(op: Op, docId: string) {
    match op
    case Pay(kind, id, _, _) => kind == INVOICE && id == docId
    case IssueCredit(kind, id, _, _) => kind == INVOICE && id == docId
    case IssueRefund(id, _, _) => id == docId
    case _ => false
  }

  /** What has come off an invoice, by payments and by credits: the one bound a refund is held to. */
  function TakenOff(doc: Doc): int {
    doc.total - doc.open
  }

  function Natural(n: int): nat {
    if n < 0 then 0 else n
  }

  /** How much a request asks for: a credit all that is open, a refund all that has come off, unless it says. */
  function Asked(doc: Doc, op: Op): nat {
    match op
    case Pay(_, _, req, _) => Natural(req.amount.GetOr(0))
    case IssueCredit(_, _, req, _) => Natural(if req.amount.None? then doc.open else req.amount.value.GetOr(0))
    case IssueRefund(_, req, _) => Natural(if req.amount.None? then TakenOff(doc) else req.amount.value.GetOr(0))
    case _ => 0
  }

  /** The request is accepted and its entry is new. */
  predicate Posts(s: State, op: Op)
    requires !op.Journal? && !op.SetLocks?
  {
    var plan := PlanOf(s.AsDesk(), op);
    plan.Ok? && !HasKey(s.books.log, plan.value.command.key) && PostTo(s.books, plan.value.command, op.at).1.Ok?
  }

  /** The request is accepted because its entry was there already. */
  predicate Repeats(s: State, op: Op)
    requires !op.Journal? && !op.SetLocks?
  {
    var plan := PlanOf(s.AsDesk(), op);
    plan.Ok? && Replays(s.books.log, plan.value.command)
  }

  ghost predicate Fits(s: State, docId: string) {
    (INVOICE, docId) in s.items.docs && DocFits((INVOICE, docId), s.items.docs[(INVOICE, docId)])
  }

  // --- sums over several accounts -------------------------------------------------------------------

  ghost function In(accounts: set<AccountId>): AccountId -> bool {
    a => a in accounts
  }

  /** What the journal holds on these accounts together, debit-positive. */
  ghost function Held(log: seq<Entry>, accounts: set<AccountId>): int {
    Selected(LinesIn(log, Always), In(accounts))
  }

  lemma HeldAfter(log: seq<Entry>, e: Entry, accounts: set<AccountId>)
    ensures Held(log + [e], accounts) == Held(log, accounts) + Selected(e.Lines(), In(accounts))
  {
    assert (log + [e])[..|log|] == log;
    SelectedAppends(LinesIn(log, Always), e.Lines(), In(accounts));
  }

  lemma {:induction false} NoneIn(lines: seq<Line>, accounts: set<AccountId>)
    requires forall i :: 0 <= i < |lines| ==> lines[i].accountId !in accounts
    ensures Selected(lines, In(accounts)) == 0
  {
    if lines != [] {
      NoneIn(lines[..|lines| - 1], accounts);
    }
  }

  lemma OneIn(l: Line, accounts: set<AccountId>)
    ensures Selected([l], In(accounts)) == if l.accountId in accounts then Signed(l) else 0
  {
    assert [l][..0] == [];
  }

  // --- which accounts a request may touch -----------------------------------------------------------

  /** The account this code names is outside both sets. */
  ghost predicate Outside(chart: Chart, code: string, banks: set<AccountId>, taxes: set<AccountId>) {
    var a := AccountFor(chart, code);
    a.Ok? ==> a.value !in banks && a.value !in taxes
  }

  ghost predicate Within(chart: Chart, code: string, accounts: set<AccountId>, others: set<AccountId>) {
    var a := AccountFor(chart, code);
    a.Ok? ==> a.value in accounts && a.value !in others
  }

  ghost predicate ReversalApart(chart: Chart, doc: Doc, req: CreditRequest, banks: set<AccountId>, taxes: set<AccountId>) {
    var code := PrimaryAccountOf(doc, req.accountCode);
    && (code.Ok? ==> Outside(chart, code.value, banks, taxes))
    && Within(chart, TaxCodeOf(req.salesTaxCode), taxes, banks)
  }

  /** Bank lines are on banks, tax lines on taxes, and control and income lines on neither. */
  ghost predicate KeepsApart(chart: Chart, doc: Doc, op: Op, banks: set<AccountId>, taxes: set<AccountId>) {
    match op
    case Pay(_, _, req, _) =>
      && Within(chart, PaymentBank(chart, req), banks, taxes)
      && Outside(chart, Controls(chart, req.accounts).arCode, banks, taxes)
    case IssueCredit(_, _, req, _) =>
      && ReversalApart(chart, doc, req, banks, taxes)
      && Outside(chart, Controls(chart, req.accounts).arCode, banks, taxes)
    case IssueRefund(_, req, _) =>
      && ReversalApart(chart, doc, req, banks, taxes)
      && Within(chart, RefundBank(chart, req), banks, taxes)
    case _ => true
  }

  // --- what one entry does --------------------------------------------------------------------------

  lemma PaymentHolds(docId: string, terms: PaymentTerms, dims: seq<(string, string)>, currency: string,
                     banks: set<AccountId>, taxes: set<AccountId>)
    requires terms.bank in banks && terms.bank !in taxes && terms.control !in banks && terms.control !in taxes
    ensures var lines := PaymentLines(INVOICE, docId, terms, dims, currency);
            Selected(lines, In(banks)) == terms.amount && Selected(lines, In(taxes)) == 0
  {
    var lines := PaymentLines(INVOICE, docId, terms, dims, currency);
    assert lines == [lines[0]] + [lines[1]];
    SelectedAppends([lines[0]], [lines[1]], In(banks));
    SelectedAppends([lines[0]], [lines[1]], In(taxes));
    OneIn(lines[0], banks);
    OneIn(lines[1], banks);
    OneIn(lines[0], taxes);
    OneIn(lines[1], taxes);
  }

  lemma NoTaxNoShare(amount: nat, total: nat)
    requires total > 0
    ensures TaxPortion(amount, 0, total) == 0
  {
    assert amount * 0 == 0;
  }

  /** The debits of a reversal: its share of the tax on the tax accounts, nothing on the banks. */
  lemma PartsHold(chart: Chart, doc: Doc, amount: nat, code: string, taxCode: string, memo: string, currency: string,
                  banks: set<AccountId>, taxes: set<AccountId>)
    requires doc.kind == INVOICE && doc.total > 0 && 0 <= doc.tax
    requires ReversalLines(chart, doc, amount, code, taxCode, memo).Ok?
    requires Outside(chart, code, banks, taxes) && Within(chart, TaxCodeOf(taxCode), taxes, banks)
    ensures var postings := ReversalPostings(ReversalLines(chart, doc, amount, code, taxCode, memo).value, DEBIT, currency);
            && Selected(postings, In(banks)) == 0
            && Selected(postings, In(taxes)) == TaxPortion(amount, doc.tax, doc.total)
  {
    var parts := ReversalLines(chart, doc, amount, code, taxCode, memo).value;
    var postings := ReversalPostings(parts, DEBIT, currency);
    NoneIn(postings, banks);
    NoTaxNoShare(amount, doc.total);
    if |parts| == 2 {
      assert postings == [postings[0]] + [postings[1]];
      SelectedAppends([postings[0]], [postings[1]], In(taxes));
      OneIn(postings[0], taxes);
      OneIn(postings[1], taxes);
    } else if |parts| == 1 {
      assert postings == [postings[0]];
      OneIn(postings[0], taxes);
    }
  }

  lemma ReversalHolds(chart: Chart, doc: Doc, amount: nat, code: string, taxCode: string, memo: string, anchor: AccountId,
                      currency: string, banks: set<AccountId>, taxes: set<AccountId>)
    requires doc.kind == INVOICE && doc.total > 0 && 0 <= doc.tax <= doc.total && anchor !in taxes && amount > 0
    requires ReversalLines(chart, doc, amount, code, taxCode, memo).Ok?
    requires Outside(chart, code, banks, taxes) && Within(chart, TaxCodeOf(taxCode), taxes, banks)
    ensures var lines := CreditLines(INVOICE, ReversalLines(chart, doc, amount, code, taxCode, memo).value, anchor, currency);
            && Selected(lines, In(banks)) == (if anchor in banks then 0 - amount else 0)
            && Selected(lines, In(taxes)) == TaxPortion(amount, doc.tax, doc.total)
  {
    var parts := ReversalLines(chart, doc, amount, code, taxCode, memo).value;
    var last := Posting(anchor, CREDIT, PartsTotal(parts), currency, "");
    PartsArePositive(chart, doc, amount, code, taxCode, memo);
    PartsHold(chart, doc, amount, code, taxCode, memo, currency, banks, taxes);
    SelectedAppends(ReversalPostings(parts, DEBIT, currency), [last], In(banks));
    SelectedAppends(ReversalPostings(parts, DEBIT, currency), [last], In(taxes));
    OneIn(last, banks);
    OneIn(last, taxes);
  }

  // --- what one request plans -----------------------------------------------------------------------

  /** Cash into the banks, debit-positive. */
  function CashOf(op: Op, amount: nat): int {
    if op.Pay? then amount else if op.IssueRefund? then 0 - amount else 0
  }

  /** How far the request takes the open amount down. */
  function OffOf(op: Op, amount: nat): nat {
    if op.IssueRefund? then 0 else amount
  }

  function ShareOf(op: Op, amount: nat, doc: Doc): nat
    requires doc.total > 0 && doc.tax >= 0
  {
    if op.Pay? then 0 else TaxPortion(amount, doc.tax, doc.total)
  }

  /** A plan on the invoice: what its entry holds and what it leaves open. */
  ghost predicate PlansWhatItAsks(s: Desk, op: Op, docId: string, plan: Plan, banks: set<AccountId>, taxes: set<AccountId>)
    requires (INVOICE, docId) in s.items.docs && DocFits((INVOICE, docId), s.items.docs[(INVOICE, docId)])
  {
    var doc := s.items.docs[(INVOICE, docId)];
    var amount := Asked(doc, op);
    && plan.key == (INVOICE, docId)
    && plan.doc == doc.(open := doc.open - OffOf(op, amount), status := plan.doc.status) && DocFits(plan.key, plan.doc)
    && 0 < amount <= (if op.IssueRefund? then TakenOff(doc) else doc.open)
    && Selected(plan.command.payload.lines, In(banks)) == CashOf(op, amount)
    && Selected(plan.command.payload.lines, In(taxes)) == ShareOf(op, amount, doc)
  }

  lemma PaymentPlans(s: Desk, op: Op, docId: string, banks: set<AccountId>, taxes: set<AccountId>)
    requires (INVOICE, docId) in s.items.docs && DocFits((INVOICE, docId), s.items.docs[(INVOICE, docId)])
    requires op.Pay? && OnInvoice(op, docId) && PlanOf(s, op).Ok?
    requires KeepsApart(s.chart, s.items.docs[(INVOICE, docId)], op, banks, taxes)
    ensures PlansWhatItAsks(s, op, docId, PlanOf(s, op).value, banks, taxes)
  {
    var terms := PaymentTermsOf(s, INVOICE, docId, op.payment).value;
    PaymentHolds(docId, terms, op.payment.dimensions, s.currency, banks, taxes);
  }

  lemma CreditPlans(s: Desk, op: Op, docId: string, banks: set<AccountId>, taxes: set<AccountId>)
    requires (INVOICE, docId) in s.items.docs && DocFits((INVOICE, docId), s.items.docs[(INVOICE, docId)])
    requires op.IssueCredit? && OnInvoice(op, docId) && PlanOf(s, op).Ok?
    requires KeepsApart(s.chart, s.items.docs[(INVOICE, docId)], op, banks, taxes)
    ensures PlansWhatItAsks(s, op, docId, PlanOf(s, op).value, banks, taxes)
  {
    var doc, t := s.items.docs[(INVOICE, docId)], CreditTermsOf(s, INVOICE, docId, op.credit).value;
    CreditTermsHold(s, INVOICE, docId, op.credit);
    CreditAsks(s, docId, op.credit);
    CreditPlanIs(s, docId, op.credit, op.at);
    ReversalHolds(s.chart, doc, t.amount, t.code, op.credit.salesTaxCode, t.memo, t.anchor, s.currency, banks, taxes);
  }

  lemma CreditPlanIs(s: Desk, docId: string, req: CreditRequest, at: string)
    requires (INVOICE, docId) in s.items.docs && PlanCredit(s, INVOICE, docId, req, at).Ok?
    requires DocFits((INVOICE, docId), s.items.docs[(INVOICE, docId)])
    ensures CreditTermsOf(s, INVOICE, docId, req).Ok?
    ensures var doc, t := s.items.docs[(INVOICE, docId)], CreditTermsOf(s, INVOICE, docId, req).value;
            var plan := PlanCredit(s, INVOICE, docId, req, at).value;
            && plan.key == (INVOICE, docId) && plan.doc == doc.(open := doc.open - t.amount, status := plan.doc.status)
            && DocFits(plan.key, plan.doc)
            && plan.command.payload.lines == CreditLines(INVOICE, t.parts, t.anchor, s.currency)
  {
    CreditTermsHold(s, INVOICE, docId, req);
  }

  lemma CreditAsks(s: Desk, docId: string, req: CreditRequest)
    requires CreditTermsOf(s, INVOICE, docId, req).Ok? && (INVOICE, docId) in s.items.docs
    ensures var doc := s.items.docs[(INVOICE, docId)];
            CreditTermsOf(s, INVOICE, docId, req).value.amount
            == Natural(if req.amount.None? then doc.open else req.amount.value.GetOr(0))
  {
  }

  lemma RefundPlans(s: Desk, op: Op, docId: string, banks: set<AccountId>, taxes: set<AccountId>)
    requires (INVOICE, docId) in s.items.docs && DocFits((INVOICE, docId), s.items.docs[(INVOICE, docId)])
    requires op.IssueRefund? && OnInvoice(op, docId) && PlanOf(s, op).Ok?
    requires KeepsApart(s.chart, s.items.docs[(INVOICE, docId)], op, banks, taxes)
    ensures PlansWhatItAsks(s, op, docId, PlanOf(s, op).value, banks, taxes)
    ensures PlanOf(s, op).value.doc == s.items.docs[(INVOICE, docId)] && PlanOf(s, op).value.payment.None?
  {
    var doc, t := s.items.docs[(INVOICE, docId)], RefundTermsOf(s, docId, op.credit).value;
    RefundTermsHold(s, docId, op.credit);
    RefundAsks(s, docId, op.credit);
    ReversalHolds(s.chart, doc, t.amount, t.code, op.credit.salesTaxCode, t.memo, t.anchor, s.currency, banks, taxes);
  }

  lemma RefundAsks(s: Desk, docId: string, req: CreditRequest)
    requires RefundTermsOf(s, docId, req).Ok? && (INVOICE, docId) in s.items.docs
    ensures var doc, t := s.items.docs[(INVOICE, docId)], RefundTermsOf(s, docId, req).value;
            && t.amount == Natural(if req.amount.None? then TakenOff(doc) else req.amount.value.GetOr(0))
            && 0 < t.amount <= TakenOff(doc)
  {
  }

  lemma RequestPlans(s: Desk, op: Op, docId: string, banks: set<AccountId>, taxes: set<AccountId>)
    requires (INVOICE, docId) in s.items.docs && DocFits((INVOICE, docId), s.items.docs[(INVOICE, docId)])
    requires OnInvoice(op, docId) && PlanOf(s, op).Ok?
    requires KeepsApart(s.chart, s.items.docs[(INVOICE, docId)], op, banks, taxes)
    ensures PlansWhatItAsks(s, op, docId, PlanOf(s, op).value, banks, taxes)
  {
    match op
    case Pay(_, _, _, _) => PaymentPlans(s, op, docId, banks, taxes);
    case IssueCredit(_, _, _, _) => CreditPlans(s, op, docId, banks, taxes);
    case IssueRefund(_, _, _) => RefundPlans(s, op, docId, banks, taxes);
  }

  // --- one step -------------------------------------------------------------------------------------

  /** The invoice after a step: less open, if anything; total, tax and lines as they were. */
  ghost predicate Lowered(s: State, s': State, docId: string, off: nat)
    requires (INVOICE, docId) in s.items.docs
  {
    var doc := s.items.docs[(INVOICE, docId)];
    && Fits(s', docId) && s'.books.chart == s.books.chart
    && var doc' := s'.items.docs[(INVOICE, docId)];
       doc' == doc.(open := doc.open - off, status := doc'.status)
  }

  ghost predicate Moves(s: State, s': State, banks: set<AccountId>, taxes: set<AccountId>, cash: int, tax: int) {
    && Held(s'.books.log, banks) == Held(s.books.log, banks) + cash
    && Held(s'.books.log, taxes) == Held(s.books.log, taxes) + tax
  }

  lemma PostedStep(s: State, op: Op, docId: string, banks: set<AccountId>, taxes: set<AccountId>)
    requires Fits(s, docId) && OnInvoice(op, docId) && Posts(s, op)
    requires KeepsApart(s.books.chart, s.items.docs[(INVOICE, docId)], op, banks, taxes)
    ensures var doc, s' := s.items.docs[(INVOICE, docId)], Step(s, op);
            var a := Asked(doc, op);
            && Lowered(s, s', docId, OffOf(op, a)) && Moves(s, s', banks, taxes, CashOf(op, a), ShareOf(op, a, doc))
            && 0 < a <= (if op.IssueRefund? then TakenOff(doc) else doc.open)
  {
    var plan := PlanOf(s.AsDesk(), op).value;
    RequestPlans(s.AsDesk(), op, docId, banks, taxes);
    PostedPlan(s, plan, op.at, banks, taxes);
    assert Step(s, op) == Execute(s, plan, op.at).0;
  }

  lemma PostedPlan(s: State, plan: Plan, at: string, banks: set<AccountId>, taxes: set<AccountId>)
    requires !HasKey(s.books.log, plan.command.key) && PostTo(s.books, plan.command, at).1.Ok?
    ensures var s', lines := Execute(s, plan, at).0, plan.command.payload.lines;
            && s'.items.docs == s.items.docs[plan.key := plan.doc] && s'.books.chart == s.books.chart
            && Moves(s, s', banks, taxes, Selected(lines, In(banks)), Selected(lines, In(taxes)))
  {
    var e := NewEntry(s.books, plan.command, at);
    HeldAfter(s.books.log, e, banks);
    HeldAfter(s.books.log, e, taxes);
  }

  lemma RepeatedStep(s: State, op: Op, docId: string, banks: set<AccountId>, taxes: set<AccountId>)
    requires Fits(s, docId) && OnInvoice(op, docId) && Repeats(s, op)
    requires KeepsApart(s.books.chart, s.items.docs[(INVOICE, docId)], op, banks, taxes)
    ensures var doc, s' := s.items.docs[(INVOICE, docId)], Step(s, op);
            Lowered(s, s', docId, OffOf(op, Asked(doc, op))) && Moves(s, s', banks, taxes, 0, 0)
  {
    var plan := PlanOf(s.AsDesk(), op).value;
    RequestPlans(s.AsDesk(), op, docId, banks, taxes);
    RepeatedPlan(s, plan, op.at);
    assert Step(s, op) == Execute(s, plan, op.at).0;
  }

  lemma RepeatedPlan(s: State, plan: Plan, at: string)
    requires Replays(s.books.log, plan.command)
    ensures var s' := Execute(s, plan, at).0;
            s'.items.docs == s.items.docs[plan.key := plan.doc] && s'.books == s.books
  {
    ReplaysIffAccepted(s.books, plan.command, at);
  }

  lemma RefusedStep(s: State, op: Op, docId: string)
    requires OnInvoice(op, docId) && !Posts(s, op) && !Repeats(s, op)
    ensures Step(s, op) == s
  {
    var plan := PlanOf(s.AsDesk(), op);
    if plan.Ok? && HasKey(s.books.log, plan.value.command.key) {
      ReplaysIffAccepted(s.books, plan.value.command, op.at);
    }
  }

  // --- runs -----------------------------------------------------------------------------------------

  /**
   * What a run on one invoice comes to: `paid`, what its payments brought in; `waived`, what came off with no
   * money, by credits and by payments and credits repeated under a used key; `refunded`, what its refunds paid
   * out; and `reversed`, the amounts of its credits and refunds one by one. Only `waived` counts a repeat.
   */
  datatype Tally = Tally(paid: nat, waived: nat, refunded: nat, reversed: seq<nat>)

  function Counted(s: State, op: Op, doc: Doc, rest: Tally): Tally
    requires !op.Journal? && !op.SetLocks?
  {
    var a := Asked(doc, op);
    if Posts(s, op) then
      if op.Pay? then rest.(paid := rest.paid + a)
      else if op.IssueRefund? then rest.(refunded := rest.refunded + a, reversed := [a] + rest.reversed)
      else rest.(waived := rest.waived + a, reversed := [a] + rest.reversed)
    else if Repeats(s, op) then rest.(waived := rest.waived + OffOf(op, a))
    else rest
  }

  function TallyOf(s: State, ops: seq<Op>, docId: string): Tally
    requires forall op :: op in ops ==> OnInvoice(op, docId)
    decreases |ops|
  {
    if ops == [] then Tally(0, 0, 0, [])
    else
      assert OnInvoice(ops[0], docId);
      var rest := TallyOf(Step(s, ops[0]), ops[1..], docId);
      if (INVOICE, docId) in s.items.docs then Counted(s, ops[0], s.items.docs[(INVOICE, docId)], rest) else rest
  }

  /** Open amount, banks and sales tax have moved by what the tally says. */
  ghost predicate Tallied(s: State, s': State, docId: string, t: Tally, banks: set<AccountId>, taxes: set<AccountId>)
    requires Fits(s, docId)
  {
    var doc := s.items.docs[(INVOICE, docId)];
    && Lowered(s, s', docId, t.paid + t.waived)
    && Moves(s, s', banks, taxes, t.paid - t.refunded, Shares(t.reversed, doc.tax, doc.total))
  }

  /** A tally grown by one step's part. */
  ghost predicate Grown(t: Tally, rest: Tally, off: nat, cash: int, tax: int, doc: Doc)
    requires doc.total > 0 && doc.tax >= 0
  {
    && t.paid + t.waived == rest.paid + rest.waived + off
    && t.paid - t.refunded == rest.paid - rest.refunded + cash
    && Shares(t.reversed, doc.tax, doc.total) == Shares(rest.reversed, doc.tax, doc.total) + tax
  }

  lemma TalliedFirst(s: State, next: State, later: State, docId: string, t: Tally, rest: Tally, off: nat, cash: int, tax: int,
                     banks: set<AccountId>, taxes: set<AccountId>)
    requires Fits(s, docId) && Lowered(s, next, docId, off) && Moves(s, next, banks, taxes, cash, tax)
    requires Tallied(next, later, docId, rest, banks, taxes)
    requires Grown(t, rest, off, cash, tax, s.items.docs[(INVOICE, docId)])
    ensures Tallied(s, later, docId, t, banks, taxes)
  {
  }

  lemma CountedGrows(s: State, op: Op, doc: Doc, rest: Tally, docId: string)
    requires OnInvoice(op, docId) && doc.total > 0 && doc.tax >= 0
    ensures var a, t := Asked(doc, op), Counted(s, op, doc, rest);
            && (Posts(s, op) ==> Grown(t, rest, OffOf(op, a), CashOf(op, a), ShareOf(op, a, doc), doc))
            && (!Posts(s, op) && Repeats(s, op) ==> Grown(t, rest, OffOf(op, a), 0, 0, doc))
            && (!Posts(s, op) && !Repeats(s, op) ==> Grown(t, rest, 0, 0, 0, doc))
  {
    PrependedShares(Asked(doc, op), rest.reversed, doc.tax, doc.total);
  }

  lemma StepTallies(s: State, op: Op, docId: string, later: State, rest: Tally, banks: set<AccountId>, taxes: set<AccountId>)
    requires Fits(s, docId) && OnInvoice(op, docId)
    requires KeepsApart(s.books.chart, s.items.docs[(INVOICE, docId)], op, banks, taxes)
    requires Fits(Step(s, op), docId) ==> Tallied(Step(s, op), later, docId, rest, banks, taxes)
    ensures Tallied(s, later, docId, Counted(s, op, s.items.docs[(INVOICE, docId)], rest), banks, taxes)
  {
    var doc, next := s.items.docs[(INVOICE, docId)], Step(s, op);
    var a, t := Asked(doc, op), Counted(s, op, doc, rest);
    CountedGrows(s, op, doc, rest, docId);
    if Posts(s, op) {
      PostedStep(s, op, docId, banks, taxes);
      TalliedFirst(s, next, later, docId, t, rest, OffOf(op, a), CashOf(op, a), ShareOf(op, a, doc), banks, taxes);
    } else if Repeats(s, op) {
      RepeatedStep(s, op, docId, banks, taxes);
      TalliedFirst(s, next, later, docId, t, rest, OffOf(op, a), 0, 0, banks, taxes);
    } else {
      RefusedStep(s, op, docId);
      TalliedFirst(s, next, later, docId, t, rest, 0, 0, 0, banks, taxes);
    }
  }

  /** A step leaves the invoice's lines, total and tax alone, so what it may touch stays the same. */
  lemma StepKeepsApart(s: State, op: Op, docId: string, other: Op, banks: set<AccountId>, taxes: set<AccountId>)
    requires Fits(s, docId) && OnInvoice(op, docId)
    requires KeepsApart(s.books.chart, s.items.docs[(INVOICE, docId)], op, banks, taxes)
    requires KeepsApart(s.books.chart, s.items.docs[(INVOICE, docId)], other, banks, taxes)
    ensures Fits(Step(s, op), docId)
    ensures KeepsApart(Step(s, op).books.chart, Step(s, op).items.docs[(INVOICE, docId)], other, banks, taxes)
  {
    var off := StepLowers(s, op, docId, banks, taxes);
    LoweredKeepsApart(s.books.chart, s.items.docs[(INVOICE, docId)], Step(s, op).items.docs[(INVOICE, docId)], other, banks, taxes);
  }

  lemma StepLowers(s: State, op: Op, docId: string, banks: set<AccountId>, taxes: set<AccountId>) returns (off: nat)
    requires Fits(s, docId) && OnInvoice(op, docId)
    requires KeepsApart(s.books.chart, s.items.docs[(INVOICE, docId)], op, banks, taxes)
    ensures Lowered(s, Step(s, op), docId, off)
  {
    if Posts(s, op) {
      PostedStep(s, op, docId, banks, taxes);
      off := OffOf(op, Asked(s.items.docs[(INVOICE, docId)], op));
    } else if Repeats(s, op) {
      RepeatedStep(s, op, docId, banks, taxes);
      off := OffOf(op, Asked(s.items.docs[(INVOICE, docId)], op));
    } else {
      RefusedStep(s, op, docId);
      off := 0;
    }
  }

  lemma LoweredKeepsApart(chart: Chart, doc: Doc, doc': Doc, op: Op, banks: set<AccountId>, taxes: set<AccountId>)
    requires doc' == doc.(open := doc'.open, status := doc'.status)
    ensures KeepsApart(chart, doc', op, banks, taxes) == KeepsApart(chart, doc, op, banks, taxes)
  {
  }

  /**
   * Over every run of payments, credits and refunds of one invoice, refused and repeated ones among them: the
   * open amount falls by what was paid and what was waived, the banks gain what was paid less what was
   * refunded, and sales tax moves by the shares of the credits and refunds.
   */
  lemma {:induction false} RunTallies(s: State, ops: seq<Op>, docId: string, banks: set<AccountId>, taxes: set<AccountId>)
    requires Fits(s, docId) && forall op :: op in ops ==> OnInvoice(op, docId)
    requires forall op :: op in ops ==> KeepsApart(s.books.chart, s.items.docs[(INVOICE, docId)], op, banks, taxes)
    ensures Tallied(s, Run(s, ops), docId, TallyOf(s, ops, docId), banks, taxes)
    decreases |ops|
  {
    if ops != [] {
      var op, next := ops[0], Step(s, ops[0]);
      assert op in ops;
      forall other | other in ops[1..]
        ensures KeepsApart(next.books.chart, next.items.docs[(INVOICE, docId)], other, banks, taxes)
      {
        StepKeepsApart(s, op, docId, other, banks, taxes);
      }
      StepKeepsApart(s, op, docId, op, banks, taxes);
      RunTallies(next, ops[1..], docId, banks, taxes);
      StepTallies(s, op, docId, Run(next, ops[1..]), TallyOf(next, ops[1..], docId), banks, taxes);
    }
  }

  /**
   * Over a run on one invoice the banks end up with no less than they had, that is, refunds pay out no more
   * than payments brought in, exactly when the refunds sum to no more than what came off the invoice less what
   * was waived.
   */
  lemma RefundsStayWithinIff(s: State, ops: seq<Op>, docId: string, banks: set<AccountId>, taxes: set<AccountId>)
    requires Fits(s, docId) && forall op :: op in ops ==> OnInvoice(op, docId)
    requires forall op :: op in ops ==> KeepsApart(s.books.chart, s.items.docs[(INVOICE, docId)], op, banks, taxes)
    ensures var s', t := Run(s, ops), TallyOf(s, ops, docId);
            && Fits(s', docId)
            && var off := s.items.docs[(INVOICE, docId)].open - s'.items.docs[(INVOICE, docId)].open;
               && (Held(s'.books.log, banks) >= Held(s.books.log, banks) <==> t.refunded <= t.paid)
               && (Held(s'.books.log, banks) >= Held(s.books.log, banks) <==> t.refunded <= off - t.waived)
  {
    RunTallies(s, ops, docId, banks, taxes);
  }

  /** Credits and refunds that sum to no more than the invoice take back no more tax than it charged. */
  lemma ReversalsStayWithinTheTax(s: State, ops: seq<Op>, docId: string, banks: set<AccountId>, taxes: set<AccountId>)
    requires Fits(s, docId) && forall op :: op in ops ==> OnInvoice(op, docId)
    requires forall op :: op in ops ==> KeepsApart(s.books.chart, s.items.docs[(INVOICE, docId)], op, banks, taxes)
    requires Credited(TallyOf(s, ops, docId).reversed) <= s.items.docs[(INVOICE, docId)].total
    ensures 0 <= Held(Run(s, ops).books.log, taxes) - Held(s.books.log, taxes) <= s.items.docs[(INVOICE, docId)].tax
  {
    var doc := s.items.docs[(INVOICE, docId)];
    RunTallies(s, ops, docId, banks, taxes);
    SharesStayWithin(TallyOf(s, ops, docId).reversed, doc.tax, doc.total);
  }

  lemma SharesStayWithin(amounts: seq<nat>, tax: nat, total: nat)
    requires total > 0 && Credited(amounts) <= total
    ensures Shares(amounts, tax, total) <= tax
  {
    SharesBounds(amounts, tax, total);
    MoreIsMore(Credited(amounts), total, tax);
    NoMoreFactor(Shares(amounts, tax, total), tax, total);
  }

  lemma MoreIsMore(a: nat, b: nat, c: nat)
    requires a <= b
    ensures a * c <= b * c
  {
  }

  // --- refunding again --------------------------------------------------------------------------------

  /** The same refund asked for under another id. */
  function Under(op: Op, id: string): Op
    requires op.IssueRefund?
  {
    IssueRefund(op.docId, op.credit.(id := id), op.at)
  }

  /** A second refund like an accepted one, under another id of its own, is accepted too. */
  lemma SecondRefundIsAccepted(s: State, op: Op, id: string, docId: string, banks: set<AccountId>, taxes: set<AccountId>)
    requires Fits(s, docId) && op.IssueRefund? && OnInvoice(op, docId) && Posts(s, op)
    requires KeepsApart(s.books.chart, s.items.docs[(INVOICE, docId)], op, banks, taxes)
    requires Trim(op.credit.id) != "" && Trim(id) != "" && Trim(id) != Trim(op.credit.id)
    requires !HasKey(s.books.log, "refund:" + Trim(id))
    ensures Step(s, op).items == s.items && Posts(Step(s, op), Under(op, id))
  {
    var plan := PlanOf(s.AsDesk(), op).value;
    RefundPlans(s.AsDesk(), op, docId, banks, taxes);
    SameDocSameItems(s, plan, op.at);
    var s' := Step(s, op);
    assert s'.AsDesk() == s.AsDesk();
    RefundPlannedAgain(s.AsDesk(), docId, op.credit, id, op.at);
    OtherKeyPosts(s.books, plan.command, PlanOf(s'.AsDesk(), Under(op, id)).value.command, op.at);
  }

  lemma RefundTermsRenamed(s: Desk, docId: string, req: CreditRequest, id: string)
    requires RefundTermsOf(s, docId, req).Ok? && Trim(id) != ""
    ensures RefundTermsOf(s, docId, req.(id := id)) == Ok(RefundTermsOf(s, docId, req).value.(id := Trim(id)))
  {
  }

  lemma RefundPlannedAgain(s: Desk, docId: string, req: CreditRequest, id: string, at: string)
    requires PlanRefund(s, docId, req, at).Ok? && Trim(req.id) != "" && Trim(id) != "" && Trim(id) != Trim(req.id)
    ensures var plan, again := PlanRefund(s, docId, req, at).value, PlanRefund(s, docId, req.(id := id), at);
            && again.Ok? && again.value.command == plan.command.(key := "refund:" + Trim(id))
            && again.value.command.key != plan.command.key
  {
    RefundTermsRenamed(s, docId, req, id);
    assert PlanRefund(s, docId, req, at).value.command.key == "refund:" + Trim(req.id);
    assert ("refund:" + Trim(id))[7..] == Trim(id) && ("refund:" + Trim(req.id))[7..] == Trim(req.id);
  }

  lemma KeyStaysNew(log: seq<Entry>, e: Entry, key: string)
    requires !HasKey(log, key) && e.draft.key != key
    ensures !HasKey(log + [e], key)
  {
    assert forall k :: 0 <= k < |log| ==> (log + [e])[k] == log[k];
  }

  /** What posted under one key posts again under another. */
  lemma OtherKeyPosts(b: Books, first: Command, second: Command, at: string)
    requires !HasKey(b.log, first.key) && PostTo(b, first, at).1.Ok?
    requires second == first.(key := second.key) && second.key != first.key && !HasKey(b.log, second.key)
    ensures var b' := PostTo(b, first, at).0; !HasKey(b'.log, second.key) && PostTo(b', second, at).1.Ok?
  {
    var e := PostTo(b, first, at).1.value;
    var log' := b.log + [e];
    assert PostTo(b, first, at).0.log == log' && e.draft.key == first.key;
    KeyStaysNew(b.log, e, second.key);
  }

  lemma FullRefund(s: State, op: Op, docId: string, banks: set<AccountId>, taxes: set<AccountId>)
    requires Fits(s, docId) && op.IssueRefund? && OnInvoice(op, docId) && Posts(s, op) && op.credit.amount.None?
    requires KeepsApart(s.books.chart, s.items.docs[(INVOICE, docId)], op, banks, taxes)
    ensures var doc := s.items.docs[(INVOICE, docId)];
            TakenOff(doc) > 0
            && Moves(s, Step(s, op), banks, taxes, -TakenOff(doc), TaxPortion(TakenOff(doc), doc.tax, doc.total))
  {
    PostedStep(s, op, docId, banks, taxes);
  }

  /**
   * Whatever came off an invoice, a refund of all of it that is accepted is accepted again under another id:
   * the banks pay out twice what came off, and its share of the tax is taken back twice.
   */
  lemma TwoFullRefundsPayTwice(s: State, op: Op, id: string, docId: string, banks: set<AccountId>, taxes: set<AccountId>)
    requires Fits(s, docId) && op.IssueRefund? && OnInvoice(op, docId) && Posts(s, op) && op.credit.amount.None?
    requires KeepsApart(s.books.chart, s.items.docs[(INVOICE, docId)], op, banks, taxes)
    requires Trim(op.credit.id) != "" && Trim(id) != "" && Trim(id) != Trim(op.credit.id)
    requires !HasKey(s.books.log, "refund:" + Trim(id))
    ensures var doc := s.items.docs[(INVOICE, docId)];
            && TakenOff(doc) > 0 && Posts(Step(s, op), Under(op, id))
            && Moves(s, Step(Step(s, op), Under(op, id)), banks, taxes,
                     -2 * TakenOff(doc), 2 * TaxPortion(TakenOff(doc), doc.tax, doc.total))
  {
    SecondRefundIsAccepted(s, op, id, docId, banks, taxes);
    FullRefund(s, op, docId, banks, taxes);
    FullRefund(Step(s, op), Under(op, id), docId, banks, taxes);
  }
}
