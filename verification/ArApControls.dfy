/**
 * Requests that name a control account as an item, tax or bank account (arap.ts). Neither a creation nor a
 * payment is checked for it, and either then breaks the tie-out.
 */
module ArApControls {
  import opened Text
  import opened Ledger
  import opened Chart
  import opened LedgerStore
  import opened PostingEngine
  import opened Documents
  import opened ArAp
  import opened ArApRuns
  import ArApEntries
  import opened ArApRefunds

  /** An entry posted under a new key ties out exactly when it moves each control by what its document moves. */
  lemma PostedTiesIff(s: State, plan: Plan, at: string, ar: AccountId, ap: AccountId)
    requires Tied(s, ar, ap) && DocFits(plan.key, plan.doc)
    requires !HasKey(s.books.log, plan.command.key) && PostTo(s.books, plan.command, at).1.Ok?
    ensures Tied(Execute(s, plan, at).0, ar, ap) <==> PostsWhatItMoves(plan, s.items.docs, ar, ap)
    ensures DocsFit(Execute(s, plan, at).0.items.docs) && Execute(s, plan, at).0.books.chart == s.books.chart
  {
    var docs, lines := s.items.docs, plan.command.payload.lines;
    ExecutedDocs(s, plan, at);
    var e := NewEntry(s.books, plan.command, at);
    NetOfAppended(s.books.log, e, Always, ar);
    NetOfAppended(s.books.log, e, Always, ap);
    TieMoves(s.books.log, s.books.log + [e], docs, plan.key, plan.doc, ar, ap, LinesNet(lines, ar), LinesNet(lines, ap));
  }

  // --- payments -------------------------------------------------------------------------------------

  lemma PaymentNets(kind: DocKind, docId: string, terms: PaymentTerms, dims: seq<(string, string)>, currency: string, a: AccountId)
    ensures var lines, n := PaymentLines(kind, docId, terms, dims, currency), if kind == INVOICE then terms.amount else -terms.amount;
            LinesNet(lines, a) == (if terms.bank == a then n else 0) - if terms.control == a then n else 0
  {
    var lines := PaymentLines(kind, docId, terms, dims, currency);
    assert lines == [lines[0]] + [lines[1]];
    LinesNetAppends([lines[0]], [lines[1]], a);
    OneLineNet(lines[0], a);
    OneLineNet(lines[1], a);
  }

  lemma PaymentMovesIff(s: Desk, kind: DocKind, docId: string, req: PaymentRequest, at: string, ar: AccountId, ap: AccountId)
    requires Controlled(s.chart, req.accounts, ar, ap) && DocsFit(s.items.docs) && PlanPayment(s, kind, docId, req, at).Ok?
    ensures var plan := PlanPayment(s, kind, docId, req, at).value;
            && DocFits(plan.key, plan.doc)
            && (PostsWhatItMoves(plan, s.items.docs, ar, ap) <==> Off(s.chart, PaymentBank(s.chart, req), ar, ap))
  {
    var terms := PaymentTermsOf(s, kind, docId, req).value;
    assert DocFits((kind, docId), s.items.docs[(kind, docId)]);
    PaymentMovesOneIff(kind, docId, terms, req.dimensions, s.currency, ar, ap);
  }

  lemma PaymentMovesOneIff(kind: DocKind, docId: string, terms: PaymentTerms, dims: seq<(string, string)>, currency: string,
                           ar: AccountId, ap: AccountId)
    requires ar != ap && terms.amount > 0 && terms.control == (if kind == INVOICE then ar else ap)
    ensures var lines := PaymentLines(kind, docId, terms, dims, currency);
            && LinesNet(lines, ar) == (if kind == INVOICE then -terms.amount else 0)
            && LinesNet(lines, ap) == (if kind == BILL then terms.amount else 0)
            <==> terms.bank != ar && terms.bank != ap
  {
    PaymentNets(kind, docId, terms, dims, currency, ar);
    PaymentNets(kind, docId, terms, dims, currency, ap);
  }

  // --- creations ------------------------------------------------------------------------------------

  /** Lines all on one side leave an account alone exactly when none is on it. */
  lemma {:induction false} OneSideNet(lines: seq<Line>, side: Side, a: AccountId)
    requires forall i :: 0 <= i < |lines| ==> lines[i].side == side && lines[i].amount > 0
    ensures if side == DEBIT then LinesNet(lines, a) >= 0 else LinesNet(lines, a) <= 0
    ensures LinesNet(lines, a) == 0 <==> forall i :: 0 <= i < |lines| ==> lines[i].accountId != a
  {
    if lines != [] {
      OneSideNet(lines[..|lines| - 1], side, a);
    }
  }

  /** The lines beside the control line of a creation, all on one side. */
  function ItemsAndTax(kind: DocKind, taxAccount: AccountId, built: Resolved, dims: seq<seq<(string, string)>>, tax: int,
                       currency: string): (lines: seq<Line>)
    requires |built.accountIds| == |built.records| == |dims|
  {
    ItemLines(built.accountIds, built.records, dims, if kind == INVOICE then CREDIT else DEBIT, currency)
    + if kind == INVOICE && tax != 0 then [Posting(taxAccount, CREDIT, tax, currency, "Sales tax")] else []
  }

  lemma CreationNets(kind: DocKind, control: AccountId, taxAccount: AccountId, built: Resolved,
                     dims: seq<seq<(string, string)>>, total: int, tax: int, currency: string, a: AccountId)
    requires |built.accountIds| == |built.records| == |dims|
    ensures LinesNet(CreationLines(kind, control, taxAccount, built, dims, total, tax, currency), a)
         == LinesNet(ItemsAndTax(kind, taxAccount, built, dims, tax, currency), a)
          + if control == a then (if kind == INVOICE then total else -total) else 0
  {
    var rest := ItemsAndTax(kind, taxAccount, built, dims, tax, currency);
    var line := Posting(control, if kind == INVOICE then DEBIT else CREDIT, total, currency, "");
    OneLineNet(line, a);
    if kind == INVOICE {
      assert CreationLines(kind, control, taxAccount, built, dims, total, tax, currency) == [line] + rest;
      LinesNetAppends([line], rest, a);
    } else {
      assert CreationLines(kind, control, taxAccount, built, dims, total, tax, currency) == rest + [line];
      LinesNetAppends(rest, [line], a);
    }
  }

  /** No item is on a control account, nor the tax line where there is one. */
  ghost predicate ItemsOff(kind: DocKind, taxAccount: AccountId, built: Resolved, tax: int, ar: AccountId, ap: AccountId) {
    && (forall i :: 0 <= i < |built.accountIds| ==> built.accountIds[i] != ar && built.accountIds[i] != ap)
    && (kind == INVOICE && tax != 0 ==> taxAccount != ar && taxAccount != ap)
  }

  lemma ItemsOffIff(kind: DocKind, taxAccount: AccountId, built: Resolved, dims: seq<seq<(string, string)>>, tax: nat,
                    currency: string, ar: AccountId, ap: AccountId)
    requires |built.accountIds| == |built.records| == |dims|
    requires forall i :: 0 <= i < |built.records| ==> built.records[i].amount > 0
    ensures var rest := ItemsAndTax(kind, taxAccount, built, dims, tax, currency);
            LinesNet(rest, ar) == 0 && LinesNet(rest, ap) == 0 <==> ItemsOff(kind, taxAccount, built, tax, ar, ap)
  {
    var rest, n := ItemsAndTax(kind, taxAccount, built, dims, tax, currency), |built.accountIds|;
    OneSideNet(rest, if kind == INVOICE then CREDIT else DEBIT, ar);
    OneSideNet(rest, if kind == INVOICE then CREDIT else DEBIT, ap);
    assert forall i :: 0 <= i < n ==> rest[i].accountId == built.accountIds[i];
    assert kind == INVOICE && tax != 0 ==> rest[n].accountId == taxAccount;
  }

  lemma CreationMovesIff(s: Desk, kind: DocKind, req: CreateRequest, terms: Terms, at: string, ar: AccountId, ap: AccountId)
    requires req.date.Some? && req.lines != [] && (kind, req.id) !in s.items.docs
    requires |terms.built.accountIds| == |terms.built.records| == |req.lines|
    requires forall i :: 0 <= i < |req.lines| ==> terms.built.records[i].amount > 0
    requires terms.built.total == RecordsTotal(terms.built.records) && TaxableBase(terms.built.records) >= 0
    requires terms.control == (if kind == INVOICE then ar else ap) && ar != ap && terms.rate <= PPM
    requires kind == BILL ==> terms.rate == 0
    ensures var plan := PlanOnTerms(s, kind, req, req.date.value, terms, at);
            && DocFits(plan.key, plan.doc)
            && (PostsWhatItMoves(plan, s.items.docs, ar, ap) <==>
                ItemsOff(kind, terms.taxAccount, terms.built, plan.doc.tax, ar, ap))
  {
    PlannedDocFits(s, kind, req, terms, at);
    TermsTaxIsWithin(terms);
    CreationPlanMovesIff(PlanOnTerms(s, kind, req, req.date.value, terms, at), s.items.docs, terms, DimensionsOf(req.lines),
                         s.currency, ar, ap);
  }

  lemma CreationPlanMovesIff(plan: Plan, docs: map<(DocKind, string), Doc>, terms: Terms, dims: seq<seq<(string, string)>>,
                             currency: string, ar: AccountId, ap: AccountId)
    requires plan.key !in docs && DocFits(plan.key, plan.doc) && plan.doc.open == plan.doc.total
    requires |terms.built.accountIds| == |terms.built.records| == |dims|
    requires forall i :: 0 <= i < |dims| ==> terms.built.records[i].amount > 0
    requires terms.control == (if plan.key.0 == INVOICE then ar else ap) && ar != ap
    requires plan.key.0 == BILL ==> plan.doc.tax == 0
    requires plan.command.payload.lines
          == CreationLines(plan.key.0, terms.control, terms.taxAccount, terms.built, dims, plan.doc.total, plan.doc.tax, currency)
    ensures PostsWhatItMoves(plan, docs, ar, ap) <==>
            ItemsOff(plan.key.0, terms.taxAccount, terms.built, plan.doc.tax, ar, ap)
  {
    var kind, doc := plan.key.0, plan.doc;
    CreationNets(kind, terms.control, terms.taxAccount, terms.built, dims, doc.total, doc.tax, currency, ar);
    CreationNets(kind, terms.control, terms.taxAccount, terms.built, dims, doc.total, doc.tax, currency, ap);
    ItemsOffIff(kind, terms.taxAccount, terms.built, dims, doc.tax, currency, ar, ap);
  }

  /** The same read off the request: no line code, nor the tax code where tax is charged, names a control. */
  ghost predicate CodesOff(chart: Chart, req: CreateRequest, tax: int, ar: AccountId, ap: AccountId) {
    && (forall i :: 0 <= i < |req.lines| ==> Off(chart, Trim(req.lines[i].accountCode), ar, ap))
    && (tax != 0 ==> Off(chart, TaxCodeOf(req.salesTaxCode), ar, ap))
  }

  lemma CodesOffIff(s: Desk, kind: DocKind, req: CreateRequest, terms: Terms, tax: int, ar: AccountId, ap: AccountId)
    requires TermsOf(s, kind, req, ResolveLines(req.lines, s.chart)) == Ok(terms)
    requires (terms.rate == 0 ==> tax == 0) && (kind == BILL ==> tax == 0)
    ensures ItemsOff(kind, terms.taxAccount, terms.built, tax, ar, ap) <==> CodesOff(s.chart, req, tax, ar, ap)
  {
    TermsHold(s, kind, req, ResolveLines(req.lines, s.chart));
    forall i | 0 <= i < |req.lines|
      ensures Off(s.chart, Trim(req.lines[i].accountCode), ar, ap)
              <==> terms.built.accountIds[i] != ar && terms.built.accountIds[i] != ap
    {
      ResolvedAccounts(req.lines, s.chart, i);
    }
  }

  lemma CreateMovesIff(s: Desk, kind: DocKind, req: CreateRequest, at: string, ar: AccountId, ap: AccountId)
    requires Controlled(s.chart, req.accounts, ar, ap) && CreationPlan(s, kind, req, at).Ok?
    ensures var plan := CreationPlan(s, kind, req, at).value;
            && DocFits(plan.key, plan.doc)
            && (PostsWhatItMoves(plan, s.items.docs, ar, ap) <==> CodesOff(s.chart, req, plan.doc.tax, ar, ap))
  {
    var resolved := ResolveLines(req.lines, s.chart);
    var terms := TermsOf(s, kind, req, resolved).value;
    TermsHold(s, kind, req, resolved);
    ArApEntries.BillsAreUntaxed(s, kind, req, resolved);
    BaseIsNatural(terms.built.records);
    CreationMovesIff(s, kind, req, terms, at, ar, ap);
    var tax := PlanOnTerms(s, kind, req, req.date.value, terms, at).doc.tax;
    NoRateNoTax(TaxableBase(terms.built.records));
    CodesOffIff(s, kind, req, terms, tax, ar, ap);
  }

  // --- steps and runs -------------------------------------------------------------------------------

  /** A creation or payment uses the one AR and AP control; the other requests also keep off them. */
  ghost predicate RightlyControlled(chart: Chart, op: Op, ar: AccountId, ap: AccountId) {
    match op
    case Create(_, req, _) => Controlled(chart, req.accounts, ar, ap)
    case Pay(_, _, req, _) => Controlled(chart, req.accounts, ar, ap)
    case _ => KeepsOff(chart, op, ar, ap)
  }

  /** No line, tax or bank code of a creation or payment names a control account. */
  ghost predicate NamesNoControl(s: State, op: Op, ar: AccountId, ap: AccountId) {
    match op
    case Create(kind, req, at) =>
      var plan := CreationPlan(s.AsDesk(), kind, req, at);
      plan.Ok? ==> CodesOff(s.books.chart, req, plan.value.doc.tax, ar, ap)
    case Pay(_, _, req, _) => Off(s.books.chart, PaymentBank(s.books.chart, req), ar, ap)
    case _ => true
  }

  /** The request does not move an open amount under a used key, and posts to no control it should not. */
  ghost predicate Harmless(s: State, op: Op, ar: AccountId, ap: AccountId) {
    !ReusesKey(s, op) && ((op.Create? || op.Pay?) && Posts(s, op) ==> NamesNoControl(s, op, ar, ap))
  }

  lemma MovesIff(s: State, op: Op, ar: AccountId, ap: AccountId)
    requires DocsFit(s.items.docs) && RightlyControlled(s.books.chart, op, ar, ap)
    requires (op.Create? || op.Pay?) && PlanOf(s.AsDesk(), op).Ok?
    ensures var plan := PlanOf(s.AsDesk(), op).value;
            && DocFits(plan.key, plan.doc)
            && (PostsWhatItMoves(plan, s.items.docs, ar, ap) <==> NamesNoControl(s, op, ar, ap))
  {
    match op
    case Create(kind, req, at) => CreateMovesIff(s.AsDesk(), kind, req, at, ar, ap);
    case Pay(kind, docId, req, at) => PaymentMovesIff(s.AsDesk(), kind, docId, req, at, ar, ap);
  }

  lemma RepeatTiesIff(s: State, plan: Plan, at: string, ar: AccountId, ap: AccountId)
    requires Tied(s, ar, ap) && DocFits(plan.key, plan.doc) && HasKey(s.books.log, plan.command.key)
    ensures var s' := Execute(s, plan, at).0;
            && DocsFit(s'.items.docs) && s'.books.chart == s.books.chart
            && (Tied(s', ar, ap) <==> !(Replays(s.books.log, plan.command) && Moved(plan, s.items.docs) != 0))
  {
    ReplaysIffAccepted(s.books, plan.command, at);
    if Execute(s, plan, at).1.Ok? {
      ExecutedDocs(s, plan, at);
      TieMoves(s.books.log, s.books.log, s.items.docs, plan.key, plan.doc, ar, ap, 0, 0);
    }
  }

  lemma PlanTiesIff(s: State, plan: Plan, at: string, ar: AccountId, ap: AccountId)
    requires Tied(s, ar, ap) && DocFits(plan.key, plan.doc)
    ensures var s' := Execute(s, plan, at).0;
            && DocsFit(s'.items.docs) && s'.books.chart == s.books.chart
            && (Tied(s', ar, ap) <==>
                && !(Replays(s.books.log, plan.command) && Moved(plan, s.items.docs) != 0)
                && (!HasKey(s.books.log, plan.command.key) && PostTo(s.books, plan.command, at).1.Ok? ==>
                      PostsWhatItMoves(plan, s.items.docs, ar, ap)))
  {
    if HasKey(s.books.log, plan.command.key) {
      RepeatTiesIff(s, plan, at, ar, ap);
    } else if PostTo(s.books, plan.command, at).1.Ok? {
      PostedTiesIff(s, plan, at, ar, ap);
    }
  }

  lemma RequestTiesIff(s: State, op: Op, ar: AccountId, ap: AccountId)
    requires Tied(s, ar, ap) && RightlyControlled(s.books.chart, op, ar, ap)
    requires (op.Create? || op.Pay?) && PlanOf(s.AsDesk(), op).Ok?
    ensures DocsFit(Step(s, op).items.docs) && Step(s, op).books.chart == s.books.chart
    ensures Tied(Step(s, op), ar, ap) <==> Harmless(s, op, ar, ap)
  {
    MovesIff(s, op, ar, ap);
    PlanTiesIff(s, PlanOf(s.AsDesk(), op).value, op.at, ar, ap);
  }

  /**
   * One request keeps the tie-out exactly when it moves no open amount under a used key and, if it is a
   * creation or payment that posts, names no control account of its own accord.
   */
  lemma StepTiesOutIffHarmless(s: State, op: Op, ar: AccountId, ap: AccountId)
    requires Tied(s, ar, ap) && RightlyControlled(s.books.chart, op, ar, ap)
    ensures DocsFit(Step(s, op).items.docs) && Step(s, op).books.chart == s.books.chart
    ensures Tied(Step(s, op), ar, ap) <==> Harmless(s, op, ar, ap)
  {
    if op.Create? || op.Pay? {
      if PlanOf(s.AsDesk(), op).Ok? {
        RequestTiesIff(s, op, ar, ap);
      }
    } else {
      StepTiesOutIffKeyIsNew(s, op, ar, ap);
    }
  }

  ghost predicate HarmlessThroughout(s: State, ops: seq<Op>, ar: AccountId, ap: AccountId)
    decreases |ops|
  {
    ops != [] ==> Harmless(s, ops[0], ar, ap) && HarmlessThroughout(Step(s, ops[0]), ops[1..], ar, ap)
  }

  /** Over every run, whatever its creations and payments name: tied at every step exactly when every request is harmless. */
  lemma {:induction false} RunTiesOutIffHarmless(s: State, ops: seq<Op>, ar: AccountId, ap: AccountId)
    requires Tied(s, ar, ap) && forall op :: op in ops ==> RightlyControlled(s.books.chart, op, ar, ap)
    ensures TiedThroughout(s, ops, ar, ap) <==> HarmlessThroughout(s, ops, ar, ap)
    decreases |ops|
  {
    if ops != [] {
      assert ops[0] in ops;
      StepTiesOutIffHarmless(s, ops[0], ar, ap);
      if Harmless(s, ops[0], ar, ap) {
        RunTiesOutIffHarmless(Step(s, ops[0]), ops[1..], ar, ap);
      }
    }
  }
}
