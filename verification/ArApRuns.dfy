/** The open items tie to their control accounts, over every run of AR/AP requests (arap.ts). */
module ArApRuns {
  import opened Text
  import opened Dates
  import opened Ledger
  import opened Periods
  import opened Chart
  import opened LedgerStore
  import opened Fingerprint
  import opened PostingEngine
  import opened Documents
  import opened ArAp

  // --- the invariant -----------------------------------------------------------------------------

  /** The control accounts hold exactly what the documents say is still open. */
  ghost predicate TiesOut(log: seq<Entry>, docs: map<(DocKind, string), Doc>, ar: AccountId, ap: AccountId) {
    Net(log, Always, ar) == OpenTotal(docs, INVOICE) && -Net(log, Always, ap) == OpenTotal(docs, BILL)
  }

  ghost predicate DocFits(key: (DocKind, string), d: Doc) {
    && key == (d.kind, d.id)
    && 0 <= d.open <= d.total && 0 < d.total && 0 <= d.tax <= d.total
    && (d.status == PAID <==> d.open == 0) && (d.status == DocStatus.OPEN <==> d.open == d.total)
  }

  ghost predicate DocsFit(docs: map<(DocKind, string), Doc>) {
    forall key :: key in docs ==> DocFits(key, docs[key])
  }

  ghost predicate Tied(s: State, ar: AccountId, ap: AccountId) {
    TiesOut(s.books.log, s.items.docs, ar, ap) && DocsFit(s.items.docs)
  }

  function OpenBefore(docs: map<(DocKind, string), Doc>, key: (DocKind, string)): int {
    if key in docs then docs[key].open else 0
  }

  /** How much a plan moves the open amount of its document. */
  function Moved(plan: Plan, docs: map<(DocKind, string), Doc>): int {
    plan.doc.open - OpenBefore(docs, plan.key)
  }

  /** The plan's entry moves its control account by what its document moves, and the other not at all. */
  ghost predicate PostsWhatItMoves(plan: Plan, docs: map<(DocKind, string), Doc>, ar: AccountId, ap: AccountId) {
    var lines, moved := plan.command.payload.lines, Moved(plan, docs);
    && DocFits(plan.key, plan.doc)
    && LinesNet(lines, ar) == (if plan.key.0 == INVOICE then moved else 0)
    && LinesNet(lines, ap) == (if plan.key.0 == BILL then -moved else 0)
  }

  /**
   * An accepted plan keeps the tie-out exactly when its posting key was new or it moves nothing:
   * a replayed entry posts no second time, but its document is written again.
   */
  lemma ExecutionTiesOutIffKeyIsNew(s: State, plan: Plan, at: string, ar: AccountId, ap: AccountId)
    requires Tied(s, ar, ap) && PostsWhatItMoves(plan, s.items.docs, ar, ap)
    requires Execute(s, plan, at).1.Ok?
    ensures var s' := Execute(s, plan, at).0;
            && DocsFit(s'.items.docs)
            && (Tied(s', ar, ap) <==> !HasKey(s.books.log, plan.command.key) || Moved(plan, s.items.docs) == 0)
  {
    var docs, lines := s.items.docs, plan.command.payload.lines;
    ExecutedDocs(s, plan, at);
    if !HasKey(s.books.log, plan.command.key) {
      var e := NewEntry(s.books, plan.command, at);
      NetOfAppended(s.books.log, e, Always, ar);
      NetOfAppended(s.books.log, e, Always, ap);
      TieMoves(s.books.log, s.books.log + [e], docs, plan.key, plan.doc, ar, ap, LinesNet(lines, ar), LinesNet(lines, ap));
    } else {
      TieMoves(s.books.log, s.books.log, docs, plan.key, plan.doc, ar, ap, 0, 0);
    }
  }

  lemma ExecutedDocs(s: State, plan: Plan, at: string)
    requires Execute(s, plan, at).1.Ok? && DocsFit(s.items.docs) && DocFits(plan.key, plan.doc)
    ensures var s' := Execute(s, plan, at).0;
            && s'.items.docs == s.items.docs[plan.key := plan.doc] && DocsFit(s'.items.docs)
            && s'.books == PostTo(s.books, plan.command, at).0
            && (HasKey(s.books.log, plan.command.key) ==> s'.books == s.books)
  {
  }

  /** The tie-out after journal and documents moved, in terms of how far each moved. */
  lemma TieMoves(log: seq<Entry>, log': seq<Entry>, docs: map<(DocKind, string), Doc>, key: (DocKind, string), doc: Doc,
                 ar: AccountId, ap: AccountId, byAr: int, byAp: int)
    requires TiesOut(log, docs, ar, ap)
    requires Net(log', Always, ar) == Net(log, Always, ar) + byAr && Net(log', Always, ap) == Net(log, Always, ap) + byAp
    ensures var moved := doc.open - OpenBefore(docs, key);
            TiesOut(log', docs[key := doc], ar, ap) <==>
            byAr == (if key.0 == INVOICE then moved else 0) && -byAp == (if key.0 == BILL then moved else 0)
  {
    OpenTotalAfterUpdate(docs, key, doc, INVOICE);
    OpenTotalAfterUpdate(docs, key, doc, BILL);
  }

  /** What an accepted post under a new key appends: the command's own lines. */
  lemma NewEntry(b: Books, command: Command, at: string) returns (e: Entry)
    requires !HasKey(b.log, command.key) && PostTo(b, command, at).1.Ok?
    ensures PostTo(b, command, at).0.log == b.log + [e] && e.Lines() == command.payload.lines
  {
    e := PostTo(b, command, at).1.value;
  }

  // --- which accounts a request touches -----------------------------------------------------------

  /** The one AR and the one AP account this chart's requests are controlled by. */
  ghost predicate Controlled(chart: Chart, o: Overrides, ar: AccountId, ap: AccountId) {
    && ar != ap
    && ControlFor(chart, INVOICE, Controls(chart, o)) == Ok(ar)
    && ControlFor(chart, BILL, Controls(chart, o)) == Ok(ap)
  }

  /** A code names no control account. */
  ghost predicate Off(chart: Chart, code: string, ar: AccountId, ap: AccountId) {
    var a := FindCode(chart, code);
    a.Some? ==> a.value.id != ar && a.value.id != ap
  }

  /** Both control accounts carry the subtype of their role. */
  ghost predicate Typed(chart: Chart, ar: AccountId, ap: AccountId) {
    forall a :: a in chart && (a.id == ar || a.id == ap) ==>
      a.subtype == Some(ACCOUNTS_RECEIVABLE) || a.subtype == Some(ACCOUNTS_PAYABLE)
  }

  function TaxCodeOf(asked: string): string {
    if Trim(asked) != "" then Trim(asked) else DEFAULT_SALES_TAX
  }

  lemma OneLineNet(l: Line, a: AccountId)
    ensures LinesNet([l], a) == if l.accountId == a then Signed(l) else 0
  {
    assert [l][..0] == [];
  }

  lemma OffLinesNetZero(lines: seq<Line>, ar: AccountId, ap: AccountId)
    requires forall i :: 0 <= i < |lines| ==> lines[i].accountId != ar && lines[i].accountId != ap
    ensures LinesNet(lines, ar) == 0 && LinesNet(lines, ap) == 0
  {
    UntouchedNetIsZero(lines, ar);
    UntouchedNetIsZero(lines, ap);
  }

  /** A control line set among lines off the controls nets to itself. */
  lemma ControlLineNet(before: seq<Line>, l: Line, after: seq<Line>, ar: AccountId, ap: AccountId)
    requires forall i :: 0 <= i < |before| ==> before[i].accountId != ar && before[i].accountId != ap
    requires forall i :: 0 <= i < |after| ==> after[i].accountId != ar && after[i].accountId != ap
    ensures LinesNet(before + [l] + after, ar) == if l.accountId == ar then Signed(l) else 0
    ensures LinesNet(before + [l] + after, ap) == if l.accountId == ap then Signed(l) else 0
  {
    OffLinesNetZero(before, ar, ap);
    OffLinesNetZero(after, ar, ap);
    OneLineNet(l, ar);
    OneLineNet(l, ap);
    LinesNetAppends(before, [l], ar);
    LinesNetAppends(before, [l], ap);
    LinesNetAppends(before + [l], after, ar);
    LinesNetAppends(before + [l], after, ap);
  }

  lemma ResolvedFront(lines: seq<LineInput>, chart: Chart)
    requires lines != [] && ResolveLines(lines, chart).Ok?
    ensures var front, ids := ResolveLines(lines[..|lines| - 1], chart), ResolveLines(lines, chart).value.accountIds;
            && front.Ok? && |ids| == |lines| && ids[..|lines| - 1] == front.value.accountIds
            && AccountFor(chart, Trim(lines[|lines| - 1].accountCode)) == Ok(ids[|lines| - 1])
  {
    var front, last := ResolveLines(lines[..|lines| - 1], chart).value, ResolveLine(lines[|lines| - 1], chart).value;
    assert ResolveLines(lines, chart).value.accountIds == front.accountIds + [last.0];
  }

  lemma {:induction false} ResolvedAccounts(lines: seq<LineInput>, chart: Chart, i: nat)
    requires ResolveLines(lines, chart).Ok? && i < |lines|
    ensures var a := FindCode(chart, Trim(lines[i].accountCode));
            a.Some? && ResolveLines(lines, chart).value.accountIds[i] == a.value.id
  {
    ResolvedFront(lines, chart);
    if i < |lines| - 1 {
      var front := lines[..|lines| - 1];
      assert front[i] == lines[i];
      ResolvedAccounts(front, chart, i);
    }
  }

  ghost predicate CreateKeepsOff(chart: Chart, req: CreateRequest, ar: AccountId, ap: AccountId) {
    && Controlled(chart, req.accounts, ar, ap)
    && Off(chart, TaxCodeOf(req.salesTaxCode), ar, ap)
    && forall i :: 0 <= i < |req.lines| ==> Off(chart, Trim(req.lines[i].accountCode), ar, ap)
  }

  lemma TaxIsWithin(base: nat, rate: nat)
    requires rate <= PPM
    ensures TaxOn(base, rate) <= base
  {
    assert base * rate <= base * PPM;
  }

  lemma CreatePostsWhatItMoves(s: Desk, kind: DocKind, req: CreateRequest, at: string, ar: AccountId, ap: AccountId)
    requires CreateKeepsOff(s.chart, req, ar, ap) && CreationPlan(s, kind, req, at).Ok?
    ensures PostsWhatItMoves(CreationPlan(s, kind, req, at).value, s.items.docs, ar, ap)
  {
    var terms := TermsOf(s, kind, req, ResolveLines(req.lines, s.chart)).value;
    TermsShape(s, kind, req, ar, ap);
    BaseIsNatural(terms.built.records);
    PlanOnTermsMoves(s, kind, req, terms, at, ar, ap);
  }

  lemma TermsHold(s: Desk, kind: DocKind, req: CreateRequest, resolved: Result<Resolved, ArApError>)
    requires TermsOf(s, kind, req, resolved).Ok?
    ensures var terms := TermsOf(s, kind, req, resolved).value;
            && req.date.Some? && req.lines != [] && (kind, req.id) !in s.items.docs && resolved == Ok(terms.built)
            && ControlFor(s.chart, kind, Controls(s.chart, req.accounts)) == Ok(terms.control)
            && terms.rate <= PPM
            && (terms.rate > 0 ==> AccountFor(s.chart, TaxCodeOf(req.salesTaxCode)) == Ok(terms.taxAccount))
  {
  }

  lemma TermsShape(s: Desk, kind: DocKind, req: CreateRequest, ar: AccountId, ap: AccountId)
    requires CreateKeepsOff(s.chart, req, ar, ap)
    requires TermsOf(s, kind, req, ResolveLines(req.lines, s.chart)).Ok?
    ensures var terms := TermsOf(s, kind, req, ResolveLines(req.lines, s.chart)).value;
            && req.date.Some? && req.lines != [] && (kind, req.id) !in s.items.docs
            && ResolveLines(req.lines, s.chart) == Ok(terms.built)
            && terms.control == (if kind == INVOICE then ar else ap)
            && 0 <= terms.rate <= PPM
            && (terms.rate > 0 ==> terms.taxAccount != ar && terms.taxAccount != ap)
            && forall i :: 0 <= i < |req.lines| ==> terms.built.accountIds[i] != ar && terms.built.accountIds[i] != ap
  {
    TermsHold(s, kind, req, ResolveLines(req.lines, s.chart));
    LinesKeepOff(s.chart, req, ar, ap);
  }

  lemma LinesKeepOff(chart: Chart, req: CreateRequest, ar: AccountId, ap: AccountId)
    requires CreateKeepsOff(chart, req, ar, ap) && ResolveLines(req.lines, chart).Ok?
    ensures var ids := ResolveLines(req.lines, chart).value.accountIds;
            |ids| == |req.lines| && forall i :: 0 <= i < |ids| ==> ids[i] != ar && ids[i] != ap
  {
    var ids := ResolveLines(req.lines, chart).value.accountIds;
    forall i | 0 <= i < |ids| ensures ids[i] != ar && ids[i] != ap {
      ResolvedAccounts(req.lines, chart, i);
      assert Off(chart, Trim(req.lines[i].accountCode), ar, ap);
    }
  }

  lemma PlanOnTermsMoves(s: Desk, kind: DocKind, req: CreateRequest, terms: Terms, at: string, ar: AccountId, ap: AccountId)
    requires req.date.Some? && req.lines != [] && (kind, req.id) !in s.items.docs
    requires |terms.built.accountIds| == |terms.built.records| == |req.lines|
    requires forall i :: 0 <= i < |req.lines| ==> terms.built.accountIds[i] != ar && terms.built.accountIds[i] != ap
    requires forall i :: 0 <= i < |req.lines| ==> terms.built.records[i].amount > 0
    requires terms.built.total == RecordsTotal(terms.built.records)
    requires TaxableBase(terms.built.records) >= 0
    requires terms.control == (if kind == INVOICE then ar else ap) && ar != ap && terms.rate <= PPM
    requires terms.rate > 0 ==> terms.taxAccount != ar && terms.taxAccount != ap
    ensures PostsWhatItMoves(PlanOnTerms(s, kind, req, req.date.value, terms, at), s.items.docs, ar, ap)
  {
    TermsTaxIsWithin(terms);
    PlannedDocFits(s, kind, req, terms, at);
    CreationPlanMoves(PlanOnTerms(s, kind, req, req.date.value, terms, at), s.items.docs, terms, DimensionsOf(req.lines),
                      s.currency, ar, ap);
  }

  lemma CreationPlanMoves(plan: Plan, docs: map<(DocKind, string), Doc>, terms: Terms, dims: seq<seq<(string, string)>>,
                          currency: string, ar: AccountId, ap: AccountId)
    requires plan.key !in docs && DocFits(plan.key, plan.doc) && plan.doc.open == plan.doc.total
    requires |terms.built.accountIds| == |terms.built.records| == |dims|
    requires forall i :: 0 <= i < |dims| ==> terms.built.accountIds[i] != ar && terms.built.accountIds[i] != ap
    requires terms.control == (if plan.key.0 == INVOICE then ar else ap) && ar != ap
    requires plan.doc.tax != 0 ==> terms.taxAccount != ar && terms.taxAccount != ap
    requires plan.command.payload.lines
          == CreationLines(plan.key.0, terms.control, terms.taxAccount, terms.built, dims, plan.doc.total, plan.doc.tax, currency)
    ensures PostsWhatItMoves(plan, docs, ar, ap)
  {
    CreationLinesNet(plan.key.0, terms.control, terms.taxAccount, terms.built, dims, plan.doc.total, plan.doc.tax,
                     currency, ar, ap);
  }

  lemma PlannedDocFits(s: Desk, kind: DocKind, req: CreateRequest, terms: Terms, at: string)
    requires req.date.Some? && |terms.built.accountIds| == |terms.built.records| == |req.lines| > 0
    requires forall i :: 0 <= i < |req.lines| ==> terms.built.records[i].amount > 0
    requires terms.built.total == RecordsTotal(terms.built.records)
    requires TaxableBase(terms.built.records) >= 0 && terms.rate <= PPM
    ensures DocFits((kind, req.id), PlanOnTerms(s, kind, req, req.date.value, terms, at).doc)
  {
    BaseIsNatural(terms.built.records);
    RecordsArePositive(terms.built.records);
    TermsTaxIsWithin(terms);
  }

  lemma TermsTaxIsWithin(terms: Terms)
    requires TaxableBase(terms.built.records) >= 0 && terms.rate <= PPM
    ensures var tax := TaxOn(TaxableBase(terms.built.records), terms.rate);
            && 0 <= tax <= TaxableBase(terms.built.records) && (terms.rate == 0 ==> tax == 0)
  {
    TaxIsWithin(TaxableBase(terms.built.records), terms.rate);
    NoRateNoTax(TaxableBase(terms.built.records));
  }

  lemma NoRateNoTax(base: nat)
    ensures TaxOn(base, 0) == 0
  {
  }

  lemma CreationLinesNet(kind: DocKind, control: AccountId, taxAccount: AccountId, built: Resolved,
                         dims: seq<seq<(string, string)>>, total: int, tax: int, currency: string,
                         ar: AccountId, ap: AccountId)
    requires |built.accountIds| == |built.records| == |dims|
    requires forall i :: 0 <= i < |dims| ==> built.accountIds[i] != ar && built.accountIds[i] != ap
    requires ar != ap && control == (if kind == INVOICE then ar else ap)
    requires tax != 0 ==> taxAccount != ar && taxAccount != ap
    ensures var lines := CreationLines(kind, control, taxAccount, built, dims, total, tax, currency);
            && LinesNet(lines, ar) == (if kind == INVOICE then total else 0)
            && LinesNet(lines, ap) == (if kind == BILL then -total else 0)
  {
    var lines := CreationLines(kind, control, taxAccount, built, dims, total, tax, currency);
    var n := |dims|;
    if kind == INVOICE {
      assert lines == [] + [lines[0]] + lines[1..];
      ControlLineNet([], lines[0], lines[1..], ar, ap);
    } else {
      assert lines == lines[..n] + [lines[n]] + [];
      ControlLineNet(lines[..n], lines[n], [], ar, ap);
    }
  }

  lemma {:induction false} RecordsArePositive(records: seq<DocLine>)
    requires records != [] && forall i :: 0 <= i < |records| ==> records[i].amount > 0
    ensures RecordsTotal(records) > 0
  {
    if |records| > 1 {
      RecordsArePositive(records[..|records| - 1]);
    } else {
      assert records[..0] == [];
    }
  }

  ghost predicate PaymentKeepsOff(chart: Chart, req: PaymentRequest, ar: AccountId, ap: AccountId) {
    Controlled(chart, req.accounts, ar, ap) && Off(chart, PaymentBank(chart, req), ar, ap)
  }

  lemma PaymentPostsWhatItMoves(s: Desk, kind: DocKind, docId: string, req: PaymentRequest, at: string,
                                ar: AccountId, ap: AccountId)
    requires PaymentKeepsOff(s.chart, req, ar, ap) && DocsFit(s.items.docs)
    requires PlanPayment(s, kind, docId, req, at).Ok?
    ensures PostsWhatItMoves(PlanPayment(s, kind, docId, req, at).value, s.items.docs, ar, ap)
  {
    assert DocFits((kind, docId), s.items.docs[(kind, docId)]);
    var terms := PaymentTermsOf(s, kind, docId, req).value;
    PaymentLinesNet(kind, docId, terms, req.dimensions, s.currency, ar, ap);
  }

  lemma PaymentLinesNet(kind: DocKind, docId: string, terms: PaymentTerms, dims: seq<(string, string)>, currency: string,
                        ar: AccountId, ap: AccountId)
    requires ar != ap && terms.control == (if kind == INVOICE then ar else ap)
    requires terms.bank != ar && terms.bank != ap
    ensures var lines := PaymentLines(kind, docId, terms, dims, currency);
            && LinesNet(lines, ar) == (if kind == INVOICE then -terms.amount else 0)
            && LinesNet(lines, ap) == (if kind == BILL then terms.amount else 0)
  {
    var lines := PaymentLines(kind, docId, terms, dims, currency);
    if kind == INVOICE {
      assert lines == [lines[0]] + [lines[1]] + [];
      ControlLineNet([lines[0]], lines[1], [], ar, ap);
    } else {
      assert lines == [] + [lines[0]] + [lines[1]];
      ControlLineNet([], lines[0], [lines[1]], ar, ap);
    }
  }

  ghost predicate CreditKeepsOff(chart: Chart, req: CreditRequest, ar: AccountId, ap: AccountId) {
    && Controlled(chart, req.accounts, ar, ap) && Typed(chart, ar, ap)
    && Off(chart, TaxCodeOf(req.salesTaxCode), ar, ap)
  }

  /** What a reversal carves up adds back to its amount, off the control accounts. */
  lemma PartsTieOut(chart: Chart, doc: Doc, amount: nat, code: string, taxCode: string, memo: string,
                    ar: AccountId, ap: AccountId)
    requires 0 < amount && 0 <= doc.tax <= doc.total
    requires ReversalLines(chart, doc, amount, code, taxCode, memo).Ok?
    requires !IsControl(chart, code) && Typed(chart, ar, ap) && Off(chart, TaxCodeOf(taxCode), ar, ap)
    ensures var parts := ReversalLines(chart, doc, amount, code, taxCode, memo).value;
            && PartsTotal(parts) == amount
            && forall i :: 0 <= i < |parts| ==> parts[i].accountId != ar && parts[i].accountId != ap
  {
    var parts := ReversalLines(chart, doc, amount, code, taxCode, memo).value;
    assert FindCode(chart, code).value in chart;
    if doc.kind == INVOICE && doc.tax > 0 {
      ShareIsWithin(amount, doc.tax, doc.total);
    }
    PartsTotalOf(parts);
  }

  lemma ShareIsWithin(amount: nat, tax: nat, total: nat)
    requires 0 < total && tax <= total
    ensures TaxPortion(amount, tax, total) <= amount
  {
    assert amount * tax <= amount * total;
    QuotientWithin(amount * tax, amount, total);
  }

  lemma {:induction false} QuotientWithin(n: nat, q: nat, d: nat)
    requires d > 0 && n <= q * d
    ensures n / d <= q
  {
    if n >= d {
      assert (q - 1) * d == q * d - d;
      QuotientWithin(n - d, q - 1, d);
    }
  }

  lemma PartsTotalOf(parts: seq<Part>)
    ensures parts == [] ==> PartsTotal(parts) == 0
    ensures |parts| == 1 ==> PartsTotal(parts) == parts[0].amount
    ensures |parts| == 2 ==> PartsTotal(parts) == parts[0].amount + parts[1].amount
  {
    if |parts| == 2 {
      assert parts[..1][..0] == [];
    }
  }

  /** What the checks of a credit or a refund establish about its terms. */
  ghost predicate Reverses(chart: Chart, doc: Doc, req: CreditRequest, t: CreditTerms) {
    && t.amount > 0 && !IsControl(chart, t.code) && PrimaryAccountOf(doc, req.accountCode) == Ok(t.code)
    && ReversalLines(chart, doc, t.amount, t.code, req.salesTaxCode, t.memo) == Ok(t.parts)
  }

  lemma CreditTermsHold(s: Desk, kind: DocKind, docId: string, req: CreditRequest)
    requires CreditTermsOf(s, kind, docId, req).Ok?
    ensures req.date.Some? && (kind, docId) in s.items.docs
    ensures var doc, t := s.items.docs[(kind, docId)], CreditTermsOf(s, kind, docId, req).value;
            && Reverses(s.chart, doc, req, t) && t.amount <= doc.open
            && ControlFor(s.chart, kind, Controls(s.chart, req.accounts)) == Ok(t.anchor)
  {
  }

  lemma CreditPostsWhatItMoves(s: Desk, kind: DocKind, docId: string, req: CreditRequest, at: string,
                               ar: AccountId, ap: AccountId)
    requires CreditKeepsOff(s.chart, req, ar, ap) && DocsFit(s.items.docs)
    requires PlanCredit(s, kind, docId, req, at).Ok?
    ensures PostsWhatItMoves(PlanCredit(s, kind, docId, req, at).value, s.items.docs, ar, ap)
  {
    CreditTermsHold(s, kind, docId, req);
    assert DocFits((kind, docId), s.items.docs[(kind, docId)]);
    CreditOnTermsMoves(s, kind, docId, req, CreditTermsOf(s, kind, docId, req).value, at, ar, ap);
  }

  lemma CreditOnTermsMoves(s: Desk, kind: DocKind, docId: string, req: CreditRequest, t: CreditTerms, at: string,
                           ar: AccountId, ap: AccountId)
    requires CreditKeepsOff(s.chart, req, ar, ap) && req.date.Some? && (kind, docId) in s.items.docs
    requires DocFits((kind, docId), s.items.docs[(kind, docId)])
    requires Reverses(s.chart, s.items.docs[(kind, docId)], req, t) && t.amount <= s.items.docs[(kind, docId)].open
    requires ControlFor(s.chart, kind, Controls(s.chart, req.accounts)) == Ok(t.anchor)
    ensures PostsWhatItMoves(CreditOnTerms(s, kind, docId, s.items.docs[(kind, docId)], req.date.value, t, at),
                             s.items.docs, ar, ap)
  {
    var doc := s.items.docs[(kind, docId)];
    PartsTieOut(s.chart, doc, t.amount, t.code, req.salesTaxCode, t.memo, ar, ap);
    CreditLinesNet(kind, t.parts, t.anchor, s.currency, ar, ap);
  }

  lemma CreditLinesNet(kind: DocKind, parts: seq<Part>, control: AccountId, currency: string, ar: AccountId, ap: AccountId)
    requires ar != ap && control == (if kind == INVOICE then ar else ap)
    requires forall i :: 0 <= i < |parts| ==> parts[i].accountId != ar && parts[i].accountId != ap
    ensures var lines := CreditLines(kind, parts, control, currency);
            && LinesNet(lines, ar) == (if kind == INVOICE then -PartsTotal(parts) else 0)
            && LinesNet(lines, ap) == (if kind == BILL then PartsTotal(parts) else 0)
  {
    var lines := CreditLines(kind, parts, control, currency);
    var n := |parts|;
    if kind == INVOICE {
      assert lines == lines[..n] + [lines[n]] + [];
      ControlLineNet(lines[..n], lines[n], [], ar, ap);
    } else {
      assert lines == [] + [lines[0]] + lines[1..];
      ControlLineNet([], lines[0], lines[1..], ar, ap);
    }
  }

  ghost predicate RefundKeepsOff(chart: Chart, req: CreditRequest, ar: AccountId, ap: AccountId) {
    CreditKeepsOff(chart, req, ar, ap) && Off(chart, RefundBank(chart, req), ar, ap)
  }

  lemma RefundTermsHold(s: Desk, docId: string, req: CreditRequest)
    requires RefundTermsOf(s, docId, req).Ok?
    ensures req.date.Some? && (INVOICE, docId) in s.items.docs
    ensures var doc, t := s.items.docs[(INVOICE, docId)], RefundTermsOf(s, docId, req).value;
            Reverses(s.chart, doc, req, t) && AccountFor(s.chart, RefundBank(s.chart, req)) == Ok(t.anchor)
  {
  }

  lemma RefundPostsWhatItMoves(s: Desk, docId: string, req: CreditRequest, at: string, ar: AccountId, ap: AccountId)
    requires RefundKeepsOff(s.chart, req, ar, ap) && DocsFit(s.items.docs)
    requires PlanRefund(s, docId, req, at).Ok?
    ensures PostsWhatItMoves(PlanRefund(s, docId, req, at).value, s.items.docs, ar, ap)
    ensures Moved(PlanRefund(s, docId, req, at).value, s.items.docs) == 0
  {
    RefundTermsHold(s, docId, req);
    assert DocFits((INVOICE, docId), s.items.docs[(INVOICE, docId)]);
    RefundLinesKeepOff(s.chart, s.items.docs[(INVOICE, docId)], req, RefundTermsOf(s, docId, req).value, s.currency, ar, ap);
  }

  lemma RefundLinesKeepOff(chart: Chart, doc: Doc, req: CreditRequest, t: CreditTerms, currency: string,
                           ar: AccountId, ap: AccountId)
    requires RefundKeepsOff(chart, req, ar, ap) && 0 <= doc.tax <= doc.total
    requires Reverses(chart, doc, req, t) && AccountFor(chart, RefundBank(chart, req)) == Ok(t.anchor)
    ensures var lines := CreditLines(INVOICE, t.parts, t.anchor, currency);
            LinesNet(lines, ar) == 0 && LinesNet(lines, ap) == 0
  {
    PartsTieOut(chart, doc, t.amount, t.code, req.salesTaxCode, t.memo, ar, ap);
    OffLinesNetZero(CreditLines(INVOICE, t.parts, t.anchor, currency), ar, ap);
  }

  // --- runs -----------------------------------------------------------------------------------------

  datatype Op =
    | Create(kind: DocKind, creation: CreateRequest, at: string)
    | Pay(kind: DocKind, docId: string, payment: PaymentRequest, at: string)
    | IssueCredit(kind: DocKind, docId: string, credit: CreditRequest, at: string)
    | IssueRefund(docId: string, credit: CreditRequest, at: string)
    | Journal(command: Command, at: string)
    | SetLocks(locks: Locks)

  /** The plan of an AR/AP request. */
  function PlanOf(s: Desk, op: Op): Result<Plan, ArApError>
    requires !op.Journal? && !op.SetLocks?
  {
    match op
    case Create(kind, req, at) => CreationPlan(s, kind, req, at)
    case Pay(kind, docId, req, at) => PlanPayment(s, kind, docId, req, at)
    case IssueCredit(kind, docId, req, at) => PlanCredit(s, kind, docId, req, at)
    case IssueRefund(docId, req, at) => PlanRefund(s, docId, req, at)
  }

  function Step(s: State, op: Op): State {
    match op
    case Journal(command, at) => s.(books := PostTo(s.books, command, at).0)
    case SetLocks(locks) => s.(books := s.books.(locks := locks))
    case _ => Carry(s, PlanOf(s.AsDesk(), op), op.at).0
  }

  /** The request names no control account besides the ones it is controlled by. */
  ghost predicate KeepsOff(chart: Chart, op: Op, ar: AccountId, ap: AccountId) {
    match op
    case Create(_, req, _) => CreateKeepsOff(chart, req, ar, ap)
    case Pay(_, _, req, _) => PaymentKeepsOff(chart, req, ar, ap)
    case IssueCredit(_, _, req, _) => CreditKeepsOff(chart, req, ar, ap)
    case IssueRefund(_, req, _) => RefundKeepsOff(chart, req, ar, ap)
    case Journal(command, _) =>
      forall i :: 0 <= i < |command.payload.lines| ==>
        command.payload.lines[i].accountId != ar && command.payload.lines[i].accountId != ap
    case SetLocks(_) => true
  }

  /** The journal already holds an entry under the command's key whose payload reads like the command's. */
  predicate Replays(log: seq<Entry>, command: Command) {
    match ByKey(log, command.key)
    case None => false
    case Some(e) => FingerprintOf(e.draft.payload) == FingerprintOf(command.payload)
  }

  lemma ReplaysIffAccepted(b: Books, command: Command, at: string)
    requires HasKey(b.log, command.key)
    ensures PostTo(b, command, at).1.Ok? <==> Replays(b.log, command)
  {
  }

  /** The request would move an open amount under an entry the journal already holds. */
  predicate ReusesKey(s: State, op: Op) {
    !op.Journal? && !op.SetLocks? &&
    var plan := PlanOf(s.AsDesk(), op);
    plan.Ok? && Replays(s.books.log, plan.value.command) && Moved(plan.value, s.items.docs) != 0
  }

  lemma RequestPostsWhatItMoves(s: State, op: Op, ar: AccountId, ap: AccountId)
    requires DocsFit(s.items.docs) && KeepsOff(s.books.chart, op, ar, ap)
    requires !op.Journal? && !op.SetLocks? && PlanOf(s.AsDesk(), op).Ok?
    ensures PostsWhatItMoves(PlanOf(s.AsDesk(), op).value, s.items.docs, ar, ap)
  {
    match op
    case Create(kind, req, at) => CreatePostsWhatItMoves(s.AsDesk(), kind, req, at, ar, ap);
    case Pay(kind, docId, req, at) => PaymentPostsWhatItMoves(s.AsDesk(), kind, docId, req, at, ar, ap);
    case IssueCredit(kind, docId, req, at) => CreditPostsWhatItMoves(s.AsDesk(), kind, docId, req, at, ar, ap);
    case IssueRefund(docId, req, at) => RefundPostsWhatItMoves(s.AsDesk(), docId, req, at, ar, ap);
  }

  /** One request keeps the tie-out exactly when it does not reuse a posting key. */
  lemma StepTiesOutIffKeyIsNew(s: State, op: Op, ar: AccountId, ap: AccountId)
    requires Tied(s, ar, ap) && KeepsOff(s.books.chart, op, ar, ap)
    ensures DocsFit(Step(s, op).items.docs)
    ensures Step(s, op).books.chart == s.books.chart
    ensures Tied(Step(s, op), ar, ap) <==> !ReusesKey(s, op)
  {
    if op.Journal? {
      JournalTiesOut(s, op, ar, ap);
    } else if !op.SetLocks? {
      var plan := PlanOf(s.AsDesk(), op);
      if plan.Ok? {
        RequestPostsWhatItMoves(s, op, ar, ap);
        CarriedTiesOut(s, plan.value, op.at, ar, ap);
      }
    }
  }

  lemma CarriedTiesOut(s: State, plan: Plan, at: string, ar: AccountId, ap: AccountId)
    requires Tied(s, ar, ap) && PostsWhatItMoves(plan, s.items.docs, ar, ap)
    ensures var s' := Execute(s, plan, at).0;
            && DocsFit(s'.items.docs) && s'.books.chart == s.books.chart
            && (Tied(s', ar, ap) <==>
                !(Replays(s.books.log, plan.command) && Moved(plan, s.items.docs) != 0))
  {
    if HasKey(s.books.log, plan.command.key) {
      ReplaysIffAccepted(s.books, plan.command, at);
    }
    if Execute(s, plan, at).1.Ok? {
      ExecutionTiesOutIffKeyIsNew(s, plan, at, ar, ap);
    }
  }

  lemma JournalTiesOut(s: State, op: Op, ar: AccountId, ap: AccountId)
    requires Tied(s, ar, ap) && op.Journal? && KeepsOff(s.books.chart, op, ar, ap)
    ensures Tied(Step(s, op), ar, ap) && Step(s, op).books.chart == s.books.chart
  {
    if !HasKey(s.books.log, op.command.key) && PostTo(s.books, op.command, op.at).1.Ok? {
      var e := NewEntry(s.books, op.command, op.at);
      NetOfAppended(s.books.log, e, Always, ar);
      NetOfAppended(s.books.log, e, Always, ap);
      OffLinesNetZero(e.Lines(), ar, ap);
    }
  }

  function Run(s: State, ops: seq<Op>): State
    decreases |ops|
  {
    if ops == [] then s else Run(Step(s, ops[0]), ops[1..])
  }

  ghost predicate KeysAreNew(s: State, ops: seq<Op>)
    decreases |ops|
  {
    ops != [] ==> !ReusesKey(s, ops[0]) && KeysAreNew(Step(s, ops[0]), ops[1..])
  }

  ghost predicate TiedThroughout(s: State, ops: seq<Op>, ar: AccountId, ap: AccountId)
    decreases |ops|
  {
    Tied(s, ar, ap) && (ops != [] ==> TiedThroughout(Step(s, ops[0]), ops[1..], ar, ap))
  }

  /** Over every run off the control accounts: tied at every step exactly when no posting key is reused. */
  lemma {:induction false} RunTiesOutIffKeysAreNew(s: State, ops: seq<Op>, ar: AccountId, ap: AccountId)
    requires Tied(s, ar, ap) && forall op :: op in ops ==> KeepsOff(s.books.chart, op, ar, ap)
    ensures TiedThroughout(s, ops, ar, ap) <==> KeysAreNew(s, ops)
    ensures KeysAreNew(s, ops) ==> Tied(Run(s, ops), ar, ap)
    decreases |ops|
  {
    if ops != [] {
      StepTiesOutIffKeyIsNew(s, ops[0], ar, ap);
      if !ReusesKey(s, ops[0]) {
        RunTiesOutIffKeysAreNew(Step(s, ops[0]), ops[1..], ar, ap);
      }
    }
  }

  /** No request of the run plans a posting key that is in the journal by then. */
  ghost predicate KeysAreFresh(s: State, ops: seq<Op>)
    decreases |ops|
  {
    ops != [] ==>
      && (!ops[0].Journal? && !ops[0].SetLocks? && PlanOf(s.AsDesk(), ops[0]).Ok? ==>
            !HasKey(s.books.log, PlanOf(s.AsDesk(), ops[0]).value.command.key))
      && KeysAreFresh(Step(s, ops[0]), ops[1..])
  }

  lemma {:induction false} FreshKeysAreNew(s: State, ops: seq<Op>)
    requires KeysAreFresh(s, ops)
    ensures KeysAreNew(s, ops)
    decreases |ops|
  {
    if ops != [] {
      FreshKeysAreNew(Step(s, ops[0]), ops[1..]);
    }
  }

  /** Every run under fresh keys stays tied at every step. */
  lemma FreshRunTiesOut(s: State, ops: seq<Op>, ar: AccountId, ap: AccountId)
    requires Tied(s, ar, ap) && forall op :: op in ops ==> KeepsOff(s.books.chart, op, ar, ap)
    requires KeysAreFresh(s, ops)
    ensures TiedThroughout(s, ops, ar, ap) && Tied(Run(s, ops), ar, ap)
  {
    FreshKeysAreNew(s, ops);
    RunTiesOutIffKeysAreNew(s, ops, ar, ap);
  }

  /** So from an empty journal and no documents it ties out too. */
  lemma FreshRunFromNothingTiesOut(s: State, ops: seq<Op>, ar: AccountId, ap: AccountId)
    requires s.books.log == [] && s.items == NoItems
    requires KeysAreFresh(s, ops) && forall op :: op in ops ==> KeepsOff(s.books.chart, op, ar, ap)
    ensures TiedThroughout(s, ops, ar, ap) && Tied(Run(s, ops), ar, ap)
  {
    assert OpenAmounts(NoItems.docs, INVOICE) == map[] && OpenAmounts(NoItems.docs, BILL) == map[];
    FreshRunTiesOut(s, ops, ar, ap);
  }

  // --- where the tie-out is lost, and where a retry finds it again ------------------------------------

  /**
   * Paying twice under one payment id (same clock) is accepted twice but posted once: the second
   * call replays the entry and still reduces what is open.
   */
  lemma PayingAgainUnderOneIdBreaksTheTie(s: State, kind: DocKind, docId: string, req: PaymentRequest, at: string, plan: Plan,
                                          ar: AccountId, ap: AccountId)
    requires Tied(s, ar, ap) && PaymentKeepsOff(s.books.chart, req, ar, ap)
    requires PlanPayment(s.AsDesk(), kind, docId, req, at) == Ok(plan) && Trim(req.id) != "" && req.amount.Some?
    requires (kind, docId) in s.items.docs && 2 * req.amount.value <= s.items.docs[(kind, docId)].open
    requires !HasKey(s.books.log, plan.command.key) && PostTo(s.books, plan.command, at).1.Ok?
    ensures var once := Execute(s, plan, at).0;
            var again := PlanPayment(once.AsDesk(), kind, docId, req, at);
            && Tied(once, ar, ap) && again.Ok?
            && var twice := Execute(once, again.value, at).0;
               twice.books == once.books && !Tied(twice, ar, ap)
  {
    var once := Execute(s, plan, at).0;
    PaymentPostsWhatItMoves(s.AsDesk(), kind, docId, req, at, ar, ap);
    PaymentOpens(s.AsDesk(), kind, docId, req, at);
    ExecutionTiesOutIffKeyIsNew(s, plan, at, ar, ap);
    ExecutedDocs(s, plan, at);
    PaymentPlannedAgain(s.AsDesk(), once.AsDesk(), kind, docId, req, at);
    PaymentPostsWhatItMoves(once.AsDesk(), kind, docId, req, at, ar, ap);
    ReplayBreaksTheTie(s, plan, PlanPayment(once.AsDesk(), kind, docId, req, at).value, at, ar, ap);
  }

  lemma PaymentOpens(s: Desk, kind: DocKind, docId: string, req: PaymentRequest, at: string)
    requires PlanPayment(s, kind, docId, req, at).Ok?
    ensures var plan := PlanPayment(s, kind, docId, req, at).value;
            && plan.key == (kind, docId) && plan.key in s.items.docs
            && req.amount.Some? && req.amount.value > 0
            && plan.doc.open == s.items.docs[(kind, docId)].open - req.amount.value
  {
  }

  lemma ReplayBreaksTheTie(s: State, plan: Plan, again: Plan, at: string, ar: AccountId, ap: AccountId)
    requires !HasKey(s.books.log, plan.command.key) && PostTo(s.books, plan.command, at).1.Ok?
    requires Tied(Execute(s, plan, at).0, ar, ap)
    requires again.command == plan.command
    requires PostsWhatItMoves(again, Execute(s, plan, at).0.items.docs, ar, ap)
    requires Moved(again, Execute(s, plan, at).0.items.docs) != 0
    ensures var once := Execute(s, plan, at).0;
            var twice := Execute(once, again, at).0;
            twice.books == once.books && twice.items.docs == once.items.docs[again.key := again.doc] && !Tied(twice, ar, ap)
  {
    var once := Execute(s, plan, at).0;
    PostedIsFound(s.books, plan.command, at);
    ExecutionTiesOutIffKeyIsNew(once, again, at, ar, ap);
  }

  lemma PaymentPlannedAgain(s: Desk, once: Desk, kind: DocKind, docId: string, req: PaymentRequest, at: string)
    requires PlanPayment(s, kind, docId, req, at).Ok? && Trim(req.id) != ""
    requires (once.t, once.currency, once.chart) == (s.t, s.currency, s.chart)
    requires (kind, docId) in once.items.docs
    requires once.items.docs[(kind, docId)] == PlanPayment(s, kind, docId, req, at).value.doc
    requires 2 * req.amount.value <= s.items.docs[(kind, docId)].open
    ensures var plan, again := PlanPayment(s, kind, docId, req, at).value, PlanPayment(once, kind, docId, req, at);
            && again.Ok? && again.value.command == plan.command && again.value.key == (kind, docId)
            && again.value.doc.open == once.items.docs[(kind, docId)].open - req.amount.value
  {
    assert PaymentTermsOf(once, kind, docId, req) == PaymentTermsOf(s, kind, docId, req);
  }

  lemma PostedIsFound(b: Books, command: Command, at: string)
    requires !HasKey(b.log, command.key) && PostTo(b, command, at).1.Ok?
    ensures HasKey(PostTo(b, command, at).0.log, command.key)
    ensures PostTo(PostTo(b, command, at).0, command, at) == (PostTo(b, command, at).0, PostTo(b, command, at).1)
  {
    var e := NewEntry(b, command, at);
    var log' := b.log + [e];
    HasKeyAt(log', |b.log|);
    assert ByKey(log', command.key) == Some(e);
  }

  /** The same plan made at another clock reading differs only in when its provenance was taken in. */
  function Reclocked(plan: Plan, at: string): Plan {
    var p := plan.command.payload;
    plan.(command := plan.command.(payload := p.(provenance := p.provenance.(ingestedAt := at))))
  }

  lemma CreationReclocks(s: Desk, kind: DocKind, req: CreateRequest, at: string, again: string)
    requires CreationPlan(s, kind, req, at).Ok?
    ensures CreationPlan(s, kind, req, again) == Ok(Reclocked(CreationPlan(s, kind, req, at).value, again))
    ensures CreationPlan(s, kind, req, at).value.command.payload.provenance.ingestedAt == at
  {
    var terms := TermsOf(s, kind, req, ResolveLines(req.lines, s.chart)).value;
    TermsHold(s, kind, req, ResolveLines(req.lines, s.chart));
    BaseIsNatural(terms.built.records);
    PlannedOnTerms(s, kind, req, terms, at);
    PlannedOnTerms(s, kind, req, terms, again);
    TermsReclock(s, kind, req, req.date.value, terms, at, again);
  }

  lemma PlannedOnTerms(s: Desk, kind: DocKind, req: CreateRequest, terms: Terms, at: string)
    requires TermsOf(s, kind, req, ResolveLines(req.lines, s.chart)) == Ok(terms) && req.date.Some?
    requires |terms.built.accountIds| == |terms.built.records| == |req.lines|
    requires TaxableBase(terms.built.records) >= 0
    ensures CreationPlan(s, kind, req, at) == Ok(PlanOnTerms(s, kind, req, req.date.value, terms, at))
  {
  }

  lemma TermsReclock(s: Desk, kind: DocKind, req: CreateRequest, date: Date, terms: Terms, at: string, again: string)
    requires |terms.built.accountIds| == |terms.built.records| == |req.lines|
    requires TaxableBase(terms.built.records) >= 0
    ensures PlanOnTerms(s, kind, req, date, terms, again) == Reclocked(PlanOnTerms(s, kind, req, date, terms, at), again)
    ensures PlanOnTerms(s, kind, req, date, terms, at).command.payload.provenance.ingestedAt == at
  {
  }

  /**
   * A creation cut short between its post and its save: retrying completes it exactly when the retry
   * carries the clock reading of the first attempt, because that reading is part of the fingerprint.
   */
  lemma RetryCompletesIffSameClock(s: State, kind: DocKind, req: CreateRequest, at: string, again: string)
    requires CreationPlan(s.AsDesk(), kind, req, at).Ok?
    requires var plan := CreationPlan(s.AsDesk(), kind, req, at).value;
             && !HasKey(s.books.log, plan.command.key) && PostTo(s.books, plan.command, at).1.Ok?
             && Clean(plan.command.payload) && Clean(Reclocked(plan, again).command.payload)
    ensures var plan := CreationPlan(s.AsDesk(), kind, req, at).value;
            var cut := s.(books := PostTo(s.books, plan.command, at).0);
            var retried := Step(cut, Create(kind, req, again));
            && (at == again ==> retried == Step(s, Create(kind, req, at)))
            && (at != again ==> retried == cut)
  {
    var plan := CreationPlan(s.AsDesk(), kind, req, at).value;
    var cut := s.(books := PostTo(s.books, plan.command, at).0);
    assert cut.AsDesk() == s.AsDesk();
    CreationReclocks(s.AsDesk(), kind, req, at, again);
    PostedIsFound(s.books, plan.command, at);
    RetriedPost(s.books, plan, at, again);
  }

  lemma RetriedPost(b: Books, plan: Plan, at: string, again: string)
    requires !HasKey(b.log, plan.command.key) && PostTo(b, plan.command, at).1.Ok?
    requires plan.command.payload.provenance.ingestedAt == at
    requires Clean(plan.command.payload) && Clean(Reclocked(plan, again).command.payload)
    ensures var cut := PostTo(b, plan.command, at).0;
            var (after, r) := PostTo(cut, Reclocked(plan, again).command, again);
            after == cut && (r.Ok? <==> at == again)
  {
    var cut := PostTo(b, plan.command, at).0;
    PostedIsFound(b, plan.command, at);
    FingerprintIdentifiesPayload(plan.command.payload, Reclocked(plan, again).command.payload);
  }

  // --- credits and sales tax ------------------------------------------------------------------------

  function Credited(amounts: seq<nat>): nat {
    if amounts == [] then 0 else Credited(amounts[..|amounts| - 1]) + amounts[|amounts| - 1]
  }

  function Shares(amounts: seq<nat>, tax: nat, total: nat): nat
    requires total > 0
  {
    if amounts == [] then 0
    else Shares(amounts[..|amounts| - 1], tax, total) + TaxPortion(amounts[|amounts| - 1], tax, total)
  }

  lemma {:induction false} SharesBounds(amounts: seq<nat>, tax: nat, total: nat)
    requires total > 0
    ensures Shares(amounts, tax, total) * total <= Credited(amounts) * tax
    ensures amounts != [] ==> Credited(amounts) * tax < (Shares(amounts, tax, total) + |amounts|) * total
  {
    if amounts != [] {
      var front, last := amounts[..|amounts| - 1], amounts[|amounts| - 1];
      SharesBounds(front, tax, total);
      ShareBounds(last, tax, total);
      AddShares(Shares(front, tax, total), TaxPortion(last, tax, total), Credited(front), last, tax, total, |front|);
    }
  }

  lemma AddShares(x: nat, y: nat, c: nat, a: nat, tax: nat, total: nat, n: nat)
    requires x * total <= c * tax < (x + n) * total || (n == x == c == 0)
    requires y * total <= a * tax < (y + 1) * total
    ensures (x + y) * total <= (c + a) * tax < (x + y + n + 1) * total
  {
    assert (x + y) * total == x * total + y * total;
    assert (c + a) * tax == c * tax + a * tax;
    assert (x + n + (y + 1)) * total == (x + n) * total + (y + 1) * total;
  }

  lemma ShareBounds(amount: nat, tax: nat, total: nat)
    requires total > 0
    ensures TaxPortion(amount, tax, total) * total <= amount * tax < (TaxPortion(amount, tax, total) + 1) * total
  {
    var n := amount * tax;
    assert n == (n / total) * total + n % total;
  }

  /** However a whole taxed invoice is credited in parts, the tax reversed is at most k - 1 units short, never over. */
  lemma PartialCreditsReverseTheTax(amounts: seq<nat>, tax: nat, total: nat)
    requires total > 0 && amounts != [] && Credited(amounts) == total
    ensures tax - (|amounts| - 1) <= Shares(amounts, tax, total) <= tax
  {
    SharesBounds(amounts, tax, total);
    var x, k := Shares(amounts, tax, total), |amounts|;
    LessFactor(tax, x + k, total);
    if x > 0 {
      NoMoreFactor(x, tax, total);
    }
  }

  lemma {:induction false} LessFactor(a: nat, b: nat, d: nat)
    requires d > 0 && d * a < b * d
    ensures a < b
  {
    if a > 0 {
      assert d * (a - 1) == d * a - d && (b - 1) * d == b * d - d;
      LessFactor(a - 1, b - 1, d);
    }
  }

  lemma {:induction false} NoMoreFactor(a: nat, b: nat, d: nat)
    requires d > 0 && a * d <= d * b
    ensures a <= b
  {
    if a > 0 {
      assert (a - 1) * d == a * d - d && d * (b - 1) == d * b - d;
      NoMoreFactor(a - 1, b - 1, d);
    }
  }

  /** A credit's tax goes to one account that its income line and its control do not share. */
  ghost predicate TaxGoesTo(chart: Chart, doc: Doc, req: CreditRequest, tax: AccountId) {
    var code := PrimaryAccountOf(doc, req.accountCode);
    && AccountFor(chart, TaxCodeOf(req.salesTaxCode)) == Ok(tax)
    && (code.Ok? ==> AccountFor(chart, code.value) != Ok(tax))
    && ControlFor(chart, INVOICE, Controls(chart, req.accounts)) != Ok(tax)
  }

  lemma PartsTaxNet(chart: Chart, doc: Doc, amount: nat, code: string, taxCode: string, memo: string,
                    control: AccountId, currency: string, tax: AccountId)
    requires doc.kind == INVOICE && doc.tax > 0 && doc.total > 0
    requires ReversalLines(chart, doc, amount, code, taxCode, memo).Ok?
    requires AccountFor(chart, code) != Ok(tax) && AccountFor(chart, TaxCodeOf(taxCode)) == Ok(tax) && control != tax
    ensures var parts := ReversalLines(chart, doc, amount, code, taxCode, memo).value;
            LinesNet(CreditLines(INVOICE, parts, control, currency), tax) == TaxPortion(amount, doc.tax, doc.total)
  {
    var parts := ReversalLines(chart, doc, amount, code, taxCode, memo).value;
    var postings := ReversalPostings(parts, DEBIT, currency);
    var anchor := Posting(control, CREDIT, PartsTotal(parts), currency, "");
    LinesNetAppends(postings, [anchor], tax);
    OneLineNet(anchor, tax);
    FewNet(postings, tax);
  }

  lemma FewNet(lines: seq<Line>, a: AccountId)
    requires |lines| <= 2
    ensures LinesNet(lines, a) == (if |lines| > 0 && lines[0].accountId == a then Signed(lines[0]) else 0)
                                + (if |lines| > 1 && lines[1].accountId == a then Signed(lines[1]) else 0)
  {
    if |lines| == 2 {
      assert lines == [lines[0]] + [lines[1]];
      LinesNetAppends([lines[0]], [lines[1]], a);
      OneLineNet(lines[0], a);
      OneLineNet(lines[1], a);
    } else if |lines| == 1 {
      assert lines == [lines[0]];
      OneLineNet(lines[0], a);
    }
  }

  ghost predicate CreditsInvoice(s: State, op: Op, docId: string, tax: AccountId) {
    && op.IssueCredit? && op.kind == INVOICE && op.docId == docId
    && (INVOICE, docId) in s.items.docs && TaxGoesTo(s.books.chart, s.items.docs[(INVOICE, docId)], op.credit, tax)
    && var plan := PlanCredit(s.AsDesk(), INVOICE, docId, op.credit, op.at);
       plan.Ok? && !HasKey(s.books.log, plan.value.command.key) && PostTo(s.books, plan.value.command, op.at).1.Ok?
  }

  /** An accepted credit debits the tax account by the tax share of exactly what it takes off the invoice. */
  lemma CreditReversesItsShare(s: State, op: Op, docId: string, tax: AccountId)
    requires DocsFit(s.items.docs) && CreditsInvoice(s, op, docId, tax) && s.items.docs[(INVOICE, docId)].tax > 0
    ensures var before, after := s.items.docs[(INVOICE, docId)], Step(s, op).items.docs[(INVOICE, docId)];
            && before.open > after.open && DocsFit(Step(s, op).items.docs) && Step(s, op).books.chart == s.books.chart
            && after == before.(open := after.open, status := after.status)
            && Net(Step(s, op).books.log, Always, tax)
               == Net(s.books.log, Always, tax) + TaxPortion(before.open - after.open, before.tax, before.total)
  {
    var doc := s.items.docs[(INVOICE, docId)];
    assert DocFits((INVOICE, docId), doc);
    var plan := PlanCredit(s.AsDesk(), INVOICE, docId, op.credit, op.at).value;
    CreditTaxNet(s.AsDesk(), docId, op.credit, op.at, tax);
    var e := NewEntry(s.books, plan.command, op.at);
    NetOfAppended(s.books.log, e, Always, tax);
  }

  lemma CreditTaxNet(s: Desk, docId: string, req: CreditRequest, at: string, tax: AccountId)
    requires PlanCredit(s, INVOICE, docId, req, at).Ok?
    requires DocFits((INVOICE, docId), s.items.docs[(INVOICE, docId)]) && s.items.docs[(INVOICE, docId)].tax > 0
    requires TaxGoesTo(s.chart, s.items.docs[(INVOICE, docId)], req, tax)
    ensures var doc, plan := s.items.docs[(INVOICE, docId)], PlanCredit(s, INVOICE, docId, req, at).value;
            && 0 <= plan.doc.open < doc.open && DocFits((INVOICE, docId), plan.doc) && plan.key == (INVOICE, docId)
            && plan.doc == doc.(open := plan.doc.open, status := plan.doc.status) && plan.payment.None?
            && LinesNet(plan.command.payload.lines, tax) == TaxPortion(doc.open - plan.doc.open, doc.tax, doc.total)
  {
    var doc, t := s.items.docs[(INVOICE, docId)], CreditTermsOf(s, INVOICE, docId, req).value;
    CreditTermsHold(s, INVOICE, docId, req);
    PartsTaxNet(s.chart, doc, t.amount, t.code, req.salesTaxCode, t.memo, t.anchor, s.currency, tax);
  }

  ghost predicate CreditRun(s: State, ops: seq<Op>, docId: string, tax: AccountId)
    decreases |ops|
  {
    ops != [] ==> CreditsInvoice(s, ops[0], docId, tax) && CreditRun(Step(s, ops[0]), ops[1..], docId, tax)
  }

  lemma {:induction false} PrependedShares(a: nat, rest: seq<nat>, tax: nat, total: nat)
    requires total > 0
    ensures Credited([a] + rest) == a + Credited(rest)
    ensures Shares([a] + rest, tax, total) == TaxPortion(a, tax, total) + Shares(rest, tax, total)
  {
    if rest == [] {
      assert [a] + rest == [a] && [a][..0] == [];
    } else {
      assert ([a] + rest)[..|rest|] == [a] + rest[..|rest| - 1];
      PrependedShares(a, rest[..|rest| - 1], tax, total);
    }
  }

  /** Over a run of credits the tax account moves by the shares of what each one takes off. */
  lemma {:induction false} CreditRunShares(s: State, ops: seq<Op>, docId: string, tax: AccountId, doc: Doc) returns (amounts: seq<nat>)
    requires DocsFit(s.items.docs) && CreditRun(s, ops, docId, tax)
    requires (INVOICE, docId) in s.items.docs && s.items.docs[(INVOICE, docId)] == doc && doc.tax > 0 && doc.total > 0
    ensures |amounts| == |ops| && AddsUp(s, Run(s, ops), docId, tax, doc, amounts)
    decreases |ops|
  {
    amounts := [];
    if ops != [] {
      CreditReversesItsShare(s, ops[0], docId, tax);
      var s' := Step(s, ops[0]);
      var next := s'.items.docs[(INVOICE, docId)];
      var rest := CreditRunShares(s', ops[1..], docId, tax, next);
      amounts := WithFirst(s, s', Run(s, ops), docId, tax, doc, next, rest);
    }
  }

  /** These amounts take the invoice from what it was to what it is after, and their tax shares the tax account. */
  ghost predicate AddsUp(before: State, after: State, docId: string, tax: AccountId, doc: Doc, amounts: seq<nat>)
    requires doc.total > 0 && doc.tax >= 0
  {
    && (INVOICE, docId) in after.items.docs
    && Credited(amounts) == doc.open - after.items.docs[(INVOICE, docId)].open
    && Net(after.books.log, Always, tax) - Net(before.books.log, Always, tax) == Shares(amounts, doc.tax, doc.total)
  }

  lemma WithFirst(s: State, s': State, after: State, docId: string, tax: AccountId, doc: Doc, next: Doc, rest: seq<nat>)
    returns (amounts: seq<nat>)
    requires doc.total > 0 && doc.tax >= 0 && next.open <= doc.open && next.tax == doc.tax && next.total == doc.total
    requires AddsUp(s', after, docId, tax, next, rest)
    requires Net(s'.books.log, Always, tax)
          == Net(s.books.log, Always, tax) + TaxPortion(doc.open - next.open, doc.tax, doc.total)
    ensures |amounts| == |rest| + 1 && AddsUp(s, after, docId, tax, doc, amounts)
  {
    var a: nat := doc.open - next.open;
    amounts := [a] + rest;
    PrependedShares(a, rest, doc.tax, doc.total);
  }

  /**
   * Crediting a whole untouched taxed invoice in k credits takes back its sales tax to within
   * k - 1 minor units, and never more than was charged.
   */
  lemma CreditingInPartsReversesTheTax(s: State, ops: seq<Op>, docId: string, tax: AccountId)
    requires DocsFit(s.items.docs) && CreditRun(s, ops, docId, tax) && ops != []
    requires (INVOICE, docId) in s.items.docs
    requires var doc := s.items.docs[(INVOICE, docId)]; doc.tax > 0 && doc.open == doc.total
    requires (INVOICE, docId) in Run(s, ops).items.docs && Run(s, ops).items.docs[(INVOICE, docId)].open == 0
    ensures var doc := s.items.docs[(INVOICE, docId)];
            var reversed := Net(Run(s, ops).books.log, Always, tax) - Net(s.books.log, Always, tax);
            doc.tax - (|ops| - 1) <= reversed <= doc.tax
  {
    var doc := s.items.docs[(INVOICE, docId)];
    assert DocFits((INVOICE, docId), doc);
    var amounts := CreditRunShares(s, ops, docId, tax, doc);
    PartialCreditsReverseTheTax(amounts, doc.tax, doc.total);
  }
}
