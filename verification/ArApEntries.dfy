/** The entries AR/AP requests post: balanced, with the tax where it belongs (arap.ts, subledger tax.ts, documents.ts). */
module ArApEntries {
  import opened Text
  import opened Ledger
  import opened Chart
  import opened Documents
  import opened ArAp
  import opened ArApRuns

  lemma OneLineTotal(l: Line)
    ensures LinesTotal([l]) == Signed(l)
  {
    assert [l][..0] == [];
  }

  /** All lines positive, and this much debit less credit. */
  ghost predicate AddsTo(lines: seq<Line>, total: int) {
    LinesTotal(lines) == total && forall i :: 0 <= i < |lines| ==> lines[i].amount > 0
  }

  lemma TogetherAdd(a: seq<Line>, b: seq<Line>, x: int, y: int)
    requires AddsTo(a, x) && AddsTo(b, y)
    ensures AddsTo(a + b, x + y)
  {
    LinesNetAppends(a, b, "");
  }

  lemma OneAdds(l: Line)
    requires l.amount > 0
    ensures AddsTo([l], Signed(l))
  {
    OneLineTotal(l);
  }

  lemma {:induction false} ItemsAdd(ids: seq<AccountId>, records: seq<DocLine>, dims: seq<seq<(string, string)>>, side: Side,
                                    currency: string)
    requires |ids| == |records| == |dims| && forall i :: 0 <= i < |records| ==> records[i].amount > 0
    ensures AddsTo(ItemLines(ids, records, dims, side, currency),
                   if side == DEBIT then RecordsTotal(records) else -RecordsTotal(records))
  {
    if ids != [] {
      var n := |ids| - 1;
      var lines := ItemLines(ids, records, dims, side, currency);
      assert lines[..n] == ItemLines(ids[..n], records[..n], dims[..n], side, currency);
      ItemsAdd(ids[..n], records[..n], dims[..n], side, currency);
    }
  }

  lemma CreationBalances(kind: DocKind, control: AccountId, taxAccount: AccountId, built: Resolved,
                         dims: seq<seq<(string, string)>>, total: int, tax: int, currency: string)
    requires |built.accountIds| == |built.records| == |dims| && built.records != []
    requires forall i :: 0 <= i < |dims| ==> built.records[i].amount > 0
    requires tax >= 0 && (kind == BILL ==> tax == 0) && total == RecordsTotal(built.records) + tax && total > 0
    ensures Balanced(CreationLines(kind, control, taxAccount, built, dims, total, tax, currency))
  {
    var anchor := Posting(control, if kind == INVOICE then DEBIT else CREDIT, total, currency, "");
    var side := if kind == INVOICE then CREDIT else DEBIT;
    var items := ItemLines(built.accountIds, built.records, dims, side, currency);
    var taxLine := Posting(taxAccount, CREDIT, tax, currency, "Sales tax");
    ItemsAdd(built.accountIds, built.records, dims, side, currency);
    OneAdds(anchor);
    if kind == INVOICE {
      TogetherAdd([anchor], items, total, -RecordsTotal(built.records));
      if tax != 0 {
        OneAdds(taxLine);
        TogetherAdd([anchor] + items, [taxLine], tax, -tax);
      } else {
        assert [anchor] + items + [] == [anchor] + items;
      }
    } else {
      TogetherAdd(items, [anchor], total, -total);
    }
  }

  /** A new document's entry balances: the control account against its lines and its tax. */
  lemma CreateBalances(s: Desk, kind: DocKind, req: CreateRequest, at: string)
    requires CreationPlan(s, kind, req, at).Ok?
    ensures Balanced(CreationPlan(s, kind, req, at).value.command.payload.lines)
  {
    var terms := TermsOf(s, kind, req, ResolveLines(req.lines, s.chart)).value;
    TermsHold(s, kind, req, ResolveLines(req.lines, s.chart));
    BillsAreUntaxed(s, kind, req, ResolveLines(req.lines, s.chart));
    BaseIsNatural(terms.built.records);
    PlannedOnTerms(s, kind, req, terms, at);
    TermsBalance(s, kind, req, terms, at);
  }

  lemma BillsAreUntaxed(s: Desk, kind: DocKind, req: CreateRequest, resolved: Result<Resolved, ArApError>)
    requires TermsOf(s, kind, req, resolved).Ok?
    ensures kind == BILL ==> TermsOf(s, kind, req, resolved).value.rate == 0
  {
  }

  lemma TermsBalance(s: Desk, kind: DocKind, req: CreateRequest, terms: Terms, at: string)
    requires req.date.Some? && |terms.built.accountIds| == |terms.built.records| == |req.lines| && req.lines != []
    requires forall i :: 0 <= i < |req.lines| ==> terms.built.records[i].amount > 0
    requires terms.built.total == RecordsTotal(terms.built.records) && (kind == BILL ==> terms.rate == 0)
    requires TaxableBase(terms.built.records) >= 0
    ensures Balanced(PlanOnTerms(s, kind, req, req.date.value, terms, at).command.payload.lines)
  {
    var doc := PlanOnTerms(s, kind, req, req.date.value, terms, at).doc;
    RecordsArePositive(terms.built.records);
    NoRateNoTax(TaxableBase(terms.built.records));
    CreationBalances(kind, terms.control, terms.taxAccount, terms.built, DimensionsOf(req.lines), doc.total, doc.tax, s.currency);
  }

  /** On an invoice the tax account takes the tax, and nothing else, when no line is on it. */
  lemma TaxGoesToItsAccount(control: AccountId, taxAccount: AccountId, built: Resolved,
                            dims: seq<seq<(string, string)>>, total: int, tax: int, currency: string)
    requires |built.accountIds| == |built.records| == |dims| && taxAccount != control
    requires forall i :: 0 <= i < |dims| ==> built.accountIds[i] != taxAccount
    ensures LinesNet(CreationLines(INVOICE, control, taxAccount, built, dims, total, tax, currency), taxAccount) == -tax
  {
    var anchor := Posting(control, DEBIT, total, currency, "");
    var items := ItemLines(built.accountIds, built.records, dims, CREDIT, currency);
    var taxLine := Posting(taxAccount, CREDIT, tax, currency, "Sales tax");
    UntouchedNetIsZero(items, taxAccount);
    OneLineNet(anchor, taxAccount);
    OneLineNet(taxLine, taxAccount);
    LinesNetAppends([anchor], items, taxAccount);
    LinesNetAppends([anchor] + items, [taxLine], taxAccount);
    if tax == 0 {
      assert [anchor] + items + [] == [anchor] + items;
    }
  }

  /** A payment's entry balances. */
  lemma PaymentBalances(s: Desk, kind: DocKind, docId: string, req: PaymentRequest, at: string)
    requires PlanPayment(s, kind, docId, req, at).Ok?
    ensures Balanced(PlanPayment(s, kind, docId, req, at).value.command.payload.lines)
  {
    var terms := PaymentTermsOf(s, kind, docId, req).value;
    TwoLinesBalance(kind, docId, terms, req.dimensions, s.currency);
  }

  lemma TwoLinesBalance(kind: DocKind, docId: string, terms: PaymentTerms, dims: seq<(string, string)>, currency: string)
    requires terms.amount > 0
    ensures Balanced(PaymentLines(kind, docId, terms, dims, currency))
  {
    var lines := PaymentLines(kind, docId, terms, dims, currency);
    OneAdds(lines[0]);
    OneAdds(lines[1]);
    TogetherAdd([lines[0]], [lines[1]], Signed(lines[0]), Signed(lines[1]));
    assert lines == [lines[0]] + [lines[1]];
  }

  lemma {:induction false} PostingsAdd(parts: seq<Part>, side: Side, currency: string)
    requires forall i :: 0 <= i < |parts| ==> parts[i].amount > 0
    ensures AddsTo(ReversalPostings(parts, side, currency), if side == DEBIT then PartsTotal(parts) else -PartsTotal(parts))
  {
    if parts != [] {
      var n := |parts| - 1;
      assert ReversalPostings(parts, side, currency)[..n] == ReversalPostings(parts[..n], side, currency);
      PostingsAdd(parts[..n], side, currency);
    }
  }

  lemma PartsArePositive(chart: Chart, doc: Doc, amount: nat, code: string, taxCode: string, memo: string)
    requires amount > 0 && 0 <= doc.tax <= doc.total && ReversalLines(chart, doc, amount, code, taxCode, memo).Ok?
    ensures var parts := ReversalLines(chart, doc, amount, code, taxCode, memo).value;
            && parts != [] && PartsTotal(parts) == amount && forall i :: 0 <= i < |parts| ==> parts[i].amount > 0
  {
    if doc.kind == INVOICE && doc.tax > 0 {
      ShareIsWithin(amount, doc.tax, doc.total);
    }
    PartsTotalOf(ReversalLines(chart, doc, amount, code, taxCode, memo).value);
  }

  lemma {:induction false} ReversalBalances(kind: DocKind, parts: seq<Part>, anchor: AccountId, currency: string)
    requires parts != [] && PartsTotal(parts) > 0 && forall i :: 0 <= i < |parts| ==> parts[i].amount > 0
    ensures Balanced(CreditLines(kind, parts, anchor, currency))
  {
    var total := PartsTotal(parts);
    var side := if kind == INVOICE then DEBIT else CREDIT;
    var line := Posting(anchor, if kind == INVOICE then CREDIT else DEBIT, total, currency, "");
    PostingsAdd(parts, side, currency);
    OneAdds(line);
    if kind == INVOICE {
      TogetherAdd(ReversalPostings(parts, side, currency), [line], total, -total);
    } else {
      TogetherAdd([line], ReversalPostings(parts, side, currency), total, -total);
    }
  }

  /** A credit's entry balances: its parts always add up to what it takes off. */
  lemma CreditBalances(s: Desk, kind: DocKind, docId: string, req: CreditRequest, at: string)
    requires DocsFit(s.items.docs) && PlanCredit(s, kind, docId, req, at).Ok?
    ensures Balanced(PlanCredit(s, kind, docId, req, at).value.command.payload.lines)
  {
    var t := CreditTermsOf(s, kind, docId, req).value;
    CreditTermsHold(s, kind, docId, req);
    var doc := s.items.docs[(kind, docId)];
    assert DocFits((kind, docId), doc);
    PartsArePositive(s.chart, doc, t.amount, t.code, req.salesTaxCode, t.memo);
    ReversalBalances(kind, t.parts, t.anchor, s.currency);
  }

  /** And so does a refund's. */
  lemma RefundBalances(s: Desk, docId: string, req: CreditRequest, at: string)
    requires DocsFit(s.items.docs) && PlanRefund(s, docId, req, at).Ok?
    ensures Balanced(PlanRefund(s, docId, req, at).value.command.payload.lines)
  {
    var t := RefundTermsOf(s, docId, req).value;
    RefundTermsHold(s, docId, req);
    var doc := s.items.docs[(INVOICE, docId)];
    assert DocFits((INVOICE, docId), doc);
    PartsArePositive(s.chart, doc, t.amount, t.code, req.salesTaxCode, t.memo);
    ReversalBalances(INVOICE, t.parts, t.anchor, s.currency);
  }
}
