/** Invoices, bills, payments, credits and refunds over the ledger (ledger-service arap.ts). */
module ArAp {
  import opened Text
  import opened Dates
  import opened Ledger
  import opened Periods
  import opened Chart
  import opened LedgerStore
  import opened PostingEngine
  import opened Documents

  datatype ArApError =
    | NeedsId | NeedsParty | BadDate | NeedsLines | AlreadyExists | UnknownParty | UnknownDocument
    | UnknownAccountCode(code: string) | BadAmount | NotPositive | BadQuantity | BadTaxRate
    | BankNotChosen | AlreadySettled | ExceedsOpen | NothingCollected | ExceedsCollected | NoLines
    | OnControlAccount | Refused(error: PostError)

  datatype Overrides = Overrides(arCode: Option<string>, apCode: Option<string>, bankCode: Option<string>)

  datatype ControlCodes = ControlCodes(arCode: string, apCode: string, bankCode: string)

  /** None stands for a quantity, amount or rate that is not a whole number. */
  datatype LineInput = LineInput(
    description: string, quantity: Option<int>, unitAmount: Option<int>, accountCode: string,
    taxable: bool, dimensions: seq<(string, string)>)

  datatype CreateRequest = CreateRequest(
    id: string, partyId: string, date: Option<Date>, memo: string, lines: seq<LineInput>,
    accounts: Overrides, taxRatePpm: Option<int>, salesTaxCode: string)

  datatype PaymentRequest = PaymentRequest(
    id: string, date: Option<Date>, amount: Option<int>, bankCode: Option<string>, memo: Option<string>,
    dimensions: seq<(string, string)>, accounts: Overrides)

  /** `amount` is None when none is given; the inner None is text that is not an integer. */
  datatype CreditRequest = CreditRequest(
    id: string, date: Option<Date>, memo: string, amount: Option<Option<int>>, accountCode: string,
    bankCode: string, salesTaxCode: string, accounts: Overrides)

  /** What a request is planned against: the tenant, its currency, its chart and its documents. */
  datatype Desk = Desk(t: TenantId, currency: string, chart: Chart, items: Items)

  /** One tenant's whole state: its ledger beside its documents. */
  datatype State = State(t: TenantId, currency: string, books: Books, items: Items) {
    function AsDesk(): Desk { Desk(t, currency, books.chart, items) }
  }

  const DEFAULT_AR := "1200"
  const DEFAULT_AP := "2000"
  const DEFAULT_BANK := "1000"
  const DEFAULT_SALES_TAX := "2200"
  const PPM := 1_000_000

  // --- accounts ---------------------------------------------------------------------------------

  function AccountFor(chart: Chart, code: string): Result<AccountId, ArApError> {
    match FindCode(chart, code)
    case None => Err(UnknownAccountCode(code))
    case Some(a) => Ok(a.id)
  }

  function ActiveWith(chart: Chart, subtype: AccountSubtype): seq<Account> {
    if chart == [] then []
    else if chart[0].active && chart[0].subtype == Some(subtype) then [chart[0]] + ActiveWith(chart[1..], subtype)
    else ActiveWith(chart[1..], subtype)
  }

  function CodesHave(accounts: seq<Account>, code: string): bool {
    exists a :: a in accounts && a.code == code
  }

  function LowestCode(accounts: seq<Account>): string
    requires accounts != []
  {
    if |accounts| == 1 then accounts[0].code
    else
      var rest := LowestCode(accounts[1..]);
      if SortsBefore(rest, accounts[0].code) then rest else accounts[0].code
  }

  /** The code that controls: the default when it qualifies or nothing does, else the lowest that does. */
  function ControlCode(chart: Chart, subtype: AccountSubtype, fallback: string): string {
    var matching := ActiveWith(chart, subtype);
    if matching == [] || CodesHave(matching, fallback) then fallback else LowestCode(matching)
  }

  function Controls(chart: Chart, o: Overrides): ControlCodes {
    ControlCodes(o.arCode.GetOr(ControlCode(chart, ACCOUNTS_RECEIVABLE, DEFAULT_AR)),
                 o.apCode.GetOr(ControlCode(chart, ACCOUNTS_PAYABLE, DEFAULT_AP)),
                 o.bankCode.GetOr(ControlCode(chart, BANK, DEFAULT_BANK)))
  }

  function BankChosen(chart: Chart, explicit: Option<string>): bool {
    var banks := ActiveWith(chart, BANK);
    explicit.GetOr("") != "" || |banks| <= 1 || CodesHave(banks, DEFAULT_BANK)
  }

  function StatusFor(open: int, total: int): DocStatus {
    if open <= 0 then PAID else if open == total then DocStatus.OPEN else PARTIAL
  }

  function ProvenanceFor(subject: string, date: Date, at: string): Provenance {
    Provenance("rgnr8", subject, "1", IntText(date), IntText(date), at, "arap/1", "arap/1")
  }

  // --- lines ------------------------------------------------------------------------------------

  /** The resolved lines of a document: what posts, what is stored, and their total. */
  datatype Resolved = Resolved(accountIds: seq<AccountId>, records: seq<DocLine>, total: int)

  function ResolveLine(l: LineInput, chart: Chart): Result<(AccountId, DocLine), ArApError> {
    var code := Trim(l.accountCode);
    var id :- AccountFor(chart, code);
    :- Need(l.unitAmount.Some?, BadAmount);
    :- Need(l.unitAmount.value > 0, NotPositive);
    :- Need(l.quantity.Some? && l.quantity.value >= 1, BadQuantity);
    Ok((id, DocLine(l.description, l.quantity.value, l.unitAmount.value, code,
                    l.unitAmount.value * l.quantity.value, l.taxable)))
  }

  function ResolveLines(lines: seq<LineInput>, chart: Chart): (r: Result<Resolved, ArApError>)
    ensures r.Ok? ==> |r.value.accountIds| == |r.value.records| == |lines|
    ensures r.Ok? ==> forall i :: 0 <= i < |lines| ==> r.value.records[i].amount > 0
    ensures r.Ok? ==> r.value.total == RecordsTotal(r.value.records)
  {
    if lines == [] then Ok(Resolved([], [], 0))
    else
      var front :- ResolveLines(lines[..|lines| - 1], chart);
      var last :- ResolveLine(lines[|lines| - 1], chart);
      Ok(Resolved(front.accountIds + [last.0], front.records + [last.1], front.total + last.1.amount))
  }

  function RecordsTotal(records: seq<DocLine>): int {
    if records == [] then 0 else RecordsTotal(records[..|records| - 1]) + records[|records| - 1].amount
  }

  function TaxableBase(records: seq<DocLine>): int {
    if records == [] then 0
    else
      var last := records[|records| - 1];
      TaxableBase(records[..|records| - 1]) + if last.taxable then last.amount else 0
  }

  /** `buildLines`: one pass resolving, totalling and recording each line. */
  method BuildLines(lines: seq<LineInput>, chart: Chart) returns (r: Result<Resolved, ArApError>)
    ensures r == ResolveLines(lines, chart)
  {
    var ids: seq<AccountId> := [];
    var records: seq<DocLine> := [];
    var total := 0;
    for i := 0 to |lines|
      invariant ResolveLines(lines[..i], chart).Ok?
      invariant var front := ResolveLines(lines[..i], chart).value;
                ids == front.accountIds && records == front.records && total == front.total
    {
      NextLine(lines, chart, i);
      var line := ResolveLine(lines[i], chart);
      if line.Err? {
        LaterLinesKeepTheError(lines, chart, i + 1);
        return Err(line.error);
      }
      total := total + line.value.1.amount;
      ids := ids + [line.value.0];
      records := records + [line.value.1];
    }
    assert lines[..|lines|] == lines;
    return Ok(Resolved(ids, records, total));
  }

  lemma NextLine(lines: seq<LineInput>, chart: Chart, i: nat)
    requires i < |lines| && ResolveLines(lines[..i], chart).Ok?
    ensures var front, line := ResolveLines(lines[..i], chart).value, ResolveLine(lines[i], chart);
            ResolveLines(lines[..i + 1], chart) ==
            if line.Err? then Err(line.error)
            else Ok(Resolved(front.accountIds + [line.value.0], front.records + [line.value.1],
                             front.total + line.value.1.amount))
  {
    assert lines[..i + 1][..i] == lines[..i];
  }

  lemma {:induction false} LaterLinesKeepTheError(lines: seq<LineInput>, chart: Chart, n: nat)
    requires n <= |lines| && ResolveLines(lines[..n], chart).Err?
    ensures ResolveLines(lines, chart) == ResolveLines(lines[..n], chart)
    decreases |lines| - n
  {
    if n == |lines| {
      assert lines[..n] == lines;
    } else {
      assert lines[..n + 1][..n] == lines[..n];
      LaterLinesKeepTheError(lines, chart, n + 1);
    }
  }

  function Posting(a: AccountId, side: Side, amount: int, currency: string, memo: string): Line {
    Line(a, side, amount, currency, memo, [])
  }

  /** The item lines of a document, on the side opposite its anchor. */
  function ItemLines(ids: seq<AccountId>, records: seq<DocLine>, dims: seq<seq<(string, string)>>, side: Side,
                     currency: string): (lines: seq<Line>)
    requires |ids| == |records| == |dims|
    ensures |lines| == |ids|
    ensures forall i :: 0 <= i < |lines| ==>
              lines[i] == Line(ids[i], side, records[i].amount, currency, records[i].description, dims[i])
  {
    seq(|ids|, i requires 0 <= i < |ids| => Line(ids[i], side, records[i].amount, currency, records[i].description, dims[i]))
  }

  /** Sales tax on a base, in parts per million, rounded half up. */
  function TaxOn(base: nat, ratePpm: nat): nat {
    (base * ratePpm + PPM / 2) / PPM
  }

  function TaxRateOf(ratePpm: Option<int>): Result<nat, ArApError> {
    if ratePpm.None? || ratePpm.value < 0 || ratePpm.value > PPM then Err(BadTaxRate) else Ok(ratePpm.value)
  }

  function KindText(kind: DocKind): string {
    if kind == INVOICE then "invoice" else "bill"
  }

  /** The control account of a document's kind. */
  function ControlFor(chart: Chart, kind: DocKind, controls: ControlCodes): Result<AccountId, ArApError> {
    AccountFor(chart, if kind == INVOICE then controls.arCode else controls.apCode)
  }

  // --- plans --------------------------------------------------------------------------------------

  /** What an accepted request will do: post one command, then write one document and perhaps a payment. */
  datatype Plan = Plan(command: Command, key: (DocKind, string), doc: Doc, payment: Option<Payment>)

  function DimensionsOf(lines: seq<LineInput>): (dims: seq<seq<(string, string)>>)
    ensures |dims| == |lines|
  {
    seq(|lines|, i requires 0 <= i < |lines| => lines[i].dimensions)
  }

  /** Dr AR / Cr each line / Cr tax for an invoice; Dr each line / Cr AP for a bill. */
  function CreationLines(kind: DocKind, control: AccountId, taxAccount: AccountId, built: Resolved,
                         dims: seq<seq<(string, string)>>, total: int, tax: int, currency: string): seq<Line>
    requires |built.accountIds| == |built.records| == |dims|
  {
    var side := if kind == INVOICE then CREDIT else DEBIT;
    var items := ItemLines(built.accountIds, built.records, dims, side, currency);
    var taxLines := if tax != 0 then [Posting(taxAccount, CREDIT, tax, currency, "Sales tax")] else [];
    if kind == INVOICE then [Posting(control, DEBIT, total, currency, "")] + items + taxLines
    else items + [Posting(control, CREDIT, total, currency, "")]
  }

  /** The accounts, rate and lines a creation request resolves to. */
  datatype Terms = Terms(control: AccountId, taxAccount: AccountId, rate: nat, built: Resolved)

  function TermsOf(s: Desk, kind: DocKind, req: CreateRequest, resolved: Result<Resolved, ArApError>): Result<Terms, ArApError> {
    var chart := s.chart;
    :- Need(Trim(req.id) != "", NeedsId);
    :- Need(Trim(req.partyId) != "", NeedsParty);
    :- Need(req.date.Some?, BadDate);
    :- Need(req.lines != [], NeedsLines);
    :- Need((kind, req.id) !in s.items.docs, AlreadyExists);
    :- Need((if kind == INVOICE then CUSTOMER else VENDOR, req.partyId) in s.items.parties, UnknownParty);
    var built :- resolved;
    var rate :- if kind == INVOICE then TaxRateOf(req.taxRatePpm) else Ok(0);
    var taxCode := if Trim(req.salesTaxCode) != "" then Trim(req.salesTaxCode) else DEFAULT_SALES_TAX;
    var control :- ControlFor(chart, kind, Controls(chart, req.accounts));
    var taxAccount :- if rate > 0 then AccountFor(chart, taxCode) else Ok(control);
    Ok(Terms(control, taxAccount, rate, built))
  }

  function PlanOnTerms(s: Desk, kind: DocKind, req: CreateRequest, date: Date, terms: Terms, at: string): Plan
    requires |terms.built.accountIds| == |terms.built.records| == |req.lines|
    requires TaxableBase(terms.built.records) >= 0
  {
    var tax := TaxOn(TaxableBase(terms.built.records), terms.rate);
    var total := terms.built.total + tax;
    var lines := CreationLines(kind, terms.control, terms.taxAccount, terms.built, DimensionsOf(req.lines), total, tax, s.currency);
    var subject := KindText(kind);
    var payload := Payload(s.currency, MonthOf(date), date, req.memo, ProvenanceFor(subject, date, at), lines);
    Plan(Command(s.t, subject + ":" + req.id, payload), (kind, req.id),
         Doc(req.id, kind, req.partyId, date, terms.built.total, tax, terms.rate, total, total, DocStatus.OPEN,
             req.memo, terms.built.records),
         None)
  }

  function PlanCreate(s: Desk, kind: DocKind, req: CreateRequest, resolved: Result<Resolved, ArApError>, at: string)
    : Result<Plan, ArApError>
    requires resolved == ResolveLines(req.lines, s.chart)
  {
    var terms :- TermsOf(s, kind, req, resolved);
    BaseIsNatural(terms.built.records);
    Ok(PlanOnTerms(s, kind, req, req.date.value, terms, at))
  }

  lemma {:induction false} BaseIsNatural(records: seq<DocLine>)
    requires forall i :: 0 <= i < |records| ==> records[i].amount > 0
    ensures 0 <= TaxableBase(records) <= RecordsTotal(records)
  {
    if records != [] {
      BaseIsNatural(records[..|records| - 1]);
    }
  }

  /** What a payment resolves to: how much, through which bank account, against which control account. */
  datatype PaymentTerms = PaymentTerms(amount: int, bank: AccountId, bankCode: string, control: AccountId, paymentId: string)

  /** The bank code a payment resolves to. */
  function PaymentBank(chart: Chart, req: PaymentRequest): string {
    var bankCode := if req.bankCode.GetOr("") != "" then req.bankCode else req.accounts.bankCode;
    Controls(chart, req.accounts.(bankCode := bankCode)).bankCode
  }

  function PaymentIdOf(s: Desk, kind: DocKind, docId: string, req: PaymentRequest): string {
    if Trim(req.id) != "" then Trim(req.id) else docId + "-p" + NatText(|PaymentsOn(s.items, kind, docId)| + 1)
  }

  function PaymentTermsOf(s: Desk, kind: DocKind, docId: string, req: PaymentRequest): Result<PaymentTerms, ArApError> {
    var chart := s.chart;
    :- Need(req.date.Some?, BadDate);
    :- Need((kind, docId) in s.items.docs, UnknownDocument);
    var doc := s.items.docs[(kind, docId)];
    :- Need(req.amount.Some?, BadAmount);
    :- Need(req.amount.value > 0, NotPositive);
    :- Need(doc.open > 0, AlreadySettled);
    :- Need(req.amount.value <= doc.open, ExceedsOpen);
    :- Need(BankChosen(chart, if req.bankCode.Some? then req.bankCode else req.accounts.bankCode), BankNotChosen);
    var bankCode := PaymentBank(chart, req);
    var bank :- AccountFor(chart, bankCode);
    var control :- ControlFor(chart, kind, Controls(chart, req.accounts));
    Ok(PaymentTerms(req.amount.value, bank, bankCode, control, PaymentIdOf(s, kind, docId, req)))
  }

  /** Dr bank / Cr AR to collect an invoice; Dr AP / Cr bank to pay a bill. */
  function PaymentLines(kind: DocKind, docId: string, terms: PaymentTerms, dims: seq<(string, string)>, currency: string): seq<Line> {
    var memo := if kind == INVOICE then "Payment on " + docId else "Payment of " + docId;
    var cash := Line(terms.bank, if kind == INVOICE then DEBIT else CREDIT, terms.amount, currency, memo, dims);
    var relief := Posting(terms.control, if kind == INVOICE then CREDIT else DEBIT, terms.amount, currency, memo);
    if kind == INVOICE then [cash, relief] else [relief, cash]
  }

  function PaymentOnTerms(s: Desk, kind: DocKind, docId: string, doc: Doc, req: PaymentRequest, date: Date,
                          terms: PaymentTerms, at: string): Plan
  {
    var lines := PaymentLines(kind, docId, terms, req.dimensions, s.currency);
    var fallback := if kind == INVOICE then "Payment received on " + docId else "Payment of " + docId;
    var payload := Payload(s.currency, MonthOf(date), date, req.memo.GetOr(fallback),
                           ProvenanceFor(KindText(kind) + ".payment", date, at), lines);
    var open := doc.open - terms.amount;
    Plan(Command(s.t, KindText(kind) + "pay:" + terms.paymentId, payload), (kind, docId),
         doc.(open := open, status := StatusFor(open, doc.total)),
         Some(Payment(terms.paymentId, kind, docId, date, terms.amount, terms.bankCode)))
  }

  function PlanPayment(s: Desk, kind: DocKind, docId: string, req: PaymentRequest, at: string): Result<Plan, ArApError> {
    var terms :- PaymentTermsOf(s, kind, docId, req);
    Ok(PaymentOnTerms(s, kind, docId, s.items.docs[(kind, docId)], req, req.date.value, terms, at))
  }

  /** The document's biggest line, the first of equals. */
  function BiggestLine(lines: seq<DocLine>): DocLine
    requires lines != []
  {
    if |lines| == 1 then lines[0]
    else
      var best := BiggestLine(lines[..|lines| - 1]);
      if lines[|lines| - 1].amount > best.amount then lines[|lines| - 1] else best
  }

  function PrimaryAccountOf(doc: Doc, override: string): Result<string, ArApError> {
    if Trim(override) != "" then Ok(Trim(override))
    else if doc.lines == [] then Err(NoLines)
    else Ok(BiggestLine(doc.lines).accountCode)
  }

  predicate IsControl(chart: Chart, code: string) {
    var a := FindCode(chart, code);
    a.Some? && (a.value.subtype == Some(ACCOUNTS_RECEIVABLE) || a.value.subtype == Some(ACCOUNTS_PAYABLE))
  }

  /** The tax share of a partial credit of a taxed document. */
  function TaxPortion(amount: nat, tax: nat, total: nat): nat
    requires total > 0
  {
    amount * tax / total
  }

  /** One line a credit or refund reverses. */
  datatype Part = Part(accountId: AccountId, amount: int, memo: string)

  const TAX_SUFFIX := " \U{2014} sales tax"

  /** The lines a credit or refund reverses, the tax share carved out to the tax account. */
  function ReversalLines(chart: Chart, doc: Doc, amount: nat, accountCode: string, taxCodeAsked: string, memo: string)
    : Result<seq<Part>, ArApError>
  {
    var revenue :- AccountFor(chart, accountCode);
    if doc.kind != INVOICE || doc.tax <= 0 || doc.total <= 0 then Ok([Part(revenue, amount, memo)])
    else
      var taxPortion := TaxPortion(amount, doc.tax, doc.total);
      var netPortion := amount - taxPortion;
      var taxAccount :- AccountFor(chart, if Trim(taxCodeAsked) != "" then Trim(taxCodeAsked) else DEFAULT_SALES_TAX);
      Ok((if netPortion > 0 then [Part(revenue, netPortion, memo)] else [])
       + (if taxPortion > 0 then [Part(taxAccount, taxPortion, memo + TAX_SUFFIX)] else []))
  }

  function ReversalPostings(parts: seq<Part>, side: Side, currency: string): (lines: seq<Line>)
    ensures |lines| == |parts|
    ensures forall i :: 0 <= i < |parts| ==> lines[i] == Posting(parts[i].accountId, side, parts[i].amount, currency, parts[i].memo)
  {
    seq(|parts|, i requires 0 <= i < |parts| => Posting(parts[i].accountId, side, parts[i].amount, currency, parts[i].memo))
  }

  function PartsTotal(parts: seq<Part>): int {
    if parts == [] then 0 else PartsTotal(parts[..|parts| - 1]) + parts[|parts| - 1].amount
  }

  /** Dr each part / Cr AR (or the bank) for an invoice; Dr AP / Cr each part for a bill. */
  function CreditLines(kind: DocKind, parts: seq<Part>, control: AccountId, currency: string): seq<Line> {
    if kind == INVOICE then ReversalPostings(parts, DEBIT, currency) + [Posting(control, CREDIT, PartsTotal(parts), currency, "")]
    else [Posting(control, DEBIT, PartsTotal(parts), currency, "")] + ReversalPostings(parts, CREDIT, currency)
  }

  /** What a credit or refund resolves to: how much, and the lines that takes back. */
  datatype CreditTerms = CreditTerms(amount: nat, code: string, parts: seq<Part>, anchor: AccountId, memo: string, id: string)

  function MemoOf(asked: string, fallback: string): string {
    if Trim(asked) != "" then Trim(asked) else fallback
  }

  function CreditTermsOf(s: Desk, kind: DocKind, docId: string, req: CreditRequest): Result<CreditTerms, ArApError> {
    var chart := s.chart;
    :- Need(req.date.Some?, BadDate);
    :- Need((kind, docId) in s.items.docs, UnknownDocument);
    var doc := s.items.docs[(kind, docId)];
    :- Need(doc.open > 0, AlreadySettled);
    :- Need(req.amount.Some? ==> req.amount.value.Some?, BadAmount);
    :- Need(req.amount.Some? ==> req.amount.value.value > 0, NotPositive);
    var amount := if req.amount.None? then doc.open else req.amount.value.value;
    :- Need(amount <= doc.open, ExceedsOpen);
    var accountCode :- PrimaryAccountOf(doc, req.accountCode);
    :- Need(!IsControl(chart, accountCode), OnControlAccount);
    var memo := MemoOf(req.memo, "Credit against " + docId);
    var parts :- ReversalLines(chart, doc, amount, accountCode, req.salesTaxCode, memo);
    var control :- ControlFor(chart, kind, Controls(chart, req.accounts));
    Ok(CreditTerms(amount, accountCode, parts, control, memo, MemoOf(req.id, "CM-" + docId + "-" + IntText(req.date.value))))
  }

  function CreditOnTerms(s: Desk, kind: DocKind, docId: string, doc: Doc, date: Date, terms: CreditTerms, at: string): Plan {
    var lines := CreditLines(kind, terms.parts, terms.anchor, s.currency);
    var subject := if kind == INVOICE then "credit-memo" else "vendor-credit";
    var payload := Payload(s.currency, MonthOf(date), date, terms.memo, ProvenanceFor(subject, date, at), lines);
    var open := doc.open - terms.amount;
    Plan(Command(s.t, (if kind == INVOICE then "creditmemo:" else "vendorcredit:") + terms.id, payload), (kind, docId),
         doc.(open := open, status := StatusFor(open, doc.total)), None)
  }

  function PlanCredit(s: Desk, kind: DocKind, docId: string, req: CreditRequest, at: string): Result<Plan, ArApError> {
    var terms :- CreditTermsOf(s, kind, docId, req);
    Ok(CreditOnTerms(s, kind, docId, s.items.docs[(kind, docId)], req.date.value, terms, at))
  }

  /** The bank code a refund resolves to. */
  function RefundBank(chart: Chart, req: CreditRequest): string {
    if Trim(req.bankCode) != "" then Trim(req.bankCode) else Controls(chart, req.accounts).bankCode
  }

  function RefundTermsOf(s: Desk, docId: string, req: CreditRequest): Result<CreditTerms, ArApError> {
    var chart := s.chart;
    :- Need(req.date.Some?, BadDate);
    :- Need((INVOICE, docId) in s.items.docs, UnknownDocument);
    var doc := s.items.docs[(INVOICE, docId)];
    var paid := doc.total - doc.open;
    :- Need(paid > 0, NothingCollected);
    :- Need(req.amount.Some? ==> req.amount.value.Some?, BadAmount);
    var amount := if req.amount.None? then paid else req.amount.value.value;
    :- Need(amount > 0, NotPositive);
    :- Need(amount <= paid, ExceedsCollected);
    :- Need(BankChosen(chart, if Trim(req.bankCode) != "" then Some(Trim(req.bankCode)) else req.accounts.bankCode),
            BankNotChosen);
    var accountCode :- PrimaryAccountOf(doc, req.accountCode);
    :- Need(!IsControl(chart, accountCode), OnControlAccount);
    var memo := MemoOf(req.memo, "Refund of " + docId);
    var parts :- ReversalLines(chart, doc, amount, accountCode, req.salesTaxCode, memo);
    var bank :- AccountFor(chart, RefundBank(chart, req));
    Ok(CreditTerms(amount, accountCode, parts, bank, memo, MemoOf(req.id, "RF-" + docId + "-" + IntText(req.date.value))))
  }

  function PlanRefund(s: Desk, docId: string, req: CreditRequest, at: string): Result<Plan, ArApError> {
    var terms :- RefundTermsOf(s, docId, req);
    var date := req.date.value;
    var lines := CreditLines(INVOICE, terms.parts, terms.anchor, s.currency);
    var payload := Payload(s.currency, MonthOf(date), date, terms.memo, ProvenanceFor("refund", date, at), lines);
    Ok(Plan(Command(s.t, "refund:" + terms.id, payload), (INVOICE, docId), s.items.docs[(INVOICE, docId)], None))
  }

  // --- carrying a plan out --------------------------------------------------------------------------

  function WithPayment(items: Items, payment: Option<Payment>): Items {
    match payment
    case None => items
    case Some(p) => items.(payments := items.payments[(p.kind, p.id) := p])
  }

  /** Post, and only when that succeeds write the document and the payment. */
  function Execute(s: State, plan: Plan, at: string): (State, Result<Doc, ArApError>) {
    var (books, posted) := PostTo(s.books, plan.command, at);
    match posted
    case Err(e) => (s, Err(Refused(e)))
    case Ok(_) =>
      var items := WithPayment(s.items.(docs := s.items.docs[plan.key := plan.doc]), plan.payment);
      (s.(books := books, items := items), Ok(plan.doc))
  }

  /** A plan carried out, in terms of what its posting came to. */
  lemma Executed(s: State, plan: Plan, at: string, books: Books, posted: Result<Entry, PostError>)
    requires PostTo(s.books, plan.command, at) == (books, posted)
    ensures posted.Err? ==> books == s.books && Execute(s, plan, at) == (s, Err(Refused(posted.error)))
    ensures var items := WithPayment(s.items.(docs := s.items.docs[plan.key := plan.doc]), plan.payment);
            posted.Ok? ==> Execute(s, plan, at) == (s.(books := books, items := items), Ok(plan.doc))
  {
  }

  lemma SameDocSameItems(s: State, plan: Plan, at: string)
    requires plan.key in s.items.docs && plan.doc == s.items.docs[plan.key] && plan.payment.None?
    requires PostTo(s.books, plan.command, at).1.Ok?
    ensures Execute(s, plan, at) == (s.(books := PostTo(s.books, plan.command, at).0), Ok(plan.doc))
  {
    assert s.items.docs[plan.key := plan.doc] == s.items.docs;
  }

  function Carry(s: State, plan: Result<Plan, ArApError>, at: string): (State, Result<Doc, ArApError>) {
    match plan
    case Err(e) => (s, Err(e))
    case Ok(p) => Execute(s, p, at)
  }

  function CreationPlan(s: Desk, kind: DocKind, req: CreateRequest, at: string): Result<Plan, ArApError> {
    PlanCreate(s, kind, req, ResolveLines(req.lines, s.chart), at)
  }

  /** The service over its stores: each request is planned, posted, and only then written to the documents. */
  class ArApService {
    const engine: Engine
    const docs: InMemoryDocumentStore
    const currency: string

    constructor (engine: Engine, docs: InMemoryDocumentStore, currency: string)
      ensures this.engine == engine && this.docs == docs && this.currency == currency
    {
      this.engine, this.docs, this.currency := engine, docs, currency;
    }

    ghost predicate Valid()
      reads this, engine, engine.coa, engine.store
    {
      engine.Valid()
    }

    ghost function View(t: TenantId): State
      requires Valid()
      reads this, engine, engine.coa, engine.store, engine.periods, docs
    {
      State(t, currency, engine.View(t), docs.View(t))
    }

    /** Raise: post, then save the new document. */
    method Raise(t: TenantId, plan: Result<Plan, ArApError>, at: string) returns (r: Result<Doc, ArApError>)
      requires Valid()
      requires plan.Ok? ==> var p := plan.value;
        p.command.tenantId == t && p.key == (p.doc.kind, p.doc.id) && p.payment.None?
      modifies engine.store, docs
      ensures Valid()
      ensures (View(t), r) == Carry(old(View(t)), plan, at)
      ensures forall u :: u != t ==> View(u) == old(View(u))
    {
      if plan.Err? {
        return Err(plan.error);
      }
      var posted := engine.Post(plan.value.command, at);
      Executed(old(View(t)), plan.value, at, engine.View(t), posted);
      if posted.Err? {
        return Err(Refused(posted.error));
      }
      docs.SaveDoc(t, plan.value.doc);
      return Ok(plan.value.doc);
    }

    /** Settle: post, then reduce what is open and record the payment, if there is one. */
    method Settle(t: TenantId, plan: Result<Plan, ArApError>, at: string) returns (r: Result<Doc, ArApError>)
      requires Valid()
      requires plan.Ok? ==> var p := plan.value;
        p.command.tenantId == t && p.key in docs.View(t).docs
        && p.doc == docs.View(t).docs[p.key].(open := p.doc.open, status := p.doc.status)
      modifies engine.store, docs
      ensures Valid()
      ensures (View(t), r) == Carry(old(View(t)), plan, at)
      ensures forall u :: u != t ==> View(u) == old(View(u))
    {
      if plan.Err? {
        return Err(plan.error);
      }
      var posted := engine.Post(plan.value.command, at);
      Executed(old(View(t)), plan.value, at, engine.View(t), posted);
      if posted.Err? {
        return Err(Refused(posted.error));
      }
      var p := plan.value;
      docs.SetOpen(t, p.key.0, p.key.1, p.doc.open, p.doc.status);
      if p.payment.Some? {
        docs.AddPayment(t, p.payment.value);
      }
      return Ok(p.doc);
    }

    /** Post and leave the document as it is. */
    method PostOnly(t: TenantId, plan: Result<Plan, ArApError>, at: string) returns (r: Result<Doc, ArApError>)
      requires Valid()
      requires plan.Ok? ==> var p := plan.value;
        p.command.tenantId == t && p.key in docs.View(t).docs && p.doc == docs.View(t).docs[p.key] && p.payment.None?
      modifies engine.store
      ensures Valid()
      ensures (View(t), r) == Carry(old(View(t)), plan, at)
      ensures forall u :: u != t ==> View(u) == old(View(u))
    {
      if plan.Err? {
        return Err(plan.error);
      }
      var posted := engine.Post(plan.value.command, at);
      Executed(old(View(t)), plan.value, at, engine.View(t), posted);
      if posted.Err? {
        return Err(Refused(posted.error));
      }
      SameDocSameItems(old(View(t)), plan.value, at);
      return Ok(plan.value.doc);
    }

    method CreateDocument(t: TenantId, kind: DocKind, req: CreateRequest, at: string)
      returns (r: Result<Doc, ArApError>)
      requires Valid()
      modifies engine.store, docs
      ensures Valid()
      ensures (View(t), r) == Carry(old(View(t)), CreationPlan(old(View(t)).AsDesk(), kind, req, at), at)
      ensures forall u :: u != t ==> View(u) == old(View(u))
    {
      var resolved := BuildLines(req.lines, engine.coa.List());
      var plan := PlanCreate(Desk(t, currency, engine.coa.List(), docs.View(t)), kind, req, resolved, at);
      r := Raise(t, plan, at);
    }

    method RecordPayment(t: TenantId, kind: DocKind, docId: string, req: PaymentRequest, at: string)
      returns (r: Result<Doc, ArApError>)
      requires Valid()
      modifies engine.store, docs
      ensures Valid()
      ensures (View(t), r) == Carry(old(View(t)), PlanPayment(old(View(t)).AsDesk(), kind, docId, req, at), at)
      ensures forall u :: u != t ==> View(u) == old(View(u))
    {
      var plan := PlanPayment(Desk(t, currency, engine.coa.List(), docs.View(t)), kind, docId, req, at);
      r := Settle(t, plan, at);
    }

    method IssueCredit(t: TenantId, kind: DocKind, docId: string, req: CreditRequest, at: string)
      returns (r: Result<Doc, ArApError>)
      requires Valid()
      modifies engine.store, docs
      ensures Valid()
      ensures (View(t), r) == Carry(old(View(t)), PlanCredit(old(View(t)).AsDesk(), kind, docId, req, at), at)
      ensures forall u :: u != t ==> View(u) == old(View(u))
    {
      var plan := PlanCredit(Desk(t, currency, engine.coa.List(), docs.View(t)), kind, docId, req, at);
      r := Settle(t, plan, at);
    }

    method IssueRefund(t: TenantId, docId: string, req: CreditRequest, at: string)
      returns (r: Result<Doc, ArApError>)
      requires Valid()
      modifies engine.store
      ensures Valid()
      ensures (View(t), r) == Carry(old(View(t)), PlanRefund(old(View(t)).AsDesk(), docId, req, at), at)
      ensures forall u :: u != t ==> View(u) == old(View(u))
    {
      var plan := PlanRefund(Desk(t, currency, engine.coa.List(), docs.View(t)), docId, req, at);
      r := PostOnly(t, plan, at);
    }
  }
}
