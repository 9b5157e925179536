/** What each AR/AP request is accepted for, and what it charges, posts and records (arap.ts, subledger tax.ts). */
module ArApAmounts {
  import opened Text
  import opened Dates
  import opened Ledger
  import opened Chart
  import opened LedgerStore
  import opened PostingEngine
  import opened Documents
  import opened ArAp
  import opened ArApRuns
  import ArApEntries
  import ArApControls
  import PostingEffects

  // --- what a creation charges --------------------------------------------------------------------

  /** A line's price, as the request states it. */
  function Price(l: LineInput): int {
    l.unitAmount.GetOr(0) * l.quantity.GetOr(0)
  }

  /** The prices of all lines. */
  function Priced(lines: seq<LineInput>): int {
    if lines == [] then 0 else Price(lines[0]) + Priced(lines[1..])
  }

  /** The prices of the lines marked taxable, and of no other. */
  function PricedTaxable(lines: seq<LineInput>): int {
    if lines == [] then 0 else (if lines[0].taxable then Price(lines[0]) else 0) + PricedTaxable(lines[1..])
  }

  lemma {:induction false} PricesAppend(a: seq<LineInput>, l: LineInput)
    ensures Priced(a + [l]) == Priced(a) + Price(l)
    ensures PricedTaxable(a + [l]) == PricedTaxable(a) + if l.taxable then Price(l) else 0
  {
    if a == [] {
      assert a + [l] == [l];
    } else {
      assert (a + [l])[1..] == a[1..] + [l];
      PricesAppend(a[1..], l);
    }
  }

  /** A record holds its line as asked for. */
  ghost predicate RecordsLine(r: DocLine, l: LineInput) {
    && r.accountCode == Trim(l.accountCode) && r.amount == Price(l) > 0
    && r.description == l.description && r.taxable == l.taxable
    && Some(r.quantity) == l.quantity && Some(r.unitAmount) == l.unitAmount
  }

  lemma LastResolved(lines: seq<LineInput>, chart: Chart)
    requires lines != [] && ResolveLines(lines, chart).Ok?
    ensures var records := ResolveLines(lines, chart).value.records;
            && ResolveLines(lines[..|lines| - 1], chart).Ok? && |records| == |lines|
            && records[..|records| - 1] == ResolveLines(lines[..|lines| - 1], chart).value.records
            && RecordsLine(records[|records| - 1], lines[|lines| - 1])
  {
    var front, last := ResolveLines(lines[..|lines| - 1], chart).value, ResolveLine(lines[|lines| - 1], chart).value;
    assert ResolveLines(lines, chart).value.records == front.records + [last.1];
  }

  lemma {:induction false} ResolvedPrices(lines: seq<LineInput>, chart: Chart)
    requires ResolveLines(lines, chart).Ok?
    ensures var records := ResolveLines(lines, chart).value.records;
            RecordsTotal(records) == Priced(lines) && TaxableBase(records) == PricedTaxable(lines)
  {
    if lines != [] {
      var front, last := lines[..|lines| - 1], lines[|lines| - 1];
      LastResolved(lines, chart);
      ResolvedPrices(front, chart);
      PricesAppend(front, last);
      assert lines == front + [last];
      LastTotals(ResolveLines(lines, chart).value.records);
    }
  }

  lemma {:induction false} LinesAreRecorded(lines: seq<LineInput>, chart: Chart)
    requires ResolveLines(lines, chart).Ok?
    ensures var records := ResolveLines(lines, chart).value.records;
            |records| == |lines| && forall i :: 0 <= i < |lines| ==> RecordsLine(records[i], lines[i])
  {
    if lines != [] {
      var front := lines[..|lines| - 1];
      LastResolved(lines, chart);
      LinesAreRecorded(front, chart);
      LastIsRecordedToo(ResolveLines(front, chart).value.records, ResolveLines(lines, chart).value.records, lines);
    }
  }

  lemma LastIsRecordedToo(front: seq<DocLine>, records: seq<DocLine>, lines: seq<LineInput>)
    requires |records| == |lines| == |front| + 1 && records[..|front|] == front
    requires forall i :: 0 <= i < |front| ==> RecordsLine(front[i], lines[..|front|][i])
    requires RecordsLine(records[|front|], lines[|front|])
    ensures forall i :: 0 <= i < |lines| ==> RecordsLine(records[i], lines[i])
  {
    assert forall i :: 0 <= i < |front| ==> records[i] == front[i] && lines[..|front|][i] == lines[i];
  }

  lemma LastTotals(records: seq<DocLine>)
    requires records != []
    ensures var front, last := records[..|records| - 1], records[|records| - 1];
            && RecordsTotal(records) == RecordsTotal(front) + last.amount
            && TaxableBase(records) == TaxableBase(front) + if last.taxable then last.amount else 0
  {
  }

  lemma TaxIsRounded(base: nat, rate: nat)
    ensures -500_000 < TaxOn(base, rate) * 1_000_000 - base * rate <= 500_000
  {
    var x := base * rate;
    assert TaxOn(base, rate) == (x + 500_000) / 1_000_000;
  }

  /**
   * An accepted invoice is taxed at its rate on the prices of exactly its taxable lines, to the nearest minor
   * unit with halves up; its net is all its prices, and all of net and tax is open. A bill carries no tax.
   */
  lemma CreationCharges(s: Desk, kind: DocKind, req: CreateRequest, at: string)
    requires CreationPlan(s, kind, req, at).Ok?
    ensures var doc := CreationPlan(s, kind, req, at).value.doc;
            && (kind == INVOICE ==>
                  && req.taxRatePpm.Some? && 0 <= req.taxRatePpm.value <= 1_000_000
                  && -500_000 < doc.tax * 1_000_000 - PricedTaxable(req.lines) * req.taxRatePpm.value <= 500_000)
            && (kind == BILL ==> doc.tax == 0)
            && doc.net == Priced(req.lines) && doc.total == doc.open == doc.net + doc.tax && doc.status == DocStatus.OPEN
            && doc.kind == kind && doc.id == req.id && doc.partyId == req.partyId && Some(doc.date) == req.date
            && doc.memo == req.memo && |doc.lines| == |req.lines|
            && forall i :: 0 <= i < |req.lines| ==> RecordsLine(doc.lines[i], req.lines[i])
  {
    var resolved := ResolveLines(req.lines, s.chart);
    var terms := TermsOf(s, kind, req, resolved).value;
    ResolvedPrices(req.lines, s.chart);
    LinesAreRecorded(req.lines, s.chart);
    TermsRate(s, kind, req, resolved);
    BaseIsNatural(terms.built.records);
    PlannedOnTerms(s, kind, req, terms, at);
    TaxIsRounded(TaxableBase(terms.built.records), terms.rate);
    NoRateNoTax(TaxableBase(terms.built.records));
  }

  lemma TermsRate(s: Desk, kind: DocKind, req: CreateRequest, resolved: Result<Resolved, ArApError>)
    requires TermsOf(s, kind, req, resolved).Ok?
    ensures var terms := TermsOf(s, kind, req, resolved).value;
            && resolved == Ok(terms.built) && req.date.Some?
            && (kind == BILL ==> terms.rate == 0)
            && (kind == INVOICE ==> req.taxRatePpm == Some(terms.rate) && 0 <= terms.rate <= 1_000_000)
  {
  }

  // --- when a creation is planned ---------------------------------------------------------------------

  predicate LineIsRight(chart: Chart, l: LineInput) {
    && AccountFor(chart, Trim(l.accountCode)).Ok?
    && l.unitAmount.Some? && l.unitAmount.value > 0 && l.quantity.Some? && l.quantity.value >= 1
  }

  predicate LinesAreRight(chart: Chart, lines: seq<LineInput>) {
    forall i :: 0 <= i < |lines| ==> LineIsRight(chart, lines[i])
  }

  /** What a request for an invoice or bill must meet to be planned. */
  predicate MayCreate(s: Desk, kind: DocKind, req: CreateRequest) {
    && Trim(req.id) != "" && Trim(req.partyId) != "" && req.date.Some? && (kind, req.id) !in s.items.docs
    && (if kind == INVOICE then CUSTOMER else VENDOR, req.partyId) in s.items.parties
    && req.lines != [] && LinesAreRight(s.chart, req.lines)
    && ControlFor(s.chart, kind, Controls(s.chart, req.accounts)).Ok?
    && (kind == INVOICE ==>
          && req.taxRatePpm.Some? && 0 <= req.taxRatePpm.value <= 1_000_000
          && (req.taxRatePpm.value > 0 ==> AccountFor(s.chart, TaxCodeOf(req.salesTaxCode)).Ok?))
  }

  /** An invoice or bill is planned exactly when its request is in order; one bad line anywhere refuses it. */
  lemma CreationIsPlannedIff(s: Desk, kind: DocKind, req: CreateRequest, at: string)
    ensures CreationPlan(s, kind, req, at).Ok? <==> MayCreate(s, kind, req)
  {
    LinesResolveIff(req.lines, s.chart);
    TermsIff(s, kind, req, ResolveLines(req.lines, s.chart));
  }

  lemma TermsIff(s: Desk, kind: DocKind, req: CreateRequest, resolved: Result<Resolved, ArApError>)
    requires resolved.Ok? <==> LinesAreRight(s.chart, req.lines)
    ensures TermsOf(s, kind, req, resolved).Ok? <==> MayCreate(s, kind, req)
  {
  }

  lemma {:induction false} LinesResolveIff(lines: seq<LineInput>, chart: Chart)
    ensures ResolveLines(lines, chart).Ok? <==> LinesAreRight(chart, lines)
  {
    if lines != [] {
      LinesResolveIff(lines[..|lines| - 1], chart);
      LineResolvesIff(lines[|lines| - 1], chart);
      LastLineToo(chart, lines);
    }
  }

  lemma LineResolvesIff(l: LineInput, chart: Chart)
    ensures ResolveLine(l, chart).Ok? <==> LineIsRight(chart, l)
  {
  }

  lemma LastLineToo(chart: Chart, lines: seq<LineInput>)
    requires lines != []
    ensures LinesAreRight(chart, lines) <==>
            LinesAreRight(chart, lines[..|lines| - 1]) && LineIsRight(chart, lines[|lines| - 1])
  {
    var front := lines[..|lines| - 1];
    assert forall i :: 0 <= i < |front| ==> front[i] == lines[i];
  }

  // --- where a creation posts -----------------------------------------------------------------------

  /** The prices of the lines whose code names this account. */
  function PricedOn(chart: Chart, lines: seq<LineInput>, a: AccountId): int {
    if lines == [] then 0
    else
      var last := lines[|lines| - 1];
      PricedOn(chart, lines[..|lines| - 1], a) + if AccountFor(chart, Trim(last.accountCode)) == Ok(a) then Price(last) else 0
  }

  /** An invoice debits its control account, a bill credits it. */
  function Facing(kind: DocKind, n: int): int {
    if kind == INVOICE then n else -n
  }

  lemma {:induction false} ItemsNet(lines: seq<LineInput>, chart: Chart, dims: seq<seq<(string, string)>>, side: Side,
                                    currency: string, a: AccountId)
    requires ResolveLines(lines, chart).Ok? && |dims| == |lines|
    ensures var built := ResolveLines(lines, chart).value;
            LinesNet(ItemLines(built.accountIds, built.records, dims, side, currency), a)
            == if side == DEBIT then PricedOn(chart, lines, a) else -PricedOn(chart, lines, a)
  {
    if lines != [] {
      var n := |lines| - 1;
      ItemsNet(lines[..n], chart, dims[..n], side, currency, a);
      ResolvedFront(lines, chart);
      LastResolved(lines, chart);
      var built := ResolveLines(lines, chart).value;
      LastItem(built.accountIds, built.records, dims, side, currency, a);
    }
  }

  lemma LastItem(ids: seq<AccountId>, records: seq<DocLine>, dims: seq<seq<(string, string)>>, side: Side, currency: string,
                 a: AccountId)
    requires |ids| == |records| == |dims| > 0
    ensures var n := |ids| - 1;
            LinesNet(ItemLines(ids, records, dims, side, currency), a)
            == LinesNet(ItemLines(ids[..n], records[..n], dims[..n], side, currency), a)
             + if ids[n] == a then (if side == DEBIT then records[n].amount else -records[n].amount) else 0
  {
    var n := |ids| - 1;
    assert ItemLines(ids, records, dims, side, currency)[..n] == ItemLines(ids[..n], records[..n], dims[..n], side, currency);
  }

  /** Each line's price on the account its code names, the tax on the tax account, the whole on the control. */
  ghost predicate PostsByAccount(s: Desk, kind: DocKind, req: CreateRequest, plan: Plan, a: AccountId) {
    var control := if ControlFor(s.chart, kind, Controls(s.chart, req.accounts)) == Ok(a) then plan.doc.total else 0;
    var tax := if plan.doc.tax != 0 && AccountFor(s.chart, TaxCodeOf(req.salesTaxCode)) == Ok(a) then plan.doc.tax else 0;
    LinesNet(plan.command.payload.lines, a) == Facing(kind, control - PricedOn(s.chart, req.lines, a) - tax)
  }

  /**
   * The entry of an accepted creation, account by account: each line's price on the account its code names, the
   * tax on the tax account, and the whole on the control account, the other way round for a bill.
   */
  lemma CreationPostsByAccount(s: Desk, kind: DocKind, req: CreateRequest, at: string, a: AccountId)
    requires CreationPlan(s, kind, req, at).Ok?
    ensures PostsByAccount(s, kind, req, CreationPlan(s, kind, req, at).value, a)
  {
    var resolved := ResolveLines(req.lines, s.chart);
    var terms := TermsOf(s, kind, req, resolved).value;
    TermsHold(s, kind, req, resolved);
    ArApEntries.BillsAreUntaxed(s, kind, req, resolved);
    BaseIsNatural(terms.built.records);
    PlannedOnTerms(s, kind, req, terms, at);
    PlanPostsByAccount(s, kind, req, terms, at, a);
  }

  lemma PlanPostsByAccount(s: Desk, kind: DocKind, req: CreateRequest, terms: Terms, at: string, a: AccountId)
    requires ResolveLines(req.lines, s.chart) == Ok(terms.built) && req.date.Some? && TaxableBase(terms.built.records) >= 0
    requires |terms.built.accountIds| == |terms.built.records| == |req.lines| && (kind == BILL ==> terms.rate == 0)
    requires ControlFor(s.chart, kind, Controls(s.chart, req.accounts)) == Ok(terms.control)
    requires terms.rate > 0 ==> AccountFor(s.chart, TaxCodeOf(req.salesTaxCode)) == Ok(terms.taxAccount)
    ensures PostsByAccount(s, kind, req, PlanOnTerms(s, kind, req, req.date.value, terms, at), a)
  {
    PlanTax(s, kind, req, terms, at);
    TaxedPlanPosts(s, kind, req, terms, PlanOnTerms(s, kind, req, req.date.value, terms, at), a);
  }

  lemma TaxedPlanPosts(s: Desk, kind: DocKind, req: CreateRequest, terms: Terms, plan: Plan, a: AccountId)
    requires ResolveLines(req.lines, s.chart) == Ok(terms.built)
    requires |terms.built.accountIds| == |terms.built.records| == |req.lines|
    requires (kind == BILL || terms.rate == 0) ==> plan.doc.tax == 0
    requires plan.command.payload.lines == CreationLines(kind, terms.control, terms.taxAccount, terms.built,
                                                        DimensionsOf(req.lines), plan.doc.total, plan.doc.tax, s.currency)
    requires ControlFor(s.chart, kind, Controls(s.chart, req.accounts)) == Ok(terms.control)
    requires terms.rate > 0 ==> AccountFor(s.chart, TaxCodeOf(req.salesTaxCode)) == Ok(terms.taxAccount)
    ensures PostsByAccount(s, kind, req, plan, a)
  {
    PostingsByAccount(s, kind, req, terms, plan.doc.total, plan.doc.tax, a);
    LinesMakeThePlan(s, kind, req, terms, plan, a);
  }

  lemma LinesMakeThePlan(s: Desk, kind: DocKind, req: CreateRequest, terms: Terms, plan: Plan, a: AccountId)
    requires ControlFor(s.chart, kind, Controls(s.chart, req.accounts)) == Ok(terms.control)
    requires plan.doc.tax != 0 ==> AccountFor(s.chart, TaxCodeOf(req.salesTaxCode)) == Ok(terms.taxAccount)
    requires LinesNet(plan.command.payload.lines, a)
          == Facing(kind, (if terms.control == a then plan.doc.total else 0) - PricedOn(s.chart, req.lines, a)
                          - if plan.doc.tax != 0 && terms.taxAccount == a then plan.doc.tax else 0)
    ensures PostsByAccount(s, kind, req, plan, a)
  {
  }

  lemma PlanTax(s: Desk, kind: DocKind, req: CreateRequest, terms: Terms, at: string)
    requires req.date.Some? && TaxableBase(terms.built.records) >= 0
    requires |terms.built.accountIds| == |terms.built.records| == |req.lines|
    ensures var plan := PlanOnTerms(s, kind, req, req.date.value, terms, at);
            && (terms.rate == 0 ==> plan.doc.tax == 0)
            && plan.command.payload.lines
               == CreationLines(kind, terms.control, terms.taxAccount, terms.built, DimensionsOf(req.lines),
                                plan.doc.total, plan.doc.tax, s.currency)
  {
    NoRateNoTax(TaxableBase(terms.built.records));
  }

  lemma PostingsByAccount(s: Desk, kind: DocKind, req: CreateRequest, terms: Terms, total: int, tax: int, a: AccountId)
    requires ResolveLines(req.lines, s.chart) == Ok(terms.built)
    requires |terms.built.accountIds| == |terms.built.records| == |req.lines|
    requires kind == BILL ==> tax == 0
    ensures LinesNet(CreationLines(kind, terms.control, terms.taxAccount, terms.built, DimensionsOf(req.lines), total, tax, s.currency), a)
         == Facing(kind, (if terms.control == a then total else 0) - PricedOn(s.chart, req.lines, a)
                         - if tax != 0 && terms.taxAccount == a then tax else 0)
  {
    var dims, side := DimensionsOf(req.lines), if kind == INVOICE then CREDIT else DEBIT;
    ArApControls.CreationNets(kind, terms.control, terms.taxAccount, terms.built, dims, total, tax, s.currency, a);
    ItemsNet(req.lines, s.chart, dims, side, s.currency, a);
    ItemsAndTaxNet(kind, terms.taxAccount, terms.built, dims, tax, s.currency, a);
  }

  lemma ItemsAndTaxNet(kind: DocKind, taxAccount: AccountId, built: Resolved, dims: seq<seq<(string, string)>>, tax: int,
                       currency: string, a: AccountId)
    requires |built.accountIds| == |built.records| == |dims| && (kind == BILL ==> tax == 0)
    ensures var side := if kind == INVOICE then CREDIT else DEBIT;
            (LinesNet(ArApControls.ItemsAndTax(kind, taxAccount, built, dims, tax, currency), a)
             == LinesNet(ItemLines(built.accountIds, built.records, dims, side, currency), a)
              - if tax != 0 && taxAccount == a then tax else 0)
  {
    var items := ItemLines(built.accountIds, built.records, dims, if kind == INVOICE then CREDIT else DEBIT, currency);
    TaxLineNets(items, taxAccount, tax, currency, a);
    assert items + [] == items;
  }

  lemma TaxLineNets(items: seq<Line>, taxAccount: AccountId, tax: int, currency: string, a: AccountId)
    ensures var line := Posting(taxAccount, CREDIT, tax, currency, "Sales tax");
            (LinesNet(items + (if tax != 0 then [line] else []), a)
             == LinesNet(items, a) - if tax != 0 && taxAccount == a then tax else 0)
  {
    var line := Posting(taxAccount, CREDIT, tax, currency, "Sales tax");
    OneLineNet(line, a);
    LinesNetAppends(items, [line], a);
    assert items + [] == items;
  }

  /** Whatever is planned is posted for the request's date, in its month, under the tenant's own key. */
  lemma CreationIsDated(s: Desk, kind: DocKind, req: CreateRequest, at: string)
    requires CreationPlan(s, kind, req, at).Ok?
    ensures var c := CreationPlan(s, kind, req, at).value.command;
            && Some(c.payload.entryDate) == req.date && c.payload.period == MonthOf(c.payload.entryDate)
            && c.payload.currency == s.currency && c.tenantId == s.t && c.payload.memo == req.memo
            && c.key == (if kind == INVOICE then "invoice:" else "bill:") + req.id
  {
    var resolved := ResolveLines(req.lines, s.chart);
    var terms := TermsOf(s, kind, req, resolved).value;
    TermsHold(s, kind, req, resolved);
    BaseIsNatural(terms.built.records);
    PlannedOnTerms(s, kind, req, terms, at);
    PlanIsDated(s, kind, req, terms, at);
  }

  lemma PlanIsDated(s: Desk, kind: DocKind, req: CreateRequest, terms: Terms, at: string)
    requires req.date.Some? && |terms.built.accountIds| == |terms.built.records| == |req.lines|
    requires TaxableBase(terms.built.records) >= 0
    ensures var c := PlanOnTerms(s, kind, req, req.date.value, terms, at).command;
            && Some(c.payload.entryDate) == req.date && c.payload.period == MonthOf(c.payload.entryDate)
            && c.payload.currency == s.currency && c.tenantId == s.t && c.payload.memo == req.memo
            && c.key == (if kind == INVOICE then "invoice:" else "bill:") + req.id
  {
    assert "invoice" + ":" == "invoice:" && "bill" + ":" == "bill:";
  }

  // --- what carrying out a plan leaves ------------------------------------------------------------------

  /** A plan whose posting is refused changes nothing; any other stores its document and its payment, and no more. */
  lemma ExecutionRecords(s: State, plan: Plan, at: string)
    ensures var (s', r) := Execute(s, plan, at);
            && (r.Ok? <==> PostTo(s.books, plan.command, at).1.Ok?)
            && (r.Err? ==> s' == s)
            && (r.Ok? ==>
                  && s'.books == PostTo(s.books, plan.command, at).0 && r.value == plan.doc
                  && s'.items.parties == s.items.parties
                  && plan.key in s'.items.docs && s'.items.docs[plan.key] == plan.doc
                  && s'.items.docs - {plan.key} == s.items.docs - {plan.key}
                  && (plan.payment.None? ==> s'.items.payments == s.items.payments)
                  && (plan.payment.Some? ==>
                        var p := plan.payment.value;
                        && (p.kind, p.id) in s'.items.payments && s'.items.payments[(p.kind, p.id)] == p
                        && s'.items.payments - {(p.kind, p.id)} == s.items.payments - {(p.kind, p.id)}))
  {
    PostingEffects.PostAddsItsCommand(s.books, plan.command, at);
  }

  // --- payments -------------------------------------------------------------------------------------

  /** What a payment must meet to be planned. */
  predicate MayPay(s: Desk, kind: DocKind, docId: string, req: PaymentRequest) {
    && req.date.Some? && (kind, docId) in s.items.docs && req.amount.Some?
    && 0 < req.amount.value <= s.items.docs[(kind, docId)].open
    && BankChosen(s.chart, if req.bankCode.Some? then req.bankCode else req.accounts.bankCode)
    && AccountFor(s.chart, PaymentBank(s.chart, req)).Ok?
    && ControlFor(s.chart, kind, Controls(s.chart, req.accounts)).Ok?
  }

  lemma PaymentIsPlannedIff(s: Desk, kind: DocKind, docId: string, req: PaymentRequest, at: string)
    ensures PlanPayment(s, kind, docId, req, at).Ok? <==> MayPay(s, kind, docId, req)
  {
  }

  /** A planned payment takes its amount off what is open, and records itself. */
  lemma PaymentIsRecorded(s: Desk, kind: DocKind, docId: string, req: PaymentRequest, at: string)
    requires PlanPayment(s, kind, docId, req, at).Ok?
    ensures var plan, doc := PlanPayment(s, kind, docId, req, at).value, s.items.docs[(kind, docId)];
            && plan.key == (kind, docId)
            && plan.doc == doc.(open := doc.open - req.amount.value, status := plan.doc.status)
            && (plan.doc.open == 0 ==> plan.doc.status == PAID)
            && (0 < plan.doc.open < doc.total ==> plan.doc.status == PARTIAL)
            && plan.payment.Some?
            && plan.payment.value.kind == kind && plan.payment.value.docId == docId
            && plan.payment.value.amount == req.amount.value && Some(plan.payment.value.date) == req.date
            && plan.payment.value.bankCode == PaymentBank(s.chart, req)
            && (Trim(req.id) != "" ==> plan.payment.value.id == Trim(req.id))
            && Some(plan.command.payload.entryDate) == req.date
            && plan.command.payload.period == MonthOf(plan.command.payload.entryDate)
            && plan.command.tenantId == s.t && plan.command.payload.currency == s.currency
  {
  }

  /** A payment's entry: the bank takes the money in for an invoice and gives it out for a bill, against the control. */
  lemma PaymentPostsByAccount(s: Desk, kind: DocKind, docId: string, req: PaymentRequest, at: string, a: AccountId)
    requires PlanPayment(s, kind, docId, req, at).Ok?
    ensures var lines := PlanPayment(s, kind, docId, req, at).value.command.payload.lines;
            var cash := if kind == INVOICE then req.amount.value else -req.amount.value;
            LinesNet(lines, a)
            == (if AccountFor(s.chart, PaymentBank(s.chart, req)) == Ok(a) then cash else 0)
             - if ControlFor(s.chart, kind, Controls(s.chart, req.accounts)) == Ok(a) then cash else 0
  {
    var terms := PaymentTermsOf(s, kind, docId, req).value;
    ArApControls.PaymentNets(kind, docId, terms, req.dimensions, s.currency, a);
  }

  // --- credits and refunds ----------------------------------------------------------------------------

  /** The line a credit goes against: the first of those with the largest amount. */
  lemma {:induction false} BiggestIsFirstLargest(lines: seq<DocLine>)
    requires lines != []
    ensures var best := BiggestLine(lines);
            && (forall i :: 0 <= i < |lines| ==> lines[i].amount <= best.amount)
            && exists k :: 0 <= k < |lines| && lines[k] == best && forall i :: 0 <= i < k ==> lines[i].amount < best.amount
  {
    if |lines| > 1 {
      var front, last := lines[..|lines| - 1], lines[|lines| - 1];
      BiggestIsFirstLargest(front);
      var k :| 0 <= k < |front| && front[k] == BiggestLine(front)
               && forall i :: 0 <= i < k ==> front[i].amount < BiggestLine(front).amount;
      assert lines[k] == front[k] && lines[|lines| - 1] == last;
      if last.amount > BiggestLine(front).amount {
        assert forall i :: 0 <= i < |front| ==> lines[i] == front[i];
      }
    } else {
      assert lines[0] == BiggestLine(lines);
    }
  }

  /** The account a credit or refund is charged to: the one asked for, else that of the biggest line. */
  lemma CreditAccount(doc: Doc, asked: string)
    ensures Trim(asked) != "" ==> PrimaryAccountOf(doc, asked) == Ok(Trim(asked))
    ensures Trim(asked) == "" && doc.lines != [] ==> PrimaryAccountOf(doc, asked) == Ok(BiggestLine(doc.lines).accountCode)
    ensures Trim(asked) == "" && doc.lines == [] ==> PrimaryAccountOf(doc, asked).Err?
  {
  }

  /** The account a credit may be charged to: one of the chart, and no control account. */
  predicate MayCharge(chart: Chart, doc: Doc, req: CreditRequest) {
    && PrimaryAccountOf(doc, req.accountCode).Ok?
    && AccountFor(chart, PrimaryAccountOf(doc, req.accountCode).value).Ok?
    && !IsControl(chart, PrimaryAccountOf(doc, req.accountCode).value)
    && (doc.kind == INVOICE && doc.tax > 0 && doc.total > 0 ==> AccountFor(chart, TaxCodeOf(req.salesTaxCode)).Ok?)
  }

  predicate AmountWithin(req: CreditRequest, limit: int) {
    limit > 0 && (req.amount.Some? ==> req.amount.value.Some? && 0 < req.amount.value.value <= limit)
  }

  predicate MayCredit(s: Desk, kind: DocKind, docId: string, req: CreditRequest) {
    && req.date.Some? && (kind, docId) in s.items.docs
    && var doc := s.items.docs[(kind, docId)];
       AmountWithin(req, doc.open) && MayCharge(s.chart, doc, req)
       && ControlFor(s.chart, kind, Controls(s.chart, req.accounts)).Ok?
  }

  lemma CreditIsPlannedIff(s: Desk, kind: DocKind, docId: string, req: CreditRequest, at: string)
    ensures PlanCredit(s, kind, docId, req, at).Ok? <==> MayCredit(s, kind, docId, req)
  {
    CreditTermsIff(s, kind, docId, req);
  }

  lemma CreditTermsIff(s: Desk, kind: DocKind, docId: string, req: CreditRequest)
    ensures CreditTermsOf(s, kind, docId, req).Ok? <==> MayCredit(s, kind, docId, req)
  {
    if (kind, docId) in s.items.docs && PrimaryAccountOf(s.items.docs[(kind, docId)], req.accountCode).Ok? {
      var doc := s.items.docs[(kind, docId)];
      ReversalIsPlannedIff(s.chart, doc, PrimaryAccountOf(doc, req.accountCode).value, req.salesTaxCode);
    }
  }

  /** A reversal is carved up exactly when its accounts are of the chart, whatever its amount. */
  lemma ReversalIsPlannedIff(chart: Chart, doc: Doc, code: string, taxCode: string)
    ensures forall amount: nat, memo :: ReversalLines(chart, doc, amount, code, taxCode, memo).Ok? <==>
              && AccountFor(chart, code).Ok?
              && (doc.kind == INVOICE && doc.tax > 0 && doc.total > 0 ==> AccountFor(chart, TaxCodeOf(taxCode)).Ok?)
  {
  }

  predicate MayRefund(s: Desk, docId: string, req: CreditRequest) {
    && req.date.Some? && (INVOICE, docId) in s.items.docs
    && var doc := s.items.docs[(INVOICE, docId)];
       AmountWithin(req, doc.total - doc.open) && MayCharge(s.chart, doc, req)
       && BankChosen(s.chart, if Trim(req.bankCode) != "" then Some(Trim(req.bankCode)) else req.accounts.bankCode)
       && AccountFor(s.chart, RefundBank(s.chart, req)).Ok?
  }

  lemma RefundIsPlannedIff(s: Desk, docId: string, req: CreditRequest, at: string)
    ensures PlanRefund(s, docId, req, at).Ok? <==> MayRefund(s, docId, req)
  {
    if (INVOICE, docId) in s.items.docs && PrimaryAccountOf(s.items.docs[(INVOICE, docId)], req.accountCode).Ok? {
      var doc := s.items.docs[(INVOICE, docId)];
      ReversalIsPlannedIff(s.chart, doc, PrimaryAccountOf(doc, req.accountCode).value, req.salesTaxCode);
    }
  }

  /** A planned credit takes off what it asks for, all that is open unless it says, on its date. */
  lemma CreditIsRecorded(s: Desk, kind: DocKind, docId: string, req: CreditRequest, at: string)
    requires PlanCredit(s, kind, docId, req, at).Ok?
    ensures var plan, doc := PlanCredit(s, kind, docId, req, at).value, s.items.docs[(kind, docId)];
            var amount := if req.amount.None? then doc.open else req.amount.value.GetOr(0);
            && plan.key == (kind, docId) && plan.payment.None?
            && plan.doc == doc.(open := doc.open - amount, status := plan.doc.status)
            && (plan.doc.open == 0 ==> plan.doc.status == PAID)
            && (0 < plan.doc.open < doc.total ==> plan.doc.status == PARTIAL)
            && Some(plan.command.payload.entryDate) == req.date
            && plan.command.payload.period == MonthOf(plan.command.payload.entryDate)
            && plan.command.tenantId == s.t && plan.command.payload.currency == s.currency
  {
    CreditTermsHold(s, kind, docId, req);
    CreditAsksFor(s, kind, docId, req);
  }

  lemma CreditAsksFor(s: Desk, kind: DocKind, docId: string, req: CreditRequest)
    requires CreditTermsOf(s, kind, docId, req).Ok? && (kind, docId) in s.items.docs
    ensures CreditTermsOf(s, kind, docId, req).value.amount
         == if req.amount.None? then s.items.docs[(kind, docId)].open else req.amount.value.GetOr(0)
  {
  }

  /** A planned refund leaves the document as it is, on its date, and records no payment. */
  lemma RefundIsRecorded(s: Desk, docId: string, req: CreditRequest, at: string)
    requires PlanRefund(s, docId, req, at).Ok?
    ensures var plan := PlanRefund(s, docId, req, at).value;
            && plan.key == (INVOICE, docId) && plan.key in s.items.docs && plan.doc == s.items.docs[plan.key]
            && plan.payment.None? && Some(plan.command.payload.entryDate) == req.date
            && plan.command.payload.period == MonthOf(plan.command.payload.entryDate)
            && plan.command.tenantId == s.t && plan.command.payload.currency == s.currency
  {
    RefundTermsHold(s, docId, req);
  }

  /** The tax a credit or refund of an invoice takes back. */
  function ShareOf(doc: Doc, amount: nat): nat {
    if doc.kind == INVOICE && doc.tax > 0 && doc.total > 0 then TaxPortion(amount, doc.tax, doc.total) else 0
  }

  /** Where a credit's or refund's parts go: its share of the tax to the tax account, the rest to the income account. */
  lemma PartsByAccount(chart: Chart, doc: Doc, amount: nat, code: string, taxCode: string, memo: string, side: Side,
                       currency: string, a: AccountId)
    requires 0 <= doc.tax <= doc.total && ReversalLines(chart, doc, amount, code, taxCode, memo).Ok?
    ensures var parts := ReversalLines(chart, doc, amount, code, taxCode, memo).value;
            var share := ShareOf(doc, amount);
            var n := (if AccountFor(chart, code) == Ok(a) then amount - share else 0)
                   + (if share > 0 && AccountFor(chart, TaxCodeOf(taxCode)) == Ok(a) then share else 0);
            LinesNet(ReversalPostings(parts, side, currency), a) == if side == DEBIT then n else -n
  {
    var parts := ReversalLines(chart, doc, amount, code, taxCode, memo).value;
    var postings := ReversalPostings(parts, side, currency);
    if doc.kind == INVOICE && doc.tax > 0 {
      ShareIsWithin(amount, doc.tax, doc.total);
    }
    if |parts| == 2 {
      assert postings == [postings[0]] + [postings[1]];
      LinesNetAppends([postings[0]], [postings[1]], a);
      OneLineNet(postings[0], a);
      OneLineNet(postings[1], a);
    } else if |parts| == 1 {
      assert postings == [postings[0]];
      OneLineNet(postings[0], a);
    }
  }

  /** The entry of a credit or refund, account by account, against its control account or bank. */
  lemma ReversalPostsByAccount(chart: Chart, doc: Doc, amount: nat, code: string, taxCode: string, memo: string,
                               anchor: AccountId, currency: string, a: AccountId)
    requires 0 <= doc.tax <= doc.total && amount > 0 && ReversalLines(chart, doc, amount, code, taxCode, memo).Ok?
    ensures var parts := ReversalLines(chart, doc, amount, code, taxCode, memo).value;
            LinesNet(CreditLines(doc.kind, parts, anchor, currency), a)
            == LinesNet(ReversalPostings(parts, if doc.kind == INVOICE then DEBIT else CREDIT, currency), a)
             - if anchor == a then Facing(doc.kind, amount) else 0
  {
    var parts := ReversalLines(chart, doc, amount, code, taxCode, memo).value;
    ArApEntries.PartsArePositive(chart, doc, amount, code, taxCode, memo);
    var side := if doc.kind == INVOICE then DEBIT else CREDIT;
    var line := Posting(anchor, if doc.kind == INVOICE then CREDIT else DEBIT, PartsTotal(parts), currency, "");
    OneLineNet(line, a);
    if doc.kind == INVOICE {
      LinesNetAppends(ReversalPostings(parts, side, currency), [line], a);
    } else {
      LinesNetAppends([line], ReversalPostings(parts, side, currency), a);
    }
  }

  // --- under which key --------------------------------------------------------------------------------

  /** A payment's key is of its kind and of the id asked for. */
  lemma PaymentIsNamed(s: Desk, kind: DocKind, docId: string, req: PaymentRequest, at: string)
    requires PlanPayment(s, kind, docId, req, at).Ok? && Trim(req.id) != ""
    ensures PlanPayment(s, kind, docId, req, at).value.command.key
         == (if kind == INVOICE then "invoicepay:" else "billpay:") + Trim(req.id)
  {
    assert "invoice" + "pay:" == "invoicepay:" && "bill" + "pay:" == "billpay:";
  }

  /** So is a credit's. */
  lemma CreditIsNamed(s: Desk, kind: DocKind, docId: string, req: CreditRequest, at: string)
    requires PlanCredit(s, kind, docId, req, at).Ok? && Trim(req.id) != ""
    ensures PlanCredit(s, kind, docId, req, at).value.command.key
         == (if kind == INVOICE then "creditmemo:" else "vendorcredit:") + Trim(req.id)
  {
  }

  /** And a refund's. */
  lemma RefundIsNamed(s: Desk, docId: string, req: CreditRequest, at: string)
    requires PlanRefund(s, docId, req, at).Ok? && Trim(req.id) != ""
    ensures PlanRefund(s, docId, req, at).value.command.key == "refund:" + Trim(req.id)
  {
  }

  // --- which control and bank accounts are used -------------------------------------------------------

  /** A code that is asked for is used; otherwise the default code, unless only other active accounts have the role. */
  lemma ControlCodeIs(chart: Chart, subtype: AccountSubtype, fallback: string)
    ensures var matching := set a | a in chart && a.active && a.subtype == Some(subtype);
            var code := ControlCode(chart, subtype, fallback);
            && (matching == {} || (exists a :: a in matching && a.code == fallback) ==> code == fallback)
            && (matching != {} && (forall a :: a in matching ==> a.code != fallback) ==>
                  (exists a :: a in matching && a.code == code)
                  && forall a :: a in matching ==> a.code == code || SortsBefore(code, a.code))
  {
    ActiveAre(chart, subtype);
    var all := set a | a in chart && a.active && a.subtype == Some(subtype);
    var matching := ActiveWith(chart, subtype);
    assert forall a :: a in all <==> a in matching;
    if matching != [] {
      assert matching[0] in all;
      LowestIsLowest(matching);
    }
    assert CodesHave(matching, fallback) <==> exists a :: a in all && a.code == fallback;
  }

  lemma {:induction false} ActiveAre(chart: Chart, subtype: AccountSubtype)
    ensures forall a :: a in ActiveWith(chart, subtype) <==> a in chart && a.active && a.subtype == Some(subtype)
  {
    if chart != [] {
      ActiveAre(chart[1..], subtype);
      assert chart == [chart[0]] + chart[1..];
    }
  }

  lemma {:induction false} LowestIsLowest(accounts: seq<Account>)
    requires accounts != []
    ensures exists a :: a in accounts && a.code == LowestCode(accounts)
    ensures forall a :: a in accounts ==> a.code == LowestCode(accounts) || SortsBefore(LowestCode(accounts), a.code)
  {
    if |accounts| > 1 {
      var rest := LowestCode(accounts[1..]);
      LowestIsLowest(accounts[1..]);
      assert accounts == [accounts[0]] + accounts[1..];
      OneSortsFirst(rest, accounts[0].code);
      forall a | a in accounts[1..] ensures a.code == LowestCode(accounts) || SortsBefore(LowestCode(accounts), a.code) {
        SortingIsTransitive(LowestCode(accounts), rest, a.code);
      }
    } else {
      assert accounts[0] in accounts;
    }
  }

  /** A bank must be named unless there is at most one active one or one has the default code. */
  lemma BankChosenIff(chart: Chart, explicit: Option<string>)
    ensures var banks := ActiveWith(chart, BANK);
            BankChosen(chart, explicit) <==>
            (explicit.Some? && explicit.value != "") || |banks| <= 1 || exists a :: a in banks && a.code == "1000"
  {
  }

  lemma ControlsAre(chart: Chart, o: Overrides)
    ensures var c := Controls(chart, o);
            && c.arCode == (if o.arCode.Some? then o.arCode.value else ControlCode(chart, ACCOUNTS_RECEIVABLE, "1200"))
            && c.apCode == (if o.apCode.Some? then o.apCode.value else ControlCode(chart, ACCOUNTS_PAYABLE, "2000"))
            && c.bankCode == (if o.bankCode.Some? then o.bankCode.value else ControlCode(chart, BANK, "1000"))
  {
  }
}
