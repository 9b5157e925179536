/**
 * Moving the book of record from QuickBooks and back, and the guard on every append
 * (ledger-service cutover.ts, bookOfRecord.ts).
 */
module Cutover {
  import opened Text
  import opened Dates
  import opened Ledger
  import opened Periods
  import opened Chart
  import opened LedgerStore
  import opened TrialBalance
  import opened Documents
  import opened ArAp

  // --- bookOfRecord.ts --------------------------------------------------------------------------------

  datatype Book = QUICKBOOKS_BOOK | RGNR8_BOOK

  const MIRROR_KEY_PREFIX := "qbo-mirror:"
  const OPENING_KEY_PREFIX := "cutover:opening:"
  const QUICKBOOKS_SOURCE := "quickbooks"

  /** What a parallel run appends: opening entries and catch-ups copied from QuickBooks. */
  predicate IsQuickBooksCopy(d: Draft) {
    && d.payload.provenance.sourceSystem == QUICKBOOKS_SOURCE
    && (MIRROR_KEY_PREFIX <= d.key || OPENING_KEY_PREFIX <= d.key)
  }

  datatype Refusal = BookOfRecord | AfterCutover

  // --- records ----------------------------------------------------------------------------------------

  datatype CutoverState = EXECUTING | LIVE | BACKED_OUT

  datatype CutoverRecord = CutoverRecord(
    cutoverDate: Date, signedBy: string, reportHash: string, executedAt: string,
    docs: seq<(DocKind, string)>, state: CutoverState, backedOutAt: string)

  /** A cutover stands from its first write until a back-out. */
  predicate Active(r: Option<CutoverRecord>) {
    r.Some? && r.value.state != BACKED_OUT
  }

  datatype OpenItem = OpenItem(kind: DocKind, qboId: string, number: string, party: string, date: Date, open: int)

  /** QuickBooks' open items as last copied; no date when none has been taken. */
  datatype Snapshot = Snapshot(asOf: Option<Date>, items: seq<OpenItem>)

  const NoSnapshot := Snapshot(None, [])

  datatype PlannedDoc = PlannedDoc(
    kind: DocKind, id: string, partyId: string, partyName: string, date: Date, open: int, qboId: string)

  /** What the signature covers: the content of the report hash. */
  datatype SignedReport = SignedReport(
    cutoverDate: Date, openItemsAsOf: Option<Date>, docs: seq<PlannedDoc>,
    arBooks: int, arOpen: int, apBooks: int, apOpen: int, entries: nat)

  /** The report hash and the party slug are not modelled: any two functions. */
  datatype Naming = Naming(hash: SignedReport -> string, slug: string -> string)

  datatype Blocker =
    | Unfinished | AlreadyRgnr8 | NotMonthEnd | NotEnded | OwnEntries(count: nat) | NotLevel
    | NotCopied | CopiedTooEarly | SameNumber(id: string) | NumberTaken(id: string) | SeveralControls(subtype: AccountSubtype)

  datatype CutoverPlan = CutoverPlan(report: SignedReport, blockers: seq<Blocker>, hash: string)

  datatype ExecuteRequest = ExecuteRequest(cutoverDate: Date, signedBy: string, reportHash: string, acceptDifferences: bool)

  datatype CutoverError =
    | NeedsSignature | Blocked(blockers: seq<Blocker>) | ReportChanged | DoesNotTie
    | NothingToBackOut | WouldLoseEntries | PaidSince(key: (DocKind, string))

  /** One account's backend, as far as cutover reads or writes it. */
  datatype World = World(
    log: seq<Entry>, chart: Chart, items: Items, locks: Locks, book: Book,
    record: Option<CutoverRecord>, snapshot: Snapshot)

  // --- the guard ----------------------------------------------------------------------------------------

  function GuardOf(w: World, d: Draft): Option<Refusal> {
    if IsQuickBooksCopy(d) then (if Active(w.record) then Some(AfterCutover) else None)
    else if w.book == QUICKBOOKS_BOOK then Some(BookOfRecord)
    else None
  }

  function GuardedAppend(w: World, d: Draft): World {
    if GuardOf(w, d).Some? then w else w.(log := Appended(w.log, d))
  }

  predicate Copies(log: seq<Entry>) {
    forall e :: e in log ==> IsQuickBooksCopy(e.draft)
  }

  // --- the plan -------------------------------------------------------------------------------------------

  function PlanDoc(n: Naming, i: OpenItem): PlannedDoc {
    PlannedDoc(i.kind,
               if i.kind == INVOICE && i.number != "" then i.number
               else (if i.kind == INVOICE then "QBO-INV-" else "QBO-BILL-") + i.qboId,
               (if i.kind == INVOICE then "qbo-c-" else "qbo-v-") + n.slug(i.party),
               if i.party != "" then i.party else if i.kind == INVOICE then "Customer" else "Vendor",
               i.date, i.open, i.qboId)
  }

  function PlanDocs(n: Naming, items: seq<OpenItem>): (docs: seq<PlannedDoc>)
    ensures |docs| == |items|
    ensures forall i :: 0 <= i < |docs| ==> docs[i] == PlanDoc(n, items[i])
  {
    seq(|items|, i requires 0 <= i < |items| => PlanDoc(n, items[i]))
  }

  function DocKeys(docs: seq<PlannedDoc>): (keys: seq<(DocKind, string)>)
    ensures |keys| == |docs|
    ensures forall i :: 0 <= i < |docs| ==> keys[i] == (docs[i].kind, docs[i].id)
  {
    seq(|docs|, i requires 0 <= i < |docs| => (docs[i].kind, docs[i].id))
  }

  function OpenSum(docs: seq<PlannedDoc>, kind: DocKind): int {
    if docs == [] then 0
    else
      var last := docs[|docs| - 1];
      OpenSum(docs[..|docs| - 1], kind) + if last.kind == kind then last.open else 0
  }

  ghost function HasSubtype(chart: Chart, st: AccountSubtype): AccountId -> bool {
    a => Find(chart, a).Some? && Find(chart, a).value.subtype == Some(st)
  }

  /** The books' balance over every account of one subtype, debit-positive. */
  ghost function SubtypeNet(log: seq<Entry>, chart: Chart, st: AccountSubtype): int {
    Selected(LinesIn(log, Always), HasSubtype(chart, st))
  }

  /** The accounts of one subtype that hold a balance. */
  ghost predicate Holds(log: seq<Entry>, chart: Chart, st: AccountSubtype, a: AccountId) {
    HasSubtype(chart, st)(a) && a in Accounts(LinesIn(log, Always)) && Net(log, Always, a) != 0
  }

  ghost predicate HeldByAtMostOne(log: seq<Entry>, chart: Chart, st: AccountSubtype) {
    forall a, b :: Holds(log, chart, st, a) && Holds(log, chart, st, b) ==> a == b
  }

  ghost predicate MayStart(w: World, date: Date, today: Date) {
    && (w.record.Some? ==> w.record.value.state != EXECUTING)
    && w.book == QUICKBOOKS_BOOK
    && IsMonthEnd(date) && date < today
  }

  ghost predicate BooksAreLevel(log: seq<Entry>, date: Date) {
    Copies(log) && exists e :: e in log && e.Date() >= date
  }

  predicate CopiedSince(snapshot: Snapshot, date: Date) {
    snapshot.asOf.Some? && snapshot.asOf.value >= date
  }

  ghost predicate NumbersAreFree(keys: seq<(DocKind, string)>, docs: map<(DocKind, string), Doc>) {
    && (forall i, j :: 0 <= i < j < |keys| ==> keys[i] != keys[j])
    && (forall i :: 0 <= i < |keys| ==> keys[i] !in docs)
  }

  ghost predicate ControlsAreSingle(log: seq<Entry>, chart: Chart) {
    HeldByAtMostOne(log, chart, ACCOUNTS_RECEIVABLE) && HeldByAtMostOne(log, chart, ACCOUNTS_PAYABLE)
  }

  /** Every condition a cutover has to meet, as a caller could check it beforehand. */
  ghost predicate MayCutOver(n: Naming, w: World, date: Date, today: Date) {
    && MayStart(w, date, today) && BooksAreLevel(w.log, date) && CopiedSince(w.snapshot, date)
    && NumbersAreFree(DocKeys(PlanDocs(n, w.snapshot.items)), w.items.docs)
    && ControlsAreSingle(w.log, w.chart)
  }

  ghost function ReportOn(n: Naming, w: World, date: Date): SignedReport {
    var docs := PlanDocs(n, w.snapshot.items);
    SignedReport(date, w.snapshot.asOf, docs,
                 SubtypeNet(w.log, w.chart, ACCOUNTS_RECEIVABLE), OpenSum(docs, INVOICE),
                 -SubtypeNet(w.log, w.chart, ACCOUNTS_PAYABLE), OpenSum(docs, BILL), |w.log|)
  }

  ghost predicate Accepts(n: Naming, w: World, req: ExecuteRequest, today: Date) {
    var report := ReportOn(n, w, req.cutoverDate);
    && Trim(req.signedBy) != "" && MayCutOver(n, w, req.cutoverDate, today)
    && n.hash(report) == req.reportHash
    && ((report.arBooks == report.arOpen && report.apBooks == report.apOpen) || req.acceptDifferences)
  }

  // --- the writes -----------------------------------------------------------------------------------------

  datatype Write =
    | SaveRecord(record: CutoverRecord)
    | EnsureParty(kind: PartyKind, party: Party)
    | SaveDocument(doc: Doc)
    | DeleteDocument(key: (DocKind, string))
    | LockMonths(through: Month)
    | SetBook(book: Book)
    | ReplaceItems(snapshot: Snapshot)

  function Written(w: World, write: Write): World {
    match write
    case SaveRecord(r) => w.(record := Some(r))
    case EnsureParty(kind, p) =>
      if (kind, p.id) in w.items.parties then w
      else w.(items := w.items.(parties := w.items.parties[(kind, p.id) := p]))
    case SaveDocument(d) => w.(items := w.items.(docs := w.items.docs[(d.kind, d.id) := d]))
    case DeleteDocument(key) => w.(items := w.items.(docs := w.items.docs - {key}))
    case LockMonths(m) => w.(locks := LockedThrough(w.locks, m))
    case SetBook(b) => w.(book := b)
    case ReplaceItems(s) => w.(snapshot := s)
  }

  function WrittenAll(w: World, writes: seq<Write>): World {
    if writes == [] then w else Written(WrittenAll(w, writes[..|writes| - 1]), writes[|writes| - 1])
  }

  function Memo(date: Date, qboId: string): string {
    "Open in QuickBooks at cutover on " + IntText(date) + " (QuickBooks id " + qboId + ")"
  }

  /** The open document that stands for an open item; it posts nothing. */
  function DocFor(d: PlannedDoc, date: Date, controlCode: string): Doc {
    Doc(d.id, d.kind, d.partyId, d.date, d.open, 0, 0, d.open, d.open, DocStatus.OPEN, Memo(date, d.qboId),
        [DocLine("Balance open in QuickBooks at cutover", 1, d.open, controlCode, d.open, false)])
  }

  function DocWrites(d: PlannedDoc, date: Date, arCode: string, apCode: string): seq<Write> {
    [EnsureParty(if d.kind == INVOICE then CUSTOMER else VENDOR, Party(d.partyId, d.partyName)),
     SaveDocument(DocFor(d, date, if d.kind == INVOICE then arCode else apCode))]
  }

  function AllDocWrites(docs: seq<PlannedDoc>, date: Date, arCode: string, apCode: string): seq<Write> {
    if docs == [] then []
    else AllDocWrites(docs[..|docs| - 1], date, arCode, apCode) + DocWrites(docs[|docs| - 1], date, arCode, apCode)
  }

  function Begun(report: SignedReport, req: ExecuteRequest, now: string): CutoverRecord {
    CutoverRecord(report.cutoverDate, Trim(req.signedBy), req.reportHash, now, DocKeys(report.docs), EXECUTING, "")
  }

  /** The order matters: the record first, the copied open items last. */
  function CutoverWrites(chart: Chart, report: SignedReport, begun: CutoverRecord): seq<Write> {
    var arCode := ControlCode(chart, ACCOUNTS_RECEIVABLE, DEFAULT_AR);
    var apCode := ControlCode(chart, ACCOUNTS_PAYABLE, DEFAULT_AP);
    [SaveRecord(begun)]
    + AllDocWrites(report.docs, report.cutoverDate, arCode, apCode)
    + Finish(MonthOf(report.cutoverDate), begun)
  }

  function Finish(through: Month, begun: CutoverRecord): seq<Write> {
    [LockMonths(through), SetBook(RGNR8_BOOK), SaveRecord(begun.(state := LIVE)), ReplaceItems(NoSnapshot)]
  }

  function Deletes(keys: seq<(DocKind, string)>): (writes: seq<Write>)
    ensures |writes| == |keys| && forall i :: 0 <= i < |keys| ==> writes[i] == DeleteDocument(keys[i])
  {
    seq(|keys|, i requires 0 <= i < |keys| => DeleteDocument(keys[i]))
  }

  function BackOutWrites(r: CutoverRecord, now: string): seq<Write> {
    Deletes(r.docs) + [SetBook(QUICKBOOKS_BOOK), SaveRecord(r.(state := BACKED_OUT, backedOutAt := now))]
  }

  /** The first of the cutover's documents that has been paid on. */
  function FirstPaid(docs: map<(DocKind, string), Doc>, keys: seq<(DocKind, string)>): (r: Option<(DocKind, string)>)
    ensures r.None? <==> forall key :: key in keys && key in docs ==> docs[key].open == docs[key].total
  {
    if keys == [] then None
    else if keys[0] in docs && docs[keys[0]].open != docs[keys[0]].total then Some(keys[0])
    else
      assert keys == [keys[0]] + keys[1..];
      FirstPaid(docs, keys[1..])
  }

  function BackoutBlocker(w: World): Option<CutoverError> {
    if !Active(w.record) then Some(NothingToBackOut)
    else if !Copies(w.log) then Some(WouldLoseEntries)
    else match FirstPaid(w.items.docs, w.record.value.docs)
         case Some(key) => Some(PaidSince(key))
         case None => None
  }

  // --- the backend ------------------------------------------------------------------------------------------

  class Backend {
    const naming: Naming
    const chart: Chart
    var log: seq<Entry>
    var items: Items
    var locks: Locks
    var book: Book
    var record: Option<CutoverRecord>
    var snapshot: Snapshot

    constructor (naming: Naming, chart: Chart)
      ensures this.naming == naming
      ensures View() == World([], chart, NoItems, NoLocks, QUICKBOOKS_BOOK, None, NoSnapshot)
    {
      this.naming, this.chart := naming, chart;
      log, items, locks, book, record, snapshot := [], NoItems, NoLocks, QUICKBOOKS_BOOK, None, NoSnapshot;
    }

    function View(): World
      reads this
    {
      World(log, chart, items, locks, book, record, snapshot)
    }

    method Append(draft: Draft) returns (r: Result<Entry, Refusal>)
      modifies this
      ensures View() == GuardedAppend(old(View()), draft)
      ensures r.Err? ==> Some(r.error) == GuardOf(old(View()), draft)
      ensures r.Ok? ==> GuardOf(old(View()), draft).None? && r.value in log && r.value.draft.key == draft.key
    {
      if IsQuickBooksCopy(draft) {
        if Active(record) {
          return Err(AfterCutover);
        }
      } else if book == QUICKBOOKS_BOOK {
        return Err(BookOfRecord);
      }
      log := Appended(log, draft);
      var i := IndexOfKey(log, draft.key);
      if i == |log| {
        HasKeyAt(log, |log| - 1);
        assert false;
      }
      return Ok(log[i]);
    }

    /** The sum over one subtype's rows, and how many of them hold a balance. */
    method ControlBalance(rows: seq<Row>, st: AccountSubtype) returns (sum: int, held: nat)
      requires IsTrialBalance(rows, LinesIn(log, Always), chart)
      ensures sum == SubtypeNet(log, chart, st)
      ensures held <= 1 <==> HeldByAtMostOne(log, chart, st)
    {
      sum, held := 0, 0;
      ghost var sel := HasSubtype(chart, st);
      ghost var lines := LinesIn(log, Always);
      ghost var ids: seq<AccountId> := [];
      for i := 0 to |rows|
        invariant sum == RowsSelected(rows[..i], sel)
        invariant held == |ids|
        invariant HeldSoFar(log, chart, st, rows[..i], ids)
      {
        assert rows[..i + 1][..i] == rows[..i];
        assert rows[i] in rows && RowFits(rows[i], lines, chart);
        NetIsOfLinesIn(log, Always, rows[i].account.id);
        NextHeld(log, chart, st, rows, i, ids);
        var row := rows[i];
        if row.account.subtype == Some(st) {
          sum := sum + row.debit - row.credit;
          if row.debit - row.credit != 0 {
            held := held + 1;
            ids := ids + [row.account.id];
          }
        }
      }
      assert rows[..|rows|] == rows;
      RowsSumToLines(rows, lines, chart, sel);
      HeldOnes(log, chart, st, rows, ids);
    }

    method PlanCutover(cutoverDate: Date, today: Date) returns (plan: CutoverPlan)
      ensures plan.report == ReportOn(naming, View(), cutoverDate)
      ensures plan.hash == naming.hash(plan.report)
      ensures plan.blockers == [] <==> MayCutOver(naming, View(), cutoverDate, today)
    {
      var blockers := StartBlockers(cutoverDate, today);
      var books := BookBlockers(cutoverDate);
      blockers := blockers + books;
      if snapshot.asOf.None? {
        blockers := blockers + [NotCopied];
      } else if snapshot.asOf.value < cutoverDate {
        blockers := blockers + [CopiedTooEarly];
      }
      var docs := PlanDocs(naming, snapshot.items);
      var clashes := NumberClashes(docs);
      blockers := blockers + clashes;
      var ar, ap, controls := ControlBlockers();
      blockers := blockers + controls;
      var report := SignedReport(cutoverDate, snapshot.asOf, docs, ar, OpenSum(docs, INVOICE), -ap, OpenSum(docs, BILL), |log|);
      plan := CutoverPlan(report, blockers, naming.hash(report));
    }

    method StartBlockers(cutoverDate: Date, today: Date) returns (blockers: seq<Blocker>)
      ensures blockers == [] <==> MayStart(View(), cutoverDate, today)
    {
      blockers := [];
      if record.Some? && record.value.state == EXECUTING {
        blockers := blockers + [Unfinished];
      }
      if book != QUICKBOOKS_BOOK {
        blockers := blockers + [AlreadyRgnr8];
      }
      if !IsMonthEnd(cutoverDate) {
        blockers := blockers + [NotMonthEnd];
      } else if cutoverDate >= today {
        blockers := blockers + [NotEnded];
      }
    }

    method BookBlockers(cutoverDate: Date) returns (blockers: seq<Blocker>)
      ensures blockers == [] <==> BooksAreLevel(log, cutoverDate)
    {
      blockers := [];
      var own, level := CountOwn(cutoverDate);
      if own > 0 {
        blockers := blockers + [OwnEntries(own)];
      }
      if !level {
        blockers := blockers + [NotLevel];
      }
    }

    method ControlBlockers() returns (ar: int, ap: int, blockers: seq<Blocker>)
      ensures ar == SubtypeNet(log, chart, ACCOUNTS_RECEIVABLE) && ap == SubtypeNet(log, chart, ACCOUNTS_PAYABLE)
      ensures blockers == [] <==> ControlsAreSingle(log, chart)
    {
      blockers := [];
      var tb := ComputeTrialBalance(log, Always, chart);
      var arHeld, apHeld;
      ar, arHeld := ControlBalance(tb.rows, ACCOUNTS_RECEIVABLE);
      ap, apHeld := ControlBalance(tb.rows, ACCOUNTS_PAYABLE);
      if arHeld > 1 {
        blockers := blockers + [SeveralControls(ACCOUNTS_RECEIVABLE)];
      }
      if apHeld > 1 {
        blockers := blockers + [SeveralControls(ACCOUNTS_PAYABLE)];
      }
    }

    /** How many entries are not copies, and whether any entry reaches the cutover date. */
    method CountOwn(cutoverDate: Date) returns (own: nat, level: bool)
      ensures own == 0 <==> Copies(log)
      ensures level <==> exists e :: e in log && e.Date() >= cutoverDate
    {
      own, level := 0, false;
      for i := 0 to |log|
        invariant own == 0 <==> Copies(log[..i])
        invariant level <==> exists e :: e in log[..i] && e.Date() >= cutoverDate
      {
        assert log[..i + 1] == log[..i] + [log[i]];
        if !IsQuickBooksCopy(log[i].draft) {
          own := own + 1;
        }
        if log[i].Date() >= cutoverDate {
          level := true;
        }
      }
      assert log[..|log|] == log;
    }

    /** One blocker for each document number met before, or taken already. */
    method NumberClashes(docs: seq<PlannedDoc>) returns (clashes: seq<Blocker>)
      ensures clashes == [] <==> NumbersAreFree(DocKeys(docs), items.docs)
    {
      clashes := [];
      var seen: set<(DocKind, string)> := {};
      var keys := DocKeys(docs);
      for n := 0 to |docs|
        invariant seen == set i | 0 <= i < n :: keys[i]
        invariant clashes == [] <==>
          && (forall i, j :: 0 <= i < j < n ==> keys[i] != keys[j])
          && (forall i :: 0 <= i < n ==> keys[i] !in items.docs)
      {
        var key := (docs[n].kind, docs[n].id);
        if key in seen {
          clashes := clashes + [SameNumber(docs[n].id)];
        }
        seen := seen + {key};
        if key in items.docs {
          clashes := clashes + [NumberTaken(docs[n].id)];
        }
      }
    }

    method ExecuteCutover(req: ExecuteRequest, today: Date, now: string) returns (r: Result<CutoverRecord, CutoverError>)
      modifies this
      ensures r.Ok? <==> Accepts(naming, old(View()), req, today)
      ensures r.Err? ==> View() == old(View())
      ensures r.Ok? ==>
        var report := ReportOn(naming, old(View()), req.cutoverDate);
        var begun := Begun(report, req, now);
        r.value == begun.(state := LIVE) && View() == WrittenAll(old(View()), CutoverWrites(chart, report, begun))
    {
      if Trim(req.signedBy) == "" {
        return Err(NeedsSignature);
      }
      var plan := PlanCutover(req.cutoverDate, today);
      if plan.blockers != [] {
        return Err(Blocked(plan.blockers));
      }
      if plan.hash != req.reportHash {
        return Err(ReportChanged);
      }
      var report := plan.report;
      if (report.arBooks != report.arOpen || report.apBooks != report.apOpen) && !req.acceptDifferences {
        return Err(DoesNotTie);
      }
      var begun := Begun(report, req, now);
      WriteCutover(report, begun);
      return Ok(begun.(state := LIVE));
    }

    /** The writes of an accepted cutover, in the order a crash may cut them short. */
    method WriteCutover(report: SignedReport, begun: CutoverRecord)
      modifies this
      ensures View() == WrittenAll(old(View()), CutoverWrites(chart, report, begun))
    {
      ghost var start := View();
      var arCode := ControlCode(chart, ACCOUNTS_RECEIVABLE, DEFAULT_AR);
      var apCode := ControlCode(chart, ACCOUNTS_PAYABLE, DEFAULT_AP);
      ghost var docWrites := AllDocWrites(report.docs, report.cutoverDate, arCode, apCode);
      ghost var first := [SaveRecord(begun)];
      record := Some(begun);
      assert first[..0] == [];
      WriteDocs(report, arCode, apCode, start, first);
      FinishCutover(MonthOf(report.cutoverDate), begun);
      WritesAppend(start, first + docWrites, Finish(MonthOf(report.cutoverDate), begun));
    }

    /** Lock the months, become the book of record, say so, and only then drop the copied open items. */
    method FinishCutover(through: Month, begun: CutoverRecord)
      modifies this
      ensures View() == WrittenAll(old(View()), Finish(through, begun))
    {
      ghost var start := View();
      TwoWrites(start, LockMonths(through), SetBook(RGNR8_BOOK));
      locks := LockedThrough(locks, through);
      book := RGNR8_BOOK;
      ghost var between := View();
      TwoWrites(between, SaveRecord(begun.(state := LIVE)), ReplaceItems(NoSnapshot));
      record := Some(begun.(state := LIVE));
      snapshot := NoSnapshot;
      WritesAppend(start, [LockMonths(through), SetBook(RGNR8_BOOK)], [SaveRecord(begun.(state := LIVE)), ReplaceItems(NoSnapshot)]);
      assert Finish(through, begun) == [LockMonths(through), SetBook(RGNR8_BOOK)] + [SaveRecord(begun.(state := LIVE)), ReplaceItems(NoSnapshot)];
    }

    method WriteDocs(report: SignedReport, arCode: string, apCode: string, ghost start: World, ghost before: seq<Write>)
      requires View() == WrittenAll(start, before)
      modifies this
      ensures View() == WrittenAll(start, before + AllDocWrites(report.docs, report.cutoverDate, arCode, apCode))
    {
      var docs, date := report.docs, report.cutoverDate;
      ghost var done := [];
      assert before + [] == before;
      for i := 0 to |docs|
        invariant done == AllDocWrites(docs[..i], date, arCode, apCode)
        invariant View() == WrittenAll(start, before + done)
      {
        assert docs[..i + 1][..i] == docs[..i];
        ghost var next := DocWrites(docs[i], date, arCode, apCode);
        WriteDoc(docs[i], date, arCode, apCode);
        WritesAppend(start, before + done, next);
        assert before + done + next == before + (done + next);
        done := done + next;
      }
      assert docs[..|docs|] == docs;
    }

    method WriteDoc(d: PlannedDoc, date: Date, arCode: string, apCode: string)
      modifies this
      ensures View() == WrittenAll(old(View()), DocWrites(d, date, arCode, apCode))
    {
      ghost var start := View();
      var partyKind := if d.kind == INVOICE then CUSTOMER else VENDOR;
      var party := Party(d.partyId, d.partyName);
      var doc := DocFor(d, date, if d.kind == INVOICE then arCode else apCode);
      TwoWrites(start, EnsureParty(partyKind, party), SaveDocument(doc));
      if (partyKind, d.partyId) !in items.parties {
        items := items.(parties := items.parties[(partyKind, d.partyId) := party]);
      }
      items := items.(docs := items.docs[(doc.kind, doc.id) := doc]);
    }

    method BackOutCutover(now: string) returns (r: Result<CutoverRecord, CutoverError>)
      modifies this
      ensures r.Err? <==> BackoutBlocker(old(View())).Some?
      ensures r.Err? ==> Some(r.error) == BackoutBlocker(old(View())) && View() == old(View())
      ensures r.Ok? ==> old(record).Some? && View() == WrittenAll(old(View()), BackOutWrites(old(record).value, now))
    {
      var blocker := BackoutBlocker(View());
      if blocker.Some? {
        return Err(blocker.value);
      }
      ghost var start := View();
      var rec := record.value;
      ghost var done: seq<Write> := [];
      for i := 0 to |rec.docs|
        invariant done == Deletes(rec.docs)[..i]
        invariant View() == WrittenAll(start, done)
      {
        OneMoreWrite(start, done, DeleteDocument(rec.docs[i]));
        items := items.(docs := items.docs - {rec.docs[i]});
        done := done + [DeleteDocument(rec.docs[i])];
        assert done == Deletes(rec.docs)[..i + 1];
      }
      assert done == Deletes(rec.docs);
      OneMoreWrite(start, done, SetBook(QUICKBOOKS_BOOK));
      book := QUICKBOOKS_BOOK;
      var backedOut := rec.(state := BACKED_OUT, backedOutAt := now);
      OneMoreWrite(start, done + [SetBook(QUICKBOOKS_BOOK)], SaveRecord(backedOut));
      record := Some(backedOut);
      assert done + [SetBook(QUICKBOOKS_BOOK)] + [SaveRecord(backedOut)] == BackOutWrites(rec, now);
      return Ok(backedOut);
    }
  }

  lemma OneMoreWrite(w: World, writes: seq<Write>, write: Write)
    ensures WrittenAll(w, writes + [write]) == Written(WrittenAll(w, writes), write)
  {
    assert (writes + [write])[..|writes|] == writes;
  }

  lemma TwoWrites(w: World, first: Write, second: Write)
    ensures WrittenAll(w, [first, second]) == Written(Written(w, first), second)
  {
    OneMoreWrite(w, [], first);
    OneMoreWrite(w, [first], second);
    assert [] + [first] == [first] && [first] + [second] == [first, second];
  }

  lemma {:induction false} WritesAppend(w: World, a: seq<Write>, b: seq<Write>)
    ensures WrittenAll(w, a + b) == WrittenAll(WrittenAll(w, a), b)
  {
    if b == [] {
      assert a + b == a;
    } else {
      assert (a + b)[..|a + b| - 1] == a + b[..|b| - 1];
      WritesAppend(w, a, b[..|b| - 1]);
    }
  }

  /** The accounts among some rows that hold a balance, each once. */
  ghost predicate HeldSoFar(log: seq<Entry>, chart: Chart, st: AccountSubtype, rows: seq<Row>, ids: seq<AccountId>) {
    && (forall a :: a in ids <==> a in RowIds(rows) && Holds(log, chart, st, a))
    && (forall j, k :: 0 <= j < k < |ids| ==> ids[j] != ids[k])
  }

  lemma NextHeld(log: seq<Entry>, chart: Chart, st: AccountSubtype, rows: seq<Row>, i: nat, ids: seq<AccountId>)
    requires i < |rows| && DistinctRows(rows) && HeldSoFar(log, chart, st, rows[..i], ids)
    ensures HeldSoFar(log, chart, st, rows[..i + 1],
                      if Holds(log, chart, st, rows[i].account.id) then ids + [rows[i].account.id] else ids)
  {
    var a := rows[i].account.id;
    assert rows[..i + 1] == rows[..i] + [rows[i]];
    AppendedRowId(rows[..i], rows[i]);
    assert a !in RowIds(rows[..i]);
    assert forall b :: b in ids + [a] <==> b in ids || b == a;
  }

  lemma HeldOnes(log: seq<Entry>, chart: Chart, st: AccountSubtype, rows: seq<Row>, ids: seq<AccountId>)
    requires IsTrialBalance(rows, LinesIn(log, Always), chart)
    requires HeldSoFar(log, chart, st, rows, ids)
    ensures |ids| <= 1 <==> HeldByAtMostOne(log, chart, st)
  {
    if |ids| > 1 {
      assert ids[0] in ids && ids[1] in ids && ids[0] != ids[1];
    } else {
      forall a, b | Holds(log, chart, st, a) && Holds(log, chart, st, b) ensures a == b {
        assert a in RowIds(rows) && b in RowIds(rows);
        assert a in ids && b in ids;
      }
    }
  }
}
