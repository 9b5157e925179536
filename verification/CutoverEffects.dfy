/** What a completed cutover has done, write by write (ledger-service cutover.ts). */
module CutoverEffects {
  import opened Text
  import opened Dates
  import opened Ledger
  import opened Periods
  import opened LedgerStore
  import opened Documents
  import opened Cutover
  import opened CutoverRuns
  import ArAp

  /** Everything up to the locks: the record and the documents. */
  function Prelude(w: World, report: SignedReport, begun: CutoverRecord): seq<Write> {
    [SaveRecord(begun)]
    + AllDocWrites(report.docs, report.cutoverDate, ArAp.ControlCode(w.chart, ACCOUNTS_RECEIVABLE, ArAp.DEFAULT_AR),
                   ArAp.ControlCode(w.chart, ACCOUNTS_PAYABLE, ArAp.DEFAULT_AP))
  }

  lemma WritesAre(w: World, report: SignedReport, begun: CutoverRecord)
    ensures CutoverWrites(w.chart, report, begun) == Prelude(w, report, begun) + Finish(MonthOf(report.cutoverDate), begun)
  {
  }

  // --- the prelude ------------------------------------------------------------------------------------

  /** A write that moves neither the book of record nor a lock nor the copied open items. */
  ghost predicate Quiet(write: Write) {
    write.SaveRecord? || write.EnsureParty? || write.SaveDocument?
  }

  ghost predicate AllQuiet(writes: seq<Write>) {
    forall i :: 0 <= i < |writes| ==> Quiet(writes[i])
  }

  lemma {:induction false} QuietWritesKeep(w: World, writes: seq<Write>)
    requires AllQuiet(writes)
    ensures var after := WrittenAll(w, writes);
            after.book == w.book && after.locks == w.locks && after.snapshot == w.snapshot && after.log == w.log
            && after.items.payments == w.items.payments
  {
    if writes != [] {
      QuietWritesKeep(w, writes[..|writes| - 1]);
    }
  }

  lemma {:induction false} DocWritesAreQuiet(docs: seq<PlannedDoc>, date: Date, arCode: string, apCode: string)
    ensures AllQuiet(AllDocWrites(docs, date, arCode, apCode))
  {
    if docs != [] {
      var front, last := docs[..|docs| - 1], docs[|docs| - 1];
      DocWritesAreQuiet(front, date, arCode, apCode);
      QuietTogether(AllDocWrites(front, date, arCode, apCode), DocWrites(last, date, arCode, apCode));
    }
  }

  lemma QuietTogether(a: seq<Write>, b: seq<Write>)
    requires AllQuiet(a) && AllQuiet(b)
    ensures AllQuiet(a + b)
  {
  }

  lemma PreludeIsQuiet(w: World, report: SignedReport, begun: CutoverRecord)
    ensures AllQuiet(Prelude(w, report, begun))
  {
    var docWrites := AllDocWrites(report.docs, report.cutoverDate, ArAp.ControlCode(w.chart, ACCOUNTS_RECEIVABLE, ArAp.DEFAULT_AR),
                                  ArAp.ControlCode(w.chart, ACCOUNTS_PAYABLE, ArAp.DEFAULT_AP));
    DocWritesAreQuiet(report.docs, report.cutoverDate, ArAp.ControlCode(w.chart, ACCOUNTS_RECEIVABLE, ArAp.DEFAULT_AR),
                      ArAp.ControlCode(w.chart, ACCOUNTS_PAYABLE, ArAp.DEFAULT_AP));
    QuietTogether([SaveRecord(begun)], docWrites);
  }

  // --- the locks --------------------------------------------------------------------------------------

  ghost predicate LockedUpTo(l: Locks, m: Month) {
    forall q :: q <= m ==> StatusOf(l, q) == LOCKED
  }

  /** A prefix of the closing writes: the months are locked before the book of record moves. */
  lemma FinishPrefix(w: World, through: Month, begun: CutoverRecord, k: nat)
    requires k <= |Finish(through, begun)|
    ensures FinishedTo(w, WrittenAll(w, Finish(through, begun)[..k]), through, begun, k)
  {
    var f := Finish(through, begun);
    if k > 0 {
      FinishPrefix(w, through, begun, k - 1);
      assert f[..k] == f[..k - 1] + [f[k - 1]];
      OneMoreWrite(w, f[..k - 1], f[k - 1]);
      FinishStep(w, WrittenAll(w, f[..k - 1]), through, begun, k - 1);
    }
  }

  /** The world after the first k closing writes. */
  ghost predicate FinishedTo(w: World, after: World, through: Month, begun: CutoverRecord, k: nat) {
    && after.items == w.items && after.log == w.log && after.chart == w.chart
    && after.locks == (if k >= 1 then LockedThrough(w.locks, through) else w.locks)
    && after.book == (if k >= 2 then RGNR8_BOOK else w.book)
    && after.record == (if k >= 3 then Some(begun.(state := LIVE)) else w.record)
    && after.snapshot == (if k >= 4 then NoSnapshot else w.snapshot)
  }

  lemma FinishStep(w: World, before: World, through: Month, begun: CutoverRecord, k: nat)
    requires k < |Finish(through, begun)| && FinishedTo(w, before, through, begun, k)
    ensures FinishedTo(w, Written(before, Finish(through, begun)[k]), through, begun, k + 1)
  {
  }

  /** What any prefix of an accepted cutover's writes is: part of the prelude, or all of it and part of the finish. */
  lemma PrefixSplits(w: World, report: SignedReport, begun: CutoverRecord, k: nat)
    requires k <= |CutoverWrites(w.chart, report, begun)|
    ensures var p, f := Prelude(w, report, begun), Finish(MonthOf(report.cutoverDate), begun);
            var after := WrittenAll(w, CutoverWrites(w.chart, report, begun)[..k]);
            && (k <= |p| ==> after == WrittenAll(w, p[..k]))
            && (k >= |p| ==> k - |p| <= |f| && after == WrittenAll(WrittenAll(w, p), f[..k - |p|]))
  {
    var p, f := Prelude(w, report, begun), Finish(MonthOf(report.cutoverDate), begun);
    WritesAre(w, report, begun);
    if k <= |p| {
      assert (p + f)[..k] == p[..k];
    }
    if k >= |p| {
      assert (p + f)[..k] == p + f[..k - |p|];
      WritesAppend(w, p, f[..k - |p|]);
    }
  }

  /**
   * At every point of an accepted cutover where RGNR8 is the book of record, every month through the
   * cutover's is locked already.
   */
  lemma LiveBooksAreLocked(n: Naming, w: World, req: ExecuteRequest, today: Date, now: string, k: nat)
    requires Accepts(n, w, req, today)
    requires var report := ReportOn(n, w, req.cutoverDate);
             k <= |CutoverWrites(w.chart, report, Begun(report, req, now))|
    ensures var report := ReportOn(n, w, req.cutoverDate);
            var at := WrittenAll(w, CutoverWrites(w.chart, report, Begun(report, req, now))[..k]);
            at.book == RGNR8_BOOK ==> LockedUpTo(at.locks, MonthOf(req.cutoverDate))
  {
    var report := ReportOn(n, w, req.cutoverDate);
    var begun := Begun(report, req, now);
    var p := Prelude(w, report, begun);
    PrefixSplits(w, report, begun, k);
    PreludeIsQuiet(w, report, begun);
    if k <= |p| {
      QuietWritesKeep(w, p[..k]);
    } else {
      QuietWritesKeep(w, p);
      FinishPrefix(WrittenAll(w, p), MonthOf(report.cutoverDate), begun, k - |p|);
    }
  }

  /** The world after an accepted cutover. */
  ghost function After(n: Naming, w: World, req: ExecuteRequest, now: string): World {
    var report := ReportOn(n, w, req.cutoverDate);
    WrittenAll(w, CutoverWrites(w.chart, report, Begun(report, req, now)))
  }

  /**
   * A completed cutover leaves a live record of what was signed, drops the copied open items, moves the book of
   * record, locks every month through its own, and leaves a later month as it was unless that one had been
   * re-opened below a higher mark.
   */
  lemma CompletedCutoverLocks(n: Naming, w: World, req: ExecuteRequest, today: Date, now: string)
    requires Accepts(n, w, req, today)
    ensures var after, through := After(n, w, req, now), MonthOf(req.cutoverDate);
            && after.book == RGNR8_BOOK && after.snapshot == NoSnapshot && after.log == w.log
            && after.items.payments == w.items.payments
            && after.record.Some? && after.record.value.state == LIVE && after.record.value.cutoverDate == req.cutoverDate
            && after.record.value.signedBy == Trim(req.signedBy) && after.record.value.executedAt == now
            && LockedUpTo(after.locks, through)
            && forall q :: q > through ==>
                 (StatusOf(after.locks, q) == StatusOf(w.locks, q) <==> !(q in w.locks.reopened && Covered(w.locks, q)))
  {
    var report := ReportOn(n, w, req.cutoverDate);
    var begun := Begun(report, req, now);
    var p, f := Prelude(w, report, begun), Finish(MonthOf(report.cutoverDate), begun);
    WritesAre(w, report, begun);
    PreludeIsQuiet(w, report, begun);
    QuietWritesKeep(w, p);
    WritesAppend(w, p, f);
    assert f[..4] == f;
    FinishPrefix(WrittenAll(w, p), MonthOf(report.cutoverDate), begun, 4);
    forall q | q > MonthOf(req.cutoverDate)
      ensures StatusOf(LockedThrough(w.locks, MonthOf(req.cutoverDate)), q) == StatusOf(w.locks, q)
              <==> !(q in w.locks.reopened && Covered(w.locks, q))
    {
      LockingThrough(w.locks, MonthOf(req.cutoverDate), q);
    }
  }

  // --- the documents ----------------------------------------------------------------------------------

  /** The document an open item became: unpaid, for its open amount, in its party's name. */
  ghost predicate StandsFor(d: Doc, i: OpenItem) {
    && d.kind == i.kind && d.date == i.date && d.open == d.total == d.net == i.open && d.tax == 0
    && d.status == DocStatus.OPEN
    && (i.kind == INVOICE && i.number != "" ==> d.id == i.number)
    && (i.kind == INVOICE && i.number == "" ==> d.id == "QBO-INV-" + i.qboId)
    && (i.kind == BILL ==> d.id == "QBO-BILL-" + i.qboId)
    && d.taxRatePpm == 0 && |d.lines| == 1 && d.lines[0].amount == d.lines[0].unitAmount == i.open
    && d.lines[0].quantity == 1 && !d.lines[0].taxable
  }

  /** A planned document names its party by kind: a customer's id and name for an invoice, a vendor's for a bill. */
  lemma PlannedParty(n: Naming, i: OpenItem)
    ensures var d := PlanDoc(n, i);
            && (i.kind == INVOICE ==> d.partyId == "qbo-c-" + n.slug(i.party))
            && (i.kind == BILL ==> d.partyId == "qbo-v-" + n.slug(i.party))
            && (i.party != "" ==> d.partyName == i.party)
            && (i.party == "" && i.kind == INVOICE ==> d.partyName == "Customer")
            && (i.party == "" && i.kind == BILL ==> d.partyName == "Vendor")
            && d.qboId == i.qboId
  {
  }

  /** Writing one document adds its party under the planned name, unless the party is there already. */
  lemma PartyIsEnsured(w: World, d: PlannedDoc, date: Date, arCode: string, apCode: string)
    ensures var kind := if d.kind == INVOICE then CUSTOMER else VENDOR;
            var after := WrittenAll(w, DocWrites(d, date, arCode, apCode)).items.parties;
            after == if (kind, d.partyId) in w.items.parties then w.items.parties
                     else w.items.parties[(kind, d.partyId) := Party(d.partyId, d.partyName)]
  {
    var writes := DocWrites(d, date, arCode, apCode);
    TwoWrites(w, writes[0], writes[1]);
  }

  ghost predicate Stored(items: Items, d: PlannedDoc, arCode: string, apCode: string) {
    && (d.kind, d.id) in items.docs && items.docs[(d.kind, d.id)].id == d.id && items.docs[(d.kind, d.id)].kind == d.kind
    && items.docs[(d.kind, d.id)].date == d.date && items.docs[(d.kind, d.id)].partyId == d.partyId
    && items.docs[(d.kind, d.id)].open == items.docs[(d.kind, d.id)].total == items.docs[(d.kind, d.id)].net == d.open
    && items.docs[(d.kind, d.id)].tax == 0 && items.docs[(d.kind, d.id)].status == DocStatus.OPEN
    && items.docs[(d.kind, d.id)].taxRatePpm == 0
    && HoldsOneLine(items.docs[(d.kind, d.id)].lines, d, arCode, apCode)
    && (if d.kind == INVOICE then CUSTOMER else VENDOR, d.partyId) in items.parties
  }

  /** One untaxed line for the open amount, on the control account of the document's kind. */
  ghost predicate HoldsOneLine(lines: seq<DocLine>, d: PlannedDoc, arCode: string, apCode: string) {
    && |lines| == 1 && lines[0].amount == lines[0].unitAmount == d.open && lines[0].quantity == 1 && !lines[0].taxable
    && lines[0].accountCode == if d.kind == INVOICE then arCode else apCode
  }

  lemma {:induction false} DocsAreStored(w: World, docs: seq<PlannedDoc>, date: Date, arCode: string, apCode: string)
    requires forall i, j :: 0 <= i < j < |docs| ==> (docs[i].kind, docs[i].id) != (docs[j].kind, docs[j].id)
    ensures var items := WrittenAll(w, AllDocWrites(docs, date, arCode, apCode)).items;
            forall i :: 0 <= i < |docs| ==> Stored(items, docs[i], arCode, apCode)
  {
    if docs != [] {
      var front, last := docs[..|docs| - 1], docs[|docs| - 1];
      DocsAreStored(w, front, date, arCode, apCode);
      WritesAppend(w, AllDocWrites(front, date, arCode, apCode), DocWrites(last, date, arCode, apCode));
      var before := WrittenAll(w, AllDocWrites(front, date, arCode, apCode));
      forall i | 0 <= i < |docs|
        ensures Stored(WrittenAll(before, DocWrites(last, date, arCode, apCode)).items, docs[i], arCode, apCode)
      {
        if i < |front| {
          assert Stored(before.items, front[i], arCode, apCode);
        }
        DocIsStored(before, last, date, arCode, apCode, docs[i]);
      }
    }
  }

  lemma DocIsStored(w: World, last: PlannedDoc, date: Date, arCode: string, apCode: string, d: PlannedDoc)
    requires d == last || ((d.kind, d.id) != (last.kind, last.id) && Stored(w.items, d, arCode, apCode))
    ensures Stored(WrittenAll(w, DocWrites(last, date, arCode, apCode)).items, d, arCode, apCode)
  {
    var writes := DocWrites(last, date, arCode, apCode);
    TwoWrites(w, writes[0], writes[1]);
  }

  /** After a completed cutover every copied open item is an unpaid document for what it left open. */
  lemma OpenItemsAreDocuments(n: Naming, w: World, req: ExecuteRequest, today: Date, now: string, i: nat)
    requires Accepts(n, w, req, today) && i < |w.snapshot.items|
    ensures var items := After(n, w, req, now).items;
            var d := PlanDoc(n, w.snapshot.items[i]);
            && (d.kind, d.id) in items.docs && StandsFor(items.docs[(d.kind, d.id)], w.snapshot.items[i])
            && items.docs[(d.kind, d.id)].partyId == d.partyId
            && items.docs[(d.kind, d.id)].lines[0].accountCode
               == (if d.kind == INVOICE then ArAp.ControlCode(w.chart, ACCOUNTS_RECEIVABLE, ArAp.DEFAULT_AR)
                   else ArAp.ControlCode(w.chart, ACCOUNTS_PAYABLE, ArAp.DEFAULT_AP))
            && (if d.kind == INVOICE then CUSTOMER else VENDOR, items.docs[(d.kind, d.id)].partyId) in items.parties
  {
    var report := ReportOn(n, w, req.cutoverDate);
    var begun := Begun(report, req, now);
    var arCode := ArAp.ControlCode(w.chart, ACCOUNTS_RECEIVABLE, ArAp.DEFAULT_AR);
    var apCode := ArAp.ControlCode(w.chart, ACCOUNTS_PAYABLE, ArAp.DEFAULT_AP);
    var p, f := Prelude(w, report, begun), Finish(MonthOf(report.cutoverDate), begun);
    WritesAre(w, report, begun);
    WritesAppend(w, p, f);
    assert f[..4] == f;
    FinishPrefix(WrittenAll(w, p), MonthOf(report.cutoverDate), begun, 4);
    WritesAppend(w, [SaveRecord(begun)], AllDocWrites(report.docs, report.cutoverDate, arCode, apCode));
    DocKeysDiffer(report.docs, w.items.docs);
    DocsAreStored(WrittenAll(w, [SaveRecord(begun)]), report.docs, report.cutoverDate, arCode, apCode);
    assert Stored(WrittenAll(w, p).items, report.docs[i], arCode, apCode);
  }

  lemma DocKeysDiffer(docs: seq<PlannedDoc>, there: map<(DocKind, string), Doc>)
    requires NumbersAreFree(DocKeys(docs), there)
    ensures forall i, j :: 0 <= i < j < |docs| ==> (docs[i].kind, docs[i].id) != (docs[j].kind, docs[j].id)
  {
    forall i, j | 0 <= i < j < |docs| ensures (docs[i].kind, docs[i].id) != (docs[j].kind, docs[j].id) {
      assert DocKeys(docs)[i] != DocKeys(docs)[j];
    }
  }

  // --- when a cutover may go ahead ------------------------------------------------------------------

  /** Every condition of an accepted cutover, spelled out. */
  lemma CutoverAcceptedIff(n: Naming, w: World, req: ExecuteRequest, today: Date)
    ensures var date, docs := req.cutoverDate, PlanDocs(n, w.snapshot.items);
            var arBooks, apBooks := SubtypeNet(w.log, w.chart, ACCOUNTS_RECEIVABLE), -SubtypeNet(w.log, w.chart, ACCOUNTS_PAYABLE);
            Accepts(n, w, req, today) <==>
            && Trim(req.signedBy) != ""
            && (w.record.None? || w.record.value.state == LIVE || w.record.value.state == BACKED_OUT)
            && w.book == QUICKBOOKS_BOOK && IsMonthEnd(date) && date < today
            && (forall e :: e in w.log ==> FromQuickBooks(e.draft)) && (exists e :: e in w.log && e.Date() >= date)
            && w.snapshot.asOf.Some? && w.snapshot.asOf.value >= date
            && NumbersAreFree(DocKeys(docs), w.items.docs) && ControlsAreSingle(w.log, w.chart)
            && n.hash(ReportOn(n, w, date)) == req.reportHash
            && (req.acceptDifferences || (arBooks == OpenSum(docs, INVOICE) && apBooks == OpenSum(docs, BILL)))
  {
  }

  // --- parties and the guard ------------------------------------------------------------------------

  /** Saving a cutover's documents never rewrites a party that is there. */
  lemma {:induction false} QuietWritesKeepParties(w: World, writes: seq<Write>, k: (PartyKind, string))
    requires AllQuiet(writes) && k in w.items.parties
    ensures var parties := WrittenAll(w, writes).items.parties; k in parties && parties[k] == w.items.parties[k]
  {
    if writes != [] {
      QuietWritesKeepParties(w, writes[..|writes| - 1], k);
    }
  }

  /** An entry copied from QuickBooks: its source says so, and its key is a mirror's or an opening's. */
  ghost predicate FromQuickBooks(d: Draft) {
    d.payload.provenance.sourceSystem == "quickbooks" && ("qbo-mirror:" <= d.key || "cutover:opening:" <= d.key)
  }

  /** An append goes through exactly when it is a copy and no cutover stands, or is none and RGNR8 keeps the books. */
  lemma AppendGoesThroughIff(w: World, d: Draft)
    ensures GuardOf(w, d).None? <==>
            if FromQuickBooks(d) then w.record.None? || w.record.value.state == BACKED_OUT else w.book == RGNR8_BOOK
    ensures GuardOf(w, d).Some? ==> GuardedAppend(w, d) == w
    ensures GuardOf(w, d).None? ==> GuardedAppend(w, d) == w.(log := Appended(w.log, d))
  {
  }

  /** While QuickBooks keeps the books, every entry of the journal came from it, over every run. */
  lemma QuickBooksJournalIsCopied(w: World)
    requires Copies(w.log)
    ensures forall e :: e in w.log ==> FromQuickBooks(e.draft)
  {
  }
}
