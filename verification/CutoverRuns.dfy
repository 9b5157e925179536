/** Crash safety of cutover and back-out, and what every run of guarded writes keeps. */
module CutoverRuns {
  import opened Text
  import opened Dates
  import opened Ledger
  import opened Periods
  import opened LedgerStore
  import opened Documents
  import opened Cutover
  import ArAp

  // --- a cutover cut short -----------------------------------------------------------------------------

  /** A write that only touches what the begun cutover owns. */
  ghost predicate Owned(keys: seq<(DocKind, string)>, write: Write) {
    match write
    case SaveRecord(r) => r.docs == keys && r.state != BACKED_OUT
    case EnsureParty(_, _) => true
    case SaveDocument(d) => (d.kind, d.id) in keys && d.open == d.total
    case DeleteDocument(key) => key in keys
    case LockMonths(_) => true
    case SetBook(_) => true
    case ReplaceItems(_) => true
  }

  ghost predicate AllOwned(keys: seq<(DocKind, string)>, writes: seq<Write>) {
    forall i :: 0 <= i < |writes| ==> Owned(keys, writes[i])
  }

  /** Part-way: the record is active, the journal untouched, and only the cutover's own documents differ. */
  ghost predicate PartWay(start: World, keys: seq<(DocKind, string)>, w: World) {
    && w.log == start.log && w.chart == start.chart
    && Active(w.record) && w.record.value.docs == keys
    && (forall key :: key in keys && key in w.items.docs ==> w.items.docs[key].open == w.items.docs[key].total)
    && w.items.payments == start.items.payments
    && (forall key :: key !in keys ==>
          (key in w.items.docs <==> key in start.items.docs)
          && (key in w.items.docs ==> w.items.docs[key] == start.items.docs[key]))
  }

  lemma OwnedWriteStaysPartWay(start: World, keys: seq<(DocKind, string)>, w: World, write: Write)
    requires PartWay(start, keys, w) && Owned(keys, write)
    ensures PartWay(start, keys, Written(w, write))
  {
  }

  lemma {:induction false} OwnedWritesStayPartWay(start: World, keys: seq<(DocKind, string)>, w: World, writes: seq<Write>)
    requires PartWay(start, keys, w) && AllOwned(keys, writes)
    ensures PartWay(start, keys, WrittenAll(w, writes))
  {
    if writes != [] {
      OwnedWritesStayPartWay(start, keys, w, writes[..|writes| - 1]);
      OwnedWriteStaysPartWay(start, keys, WrittenAll(w, writes[..|writes| - 1]), writes[|writes| - 1]);
    }
  }

  lemma {:induction false} DocWritesAreOwned(docs: seq<PlannedDoc>, date: Date, arCode: string, apCode: string,
                                             keys: seq<(DocKind, string)>)
    requires forall i :: 0 <= i < |docs| ==> (docs[i].kind, docs[i].id) in keys
    ensures AllOwned(keys, AllDocWrites(docs, date, arCode, apCode))
  {
    if docs != [] {
      DocWritesAreOwned(docs[..|docs| - 1], date, arCode, apCode, keys);
      OneDocIsOwned(docs[|docs| - 1], date, arCode, apCode, keys);
    }
  }

  lemma OneDocIsOwned(d: PlannedDoc, date: Date, arCode: string, apCode: string, keys: seq<(DocKind, string)>)
    requires (d.kind, d.id) in keys
    ensures AllOwned(keys, DocWrites(d, date, arCode, apCode))
  {
  }

  lemma CutoverWritesAreOwned(w: World, report: SignedReport, begun: CutoverRecord)
    requires begun.docs == DocKeys(report.docs) && begun.state == EXECUTING
    ensures AllOwned(begun.docs, CutoverWrites(w.chart, report, begun))
    ensures CutoverWrites(w.chart, report, begun)[0] == SaveRecord(begun)
  {
    var arCode := ArAp.ControlCode(w.chart, ACCOUNTS_RECEIVABLE, ArAp.DEFAULT_AR);
    var apCode := ArAp.ControlCode(w.chart, ACCOUNTS_PAYABLE, ArAp.DEFAULT_AP);
    forall i | 0 <= i < |report.docs| ensures (report.docs[i].kind, report.docs[i].id) in begun.docs {
      assert DocKeys(report.docs)[i] == (report.docs[i].kind, report.docs[i].id);
    }
    DocWritesAreOwned(report.docs, report.cutoverDate, arCode, apCode, begun.docs);
  }

  /** After any non-empty prefix of the cutover's writes, the world is part-way. */
  lemma CrashLeavesPartWay(n: Naming, w: World, req: ExecuteRequest, today: Date, now: string, k: nat)
    requires Accepts(n, w, req, today)
    requires 0 < k <= |CutoverWrites(w.chart, ReportOn(n, w, req.cutoverDate), Begun(ReportOn(n, w, req.cutoverDate), req, now))|
    ensures var report := ReportOn(n, w, req.cutoverDate);
            var begun := Begun(report, req, now);
            PartWay(w, begun.docs, WrittenAll(w, CutoverWrites(w.chart, report, begun)[..k]))
  {
    var report := ReportOn(n, w, req.cutoverDate);
    var begun := Begun(report, req, now);
    var writes := CutoverWrites(w.chart, report, begun);
    CutoverWritesAreOwned(w, report, begun);
    KeysAreFree(n, w, req, today, begun.docs);
    PrefixStaysPartWay(w, begun, writes, k);
  }

  lemma PrefixStaysPartWay(w: World, begun: CutoverRecord, writes: seq<Write>, k: nat)
    requires 0 < k <= |writes| && writes[0] == SaveRecord(begun) && AllOwned(begun.docs, writes)
    requires begun.state != BACKED_OUT && forall key :: key in begun.docs ==> key !in w.items.docs
    ensures PartWay(w, begun.docs, WrittenAll(w, writes[..k]))
  {
    FirstWrite(w, begun);
    assert writes[..k] == [SaveRecord(begun)] + writes[1..k];
    WritesAppend(w, [SaveRecord(begun)], writes[1..k]);
    OwnedWritesStayPartWay(w, begun.docs, w.(record := Some(begun)), writes[1..k]);
  }

  lemma FirstWrite(w: World, begun: CutoverRecord)
    ensures WrittenAll(w, [SaveRecord(begun)]) == w.(record := Some(begun))
  {
    OneMoreWrite(w, [], SaveRecord(begun));
    assert [] + [SaveRecord(begun)] == [SaveRecord(begun)];
  }

  lemma KeysAreFree(n: Naming, w: World, req: ExecuteRequest, today: Date, keys: seq<(DocKind, string)>)
    requires Accepts(n, w, req, today) && keys == DocKeys(ReportOn(n, w, req.cutoverDate).docs)
    ensures forall key :: key in keys ==> key !in w.items.docs
    ensures w.book == QUICKBOOKS_BOOK && Copies(w.log)
  {
    forall key | key in keys ensures key !in w.items.docs {
      var i :| 0 <= i < |keys| && keys[i] == key;
      assert NumbersAreFree(keys, w.items.docs);
    }
  }

  // --- a cutover completed --------------------------------------------------------------------------------

  /** The documents a cutover writes open exactly the amounts its plan lists. */
  lemma {:induction false} DocWritesOpen(w: World, docs: seq<PlannedDoc>, date: Date, arCode: string, apCode: string, kind: DocKind)
    requires NumbersAreFree(DocKeys(docs), w.items.docs)
    ensures var after := WrittenAll(w, AllDocWrites(docs, date, arCode, apCode)).items.docs;
            && OpenTotal(after, kind) == OpenTotal(w.items.docs, kind) + OpenSum(docs, kind)
            && forall key :: key in after ==> key in w.items.docs || key in DocKeys(docs)
  {
    if docs != [] {
      var front, last := docs[..|docs| - 1], docs[|docs| - 1];
      FrontIsFree(docs, w.items.docs);
      DocWritesOpen(w, front, date, arCode, apCode, kind);
      var before := WrittenAll(w, AllDocWrites(front, date, arCode, apCode));
      WritesAppend(w, AllDocWrites(front, date, arCode, apCode), DocWrites(last, date, arCode, apCode));
      LastKeyIsFree(docs, w.items.docs, before.items.docs);
      OneDocOpens(before, last, date, arCode, apCode, kind);
    }
  }

  lemma FrontIsFree(docs: seq<PlannedDoc>, start: map<(DocKind, string), Doc>)
    requires docs != [] && NumbersAreFree(DocKeys(docs), start)
    ensures var front, last := docs[..|docs| - 1], docs[|docs| - 1];
            NumbersAreFree(DocKeys(front), start) && DocKeys(docs) == DocKeys(front) + [(last.kind, last.id)]
  {
    assert DocKeys(docs[..|docs| - 1]) == DocKeys(docs)[..|docs| - 1];
  }

  lemma LastKeyIsFree(docs: seq<PlannedDoc>, start: map<(DocKind, string), Doc>, before: map<(DocKind, string), Doc>)
    requires docs != [] && NumbersAreFree(DocKeys(docs), start)
    requires forall key :: key in before ==> key in start || key in DocKeys(docs[..|docs| - 1])
    ensures (docs[|docs| - 1].kind, docs[|docs| - 1].id) !in before
  {
    var n := |docs| - 1;
    assert DocKeys(docs[..n]) == DocKeys(docs)[..n];
    assert DocKeys(docs)[n] == (docs[n].kind, docs[n].id);
    assert forall i :: 0 <= i < n ==> DocKeys(docs)[i] != DocKeys(docs)[n];
  }

  lemma OneDocOpens(w: World, d: PlannedDoc, date: Date, arCode: string, apCode: string, kind: DocKind)
    requires (d.kind, d.id) !in w.items.docs
    ensures var after := WrittenAll(w, DocWrites(d, date, arCode, apCode)).items.docs;
            && OpenTotal(after, kind) == OpenTotal(w.items.docs, kind) + (if d.kind == kind then d.open else 0)
            && forall key :: key in after <==> key in w.items.docs || key == (d.kind, d.id)
  {
    var writes := DocWrites(d, date, arCode, apCode);
    TwoWrites(w, writes[0], writes[1]);
    OpenTotalAfterUpdate(w.items.docs, (d.kind, d.id), writes[1].doc, kind);
  }

  /** The last writes leave the documents alone. */
  lemma FinishKeepsDocs(w: World, through: Month, begun: CutoverRecord)
    ensures WrittenAll(w, Finish(through, begun)).items == w.items
    ensures WrittenAll(w, Finish(through, begun)).book == RGNR8_BOOK
  {
    var f := Finish(through, begun);
    TwoWrites(w, f[0], f[1]);
    TwoWrites(WrittenAll(w, [f[0], f[1]]), f[2], f[3]);
    WritesAppend(w, [f[0], f[1]], [f[2], f[3]]);
    assert f == [f[0], f[1]] + [f[2], f[3]];
  }

  /**
   * A completed cutover whose report ties, whatever documents were there: RGNR8 is the book of record, and
   * open invoices and bills have risen by exactly the A/R and A/P balances it took over. So they tie to
   * those balances exactly when nothing was open before.
   */
  lemma CompletedCutoverTiesOut(n: Naming, w: World, req: ExecuteRequest, today: Date, now: string)
    requires Accepts(n, w, req, today) && !req.acceptDifferences
    ensures var report := ReportOn(n, w, req.cutoverDate);
            var after := WrittenAll(w, CutoverWrites(w.chart, report, Begun(report, req, now)));
            && after.book == RGNR8_BOOK && after.log == w.log
            && OpenTotal(after.items.docs, INVOICE)
               == OpenTotal(w.items.docs, INVOICE) + SubtypeNet(w.log, w.chart, ACCOUNTS_RECEIVABLE)
            && OpenTotal(after.items.docs, BILL)
               == OpenTotal(w.items.docs, BILL) - SubtypeNet(w.log, w.chart, ACCOUNTS_PAYABLE)
  {
    var report := ReportOn(n, w, req.cutoverDate);
    var begun := Begun(report, req, now);
    CompletedOpens(w, report, begun, INVOICE);
    CompletedOpens(w, report, begun, BILL);
  }

  /** From books without documents, the open items are the balances taken over. */
  lemma FirstCutoverTiesOut(n: Naming, w: World, req: ExecuteRequest, today: Date, now: string)
    requires Accepts(n, w, req, today) && !req.acceptDifferences && w.items.docs == map[]
    ensures var report := ReportOn(n, w, req.cutoverDate);
            var after := WrittenAll(w, CutoverWrites(w.chart, report, Begun(report, req, now)));
            && OpenTotal(after.items.docs, INVOICE) == SubtypeNet(w.log, w.chart, ACCOUNTS_RECEIVABLE)
            && OpenTotal(after.items.docs, BILL) == -SubtypeNet(w.log, w.chart, ACCOUNTS_PAYABLE)
  {
    CompletedCutoverTiesOut(n, w, req, today, now);
    assert OpenAmounts(map[], INVOICE) == map[] && OpenAmounts(map[], BILL) == map[];
  }

  lemma CompletedOpens(w: World, report: SignedReport, begun: CutoverRecord, kind: DocKind)
    requires NumbersAreFree(DocKeys(report.docs), w.items.docs)
    ensures var after := WrittenAll(w, CutoverWrites(w.chart, report, begun));
            && OpenTotal(after.items.docs, kind) == OpenTotal(w.items.docs, kind) + OpenSum(report.docs, kind)
            && after.book == RGNR8_BOOK && after.log == w.log
  {
    var arCode := ArAp.ControlCode(w.chart, ACCOUNTS_RECEIVABLE, ArAp.DEFAULT_AR);
    var apCode := ArAp.ControlCode(w.chart, ACCOUNTS_PAYABLE, ArAp.DEFAULT_AP);
    var docWrites := AllDocWrites(report.docs, report.cutoverDate, arCode, apCode);
    var finish := Finish(MonthOf(report.cutoverDate), begun);
    var started := w.(record := Some(begun));
    FirstWrite(w, begun);
    WritesAppend(w, [SaveRecord(begun)], docWrites);
    DocWritesOpen(started, report.docs, report.cutoverDate, arCode, apCode, kind);
    WritesAppend(w, [SaveRecord(begun)] + docWrites, finish);
    FinishKeepsDocs(WrittenAll(started, docWrites), MonthOf(report.cutoverDate), begun);
    WritesKeepJournal(w, CutoverWrites(w.chart, report, begun));
  }

  // --- back-out -------------------------------------------------------------------------------------------

  function BackOut(w: World, now: string): (World, Result<CutoverRecord, CutoverError>) {
    match BackoutBlocker(w)
    case Some(e) => (w, Err(e))
    case None =>
      (WrittenAll(w, BackOutWrites(w.record.value, now)), Ok(w.record.value.(state := BACKED_OUT, backedOutAt := now)))
  }

  lemma {:induction false} DeletedDocs(w: World, keys: seq<(DocKind, string)>)
    ensures WrittenAll(w, Deletes(keys)) == w.(items := w.items.(docs := w.items.docs - (set key | key in keys)))
  {
    if keys == [] {
      assert w.items.docs - {} == w.items.docs;
    } else {
      var front, last := keys[..|keys| - 1], keys[|keys| - 1];
      assert Deletes(keys) == Deletes(front) + [DeleteDocument(last)];
      DeletedDocs(w, front);
      OneMoreWrite(w, Deletes(front), DeleteDocument(last));
      assert (set key | key in keys) == (set key | key in front) + {last};
      assert w.items.docs - (set key | key in front) - {last} == w.items.docs - (set key | key in keys);
    }
  }

  lemma BackedOutWorld(w: World, r: CutoverRecord, now: string)
    ensures WrittenAll(w, BackOutWrites(r, now)) ==
            w.(items := w.items.(docs := w.items.docs - (set key | key in r.docs)), book := QUICKBOOKS_BOOK,
               record := Some(r.(state := BACKED_OUT, backedOutAt := now)))
  {
    var tail := [SetBook(QUICKBOOKS_BOOK), SaveRecord(r.(state := BACKED_OUT, backedOutAt := now))];
    WritesAppend(w, Deletes(r.docs), tail);
    DeletedDocs(w, r.docs);
    TwoWrites(WrittenAll(w, Deletes(r.docs)), tail[0], tail[1]);
  }

  /**
   * From any part-way world, back-out is accepted and puts the documents and the book of record back
   * exactly as they were. Parties, locks and the copied open items are left as the cutover left them.
   */
  lemma PartWayBacksOut(start: World, keys: seq<(DocKind, string)>, w: World, now: string)
    requires PartWay(start, keys, w) && Copies(start.log) && start.book == QUICKBOOKS_BOOK
    requires forall key :: key in keys ==> key !in start.items.docs
    ensures var (after, r) := BackOut(w, now);
            && r.Ok? && !Active(after.record)
            && after == start.(items := start.items.(parties := w.items.parties), locks := w.locks,
                               record := after.record, snapshot := w.snapshot)
  {
    BackedOutWorld(w, w.record.value, now);
    var after := BackOut(w, now).0;
    forall key ensures key in after.items.docs <==> key in start.items.docs {
    }
    assert after.items.docs == start.items.docs;
  }

  /** Crash safety: a cutover stopped after any of its writes can be backed out, exactly. */
  lemma CrashedCutoverBacksOut(n: Naming, w: World, req: ExecuteRequest, today: Date, now: string, k: nat, later: string)
    requires Accepts(n, w, req, today)
    requires 0 < k <= |CutoverWrites(w.chart, ReportOn(n, w, req.cutoverDate), Begun(ReportOn(n, w, req.cutoverDate), req, now))|
    ensures var report := ReportOn(n, w, req.cutoverDate);
            var cut := WrittenAll(w, CutoverWrites(w.chart, report, Begun(report, req, now))[..k]);
            var (after, r) := BackOut(cut, later);
            && r.Ok? && after.items.docs == w.items.docs && after.book == w.book && after.log == w.log
            && after.items.payments == w.items.payments && !Active(after.record)
  {
    var report := ReportOn(n, w, req.cutoverDate);
    var begun := Begun(report, req, now);
    CrashLeavesPartWay(n, w, req, today, now, k);
    KeysAreFree(n, w, req, today, begun.docs);
    PartWayBacksOut(w, begun.docs, WrittenAll(w, CutoverWrites(w.chart, report, begun)[..k]), later);
  }

  /** A back-out that is itself stopped part-way can simply be run again, with the same result. */
  lemma CrashedBackOutBacksOut(start: World, keys: seq<(DocKind, string)>, w: World, now: string, k: nat, later: string)
    requires PartWay(start, keys, w) && Copies(start.log) && start.book == QUICKBOOKS_BOOK
    requires forall key :: key in keys ==> key !in start.items.docs
    requires k < |BackOutWrites(w.record.value, now)|
    ensures var cut := WrittenAll(w, BackOutWrites(w.record.value, now)[..k]);
            && BackOut(cut, later).1.Ok?
            && BackOut(cut, later).0 == BackOut(w, later).0
  {
    var writes := BackOutWrites(w.record.value, now)[..k];
    forall i | 0 <= i < |writes| ensures Owned(keys, writes[i]) {
    }
    OwnedWritesStayPartWay(start, keys, w, writes);
    var cut := WrittenAll(w, writes);
    KeptByBackOut(w, writes);
    PartWayBacksOut(start, keys, cut, later);
    PartWayBacksOut(start, keys, w, later);
    BackedOutWorld(w, w.record.value, later);
    BackedOutWorld(cut, cut.record.value, later);
  }

  lemma {:induction false} KeptByBackOut(w: World, writes: seq<Write>)
    requires forall i :: 0 <= i < |writes| ==> writes[i].DeleteDocument? || writes[i].SetBook?
    ensures var w' := WrittenAll(w, writes);
            && w'.items.parties == w.items.parties && w'.locks == w.locks && w'.snapshot == w.snapshot && w'.record == w.record
  {
    if writes != [] {
      KeptByBackOut(w, writes[..|writes| - 1]);
    }
  }

  // --- runs ---------------------------------------------------------------------------------------------

  /** Requests on one account; a cutover or back-out may stop after any number of its writes. */
  datatype Op =
    | DoAppend(draft: Draft)
    | DoCutover(request: ExecuteRequest, today: Date, now: string, upTo: nat)
    | DoBackOut(now: string, upTo: nat)
    | DoRefresh(snapshot: Snapshot)
    | DoDocuments(items: Items)

  function Prefix(writes: seq<Write>, upTo: nat): seq<Write> {
    if upTo < |writes| then writes[..upTo] else writes
  }

  ghost function Step(n: Naming, w: World, op: Op): World {
    match op
    case DoAppend(d) => GuardedAppend(w, d)
    case DoCutover(req, today, now, upTo) =>
      if Accepts(n, w, req, today) then
        var report := ReportOn(n, w, req.cutoverDate);
        WrittenAll(w, Prefix(CutoverWrites(w.chart, report, Begun(report, req, now)), upTo))
      else w
    case DoBackOut(now, upTo) =>
      if BackoutBlocker(w).None? then WrittenAll(w, Prefix(BackOutWrites(w.record.value, now), upTo)) else w
    case DoRefresh(s) => w.(snapshot := s)
    case DoDocuments(items) => w.(items := items)
  }

  ghost function Run(n: Naming, w: World, ops: seq<Op>): World
    decreases |ops|
  {
    if ops == [] then w else Run(n, Step(n, w, ops[0]), ops[1..])
  }

  /** While QuickBooks is the book of record, the journal is nothing but copies of it. */
  ghost predicate Inv(w: World) {
    w.book == QUICKBOOKS_BOOK ==> Copies(w.log)
  }

  lemma {:induction false} WritesKeepJournal(w: World, writes: seq<Write>)
    ensures WrittenAll(w, writes).log == w.log
  {
    if writes != [] {
      WritesKeepJournal(w, writes[..|writes| - 1]);
    }
  }

  lemma StepKeepsInv(n: Naming, w: World, op: Op)
    requires Inv(w)
    ensures Inv(Step(n, w, op)) && w.log <= Step(n, w, op).log
    ensures |w.log| < |Step(n, w, op).log| ==>
              && |Step(n, w, op).log| == |w.log| + 1
              && (IsQuickBooksCopy(Step(n, w, op).log[|w.log|].draft) ==> !Active(w.record))
              && (!IsQuickBooksCopy(Step(n, w, op).log[|w.log|].draft) ==> w.book == RGNR8_BOOK)
  {
    match op
    case DoAppend(d) =>
    case DoCutover(req, today, now, upTo) =>
      if Accepts(n, w, req, today) {
        var report := ReportOn(n, w, req.cutoverDate);
        KeysAreFree(n, w, req, today, DocKeys(report.docs));
        WritesKeepJournal(w, Prefix(CutoverWrites(w.chart, report, Begun(report, req, now)), upTo));
      }
    case DoBackOut(now, upTo) =>
      if BackoutBlocker(w).None? {
        WritesKeepJournal(w, Prefix(BackOutWrites(w.record.value, now), upTo));
      }
    case _ =>
  }

  /** Over every run, interrupted cutovers and back-outs included. */
  lemma {:induction false} EveryRunKeepsInv(n: Naming, w: World, ops: seq<Op>)
    requires Inv(w)
    ensures Inv(Run(n, w, ops)) && w.log <= Run(n, w, ops).log
    decreases |ops|
  {
    if ops != [] {
      StepKeepsInv(n, w, ops[0]);
      EveryRunKeepsInv(n, Step(n, w, ops[0]), ops[1..]);
    }
  }

  /**
   * Where each entry a run adds came from: a copy was appended while no cutover was active, and
   * anything else while RGNR8 was the book of record.
   */
  lemma {:induction false} EntriesCameInTurn(n: Naming, w: World, ops: seq<Op>, i: nat) returns (k: nat)
    requires Inv(w) && |w.log| <= i < |Run(n, w, ops).log|
    ensures k < |ops| && |Run(n, w, ops[..k]).log| == i
    ensures var at, d := Run(n, w, ops[..k]), Run(n, w, ops).log[i].draft;
            && (IsQuickBooksCopy(d) ==> !Active(at.record))
            && (!IsQuickBooksCopy(d) ==> at.book == RGNR8_BOOK)
    decreases |ops|
  {
    var next := Step(n, w, ops[0]);
    StepKeepsInv(n, w, ops[0]);
    EveryRunKeepsInv(n, next, ops[1..]);
    if i < |next.log| {
      k := 0;
      assert ops[..0] == [] && Run(n, w, ops).log[i] == next.log[i];
    } else {
      var rest := EntriesCameInTurn(n, next, ops[1..], i);
      k := rest + 1;
      assert ops[..k][0] == ops[0] && ops[..k][1..] == ops[1..][..rest];
    }
  }
}
