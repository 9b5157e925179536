/** What one post or reversal writes, and exactly when it is accepted (ledger-kernel postingEngine.ts). */
module PostingEffects {
  import opened Text
  import opened Dates
  import opened Ledger
  import opened Periods
  import opened Chart
  import opened LedgerStore
  import opened Fingerprint
  import opened PostingEngine

  /** The lines may be posted: they balance, and every account is known, active and in the entry's currency. */
  ghost predicate MayBePosted(lines: seq<Line>, currency: string, chart: Chart) {
    && |lines| >= 2 && (forall i :: 0 <= i < |lines| ==> lines[i].amount > 0)
    && LinesTotal(lines) == 0
    && forall i :: 0 <= i < |lines| ==>
         var account := Find(chart, lines[i].accountId);
         account.Some? && account.value.active && account.value.currency == currency == lines[i].currency
  }

  /** A post under a new key needs an open month and postable lines; under a used key, the same content. */
  lemma PostAcceptedIff(b: Books, command: Command, at: string)
    ensures PostTo(b, command, at).1.Ok? <==>
            match ByKey(b.log, command.key)
            case Some(e) => FingerprintOf(e.draft.payload) == FingerprintOf(command.payload)
            case None =>
              StatusOf(b.locks, command.payload.period) == OPEN
              && MayBePosted(command.payload.lines, command.payload.currency, b.chart)
  {
    AcceptedIffBalanced(command.payload.lines, command.payload.currency, b.chart);
  }

  /** All amounts, whichever side they are on. */
  function AmountsTotal(lines: seq<Line>): int {
    if lines == [] then 0 else AmountsTotal(lines[..|lines| - 1]) + lines[|lines| - 1].amount
  }

  lemma {:induction false} SidesAddUp(lines: seq<Line>)
    ensures SideTotal(lines, DEBIT) - SideTotal(lines, CREDIT) == LinesTotal(lines)
    ensures SideTotal(lines, DEBIT) + SideTotal(lines, CREDIT) == AmountsTotal(lines)
  {
    if lines != [] {
      SidesAddUp(lines[..|lines| - 1]);
    }
  }

  /** Why lines are refused: too few, the first line that may not be posted, or two sides that differ, by their totals. */
  lemma {:induction false} RefusalSays(lines: seq<Line>, currency: string, chart: Chart)
    ensures match Validated(lines, currency, chart)
            case Err(EmptyEntry) => |lines| < 2
            case Err(Unbalanced(debits, credits)) =>
              && debits - credits == LinesTotal(lines) != 0 && debits + credits == AmountsTotal(lines)
              && forall i :: 0 <= i < |lines| ==> LineProblem(lines[i], currency, chart).None?
            case Err(e) =>
              exists i :: 0 <= i < |lines| && LineProblem(lines[i], currency, chart) == Some(e)
                       && forall j :: 0 <= j < i ==> LineProblem(lines[j], currency, chart).None?
            case Ok(built) => built == lines
  {
    FirstIsTheFirst(lines, currency, chart);
    SidesAddUp(lines);
  }

  lemma {:induction false} FirstIsTheFirst(lines: seq<Line>, currency: string, chart: Chart)
    ensures match FirstProblem(lines, currency, chart)
            case None => forall i :: 0 <= i < |lines| ==> LineProblem(lines[i], currency, chart).None?
            case Some(e) =>
              exists i :: 0 <= i < |lines| && LineProblem(lines[i], currency, chart) == Some(e)
                       && forall j :: 0 <= j < i ==> LineProblem(lines[j], currency, chart).None?
  {
    if lines != [] {
      var front := lines[..|lines| - 1];
      FirstIsTheFirst(front, currency, chart);
      assert forall i :: 0 <= i < |front| ==> front[i] == lines[i];
    }
  }

  /** The entry that was added: the next of the journal, under this tenant and key, holding this payload. */
  ghost predicate Added(b: Books, b': Books, t: TenantId, key: string, payload: Payload, status: EntryStatus,
                        reversalOf: Option<string>, at: string)
  {
    && |b'.log| == |b.log| + 1 && b'.log[..|b.log|] == b.log && b'.chart == b.chart && b'.locks == b.locks
    && var e := b'.log[|b.log|];
       && e.sequence == |b.log| + 1 && e.id == EntryId(t, |b.log| + 1)
       && e.draft == Draft(t, key, payload, status, reversalOf, at)
  }

  /** A post that appends adds exactly its command, and answers with it; otherwise the books are as they were. */
  lemma PostAddsItsCommand(b: Books, command: Command, at: string)
    ensures var (b', r) := PostTo(b, command, at);
            && (r.Ok? && ByKey(b.log, command.key).None? ==>
                  Added(b, b', command.tenantId, command.key, command.payload, POSTED, None, at) && r.value == b'.log[|b.log|])
            && (r.Err? || ByKey(b.log, command.key).Some? ==> b' == b)
            && (r.Ok? && ByKey(b.log, command.key).Some? ==> Some(r.value) == ByKey(b.log, command.key))
  {
    AcceptedIffBalanced(command.payload.lines, command.payload.currency, b.chart);
  }

  /** Over any window a post moves each account by its lines when its date is in the window, and not at all otherwise. */
  lemma PostMovesItsWindow(b: Books, command: Command, at: string, w: Window, a: AccountId)
    requires PostTo(b, command, at).1.Ok? && ByKey(b.log, command.key).None?
    ensures Net(PostTo(b, command, at).0.log, w, a)
         == Net(b.log, w, a) + if InWindow(command.payload.entryDate, w) then LinesNet(command.payload.lines, a) else 0
  {
    PostAddsItsCommand(b, command, at);
    var log := PostTo(b, command, at).0.log;
    assert log == b.log + [log[|b.log|]];
    NetOfAppended(b.log, log[|b.log|], w, a);
  }

  // --- reversals ------------------------------------------------------------------------------------

  /** Each line of the one is the other's on the opposite side. */
  ghost predicate Mirrors(a: seq<Line>, b: seq<Line>) {
    |a| == |b| && forall i :: 0 <= i < |a| ==>
      && a[i].side != b[i].side && a[i].accountId == b[i].accountId && a[i].amount == b[i].amount
      && a[i].currency == b[i].currency && a[i].memo == b[i].memo && a[i].dimensions == b[i].dimensions
  }

  /** The payload a reversal posts: the original mirrored, for the month and date asked for. */
  lemma ReversalPayloadIs(original: Entry, opts: ReverseOptions)
    ensures var p := ReversalPayload(original, opts);
            && Mirrors(p.lines, original.Lines()) && p.currency == original.draft.payload.currency
            && p.entryDate == opts.entryDate && p.period == opts.period && p.provenance == opts.provenance
            && (opts.memo.Some? ==> p.memo == opts.memo.value) && (opts.memo.None? ==> p.memo == "Reversal of " + original.id)
  {
  }

  lemma {:induction false} NoneInactive(lines: seq<Line>, chart: Chart)
    ensures FirstInactive(lines, chart).None? <==>
            forall i :: 0 <= i < |lines| ==> Find(chart, lines[i].accountId).Some? ==> Find(chart, lines[i].accountId).value.active
  {
    if lines != [] {
      NoneInactive(lines[1..], chart);
      assert lines == [lines[0]] + lines[1..];
    }
  }

  /** A reversal needs its original, none of its accounts inactive, and then what a post needs of key and month. */
  lemma ReverseAcceptedIff(b: Books, t: TenantId, id: string, opts: ReverseOptions)
    ensures ReverseTo(b, t, id, opts).1.Ok? <==>
            && ById(b.log, id).Some?
            && (forall l :: l in ById(b.log, id).value.Lines() && Find(b.chart, l.accountId).Some? ==>
                  Find(b.chart, l.accountId).value.active)
            && match ByKey(b.log, opts.key)
               case Some(e) =>
                 FingerprintOf(e.draft.payload) == FingerprintOf(ReversalPayload(ById(b.log, id).value, opts))
               case None => StatusOf(b.locks, opts.period) == OPEN
  {
    if ById(b.log, id).Some? {
      var lines := ById(b.log, id).value.Lines();
      NoneInactive(lines, b.chart);
      assert forall i :: 0 <= i < |lines| ==> lines[i] in lines;
    }
  }

  /** A reversal that appends adds the mirrored entry, marked as reversing its original. */
  lemma ReverseAddsTheMirror(b: Books, t: TenantId, id: string, opts: ReverseOptions)
    ensures var (b', r) := ReverseTo(b, t, id, opts);
            && (r.Ok? && ByKey(b.log, opts.key).None? ==>
                  var original := ById(b.log, id).value;
                  Added(b, b', t, opts.key, ReversalPayload(original, opts), REVERSAL, Some(original.id), opts.postedAt)
                  && r.value == b'.log[|b.log|])
            && (r.Err? || ByKey(b.log, opts.key).Some? ==> b' == b)
            && (r.Ok? && ByKey(b.log, opts.key).Some? ==> Some(r.value) == ByKey(b.log, opts.key))
  {
  }

  /** Over any window a reversal takes back the original's effect when the date asked for is in the window. */
  lemma ReversalMovesItsWindow(b: Books, t: TenantId, id: string, opts: ReverseOptions, w: Window, a: AccountId)
    requires ReverseTo(b, t, id, opts).1.Ok? && ByKey(b.log, opts.key).None?
    ensures Net(ReverseTo(b, t, id, opts).0.log, w, a)
         == Net(b.log, w, a) - if InWindow(opts.entryDate, w) then LinesNet(ById(b.log, id).value.Lines(), a) else 0
  {
    ReverseAddsTheMirror(b, t, id, opts);
    var original, log := ById(b.log, id).value, ReverseTo(b, t, id, opts).0.log;
    assert log == b.log + [log[|b.log|]];
    NetOfAppended(b.log, log[|b.log|], w, a);
    ReversalNegatesOriginal(original, opts, a);
  }
}
