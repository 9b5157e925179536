/** Balanced-by-construction lines and the posting commands (ledger-kernel journal.ts, postingEngine.ts). */
module PostingEngine {
  import opened Text
  import opened Dates
  import opened Ledger
  import opened Periods
  import opened Chart
  import opened LedgerStore
  import opened Fingerprint

  datatype PostError =
    | EmptyEntry
    | UnknownAccount(accountId: AccountId)
    | InactiveAccount(accountId: AccountId)
    | LineCurrency(accountId: AccountId)
    | NonPositiveAmount(accountId: AccountId)
    | Unbalanced(debit: int, credit: int)
    | PeriodClosed(period: Month)
    | DuplicateKey(key: string)
    | UnknownEntry(id: string)

  // --- journal.ts ---------------------------------------------------------------------------------

  /** Why a line cannot be posted; the checks in the order the kernel makes them. */
  function LineProblem(l: Line, currency: string, chart: Chart): Option<PostError> {
    match Find(chart, l.accountId)
    case None => Some(UnknownAccount(l.accountId))
    case Some(account) =>
      if !account.active then Some(InactiveAccount(l.accountId))
      else if l.currency != currency || account.currency != currency then Some(LineCurrency(l.accountId))
      else if l.amount <= 0 then Some(NonPositiveAmount(l.accountId))
      else None
  }

  function FirstProblem(lines: seq<Line>, currency: string, chart: Chart): Option<PostError> {
    if lines == [] then None
    else if FirstProblem(lines[..|lines| - 1], currency, chart).Some? then FirstProblem(lines[..|lines| - 1], currency, chart)
    else LineProblem(lines[|lines| - 1], currency, chart)
  }

  function SideTotal(lines: seq<Line>, side: Side): int {
    if lines == [] then 0
    else
      var last := lines[|lines| - 1];
      SideTotal(lines[..|lines| - 1], side) + if last.side == side then last.amount else 0
  }

  function Validated(lines: seq<Line>, currency: string, chart: Chart): Result<seq<Line>, PostError> {
    if |lines| < 2 then Err(EmptyEntry)
    else if FirstProblem(lines, currency, chart).Some? then Err(FirstProblem(lines, currency, chart).value)
    else if SideTotal(lines, DEBIT) != SideTotal(lines, CREDIT)
    then Err(Unbalanced(SideTotal(lines, DEBIT), SideTotal(lines, CREDIT)))
    else Ok(lines)
  }

  /** The only path to postable lines: one pass that checks each line and adds up both sides. */
  method ValidateAndBuildLines(lines: seq<Line>, currency: string, chart: Chart)
    returns (r: Result<seq<Line>, PostError>)
    ensures r == Validated(lines, currency, chart)
  {
    if |lines| < 2 {
      return Err(EmptyEntry);
    }
    var debit, credit := 0, 0;
    var built: seq<Line> := [];
    for i := 0 to |lines|
      invariant built == lines[..i]
      invariant FirstProblem(lines[..i], currency, chart).None?
      invariant debit == SideTotal(lines[..i], DEBIT) && credit == SideTotal(lines[..i], CREDIT)
    {
      var line := lines[i];
      assert lines[..i + 1][..i] == lines[..i];
      var problem := LineProblem(line, currency, chart);
      if problem.Some? {
        LaterLinesKeepTheProblem(lines, currency, chart, i + 1);
        return Err(problem.value);
      }
      if line.side == DEBIT {
        debit := debit + line.amount;
      } else {
        credit := credit + line.amount;
      }
      built := built + [line];
    }
    assert lines[..|lines|] == lines;
    if debit != credit {
      return Err(Unbalanced(debit, credit));
    }
    return Ok(built);
  }

  lemma {:induction false} LaterLinesKeepTheProblem(lines: seq<Line>, currency: string, chart: Chart, n: nat)
    requires n <= |lines| && FirstProblem(lines[..n], currency, chart).Some?
    ensures FirstProblem(lines, currency, chart) == FirstProblem(lines[..n], currency, chart)
    decreases |lines| - n
  {
    if n == |lines| {
      assert lines[..n] == lines;
    } else {
      assert lines[..n + 1][..n] == lines[..n];
      LaterLinesKeepTheProblem(lines, currency, chart, n + 1);
    }
  }

  lemma {:induction false} TotalIsDebitsLessCredits(lines: seq<Line>)
    ensures LinesTotal(lines) == SideTotal(lines, DEBIT) - SideTotal(lines, CREDIT)
  {
    if lines != [] {
      TotalIsDebitsLessCredits(lines[..|lines| - 1]);
    }
  }

  lemma {:induction false} NoProblemMeansEveryLine(lines: seq<Line>, currency: string, chart: Chart)
    ensures FirstProblem(lines, currency, chart).None? <==>
            forall i :: 0 <= i < |lines| ==> LineProblem(lines[i], currency, chart).None?
  {
    if lines != [] {
      NoProblemMeansEveryLine(lines[..|lines| - 1], currency, chart);
    }
  }

  /** Lines are accepted exactly when they balance and every account may take the posting. */
  lemma AcceptedIffBalanced(lines: seq<Line>, currency: string, chart: Chart)
    ensures Validated(lines, currency, chart).Ok? <==>
            && Balanced(lines)
            && forall i :: 0 <= i < |lines| ==>
                 var account := Find(chart, lines[i].accountId);
                 account.Some? && account.value.active && account.value.currency == currency == lines[i].currency
  {
    NoProblemMeansEveryLine(lines, currency, chart);
    TotalIsDebitsLessCredits(lines);
  }

  // --- postingEngine.ts -----------------------------------------------------------------------------

  /** One tenant's ledger as the engine sees it. */
  datatype Books = Books(chart: Chart, log: seq<Entry>, locks: Locks)

  datatype ReverseOptions = ReverseOptions(
    key: string, period: Month, entryDate: Date, memo: Option<string>, provenance: Provenance, postedAt: string)

  function PostTo(b: Books, command: Command, postedAt: string): (r: (Books, Result<Entry, PostError>)) {
    match ByKey(b.log, command.key)
    case Some(existing) =>
      (b, if FingerprintOf(existing.draft.payload) != FingerprintOf(command.payload)
          then Err(DuplicateKey(command.key)) else Ok(existing))
    case None =>
      if StatusOf(b.locks, command.payload.period) == LOCKED then (b, Err(PeriodClosed(command.payload.period)))
      else match Validated(command.payload.lines, command.payload.currency, b.chart)
           case Err(e) => (b, Err(e))
           case Ok(lines) =>
             Append(b, Draft(command.tenantId, command.key, command.payload.(lines := lines), POSTED, None, postedAt))
  }

  function Append(b: Books, draft: Draft): (Books, Result<Entry, PostError>) {
    (b.(log := Appended(b.log, draft)),
     if HasKey(b.log, draft.key) then Ok(b.log[IndexOfKey(b.log, draft.key)]) else Ok(Finalized(draft, |b.log| + 1)))
  }

  function Swapped(l: Line): Line {
    l.(side := if l.side == DEBIT then CREDIT else DEBIT)
  }

  function SwapAll(lines: seq<Line>): (r: seq<Line>)
    ensures |r| == |lines| && forall i :: 0 <= i < |r| ==> r[i] == Swapped(lines[i])
  {
    seq(|lines|, i requires 0 <= i < |lines| => Swapped(lines[i]))
  }

  /** The first line on an account that has been made inactive; accounts not in the chart pass. */
  function FirstInactive(lines: seq<Line>, chart: Chart): (r: Option<AccountId>)
    ensures r.None? ==> forall i :: 0 <= i < |lines| ==>
              var a := Find(chart, lines[i].accountId); a.Some? ==> a.value.active
  {
    if lines == [] then None
    else
      var a := Find(chart, lines[0].accountId);
      if a.Some? && !a.value.active then Some(lines[0].accountId)
      else FirstInactive(lines[1..], chart)
  }

  function ReversalPayload(original: Entry, opts: ReverseOptions): Payload {
    Payload(original.draft.payload.currency, opts.period, opts.entryDate,
            opts.memo.GetOr("Reversal of " + original.id), opts.provenance, SwapAll(original.Lines()))
  }

  function ReverseTo(b: Books, t: TenantId, originalId: string, opts: ReverseOptions): (Books, Result<Entry, PostError>) {
    match ById(b.log, originalId)
    case None => (b, Err(UnknownEntry(originalId)))
    case Some(original) =>
      var payload := ReversalPayload(original, opts);
      var inactive := FirstInactive(original.Lines(), b.chart);
      if inactive.Some? then (b, Err(InactiveAccount(inactive.value)))
      else match ByKey(b.log, opts.key)
           case Some(existing) =>
             (b, if FingerprintOf(existing.draft.payload) != FingerprintOf(payload)
                 then Err(DuplicateKey(opts.key)) else Ok(existing))
           case None =>
             if StatusOf(b.locks, opts.period) == LOCKED then (b, Err(PeriodClosed(opts.period)))
             else Append(b, Draft(t, opts.key, payload, REVERSAL, Some(original.id), opts.postedAt))
  }

  class Engine {
    const coa: ChartOfAccounts
    const store: InMemoryLedgerStore
    const periods: InMemoryPeriodStore

    constructor (coa: ChartOfAccounts, store: InMemoryLedgerStore, periods: InMemoryPeriodStore)
      ensures this.coa == coa && this.store == store && this.periods == periods
    {
      this.coa, this.store, this.periods := coa, store, periods;
    }

    ghost predicate Valid()
      reads this, coa, store
    {
      coa.Valid() && store.Valid()
    }

    ghost function View(t: TenantId): Books
      requires Valid()
      reads this, coa, store, periods
    {
      Books(coa.List(), store.Log(t), periods.View(t))
    }

    method Post(command: Command, postedAt: string) returns (r: Result<Entry, PostError>)
      requires Valid()
      modifies store
      ensures Valid()
      ensures (View(command.tenantId), r) == PostTo(old(View(command.tenantId)), command, postedAt)
      ensures forall t :: t != command.tenantId ==> View(t) == old(View(t))
    {
      var existing := store.GetByIdempotencyKey(command.tenantId, command.key);
      if existing.Some? {
        if FingerprintOf(existing.value.draft.payload) != FingerprintOf(command.payload) {
          return Err(DuplicateKey(command.key));
        }
        return Ok(existing.value);
      }
      var status := periods.Status(command.tenantId, command.payload.period);
      if status == LOCKED {
        return Err(PeriodClosed(command.payload.period));
      }
      var lines := ValidateAndBuildLines(command.payload.lines, command.payload.currency, coa.List());
      if lines.Err? {
        return Err(lines.error);
      }
      var draft := Draft(command.tenantId, command.key, command.payload.(lines := lines.value), POSTED, None, postedAt);
      var entry := store.Append(draft);
      AppendReturns(old(View(command.tenantId)), draft, entry);
      return Ok(entry);
    }

    method Reverse(t: TenantId, originalId: string, opts: ReverseOptions) returns (r: Result<Entry, PostError>)
      requires Valid()
      modifies store
      ensures Valid()
      ensures (View(t), r) == ReverseTo(old(View(t)), t, originalId, opts)
      ensures forall u :: u != t ==> View(u) == old(View(u))
    {
      var original := store.GetById(t, originalId);
      if original.None? {
        return Err(UnknownEntry(originalId));
      }
      var payload := ReversalPayload(original.value, opts);
      var inactive := FirstInactive(original.value.Lines(), coa.List());
      if inactive.Some? {
        return Err(InactiveAccount(inactive.value));
      }
      var existing := store.GetByIdempotencyKey(t, opts.key);
      if existing.Some? {
        if FingerprintOf(existing.value.draft.payload) != FingerprintOf(payload) {
          return Err(DuplicateKey(opts.key));
        }
        return Ok(existing.value);
      }
      var status := periods.Status(t, opts.period);
      if status == LOCKED {
        return Err(PeriodClosed(opts.period));
      }
      var draft := Draft(t, opts.key, payload, REVERSAL, Some(original.value.id), opts.postedAt);
      var entry := store.Append(draft);
      AppendReturns(old(View(t)), draft, entry);
      return Ok(entry);
    }
  }

  lemma AppendReturns(b: Books, draft: Draft, entry: Entry)
    requires Some(entry) == ByKey(Appended(b.log, draft), draft.key)
    ensures Append(b, draft).1 == Ok(entry)
  {
    if !HasKey(b.log, draft.key) {
      var log' := Appended(b.log, draft);
      var i := IndexOfKey(log', draft.key);
      if i < |b.log| {
        HasKeyAt(b.log, i);
      }
    }
  }

  // --- what one command does ------------------------------------------------------------------------

  /** Posting a command again appends nothing and returns the same entry, whatever the locks say by then. */
  lemma ReplayAppendsNothing(b: Books, later: Books, command: Command, postedAt: string, again: string)
    requires PostTo(b, command, postedAt).1.Ok?
    requires ByKey(later.log, command.key) == Some(PostTo(b, command, postedAt).1.value)
    ensures PostTo(later, command, again) == (later, PostTo(b, command, postedAt).1)
  {
    if ByKey(b.log, command.key).None? {
      AcceptedIffBalanced(command.payload.lines, command.payload.currency, b.chart);
    }
  }

  lemma {:induction false} SwapNegates(lines: seq<Line>, a: AccountId)
    ensures LinesNet(SwapAll(lines), a) == -LinesNet(lines, a)
    ensures LinesTotal(SwapAll(lines)) == -LinesTotal(lines)
  {
    if lines != [] {
      assert SwapAll(lines)[..|lines| - 1] == SwapAll(lines[..|lines| - 1]);
      SwapNegates(lines[..|lines| - 1], a);
    }
  }

  /** A reversal undoes its original's effect on every account, and balances when the original does. */
  lemma ReversalNegatesOriginal(original: Entry, opts: ReverseOptions, a: AccountId)
    ensures var lines := ReversalPayload(original, opts).lines;
            && LinesNet(lines, a) + LinesNet(original.Lines(), a) == 0
            && (Balanced(original.Lines()) ==> Balanced(lines))
  {
    SwapNegates(original.Lines(), a);
  }
}
