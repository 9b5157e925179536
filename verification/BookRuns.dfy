/** Whole runs of postings, reversals, period locks and chart edits on one tenant's books. */
module BookRuns {
  import opened Text
  import opened Dates
  import opened Ledger
  import opened Periods
  import opened Chart
  import opened ChartEdit
  import opened ChartSaves
  import opened LedgerStore
  import opened PostingEngine
  import opened TrialBalance

  datatype Op =
    | Post(command: Command, at: string)
    | Reverse(originalId: string, opts: ReverseOptions)
    | LockPeriod(period: Month)
    | LockPeriodsThrough(period: Month)
    | UnlockPeriod(period: Month)
    | EditAccount(code: string, changes: Changes, quickBooksOfRecord: bool)
    | CreateAccount(request: NewAccount)

  /** What the editor reads about an account, taken from the journal. */
  ghost function FactsAbout(log: seq<Entry>, a: Account, quickBooksOfRecord: bool): Facts {
    Facts(quickBooksOfRecord, a.id in Accounts(LinesIn(log, Always)), Net(log, Always, a.id))
  }

  /** The chart after an account is saved by its id and the saved rows are loaded again. */
  ghost function EditedChart(b: Books, op: Op): Chart
    requires ValidChart(b.chart)
  {
    match op
    case EditAccount(code, changes, quickBooks) =>
      (match FindCode(b.chart, code)
       case None => b.chart
       case Some(current) =>
         match PlanAccountEdit(b.chart, current, changes, FactsAbout(b.log, current, quickBooks))
         case Err(_) => b.chart
         case Ok(next) => if next == current then b.chart else Loaded(Replaced(b.chart, next)))
    case CreateAccount(req) =>
      (match PlanNewAccount(b.chart, req)
       case Err(_) => b.chart
       case Ok(a) => Loaded(Replaced(b.chart, a)))
    case _ => b.chart
  }

  ghost function Step(t: TenantId, b: Books, op: Op): Books
    requires ValidChart(b.chart)
  {
    match op
    case Post(command, at) => if command.tenantId == t then PostTo(b, command, at).0 else b
    case Reverse(id, opts) => ReverseTo(b, t, id, opts).0
    case LockPeriod(p) => b.(locks := Locked(b.locks, p))
    case LockPeriodsThrough(p) => b.(locks := LockedThrough(b.locks, p))
    case UnlockPeriod(p) => b.(locks := Unlocked(b.locks, p))
    case EditAccount(_, _, _) => b.(chart := EditedChart(b, op))
    case CreateAccount(_) => b.(chart := EditedChart(b, op))
  }

  // --- the invariant ----------------------------------------------------------------------------

  ghost predicate EntryFits(e: Entry, chart: Chart) {
    Balanced(e.Lines()) && forall l :: l in e.Lines() ==> Find(chart, l.accountId).Some?
  }

  ghost predicate Idle(a: Account, log: seq<Entry>) {
    a.active || Net(log, Always, a.id) == 0
  }

  ghost predicate Inv(t: TenantId, b: Books) {
    && ValidChart(b.chart) && Arranged(b.chart, b.chart) && WellFormed(t, b.log)
    && (forall e :: e in b.log ==> EntryFits(e, b.chart))
    && (forall a :: a in b.chart ==> Idle(a, b.log))
  }

  /** Accounts keep their ids, and one with posted lines keeps its type. */
  ghost predicate ChartGrew(before: Chart, after: Chart, log: seq<Entry>) {
    forall id :: Find(before, id).Some? ==>
      && Find(after, id).Some?
      && (id in Accounts(LinesIn(log, Always)) ==>
            Find(after, id).value.accountType == Find(before, id).value.accountType)
  }

  /** What one operation must keep: the invariant, the types of used accounts, and the depth limit. */
  ghost predicate StepKeeps(t: TenantId, b: Books, op: Op)
    requires ValidChart(b.chart)
  {
    Kept(t, b, Step(t, b, op))
  }

  ghost predicate Kept(t: TenantId, b: Books, b': Books) {
    Inv(t, b') && ChartGrew(b.chart, b'.chart, b.log) && (WithinDepth(b.chart) ==> WithinDepth(b'.chart))
  }

  /**
   * A new account whose id an account was renumbered away from replaces that account, so the account must
   * keep its type if it has children or posted lines, must not be above the new parent, and its sub-accounts
   * must stay within the depth limit.
   */
  ghost predicate TakesIdSafely(b: Books, op: Op)
    requires ValidChart(b.chart)
  {
    op.CreateAccount? && Drafted(b.chart, op.request).Ok? ==>
      var a := Drafted(b.chart, op.request).value;
      DraftedFits(b.chart, op.request);
      SavesSafely(b, a)
  }

  ghost predicate SavesSafely(b: Books, a: Account)
    requires ValidChart(b.chart) && FindCode(b.chart, a.code).None? && SubtypeFits(a) && ParentFits(b.chart, a)
  {
    && SavesForest(b.chart, a)
    && (WithinDepth(b.chart) ==> SavesDepth(b.chart, a))
    && KeepsUsedType(b, a)
  }

  ghost predicate KeepsUsedType(b: Books, a: Account) {
    var holder := Find(b.chart, a.id);
    holder.Some? && a.id in Accounts(LinesIn(b.log, Always)) ==> a.accountType == holder.value.accountType
  }

  /** Posting and reversing add at most one entry, balanced, on active accounts, in an open period. */
  lemma AppendsAreSound(t: TenantId, b: Books, op: Op)
    requires Inv(t, b) && (op.Post? || op.Reverse?)
    ensures var b' := Step(t, b, op);
            b' == b || exists e :: b' == b.(log := b.log + [e]) && AppendedSoundly(t, b, e)
  {
    match op
    case Post(command, at) =>
      if command.tenantId == t {
        PostIsSound(t, b, command, at);
      }
    case Reverse(id, opts) => ReverseIsSound(t, b, id, opts);
  }

  lemma PostIsSound(t: TenantId, b: Books, command: Command, at: string)
    requires Inv(t, b) && command.tenantId == t
    ensures var b' := PostTo(b, command, at).0;
            b' == b || exists e :: b' == b.(log := b.log + [e]) && AppendedSoundly(t, b, e)
  {
    AcceptedIffBalanced(command.payload.lines, command.payload.currency, b.chart);
    var (b', r) := PostTo(b, command, at);
    if b' != b {
      assert AppendedSoundly(t, b, r.value);
    }
  }

  lemma ReverseIsSound(t: TenantId, b: Books, id: string, opts: ReverseOptions)
    requires Inv(t, b)
    ensures var b' := ReverseTo(b, t, id, opts).0;
            b' == b || exists e :: b' == b.(log := b.log + [e]) && AppendedSoundly(t, b, e)
  {
    var (b', r) := ReverseTo(b, t, id, opts);
    if b' != b {
      ByIdMeans(t, b.log, id);
      var original := ById(b.log, id).value;
      assert EntryFits(original, b.chart);
      ReversalFits(original, opts, b.chart);
      assert AppendedSoundly(t, b, r.value);
    }
  }

  lemma ReversalFits(original: Entry, opts: ReverseOptions, chart: Chart)
    requires EntryFits(original, chart) && FirstInactive(original.Lines(), chart).None?
    ensures var lines := ReversalPayload(original, opts).lines;
            && Balanced(lines)
            && forall l :: l in lines ==> Find(chart, l.accountId).Some? && Find(chart, l.accountId).value.active
  {
    SwappedFits(original.Lines(), chart);
    ReversalNegatesOriginal(original, opts, "");
  }

  lemma SwappedFits(lines: seq<Line>, chart: Chart)
    requires FirstInactive(lines, chart).None? && forall l :: l in lines ==> Find(chart, l.accountId).Some?
    ensures forall l :: l in SwapAll(lines) ==>
              Find(chart, l.accountId).Some? && Find(chart, l.accountId).value.active
  {
    forall l | l in SwapAll(lines) ensures Find(chart, l.accountId).Some? && Find(chart, l.accountId).value.active {
      var i :| 0 <= i < |lines| && SwapAll(lines)[i] == l;
      assert lines[i] in lines;
    }
  }

  ghost predicate AppendedSoundly(t: TenantId, b: Books, e: Entry) {
    && e == Finalized(e.draft, |b.log| + 1) && e.draft.tenantId == t && !HasKey(b.log, e.draft.key)
    && StatusOf(b.locks, e.draft.payload.period) == OPEN
    && EntryFits(e, b.chart)
    && forall l :: l in e.Lines() ==> Find(b.chart, l.accountId).value.active
  }

  lemma AppendKeepsInv(t: TenantId, b: Books, e: Entry)
    requires Inv(t, b) && AppendedSoundly(t, b, e)
    ensures Inv(t, b.(log := b.log + [e]))
  {
    AppendKeepsWellFormed(t, b.log, e.draft);
    assert b.log + [e] == Appended(b.log, e.draft);
    forall a | a in b.chart ensures Idle(a, b.log + [e]) {
      assert Idle(a, b.log);
      NetOfAppended(b.log, e, Always, a.id);
      if !a.active {
        FindOwn(b.chart, a);
        forall i | 0 <= i < |e.Lines()| ensures e.Lines()[i].accountId != a.id {
          assert e.Lines()[i] in e.Lines();
        }
        UntouchedNetIsZero(e.Lines(), a.id);
      }
    }
  }

  lemma GrownChartKeepsEntries(t: TenantId, b: Books, chart: Chart)
    requires Inv(t, b) && ValidChart(chart) && Arranged(chart, chart) && ChartGrew(b.chart, chart, b.log)
    requires forall a :: a in chart ==> Idle(a, b.log)
    ensures Inv(t, b.(chart := chart))
  {
    forall e | e in b.log ensures EntryFits(e, chart) {
      assert EntryFits(e, b.chart);
    }
  }

  lemma EditIsSound(t: TenantId, b: Books, op: Op)
    requires Inv(t, b) && op.EditAccount?
    ensures StepKeeps(t, b, op)
  {
    var chart' := EditedChart(b, op);
    if FindCode(b.chart, op.code).Some? {
      var current := FindCode(b.chart, op.code).value;
      var facts := FactsAbout(b.log, current, op.quickBooksOfRecord);
      var r := PlanAccountEdit(b.chart, current, op.changes, facts);
      EditsKeepTheForest(b.chart, current, op.changes, facts);
      if r.Ok? && r.value != current {
        EditRespectsBooks(b.chart, current, op.changes, facts);
        FindOwn(b.chart, current);
        ReplacedLookups(b.chart, current, r.value);
        LoadKeepsChart(Replaced(b.chart, r.value));
        assert ChartGrew(b.chart, chart', b.log);
      }
    }
    GrownChartKeepsEntries(t, b, chart');
  }

  /** An accepted edit neither retypes an account with postings nor retires one with a balance. */
  lemma EditRespectsBooks(chart: Chart, current: Account, changes: Changes, facts: Facts)
    requires ValidChart(chart) && current in chart
    requires PlanAccountEdit(chart, current, changes, facts).Ok?
    ensures var next := PlanAccountEdit(chart, current, changes, facts).value;
            && next.id == current.id
            && (facts.hasPostings ==> next.accountType == current.accountType)
            && (next != current && next.code != current.code ==> FindCode(chart, next.code).None?)
            && (current.active && !next.active ==> facts.balanceMinor == 0)
  {
  }

  /** A creation keeps the books sound exactly when it takes its id safely. */
  lemma CreationIsSoundIff(t: TenantId, b: Books, op: Op)
    requires Inv(t, b) && op.CreateAccount?
    ensures StepKeeps(t, b, op) <==> TakesIdSafely(b, op)
  {
    NewAccountIsAccepted(b.chart, op.request);
    if Drafted(b.chart, op.request).Ok? {
      var a := Drafted(b.chart, op.request).value;
      DraftedFits(b.chart, op.request);
      SavedIsSoundIff(t, b, op.request, a);
      assert Step(t, b, op) == b.(chart := Loaded(Replaced(b.chart, a)));
    } else {
      assert Step(t, b, op) == b;
    }
  }

  lemma SavedIsSoundIff(t: TenantId, b: Books, req: NewAccount, a: Account)
    requires Inv(t, b) && Drafted(b.chart, req) == Ok(a)
    requires FindCode(b.chart, a.code).None? && SubtypeFits(a) && ParentFits(b.chart, a) && a.active
    ensures Kept(t, b, b.(chart := Loaded(Replaced(b.chart, a)))) <==> SavesSafely(b, a)
  {
    NewAccountKeepsForestIff(b.chart, req);
    LoadAcceptsIffForest(Replaced(b.chart, a));
    if SavesForest(b.chart, a) {
      CreationGrowsIff(t, b, a);
      LoadKeepsDepth(Replaced(b.chart, a));
    }
  }

  lemma LoadKeepsDepth(rows: Chart)
    requires ValidChart(rows)
    ensures WithinDepth(Loaded(rows)) <==> WithinDepth(rows)
  {
    LoadKeepsChart(rows);
  }

  lemma CreationGrowsIff(t: TenantId, b: Books, a: Account)
    requires Inv(t, b) && FindCode(b.chart, a.code).None? && UniqueIds(Replaced(b.chart, a)) && a.active
    requires ValidChart(Replaced(b.chart, a))
    ensures ChartGrew(b.chart, Loaded(Replaced(b.chart, a)), b.log) <==> KeepsUsedType(b, a)
    ensures KeepsUsedType(b, a) ==> Inv(t, b.(chart := Loaded(Replaced(b.chart, a))))
  {
    var chart := Loaded(Replaced(b.chart, a));
    LoadKeepsChart(Replaced(b.chart, a));
    forall id ensures Find(chart, id) == if id == a.id then Some(a) else Find(b.chart, id) {
      SavedLookups(b.chart, a, id);
    }
    forall x | x in chart ensures Idle(x, b.log) {
      FindOwn(chart, x);
      assert Idle(x, b.log);
    }
    if KeepsUsedType(b, a) {
      GrownChartKeepsEntries(t, b, chart);
    }
  }

  /** Every operation keeps the books sound, except a creation that takes over an id unsafely. */
  lemma StepIsSoundIff(t: TenantId, b: Books, op: Op)
    requires Inv(t, b)
    ensures StepKeeps(t, b, op) <==> TakesIdSafely(b, op)
  {
    match op
    case Post(_, _) => AppendStep(t, b, op);
    case Reverse(_, _) => AppendStep(t, b, op);
    case EditAccount(_, _, _) => EditIsSound(t, b, op);
    case CreateAccount(_) => CreationIsSoundIff(t, b, op);
    case _ =>
  }

  /** Every operation only extends the journal, by at most one entry, in an open period. */
  lemma StepExtendsJournal(t: TenantId, b: Books, op: Op)
    requires Inv(t, b)
    ensures b.log <= Step(t, b, op).log
    ensures |b.log| < |Step(t, b, op).log| ==>
              && |Step(t, b, op).log| == |b.log| + 1
              && StatusOf(b.locks, Step(t, b, op).log[|b.log|].draft.payload.period) == OPEN
  {
    if op.Post? || op.Reverse? {
      AppendStep(t, b, op);
    }
  }

  lemma AppendStep(t: TenantId, b: Books, op: Op)
    requires Inv(t, b) && (op.Post? || op.Reverse?)
    ensures var b' := Step(t, b, op);
            && Inv(t, b') && b.log <= b'.log && b'.chart == b.chart
            && (|b.log| < |b'.log| ==>
                  |b'.log| == |b.log| + 1 && StatusOf(b.locks, b'.log[|b.log|].draft.payload.period) == OPEN)
  {
    AppendsAreSound(t, b, op);
    var b' := Step(t, b, op);
    if b' != b {
      var e :| b' == b.(log := b.log + [e]) && AppendedSoundly(t, b, e);
      AppendKeepsInv(t, b, e);
    }
  }

  // --- runs ---------------------------------------------------------------------------------------

  /** Every account created along the run takes its id safely. */
  ghost predicate SafeIds(t: TenantId, b: Books, ops: seq<Op>)
    decreases |ops|
  {
    ops != [] ==>
      && ValidChart(b.chart) && TakesIdSafely(b, ops[0])
      && SafeIds(t, Step(t, b, ops[0]), ops[1..])
  }

  /** Every step of the run keeps the books sound. */
  ghost predicate SoundThroughout(t: TenantId, b: Books, ops: seq<Op>)
    decreases |ops|
  {
    ops != [] ==>
      && ValidChart(b.chart) && StepKeeps(t, b, ops[0])
      && SoundThroughout(t, Step(t, b, ops[0]), ops[1..])
  }

  /** A run keeps the books sound at every step exactly when every id along it is taken safely. */
  lemma {:induction false} RunIsSoundIffIdsAreSafe(t: TenantId, b: Books, ops: seq<Op>)
    requires Inv(t, b)
    ensures SoundThroughout(t, b, ops) <==> SafeIds(t, b, ops)
    decreases |ops|
  {
    if ops != [] {
      StepIsSoundIff(t, b, ops[0]);
      if TakesIdSafely(b, ops[0]) {
        RunIsSoundIffIdsAreSafe(t, Step(t, b, ops[0]), ops[1..]);
      }
    }
  }

  ghost function Run(t: TenantId, b: Books, ops: seq<Op>): Books
    requires SafeIds(t, b, ops)
    decreases |ops|
  {
    if ops == [] then b else Run(t, Step(t, b, ops[0]), ops[1..])
  }

  /**
   * Over every run whose ids are taken safely: the invariant holds, the journal only grows, every account
   * with posted lines keeps its type, and the chart stays within its depth limit.
   */
  lemma {:induction false} EveryRunIsSound(t: TenantId, b: Books, ops: seq<Op>)
    requires Inv(t, b) && SafeIds(t, b, ops)
    ensures Inv(t, Run(t, b, ops)) && b.log <= Run(t, b, ops).log
    ensures ChartGrew(b.chart, Run(t, b, ops).chart, b.log)
    ensures WithinDepth(b.chart) ==> WithinDepth(Run(t, b, ops).chart)
    decreases |ops|
  {
    if ops != [] {
      var next := Step(t, b, ops[0]);
      StepIsSoundIff(t, b, ops[0]);
      StepExtendsJournal(t, b, ops[0]);
      EveryRunIsSound(t, next, ops[1..]);
      LongerLogTouchesMore(b.log, next.log);
    }
  }

  lemma {:induction false} LongerLogTouchesMore(before: seq<Entry>, after: seq<Entry>)
    requires before <= after
    ensures Accounts(LinesIn(before, Always)) <= Accounts(LinesIn(after, Always))
    decreases |after|
  {
    if |before| < |after| {
      LongerLogTouchesMore(before, after[..|after| - 1]);
    } else {
      assert before == after;
    }
  }

  /** Every entry a run adds was appended while its period read OPEN. */
  lemma {:induction false} AppendedWhileOpen(t: TenantId, b: Books, ops: seq<Op>, i: nat) returns (k: nat)
    requires Inv(t, b) && SafeIds(t, b, ops) && |b.log| <= i < |Run(t, b, ops).log|
    ensures k < |ops| && SafeIds(t, b, ops[..k])
    ensures |Run(t, b, ops[..k]).log| == i
    ensures StatusOf(Run(t, b, ops[..k]).locks, Run(t, b, ops).log[i].draft.payload.period) == OPEN
    decreases |ops|
  {
    var next := Step(t, b, ops[0]);
    StepIsSoundIff(t, b, ops[0]);
    StepExtendsJournal(t, b, ops[0]);
    if i < |next.log| {
      k := 0;
      EveryRunIsSound(t, next, ops[1..]);
      assert ops[..0] == [] && Run(t, b, ops).log[i] == next.log[i];
    } else {
      var rest := AppendedWhileOpen(t, next, ops[1..], i);
      k := rest + 1;
      assert ops[..k][0] == ops[0] && ops[..k][1..] == ops[1..][..rest];
    }
  }

  /** At any point of any run, an inactive account has net zero and every trial balance balances. */
  lemma BooksAlwaysBalance(t: TenantId, b: Books, ops: seq<Op>, w: Window, rows: seq<Row>)
    requires Inv(t, b) && SafeIds(t, b, ops)
    requires IsTrialBalance(rows, LinesIn(Run(t, b, ops).log, w), Run(t, b, ops).chart)
    ensures Columns(rows).0 == Columns(rows).1
    ensures forall a :: a in Run(t, b, ops).chart && !a.active ==> Net(Run(t, b, ops).log, Always, a.id) == 0
  {
    EveryRunIsSound(t, b, ops);
    var after := Run(t, b, ops);
    forall l | l in LinesIn(after.log, w) ensures Find(after.chart, l.accountId).Some? {
      LinesInAreOfEntries(after.log, w, l);
      var i :| 0 <= i < |after.log| && l in after.log[i].Lines();
      assert EntryFits(after.log[i], after.chart);
    }
    assert forall i :: 0 <= i < |after.log| ==> EntryFits(after.log[i], after.chart);
    TrialBalanceBalances(rows, after.log, w, after.chart);
    assert forall a :: a in after.chart ==> Idle(a, after.log);
  }

  /** A command posted once is never posted again, whatever happens in between. */
  lemma PostedOnce(t: TenantId, b: Books, command: Command, at: string, ops: seq<Op>, again: string)
    requires Inv(t, b) && command.tenantId == t && PostTo(b, command, at).1.Ok?
    requires SafeIds(t, PostTo(b, command, at).0, ops)
    ensures var later := Run(t, PostTo(b, command, at).0, ops);
            PostTo(later, command, again) == (later, PostTo(b, command, at).1)
  {
    var (b1, r) := PostTo(b, command, at);
    StepIsSoundIff(t, b, Post(command, at));
    EveryRunIsSound(t, b1, ops);
    var later := Run(t, b1, ops);
    PostedEntryIsFound(t, b, command, at);
    KeyIsKept(t, b1.log, later.log, command.key);
    ReplayAppendsNothing(b, later, command, at, again);
  }

  lemma PostedEntryIsFound(t: TenantId, b: Books, command: Command, at: string)
    requires Inv(t, b) && command.tenantId == t && PostTo(b, command, at).1.Ok?
    ensures ByKey(PostTo(b, command, at).0.log, command.key) == Some(PostTo(b, command, at).1.value)
  {
    if ByKey(b.log, command.key).None? {
      var draft := PostTo(b, command, at).1.value.draft;
      AppendKeepsWellFormed(t, b.log, draft);
      AppendReturns(b, draft, ByKey(Appended(b.log, draft), draft.key).value);
    }
  }

  lemma KeyIsKept(t: TenantId, before: seq<Entry>, after: seq<Entry>, key: string)
    requires WellFormed(t, after) && before <= after && HasKey(before, key)
    ensures ByKey(after, key) == ByKey(before, key)
  {
    var i := IndexOfKey(before, key);
    assert after[i] == before[i];
    HasKeyAt(after, i);
  }

  // --- statements do not move ----------------------------------------------------------------------

  /**
   * Nothing done to the chart later changes what an already posted window reports: the totals of
   * the journal as it stood, read with any later chart, are the totals it had.
   */
  lemma PastTotalsNeverMove(t: TenantId, b: Books, ops: seq<Op>, w: Window, of: AccountType)
    requires Inv(t, b) && SafeIds(t, b, ops)
    ensures TypeTotal(b.log, w, Run(t, b, ops).chart, of) == TypeTotal(b.log, w, b.chart, of)
  {
    EveryRunIsSound(t, b, ops);
    var chart := Run(t, b, ops).chart;
    forall l | l in LinesIn(b.log, w)
      ensures HasType(chart, of)(l.accountId) == HasType(b.chart, of)(l.accountId)
    {
      PostedTypeStays(b, chart, w, l);
    }
    SameSelection(LinesIn(b.log, w), HasType(chart, of), HasType(b.chart, of));
  }

  lemma PostedTypeStays(b: Books, chart: Chart, w: Window, l: Line)
    requires l in LinesIn(b.log, w) && ChartGrew(b.chart, chart, b.log) && forall e :: e in b.log ==> EntryFits(e, b.chart)
    ensures Find(b.chart, l.accountId).Some? && Find(chart, l.accountId).Some?
    ensures Find(chart, l.accountId).value.accountType == Find(b.chart, l.accountId).value.accountType
  {
    WindowLinesArePosted(b.log, w, l);
    LinesInAreOfEntries(b.log, w, l);
    var i :| 0 <= i < |b.log| && l in b.log[i].Lines();
    assert EntryFits(b.log[i], b.chart);
  }

  lemma {:induction false} WindowLinesArePosted(log: seq<Entry>, w: Window, l: Line)
    requires l in LinesIn(log, w)
    ensures l in LinesIn(log, Always)
  {
    if l in LinesIn(log[..|log| - 1], w) {
      WindowLinesArePosted(log[..|log| - 1], w, l);
    }
  }
}
