/** The opening-balance journal and go-live (ledger-kernel cutover.ts, goLive.ts). */
module Conversion {
  import opened Text
  import opened Dates
  import opened Ledger
  import opened Periods
  import opened Chart
  import opened LedgerStore
  import opened PostingEngine

  datatype ConversionError =
    | NoBalances | WrongCurrency(accountId: AccountId) | AllZero | SingleLine
    | Untyped(code: string) | BadChart(chartError: ChartError) | Refused(error: PostError)

  // --- the opening-balance journal ---------------------------------------------------------------------

  /** A balance as of the cutover date, debit-positive. */
  datatype OpeningBalance = OpeningBalance(accountId: AccountId, balance: int, currency: string)

  datatype CutoverPlan = CutoverPlan(
    tenantId: TenantId, cutoverDate: Date, currency: string, balances: seq<OpeningBalance>,
    equityId: AccountId, provenance: Provenance, memo: string)

  function OpeningLine(b: OpeningBalance): Line {
    if b.balance >= 0 then Line(b.accountId, DEBIT, b.balance, b.currency, "Opening balance", [])
    else Line(b.accountId, CREDIT, -b.balance, b.currency, "Opening balance", [])
  }

  /** One line per balance that is not zero. */
  function OpeningLines(balances: seq<OpeningBalance>): seq<Line> {
    if balances == [] then []
    else
      var front, last := OpeningLines(balances[..|balances| - 1]), balances[|balances| - 1];
      if last.balance == 0 then front else front + [OpeningLine(last)]
  }

  function Residual(balances: seq<OpeningBalance>): int {
    if balances == [] then 0 else Residual(balances[..|balances| - 1]) + balances[|balances| - 1].balance
  }

  /** What the list says one account holds. */
  function BalanceOf(balances: seq<OpeningBalance>, a: AccountId): int {
    if balances == [] then 0
    else
      var last := balances[|balances| - 1];
      BalanceOf(balances[..|balances| - 1], a) + if last.accountId == a then last.balance else 0
  }

  function EquityLine(plan: CutoverPlan, residual: int): Line {
    Line(plan.equityId, if residual > 0 then CREDIT else DEBIT, if residual < 0 then -residual else residual,
         plan.currency, "Opening Balance Equity", [])
  }

  function OpeningCommand(plan: CutoverPlan, lines: seq<Line>): Command {
    Command(plan.tenantId, "cutover:opening:" + IntText(plan.cutoverDate),
            Payload(plan.currency, MonthOf(plan.cutoverDate), plan.cutoverDate, plan.memo, plan.provenance, lines))
  }

  function FirstForeign(balances: seq<OpeningBalance>, currency: string): (r: Option<AccountId>)
    ensures r.None? <==> forall b :: b in balances ==> b.currency == currency
  {
    if balances == [] then None
    else if balances[0].currency != currency then Some(balances[0].accountId)
    else
      assert balances == [balances[0]] + balances[1..];
      FirstForeign(balances[1..], currency)
  }

  function OpeningEntry(plan: CutoverPlan): Result<Command, ConversionError> {
    var lines, residual := OpeningLines(plan.balances), Residual(plan.balances);
    var foreign := FirstForeign(plan.balances, plan.currency);
    if plan.balances == [] then Err(NoBalances)
    else if foreign.Some? then Err(WrongCurrency(foreign.value))
    else if lines == [] then Err(AllZero)
    else if residual != 0 then Ok(OpeningCommand(plan, lines + [EquityLine(plan, residual)]))
    else if |lines| < 2 then Err(SingleLine)
    else Ok(OpeningCommand(plan, lines))
  }

  method BuildOpeningBalanceEntry(plan: CutoverPlan) returns (r: Result<Command, ConversionError>)
    ensures r == OpeningEntry(plan)
  {
    if plan.balances == [] {
      return Err(NoBalances);
    }
    var lines: seq<Line> := [];
    var residual := 0;
    for i := 0 to |plan.balances|
      invariant lines == OpeningLines(plan.balances[..i]) && residual == Residual(plan.balances[..i])
      invariant FirstForeign(plan.balances[i..], plan.currency) == FirstForeign(plan.balances, plan.currency)
    {
      assert plan.balances[..i + 1][..i] == plan.balances[..i];
      assert plan.balances[i..][1..] == plan.balances[i + 1..];
      var b := plan.balances[i];
      if b.currency != plan.currency {
        return Err(WrongCurrency(b.accountId));
      }
      if b.balance != 0 {
        residual := residual + b.balance;
        lines := lines + [OpeningLine(b)];
      }
    }
    assert plan.balances[..|plan.balances|] == plan.balances;
    if lines == [] {
      return Err(AllZero);
    }
    if residual != 0 {
      lines := lines + [EquityLine(plan, residual)];
    } else if |lines| < 2 {
      return Err(SingleLine);
    }
    return Ok(OpeningCommand(plan, lines));
  }

  lemma {:induction false} OpeningLinesAddUp(balances: seq<OpeningBalance>, a: AccountId)
    ensures LinesTotal(OpeningLines(balances)) == Residual(balances)
    ensures LinesNet(OpeningLines(balances), a) == BalanceOf(balances, a)
  {
    if balances != [] {
      var front, last := balances[..|balances| - 1], balances[|balances| - 1];
      OpeningLinesAddUp(front, a);
      if last.balance != 0 {
        var lines := OpeningLines(front);
        assert (lines + [OpeningLine(last)])[..|lines|] == lines;
      }
    }
  }

  lemma {:induction false} OpeningLinesFit(balances: seq<OpeningBalance>)
    ensures forall l :: l in OpeningLines(balances) ==> l.amount > 0
    ensures |OpeningLines(balances)| > 0 <==> exists b :: b in balances && b.balance != 0
  {
    if balances != [] {
      var front, last := balances[..|balances| - 1], balances[|balances| - 1];
      OpeningLinesFit(front);
      assert balances == front + [last];
    }
  }

  lemma OneLine(l: Line)
    ensures LinesTotal([l]) == Signed(l)
  {
    assert [l][..0] == [];
  }

  /** One non-zero line cannot balance, so the refusal of a single line is never reached. */
  lemma SingleLineIsNeverRefused(plan: CutoverPlan)
    ensures OpeningEntry(plan) != Err(SingleLine)
  {
    OpeningLinesAddUp(plan.balances, "");
    OpeningLinesFit(plan.balances);
    var lines := OpeningLines(plan.balances);
    if |lines| == 1 {
      assert lines == [lines[0]] && lines[0] in lines;
      OneLine(lines[0]);
    }
  }

  /**
   * The conversion journal is built exactly from lists in one currency with a balance in them, it always
   * balances, and it puts every account at its balance, with the residual in opening equity.
   */
  lemma OpeningEntryBalances(plan: CutoverPlan, a: AccountId)
    ensures OpeningEntry(plan).Ok? <==>
            (forall b :: b in plan.balances ==> b.currency == plan.currency) && (exists b :: b in plan.balances && b.balance != 0)
    ensures OpeningEntry(plan).Ok? ==> Balanced(OpeningEntry(plan).value.payload.lines)
    ensures OpeningEntry(plan).Ok? ==>
              LinesNet(OpeningEntry(plan).value.payload.lines, a)
              == BalanceOf(plan.balances, a) - if a == plan.equityId then Residual(plan.balances) else 0
  {
    SingleLineIsNeverRefused(plan);
    OpeningLinesAddUp(plan.balances, a);
    OpeningLinesFit(plan.balances);
    var lines, residual := OpeningLines(plan.balances), Residual(plan.balances);
    if residual != 0 {
      var last := EquityLine(plan, residual);
      assert (lines + [last])[..|lines|] == lines;
    }
    forall i | 0 <= i < |lines| ensures lines[i].amount > 0 {
      assert lines[i] in lines;
    }
  }

  // --- executeCutover -------------------------------------------------------------------------------------

  /** Post the journal unless its key was used, then lock the cutover month and all before it. */
  function CutOver(b: Books, plan: CutoverPlan, postedAt: string): (Books, Result<Entry, ConversionError>) {
    match OpeningEntry(plan)
    case Err(e) => (b, Err(e))
    case Ok(command) =>
      var (posted, r) :=
        if HasKey(b.log, command.key) then (b, Ok(b.log[IndexOfKey(b.log, command.key)])) else PostTo(b, command, postedAt);
      match r
      case Err(e) => (posted, Err(Refused(e)))
      case Ok(entry) => (posted.(locks := LockedThrough(posted.locks, MonthOf(plan.cutoverDate))), Ok(entry))
  }

  class CutoverRunner {
    const engine: Engine

    constructor (engine: Engine)
      ensures this.engine == engine
    {
      this.engine := engine;
    }

    method ExecuteCutover(plan: CutoverPlan, postedAt: string) returns (r: Result<Entry, ConversionError>)
      requires engine.Valid()
      modifies engine.store, engine.periods
      ensures engine.Valid()
      ensures (engine.View(plan.tenantId), r) == CutOver(old(engine.View(plan.tenantId)), plan, postedAt)
    {
      var built := BuildOpeningBalanceEntry(plan);
      if built.Err? {
        return Err(built.error);
      }
      var command := built.value;
      var existing := engine.store.GetByIdempotencyKey(plan.tenantId, command.key);
      var entry: Entry;
      if existing.Some? {
        entry := existing.value;
      } else {
        var posted := engine.Post(command, postedAt);
        if posted.Err? {
          return Err(Refused(posted.error));
        }
        entry := posted.value;
      }
      engine.periods.LockThrough(plan.tenantId, MonthOf(plan.cutoverDate));
      return Ok(entry);
    }
  }

  lemma LockingAgainChangesNothing(l: Locks, p: Month)
    ensures LockedThrough(LockedThrough(l, p), p) == LockedThrough(l, p)
  {
  }

  /**
   * Running a cutover again, with these or any other balances for the same date, posts nothing, changes
   * nothing and returns the entry of the first run.
   */
  lemma CutoverRunsOnce(b: Books, plan: CutoverPlan, postedAt: string, other: CutoverPlan, again: string)
    requires CutOver(b, plan, postedAt).1.Ok?
    requires OpeningEntry(other).Ok? && other.cutoverDate == plan.cutoverDate
    ensures CutOver(CutOver(b, plan, postedAt).0, other, again) == CutOver(b, plan, postedAt)
  {
    var command := OpeningEntry(plan).value;
    assert OpeningEntry(other).value.key == command.key;
    LockingAgainChangesNothing(b.locks, MonthOf(plan.cutoverDate));
    if !HasKey(b.log, command.key) {
      var e := CutOver(b, plan, postedAt).1.value;
      var log' := b.log + [e];
      assert CutOver(b, plan, postedAt).0.log == log';
      HasKeyAt(log', |b.log|);
      KeyFoundAtEnd(b.log, e);
    }
  }

  lemma KeyFoundAtEnd(log: seq<Entry>, e: Entry)
    requires !HasKey(log, e.draft.key)
    ensures IndexOfKey(log + [e], e.draft.key) == |log|
  {
    assert forall k :: 0 <= k < |log| ==> (log + [e])[k] == log[k];
    HasKeyAt(log + [e], |log|);
  }

  // --- go-live ----------------------------------------------------------------------------------------------

  datatype SourceAccount = SourceAccount(
    code: string, name: string, balance: int, subtype: Option<AccountSubtype>, accountType: Option<AccountType>)

  datatype GoLiveRequest = GoLiveRequest(
    tenantId: TenantId, fromQuickBooks: bool, cutoverDate: Date, currency: string, template: seq<Account>,
    sources: seq<SourceAccount>, equityCode: string, provenance: Provenance, memo: string)

  datatype Building = Building(accounts: seq<Account>, created: seq<Account>)

  function AccountIdFor(code: string): AccountId {
    "acct:" + code
  }

  function IndexOfCode(accounts: seq<Account>, code: string): (i: nat)
    ensures i <= |accounts|
    ensures i < |accounts| ==> accounts[i].code == code
    ensures i == |accounts| ==> forall k :: 0 <= k < |accounts| ==> accounts[k].code != code
  {
    if accounts == [] then 0
    else if accounts[|accounts| - 1].code == code then |accounts| - 1
    else
      var i := IndexOfCode(accounts[..|accounts| - 1], code);
      if i == |accounts| - 1 then |accounts| else i
  }

  function SourceType(s: SourceAccount): Option<AccountType> {
    if s.subtype.Some? then Some(TypeOfSubtype(s.subtype.value)) else s.accountType
  }

  function BroughtOver(s: SourceAccount, t: AccountType, currency: string, origin: Origin): Account {
    Account(AccountIdFor(s.code), s.code, s.name, t, currency, None, s.subtype, true, origin)
  }

  function Added(b: Building, a: Account): Building {
    Building(b.accounts + [a], b.created + [a])
  }

  /** Bring one source account over: mark the template's account, or create one. */
  function WithSource(b: Building, s: SourceAccount, currency: string, origin: Origin): Result<Building, ConversionError> {
    var i := IndexOfCode(b.accounts, s.code);
    if i < |b.accounts| then
      Ok(if origin == QUICKBOOKS then b.(accounts := b.accounts[i := b.accounts[i].(origin := origin)]) else b)
    else if SourceType(s).None? then Err(Untyped(s.code))
    else Ok(Added(b, BroughtOver(s, SourceType(s).value, currency, origin)))
  }

  function WithSources(b: Building, sources: seq<SourceAccount>, currency: string, origin: Origin): Result<Building, ConversionError> {
    if sources == [] then Ok(b)
    else
      var front :- WithSources(b, sources[..|sources| - 1], currency, origin);
      WithSource(front, sources[|sources| - 1], currency, origin)
  }

  function EquityAccount(code: string, currency: string): Account {
    Account(AccountIdFor(code), code, "Opening Balance Equity", EQUITY, currency, None, Some(BOOK_EQUITY), true, RGNR8)
  }

  function OriginOf(r: GoLiveRequest): Origin {
    if r.fromQuickBooks then QUICKBOOKS else RGNR8
  }

  function GoLiveAccounts(r: GoLiveRequest): Result<Building, ConversionError> {
    var b :- WithSources(Building(r.template, []), r.sources, r.currency, OriginOf(r));
    Ok(if IndexOfCode(b.accounts, r.equityCode) < |b.accounts| then b else Added(b, EquityAccount(r.equityCode, r.currency)))
  }

  method BringOver(b: Building, s: SourceAccount, currency: string, origin: Origin) returns (r: Result<Building, ConversionError>)
    ensures r == WithSource(b, s, currency, origin)
  {
    var k := IndexOfCode(b.accounts, s.code);
    if k < |b.accounts| {
      if origin == QUICKBOOKS {
        return Ok(b.(accounts := b.accounts[k := b.accounts[k].(origin := origin)]));
      }
      return Ok(b);
    }
    var t := SourceType(s);
    if t.None? {
      return Err(Untyped(s.code));
    }
    return Ok(Added(b, BroughtOver(s, t.value, currency, origin)));
  }

  method BuildGoLiveChart(r: GoLiveRequest) returns (result: Result<Building, ConversionError>)
    ensures result == GoLiveAccounts(r)
  {
    var b := Building(r.template, []);
    var origin := OriginOf(r);
    for i := 0 to |r.sources|
      invariant WithSources(Building(r.template, []), r.sources[..i], r.currency, origin) == Ok(b)
    {
      assert r.sources[..i + 1][..i] == r.sources[..i];
      var brought := BringOver(b, r.sources[i], r.currency, origin);
      if brought.Err? {
        UntypedStaysUntyped(r, origin, i + 1);
        return Err(brought.error);
      }
      b := brought.value;
    }
    assert r.sources[..|r.sources|] == r.sources;
    if IndexOfCode(b.accounts, r.equityCode) == |b.accounts| {
      b := Added(b, EquityAccount(r.equityCode, r.currency));
    }
    return Ok(b);
  }

  lemma {:induction false} UntypedStaysUntyped(r: GoLiveRequest, origin: Origin, n: nat)
    requires n <= |r.sources| && WithSources(Building(r.template, []), r.sources[..n], r.currency, origin).Err?
    ensures WithSources(Building(r.template, []), r.sources, r.currency, origin)
         == WithSources(Building(r.template, []), r.sources[..n], r.currency, origin)
    decreases |r.sources| - n
  {
    if n == |r.sources| {
      assert r.sources[..n] == r.sources;
    } else {
      assert r.sources[..n + 1][..n] == r.sources[..n];
      UntypedStaysUntyped(r, origin, n + 1);
    }
  }

  /** An account as go-live makes them: named by its code, a root, active, in the client's currency. */
  predicate Plain(a: Account, currency: string) {
    a.id == AccountIdFor(a.code) && a.parentId.None? && SubtypeFits(a) && a.active && a.currency == currency
  }

  ghost predicate PlainList(accounts: seq<Account>, currency: string) {
    && (forall i :: 0 <= i < |accounts| ==> Plain(accounts[i], currency))
    && (forall i, j :: 0 <= i < j < |accounts| ==> accounts[i].code != accounts[j].code)
  }

  lemma IdsNameCodes(a: string, b: string)
    requires AccountIdFor(a) == AccountIdFor(b)
    ensures a == b
  {
    assert a == AccountIdFor(a)[5..] && b == AccountIdFor(b)[5..];
  }

  /** The kernel accepts every such list, as it stands. */
  lemma {:induction false} PlainListBuilds(accounts: seq<Account>, currency: string)
    requires PlainList(accounts, currency)
    ensures Built(accounts) == Ok(accounts)
  {
    if accounts != [] {
      var front, last := accounts[..|accounts| - 1], accounts[|accounts| - 1];
      PlainListBuilds(front, currency);
      PlainInserts(front, last, currency);
      assert accounts == front + [last];
    }
  }

  lemma PlainInserts(front: seq<Account>, last: Account, currency: string)
    requires PlainList(front, currency) && Plain(last, currency) && forall i :: 0 <= i < |front| ==> front[i].code != last.code
    ensures Inserted(front, last) == Ok(front + [last])
  {
    forall a | a in front ensures a.id != last.id && a.code != last.code {
      var i :| 0 <= i < |front| && front[i] == a;
      assert Plain(front[i], currency);
      if a.id == last.id {
        IdsNameCodes(a.code, last.code);
      }
    }
  }

  lemma AddedStaysPlain(accounts: seq<Account>, a: Account, currency: string)
    requires PlainList(accounts, currency) && Plain(a, currency) && IndexOfCode(accounts, a.code) == |accounts|
    ensures PlainList(accounts + [a], currency)
  {
  }

  ghost predicate HasCode(accounts: seq<Account>, code: string) {
    exists a :: a in accounts && a.code == code
  }

  lemma {:induction false} SourcesStayPlain(b: Building, sources: seq<SourceAccount>, currency: string, origin: Origin)
    requires PlainList(b.accounts, currency) && WithSources(b, sources, currency, origin).Ok?
    ensures var accounts := WithSources(b, sources, currency, origin).value.accounts;
            && PlainList(accounts, currency)
            && forall s :: s in sources ==> HasCode(accounts, s.code)
  {
    if sources != [] {
      var front, last := sources[..|sources| - 1], sources[|sources| - 1];
      SourcesStayPlain(b, front, currency, origin);
      SourceStaysPlain(WithSources(b, front, currency, origin).value, last, currency, origin);
      assert sources == front + [last];
    }
  }

  lemma SourceStaysPlain(b: Building, s: SourceAccount, currency: string, origin: Origin)
    requires PlainList(b.accounts, currency) && WithSource(b, s, currency, origin).Ok?
    ensures var after := WithSource(b, s, currency, origin).value.accounts;
            && PlainList(after, currency) && HasCode(after, s.code)
            && forall code :: HasCode(b.accounts, code) ==> HasCode(after, code)
  {
    var after := WithSource(b, s, currency, origin).value.accounts;
    var i := IndexOfCode(b.accounts, s.code);
    if i == |b.accounts| {
      AddedStaysPlain(b.accounts, after[i], currency);
    }
    assert after[i] in after && after[i].code == s.code;
    forall code | HasCode(b.accounts, code) ensures HasCode(after, code) {
      var a :| a in b.accounts && a.code == code;
      var k :| 0 <= k < |b.accounts| && b.accounts[k] == a;
      assert after[k] in after && after[k].code == code;
    }
  }

  lemma GoLiveChartIsPlain(r: GoLiveRequest)
    requires PlainList(r.template, r.currency) && GoLiveAccounts(r).Ok?
    ensures var accounts := GoLiveAccounts(r).value.accounts;
            && PlainList(accounts, r.currency) && Built(accounts) == Ok(accounts)
            && HasCode(accounts, r.equityCode) && forall s :: s in r.sources ==> HasCode(accounts, s.code)
  {
    var b := WithSources(Building(r.template, []), r.sources, r.currency, OriginOf(r)).value;
    SourcesStayPlain(Building(r.template, []), r.sources, r.currency, OriginOf(r));
    var accounts := GoLiveAccounts(r).value.accounts;
    var i := IndexOfCode(b.accounts, r.equityCode);
    if i == |b.accounts| {
      AddedStaysPlain(b.accounts, EquityAccount(r.equityCode, r.currency), r.currency);
      assert forall a :: a in b.accounts ==> a in accounts;
    }
    assert accounts[i] in accounts && accounts[i].code == r.equityCode;
    PlainListBuilds(accounts, r.currency);
  }

  function OpeningBalances(r: GoLiveRequest): (bs: seq<OpeningBalance>)
    ensures |bs| == |r.sources|
    ensures forall i :: 0 <= i < |bs| ==> bs[i] == OpeningBalance(AccountIdFor(r.sources[i].code), r.sources[i].balance, r.currency)
  {
    seq(|r.sources|, i requires 0 <= i < |r.sources| =>
      OpeningBalance(AccountIdFor(r.sources[i].code), r.sources[i].balance, r.currency))
  }

  function PlanOf(r: GoLiveRequest): CutoverPlan {
    CutoverPlan(r.tenantId, r.cutoverDate, r.currency, OpeningBalances(r), AccountIdFor(r.equityCode), r.provenance, r.memo)
  }

  /** Build and keep the chart, then cut over on it. */
  function GoLive(b: Books, r: GoLiveRequest, postedAt: string): (Books, Result<Entry, ConversionError>) {
    if r.sources == [] then (b, Err(NoBalances))
    else match GoLiveAccounts(r)
         case Err(e) => (b, Err(e))
         case Ok(building) =>
           match Built(building.accounts)
           case Err(e) => (b, Err(BadChart(e)))
           case Ok(chart) => CutOver(b.(chart := chart), PlanOf(r), postedAt)
  }

  /** What the source says one account of ours holds. */
  function SourceNet(sources: seq<SourceAccount>, a: AccountId): int {
    if sources == [] then 0
    else
      var last := sources[|sources| - 1];
      SourceNet(sources[..|sources| - 1], a) + if AccountIdFor(last.code) == a then last.balance else 0
  }

  function SourceTotal(sources: seq<SourceAccount>): int {
    if sources == [] then 0 else SourceTotal(sources[..|sources| - 1]) + sources[|sources| - 1].balance
  }

  lemma {:induction false} BalancesAreSources(r: GoLiveRequest, n: nat, a: AccountId)
    requires n <= |r.sources|
    ensures BalanceOf(OpeningBalances(r)[..n], a) == SourceNet(r.sources[..n], a)
    ensures Residual(OpeningBalances(r)[..n]) == SourceTotal(r.sources[..n])
  {
    if n > 0 {
      BalancesAreSources(r, n - 1, a);
      assert OpeningBalances(r)[..n][..n - 1] == OpeningBalances(r)[..n - 1] && r.sources[..n][..n - 1] == r.sources[..n - 1];
    }
  }

  lemma {:induction false} OpeningAccounts(balances: seq<OpeningBalance>, l: Line)
    requires l in OpeningLines(balances)
    ensures exists b :: b in balances && l.accountId == b.accountId && l.currency == b.currency
  {
    var front, last := balances[..|balances| - 1], balances[|balances| - 1];
    assert balances == front + [last];
    if l in OpeningLines(front) {
      OpeningAccounts(front, l);
    }
  }

  /** Every line of the opening entry is on an account of the new chart. */
  lemma OpeningPostsToTheChart(r: GoLiveRequest)
    requires PlainList(r.template, r.currency) && GoLiveAccounts(r).Ok? && OpeningEntry(PlanOf(r)).Ok?
    ensures var lines, chart := OpeningEntry(PlanOf(r)).value.payload.lines, GoLiveAccounts(r).value.accounts;
            forall i :: 0 <= i < |lines| ==>
              var a := Find(chart, lines[i].accountId);
              a.Some? && a.value.active && a.value.currency == r.currency == lines[i].currency
  {
    GoLiveChartIsPlain(r);
    var lines, chart := OpeningEntry(PlanOf(r)).value.payload.lines, GoLiveAccounts(r).value.accounts;
    forall i | 0 <= i < |lines|
      ensures var a := Find(chart, lines[i].accountId);
              a.Some? && a.value.active && a.value.currency == r.currency == lines[i].currency
    {
      if lines[i] in OpeningLines(PlanOf(r).balances) {
        OpeningLineIsFound(r, chart, lines[i]);
      } else {
        CodeIsFound(chart, r.equityCode, r.currency);
      }
    }
  }

  lemma OpeningLineIsFound(r: GoLiveRequest, chart: Chart, l: Line)
    requires l in OpeningLines(PlanOf(r).balances) && PlainList(chart, r.currency)
    requires forall s :: s in r.sources ==> HasCode(chart, s.code)
    requires FirstForeign(PlanOf(r).balances, r.currency).None?
    ensures var a := Find(chart, l.accountId);
            a.Some? && a.value.active && a.value.currency == r.currency == l.currency
  {
    OpeningAccounts(PlanOf(r).balances, l);
    var b :| b in PlanOf(r).balances && l.accountId == b.accountId && l.currency == b.currency;
    var k :| 0 <= k < |r.sources| && PlanOf(r).balances[k] == b;
    assert r.sources[k] in r.sources;
    CodeIsFound(chart, r.sources[k].code, r.currency);
  }

  lemma CodeIsFound(chart: Chart, code: string, currency: string)
    requires PlainList(chart, currency) && HasCode(chart, code)
    ensures var a := Find(chart, AccountIdFor(code)); a.Some? && a.value.active && a.value.currency == currency
  {
    var a :| a in chart && a.code == code;
    var k :| 0 <= k < |chart| && chart[k] == a;
    assert Plain(chart[k], currency);
    var found := Find(chart, AccountIdFor(code)).value;
    var j :| 0 <= j < |chart| && chart[j] == found;
    assert Plain(chart[j], currency);
  }

  lemma GoLiveIsCutOver(b: Books, r: GoLiveRequest, postedAt: string)
    requires PlainList(r.template, r.currency) && GoLiveAccounts(r).Ok? && r.sources != []
    ensures GoLive(b, r, postedAt) == CutOver(b.(chart := GoLiveAccounts(r).value.accounts), PlanOf(r), postedAt)
  {
    GoLiveChartIsPlain(r);
  }

  lemma JournalIsAccepted(r: GoLiveRequest, a: AccountId)
    requires PlainList(r.template, r.currency) && GoLiveAccounts(r).Ok?
    requires exists s :: s in r.sources && s.balance != 0
    ensures OpeningEntry(PlanOf(r)).Ok?
    ensures var lines := OpeningEntry(PlanOf(r)).value.payload.lines;
            && Balanced(lines) && Validated(lines, r.currency, GoLiveAccounts(r).value.accounts).Ok?
            && LinesNet(lines, a)
               == SourceNet(r.sources, a) - (if a == AccountIdFor(r.equityCode) then SourceTotal(r.sources) else 0)
  {
    var plan := PlanOf(r);
    SomeBalance(r);
    OpeningEntryBalances(plan, a);
    OpeningPostsToTheChart(r);
    AcceptedIffBalanced(OpeningEntry(plan).value.payload.lines, r.currency, GoLiveAccounts(r).value.accounts);
    BalancesAreSources(r, |r.sources|, a);
    assert OpeningBalances(r)[..|r.sources|] == OpeningBalances(r) && r.sources[..|r.sources|] == r.sources;
  }

  /**
   * Go-live on an empty ledger is accepted, reproduces the source trial balance account by account (its
   * residual, if any, in opening equity), and locks every month through the cutover.
   */
  lemma GoLiveReproducesTheSource(b: Books, r: GoLiveRequest, postedAt: string, a: AccountId, m: Month)
    requires b.log == [] && StatusOf(b.locks, MonthOf(r.cutoverDate)) == OPEN && m <= MonthOf(r.cutoverDate)
    requires PlainList(r.template, r.currency) && GoLiveAccounts(r).Ok?
    requires exists s :: s in r.sources && s.balance != 0
    ensures var (after, entry) := GoLive(b, r, postedAt);
            && entry.Ok? && after.log == [entry.value] && Balanced(entry.value.Lines())
            && Net(after.log, Always, a)
               == SourceNet(r.sources, a) - (if a == AccountIdFor(r.equityCode) then SourceTotal(r.sources) else 0)
            && StatusOf(after.locks, m) == LOCKED
  {
    GoLiveIsCutOver(b, r, postedAt);
    JournalIsAccepted(r, a);
    FirstOpening(b.(chart := GoLiveAccounts(r).value.accounts), PlanOf(r), postedAt, a);
  }

  /** A go-live that succeeded once changes nothing when it is run again. */
  lemma GoLiveRunsOnce(b: Books, r: GoLiveRequest, postedAt: string, again: string)
    requires PlainList(r.template, r.currency) && GoLive(b, r, postedAt).1.Ok?
    ensures GoLive(GoLive(b, r, postedAt).0, r, again) == GoLive(b, r, postedAt)
  {
    var chart := GoLiveAccounts(r).value.accounts;
    var start := b.(chart := chart);
    var (after, entry) := GoLive(b, r, postedAt);
    GoLiveIsCutOver(b, r, postedAt);
    GoLiveIsCutOver(after, r, again);
    CutoverKeepsChart(start, PlanOf(r), postedAt);
    assert after.(chart := chart) == after;
    CutoverRunsOnce(start, PlanOf(r), postedAt, PlanOf(r), again);
  }

  lemma CutoverKeepsChart(b: Books, plan: CutoverPlan, postedAt: string)
    ensures CutOver(b, plan, postedAt).0.chart == b.chart
  {
  }

  lemma SomeBalance(r: GoLiveRequest)
    requires exists s :: s in r.sources && s.balance != 0
    ensures exists b :: b in PlanOf(r).balances && b.balance != 0
  {
    var s :| s in r.sources && s.balance != 0;
    var i :| 0 <= i < |r.sources| && r.sources[i] == s;
    assert PlanOf(r).balances[i] in PlanOf(r).balances;
  }

  /** A cutover whose journal the engine accepts, on an empty ledger. */
  lemma FirstOpening(b: Books, plan: CutoverPlan, postedAt: string, a: AccountId)
    requires b.log == [] && OpeningEntry(plan).Ok? && StatusOf(b.locks, MonthOf(plan.cutoverDate)) == OPEN
    requires Validated(OpeningEntry(plan).value.payload.lines, plan.currency, b.chart).Ok?
    ensures var (after, entry) := CutOver(b, plan, postedAt);
            && entry.Ok? && after.log == [entry.value] && after.chart == b.chart
            && entry.value.Lines() == OpeningEntry(plan).value.payload.lines
            && Net(after.log, Always, a) == LinesNet(entry.value.Lines(), a)
            && after.locks == LockedThrough(b.locks, MonthOf(plan.cutoverDate))
  {
    var (after, entry) := CutOver(b, plan, postedAt);
    assert after.log == [] + [entry.value];
    NetOfAppended([], entry.value, Always, a);
  }

  // --- a source trial balance --------------------------------------------------------------------------------

  datatype SourceRow = SourceRow(
    code: string, name: string, debit: int, credit: int, subtype: Option<AccountSubtype>, accountType: Option<AccountType>)

  function SourceAccountsFromTrialBalance(rows: seq<SourceRow>): (r: seq<SourceAccount>)
    ensures |r| == |rows|
    ensures forall i :: 0 <= i < |r| ==>
              r[i] == SourceAccount(rows[i].code, rows[i].name, rows[i].debit - rows[i].credit, rows[i].subtype, rows[i].accountType)
  {
    seq(|rows|, i requires 0 <= i < |rows| =>
      SourceAccount(rows[i].code, rows[i].name, rows[i].debit - rows[i].credit, rows[i].subtype, rows[i].accountType))
  }

  function ColumnTotals(rows: seq<SourceRow>): (int, int) {
    if rows == [] then (0, 0)
    else
      var (d, c) := ColumnTotals(rows[..|rows| - 1]);
      (d + rows[|rows| - 1].debit, c + rows[|rows| - 1].credit)
  }

  /** Opening equity stays at the source's own balance exactly when the source's columns agree. */
  lemma {:induction false} ResidualIsTheColumnsDifference(rows: seq<SourceRow>)
    ensures SourceTotal(SourceAccountsFromTrialBalance(rows)) == ColumnTotals(rows).0 - ColumnTotals(rows).1
  {
    if rows != [] {
      ResidualIsTheColumnsDifference(rows[..|rows| - 1]);
      assert SourceAccountsFromTrialBalance(rows)[..|rows| - 1] == SourceAccountsFromTrialBalance(rows[..|rows| - 1]);
    }
  }
}
