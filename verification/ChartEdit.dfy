/** The rules that decide whether an account may be created or changed (ledger-service chartEdit.ts). */
module ChartEdit {
  import opened Text
  import opened Ledger
  import opened Chart

  /** How deep accounts may lie, counting the top as one. */
  const MAX_CHART_DEPTH := 5

  datatype Refusal =
    // 400: the request is wrong
    | NeedsName | NeedsNumber | NeedsType | DetailTypeDiffers
    | NoSuchParent | OwnParent | ParentCycle | ParentInactive | ParentOfOtherType | TooDeep
    // 409: the books forbid it
    | EditInQuickBooks | SystemType | SystemNumber | SystemInactive
    | HasPostings | HasChildren | HasBalance | ParentStillInactive | CodeTaken
    // the kernel's own validation, which throws a plain error
    | KernelRejects(error: ChartError)

  /** None leaves a field alone; the inner None of `subtype` and `parentCode` clears it. */
  datatype Changes = Changes(
    name: Option<string>, number: Option<string>, accountType: Option<AccountType>,
    subtype: Option<Option<AccountSubtype>>, parentCode: Option<Option<string>>, active: Option<bool>)

  /** The facts the rules read about the account being edited. */
  datatype Facts = Facts(quickBooksOfRecord: bool, hasPostings: bool, balanceMinor: int)

  const OPENING_BALANCE_EQUITY_CODE := "3010"
  const OPENING_BALANCE_EQUITY_NAME := "Opening Balance Equity"

  predicate IsSystemAccount(a: Account) {
    match a.subtype
    case Some(ACCOUNTS_RECEIVABLE) | Some(ACCOUNTS_PAYABLE) | Some(UNDEPOSITED_FUNDS)
       | Some(SALES_TAX_PAYABLE) | Some(RETAINED_EARNINGS) => true
    case Some(BOOK_EQUITY) => a.code == OPENING_BALANCE_EQUITY_CODE || a.name == OPENING_BALANCE_EQUITY_NAME
    case _ => false
  }

  function CheckParent(chart: Chart, parentCode: string, accountType: AccountType,
                       current: Option<Account>, height: nat): Result<Account, Refusal>
    requires ValidChart(chart)
  {
    match FindCode(chart, parentCode)
    case None => Err(NoSuchParent)
    case Some(parent) =>
      :- Need(current.Some? ==> parent.id != current.value.id, OwnParent);
      :- Need(current.Some? ==> !UnderOrIs(chart, parent, current.value.id), ParentCycle);
      :- Need(parent.active, ParentInactive);
      :- Need(parent.accountType == accountType, ParentOfOtherType);
      :- Need(Depth(chart, parent) + 1 + height <= MAX_CHART_DEPTH, TooDeep);
      Ok(parent)
  }

  function ResolveType(current: Option<Account>, changes: Changes)
    : (r: Result<(AccountType, Option<AccountSubtype>), Refusal>)
    ensures r.Ok? && r.value.1.Some? ==> TypeOfSubtype(r.value.1.value) == r.value.0
  {
    var subtype := match changes.subtype
      case None => if current.Some? then current.value.subtype else None
      case Some(s) => s;
    var fromSubtype := if subtype.Some? then Some(TypeOfSubtype(subtype.value)) else None;
    :- Need(!(changes.accountType.Some? && fromSubtype.Some? && changes.accountType != fromSubtype), DetailTypeDiffers);
    var chosen := if changes.accountType.Some? then changes.accountType
                  else if fromSubtype.Some? then fromSubtype
                  else if current.Some? then Some(current.value.accountType)
                  else None;
    :- Need(chosen.Some?, NeedsType);
    :- Need(subtype.Some? ==> TypeOfSubtype(subtype.value) == chosen.value, DetailTypeDiffers);
    Ok((chosen.value, subtype))
  }

  /** The trimmed text, or the current one when none is asked for. */
  function Clean(asked: Option<string>, current: string, refusal: Refusal): Result<string, Refusal> {
    match asked
    case None => Ok(current)
    case Some(raw) => if Trim(raw) == "" then Err(refusal) else Ok(Trim(raw))
  }

  function ParentCodeIn(chart: Chart, a: Account): Option<string> {
    match ParentOf(chart, a)
    case None => None
    case Some(p) => Some(p.code)
  }

  /** The chart with one account replaced, or added when its id is new. */
  function Without(chart: Chart, id: AccountId): (r: Chart)
    ensures forall a :: a in r <==> a in chart && a.id != id
  {
    if chart == [] then []
    else (if chart[0].id == id then [] else [chart[0]]) + Without(chart[1..], id)
  }

  function Replaced(chart: Chart, next: Account): Chart {
    Without(chart, next.id) + [next]
  }

  /** The kernel's check of the whole edited chart. */
  function Validated(accounts: Chart, next: Account): Result<Account, Refusal> {
    match Built(Ordered(accounts, |accounts|))
    case Ok(_) => Ok(next)
    case Err(e) => Err(KernelRejects(e))
  }

  /** The account as asked for, before any rule about the books is applied. */
  function Asked(current: Account, changes: Changes): Result<Account, Refusal> {
    var resolved :- ResolveType(Some(current), changes);
    var name :- Clean(changes.name, current.name, NeedsName);
    var number :- Clean(changes.number, current.code, NeedsNumber);
    Ok(current.(name := name, code := number, accountType := resolved.0, subtype := resolved.1,
                active := changes.active.GetOr(current.active)))
  }

  /** The refusals that read the books and the account, in the order they are raised. */
  function BooksAllow(chart: Chart, current: Account, asked: Account, facts: Facts): Outcome<Refusal> {
    var retyped, deactivated := asked.accountType != current.accountType, current.active && !asked.active;
    if current.origin == QUICKBOOKS && facts.quickBooksOfRecord then Fail(EditInQuickBooks)
    else if IsSystemAccount(current) && (retyped || asked.subtype != current.subtype) then Fail(SystemType)
    else if IsSystemAccount(current) && asked.code != current.code then Fail(SystemNumber)
    else if IsSystemAccount(current) && deactivated then Fail(SystemInactive)
    else if retyped && facts.hasPostings then Fail(HasPostings)
    else if retyped && Children(chart, current.id) != [] then Fail(HasChildren)
    else if deactivated && facts.balanceMinor != 0 then Fail(HasBalance)
    else if !current.active && asked.active && ParentOf(chart, current).Some? && !ParentOf(chart, current).value.active
    then Fail(ParentStillInactive)
    else Pass
  }

  /** The parent asked for: None leaves it alone, and an empty code clears it. */
  function AskedParent(changes: Changes): Option<Option<string>> {
    if changes.parentCode == Some(Some("")) then Some(None) else changes.parentCode
  }

  function ParentChanged(chart: Chart, current: Account, changes: Changes): bool {
    AskedParent(changes).Some? && AskedParent(changes).value != ParentCodeIn(chart, current)
  }

  /** The parent link of the edited account; re-checked when the parent, the type or the activity changes. */
  function NewParent(chart: Chart, current: Account, asked: Account, changes: Changes): Result<Option<AccountId>, Refusal>
    requires ValidChart(chart) && current in chart
  {
    var finalCode := AskedParent(changes).GetOr(ParentCodeIn(chart, current));
    if finalCode.None? then Ok(None)
    else if ParentChanged(chart, current, changes) || asked.accountType != current.accountType
            || (asked.active && !current.active) then
      var p :- CheckParent(chart, finalCode.value, asked.accountType, Some(current), Height(chart, current));
      Ok(Some(p.id))
    else Ok(current.parentId)
  }

  function PlanAccountEdit(chart: Chart, current: Account, changes: Changes, facts: Facts): Result<Account, Refusal>
    requires ValidChart(chart) && current in chart
  {
    var asked :- Asked(current, changes);
    if asked == current && !ParentChanged(chart, current, changes) then Ok(current)
    else
      :- BooksAllow(chart, current, asked, facts);
      var parentId :- NewParent(chart, current, asked, changes);
      :- Need(asked.code != current.code ==> FindCode(chart, asked.code).None?, CodeTaken);
      var next := asked.(parentId := parentId);
      Validated(Replaced(chart, next), next)
  }

  // --- what an accepted change keeps --------------------------------------------------------------

  ghost predicate WithinDepth(chart: Chart) {
    ValidChart(chart) && forall a :: a in chart ==> Depth(chart, a) <= MAX_CHART_DEPTH
  }

  /** `next` can take the place of `current`, with everything under it, and leave a forest. */
  ghost predicate Movable(chart: Chart, current: Account, next: Account)
    requires ValidChart(chart) && current in chart
  {
    && next.id == current.id && SubtypeFits(next)
    && (next.code != current.code ==> FindCode(chart, next.code).None?)
    && (next.accountType != current.accountType ==> Children(chart, current.id) == [])
    && (next.parentId.Some? ==>
          var p := Find(chart, next.parentId.value);
          && p.Some? && p.value.accountType == next.accountType
          && (next.parentId == current.parentId || !UnderOrIs(chart, p.value, current.id)))
  }

  /** The checks every accepted edit has passed, whichever fields it changed. */
  ghost predicate Admissible(chart: Chart, current: Account, next: Account)
    requires ValidChart(chart) && current in chart
  {
    && Movable(chart, current, next)
    && (next.parentId.Some? && next.parentId != current.parentId ==>
          Depth(chart, Find(chart, next.parentId.value).value) + 1 + Height(chart, current) <= MAX_CHART_DEPTH)
  }

  lemma {:induction false} WithoutKeepsUnique(chart: Chart, id: AccountId)
    requires UniqueIds(chart) && UniqueCodes(chart)
    ensures UniqueIds(Without(chart, id)) && UniqueCodes(Without(chart, id))
  {
    if chart != [] {
      WithoutKeepsUnique(chart[1..], id);
      var rest := Without(chart[1..], id);
      assert forall i :: 0 <= i < |rest| ==> rest[i] in rest && rest[i] in chart[1..];
    }
  }

  lemma ReplacedLookups(chart: Chart, current: Account, next: Account)
    requires ValidChart(chart) && current in chart && next.id == current.id
    requires next.code != current.code ==> FindCode(chart, next.code).None?
    ensures var chart' := Replaced(chart, next);
            && UniqueIds(chart') && UniqueCodes(chart')
            && (forall a :: a in chart' <==> a == next || (a in chart && a != current))
            && (forall id :: Find(chart', id) == if id == next.id then Some(next) else Find(chart, id))
  {
    WithoutKeepsUnique(chart, next.id);
    var rest, chart' := Without(chart, next.id), Replaced(chart, next);
    forall a | a in rest ensures a.id != next.id && a.code != next.code {
      if a.code == next.code {
        CodesIdentify(chart, a, current);
      }
    }
    assert forall i :: 0 <= i < |rest| ==> rest[i] in rest;
    forall a | a in chart && a.id == current.id ensures a == current {
      FindOwn(chart, a);
      FindOwn(chart, current);
    }
    forall id ensures Find(chart', id) == if id == next.id then Some(next) else Find(chart, id) {
      if id == next.id {
        FindOwn(chart', next);
      } else if Find(chart, id).Some? {
        FindOwn(chart', Find(chart, id).value);
      }
    }
  }

  /** The level an account has once `current`, with everything under it, has moved. */
  ghost function MovedLevel(chart: Chart, current: Account, next: Account, a: Account): nat
    requires ValidChart(chart) && current in chart && a in chart && Movable(chart, current, next)
  {
    var level := LevelsOf(chart);
    if next.parentId == current.parentId || !UnderOrIs(chart, a, current.id) then level[a.id]
    else
      HeightBounds(chart, current, a, level);
      level[a.id] - level[current.id] + if next.parentId.None? then 1 else level[next.parentId.value] + 1
  }

  /** One step down the tree still adds one level after the move. */
  lemma MovedLevelSteps(chart: Chart, current: Account, next: Account, a: Account)
    requires ValidChart(chart) && current in chart && a in chart && a.id != current.id
    requires Movable(chart, current, next)
    ensures match ParentOf(chart, a)
            case None => MovedLevel(chart, current, next, a) == 1
            case Some(p) => MovedLevel(chart, current, next, a) == MovedLevel(chart, current, next, p) + 1
  {
    if ParentOf(chart, a).Some? {
      var p := ParentOf(chart, a).value;
      assert UnderOrIs(chart, a, current.id) <==> UnderOrIs(chart, p, current.id);
      if UnderOrIs(chart, a, current.id) {
        HeightBounds(chart, current, p, LevelsOf(chart));
      }
    }
  }

  lemma MovedLevelOfMoved(chart: Chart, current: Account, next: Account)
    requires ValidChart(chart) && current in chart && Movable(chart, current, next)
    ensures match next.parentId
            case None => MovedLevel(chart, current, next, current) == 1
            case Some(p) =>
              MovedLevel(chart, current, next, current) == MovedLevel(chart, current, next, Find(chart, p).value) + 1
  {
    var level := LevelsOf(chart);
    if next.parentId.Some? {
      var p := Find(chart, next.parentId.value).value;
      assert level[p.id] == level[next.parentId.value];
    }
  }

  ghost function MovedLevels(chart: Chart, current: Account, next: Account): (moved: map<AccountId, nat>)
    requires ValidChart(chart) && current in chart && Movable(chart, current, next)
    ensures forall a :: a in chart ==> a.id in moved && moved[a.id] == MovedLevel(chart, current, next, a)
  {
    var moved := map id | id in Ids(chart) :: MovedLevel(chart, current, next, Find(chart, id).value);
    assert forall a :: a in chart ==> a.id in moved && Find(chart, a.id) == Some(a) by {
      forall a | a in chart ensures a.id in moved && Find(chart, a.id) == Some(a) {
        FindOwn(chart, a);
      }
    }
    moved
  }

  /** Everything under the moved account moves with it, so the new chart is a forest too. */
  lemma MovedLevelsFit(chart: Chart, current: Account, next: Account)
    requires ValidChart(chart) && current in chart && Movable(chart, current, next)
    ensures Levels(Replaced(chart, next), MovedLevels(chart, current, next))
  {
    var chart', moved := Replaced(chart, next), MovedLevels(chart, current, next);
    ReplacedLookups(chart, current, next);
    MovedLevelOfMoved(chart, current, next);
    assert moved[current.id] == MovedLevel(chart, current, next, current);
    forall a | a in chart'
      ensures a.id in moved && match a.parentId
              case None => moved[a.id] == 1
              case Some(p) => Find(chart', p).Some? && p in moved && moved[a.id] == moved[p] + 1
    {
      if a != next {
        FindOwn(chart, a);
        FindOwn(chart, current);
        MovedLevelSteps(chart, current, next, a);
      }
    }
  }

  lemma MovedParentFits(chart: Chart, current: Account, next: Account, a: Account)
    requires ValidChart(chart) && current in chart && Movable(chart, current, next)
    requires a == next || (a in chart && a != current)
    ensures SubtypeFits(a) && ParentFits(Replaced(chart, next), a)
  {
    ReplacedLookups(chart, current, next);
    if a != next && a.parentId == Some(current.id) {
      assert a in Children(chart, current.id);
      FindOwn(chart, current);
    }
  }

  lemma MovingKeepsChart(chart: Chart, current: Account, next: Account)
    requires ValidChart(chart) && current in chart && Movable(chart, current, next)
    ensures ValidChart(Replaced(chart, next))
  {
    ReplacedLookups(chart, current, next);
    MovedLevelsFit(chart, current, next);
    forall a | a in Replaced(chart, next) ensures SubtypeFits(a) && ParentFits(Replaced(chart, next), a) {
      MovedParentFits(chart, current, next, a);
    }
  }

  lemma AdmissibleKeepsDepth(chart: Chart, current: Account, next: Account)
    requires WithinDepth(chart) && current in chart && Admissible(chart, current, next)
    ensures WithinDepth(Replaced(chart, next))
  {
    MovingKeepsChart(chart, current, next);
    ReplacedLookups(chart, current, next);
    MovedLevelsFit(chart, current, next);
    var chart', moved := Replaced(chart, next), MovedLevels(chart, current, next);
    forall a | a in chart' ensures Depth(chart', a) <= MAX_CHART_DEPTH {
      DepthIsLevel(chart', a, moved);
      MovedStaysWithin(chart, current, next, if a == next then current else a);
    }
  }

  lemma MovedStaysWithin(chart: Chart, current: Account, next: Account, a: Account)
    requires WithinDepth(chart) && current in chart && a in chart && Admissible(chart, current, next)
    ensures MovedLevel(chart, current, next, a) <= MAX_CHART_DEPTH
  {
    var level := LevelsOf(chart);
    DepthIsLevel(chart, a, level);
    if next.parentId != current.parentId && UnderOrIs(chart, a, current.id) {
      HeightBounds(chart, current, a, level);
      if next.parentId.Some? {
        DepthIsLevel(chart, Find(chart, next.parentId.value).value, level);
      }
    }
  }

  // --- accepted edits are admissible --------------------------------------------------------------

  /** An accepted parent link is the old one, or leads to a checked parent. */
  lemma NewParentFits(chart: Chart, current: Account, asked: Account, changes: Changes)
    requires ValidChart(chart) && current in chart && asked.parentId == current.parentId
    requires NewParent(chart, current, asked, changes).Ok?
    ensures var link := NewParent(chart, current, asked, changes).value;
            link.Some? ==>
              var p := Find(chart, link.value);
              && p.Some? && p.value.accountType == asked.accountType
              && (link == current.parentId ||
                    (!UnderOrIs(chart, p.value, current.id)
                     && Depth(chart, p.value) + 1 + Height(chart, current) <= MAX_CHART_DEPTH))
  {
    var finalCode := AskedParent(changes).GetOr(ParentCodeIn(chart, current));
    var link := NewParent(chart, current, asked, changes).value;
    if finalCode.Some? {
      if ParentChanged(chart, current, changes) || asked.accountType != current.accountType
         || (asked.active && !current.active) {
        CheckedParentFits(chart, finalCode.value, asked.accountType, current);
      } else {
        assert link == current.parentId && ParentFits(chart, current);
      }
    }
  }

  lemma CheckedParentFits(chart: Chart, code: string, accountType: AccountType, current: Account)
    requires ValidChart(chart) && current in chart
    ensures var r := CheckParent(chart, code, accountType, Some(current), Height(chart, current));
            r.Ok? ==>
              && Find(chart, r.value.id) == Some(r.value) && r.value.accountType == accountType
              && !UnderOrIs(chart, r.value, current.id)
              && Depth(chart, r.value) + 1 + Height(chart, current) <= MAX_CHART_DEPTH
  {
    if FindCode(chart, code).Some? {
      FindOwn(chart, FindCode(chart, code).value);
    }
  }

  /** Everything an accepted edit has passed before the kernel's own validation. */
  lemma AcceptedIsAdmissible(chart: Chart, current: Account, asked: Account, changes: Changes, facts: Facts)
    requires ValidChart(chart) && current in chart && Asked(current, changes) == Ok(asked)
    requires BooksAllow(chart, current, asked, facts).Pass? && NewParent(chart, current, asked, changes).Ok?
    requires asked.code != current.code ==> FindCode(chart, asked.code).None?
    ensures Admissible(chart, current, asked.(parentId := NewParent(chart, current, asked, changes).value))
  {
    NewParentFits(chart, current, asked, changes);
    assert SubtypeFits(asked);
  }

  /** The account a request asks for, once every rule of the editor has passed. */
  function Passed(chart: Chart, current: Account, changes: Changes, facts: Facts): Option<Account>
    requires ValidChart(chart) && current in chart
  {
    match Asked(current, changes)
    case Err(_) => None
    case Ok(asked) =>
      if BooksAllow(chart, current, asked, facts).Pass? && NewParent(chart, current, asked, changes).Ok?
         && (asked.code != current.code ==> FindCode(chart, asked.code).None?)
      then Some(asked.(parentId := NewParent(chart, current, asked, changes).value))
      else None
  }

  /**
   * The kernel's re-validation never refuses an edit: whenever the editor's own rules pass, the
   * edited chart is a valid forest, still within the depth limit if it was before.
   */
  lemma EditsKeepTheForest(chart: Chart, current: Account, changes: Changes, facts: Facts)
    requires ValidChart(chart) && current in chart
    ensures var r := PlanAccountEdit(chart, current, changes, facts);
            && (r.Err? ==> !r.error.KernelRejects?)
            && (r.Ok? && r.value != current ==>
                  && r.value.id == current.id && ValidChart(Replaced(chart, r.value))
                  && (WithinDepth(chart) ==> WithinDepth(Replaced(chart, r.value))))
  {
    var next := Passed(chart, current, changes, facts);
    if next.Some? {
      AcceptedIsAdmissible(chart, current, Asked(current, changes).value, changes, facts);
      MovingKeepsChart(chart, current, next.value);
      RevalidationNeverThrows(Replaced(chart, next.value));
      if WithinDepth(chart) {
        AdmissibleKeepsDepth(chart, current, next.value);
      }
    }
  }

  // --- new accounts ------------------------------------------------------------------------------

  datatype NewAccount = NewAccount(
    code: string, name: string, accountType: Option<AccountType>,
    subtype: Option<AccountSubtype>, parentCode: Option<string>, currency: string)

  /** The new account, once every rule of the editor has passed. */
  function Drafted(chart: Chart, req: NewAccount): Result<Account, Refusal>
    requires ValidChart(chart)
  {
    var number :- Clean(Some(req.code), "", NeedsNumber);
    var title :- Clean(Some(req.name), "", NeedsName);
    :- Need(FindCode(chart, number).None?, CodeTaken);
    var resolved :- ResolveType(None, Changes(None, None, req.accountType, Some(req.subtype), None, None));
    var account := Account("acct:" + number, number, title, resolved.0, req.currency, None, resolved.1, true, RGNR8);
    if req.parentCode.GetOr("") == "" then Ok(account)
    else
      var parent :- CheckParent(chart, req.parentCode.value, resolved.0, None, 0);
      Ok(account.(parentId := Some(parent.id)))
  }

  function PlanNewAccount(chart: Chart, req: NewAccount): Result<Account, Refusal>
    requires ValidChart(chart)
  {
    var account :- Drafted(chart, req);
    Validated(chart + [account], account)
  }

  lemma DraftedFits(chart: Chart, req: NewAccount)
    requires ValidChart(chart) && Drafted(chart, req).Ok?
    ensures var a := Drafted(chart, req).value;
            && a.id == "acct:" + a.code && a.active && FindCode(chart, a.code).None?
            && SubtypeFits(a) && ParentFits(chart, a)
            && (a.parentId.Some? ==> Depth(chart, Find(chart, a.parentId.value).value) + 1 <= MAX_CHART_DEPTH)
  {
    if req.parentCode.GetOr("") != "" {
      NewParentIsFound(chart, req.parentCode.value, Drafted(chart, req).value.accountType);
    }
  }

  lemma NewParentIsFound(chart: Chart, code: string, accountType: AccountType)
    requires ValidChart(chart)
    ensures var r := CheckParent(chart, code, accountType, None, 0);
            r.Ok? ==> Find(chart, r.value.id) == Some(r.value) && r.value.accountType == accountType
                      && Depth(chart, r.value) + 1 <= MAX_CHART_DEPTH
  {
    if FindCode(chart, code).Some? {
      FindOwn(chart, FindCode(chart, code).value);
    }
  }
}
