/** Exactly when an account may be created or changed, and what it then is (ledger-service chartEdit.ts). */
module ChartEditEffects {
  import opened Text
  import opened Ledger
  import opened Chart
  import opened ChartEdit

  // --- what is asked for --------------------------------------------------------------------------

  /** A text that is given must hold something but white space. */
  predicate Given(asked: Option<string>) {
    asked.Some? ==> Trim(asked.value) != ""
  }

  function TextOr(asked: Option<string>, current: string): string {
    if asked.Some? then Trim(asked.value) else current
  }

  /** The detail type after a change: the one asked for, else the one there was. */
  function SubtypeAfter(current: Option<AccountSubtype>, changes: Changes): Option<AccountSubtype> {
    if changes.subtype.Some? then changes.subtype.value else current
  }

  /** The type after a change: the one asked for, else the detail type's, else the one there was. */
  function TypeAfter(current: Account, changes: Changes): AccountType {
    var subtype := SubtypeAfter(current.subtype, changes);
    if changes.accountType.Some? then changes.accountType.value
    else if subtype.Some? then TypeOfSubtype(subtype.value)
    else current.accountType
  }

  /** A request is well formed when its texts hold something and its detail type belongs to its type. */
  predicate WellAsked(current: Account, changes: Changes) {
    var subtype := SubtypeAfter(current.subtype, changes);
    && Given(changes.name) && Given(changes.number)
    && (subtype.Some? ==> TypeOfSubtype(subtype.value) == TypeAfter(current, changes))
  }

  /** What the account would become, but for its parent. */
  function Wanted(current: Account, changes: Changes): Account {
    Account(current.id, TextOr(changes.number, current.code), TextOr(changes.name, current.name), TypeAfter(current, changes),
            current.currency, current.parentId, SubtypeAfter(current.subtype, changes),
            if changes.active.Some? then changes.active.value else current.active, current.origin)
  }

  lemma AskedIff(current: Account, changes: Changes)
    ensures Asked(current, changes).Ok? <==> WellAsked(current, changes)
    ensures WellAsked(current, changes) ==> Asked(current, changes) == Ok(Wanted(current, changes))
  {
  }

  // --- what the books forbid ----------------------------------------------------------------------

  /** The five accounts the software posts to by itself, and the opening balance account. */
  lemma SystemAccounts(a: Account)
    ensures IsSystemAccount(a) <==>
            || a.subtype == Some(ACCOUNTS_RECEIVABLE) || a.subtype == Some(ACCOUNTS_PAYABLE)
            || a.subtype == Some(UNDEPOSITED_FUNDS) || a.subtype == Some(SALES_TAX_PAYABLE)
            || a.subtype == Some(RETAINED_EARNINGS)
            || (a.subtype == Some(BOOK_EQUITY) && (a.code == "3010" || a.name == "Opening Balance Equity"))
  {
  }

  predicate BooksLetIt(chart: Chart, current: Account, next: Account, facts: Facts) {
    && !(current.origin == QUICKBOOKS && facts.quickBooksOfRecord)
    && (IsSystemAccount(current) ==>
          next.accountType == current.accountType && next.subtype == current.subtype && next.code == current.code
          && (current.active ==> next.active))
    && (next.accountType != current.accountType ==>
          !facts.hasPostings && forall a :: a in chart ==> a.parentId != Some(current.id))
    && (current.active && !next.active ==> facts.balanceMinor == 0)
    && (!current.active && next.active && current.parentId.Some? && Find(chart, current.parentId.value).Some? ==>
          Find(chart, current.parentId.value).value.active)
  }

  lemma BooksAllowIff(chart: Chart, current: Account, next: Account, facts: Facts)
    ensures BooksAllow(chart, current, next, facts).Pass? <==> BooksLetIt(chart, current, next, facts)
  {
    var kids := Children(chart, current.id);
    if kids != [] {
      assert kids[0] in kids;
    }
  }

  // --- parents --------------------------------------------------------------------------------------

  /** A parent is taken when it exists, is active, has the type, is not below the account, and leaves room. */
  predicate MayHaveParent(chart: Chart, parentCode: string, accountType: AccountType, current: Option<Account>, height: nat)
    requires ValidChart(chart)
  {
    var p := FindCode(chart, parentCode);
    && p.Some? && p.value.active && p.value.accountType == accountType
    && (current.Some? ==> !UnderOrIs(chart, p.value, current.value.id))
    && Depth(chart, p.value) + 1 + height <= 5
  }

  lemma CheckParentIff(chart: Chart, parentCode: string, accountType: AccountType, current: Option<Account>, height: nat)
    requires ValidChart(chart)
    ensures var r := CheckParent(chart, parentCode, accountType, current, height);
            && (r.Ok? <==> MayHaveParent(chart, parentCode, accountType, current, height))
            && (r.Ok? ==> Some(r.value) == FindCode(chart, parentCode))
  {
  }

  /** The code of the parent the account is to have: none when cleared, the present one when not mentioned. */
  function ParentCodeAfter(chart: Chart, current: Account, changes: Changes): Option<string> {
    match changes.parentCode
    case None => (if current.parentId.Some? && Find(chart, current.parentId.value).Some?
                  then Some(Find(chart, current.parentId.value).value.code) else None)
    case Some(None) => None
    case Some(Some(code)) => if code == "" then None else Some(code)
  }

  /** The parent is looked at again when it, the type or the activity changes. */
  predicate Rechecked(chart: Chart, current: Account, changes: Changes) {
    var present := if current.parentId.Some? && Find(chart, current.parentId.value).Some?
                   then Some(Find(chart, current.parentId.value).value.code) else None;
    || (changes.parentCode.Some? && ParentCodeAfter(chart, current, changes) != present)
    || TypeAfter(current, changes) != current.accountType
    || (!current.active && changes.active == Some(true))
  }

  predicate ParentLetsIt(chart: Chart, current: Account, changes: Changes)
    requires ValidChart(chart) && current in chart
  {
    var code := ParentCodeAfter(chart, current, changes);
    code.Some? && Rechecked(chart, current, changes) ==>
      MayHaveParent(chart, code.value, TypeAfter(current, changes), Some(current), Height(chart, current))
  }

  function ParentAfter(chart: Chart, current: Account, changes: Changes): Option<AccountId> {
    var code := ParentCodeAfter(chart, current, changes);
    if code.None? then None
    else if Rechecked(chart, current, changes) && FindCode(chart, code.value).Some? then Some(FindCode(chart, code.value).value.id)
    else current.parentId
  }

  lemma NewParentIff(chart: Chart, current: Account, changes: Changes)
    requires ValidChart(chart) && current in chart && WellAsked(current, changes)
    ensures var r := NewParent(chart, current, Wanted(current, changes), changes);
            && (r.Ok? <==> ParentLetsIt(chart, current, changes))
            && (r.Ok? ==> r.value == ParentAfter(chart, current, changes))
  {
    var code := ParentCodeAfter(chart, current, changes);
    assert code == AskedParent(changes).GetOr(ParentCodeIn(chart, current));
    if code.Some? {
      CheckParentIff(chart, code.value, TypeAfter(current, changes), Some(current), Height(chart, current));
    }
  }

  // --- edits ------------------------------------------------------------------------------------------

  /** The request would leave the account as it is. */
  predicate NothingAsked(chart: Chart, current: Account, changes: Changes) {
    && Wanted(current, changes) == current
    && (changes.parentCode.Some? ==> ParentCodeAfter(chart, current, changes) == ParentCodeIn(chart, current))
  }

  /** Every condition of an edit. */
  predicate MayEdit(chart: Chart, current: Account, changes: Changes, facts: Facts)
    requires ValidChart(chart) && current in chart
  {
    var next := Wanted(current, changes);
    && WellAsked(current, changes)
    && (NothingAsked(chart, current, changes)
        || (&& BooksLetIt(chart, current, next, facts) && ParentLetsIt(chart, current, changes)
            && (next.code != current.code ==> FindCode(chart, next.code).None?)))
  }

  lemma NothingAskedIff(chart: Chart, current: Account, changes: Changes)
    requires WellAsked(current, changes)
    ensures NothingAsked(chart, current, changes) <==>
            Asked(current, changes) == Ok(current) && !ParentChanged(chart, current, changes)
  {
    AskedIff(current, changes);
  }

  /** An edit is accepted exactly when it may be made, and gives the account just what was asked for. */
  lemma EditAcceptedIff(chart: Chart, current: Account, changes: Changes, facts: Facts)
    requires ValidChart(chart) && current in chart
    ensures var r := PlanAccountEdit(chart, current, changes, facts);
            && (r.Ok? <==> MayEdit(chart, current, changes, facts))
            && (r.Ok? && NothingAsked(chart, current, changes) ==> r.value == current)
            && (r.Ok? && !NothingAsked(chart, current, changes) ==>
                  r.value == Wanted(current, changes).(parentId := ParentAfter(chart, current, changes)))
  {
    AskedIff(current, changes);
    if WellAsked(current, changes) {
      BooksAllowIff(chart, current, Wanted(current, changes), facts);
      NewParentIff(chart, current, changes);
      NothingAskedIff(chart, current, changes);
      EditsKeepTheForest(chart, current, changes, facts);
    }
  }

  // --- new accounts -------------------------------------------------------------------------------------

  predicate MayDraft(chart: Chart, req: NewAccount)
    requires ValidChart(chart)
  {
    && Trim(req.code) != "" && Trim(req.name) != "" && FindCode(chart, Trim(req.code)).None?
    && (req.accountType.Some? || req.subtype.Some?)
    && (req.accountType.Some? && req.subtype.Some? ==> TypeOfSubtype(req.subtype.value) == req.accountType.value)
    && (req.parentCode.GetOr("") != "" ==> MayHaveParent(chart, req.parentCode.value, NewType(req), None, 0))
  }

  function NewType(req: NewAccount): AccountType
    requires req.accountType.Some? || req.subtype.Some?
  {
    if req.accountType.Some? then req.accountType.value else TypeOfSubtype(req.subtype.value)
  }

  /** A new account is drafted exactly when it may be, active, ours, and as asked for. */
  lemma DraftedIff(chart: Chart, req: NewAccount)
    requires ValidChart(chart)
    ensures var r := Drafted(chart, req);
            && (r.Ok? <==> MayDraft(chart, req))
            && (r.Ok? ==>
                  r.value == Account("acct:" + Trim(req.code), Trim(req.code), Trim(req.name), NewType(req), req.currency,
                                     if req.parentCode.GetOr("") != "" then Some(FindCode(chart, req.parentCode.value).value.id) else None,
                                     req.subtype, true, RGNR8))
  {
    if (req.accountType.Some? || req.subtype.Some?) && req.parentCode.GetOr("") != "" {
      CheckParentIff(chart, req.parentCode.value, NewType(req), None, 0);
    }
  }
}
