/** The chart of accounts: insertion checks, the parent hierarchy, and `parentsFirst` (chartOfAccounts.ts). */
module Chart {
  import opened Text
  import opened Ledger

  /** The accounts in insertion order. */
  type Chart = seq<Account>

  function Find(chart: Chart, id: AccountId): (r: Option<Account>)
    ensures r.Some? ==> r.value in chart && r.value.id == id
    ensures r.None? ==> forall a :: a in chart ==> a.id != id
  {
    if chart == [] then None
    else if chart[0].id == id then Some(chart[0])
    else Find(chart[1..], id)
  }

  function FindCode(chart: Chart, code: string): (r: Option<Account>)
    ensures r.Some? ==> r.value in chart && r.value.code == code
    ensures r.None? ==> forall a :: a in chart ==> a.code != code
  {
    if chart == [] then None
    else if chart[0].code == code then Some(chart[0])
    else FindCode(chart[1..], code)
  }

  ghost predicate UniqueIds(chart: Chart) {
    forall i, j :: 0 <= i < j < |chart| ==> chart[i].id != chart[j].id
  }

  ghost predicate UniqueCodes(chart: Chart) {
    forall i, j :: 0 <= i < j < |chart| ==> chart[i].code != chart[j].code
  }

  lemma FindOwn(chart: Chart, a: Account)
    requires UniqueIds(chart) && a in chart
    ensures Find(chart, a.id) == Some(a)
  {
    var i :| 0 <= i < |chart| && chart[i] == a;
    var b := Find(chart, a.id).value;
    var j :| 0 <= j < |chart| && chart[j] == b;
  }

  /** A map built from the list: the last account with an id wins. */
  function FindLast(accounts: seq<Account>, id: AccountId): (r: Option<Account>)
    ensures r.Some? ==> r.value in accounts && r.value.id == id
    ensures r.None? ==> forall a :: a in accounts ==> a.id != id
  {
    if accounts == [] then None
    else if accounts[|accounts| - 1].id == id then Some(accounts[|accounts| - 1])
    else FindLast(accounts[..|accounts| - 1], id)
  }

  lemma LastIsOnly(chart: Chart, id: AccountId)
    requires UniqueIds(chart)
    ensures FindLast(chart, id) == Find(chart, id)
  {
    if FindLast(chart, id).Some? {
      FindOwn(chart, FindLast(chart, id).value);
    }
  }

  // --- inserting -------------------------------------------------------------------------------

  datatype ChartError =
    DuplicateId | DuplicateCode | SubtypeOutsideType | UnknownParent | ParentTypeDiffers

  predicate SubtypeFits(a: Account) {
    a.subtype.Some? ==> TypeOfSubtype(a.subtype.value) == a.accountType
  }

  predicate ParentFits(chart: Chart, a: Account) {
    a.parentId.Some? ==>
      Find(chart, a.parentId.value).Some? && Find(chart, a.parentId.value).value.accountType == a.accountType
  }

  function Inserted(chart: Chart, a: Account): Result<Chart, ChartError> {
    var sameId := Find(chart, a.id);
    :- Need(sameId.None?, DuplicateId);
    :- Need(FindCode(chart, a.code).None?, DuplicateCode);
    :- Need(SubtypeFits(a), SubtypeOutsideType);
    :- Need(a.parentId.Some? ==> Find(chart, a.parentId.value).Some?, UnknownParent);
    :- Need(ParentFits(chart, a), ParentTypeDiffers);
    Ok(chart + [a])
  }

  /** `new ChartOfAccounts(accounts)`: the accounts inserted one at a time. */
  function Built(accounts: seq<Account>): Result<Chart, ChartError> {
    if accounts == [] then Ok([])
    else
      var front :- Built(accounts[..|accounts| - 1]);
      Inserted(front, accounts[|accounts| - 1])
  }

  /** The two lookup maps hold exactly the accounts listed in `order`. */
  ghost predicate MapsAgree(order: seq<AccountId>, byId: map<AccountId, Account>, byCode: map<string, Account>) {
    && (forall i :: 0 <= i < |order| ==> order[i] in byId)
    && (forall i, j :: 0 <= i < j < |order| ==> order[i] != order[j])
    && (forall id :: id in byId ==> id in order && byId[id].id == id)
    && (forall id :: id in byId ==> byId[id].code in byCode && byCode[byId[id].code] == byId[id])
    && (forall code :: code in byCode ==>
          byCode[code].code == code && byCode[code].id in byId && byId[byCode[code].id] == byCode[code])
  }

  function Listed(order: seq<AccountId>, byId: map<AccountId, Account>): Chart
    requires forall i :: 0 <= i < |order| ==> order[i] in byId
  {
    seq(|order|, i requires 0 <= i < |order| => byId[order[i]])
  }

  lemma LookupsMatchList(order: seq<AccountId>, byId: map<AccountId, Account>, byCode: map<string, Account>,
                         id: AccountId, code: string)
    requires MapsAgree(order, byId, byCode)
    ensures Find(Listed(order, byId), id) == if id in byId then Some(byId[id]) else None
    ensures code in byCode <==> FindCode(Listed(order, byId), code).Some?
  {
    var chart := Listed(order, byId);
    if id in byId {
      var i :| 0 <= i < |order| && order[i] == id;
      assert chart[i] == byId[id];
    }
    if code in byCode {
      var i :| 0 <= i < |order| && order[i] == byCode[code].id;
      assert chart[i] == byCode[code];
    }
  }

  lemma AddKeepsMaps(order: seq<AccountId>, byId: map<AccountId, Account>, byCode: map<string, Account>, a: Account)
    requires MapsAgree(order, byId, byCode) && a.id !in byId && a.code !in byCode
    ensures MapsAgree(order + [a.id], byId[a.id := a], byCode[a.code := a])
    ensures Listed(order + [a.id], byId[a.id := a]) == Listed(order, byId) + [a]
  {
    assert (order + [a.id])[|order|] == a.id;
    assert forall id :: id in order ==> id in order + [a.id];
  }

  class ChartOfAccounts {
    var order: seq<AccountId>
    var byId: map<AccountId, Account>
    var byCode: map<string, Account>

    ghost predicate Valid()
      reads this
    {
      MapsAgree(order, byId, byCode)
    }

    function List(): Chart
      requires Valid()
      reads this
    {
      Listed(order, byId)
    }

    constructor ()
      ensures Valid() && List() == []
    {
      order, byId, byCode := [], map[], map[];
    }

    method Add(account: Account) returns (r: Outcome<ChartError>)
      requires Valid()
      modifies this
      ensures Valid()
      ensures r.Pass? ==> Inserted(old(List()), account) == Ok(List())
      ensures r.Fail? ==> Inserted(old(List()), account) == Err(r.error) && List() == old(List())
    {
      LookupsMatchList(order, byId, byCode, account.id, account.code);
      LookupsMatchList(order, byId, byCode, account.parentId.GetOr(""), "");
      if account.id in byId {
        return Fail(DuplicateId);
      }
      if account.code in byCode {
        return Fail(DuplicateCode);
      }
      if account.subtype.Some? && TypeOfSubtype(account.subtype.value) != account.accountType {
        return Fail(SubtypeOutsideType);
      }
      if account.parentId.Some? {
        if account.parentId.value !in byId {
          return Fail(UnknownParent);
        }
        if byId[account.parentId.value].accountType != account.accountType {
          return Fail(ParentTypeDiffers);
        }
      }
      AddKeepsMaps(order, byId, byCode, account);
      order := order + [account.id];
      byId := byId[account.id := account];
      byCode := byCode[account.code := account];
      return Pass;
    }
  }

  // --- hierarchy ---------------------------------------------------------------------------------

  /** Levels from the top of the chart; its existence is what makes the chart a forest. */
  ghost predicate Levels(chart: Chart, level: map<AccountId, nat>) {
    forall a :: a in chart ==>
      && a.id in level
      && match a.parentId
         case None => level[a.id] == 1
         case Some(p) => Find(chart, p).Some? && p in level && level[a.id] == level[p] + 1
  }

  /** Unique ids and codes, subtype within type, parents present with the same type, and no cycle. */
  ghost predicate ValidChart(chart: Chart) {
    && UniqueIds(chart) && UniqueCodes(chart)
    && (forall a :: a in chart ==> SubtypeFits(a) && ParentFits(chart, a))
    && exists level :: Levels(chart, level)
  }

  ghost function LevelsOf(chart: Chart): (level: map<AccountId, nat>)
    requires ValidChart(chart)
    ensures Levels(chart, level)
  {
    var level :| Levels(chart, level);
    level
  }

  function ParentOf(chart: Chart, a: Account): (p: Option<Account>)
    ensures p.Some? ==> p.value in chart
  {
    if a.parentId.None? then None else Find(chart, a.parentId.value)
  }

  /** Levels from the top down to and including the account. */
  function Depth(chart: Chart, a: Account): nat
    requires ValidChart(chart) && a in chart
    decreases LevelsOf(chart)[a.id]
  {
    match ParentOf(chart, a)
    case None => 1
    case Some(p) => 1 + Depth(chart, p)
  }

  lemma {:induction false} DepthIsLevel(chart: Chart, a: Account, level: map<AccountId, nat>)
    requires ValidChart(chart) && a in chart && Levels(chart, level)
    ensures Depth(chart, a) == level[a.id]
    decreases LevelsOf(chart)[a.id]
  {
    if ParentOf(chart, a).Some? {
      DepthIsLevel(chart, ParentOf(chart, a).value, level);
    }
  }

  /** Walking up from `a` meets the account with this id. */
  predicate UnderOrIs(chart: Chart, a: Account, id: AccountId)
    requires ValidChart(chart) && a in chart
    decreases LevelsOf(chart)[a.id]
  {
    a.id == id || (ParentOf(chart, a).Some? && UnderOrIs(chart, ParentOf(chart, a).value, id))
  }

  /** `depthOf`: walk the parent links up, stopping at a repeat. */
  method DepthOf(chart: Chart, a: Account) returns (depth: nat)
    requires ValidChart(chart) && a in chart
    ensures depth == Depth(chart, a)
  {
    ghost var level := LevelsOf(chart);
    depth := 1;
    var cursor := a;
    var seen := {a.id};
    while cursor.parentId.Some?
      invariant cursor in chart
      invariant depth + Depth(chart, cursor) == 1 + Depth(chart, a)
      invariant forall id :: id in seen ==> id in level && level[id] >= level[cursor.id]
      decreases level[cursor.id]
    {
      var parent := Find(chart, cursor.parentId.value);
      if parent.None? || parent.value.id in seen {
        break;
      }
      seen := seen + {parent.value.id};
      depth := depth + 1;
      cursor := parent.value;
    }
  }

  /** The cycle check of `checkParent`: walk up from the proposed parent looking for the account. */
  method WalkMeets(chart: Chart, start: Account, id: AccountId) returns (met: bool)
    requires ValidChart(chart) && start in chart
    ensures met == UnderOrIs(chart, start, id)
  {
    ghost var level := LevelsOf(chart);
    var up := Some(start);
    var seen: set<AccountId> := {};
    while up.Some? && up.value.id !in seen
      invariant up.Some? ==> up.value in chart
      invariant UnderOrIs(chart, start, id) <==> up.Some? && UnderOrIs(chart, up.value, id)
      invariant up.Some? ==> forall x :: x in seen ==> x in level && level[x] > level[up.value.id]
      decreases if up.Some? then level[up.value.id] + 1 else 0
    {
      if up.value.id == id {
        return true;
      }
      seen := seen + {up.value.id};
      up := ParentOf(chart, up.value);
    }
    return false;
  }

  function Children(chart: Chart, id: AccountId): (kids: seq<Account>)
    ensures forall k :: k in kids <==> k in chart && k.parentId == Some(id)
    ensures |kids| <= |chart|
  {
    FilterChildren(chart, id)
  }

  function FilterChildren(accounts: seq<Account>, id: AccountId): (kids: seq<Account>)
    ensures forall k :: k in kids <==> k in accounts && k.parentId == Some(id)
    ensures |kids| <= |accounts|
  {
    if accounts == [] then []
    else (if accounts[0].parentId == Some(id) then [accounts[0]] else []) + FilterChildren(accounts[1..], id)
  }

  ghost function Deeper(chart: Chart, a: Account): set<Account>
    requires ValidChart(chart) && a in chart
  {
    set b | b in chart && LevelsOf(chart)[b.id] > LevelsOf(chart)[a.id]
  }

  /** Levels below the account: 0 for a leaf. */
  function Height(chart: Chart, a: Account): nat
    requires ValidChart(chart) && a in chart
    decreases Deeper(chart, a), |chart| + 1
  {
    var kids := Children(chart, a.id);
    if kids == [] then 0 else 1 + MaxHeight(chart, a, kids)
  }

  function MaxHeight(chart: Chart, a: Account, kids: seq<Account>): (h: nat)
    requires ValidChart(chart) && a in chart
    requires forall k :: k in kids ==> k in chart && k.parentId == Some(a.id)
    decreases Deeper(chart, a), |kids|
  {
    if kids == [] then 0
    else
      assert kids[0] in Deeper(chart, a) && kids[0] !in Deeper(chart, kids[0]);
      var first, rest := Height(chart, kids[0]), MaxHeight(chart, a, kids[1..]);
      if first > rest then first else rest
  }

  lemma {:induction false} EveryKidIsLower(chart: Chart, a: Account, kids: seq<Account>)
    requires ValidChart(chart) && a in chart
    requires forall k :: k in kids ==> k in chart && k.parentId == Some(a.id)
    ensures forall k :: k in kids ==> Height(chart, k) <= MaxHeight(chart, a, kids)
  {
    if kids != [] {
      EveryKidIsLower(chart, a, kids[1..]);
    }
  }

  /** Whatever lies under an account lies at most its height below it. */
  lemma {:induction false} HeightBounds(chart: Chart, a: Account, x: Account, level: map<AccountId, nat>)
    requires ValidChart(chart) && Levels(chart, level) && a in chart && x in chart && UnderOrIs(chart, x, a.id)
    ensures level[a.id] <= level[x.id]
    ensures level[x.id] + Height(chart, x) <= level[a.id] + Height(chart, a)
    decreases LevelsOf(chart)[x.id]
  {
    if x.id == a.id {
      FindOwn(chart, a);
      FindOwn(chart, x);
    } else {
      var p := ParentOf(chart, x).value;
      HeightBounds(chart, a, p, level);
      assert x in Children(chart, p.id);
      EveryKidIsLower(chart, p, Children(chart, p.id));
    }
  }

  // --- parents first -------------------------------------------------------------------------------

  ghost function Ids(accounts: seq<Account>): set<AccountId> {
    set a | a in accounts :: a.id
  }

  function LinkOf(accounts: seq<Account>, a: Account): (p: Option<Account>)
    ensures p.Some? ==> p.value in accounts
  {
    if a.parentId.None? then None else FindLast(accounts, a.parentId.value)
  }

  /** `place`: put an account after its ancestors, unless it is placed or being placed. */
  method Place(accounts: seq<Account>, a: Account, trail: set<AccountId>, placed: set<AccountId>, out: seq<Account>)
    returns (placed': set<AccountId>, out': seq<Account>)
    requires a in accounts && placed == Ids(out)
    ensures placed' == Ids(out') && out' == Placed(accounts, a, trail, out)
    decreases Ids(accounts) - trail
  {
    if a.id in placed || a.id in trail {
      return placed, out;
    }
    placed', out' := placed, out;
    var parent := LinkOf(accounts, a);
    if parent.Some? {
      assert a.id in Ids(accounts) - trail;
      placed', out' := Place(accounts, parent.value, trail + {a.id}, placed', out');
    }
    placed', out' := placed' + {a.id}, out' + [a];
  }

  function Placed(accounts: seq<Account>, a: Account, trail: set<AccountId>, out: seq<Account>): seq<Account>
    requires a in accounts
    decreases Ids(accounts) - trail
  {
    if Find(out, a.id).Some? || a.id in trail then out
    else
      var parent := LinkOf(accounts, a);
      assert a.id in Ids(accounts) - trail;
      (if parent.Some? then Placed(accounts, parent.value, trail + {a.id}, out) else out) + [a]
  }

  /** The accounts ordered so that every parent comes before its children. */
  method ParentsFirst(accounts: seq<Account>) returns (out: seq<Account>)
    ensures out == Ordered(accounts, |accounts|)
  {
    out := [];
    var placed: set<AccountId> := {};
    for i := 0 to |accounts|
      invariant placed == Ids(out) && out == Ordered(accounts, i)
    {
      placed, out := Place(accounts, accounts[i], {}, placed, out);
    }
  }

  function Ordered(accounts: seq<Account>, n: nat): seq<Account>
    requires n <= |accounts|
  {
    if n == 0 then [] else Placed(accounts, accounts[n - 1], {}, Ordered(accounts, n - 1))
  }

  /** Distinct accounts of the chart, each after its parent. */
  ghost predicate Arranged(chart: Chart, out: seq<Account>) {
    && UniqueIds(out)
    && (forall a :: a in out ==> a in chart)
    && forall i :: 0 <= i < |out| && out[i].parentId.Some? ==> Find(out[..i], out[i].parentId.value).Some?
  }

  lemma {:induction false} PlaceArranges(chart: Chart, a: Account, trail: set<AccountId>, out: seq<Account>)
    requires ValidChart(chart) && a in chart && Arranged(chart, out)
    requires forall id :: id in trail ==> id in LevelsOf(chart) && LevelsOf(chart)[id] > LevelsOf(chart)[a.id]
    ensures Arranged(chart, Placed(chart, a, trail, out))
    ensures out <= Placed(chart, a, trail, out)
    ensures a in Placed(chart, a, trail, out)
    decreases Ids(chart) - trail
  {
    if Find(out, a.id).Some? {
      FindOwn(chart, a);
      FindOwn(chart, Find(out, a.id).value);
    } else {
      assert a.id in Ids(chart) - trail;
      LastIsOnly(chart, a.parentId.GetOr(""));
      var parent := LinkOf(chart, a);
      var mid := if parent.Some? then Placed(chart, parent.value, trail + {a.id}, out) else out;
      if parent.Some? {
        PlaceArranges(chart, parent.value, trail + {a.id}, out);
        PlaceLeavesOut(chart, parent.value, trail + {a.id}, out, a);
      }
      AppendArranges(chart, mid, a);
    }
  }

  lemma AppendArranges(chart: Chart, mid: seq<Account>, a: Account)
    requires Arranged(chart, mid) && a in chart && Find(mid, a.id).None?
    requires a.parentId.Some? ==> Find(mid, a.parentId.value).Some?
    ensures Arranged(chart, mid + [a])
  {
    var out := mid + [a];
    forall i | 0 <= i < |out| && out[i].parentId.Some? ensures Find(out[..i], out[i].parentId.value).Some? {
      assert out[..i] == if i < |mid| then mid[..i] else mid;
    }
    forall i | 0 <= i < |mid| ensures mid[i].id != a.id {
      assert mid[i] in mid;
    }
  }

  /** Placing an ancestor does not place the account whose trail it is on. */
  lemma {:induction false} PlaceLeavesOut(chart: Chart, p: Account, trail: set<AccountId>, out: seq<Account>, a: Account)
    requires p in chart && a.id in trail && Find(out, a.id).None?
    ensures Find(Placed(chart, p, trail, out), a.id).None?
    decreases Ids(chart) - trail
  {
    if Find(out, p.id).None? && p.id !in trail {
      assert p.id in Ids(chart) - trail;
      var parent := LinkOf(chart, p);
      if parent.Some? {
        PlaceLeavesOut(chart, parent.value, trail + {p.id}, out, a);
      }
    }
  }

  /** On a forest, `parentsFirst` is a permutation of the accounts that lists parents first. */
  lemma {:induction false} ParentsFirstArranges(chart: Chart, n: nat)
    requires ValidChart(chart) && n <= |chart|
    ensures Arranged(chart, Ordered(chart, n))
    ensures forall i :: 0 <= i < n ==> chart[i] in Ordered(chart, n)
  {
    if n > 0 {
      ParentsFirstArranges(chart, n - 1);
      PlaceArranges(chart, chart[n - 1], {}, Ordered(chart, n - 1));
    }
  }

  lemma ParentsFirstPermutes(chart: Chart)
    requires ValidChart(chart)
    ensures Arranged(chart, Ordered(chart, |chart|))
    ensures multiset(Ordered(chart, |chart|)) == multiset(chart)
  {
    ParentsFirstArranges(chart, |chart|);
    SameMembersSameMultiset(chart, Ordered(chart, |chart|));
  }

  lemma {:induction false} DistinctCountsOnce(s: seq<Account>, a: Account)
    requires UniqueIds(s)
    ensures multiset(s)[a] == if a in s then 1 else 0
  {
    if s != [] {
      assert s == [s[0]] + s[1..];
      DistinctCountsOnce(s[1..], a);
    }
  }

  lemma SameMembersSameMultiset(s: seq<Account>, t: seq<Account>)
    requires UniqueIds(s) && UniqueIds(t) && forall a :: a in s <==> a in t
    ensures multiset(s) == multiset(t)
  {
    forall a ensures multiset(s)[a] == multiset(t)[a] {
      DistinctCountsOnce(s, a);
      DistinctCountsOnce(t, a);
    }
  }

  // --- validation accepts exactly the forests ---------------------------------------------------------

  /** Every prefix of an arranged valid chart is accepted, so building it never refuses. */
  lemma {:induction false} BuildAccepts(chart: Chart, out: seq<Account>)
    requires ValidChart(chart) && Arranged(chart, out)
    ensures Built(out) == Ok(out)
  {
    if out != [] {
      var front, last := out[..|out| - 1], out[|out| - 1];
      FrontArranged(chart, out);
      BuildAccepts(chart, front);
      LastIsAccepted(chart, out);
    }
  }

  lemma FrontArranged(chart: Chart, out: seq<Account>)
    requires Arranged(chart, out) && out != []
    ensures Arranged(chart, out[..|out| - 1])
  {
    var front := out[..|out| - 1];
    assert forall i :: 0 <= i < |front| ==> front[..i] == out[..i];
    assert forall a :: a in front ==> a in out;
  }

  lemma LastIsAccepted(chart: Chart, out: seq<Account>)
    requires ValidChart(chart) && Arranged(chart, out) && out != []
    ensures Inserted(out[..|out| - 1], out[|out| - 1]) == Ok(out)
  {
    var front, last := out[..|out| - 1], out[|out| - 1];
    assert last in chart;
    forall a | a in front ensures a.id != last.id && a.code != last.code {
      var i :| 0 <= i < |front| && front[i] == a;
      assert out[i] == a && a in chart;
      if a.code == last.code {
        CodesIdentify(chart, a, last);
      }
    }
    if last.parentId.Some? {
      assert Find(front, last.parentId.value).Some?;
      FindOwn(chart, Find(front, last.parentId.value).value);
    }
    assert front + [last] == out;
  }

  lemma CodesIdentify(chart: Chart, a: Account, b: Account)
    requires UniqueCodes(chart) && a in chart && b in chart && a.code == b.code
    ensures a == b
  {
    var i :| 0 <= i < |chart| && chart[i] == a;
    var j :| 0 <= j < |chart| && chart[j] == b;
  }

  /** Re-validating a valid chart, in whatever order its rows come back, accepts every account. */
  lemma RevalidationNeverThrows(chart: Chart)
    requires ValidChart(chart)
    ensures Built(Ordered(chart, |chart|)) == Ok(Ordered(chart, |chart|))
  {
    ParentsFirstArranges(chart, |chart|);
    BuildAccepts(chart, Ordered(chart, |chart|));
  }

  /** Whatever the constructor accepts is a forest with unique ids and codes, listed parents first. */
  lemma {:induction false} BuiltIsValid(accounts: seq<Account>)
    requires Built(accounts).Ok?
    ensures Built(accounts).value == accounts && ValidChart(accounts) && Arranged(accounts, accounts)
  {
    if accounts == [] {
      EmptyIsValid();
    } else {
      var front, a := accounts[..|accounts| - 1], accounts[|accounts| - 1];
      BuiltIsValid(front);
      InsertedIsValid(front, a, accounts);
      assert front + [a] == accounts;
      AppendArranges(accounts, front, a);
    }
  }

  lemma InsertedIsValid(front: Chart, a: Account, accounts: seq<Account>)
    requires ValidChart(front) && Inserted(front, a).Ok? && accounts != []
    requires front == accounts[..|accounts| - 1] && a == accounts[|accounts| - 1]
    ensures Inserted(front, a).value == accounts && ValidChart(accounts)
  {
    GrownByLeaf(front, a);
    assert accounts == front + [a];
  }

  // --- loading saved rows -----------------------------------------------------------------------------

  /** The rows saved for a tenant, in whatever order they come back, as the next request lists them. */
  function Loaded(rows: seq<Account>): seq<Account> {
    Ordered(rows, |rows|)
  }

  lemma {:induction false} PlacedHolds(rows: seq<Account>, a: Account, trail: set<AccountId>, out: seq<Account>)
    requires a in rows && forall x :: x in out ==> x in rows
    ensures out <= Placed(rows, a, trail, out) && forall x :: x in Placed(rows, a, trail, out) ==> x in rows
    ensures Find(Placed(rows, a, trail, out), a.id).Some? || a.id in trail
    decreases Ids(rows) - trail
  {
    if Find(out, a.id).None? && a.id !in trail && LinkOf(rows, a).Some? {
      assert a.id in Ids(rows) - trail;
      PlacedHolds(rows, LinkOf(rows, a).value, trail + {a.id}, out);
    }
  }

  /** Ordering loses no account and invents none, cycles and unknown parents included. */
  lemma {:induction false} OrderedHolds(rows: seq<Account>, n: nat)
    requires UniqueIds(rows) && n <= |rows|
    ensures forall x :: x in Ordered(rows, n) ==> x in rows
    ensures forall i :: 0 <= i < n ==> rows[i] in Ordered(rows, n)
  {
    if n > 0 {
      OrderedHolds(rows, n - 1);
      PlacedHolds(rows, rows[n - 1], {}, Ordered(rows, n - 1));
      var b := Find(Ordered(rows, n), rows[n - 1].id).value;
      FindOwn(rows, b);
      FindOwn(rows, rows[n - 1]);
    }
  }

  /** Being a forest is a matter of which accounts there are, not of their order. */
  lemma SameMembersSameForest(chart: Chart, rows: Chart)
    requires ValidChart(chart) && UniqueIds(rows) && forall a :: a in chart <==> a in rows
    ensures ValidChart(rows) && forall id :: Find(rows, id) == Find(chart, id)
    ensures forall level :: Levels(chart, level) ==> Levels(rows, level)
  {
    forall id ensures Find(rows, id) == Find(chart, id) {
      if Find(chart, id).Some? {
        FindOwn(rows, Find(chart, id).value);
      }
    }
    forall i, j | 0 <= i < j < |rows| ensures rows[i].code != rows[j].code {
      assert rows[i] in chart && rows[j] in chart;
      if rows[i].code == rows[j].code {
        CodesIdentify(chart, rows[i], rows[j]);
      }
    }
    assert Levels(rows, LevelsOf(chart));
  }

  /** A load is refused exactly when the rows saved are not a forest. */
  lemma LoadAcceptsIffForest(rows: seq<Account>)
    requires UniqueIds(rows)
    ensures Built(Loaded(rows)).Ok? <==> ValidChart(rows)
    ensures ValidChart(Loaded(rows)) <==> ValidChart(rows)
  {
    if Built(Loaded(rows)).Ok? {
      BuiltIsValid(Loaded(rows));
    }
    if ValidChart(Loaded(rows)) {
      OrderedHolds(rows, |rows|);
      SameMembersSameForest(Loaded(rows), rows);
    }
    if ValidChart(rows) {
      RevalidationNeverThrows(rows);
      BuiltIsValid(Loaded(rows));
    }
  }

  lemma LoadKeepsLookups(rows: seq<Account>, id: AccountId)
    requires UniqueIds(rows)
    ensures Find(Loaded(rows), id) == Find(rows, id)
  {
    OrderedHolds(rows, |rows|);
    var found, saved := Find(Loaded(rows), id), Find(rows, id);
    if found.Some? {
      FindOwn(rows, found.value);
    }
  }

  /** Loading valid rows changes their order only, and lists parents first. */
  lemma LoadKeepsChart(rows: Chart)
    requires ValidChart(rows)
    ensures var chart := Loaded(rows);
            && ValidChart(chart) && Arranged(chart, chart) && (forall a :: a in chart <==> a in rows)
            && (forall id :: Find(chart, id) == Find(rows, id))
            && forall a :: a in rows ==> Depth(chart, a) == Depth(rows, a)
  {
    RevalidationNeverThrows(rows);
    var chart := Loaded(rows);
    BuiltIsValid(chart);
    OrderedHolds(rows, |rows|);
    SameMembersSameForest(rows, chart);
    var level := LevelsOf(rows);
    forall a | a in rows ensures Depth(chart, a) == Depth(rows, a) {
      DepthIsLevel(rows, a, level);
      DepthIsLevel(chart, a, level);
    }
  }

  lemma PlacedAfterParent(rows: seq<Account>, a: Account, out: seq<Account>)
    requires a in rows && Find(out, a.id).None?
    requires a.parentId.Some? ==> Find(out, a.parentId.value).Some?
    ensures Placed(rows, a, {}, out) == out + [a]
  {
    if LinkOf(rows, a).Some? {
      var parent := LinkOf(rows, a).value;
      assert parent.id == a.parentId.value;
      assert a.id in Ids(rows) - {};
      assert Placed(rows, parent, {} + {a.id}, out) == out;
    }
  }

  /** Accounts already listed parents first keep their places, whatever comes after them. */
  lemma {:induction false} OrderedKeepsLead(chart: Chart, tail: seq<Account>, n: nat)
    requires Arranged(chart, chart) && n <= |chart|
    ensures Ordered(chart + tail, n) == chart[..n]
  {
    if n > 0 {
      OrderedKeepsLead(chart, tail, n - 1);
      var a := chart[n - 1];
      assert (chart + tail)[n - 1] == a && chart[..n] == chart[..n - 1] + [a];
      LeadIsNew(chart, n - 1);
      PlacedAfterParent(chart + tail, a, chart[..n - 1]);
    }
  }

  lemma LeadIsNew(chart: Chart, n: nat)
    requires UniqueIds(chart) && n < |chart|
    ensures Find(chart[..n], chart[n].id).None?
  {
    forall x | x in chart[..n] ensures x.id != chart[n].id {
      var i :| 0 <= i < n && chart[i] == x;
    }
  }

  lemma EmptyIsValid()
    ensures ValidChart([])
  {
    assert Levels([], map[]);
  }

  /** Inserting an accepted account adds a leaf to the forest. */
  lemma GrownByLeaf(chart: Chart, a: Account)
    requires ValidChart(chart) && Inserted(chart, a).Ok?
    ensures ValidChart(chart + [a])
    ensures var level := LevelsOf(chart);
            Levels(chart + [a], level[a.id := if a.parentId.None? then 1 else level[a.parentId.value] + 1])
  {
    var chart', level := chart + [a], LevelsOf(chart);
    var level' := level[a.id := if a.parentId.None? then 1 else level[a.parentId.value] + 1];
    LeafKeepsUnique(chart, a);
    forall x | x in chart' ensures FitsLevel(chart', level', x) {
      LeafFits(chart, a, level, level', x);
    }
    assert Levels(chart', level');
  }

  lemma LeafKeepsUnique(chart: Chart, a: Account)
    requires UniqueIds(chart) && UniqueCodes(chart) && Find(chart, a.id).None? && FindCode(chart, a.code).None?
    ensures UniqueIds(chart + [a]) && UniqueCodes(chart + [a])
    ensures forall x :: x in chart ==> Find(chart + [a], x.id) == Some(x) && x.id != a.id
    ensures Find(chart + [a], a.id) == Some(a)
  {
    forall i | 0 <= i < |chart| ensures chart[i].id != a.id && chart[i].code != a.code {
      assert chart[i] in chart;
    }
    forall x | x in chart + [a] ensures Find(chart + [a], x.id) == Some(x) {
      FindOwn(chart + [a], x);
    }
  }

  /** What `Levels` asks of one account. */
  ghost predicate FitsLevel(chart: Chart, level: map<AccountId, nat>, x: Account) {
    && SubtypeFits(x) && ParentFits(chart, x) && x.id in level
    && match x.parentId
       case None => level[x.id] == 1
       case Some(p) => Find(chart, p).Some? && p in level && level[x.id] == level[p] + 1
  }

  lemma LeafFits(chart: Chart, a: Account, level: map<AccountId, nat>, level': map<AccountId, nat>, x: Account)
    requires UniqueIds(chart) && UniqueCodes(chart) && Levels(chart, level) && Inserted(chart, a).Ok? && x in chart + [a]
    requires x in chart ==> SubtypeFits(x) && ParentFits(chart, x)
    requires level' == level[a.id := if a.parentId.None? then 1 else level[a.parentId.value] + 1]
    ensures FitsLevel(chart + [a], level', x)
  {
    LeafKeepsUnique(chart, a);
    if x.parentId.Some? {
      var p := Find(chart, x.parentId.value).value;
      assert Find(chart + [a], p.id) == Some(p) && p.id != a.id;
    }
  }
}
