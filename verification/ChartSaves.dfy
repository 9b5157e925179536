/**
 * What saving a new account does to the chart. Accounts are saved by id, and a new account's id is
 * `acct:` and its number: when some account was renumbered away from that number, its id is taken over.
 */
module ChartSaves {
  import opened Text
  import opened Ledger
  import opened Chart
  import opened ChartEdit

  lemma {:induction false} NothingToLeaveOut(chart: Chart, id: AccountId)
    requires Find(chart, id).None?
    ensures Without(chart, id) == chart
  {
    if chart != [] {
      assert chart[0] in chart && forall a :: a in chart[1..] ==> a in chart;
      NothingToLeaveOut(chart[1..], id);
      assert chart == [chart[0]] + chart[1..];
    }
  }

  lemma LeafIsSaved(chart: Chart, a: Account)
    requires ValidChart(chart) && Inserted(chart, a).Ok?
    requires a.parentId.Some? ==> Depth(chart, Find(chart, a.parentId.value).value) + 1 <= MAX_CHART_DEPTH
    ensures Replaced(chart, a) == chart + [a] && ValidChart(chart + [a])
    ensures forall id :: Find(chart + [a], id) == if id == a.id then Some(a) else Find(chart, id)
    ensures WithinDepth(chart) ==> WithinDepth(chart + [a])
  {
    NothingToLeaveOut(chart, a.id);
    GrownByLeaf(chart, a);
    LeafKeepsUnique(chart, a);
    if WithinDepth(chart) {
      LeafStaysWithin(chart, a);
    }
  }

  lemma LeafStaysWithin(chart: Chart, a: Account)
    requires WithinDepth(chart) && Inserted(chart, a).Ok?
    requires a.parentId.Some? ==> Depth(chart, Find(chart, a.parentId.value).value) + 1 <= MAX_CHART_DEPTH
    ensures WithinDepth(chart + [a])
  {
    GrownByLeaf(chart, a);
    var level := LevelsOf(chart);
    var level' := level[a.id := if a.parentId.None? then 1 else level[a.parentId.value] + 1];
    LeafKeepsUnique(chart, a);
    forall x | x in chart + [a] ensures Depth(chart + [a], x) <= MAX_CHART_DEPTH {
      DepthIsLevel(chart + [a], x, level');
      if x in chart {
        DepthIsLevel(chart, x, level);
      } else if a.parentId.Some? {
        DepthIsLevel(chart, Find(chart, a.parentId.value).value, level);
      }
    }
  }

  // --- taking over an id --------------------------------------------------------------------------

  /** A new account the editor's rules let through, whose id `holder` still has. */
  ghost predicate TakesOver(chart: Chart, holder: Account, a: Account)
    requires ValidChart(chart)
  {
    holder in chart && a.id == holder.id && FindCode(chart, a.code).None? && SubtypeFits(a) && ParentFits(chart, a)
  }

  /** The holder has no children or keeps its type, and the new parent is not under it. */
  ghost predicate KeepsForest(chart: Chart, holder: Account, a: Account)
    requires ValidChart(chart) && TakesOver(chart, holder, a)
  {
    && (Children(chart, holder.id) == [] || a.accountType == holder.accountType)
    && (a.parentId.Some? ==> !UnderOrIs(chart, Find(chart, a.parentId.value).value, holder.id))
  }

  ghost predicate KeepsDepth(chart: Chart, holder: Account, a: Account)
    requires ValidChart(chart) && TakesOver(chart, holder, a)
  {
    a.parentId.Some? ==>
      Depth(chart, Find(chart, a.parentId.value).value) + 1 + Height(chart, holder) <= MAX_CHART_DEPTH
  }

  /** The saved rows are a forest exactly when the holder may be replaced. */
  lemma TakenOverIsForestIff(chart: Chart, holder: Account, a: Account)
    requires ValidChart(chart) && TakesOver(chart, holder, a)
    ensures UniqueIds(Replaced(chart, a))
    ensures ValidChart(Replaced(chart, a)) <==> KeepsForest(chart, holder, a)
  {
    ReplacedLookups(chart, holder, a);
    if KeepsForest(chart, holder, a) {
      assert Movable(chart, holder, a);
      MovingKeepsChart(chart, holder, a);
    }
    if ValidChart(Replaced(chart, a)) {
      ForestKeepsChildren(chart, holder, a);
      ForestKeepsParent(chart, holder, a);
    }
  }

  lemma ForestKeepsChildren(chart: Chart, holder: Account, a: Account)
    requires ValidChart(chart) && TakesOver(chart, holder, a) && ValidChart(Replaced(chart, a))
    ensures Children(chart, holder.id) == [] || a.accountType == holder.accountType
  {
    ReplacedLookups(chart, holder, a);
    var kids := Children(chart, holder.id);
    if kids != [] {
      var k := kids[0];
      assert k in kids && ParentFits(chart, k);
      FindOwn(chart, holder);
      assert Levels(chart, LevelsOf(chart));
      assert k != holder && ParentFits(Replaced(chart, a), k);
    }
  }

  lemma ForestKeepsParent(chart: Chart, holder: Account, a: Account)
    requires ValidChart(chart) && TakesOver(chart, holder, a) && ValidChart(Replaced(chart, a))
    ensures a.parentId.Some? ==> !UnderOrIs(chart, Find(chart, a.parentId.value).value, holder.id)
  {
    ReplacedLookups(chart, holder, a);
    if a.parentId.Some? {
      var p, level := Find(chart, a.parentId.value).value, LevelsOf(Replaced(chart, a));
      assert a in Replaced(chart, a);
      if UnderOrIs(chart, p, holder.id) {
        UnderIsBelow(chart, holder, a, p, level);
      }
    }
  }

  /** Whatever was under the holder is still below it once it is replaced. */
  lemma {:induction false} UnderIsBelow(chart: Chart, holder: Account, a: Account, x: Account, level: map<AccountId, nat>)
    requires ValidChart(chart) && TakesOver(chart, holder, a) && x in chart && UnderOrIs(chart, x, holder.id)
    requires Levels(Replaced(chart, a), level)
    ensures holder.id in level && x.id in level && level[x.id] >= level[holder.id]
    decreases LevelsOf(chart)[x.id]
  {
    ReplacedLookups(chart, holder, a);
    assert a in Replaced(chart, a);
    if x.id != holder.id {
      UnderIsBelow(chart, holder, a, ParentOf(chart, x).value, level);
      assert x in Replaced(chart, a);
    }
  }

  // --- depth ----------------------------------------------------------------------------------------

  lemma {:induction false} TallestKid(chart: Chart, a: Account, kids: seq<Account>) returns (k: Account)
    requires ValidChart(chart) && a in chart && kids != []
    requires forall k :: k in kids ==> k in chart && k.parentId == Some(a.id)
    ensures k in kids && Height(chart, k) == MaxHeight(chart, a, kids)
  {
    k := kids[0];
    if |kids| > 1 {
      var other := TallestKid(chart, a, kids[1..]);
      if Height(chart, other) > Height(chart, k) {
        k := other;
      }
    }
  }

  lemma {:induction false} UnderKidIsUnder(chart: Chart, x: Account, k: Account, a: Account)
    requires ValidChart(chart) && x in chart && k in chart && a in chart
    requires UnderOrIs(chart, x, k.id) && k.parentId == Some(a.id)
    ensures UnderOrIs(chart, x, a.id)
    decreases LevelsOf(chart)[x.id]
  {
    if x.id == k.id {
      FindOwn(chart, x);
      FindOwn(chart, k);
    } else {
      UnderKidIsUnder(chart, ParentOf(chart, x).value, k, a);
    }
  }

  /** Some account under `a` lies the whole height of `a` below it. */
  lemma {:induction false} HeightIsReached(chart: Chart, a: Account, level: map<AccountId, nat>) returns (x: Account)
    requires ValidChart(chart) && a in chart && Levels(chart, level)
    ensures x in chart && UnderOrIs(chart, x, a.id) && level[x.id] == level[a.id] + Height(chart, a)
    decreases Deeper(chart, a)
  {
    var kids := Children(chart, a.id);
    if kids == [] {
      x := a;
    } else {
      var k := TallestKid(chart, a, kids);
      FindOwn(chart, a);
      assert k in Deeper(chart, a) && k !in Deeper(chart, k);
      x := HeightIsReached(chart, k, level);
      UnderKidIsUnder(chart, x, k, a);
    }
  }

  lemma TakenOverIsShallowIff(chart: Chart, holder: Account, a: Account)
    requires WithinDepth(chart) && TakesOver(chart, holder, a) && KeepsForest(chart, holder, a)
    ensures WithinDepth(Replaced(chart, a)) <==> KeepsDepth(chart, holder, a)
  {
    if KeepsDepth(chart, holder, a) {
      AdmissibleKeepsDepth(chart, holder, a);
    }
    if WithinDepth(Replaced(chart, a)) {
      ShallowKeepsDepth(chart, holder, a);
    }
  }

  lemma ShallowKeepsDepth(chart: Chart, holder: Account, a: Account)
    requires ValidChart(chart) && TakesOver(chart, holder, a) && KeepsForest(chart, holder, a)
    requires WithinDepth(Replaced(chart, a))
    ensures KeepsDepth(chart, holder, a)
  {
    if a.parentId.Some? {
      var p, level := Find(chart, a.parentId.value).value, LevelsOf(chart);
      var x := HeightIsReached(chart, holder, level);
      DepthIsLevel(chart, p, level);
      SavedDepth(chart, holder, a, x);
      MovedLevelUnder(chart, holder, a, x);
    }
  }

  /** The level of an account under the holder once `a` has taken its place. */
  lemma MovedLevelUnder(chart: Chart, holder: Account, a: Account, x: Account)
    requires ValidChart(chart) && TakesOver(chart, holder, a) && Movable(chart, holder, a) && a.parentId.Some?
    requires x in chart && UnderOrIs(chart, x, holder.id)
    ensures var level := LevelsOf(chart);
            MovedLevel(chart, holder, a, x) + level[holder.id] == level[x.id] + level[a.parentId.value] + 1
  {
    HeightBounds(chart, holder, x, LevelsOf(chart));
  }

  lemma SavedDepth(chart: Chart, holder: Account, a: Account, x: Account)
    requires ValidChart(chart) && TakesOver(chart, holder, a) && Movable(chart, holder, a)
    requires x in chart && WithinDepth(Replaced(chart, a))
    ensures MovedLevel(chart, holder, a, x) <= MAX_CHART_DEPTH
  {
    var y := if x.id == holder.id then a else x;
    ReplacedLookups(chart, holder, a);
    assert y in Replaced(chart, a);
    MovedLevelsFit(chart, holder, a);
    DepthIsLevel(Replaced(chart, a), y, MovedLevels(chart, holder, a));
  }

  // --- new accounts -----------------------------------------------------------------------------------

  /**
   * On a chart as `ChartOfAccounts` lists it, the kernel's re-validation refuses no new account: when the
   * id is taken, `parentsFirst` drops the second account with it before the constructor sees it.
   */
  lemma NewAccountIsAccepted(chart: Chart, req: NewAccount)
    requires ValidChart(chart) && Arranged(chart, chart)
    ensures PlanNewAccount(chart, req) == Drafted(chart, req)
  {
    if Drafted(chart, req).Ok? {
      var a := Drafted(chart, req).value;
      DraftedFits(chart, req);
      if Find(chart, a.id).None? {
        LeafIsSaved(chart, a);
        RevalidationNeverThrows(chart + [a]);
      } else {
        TakenIdIsDropped(chart, a);
        BuildAccepts(chart, chart);
      }
    }
  }

  lemma TakenIdIsDropped(chart: Chart, a: Account)
    requires Arranged(chart, chart) && Find(chart, a.id).Some?
    ensures Ordered(chart + [a], |chart + [a]|) == chart
  {
    OrderedKeepsLead(chart, [a], |chart|);
    assert chart[..|chart|] == chart;
    assert (chart + [a])[|chart|] == a;
    assert Placed(chart + [a], a, {}, chart) == chart;
  }

  /** What a new account must meet for the saved rows to be a forest: a new id, or a holder it may replace. */
  ghost predicate SavesForest(chart: Chart, a: Account)
    requires ValidChart(chart) && FindCode(chart, a.code).None? && SubtypeFits(a) && ParentFits(chart, a)
  {
    Find(chart, a.id).Some? ==> KeepsForest(chart, Find(chart, a.id).value, a)
  }

  ghost predicate SavesDepth(chart: Chart, a: Account)
    requires ValidChart(chart) && FindCode(chart, a.code).None? && SubtypeFits(a) && ParentFits(chart, a)
  {
    Find(chart, a.id).Some? ==> KeepsDepth(chart, Find(chart, a.id).value, a)
  }

  /**
   * Saving an accepted new account leaves a forest, and one of at most five levels, exactly when its id is
   * new, or the account that has the id keeps its type or has no children, the new parent is not under it,
   * and what is under it stays within the limit.
   */
  lemma NewAccountKeepsForestIff(chart: Chart, req: NewAccount)
    requires ValidChart(chart) && Drafted(chart, req).Ok?
    ensures var a := Drafted(chart, req).value;
            && FindCode(chart, a.code).None? && SubtypeFits(a) && ParentFits(chart, a)
            && UniqueIds(Replaced(chart, a))
            && (ValidChart(Replaced(chart, a)) <==> SavesForest(chart, a))
            && (WithinDepth(chart) ==>
                  (WithinDepth(Replaced(chart, a)) <==> SavesForest(chart, a) && SavesDepth(chart, a)))
  {
    var a := Drafted(chart, req).value;
    DraftedFits(chart, req);
    if Find(chart, a.id).None? {
      LeafIsSaved(chart, a);
    } else {
      var holder := Find(chart, a.id).value;
      TakenOverIsForestIff(chart, holder, a);
      if WithinDepth(chart) && KeepsForest(chart, holder, a) {
        TakenOverIsShallowIff(chart, holder, a);
      }
    }
  }

  /** Saving changes the lookup of one id, whether or not the rows are still a forest. */
  lemma SavedLookups(chart: Chart, a: Account, id: AccountId)
    requires ValidChart(chart) && FindCode(chart, a.code).None? && UniqueIds(Replaced(chart, a))
    ensures Find(Loaded(Replaced(chart, a)), id) == if id == a.id then Some(a) else Find(chart, id)
  {
    LoadKeepsLookups(Replaced(chart, a), id);
    if Find(chart, a.id).Some? {
      ReplacedLookups(chart, Find(chart, a.id).value, a);
    } else {
      NothingToLeaveOut(chart, a.id);
      FindOwn(Replaced(chart, a), a);
      if Find(chart, id).Some? {
        FindOwn(Replaced(chart, a), Find(chart, id).value);
      }
    }
  }

  // --- the in-memory backend -------------------------------------------------------------------------

  /** A map keeps the place of a key it already has. */
  function SavedInPlace(chart: Chart, i: nat, next: Account): Chart
    requires i < |chart|
  {
    chart[i := next]
  }

  /** Ids keep their places, so an account finds its parent before it where it did. */
  lemma PlacesKeepIds(chart: Chart, i: nat, next: Account, k: nat, id: AccountId)
    requires i < |chart| && k <= |chart| && next.id == chart[i].id
    ensures Find(SavedInPlace(chart, i, next)[..k], id).Some? <==> Find(chart[..k], id).Some?
  {
    var before, after := chart[..k], SavedInPlace(chart, i, next)[..k];
    assert forall j :: 0 <= j < k ==> after[j].id == before[j].id;
    if Find(before, id).Some? {
      var j :| 0 <= j < k && before[j] == Find(before, id).value;
      assert after[j] in after;
    }
    if Find(after, id).Some? {
      var j :| 0 <= j < k && after[j] == Find(after, id).value;
      assert before[j] in before;
    }
  }

  lemma SavedInPlaceIsForest(chart: Chart, i: nat, next: Account)
    requires ValidChart(chart) && i < |chart| && Movable(chart, chart[i], next)
    ensures ValidChart(SavedInPlace(chart, i, next))
  {
    var rows, saved := Replaced(chart, next), SavedInPlace(chart, i, next);
    MovingKeepsChart(chart, chart[i], next);
    ReplacedLookups(chart, chart[i], next);
    forall a ensures a in rows <==> a in saved {
      if a in chart && a != chart[i] {
        var j :| 0 <= j < |chart| && chart[j] == a;
        assert saved[j] == a;
      }
      assert saved[i] == next;
    }
    SameMembersSameForest(rows, saved);
  }

  /**
   * The in-memory backend rebuilds its chart in the order accounts were first saved, without
   * `parentsFirst`: an accepted change loads again exactly when its new parent is listed before it.
   */
  lemma InMemoryLoadAcceptsIff(chart: Chart, i: nat, next: Account)
    requires ValidChart(chart) && Arranged(chart, chart) && i < |chart| && Movable(chart, chart[i], next)
    ensures Built(SavedInPlace(chart, i, next)).Ok? <==>
            (next.parentId.Some? ==> Find(chart[..i], next.parentId.value).Some?)
  {
    var saved := SavedInPlace(chart, i, next);
    assert saved[..i] == chart[..i];
    if Built(saved).Ok? {
      BuiltIsValid(saved);
      assert saved[i] == next;
    }
    if next.parentId.Some? ==> Find(chart[..i], next.parentId.value).Some? {
      SavedInPlaceIsForest(chart, i, next);
      forall k | 0 <= k < |saved| && saved[k].parentId.Some?
        ensures Find(saved[..k], saved[k].parentId.value).Some?
      {
        PlacesKeepIds(chart, i, next, k, saved[k].parentId.value);
      }
      assert Arranged(saved, saved);
      BuildAccepts(saved, saved);
    }
  }

  lemma SavedIdsStayUnique(chart: Chart, req: NewAccount, a: Account)
    requires ValidChart(chart) && Drafted(chart, req) == Ok(a)
    ensures FindCode(chart, a.code).None? && UniqueIds(Replaced(chart, a))
  {
    NewAccountKeepsForestIff(chart, req);
  }

  /**
   * An account renumbered from 1000 to 1001 with a child 1100: a new account 1000 under 1100 is accepted,
   * takes over the id, and the saved accounts are each other's parents. Every later load is refused.
   */
  lemma ReusedIdMakesACycle(b: Account, c: Account)
    requires b.id == "acct:1000" && b.code == "1001" && b.parentId.None? && b.accountType == ASSET && b.subtype.None?
    requires c.id == "acct:1100" && c.code == "1100" && c.parentId == Some("acct:1000") && c.accountType == ASSET
    requires c.subtype.None? && c.active
    ensures var req := NewAccount("1000", "X", Some(ASSET), None, Some("1100"), "USD");
            && WithinDepth([b, c]) && PlanNewAccount([b, c], req).Ok?
            && var rows := Replaced([b, c], PlanNewAccount([b, c], req).value);
               !ValidChart(rows) && Built(Loaded(rows)).Err?
  {
    var chart, req := [b, c], NewAccount("1000", "X", Some(ASSET), None, Some("1100"), "USD");
    PairIsForest(b, c);
    var a := Account("acct:1000", "1000", "X", ASSET, "USD", Some("acct:1100"), None, true, RGNR8);
    assert Drafted(chart, req) == Ok(a) by {
      TrimKeepsTrimmed("1000");
      TrimKeepsTrimmed("X");
      assert "acct:" + "1000" == "acct:1000";
      assert FindCode(chart, "1100") == Some(c);
    }
    NewAccountIsAccepted(chart, req);
    NewAccountKeepsForestIff(chart, req);
    assert Find(chart, "acct:1000") == Some(b) && Find(chart, "acct:1100") == Some(c);
    assert UnderOrIs(chart, c, "acct:1000");
    LoadAcceptsIffForest(Replaced(chart, a));
  }

  lemma PairIsForest(b: Account, c: Account)
    requires b.id == "acct:1000" && b.code == "1001" && b.parentId.None? && b.accountType == ASSET && b.subtype.None?
    requires c.id == "acct:1100" && c.code == "1100" && c.parentId == Some("acct:1000") && c.accountType == ASSET
    requires c.subtype.None?
    ensures WithinDepth([b, c]) && Arranged([b, c], [b, c]) && Depth([b, c], c) == 2
  {
    var chart, level := [b, c], map["acct:1000" := 1, "acct:1100" := 2];
    assert Find(chart, "acct:1000") == Some(b);
    assert Levels(chart, level);
    DepthIsLevel(chart, b, level);
    DepthIsLevel(chart, c, level);
    assert Find(chart[..1], "acct:1000") == Some(b);
  }
}
