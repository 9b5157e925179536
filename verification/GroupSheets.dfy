/**
 * The balance sheet of a group, from its members' translated books to the merged rows with eliminations
 * (ledger-service consolidation.ts, financial-statements consolidation.ts).
 */
module GroupSheets {
  import opened Text
  import opened Sums
  import opened Ledger
  import opened Statements
  import opened StatementLaws
  import opened Consolidation
  import opened TranslationLaws

  // --- members together -----------------------------------------------------------------------------------

  /** A member of a group: its accounts over the three windows, and the rates it is translated at. */
  datatype Member = Member(entityId: string, spans: seq<Span>, rates: Rates)

  datatype Which = BEFORE | DURING | END

  function MemberBooks(m: Member, w: Which): seq<SignedEntry> {
    var tb := match w
      case BEFORE => Before(m.spans)
      case DURING => During(m.spans)
      case END => AtEnd(m.spans);
    WithCta(TranslatedAll(tb, m.rates), m.entityId)
  }

  function GroupBooks(members: seq<Member>, w: Which): seq<SignedEntry> {
    if members == [] then [] else GroupBooks(members[..|members| - 1], w) + MemberBooks(members[|members| - 1], w)
  }

  function GroupSheet(members: seq<Member>): BalanceSheet {
    BalanceSheetOf(GroupBooks(members, END), IncomeStatement(GroupBooks(members, DURING)).netIncome,
                   IncomeStatement(GroupBooks(members, BEFORE)).netIncome)
  }

  function GroupLines(members: seq<Member>): int {
    if members == [] then 0 else GroupLines(members[..|members| - 1]) + EarningsLines(members[|members| - 1].spans)
  }

  function GroupDropped(members: seq<Member>): int {
    if members == [] then 0
    else
      var m := members[|members| - 1];
      GroupDropped(members[..|members| - 1]) + UnevenlyDropped(m.spans, m.rates.averageMicro)
  }

  function GroupGap(members: seq<Member>): int {
    Earnings(GroupBooks(members, END)) - Earnings(GroupBooks(members, DURING)) - Earnings(GroupBooks(members, BEFORE))
  }

  lemma {:induction false} EarningsAppend(a: seq<SignedEntry>, b: seq<SignedEntry>)
    ensures Earnings(a + b) == Earnings(a) + Earnings(b)
  {
    if b == [] {
      assert a + b == a;
    } else {
      assert (a + b)[..|a + b| - 1] == a + b[..|b| - 1];
      EarningsAppend(a, b[..|b| - 1]);
    }
  }

  lemma MemberEarns(m: Member)
    ensures Earnings(MemberBooks(m, END)) - Earnings(MemberBooks(m, DURING)) - Earnings(MemberBooks(m, BEFORE))
         == Gap(m.spans, m.rates)
    ensures Total(MemberBooks(m, END)) == 0
  {
    CtaEarnsNothing(TranslatedAll(AtEnd(m.spans), m.rates), m.entityId);
    CtaEarnsNothing(TranslatedAll(During(m.spans), m.rates), m.entityId);
    CtaEarnsNothing(TranslatedAll(Before(m.spans), m.rates), m.entityId);
    TranslatedSheetFoots(AtEnd(m.spans), m.entityId, m.rates);
  }

  lemma OneMoreMember(members: seq<Member>)
    requires members != []
    ensures var front, m := members[..|members| - 1], members[|members| - 1];
            && GroupGap(members) == GroupGap(front) + Gap(m.spans, m.rates)
            && Total(GroupBooks(members, END)) == Total(GroupBooks(front, END))
  {
    var front, m := members[..|members| - 1], members[|members| - 1];
    MemberEarns(m);
    TotalAppends(GroupBooks(front, END), MemberBooks(m, END));
    EarningsAppend(GroupBooks(front, END), MemberBooks(m, END));
    EarningsAppend(GroupBooks(front, DURING), MemberBooks(m, DURING));
    EarningsAppend(GroupBooks(front, BEFORE), MemberBooks(m, BEFORE));
  }

  lemma {:induction false} GroupGapIsWhatRoundingDrops(members: seq<Member>)
    ensures GroupGap(members) * RATE_MICRO == GroupDropped(members)
    ensures -GroupLines(members) <= GroupGap(members) <= GroupLines(members)
    ensures Total(GroupBooks(members, END)) == 0
  {
    if members != [] {
      var m := members[|members| - 1];
      GroupGapIsWhatRoundingDrops(members[..|members| - 1]);
      OneMoreMember(members);
      GapIsWhatRoundingDrops(m.spans, m.rates);
    }
  }

  /**
   * A group's sheet, each member translated at its own rates, is out by at most one minor unit per revenue or
   * expense line of its members, and balances exactly when what rounding drops cancels over the group.
   */
  lemma GroupSheetBalancesIff(members: seq<Member>)
    ensures -GroupLines(members) <= GroupSheet(members).residual <= GroupLines(members)
    ensures GroupSheet(members).residual * RATE_MICRO == -GroupDropped(members)
    ensures GroupSheet(members).balanced <==> GroupDropped(members) == 0
  {
    var end, during, before := GroupBooks(members, END), GroupBooks(members, DURING), GroupBooks(members, BEFORE);
    GroupGapIsWhatRoundingDrops(members);
    SheetIsOutByIncome(end, IncomeStatement(during).netIncome, IncomeStatement(before).netIncome);
    NetIncomeIsEarnings(end);
    NetIncomeIsEarnings(during);
    NetIncomeIsEarnings(before);
    assert GroupSheet(members).residual == -GroupGap(members);
  }

  // --- merged rows ----------------------------------------------------------------------------------------

  /** The accounts of one type. */
  ghost function OfType(m: Merged, t: AccountType): Merged {
    map id | id in m && m[id].account.accountType == t :: m[id]
  }

  /** Every entry on an account has the type this function gives the account. */
  ghost predicate Typed(entries: seq<SignedEntry>, typeOf: AccountId -> AccountType) {
    forall i :: 0 <= i < |entries| ==> entries[i].account.accountType == typeOf(entries[i].account.id)
  }

  ghost predicate TypedMap(m: Merged, typeOf: AccountId -> AccountType) {
    forall id :: id in m ==> m[id].account.id == id && m[id].account.accountType == typeOf(id)
  }

  /** Merging neither moves an amount from one type to another nor loses any. */
  lemma {:induction false} MergedByType(entries: seq<SignedEntry>, t: AccountType, typeOf: AccountId -> AccountType)
    requires Typed(entries, typeOf)
    ensures TypedMap(MergedLines(entries), typeOf)
    ensures Sum(SignedValues(OfType(MergedLines(entries), t))) == SignedOf(entries, t)
    ensures Sum(SignedValues(MergedLines(entries))) == Total(entries)
  {
    if entries == [] {
      assert OfType(map[], t) == map[] && SignedValues(map[]) == map[];
    } else {
      var front, e := entries[..|entries| - 1], entries[|entries| - 1];
      MergedByType(front, t, typeOf);
      OneMoreByType(MergedLines(front), e, t, typeOf);
    }
  }

  lemma OneMoreByType(m: Merged, e: SignedEntry, t: AccountType, typeOf: AccountId -> AccountType)
    requires TypedMap(m, typeOf) && e.account.accountType == typeOf(e.account.id)
    ensures TypedMap(MergeSigned(m, e), typeOf)
    ensures Sum(SignedValues(OfType(MergeSigned(m, e), t)))
         == Sum(SignedValues(OfType(m, t))) + if e.account.accountType == t then e.signed else 0
    ensures Sum(SignedValues(MergeSigned(m, e))) == Sum(SignedValues(m)) + e.signed
  {
    var m', id := MergeSigned(m, e), e.account.id;
    assert SignedValues(m') == SignedValues(m)[id := m'[id].signed];
    SumAfterUpdate(SignedValues(m), id, m'[id].signed);
    OneMoreOfType(m, e, t, typeOf);
  }

  lemma OneMoreOfType(m: Merged, e: SignedEntry, t: AccountType, typeOf: AccountId -> AccountType)
    requires TypedMap(m, typeOf) && e.account.accountType == typeOf(e.account.id)
    ensures TypedMap(MergeSigned(m, e), typeOf)
    ensures Sum(SignedValues(OfType(MergeSigned(m, e), t)))
         == Sum(SignedValues(OfType(m, t))) + if e.account.accountType == t then e.signed else 0
  {
    var m', id := MergeSigned(m, e), e.account.id;
    var before, after := SignedValues(OfType(m, t)), SignedValues(OfType(m', t));
    if e.account.accountType == t {
      assert after == before[id := m'[id].signed];
      SumAfterUpdate(before, id, m'[id].signed);
    } else {
      assert after == before;
    }
  }

  /** The rows of a merged map that are not zero, each once, in whatever order they are shown. */
  ghost predicate Lists(rows: seq<SignedEntry>, m: Merged) {
    && (forall i, j :: 0 <= i < j < |rows| ==> rows[i].account.id != rows[j].account.id)
    && (forall i :: 0 <= i < |rows| ==> rows[i].account.id in m && m[rows[i].account.id] == rows[i])
    && (forall id :: id in m ==> exists i :: 0 <= i < |rows| && rows[i].account.id == id)
  }

  lemma {:induction false} ListedSums(rows: seq<SignedEntry>, m: Merged, t: AccountType)
    requires Lists(rows, m)
    ensures SignedOf(rows, t) == Sum(SignedValues(OfType(m, t))) && Total(rows) == Sum(SignedValues(m))
    decreases |rows|
  {
    if rows == [] {
      assert m == map[] && OfType(m, t) == map[] && SignedValues(map[]) == map[];
    } else {
      var front, e := rows[..|rows| - 1], rows[|rows| - 1];
      var id, rest := e.account.id, m - {e.account.id};
      FrontLists(rows, m);
      ListedSums(front, rest, t);
      SumTakesAnyKey(SignedValues(m), id);
      assert SignedValues(m) - {id} == SignedValues(rest);
      TakenByType(m, id, t);
    }
  }

  lemma FrontLists(rows: seq<SignedEntry>, m: Merged)
    requires Lists(rows, m) && rows != []
    ensures Lists(rows[..|rows| - 1], m - {rows[|rows| - 1].account.id})
  {
    var front, last := rows[..|rows| - 1], rows[|rows| - 1];
    forall id | id in m && id != last.account.id ensures exists i :: 0 <= i < |front| && front[i].account.id == id {
      var i :| 0 <= i < |rows| && rows[i].account.id == id;
      assert front[i] == rows[i];
    }
  }

  lemma TakenByType(m: Merged, id: AccountId, t: AccountType)
    requires id in m
    ensures Sum(SignedValues(OfType(m, t)))
         == Sum(SignedValues(OfType(m - {id}, t))) + if m[id].account.accountType == t then m[id].signed else 0
  {
    if m[id].account.accountType == t {
      SumTakesAnyKey(SignedValues(OfType(m, t)), id);
      assert SignedValues(OfType(m, t)) - {id} == SignedValues(OfType(m - {id}, t));
    } else {
      assert OfType(m, t) == OfType(m - {id}, t);
    }
  }

  /** The shown rows of merged entries have the entries' totals, type by type. */
  lemma ShownSums(rows: seq<SignedEntry>, entries: seq<SignedEntry>, t: AccountType, typeOf: AccountId -> AccountType)
    requires Typed(entries, typeOf) && Lists(rows, NonZero(MergedLines(entries)))
    ensures SignedOf(rows, t) == SignedOf(entries, t) && Total(rows) == Total(entries)
  {
    var m := MergedLines(entries);
    MergedByType(entries, t, typeOf);
    ListedSums(rows, NonZero(m), t);
    NonZeroSumsAlike(m);
    NonZeroSumsAlike(OfType(m, t));
    assert OfType(NonZero(m), t) == NonZero(OfType(m, t));
  }

  // --- eliminations ---------------------------------------------------------------------------------------

  /** A group with the eliminations each window is given. */
  datatype Group = Group(members: seq<Member>, before: seq<SignedEntry>, during: seq<SignedEntry>, end: seq<SignedEntry>)

  function Eliminations(g: Group, w: Which): seq<SignedEntry> {
    match w
    case BEFORE => g.before
    case DURING => g.during
    case END => g.end
  }

  function AllLines(g: Group, w: Which): seq<SignedEntry> {
    GroupBooks(g.members, w) + Eliminations(g, w)
  }

  /** Rows a consolidation of the window can show. */
  ghost predicate Shows(rows: seq<SignedEntry>, g: Group, w: Which) {
    Lists(rows, NonZero(MergedLines(AllLines(g, w))))
  }

  /** The members agree on the type of every account they share. */
  ghost predicate AgreeOnTypes(g: Group, typeOf: AccountId -> AccountType) {
    forall w :: Typed(AllLines(g, w), typeOf)
  }

  /** The revenue and expense part of the end window's eliminations, less those of the other two. */
  function Eliminated(g: Group): int {
    Earnings(g.end) - Earnings(g.during) - Earnings(g.before)
  }

  function ConsolidatedSheet(end: seq<SignedEntry>, during: seq<SignedEntry>, before: seq<SignedEntry>): BalanceSheet {
    BalanceSheetOf(end, IncomeStatement(during).netIncome, IncomeStatement(before).netIncome)
  }

  lemma ShownEarns(rows: seq<SignedEntry>, g: Group, w: Which, typeOf: AccountId -> AccountType)
    requires AgreeOnTypes(g, typeOf) && Shows(rows, g, w)
    ensures Earnings(rows) == Earnings(GroupBooks(g.members, w)) + Earnings(Eliminations(g, w))
    ensures Total(rows) == Total(GroupBooks(g.members, w)) + Total(Eliminations(g, w))
    ensures IncomeStatement(rows).netIncome == -Earnings(rows)
  {
    ShownSums(rows, AllLines(g, w), REVENUE, typeOf);
    ShownSums(rows, AllLines(g, w), EXPENSE, typeOf);
    EarningsAppend(GroupBooks(g.members, w), Eliminations(g, w));
    TotalAppends(GroupBooks(g.members, w), Eliminations(g, w));
    NetIncomeIsEarnings(rows);
  }

  /**
   * A consolidated balance sheet is out by what rounding drops unevenly over the members and by the revenue and
   * expense part of the eliminations that its windows do not share out, and by nothing else. It balances
   * exactly when the two cancel.
   */
  lemma ConsolidatedSheetBalancesIff(g: Group, end: seq<SignedEntry>, during: seq<SignedEntry>, before: seq<SignedEntry>,
                                     typeOf: AccountId -> AccountType)
    requires AgreeOnTypes(g, typeOf) && Total(g.end) == 0
    requires Shows(end, g, END) && Shows(during, g, DURING) && Shows(before, g, BEFORE)
    ensures var sheet := ConsolidatedSheet(end, during, before);
            && sheet.residual == -GroupGap(g.members) - Eliminated(g)
            && -GroupLines(g.members) <= sheet.residual + Eliminated(g) <= GroupLines(g.members)
            && (sheet.balanced <==> GroupDropped(g.members) + Eliminated(g) * RATE_MICRO == 0)
  {
    GroupGapIsWhatRoundingDrops(g.members);
    ShownEarns(end, g, END, typeOf);
    ShownEarns(during, g, DURING, typeOf);
    ShownEarns(before, g, BEFORE, typeOf);
    SheetIsOutByIncome(end, IncomeStatement(during).netIncome, IncomeStatement(before).netIncome);
  }

  /** Members of one currency are translated at the unit rate, where rounding drops nothing. */
  ghost predicate OneCurrency(members: seq<Member>) {
    forall i :: 0 <= i < |members| ==> members[i].rates.averageMicro == RATE_MICRO
  }

  lemma {:induction false} UnitRatesDropNothing(spans: seq<Span>)
    ensures UnevenlyDropped(spans, RATE_MICRO) == 0
  {
    if spans != [] {
      var s := spans[|spans| - 1];
      UnitRatesDropNothing(spans[..|spans| - 1]);
      WholeProductDropsNothing(s.before, RATE_MICRO);
      WholeProductDropsNothing(s.period, RATE_MICRO);
      WholeProductDropsNothing(s.before + s.period, RATE_MICRO);
    }
  }

  lemma {:induction false} OneCurrencyDropsNothing(members: seq<Member>)
    requires OneCurrency(members)
    ensures GroupDropped(members) == 0
  {
    if members != [] {
      OneCurrencyDropsNothing(members[..|members| - 1]);
      UnitRatesDropNothing(members[|members| - 1].spans);
    }
  }

  /**
   * In one currency, with the same eliminations in every window as the manual ones are, the sheet is out by
   * exactly their revenue and expense part: it balances exactly when that nets to zero.
   */
  lemma ManualEliminationsBalanceIff(g: Group, end: seq<SignedEntry>, during: seq<SignedEntry>, before: seq<SignedEntry>,
                                     typeOf: AccountId -> AccountType)
    requires AgreeOnTypes(g, typeOf) && Total(g.end) == 0 && OneCurrency(g.members) && g.before == g.during == g.end
    requires Shows(end, g, END) && Shows(during, g, DURING) && Shows(before, g, BEFORE)
    ensures ConsolidatedSheet(end, during, before).residual == Earnings(g.end)
    ensures ConsolidatedSheet(end, during, before).balanced <==> Earnings(g.end) == 0
  {
    ConsolidatedSheetBalancesIff(g, end, during, before, typeOf);
    GroupGapIsWhatRoundingDrops(g.members);
    OneCurrencyDropsNothing(g.members);
    assert ConsolidatedSheet(end, during, before).balanced <==> ConsolidatedSheet(end, during, before).residual == 0;
  }

  // --- an input -------------------------------------------------------------------------------------------

  /** Ten earned in the period, and an elimination of five of it against cash in every window. */
  function TenEarned(cash: Account, revenue: Account): Group {
    var elimination := [SignedEntry(revenue, 5), SignedEntry(cash, -5)];
    Group([Member("m", [Span(cash, 0, 10), Span(revenue, 0, -10)], Rates(RATE_MICRO, RATE_MICRO, RATE_MICRO, 0))],
          elimination, elimination, elimination)
  }

  lemma FourMerged(cash: Account, revenue: Account, x: int, y: int, z: int, w: int)
    requires cash.id != revenue.id
    ensures MergedLines([SignedEntry(cash, x), SignedEntry(revenue, y), SignedEntry(revenue, z), SignedEntry(cash, w)])
         == map[cash.id := SignedEntry(cash, x + w), revenue.id := SignedEntry(revenue, y + z)]
  {
    var four := [SignedEntry(cash, x), SignedEntry(revenue, y), SignedEntry(revenue, z), SignedEntry(cash, w)];
    var three, two, one := four[..3], four[..2], four[..1];
    assert three[..2] == two && two[..1] == one && one[..0] == [];
    assert MergedLines(one) == map[cash.id := SignedEntry(cash, x)];
    assert MergedLines(two) == map[cash.id := SignedEntry(cash, x), revenue.id := SignedEntry(revenue, y)];
    assert MergedLines(three) == map[cash.id := SignedEntry(cash, x), revenue.id := SignedEntry(revenue, y + z)];
  }

  lemma TenEarnedLines(cash: Account, revenue: Account, w: Which)
    requires cash.accountType == ASSET && revenue.accountType == REVENUE
    ensures var n := if w == BEFORE then 0 else 10;
            AllLines(TenEarned(cash, revenue), w)
            == [SignedEntry(cash, n), SignedEntry(revenue, -n), SignedEntry(revenue, 5), SignedEntry(cash, -5)]
  {
    var g, n := TenEarned(cash, revenue), if w == BEFORE then 0 else 10;
    var m, rates := g.members[0], g.members[0].rates;
    var tb := match w case BEFORE => Before(m.spans) case DURING => During(m.spans) case END => AtEnd(m.spans);
    assert tb == [SignedEntry(cash, n), SignedEntry(revenue, -n)];
    UnitRateChangesNothing(n);
    UnitRateChangesNothing(-n);
    assert TranslatedAll(tb, rates) == tb;
    assert Total(tb[..1]) == n && tb[..1][..0] == [];
    assert g.members[..0] == [] && GroupBooks(g.members, w) == [] + MemberBooks(m, w) == tb;
  }

  /** Five on each account, on these sides. */
  function Fives(cash: Account, revenue: Account, n: int): seq<SignedEntry> {
    [SignedEntry(cash, n), SignedEntry(revenue, -n)]
  }

  lemma FivesAreShown(cash: Account, revenue: Account, w: Which)
    requires cash.id != revenue.id && cash.accountType == ASSET && revenue.accountType == REVENUE
    ensures Shows(Fives(cash, revenue, if w == BEFORE then -5 else 5), TenEarned(cash, revenue), w)
  {
    var n := if w == BEFORE then 0 else 10;
    TenEarnedLines(cash, revenue, w);
    FourMerged(cash, revenue, n, -n, 5, -5);
    var m := MergedLines(AllLines(TenEarned(cash, revenue), w));
    var rows := Fives(cash, revenue, if w == BEFORE then -5 else 5);
    assert NonZero(m) == m;
    assert rows[0].account.id == cash.id && rows[1].account.id == revenue.id;
  }

  lemma FivesAgree(cash: Account, revenue: Account, w: Which, typeOf: AccountId -> AccountType)
    requires cash.accountType == ASSET == typeOf(cash.id) && revenue.accountType == REVENUE == typeOf(revenue.id)
    ensures Typed(AllLines(TenEarned(cash, revenue), w), typeOf)
  {
    var n := if w == BEFORE then 0 else 10;
    TenEarnedLines(cash, revenue, w);
    FourTyped([SignedEntry(cash, n), SignedEntry(revenue, -n), SignedEntry(revenue, 5), SignedEntry(cash, -5)],
              cash, revenue, typeOf);
  }

  lemma FourTyped(entries: seq<SignedEntry>, cash: Account, revenue: Account, typeOf: AccountId -> AccountType)
    requires forall i :: 0 <= i < |entries| ==> entries[i].account == cash || entries[i].account == revenue
    requires cash.accountType == typeOf(cash.id) && revenue.accountType == typeOf(revenue.id)
    ensures Typed(entries, typeOf)
  {
  }

  /** The consolidated sheet of these books is out by five. */
  lemma EliminatedIncomePutsTheSheetOut(cash: Account, revenue: Account)
    requires cash.id != revenue.id && cash.accountType == ASSET && revenue.accountType == REVENUE
    ensures var g, rows, none := TenEarned(cash, revenue), Fives(cash, revenue, 5), Fives(cash, revenue, -5);
            && Shows(rows, g, END) && Shows(rows, g, DURING) && Shows(none, g, BEFORE) && Total(g.end) == 0
            && ConsolidatedSheet(rows, rows, none).residual == 5
  {
    var g, rows, none := TenEarned(cash, revenue), Fives(cash, revenue, 5), Fives(cash, revenue, -5);
    var typeOf := (id: AccountId) => if id == cash.id then ASSET else REVENUE;
    FivesAreShown(cash, revenue, BEFORE);
    FivesAreShown(cash, revenue, DURING);
    FivesAreShown(cash, revenue, END);
    forall w ensures Typed(AllLines(g, w), typeOf) {
      FivesAgree(cash, revenue, w, typeOf);
    }
    FiveAreEliminated(cash, revenue);
    ManualEliminationsBalanceIff(g, rows, rows, none, typeOf);
  }

  lemma FiveAreEliminated(cash: Account, revenue: Account)
    requires cash.accountType == ASSET && revenue.accountType == REVENUE
    ensures Total(TenEarned(cash, revenue).end) == 0 && Earnings(TenEarned(cash, revenue).end) == 5
  {
    var two := TenEarned(cash, revenue).end;
    var one := two[..1];
    assert one[..0] == [];
    assert Total(one) == 5 && SignedOf(one, REVENUE) == 5 && SignedOf(one, EXPENSE) == 0;
  }
}
