/**
 * Currency translation and multi-entity consolidation (ledger-service consolidation.ts,
 * financial-statements consolidation.ts).
 */
module Consolidation {
  import opened Text
  import opened Sums
  import opened Ledger
  import opened Statements
  import opened StatementLaws

  // --- translateAmount -----------------------------------------------------------------------------------

  const RATE_MICRO := 1_000_000
  const HALF_MICRO := 500_000

  /** A signed amount at a rate held in millionths, rounded half away from zero. */
  function TranslateAmount(signedMinor: int, rateMicro: nat): int {
    var rounded := (Abs(signedMinor) * rateMicro + HALF_MICRO) / RATE_MICRO;
    if signedMinor < 0 then -rounded else rounded
  }

  /** The translation is within half a minor unit of the exact product, and odd in the amount. */
  lemma TranslationIsNearest(n: int, rate: nat)
    ensures -HALF_MICRO <= TranslateAmount(n, rate) * RATE_MICRO - n * rate <= HALF_MICRO
    ensures TranslateAmount(-n, rate) == -TranslateAmount(n, rate)
  {
    var x := Abs(n) * rate;
    assert n * rate == if n < 0 then -x else x;
    assert (-n) * rate == -(n * rate);
    if n == 0 {
      assert x == 0;
    }
  }

  /** Translating a sum and summing translations agree to within one minor unit. */
  lemma TranslationIsNearlyAdditive(a: int, b: int, rate: nat)
    ensures -1 <= TranslateAmount(a + b, rate) - TranslateAmount(a, rate) - TranslateAmount(b, rate) <= 1
  {
    TranslationIsNearest(a, rate);
    TranslationIsNearest(b, rate);
    TranslationIsNearest(a + b, rate);
    assert (a + b) * rate == a * rate + b * rate;
  }

  lemma UnitRateChangesNothing(n: int)
    ensures TranslateAmount(n, RATE_MICRO) == n
  {
    TranslationIsNearest(n, RATE_MICRO);
  }

  // --- translateTrialBalance ----------------------------------------------------------------------------------

  datatype RateClass = CURRENT | HISTORICAL | AVERAGE

  datatype Rates = Rates(currentMicro: nat, equityMicro: nat, averageMicro: nat, priorCta: int)

  datatype LineAudit = LineAudit(accountId: AccountId, rateClass: RateClass, rateMicro: nat)

  datatype Translation = Translation(tb: seq<SignedEntry>, audit: seq<LineAudit>, cumulativeCta: int, currentPeriodCta: int)

  function ClassOf(t: AccountType): RateClass {
    if t == EQUITY then HISTORICAL else if t == REVENUE || t == EXPENSE then AVERAGE else CURRENT
  }

  function RateOf(rates: Rates, t: AccountType): nat {
    match ClassOf(t)
    case HISTORICAL => rates.equityMicro
    case AVERAGE => rates.averageMicro
    case CURRENT => rates.currentMicro
  }

  function Translated(e: SignedEntry, rates: Rates): SignedEntry {
    e.(signed := TranslateAmount(e.signed, RateOf(rates, e.account.accountType)))
  }

  function TranslatedAll(tb: seq<SignedEntry>, rates: Rates): (r: seq<SignedEntry>)
    ensures |r| == |tb| && forall i :: 0 <= i < |r| ==> r[i] == Translated(tb[i], rates)
  {
    seq(|tb|, i requires 0 <= i < |tb| => Translated(tb[i], rates))
  }

  function Total(tb: seq<SignedEntry>): int {
    if tb == [] then 0 else Total(tb[..|tb| - 1]) + tb[|tb| - 1].signed
  }

  const CTA_ID_PREFIX := "__cta__:"

  function CtaAccount(entityId: string): Account {
    Account(CTA_ID_PREFIX + entityId, "3990", "Cumulative translation adjustment", EQUITY, "", None, None, true, RGNR8)
  }

  /** The translated lines, and a CTA line when they leave a gap. */
  function WithCta(entries: seq<SignedEntry>, entityId: string): seq<SignedEntry> {
    if Total(entries) == 0 then entries else entries + [SignedEntry(CtaAccount(entityId), -Total(entries))]
  }

  method TranslateTrialBalance(tb: seq<SignedEntry>, entityId: string, rates: Rates) returns (r: Translation)
    ensures r.tb == WithCta(TranslatedAll(tb, rates), entityId)
    ensures r.cumulativeCta == -Total(TranslatedAll(tb, rates)) && r.currentPeriodCta == r.cumulativeCta - rates.priorCta
    ensures |r.audit| == |tb| && forall i :: 0 <= i < |tb| ==>
              var t := tb[i].account.accountType;
              r.audit[i] == LineAudit(tb[i].account.id, ClassOf(t), RateOf(rates, t))
  {
    var entries: seq<SignedEntry> := [];
    var audit: seq<LineAudit> := [];
    var residual := 0;
    for i := 0 to |tb|
      invariant entries == TranslatedAll(tb, rates)[..i] && residual == Total(entries)
      invariant |audit| == i && forall j :: 0 <= j < i ==>
                  var t := tb[j].account.accountType;
                  audit[j] == LineAudit(tb[j].account.id, ClassOf(t), RateOf(rates, t))
    {
      var t := tb[i].account.accountType;
      audit := audit + [LineAudit(tb[i].account.id, ClassOf(t), RateOf(rates, t))];
      var entry := Translated(tb[i], rates);
      assert (entries + [entry])[..i] == entries;
      entries := entries + [entry];
      residual := residual + entry.signed;
      assert entries == TranslatedAll(tb, rates)[..i + 1];
    }
    assert entries == TranslatedAll(tb, rates);
    var cumulative := -residual;
    if residual != 0 {
      entries := entries + [SignedEntry(CtaAccount(entityId), cumulative)];
    }
    r := Translation(entries, audit, cumulative, cumulative - rates.priorCta);
  }

  /** Whatever the rates, the translated sheet with its CTA line foots to zero. */
  lemma TranslatedSheetFoots(tb: seq<SignedEntry>, entityId: string, rates: Rates)
    ensures Total(WithCta(TranslatedAll(tb, rates), entityId)) == 0
  {
    var entries := TranslatedAll(tb, rates);
    if Total(entries) != 0 {
      var cta := SignedEntry(CtaAccount(entityId), -Total(entries));
      assert (entries + [cta])[..|entries|] == entries;
    }
  }

  /** The untranslated amounts times their class rates: what exact arithmetic would give, in millionths. */
  function ExactMicro(tb: seq<SignedEntry>, rates: Rates): int {
    if tb == [] then 0
    else
      var last := tb[|tb| - 1];
      ExactMicro(tb[..|tb| - 1], rates) + last.signed * RateOf(rates, last.account.accountType)
  }

  /** The CTA is within half a minor unit per line of the exact gap the three rates open. */
  lemma {:induction false} CtaIsWithinHalfAUnitPerLine(tb: seq<SignedEntry>, rates: Rates)
    ensures var gap := Total(TranslatedAll(tb, rates)) * RATE_MICRO - ExactMicro(tb, rates);
            -HALF_MICRO * |tb| <= gap <= HALF_MICRO * |tb|
  {
    if tb != [] {
      var front, last := tb[..|tb| - 1], tb[|tb| - 1];
      assert TranslatedAll(tb, rates)[..|tb| - 1] == TranslatedAll(front, rates);
      CtaIsWithinHalfAUnitPerLine(front, rates);
      TranslationIsNearest(last.signed, RateOf(rates, last.account.accountType));
    }
  }

  lemma {:induction false} OneRateIsOneProduct(tb: seq<SignedEntry>, rate: nat, prior: int)
    ensures ExactMicro(tb, Rates(rate, rate, rate, prior)) == Total(tb) * rate
  {
    if tb != [] {
      OneRateIsOneProduct(tb[..|tb| - 1], rate, prior);
      var front, last := Total(tb[..|tb| - 1]), tb[|tb| - 1].signed;
      assert (front + last) * rate == front * rate + last * rate;
    }
  }

  /** At a single rate, books that sum to zero carry a CTA of at most half a minor unit per line. */
  lemma SingleRateCtaIsRounding(tb: seq<SignedEntry>, rate: nat, prior: int)
    requires Total(tb) == 0
    ensures -|tb| <= 2 * Total(TranslatedAll(tb, Rates(rate, rate, rate, prior))) <= |tb|
  {
    var rates := Rates(rate, rate, rate, prior);
    CtaIsWithinHalfAUnitPerLine(tb, rates);
    OneRateIsOneProduct(tb, rate, prior);
    assert 0 * rate == 0;
  }

  /** And it need not be zero: three lines at a rate of one half. */
  lemma SingleRateCtaNeedNotBeZero(a: Account)
    ensures var tb := [SignedEntry(a, 1), SignedEntry(a, 1), SignedEntry(a, -2)];
            Total(tb) == 0 && Total(TranslatedAll(tb, Rates(500_000, 500_000, 500_000, 0))) == 1
  {
    var tb := [SignedEntry(a, 1), SignedEntry(a, 1), SignedEntry(a, -2)];
    ThreeLineTotal(tb);
    var half := Rates(500_000, 500_000, 500_000, 0);
    assert RateOf(half, a.accountType) == 500_000;
    ThreeLineTotal(TranslatedAll(tb, half));
  }

  lemma ThreeLineTotal(tb: seq<SignedEntry>)
    requires |tb| == 3
    ensures Total(tb) == tb[0].signed + tb[1].signed + tb[2].signed
  {
    var two := tb[..2];
    var one := two[..1];
    assert one[..0] == [];
    assert Total(one) == tb[0].signed && Total(two) == Total(one) + tb[1].signed;
  }

  /** At the unit rate nothing changes and books that sum to zero carry no CTA. */
  lemma {:induction false} UnitRatesChangeNothing(tb: seq<SignedEntry>, entityId: string, prior: int)
    requires Total(tb) == 0
    ensures WithCta(TranslatedAll(tb, Rates(RATE_MICRO, RATE_MICRO, RATE_MICRO, prior)), entityId) == tb
  {
    var rates := Rates(RATE_MICRO, RATE_MICRO, RATE_MICRO, prior);
    forall i | 0 <= i < |tb| ensures TranslatedAll(tb, rates)[i] == tb[i] {
      UnitRateChangesNothing(tb[i].signed);
    }
    assert TranslatedAll(tb, rates) == tb;
  }

  // --- consolidateTrialBalances -------------------------------------------------------------------------------------

  datatype EntityBalance = EntityBalance(entityId: string, currency: string, tb: seq<SignedEntry>)

  datatype ConsolidationError = NoEntities | CurrencyDiffers(entityId: string) | UnbalancedEliminations(net: int)

  type Merged = map<AccountId, SignedEntry>

  /** Zero rows are dropped; the rows are shown by code elsewhere. */
  datatype Consolidated = Consolidated(consolidated: Merged, combined: Merged, balanced: bool)

  function NetOf(entries: seq<SignedEntry>, id: AccountId): int {
    if entries == [] then 0
    else
      var last := entries[|entries| - 1];
      NetOf(entries[..|entries| - 1], id) + if last.account.id == id then last.signed else 0
  }

  function AllEntries(entities: seq<EntityBalance>): seq<SignedEntry> {
    if entities == [] then [] else AllEntries(entities[..|entities| - 1]) + entities[|entities| - 1].tb
  }

  /** The entries merged one by one; the first of an account names it. */
  function MergedLines(entries: seq<SignedEntry>): Merged {
    if entries == [] then map[] else MergeSigned(MergedLines(entries[..|entries| - 1]), entries[|entries| - 1])
  }

  ghost predicate MergeOf(m: Merged, entries: seq<SignedEntry>) {
    && m == MergedLines(entries)
    && (forall e :: e in entries ==> e.account.id in m)
    && (forall id :: id in m ==> m[id].signed == NetOf(entries, id))
    && (forall id :: id !in m ==> NetOf(entries, id) == 0)
    && SumsTo(m, Total(entries))
  }

  ghost function SignedValues(m: Merged): map<AccountId, int> {
    map id | id in m :: m[id].signed
  }

  ghost predicate SumsTo(m: Merged, total: int) {
    Sum(SignedValues(m)) == total
  }

  function MergeSigned(m: Merged, e: SignedEntry): Merged {
    if e.account.id in m then m[e.account.id := m[e.account.id].(signed := m[e.account.id].signed + e.signed)]
    else m[e.account.id := e]
  }

  lemma OneMoreMerged(m: Merged, entries: seq<SignedEntry>, e: SignedEntry)
    requires MergeOf(m, entries)
    ensures MergeOf(MergeSigned(m, e), entries + [e])
  {
    var m' := MergeSigned(m, e);
    assert (entries + [e])[..|entries|] == entries;
    assert SignedValues(m') == SignedValues(m)[e.account.id := m'[e.account.id].signed];
    SumAfterUpdate(SignedValues(m), e.account.id, m'[e.account.id].signed);
  }

  lemma NextMerged(m: Merged, before: seq<SignedEntry>, entries: seq<SignedEntry>, i: nat)
    requires i < |entries| && MergeOf(m, before + entries[..i])
    ensures MergeOf(MergeSigned(m, entries[i]), before + entries[..i + 1])
  {
    OneMoreMerged(m, before + entries[..i], entries[i]);
    assert before + entries[..i] + [entries[i]] == before + entries[..i + 1];
  }

  method MergeAll(start: Merged, ghost before: seq<SignedEntry>, entries: seq<SignedEntry>) returns (m: Merged)
    requires MergeOf(start, before)
    ensures MergeOf(m, before + entries)
  {
    m := start;
    assert before + entries[..0] == before;
    for i := 0 to |entries|
      invariant MergeOf(m, before + entries[..i])
    {
      NextMerged(m, before, entries, i);
      m := MergeSigned(m, entries[i]);
    }
    assert entries[..|entries|] == entries;
  }

  function NonZero(m: Merged): Merged {
    map id | id in m && m[id].signed != 0 :: m[id]
  }

  function SignedIn(m: Merged, id: AccountId): int {
    if id in m then m[id].signed else 0
  }

  lemma MergeAnswers(m: Merged, entries: seq<SignedEntry>)
    requires MergeOf(m, entries)
    ensures NonZero(m) == NonZero(MergedLines(entries))
    ensures forall id :: SignedIn(NonZero(m), id) == NetOf(entries, id)
  {
  }

  lemma {:induction false} NonZeroSumsAlike(m: Merged)
    ensures Sum(SignedValues(NonZero(m))) == Sum(SignedValues(m))
    decreases |m|
  {
    if forall id :: id in m ==> m[id].signed != 0 {
      assert NonZero(m) == m;
    } else {
      var id :| id in m && m[id].signed == 0;
      assert NonZero(m - {id}) == NonZero(m);
      assert |(m - {id}).Keys| < |m.Keys|;
      NonZeroSumsAlike(m - {id});
      SumTakesAnyKey(SignedValues(m), id);
      assert SignedValues(m) - {id} == SignedValues(m - {id});
    }
  }

  method SumOfRows(m: Merged) returns (sum: int)
    ensures sum == Sum(SignedValues(m))
  {
    sum := 0;
    var todo := m.Keys;
    ghost var done: set<AccountId> := {};
    assert (map id | id in done && id in m :: m[id].signed) == map[];
    while todo != {}
      invariant todo !! done && todo + done == m.Keys
      invariant sum == Sum(map id | id in done && id in m :: m[id].signed)
      decreases todo
    {
      var id :| id in todo;
      ghost var before := map k | k in done && k in m :: m[k].signed;
      assert (map k | k in done + {id} && k in m :: m[k].signed) == before[id := m[id].signed];
      SumAfterUpdate(before, id, m[id].signed);
      sum := sum + m[id].signed;
      todo, done := todo - {id}, done + {id};
    }
    assert (map id | id in done && id in m :: m[id].signed) == SignedValues(m);
  }

  method ConsolidateTrialBalances(entities: seq<EntityBalance>, eliminations: seq<SignedEntry>)
    returns (r: Result<Consolidated, ConsolidationError>)
    ensures r.Ok? <==>
      && entities != [] && (forall e :: e in entities ==> e.currency == entities[0].currency) && Total(eliminations) == 0
    ensures r.Ok? ==> forall id ::
      && SignedIn(r.value.combined, id) == NetOf(AllEntries(entities), id)
      && SignedIn(r.value.consolidated, id) == NetOf(AllEntries(entities) + eliminations, id)
    ensures r.Ok? ==> r.value.consolidated == NonZero(MergedLines(AllEntries(entities) + eliminations))
    ensures r.Ok? ==> forall id :: id in r.value.consolidated ==> r.value.consolidated[id].signed != 0
    ensures r.Ok? ==> (r.value.balanced <==> Total(AllEntries(entities)) == 0)
  {
    if entities == [] {
      return Err(NoEntities);
    }
    var stray := FirstStray(entities);
    if stray.Some? {
      return Err(CurrencyDiffers(stray.value));
    }
    var m := Combine(entities);
    var net := TotalOf(eliminations);
    if net != 0 {
      return Err(UnbalancedEliminations(net));
    }
    var all := MergeAll(m, AllEntries(entities), eliminations);
    TotalAppends(AllEntries(entities), eliminations);
    MergeAnswers(m, AllEntries(entities));
    MergeAnswers(all, AllEntries(entities) + eliminations);
    NonZeroSumsAlike(all);
    var sum := SumOfRows(NonZero(all));
    return Ok(Consolidated(NonZero(all), NonZero(m), sum == 0));
  }

  /** The first entity whose currency is not the group's. */
  method FirstStray(entities: seq<EntityBalance>) returns (r: Option<string>)
    requires entities != []
    ensures r.None? <==> forall e :: e in entities ==> e.currency == entities[0].currency
  {
    for i := 0 to |entities|
      invariant forall j :: 0 <= j < i ==> entities[j].currency == entities[0].currency
    {
      if entities[i].currency != entities[0].currency {
        assert entities[i] in entities;
        return Some(entities[i].entityId);
      }
    }
    return None;
  }

  method Combine(entities: seq<EntityBalance>) returns (m: Merged)
    ensures MergeOf(m, AllEntries(entities))
  {
    m := map[];
    NothingMerged();
    for i := 0 to |entities|
      invariant MergeOf(m, AllEntries(entities[..i]))
    {
      assert entities[..i + 1][..i] == entities[..i];
      m := MergeAll(m, AllEntries(entities[..i]), entities[i].tb);
    }
    assert entities[..|entities|] == entities;
  }

  method TotalOf(entries: seq<SignedEntry>) returns (net: int)
    ensures net == Total(entries)
  {
    net := 0;
    for i := 0 to |entries|
      invariant net == Total(entries[..i])
    {
      assert entries[..i + 1][..i] == entries[..i];
      net := net + entries[i].signed;
    }
    assert entries[..|entries|] == entries;
  }

  lemma NothingMerged()
    ensures MergeOf(map[], [])
  {
    assert SignedValues(map[]) == map[];
  }

  lemma {:induction false} TotalAppends(a: seq<SignedEntry>, b: seq<SignedEntry>)
    ensures Total(a + b) == Total(a) + Total(b)
  {
    if b == [] {
      assert a + b == a;
    } else {
      assert (a + b)[..|a + b| - 1] == a + b[..|b| - 1];
      TotalAppends(a, b[..|b| - 1]);
    }
  }

  /** Entities whose books sum to zero make a group whose books do: `balanced` is never false for them. */
  lemma {:induction false} SoundEntitiesMakeASoundGroup(entities: seq<EntityBalance>)
    requires forall e :: e in entities ==> Total(e.tb) == 0
    ensures Total(AllEntries(entities)) == 0
  {
    if entities != [] {
      assert entities[|entities| - 1] in entities;
      SoundEntitiesMakeASoundGroup(entities[..|entities| - 1]);
      TotalAppends(AllEntries(entities[..|entities| - 1]), entities[|entities| - 1].tb);
    }
  }

  // --- the group's balance sheet -----------------------------------------------------------------------------------

  /** On any sheet that foots, the residual is the income the windows lose between them. */
  lemma SheetIsOutByIncome(end: seq<SignedEntry>, netIncome: int, beginningRetained: int)
    requires Total(end) == 0
    ensures BalanceSheetOf(end, netIncome, beginningRetained).residual
         == IncomeStatement(end).netIncome - netIncome - beginningRetained
  {
    FiveClasses(end);
    CogsSplit(OfClass(end, EXPENSE));
  }

  lemma {:induction false} FiveClasses(tb: seq<SignedEntry>)
    ensures SumNatural(OfClass(tb, ASSET)) + SumNatural(OfClass(tb, EXPENSE)) - SumNatural(OfClass(tb, LIABILITY))
          - SumNatural(OfClass(tb, EQUITY)) - SumNatural(OfClass(tb, REVENUE)) == Total(tb)
  {
    if tb != [] {
      var front, last := tb[..|tb| - 1], tb[|tb| - 1];
      FiveClasses(front);
      OneMoreOfClass(tb, ASSET);
      OneMoreOfClass(tb, EXPENSE);
      OneMoreOfClass(tb, LIABILITY);
      OneMoreOfClass(tb, EQUITY);
      OneMoreOfClass(tb, REVENUE);
    }
  }

  lemma OneMoreOfClass(tb: seq<SignedEntry>, t: AccountType)
    requires tb != []
    ensures var last := tb[|tb| - 1];
            SumNatural(OfClass(tb, t)) == SumNatural(OfClass(tb[..|tb| - 1], t))
              + if last.account.accountType == t then NaturalAmount(last) else 0
  {
    var front, last := OfClass(tb[..|tb| - 1], t), tb[|tb| - 1];
    assert (front + [last])[..|front|] == front;
  }

  /**
   * A translated sheet can be out of balance by rounding alone: income of one unit before the window and
   * one inside it, at a rate of one half, is rounded three times and loses a unit.
   */
  lemma TranslatedSheetMayNotBalance(revenue: Account, cash: Account, entityId: string)
    requires revenue.accountType == REVENUE && cash.accountType == ASSET
    ensures var half := Rates(500_000, 500_000, 500_000, 0);
            var earned := (n: int) => WithCta(TranslatedAll([SignedEntry(cash, n), SignedEntry(revenue, -n)], half), entityId);
            BalanceSheetOf(earned(2), IncomeStatement(earned(1)).netIncome, IncomeStatement(earned(1)).netIncome).residual == -1
  {
    EarnedAtHalf(revenue, cash, entityId, 1);
    EarnedAtHalf(revenue, cash, entityId, 2);
    var end := WithCta(TranslatedAll([SignedEntry(cash, 2), SignedEntry(revenue, -2)], Rates(500_000, 500_000, 500_000, 0)), entityId);
    SheetIsOutByIncome(end, 1, 1);
  }

  lemma EarnedAtHalf(revenue: Account, cash: Account, entityId: string, n: int)
    requires revenue.accountType == REVENUE && cash.accountType == ASSET && 1 <= n <= 2
    ensures var tb := WithCta(TranslatedAll([SignedEntry(cash, n), SignedEntry(revenue, -n)], Rates(500_000, 500_000, 500_000, 0)), entityId);
            Total(tb) == 0 && IncomeStatement(tb).netIncome == 1
  {
    var half := Rates(500_000, 500_000, 500_000, 0);
    var entries := TranslatedAll([SignedEntry(cash, n), SignedEntry(revenue, -n)], half);
    assert entries == [SignedEntry(cash, 1), SignedEntry(revenue, -1)];
    TwoLines(cash, revenue);
  }

  lemma TwoLines(cash: Account, revenue: Account)
    requires revenue.accountType == REVENUE && cash.accountType == ASSET
    ensures var tb := [SignedEntry(cash, 1), SignedEntry(revenue, -1)];
            Total(tb) == 0 && IncomeStatement(tb).netIncome == 1
  {
    var tb := [SignedEntry(cash, 1), SignedEntry(revenue, -1)];
    var one := tb[..1];
    assert one[..0] == [];
    assert Total(one) == 1 && Total(tb) == 0;
    assert SignedOf(one, REVENUE) == 0 && SignedOf(one, EXPENSE) == 0;
    assert SignedOf(tb, REVENUE) == -1 && SignedOf(tb, EXPENSE) == 0;
    NetIncomeIsEarnings(tb);
  }
}
