/** When rounding shows: the exact CTA at one rate, and the exact residual of a translated balance sheet. */
module TranslationLaws {
  import opened Text
  import opened Ledger
  import opened Statements
  import opened StatementLaws
  import opened Consolidation

  /** What rounding drops from an amount at a rate, in millionths: from minus one half to just under one half. */
  function Dropped(n: int, rate: nat): int {
    var over := (Abs(n) * rate + HALF_MICRO) % RATE_MICRO - HALF_MICRO;
    if n < 0 then -over else over
  }

  lemma RoundingDrops(n: int, rate: nat)
    ensures TranslateAmount(n, rate) * RATE_MICRO == n * rate - Dropped(n, rate)
    ensures Dropped(-n, rate) == -Dropped(n, rate)
  {
    var x := Abs(n) * rate;
    assert n * rate == if n < 0 then -x else x;
    assert x + HALF_MICRO == (x + HALF_MICRO) / RATE_MICRO * RATE_MICRO + (x + HALF_MICRO) % RATE_MICRO;
    if n == 0 {
      assert x == 0;
    }
  }

  // --- the CTA -------------------------------------------------------------------------------------------

  function DroppedAll(tb: seq<SignedEntry>, rates: Rates): int {
    if tb == [] then 0
    else
      var last := tb[|tb| - 1];
      DroppedAll(tb[..|tb| - 1], rates) + Dropped(last.signed, RateOf(rates, last.account.accountType))
  }

  /** The translated lines add up to the exact three-rate products less what rounding dropped. */
  lemma {:induction false} TranslatedTotalIsExact(tb: seq<SignedEntry>, rates: Rates)
    ensures Total(TranslatedAll(tb, rates)) * RATE_MICRO == ExactMicro(tb, rates) - DroppedAll(tb, rates)
  {
    if tb != [] {
      var front, last := tb[..|tb| - 1], tb[|tb| - 1];
      assert TranslatedAll(tb, rates)[..|tb| - 1] == TranslatedAll(front, rates);
      TranslatedTotalIsExact(front, rates);
      RoundingDrops(last.signed, RateOf(rates, last.account.accountType));
    }
  }

  /** The exact products class by class: assets and liabilities at the closing rate, equity at its own, income at the average. */
  lemma {:induction false} ExactByClass(tb: seq<SignedEntry>, rates: Rates)
    ensures ExactMicro(tb, rates)
         == (SignedOf(tb, ASSET) + SignedOf(tb, LIABILITY)) * rates.currentMicro
          + SignedOf(tb, EQUITY) * rates.equityMicro
          + (SignedOf(tb, REVENUE) + SignedOf(tb, EXPENSE)) * rates.averageMicro
  {
    if tb != [] {
      var front, last := tb[..|tb| - 1], tb[|tb| - 1];
      ExactByClass(front, rates);
      var n := last.signed;
      Times(SignedOf(front, ASSET) + SignedOf(front, LIABILITY), n, rates.currentMicro);
      Times(SignedOf(front, EQUITY), n, rates.equityMicro);
      Times(SignedOf(front, REVENUE) + SignedOf(front, EXPENSE), n, rates.averageMicro);
      match last.account.accountType
      case ASSET =>
      case LIABILITY =>
      case EQUITY =>
      case REVENUE =>
      case EXPENSE =>
    }
  }

  lemma Times(a: int, b: int, c: int)
    ensures (a + b) * c == a * c + b * c
  {
  }

  /** So the CTA is within half a minor unit per line of what the three rates open between the classes. */
  lemma CtaIsTheRateGap(tb: seq<SignedEntry>, rates: Rates)
    ensures var gap := (SignedOf(tb, ASSET) + SignedOf(tb, LIABILITY)) * rates.currentMicro
                     + SignedOf(tb, EQUITY) * rates.equityMicro
                     + (SignedOf(tb, REVENUE) + SignedOf(tb, EXPENSE)) * rates.averageMicro;
            -HALF_MICRO * |tb| <= Total(TranslatedAll(tb, rates)) * RATE_MICRO - gap <= HALF_MICRO * |tb|
  {
    ExactByClass(tb, rates);
    CtaIsWithinHalfAUnitPerLine(tb, rates);
  }

  function OneRate(rate: nat, prior: int): Rates {
    Rates(rate, rate, rate, prior)
  }

  /** At one rate, zero-sum books carry no CTA exactly when what rounding drops line by line cancels. */
  lemma SingleRateCtaIsZeroIff(tb: seq<SignedEntry>, rate: nat, prior: int)
    requires Total(tb) == 0
    ensures Total(TranslatedAll(tb, OneRate(rate, prior))) == 0 <==> DroppedAll(tb, OneRate(rate, prior)) == 0
  {
    TranslatedTotalIsExact(tb, OneRate(rate, prior));
    OneRateIsOneProduct(tb, rate, prior);
    assert 0 * rate == 0;
  }

  /** Amounts the rate turns into whole minor units carry no CTA. */
  lemma {:induction false} WholeProductsDropNothing(tb: seq<SignedEntry>, rate: nat, prior: int)
    requires forall i :: 0 <= i < |tb| ==> tb[i].signed * rate % RATE_MICRO == 0
    ensures DroppedAll(tb, OneRate(rate, prior)) == 0
  {
    if tb != [] {
      WholeProductsDropNothing(tb[..|tb| - 1], rate, prior);
      WholeProductDropsNothing(tb[|tb| - 1].signed, rate);
    }
  }

  lemma WholeProductDropsNothing(n: int, rate: nat)
    requires n * rate % RATE_MICRO == 0
    ensures Dropped(n, rate) == 0
  {
    var x := Abs(n) * rate;
    assert n * rate == if n < 0 then -x else x;
  }

  /** The amounts of the lines, without their accounts. */
  function Amounts(tb: seq<SignedEntry>): (r: seq<int>)
    ensures |r| == |tb| && forall i :: 0 <= i < |r| ==> r[i] == tb[i].signed
  {
    seq(|tb|, i requires 0 <= i < |tb| => tb[i].signed)
  }

  /** Every amount occurs as often as its opposite. */
  ghost predicate Mirrored(s: seq<int>) {
    forall n :: multiset(s)[n] == multiset(s)[-n]
  }

  function SumOf(s: seq<int>, f: int -> int): int {
    if s == [] then 0 else SumOf(s[..|s| - 1], f) + f(s[|s| - 1])
  }

  lemma {:induction false} SumWithoutOne(s: seq<int>, f: int -> int, j: nat)
    requires j < |s|
    ensures SumOf(s, f) == SumOf(s[..j] + s[j + 1..], f) + f(s[j])
  {
    if j == |s| - 1 {
      assert s[..j] + s[j + 1..] == s[..|s| - 1];
    } else {
      var front, rest := s[..|s| - 1], s[..j] + s[j + 1..];
      assert rest[..|rest| - 1] == front[..j] + front[j + 1..];
      SumWithoutOne(front, f, j);
    }
  }

  lemma MirroredWithout(s: seq<int>, rest: seq<int>, twins: multiset<int>)
    requires Mirrored(s) && multiset(s) == multiset(rest) + twins && forall n :: twins[n] == twins[-n]
    ensures Mirrored(rest)
  {
    forall n ensures multiset(rest)[n] == multiset(rest)[-n] {
      assert multiset(s)[n] == multiset(s)[-n] && twins[n] == twins[-n];
    }
  }

  /** The opposite of the last amount, to be taken out with it. */
  lemma TwinOfLast(s: seq<int>) returns (j: nat)
    requires Mirrored(s) && s != [] && s[|s| - 1] != 0
    ensures j < |s| - 1 && s[j] == -s[|s| - 1]
  {
    var n := s[|s| - 1];
    assert multiset(s)[n] == multiset(s)[-n] && n in multiset(s);
    assert -n in multiset(s);
    j :| 0 <= j < |s| && s[j] == -n;
  }

  lemma WithoutTwins(s: seq<int>, j: nat, rest: seq<int>, n: int)
    requires j < |s| - 1 && s[j] == -n && s[|s| - 1] == n && rest == s[..j] + s[j + 1..|s| - 1]
    ensures multiset(s) == multiset(rest) + multiset{n, -n}
  {
    var a, b := s[..j], s[j + 1..|s| - 1];
    assert s == a + [-n] + b + [n];
    assert multiset(rest) == multiset(a) + multiset(b);
  }

  lemma {:induction false} OddSumVanishes(s: seq<int>, f: int -> int)
    requires Mirrored(s) && forall n :: f(-n) == -f(n)
    ensures SumOf(s, f) == 0
    decreases |s|
  {
    if s != [] {
      var front, n := s[..|s| - 1], s[|s| - 1];
      if n == 0 {
        assert f(-0) == -f(0) && s == front + [0];
        MirroredWithout(s, front, multiset{0});
        OddSumVanishes(front, f);
      } else {
        var j := TwinOfLast(s);
        assert front[..j] + front[j + 1..] == s[..j] + s[j + 1..|s| - 1];
        WithoutTwins(s, j, s[..j] + s[j + 1..|s| - 1], n);
        MirroredWithout(s, s[..j] + s[j + 1..|s| - 1], multiset{n, -n});
        SumWithoutOne(front, f, j);
        OddSumVanishes(front[..j] + front[j + 1..], f);
      }
    }
  }

  lemma {:induction false} TranslatedTotalIsSum(tb: seq<SignedEntry>, rate: nat, prior: int)
    ensures Total(TranslatedAll(tb, OneRate(rate, prior))) == SumOf(Amounts(tb), n => TranslateAmount(n, rate))
  {
    if tb != [] {
      var front, rates := tb[..|tb| - 1], OneRate(rate, prior);
      assert TranslatedAll(tb, rates)[..|tb| - 1] == TranslatedAll(front, rates);
      assert Amounts(tb)[..|tb| - 1] == Amounts(front);
      TranslatedTotalIsSum(front, rate, prior);
    }
  }

  /** At any one rate, books whose amounts pair off into opposites carry no CTA. */
  lemma PairedBooksCarryNoCta(tb: seq<SignedEntry>, rate: nat, prior: int)
    requires Mirrored(Amounts(tb))
    ensures Total(TranslatedAll(tb, OneRate(rate, prior))) == 0
  {
    var f := (n: int) => TranslateAmount(n, rate);
    forall n ensures f(-n) == -f(n) {
      TranslationIsNearest(n, rate);
    }
    OddSumVanishes(Amounts(tb), f);
    TranslatedTotalIsSum(tb, rate, prior);
  }

  /** And books in whole products carry none. */
  lemma WholeProductsCarryNoCta(tb: seq<SignedEntry>, rate: nat, prior: int)
    requires Total(tb) == 0 && forall i :: 0 <= i < |tb| ==> tb[i].signed * rate % RATE_MICRO == 0
    ensures Total(TranslatedAll(tb, OneRate(rate, prior))) == 0
  {
    WholeProductsDropNothing(tb, rate, prior);
    SingleRateCtaIsZeroIff(tb, rate, prior);
  }

  // --- the balance sheet of three translated windows -------------------------------------------------------

  /** One account over the three windows of a report: everything before it, the period, and both. */
  datatype Span = Span(account: Account, before: int, period: int)

  predicate IsEarnings(s: Span) {
    s.account.accountType == REVENUE || s.account.accountType == EXPENSE
  }

  function Before(spans: seq<Span>): (r: seq<SignedEntry>)
    ensures |r| == |spans| && forall i :: 0 <= i < |r| ==> r[i] == SignedEntry(spans[i].account, spans[i].before)
  {
    seq(|spans|, i requires 0 <= i < |spans| => SignedEntry(spans[i].account, spans[i].before))
  }

  function During(spans: seq<Span>): (r: seq<SignedEntry>)
    ensures |r| == |spans| && forall i :: 0 <= i < |r| ==> r[i] == SignedEntry(spans[i].account, spans[i].period)
  {
    seq(|spans|, i requires 0 <= i < |spans| => SignedEntry(spans[i].account, spans[i].period))
  }

  function AtEnd(spans: seq<Span>): (r: seq<SignedEntry>)
    ensures |r| == |spans|
    ensures forall i :: 0 <= i < |r| ==> r[i] == SignedEntry(spans[i].account, spans[i].before + spans[i].period)
  {
    seq(|spans|, i requires 0 <= i < |spans| => SignedEntry(spans[i].account, spans[i].before + spans[i].period))
  }

  function EarningsLines(spans: seq<Span>): int {
    if spans == [] then 0
    else EarningsLines(spans[..|spans| - 1]) + if IsEarnings(spans[|spans| - 1]) then 1 else 0
  }

  /** What rounding the revenue and expense lines three times drops unevenly, in millionths. */
  function UnevenlyDropped(spans: seq<Span>, rate: nat): int {
    if spans == [] then 0
    else
      var s := spans[|spans| - 1];
      UnevenlyDropped(spans[..|spans| - 1], rate)
      + if IsEarnings(s)
        then Dropped(s.before, rate) + Dropped(s.period, rate) - Dropped(s.before + s.period, rate)
        else 0
  }

  function Earnings(tb: seq<SignedEntry>): int {
    SignedOf(tb, REVENUE) + SignedOf(tb, EXPENSE)
  }

  /** Earnings of the end window less those of the other two, after translation. */
  function Gap(spans: seq<Span>, rates: Rates): int {
    Earnings(TranslatedAll(AtEnd(spans), rates)) - Earnings(TranslatedAll(During(spans), rates))
    - Earnings(TranslatedAll(Before(spans), rates))
  }

  lemma EarningsGrow(tb: seq<SignedEntry>, rates: Rates)
    requires tb != []
    ensures var last := tb[|tb| - 1];
            Earnings(TranslatedAll(tb, rates))
            == Earnings(TranslatedAll(tb[..|tb| - 1], rates))
             + if last.account.accountType == REVENUE || last.account.accountType == EXPENSE
               then TranslateAmount(last.signed, rates.averageMicro) else 0
  {
    assert TranslatedAll(tb, rates)[..|tb| - 1] == TranslatedAll(tb[..|tb| - 1], rates);
  }

  lemma GapGrows(spans: seq<Span>, rates: Rates)
    requires spans != []
    ensures var s, rate := spans[|spans| - 1], rates.averageMicro;
            Gap(spans, rates) == Gap(spans[..|spans| - 1], rates)
              + if IsEarnings(s)
                then TranslateAmount(s.before + s.period, rate) - TranslateAmount(s.period, rate) - TranslateAmount(s.before, rate)
                else 0
  {
    var front := spans[..|spans| - 1];
    assert AtEnd(spans)[..|spans| - 1] == AtEnd(front);
    assert During(spans)[..|spans| - 1] == During(front);
    assert Before(spans)[..|spans| - 1] == Before(front);
    EarningsGrow(AtEnd(spans), rates);
    EarningsGrow(During(spans), rates);
    EarningsGrow(Before(spans), rates);
  }

  /** Only revenue and expense lines open a gap, each of at most one minor unit. */
  lemma {:induction false} GapIsWhatRoundingDrops(spans: seq<Span>, rates: Rates)
    ensures Gap(spans, rates) * RATE_MICRO == UnevenlyDropped(spans, rates.averageMicro)
    ensures -EarningsLines(spans) <= Gap(spans, rates) <= EarningsLines(spans)
  {
    if spans != [] {
      GapIsWhatRoundingDrops(spans[..|spans| - 1], rates);
      GapGrows(spans, rates);
      SpanGap(spans[|spans| - 1], rates.averageMicro);
    }
  }

  lemma SpanGap(s: Span, rate: nat)
    ensures var gap := TranslateAmount(s.before + s.period, rate) - TranslateAmount(s.period, rate) - TranslateAmount(s.before, rate);
            && -1 <= gap <= 1
            && gap * RATE_MICRO == Dropped(s.before, rate) + Dropped(s.period, rate) - Dropped(s.before + s.period, rate)
  {
    var b, p := s.before, s.period;
    TranslationIsNearlyAdditive(b, p, rate);
    ProductsAdd(b, p, rate);
    DropsAdd(b, p, b * rate, p * rate, rate);
  }

  lemma ProductsAdd(a: int, b: int, rate: nat)
    ensures (a + b) * rate == a * rate + b * rate
  {
  }

  lemma DropsAdd(a: int, b: int, x: int, y: int, rate: nat)
    requires x == a * rate && y == b * rate && x + y == (a + b) * rate
    ensures (TranslateAmount(a + b, rate) - TranslateAmount(b, rate) - TranslateAmount(a, rate)) * RATE_MICRO
         == Dropped(a, rate) + Dropped(b, rate) - Dropped(a + b, rate)
  {
    RoundingDrops(a, rate);
    RoundingDrops(b, rate);
    RoundingDrops(a + b, rate);
    Distributes(TranslateAmount(a + b, rate), TranslateAmount(b, rate), TranslateAmount(a, rate));
  }

  lemma Distributes(a: int, b: int, c: int)
    ensures (a - b - c) * RATE_MICRO == a * RATE_MICRO - b * RATE_MICRO - c * RATE_MICRO
  {
  }

  lemma CtaEarnsNothing(tb: seq<SignedEntry>, entityId: string)
    ensures Earnings(WithCta(tb, entityId)) == Earnings(tb)
  {
    var cta := SignedEntry(CtaAccount(entityId), -Total(tb));
    assert (tb + [cta])[..|tb|] == tb;
  }

  function NetIncome(spans: seq<SignedEntry>, entityId: string, rates: Rates): int {
    IncomeStatement(WithCta(TranslatedAll(spans, rates), entityId)).netIncome
  }

  /** The translated balance sheet of a report, with the income of its three windows as the service feeds it. */
  function TranslatedSheet(spans: seq<Span>, entityId: string, rates: Rates): BalanceSheet {
    BalanceSheetOf(WithCta(TranslatedAll(AtEnd(spans), rates), entityId),
                   NetIncome(During(spans), entityId, rates), NetIncome(Before(spans), entityId, rates))
  }

  lemma ResidualIsGap(spans: seq<Span>, entityId: string, rates: Rates)
    ensures TranslatedSheet(spans, entityId, rates).residual == -Gap(spans, rates)
  {
    var end := WithCta(TranslatedAll(AtEnd(spans), rates), entityId);
    TranslatedSheetFoots(AtEnd(spans), entityId, rates);
    SheetIsOutByIncome(end, NetIncome(During(spans), entityId, rates), NetIncome(Before(spans), entityId, rates));
    NetIncomeIsTranslated(AtEnd(spans), entityId, rates);
    NetIncomeIsTranslated(During(spans), entityId, rates);
    NetIncomeIsTranslated(Before(spans), entityId, rates);
  }

  /**
   * Whatever the books and the rates, a translated balance sheet is out by at most one minor unit per revenue
   * or expense line, and balances exactly when what rounding those lines drops is dropped evenly: as much from
   * the end window as from the other two.
   */
  lemma TranslatedSheetBalancesIff(spans: seq<Span>, entityId: string, rates: Rates)
    ensures var residual := TranslatedSheet(spans, entityId, rates).residual;
            && -EarningsLines(spans) <= residual <= EarningsLines(spans)
            && residual * RATE_MICRO == -UnevenlyDropped(spans, rates.averageMicro)
    ensures TranslatedSheet(spans, entityId, rates).balanced <==> UnevenlyDropped(spans, rates.averageMicro) == 0
  {
    ResidualIsGap(spans, entityId, rates);
    GapIsWhatRoundingDrops(spans, rates);
    assert TranslatedSheet(spans, entityId, rates).balanced <==> TranslatedSheet(spans, entityId, rates).residual == 0;
  }

  lemma NetIncomeIsTranslated(tb: seq<SignedEntry>, entityId: string, rates: Rates)
    ensures NetIncome(tb, entityId, rates) == -Earnings(TranslatedAll(tb, rates))
  {
    NetIncomeIsEarnings(WithCta(TranslatedAll(tb, rates), entityId));
    CtaEarnsNothing(TranslatedAll(tb, rates), entityId);
  }
}
