/** What the go-live chart holds, account by account (ledger-kernel goLive.ts). */
module ConversionEffects {
  import opened Text
  import opened Dates
  import opened Ledger
  import opened Chart
  import opened Conversion

  ghost predicate Listed(sources: seq<SourceAccount>, code: string) {
    exists i :: 0 <= i < |sources| && sources[i].code == code
  }

  /** A template account after the sources were brought over: marked when one of them from QuickBooks has its code. */
  ghost function MarkedAs(a: Account, sources: seq<SourceAccount>, origin: Origin): Account {
    if origin == QUICKBOOKS && Listed(sources, a.code) then a.(origin := QUICKBOOKS) else a
  }

  /** An account made for a source: its number, name and kind, a root, active, in the client's currency. */
  ghost predicate MadeFor(a: Account, s: SourceAccount, currency: string, origin: Origin) {
    && a.id == "acct:" + s.code && a.code == s.code && a.name == s.name && a.subtype == s.subtype
    && (s.subtype.Some? ==> a.accountType == TypeOfSubtype(s.subtype.value))
    && (s.subtype.None? ==> s.accountType == Some(a.accountType))
    && a.currency == currency && a.parentId.None? && a.active && a.origin == origin
  }

  ghost predicate MadeForOne(a: Account, sources: seq<SourceAccount>, currency: string, origin: Origin) {
    exists i :: 0 <= i < |sources| && MadeFor(a, sources[i], currency, origin)
  }

  /** The template's accounts, marked, and then one account for each other code among the sources. */
  ghost predicate BroughtAll(template: seq<Account>, after: seq<Account>, sources: seq<SourceAccount>, currency: string,
                             origin: Origin)
  {
    && |template| <= |after| && PlainList(after, currency)
    && (forall i :: 0 <= i < |template| ==> after[i] == MarkedAs(template[i], sources, origin))
    && (forall k :: |template| <= k < |after| ==> MadeForOne(after[k], sources, currency, origin))
    && (forall i :: 0 <= i < |sources| ==> HasCode(after, sources[i].code))
  }

  lemma IndexOfPlain(accounts: seq<Account>, currency: string, i: nat)
    requires PlainList(accounts, currency) && i < |accounts|
    ensures IndexOfCode(accounts, accounts[i].code) == i
  {
  }

  lemma OneMoreBrought(template: seq<Account>, b: Building, sources: seq<SourceAccount>, s: SourceAccount, currency: string,
                       origin: Origin)
    requires BroughtAll(template, b.accounts, sources, currency, origin) && WithSource(b, s, currency, origin).Ok?
    ensures BroughtAll(template, WithSource(b, s, currency, origin).value.accounts, sources + [s], currency, origin)
  {
    var after, more := WithSource(b, s, currency, origin).value.accounts, sources + [s];
    SourceStaysPlain(b, s, currency, origin);
    forall code ensures Listed(more, code) <==> Listed(sources, code) || code == s.code {
      ListedMore(sources, s, code);
    }
    forall i | 0 <= i < |template| ensures after[i] == MarkedAs(template[i], more, origin) {
      if b.accounts[i].code == s.code {
        IndexOfPlain(b.accounts, currency, i);
      }
    }
    forall k | |template| <= k < |after| ensures MadeForOne(after[k], more, currency, origin) {
      if k < |b.accounts| {
        var i :| 0 <= i < |sources| && MadeFor(b.accounts[k], sources[i], currency, origin);
        assert more[i] == sources[i] && MadeFor(after[k], more[i], currency, origin);
      } else {
        assert MadeFor(after[k], more[|sources|], currency, origin);
      }
    }
    forall i | 0 <= i < |more| ensures HasCode(after, more[i].code) {
      assert i < |sources| ==> HasCode(b.accounts, sources[i].code);
    }
  }

  lemma ListedMore(sources: seq<SourceAccount>, s: SourceAccount, code: string)
    ensures Listed(sources + [s], code) <==> Listed(sources, code) || code == s.code
  {
    var more := sources + [s];
    if Listed(sources, code) {
      var i :| 0 <= i < |sources| && sources[i].code == code;
      assert more[i].code == code;
    }
    if code == s.code {
      assert more[|sources|].code == code;
    }
  }

  lemma {:induction false} AllBrought(template: seq<Account>, sources: seq<SourceAccount>, currency: string, origin: Origin)
    requires PlainList(template, currency) && WithSources(Building(template, []), sources, currency, origin).Ok?
    ensures BroughtAll(template, WithSources(Building(template, []), sources, currency, origin).value.accounts, sources,
                       currency, origin)
  {
    if sources != [] {
      var front, last := sources[..|sources| - 1], sources[|sources| - 1];
      AllBrought(template, front, currency, origin);
      OneMoreBrought(template, WithSources(Building(template, []), front, currency, origin).value, front, last, currency, origin);
      assert sources == front + [last];
    }
  }

  /** What `GoLiveAccounts` adds to the brought accounts: nothing, or an opening equity account at the end. */
  lemma EquityIsEnsured(b: Building, r: GoLiveRequest)
    ensures var accounts := (if IndexOfCode(b.accounts, r.equityCode) < |b.accounts| then b
                             else Added(b, EquityAccount(r.equityCode, r.currency))).accounts;
            && b.accounts <= accounts && HasCode(accounts, r.equityCode)
            && (HasCode(b.accounts, r.equityCode) ==> accounts == b.accounts)
            && forall k :: |b.accounts| <= k < |accounts| ==> IsEquity(accounts[k], r)
  {
    var i := IndexOfCode(b.accounts, r.equityCode);
    if i < |b.accounts| {
      assert b.accounts[i] in b.accounts;
    } else {
      var e := EquityAccount(r.equityCode, r.currency);
      assert (b.accounts + [e])[|b.accounts|] == e && e in b.accounts + [e] && IsEquity(e, r);
      assert forall a :: a in b.accounts ==> a.code != r.equityCode;
    }
  }

  /** The opening equity account go-live makes: active book equity under the number asked for. */
  ghost predicate IsEquity(a: Account, r: GoLiveRequest) {
    && a.id == "acct:" + r.equityCode && a.code == r.equityCode && a.name == "Opening Balance Equity"
    && a.accountType == EQUITY && a.subtype == Some(BOOK_EQUITY) && a.currency == r.currency
    && a.parentId.None? && a.active && a.origin == RGNR8
  }

  ghost predicate ChartHolds(accounts: seq<Account>, r: GoLiveRequest, origin: Origin) {
    && |r.template| <= |accounts| && HasCode(accounts, r.equityCode)
    && (forall i :: 0 <= i < |r.template| ==> accounts[i] == MarkedAs(r.template[i], r.sources, origin))
    && (forall i :: 0 <= i < |r.sources| ==> HasCode(accounts, r.sources[i].code))
    && forall k :: |r.template| <= k < |accounts| ==>
         MadeForOne(accounts[k], r.sources, r.currency, origin) || IsEquity(accounts[k], r)
  }

  lemma EquityKeepsTheRest(b: Building, accounts: seq<Account>, r: GoLiveRequest, origin: Origin)
    requires BroughtAll(r.template, b.accounts, r.sources, r.currency, origin)
    requires b.accounts <= accounts && HasCode(accounts, r.equityCode)
    requires forall k :: |b.accounts| <= k < |accounts| ==> IsEquity(accounts[k], r)
    ensures ChartHolds(accounts, r, origin)
  {
    forall i | 0 <= i < |r.sources| ensures HasCode(accounts, r.sources[i].code) {
      var a :| a in b.accounts && a.code == r.sources[i].code;
      assert a in accounts;
    }
  }

  /**
   * The go-live chart is the template, its accounts marked as QuickBooks' where a source of QuickBooks has their
   * number, then an account for every other source, and an opening equity account when nothing has its number.
   */
  lemma GoLiveChartHolds(r: GoLiveRequest)
    requires PlainList(r.template, r.currency) && GoLiveAccounts(r).Ok?
    ensures ChartHolds(GoLiveAccounts(r).value.accounts, r, if r.fromQuickBooks then QUICKBOOKS else RGNR8)
  {
    var b := WithSources(Building(r.template, []), r.sources, r.currency, OriginOf(r)).value;
    AllBrought(r.template, r.sources, r.currency, OriginOf(r));
    EquityIsEnsured(b, r);
    EquityKeepsTheRest(b, GoLiveAccounts(r).value.accounts, r, OriginOf(r));
  }

  // --- the opening entry ----------------------------------------------------------------------------

  /** The opening entry is posted for the cutover date, in its month, under a key of its own. */
  lemma OpeningIsDated(plan: CutoverPlan)
    requires OpeningEntry(plan).Ok?
    ensures var c := OpeningEntry(plan).value;
            && c.payload.entryDate == plan.cutoverDate && c.payload.period == MonthOf(plan.cutoverDate)
            && c.payload.currency == plan.currency && c.tenantId == plan.tenantId
            && c.payload.provenance == plan.provenance && c.payload.memo == plan.memo
            && c.key == "cutover:opening:" + IntText(plan.cutoverDate)
  {
  }
}
