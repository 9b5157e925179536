/** The records of the double-entry ledger and the sums every report is made of. */
module Ledger {
  import opened Text
  import opened Dates

  type TenantId = string
  type AccountId = string

  datatype AccountType = ASSET | LIABILITY | EQUITY | REVENUE | EXPENSE

  datatype AccountSubtype =
    | BANK | ACCOUNTS_RECEIVABLE | UNDEPOSITED_FUNDS | INVENTORY | OTHER_CURRENT_ASSET
    | FIXED_ASSET | ACCUMULATED_DEPRECIATION | OTHER_ASSET
    | ACCOUNTS_PAYABLE | CREDIT_CARD | SALES_TAX_PAYABLE | OTHER_CURRENT_LIABILITY | LONG_TERM_LIABILITY
    | BOOK_EQUITY | RETAINED_EARNINGS
    | INCOME | OTHER_INCOME
    | OPERATING_EXPENSE | COST_OF_GOODS_SOLD | OTHER_EXPENSE

  function TypeOfSubtype(s: AccountSubtype): AccountType {
    match s
    case BANK | ACCOUNTS_RECEIVABLE | UNDEPOSITED_FUNDS | INVENTORY | OTHER_CURRENT_ASSET
       | FIXED_ASSET | ACCUMULATED_DEPRECIATION | OTHER_ASSET => ASSET
    case ACCOUNTS_PAYABLE | CREDIT_CARD | SALES_TAX_PAYABLE | OTHER_CURRENT_LIABILITY
       | LONG_TERM_LIABILITY => LIABILITY
    case BOOK_EQUITY | RETAINED_EARNINGS => EQUITY
    case INCOME | OTHER_INCOME => REVENUE
    case OPERATING_EXPENSE | COST_OF_GOODS_SOLD | OTHER_EXPENSE => EXPENSE
  }

  datatype Origin = RGNR8 | QUICKBOOKS

  datatype Account = Account(
    id: AccountId, code: string, name: string, accountType: AccountType, currency: string,
    parentId: Option<AccountId>, subtype: Option<AccountSubtype>, active: bool, origin: Origin)

  datatype Side = DEBIT | CREDIT

  /** Dimension tags are kept in key order; a memo that is absent is the empty text. */
  datatype Line = Line(
    accountId: AccountId, side: Side, amount: int, currency: string,
    memo: string, dimensions: seq<(string, string)>)

  datatype Provenance = Provenance(
    sourceSystem: string, sourceObject: string, sourceVersion: string, effectiveDate: string,
    postedDate: string, ingestedAt: string, normalizationVersion: string, mappingVersion: string)

  /** What an entry means economically: everything its idempotency fingerprint covers. */
  datatype Payload = Payload(
    currency: string, period: Month, entryDate: Date, memo: string,
    provenance: Provenance, lines: seq<Line>)

  datatype Command = Command(tenantId: TenantId, key: string, payload: Payload)

  datatype EntryStatus = POSTED | REVERSAL

  datatype Draft = Draft(
    tenantId: TenantId, key: string, payload: Payload, status: EntryStatus,
    reversalOf: Option<string>, postedAt: string)

  datatype Entry = Entry(id: string, sequence: nat, draft: Draft) {
    function Lines(): seq<Line> { draft.payload.lines }
    function Date(): Date { draft.payload.entryDate }
  }

  // --- sums over lines ----------------------------------------------------------------

  /** A line's effect on its account, debit-positive. */
  function Signed(l: Line): int {
    if l.side == DEBIT then l.amount else -l.amount
  }

  function LinesTotal(lines: seq<Line>): int {
    if lines == [] then 0 else LinesTotal(lines[..|lines| - 1]) + Signed(lines[|lines| - 1])
  }

  function LinesNet(lines: seq<Line>, a: AccountId): int {
    if lines == [] then 0
    else
      var last := lines[|lines| - 1];
      LinesNet(lines[..|lines| - 1], a) + if last.accountId == a then Signed(last) else 0
  }

  /** At least two lines, every amount positive, debits equal to credits. */
  predicate Balanced(lines: seq<Line>) {
    |lines| >= 2 && (forall i :: 0 <= i < |lines| ==> lines[i].amount > 0) && LinesTotal(lines) == 0
  }

  lemma {:induction false} LinesNetAppends(a: seq<Line>, b: seq<Line>, id: AccountId)
    ensures LinesNet(a + b, id) == LinesNet(a, id) + LinesNet(b, id)
    ensures LinesTotal(a + b) == LinesTotal(a) + LinesTotal(b)
  {
    if b == [] {
      assert a + b == a;
    } else {
      assert (a + b)[..|a + b| - 1] == a + b[..|b| - 1];
      LinesNetAppends(a, b[..|b| - 1], id);
    }
  }

  lemma {:induction false} UntouchedNetIsZero(lines: seq<Line>, a: AccountId)
    requires forall i :: 0 <= i < |lines| ==> lines[i].accountId != a
    ensures LinesNet(lines, a) == 0
  {
    if lines != [] {
      UntouchedNetIsZero(lines[..|lines| - 1], a);
    }
  }

  // --- sums over entries --------------------------------------------------------------

  /** An inclusive window on entry dates; either end may be missing. */
  datatype Window = Window(from: Option<Date>, to: Option<Date>)

  const Always := Window(None, None)

  predicate InWindow(d: Date, w: Window) {
    (w.from.None? || d >= w.from.value) && (w.to.None? || d <= w.to.value)
  }

  /** The net debit position of an account over a window: every line of every entry in it. */
  function Net(entries: seq<Entry>, w: Window, a: AccountId): int {
    if entries == [] then 0
    else
      var last := entries[|entries| - 1];
      Net(entries[..|entries| - 1], w, a) + if InWindow(last.Date(), w) then LinesNet(last.Lines(), a) else 0
  }

  predicate LineTouches(lines: seq<Line>, a: AccountId) {
    exists i :: 0 <= i < |lines| && lines[i].accountId == a
  }

  /** Whether any line of an in-window entry is on the account. */
  predicate Touched(entries: seq<Entry>, w: Window, a: AccountId) {
    exists i :: 0 <= i < |entries| && InWindow(entries[i].Date(), w) && LineTouches(entries[i].Lines(), a)
  }

  lemma NetOfAppended(entries: seq<Entry>, e: Entry, w: Window, a: AccountId)
    ensures Net(entries + [e], w, a)
         == Net(entries, w, a) + if InWindow(e.Date(), w) then LinesNet(e.Lines(), a) else 0
  {
    assert (entries + [e])[..|entries|] == entries;
  }

  lemma {:induction false} UntouchedEntriesNetZero(entries: seq<Entry>, w: Window, a: AccountId)
    requires !Touched(entries, w, a)
    ensures Net(entries, w, a) == 0
  {
    if entries != [] {
      var front, last := entries[..|entries| - 1], entries[|entries| - 1];
      assert forall i :: 0 <= i < |front| ==> front[i] == entries[i];
      UntouchedEntriesNetZero(front, w, a);
      if InWindow(last.Date(), w) {
        assert !LineTouches(last.Lines(), a);
        UntouchedNetIsZero(last.Lines(), a);
      }
    }
  }
}
