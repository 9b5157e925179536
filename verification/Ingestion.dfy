/** The ingestion pipeline: deduplicate, settle pending rows, pair off transfers (pipeline.ts, transfers.ts, dedupe.ts). */
module Ingestion {
  import opened Text
  import opened Fingerprint

  datatype BankStatus = PENDING | SETTLED

  datatype Direction = INFLOW | OUTFLOW

  const TRANSFER_KIND := "TRANSFER"

  datatype Raw = Raw(provider: string, accountId: string, externalId: string, payload: string)

  /** A date as the feed spells it, and its day number when it parses. */
  datatype FeedDate = FeedDate(text: string, day: Option<int>)

  datatype Normalized = Normalized(
    tenantId: string, provider: string, accountId: string, externalId: string, status: BankStatus, date: FeedDate,
    amount: int, currency: string, description: string, counterparty: string, kind: string, supersedes: string)

  datatype Row = Row(
    id: string, input: Normalized, direction: Direction, kind: string, transfer: bool,
    supersedes: Option<string>, supersededBy: Option<string>)

  datatype Issue = NoAdapter(raw: Raw) | NormalizeFailed(raw: Raw, message: string)

  type Adapter = Raw -> Result<seq<Normalized>, string>

  /** The digest is not modelled: any function of the identifying text. */
  datatype Config = Config(adapters: map<string, Adapter>, digest: string -> string, windowDays: int)

  type ArchiveKey = (string, string, string)

  datatype Totals = Totals(added: seq<string>, archived: nat, duplicates: nat, issues: seq<Issue>)

  datatype IngestResult = IngestResult(totals: Totals, pendingSuperseded: nat, transfersDetected: nat)

  // --- dedupe.ts ---------------------------------------------------------------------------------------

  /** The fields that identify a record its provider gave no id. */
  function Basis(n: Normalized): string {
    Join([n.provider, n.accountId, n.date.text, n.currency, IntText(n.amount), n.description], "|")
  }

  function DedupeKey(digest: string -> string, n: Normalized): string {
    var scope := n.provider + ":" + n.accountId + ":";
    if n.externalId != "" then scope + n.externalId else scope + "h" + digest(Basis(n))
  }

  function DirectionOf(n: Normalized): Direction {
    if n.amount >= 0 then INFLOW else OUTFLOW
  }

  // --- the rows, in the order they arrived --------------------------------------------------------------

  ghost predicate UniqueIds(rows: seq<Row>) {
    forall i, j :: 0 <= i < j < |rows| ==> rows[i].id != rows[j].id
  }

  ghost function Ids(rows: seq<Row>): set<string> {
    set r | r in rows :: r.id
  }

  /** Where a row with an id sits, or the number of rows when there is none. */
  function IndexOf(rows: seq<Row>, id: string): (i: nat)
    ensures i <= |rows|
    ensures i < |rows| ==> rows[i].id == id
    ensures i == |rows| ==> forall k :: 0 <= k < |rows| ==> rows[k].id != id
  {
    if rows == [] then 0
    else if rows[|rows| - 1].id == id then |rows| - 1
    else
      var i := IndexOf(rows[..|rows| - 1], id);
      if i == |rows| - 1 then |rows| else i
  }

  predicate HasId(rows: seq<Row>, id: string) {
    IndexOf(rows, id) < |rows|
  }

  function RowFor(key: string, n: Normalized): Row {
    Row(key, n, DirectionOf(n), n.kind, false, None, None)
  }

  // --- taking records in -----------------------------------------------------------------------------------

  datatype Intake = Intake(rows: seq<Row>, archive: set<ArchiveKey>, totals: Totals)

  function TakeOne(digest: string -> string, s: Intake, n: Normalized): Intake {
    var key := DedupeKey(digest, n);
    if HasId(s.rows, key) then s.(totals := s.totals.(duplicates := s.totals.duplicates + 1))
    else s.(rows := s.rows + [RowFor(key, n)], totals := s.totals.(added := s.totals.added + [key]))
  }

  function TakeAll(digest: string -> string, s: Intake, ns: seq<Normalized>): Intake {
    if ns == [] then s else TakeOne(digest, TakeAll(digest, s, ns[..|ns| - 1]), ns[|ns| - 1])
  }

  function KeyOf(raw: Raw): ArchiveKey {
    (raw.provider, raw.accountId, raw.externalId)
  }

  function Archived(s: Intake, raw: Raw): Intake {
    if KeyOf(raw) in s.archive then s
    else s.(archive := s.archive + {KeyOf(raw)}, totals := s.totals.(archived := s.totals.archived + 1))
  }

  function Noted(s: Intake, issue: Issue): Intake {
    s.(totals := s.totals.(issues := s.totals.issues + [issue]))
  }

  function TakeRaw(c: Config, s: Intake, raw: Raw): Intake {
    var s' := Archived(s, raw);
    if raw.provider !in c.adapters then Noted(s', NoAdapter(raw))
    else match c.adapters[raw.provider](raw)
         case Err(message) => Noted(s', NormalizeFailed(raw, message))
         case Ok(ns) => TakeAll(c.digest, s', ns)
  }

  function TakeRaws(c: Config, s: Intake, raws: seq<Raw>): Intake {
    if raws == [] then s else TakeRaw(c, TakeRaws(c, s, raws[..|raws| - 1]), raws[|raws| - 1])
  }

  // --- pending rows that have settled -----------------------------------------------------------------------

  function PendingKey(posted: Row): string {
    posted.input.provider + ":" + posted.input.accountId + ":" + posted.input.supersedes
  }

  /** Whether a row supersedes a pending row that nothing has superseded yet. */
  predicate Settles(rows: seq<Row>, id: string) {
    var i := IndexOf(rows, id);
    && i < |rows| && rows[i].input.status == SETTLED && rows[i].input.supersedes != ""
    && var j := IndexOf(rows, PendingKey(rows[i]));
       j < |rows| && rows[j].input.status == PENDING && rows[j].supersededBy.None?
  }

  function Settled(rows: seq<Row>, id: string): (r: seq<Row>)
    ensures |r| == |rows|
  {
    if !Settles(rows, id) then rows
    else
      var i := IndexOf(rows, id);
      var j := IndexOf(rows, PendingKey(rows[i]));
      rows[j := rows[j].(supersededBy := Some(id))][i := rows[i].(supersedes := Some(rows[j].id))]
  }

  function SettledAll(rows: seq<Row>, ids: seq<string>): (seq<Row>, nat) {
    if ids == [] then (rows, 0)
    else
      var (front, n) := SettledAll(rows, ids[..|ids| - 1]);
      var id := ids[|ids| - 1];
      (Settled(front, id), n + if Settles(front, id) then 1 else 0)
  }

  lemma OneMoreSettled(rows: seq<Row>, ids: seq<string>, n: nat)
    requires n < |ids|
    ensures var (front, count) := SettledAll(rows, ids[..n]);
            SettledAll(rows, ids[..n + 1]) == (Settled(front, ids[n]), count + if Settles(front, ids[n]) then 1 else 0)
  {
    assert ids[..n + 1][..n] == ids[..n];
  }

  // --- transfers.ts --------------------------------------------------------------------------------------------

  predicate Eligible(r: Row) {
    r.input.status == SETTLED && !r.transfer && r.supersededBy.None? && r.input.amount != 0
  }

  /** A date that does not parse has no day number and is too far from nothing. */
  predicate TooFarApart(a: FeedDate, b: FeedDate, windowDays: int) {
    a.day.Some? && b.day.Some? && Abs(a.day.value - b.day.value) > windowDays
  }

  /** Equal and opposite, in one currency, between two accounts, and not too far apart in time. */
  predicate Matches(a: Row, b: Row, windowDays: int) {
    && a.input.accountId != b.input.accountId
    && a.input.currency == b.input.currency
    && a.input.amount == -b.input.amount
    && !TooFarApart(a.input.date, b.input.date, windowDays)
  }

  function AsTransfer(r: Row): Row {
    r.(transfer := true, kind := TRANSFER_KIND)
  }

  function Paired(rows: seq<Row>, i: nat, j: nat): (r: seq<Row>)
    requires i < |rows| && j < |rows|
    ensures |r| == |rows|
  {
    rows[i := AsTransfer(rows[i])][j := AsTransfer(rows[j])]
  }

  /** The first row from j on that row i can be paired with. */
  function FirstMatch(rows: seq<Row>, i: nat, j: nat, windowDays: int): (k: nat)
    requires i < |rows| && j <= |rows|
    ensures j <= k <= |rows|
    ensures k < |rows| ==> Eligible(rows[k]) && Matches(rows[i], rows[k], windowDays)
    ensures forall n :: j <= n < k ==> !(Eligible(rows[n]) && Matches(rows[i], rows[n], windowDays))
    decreases |rows| - j
  {
    if j == |rows| || (Eligible(rows[j]) && Matches(rows[i], rows[j], windowDays)) then j
    else FirstMatch(rows, i, j + 1, windowDays)
  }

  /** Each row in turn takes the first later row it matches. */
  function Detect(rows: seq<Row>, i: nat, windowDays: int): (seq<Row>, nat)
    requires i <= |rows|
    decreases |rows| - i
  {
    if i == |rows| then (rows, 0)
    else if !Eligible(rows[i]) then Detect(rows, i + 1, windowDays)
    else
      var j := FirstMatch(rows, i, i + 1, windowDays);
      if j == |rows| then Detect(rows, i + 1, windowDays)
      else
        var (after, pairs) := Detect(Paired(rows, i, j), i + 1, windowDays);
        (after, pairs + 1)
  }

  // --- one call ---------------------------------------------------------------------------------------------------

  datatype State = State(rows: seq<Row>, archive: set<ArchiveKey>)

  const NoTotals := Totals([], 0, 0, [])

  function Ingested(c: Config, s: State, raws: seq<Raw>): (State, IngestResult) {
    var taken := TakeRaws(c, Intake(s.rows, s.archive, NoTotals), raws);
    var (settled, superseded) := SettledAll(taken.rows, taken.totals.added);
    var (rows, pairs) := Detect(settled, 0, c.windowDays);
    (State(rows, taken.archive), IngestResult(taken.totals, superseded, pairs))
  }

  /** Active rows: everything a later row has not superseded. */
  predicate IsActive(r: Row) {
    r.supersededBy.None?
  }

  function Active(rows: seq<Row>): seq<Row> {
    if rows == [] then []
    else
      var last := rows[|rows| - 1];
      if IsActive(last) then Active(rows[..|rows| - 1]) + [last] else Active(rows[..|rows| - 1])
  }

  class IngestionPipeline {
    const config: Config
    var rows: seq<Row>
    var seen: set<string>
    var archive: set<ArchiveKey>

    ghost predicate Valid()
      reads this
    {
      UniqueIds(rows) && seen == Ids(rows)
    }

    function View(): State
      reads this
    {
      State(rows, archive)
    }

    constructor (config: Config)
      ensures Valid() && View() == State([], {}) && this.config == config
    {
      this.config := config;
      rows, seen, archive := [], {}, {};
    }

    method Ingest(raws: seq<Raw>) returns (result: IngestResult)
      requires Valid()
      modifies this
      ensures Valid()
      ensures (View(), result) == Ingested(config, old(View()), raws)
    {
      var totals := NoTotals;
      ghost var start := Intake(rows, archive, NoTotals);
      for i := 0 to |raws|
        invariant Valid()
        invariant Intake(rows, archive, totals) == TakeRaws(config, start, raws[..i])
      {
        assert raws[..i + 1][..i] == raws[..i];
        totals := IngestRaw(raws[i], totals);
      }
      assert raws[..|raws|] == raws;
      var superseded := ResolvePendingPosted(totals.added);
      var pairs := DetectInternalTransfers();
      return IngestResult(totals, superseded, pairs);
    }

    method IngestRaw(raw: Raw, before: Totals) returns (totals: Totals)
      requires Valid()
      modifies this
      ensures Valid()
      ensures Intake(rows, archive, totals) == TakeRaw(config, Intake(old(rows), old(archive), before), raw)
    {
      totals := before;
      ghost var archived := Archived(Intake(rows, archive, before), raw);
      if KeyOf(raw) !in archive {
        archive := archive + {KeyOf(raw)};
        totals := totals.(archived := totals.archived + 1);
      }
      assert Intake(rows, archive, totals) == archived;
      if raw.provider !in config.adapters {
        return totals.(issues := totals.issues + [NoAdapter(raw)]);
      }
      var normalized := config.adapters[raw.provider](raw);
      if normalized.Err? {
        return totals.(issues := totals.issues + [NormalizeFailed(raw, normalized.error)]);
      }
      totals := TakeNormalized(normalized.value, totals);
    }

    method TakeNormalized(ns: seq<Normalized>, before: Totals) returns (totals: Totals)
      requires Valid()
      modifies this`rows, this`seen
      ensures Valid()
      ensures Intake(rows, archive, totals) == TakeAll(config.digest, Intake(old(rows), archive, before), ns)
    {
      totals := before;
      ghost var start := Intake(rows, archive, totals);
      for i := 0 to |ns|
        invariant Valid()
        invariant Intake(rows, archive, totals) == TakeAll(config.digest, start, ns[..i])
      {
        assert ns[..i + 1][..i] == ns[..i];
        var key := DedupeKey(config.digest, ns[i]);
        SeenIds(rows, key);
        if key in seen {
          totals := totals.(duplicates := totals.duplicates + 1);
        } else {
          AppendedIds(rows, RowFor(key, ns[i]));
          rows := rows + [RowFor(key, ns[i])];
          seen := seen + {key};
          totals := totals.(added := totals.added + [key]);
        }
      }
      assert ns[..|ns|] == ns;
    }

    method ResolvePendingPosted(added: seq<string>) returns (count: nat)
      requires Valid()
      modifies this`rows
      ensures Valid()
      ensures (rows, count) == SettledAll(old(rows), added)
    {
      count := 0;
      for n := 0 to |added|
        invariant Valid()
        invariant (rows, count) == SettledAll(old(rows), added[..n])
      {
        OneMoreSettled(old(rows), added, n);
        var settled := ResolveOne(added[n]);
        if settled {
          count := count + 1;
        }
      }
      assert added[..|added|] == added;
    }

    method ResolveOne(id: string) returns (settled: bool)
      requires Valid()
      modifies this`rows
      ensures Valid()
      ensures rows == Settled(old(rows), id) && settled == Settles(old(rows), id)
    {
      SettledKeepsIds(rows, id);
      settled := false;
      var i := IndexOf(rows, id);
      if i < |rows| && rows[i].input.status == SETTLED && rows[i].input.supersedes != "" {
        var j := IndexOf(rows, PendingKey(rows[i]));
        if j < |rows| && rows[j].input.status == PENDING && rows[j].supersededBy.None? {
          rows := rows[j := rows[j].(supersededBy := Some(id))][i := rows[i].(supersedes := Some(rows[j].id))];
          settled := true;
        }
      }
    }

    method DetectInternalTransfers() returns (pairs: nat)
      requires Valid()
      modifies this`rows
      ensures Valid()
      ensures (rows, pairs) == Detect(old(rows), 0, config.windowDays)
    {
      pairs := 0;
      var i := 0;
      while i < |rows|
        invariant Valid() && i <= |rows| == |old(rows)|
        invariant (Detect(rows, i, config.windowDays).0, pairs + Detect(rows, i, config.windowDays).1)
               == Detect(old(rows), 0, config.windowDays)
        decreases |rows| - i
      {
        if Eligible(rows[i]) {
          var j := i + 1;
          while j < |rows| && !(Eligible(rows[j]) && Matches(rows[i], rows[j], config.windowDays))
            invariant i < j <= |rows|
            invariant FirstMatch(rows, i, i + 1, config.windowDays) == FirstMatch(rows, i, j, config.windowDays)
            decreases |rows| - j
          {
            j := j + 1;
          }
          if j < |rows| {
            PairedKeepsIds(rows, i, j);
            rows := rows[i := AsTransfer(rows[i])][j := AsTransfer(rows[j])];
            pairs := pairs + 1;
          }
        }
        i := i + 1;
      }
    }
  }

  lemma SeenIds(rows: seq<Row>, key: string)
    ensures key in Ids(rows) <==> HasId(rows, key)
  {
    if HasId(rows, key) {
      assert rows[IndexOf(rows, key)] in rows;
    }
  }

  lemma AppendedIds(rows: seq<Row>, row: Row)
    requires UniqueIds(rows) && row.id !in Ids(rows)
    ensures UniqueIds(rows + [row]) && Ids(rows + [row]) == Ids(rows) + {row.id}
  {
    assert forall i :: 0 <= i < |rows| ==> rows[i] in rows;
  }

  /** Rows changed in place keep their ids. */
  ghost predicate SameIds(before: seq<Row>, after: seq<Row>) {
    |before| == |after| && forall i :: 0 <= i < |before| ==> after[i].id == before[i].id
  }

  lemma SameIdsSameSet(before: seq<Row>, after: seq<Row>)
    requires SameIds(before, after)
    ensures Ids(after) == Ids(before) && (UniqueIds(before) ==> UniqueIds(after))
  {
    forall id | id in Ids(before) ensures id in Ids(after) {
      var r :| r in before && r.id == id;
      var i :| 0 <= i < |before| && before[i] == r;
      assert after[i] in after;
    }
    forall id | id in Ids(after) ensures id in Ids(before) {
      var r :| r in after && r.id == id;
      var i :| 0 <= i < |after| && after[i] == r;
      assert before[i] in before;
    }
  }

  lemma SettledKeepsIds(rows: seq<Row>, id: string)
    ensures SameIds(rows, Settled(rows, id)) && Ids(Settled(rows, id)) == Ids(rows)
    ensures UniqueIds(rows) ==> UniqueIds(Settled(rows, id))
  {
    SameIdsSameSet(rows, Settled(rows, id));
  }

  lemma PairedKeepsIds(rows: seq<Row>, i: nat, j: nat)
    requires i < |rows| && j < |rows|
    ensures SameIds(rows, Paired(rows, i, j)) && Ids(Paired(rows, i, j)) == Ids(rows)
    ensures UniqueIds(rows) ==> UniqueIds(Paired(rows, i, j))
  {
    SameIdsSameSet(rows, Paired(rows, i, j));
  }
}
