/** What every sequence of ingest calls keeps, and why ingesting again changes nothing (pipeline.ts, transfers.ts). */
module IngestionRuns {
  import opened Text
  import opened Sums
  import opened Ingestion

  // --- pairs -----------------------------------------------------------------------------------------

  /** A flagged row is settled, live and not zero. */
  predicate Flagged(r: Row) {
    r.transfer && r.input.status == SETTLED && r.supersededBy.None? && r.input.amount != 0
  }

  /** Equal and opposite amounts of one currency on two accounts, within the window wherever both dates parse. */
  ghost predicate Offsets(a: Row, b: Row, windowDays: int) {
    && a.input.accountId != b.input.accountId && a.input.currency == b.input.currency
    && a.input.amount + b.input.amount == 0
    && (a.input.date.day.Some? && b.input.date.day.Some? ==>
          -windowDays <= a.input.date.day.value - b.input.date.day.value <= windowDays)
  }

  /** A settled row that counts, moves money and has not been paired. */
  ghost predicate Unpaired(r: Row) {
    r.input.status == SETTLED && r.input.amount != 0 && r.supersededBy.None? && !r.transfer
  }

  lemma MatchesMeans(a: Row, b: Row, windowDays: int)
    ensures Matches(a, b, windowDays) <==> Offsets(a, b, windowDays)
    ensures Eligible(a) <==> Unpaired(a)
  {
  }

  ghost predicate Mates(rows: seq<Row>, mate: map<nat, nat>, windowDays: int, i: nat)
    requires i in mate
  {
    && i < |rows| && mate[i] < |rows| && mate[i] != i
    && Flagged(rows[i]) && mate[i] in mate && mate[mate[i]] == i
    && Offsets(rows[i], rows[mate[i]], windowDays)
  }

  /** The flagged rows fall into pairs, each row with the one it offsets. */
  ghost predicate PairedOff(rows: seq<Row>, mate: map<nat, nat>, windowDays: int) {
    && (forall i :: 0 <= i < |rows| ==> (rows[i].transfer <==> i in mate))
    && (forall i :: i in mate ==> Mates(rows, mate, windowDays, i))
  }

  /** Row i has no later partner left. */
  ghost predicate Alone(rows: seq<Row>, i: nat, windowDays: int)
    requires i < |rows|
  {
    forall j :: i < j < |rows| ==> !(Unpaired(rows[i]) && Unpaired(rows[j]) && Offsets(rows[i], rows[j], windowDays))
  }

  /** Among the first n rows, none has a later partner left. */
  ghost predicate NoneLeft(rows: seq<Row>, n: nat, windowDays: int)
    requires n <= |rows|
  {
    forall i :: 0 <= i < n ==> Alone(rows, i, windowDays)
  }

  ghost predicate Inv(rows: seq<Row>, windowDays: int) {
    UniqueIds(rows) && exists mate :: PairedOff(rows, mate, windowDays)
  }

  lemma PairKeepsPairs(rows: seq<Row>, mate: map<nat, nat>, windowDays: int, i: nat, j: nat)
    requires PairedOff(rows, mate, windowDays)
    requires i < j < |rows| && Eligible(rows[i]) && Eligible(rows[j]) && Matches(rows[i], rows[j], windowDays)
    ensures PairedOff(Paired(rows, i, j), mate[i := j][j := i], windowDays)
  {
    var rows', mate' := Paired(rows, i, j), mate[i := j][j := i];
    assert i !in mate && j !in mate;
    forall k | k in mate' ensures Mates(rows', mate', windowDays, k) {
      if k != i && k != j {
        assert Mates(rows, mate, windowDays, k);
        assert mate[k] in mate && mate[k] != i && mate[k] != j;
      }
    }
  }

  lemma PairKeepsNoneLeft(rows: seq<Row>, windowDays: int, i: nat, j: nat)
    requires i < j < |rows| && NoneLeft(rows, i, windowDays)
    ensures NoneLeft(Paired(rows, i, j), i + 1, windowDays)
  {
    var rows' := Paired(rows, i, j);
    forall k | 0 <= k < i + 1 ensures Alone(rows', k, windowDays) {
      if k < i {
        assert Alone(rows, k, windowDays);
      }
    }
  }

  lemma SkipKeepsNoneLeft(rows: seq<Row>, windowDays: int, i: nat)
    requires i < |rows| && NoneLeft(rows, i, windowDays)
    requires !Eligible(rows[i]) || FirstMatch(rows, i, i + 1, windowDays) == |rows|
    ensures NoneLeft(rows, i + 1, windowDays)
  {
    assert Alone(rows, i, windowDays);
  }

  lemma {:induction false} DetectKeepsIds(rows: seq<Row>, i: nat, windowDays: int)
    requires i <= |rows|
    ensures SameIds(rows, Detect(rows, i, windowDays).0)
    decreases |rows| - i
  {
    if i < |rows| {
      var j := if Eligible(rows[i]) then FirstMatch(rows, i, i + 1, windowDays) else |rows|;
      DetectKeepsIds(if j == |rows| then rows else Paired(rows, i, j), i + 1, windowDays);
    }
  }

  /** Detection keeps the pairs there were, adds its own, and leaves no pair unmatched. */
  lemma {:induction false} DetectPairsOff(rows: seq<Row>, mate: map<nat, nat>, i: nat, windowDays: int)
    returns (mate': map<nat, nat>)
    requires i <= |rows| && PairedOff(rows, mate, windowDays) && NoneLeft(rows, i, windowDays)
    ensures PairedOff(Detect(rows, i, windowDays).0, mate', windowDays)
    ensures NoneLeft(Detect(rows, i, windowDays).0, |Detect(rows, i, windowDays).0|, windowDays)
    decreases |rows| - i
  {
    if i == |rows| {
      mate' := mate;
    } else {
      var rows1, mate1 := DetectOne(rows, mate, i, windowDays);
      mate' := DetectPairsOff(rows1, mate1, i + 1, windowDays);
    }
  }

  lemma DetectOne(rows: seq<Row>, mate: map<nat, nat>, i: nat, windowDays: int)
    returns (rows1: seq<Row>, mate1: map<nat, nat>)
    requires i < |rows| && PairedOff(rows, mate, windowDays) && NoneLeft(rows, i, windowDays)
    ensures |rows1| == |rows| && PairedOff(rows1, mate1, windowDays) && NoneLeft(rows1, i + 1, windowDays)
    ensures Detect(rows, i, windowDays).0 == Detect(rows1, i + 1, windowDays).0
  {
    var j := if Eligible(rows[i]) then FirstMatch(rows, i, i + 1, windowDays) else |rows|;
    if j == |rows| {
      SkipKeepsNoneLeft(rows, windowDays, i);
      rows1, mate1 := rows, mate;
    } else {
      PairKeepsPairs(rows, mate, windowDays, i, j);
      PairKeepsNoneLeft(rows, windowDays, i, j);
      rows1, mate1 := Paired(rows, i, j), mate[i := j][j := i];
    }
  }

  // --- taking in and settling ---------------------------------------------------------------------------

  lemma TakeOneKeepsInv(digest: string -> string, s: Intake, n: Normalized, windowDays: int)
    requires Inv(s.rows, windowDays)
    ensures Inv(TakeOne(digest, s, n).rows, windowDays) && s.rows <= TakeOne(digest, s, n).rows
  {
    var key := DedupeKey(digest, n);
    SeenIds(s.rows, key);
    if !HasId(s.rows, key) {
      AppendedIds(s.rows, RowFor(key, n));
      var mate :| PairedOff(s.rows, mate, windowDays);
      AppendKeepsPairs(s.rows, RowFor(key, n), mate, windowDays);
    }
  }

  lemma AppendKeepsPairs(rows: seq<Row>, row: Row, mate: map<nat, nat>, windowDays: int)
    requires PairedOff(rows, mate, windowDays) && !row.transfer
    ensures PairedOff(rows + [row], mate, windowDays)
  {
    forall i | i in mate ensures i < |rows| && Mates(rows + [row], mate, windowDays, i) {
      assert Mates(rows, mate, windowDays, i);
    }
  }

  lemma {:induction false} TakeAllKeepsInv(digest: string -> string, s: Intake, ns: seq<Normalized>, windowDays: int)
    requires Inv(s.rows, windowDays)
    ensures Inv(TakeAll(digest, s, ns).rows, windowDays) && s.rows <= TakeAll(digest, s, ns).rows
    ensures TakeAll(digest, s, ns).archive == s.archive
  {
    if ns != [] {
      TakeAllKeepsInv(digest, s, ns[..|ns| - 1], windowDays);
      TakeOneKeepsInv(digest, TakeAll(digest, s, ns[..|ns| - 1]), ns[|ns| - 1], windowDays);
    }
  }

  lemma TakeRawKeepsInv(c: Config, s: Intake, raw: Raw)
    requires Inv(s.rows, c.windowDays)
    ensures Inv(TakeRaw(c, s, raw).rows, c.windowDays) && s.rows <= TakeRaw(c, s, raw).rows
    ensures s.archive <= TakeRaw(c, s, raw).archive && KeyOf(raw) in TakeRaw(c, s, raw).archive
  {
    if raw.provider in c.adapters && c.adapters[raw.provider](raw).Ok? {
      TakeAllKeepsInv(c.digest, Archived(s, raw), c.adapters[raw.provider](raw).value, c.windowDays);
    }
  }

  lemma {:induction false} TakeRawsKeepsInv(c: Config, s: Intake, raws: seq<Raw>)
    requires Inv(s.rows, c.windowDays)
    ensures Inv(TakeRaws(c, s, raws).rows, c.windowDays) && s.rows <= TakeRaws(c, s, raws).rows
    ensures s.archive <= TakeRaws(c, s, raws).archive
  {
    if raws != [] {
      TakeRawsKeepsInv(c, s, raws[..|raws| - 1]);
      TakeRawKeepsInv(c, TakeRaws(c, s, raws[..|raws| - 1]), raws[|raws| - 1]);
    }
  }

  /** Settling marks only pending rows, so no flagged row is ever superseded. */
  lemma SettledKeepsInv(rows: seq<Row>, id: string, windowDays: int)
    requires Inv(rows, windowDays)
    ensures Inv(Settled(rows, id), windowDays)
  {
    SettledKeepsIds(rows, id);
    var mate :| PairedOff(rows, mate, windowDays);
    SettledRows(rows, id);
    SettledKeepsPairs(rows, Settled(rows, id), mate, windowDays);
  }

  lemma SettledRows(rows: seq<Row>, id: string)
    ensures |Settled(rows, id)| == |rows|
    ensures forall k :: 0 <= k < |rows| ==> SettledRow(rows[k], Settled(rows, id)[k])
  {
  }

  lemma SettledKeepsPairs(rows: seq<Row>, rows': seq<Row>, mate: map<nat, nat>, windowDays: int)
    requires PairedOff(rows, mate, windowDays) && |rows'| == |rows|
    requires forall k :: 0 <= k < |rows| ==> SettledRow(rows[k], rows'[k])
    ensures PairedOff(rows', mate, windowDays)
  {
    forall i | i in mate ensures Mates(rows', mate, windowDays, i) {
      assert Mates(rows, mate, windowDays, i) && Mates(rows, mate, windowDays, mate[i]);
      assert SettledRow(rows[i], rows'[i]) && SettledRow(rows[mate[i]], rows'[mate[i]]);
    }
    forall i | 0 <= i < |rows'| ensures rows'[i].transfer <==> i in mate {
      assert SettledRow(rows[i], rows'[i]);
    }
  }

  /** All that settling can change: links, and being superseded only when pending. */
  predicate SettledRow(before: Row, after: Row) {
    && after.input == before.input && after.transfer == before.transfer
    && (before.input.status == SETTLED ==> after.supersededBy == before.supersededBy)
  }

  lemma {:induction false} SettledAllKeepsInv(rows: seq<Row>, ids: seq<string>, windowDays: int)
    requires Inv(rows, windowDays)
    ensures Inv(SettledAll(rows, ids).0, windowDays) && SameIds(rows, SettledAll(rows, ids).0)
  {
    if ids != [] {
      SettledAllKeepsInv(rows, ids[..|ids| - 1], windowDays);
      SettledKeepsInv(SettledAll(rows, ids[..|ids| - 1]).0, ids[|ids| - 1], windowDays);
      SettledKeepsIds(SettledAll(rows, ids[..|ids| - 1]).0, ids[|ids| - 1]);
    }
  }

  /** After a call: pairs only, and nothing left to pair. */
  ghost predicate Rested(s: State, windowDays: int) {
    Inv(s.rows, windowDays) && NoneLeft(s.rows, |s.rows|, windowDays)
  }

  lemma SettleAndDetect(rows: seq<Row>, ids: seq<string>, windowDays: int)
    requires Inv(rows, windowDays)
    ensures var after := Detect(SettledAll(rows, ids).0, 0, windowDays).0;
            && Inv(after, windowDays) && NoneLeft(after, |after|, windowDays) && SameIds(rows, after)
            && Ids(after) == Ids(rows)
  {
    SettledAllKeepsInv(rows, ids, windowDays);
    var settled := SettledAll(rows, ids).0;
    var mate :| PairedOff(settled, mate, windowDays);
    var mate' := DetectPairsOff(settled, mate, 0, windowDays);
    DetectKeepsIds(settled, 0, windowDays);
    var after := Detect(settled, 0, windowDays).0;
    assert PairedOff(after, mate', windowDays);
    SameIdsSameSet(rows, settled);
    SameIdsSameSet(settled, after);
  }

  lemma IngestKeepsInv(c: Config, s: State, raws: seq<Raw>)
    requires Inv(s.rows, c.windowDays)
    ensures Rested(Ingested(c, s, raws).0, c.windowDays)
    ensures s.archive <= Ingested(c, s, raws).0.archive
  {
    var start := Intake(s.rows, s.archive, NoTotals);
    TakeRawsKeepsInv(c, start, raws);
    var taken := TakeRaws(c, start, raws);
    SettleAndDetect(taken.rows, taken.totals.added, c.windowDays);
  }

  /** Rows never leave and never move: the ids there were are a prefix of the ids there are. */
  lemma IngestKeepsRows(c: Config, s: State, raws: seq<Raw>)
    requires Inv(s.rows, c.windowDays)
    ensures |s.rows| <= |Ingested(c, s, raws).0.rows|
    ensures forall i :: 0 <= i < |s.rows| ==> Ingested(c, s, raws).0.rows[i].id == s.rows[i].id
  {
    var start := Intake(s.rows, s.archive, NoTotals);
    TakeRawsKeepsInv(c, start, raws);
    var taken := TakeRaws(c, start, raws);
    SettleAndDetect(taken.rows, taken.totals.added, c.windowDays);
    assert forall i :: 0 <= i < |s.rows| ==> taken.rows[i] == s.rows[i];
  }

  function Run(c: Config, s: State, calls: seq<seq<Raw>>): State
    decreases |calls|
  {
    if calls == [] then s else Run(c, Ingested(c, s, calls[0]).0, calls[1..])
  }

  /** Over every sequence of calls: flagged rows pair off, and no eligible pair is ever left behind. */
  lemma {:induction false} EveryRunRests(c: Config, s: State, calls: seq<seq<Raw>>)
    requires Rested(s, c.windowDays)
    ensures Rested(Run(c, s, calls), c.windowDays)
    decreases |calls|
  {
    if calls != [] {
      IngestKeepsInv(c, s, calls[0]);
      EveryRunRests(c, Ingested(c, s, calls[0]).0, calls[1..]);
    }
  }

  /** A pipeline that starts empty is at rest after any sequence of calls. */
  lemma EveryRunFromEmptyRests(c: Config, calls: seq<seq<Raw>>)
    ensures Rested(Run(c, State([], {}), calls), c.windowDays)
  {
    assert PairedOff([], map[], c.windowDays);
    EveryRunRests(c, State([], {}), calls);
  }

  // --- cash --------------------------------------------------------------------------------------------------

  function Counts(r: Row, currency: string, transfersToo: bool): bool {
    IsActive(r) && r.input.currency == currency && (transfersToo || !r.transfer)
  }

  /** The cash of the active rows in one currency, with or without internal transfers. */
  function Cash(rows: seq<Row>, currency: string, transfersToo: bool): int {
    if rows == [] then 0
    else
      var last := rows[|rows| - 1];
      Cash(rows[..|rows| - 1], currency, transfersToo) + if Counts(last, currency, transfersToo) then last.input.amount else 0
  }

  /** The amounts of the flagged rows of one currency among the first n, by position. */
  ghost function FlaggedAmounts(rows: seq<Row>, currency: string, n: nat): map<nat, int>
    requires n <= |rows|
  {
    map i: nat | 0 <= i < n && rows[i].transfer && rows[i].input.currency == currency :: rows[i].input.amount
  }

  lemma {:induction false} CashSplits(rows: seq<Row>, currency: string, n: nat)
    requires n <= |rows| && forall i :: 0 <= i < |rows| && rows[i].transfer ==> IsActive(rows[i])
    ensures Cash(rows[..n], currency, true) == Cash(rows[..n], currency, false) + Sum(FlaggedAmounts(rows, currency, n))
  {
    if n == 0 {
      assert FlaggedAmounts(rows, currency, 0) == map[];
    } else {
      CashSplits(rows, currency, n - 1);
      assert rows[..n][..n - 1] == rows[..n - 1];
      FlaggedGrows(rows, currency, n);
    }
  }

  lemma FlaggedGrows(rows: seq<Row>, currency: string, n: nat)
    requires 0 < n <= |rows|
    ensures var r := rows[n - 1];
            Sum(FlaggedAmounts(rows, currency, n)) == Sum(FlaggedAmounts(rows, currency, n - 1))
              + if r.transfer && r.input.currency == currency then r.input.amount else 0
  {
    var k: nat, r := n - 1, rows[n - 1];
    var before, after := FlaggedAmounts(rows, currency, k), FlaggedAmounts(rows, currency, n);
    if r.transfer && r.input.currency == currency {
      assert after == before[k := r.input.amount];
      SumAfterUpdate<nat>(before, k, r.input.amount);
    } else {
      assert after == before;
    }
  }

  /** Amounts that offset in pairs add up to nothing. */
  lemma {:induction false} PairsCancel(amounts: map<nat, int>, mate: map<nat, nat>)
    requires forall i :: i in amounts ==>
               i in mate && mate[i] != i && mate[i] in amounts && mate[i] in mate && mate[mate[i]] == i
               && amounts[mate[i]] == -amounts[i]
    ensures Sum(amounts) == 0
    decreases |amounts|
  {
    if amounts != map[] {
      var i :| i in amounts;
      var j := mate[i];
      SumTakesAnyKey(amounts, i);
      SumTakesAnyKey(amounts - {i}, j);
      var rest := amounts - {i} - {j};
      assert |rest.Keys| < |amounts.Keys| by {
        assert rest.Keys == amounts.Keys - {i} - {j};
      }
      forall k | k in rest ensures mate[k] in rest {
        assert mate[k] != i && mate[k] != j by {
          assert mate[mate[k]] == k;
        }
      }
      PairsCancel(rest, mate);
    }
  }

  /** Internal transfers never change how much cash there is, in any currency. */
  lemma TransfersLeaveCashAlone(rows: seq<Row>, windowDays: int, currency: string)
    requires Inv(rows, windowDays)
    ensures Cash(rows, currency, true) == Cash(rows, currency, false)
    ensures forall i :: 0 <= i < |rows| && rows[i].transfer ==> IsActive(rows[i])
  {
    var mate :| PairedOff(rows, mate, windowDays);
    FlaggedLeaveCashAlone(rows, mate, windowDays, currency);
  }

  lemma FlaggedLeaveCashAlone(rows: seq<Row>, mate: map<nat, nat>, windowDays: int, currency: string)
    requires PairedOff(rows, mate, windowDays)
    ensures Cash(rows, currency, true) == Cash(rows, currency, false)
    ensures forall i :: 0 <= i < |rows| && rows[i].transfer ==> IsActive(rows[i])
  {
    FlaggedAreActive(rows, mate, windowDays);
    FlaggedCancel(rows, mate, windowDays, currency);
    CashSplitsWhole(rows, currency);
  }

  lemma CashSplitsWhole(rows: seq<Row>, currency: string)
    requires forall i :: 0 <= i < |rows| && rows[i].transfer ==> IsActive(rows[i])
    ensures Cash(rows, currency, true) == Cash(rows, currency, false) + Sum(FlaggedAmounts(rows, currency, |rows|))
  {
    CashSplits(rows, currency, |rows|);
    assert rows[..|rows|] == rows;
  }

  lemma FlaggedAreActive(rows: seq<Row>, mate: map<nat, nat>, windowDays: int)
    requires PairedOff(rows, mate, windowDays)
    ensures forall i :: 0 <= i < |rows| && rows[i].transfer ==> IsActive(rows[i])
  {
    forall i | 0 <= i < |rows| && rows[i].transfer ensures IsActive(rows[i]) {
      assert Mates(rows, mate, windowDays, i);
    }
  }

  lemma FlaggedCancel(rows: seq<Row>, mate: map<nat, nat>, windowDays: int, currency: string)
    requires PairedOff(rows, mate, windowDays)
    ensures Sum(FlaggedAmounts(rows, currency, |rows|)) == 0
  {
    var amounts := FlaggedAmounts(rows, currency, |rows|);
    forall i | i in amounts
      ensures i in mate && mate[i] != i && mate[i] in amounts && mate[i] in mate && mate[mate[i]] == i
              && amounts[mate[i]] == -amounts[i]
    {
      assert Mates(rows, mate, windowDays, i) && Mates(rows, mate, windowDays, mate[i]);
    }
    PairsCancel(amounts, mate);
  }

  // --- ingesting again ---------------------------------------------------------------------------------------

  /** The record is archived and everything it normalizes to has a row. */
  ghost predicate Absorbed(c: Config, rows: seq<Row>, archive: set<ArchiveKey>, raw: Raw) {
    && KeyOf(raw) in archive
    && (raw.provider in c.adapters && c.adapters[raw.provider](raw).Ok? ==>
          forall n :: n in c.adapters[raw.provider](raw).value ==> DedupeKey(c.digest, n) in Ids(rows))
  }

  lemma {:induction false} TakeAllAbsorbs(digest: string -> string, s: Intake, ns: seq<Normalized>)
    ensures Ids(s.rows) <= Ids(TakeAll(digest, s, ns).rows)
    ensures forall n :: n in ns ==> DedupeKey(digest, n) in Ids(TakeAll(digest, s, ns).rows)
    ensures TakeAll(digest, s, ns).archive == s.archive
  {
    if ns != [] {
      var front, last := ns[..|ns| - 1], ns[|ns| - 1];
      TakeAllAbsorbs(digest, s, front);
      TakeOneAbsorbs(digest, TakeAll(digest, s, front), last);
      assert forall n :: n in ns ==> n in front || n == last;
    }
  }

  lemma TakeOneAbsorbs(digest: string -> string, s: Intake, n: Normalized)
    ensures Ids(TakeOne(digest, s, n).rows) == Ids(s.rows) + {DedupeKey(digest, n)}
    ensures TakeOne(digest, s, n).archive == s.archive
  {
    SeenIds(s.rows, DedupeKey(digest, n));
    GrownIds(s.rows, RowFor(DedupeKey(digest, n), n));
  }

  lemma GrownIds(rows: seq<Row>, row: Row)
    ensures Ids(rows + [row]) == Ids(rows) + {row.id}
  {
    assert forall r :: r in rows + [row] <==> r in rows || r == row;
  }

  lemma TakeRawAbsorbs(c: Config, s: Intake, raw: Raw)
    ensures var s' := TakeRaw(c, s, raw);
            Absorbed(c, s'.rows, s'.archive, raw) && Ids(s.rows) <= Ids(s'.rows) && s.archive <= s'.archive
  {
    if raw.provider in c.adapters && c.adapters[raw.provider](raw).Ok? {
      TakeAllAbsorbs(c.digest, Archived(s, raw), c.adapters[raw.provider](raw).value);
    }
  }

  lemma AbsorbedStays(c: Config, rows: seq<Row>, archive: set<ArchiveKey>, rows': seq<Row>, archive': set<ArchiveKey>, raw: Raw)
    requires Absorbed(c, rows, archive, raw) && Ids(rows) <= Ids(rows') && archive <= archive'
    ensures Absorbed(c, rows', archive', raw)
  {
  }

  lemma {:induction false} TakeRawsAbsorbs(c: Config, s: Intake, raws: seq<Raw>)
    ensures var s' := TakeRaws(c, s, raws);
            && Ids(s.rows) <= Ids(s'.rows) && s.archive <= s'.archive
            && forall raw :: raw in raws ==> Absorbed(c, s'.rows, s'.archive, raw)
  {
    if raws != [] {
      var front, last := raws[..|raws| - 1], raws[|raws| - 1];
      TakeRawsAbsorbs(c, s, front);
      var mid, after := TakeRaws(c, s, front), TakeRaws(c, s, raws);
      TakeRawAbsorbs(c, mid, last);
      forall raw | raw in raws ensures Absorbed(c, after.rows, after.archive, raw) {
        if raw != last {
          assert raw in front;
          AbsorbedStays(c, mid.rows, mid.archive, after.rows, after.archive, raw);
        }
      }
    }
  }

  /** A call absorbs its records, and what was absorbed before stays so. */
  lemma IngestAbsorbs(c: Config, s: State, raws: seq<Raw>)
    requires Inv(s.rows, c.windowDays)
    ensures var s' := Ingested(c, s, raws).0;
            && Ids(s.rows) <= Ids(s'.rows) && s.archive <= s'.archive
            && forall raw :: raw in raws ==> Absorbed(c, s'.rows, s'.archive, raw)
  {
    var start := Intake(s.rows, s.archive, NoTotals);
    var taken := TakeRaws(c, start, raws);
    TakeRawsAbsorbs(c, start, raws);
    TakeRawsKeepsInv(c, start, raws);
    SettleAndDetect(taken.rows, taken.totals.added, c.windowDays);
    var s' := Ingested(c, s, raws).0;
    forall raw | raw in raws ensures Absorbed(c, s'.rows, s'.archive, raw) {
      AbsorbedStays(c, taken.rows, taken.archive, s'.rows, s'.archive, raw);
    }
  }

  lemma {:induction false} TakeAllAgain(digest: string -> string, s: Intake, ns: seq<Normalized>)
    requires forall n :: n in ns ==> DedupeKey(digest, n) in Ids(s.rows)
    ensures TakeAll(digest, s, ns) == s.(totals := s.totals.(duplicates := s.totals.duplicates + |ns|))
  {
    if ns != [] {
      TakeAllAgain(digest, s, ns[..|ns| - 1]);
      SeenIds(s.rows, DedupeKey(digest, ns[|ns| - 1]));
    }
  }

  lemma TakeRawAgain(c: Config, s: Intake, raw: Raw)
    requires Absorbed(c, s.rows, s.archive, raw)
    ensures var s' := TakeRaw(c, s, raw);
            && s'.rows == s.rows && s'.archive == s.archive
            && s'.totals.added == s.totals.added && s'.totals.archived == s.totals.archived
  {
    if raw.provider in c.adapters && c.adapters[raw.provider](raw).Ok? {
      TakeAllAgain(c.digest, s, c.adapters[raw.provider](raw).value);
    }
  }

  lemma {:induction false} TakeRawsAgain(c: Config, s: Intake, raws: seq<Raw>)
    requires forall raw :: raw in raws ==> Absorbed(c, s.rows, s.archive, raw)
    ensures var s' := TakeRaws(c, s, raws);
            && s'.rows == s.rows && s'.archive == s.archive
            && s'.totals.added == s.totals.added && s'.totals.archived == s.totals.archived
  {
    if raws != [] {
      TakeRawsAgain(c, s, raws[..|raws| - 1]);
      TakeRawAgain(c, TakeRaws(c, s, raws[..|raws| - 1]), raws[|raws| - 1]);
    }
  }

  lemma {:induction false} DetectFindsNothing(rows: seq<Row>, i: nat, windowDays: int)
    requires i <= |rows| && NoneLeft(rows, |rows|, windowDays)
    ensures Detect(rows, i, windowDays) == (rows, 0)
    decreases |rows| - i
  {
    if i < |rows| {
      assert Alone(rows, i, windowDays);
      DetectFindsNothing(rows, i + 1, windowDays);
    }
  }

  lemma ReIngestingChangesNothing(c: Config, s: State, raws: seq<Raw>)
    requires Rested(s, c.windowDays)
    requires forall raw :: raw in raws ==> Absorbed(c, s.rows, s.archive, raw)
    ensures var (s', result) := Ingested(c, s, raws);
            && s' == s && result.totals.added == [] && result.totals.archived == 0
            && result.pendingSuperseded == 0 && result.transfersDetected == 0
  {
    TakeRawsAgain(c, Intake(s.rows, s.archive, NoTotals), raws);
    DetectFindsNothing(s.rows, 0, c.windowDays);
  }

  lemma {:induction false} AbsorbedThroughout(c: Config, s: State, calls: seq<seq<Raw>>, raw: Raw)
    requires Rested(s, c.windowDays) && Absorbed(c, s.rows, s.archive, raw)
    ensures Absorbed(c, Run(c, s, calls).rows, Run(c, s, calls).archive, raw)
    decreases |calls|
  {
    if calls != [] {
      var next := Ingested(c, s, calls[0]).0;
      IngestAbsorbs(c, s, calls[0]);
      IngestKeepsInv(c, s, calls[0]);
      AbsorbedStays(c, s.rows, s.archive, next.rows, next.archive, raw);
      AbsorbedThroughout(c, next, calls[1..], raw);
    }
  }

  /**
   * Ingesting records again, in any order and after any calls in between: nothing is archived, added,
   * superseded or matched.
   */
  lemma IngestedOnceIsIngested(c: Config, s: State, first: seq<Raw>, between: seq<seq<Raw>>, again: seq<Raw>)
    requires Rested(s, c.windowDays) && forall raw :: raw in again ==> raw in first
    ensures var now := Run(c, Ingested(c, s, first).0, between);
            var (after, result) := Ingested(c, now, again);
            && after == now && result.totals.added == [] && result.totals.archived == 0
            && result.pendingSuperseded == 0 && result.transfersDetected == 0
  {
    var next := Ingested(c, s, first).0;
    IngestAbsorbs(c, s, first);
    IngestKeepsInv(c, s, first);
    EveryRunRests(c, next, between);
    var now := Run(c, next, between);
    forall raw | raw in again ensures Absorbed(c, now.rows, now.archive, raw) {
      AbsorbedThroughout(c, next, between, raw);
    }
    ReIngestingChangesNothing(c, now, again);
  }
}
