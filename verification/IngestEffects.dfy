/** What one ingest call does to the rows: which it adds, and which pending rows it supersedes (pipeline.ts). */
module IngestEffects {
  import opened Text
  import opened Ingestion
  import opened IngestionRuns
  import opened Fingerprint

  // --- pending rows that settle -----------------------------------------------------------------------

  /** A settled row names a pending one: same provider and account, and the id it says it supersedes. */
  ghost predicate Names(settled: Row, pending: Row) {
    && settled.input.status == SETTLED && settled.input.supersedes != "" && pending.input.status == PENDING
    && pending.id == settled.input.provider + ":" + settled.input.accountId + ":" + settled.input.supersedes
  }

  /** Some row from `from` up to `to` names row j. */
  ghost predicate NamedBy(rows: seq<Row>, from: nat, end: nat, j: nat)
    requires end <= |rows| && j < |rows|
  {
    exists k :: from <= k < end && Names(rows[k], rows[j])
  }

  /** Row j is superseded by the first row from `from` that names it. */
  ghost predicate SupersededByFirst(rows: seq<Row>, from: nat, end: nat, j: nat)
    requires end <= |rows| && j < |rows|
  {
    exists k :: from <= k < end && Names(rows[k], rows[j])
             && rows[j].supersededBy == Some(rows[k].id) && rows[k].supersedes == Some(rows[j].id)
             && forall n :: from <= n < k ==> !Names(rows[n], rows[j])
  }

  /** What settling the rows from `from` up to `to` does to row j. */
  ghost predicate SettledAsNamed(before: seq<Row>, after: seq<Row>, from: nat, end: nat, j: nat)
    requires end <= |after| && |before| == |after| && j < |after|
  {
    && after[j].id == before[j].id && after[j].input == before[j].input
    && (before[j].supersededBy.Some? || !NamedBy(after, from, end, j) ==> after[j].supersededBy == before[j].supersededBy)
    && (before[j].supersededBy.None? && NamedBy(after, from, end, j) ==> SupersededByFirst(after, from, end, j))
  }

  lemma NamesReadsInputs(a: Row, b: Row, a': Row, b': Row)
    requires a'.input == a.input && b'.input == b.input && b'.id == b.id
    ensures Names(a', b') == Names(a, b)
  {
  }

  lemma IndexOfOwn(rows: seq<Row>, k: nat)
    requires UniqueIds(rows) && k < |rows|
    ensures IndexOf(rows, rows[k].id) == k
  {
    var i := IndexOf(rows, rows[k].id);
  }

  /** Settling one row marks the row it names, if nothing has yet, and links the two. */
  lemma SettleOne(rows: seq<Row>, k: nat, j: nat)
    requires UniqueIds(rows) && k < |rows| && j < |rows|
    ensures var after := Settled(rows, rows[k].id);
            && |after| == |rows| && after[j].id == rows[j].id && after[j].input == rows[j].input
            && after[j].supersededBy == (if rows[j].supersededBy.None? && Names(rows[k], rows[j])
                                         then Some(rows[k].id) else rows[j].supersededBy)
            && (rows[j].supersededBy.None? && Names(rows[k], rows[j]) ==> after[k].supersedes == Some(rows[j].id))
            && (j != k ==> after[j].supersedes == rows[j].supersedes)
  {
    IndexOfOwn(rows, k);
    if Names(rows[k], rows[j]) {
      IndexOfOwn(rows, j);
    }
  }

  lemma SettleOneCounts(rows: seq<Row>, k: nat)
    requires UniqueIds(rows) && k < |rows|
    ensures Settles(rows, rows[k].id) <==> exists j :: 0 <= j < |rows| && rows[j].supersededBy.None? && Names(rows[k], rows[j])
  {
    IndexOfOwn(rows, k);
    if Settles(rows, rows[k].id) {
      var j := IndexOf(rows, PendingKey(rows[k]));
      assert Names(rows[k], rows[j]);
    }
    if exists j :: 0 <= j < |rows| && rows[j].supersededBy.None? && Names(rows[k], rows[j]) {
      var j :| 0 <= j < |rows| && rows[j].supersededBy.None? && Names(rows[k], rows[j]);
      IndexOfOwn(rows, j);
    }
  }

  function IdsFrom(rows: seq<Row>, from: nat, end: nat): (ids: seq<string>)
    requires from <= end <= |rows|
    ensures |ids| == end - from && forall i :: 0 <= i < |ids| ==> ids[i] == rows[from + i].id
  {
    seq(end - from, i requires 0 <= i < end - from => rows[from + i].id)
  }

  lemma OneMoreNamed(rows: seq<Row>, mid: seq<Row>, from: nat, end: nat, j: nat)
    requires |mid| == |rows| && UniqueIds(mid) && from <= end < |rows| && j < |rows|
    requires SettledAsNamed(rows, mid, from, end, j)
    ensures |Settled(mid, mid[end].id)| == |rows| && SettledAsNamed(rows, Settled(mid, mid[end].id), from, end + 1, j)
  {
    var after := Settled(mid, mid[end].id);
    SettleOne(mid, end, j);
    forall k | from <= k <= end ensures Names(after[k], after[j]) == Names(mid[k], mid[j]) {
      SettleOne(mid, end, k);
      NamesReadsInputs(mid[k], mid[j], after[k], after[j]);
    }
    if rows[j].supersededBy.None? && NamedBy(mid, from, end, j) {
      var k :| from <= k < end && Names(mid[k], mid[j])
               && mid[j].supersededBy == Some(mid[k].id) && mid[k].supersedes == Some(mid[j].id)
               && forall n :: from <= n < k ==> !Names(mid[n], mid[j]);
      SettleOne(mid, end, k);
      assert Names(after[k], after[j]);
    } else if rows[j].supersededBy.None? && Names(mid[end], mid[j]) {
      SettleOne(mid, end, end);
      assert Names(after[end], after[j]);
    }
  }

  lemma IdsSplit(rows: seq<Row>, from: nat, end: nat)
    requires from < end <= |rows|
    ensures var ids := IdsFrom(rows, from, end);
            ids != [] && ids[..|ids| - 1] == IdsFrom(rows, from, end - 1) && ids[|ids| - 1] == rows[end - 1].id
  {
  }

  /** Settling one more row of a range, in terms of what settling the rest came to. */
  lemma OneMoreInRange(rows: seq<Row>, from: nat, end: nat)
    requires from < end <= |rows|
    ensures var (mid, n) := SettledAll(rows, IdsFrom(rows, from, end - 1));
            var id := rows[end - 1].id;
            SettledAll(rows, IdsFrom(rows, from, end)) == (Settled(mid, id), n + if Settles(mid, id) then 1 else 0)
  {
    IdsSplit(rows, from, end);
  }

  ghost predicate AllSettledAsNamed(rows: seq<Row>, after: seq<Row>, from: nat, end: nat)
    requires end <= |after| && |rows| == |after|
  {
    UniqueIds(after) && forall j :: 0 <= j < |rows| ==> SettledAsNamed(rows, after, from, end, j)
  }

  lemma OneMoreAllNamed(rows: seq<Row>, mid: seq<Row>, from: nat, end: nat)
    requires |mid| == |rows| && from <= end < |rows| && AllSettledAsNamed(rows, mid, from, end)
    ensures mid[end].id == rows[end].id && |Settled(mid, rows[end].id)| == |rows|
    ensures AllSettledAsNamed(rows, Settled(mid, rows[end].id), from, end + 1)
  {
    assert SettledAsNamed(rows, mid, from, end, end);
    SettledKeepsIds(mid, mid[end].id);
    var after, next := Settled(mid, mid[end].id), end + 1;
    forall j | 0 <= j < |rows| ensures SettledAsNamed(rows, after, from, next, j) {
      OneMoreNamed(rows, mid, from, end, j);
    }
  }

  lemma {:induction false} RangeSettles(rows: seq<Row>, from: nat, end: nat)
    requires UniqueIds(rows) && from <= end <= |rows|
    ensures var after := SettledAll(rows, IdsFrom(rows, from, end)).0;
            |after| == |rows| && AllSettledAsNamed(rows, after, from, end)
    decreases end - from
  {
    if from < end {
      RangeSettles(rows, from, end - 1);
      OneMoreInRange(rows, from, end);
      OneMoreAllNamed(rows, SettledAll(rows, IdsFrom(rows, from, end - 1)).0, from, end - 1);
    }
  }

  // --- how many -----------------------------------------------------------------------------------------

  /** The rows superseded in one list and not in the other. */
  ghost function Newly(before: seq<Row>, after: seq<Row>): set<nat>
    requires |before| <= |after|
  {
    set j: nat | j < |after| && after[j].supersededBy.Some? && (j < |before| ==> before[j].supersededBy.None?)
  }

  lemma OneMoreNewly(rows: seq<Row>, mid: seq<Row>, k: nat)
    requires |mid| == |rows| && UniqueIds(mid) && k < |mid|
    requires forall j :: 0 <= j < |rows| && rows[j].supersededBy.Some? ==> mid[j].supersededBy.Some?
    ensures var after := Settled(mid, mid[k].id);
            && |after| == |rows|
            && |Newly(rows, after)| == |Newly(rows, mid)| + (if Settles(mid, mid[k].id) then 1 else 0)
            && (forall j :: 0 <= j < |rows| && rows[j].supersededBy.Some? ==> after[j].supersededBy.Some?)
  {
    var after := Settled(mid, mid[k].id);
    SettleOneCounts(mid, k);
    forall j | 0 <= j < |rows|
      ensures after[j].supersededBy.Some? <==>
              mid[j].supersededBy.Some? || (mid[j].supersededBy.None? && Names(mid[k], mid[j]))
    {
      SettleOne(mid, k, j);
    }
    if Settles(mid, mid[k].id) {
      var j: nat :| j < |mid| && mid[j].supersededBy.None? && Names(mid[k], mid[j]);
      NamedIsOne(mid, k, j);
      assert Newly(rows, after) == Newly(rows, mid) + {j};
    } else {
      assert Newly(rows, after) == Newly(rows, mid);
    }
  }

  lemma NamedIsOne(rows: seq<Row>, k: nat, j: nat)
    requires UniqueIds(rows) && k < |rows| && j < |rows| && Names(rows[k], rows[j])
    ensures forall i :: 0 <= i < |rows| && Names(rows[k], rows[i]) ==> i == j
  {
  }

  ghost predicate Counts(rows: seq<Row>, after: seq<Row>, count: nat) {
    && |after| == |rows| && count == |Newly(rows, after)|
    && forall j :: 0 <= j < |rows| && rows[j].supersededBy.Some? ==> after[j].supersededBy.Some?
  }

  ghost predicate CountsUp(rows: seq<Row>, after: seq<Row>, count: nat) {
    Counts(rows, after, count) && UniqueIds(after)
  }

  lemma OneMoreCounted(rows: seq<Row>, mid: seq<Row>, n: nat, id: string)
    requires CountsUp(rows, mid, n)
    ensures CountsUp(rows, Settled(mid, id), n + if Settles(mid, id) then 1 else 0)
  {
    var k := IndexOf(mid, id);
    if k < |mid| {
      OneMoreNewly(rows, mid, k);
      SettledKeepsIds(mid, id);
    }
  }

  lemma NoneNewly(rows: seq<Row>)
    ensures Newly(rows, rows) == {}
  {
  }

  lemma {:induction false} SettledCount(rows: seq<Row>, ids: seq<string>)
    requires UniqueIds(rows)
    ensures CountsUp(rows, SettledAll(rows, ids).0, SettledAll(rows, ids).1)
  {
    if ids == [] {
      NoneNewly(rows);
    } else {
      var front := ids[..|ids| - 1];
      SettledCount(rows, front);
      OneMoreCounted(rows, SettledAll(rows, front).0, SettledAll(rows, front).1, ids[|ids| - 1]);
    }
  }

  // --- the rows a call adds -------------------------------------------------------------------------------

  /** From these rows on, what has been taken in is exactly what `added` lists, in order. */
  ghost predicate AddedSince(base: seq<Row>, s: Intake) {
    base <= s.rows && s.totals.added == IdsFrom(s.rows, |base|, |s.rows|) && UniqueIds(s.rows)
    && forall j :: |base| <= j < |s.rows| ==> s.rows[j].supersededBy.None?
  }

  lemma OneIsAdded(digest: string -> string, base: seq<Row>, s: Intake, n: Normalized)
    requires AddedSince(base, s)
    ensures AddedSince(base, TakeOne(digest, s, n))
  {
    var key := DedupeKey(digest, n);
    SeenIds(s.rows, key);
    if !HasId(s.rows, key) {
      AppendedIds(s.rows, RowFor(key, n));
      var rows := s.rows + [RowFor(key, n)];
      assert IdsFrom(rows, |base|, |rows|) == IdsFrom(s.rows, |base|, |s.rows|) + [key];
    }
  }

  lemma {:induction false} AllAreAdded(digest: string -> string, base: seq<Row>, s: Intake, ns: seq<Normalized>)
    requires AddedSince(base, s)
    ensures AddedSince(base, TakeAll(digest, s, ns))
  {
    if ns != [] {
      AllAreAdded(digest, base, s, ns[..|ns| - 1]);
      OneIsAdded(digest, base, TakeAll(digest, s, ns[..|ns| - 1]), ns[|ns| - 1]);
    }
  }

  lemma {:induction false} RawsAreAdded(c: Config, base: seq<Row>, s: Intake, raws: seq<Raw>)
    requires AddedSince(base, s)
    ensures AddedSince(base, TakeRaws(c, s, raws))
  {
    if raws != [] {
      var before, raw := TakeRaws(c, s, raws[..|raws| - 1]), raws[|raws| - 1];
      RawsAreAdded(c, base, s, raws[..|raws| - 1]);
      if raw.provider in c.adapters && c.adapters[raw.provider](raw).Ok? {
        AllAreAdded(c.digest, base, Archived(before, raw), c.adapters[raw.provider](raw).value);
      }
    }
  }

  // --- one call -------------------------------------------------------------------------------------------

  /** Pairing off transfers changes no link. */
  lemma {:induction false} DetectKeepsLinks(rows: seq<Row>, i: nat, windowDays: int)
    requires i <= |rows|
    ensures var after := Detect(rows, i, windowDays).0;
            |after| == |rows| && forall j :: 0 <= j < |rows| ==> SameLinks(rows[j], after[j])
    decreases |rows| - i
  {
    if i < |rows| {
      var j := if Eligible(rows[i]) then FirstMatch(rows, i, i + 1, windowDays) else |rows|;
      DetectKeepsLinks(if j == |rows| then rows else Paired(rows, i, j), i + 1, windowDays);
    }
  }

  ghost predicate SameLinks(a: Row, b: Row) {
    b.id == a.id && b.input == a.input && b.direction == a.direction
    && b.supersededBy == a.supersededBy && b.supersedes == a.supersedes
  }

  lemma {:induction false} ActiveAreNotSuperseded(rows: seq<Row>, r: Row)
    ensures r in Active(rows) <==> r in rows && r.supersededBy.None?
  {
    if rows != [] {
      var front, last := rows[..|rows| - 1], rows[|rows| - 1];
      assert rows == front + [last];
      ActiveAreNotSuperseded(front, r);
    }
  }

  /** Whether row j of the rows after a call had been superseded before it. */
  ghost function Was(s: State, j: nat): Option<string> {
    if j < |s.rows| then s.rows[j].supersededBy else None
  }

  ghost predicate SupersededAsNamed(s: State, after: seq<Row>, j: nat)
    requires |s.rows| <= |after| && j < |after|
  {
    && (Was(s, j).Some? || !NamedBy(after, |s.rows|, |after|, j) ==> after[j].supersededBy == Was(s, j))
    && (Was(s, j).None? && NamedBy(after, |s.rows|, |after|, j) ==>
          SupersededByFirst(after, |s.rows|, |after|, j) && after[j] !in Active(after))
  }

  /**
   * After every call, a pending row that a row this call added names is superseded by the first that does, is
   * linked from it, and is no longer active; every other row is superseded exactly if it was. The call reports
   * how many rows that is.
   */
  lemma IngestSupersedes(c: Config, s: State, raws: seq<Raw>)
    requires UniqueIds(s.rows)
    ensures var (s', r) := Ingested(c, s, raws);
            && |s.rows| <= |s'.rows|
            && (forall j :: 0 <= j < |s'.rows| ==> SupersededAsNamed(s, s'.rows, j))
            && r.pendingSuperseded == |Newly(s.rows, s'.rows)|
  {
    var start := Intake(s.rows, s.archive, NoTotals);
    RawsAreAdded(c, s.rows, start, raws);
    var taken := TakeRaws(c, start, raws);
    var (settled, count) := SettledAll(taken.rows, taken.totals.added);
    TakenSupersedes(s, taken.rows, settled, count, c.windowDays);
  }

  lemma TakenSupersedes(s: State, taken: seq<Row>, settled: seq<Row>, count: nat, windowDays: int)
    requires s.rows <= taken && UniqueIds(taken)
    requires forall i :: |s.rows| <= i < |taken| ==> taken[i].supersededBy.None?
    requires SettledAll(taken, IdsFrom(taken, |s.rows|, |taken|)) == (settled, count)
    ensures var after := Detect(settled, 0, windowDays).0;
            && |s.rows| <= |after| && (forall j :: 0 <= j < |after| ==> SupersededAsNamed(s, after, j))
            && count == |Newly(s.rows, after)|
  {
    RangeSettles(taken, |s.rows|, |taken|);
    SettledCount(taken, IdsFrom(taken, |s.rows|, |taken|));
    DetectKeepsLinks(settled, 0, windowDays);
    var after := Detect(settled, 0, windowDays).0;
    forall j | 0 <= j < |after| ensures SupersededAsNamed(s, after, j) {
      LinkedRows(s, taken, settled, after, j);
    }
    SameNewly(s.rows, taken, settled, after);
  }

  lemma SameNewly(before: seq<Row>, taken: seq<Row>, settled: seq<Row>, after: seq<Row>)
    requires before <= taken && |settled| == |taken| == |after|
    requires forall i :: |before| <= i < |taken| ==> taken[i].supersededBy.None?
    requires forall i :: 0 <= i < |after| ==> SameLinks(settled[i], after[i])
    ensures Newly(before, after) == Newly(taken, settled)
  {
    forall j: nat | j < |after| ensures after[j].supersededBy == settled[j].supersededBy {
      assert SameLinks(settled[j], after[j]);
    }
  }

  lemma LinkedRows(s: State, taken: seq<Row>, settled: seq<Row>, after: seq<Row>, j: nat)
    requires s.rows <= taken && |settled| == |taken| == |after| && j < |after|
    requires forall i :: |s.rows| <= i < |taken| ==> taken[i].supersededBy.None?
    requires forall i :: 0 <= i < |after| ==> SameLinks(settled[i], after[i])
    requires SettledAsNamed(taken, settled, |s.rows|, |taken|, j)
    ensures SupersededAsNamed(s, after, j)
  {
    var from, end := |s.rows|, |taken|;
    assert SameLinks(settled[j], after[j]);
    forall k | 0 <= k < end ensures Names(after[k], after[j]) == Names(settled[k], settled[j]) {
      assert SameLinks(settled[k], after[k]);
    }
    ActiveAreNotSuperseded(after, after[j]);
    if Was(s, j).None? && NamedBy(after, from, end, j) {
      var n :| from <= n < end && Names(after[n], after[j]);
      assert Names(settled[n], settled[j]);
      var k :| from <= k < end && Names(settled[k], settled[j])
               && settled[j].supersededBy == Some(settled[k].id) && settled[k].supersedes == Some(settled[j].id)
               && forall n :: from <= n < k ==> !Names(settled[n], settled[j]);
      assert SameLinks(settled[k], after[k]) && Names(after[k], after[j]);
    }
  }

  // --- how many pairs ---------------------------------------------------------------------------------

  ghost function FlaggedRows(rows: seq<Row>): set<nat> {
    set j: nat | j < |rows| && rows[j].transfer
  }

  lemma PairingFlagsTwo(rows: seq<Row>, i: nat, j: nat)
    requires i < j < |rows| && !rows[i].transfer && !rows[j].transfer
    ensures |FlaggedRows(Paired(rows, i, j))| == |FlaggedRows(rows)| + 2
  {
    assert FlaggedRows(Paired(rows, i, j)) == FlaggedRows(rows) + {i} + {j};
  }

  /** A call reports as many transfers as it flags pairs of rows. */
  lemma {:induction false} TransfersAreCounted(rows: seq<Row>, i: nat, windowDays: int)
    requires i <= |rows|
    ensures var (after, pairs) := Detect(rows, i, windowDays);
            |FlaggedRows(after)| == |FlaggedRows(rows)| + 2 * pairs
    decreases |rows| - i
  {
    if i < |rows| {
      var j := if Eligible(rows[i]) then FirstMatch(rows, i, i + 1, windowDays) else |rows|;
      if j < |rows| {
        PairingFlagsTwo(rows, i, j);
      }
      TransfersAreCounted(if j == |rows| then rows else Paired(rows, i, j), i + 1, windowDays);
    }
  }

  // --- what the rows hold -----------------------------------------------------------------------------

  /** A row is known by its record's key, flows the way its sign says, and is a transfer only when flagged. */
  ghost predicate HoldsItsRecord(c: Config, r: Row) {
    && r.id == DedupeKey(c.digest, r.input)
    && (r.direction == INFLOW <==> r.input.amount >= 0)
    && r.kind == if r.transfer then "TRANSFER" else r.input.kind
  }

  ghost predicate HoldRecords(c: Config, rows: seq<Row>) {
    forall j :: 0 <= j < |rows| ==> HoldsItsRecord(c, rows[j])
  }

  lemma {:induction false} TakingKeepsRecords(c: Config, s: Intake, ns: seq<Normalized>)
    requires HoldRecords(c, s.rows)
    ensures HoldRecords(c, TakeAll(c.digest, s, ns).rows)
  {
    if ns != [] {
      TakingKeepsRecords(c, s, ns[..|ns| - 1]);
    }
  }

  lemma {:induction false} RawsKeepRecords(c: Config, s: Intake, raws: seq<Raw>)
    requires HoldRecords(c, s.rows)
    ensures HoldRecords(c, TakeRaws(c, s, raws).rows)
  {
    if raws != [] {
      var before, raw := TakeRaws(c, s, raws[..|raws| - 1]), raws[|raws| - 1];
      RawsKeepRecords(c, s, raws[..|raws| - 1]);
      if raw.provider in c.adapters && c.adapters[raw.provider](raw).Ok? {
        TakingKeepsRecords(c, Archived(before, raw), c.adapters[raw.provider](raw).value);
      }
    }
  }

  lemma {:induction false} SettlingKeepsRecords(c: Config, rows: seq<Row>, ids: seq<string>)
    requires HoldRecords(c, rows)
    ensures HoldRecords(c, SettledAll(rows, ids).0)
  {
    if ids != [] {
      var mid := SettledAll(rows, ids[..|ids| - 1]).0;
      SettlingKeepsRecords(c, rows, ids[..|ids| - 1]);
      OneSettlingKeeps(c, mid, ids[|ids| - 1]);
    }
  }

  lemma OneSettlingKeeps(c: Config, rows: seq<Row>, id: string)
    requires HoldRecords(c, rows)
    ensures HoldRecords(c, Settled(rows, id))
  {
    forall j | 0 <= j < |rows| ensures HoldsItsRecord(c, Settled(rows, id)[j]) {
      assert HoldsItsRecord(c, rows[j]);
    }
  }

  lemma {:induction false} DetectingKeepsRecords(c: Config, rows: seq<Row>, i: nat)
    requires i <= |rows| && HoldRecords(c, rows)
    ensures HoldRecords(c, Detect(rows, i, c.windowDays).0)
    decreases |rows| - i
  {
    if i < |rows| {
      var j := if Eligible(rows[i]) then FirstMatch(rows, i, i + 1, c.windowDays) else |rows|;
      DetectingKeepsRecords(c, if j == |rows| then rows else Paired(rows, i, j), i + 1);
    }
  }

  /** After every sequence of calls from an empty pipeline, every row holds its record. */
  lemma {:induction false} EveryRowHoldsItsRecord(c: Config, s: State, calls: seq<seq<Raw>>)
    requires HoldRecords(c, s.rows)
    ensures HoldRecords(c, Run(c, s, calls).rows)
    decreases |calls|
  {
    if calls != [] {
      var start := Intake(s.rows, s.archive, NoTotals);
      var taken := TakeRaws(c, start, calls[0]);
      RawsKeepRecords(c, start, calls[0]);
      SettlingKeepsRecords(c, taken.rows, taken.totals.added);
      DetectingKeepsRecords(c, SettledAll(taken.rows, taken.totals.added).0, 0);
      EveryRowHoldsItsRecord(c, Ingested(c, s, calls[0]).0, calls[1..]);
    }
  }

  // --- which records are taken --------------------------------------------------------------------------

  /** The records the adapters make of these, in order; those no adapter takes or that fail give none. */
  function Incoming(c: Config, raws: seq<Raw>): seq<Normalized> {
    if raws == [] then []
    else
      var raw := raws[|raws| - 1];
      Incoming(c, raws[..|raws| - 1])
      + if raw.provider in c.adapters && c.adapters[raw.provider](raw).Ok? then c.adapters[raw.provider](raw).value else []
  }

  /** The rows past `base` are, in order, the records of `ns` whose keys were new when they came. */
  ghost predicate TakenFrom(digest: string -> string, base: seq<Row>, s: Intake, ns: seq<Normalized>) {
    && base <= s.rows
    && (forall n :: n in ns ==> DedupeKey(digest, n) in Ids(s.rows))
    && (forall j :: |base| <= j < |s.rows| ==> FirstOfItsKey(digest, ns, s.rows[j]))
    && s.totals.duplicates + (|s.rows| - |base|) == |ns|
  }

  /** The row holds the first of these records with its key. */
  ghost predicate FirstOfItsKey(digest: string -> string, ns: seq<Normalized>, r: Row) {
    exists i :: 0 <= i < |ns| && ns[i] == r.input && r.id == DedupeKey(digest, ns[i])
             && forall m :: 0 <= m < i ==> DedupeKey(digest, ns[m]) != r.id
  }

  lemma OneMoreTaken(digest: string -> string, base: seq<Row>, s: Intake, ns: seq<Normalized>, n: Normalized)
    requires TakenFrom(digest, base, s, ns)
    ensures TakenFrom(digest, base, TakeOne(digest, s, n), ns + [n])
  {
    var key, s' := DedupeKey(digest, n), TakeOne(digest, s, n);
    var ns' := ns + [n];
    SeenIds(s.rows, key);
    GrownIds(s.rows, RowFor(key, n));
    forall m | m in ns' ensures DedupeKey(digest, m) in Ids(s'.rows) {
      assert m in ns || m == n;
    }
    forall j | |base| <= j < |s'.rows| ensures FirstOfItsKey(digest, ns', s'.rows[j]) {
      if j < |s.rows| {
        var i :| 0 <= i < |ns| && ns[i] == s.rows[j].input && s.rows[j].id == DedupeKey(digest, ns[i])
                 && forall m :: 0 <= m < i ==> DedupeKey(digest, ns[m]) != s.rows[j].id;
        assert ns'[i] == ns[i] && forall m :: 0 <= m < i ==> ns'[m] == ns[m];
      } else {
        assert ns'[|ns|] == n;
        forall m | 0 <= m < |ns| ensures DedupeKey(digest, ns'[m]) != key {
          assert ns[m] in ns;
        }
      }
    }
  }

  lemma {:induction false} AllTaken(digest: string -> string, base: seq<Row>, s: Intake, ns: seq<Normalized>, more: seq<Normalized>)
    requires TakenFrom(digest, base, s, ns)
    ensures TakenFrom(digest, base, TakeAll(digest, s, more), ns + more)
  {
    if more == [] {
      assert ns + more == ns;
    } else {
      var front, last := more[..|more| - 1], more[|more| - 1];
      AllTaken(digest, base, s, ns, front);
      LastTaken(digest, base, TakeAll(digest, s, front), ns, front, last, more);
    }
  }

  lemma LastTaken(digest: string -> string, base: seq<Row>, s: Intake, ns: seq<Normalized>, front: seq<Normalized>,
                  last: Normalized, more: seq<Normalized>)
    requires TakenFrom(digest, base, s, ns + front) && more == front + [last]
    ensures TakenFrom(digest, base, TakeOne(digest, s, last), ns + more)
  {
    OneMoreTaken(digest, base, s, ns + front, last);
    assert ns + front + [last] == ns + more;
  }

  lemma {:induction false} RawsTaken(c: Config, base: seq<Row>, s: Intake, raws: seq<Raw>)
    requires s.rows == base && s.totals == NoTotals
    ensures TakenFrom(c.digest, base, TakeRaws(c, s, raws), Incoming(c, raws))
  {
    if raws != [] {
      var before, raw := TakeRaws(c, s, raws[..|raws| - 1]), raws[|raws| - 1];
      var ns := Incoming(c, raws[..|raws| - 1]);
      RawsTaken(c, base, s, raws[..|raws| - 1]);
      if raw.provider in c.adapters && c.adapters[raw.provider](raw).Ok? {
        AllTaken(c.digest, base, Archived(before, raw), ns, c.adapters[raw.provider](raw).value);
      } else {
        assert ns + [] == ns;
      }
    }
  }

  /**
   * A call adds one row for each key its records bring that no row had, holding the first record with that key;
   * every other record is counted a duplicate.
   */
  lemma IngestTakesRecords(c: Config, s: State, raws: seq<Raw>)
    requires UniqueIds(s.rows)
    ensures var (s', r) := Ingested(c, s, raws);
            && |s.rows| <= |s'.rows| && |r.totals.added| == |s'.rows| - |s.rows|
            && (forall j :: |s.rows| <= j < |s'.rows| ==>
                  FirstOfItsKey(c.digest, Incoming(c, raws), s'.rows[j]) && r.totals.added[j - |s.rows|] == s'.rows[j].id)
            && (forall n :: n in Incoming(c, raws) ==> DedupeKey(c.digest, n) in Ids(s'.rows))
            && r.totals.duplicates + |r.totals.added| == |Incoming(c, raws)|
  {
    var start := Intake(s.rows, s.archive, NoTotals);
    RawsAreAdded(c, s.rows, start, raws);
    RawsTaken(c, s.rows, start, raws);
    var taken := TakeRaws(c, start, raws);
    TakenStay(taken.rows, |s.rows|, c.windowDays);
  }

  lemma TakenStay(rows: seq<Row>, from: nat, windowDays: int)
    requires UniqueIds(rows) && from <= |rows|
    ensures var after := Detect(SettledAll(rows, IdsFrom(rows, from, |rows|)).0, 0, windowDays).0;
            && |after| == |rows| && Ids(after) == Ids(rows)
            && forall j :: 0 <= j < |rows| ==> after[j].id == rows[j].id && after[j].input == rows[j].input
  {
    RangeSettles(rows, from, |rows|);
    var settled := SettledAll(rows, IdsFrom(rows, from, |rows|)).0;
    DetectKeepsLinks(settled, 0, windowDays);
    var after := Detect(settled, 0, windowDays).0;
    forall j | 0 <= j < |rows| ensures after[j].id == rows[j].id && after[j].input == rows[j].input {
      assert SettledAsNamed(rows, settled, from, |rows|, j) && SameLinks(settled[j], after[j]);
    }
    SameIdsSameSet(rows, after);
  }

  // --- the archive and what was refused ------------------------------------------------------------------

  predicate Refused(c: Config, raw: Raw) {
    raw.provider in c.adapters ==> c.adapters[raw.provider](raw).Err?
  }

  function RefusedCount(c: Config, raws: seq<Raw>): nat {
    if raws == [] then 0
    else RefusedCount(c, raws[..|raws| - 1]) + if Refused(c, raws[|raws| - 1]) then 1 else 0
  }

  lemma {:induction false} TakingLeavesArchive(digest: string -> string, s: Intake, ns: seq<Normalized>)
    ensures var s' := TakeAll(digest, s, ns);
            s'.archive == s.archive && s'.totals.archived == s.totals.archived && s'.totals.issues == s.totals.issues
  {
    if ns != [] {
      TakingLeavesArchive(digest, s, ns[..|ns| - 1]);
    }
  }

  /** Every raw record is archived once by its provider, account and id, and each one refused leaves an issue. */
  lemma {:induction false} RawsAreArchived(c: Config, s: Intake, raws: seq<Raw>)
    ensures var s' := TakeRaws(c, s, raws);
            && s'.archive == s.archive + ArchiveKeys(raws)
            && s'.totals.archived - s.totals.archived == |s'.archive| - |s.archive|
            && |s'.totals.issues| == |s.totals.issues| + RefusedCount(c, raws)
  {
    if raws != [] {
      var front, raw := raws[..|raws| - 1], raws[|raws| - 1];
      RawsAreArchived(c, s, front);
      OneIsArchived(c, TakeRaws(c, s, front), raw);
      ArchiveKeysGrow(raws);
    }
  }

  ghost function ArchiveKeys(raws: seq<Raw>): set<ArchiveKey> {
    set raw | raw in raws :: (raw.provider, raw.accountId, raw.externalId)
  }

  lemma ArchiveKeysGrow(raws: seq<Raw>)
    requires raws != []
    ensures var raw := raws[|raws| - 1];
            ArchiveKeys(raws) == ArchiveKeys(raws[..|raws| - 1]) + {(raw.provider, raw.accountId, raw.externalId)}
  {
    assert raws == raws[..|raws| - 1] + [raws[|raws| - 1]];
  }

  lemma OneIsArchived(c: Config, s: Intake, raw: Raw)
    ensures var s' := TakeRaw(c, s, raw);
            && s'.archive == s.archive + {(raw.provider, raw.accountId, raw.externalId)}
            && s'.totals.archived - s.totals.archived == |s'.archive| - |s.archive|
            && |s'.totals.issues| == |s.totals.issues| + if Refused(c, raw) then 1 else 0
  {
    if !Refused(c, raw) {
      TakingLeavesArchive(c.digest, Archived(s, raw), c.adapters[raw.provider](raw).value);
    }
  }

  // --- keys -----------------------------------------------------------------------------------------------

  /** Two records their providers gave ids have one key exactly when they agree on provider, account and id. */
  lemma KeysIdentifyRecords(digest: string -> string, a: Normalized, b: Normalized)
    requires a.externalId != "" && b.externalId != ""
    requires Free(a.provider, ':') && Free(b.provider, ':') && Free(a.accountId, ':') && Free(b.accountId, ':')
    ensures DedupeKey(digest, a) == DedupeKey(digest, b) <==>
            a.provider == b.provider && a.accountId == b.accountId && a.externalId == b.externalId
  {
    if DedupeKey(digest, a) == DedupeKey(digest, b) {
      var x, y := a.accountId + ":" + a.externalId, b.accountId + ":" + b.externalId;
      assert DedupeKey(digest, a) == a.provider + [':'] + x && DedupeKey(digest, b) == b.provider + [':'] + y;
      HeadOfJoin(a.provider, b.provider, ':', x, y);
      assert x == a.accountId + [':'] + a.externalId && y == b.accountId + [':'] + b.externalId;
      HeadOfJoin(a.accountId, b.accountId, ':', a.externalId, b.externalId);
    }
  }

  /** Without ids, two records of one account have one key exactly when their contents digest alike. */
  lemma ContentsIdentifyRecords(digest: string -> string, a: Normalized, b: Normalized)
    requires a.externalId == "" && b.externalId == "" && a.provider == b.provider && a.accountId == b.accountId
    requires forall s, t :: digest(s) == digest(t) ==> s == t
    requires Free(a.provider, '|') && Free(a.accountId, '|') && Free(a.date.text, '|') && Free(a.currency, '|') && Free(a.description, '|')
    requires Free(b.date.text, '|') && Free(b.currency, '|') && Free(b.description, '|')
    ensures DedupeKey(digest, a) == DedupeKey(digest, b) <==>
            a.date.text == b.date.text && a.currency == b.currency && a.amount == b.amount && a.description == b.description
  {
    var scope := a.provider + ":" + a.accountId + ":";
    if DedupeKey(digest, a) == DedupeKey(digest, b) {
      assert DedupeKey(digest, a)[|scope| + 1..] == digest(Basis(a)) && DedupeKey(digest, b)[|scope| + 1..] == digest(Basis(b));
      var ps := [a.provider, a.accountId, a.date.text, a.currency, IntText(a.amount), a.description];
      var qs := [b.provider, b.accountId, b.date.text, b.currency, IntText(b.amount), b.description];
      JoinIsInjective(ps, qs, '|');
      assert ps[2] == qs[2] && ps[3] == qs[3] && ps[4] == qs[4] && ps[5] == qs[5];
      IntTextInjective(a.amount, b.amount);
    }
  }
}
