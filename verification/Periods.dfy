/**
 * Month-end period locks: the in-memory store (ledger-kernel periods.ts), the SQL row table
 * (ledger-postgres pgPeriodStore.ts), and when the second refines the first.
 */
module Periods {
  import opened Text
  import opened Dates
  import opened Ledger

  datatype PeriodStatus = OPEN | LOCKED

  // --- one tenant's locks in memory -----------------------------------------------------

  /** A locked set, a high-water mark, and re-open exceptions at or below the mark. */
  datatype Locks = Locks(locked: set<Month>, through: Option<Month>, reopened: set<Month>)

  const NoLocks := Locks({}, None, {})

  predicate Covered(l: Locks, p: Month) {
    l.through.Some? && p <= l.through.value
  }

  function StatusOf(l: Locks, p: Month): PeriodStatus {
    if p in l.reopened then OPEN
    else if p in l.locked then LOCKED
    else if Covered(l, p) then LOCKED
    else OPEN
  }

  function Locked(l: Locks, p: Month): (r: Locks)
    ensures StatusOf(r, p) == LOCKED
  {
    l.(locked := l.locked + {p}, reopened := l.reopened - {p})
  }

  function NewMark(l: Locks, p: Month): (mark: Month)
    ensures p <= mark && (l.through.Some? ==> l.through.value <= mark)
  {
    if l.through.None? || p > l.through.value then p else l.through.value
  }

  function LockedThrough(l: Locks, p: Month): (r: Locks)
    ensures forall q :: q <= NewMark(l, p) ==> StatusOf(r, q) == LOCKED
  {
    var mark := NewMark(l, p);
    l.(through := Some(mark), reopened := set q | q in l.reopened && q > mark)
  }

  function Unlocked(l: Locks, p: Month): (r: Locks)
    ensures StatusOf(r, p) == OPEN
  {
    Locks(l.locked - {p}, l.through, if Covered(l, p) then l.reopened + {p} else l.reopened)
  }

  /** Locking or re-opening one period gives it that status and leaves every other as it was. */
  lemma OnePeriodChanges(l: Locks, p: Month, q: Month)
    ensures StatusOf(Locked(l, p), q) == if q == p then LOCKED else StatusOf(l, q)
    ensures StatusOf(Unlocked(l, p), q) == if q == p then OPEN else StatusOf(l, q)
  {
  }

  /**
   * Locking through a period locks it and every period before it. A later period keeps its status, except
   * one re-opened below a mark that was higher still: that exception is cleared.
   */
  lemma LockingThrough(l: Locks, p: Month, q: Month)
    ensures q <= p ==> StatusOf(LockedThrough(l, p), q) == LOCKED
    ensures q > p ==> (StatusOf(LockedThrough(l, p), q) == StatusOf(l, q) <==> !(q in l.reopened && Covered(l, q)))
  {
  }

  /** An input where a later month changes: locked through March, February re-opened, then locked through January. */
  lemma LockingEarlierClosesALaterMonth()
    ensures var l := Unlocked(LockedThrough(NoLocks, 202603), 202602);
            StatusOf(l, 202602) == OPEN && StatusOf(LockedThrough(l, 202601), 202602) == LOCKED
  {
    var l := Unlocked(LockedThrough(NoLocks, 202603), 202602);
    assert 202602 in l.reopened;
  }

  /** The process-local store: every tenant's locks in shared sets and one map. */
  class InMemoryPeriodStore {
    var locked: set<(TenantId, Month)>
    var through: map<TenantId, Month>
    var reopened: set<(TenantId, Month)>

    ghost function View(t: TenantId): Locks
      reads this
    {
      Locks(set k | k in locked && k.0 == t :: k.1,
            if t in through then Some(through[t]) else None,
            set k | k in reopened && k.0 == t :: k.1)
    }

    constructor ()
      ensures forall t :: View(t) == NoLocks
    {
      locked, through, reopened := {}, map[], {};
    }

    method Status(t: TenantId, p: Month) returns (s: PeriodStatus)
      ensures s == StatusOf(View(t), p)
    {
      assert (t, p) in locked <==> p in View(t).locked;
      assert (t, p) in reopened <==> p in View(t).reopened;
      if (t, p) in reopened {
        return OPEN;
      }
      if (t, p) in locked || (t in through && p <= through[t]) {
        return LOCKED;
      }
      return OPEN;
    }

    method Lock(t: TenantId, p: Month)
      modifies this
      ensures View(t) == Locked(old(View(t)), p)
      ensures forall u :: u != t ==> View(u) == old(View(u))
    {
      locked := locked + {(t, p)};
      reopened := reopened - {(t, p)};
      assert View(t).locked == old(View(t)).locked + {p};
      assert View(t).reopened == old(View(t)).reopened - {p};
      forall u | u != t ensures View(u) == old(View(u)) {
        assert View(u).locked == old(View(u)).locked;
        assert View(u).reopened == old(View(u)).reopened;
      }
    }

    method LockThrough(t: TenantId, p: Month)
      modifies this
      ensures View(t) == LockedThrough(old(View(t)), p)
      ensures forall u :: u != t ==> View(u) == old(View(u))
    {
      if t !in through || p > through[t] {
        through := through[t := p];
      }
      var mark := through[t];
      ghost var before := reopened;
      var todo := reopened;
      while todo != {}
        invariant todo <= before
        invariant reopened == set k | k in before && (k in todo || k.0 != t || k.1 > mark)
        invariant locked == old(locked) && through == old(through)[t := mark]
        decreases todo
      {
        var k :| k in todo;
        todo := todo - {k};
        if k.0 == t && k.1 <= mark {
          reopened := reopened - {k};
        }
      }
      assert View(t).reopened == LockedThrough(old(View(t)), p).reopened;
      forall u | u != t ensures View(u) == old(View(u)) {
        assert View(u).reopened == old(View(u)).reopened;
      }
    }

    method Unlock(t: TenantId, p: Month)
      modifies this
      ensures View(t) == Unlocked(old(View(t)), p)
      ensures forall u :: u != t ==> View(u) == old(View(u))
    {
      locked := locked - {(t, p)};
      if t in through && p <= through[t] {
        reopened := reopened + {(t, p)};
      }
      assert View(t).locked == old(View(t)).locked - {p};
      assert View(t).reopened == Unlocked(old(View(t)), p).reopened;
      forall u | u != t ensures View(u) == old(View(u)) {
        assert View(u).locked == old(View(u)).locked;
        assert View(u).reopened == old(View(u)).reopened;
      }
    }
  }

  // --- one tenant's rows in SQL -----------------------------------------------------------

  datatype RowStatus = OPEN_ROW | LOCKED_ROW | LOCKED_THROUGH_ROW

  type Rows = map<Month, RowStatus>

  predicate MarkRow(rows: Rows, p: Month) {
    p in rows && rows[p] == LOCKED_THROUGH_ROW
  }

  /** The `EXISTS` subquery: some high-water row at or above the period. */
  predicate Watermarked(rows: Rows, p: Month) {
    exists r :: r in rows && MarkRow(rows, r) && r >= p
  }

  function RowStatusOf(rows: Rows, p: Month): PeriodStatus {
    if p in rows then (if rows[p] == OPEN_ROW then OPEN else LOCKED)
    else if Watermarked(rows, p) then LOCKED
    else OPEN
  }

  function RowLockedThrough(rows: Rows, p: Month): Rows {
    var upserted := rows[p := LOCKED_THROUGH_ROW];
    map q | q in upserted && !(upserted[q] == OPEN_ROW && q <= p) :: upserted[q]
  }

  type Table = map<(TenantId, Month), RowStatus>

  /** One tenant's rows. */
  ghost function TenantRows(table: Table, t: TenantId): (rows: Rows)
    ensures forall p :: p in rows <==> (t, p) in table
    ensures forall p :: p in rows ==> rows[p] == table[(t, p)]
  {
    var periods := set k | k in table && k.0 == t :: k.1;
    assert forall p :: (t, p) in table ==> (t, p).1 in periods;
    map p | p in periods :: table[(t, p)]
  }

  lemma UpsertedRows(table: Table, t: TenantId, p: Month, row: RowStatus)
    ensures TenantRows(table[(t, p) := row], t) == TenantRows(table, t)[p := row]
    ensures forall u :: u != t ==> TenantRows(table[(t, p) := row], u) == TenantRows(table, u)
  {
    forall u | u != t ensures TenantRows(table[(t, p) := row], u) == TenantRows(table, u) {
    }
  }

  /** The `DELETE` of the explicit OPEN rows at or below a period. */
  function WithoutExceptions(table: Table, t: TenantId, p: Month): Table {
    map k | k in table && !(k.0 == t && table[k] == OPEN_ROW && k.1 <= p) :: table[k]
  }

  lemma DeletedRows(table: Table, t: TenantId, p: Month)
    ensures var rows := TenantRows(table, t);
            TenantRows(WithoutExceptions(table, t, p), t) == map q | q in rows && !(rows[q] == OPEN_ROW && q <= p) :: rows[q]
    ensures forall u :: u != t ==> TenantRows(WithoutExceptions(table, t, p), u) == TenantRows(table, u)
  {
    forall u | u != t ensures TenantRows(WithoutExceptions(table, t, p), u) == TenantRows(table, u) {
    }
  }

  /** The durable store: one row table for every tenant. */
  class SqlPeriodStore {
    var table: Table

    ghost function View(t: TenantId): Rows
      reads this
    {
      TenantRows(table, t)
    }

    constructor ()
      ensures forall t :: View(t) == map[]
    {
      table := map[];
    }

    method Status(t: TenantId, p: Month) returns (s: PeriodStatus)
      ensures s == RowStatusOf(View(t), p)
    {
      var watermarked := exists k :: k in table && k.0 == t && table[k] == LOCKED_THROUGH_ROW && k.1 >= p;
      assert (t, p) in table <==> p in View(t);
      assert watermarked <==> Watermarked(View(t), p) by {
        if watermarked {
          var k :| k in table && k.0 == t && table[k] == LOCKED_THROUGH_ROW && k.1 >= p;
          assert MarkRow(View(t), k.1);
        }
        if Watermarked(View(t), p) {
          var r :| r in View(t) && MarkRow(View(t), r) && r >= p;
          assert (t, r) in table && (t, r).1 >= p;
        }
      }
      if (t, p) in table {
        s := if table[(t, p)] == OPEN_ROW then OPEN else LOCKED;
      } else {
        s := if watermarked then LOCKED else OPEN;
      }
    }

    method Lock(t: TenantId, p: Month)
      modifies this
      ensures View(t) == old(View(t))[p := LOCKED_ROW]
      ensures forall u :: u != t ==> View(u) == old(View(u))
    {
      UpsertedRows(table, t, p, LOCKED_ROW);
      table := table[(t, p) := LOCKED_ROW];
    }

    method LockThrough(t: TenantId, p: Month)
      modifies this
      ensures View(t) == RowLockedThrough(old(View(t)), p)
      ensures forall u :: u != t ==> View(u) == old(View(u))
    {
      UpsertedRows(table, t, p, LOCKED_THROUGH_ROW);
      table := table[(t, p) := LOCKED_THROUGH_ROW];
      DeletedRows(table, t, p);
      table := WithoutExceptions(table, t, p);
    }

    method Unlock(t: TenantId, p: Month)
      modifies this
      ensures View(t) == old(View(t))[p := OPEN_ROW]
      ensures forall u :: u != t ==> View(u) == old(View(u))
    {
      UpsertedRows(table, t, p, OPEN_ROW);
      table := table[(t, p) := OPEN_ROW];
    }
  }

  // --- the two side by side ---------------------------------------------------------------

  datatype PeriodOp = Lock(period: Month) | LockThrough(period: Month) | Unlock(period: Month)

  datatype Pair = Pair(memory: Locks, rows: Rows)

  const Fresh := Pair(NoLocks, map[])

  function Apply(s: Pair, op: PeriodOp): Pair {
    match op
    case Lock(p) => Pair(Locked(s.memory, p), s.rows[p := LOCKED_ROW])
    case LockThrough(p) => Pair(LockedThrough(s.memory, p), RowLockedThrough(s.rows, p))
    case Unlock(p) => Pair(Unlocked(s.memory, p), s.rows[p := OPEN_ROW])
  }

  function Run(s: Pair, ops: seq<PeriodOp>): Pair
    decreases |ops|
  {
    if ops == [] then s else Run(Apply(s, ops[0]), ops[1..])
  }

  /** Both stores report the same status for every period. */
  ghost predicate Agree(s: Pair) {
    forall p: Month :: StatusOf(s.memory, p) == RowStatusOf(s.rows, p)
  }

  ghost predicate AgreeThroughout(s: Pair, ops: seq<PeriodOp>)
    decreases |ops|
  {
    Agree(s) && (ops != [] ==> AgreeThroughout(Apply(s, ops[0]), ops[1..]))
  }

  /**
   * The rows still cover every month when the row at `p` stops being a high-water row: it was
   * not one, a higher one covers the same months, or a lower one leaves only months between
   * them that have a row of their own.
   */
  ghost predicate MayOverwrite(rows: Rows, p: Month) {
    MarkRow(rows, p) ==>
      exists r :: r in rows && r != p && MarkRow(rows, r)
        && (r > p || forall q :: r < q < p ==> q in rows)
  }

  /** What a caller has to check for one call to keep the two stores in step. */
  ghost predicate Safe(s: Pair, op: PeriodOp) {
    match op
    case Lock(p) => MayOverwrite(s.rows, p)
    case Unlock(p) => MayOverwrite(s.rows, p)
    case LockThrough(p) =>
      forall q :: q in s.rows && s.rows[q] == OPEN_ROW && q > p ==> !Covered(s.memory, q)
  }

  ghost predicate SafeRun(s: Pair, ops: seq<PeriodOp>)
    decreases |ops|
  {
    ops != [] ==> Safe(s, ops[0]) && SafeRun(Apply(s, ops[0]), ops[1..])
  }

  /** How the two representations relate while the statuses agree. */
  ghost predicate Related(s: Pair) {
    var m, rows := s.memory, s.rows;
    && (forall p :: p in m.reopened <==> p in rows && rows[p] == OPEN_ROW && Covered(m, p))
    && (forall p :: p in m.locked ==> p in rows && rows[p] != OPEN_ROW)
    && (forall p :: p in rows && rows[p] == LOCKED_ROW ==> p in m.locked)
    && (forall p :: p in rows && MarkRow(rows, p) ==> Covered(m, p))
    && (forall p :: p !in rows && Covered(m, p) ==> Watermarked(rows, p))
  }

  lemma RelatedAgree(s: Pair)
    requires Related(s)
    ensures Agree(s)
  {
    forall p ensures StatusOf(s.memory, p) == RowStatusOf(s.rows, p) {
      if p !in s.rows && Watermarked(s.rows, p) {
        var r :| r in s.rows && MarkRow(s.rows, r) && r >= p;
        assert Covered(s.memory, r);
      }
    }
  }

  /** Below any bound there is a month outside a finite set. */
  lemma {:induction false} MonthBelow(taken: set<Month>, bound: Month) returns (p: Month)
    ensures p < bound && p !in taken
    decreases taken
  {
    p := bound - 1;
    if p in taken {
      p := MonthBelow(taken - {p}, p);
    }
  }

  /** Overwriting a high-water row exposes some month exactly when `MayOverwrite` fails. */
  lemma OverwriteCovers(s: Pair, p: Month, row: RowStatus)
    requires Related(s) && row != LOCKED_THROUGH_ROW
    ensures var rows' := s.rows[p := row];
            MayOverwrite(s.rows, p) <==> forall q :: q !in rows' && Covered(s.memory, q) ==> Watermarked(rows', q)
  {
    var rows' := s.rows[p := row];
    if MayOverwrite(s.rows, p) {
      forall q | q !in rows' && Covered(s.memory, q) ensures Watermarked(rows', q) {
        assert Watermarked(s.rows, q);
        var r :| r in s.rows && MarkRow(s.rows, r) && r >= q;
        if r == p {
          var r' :| r' in s.rows && r' != p && MarkRow(s.rows, r') && (r' > p || forall q :: r' < q < p ==> q in s.rows);
          r := r';
        }
        assert r in rows' && MarkRow(rows', r) && r >= q;
      }
    } else if forall q :: q !in rows' && Covered(s.memory, q) ==> Watermarked(rows', q) {
      // A month just below p with no row of its own is covered by the next mark down.
      var q := MonthBelow(s.rows.Keys, p);
      assert q !in rows' && Covered(s.memory, p) && Covered(s.memory, q);
      var r := HighestMarkBelow(rows', p, q);
      forall x | r < x < p ensures x in s.rows {
        assert Covered(s.memory, x) && !Watermarked(rows', x);
      }
      assert r in s.rows && MarkRow(s.rows, r);
    }
  }

  /** The highest high-water row strictly below `p`, when `q < p` is covered and no row at or above `p` is one. */
  lemma {:induction false} HighestMarkBelow(rows: Rows, p: Month, q: Month) returns (r: Month)
    requires Watermarked(rows, q)
    requires forall x :: x in rows && MarkRow(rows, x) ==> x < p
    ensures r in rows && MarkRow(rows, r) && r < p
    ensures forall x :: x in rows && MarkRow(rows, x) ==> x <= r
    decreases p - q
  {
    r :| r in rows && MarkRow(rows, r) && r >= q;
    if x :| x in rows && MarkRow(rows, x) && x > r {
      assert Watermarked(rows, r + 1);
      r := HighestMarkBelow(rows, p, r + 1);
    }
  }

  /** From stores in step, one call keeps them in step exactly when it is safe. */
  lemma StepAgreesIffSafe(s: Pair, op: PeriodOp)
    requires Related(s)
    ensures Safe(s, op) <==> Agree(Apply(s, op))
    ensures Safe(s, op) ==> Related(Apply(s, op))
  {
    var after := Apply(s, op);
    var p := op.period;
    match op
    case Lock(_) => OverwriteAgrees(s, op, LOCKED_ROW);
    case Unlock(_) => OverwriteAgrees(s, op, OPEN_ROW);
    case LockThrough(_) =>
      if Safe(s, op) {
        forall q | q !in after.rows && Covered(after.memory, q) ensures Watermarked(after.rows, q) {
          if q <= p {
            assert MarkRow(after.rows, p);
          } else {
            assert q !in s.rows && Covered(s.memory, q);
            var r :| r in s.rows && MarkRow(s.rows, r) && r >= q;
            assert r in after.rows && MarkRow(after.rows, r);
          }
        }
        assert Related(after);
        RelatedAgree(after);
      } else {
        var q :| q in s.rows && s.rows[q] == OPEN_ROW && q > p && Covered(s.memory, q);
        assert StatusOf(after.memory, q) == LOCKED && RowStatusOf(after.rows, q) == OPEN;
      }
  }

  lemma OverwriteAgrees(s: Pair, op: PeriodOp, row: RowStatus)
    requires Related(s)
    requires (op.Lock? && row == LOCKED_ROW) || (op.Unlock? && row == OPEN_ROW)
    ensures Safe(s, op) <==> Agree(Apply(s, op))
    ensures Safe(s, op) ==> Related(Apply(s, op))
  {
    var after := Apply(s, op);
    OverwriteCovers(s, op.period, row);
    if Safe(s, op) {
      assert Related(after);
      RelatedAgree(after);
    } else {
      var q :| q !in after.rows && Covered(s.memory, q) && !Watermarked(after.rows, q);
      assert q !in after.memory.locked && q !in after.memory.reopened;
      assert StatusOf(after.memory, q) == LOCKED && RowStatusOf(after.rows, q) == OPEN;
    }
  }

  /** Along any run from related stores, the statuses agree after every call iff every call is safe. */
  lemma {:induction false} RunAgreesIffSafe(s: Pair, ops: seq<PeriodOp>)
    requires Related(s)
    ensures SafeRun(s, ops) <==> AgreeThroughout(s, ops)
    decreases |ops|
  {
    RelatedAgree(s);
    if ops != [] {
      StepAgreesIffSafe(s, ops[0]);
      var next := Apply(s, ops[0]);
      if Safe(s, ops[0]) {
        RunAgreesIffSafe(next, ops[1..]);
      } else {
        assert !Agree(next);
      }
    }
  }

  /** The discipline of a caller that only moves the mark forward and never re-locks or re-opens it. */
  predicate Disciplined(s: Pair, ops: seq<PeriodOp>)
    decreases |ops|
  {
    ops != [] ==>
      && (match ops[0]
          case LockThrough(p) => s.memory.through.Some? ==> p >= s.memory.through.value
          case Lock(p) => s.memory.through != Some(p)
          case Unlock(p) => s.memory.through != Some(p))
      && Disciplined(Apply(s, ops[0]), ops[1..])
  }

  lemma {:induction false} DisciplineIsSafe(s: Pair, ops: seq<PeriodOp>)
    requires Related(s)
    requires s.memory.through.Some? ==> MarkRow(s.rows, s.memory.through.value)
    requires Disciplined(s, ops)
    ensures SafeRun(s, ops)
    decreases |ops|
  {
    if ops != [] {
      var op := ops[0];
      if !op.LockThrough? && MarkRow(s.rows, op.period) {
        var mark := s.memory.through.value;
        assert mark in s.rows && MarkRow(s.rows, mark) && mark > op.period;
      }
      assert Safe(s, op);
      StepAgreesIffSafe(s, op);
      DisciplineIsSafe(Apply(s, op), ops[1..]);
    }
  }

  /** The SQL table refines the in-memory store along every disciplined run of a fresh tenant. */
  lemma SqlRefinesMemory(ops: seq<PeriodOp>)
    ensures SafeRun(Fresh, ops) <==> AgreeThroughout(Fresh, ops)
    ensures Disciplined(Fresh, ops) ==> AgreeThroughout(Fresh, ops)
  {
    assert Related(Fresh);
    RunAgreesIffSafe(Fresh, ops);
    if Disciplined(Fresh, ops) {
      DisciplineIsSafe(Fresh, ops);
    }
  }

  /** Locking the mark again turns its high-water row into an ordinary one: earlier months re-open in SQL. */
  lemma RelockingTheMarkDiverges()
    ensures var s := Run(Fresh, [LockThrough(202606), Lock(202606)]);
            StatusOf(s.memory, 202605) == LOCKED && RowStatusOf(s.rows, 202605) == OPEN
  {
    var s1 := Apply(Fresh, LockThrough(202606));
    var s2 := Apply(s1, Lock(202606));
    assert Run(Fresh, [LockThrough(202606), Lock(202606)]) == Run(s1, [Lock(202606)]) == s2;
  }

  /** A backwards mark clears every exception in memory, but only those at or below it in SQL. */
  lemma BackwardsMarkDiverges()
    ensures var s := Run(Fresh, [LockThrough(202606), Unlock(202604), LockThrough(202603)]);
            StatusOf(s.memory, 202604) == LOCKED && RowStatusOf(s.rows, 202604) == OPEN
  {
    var ops := [LockThrough(202606), Unlock(202604), LockThrough(202603)];
    var s1 := Apply(Fresh, ops[0]);
    var s2 := Apply(s1, ops[1]);
    var s3 := Apply(s2, ops[2]);
    assert ops[1..] == [ops[1], ops[2]] && ops[1..][1..] == [ops[2]];
    assert Run(Fresh, ops) == Run(s1, ops[1..]) == Run(s2, ops[1..][1..]) == s3;
  }
}
