/**
 * `PgLedgerStore.append` as a protocol of database steps (ledger-postgres pgLedgerStore.ts):
 * any number of callers, their statements interleaved in any order, under READ COMMITTED with
 * the counter row locked from the bump until commit or rollback.
 */
module PgLedgerStore {
  import opened Text
  import opened Ledger
  import opened LedgerStore

  /** Where one `append` call stands. */
  datatype Phase =
    | Start                                  // BEGIN issued, nothing read yet
    | Missed                                 // the pre-read found no entry with the key
    | Bumped(sequence: nat)                  // counter row bumped and held
    | Inserting(sequence: nat, lines: nat)   // entry row inserted, `lines` line rows so far
    | Conflicted                             // a unique constraint refused the entry row
    | Failed(looksIdempotent: bool)          // any other error; what isIdempotencyConflict says of it
    | Lost                                   // rolled back after the unique constraint
    | Doubtful                               // rolled back after an error that only looked like one
    | Returned(entry: Entry)
    | Threw

  datatype Caller = Caller(draft: Draft, phase: Phase)

  type CallerId = nat

  /** Committed tables, the held counter rows, and every caller. */
  datatype State = State(
    lastSeq: map<TenantId, nat>,
    journal: map<(TenantId, nat), Entry>,
    holders: map<TenantId, CallerId>,
    callers: map<CallerId, Caller>)

  const Empty := State(map[], map[], map[], map[])

  /** One scheduled step. A step that is not enabled leaves the state alone. */
  datatype Action =
    | Arrive(c: CallerId, draft: Draft)
    | PreRead(c: CallerId)
    | Bump(c: CallerId)
    | InsertEntry(c: CallerId)
    | InsertLine(c: CallerId)
    | Commit(c: CallerId)
    | CommitUnheard(c: CallerId)             // committed, but the reply is lost
    | Fail(c: CallerId, looksIdempotent: bool)
    | Rollback(c: CallerId)
    | ReRead(c: CallerId)

  function LastSeq(s: State, t: TenantId): nat {
    if t in s.lastSeq then s.lastSeq[t] else 0
  }

  /** `SELECT ... WHERE tenant_id AND idempotency_key` over the committed rows. */
  function FindKey(s: State, t: TenantId, key: string, n: nat): Option<Entry> {
    if n == 0 then None
    else if (t, n) in s.journal && s.journal[(t, n)].draft.key == key then Some(s.journal[(t, n)])
    else FindKey(s, t, key, n - 1)
  }

  function LoadByKey(s: State, t: TenantId, key: string): Option<Entry> {
    FindKey(s, t, key, LastSeq(s, t))
  }

  /** The primary key, the id or the idempotency key of the row is already committed. */
  predicate ViolatesUnique(s: State, draft: Draft, sequence: nat) {
    || (draft.tenantId, sequence) in s.journal
    || (exists k :: k in s.journal && k.0 == draft.tenantId
         && (s.journal[k].draft.key == draft.key || s.journal[k].id == EntryId(draft.tenantId, sequence)))
  }

  function Moved(s: State, c: CallerId, phase: Phase): State
    requires c in s.callers
  {
    s.(callers := s.callers[c := s.callers[c].(phase := phase)])
  }

  function Released(s: State, c: CallerId): map<TenantId, CallerId> {
    map t | t in s.holders && s.holders[t] != c :: s.holders[t]
  }

  /** The commit makes the counter and the rows visible and releases the counter row. */
  function Published(s: State, c: CallerId, phase: Phase): State
    requires c in s.callers && s.callers[c].phase.Inserting?
  {
    var draft, sequence := s.callers[c].draft, s.callers[c].phase.sequence;
    State(s.lastSeq[draft.tenantId := sequence],
          s.journal[(draft.tenantId, sequence) := Finalized(draft, sequence)],
          Released(s, c),
          s.callers[c := Caller(draft, phase)])
  }

  predicate Committable(s: State, c: CallerId) {
    && c in s.callers && s.callers[c].phase.Inserting?
    && s.callers[c].phase.lines == |s.callers[c].draft.payload.lines|
  }

  predicate InTransaction(p: Phase) {
    p.Start? || p.Missed? || p.Bumped? || p.Inserting?
  }

  function Step(s: State, a: Action): State {
    if a.Arrive? then
      if a.c in s.callers then s else s.(callers := s.callers[a.c := Caller(a.draft, Start)])
    else if a.c !in s.callers then s
    else
      var caller := s.callers[a.c];
      var draft, phase := caller.draft, caller.phase;
      match a
      case PreRead(c) =>
        if !phase.Start? then s
        else (match LoadByKey(s, draft.tenantId, draft.key)
              case Some(e) => Moved(s, c, Returned(e))
              case None => Moved(s, c, Missed))
      case Bump(c) =>
        // The upsert waits while another transaction holds the counter row.
        if !phase.Missed? || draft.tenantId in s.holders then s
        else Moved(s.(holders := s.holders[draft.tenantId := c]), c, Bumped(LastSeq(s, draft.tenantId) + 1))
      case InsertEntry(c) =>
        if !phase.Bumped? then s
        else if ViolatesUnique(s, draft, phase.sequence) then Moved(s, c, Conflicted)
        else Moved(s, c, Inserting(phase.sequence, 0))
      case InsertLine(c) =>
        if !phase.Inserting? || phase.lines >= |draft.payload.lines| then s
        else if draft.payload.lines[phase.lines].amount <= 0 then Moved(s, c, Failed(false))
        else Moved(s, c, Inserting(phase.sequence, phase.lines + 1))
      case Commit(c) =>
        if Committable(s, c) then Published(s, c, Returned(Finalized(draft, phase.sequence))) else s
      case CommitUnheard(c) =>
        if Committable(s, c) then Published(s, c, Failed(false)) else s
      case Fail(c, looks) =>
        if InTransaction(phase) then Moved(s, c, Failed(looks)) else s
      case Rollback(c) =>
        if phase.Conflicted? then Moved(s.(holders := Released(s, c)), c, Lost)
        else if phase.Failed? then
          Moved(s.(holders := Released(s, c)), c, if phase.looksIdempotent then Doubtful else Threw)
        else s
      case ReRead(c) =>
        if !phase.Lost? && !phase.Doubtful? then s
        else (match LoadByKey(s, draft.tenantId, draft.key)
              case Some(e) => Moved(s, c, Returned(e))
              case None => Moved(s, c, Threw))
  }

  function Run(s: State, actions: seq<Action>): State {
    if actions == [] then s else Step(Run(s, actions[..|actions| - 1]), actions[|actions| - 1])
  }

  /** The committed journal of a tenant, in sequence order. */
  ghost function LogOf(s: State, t: TenantId): seq<Entry>
    requires GapFree(s, t)
  {
    seq(LastSeq(s, t), i requires 0 <= i < LastSeq(s, t) => s.journal[(t, i + 1)])
  }

  // --- the invariant ------------------------------------------------------------------------

  /** The committed sequences of a tenant are exactly 1..last_seq. */
  ghost predicate GapFree(s: State, t: TenantId) {
    forall n: nat :: (t, n) in s.journal <==> 1 <= n <= LastSeq(s, t)
  }

  ghost predicate Committed(s: State, t: TenantId, key: string) {
    exists k :: k in s.journal && k.0 == t && s.journal[k].draft.key == key
  }

  ghost predicate TablesOk(s: State) {
    && (forall t :: GapFree(s, t))
    && (forall k :: k in s.journal ==>
          s.journal[k] == Finalized(s.journal[k].draft, k.1) && s.journal[k].draft.tenantId == k.0)
    && (forall k, l :: k in s.journal && l in s.journal && k.0 == l.0 && s.journal[k].draft.key == s.journal[l].draft.key
          ==> k == l)
  }

  ghost predicate Holds(s: State, c: CallerId) {
    c in s.callers && s.callers[c].draft.tenantId in s.holders && s.holders[s.callers[c].draft.tenantId] == c
  }

  ghost predicate CallerOk(s: State, c: CallerId)
    requires c in s.callers
  {
    var t, key := s.callers[c].draft.tenantId, s.callers[c].draft.key;
    match s.callers[c].phase
    case Bumped(n) => Holds(s, c) && n == LastSeq(s, t) + 1
    case Inserting(n, _) => Holds(s, c) && n == LastSeq(s, t) + 1 && !Committed(s, t, key)
    case Conflicted => Holds(s, c) && Committed(s, t, key)
    case Lost => Committed(s, t, key)
    case Returned(e) =>
      (t, e.sequence) in s.journal && s.journal[(t, e.sequence)] == e && e.draft.key == key
    case _ => true
  }

  /** Only a caller between its bump and the end of its transaction holds a counter row. */
  ghost predicate HoldersOk(s: State) {
    forall t :: t in s.holders ==>
      && s.holders[t] in s.callers && s.callers[s.holders[t]].draft.tenantId == t
      && (var p := s.callers[s.holders[t]].phase; p.Bumped? || p.Inserting? || p.Conflicted? || p.Failed?)
  }

  ghost predicate Inv(s: State) {
    TablesOk(s) && HoldersOk(s) && forall c :: c in s.callers ==> CallerOk(s, c)
  }

  lemma {:induction false} FindKeyMeans(s: State, t: TenantId, key: string, n: nat)
    requires TablesOk(s) && n <= LastSeq(s, t)
    ensures FindKey(s, t, key, n).None? ==>
              forall m: nat :: 1 <= m <= n ==> (t, m) in s.journal && s.journal[(t, m)].draft.key != key
    ensures FindKey(s, t, key, n).Some? ==>
              var e := FindKey(s, t, key, n).value;
              (t, e.sequence) in s.journal && s.journal[(t, e.sequence)] == e && e.draft.key == key
  {
    assert GapFree(s, t);
    if n > 0 {
      FindKeyMeans(s, t, key, n - 1);
    }
  }

  lemma LoadFindsCommitted(s: State, t: TenantId, key: string)
    requires TablesOk(s)
    ensures LoadByKey(s, t, key).Some? <==> Committed(s, t, key)
    ensures LoadByKey(s, t, key).Some? ==>
              var e := LoadByKey(s, t, key).value;
              (t, e.sequence) in s.journal && s.journal[(t, e.sequence)] == e && e.draft.key == key
  {
    FindKeyMeans(s, t, key, LastSeq(s, t));
    if Committed(s, t, key) {
      var k :| k in s.journal && k.0 == t && s.journal[k].draft.key == key;
      assert GapFree(s, t) && k == (t, k.1);
    }
  }

  /** During append the only unique constraint a caller can hit is the idempotency key. */
  lemma OnlyKeyCanConflict(s: State, draft: Draft)
    requires TablesOk(s)
    ensures ViolatesUnique(s, draft, LastSeq(s, draft.tenantId) + 1) <==> Committed(s, draft.tenantId, draft.key)
  {
    var t, n := draft.tenantId, LastSeq(s, draft.tenantId) + 1;
    assert GapFree(s, t);
    forall k | k in s.journal && k.0 == t ensures s.journal[k].id != EntryId(t, n) {
      assert k == (t, k.1);
      if s.journal[k].id == EntryId(t, n) {
        IdsAreDistinct(t, k.1, n);
      }
    }
  }

  /** A change to one caller's phase alone keeps what the others rely on. */
  lemma MoveKeepsInv(s: State, c: CallerId, phase: Phase, holders: map<TenantId, CallerId>)
    requires Inv(s) && c in s.callers
    requires var s' := Moved(s.(holders := holders), c, phase); CallerOk(s', c) && HoldersOk(s')
    requires forall t :: (t in holders && holders[t] != c) <==> (t in s.holders && s.holders[t] != c)
    requires forall t :: t in holders && t in s.holders && holders[t] != c ==> holders[t] == s.holders[t]
    requires forall t :: t in s.holders && s.holders[t] != c ==> t in holders && holders[t] == s.holders[t]
    ensures Inv(Moved(s.(holders := holders), c, phase))
  {
    var s' := Moved(s.(holders := holders), c, phase);
    forall d | d in s'.callers ensures CallerOk(s', d) {
      if d != c {
        assert CallerOk(s, d);
        assert Holds(s, d) ==> Holds(s', d);
        SameJournalSameCommitted(s, s');
      }
    }
    assert forall t :: GapFree(s, t) ==> GapFree(s', t);
  }

  lemma PublishKeepsInv(s: State, c: CallerId, phase: Phase)
    requires Inv(s) && Committable(s, c)
    requires phase == Returned(Finalized(s.callers[c].draft, s.callers[c].phase.sequence)) || phase == Failed(false)
    ensures Inv(Published(s, c, phase))
  {
    var s' := Published(s, c, phase);
    var draft, n := s.callers[c].draft, s.callers[c].phase.sequence;
    var t := draft.tenantId;
    assert CallerOk(s, c);
    forall u ensures GapFree(s', u) {
      assert GapFree(s, u);
    }
    forall k | k in s.journal && k.0 == t ensures s.journal[k].draft.key != draft.key {
    }
    assert TablesOk(s');
    forall d | d in s'.callers ensures CallerOk(s', d) {
      if d != c {
        PublishKeepsOther(s, c, phase, d);
      }
    }
  }

  lemma PublishKeepsOther(s: State, c: CallerId, phase: Phase, d: CallerId)
    requires Inv(s) && Committable(s, c) && d in s.callers && d != c
    ensures CallerOk(Published(s, c, phase), d)
  {
    var s' := Published(s, c, phase);
    var draft, n := s.callers[c].draft, s.callers[c].phase.sequence;
    var u, key := s.callers[d].draft.tenantId, s.callers[d].draft.key;
    assert CallerOk(s, c) && CallerOk(s, d);
    assert forall k :: k in s.journal ==> k in s'.journal && (k != (draft.tenantId, n) ==> s'.journal[k] == s.journal[k]);
    assert (draft.tenantId, n) !in s.journal by {
      assert GapFree(s, draft.tenantId);
    }
    if Committed(s, u, key) {
      var k :| k in s.journal && k.0 == u && s.journal[k].draft.key == key;
      assert k in s'.journal && s'.journal[k].draft.key == key;
    }
    if Holds(s, d) {
      assert u != draft.tenantId;
      assert Holds(s', d) && LastSeq(s', u) == LastSeq(s, u);
      if Committed(s', u, key) {
        var k :| k in s'.journal && k.0 == u && s'.journal[k].draft.key == key;
        assert k in s.journal;
      }
    }
  }

  lemma StepKeepsInv(s: State, a: Action)
    requires Inv(s)
    ensures Inv(Step(s, a))
  {
    if a.Arrive? {
      if a.c !in s.callers {
        ArriveKeepsInv(s, a.c, a.draft);
      }
    } else if a.c in s.callers && Step(s, a) != s {
      var draft, phase := s.callers[a.c].draft, s.callers[a.c].phase;
      assert CallerOk(s, a.c);
      match a
      case Commit(c) => PublishKeepsInv(s, c, Returned(Finalized(draft, phase.sequence)));
      case CommitUnheard(c) => PublishKeepsInv(s, c, Failed(false));
      case PreRead(c) => ReadKeepsInv(s, a);
      case ReRead(c) => ReadKeepsInv(s, a);
      case Bump(c) => BumpKeepsInv(s, c);
      case InsertEntry(c) => InsertKeepsInv(s, c);
      case InsertLine(c) => ChangePhase(s, a);
      case Fail(c, looks) => ChangePhase(s, a);
      case Rollback(c) => RollbackKeepsInv(s, c);
    }
  }

  /** Commitment depends on the journal alone. */
  lemma SameJournalSameCommitted(s: State, s': State)
    requires s.journal == s'.journal
    ensures forall t, key :: Committed(s, t, key) <==> Committed(s', t, key)
  {
    forall t, key ensures Committed(s, t, key) <==> Committed(s', t, key) {
      assert Committed(s, t, key) == exists k :: k in s'.journal && k.0 == t && s'.journal[k].draft.key == key;
    }
  }

  lemma ReadKeepsInv(s: State, a: Action)
    requires Inv(s) && (a.PreRead? || a.ReRead?) && a.c in s.callers && Step(s, a) != s
    ensures Inv(Step(s, a))
  {
    LoadFindsCommitted(s, s.callers[a.c].draft.tenantId, s.callers[a.c].draft.key);
    var s' := Step(s, a);
    assert s' == Moved(s.(holders := s.holders), a.c, s'.callers[a.c].phase);
    MoveKeepsInv(s, a.c, s'.callers[a.c].phase, s.holders);
  }

  lemma BumpKeepsInv(s: State, c: CallerId)
    requires Inv(s) && c in s.callers && Step(s, Bump(c)) != s
    ensures Inv(Step(s, Bump(c)))
  {
    var t := s.callers[c].draft.tenantId;
    MoveKeepsInv(s, c, Bumped(LastSeq(s, t) + 1), s.holders[t := c]);
  }

  lemma InsertKeepsInv(s: State, c: CallerId)
    requires Inv(s) && c in s.callers && s.callers[c].phase.Bumped?
    ensures Inv(Step(s, InsertEntry(c)))
  {
    assert CallerOk(s, c);
    OnlyKeyCanConflict(s, s.callers[c].draft);
    var s' := Step(s, InsertEntry(c));
    SameJournalSameCommitted(s, s');
    assert s' == Moved(s.(holders := s.holders), c, s'.callers[c].phase);
    MoveKeepsInv(s, c, s'.callers[c].phase, s.holders);
  }

  lemma ChangePhase(s: State, a: Action)
    requires Inv(s) && (a.InsertLine? || a.Fail?) && a.c in s.callers && Step(s, a) != s
    ensures Inv(Step(s, a))
  {
    assert CallerOk(s, a.c);
    var s' := Step(s, a);
    SameJournalSameCommitted(s, s');
    assert s' == Moved(s.(holders := s.holders), a.c, s'.callers[a.c].phase);
    MoveKeepsInv(s, a.c, s'.callers[a.c].phase, s.holders);
  }

  lemma RollbackKeepsInv(s: State, c: CallerId)
    requires Inv(s) && c in s.callers && Step(s, Rollback(c)) != s
    ensures Inv(Step(s, Rollback(c)))
  {
    assert CallerOk(s, c);
    var s' := Step(s, Rollback(c));
    SameJournalSameCommitted(s, s');
    MoveKeepsInv(s, c, s'.callers[c].phase, Released(s, c));
  }

  lemma ArriveKeepsInv(s: State, c: CallerId, draft: Draft)
    requires Inv(s) && c !in s.callers
    ensures Inv(Step(s, Arrive(c, draft)))
  {
    var s' := Step(s, Arrive(c, draft));
    forall d | d in s'.callers ensures CallerOk(s', d) {
      if d != c {
        assert CallerOk(s, d);
        SameJournalSameCommitted(s, s');
      }
    }
    assert forall t :: GapFree(s, t) ==> GapFree(s', t);
  }

  lemma {:induction false} EveryInterleavingKeepsInv(actions: seq<Action>)
    ensures Inv(Run(Empty, actions))
  {
    if actions != [] {
      EveryInterleavingKeepsInv(actions[..|actions| - 1]);
      StepKeepsInv(Run(Empty, actions[..|actions| - 1]), actions[|actions| - 1]);
    }
  }

  // --- what it means for callers ---------------------------------------------------------------

  /**
   * In every interleaving: each tenant's committed sequences are exactly 1..last_seq, no key
   * occurs twice, and a caller that returns holds the one committed entry with its key.
   */
  lemma GapFreeAndExactlyOnce(actions: seq<Action>)
    ensures var s := Run(Empty, actions);
            && (forall t, n: nat :: (t, n) in s.journal <==> 1 <= n <= LastSeq(s, t))
            && (forall k, l :: k in s.journal && l in s.journal && k != l && k.0 == l.0 ==>
                  s.journal[k].draft.key != s.journal[l].draft.key)
            && (forall c :: c in s.callers && s.callers[c].phase.Returned? ==>
                  var e := s.callers[c].phase.entry;
                  && e.draft.key == s.callers[c].draft.key
                  && LoadByKey(s, s.callers[c].draft.tenantId, e.draft.key) == Some(e))
  {
    EveryInterleavingKeepsInv(actions);
    var s := Run(Empty, actions);
    forall t, n: nat ensures (t, n) in s.journal <==> 1 <= n <= LastSeq(s, t) {
      assert GapFree(s, t);
    }
    forall c | c in s.callers && s.callers[c].phase.Returned?
      ensures var e := s.callers[c].phase.entry;
              && e.draft.key == s.callers[c].draft.key
              && LoadByKey(s, s.callers[c].draft.tenantId, e.draft.key) == Some(e)
    {
      assert CallerOk(s, c);
      var e, t := s.callers[c].phase.entry, s.callers[c].draft.tenantId;
      LoadFindsCommitted(s, t, e.draft.key);
      var found := LoadByKey(s, t, e.draft.key).value;
      assert (t, found.sequence) == (t, e.sequence);
    }
  }

  /** At most one caller per tenant is between its bump and the end of its transaction. */
  lemma AppendsSerialize(actions: seq<Action>, c: CallerId, d: CallerId)
    requires var s := Run(Empty, actions);
             && c in s.callers && d in s.callers && s.callers[c].draft.tenantId == s.callers[d].draft.tenantId
             && (s.callers[c].phase.Bumped? || s.callers[c].phase.Inserting?)
             && (s.callers[d].phase.Bumped? || s.callers[d].phase.Inserting?)
    ensures c == d
  {
    EveryInterleavingKeepsInv(actions);
    var s := Run(Empty, actions);
    assert CallerOk(s, c) && CallerOk(s, d);
  }

  /** A caller that lost the race on its key never throws: its re-read finds the winner. */
  lemma LoserGetsTheWinner(actions: seq<Action>, c: CallerId)
    requires c in Run(Empty, actions).callers && Run(Empty, actions).callers[c].phase.Lost?
    ensures var s' := Step(Run(Empty, actions), ReRead(c));
            && s'.callers[c].phase.Returned?
            && s'.callers[c].phase.entry.draft.key == s'.callers[c].draft.key
  {
    EveryInterleavingKeepsInv(actions);
    var s := Run(Empty, actions);
    assert CallerOk(s, c);
    LoadFindsCommitted(s, s.callers[c].draft.tenantId, s.callers[c].draft.key);
  }

  // --- refinement of the in-memory store ----------------------------------------------------------

  /** The drafts whose commits took effect for a tenant, in commit order. */
  function CommitOrder(actions: seq<Action>, t: TenantId): seq<Draft> {
    if actions == [] then []
    else
      var before, a := actions[..|actions| - 1], actions[|actions| - 1];
      var s := Run(Empty, before);
      CommitOrder(before, t) +
        if Publishes(s, a) && s.callers[a.c].draft.tenantId == t
        then [s.callers[a.c].draft] else []
  }

  /** The committed log holds a key exactly when the table does. */
  lemma LogHasKey(s: State, t: TenantId, key: string)
    requires TablesOk(s)
    ensures GapFree(s, t) && (HasKey(LogOf(s, t), key) <==> Committed(s, t, key))
  {
    var log := LogOf(s, t);
    assert GapFree(s, t);
    if HasKey(log, key) {
      var i := IndexOfKey(log, key);
      assert (t, i + 1) in s.journal && s.journal[(t, i + 1)] == log[i];
    }
    if Committed(s, t, key) {
      var k :| k in s.journal && k.0 == t && s.journal[k].draft.key == key;
      assert k == (t, k.1) && log[k.1 - 1] == s.journal[k];
      HasKeyAt(log, k.1 - 1);
    }
  }

  predicate Publishes(s: State, a: Action) {
    (a.Commit? || a.CommitUnheard?) && Committable(s, a.c)
  }

  lemma OtherStepsKeepTables(s: State, a: Action)
    ensures !Publishes(s, a) ==> Step(s, a).lastSeq == s.lastSeq && Step(s, a).journal == s.journal
    ensures Publishes(s, a) ==> Step(s, a) == Published(s, a.c, Step(s, a).callers[a.c].phase)
  {
  }

  /** A step appends at most one entry, and then as the in-memory store would. */
  lemma StepRefinesAppend(s: State, a: Action, t: TenantId)
    requires Inv(s) && Inv(Step(s, a))
    ensures GapFree(s, t) && GapFree(Step(s, a), t)
    ensures LogOf(Step(s, a), t) ==
            if Publishes(s, a) && s.callers[a.c].draft.tenantId == t
            then Appended(LogOf(s, t), s.callers[a.c].draft)
            else LogOf(s, t)
  {
    OtherStepsKeepTables(s, a);
    var s' := Step(s, a);
    assert GapFree(s, t) && GapFree(s', t);
    if Publishes(s, a) {
      PublishAppends(s, a.c, s'.callers[a.c].phase, t);
    } else {
      SameTablesSameLog(s, s', t);
    }
  }

  lemma SameTablesSameLog(s: State, s': State, t: TenantId)
    requires s'.lastSeq == s.lastSeq && s'.journal == s.journal && GapFree(s, t) && GapFree(s', t)
    ensures LogOf(s', t) == LogOf(s, t)
  {
  }

  lemma PublishAppends(s: State, c: CallerId, phase: Phase, t: TenantId)
    requires Inv(s) && Committable(s, c) && Inv(Published(s, c, phase))
    ensures GapFree(s, t) && GapFree(Published(s, c, phase), t)
    ensures LogOf(Published(s, c, phase), t) ==
            if s.callers[c].draft.tenantId == t then Appended(LogOf(s, t), s.callers[c].draft) else LogOf(s, t)
  {
    var s' := Published(s, c, phase);
    assert GapFree(s, t) && GapFree(s', t) && CallerOk(s, c);
    if s.callers[c].draft.tenantId == t {
      LogHasKey(s, t, s.callers[c].draft.key);
      assert LogOf(s', t) == LogOf(s, t) + [Finalized(s.callers[c].draft, LastSeq(s, t) + 1)];
    } else {
      assert LogOf(s', t) == LogOf(s, t);
    }
  }

  /** Every interleaving leaves the journal some one-at-a-time run of in-memory appends would leave. */
  lemma {:induction false} InterleavingsRefineTheStore(actions: seq<Action>, t: TenantId)
    ensures GapFree(Run(Empty, actions), t)
    ensures LogOf(Run(Empty, actions), t) == AppendAll([], CommitOrder(actions, t))
  {
    EveryInterleavingKeepsInv(actions);
    assert GapFree(Run(Empty, actions), t);
    if actions != [] {
      var before, a := actions[..|actions| - 1], actions[|actions| - 1];
      InterleavingsRefineTheStore(before, t);
      EveryInterleavingKeepsInv(before);
      StepRefinesAppend(Run(Empty, before), a, t);
      var drafts := CommitOrder(actions, t);
      if drafts != CommitOrder(before, t) {
        assert drafts[..|drafts| - 1] == CommitOrder(before, t);
      }
    }
  }
}
