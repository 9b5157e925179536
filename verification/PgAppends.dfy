/** That an append succeeds: what one caller gets from any state the others have led to (pgLedgerStore.ts). */
module PgAppends {
  import opened Text
  import opened Ledger
  import opened LedgerStore
  import opened PgLedgerStore

  function Inserts(c: CallerId, n: nat): (r: seq<Action>)
    ensures |r| == n && forall i :: 0 <= i < n ==> r[i] == InsertLine(c)
  {
    seq(n, i => InsertLine(c))
  }

  /** The statements of one append as far as the entry row, then `n` of its line rows. */
  function Opening(c: CallerId, draft: Draft, n: nat): seq<Action> {
    [Arrive(c, draft), PreRead(c), Bump(c), InsertEntry(c)] + Inserts(c, n)
  }

  lemma OneMore(s: State, actions: seq<Action>, a: Action, before: State, after: State)
    requires Run(s, actions) == before && Step(before, a) == after
    ensures Run(s, actions + [a]) == after
  {
    assert (actions + [a])[..|actions|] == actions;
  }

  lemma TwoSteps(s: State, a: Action, b: Action, s1: State, s2: State)
    requires Step(s, a) == s1 && Step(s1, b) == s2
    ensures Run(s, [a, b]) == s2
  {
    OneMore(s, [], a, s, s1);
    OneMore(s, [a], b, s1, s2);
    assert [] + [a] == [a] && [a] + [b] == [a, b];
  }

  /** A new caller whose counter row is free and whose key no one has committed. */
  ghost predicate Unopposed(s: State, c: CallerId, draft: Draft) {
    Inv(s) && c !in s.callers && draft.tenantId !in s.holders && !Committed(s, draft.tenantId, draft.key)
  }

  /** Where such a caller stands with `n` of its lines in: nothing is visible to the others yet. */
  function Halfway(s: State, c: CallerId, draft: Draft, n: nat): State {
    s.(holders := s.holders[draft.tenantId := c],
       callers := s.callers[c := Caller(draft, Inserting(LastSeq(s, draft.tenantId) + 1, n))])
  }

  function Stands(s: State, c: CallerId, draft: Draft, phase: Phase): State {
    s.(callers := s.callers[c := Caller(draft, phase)])
  }

  lemma Reads(s: State, c: CallerId, draft: Draft)
    requires Inv(s) && c !in s.callers
    ensures Step(s, Arrive(c, draft)) == Stands(s, c, draft, Start)
    ensures !Committed(s, draft.tenantId, draft.key) ==>
              Step(Stands(s, c, draft, Start), PreRead(c)) == Stands(s, c, draft, Missed)
    ensures Committed(s, draft.tenantId, draft.key) ==>
              var found := LoadByKey(s, draft.tenantId, draft.key);
              found.Some? && Step(Stands(s, c, draft, Start), PreRead(c)) == Stands(s, c, draft, Returned(found.value))
  {
    SameLookup(s, Stands(s, c, draft, Start), draft.tenantId, draft.key);
    LoadFindsCommitted(s, draft.tenantId, draft.key);
  }

  lemma Bumps(s: State, c: CallerId, draft: Draft)
    requires Unopposed(s, c, draft)
    ensures Step(Stands(s, c, draft, Missed), Bump(c))
         == Stands(s.(holders := s.holders[draft.tenantId := c]), c, draft, Bumped(LastSeq(s, draft.tenantId) + 1))
  {
  }

  lemma Enters(s: State, c: CallerId, draft: Draft)
    requires Unopposed(s, c, draft)
    ensures Step(Stands(s.(holders := s.holders[draft.tenantId := c]), c, draft, Bumped(LastSeq(s, draft.tenantId) + 1)),
                 InsertEntry(c))
         == Halfway(s, c, draft, 0)
  {
    var before := Stands(s.(holders := s.holders[draft.tenantId := c]), c, draft, Bumped(LastSeq(s, draft.tenantId) + 1));
    var n := LastSeq(s, draft.tenantId) + 1;
    OnlyKeyCanConflict(s, draft);
    assert ViolatesUnique(before, draft, n) == ViolatesUnique(s, draft, n);
  }

  lemma Lines(s: State, c: CallerId, draft: Draft, n: nat)
    requires c !in s.callers && n < |draft.payload.lines|
    ensures draft.payload.lines[n].amount > 0 ==>
              Step(Halfway(s, c, draft, n), InsertLine(c)) == Halfway(s, c, draft, n + 1)
    ensures draft.payload.lines[n].amount <= 0 ==>
              Step(Halfway(s, c, draft, n), InsertLine(c))
              == Stands(s.(holders := s.holders[draft.tenantId := c]), c, draft, Failed(false))
  {
  }

  lemma EntryGoesIn(s: State, c: CallerId, draft: Draft)
    requires Unopposed(s, c, draft)
    ensures Run(s, Opening(c, draft, 0)) == Halfway(s, c, draft, 0)
  {
    Reads(s, c, draft);
    Bumps(s, c, draft);
    Enters(s, c, draft);
    EntrySteps(s, c, draft, Stands(s, c, draft, Start), Stands(s, c, draft, Missed),
               Stands(s.(holders := s.holders[draft.tenantId := c]), c, draft, Bumped(LastSeq(s, draft.tenantId) + 1)),
               Halfway(s, c, draft, 0));
  }

  lemma EntrySteps(s: State, c: CallerId, draft: Draft, s1: State, s2: State, s3: State, s4: State)
    requires Step(s, Arrive(c, draft)) == s1 && Step(s1, PreRead(c)) == s2
    requires Step(s2, Bump(c)) == s3 && Step(s3, InsertEntry(c)) == s4
    ensures Run(s, Opening(c, draft, 0)) == s4
  {
    var two := [Arrive(c, draft), PreRead(c)];
    TwoSteps(s, Arrive(c, draft), PreRead(c), s1, s2);
    OneMore(s, two, Bump(c), s2, s3);
    OneMore(s, two + [Bump(c)], InsertEntry(c), s3, s4);
    assert two + [Bump(c)] + [InsertEntry(c)] == Opening(c, draft, 0);
  }

  lemma SameLookup(s: State, s': State, t: TenantId, key: string)
    requires s'.journal == s.journal && s'.lastSeq == s.lastSeq
    ensures LoadByKey(s', t, key) == LoadByKey(s, t, key)
  {
    SameFind(s, s', t, key, LastSeq(s, t));
  }

  lemma {:induction false} SameFind(s: State, s': State, t: TenantId, key: string, n: nat)
    requires s'.journal == s.journal
    ensures FindKey(s', t, key, n) == FindKey(s, t, key, n)
  {
    if n > 0 {
      SameFind(s, s', t, key, n - 1);
    }
  }

  lemma {:induction false} LinesGoIn(s: State, c: CallerId, draft: Draft, n: nat)
    requires Unopposed(s, c, draft) && n <= |draft.payload.lines|
    requires forall i :: 0 <= i < n ==> draft.payload.lines[i].amount > 0
    ensures Run(s, Opening(c, draft, n)) == Halfway(s, c, draft, n)
  {
    if n == 0 {
      EntryGoesIn(s, c, draft);
    } else {
      LinesGoIn(s, c, draft, n - 1);
      Lines(s, c, draft, n - 1);
      OneMore(s, Opening(c, draft, n - 1), InsertLine(c), Halfway(s, c, draft, n - 1), Halfway(s, c, draft, n));
      assert Opening(c, draft, n) == Opening(c, draft, n - 1) + [InsertLine(c)];
    }
  }

  /** The state a commit from there leads to. */
  function Done(s: State, c: CallerId, draft: Draft): State {
    var t, n := draft.tenantId, LastSeq(s, draft.tenantId) + 1;
    State(s.lastSeq[t := n], s.journal[(t, n) := Finalized(draft, n)], s.holders,
          s.callers[c := Caller(draft, Returned(Finalized(draft, n)))])
  }

  lemma Commits(s: State, c: CallerId, draft: Draft)
    requires Unopposed(s, c, draft)
    ensures Step(Halfway(s, c, draft, |draft.payload.lines|), Commit(c)) == Done(s, c, draft)
  {
    var before := Halfway(s, c, draft, |draft.payload.lines|);
    HolderIsNew(s, c);
    assert Released(before, c) == s.holders;
  }

  lemma RollsBack(s: State, c: CallerId, draft: Draft)
    requires Unopposed(s, c, draft)
    ensures Step(Stands(s.(holders := s.holders[draft.tenantId := c]), c, draft, Failed(false)), Rollback(c))
         == Stands(s, c, draft, Threw)
  {
    HolderIsNew(s, c);
    assert Released(s.(holders := s.holders[draft.tenantId := c]), c) == s.holders;
  }

  /**
   * From every state any callers can lead to, a new caller with a free counter row, a new key and positive
   * amounts commits: it returns the next entry of its tenant, holding its draft, and the journal has gained
   * exactly that entry.
   */
  lemma AppendCommits(actions: seq<Action>, c: CallerId, draft: Draft)
    requires var s := Run(Empty, actions);
             c !in s.callers && draft.tenantId !in s.holders && !Committed(s, draft.tenantId, draft.key)
    requires forall i :: 0 <= i < |draft.payload.lines| ==> draft.payload.lines[i].amount > 0
    ensures var s, t := Run(Empty, actions), draft.tenantId;
            var s' := Run(s, Opening(c, draft, |draft.payload.lines|) + [Commit(c)]);
            && c in s'.callers && s'.callers[c].phase.Returned?
            && var e := s'.callers[c].phase.entry;
               && e.draft == draft && e.sequence == LastSeq(s, t) + 1 && e.id == EntryId(t, e.sequence)
               && s'.journal == s.journal[(t, e.sequence) := e] && LastSeq(s', t) == e.sequence
               && s'.holders == s.holders
  {
    EveryInterleavingKeepsInv(actions);
    var s, n := Run(Empty, actions), |draft.payload.lines|;
    LinesGoIn(s, c, draft, n);
    Commits(s, c, draft);
    OneMore(s, Opening(c, draft, n), Commit(c), Halfway(s, c, draft, n), Done(s, c, draft));
  }

  /** A caller that has not arrived holds nothing. */
  lemma HolderIsNew(s: State, c: CallerId)
    requires Inv(s) && c !in s.callers
    ensures forall t :: t in s.holders ==> s.holders[t] != c
  {
  }

  /** With a committed key the pre-read already returns the entry of that key; nothing is written. */
  lemma CommittedKeyIsReturned(actions: seq<Action>, c: CallerId, draft: Draft)
    requires var s := Run(Empty, actions); c !in s.callers && Committed(s, draft.tenantId, draft.key)
    ensures var s := Run(Empty, actions);
            var s' := Run(s, [Arrive(c, draft), PreRead(c)]);
            && s'.journal == s.journal && s'.lastSeq == s.lastSeq && s'.holders == s.holders
            && c in s'.callers && s'.callers[c].phase.Returned?
            && var e := s'.callers[c].phase.entry;
               && e.draft.key == draft.key
               && (draft.tenantId, e.sequence) in s.journal && s.journal[(draft.tenantId, e.sequence)] == e
  {
    EveryInterleavingKeepsInv(actions);
    var s := Run(Empty, actions);
    Reads(s, c, draft);
    LoadFindsCommitted(s, draft.tenantId, draft.key);
    var e := LoadByKey(s, draft.tenantId, draft.key).value;
    TwoSteps(s, Arrive(c, draft), PreRead(c), Stands(s, c, draft, Start), Stands(s, c, draft, Returned(e)));
  }

  /** The first line whose amount is not positive is refused: the caller throws and the tables are as they were. */
  lemma BadAmountThrows(actions: seq<Action>, c: CallerId, draft: Draft, bad: nat)
    requires var s := Run(Empty, actions);
             c !in s.callers && draft.tenantId !in s.holders && !Committed(s, draft.tenantId, draft.key)
    requires bad < |draft.payload.lines| && draft.payload.lines[bad].amount <= 0
    requires forall i :: 0 <= i < bad ==> draft.payload.lines[i].amount > 0
    ensures var s := Run(Empty, actions);
            var s' := Run(s, Opening(c, draft, bad + 1) + [Rollback(c)]);
            && c in s'.callers && s'.callers[c].phase.Threw?
            && s'.journal == s.journal && s'.lastSeq == s.lastSeq && s'.holders == s.holders
  {
    EveryInterleavingKeepsInv(actions);
    var s := Run(Empty, actions);
    var failed := Stands(s.(holders := s.holders[draft.tenantId := c]), c, draft, Failed(false));
    LinesGoIn(s, c, draft, bad);
    Lines(s, c, draft, bad);
    OneMore(s, Opening(c, draft, bad), InsertLine(c), Halfway(s, c, draft, bad), failed);
    assert Opening(c, draft, bad + 1) == Opening(c, draft, bad) + [InsertLine(c)];
    RollsBack(s, c, draft);
    OneMore(s, Opening(c, draft, bad + 1), Rollback(c), failed, Stands(s, c, draft, Threw));
  }

  /** A caller whose error only looked like a conflict reads again: it returns the entry of its key or throws. */
  lemma DoubtfulReadsAgain(actions: seq<Action>, c: CallerId)
    requires c in Run(Empty, actions).callers && Run(Empty, actions).callers[c].phase.Doubtful?
    ensures var s, s' := Run(Empty, actions), Step(Run(Empty, actions), ReRead(c));
            var draft, phase := s.callers[c].draft, s'.callers[c].phase;
            && (Committed(s, draft.tenantId, draft.key) ==> phase.Returned? && phase.entry.draft.key == draft.key)
            && (!Committed(s, draft.tenantId, draft.key) ==> phase.Threw?)
  {
    EveryInterleavingKeepsInv(actions);
    var s := Run(Empty, actions);
    LoadFindsCommitted(s, s.callers[c].draft.tenantId, s.callers[c].draft.key);
  }

  /** The caller has begun its transaction and neither committed nor met an error. */
  predicate Underway(p: Phase) {
    p == Start || p == Missed || p.Bumped? || p.Inserting?
  }

  lemma FailStep(s: State, c: CallerId, looks: bool)
    requires c in s.callers && Underway(s.callers[c].phase)
    ensures Step(s, Action.Fail(c, looks)) == s.(callers := s.callers[c := Caller(s.callers[c].draft, Failed(looks))])
  {
  }

  lemma RollbackStep(s: State, c: CallerId, looks: bool)
    requires c in s.callers && s.callers[c].phase == Failed(looks)
    ensures var s' := Step(s, Rollback(c));
            && s'.journal == s.journal && s'.lastSeq == s.lastSeq
            && s'.callers == s.callers[c := Caller(s.callers[c].draft, if looks then Doubtful else Threw)]
            && (forall t :: t in s'.holders <==> t in s.holders && s.holders[t] != c)
            && (forall t :: t in s'.holders ==> s'.holders[t] == s.holders[t])
  {
  }

  /** Whatever statement fails, the caller's rollback leaves the tables as they were and frees its counter row. */
  lemma FailedIsRolledBack(s: State, c: CallerId, looks: bool)
    requires c in s.callers && Underway(s.callers[c].phase)
    ensures var s' := Step(Step(s, Action.Fail(c, looks)), Rollback(c));
            && s'.journal == s.journal && s'.lastSeq == s.lastSeq
            && s'.callers[c].phase == (if looks then Doubtful else Threw)
            && (forall t :: t in s'.holders <==> t in s.holders && s.holders[t] != c)
  {
    FailStep(s, c, looks);
    RollbackStep(Step(s, Action.Fail(c, looks)), c, looks);
  }

  // --- what can be committed at all -----------------------------------------------------------------

  ghost predicate Positive(d: Draft, n: nat) {
    n <= |d.payload.lines| && forall i :: 0 <= i < n ==> d.payload.lines[i].amount > 0
  }

  ghost predicate PositiveSoFar(s: State) {
    && (forall k :: k in s.journal ==> Positive(s.journal[k].draft, |s.journal[k].draft.payload.lines|))
    && (forall c :: c in s.callers && s.callers[c].phase.Inserting? ==>
          Positive(s.callers[c].draft, s.callers[c].phase.lines))
  }

  lemma StepStaysPositive(s: State, a: Action)
    requires PositiveSoFar(s)
    ensures PositiveSoFar(Step(s, a))
  {
    JournalStaysPositive(s, a);
    CallersStayPositive(s, a);
  }

  lemma JournalStaysPositive(s: State, a: Action)
    requires PositiveSoFar(s)
    ensures var j := Step(s, a).journal;
            forall k :: k in j ==> Positive(j[k].draft, |j[k].draft.payload.lines|)
  {
    if a.Commit? || a.CommitUnheard? {
      assert Committable(s, a.c) ==> Positive(s.callers[a.c].draft, s.callers[a.c].phase.lines);
    }
  }

  lemma CallersStayPositive(s: State, a: Action)
    requires PositiveSoFar(s)
    ensures var callers := Step(s, a).callers;
            forall c :: c in callers && callers[c].phase.Inserting? ==> Positive(callers[c].draft, callers[c].phase.lines)
  {
    OthersStay(s, a);
    OwnStaysPositive(s, a);
  }

  lemma OthersStay(s: State, a: Action)
    ensures var callers := Step(s, a).callers;
            forall c :: c in callers && c != a.c ==> c in s.callers && callers[c] == s.callers[c]
  {
  }

  lemma OwnStaysPositive(s: State, a: Action)
    requires PositiveSoFar(s)
    ensures var callers := Step(s, a).callers;
            a.c in callers && callers[a.c].phase.Inserting? ==> Positive(callers[a.c].draft, callers[a.c].phase.lines)
  {
  }

  /** In every interleaving, no committed entry has an amount that is not positive. */
  lemma {:induction false} CommittedAmountsArePositive(actions: seq<Action>)
    ensures PositiveSoFar(Run(Empty, actions))
  {
    if actions != [] {
      CommittedAmountsArePositive(actions[..|actions| - 1]);
      StepStaysPositive(Run(Empty, actions[..|actions| - 1]), actions[|actions| - 1]);
    }
  }
}
