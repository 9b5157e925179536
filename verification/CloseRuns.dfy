/** What every run of publishes, reopen requests and approvals keeps (close closeState.ts). */
module CloseRuns {
  import opened Text
  import opened Dates
  import opened Periods
  import opened Close

  // --- the language of histories --------------------------------------------------------------------

  /** PUBLISH (REQUEST APPROVE? PUBLISH)* */
  predicate Sealed(h: seq<Transition>) {
    && h != [] && h[|h| - 1].action == PUBLISH
    && (|h| == 1 || Asked(h[..|h| - 1]) || Opened(h[..|h| - 1]))
  }

  /** A sealed history with a reopen asked for. */
  predicate Asked(h: seq<Transition>) {
    h != [] && h[|h| - 1].action == REQUEST_REOPEN && Sealed(h[..|h| - 1])
  }

  /** A reopen asked for, then approved by someone else. */
  predicate Opened(h: seq<Transition>) {
    && |h| >= 2 && h[|h| - 1].action == APPROVE_REOPEN && Asked(h[..|h| - 1])
    && (h[|h| - 2].actor == "" || h[|h| - 2].actor != h[|h| - 1].actor)
  }

  predicate HistoryFits(s: CloseState) {
    match s.status
    case PUBLISHED => Sealed(s.history)
    case REOPEN_REQUESTED => Asked(s.history) && s.history[|s.history| - 1].actor == s.requestedBy
    case REOPENED => Opened(s.history)
  }

  // --- the invariant ----------------------------------------------------------------------------------

  /** The trial balance passed, and what failed is exactly what the override records. */
  ghost predicate EvidenceFits(s: CloseState) {
    && (exists t :: t in s.checklist && t.id == TRIAL_BALANCE)
    && (forall t :: t in s.checklist && t.id == TRIAL_BALANCE ==> t.status == PASSED)
    && Failed(s.checklist) == (if s.overridden.Some? then s.overridden.value.checks else [])
    && (s.overridden.Some? ==> s.overridden.value.checks != [] && s.overridden.value.reason != "")
  }

  ghost predicate StateFits(d: Desk, p: Month, s: CloseState) {
    && s.period == p && HistoryFits(s) && EvidenceFits(s)
    && p in d.packages && d.packages[p].fingerprint == s.fingerprint
    && (s.status != REOPENED ==> StatusOf(d.locks, p) == LOCKED)
  }

  ghost predicate Inv(hash: Hash, d: Desk) {
    && (forall p :: p in d.packages ==> Intact(hash, d.packages[p]) && d.packages[p].content.period == p)
    && (forall p :: p in d.states ==> StateFits(d, p, d.states[p]))
  }

  /** Sealed fingerprints stay; histories only grow. */
  ghost predicate Grew(before: Desk, after: Desk) {
    && (forall p :: p in before.packages ==>
          p in after.packages && after.packages[p].fingerprint == before.packages[p].fingerprint)
    && (forall p :: p in before.states ==>
          && p in after.states && before.states[p].history <= after.states[p].history
          && after.states[p].fingerprint == before.states[p].fingerprint)
  }

  lemma {:induction false} TrialBalanceIsAbsolute(inp: PublishInput)
    requires Gate(inp).Ok?
    ensures inp.inputs.trialBalanceBalanced
  {
    var tasks := Checklist(inp.inputs);
    FailedAreThose(tasks);
    assert TrialBalanceTask(inp.inputs.trialBalanceBalanced) in tasks;
    if TrialBalanceTask(inp.inputs.trialBalanceBalanced) in Failed(tasks) {
      assert AnyAbsolute(Failed(tasks));
      assert false;
    }
  }

  lemma PublishedEvidenceFits(inp: PublishInput, history: seq<Transition>)
    requires Gate(inp).Ok?
    ensures EvidenceFits(PublishedState(inp, Gate(inp).value, history))
  {
    TrialBalanceIsAbsolute(inp);
    var tasks := Checklist(inp.inputs);
    assert TrialBalanceTask(inp.inputs.trialBalanceBalanced) in tasks;
  }

  lemma PublishedHistoryFits(d: Desk, inp: PublishInput, overridden: Option<Override>)
    requires var existing := Existing(d.states, inp.pkg.content.period);
             existing.Some? ==> existing.value.status != PUBLISHED && HistoryFits(existing.value)
    ensures HistoryFits(PublishedState(inp, overridden, HistoryOf(Existing(d.states, inp.pkg.content.period))))
  {
    var history := HistoryOf(Existing(d.states, inp.pkg.content.period));
    var last := Transition(PUBLISH, inp.publishedBy, inp.at, PublishNote(overridden));
    assert (history + [last])[..|history|] == history;
  }

  lemma LockKeepsInv(hash: Hash, d: Desk, p: Month)
    requires Inv(hash, d)
    ensures Inv(hash, d.(locks := Locked(d.locks, p)))
  {
    forall q | q in d.states ensures StateFits(d.(locks := Locked(d.locks, p)), q, d.states[q]) {
      assert StateFits(d, q, d.states[q]);
    }
  }

  lemma PublishKeepsInv(hash: Hash, d: Desk, inp: PublishInput)
    requires Inv(hash, d)
    ensures Inv(hash, Publish(hash, d, inp).0) && Grew(d, Publish(hash, d, inp).0)
  {
    var p := inp.pkg.content.period;
    var (d', r) := Publish(hash, d, inp);
    LockKeepsInv(hash, d, p);
    if d'.states != d.states {
      PublishedEvidenceFits(inp, HistoryOf(Existing(d.states, p)));
      if p in d.states {
        assert StateFits(d, p, d.states[p]);
      }
      PublishedHistoryFits(d, inp, Gate(inp).value);
      SealedStateFits(hash, d, inp.pkg, d'.states[p], d');
    }
  }

  lemma SealedStateFits(hash: Hash, d: Desk, pkg: Package, s: CloseState, d': Desk)
    requires Inv(hash, d) && SaveProblem(hash, d.packages, pkg).None?
    requires pkg.content.period in d.states ==> d.states[pkg.content.period].history <= s.history
    requires HistoryFits(s) && EvidenceFits(s) && s.fingerprint == pkg.fingerprint && s.period == pkg.content.period
    requires d' == Desk(Locked(d.locks, pkg.content.period), d.packages[pkg.content.period := pkg],
                        d.states[pkg.content.period := s])
    ensures Inv(hash, d') && Grew(d, d')
  {
    var p := pkg.content.period;
    forall q | q in d'.states ensures StateFits(d', q, d'.states[q]) {
      if q != p {
        assert StateFits(d, q, d.states[q]);
      }
    }
    if p in d.states {
      assert StateFits(d, p, d.states[p]);
    }
  }

  lemma RequestKeepsInv(hash: Hash, d: Desk, p: Month, actor: string, asked: string, at: string)
    requires Inv(hash, d)
    ensures Inv(hash, RequestReopen(d, p, actor, asked, at).0) && Grew(d, RequestReopen(d, p, actor, asked, at).0)
  {
    var (d', r) := RequestReopen(d, p, actor, asked, at);
    if r.Ok? {
      assert StateFits(d, p, d.states[p]);
      assert r.value.history[..|d.states[p].history|] == d.states[p].history;
      forall q | q in d'.states ensures StateFits(d', q, d'.states[q]) {
        assert StateFits(d, q, d.states[q]);
      }
    }
  }

  lemma ApproveKeepsInv(hash: Hash, d: Desk, p: Month, actor: string, at: string)
    requires Inv(hash, d)
    ensures Inv(hash, ApproveReopen(d, p, actor, at).0) && Grew(d, ApproveReopen(d, p, actor, at).0)
  {
    var (d', r) := ApproveReopen(d, p, actor, at);
    if r.Ok? {
      assert StateFits(d, p, d.states[p]);
      assert r.value.history[..|d.states[p].history|] == d.states[p].history;
      forall q | q in d'.states ensures StateFits(d', q, d'.states[q]) {
        assert StateFits(d, q, d.states[q]);
      }
    }
  }

  // --- runs ---------------------------------------------------------------------------------------------

  /** Requests to the close engine, and the locks that cutover and go-live take on the same periods. */
  datatype Op =
    | DoPublish(input: PublishInput)
    | DoRequest(period: Month, actor: string, reason: string, at: string)
    | DoApprove(period: Month, actor: string, at: string)
    | DoLock(period: Month)
    | DoLockThrough(period: Month)

  function Step(hash: Hash, d: Desk, op: Op): Desk {
    match op
    case DoPublish(inp) => Publish(hash, d, inp).0
    case DoRequest(p, actor, reason, at) => RequestReopen(d, p, actor, reason, at).0
    case DoApprove(p, actor, at) => ApproveReopen(d, p, actor, at).0
    case DoLock(p) => d.(locks := Locked(d.locks, p))
    case DoLockThrough(p) => d.(locks := LockedThrough(d.locks, p))
  }

  function Run(hash: Hash, d: Desk, ops: seq<Op>): Desk
    decreases |ops|
  {
    if ops == [] then d else Run(hash, Step(hash, d, ops[0]), ops[1..])
  }

  lemma StepKeepsInv(hash: Hash, d: Desk, op: Op)
    requires Inv(hash, d)
    ensures Inv(hash, Step(hash, d, op)) && Grew(d, Step(hash, d, op))
  {
    match op
    case DoPublish(inp) => PublishKeepsInv(hash, d, inp);
    case DoRequest(p, actor, reason, at) => RequestKeepsInv(hash, d, p, actor, reason, at);
    case DoApprove(p, actor, at) => ApproveKeepsInv(hash, d, p, actor, at);
    case DoLock(p) => LockKeepsInv(hash, d, p);
    case DoLockThrough(p) =>
      var d' := d.(locks := LockedThrough(d.locks, p));
      forall q | q in d.states ensures StateFits(d', q, d.states[q]) {
        assert StateFits(d, q, d.states[q]);
      }
  }

  /**
   * Over every run, refused steps included: what is published is locked and its stored package has the
   * state's fingerprint, that fingerprint never changes, and histories only grow, in the protocol's order.
   */
  lemma {:induction false} EveryRunKeepsInv(hash: Hash, d: Desk, ops: seq<Op>)
    requires Inv(hash, d)
    ensures Inv(hash, Run(hash, d, ops)) && Grew(d, Run(hash, d, ops))
    decreases |ops|
  {
    if ops != [] {
      var next := Step(hash, d, ops[0]);
      StepKeepsInv(hash, d, ops[0]);
      EveryRunKeepsInv(hash, next, ops[1..]);
      forall p | p in d.states
        ensures p in Run(hash, d, ops).states && d.states[p].history <= Run(hash, d, ops).states[p].history
      {
        assert d.states[p].history <= next.states[p].history <= Run(hash, d, ops).states[p].history;
      }
    }
  }

  /** In a lawful history every approval directly follows a request, by someone else unless nobody was named. */
  lemma {:induction false} ApprovalsFollowRequests(h: seq<Transition>, i: nat)
    requires Sealed(h) || Asked(h) || Opened(h)
    requires i < |h| && h[i].action == APPROVE_REOPEN
    ensures i > 1 && h[i - 1].action == REQUEST_REOPEN && (h[i - 1].actor == "" || h[i - 1].actor != h[i].actor)
    decreases |h|
  {
    if i < |h| - 1 {
      ApprovalsFollowRequests(h[..|h| - 1], i);
    } else {
      var front := h[..|h| - 1];
      assert front[|h| - 2] == h[|h| - 2] && Asked(front) && Sealed(front[..|front| - 1]);
    }
  }

  // --- all three or none ------------------------------------------------------------------------------

  /** The publish passes every check that comes before its first write. */
  predicate ReachesTheWrites(d: Desk, inp: PublishInput) {
    var existing := Existing(d.states, inp.pkg.content.period);
    (existing.Some? ==> existing.value.status != PUBLISHED) && Gate(inp).Ok? && DutiesSeparated(inp)
  }

  /**
   * A refused publish writes neither package nor state. It leaves every period's status as it was
   * exactly when it was refused before its writes or its period was locked already.
   */
  lemma RefusedPublishLocksIffItReachedTheStore(hash: Hash, d: Desk, inp: PublishInput)
    requires Publish(hash, d, inp).1.Err?
    ensures var d' := Publish(hash, d, inp).0;
            && d'.packages == d.packages && d'.states == d.states
            && ((forall p :: StatusOf(d'.locks, p) == StatusOf(d.locks, p)) <==>
                !ReachesTheWrites(d, inp) || StatusOf(d.locks, inp.pkg.content.period) == LOCKED)
  {
    var d', p := Publish(hash, d, inp).0, inp.pkg.content.period;
    if ReachesTheWrites(d, inp) {
      assert d' == d.(locks := Locked(d.locks, p));
      assert StatusOf(d'.locks, p) == LOCKED;
    }
  }

  /**
   * After a reopen, publishing changed books is always refused, because the sealed package is immutable,
   * and leaves the period locked while its state still says it was reopened.
   */
  lemma ChangedBooksCannotBeResealed(hash: Hash, d: Desk, inp: PublishInput)
    requires Inv(hash, d) && inp.pkg.content.period in d.states
    requires d.states[inp.pkg.content.period].status == REOPENED
    requires inp.pkg.fingerprint != d.states[inp.pkg.content.period].fingerprint
    requires ReachesTheWrites(d, inp)
    ensures var (d', r) := Publish(hash, d, inp);
            && r.Err? && d'.states == d.states && StatusOf(d'.locks, inp.pkg.content.period) == LOCKED
  {
    assert StateFits(d, inp.pkg.content.period, d.states[inp.pkg.content.period]);
  }

  /** Once a package is sealed, no later publish of its period is accepted with another fingerprint. */
  lemma OneFingerprintPerPeriod(hash: Hash, d: Desk, ops: seq<Op>, inp: PublishInput)
    requires Inv(hash, d) && inp.pkg.content.period in d.packages
    requires Publish(hash, Run(hash, d, ops), inp).1.Ok?
    ensures inp.pkg.fingerprint == d.packages[inp.pkg.content.period].fingerprint
  {
    EveryRunKeepsInv(hash, d, ops);
    var now := Run(hash, d, ops);
    if inp.pkg.content.period in now.states {
      assert StateFits(now, inp.pkg.content.period, now.states[inp.pkg.content.period]);
    }
  }
}
