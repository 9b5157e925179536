/** What each call of the close lifecycle does, and exactly when it is accepted (close closeState.ts). */
module CloseEffects {
  import opened Text
  import opened Dates
  import opened Periods
  import opened Close
  import opened CloseRuns

  /** Only the lock of one period may differ, and it now reads so. */
  ghost predicate OnlyStatus(before: Locks, after: Locks, p: Month, status: PeriodStatus) {
    forall q :: StatusOf(after, q) == if q == p then status else StatusOf(before, q)
  }

  ghost predicate OnlyState(before: Desk, after: Desk, p: Month) {
    && p in after.states && after.packages == before.packages
    && forall q :: q != p ==> Existing(after.states, q) == Existing(before.states, q)
  }

  // --- approving ----------------------------------------------------------------------------------------

  /**
   * An approval is accepted exactly when a reopen is pending that the approver did not ask for. It re-opens
   * that period and no other; refused, it changes nothing.
   */
  lemma ApprovalReopens(d: Desk, p: Month, actor: string, at: string)
    ensures var (d', r) := ApproveReopen(d, p, actor, at);
            && (r.Ok? <==> p in d.states && d.states[p].status == REOPEN_REQUESTED
                           && (d.states[p].requestedBy == "" || d.states[p].requestedBy != actor))
            && (r.Err? ==> d' == d)
            && (r.Ok? ==>
                  && StatusOf(d'.locks, p) == OPEN && OnlyStatus(d.locks, d'.locks, p, OPEN) && OnlyState(d, d', p)
                  && d'.states[p].status == REOPENED && d'.states[p].fingerprint == d.states[p].fingerprint
                  && d'.states[p].history == d.states[p].history + [Transition(APPROVE_REOPEN, actor, at, NoNote)])
  {
    forall q ensures StatusOf(Unlocked(d.locks, p), q) == if q == p then OPEN else StatusOf(d.locks, q) {
      OnePeriodChanges(d.locks, p, q);
    }
  }

  // --- requesting ---------------------------------------------------------------------------------------

  /** A request is accepted exactly on a published period, with a reason. It records who asked, and opens nothing. */
  lemma RequestIsRecorded(d: Desk, p: Month, actor: string, asked: string, at: string)
    ensures var (d', r) := RequestReopen(d, p, actor, asked, at);
            && (r.Ok? <==> p in d.states && d.states[p].status == PUBLISHED && Trim(asked) != "")
            && (r.Err? ==> d' == d)
            && (r.Ok? ==>
                  && d'.locks == d.locks && OnlyState(d, d', p)
                  && d'.states[p].status == REOPEN_REQUESTED && d'.states[p].requestedBy == actor
                  && d'.states[p].reason == Trim(asked) && d'.states[p].fingerprint == d.states[p].fingerprint
                  && d'.states[p].history
                     == d.states[p].history + [Transition(REQUEST_REOPEN, actor, at, Because(Trim(asked)))])
  {
  }

  // --- publishing ---------------------------------------------------------------------------------------

  /** Nothing failed, or what failed may be let through and a reason is given. */
  predicate GatePasses(inp: PublishInput) {
    var failed := Failed(Checklist(inp.inputs));
    && (inp.overrideReason.Some? ==> Trim(inp.overrideReason.value) != "")
    && (failed == []
        || (inp.overrideReason.Some?
            && inp.inputs.trialBalanceBalanced))
  }

  lemma OnlyTheTrialBalanceIsAbsolute(inputs: GateInputs)
    ensures AnyAbsolute(Failed(Checklist(inputs))) <==> !inputs.trialBalanceBalanced
  {
    var tasks := Checklist(inputs);
    FailedAreThose(tasks);
    assert TrialBalanceTask(inputs.trialBalanceBalanced) in tasks;
    if !inputs.trialBalanceBalanced {
      assert TrialBalanceTask(false) in Failed(tasks);
    }
  }

  lemma GateIff(inp: PublishInput)
    ensures Gate(inp).Ok? <==> GatePasses(inp)
    ensures Gate(inp).Ok? ==>
              var failed := Failed(Checklist(inp.inputs));
              Gate(inp).value == if failed == [] then None
                                 else Some(Override(inp.publishedBy, inp.at, Trim(inp.overrideReason.value), failed))
  {
    OnlyTheTrialBalanceIsAbsolute(inp.inputs);
  }

  predicate AlreadyThere(d: Desk, inp: PublishInput) {
    inp.pkg.content.period in d.states && d.states[inp.pkg.content.period].status == PUBLISHED
  }

  /** Hash, balance and, when the period was sealed before, the same fingerprint. */
  predicate MaySave(hash: Hash, d: Desk, pkg: Package) {
    && Intact(hash, pkg)
    && (pkg.content.period in d.packages ==> d.packages[pkg.content.period].fingerprint == pkg.fingerprint)
  }

  /**
   * A publish is accepted exactly when the period is published with the same fingerprint already, or the gate
   * passes, two people signed and the package may be stored.
   */
  lemma PublishAcceptedIff(hash: Hash, d: Desk, inp: PublishInput)
    ensures Publish(hash, d, inp).1.Ok? <==>
            if AlreadyThere(d, inp) then d.states[inp.pkg.content.period].fingerprint == inp.pkg.fingerprint
            else GatePasses(inp) && (inp.preparedBy == "" || inp.preparedBy != inp.publishedBy) && MaySave(hash, d, inp.pkg)
  {
    GateIff(inp);
  }

  /** A publish that is not a repeat locks its period and no other, stores the package, and records who, when and what. */
  lemma PublishIsRecorded(hash: Hash, d: Desk, inp: PublishInput)
    requires Publish(hash, d, inp).1.Ok? && !AlreadyThere(d, inp)
    ensures var d', p, failed := Publish(hash, d, inp).0, inp.pkg.content.period, Failed(Checklist(inp.inputs));
            && OnlyStatus(d.locks, d'.locks, p, LOCKED)
            && d'.packages == d.packages[p := inp.pkg]
            && p in d'.states && (forall q :: q != p ==> Existing(d'.states, q) == Existing(d.states, q))
            && var s := d'.states[p];
               && s.status == PUBLISHED && s.publishedBy == inp.publishedBy && s.publishedAt == inp.at
               && s.checklist == Checklist(inp.inputs) && s.fingerprint == inp.pkg.fingerprint
               && s.requestedBy == "" && s.reason == ""
               && s.overridden == (if failed == [] then None
                                   else Some(Override(inp.publishedBy, inp.at, Trim(inp.overrideReason.GetOr("")), failed)))
               && |s.history| == |HistoryOf(Existing(d.states, p))| + 1 && HistoryOf(Existing(d.states, p)) <= s.history
               && var last := s.history[|s.history| - 1];
                  last.action == PUBLISH && last.actor == inp.publishedBy && last.at == inp.at
                  && last.note == if failed == [] then NoNote else OverGate(CheckIds(failed), Trim(inp.overrideReason.GetOr("")))
  {
    GateIff(inp);
    forall q ensures StatusOf(Locked(d.locks, inp.pkg.content.period), q)
                  == if q == inp.pkg.content.period then LOCKED else StatusOf(d.locks, q)
    {
      OnePeriodChanges(d.locks, inp.pkg.content.period, q);
    }
  }

  /** A repeated publish of the same package changes nothing. */
  lemma RepeatedPublishChangesNothing(hash: Hash, d: Desk, inp: PublishInput)
    requires AlreadyThere(d, inp)
    ensures Publish(hash, d, inp).0 == d
  {
  }

  /** What each check of the list says failed: the accounts not balanced, not signed off, or drifted, by name and in order. */
  lemma ChecklistNames(inputs: GateInputs)
    ensures var tasks := Checklist(inputs);
            && (forall t :: t in tasks && t.id == BANK_RECONCILIATIONS ==>
                  (t.status == PASSED <==> inputs.reconciliations != [] && forall r :: r in inputs.reconciliations ==> r.status == "BALANCED"))
            && (forall t :: t in tasks && t.id == RECONCILIATION_SIGNOFF ==>
                  inputs.requireSignOff
                  && (t.status == PASSED <==> inputs.reconciliations != [] && forall r :: r in inputs.reconciliations ==> r.signedOff))
            && (forall t :: t in tasks && t.id == CONTROL_ACCOUNTS ==>
                  (t.status == PASSED <==> inputs.controls != [] && forall c :: c in inputs.controls ==> c.balanced))
            && (forall t :: t in tasks && t.id == TRIAL_BALANCE ==> (t.status == PASSED <==> inputs.trialBalanceBalanced))
            && (exists t :: t in tasks && t.id == BANK_RECONCILIATIONS) && (exists t :: t in tasks && t.id == CONTROL_ACCOUNTS)
            && (exists t :: t in tasks && t.id == TRIAL_BALANCE)
            && (inputs.requireSignOff ==> exists t :: t in tasks && t.id == RECONCILIATION_SIGNOFF)
  {
    var recons, controls := inputs.reconciliations, inputs.controls;
    AllCleanMeans(recons, controls);
    var tasks := Checklist(inputs);
    assert ListTask(BANK_RECONCILIATIONS, |recons|, NotClean(recons)) in tasks;
    assert ListTask(CONTROL_ACCOUNTS, |controls|, Drifted(controls)) in tasks;
    assert TrialBalanceTask(inputs.trialBalanceBalanced) in tasks;
    assert inputs.requireSignOff ==> ListTask(RECONCILIATION_SIGNOFF, |recons|, Unsigned(recons)) in tasks;
  }

  lemma {:induction false} OffendersAreNamed(recons: seq<Recon>, controls: seq<Control>)
    ensures forall name :: name in NotClean(recons) <==> exists r :: r in recons && r.accountId == name && r.status != "BALANCED"
    ensures forall name :: name in Unsigned(recons) <==> exists r :: r in recons && r.accountId == name && !r.signedOff
    ensures forall name :: name in Drifted(controls) <==> exists c :: c in controls && c.name == name && !c.balanced
    decreases |recons| + |controls|
  {
    if recons != [] {
      OffendersAreNamed(recons[1..], []);
      assert recons == [recons[0]] + recons[1..];
    }
    if controls != [] {
      OffendersAreNamed([], controls[1..]);
      assert controls == [controls[0]] + controls[1..];
    }
  }

  /** What a check over a list reports: nothing supplied, how many are in order, or the names of those that are not. */
  lemma DetailsSay(id: CheckId, supplied: nat, offenders: seq<string>)
    ensures var t := ListTask(id, supplied, offenders);
            && t.id == id
            && (t.detail == NothingSupplied <==> supplied == 0)
            && (t.detail == InOrder(supplied) <==> supplied > 0 && offenders == [])
            && (t.detail == OutOfOrder(offenders) <==> supplied > 0 && offenders != [])
            && (t.status == PASSED <==> t.detail == InOrder(supplied))
    ensures TrialBalanceTask(true).detail == InOrder(1) && TrialBalanceTask(false).detail == OutOfOrder([])
  {
  }

  /** The list tasks of the checklist are over the reconciliations and the controls that were supplied. */
  lemma ChecklistIs(inputs: GateInputs)
    ensures var recons, controls := inputs.reconciliations, inputs.controls;
            Checklist(inputs)
            == [ListTask(BANK_RECONCILIATIONS, |recons|, NotClean(recons))]
             + (if inputs.requireSignOff then [ListTask(RECONCILIATION_SIGNOFF, |recons|, Unsigned(recons))] else [])
             + [ListTask(CONTROL_ACCOUNTS, |controls|, Drifted(controls)), TrialBalanceTask(inputs.trialBalanceBalanced)]
  {
  }
}
