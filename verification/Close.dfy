/** Sealing and reopening a period over three stores (close closeState.ts, packageStore.ts, close.ts). */
module Close {
  import opened Text
  import opened Dates
  import opened Ledger
  import opened Periods

  // --- close.ts: the gate --------------------------------------------------------------------------

  datatype TaskStatus = PASSED | FAILED

  /** The four checks; only the trial balance is absolute. */
  datatype CheckId = BANK_RECONCILIATIONS | RECONCILIATION_SIGNOFF | CONTROL_ACCOUNTS | TRIAL_BALANCE

  /** What a check reports: no evidence at all, everything in order, or the names that are not. */
  datatype Detail = NothingSupplied | InOrder(count: nat) | OutOfOrder(names: seq<string>)

  datatype Task = Task(id: CheckId, status: TaskStatus, detail: Detail)

  datatype Recon = Recon(accountId: string, status: string, signedOff: bool)

  datatype Control = Control(name: string, balanced: bool)

  datatype GateInputs = GateInputs(
    reconciliations: seq<Recon>, controls: seq<Control>, trialBalanceBalanced: bool, requireSignOff: bool)

  predicate IsOverridableCheck(id: CheckId) {
    id == BANK_RECONCILIATIONS || id == RECONCILIATION_SIGNOFF || id == CONTROL_ACCOUNTS
  }

  function NotClean(recons: seq<Recon>): seq<string> {
    if recons == [] then []
    else if recons[0].status != "BALANCED" then [recons[0].accountId] + NotClean(recons[1..])
    else NotClean(recons[1..])
  }

  function Unsigned(recons: seq<Recon>): seq<string> {
    if recons == [] then []
    else if !recons[0].signedOff then [recons[0].accountId] + Unsigned(recons[1..])
    else Unsigned(recons[1..])
  }

  function Drifted(controls: seq<Control>): seq<string> {
    if controls == [] then []
    else if !controls[0].balanced then [controls[0].name] + Drifted(controls[1..])
    else Drifted(controls[1..])
  }

  function Verdict(passed: bool): TaskStatus {
    if passed then PASSED else FAILED
  }

  function DetailOf(supplied: nat, offenders: seq<string>): Detail {
    if supplied == 0 then NothingSupplied else if offenders == [] then InOrder(supplied) else OutOfOrder(offenders)
  }

  /** A check over a list of results: an empty list proves nothing, so it never passes. */
  function ListTask(id: CheckId, supplied: nat, offenders: seq<string>): Task {
    Task(id, Verdict(supplied > 0 && offenders == []), DetailOf(supplied, offenders))
  }

  function TrialBalanceTask(balanced: bool): Task {
    Task(TRIAL_BALANCE, Verdict(balanced), if balanced then InOrder(1) else OutOfOrder([]))
  }

  function Checklist(inputs: GateInputs): seq<Task> {
    var recons, controls := inputs.reconciliations, inputs.controls;
    [ListTask(BANK_RECONCILIATIONS, |recons|, NotClean(recons))]
    + (if inputs.requireSignOff then [ListTask(RECONCILIATION_SIGNOFF, |recons|, Unsigned(recons))] else [])
    + [ListTask(CONTROL_ACCOUNTS, |controls|, Drifted(controls))]
    + [TrialBalanceTask(inputs.trialBalanceBalanced)]
  }

  /** Every check passes exactly on complete evidence: an empty list of results never passes. */
  method BuildCloseChecklist(inputs: GateInputs) returns (tasks: seq<Task>)
    ensures tasks == Checklist(inputs)
    ensures (forall t :: t in tasks ==> t.status == PASSED) <==> EverythingTies(inputs)
    ensures Task(TRIAL_BALANCE, PASSED, InOrder(1)) in tasks <==> inputs.trialBalanceBalanced
  {
    GatePassesIffEverythingTies(inputs);
    NoneFailedIffAllPassed(Checklist(inputs));
    tasks := [];
    var recons, controls := inputs.reconciliations, inputs.controls;
    tasks := tasks + [ListTask(BANK_RECONCILIATIONS, |recons|, NotClean(recons))];
    if inputs.requireSignOff {
      tasks := tasks + [ListTask(RECONCILIATION_SIGNOFF, |recons|, Unsigned(recons))];
    }
    tasks := tasks + [ListTask(CONTROL_ACCOUNTS, |controls|, Drifted(controls))];
    tasks := tasks + [TrialBalanceTask(inputs.trialBalanceBalanced)];
  }

  function Failed(tasks: seq<Task>): seq<Task> {
    if tasks == [] then []
    else if tasks[0].status == FAILED then [tasks[0]] + Failed(tasks[1..])
    else Failed(tasks[1..])
  }

  lemma {:induction false} FailedAreThose(tasks: seq<Task>)
    ensures forall t :: t in Failed(tasks) <==> t in tasks && t.status == FAILED
  {
    if tasks != [] {
      FailedAreThose(tasks[1..]);
      assert tasks == [tasks[0]] + tasks[1..];
    }
  }

  lemma {:induction false} NoneFailedIffAllPassed(tasks: seq<Task>)
    ensures Failed(tasks) == [] <==> forall t :: t in tasks ==> t.status == PASSED
  {
    if tasks != [] {
      NoneFailedIffAllPassed(tasks[1..]);
      assert tasks == [tasks[0]] + tasks[1..];
    }
  }

  lemma {:induction false} AllCleanMeans(recons: seq<Recon>, controls: seq<Control>)
    ensures NotClean(recons) == [] <==> forall r :: r in recons ==> r.status == "BALANCED"
    ensures Unsigned(recons) == [] <==> forall r :: r in recons ==> r.signedOff
    ensures Drifted(controls) == [] <==> forall c :: c in controls ==> c.balanced
    decreases |recons| + |controls|
  {
    if recons != [] {
      AllCleanMeans(recons[1..], []);
      assert recons == [recons[0]] + recons[1..];
    }
    if controls != [] {
      AllCleanMeans([], controls[1..]);
      assert controls == [controls[0]] + controls[1..];
    }
  }

  predicate EverythingTies(inputs: GateInputs) {
    && inputs.reconciliations != [] && (forall r :: r in inputs.reconciliations ==> r.status == "BALANCED")
    && (inputs.requireSignOff ==> forall r :: r in inputs.reconciliations ==> r.signedOff)
    && inputs.controls != [] && (forall c :: c in inputs.controls ==> c.balanced)
    && inputs.trialBalanceBalanced
  }

  /** The gate passes exactly on complete evidence: an empty list of results never passes. */
  lemma GatePassesIffEverythingTies(inputs: GateInputs)
    ensures Failed(Checklist(inputs)) == [] <==> EverythingTies(inputs)
  {
    var recons, controls, tasks := inputs.reconciliations, inputs.controls, Checklist(inputs);
    FailedAreThose(tasks);
    AllCleanMeans(recons, controls);
    assert ListTask(BANK_RECONCILIATIONS, |recons|, NotClean(recons)) in tasks;
    assert ListTask(CONTROL_ACCOUNTS, |controls|, Drifted(controls)) in tasks;
    assert TrialBalanceTask(inputs.trialBalanceBalanced) in tasks;
    assert inputs.requireSignOff ==> ListTask(RECONCILIATION_SIGNOFF, |recons|, Unsigned(recons)) in tasks;
    if Failed(tasks) != [] {
      assert Failed(tasks)[0] in Failed(tasks);
    }
  }

  // --- financialPackage.ts, packageStore.ts: sealed packages ---------------------------------------

  /** The fingerprinted content; `figures` stands for the rows and totals, which no branch reads. */
  datatype Content = Content(
    version: string, period: Month, currency: string, trialInBalance: bool, sheetBalances: bool,
    qboInAgreement: Option<bool>, figures: string)

  datatype Package = Package(content: Content, closedBy: string, closedAt: string, packagedAt: string, fingerprint: string)

  /** The content hash is not modelled: any function of the content. */
  type Hash = Content -> string

  datatype CloseError =
    | AlreadyPublished | NeedsReason | GateBlocked(failed: seq<Task>) | SameHands
    | NotIntact | Unbalanced | PackagePublished
    | NotPublished | AlreadyPending | AlreadyReopened | NothingPending

  predicate TiesOut(c: Content) {
    c.trialInBalance && c.sheetBalances && (c.qboInAgreement.Some? ==> c.qboInAgreement.value)
  }

  /** Verified and balanced: what the store insists on both when writing and when reading. */
  predicate Intact(hash: Hash, pkg: Package) {
    hash(pkg.content) == pkg.fingerprint && TiesOut(pkg.content)
  }

  type Packages = map<Month, Package>

  function SaveProblem(hash: Hash, packages: Packages, pkg: Package): Option<CloseError> {
    if hash(pkg.content) != pkg.fingerprint then Some(NotIntact)
    else if !TiesOut(pkg.content) then Some(Unbalanced)
    else if pkg.content.period in packages && packages[pkg.content.period].fingerprint != pkg.fingerprint
    then Some(PackagePublished)
    else None
  }

  class InMemoryFinancialPackageStore {
    const hash: Hash
    var byTenant: map<TenantId, Packages>

    constructor (hash: Hash)
      ensures this.hash == hash && forall t :: View(t) == map[]
    {
      this.hash := hash;
      byTenant := map[];
    }

    function View(t: TenantId): Packages
      reads this
    {
      if t in byTenant then byTenant[t] else map[]
    }

    method Save(t: TenantId, pkg: Package) returns (r: Result<(), CloseError>)
      modifies this`byTenant
      ensures r == (if SaveProblem(hash, old(View(t)), pkg).Some?
                    then Err(SaveProblem(hash, old(View(t)), pkg).value) else Ok(()))
      ensures View(t) == if r.Ok? then old(View(t))[pkg.content.period := pkg] else old(View(t))
      ensures forall u :: u != t ==> View(u) == old(View(u))
    {
      if hash(pkg.content) != pkg.fingerprint {
        return Err(NotIntact);
      }
      if !TiesOut(pkg.content) {
        return Err(Unbalanced);
      }
      var periods := View(t);
      if pkg.content.period in periods && periods[pkg.content.period].fingerprint != pkg.fingerprint {
        return Err(PackagePublished);
      }
      byTenant := byTenant[t := periods[pkg.content.period := pkg]];
      return Ok(());
    }

    /** Reading verifies again: a stored package that no longer verifies is reported, not returned. */
    method Get(t: TenantId, period: Month) returns (r: Result<Option<Package>, CloseError>)
      ensures r.Ok? <==> (period in View(t) ==> Intact(hash, View(t)[period]))
      ensures r.Ok? ==> r.value == if period in View(t) then Some(View(t)[period]) else None
    {
      var periods := View(t);
      if period !in periods {
        return Ok(None);
      }
      var pkg := periods[period];
      if hash(pkg.content) != pkg.fingerprint {
        return Err(NotIntact);
      }
      if !TiesOut(pkg.content) {
        return Err(Unbalanced);
      }
      return Ok(Some(pkg));
    }
  }

  // --- closeState.ts -----------------------------------------------------------------------------------

  datatype CloseStatus = PUBLISHED | REOPEN_REQUESTED | REOPENED

  datatype CloseAction = PUBLISH | REQUEST_REOPEN | APPROVE_REOPEN

  datatype Note = NoNote | Because(reason: string) | OverGate(checks: seq<CheckId>, reason: string)

  datatype Transition = Transition(action: CloseAction, actor: string, at: string, note: Note)

  datatype Override = Override(actor: string, at: string, reason: string, checks: seq<Task>)

  datatype CloseState = CloseState(
    period: Month, status: CloseStatus, checklist: seq<Task>, publishedBy: string, publishedAt: string,
    overridden: Option<Override>, fingerprint: string, requestedBy: string, reason: string, history: seq<Transition>)

  class InMemoryCloseStateStore {
    var byTenant: map<TenantId, map<Month, CloseState>>

    constructor ()
      ensures forall t :: View(t) == map[]
    {
      byTenant := map[];
    }

    function View(t: TenantId): map<Month, CloseState>
      reads this
    {
      if t in byTenant then byTenant[t] else map[]
    }

    method Get(t: TenantId, period: Month) returns (r: Option<CloseState>)
      ensures r == Existing(View(t), period)
    {
      var periods := View(t);
      r := if period in periods then Some(periods[period]) else None;
    }

    method Put(t: TenantId, state: CloseState)
      modifies this
      ensures View(t) == old(View(t))[state.period := state]
      ensures forall u :: u != t ==> View(u) == old(View(u))
    {
      byTenant := byTenant[t := View(t)[state.period := state]];
    }
  }

  function Existing(states: map<Month, CloseState>, period: Month): Option<CloseState> {
    if period in states then Some(states[period]) else None
  }

  /** One tenant's view of the three stores. */
  datatype Desk = Desk(locks: Locks, packages: Packages, states: map<Month, CloseState>)

  datatype PublishInput = PublishInput(
    inputs: GateInputs, pkg: Package, preparedBy: string, publishedBy: string, at: string, overrideReason: Option<string>)

  predicate AnyAbsolute(failed: seq<Task>) {
    exists t :: t in failed && !IsOverridableCheck(t.id)
  }

  /** The gate with its override: what is recorded as let through, or why the publish is refused. */
  function Gate(inp: PublishInput): Result<Option<Override>, CloseError> {
    var failed := Failed(Checklist(inp.inputs));
    match inp.overrideReason
    case None => if failed == [] then Ok(None) else Err(GateBlocked(failed))
    case Some(asked) =>
      var reason := Trim(asked);
      if reason == "" then Err(NeedsReason)
      else if failed == [] then Ok(None)
      else if AnyAbsolute(failed) then Err(GateBlocked(failed))
      else Ok(Some(Override(inp.publishedBy, inp.at, reason, failed)))
  }

  predicate DutiesSeparated(inp: PublishInput) {
    inp.preparedBy == "" || inp.preparedBy != inp.publishedBy
  }

  function CheckIds(tasks: seq<Task>): (r: seq<CheckId>)
    ensures |r| == |tasks|
  {
    seq(|tasks|, i requires 0 <= i < |tasks| => tasks[i].id)
  }

  function PublishNote(overridden: Option<Override>): Note {
    match overridden
    case None => NoNote
    case Some(o) => OverGate(CheckIds(o.checks), o.reason)
  }

  function HistoryOf(existing: Option<CloseState>): seq<Transition> {
    if existing.Some? then existing.value.history else []
  }

  function PublishedState(inp: PublishInput, overridden: Option<Override>, history: seq<Transition>): CloseState {
    CloseState(inp.pkg.content.period, PUBLISHED, Checklist(inp.inputs), inp.publishedBy, inp.at, overridden,
               inp.pkg.fingerprint, "", "",
               history + [Transition(PUBLISH, inp.publishedBy, inp.at, PublishNote(overridden))])
  }

  /** Gate, separate duties, lock the period, save the package, then record the state. */
  function Publish(hash: Hash, d: Desk, inp: PublishInput): (Desk, Result<CloseState, CloseError>) {
    var period := inp.pkg.content.period;
    var existing := Existing(d.states, period);
    if existing.Some? && existing.value.status == PUBLISHED then
      (d, if existing.value.fingerprint == inp.pkg.fingerprint then Ok(existing.value) else Err(AlreadyPublished))
    else
      match Gate(inp)
      case Err(e) => (d, Err(e))
      case Ok(overridden) =>
        if !DutiesSeparated(inp) then (d, Err(SameHands))
        else
          var locked := d.(locks := Locked(d.locks, period));
          match SaveProblem(hash, d.packages, inp.pkg)
          case Some(e) => (locked, Err(e))
          case None =>
            var state := PublishedState(inp, overridden, HistoryOf(existing));
            (locked.(packages := d.packages[period := inp.pkg], states := d.states[period := state]), Ok(state))
  }

  function RequestReopen(d: Desk, period: Month, actor: string, asked: string, at: string): (Desk, Result<CloseState, CloseError>) {
    match Existing(d.states, period)
    case None => (d, Err(NotPublished))
    case Some(state) =>
      if state.status == REOPEN_REQUESTED then (d, Err(AlreadyPending))
      else if state.status == REOPENED then (d, Err(AlreadyReopened))
      else if Trim(asked) == "" then (d, Err(NeedsReason))
      else
        var next := state.(status := REOPEN_REQUESTED, requestedBy := actor, reason := Trim(asked),
                           history := state.history + [Transition(REQUEST_REOPEN, actor, at, Because(Trim(asked)))]);
        (d.(states := d.states[period := next]), Ok(next))
  }

  function ApproveReopen(d: Desk, period: Month, actor: string, at: string): (Desk, Result<CloseState, CloseError>) {
    match Existing(d.states, period)
    case None => (d, Err(NothingPending))
    case Some(state) =>
      if state.status != REOPEN_REQUESTED then (d, Err(NothingPending))
      else if state.requestedBy != "" && state.requestedBy == actor then (d, Err(SameHands))
      else
        var next := state.(status := REOPENED, history := state.history + [Transition(APPROVE_REOPEN, actor, at, NoNote)]);
        (d.(locks := Unlocked(d.locks, period), states := d.states[period := next]), Ok(next))
  }

  class CloseEngine {
    const periods: InMemoryPeriodStore
    const packages: InMemoryFinancialPackageStore
    const states: InMemoryCloseStateStore

    constructor (periods: InMemoryPeriodStore, packages: InMemoryFinancialPackageStore, states: InMemoryCloseStateStore)
      ensures this.periods == periods && this.packages == packages && this.states == states
    {
      this.periods, this.packages, this.states := periods, packages, states;
    }

    /** Every stored state is stored under its own period. */
    ghost predicate Valid()
      reads this, states
    {
      forall t, p :: p in states.View(t) ==> states.View(t)[p].period == p
    }

    ghost function View(t: TenantId): Desk
      reads this, periods, packages, states
    {
      Desk(periods.View(t), packages.View(t), states.View(t))
    }

    method PublishClose(t: TenantId, inp: PublishInput) returns (r: Result<CloseState, CloseError>)
      requires Valid()
      modifies periods, packages, states
      ensures Valid()
      ensures (View(t), r) == Publish(packages.hash, old(View(t)), inp)
      ensures forall u :: u != t ==> View(u) == old(View(u))
    {
      var period := inp.pkg.content.period;
      var existing := states.Get(t, period);
      if existing.Some? && existing.value.status == PUBLISHED {
        if existing.value.fingerprint == inp.pkg.fingerprint {
          return Ok(existing.value);
        }
        return Err(AlreadyPublished);
      }
      var checklist := BuildCloseChecklist(inp.inputs);
      var failed := Failed(checklist);
      var overridden: Option<Override> := None;
      if inp.overrideReason.Some? {
        var reason := Trim(inp.overrideReason.value);
        if reason == "" {
          return Err(NeedsReason);
        }
        if failed != [] {
          if AnyAbsolute(failed) {
            return Err(GateBlocked(failed));
          }
          overridden := Some(Override(inp.publishedBy, inp.at, reason, failed));
        }
      } else if failed != [] {
        return Err(GateBlocked(failed));
      }
      if inp.preparedBy != "" && inp.preparedBy == inp.publishedBy {
        return Err(SameHands);
      }
      r := Seal(t, inp, overridden, existing);
    }

    /** Lock, save, record: the writes of a publish whose checks have passed. */
    method Seal(t: TenantId, inp: PublishInput, overridden: Option<Override>, existing: Option<CloseState>)
      returns (r: Result<CloseState, CloseError>)
      requires Valid() && existing == Existing(states.View(t), inp.pkg.content.period)
      requires existing.Some? ==> existing.value.status != PUBLISHED
      requires Gate(inp) == Ok(overridden) && DutiesSeparated(inp)
      modifies periods, packages, states
      ensures Valid()
      ensures (View(t), r) == Publish(packages.hash, old(View(t)), inp)
      ensures forall u :: u != t ==> View(u) == old(View(u))
    {
      periods.Lock(t, inp.pkg.content.period);
      var saved := packages.Save(t, inp.pkg);
      if saved.Err? {
        return Err(saved.error);
      }
      var state := PublishedState(inp, overridden, HistoryOf(existing));
      states.Put(t, state);
      return Ok(state);
    }

    method Request(t: TenantId, period: Month, actor: string, asked: string, at: string)
      returns (r: Result<CloseState, CloseError>)
      requires Valid()
      modifies states
      ensures Valid()
      ensures (View(t), r) == RequestReopen(old(View(t)), period, actor, asked, at)
      ensures forall u :: u != t ==> View(u) == old(View(u))
    {
      var state := states.Get(t, period);
      if state.None? {
        return Err(NotPublished);
      }
      if state.value.status == REOPEN_REQUESTED {
        return Err(AlreadyPending);
      }
      if state.value.status == REOPENED {
        return Err(AlreadyReopened);
      }
      var reason := Trim(asked);
      if reason == "" {
        return Err(NeedsReason);
      }
      var next := state.value.(status := REOPEN_REQUESTED, requestedBy := actor, reason := reason,
                               history := state.value.history + [Transition(REQUEST_REOPEN, actor, at, Because(reason))]);
      states.Put(t, next);
      return Ok(next);
    }

    method Approve(t: TenantId, period: Month, actor: string, at: string) returns (r: Result<CloseState, CloseError>)
      requires Valid()
      modifies periods, states
      ensures Valid()
      ensures (View(t), r) == ApproveReopen(old(View(t)), period, actor, at)
      ensures forall u :: u != t ==> View(u) == old(View(u))
    {
      var state := states.Get(t, period);
      if state.None? || state.value.status != REOPEN_REQUESTED {
        return Err(NothingPending);
      }
      if state.value.requestedBy != "" && state.value.requestedBy == actor {
        return Err(SameHands);
      }
      periods.Unlock(t, period);
      var next := state.value.(status := REOPENED,
                               history := state.value.history + [Transition(APPROVE_REOPEN, actor, at, NoNote)]);
      states.Put(t, next);
      return Ok(next);
    }
  }
}
