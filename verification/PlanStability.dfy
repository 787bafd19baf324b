/** The plan a claim was approved on is the plan it is paid on.

    Over every run in which no process pass falls on a row a payout has in hand, an
    approved or paying row still carries the plan, trigger and amount of its latest
    pay-lane verdict, whatever the payout path has merged into its record since. */
module PlanStability {
  import opened ClaimTypes
  import opened VerificationRecord
  import opened Settlement
  import opened KeeperModel
  import opened KeeperSerial
  import opened KeeperBounds
  import KeeperSafety

  ghost function LatestVerdict(log: seq<Event>, id: nat): (latest: Option<Event>)
    ensures latest.Some? ==> latest.value.PayVerdict? && latest.value.id == id
  {
    if log == [] then None
    else
      var last := log[|log| - 1];
      if last.PayVerdict? && last.id == id then Some(last) else LatestVerdict(log[..|log| - 1], id)
  }

  predicate InPayout(status: Status) {
    status.Approved? || status.Paying?
  }

  /** The row agrees with the verdict that approved it. */
  ghost predicate CarriesVerdict(row: Row, verdict: Option<Event>, config: Config) {
    match verdict
    case None => row.payoutAmount.None?
    case Some(event) =>
      && KeeperSafety.EarnedPayLane(event)
      && (InPayout(row.status) ==>
            && RowPlan(row, config) == event.plan
            && row.trigger == event.trigger
            && row.payoutAmount == Some(event.amount))
  }

  ghost predicate RowFaithful(world: World, config: Config, id: nat) {
    if id < |world.claims| then CarriesVerdict(world.claims[id], LatestVerdict(world.log, id), config)
    else LatestVerdict(world.log, id).None?
  }

  /** The loaded copy differs from the row at most by the `paying` mark. */
  ghost predicate Copies(world: World, id: nat, claim: Row) {
    && id < |world.claims|
    && InPayout(world.claims[id].status)
    && world.claims[id].(status := claim.status) == claim
  }

  /** On the error path the row may also be marked paid already. */
  ghost predicate CopiesOrPaid(world: World, id: nat, claim: Row) {
    && id < |world.claims|
    && (InPayout(world.claims[id].status) || world.claims[id].status.Paid?)
    && world.claims[id].(status := claim.status, proofKind := claim.proofKind) == claim
  }

  ghost predicate WorkerFaithful(world: World, config: Config) {
    match world.worker
    case Idle => true
    case Stuck(id) => id < |world.claims|
    case Loaded(id, claim) => Copies(world, id, claim)
    case Armed(id, claim) => Copies(world, id, claim)
    case Ready(id, claim, plan) => Copies(world, id, claim) && plan == RowPlan(claim, config)
    case Settled(id, claim, plan) => Copies(world, id, claim) && plan.IsProven() && claim.payoutAmount.Some?
    case Refused(id, claim, _) => CopiesOrPaid(world, id, claim)
    case Doubted(id, claim, _, _) => CopiesOrPaid(world, id, claim)
  }

  ghost predicate Faithful(world: World, config: Config) {
    && (forall id: nat :: RowFaithful(world, config, id))
    && WorkerFaithful(world, config)
  }

  // ---------------------------------------------------------------------------
  // Building blocks
  // ---------------------------------------------------------------------------

  lemma LatestAfter(log: seq<Event>, event: Event, id: nat)
    ensures LatestVerdict(log + [event], id)
         == if event.PayVerdict? && event.id == id then Some(event) else LatestVerdict(log, id)
  {
    assert (log + [event])[..|log|] == log;
  }

  lemma NoteKeepsFaith(world: World, config: Config, event: Event)
    requires forall i: nat :: RowFaithful(world, config, i)
    requires !event.PayVerdict?
    ensures forall i: nat :: RowFaithful(Note(world, event), config, i)
  {
    forall i: nat ensures RowFaithful(Note(world, event), config, i) {
      assert RowFaithful(world, config, i);
      LatestAfter(world.log, event, i);
    }
  }

  lemma WriteKeepsFaith(world: World, config: Config, id: nat, row: Row)
    requires forall i: nat :: RowFaithful(world, config, i)
    requires id < |world.claims|
    requires CarriesVerdict(row, LatestVerdict(world.log, id), config)
    ensures forall i: nat :: RowFaithful(Put(world, id, row), config, i)
  {
    forall i: nat ensures RowFaithful(Put(world, id, row), config, i) {
      assert RowFaithful(world, config, i);
    }
  }

  /** A write that leaves the payout path is free; the amount is not its business. */
  lemma LeavingKeepsFaith(world: World, config: Config, id: nat, row: Row)
    requires forall i: nat :: RowFaithful(world, config, i)
    requires id < |world.claims|
    requires !InPayout(row.status) && row.payoutAmount == world.claims[id].payoutAmount
    ensures forall i: nat :: RowFaithful(Put(world, id, row), config, i)
  {
    assert RowFaithful(world, config, id);
    WriteKeepsFaith(world, config, id, row);
  }

  lemma SettingsKeepFaith(
    world: World, config: Config, policies: map<nat, Policy>, chain: map<nat, ChainState>, worker: Worker)
    requires forall i: nat :: RowFaithful(world, config, i)
    ensures forall i: nat :: RowFaithful(world.(policies := policies, chain := chain, worker := worker), config, i)
  {
    forall i: nat
      ensures RowFaithful(world.(policies := policies, chain := chain, worker := worker), config, i)
    {
      assert RowFaithful(world, config, i);
    }
  }

  lemma AppendKeepsFaith(world: World, config: Config, row: Row, counted: bool)
    requires forall i: nat :: RowFaithful(world, config, i)
    requires row.payoutAmount.None?
    ensures forall i: nat :: RowFaithful(Grown(world, row, counted), config, i)
  {
    forall i: nat ensures RowFaithful(Grown(world, row, counted), config, i) {
      assert RowFaithful(world, config, i);
      LatestAfter(world.log, ClaimOpened(|world.claims|), i);
    }
  }

  /** Park for review and end the handler, whether or not the index agrees. */
  lemma ParkKeepsFaith(world: World, config: Config, id: nat, claim: Row, reason: string, patch: Data)
    requires Faithful(world, config) && id < |world.claims|
    ensures Faithful(Park(world, id, claim, reason, patch), config)
  {
    var row := ParkedRow(world.claims[id], claim, reason, patch);
    LeavingKeepsFaith(world, config, id, row);
    SettingsKeepFaith(Put(world, id, row), config, world.policies, world.chain, Idle);
    SettingsKeepFaith(world, config, world.policies, world.chain, Idle);
  }

  // ---------------------------------------------------------------------------
  // Steps
  // ---------------------------------------------------------------------------

  lemma IngestKeepsFaith(world: World, config: Config, alert: Alert, selected: Option<nat>)
    requires Faithful(world, config) && world.worker.Idle?
    ensures Faithful(Ingest(world, config, alert, selected), config)
  {
    var simulated := alert.simulated && SyntheticAllowed(config);
    var trigger := TriggerForEvent(alert.event);
    var signature := EffectiveSignature(alert, simulated);
    var ingested := IngestData(alert, simulated);
    if !alert.signed || alert.agent == "" || trigger.None? || selected.None? || signature == "" {
    } else if HoldsOpenClaim(world.claims, selected.value) {
      var parked := FindParked(world.claims, selected.value, 0);
      if parked.Some? {
        var id := parked.value;
        LeavingKeepsFaith(world, config, id, Capped(world.claims[id]));
        var row := Superseded(world.claims[id], trigger.value, signature, ingested);
        LeavingKeepsFaith(world, config, id, row);
        NoteKeepsFaith(Put(world, id, row), config, SupersedeQueued(id));
      }
    } else {
      var row := OpenedRow(selected.value, trigger.value, signature, ingested);
      AppendKeepsFaith(world, config, row, true);
      assert Ingest(world, config, alert, selected) == Grown(world, row, true);
    }
  }

  lemma IndeterminateKeepsFaith(world: World, config: Config, id: nat, claim: Row, attempt: nat, details: Data)
    requires Faithful(world, config) && world.worker.Idle? && id < |world.claims|
    ensures Faithful(HandleIndeterminate(world, id, claim, attempt, details), config)
  {
    var row := IndeterminateRow(world.claims[id], claim, attempt, details);
    LeavingKeepsFaith(world, config, id, row);
    NoteKeepsFaith(Put(world, id, row), config, RetryScheduled(id));
  }

  /** Approval is where a row starts to carry a verdict. */
  lemma ApprovalKeepsFaith(
    world: World, config: Config, id: nat, claim: Row, verdict: Verdict, attempt: nat, hash: Option<string>,
    plan: Plan, submit: Report, chainReadable: bool)
    requires Faithful(world, config) && world.worker.Idle? && id < |world.claims|
    requires claim.(status := Verifying) == world.claims[id]
    requires plan == PlanProvenSettlement(claim.trigger, claim.data, config, verdict.details, hash)
    requires KeeperSafety.EarnedPayLane(
      PayVerdict(id, claim.trigger, verdict.outcome, verdict.lossAmount, verdict.confidence, plan))
    ensures Faithful(ApproveAndSubmit(world, id, claim, verdict, attempt, hash, plan, submit, chainReadable), config)
  {
    var event := PayVerdict(id, claim.trigger, verdict.outcome, verdict.lossAmount, verdict.confidence, plan);
    var row := PersistedRow(world.claims[id], claim, verdict, attempt, hash);
    var persisted := Note(Put(world, id, row), event);
    forall i: nat ensures RowFaithful(persisted, config, i) {
      assert RowFaithful(world, config, i);
      LatestAfter(world.log, event, i);
    }
    if claim.policyId in world.chain {
      var chain := world.chain[claim.policyId := AfterSubmit(world.chain[claim.policyId], submit)];
      var submitted := persisted.(chain := chain);
      SettingsKeepFaith(persisted, config, world.policies, chain, Idle);
      PlanSurvivesPersistence(claim.trigger, claim.data, verdict.details, verdict.confidence, attempt, hash, config);
      LatestAfter(world.log, event, id);
      WriteKeepsFaith(submitted, config, id, row.(status := Approved));
      NoteKeepsFaith(Put(submitted, id, row.(status := Approved)), config, PayoutQueued(id));
    }
  }

  lemma ConcludeKeepsFaith(world: World, config: Config, id: nat, claim: Row, verdict: Verdict, hash: Option<string>,
                           submit: Report, chainReadable: bool)
    requires Faithful(world, config) && world.worker.Idle? && id < |world.claims|
    requires claim.(status := Verifying) == world.claims[id]
    ensures Faithful(Conclude(world, config, id, claim, verdict, hash, submit, chainReadable), config)
  {
    if verdict.outcome.Confirmed? && verdict.lossAmount > 0 {
      ConfirmedGoesByLane(world, config, id, claim, verdict, hash, submit, chainReadable);
      var plan := PlanProvenSettlement(claim.trigger, claim.data, config, verdict.details, hash);
      match DecideLane(claim.trigger, verdict.confidence, plan.IsProven())
      case ToReview(reason) =>
        LeavingKeepsFaith(world, config, id, ReviewedRow(world.claims[id], claim, verdict, reason));
      case Pay(_) =>
        ApprovalKeepsFaith(world, config, id, claim, verdict, claim.verifyAttempts + 1, hash, plan, submit,
                           chainReadable);
    } else {
      UnconfirmedEnds(world, config, id, claim, verdict, hash, submit, chainReadable);
      if verdict.outcome.Inconclusive? {
        IndeterminateKeepsFaith(world, config, id, claim, claim.verifyAttempts + 1, verdict.details);
      } else {
        LeavingKeepsFaith(world, config, id, RejectedRow(world.claims[id], claim, DenialPatch(verdict)));
      }
    }
  }

  lemma ProcessKeepsFaith(world: World, config: Config, id: nat, input: ProcessInput)
    requires Faithful(world, config) && world.worker.Idle?
    ensures Faithful(Process(world, config, id, input), config)
  {
    if id < |world.claims| {
      var claim := world.claims[id];
      var verifying := claim.(status := Verifying);
      LeavingKeepsFaith(world, config, id, verifying);
      var started := Put(world, id, verifying);
      var coverage := if claim.policyId in world.policies then world.policies[claim.policyId].coverage else 0;
      var patch: Data := map["reason" := JStr("policy_not_indexed")];
      LeavingKeepsFaith(started, config, id, RejectedRow(verifying, claim, patch));
      AdjudicateKeepsFaith(started, config, id, claim, coverage, input);
    }
  }

  lemma AdjudicateKeepsFaith(
    world: World, config: Config, id: nat, claim: Row, coverage: nat, input: ProcessInput)
    requires Faithful(world, config) && world.worker.Idle? && id < |world.claims|
    requires claim.(status := Verifying) == world.claims[id]
    ensures Faithful(Adjudicate(world, config, id, claim, coverage, input), config)
  {
    var simulated := IsSimulated(claim, config);
    var verdict := if simulated then SyntheticVerdict(coverage) else input.verdict;
    var hash := if simulated then None else input.evidenceHash;
    VerdictSplits(world, config, id, claim, coverage, input, verdict, hash);
    match DecideReattribution(claim, verdict, input.mandate)
    case Reattributed =>
      var row := Refiled(world.claims[id], claim, ReasonOf(verdict.details, ""), hash.Some?);
      LeavingKeepsFaith(world, config, id, row);
      NoteKeepsFaith(Put(world, id, row), config, RefileQueued(id));
    case MandateUnreadable =>
      IndeterminateKeepsFaith(world, config, id, claim, claim.verifyAttempts + 1,
        verdict.details["reason" := JStr("mandate_unreadable_during_reattribution")]);
    case NotReattributed =>
      ConcludeKeepsFaith(world, config, id, claim, verdict, hash, input.submit, input.chainReadable);
  }

  lemma ArmKeepsFaith(world: World, config: Config)
    requires Faithful(world, config)
    ensures Faithful(Arm(world), config)
  {
    if world.worker.Loaded? {
      var Loaded(id, claim) := world.worker;
      var row := world.claims[id];
      assert RowFaithful(world, config, id);
      WriteKeepsFaith(world, config, id, row.(status := Paying));
      SettingsKeepFaith(Put(world, id, row.(status := Paying)), config, world.policies, world.chain, Armed(id, claim));
      SettingsKeepFaith(world, config, world.policies, world.chain, Armed(id, claim));
      EndKeepsFaith(world, config, id, RejectedRow(row, claim, map["reason" := JStr("policy_missing_at_payout")]));
      EndKeepsFaith(world, config, id, RejectedRow(row, claim, map["reason" := JStr("payout_amount_missing")]));
    }
  }

  lemma EndKeepsFaith(world: World, config: Config, id: nat, row: Row)
    requires Faithful(world, config) && id < |world.claims|
    requires !InPayout(row.status) && row.payoutAmount == world.claims[id].payoutAmount
    ensures Faithful(WithWorker(Put(world, id, row), Idle), config)
  {
    LeavingKeepsFaith(world, config, id, row);
    SettingsKeepFaith(Put(world, id, row), config, world.policies, world.chain, Idle);
  }

  lemma DecideKeepsFaith(world: World, config: Config, breakerOk: bool)
    requires Faithful(world, config)
    ensures Faithful(Decide(world, config, breakerOk), config)
  {
    if world.worker.Armed? {
      var Armed(id, claim) := world.worker;
      var plan := RowPlan(claim, config);
      ParkKeepsFaith(world, config, id, claim, "auto_payout_limit_exceeded",
        map["reviewReason" := JStr("auto_payout_limit_exceeded")]);
      if plan.Unprovable? {
        ParkKeepsFaith(world, config, id, claim, plan.reason, map["reason" := JStr(plan.reason)]);
      }
      SettingsKeepFaith(world, config, world.policies, world.chain, Ready(id, claim, plan));
    }
  }

  lemma SettleKeepsFaith(world: World, config: Config, report: Report)
    requires Faithful(world, config) && KeeperSafety.Safe(world)
    ensures Faithful(CallSettle(world, report), config)
  {
    if world.worker.Ready? {
      var Ready(id, claim, plan) := world.worker;
      var event := SettleCalled(id, claim.policyId, plan, Amount(claim), claim.data);
      NoteKeepsFaith(world, config, event);
      var called := Note(world, event);
      SettingsKeepFaith(called, config, world.policies, world.chain, Refused(id, claim, ErrorOf(report)));
      var landed := called.(chain := called.chain[claim.policyId := ChainClaimPaid]);
      SettingsKeepFaith(called, config, world.policies, landed.chain, called.worker);
      NoteKeepsFaith(landed, config, SettleLanded(claim.policyId));
      SettingsKeepFaith(Note(landed, SettleLanded(claim.policyId)), config,
        world.policies, landed.chain, CallSettle(world, report).worker);
    }
  }

  lemma InterruptKeepsFaith(world: World, config: Config, fault: Fault)
    requires Faithful(world, config) && KeeperSafety.Safe(world)
    ensures Faithful(Interrupt(world, fault), config)
  {
    if world.worker.Settled? {
      var Settled(id, claim, plan) := world.worker;
      var row := PaidRow(world.claims[id], claim, plan);
      assert RowFaithful(world, config, id);
      WriteKeepsFaith(world, config, id, row);
      SettingsKeepFaith(Put(world, id, row), config, world.policies, world.chain, Interrupt(world, fault).worker);
      SettingsKeepFaith(world, config, world.policies, world.chain, Interrupt(world, fault).worker);
    }
  }

  /** The deferral writes two keys the planner never reads. */
  lemma DeferKeepsFaith(world: World, config: Config, id: nat, claim: Row, message: string)
    requires Faithful(world, config) && CopiesOrPaid(world, id, claim)
    ensures Faithful(Defer(world, id, claim, message), config)
  {
    var deferrals := LockDeferrals(claim.data);
    var counted := if DeferralDelay(deferrals).Some? then deferrals + 1.0 else deferrals;
    var patch: Data := map["lockDeferrals" := JNum(counted), "lastLockError" := JStr(message)];
    assert patch.Keys == {"lockDeferrals", "lastLockError"};
    PlanIgnoresOtherKeys(claim.trigger, claim.data, patch, config);
    var row := DeferredRow(world.claims[id], claim, counted, message);
    assert RowFaithful(world, config, id);
    WriteKeepsFaith(world, config, id, row);
    var event := PayoutDeferred(id, if DeferralDelay(deferrals).Some? then DeferralDelay(deferrals).value else 0);
    NoteKeepsFaith(Put(world, id, row), config, event);
    SettingsKeepFaith(Note(Put(world, id, row), event), config, world.policies, world.chain, Idle);
    SettingsKeepFaith(Put(world, id, row), config, world.policies, world.chain, Stuck(id));
  }

  lemma RecordKeepsFaith(world: World, config: Config)
    requires Faithful(world, config)
    ensures Faithful(Record(world), config)
  {
    match world.worker
    case Settled(id, claim, plan) =>
      var row := PaidRow(world.claims[id], claim, plan);
      assert RowFaithful(world, config, id);
      WriteKeepsFaith(world, config, id, row);
      SettingsKeepFaith(Put(world, id, row), config, world.policies, world.chain, Idle);
    case Doubted(id, claim, message, settled) =>
      if settled {
        EndKeepsFaith(world, config, id, ReconciledRow(world.claims[id], claim, message));
      } else if IsLockNotElapsed(message) {
        DeferKeepsFaith(world, config, id, claim, message);
      } else {
        EndKeepsFaith(world, config, id, FailedRow(world.claims[id], claim, message));
      }
    case _ =>
  }

  lemma MirrorKeepsFaith(world: World, config: Config, policyId: nat, trigger: Trigger, txSignature: string)
    requires Faithful(world, config) && KeeperSafety.Safe(world)
    ensures Faithful(MirrorClaim(world, policyId, trigger, txSignature), config)
  {
    var row := MirroredRow(policyId, trigger, txSignature);
    AppendKeepsFaith(world, config, row, false);
    assert world.(claims := world.claims + [row]) == Grown(world, row, false);
  }

  /** A handler that leaves the row in hand alone may run inside a payout. */
  lemma AsideKeepsFaith(world: World, after: World, config: Config)
    requires Faithful(world, config) && Spares(world, after)
    requires Faithful(WithWorker(after, Idle), config)
    ensures Faithful(after, config)
  {
    SettingsKeepFaith(WithWorker(after, Idle), config, after.policies, after.chain, after.worker);
    assert WithWorker(after, Idle).(policies := after.policies, chain := after.chain, worker := after.worker) == after;
  }

  /** The row a payout holds is one it may hold. */
  lemma FaithfulIsHeld(world: World, config: Config)
    requires Faithful(world, config)
    ensures Held(world)
  {
  }

  lemma IngestInsideKeepsFaith(world: World, config: Config, alert: Alert, selected: Option<nat>)
    requires Faithful(world, config)
    ensures Faithful(Ingest(world, config, alert, selected), config)
  {
    SettingsKeepFaith(world, config, world.policies, world.chain, Idle);
    IngestKeepsFaith(WithWorker(world, Idle), config, alert, selected);
    IngestForgetsWorker(world, Idle, config, alert, selected);
    FaithfulIsHeld(world, config);
    IngestSpares(world, config, alert, selected);
    AsideKeepsFaith(world, Ingest(world, config, alert, selected), config);
  }

  lemma ProcessInsideKeepsFaith(world: World, config: Config, id: nat, input: ProcessInput)
    requires Faithful(world, config) && Serial(world, ProcessStep(id, input))
    ensures Faithful(Process(world, config, id, input), config)
  {
    SettingsKeepFaith(world, config, world.policies, world.chain, Idle);
    ProcessKeepsFaith(WithWorker(world, Idle), config, id, input);
    ProcessForgetsWorker(world, Idle, config, id, input);
    ProcessSpares(world, config, id, input);
    AsideKeepsFaith(world, Process(world, config, id, input), config);
  }

  lemma StepKeepsFaith(world: World, config: Config, step: Step)
    requires Faithful(world, config) && KeeperSafety.Safe(world) && Serial(world, step)
    ensures Faithful(Apply(world, config, step), config)
  {
    match step
    case IngestStep(alert, selected) => IngestInsideKeepsFaith(world, config, alert, selected);
    case ProcessStep(id, input) => ProcessInsideKeepsFaith(world, config, id, input);
    case DeliverStep(id) =>
      SettingsKeepFaith(world, config, world.policies, world.chain, Deliver(world, id).worker);
    case ArmStep => ArmKeepsFaith(world, config);
    case DecideStep(breakerOk) => DecideKeepsFaith(world, config, breakerOk);
    case SettleStep(report) => SettleKeepsFaith(world, config, report);
    case FaultStep(fault) => InterruptKeepsFaith(world, config, fault);
    case AskStep(chainReadable) =>
      SettingsKeepFaith(world, config, world.policies, world.chain, AskChain(world, chainReadable).worker);
    case RecordStep => RecordKeepsFaith(world, config);
    case EscalateStep =>
      if world.worker.Stuck? {
        var id := world.worker.id;
        ParkKeepsFaith(world, config, id, world.claims[id], "lock_never_elapsed",
          map["reviewReason" := JStr("lock_never_elapsed")]);
      }
    case CrashStep => SettingsKeepFaith(world, config, world.policies, world.chain, Idle);
    case MirrorStep(policyId, trigger, txSignature) =>
      MirrorKeepsFaith(world, config, policyId, trigger, txSignature);
    case ReindexStep(policies) => SettingsKeepFaith(world, config, policies, world.chain, world.worker);
    case ChainStep(policyId, after) =>
      SettingsKeepFaith(world, config, world.policies, world.chain[policyId := after], world.worker);
  }

  lemma {:induction false} SerialRunStaysFaithful(start: World, config: Config, steps: seq<Step>)
    requires Initial(start) && SerialRun(start, config, steps)
    ensures Faithful(Run(start, config, steps), config)
    decreases |steps|
  {
    if steps != [] {
      SerialRunStaysFaithful(start, config, steps[..|steps| - 1]);
      KeeperSafety.EveryRunIsSafe(start, config, steps[..|steps| - 1]);
      StepKeepsFaith(Run(start, config, steps[..|steps| - 1]), config, steps[|steps| - 1]);
    }
  }

  /** An approved or paying row with a verdict behind it still plans exactly what
      the lane decision saw, for the same amount; and if that verdict was below
      the auto-pay bar the plan is proven. */
  lemma ApprovedNeverTurnsUnprovable(start: World, config: Config, steps: seq<Step>, id: nat)
    requires Initial(start) && SerialRun(start, config, steps)
    ensures
      var world := Run(start, config, steps);
      var latest := LatestVerdict(world.log, id);
      id < |world.claims| && InPayout(world.claims[id].status) && latest.Some? ==>
        && RowPlan(world.claims[id], config) == latest.value.plan
        && world.claims[id].payoutAmount == Some(latest.value.amount)
        && (latest.value.confidence < AUTO_PAY_CONFIDENCE ==> RowPlan(world.claims[id], config).IsProven())
  {
    SerialRunStaysFaithful(start, config, steps);
    assert RowFaithful(Run(start, config, steps), config, id);
  }

  /** The settle call about to be made is for the plan and amount of the latest
      verdict, and a call below the auto-pay bar is never parked as unprovable. */
  lemma SettleUsesTheApprovedPlan(start: World, config: Config, steps: seq<Step>)
    requires Initial(start) && SerialRun(start, config, steps)
    ensures
      var world := Run(start, config, steps);
      && (world.worker.Ready? ==>
            var latest := LatestVerdict(world.log, world.worker.id);
            && latest.Some?
            && world.worker.plan == latest.value.plan
            && Amount(world.worker.claim) == latest.value.amount)
      && (world.worker.Armed? ==>
            var latest := LatestVerdict(world.log, world.worker.id);
            && latest.Some?
            && (latest.value.confidence < AUTO_PAY_CONFIDENCE ==> Decide(world, config, true).worker.Ready?))
  {
    SerialRunStaysFaithful(start, config, steps);
    KeeperSafety.EveryRunIsSafe(start, config, steps);
    var world := Run(start, config, steps);
    if world.worker.Ready? || world.worker.Armed? {
      assert RowFaithful(world, config, world.worker.id);
    }
  }
}
