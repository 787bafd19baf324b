/** Safety of the payout over every run: any interleaving, crashes and
    redeliveries between any two writes or chain calls, and settle reports that
    may hide a success. */
module KeeperSafety {
  import opened ClaimTypes
  import opened VerificationRecord
  import opened Settlement
  import opened KeeperModel

  ghost predicate OneOpenClaimPerPolicy(claims: seq<Row>) {
    forall i, j | 0 <= i < j < |claims| ::
      claims[i].policyId == claims[j].policyId ==> !(IsOpen(claims[i].status) && IsOpen(claims[j].status))
  }

  ghost predicate PaidOnChain(chain: map<nat, ChainState>, policyId: nat) {
    policyId in chain && chain[policyId].ChainClaimPaid?
  }

  /** An event recording a confirmed verdict that earned the pay lane. */
  ghost predicate EarnedPayLane(event: Event) {
    && event.PayVerdict?
    && event.outcome.Confirmed?
    && event.amount > 0
    && DecideLane(event.trigger, event.confidence, event.plan.IsProven()).Pay?
    && Fits(event.trigger, event.plan)
  }

  ghost predicate IsVerdictFor(event: Event, id: nat, amount: int) {
    EarnedPayLane(event) && event.id == id && event.amount == amount
  }

  /** Some confirmed pay-lane verdict for this claim set this amount before `end`. */
  ghost predicate VerdictBefore(log: seq<Event>, end: nat, id: nat, amount: int)
    requires end <= |log|
  {
    exists k :: 0 <= k < end && IsVerdictFor(log[k], id, amount)
  }

  ghost predicate BackedAmount(log: seq<Event>, id: nat, amount: Option<int>) {
    amount.Some? ==> VerdictBefore(log, |log|, id, amount.value)
  }

  /** A settle call carries a record that evidences its plan and is not simulated,
      and a positive amount that an earlier verdict for that very claim set. */
  ghost predicate JustifiedCall(log: seq<Event>, k: nat)
    requires k < |log| && log[k].SettleCalled?
  {
    var call := log[k];
    && Evidences(call.data, call.plan)
    && !Records(call.data, "simulated", JBool(true))
    && call.amount > 0
    && VerdictBefore(log, k, call.id, call.amount)
  }

  ghost predicate CallsJustified(log: seq<Event>) {
    forall k | 0 <= k < |log| && log[k].SettleCalled? :: JustifiedCall(log, k)
  }

  /** A policy's settlement lands at most once, and leaves it paid. */
  ghost predicate LandedAtMostOnce(world: World) {
    forall p: nat ::
      && multiset(world.log)[SettleLanded(p)] <= 1
      && (multiset(world.log)[SettleLanded(p)] == 1 ==> PaidOnChain(world.chain, p))
  }

  ghost predicate RowsBacked(world: World) {
    forall id | 0 <= id < |world.claims| ::
      && (world.claims[id].status.Paid? ==> PaidOnChain(world.chain, world.claims[id].policyId))
      && BackedAmount(world.log, id, world.claims[id].payoutAmount)
  }

  /** What the payout handler may hold about a row it loaded. */
  ghost predicate Holds(world: World, id: nat, claim: Row) {
    && id < |world.claims|
    && claim.policyId == world.claims[id].policyId
    && BackedAmount(world.log, id, claim.payoutAmount)
  }

  ghost predicate WorkerSound(world: World) {
    match world.worker
    case Idle => true
    case Loaded(id, claim) => Holds(world, id, claim)
    case Armed(id, claim) => Holds(world, id, claim) && Amount(claim) > 0
    case Ready(id, claim, plan) =>
      && Holds(world, id, claim) && Amount(claim) > 0
      && Evidences(claim.data, plan) && !Records(claim.data, "simulated", JBool(true))
    case Settled(id, claim, plan) =>
      && Holds(world, id, claim) && Amount(claim) > 0
      && plan.IsProven() && PaidOnChain(world.chain, claim.policyId)
    case Refused(id, claim, _) => Holds(world, id, claim)
    case Doubted(id, claim, _, settled) =>
      Holds(world, id, claim) && (settled ==> PaidOnChain(world.chain, claim.policyId))
    case Stuck(id) => id < |world.claims|
  }

  ghost predicate Safe(world: World) {
    && OneOpenClaimPerPolicy(world.claims)
    && RowsBacked(world)
    && CallsJustified(world.log)
    && LandedAtMostOnce(world)
    && WorkerSound(world)
  }

  // ---------------------------------------------------------------------------
  // Building blocks: one row write, one log entry, one appended row
  // ---------------------------------------------------------------------------

  lemma WriteKeepsSafe(world: World, id: nat, row: Row)
    requires Safe(world) && id < |world.claims|
    requires row.policyId == world.claims[id].policyId
    requires IndexAdmits(world.claims, id, row)
    requires row.status.Paid? ==> PaidOnChain(world.chain, row.policyId)
    requires BackedAmount(world.log, id, row.payoutAmount)
    ensures Safe(Put(world, id, row))
  {
    assert forall other | 0 <= other < |world.claims| && other != id ::
      Put(world, id, row).claims[other] == world.claims[other];
  }

  lemma VerdictsStay(log: seq<Event>, event: Event, id: nat, amount: Option<int>)
    requires BackedAmount(log, id, amount)
    ensures BackedAmount(log + [event], id, amount)
  {
    if amount.Some? {
      var k :| 0 <= k < |log| && IsVerdictFor(log[k], id, amount.value);
      assert (log + [event])[k] == log[k];
    }
  }

  /** An entry that is neither a settle call nor a landing. */
  lemma NoteKeepsSafe(world: World, event: Event)
    requires Safe(world)
    requires !event.SettleLanded?
    requires event.SettleCalled? ==> JustifiedCall(world.log + [event], |world.log|)
    ensures Safe(Note(world, event))
  {
    var log := world.log + [event];
    forall k | 0 <= k < |log| && log[k].SettleCalled? ensures JustifiedCall(log, k) {
      if k < |world.log| {
        assert JustifiedCall(world.log, k);
        var j :| 0 <= j < k && IsVerdictFor(world.log[j], world.log[k].id, world.log[k].amount);
        assert IsVerdictFor(log[j], log[k].id, log[k].amount);
      }
    }
    forall id: nat, amount: Option<int> | BackedAmount(world.log, id, amount)
      ensures BackedAmount(log, id, amount)
    {
      VerdictsStay(world.log, event, id, amount);
    }
  }

  lemma AppendKeepsSafe(world: World, row: Row)
    requires Safe(world)
    requires !HoldsOpenClaim(world.claims, row.policyId)
    requires IsOpen(row.status) && row.payoutAmount.None?
    ensures Safe(world.(claims := world.claims + [row]))
  {
    var claims := world.claims + [row];
    forall i, j | 0 <= i < j < |claims| && claims[i].policyId == claims[j].policyId
      ensures !(IsOpen(claims[i].status) && IsOpen(claims[j].status))
    {
      assert claims[i] == world.claims[i];
    }
  }

  // ---------------------------------------------------------------------------
  // One lemma per kind of step
  // ---------------------------------------------------------------------------

  /** Replacing an open row of the same policy cannot meet the index. */
  lemma OpenRowMayStayOpen(claims: seq<Row>, id: nat, row: Row)
    requires OneOpenClaimPerPolicy(claims) && id < |claims|
    requires IsOpen(claims[id].status) && row.policyId == claims[id].policyId
    ensures IndexAdmits(claims, id, row)
  {
  }

  lemma IngestIsSafe(world: World, config: Config, alert: Alert, selected: Option<nat>)
    requires Safe(world)
    ensures Safe(Ingest(world, config, alert, selected))
  {
    var simulated := alert.simulated && SyntheticAllowed(config);
    var trigger := TriggerForEvent(alert.event);
    var signature := EffectiveSignature(alert, simulated);
    var ingested := IngestData(alert, simulated);
    if !alert.signed || alert.agent == "" || trigger.None? || selected.None? || signature == "" {
    } else if HoldsOpenClaim(world.claims, selected.value) {
      var parked := FindParked(world.claims, selected.value, 0);
      if parked.Some? {
        var id := parked.value;
        var existing := world.claims[id];
        OpenRowMayStayOpen(world.claims, id, Capped(existing));
        WriteKeepsSafe(world, id, Capped(existing));
        var row := Superseded(existing, trigger.value, signature, ingested);
        OpenRowMayStayOpen(world.claims, id, row);
        WriteKeepsSafe(world, id, row);
        NoteKeepsSafe(Put(world, id, row), SupersedeQueued(id));
      }
    } else {
      var row := OpenedRow(selected.value, trigger.value, signature, ingested);
      AppendKeepsSafe(world, row);
      NoteKeepsSafe(world.(claims := world.claims + [row]), ClaimOpened(|world.claims|));
    }
  }

  lemma IndeterminateIsSafe(world: World, id: nat, claim: Row, attempt: nat, details: Data)
    requires Safe(world) && id < |world.claims| && IsOpen(world.claims[id].status)
    ensures Safe(HandleIndeterminate(world, id, claim, attempt, details))
  {
    var row := IndeterminateRow(world.claims[id], claim, attempt, details);
    OpenRowMayStayOpen(world.claims, id, row);
    WriteKeepsSafe(world, id, row);
    NoteKeepsSafe(Put(world, id, row), RetryScheduled(id));
  }

  lemma ChainMoveIsSafe(world: World, policyId: nat, after: ChainState)
    requires Safe(world)
    requires PaidOnChain(world.chain, policyId) ==> after.ChainClaimPaid?
    ensures Safe(world.(chain := world.chain[policyId := after]))
  {
  }

  lemma ApprovalIsSafe(
    world: World, id: nat, claim: Row, verdict: Verdict, attempt: nat, hash: Option<string>, plan: Plan,
    submit: Report, chainReadable: bool)
    requires Safe(world) && id < |world.claims|
    requires world.claims[id].status.Verifying? && claim.policyId == world.claims[id].policyId
    requires EarnedPayLane(PayVerdict(id, claim.trigger, verdict.outcome, verdict.lossAmount, verdict.confidence, plan))
    ensures Safe(ApproveAndSubmit(world, id, claim, verdict, attempt, hash, plan, submit, chainReadable))
  {
    var event := PayVerdict(id, claim.trigger, verdict.outcome, verdict.lossAmount, verdict.confidence, plan);
    var row := PersistedRow(world.claims[id], claim, verdict, attempt, hash);
    var noted := Note(world, event);
    NoteKeepsSafe(world, event);
    assert IsVerdictFor(noted.log[|world.log|], id, verdict.lossAmount);
    OpenRowMayStayOpen(noted.claims, id, row);
    WriteKeepsSafe(noted, id, row);
    var persisted := Put(noted, id, row);
    assert persisted == Note(Put(world, id, row), event);
    if claim.policyId in world.chain {
      var state := world.chain[claim.policyId];
      ChainMoveIsSafe(persisted, claim.policyId, AfterSubmit(state, submit));
      var submitted := persisted.(chain := world.chain[claim.policyId := AfterSubmit(state, submit)]);
      var approved := submitted.claims[id].(status := Approved);
      OpenRowMayStayOpen(submitted.claims, id, approved);
      WriteKeepsSafe(submitted, id, approved);
      NoteKeepsSafe(Put(submitted, id, approved), PayoutQueued(id));
    }
  }

  lemma ConcludeIsSafe(world: World, config: Config, id: nat, claim: Row, verdict: Verdict, hash: Option<string>,
                       submit: Report, chainReadable: bool)
    requires Safe(world) && id < |world.claims|
    requires world.claims[id].status.Verifying? && claim.policyId == world.claims[id].policyId
    ensures Safe(Conclude(world, config, id, claim, verdict, hash, submit, chainReadable))
  {
    if verdict.outcome.Confirmed? && verdict.lossAmount > 0 {
      ConfirmedGoesByLane(world, config, id, claim, verdict, hash, submit, chainReadable);
      var plan := PlanProvenSettlement(claim.trigger, claim.data, config, verdict.details, hash);
      PlanIsProvenIff(claim.trigger, claim.data, config, verdict.details, hash);
      match DecideLane(claim.trigger, verdict.confidence, plan.IsProven())
      case ToReview(reason) =>
        var row := ReviewedRow(world.claims[id], claim, verdict, reason);
        OpenRowMayStayOpen(world.claims, id, row);
        WriteKeepsSafe(world, id, row);
      case Pay(_) =>
        ApprovalIsSafe(world, id, claim, verdict, claim.verifyAttempts + 1, hash, plan, submit, chainReadable);
    } else {
      UnconfirmedEnds(world, config, id, claim, verdict, hash, submit, chainReadable);
      if verdict.outcome.Inconclusive? {
        IndeterminateIsSafe(world, id, claim, claim.verifyAttempts + 1, verdict.details);
      } else {
        WriteKeepsSafe(world, id, RejectedRow(world.claims[id], claim, DenialPatch(verdict)));
      }
    }
  }

  lemma AdjudicateIsSafe(world: World, config: Config, id: nat, claim: Row, coverage: nat, input: ProcessInput)
    requires Safe(world) && id < |world.claims|
    requires world.claims[id].status.Verifying? && claim.policyId == world.claims[id].policyId
    ensures Safe(Adjudicate(world, config, id, claim, coverage, input))
  {
    var simulated := IsSimulated(claim, config);
    var verdict := if simulated then SyntheticVerdict(coverage) else input.verdict;
    var hash := if simulated then None else input.evidenceHash;
    VerdictSplits(world, config, id, claim, coverage, input, verdict, hash);
    match DecideReattribution(claim, verdict, input.mandate)
    case Reattributed =>
      var refiled := Refiled(world.claims[id], claim, ReasonOf(verdict.details, ""), hash.Some?);
      OpenRowMayStayOpen(world.claims, id, refiled);
      WriteKeepsSafe(world, id, refiled);
      NoteKeepsSafe(Put(world, id, refiled), RefileQueued(id));
    case MandateUnreadable =>
      IndeterminateIsSafe(world, id, claim, claim.verifyAttempts + 1,
        verdict.details["reason" := JStr("mandate_unreadable_during_reattribution")]);
    case NotReattributed =>
      ConcludeIsSafe(world, config, id, claim, verdict, hash, input.submit, input.chainReadable);
  }

  lemma ProcessIsSafe(world: World, config: Config, id: nat, input: ProcessInput)
    requires Safe(world)
    ensures Safe(Process(world, config, id, input))
  {
    if id < |world.claims| {
      var claim := world.claims[id];
      var verifying := claim.(status := Verifying);
      if IndexAdmits(world.claims, id, verifying) {
        WriteKeepsSafe(world, id, verifying);
        var started := Put(world, id, verifying);
        if claim.policyId !in world.policies {
          WriteKeepsSafe(started, id, RejectedRow(verifying, claim, map["reason" := JStr("policy_not_indexed")]));
        } else {
          AdjudicateIsSafe(started, config, id, claim, world.policies[claim.policyId].coverage, input);
        }
      }
    }
  }

  /** Putting down what the handler held is always sound. */
  lemma HandlerEnds(world: World, id: nat)
    requires Safe(world)
    ensures Safe(WithWorker(world, Idle))
    ensures id < |world.claims| ==> Safe(WithWorker(world, Stuck(id)))
  {
  }

  lemma ArmIsSafe(world: World)
    requires Safe(world)
    ensures Safe(Arm(world))
  {
    if world.worker.Loaded? {
      var Loaded(id, claim) := world.worker;
      var row := world.claims[id];
      if claim.policyId !in world.policies {
        WriteKeepsSafe(world, id, RejectedRow(row, claim, map["reason" := JStr("policy_missing_at_payout")]));
      } else if Amount(claim) <= 0 {
        WriteKeepsSafe(world, id, RejectedRow(row, claim, map["reason" := JStr("payout_amount_missing")]));
      } else if !claim.status.Paying? && row.status.Approved? {
        OpenRowMayStayOpen(world.claims, id, row.(status := Paying));
        WriteKeepsSafe(world, id, row.(status := Paying));
      }
    }
  }

  lemma ParkIsSafe(world: World, id: nat, claim: Row, reason: string, patch: Data)
    requires Safe(world) && id < |world.claims|
    ensures Safe(Park(world, id, claim, reason, patch))
  {
    var row := ParkedRow(world.claims[id], claim, reason, patch);
    if IndexAdmits(world.claims, id, row) {
      WriteKeepsSafe(world, id, row);
      HandlerEnds(Put(world, id, row), id);
    }
  }

  lemma DecideIsSafe(world: World, config: Config, breakerOk: bool)
    requires Safe(world)
    ensures Safe(Decide(world, config, breakerOk))
  {
    if world.worker.Armed? {
      var Armed(id, claim) := world.worker;
      var plan := PlanProvenSettlement(claim.trigger, claim.data, config, map[], None);
      if !breakerOk {
        ParkIsSafe(world, id, claim, "auto_payout_limit_exceeded",
          map["reviewReason" := JStr("auto_payout_limit_exceeded")]);
      } else if plan.Unprovable? {
        ParkIsSafe(world, id, claim, plan.reason, map["reason" := JStr(plan.reason)]);
      } else {
        StoredPlanIsEvidenced(claim.trigger, claim.data, config);
      }
    }
  }

  /** A landing needs a pending policy, so no earlier landing can be on record. */
  lemma SettleIsSafe(world: World, report: Report)
    requires Safe(world)
    ensures Safe(CallSettle(world, report))
  {
    if world.worker.Ready? {
      var Ready(id, claim, plan) := world.worker;
      var event := SettleCalled(id, claim.policyId, plan, Amount(claim), claim.data);
      var log := world.log + [event];
      var k :| 0 <= k < |world.log| && IsVerdictFor(world.log[k], id, Amount(claim));
      assert IsVerdictFor(log[k], id, Amount(claim));
      NoteKeepsSafe(world, event);
      var called := Note(world, event);
      if SettleLands(world.chain, claim.policyId, report) {
        ChainMoveIsSafe(called, claim.policyId, ChainClaimPaid);
        LandingKeepsLog(called.(chain := called.chain[claim.policyId := ChainClaimPaid]), claim.policyId);
      }
    }
  }

  lemma LandingKeepsLog(world: World, policyId: nat)
    requires Safe(world)
    requires multiset(world.log)[SettleLanded(policyId)] == 0 && PaidOnChain(world.chain, policyId)
    ensures Safe(Note(world, SettleLanded(policyId)))
  {
    var event := SettleLanded(policyId);
    var log := world.log + [event];
    forall k | 0 <= k < |log| && log[k].SettleCalled? ensures JustifiedCall(log, k) {
      assert JustifiedCall(world.log, k);
      var j :| 0 <= j < k && IsVerdictFor(world.log[j], world.log[k].id, world.log[k].amount);
      assert IsVerdictFor(log[j], log[k].id, log[k].amount);
    }
    forall id: nat, amount: Option<int> | BackedAmount(world.log, id, amount)
      ensures BackedAmount(log, id, amount)
    {
      VerdictsStay(world.log, event, id, amount);
    }
  }

  lemma DeferIsSafe(world: World, id: nat, claim: Row, message: string)
    requires Safe(world) && id < |world.claims|
    ensures Safe(Defer(world, id, claim, message))
  {
    var deferrals := LockDeferrals(claim.data);
    if DeferralDelay(deferrals).Some? {
      var row := DeferredRow(world.claims[id], claim, deferrals + 1.0, message);
      DeferredRowIsSafe(world, id, row);
      var event := PayoutDeferred(id, DeferralDelay(deferrals).value);
      NoteKeepsSafe(Put(world, id, row), event);
      HandlerEnds(Note(Put(world, id, row), event), id);
    } else {
      var row := DeferredRow(world.claims[id], claim, deferrals, message);
      DeferredRowIsSafe(world, id, row);
      HandlerEnds(Put(world, id, row), id);
    }
  }

  lemma DeferredRowIsSafe(world: World, id: nat, row: Row)
    requires Safe(world) && id < |world.claims|
    requires row == world.claims[id].(data := row.data)
    ensures Safe(Put(world, id, row))
  {
    SameStatusIsAdmitted(world.claims, id, row);
    WriteKeepsSafe(world, id, row);
  }

  lemma ReconcileIsSafe(world: World, id: nat, claim: Row, message: string, settled: bool)
    requires Safe(world) && Holds(world, id, claim)
    requires settled ==> PaidOnChain(world.chain, claim.policyId)
    ensures Safe(Reconcile(world, id, claim, message, settled))
  {
    if settled {
      var row := ReconciledRow(world.claims[id], claim, message);
      WriteKeepsSafe(world, id, row);
      HandlerEnds(Put(world, id, row), id);
    } else if IsLockNotElapsed(message) {
      DeferIsSafe(world, id, claim, message);
    } else {
      var row := FailedRow(world.claims[id], claim, message);
      WriteKeepsSafe(world, id, row);
      HandlerEnds(Put(world, id, row), id);
    }
  }

  /** A throw after the settlement leaves a handler that only doubts. */
  lemma InterruptIsSafe(world: World, fault: Fault)
    requires Safe(world)
    ensures Safe(Interrupt(world, fault))
  {
    if world.worker.Settled? && fault.ReloadThrew? {
      var Settled(id, claim, plan) := world.worker;
      WriteKeepsSafe(world, id, PaidRow(world.claims[id], claim, plan));
    }
  }

  lemma RecordIsSafe(world: World)
    requires Safe(world)
    ensures Safe(Record(world))
  {
    match world.worker
    case Settled(id, claim, plan) =>
      var row := PaidRow(world.claims[id], claim, plan);
      WriteKeepsSafe(world, id, row);
      HandlerEnds(Put(world, id, row), id);
    case Doubted(id, claim, message, settled) => ReconcileIsSafe(world, id, claim, message, settled);
    case _ =>
  }

  lemma SameStatusIsAdmitted(claims: seq<Row>, id: nat, row: Row)
    requires OneOpenClaimPerPolicy(claims) && id < |claims|
    requires row.status == claims[id].status && row.policyId == claims[id].policyId
    ensures IndexAdmits(claims, id, row)
  {
    if IsOpen(row.status) {
      OpenRowMayStayOpen(claims, id, row);
    }
  }

  lemma MirrorIsSafe(world: World, policyId: nat, trigger: Trigger, txSignature: string)
    requires Safe(world)
    ensures Safe(MirrorClaim(world, policyId, trigger, txSignature))
  {
    if !HoldsOpenClaim(world.claims, policyId) {
      AppendKeepsSafe(world, MirroredRow(policyId, trigger, txSignature));
    }
  }

  lemma StepIsSafe(world: World, config: Config, step: Step)
    requires Safe(world)
    ensures Safe(Apply(world, config, step))
  {
    match step
    case IngestStep(alert, selected) => IngestIsSafe(world, config, alert, selected);
    case ProcessStep(id, input) => ProcessIsSafe(world, config, id, input);
    case DeliverStep(id) =>
    case ArmStep => ArmIsSafe(world);
    case DecideStep(breakerOk) => DecideIsSafe(world, config, breakerOk);
    case SettleStep(report) => SettleIsSafe(world, report);
    case FaultStep(fault) => InterruptIsSafe(world, fault);
    case AskStep(chainReadable) =>
    case RecordStep => RecordIsSafe(world);
    case EscalateStep =>
      if world.worker.Stuck? {
        var id := world.worker.id;
        ParkIsSafe(world, id, world.claims[id], "lock_never_elapsed",
          map["reviewReason" := JStr("lock_never_elapsed")]);
      }
    case CrashStep => HandlerEnds(world, 0);
    case MirrorStep(policyId, trigger, txSignature) =>
      MirrorIsSafe(world, policyId, trigger, txSignature);
    case ReindexStep(policies) =>
    case ChainStep(policyId, after) =>
      if !(policyId in world.chain && !ChainMay(world.chain[policyId], after)) {
        ChainMoveIsSafe(world, policyId, after);
      }
  }

  lemma {:induction false} RunKeepsSafe(start: World, config: Config, steps: seq<Step>)
    requires Safe(start)
    ensures Safe(Run(start, config, steps))
    decreases |steps|
  {
    if steps != [] {
      RunKeepsSafe(start, config, steps[..|steps| - 1]);
      StepIsSafe(Run(start, config, steps[..|steps| - 1]), config, steps[|steps| - 1]);
    }
  }

  /** Every reachable world is safe: every row marked paid belongs to a policy
      the chain has paid, every settle call is justified, no policy is settled
      twice, and no policy holds two open claims. */
  lemma EveryRunIsSafe(start: World, config: Config, steps: seq<Step>)
    requires Initial(start)
    ensures Safe(Run(start, config, steps))
  {
    assert forall p: nat :: multiset(start.log)[SettleLanded(p)] == 0;
    RunKeepsSafe(start, config, steps);
  }
}
