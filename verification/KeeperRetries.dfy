/** Retries are bounded in every run, however handlers and payouts interleave:
    each is paid for by an attempt, and no write ever lowers the attempt count. */
module KeeperRetries {
  import opened ClaimTypes
  import opened VerificationRecord
  import opened Settlement
  import opened KeeperModel

  ghost function Retries(log: seq<Event>, id: nat): nat {
    multiset(log)[RetryScheduled(id)]
  }

  ghost predicate RowWithin(world: World, id: nat) {
    if id < |world.claims| then
      Retries(world.log, id) <= world.claims[id].verifyAttempts && Retries(world.log, id) <= 4
    else Retries(world.log, id) == 0
  }

  ghost predicate Within(world: World) {
    forall id: nat :: RowWithin(world, id)
  }

  /** No row goes, no attempt count falls, and nothing is retried. */
  ghost predicate Steady(before: World, after: World) {
    && |before.claims| <= |after.claims|
    && (forall i | 0 <= i < |before.claims| ::
          before.claims[i].verifyAttempts <= after.claims[i].verifyAttempts)
    && (forall i: nat :: Retries(after.log, i) == Retries(before.log, i))
  }

  lemma SteadyStaysWithin(before: World, after: World)
    requires Within(before) && Steady(before, after)
    ensures Within(after)
  {
    forall id: nat ensures RowWithin(after, id) {
      assert RowWithin(before, id);
    }
  }

  lemma SteadyTwice(a: World, b: World, c: World)
    requires Steady(a, b) && Steady(b, c)
    ensures Steady(a, c)
  {
    forall i | 0 <= i < |a.claims| ensures a.claims[i].verifyAttempts <= c.claims[i].verifyAttempts {
      assert a.claims[i].verifyAttempts <= b.claims[i].verifyAttempts;
    }
    forall i: nat ensures Retries(c.log, i) == Retries(a.log, i) {
      assert Retries(b.log, i) == Retries(a.log, i);
    }
  }

  lemma PutIsSteady(world: World, id: nat, row: Row)
    requires id < |world.claims| && row.verifyAttempts >= world.claims[id].verifyAttempts
    ensures Steady(world, Put(world, id, row))
  {
  }

  lemma NoteIsSteady(world: World, event: Event)
    requires !event.RetryScheduled?
    ensures Steady(world, Note(world, event))
  {
    assert multiset(world.log + [event]) == multiset(world.log) + multiset{event};
  }

  lemma PutNoteIsSteady(world: World, id: nat, row: Row, event: Event)
    requires id < |world.claims| && row.verifyAttempts >= world.claims[id].verifyAttempts
    requires !event.RetryScheduled?
    ensures Steady(world, Note(Put(world, id, row), event))
  {
    PutIsSteady(world, id, row);
    NoteIsSteady(Put(world, id, row), event);
    SteadyTwice(world, Put(world, id, row), Note(Put(world, id, row), event));
  }

  lemma SameRowsAreSteady(before: World, after: World)
    requires after.claims == before.claims && after.log == before.log
    ensures Steady(before, after)
  {
  }

  lemma AppendIsSteady(world: World, row: Row)
    ensures Steady(world, world.(claims := world.claims + [row]))
  {
  }

  // ---------------------------------------------------------------------------
  // Handlers
  // ---------------------------------------------------------------------------

  lemma IngestIsSteady(world: World, config: Config, alert: Alert, selected: Option<nat>)
    ensures Steady(world, Ingest(world, config, alert, selected))
  {
    var simulated := alert.simulated && SyntheticAllowed(config);
    var trigger := TriggerForEvent(alert.event);
    var signature := EffectiveSignature(alert, simulated);
    var data := IngestData(alert, simulated);
    if !alert.signed || alert.agent == "" || trigger.None? || selected.None? || signature == "" {
      SameRowsAreSteady(world, world);
    } else if HoldsOpenClaim(world.claims, selected.value) {
      SupersedeIsSteady(world, selected.value, trigger.value, signature, data);
    } else {
      var row := OpenedRow(selected.value, trigger.value, signature, data);
      var grown := world.(claims := world.claims + [row]);
      AppendIsSteady(world, row);
      NoteIsSteady(grown, ClaimOpened(|world.claims|));
      SteadyTwice(world, grown, Note(grown, ClaimOpened(|world.claims|)));
    }
  }

  lemma SupersedeIsSteady(world: World, policyId: nat, trigger: Trigger, signature: string, data: Data)
    ensures Steady(world, SupersedeParked(world, policyId, trigger, signature, data))
  {
    var found := FindParked(world.claims, policyId, 0);
    SameRowsAreSteady(world, world);
    if found.Some? {
      var id := found.value;
      PutIsSteady(world, id, Capped(world.claims[id]));
      PutNoteIsSteady(world, id, Superseded(world.claims[id], trigger, signature, data), SupersedeQueued(id));
    }
  }

  lemma ApprovalIsSteady(
    world: World, id: nat, claim: Row, verdict: Verdict, attempt: nat, hash: Option<string>, plan: Plan,
    submit: Report, chainReadable: bool)
    requires id < |world.claims| && attempt >= world.claims[id].verifyAttempts
    ensures Steady(world, ApproveAndSubmit(world, id, claim, verdict, attempt, hash, plan, submit, chainReadable))
  {
    var row := PersistedRow(world.claims[id], claim, verdict, attempt, hash);
    var event := PayVerdict(id, claim.trigger, verdict.outcome, verdict.lossAmount, verdict.confidence, plan);
    var persisted := Note(Put(world, id, row), event);
    PutNoteIsSteady(world, id, row, event);
    if claim.policyId in world.chain {
      var state := AfterSubmit(world.chain[claim.policyId], submit);
      var submitted := persisted.(chain := world.chain[claim.policyId := state]);
      SameRowsAreSteady(persisted, submitted);
      SteadyTwice(world, persisted, submitted);
      var approved := submitted.claims[id].(status := Approved);
      PutNoteIsSteady(submitted, id, approved, PayoutQueued(id));
      SteadyTwice(world, submitted, Note(Put(submitted, id, approved), PayoutQueued(id)));
    }
  }

  /** The one place a retry is scheduled pays for it with an attempt, while any
      are left. */
  lemma IndeterminateStaysWithin(world: World, id: nat, claim: Row, details: Data)
    requires Within(world) && id < |world.claims| && claim.verifyAttempts == world.claims[id].verifyAttempts
    ensures Within(HandleIndeterminate(world, id, claim, claim.verifyAttempts + 1, details))
  {
    var attempt := claim.verifyAttempts + 1;
    var row := IndeterminateRow(world.claims[id], claim, attempt, details);
    var parked := Put(world, id, row);
    PutIsSteady(world, id, row);
    SteadyStaysWithin(world, parked);
    if attempt < MAX_VERIFY_ATTEMPTS {
      RetryStaysWithin(world, id, row);
    }
  }

  lemma RetryStaysWithin(world: World, id: nat, row: Row)
    requires Within(world) && id < |world.claims|
    requires row.verifyAttempts == world.claims[id].verifyAttempts + 1 <= 4
    ensures Within(Note(Put(world, id, row), RetryScheduled(id)))
  {
    var event := RetryScheduled(id);
    assert multiset(world.log + [event]) == multiset(world.log) + multiset{event};
    forall i: nat ensures RowWithin(Note(Put(world, id, row), event), i) {
      assert RowWithin(world, i);
    }
  }

  lemma ConfirmedIsSteady(
    world: World, config: Config, id: nat, claim: Row, verdict: Verdict, hash: Option<string>, submit: Report,
    chainReadable: bool)
    requires id < |world.claims| && claim.verifyAttempts == world.claims[id].verifyAttempts
    requires verdict.outcome.Confirmed? && verdict.lossAmount > 0
    ensures Steady(world, Conclude(world, config, id, claim, verdict, hash, submit, chainReadable))
  {
    ConfirmedGoesByLane(world, config, id, claim, verdict, hash, submit, chainReadable);
    var plan := PlanProvenSettlement(claim.trigger, claim.data, config, verdict.details, hash);
    match DecideLane(claim.trigger, verdict.confidence, plan.IsProven())
    case ToReview(reason) => PutIsSteady(world, id, ReviewedRow(world.claims[id], claim, verdict, reason));
    case Pay(_) =>
      ApprovalIsSteady(world, id, claim, verdict, claim.verifyAttempts + 1, hash, plan, submit, chainReadable);
  }

  lemma ConcludeStaysWithin(
    world: World, config: Config, id: nat, claim: Row, verdict: Verdict, hash: Option<string>, submit: Report,
    chainReadable: bool)
    requires Within(world) && id < |world.claims| && claim.verifyAttempts == world.claims[id].verifyAttempts
    ensures Within(Conclude(world, config, id, claim, verdict, hash, submit, chainReadable))
  {
    var after := Conclude(world, config, id, claim, verdict, hash, submit, chainReadable);
    if verdict.outcome.Confirmed? && verdict.lossAmount > 0 {
      ConfirmedIsSteady(world, config, id, claim, verdict, hash, submit, chainReadable);
      SteadyStaysWithin(world, after);
    } else {
      UnconfirmedEnds(world, config, id, claim, verdict, hash, submit, chainReadable);
      if verdict.outcome.Inconclusive? {
        IndeterminateStaysWithin(world, id, claim, verdict.details);
      } else {
        PutIsSteady(world, id, RejectedRow(world.claims[id], claim, DenialPatch(verdict)));
        SteadyStaysWithin(world, after);
      }
    }
  }

  lemma AdjudicateStaysWithin(
    world: World, config: Config, id: nat, claim: Row, coverage: nat, input: ProcessInput)
    requires Within(world) && id < |world.claims| && claim.verifyAttempts == world.claims[id].verifyAttempts
    ensures Within(Adjudicate(world, config, id, claim, coverage, input))
  {
    var simulated := IsSimulated(claim, config);
    var verdict := if simulated then SyntheticVerdict(coverage) else input.verdict;
    var hash := if simulated then None else input.evidenceHash;
    VerdictSplits(world, config, id, claim, coverage, input, verdict, hash);
    match DecideReattribution(claim, verdict, input.mandate)
    case Reattributed =>
      var row := Refiled(world.claims[id], claim, ReasonOf(verdict.details, ""), hash.Some?);
      PutNoteIsSteady(world, id, row, RefileQueued(id));
      SteadyStaysWithin(world, Note(Put(world, id, row), RefileQueued(id)));
    case MandateUnreadable =>
      IndeterminateStaysWithin(world, id, claim,
        verdict.details["reason" := JStr("mandate_unreadable_during_reattribution")]);
    case NotReattributed =>
      ConcludeStaysWithin(world, config, id, claim, verdict, hash, input.submit, input.chainReadable);
  }

  lemma ProcessStaysWithin(world: World, config: Config, id: nat, input: ProcessInput)
    requires Within(world)
    ensures Within(Process(world, config, id, input))
  {
    if id < |world.claims| && IndexAdmits(world.claims, id, world.claims[id].(status := Verifying)) {
      var claim := world.claims[id];
      var verifying := claim.(status := Verifying);
      var started := Put(world, id, verifying);
      PutIsSteady(world, id, verifying);
      SteadyStaysWithin(world, started);
      if claim.policyId !in world.policies {
        var row := RejectedRow(verifying, claim, map["reason" := JStr("policy_not_indexed")]);
        PutIsSteady(started, id, row);
        SteadyStaysWithin(started, Put(started, id, row));
      } else {
        AdjudicateStaysWithin(started, config, id, claim, world.policies[claim.policyId].coverage, input);
      }
    }
  }

  // ---------------------------------------------------------------------------
  // Payout
  // ---------------------------------------------------------------------------

  lemma WriteIsSteady(world: World, id: nat, row: Row, worker: Worker)
    requires id < |world.claims| && row.verifyAttempts == world.claims[id].verifyAttempts
    ensures Steady(world, WithWorker(Put(world, id, row), worker))
    ensures Steady(world, WithWorker(world, worker))
  {
    PutIsSteady(world, id, row);
  }

  lemma ParkIsSteady(world: World, id: nat, claim: Row, reason: string, patch: Data)
    requires id < |world.claims|
    ensures Steady(world, Park(world, id, claim, reason, patch))
  {
    WriteIsSteady(world, id, ParkedRow(world.claims[id], claim, reason, patch), Idle);
  }

  lemma ArmIsSteady(world: World)
    ensures Steady(world, Arm(world))
  {
    SameRowsAreSteady(world, world);
    if world.worker.Loaded? && world.worker.id < |world.claims| {
      var Loaded(id, claim) := world.worker;
      var row := world.claims[id];
      WriteIsSteady(world, id, RejectedRow(row, claim, map["reason" := JStr("policy_missing_at_payout")]), Idle);
      WriteIsSteady(world, id, RejectedRow(row, claim, map["reason" := JStr("payout_amount_missing")]), Idle);
      WriteIsSteady(world, id, row.(status := Paying), Armed(id, claim));
    }
  }

  lemma DecideIsSteady(world: World, config: Config, breakerOk: bool)
    ensures Steady(world, Decide(world, config, breakerOk))
  {
    SameRowsAreSteady(world, world);
    if world.worker.Armed? && world.worker.id < |world.claims| {
      var Armed(id, claim) := world.worker;
      var plan := PlanProvenSettlement(claim.trigger, claim.data, config, map[], None);
      ParkIsSteady(world, id, claim, "auto_payout_limit_exceeded",
        map["reviewReason" := JStr("auto_payout_limit_exceeded")]);
      if plan.Unprovable? {
        ParkIsSteady(world, id, claim, plan.reason, map["reason" := JStr(plan.reason)]);
      }
      SameRowsAreSteady(world, WithWorker(world, Ready(id, claim, plan)));
    }
  }

  lemma SettleIsSteady(world: World, report: Report)
    ensures Steady(world, CallSettle(world, report))
  {
    SameRowsAreSteady(world, world);
    if world.worker.Ready? {
      var Ready(id, claim, plan) := world.worker;
      var event := SettleCalled(id, claim.policyId, plan, Amount(claim), claim.data);
      var called := Note(world, event);
      NoteIsSteady(world, event);
      NoteIsSteady(called, SettleLanded(claim.policyId));
      SteadyTwice(world, called, Note(called, SettleLanded(claim.policyId)));
    }
  }

  lemma InterruptIsSteady(world: World, fault: Fault)
    ensures Steady(world, Interrupt(world, fault))
  {
    SameRowsAreSteady(world, world);
    if world.worker.Settled? && world.worker.id < |world.claims| && world.worker.plan.IsProven() {
      var Settled(id, claim, plan) := world.worker;
      WriteIsSteady(world, id, PaidRow(world.claims[id], claim, plan), Interrupt(world, fault).worker);
    }
  }

  lemma ReconcileIsSteady(world: World, id: nat, claim: Row, message: string, settled: bool)
    requires id < |world.claims|
    ensures Steady(world, Reconcile(world, id, claim, message, settled))
  {
    var row, deferrals := world.claims[id], LockDeferrals(claim.data);
    WriteIsSteady(world, id, ReconciledRow(row, claim, message), Idle);
    WriteIsSteady(world, id, FailedRow(row, claim, message), Idle);
    WriteIsSteady(world, id, DeferredRow(row, claim, deferrals, message), Stuck(id));
    if DeferralDelay(deferrals).Some? {
      PutNoteIsSteady(world, id, DeferredRow(row, claim, deferrals + 1.0, message),
        PayoutDeferred(id, DeferralDelay(deferrals).value));
    }
  }

  lemma RecordIsSteady(world: World)
    ensures Steady(world, Record(world))
  {
    SameRowsAreSteady(world, world);
    match world.worker
    case Settled(id, claim, plan) =>
      if id < |world.claims| && plan.IsProven() {
        WriteIsSteady(world, id, PaidRow(world.claims[id], claim, plan), Idle);
      }
    case Doubted(id, claim, message, settled) =>
      if id < |world.claims| {
        ReconcileIsSteady(world, id, claim, message, settled);
      }
    case _ =>
  }

  lemma EscalateIsSteady(world: World)
    ensures Steady(world, Escalate(world))
  {
    SameRowsAreSteady(world, world);
    if world.worker.Stuck? && world.worker.id < |world.claims| {
      ParkIsSteady(world, world.worker.id, world.claims[world.worker.id], "lock_never_elapsed",
        map["reviewReason" := JStr("lock_never_elapsed")]);
    }
  }

  lemma MirrorIsSteady(world: World, policyId: nat, trigger: Trigger, txSignature: string)
    ensures Steady(world, MirrorClaim(world, policyId, trigger, txSignature))
  {
    SameRowsAreSteady(world, world);
    AppendIsSteady(world, MirroredRow(policyId, trigger, txSignature));
  }

  lemma OtherStepsAreSteady(world: World, config: Config, step: Step)
    requires !step.ProcessStep?
    ensures Steady(world, Apply(world, config, step))
  {
    match step
    case IngestStep(alert, selected) => IngestIsSteady(world, config, alert, selected);
    case ArmStep => ArmIsSteady(world);
    case DecideStep(breakerOk) => DecideIsSteady(world, config, breakerOk);
    case SettleStep(report) => SettleIsSteady(world, report);
    case FaultStep(fault) => InterruptIsSteady(world, fault);
    case RecordStep => RecordIsSteady(world);
    case EscalateStep => EscalateIsSteady(world);
    case MirrorStep(policyId, trigger, txSignature) => MirrorIsSteady(world, policyId, trigger, txSignature);
    case _ => SameRowsAreSteady(world, Apply(world, config, step));
  }

  lemma StepStaysWithin(world: World, config: Config, step: Step)
    requires Within(world)
    ensures Within(Apply(world, config, step))
  {
    if step.ProcessStep? {
      ProcessStaysWithin(world, config, step.claimId, step.input);
    } else {
      OtherStepsAreSteady(world, config, step);
      SteadyStaysWithin(world, Apply(world, config, step));
    }
  }

  lemma {:induction false} EveryRunStaysWithin(start: World, config: Config, steps: seq<Step>)
    requires Initial(start)
    ensures Within(Run(start, config, steps))
    decreases |steps|
  {
    if steps != [] {
      EveryRunStaysWithin(start, config, steps[..|steps| - 1]);
      StepStaysWithin(Run(start, config, steps[..|steps| - 1]), config, steps[|steps| - 1]);
    }
  }

  /** Over every run whatever, payouts in hand or not and whatever a verdict's
      details say, one claim is retried at most four times, and never more often
      than it was attempted. */
  lemma RetriesAreBounded(start: World, config: Config, steps: seq<Step>, id: nat)
    requires Initial(start)
    ensures
      var world := Run(start, config, steps);
      && Retries(world.log, id) <= 4
      && (id < |world.claims| ==> Retries(world.log, id) <= world.claims[id].verifyAttempts)
  {
    EveryRunStaysWithin(start, config, steps);
    assert RowWithin(Run(start, config, steps), id);
  }
}
