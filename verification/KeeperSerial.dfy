/** Runs in which no process pass falls on a row that a payout has in hand. The
    process worker and the payout worker run side by side; this asks only that they
    are not at the same claim at the same time. */
module KeeperSerial {
  import opened ClaimTypes
  import opened VerificationRecord
  import opened Settlement
  import opened KeeperModel
  import Supersede
  import Verdicts

  ghost predicate Serial(world: World, step: Step) {
    step.ProcessStep? ==> world.worker.Idle? || world.worker.id != step.claimId
  }

  ghost predicate SerialRun(start: World, config: Config, steps: seq<Step>) {
    steps != [] ==>
      && SerialRun(start, config, steps[..|steps| - 1])
      && Serial(Run(start, config, steps[..|steps| - 1]), steps[|steps| - 1])
  }

  /** A verifier's details stay off the keeper's own keys. */
  ghost predicate OffKeys(step: Step) {
    step.ProcessStep? ==> step.input.verdict.details.Keys !! KEEPER_KEYS
  }

  ghost predicate AllOffKeys(steps: seq<Step>) {
    forall step | step in steps :: OffKeys(step)
  }

  // ---------------------------------------------------------------------------
  // Handlers that run beside a payout do not look at it
  // ---------------------------------------------------------------------------

  lemma SupersedeForgetsWorker(
    world: World, worker: Worker, policyId: nat, trigger: Trigger, txSignature: string, ingested: Data)
    ensures SupersedeParked(WithWorker(world, worker), policyId, trigger, txSignature, ingested)
         == WithWorker(SupersedeParked(world, policyId, trigger, txSignature, ingested), worker)
  {
  }

  lemma IngestForgetsWorker(world: World, worker: Worker, config: Config, alert: Alert, selected: Option<nat>)
    ensures Ingest(WithWorker(world, worker), config, alert, selected)
         == WithWorker(Ingest(world, config, alert, selected), worker)
  {
    var simulated := alert.simulated && SyntheticAllowed(config);
    var trigger := TriggerForEvent(alert.event);
    if trigger.Some? && selected.Some? {
      SupersedeForgetsWorker(world, worker, selected.value, trigger.value, EffectiveSignature(alert, simulated),
        IngestData(alert, simulated));
    }
  }

  lemma IndeterminateForgetsWorker(
    world: World, worker: Worker, id: nat, claim: Row, attempt: nat, details: Data)
    requires id < |world.claims|
    ensures HandleIndeterminate(WithWorker(world, worker), id, claim, attempt, details)
         == WithWorker(HandleIndeterminate(world, id, claim, attempt, details), worker)
  {
  }

  lemma ApprovalForgetsWorker(
    world: World, worker: Worker, id: nat, claim: Row, verdict: Verdict, attempt: nat, hash: Option<string>,
    plan: Plan, submit: Report, chainReadable: bool)
    requires id < |world.claims|
    ensures
      ApproveAndSubmit(WithWorker(world, worker), id, claim, verdict, attempt, hash, plan, submit, chainReadable)
      == WithWorker(ApproveAndSubmit(world, id, claim, verdict, attempt, hash, plan, submit, chainReadable), worker)
  {
  }

  lemma ConcludeForgetsWorker(
    world: World, worker: Worker, config: Config, id: nat, claim: Row, verdict: Verdict, hash: Option<string>,
    submit: Report, chainReadable: bool)
    requires id < |world.claims|
    ensures Conclude(WithWorker(world, worker), config, id, claim, verdict, hash, submit, chainReadable)
         == WithWorker(Conclude(world, config, id, claim, verdict, hash, submit, chainReadable), worker)
  {
    var aside := WithWorker(world, worker);
    if verdict.outcome.Confirmed? && verdict.lossAmount > 0 {
      var plan := PlanProvenSettlement(claim.trigger, claim.data, config, verdict.details, hash);
      ConfirmedGoesByLane(world, config, id, claim, verdict, hash, submit, chainReadable);
      ConfirmedGoesByLane(aside, config, id, claim, verdict, hash, submit, chainReadable);
      ApprovalForgetsWorker(world, worker, id, claim, verdict, claim.verifyAttempts + 1, hash, plan, submit,
        chainReadable);
    } else {
      UnconfirmedEnds(world, config, id, claim, verdict, hash, submit, chainReadable);
      UnconfirmedEnds(aside, config, id, claim, verdict, hash, submit, chainReadable);
      IndeterminateForgetsWorker(world, worker, id, claim, claim.verifyAttempts + 1, verdict.details);
    }
  }

  lemma AdjudicateForgetsWorker(
    world: World, worker: Worker, config: Config, id: nat, claim: Row, coverage: nat, input: ProcessInput)
    requires id < |world.claims|
    ensures Adjudicate(WithWorker(world, worker), config, id, claim, coverage, input)
         == WithWorker(Adjudicate(world, config, id, claim, coverage, input), worker)
  {
    var verdict := if IsSimulated(claim, config) then SyntheticVerdict(coverage) else input.verdict;
    var hash := if IsSimulated(claim, config) then None else input.evidenceHash;
    VerdictSplits(world, config, id, claim, coverage, input, verdict, hash);
    VerdictSplits(WithWorker(world, worker), config, id, claim, coverage, input, verdict, hash);
    IndeterminateForgetsWorker(world, worker, id, claim, claim.verifyAttempts + 1,
      verdict.details["reason" := JStr("mandate_unreadable_during_reattribution")]);
    ConcludeForgetsWorker(world, worker, config, id, claim, verdict, hash, input.submit, input.chainReadable);
  }

  lemma ProcessForgetsWorker(world: World, worker: Worker, config: Config, id: nat, input: ProcessInput)
    ensures Process(WithWorker(world, worker), config, id, input)
         == WithWorker(Process(world, config, id, input), worker)
  {
    if Verdicts.Admitted(world, id) {
      var claim := world.claims[id];
      var started := Put(world, id, claim.(status := Verifying));
      assert Put(WithWorker(world, worker), id, claim.(status := Verifying)) == WithWorker(started, worker);
      if claim.policyId in world.policies {
        AdjudicateForgetsWorker(started, worker, config, id, claim, world.policies[claim.policyId].coverage, input);
      }
    }
  }

  // ---------------------------------------------------------------------------
  // Nor do they touch the row it has in hand
  // ---------------------------------------------------------------------------

  /** The statuses a row passes through while a payout holds a copy of it. */
  predicate InHand(status: Status) {
    status.Approved? || status.Paying? || status.Paid?
  }

  ghost predicate Held(world: World) {
    world.worker.Idle? || world.worker.Stuck?
    || (world.worker.id < |world.claims| && InHand(world.claims[world.worker.id].status))
  }

  /** The payout goes on with the same row it had. */
  ghost predicate Spares(before: World, after: World) {
    && after.worker == before.worker
    && |before.claims| <= |after.claims|
    && (!before.worker.Idle? && !before.worker.Stuck? && before.worker.id < |before.claims| ==>
          after.claims[before.worker.id] == before.claims[before.worker.id])
  }

  lemma IngestSpares(world: World, config: Config, alert: Alert, selected: Option<nat>)
    requires Held(world)
    ensures Spares(world, Ingest(world, config, alert, selected))
  {
    IngestForgetsWorker(world, world.worker, config, alert, selected);
    assert WithWorker(world, world.worker) == world;
    if !world.worker.Idle? && !world.worker.Stuck? {
      Supersede.AlertTouchesOnlyParkedClaims(world, config, alert, selected, world.worker.id);
    }
  }

  /** A pass writes its own row and no other. */
  lemma PassStaysOnItsRow(world: World, config: Config, id: nat, input: ProcessInput)
    ensures Verdicts.OnlyRow(world, Process(world, config, id, input), id)
  {
    if Verdicts.Admitted(world, id) {
      Verdicts.RejectionIff(world, config, id, input);
    } else {
      Verdicts.UnadmittedPassDoesNothing(world, config, id, input);
    }
  }

  lemma ProcessSpares(world: World, config: Config, id: nat, input: ProcessInput)
    requires Serial(world, ProcessStep(id, input))
    ensures Spares(world, Process(world, config, id, input))
  {
    ProcessForgetsWorker(world, world.worker, config, id, input);
    assert WithWorker(world, world.worker) == world;
    PassStaysOnItsRow(world, config, id, input);
  }

  lemma SparingKeepsHeld(before: World, after: World)
    requires Held(before) && Spares(before, after)
    ensures Held(after)
  {
  }

  lemma StepKeepsHeld(world: World, config: Config, step: Step)
    requires Held(world) && Serial(world, step)
    ensures Held(Apply(world, config, step))
  {
    match step
    case IngestStep(alert, selected) =>
      IngestSpares(world, config, alert, selected);
      SparingKeepsHeld(world, Ingest(world, config, alert, selected));
    case ProcessStep(id, input) =>
      ProcessSpares(world, config, id, input);
      SparingKeepsHeld(world, Process(world, config, id, input));
    case _ => PayoutKeepsHeld(world, config, step);
  }

  lemma PayoutKeepsHeld(world: World, config: Config, step: Step)
    requires Held(world) && !step.IngestStep? && !step.ProcessStep?
    ensures Held(Apply(world, config, step))
  {
    match step
    case ArmStep => ArmKeepsHeld(world);
    case DecideStep(breakerOk) => DecideKeepsHeld(world, config, breakerOk);
    case SettleStep(report) => SettleKeepsHeld(world, report);
    case RecordStep => RecordKeepsHeld(world);
    case _ =>
  }

  lemma ArmKeepsHeld(world: World)
    requires Held(world)
    ensures Held(Arm(world))
  {
  }

  lemma DecideKeepsHeld(world: World, config: Config, breakerOk: bool)
    requires Held(world)
    ensures Held(Decide(world, config, breakerOk))
  {
  }

  lemma SettleKeepsHeld(world: World, report: Report)
    requires Held(world)
    ensures Held(CallSettle(world, report))
  {
  }

  lemma RecordKeepsHeld(world: World)
    requires Held(world)
    ensures Held(Record(world))
  {
  }

  lemma {:induction false} SerialRunStaysHeld(start: World, config: Config, steps: seq<Step>)
    requires Initial(start) && SerialRun(start, config, steps)
    ensures Held(Run(start, config, steps))
    decreases |steps|
  {
    if steps != [] {
      SerialRunStaysHeld(start, config, steps[..|steps| - 1]);
      StepKeepsHeld(Run(start, config, steps[..|steps| - 1]), config, steps[|steps| - 1]);
    }
  }
}
