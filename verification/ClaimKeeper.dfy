/** The claim keeper's handlers as they run: each loads a row, writes it column
    by column, calls the chain and fills the job queues. Every handler is proved
    to take the world exactly where the transition system says. */
module ClaimKeeper {
  import opened ClaimTypes
  import opened VerificationRecord
  import opened Settlement
  import opened KeeperModel

  datatype PayoutInput = PayoutInput(breakerOk: bool, settle: Report, fault: Fault, chainReadable: bool)

  /** One payout job run to its end without interference. */
  function PayoutPass(world: World, config: Config, id: nat, input: PayoutInput): World {
    PayoutEnd(CallSettle(Decide(Arm(Deliver(world, id)), config, input.breakerOk), input.settle), input)
  }

  /** Everything that may follow the settle call. */
  function PayoutEnd(world: World, input: PayoutInput): World {
    Escalate(Record(AskChain(Interrupt(world, input.fault), input.chainReadable)))
  }

  function PayoutSteps(id: nat, input: PayoutInput): seq<Step> {
    [DeliverStep(id), ArmStep, DecideStep(input.breakerOk), SettleStep(input.settle), FaultStep(input.fault),
     AskStep(input.chainReadable), RecordStep, EscalateStep]
  }

  lemma PayoutHead(world: World, config: Config, id: nat, input: PayoutInput)
    ensures
      Run(world, config, [DeliverStep(id), ArmStep, DecideStep(input.breakerOk), SettleStep(input.settle)])
      == CallSettle(Decide(Arm(Deliver(world, id)), config, input.breakerOk), input.settle)
  {
    RunOfFour(world, config, DeliverStep(id), ArmStep, DecideStep(input.breakerOk), SettleStep(input.settle));
  }

  lemma PayoutTail(world: World, config: Config, input: PayoutInput)
    ensures Run(world, config, [FaultStep(input.fault), AskStep(input.chainReadable), RecordStep, EscalateStep])
         == PayoutEnd(world, input)
  {
    RunOfFour(world, config, FaultStep(input.fault), AskStep(input.chainReadable), RecordStep, EscalateStep);
  }

  /** The undisturbed handler is one of the machine's runs. */
  lemma PayoutPassIsARun(world: World, config: Config, id: nat, input: PayoutInput)
    ensures Run(world, config, PayoutSteps(id, input)) == PayoutPass(world, config, id, input)
  {
    var head := [DeliverStep(id), ArmStep, DecideStep(input.breakerOk), SettleStep(input.settle)];
    var tail := [FaultStep(input.fault), AskStep(input.chainReadable), RecordStep, EscalateStep];
    assert PayoutSteps(id, input) == head + tail;
    RunConcat(world, config, head, tail);
    PayoutHead(world, config, id, input);
    PayoutTail(Run(world, config, head), config, input);
  }

  lemma {:induction false} RunConcat(world: World, config: Config, first: seq<Step>, rest: seq<Step>)
    ensures Run(world, config, first + rest) == Run(Run(world, config, first), config, rest)
    decreases |rest|
  {
    if rest == [] {
      assert first + rest == first;
    } else {
      var init, last := rest[..|rest| - 1], rest[|rest| - 1];
      assert first + rest == (first + init) + [last];
      RunThen(world, config, first + init, last);
      RunConcat(world, config, first, init);
    }
  }

  lemma RunOfThree(world: World, config: Config, a: Step, b: Step, c: Step)
    ensures Run(world, config, [a, b, c]) == Apply(Apply(Apply(world, config, a), config, b), config, c)
  {
    RunThen(world, config, [], a);
    RunThen(world, config, [a], b);
    RunThen(world, config, [a, b], c);
    assert [] + [a] == [a] && [a] + [b] == [a, b] && [a, b] + [c] == [a, b, c];
  }

  lemma RunOfFour(world: World, config: Config, a: Step, b: Step, c: Step, d: Step)
    ensures Run(world, config, [a, b, c, d])
         == Apply(Apply(Apply(Apply(world, config, a), config, b), config, c), config, d)
  {
    RunOfThree(world, config, a, b, c);
    RunThen(world, config, [a, b, c], d);
    assert [a, b, c] + [d] == [a, b, c, d];
  }

  lemma RunThen(world: World, config: Config, steps: seq<Step>, step: Step)
    ensures Run(world, config, steps + [step]) == Apply(Run(world, config, steps), config, step)
  {
    assert (steps + [step])[..|steps|] == steps;
  }

  lemma SettleUnfolds(world: World, id: nat, claim: Row, plan: Plan, report: Report)
    ensures
      var called := Note(world, SettleCalled(id, claim.policyId, plan, Amount(claim), claim.data));
      CallSettle(world.(worker := Ready(id, claim, plan)), report) ==
        if !SettleLands(world.chain, claim.policyId, report) then
          called.(worker := Refused(id, claim, ErrorOf(report)))
        else
          Note(called.(chain := world.chain[claim.policyId := ChainClaimPaid]), SettleLanded(claim.policyId)).(
            worker := if report.Confirmation? then Settled(id, claim, plan) else Refused(id, claim, report.error))
  {
  }

  /** What the chain call makes of the world the verdict was persisted in. */
  lemma SubmissionUnfolds(
    world: World, persisted: World, id: nat, claim: Row, verdict: Verdict, attempt: nat, hash: Option<string>,
    plan: Plan, submit: Report, chainReadable: bool)
    requires id < |world.claims|
    requires persisted == Note(
      Put(world, id, PersistedRow(world.claims[id], claim, verdict, attempt, hash)),
      PayVerdict(id, claim.trigger, verdict.outcome, verdict.lossAmount, verdict.confidence, plan))
    ensures ApproveAndSubmit(world, id, claim, verdict, attempt, hash, plan, submit, chainReadable) ==
      if claim.policyId !in world.chain then persisted
      else
        var state := world.chain[claim.policyId];
        var moved := if state == ChainActive && !submit.NeverLanded? then ChainClaimPending else state;
        var submitted := persisted.(chain := world.chain[claim.policyId := moved]);
        if (state == ChainActive && submit == Confirmation) || (chainReadable && moved == ChainClaimPending) then
          Note(Put(submitted, id, submitted.claims[id].(status := Approved)), PayoutQueued(id))
        else submitted
  {
  }

  /** A confirmed settlement ends in the paid write. */
  lemma TailOfConfirmed(world: World, input: PayoutInput)
    requires world.worker.Settled? && world.worker.id < |world.claims| && world.worker.plan.IsProven()
    requires input.fault.NoFault?
    ensures PayoutEnd(world, input) ==
      WithWorker(
        Put(world, world.worker.id,
          PaidRow(world.claims[world.worker.id], world.worker.claim, world.worker.plan)), Idle)
  {
  }

  /** A refused or interrupted one ends in whatever the chain's answer leads to. */
  lemma TailOfRefused(world: World, input: PayoutInput)
    requires
      var asked := Interrupt(world, input.fault);
      asked.worker.Refused? && asked.worker.id < |asked.claims|
    ensures
      var asked := Interrupt(world, input.fault);
      var Refused(id, claim, message) := asked.worker;
      var settled :=
        input.chainReadable && claim.policyId in asked.chain && asked.chain[claim.policyId].ChainClaimPaid?;
      PayoutEnd(world, input) == Escalate(Reconcile(WithWorker(asked, Idle), id, claim, message, settled))
  {
    var asked := Interrupt(world, input.fault);
    var Refused(id, claim, message) := asked.worker;
    var settled :=
      input.chainReadable && claim.policyId in asked.chain && asked.chain[claim.policyId].ChainClaimPaid?;
    var doubted := Doubted(id, claim, message, settled);
    assert AskChain(asked, input.chainReadable) == WithWorker(WithWorker(asked, Idle), doubted);
    ReconcileForgetsWorker(WithWorker(asked, Idle), doubted, id, claim, message, settled);
    assert Record(AskChain(asked, input.chainReadable))
        == Reconcile(WithWorker(WithWorker(asked, Idle), doubted), id, claim, message, settled);
  }

  lemma ReconcileForgetsWorker(world: World, worker: Worker, id: nat, claim: Row, message: string, settled: bool)
    requires id < |world.claims|
    ensures Reconcile(WithWorker(world, worker), id, claim, message, settled)
         == Reconcile(world, id, claim, message, settled)
  {
  }

  /** A handler that has put its claim down takes no further part. */
  lemma TailOfIdle(world: World, input: PayoutInput)
    requires world.worker.Idle?
    ensures PayoutEnd(CallSettle(world, input.settle), input) == world
  {
  }

  /** The process jobs a log has caused, oldest first. */
  function ProcessQueueOf(log: seq<Event>): seq<nat> {
    if log == [] then []
    else
      var before := ProcessQueueOf(log[..|log| - 1]);
      match log[|log| - 1]
      case ClaimOpened(id) => before + [id]
      case RetryScheduled(id) => before + [id]
      case SupersedeQueued(id) => before + [id]
      case RefileQueued(id) => before + [id]
      case _ => before
  }

  /** A payout job and the wait a deferral set it. An approval's own wait, for the
      lock it was submitted under, is not part of this model. */
  datatype PayoutJob = PayoutJob(id: nat, wait: Option<nat>)

  /** The payout jobs it has caused. */
  function PayoutQueueOf(log: seq<Event>): seq<PayoutJob> {
    if log == [] then []
    else
      var before := PayoutQueueOf(log[..|log| - 1]);
      match log[|log| - 1]
      case PayoutQueued(id) => before + [PayoutJob(id, None)]
      case PayoutDeferred(id, delay) => before + [PayoutJob(id, Some(delay))]
      case _ => before
  }

  lemma ProcessQueueAfter(log: seq<Event>, event: Event)
    ensures ProcessQueueOf(log + [event])
         == ProcessQueueOf(log)
            + match event
              case ClaimOpened(id) => [id]
              case RetryScheduled(id) => [id]
              case SupersedeQueued(id) => [id]
              case RefileQueued(id) => [id]
              case _ => []
  {
    assert (log + [event])[..|log|] == log;
  }

  lemma PayoutQueueAfter(log: seq<Event>, event: Event)
    ensures PayoutQueueOf(log + [event])
         == PayoutQueueOf(log)
            + match event
              case PayoutQueued(id) => [PayoutJob(id, None)]
              case PayoutDeferred(id, delay) => [PayoutJob(id, Some(delay))]
              case _ => []
  {
    assert (log + [event])[..|log|] == log;
  }

  class Keeper {
    const config: Config
    var claims: seq<Row>
    var policies: map<nat, Policy>
    var chain: map<nat, ChainState>
    var processQueue: seq<nat>
    var payoutQueue: seq<PayoutJob>
    ghost var log: seq<Event>

    ghost function View(): World
      reads this
    {
      World(claims, policies, chain, Idle, log)
    }

    /** Each queue holds exactly what the log says was ever enqueued; a job that
        runs is not taken off, since it may be delivered again. */
    ghost predicate Valid()
      reads this
    {
      processQueue == ProcessQueueOf(log) && payoutQueue == PayoutQueueOf(log)
    }

    constructor (config: Config, policies: map<nat, Policy>, chain: map<nat, ChainState>)
      ensures Valid() && Initial(View())
      ensures this.config == config && this.policies == policies && this.chain == chain
    {
      this.config := config;
      this.policies := policies;
      this.chain := chain;
      claims, processQueue, payoutQueue, log := [], [], [], [];
    }

    method EnqueueProcess(id: nat, ghost cause: Event)
      requires Valid()
      requires cause in {ClaimOpened(id), RetryScheduled(id), SupersedeQueued(id), RefileQueued(id)}
      modifies this`processQueue, this`log
      ensures Valid()
      ensures log == old(log) + [cause]
    {
      ProcessQueueAfter(log, cause);
      PayoutQueueAfter(log, cause);
      processQueue := processQueue + [id];
      log := log + [cause];
    }

    method EnqueuePayout(job: PayoutJob, ghost cause: Event)
      requires Valid()
      requires cause == if job.wait.Some? then PayoutDeferred(job.id, job.wait.value) else PayoutQueued(job.id)
      modifies this`payoutQueue, this`log
      ensures Valid()
      ensures log == old(log) + [cause]
    {
      ProcessQueueAfter(log, cause);
      PayoutQueueAfter(log, cause);
      payoutQueue := payoutQueue + [job];
      log := log + [cause];
    }

    ghost method Witness(event: Event)
      requires Valid()
      requires event.PayVerdict? || event.SettleCalled? || event.SettleLanded?
      modifies this`log
      ensures Valid()
      ensures log == old(log) + [event]
    {
      ProcessQueueAfter(log, event);
      PayoutQueueAfter(log, event);
      log := log + [event];
    }

    method IngestAlert(alert: Alert, selected: Option<nat>)
      requires Valid()
      requires SelectsNewestActive(policies, alert.agent, selected)
      modifies this
      ensures Valid()
      ensures View() == Ingest(old(View()), config, alert, selected)
    {
      if !alert.signed {
        return;
      }
      var simulated := alert.simulated && SyntheticAllowed(config);
      var trigger := TriggerForEvent(alert.event);
      if alert.agent == "" || trigger.None? || selected.None? {
        return;
      }
      var signature := EffectiveSignature(alert, simulated);
      if signature == "" {
        return;
      }
      OpenOrSupersede(selected.value, trigger.value, signature, IngestData(alert, simulated));
    }

    /** Open a claim, or offer the alert the slot of the one that is open. */
    method OpenOrSupersede(policyId: nat, trigger: Trigger, signature: string, data: Data)
      requires Valid()
      modifies this`claims, this`processQueue, this`log
      ensures Valid()
      ensures HoldsOpenClaim(old(claims), policyId) ==>
        View() == SupersedeParked(old(View()), policyId, trigger, signature, data)
      ensures !HoldsOpenClaim(old(claims), policyId) ==>
        View() == Note(
          old(View()).(claims := old(claims) + [OpenedRow(policyId, trigger, signature, data)]),
          ClaimOpened(|old(claims)|))
    {
      if HoldsOpenClaim(claims, policyId) {
        var taken := SupersedeParkedClaim(policyId, trigger, signature, data);
        if taken.Some? {
          EnqueueProcess(taken.value, SupersedeQueued(taken.value));
        }
        return;
      }
      var id := |claims|;
      claims := claims + [OpenedRow(policyId, trigger, signature, data)];
      EnqueueProcess(id, ClaimOpened(id));
    }

    /** Returns the claim that changed hands, if one did; the caller queues it. */
    method SupersedeParkedClaim(policyId: nat, trigger: Trigger, txSignature: string, data: Data)
      returns (taken: Option<nat>)
      modifies this`claims
      ensures SupersedeParked(old(View()), policyId, trigger, txSignature, data)
           == if taken.Some? then Note(View(), SupersedeQueued(taken.value)) else View()
    {
      var parked := FindParked(claims, policyId, 0);
      if parked.None? {
        return None;
      }
      var id := parked.value;
      var existing := claims[id];
      if !EarnsSlot(existing, trigger, txSignature) {
        return None;
      }
      if SupersedesSoFar(existing.data) + 1.0 > MAX_SUPERSEDES {
        claims := claims[id := existing.(status := Review, reviewReason := Some("supersede_cap_reached"))];
        return None;
      }
      claims := claims[id := Superseded(existing, trigger, txSignature, data)];
      return Some(id);
    }

    method ProcessClaim(id: nat, input: ProcessInput)
      requires Valid()
      modifies this
      ensures Valid()
      ensures View() == Process(old(View()), config, id, input)
    {
      if id >= |claims| {
        return;
      }
      var claim := claims[id];
      if !IndexAdmits(claims, id, claim.(status := Verifying)) {
        return;
      }
      claims := claims[id := claim.(status := Verifying)];
      if claim.policyId !in policies {
        RejectClaim(id, claim, map["reason" := JStr("policy_not_indexed")]);
        return;
      }
      AdjudicateClaim(id, claim, policies[claim.policyId].coverage, input);
    }

    /** The handler from the verdict on. */
    method AdjudicateClaim(id: nat, claim: Row, coverage: nat, input: ProcessInput)
      requires Valid() && id < |claims|
      modifies this
      ensures Valid() && policies == old(policies)
      ensures View() == Adjudicate(old(View()), config, id, claim, coverage, input)
    {
      var simulated := IsSimulated(claim, config);
      var verdict := if simulated then SyntheticVerdict(coverage) else input.verdict;
      var hash := if simulated then None else input.evidenceHash;
      VerdictSplits(View(), config, id, claim, coverage, input, verdict, hash);
      var reattribution := ReattributeToAgentError(id, claim, verdict, input.mandate, hash.Some?);
      match reattribution
      case Reattributed =>
      case MandateUnreadable =>
        HandleIndeterminateVerdict(id, claim, claim.verifyAttempts + 1,
          verdict.details["reason" := JStr("mandate_unreadable_during_reattribution")]);
      case NotReattributed =>
        ConcludeVerdict(id, claim, verdict, hash, input.submit, input.chainReadable);
    }

    /** Everything that follows a verdict the agent-error question did not claim. */
    method ConcludeVerdict(
      id: nat, claim: Row, verdict: Verdict, hash: Option<string>, submit: Report, chainReadable: bool)
      requires Valid() && id < |claims|
      modifies this
      ensures Valid() && policies == old(policies)
      ensures View() == Conclude(old(View()), config, id, claim, verdict, hash, submit, chainReadable)
    {
      if verdict.outcome.Confirmed? && verdict.lossAmount > 0 {
        TakeLane(id, claim, verdict, hash, submit, chainReadable);
        return;
      }
      UnconfirmedEnds(View(), config, id, claim, verdict, hash, submit, chainReadable);
      var attempt := claim.verifyAttempts + 1;
      if verdict.outcome.Inconclusive? {
        HandleIndeterminateVerdict(id, claim, attempt, verdict.details);
        return;
      }
      RejectClaim(id, claim, DenialPatch(verdict));
    }

    /** A confirmed loss is paid or put before a human. */
    method TakeLane(
      id: nat, claim: Row, verdict: Verdict, hash: Option<string>, submit: Report, chainReadable: bool)
      requires Valid() && id < |claims|
      requires verdict.outcome.Confirmed? && verdict.lossAmount > 0
      modifies this
      ensures Valid() && policies == old(policies)
      ensures View() == Conclude(old(View()), config, id, claim, verdict, hash, submit, chainReadable)
    {
      var attempt := claim.verifyAttempts + 1;
      ConfirmedGoesByLane(View(), config, id, claim, verdict, hash, submit, chainReadable);
      var plan := PlanProvenSettlement(claim.trigger, claim.data, config, verdict.details, hash);
      var lane := DecideLane(claim.trigger, verdict.confidence, plan.IsProven());
      if lane.ToReview? {
        EscalateToReview(id, claim, lane.reason, Some(verdict));
        return;
      }
      ApproveClaim(id, claim, verdict, attempt, hash, plan, submit, chainReadable);
    }

    /** Persist before any on-chain call, submit, approve, queue the payout. */
    method ApproveClaim(
      id: nat, claim: Row, verdict: Verdict, attempt: nat, hash: Option<string>, plan: Plan,
      submit: Report, chainReadable: bool)
      requires Valid() && id < |claims|
      modifies this
      ensures Valid() && policies == old(policies)
      ensures View()
           == ApproveAndSubmit(old(View()), id, claim, verdict, attempt, hash, plan, submit, chainReadable)
    {
      PersistVerdict(id, claim, verdict, attempt, hash, plan);
      ghost var persisted := View();
      var submitted := SubmitClaimOnChain(claim.policyId, submit, chainReadable);
      SubmissionUnfolds(old(View()), persisted, id, claim, verdict, attempt, hash, plan, submit, chainReadable);
      if submitted {
        MarkApproved(id);
      }
    }

    method MarkApproved(id: nat)
      requires Valid() && id < |claims|
      modifies this`claims, this`payoutQueue, this`log
      ensures Valid()
      ensures View() == Note(Put(old(View()), id, old(claims)[id].(status := Approved)), PayoutQueued(id))
    {
      claims := claims[id := claims[id].(status := Approved)];
      EnqueuePayout(PayoutJob(id, None), PayoutQueued(id));
    }

    method PersistVerdict(
      id: nat, claim: Row, verdict: Verdict, attempt: nat, hash: Option<string>, ghost plan: Plan)
      requires Valid() && id < |claims|
      modifies this`claims, this`log
      ensures Valid()
      ensures View() == Note(
        Put(old(View()), id, PersistedRow(old(claims)[id], claim, verdict, attempt, hash)),
        PayVerdict(id, claim.trigger, verdict.outcome, verdict.lossAmount, verdict.confidence, plan))
    {
      claims := claims[id := PersistedRow(claims[id], claim, verdict, attempt, hash)];
      Witness(PayVerdict(id, claim.trigger, verdict.outcome, verdict.lossAmount, verdict.confidence, plan));
    }

    /** True unless the call threw: confirmed, or read back as pending. */
    method SubmitClaimOnChain(policyId: nat, report: Report, chainReadable: bool) returns (submitted: bool)
      modifies this`chain
      ensures policyId !in old(chain) ==> !submitted && chain == old(chain)
      ensures policyId in old(chain) ==>
        && chain == old(chain)[policyId :=
             if old(chain)[policyId] == ChainActive && !report.NeverLanded? then ChainClaimPending
             else old(chain)[policyId]]
        && (submitted <==>
              || (old(chain)[policyId] == ChainActive && report == Confirmation)
              || (chainReadable && chain[policyId] == ChainClaimPending))
    {
      if policyId !in chain {
        return false;
      }
      var confirmed := chain[policyId].ChainActive? && report.Confirmation?;
      chain := chain[policyId := AfterSubmit(chain[policyId], report)];
      if confirmed {
        return true;
      }
      return chainReadable && chain[policyId].ChainClaimPending?;
    }

    method ReattributeToAgentError(id: nat, claim: Row, verdict: Verdict, mandate: MandateRead, hasEvidence: bool)
      returns (reattribution: Reattribution)
      requires Valid() && id < |claims|
      modifies this`claims, this`processQueue, this`log
      ensures Valid()
      ensures reattribution == DecideReattribution(claim, verdict, mandate)
      ensures View() ==
        if reattribution.Reattributed? then
          Note(
            Put(old(View()), id, Refiled(old(claims)[id], claim, ReasonOf(verdict.details, ""), hasEvidence)),
            RefileQueued(id))
        else old(View())
    {
      if !claim.trigger.Exploit? {
        return NotReattributed;
      }
      var reason := ReasonOf(verdict.details, "");
      if reason !in EXPLOIT_REASONS_MEANING_AGENT_ERROR || AlreadyReattributed(claim.data) {
        return NotReattributed;
      }
      if mandate.Unreadable? {
        return MandateUnreadable;
      }
      if !mandate.Matured? {
        return NotReattributed;
      }
      Refile(id, claim, reason, hasEvidence);
      return Reattributed;
    }

    method Refile(id: nat, claim: Row, reason: string, hasEvidence: bool)
      requires Valid() && id < |claims|
      modifies this`claims, this`processQueue, this`log
      ensures Valid()
      ensures View() == Note(
        Put(old(View()), id, Refiled(old(claims)[id], claim, reason, hasEvidence)), RefileQueued(id))
    {
      claims := claims[id := Refiled(claims[id], claim, reason, hasEvidence)];
      EnqueueProcess(id, RefileQueued(id));
    }

    method HandleIndeterminateVerdict(id: nat, claim: Row, attempt: nat, details: Data)
      requires Valid() && id < |claims|
      modifies this`claims, this`processQueue, this`log
      ensures Valid()
      ensures View() == HandleIndeterminate(old(View()), id, claim, attempt, details)
    {
      var exhausted := attempt >= MAX_VERIFY_ATTEMPTS;
      claims := claims[id := IndeterminateRow(claims[id], claim, attempt, details)];
      if exhausted {
        return;
      }
      EnqueueProcess(id, RetryScheduled(id));
    }

    method RejectClaim(id: nat, claim: Row, reason: Data)
      requires id < |claims|
      modifies this`claims
      ensures View() == Put(old(View()), id, RejectedRow(old(claims)[id], claim, reason))
    {
      claims := claims[id := claims[id].(status := Rejected, data := Merge(claim.data, reason))];
    }

    /** The index may refuse the write; the job then dies and nothing changes. */
    method EscalateToReview(id: nat, claim: Row, reason: string, verdict: Option<Verdict>)
      requires id < |claims|
      modifies this`claims
      ensures verdict.Some? ==>
        View() == Put(old(View()), id, ReviewedRow(old(claims)[id], claim, verdict.value, reason))
      ensures verdict.None? ==>
        var parked := ParkedRow(old(claims)[id], claim, reason, map["reviewReason" := JStr(reason)]);
        View() == if IndexAdmits(old(claims), id, parked) then Put(old(View()), id, parked) else old(View())
    {
      var patch: Data := map["reviewReason" := JStr(reason)];
      if verdict.Some? {
        patch := verdict.value.details + patch
          + map["outcome" := JStr(OutcomeName(verdict.value.outcome)), "confidence" := JNum(verdict.value.confidence)];
        assert patch == verdict.value.details
          + map["reviewReason" := JStr(reason), "outcome" := JStr(OutcomeName(verdict.value.outcome)),
                "confidence" := JNum(verdict.value.confidence)];
      }
      var parked := claims[id].(
        status := Review,
        reviewReason := Some(Clip(reason)),
        data := Merge(claim.data, patch));
      if verdict.Some? {
        claims := claims[id := parked.(lossAmount := Some(verdict.value.lossAmount))];
      } else if IndexAdmits(claims, id, parked) {
        claims := claims[id := parked];
      }
    }

    method ExecutePayout(id: nat, input: PayoutInput)
      requires Valid()
      modifies this
      ensures Valid()
      ensures View() == PayoutPass(old(View()), config, id, input)
    {
      if id >= |claims| {
        return;
      }
      var claim := claims[id];
      if !claim.status.Approved? && !claim.status.Paying? {
        return;
      }
      if claim.policyId !in policies {
        RejectClaim(id, claim, map["reason" := JStr("policy_missing_at_payout")]);
        return;
      }
      var payoutAmount := Amount(claim);
      if payoutAmount <= 0 {
        RejectClaim(id, claim, map["reason" := JStr("payout_amount_missing")]);
        return;
      }
      if !claim.status.Paying? {
        claims := claims[id := claims[id].(status := Paying)];
      }
      assert View().(worker := Armed(id, claim)) == Arm(Deliver(old(View()), id));
      DecidePayout(id, claim, input);
    }

    /** The breaker, then the plan recomputed from the row as it was loaded. */
    method DecidePayout(id: nat, claim: Row, input: PayoutInput)
      requires Valid() && id < |claims|
      modifies this
      ensures Valid()
      ensures View() == PayoutEnd(
        CallSettle(Decide(old(View()).(worker := Armed(id, claim)), config, input.breakerOk), input.settle), input)
    {
      ghost var decided := Decide(View().(worker := Armed(id, claim)), config, input.breakerOk);
      if !input.breakerOk {
        EscalateToReview(id, claim, "auto_payout_limit_exceeded", None);
        TailOfIdle(decided, input);
        return;
      }
      var plan := PlanProvenSettlement(claim.trigger, claim.data, config, map[], None);
      if plan.Unprovable? {
        var parked := ParkedRow(claims[id], claim, plan.reason, map["reason" := JStr(plan.reason)]);
        if IndexAdmits(claims, id, parked) {
          claims := claims[id := parked];
        }
        TailOfIdle(decided, input);
        return;
      }
      Settle(id, claim, plan, input);
    }

    /** The settle call and everything that may follow it. */
    method Settle(id: nat, claim: Row, plan: Plan, input: PayoutInput)
      requires Valid() && id < |claims| && plan.IsProven()
      modifies this`claims, this`chain, this`payoutQueue, this`log
      ensures Valid()
      ensures View() == PayoutEnd(CallSettle(old(View()).(worker := Ready(id, claim, plan)), input.settle), input)
    {
      var confirmed := CallSettleInstruction(id, claim, plan, input.settle);
      ghost var answered := CallSettle(old(View()).(worker := Ready(id, claim, plan)), input.settle);
      assert View() == WithWorker(answered, Idle);
      var message := ErrorOf(input.settle);
      if confirmed {
        if !input.fault.PaidWriteThrew? {
          claims := claims[id := claims[id].(
            status := Paid,
            payoutAmount := Some(Amount(claim)),
            proofKind := Some(ProofKindOfPlan(plan)))];
        }
        if input.fault.NoFault? {
          TailOfConfirmed(answered, input);
          return;
        }
        message := input.fault.error;
      }
      assert WithWorker(Interrupt(answered, input.fault), Idle) == View();
      TailOfRefused(answered, input);
      var settled := input.chainReadable && claim.policyId in chain && chain[claim.policyId].ChainClaimPaid?;
      RecoverFromError(id, claim, message, settled);
    }

    /** Send the transaction. It may land and still be reported as an error. */
    method CallSettleInstruction(id: nat, claim: Row, plan: Plan, report: Report) returns (confirmed: bool)
      requires Valid() && id < |claims|
      modifies this`chain, this`log
      ensures Valid()
      ensures View().(worker := if confirmed then Settled(id, claim, plan) else Refused(id, claim, ErrorOf(report)))
           == CallSettle(old(View()).(worker := Ready(id, claim, plan)), report)
    {
      SettleUnfolds(View(), id, claim, plan, report);
      Witness(SettleCalled(id, claim.policyId, plan, Amount(claim), claim.data));
      if !SettleLands(chain, claim.policyId, report) {
        return false;
      }
      chain := chain[claim.policyId := ChainClaimPaid];
      Witness(SettleLanded(claim.policyId));
      return report.Confirmation?;
    }

    /** Ask the chain before believing the error, wait out a lock, else fail. */
    method RecoverFromError(id: nat, claim: Row, message: string, settled: bool)
      requires Valid() && id < |claims|
      modifies this`claims, this`payoutQueue, this`log
      ensures Valid()
      ensures View() == Escalate(Reconcile(old(View()), id, claim, message, settled))
      ensures settled ==> claims[id].status == Paid && payoutQueue == old(payoutQueue)
      ensures !settled && !NamesLock(message) ==> claims[id].status == Failed && payoutQueue == old(payoutQueue)
      ensures !settled && NamesLock(message) ==> claims[id].status in {old(claims)[id].status, Review}
    {
      NamingIsMatching(message);
      if settled {
        claims := claims[id := ReconciledRow(claims[id], claim, message)];
        return;
      }
      if IsLockNotElapsed(message) {
        WaitOutLock(id, claim, message);
        return;
      }
      claims := claims[id := FailedRow(claims[id], claim, message)];
    }

    /** Queue the payout again after the next wait, or hand it to a human once
        the waits are used up. */
    method WaitOutLock(id: nat, claim: Row, message: string)
      requires Valid() && id < |claims|
      modifies this`claims, this`payoutQueue, this`log
      ensures Valid()
      ensures View() == Escalate(Defer(old(View()), id, claim, message))
      ensures claims[id].status in {old(claims)[id].status, Review}
    {
      var deferrals := LockDeferrals(claim.data);
      if DeferralDelay(deferrals).Some? {
        claims := claims[id := DeferredRow(claims[id], claim, deferrals + 1.0, message)];
        var delay := DeferralDelay(deferrals).value;
        EnqueuePayout(PayoutJob(id, Some(delay)), PayoutDeferred(id, delay));
        return;
      }
      claims := claims[id := DeferredRow(claims[id], claim, deferrals, message)];
      EscalateToReview(id, claims[id], "lock_never_elapsed", None);
    }

    /** The indexer's insert beside this keeper; the unique index may refuse it. */
    method MirrorPendingClaim(policyId: nat, trigger: Trigger, txSignature: string)
      requires Valid()
      modifies this`claims
      ensures Valid() && View() == MirrorClaim(old(View()), policyId, trigger, txSignature)
    {
      if !HoldsOpenClaim(claims, policyId) {
        claims := claims + [MirroredRow(policyId, trigger, txSignature)];
      }
    }

    /** The chain moves by itself, within what it allows. */
    method ObserveChain(policyId: nat, after: ChainState)
      requires Valid()
      modifies this`chain
      ensures Valid() && View() == ChainMoves(old(View()), policyId, after)
    {
      if policyId !in chain || ChainMay(chain[policyId], after) {
        chain := chain[policyId := after];
      }
    }
  }
}
