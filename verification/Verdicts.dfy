/** What a process pass may conclude from a verdict, whatever status the row was
    in: when it rejects, when it re-files, when it approves. */
module Verdicts {
  import opened ClaimTypes
  import opened VerificationRecord
  import opened Settlement
  import opened KeeperModel

  predicate Closed(status: Status) {
    status.Paid? || status.Rejected? || status.Failed?
  }

  /** The unique index lets the pass take the row up: no other claim of its policy
      is open. Otherwise the first write throws and nothing happens. */
  ghost predicate Admitted(world: World, id: nat) {
    && id < |world.claims|
    && forall other | 0 <= other < |world.claims| && other != id ::
         world.claims[other].policyId == world.claims[id].policyId ==> Closed(world.claims[other].status)
  }

  /** The pass knows the policy; without it there is nothing to verify against. */
  predicate Indexed(world: World, id: nat) {
    id < |world.claims| && world.claims[id].policyId in world.policies
  }

  /** The claim was filed as simulated, under a demo signature, and nothing about
      the deployment says real money. */
  predicate IsDemo(claim: Row, config: Config) {
    && Records(claim.data, "simulated", JBool(true))
    && |claim.txSignature| >= 5 && claim.txSignature[..5] == "demo_"
    && !config.production && !config.mainnetBeta && !config.mainnetUsdc
  }

  /** What the pass judges by: its verifier's verdict, or four fifths of the cover
      at full confidence where the claim is a demo. */
  function VerdictOf(world: World, config: Config, id: nat, input: ProcessInput): Verdict
    requires Indexed(world, id)
  {
    var claim := world.claims[id];
    if !IsDemo(claim, config) then input.verdict
    else
      Verdict(Confirmed, world.policies[claim.policyId].coverage * 4 / 5, 1.0,
        map["method" := JStr("synthetic"), "simulated" := JBool(true)])
  }

  function HashOf(world: World, config: Config, id: nat, input: ProcessInput): Option<string>
    requires Indexed(world, id)
  {
    if IsDemo(world.claims[id], config) then None else input.evidenceHash
  }

  predicate Gives(verdict: Verdict, reason: string) {
    "reason" in verdict.details && verdict.details["reason"] == JStr(reason)
  }

  /** The exploit verdict that turns on the agent having authorised the movement,
      asked for the first time. */
  predicate AsksAgentError(claim: Row, verdict: Verdict) {
    && claim.trigger == Exploit
    && (Gives(verdict, "agent_authorized_movement") || Gives(verdict, "authorized_but_anomalous"))
    && !(claim.data.JObj? && "reattributedFrom" in claim.data.fields)
  }

  /** A verdict whose evidence denies a loss. */
  predicate DeniesLoss(verdict: Verdict) {
    verdict.outcome.Contradicted? || (verdict.outcome.Confirmed? && verdict.lossAmount <= 0)
  }

  /** A confirmed loss at 0.95, or from 0.75 with everything the chain needs to check
      it on record. */
  predicate EarnsPay(claim: Row, config: Config, verdict: Verdict, hash: Option<string>) {
    && verdict.outcome.Confirmed? && verdict.lossAmount > 0
    && (verdict.confidence >= 0.95
        || (verdict.confidence >= 0.75 && Provable(claim.trigger, claim.data, config, verdict.details, hash)))
  }

  /** The question is asked and the holder's mandate answers it, or cannot be read. */
  predicate Diverted(claim: Row, verdict: Verdict, mandate: MandateRead) {
    AsksAgentError(claim, verdict) && !mandate.NotMatured?
  }

  /** No other row is written. */
  ghost predicate OnlyRow(before: World, after: World, id: nat) {
    && |after.claims| == |before.claims|
    && forall other | 0 <= other < |before.claims| && other != id :: after.claims[other] == before.claims[other]
  }

  lemma DemoIsSimulated(claim: Row, config: Config)
    ensures IsDemo(claim, config) <==> IsSimulated(claim, config)
  {
    assert IsDemoSignature(claim.txSignature) <==> |claim.txSignature| >= 5 && claim.txSignature[..5] == "demo_";
  }

  lemma AskingIsReattributing(claim: Row, verdict: Verdict, mandate: MandateRead)
    ensures DecideReattribution(claim, verdict, mandate) ==
      if !AsksAgentError(claim, verdict) || mandate.NotMatured? then NotReattributed
      else if mandate.Matured? then Reattributed
      else MandateUnreadable
  {
  }

  lemma PayLaneIsEarned(claim: Row, config: Config, verdict: Verdict, hash: Option<string>)
    requires verdict.outcome.Confirmed? && verdict.lossAmount > 0
    ensures
      var plan := PlanProvenSettlement(claim.trigger, claim.data, config, verdict.details, hash);
      DecideLane(claim.trigger, verdict.confidence, plan.IsProven()).Pay? <==> EarnsPay(claim, config, verdict, hash)
  {
    PlanIsProvenIff(claim.trigger, claim.data, config, verdict.details, hash);
  }

  /** The keeper takes a submission to have landed when it was confirmed, or when the
      chain can be read afterwards and says the claim is pending. */
  predicate TakenToHaveLanded(
    before: map<nat, ChainState>, after: map<nat, ChainState>, policyId: nat, submit: Report, chainReadable: bool)
  {
    && policyId in before && policyId in after
    && ((before[policyId] == ChainActive && submit == Confirmation)
        || (chainReadable && after[policyId] == ChainClaimPending))
  }

  /** A submission moves an active policy to pending unless it never landed, and
      moves nothing else. */
  predicate Submits(before: map<nat, ChainState>, after: map<nat, ChainState>, policyId: nat, submit: Report) {
    after ==
      if policyId in before && before[policyId] == ChainActive && !submit.NeverLanded?
      then before[policyId := ChainClaimPending] else before
  }

  lemma SubmissionOutcome(
    world: World, id: nat, claim: Row, verdict: Verdict, attempt: nat, hash: Option<string>, plan: Plan,
    submit: Report, chainReadable: bool)
    requires id < |world.claims| && world.claims[id].status.Verifying?
    ensures
      var after := ApproveAndSubmit(world, id, claim, verdict, attempt, hash, plan, submit, chainReadable);
      var taken := TakenToHaveLanded(world.chain, after.chain, claim.policyId, submit, chainReadable);
      && OnlyRow(world, after, id)
      && Submits(world.chain, after.chain, claim.policyId, submit)
      && after.claims[id].trigger == world.claims[id].trigger
      && after.claims[id].payoutAmount == Some(verdict.lossAmount)
      && after.claims[id].status == (if taken then Approved else Verifying)
      && (taken ==> after.chain[claim.policyId] == ChainClaimPending)
      && after.log == world.log
           + [PayVerdict(id, claim.trigger, verdict.outcome, verdict.lossAmount, verdict.confidence, plan)]
           + (if taken then [PayoutQueued(id)] else [])
  {
    if claim.policyId in world.chain {
      var state := world.chain[claim.policyId];
      assert AfterSubmit(state, submit) == state ==> world.chain[claim.policyId := state] == world.chain;
    }
  }

  lemma ConcludedRow(
    world: World, config: Config, id: nat, claim: Row, verdict: Verdict, hash: Option<string>, submit: Report,
    chainReadable: bool)
    requires id < |world.claims| && world.claims[id].status.Verifying?
    ensures
      var after := Conclude(world, config, id, claim, verdict, hash, submit, chainReadable);
      && OnlyRow(world, after, id)
      && after.claims[id].trigger == world.claims[id].trigger
      && (after.claims[id].status.Rejected? <==> DeniesLoss(verdict))
      && (!after.claims[id].status.Rejected? <==> IsOpen(after.claims[id].status))
  {
    if verdict.outcome.Confirmed? && verdict.lossAmount > 0 {
      ConfirmedGoesByLane(world, config, id, claim, verdict, hash, submit, chainReadable);
      var plan := PlanProvenSettlement(claim.trigger, claim.data, config, verdict.details, hash);
      SubmissionOutcome(world, id, claim, verdict, claim.verifyAttempts + 1, hash, plan, submit, chainReadable);
    } else {
      UnconfirmedIsPut(world, config, id, claim, verdict, hash, submit, chainReadable);
    }
  }

  lemma UnconfirmedIsPut(
    world: World, config: Config, id: nat, claim: Row, verdict: Verdict, hash: Option<string>, submit: Report,
    chainReadable: bool)
    requires id < |world.claims|
    requires !(verdict.outcome.Confirmed? && verdict.lossAmount > 0)
    ensures
      var after := Conclude(world, config, id, claim, verdict, hash, submit, chainReadable);
      && OnlyRow(world, after, id) && after.chain == world.chain
      && after.claims[id].trigger == world.claims[id].trigger
      && (DeniesLoss(verdict) ==> after.claims[id].status.Rejected?)
      && (!DeniesLoss(verdict) ==> IsParked(after.claims[id].status))
  {
    UnconfirmedEnds(world, config, id, claim, verdict, hash, submit, chainReadable);
  }

  /** At most a process job was queued. */
  predicate NoPayout(before: World, after: World, id: nat) {
    after.log in {before.log, before.log + [RetryScheduled(id)], before.log + [RefileQueued(id)]}
  }

  /** The pay lane: the claim is approved for the loss, and its payout queued, exactly
      when the submission is taken to have landed; else the row stays `verifying`. */
  predicate PaysInto(
    before: World, after: World, id: nat, claim: Row, verdict: Verdict, plan: Plan, submit: Report,
    chainReadable: bool)
  {
    var taken := TakenToHaveLanded(before.chain, after.chain, claim.policyId, submit, chainReadable);
    && id < |after.claims|
    && Submits(before.chain, after.chain, claim.policyId, submit)
    && after.claims[id].status == (if taken then Approved else Verifying)
    && after.claims[id].payoutAmount == Some(verdict.lossAmount)
    && (taken ==> after.chain[claim.policyId] == ChainClaimPending)
    && after.log == before.log
         + [PayVerdict(id, claim.trigger, Confirmed, verdict.lossAmount, verdict.confidence, plan)]
         + (if taken then [PayoutQueued(id)] else [])
  }

  lemma ConcludedPay(
    world: World, config: Config, id: nat, claim: Row, verdict: Verdict, hash: Option<string>, submit: Report,
    chainReadable: bool)
    requires id < |world.claims| && world.claims[id].status.Verifying?
    ensures
      var after := Conclude(world, config, id, claim, verdict, hash, submit, chainReadable);
      && id < |after.claims|
      && (if EarnsPay(claim, config, verdict, hash) then
            PaysInto(world, after, id, claim, verdict,
              PlanProvenSettlement(claim.trigger, claim.data, config, verdict.details, hash), submit, chainReadable)
          else !after.claims[id].status.Approved? && after.chain == world.chain && NoPayout(world, after, id))
  {
    if verdict.outcome.Confirmed? && verdict.lossAmount > 0 {
      PayLaneIsEarned(claim, config, verdict, hash);
      ConfirmedGoesByLane(world, config, id, claim, verdict, hash, submit, chainReadable);
      var plan := PlanProvenSettlement(claim.trigger, claim.data, config, verdict.details, hash);
      SubmissionOutcome(world, id, claim, verdict, claim.verifyAttempts + 1, hash, plan, submit, chainReadable);
    } else {
      UnconfirmedIsPut(world, config, id, claim, verdict, hash, submit, chainReadable);
    }
  }

  lemma UnadmittedPassDoesNothing(world: World, config: Config, id: nat, input: ProcessInput)
    requires !Admitted(world, id)
    ensures Process(world, config, id, input) == world
  {
  }

  lemma UnindexedPass(world: World, config: Config, id: nat, input: ProcessInput)
    requires Admitted(world, id) && !Indexed(world, id)
    ensures
      var claim := world.claims[id];
      Process(world, config, id, input)
      == Put(world, id, RejectedRow(claim, claim, map["reason" := JStr("policy_not_indexed")]))
  {
    var claim := world.claims[id];
    var row := RejectedRow(claim, claim, map["reason" := JStr("policy_not_indexed")]);
    assert Put(Put(world, id, claim.(status := Verifying)), id, row) == Put(world, id, row);
  }

  /** The pass from the row it has just marked on. */
  lemma PassSplits(world: World, config: Config, id: nat, input: ProcessInput)
    requires Admitted(world, id) && Indexed(world, id)
    ensures
      var claim := world.claims[id];
      var verdict, hash := VerdictOf(world, config, id, input), HashOf(world, config, id, input);
      var started := Put(world, id, claim.(status := Verifying));
      Process(world, config, id, input) ==
        if !Diverted(claim, verdict, input.mandate) then
          Conclude(started, config, id, claim, verdict, hash, input.submit, input.chainReadable)
        else if input.mandate.Matured? then
          Note(Put(started, id, Refiled(started.claims[id], claim, ReasonOf(verdict.details, ""), hash.Some?)),
               RefileQueued(id))
        else
          HandleIndeterminate(started, id, claim, claim.verifyAttempts + 1,
            verdict.details["reason" := JStr("mandate_unreadable_during_reattribution")])
  {
    var claim := world.claims[id];
    DemoIsSimulated(claim, config);
    AskingIsReattributing(claim, VerdictOf(world, config, id, input), input.mandate);
    VerdictSplits(Put(world, id, claim.(status := Verifying)), config, id, claim,
      world.policies[claim.policyId].coverage, input,
      VerdictOf(world, config, id, input), HashOf(world, config, id, input));
  }

  /** Every pass the index admits rejects exactly when the policy is not indexed,
      or when the evidence denies the loss and the agent-error question was not
      raised with a mandate that is matured or unreadable. Any other pass leaves
      the claim open, and none touches another claim. */
  lemma RejectionIff(world: World, config: Config, id: nat, input: ProcessInput)
    requires Admitted(world, id)
    ensures OnlyRow(world, Process(world, config, id, input), id)
    ensures
      var claim := world.claims[id];
      var after := Process(world, config, id, input).claims[id];
      && (after.status.Rejected? <==>
            !Indexed(world, id)
            || (var verdict := VerdictOf(world, config, id, input);
                DeniesLoss(verdict) && !Diverted(claim, verdict, input.mandate)))
      && (!after.status.Rejected? <==> IsOpen(after.status))
  {
    if !Indexed(world, id) {
      UnindexedPass(world, config, id, input);
    } else {
      var claim := world.claims[id];
      PassSplits(world, config, id, input);
      ConcludedRow(Put(world, id, claim.(status := Verifying)), config, id, claim,
        VerdictOf(world, config, id, input), HashOf(world, config, id, input), input.submit, input.chainReadable);
    }
  }

  /** A claim can close without any evidence against it: the indexer has not seen
      the policy, and a confirmed loss is rejected. */
  lemma ConfirmedLossCanBeRejected(config: Config, loss: nat, confidence: real)
    returns (world: World, input: ProcessInput)
    requires loss > 0
    ensures Admitted(world, 0) && input.verdict == Verdict(Confirmed, loss, confidence, map[])
    ensures !DeniesLoss(input.verdict)
    ensures Process(world, config, 0, input).claims == [world.claims[0].(
      status := Rejected, data := JObj(map["reason" := JStr("policy_not_indexed")]))]
  {
    var claim := OpenedRow(7, Exploit, "tx", map[]);
    world := World([claim], map[], map[7 := ChainActive], Idle, []);
    input := ProcessInput(Verdict(Confirmed, loss, confidence, map[]), None, Matured, Confirmation, true);
    assert Admitted(world, 0);
    UnindexedPass(world, config, 0, input);
    var patch: Data := map["reason" := JStr("policy_not_indexed")];
    assert Merge(claim.data, patch) == JObj(patch);
  }

  /** The trigger changes only from exploit to agent error, exactly when the policy
      is indexed, that is asked for the first time and a matured mandate was read;
      the chain, the amounts and the attempt count are as they were, and one job
      is queued. */
  lemma RefilingOnlyNarrows(world: World, config: Config, id: nat, input: ProcessInput)
    requires Admitted(world, id)
    ensures
      var claim, after := world.claims[id], Process(world, config, id, input);
      && OnlyRow(world, after, id)
      && (after.claims[id].trigger != claim.trigger <==>
            && Indexed(world, id)
            && AsksAgentError(claim, VerdictOf(world, config, id, input)) && input.mandate.Matured?)
      && (after.claims[id].trigger != claim.trigger ==>
            && claim.trigger.Exploit? && after.claims[id].trigger.AgentError?
            && after.claims[id].status.Pending? && AlreadyReattributed(after.claims[id].data)
            && after.claims[id].verifyAttempts == claim.verifyAttempts
            && after.claims[id].payoutAmount == claim.payoutAmount
            && after.chain == world.chain
            && after.log == world.log + [RefileQueued(id)])
  {
    if !Indexed(world, id) {
      UnindexedPass(world, config, id, input);
    } else {
      var claim := world.claims[id];
      PassSplits(world, config, id, input);
      ConcludedRow(Put(world, id, claim.(status := Verifying)), config, id, claim,
        VerdictOf(world, config, id, input), HashOf(world, config, id, input), input.submit, input.chainReadable);
    }
  }

  predicate TakesPayLane(world: World, config: Config, id: nat, input: ProcessInput) {
    && Indexed(world, id)
    && EarnsPay(world.claims[id], config, VerdictOf(world, config, id, input), HashOf(world, config, id, input))
    && !Diverted(world.claims[id], VerdictOf(world, config, id, input), input.mandate)
  }

  /** The plan the pass decides by. */
  function PlanSeen(world: World, config: Config, id: nat, input: ProcessInput): Plan
    requires Indexed(world, id)
  {
    var claim := world.claims[id];
    PlanProvenSettlement(claim.trigger, claim.data, config,
      VerdictOf(world, config, id, input).details, HashOf(world, config, id, input))
  }

  lemma PayLanePass(world: World, config: Config, id: nat, input: ProcessInput)
    requires Admitted(world, id) && TakesPayLane(world, config, id, input)
    ensures
      PaysInto(world, Process(world, config, id, input), id, world.claims[id], VerdictOf(world, config, id, input),
               PlanSeen(world, config, id, input), input.submit, input.chainReadable)
  {
    var claim := world.claims[id];
    var started := Put(world, id, claim.(status := Verifying));
    PassSplits(world, config, id, input);
    ConcludedPay(started, config, id, claim,
      VerdictOf(world, config, id, input), HashOf(world, config, id, input), input.submit, input.chainReadable);
    assert started.chain == world.chain && started.log == world.log;
  }

  lemma OtherPass(world: World, config: Config, id: nat, input: ProcessInput)
    requires Admitted(world, id) && !TakesPayLane(world, config, id, input)
    ensures
      var after := Process(world, config, id, input);
      id < |after.claims| && !after.claims[id].status.Approved? && after.chain == world.chain
      && NoPayout(world, after, id)
  {
    if !Indexed(world, id) {
      UnindexedPass(world, config, id, input);
    } else {
      var claim, verdict := world.claims[id], VerdictOf(world, config, id, input);
      var started := Put(world, id, claim.(status := Verifying));
      PassSplits(world, config, id, input);
      if Diverted(claim, verdict, input.mandate) {
        StallingApprovesNothing(started, id, claim, claim.verifyAttempts + 1,
          verdict.details["reason" := JStr("mandate_unreadable_during_reattribution")]);
      } else {
        ConcludedPay(started, config, id, claim, verdict, HashOf(world, config, id, input), input.submit,
          input.chainReadable);
      }
    }
  }

  lemma StallingApprovesNothing(world: World, id: nat, claim: Row, attempt: nat, details: Data)
    requires id < |world.claims|
    ensures
      var after := HandleIndeterminate(world, id, claim, attempt, details);
      && |after.claims| == |world.claims| && IsParked(after.claims[id].status)
      && after.chain == world.chain && NoPayout(world, after, id)
  {
  }

  /** A pass takes the pay lane exactly when the policy is indexed, the verdict earns
      it and is not diverted. There the row is approved, and a payout queued, exactly
      when the submission was confirmed on an active policy or the chain reads back
      as pending, and then the chain does have the claim pending; otherwise the row
      stays `verifying`. Off that lane nothing is approved or queued, and the chain
      does not move. */
  lemma ApprovalNeedsSubmission(world: World, config: Config, id: nat, input: ProcessInput)
    requires Admitted(world, id)
    ensures
      var claim, after := world.claims[id], Process(world, config, id, input);
      && id < |after.claims|
      && if TakesPayLane(world, config, id, input) then
           PaysInto(world, after, id, claim, VerdictOf(world, config, id, input), PlanSeen(world, config, id, input),
                    input.submit, input.chainReadable)
         else !after.claims[id].status.Approved? && after.chain == world.chain && NoPayout(world, after, id)
  {
    if TakesPayLane(world, config, id, input) {
      PayLanePass(world, config, id, input);
    } else {
      OtherPass(world, config, id, input);
    }
  }
}
