/** What a process pass writes: the whole row, the queue and the chain, for each way
    it can end. */
module PassOutcomes {
  import opened ClaimTypes
  import opened VerificationRecord
  import opened Settlement
  import opened KeeperModel
  import opened Verdicts

  /** What a row has on record; a column that holds no object holds nothing. */
  function OnRecord(row: Row): Data {
    match row.data
    case JObj(fields) => fields
    case _ => map[]
  }

  function FirstOf(reason: string): string {
    if |reason| < 128 then reason else reason[..128]
  }

  /** The pass writes this row, adds these log entries and touches nothing else. */
  ghost predicate Writes(before: World, after: World, id: nat, row: Row, entries: seq<Event>)
    requires id < |before.claims|
  {
    after == before.(claims := before.claims[id := row], log := before.log + entries)
  }

  ghost predicate Judged(world: World, config: Config, id: nat, input: ProcessInput, verdict: Verdict) {
    Admitted(world, id) && Indexed(world, id) && verdict == VerdictOf(world, config, id, input)
  }

  lemma WritingTwice(world: World, id: nat, first: Row, row: Row)
    requires id < |world.claims|
    ensures Put(Put(world, id, first), id, row) == Put(world, id, row)
  {
    assert world.claims[id := first][id := row] == world.claims[id := row];
  }

  /** A policy nobody has indexed rejects the claim, its record kept. */
  lemma UnindexedIsRejected(world: World, config: Config, id: nat, input: ProcessInput)
    requires Admitted(world, id) && !Indexed(world, id)
    ensures
      var claim := world.claims[id];
      Writes(world, Process(world, config, id, input), id,
        claim.(status := Rejected, data := JObj(OnRecord(claim)["reason" := JStr("policy_not_indexed")])), [])
  {
    UnindexedPass(world, config, id, input);
    var claim := world.claims[id];
    assert OnRecord(claim) + map["reason" := JStr("policy_not_indexed")]
        == OnRecord(claim)["reason" := JStr("policy_not_indexed")];
  }

  /** Re-filing marks the record with where the claim came from and why. */
  lemma RefiledWithItsReason(world: World, config: Config, id: nat, input: ProcessInput, verdict: Verdict)
    requires Judged(world, config, id, input, verdict)
    requires AsksAgentError(world.claims[id], verdict) && input.mandate.Matured?
    ensures
      var claim := world.claims[id];
      Writes(world, Process(world, config, id, input), id,
        claim.(
          trigger := AgentError,
          status := Pending,
          data := JObj(OnRecord(claim) + map[
            "reattributedFrom" := JNum(1.0),
            "reattributionReason" := verdict.details["reason"],
            "reattributionEvidenceRecorded" := JBool(HashOf(world, config, id, input).Some?)])),
        [RefileQueued(id)])
  {
    var claim := world.claims[id];
    PassSplits(world, config, id, input);
    WritingTwice(world, id, claim.(status := Verifying),
      Refiled(claim.(status := Verifying), claim, ReasonOf(verdict.details, ""),
              HashOf(world, config, id, input).Some?));
  }

  /** What an unresolved pass leaves: one more attempt, the reason, and a retry - or,
      at the fifth attempt, a human and none. */
  ghost predicate Stalls(before: World, after: World, id: nat, details: Data)
    requires id < |before.claims|
  {
    var claim := before.claims[id];
    var reason :=
      if "reason" in details && details["reason"].JStr? then details["reason"].s else "indeterminate";
    Writes(before, after, id,
      claim.(
        status := if claim.verifyAttempts >= 4 then Review else Indeterminate,
        reviewReason := Some(FirstOf(reason)),
        verifyAttempts := claim.verifyAttempts + 1,
        data := JObj(OnRecord(claim) + details + map[
          "outcome" := JStr("indeterminate"), "verifyAttempts" := JNum((claim.verifyAttempts + 1) as real)])),
      if claim.verifyAttempts >= 4 then [] else [RetryScheduled(id)])
  }

  lemma StallingWrites(world: World, id: nat, details: Data)
    requires id < |world.claims|
    ensures
      var claim := world.claims[id];
      var started := Put(world, id, claim.(status := Verifying));
      Stalls(world, HandleIndeterminate(started, id, claim, claim.verifyAttempts + 1, details), id, details)
  {
    var claim := world.claims[id];
    var started := claim.(status := Verifying);
    var row := IndeterminateRow(started, claim, claim.verifyAttempts + 1, details);
    WritingTwice(world, id, started, row);
    StalledRow(claim, details);
    assert world.log + [] == world.log;
  }

  lemma StalledRow(claim: Row, details: Data)
    ensures
      var attempt := claim.verifyAttempts + 1;
      var row := IndeterminateRow(claim.(status := Verifying), claim, attempt, details);
      && row.data == JObj(OnRecord(claim) + details + map[
           "outcome" := JStr("indeterminate"), "verifyAttempts" := JNum(attempt as real)])
      && row.reviewReason == Some(FirstOf(
           if "reason" in details && details["reason"].JStr? then details["reason"].s else "indeterminate"))
  {
    var ending: Data := map[
      "outcome" := JStr("indeterminate"), "verifyAttempts" := JNum((claim.verifyAttempts + 1) as real)];
    assert OnRecord(claim) + details + ending == OnRecord(claim) + (details + ending);
    assert forall reason: string | |reason| == 128 :: reason[..128] == reason;
  }

  /** An inconclusive verdict the agent-error question does not divert. */
  lemma InconclusiveStalls(world: World, config: Config, id: nat, input: ProcessInput, verdict: Verdict)
    requires Judged(world, config, id, input, verdict) && verdict.outcome.Inconclusive?
    requires !Diverted(world.claims[id], verdict, input.mandate)
    ensures Stalls(world, Process(world, config, id, input), id, verdict.details)
  {
    PassSplits(world, config, id, input);
    StallingWrites(world, id, verdict.details);
  }

  /** A mandate nobody could read stalls the claim whatever the verdict said. */
  lemma UnreadableMandateStalls(world: World, config: Config, id: nat, input: ProcessInput, verdict: Verdict)
    requires Judged(world, config, id, input, verdict)
    requires AsksAgentError(world.claims[id], verdict) && input.mandate.Unreadable?
    ensures Stalls(world, Process(world, config, id, input), id,
                   verdict.details["reason" := JStr("mandate_unreadable_during_reattribution")])
  {
    PassSplits(world, config, id, input);
    StallingWrites(world, id, verdict.details["reason" := JStr("mandate_unreadable_during_reattribution")]);
  }

  function Named(outcome: Outcome): Json {
    JStr(if outcome == Confirmed then "confirmed" else if outcome == Contradicted then "rejected" else "indeterminate")
  }

  /** A denied loss closes the claim on the verdict, kept whole in the record. */
  lemma DeniedIsRejected(world: World, config: Config, id: nat, input: ProcessInput, verdict: Verdict)
    requires Judged(world, config, id, input, verdict) && DeniesLoss(verdict)
    requires !Diverted(world.claims[id], verdict, input.mandate)
    ensures
      var claim := world.claims[id];
      Writes(world, Process(world, config, id, input), id,
        claim.(
          status := Rejected,
          data := JObj(OnRecord(claim) + map[
            "reason" := JStr("verification_failed"),
            "outcome" := Named(verdict.outcome),
            "details" := JObj(verdict.details)])),
        [])
  {
    var claim := world.claims[id];
    PassSplits(world, config, id, input);
    UnconfirmedEnds(Put(world, id, claim.(status := Verifying)), config, id, claim, verdict,
      HashOf(world, config, id, input), input.submit, input.chainReadable);
    WritingTwice(world, id, claim.(status := Verifying),
      RejectedRow(claim.(status := Verifying), claim, DenialPatch(verdict)));
    assert world.log + [] == world.log;
  }

  /** Why a confirmed loss is not paid. */
  function Reservation(claim: Row, verdict: Verdict): string {
    if verdict.confidence < 0.75 then "confidence_below_review_bar"
    else if claim.trigger == NoTrigger then "no_proof_path_for_trigger"
    else "proof_path_unavailable"
  }

  /** A confirmed loss that does not earn the pay lane goes to a human, with the loss
      measured but no amount to pay. */
  lemma UnprovenLossIsReviewed(world: World, config: Config, id: nat, input: ProcessInput, verdict: Verdict)
    requires Judged(world, config, id, input, verdict) && verdict.outcome.Confirmed? && verdict.lossAmount > 0
    requires !EarnsPay(world.claims[id], config, verdict, HashOf(world, config, id, input))
    requires !Diverted(world.claims[id], verdict, input.mandate)
    ensures
      var claim := world.claims[id];
      var reason := Reservation(claim, verdict);
      Writes(world, Process(world, config, id, input), id,
        claim.(
          status := Review,
          reviewReason := Some(reason),
          lossAmount := Some(verdict.lossAmount),
          data := JObj(OnRecord(claim) + verdict.details + map[
            "reviewReason" := JStr(reason),
            "outcome" := JStr("confirmed"),
            "confidence" := JNum(verdict.confidence)])),
        [])
  {
    var claim, hash := world.claims[id], HashOf(world, config, id, input);
    var started := Put(world, id, claim.(status := Verifying));
    PassSplits(world, config, id, input);
    PayLaneIsEarned(claim, config, verdict, hash);
    PlanIsProvenIff(claim.trigger, claim.data, config, verdict.details, hash);
    ConfirmedGoesByLane(started, config, id, claim, verdict, hash, input.submit, input.chainReadable);
    ReviewWrites(world, id, verdict, Reservation(claim, verdict));
  }

  lemma ReviewWrites(world: World, id: nat, verdict: Verdict, reason: string)
    requires id < |world.claims| && |reason| <= 128 && verdict.outcome.Confirmed?
    ensures
      var claim := world.claims[id];
      var started := Put(world, id, claim.(status := Verifying));
      Writes(world, Put(started, id, ReviewedRow(started.claims[id], claim, verdict, reason)), id,
        claim.(
          status := Review,
          reviewReason := Some(reason),
          lossAmount := Some(verdict.lossAmount),
          data := JObj(OnRecord(claim) + verdict.details + map[
            "reviewReason" := JStr(reason),
            "outcome" := JStr("confirmed"),
            "confidence" := JNum(verdict.confidence)])),
        [])
  {
    var claim := world.claims[id];
    var started := claim.(status := Verifying);
    WritingTwice(world, id, started, ReviewedRow(started, claim, verdict, reason));
    var ending: Data := map[
      "reviewReason" := JStr(reason), "outcome" := JStr("confirmed"), "confidence" := JNum(verdict.confidence)];
    assert OnRecord(claim) + verdict.details + ending == OnRecord(claim) + (verdict.details + ending);
    assert world.log + [] == world.log;
  }

  /** The row a verdict is persisted on. */
  function Persisted(claim: Row, verdict: Verdict, hash: Option<string>, status: Status): Row {
    claim.(
      status := status,
      lossAmount := Some(verdict.lossAmount),
      payoutAmount := Some(verdict.lossAmount),
      verifyAttempts := claim.verifyAttempts + 1,
      reviewReason := None,
      data := JObj(OnRecord(claim) + verdict.details
        + map["outcome" := JStr("confirmed"), "confidence" := JNum(verdict.confidence),
              "verifyAttempts" := JNum((claim.verifyAttempts + 1) as real)]
        + if hash.Some? && hash.value != "" then map["bundleHash" := JStr(hash.value)] else map[]))
  }

  /** A verdict that earns the pay lane is persisted before the chain is called: the
      amounts, the attempt, the merged details and the evidence hash, whether or not
      the submission is then taken to have landed. */
  lemma PayVerdictIsPersisted(world: World, config: Config, id: nat, input: ProcessInput, verdict: Verdict)
    requires Judged(world, config, id, input, verdict) && TakesPayLane(world, config, id, input)
    ensures
      var after := Process(world, config, id, input);
      && OnlyRow(world, after, id)
      && after.claims[id]
         == Persisted(world.claims[id], verdict, HashOf(world, config, id, input), after.claims[id].status)
  {
    var claim, hash := world.claims[id], HashOf(world, config, id, input);
    var started := Put(world, id, claim.(status := Verifying));
    var plan := PlanSeen(world, config, id, input);
    PassSplits(world, config, id, input);
    PayLaneConcludes(started, config, id, claim, verdict, hash, plan, input.submit, input.chainReadable);
    SubmissionKeepsRow(started, id, claim, verdict, hash, plan, input.submit, input.chainReadable);
    RowIsPersisted(claim, verdict, hash, Process(world, config, id, input).claims[id].status);
  }

  lemma PayLaneConcludes(
    started: World, config: Config, id: nat, claim: Row, verdict: Verdict, hash: Option<string>, plan: Plan,
    submit: Report, chainReadable: bool)
    requires id < |started.claims| && EarnsPay(claim, config, verdict, hash)
    requires plan == PlanProvenSettlement(claim.trigger, claim.data, config, verdict.details, hash)
    ensures Conclude(started, config, id, claim, verdict, hash, submit, chainReadable)
         == ApproveAndSubmit(
              started, id, claim, verdict, claim.verifyAttempts + 1, hash, plan, submit, chainReadable)
  {
    PayLaneIsEarned(claim, config, verdict, hash);
    ConfirmedGoesByLane(started, config, id, claim, verdict, hash, submit, chainReadable);
  }

  lemma SubmissionKeepsRow(
    started: World, id: nat, claim: Row, verdict: Verdict, hash: Option<string>, plan: Plan, submit: Report,
    chainReadable: bool)
    requires id < |started.claims|
    ensures
      var attempt := claim.verifyAttempts + 1;
      var after := ApproveAndSubmit(started, id, claim, verdict, attempt, hash, plan, submit, chainReadable);
      && OnlyRow(started, after, id)
      && after.claims[id]
         == PersistedRow(started.claims[id], claim, verdict, attempt, hash).(status := after.claims[id].status)
  {
  }

  lemma RowIsPersisted(claim: Row, verdict: Verdict, hash: Option<string>, status: Status)
    requires verdict.outcome.Confirmed?
    ensures PersistedRow(claim.(status := Verifying), claim, verdict, claim.verifyAttempts + 1, hash).(status := status)
         == Persisted(claim, verdict, hash, status)
  {
    var figures: Data := map["outcome" := JStr("confirmed"), "confidence" := JNum(verdict.confidence),
                             "verifyAttempts" := JNum((claim.verifyAttempts + 1) as real)];
    MergesRegroup(OnRecord(claim), verdict.details, figures, HashPatch(hash));
  }

  lemma MergesRegroup(a: Data, b: Data, c: Data, d: Data)
    ensures a + b + c + d == a + (b + c + d)
  {
  }
}
