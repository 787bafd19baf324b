/** Which proven instruction a claim settles through, and what a verdict's
    confidence is allowed to authorise. */
module Settlement {
  import opened ClaimTypes
  import opened VerificationRecord

  datatype Config = Config(
    production: bool,
    mainnetBeta: bool,
    mainnetUsdc: bool,
    oracleProofEnabled: bool,
    exploitProofEnabled: bool,
    governanceProofEnabled: bool,
    agentErrorProofEnabled: bool)

  /** The synthetic path needs all three signals to say "not real money". */
  predicate SyntheticAllowed(config: Config) {
    !config.production && !config.mainnetBeta && !config.mainnetUsdc
  }

  datatype Plan =
    | ProvenPrice(proof: Json, triggerBlockTime: real, priceHash: Json)
    | ProvenBalance(balanceHash: Json)
    | ProvenAuthority(authorityHash: Json)
    | ProvenMandate(mandateHash: Json)
    | Unprovable(reason: string)
  {
    predicate IsProven() { !Unprovable? }
  }

  function ProofKindOfPlan(plan: Plan): ProofKind
    requires plan.IsProven()
  {
    match plan
    case ProvenPrice(_, _, _) => PriceProof
    case ProvenBalance(_) => BalanceProof
    case ProvenAuthority(_) => AuthorityProof
    case ProvenMandate(_) => MandateProof
  }

  /** A hash reaches the record only when it is a non-empty string. */
  function HashPatch(bundleHash: Option<string>): Data {
    if bundleHash.Some? && bundleHash.value != "" then map["bundleHash" := JStr(bundleHash.value)] else map[]
  }

  function SignedUpdate(proof: Json): Json {
    if proof.JObj? then Get(proof.fields, "signedUpdateHex") else JNull
  }

  /** The planner over an already merged record. */
  function PlanOf(trigger: Trigger, data: Data, config: Config): Plan {
    var hash := Get(data, "bundleHash");
    if Get(data, "simulated") == JBool(true) then Unprovable("simulated_claim_has_no_chain_evidence")
    else
      match trigger
      case OracleManipulation =>
        if !config.oracleProofEnabled then Unprovable("proof_path_disabled")
        else if !Truthy(SignedUpdate(Get(data, "proof"))) then Unprovable("no_signed_price_evidence")
        else if !Get(data, "blockTime").JNum? then Unprovable("no_trigger_block_time")
        else if !Truthy(hash) then Unprovable("no_bundle_hash")
        else ProvenPrice(Get(data, "proof"), Get(data, "blockTime").n, hash)
      case Exploit =>
        if !config.exploitProofEnabled then Unprovable("proof_path_disabled")
        else if !Truthy(hash) then Unprovable("no_bundle_hash")
        else ProvenBalance(hash)
      case GovernanceAttack =>
        if !config.governanceProofEnabled then Unprovable("proof_path_disabled")
        else if !Truthy(hash) then Unprovable("no_bundle_hash")
        else ProvenAuthority(hash)
      case AgentError =>
        if !config.agentErrorProofEnabled then Unprovable("proof_path_disabled")
        else if !Truthy(hash) then Unprovable("no_bundle_hash")
        else if Get(data, "breachProvable") != JBool(true) then Unprovable("breach_not_chain_checkable")
        else ProvenMandate(hash)
      case NoTrigger => Unprovable("no_proof_path_for_trigger")
  }

  /** The plan for a row, with what the current pass established merged on top. */
  function PlanProvenSettlement(
    trigger: Trigger, stored: Json, config: Config, freshDetails: Data, freshHash: Option<string>): Plan
  {
    PlanOf(trigger, Base(stored) + freshDetails + HashPatch(freshHash), config)
  }

  const AUTO_PAY_CONFIDENCE := 0.95
  const CONFIDENCE_CEILING := 0.92
  const REVIEW_CONFIDENCE := 0.75

  datatype Lane = Pay(requiresChainProof: bool) | ToReview(reason: string)

  predicate HasProofPath(trigger: Trigger) {
    !trigger.NoTrigger?
  }

  /** What a confirmed verdict earns. */
  function DecideLane(trigger: Trigger, confidence: real, proofAvailable: bool): Lane {
    if confidence >= AUTO_PAY_CONFIDENCE then Pay(false)
    else if confidence < REVIEW_CONFIDENCE then ToReview("confidence_below_review_bar")
    else if !proofAvailable then
      ToReview(if HasProofPath(trigger) then "proof_path_unavailable" else "no_proof_path_for_trigger")
    else Pay(true)
  }

  /** What the keeper persists when a verdict earns the pay lane. */
  function VerdictPatch(details: Data, confidence: real, attempt: nat, bundleHash: Option<string>): Data {
    details
    + map["outcome" := JStr("confirmed"), "confidence" := JNum(confidence), "verifyAttempts" := JNum(attempt as real)]
    + HashPatch(bundleHash)
  }

  /** The keys the planner reads. */
  const PLAN_KEYS: set<string> := {"simulated", "bundleHash", "proof", "blockTime", "breachProvable"}

  lemma PlanReadsOnlyItsKeys(trigger: Trigger, a: Data, b: Data, config: Config)
    requires forall key | key in PLAN_KEYS :: Get(a, key) == Get(b, key)
    ensures PlanOf(trigger, a, config) == PlanOf(trigger, b, config)
  {
    assert {"simulated", "bundleHash", "proof", "blockTime", "breachProvable"} <= PLAN_KEYS;
  }

  /** A merge that stays off the planner's keys leaves the plan alone. */
  lemma PlanIgnoresOtherKeys(trigger: Trigger, stored: Json, patch: Data, config: Config)
    requires patch.Keys !! PLAN_KEYS
    ensures PlanProvenSettlement(trigger, Merge(stored, patch), config, map[], None)
         == PlanProvenSettlement(trigger, stored, config, map[], None)
  {
    var before := Base(stored) + map[] + HashPatch(None);
    var after := Base(Merge(stored, patch)) + map[] + HashPatch(None);
    forall key | key in PLAN_KEYS
      ensures Get(after, key) == Get(before, key)
    {
      assert key !in patch;
    }
    PlanReadsOnlyItsKeys(trigger, after, before, config);
  }

  // ---------------------------------------------------------------------------
  // What a plan rests on
  // ---------------------------------------------------------------------------

  /** What the planner finds under a key: this pass's hash, else its details, else
      the stored record. */
  function Found(stored: Json, details: Data, hash: Option<string>, key: string): Json {
    if key == "bundleHash" && hash.Some? && hash.value != "" then JStr(hash.value)
    else if key in details then details[key]
    else if stored.JObj? && key in stored.fields then stored.fields[key]
    else JNull
  }

  predicate Falsy(v: Json) {
    v == JNull || v == JBool(false) || v == JNum(0.0) || v == JStr("")
  }

  /** A signed price update is attached. */
  predicate IsSigned(proof: Json) {
    proof.JObj? && "signedUpdateHex" in proof.fields && !Falsy(proof.fields["signedUpdateHex"])
  }

  predicate PathEnabled(trigger: Trigger, config: Config) {
    || (trigger == OracleManipulation && config.oracleProofEnabled)
    || (trigger == Exploit && config.exploitProofEnabled)
    || (trigger == GovernanceAttack && config.governanceProofEnabled)
    || (trigger == AgentError && config.agentErrorProofEnabled)
  }

  /** Everything the chain needs to check a claim under this trigger is on record. */
  predicate Provable(trigger: Trigger, stored: Json, config: Config, details: Data, hash: Option<string>) {
    && Found(stored, details, hash, "simulated") != JBool(true)
    && PathEnabled(trigger, config)
    && !Falsy(Found(stored, details, hash, "bundleHash"))
    && (trigger == OracleManipulation ==>
          && IsSigned(Found(stored, details, hash, "proof"))
          && Found(stored, details, hash, "blockTime").JNum?)
    && (trigger == AgentError ==> Found(stored, details, hash, "breachProvable") == JBool(true))
  }

  lemma FoundIsGot(stored: Json, details: Data, hash: Option<string>, key: string)
    ensures Get(Base(stored) + details + HashPatch(hash), key) == Found(stored, details, hash, key)
  {
  }

  lemma TruthyIsNotFalsy(v: Json)
    ensures Truthy(v) <==> !Falsy(v)
  {
  }

  /** A claim is planned as proven exactly when its evidence is on record, by the
      instruction of its own trigger, and carries that evidence. */
  lemma PlanIsProvenIff(trigger: Trigger, stored: Json, config: Config, details: Data, hash: Option<string>)
    ensures
      var plan := PlanProvenSettlement(trigger, stored, config, details, hash);
      && (plan.IsProven() <==> Provable(trigger, stored, config, details, hash))
      && (plan.IsProven() ==>
            var bundle := Found(stored, details, hash, "bundleHash");
            plan ==
              if trigger == OracleManipulation then
                ProvenPrice(Found(stored, details, hash, "proof"), Found(stored, details, hash, "blockTime").n, bundle)
              else if trigger == Exploit then ProvenBalance(bundle)
              else if trigger == GovernanceAttack then ProvenAuthority(bundle)
              else ProvenMandate(bundle))
  {
    FindsEvidence(stored, details, hash);
    TruthyIsNotFalsy(Found(stored, details, hash, "bundleHash"));
    TruthyIsNotFalsy(SignedUpdate(Found(stored, details, hash, "proof")));
  }

  lemma FindsEvidence(stored: Json, details: Data, hash: Option<string>)
    ensures
      var data := Base(stored) + details + HashPatch(hash);
      && Get(data, "simulated") == Found(stored, details, hash, "simulated")
      && Get(data, "bundleHash") == Found(stored, details, hash, "bundleHash")
      && Get(data, "proof") == Found(stored, details, hash, "proof")
      && Get(data, "blockTime") == Found(stored, details, hash, "blockTime")
      && Get(data, "breachProvable") == Found(stored, details, hash, "breachProvable")
  {
    FoundIsGot(stored, details, hash, "simulated");
    FoundIsGot(stored, details, hash, "bundleHash");
    FoundIsGot(stored, details, hash, "proof");
    FoundIsGot(stored, details, hash, "blockTime");
    FoundIsGot(stored, details, hash, "breachProvable");
  }

  /** A plan that cannot be proven says what is missing: the first of these that is. */
  lemma RefusalNamesWhatIsMissing(
    trigger: Trigger, stored: Json, config: Config, details: Data, hash: Option<string>)
    requires !Provable(trigger, stored, config, details, hash)
    ensures
      var simulated := Found(stored, details, hash, "simulated") == JBool(true);
      var hashless := Falsy(Found(stored, details, hash, "bundleHash"));
      PlanProvenSettlement(trigger, stored, config, details, hash) == Unprovable(
        if simulated then "simulated_claim_has_no_chain_evidence"
        else if trigger == NoTrigger then "no_proof_path_for_trigger"
        else if !PathEnabled(trigger, config) then "proof_path_disabled"
        else if trigger == OracleManipulation && !IsSigned(Found(stored, details, hash, "proof")) then
          "no_signed_price_evidence"
        else if trigger == OracleManipulation && !Found(stored, details, hash, "blockTime").JNum? then
          "no_trigger_block_time"
        else if hashless then "no_bundle_hash"
        else "breach_not_chain_checkable")
  {
    FindsEvidence(stored, details, hash);
    TruthyIsNotFalsy(Found(stored, details, hash, "bundleHash"));
    TruthyIsNotFalsy(SignedUpdate(Found(stored, details, hash, "proof")));
  }

  predicate Records(data: Json, key: string, value: Json) {
    data.JObj? && key in data.fields && data.fields[key] == value
  }

  /** A record carries the evidence a plan claims to settle on. */
  predicate Evidences(data: Json, plan: Plan) {
    match plan
    case ProvenPrice(proof, at, hash) =>
      && Records(data, "proof", proof) && IsSigned(proof)
      && Records(data, "blockTime", JNum(at)) && Records(data, "bundleHash", hash) && !Falsy(hash)
    case ProvenBalance(hash) => Records(data, "bundleHash", hash) && !Falsy(hash)
    case ProvenAuthority(hash) => Records(data, "bundleHash", hash) && !Falsy(hash)
    case ProvenMandate(hash) =>
      Records(data, "bundleHash", hash) && !Falsy(hash) && Records(data, "breachProvable", JBool(true))
    case Unprovable(_) => false
  }

  /** A plan settles by the instruction of its own trigger. */
  predicate Fits(trigger: Trigger, plan: Plan) {
    match plan
    case ProvenPrice(_, _, _) => trigger == OracleManipulation
    case ProvenBalance(_) => trigger == Exploit
    case ProvenAuthority(_) => trigger == GovernanceAttack
    case ProvenMandate(_) => trigger == AgentError
    case Unprovable(_) => true
  }

  /** A plan drawn from a stored record alone is evidenced by that record. */
  lemma StoredPlanIsEvidenced(trigger: Trigger, stored: Json, config: Config)
    ensures
      var plan := PlanProvenSettlement(trigger, stored, config, map[], None);
      plan.IsProven() ==>
        Evidences(stored, plan) && Fits(trigger, plan) && !Records(stored, "simulated", JBool(true))
  {
    PlanIsProvenIff(trigger, stored, config, map[], None);
  }

  /** What a confirmed verdict earns, to the threshold: at 0.95 it pays outright, from
      0.75 it pays if the chain can check it, and otherwise a human is told why not. */
  lemma LaneIsExact(trigger: Trigger, confidence: real, proofAvailable: bool)
    ensures
      DecideLane(trigger, confidence, proofAvailable) ==
        if confidence >= 0.95 || (confidence >= 0.75 && proofAvailable) then Pay(confidence < 0.95)
        else ToReview(
          if confidence < 0.75 then "confidence_below_review_bar"
          else if trigger == NoTrigger then "no_proof_path_for_trigger"
          else "proof_path_unavailable")
  {
  }

  lemma PlanKeySurvives(
    stored: Json, details: Data, confidence: real, attempt: nat, hash: Option<string>, key: string)
    requires key !in {"outcome", "confidence", "verifyAttempts"}
    ensures
      Get(Base(Merge(stored, VerdictPatch(details, confidence, attempt, hash))) + map[] + HashPatch(None), key)
      == Get(Base(stored) + details + HashPatch(hash), key)
  {
  }

  /** The plan the lane saw, from the stored record plus the pass's own details
      and hash, is the plan payout recomputes from the persisted row. */
  lemma PlanSurvivesPersistence(
    trigger: Trigger, stored: Json, details: Data, confidence: real, attempt: nat, hash: Option<string>, config: Config)
    ensures
      PlanProvenSettlement(
        trigger, Merge(stored, VerdictPatch(details, confidence, attempt, hash)), config, map[], None)
      == PlanProvenSettlement(trigger, stored, config, details, hash)
  {
    var seen := Base(stored) + details + HashPatch(hash);
    var recomputed := Base(Merge(stored, VerdictPatch(details, confidence, attempt, hash))) + map[] + HashPatch(None);
    forall key | key in PLAN_KEYS ensures Get(recomputed, key) == Get(seen, key) {
      PlanKeySurvives(stored, details, confidence, attempt, hash, key);
    }
    PlanReadsOnlyItsKeys(trigger, recomputed, seen, config);
  }

  /** Off-chain analysis alone never reaches a payout: a verdict at or under the
      adjudicators' ceiling pays only when the chain can check it, and exactly
      when it also clears the review bar. */
  lemma CeilingNeverPaysUnproven(trigger: Trigger, confidence: real, proofAvailable: bool)
    requires confidence <= CONFIDENCE_CEILING
    ensures DecideLane(trigger, confidence, proofAvailable).Pay? <==> proofAvailable && confidence >= REVIEW_CONFIDENCE
    ensures DecideLane(trigger, confidence, proofAvailable).Pay?
        ==> DecideLane(trigger, confidence, proofAvailable).requiresChainProof
  {
  }
}
