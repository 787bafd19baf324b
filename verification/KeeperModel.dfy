/** The claim keeper as a transition system.

    Ingest and process handlers are single steps. The payout handler is split at
    every write and chain call, so a crash or another handler may fall between
    any two of them. Job queues are not stored: any job may be delivered at any
    time and any number of times, and the log records what was enqueued. */
module KeeperModel {
  import opened ClaimTypes
  import opened VerificationRecord
  import opened Settlement

  const MAX_VERIFY_ATTEMPTS := 5
  const MAX_SUPERSEDES := 2.0
  const DEMO_TX_SIGNATURE_PREFIX := "demo_"

  /** Waits, in milliseconds, after the chain says the lock has not elapsed. */
  const LOCK_DEFERRAL_MS: seq<nat> := [5_000, 30_000, 300_000, 1_800_000, 7_200_000, 21_600_000]

  datatype ChainState = ChainActive | ChainClaimPending | ChainClaimPaid | ChainExpired | ChainCancelled

  datatype Policy = Policy(agent: string, coverage: nat, active: bool, createdAt: int)

  datatype Row = Row(
    policyId: nat,
    trigger: Trigger,
    txSignature: string,
    status: Status,
    reviewReason: Option<string>,
    verifyAttempts: nat,
    data: Json,
    lossAmount: Option<int>,
    payoutAmount: Option<int>,
    proofKind: Option<ProofKind>)

  /** What the payout handler holds between two of its writes or calls. `claim`
      is the row as it was loaded. */
  datatype Worker =
    | Idle
    | Loaded(id: nat, claim: Row)
    | Armed(id: nat, claim: Row)
    | Ready(id: nat, claim: Row, plan: Plan)
    | Settled(id: nat, claim: Row, plan: Plan)
    | Refused(id: nat, claim: Row, message: string)
    | Doubted(id: nat, claim: Row, message: string, settled: bool)
    | Stuck(id: nat)

  datatype Event =
    | ClaimOpened(id: nat)
    | RetryScheduled(id: nat)
    | SupersedeQueued(id: nat)
    | RefileQueued(id: nat)
    | PayVerdict(id: nat, trigger: Trigger, outcome: Outcome, amount: int, confidence: real, plan: Plan)
    | PayoutQueued(id: nat)
    | PayoutDeferred(id: nat, delay: nat)
    | SettleCalled(id: nat, policyId: nat, plan: Plan, amount: int, data: Json)
    | SettleLanded(policyId: nat)

  datatype World = World(
    claims: seq<Row>,
    policies: map<nat, Policy>,
    chain: map<nat, ChainState>,
    worker: Worker,
    log: seq<Event>)

  datatype Outcome = Confirmed | Contradicted | Inconclusive

  datatype Verdict = Verdict(outcome: Outcome, lossAmount: int, confidence: real, details: Data)

  datatype MandateRead = Unreadable | NotMatured | Matured

  /** How a transaction was reported. `LandedThenError` hides a success. */
  datatype Report = Confirmation | LandedThenError(error: string) | NeverLanded(error: string)

  // ---------------------------------------------------------------------------
  // Rows and the one-open-claim index
  // ---------------------------------------------------------------------------

  /** Would the partial unique index accept this row at this position? */
  predicate IndexAdmits(claims: seq<Row>, id: nat, row: Row) {
    IsOpen(row.status) ==>
      forall other | 0 <= other < |claims| && other != id ::
        claims[other].policyId == row.policyId ==> !IsOpen(claims[other].status)
  }

  function Put(world: World, id: nat, row: Row): World
    requires id < |world.claims|
  {
    world.(claims := world.claims[id := row])
  }

  function Note(world: World, event: Event): World {
    world.(log := world.log + [event])
  }

  // ---------------------------------------------------------------------------
  // Ingest
  // ---------------------------------------------------------------------------

  /** A bus message after its signature check; absent fields are empty strings. */
  datatype Alert = Alert(
    signed: bool,
    agent: string,
    event: string,
    txSignature: string,
    simulated: bool,
    demoSignature: string)

  function TriggerForEvent(event: string): Option<Trigger> {
    if event == "exploit" then Some(Exploit)
    else if event == "oracle_deviation" then Some(OracleManipulation)
    else if event == "agent_error" then Some(AgentError)
    else if event == "governance_attack" then Some(GovernanceAttack)
    else None
  }

  /** The answer of "newest active policy of this agent". */
  predicate SelectsNewestActive(policies: map<nat, Policy>, agent: string, answer: Option<nat>) {
    match answer
    case None => forall p | p in policies :: !(policies[p].agent == agent && policies[p].active)
    case Some(chosen) =>
      && chosen in policies
      && policies[chosen].agent == agent
      && policies[chosen].active
      && forall p | p in policies ::
           policies[p].agent == agent && policies[p].active ==> policies[p].createdAt <= policies[chosen].createdAt
  }

  function EffectiveSignature(alert: Alert, simulated: bool): string {
    if alert.txSignature != "" then alert.txSignature
    else if simulated then alert.demoSignature
    else ""
  }

  function IngestData(alert: Alert, simulated: bool): Data {
    map["simulated" := JBool(simulated), "eventType" := JStr(alert.event), "source" := JStr("claim-keeper")]
  }

  predicate HoldsOpenClaim(claims: seq<Row>, policyId: nat) {
    exists id :: 0 <= id < |claims| && claims[id].policyId == policyId && IsOpen(claims[id].status)
  }

  /** First parked claim of a policy at or after a position. */
  function FindParked(claims: seq<Row>, policyId: nat, from: nat): (found: Option<nat>)
    requires from <= |claims|
    ensures found.Some? ==>
      && found.value < |claims|
      && claims[found.value].policyId == policyId
      && IsParked(claims[found.value].status)
    ensures found.None? ==>
      forall id :: from <= id < |claims| ==> !(claims[id].policyId == policyId && IsParked(claims[id].status))
    decreases |claims| - from
  {
    if from == |claims| then None
    else if claims[from].policyId == policyId && IsParked(claims[from].status) then Some(from)
    else FindParked(claims, policyId, from + 1)
  }

  /** May this alert take the slot the parked claim holds? */
  predicate EarnsSlot(existing: Row, trigger: Trigger, txSignature: string) {
    var incoming := Specificity(trigger);
    var current := Specificity(existing.trigger);
    var newTransactionOnADeadEnd :=
      IsTransientlyParked(existing.reviewReason) && existing.txSignature != txSignature;
    && (incoming == current ==> newTransactionOnADeadEnd)
    && (incoming < current ==> IsPermanentlyParked(existing.reviewReason))
  }

  function StatusName(status: Status): string {
    if status.Review? then "review" else "indeterminate"
  }

  function TriggerNumber(trigger: Trigger): real {
    match trigger
    case NoTrigger => 0.0
    case Exploit => 1.0
    case OracleManipulation => 2.0
    case AgentError => 3.0
    case GovernanceAttack => 4.0
  }

  /** The row once another trigger has taken the slot. The record is replaced,
      not merged; the attempt count is carried. */
  function Superseded(existing: Row, trigger: Trigger, txSignature: string, ingested: Data): Row {
    existing.(
      trigger := trigger,
      txSignature := txSignature,
      status := Pending,
      reviewReason := None,
      data := JObj(ingested + map[
        "supersededTriggerType" := JNum(TriggerNumber(existing.trigger)),
        "supersededFromStatus" := JStr(StatusName(existing.status)),
        "supersededTxSignature" := JStr(existing.txSignature),
        "supersedeCount" := JNum(SupersedesSoFar(existing.data) + 1.0),
        "supersededReason" := JStr(
          if IsPermanentlyParked(existing.reviewReason) then "unresolvable:" + existing.reviewReason.value
          else "higher_specificity")]))
  }

  function Capped(existing: Row): Row {
    existing.(status := Review, reviewReason := Some("supersede_cap_reached"))
  }

  function SupersedeParked(world: World, policyId: nat, trigger: Trigger, txSignature: string, ingested: Data): World {
    match FindParked(world.claims, policyId, 0)
    case None => world
    case Some(id) =>
      var existing := world.claims[id];
      if !EarnsSlot(existing, trigger, txSignature) then world
      else if SupersedesSoFar(existing.data) + 1.0 > MAX_SUPERSEDES then Put(world, id, Capped(existing))
      else Note(Put(world, id, Superseded(existing, trigger, txSignature, ingested)), SupersedeQueued(id))
  }

  function OpenedRow(policyId: nat, trigger: Trigger, txSignature: string, data: Data): Row {
    Row(policyId, trigger, txSignature, Pending, None, 0, JObj(data), None, None, None)
  }

  function Ingest(world: World, config: Config, alert: Alert, selected: Option<nat>): World {
    var simulated := alert.simulated && SyntheticAllowed(config);
    var trigger := TriggerForEvent(alert.event);
    var signature := EffectiveSignature(alert, simulated);
    if !alert.signed || alert.agent == "" || trigger.None? || selected.None? || signature == "" then world
    else if HoldsOpenClaim(world.claims, selected.value) then
      SupersedeParked(world, selected.value, trigger.value, signature, IngestData(alert, simulated))
    else
      var row := OpenedRow(selected.value, trigger.value, signature, IngestData(alert, simulated));
      Note(world.(claims := world.claims + [row]), ClaimOpened(|world.claims|))
  }

  // ---------------------------------------------------------------------------
  // Process
  // ---------------------------------------------------------------------------

  datatype ProcessInput = ProcessInput(
    verdict: Verdict,
    evidenceHash: Option<string>,
    mandate: MandateRead,
    submit: Report,
    chainReadable: bool)

  /** Four fifths of the coverage at full confidence, looking at nothing on chain. */
  function SyntheticVerdict(coverage: nat): Verdict {
    Verdict(Confirmed, coverage * 4 / 5, 1.0, map["method" := JStr("synthetic"), "simulated" := JBool(true)])
  }

  predicate IsDemoSignature(signature: string) {
    DEMO_TX_SIGNATURE_PREFIX <= signature
  }

  const EXPLOIT_REASONS_MEANING_AGENT_ERROR: set<string> :=
    {"agent_authorized_movement", "authorized_but_anomalous"}

  datatype Reattribution = Reattributed | MandateUnreadable | NotReattributed

  function DecideReattribution(claim: Row, verdict: Verdict, mandate: MandateRead): Reattribution {
    if !claim.trigger.Exploit? then NotReattributed
    else if ReasonOf(verdict.details, "") !in EXPLOIT_REASONS_MEANING_AGENT_ERROR then NotReattributed
    else if AlreadyReattributed(claim.data) then NotReattributed
    else
      match mandate
      case Unreadable => MandateUnreadable
      case NotMatured => NotReattributed
      case Matured => Reattributed
  }

  function Refiled(row: Row, claim: Row, reason: string, hasEvidence: bool): Row {
    row.(
      trigger := AgentError,
      status := Pending,
      data := Merge(claim.data, map[
        "reattributedFrom" := JNum(1.0),
        "reattributionReason" := JStr(reason),
        "reattributionEvidenceRecorded" := JBool(hasEvidence)]))
  }

  function RejectedRow(row: Row, claim: Row, patch: Data): Row {
    row.(status := Rejected, data := Merge(claim.data, patch))
  }

  function ParkedRow(row: Row, claim: Row, reason: string, patch: Data): Row {
    row.(status := Review, reviewReason := Some(Clip(reason)), data := Merge(claim.data, patch))
  }

  function OutcomeName(outcome: Outcome): string {
    match outcome
    case Confirmed => "confirmed"
    case Contradicted => "rejected"
    case Inconclusive => "indeterminate"
  }

  function IndeterminateRow(row: Row, claim: Row, attempt: nat, details: Data): Row {
    row.(
      status := if attempt >= MAX_VERIFY_ATTEMPTS then Review else Indeterminate,
      reviewReason := Some(Clip(ReasonOf(details, "indeterminate"))),
      verifyAttempts := attempt,
      data := Merge(claim.data,
        details + map["outcome" := JStr("indeterminate"), "verifyAttempts" := JNum(attempt as real)]))
  }

  function HandleIndeterminate(world: World, id: nat, claim: Row, attempt: nat, details: Data): World
    requires id < |world.claims|
  {
    var parked := Put(world, id, IndeterminateRow(world.claims[id], claim, attempt, details));
    if attempt >= MAX_VERIFY_ATTEMPTS then parked else Note(parked, RetryScheduled(id))
  }

  /** The chain accepts a submission only on an active policy. */
  function AfterSubmit(state: ChainState, report: Report): ChainState {
    if state.ChainActive? && !report.NeverLanded? then ChainClaimPending else state
  }

  /** Whether the keeper takes the submission to have landed: it was confirmed,
      or the chain can be read and says the claim is pending. */
  predicate TakenAsSubmitted(state: ChainState, report: Report, chainReadable: bool) {
    || (state.ChainActive? && report.Confirmation?)
    || (chainReadable && AfterSubmit(state, report).ChainClaimPending?)
  }

  function PersistedRow(row: Row, claim: Row, verdict: Verdict, attempt: nat, hash: Option<string>): Row {
    row.(
      lossAmount := Some(verdict.lossAmount),
      payoutAmount := Some(verdict.lossAmount),
      data := Merge(claim.data, VerdictPatch(verdict.details, verdict.confidence, attempt, hash)),
      verifyAttempts := attempt,
      reviewReason := None)
  }

  /** Persist the verdict, submit on chain, approve and queue the payout. A
      submission that did not land throws, leaving the row in `verifying`. */
  function ApproveAndSubmit(
    world: World, id: nat, claim: Row, verdict: Verdict, attempt: nat, hash: Option<string>, plan: Plan,
    submit: Report, chainReadable: bool): World
    requires id < |world.claims|
  {
    var persisted := Note(
      Put(world, id, PersistedRow(world.claims[id], claim, verdict, attempt, hash)),
      PayVerdict(id, claim.trigger, verdict.outcome, verdict.lossAmount, verdict.confidence, plan));
    if claim.policyId !in world.chain then persisted
    else
      var state := world.chain[claim.policyId];
      var submitted := persisted.(chain := world.chain[claim.policyId := AfterSubmit(state, submit)]);
      if !TakenAsSubmitted(state, submit, chainReadable) then submitted
      else Note(Put(submitted, id, submitted.claims[id].(status := Approved)), PayoutQueued(id))
  }

  function ReviewedRow(row: Row, claim: Row, verdict: Verdict, reason: string): Row {
    ParkedRow(row, claim, reason,
      verdict.details
      + map["reviewReason" := JStr(reason), "outcome" := JStr(OutcomeName(verdict.outcome)),
            "confidence" := JNum(verdict.confidence)]).(lossAmount := Some(verdict.lossAmount))
  }

  /** What the handler does once the verdict is known and re-filing is settled. */
  function Conclude(world: World, config: Config, id: nat, claim: Row, verdict: Verdict, hash: Option<string>,
                    submit: Report, chainReadable: bool): World
    requires id < |world.claims|
  {
    var attempt := claim.verifyAttempts + 1;
    if verdict.outcome.Inconclusive? then HandleIndeterminate(world, id, claim, attempt, verdict.details)
    else if verdict.outcome.Contradicted? || verdict.lossAmount <= 0 then
      Put(world, id, RejectedRow(world.claims[id], claim, DenialPatch(verdict)))
    else
      var plan := PlanProvenSettlement(claim.trigger, claim.data, config, verdict.details, hash);
      match DecideLane(claim.trigger, verdict.confidence, plan.IsProven())
      case ToReview(reason) => Put(world, id, ReviewedRow(world.claims[id], claim, verdict, reason))
      case Pay(_) => ApproveAndSubmit(world, id, claim, verdict, attempt, hash, plan, submit, chainReadable)
  }

  predicate IsSimulated(claim: Row, config: Config) {
    Get(Base(claim.data), "simulated") == JBool(true) && IsDemoSignature(claim.txSignature) && SyntheticAllowed(config)
  }

  /** The handler from the verdict on, the row already `verifying`. */
  function Adjudicate(world: World, config: Config, id: nat, claim: Row, coverage: nat, input: ProcessInput): World
    requires id < |world.claims|
  {
    var simulated := IsSimulated(claim, config);
    var verdict := if simulated then SyntheticVerdict(coverage) else input.verdict;
    var hash := if simulated then None else input.evidenceHash;
    match DecideReattribution(claim, verdict, input.mandate)
    case Reattributed =>
      var refiled := Refiled(world.claims[id], claim, ReasonOf(verdict.details, ""), hash.Some?);
      Note(Put(world, id, refiled), RefileQueued(id))
    case MandateUnreadable =>
      HandleIndeterminate(world, id, claim, claim.verifyAttempts + 1,
        verdict.details["reason" := JStr("mandate_unreadable_during_reattribution")])
    case NotReattributed =>
      Conclude(world, config, id, claim, verdict, hash, input.submit, input.chainReadable)
  }

  lemma VerdictSplits(
    world: World, config: Config, id: nat, claim: Row, coverage: nat, input: ProcessInput,
    verdict: Verdict, hash: Option<string>)
    requires id < |world.claims|
    requires verdict == if IsSimulated(claim, config) then SyntheticVerdict(coverage) else input.verdict
    requires hash == if IsSimulated(claim, config) then None else input.evidenceHash
    ensures Adjudicate(world, config, id, claim, coverage, input) ==
      match DecideReattribution(claim, verdict, input.mandate)
      case Reattributed =>
        Note(Put(world, id, Refiled(world.claims[id], claim, ReasonOf(verdict.details, ""), hash.Some?)),
             RefileQueued(id))
      case MandateUnreadable =>
        HandleIndeterminate(world, id, claim, claim.verifyAttempts + 1,
          verdict.details["reason" := JStr("mandate_unreadable_during_reattribution")])
      case NotReattributed =>
        Conclude(world, config, id, claim, verdict, hash, input.submit, input.chainReadable)
  {
  }

  function DenialPatch(verdict: Verdict): Data {
    map["reason" := JStr("verification_failed"), "outcome" := JStr(OutcomeName(verdict.outcome)),
        "details" := JObj(verdict.details)]
  }

  lemma UnconfirmedEnds(
    world: World, config: Config, id: nat, claim: Row, verdict: Verdict, hash: Option<string>,
    submit: Report, chainReadable: bool)
    requires id < |world.claims| && !(verdict.outcome.Confirmed? && verdict.lossAmount > 0)
    ensures Conclude(world, config, id, claim, verdict, hash, submit, chainReadable) ==
      if verdict.outcome.Inconclusive? then
        HandleIndeterminate(world, id, claim, claim.verifyAttempts + 1, verdict.details)
      else Put(world, id, RejectedRow(world.claims[id], claim, DenialPatch(verdict)))
  {
  }

  lemma ConfirmedGoesByLane(
    world: World, config: Config, id: nat, claim: Row, verdict: Verdict, hash: Option<string>,
    submit: Report, chainReadable: bool)
    requires id < |world.claims| && verdict.outcome.Confirmed? && verdict.lossAmount > 0
    ensures
      var plan := PlanProvenSettlement(claim.trigger, claim.data, config, verdict.details, hash);
      var lane := DecideLane(claim.trigger, verdict.confidence, plan.IsProven());
      Conclude(world, config, id, claim, verdict, hash, submit, chainReadable) ==
        if lane.ToReview? then Put(world, id, ReviewedRow(world.claims[id], claim, verdict, lane.reason))
        else
          ApproveAndSubmit(world, id, claim, verdict, claim.verifyAttempts + 1, hash, plan, submit, chainReadable)
  {
  }

  /** One whole run of the process handler. It sets `verifying` whatever the
      status was; only the unique index can refuse that write. */
  function Process(world: World, config: Config, id: nat, input: ProcessInput): World {
    if id >= |world.claims| then world
    else
      var claim := world.claims[id];
      var verifying := claim.(status := Verifying);
      if !IndexAdmits(world.claims, id, verifying) then world
      else
        var started := Put(world, id, verifying);
        if claim.policyId !in world.policies then
          Put(started, id, RejectedRow(verifying, claim, map["reason" := JStr("policy_not_indexed")]))
        else Adjudicate(started, config, id, claim, world.policies[claim.policyId].coverage, input)
  }

  // ---------------------------------------------------------------------------
  // Payout, one write or chain call at a time
  // ---------------------------------------------------------------------------

  function WithWorker(world: World, worker: Worker): World {
    world.(worker := worker)
  }

  function Deliver(world: World, id: nat): World {
    if !world.worker.Idle? || id >= |world.claims| then world
    else
      var claim := world.claims[id];
      if claim.status.Approved? || claim.status.Paying? then WithWorker(world, Loaded(id, claim)) else world
  }

  function Amount(claim: Row): int {
    if claim.payoutAmount.Some? then claim.payoutAmount.value else 0
  }

  /** The plan a row settles by, recomputed from what is stored. */
  function RowPlan(row: Row, config: Config): Plan {
    PlanProvenSettlement(row.trigger, row.data, config, map[], None)
  }

  /** The policy and amount gates, then the conditional write of `paying`. */
  function Arm(world: World): World {
    match world.worker
    case Loaded(id, claim) =>
      if id >= |world.claims| then world
      else
        var row := world.claims[id];
        if claim.policyId !in world.policies then
          WithWorker(Put(world, id, RejectedRow(row, claim, map["reason" := JStr("policy_missing_at_payout")])), Idle)
        else if Amount(claim) <= 0 then
          WithWorker(Put(world, id, RejectedRow(row, claim, map["reason" := JStr("payout_amount_missing")])), Idle)
        else if !claim.status.Paying? && row.status.Approved? then
          WithWorker(Put(world, id, row.(status := Paying)), Armed(id, claim))
        else WithWorker(world, Armed(id, claim))
    case _ => world
  }

  /** Park a claim from the payout path; the index may refuse the write, which
      throws and ends the job. */
  function Park(world: World, id: nat, claim: Row, reason: string, patch: Data): World
    requires id < |world.claims|
  {
    var row := ParkedRow(world.claims[id], claim, reason, patch);
    WithWorker(if IndexAdmits(world.claims, id, row) then Put(world, id, row) else world, Idle)
  }

  /** The breaker's answer, then the plan recomputed from the loaded row. */
  function Decide(world: World, config: Config, breakerOk: bool): World {
    match world.worker
    case Armed(id, claim) =>
      if id >= |world.claims| then world
      else if !breakerOk then
        Park(world, id, claim, "auto_payout_limit_exceeded",
          map["reviewReason" := JStr("auto_payout_limit_exceeded")])
      else
        var plan := RowPlan(claim, config);
        if plan.Unprovable? then Park(world, id, claim, plan.reason, map["reason" := JStr(plan.reason)])
        else WithWorker(world, Ready(id, claim, plan))
    case _ => world
  }

  /** Only a pending claim can be settled. */
  predicate SettleLands(chain: map<nat, ChainState>, policyId: nat, report: Report) {
    policyId in chain && chain[policyId].ChainClaimPending? && !report.NeverLanded?
  }

  function ErrorOf(report: Report): string {
    if report.Confirmation? then "transaction reverted" else report.error
  }

  function CallSettle(world: World, report: Report): World {
    match world.worker
    case Ready(id, claim, plan) =>
      var called := Note(world, SettleCalled(id, claim.policyId, plan, Amount(claim), claim.data));
      if !SettleLands(world.chain, claim.policyId, report) then
        WithWorker(called, Refused(id, claim, ErrorOf(report)))
      else
        var landed := Note(
          called.(chain := called.chain[claim.policyId := ChainClaimPaid]), SettleLanded(claim.policyId));
        WithWorker(landed,
          if report.Confirmation? then Settled(id, claim, plan) else Refused(id, claim, report.error))
    case _ => world
  }

  /** What goes wrong after a confirmed settlement: the write that marks the row
      paid throws, or the reload after it does. */
  datatype Fault = NoFault | PaidWriteThrew(error: string) | ReloadThrew(error: string)

  /** Either lands in the handler's own error path, like an error of the call. */
  function Interrupt(world: World, fault: Fault): World {
    match world.worker
    case Settled(id, claim, plan) =>
      if id >= |world.claims| || plan.Unprovable? then world
      else
        (match fault
         case NoFault => world
         case PaidWriteThrew(error) => WithWorker(world, Refused(id, claim, error))
         case ReloadThrew(error) =>
           WithWorker(Put(world, id, PaidRow(world.claims[id], claim, plan)), Refused(id, claim, error)))
    case _ => world
  }

  /** Ask the chain before believing the error; an unreadable chain answers no. */
  function AskChain(world: World, chainReadable: bool): World {
    match world.worker
    case Refused(id, claim, message) =>
      var settled := chainReadable && claim.policyId in world.chain && world.chain[claim.policyId].ChainClaimPaid?;
      WithWorker(world, Doubted(id, claim, message, settled))
    case _ => world
  }

  predicate OccursAt(text: string, word: string, at: nat) {
    at + |word| <= |text| && text[at..at + |word|] == word
  }

  predicate Contains(text: string, word: string) {
    exists at: nat | at <= |text| :: OccursAt(text, word, at)
  }

  predicate IsLockNotElapsed(message: string) {
    Contains(message, "LockPeriodNotElapsed")
  }

  /** The error names the lock, whatever stands around the name. */
  ghost predicate NamesLock(message: string) {
    exists i, j :: 0 <= i <= j <= |message| && message[i..j] == "LockPeriodNotElapsed"
  }

  lemma NamingIsMatching(message: string)
    ensures NamesLock(message) <==> IsLockNotElapsed(message)
  {
    if NamesLock(message) {
      var i, j :| 0 <= i <= j <= |message| && message[i..j] == "LockPeriodNotElapsed";
      assert j == i + |"LockPeriodNotElapsed"|;
      assert OccursAt(message, "LockPeriodNotElapsed", i);
    }
    if IsLockNotElapsed(message) {
      var at: nat :| at <= |message| && OccursAt(message, "LockPeriodNotElapsed", at);
      assert message[at..at + |"LockPeriodNotElapsed"|] == "LockPeriodNotElapsed";
    }
  }

  function DeferralDelay(deferrals: real): Option<nat> {
    var position := deferrals.Floor;
    if position as real == deferrals && 0 <= position < |LOCK_DEFERRAL_MS| then Some(LOCK_DEFERRAL_MS[position])
    else None
  }

  function PaidRow(row: Row, claim: Row, plan: Plan): Row
    requires plan.IsProven()
  {
    row.(status := Paid, payoutAmount := Some(Amount(claim)), proofKind := Some(ProofKindOfPlan(plan)))
  }

  function ReconciledRow(row: Row, claim: Row, message: string): Row {
    row.(
      status := Paid,
      data := Merge(claim.data, map[
        "payoutError" := JStr(message),
        "reconciledFromChain" := JBool(true),
        "note" := JStr("Settled on chain; the signature was lost with the failed confirmation.")]))
  }

  function DeferredRow(row: Row, claim: Row, deferrals: real, message: string): Row {
    row.(data := Merge(claim.data, map["lockDeferrals" := JNum(deferrals), "lastLockError" := JStr(message)]))
  }

  function FailedRow(row: Row, claim: Row, message: string): Row {
    row.(status := Failed, data := Merge(claim.data, map["payoutError" := JStr(message)]))
  }

  /** Wait out the lock while the schedule lasts; past it, the claim is stuck. */
  function Defer(world: World, id: nat, claim: Row, message: string): World
    requires id < |world.claims|
  {
    var row := world.claims[id];
    var deferrals := LockDeferrals(claim.data);
    var delay := DeferralDelay(deferrals);
    if delay.Some? then
      var deferred := DeferredRow(row, claim, deferrals + 1.0, message);
      WithWorker(Note(Put(world, id, deferred), PayoutDeferred(id, delay.value)), Idle)
    else WithWorker(Put(world, id, DeferredRow(row, claim, deferrals, message)), Stuck(id))
  }

  /** After a settle error: believe the chain, else wait, else record a failure. */
  function Reconcile(world: World, id: nat, claim: Row, message: string, settled: bool): World
    requires id < |world.claims|
  {
    var row := world.claims[id];
    if settled then WithWorker(Put(world, id, ReconciledRow(row, claim, message)), Idle)
    else if IsLockNotElapsed(message) then Defer(world, id, claim, message)
    else WithWorker(Put(world, id, FailedRow(row, claim, message)), Idle)
  }

  /** The write that follows the chain's answer. */
  function Record(world: World): World {
    match world.worker
    case Settled(id, claim, plan) =>
      if id >= |world.claims| || plan.Unprovable? then world
      else WithWorker(Put(world, id, PaidRow(world.claims[id], claim, plan)), Idle)
    case Doubted(id, claim, message, settled) =>
      if id >= |world.claims| then world else Reconcile(world, id, claim, message, settled)
    case _ => world
  }

  /** Past the schedule: reload the row and hand it to a human. */
  function Escalate(world: World): World {
    match world.worker
    case Stuck(id) =>
      if id >= |world.claims| then world
      else
        Park(world, id, world.claims[id], "lock_never_elapsed", map["reviewReason" := JStr("lock_never_elapsed")])
    case _ => world
  }

  // ---------------------------------------------------------------------------
  // Everything else that moves
  // ---------------------------------------------------------------------------

  /** The indexer mirrors an on-chain pending claim it finds no row for. */
  function MirrorClaim(world: World, policyId: nat, trigger: Trigger, txSignature: string): World {
    if HoldsOpenClaim(world.claims, policyId) then world
    else world.(claims := world.claims + [MirroredRow(policyId, trigger, txSignature)])
  }

  /** The claim row that stands for one the holder filed on chain. */
  function MirroredRow(policyId: nat, trigger: Trigger, txSignature: string): Row {
    Row(policyId, trigger, txSignature, Approved, None, 0,
      JObj(map["source" := JStr("policy-indexer"), "note" := JStr("mirrored from on-chain ClaimPending")]),
      None, None, None)
  }

  /** Moves of the chain the keeper does not make. A paid policy stays paid. */
  predicate ChainMay(before: ChainState, after: ChainState) {
    match before
    case ChainActive => true
    case ChainClaimPending => !after.ChainActive?
    case ChainClaimPaid => after.ChainClaimPaid?
    case ChainExpired => after.ChainExpired?
    case ChainCancelled => after.ChainCancelled?
  }

  function ChainMoves(world: World, policyId: nat, after: ChainState): World {
    if policyId in world.chain && !ChainMay(world.chain[policyId], after) then world
    else world.(chain := world.chain[policyId := after])
  }

  datatype Step =
    | IngestStep(alert: Alert, selected: Option<nat>)
    | ProcessStep(claimId: nat, input: ProcessInput)
    | DeliverStep(claimId: nat)
    | ArmStep
    | DecideStep(breakerOk: bool)
    | SettleStep(report: Report)
    | FaultStep(fault: Fault)
    | AskStep(chainReadable: bool)
    | RecordStep
    | EscalateStep
    | CrashStep
    | MirrorStep(policyId: nat, mirrored: Trigger, txSignature: string)
    | ReindexStep(policies: map<nat, Policy>)
    | ChainStep(policyId: nat, after: ChainState)

  function Apply(world: World, config: Config, step: Step): World {
    match step
    case IngestStep(alert, selected) => Ingest(world, config, alert, selected)
    case ProcessStep(id, input) => Process(world, config, id, input)
    case DeliverStep(id) => Deliver(world, id)
    case ArmStep => Arm(world)
    case DecideStep(breakerOk) => Decide(world, config, breakerOk)
    case SettleStep(report) => CallSettle(world, report)
    case FaultStep(fault) => Interrupt(world, fault)
    case AskStep(chainReadable) => AskChain(world, chainReadable)
    case RecordStep => Record(world)
    case EscalateStep => Escalate(world)
    case CrashStep => WithWorker(world, Idle)
    case MirrorStep(policyId, trigger, txSignature) => MirrorClaim(world, policyId, trigger, txSignature)
    case ReindexStep(policies) => world.(policies := policies)
    case ChainStep(policyId, after) => ChainMoves(world, policyId, after)
  }

  /** An empty database and an arbitrary chain with nothing paid by this keeper. */
  predicate Initial(world: World) {
    world.claims == [] && world.log == [] && world.worker.Idle?
  }

  function Run(start: World, config: Config, steps: seq<Step>): World {
    if steps == [] then start
    else Apply(Run(start, config, steps[..|steps| - 1]), config, steps[|steps| - 1])
  }
}
