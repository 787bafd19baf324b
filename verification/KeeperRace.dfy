/** What a payout can do to a claim that a process pass took up meanwhile, and that
    a settlement lost to its row is reached from an empty database. */
module KeeperRace {
  import opened ClaimTypes
  import opened VerificationRecord
  import opened Settlement
  import opened KeeperModel
  import opened KeeperBounds
  import opened ClaimKeeper
  import KeeperSerial
  import PayoutPaths
  import PlanStability
  import Verdicts

  const CONFIG := Config(true, true, true, false, true, false, false)

  const START := World([], map[0 := Policy("agent", 100, true, 0)], map[0 := ChainActive], Idle, [])

  function AlertStep(event: string): Step {
    IngestStep(Alert(true, "agent", event, "tx", false, ""), Some(0))
  }

  /** A confirmed loss of ten that only a proof can pay, and the proof's hash. */
  const APPROVE := ProcessStep(0,
    ProcessInput(Verdict(Confirmed, 10, 0.9, map[]), Some("hash"), NotMatured, Confirmation, true))

  /** The same verdict on other evidence. */
  const APPROVE_AGAIN := ProcessStep(0,
    ProcessInput(Verdict(Confirmed, 10, 0.9, map[]), Some("other"), NotMatured, Confirmation, true))

  const NO_MANDATE: Data := map["reason" := JStr("no_mandate_declared")]

  /** A pass that parks the claim on a reason no retry can clear. */
  const STALL := ProcessStep(0,
    ProcessInput(Verdict(Inconclusive, 0, 0.0, NO_MANDATE), None, NotMatured, Confirmation, true))

  const LOCKED := "LockPeriodNotElapsed"

  ghost predicate OneClaim(world: World) {
    |world.claims| == 1 && world.claims[0].policyId == 0 && world.policies == START.policies
  }

  function Supersedes(log: seq<Event>): nat {
    multiset(log)[SupersedeQueued(0)]
  }

  lemma SupersedesAfter(log: seq<Event>, event: Event)
    ensures Supersedes(log + [event]) == Supersedes(log) + if event == SupersedeQueued(0) then 1 else 0
  {
    assert multiset(log + [event]) == multiset(log) + multiset{event};
  }

  /** A run is taken a step further. */
  lemma OneMore(steps: seq<Step>, step: Step) returns (longer: seq<Step>)
    requires KeeperSerial.AllOffKeys(steps) && KeeperSerial.OffKeys(step)
    ensures KeeperSerial.AllOffKeys(longer)
    ensures Run(START, CONFIG, longer) == Apply(Run(START, CONFIG, steps), CONFIG, step)
  {
    longer := steps + [step];
    RunThen(START, CONFIG, steps, step);
  }

  // ---------------------------------------------------------------------------
  // Up to a settlement that comes back with an error
  // ---------------------------------------------------------------------------

  /** Nothing the keeper counts by is in the record. */
  predicate Blank(data: Json) {
    SupersedesSoFar(data) == 0.0 && LockDeferrals(data) == 0.0
  }

  ghost predicate Opened(world: World) {
    && OneClaim(world) && world.worker.Idle? && world.chain == START.chain && Supersedes(world.log) == 0
    && var row := world.claims[0];
       && row.status.Pending? && row.trigger.Exploit? && row.verifyAttempts == 0 && Blank(row.data)
       && Get(Base(row.data), "simulated") == JBool(false)
  }

  /** A copy of the approved row, as a payout takes it. */
  ghost predicate IsCopy(claim: Row) {
    && claim.policyId == 0 && claim.trigger.Exploit? && Blank(claim.data)
    && Get(Base(claim.data), "simulated") == JBool(false)
    && RowPlan(claim, CONFIG) == ProvenBalance(JStr("hash"))
  }

  ghost predicate Approved(world: World) {
    && OneClaim(world) && world.worker.Idle? && world.chain == map[0 := ChainClaimPending]
    && Supersedes(world.log) == 0
    && var row := world.claims[0];
       && row.status.Approved? && row.verifyAttempts == 1 && Amount(row) == 10 && IsCopy(row)
  }

  /** The payout has an error in hand and could not read the chain. */
  ghost predicate InDoubt(world: World, error: string, landed: bool) {
    && OneClaim(world) && Supersedes(world.log) == 0
    && world.chain == map[0 := if landed then ChainClaimPaid else ChainClaimPending]
    && (var row := world.claims[0]; row.status.Paying? && row.verifyAttempts == 1 && IsCopy(row))
    && world.worker.Doubted? && world.worker.id == 0 && world.worker.message == error && !world.worker.settled
    && IsCopy(world.worker.claim)
  }

  lemma Opening()
    ensures Opened(Apply(START, CONFIG, AlertStep("exploit")))
  {
    var row := OpenedRow(0, Exploit, "tx", IngestData(AlertStep("exploit").alert, false));
    assert Apply(START, CONFIG, AlertStep("exploit")) == START.(claims := [row], log := [] + [ClaimOpened(0)]);
    SupersedesAfter([], ClaimOpened(0));
  }

  function Persisted(claim: Row): Row {
    PersistedRow(claim.(status := Verifying), claim, APPROVE.input.verdict, claim.verifyAttempts + 1, Some("hash"))
  }

  lemma PlanByHash(data: Json, hash: string)
    requires Get(Base(data), "simulated") == JBool(false) && hash != ""
    ensures PlanProvenSettlement(Exploit, data, CONFIG, map[], Some(hash)) == ProvenBalance(JStr(hash))
  {
  }

  lemma PersistedIsBlank(data: Json, confidence: real, attempt: nat)
    requires Blank(data)
    ensures
      var stored := Merge(data, VerdictPatch(map[], confidence, attempt, Some("hash")));
      Blank(stored) && Get(Base(stored), "simulated") == Get(Base(data), "simulated")
  {
  }

  lemma PersistedView(claim: Row)
    requires claim.policyId == 0 && claim.trigger.Exploit?
    requires Blank(claim.data) && Get(Base(claim.data), "simulated") == JBool(false)
    ensures
      var row := Persisted(claim).(status := Status.Approved);
      Amount(row) == 10 && IsCopy(row)
  {
    PlanByHash(claim.data, "hash");
    PersistedIsBlank(claim.data, 0.9, claim.verifyAttempts + 1);
    PlanSurvivesPersistence(Exploit, claim.data, map[], 0.9, claim.verifyAttempts + 1, Some("hash"), CONFIG);
  }

  /** The approving pass writes the verdict, submits, approves and queues. */
  lemma ApprovalWrites(world: World, plan: Plan)
    requires Opened(world)
    requires plan == PlanProvenSettlement(Exploit, world.claims[0].data, CONFIG, map[], Some("hash"))
    requires plan.IsProven()
    ensures
      var claim := world.claims[0];
      var verdict := PayVerdict(0, Exploit, Confirmed, 10, 0.9, plan);
      Apply(world, CONFIG, APPROVE) == World(
        [Persisted(claim).(status := Status.Approved)], world.policies, map[0 := ChainClaimPending], Idle,
        world.log + [verdict] + [PayoutQueued(0)])
  {
    var claim := world.claims[0];
    var started := Put(world, 0, claim.(status := Verifying));
    assert Verdicts.Admitted(world, 0);
    Verdicts.PassSplits(world, CONFIG, 0, APPROVE.input);
    ConfirmedGoesByLane(started, CONFIG, 0, claim, APPROVE.input.verdict, Some("hash"), Confirmation, true);
    SubmissionWrites(started, claim, plan);
  }

  lemma SubmissionWrites(started: World, claim: Row, plan: Plan)
    requires |started.claims| == 1 && started.claims[0] == claim.(status := Verifying)
    requires started.chain == START.chain && claim.policyId == 0 && claim.trigger.Exploit? && started.worker.Idle?
    ensures
      var verdict := PayVerdict(0, Exploit, Confirmed, 10, 0.9, plan);
      ApproveAndSubmit(started, 0, claim, APPROVE.input.verdict, claim.verifyAttempts + 1, Some("hash"), plan,
                       Confirmation, true)
      == World([Persisted(claim).(status := Status.Approved)], started.policies, map[0 := ChainClaimPending], Idle,
               started.log + [verdict] + [PayoutQueued(0)])
  {
  }

  lemma Approval(world: World)
    requires Opened(world)
    ensures Approved(Apply(world, CONFIG, APPROVE))
  {
    var claim := world.claims[0];
    var plan := PlanProvenSettlement(Exploit, claim.data, CONFIG, map[], Some("hash"));
    PlanByHash(claim.data, "hash");
    PersistedView(claim);
    ApprovalWrites(world, plan);
    var verdict := PayVerdict(0, Exploit, Confirmed, 10, 0.9, plan);
    SupersedesAfter(world.log, verdict);
    SupersedesAfter(world.log + [verdict], PayoutQueued(0));
  }

  /** The payout holds the approved row and is about to call the chain. */
  ghost predicate AtCall(world: World) {
    && OneClaim(world) && world.chain == map[0 := ChainClaimPending] && Supersedes(world.log) == 0
    && (var row := world.claims[0]; row.status.Paying? && row.verifyAttempts == 1 && IsCopy(row))
    && world.worker.Ready? && world.worker.id == 0 && IsCopy(world.worker.claim)
  }

  lemma PoisedIsAtCall(world: World)
    requires Approved(world)
    ensures AtCall(PayoutPaths.Poised(world, CONFIG, 0))
  {
  }

  /** The settle call with an error, and the read-back that fails. */
  lemma CallFails(world: World, report: Report)
    requires AtCall(world) && !report.Confirmation?
    ensures InDoubt(AskChain(CallSettle(world, report), false), report.error, report.LandedThenError?)
  {
    var after := AskChain(CallSettle(world, report), false);
    CallKeeps(world, report);
    assert after.claims == world.claims && after.worker.claim == world.worker.claim;
  }

  /** What the call and the failed read-back leave as it was, and what they do not. */
  lemma CallKeeps(world: World, report: Report)
    requires world.worker.Ready? && world.worker.id == 0 && world.worker.claim.policyId == 0
    requires world.chain == map[0 := ChainClaimPending] && !report.Confirmation?
    ensures
      var after := AskChain(CallSettle(world, report), false);
      && after.claims == world.claims && after.policies == world.policies
      && after.worker == Doubted(0, world.worker.claim, report.error, false)
      && after.chain == map[0 := if report.LandedThenError? then ChainClaimPaid else ChainClaimPending]
      && Supersedes(after.log) == Supersedes(world.log)
  {
    var Ready(id, claim, plan) := world.worker;
    var call := SettleCalled(id, claim.policyId, plan, Amount(claim), claim.data);
    SettleUnfolds(world, id, claim, plan, report);
    assert world.(worker := Ready(id, claim, plan)) == world;
    SupersedesAfter(world.log, call);
    SupersedesAfter(world.log + [call], SettleLanded(claim.policyId));
  }

  lemma ApprovalIsReached() returns (steps: seq<Step>)
    ensures KeeperSerial.AllOffKeys(steps) && Approved(Run(START, CONFIG, steps))
  {
    Opening();
    steps := OneMore([], AlertStep("exploit"));
    Approval(Run(START, CONFIG, steps));
    steps := OneMore(steps, APPROVE);
  }

  /** A delivered payout goes up to the call. */
  lemma CallIsReached() returns (steps: seq<Step>)
    ensures KeeperSerial.AllOffKeys(steps) && AtCall(Run(START, CONFIG, steps))
  {
    steps := ApprovalIsReached();
    var world := Run(START, CONFIG, steps);
    PayoutPaths.CallablePassReachesChain(world, CONFIG, 0, PayoutInput(true, Confirmation, NoFault, true));
    PoisedIsAtCall(world);
    steps := ThreeMore(steps, DeliverStep(0), ArmStep, DecideStep(true));
  }

  lemma ThreeMore(steps: seq<Step>, a: Step, b: Step, c: Step) returns (longer: seq<Step>)
    requires KeeperSerial.AllOffKeys(steps) && KeeperSerial.AllOffKeys([a, b, c])
    ensures KeeperSerial.AllOffKeys(longer)
    ensures Run(START, CONFIG, longer)
         == Apply(Apply(Apply(Run(START, CONFIG, steps), CONFIG, a), CONFIG, b), CONFIG, c)
  {
    longer := steps + [a, b, c];
    RunConcat(START, CONFIG, steps, [a, b, c]);
    RunOfThree(Run(START, CONFIG, steps), CONFIG, a, b, c);
  }

  lemma CallAndAsk(steps: seq<Step>, report: Report) returns (longer: seq<Step>)
    requires KeeperSerial.AllOffKeys(steps)
    ensures KeeperSerial.AllOffKeys(longer)
    ensures Run(START, CONFIG, longer) == AskChain(CallSettle(Run(START, CONFIG, steps), report), false)
  {
    longer := OneMore(steps, SettleStep(report));
    longer := OneMore(longer, AskStep(false));
  }

  lemma ErrorIsReached(report: Report) returns (steps: seq<Step>)
    requires !report.Confirmation?
    ensures KeeperSerial.AllOffKeys(steps)
    ensures InDoubt(Run(START, CONFIG, steps), report.error, report.LandedThenError?)
  {
    var before := CallIsReached();
    steps := CallAndAsk(before, report);
    CallFails(Run(START, CONFIG, before), report);
  }

  // ---------------------------------------------------------------------------
  // A landed settlement recorded as failed
  // ---------------------------------------------------------------------------

  /** From an empty database: an alert, a pass, a payout whose settlement lands while
      its confirmation and the read-back after it are lost. The chain has paid and
      the row says failed. */
  lemma LostSettlementIsReached() returns (steps: seq<Step>)
    ensures Initial(START) && KeeperSerial.AllOffKeys(steps)
    ensures
      var world := Run(START, CONFIG, steps);
      && |world.claims| == 1 && world.claims[0].status.Failed?
      && world.claims[0].policyId == 0 && world.chain == map[0 := ChainClaimPaid]
  {
    steps := ErrorIsReached(LandedThenError("timeout"));
    LosingWrites(Run(START, CONFIG, steps));
    steps := OneMore(steps, RecordStep);
  }

  lemma LosingWrites(world: World)
    requires InDoubt(world, "timeout", true)
    ensures
      var after := Apply(world, CONFIG, RecordStep);
      && |after.claims| == 1 && after.claims[0].status.Failed? && after.claims[0].policyId == 0
      && after.chain == world.chain
  {
    assert !IsLockNotElapsed("timeout");
  }

  // ---------------------------------------------------------------------------
  // Three supersedes of one claim
  // ---------------------------------------------------------------------------

  /** One claim under `trigger`, taken over `count` times by its own record and
      `logged` times by the log, while the payout still holds the approved copy. */
  ghost predicate Stage(
    world: World, trigger: Trigger, status: Status, attempts: nat, count: nat, logged: nat)
  {
    && OneClaim(world)
    && (var row := world.claims[0];
        && row.trigger == trigger && row.status == status && row.verifyAttempts == attempts
        && SupersedesSoFar(row.data) == count as real
        && (status.Indeterminate? ==> row.reviewReason == Some("no_mandate_declared")))
    && Supersedes(world.log) == logged
  }

  function Stalled(claim: Row): Row {
    IndeterminateRow(claim.(status := Verifying), claim, claim.verifyAttempts + 1, NO_MANDATE)
  }

  lemma StallWrites(world: World)
    requires OneClaim(world) && world.claims[0].verifyAttempts < 4
    ensures Apply(world, CONFIG, STALL)
         == Note(world.(claims := [Stalled(world.claims[0])]), RetryScheduled(0))
  {
    var claim := world.claims[0];
    assert Verdicts.Admitted(world, 0);
    Verdicts.PassSplits(world, CONFIG, 0, STALL.input);
    var started := Put(world, 0, claim.(status := Verifying));
    UnconfirmedEnds(started, CONFIG, 0, claim, STALL.input.verdict, None, Confirmation, true);
    assert Put(started, 0, Stalled(claim)) == world.(claims := [Stalled(claim)]);
  }

  lemma StalledView(claim: Row)
    requires claim.verifyAttempts < 4
    ensures
      var row := Stalled(claim);
      && row.status.Indeterminate? && row.trigger == claim.trigger && row.policyId == claim.policyId
      && row.verifyAttempts == claim.verifyAttempts + 1
      && row.reviewReason == Some("no_mandate_declared")
      && SupersedesSoFar(row.data) == SupersedesSoFar(claim.data)
  {
    IndeterminateView(claim.(status := Verifying), claim, claim.verifyAttempts + 1, NO_MANDATE);
  }

  lemma Stall(world: World, trigger: Trigger, status: Status, attempts: nat, count: nat, logged: nat)
    requires Stage(world, trigger, status, attempts, count, logged) && attempts < 4
    ensures Stage(Apply(world, CONFIG, STALL), trigger, Indeterminate, attempts + 1, count, logged)
    ensures Apply(world, CONFIG, STALL).worker == world.worker
  {
    StallWrites(world);
    StalledView(world.claims[0]);
    SupersedesAfter(world.log, RetryScheduled(0));
  }

  lemma AlertWrites(world: World, event: string, trigger: Trigger)
    requires OneClaim(world) && TriggerForEvent(event) == Some(trigger)
    requires
      var row := world.claims[0];
      row.status.Indeterminate? && row.reviewReason == Some("no_mandate_declared")
      && row.trigger != trigger && SupersedesSoFar(row.data) <= 1.0
    ensures
      var ingested := IngestData(AlertStep(event).alert, false);
      Apply(world, CONFIG, AlertStep(event)) == Note(
        world.(claims := [Superseded(world.claims[0], trigger, "tx", ingested)]), SupersedeQueued(0))
  {
    var row := world.claims[0];
    SpecificityIsInjective(trigger, row.trigger);
    assert "no_mandate_declared" in UNRESOLVABLE_PARK_REASONS;
    assert FindParked(world.claims, 0, 0) == Some(0);
    assert EarnsSlot(row, trigger, "tx");
    var ingested := IngestData(AlertStep(event).alert, false);
    assert Put(world, 0, Superseded(row, trigger, "tx", ingested))
        == world.(claims := [Superseded(row, trigger, "tx", ingested)]);
  }

  lemma Takeover(
    world: World, event: string, trigger: Trigger, earlier: Trigger, attempts: nat, count: nat, logged: nat)
    requires Stage(world, earlier, Indeterminate, attempts, count, logged)
    requires TriggerForEvent(event) == Some(trigger) && trigger != earlier && count < 2
    ensures Stage(Apply(world, CONFIG, AlertStep(event)), trigger, Pending, attempts, count + 1, logged + 1)
    ensures Apply(world, CONFIG, AlertStep(event)).worker == world.worker
  {
    var ingested := IngestData(AlertStep(event).alert, false);
    var row := Superseded(world.claims[0], trigger, "tx", ingested);
    AlertWrites(world, event, trigger);
    TakenView(world.claims[0], trigger, event, count);
    SupersedesAfter(world.log, SupersedeQueued(0));
    Becomes(world, row, SupersedeQueued(0), trigger, Pending, attempts, count + 1, logged + 1);
  }

  lemma TakenView(existing: Row, trigger: Trigger, event: string, count: nat)
    requires SupersedesSoFar(existing.data) == count as real
    ensures
      var row := Superseded(existing, trigger, "tx", IngestData(AlertStep(event).alert, false));
      && row.trigger == trigger && row.status.Pending? && row.policyId == existing.policyId
      && row.verifyAttempts == existing.verifyAttempts
      && SupersedesSoFar(row.data) == (count + 1) as real
  {
    var ingested := IngestData(AlertStep(event).alert, false);
    assert ingested.Keys == {"simulated", "eventType", "source"};
    SupersededView(existing, trigger, "tx", ingested);
    assert (count + 1) as real == count as real + 1.0;
  }

  lemma Becomes(
    world: World, row: Row, event: Event, trigger: Trigger, status: Status, attempts: nat, count: nat, logged: nat)
    requires OneClaim(world) && row.policyId == 0
    requires row.trigger == trigger && row.status == status && row.verifyAttempts == attempts
    requires SupersedesSoFar(row.data) == count as real
    requires status.Indeterminate? ==> row.reviewReason == Some("no_mandate_declared")
    requires Supersedes(world.log + [event]) == logged
    ensures
      var after := Note(world.(claims := [row]), event);
      Stage(after, trigger, status, attempts, count, logged) && after.worker == world.worker
  {
  }

  lemma DeferringWrites(world: World, claim: Row)
    requires OneClaim(world) && world.worker == Doubted(0, claim, LOCKED, false) && Blank(claim.data)
    ensures Apply(world, CONFIG, RecordStep) == WithWorker(
      Note(world.(claims := [DeferredRow(world.claims[0], claim, 1.0, LOCKED)]), PayoutDeferred(0, 5_000)), Idle)
  {
    assert OccursAt(LOCKED, "LockPeriodNotElapsed", 0);
    var row := DeferredRow(world.claims[0], claim, 1.0, LOCKED);
    assert Put(world, 0, row) == world.(claims := [row]);
    FirstWait(claim.data);
  }

  lemma FirstWait(data: Json)
    requires Blank(data)
    ensures DeferralDelay(LockDeferrals(data)) == Some(5_000)
  {
  }

  /** The refused payout writes its copy's record back, and with it a count of no
      supersedes. */
  lemma StaleDeferral(world: World, claim: Row, trigger: Trigger, attempts: nat, count: nat, logged: nat)
    requires Stage(world, trigger, Indeterminate, attempts, count, logged)
    requires world.worker == Doubted(0, claim, LOCKED, false) && Blank(claim.data)
    ensures Stage(Apply(world, CONFIG, RecordStep), trigger, Indeterminate, attempts, 0, logged)
    ensures Apply(world, CONFIG, RecordStep).worker.Idle?
  {
    var row := DeferredRow(world.claims[0], claim, 1.0, LOCKED);
    DeferringWrites(world, claim);
    DeferredView(world.claims[0], claim, 1.0, LOCKED);
    SupersedesAfter(world.log, PayoutDeferred(0, 5_000));
    Becomes(world, row, PayoutDeferred(0, 5_000), trigger, Indeterminate, attempts, 0, logged);
  }

  lemma StallIsOffKeys()
    ensures KeeperSerial.OffKeys(STALL)
  {
    assert NO_MANDATE.Keys == {"reason"};
  }

  /** A payout is refused for its lock, and before it records that a pass parks the
      row it has in hand. */
  lemma RowInHandIsParked() returns (steps: seq<Step>, claim: Row)
    ensures KeeperSerial.AllOffKeys(steps) && Blank(claim.data)
    ensures Stage(Run(START, CONFIG, steps), Exploit, Indeterminate, 2, 0, 0)
    ensures Run(START, CONFIG, steps).worker == Doubted(0, claim, LOCKED, false)
  {
    StallIsOffKeys();
    steps := ErrorIsReached(NeverLanded(LOCKED));
    claim := Run(START, CONFIG, steps).worker.claim;
    Stall(Run(START, CONFIG, steps), Exploit, Paying, 1, 0, 0);
    steps := OneMore(steps, STALL);
  }

  /** A payout loads an approved row. While it has the row in hand, duplicate passes
      park the claim and alerts take it over twice; then the settlement is refused
      for its lock, the payout writes back the record it loaded, and a third alert
      takes the claim over again. The bound of two supersedes does not survive a
      pass on a row in hand. */
  lemma ThreeSupersedesAreReached() returns (steps: seq<Step>)
    ensures Initial(START) && KeeperSerial.AllOffKeys(steps) && !KeeperSerial.SerialRun(START, CONFIG, steps)
    ensures UsageOf(Run(START, CONFIG, steps).log, 0).supersedes == 3
  {
    var claim;
    steps, claim := RowInHandIsParked();
    steps := Swap(steps, claim, "oracle_deviation", OracleManipulation, Exploit, 2, 0);
    steps := Swap(steps, claim, "exploit", Exploit, OracleManipulation, 3, 1);
    StaleDeferral(Run(START, CONFIG, steps), claim, Exploit, 4, 2, 2);
    steps := OneMore(steps, RecordStep);
    Takeover(Run(START, CONFIG, steps), "oracle_deviation", OracleManipulation, Exploit, 4, 0, 2);
    steps := OneMore(steps, AlertStep("oracle_deviation"));
    if KeeperSerial.SerialRun(START, CONFIG, steps) {
      OneRowCausesBoundedWork(START, CONFIG, steps, 0);
      assert false;
    }
  }

  /** An alert takes the claim over and the next pass parks it again. */
  lemma Swap(
    steps: seq<Step>, claim: Row, event: string, trigger: Trigger, earlier: Trigger, attempts: nat, count: nat)
    returns (longer: seq<Step>)
    requires KeeperSerial.AllOffKeys(steps) && attempts < 4 && count < 2
    requires Stage(Run(START, CONFIG, steps), earlier, Indeterminate, attempts, count, count)
    requires Run(START, CONFIG, steps).worker == Doubted(0, claim, LOCKED, false)
    requires TriggerForEvent(event) == Some(trigger) && trigger != earlier
    ensures KeeperSerial.AllOffKeys(longer)
    ensures Stage(Run(START, CONFIG, longer), trigger, Indeterminate, attempts + 1, count + 1, count + 1)
    ensures Run(START, CONFIG, longer).worker == Doubted(0, claim, LOCKED, false)
  {
    StallIsOffKeys();
    Takeover(Run(START, CONFIG, steps), event, trigger, earlier, attempts, count, count);
    longer := OneMore(steps, AlertStep(event));
    Stall(Run(START, CONFIG, longer), trigger, Pending, attempts, count + 1, count + 1);
    longer := OneMore(longer, STALL);
  }

  // ---------------------------------------------------------------------------
  // A plan swapped under a verdict
  // ---------------------------------------------------------------------------

  function PersistedAgain(claim: Row): Row {
    PersistedRow(
      claim.(status := Verifying), claim, APPROVE_AGAIN.input.verdict, claim.verifyAttempts + 1, Some("other"))
  }

  /** The second pass approves the row in hand again, for the plan it has now. */
  lemma ApprovalAgainWrites(world: World)
    requires InDoubt(world, LOCKED, false)
    ensures
      var claim := world.claims[0];
      var verdict := PayVerdict(0, Exploit, Confirmed, 10, 0.9, ProvenBalance(JStr("other")));
      Apply(world, CONFIG, APPROVE_AGAIN) == world.(
        claims := [PersistedAgain(claim).(status := Status.Approved)],
        log := world.log + [verdict] + [PayoutQueued(0)])
  {
    var claim := world.claims[0];
    var started := Put(world, 0, claim.(status := Verifying));
    assert Verdicts.Admitted(world, 0);
    Verdicts.PassSplits(world, CONFIG, 0, APPROVE_AGAIN.input);
    PlanByHash(claim.data, "other");
    ConfirmedGoesByLane(started, CONFIG, 0, claim, APPROVE_AGAIN.input.verdict, Some("other"), Confirmation, true);
    ResubmissionWrites(started, claim);
  }

  lemma ResubmissionWrites(started: World, claim: Row)
    requires |started.claims| == 1 && started.claims[0] == claim.(status := Verifying)
    requires started.chain == map[0 := ChainClaimPending] && claim.policyId == 0 && claim.trigger.Exploit?
    ensures
      var plan := ProvenBalance(JStr("other"));
      var verdict := PayVerdict(0, Exploit, Confirmed, 10, 0.9, plan);
      ApproveAndSubmit(started, 0, claim, APPROVE_AGAIN.input.verdict, claim.verifyAttempts + 1, Some("other"), plan,
                       Confirmation, true)
      == started.(claims := [PersistedAgain(claim).(status := Status.Approved)],
                  log := started.log + [verdict] + [PayoutQueued(0)])
  {
  }

  /** The deferral puts the copy's record, and so its plan, under the new verdict. */
  lemma DeferralSwapsPlan(row: Row, claim: Row)
    requires row.trigger.Exploit? && IsCopy(claim)
    ensures RowPlan(DeferredRow(row, claim, 1.0, LOCKED), CONFIG) == ProvenBalance(JStr("hash"))
  {
    var patch: Data := map["lockDeferrals" := JNum(1.0), "lastLockError" := JStr(LOCKED)];
    assert patch.Keys == {"lockDeferrals", "lastLockError"};
    PlanIgnoresOtherKeys(Exploit, claim.data, patch, CONFIG);
  }

  lemma LatestAfterDeferral(log: seq<Event>, plan: Plan)
    ensures
      var verdict := PayVerdict(0, Exploit, Confirmed, 10, 0.9, plan);
      PlanStability.LatestVerdict(log + [verdict] + [PayoutQueued(0)] + [PayoutDeferred(0, 5_000)], 0) == Some(verdict)
  {
    var verdict := PayVerdict(0, Exploit, Confirmed, 10, 0.9, plan);
    PlanStability.LatestAfter(log, verdict, 0);
    PlanStability.LatestAfter(log + [verdict], PayoutQueued(0), 0);
    PlanStability.LatestAfter(log + [verdict] + [PayoutQueued(0)], PayoutDeferred(0, 5_000), 0);
  }

  /** A payout has an approved row in hand and is refused for its lock; meanwhile
      another pass approves the row on new evidence; the payout then writes back the
      record it loaded. The approved row now plans by the old evidence, not what its
      latest verdict saw. */
  lemma PlanIsSwapped() returns (steps: seq<Step>)
    ensures Initial(START) && KeeperSerial.AllOffKeys(steps) && !KeeperSerial.SerialRun(START, CONFIG, steps)
    ensures
      var world := Run(START, CONFIG, steps);
      var latest := PlanStability.LatestVerdict(world.log, 0);
      && |world.claims| == 1 && PlanStability.InPayout(world.claims[0].status) && latest.Some?
      && latest.value.plan == ProvenBalance(JStr("other"))
      && RowPlan(world.claims[0], CONFIG) == ProvenBalance(JStr("hash"))
  {
    steps := ErrorIsReached(NeverLanded(LOCKED));
    var doubting := Run(START, CONFIG, steps);
    var claim := doubting.worker.claim;
    ApprovalAgainWrites(doubting);
    steps := OneMore(steps, APPROVE_AGAIN);
    var again := Run(START, CONFIG, steps);
    DeferringWrites(again, claim);
    DeferralSwapsPlan(again.claims[0], claim);
    LatestAfterDeferral(doubting.log, ProvenBalance(JStr("other")));
    steps := OneMore(steps, RecordStep);
    if KeeperSerial.SerialRun(START, CONFIG, steps) {
      PlanStability.ApprovedNeverTurnsUnprovable(START, CONFIG, steps, 0);
      assert false;
    }
  }
}
