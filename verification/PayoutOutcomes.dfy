/** What an undisturbed payout pass writes: the whole row, the log and the chain, for
    each way it can end. */
module PayoutOutcomes {
  import opened ClaimTypes
  import opened VerificationRecord
  import opened Settlement
  import opened KeeperModel
  import opened ClaimKeeper
  import opened PayoutPaths
  import opened PassOutcomes
  import Verdicts

  predicate InPayout(world: World, id: nat) {
    id < |world.claims| && world.claims[id].status in {Approved, Paying}
  }

  lemma IdlePass(world: World, config: Config, id: nat, input: PayoutInput)
    requires world.worker.Idle?
    requires Decide(Arm(Deliver(world, id)), config, input.breakerOk).worker.Idle?
    ensures PayoutPass(world, config, id, input) == Decide(Arm(Deliver(world, id)), config, input.breakerOk)
  {
    TailOfIdle(Decide(Arm(Deliver(world, id)), config, input.breakerOk), input);
  }

  // ---------------------------------------------------------------------------
  // Before the chain is called
  // ---------------------------------------------------------------------------

  /** A claim that is neither approved nor paying is not touched. */
  lemma OtherStatusIsSkipped(world: World, config: Config, id: nat, input: PayoutInput)
    requires world.worker.Idle? && !InPayout(world, id)
    ensures PayoutPass(world, config, id, input) == world
  {
    IdlePass(world, config, id, input);
  }

  /** No policy, or no positive amount: rejected, never paid by a default. */
  lemma UnpayableIsRejected(world: World, config: Config, id: nat, input: PayoutInput)
    requires world.worker.Idle? && InPayout(world, id)
    requires
      var claim := world.claims[id];
      claim.policyId !in world.policies || claim.payoutAmount.None? || claim.payoutAmount.value <= 0
    ensures
      var claim := world.claims[id];
      var reason :=
        if claim.policyId !in world.policies then "policy_missing_at_payout" else "payout_amount_missing";
      Writes(world, PayoutPass(world, config, id, input), id,
        claim.(status := Rejected, data := JObj(OnRecord(claim) + map["reason" := JStr(reason)])), [])
  {
    IdlePass(world, config, id, input);
    assert world.log + [] == world.log;
  }

  /** The gates before the breaker are passed. */
  predicate Payable(world: World, id: nat) {
    && InPayout(world, id) && world.claims[id].policyId in world.policies
    && world.claims[id].payoutAmount.Some? && world.claims[id].payoutAmount.value > 0
  }

  lemma PayableIsArmed(world: World, id: nat)
    requires world.worker.Idle? && Payable(world, id)
    ensures
      var claim := world.claims[id];
      Arm(Deliver(world, id)) == WithWorker(Put(world, id, claim.(status := Paying)), Armed(id, claim))
  {
  }

  lemma ParkingWrites(world: World, id: nat, reason: string, patch: Data)
    requires Verdicts.Admitted(world, id) && world.worker.Idle? && |reason| <= 128
    ensures
      var claim := world.claims[id];
      var armed := WithWorker(Put(world, id, claim.(status := Paying)), Armed(id, claim));
      Writes(world, Park(armed, id, claim, reason, patch), id,
        claim.(status := Review, reviewReason := Some(reason), data := JObj(OnRecord(claim) + patch)), [])
  {
    var claim := world.claims[id];
    WritingTwice(world, id, claim.(status := Paying), ParkedRow(claim.(status := Paying), claim, reason, patch));
    assert world.log + [] == world.log;
  }

  /** A breaker that is not open to the amount sends the claim to a human. */
  lemma CappedIsReviewed(world: World, config: Config, id: nat, input: PayoutInput)
    requires world.worker.Idle? && Payable(world, id) && !input.breakerOk && Verdicts.Admitted(world, id)
    ensures
      var claim := world.claims[id];
      Writes(world, PayoutPass(world, config, id, input), id,
        claim.(
          status := Review,
          reviewReason := Some("auto_payout_limit_exceeded"),
          data := JObj(OnRecord(claim) + map["reviewReason" := JStr("auto_payout_limit_exceeded")])),
        [])
  {
    PayableIsArmed(world, id);
    ParkingWrites(world, id, "auto_payout_limit_exceeded",
      map["reviewReason" := JStr("auto_payout_limit_exceeded")]);
    IdlePass(world, config, id, input);
  }

  /** So does a plan that cannot be proven, by the first thing it lacks. Nothing
      unproven is settled instead. */
  lemma UnprovableIsReviewed(world: World, config: Config, id: nat, input: PayoutInput)
    requires world.worker.Idle? && Payable(world, id) && input.breakerOk && Verdicts.Admitted(world, id)
    requires !Provable(world.claims[id].trigger, world.claims[id].data, config, map[], None)
    ensures
      var claim := world.claims[id];
      var plan := PlanProvenSettlement(claim.trigger, claim.data, config, map[], None);
      && plan.Unprovable?
      && Writes(world, PayoutPass(world, config, id, input), id,
           claim.(
             status := Review,
             reviewReason := Some(plan.reason),
             data := JObj(OnRecord(claim) + map["reason" := JStr(plan.reason)])),
           [])
  {
    var claim := world.claims[id];
    var plan := RowPlan(claim, config);
    RefusalNamesWhatIsMissing(claim.trigger, claim.data, config, map[], None);
    PayableIsArmed(world, id);
    ParkingWrites(world, id, plan.reason, map["reason" := JStr(plan.reason)]);
    IdlePass(world, config, id, input);
  }

  // ---------------------------------------------------------------------------
  // Once it is called
  // ---------------------------------------------------------------------------

  /** The call: the proven plan, the amount and the record it is made on. */
  function Call(claim: Row, config: Config, id: nat): Event
    requires claim.payoutAmount.Some?
  {
    SettleCalled(id, claim.policyId, PlanProvenSettlement(claim.trigger, claim.data, config, map[], None),
                 claim.payoutAmount.value, claim.data)
  }

  predicate IsPending(world: World, policyId: nat) {
    policyId in world.chain && world.chain[policyId] == ChainClaimPending
  }

  /** The money moves: the policy is pending and the transaction is not lost. */
  predicate Moves(world: World, id: nat, settle: Report)
    requires id < |world.claims|
  {
    IsPending(world, world.claims[id].policyId) && !settle.NeverLanded?
  }

  function ChainAfter(world: World, id: nat, settle: Report): map<nat, ChainState>
    requires id < |world.claims|
  {
    if Moves(world, id, settle) then world.chain[world.claims[id].policyId := ChainClaimPaid] else world.chain
  }

  function CallEntries(world: World, config: Config, id: nat, settle: Report): seq<Event>
    requires id < |world.claims| && world.claims[id].payoutAmount.Some?
  {
    [Call(world.claims[id], config, id)]
    + if Moves(world, id, settle) then [SettleLanded(world.claims[id].policyId)] else []
  }

  /** The pass leaves this row, these log entries and this chain, and nothing else. */
  ghost predicate Leaves(
    before: World, after: World, id: nat, row: Row, entries: seq<Event>, chain: map<nat, ChainState>)
    requires id < |before.claims|
  {
    after == before.(claims := before.claims[id := row], log := before.log + entries, chain := chain)
  }

  /** The instruction a claim was settled by, and so the proof it was paid on. */
  function ProofOf(trigger: Trigger): ProofKind {
    if trigger == OracleManipulation then PriceProof
    else if trigger == Exploit then BalanceProof
    else if trigger == GovernanceAttack then AuthorityProof
    else MandateProof
  }

  function PaidAs(claim: Row): Row
    requires claim.payoutAmount.Some?
  {
    claim.(status := Paid, payoutAmount := Some(claim.payoutAmount.value), proofKind := Some(ProofOf(claim.trigger)))
  }

  lemma ProvenByTrigger(claim: Row, config: Config)
    requires RowPlan(claim, config).IsProven()
    ensures ProofKindOfPlan(RowPlan(claim, config)) == ProofOf(claim.trigger)
  {
    PlanIsProvenIff(claim.trigger, claim.data, config, map[], None);
  }

  /** The world once the call is answered. */
  lemma CallAnswers(world: World, config: Config, id: nat, input: PayoutInput)
    requires world.worker.Idle? && Callable(world, config, id, input.breakerOk)
    ensures
      var claim := world.claims[id];
      var called := CallSettle(Poised(world, config, id), input.settle);
      && PayoutPass(world, config, id, input) == PayoutEnd(called, input)
      && Leaves(world, WithWorker(called, Idle), id, claim.(status := Paying),
           CallEntries(world, config, id, input.settle), ChainAfter(world, id, input.settle))
      && called.worker ==
           if Moves(world, id, input.settle) && input.settle.Confirmation? then
             Settled(id, claim, RowPlan(claim, config))
           else
             Refused(id, claim, if input.settle.Confirmation? then "transaction reverted" else input.settle.error)
  {
    var claim := world.claims[id];
    var poised := Poised(world, config, id);
    CallablePassReachesChain(world, config, id, input);
    SettleUnfolds(poised, id, claim, RowPlan(claim, config), input.settle);
    assert poised == poised.(worker := Ready(id, claim, RowPlan(claim, config)));
    var call := Call(claim, config, id);
    assert (world.log + [call]) + [SettleLanded(claim.policyId)]
        == world.log + ([call] + [SettleLanded(claim.policyId)]);
    assert world.log + ([call] + []) == world.log + [call];
  }

  /** Nothing goes wrong: the row is paid its amount, on the proof of its trigger. */
  lemma CleanPassPays(world: World, config: Config, id: nat, input: PayoutInput)
    requires world.worker.Idle? && GatesOpen(world, config, id, input.breakerOk)
    requires IsPending(world, world.claims[id].policyId) && input.settle == Confirmation && input.fault == NoFault
    ensures
      var claim := world.claims[id];
      Leaves(world, PayoutPass(world, config, id, input), id, PaidAs(claim),
        [Call(claim, config, id), SettleLanded(claim.policyId)], world.chain[claim.policyId := ChainClaimPaid])
  {
    GatesOpenIffCallable(world, config, id, input.breakerOk);
    CallAnswers(world, config, id, input);
    ProvenByTrigger(world.claims[id], config);
    var called := CallSettle(Poised(world, config, id), input.settle);
    TailOfConfirmed(called, input);
    WritingTwice(world, id, world.claims[id].(status := Paying), PaidAs(world.claims[id]));
  }

  // ---------------------------------------------------------------------------
  // When it comes back with an error
  // ---------------------------------------------------------------------------

  /** The error a call or a write after it leaves the handler with. */
  predicate Fails(world: World, id: nat, input: PayoutInput, message: string)
    requires id < |world.claims|
  {
    match input.settle
    case NeverLanded(error) => message == error
    case LandedThenError(error) => message == error
    case Confirmation =>
      if !IsPending(world, world.claims[id].policyId) then message == "transaction reverted"
      else
        input.fault in {PaidWriteThrew(message), ReloadThrew(message)}
  }

  /** The row as the error finds it: marked paid already if only the reload threw. */
  function Standing(world: World, id: nat, input: PayoutInput): Row
    requires id < |world.claims| && world.claims[id].payoutAmount.Some?
  {
    if input.settle == Confirmation && IsPending(world, world.claims[id].policyId) && input.fault.ReloadThrew?
    then PaidAs(world.claims[id])
    else world.claims[id].(status := Paying)
  }

  /** The chain can be read and says the claim is paid. */
  predicate ReadsPaid(world: World, id: nat, input: PayoutInput)
    requires id < |world.claims|
  {
    var policyId, chain := world.claims[id].policyId, ChainAfter(world, id, input.settle);
    input.chainReadable && policyId in chain && chain[policyId] == ChainClaimPaid
  }

  ghost predicate Failing(world: World, config: Config, id: nat, input: PayoutInput, message: string) {
    world.worker.Idle? && GatesOpen(world, config, id, input.breakerOk) && Fails(world, id, input, message)
  }

  /** What a throw after the call leaves in hand. */
  lemma InterruptedCall(called: World, id: nat, claim: Row, plan: Plan, input: PayoutInput)
    requires called.worker == Settled(id, claim, plan) && id < |called.claims| && plan.IsProven()
    requires input.fault.PaidWriteThrew? || input.fault.ReloadThrew?
    ensures
      var row := if input.fault.ReloadThrew? then PaidRow(called.claims[id], claim, plan) else called.claims[id];
      Interrupt(called, input.fault)
      == WithWorker(Put(called, id, row), Refused(id, claim, input.fault.error))
  {
    assert called.claims[id := called.claims[id]] == called.claims;
  }

  lemma ErrorIsInHand(world: World, config: Config, id: nat, input: PayoutInput, message: string)
    returns (asked: World)
    requires Failing(world, config, id, input, message)
    ensures Leaves(world, asked, id, Standing(world, id, input),
                   CallEntries(world, config, id, input.settle), ChainAfter(world, id, input.settle))
    ensures
      var called := CallSettle(Poised(world, config, id), input.settle);
      && Interrupt(called, input.fault) == WithWorker(asked, Refused(id, world.claims[id], message))
      && PayoutPass(world, config, id, input) == PayoutEnd(called, input)
  {
    var claim := world.claims[id];
    GatesOpenIffCallable(world, config, id, input.breakerOk);
    CallAnswers(world, config, id, input);
    var called := CallSettle(Poised(world, config, id), input.settle);
    asked := Put(WithWorker(called, Idle), id, Standing(world, id, input));
    if called.worker.Settled? {
      ProvenByTrigger(claim, config);
      InterruptedCall(called, id, claim, RowPlan(claim, config), input);
    }
    WritingTwice(world, id, claim.(status := Paying), Standing(world, id, input));
  }

  /** The world the error path starts from. */
  lemma ErrorPathStarts(world: World, config: Config, id: nat, input: PayoutInput, message: string)
    returns (asked: World)
    requires Failing(world, config, id, input, message)
    ensures Leaves(world, asked, id, Standing(world, id, input),
                   CallEntries(world, config, id, input.settle), ChainAfter(world, id, input.settle))
    ensures PayoutPass(world, config, id, input)
         == Escalate(Reconcile(asked, id, world.claims[id], message, ReadsPaid(world, id, input)))
  {
    asked := ErrorIsInHand(world, config, id, input, message);
    TailOfRefused(CallSettle(Poised(world, config, id), input.settle), input);
    assert WithWorker(WithWorker(asked, Refused(id, world.claims[id], message)), Idle) == asked;
  }

  lemma RowIsRewritten(before: World, asked: World, id: nat, first: Row, row: Row, entries: seq<Event>,
                       chain: map<nat, ChainState>)
    requires id < |before.claims| && Leaves(before, asked, id, first, entries, chain)
    ensures Leaves(before, Put(asked, id, row), id, row, entries, chain)
  {
    assert before.claims[id := first][id := row] == before.claims[id := row];
  }

  /** The chain is believed over the error: the row is paid, with the error noted. */
  lemma ErrorOnPaidIsPaid(world: World, config: Config, id: nat, input: PayoutInput, message: string)
    requires Failing(world, config, id, input, message) && ReadsPaid(world, id, input)
    ensures
      Leaves(world, PayoutPass(world, config, id, input), id,
        Standing(world, id, input).(
          status := Paid,
          data := JObj(OnRecord(world.claims[id]) + map[
            "payoutError" := JStr(message),
            "reconciledFromChain" := JBool(true),
            "note" := JStr("Settled on chain; the signature was lost with the failed confirmation.")])),
        CallEntries(world, config, id, input.settle), ChainAfter(world, id, input.settle))
  {
    var asked := ErrorPathStarts(world, config, id, input, message);
    var row := ReconciledRow(asked.claims[id], world.claims[id], message);
    RowIsRewritten(world, asked, id, Standing(world, id, input), row,
      CallEntries(world, config, id, input.settle), ChainAfter(world, id, input.settle));
    assert Reconcile(asked, id, world.claims[id], message, true) == Put(asked, id, row);
  }

  /** An error that names the lock, anywhere in its text, is waited out while fewer
      than six waits are on record: the status stays, and one more payout is queued
      after the next wait of the schedule. */
  lemma LockRefusalIsDeferred(
    world: World, config: Config, id: nat, input: PayoutInput, before: string, after: string, k: nat)
    requires Failing(world, config, id, input, before + "LockPeriodNotElapsed" + after)
    requires !ReadsPaid(world, id, input)
    requires CountsDeferrals(world.claims[id].data, k) && k < 6
    ensures
      Leaves(world, PayoutPass(world, config, id, input), id,
        Standing(world, id, input).(data := JObj(OnRecord(world.claims[id]) + map[
          "lockDeferrals" := JNum((k + 1) as real),
          "lastLockError" := JStr(before + "LockPeriodNotElapsed" + after)])),
        CallEntries(world, config, id, input.settle)
          + [PayoutDeferred(id, [5_000, 30_000, 300_000, 1_800_000, 7_200_000, 21_600_000][k])],
        ChainAfter(world, id, input.settle))
  {
    var message := before + "LockPeriodNotElapsed" + after;
    var asked := ErrorPathStarts(world, config, id, input, message);
    NameIsFound(before, after);
    WaitIsScheduled(world.claims[id].data, k);
    DeferringWrites(asked, id, world.claims[id], message, k);
    RowIsRewritten(world, asked, id, Standing(world, id, input),
      DeferredRow(asked.claims[id], world.claims[id], (k + 1) as real, message),
      CallEntries(world, config, id, input.settle), ChainAfter(world, id, input.settle));
  }

  lemma NameIsFound(before: string, after: string)
    ensures IsLockNotElapsed(before + "LockPeriodNotElapsed" + after)
  {
    assert OccursAt(before + "LockPeriodNotElapsed" + after, "LockPeriodNotElapsed", |before|);
  }

  lemma DeferringWrites(asked: World, id: nat, claim: Row, message: string, k: nat)
    requires id < |asked.claims| && asked.worker.Idle? && IsLockNotElapsed(message)
    requires LockDeferrals(claim.data) == k as real && DeferralDelay(k as real).Some?
    ensures Escalate(Reconcile(asked, id, claim, message, false))
         == Note(Put(asked, id, DeferredRow(asked.claims[id], claim, (k + 1) as real, message)),
                 PayoutDeferred(id, DeferralDelay(k as real).value))
  {
  }

  /** Past the schedule nothing more is queued and a human gets the claim, its count
      as it was. */
  lemma StuckLockIsReviewed(
    world: World, config: Config, id: nat, input: PayoutInput, message: string, count: real)
    requires Failing(world, config, id, input, message) && NamesLock(message) && !ReadsPaid(world, id, input)
    requires Records(world.claims[id].data, "lockDeferrals", JNum(count)) && count !in {0.0, 1.0, 2.0, 3.0, 4.0, 5.0}
    requires Verdicts.Admitted(world, id)
    ensures
      Leaves(world, PayoutPass(world, config, id, input), id,
        Standing(world, id, input).(
          status := Review,
          reviewReason := Some("lock_never_elapsed"),
          data := JObj(OnRecord(world.claims[id]) + map[
            "lastLockError" := JStr(message), "reviewReason" := JStr("lock_never_elapsed")])),
        CallEntries(world, config, id, input.settle), ChainAfter(world, id, input.settle))
  {
    var claim := world.claims[id];
    var asked := ErrorPathStarts(world, config, id, input, message);
    NamingIsMatching(message);
    CountIsOffSchedule(count);
    var deferred := DeferredRow(asked.claims[id], claim, count, message);
    var parked := ParkedRow(deferred, deferred, "lock_never_elapsed",
      map["reviewReason" := JStr("lock_never_elapsed")]);
    EscalatingWrites(asked, id, claim, message, count);
    StuckRecord(claim, message, count);
    RowIsRewritten(world, asked, id, Standing(world, id, input), parked,
      CallEntries(world, config, id, input.settle), ChainAfter(world, id, input.settle));
  }

  lemma CountIsOffSchedule(count: real)
    requires count !in {0.0, 1.0, 2.0, 3.0, 4.0, 5.0}
    ensures DeferralDelay(count).None?
  {
    var position := count.Floor;
    if position as real == count && 0 <= position < 6 {
      assert false;
    }
  }

  lemma StuckRecord(claim: Row, message: string, count: real)
    requires Records(claim.data, "lockDeferrals", JNum(count))
    ensures
      var deferred := Merge(claim.data, map["lockDeferrals" := JNum(count), "lastLockError" := JStr(message)]);
      Merge(deferred, map["reviewReason" := JStr("lock_never_elapsed")])
      == JObj(OnRecord(claim) + map[
           "lastLockError" := JStr(message), "reviewReason" := JStr("lock_never_elapsed")])
  {
  }

  lemma EscalatingWrites(asked: World, id: nat, claim: Row, message: string, count: real)
    requires id < |asked.claims| && asked.worker.Idle? && IsLockNotElapsed(message)
    requires LockDeferrals(claim.data) == count && DeferralDelay(count).None?
    requires Verdicts.Admitted(asked, id)
    ensures
      var deferred := DeferredRow(asked.claims[id], claim, count, message);
      Escalate(Reconcile(asked, id, claim, message, false)) == Put(asked, id,
        ParkedRow(deferred, deferred, "lock_never_elapsed", map["reviewReason" := JStr("lock_never_elapsed")]))
  {
    var deferred := DeferredRow(asked.claims[id], claim, count, message);
    var parked := ParkedRow(deferred, deferred, "lock_never_elapsed",
      map["reviewReason" := JStr("lock_never_elapsed")]);
    WritingTwice(asked, id, deferred, parked);
    assert IndexAdmits(Put(asked, id, deferred).claims, id, parked);
  }

  /** Any other error is recorded as a failure, and nothing is queued. */
  lemma OtherErrorFails(world: World, config: Config, id: nat, input: PayoutInput, message: string)
    requires Failing(world, config, id, input, message) && !ReadsPaid(world, id, input)
    requires forall i, j | 0 <= i <= j <= |message| :: message[i..j] != "LockPeriodNotElapsed"
    ensures
      Leaves(world, PayoutPass(world, config, id, input), id,
        Standing(world, id, input).(
          status := Failed,
          data := JObj(OnRecord(world.claims[id]) + map["payoutError" := JStr(message)])),
        CallEntries(world, config, id, input.settle), ChainAfter(world, id, input.settle))
  {
    var asked := ErrorPathStarts(world, config, id, input, message);
    NamingIsMatching(message);
    var row := FailedRow(asked.claims[id], world.claims[id], message);
    RowIsRewritten(world, asked, id, Standing(world, id, input), row,
      CallEntries(world, config, id, input.settle), ChainAfter(world, id, input.settle));
    assert Reconcile(asked, id, world.claims[id], message, false) == Put(asked, id, row);
  }
}
