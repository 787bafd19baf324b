/** What one undisturbed payout pass does: when it calls the chain, how it ends
    once the settlement has landed, and what a redelivery can still repair. */
module PayoutPaths {
  import opened ClaimTypes
  import opened VerificationRecord
  import opened Settlement
  import opened KeeperModel
  import opened ClaimKeeper

  /** The gates before the chain call: status, index, amount, breaker, proof. */
  predicate Callable(world: World, config: Config, id: nat, breakerOk: bool) {
    && id < |world.claims|
    && (world.claims[id].status.Approved? || world.claims[id].status.Paying?)
    && world.claims[id].policyId in world.policies
    && Amount(world.claims[id]) > 0
    && breakerOk
    && RowPlan(world.claims[id], config).IsProven()
  }

  /** The same gates in terms of what is stored. */
  predicate GatesOpen(world: World, config: Config, id: nat, breakerOk: bool) {
    && id < |world.claims| && breakerOk
    && var row := world.claims[id];
       && row.status in {Approved, Paying}
       && row.policyId in world.policies
       && row.payoutAmount.Some? && row.payoutAmount.value > 0
       && Provable(row.trigger, row.data, config, map[], None)
  }

  lemma GatesOpenIffCallable(world: World, config: Config, id: nat, breakerOk: bool)
    ensures GatesOpen(world, config, id, breakerOk) <==> Callable(world, config, id, breakerOk)
  {
    if id < |world.claims| {
      PlanIsProvenIff(world.claims[id].trigger, world.claims[id].data, config, map[], None);
    }
  }

  function CallOf(claim: Row, config: Config, id: nat): Event {
    SettleCalled(id, claim.policyId, RowPlan(claim, config), Amount(claim), claim.data)
  }

  /** Settle calls this pass added to the log. */
  ghost predicate Calls(before: World, after: World) {
    exists k :: |before.log| <= k < |after.log| && after.log[k].SettleCalled?
  }

  /** The world as the settle call finds it, the row marked `paying`. */
  function Poised(world: World, config: Config, id: nat): World
    requires id < |world.claims|
  {
    var claim := world.claims[id];
    WithWorker(Put(world, id, claim.(status := Paying)), Ready(id, claim, RowPlan(claim, config)))
  }

  lemma CallablePassReachesChain(world: World, config: Config, id: nat, input: PayoutInput)
    requires world.worker.Idle? && Callable(world, config, id, input.breakerOk)
    ensures Decide(Arm(Deliver(world, id)), config, input.breakerOk) == Poised(world, config, id)
  {
    var claim := world.claims[id];
    var armed := Arm(Deliver(world, id));
    assert armed == WithWorker(Put(world, id, claim.(status := Paying)), Armed(id, claim));
  }

  /** The gates before the breaker, and what they let through. */
  lemma ArmingGates(world: World, id: nat)
    requires world.worker.Idle?
    ensures
      var after := Arm(Deliver(world, id));
      && after.log == world.log && after.chain == world.chain
      && (after.worker.Idle? || (after.worker.Armed? && id < |after.claims|))
      && (after.worker.Armed? <==>
            && id < |world.claims| && (world.claims[id].status.Approved? || world.claims[id].status.Paying?)
            && world.claims[id].policyId in world.policies && Amount(world.claims[id]) > 0)
      && (after.worker.Armed? ==> after.worker == Armed(id, world.claims[id]))
  {
  }

  lemma UncallablePassStaysOff(world: World, config: Config, id: nat, input: PayoutInput)
    requires world.worker.Idle? && !Callable(world, config, id, input.breakerOk)
    ensures
      var after := Decide(Arm(Deliver(world, id)), config, input.breakerOk);
      after.worker.Idle? && after.log == world.log && after.chain == world.chain
  {
    ArmingGates(world, id);
    var armed := Arm(Deliver(world, id));
    if armed.worker.Armed? {
      DecidingUncalled(armed, config, input.breakerOk, id, world.claims[id]);
    }
  }

  lemma DecidingUncalled(armed: World, config: Config, breakerOk: bool, id: nat, claim: Row)
    requires armed.worker == Armed(id, claim) && id < |armed.claims|
    requires !breakerOk || RowPlan(claim, config).Unprovable?
    ensures
      var after := Decide(armed, config, breakerOk);
      after.worker.Idle? && after.log == armed.log && after.chain == armed.chain
  {
  }

  // ---------------------------------------------------------------------------
  // When the chain is called
  // ---------------------------------------------------------------------------

  /** Only deferrals were logged, and the chain did not move. */
  ghost predicate OnlyDefers(before: World, after: World) {
    && |before.log| <= |after.log| && after.log[..|before.log|] == before.log
    && (forall k | |before.log| <= k < |after.log| :: after.log[k].PayoutDeferred?)
    && after.chain == before.chain
  }

  lemma RecordingOnlyDefers(world: World)
    ensures OnlyDefers(world, Record(world))
  {
    if world.worker.Doubted? && world.worker.id < |world.claims| {
      var Doubted(id, claim, message, settled) := world.worker;
      ReconcilingOnlyDefers(world, id, claim, message, settled);
    }
  }

  lemma ReconcilingOnlyDefers(world: World, id: nat, claim: Row, message: string, settled: bool)
    requires id < |world.claims|
    ensures OnlyDefers(world, Reconcile(world, id, claim, message, settled))
  {
  }

  lemma EscalatingLogsNothing(world: World)
    ensures Escalate(world).log == world.log && Escalate(world).chain == world.chain
  {
  }

  lemma InterruptingLogsNothing(world: World, fault: Fault, chainReadable: bool)
    ensures
      var asked := AskChain(Interrupt(world, fault), chainReadable);
      asked.log == world.log && asked.chain == world.chain
  {
  }

  lemma EndingAddsNoCalls(world: World, input: PayoutInput)
    ensures OnlyDefers(world, PayoutEnd(world, input))
  {
    var asked := AskChain(Interrupt(world, input.fault), input.chainReadable);
    InterruptingLogsNothing(world, input.fault, input.chainReadable);
    RecordingOnlyDefers(asked);
    EscalatingLogsNothing(Record(asked));
  }

  lemma CallIsLogged(world: World, config: Config, id: nat, input: PayoutInput)
    requires world.worker.Idle? && Callable(world, config, id, input.breakerOk)
    ensures
      var after := PayoutPass(world, config, id, input);
      |after.log| > |world.log| && after.log[..|world.log|] == world.log
      && after.log[|world.log|] == CallOf(world.claims[id], config, id)
  {
    CallablePassReachesChain(world, config, id, input);
    var called := CallSettle(Poised(world, config, id), input.settle);
    assert called.log[..|world.log| + 1] == world.log + [CallOf(world.claims[id], config, id)];
    EndingAddsNoCalls(called, input);
    var after := PayoutPass(world, config, id, input);
    assert after.log[..|called.log|] == called.log;
    assert after.log[|world.log|] == called.log[|world.log|];
    assert after.log[..|world.log|] == called.log[..|world.log|];
  }

  /** A delivered pass calls settle exactly when the row is approved or paying, the
      policy is indexed, the amount is positive, the breaker lets it through and
      the plan is proven. Being marked `paying` spares no second call. */
  lemma PassCallsSettleIff(world: World, config: Config, id: nat, input: PayoutInput)
    requires world.worker.Idle?
    ensures Calls(world, PayoutPass(world, config, id, input)) <==> GatesOpen(world, config, id, input.breakerOk)
  {
    GatesOpenIffCallable(world, config, id, input.breakerOk);
    if Callable(world, config, id, input.breakerOk) {
      CallIsLogged(world, config, id, input);
      assert PayoutPass(world, config, id, input).log[|world.log|].SettleCalled?;
    } else {
      UncallablePassStaysOff(world, config, id, input);
      TailOfIdle(Decide(Arm(Deliver(world, id)), config, input.breakerOk), input);
    }
  }

  /** What a pass that died after its settlement landed leaves behind. */
  ghost predicate DiedLanded(world: World, died: World, config: Config, id: nat)
    requires id < |world.claims|
  {
    died == World(
      world.claims[id := world.claims[id].(status := Paying)], world.policies,
      world.chain[world.claims[id].policyId := ChainClaimPaid], Idle,
      world.log + [CallOf(world.claims[id], config, id), SettleLanded(world.claims[id].policyId)])
  }

  lemma DyingLeaves(world: World, config: Config, id: nat)
    requires Callable(world, config, id, true)
    requires world.claims[id].policyId in world.chain && world.chain[world.claims[id].policyId].ChainClaimPending?
    ensures DiedLanded(world, Apply(CallSettle(Poised(world, config, id), Confirmation), config, CrashStep), config, id)
  {
    var landed := CallSettle(Poised(world, config, id), Confirmation);
    assert Apply(landed, config, CrashStep) == WithWorker(landed, Idle);
  }

  /** A pass redelivered after its settlement landed and its job died calls settle
      again, whatever comes of it; the chain refuses the call and stays paid. */
  lemma RedeliveredPassCallsAgain(world: World, config: Config, id: nat, input: PayoutInput)
    requires world.worker.Idle? && Callable(world, config, id, input.breakerOk)
    requires world.claims[id].policyId in world.chain && world.chain[world.claims[id].policyId].ChainClaimPending?
    ensures
      var died := Apply(CallSettle(Poised(world, config, id), Confirmation), config, CrashStep);
      var after := PayoutPass(died, config, id, input);
      && DiedLanded(world, died, config, id)
      && |after.log| > |died.log| && after.log[|died.log|].SettleCalled?
      && after.log[|died.log|].id == id
      && after.chain == died.chain
  {
    DyingLeaves(world, config, id);
    RedeliveryCallsAgain(world, Apply(CallSettle(Poised(world, config, id), Confirmation), config, CrashStep),
                         config, id, input);
  }

  lemma RedeliveryCallsAgain(world: World, died: World, config: Config, id: nat, input: PayoutInput)
    requires Callable(world, config, id, input.breakerOk) && DiedLanded(world, died, config, id)
    ensures
      var after := PayoutPass(died, config, id, input);
      && |after.log| > |died.log| && after.log[|died.log|].SettleCalled?
      && after.log[|died.log|].id == id
      && after.chain == died.chain
  {
    assert died.claims[id] == world.claims[id].(status := Paying);
    assert RowPlan(died.claims[id], config) == RowPlan(world.claims[id], config);
    CallIsLogged(died, config, id, input);
    CallablePassReachesChain(died, config, id, input);
    var called := CallSettle(Poised(died, config, id), input.settle);
    assert called.chain == died.chain;
    EndingAddsNoCalls(called, input);
  }

  // ---------------------------------------------------------------------------
  // How a landed settlement ends
  // ---------------------------------------------------------------------------

  /** The settle call moves the money: it finds the claim pending and lands. */
  predicate Lands(world: World, config: Config, id: nat, input: PayoutInput) {
    && Callable(world, config, id, input.breakerOk)
    && SettleLands(world.chain, world.claims[id].policyId, input.settle)
  }

  /** What the error path has to go on, when it is entered at all. */
  function ErrorAfter(input: PayoutInput): Option<string> {
    match input.settle
    case Confirmation =>
      (match input.fault
       case NoFault => None
       case PaidWriteThrew(error) => Some(error)
       case ReloadThrew(error) => Some(error))
    case LandedThenError(error) => Some(error)
    case NeverLanded(error) => Some(error)
  }

  /** The deferrals a record counts; one that counts none counts zero. */
  predicate CountsDeferrals(data: Json, count: int) {
    if data.JObj? && "lockDeferrals" in data.fields && data.fields["lockDeferrals"] != JNull
    then data.fields["lockDeferrals"] == JNum(count as real)
    else count == 0
  }

  /** Fewer than six are on record. */
  predicate WaitsLeft(data: Json) {
    exists k :: 0 <= k < 6 && CountsDeferrals(data, k)
  }

  lemma WaitIsScheduled(data: Json, count: int)
    requires CountsDeferrals(data, count)
    ensures LockDeferrals(data) == count as real
    ensures DeferralDelay(count as real)
         == if 0 <= count < 6 then Some([5_000, 30_000, 300_000, 1_800_000, 7_200_000, 21_600_000][count]) else None
  {
    assert (count as real).Floor == count;
  }

  lemma WaitsAreScheduled(data: Json)
    ensures WaitsLeft(data) <==> DeferralDelay(LockDeferrals(data)).Some?
  {
    var counted := LockDeferrals(data).Floor;
    if CountsDeferrals(data, counted) {
      WaitIsScheduled(data, counted);
    }
    forall k | CountsDeferrals(data, k) ensures counted == k {
      WaitIsScheduled(data, k);
    }
  }

  /** The reload after the paid write threw for a lock. The row is deferred as it
      stands, already marked paid; with the waits used up it is parked, unless the
      unique index objects. */
  ghost predicate StaysPaid(world: World, id: nat, input: PayoutInput)
    requires id < |world.claims|
  {
    && input.settle.Confirmation? && input.fault.ReloadThrew? && NamesLock(input.fault.error)
    && (WaitsLeft(world.claims[id].data)
        || !IndexAdmits(world.claims, id, world.claims[id].(status := Review)))
  }

  lemma LandedCall(world: World, config: Config, id: nat, input: PayoutInput)
    requires world.worker.Idle? && Lands(world, config, id, input)
    ensures
      var claim := world.claims[id];
      var landed := CallSettle(Poised(world, config, id), input.settle);
      && PayoutPass(world, config, id, input) == PayoutEnd(landed, input)
      && |landed.claims| == |world.claims| && landed.claims[id] == claim.(status := Paying)
      && landed.chain == world.chain[claim.policyId := ChainClaimPaid]
      && landed.worker == if input.settle.Confirmation? then Settled(id, claim, RowPlan(claim, config))
                          else Refused(id, claim, input.settle.error)
  {
    CallablePassReachesChain(world, config, id, input);
  }

  lemma LandedWithoutError(world: World, config: Config, id: nat, input: PayoutInput)
    requires world.worker.Idle? && Lands(world, config, id, input) && ErrorAfter(input).None?
    ensures
      var after := PayoutPass(world, config, id, input);
      id < |after.claims| && after.claims[id].status.Paid?
  {
    LandedCall(world, config, id, input);
    TailOfConfirmed(CallSettle(Poised(world, config, id), input.settle), input);
  }

  lemma LandedWithError(world: World, config: Config, id: nat, input: PayoutInput)
    requires world.worker.Idle? && Lands(world, config, id, input) && ErrorAfter(input).Some?
    ensures
      var claim := world.claims[id];
      var asked := Interrupt(CallSettle(Poised(world, config, id), input.settle), input.fault);
      && asked.worker == Refused(id, claim, ErrorAfter(input).value)
      && |asked.claims| == |world.claims|
      && asked.claims[id].policyId == claim.policyId && asked.claims[id].data == claim.data
      && asked.claims[id].status
         == (if input.settle.Confirmation? && input.fault.ReloadThrew? then Paid else Paying)
      && (forall other | 0 <= other < |world.claims| && other != id :: asked.claims[other] == world.claims[other])
      && asked.chain == world.chain[claim.policyId := ChainClaimPaid]
  {
    LandedCall(world, config, id, input);
  }

  /** Where the error path leaves a row. */
  lemma ReconciledStatus(world: World, id: nat, claim: Row, message: string, settled: bool)
    requires id < |world.claims| && claim.data == world.claims[id].data
    ensures
      var after := Escalate(Reconcile(world, id, claim, message, settled));
      && id < |after.claims|
      && after.claims[id].status ==
         if settled then Paid
         else if !IsLockNotElapsed(message) then Failed
         else if DeferralDelay(LockDeferrals(claim.data)).Some?
              || !IndexAdmits(world.claims, id, world.claims[id].(status := Review))
           then world.claims[id].status
         else Review
  {
    if !settled && IsLockNotElapsed(message) {
      DeferredStatus(world, id, claim, message);
    }
  }

  lemma DeferredStatus(world: World, id: nat, claim: Row, message: string)
    requires id < |world.claims| && claim.data == world.claims[id].data
    ensures
      var after := Escalate(Defer(world, id, claim, message));
      && id < |after.claims|
      && after.claims[id].status ==
         if DeferralDelay(LockDeferrals(claim.data)).Some?
            || !IndexAdmits(world.claims, id, world.claims[id].(status := Review))
         then world.claims[id].status else Review
  {
    var deferrals := LockDeferrals(claim.data);
    if DeferralDelay(deferrals).None? {
      var written := Put(world, id, DeferredRow(world.claims[id], claim, deferrals, message));
      SameSlot(world.claims, written.claims, id,
        ParkedRow(written.claims[id], written.claims[id], "lock_never_elapsed",
          map["reviewReason" := JStr("lock_never_elapsed")]));
    }
  }

  /** Whether a row may be parked depends on the other rows alone. */
  lemma SameSlot(before: seq<Row>, after: seq<Row>, id: nat, parked: Row)
    requires id < |before| == |after| && parked.status.Review? && parked.policyId == before[id].policyId
    requires forall other | 0 <= other < |before| && other != id :: after[other] == before[other]
    ensures IndexAdmits(after, id, parked) <==> IndexAdmits(before, id, before[id].(status := Review))
  {
  }

  /** Once the money has moved, the undisturbed handler marks the row paid exactly
      when nothing threw, or the chain could be read back, or the one throw came
      after the paid write and was taken for a lock. Otherwise the chain has paid
      and the row says failed, paying or review. */
  lemma LandedPassEndsPaidIff(world: World, config: Config, id: nat, input: PayoutInput)
    requires world.worker.Idle? && Lands(world, config, id, input)
    ensures
      var after := PayoutPass(world, config, id, input);
      && id < |after.claims|
      && (after.claims[id].status.Paid?
          <==> ErrorAfter(input).None? || input.chainReadable || StaysPaid(world, id, input))
      && (after.claims[id].status.Failed?
          <==> ErrorAfter(input).Some? && !input.chainReadable && !NamesLock(ErrorAfter(input).value))
      && after.chain == world.chain[world.claims[id].policyId := ChainClaimPaid]
  {
    var landed := CallSettle(Poised(world, config, id), input.settle);
    LandedCall(world, config, id, input);
    EndingAddsNoCalls(landed, input);
    if ErrorAfter(input).None? {
      LandedWithoutError(world, config, id, input);
    } else {
      LandedWithError(world, config, id, input);
      var asked := Interrupt(landed, input.fault);
      NamingIsMatching(ErrorAfter(input).value);
      WaitsAreScheduled(world.claims[id].data);
      TailOfRefused(landed, input);
      ReconciledStatus(WithWorker(asked, Idle), id, world.claims[id], ErrorAfter(input).value, input.chainReadable);
      SameSlot(world.claims, asked.claims, id, asked.claims[id].(status := Review));
    }
  }

  /** A row left failed is never delivered again: the chain has paid and no payout
      job will say so. */
  lemma FailedIsNeverRepaired(world: World, config: Config, id: nat, input: PayoutInput, retry: PayoutInput)
    requires world.worker.Idle? && Lands(world, config, id, input)
    requires ErrorAfter(input).Some? && !input.chainReadable && !NamesLock(ErrorAfter(input).value)
    ensures
      var after := PayoutPass(world, config, id, input);
      && id < |after.claims| && after.claims[id].status.Failed?
      && after.chain == world.chain[world.claims[id].policyId := ChainClaimPaid]
      && PayoutPass(WithWorker(after, Idle), config, id, retry) == WithWorker(after, Idle)
  {
    LandedPassEndsPaidIff(world, config, id, input);
    var after := WithWorker(PayoutPass(world, config, id, input), Idle);
    assert Decide(Arm(Deliver(after, id)), config, retry.breakerOk) == after;
    TailOfIdle(after, retry);
  }

  /** A row left `paying` on a paid policy - its job died, or was deferred - is
      repaired by the next pass that reaches the chain and can read it back. */
  lemma PayingIsRepaired(world: World, config: Config, id: nat, input: PayoutInput)
    requires world.worker.Idle? && Callable(world, config, id, input.breakerOk)
    requires world.claims[id].policyId in world.chain && world.chain[world.claims[id].policyId].ChainClaimPaid?
    requires input.chainReadable
    ensures
      var after := PayoutPass(world, config, id, input);
      id < |after.claims| && after.claims[id].status.Paid? && after.chain == world.chain
  {
    var poised := Poised(world, config, id);
    CallablePassReachesChain(world, config, id, input);
    var called := CallSettle(poised, input.settle);
    assert called.worker == Refused(id, world.claims[id], ErrorOf(input.settle)) && called.chain == world.chain;
    EndingAddsNoCalls(called, input);
    TailOfRefused(called, input);
    ReconciledStatus(WithWorker(called, Idle), id, world.claims[id], ErrorOf(input.settle), true);
  }
}
