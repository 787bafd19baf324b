/** How much work one claim row can cause while no process pass falls on a row a
    payout has in hand.

    Jobs may be delayed, duplicated or delivered to a row in any status, other
    claims' passes and any alert may fall anywhere inside a payout, and the payout
    may crash anywhere. */
module KeeperBounds {
  import opened ClaimTypes
  import opened VerificationRecord
  import opened KeeperModel
  import opened KeeperSerial

  /** What the log says one claim has caused so far. */
  datatype Usage = Usage(openings: nat, retries: nat, supersedes: nat, refilings: nat, deferrals: nat)

  ghost function UsageOf(log: seq<Event>, id: nat): Usage {
    var events := multiset(log);
    Usage(
      events[ClaimOpened(id)],
      events[RetryScheduled(id)],
      events[SupersedeQueued(id)],
      events[RefileQueued(id)],
      Deferrals(log, id))
  }

  /** How often a claim's payout was put off, for however long. */
  ghost function Deferrals(log: seq<Event>, id: nat): nat {
    if log == [] then 0
    else
      var last := log[|log| - 1];
      Deferrals(log[..|log| - 1], id) + if last.PayoutDeferred? && last.id == id then 1 else 0
  }

  function ProcessJobs(usage: Usage): nat {
    usage.openings + usage.retries + usage.supersedes + usage.refilings
  }

  /** What the row itself still permits. A supersede pays for the re-filing it
      makes possible again by dropping the record, so the sum only falls. */
  ghost function JobsLeft(row: Row): int {
    var supersedesLeft := 2 - SupersedesSoFar(row.data).Floor;
    var retriesLeft := if row.verifyAttempts < 4 then 4 - row.verifyAttempts else 0;
    retriesLeft + 2 * supersedesLeft + (if AlreadyReattributed(row.data) then 0 else 1)
  }

  /** The record and the log agree, and neither is past its bound. */
  ghost predicate WithinBudget(row: Row, usage: Usage) {
    && usage.openings <= 1
    && SupersedesSoFar(row.data) == usage.supersedes as real
    && usage.supersedes <= 2
    && usage.retries <= row.verifyAttempts
    && usage.retries <= 4
    && usage.refilings + (if AlreadyReattributed(row.data) then 0 else 1) <= usage.supersedes + 1
    && LockDeferrals(row.data) == LockDeferrals(row.data).Floor as real
    && 0.0 <= LockDeferrals(row.data) <= 6.0
    && usage.deferrals <= 6 * usage.supersedes + LockDeferrals(row.data).Floor
    && ProcessJobs(usage) + JobsLeft(row) <= 10
  }

  ghost predicate RowBudgeted(world: World, id: nat) {
    if id < |world.claims| then WithinBudget(world.claims[id], UsageOf(world.log, id))
    else UsageOf(world.log, id) == Usage(0, 0, 0, 0, 0)
  }

  /** The record the handler loaded is still the row's. */
  ghost predicate WorkerCurrent(world: World) {
    match world.worker
    case Idle => true
    case Stuck(id) => id < |world.claims|
    case Loaded(id, claim) => id < |world.claims| && world.claims[id].data == claim.data
    case Armed(id, claim) => id < |world.claims| && world.claims[id].data == claim.data
    case Ready(id, claim, _) => id < |world.claims| && world.claims[id].data == claim.data
    case Settled(id, claim, _) => id < |world.claims| && world.claims[id].data == claim.data
    case Refused(id, claim, _) => id < |world.claims| && world.claims[id].data == claim.data
    case Doubted(id, claim, _, _) => id < |world.claims| && world.claims[id].data == claim.data
  }

  ghost predicate Budgeted(world: World) {
    && (forall id: nat :: RowBudgeted(world, id))
    && WorkerCurrent(world)
  }

  // ---------------------------------------------------------------------------
  // Building blocks
  // ---------------------------------------------------------------------------

  predicate SameKeeperView(a: Json, b: Json) {
    && SupersedesSoFar(a) == SupersedesSoFar(b)
    && AlreadyReattributed(a) == AlreadyReattributed(b)
    && LockDeferrals(a) == LockDeferrals(b)
  }

  lemma MergeKeepsKeeperView(stored: Json, patch: Data)
    requires patch.Keys !! KEEPER_KEYS
    ensures SameKeeperView(Merge(stored, patch), stored)
  {
    assert "supersedeCount" !in patch;
    assert "reattributedFrom" !in patch;
    assert "lockDeferrals" !in patch;
  }

  lemma UsageAfter(log: seq<Event>, event: Event, id: nat)
    ensures UsageOf(log + [event], id) == Usage(
      UsageOf(log, id).openings + (if event == ClaimOpened(id) then 1 else 0),
      UsageOf(log, id).retries + (if event == RetryScheduled(id) then 1 else 0),
      UsageOf(log, id).supersedes + (if event == SupersedeQueued(id) then 1 else 0),
      UsageOf(log, id).refilings + (if event == RefileQueued(id) then 1 else 0),
      UsageOf(log, id).deferrals + (if event.PayoutDeferred? && event.id == id then 1 else 0))
  {
    assert (log + [event])[..|log|] == log;
    assert multiset(log + [event]) == multiset(log) + multiset{event};
  }

  /** Replace one row and log one event about it; every other row is untouched. */
  lemma ChangeKeepsBudget(world: World, id: nat, row: Row, event: Event)
    requires forall i: nat :: RowBudgeted(world, i)
    requires id < |world.claims|
    requires event in {RetryScheduled(id), SupersedeQueued(id), RefileQueued(id)}
          || (event.PayoutDeferred? && event.id == id)
    requires WithinBudget(row, UsageOf(world.log + [event], id))
    ensures forall i: nat :: RowBudgeted(Note(Put(world, id, row), event), i)
  {
    forall i: nat ensures RowBudgeted(Note(Put(world, id, row), event), i) {
      assert RowBudgeted(world, i);
      if i != id {
        UsageAfter(world.log, event, i);
      }
    }
  }

  lemma WriteKeepsBudget(world: World, id: nat, row: Row)
    requires forall i: nat :: RowBudgeted(world, i)
    requires id < |world.claims|
    requires SameKeeperView(row.data, world.claims[id].data)
    requires row.verifyAttempts >= world.claims[id].verifyAttempts
    ensures forall i: nat :: RowBudgeted(Put(world, id, row), i)
  {
    forall i: nat ensures RowBudgeted(Put(world, id, row), i) {
      assert RowBudgeted(world, i);
    }
  }

  predicate Uncounted(event: Event) {
    event.PayVerdict? || event.PayoutQueued? || event.SettleCalled? || event.SettleLanded?
  }

  lemma NoteKeepsBudget(world: World, event: Event)
    requires forall i: nat :: RowBudgeted(world, i)
    requires Uncounted(event)
    ensures forall i: nat :: RowBudgeted(Note(world, event), i)
  {
    forall i: nat ensures RowBudgeted(Note(world, event), i) {
      assert RowBudgeted(world, i);
      UsageAfter(world.log, event, i);
    }
  }

  function Grown(world: World, row: Row, counted: bool): World {
    var grown := world.(claims := world.claims + [row]);
    if counted then Note(grown, ClaimOpened(|world.claims|)) else grown
  }

  lemma RowUntouched(before: World, after: World, id: nat)
    requires RowBudgeted(before, id) && id < |before.claims| && id < |after.claims|
    requires after.claims[id] == before.claims[id] && UsageOf(after.log, id) == UsageOf(before.log, id)
    ensures RowBudgeted(after, id)
  {
  }

  lemma FreshRowIsBudgeted(world: World, id: nat, openings: nat)
    requires id < |world.claims| && openings <= 1 && UsageOf(world.log, id) == Usage(openings, 0, 0, 0, 0)
    requires var row := world.claims[id];
      SupersedesSoFar(row.data) == 0.0 && LockDeferrals(row.data) == 0.0 && !AlreadyReattributed(row.data)
    requires world.claims[id].verifyAttempts == 0
    ensures RowBudgeted(world, id)
  {
  }

  lemma OpeningUsage(world: World, row: Row, counted: bool, i: nat)
    ensures UsageOf(Grown(world, row, counted).log, i)
         == var usage := UsageOf(world.log, i);
            if counted && i == |world.claims| then usage.(openings := usage.openings + 1) else usage
  {
    UsageAfter(world.log, ClaimOpened(|world.claims|), i);
  }

  lemma AppendKeepsEach(world: World, row: Row, counted: bool, grown: World, i: nat)
    requires RowBudgeted(world, i) && grown == Grown(world, row, counted)
    requires SupersedesSoFar(row.data) == 0.0 && LockDeferrals(row.data) == 0.0 && !AlreadyReattributed(row.data)
    requires row.verifyAttempts == 0
    ensures RowBudgeted(grown, i)
  {
    OpeningUsage(world, row, counted, i);
    if i < |world.claims| {
      RowUntouched(world, grown, i);
    } else if i == |world.claims| {
      FreshRowIsBudgeted(grown, i, if counted then 1 else 0);
    }
  }

  lemma AppendKeepsBudget(world: World, row: Row, counted: bool)
    requires forall i: nat :: RowBudgeted(world, i)
    requires SupersedesSoFar(row.data) == 0.0 && LockDeferrals(row.data) == 0.0 && !AlreadyReattributed(row.data)
    requires row.verifyAttempts == 0
    ensures forall i: nat :: RowBudgeted(Grown(world, row, counted), i)
  {
    forall i: nat ensures RowBudgeted(Grown(world, row, counted), i) {
      assert RowBudgeted(world, i);
      AppendKeepsEach(world, row, counted, Grown(world, row, counted), i);
    }
  }

  // ---------------------------------------------------------------------------
  // Steps
  // ---------------------------------------------------------------------------

  lemma SupersededView(existing: Row, trigger: Trigger, txSignature: string, ingested: Data)
    requires ingested.Keys !! KEEPER_KEYS
    ensures
      var data := Superseded(existing, trigger, txSignature, ingested).data;
      && SupersedesSoFar(data) == SupersedesSoFar(existing.data) + 1.0
      && !AlreadyReattributed(data)
      && LockDeferrals(data) == 0.0
  {
    assert "reattributedFrom" !in ingested && "lockDeferrals" !in ingested;
  }

  /** A supersede starts the record again: it costs one and allows one re-filing. */
  lemma SupersedeWithinBudget(existing: Row, row: Row, usage: Usage)
    requires WithinBudget(existing, usage) && SupersedesSoFar(existing.data) + 1.0 <= MAX_SUPERSEDES
    requires row.verifyAttempts == existing.verifyAttempts
    requires SupersedesSoFar(row.data) == SupersedesSoFar(existing.data) + 1.0
    requires !AlreadyReattributed(row.data) && LockDeferrals(row.data) == 0.0
    ensures WithinBudget(row, usage.(supersedes := usage.supersedes + 1))
  {
  }

  lemma SupersedeKeepsBudget(world: World, id: nat, trigger: Trigger, txSignature: string, ingested: Data)
    requires Budgeted(world) && id < |world.claims|
    requires ingested.Keys !! KEEPER_KEYS
    requires SupersedesSoFar(world.claims[id].data) + 1.0 <= MAX_SUPERSEDES
    ensures
      var row := Superseded(world.claims[id], trigger, txSignature, ingested);
      forall i: nat :: RowBudgeted(Note(Put(world, id, row), SupersedeQueued(id)), i)
  {
    var row := Superseded(world.claims[id], trigger, txSignature, ingested);
    assert RowBudgeted(world, id);
    UsageAfter(world.log, SupersedeQueued(id), id);
    SupersededView(world.claims[id], trigger, txSignature, ingested);
    SupersedeWithinBudget(world.claims[id], row, UsageOf(world.log, id));
    ChangeKeepsBudget(world, id, row, SupersedeQueued(id));
  }

  lemma IngestKeepsBudget(world: World, config: Settlement.Config, alert: Alert, selected: Option<nat>)
    requires Budgeted(world) && world.worker.Idle?
    ensures Budgeted(Ingest(world, config, alert, selected))
  {
    var simulated := alert.simulated && Settlement.SyntheticAllowed(config);
    var trigger := TriggerForEvent(alert.event);
    var signature := EffectiveSignature(alert, simulated);
    var ingested := IngestData(alert, simulated);
    assert ingested.Keys == {"simulated", "eventType", "source"};
    if !alert.signed || alert.agent == "" || trigger.None? || selected.None? || signature == "" {
    } else if HoldsOpenClaim(world.claims, selected.value) {
      var parked := FindParked(world.claims, selected.value, 0);
      if parked.Some? {
        var id := parked.value;
        WriteKeepsBudget(world, id, Capped(world.claims[id]));
        if SupersedesSoFar(world.claims[id].data) + 1.0 <= MAX_SUPERSEDES {
          SupersedeKeepsBudget(world, id, trigger.value, signature, ingested);
        }
      }
    } else {
      var row := OpenedRow(selected.value, trigger.value, signature, ingested);
      AppendKeepsBudget(world, row, true);
      assert Ingest(world, config, alert, selected) == Grown(world, row, true);
    }
  }

  lemma IndeterminateView(row: Row, claim: Row, attempt: nat, details: Data)
    requires details.Keys !! KEEPER_KEYS
    ensures
      var after := IndeterminateRow(row, claim, attempt, details);
      SameKeeperView(after.data, claim.data) && after.verifyAttempts == attempt
  {
    MergeKeepsKeeperView(claim.data,
      details + map["outcome" := JStr("indeterminate"), "verifyAttempts" := JNum(attempt as real)]);
  }

  lemma RetryKeepsBudget(world: World, id: nat, row: Row)
    requires forall i: nat :: RowBudgeted(world, i)
    requires id < |world.claims| && SameKeeperView(row.data, world.claims[id].data)
    requires row.verifyAttempts == world.claims[id].verifyAttempts + 1 <= 4
    ensures forall i: nat :: RowBudgeted(Note(Put(world, id, row), RetryScheduled(id)), i)
  {
    assert RowBudgeted(world, id);
    UsageAfter(world.log, RetryScheduled(id), id);
    RetryWithinBudget(world.claims[id], row, UsageOf(world.log, id));
    ChangeKeepsBudget(world, id, row, RetryScheduled(id));
  }

  lemma IndeterminateKeepsBudget(world: World, id: nat, claim: Row, details: Data)
    requires Budgeted(world) && world.worker.Idle? && id < |world.claims|
    requires claim.data == world.claims[id].data && claim.verifyAttempts == world.claims[id].verifyAttempts
    requires details.Keys !! KEEPER_KEYS
    ensures Budgeted(HandleIndeterminate(world, id, claim, claim.verifyAttempts + 1, details))
  {
    var attempt := claim.verifyAttempts + 1;
    var row := IndeterminateRow(world.claims[id], claim, attempt, details);
    IndeterminateView(world.claims[id], claim, attempt, details);
    if attempt >= MAX_VERIFY_ATTEMPTS {
      WriteKeepsBudget(world, id, row);
    } else {
      RetryKeepsBudget(world, id, row);
    }
  }

  /** A retry is paid for by the attempt it follows. */
  lemma RetryWithinBudget(row: Row, retried: Row, usage: Usage)
    requires WithinBudget(row, usage)
    requires SameKeeperView(retried.data, row.data) && retried.verifyAttempts == row.verifyAttempts + 1 <= 4
    ensures WithinBudget(retried, usage.(retries := usage.retries + 1))
  {
  }

  lemma ApprovalKeepsBudget(
    world: World, id: nat, claim: Row, verdict: Verdict, hash: Option<string>, plan: Settlement.Plan,
    submit: Report, chainReadable: bool)
    requires Budgeted(world) && world.worker.Idle? && id < |world.claims|
    requires claim.data == world.claims[id].data && claim.verifyAttempts == world.claims[id].verifyAttempts
    requires verdict.details.Keys !! KEEPER_KEYS
    ensures Budgeted(
      ApproveAndSubmit(world, id, claim, verdict, claim.verifyAttempts + 1, hash, plan, submit, chainReadable))
  {
    var attempt := claim.verifyAttempts + 1;
    var event := PayVerdict(id, claim.trigger, verdict.outcome, verdict.lossAmount, verdict.confidence, plan);
    var row := PersistedRow(world.claims[id], claim, verdict, attempt, hash);
    MergeKeepsKeeperView(claim.data, Settlement.VerdictPatch(verdict.details, verdict.confidence, attempt, hash));
    WriteKeepsBudget(world, id, row);
    NoteKeepsBudget(Put(world, id, row), event);
    var persisted := Note(Put(world, id, row), event);
    if claim.policyId in world.chain {
      var submitted :=
        persisted.(chain := world.chain[claim.policyId := AfterSubmit(world.chain[claim.policyId], submit)]);
      SettingsDoNotCount(persisted, persisted.policies, submitted.chain);
      WriteKeepsBudget(submitted, id, row.(status := Approved));
      NoteKeepsBudget(Put(submitted, id, row.(status := Approved)), PayoutQueued(id));
    }
  }

  /** Neither what is indexed nor the chain's own state is the keeper's work. */
  lemma SettingsDoNotCount(world: World, policies: map<nat, Policy>, chain: map<nat, ChainState>)
    requires forall i: nat :: RowBudgeted(world, i)
    ensures forall i: nat :: RowBudgeted(world.(policies := policies, chain := chain), i)
  {
    forall i: nat ensures RowBudgeted(world.(policies := policies, chain := chain), i) {
      assert RowBudgeted(world, i);
    }
  }

  /** Re-filing marks the record, so it happens once for each time it is started. */
  lemma RefileKeepsBudget(world: World, id: nat, claim: Row, reason: string, hasEvidence: bool)
    requires Budgeted(world) && world.worker.Idle? && id < |world.claims|
    requires claim.data == world.claims[id].data && !AlreadyReattributed(claim.data)
    ensures Budgeted(Note(Put(world, id, Refiled(world.claims[id], claim, reason, hasEvidence)), RefileQueued(id)))
  {
    var row := Refiled(world.claims[id], claim, reason, hasEvidence);
    assert RowBudgeted(world, id);
    UsageAfter(world.log, RefileQueued(id), id);
    assert SupersedesSoFar(row.data) == SupersedesSoFar(claim.data);
    assert LockDeferrals(row.data) == LockDeferrals(claim.data);
    assert AlreadyReattributed(row.data);
    ChangeKeepsBudget(world, id, row, RefileQueued(id));
  }

  lemma AdjudicateKeepsBudget(
    world: World, config: Settlement.Config, id: nat, claim: Row, coverage: nat, input: ProcessInput)
    requires Budgeted(world) && world.worker.Idle? && id < |world.claims|
    requires claim.data == world.claims[id].data && claim.verifyAttempts == world.claims[id].verifyAttempts
    requires input.verdict.details.Keys !! KEEPER_KEYS
    ensures Budgeted(Adjudicate(world, config, id, claim, coverage, input))
  {
    var simulated := IsSimulated(claim, config);
    var verdict := if simulated then SyntheticVerdict(coverage) else input.verdict;
    var hash := if simulated then None else input.evidenceHash;
    assert verdict.details.Keys !! KEEPER_KEYS by {
      assert SyntheticVerdict(coverage).details.Keys == {"method", "simulated"};
    }
    var after := Adjudicate(world, config, id, claim, coverage, input);
    match DecideReattribution(claim, verdict, input.mandate)
    case Reattributed =>
      var reason := ReasonOf(verdict.details, "");
      RefileKeepsBudget(world, id, claim, reason, hash.Some?);
      assert after == Note(Put(world, id, Refiled(world.claims[id], claim, reason, hash.Some?)), RefileQueued(id));
    case MandateUnreadable =>
      var details := verdict.details["reason" := JStr("mandate_unreadable_during_reattribution")];
      IndeterminateKeepsBudget(world, id, claim, details);
      assert after == HandleIndeterminate(world, id, claim, claim.verifyAttempts + 1, details);
    case NotReattributed =>
      ConcludeKeepsBudget(world, config, id, claim, verdict, hash, input.submit, input.chainReadable);
      assert after == Conclude(world, config, id, claim, verdict, hash, input.submit, input.chainReadable);
  }

  lemma ReviewKeepsBudget(world: World, id: nat, claim: Row, verdict: Verdict, reason: string)
    requires Budgeted(world) && world.worker.Idle? && id < |world.claims|
    requires claim.data == world.claims[id].data
    requires verdict.details.Keys !! KEEPER_KEYS
    ensures Budgeted(Put(world, id, ReviewedRow(world.claims[id], claim, verdict, reason)))
  {
    MergeKeepsKeeperView(claim.data,
      verdict.details
      + map["reviewReason" := JStr(reason), "outcome" := JStr(OutcomeName(verdict.outcome)),
            "confidence" := JNum(verdict.confidence)]);
    WriteKeepsBudget(world, id, ReviewedRow(world.claims[id], claim, verdict, reason));
  }

  lemma ConcludeKeepsBudget(
    world: World, config: Settlement.Config, id: nat, claim: Row, verdict: Verdict, hash: Option<string>,
    submit: Report, chainReadable: bool)
    requires Budgeted(world) && world.worker.Idle? && id < |world.claims|
    requires claim.data == world.claims[id].data && claim.verifyAttempts == world.claims[id].verifyAttempts
    requires verdict.details.Keys !! KEEPER_KEYS
    ensures Budgeted(Conclude(world, config, id, claim, verdict, hash, submit, chainReadable))
  {
    if verdict.outcome.Confirmed? && verdict.lossAmount > 0 {
      ConfirmedGoesByLane(world, config, id, claim, verdict, hash, submit, chainReadable);
      var plan := Settlement.PlanProvenSettlement(claim.trigger, claim.data, config, verdict.details, hash);
      match Settlement.DecideLane(claim.trigger, verdict.confidence, plan.IsProven())
      case ToReview(reason) => ReviewKeepsBudget(world, id, claim, verdict, reason);
      case Pay(_) => ApprovalKeepsBudget(world, id, claim, verdict, hash, plan, submit, chainReadable);
    } else {
      UnconfirmedEnds(world, config, id, claim, verdict, hash, submit, chainReadable);
      if verdict.outcome.Inconclusive? {
        IndeterminateKeepsBudget(world, id, claim, verdict.details);
      } else {
        MergeKeepsKeeperView(claim.data, DenialPatch(verdict));
        WriteKeepsBudget(world, id, RejectedRow(world.claims[id], claim, DenialPatch(verdict)));
      }
    }
  }

  lemma ProcessKeepsBudget(world: World, config: Settlement.Config, id: nat, input: ProcessInput)
    requires Budgeted(world) && world.worker.Idle?
    requires input.verdict.details.Keys !! KEEPER_KEYS
    ensures Budgeted(Process(world, config, id, input))
  {
    if id < |world.claims| {
      var claim := world.claims[id];
      var verifying := claim.(status := Verifying);
      WriteKeepsBudget(world, id, verifying);
      var started := Put(world, id, verifying);
      MergeKeepsKeeperView(claim.data, map["reason" := JStr("policy_not_indexed")]);
      WriteKeepsBudget(started, id, RejectedRow(verifying, claim, map["reason" := JStr("policy_not_indexed")]));
      if claim.policyId in world.policies {
        AdjudicateKeepsBudget(started, config, id, claim, world.policies[claim.policyId].coverage, input);
      }
    }
  }

  lemma PayoutWriteKeepsBudget(world: World, id: nat, row: Row, patch: Data, worker: Worker)
    requires Budgeted(world) && id < |world.claims|
    requires patch.Keys !! KEEPER_KEYS
    requires row.data == Merge(world.claims[id].data, patch) || row.data == world.claims[id].data
    requires row.verifyAttempts == world.claims[id].verifyAttempts
    requires WorkerCurrent(WithWorker(Put(world, id, row), worker))
    ensures Budgeted(WithWorker(Put(world, id, row), worker))
  {
    MergeKeepsKeeperView(world.claims[id].data, patch);
    WriteKeepsBudget(world, id, row);
    WorkerDoesNotCount(Put(world, id, row), worker);
  }

  lemma WorkerDoesNotCount(world: World, worker: Worker)
    requires forall i: nat :: RowBudgeted(world, i)
    ensures forall i: nat :: RowBudgeted(WithWorker(world, worker), i)
  {
    forall i: nat ensures RowBudgeted(WithWorker(world, worker), i) {
      assert RowBudgeted(world, i);
    }
  }

  lemma ArmKeepsBudget(world: World)
    requires Budgeted(world)
    ensures Budgeted(Arm(world))
  {
    if world.worker.Loaded? {
      var Loaded(id, claim) := world.worker;
      var row := world.claims[id];
      var missing: Data := map["reason" := JStr("policy_missing_at_payout")];
      var unset: Data := map["reason" := JStr("payout_amount_missing")];
      PayoutWriteKeepsBudget(world, id, RejectedRow(row, claim, missing), missing, Idle);
      PayoutWriteKeepsBudget(world, id, RejectedRow(row, claim, unset), unset, Idle);
      PayoutWriteKeepsBudget(world, id, row.(status := Paying), map[], Armed(id, claim));
      WorkerDoesNotCount(world, Armed(id, claim));
    }
  }

  lemma ParkKeepsBudget(world: World, id: nat, claim: Row, reason: string, patch: Data)
    requires Budgeted(world) && id < |world.claims| && claim.data == world.claims[id].data
    requires patch.Keys !! KEEPER_KEYS
    ensures Budgeted(Park(world, id, claim, reason, patch))
  {
    PayoutWriteKeepsBudget(world, id, ParkedRow(world.claims[id], claim, reason, patch), patch, Idle);
    WorkerDoesNotCount(world, Idle);
  }

  lemma DecideKeepsBudget(world: World, config: Settlement.Config, breakerOk: bool)
    requires Budgeted(world)
    ensures Budgeted(Decide(world, config, breakerOk))
  {
    if world.worker.Armed? {
      var Armed(id, claim) := world.worker;
      var plan := Settlement.PlanProvenSettlement(claim.trigger, claim.data, config, map[], None);
      ParkKeepsBudget(world, id, claim, "auto_payout_limit_exceeded",
        map["reviewReason" := JStr("auto_payout_limit_exceeded")]);
      if plan.Unprovable? {
        ParkKeepsBudget(world, id, claim, plan.reason, map["reason" := JStr(plan.reason)]);
      }
      WorkerDoesNotCount(world, Ready(id, claim, plan));
    }
  }

  lemma SettleKeepsBudget(world: World, report: Report)
    requires Budgeted(world)
    ensures Budgeted(CallSettle(world, report))
  {
    if world.worker.Ready? {
      var Ready(id, claim, plan) := world.worker;
      var event := SettleCalled(id, claim.policyId, plan, Amount(claim), claim.data);
      NoteKeepsBudget(world, event);
      var called := Note(world, event);
      WorkerDoesNotCount(called, Refused(id, claim, ErrorOf(report)));
      var chain := called.chain[claim.policyId := ChainClaimPaid];
      SettingsDoNotCount(called, called.policies, chain);
      NoteKeepsBudget(called.(chain := chain), SettleLanded(claim.policyId));
      var landed := Note(called.(chain := chain), SettleLanded(claim.policyId));
      WorkerDoesNotCount(landed, CallSettle(world, report).worker);
    }
  }

  lemma InterruptKeepsBudget(world: World, fault: Fault)
    requires Budgeted(world)
    ensures Budgeted(Interrupt(world, fault))
  {
    if world.worker.Settled? && world.worker.plan.IsProven() {
      var Settled(id, claim, plan) := world.worker;
      WorkerDoesNotCount(world, Interrupt(world, fault).worker);
      PayoutWriteKeepsBudget(world, id, PaidRow(world.claims[id], claim, plan), map[],
        if fault.ReloadThrew? then Refused(id, claim, fault.error) else Idle);
    }
  }

  /** A deferral moves the counter by one, inside the schedule. */
  lemma DeferralWithinBudget(row: Row, deferred: Row, usage: Usage)
    requires WithinBudget(row, usage)
    requires DeferralDelay(LockDeferrals(row.data)).Some?
    requires SupersedesSoFar(deferred.data) == SupersedesSoFar(row.data)
    requires AlreadyReattributed(deferred.data) == AlreadyReattributed(row.data)
    requires LockDeferrals(deferred.data) == LockDeferrals(row.data) + 1.0
    requires deferred.verifyAttempts == row.verifyAttempts
    ensures WithinBudget(deferred, usage.(deferrals := usage.deferrals + 1))
  {
    DelayLeavesRoom(LockDeferrals(row.data));
  }

  lemma DeferralKeepsBudget(world: World, id: nat, claim: Row, deferrals: real, message: string)
    requires Budgeted(world) && id < |world.claims| && claim.data == world.claims[id].data
    requires deferrals == LockDeferrals(claim.data) && DeferralDelay(deferrals).Some?
    ensures
      var row := DeferredRow(world.claims[id], claim, deferrals + 1.0, message);
      var event := PayoutDeferred(id, DeferralDelay(deferrals).value);
      forall i: nat :: RowBudgeted(Note(Put(world, id, row), event), i)
  {
    var row := DeferredRow(world.claims[id], claim, deferrals + 1.0, message);
    assert RowBudgeted(world, id);
    var event := PayoutDeferred(id, DeferralDelay(deferrals).value);
    UsageAfter(world.log, event, id);
    DeferredView(world.claims[id], claim, deferrals + 1.0, message);
    DeferralWithinBudget(world.claims[id], row, UsageOf(world.log, id));
    ChangeKeepsBudget(world, id, row, event);
  }

  lemma DelayLeavesRoom(deferrals: real)
    requires DeferralDelay(deferrals).Some?
    ensures 0.0 <= deferrals <= 5.0 && (deferrals + 1.0).Floor == deferrals.Floor + 1
  {
  }

  lemma DeferredView(row: Row, claim: Row, deferrals: real, message: string)
    ensures
      var data := DeferredRow(row, claim, deferrals, message).data;
      && SupersedesSoFar(data) == SupersedesSoFar(claim.data)
      && AlreadyReattributed(data) == AlreadyReattributed(claim.data)
      && LockDeferrals(data) == deferrals
  {
  }

  lemma DeferKeepsBudget(world: World, id: nat, claim: Row, message: string)
    requires Budgeted(world) && id < |world.claims| && claim.data == world.claims[id].data
    ensures Budgeted(Defer(world, id, claim, message))
  {
    var deferrals := LockDeferrals(claim.data);
    if DeferralDelay(deferrals).Some? {
      DeferralKeepsBudget(world, id, claim, deferrals, message);
      var row := DeferredRow(world.claims[id], claim, deferrals + 1.0, message);
      WorkerDoesNotCount(Note(Put(world, id, row), PayoutDeferred(id, DeferralDelay(deferrals).value)), Idle);
    } else {
      var row := DeferredRow(world.claims[id], claim, deferrals, message);
      DeferredView(world.claims[id], claim, deferrals, message);
      WriteKeepsBudget(world, id, row);
      WorkerDoesNotCount(Put(world, id, row), Stuck(id));
    }
  }

  lemma RecordKeepsBudget(world: World)
    requires Budgeted(world)
    ensures Budgeted(Record(world))
  {
    match world.worker
    case Settled(id, claim, plan) =>
      if plan.IsProven() {
        PayoutWriteKeepsBudget(world, id, PaidRow(world.claims[id], claim, plan), map[], Idle);
      }
    case Doubted(id, claim, message, settled) =>
      var landed: Data := map[
        "payoutError" := JStr(message),
        "reconciledFromChain" := JBool(true),
        "note" := JStr("Settled on chain; the signature was lost with the failed confirmation.")];
      var failed: Data := map["payoutError" := JStr(message)];
      if settled {
        PayoutWriteKeepsBudget(world, id, ReconciledRow(world.claims[id], claim, message), landed, Idle);
      } else if IsLockNotElapsed(message) {
        DeferKeepsBudget(world, id, claim, message);
      } else {
        PayoutWriteKeepsBudget(world, id, FailedRow(world.claims[id], claim, message), failed, Idle);
      }
    case _ =>
  }

  lemma MirrorKeepsBudget(world: World, policyId: nat, trigger: Trigger, txSignature: string)
    requires Budgeted(world)
    ensures Budgeted(MirrorClaim(world, policyId, trigger, txSignature))
  {
    var row := MirroredRow(policyId, trigger, txSignature);
    AppendKeepsBudget(world, row, false);
    assert world.(claims := world.claims + [row]) == Grown(world, row, false);
  }

  /** A handler that leaves the row in hand alone may run inside a payout. */
  lemma AsideKeepsBudget(world: World, after: World)
    requires Budgeted(world) && Spares(world, after)
    requires Budgeted(WithWorker(after, Idle))
    ensures Budgeted(after)
  {
    WorkerDoesNotCount(WithWorker(after, Idle), after.worker);
    assert WithWorker(WithWorker(after, Idle), after.worker) == after;
  }

  lemma IngestInsideKeepsBudget(world: World, config: Settlement.Config, alert: Alert, selected: Option<nat>)
    requires Budgeted(world) && Held(world)
    ensures Budgeted(Ingest(world, config, alert, selected))
  {
    WorkerDoesNotCount(world, Idle);
    IngestKeepsBudget(WithWorker(world, Idle), config, alert, selected);
    IngestForgetsWorker(world, Idle, config, alert, selected);
    IngestSpares(world, config, alert, selected);
    AsideKeepsBudget(world, Ingest(world, config, alert, selected));
  }

  lemma ProcessInsideKeepsBudget(world: World, config: Settlement.Config, id: nat, input: ProcessInput)
    requires Budgeted(world) && Serial(world, ProcessStep(id, input))
    requires input.verdict.details.Keys !! KEEPER_KEYS
    ensures Budgeted(Process(world, config, id, input))
  {
    WorkerDoesNotCount(world, Idle);
    ProcessKeepsBudget(WithWorker(world, Idle), config, id, input);
    ProcessForgetsWorker(world, Idle, config, id, input);
    ProcessSpares(world, config, id, input);
    AsideKeepsBudget(world, Process(world, config, id, input));
  }

  lemma StepKeepsBudget(world: World, config: Settlement.Config, step: Step)
    requires Budgeted(world) && Held(world) && Serial(world, step) && OffKeys(step)
    ensures Budgeted(Apply(world, config, step))
  {
    match step
    case IngestStep(alert, selected) => IngestInsideKeepsBudget(world, config, alert, selected);
    case ProcessStep(id, input) => ProcessInsideKeepsBudget(world, config, id, input);
    case DeliverStep(id) => WorkerDoesNotCount(world, Deliver(world, id).worker);
    case ArmStep => ArmKeepsBudget(world);
    case DecideStep(breakerOk) => DecideKeepsBudget(world, config, breakerOk);
    case SettleStep(report) => SettleKeepsBudget(world, report);
    case FaultStep(fault) => InterruptKeepsBudget(world, fault);
    case AskStep(chainReadable) => WorkerDoesNotCount(world, AskChain(world, chainReadable).worker);
    case RecordStep => RecordKeepsBudget(world);
    case EscalateStep =>
      if world.worker.Stuck? {
        var id := world.worker.id;
        ParkKeepsBudget(world, id, world.claims[id], "lock_never_elapsed",
          map["reviewReason" := JStr("lock_never_elapsed")]);
      }
    case CrashStep => WorkerDoesNotCount(world, Idle);
    case MirrorStep(policyId, trigger, txSignature) =>
      MirrorKeepsBudget(world, policyId, trigger, txSignature);
    case ReindexStep(policies) => SettingsDoNotCount(world, policies, world.chain);
    case ChainStep(policyId, after) => SettingsDoNotCount(world, world.policies, world.chain[policyId := after]);
  }

  lemma {:induction false} SerialRunStaysBudgeted(start: World, config: Settlement.Config, steps: seq<Step>)
    requires Initial(start) && SerialRun(start, config, steps) && AllOffKeys(steps)
    ensures Budgeted(Run(start, config, steps))
    decreases |steps|
  {
    if steps != [] {
      var before := steps[..|steps| - 1];
      SerialRunStaysBudgeted(start, config, before);
      SerialRunStaysHeld(start, config, before);
      assert OffKeys(steps[|steps| - 1]);
      StepKeepsBudget(Run(start, config, before), config, steps[|steps| - 1]);
    }
  }

  /** One claim row causes at most four scheduled retries, two supersedes, three
      re-filings and so at most ten process jobs, and at most six payout
      deferrals for each time its record was started. */
  lemma OneRowCausesBoundedWork(start: World, config: Settlement.Config, steps: seq<Step>, id: nat)
    requires Initial(start) && SerialRun(start, config, steps) && AllOffKeys(steps)
    ensures
      var usage := UsageOf(Run(start, config, steps).log, id);
      && usage.openings <= 1
      && usage.retries <= 4
      && usage.supersedes <= 2
      && usage.refilings <= 3
      && ProcessJobs(usage) <= 10
      && usage.deferrals <= 6 * (1 + usage.supersedes)
  {
    SerialRunStaysBudgeted(start, config, steps);
    assert RowBudgeted(Run(start, config, steps), id);
  }
}
