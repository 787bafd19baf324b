/** What one alert does to the rows and the queue: dropped, a claim opened, or the
    slot of the one that is open taken, capped or refused. */
module AlertOutcomes {
  import opened ClaimTypes
  import opened VerificationRecord
  import opened Settlement
  import opened KeeperModel
  import opened Supersede
  import Verdicts

  /** A signed alert about an insured agent that names a covered event and a
      transaction. */
  predicate Usable(alert: Alert, config: Config, selected: Option<nat>, trigger: Trigger) {
    && alert.signed && alert.agent != "" && selected.Some?
    && Reports(alert.event, trigger)
    && AlertSignature(alert, config) != ""
  }

  /** Any other alert is dropped. */
  lemma UnusableAlertIsDropped(world: World, config: Config, alert: Alert, selected: Option<nat>)
    requires forall trigger :: !Usable(alert, config, selected, trigger)
    ensures Ingest(world, config, alert, selected) == world
  {
    var trigger := TriggerForEvent(alert.event);
    if trigger.Some? {
      EventNamesTrigger(alert.event, trigger.value);
      assert !Usable(alert, config, selected, trigger.value);
    }
  }

  ghost predicate AllClosed(claims: seq<Row>, policyId: nat) {
    forall id | 0 <= id < |claims| :: claims[id].policyId == policyId ==> Verdicts.Closed(claims[id].status)
  }

  /** The policy's one open claim. */
  ghost predicate IsTheOpenClaim(claims: seq<Row>, policyId: nat, id: nat) {
    && id < |claims| && claims[id].policyId == policyId && !Verdicts.Closed(claims[id].status)
    && forall other | 0 <= other < |claims| && other != id ::
         claims[other].policyId == policyId ==> Verdicts.Closed(claims[other].status)
  }

  /** With no claim open on the policy, a usable alert opens one and queues it. */
  lemma AlertOpensClaim(world: World, config: Config, alert: Alert, selected: Option<nat>, trigger: Trigger)
    requires Usable(alert, config, selected, trigger) && AllClosed(world.claims, selected.value)
    ensures Ingest(world, config, alert, selected) ==
      world.(
        claims := world.claims + [Row(
          selected.value, trigger, AlertSignature(alert, config), Pending, None, 0,
          JObj(map[
            "simulated" := JBool(Simulates(alert, config)),
            "eventType" := JStr(alert.event),
            "source" := JStr("claim-keeper")]),
          None, None, None)],
        log := world.log + [ClaimOpened(|world.claims|)])
  {
    EventNamesTrigger(alert.event, trigger);
    assert !HoldsOpenClaim(world.claims, selected.value);
  }

  /** Given the answer to "newest active policy of this agent", every claim an alert
      opens is on a policy of the alert's own agent, active and the newest such. */
  lemma ClaimsOpenOnNewestPolicy(world: World, config: Config, alert: Alert, selected: Option<nat>)
    requires SelectsNewestActive(world.policies, alert.agent, selected)
    ensures
      var after := Ingest(world, config, alert, selected);
      && |world.claims| <= |after.claims| <= |world.claims| + 1
      && (|after.claims| > |world.claims| ==>
            var chosen := after.claims[|world.claims|].policyId;
            && chosen in world.policies && world.policies[chosen].active
            && world.policies[chosen].agent == alert.agent
            && !exists p :: p in world.policies && world.policies[p].active && world.policies[p].agent == alert.agent
                 && world.policies[p].createdAt > world.policies[chosen].createdAt)
    ensures (exists p :: p in world.policies && world.policies[p].active && world.policies[p].agent == alert.agent)
        ==> selected.Some?
  {
  }

  /** A claim something is working on keeps its slot. */
  lemma BusyClaimKeepsSlot(
    world: World, config: Config, alert: Alert, selected: Option<nat>, trigger: Trigger, id: nat)
    requires Usable(alert, config, selected, trigger) && IsTheOpenClaim(world.claims, selected.value, id)
    requires world.claims[id].status in {Pending, Verifying, Approved, Paying}
    ensures Ingest(world, config, alert, selected) == world
  {
    EventNamesTrigger(alert.event, trigger);
    assert HoldsOpenClaim(world.claims, selected.value);
  }

  /** Governance over exploit over oracle over agent error. */
  predicate Outranks(a: Trigger, b: Trigger) {
    match b
    case NoTrigger => a != NoTrigger
    case AgentError => a in {GovernanceAttack, Exploit, OracleManipulation}
    case OracleManipulation => a in {GovernanceAttack, Exploit}
    case Exploit => a == GovernanceAttack
    case GovernanceAttack => false
  }

  lemma RankingIsSpecificity(a: Trigger, b: Trigger)
    ensures Outranks(a, b) <==> Specificity(a) > Specificity(b)
    ensures a != b ==> (Outranks(a, b) <==> !Outranks(b, a))
  {
  }

  /** Parked on our own failure to finish. */
  predicate ParkedByUs(row: Row) {
    row.reviewReason in {Some("trigger_tx_not_found"), Some("proof_path_unavailable")}
  }

  /** Parked on something no retry can clear. */
  predicate ParkedForGood(row: Row) {
    || ParkedByUs(row)
    || row.reviewReason in {
         Some("no_governance_baseline"), Some("no_mandate_declared"),
         Some("governance_baseline_not_matured"), Some("mandate_not_matured")}
  }

  /** The ways to the slot of a parked claim. */
  predicate MayTake(row: Row, trigger: Trigger, signature: string) {
    || Outranks(trigger, row.trigger)
    || (Outranks(row.trigger, trigger) && ParkedForGood(row))
    || (trigger == row.trigger && ParkedByUs(row) && signature != row.txSignature)
  }

  lemma SlotIsEarned(row: Row, trigger: Trigger, signature: string)
    ensures EarnsSlot(row, trigger, signature) <==> MayTake(row, trigger, signature)
  {
    RankingIsSpecificity(trigger, row.trigger);
    RankingIsSpecificity(row.trigger, trigger);
  }

  /** How often the claim has been taken over already. */
  function Takeovers(row: Row): real {
    if row.data.JObj? && "supersedeCount" in row.data.fields && row.data.fields["supersedeCount"].JNum?
    then row.data.fields["supersedeCount"].n else 0.0
  }

  /** Triggers by the number they are stored under. */
  const TRIGGERS := [NoTrigger, Exploit, OracleManipulation, AgentError, GovernanceAttack]

  /** The row under its new trigger, the old one stored by its number. What the claim
      was is kept in a record that is otherwise the alert's own. */
  ghost predicate TakenOver(before: Row, after: Row, alert: Alert, config: Config, trigger: Trigger, number: nat) {
    after == before.(
      trigger := trigger,
      txSignature := AlertSignature(alert, config),
      status := Pending,
      reviewReason := None,
      data := JObj(map[
        "simulated" := JBool(Simulates(alert, config)),
        "eventType" := JStr(alert.event),
        "source" := JStr("claim-keeper"),
        "supersededTriggerType" := JNum(number as real),
        "supersededFromStatus" := JStr(if before.status == Review then "review" else "indeterminate"),
        "supersededTxSignature" := JStr(before.txSignature),
        "supersedeCount" := JNum(Takeovers(before) + 1.0),
        "supersededReason" := JStr(
          if ParkedForGood(before) then "unresolvable:" + before.reviewReason.value else "higher_specificity")]))
  }

  /** A usable alert meets a parked claim: it takes the slot exactly when it may and
      the claim was taken over less than twice before; a third time sends the claim
      to a human; otherwise nothing changes. */
  lemma ParkedClaimIsTakenIff(
    world: World, config: Config, alert: Alert, selected: Option<nat>, trigger: Trigger, id: nat, number: nat)
    requires Usable(alert, config, selected, trigger) && IsTheOpenClaim(world.claims, selected.value, id)
    requires world.claims[id].status in {Indeterminate, Review}
    requires number < |TRIGGERS| && TRIGGERS[number] == world.claims[id].trigger
    ensures
      var row := world.claims[id];
      var after := Ingest(world, config, alert, selected);
      && |after.claims| == |world.claims|
      && after == world.(claims := world.claims[id := after.claims[id]], log := after.log)
      && (if !MayTake(row, trigger, AlertSignature(alert, config)) then after == world
          else if Takeovers(row) + 1.0 > 2.0 then
            && after.claims[id] == row.(status := Review, reviewReason := Some("supersede_cap_reached"))
            && after.log == world.log
          else
            && TakenOver(row, after.claims[id], alert, config, trigger, number)
            && after.log == world.log + [SupersedeQueued(id)])
  {
    var row, signature := world.claims[id], AlertSignature(alert, config);
    EventNamesTrigger(alert.event, trigger);
    SignatureIsEffective(alert, config);
    SlotIsEarned(row, trigger, signature);
    assert HoldsOpenClaim(world.claims, selected.value);
    assert FindParked(world.claims, selected.value, 0) == Some(id);
    TakingWritesRow(row, alert, config, trigger, number);
  }

  lemma TakingWritesRow(row: Row, alert: Alert, config: Config, trigger: Trigger, number: nat)
    requires row.status in {Indeterminate, Review}
    requires number < |TRIGGERS| && TRIGGERS[number] == row.trigger
    ensures
      var ingested := IngestData(alert, Simulates(alert, config));
      TakenOver(row, Superseded(row, trigger, AlertSignature(alert, config), ingested), alert, config, trigger, number)
  {
    assert TRIGGERS[0] == NoTrigger && TRIGGERS[1] == Exploit && TRIGGERS[2] == OracleManipulation
        && TRIGGERS[3] == AgentError && TRIGGERS[4] == GovernanceAttack;
    assert TriggerNumber(row.trigger) == number as real;
    TakingKeepsRecord(row, alert, config, number as real);
  }

  lemma TakingKeepsRecord(row: Row, alert: Alert, config: Config, number: real)
    requires row.status in {Indeterminate, Review} && TriggerNumber(row.trigger) == number
    ensures
      var ingested := IngestData(alert, Simulates(alert, config));
      Superseded(row, row.trigger, row.txSignature, ingested).data == JObj(map[
        "simulated" := JBool(Simulates(alert, config)),
        "eventType" := JStr(alert.event),
        "source" := JStr("claim-keeper"),
        "supersededTriggerType" := JNum(number),
        "supersededFromStatus" := JStr(if row.status == Review then "review" else "indeterminate"),
        "supersededTxSignature" := JStr(row.txSignature),
        "supersedeCount" := JNum(Takeovers(row) + 1.0),
        "supersededReason" := JStr(
          if ParkedForGood(row) then "unresolvable:" + row.reviewReason.value else "higher_specificity")])
  {
    assert SupersedesSoFar(row.data) == Takeovers(row);
    assert IsPermanentlyParked(row.reviewReason) <==> ParkedForGood(row);
  }
}
