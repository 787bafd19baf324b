/** When a later alert may take over a parked claim, and why a stream of
    identical alerts never moves one. */
module Supersede {
  import opened ClaimTypes
  import opened VerificationRecord
  import opened Settlement
  import opened KeeperModel

  /** The four events that file a claim, and what they file it as. */
  predicate Reports(event: string, trigger: Trigger) {
    || (event == "exploit" && trigger == Exploit)
    || (event == "oracle_deviation" && trigger == OracleManipulation)
    || (event == "agent_error" && trigger == AgentError)
    || (event == "governance_attack" && trigger == GovernanceAttack)
  }

  /** The alert is simulated, and nothing about the deployment says real money. */
  predicate Simulates(alert: Alert, config: Config) {
    alert.simulated && !config.production && !config.mainnetBeta && !config.mainnetUsdc
  }

  /** The transaction the alert names, or a demo one for a simulated alert. */
  function AlertSignature(alert: Alert, config: Config): string {
    if alert.txSignature == "" && Simulates(alert, config) then alert.demoSignature else alert.txSignature
  }

  lemma EventNamesTrigger(event: string, trigger: Trigger)
    ensures TriggerForEvent(event) == Some(trigger) <==> Reports(event, trigger)
  {
  }

  lemma SignatureIsEffective(alert: Alert, config: Config)
    ensures Simulates(alert, config) <==> alert.simulated && SyntheticAllowed(config)
    ensures EffectiveSignature(alert, Simulates(alert, config)) == AlertSignature(alert, config)
  {
  }

  /** The slot moved: the row is pending again under the alert's trigger. */
  ghost predicate TookSlot(before: Row, after: Row) {
    IsParked(before.status) && after.status.Pending?
  }

  /** An alert changes an existing row only if it is parked. It takes the slot
      only by outranking the claim, by finding it parked on a reason no retry can
      clear, or - same trigger - by naming another transaction for a claim parked
      on our own failure. Money, attempts and policy are carried over; past two
      supersedes the row can only go to a human. */
  lemma AlertTouchesOnlyParkedClaims(world: World, config: Config, alert: Alert, selected: Option<nat>, id: nat)
    requires id < |world.claims|
    ensures
      var before := world.claims[id];
      var after := Ingest(world, config, alert, selected).claims[id];
      && (after != before ==> IsParked(before.status) && selected == Some(before.policyId))
      && (TookSlot(before, after) ==>
            && Reports(alert.event, after.trigger)
            && after.txSignature == AlertSignature(alert, config)
            && (Specificity(after.trigger) > Specificity(before.trigger) || IsPermanentlyParked(before.reviewReason))
            && (after.trigger == before.trigger ==>
                  IsTransientlyParked(before.reviewReason) && after.txSignature != before.txSignature)
            && after.(trigger := before.trigger, txSignature := before.txSignature, status := before.status,
                      reviewReason := before.reviewReason, data := before.data) == before
            && SupersedesSoFar(after.data) == SupersedesSoFar(before.data) + 1.0 <= MAX_SUPERSEDES)
      && (after != before && !TookSlot(before, after) ==>
            after == before.(status := Review, reviewReason := Some("supersede_cap_reached")))
  {
    var trigger := TriggerForEvent(alert.event);
    if trigger.Some? && selected.Some? {
      SpecificityIsInjective(trigger.value, world.claims[id].trigger);
    }
  }

  /** An alert repeating a row's own trigger and signature leaves that row alone. */
  lemma RepeatChangesNothing(world: World, config: Config, alert: Alert, selected: Option<nat>, id: nat)
    requires id < |world.claims|
    requires Reports(alert.event, world.claims[id].trigger)
    requires AlertSignature(alert, config) == world.claims[id].txSignature
    ensures id < |Ingest(world, config, alert, selected).claims|
    ensures Ingest(world, config, alert, selected).claims[id] == world.claims[id]
  {
    EventNamesTrigger(alert.event, world.claims[id].trigger);
    SignatureIsEffective(alert, config);
    if selected.Some? {
      var parked := FindParked(world.claims, selected.value, 0);
      if parked == Some(id) {
        assert !EarnsSlot(world.claims[id], world.claims[id].trigger, world.claims[id].txSignature);
      }
    }
  }

  datatype Delivery = Delivery(alert: Alert, selected: Option<nat>)

  function IngestAll(world: World, config: Config, deliveries: seq<Delivery>): World
    decreases |deliveries|
  {
    if deliveries == [] then world
    else IngestAll(Ingest(world, config, deliveries[0].alert, deliveries[0].selected), config, deliveries[1..])
  }

  /** Nor does any stream of such alerts, whatever policies they resolve to. */
  lemma {:induction false} StreamOfRepeatsChangesNothing(
    world: World, config: Config, deliveries: seq<Delivery>, id: nat)
    requires id < |world.claims|
    requires forall k | 0 <= k < |deliveries| ::
      && Reports(deliveries[k].alert.event, world.claims[id].trigger)
      && AlertSignature(deliveries[k].alert, config) == world.claims[id].txSignature
    ensures id < |IngestAll(world, config, deliveries).claims|
    ensures IngestAll(world, config, deliveries).claims[id] == world.claims[id]
    decreases |deliveries|
  {
    if deliveries != [] {
      RepeatChangesNothing(world, config, deliveries[0].alert, deliveries[0].selected, id);
      var next := Ingest(world, config, deliveries[0].alert, deliveries[0].selected);
      StreamOfRepeatsChangesNothing(next, config, deliveries[1..], id);
    }
  }
}
