/** The claim vocabulary: triggers, statuses, their ranking, and the reasons a
    claim may be parked on. */
module ClaimTypes {

  datatype Option<+T> = None | Some(value: T)

  datatype Trigger = NoTrigger | Exploit | OracleManipulation | AgentError | GovernanceAttack

  datatype Status =
    | Pending
    | Verifying
    | Approved
    | Paying
    | Paid
    | Rejected
    | Failed
    | Indeterminate
    | Review

  datatype ProofKind = PriceProof | BalanceProof | AuthorityProof | MandateProof | Unproven

  /** How specific a trigger's account of an incident is; higher takes the slot. */
  function Specificity(trigger: Trigger): nat {
    match trigger
    case NoTrigger => 0
    case GovernanceAttack => 5
    case Exploit => 4
    case OracleManipulation => 3
    case AgentError => 2
  }

  /** Open statuses in which nothing automated is working on the claim. */
  predicate IsParked(status: Status) {
    status.Indeterminate? || status.Review?
  }

  /** The predicate of the partial unique index: one such claim per policy. */
  predicate IsOpen(status: Status) {
    status.Pending? || status.Verifying? || status.Approved? || status.Paying? || IsParked(status)
  }

  const UNRESOLVABLE_PARK_REASONS: set<string> := {
    "no_governance_baseline",
    "no_mandate_declared",
    "governance_baseline_not_matured",
    "mandate_not_matured",
    "trigger_tx_not_found",
    "proof_path_unavailable"
  }

  const TRANSIENT_PARK_REASONS: set<string> := {"trigger_tx_not_found", "proof_path_unavailable"}

  predicate IsTransientlyParked(reviewReason: Option<string>) {
    reviewReason.Some? && reviewReason.value in TRANSIENT_PARK_REASONS
  }

  predicate IsPermanentlyParked(reviewReason: Option<string>) {
    reviewReason.Some? && reviewReason.value in UNRESOLVABLE_PARK_REASONS
  }

  /** No two triggers rank alike, so "equally specific" means "the same trigger". */
  lemma SpecificityIsInjective(a: Trigger, b: Trigger)
    ensures Specificity(a) == Specificity(b) <==> a == b
  {
  }
}
