/** What a quote comes to, the operating envelope it derives, and the vault that
    backs the policies bought from it. */
module Quote {
  import opened ClaimTypes
  import opened Premium

  const CAP_HEADROOM_MULTIPLE := 5
  const WINDOW_MULTIPLE := 3
  const DERIVED_WINDOW_SECONDS := 3_600
  const MIN_OBSERVATIONS_TO_DERIVE := 5

  datatype Basis = History | BalanceOnly
  datatype Bound = AgentBalance | VaultCapacity

  datatype Envelope = Envelope(
    maxSingleOutflow: int, maxWindowOutflow: int, windowSeconds: int, minRetained: int,
    counterparties: seq<string>, programs: seq<string>)

  datatype Derivation = Derivation(envelope: Envelope, basis: Basis, ordinaryOutflow: Option<real>)

  /** To the nearest whole number, halves up. */
  function Round(x: real): int {
    (x + 0.5).Floor
  }

  /** The cap is a multiple of what the agent ordinarily moves, or its balance
      while there is no habit to measure. */
  function DeriveEnvelope(
    balance: nat, p95: Option<real>, transfers: nat, tokenProgram: string): Derivation
  {
    var hasHabit := p95.Some? && p95.value > 0.0 && transfers >= MIN_OBSERVATIONS_TO_DERIVE;
    var cap := if hasHabit then Round(p95.value * CAP_HEADROOM_MULTIPLE as real) else balance;
    var single := if cap > 1 then cap else 1;
    Derivation(
      Envelope(single, single * WINDOW_MULTIPLE, DERIVED_WINDOW_SECONDS, 0, [], [tokenProgram]),
      if hasHabit then History else BalanceOnly,
      if hasHabit then p95 else None)
  }

  /** There is a habit to measure: at least five movements, ordinarily of something. */
  predicate HasHabit(p95: Option<real>, transfers: nat) {
    p95.Some? && p95.value > 0.0 && transfers >= 5
  }

  /** What a breach takes. Without a habit the cap is the balance, so nothing the
      agent can move crosses it; with one, a movement crosses it exactly when it is
      more than five times the ordinary and half a base unit, and more than one base
      unit. An hour may take three times the cap, nothing need be kept, and the token
      program alone is named. */
  lemma BreachIsAbnormal(balance: nat, p95: Option<real>, transfers: nat, program: string, moved: nat)
    ensures
      var derived := DeriveEnvelope(balance, p95, transfers, program);
      var cap := derived.envelope.maxSingleOutflow;
      && derived.envelope == Envelope(cap, 3 * cap, 3_600, 0, [], [program])
      && 1 <= cap
      && (if HasHabit(p95, transfers) then
            && derived.basis == History && derived.ordinaryOutflow == p95
            && (moved > cap <==> moved > 1 && moved as real > 5.0 * p95.value + 0.5)
          else
            && derived.basis == BalanceOnly && derived.ordinaryOutflow == None
            && (moved > cap <==> moved > 1 && moved > balance))
  {
    if p95.Some? {
      var scaled := p95.value * 5.0;
      var cap := Round(scaled);
      assert cap as real <= scaled + 0.5 < cap as real + 1.0;
    }
  }

  /** The most cover worth selling: what the agent holds, or what the stake can
      still carry at two for one, whichever is less. */
  function MaxInsurableCoverage(balance: nat, staked: nat, coverage: nat): (nat, Bound) {
    var capacity := if staked * 2 > coverage then staked * 2 - coverage else 0;
    if balance <= capacity then (balance, AgentBalance) else (capacity, VaultCapacity)
  }

  datatype Request = Request(
    cover: nat, seconds: nat, tier: Tier, balance: nat, p95: Option<real>, transfers: nat, program: string)

  datatype Decision =
    | Refused(maxCoverage: nat, bound: Bound)
    | Unpriceable
    | Priced(premium: nat, flat: nat, derivation: Derivation, maxCoverage: nat, bound: Bound)

  function DecideQuote(request: Request, staked: nat, coverage: nat): Decision {
    var (maximum, bound) := MaxInsurableCoverage(request.balance, staked, coverage);
    if request.cover > maximum then Refused(maximum, bound)
    else
      var derivation := DeriveEnvelope(request.balance, request.p95, request.transfers, request.program);
      var premium := CalculatePremium(request.cover, request.seconds, request.tier, FULL_MULTIPLIER, 0);
      if premium.None? then Unpriceable
      else Priced(premium.value, 0, derivation, maximum, bound)
  }

  /** The vault carries a cover at two for one; no cover at all it always carries. */
  predicate Carries(staked: nat, coverage: nat, cover: nat) {
    cover == 0 || coverage + cover <= 2 * staked
  }

  /** Cover is priced exactly when the tier has a rate, the agent holds that
      much, and the vault stays at two for one with it; the bound named in a
      refusal is one that the cover breaks. */
  lemma QuoteIsPricedIff(request: Request, staked: nat, coverage: nat)
    ensures DecideQuote(request, staked, coverage).Priced? <==>
      request.tier != Extreme && request.cover <= request.balance && Carries(staked, coverage, request.cover)
    ensures DecideQuote(request, staked, coverage).Refused? <==>
      request.cover > request.balance || !Carries(staked, coverage, request.cover)
    ensures
      var decision := DecideQuote(request, staked, coverage);
      decision.Refused? ==>
        if decision.bound == AgentBalance then request.cover > request.balance
        else !Carries(staked, coverage, request.cover)
    ensures
      var decision := DecideQuote(request, staked, coverage);
      decision.Priced? ==>
        && decision.premium == PlainPremium(request.cover, request.seconds, request.tier)
        && decision.flat == 0
        && decision.derivation == DeriveEnvelope(request.balance, request.p95, request.transfers, request.program)
    ensures
      var decision := DecideQuote(request, staked, coverage);
      decision.Priced? || decision.Refused? ==>
        && (decision.bound == AgentBalance <==> request.balance == 0 || request.balance + coverage <= 2 * staked)
        && (forall cover: nat :: cover <= decision.maxCoverage <==>
              cover <= request.balance && Carries(staked, coverage, cover))
  {
  }

  // ---------------------------------------------------------------------------
  // Runs of the vault
  // ---------------------------------------------------------------------------

  datatype Vault = Vault(staked: nat, policies: seq<nat>)

  datatype Act =
    | Stake(amount: nat)
    | Expire(policy: nat)
    | Buy(request: Request)

  function Coverage(policies: seq<nat>): nat {
    if policies == [] then 0 else policies[0] + Coverage(policies[1..])
  }

  function Apply(vault: Vault, act: Act): Vault {
    match act
    case Stake(amount) => vault.(staked := vault.staked + amount)
    case Expire(policy) =>
      if policy < |vault.policies|
      then vault.(policies := vault.policies[..policy] + vault.policies[policy + 1..])
      else vault
    case Buy(request) =>
      if DecideQuote(request, vault.staked, Coverage(vault.policies)).Priced?
      then vault.(policies := vault.policies + [request.cover])
      else vault
  }

  function After(vault: Vault, acts: seq<Act>): Vault
    decreases |acts|
  {
    if acts == [] then vault else After(Apply(vault, acts[0]), acts[1..])
  }

  predicate Solvent(vault: Vault) {
    Coverage(vault.policies) <= 2 * vault.staked
  }

  lemma {:induction false} CoverageAdds(a: seq<nat>, b: seq<nat>)
    ensures Coverage(a + b) == Coverage(a) + Coverage(b)
    decreases |a|
  {
    if a == [] {
      assert a + b == b;
    } else {
      CoverageAdds(a[1..], b);
      assert (a + b)[1..] == a[1..] + b;
    }
  }

  lemma ActKeepsSolvency(vault: Vault, act: Act)
    requires Solvent(vault)
    ensures Solvent(Apply(vault, act))
  {
    var policies := vault.policies;
    match act
    case Stake(_) =>
    case Expire(policy) =>
      if policy < |policies| {
        CoverageAdds(policies[..policy], policies[policy..]);
        CoverageAdds(policies[..policy], policies[policy + 1..]);
        assert policies == policies[..policy] + policies[policy..];
      }
    case Buy(request) =>
      CoverageAdds(policies, [request.cover]);
      assert Coverage([request.cover]) == request.cover;
  }

  /** Over any run of quotes bought at the current totals, stakes and expiries,
      the vault carries at most twice what is staked. */
  lemma {:induction false} EveryRunStaysSolvent(vault: Vault, acts: seq<Act>)
    requires Solvent(vault)
    ensures Solvent(After(vault, acts))
    decreases |acts|
  {
    if acts != [] {
      ActKeepsSolvency(vault, acts[0]);
      EveryRunStaysSolvent(Apply(vault, acts[0]), acts[1..]);
    }
  }

  /** The ceiling is met exactly: from any solvent vault one more quote can fill
      what is left, and nothing beyond it is sold. */
  lemma CapacityIsExact(vault: Vault, request: Request)
    requires Solvent(vault) && request.tier != Extreme && request.balance >= request.cover
    ensures
      var room := 2 * vault.staked - Coverage(vault.policies);
      Apply(vault, Buy(request)).policies
      == if request.cover <= room then vault.policies + [request.cover] else vault.policies
  {
    QuoteIsPricedIff(request, vault.staked, Coverage(vault.policies));
  }
}
