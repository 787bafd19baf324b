/** Risk tiers, their rates, and the price of a policy, in the covered mint's
    base units. */
module Premium {
  import opened ClaimTypes
  import opened Arithmetic

  datatype Tier = Low | Medium | High | Extreme

  const YEAR := 365 * 24 * 3600
  const MIN_PREMIUM := 1_000
  const FULL_MULTIPLIER := 10_000

  function Rank(tier: Tier): nat {
    match tier
    case Low => 0
    case Medium => 1
    case High => 2
    case Extreme => 3
  }

  /** The yearly rate in basis points; an extreme risk has none. */
  function TierToPremiumBps(tier: Tier): Option<nat> {
    match tier
    case Low => Some(100)
    case Medium => Some(250)
    case High => Some(500)
    case Extreme => None
  }

  function ScoreToTier(score: real): Tier {
    if score <= 0.3 then Low
    else if score <= 0.6 then Medium
    else if score <= 0.85 then High
    else Extreme
  }

  /** A higher score never lands in a milder tier, and no score past 0.85 has a rate;
      up to 0.3, 0.6 and 0.85 the rate is one, two and a half, and five per cent. */
  lemma TierFollowsScore(a: real, b: real)
    requires a <= b
    ensures Rank(ScoreToTier(a)) <= Rank(ScoreToTier(b))
    ensures TierToPremiumBps(ScoreToTier(b)) ==
      if b > 0.85 then None else Some(if b > 0.6 then 500 else if b > 0.3 then 250 else 100)
    ensures TierToPremiumBps(ScoreToTier(b)).Some?
        ==> TierToPremiumBps(ScoreToTier(a)).Some?
            && TierToPremiumBps(ScoreToTier(a)).value <= TierToPremiumBps(ScoreToTier(b)).value
  {
  }

  /** `a / b` to the nearest whole number, halves up. */
  function Nearest(a: nat, b: nat): (n: nat)
    requires b > 0
    ensures 2 * (b * n) <= 2 * a + b < 2 * (b * n) + 2 * b
  {
    (2 * a + b) / (2 * b)
  }

  /** The rate over the term, to the nearest base unit. */
  function TermPremium(coverage: nat, seconds: nat, bps: nat): nat {
    Nearest(coverage * bps * seconds, 10_000 * YEAR)
  }

  /** The price, or nothing for an extreme risk. The flat part is added after
      both roundings, the floor applied last. */
  function CalculatePremium(coverage: nat, seconds: nat, tier: Tier, multiplierBps: nat, flat: nat): Option<nat> {
    var bps := TierToPremiumBps(tier);
    if bps.None? then None
    else
      var premium := TermPremium(coverage, seconds, bps.value);
      var scaled := Nearest(premium * multiplierBps, 10_000);
      Some(Max(scaled + flat, MIN_PREMIUM))
  }

  lemma ProductMono(a: nat, b: nat, c: nat, d: nat)
    requires a <= b && c <= d
    ensures a * c <= b * d
  {
    var slack: int, gap: int := b - a, d - c;
    assert b * d == a * c + a * gap + slack * c + slack * gap;
  }

  lemma NearestIsMonotone(a: nat, a': nat, b: nat)
    requires b > 0 && a <= a'
    ensures Nearest(a, b) <= Nearest(a', b)
  {
    Distributes(Nearest(a', b), 1, b);
    MulCancels(Nearest(a, b), Nearest(a', b) + 1, b);
  }

  lemma TermPremiumIsMonotone(c: nat, c': nat, s: nat, s': nat, bps: nat, bps': nat)
    requires c <= c' && s <= s' && bps <= bps'
    ensures TermPremium(c, s, bps) <= TermPremium(c', s', bps')
  {
    ProductMono(c, c', bps, bps');
    ProductMono(c * bps, c' * bps', s, s');
    NearestIsMonotone(c * bps * s, c' * bps' * s', 10_000 * YEAR);
  }

  /** More cover, a longer term, a riskier tier, a higher multiplier or a higher
      flat part never costs less. */
  lemma PremiumIsMonotone(
    c: nat, c': nat, s: nat, s': nat, tier: Tier, tier': Tier, m: nat, m': nat, flat: nat, flat': nat)
    requires c <= c' && s <= s' && Rank(tier) <= Rank(tier') && m <= m' && flat <= flat'
    requires CalculatePremium(c', s', tier', m', flat').Some?
    ensures CalculatePremium(c, s, tier, m, flat).Some?
    ensures CalculatePremium(c, s, tier, m, flat).value <= CalculatePremium(c', s', tier', m', flat').value
  {
    var bps, bps' := TierToPremiumBps(tier).value, TierToPremiumBps(tier').value;
    TermPremiumIsMonotone(c, c', s, s', bps, bps');
    var p, p' := TermPremium(c, s, bps), TermPremium(c', s', bps');
    ProductMono(p, p', m, m');
    NearestIsMonotone(p * m, p' * m', 10_000);
  }

  /** What a policy costs at the full multiplier with no flat part. */
  function PlainPremium(coverage: nat, seconds: nat, tier: Tier): nat
    requires tier != Extreme
  {
    CalculatePremium(coverage, seconds, tier, FULL_MULTIPLIER, 0).value
  }

  /** The plain price is the rate over the term, floored: its second rounding
      does nothing. */
  lemma PlainPremiumIsTermPremium(coverage: nat, seconds: nat, tier: Tier)
    requires tier != Extreme
    ensures PlainPremium(coverage, seconds, tier)
         == Max(TermPremium(coverage, seconds, TierToPremiumBps(tier).value), MIN_PREMIUM)
  {
    var premium := TermPremium(coverage, seconds, TierToPremiumBps(tier).value);
    var scaled := Nearest(premium * 10_000, 10_000);
    assert scaled == premium;
  }

  function Sum(terms: seq<nat>): nat {
    if terms == [] then 0 else terms[0] + Sum(terms[1..])
  }

  /** The price of consecutive policies over each piece of a term. */
  function SplitPremium(coverage: nat, terms: seq<nat>, tier: Tier): nat
    requires tier != Extreme
  {
    if terms == [] then 0
    else PlainPremium(coverage, terms[0], tier) + SplitPremium(coverage, terms[1..], tier)
  }

  /** Each piece, rounded to the nearest, loses less than one half. */
  lemma {:induction false} PiecesCoverWhole(rate: nat, terms: seq<nat>, d: nat)
    requires d > 0
    ensures 2 * (d * Pieces(rate, terms, d)) + d * |terms| >= 2 * (rate * Sum(terms))
    ensures terms != [] ==> 2 * (d * Pieces(rate, terms, d)) + d * |terms| > 2 * (rate * Sum(terms))
    decreases |terms|
  {
    if terms != [] {
      PiecesCoverWhole(rate, terms[1..], d);
      Distributes(terms[0], Sum(terms[1..]), rate);
      HalvesAdd(d, Nearest(rate * terms[0], d), Pieces(rate, terms[1..], d),
                rate * terms[0], rate * Sum(terms[1..]), |terms| - 1);
    }
  }

  lemma HalvesAdd(d: int, n: int, rest: int, a: int, b: int, k: int)
    requires 2 * (d * n) + d > 2 * a && 2 * (d * rest) + d * k >= 2 * b
    ensures 2 * (d * (n + rest)) + d * (k + 1) > 2 * (a + b)
  {
    Distributes(n, rest, d);
    Distributes(k, 1, d);
  }

  lemma HalvesBound(d: int, whole: int, pieces: int, exact: int, k: int)
    requires d > 0 && 2 * (d * whole) <= 2 * exact + d && 2 * (d * pieces) + d * k > 2 * exact
    ensures 2 * (whole - pieces) <= k
  {
    var over := 2 * (whole - pieces) - (k + 1);
    assert d * over == 2 * (d * whole) - 2 * (d * pieces) - d * k - d;
    assert over >= 0 ==> d * over >= 0;
  }

  function Pieces(rate: nat, terms: seq<nat>, d: nat): nat
    requires d > 0
  {
    if terms == [] then 0 else Nearest(rate * terms[0], d) + Pieces(rate, terms[1..], d)
  }

  lemma WholeExceedsPiecesByHalves(rate: nat, terms: seq<nat>, d: nat)
    requires d > 0 && terms != []
    ensures 2 * (Nearest(rate * Sum(terms), d) - Pieces(rate, terms, d)) <= |terms|
  {
    PiecesCoverWhole(rate, terms, d);
    HalvesBound(d, Nearest(rate * Sum(terms), d), Pieces(rate, terms, d), rate * Sum(terms), |terms|);
  }

  lemma {:induction false} SplitIsPiecesFloored(coverage: nat, terms: seq<nat>, tier: Tier)
    requires tier != Extreme
    ensures SplitPremium(coverage, terms, tier)
         >= Pieces(coverage * TierToPremiumBps(tier).value, terms, 10_000 * YEAR)
    ensures SplitPremium(coverage, terms, tier) >= MIN_PREMIUM * |terms|
    decreases |terms|
  {
    if terms != [] {
      SplitIsPiecesFloored(coverage, terms[1..], tier);
      PlainPremiumIsTermPremium(coverage, terms[0], tier);
    }
  }

  /** Buying a term in `k` consecutive pieces is never cheaper than the whole by
      more than `k / 2` base units. */
  lemma SplittingSavesLittle(coverage: nat, terms: seq<nat>, tier: Tier)
    requires tier != Extreme && terms != []
    ensures 2 * (PlainPremium(coverage, Sum(terms), tier) - SplitPremium(coverage, terms, tier)) <= |terms|
  {
    SplitIsPiecesFloored(coverage, terms, tier);
    WholeExceedsPiecesByHalves(coverage * TierToPremiumBps(tier).value, terms, 10_000 * YEAR);
    PlainPremiumIsTermPremium(coverage, Sum(terms), tier);
  }

  /** The price of consecutive policies at any multiplier and flat part. */
  function SplitPrice(coverage: nat, terms: seq<nat>, tier: Tier, multiplierBps: nat, flat: nat): nat
    requires tier != Extreme
  {
    if terms == [] then 0
    else
      CalculatePremium(coverage, terms[0], tier, multiplierBps, flat).value
      + SplitPrice(coverage, terms[1..], tier, multiplierBps, flat)
  }

  /** What the pieces come to after both roundings, before flat parts and floors. */
  function ScaledPieces(rate: nat, terms: seq<nat>, d: nat, m: nat): nat
    requires d > 0
  {
    if terms == [] then 0
    else Nearest(Nearest(rate * terms[0], d) * m, 10_000) + ScaledPieces(rate, terms[1..], d, m)
  }

  lemma {:induction false} ScaledCoverPieces(rate: nat, terms: seq<nat>, d: nat, m: nat)
    requires d > 0
    ensures 2 * (10_000 * ScaledPieces(rate, terms, d, m)) + 10_000 * |terms| >= 2 * (Pieces(rate, terms, d) * m)
    ensures terms != [] ==>
      2 * (10_000 * ScaledPieces(rate, terms, d, m)) + 10_000 * |terms| > 2 * (Pieces(rate, terms, d) * m)
    decreases |terms|
  {
    if terms != [] {
      var n, rest := Nearest(rate * terms[0], d), terms[1..];
      ScaledCoverPieces(rate, rest, d, m);
      Distributes(n, Pieces(rate, rest, d), m);
      HalvesAdd(10_000, Nearest(n * m, 10_000), ScaledPieces(rate, rest, d, m),
                n * m, Pieces(rate, rest, d) * m, |terms| - 1);
    }
  }

  lemma {:induction false} SplitPriceIsScaledFloored(coverage: nat, terms: seq<nat>, tier: Tier, m: nat, flat: nat)
    requires tier != Extreme
    ensures
      var scaled := ScaledPieces(coverage * TierToPremiumBps(tier).value, terms, 10_000 * YEAR, m);
      SplitPrice(coverage, terms, tier, m, flat) >= scaled + (if terms == [] then 0 else flat)
    ensures SplitPrice(coverage, terms, tier, m, flat) >= MIN_PREMIUM * |terms|
    decreases |terms|
  {
    if terms != [] {
      SplitPriceIsScaledFloored(coverage, terms[1..], tier, m, flat);
    }
  }

  lemma ScaledBound(whole: int, scaled: int, pieces: int, split: int, k: int, m: int)
    requires m >= 0 && 2 * (whole - pieces) <= k
    requires 2 * (10_000 * scaled) <= 2 * (whole * m) + 10_000
    requires 2 * (10_000 * split) + 10_000 * k > 2 * (pieces * m)
    ensures 20_000 * (scaled - split) < k * m + 10_000 * (k + 1)
  {
    MulMono(2 * (whole - pieces), k, m);
    Distributes(whole, pieces, m);
    assert 2 * (whole - pieces) * m == 2 * ((whole - pieces) * m);
  }

  /** At any multiplier and flat part: over `k` pieces the saving stays under half a
      base unit for each of the `k + 1` last roundings, and half a multiplied one
      for each piece. */
  lemma SplittingSavesLittleAtAnyMultiplier(coverage: nat, terms: seq<nat>, tier: Tier, m: nat, flat: nat)
    requires tier != Extreme && terms != []
    ensures
      var whole := CalculatePremium(coverage, Sum(terms), tier, m, flat).value;
      var split := SplitPrice(coverage, terms, tier, m, flat);
      20_000 * (whole - split) < |terms| * m + 10_000 * (|terms| + 1)
  {
    var rate, d := coverage * TierToPremiumBps(tier).value, 10_000 * YEAR;
    var premium := Nearest(rate * Sum(terms), d);
    var scaled := Nearest(premium * m, 10_000);
    WholeExceedsPiecesByHalves(rate, terms, d);
    ScaledCoverPieces(rate, terms, d, m);
    ScaledBound(premium, scaled, Pieces(rate, terms, d), ScaledPieces(rate, terms, d, m), |terms|, m);
    SplitPriceIsScaledFloored(coverage, terms, tier, m, flat);
    assert |terms| * m >= 0;
  }

  /** And that much is saved: two pieces, one base unit. */
  lemma SplittingCanSaveAUnit()
    ensures Sum([5_000, 5_000]) == 10_000
    ensures PlainPremium(1_000_000_000, 10_000, Low) - SplitPremium(1_000_000_000, [5_000, 5_000], Low) == 1
  {
    assert Sum([5_000]) == 5_000;
    PlainPremiumIsTermPremium(1_000_000_000, 5_000, Low);
    PlainPremiumIsTermPremium(1_000_000_000, 10_000, Low);
    assert SplitPremium(1_000_000_000, [5_000], Low) == PlainPremium(1_000_000_000, 5_000, Low);
  }

  /** At any multiplier and flat part, above the floor: the price less the flat part
      is the exact one to within half a base unit and half a multiplied one. */
  lemma PriceIsCloseToExact(coverage: nat, seconds: nat, tier: Tier, m: nat, flat: nat)
    requires tier != Extreme && CalculatePremium(coverage, seconds, tier, m, flat).value > MIN_PREMIUM
    ensures
      var D := 10_000 * YEAR;
      var exact := coverage * TierToPremiumBps(tier).value * seconds;
      var price := CalculatePremium(coverage, seconds, tier, m, flat).value - flat;
      -((10_000 + m) * D) <= 20_000 * (D * price) - 2 * (m * exact) <= (10_000 + m) * D
  {
    var D := 10_000 * YEAR;
    var exact := coverage * TierToPremiumBps(tier).value * seconds;
    var premium := TermPremium(coverage, seconds, TierToPremiumBps(tier).value);
    TwoRoundings(D, exact, premium, Nearest(premium * m, 10_000), m);
  }

  lemma TwoRoundings(d: int, exact: int, premium: int, scaled: int, m: int)
    requires d > 0 && m >= 0
    requires -d <= 2 * (d * premium) - 2 * exact <= d
    requires -10_000 <= 20_000 * scaled - 2 * (premium * m) <= 10_000
    ensures -((10_000 + m) * d) <= 20_000 * (d * scaled) - 2 * (m * exact) <= (10_000 + m) * d
  {
    var first, second := 2 * (d * premium) - 2 * exact, 20_000 * scaled - 2 * (premium * m);
    MulMono(-d, first, m);
    MulMono(first, d, m);
    MulMono(-10_000, second, d);
    MulMono(second, 10_000, d);
    assert first * m == 2 * ((d * premium) * m) - 2 * (m * exact);
    assert second * d == 20_000 * (d * scaled) - 2 * ((premium * m) * d);
    assert (d * premium) * m == (premium * m) * d;
    Distributes(10_000, m, d);
    assert -(d * m) == (-d) * m;
  }

  /** The plain price is the exact one - the tier's rate on the cover, by the second
      over a year of 365 days - to within half a base unit, wherever the floor of 1000
      does not apply; and the floor does when that comes to less. */
  lemma PriceIsNearestToExact(coverage: nat, seconds: nat, tier: Tier)
    requires tier != Extreme
    ensures PlainPremium(coverage, seconds, tier) >= 1_000
    ensures
      var D := 315_360_000_000;
      var exact := coverage * (if tier == Low then 100 else if tier == Medium then 250 else 500) * seconds;
      if PlainPremium(coverage, seconds, tier) > 1_000 then
        -D < 2 * (D * PlainPremium(coverage, seconds, tier) - exact) <= D
      else 2 * exact < 2_001 * D
  {
    PlainPremiumIsTermPremium(coverage, seconds, tier);
  }
}
