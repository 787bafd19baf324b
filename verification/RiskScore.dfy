/** The confidence-weighted risk score of an agent, and its five category scores. */
module RiskScore {
  import Premium
  import opened Arithmetic

  datatype Category = TransactionBehavior | ProtocolDefi | WalletIdentity | Portfolio | BehavioralPatterns

  datatype Factor =
    | FailedTxRatio
    | AvgSlippage
    | TxVelocityAnomaly
    | SandwichVictim
    | ProtocolConcentration
    | RiskyProtocolExposure
    | DefiComplexity
    | WalletAge
    | SolBalanceHealth
    | FundingSourceConcentration
    | TokenConcentration
    | PortfolioValueRisk
    | StablecoinRatio
    | ActivityRegularity
    | RecentRiskTrend

  datatype Config = Config(factor: Factor, category: Category, baseWeight: real, minDataPoints: nat)

  const FACTOR_CONFIGS: seq<Config> := [
    Config(FailedTxRatio, TransactionBehavior, 0.10, 10),
    Config(AvgSlippage, TransactionBehavior, 0.08, 3),
    Config(TxVelocityAnomaly, TransactionBehavior, 0.07, 20),
    Config(SandwichVictim, TransactionBehavior, 0.05, 5),
    Config(ProtocolConcentration, ProtocolDefi, 0.08, 5),
    Config(RiskyProtocolExposure, ProtocolDefi, 0.08, 5),
    Config(DefiComplexity, ProtocolDefi, 0.06, 3),
    Config(WalletAge, WalletIdentity, 0.07, 1),
    Config(SolBalanceHealth, WalletIdentity, 0.05, 1),
    Config(FundingSourceConcentration, WalletIdentity, 0.06, 3),
    Config(TokenConcentration, Portfolio, 0.07, 2),
    Config(PortfolioValueRisk, Portfolio, 0.05, 1),
    Config(StablecoinRatio, Portfolio, 0.06, 1),
    Config(ActivityRegularity, BehavioralPatterns, 0.06, 15),
    Config(RecentRiskTrend, BehavioralPatterns, 0.06, 20)
  ]

  const CATEGORIES := [TransactionBehavior, ProtocolDefi, WalletIdentity, Portfolio, BehavioralPatterns]

  datatype Data = Data(
    transactions: nat, swaps: nat, tokens: nat, hasAccountInfo: bool, hasSolBalance: bool, incoming: nat)

  datatype Weight = Weight(factor: Factor, category: Category, confidence: real, effective: real)

  /** What each of the fifteen factors scored. */
  type Scores = Factor -> real

  function Saturating(count: nat, enough: nat): (confidence: real)
    requires enough > 0
    ensures 0.0 <= confidence <= 1.0
    ensures count >= enough ==> confidence == 1.0
    ensures count <= enough ==> confidence * enough as real == count as real
  {
    if count >= enough then 1.0 else count as real / enough as real
  }

  /** How far the data at hand supports a factor. */
  function Confidence(config: Config, data: Data): (confidence: real)
    requires config.minDataPoints > 0
    ensures 0.0 <= confidence <= 1.0
    ensures config.factor == WalletAge ==> confidence >= 0.3
  {
    match config.factor
    case AvgSlippage => Saturating(data.swaps, config.minDataPoints)
    case SandwichVictim => Saturating(data.swaps, config.minDataPoints)
    case WalletAge => if data.hasAccountInfo || data.transactions > 0 then 1.0 else 0.3
    case SolBalanceHealth => if data.hasSolBalance then 1.0 else 0.5
    case FundingSourceConcentration => Saturating(data.incoming, config.minDataPoints)
    case TokenConcentration => Saturating(data.tokens, config.minDataPoints)
    case PortfolioValueRisk => if data.tokens > 0 || data.hasSolBalance then 0.8 else 0.3
    case StablecoinRatio => if data.tokens > 0 then 0.9 else 0.3
    case _ => Saturating(data.transactions, config.minDataPoints)
  }

  function WeightOf(config: Config, data: Data): Weight
    requires config.minDataPoints > 0
  {
    var confidence := Confidence(config, data);
    Weight(config.factor, config.category, confidence, Times(config.baseWeight, confidence))
  }

  function DynamicWeights(data: Data): (weights: seq<Weight>)
    ensures |weights| == |FACTOR_CONFIGS|
  {
    seq(|FACTOR_CONFIGS|, i requires 0 <= i < |FACTOR_CONFIGS| => WeightOf(FACTOR_CONFIGS[i], data))
  }

  function Total(weights: seq<Weight>): real {
    if weights == [] then 0.0 else Total(Init(weights)) + Last(weights).effective
  }

  function Weighted(weights: seq<Weight>, scores: Scores): real {
    if weights == [] then 0.0
    else Weighted(Init(weights), scores) + Times(scores(Last(weights).factor), Last(weights).effective)
  }

  /** The weighted mean of the factors, halfway when nothing carries weight. */
  function Mean(weights: seq<Weight>, scores: Scores): real {
    if Total(weights) > 0.0 then Weighted(weights, scores) / Total(weights) else 0.5
  }

  function InCategory(weights: seq<Weight>, category: Category): seq<Weight> {
    if weights == [] then []
    else
      InCategory(Init(weights), category)
      + (if Last(weights).category == category then [Last(weights)] else [])
  }

  function Thousandths(x: real): int {
    (x * 1000.0 + 0.5).Floor
  }

  /** To three decimals, halves up. */
  function Rounded(x: real): real {
    Thousandths(x) as real / 1000.0
  }

  // ---------------------------------------------------------------------------
  // The loops
  // ---------------------------------------------------------------------------

  method TotalWeight(weights: seq<Weight>) returns (total: real)
    ensures total == Total(weights)
  {
    total := 0.0;
    for i := 0 to |weights|
      invariant total == Total(weights[..i])
    {
      assert Init(weights[..i + 1]) == weights[..i];
      total := total + weights[i].effective;
    }
    assert weights[..|weights|] == weights;
  }

  method WeightedSum(weights: seq<Weight>, scores: Scores) returns (sum: real)
    ensures sum == Weighted(weights, scores)
  {
    sum := 0.0;
    for i := 0 to |weights|
      invariant sum == Weighted(weights[..i], scores)
    {
      assert Init(weights[..i + 1]) == weights[..i];
      sum := sum + Times(scores(weights[i].factor), weights[i].effective);
    }
    assert weights[..|weights|] == weights;
  }

  method AssessScore(data: Data, scores: Scores) returns (score: real)
    ensures score == Rounded(Mean(DynamicWeights(data), scores))
  {
    var weights := DynamicWeights(data);
    var total := TotalWeight(weights);
    var raw := WeightedSum(weights, scores);
    TotalIsNeverZero(data);
    score := if total > 0.0 then Rounded(raw / total) else 0.5;
  }

  datatype Rating = LowRating | ModerateRating | ElevatedRating | HighRating

  function RatingOf(value: real): Rating {
    if value <= 0.25 then LowRating
    else if value <= 0.5 then ModerateRating
    else if value <= 0.75 then ElevatedRating
    else HighRating
  }

  function TitleOf(category: Category): string {
    match category
    case TransactionBehavior => "Transaction Behavior"
    case ProtocolDefi => "Protocol & DeFi Risk"
    case WalletIdentity => "Wallet & Identity"
    case Portfolio => "Portfolio Risk"
    case BehavioralPatterns => "Behavioral Patterns"
  }

  datatype CategoryRisk = CategoryRisk(
    category: Category, title: string, score: real, weight: real, rating: Rating, factorCount: nat)

  /** What a category comes to. It is rated on its score before rounding. */
  function RiskOf(weights: seq<Weight>, scores: Scores, category: Category): CategoryRisk {
    var members := InCategory(weights, category);
    var score := Mean(members, scores);
    CategoryRisk(category, TitleOf(category), Rounded(score), Total(members), RatingOf(score), |members|)
  }

  method BuildCategoryRisks(weights: seq<Weight>, scores: Scores) returns (risks: seq<CategoryRisk>)
    ensures |risks| == 5 == |CATEGORIES|
    ensures [risks[0].title, risks[1].title, risks[2].title, risks[3].title, risks[4].title] == [
      "Transaction Behavior", "Protocol & DeFi Risk", "Wallet & Identity", "Portfolio Risk", "Behavioral Patterns"]
    ensures forall i | 0 <= i < |CATEGORIES| :: risks[i] == RiskOf(weights, scores, CATEGORIES[i])
  {
    risks := [];
    for i := 0 to |CATEGORIES|
      invariant |risks| == i
      invariant forall j | 0 <= j < i :: risks[j] == RiskOf(weights, scores, CATEGORIES[j])
    {
      var category := CATEGORIES[i];
      var members := InCategory(weights, category);
      var total := TotalWeight(members);
      var score := 0.0;
      if total > 0.0 {
        score := WeightedSum(members, scores);
        score := score / total;
      } else {
        score := 0.5;
      }
      risks := risks + [CategoryRisk(category, TitleOf(category), Rounded(score), total, RatingOf(score), |members|)];
    }
  }

  // ---------------------------------------------------------------------------
  // What the score promises
  // ---------------------------------------------------------------------------

  /** What each factor weighs: its share of one, scaled by how far the data it is read
      from goes towards being enough - transactions, swaps, tokens or incoming
      transfers - or by whether it is there at all. */
  lemma WeightsFollowData(data: Data)
    ensures
      var weights := DynamicWeights(data);
      && weights[0].effective == 0.10 * Saturating(data.transactions, 10)
      && weights[1].effective == 0.08 * Saturating(data.swaps, 3)
      && weights[2].effective == 0.07 * Saturating(data.transactions, 20)
      && weights[3].effective == 0.05 * Saturating(data.swaps, 5)
      && weights[4].effective == 0.08 * Saturating(data.transactions, 5)
      && weights[5].effective == 0.08 * Saturating(data.transactions, 5)
      && weights[6].effective == 0.06 * Saturating(data.transactions, 3)
      && weights[7].effective == (if data.hasAccountInfo || data.transactions != 0 then 0.07 else 0.021)
      && weights[8].effective == (if data.hasSolBalance then 0.05 else 0.025)
      && weights[9].effective == 0.06 * Saturating(data.incoming, 3)
      && weights[10].effective == 0.07 * Saturating(data.tokens, 2)
      && weights[11].effective == (if data.tokens != 0 || data.hasSolBalance then 0.04 else 0.015)
      && weights[12].effective == (if data.tokens != 0 then 0.054 else 0.018)
      && weights[13].effective == 0.06 * Saturating(data.transactions, 15)
      && weights[14].effective == 0.06 * Saturating(data.transactions, 20)
  {
    TransactionWeights(data);
    ProtocolWeights(data);
    WalletWeights(data);
    PortfolioWeights(data);
    RegularityWeights(data);
  }

  lemma WeightAt(data: Data, i: nat, config: Config)
    requires i < |FACTOR_CONFIGS| && FACTOR_CONFIGS[i] == config && config.minDataPoints > 0
    ensures DynamicWeights(data)[i].effective == config.baseWeight * Confidence(config, data)
  {
  }

  lemma TransactionWeights(data: Data)
    ensures
      var weights := DynamicWeights(data);
      && weights[0].effective == 0.10 * Saturating(data.transactions, 10)
      && weights[1].effective == 0.08 * Saturating(data.swaps, 3)
      && weights[2].effective == 0.07 * Saturating(data.transactions, 20)
      && weights[3].effective == 0.05 * Saturating(data.swaps, 5)
  {
    WeightAt(data, 0, Config(FailedTxRatio, TransactionBehavior, 0.10, 10));
    WeightAt(data, 1, Config(AvgSlippage, TransactionBehavior, 0.08, 3));
    WeightAt(data, 2, Config(TxVelocityAnomaly, TransactionBehavior, 0.07, 20));
    WeightAt(data, 3, Config(SandwichVictim, TransactionBehavior, 0.05, 5));
  }

  lemma ProtocolWeights(data: Data)
    ensures
      var weights := DynamicWeights(data);
      && weights[4].effective == 0.08 * Saturating(data.transactions, 5)
      && weights[5].effective == 0.08 * Saturating(data.transactions, 5)
      && weights[6].effective == 0.06 * Saturating(data.transactions, 3)
  {
    WeightAt(data, 4, Config(ProtocolConcentration, ProtocolDefi, 0.08, 5));
    WeightAt(data, 5, Config(RiskyProtocolExposure, ProtocolDefi, 0.08, 5));
    WeightAt(data, 6, Config(DefiComplexity, ProtocolDefi, 0.06, 3));
  }

  lemma WalletWeights(data: Data)
    ensures
      var weights := DynamicWeights(data);
      && weights[7].effective == (if data.hasAccountInfo || data.transactions != 0 then 0.07 else 0.021)
      && weights[8].effective == (if data.hasSolBalance then 0.05 else 0.025)
      && weights[9].effective == 0.06 * Saturating(data.incoming, 3)
  {
    WeightAt(data, 7, Config(WalletAge, WalletIdentity, 0.07, 1));
    WeightAt(data, 8, Config(SolBalanceHealth, WalletIdentity, 0.05, 1));
    WeightAt(data, 9, Config(FundingSourceConcentration, WalletIdentity, 0.06, 3));
  }

  lemma PortfolioWeights(data: Data)
    ensures
      var weights := DynamicWeights(data);
      && weights[10].effective == 0.07 * Saturating(data.tokens, 2)
      && weights[11].effective == (if data.tokens != 0 || data.hasSolBalance then 0.04 else 0.015)
      && weights[12].effective == (if data.tokens != 0 then 0.054 else 0.018)
  {
    WeightAt(data, 10, Config(TokenConcentration, Portfolio, 0.07, 2));
    WeightAt(data, 11, Config(PortfolioValueRisk, Portfolio, 0.05, 1));
    WeightAt(data, 12, Config(StablecoinRatio, Portfolio, 0.06, 1));
  }

  lemma RegularityWeights(data: Data)
    ensures
      var weights := DynamicWeights(data);
      && weights[13].effective == 0.06 * Saturating(data.transactions, 15)
      && weights[14].effective == 0.06 * Saturating(data.transactions, 20)
  {
    WeightAt(data, 13, Config(ActivityRegularity, BehavioralPatterns, 0.06, 15));
    WeightAt(data, 14, Config(RecentRiskTrend, BehavioralPatterns, 0.06, 20));
  }

  /** A rating is the quarter of the scale a score lies in, the lower on the line. */
  lemma RatingsAreQuarters(value: real)
    ensures RatingOf(value) ==
      if value > 0.75 then HighRating
      else if value > 0.5 then ElevatedRating
      else if value > 0.25 then ModerateRating
      else LowRating
  {
  }

  /** A rounded score is a whole number of thousandths, the nearest, halves up. */
  lemma RoundedIsNearest(x: real)
    ensures (Rounded(x) * 1000.0).Floor as real == Rounded(x) * 1000.0
    ensures x - 0.0005 < Rounded(x) <= x + 0.0005
  {
    var n := Thousandths(x) as real;
    DivideOrder(n, x * 1000.0 + 0.5, 1000.0);
    DivideOrder(x * 1000.0 - 0.5, n, 1000.0);
  }

  predicate NonNegative(weights: seq<Weight>) {
    forall k | 0 <= k < |weights| :: weights[k].effective >= 0.0
  }

  lemma WeightsAreNonNegative(data: Data)
    ensures NonNegative(DynamicWeights(data))
  {
    forall k | 0 <= k < |FACTOR_CONFIGS| ensures DynamicWeights(data)[k].effective >= 0.0 {
      assert FACTOR_CONFIGS[k].baseWeight >= 0.0;
    }
  }

  lemma {:induction false} TotalCoversEach(weights: seq<Weight>, k: nat)
    requires NonNegative(weights) && k < |weights|
    ensures 0.0 <= weights[k].effective <= Total(weights)
    decreases |weights|
  {
    if k < |weights| - 1 {
      TotalCoversEach(Init(weights), k);
    } else {
      TotalIsNonNegative(Init(weights));
    }
  }

  lemma {:induction false} TotalIsNonNegative(weights: seq<Weight>)
    requires NonNegative(weights)
    ensures Total(weights) >= 0.0
    decreases |weights|
  {
    if weights != [] {
      TotalIsNonNegative(Init(weights));
    }
  }

  /** Whatever is known of an agent, its wallet's age carries weight, so the score
      is never the default. */
  lemma TotalIsNeverZero(data: Data)
    ensures Total(DynamicWeights(data)) >= 0.021
  {
    WeightsAreNonNegative(data);
    TotalCoversEach(DynamicWeights(data), 7);
    assert DynamicWeights(data)[7] == WeightOf(Config(WalletAge, WalletIdentity, 0.07, 1), data);
  }

  lemma TimesOrder(a: real, b: real, weight: real)
    requires weight >= 0.0 && a <= b
    ensures Times(a, weight) <= Times(b, weight)
    ensures a < b && weight > 0.0 ==> Times(a, weight) < Times(b, weight)
  {
  }

  /** Raising factors raises the sum, strictly where one of weight is raised. */
  lemma {:induction false} WeightedIsMonotone(weights: seq<Weight>, scores: Scores, riskier: Scores)
    requires NonNegative(weights) && forall f :: scores(f) <= riskier(f)
    ensures Weighted(weights, scores) <= Weighted(weights, riskier)
    ensures Weighted(weights, scores) == Weighted(weights, riskier)
       <==> forall k | 0 <= k < |weights| ::
              weights[k].effective == 0.0 || scores(weights[k].factor) == riskier(weights[k].factor)
    decreases |weights|
  {
    if weights != [] {
      var init, last := Init(weights), Last(weights);
      WeightedIsMonotone(init, scores, riskier);
      TimesOrder(scores(last.factor), riskier(last.factor), last.effective);
      assert forall k | 0 <= k < |init| :: init[k] == weights[k];
    }
  }

  lemma {:induction false} WeightedConstant(weights: seq<Weight>, c: real)
    ensures Weighted(weights, f => c) == Times(c, Total(weights))
    decreases |weights|
  {
    if weights != [] {
      WeightedConstant(Init(weights), c);
      TimesAdds(c, Total(Init(weights)), Last(weights).effective, Total(weights));
    }
  }

  lemma DivideOrder(a: real, b: real, total: real)
    requires total > 0.0
    ensures a <= b ==> a / total <= b / total
    ensures a < b ==> a / total < b / total
    ensures Times(a, total) / total == a
    ensures Times(a / total, total) == a
  {
    var x, y := a / total, b / total;
    assert x * total == a && y * total == b;
    assert x > y ==> x * total > y * total;
    assert x == y ==> x * total == y * total;
  }

  /** The unrounded score lies between the smallest and the largest factor. */
  lemma ScoreIsBetweenFactors(data: Data, scores: Scores, least: real, most: real)
    requires forall f :: least <= scores(f) <= most
    ensures least <= Mean(DynamicWeights(data), scores) <= most
  {
    var weights := DynamicWeights(data);
    var total := Total(weights);
    TotalIsNeverZero(data);
    WeightsAreNonNegative(data);
    WeightedIsMonotone(weights, f => least, scores);
    WeightedIsMonotone(weights, scores, f => most);
    WeightedConstant(weights, least);
    WeightedConstant(weights, most);
    DivideOrder(Times(least, total), Weighted(weights, scores), total);
    DivideOrder(Weighted(weights, scores), Times(most, total), total);
    DivideOrder(least, most, total);
    DivideOrder(most, least, total);
  }

  /** For the same data a riskier factor never lowers the unrounded score, and
      raises it exactly when one that carries weight was raised. */
  lemma ScoreIsMonotone(data: Data, scores: Scores, riskier: Scores)
    requires forall f :: scores(f) <= riskier(f)
    ensures
      var weights := DynamicWeights(data);
      && Mean(weights, scores) <= Mean(weights, riskier)
      && (Mean(weights, scores) < Mean(weights, riskier)
          <==> exists k :: 0 <= k < |weights| && weights[k].effective > 0.0
                           && scores(weights[k].factor) < riskier(weights[k].factor))
  {
    var weights := DynamicWeights(data);
    TotalIsNeverZero(data);
    WeightsAreNonNegative(data);
    WeightedIsMonotone(weights, scores, riskier);
    DivideOrder(Weighted(weights, scores), Weighted(weights, riskier), Total(weights));
  }

  lemma RoundedIsMonotone(a: real, b: real)
    requires a <= b
    ensures Rounded(a) <= Rounded(b)
    ensures 0.0 <= a && b <= 1.0 ==> 0.0 <= Rounded(a) && Rounded(b) <= 1.0
  {
    var m, n := Thousandths(a), Thousandths(b);
    FloorIsMonotone(a * 1000.0 + 0.5, b * 1000.0 + 0.5);
    FloorIsMonotone(0.5, a * 1000.0 + 0.5);
    FloorIsMonotone(b * 1000.0 + 0.5, 1000.5);
    DivideOrder(m as real, n as real, 1000.0);
    DivideOrder(0.0, m as real, 1000.0);
    DivideOrder(n as real, 1000.0, 1000.0);
  }

  lemma FloorIsMonotone(x: real, y: real)
    ensures x <= y ==> x.Floor <= y.Floor
    ensures 0.5.Floor == 0 && 1000.5.Floor == 1000
  {
  }

  /** Nor does it earn a milder tier or a lower rate. */
  lemma RiskierIsNeverCheaper(data: Data, scores: Scores, riskier: Scores)
    requires forall f :: scores(f) <= riskier(f)
    ensures
      var tier := Premium.ScoreToTier(Rounded(Mean(DynamicWeights(data), scores)));
      var worse := Premium.ScoreToTier(Rounded(Mean(DynamicWeights(data), riskier)));
      && Premium.Rank(tier) <= Premium.Rank(worse)
      && (Premium.TierToPremiumBps(worse).Some? ==>
            && Premium.TierToPremiumBps(tier).Some?
            && Premium.TierToPremiumBps(tier).value <= Premium.TierToPremiumBps(worse).value)
  {
    var weights := DynamicWeights(data);
    ScoreIsMonotone(data, scores, riskier);
    RoundedIsMonotone(Mean(weights, scores), Mean(weights, riskier));
    Premium.TierFollowsScore(Rounded(Mean(weights, scores)), Rounded(Mean(weights, riskier)));
  }

  /** The category scores weighted by their weights, summed. */
  function CategorySum(weights: seq<Weight>, scores: Scores, n: nat): real
    requires n <= |CATEGORIES|
  {
    if n == 0 then 0.0
    else
      var members := InCategory(weights, CATEGORIES[n - 1]);
      CategorySum(weights, scores, n - 1) + Times(Mean(members, scores), Total(members))
  }

  lemma {:induction false} CategoriesPartition(weights: seq<Weight>, scores: Scores)
    ensures Total(weights)
         == Total(InCategory(weights, TransactionBehavior)) + Total(InCategory(weights, ProtocolDefi))
            + Total(InCategory(weights, WalletIdentity)) + Total(InCategory(weights, Portfolio))
            + Total(InCategory(weights, BehavioralPatterns))
    ensures Weighted(weights, scores)
         == Weighted(InCategory(weights, TransactionBehavior), scores)
            + Weighted(InCategory(weights, ProtocolDefi), scores)
            + Weighted(InCategory(weights, WalletIdentity), scores)
            + Weighted(InCategory(weights, Portfolio), scores)
            + Weighted(InCategory(weights, BehavioralPatterns), scores)
    decreases |weights|
  {
    if weights != [] {
      CategoriesPartition(Init(weights), scores);
      CategoryGrows(weights, scores, TransactionBehavior);
      CategoryGrows(weights, scores, ProtocolDefi);
      CategoryGrows(weights, scores, WalletIdentity);
      CategoryGrows(weights, scores, Portfolio);
      CategoryGrows(weights, scores, BehavioralPatterns);
    }
  }

  lemma CategoryGrows(weights: seq<Weight>, scores: Scores, c: Category)
    requires weights != []
    ensures Total(InCategory(weights, c))
         == Total(InCategory(Init(weights), c)) + (if Last(weights).category == c then Last(weights).effective else 0.0)
    ensures Weighted(InCategory(weights, c), scores)
         == Weighted(InCategory(Init(weights), c), scores)
            + (if Last(weights).category == c
               then Times(scores(Last(weights).factor), Last(weights).effective) else 0.0)
  {
    if Last(weights).category == c {
      assert Init(InCategory(weights, c)) == InCategory(Init(weights), c);
    } else {
      assert InCategory(weights, c) == InCategory(Init(weights), c);
    }
  }

  lemma {:induction false} CategoryIsNonNegative(weights: seq<Weight>, c: Category)
    requires NonNegative(weights)
    ensures NonNegative(InCategory(weights, c))
    decreases |weights|
  {
    if weights != [] {
      CategoryIsNonNegative(Init(weights), c);
    }
  }

  /** A weightless list adds nothing, whatever its factors. */
  lemma {:induction false} WeightlessAddsNothing(weights: seq<Weight>, scores: Scores)
    requires NonNegative(weights) && Total(weights) <= 0.0
    ensures Total(weights) == 0.0 && Weighted(weights, scores) == 0.0
    decreases |weights|
  {
    if weights != [] {
      TotalIsNonNegative(Init(weights));
      WeightlessAddsNothing(Init(weights), scores);
    }
  }

  lemma MeanTimesTotal(weights: seq<Weight>, scores: Scores)
    requires NonNegative(weights)
    ensures Times(Mean(weights, scores), Total(weights)) == Weighted(weights, scores)
  {
    if Total(weights) > 0.0 {
      DivideOrder(Weighted(weights, scores), 0.0, Total(weights));
    } else {
      WeightlessAddsNothing(weights, scores);
    }
  }

  /** The unrounded score is the mean of the five unrounded category scores,
      each by the weight its category carries. */
  lemma ScoreIsMeanOfCategories(data: Data, scores: Scores)
    ensures
      var weights := DynamicWeights(data);
      Total(weights) > 0.0 && Mean(weights, scores) == CategorySum(weights, scores, 5) / Total(weights)
  {
    var weights := DynamicWeights(data);
    TotalIsNeverZero(data);
    WeightsAreNonNegative(data);
    CategorySumIsWhole(weights, scores, 5);
  }

  lemma CategorySumIsWhole(weights: seq<Weight>, scores: Scores, n: nat)
    requires NonNegative(weights) && n == 5
    ensures CategorySum(weights, scores, n) == Weighted(weights, scores)
  {
    CategoriesPartition(weights, scores);
    CategorySumIsWeighted(weights, scores);
  }

  lemma CategorySumIsWeighted(weights: seq<Weight>, scores: Scores)
    requires NonNegative(weights)
    ensures CategorySum(weights, scores, 5)
         == Weighted(InCategory(weights, TransactionBehavior), scores)
            + Weighted(InCategory(weights, ProtocolDefi), scores)
            + Weighted(InCategory(weights, WalletIdentity), scores)
            + Weighted(InCategory(weights, Portfolio), scores)
            + Weighted(InCategory(weights, BehavioralPatterns), scores)
  {
    forall c: Category
      ensures Times(Mean(InCategory(weights, c), scores), Total(InCategory(weights, c)))
           == Weighted(InCategory(weights, c), scores)
    {
      CategoryIsNonNegative(weights, c);
      MeanTimesTotal(InCategory(weights, c), scores);
    }
    assert CategorySum(weights, scores, 1) == Weighted(InCategory(weights, TransactionBehavior), scores);
    assert CategorySum(weights, scores, 3)
        == CategorySum(weights, scores, 1) + Weighted(InCategory(weights, ProtocolDefi), scores)
           + Weighted(InCategory(weights, WalletIdentity), scores);
  }
}
