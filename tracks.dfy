/**
 The allocation rules of the two tracks: the tactical (short-horizon,
 volatility-breakout) track and the strategic (contrarian) track. Each maps
 its market signal to a tier by a fixed threshold table and splits its share
 of the capital into an equity amount and a cash amount.

 Amounts are exact reals; the application computes them in floating point.
 */
module Tracks {

  /** Smallest capital the input panel accepts. */
  const MinCapital: real := 1000000.0

  /** Shares of the capital given to each track; they sum to 1. */
  const StrategicRatio: real := 0.8
  const TacticalRatio: real := 0.2

  /**
   The signal tier of a track. The application tags the tiers with the
   colours blue, gray, orange and red and a label per track:
   tactical  Low = stop loss, Medium = watching, High = trend following,
             Extreme = strong breakout;
   strategic Low = strong buy, Medium = neutral, High = hold,
             Extreme = reduce.
   */
  datatype Tier = Low | Medium | High | Extreme

  /** Position of a tier in the order Low < Medium < High < Extreme. */
  function Rank(t: Tier): nat {
    match t
    case Low => 0
    case Medium => 1
    case High => 2
    case Extreme => 3
  }

  /** The inputs the panel collects. */
  datatype MarketContext = MarketContext(totalCapital: real, strength: int, sentiment: int, analyst: int)

  /**
   The ranges the input widgets enforce. The capital's lower bound keeps it
   positive, so the percent column never divides by zero.
   */
  predicate ValidContext(ctx: MarketContext)
    ensures ValidContext(ctx) ==> 0.0 < ctx.totalCapital
  {
    && MinCapital <= ctx.totalCapital
    && 0 <= ctx.strength <= 100
    && 0 <= ctx.sentiment <= 100
    && 1 <= ctx.analyst <= 5
  }

  /** The panel's initial values (capital 100,000,000, strength 50, sentiment 50, consensus 3) are in range. */
  lemma PanelDefaultsValid()
    ensures ValidContext(MarketContext(100000000.0, 50, 50, 3))
  {
  }

  // ---------------------------------------------------------------------
  // Tactical track

  datatype TacticalResult = TacticalResult(stock: real, cash: real, tier: Tier)

  /** The tactical threshold table; the tiers partition the integers. */
  function TacticalTier(strength: int): (t: Tier)
    ensures t == Extreme <==> 80 <= strength
    ensures t == High <==> 60 <= strength < 80
    ensures t == Medium <==> 20 < strength < 60
    ensures t == Low <==> strength <= 20
  {
    if strength >= 80 then Extreme
    else if strength >= 60 then High
    else if strength <= 20 then Low
    else Medium
  }

  /** Share of the tactical allocation held in equity, per tier. */
  function EquityRatio(t: Tier): (r: real)
    ensures 0.0 <= r <= 1.0
  {
    match t
    case Low => 0.0
    case Medium => 0.2
    case High => 0.6
    case Extreme => 1.0
  }

  /** The tactical equity ratio never decreases as the strength grows. */
  lemma TacticalRatioMonotone(s1: int, s2: int)
    requires s1 <= s2
    ensures Rank(TacticalTier(s1)) <= Rank(TacticalTier(s2))
    ensures EquityRatio(TacticalTier(s1)) <= EquityRatio(TacticalTier(s2))
  {
  }

  /** Splits `totalCapital * tacticalRatio` into equity and cash by the strength's tier. */
  function RunTactical(strength: int, totalCapital: real, tacticalRatio: real): (r: TacticalResult)
    ensures r.tier == TacticalTier(strength)
    ensures r.stock + r.cash == totalCapital * tacticalRatio
    ensures r.stock == totalCapital * tacticalRatio * EquityRatio(r.tier)
    ensures 80 <= strength ==> r.stock == totalCapital * tacticalRatio && r.cash == 0.0
    ensures strength <= 20 ==> r.stock == 0.0 && r.cash == totalCapital * tacticalRatio
    ensures 0.0 <= totalCapital * tacticalRatio ==> 0.0 <= r.stock <= totalCapital * tacticalRatio && 0.0 <= r.cash
  {
    var tier := TacticalTier(strength);
    var equityRatio := EquityRatio(tier);
    var share := totalCapital * tacticalRatio;
    ProductBounds(share, equityRatio);
    ProductBounds(share, 1.0 - equityRatio);
    TacticalResult(share * equityRatio, share * (1.0 - equityRatio), tier)
  }

  /** With a non-negative allocation, more strength never means less tactical equity. */
  lemma TacticalStockMonotone(s1: int, s2: int, totalCapital: real, tacticalRatio: real)
    requires s1 <= s2
    requires 0.0 <= totalCapital * tacticalRatio
    ensures RunTactical(s1, totalCapital, tacticalRatio).stock <= RunTactical(s2, totalCapital, tacticalRatio).stock
  {
    TacticalRatioMonotone(s1, s2);
    ScaleMonotone(totalCapital * tacticalRatio, EquityRatio(TacticalTier(s1)), EquityRatio(TacticalTier(s2)));
  }

  // ---------------------------------------------------------------------
  // Strategic track

  datatype StrategicResult = StrategicResult(stock: real, cash: real, tier: Tier, riskScore: real)

  /**
   Weighted blend of the sentiment index (70%) and the analyst consensus
   rescaled from 1..5 to 0..100 (30%).
   */
  function RiskScore(sent: int, ana: int): (score: real)
    ensures 0 <= sent <= 100 && 1 <= ana <= 5 ==> 0.0 <= score <= 100.0
    ensures sent == 50 && ana == 3 ==> score == 50.0
  {
    var analystScore := (ana - 1) * 25;
    (sent as real * 0.7) + (analystScore as real * 0.3)
  }

  /** The risk score grows with each input: sentiment and consensus both push it up. */
  lemma RiskScoreMonotone(sent1: int, ana1: int, sent2: int, ana2: int)
    requires sent1 <= sent2 && ana1 <= ana2
    ensures RiskScore(sent1, ana1) <= RiskScore(sent2, ana2)
    ensures sent1 < sent2 ==> RiskScore(sent1, ana1) < RiskScore(sent2, ana2)
  {
  }

  /** The strategic threshold table; the tiers partition the reals. */
  function StrategicTier(score: real): (t: Tier)
    ensures t == Extreme <==> 80.0 <= score
    ensures t == High <==> 60.0 <= score < 80.0
    ensures t == Medium <==> 20.0 < score < 60.0
    ensures t == Low <==> score <= 20.0
  {
    if score >= 80.0 then Extreme
    else if score >= 60.0 then High
    else if score <= 20.0 then Low
    else Medium
  }

  /** Share of the strategic allocation the track holds back as cash, per tier. */
  function TargetCashRatio(t: Tier): (r: real)
    ensures 0.0 <= r <= 0.3
  {
    match t
    case Low => 0.0
    case Medium => 0.05
    case High => 0.15
    case Extreme => 0.30
  }

  /** The target cash ratio never decreases as the risk score grows. */
  lemma CashRatioMonotone(score1: real, score2: real)
    requires score1 <= score2
    ensures Rank(StrategicTier(score1)) <= Rank(StrategicTier(score2))
    ensures TargetCashRatio(StrategicTier(score1)) <= TargetCashRatio(StrategicTier(score2))
  {
  }

  /** Splits `totalCapital * strategicRatio` into cash and equity by the risk score's tier. */
  function RunStrategic(sent: int, ana: int, totalCapital: real, strategicRatio: real): (r: StrategicResult)
    ensures r.riskScore == RiskScore(sent, ana)
    ensures r.tier == StrategicTier(r.riskScore)
    ensures r.cash + r.stock == totalCapital * strategicRatio
    ensures r.cash == totalCapital * strategicRatio * TargetCashRatio(r.tier)
    ensures r.riskScore <= 20.0 ==> r.cash == 0.0 && r.stock == totalCapital * strategicRatio
    ensures 0.0 <= totalCapital * strategicRatio ==>
              0.0 <= r.cash <= totalCapital * strategicRatio && 0.0 <= r.stock
  {
    var riskScore := RiskScore(sent, ana);
    var tier := StrategicTier(riskScore);
    var targetCashRatio := TargetCashRatio(tier);
    var share := totalCapital * strategicRatio;
    var cash := share * targetCashRatio;
    ProductBounds(share, targetCashRatio);
    StrategicResult(share - cash, cash, tier, riskScore)
  }

  /**
   Contrarian rule: with a non-negative allocation, a more greedy market
   (higher sentiment or consensus) never lowers the strategic cash.
   */
  lemma StrategicCashMonotone(sent1: int, ana1: int, sent2: int, ana2: int, totalCapital: real, strategicRatio: real)
    requires sent1 <= sent2 && ana1 <= ana2
    requires 0.0 <= totalCapital * strategicRatio
    ensures RunStrategic(sent1, ana1, totalCapital, strategicRatio).cash
            <= RunStrategic(sent2, ana2, totalCapital, strategicRatio).cash
  {
    RiskScoreMonotone(sent1, ana1, sent2, ana2);
    CashRatioMonotone(RiskScore(sent1, ana1), RiskScore(sent2, ana2));
    ScaleMonotone(totalCapital * strategicRatio,
                  TargetCashRatio(StrategicTier(RiskScore(sent1, ana1))),
                  TargetCashRatio(StrategicTier(RiskScore(sent2, ana2))));
  }

  // ---------------------------------------------------------------------
  // Both tracks together

  datatype Plan = Plan(tactical: TacticalResult, strategic: StrategicResult)

  /** Runs both tracks on the panel's inputs with the application's fixed ratios. */
  function Evaluate(ctx: MarketContext): (p: Plan)
    ensures p.tactical == RunTactical(ctx.strength, ctx.totalCapital, TacticalRatio)
    ensures p.strategic == RunStrategic(ctx.sentiment, ctx.analyst, ctx.totalCapital, StrategicRatio)
    ensures p.tactical.stock + p.tactical.cash + p.strategic.stock + p.strategic.cash == ctx.totalCapital
  {
    Plan(RunTactical(ctx.strength, ctx.totalCapital, TacticalRatio),
         RunStrategic(ctx.sentiment, ctx.analyst, ctx.totalCapital, StrategicRatio))
  }

  /**
   The two tracks share out the whole capital: their allocations are
   0.2 and 0.8 of it, every amount is non-negative, and the risk score stays
   in 0..100.
   */
  lemma Complementarity(ctx: MarketContext)
    requires ValidContext(ctx)
    ensures ctx.totalCapital * TacticalRatio + ctx.totalCapital * StrategicRatio == ctx.totalCapital
    ensures var p := Evaluate(ctx);
            && 0.0 <= p.tactical.stock && 0.0 <= p.tactical.cash
            && 0.0 <= p.strategic.stock && 0.0 <= p.strategic.cash
            && 0.0 <= p.strategic.riskScore <= 100.0
    ensures var p := Evaluate(ctx);
            0.0 < p.tactical.stock <==> 20 < ctx.strength
  {
    var p := Evaluate(ctx);
    var share := ctx.totalCapital * TacticalRatio;
    assert 0.0 < share;
    if 20 < ctx.strength {
      assert 0.0 < EquityRatio(p.tactical.tier);
      PositiveProduct(share, EquityRatio(p.tactical.tier));
    }
  }

  /**
   What the portfolio table needs of a plan: the tactical equity is positive
   exactly when the strength exceeds 20, and otherwise zero, so the positive
   tactical equity and the other three amounts add up to the capital.
   */
  lemma PlanTotals(ctx: MarketContext)
    requires ValidContext(ctx)
    ensures var p := Evaluate(ctx);
            && (0.0 < p.tactical.stock <==> 20 < ctx.strength)
            && (if 0.0 < p.tactical.stock then p.tactical.stock else 0.0)
               + p.tactical.cash + p.strategic.stock + p.strategic.cash == ctx.totalCapital
  {
    Complementarity(ctx);
  }

  /** Scenario A: 100,000,000 of capital, strength 50, sentiment 50, consensus 3. */
  lemma ScenarioMidMarket()
    ensures Evaluate(MarketContext(100000000.0, 50, 50, 3))
            == Plan(TacticalResult(4000000.0, 16000000.0, Medium),
                    StrategicResult(76000000.0, 4000000.0, Medium, 50.0))
  {
  }

  /** Scenario B: strength 90, sentiment 90, consensus 5 on the same capital. */
  lemma ScenarioOverheated()
    ensures Evaluate(MarketContext(100000000.0, 90, 90, 5))
            == Plan(TacticalResult(20000000.0, 0.0, Extreme),
                    StrategicResult(56000000.0, 24000000.0, Extreme, 93.0))
  {
  }

  // ---------------------------------------------------------------------
  // Arithmetic helpers

  lemma ProductBounds(a: real, x: real)
    requires 0.0 <= x <= 1.0
    ensures 0.0 <= a ==> 0.0 <= a * x <= a
  {
  }

  lemma ScaleMonotone(a: real, x: real, y: real)
    requires 0.0 <= a && x <= y
    ensures a * x <= a * y
  {
  }

  lemma PositiveProduct(a: real, x: real)
    requires 0.0 < a && 0.0 < x
    ensures 0.0 < a * x
  {
  }
}
