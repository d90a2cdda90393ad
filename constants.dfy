/** Start-up configuration of the game: the initial balance, the asset
    catalogue with its random-walk parameters, and the quest catalogue. */
module Constants {
  import opened Types

  const InitialBalance: real := 10000.0

  /** Side length of the square ground on which positions are placed. */
  const GroundSize: real := 30.0

  const FirstGrowthId: string := "first_growth"
  const DiversifyId: string := "diversify"
  const SustainableTraderId: string := "sustainable_trader"
  const RiskManagerId: string := "risk_manager"

  /** Where each quest sits in the catalogue. */
  const FirstGrowth: nat := 0
  const Diversify: nat := 1
  const SustainableTrader: nat := 2
  const RiskManager: nat := 3

  /** The asset catalogue. Every asset starts at a positive price, and one
      random step (a draw in [-1, 1] times the volatility, plus a thousandth
      of the trend) changes a price by strictly less than all of it. */
  function Assets(s: AssetSymbol): (a: Asset)
    ensures a.symbol == s && a.price > 0.0
    ensures a.volatility >= 0.0
    ensures a.volatility + 0.001 * a.trend < 1.0 && a.volatility - 0.001 * a.trend < 1.0
  {
    match s
    case ETH => Asset(ETH, "Ethereum", 3000.0, 0.02, 0.1)
    case BTC => Asset(BTC, "Bitcoin", 60000.0, 0.015, 0.05)
    case SOL => Asset(SOL, "Solana", 150.0, 0.04, -0.05)
  }

  /** The quest catalogue as the game starts: four quests with distinct ids,
      positive rewards, none started and none completed. */
  function InitialQuests(): (qs: seq<Quest>)
    ensures |qs| == 4
    ensures qs[FirstGrowth].id == FirstGrowthId && qs[Diversify].id == DiversifyId
    ensures qs[SustainableTrader].id == SustainableTraderId && qs[RiskManager].id == RiskManagerId
    ensures forall i, j :: 0 <= i < j < |qs| ==> qs[i].id != qs[j].id
    ensures forall i :: 0 <= i < |qs| ==>
      !qs[i].completed && qs[i].progress == 0 && qs[i].reward > 0 && qs[i].maxProgress > 0
  {
    [ Quest(FirstGrowthId, "Plant a Seed",
            "Open your first LONG position to plant a tree in your biome.",
            50, false, 0, 1),
      Quest(DiversifyId, "Ecosystem Diversity",
            "Have at least 2 active positions (Long or Short) simultaneously.",
            100, false, 0, 2),
      Quest(SustainableTraderId, "Sustainable Growth",
            "Close a position with at least +5% profit.",
            200, false, 0, 1),
      Quest(RiskManagerId, "Storm Weatherer",
            "Keep a high leverage (5x) position open for 30 seconds without liquidation.",
            300, false, 0, 30) ]
  }

  /** The rewards and thresholds of the catalogue. The progress that opening
      or closing a position writes into a quest (1 for first_growth, 2 for
      diversify, 1 for sustainable_trader) is that quest's maxProgress. */
  lemma CatalogValues()
    ensures InitialQuests()[FirstGrowth].reward == 50 && InitialQuests()[FirstGrowth].maxProgress == 1
    ensures InitialQuests()[Diversify].reward == 100 && InitialQuests()[Diversify].maxProgress == 2
    ensures InitialQuests()[SustainableTrader].reward == 200 && InitialQuests()[SustainableTrader].maxProgress == 1
    ensures InitialQuests()[RiskManager].reward == 300 && InitialQuests()[RiskManager].maxProgress == 30
  {
  }
}
