/** Record shapes of the simulation core: assets, positions, planted trees,
    quests and the root GameState snapshot that every transition replaces
    wholesale. Prices and money are exact reals; timestamps are integers
    (milliseconds as read from the injected clock). */
module Types {

  datatype AssetSymbol = ETH | BTC | SOL

  datatype PositionType = LONG | SHORT

  /** One value per asset symbol: the shape of a `Record<AssetSymbol, T>`. */
  datatype ByAsset<T> = ByAsset(eth: T, btc: T, sol: T) {

    function Get(s: AssetSymbol): T {
      match s
      case ETH => eth
      case BTC => btc
      case SOL => sol
    }

    /** The record with the entry for `s` replaced by `v`. */
    function Set(s: AssetSymbol, v: T): (r: ByAsset<T>)
      ensures r.Get(s) == v
      ensures forall t :: t != s ==> r.Get(t) == Get(t)
    {
      match s
      case ETH => this.(eth := v)
      case BTC => this.(btc := v)
      case SOL => this.(sol := v)
    }
  }

  /** The key order of the price record, which is the order in which a tick
      visits the assets. */
  const Symbols: seq<AssetSymbol> := [ETH, BTC, SOL]

  datatype Asset = Asset(
    symbol: AssetSymbol,
    name: string,
    price: real,
    volatility: real,   // relative size of one random step
    trend: real)        // small per-tick bias

  datatype Coordinates = Coordinates(x: real, z: real)

  datatype Position = Position(
    id: string,
    symbol: AssetSymbol,
    positionType: PositionType,
    entryPrice: real,
    size: real,          // collateral * leverage
    leverage: int,
    collateral: real,
    pnl: real,
    pnlPercent: real,
    timestamp: int,
    coordinates: Coordinates)

  datatype PlantedTree = PlantedTree(id: string, x: real, z: real, scale: real, date: int)

  datatype Quest = Quest(
    id: string,
    title: string,
    description: string,
    reward: int,         // ECO tokens
    completed: bool,
    progress: int,
    maxProgress: int)

  /** One point of an asset's price history. */
  datatype Sample = Sample(time: int, price: real)

  datatype GameState = GameState(
    balance: real,
    ecoTokens: int,
    sustainabilityScore: int,
    positions: seq<Position>,
    plantedTrees: seq<PlantedTree>,
    prices: ByAsset<real>,
    quests: seq<Quest>,
    marketHistory: ByAsset<seq<Sample>>)

  datatype Option<T> = None | Some(value: T)
}
