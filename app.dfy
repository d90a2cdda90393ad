/** The three state transitions of the game: the periodic tick (prices,
    histories, marking to market, liquidation, score, passive quests) and the
    two user actions, opening and closing a position. Each maps the previous
    GameState snapshot to the next one. The tick is a method whose loops
    follow the original's, proved equal to the specification function Ticked;
    opening and closing have no loops and are functions. */
module App {
  import opened Types
  import opened Constants
  import opened GameLogic
  import opened Quests

  /** Samples kept per asset. */
  const HistoryCapacity: nat := 50

  /** Number of samples the history starts with. */
  const InitialHistoryLength: nat := 20

  /** A position whose loss reaches 80% of its collateral is liquidated. */
  const LiquidationThreshold: real := -80.0

  /** Coordinates of a new position lie in [-PlacementBound, PlacementBound). */
  const PlacementBound: real := GroundSize / 2.0 - 4.0

  // ---------------------------------------------------------------------
  // The invariant every reachable snapshot keeps

  /** An open position as the game keeps it: positive entry price and
      collateral, leverage 1 to 5, size = collateral * leverage, its
      percentage equal to its profit over its collateral times 100, and not
      yet liquidated. */
  ghost predicate Healthy(p: Position) {
    && p.entryPrice > 0.0 && p.collateral > 0.0 && 1 <= p.leverage <= 5
    && p.size == p.collateral * p.leverage as real
    && p.pnlPercent * p.collateral == p.pnl * 100.0
    && p.pnlPercent > LiquidationThreshold
  }

  /** A price history holds between 1 and HistoryCapacity samples and ends
      with the current price. */
  ghost predicate HistoryTracks(h: seq<Sample>, price: real) {
    1 <= |h| <= HistoryCapacity && h[|h| - 1].price == price
  }

  ghost predicate Inv(s: GameState) {
    && s.balance >= 0.0
    && s.ecoTokens >= 0
    && 0 <= s.sustainabilityScore <= 100
    && (forall sym :: s.prices.Get(sym) > 0.0)
    && (forall sym :: HistoryTracks(s.marketHistory.Get(sym), s.prices.Get(sym)))
    && (forall i :: 0 <= i < |s.positions| ==> Healthy(s.positions[i]))
    && WellFormed(s.quests)
  }

  function InitialPrices(): ByAsset<real> {
    ByAsset(Assets(ETH).price, Assets(BTC).price, Assets(SOL).price)
  }

  function InitialHistory(price: real, now: int): seq<Sample> {
    seq(InitialHistoryLength, _ => Sample(now, price))
  }

  /** The snapshot the game starts from, with `now` the clock reading at
      start-up: it satisfies the invariant, with the initial balance, no ECO
      tokens, a full score, no positions and no trees. */
  function InitialState(now: int): (s: GameState)
    ensures Inv(s)
    ensures s.balance == InitialBalance && s.ecoTokens == 0 && s.sustainabilityScore == 100
    ensures s.positions == [] && s.plantedTrees == []
    ensures s.quests == InitialQuests()
    ensures forall sym :: s.prices.Get(sym) == Assets(sym).price
  {
    InitialQuestsWellFormed();
    var prices := InitialPrices();
    GameState(
      InitialBalance, 0, 100, [], [], prices, InitialQuests(),
      ByAsset(InitialHistory(prices.eth, now), InitialHistory(prices.btc, now),
              InitialHistory(prices.sol, now)))
  }

  // ---------------------------------------------------------------------
  // Tick

  /** The injected uniform draws, one per asset, each in [-1, 1]. */
  predicate DrawsInRange(draws: ByAsset<real>) {
    forall s :: -1.0 <= draws.Get(s) <= 1.0
  }

  function StepPrice(prices: ByAsset<real>, draws: ByAsset<real>, s: AssetSymbol): real
    requires DrawsInRange(draws)
  {
    GenerateNextPrice(prices.Get(s), Assets(s).volatility, Assets(s).trend, draws.Get(s))
  }

  function NextPrices(prices: ByAsset<real>, draws: ByAsset<real>): ByAsset<real>
    requires DrawsInRange(draws)
  {
    ByAsset(StepPrice(prices, draws, ETH), StepPrice(prices, draws, BTC), StepPrice(prices, draws, SOL))
  }

  /** Appends a sample to a history, keeping at most the last 49 old ones,
      so that the result is never longer than HistoryCapacity and ends with
      the new sample. */
  function PushSample(h: seq<Sample>, x: Sample): (r: seq<Sample>)
    ensures 1 <= |r| <= HistoryCapacity && r[|r| - 1] == x
  {
    h[(if |h| > HistoryCapacity - 1 then |h| - (HistoryCapacity - 1) else 0)..] + [x]
  }

  function NextHistory(history: ByAsset<seq<Sample>>, prices: ByAsset<real>, now: int): ByAsset<seq<Sample>> {
    ByAsset(PushSample(history.eth, Sample(now, prices.eth)),
            PushSample(history.btc, Sample(now, prices.btc)),
            PushSample(history.sol, Sample(now, prices.sol)))
  }

  predicate EntryPricesNonzero(ps: seq<Position>) {
    forall i :: 0 <= i < |ps| ==> ps[i].entryPrice != 0.0
  }

  /** The position re-marked at `price`: only pnl and pnlPercent change, and
      they stay consistent with each other. */
  function Mark(p: Position, price: real): (r: Position)
    requires p.entryPrice != 0.0
    ensures r.(pnl := p.pnl, pnlPercent := p.pnlPercent) == p
    ensures r.pnlPercent * r.collateral == r.pnl * 100.0
  {
    var r := CalculatePnL(p, price);
    p.(pnl := r.pnl, pnlPercent := r.pnlPercent)
  }

  predicate Liquidated(p: Position, price: real)
    requires p.entryPrice != 0.0
  {
    CalculatePnL(p, price).pnlPercent <= LiquidationThreshold
  }

  function PriceOf(p: Position, prices: ByAsset<real>): real {
    prices.Get(p.symbol)
  }

  /** The positions that survive marking at `prices`, re-marked, in order. */
  function Survivors(ps: seq<Position>, prices: ByAsset<real>): seq<Position>
    requires EntryPricesNonzero(ps)
  {
    if |ps| == 0 then []
    else
      var rest := Survivors(ps[..|ps| - 1], prices);
      var p := ps[|ps| - 1];
      if Liquidated(p, PriceOf(p, prices)) then rest else rest + [Mark(p, PriceOf(p, prices))]
  }

  /** Whether some position has leverage 5 or more. */
  predicate HasHighLeverage(ps: seq<Position>) {
    exists i :: 0 <= i < |ps| && ps[i].leverage >= 5
  }

  /** One tick: advance every price with its draw and record it, re-mark and
      liquidate, re-score against the unchanged balance, advance the passive
      quests and credit what they complete. */
  function Ticked(prev: GameState, draws: ByAsset<real>, now: int): GameState
    requires DrawsInRange(draws) && EntryPricesNonzero(prev.positions)
  {
    var prices := NextPrices(prev.prices, draws);
    var survivors := Survivors(prev.positions, prices);
    var quests := TickQuests(prev.quests, HasHighLeverage(survivors));
    prev.(prices := prices,
          marketHistory := NextHistory(prev.marketHistory, prices, now),
          positions := survivors,
          sustainabilityScore := CalculateSustainability(survivors, prev.balance),
          quests := quests,
          ecoTokens := prev.ecoTokens + Reward(prev.quests, quests))
  }

  /** Step 1 of the tick as the game runs it: one pass over the assets in key
      order, replacing each price by its next step and appending that price
      to the asset's history. */
  method AdvanceMarket(prices: ByAsset<real>, history: ByAsset<seq<Sample>>, draws: ByAsset<real>, now: int)
    returns (newPrices: ByAsset<real>, newHistory: ByAsset<seq<Sample>>)
    requires DrawsInRange(draws)
    ensures newPrices == NextPrices(prices, draws)
    ensures newHistory == NextHistory(history, newPrices, now)
  {
    newPrices, newHistory := prices, history;
    for k := 0 to |Symbols|
      invariant forall j :: 0 <= j < k ==>
        && newPrices.Get(Symbols[j]) == StepPrice(prices, draws, Symbols[j])
        && newHistory.Get(Symbols[j]) == PushSample(history.Get(Symbols[j]), Sample(now, newPrices.Get(Symbols[j])))
      invariant forall j :: k <= j < |Symbols| ==>
        newPrices.Get(Symbols[j]) == prices.Get(Symbols[j]) && newHistory.Get(Symbols[j]) == history.Get(Symbols[j])
    {
      var symbol := Symbols[k];
      var asset := Assets(symbol);
      newPrices := newPrices.Set(symbol, GenerateNextPrice(newPrices.Get(symbol), asset.volatility, asset.trend, draws.Get(symbol)));
      newHistory := newHistory.Set(symbol, PushSample(newHistory.Get(symbol), Sample(now, newPrices.Get(symbol))));
    }
    assert Symbols[0] == ETH && Symbols[1] == BTC && Symbols[2] == SOL;
  }

  /** Step 2 of the tick as the game runs it: one pass over the positions,
      re-marking each at its asset's new price, keeping those above the
      liquidation threshold and noting whether any was dropped. */
  method MarkPositions(positions: seq<Position>, prices: ByAsset<real>)
    returns (activePositions: seq<Position>, liquidations: bool)
    requires EntryPricesNonzero(positions)
    ensures activePositions == Survivors(positions, prices)
    ensures liquidations <==>
      exists i :: 0 <= i < |positions| && Liquidated(positions[i], PriceOf(positions[i], prices))
  {
    activePositions := [];
    liquidations := false;
    for i := 0 to |positions|
      invariant activePositions == Survivors(positions[..i], prices)
      invariant liquidations <==>
        exists j :: 0 <= j < i && Liquidated(positions[j], PriceOf(positions[j], prices))
    {
      var pos := positions[i];
      var marked := CalculatePnL(pos, prices.Get(pos.symbol));
      assert positions[..i + 1][..i] == positions[..i];
      if marked.pnlPercent <= LiquidationThreshold {
        liquidations := true;
      } else {
        activePositions := activePositions + [pos.(pnl := marked.pnl, pnlPercent := marked.pnlPercent)];
      }
    }
    assert positions[..|positions|] == positions;
  }

  /** The tick updater: the two passes, then the score, the passive quests
      and the reward, assembled into the next snapshot. The liquidation flag
      of the second pass is not part of the result: the updater returns the
      snapshot alone. */
  method TickUpdate(prev: GameState, draws: ByAsset<real>, now: int) returns (next: GameState)
    requires DrawsInRange(draws) && EntryPricesNonzero(prev.positions)
    ensures next == Ticked(prev, draws, now)
  {
    var newPrices, newHistory := AdvanceMarket(prev.prices, prev.marketHistory, draws, now);
    var activePositions, _ := MarkPositions(prev.positions, newPrices);
    var susScore := CalculateSustainability(activePositions, prev.balance);
    var updatedQuests := TickQuests(prev.quests, HasHighLeverage(activePositions));
    var reward := Reward(prev.quests, updatedQuests);
    next := prev.(prices := newPrices, marketHistory := newHistory, positions := activePositions,
                  sustainabilityScore := susScore, quests := updatedQuests, ecoTokens := prev.ecoTokens + reward);
  }

  // ---------------------------------------------------------------------
  // Open

  /** A placement coordinate from a uniform draw `u` in [0, 1). */
  function Coordinate(u: real): (c: real)
    requires 0.0 <= u < 1.0
    ensures -PlacementBound <= c < PlacementBound
  {
    (u - 0.5) * 2.0 * PlacementBound
  }

  /** The position a trade creates: entered at `currentPrice` (the price in
      the last rendered snapshot, App.tsx:112), with size
      collateral * leverage and no profit. */
  function NewPosition(id: string, symbol: AssetSymbol, positionType: PositionType, currentPrice: real,
                       amount: real, leverage: int, now: int, coordinates: Coordinates): Position
  {
    Position(id, symbol, positionType, currentPrice, amount * leverage as real, leverage, amount,
             0.0, 0.0, now, coordinates)
  }

  /** Opening `newPosition` of the given direction with `amount` collateral:
      debit the amount, append the position, run the open-time quest rules
      and credit what they complete. Prices, histories, trees and the score
      are left as they were. */
  function Opened(prev: GameState, positionType: PositionType, amount: real, newPosition: Position): GameState {
    var quests := OpenQuests(prev.quests, positionType, |prev.positions|);
    prev.(balance := prev.balance - amount,
          positions := prev.positions + [newPosition],
          quests := quests,
          ecoTokens := prev.ecoTokens + Reward(prev.quests, quests))
  }

  // ---------------------------------------------------------------------
  // Close

  /** The first position with the given id, if any. */
  function FindPosition(ps: seq<Position>, id: string): (r: Option<Position>)
    ensures r.None? <==> forall i :: 0 <= i < |ps| ==> ps[i].id != id
    ensures r.Some? ==> exists i :: 0 <= i < |ps| && ps[i] == r.value && r.value.id == id
                                   && forall j :: 0 <= j < i ==> ps[j].id != id
  {
    if |ps| == 0 then None
    else if ps[0].id == id then Some(ps[0])
    else
      FindPosition(ps[1..], id)
  }

  /** `ps` without the positions that carry the given id, in order. */
  function RemoveById(ps: seq<Position>, id: string): (r: seq<Position>)
    ensures forall p :: p in r <==> p in ps && p.id != id
    ensures |r| <= |ps|
    ensures (forall i :: 0 <= i < |ps| ==> ps[i].id != id) ==> r == ps
    ensures (exists i :: 0 <= i < |ps| && ps[i].id == id) ==> |r| < |ps|
  {
    if |ps| == 0 then []
    else
      var rest := RemoveById(ps[1..], id);
      assert forall p :: p in ps <==> p == ps[0] || p in ps[1..];
      if ps[0].id == id then rest else [ps[0]] + rest
  }

  /** The scale of the tree a profitable LONG leaves behind: 1 plus its
      fractional profit, clamped to [0.5, 2.5]. */
  function TreeScale(pnlPercent: real): (scale: real)
    ensures 0.5 <= scale <= 2.5
    ensures 0.5 <= 1.0 + pnlPercent / 100.0 <= 2.5 ==> scale == 1.0 + pnlPercent / 100.0
    ensures 1.0 + pnlPercent / 100.0 < 0.5 ==> scale == 0.5
    ensures 1.0 + pnlPercent / 100.0 > 2.5 ==> scale == 2.5
  {
    var grown := 1.0 + pnlPercent / 100.0;
    var atLeast := if grown > 0.5 then grown else 0.5;
    if atLeast < 2.5 then atLeast else 2.5
  }

  /** Closing the position with the given id at clock reading `now`. An
      unknown id changes nothing. Otherwise the collateral plus the profit
      recorded at the last tick is credited, every position with that id is
      removed, a profitable LONG leaves a tree, the close-time quest rule runs
      and what it completes is credited. Prices, histories and the score are
      left as they were. */
  function Closed(prev: GameState, id: string, now: int): GameState {
    match FindPosition(prev.positions, id)
    case None => prev
    case Some(pos) =>
      var returnedCollateral := pos.collateral + pos.pnl;
      var trees :=
        if pos.positionType == LONG && pos.pnl > 0.0
        then prev.plantedTrees + [PlantedTree(pos.id, pos.coordinates.x, pos.coordinates.z, TreeScale(pos.pnlPercent), now)]
        else prev.plantedTrees;
      var quests := CloseQuests(prev.quests, pos.pnlPercent);
      prev.(balance := prev.balance + returnedCollateral,
            positions := RemoveById(prev.positions, id),
            plantedTrees := trees,
            quests := quests,
            ecoTokens := prev.ecoTokens + Reward(prev.quests, quests))
  }
}
