/** Worked scenarios: short stories of a game, checked against the
    transitions. */
module Scenarios {
  import opened Types
  import opened Constants
  import opened Quests
  import opened App
  import opened AppInvariants

  /** Two LONG trades from the start of a game: the first completes
      first_growth (+50); the second completes diversify (+100) and does not
      credit first_growth again. */
  lemma FirstGrowthCreditedOnce(t0: int, t1: int, t2: int, c1: Coordinates, c2: Coordinates)
    ensures var s0 := InitialState(t0);
      var s1 := Opened(s0, LONG, 1000.0, NewPosition("a", ETH, LONG, s0.prices.Get(ETH), 1000.0, 1, t1, c1));
      var s2 := Opened(s1, LONG, 500.0, NewPosition("b", SOL, LONG, s1.prices.Get(SOL), 500.0, 2, t2, c2));
      && s1.balance == 9000.0 && s1.ecoTokens == 50
      && s2.balance == 8500.0 && s2.ecoTokens == 150
      && s2.quests[FirstGrowth].completed && s2.quests[Diversify].completed
  {
    var s0 := InitialState(t0);
    OpenStep(s0, ETH, LONG, s0.prices.Get(ETH), 1000.0, 1, "a", t1, c1);
    var s1 := Opened(s0, LONG, 1000.0, NewPosition("a", ETH, LONG, s0.prices.Get(ETH), 1000.0, 1, t1, c1));
    OpenStep(s1, SOL, LONG, s1.prices.Get(SOL), 500.0, 2, "b", t2, c2);
  }

  /** Two SHORT trades from the start: the first earns nothing, the second
      completes diversify (+100). */
  lemma DiversifyOnSecondPosition(t0: int, t1: int, t2: int, c1: Coordinates, c2: Coordinates)
    ensures var s0 := InitialState(t0);
      var s1 := Opened(s0, SHORT, 2000.0, NewPosition("a", BTC, SHORT, s0.prices.Get(BTC), 2000.0, 3, t1, c1));
      var s2 := Opened(s1, SHORT, 2000.0, NewPosition("b", BTC, SHORT, s1.prices.Get(BTC), 2000.0, 3, t2, c2));
      && s1.ecoTokens == 0 && !s1.quests[FirstGrowth].completed
      && s2.ecoTokens == 100 && !s2.quests[FirstGrowth].completed && s2.quests[Diversify].completed
  {
    var s0 := InitialState(t0);
    OpenStep(s0, BTC, SHORT, s0.prices.Get(BTC), 2000.0, 3, "a", t1, c1);
    var s1 := Opened(s0, SHORT, 2000.0, NewPosition("a", BTC, SHORT, s0.prices.Get(BTC), 2000.0, 3, t1, c1));
    OpenStep(s1, BTC, SHORT, s1.prices.Get(BTC), 2000.0, 3, "b", t2, c2);
  }

  /** A 1x LONG on ETH with 1000 collateral entered at 3000: once a tick
      brings ETH to 3300 it shows +100 (+10%). */
  lemma ProfitableLongMarked(s: GameState, p: Position, draws: ByAsset<real>, now: int)
    requires Inv(s) && DrawsInRange(draws)
    requires p.symbol == ETH && p.positionType == LONG
    requires p.entryPrice == 3000.0 && p.collateral == 1000.0 && p.leverage == 1
    requires s.positions == [p]
    requires StepPrice(s.prices, draws, ETH) == 3300.0
    ensures EntryPricesNonzero(s.positions)
    ensures Inv(Ticked(s, draws, now))
    ensures Ticked(s, draws, now).balance == s.balance
    ensures Ticked(s, draws, now).positions == [p.(pnl := 100.0, pnlPercent := 10.0)]
  {
    TickStep(s, draws, now);
    var prices := NextPrices(s.prices, draws);
    assert PriceOf(p, prices) == 3300.0;
    SurvivorsOfOne(p, prices);
  }

  /** Closing that position, marked at +100 (+10%), on a balance of 9000:
      1100 comes back, for a balance of 10100, a tree of scale 1.1 is planted
      where the position stood and sustainable_trader is completed. */
  lemma ProfitableLongClosed(t: GameState, q: Position, closeTime: int)
    requires Inv(t)
    requires q.id == "a" && q.positionType == LONG && q.collateral == 1000.0
    requires q.pnl == 100.0 && q.pnlPercent == 10.0
    requires t.balance == 9000.0 && t.positions == [q]
    ensures var c := Closed(t, "a", closeTime);
      && c.balance == 10100.0 && c.positions == []
      && c.plantedTrees == t.plantedTrees + [PlantedTree("a", q.coordinates.x, q.coordinates.z, 1.1, closeTime)]
      && c.quests[SustainableTrader].completed
  {
    CloseQuestsStep(t.quests, 10.0);
  }

  /** The two steps above in sequence: tick to 3300, then close. */
  lemma ProfitableLongPlantsTree(s: GameState, p: Position, draws: ByAsset<real>, now: int, closeTime: int)
    requires Inv(s) && DrawsInRange(draws)
    requires p.id == "a" && p.symbol == ETH && p.positionType == LONG
    requires p.entryPrice == 3000.0 && p.collateral == 1000.0 && p.leverage == 1
    requires s.balance == 9000.0 && s.positions == [p]
    requires StepPrice(s.prices, draws, ETH) == 3300.0
    ensures EntryPricesNonzero(s.positions)
    ensures var c := Closed(Ticked(s, draws, now), "a", closeTime);
      && c.balance == 10100.0 && c.positions == []
      && c.plantedTrees == s.plantedTrees + [PlantedTree("a", p.coordinates.x, p.coordinates.z, 1.1, closeTime)]
      && c.quests[SustainableTrader].completed
  {
    ProfitableLongMarked(s, p, draws, now);
    ProfitableLongClosed(Ticked(s, draws, now), p.(pnl := 100.0, pnlPercent := 10.0), closeTime);
  }

  /** A 5x SHORT on BTC with 500 collateral entered at 60000: at 66000 it is
      down 50% and survives the tick; at 72000 it is down 100%, the tick
      removes it without crediting the balance, and closing it afterwards
      does nothing. */
  lemma LeveragedShortLiquidated(s: GameState, q: Position, draws: ByAsset<real>, now: int, closeTime: int)
    requires Inv(s) && DrawsInRange(draws)
    requires q.symbol == BTC && q.positionType == SHORT
    requires q.entryPrice == 60000.0 && q.collateral == 500.0 && q.leverage == 5
    requires s.positions == [q]
    requires StepPrice(s.prices, draws, BTC) == 66000.0 || StepPrice(s.prices, draws, BTC) == 72000.0
    ensures var t := Ticked(s, draws, now);
      && t.balance == s.balance
      && (StepPrice(s.prices, draws, BTC) == 66000.0 ==> t.positions == [q.(pnl := -250.0, pnlPercent := -50.0)])
      && (StepPrice(s.prices, draws, BTC) == 72000.0 ==> t.positions == [] && Closed(t, q.id, closeTime) == t)
  {
    TickStep(s, draws, now);
    var prices := NextPrices(s.prices, draws);
    SurvivorsOfOne(q, prices);
  }
}
