/** What the three transitions promise: each keeps the game invariant, a tick
    leaves the balance alone and liquidates exactly the positions at or below
    -80%, opening debits the collateral, closing credits collateral plus
    profit (always more than a fifth of the collateral), and ECO tokens grow
    by exactly the rewards of the quests completed in the step. */
module AppInvariants {
  import opened Types
  import opened Constants
  import opened GameLogic
  import opened Quests
  import opened App

  // ---------------------------------------------------------------------
  // Histories

  /** The history update is a bounded buffer: the new history is the last
      min(|h| + 1, HistoryCapacity) samples of the old history with the new
      sample appended, that is, the last min(|h|, 49) old samples and then
      the new one. */
  lemma PushSampleKeepsNewest(h: seq<Sample>, x: Sample)
    ensures var hx := h + [x];
      PushSample(h, x) == hx[|hx| - (if |hx| < HistoryCapacity then |hx| else HistoryCapacity)..]
    ensures var kept := if |h| < HistoryCapacity - 1 then |h| else HistoryCapacity - 1;
      PushSample(h, x) == h[|h| - kept..] + [x]
  {
    var kept := if |h| < HistoryCapacity - 1 then |h| else HistoryCapacity - 1;
    assert h[|h| - kept..] + [x] == (h + [x])[|h| - kept..];
  }

  // ---------------------------------------------------------------------
  // Marking and liquidation

  /** Survivors of one position: none if it is liquidated, else the position
      re-marked. */
  lemma SurvivorsOfOne(p: Position, prices: ByAsset<real>)
    requires p.entryPrice != 0.0
    ensures Survivors([p], prices)
         == if Liquidated(p, PriceOf(p, prices)) then [] else [Mark(p, PriceOf(p, prices))]
  {
    assert [p][..0] == [];
  }

  /** Liquidation works position by position and keeps the order: the
      survivors of a concatenation are the survivors of each part, in order.
      With SurvivorsOfOne this pins Survivors down as an order-preserving
      filter-and-re-mark. */
  lemma {:induction false} SurvivorsAppend(a: seq<Position>, b: seq<Position>, prices: ByAsset<real>)
    requires EntryPricesNonzero(a) && EntryPricesNonzero(b)
    ensures EntryPricesNonzero(a + b)
    ensures Survivors(a + b, prices) == Survivors(a, prices) + Survivors(b, prices)
  {
    if |b| == 0 {
      assert a + b == a;
    } else {
      var b' := b[..|b| - 1];
      assert (a + b)[..|a + b| - 1] == a + b';
      assert (a + b)[|a + b| - 1] == b[|b| - 1];
      SurvivorsAppend(a, b', prices);
    }
  }

  /** Exactly the positions whose re-marked percentage is above -80 survive,
      each re-marked at its asset's new price and otherwise unchanged. */
  lemma {:induction false} SurvivorsMembers(ps: seq<Position>, prices: ByAsset<real>)
    requires EntryPricesNonzero(ps)
    ensures |Survivors(ps, prices)| <= |ps|
    ensures forall i :: 0 <= i < |ps| && !Liquidated(ps[i], PriceOf(ps[i], prices)) ==>
      Mark(ps[i], PriceOf(ps[i], prices)) in Survivors(ps, prices)
    ensures forall q :: q in Survivors(ps, prices) ==>
      exists i :: 0 <= i < |ps| && !Liquidated(ps[i], PriceOf(ps[i], prices)) && q == Mark(ps[i], PriceOf(ps[i], prices))
  {
    if |ps| > 0 {
      var n := |ps| - 1;
      var init := ps[..n];
      SurvivorsMembers(init, prices);
      var rest := Survivors(init, prices);
      forall i | 0 <= i < |ps| && !Liquidated(ps[i], PriceOf(ps[i], prices))
        ensures Mark(ps[i], PriceOf(ps[i], prices)) in Survivors(ps, prices)
      {
        if i < n {
          assert init[i] == ps[i];
        }
      }
      forall q | q in Survivors(ps, prices)
        ensures exists i :: 0 <= i < |ps| && !Liquidated(ps[i], PriceOf(ps[i], prices)) && q == Mark(ps[i], PriceOf(ps[i], prices))
      {
        if q in rest {
          var i :| 0 <= i < |init| && !Liquidated(init[i], PriceOf(init[i], prices)) && q == Mark(init[i], PriceOf(init[i], prices));
          assert init[i] == ps[i];
        } else {
          assert q == Mark(ps[n], PriceOf(ps[n], prices));
        }
      }
    }
  }

  /** A healthy portfolio stays healthy through marking: every survivor keeps
      its entry, collateral, leverage and size, has its percentage equal to
      its profit over its collateral times 100, and is above -80%. */
  lemma SurvivorsHealthy(ps: seq<Position>, prices: ByAsset<real>)
    requires forall i :: 0 <= i < |ps| ==> Healthy(ps[i])
    ensures EntryPricesNonzero(ps)
    ensures var s := Survivors(ps, prices);
      forall i :: 0 <= i < |s| ==> Healthy(s[i])
  {
    SurvivorsMembers(ps, prices);
    var s := Survivors(ps, prices);
    forall k | 0 <= k < |s| ensures Healthy(s[k]) {
      assert s[k] in s;
    }
  }

  // ---------------------------------------------------------------------
  // The transitions

  /** Whenever positions are open, the denominator of the exposure ratio,
      balance plus total collateral, is positive. */
  lemma ScoreDenominatorPositive(s: GameState)
    requires Inv(s) && |s.positions| > 0
    ensures s.balance + TotalCollateral(s.positions) > 0.0
  {
    TotalCollateralPositive(s.positions);
  }

  lemma NextPricesPositive(prices: ByAsset<real>, draws: ByAsset<real>)
    requires DrawsInRange(draws) && forall sym :: prices.Get(sym) > 0.0
    ensures forall sym :: NextPrices(prices, draws).Get(sym) > 0.0
  {
    forall sym ensures NextPrices(prices, draws).Get(sym) > 0.0 {
      NextPriceBounds(prices.Get(sym), Assets(sym).volatility, Assets(sym).trend, draws.Get(sym));
      assert NextPrices(prices, draws).Get(sym) == StepPrice(prices, draws, sym);
    }
  }

  /** A tick keeps the invariant and never touches the balance or the planted
      trees. It scores at least 10, because every survivor has leverage 1 to
      5. Quests only advance, and the ECO tokens grow by 300 on the tick where
      risk_manager reaches 30 while a 5x position is open, and by nothing
      otherwise. */
  lemma TickStep(prev: GameState, draws: ByAsset<real>, now: int)
    requires Inv(prev) && DrawsInRange(draws)
    ensures EntryPricesNonzero(prev.positions)
    ensures var next := Ticked(prev, draws, now);
      && Inv(next)
      && next.balance == prev.balance && next.plantedTrees == prev.plantedTrees
      && next.sustainabilityScore >= 10
      && Advances(prev.quests, next.quests)
      && next.ecoTokens
         == prev.ecoTokens
          + (if !prev.quests[RiskManager].completed && HasHighLeverage(next.positions)
                && prev.quests[RiskManager].progress + 1 == 30 then 300 else 0)
  {
    SurvivorsHealthy(prev.positions, NextPrices(prev.prices, draws));
    var next := Ticked(prev, draws, now);
    NextPricesPositive(prev.prices, draws);
    TickQuestsStep(prev.quests, HasHighLeverage(next.positions));
    assert next.positions == Survivors(prev.positions, NextPrices(prev.prices, draws));
    assert LeveragesWithin(next.positions, 1, 5) by {
      forall k | 0 <= k < |next.positions| ensures 1 <= next.positions[k].leverage <= 5 {
        assert Healthy(next.positions[k]);
      }
    }
    ScoreFloor(next.positions, prev.balance);
    forall sym ensures HistoryTracks(next.marketHistory.Get(sym), next.prices.Get(sym)) {
      assert next.marketHistory.Get(sym)
          == PushSample(prev.marketHistory.Get(sym), Sample(now, next.prices.Get(sym)));
    }
  }

  /** A position opened with positive collateral, leverage 1 to 5 and a
      positive price is healthy. */
  lemma NewPositionHealthy(id: string, symbol: AssetSymbol, positionType: PositionType, currentPrice: real,
                           amount: real, leverage: int, now: int, coordinates: Coordinates)
    requires 0.0 < amount && 1 <= leverage <= 5 && currentPrice > 0.0
    ensures Healthy(NewPosition(id, symbol, positionType, currentPrice, amount, leverage, now, coordinates))
  {
  }

  /** Opening an admissible trade keeps the invariant. */
  lemma OpenKeepsInv(prev: GameState, positionType: PositionType, amount: real, p: Position)
    requires Inv(prev) && 0.0 < amount <= prev.balance && Healthy(p)
    ensures Inv(Opened(prev, positionType, amount, p))
  {
    OpenQuestsStep(prev.quests, positionType, |prev.positions|);
    var next := Opened(prev, positionType, amount, p);
    assert next.positions == prev.positions + [p];
    assert forall i :: 0 <= i < |next.positions| ==> Healthy(next.positions[i]) by {
      forall i | 0 <= i < |next.positions| ensures Healthy(next.positions[i]) {
        if i < |prev.positions| {
          assert next.positions[i] == prev.positions[i];
        }
      }
    }
  }

  /** Opening a position with 0 < amount <= balance and leverage 1 to 5, at a
      positive price: the invariant holds, the balance drops by exactly the
      amount, the position is appended entered at that price, of size
      amount * leverage and with no profit, and the ECO tokens grow by 50 if
      this completed first_growth and by 100 if it completed diversify. */
  lemma OpenStep(prev: GameState, symbol: AssetSymbol, positionType: PositionType, currentPrice: real,
                 amount: real, leverage: int, id: string, now: int, coordinates: Coordinates)
    requires Inv(prev)
    requires 0.0 < amount <= prev.balance && 1 <= leverage <= 5 && currentPrice > 0.0
    ensures var p := NewPosition(id, symbol, positionType, currentPrice, amount, leverage, now, coordinates);
      var next := Opened(prev, positionType, amount, p);
      && Inv(next)
      && next.balance == prev.balance - amount
      && next.positions == prev.positions + [p]
      && p.entryPrice == currentPrice && p.collateral == amount && p.size == amount * leverage as real
      && p.pnl == 0.0 && p.pnlPercent == 0.0
      && Advances(prev.quests, next.quests)
      && next.ecoTokens
         == prev.ecoTokens
          + (if positionType == LONG && !prev.quests[FirstGrowth].completed then 50 else 0)
          + (if |prev.positions| + 1 >= 2 && !prev.quests[Diversify].completed then 100 else 0)
      && next.prices == prev.prices && next.marketHistory == prev.marketHistory
      && next.plantedTrees == prev.plantedTrees && next.sustainabilityScore == prev.sustainabilityScore
  {
    var p := NewPosition(id, symbol, positionType, currentPrice, amount, leverage, now, coordinates);
    NewPositionHealthy(id, symbol, positionType, currentPrice, amount, leverage, now, coordinates);
    OpenKeepsInv(prev, positionType, amount, p);
    OpenQuestsStep(prev.quests, positionType, |prev.positions|);
  }

  /** Removal works list by list, so it keeps the order of what remains:
      together with the one-position cases of RemoveById (kept iff its id
      differs) this fixes the result completely. */
  lemma {:induction false} RemoveByIdAppend(a: seq<Position>, b: seq<Position>, id: string)
    ensures RemoveById(a + b, id) == RemoveById(a, id) + RemoveById(b, id)
  {
    if |a| == 0 {
      assert a + b == b;
    } else {
      assert (a + b)[0] == a[0];
      assert (a + b)[1..] == a[1..] + b;
      RemoveByIdAppend(a[1..], b, id);
    }
  }

  /** A healthy position is worth more than a fifth of its collateral. */
  lemma HealthyCredit(p: Position)
    requires Healthy(p)
    ensures p.collateral + p.pnl > 0.2 * p.collateral > 0.0
  {
    PositiveProduct(p.pnlPercent + 80.0, p.collateral);
  }

  /** The first position with the given id is healthy, so closing it
      returns more than a fifth of its collateral. */
  lemma ClosedPositionCredit(prev: GameState, id: string)
    requires Inv(prev) && FindPosition(prev.positions, id).Some?
    ensures var pos := FindPosition(prev.positions, id).value;
      Healthy(pos) && pos.collateral + pos.pnl > 0.2 * pos.collateral > 0.0
  {
    var pos := FindPosition(prev.positions, id).value;
    assert pos in prev.positions;
    HealthyCredit(pos);
  }

  /** Closing keeps the invariant: the balance stays non-negative because the
      credit is positive, and the remaining positions are all healthy. */
  lemma CloseKeepsInv(prev: GameState, id: string, now: int)
    requires Inv(prev)
    ensures Inv(Closed(prev, id, now))
  {
    match FindPosition(prev.positions, id)
    case None =>
    case Some(pos) =>
      ClosedPositionCredit(prev, id);
      CloseQuestsStep(prev.quests, pos.pnlPercent);
      var next := Closed(prev, id, now);
      forall k | 0 <= k < |next.positions| ensures Healthy(next.positions[k]) {
        assert next.positions[k] in prev.positions;
      }
  }

  /** Closing a position. An unknown id changes nothing. Otherwise the first
      position with that id is settled: the balance grows by its collateral
      plus its last-tick profit, which is more than a fifth of its collateral
      and so strictly positive; the positions with other ids all remain and
      none with that id does; a profitable LONG appends its tree, scaled by
      its profit, at its own place, and any other position leaves the trees
      alone; sustainable_trader completes iff the position made at least 5%,
      and the ECO tokens grow by 200 exactly when that just happened. */
  lemma CloseStep(prev: GameState, id: string, now: int)
    requires Inv(prev)
    ensures var next := Closed(prev, id, now);
      && (FindPosition(prev.positions, id).None? ==> next == prev)
      && (FindPosition(prev.positions, id).Some? ==>
            var pos := FindPosition(prev.positions, id).value;
            && next.balance == prev.balance + pos.collateral + pos.pnl
            && pos.collateral + pos.pnl > 0.2 * pos.collateral > 0.0
            && next.balance > prev.balance
            && next.positions == RemoveById(prev.positions, id)
            && |next.positions| < |prev.positions|
            && (forall i :: 0 <= i < |next.positions| ==> next.positions[i].id != id)
            && (forall q :: q in prev.positions && q.id != id ==> q in next.positions)
            && (pos.positionType == LONG && pos.pnl > 0.0 ==>
                  next.plantedTrees
                  == prev.plantedTrees
                   + [PlantedTree(pos.id, pos.coordinates.x, pos.coordinates.z, TreeScale(pos.pnlPercent), now)])
            && (!(pos.positionType == LONG && pos.pnl > 0.0) ==> next.plantedTrees == prev.plantedTrees)
            && Advances(prev.quests, next.quests)
            && next.quests[SustainableTrader].completed
               == (prev.quests[SustainableTrader].completed || pos.pnlPercent >= 5.0)
            && next.ecoTokens
               == prev.ecoTokens + (if pos.pnlPercent >= 5.0 && !prev.quests[SustainableTrader].completed then 200 else 0)
            && next.prices == prev.prices && next.marketHistory == prev.marketHistory
            && next.sustainabilityScore == prev.sustainabilityScore)
  {
    match FindPosition(prev.positions, id)
    case None =>
    case Some(pos) =>
      ClosedPositionCredit(prev, id);
      CloseQuestsStep(prev.quests, pos.pnlPercent);
      var next := Closed(prev, id, now);
      forall k | 0 <= k < |next.positions| ensures next.positions[k].id != id {
        assert next.positions[k] in next.positions;
      }
  }
}
