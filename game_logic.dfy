/** Pricing, profit-and-loss and scoring rules: the pure arithmetic the
    simulation is built from. */
module GameLogic {
  import opened Types

  /** The two results of marking a position to market: profit in currency and
      profit as a percentage of the collateral. */
  datatype PnL = PnL(pnl: real, pnlPercent: real)

  /** +1 for a LONG (a rising price is profit), -1 for a SHORT. */
  function DirectionMultiplier(t: PositionType): real {
    if t == LONG then 1.0 else -1.0
  }

  /** Marks a leveraged position to market at `currentPrice`. The percentage
      is always the profit over the collateral, times 100. */
  function CalculatePnL(p: Position, currentPrice: real): (r: PnL)
    requires p.entryPrice != 0.0
    ensures r.pnlPercent * p.collateral == r.pnl * 100.0
    ensures p.collateral != 0.0 ==> r.pnlPercent == r.pnl / p.collateral * 100.0
  {
    var priceDiff := currentPrice - p.entryPrice;
    var rawPnlPercent := (priceDiff / p.entryPrice) * DirectionMultiplier(p.positionType);
    var pnlPercent := rawPnlPercent * p.leverage as real;
    var pnl := p.collateral * pnlPercent;
    PnL(pnl, pnlPercent * 100.0)
  }

  /** At the entry price a position has neither profit nor loss. */
  lemma PnLAtEntryIsZero(p: Position)
    requires p.entryPrice != 0.0
    ensures CalculatePnL(p, p.entryPrice) == PnL(0.0, 0.0)
  {
  }

  /** A LONG and a SHORT that agree in every other field gain and lose the
      same amounts with opposite signs. */
  lemma LongShortOpposite(p: Position, currentPrice: real)
    requires p.entryPrice != 0.0
    ensures CalculatePnL(p.(positionType := SHORT), currentPrice).pnl
         == -CalculatePnL(p.(positionType := LONG), currentPrice).pnl
    ensures CalculatePnL(p.(positionType := SHORT), currentPrice).pnlPercent
         == -CalculatePnL(p.(positionType := LONG), currentPrice).pnlPercent
  {
  }

  /** The percentage is 100 times leverage times the relative price move,
      signed by direction; it does not depend on the collateral. */
  lemma PnLPercentIsLeveragedMove(p: Position, currentPrice: real)
    requires p.entryPrice != 0.0
    ensures CalculatePnL(p, currentPrice).pnlPercent
         == 100.0 * p.leverage as real * DirectionMultiplier(p.positionType)
            * (currentPrice - p.entryPrice) / p.entryPrice
    ensures forall c :: CalculatePnL(p.(collateral := c), currentPrice).pnlPercent
                     == CalculatePnL(p, currentPrice).pnlPercent
  {
  }

  /** The liquidation rule `pnlPercent <= -80` as a price level: a LONG is
      liquidated once the price falls to entry * (1 - 0.8 / leverage) or below,
      a SHORT once it rises to entry * (1 + 0.8 / leverage) or above. */
  lemma LiquidationPrice(p: Position, currentPrice: real)
    requires p.entryPrice > 0.0 && p.leverage >= 1
    ensures CalculatePnL(p, currentPrice).pnlPercent <= -80.0 <==>
      if p.positionType == LONG
      then currentPrice <= p.entryPrice * (1.0 - 0.8 / p.leverage as real)
      else currentPrice >= p.entryPrice * (1.0 + 0.8 / p.leverage as real)
  {
    var e, l := p.entryPrice, p.leverage as real;
    var pct := CalculatePnL(p, currentPrice).pnlPercent;
    var m := (currentPrice - e) / e;
    assert pct == 100.0 * l * DirectionMultiplier(p.positionType) * m;
    assert currentPrice == e * (1.0 + m);
    if p.positionType == LONG {
      assert pct <= -80.0 <==> l * m <= -0.8;
      assert l * m <= -0.8 <==> m <= -0.8 / l;
    } else {
      assert pct <= -80.0 <==> l * m >= 0.8;
      assert l * m >= 0.8 <==> m >= 0.8 / l;
    }
  }

  /** Worked examples: a 1x LONG bought at 3000 with 1000 collateral is up 100
      (10%) at 3300; a 5x SHORT opened at 60000 is down 50% at 66000 and down
      100% at 72000. */
  lemma PnLExamples(p: Position, q: Position)
    requires p.positionType == LONG && p.leverage == 1 && p.entryPrice == 3000.0 && p.collateral == 1000.0
    requires q.positionType == SHORT && q.leverage == 5 && q.entryPrice == 60000.0 && q.collateral == 500.0
    ensures CalculatePnL(p, 3300.0) == PnL(100.0, 10.0)
    ensures CalculatePnL(q, 66000.0) == PnL(-250.0, -50.0)
    ensures CalculatePnL(q, 72000.0) == PnL(-500.0, -100.0)
  {
  }

  /** One step of the multiplicative random walk; `r` is the uniform draw in
      [-1, 1] that the game takes from its random source. NextPriceBounds
      states where the new price lies. */
  function GenerateNextPrice(currentPrice: real, volatility: real, trend: real, r: real): real
    requires -1.0 <= r <= 1.0
  {
    var changePercent := r * volatility + trend * 0.001;
    currentPrice * (1.0 + changePercent)
  }

  /** The new price lies between the prices the two extreme draws give, and a
      positive price stays positive whenever the worst draw keeps the factor
      positive. */
  lemma NextPriceBounds(currentPrice: real, volatility: real, trend: real, r: real)
    requires -1.0 <= r <= 1.0
    ensures var next := GenerateNextPrice(currentPrice, volatility, trend, r);
      currentPrice >= 0.0 && volatility >= 0.0 ==>
        currentPrice * (1.0 - volatility + trend * 0.001) <= next <= currentPrice * (1.0 + volatility + trend * 0.001)
    ensures currentPrice > 0.0 && volatility >= 0.0 && volatility - trend * 0.001 < 1.0 ==>
      GenerateNextPrice(currentPrice, volatility, trend, r) > 0.0
  {
    if volatility >= 0.0 {
      var d := trend * 0.001;
      var f := 1.0 + (r * volatility + d);
      assert GenerateNextPrice(currentPrice, volatility, trend, r) == currentPrice * f;
      DrawFactorBounds(r, volatility, d);
      if currentPrice >= 0.0 {
        ScaleMonotone(currentPrice, 1.0 - volatility + d, f);
        ScaleMonotone(currentPrice, f, 1.0 + volatility + d);
      }
      if currentPrice > 0.0 && volatility - d < 1.0 {
        PositiveProduct(currentPrice, f);
      }
    }
  }

  /** With a draw in [-1, 1] and a non-negative volatility `v`, the step
      factor lies between the factors of the two extreme draws. */
  lemma DrawFactorBounds(r: real, v: real, d: real)
    requires -1.0 <= r <= 1.0 && v >= 0.0
    ensures 1.0 - v + d <= 1.0 + (r * v + d) <= 1.0 + v + d
  {
    NonnegativeProduct(r + 1.0, v);
    assert (r + 1.0) * v == r * v + v;
    NonnegativeProduct(1.0 - r, v);
    assert (1.0 - r) * v == v - r * v;
  }

  /** Multiplying by a non-negative number keeps an order. */
  lemma ScaleMonotone(c: real, a: real, b: real)
    requires c >= 0.0 && a <= b
    ensures c * a <= c * b
  {
    NonnegativeProduct(c, b - a);
    assert c * (b - a) == c * b - c * a;
  }

  lemma NonnegativeProduct(x: real, y: real)
    requires x >= 0.0 && y >= 0.0
    ensures x * y >= 0.0
  {
  }

  lemma PositiveProduct(x: real, y: real)
    requires x > 0.0 && y > 0.0
    ensures x * y > 0.0
  {
  }

  /** A quotient by a positive number is bounded as the dividend is. */
  lemma QuotientBounds(t: real, n: real, lo: real, hi: real)
    requires n > 0.0 && lo * n <= t <= hi * n
    ensures lo <= t / n <= hi
  {
    var q := t / n;
    assert q * n == t;
    if q > hi {
      PositiveProduct(q - hi, n);
    }
    if q < lo {
      PositiveProduct(lo - q, n);
    }
  }

  /** Sum of the leverages of `ps`. */
  function TotalLeverage(ps: seq<Position>): int {
    if |ps| == 0 then 0 else ps[0].leverage + TotalLeverage(ps[1..])
  }

  /** Sum of the collateral posted in `ps`. */
  function TotalCollateral(ps: seq<Position>): real {
    if |ps| == 0 then 0.0 else ps[0].collateral + TotalCollateral(ps[1..])
  }

  predicate LeveragesWithin(ps: seq<Position>, lo: int, hi: int) {
    forall i :: 0 <= i < |ps| ==> lo <= ps[i].leverage <= hi
  }

  /** With every leverage in [lo, hi], the total lies between lo and hi times
      the number of positions. */
  lemma {:induction false} TotalLeverageBounds(ps: seq<Position>, lo: int, hi: int)
    requires LeveragesWithin(ps, lo, hi)
    ensures lo * |ps| <= TotalLeverage(ps) <= hi * |ps|
  {
    if |ps| > 0 {
      assert LeveragesWithin(ps[1..], lo, hi) by {
        forall i | 0 <= i < |ps[1..]| ensures lo <= ps[1..][i].leverage <= hi {
          assert ps[1..][i] == ps[i + 1];
        }
      }
      TotalLeverageBounds(ps[1..], lo, hi);
    }
  }

  /** Positive collateral everywhere gives a positive total. */
  lemma {:induction false} TotalCollateralPositive(ps: seq<Position>)
    requires |ps| > 0
    requires forall i :: 0 <= i < |ps| ==> ps[i].collateral > 0.0
    ensures TotalCollateral(ps) > 0.0
  {
    if |ps| > 1 {
      TotalCollateralPositive(ps[1..]);
    }
  }

  /** JavaScript's Math.round: the nearest integer, halves rounded up. */
  function JsRound(x: real): (n: int)
    ensures n as real - 0.5 <= x < n as real + 0.5
  {
    (x + 0.5).Floor
  }

  /** `numerator / denominator > threshold` as IEEE-754 evaluates it for a
      positive threshold: a positive number over zero is +Infinity (above
      every threshold), zero over zero is NaN and a negative number over zero
      is -Infinity (neither is above). */
  predicate RatioAbove(numerator: real, denominator: real, threshold: real) {
    if denominator == 0.0 then numerator > 0.0 else numerator / denominator > threshold
  }

  /** Over a positive denominator the ratio test is the multiplied-out
      comparison numerator > threshold * denominator. */
  lemma RatioAboveScaled(numerator: real, denominator: real, threshold: real)
    requires denominator > 0.0
    ensures RatioAbove(numerator, denominator, threshold) <==> numerator > threshold * denominator
  {
    var q := numerator / denominator;
    assert q * denominator == numerator;
    if q > threshold {
      PositiveProduct(q - threshold, denominator);
    } else {
      NonnegativeProduct(threshold - q, denominator);
    }
  }

  /** The sustainability score of a portfolio: 100 for no positions; otherwise
      100 minus 10 per unit of average leverage above 1, minus 20 when the
      collateral is more than half of balance plus collateral and a further 30
      when it is more than 0.8 of it, rounded and clamped to [0, 100]. */
  function CalculateSustainability(positions: seq<Position>, balance: real): (score: int)
    ensures 0 <= score <= 100
    ensures |positions| == 0 ==> score == 100
  {
    if |positions| == 0 then 100
    else
      var avgLeverage := TotalLeverage(positions) as real / |positions| as real;
      var afterLeverage := 100.0 - (avgLeverage - 1.0) * 10.0;
      var totalCollateral := TotalCollateral(positions);
      var equity := balance + totalCollateral;
      var afterHalf := if RatioAbove(totalCollateral, equity, 0.5) then afterLeverage - 20.0 else afterLeverage;
      var afterAll := if RatioAbove(totalCollateral, equity, 0.8) then afterHalf - 30.0 else afterHalf;
      var rounded := JsRound(afterAll);
      var capped := if rounded < 100 then rounded else 100;
      if capped > 0 then capped else 0
  }

  /** Unleveraged positions that tie up at most half of the equity carry no
      risk: the score is 100. */
  lemma SafePortfolioScoresFull(ps: seq<Position>, balance: real)
    requires |ps| > 0 && LeveragesWithin(ps, 1, 1)
    requires balance + TotalCollateral(ps) > 0.0
    requires TotalCollateral(ps) / (balance + TotalCollateral(ps)) <= 0.5
    ensures CalculateSustainability(ps, balance) == 100
  {
    TotalLeverageBounds(ps, 1, 1);
    assert TotalLeverage(ps) == |ps|;
    var avgLeverage := TotalLeverage(ps) as real / |ps| as real;
    QuotientBounds(TotalLeverage(ps) as real, |ps| as real, 1.0, 1.0);
    assert avgLeverage == 1.0;
    assert 100.0 - (avgLeverage - 1.0) * 10.0 == 100.0;
    var totalCollateral := TotalCollateral(ps);
    assert !RatioAbove(totalCollateral, balance + totalCollateral, 0.5);
    assert !RatioAbove(totalCollateral, balance + totalCollateral, 0.8);
    assert JsRound(100.0) == 100;
  }

  /** More than 0.8 of the equity tied up takes off both exposure penalties,
      50 points in all, so the score is at most 50. */
  lemma OverExposedScoresAtMostHalf(ps: seq<Position>, balance: real)
    requires |ps| > 0 && LeveragesWithin(ps, 1, 5)
    requires balance + TotalCollateral(ps) > 0.0
    requires TotalCollateral(ps) / (balance + TotalCollateral(ps)) > 0.8
    ensures CalculateSustainability(ps, balance) <= 50
  {
    TotalLeverageBounds(ps, 1, 5);
    QuotientBounds(TotalLeverage(ps) as real, |ps| as real, 1.0, 5.0);
  }

  /** With leverages between 1 and 5 the penalties add up to at most 90, so
      the score never falls below 10. */
  lemma ScoreFloor(ps: seq<Position>, balance: real)
    requires LeveragesWithin(ps, 1, 5)
    ensures CalculateSustainability(ps, balance) >= 10
  {
    if |ps| > 0 {
      TotalLeverageBounds(ps, 1, 5);
      QuotientBounds(TotalLeverage(ps) as real, |ps| as real, 1.0, 5.0);
    }
  }
}
