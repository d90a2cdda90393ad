# Perpetual Land — a verified model of the trading simulation core

Perpetual Land is a browser game about leveraged ("perpetual") trading. The
player holds a mock USD balance and opens LONG or SHORT positions on three
simulated assets (ETH, BTC, SOL) with leverage 1x to 5x. Every two seconds the
market ticks:

- each price takes one step of a random walk and is appended to a 50-sample
  history;
- every open position is re-marked;
- a position that has lost 80% of its collateral is liquidated, and the
  collateral is lost;
- a sustainability score from 0 to 100 is recomputed;
- passive quests advance.

Closing a position credits its collateral plus its profit. A profitable LONG
leaves a tree in the player's biome. Completing one of four quests earns ECO
tokens.

This project models that core in Dafny:

- **Types** (`types.dfy`): the game's records. `ByAsset<T>` stands for
  `Record<AssetSymbol, T>`.
- **Constants** (`constants.dfy`): the starting balance, the three assets
  and the quest catalogue.
- **GameLogic** (`game_logic.dfy`): the three pure rules: profit and loss,
  the price step and the sustainability score.
- **Quests** (`quests.dfy`):
  - how each transition rewrites the quest list;
  - how the ECO tokens earned are found by diffing the new list against the
    previous one.
- **App** (`app.dfy`): the three state updaters of the game component.
  - The tick is a method whose two loops follow the original. It is proved
    equal to the specification function `Ticked`.
  - The marking loop keeps a liquidation flag, as the original does. As in
    the original, the updater does not return it.
  - Opening and closing have no loops and are functions (`Opened`,
    `Closed`).
- **AppInvariants** (`app_invariants.dfy`): the state invariant `Inv` and
  what each transition does to the state. `Inv` says:
  - the balance is non-negative;
  - each position is healthy: positive entry price and collateral, leverage
    1..5, size = collateral × leverage, pnl consistent with pnlPercent, and
    pnlPercent above −80;
  - the score is in [0, 100];
  - prices are positive and each history ends in the current price;
  - the quests are the catalogue, with consistent progress.
- **Session** (`session.dfy`): runs of events from the initial state, and
  the component's state slot as a class `Game`. Its methods replace the
  snapshot.
- **Scenarios** (`scenarios.dfy`): worked games checked end to end.

Every source of randomness and time becomes a parameter:

- the uniform draws of the price walk (`draws`, in [−1, 1]);
- the placement draws `ux`, `uz` in [0, 1);
- position ids;
- the clock readings `now`.

## Model

| member | source | states |
|---|---|---|
| Constants.Assets | constants.ts:7-11 | each asset has its own symbol, a positive starting price and a non-negative volatility small enough that one step keeps a price positive |
| Constants.InitialQuests | constants.ts:13-50 | four quests in catalogue order with the ids first_growth, diversify, sustainable_trader and risk_manager; ids are distinct; each starts not completed at progress 0, with a positive reward and maximum |
| Constants.CatalogValues | constants.ts:13-50 | rewards are 50, 100, 200 and 300; maximum progress is 1, 2, 1 and 30 |
| GameLogic.CalculatePnL | services/gameLogic.ts:3-14 | pnlPercent × collateral = 100 × pnl, so pnlPercent is pnl as a percentage of collateral whenever collateral is non-zero |
| GameLogic.PnLAtEntryIsZero | services/gameLogic.ts:3-14 | at the entry price both pnl and pnlPercent are 0 |
| GameLogic.DirectionMultiplier | services/gameLogic.ts:6 | +1 for a LONG and −1 for a SHORT; its effect is stated by GameLogic.LongShortOpposite |
| GameLogic.LongShortOpposite | services/gameLogic.ts:4-11 | a SHORT gains exactly what the same LONG loses, in pnl and in pnlPercent |
| GameLogic.PnLPercentIsLeveragedMove | services/gameLogic.ts:8-13 | pnlPercent = 100 × leverage × direction × relative price move, whatever the collateral |
| GameLogic.LiquidationPrice | App.tsx:57-60 | the liquidation test pnlPercent ≤ −80 holds iff price ≤ entry·(1 − 0.8/leverage) for a LONG, and iff price ≥ entry·(1 + 0.8/leverage) for a SHORT |
| GameLogic.PnLExamples | services/gameLogic.ts:3-14 | 1x LONG of 1000 at 3000 → +100 (+10%) at 3300; 5x SHORT of 500 at 60000 → −250 (−50%) at 66000 and −500 (−100%) at 72000 |
| GameLogic.GenerateNextPrice | services/gameLogic.ts:16-20 | one step of the random walk with the draw passed in; its bounds are stated by GameLogic.NextPriceBounds |
| GameLogic.NextPriceBounds | services/gameLogic.ts:16-20 | for a draw in [−1, 1] the next price lies between the prices the two extreme draws give; a positive price stays positive when the worst factor is positive |
| GameLogic.TotalLeverage | services/gameLogic.ts:29 | the leverage fold; bounded by GameLogic.TotalLeverageBounds |
| GameLogic.TotalCollateral | services/gameLogic.ts:34 | the collateral fold; positivity by GameLogic.TotalCollateralPositive |
| GameLogic.TotalLeverageBounds | services/gameLogic.ts:29-30 | with every leverage in [lo, hi], the summed leverage lies in [lo·n, hi·n] |
| GameLogic.TotalCollateralPositive | services/gameLogic.ts:34 | a non-empty list with positive collateral has a positive total |
| GameLogic.JsRound | services/gameLogic.ts:39 | the result is the integer n with n − 0.5 ≤ x < n + 0.5 (halves round up) |
| GameLogic.RatioAbove | services/gameLogic.ts:35-37 | the exposure test as IEEE-754 evaluates it, including a zero denominator; see GameLogic.RatioAboveScaled |
| GameLogic.RatioAboveScaled | services/gameLogic.ts:35-37 | over a positive denominator the exposure test is numerator > threshold × denominator |
| GameLogic.CalculateSustainability | services/gameLogic.ts:22-40 | the score is in [0, 100], and exactly 100 with no positions |
| GameLogic.SafePortfolioScoresFull | services/gameLogic.ts:22-40 | all-1x positions tying up at most half the equity score 100 |
| GameLogic.OverExposedScoresAtMostHalf | services/gameLogic.ts:33-39 | positions tying up more than 0.8 of the equity score at most 50 |
| GameLogic.ScoreFloor | services/gameLogic.ts:28-39 | with leverages 1..5 the score is at least 10 |
| Quests.InitialQuestsWellFormed | constants.ts:13-50 | the catalogue satisfies the quest invariant |
| Quests.TickQuest | App.tsx:72-80 | the per-quest tick rule; its effect is stated by Quests.TickQuestsStep |
| Quests.CompleteIfReached | App.tsx:81-87 | the completion pass; its effect is stated by Quests.TickQuestsStep |
| Quests.OpenQuest | App.tsx:136-140 | the per-quest open rule; its effect is stated by Quests.OpenQuestsStep |
| Quests.CloseQuest | App.tsx:176-179 | the per-quest close rule; its effect is stated by Quests.CloseQuestsStep |
| Quests.TickQuests | App.tsx:72-87 | the tick's two quest passes keep the list length (contents: Quests.TickQuestsStep) |
| Quests.OpenQuests | App.tsx:136-140 | the open-time quest pass keeps the list length (contents: Quests.OpenQuestsStep) |
| Quests.CloseQuests | App.tsx:176-179 | the close-time quest pass keeps the list length (contents: Quests.CloseQuestsStep) |
| Quests.FindQuest | App.tsx:90 | the lookup returns the first quest of the list with the requested id, or none exactly when no quest has that id |
| Quests.WasCompleted | App.tsx:90 | the `find(...)?.completed` test; with distinct ids it is the completion of the quest at the same place (Quests.FindQuestDistinct, Quests.RewardIsFlippedReward) |
| Quests.NewlyCompleted | App.tsx:90 | every quest kept is in the new list, completed, and was not completed under the same id before |
| Quests.NewlyCompletedKeepsAll | App.tsx:90 | conversely, every completed quest of the new list that was not completed under its id before is kept |
| Quests.FindQuestDistinct | App.tsx:90 | with distinct ids, looking up a quest's id finds that quest |
| Quests.NewlyCompletedSkipsHead | App.tsx:90 | an old quest whose id none of the candidates carries does not affect the filter |
| Quests.SumRewards | App.tsx:91 | the reward fold; its value on the newly completed quests is stated by Quests.RewardIsFlippedReward |
| Quests.Reward | App.tsx:90-91 | the credit of a step; its value is stated by Quests.RewardIsFlippedReward and Quests.CreditedIsFlipped |
| Quests.RewardIsFlippedReward | App.tsx:89-91 | the credited reward equals the sum, position by position, of the rewards of quests that went from not completed to completed |
| Quests.CreditedIsFlipped | App.tsx:89-181 | for well-formed lists the credit is the flipped rewards of the four catalogue quests, at each of the three credits (tick App.tsx:89-91, trade App.tsx:142-143, close App.tsx:180-181) |
| Quests.OpenQuestsStep | App.tsx:135-143 | first_growth completes iff the trade is a LONG (or it was already complete); diversify completes iff two or more positions are open (or it was already complete); credit is 50 and/or 100 for what just flipped |
| Quests.CloseQuestsStep | App.tsx:175-181 | sustainable_trader completes iff the closed position made at least 5%; credit is 200 exactly when it just flipped |
| Quests.TickQuestsStep | App.tsx:71-91 | only risk_manager moves, one step per tick while a ≥5x position is open; it completes at 30 and that tick alone is credited 300 |
| App.InitialPrices | App.tsx:21 | the catalogue prices; stated by App.InitialState |
| App.InitialHistory | App.tsx:24-26 | twenty samples of the catalogue price; App.InitialState states that each history ends in the current price |
| App.InitialState | App.tsx:15-28 | the initial snapshot satisfies the invariant: balance 10000, no tokens, score 100, no positions or trees, catalogue quests, catalogue prices |
| App.StepPrice | App.tsx:42-43 | one asset's step with its catalogue volatility and trend; bounded by GameLogic.NextPriceBounds |
| App.NextPrices | App.tsx:41-43 | every asset stepped with its own draw; positivity kept by AppInvariants.NextPricesPositive |
| App.NextHistory | App.tsx:45-49 | every history pushed with the new price; its contents are stated by App.PushSample and AppInvariants.PushSampleKeepsNewest |
| App.PushSample | App.tsx:45-49 | the history holds 1 to 50 samples and ends in the new one |
| App.AdvanceMarket | App.tsx:37-50 | the per-asset loop yields exactly the stepped prices and the histories with the new price appended |
| App.Liquidated | App.tsx:60 | the −80% test; as a price level by GameLogic.LiquidationPrice, its effect on the tick by AppInvariants.SurvivorsMembers |
| App.HasHighLeverage | App.tsx:77-78 | some open position has leverage ≥ 5; its effect is stated by Quests.TickQuestsStep and AppInvariants.TickStep |
| App.Mark | App.tsx:57-64 | re-marking changes only pnl and pnlPercent, and leaves them consistent (pnlPercent × collateral = 100 × pnl) |
| App.Survivors | App.tsx:53-66 | the specification of the marking pass; stated by AppInvariants.SurvivorsOfOne, SurvivorsAppend, SurvivorsMembers and SurvivorsHealthy |
| App.MarkPositions | App.tsx:52-66 | the loop keeps exactly the non-liquidated positions, re-marked and in order; its local flag is set iff some position was liquidated |
| App.Ticked | App.tsx:36-103 | the specification of the tick; stated by AppInvariants.TickStep |
| App.TickUpdate | App.tsx:36-103 | the whole tick, run as the two loops, equals the specification Ticked |
| App.NewPosition | App.tsx:120-132 | the position a trade creates; AppInvariants.OpenStep states its entry price, size, collateral and zero profit |
| App.Opened | App.tsx:134-152 | the open updater; stated in full by AppInvariants.OpenStep |
| AppInvariants.NewPositionHealthy | App.tsx:120-132 | a position opened with positive collateral and price and leverage 1..5 is healthy: size = collateral × leverage, zero profit |
| AppInvariants.OpenKeepsInv | App.tsx:134-152 | appending a healthy position while debiting at most the balance keeps the invariant |
| App.Closed | App.tsx:156-191 | the close updater; stated in full by AppInvariants.CloseStep |
| App.Coordinate | App.tsx:114-118 | a draw in [0, 1) places the position within ±11 of the biome centre |
| App.FindPosition | App.tsx:157-158 | none iff no position has the id; otherwise a position of the list that has the id |
| App.RemoveById | App.tsx:186 | exactly the positions with a different id remain; the list is unchanged iff absent and strictly shorter iff present |
| AppInvariants.RemoveByIdAppend | App.tsx:186 | removal works list by list, so what remains keeps its order |
| App.TreeScale | App.tsx:165 | 1 + pnlPercent/100, clamped to [0.5, 2.5] |
| AppInvariants.PushSampleKeepsNewest | App.tsx:46-49 | the new history is the last min(\|h\|+1, 50) samples of the old history with the new sample appended, that is, the last min(\|h\|, 49) old samples followed by the new one |
| AppInvariants.SurvivorsOfOne | App.tsx:56-65 | one position either survives re-marked or disappears, according to the liquidation test |
| AppInvariants.SurvivorsAppend | App.tsx:56-65 | marking distributes over concatenation, the order of the forEach |
| AppInvariants.SurvivorsMembers | App.tsx:56-65 | a re-marked position survives iff it is not liquidated; no other position appears |
| AppInvariants.SurvivorsHealthy | App.tsx:56-65 | every survivor of healthy positions is healthy, including pnlPercent > −80 |
| AppInvariants.ScoreDenominatorPositive | services/gameLogic.ts:35 | in a reachable state with positions the exposure denominator is positive |
| AppInvariants.NextPricesPositive | App.tsx:41-43 | positive prices stay positive after a step |
| AppInvariants.TickStep | App.tsx:36-103 | a tick keeps the invariant and the balance and trees; it scores ≥ 10 and advances the quests; tokens grow by 300 exactly when risk_manager reaches 30 |
| AppInvariants.OpenStep | App.tsx:111-153 | an admissible trade keeps the invariant and debits exactly the amount; the position is appended at the current price, size amount × leverage, no profit; tokens as the open quests say; nothing else changes |
| AppInvariants.HealthyCredit | App.tsx:160 | a healthy position returns more than a fifth of its collateral |
| AppInvariants.ClosedPositionCredit | App.tsx:157-160 | the position a close finds is healthy and returns a positive amount |
| AppInvariants.CloseKeepsInv | App.tsx:155-192 | closing keeps the invariant |
| AppInvariants.CloseStep | App.tsx:155-192 | an unknown id changes nothing; otherwise the credit is collateral + pnl (> 0); the positions are exactly the others (RemoveById), none with the id; a profitable LONG appends its tree at its place with scale TreeScale(pnlPercent), anything else leaves the trees alone; sustainable_trader completes iff pnlPercent ≥ 5, and tokens grow by 200 exactly when it just did |
| Session.EventInRange | components/TradePanel.tsx:136-138 | a trade's leverage is 1 to 5, as the panel's slider offers, and a tick's draws lie in [-1, 1]; Session.Apply takes it as its precondition, and AppInvariants.OpenStep requires the same leverage bounds |
| Session.TradeEnabled | components/TradePanel.tsx:154 | the submit button is enabled only when 0 < amount <= balance; Session.Apply turns a refused trade into a no-op, and AppInvariants.OpenStep requires the same bounds on the amount |
| Session.Apply | App.tsx:36-192 | any event keeps the invariant, quests only advance and tokens never fall; ticks keep the balance |
| Session.Run | App.tsx:13-192 | every state reached by a sequence of events keeps the invariant, with quests advanced and tokens not fallen |
| Session.ReachableStatesKeepInv | App.tsx:15-192 | from the initial state the balance never goes negative |
| Session.Game.constructor | App.tsx:15-28 | the slot starts at the initial snapshot |
| Session.Game.Tick | App.tsx:34-104 | the slot becomes the ticked snapshot with the balance unchanged |
| Session.Game.HandleTrade | App.tsx:111-153 | the slot becomes the opened snapshot, the position entered at the price in the last rendered snapshot (App.tsx:112), with the balance debited by the amount |
| Session.Game.ClosePosition | App.tsx:155-192 | the slot becomes the closed snapshot; the balance never falls |
| Scenarios.FirstGrowthCreditedOnce | App.tsx:135-143 | two LONGs from the start: 50 tokens after the first, 150 after the second; balances 9000 then 8500 |
| Scenarios.DiversifyOnSecondPosition | App.tsx:136-143 | two SHORTs from the start: no tokens after the first, 100 after the second |
| Scenarios.ProfitableLongMarked | App.tsx:56-64 | a 1x LONG of 1000 from 3000 is marked at +100 (+10%) when ETH ticks to 3300 |
| Scenarios.ProfitableLongClosed | App.tsx:157-189 | closing it credits 1100 (9000 → 10100), plants a tree of scale 1.1, completes sustainable_trader |
| Scenarios.ProfitableLongPlantsTree | App.tsx:36-192 | the tick followed by the close, end to end |
| Scenarios.LeveragedShortLiquidated | App.tsx:56-66 | a 5x SHORT from 60000 survives at 66000 (−50%) and is liquidated at 72000 without any credit; closing it afterwards does nothing |

## Left out

- Rendering: the biome, charts, quest board, tutorial, number formatting and
  `TUTORIAL_STEPS`. They show the state and do not change it.
- The interval timer and the React runtime are left out.
  - Each tick, trade or close is one atomic replacement of the snapshot.
  - Interleavings of queued updates are not modelled.
  - `handleTrade` reads the entry price from the snapshot last rendered
    (App.tsx:112), and the panel's guard reads the balance last rendered
    (components/TradePanel.tsx:154). The model takes both from the current
    snapshot.
- `Math.random()` and `Date.now()` become parameters.
  - A tick takes a single clock reading. The original calls the clock once
    per asset (App.tsx:48).
  - App.InitialState takes a single clock reading for all three initial
    histories. The original calls the clock once per asset (App.tsx:24-26).
- Session.Game.HandleTrade: position ids are parameters, and nothing makes
  them distinct.
  - With duplicate ids, a close credits the first position with that id and
    removes every one of them, as the original does.
- GameLogic.GenerateNextPrice: the draw is allowed in [−1, 1]. The original
  draws from [−1, 1).
- Floating point: every number is an exact real.
  - No IEEE rounding, overflow or NaN is modelled.
  - The one exception: a ratio over zero in the exposure test is handled as
    IEEE-754 evaluates it.
- GameLogic.CalculatePnL: an entry price of 0 is excluded by its
  precondition. The original would divide by zero. Every position the game
  opens has a positive entry price.
- Leverage is an integer. The panel's slider offers 1 to 5 in steps of 1.
- `TradeParams` (types.ts) is not used by the core and is not modelled.
