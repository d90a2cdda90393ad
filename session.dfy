/** A running game: the single state slot that every transition replaces
    wholesale, driven by ticks and by the two user actions. */
module Session {
  import opened Types
  import opened Quests
  import opened App
  import opened AppInvariants

  /** What can happen to the game: a tick with its draws and clock reading, a
      trade submitted from the trade panel, or a close request. */
  datatype Event =
    | TickEvent(draws: ByAsset<real>, now: int)
    | TradeEvent(symbol: AssetSymbol, positionType: PositionType, amount: real, leverage: int,
                 id: string, now: int, coordinates: Coordinates)
    | CloseEvent(id: string, now: int)

  /** Draws come from [-1, 1] and the leverage slider offers 1 to 5. */
  predicate EventInRange(e: Event) {
    match e
    case TickEvent(draws, _) => DrawsInRange(draws)
    case TradeEvent(_, _, _, leverage, _, _, _) => 1 <= leverage <= 5
    case CloseEvent(_, _) => true
  }

  /** The trade panel's submit button is enabled only for 0 < amount <= balance. */
  predicate TradeEnabled(s: GameState, amount: real) {
    0.0 < amount && amount <= s.balance
  }

  /** The effect of one event. A trade the panel would not submit has none;
      an accepted trade enters at the live price of the last rendered
      snapshot (App.tsx:112), which here is the current one.
      Every event keeps the invariant, only trades and closes move the
      balance, quests only advance and ECO tokens never decrease. */
  function Apply(s: GameState, e: Event): (r: GameState)
    requires Inv(s) && EventInRange(e)
    ensures Inv(r)
    ensures e.TickEvent? ==> r.balance == s.balance
    ensures Advances(s.quests, r.quests)
    ensures r.ecoTokens >= s.ecoTokens
  {
    match e
    case TickEvent(draws, now) =>
      TickStep(s, draws, now);
      Ticked(s, draws, now)
    case TradeEvent(symbol, positionType, amount, leverage, id, now, coordinates) =>
      if TradeEnabled(s, amount) then
        var p := NewPosition(id, symbol, positionType, s.prices.Get(symbol), amount, leverage, now, coordinates);
        OpenStep(s, symbol, positionType, s.prices.Get(symbol), amount, leverage, id, now, coordinates);
        Opened(s, positionType, amount, p)
      else s
    case CloseEvent(id, now) =>
      CloseKeepsInv(s, id, now);
      CloseStep(s, id, now);
      Closed(s, id, now)
  }

  lemma AdvancesTransitive(a: seq<Quest>, b: seq<Quest>, c: seq<Quest>)
    requires Advances(a, b) && Advances(b, c)
    ensures Advances(a, c)
  {
  }

  /** The game after a sequence of events. From a snapshot that satisfies the
      invariant, every reachable snapshot satisfies it too: the balance stays
      non-negative, every open position is above -80%, the score is in
      [0, 100]; and along the way no quest is un-completed or loses progress
      and the ECO tokens never decrease. */
  function Run(s: GameState, events: seq<Event>): (r: GameState)
    requires Inv(s) && forall i :: 0 <= i < |events| ==> EventInRange(events[i])
    ensures Inv(r)
    ensures Advances(s.quests, r.quests)
    ensures r.ecoTokens >= s.ecoTokens
    decreases |events|
  {
    if |events| == 0 then s
    else
      var s' := Apply(s, events[0]);
      var r := Run(s', events[1..]);
      AdvancesTransitive(s.quests, s'.quests, r.quests);
      r
  }

  /** Every snapshot reachable from the start of a game satisfies the
      invariant; in particular the balance is never negative. */
  lemma ReachableStatesKeepInv(now: int, events: seq<Event>)
    requires forall i :: 0 <= i < |events| ==> EventInRange(events[i])
    ensures Inv(Run(InitialState(now), events))
    ensures Run(InitialState(now), events).balance >= 0.0
  {
  }

  /** The game component's state slot. Each method replaces the snapshot with
      the result of the corresponding transition. */
  class Game {
    var gameState: GameState

    ghost predicate Valid()
      reads this
    {
      Inv(gameState)
    }

    constructor (now: int)
      ensures Valid() && gameState == InitialState(now)
    {
      gameState := InitialState(now);
    }

    /** One timer tick. */
    method Tick(draws: ByAsset<real>, now: int)
      requires Valid() && DrawsInRange(draws)
      modifies this
      ensures Valid()
      ensures gameState == Ticked(old(gameState), draws, now)
      ensures gameState.balance == old(gameState.balance)
    {
      TickStep(gameState, draws, now);
      gameState := TickUpdate(gameState, draws, now);
    }

    /** A trade submitted from the trade panel, which only allows
        0 < amount <= balance and leverage 1 to 5. The position enters at the
        price in the last rendered snapshot (App.tsx:112) and is placed by
        the draws `ux`, `uz` in [0, 1); the snapshot is then replaced. */
    method HandleTrade(symbol: AssetSymbol, positionType: PositionType, amount: real, leverage: int,
                       id: string, ux: real, uz: real, now: int)
      requires Valid()
      requires 0.0 < amount <= gameState.balance && 1 <= leverage <= 5
      requires 0.0 <= ux < 1.0 && 0.0 <= uz < 1.0
      modifies this
      ensures Valid()
      ensures gameState
           == Opened(old(gameState), positionType, amount,
                     NewPosition(id, symbol, positionType, old(gameState).prices.Get(symbol), amount, leverage, now,
                                 Coordinates(Coordinate(ux), Coordinate(uz))))
      ensures gameState.balance == old(gameState.balance) - amount
    {
      var currentPrice := gameState.prices.Get(symbol);
      var coordinates := Coordinates(Coordinate(ux), Coordinate(uz));
      var newPosition := NewPosition(id, symbol, positionType, currentPrice, amount, leverage, now, coordinates);
      OpenStep(gameState, symbol, positionType, currentPrice, amount, leverage, id, now, coordinates);
      gameState := Opened(gameState, positionType, amount, newPosition);
    }

    /** A close request for the position with the given id. */
    method ClosePosition(id: string, now: int)
      requires Valid()
      modifies this
      ensures Valid()
      ensures gameState == Closed(old(gameState), id, now)
      ensures gameState.balance >= old(gameState.balance)
    {
      CloseKeepsInv(gameState, id, now);
      CloseStep(gameState, id, now);
      gameState := Closed(gameState, id, now);
    }
  }
}
