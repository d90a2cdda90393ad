/** The quest engine: how each transition rewrites the quest list, and how the
    ECO tokens earned in a step are found by comparing the new list with the
    previous one. */
module Quests {
  import opened Types
  import opened Constants

  // ---------------------------------------------------------------------
  // The catalogue invariant

  /** `q` is the catalogue entry `c` in everything but its progress and
      completion. */
  predicate SameEntry(q: Quest, c: Quest) {
    && q.id == c.id && q.title == c.title && q.description == c.description
    && q.reward == c.reward && q.maxProgress == c.maxProgress
  }

  /** The quests the game can hold: the catalogue, in catalogue order, each
      with progress between 0 and its maximum, and completed exactly when the
      progress has reached the maximum. */
  predicate WellFormed(qs: seq<Quest>) {
    && |qs| == |InitialQuests()|
    && forall i :: 0 <= i < |qs| ==>
         && SameEntry(qs[i], InitialQuests()[i])
         && 0 <= qs[i].progress <= qs[i].maxProgress
         && (qs[i].completed <==> qs[i].progress == qs[i].maxProgress)
  }

  /** From `prev` to `next` no quest is completed that was not, or lost
      progress, and nothing but progress and completion changed. */
  predicate Advances(prev: seq<Quest>, next: seq<Quest>) {
    && |prev| == |next|
    && forall i :: 0 <= i < |prev| ==>
         && SameEntry(next[i], prev[i])
         && (prev[i].completed ==> next[i].completed)
         && prev[i].progress <= next[i].progress
  }

  predicate DistinctIds(qs: seq<Quest>) {
    forall i, j :: 0 <= i < j < |qs| ==> qs[i].id != qs[j].id
  }

  lemma InitialQuestsWellFormed()
    ensures WellFormed(InitialQuests())
  {
  }

  // ---------------------------------------------------------------------
  // Rewriting the quest list

  /** The passive update a tick applies to one quest: a running risk_manager
      quest moves one step, up to its maximum, while some open position has
      leverage 5 or more. */
  function TickQuest(q: Quest, highLeverage: bool): Quest {
    if q.completed then q
    else if q.id == RiskManagerId && highLeverage then
      q.(progress := if q.progress + 1 < q.maxProgress then q.progress + 1 else q.maxProgress)
    else q
  }

  /** A quest whose progress has reached its maximum becomes completed. */
  function CompleteIfReached(q: Quest): Quest {
    if !q.completed && q.progress >= q.maxProgress then q.(completed := true) else q
  }

  function TickQuests(qs: seq<Quest>, highLeverage: bool): (r: seq<Quest>)
    ensures |r| == |qs|
  {
    var stepped := seq(|qs|, i requires 0 <= i < |qs| => TickQuest(qs[i], highLeverage));
    seq(|stepped|, i requires 0 <= i < |stepped| => CompleteIfReached(stepped[i]))
  }

  /** Opening a LONG completes first_growth; opening a position while
      `openCount` others are open completes diversify once that makes two. */
  function OpenQuest(q: Quest, positionType: PositionType, openCount: int): Quest {
    if q.id == FirstGrowthId && positionType == LONG then q.(progress := 1, completed := true)
    else if q.id == DiversifyId && openCount + 1 >= 2 then q.(progress := 2, completed := true)
    else q
  }

  function OpenQuests(qs: seq<Quest>, positionType: PositionType, openCount: int): (r: seq<Quest>)
    ensures |r| == |qs|
  {
    seq(|qs|, i requires 0 <= i < |qs| => OpenQuest(qs[i], positionType, openCount))
  }

  /** Closing a position that made at least 5% completes sustainable_trader. */
  function CloseQuest(q: Quest, pnlPercent: real): Quest {
    if q.id == SustainableTraderId && pnlPercent >= 5.0 then q.(progress := 1, completed := true) else q
  }

  function CloseQuests(qs: seq<Quest>, pnlPercent: real): (r: seq<Quest>)
    ensures |r| == |qs|
  {
    seq(|qs|, i requires 0 <= i < |qs| => CloseQuest(qs[i], pnlPercent))
  }

  // ---------------------------------------------------------------------
  // Crediting rewards

  /** The first quest of `qs` with the given id, if any. */
  function FindQuest(qs: seq<Quest>, id: string): (r: Option<Quest>)
    ensures r.Some? ==> r.value in qs && r.value.id == id
    ensures r.Some? ==> exists i :: 0 <= i < |qs| && qs[i] == r.value && forall j :: 0 <= j < i ==> qs[j].id != id
    ensures r.None? ==> forall i :: 0 <= i < |qs| ==> qs[i].id != id
  {
    if |qs| == 0 then None
    else if qs[0].id == id then Some(qs[0])
    else FindQuest(qs[1..], id)
  }

  /** Whether the quest with this id was already completed in `prev`. */
  predicate WasCompleted(prev: seq<Quest>, id: string) {
    var found := FindQuest(prev, id);
    found.Some? && found.value.completed
  }

  /** The quests of `next` that are completed but whose namesake in `prev` was
      not (or that `prev` does not have), in order. NewlyCompletedKeepsAll
      shows that none of them is missed. */
  function NewlyCompleted(prev: seq<Quest>, next: seq<Quest>): (r: seq<Quest>)
    ensures forall q :: q in r ==> q in next && q.completed && !WasCompleted(prev, q.id)
  {
    if |next| == 0 then []
    else
      var rest := NewlyCompleted(prev, next[1..]);
      if next[0].completed && !WasCompleted(prev, next[0].id) then [next[0]] + rest else rest
  }

  /** The converse of NewlyCompleted's contract: every completed quest of
      `next` whose namesake in `prev` was not completed is kept. */
  lemma {:induction false} NewlyCompletedKeepsAll(prev: seq<Quest>, next: seq<Quest>)
    ensures forall i :: 0 <= i < |next| && next[i].completed && !WasCompleted(prev, next[i].id) ==>
      next[i] in NewlyCompleted(prev, next)
  {
    if |next| > 0 {
      NewlyCompletedKeepsAll(prev, next[1..]);
      assert forall i :: 1 <= i < |next| ==> next[i] == next[1..][i - 1];
    }
  }

  function SumRewards(qs: seq<Quest>): int {
    if |qs| == 0 then 0 else qs[0].reward + SumRewards(qs[1..])
  }

  /** The ECO tokens credited for going from `prev` to `next`. */
  function Reward(prev: seq<Quest>, next: seq<Quest>): int {
    SumRewards(NewlyCompleted(prev, next))
  }

  /** The reward one quest earns in a step: its reward if it flipped from not
      completed to completed, else nothing. */
  function FlipReward(before: Quest, after: Quest): int {
    if after.completed && !before.completed then after.reward else 0
  }

  /** Position-by-position reference for Reward: the rewards of the quests
      that flipped from not completed to completed. */
  function FlippedReward(prev: seq<Quest>, next: seq<Quest>): int
    requires |prev| == |next|
  {
    if |prev| == 0 then 0 else FlipReward(prev[0], next[0]) + FlippedReward(prev[1..], next[1..])
  }

  /** With distinct ids, looking a quest up by its id finds that quest. */
  lemma {:induction false} FindQuestDistinct(qs: seq<Quest>, i: int)
    requires DistinctIds(qs) && 0 <= i < |qs|
    ensures FindQuest(qs, qs[i].id) == Some(qs[i])
  {
    if i > 0 {
      assert qs[0].id != qs[i].id;
      assert DistinctIds(qs[1..]) by {
        forall a, b | 0 <= a < b < |qs[1..]| ensures qs[1..][a].id != qs[1..][b].id {
          assert qs[1..][a] == qs[a + 1] && qs[1..][b] == qs[b + 1];
        }
      }
      FindQuestDistinct(qs[1..], i - 1);
    }
  }

  /** Quests whose ids differ from the head of `prev` are judged the same
      against `prev` and against its tail. */
  lemma {:induction false} NewlyCompletedSkipsHead(prev: seq<Quest>, xs: seq<Quest>)
    requires |prev| > 0
    requires forall k :: 0 <= k < |xs| ==> xs[k].id != prev[0].id
    ensures NewlyCompleted(prev, xs) == NewlyCompleted(prev[1..], xs)
  {
    if |xs| > 0 {
      NewlyCompletedSkipsHead(prev, xs[1..]);
    }
  }

  /** When each quest keeps its place and its id and the ids are distinct,
      the reward found by looking quests up by id is exactly the sum of the
      rewards of the quests that flipped to completed. */
  lemma {:induction false} RewardIsFlippedReward(prev: seq<Quest>, next: seq<Quest>)
    requires |prev| == |next| && DistinctIds(prev)
    requires forall i :: 0 <= i < |prev| ==> next[i].id == prev[i].id
    ensures Reward(prev, next) == FlippedReward(prev, next)
  {
    if |prev| > 0 {
      FindQuestDistinct(prev, 0);
      assert WasCompleted(prev, next[0].id) == prev[0].completed;
      NewlyCompletedSkipsHead(prev, next[1..]);
      assert DistinctIds(prev[1..]) by {
        forall a, b | 0 <= a < b < |prev[1..]| ensures prev[1..][a].id != prev[1..][b].id {
          assert prev[1..][a] == prev[a + 1] && prev[1..][b] == prev[b + 1];
        }
      }
      RewardIsFlippedReward(prev[1..], next[1..]);
      var rest := NewlyCompleted(prev, next[1..]);
      if next[0].completed && !prev[0].completed {
        assert NewlyCompleted(prev, next) == [next[0]] + rest;
        assert ([next[0]] + rest)[1..] == rest;
      }
    }
  }

  /** The flipped reward of a four-quest list, written out. */
  lemma FlippedRewardOfFour(prev: seq<Quest>, next: seq<Quest>)
    requires |prev| == |next| == 4
    ensures FlippedReward(prev, next)
         == FlipReward(prev[0], next[0]) + FlipReward(prev[1], next[1])
          + FlipReward(prev[2], next[2]) + FlipReward(prev[3], next[3])
  {
    var p1, n1 := prev[1..], next[1..];
    var p2, n2 := p1[1..], n1[1..];
    var p3, n3 := p2[1..], n2[1..];
    assert FlippedReward(p3[1..], n3[1..]) == 0;
    assert FlippedReward(p3, n3) == FlipReward(prev[3], next[3]);
    assert FlippedReward(p2, n2) == FlipReward(prev[2], next[2]) + FlippedReward(p3, n3);
    assert FlippedReward(p1, n1) == FlipReward(prev[1], next[1]) + FlippedReward(p2, n2);
  }

  /** Credited rewards are the flipped rewards, for any well-formed step. */
  lemma CreditedIsFlipped(prev: seq<Quest>, next: seq<Quest>)
    requires WellFormed(prev) && WellFormed(next)
    ensures Reward(prev, next)
         == FlipReward(prev[FirstGrowth], next[FirstGrowth]) + FlipReward(prev[Diversify], next[Diversify])
          + FlipReward(prev[SustainableTrader], next[SustainableTrader]) + FlipReward(prev[RiskManager], next[RiskManager])
  {
    RewardIsFlippedReward(prev, next);
    FlippedRewardOfFour(prev, next);
  }

  // ---------------------------------------------------------------------
  // The three quest steps

  /** Opening a position: first_growth completes iff the position is a LONG
      (or it already was), diversify completes iff two or more positions are
      then open (or it already was), the other two quests are untouched, and
      the credit is the rewards of whichever of the two just flipped. */
  lemma OpenQuestsStep(qs: seq<Quest>, positionType: PositionType, openCount: int)
    requires WellFormed(qs)
    ensures var next := OpenQuests(qs, positionType, openCount);
      && WellFormed(next) && Advances(qs, next)
      && next[FirstGrowth].completed == (qs[FirstGrowth].completed || positionType == LONG)
      && next[Diversify].completed == (qs[Diversify].completed || openCount + 1 >= 2)
      && next[SustainableTrader] == qs[SustainableTrader] && next[RiskManager] == qs[RiskManager]
      && Reward(qs, next)
         == (if positionType == LONG && !qs[FirstGrowth].completed then 50 else 0)
          + (if openCount + 1 >= 2 && !qs[Diversify].completed then 100 else 0)
  {
    var next := OpenQuests(qs, positionType, openCount);
    assert FirstGrowthId != DiversifyId;
    assert SustainableTraderId != FirstGrowthId && SustainableTraderId != DiversifyId;
    assert RiskManagerId != FirstGrowthId && RiskManagerId != DiversifyId;
    assert WellFormed(next);
    CreditedIsFlipped(qs, next);
  }

  /** Closing a position: sustainable_trader completes iff the position made
      at least 5% (or it already was), nothing else changes, and the credit is
      200 exactly when that quest just flipped. */
  lemma CloseQuestsStep(qs: seq<Quest>, pnlPercent: real)
    requires WellFormed(qs)
    ensures var next := CloseQuests(qs, pnlPercent);
      && WellFormed(next) && Advances(qs, next)
      && next[SustainableTrader].completed == (qs[SustainableTrader].completed || pnlPercent >= 5.0)
      && next[FirstGrowth] == qs[FirstGrowth] && next[Diversify] == qs[Diversify]
      && next[RiskManager] == qs[RiskManager]
      && Reward(qs, next) == (if pnlPercent >= 5.0 && !qs[SustainableTrader].completed then 200 else 0)
  {
    var next := CloseQuests(qs, pnlPercent);
    assert FirstGrowthId != SustainableTraderId && DiversifyId != SustainableTraderId;
    assert RiskManagerId != SustainableTraderId;
    assert WellFormed(next);
    CreditedIsFlipped(qs, next);
  }

  /** A tick: only risk_manager can move; while it is running and a position
      of leverage 5 or more is open it gains one step, it completes on the
      step that reaches 30, and that step alone is credited 300. */
  lemma TickQuestsStep(qs: seq<Quest>, highLeverage: bool)
    requires WellFormed(qs)
    ensures var next := TickQuests(qs, highLeverage);
      && WellFormed(next) && Advances(qs, next)
      && next[FirstGrowth] == qs[FirstGrowth] && next[Diversify] == qs[Diversify]
      && next[SustainableTrader] == qs[SustainableTrader]
      && next[RiskManager].progress
         == (if !qs[RiskManager].completed && highLeverage then qs[RiskManager].progress + 1
             else qs[RiskManager].progress)
      && next[RiskManager].completed
         == (qs[RiskManager].completed || (highLeverage && qs[RiskManager].progress + 1 == 30))
      && Reward(qs, next)
         == (if !qs[RiskManager].completed && highLeverage && qs[RiskManager].progress + 1 == 30
             then 300 else 0)
  {
    var next := TickQuests(qs, highLeverage);
    assert RiskManagerId != FirstGrowthId && RiskManagerId != DiversifyId;
    assert RiskManagerId != SustainableTraderId;
    assert WellFormed(next);
    CreditedIsFlipped(qs, next);
  }
}
