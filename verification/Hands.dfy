/**
 The value of a hand: the hard total, the value with at most one ace raised to eleven,
 and the four questions the rules ask about a hand.
 */
module Hands {
  import opened Cards

  type Hand = seq<StoredCard>

  /** The points of a rank with every ace counted as one. */
  function HardPoints(r: Rank): (p: nat)
    ensures 1 <= p <= 10
  {
    match r
    case Ace => 1
    case Two => 2
    case Three => 3
    case Four => 4
    case Five => 5
    case Six => 6
    case Seven => 7
    case Eight => 8
    case Nine => 9
    case _ => 10
  }

  function Hard(hand: Hand): (total: nat)
  {
    if hand == [] then 0 else Hard(hand[..|hand| - 1]) + HardPoints(hand[|hand| - 1].rank)
  }

  function Aces(hand: Hand): (n: nat)
  {
    if hand == [] then 0
    else Aces(hand[..|hand| - 1]) + if hand[|hand| - 1].rank == Ace then 1 else 0
  }

  function Value(hand: Hand): int {
    if Aces(hand) > 0 && Hard(hand) + 10 <= 21 then Hard(hand) + 10 else Hard(hand)
  }

  predicate IsBlackjack(hand: Hand) { |hand| == 2 && Value(hand) == 21 }

  predicate IsBust(hand: Hand) { Value(hand) > 21 }

  predicate IsSoft(hand: Hand) { Aces(hand) > 0 && Value(hand) > Hard(hand) }

  /** The running total of the evaluator. */
  method HardValue(hand: Hand) returns (total: int)
    ensures total == Hard(hand)
  {
    total := 0;
    for i := 0 to |hand|
      invariant total == Hard(hand[..i])
    {
      assert hand[..i + 1][..i] == hand[..i];
      total := total + HardPoints(hand[i].rank);
    }
    assert hand[..|hand|] == hand;
  }

  lemma DrawAdds(hand: Hand, c: StoredCard)
    ensures Hard(hand + [c]) == Hard(hand) + HardPoints(c.rank)
    ensures Aces(hand + [c]) == Aces(hand) + if c.rank == Ace then 1 else 0
  {
    assert (hand + [c])[..|hand|] == hand;
  }

  /** Every card adds at least one and at most ten, so the hard total counts cards. */
  lemma {:induction false} HardBounds(hand: Hand)
    ensures |hand| <= Hard(hand) <= 10 * |hand|
    ensures Aces(hand) <= |hand|
  {
    if hand != [] {
      HardBounds(hand[..|hand| - 1]);
    }
  }

  /** All totals a hand can be counted as, each ace being one or eleven. */
  ghost function Totals(hand: Hand): set<int>
  {
    if hand == [] then {0}
    else
      var rest := Totals(hand[..|hand| - 1]);
      var c := hand[|hand| - 1];
      var low := set t | t in rest :: t + HardPoints(c.rank);
      if c.rank == Ace then low + (set t | t in rest :: t + 11) else low
  }

  /** A total with some of the aces counted as eleven instead of one. */
  predicate RaisedBy(hard: int, aces: nat, t: int) { hard <= t <= hard + 10 * aces && (t - hard) % 10 == 0 }

  lemma OneMoreAce(hard: int, aces: nat, t: int)
    ensures RaisedBy(hard + 1, aces + 1, t) <==> RaisedBy(hard, aces, t - 1) || RaisedBy(hard, aces, t - 11)
  {
    var d := t - hard - 1;
    TenLess(d);
    assert t - (hard + 1) == (t - 1) - hard == d && (t - 11) - hard == d - 10;
  }

  lemma TenLess(d: int)
    ensures (d - 10) % 10 == d % 10 && (0 < d < 10 ==> d % 10 != 0)
  {
  }

  lemma TotalsNext(hand: Hand, t: int)
    requires hand != []
    ensures var init, c := hand[..|hand| - 1], hand[|hand| - 1];
            t in Totals(hand) <==>
              t - HardPoints(c.rank) in Totals(init) || (c.rank == Ace && t - 11 in Totals(init))
  {
    assert t == (t - 11) + 11;
  }

  /** The totals are the hard total raised by ten for each ace that counts eleven. */
  lemma {:induction false} TotalsAreTensAboveHard(hand: Hand, t: int)
    ensures t in Totals(hand) <==> RaisedBy(Hard(hand), Aces(hand), t)
  {
    if hand != [] {
      var init, c := hand[..|hand| - 1], hand[|hand| - 1];
      TotalsNext(hand, t);
      TotalsAreTensAboveHard(init, t - HardPoints(c.rank));
      TotalsAreTensAboveHard(init, t - 11);
      OneMoreAce(Hard(init), Aces(init), t);
    }
  }

  /** The value is the best way to count the hand: the highest total up to 21, or else the least. */
  lemma ValueIsOptimal(hand: Hand)
    ensures Value(hand) in Totals(hand)
    ensures !IsBust(hand) ==> forall t :: t in Totals(hand) && t <= 21 ==> t <= Value(hand)
    ensures IsBust(hand) ==> forall t :: t in Totals(hand) ==> Value(hand) <= t
  {
    TotalsAreTensAboveHard(hand, Value(hand));
    AcesBoundHard(hand);
    forall t | t in Totals(hand)
      ensures Hard(hand) <= t && (t != Hard(hand) ==> Aces(hand) > 0 && t >= Hard(hand) + 10)
      ensures t <= 21 ==> t <= Hard(hand) + 10
    {
      TotalsAreTensAboveHard(hand, t);
    }
  }

  lemma {:induction false} AcesBoundHard(hand: Hand)
    ensures Aces(hand) <= Hard(hand)
  {
    if hand != [] {
      AcesBoundHard(hand[..|hand| - 1]);
    }
  }

  /** The value while aces are first counted as eleven and then lowered one by one. */
  function Lowered(total: int, aces: nat): int
    decreases aces
  {
    if total > 21 && aces > 0 then Lowered(total - 10, aces - 1) else total
  }

  /** Starting with all aces high and lowering them gives the value of the hand. */
  lemma LoweringAllAcesGivesValue(hand: Hand)
    ensures Lowered(Hard(hand) + 10 * Aces(hand), Aces(hand)) == Value(hand)
  {
    AcesBoundHard(hand);
    LoweredFrom(Hard(hand), Aces(hand));
  }

  lemma {:induction false} LoweredFrom(hard: nat, aces: nat)
    requires aces <= hard
    ensures Lowered(hard + 10 * aces, aces) == if aces > 0 && hard + 10 <= 21 then hard + 10 else hard
    decreases aces
  {
    if hard + 10 * aces > 21 && aces > 0 {
      LoweredFrom(hard, aces - 1);
    }
  }

  /** A hand is soft exactly when one ace counts eleven in its value. */
  lemma SoftMeansOneHighAce(hand: Hand)
    ensures IsSoft(hand) <==> Value(hand) == Hard(hand) + 10
  {
  }
}
