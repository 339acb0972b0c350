/** The dealer's rule, the order of outcomes and the playing hint. */
module Policies {
  import opened Cards
  import opened Hands

  // ---- the dealer ----

  datatype DealerAction = DealerHit | DealerStand

  datatype DealerMove = DealerMove(action: DealerAction, terminal: bool)

  function NextDealerAction(dealer: Hand): DealerMove {
    if IsBust(dealer) then DealerMove(DealerStand, true)
    else
      var v := Value(dealer);
      if v == 17 && IsSoft(dealer) then DealerMove(DealerStand, false)
      else if v >= 17 then DealerMove(DealerStand, false)
      else DealerMove(DealerHit, false)
  }

  predicate DealerDraws(dealer: Hand) {
    var m := NextDealerAction(dealer);
    !(m.terminal || m.action == DealerStand)
  }

  /** The dealer draws exactly below 17, so it stands on every 17, soft or hard. */
  lemma DealerDrawsBelow17(dealer: Hand)
    ensures DealerDraws(dealer) <==> Value(dealer) < 17
    ensures DealerDraws(dealer) ==> Hard(dealer) <= 16
  {
  }

  lemma OneDrawStaysUnder27(dealer: Hand, c: StoredCard)
    requires Value(dealer) < 17
    ensures Value(dealer + [c]) <= 26
  {
    DrawAdds(dealer, c);
  }

  /** The dealer's hand after drawing from the cards for as long as its rule says so. */
  function DealerFinal(dealer: Hand, cards: seq<StoredCard>): Hand
    decreases |cards|
  {
    if DealerDraws(dealer) && cards != [] then DealerFinal(dealer + [cards[0]], cards[1..]) else dealer
  }

  /**
   Although a draw can lower the value, the hard total only grows: given 17 - hard cards the
   dealer stops, with a value from 17 to 26 and its first cards unchanged.
   */
  lemma {:induction false} DealerStops(dealer: Hand, cards: seq<StoredCard>)
    requires Value(dealer) <= 26 && Hard(dealer) + |cards| >= 17
    ensures 17 <= Value(DealerFinal(dealer, cards)) <= 26
    ensures dealer <= DealerFinal(dealer, cards)
    ensures |DealerFinal(dealer, cards)| <= |dealer| + if Hard(dealer) < 17 then 17 - Hard(dealer) else 0
    decreases |cards|
  {
    DealerDrawsBelow17(dealer);
    if DealerDraws(dealer) {
      DrawAdds(dealer, cards[0]);
      OneDrawStaysUnder27(dealer, cards[0]);
      DealerStops(dealer + [cards[0]], cards[1..]);
    }
  }

  // ---- the outcome ----

  datatype Outcome = Win | Lose | Push | BustOutcome

  function ResolveRoundOutcome(player: Hand, dealer: Hand): Outcome {
    if IsBust(player) then Lose
    else if IsBust(dealer) then Win
    else if IsBlackjack(player) && !IsBlackjack(dealer) then Win
    else if IsBlackjack(dealer) && !IsBlackjack(player) then Lose
    else if IsBlackjack(player) && IsBlackjack(dealer) then Push
    else if Value(player) > Value(dealer) then Win
    else if Value(player) < Value(dealer) then Lose
    else Push
  }

  /** One number that orders hands: a natural ranks above every other 21, a bust below all. */
  function Strength(hand: Hand): int {
    if IsBust(hand) then -1 else if IsBlackjack(hand) then 22 else Value(hand)
  }

  lemma StrengthOfHands(hand: Hand)
    ensures IsBust(hand) <==> Strength(hand) < 0
    ensures IsBlackjack(hand) <==> Strength(hand) == 22
    ensures !IsBust(hand) && !IsBlackjack(hand) ==> Strength(hand) == Value(hand) <= 21
  {
    HardBounds(hand);
  }

  /** The outcome compares strengths; only a bust player breaks the symmetry. */
  lemma OutcomeComparesStrength(player: Hand, dealer: Hand)
    ensures ResolveRoundOutcome(player, dealer) ==
            if IsBust(player) || Strength(player) < Strength(dealer) then Lose
            else if Strength(player) > Strength(dealer) then Win
            else Push
  {
    StrengthOfHands(player);
    StrengthOfHands(dealer);
  }

  /** Swapping the hands swaps WIN and LOSE, exactly unless both are bust. */
  lemma SwappingHandsSwapsOutcome(a: Hand, b: Hand)
    ensures ((ResolveRoundOutcome(a, b) == Win <==> ResolveRoundOutcome(b, a) == Lose)
             && (ResolveRoundOutcome(a, b) == Lose <==> ResolveRoundOutcome(b, a) == Win))
            <==> !(IsBust(a) && IsBust(b))
  {
    OutcomeComparesStrength(a, b);
    OutcomeComparesStrength(b, a);
    StrengthOfHands(a);
    StrengthOfHands(b);
  }

  lemma NaturalNeverLoses(player: Hand, dealer: Hand)
    requires IsBlackjack(player)
    ensures ResolveRoundOutcome(player, dealer) == if IsBlackjack(dealer) then Push else Win
  {
    OutcomeComparesStrength(player, dealer);
    StrengthOfHands(dealer);
  }

  // ---- the hint ----

  function DealerUpValue(c: StoredCard): int { if c.rank == Ace then 11 else HardPoints(c.rank) }

  predicate SoftHitOrStand(player: Hand, dealerValue: int) {
    var v := Value(player);
    if v >= 19 then false
    else if v == 18 then dealerValue >= 9 || dealerValue == 11
    else true
  }

  predicate HardHitOrStand(player: Hand, dealerValue: int) {
    var v := Value(player);
    if v >= 17 then false
    else if v == 16 || v == 15 || v == 14 || v == 13 then !(dealerValue >= 2 && dealerValue <= 6)
    else if v == 12 then !(dealerValue >= 4 && dealerValue <= 6)
    else if v == 11 then true
    else if v == 10 then dealerValue >= 10 || dealerValue == 11
    else true
  }

  predicate RecommendHitOrStand(player: Hand, dealerUp: StoredCard) {
    if |player| == 0 || IsBust(player) then false
    else if IsSoft(player) then SoftHitOrStand(player, DealerUpValue(dealerUp))
    else HardHitOrStand(player, DealerUpValue(dealerUp))
  }

  /** The chart: one row for each total, one letter for each card of the dealer from 2 to 9, ten and ace. */
  function ChartRow(soft: bool, total: int): (row: string)
    ensures |row| == 10
  {
    if soft then
      if total <= 17 then "HHHHHHHHHH" else if total == 18 then "SSSSSSSHHH" else "SSSSSSSSSS"
    else if total <= 9 then "HHHHHHHHHH"
    else if total == 10 then "SSSSSSSSHH"
    else if total == 11 then "HHHHHHHHHH"
    else if total == 12 then "HHSSSHHHHH"
    else if total <= 16 then "SSSSSHHHHH"
    else "SSSSSSSSSS"
  }

  function ChartColumn(r: Rank): (i: nat)
    ensures i < 10
  {
    match r
    case Two => 0 case Three => 1 case Four => 2 case Five => 3 case Six => 4
    case Seven => 5 case Eight => 6 case Nine => 7
    case Ace => 9
    case _ => 8
  }

  /** The hint is the chart's entry, for every hand that is not bust. */
  lemma HintIsChart(player: Hand, dealerUp: StoredCard)
    requires |player| > 0
    ensures RecommendHitOrStand(player, dealerUp)
            <==> !IsBust(player) && ChartRow(IsSoft(player), Value(player))[ChartColumn(dealerUp.rank)] == 'H'
  {
    if IsSoft(player) {
      SoftIsChart(player, dealerUp);
    } else {
      HardIsChart(player, dealerUp);
    }
  }

  lemma SoftIsChart(player: Hand, dealerUp: StoredCard)
    ensures SoftHitOrStand(player, DealerUpValue(dealerUp)) <==> ChartRow(true, Value(player))[ChartColumn(dealerUp.rank)] == 'H'
  {
  }

  lemma HardIsChart(player: Hand, dealerUp: StoredCard)
    ensures HardHitOrStand(player, DealerUpValue(dealerUp)) <==> ChartRow(false, Value(player))[ChartColumn(dealerUp.rank)] == 'H'
  {
  }

  /** A recommended hit is never a gamble on a hard 17 or a soft 19, so it cannot repeat for ever. */
  lemma RecommendedHitIsLow(player: Hand, dealerUp: StoredCard)
    requires RecommendHitOrStand(player, dealerUp)
    ensures Hard(player) <= 16 && Value(player) <= 18
  {
    SoftMeansOneHighAce(player);
  }

  /** A stronger card of the dealer never turns a hit into a stand, exactly unless the hand is a hard 12. */
  lemma HintFollowsDealer(player: Hand)
    requires |player| > 0 && !IsBust(player)
    ensures (forall u, v :: DealerUpValue(u) <= DealerUpValue(v) && RecommendHitOrStand(player, u)
               ==> RecommendHitOrStand(player, v))
            <==> IsSoft(player) || Value(player) != 12
  {
    var three, four := StoredCard(Three, Spades), StoredCard(Four, Spades);
    assert DealerUpValue(three) <= DealerUpValue(four);
    if Value(player) == 12 && !IsSoft(player) {
      assert RecommendHitOrStand(player, three) && !RecommendHitOrStand(player, four);
    }
  }

  /** Where a hard hand is told to hit, every lower one is too, exactly unless it is a 10 against 2 to 9. */
  lemma HintFollowsHand(low: Hand, high: Hand, dealerUp: StoredCard)
    requires |low| > 0 && !IsSoft(low) && !IsSoft(high) && Value(low) <= Value(high)
    requires RecommendHitOrStand(high, dealerUp)
    ensures RecommendHitOrStand(low, dealerUp) <==> !(Value(low) == 10 && DealerUpValue(dealerUp) <= 9)
  {
  }
}
