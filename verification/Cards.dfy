/** Playing cards and the ordered 52-card deck that every round starts from. */
module Cards {

  datatype Suit = Spades | Hearts | Diamonds | Clubs

  datatype Rank =
    | Ace | Two | Three | Four | Five | Six | Seven
    | Eight | Nine | Ten | Jack | Queen | King

  datatype StoredCard = StoredCard(rank: Rank, suit: Suit)

  const DECK_SIZE := 52

  function RankAt(i: nat): Rank
    requires i < 13
  {
    if i == 0 then Ace else if i == 1 then Two else if i == 2 then Three
    else if i == 3 then Four else if i == 4 then Five else if i == 5 then Six
    else if i == 6 then Seven else if i == 7 then Eight else if i == 8 then Nine
    else if i == 9 then Ten else if i == 10 then Jack else if i == 11 then Queen
    else King
  }

  function SuitAt(i: nat): Suit
    requires i < 4
  {
    if i == 0 then Spades else if i == 1 then Hearts else if i == 2 then Diamonds else Clubs
  }

  /** The place a card has in the ordered deck: suit by suit, ace first. */
  function Position(c: StoredCard): (i: nat)
    ensures i < DECK_SIZE
  {
    var r := match c.rank
      case Ace => 0 case Two => 1 case Three => 2 case Four => 3 case Five => 4
      case Six => 5 case Seven => 6 case Eight => 7 case Nine => 8 case Ten => 9
      case Jack => 10 case Queen => 11 case King => 12;
    var s := match c.suit
      case Spades => 0 case Hearts => 1 case Diamonds => 2 case Clubs => 3;
    13 * s + r
  }

  function OrderedDeck(): (deck: seq<StoredCard>)
    ensures |deck| == DECK_SIZE
  {
    seq(DECK_SIZE, i requires 0 <= i < DECK_SIZE => StoredCard(RankAt(i % 13), SuitAt(i / 13)))
  }

  /** Every card lies at exactly one place, its Position. */
  lemma OrderedDeckHoldsEveryCardOnce(c: StoredCard, i: nat)
    requires i < DECK_SIZE
    ensures OrderedDeck()[i] == c <==> i == Position(c)
  {
    assert 0 <= i / 13 < 4 && 0 <= i % 13 < 13 && i == 13 * (i / 13) + i % 13;
  }

  ghost predicate Distinct<T(!new)>(s: seq<T>) {
    forall i, j :: 0 <= i < j < |s| ==> s[i] != s[j]
  }

  lemma OrderedDeckDistinct()
    ensures Distinct(OrderedDeck())
  {
    var d := OrderedDeck();
    forall i, j | 0 <= i < j < |d| ensures d[i] != d[j] {
      OrderedDeckHoldsEveryCardOnce(d[i], i);
      OrderedDeckHoldsEveryCardOnce(d[i], j);
    }
  }

  /** The two nested loops that build the deck before it is shuffled. */
  method BuildDeck() returns (deck: seq<StoredCard>)
    ensures deck == OrderedDeck()
  {
    deck := [];
    for s := 0 to 4
      invariant |deck| == 13 * s
      invariant deck == OrderedDeck()[..13 * s]
    {
      for r := 0 to 13
        invariant |deck| == 13 * s + r
        invariant deck == OrderedDeck()[..13 * s + r]
      {
        var i := 13 * s + r;
        assert i / 13 == s && i % 13 == r;
        deck := deck + [StoredCard(RankAt(r), SuitAt(s))];
      }
    }
  }
}
