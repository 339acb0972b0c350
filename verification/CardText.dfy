/**
 How cards travel to the browser: the server writes rank and suit as text, the browser
 parses the text back and scores the hand on its own.
 */
module CardText {
  import opened Wrappers
  import opened Numerals
  import opened Cards
  import opened Hands

  function RankText(r: Rank): string {
    match r
    case Ace => "A" case Two => "2" case Three => "3" case Four => "4" case Five => "5"
    case Six => "6" case Seven => "7" case Eight => "8" case Nine => "9" case Ten => "10"
    case Jack => "J" case Queen => "Q" case King => "K"
  }

  function SuitText(s: Suit): string {
    match s
    case Spades => "S" case Hearts => "H" case Diamonds => "D" case Clubs => "C"
  }

  /** The server's form of a card. */
  function CardText(c: StoredCard): string { RankText(c.rank) + SuitText(c.suit) }

  function HandText(hand: Hand): (texts: seq<string>)
    ensures |texts| == |hand|
    ensures forall i :: 0 <= i < |hand| ==> texts[i] == CardText(hand[i])
  {
    seq(|hand|, i requires 0 <= i < |hand| => CardText(hand[i]))
  }

  // The browser's parser, stage by stage (ASCII letters and the four suit symbols).

  predicate IsBlank(ch: char) { ch == ' ' || '\t' <= ch <= '\r' }

  function TrimLeft(s: string): string {
    if s != "" && IsBlank(s[0]) then TrimLeft(s[1..]) else s
  }

  function TrimRight(s: string): string {
    if s != "" && IsBlank(s[|s| - 1]) then TrimRight(s[..|s| - 1]) else s
  }

  function Upper(s: string): (u: string)
    ensures |u| == |s|
  {
    seq(|s|, i requires 0 <= i < |s| =>
      if 'a' <= s[i] <= 'z' then (s[i] as int - 32) as char else s[i])
  }

  /** Replaces every occurrence of a suit's name, singular or plural, by its letter. */
  function ReplaceWord(s: string, word: string, letter: char): string
    requires word != ""
    decreases |s|
  {
    if |s| < |word| then s
    else if word <= s then
      var rest := s[|word|..];
      [letter] + ReplaceWord(if rest != "" && rest[0] == 'S' then rest[1..] else rest, word, letter)
    else [s[0]] + ReplaceWord(s[1..], word, letter)
  }

  function SymbolLetter(ch: char): char {
    if ch == '\U{2660}' then 'S' else if ch == '\U{2665}' then 'H'
    else if ch == '\U{2666}' then 'D' else if ch == '\U{2663}' then 'C' else ch
  }

  function ReplaceSymbols(s: string): (r: string)
    ensures |r| == |s|
  {
    seq(|s|, i requires 0 <= i < |s| => SymbolLetter(s[i]))
  }

  predicate IsCardChar(ch: char) {
    '0' <= ch <= '9' || ch in {'J', 'Q', 'K', 'A', 'S', 'H', 'D', 'C'}
  }

  function KeepCardChars(s: string): string {
    if s == "" then ""
    else KeepCardChars(s[..|s| - 1]) + if IsCardChar(s[|s| - 1]) then [s[|s| - 1]] else ""
  }

  function SuitOf(ch: char): Option<Suit> {
    if ch == 'S' then Some(Spades) else if ch == 'H' then Some(Hearts)
    else if ch == 'D' then Some(Diamonds) else if ch == 'C' then Some(Clubs) else None
  }

  function RankOf(ch: char): Option<Rank> {
    if ch == '2' then Some(Two) else if ch == '3' then Some(Three) else if ch == '4' then Some(Four)
    else if ch == '5' then Some(Five) else if ch == '6' then Some(Six) else if ch == '7' then Some(Seven)
    else if ch == '8' then Some(Eight) else if ch == '9' then Some(Nine) else if ch == 'J' then Some(Jack)
    else if ch == 'Q' then Some(Queen) else if ch == 'K' then Some(King) else if ch == 'A' then Some(Ace)
    else None
  }

  /** Reads a rank and a suit off the end of the text. */
  function MatchCard(s: string): Option<StoredCard> {
    var n := |s|;
    if n < 2 || SuitOf(s[n - 1]).None? then None
    else if n >= 3 && s[n - 3] == '1' && s[n - 2] == '0' then Some(StoredCard(Ten, SuitOf(s[n - 1]).value))
    else match RankOf(s[n - 2])
      case None => None
      case Some(r) => Some(StoredCard(r, SuitOf(s[n - 1]).value))
  }

  function Normalized(text: string): string {
    var s := ReplaceWord(text, "SPADE", 'S');
    var h := ReplaceWord(s, "HEART", 'H');
    var d := ReplaceWord(h, "DIAMOND", 'D');
    var c := ReplaceWord(d, "CLUB", 'C');
    KeepCardChars(ReplaceSymbols(c))
  }

  function ParseCardFace(raw: string): Option<StoredCard> {
    var text := Upper(TrimRight(TrimLeft(raw)));
    if text == "" then None else MatchCard(Normalized(text))
  }

  // Text of card characters that is too short to hold a suit's name passes every stage unchanged.

  lemma {:induction false} CardCharsAreKept(s: string)
    requires forall i :: 0 <= i < |s| ==> IsCardChar(s[i])
    ensures KeepCardChars(s) == s
  {
    if s != "" {
      CardCharsAreKept(s[..|s| - 1]);
      assert s == s[..|s| - 1] + [s[|s| - 1]];
    }
  }

  lemma ShortTextIsNormalized(s: string)
    requires 0 < |s| < 4 && forall i :: 0 <= i < |s| ==> IsCardChar(s[i])
    ensures Normalized(s) == s
  {
    assert ReplaceSymbols(s) == s;
    CardCharsAreKept(s);
  }

  lemma ShortCardTextIsNormal(s: string)
    requires 0 < |s| < 4 && forall i :: 0 <= i < |s| ==> IsCardChar(s[i])
    ensures ParseCardFace(s) == MatchCard(s)
  {
    assert TrimRight(TrimLeft(s)) == s;
    assert Upper(s) == s;
    ShortTextIsNormalized(s);
  }

  lemma SuitTextIsOneLetter(u: Suit)
    ensures |SuitText(u)| == 1 && IsCardChar(SuitText(u)[0]) && SuitOf(SuitText(u)[0]) == Some(u)
  {
  }

  lemma RankTextIsOneLetter(r: Rank)
    requires r != Ten
    ensures |RankText(r)| == 1 && IsCardChar(RankText(r)[0]) && RankOf(RankText(r)[0]) == Some(r)
  {
  }

  /** The browser reads back exactly the card the server wrote. */
  lemma ParseUndoesCardText(c: StoredCard)
    ensures ParseCardFace(CardText(c)) == Some(c)
  {
    SuitTextIsOneLetter(c.suit);
    if c.rank != Ten {
      RankTextIsOneLetter(c.rank);
    }
    ShortCardTextIsNormal(RankText(c.rank) + SuitText(c.suit));
  }

  /** Different cards are written differently. */
  lemma CardTextInjective(a: StoredCard, b: StoredCard)
    requires CardText(a) == CardText(b)
    ensures a == b
  {
    ParseUndoesCardText(a);
    ParseUndoesCardText(b);
  }

  function RankToPoint(r: Rank): int { if r == Ace then 11 else HardPoints(r) }

  /** The points of every rank, told from the text of the rank: its numeral, ten for a court card, one or eleven for an ace. */
  lemma PointsAreWritten(r: Rank)
    ensures if r == Ace then RankText(r) == "A" && HardPoints(r) == 1 && RankToPoint(r) == 11
            else if r == Jack || r == Queen || r == King
            then RankText(r) == (match r case Jack => "J" case Queen => "Q" case _ => "K")
                 && HardPoints(r) == RankToPoint(r) == 10
            else RankText(r) == Decimal(HardPoints(r)) && Reading(RankText(r)) == Some(RankToPoint(r))
                 && 2 <= HardPoints(r) == RankToPoint(r) <= 10
  {
    ReadingUndoesDecimal(HardPoints(r));
  }

  /** The results of the readable texts, in order. */
  function Readable(cards: seq<string>, parse: string -> Option<StoredCard>): Hand {
    if cards == [] then []
    else
      var init := Readable(cards[..|cards| - 1], parse);
      match parse(cards[|cards| - 1])
      case Some(c) => init + [c]
      case None => init
  }

  lemma ReadableNext(cards: seq<string>, text: string, parse: string -> Option<StoredCard>)
    ensures Readable(cards + [text], parse) == match parse(text)
      case Some(c) => Readable(cards, parse) + [c]
      case None => Readable(cards, parse)
  {
    assert (cards + [text])[..|cards|] == cards;
  }

  lemma {:induction false} ReadableOfWritten(hand: Hand, texts: seq<string>, parse: string -> Option<StoredCard>)
    requires |texts| == |hand| && forall i :: 0 <= i < |hand| ==> parse(texts[i]) == Some(hand[i])
    ensures Readable(texts, parse) == hand
  {
    if hand != [] {
      ReadableOfWritten(hand[..|hand| - 1], texts[..|hand| - 1], parse);
      assert hand == hand[..|hand| - 1] + [hand[|hand| - 1]];
    }
  }

  /** The cards among the texts that parse. */
  function Faces(cards: seq<string>): Hand { Readable(cards, ParseCardFace) }

  /** The score of a list of card texts: unreadable ones are skipped, none readable means no score. */
  function Score(cards: seq<string>): Option<int> {
    if Faces(cards) == [] then None else Some(Value(Faces(cards)))
  }

  /** Scoring the texts the server writes gives the value the server itself uses. */
  lemma ScoreOfServerText(hand: Hand)
    ensures Score(HandText(hand)) == if hand == [] then None else Some(Value(hand))
  {
    forall i | 0 <= i < |hand| ensures ParseCardFace(HandText(hand)[i]) == Some(hand[i]) {
      ParseUndoesCardText(hand[i]);
    }
    ReadableOfWritten(hand, HandText(hand), ParseCardFace);
  }

  method CollectFaces(cards: seq<string>) returns (faces: Hand)
    ensures faces == Faces(cards)
  {
    faces := [];
    var parse := ParseCardFace;
    for i := 0 to |cards|
      invariant faces == Readable(cards[..i], parse)
    {
      ReadableNext(cards[..i], cards[i], parse);
      assert cards[..i + 1] == cards[..i] + [cards[i]];
      var parsed := parse(cards[i]);
      if parsed.Some? {
        faces := faces + [parsed.value];
      }
    }
    assert cards[..|cards|] == cards;
  }

  /** The browser's scoring loops: every ace counts eleven first, then aces are lowered while over 21. */
  method HandScore(cards: seq<string>) returns (score: Option<int>)
    ensures score == Score(cards)
  {
    var faces := CollectFaces(cards);
    if |faces| == 0 {
      return None;
    }
    var total, aces := 0, 0;
    for i := 0 to |faces|
      invariant aces == Aces(faces[..i])
      invariant total == Hard(faces[..i]) + 10 * aces
    {
      assert faces[..i + 1][..i] == faces[..i];
      total := total + RankToPoint(faces[i].rank);
      if faces[i].rank == Ace {
        aces := aces + 1;
      }
    }
    assert faces[..|faces|] == faces;
    LoweringAllAcesGivesValue(faces);
    while total > 21 && aces > 0
      invariant aces >= 0
      invariant Lowered(total, aces) == Value(faces)
    {
      total, aces := total - 10, aces - 1;
    }
    score := Some(total);
  }
}
