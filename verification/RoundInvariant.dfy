/** The stored record of one round and the invariant that every operation keeps. */
module RoundInvariant {
  import opened Wrappers
  import opened Cards
  import opened Shuffle
  import opened Hands
  import opened Policies
  import opened Rounds

  /** All rows that belong to one session. */
  datatype Record = Record(
    sess: SessionRow, player: PlayerRow, dealer: DealerRow,
    rounds: seq<RoundLog>, logs: map<LogKey, Payload>)
  {
    function Table(): Table3 { Table3(sess, player, dealer) }
  }

  // ---- which card went where ----

  /** The player holds cards 0 and 2 and then those it drew, the dealer cards 1 and 3 and the rest drawn. */
  ghost predicate Layout(t: Table3) {
    var deck, n := t.sess.deck, |t.player.hand|;
    && FullDeck(deck) && |deck| == DECK_SIZE
    && n >= 2 && |t.dealer.hand| >= 2
    && t.sess.drawIndex == n + |t.dealer.hand| <= 39
    && t.player.hand == [deck[0], deck[2]] + deck[4..n + 2]
    && t.dealer.hand == [deck[1], deck[3]] + deck[n + 2..t.sess.drawIndex]
  }

  lemma FirstFour(d: seq<StoredCard>)
    requires |d| == 4
    ensures multiset([d[0], d[2]]) + multiset([d[1], d[3]]) == multiset(d)
  {
    assert d == [d[0]] + [d[1]] + [d[2]] + [d[3]];
    assert [d[0], d[2]] == [d[0]] + [d[2]] && [d[1], d[3]] == [d[1]] + [d[3]];
  }

  lemma DealtCards(d: seq<StoredCard>, a: seq<StoredCard>, b: seq<StoredCard>)
    requires |d| == 4
    ensures multiset([d[0], d[2]] + a) + multiset([d[1], d[3]] + b) == multiset(d + a + b)
  {
    FirstFour(d);
    var p, q := [d[0], d[2]], [d[1], d[3]];
    assert multiset(p + a) == multiset(p) + multiset(a);
    assert multiset(q + b) == multiset(q) + multiset(b);
    assert multiset(d + a + b) == multiset(d) + multiset(a) + multiset(b);
  }

  /** The place in the deck of the i-th card of both hands together, with n cards at the player. */
  function PlaceOf(n: int, i: int): int {
    if i < n then (if i == 0 then 0 else if i == 1 then 2 else i + 2)
    else (if i == n then 1 else if i == n + 1 then 3 else i)
  }

  lemma CardAtPlace(t: Table3, i: nat)
    requires Layout(t) && i < t.sess.drawIndex
    ensures (t.player.hand + t.dealer.hand)[i] == t.sess.deck[PlaceOf(|t.player.hand|, i)]
  {
    var deck, n := t.sess.deck, |t.player.hand|;
    if 2 <= i < n {
      assert t.player.hand[i] == deck[4..n + 2][i - 2];
    } else if i >= n + 2 {
      assert t.dealer.hand[i - n] == deck[n + 2..t.sess.drawIndex][i - n - 2];
    }
  }

  lemma DeckInParts(deck: seq<StoredCard>, n: nat, k: nat)
    requires 2 <= n && n + 2 <= k <= |deck|
    ensures deck[..k] == deck[..4] + deck[4..n + 2] + deck[n + 2..k]
    ensures [deck[0], deck[2]] == [deck[..4][0], deck[..4][2]]
    ensures [deck[1], deck[3]] == [deck[..4][1], deck[..4][3]]
  {
  }

  lemma HandsAreTheDrawnCards(t: Table3)
    requires Layout(t)
    ensures multiset(t.player.hand) + multiset(t.dealer.hand) == multiset(t.sess.deck[..t.sess.drawIndex])
  {
    var deck, n, k := t.sess.deck, |t.player.hand|, t.sess.drawIndex;
    DeckInParts(deck, n, k);
    DealtCards(deck[..4], deck[4..n + 2], deck[n + 2..k]);
  }

  /** Nothing is lost or doubled: the two hands are the cards drawn so far, all different. */
  lemma LayoutConservesCards(t: Table3)
    requires Layout(t)
    ensures multiset(t.player.hand) + multiset(t.dealer.hand) == multiset(t.sess.deck[..t.sess.drawIndex])
    ensures Distinct(t.player.hand + t.dealer.hand)
  {
    HandsAreTheDrawnCards(t);
    FullDeckDistinct(t.sess.deck);
    var both := t.player.hand + t.dealer.hand;
    forall i, j | 0 <= i < j < |both| ensures both[i] != both[j] {
      CardAtPlace(t, i);
      CardAtPlace(t, j);
    }
  }

  // ---- how large hands can get ----

  /** Every card after the first two was drawn on a hand of value at most limit. */
  ghost predicate DrawnUpTo(hand: Hand, limit: int) {
    |hand| >= 2 && (|hand| > 2 ==> Value(hand[..|hand| - 1]) <= limit)
  }

  lemma DrawnUpToSize(hand: Hand, limit: int)
    requires DrawnUpTo(hand, limit) && limit >= 1
    ensures |hand| <= limit + 1
  {
    HardBounds(hand[..|hand| - 1]);
  }

  lemma DrawKeepsDrawnUpTo(hand: Hand, limit: int, c: StoredCard)
    requires |hand| >= 2 && Value(hand) <= limit
    ensures DrawnUpTo(hand + [c], limit)
  {
    assert (hand + [c])[..|hand|] == hand;
  }

  lemma TwoCardsAtMost21(hand: Hand)
    requires |hand| == 2
    ensures Value(hand) <= 21
  {
    HardBounds(hand);
  }

  lemma DealerValueAtMost26(hand: Hand)
    requires DrawnUpTo(hand, 16)
    ensures Value(hand) <= 26
  {
    if |hand| == 2 {
      TwoCardsAtMost21(hand);
    } else {
      var init := hand[..|hand| - 1];
      assert hand == init + [hand[|hand| - 1]];
      OneDrawStaysUnder27(init, hand[|hand| - 1]);
    }
  }

  /** The parts of a session that are fixed when it is created. */
  ghost predicate SameRound(s: SessionRow, s': SessionRow) {
    s'.roundNo == s.roundNo && s'.createdAt == s.createdAt && s'.deck == s.deck
  }

  // ---- what each stored status means ----

  /** How a finished turn left the player. */
  ghost predicate TurnOver(p: PlayerRow) {
    match p.status
    case Bust => IsBust(p.hand)
    case Blackjack => IsBlackjack(p.hand)
    case Stand => !IsBust(p.hand) && !IsBlackjack(p.hand)
    case _ => false
  }

  ghost predicate Unsettled(t: Table3) {
    && t.sess.rematchDeadline.None? && t.dealer.holeHidden
    && t.player.outcome.None? && t.player.finalScore.None? && t.dealer.finalScore.None?
  }

  ghost predicate InPlayerTurn(t: Table3) {
    && t.sess.status == PlayerTurn
    && Unsettled(t)
    && t.sess.turnDeadline.Some?
    && t.player.status == Active && !IsBust(t.player.hand) && !IsBlackjack(t.player.hand)
    && |t.dealer.hand| == 2
    && t.sess.version == t.sess.drawIndex - 3
  }

  ghost predicate InDealerTurn(t: Table3) {
    && t.sess.status == DealerTurn
    && Unsettled(t)
    && t.sess.turnDeadline.None?
    && TurnOver(t.player)
    && t.sess.version == t.sess.drawIndex - 3 + (if t.player.status == Stand then 1 else 0)
  }

  /** The scores shown are the values of the hands, and the outcome is the rules' or a loss by time. */
  ghost predicate IsResult(t: Table3, log: RoundLog) {
    && TurnOver(t.player)
    && t.player.outcome == Some(log.outcome)
    && t.player.finalScore == Some(log.playerScore) && log.playerScore == Value(t.player.hand)
    && t.dealer.finalScore == Some(log.dealerScore) && log.dealerScore == Value(t.dealer.hand)
    && log.roundNo == t.sess.roundNo
    && if log.timeForfeit
       then log.outcome == Lose && t.player.status == Stand && |t.dealer.hand| == 2
       else log.outcome == ResolveRoundOutcome(t.player.hand, t.dealer.hand)
            && 17 <= Value(t.dealer.hand) <= 26
  }

  ghost predicate IsSettled(t: Table3, log: RoundLog) {
    && t.sess.status == Resetting
    && t.sess.turnDeadline.None? && t.sess.rematchDeadline.Some? && !t.dealer.holeHidden
    && IsResult(t, log)
    && t.sess.version >= t.sess.drawIndex - 3 + (if t.player.status == Stand then 1 else 0)
                         + (if log.timeForfeit then 0 else 1)
  }

  ghost predicate TableInv(t: Table3) {
    && Layout(t)
    && t.sess.turnSeat == 1 && t.player.seatNo == 1
    && DrawnUpTo(t.player.hand, 21) && DrawnUpTo(t.dealer.hand, 16)
  }

  ghost predicate StatusInv(t: Table3, rounds: seq<RoundLog>) {
    match t.sess.status
    case PlayerTurn => InPlayerTurn(t) && rounds == []
    case DealerTurn => InDealerTurn(t) && rounds == []
    case Resetting => |rounds| == 1 && IsSettled(t, rounds[0])
    case _ => false
  }

  // ---- logs ----

  ghost predicate IsHit(p: Payload) { p.HitAt? }
  ghost predicate IsStand(p: Payload) { p.StandAt? }
  ghost predicate IsForfeit(p: Payload) { p.ForfeitAt? }

  ghost function Counted(logs: map<LogKey, Payload>, counted: Payload -> bool): set<LogKey> {
    set k | k in logs && counted(logs[k])
  }

  ghost function Count(logs: map<LogKey, Payload>, counted: Payload -> bool): nat { |Counted(logs, counted)| }

  lemma CountedNew(logs: map<LogKey, Payload>, k: LogKey, p: Payload, counted: Payload -> bool)
    requires k !in logs
    ensures Counted(logs[k := p], counted) == Counted(logs, counted) + if counted(p) then {k} else {}
  {
    var logs' := logs[k := p];
    forall x ensures x in Counted(logs', counted) <==> x in Counted(logs, counted) || (counted(p) && x == k) {
      if x != k {
        assert x in logs' <==> x in logs;
      }
    }
  }

  lemma CountNew(logs: map<LogKey, Payload>, k: LogKey, p: Payload, counted: Payload -> bool)
    requires k !in logs
    ensures Count(logs[k := p], counted) == Count(logs, counted) + if counted(p) then 1 else 0
  {
    CountedNew(logs, k, p, counted);
    assert k !in Counted(logs, counted);
  }

  lemma CountAtMostAll(logs: map<LogKey, Payload>, counted: Payload -> bool)
    ensures Count(logs, counted) <= |logs|
  {
    SubsetIsSmaller(Counted(logs, counted), logs.Keys);
  }

  lemma {:induction false} SubsetIsSmaller<T>(a: set<T>, b: set<T>)
    requires a <= b
    ensures |a| <= |b|
    decreases a
  {
    if x :| x in a {
      SubsetIsSmaller(a - {x}, b - {x});
    }
  }

  /** The logs tell exactly what happened: one HIT per card drawn, one STAND or forfeit per stand. */
  ghost predicate LogsInv(r: Record) {
    var forfeited := |r.rounds| == 1 && r.rounds[0].timeForfeit;
    && Count(r.logs, IsHit) == |r.player.hand| - 2
    && Count(r.logs, IsStand) == (if r.player.status == Stand && !forfeited then 1 else 0)
    && Count(r.logs, IsForfeit) == (if forfeited then 1 else 0)
  }

  ghost predicate IsPlay(p: Payload) { p.HitAt? || p.StandAt? }

  /** Each accepted HIT or STAND named a version, all of them different and all of them in the past. */
  ghost predicate OnePlayPerVersion(r: Record) {
    && (forall k :: k in r.logs && IsPlay(r.logs[k]) ==> r.logs[k].version < r.sess.version)
    && (forall j, k :: j in r.logs && k in r.logs && j != k && IsPlay(r.logs[j]) && IsPlay(r.logs[k])
          ==> r.logs[j].version != r.logs[k].version)
  }

  ghost predicate RecordInv(r: Record) {
    TableInv(r.Table()) && StatusInv(r.Table(), r.rounds) && LogsInv(r) && OnePlayPerVersion(r)
  }
}
