/** The objects the server works on while a call is under way; each mirrors a stored row. */
module Entities {
  import opened Wrappers
  import opened Cards
  import opened Hands
  import opened Policies
  import opened Rounds

  class GameSession {
    var roundNo: int
    var status: SessionStatus
    var version: int
    var turnSeat: int
    var deck: seq<StoredCard>
    var drawIndex: int
    var turnDeadline: Option<Time>
    var rematchDeadline: Option<Time>
    var createdAt: Time

    function Row(): SessionRow
      reads this
    {
      SessionRow(roundNo, status, version, turnSeat, deck, drawIndex, turnDeadline, rematchDeadline, createdAt)
    }

    constructor FromRow(row: SessionRow)
      ensures Row() == row
    {
      roundNo, status, version, turnSeat := row.roundNo, row.status, row.version, row.turnSeat;
      deck, drawIndex := row.deck, row.drawIndex;
      turnDeadline, rematchDeadline, createdAt := row.turnDeadline, row.rematchDeadline, row.createdAt;
    }

    constructor New(roundNo: int, at: Time)
      ensures Row() == SessionRow(roundNo, Dealing, 1, 1, [], 0, None, None, at)
    {
      this.roundNo, status, version, turnSeat := roundNo, Dealing, 1, 1;
      deck, drawIndex := [], 0;
      turnDeadline, rematchDeadline, createdAt := None, None, at;
    }

    method SetDeck(cards: seq<StoredCard>)
      modifies this
      ensures Row() == old(Row()).(deck := cards, drawIndex := 0)
    {
      deck := cards;
      drawIndex := 0;
    }

    method DrawCard() returns (card: Result<StoredCard, Error>)
      modifies this`drawIndex
      ensures match Rounds.DrawCard(old(Row()))
              case Ok(d) => card == Ok(d.card) && Row() == d.sess
              case Err(e) => card == Err(e) && Row() == old(Row())
    {
      if drawIndex < 0 || drawIndex > |deck| {
        return Err(InvalidDeck);
      }
      if drawIndex >= |deck| {
        return Err(DeckExhausted);
      }
      card := Ok(deck[drawIndex]);
      drawIndex := drawIndex + 1;
    }

    /** How many cards are left; none when the index is out of range. */
    method RemainingDeckCards() returns (n: nat)
      ensures n > 0 <==> Rounds.DrawCard(Row()).Ok?
      ensures 0 <= drawIndex <= |deck| ==> n + drawIndex == |deck|
    {
      if drawIndex < 0 || drawIndex > |deck| {
        return 0;
      }
      n := |deck| - drawIndex;
    }

    method TransitionTo(next: SessionStatus) returns (err: Option<Error>)
      modifies this`status
      ensures err == ErrorOf(Transition(old(Row()), next))
      ensures Row() == ValueOr(Transition(old(Row()), next), old(Row()))
    {
      match status {
        case Dealing => if next != PlayerTurn { return Some(InvalidTransition); }
        case PlayerTurn => if next != DealerTurn { return Some(InvalidTransition); }
        case DealerTurn => if next != ResultShown { return Some(InvalidTransition); }
        case ResultShown => if next != Resetting { return Some(InvalidTransition); }
        case Resetting => return Some(InvalidTransition);
      }
      status := next;
      err := None;
    }

    method SetTurnDeadline(at: Option<Time>)
      modifies this`turnDeadline
      ensures Row() == old(Row()).(turnDeadline := at)
    {
      turnDeadline := at;
    }

    method SetRematchDeadline(now: Time)
      modifies this`rematchDeadline
      ensures Row() == WithRematchDeadline(old(Row()), now)
    {
      if now == 0 {
        rematchDeadline := None;
        return;
      }
      rematchDeadline := Some(now + REMATCH_DEADLINE);
    }

    method CheckVersion(expected: int) returns (err: Option<Error>)
      ensures err == Rounds.CheckVersion(Row(), expected)
      ensures err.None? ==> version == expected > 0
    {
      if expected <= 0 {
        return Some(InvalidVersion);
      }
      if expected != version {
        return Some(VersionConflict);
      }
      err := None;
    }

    method IncrementVersion()
      modifies this`version
      ensures Row() == Bumped(old(Row()))
    {
      version := version + 1;
    }
  }

  class PlayerState {
    var userId: string
    var seatNo: int
    var hand: Hand
    var status: PlayerStatus
    var outcome: Option<Outcome>
    var finalScore: Option<int>

    function Row(): PlayerRow
      reads this
    {
      PlayerRow(userId, seatNo, hand, status, outcome, finalScore)
    }

    constructor FromRow(row: PlayerRow)
      ensures Row() == row
    {
      userId, seatNo, hand, status := row.userId, row.seatNo, row.hand, row.status;
      outcome, finalScore := row.outcome, row.finalScore;
    }

    constructor New(userId: string, seatNo: int)
      ensures Row() == PlayerRow(userId, seatNo, [], Active, None, None)
    {
      this.userId, this.seatNo := userId, seatNo;
      hand, status, outcome, finalScore := [], Active, None, None;
    }

    method SetHand(next: Hand)
      modifies this`hand
      ensures Row() == old(Row()).(hand := next)
    {
      hand := next;
    }

    method SetStatus(next: PlayerStatus)
      modifies this`status
      ensures Row() == old(Row()).(status := next)
    {
      status := next;
    }

    method SetOutcome(score: int, o: Outcome)
      modifies this`outcome, this`finalScore
      ensures Row() == old(Row()).(outcome := Some(o), finalScore := Some(score))
    {
      outcome, finalScore := Some(o), Some(score);
    }
  }

  class DealerState {
    var hand: Hand
    var holeHidden: bool
    var finalScore: Option<int>

    function Row(): DealerRow
      reads this
    {
      DealerRow(hand, holeHidden, finalScore)
    }

    constructor FromRow(row: DealerRow)
      ensures Row() == row
    {
      hand, holeHidden, finalScore := row.hand, row.holeHidden, row.finalScore;
    }

    constructor New()
      ensures Row() == DealerRow([], true, None)
    {
      hand, holeHidden, finalScore := [], true, None;
    }

    method SetHand(next: Hand)
      modifies this`hand
      ensures Row() == old(Row()).(hand := next)
    {
      hand := next;
    }

    method RevealHole()
      modifies this`holeHidden
      ensures Row() == old(Row()).(holeHidden := false)
    {
      holeHidden := false;
    }

    method SetFinalScore(v: int)
      modifies this`finalScore
      ensures Row() == old(Row()).(finalScore := Some(v))
    {
      finalScore := Some(v);
    }
  }

  // ---- the computations of a call on its own objects ----

  function Rows(sess: GameSession, p: PlayerState, d: DealerState): Table3
    reads sess, p, d
  {
    Table3(sess.Row(), p.Row(), d.Row())
  }

  /** Adds the card to the hand. */
  method ApplyHit(hand: Hand, card: StoredCard) returns (next: Hand)
    ensures next == hand + [card]
  {
    next := hand + [card];
  }

  /** The rules of HIT and STAND; they only look. */
  method AssertCanHitOrStand(p: PlayerState, sess: GameSession, actor: string) returns (err: Option<Error>)
    ensures err == CanHitOrStand(sess.Row(), p.Row(), actor)
    ensures err.None? <==> sess.status == PlayerTurn && sess.turnSeat == p.seatNo && p.userId == actor && p.status == Active
  {
    if sess.status != PlayerTurn {
      return Some(NotPlayerTurn);
    }
    if sess.turnSeat != p.seatNo || p.userId != actor {
      return Some(NotYourTurn);
    }
    if p.status != Active {
      return Some(InvalidPlayerStatus);
    }
    err := None;
  }

  method InitialDeal(sess: GameSession, p: PlayerState, d: DealerState) returns (err: Option<Error>)
    modifies sess, p, d
    ensures err == ErrorOf(Rounds.InitialDeal(old(Rows(sess, p, d))))
    ensures err.None? ==> Rounds.InitialDeal(old(Rows(sess, p, d))) == Ok(Rows(sess, p, d))
    ensures sess.roundNo == old(sess.roundNo) && sess.status == old(sess.status)
  {
    var c1 := sess.DrawCard();
    if c1.Err? { return Some(c1.error); }
    var ph := ApplyHit(p.hand, c1.value);
    p.SetHand(ph);
    var c2 := sess.DrawCard();
    if c2.Err? { return Some(c2.error); }
    var dh := ApplyHit(d.hand, c2.value);
    d.SetHand(dh);
    var c3 := sess.DrawCard();
    if c3.Err? { return Some(c3.error); }
    ph := ApplyHit(p.hand, c3.value);
    p.SetHand(ph);
    var c4 := sess.DrawCard();
    if c4.Err? { return Some(c4.error); }
    dh := ApplyHit(d.hand, c4.value);
    d.SetHand(dh);
    err := None;
  }

  /** Ends the player's turn with the given status. */
  method FinishTurn(sess: GameSession, p: PlayerState, status: PlayerStatus) returns (err: Option<Error>)
    modifies sess, p
    ensures err == ErrorOf(EndTurn(old(sess.Row()), old(p.Row()), status))
    ensures err.None? ==> EndTurn(old(sess.Row()), old(p.Row()), status) == Ok(Played(sess.Row(), p.Row()))
  {
    p.SetStatus(status);
    err := sess.TransitionTo(DealerTurn);
    if err.None? {
      sess.SetTurnDeadline(None);
    }
  }

  method HitOnce(sess: GameSession, p: PlayerState) returns (err: Option<Error>)
    modifies sess, p
    ensures err == ErrorOf(HitCard(old(sess.Row()), old(p.Row())))
    ensures err.None? ==> HitCard(old(sess.Row()), old(p.Row())) == Ok(Played(sess.Row(), p.Row()))
  {
    var card := sess.DrawCard();
    if card.Err? { return Some(card.error); }
    var next := ApplyHit(p.hand, card.value);
    p.SetHand(next);
    if Value(p.hand) > 21 {
      err := FinishTurn(sess, p, Bust);
    } else if IsBlackjack(p.hand) {
      err := FinishTurn(sess, p, Blackjack);
    } else {
      err := None;
    }
  }

  /** The part of HIT and STAND between the checks and the transaction. */
  method PlayTurn(sess: GameSession, p: PlayerState, hit: bool, now: Time) returns (err: Option<Error>)
    modifies sess, p
    ensures err == ErrorOf(PlayRows(old(sess.Row()), old(p.Row()), hit, now))
    ensures err.None? ==> PlayRows(old(sess.Row()), old(p.Row()), hit, now) == Ok(Played(sess.Row(), p.Row()))
  {
    if hit {
      err := HitOnce(sess, p);
    } else {
      err := FinishTurn(sess, p, Stand);
    }
    if err.Some? { return; }
    if sess.status == PlayerTurn {
      sess.SetTurnDeadline(Some(now + PLAYER_TURN_TIMEOUT));
    }
    sess.IncrementVersion();
  }

  /** Opens the hole card and fixes the result. */
  method ShowResult(sess: GameSession, p: PlayerState, d: DealerState, outcome: Outcome, forfeit: bool, now: Time)
    returns (log: Result<RoundLog, Error>)
    modifies sess, p, d
    ensures ErrorOf(log) == ErrorOf(Settle(old(Rows(sess, p, d)), outcome, forfeit, now))
    ensures log.Ok? ==> Settle(old(Rows(sess, p, d)), outcome, forfeit, now)
                        == Ok(Settled(sess.Row(), p.Row(), d.Row(), log.value))
  {
    d.RevealHole();
    var err := sess.TransitionTo(ResultShown);
    if err.Some? { return Err(err.value); }
    err := sess.TransitionTo(Resetting);
    if err.Some? { return Err(err.value); }
    sess.SetRematchDeadline(now);
    var pScore, dScore := Value(p.hand), Value(d.hand);
    p.SetOutcome(pScore, outcome);
    d.SetFinalScore(dScore);
    log := Ok(RoundLog(sess.roundNo, pScore, dScore, outcome, forfeit, now));
  }

  method DealerResult(sess: GameSession, p: PlayerState, d: DealerState, now: Time)
    returns (log: Result<RoundLog, Error>)
    modifies sess, p, d
    ensures ErrorOf(log) == ErrorOf(Rounds.DealerResult(old(Rows(sess, p, d)), now))
    ensures log.Ok? ==> Rounds.DealerResult(old(Rows(sess, p, d)), now)
                        == Ok(Settled(sess.Row(), p.Row(), d.Row(), log.value))
  {
    log := ShowResult(sess, p, d, ResolveRoundOutcome(p.hand, d.hand), false, now);
  }

  /** The part of the timed-out turn between the checks and the transaction. */
  method ForfeitTurn(sess: GameSession, p: PlayerState, d: DealerState, now: Time) returns (log: Result<RoundLog, Error>)
    modifies sess, p, d
    ensures ErrorOf(log) == ErrorOf(ForfeitRows(old(Rows(sess, p, d)), now))
    ensures log.Ok? ==> ForfeitRows(old(Rows(sess, p, d)), now)
                        == Ok(Settled(sess.Row(), p.Row(), d.Row(), log.value))
  {
    var err := FinishTurn(sess, p, Stand);
    if err.Some? { return Err(err.value); }
    log := ShowResult(sess, p, d, Lose, true, now);
    if log.Ok? {
      sess.IncrementVersion();
    }
  }

  /** The part of the dealer step between the checks and the transaction. */
  method StepDealer(sess: GameSession, p: PlayerState, d: DealerState, now: Time)
    returns (log: Result<Option<RoundLog>, Error>)
    modifies sess, p, d
    ensures ErrorOf(log) == ErrorOf(DealerRows(old(Rows(sess, p, d)), now))
    ensures log.Ok? ==> DealerRows(old(Rows(sess, p, d)), now)
                        == Ok(DealerStep(sess.Row(), p.Row(), d.Row(), log.value))
  {
    var move := NextDealerAction(d.hand);
    if move.terminal || move.action == DealerStand {
      var result := DealerResult(sess, p, d, now);
      if result.Err? { return Err(result.error); }
      log := Ok(Some(result.value));
    } else {
      var card := sess.DrawCard();
      if card.Err? { return Err(card.error); }
      var next := ApplyHit(d.hand, card.value);
      d.SetHand(next);
      log := Ok(None);
    }
    sess.IncrementVersion();
  }
}
