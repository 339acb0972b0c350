/**
 The rows that make up one round (session, player, dealer, logs) and what each operation of
 the game makes of the rows it has read. Times are in milliseconds.
 */
module Rounds {
  import opened Wrappers
  import opened Cards
  import opened Hands
  import opened Policies

  type Time = int

  const PLAYER_TURN_TIMEOUT: Time := 15_000
  const REMATCH_DEADLINE: Time := 30_000

  datatype Error =
    | UnauthorizedUser | InvalidInput | InvalidGameState | ForbiddenAction
    | InvalidStatus | InvalidTransition | InvalidVersion | VersionConflict
    | RoomFull | InvalidPlayerStatus | InvalidDeck | DeckExhausted
    | NotPlayerTurn | NotYourTurn | DuplicateAction | NotFound | UniqueViolation

  datatype SessionStatus = Dealing | PlayerTurn | DealerTurn | ResultShown | Resetting

  datatype PlayerStatus = Active | Stand | Bust | Blackjack | Disconnected | Left

  datatype SessionRow = SessionRow(
    roundNo: int, status: SessionStatus, version: int, turnSeat: int,
    deck: seq<StoredCard>, drawIndex: int,
    turnDeadline: Option<Time>, rematchDeadline: Option<Time>, createdAt: Time)

  datatype PlayerRow = PlayerRow(
    userId: string, seatNo: int, hand: Hand, status: PlayerStatus,
    outcome: Option<Outcome>, finalScore: Option<int>)

  datatype DealerRow = DealerRow(hand: Hand, holeHidden: bool, finalScore: Option<int>)

  datatype RoundLog = RoundLog(
    roundNo: int, playerScore: int, dealerScore: int, outcome: Outcome, timeForfeit: bool, createdAt: Time)

  /** What an action log remembers of a request; it stands for the hash of the request's payload. */
  datatype Payload =
    | HitAt(version: int)
    | StandAt(version: int)
    | VoteAt(agree: bool, version: int)
    | ForfeitAt(version: int)

  datatype LogKey = LogKey(actorUserId: string, actionId: string)

  // ---- single steps on a session row ----

  function Transition(s: SessionRow, next: SessionStatus): Result<SessionRow, Error> {
    match s.status
    case Dealing => if next != PlayerTurn then Err(InvalidTransition) else Ok(s.(status := next))
    case PlayerTurn => if next != DealerTurn then Err(InvalidTransition) else Ok(s.(status := next))
    case DealerTurn => if next != ResultShown then Err(InvalidTransition) else Ok(s.(status := next))
    case ResultShown => if next != Resetting then Err(InvalidTransition) else Ok(s.(status := next))
    case Resetting => Err(InvalidTransition)
  }

  function CheckVersion(s: SessionRow, expected: int): Option<Error> {
    if expected <= 0 then Some(InvalidVersion)
    else if expected != s.version then Some(VersionConflict)
    else None
  }

  function Bumped(s: SessionRow): SessionRow { s.(version := s.version + 1) }

  function WithRematchDeadline(s: SessionRow, now: Time): SessionRow {
    s.(rematchDeadline := if now == 0 then None else Some(now + REMATCH_DEADLINE))
  }

  datatype Drawn = Drawn(sess: SessionRow, card: StoredCard)

  function DrawCard(s: SessionRow): Result<Drawn, Error> {
    if s.drawIndex < 0 || s.drawIndex > |s.deck| then Err(InvalidDeck)
    else if s.drawIndex >= |s.deck| then Err(DeckExhausted)
    else Ok(Drawn(s.(drawIndex := s.drawIndex + 1), s.deck[s.drawIndex]))
  }

  // ---- operations on the rows of one round ----

  datatype Table3 = Table3(sess: SessionRow, player: PlayerRow, dealer: DealerRow)

  /** Two cards each, dealt in turn from the top of the deck. */
  function InitialDeal(t: Table3): Result<Table3, Error> {
    var d1 :- DrawCard(t.sess);
    var d2 :- DrawCard(d1.sess);
    var d3 :- DrawCard(d2.sess);
    var d4 :- DrawCard(d3.sess);
    Ok(Table3(d4.sess,
              t.player.(hand := t.player.hand + [d1.card] + [d3.card]),
              t.dealer.(hand := t.dealer.hand + [d2.card] + [d4.card])))
  }

  function EmptyTable(roundNo: int, user: string, deck: seq<StoredCard>, now: Time): Table3 {
    Table3(SessionRow(roundNo, Dealing, 1, 1, deck, 0, None, None, now),
           PlayerRow(user, 1, [], Active, None, None),
           DealerRow([], true, None))
  }

  /** Deals a fresh table and opens the turn: a natural skips the player's turn. */
  function DealtRound(empty: Table3, now: Time): Result<Table3, Error> {
    var t :- InitialDeal(empty);
    var s1 :- Transition(t.sess, PlayerTurn);
    if IsBlackjack(t.player.hand) then
      var s2 :- Transition(s1, DealerTurn);
      Ok(t.(sess := s2.(turnDeadline := None), player := t.player.(status := Blackjack)))
    else
      Ok(t.(sess := s1.(turnDeadline := Some(now + PLAYER_TURN_TIMEOUT))))
  }

  /** A new round as it is first stored. */
  function NewRound(roundNo: int, user: string, deck: seq<StoredCard>, now: Time): Result<Table3, Error> {
    DealtRound(EmptyTable(roundNo, user, deck, now), now)
  }

  function CanHitOrStand(s: SessionRow, p: PlayerRow, actor: string): Option<Error> {
    if s.status != PlayerTurn then Some(NotPlayerTurn)
    else if s.turnSeat != p.seatNo then Some(NotYourTurn)
    else if p.userId != actor then Some(NotYourTurn)
    else if p.status != Active then Some(InvalidPlayerStatus)
    else None
  }

  datatype Played = Played(sess: SessionRow, player: PlayerRow)

  function EndTurn(s: SessionRow, p: PlayerRow, status: PlayerStatus): Result<Played, Error> {
    var s1 :- Transition(s, DealerTurn);
    Ok(Played(s1.(turnDeadline := None), p.(status := status)))
  }

  function HitCard(s: SessionRow, p: PlayerRow): Result<Played, Error> {
    var d :- DrawCard(s);
    var p1 := p.(hand := p.hand + [d.card]);
    if Value(p1.hand) > 21 then EndTurn(d.sess, p1, Bust)
    else if IsBlackjack(p1.hand) then EndTurn(d.sess, p1, Blackjack)
    else Ok(Played(d.sess, p1))
  }

  /** The rows that HIT or STAND wants to commit. */
  function PlayRows(s: SessionRow, p: PlayerRow, hit: bool, now: Time): Result<Played, Error> {
    var r :- if hit then HitCard(s, p) else EndTurn(s, p, Stand);
    var s1 := if r.sess.status == PlayerTurn
      then r.sess.(turnDeadline := Some(now + PLAYER_TURN_TIMEOUT)) else r.sess;
    Ok(Played(Bumped(s1), r.player))
  }

  datatype Settled = Settled(sess: SessionRow, player: PlayerRow, dealer: DealerRow, log: RoundLog)

  /** Opens the hole card, fixes scores and the given outcome, and writes the round log. */
  function Settle(t: Table3, outcome: Outcome, forfeit: bool, now: Time): Result<Settled, Error> {
    var s1 :- Transition(t.sess, ResultShown);
    var s2 :- Transition(s1, Resetting);
    var pScore, dScore := Value(t.player.hand), Value(t.dealer.hand);
    Ok(Settled(WithRematchDeadline(s2, now),
               t.player.(outcome := Some(outcome), finalScore := Some(pScore)),
               t.dealer.(holeHidden := false, finalScore := Some(dScore)),
               RoundLog(t.sess.roundNo, pScore, dScore, outcome, forfeit, now)))
  }

  function DealerResult(t: Table3, now: Time): Result<Settled, Error> {
    Settle(t, ResolveRoundOutcome(t.player.hand, t.dealer.hand), false, now)
  }

  /** The rows a timed-out turn wants to commit: the player stands and loses by time. */
  function ForfeitRows(t: Table3, now: Time): Result<Settled, Error> {
    var e :- EndTurn(t.sess, t.player, Stand);
    var r :- Settle(Table3(e.sess, e.player, t.dealer), Lose, true, now);
    Ok(r.(sess := Bumped(r.sess)))
  }

  datatype DealerStep = DealerStep(sess: SessionRow, player: PlayerRow, dealer: DealerRow, log: Option<RoundLog>)

  /** The rows one dealer step wants to commit: one more card, or the result. */
  function DealerRows(t: Table3, now: Time): Result<DealerStep, Error> {
    if DealerDraws(t.dealer.hand) then
      var d :- DrawCard(t.sess);
      Ok(DealerStep(Bumped(d.sess), t.player, t.dealer.(hand := t.dealer.hand + [d.card]), None))
    else
      var r :- DealerResult(t, now);
      Ok(DealerStep(Bumped(r.sess), r.player, r.dealer, Some(r.log)))
  }
}
