/** The room as an object, and a new round prepared in memory. */
module RoomObjects {
  import opened Wrappers
  import opened Cards
  import opened Shuffle
  import opened Hands
  import opened Policies
  import opened Rounds
  import opened RoundInvariant
  import opened SessionStore
  import opened Rooms
  import opened Entities

  /** The object made from the row of a room. */
  class RoomObject {
    var host: string
    var status: RoomStatus
    var current: Option<Sid>

    function Row(): Room
      reads this
    {
      Room(host, status, current)
    }

    constructor FromRow(row: Room)
      ensures Row() == row
    {
      host, status, current := row.host, row.status, row.current;
    }

    method RecalculateStatus(active: int, hasSession: bool) returns (err: Option<Error>)
      modifies this`status
      ensures err == ErrorOf(Rooms.RecalculateStatus(active, hasSession))
      ensures status == ValueOr(Rooms.RecalculateStatus(active, hasSession), old(status))
    {
      if active < 0 {
        return Some(InvalidInput);
      }
      if active > 1 {
        return Some(RoomFull);
      }
      err := None;
      if hasSession {
        status := Playing;
        return;
      }
      if active == 1 {
        status := ReadyToStart;
        return;
      }
      status := Waiting;
    }
  }

  /** Opens the turn of a dealt round; a natural goes straight to the dealer. */
  method OpenTurn(sess: GameSession, p: PlayerState, now: Time) returns (err: Option<Error>)
    modifies sess, p
    ensures sess.roundNo == old(sess.roundNo)
    ensures err == if old(sess.status) == Dealing then None else Some(InvalidTransition)
    ensures old(sess.status) == Dealing ==> if IsBlackjack(p.hand)
      then sess.Row() == old(sess.Row()).(status := DealerTurn, turnDeadline := None) && p.Row() == old(p.Row()).(status := Blackjack)
      else sess.Row() == old(sess.Row()).(status := PlayerTurn, turnDeadline := Some(now + PLAYER_TURN_TIMEOUT)) && p.Row() == old(p.Row())
  {
    err := sess.TransitionTo(PlayerTurn);
    if err.Some? { return; }
    sess.SetTurnDeadline(Some(now + PLAYER_TURN_TIMEOUT));
    if IsBlackjack(p.hand) {
      p.SetStatus(Blackjack);
      err := sess.TransitionTo(DealerTurn);
      if err.Some? { return; }
      sess.SetTurnDeadline(None);
    }
  }

  /** Deals from the deck and opens the turn. */
  method DealRound(sess: GameSession, p: PlayerState, d: DealerState, now: Time) returns (err: Option<Error>)
    modifies sess, p, d
    ensures err == ErrorOf(DealtRound(old(Rows(sess, p, d)), now))
    ensures err.None? ==> DealtRound(old(Rows(sess, p, d)), now) == Ok(Rows(sess, p, d))
    ensures sess.roundNo == old(sess.roundNo)
  {
    err := Entities.InitialDeal(sess, p, d);
    if err.Some? { return; }
    err := OpenTurn(sess, p, now);
  }

  /** Deals a new round on fresh objects. */
  method PrepareRound(roundNo: int, user: string, deck: seq<StoredCard>, now: Time)
    returns (err: Option<Error>, sess: GameSession, p: PlayerState, d: DealerState)
    ensures fresh(sess) && fresh(p) && fresh(d)
    ensures err == ErrorOf(NewRound(roundNo, user, deck, now))
    ensures err.None? ==> NewRound(roundNo, user, deck, now) == Ok(Rows(sess, p, d))
    ensures sess.roundNo == roundNo
  {
    sess := new GameSession.New(roundNo, now);
    p := new PlayerState.New(user, 1);
    d := new DealerState.New();
    sess.SetDeck(deck);
    err := DealRound(sess, p, d, now);
  }
}
