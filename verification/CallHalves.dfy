/**
 The calls that may open a round, cut in two: what is checked first, and what is then made of the
 room given what the tables answer.
 */
module CallHalves {
  import opened Wrappers
  import opened Cards
  import opened Shuffle
  import opened Hands
  import opened Policies
  import opened Rounds
  import opened RoundInvariant
  import opened SessionStore
  import opened AtomicSessions
  import opened Rooms
  import opened RoomInvariant
  import opened Worker

  /** Without the right to start nothing happens, whichever session is the latest. */
  lemma StartRefused(w: World, user: string, sid: Sid, deck: seq<StoredCard>) returns (latest: Option<Sid>)
    requires MayStart(w, user).Some?
    ensures IsLatest(w.db.recs, latest)
    ensures Rooms.StartRoom(w, user, latest, sid, deck) == Err(MayStart(w, user).value)
  {
    latest := LatestExists(w.db.recs);
  }

  lemma StartGoesOn(w: World, user: string, latest: Option<Sid>, sid: Sid, deck: seq<StoredCard>, roundNo: int)
    requires IsLatest(w.db.recs, latest) && roundNo == NextNumber(w.db.recs, latest)
    ensures Rooms.StartRoom(w, user, latest, sid, deck)
            == Started(w, user, sid, CreateSession(w.db, NewSession(sid, user, deck), roundNo))
  {
  }

  // ---- the specification of a vote, in two halves ----

  /** Everything that is checked before a vote counts. */
  function MayVote(w: World, user: string, agree: bool, expected: int, actionId: string, latest: Option<Sid>)
    : Result<Checked, Error>
    requires latest.Some? ==> latest.value in w.db.recs
  {
    if user == "" then Err(UnauthorizedUser)
    else if expected <= 0 || actionId == "" then Err(InvalidInput)
    else if SeatOf(w, user) == NoSeat then Err(ForbiddenAction)
    else if latest.None? then Err(NotFound)
    else
      var r := w.db.recs[latest.value];
      if r.sess.status != Resetting then Err(InvalidGameState)
      else
        var _ :- Must(CheckVersion(r.sess, expected));
        var seen :- CheckIdempotency(r.logs, LogKey(user, actionId), VoteAt(agree, expected));
        if seen.Fresh? && user !in Eligible(w) then Err(ForbiddenAction) else Ok(seen)
  }

  /** What a vote that counts makes of the room, given what its effect makes of the tables. */
  ghost function Voted(w: World, l: Sid, user: string, agree: bool, expected: int, actionId: string,
                       effect: VoteEffect, effected: Result<Database, Error>): Result<World, Error>
  {
    var db1 :- effected;
    var db :- AddLog(db1, l, LogKey(user, actionId), VoteAt(agree, expected));
    RoomAfter(w.(db := db, votes := w.votes[l := VotesOn(w, l)[user := agree]]), effect)
  }

  function RoomAfter(w: World, effect: VoteEffect): Result<World, Error> {
    match effect
    case OpenNext(n) => WithRoom(w, Some(n.sid), 1)
    case Refuse => FinalizeRematchFailure(w)
    case Wait => Ok(w)
  }

  /** The effect of a vote; the next round is for the first eligible player. */
  function EffectBy(w: World, l: Sid, user: string, agree: bool, sid: Sid, deck: seq<StoredCard>): VoteEffect {
    EffectOfVote(w, l, user, agree, NewSession(sid, if |Eligible(w)| > 0 then Eligible(w)[0] else "", deck))
  }

  function Reopened(w: World, sid: Sid, next: Result<Database, Error>): Result<World, Error> {
    var db :- next;
    WithRoom(w.(db := db), Some(sid), 1)
  }

  lemma DeadlineInHalves(w: World, s: Sid, sid: Sid, deck: seq<StoredCard>)
    ensures Rooms.ProcessRematchDeadline(w, s, sid, deck) ==
      if s !in w.db.recs then Err(NotFound)
      else if !RematchIsDue(w.db.recs[s].sess, w.db.now) || w.room.current != Some(s) then Ok(w)
      else if |Eligible(w)| > 0 && RematchUnanimous(Eligible(w), AgreeMapAtDeadline(Eligible(w), VotesOn(w, s))) then
        Reopened(w, sid, OpenNextRound(w.db, s, w.db.recs[s].sess, NewSession(sid, Eligible(w)[0], deck)))
      else Rooms.FinalizeRematchFailure(w)
  {
  }

  lemma NextRoundAfterBump(db: Database, l: Sid, s: SessionRow, n: NewSession)
    requires l in db.recs
    ensures OpenNextRound(db, l, s, n) == CreateSession(BumpedIn(db, l, s), n, s.roundNo + 1)
  {
  }

  lemma VoteInHalves(w: World, user: string, agree: bool, expected: int, actionId: string,
                     latest: Option<Sid>, sid: Sid, deck: seq<StoredCard>)
    requires IsLatest(w.db.recs, latest)
    ensures Rooms.VoteRematch(w, user, agree, expected, actionId, latest, sid, deck) ==
      match MayVote(w, user, agree, expected, actionId, latest)
      case Err(e) => Err(e)
      case Ok(Replay) => Ok(w)
      case Ok(Fresh) => Voted(w, latest.value, user, agree, expected, actionId,
                              EffectBy(w, latest.value, user, agree, sid, deck),
                              Effected(w.db, latest.value, EffectBy(w, latest.value, user, agree, sid, deck)))
  {
  }
}
