/** What each call promises in a consistent room: when it is accepted, with what effect, and what undoes it. */
module RoomLaws {
  import opened Wrappers
  import opened Cards
  import opened Shuffle
  import opened Hands
  import opened Policies
  import opened Rounds
  import opened RoundInvariant
  import opened SessionStore
  import opened RoundSteps
  import opened AtomicSessions
  import opened Rooms
  import opened RoomInvariant
  import opened RoomSteps
  import opened RoomRuns
  import opened CallHalves
  import opened Interleaving
  import opened SessionCalls
  import opened RecordLaws
  import opened Findings

  // ---- the seat ----

  /** The host alone may sit down, while no session is current and the seat is empty; then the room is ready. */
  lemma JoinLaw(w: World, user: string)
    requires WorldInv(w)
    ensures JoinRoom(w, user).Ok? <==> user == w.room.host && w.room.current.None? && !Seated(w.seat)
    ensures JoinRoom(w, user).Ok? ==>
              JoinRoom(w, user).value == w.(seat := SeatActive, room := Room(w.room.host, ReadyToStart, None))
  {
  }

  lemma JoinRefusals(w: World, user: string)
    requires WorldInv(w) && JoinRoom(w, user).Err?
    ensures JoinRoom(w, user).error ==
            if user == "" then UnauthorizedUser
            else if w.room.current.Some? then InvalidGameState
            else if user != w.room.host then ForbiddenAction
            else RoomFull
  {
  }

  /** The host may leave while no session is current; then the seat is given up and the room waits. */
  lemma LeaveLaw(w: World, user: string)
    requires WorldInv(w)
    ensures LeaveRoom(w, user).Ok? <==> user == w.room.host && w.seat != NoSeat && w.room.current.None?
    ensures LeaveRoom(w, user).Ok? ==>
              LeaveRoom(w, user).value == w.(seat := SeatLeft, room := Room(w.room.host, Waiting, None))
  {
  }

  lemma LeaveRefusals(w: World, user: string)
    requires WorldInv(w) && LeaveRoom(w, user).Err?
    ensures LeaveRoom(w, user).error ==
            if user == "" then UnauthorizedUser else if w.room.current.Some? then InvalidGameState else NotFound
  {
  }

  /** Who has left cannot start, and comes back by joining: that restores the room of a player who was there. */
  lemma LeavingAndJoining(w: World, user: string)
    requires WorldInv(w) && LeaveRoom(w, user).Ok?
    ensures var left := LeaveRoom(w, user).value;
            && MayStart(left, user) == Some(InvalidGameState)
            && JoinRoom(left, user).Ok?
            && (w.seat == SeatActive ==> JoinRoom(left, user).value == w)
            && LeaveRoom(left, user) == Ok(left)
  {
  }

  /** A connection only marks the seat of the host. */
  lemma ConnectLaw(w: World, user: string)
    requires WorldInv(w)
    ensures MarkConnected(w, user).Ok? <==> user == w.room.host && w.seat != NoSeat
    ensures MarkConnected(w, user).Ok? ==>
              MarkConnected(w, user).value == w.(seat := if w.seat == SeatDisconnected then SeatActive else w.seat)
    ensures MarkConnected(w, user).Err? ==> MarkConnected(w, user).error == if user == "" then InvalidInput else NotFound
  {
  }

  lemma DisconnectLaw(w: World, user: string)
    requires WorldInv(w)
    ensures MarkDisconnected(w, user) ==
            if user == "" then Err(InvalidInput)
            else Ok(if user == w.room.host && w.seat == SeatActive then w.(seat := SeatDisconnected) else w)
  {
  }

  /** A lost connection that comes back leaves no trace, and the player is seated all the while. */
  lemma ReconnectingRestores(w: World, user: string)
    requires WorldInv(w) && user == w.room.host && w.seat == SeatActive
    ensures MarkDisconnected(w, user).Ok? && Seated(MarkDisconnected(w, user).value.seat)
    ensures MarkConnected(MarkDisconnected(w, user).value, user) == Ok(w)
  {
  }

  /** The debug reset is the host's: no seat, no sessions, no votes, and the identifiers stay used. */
  lemma ResetLaw(w: World, user: string)
    requires WorldInv(w)
    ensures ResetRoom(w, user) ==
            if user == "" then Err(UnauthorizedUser)
            else if user != w.room.host then Err(ForbiddenAction)
            else Ok(World(Room(w.room.host, Waiting, None), NoSeat, Database(w.db.now, map[], w.db.used), map[]))
  {
  }

  // ---- starting ----

  /** One session more, as dealt at this time; everything else is as before. */
  ghost predicate StoresRound(db: Database, db': Database, sid: Sid, roundNo: int, user: string, deck: seq<StoredCard>) {
    var t := NewRound(roundNo, user, deck, db.now);
    t.Ok? && db' == Database(db.now, db.recs[sid := FirstRecord(t.value)], db.used + {sid})
  }

  /**
   The seated host may start a room that is ready, with a new identifier and if the search has found
   the newest session; the new session is as dealt, with the next number.
   */
  lemma StartLaw(w: World, user: string, latest: Option<Sid>, sid: Sid, deck: seq<StoredCard>)
    requires WorldInv(w) && IsLatest(w.db.recs, latest) && GoodDeck(deck)
    ensures StartRoom(w, user, latest, sid, deck).Ok?
            <==> user == w.room.host && Seated(w.seat) && w.room.current.None?
                 && sid !in w.db.used && (latest.Some? ==> IsNewest(w.db.recs, latest.value))
    ensures var a := StartRoom(w, user, latest, sid, deck);
            a.Ok? ==> StoresRound(w.db, a.value.db, sid, |w.db.recs| + 1, user, deck)
                      && a.value == World(Room(w.room.host, Playing, Some(sid)), w.seat, a.value.db, w.votes)
  {
    StartGoesOn(w, user, latest, sid, deck, NextNumber(w.db.recs, latest));
    MayStartLaw(w, user);
    CreateSucceeds(w, user, latest, sid, deck);
  }

  lemma MayStartLaw(w: World, user: string)
    requires WorldInv(w)
    ensures MayStart(w, user) ==
            if user == "" then Some(UnauthorizedUser)
            else if user != w.room.host then Some(ForbiddenAction)
            else if Seated(w.seat) && w.room.current.None? then None
            else Some(InvalidGameState)
  {
  }

  lemma CreateSucceeds(w: World, user: string, latest: Option<Sid>, sid: Sid, deck: seq<StoredCard>)
    requires DbInv(w.db) && SessionsInv(w) && IsLatest(w.db.recs, latest) && GoodDeck(deck)
    ensures var a := CreateSession(w.db, NewSession(sid, user, deck), NextNumber(w.db.recs, latest));
            && (a.Ok? <==> sid !in w.db.used && (latest.Some? ==> IsNewest(w.db.recs, latest.value)))
            && (a.Ok? ==> StoresRound(w.db, a.value, sid, |w.db.recs| + 1, user, deck))
  {
    var k := NextNumber(w.db.recs, latest);
    NumberIsFreeExactly(w.db.recs, latest);
    NewRoundIsGood(k, user, deck, w.db.now);
  }

  lemma NumberIsFreeExactly(recs: map<Sid, Record>, latest: Option<Sid>)
    requires Numbered(recs) && IsLatest(recs, latest)
    ensures NextNumber(recs, latest) > 0
    ensures !RoundTaken(recs, NextNumber(recs, latest)) <==> (latest.Some? ==> IsNewest(recs, latest.value))
    ensures !RoundTaken(recs, NextNumber(recs, latest)) ==> NextNumber(recs, latest) == |recs| + 1
  {
    if !RoundTaken(recs, NextNumber(recs, latest)) {
      FreeNumberIsNext(recs, latest);
    }
  }

  // ---- what is shown ----

  /** The host is shown the current session and what may be done with it; without one there is nothing to show. */
  lemma StateLaw(w: World, user: string)
    requires WorldInv(w)
    ensures GetRoomState(w, user) ==
            if user == "" then Err(UnauthorizedUser)
            else if user != w.room.host then Err(ForbiddenAction)
            else if w.room.current.None? then Ok(None)
            else
              var s := w.db.recs[w.room.current.value].sess;
              Ok(Some(Offer(s.version, s.status == PlayerTurn, s.status == PlayerTurn, s.status == Resetting)))
  {
    if w.room.current.Some? {
      RecordOf(w.db, w.room.current.value);
      ShownStatus(w.db.recs[w.room.current.value]);
    }
  }

  lemma ShownStatus(r: Record)
    requires RecordInv(r)
    ensures r.sess.status == PlayerTurn ==> r.player.status == Active && r.sess.turnSeat == r.player.seatNo
  {
  }

  // ---- counting votes and players ----

  /** Nobody is no agreement, and neither is anybody who has not voted or has refused; only a refusal is a denial. */
  lemma UnanimityLaw(eligible: seq<string>, agree: map<string, bool>)
    ensures RematchUnanimous(eligible, agree) && HasExplicitDenial(eligible, agree) ==> false
    ensures eligible == [] ==> !RematchUnanimous(eligible, agree) && !HasExplicitDenial(eligible, agree)
    ensures (exists u :: u in eligible && u !in agree) ==> !RematchUnanimous(eligible, agree)
    ensures (exists u :: u in eligible && u in agree && !agree[u]) <==> HasExplicitDenial(eligible, agree)
    ensures eligible != [] && !HasExplicitDenial(eligible, agree) && (forall u :: u in eligible ==> u in agree)
            ==> RematchUnanimous(eligible, agree)
  {
  }

  /** At the deadline everybody has an answer, and silence is a refusal. */
  lemma SilenceRefuses(eligible: seq<string>, votes: map<string, bool>, u: string)
    requires u in eligible
    ensures u in AgreeMapAtDeadline(eligible, votes)
    ensures AgreeMapAtDeadline(eligible, votes)[u] <==> u in votes && votes[u]
  {
  }

  /** A room is for one player at most; its status follows from the current session and the player. */
  lemma StatusLaw(active: int, hasSession: bool)
    ensures RecalculateStatus(active, hasSession) ==
            if active < 0 then Err(InvalidInput) else if active > 1 then Err(RoomFull)
            else Ok(if hasSession then Playing else if active == 1 then ReadyToStart else Waiting)
  {
  }

  // ---- votes that are sent again ----

  /** What a known action id answers: a replay for the same request, an error for any other. */
  lemma KnownIdLaw(logs: map<LogKey, Payload>, key: LogKey, payload: Payload)
    ensures CheckIdempotency(logs, key, payload) == Ok(Fresh) <==> key !in logs
    ensures CheckIdempotency(logs, key, payload) == Ok(Replay) <==> key in logs && logs[key] == payload
    ensures CheckIdempotency(logs, key, payload) == Err(DuplicateAction) <==> key in logs && logs[key] != payload
  {
  }

  /**
   A refusal that is sent again, to the same session and with the same version, is answered with success
   and changes nothing; an agreement under its identifier is refused and changes nothing either.
   */
  lemma RefusalSentAgain(w: World, user: string, expected: int, actionId: string, l: Sid, sid: Sid, deck: seq<StoredCard>,
                         agree: bool, sid2: Sid, deck2: seq<StoredCard>)
    requires IsLatest(w.db.recs, Some(l)) && GoodDeck(deck)
    requires VoteFresh(w, user, false, expected, actionId, l)
    ensures var a := VoteRematch(w, user, false, expected, actionId, Some(l), sid, deck);
            && a.Ok? && IsLatest(a.value.db.recs, Some(l))
            && VotesOn(a.value, l)[user := false] == VotesOn(a.value, l) && user in VotesOn(a.value, l)
            && VoteRematch(a.value, user, agree, expected, actionId, Some(l), sid2, deck2)
               == if agree then Err(DuplicateAction) else Ok(a.value)
  {
    RefusalResult(w, user, expected, actionId, Some(l), sid, deck);
    var r' := LogOf(w.db.recs[l], LogKey(user, actionId), VoteAt(false, expected));
    var w' := VoteRematch(w, user, false, expected, actionId, Some(l), sid, deck).value;
    assert w'.db == Put(w.db, l, r');
    VoteInHalves(w', user, agree, expected, actionId, Some(l), sid2, deck2);
    KnownIdLaw(r'.logs, LogKey(user, actionId), VoteAt(agree, expected));
  }

  /** An agreement that is sent again finds a running round, or the old one a version further. */
  lemma AgreementSentAgain(w: World, user: string, expected: int, actionId: string, l: Sid, sid: Sid, deck: seq<StoredCard>,
                           agree: bool, again: Sid, sid2: Sid, deck2: seq<StoredCard>)
    requires WorldInv(w) && IsLatest(w.db.recs, Some(l)) && GoodDeck(deck)
    requires VoteFresh(w, user, true, expected, actionId, l) && VoteRematch(w, user, true, expected, actionId, Some(l), sid, deck).Ok?
    requires again == sid || again == l
    requires IsLatest(VoteRematch(w, user, true, expected, actionId, Some(l), sid, deck).value.db.recs, Some(again))
    ensures VoteRematch(VoteRematch(w, user, true, expected, actionId, Some(l), sid, deck).value,
                        user, agree, expected, actionId, Some(again), sid2, deck2)
            == Err(if again == sid then InvalidGameState else VersionConflict)
  {
    AgreementKeeps(w, user, expected, actionId, Some(l), sid, deck);
    AgreementDeals(w, user, expected, actionId, l, sid, deck);
    VoteInHalves(VoteRematch(w, user, true, expected, actionId, Some(l), sid, deck).value,
                 user, agree, expected, actionId, Some(again), sid2, deck2);
  }

  /** Why a vote under a new identifier is refused. */
  lemma VoteRefusals(w: World, user: string, agree: bool, expected: int, actionId: string,
                     latest: Option<Sid>, sid: Sid, deck: seq<StoredCard>)
    requires WorldInv(w) && IsLatest(w.db.recs, latest) && GoodDeck(deck)
    requires latest.Some? ==> LogKey(user, actionId) !in w.db.recs[latest.value].logs
    requires VoteRematch(w, user, agree, expected, actionId, latest, sid, deck).Err?
    ensures VoteRematch(w, user, agree, expected, actionId, latest, sid, deck).error ==
            if user == "" then UnauthorizedUser
            else if expected <= 0 || actionId == "" then InvalidInput
            else if user != w.room.host || w.seat == NoSeat then ForbiddenAction
            else if latest.None? then NotFound
            else if w.db.recs[latest.value].sess.status != Resetting then InvalidGameState
            else if w.db.recs[latest.value].sess.version != expected then VersionConflict
            else if w.seat == SeatLeft then ForbiddenAction
            else UniqueViolation
  {
    VoteInHalves(w, user, agree, expected, actionId, latest, sid, deck);
    var may := MayVote(w, user, agree, expected, actionId, latest);
    if may == Ok(Fresh) {
      var l := latest.value;
      if agree {
        FailedAgreement(w, user, expected, actionId, l, sid, deck);
      } else {
        RefusalResult(w, user, expected, actionId, latest, sid, deck);
      }
    }
  }

  lemma FailedAgreement(w: World, user: string, expected: int, actionId: string, l: Sid, sid: Sid, deck: seq<StoredCard>)
    requires WorldInv(w) && IsLatest(w.db.recs, Some(l)) && GoodDeck(deck)
    requires VoteFresh(w, user, true, expected, actionId, l)
    requires VoteRematch(w, user, true, expected, actionId, Some(l), sid, deck).Err?
    ensures VoteRematch(w, user, true, expected, actionId, Some(l), sid, deck) == Err(UniqueViolation)
  {
    var n := NewSession(sid, user, deck);
    AgreementKeeps(w, user, expected, actionId, Some(l), sid, deck);
    AgreementResult(w, user, expected, actionId, Some(l), sid, deck);
    RecordOf(w.db, l);
    BumpKeepsRecord(w.db.recs[l], w.db.now);
    var r0 := OpenNextIs(w.db, l, n);
  }

  // ---- HIT and STAND in a room ----

  /** Why a room refuses a HIT or STAND. */
  lemma PlayCallRefusals(w: World, user: string, expected: int, actionId: string, hit: bool)
    requires WorldInv(w) && PlayerTurnCall(w, user, expected, actionId, hit).Err?
    ensures PlayerTurnCall(w, user, expected, actionId, hit).error ==
            if user == "" then UnauthorizedUser
            else if expected <= 0 || actionId == "" then InvalidInput
            else if w.room.current.None? then InvalidGameState
            else if w.db.recs[w.room.current.value].sess.version != expected then VersionConflict
            else if user != w.room.host then ForbiddenAction
            else if w.db.recs[w.room.current.value].sess.status != PlayerTurn then NotPlayerTurn
            else DuplicateAction
  {
    if w.room.current.Some? {
      var c := w.room.current.value;
      RecordOf(w.db, c);
      if user != "" && expected > 0 && actionId != "" {
        PlayerTurnIs(w, c, user, expected, actionId, hit);
        PlayRefusals(w.db.recs[c], user, expected, actionId, hit, w.db.now);
      }
    }
  }

  /** The worker's calls find nothing to do for a session that is gone. */
  lemma GoneSessionLaw(w: World, s: Sid, heuristic: bool, sid: Sid, deck: seq<StoredCard>)
    requires s !in w.db.recs
    ensures PlayerStandCall(w, s, heuristic) == Err(NotFound) && DealerTurnCall(w, s) == Err(NotFound)
    ensures ProcessRematchDeadline(w, s, sid, deck) == Err(NotFound)
  {
  }

  // ---- HIT and STAND that are sent again ----

  /** At its look at the log a call goes on, ends well or ends with an error, as the log says. */
  lemma CheckLogLaw(c: Call, db: Database)
    requires c.kind.PlayCall? && c.sess.Some? && c.player.Some? && c.sid in db.recs
    requires CanHitOrStand(c.sess.value, c.player.value, c.kind.user).None?
    ensures var key, logs := LogKey(c.kind.user, c.kind.actionId), db.recs[c.sid].logs;
            var request := if c.kind.hit then HitAt(c.kind.expected) else StandAt(c.kind.expected);
            AfterCheckLog(c, db) ==
            if key !in logs then GoOn else if logs[key] == request then Done else Failed(DuplicateAction)
  {
  }

  /**
   Two sends of one action that both read before the first of them commits: the second ends well at the
   log, without any effect, exactly if it is the same request.
   */
  lemma ConcurrentResend(c: Call, db: Database, second: Call)
    requires DbInv(db) && CallInv(c, db) && Ready(c) && c.sid in db.recs && c.kind.PlayCall?
    requires CommitRecord(c, db.recs[c.sid]).Ok?
    requires second.kind.PlayCall? && second.sid == c.sid && second.sess == c.sess && second.player == c.player
    requires second.kind.user == c.kind.user && second.kind.actionId == c.kind.actionId
    ensures var db' := Put(db, c.sid, CommitRecord(c, db.recs[c.sid]).value);
            AfterCheckLog(second, db') ==
            if second.kind.hit == c.kind.hit && second.kind.expected == c.kind.expected then Done else Failed(DuplicateAction)
  {
    CommitIsAtomic(c, db);
    RecordOf(db, c.sid);
    PlayRecordAnswers(db.recs[c.sid], c.kind.user, c.kind.expected, c.kind.actionId, c.kind.hit, c.at.value);
    CheckLogLaw(second, Put(db, c.sid, CommitRecord(c, db.recs[c.sid]).value));
  }
}
