/** What holds in a room over every run of whole calls, and what its players are offered. */
module RoomRuns {
  import opened Wrappers
  import opened Cards
  import opened Shuffle
  import opened Hands
  import opened Policies
  import opened Rounds
  import opened RoundInvariant
  import opened SessionStore
  import opened RoundSteps
  import opened AtomicSessions
  import opened Rooms
  import opened RoomInvariant
  import opened RoomSteps
  import opened RoomTables

  // ---- the room stays consistent, call by call ----

  /** A refusal that reaches a finished round while another round is running. */
  ghost predicate Disrupts(w: World, call: RoomCall) {
    Sound(w, call) && match call
      case Vote(user, agree, expected, actionId, latest, _, _) => LosesRound(w, user, agree, expected, actionId, latest)
      case _ => false
  }

  /** Whatever is called and whatever the clock does, the room stays consistent exactly unless the call disrupts it. */
  lemma CallKeeps(w: World, call: RoomCall)
    requires WorldInv(w) && Sound(w, call) && Invoke(w, call).Ok?
    ensures WorldInv(Invoke(w, call).value) <==> !Disrupts(w, call)
  {
    match call
    case Join(user) => JoinKeeps(w, user);
    case Leave(user) => LeaveKeeps(w, user);
    case Connect(user) => ConnectionKeeps(w, user);
    case Disconnect(user) => ConnectionKeeps(w, user);
    case Start(user, latest, sid, deck) => StartKeeps(w, user, latest, sid, deck);
    case Play(user, expected, actionId, hit) => PlayKeeps(w, user, expected, actionId, hit);
    case Vote(user, agree, expected, actionId, latest, sid, deck) =>
      VoteKeeps(w, user, agree, expected, actionId, latest, sid, deck);
    case TurnTimeout(s, heuristic) => StandKeeps(w, s, heuristic);
    case DealerMoves(s) =>
      if s in w.db.recs && w.db.recs[s].sess.status == DealerTurn {
        DealerKeeps(w, s);
      }
    case RematchTimeout(s, sid, deck) => DeadlineKeeps(w, s, sid, deck);
    case Reset(user) => ResetKeeps(w, user);
    case Advance(now) => AdvanceKeeps(w, if now >= w.db.now then now else w.db.now);
  }

  /** The same for a call that may fail: then nothing happens. */
  lemma StepKeeps(w: World, call: RoomCall)
    requires WorldInv(w)
    ensures WorldInv(After(w, call)) <==> !Disrupts(w, call)
  {
    if Disrupts(w, call) {
      RefusalLosesRound(w, call.user, call.expected, call.actionId, call.latest, call.sid, call.deck);
    }
    if Sound(w, call) && Invoke(w, call).Ok? {
      CallKeeps(w, call);
    }
  }

  // ---- runs ----

  ghost predicate Undisrupted(w: World, calls: seq<RoomCall>) {
    forall i :: 0 <= i < |calls| ==> !Disrupts(RoomRun(w, calls[..i]), calls[i])
  }

  ghost predicate ConsistentThroughout(w: World, calls: seq<RoomCall>) {
    forall i :: 0 <= i <= |calls| ==> WorldInv(RoomRun(w, calls[..i]))
  }

  lemma PrefixRun(w: World, calls: seq<RoomCall>, i: nat)
    requires i < |calls|
    ensures RoomRun(w, calls[..i + 1]) == After(RoomRun(w, calls[..i]), calls[i])
  {
    assert calls[..i + 1][..i] == calls[..i];
  }

  lemma {:induction false} UndisruptedUpTo(w: World, calls: seq<RoomCall>, k: nat)
    requires WorldInv(w) && Undisrupted(w, calls) && k <= |calls|
    ensures WorldInv(RoomRun(w, calls[..k]))
  {
    if k > 0 {
      var mid := RoomRun(w, calls[..k - 1]);
      UndisruptedUpTo(w, calls, k - 1);
      PrefixRun(w, calls, k - 1);
      assert !Disrupts(mid, calls[k - 1]);
      StepKeeps(mid, calls[k - 1]);
    }
  }

  /** A run is consistent in every state it passes exactly if none of its calls disrupts the room. */
  lemma RunIsConsistentExactly(w: World, calls: seq<RoomCall>)
    requires WorldInv(w)
    ensures ConsistentThroughout(w, calls) <==> Undisrupted(w, calls)
  {
    if Undisrupted(w, calls) {
      forall i | 0 <= i <= |calls| ensures WorldInv(RoomRun(w, calls[..i])) {
        UndisruptedUpTo(w, calls, i);
      }
    }
    if ConsistentThroughout(w, calls) {
      forall i | 0 <= i < |calls| ensures !Disrupts(RoomRun(w, calls[..i]), calls[i]) {
        PrefixRun(w, calls, i);
        assert WorldInv(RoomRun(w, calls[..i + 1]));
        assert WorldInv(RoomRun(w, calls[..i]));
        StepKeeps(RoomRun(w, calls[..i]), calls[i]);
      }
    }
  }

  /**
   In every state of a run that no refusal disrupts, at most one session is running, it is the
   current one, and it is the newest.
   */
  lemma RoomStaysConsistent(host: string, start: Time, calls: seq<RoomCall>)
    requires host != "" && start > 0 && Undisrupted(NewRoom(host, start), calls)
    ensures var w := RoomRun(NewRoom(host, start), calls);
            var recs := w.db.recs;
            && (forall s, u :: s in recs && u in recs
                  ==> recs[s].sess.status != Resetting ==> recs[u].sess.status != Resetting ==> s == u)
            && (forall s :: s in recs && recs[s].sess.status != Resetting ==> w.room.current == Some(s))
            && (w.room.current.Some? ==> IsNewest(recs, w.room.current.value))
  {
    NewRoomIsGood(host, start);
    UndisruptedUpTo(NewRoom(host, start), calls, |calls|);
    assert calls[..|calls|] == calls;
  }

  // ---- a clock that moves between two rounds rules the disruption out ----

  /** Two rounds of a room are never created at the same instant. */
  ghost predicate ClockMoves(w: World, call: RoomCall) {
    call.Start? || call.Vote? ==> Timely(w)
  }

  ghost predicate ClockMovesAlong(w: World, calls: seq<RoomCall>) {
    forall i :: 0 <= i < |calls| ==> ClockMoves(RoomRun(w, calls[..i]), calls[i])
  }

  lemma OrderPreventsLoss(w: World, call: RoomCall)
    requires WorldInv(w) && CreatedInOrder(w.db.recs)
    ensures !Disrupts(w, call)
  {
    if Disrupts(w, call) {
      LatestIsNewest(w, call.latest);
      NewestDone(w, call.latest.value);
    }
  }

  lemma OrderFollows(db: Database, db': Database, host: string)
    requires CreatedInOrder(db.recs) && db.recs.Keys <= db.used && Evolves(db, db') && Numbered(db.recs)
    requires NoNewSession(db, db')
             || ((forall s :: s in db.recs ==> db.recs[s].sess.createdAt < db.now) && NextSessions(db, db', host))
    ensures CreatedInOrder(db'.recs)
  {
    assert forall s :: s in db'.recs && s in db.recs ==> SameRound(db.recs[s].sess, db'.recs[s].sess);
  }

  lemma OrderKept(w: World, call: RoomCall)
    requires WorldInv(w) && CreatedInOrder(w.db.recs) && ClockMoves(w, call)
    ensures CreatedInOrder(After(w, call).db.recs)
  {
    if Sound(w, call) && Invoke(w, call).Ok? {
      CallKeepsTables(w, call);
      CallNextSessions(w, call);
      if !call.Start? && !call.Vote? {
        OthersOpenNothing(w, call);
      }
      OrderFollows(w.db, After(w, call).db, w.room.host);
    }
  }

  lemma {:induction false} InOrderUpTo(w: World, calls: seq<RoomCall>, k: nat)
    requires WorldInv(w) && CreatedInOrder(w.db.recs) && ClockMovesAlong(w, calls) && k <= |calls|
    ensures WorldInv(RoomRun(w, calls[..k])) && CreatedInOrder(RoomRun(w, calls[..k]).db.recs)
  {
    if k > 0 {
      InOrderUpTo(w, calls, k - 1);
      var mid := RoomRun(w, calls[..k - 1]);
      PrefixRun(w, calls, k - 1);
      OrderPreventsLoss(mid, calls[k - 1]);
      StepKeeps(mid, calls[k - 1]);
      OrderKept(mid, calls[k - 1]);
    }
  }

  /** If the clock moves on between the rounds of a room, nothing ever disrupts it. */
  lemma MovingClockIsEnough(host: string, start: Time, calls: seq<RoomCall>)
    requires host != "" && start > 0 && ClockMovesAlong(NewRoom(host, start), calls)
    ensures Undisrupted(NewRoom(host, start), calls)
  {
    var w := NewRoom(host, start);
    NewRoomIsGood(host, start);
    forall i | 0 <= i < |calls| ensures !Disrupts(RoomRun(w, calls[..i]), calls[i]) {
      InOrderUpTo(w, calls, i);
      OrderPreventsLoss(RoomRun(w, calls[..i]), calls[i]);
    }
  }

  /** An agreement keeps the creation times in order exactly when the clock has moved since the last round. */
  lemma OrderNeedsMovingClock(w: World, n: NewSession, r: Record)
    requires SessionsInv(w) && CreatedInOrder(w.db.recs) && n.sid !in w.db.recs
    requires IsFirst(r, n, |w.db.recs| + 1, w.db.now)
    ensures CreatedInOrder(Added(w.db, n, r).recs) <==> Timely(w)
  {
    var recs' := Added(w.db, n, r).recs;
    if Timely(w) {
      AddKeepsOrder(w.db, n, r);
    } else {
      var s :| s in w.db.recs && w.db.recs[s].sess.createdAt >= w.db.now;
      assert recs'[s].sess.roundNo < recs'[n.sid].sess.roundNo;
    }
  }

  // ---- what players are offered ----

  datatype Offer = Offer(version: int, canHit: bool, canStand: bool, canRematch: bool)

  /** The state sent to a user: nothing to do without a session, and an error for strangers. */
  function GetRoomState(w: World, user: string): Result<Option<Offer>, Error> {
    if user == "" then Err(UnauthorizedUser)
    else if w.room.host != user then Err(ForbiddenAction)
    else if w.room.current.None? || w.room.current.value !in w.db.recs then Ok(None)
    else
      var r := w.db.recs[w.room.current.value];
      var can := r.player.userId == user && r.player.status == Active && r.sess.status == PlayerTurn
                 && r.sess.turnSeat == r.player.seatNo;
      Ok(Some(Offer(r.sess.version, can, can, r.sess.status == Resetting)))
  }

  /** HIT and STAND with the shown version and a new action id are accepted exactly when they are offered. */
  lemma OfferedPlaysAreAccepted(w: World, user: string, offer: Offer, actionId: string, hit: bool)
    requires WorldInv(w) && GetRoomState(w, user) == Ok(Some(offer))
    requires actionId != "" && LogKey(user, actionId) !in w.db.recs[w.room.current.value].logs
    ensures PlayerTurnCall(w, user, offer.version, actionId, hit).Ok?
            <==> if hit then offer.canHit else offer.canStand
  {
    var r := w.db.recs[w.room.current.value];
    PlayRecordAnswers(r, user, offer.version, actionId, hit, w.db.now);
    CurrentVersionIsPositive(r);
  }

  lemma CurrentVersionIsPositive(r: Record)
    requires RecordInv(r)
    ensures r.sess.version >= 1
  {
  }

  /** The search by creation time is sure to answer with the current session if no other shares its instant. */
  lemma LatestIsCurrent(w: World, latest: Option<Sid>)
    requires WorldInv(w) && w.room.current.Some? && NewestIsLast(w.db.recs) && IsLatest(w.db.recs, latest)
    ensures latest == w.room.current
  {
    LatestIsNewestExactly(w.db.recs);
  }

  /**
   A vote with the shown version and a new action id that reaches the current session is accepted
   exactly when it is offered; an agreement that reaches any other session never is.
   */
  lemma OfferedVotesAreAccepted(w: World, user: string, offer: Offer, actionId: string, agree: bool,
                                latest: Option<Sid>, sid: Sid, deck: seq<StoredCard>)
    requires WorldInv(w) && GetRoomState(w, user) == Ok(Some(offer))
    requires actionId != "" && forall s :: s in w.db.recs ==> LogKey(user, actionId) !in w.db.recs[s].logs
    requires IsLatest(w.db.recs, latest) && sid !in w.db.used && GoodDeck(deck)
    requires agree || latest == w.room.current
    ensures VoteRematch(w, user, agree, offer.version, actionId, latest, sid, deck).Ok?
            <==> offer.canRematch && latest == w.room.current
  {
    CurrentVersionIsPositive(w.db.recs[w.room.current.value]);
    VoteAcceptedExactly(w, user, agree, offer.version, actionId, latest, sid, deck);
  }

  /** A refusal does not use up the session: the same player may still agree, with the same version. */
  lemma AgreementAfterRefusal(w: World, user: string, expected: int, refusalId: string, actionId: string,
                              latest: Option<Sid>, sid: Sid, deck: seq<StoredCard>)
    requires WorldInv(w) && IsLatest(w.db.recs, latest) && GoodDeck(deck) && latest.Some? && sid !in w.db.used
    requires IsNewest(w.db.recs, latest.value)
    requires VoteFresh(w, user, false, expected, refusalId, latest.value)
    requires VoteFresh(w, user, true, expected, actionId, latest.value) && actionId != refusalId
    ensures var a := VoteRematch(w, user, false, expected, refusalId, latest, sid, deck);
            && a.Ok? && a.value.room.current.None? && IsLatest(a.value.db.recs, latest)
            && VoteRematch(a.value, user, true, expected, actionId, latest, sid, deck).Ok?
  {
    var l := latest.value;
    NewestDone(w, l);
    RefusalKeeps(w, user, expected, refusalId, latest, sid, deck);
    RefusalResult(w, user, expected, refusalId, latest, sid, deck);
    var w' := VoteRematch(w, user, false, expected, refusalId, latest, sid, deck).value;
    assert w'.db == Put(w.db, l, LogOf(w.db.recs[l], LogKey(user, refusalId), VoteAt(false, expected)));
    assert VoteFresh(w', user, true, expected, actionId, l);
    AgreementKeeps(w', user, expected, actionId, latest, sid, deck);
  }
}
