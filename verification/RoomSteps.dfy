/** Every call keeps the room's invariant. */
module RoomSteps {
  import opened Wrappers
  import opened Cards
  import opened Shuffle
  import opened Hands
  import opened Policies
  import opened Rounds
  import opened RoundInvariant
  import opened SessionStore
  import opened RoundSteps
  import opened AtomicSessions
  import opened Rooms
  import opened RoomInvariant

  // ---- calls that only touch the seat ----

  lemma JoinKeeps(w: World, user: string)
    requires RoomInv(w) && JoinRoom(w, user).Ok?
    ensures RoomInv(JoinRoom(w, user).value) && JoinRoom(w, user).value.db == w.db
  {
  }

  lemma LeaveKeeps(w: World, user: string)
    requires RoomInv(w) && LeaveRoom(w, user).Ok?
    ensures RoomInv(LeaveRoom(w, user).value) && LeaveRoom(w, user).value.db == w.db
  {
  }

  /** Losing and regaining the connection never changes who is seated. */
  lemma ConnectionKeeps(w: World, user: string)
    requires RoomInv(w)
    ensures MarkConnected(w, user).Ok? ==>
              RoomInv(MarkConnected(w, user).value) && MarkConnected(w, user).value.db == w.db
    ensures MarkDisconnected(w, user).Ok? ==>
              RoomInv(MarkDisconnected(w, user).value) && MarkDisconnected(w, user).value.db == w.db
  {
  }

  lemma ResetKeeps(w: World, user: string)
    requires WorldInv(w) && ResetRoom(w, user).Ok?
    ensures WorldInv(ResetRoom(w, user).value)
  {
  }

  lemma AdvanceKeeps(w: World, now: Time)
    requires WorldInv(w) && now >= w.db.now
    ensures WorldInv(w.(db := w.db.(now := now)))
  {
    TickKeepsDbInv(w.db, now);
  }

  // ---- calls on one record ----

  lemma PutKeepsWorldInv(w: World, sid: Sid, r': Record)
    requires WorldInv(w) && sid in w.db.recs && RecordInv(r') && Follows(w.db.recs[sid], r')
    ensures WorldInv(w.(db := Put(w.db, sid, r')))
  {
    PutKeeps(w.db, sid, r', RecordInv);
    PutKeepsRoomInv(w, sid, r');
  }

  /** In the room a HIT or STAND is accepted as it is on the record of the current session. */
  lemma PlayerTurnIs(w: World, c: Sid, user: string, expected: int, actionId: string, hit: bool)
    requires w.room.current == Some(c) && c in w.db.recs && user != "" && expected > 0 && actionId != ""
    ensures var a := PlayRecord(w.db.recs[c], user, expected, actionId, hit, w.db.now);
            (PlayerTurnCall(w, user, expected, actionId, hit).Ok? <==> a.Ok?)
            && (a.Err? ==> PlayerTurnCall(w, user, expected, actionId, hit) == Err(a.error))
  {
  }

  /** A HIT or STAND that is accepted, seen from the room. */
  lemma PlayKeeps(w: World, user: string, expected: int, actionId: string, hit: bool)
    requires WorldInv(w) && PlayerTurnCall(w, user, expected, actionId, hit).Ok?
    ensures w.room.current.Some? && w.room.current.value in w.db.recs
    ensures var sid := w.room.current.value;
            var a := PlayRecord(w.db.recs[sid], user, expected, actionId, hit, w.db.now);
            a.Ok? && PlayerTurnCall(w, user, expected, actionId, hit) == Ok(w.(db := Put(w.db, sid, a.value)))
    ensures WorldInv(PlayerTurnCall(w, user, expected, actionId, hit).value)
  {
    var sid := w.room.current.value;
    var r := w.db.recs[sid];
    PlayRecordAnswers(r, user, expected, actionId, hit, w.db.now);
    RecordOpsGrow(r, sid, user, expected, actionId, hit, w.db.now);
    var r' := PlayRecord(r, user, expected, actionId, hit, w.db.now).value;
    PutKeepsWorldInv(w, sid, r');
    SameRoomAgain(w.(db := Put(w.db, sid, r')), sid);
  }

  lemma StandKeeps(w: World, sid: Sid, heuristic: bool)
    requires WorldInv(w) && PlayerStandCall(w, sid, heuristic).Ok?
    ensures WorldInv(PlayerStandCall(w, sid, heuristic).value)
  {
    var r := w.db.recs[sid];
    if TurnIsDue(r.sess, w.db.now) {
      if AutoHits(r, heuristic) {
        PlayKeeps(w, r.player.userId, r.sess.version, AutoHitId(sid, r.sess.version), true);
      } else {
        ForfeitKeeps(w, sid);
      }
    }
  }

  lemma ForfeitKeeps(w: World, sid: Sid)
    requires WorldInv(w) && sid in w.db.recs && TurnIsDue(w.db.recs[sid].sess, w.db.now)
    requires ForfeitRecord(sid, w.db.recs[sid], w.db.now).Ok?
    ensures var w1 := w.(db := Put(w.db, sid, ForfeitRecord(sid, w.db.recs[sid], w.db.now).value));
            WorldInv(w1) && WithRoom(w1, Some(sid), 1) == Ok(w1)
  {
    var r := w.db.recs[sid];
    RecordOpsGrow(r, sid, "", 0, "", false, w.db.now);
    var r' := ForfeitRecord(sid, r, w.db.now).value;
    RunningIsCurrent(w, sid);
    PutKeepsWorldInv(w, sid, r');
    SameRoomAgain(w.(db := Put(w.db, sid, r')), sid);
  }

  lemma DealerKeeps(w: World, sid: Sid)
    requires WorldInv(w) && sid in w.db.recs && w.db.recs[sid].sess.status == DealerTurn
    ensures DealerRecord(w.db.recs[sid], w.db.now).Ok?
    ensures var w1 := w.(db := Put(w.db, sid, DealerRecord(w.db.recs[sid], w.db.now).value));
            DealerTurnCall(w, sid) == Ok(w1) && WorldInv(w1)
  {
    var r := w.db.recs[sid];
    DealerRecordAnswers(r, w.db.now);
    RecordOpsGrow(r, sid, "", 0, "", false, w.db.now);
    var r' := DealerRecord(r, w.db.now).value;
    RunningIsCurrent(w, sid);
    PutKeepsWorldInv(w, sid, r');
    SameRoomAgain(w.(db := Put(w.db, sid, r')), sid);
  }

  // ---- calls that start a round ----

  lemma NewCurrent(w: World, sid: Sid)
    ensures WithRoom(w, Some(sid), 1) == Ok(w.(room := Room(w.room.host, Playing, Some(sid))))
  {
  }

  ghost predicate WorldOk(w: World, good: Record -> bool) {
    AllRecords(w.db, good) && RoomInv(w)
  }

  /** A room whose rounds are all over takes the next number for a new one. */
  lemma AddKeepsWorld(w: World, n: NewSession, r: Record, good: Record -> bool)
    requires AllRecords(w.db, good) && SessionsInv(w) && AllFinished(w)
    requires Seated(w.seat) && n.user == w.room.host && good(r)
    requires CanCreate(w.db, n, |w.db.recs| + 1) && IsFirst(r, n, |w.db.recs| + 1, w.db.now)
    ensures WithRoom(w.(db := Added(w.db, n, r)), Some(n.sid), 1).Ok?
    ensures WorldOk(WithRoom(w.(db := Added(w.db, n, r)), Some(n.sid), 1).value, good)
  {
    AddKeeps(w.db, n, r, good);
    AddKeepsRoomInv(w, n, r);
    NewCurrent(w.(db := Added(w.db, n, r)), n.sid);
  }

  lemma NoneRunning(w: World)
    requires OnlyCurrentRuns(w)
    requires w.room.current.None?
             || (w.room.current.value in w.db.recs && w.db.recs[w.room.current.value].sess.status == Resetting)
    ensures AllFinished(w)
  {
  }

  /** When a start is accepted the room is ready and no round is running. */
  lemma StartAccepted(w: World, user: string, latest: Option<Sid>, sid: Sid, deck: seq<StoredCard>)
    requires IsLatest(w.db.recs, latest) && GoodDeck(deck) && StartRoom(w, user, latest, sid, deck).Ok?
    ensures var a := CreateSession(w.db, NewSession(sid, user, deck), NextNumber(w.db.recs, latest));
            a.Ok? && StartRoom(w, user, latest, sid, deck) == WithRoom(w.(db := a.value), Some(sid), 1)
    ensures w.room.current.None? && Seated(w.seat) && user == w.room.host && w.room.status == ReadyToStart
  {
  }

  lemma StartKeeps(w: World, user: string, latest: Option<Sid>, sid: Sid, deck: seq<StoredCard>)
    requires WorldInv(w) && IsLatest(w.db.recs, latest) && GoodDeck(deck)
    requires StartRoom(w, user, latest, sid, deck).Ok?
    ensures WorldInv(StartRoom(w, user, latest, sid, deck).value)
  {
    StartAccepted(w, user, latest, sid, deck);
    NoneRunning(w);
    var n := NewSession(sid, user, deck);
    var r := CreateSessionIs(w.db, n, NextNumber(w.db.recs, latest));
    FreeNumberIsNext(w.db.recs, latest);
    AddKeepsWorld(w, n, r, RecordInv);
  }

  // ---- the rematch ----

  lemma FailureKeeps(w: World)
    requires RoomInv(w) && AllFinished(w)
    ensures FinalizeRematchFailure(w).Ok?
    ensures var w' := FinalizeRematchFailure(w).value;
            RoomInv(w') && w'.db == w.db && w'.room.current.None? && w'.seat == w.seat && w'.votes == w.votes
  {
  }

  lemma OpenNextFromRoom(w: World, s: Sid, n: NewSession)
    requires WorldInv(w) && AllFinished(w) && Seated(w.seat) && n.user == w.room.host
    requires s in w.db.recs && w.db.recs[s].sess.roundNo == |w.db.recs| && GoodDeck(n.deck)
    ensures var a := OpenNextRound(w.db, s, w.db.recs[s].sess, n);
            && (a.Ok? <==> n.sid !in w.db.used)
            && (a.Ok? ==> WithRoom(w.(db := a.value), Some(n.sid), 1).Ok?
                          && WorldInv(WithRoom(w.(db := a.value), Some(n.sid), 1).value))
  {
    var r := w.db.recs[s];
    var r' := r.(sess := Bumped(r.sess));
    var r0 := OpenNextIs(w.db, s, n);
    BumpKeepsRecord(r, w.db.now);
    NextNumberIsFree(w);
    if n.sid !in w.db.used {
      OpenNextKeepsWorld(w, s, n, r', r0, RecordInv);
    }
  }

  lemma NextNumberIsFree(w: World)
    requires Numbered(w.db.recs)
    ensures !RoundTaken(w.db.recs, |w.db.recs| + 1)
  {
  }

  lemma OpenNextKeepsWorld(w: World, s: Sid, n: NewSession, r': Record, r0: Record, good: Record -> bool)
    requires WorldOk(w, good) && AllFinished(w) && Seated(w.seat) && n.user == w.room.host
    requires s in w.db.recs && good(r') && Follows(w.db.recs[s], r') && good(r0)
    requires CanCreate(w.db, n, |w.db.recs| + 1) && IsFirst(r0, n, |w.db.recs| + 1, w.db.now)
    ensures var w' := WithRoom(w.(db := Added(Put(w.db, s, r'), n, r0)), Some(n.sid), 1);
            w'.Ok? && WorldOk(w'.value, good)
  {
    var w1 := w.(db := Put(w.db, s, r'));
    PutKeeps(w.db, s, r', good);
    PutKeepsRoomInv(w, s, r');
    PutKeepsNumbers(w.db, s, r');
    NumbersUnchanged(w.db, s, r', |w.db.recs| + 1);
    AddKeepsWorld(w1, n, r0, good);
  }

  lemma NewestDone(w: World, l: Sid)
    requires DbInv(w.db) && RoomInv(w) && l in w.db.recs
    requires w.db.recs[l].sess.roundNo == |w.db.recs| && w.db.recs[l].sess.status == Resetting
    ensures AllFinished(w)
  {
    forall s | s in w.db.recs ensures w.db.recs[s].sess.status == Resetting {
      if s != l {
        assert w.db.recs[s].sess.roundNo != w.db.recs[l].sess.roundNo;
      }
    }
  }

  /** With one seat a vote of the seated player decides at once. */
  lemma OneVoteDecides(w: World, l: Sid, user: string, agree: bool, n: NewSession)
    requires user in Eligible(w)
    ensures EffectOfVote(w, l, user, agree, n) == if agree then OpenNext(n) else Refuse
    ensures user == w.room.host && Seated(w.seat) && Eligible(w) == [user]
  {
    var agreeMap := VotesOn(w, l)[user := agree];
    assert agreeMap[user] == agree && user in Eligible(w);
  }

  ghost predicate VoteFresh(w: World, user: string, agree: bool, expected: int, actionId: string, l: Sid) {
    && l in w.db.recs && w.db.recs[l].sess.status == Resetting && w.db.recs[l].sess.version == expected > 0
    && LogKey(user, actionId) !in w.db.recs[l].logs
    && user in Eligible(w) && user != "" && actionId != ""
  }

  function WithVote(w: World, l: Sid, user: string, agree: bool): World {
    w.(votes := w.votes[l := VotesOn(w, l)[user := agree]])
  }

  function LogOf(r: Record, key: LogKey, payload: Payload): Record { r.(logs := r.logs[key := payload]) }

  /** A vote succeeds without any change only as the replay of an earlier one. */
  lemma VoteOkIsFreshOrReplay(w: World, user: string, agree: bool, expected: int, actionId: string,
                              latest: Option<Sid>, sid: Sid, deck: seq<StoredCard>)
    requires IsLatest(w.db.recs, latest) && GoodDeck(deck)
    requires VoteRematch(w, user, agree, expected, actionId, latest, sid, deck).Ok?
    ensures latest.Some?
    ensures VoteFresh(w, user, agree, expected, actionId, latest.value)
            || VoteRematch(w, user, agree, expected, actionId, latest, sid, deck) == Ok(w)
  {
  }

  /** A refusal writes the vote and its log, and releases the room. */
  lemma RefusalResult(w: World, user: string, expected: int, actionId: string,
                      latest: Option<Sid>, sid: Sid, deck: seq<StoredCard>)
    requires IsLatest(w.db.recs, latest) && GoodDeck(deck) && latest.Some?
    requires VoteFresh(w, user, false, expected, actionId, latest.value)
    ensures var l := latest.value;
            var r' := LogOf(w.db.recs[l], LogKey(user, actionId), VoteAt(false, expected));
            VoteRematch(w, user, false, expected, actionId, latest, sid, deck)
            == FinalizeRematchFailure(WithVote(w.(db := Put(w.db, l, r')), l, user, false))
  {
    OneVoteDecides(w, latest.value, user, false, NewSession(sid, Eligible(w)[0], deck));
  }

  /** An agreement opens the next round and then logs the vote on the finished one. */
  lemma AgreementResult(w: World, user: string, expected: int, actionId: string,
                        latest: Option<Sid>, sid: Sid, deck: seq<StoredCard>)
    requires IsLatest(w.db.recs, latest) && GoodDeck(deck) && latest.Some?
    requires VoteFresh(w, user, true, expected, actionId, latest.value)
    ensures var l := latest.value;
            var a := OpenNextRound(w.db, l, Deadlined(w.db.recs[l].sess, w.db.now), NewSession(sid, user, deck));
            VoteRematch(w, user, true, expected, actionId, latest, sid, deck)
            == (match a
                case Err(e) => Err(e)
                case Ok(db1) =>
                  match AddLog(db1, l, LogKey(user, actionId), VoteAt(true, expected))
                  case Err(e) => Err(e)
                  case Ok(db2) => WithRoom(WithVote(w.(db := db2), l, user, true), Some(sid), 1))
  {
    OneVoteDecides(w, latest.value, user, true, NewSession(sid, user, deck));
  }

  lemma VoteRowKeeps(w: World, l: Sid, user: string, agree: bool)
    requires WorldInv(w) && l in w.db.used && w.room.current != Some(l)
    ensures WorldInv(WithVote(w, l, user, agree))
  {
  }

  lemma LogKeeps(w: World, l: Sid, key: LogKey, payload: Payload)
    requires WorldInv(w) && l in w.db.recs && payload.VoteAt? && key !in w.db.recs[l].logs
    ensures WorldInv(w.(db := Put(w.db, l, LogOf(w.db.recs[l], key, payload))))
  {
    VoteLogKeepsRecord(w.db.recs[l], key, payload);
    PutKeepsWorldInv(w, l, LogOf(w.db.recs[l], key, payload));
  }

  lemma ReleaseKeeps(w: World)
    requires WorldInv(w) && AllFinished(w)
    ensures FinalizeRematchFailure(w).Ok? && WorldInv(FinalizeRematchFailure(w).value)
    ensures FinalizeRematchFailure(w).value.room.current.None?
  {
    FailureKeeps(w);
  }

  lemma ReleaseAndVoteCommute(w: World, l: Sid, user: string, agree: bool)
    ensures FinalizeRematchFailure(w).Ok?
    ensures FinalizeRematchFailure(WithVote(w, l, user, agree))
            == Ok(WithVote(FinalizeRematchFailure(w).value, l, user, agree))
  {
  }

  /** A refusal is harmless when no round is running. */
  lemma RefusalKeeps(w: World, user: string, expected: int, actionId: string,
                     latest: Option<Sid>, sid: Sid, deck: seq<StoredCard>)
    requires WorldInv(w) && IsLatest(w.db.recs, latest) && GoodDeck(deck) && latest.Some?
    requires AllFinished(w) && VoteFresh(w, user, false, expected, actionId, latest.value)
    ensures var a := VoteRematch(w, user, false, expected, actionId, latest, sid, deck);
            a.Ok? && WorldInv(a.value) && a.value.room.current.None? && a.value.room.status == ReadyToStart
  {
    var l := latest.value;
    var key, payload := LogKey(user, actionId), VoteAt(false, expected);
    LogKeeps(w, l, key, payload);
    var w1 := w.(db := Put(w.db, l, LogOf(w.db.recs[l], key, payload)));
    LogKeepsFinished(w, l, key, payload);
    ReleaseKeeps(w1);
    ReleaseAndVoteCommute(w1, l, user, false);
    VoteRowKeeps(FinalizeRematchFailure(w1).value, l, user, false);
    RefusalResult(w, user, expected, actionId, latest, sid, deck);
  }

  lemma LogKeepsFinished(w: World, l: Sid, key: LogKey, payload: Payload)
    requires AllFinished(w) && l in w.db.recs
    ensures AllFinished(w.(db := Put(w.db, l, LogOf(w.db.recs[l], key, payload))))
  {
  }

  /** Without the newest session's number there is no next round: it has been played already. */
  lemma OpenNextNeedsNewest(db: Database, s: Sid, n: NewSession)
    requires Numbered(db.recs) && s in db.recs && s in db.used && GoodDeck(n.deck)
    ensures !IsNewest(db.recs, s) ==> OpenNextRound(db, s, db.recs[s].sess, n) == Err(UniqueViolation)
  {
    var r0 := OpenNextIs(db, s, n);
    if !IsNewest(db.recs, s) {
      assert RoundTaken(db.recs, db.recs[s].sess.roundNo + 1);
    }
  }

  /**
   An agreement succeeds exactly when the session it reaches is the newest one and the new session's
   identifier is new; then the new session is the current one and the only one running.
   */
  lemma AgreementKeeps(w: World, user: string, expected: int, actionId: string,
                       latest: Option<Sid>, sid: Sid, deck: seq<StoredCard>)
    requires WorldInv(w) && IsLatest(w.db.recs, latest) && GoodDeck(deck) && latest.Some?
    requires VoteFresh(w, user, true, expected, actionId, latest.value)
    ensures var a := VoteRematch(w, user, true, expected, actionId, latest, sid, deck);
            && (a.Ok? <==> IsNewest(w.db.recs, latest.value) && sid !in w.db.used)
            && (a.Ok? ==> WorldInv(a.value) && a.value.room.current == Some(sid))
  {
    var l, n := latest.value, NewSession(sid, user, deck);
    var key, payload := LogKey(user, actionId), VoteAt(true, expected);
    AgreementResult(w, user, expected, actionId, latest, sid, deck);
    RecordOf(w.db, l);
    BumpKeepsRecord(w.db.recs[l], w.db.now);
    OpenNextNeedsNewest(w.db, l, n);
    if IsNewest(w.db.recs, l) {
      NewestDone(w, l);
      OpenNextFromRoom(w, l, n);
      OpenNextKeepsDbInv(w.db, l, n);
      var a := OpenNextRound(w.db, l, w.db.recs[l].sess, n);
      if a.Ok? {
        LogAfterOpening(w, a.value, l, sid, key, payload, user);
      }
    }
  }

  lemma LogAfterOpening(w: World, db1: Database, l: Sid, sid: Sid, key: LogKey, payload: Payload, user: string)
    requires WithRoom(w.(db := db1), Some(sid), 1).Ok?
    requires WorldInv(WithRoom(w.(db := db1), Some(sid), 1).value)
    requires l in db1.recs && key !in db1.recs[l].logs && payload.VoteAt? && l != sid
    ensures var db2 := Put(db1, l, LogOf(db1.recs[l], key, payload));
            var a := WithRoom(WithVote(w.(db := db2), l, user, true), Some(sid), 1);
            a.Ok? && WorldInv(a.value) && a.value.room.current == Some(sid)
  {
    var w1 := WithRoom(w.(db := db1), Some(sid), 1).value;
    NewCurrent(w.(db := db1), sid);
    LogKeeps(w1, l, key, payload);
    var w2 := w1.(db := Put(db1, l, LogOf(db1.recs[l], key, payload)));
    VoteRowKeeps(w2, l, user, true);
    NewCurrent(WithVote(w.(db := w2.db), l, user, true), sid);
  }

  /** A vote under a new action id is accepted exactly if it is fresh where it arrives, and an agreement only on the newest session. */
  lemma VoteAcceptedExactly(w: World, user: string, agree: bool, expected: int, actionId: string,
                            latest: Option<Sid>, sid: Sid, deck: seq<StoredCard>)
    requires WorldInv(w) && IsLatest(w.db.recs, latest) && GoodDeck(deck)
    requires latest.Some? ==> LogKey(user, actionId) !in w.db.recs[latest.value].logs
    ensures VoteRematch(w, user, agree, expected, actionId, latest, sid, deck).Ok?
            <==> latest.Some? && VoteFresh(w, user, agree, expected, actionId, latest.value)
                 && (agree ==> IsNewest(w.db.recs, latest.value) && sid !in w.db.used)
  {
    if VoteRematch(w, user, agree, expected, actionId, latest, sid, deck).Ok? {
      VoteOkIsFreshOrReplay(w, user, agree, expected, actionId, latest, sid, deck);
    }
    if latest.Some? && VoteFresh(w, user, agree, expected, actionId, latest.value) {
      if agree {
        AgreementKeeps(w, user, expected, actionId, latest, sid, deck);
      } else {
        RefusalResult(w, user, expected, actionId, latest, sid, deck);
      }
    }
  }

  /** The one call that can leave a running round without its room: a refusal that reaches a finished round. */
  ghost predicate LosesRound(w: World, user: string, agree: bool, expected: int, actionId: string, latest: Option<Sid>) {
    latest.Some? && !agree && VoteFresh(w, user, agree, expected, actionId, latest.value) && !AllFinished(w)
  }

  lemma VoteKeeps(w: World, user: string, agree: bool, expected: int, actionId: string,
                  latest: Option<Sid>, sid: Sid, deck: seq<StoredCard>)
    requires WorldInv(w) && IsLatest(w.db.recs, latest) && GoodDeck(deck)
    requires VoteRematch(w, user, agree, expected, actionId, latest, sid, deck).Ok?
    ensures WorldInv(VoteRematch(w, user, agree, expected, actionId, latest, sid, deck).value)
            <==> !LosesRound(w, user, agree, expected, actionId, latest)
  {
    VoteOkIsFreshOrReplay(w, user, agree, expected, actionId, latest, sid, deck);
    if VoteFresh(w, user, agree, expected, actionId, latest.value) {
      if agree {
        AgreementKeeps(w, user, expected, actionId, latest, sid, deck);
      } else if AllFinished(w) {
        RefusalKeeps(w, user, expected, actionId, latest, sid, deck);
      } else {
        RefusalLosesRound(w, user, expected, actionId, latest, sid, deck);
      }
    }
  }

  /** A refusal while a round is running leaves that round running in a room that has let go of it. */
  lemma RefusalLosesRound(w: World, user: string, expected: int, actionId: string,
                          latest: Option<Sid>, sid: Sid, deck: seq<StoredCard>)
    requires IsLatest(w.db.recs, latest) && GoodDeck(deck)
    requires LosesRound(w, user, false, expected, actionId, latest)
    ensures var a := VoteRematch(w, user, false, expected, actionId, latest, sid, deck);
            a.Ok? && a.value.room.current.None? && !AllFinished(a.value) && !OnlyCurrentRuns(a.value)
  {
    var l := latest.value;
    RefusalResult(w, user, expected, actionId, latest, sid, deck);
    var s :| s in w.db.recs && w.db.recs[s].sess.status != Resetting;
    var w' := VoteRematch(w, user, false, expected, actionId, latest, sid, deck).value;
    assert s in w'.db.recs && w'.db.recs[s].sess.status != Resetting;
  }

  // ---- the rematch deadline ----

  /** The deadline of the current session releases the room: nobody can have agreed and still be waiting. */
  lemma DeadlineReleases(w: World, s: Sid, sid: Sid, deck: seq<StoredCard>)
    requires WorldInv(w) && GoodDeck(deck) && w.room.current == Some(s) && RematchIsDue(w.db.recs[s].sess, w.db.now)
    ensures AllFinished(w)
    ensures ProcessRematchDeadline(w, s, sid, deck) == FinalizeRematchFailure(w)
  {
    NewestDone(w, s);
    var e := Eligible(w);
    assert e == [w.room.host];
    assert e[0] in e;
    assert w.room.host !in VotesOn(w, s);
  }

  lemma DeadlineKeeps(w: World, s: Sid, sid: Sid, deck: seq<StoredCard>)
    requires WorldInv(w) && GoodDeck(deck) && ProcessRematchDeadline(w, s, sid, deck).Ok?
    ensures WorldInv(ProcessRematchDeadline(w, s, sid, deck).value)
  {
    if s in w.db.recs && RematchIsDue(w.db.recs[s].sess, w.db.now) && w.room.current == Some(s) {
      DeadlineReleases(w, s, sid, deck);
      ReleaseKeeps(w);
    }
  }
}
