/** Left alone, the worker finishes every round and releases the room, unless an identifier it needs has been used. */
module WorkerProgress {
  import opened Wrappers
  import opened Cards
  import opened Shuffle
  import opened Hands
  import opened Policies
  import opened Rounds
  import opened RoundInvariant
  import opened SessionStore
  import opened RoundSteps
  import opened AtomicSessions
  import opened Rooms
  import opened RoomInvariant
  import opened RoomSteps
  import opened Worker
  import opened WorkerIds

  // ---- how much is left to do ----

  function AtLeast0(n: int): nat { if n < 0 then 0 else n }

  /** Forced hits that a hand can still take: each adds to a hard total of at most 16. */
  function HitsLeft(hand: Hand): nat { AtLeast0(17 - Hard(hand)) }

  /** Ticks until the player's turn is over. */
  function TurnLeft(r: Record): nat {
    if r.sess.status == PlayerTurn then 1 + HitsLeft(r.player.hand) else 0
  }

  /** Ticks until the dealer is done. */
  function DealerLeft(r: Record): nat {
    match r.sess.status
    case PlayerTurn => 17
    case DealerTurn => 1 + AtLeast0(17 - Hard(r.dealer.hand))
    case _ => 0
  }

  lemma LeftIsBounded(r: Record)
    requires RecordInv(r)
    ensures TurnLeft(r) <= 16 && HitsLeft(r.player.hand) <= 15
    ensures DealerLeft(r) <= 17 && (r.sess.status != PlayerTurn ==> DealerLeft(r) <= 16)
    ensures TurnLeft(r) + DealerLeft(r) <= 33
  {
    HardBounds(r.player.hand);
    HardBounds(r.dealer.hand);
  }

  // ---- one step on the record ----

  /** A timed-out turn moves on: a forced hit that leaves fewer ticks, or the loss by time. */
  ghost predicate TurnStep(sid: Sid, r: Record, r': Record, heuristic: bool, now: Time) {
    && (Stuck(sid, r', heuristic) <==> Stuck(sid, r, heuristic))
    && TurnLeft(r') < TurnLeft(r)
    && |r'.player.hand| + HitsLeft(r'.player.hand) <= |r.player.hand| + HitsLeft(r.player.hand)
    && (r'.sess.status == Resetting ==> r'.player.outcome == Some(Lose) && !RematchIsDue(r'.sess, now))
  }

  lemma HitLeavesLess(r: Record, r': Record)
    requires DrewOne(r, r') && r.sess.status == PlayerTurn && Hard(r.player.hand) <= 16
    ensures TurnLeft(r') < TurnLeft(r)
    ensures |r'.player.hand| + HitsLeft(r'.player.hand) <= |r.player.hand| + HitsLeft(r.player.hand)
  {
    DrawAdds(r.player.hand, r.sess.deck[r.sess.drawIndex]);
  }

  lemma AutoHitAccepted(sid: Sid, r: Record, now: Time)
    requires RecordInv(r) && r.sess.status == PlayerTurn && AutoHits(r, true) && !KeyUsed(sid, r, true)
    ensures r.sess.version >= 1
    ensures var key := LogKey(r.player.userId, AutoHitId(sid, r.sess.version));
            var a := PlayRecord(r, r.player.userId, r.sess.version, AutoHitId(sid, r.sess.version), true, now);
            a.Ok? && DrewOne(r, a.value) && a.value.logs.Keys == r.logs.Keys + {key}
  {
    NothingDrawnYet(r);
    PlayRecordAnswers(r, r.player.userId, r.sess.version, AutoHitId(sid, r.sess.version), true, now);
    HitDraws(r, r.player.userId, r.sess.version, AutoHitId(sid, r.sess.version), now);
  }

  lemma AutoHitRecord(sid: Sid, r: Record, now: Time)
    requires RecordInv(r) && r.sess.status == PlayerTurn && AutoHits(r, true) && !KeyUsed(sid, r, true)
    ensures r.sess.version >= 1
    ensures var a := PlayRecord(r, r.player.userId, r.sess.version, AutoHitId(sid, r.sess.version), true, now);
            a.Ok? && TurnStep(sid, r, a.value, true, now) && a.value.sess.status != Resetting
  {
    AutoHitAccepted(sid, r, now);
    var r' := PlayRecord(r, r.player.userId, r.sess.version, AutoHitId(sid, r.sess.version), true, now).value;
    NothingDrawnYet(r);
    RecommendedHitIsLow(r.player.hand, r.dealer.hand[0]);
    HitLeavesLess(r, r');
    ForcedHitKeepsStuck(sid, r, r');
  }

  lemma ForfeitedRecord(sid: Sid, r: Record, heuristic: bool, now: Time)
    requires RecordInv(r) && TurnIsDue(r.sess, now) && now > 0
    requires !AutoHits(r, heuristic) && !KeyUsed(sid, r, heuristic)
    ensures var a := ForfeitRecord(sid, r, now);
            a.Ok? && TurnStep(sid, r, a.value, heuristic, now) && a.value.sess.status == Resetting
  {
    StuckWithoutHit(sid, r, heuristic);
    ForfeitRecordAnswers(sid, r, now);
    ForfeitRowsAreGood(r, now);
  }

  // ---- the timeout on a due turn ----

  ghost predicate Attended(w: World, c: Sid) { WorldInv(w) && w.room.current == Some(c) && c in w.db.recs }

  /** The error of a timeout whose log entry cannot be written. */
  function UsedKeyError(r: Record, heuristic: bool): Error {
    if AutoHits(r, heuristic) then DuplicateAction else UniqueViolation
  }

  lemma UsedHitIsDuplicate(sid: Sid, r: Record, now: Time)
    requires RecordInv(r) && r.sess.status == PlayerTurn
    requires LogKey(r.player.userId, AutoHitId(sid, r.sess.version)) in r.logs
    ensures PlayRecord(r, r.player.userId, r.sess.version, AutoHitId(sid, r.sess.version), true, now) == Err(DuplicateAction)
  {
    var key := LogKey(r.player.userId, AutoHitId(sid, r.sess.version));
    assert IsPlay(r.logs[key]) ==> r.logs[key].version < r.sess.version;
    PlayRecordAnswers(r, r.player.userId, r.sess.version, AutoHitId(sid, r.sess.version), true, now);
  }

  /** Under either policy a timeout fails exactly if the identifier of the entry it has to write has been used. */
  lemma TimeoutFailsExactlyOnUsedKey(w: World, c: Sid, heuristic: bool)
    requires Attended(w, c) && TurnIsDue(w.db.recs[c].sess, w.db.now)
    ensures var r := w.db.recs[c];
            PlayerStandCall(w, c, heuristic).Err? <==> KeyUsed(c, r, heuristic)
    ensures KeyUsed(c, w.db.recs[c], heuristic) ==>
              PlayerStandCall(w, c, heuristic) == Err(UsedKeyError(w.db.recs[c], heuristic))
  {
    var r := w.db.recs[c];
    RecordOf(w.db, c);
    NothingDrawnYet(r);
    if AutoHits(r, heuristic) {
      PlayerTurnIs(w, c, r.player.userId, r.sess.version, AutoHitId(c, r.sess.version), true);
      PlayRecordAnswers(r, r.player.userId, r.sess.version, AutoHitId(c, r.sess.version), true, w.db.now);
      if KeyUsed(c, r, heuristic) {
        UsedHitIsDuplicate(c, r, w.db.now);
      }
    } else {
      StuckWithoutHit(c, r, heuristic);
      ForfeitRecordAnswers(c, r, w.db.now);
    }
  }

  lemma AutoHitProgress(w: World, c: Sid)
    requires Attended(w, c) && TurnIsDue(w.db.recs[c].sess, w.db.now)
    requires AutoHits(w.db.recs[c], true) && !KeyUsed(c, w.db.recs[c], true)
    ensures var r := w.db.recs[c];
            var a := PlayRecord(r, r.player.userId, r.sess.version, AutoHitId(c, r.sess.version), true, w.db.now);
            && a.Ok? && TurnStep(c, r, a.value, true, w.db.now) && a.value.sess.status != Resetting
            && PlayerTurnCall(w, r.player.userId, r.sess.version, AutoHitId(c, r.sess.version), true)
               == Ok(w.(db := Put(w.db, c, a.value)))
            && WorldInv(w.(db := Put(w.db, c, a.value)))
  {
    var r := w.db.recs[c];
    AutoHitRecord(c, r, w.db.now);
    PlayerTurnIs(w, c, r.player.userId, r.sess.version, AutoHitId(c, r.sess.version), true);
    PlayKeeps(w, r.player.userId, r.sess.version, AutoHitId(c, r.sess.version), true);
  }

  /** The timeout of a due turn whose entry can be written makes progress. */
  lemma StandProgress(w: World, c: Sid, heuristic: bool) returns (r': Record)
    requires Attended(w, c) && TurnIsDue(w.db.recs[c].sess, w.db.now) && !KeyUsed(c, w.db.recs[c], heuristic)
    ensures var r, w' := w.db.recs[c], w.(db := Put(w.db, c, r'));
            && PlayerStandCall(w, c, heuristic) == Ok(w') && WorldInv(w')
            && TurnStep(c, r, r', heuristic, w.db.now)
            && (r'.sess.status == Resetting <==> !AutoHits(r, heuristic))
  {
    var r := w.db.recs[c];
    if AutoHits(r, heuristic) {
      AutoHitProgress(w, c);
      r' := PlayRecord(r, r.player.userId, r.sess.version, AutoHitId(c, r.sess.version), true, w.db.now).value;
    } else {
      ForfeitedRecord(c, r, heuristic, w.db.now);
      ForfeitKeeps(w, c);
      r' := ForfeitRecord(c, r, w.db.now).value;
    }
  }

  // ---- the dealer ----

  lemma DealerProgress(w: World, c: Sid) returns (r': Record)
    requires Attended(w, c) && w.db.recs[c].sess.status == DealerTurn
    ensures var r, w' := w.db.recs[c], w.(db := Put(w.db, c, r'));
            && DealerTurnCall(w, c) == Ok(w') && WorldInv(w')
            && r'.sess.status != PlayerTurn && DealerLeft(r') < DealerLeft(r)
            && r'.player.hand == r.player.hand
            && (r'.sess.status == Resetting ==> !RematchIsDue(r'.sess, w.db.now))
  {
    var r := w.db.recs[c];
    DealerKeeps(w, c);
    DealerRecordAnswers(r, w.db.now);
    DealerDrawsBelow17(r.dealer.hand);
    r' := DealerRecord(r, w.db.now).value;
    DealerLeftFalls(r, r');
    DealerKeepsPlayerHand(r, w.db.now);
  }

  lemma DealerKeepsPlayerHand(r: Record, now: Time)
    requires DealerRecord(r, now).Ok?
    ensures DealerRecord(r, now).value.player.hand == r.player.hand
  {
  }

  lemma DealerLeftFalls(r: Record, r': Record)
    requires r.sess.status == DealerTurn
    requires r'.sess.status == Resetting
             || (r'.sess.status == DealerTurn && Value(r.dealer.hand) < 17 && Hard(r'.dealer.hand) > Hard(r.dealer.hand))
    ensures DealerLeft(r') < DealerLeft(r)
  {
    DealerDrawsBelow17(r.dealer.hand);
  }

  // ---- one tick ----

  ghost predicate IsCurrent(w: World, c: Sid) { w.room.current == Some(c) && c in w.db.recs }

  /** What one tick does to the current session: it moves on. */
  ghost predicate Moved(w: World, w': World, c: Sid, heuristic: bool) {
    IsCurrent(w, c) && IsCurrent(w', c) && w'.db.now == w.db.now &&
      var r, r' := w.db.recs[c], w'.db.recs[c];
      && TurnLeft(r') + DealerLeft(r') < TurnLeft(r) + DealerLeft(r)
      && (r.sess.status == PlayerTurn ==> TurnLeft(r') < TurnLeft(r))
      && (r.sess.status == DealerTurn ==> r'.sess.status != PlayerTurn && DealerLeft(r') < DealerLeft(r))
      && |r'.player.hand| + HitsLeft(r'.player.hand) <= |r.player.hand| + HitsLeft(r.player.hand)
      && (Stuck(c, r', heuristic) <==> Stuck(c, r, heuristic))
      && (r'.sess.status == Resetting ==> !RematchIsDue(r'.sess, w.db.now))
  }

  predicate DueNow(w: World) {
    CurrentIs(w, DueTurns) || CurrentIs(w, Dealers) || CurrentIs(w, DueRematches)
  }

  lemma DealCurrentIs(w: World, c: Sid, w2: World)
    requires IsCurrent(w, c)
    requires if w.db.recs[c].sess.status == DealerTurn then DealerTurnCall(w, c) == Ok(w2) else w2 == w
    ensures DealCurrent(w) == Ticked(w2, None)
  {
  }

  lemma StandCurrentIs(w: World, c: Sid, heuristic: bool, w1: World)
    requires IsCurrent(w, c)
    requires if TurnIsDue(w.db.recs[c].sess, w.db.now) then PlayerStandCall(w, c, heuristic) == Ok(w1) else w1 == w
    ensures StandCurrent(w, heuristic) == Ticked(w1, None)
  {
  }

  lemma TickIs(w: World, heuristic: bool, w1: World, w2: World)
    requires StandCurrent(w, heuristic) == Ticked(w1, None) && DealCurrent(w1) == Ticked(w2, None)
    requires !CurrentIs(w2, DueRematches)
    ensures CurrentTick(w, heuristic) == Ticked(w2, None)
  {
  }

  ghost predicate DealMoved(w: World, w2: World, c: Sid) {
    && IsCurrent(w, c) && IsCurrent(w2, c) && w2.db.now == w.db.now
    && if w.db.recs[c].sess.status == DealerTurn
       then w2.db.recs[c].sess.status != PlayerTurn && DealerLeft(w2.db.recs[c]) < DealerLeft(w.db.recs[c])
            && w2.db.recs[c].player.hand == w.db.recs[c].player.hand
            && (w2.db.recs[c].sess.status == Resetting ==> !RematchIsDue(w2.db.recs[c].sess, w.db.now))
       else w2 == w
  }

  lemma DealPhase(w: World, c: Sid) returns (w2: World)
    requires Attended(w, c)
    ensures DealCurrent(w) == Ticked(w2, None) && Attended(w2, c) && DealMoved(w, w2, c)
  {
    w2 := w;
    if w.db.recs[c].sess.status == DealerTurn {
      var r' := DealerProgress(w, c);
      w2 := w.(db := Put(w.db, c, r'));
    }
    DealCurrentIs(w, c, w2);
  }

  ghost predicate StandMoved(w: World, w1: World, c: Sid, heuristic: bool) {
    && IsCurrent(w, c) && IsCurrent(w1, c) && w1.db.now == w.db.now
    && w.db.recs[c].sess.status == PlayerTurn
    && TurnStep(c, w.db.recs[c], w1.db.recs[c], heuristic, w.db.now)
    && DealerLeft(w1.db.recs[c]) <= DealerLeft(w.db.recs[c])
    && (w1.db.recs[c].sess.status == Resetting <==> !AutoHits(w.db.recs[c], heuristic))
  }

  lemma StandPhase(w: World, c: Sid, heuristic: bool) returns (w1: World)
    requires Attended(w, c) && TurnIsDue(w.db.recs[c].sess, w.db.now) && !KeyUsed(c, w.db.recs[c], heuristic)
    ensures StandCurrent(w, heuristic) == Ticked(w1, None) && Attended(w1, c) && StandMoved(w, w1, c, heuristic)
  {
    var r' := StandProgress(w, c, heuristic);
    w1 := w.(db := Put(w.db, c, r'));
    RecordOf(w1.db, c);
    LeftIsBounded(r');
    StandCurrentIs(w, c, heuristic, w1);
  }

  lemma PhasesMove(w: World, w1: World, w2: World, c: Sid, heuristic: bool)
    requires if CurrentIs(w, DueTurns) then StandMoved(w, w1, c, heuristic) else w1 == w && CurrentIs(w, Dealers)
    requires IsCurrent(w, c) && DealMoved(w1, w2, c)
    ensures Moved(w, w2, c, heuristic) && !CurrentIs(w2, DueRematches)
  {
  }

  lemma TimeoutPhase(w: World, c: Sid, heuristic: bool) returns (w1: World)
    requires Attended(w, c) && (CurrentIs(w, DueTurns) ==> !KeyUsed(c, w.db.recs[c], heuristic))
    ensures StandCurrent(w, heuristic) == Ticked(w1, None) && Attended(w1, c)
    ensures if CurrentIs(w, DueTurns) then StandMoved(w, w1, c, heuristic) else w1 == w
  {
    if CurrentIs(w, DueTurns) {
      w1 := StandPhase(w, c, heuristic);
    } else {
      w1 := w;
      StandCurrentIs(w, c, heuristic, w);
    }
  }

  /** A tick at which the current session is due leaves less to do if the entry it has to write can be written. */
  lemma TickProgress(w: World, c: Sid, heuristic: bool) returns (w2: World)
    requires Attended(w, c) && (CurrentIs(w, DueTurns) || CurrentIs(w, Dealers))
    requires CurrentIs(w, DueTurns) ==> !KeyUsed(c, w.db.recs[c], heuristic)
    ensures CurrentTick(w, heuristic) == Ticked(w2, None) && Attended(w2, c) && Moved(w, w2, c, heuristic)
  {
    var w1 := TimeoutPhase(w, c, heuristic);
    w2 := DealPhase(w1, c);
    PhasesMove(w, w1, w2, c, heuristic);
    TickIs(w, heuristic, w1, w2);
  }

  /** Otherwise the tick ends at once, and nothing has changed. */
  lemma TickFailsExactlyOnUsedKey(w: World, c: Sid, heuristic: bool)
    requires Attended(w, c) && CurrentIs(w, DueTurns)
    ensures CurrentTick(w, heuristic).err.Some? <==> KeyUsed(c, w.db.recs[c], heuristic)
    ensures KeyUsed(c, w.db.recs[c], heuristic) ==>
              CurrentTick(w, heuristic) == Ticked(w, Some(UsedKeyError(w.db.recs[c], heuristic)))
  {
    TimeoutFailsExactlyOnUsedKey(w, c, heuristic);
    if !KeyUsed(c, w.db.recs[c], heuristic) {
      var w2 := TickProgress(w, c, heuristic);
    }
  }

  /** Under the default policy a due turn is over and lost after one tick, exactly unless its one identifier has been used. */
  lemma DefaultTickForfeits(w: World, c: Sid)
    requires Attended(w, c) && CurrentIs(w, DueTurns)
    ensures var t, r := CurrentTick(w, false), w.db.recs[c];
            && c in t.w.db.recs
            && (t.w.db.recs[c].sess.status == Resetting && t.w.db.recs[c].player.outcome == Some(Lose)
                <==> ForfeitKey(c, r.player, r.sess.version + 1) !in r.logs)
  {
    var r := w.db.recs[c];
    RecordOf(w.db, c);
    StuckWithoutHit(c, r, false);
    TickFailsExactlyOnUsedKey(w, c, false);
    if !KeyUsed(c, r, false) {
      var w1 := StandPhase(w, c, false);
      DealCurrentIs(w1, c, w1);
      TickIs(w, false, w1, w1);
    }
  }

  /** A due rematch without votes releases the room in one tick. */
  lemma RematchTickReleases(w: World, heuristic: bool)
    requires WorldInv(w) && CurrentIs(w, DueRematches)
    ensures CurrentTick(w, heuristic).err.None? && CurrentTick(w, heuristic).w.room.current.None?
  {
    NewestDone(w, w.room.current.value);
    FailureKeeps(w);
  }

  /** A turn that is not due yet is left alone. */
  lemma IdleTick(w: World, c: Sid, heuristic: bool)
    requires IsCurrent(w, c) && w.db.recs[c].sess.status == PlayerTurn && !TurnIsDue(w.db.recs[c].sess, w.db.now)
    ensures CurrentTick(w, heuristic) == Ticked(w, None)
  {
    StandCurrentIs(w, c, heuristic, w);
    DealCurrentIs(w, c, w);
    TickIs(w, heuristic, w, w);
  }

  // ---- an identifier used by a player ----

  /**
   A player gets a room stuck by sending a HIT under the identifier that the worker needs next: it is
   accepted, and the worker is stuck exactly unless the HIT ends the turn.
   */
  lemma PlayerBlocksWorker(w: World, c: Sid, heuristic: bool)
    requires Attended(w, c) && w.db.recs[c].sess.status == PlayerTurn
    requires NeededKey(c, w.db.recs[c], heuristic, 1) !in w.db.recs[c].logs
    ensures var r := w.db.recs[c];
            var a := PlayerTurnCall(w, w.room.host, r.sess.version, NeededKey(c, r, heuristic, 1).actionId, true);
            && a.Ok? && Attended(a.value, c)
            && (Stuck(c, a.value.db.recs[c], heuristic) <==> a.value.db.recs[c].sess.status == PlayerTurn)
  {
    var r := w.db.recs[c];
    var id := NeededKey(c, r, heuristic, 1).actionId;
    RecordOf(w.db, c);
    PlayedIdBlocksWorker(c, r, heuristic, w.db.now);
    VersionIsPositive(r);
    PlayerTurnIs(w, c, w.room.host, r.sess.version, id, true);
    PlayKeeps(w, w.room.host, r.sess.version, id, true);
  }

  lemma VersionIsPositive(r: Record)
    requires RecordInv(r)
    ensures r.sess.version >= 1
  {
  }

  // ---- what becomes of a room that a tick serves ----

  function AtTime(w: World, now: Time): World { w.(db := w.db.(now := now)) }

  lemma LaterIsConsistent(w: World, now: Time)
    requires WorldInv(w) && now >= w.db.now
    ensures WorldInv(AtTime(w, now))
  {
    AdvanceKeeps(w, now);
  }

  /** Nobody has used an identifier that the worker will need for the current session. */
  ghost predicate Free(w: World, heuristic: bool) {
    (w.room.current.Some? && w.room.current.value in w.db.recs) ==>
      !Stuck(w.room.current.value, w.db.recs[w.room.current.value], heuristic)
  }

  /** The current session has a due turn that the worker cannot log. */
  predicate Fails(w: World, heuristic: bool) {
    CurrentIs(w, DueTurns) && KeyUsed(w.room.current.value, w.db.recs[w.room.current.value], heuristic)
  }

  /** The due turn of a room fails exactly on a used identifier, and then nothing has changed. */
  lemma StandFailsExactly(w: World, heuristic: bool)
    requires WorldInv(w)
    ensures StandCurrent(w, heuristic).err.Some? <==> Fails(w, heuristic)
    ensures Fails(w, heuristic) ==> StandCurrent(w, heuristic).w == w
  {
    if CurrentIs(w, DueTurns) {
      TimeoutFailsExactlyOnUsedKey(w, w.room.current.value, heuristic);
    }
  }

  lemma FreeDoesNotFail(w: World, heuristic: bool)
    requires WorldInv(w) && Free(w, heuristic)
    ensures !Fails(w, heuristic)
  {
    if CurrentIs(w, DueTurns) {
      var c := w.room.current.value;
      RecordOf(w.db, c);
      if KeyUsed(c, w.db.recs[c], heuristic) {
        UsedKeyIsStuck(c, w.db.recs[c], heuristic);
      }
    }
  }

  /** What is left to do until the room is released: ticks. */
  function TicksLeft(w: World): nat {
    if w.room.current.Some? && w.room.current.value in w.db.recs
    then 1 + TurnLeft(w.db.recs[w.room.current.value]) + DealerLeft(w.db.recs[w.room.current.value]) else 0
  }

  lemma LeftAtMost34(w: World)
    requires WorldInv(w)
    ensures TicksLeft(w) <= 34
  {
    if w.room.current.Some? {
      RecordOf(w.db, w.room.current.value);
      LeftIsBounded(w.db.recs[w.room.current.value]);
    }
  }

  lemma NothingDue(w: World, heuristic: bool)
    requires !DueNow(w)
    ensures CurrentTick(w, heuristic) == Ticked(w, None)
  {
  }

  /** The full share of a tick leaves a free room free, and leaves less to do if something is due. */
  lemma FreeRoomMoves(w: World, heuristic: bool)
    requires WorldInv(w) && Free(w, heuristic)
    ensures var w' := CurrentTick(w, heuristic).w;
            && Free(w', heuristic)
            && (TicksLeft(w') < TicksLeft(w) || w' == w)
            && (DueNow(w) ==> TicksLeft(w') < TicksLeft(w))
  {
    if CurrentIs(w, DueRematches) {
      RematchTickReleases(w, heuristic);
    } else if CurrentIs(w, DueTurns) || CurrentIs(w, Dealers) {
      FreeDoesNotFail(w, heuristic);
      var w2 := TickProgress(w, w.room.current.value, heuristic);
    } else {
      NothingDue(w, heuristic);
    }
  }

  /** A room with a stuck session after a tick: not served, served its due turn only, or served in full. */
  ghost predicate ServedSoFar(w: World, heuristic: bool, w': World) {
    w' == w || w' == StandCurrent(w, heuristic).w || w' == CurrentTick(w, heuristic).w
  }

  lemma StuckRoomStays(w: World, c: Sid, heuristic: bool, w': World)
    requires Attended(w, c) && Stuck(c, w.db.recs[c], heuristic) && ServedSoFar(w, heuristic, w')
    ensures Attended(w', c) && Stuck(c, w'.db.recs[c], heuristic)
  {
    if !TurnIsDue(w.db.recs[c].sess, w.db.now) {
      IdleTick(w, c, heuristic);
    } else if KeyUsed(c, w.db.recs[c], heuristic) {
      StandFailsExactly(w, heuristic);
      TickFailsExactlyOnUsedKey(w, c, heuristic);
    } else {
      var w1 := StandPhase(w, c, heuristic);
      var w2 := TickProgress(w, c, heuristic);
    }
  }
}
