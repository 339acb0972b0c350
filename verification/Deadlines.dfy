/** Deadlines are never far off, so that a worker that ticks every thirty seconds brings a server to rest. */
module Deadlines {
  import opened Wrappers
  import opened Cards
  import opened Hands
  import opened Policies
  import opened Rounds
  import opened RoundInvariant
  import opened SessionStore
  import opened RoundSteps
  import opened AtomicSessions
  import opened Interleaving
  import opened Runs
  import opened Rooms
  import opened RoomInvariant
  import opened RoomSteps
  import opened RoomTables
  import opened RecordLaws
  import opened Worker
  import opened WorkerIds
  import opened WorkerProgress
  import opened Server
  import opened ServerRuns

  // ---- one operation ----

  /** Fifteen seconds for a turn and thirty for a rematch, at most. */
  predicate Near(s: SessionRow, now: Time) {
    && (s.turnDeadline.Some? ==> s.turnDeadline.value <= now + 15_000)
    && (s.rematchDeadline.Some? ==> s.rematchDeadline.value <= now + 30_000)
  }

  ghost predicate AllNear(db: Database) { forall s :: s in db.recs ==> Near(db.recs[s].sess, db.now) }

  lemma PlayKeepsNear(r: Record, user: string, expected: int, actionId: string, hit: bool, at: Time, now: Time)
    requires RecordInv(r) && Near(r.sess, now) && at <= now
    requires PlayRecord(r, user, expected, actionId, hit, at).Ok?
    ensures Near(PlayRecord(r, user, expected, actionId, hit, at).value.sess, now)
  {
    if hit {
      HitLaw(r, user, expected, actionId, at);
    } else {
      StandLaw(r, user, expected, actionId, at);
    }
  }

  lemma ForfeitKeepsNear(sid: Sid, r: Record, at: Time, now: Time)
    requires RecordInv(r) && Near(r.sess, now) && 0 < at <= now && ForfeitRecord(sid, r, at).Ok?
    ensures Near(ForfeitRecord(sid, r, at).value.sess, now)
  {
    ForfeitRecordAnswers(sid, r, at);
    if TurnIsDue(r.sess, at) {
      ForfeitLaw(sid, r, at);
    }
  }

  lemma DealerKeepsNear(r: Record, at: Time, now: Time)
    requires RecordInv(r) && Near(r.sess, now) && 0 < at <= now
    ensures DealerRecord(r, at).Ok? && Near(DealerRecord(r, at).value.sess, now)
  {
    DealerRecordAnswers(r, at);
    if r.sess.status == DealerTurn {
      if Value(r.dealer.hand) < 17 {
        DealerDrawLaw(r, at);
      } else {
        DealerSettleLaw(r, at);
      }
    }
  }

  lemma NewRoundIsNear(db: Database, n: NewSession, roundNo: int)
    requires AllNear(db) && GoodDeck(n.deck)
    ensures AllNear(OrElse(db, CreateSession(db, n, roundNo)))
  {
    DealLaw(roundNo, n.user, n.deck, db.now);
  }

  lemma PutIsNear(db: Database, sid: Sid, a: Result<Record, Error>)
    requires AllNear(db) && sid in db.recs && (a.Ok? ==> Near(a.value.sess, db.now))
    ensures AllNear(PutResult(db, sid, a))
  {
  }

  lemma NextRoundIsNear(db: Database, sid: Sid, n: NewSession)
    requires DbInv(db) && AllNear(db) && sid in db.recs && GoodDeck(n.deck)
    ensures AllNear(OrElse(db, OpenNextRound(db, sid, db.recs[sid].sess, n)))
  {
    NewRoundIsNear(BumpedIn(db, sid, db.recs[sid].sess), n, db.recs[sid].sess.roundNo + 1);
  }

  lemma VoteIsNear(db: Database, sid: Sid, user: string, agree: bool, expected: int, actionId: string, effect: VoteEffect)
    requires DbInv(db) && AllNear(db) && (effect.OpenNext? ==> GoodDeck(effect.n.deck))
    ensures AllNear(OrElse(db, VoteSession(db, sid, user, agree, expected, actionId, effect)))
  {
    var a := VoteSession(db, sid, user, agree, expected, actionId, effect);
    if a.Ok? && a.value != db {
      AcceptedVoteShape(db, sid, user, agree, expected, actionId, effect);
      RecordOf(db, sid);
      BumpKeepsRecord(db.recs[sid], db.now);
      if effect.OpenNext? {
        NextRoundIsNear(db, sid, effect.n);
      }
      LogIsNear(Effected(db, sid, effect).value, sid, LogKey(user, actionId), VoteAt(agree, expected));
    }
  }

  lemma LogIsNear(db: Database, sid: Sid, key: LogKey, payload: Payload)
    requires AllNear(db)
    ensures AllNear(OrElse(db, AddLog(db, sid, key, payload)))
  {
  }

  lemma OpKeepsNear(db: Database, op: Op)
    requires DbInv(db) && AllNear(db)
    ensures AllNear(Apply(db, op))
  {
    if WellFormed(op) && OpTime(op) <= db.now {
      match op
      case DoPlay(sid, user, expected, actionId, hit, at) =>
        if sid in db.recs {
          var a := PlayRecord(db.recs[sid], user, expected, actionId, hit, at);
          RecordOf(db, sid);
          if a.Ok? {
            PlayKeepsNear(db.recs[sid], user, expected, actionId, hit, at, db.now);
          }
          PutIsNear(db, sid, a);
        }
      case DoForfeit(sid, at) =>
        if sid in db.recs {
          RecordOf(db, sid);
          if ForfeitRecord(sid, db.recs[sid], at).Ok? {
            ForfeitKeepsNear(sid, db.recs[sid], at, db.now);
          }
          PutIsNear(db, sid, ForfeitRecord(sid, db.recs[sid], at));
        }
      case DoDealer(sid, at) =>
        if sid in db.recs {
          RecordOf(db, sid);
          DealerKeepsNear(db.recs[sid], at, db.now);
          PutIsNear(db, sid, DealerRecord(db.recs[sid], at));
        }
      case DoStart(n, roundNo) => NewRoundIsNear(db, n, roundNo);
      case DoVote(sid, user, agree, expected, actionId, effect) =>
        VoteIsNear(db, sid, user, agree, expected, actionId, effect);
      case DoDeadline(sid, n) =>
        if sid in db.recs {
          NextRoundIsNear(db, sid, n);
        }
      case _ =>
    }
  }

  // ---- interleaved runs ----

  lemma StepKeepsNear(s: State, e: Event)
    requires Inv(s) && AllNear(s.db)
    ensures AllNear(Do(s, e).db)
  {
    StepKeepsInv(s, e);
    var ops := Effect(s, e);
    if ops != [] {
      ApplyOne(s.db, ops[0], Apply);
      assert ops == [ops[0]];
      OpKeepsNear(s.db, ops[0]);
    }
  }

  lemma {:induction false} RunKeepsNear(s: State, es: seq<Event>)
    requires Inv(s) && AllNear(s.db)
    ensures AllNear(Run(s, es).db)
    decreases |es|
  {
    if es != [] {
      RunKeepsInv(s, es[..|es| - 1]);
      RunKeepsNear(s, es[..|es| - 1]);
      StepKeepsNear(Run(s, es[..|es| - 1]), es[|es| - 1]);
    }
  }

  /** In every interleaved run no turn has more than fifteen seconds left, and no rematch more than thirty. */
  lemma DeadlinesAreNear(es: seq<Event>, sid: Sid)
    requires Stored(es, sid)
    ensures Near(RecordAfter(es, sid).sess, Run(INIT, es).db.now)
  {
    InitIsGood();
    RunKeepsNear(INIT, es);
  }

  // ---- ticks ----

  ghost predicate NearAndTimed(w: World, now: Time) { AllNear(w.db) && w.db.now == now }

  lemma StandIsNear(w: World, heuristic: bool)
    requires WorldInv(w) && AllNear(w.db)
    ensures NearAndTimed(StandCurrent(w, heuristic).w, w.db.now)
  {
    if CurrentIs(w, DueTurns) && PlayerStandCall(w, w.room.current.value, heuristic).Ok? {
      var op := StandIsOneOperation(w, w.room.current.value, heuristic);
      OpKeepsNear(w.db, op);
      StandKeepsTime(w, w.room.current.value, heuristic);
    }
  }

  lemma StandKeepsTime(w: World, s: Sid, heuristic: bool)
    requires PlayerStandCall(w, s, heuristic).Ok?
    ensures PlayerStandCall(w, s, heuristic).value.db.now == w.db.now
  {
  }

  lemma DealIsNear(w: World)
    requires WorldInv(w) && AllNear(w.db)
    ensures NearAndTimed(DealCurrent(w).w, w.db.now)
  {
    if CurrentIs(w, Dealers) {
      var c := w.room.current.value;
      RecordOf(w.db, c);
      DealerKeeps(w, c);
      DealerKeepsNear(w.db.recs[c], w.db.now, w.db.now);
      PutIsNear(w.db, c, DealerRecord(w.db.recs[c], w.db.now));
    }
  }

  lemma RematchIsNear(w: World)
    requires AllNear(w.db)
    ensures NearAndTimed(RematchCurrent(w).w, w.db.now)
  {
  }

  lemma TickIsNear(w: World, heuristic: bool)
    requires WorldInv(w) && AllNear(w.db)
    ensures NearAndTimed(CurrentTick(w, heuristic).w, w.db.now)
  {
    var t1 := StandCurrent(w, heuristic);
    StandIsNear(w, heuristic);
    StandCurrentKeeps(w, heuristic);
    if t1.err.None? {
      DealIsNear(t1.w);
      RematchIsNear(DealCurrent(t1.w).w);
    }
  }

  // ---- a worker that ticks every thirty seconds ----

  /** All rooms show times up to now, and no deadline further off than it may be. */
  ghost predicate RoomsNear(rooms: RoomMap, now: Time) {
    forall r {:trigger rooms[r]} :: r in rooms ==> AllNear(rooms[r].db) && rooms[r].db.now <= now
  }

  /** Ticks at least thirty seconds apart. */
  predicate Spaced(now: Time, beats: seq<Beat>)
    decreases |beats|
  {
    beats != [] ==> beats[0].now >= now + 30_000 && Spaced(beats[0].now, beats[1..])
  }

  /** After thirty seconds whatever the current session of a room waits for is due. */
  lemma DueAfterThirtySeconds(w: World, now: Time)
    requires WorldInv(w) && AllNear(w.db) && now >= w.db.now + 30_000 && w.room.current.Some?
    ensures DueNow(AtTime(w, now))
  {
    var c := w.room.current.value;
    RecordOf(w.db, c);
    HasDeadline(w.db.recs[c]);
  }

  lemma HasDeadline(r: Record)
    requires RecordInv(r)
    ensures (r.sess.status == PlayerTurn && r.sess.turnDeadline.Some?) || r.sess.status == DealerTurn
            || (r.sess.status == Resetting && r.sess.rematchDeadline.Some?)
  {
  }

  lemma SpacedBeat(rooms: RoomMap, heuristic: bool, now: Time, beats: seq<Beat>)
    requires AllConsistent(rooms) && AllFree(rooms, heuristic) && RoomsNear(rooms, now)
    requires beats != [] && Heard(rooms, heuristic, beats) && Spaced(now, beats)
    ensures AllDue(AllAt(rooms, beats[0].now))
    ensures RoomsNear(BeatOnce(rooms, heuristic, beats[0]), beats[0].now)
  {
    var t := beats[0].now;
    var rooms1, rooms2 := AllAt(rooms, t), BeatOnce(rooms, heuristic, beats[0]);
    LaterAll(rooms, t);
    FreeBeat(rooms, heuristic, beats);
    forall r | r in rooms1 && rooms1[r].room.current.Some? ensures DueNow(rooms1[r]) {
      assert WorldInv(rooms[r]) && AllNear(rooms[r].db);
      DueAfterThirtySeconds(rooms[r], t);
    }
    forall r | r in rooms2 ensures AllNear(rooms2[r].db) && rooms2[r].db.now <= t {
      assert AllNear(rooms[r].db) && WorldInv(rooms1[r]) && rooms1[r] == AtTime(rooms[r], t);
      LaterIsNear(rooms[r], t);
      TickIsNear(rooms1[r], heuristic);
    }
  }

  lemma LaterIsNear(w: World, now: Time)
    requires AllNear(w.db) && now >= w.db.now
    ensures AllNear(AtTime(w, now).db)
  {
  }

  lemma {:induction false} SpacedTicksWaitOut(rooms: RoomMap, heuristic: bool, now: Time, beats: seq<Beat>)
    requires AllConsistent(rooms) && AllFree(rooms, heuristic) && RoomsNear(rooms, now)
    requires Heard(rooms, heuristic, beats) && Spaced(now, beats)
    ensures WaitsOut(rooms, heuristic, beats)
    decreases |beats|
  {
    if beats != [] {
      SpacedBeat(rooms, heuristic, now, beats);
      FreeBeat(rooms, heuristic, beats);
      SpacedTicksWaitOut(BeatOnce(rooms, heuristic, beats[0]), heuristic, beats[0].now, beats[1..]);
    }
  }

  /**
   Left alone, a worker that ticks 34 times, thirty seconds apart, releases all rooms exactly unless in
   some room somebody has used the identifier of an entry that it will have to write.
   */
  lemma SpacedTicksRelease(rooms: RoomMap, heuristic: bool, now: Time, beats: seq<Beat>)
    requires AllConsistent(rooms) && RoomsNear(rooms, now)
    requires Heard(rooms, heuristic, beats) && Spaced(now, beats) && |beats| >= 34
    ensures AllReleased(BeatRun(rooms, heuristic, beats)) <==> AllFree(rooms, heuristic)
  {
    if AllFree(rooms, heuristic) {
      SpacedTicksWaitOut(rooms, heuristic, now, beats);
      ServerReleasesExactly(rooms, heuristic, beats);
    } else {
      var r :| r in rooms && !Free(rooms[r], heuristic);
      assert WorldInv(rooms[r]);
      StuckForEver(rooms, heuristic, beats, r, rooms[r].room.current.value);
    }
  }

  /** In every run of a room, whatever is called, its deadlines are near. */
  lemma {:induction false} RoomRunIsNear(w: World, calls: seq<RoomCall>)
    requires TablesInv(w) && AllNear(w.db)
    ensures AllNear(RoomRun(w, calls).db)
    decreases |calls|
  {
    if calls != [] {
      var mid, last := RoomRun(w, calls[..|calls| - 1]), calls[|calls| - 1];
      RunKeepsTables(w, calls[..|calls| - 1]);
      RoomRunIsNear(w, calls[..|calls| - 1]);
      if Sound(mid, last) && Invoke(mid, last).Ok? {
        var op := CallIsOneOperation(mid, last);
        OpKeepsNear(mid.db, op);
      }
    }
  }
}
