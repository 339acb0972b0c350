/** What the deadlines mean: nothing happens before them, and the worker acts from them on. */
module DueLaws {
  import opened Wrappers
  import opened Numerals
  import opened Cards
  import opened Hands
  import opened Policies
  import opened Rounds
  import opened RoundInvariant
  import opened SessionStore
  import opened RoundSteps
  import opened AtomicSessions
  import opened Rooms
  import opened RoomInvariant
  import opened RoomSteps
  import opened Worker
  import opened WorkerIds
  import opened WorkerProgress
  import opened Server
  import opened ServerRuns
  import opened RecordLaws

  // ---- the queries ----

  /** Which sessions of which rooms the three queries list. */
  lemma QueriesList(list: seq<Entry>, rooms: RoomMap, q: Query, e: Entry)
    requires ListsAll(list, rooms, q) && e.room in rooms && e.sid in rooms[e.room].db.recs
    ensures var s, now := rooms[e.room].db.recs[e.sid].sess, rooms[e.room].db.now;
            e in list <==>
              match q
              case DueTurns => s.status == PlayerTurn && s.turnDeadline.Some? && s.turnDeadline.value <= now
              case Dealers => s.status == DealerTurn
              case DueRematches => s.status == Resetting && s.rematchDeadline.Some? && s.rematchDeadline.value <= now
  {
  }

  /** Losing a race and finding nothing do not end a tick; every other error does. */
  lemma ToleratedLaw(w: World, e: Error)
    ensures Then(w, Err(e)) == Ticked(w, if e == VersionConflict || e == NotFound then None else Some(e))
  {
  }

  // ---- the player's turn ----

  ghost predicate TurnUntil(w: World, c: Sid, d: Time) {
    && w.room.current == Some(c) && c in w.db.recs
    && w.db.recs[c].sess.status == PlayerTurn && w.db.recs[c].sess.turnDeadline == Some(d)
  }

  /** Before its deadline a turn is left alone; from then on it is taken up, exactly unless its log entry cannot be written. */
  lemma TimeoutLaw(w: World, c: Sid, d: Time, heuristic: bool)
    requires WorldInv(w) && TurnUntil(w, c, d)
    ensures w.db.now < d ==> PlayerStandCall(w, c, heuristic) == Ok(w)
    ensures d <= w.db.now ==>
              (PlayerStandCall(w, c, heuristic).Ok? <==> NeededKey(c, w.db.recs[c], heuristic, 0) !in w.db.recs[c].logs)
    ensures d <= w.db.now && PlayerStandCall(w, c, heuristic).Ok? ==>
              c in PlayerStandCall(w, c, heuristic).value.db.recs
              && PlayerStandCall(w, c, heuristic).value.db.recs[c].sess.version == w.db.recs[c].sess.version + 1
  {
    if d <= w.db.now {
      TimeoutFailsExactlyOnUsedKey(w, c, heuristic);
      if !KeyUsed(c, w.db.recs[c], heuristic) {
        TimeoutMovesVersion(w, c, heuristic);
      }
    }
  }

  lemma TimeoutMovesVersion(w: World, c: Sid, heuristic: bool)
    requires Attended(w, c) && TurnIsDue(w.db.recs[c].sess, w.db.now) && !KeyUsed(c, w.db.recs[c], heuristic)
    ensures var a := PlayerStandCall(w, c, heuristic);
            a.Ok? && c in a.value.db.recs && a.value.db.recs[c].sess.version == w.db.recs[c].sess.version + 1
  {
    var r := w.db.recs[c];
    RecordOf(w.db, c);
    if AutoHits(r, heuristic) {
      AutoHitProgress(w, c);
      PlayRecordAnswers(r, r.player.userId, r.sess.version, AutoHitId(c, r.sess.version), true, w.db.now);
    } else {
      StuckWithoutHit(c, r, heuristic);
      ForfeitRecordAnswers(c, r, w.db.now);
      ForfeitKeeps(w, c);
    }
  }

  /** A session that is not in the player's turn never times out. */
  lemma OnlyTurnsTimeOut(w: World, s: Sid, heuristic: bool)
    requires s in w.db.recs && w.db.recs[s].sess.status != PlayerTurn
    ensures PlayerStandCall(w, s, heuristic) == Ok(w)
  {
  }

  /**
   Under the heuristic policy the chart decides, looking at the dealer's first card, which is the
   second of the deck: a hit draws the next card, a stand is the loss by time.
   */
  lemma HeuristicTimeoutLaw(w: World, c: Sid, d: Time)
    requires WorldInv(w) && TurnUntil(w, c, d) && d <= w.db.now && PlayerStandCall(w, c, true).Ok?
    ensures c in PlayerStandCall(w, c, true).value.db.recs && |w.db.recs[c].sess.deck| == 52
    ensures var r, r' := w.db.recs[c], PlayerStandCall(w, c, true).value.db.recs[c];
            var hits := ChartRow(IsSoft(r.player.hand), Value(r.player.hand))[ChartColumn(r.sess.deck[1].rank)] == 'H';
            && (hits ==> r'.sess.status != Resetting && |r'.player.hand| == |r.player.hand| + 1
                         && r'.logs == r.logs[LogKey(r.player.userId, "auto-heuristic-hit:" + c + ":" + Number(r.sess.version))
                                              := HitAt(r.sess.version)])
            && (!hits ==> r'.sess.status == Resetting && r'.player.outcome == Some(Lose) && r'.player.hand == r.player.hand)
  {
    var r := w.db.recs[c];
    RecordOf(w.db, c);
    FirstDealerCard(r);
    HintIsChart(r.player.hand, r.dealer.hand[0]);
    TimeoutFailsExactlyOnUsedKey(w, c, true);
    if AutoHits(r, true) {
      AutoHitProgress(w, c);
      HitDraws(r, r.player.userId, r.sess.version, AutoHitId(c, r.sess.version), w.db.now);
    } else {
      StuckWithoutHit(c, r, true);
      ForfeitLaw(c, r, w.db.now);
      ForfeitKeeps(w, c);
    }
  }

  lemma FirstDealerCard(r: Record)
    requires RecordInv(r) && r.sess.status == PlayerTurn
    ensures |r.sess.deck| == 52 && |r.dealer.hand| > 0 && r.dealer.hand[0] == r.sess.deck[1]
    ensures |r.player.hand| > 0 && !IsBust(r.player.hand)
  {
  }

  /** Under the default policy the turn is lost, whatever the hand. */
  lemma DefaultTimeoutLaw(w: World, c: Sid, d: Time)
    requires WorldInv(w) && TurnUntil(w, c, d) && d <= w.db.now && PlayerStandCall(w, c, false).Ok?
    ensures c in PlayerStandCall(w, c, false).value.db.recs
    ensures var r' := PlayerStandCall(w, c, false).value.db.recs[c];
            r'.sess.status == Resetting && r'.player.outcome == Some(Lose) && r'.player.hand == w.db.recs[c].player.hand
  {
    var r := w.db.recs[c];
    RecordOf(w.db, c);
    TimeoutFailsExactlyOnUsedKey(w, c, false);
    StuckWithoutHit(c, r, false);
    ForfeitLaw(c, r, w.db.now);
    ForfeitKeeps(w, c);
  }

  /** No tick touches a room whose turn has time left, whatever happens in other rooms. */
  lemma TickBeforeDeadline(rooms: RoomMap, heuristic: bool, l: Listing, r: Rid, c: Sid, d: Time)
    requires AllConsistent(rooms) && ListedAll(rooms, heuristic, l)
    requires r in rooms && TurnUntil(rooms[r], c, d) && rooms[r].db.now < d
    ensures r in ServerTick(rooms, heuristic, l).rooms && ServerTick(rooms, heuristic, l).rooms[r] == rooms[r]
  {
    ServerTickIs(rooms, heuristic, l);
    IdleTick(rooms[r], c, heuristic);
    StandCurrentIs(rooms[r], c, heuristic, rooms[r]);
  }

  /** A tick that nothing ends early takes up every turn whose time is over. */
  lemma TickAtDeadline(rooms: RoomMap, heuristic: bool, l: Listing, r: Rid, c: Sid, d: Time)
    requires AllConsistent(rooms) && ListedAll(rooms, heuristic, l) && ServerTick(rooms, heuristic, l).err.None?
    requires r in rooms && TurnUntil(rooms[r], c, d) && d <= rooms[r].db.now
    ensures var rooms' := ServerTick(rooms, heuristic, l).rooms;
            && r in rooms' && c in rooms'[r].db.recs
            && (rooms'[r].db.recs[c].sess.status != PlayerTurn
                || |rooms'[r].db.recs[c].player.hand| == |rooms[r].db.recs[c].player.hand| + 1)
  {
    ServerTickIs(rooms, heuristic, l);
    assert WorldInv(rooms[r]);
    StandFailsExactly(rooms[r], heuristic);
    TurnTakenUp(rooms[r], c, heuristic);
  }

  lemma TurnTakenUp(w: World, c: Sid, heuristic: bool)
    requires Attended(w, c) && TurnIsDue(w.db.recs[c].sess, w.db.now) && !KeyUsed(c, w.db.recs[c], heuristic)
    ensures var w' := CurrentTick(w, heuristic).w;
            c in w'.db.recs && (w'.db.recs[c].sess.status != PlayerTurn
                                || |w'.db.recs[c].player.hand| == |w.db.recs[c].player.hand| + 1)
  {
    var r := w.db.recs[c];
    RecordOf(w.db, c);
    var w1 := StandPhase(w, c, heuristic);
    var w2 := DealPhase(w1, c);
    PhasesMove(w, w1, w2, c, heuristic);
    TickIs(w, heuristic, w1, w2);
    StandAddsOneCard(w, c, heuristic);
  }

  lemma StandAddsOneCard(w: World, c: Sid, heuristic: bool)
    requires Attended(w, c) && TurnIsDue(w.db.recs[c].sess, w.db.now) && !KeyUsed(c, w.db.recs[c], heuristic)
    ensures StandCurrent(w, heuristic).err.None? && c in StandCurrent(w, heuristic).w.db.recs
    ensures var r, r' := w.db.recs[c], StandCurrent(w, heuristic).w.db.recs[c];
            r'.sess.status == PlayerTurn ==> |r'.player.hand| == |r.player.hand| + 1
  {
    var r := w.db.recs[c];
    RecordOf(w.db, c);
    if AutoHits(r, heuristic) {
      AutoHitProgress(w, c);
      HitDraws(r, r.player.userId, r.sess.version, AutoHitId(c, r.sess.version), w.db.now);
    } else {
      ForfeitedRecord(c, r, heuristic, w.db.now);
      ForfeitKeeps(w, c);
    }
  }

  // ---- the dealer ----

  /** A tick that nothing ends early moves every dealer: one card below 17, else the result. */
  lemma TickMovesDealer(rooms: RoomMap, heuristic: bool, l: Listing, r: Rid, c: Sid)
    requires AllConsistent(rooms) && ListedAll(rooms, heuristic, l) && ServerTick(rooms, heuristic, l).err.None?
    requires r in rooms && rooms[r].room.current == Some(c) && c in rooms[r].db.recs
    requires rooms[r].db.recs[c].sess.status == DealerTurn
    ensures var rooms' := ServerTick(rooms, heuristic, l).rooms;
            var hand := rooms[r].db.recs[c].dealer.hand;
            && r in rooms' && c in rooms'[r].db.recs
            && (Value(hand) < 17 ==> |rooms'[r].db.recs[c].dealer.hand| == |hand| + 1)
            && (Value(hand) >= 17 ==> rooms'[r].db.recs[c].sess.status == Resetting)
  {
    var w := rooms[r];
    ServerTickIs(rooms, heuristic, l);
    assert WorldInv(w);
    StandCurrentIs(w, c, heuristic, w);
    var w2 := DealPhase(w, c);
    PhasesMove(w, w, w2, c, heuristic);
    TickIs(w, heuristic, w, w2);
    DealerStepLaw(w, c);
  }

  lemma DealerStepLaw(w: World, c: Sid)
    requires Attended(w, c) && w.db.recs[c].sess.status == DealerTurn
    ensures var a := DealCurrent(w); var hand := w.db.recs[c].dealer.hand;
            && a.err.None? && c in a.w.db.recs
            && (Value(hand) < 17 ==> |a.w.db.recs[c].dealer.hand| == |hand| + 1)
            && (Value(hand) >= 17 ==> a.w.db.recs[c].sess.status == Resetting)
  {
    var r := w.db.recs[c];
    RecordOf(w.db, c);
    DealerKeeps(w, c);
    if Value(r.dealer.hand) < 17 {
      DealerDrawLaw(r, w.db.now);
    } else {
      DealerSettleLaw(r, w.db.now);
    }
  }

  // ---- the rematch ----

  ghost predicate RematchUntil(w: World, c: Sid, d: Time) {
    && w.room.current == Some(c) && c in w.db.recs
    && w.db.recs[c].sess.status == Resetting && w.db.recs[c].sess.rematchDeadline == Some(d)
  }

  /** Before the deadline of the rematch nothing is decided; from then on the room is released. */
  lemma RematchLaw(w: World, c: Sid, d: Time, sid: Sid, deck: seq<StoredCard>)
    requires WorldInv(w) && RematchUntil(w, c, d) && GoodDeck(deck)
    ensures ProcessRematchDeadline(w, c, sid, deck)
            == Ok(if w.db.now < d then w else w.(room := Room(w.room.host, ReadyToStart, None)))
  {
    if d <= w.db.now {
      DeadlineReleases(w, c, sid, deck);
    }
  }

  /** No tick touches a room whose rematch has time left. */
  lemma TickBeforeRematch(rooms: RoomMap, heuristic: bool, l: Listing, r: Rid, c: Sid, d: Time)
    requires AllConsistent(rooms) && ListedAll(rooms, heuristic, l)
    requires r in rooms && RematchUntil(rooms[r], c, d) && rooms[r].db.now < d
    ensures r in ServerTick(rooms, heuristic, l).rooms && ServerTick(rooms, heuristic, l).rooms[r] == rooms[r]
  {
    ServerTickIs(rooms, heuristic, l);
    RematchNotDue(rooms[r], c, d, heuristic);
  }

  lemma RematchNotDue(w: World, c: Sid, d: Time, heuristic: bool)
    requires RematchUntil(w, c, d) && w.db.now < d
    ensures StandCurrent(w, heuristic) == Ticked(w, None) && CurrentTick(w, heuristic) == Ticked(w, None)
  {
    NothingDue(w, heuristic);
    StandCurrentIs(w, c, heuristic, w);
  }

  /** A tick that nothing ends early releases every room whose rematch is over. */
  lemma TickAtRematch(rooms: RoomMap, heuristic: bool, l: Listing, r: Rid, c: Sid, d: Time)
    requires AllConsistent(rooms) && ListedAll(rooms, heuristic, l) && ServerTick(rooms, heuristic, l).err.None?
    requires r in rooms && RematchUntil(rooms[r], c, d) && d <= rooms[r].db.now
    ensures r in ServerTick(rooms, heuristic, l).rooms && ServerTick(rooms, heuristic, l).rooms[r].room.current.None?
  {
    ServerTickIs(rooms, heuristic, l);
    assert WorldInv(rooms[r]);
    RematchTickReleases(rooms[r], heuristic);
  }
}
