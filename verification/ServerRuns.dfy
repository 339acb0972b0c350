/** Left alone, the worker of a server brings all its rooms to rest, exactly unless one of them is stuck. */
module ServerRuns {
  import opened Wrappers
  import opened Cards
  import opened Hands
  import opened Policies
  import opened Rounds
  import opened RoundInvariant
  import opened SessionStore
  import opened RoundSteps
  import opened AtomicSessions
  import opened Rooms
  import opened RoomInvariant
  import opened RoomSteps
  import opened RoomTables
  import opened Worker
  import opened WorkerIds
  import opened WorkerProgress
  import opened Server

  // ---- a run of ticks ----

  /** The time of a tick and what its queries find. */
  datatype Beat = Beat(now: Time, l: Listing)

  function AllAt(rooms: RoomMap, now: Time): RoomMap { map r | r in rooms :: AtTime(rooms[r], now) }

  ghost function BeatOnce(rooms: RoomMap, heuristic: bool, b: Beat): RoomMap {
    ServerTick(AllAt(rooms, b.now), heuristic, b.l).rooms
  }

  ghost function BeatRun(rooms: RoomMap, heuristic: bool, beats: seq<Beat>): RoomMap
    decreases |beats|
  {
    if beats == [] then rooms else BeatRun(BeatOnce(rooms, heuristic, beats[0]), heuristic, beats[1..])
  }

  ghost predicate NotLaterThan(rooms: RoomMap, now: Time) { forall r :: r in rooms ==> rooms[r].db.now <= now }

  /** The clock does not run backwards, and each tick's queries find what is there, in any order. */
  ghost predicate Heard(rooms: RoomMap, heuristic: bool, beats: seq<Beat>)
    decreases |beats|
  {
    beats != [] ==>
      && NotLaterThan(rooms, beats[0].now)
      && ListedAll(AllAt(rooms, beats[0].now), heuristic, beats[0].l)
      && Heard(BeatOnce(rooms, heuristic, beats[0]), heuristic, beats[1..])
  }

  ghost predicate AllDue(rooms: RoomMap) { forall r :: r in rooms && rooms[r].room.current.Some? ==> DueNow(rooms[r]) }

  /** Each tick comes when whatever the current session of any room waits for is due. */
  ghost predicate WaitsOut(rooms: RoomMap, heuristic: bool, beats: seq<Beat>)
    decreases |beats|
  {
    beats != [] ==>
      && AllDue(AllAt(rooms, beats[0].now))
      && WaitsOut(BeatOnce(rooms, heuristic, beats[0]), heuristic, beats[1..])
  }

  lemma LaterAll(rooms: RoomMap, now: Time)
    requires AllConsistent(rooms) && NotLaterThan(rooms, now)
    ensures AllConsistent(AllAt(rooms, now))
  {
    forall r | r in rooms ensures WorldInv(AllAt(rooms, now)[r]) {
      LaterIsConsistent(rooms[r], now);
    }
  }

  lemma BeatIs(rooms: RoomMap, heuristic: bool, beats: seq<Beat>)
    requires AllConsistent(rooms) && beats != [] && Heard(rooms, heuristic, beats)
    ensures var rooms1 := AllAt(rooms, beats[0].now);
            && AllConsistent(rooms1) && TickServes(rooms1, heuristic, ServerTick(rooms1, heuristic, beats[0].l))
    ensures var rooms2 := BeatOnce(rooms, heuristic, beats[0]);
            AllConsistent(rooms2) && rooms2.Keys == rooms.Keys && Heard(rooms2, heuristic, beats[1..])
  {
    LaterAll(rooms, beats[0].now);
    ServerTickIs(AllAt(rooms, beats[0].now), heuristic, beats[0].l);
  }

  /** A tick fails exactly if some room has a due turn whose log entry cannot be written. */
  lemma ServerTickFailsExactly(rooms: RoomMap, heuristic: bool, l: Listing)
    requires AllConsistent(rooms) && ListedAll(rooms, heuristic, l)
    ensures ServerTick(rooms, heuristic, l).err.Some? <==> exists r :: r in rooms && Fails(rooms[r], heuristic)
  {
    ServerTickIs(rooms, heuristic, l);
    forall r | r in rooms ensures StandCurrent(rooms[r], heuristic).err.Some? <==> Fails(rooms[r], heuristic) {
      StandFailsExactly(rooms[r], heuristic);
    }
  }

  // ---- a server without stuck rooms ----

  /** In no room has anybody used an identifier that the worker will need. */
  ghost predicate AllFree(rooms: RoomMap, heuristic: bool) { forall r {:trigger rooms[r]} :: r in rooms ==> Free(rooms[r], heuristic) }

  lemma FreeShare(rooms: RoomMap, heuristic: bool, now: Time, t: Served, r: Rid)
    requires r in rooms && WorldInv(AtTime(rooms[r], now)) && Free(rooms[r], heuristic)
    requires r in t.rooms && CurrentTick(AtTime(rooms[r], now), heuristic) == Ticked(t.rooms[r], None)
    ensures var w, w' := AtTime(rooms[r], now), t.rooms[r];
            && Free(w', heuristic) && (DueNow(w) ==> TicksLeft(w') < TicksLeft(rooms[r])) && TicksLeft(w') <= TicksLeft(rooms[r])
  {
    FreeRoomMoves(AtTime(rooms[r], now), heuristic);
  }

  /** While no room is stuck, every tick gives every room its full share. */
  lemma FreeBeat(rooms: RoomMap, heuristic: bool, beats: seq<Beat>)
    requires AllConsistent(rooms) && AllFree(rooms, heuristic) && beats != [] && Heard(rooms, heuristic, beats)
    ensures var rooms2 := BeatOnce(rooms, heuristic, beats[0]);
            && AllConsistent(rooms2) && AllFree(rooms2, heuristic) && rooms2.Keys == rooms.Keys
            && Heard(rooms2, heuristic, beats[1..])
            && (forall r :: r in rooms ==>
                  && CurrentTick(AtTime(rooms[r], beats[0].now), heuristic) == Ticked(rooms2[r], None)
                  && TicksLeft(rooms2[r]) <= TicksLeft(rooms[r])
                  && (DueNow(AtTime(rooms[r], beats[0].now)) ==> TicksLeft(rooms2[r]) < TicksLeft(rooms[r])))
  {
    var now := beats[0].now;
    var rooms1 := AllAt(rooms, now);
    var t := ServerTick(rooms1, heuristic, beats[0].l);
    BeatIs(rooms, heuristic, beats);
    forall r | r in rooms1 ensures StandCurrent(rooms1[r], heuristic).err.None? {
      assert Free(rooms[r], heuristic);
      FreeDoesNotFail(rooms1[r], heuristic);
      StandFailsExactly(rooms1[r], heuristic);
    }
    forall r | r in rooms
      ensures CurrentTick(AtTime(rooms[r], now), heuristic) == Ticked(t.rooms[r], None)
      ensures Free(t.rooms[r], heuristic) && TicksLeft(t.rooms[r]) <= TicksLeft(rooms[r])
      ensures DueNow(AtTime(rooms[r], now)) ==> TicksLeft(t.rooms[r]) < TicksLeft(rooms[r])
    {
      assert rooms1[r] == AtTime(rooms[r], now) && WorldInv(rooms1[r]);
      FreeShare(rooms, heuristic, now, t, r);
    }
  }

  ghost predicate AllReleased(rooms: RoomMap) { forall r :: r in rooms ==> rooms[r].room.current.None? }

  lemma NothingLeftIsReleased(rooms: RoomMap)
    requires AllConsistent(rooms) && forall r :: r in rooms ==> TicksLeft(rooms[r]) == 0
    ensures AllReleased(rooms)
  {
    forall r | r in rooms ensures rooms[r].room.current.None? {
      assert WorldInv(rooms[r]);
    }
  }

  lemma LeftFalls(rooms: RoomMap, rooms2: RoomMap, now: Time, n: nat)
    requires AllConsistent(rooms) && AllDue(AllAt(rooms, now)) && rooms2.Keys == rooms.Keys && n > 0
    requires forall r :: r in rooms ==> TicksLeft(rooms[r]) <= n && TicksLeft(rooms2[r]) <= TicksLeft(rooms[r])
    requires forall r :: r in rooms && DueNow(AtTime(rooms[r], now)) ==> TicksLeft(rooms2[r]) < TicksLeft(rooms[r])
    ensures forall r :: r in rooms2 ==> TicksLeft(rooms2[r]) <= n - 1
  {
    forall r | r in rooms2 ensures TicksLeft(rooms2[r]) <= n - 1 {
      assert WorldInv(rooms[r]);
      assert AllAt(rooms, now)[r] == AtTime(rooms[r], now);
    }
  }

  /** All rooms are released after as many ticks as are left in any of them. */
  lemma {:induction false} WorkerFinishes(rooms: RoomMap, heuristic: bool, beats: seq<Beat>)
    requires AllConsistent(rooms) && AllFree(rooms, heuristic)
    requires Heard(rooms, heuristic, beats) && WaitsOut(rooms, heuristic, beats)
    requires forall r :: r in rooms ==> TicksLeft(rooms[r]) <= |beats|
    ensures AllReleased(BeatRun(rooms, heuristic, beats))
    decreases |beats|
  {
    if beats == [] {
      NothingLeftIsReleased(rooms);
    } else {
      var rooms2 := BeatOnce(rooms, heuristic, beats[0]);
      FreeBeat(rooms, heuristic, beats);
      LeftFalls(rooms, rooms2, beats[0].now, |beats|);
      WorkerFinishes(rooms2, heuristic, beats[1..]);
    }
  }

  /** How many of the ticks come when what the current session of the room waits for is due. */
  ghost function DueTicks(rooms: RoomMap, heuristic: bool, beats: seq<Beat>, r: Rid): nat
    decreases |beats|
  {
    if beats == [] || r !in rooms then 0
    else (if DueNow(AtTime(rooms[r], beats[0].now)) then 1 else 0)
         + DueTicks(BeatOnce(rooms, heuristic, beats[0]), heuristic, beats[1..], r)
  }

  /** Ticks may come at any time and other rooms may not be due: those that find the room due count. */
  lemma {:induction false} RoomFinishes(rooms: RoomMap, heuristic: bool, beats: seq<Beat>, r: Rid)
    requires AllConsistent(rooms) && AllFree(rooms, heuristic) && Heard(rooms, heuristic, beats) && r in rooms
    requires DueTicks(rooms, heuristic, beats, r) >= TicksLeft(rooms[r])
    ensures r in BeatRun(rooms, heuristic, beats) && BeatRun(rooms, heuristic, beats)[r].room.current.None?
    decreases |beats|
  {
    if beats == [] {
      assert WorldInv(rooms[r]);
    } else {
      FreeBeat(rooms, heuristic, beats);
      RoomFinishes(BeatOnce(rooms, heuristic, beats[0]), heuristic, beats[1..], r);
    }
  }

  // ---- a stuck room ----

  lemma StuckBeat(rooms: RoomMap, heuristic: bool, beats: seq<Beat>, r: Rid, c: Sid)
    requires AllConsistent(rooms) && beats != [] && Heard(rooms, heuristic, beats)
    requires r in rooms && Attended(rooms[r], c) && Stuck(c, rooms[r].db.recs[c], heuristic)
    ensures var rooms2 := BeatOnce(rooms, heuristic, beats[0]);
            r in rooms2 && Attended(rooms2[r], c) && Stuck(c, rooms2[r].db.recs[c], heuristic)
  {
    BeatIs(rooms, heuristic, beats);
    var w1 := AtTime(rooms[r], beats[0].now);
    assert AllAt(rooms, beats[0].now)[r] == w1 && WorldInv(w1);
    StuckRoomStays(w1, c, heuristic, BeatOnce(rooms, heuristic, beats[0])[r]);
  }

  /** A stuck session keeps its room for ever, however often the worker ticks. */
  lemma {:induction false} StuckForEver(rooms: RoomMap, heuristic: bool, beats: seq<Beat>, r: Rid, c: Sid)
    requires AllConsistent(rooms) && Heard(rooms, heuristic, beats)
    requires r in rooms && Attended(rooms[r], c) && Stuck(c, rooms[r].db.recs[c], heuristic)
    ensures r in BeatRun(rooms, heuristic, beats) && BeatRun(rooms, heuristic, beats)[r].room.current == Some(c)
    decreases |beats|
  {
    if beats != [] {
      BeatIs(rooms, heuristic, beats);
      StuckBeat(rooms, heuristic, beats, r, c);
      StuckForEver(BeatOnce(rooms, heuristic, beats[0]), heuristic, beats[1..], r, c);
    }
  }

  /**
   Left alone, the worker releases all rooms of a server within 34 ticks under either policy, exactly
   unless in some room somebody has used the identifier of an entry that the worker will have to write.
   */
  lemma ServerReleasesExactly(rooms: RoomMap, heuristic: bool, beats: seq<Beat>)
    requires AllConsistent(rooms) && Heard(rooms, heuristic, beats) && WaitsOut(rooms, heuristic, beats) && |beats| >= 34
    ensures AllReleased(BeatRun(rooms, heuristic, beats)) <==> AllFree(rooms, heuristic)
  {
    if AllFree(rooms, heuristic) {
      forall r | r in rooms ensures TicksLeft(rooms[r]) <= |beats| {
        assert WorldInv(rooms[r]);
        LeftAtMost34(rooms[r]);
      }
      WorkerFinishes(rooms, heuristic, beats);
    } else {
      var r :| r in rooms && !Free(rooms[r], heuristic);
      assert WorldInv(rooms[r]);
      StuckForEver(rooms, heuristic, beats, r, rooms[r].room.current.value);
    }
  }

  /** The current turn of a room has its loss by time written to the log already. */
  predicate ForfeitUsed(w: World) {
    w.room.current.Some? && w.room.current.value in w.db.recs &&
      var c := w.room.current.value;
      var r := w.db.recs[c];
      r.sess.status == PlayerTurn && ForfeitKey(c, r.player, r.sess.version + 1) in r.logs
  }

  /** Under the default policy one identifier decides for each room: the one of the loss by time. */
  lemma FreeByDefault(w: World)
    requires WorldInv(w)
    ensures Free(w, false) <==> !ForfeitUsed(w)
  {
    if w.room.current.Some? {
      RecordOf(w.db, w.room.current.value);
      StuckByDefault(w.room.current.value, w.db.recs[w.room.current.value]);
    }
  }

  lemma DefaultServerReleasesExactly(rooms: RoomMap, beats: seq<Beat>)
    requires AllConsistent(rooms) && Heard(rooms, false, beats) && WaitsOut(rooms, false, beats) && |beats| >= 34
    ensures AllReleased(BeatRun(rooms, false, beats)) <==> forall r :: r in rooms ==> !ForfeitUsed(rooms[r])
  {
    ServerReleasesExactly(rooms, false, beats);
    forall r | r in rooms ensures Free(rooms[r], false) <==> !ForfeitUsed(rooms[r]) {
      assert WorldInv(rooms[r]);
      FreeByDefault(rooms[r]);
    }
  }

  // ---- the two phases of a round ----

  lemma FirstBeats(rooms: RoomMap, heuristic: bool, beats: seq<Beat>, k: nat)
    requires k < |beats|
    ensures BeatRun(rooms, heuristic, beats[..k + 1])
            == BeatRun(BeatOnce(rooms, heuristic, beats[0]), heuristic, beats[1..][..k])
  {
    assert beats[..k + 1][1..] == beats[1..][..k];
  }

  function HandBound(r: Record): nat { |r.player.hand| + HitsLeft(r.player.hand) }

  ghost predicate TurnOverIn(rooms: RoomMap, r: Rid, c: Sid, most: nat) {
    r in rooms && c in rooms[r].db.recs
    && rooms[r].db.recs[c].sess.status != PlayerTurn && |rooms[r].db.recs[c].player.hand| <= most
  }

  lemma TurnBeat(rooms: RoomMap, heuristic: bool, beats: seq<Beat>, r: Rid, c: Sid) returns (rooms2: RoomMap)
    requires AllConsistent(rooms) && AllFree(rooms, heuristic) && beats != []
    requires Heard(rooms, heuristic, beats) && WaitsOut(rooms, heuristic, beats)
    requires r in rooms && Attended(rooms[r], c) && rooms[r].db.recs[c].sess.status == PlayerTurn
    ensures rooms2 == BeatOnce(rooms, heuristic, beats[0]) && AllConsistent(rooms2) && AllFree(rooms2, heuristic)
    ensures Heard(rooms2, heuristic, beats[1..]) && WaitsOut(rooms2, heuristic, beats[1..])
    ensures r in rooms2 && Attended(rooms2[r], c)
    ensures TurnLeft(rooms2[r].db.recs[c]) < TurnLeft(rooms[r].db.recs[c])
    ensures HandBound(rooms2[r].db.recs[c]) <= HandBound(rooms[r].db.recs[c])
  {
    rooms2 := BeatOnce(rooms, heuristic, beats[0]);
    var w1 := AtTime(rooms[r], beats[0].now);
    FreeBeat(rooms, heuristic, beats);
    LaterAll(rooms, beats[0].now);
    assert AllAt(rooms, beats[0].now)[r] == w1 && WorldInv(w1);
    assert Free(rooms[r], heuristic);
    TurnShare(rooms[r], beats[0].now, c, heuristic, rooms2[r]);
  }

  lemma TurnShare(w: World, now: Time, c: Sid, heuristic: bool, w': World)
    requires Attended(w, c) && Free(w, heuristic) && w.db.recs[c].sess.status == PlayerTurn
    requires WorldInv(AtTime(w, now)) && DueNow(AtTime(w, now))
    requires CurrentTick(AtTime(w, now), heuristic) == Ticked(w', None)
    ensures Attended(w', c)
    ensures TurnLeft(w'.db.recs[c]) < TurnLeft(w.db.recs[c]) && HandBound(w'.db.recs[c]) <= HandBound(w.db.recs[c])
  {
    FreeDoesNotFail(AtTime(w, now), heuristic);
    var w2 := TickProgress(AtTime(w, now), c, heuristic);
  }

  lemma TurnOverInMore(rooms: RoomMap, r: Rid, c: Sid, most: nat, more: nat)
    requires TurnOverIn(rooms, r, c, most) && most <= more
    ensures TurnOverIn(rooms, r, c, more)
  {
  }

  lemma {:induction false} TurnEndsIn(rooms: RoomMap, heuristic: bool, beats: seq<Beat>, r: Rid, c: Sid) returns (k: nat)
    requires AllConsistent(rooms) && AllFree(rooms, heuristic)
    requires Heard(rooms, heuristic, beats) && WaitsOut(rooms, heuristic, beats)
    requires r in rooms && Attended(rooms[r], c) && |beats| >= TurnLeft(rooms[r].db.recs[c])
    ensures k <= TurnLeft(rooms[r].db.recs[c]) && k <= |beats|
    ensures TurnOverIn(BeatRun(rooms, heuristic, beats[..k]), r, c, HandBound(rooms[r].db.recs[c]))
    decreases |beats|
  {
    if rooms[r].db.recs[c].sess.status != PlayerTurn {
      k := 0;
      assert beats[..0] == [];
    } else {
      var rooms2 := TurnBeat(rooms, heuristic, beats, r, c);
      var j := TurnEndsIn(rooms2, heuristic, beats[1..], r, c);
      k := j + 1;
      FirstBeats(rooms, heuristic, beats, j);
      TurnOverInMore(BeatRun(rooms2, heuristic, beats[1..][..j]), r, c,
                     HandBound(rooms2[r].db.recs[c]), HandBound(rooms[r].db.recs[c]));
    }
  }

  /** While no room is stuck, a timed-out turn is over within 16 ticks and after at most 15 forced cards. */
  lemma TurnEnds(rooms: RoomMap, heuristic: bool, beats: seq<Beat>, r: Rid, c: Sid) returns (k: nat)
    requires AllConsistent(rooms) && AllFree(rooms, heuristic)
    requires Heard(rooms, heuristic, beats) && WaitsOut(rooms, heuristic, beats)
    requires r in rooms && Attended(rooms[r], c) && |beats| >= 16
    ensures k <= 16
    ensures TurnOverIn(BeatRun(rooms, heuristic, beats[..k]), r, c, |rooms[r].db.recs[c].player.hand| + 15)
  {
    RecordOf(rooms[r].db, c);
    LeftIsBounded(rooms[r].db.recs[c]);
    k := TurnEndsIn(rooms, heuristic, beats, r, c);
  }

  ghost predicate SettledIn(rooms: RoomMap, r: Rid, c: Sid) {
    r in rooms && c in rooms[r].db.recs && rooms[r].db.recs[c].sess.status == Resetting
  }

  lemma DealerBeat(rooms: RoomMap, heuristic: bool, beats: seq<Beat>, r: Rid, c: Sid) returns (rooms2: RoomMap)
    requires AllConsistent(rooms) && AllFree(rooms, heuristic) && beats != [] && Heard(rooms, heuristic, beats)
    requires r in rooms && Attended(rooms[r], c) && rooms[r].db.recs[c].sess.status == DealerTurn
    ensures rooms2 == BeatOnce(rooms, heuristic, beats[0]) && AllConsistent(rooms2) && AllFree(rooms2, heuristic)
    ensures Heard(rooms2, heuristic, beats[1..]) && r in rooms2 && Attended(rooms2[r], c)
    ensures rooms2[r].db.recs[c].sess.status != PlayerTurn
    ensures DealerLeft(rooms2[r].db.recs[c]) < DealerLeft(rooms[r].db.recs[c])
  {
    rooms2 := BeatOnce(rooms, heuristic, beats[0]);
    var w1 := AtTime(rooms[r], beats[0].now);
    FreeBeat(rooms, heuristic, beats);
    LaterAll(rooms, beats[0].now);
    assert AllAt(rooms, beats[0].now)[r] == w1 && WorldInv(w1);
    DealerShare(rooms[r], beats[0].now, c, heuristic, rooms2[r]);
  }

  lemma DealerShare(w: World, now: Time, c: Sid, heuristic: bool, w': World)
    requires Attended(w, c) && w.db.recs[c].sess.status == DealerTurn && WorldInv(AtTime(w, now))
    requires CurrentTick(AtTime(w, now), heuristic) == Ticked(w', None)
    ensures Attended(w', c) && w'.db.recs[c].sess.status != PlayerTurn
    ensures DealerLeft(w'.db.recs[c]) < DealerLeft(w.db.recs[c])
  {
    var w2 := TickProgress(AtTime(w, now), c, heuristic);
  }

  lemma StatusIsOneOfThree(r: Record)
    requires RecordInv(r)
    ensures r.sess.status == PlayerTurn || r.sess.status == DealerTurn || r.sess.status == Resetting
  {
  }

  lemma {:induction false} DealerSettlesIn(rooms: RoomMap, heuristic: bool, beats: seq<Beat>, r: Rid, c: Sid)
    returns (k: nat)
    requires AllConsistent(rooms) && AllFree(rooms, heuristic) && Heard(rooms, heuristic, beats)
    requires r in rooms && Attended(rooms[r], c) && rooms[r].db.recs[c].sess.status != PlayerTurn
    requires |beats| >= DealerLeft(rooms[r].db.recs[c])
    ensures k <= DealerLeft(rooms[r].db.recs[c]) && k <= |beats|
    ensures SettledIn(BeatRun(rooms, heuristic, beats[..k]), r, c)
    decreases |beats|
  {
    if rooms[r].db.recs[c].sess.status == DealerTurn {
      var rooms2 := DealerBeat(rooms, heuristic, beats, r, c);
      var j := DealerSettlesIn(rooms2, heuristic, beats[1..], r, c);
      k := j + 1;
      FirstBeats(rooms, heuristic, beats, j);
    } else {
      RecordOf(rooms[r].db, c);
      StatusIsOneOfThree(rooms[r].db.recs[c]);
      k := 0;
      assert beats[..0] == [];
    }
  }

  /** While no room is stuck, a dealer's turn is settled within 16 ticks, due or not. */
  lemma DealerSettles(rooms: RoomMap, heuristic: bool, beats: seq<Beat>, r: Rid, c: Sid) returns (k: nat)
    requires AllConsistent(rooms) && AllFree(rooms, heuristic) && Heard(rooms, heuristic, beats) && |beats| >= 16
    requires r in rooms && Attended(rooms[r], c) && rooms[r].db.recs[c].sess.status == DealerTurn
    ensures k <= 16 && SettledIn(BeatRun(rooms, heuristic, beats[..k]), r, c)
  {
    RecordOf(rooms[r].db, c);
    LeftIsBounded(rooms[r].db.recs[c]);
    k := DealerSettlesIn(rooms, heuristic, beats, r, c);
  }

  // ---- a room that blocks the server ----

  /** The only turn of a room is due and fails: its entry cannot be written, or the room has let go of it. */
  ghost predicate Blocks(w: World, s: Sid, heuristic: bool) {
    && s in w.db.recs && TurnIsDue(w.db.recs[s].sess, w.db.now)
    && (forall u :: u in w.db.recs && w.db.recs[u].sess.status == PlayerTurn ==> u == s)
    && ((Attended(w, s) && KeyUsed(s, w.db.recs[s], heuristic))
        || (TablesInv(w) && w.room.current.None?
            && (AutoHits(w.db.recs[s], heuristic) || ForfeitKey(s, w.db.recs[s].player, w.db.recs[s].sess.version + 1) in w.db.recs[s].logs)))
  }

  /** Under the heuristic policy a turn outside its room is made to hit in a room without a session. */
  lemma LostHitFails(w: World, s: Sid, heuristic: bool)
    requires TablesInv(w) && s in w.db.recs && TurnIsDue(w.db.recs[s].sess, w.db.now)
    requires w.room.current.None? && AutoHits(w.db.recs[s], heuristic)
    ensures PlayerStandCall(w, s, heuristic) == Err(InvalidGameState)
  {
    RecordOf(w.db, s);
    VersionIsPositive(w.db.recs[s]);
  }

  /**
   The timeout of a turn that its room has let go of: a forced hit fails; otherwise the turn is lost
   and the room gets the session back, exactly unless the identifier of the entry has been used.
   */
  lemma LostRoundTimeout(w: World, s: Sid, heuristic: bool)
    requires TablesInv(w) && s in w.db.recs && TurnIsDue(w.db.recs[s].sess, w.db.now) && w.room.current.None?
    ensures var r, a := w.db.recs[s], PlayerStandCall(w, s, heuristic);
            if AutoHits(r, heuristic) then a == Err(InvalidGameState)
            else if ForfeitKey(s, r.player, r.sess.version + 1) in r.logs then a == Err(UniqueViolation)
            else a.Ok? && a.value.room.current == Some(s) && a.value.db.recs[s].sess.status == Resetting
  {
    RecordOf(w.db, s);
    if AutoHits(w.db.recs[s], heuristic) {
      LostHitFails(w, s, heuristic);
    } else {
      ForfeitRecordAnswers(s, w.db.recs[s], w.db.now);
    }
  }

  lemma BlockerFails(w: World, s: Sid, heuristic: bool)
    requires Blocks(w, s, heuristic)
    ensures PlayerStandCall(w, s, heuristic).Err? && !Tolerated(PlayerStandCall(w, s, heuristic).error)
  {
    if w.room.current.None? {
      LostRoundTimeout(w, s, heuristic);
    } else {
      TimeoutFailsExactlyOnUsedKey(w, s, heuristic);
    }
  }

  lemma BlocksLater(w: World, s: Sid, heuristic: bool, now: Time)
    requires Blocks(w, s, heuristic) && now >= w.db.now
    ensures Blocks(AtTime(w, now), s, heuristic)
  {
    if w.room.current.Some? {
      LaterIsConsistent(w, now);
    } else {
      TickKeepsDbInv(w.db, now);
    }
  }

  /** What remains of a room when only its due turns are served: its clock aside, all that is not a player's turn. */
  ghost predicate OnlyTurnsServed(w: World, w': World) {
    && w'.db.recs.Keys == w.db.recs.Keys
    && (w.room.current.Some? ==> w'.room.current.Some?)
    && (forall s :: s in w.db.recs && w.db.recs[s].sess.status != PlayerTurn ==> w'.db.recs[s] == w.db.recs[s])
    && ((forall s :: s in w.db.recs ==> w.db.recs[s].sess.status != PlayerTurn) ==> AtTime(w', w.db.now) == w)
  }

  lemma TurnsServedTwice(a: World, b: World, c: World)
    requires OnlyTurnsServed(a, b) && OnlyTurnsServed(b, c)
    ensures OnlyTurnsServed(a, c)
  {
  }

  lemma PlayServesTurns(w: World, user: string, expected: int, actionId: string, hit: bool)
    requires PlayerTurnCall(w, user, expected, actionId, hit).Ok?
    ensures OnlyTurnsServed(w, PlayerTurnCall(w, user, expected, actionId, hit).value)
  {
    var c := w.room.current.value;
    var r' := PlayRecord(w.db.recs[c], user, expected, actionId, hit, w.db.now).value;
    assert r' != w.db.recs[c] ==> w.db.recs[c].sess.status == PlayerTurn;
  }

  lemma StandServesTurns(w: World, s: Sid, heuristic: bool)
    ensures OnlyTurnsServed(w, Then(w, PlayerStandCall(w, s, heuristic)).w)
  {
    if PlayerStandCall(w, s, heuristic).Ok? {
      var r := w.db.recs[s];
      if TurnIsDue(r.sess, w.db.now) && AutoHits(r, heuristic) {
        PlayServesTurns(w, r.player.userId, r.sess.version, AutoHitId(s, r.sess.version), true);
      }
    }
  }

  lemma {:induction false} StandAllServesTurns(w: World, list: seq<Sid>, heuristic: bool)
    ensures OnlyTurnsServed(w, HandleAll(w, list, StandHandler(heuristic)).w)
    decreases |list|
  {
    if list != [] {
      var mid := HandleAll(w, list[..|list| - 1], StandHandler(heuristic)).w;
      StandAllServesTurns(w, list[..|list| - 1], heuristic);
      StandServesTurns(mid, list[|list| - 1], heuristic);
      TurnsServedTwice(w, mid, HandleAll(w, list, StandHandler(heuristic)).w);
    }
  }

  lemma OnlyBlockerIsDue(w: World, s: Sid, heuristic: bool, list: seq<Sid>)
    requires Blocks(w, s, heuristic) && Lists(list, w, DueTurns)
    ensures list == [s]
  {
    FirstsAreMembers(list);
    assert s in list;
  }

  /** While a room blocks the server, every tick ends before the dealers, and that room stays as it is. */
  lemma BlockedTick(rooms: RoomMap, heuristic: bool, l: Listing, a: Rid, s: Sid)
    requires a in rooms && Blocks(rooms[a], s, heuristic) && ListedAll(rooms, heuristic, l)
    ensures var t := ServerTick(rooms, heuristic, l);
            && t.err.Some? && t.rooms.Keys == rooms.Keys && t.rooms[a] == rooms[a]
            && forall r :: r in rooms ==> OnlyTurnsServed(rooms[r], t.rooms[r])
  {
    var handle, t := StandHandler(heuristic), ServeAll(rooms, l.due, StandHandler(heuristic));
    ServedIsShared(rooms, l.due, handle);
    ShareIsListed(l.due, rooms, DueTurns, a);
    OnlyBlockerIsDue(rooms[a], s, heuristic, OfRoom(l.due, a));
    BlockerFails(rooms[a], s, heuristic);
    HandleOne(rooms[a], s, handle);
    assert Share(rooms, l.due, handle, a).err.Some?;
    PartlyOne(rooms[a], OfRoom(l.due, a), handle, t.rooms[a]);
    forall r | r in rooms ensures OnlyTurnsServed(rooms[r], t.rooms[r]) {
      PartlyServesTurns(rooms[r], OfRoom(l.due, r), heuristic, t.rooms[r]);
    }
  }

  lemma PartlyServesTurns(w: World, list: seq<Sid>, heuristic: bool, w': World)
    requires Partly(w, list, StandHandler(heuristic), w')
    ensures OnlyTurnsServed(w, w')
  {
    var k: nat :| k <= |list| && HandleAll(w, list[..k], StandHandler(heuristic)).w == w';
    StandAllServesTurns(w, list[..k], heuristic);
  }

  lemma OnlyTheClock(w: World, now: Time)
    ensures OnlyTurnsServed(w, AtTime(w, now))
  {
  }

  /** No dealer moves, no finished round is settled or continued, and no room is released. */
  ghost predicate NobodyElseServed(rooms: RoomMap, rooms': RoomMap) {
    rooms'.Keys == rooms.Keys && forall r :: r in rooms ==> OnlyTurnsServed(rooms[r], rooms'[r])
  }

  lemma NobodyServedTwice(a: RoomMap, b: RoomMap, c: RoomMap)
    requires NobodyElseServed(a, b) && NobodyElseServed(b, c)
    ensures NobodyElseServed(a, c)
  {
    forall r | r in a ensures OnlyTurnsServed(a[r], c[r]) {
      TurnsServedTwice(a[r], b[r], c[r]);
    }
  }

  lemma OnlyTheClocks(rooms: RoomMap, now: Time)
    ensures NobodyElseServed(rooms, AllAt(rooms, now))
  {
    forall r | r in rooms ensures OnlyTurnsServed(rooms[r], AllAt(rooms, now)[r]) {
      OnlyTheClock(rooms[r], now);
    }
  }

  lemma NobodyServedYet(rooms: RoomMap)
    ensures NobodyElseServed(rooms, rooms)
  {
    forall r | r in rooms ensures OnlyTurnsServed(rooms[r], rooms[r]) {
      OnlyTheClock(rooms[r], rooms[r].db.now);
    }
  }

  lemma BlockedBeat(rooms: RoomMap, heuristic: bool, b: Beat, a: Rid, s: Sid)
    requires a in rooms && Blocks(rooms[a], s, heuristic)
    requires NotLaterThan(rooms, b.now) && ListedAll(AllAt(rooms, b.now), heuristic, b.l)
    ensures ServerTick(AllAt(rooms, b.now), heuristic, b.l).err.Some?
    ensures NobodyElseServed(rooms, BeatOnce(rooms, heuristic, b))
    ensures Blocks(BeatOnce(rooms, heuristic, b)[a], s, heuristic)
  {
    BlocksLater(rooms[a], s, heuristic, b.now);
    BlockedTick(AllAt(rooms, b.now), heuristic, b.l, a, s);
    OnlyTheClocks(rooms, b.now);
    NobodyServedTwice(rooms, AllAt(rooms, b.now), BeatOnce(rooms, heuristic, b));
  }

  /**
   One room with a due turn that cannot be served stops the whole server: however often the worker
   ticks, no dealer of any room moves, no finished round of any room is settled or continued, and no
   room is released.
   */
  lemma {:induction false} OneRoomBlocksAll(rooms: RoomMap, heuristic: bool, beats: seq<Beat>, a: Rid, s: Sid)
    requires a in rooms && Blocks(rooms[a], s, heuristic) && Heard(rooms, heuristic, beats)
    ensures NobodyElseServed(rooms, BeatRun(rooms, heuristic, beats))
    decreases |beats|
  {
    if beats == [] {
      NobodyServedYet(rooms);
    } else {
      var rooms2 := BeatOnce(rooms, heuristic, beats[0]);
      BlockedBeat(rooms, heuristic, beats[0], a, s);
      OneRoomBlocksAll(rooms2, heuristic, beats[1..], a, s);
      NobodyServedTwice(rooms, rooms2, BeatRun(rooms, heuristic, beats));
    }
  }

  /** A due session whose identifier has been used is such a room. */
  lemma UsedKeyBlocks(w: World, c: Sid, heuristic: bool)
    requires Attended(w, c) && TurnIsDue(w.db.recs[c].sess, w.db.now) && KeyUsed(c, w.db.recs[c], heuristic)
    ensures Blocks(w, c, heuristic)
  {
    forall u | u in w.db.recs && w.db.recs[u].sess.status == PlayerTurn ensures u == c {
      RunningIsCurrent(w, u);
    }
  }
}
