/**
 The background worker of a server with any number of rooms. One tick lists the due turns of all
 rooms, then all dealers, then all due rematches, and the first error that is not tolerated ends it
 for every room.
 */
module Server {
  import opened Wrappers
  import opened Cards
  import opened Rounds
  import opened RoundInvariant
  import opened SessionStore
  import opened Rooms
  import opened RoomInvariant
  import opened Worker

  type Rid = string

  type RoomMap = map<Rid, World>

  /** A listed session and the room it belongs to. */
  datatype Entry = Entry(room: Rid, sid: Sid)

  /** The rooms after some calls of a tick, and the error that ended the tick early, if any. */
  datatype Served = Served(rooms: RoomMap, err: Option<Error>)

  /** Handles one session of one room; nothing is done for a room that is not there. */
  function ServeOne(rooms: RoomMap, e: Entry, handle: Handler): Served {
    if e.room !in rooms then Served(rooms, None)
    else
      var t := Then(rooms[e.room], handle(rooms[e.room], e.sid));
      Served(rooms[e.room := t.w], t.err)
  }

  /** Handles the listed sessions of all rooms one by one until an error that is not tolerated. */
  function ServeAll(rooms: RoomMap, list: seq<Entry>, handle: Handler): Served {
    if list == [] then Served(rooms, None)
    else
      var t := ServeAll(rooms, list[..|list| - 1], handle);
      if t.err.Some? then t else ServeOne(t.rooms, list[|list| - 1], handle)
  }

  /** What a query returns: each matching session of each room once, in some order. */
  ghost predicate ListsAll(list: seq<Entry>, rooms: RoomMap, q: Query) {
    && Distinct(list)
    && forall e :: e in list <==> e.room in rooms && e.sid in rooms[e.room].db.recs
                                  && Matches(q, rooms[e.room].db.recs[e.sid].sess, rooms[e.room].db.now)
  }

  /** What the three queries of a tick return, and what a rematch would need. */
  datatype Listing = Listing(due: seq<Entry>, dealing: seq<Entry>, rematch: seq<Entry>, sid: Sid, deck: seq<StoredCard>)

  type ServerPhase = RoomMap -> Served

  /** Runs the next phase unless the tick has ended early. */
  function Continue(t: Served, next: ServerPhase): Served { if t.err.Some? then t else next(t.rooms) }

  ghost function StandPhaseOf(heuristic: bool, l: Listing): ServerPhase {
    rooms => ServeAll(rooms, l.due, StandHandler(heuristic))
  }

  ghost function DealPhaseOf(l: Listing): ServerPhase { rooms => ServeAll(rooms, l.dealing, DealerTurnCall) }

  ghost function RematchPhaseOf(l: Listing): ServerPhase {
    rooms => ServeAll(rooms, l.rematch, RematchHandler(l.sid, l.deck))
  }

  /** One tick: due turns, then dealers, then due rematches, of all rooms. */
  ghost function ServerTick(rooms: RoomMap, heuristic: bool, l: Listing): Served {
    Continue(Continue(StandPhaseOf(heuristic, l)(rooms), DealPhaseOf(l)), RematchPhaseOf(l))
  }

  /** The lists are what the queries of this tick find when they are made. */
  ghost predicate ListedAll(rooms: RoomMap, heuristic: bool, l: Listing) {
    var t1 := StandPhaseOf(heuristic, l)(rooms);
    var t2 := Continue(t1, DealPhaseOf(l));
    && GoodDeck(l.deck)
    && ListsAll(l.due, rooms, DueTurns)
    && (t1.err.None? ==> ListsAll(l.dealing, t1.rooms, Dealers))
    && (t2.err.None? ==> ListsAll(l.rematch, t2.rooms, DueRematches))
  }

  // ---- one room's share of a list ----

  function OfRoom(list: seq<Entry>, r: Rid): seq<Sid> {
    if list == [] then []
    else
      var e := list[|list| - 1];
      OfRoom(list[..|list| - 1], r) + if e.room == r then [e.sid] else []
  }

  lemma {:induction false} ShareHolds(list: seq<Entry>, r: Rid, s: Sid)
    ensures s in OfRoom(list, r) <==> Entry(r, s) in list
    decreases |list|
  {
    if list != [] {
      ShareHolds(list[..|list| - 1], r, s);
      assert list == list[..|list| - 1] + [list[|list| - 1]];
    }
  }

  lemma {:induction false} ShareIsDistinct(list: seq<Entry>, r: Rid)
    requires Distinct(list)
    ensures Distinct(OfRoom(list, r))
    decreases |list|
  {
    if list != [] {
      var init, e := list[..|list| - 1], list[|list| - 1];
      ShareIsDistinct(init, r);
      ShareHolds(init, r, e.sid);
      assert e !in init;
      var share := OfRoom(init, r);
      forall i, j | 0 <= i < j < |OfRoom(list, r)| ensures OfRoom(list, r)[i] != OfRoom(list, r)[j] {
        if j == |share| {
          assert share[i] in share;
        }
      }
    }
  }

  lemma ShareIsListed(list: seq<Entry>, rooms: RoomMap, q: Query, r: Rid)
    requires ListsAll(list, rooms, q) && r in rooms
    ensures Lists(OfRoom(list, r), rooms[r], q)
  {
    ShareIsDistinct(list, r);
    forall s ensures s in OfRoom(list, r) <==> Entry(r, s) in list {
      ShareHolds(list, r, s);
    }
    assert forall s :: Entry(r, s) in list <==> s in rooms[r].db.recs && Matches(q, rooms[r].db.recs[s].sess, rooms[r].db.now);
  }

  function Share(rooms: RoomMap, list: seq<Entry>, handle: Handler, r: Rid): Ticked
    requires r in rooms
  {
    HandleAll(rooms[r], OfRoom(list, r), handle)
  }

  /** Some of the list has been handled, from its beginning. */
  ghost predicate Partly(w: World, list: seq<Sid>, handle: Handler, w': World) {
    exists k: nat :: k <= |list| && HandleAll(w, list[..k], handle).w == w'
  }

  lemma PartlyAll(w: World, list: seq<Sid>, handle: Handler)
    ensures Partly(w, list, handle, HandleAll(w, list, handle).w)
  {
    assert list[..|list|] == list;
  }

  lemma PartlyLonger(w: World, list: seq<Sid>, more: seq<Sid>, handle: Handler, w': World)
    requires Partly(w, list, handle, w')
    ensures Partly(w, list + more, handle, w')
  {
    var k: nat :| k <= |list| && HandleAll(w, list[..k], handle).w == w';
    assert (list + more)[..k] == list[..k];
  }

  lemma ShareNext(rooms: RoomMap, list: seq<Entry>, handle: Handler, r: Rid)
    requires list != [] && r in rooms
    ensures var init, e := list[..|list| - 1], list[|list| - 1];
            var before := Share(rooms, init, handle, r);
            Share(rooms, list, handle, r)
            == if e.room != r || before.err.Some? then before else Then(before.w, handle(before.w, e.sid))
  {
    var init, e := list[..|list| - 1], list[|list| - 1];
    if e.room == r {
      assert OfRoom(list, r)[..|OfRoom(list, r)| - 1] == OfRoom(init, r);
    } else {
      assert OfRoom(list, r) == OfRoom(init, r);
    }
  }

  /** A list over all rooms gives each room its share, as long as no share ends in an error. */
  ghost predicate Shared(rooms: RoomMap, list: seq<Entry>, handle: Handler, t: Served) {
    && t.rooms.Keys == rooms.Keys
    && (t.err.None? <==> forall r :: r in rooms ==> Share(rooms, list, handle, r).err.None?)
    && (t.err.None? ==> forall r :: r in rooms ==> Share(rooms, list, handle, r) == Ticked(t.rooms[r], None))
    && (forall r :: r in rooms ==> Partly(rooms[r], OfRoom(list, r), handle, t.rooms[r]))
  }

  lemma StopKeepsShared(rooms: RoomMap, list: seq<Entry>, handle: Handler, t: Served)
    requires list != [] && t.err.Some? && Shared(rooms, list[..|list| - 1], handle, t)
    ensures Shared(rooms, list, handle, t)
  {
    var init, e := list[..|list| - 1], list[|list| - 1];
    var bad :| bad in rooms && Share(rooms, init, handle, bad).err.Some?;
    ShareNext(rooms, list, handle, bad);
    forall r | r in rooms ensures Partly(rooms[r], OfRoom(list, r), handle, t.rooms[r]) {
      PartlyLonger(rooms[r], OfRoom(init, r), if e.room == r then [e.sid] else [], handle, t.rooms[r]);
    }
  }

  lemma RoomOfStep(rooms: RoomMap, list: seq<Entry>, handle: Handler, t: Served, r: Rid)
    requires list != [] && r in rooms && r in t.rooms
    requires Share(rooms, list[..|list| - 1], handle, r) == Ticked(t.rooms[r], None)
    ensures var e, t' := list[|list| - 1], ServeOne(t.rooms, list[|list| - 1], handle);
            && r in t'.rooms
            && Share(rooms, list, handle, r) == Ticked(t'.rooms[r], if e.room == r then t'.err else None)
            && Partly(rooms[r], OfRoom(list, r), handle, t'.rooms[r])
  {
    ShareNext(rooms, list, handle, r);
    PartlyAll(rooms[r], OfRoom(list, r), handle);
  }

  lemma SharedByEach(rooms: RoomMap, list: seq<Entry>, handle: Handler, t: Served, last: Rid)
    requires t.rooms.Keys == rooms.Keys && (t.err.Some? ==> last in rooms)
    requires forall r :: r in rooms ==> Share(rooms, list, handle, r) == Ticked(t.rooms[r], if last == r then t.err else None)
    requires forall r :: r in rooms ==> Partly(rooms[r], OfRoom(list, r), handle, t.rooms[r])
    ensures Shared(rooms, list, handle, t)
  {
    if t.err.Some? {
      assert Share(rooms, list, handle, last).err.Some?;
    }
  }

  lemma ServeOneKeys(rooms: RoomMap, e: Entry, handle: Handler)
    ensures var t := ServeOne(rooms, e, handle); t.rooms.Keys == rooms.Keys && (t.err.Some? ==> e.room in rooms)
  {
  }

  lemma StepKeepsShared(rooms: RoomMap, list: seq<Entry>, handle: Handler, t: Served)
    requires list != [] && t.err.None? && Shared(rooms, list[..|list| - 1], handle, t)
    ensures Shared(rooms, list, handle, ServeOne(t.rooms, list[|list| - 1], handle))
  {
    var e := list[|list| - 1];
    ServeOneKeys(t.rooms, e, handle);
    forall r | r in rooms
      ensures var t' := ServeOne(t.rooms, e, handle);
              && Share(rooms, list, handle, r) == Ticked(t'.rooms[r], if e.room == r then t'.err else None)
              && Partly(rooms[r], OfRoom(list, r), handle, t'.rooms[r])
    {
      RoomOfStep(rooms, list, handle, t, r);
    }
    SharedByEach(rooms, list, handle, ServeOne(t.rooms, e, handle), e.room);
  }

  /** Handling a list over all rooms is handling each room's share, as far as it gets. */
  lemma {:induction false} ServedIsShared(rooms: RoomMap, list: seq<Entry>, handle: Handler)
    ensures Shared(rooms, list, handle, ServeAll(rooms, list, handle))
    decreases |list|
  {
    if list == [] {
      forall r | r in rooms ensures Partly(rooms[r], OfRoom(list, r), handle, rooms[r]) {
        PartlyAll(rooms[r], [], handle);
      }
    } else {
      var t := ServeAll(rooms, list[..|list| - 1], handle);
      ServedIsShared(rooms, list[..|list| - 1], handle);
      if t.err.Some? {
        StopKeepsShared(rooms, list, handle, t);
      } else {
        StepKeepsShared(rooms, list, handle, t);
      }
    }
  }

  // ---- one tick ----

  ghost predicate AllConsistent(rooms: RoomMap) { forall r {:trigger rooms[r]} :: r in rooms ==> WorldInv(rooms[r]) }

  /** After the first phase of a tick, which may have ended early. */
  ghost predicate TurnsServed(rooms: RoomMap, heuristic: bool, t: Served) {
    && t.rooms.Keys == rooms.Keys
    && (t.err.None? <==> forall r :: r in rooms ==> StandCurrent(rooms[r], heuristic).err.None?)
    && (t.err.None? ==> forall r :: r in rooms ==> t.rooms[r] == StandCurrent(rooms[r], heuristic).w)
    && (forall r :: r in rooms ==> t.rooms[r] == rooms[r] || t.rooms[r] == StandCurrent(rooms[r], heuristic).w)
  }

  lemma PartlyOne(w: World, list: seq<Sid>, handle: Handler, w': World)
    requires |list| <= 1 && Partly(w, list, handle, w')
    ensures w' == w || w' == HandleAll(w, list, handle).w
  {
    var k: nat :| k <= |list| && HandleAll(w, list[..k], handle).w == w';
    assert list[..k] == [] || list[..k] == list;
  }

  lemma TurnsAreServed(rooms: RoomMap, heuristic: bool, list: seq<Entry>)
    requires AllConsistent(rooms) && ListsAll(list, rooms, DueTurns)
    ensures TurnsServed(rooms, heuristic, ServeAll(rooms, list, StandHandler(heuristic)))
  {
    var handle, t := StandHandler(heuristic), ServeAll(rooms, list, StandHandler(heuristic));
    ServedIsShared(rooms, list, handle);
    forall r | r in rooms
      ensures Share(rooms, list, handle, r) == StandCurrent(rooms[r], heuristic)
      ensures t.rooms[r] == rooms[r] || t.rooms[r] == StandCurrent(rooms[r], heuristic).w
    {
      ShareIsListed(list, rooms, DueTurns, r);
      StandAllIsCurrent(rooms[r], OfRoom(list, r), heuristic);
      OneListed(rooms[r], OfRoom(list, r), DueTurns);
      PartlyOne(rooms[r], OfRoom(list, r), handle, t.rooms[r]);
    }
  }

  lemma DealersAreServed(rooms: RoomMap, list: seq<Entry>)
    requires AllConsistent(rooms) && ListsAll(list, rooms, Dealers)
    ensures var t := ServeAll(rooms, list, DealerTurnCall);
            t.err.None? && t.rooms.Keys == rooms.Keys
            && forall r :: r in rooms ==> DealCurrent(rooms[r]) == Ticked(t.rooms[r], None) && WorldInv(t.rooms[r])
  {
    ServedIsShared(rooms, list, DealerTurnCall);
    forall r | r in rooms
      ensures Share(rooms, list, DealerTurnCall, r) == DealCurrent(rooms[r]) && DealCurrent(rooms[r]).err.None?
      ensures WorldInv(DealCurrent(rooms[r]).w)
    {
      ShareIsListed(list, rooms, Dealers, r);
      DealAllIsCurrent(rooms[r], OfRoom(list, r));
    }
  }

  lemma RematchesAreServed(rooms: RoomMap, list: seq<Entry>, sid: Sid, deck: seq<StoredCard>)
    requires AllConsistent(rooms) && ListsAll(list, rooms, DueRematches) && GoodDeck(deck)
    ensures var t := ServeAll(rooms, list, RematchHandler(sid, deck));
            t.err.None? && t.rooms.Keys == rooms.Keys
            && forall r :: r in rooms ==> RematchCurrent(rooms[r]) == Ticked(t.rooms[r], None) && WorldInv(t.rooms[r])
  {
    var handle := RematchHandler(sid, deck);
    ServedIsShared(rooms, list, handle);
    forall r | r in rooms
      ensures Share(rooms, list, handle, r) == RematchCurrent(rooms[r]) && RematchCurrent(rooms[r]).err.None?
      ensures WorldInv(RematchCurrent(rooms[r]).w)
    {
      ShareIsListed(list, rooms, DueRematches, r);
      RematchAllIsCurrent(rooms[r], OfRoom(list, r), sid, deck);
    }
  }

  /** What a tick does to consistent rooms, whatever the order of its lists. */
  ghost predicate TickServes(rooms: RoomMap, heuristic: bool, t: Served) {
    && t.rooms.Keys == rooms.Keys
    && (t.err.None? <==> forall r :: r in rooms ==> StandCurrent(rooms[r], heuristic).err.None?)
    && (t.err.None? ==> forall r :: r in rooms ==> CurrentTick(rooms[r], heuristic) == Ticked(t.rooms[r], None))
    && (t.err.Some? ==> forall r :: r in rooms ==> t.rooms[r] == rooms[r] || t.rooms[r] == StandCurrent(rooms[r], heuristic).w)
  }

  lemma StandKeepsConsistent(rooms: RoomMap, heuristic: bool, t: Served)
    requires AllConsistent(rooms) && TurnsServed(rooms, heuristic, t)
    ensures AllConsistent(t.rooms)
  {
    forall r | r in rooms ensures WorldInv(t.rooms[r]) {
      StandCurrentKeeps(rooms[r], heuristic);
    }
  }

  lemma PhasesServe(rooms: RoomMap, heuristic: bool, l: Listing)
    requires AllConsistent(rooms) && ListedAll(rooms, heuristic, l)
    requires TurnsServed(rooms, heuristic, StandPhaseOf(heuristic, l)(rooms))
    requires StandPhaseOf(heuristic, l)(rooms).err.None? && AllConsistent(StandPhaseOf(heuristic, l)(rooms).rooms)
    ensures TickServes(rooms, heuristic, ServerTick(rooms, heuristic, l))
    ensures AllConsistent(ServerTick(rooms, heuristic, l).rooms)
  {
    var t1 := StandPhaseOf(heuristic, l)(rooms);
    DealersAreServed(t1.rooms, l.dealing);
    var t2 := DealPhaseOf(l)(t1.rooms);
    RematchesAreServed(t2.rooms, l.rematch, l.sid, l.deck);
    var t3 := RematchPhaseOf(l)(t2.rooms);
    forall r | r in rooms ensures CurrentTick(rooms[r], heuristic) == Ticked(t3.rooms[r], None) {
      SharePhases(rooms[r], t1.rooms[r], t2.rooms[r], t3.rooms[r], heuristic);
    }
  }

  lemma SharePhases(w: World, w1: World, w2: World, w3: World, heuristic: bool)
    requires StandCurrent(w, heuristic) == Ticked(w1, None) && DealCurrent(w1) == Ticked(w2, None)
    requires RematchCurrent(w2) == Ticked(w3, None)
    ensures CurrentTick(w, heuristic) == Ticked(w3, None)
  {
  }

  /**
   A tick fails exactly if some room's due turn fails. If it does not, every room gets its full share;
   if it does, no dealer and no rematch of any room is served.
   */
  lemma ServerTickIs(rooms: RoomMap, heuristic: bool, l: Listing)
    requires AllConsistent(rooms) && ListedAll(rooms, heuristic, l)
    ensures TickServes(rooms, heuristic, ServerTick(rooms, heuristic, l))
    ensures AllConsistent(ServerTick(rooms, heuristic, l).rooms)
  {
    var t1 := StandPhaseOf(heuristic, l)(rooms);
    TurnsAreServed(rooms, heuristic, l.due);
    StandKeepsConsistent(rooms, heuristic, t1);
    if t1.err.None? {
      PhasesServe(rooms, heuristic, l);
    }
  }
}
