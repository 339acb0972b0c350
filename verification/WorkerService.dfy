/** The background worker as the server runs it: three loops over the sessions that its queries find in all rooms. */
module WorkerService {
  import opened Wrappers
  import opened Cards
  import opened Shuffle
  import opened Rounds
  import opened RoundInvariant
  import opened SessionStore
  import opened Rooms
  import opened RoomInvariant
  import opened Worker
  import opened WorkerProgress
  import opened Server
  import opened ServerRuns
  import opened RoomService

  // ---- one more entry of a list ----

  /** Handling one more entry, given what the call on its room answered. */
  lemma ServeNext(rooms: RoomMap, list: seq<Entry>, i: nat, handle: Handler, mid: RoomMap, answer: Result<World, Error>)
    requires i < |list| && ServeAll(rooms, list[..i], handle) == Served(mid, None)
    requires list[i].room in mid && handle(mid[list[i].room], list[i].sid) == answer
    ensures var err := ErrorOf(answer);
            ServeAll(rooms, list[..i + 1], handle)
            == Served(mid[list[i].room := ValueOr(answer, mid[list[i].room])],
                      if err.Some? && Tolerated(err.value) then None else err)
  {
    assert list[..i + 1][..i] == list[..i];
  }

  /** An error that is not tolerated ends the handling of the whole list. */
  lemma {:induction false} ServingStops(rooms: RoomMap, list: seq<Entry>, k: nat, handle: Handler)
    requires k <= |list| && ServeAll(rooms, list[..k], handle).err.Some?
    ensures ServeAll(rooms, list, handle) == ServeAll(rooms, list[..k], handle)
    decreases |list| - k
  {
    if k < |list| {
      assert list[..k + 1][..k] == list[..k];
      ServingStops(rooms, list, k + 1, handle);
    } else {
      assert list[..k] == list;
    }
  }

  /** What the worker does with the sessions of a list. */
  datatype Job = Stand(heuristic: bool) | Deal | Rematch(sid: Sid, deck: seq<StoredCard>)

  ghost function HandlerOf(job: Job): Handler {
    match job
    case Stand(heuristic) => StandHandler(heuristic)
    case Deal => DealerTurnCall
    case Rematch(sid, deck) => RematchHandler(sid, deck)
  }

  lemma EndsAtTurns(rooms: RoomMap, heuristic: bool, l: Listing, t1: Served)
    requires GoodDeck(l.deck) && ListsAll(l.due, rooms, DueTurns)
    requires t1 == ServeAll(rooms, l.due, HandlerOf(Job.Stand(heuristic))) && t1.err.Some?
    ensures ListedAll(rooms, heuristic, l) && ServerTick(rooms, heuristic, l) == t1
  {
  }

  lemma EndsAtDealers(rooms: RoomMap, heuristic: bool, l: Listing, t1: Served, t2: Served)
    requires GoodDeck(l.deck) && ListsAll(l.due, rooms, DueTurns)
    requires t1 == ServeAll(rooms, l.due, HandlerOf(Job.Stand(heuristic))) && t1.err.None?
    requires ListsAll(l.dealing, t1.rooms, Dealers)
    requires t2 == ServeAll(t1.rooms, l.dealing, HandlerOf(Deal)) && t2.err.Some?
    ensures ListedAll(rooms, heuristic, l) && ServerTick(rooms, heuristic, l) == t2
  {
  }

  lemma RunsToTheEnd(rooms: RoomMap, heuristic: bool, l: Listing, t1: Served, t2: Served, t3: Served)
    requires GoodDeck(l.deck) && ListsAll(l.due, rooms, DueTurns)
    requires t1 == ServeAll(rooms, l.due, HandlerOf(Job.Stand(heuristic))) && t1.err.None?
    requires ListsAll(l.dealing, t1.rooms, Dealers)
    requires t2 == ServeAll(t1.rooms, l.dealing, HandlerOf(Deal)) && t2.err.None?
    requires ListsAll(l.rematch, t2.rooms, DueRematches)
    requires t3 == ServeAll(t2.rooms, l.rematch, HandlerOf(Rematch(l.sid, l.deck)))
    ensures ListedAll(rooms, heuristic, l) && ServerTick(rooms, heuristic, l) == t3
  {
  }

  predicate InRooms(list: seq<Entry>, rooms: RoomMap) { forall e :: e in list ==> e.room in rooms }

  class Background {
    var rooms: RoomMap

    constructor (rooms: RoomMap)
      ensures this.rooms == rooms
    {
      this.rooms := rooms;
    }

    /** The sessions of all rooms that a query finds, each once; their order is the database's. */
    method ListSessions(q: Query) returns (list: seq<Entry>)
      ensures ListsAll(list, rooms, q)
    {
      list := [];
      var todo := rooms.Keys;
      while todo != {}
        invariant todo <= rooms.Keys && Distinct(list)
        invariant forall e :: e in list <==>
          e.room in rooms && e.room !in todo && e.sid in rooms[e.room].db.recs
          && Matches(q, rooms[e.room].db.recs[e.sid].sess, rooms[e.room].db.now)
        decreases |todo|
      {
        var r :| r in todo;
        var service := new Service(rooms[r]);
        var found := service.ListSessions(q);
        var entries := seq(|found|, i requires 0 <= i < |found| => Entry(r, found[i]));
        EntriesOfRoom(r, found, entries);
        DistinctTogether(list, entries);
        todo := todo - {r};
        list := list + entries;
      }
    }

    method StandNext(e: Entry, heuristic: bool, ghost answer: Result<World, Error>) returns (err: Option<Error>)
      requires e.room in rooms && answer == StandHandler(heuristic)(rooms[e.room], e.sid)
      modifies this
      ensures err == ErrorOf(answer) && rooms == old(rooms)[e.room := ValueOr(answer, old(rooms)[e.room])]
    {
      var service := new Service(rooms[e.room]);
      err := service.PlayerStand(e.sid, heuristic);
      rooms := rooms[e.room := service.World()];
    }

    method DealNext(e: Entry, ghost answer: Result<World, Error>) returns (err: Option<Error>)
      requires e.room in rooms && answer == DealerTurnCall(rooms[e.room], e.sid)
      modifies this
      ensures err == ErrorOf(answer) && rooms == old(rooms)[e.room := ValueOr(answer, old(rooms)[e.room])]
    {
      var service := new Service(rooms[e.room]);
      err := service.DealerTurn(e.sid);
      rooms := rooms[e.room := service.World()];
    }

    method RematchNext(e: Entry, sid: Sid, deck: seq<StoredCard>, ghost answer: Result<World, Error>)
      returns (err: Option<Error>)
      requires e.room in rooms && answer == RematchHandler(sid, deck)(rooms[e.room], e.sid)
      modifies this
      ensures err == ErrorOf(answer) && rooms == old(rooms)[e.room := ValueOr(answer, old(rooms)[e.room])]
    {
      var service := new Service(rooms[e.room]);
      err := service.ProcessRematchDeadline(e.sid, sid, deck);
      rooms := rooms[e.room := service.World()];
    }

    method NextEntry(job: Job, e: Entry, ghost answer: Result<World, Error>) returns (err: Option<Error>)
      requires e.room in rooms && answer == HandlerOf(job)(rooms[e.room], e.sid)
      modifies this
      ensures err == ErrorOf(answer) && rooms == old(rooms)[e.room := ValueOr(answer, old(rooms)[e.room])]
    {
      match job
      case Stand(heuristic) => err := StandNext(e, heuristic, answer);
      case Deal => err := DealNext(e, answer);
      case Rematch(sid, deck) => err := RematchNext(e, sid, deck, answer);
    }

    /** The loop over one of the three lists; the first error that is not tolerated ends it. */
    method ServeList(job: Job, list: seq<Entry>) returns (err: Option<Error>)
      requires InRooms(list, rooms)
      modifies this
      ensures Served(rooms, err) == ServeAll(old(rooms), list, HandlerOf(job))
    {
      var i := 0;
      ghost var start, handle: Handler := rooms, HandlerOf(job);
      while i < |list|
        invariant 0 <= i <= |list| && rooms.Keys == start.Keys
        invariant ServeAll(start, list[..i], handle) == Served(rooms, None)
      {
        ghost var answer := handle(rooms[list[i].room], list[i].sid);
        ServeNext(start, list, i, handle, rooms, answer);
        err := NextEntry(job, list[i], answer);
        if err.Some? && !Tolerated(err.value) {
          ServingStops(start, list, i + 1, handle);
          return;
        }
        i := i + 1;
      }
      assert list[..i] == list;
      err := None;
    }

    method RunTick(heuristic: bool, sid: Sid, draws: seq<Option<nat>>) returns (err: Option<Error>, ghost l: Listing)
      requires InRange(DECK_SIZE, Picks(draws))
      modifies this
      ensures ListedAll(old(rooms), heuristic, l) && l.sid == sid && l.deck == ShuffledBy(draws)
      ensures Served(rooms, err) == ServerTick(old(rooms), heuristic, l)
    {
      ghost var start := rooms;
      var deck := NewShuffledDeck(draws);
      FullDeckSize(deck);
      l := Listing([], [], [], sid, deck);
      var due := ListSessions(DueTurns);
      l := l.(due := due);
      err := ServeList(Job.Stand(heuristic), due);
      ghost var t1 := Served(rooms, err);
      if err.Some? {
        EndsAtTurns(start, heuristic, l, t1);
        return;
      }
      var dealing := ListSessions(Dealers);
      l := l.(dealing := dealing);
      err := ServeList(Deal, dealing);
      ghost var t2 := Served(rooms, err);
      if err.Some? {
        EndsAtDealers(start, heuristic, l, t1, t2);
        return;
      }
      var rematch := ListSessions(DueRematches);
      l := l.(rematch := rematch);
      err := ServeList(Rematch(sid, deck), rematch);
      RunsToTheEnd(start, heuristic, l, t1, t2, Served(rooms, err));
    }

    /** One tick of the worker; the lists are what its queries found. */
    method AutoStandDueSessions(heuristic: bool, sid: Sid, draws: seq<Option<nat>>)
      returns (err: Option<Error>, ghost l: Listing)
      requires InRange(DECK_SIZE, Picks(draws))
      modifies this
      ensures ListedAll(old(rooms), heuristic, l) && l.sid == sid && l.deck == ShuffledBy(draws)
      ensures Served(rooms, err) == ServerTick(old(rooms), heuristic, l)
      ensures AllConsistent(old(rooms)) ==> AllConsistent(rooms) && TickServes(old(rooms), heuristic, Served(rooms, err))
      ensures AllConsistent(old(rooms)) ==> (err.Some? <==> exists r :: r in old(rooms) && Fails(old(rooms)[r], heuristic))
    {
      ghost var start := rooms;
      err, l := RunTick(heuristic, sid, draws);
      if AllConsistent(start) {
        ServerTickIs(start, heuristic, l);
        ServerTickFailsExactly(start, heuristic, l);
      }
    }
  }

  lemma EntriesOfRoom(r: Rid, found: seq<Sid>, entries: seq<Entry>)
    requires Distinct(found) && |entries| == |found| && forall i :: 0 <= i < |found| ==> entries[i] == Entry(r, found[i])
    ensures Distinct(entries)
    ensures forall e :: e in entries <==> e.room == r && e.sid in found
  {
    forall e: Entry | e.room == r && e.sid in found ensures e in entries {
      var i :| 0 <= i < |found| && found[i] == e.sid;
      assert entries[i] == e;
    }
  }

  lemma DistinctTogether(a: seq<Entry>, b: seq<Entry>)
    requires Distinct(a) && Distinct(b) && forall e :: e in a ==> e !in b
    ensures Distinct(a + b)
  {
    forall i, j | 0 <= i < j < |a + b| ensures (a + b)[i] != (a + b)[j] {
      if i < |a| <= j {
        assert (a + b)[i] in a && (a + b)[j] in b;
      }
    }
  }
}
