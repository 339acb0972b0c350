/** The hub of websocket connections: who is connected to which room, and which connection counts. */
module RoomHub {
  import opened Wrappers

  /** A connection is only ever compared with other connections. */
  datatype Conn = Conn(id: nat)

  datatype Meta = Meta(userId: string, epoch: int)

  datatype Hub = Hub(rooms: Rooms, latest: LatestMap)

  function Key(room: string, user: string): string { room + ":" + user }

  type Rooms = map<string, map<Conn, Meta>>

  type LatestMap = map<string, Conn>

  function ConnsIn(rooms: Rooms, room: string): map<Conn, Meta> {
    if room in rooms then rooms[room] else map[]
  }

  function Latest(h: Hub, room: string, user: string): Option<Conn> {
    if Key(room, user) in h.latest then Some(h.latest[Key(room, user)]) else None
  }

  /** A room's connections with one more, in place of a previous one. */
  function Joined(rooms: Rooms, room: string, prev: Option<Conn>, conn: Conn, meta: Meta): Rooms {
    var others := match prev
      case Some(p) => ConnsIn(rooms, room) - {p}
      case None => ConnsIn(rooms, room);
    rooms[room := others[conn := meta]]
  }

  /** A room's connections without one; an empty room disappears. */
  function Parted(rooms: Rooms, room: string, conn: Conn): Rooms {
    var rest := ConnsIn(rooms, room) - {conn};
    if rest == map[] then rooms - {room} else rooms[room := rest]
  }

  function Dropped(latest: LatestMap, conn: Conn): LatestMap {
    map k | k in latest && latest[k] != conn :: latest[k]
  }

  function Added(h: Hub, room: string, conn: Conn, meta: Meta): Hub {
    Hub(Joined(h.rooms, room, Latest(h, room, meta.userId), conn, meta), h.latest[Key(room, meta.userId) := conn])
  }

  function Removed(h: Hub, room: string, conn: Conn): Hub {
    if room !in h.rooms then h else Hub(Parted(h.rooms, room, conn), Dropped(h.latest, conn))
  }

  class ConnectionHub {
    var rooms: Rooms
    var latest: LatestMap

    function State(): Hub
      reads this
    {
      Hub(rooms, latest)
    }

    constructor ()
      ensures State() == Hub(map[], map[])
    {
      rooms, latest := map[], map[];
    }

    /** Registers the connection and hands back the one it replaces. */
    method Add(room: string, conn: Conn, meta: Meta) returns (replaced: Option<Conn>)
      modifies this
      ensures State() == Added(old(State()), room, conn, meta)
      ensures replaced == Latest(old(State()), room, meta.userId)
    {
      if room !in rooms {
        rooms := rooms[room := map[]];
      }
      var key := Key(room, meta.userId);
      replaced := if key in latest then Some(latest[key]) else None;
      if replaced.Some? {
        rooms := rooms[room := rooms[room] - {replaced.value}];
      }
      rooms := rooms[room := rooms[room][conn := meta]];
      latest := latest[key := conn];
    }

    method Remove(room: string, conn: Conn)
      modifies this
      ensures State() == Removed(old(State()), room, conn)
    {
      if room !in rooms {
        return;
      }
      rooms := rooms[room := rooms[room] - {conn}];
      ForgetConn(conn);
      if rooms[room] == map[] {
        rooms := rooms - {room};
      }
    }

    /** The loop over the latest map that deletes every entry of a connection. */
    method ForgetConn(conn: Conn)
      modifies this`latest
      ensures latest == Dropped(old(latest), conn)
    {
      ghost var all := latest;
      var todo := latest.Keys;
      while todo != {}
        invariant todo <= latest.Keys <= all.Keys
        invariant forall k :: k in all ==> (k in latest <==> k in todo || all[k] != conn)
        invariant forall k :: k in latest ==> latest[k] == all[k]
        decreases todo
      {
        var k :| k in todo;
        todo := todo - {k};
        if latest[k] == conn {
          latest := latest - {k};
        }
      }
    }

    method IsLatest(room: string, user: string, conn: Conn) returns (b: bool)
      ensures b <==> Latest(State(), room, user) == Some(conn)
    {
      var key := Key(room, user);
      b := key in latest && latest[key] == conn;
    }

    method Snapshot(room: string) returns (conns: map<Conn, Meta>)
      ensures conns == ConnsIn(rooms, room)
    {
      conns := if room in rooms then rooms[room] else map[];
    }
  }

  // ---- keys ----

  lemma ColonEndsRoom(room: string, user: string)
    requires ':' !in room
    ensures var k := Key(room, user);
            && |room| < |k| && k[|room|] == ':' && (forall i :: 0 <= i < |room| ==> k[i] != ':')
            && k[..|room|] == room && k[|room| + 1..] == user
  {
    assert forall i :: 0 <= i < |room| ==> Key(room, user)[i] == room[i];
  }

  /** Two keys are the same for the same room and user only, provided room names hold no colon. */
  lemma KeysDiffer(room: string, user: string, room': string, user': string)
    requires ':' !in room && ':' !in room'
    ensures Key(room, user) == Key(room', user') <==> room == room' && user == user'
  {
    ColonEndsRoom(room, user);
    ColonEndsRoom(room', user');
  }

  /** With a colon in a room's name two different users can share a key. */
  lemma ColonsCollide()
    ensures Key("a", "b:c") == Key("a:b", "c")
  {
  }

  // ---- the registry that the hub stands for ----

  datatype Slot = Slot(room: string, user: string)

  datatype Entry = Entry(conn: Conn, meta: Meta)

  /** One connection for each room and user. */
  type Registry = map<Slot, Entry>

  ghost predicate Registered(reg: Registry, room: string, conn: Conn) {
    exists s :: s in reg && s.room == room && reg[s].conn == conn
  }

  /** The connections of a registry are all different, and rooms have names without colons. */
  ghost predicate RegistryInv(reg: Registry) {
    && (forall s :: s in reg ==> ':' !in s.room && reg[s].meta.userId == s.user)
    && (forall s, t :: s in reg && t in reg && reg[s].conn == reg[t].conn ==> s == t)
  }

  /** The latest map holds the registry's connections by key, and nothing else. */
  ghost predicate LatestShows(latest: map<string, Conn>, reg: Registry) {
    && (forall s :: s in reg ==> Key(s.room, s.user) in latest && latest[Key(s.room, s.user)] == reg[s].conn)
    && (forall k :: k in latest ==> exists s :: s in reg && Key(s.room, s.user) == k)
  }

  /** One room's connections are the registry's for that room, each with its user. */
  ghost predicate RoomShows(conns: map<Conn, Meta>, reg: Registry, room: string) {
    && (forall s :: s in reg && s.room == room ==> reg[s].conn in conns && conns[reg[s].conn] == reg[s].meta)
    && (forall c :: c in conns ==> Registered(reg, room, c))
  }

  /** The room map holds the same connections by room, and no room without any. */
  ghost predicate RoomsShow(rooms: Rooms, reg: Registry) {
    && (forall r :: RoomShows(ConnsIn(rooms, r), reg, r))
    && (forall r :: r in rooms ==> rooms[r] != map[])
  }

  ghost predicate Shows(h: Hub, reg: Registry) {
    RegistryInv(reg) && LatestShows(h.latest, reg) && RoomsShow(h.rooms, reg)
  }

  ghost predicate Fresh(reg: Registry, conn: Conn) { forall s :: s in reg ==> reg[s].conn != conn }

  function Put(reg: Registry, room: string, conn: Conn, meta: Meta): Registry {
    reg[Slot(room, meta.userId) := Entry(conn, meta)]
  }

  function Without(reg: Registry, conn: Conn): Registry {
    map s | s in reg && reg[s].conn != conn :: reg[s]
  }

  lemma LatestFindsSlot(h: Hub, reg: Registry, room: string, user: string)
    requires Shows(h, reg) && ':' !in room
    ensures Latest(h, room, user) == if Slot(room, user) in reg then Some(reg[Slot(room, user)].conn) else None
  {
    if Key(room, user) in h.latest {
      var s :| s in reg && Key(s.room, s.user) == Key(room, user);
      KeysDiffer(s.room, s.user, room, user);
    }
  }

  lemma AddLatest(h: Hub, reg: Registry, room: string, conn: Conn, meta: Meta)
    requires Shows(h, reg) && Fresh(reg, conn) && ':' !in room
    ensures LatestShows(Added(h, room, conn, meta).latest, Put(reg, room, conn, meta))
    ensures RegistryInv(Put(reg, room, conn, meta))
  {
    var reg', slot := Put(reg, room, conn, meta), Slot(room, meta.userId);
    var latest' := Added(h, room, conn, meta).latest;
    forall s | s in reg' ensures Key(s.room, s.user) in latest' && latest'[Key(s.room, s.user)] == reg'[s].conn {
      KeysDiffer(s.room, s.user, room, meta.userId);
    }
    forall k | k in latest' ensures exists s :: s in reg' && Key(s.room, s.user) == k {
      if k == Key(room, meta.userId) {
        assert slot in reg' && Key(slot.room, slot.user) == k;
      } else {
        var s :| s in reg && Key(s.room, s.user) == k;
        assert s in reg';
      }
    }
  }

  lemma OtherRoomSame(conns: map<Conn, Meta>, reg: Registry, reg': Registry, room: string)
    requires RoomShows(conns, reg, room)
    requires forall s: Slot :: s.room == room ==> (s in reg <==> s in reg')
    requires forall s: Slot :: s.room == room && s in reg ==> reg[s] == reg'[s]
    ensures RoomShows(conns, reg', room)
  {
    forall c | c in conns ensures Registered(reg', room, c) {
      assert Registered(reg, room, c);
      var s :| s in reg && s.room == room && reg[s].conn == c;
      assert s in reg';
    }
  }

  lemma AddToRoom(conns: map<Conn, Meta>, reg: Registry, room: string, conn: Conn, meta: Meta)
    requires RegistryInv(reg) && RoomShows(conns, reg, room) && Fresh(reg, conn)
    ensures var slot := Slot(room, meta.userId);
            var others := if slot in reg then conns - {reg[slot].conn} else conns;
            RoomShows(others[conn := meta], Put(reg, room, conn, meta), room)
  {
    var reg', slot := Put(reg, room, conn, meta), Slot(room, meta.userId);
    var others := if slot in reg then conns - {reg[slot].conn} else conns;
    assert slot in reg' && reg'[slot].conn == conn;
    forall s | s in reg' && s.room == room
      ensures reg'[s].conn in others[conn := meta] && others[conn := meta][reg'[s].conn] == reg'[s].meta
    {
      if s != slot {
        assert s in reg && reg[s].conn != conn;
      }
    }
    forall c | c in others ensures Registered(reg', room, c) {
      assert Registered(reg, room, c);
      var s :| s in reg && s.room == room && reg[s].conn == c;
      assert s in reg' && reg'[s] == reg[s];
    }
  }

  lemma AddRooms(rooms: Rooms, reg: Registry, room: string, conn: Conn, meta: Meta)
    requires RegistryInv(reg) && RoomsShow(rooms, reg) && Fresh(reg, conn)
    ensures var slot := Slot(room, meta.userId);
            var prev := if slot in reg then Some(reg[slot].conn) else None;
            RoomsShow(Joined(rooms, room, prev, conn, meta), Put(reg, room, conn, meta))
  {
    var reg', slot := Put(reg, room, conn, meta), Slot(room, meta.userId);
    var prev := if slot in reg then Some(reg[slot].conn) else None;
    var rooms' := Joined(rooms, room, prev, conn, meta);
    forall r ensures RoomShows(ConnsIn(rooms', r), reg', r) {
      assert RoomShows(ConnsIn(rooms, r), reg, r);
      if r == room {
        AddToRoom(ConnsIn(rooms, r), reg, room, conn, meta);
      } else {
        OtherRoomSame(ConnsIn(rooms, r), reg, reg', r);
      }
    }
    assert conn in rooms'[room];
  }

  /** Adding a new connection to the hub is putting it into the registry. */
  lemma AddRefines(h: Hub, reg: Registry, room: string, conn: Conn, meta: Meta)
    requires Shows(h, reg) && Fresh(reg, conn) && ':' !in room
    ensures Shows(Added(h, room, conn, meta), Put(reg, room, conn, meta))
  {
    AddLatest(h, reg, room, conn, meta);
    LatestFindsSlot(h, reg, room, meta.userId);
    AddRooms(h.rooms, reg, room, conn, meta);
  }

  /** The connection was opened for this room, if it is registered at all. */
  ghost predicate Belongs(reg: Registry, room: string, conn: Conn) {
    forall s :: s in reg && reg[s].conn == conn ==> s.room == room
  }

  lemma RemoveLatest(latest: LatestMap, reg: Registry, conn: Conn)
    requires LatestShows(latest, reg)
    ensures LatestShows(Dropped(latest, conn), Without(reg, conn))
  {
    var latest', reg' := Dropped(latest, conn), Without(reg, conn);
    forall k | k in latest' ensures exists s :: s in reg' && Key(s.room, s.user) == k {
      var s :| s in reg && Key(s.room, s.user) == k;
      assert s in reg';
    }
  }

  lemma RemoveFromRoom(conns: map<Conn, Meta>, reg: Registry, room: string, conn: Conn)
    requires RoomShows(conns, reg, room)
    ensures RoomShows(conns - {conn}, Without(reg, conn), room)
  {
    forall c | c in conns - {conn} ensures Registered(Without(reg, conn), room, c) {
      assert Registered(reg, room, c);
      var s :| s in reg && s.room == room && reg[s].conn == c;
      assert s in Without(reg, conn);
    }
  }

  lemma RemoveRooms(rooms: Rooms, reg: Registry, room: string, conn: Conn)
    requires RoomsShow(rooms, reg) && Belongs(reg, room, conn)
    ensures RoomsShow(Parted(rooms, room, conn), Without(reg, conn))
  {
    var rooms', reg' := Parted(rooms, room, conn), Without(reg, conn);
    forall r ensures RoomShows(ConnsIn(rooms', r), reg', r) {
      assert RoomShows(ConnsIn(rooms, r), reg, r);
      if r == room {
        RemoveFromRoom(ConnsIn(rooms, r), reg, room, conn);
        assert ConnsIn(rooms', r) == ConnsIn(rooms, r) - {conn};
      } else {
        OtherRoomSame(ConnsIn(rooms, r), reg, reg', r);
      }
    }
  }

  /** Removing a connection from the hub of its own room is taking it out of the registry. */
  lemma RemoveRefines(h: Hub, reg: Registry, room: string, conn: Conn)
    requires Shows(h, reg) && Belongs(reg, room, conn)
    ensures Shows(Removed(h, room, conn), Without(reg, conn))
  {
    if room in h.rooms {
      RemoveLatest(h.latest, reg, conn);
      RemoveRooms(h.rooms, reg, room, conn);
    } else {
      assert RoomShows(ConnsIn(h.rooms, room), reg, room);
      assert Without(reg, conn) == reg;
    }
  }

  lemma UnknownConnIsIdle(rooms: Rooms, latest: LatestMap, reg: Registry, room: string, conn: Conn)
    requires LatestShows(latest, reg) && RoomsShow(rooms, reg) && Fresh(reg, conn)
    ensures Dropped(latest, conn) == latest
    ensures room in rooms ==> Parted(rooms, room, conn) == rooms
  {
    forall k | k in latest ensures latest[k] != conn {
      var s :| s in reg && Key(s.room, s.user) == k;
    }
    assert RoomShows(ConnsIn(rooms, room), reg, room);
    if room in rooms {
      assert conn in rooms[room] ==> Registered(reg, room, conn);
      assert rooms[room] - {conn} == rooms[room];
    }
  }

  /** Cleaning up a connection that has been replaced, late or twice, leaves everybody untouched. */
  lemma LateCleanupIsIdle(h: Hub, reg: Registry, room: string, user: string, conn: Conn)
    requires Shows(h, reg) && Fresh(reg, conn) && ':' !in room
    ensures Removed(h, room, conn) == h
    ensures Latest(h, room, user) != Some(conn)
  {
    LatestFindsSlot(h, reg, room, user);
    UnknownConnIsIdle(h.rooms, h.latest, reg, room, conn);
  }

  // ---- runs ----

  datatype HubEvent = Connect(room: string, conn: Conn, meta: Meta) | Cleanup(conn: Conn)

  /** The hub, the registry it should show, and the room each connection was opened for. */
  datatype Run = Run(hub: Hub, reg: Registry, home: map<Conn, string>)

  const START: Run := Run(Hub(map[], map[]), map[], map[])

  /** Connections are opened once and cleaned up any number of times, in the room they were opened for. */
  function HubStep(r: Run, e: HubEvent): Run {
    match e
    case Connect(room, conn, meta) =>
      if conn in r.home || ':' in room then r
      else Run(Added(r.hub, room, conn, meta), Put(r.reg, room, conn, meta), r.home[conn := room])
    case Cleanup(conn) =>
      if conn !in r.home then r
      else Run(Removed(r.hub, r.home[conn], conn), Without(r.reg, conn), r.home)
  }

  function HubRun(es: seq<HubEvent>): Run {
    if es == [] then START else HubStep(HubRun(es[..|es| - 1]), es[|es| - 1])
  }

  ghost predicate RunInv(r: Run) {
    && Shows(r.hub, r.reg)
    && (forall s :: s in r.reg ==> r.reg[s].conn in r.home && r.home[r.reg[s].conn] == s.room)
    && (forall c :: c in r.home ==> ':' !in r.home[c])
  }

  /** After any sequence of connects and cleanups the hub shows exactly the registry. */
  lemma {:induction false} HubShowsRegistry(es: seq<HubEvent>)
    ensures RunInv(HubRun(es))
  {
    if es != [] {
      var r, e := HubRun(es[..|es| - 1]), es[|es| - 1];
      HubShowsRegistry(es[..|es| - 1]);
      match e
      case Connect(room, conn, meta) =>
        if conn !in r.home && ':' !in room {
          AddRefines(r.hub, r.reg, room, conn, meta);
        }
      case Cleanup(conn) =>
        if conn in r.home {
          RemoveRefines(r.hub, r.reg, r.home[conn], conn);
        }
    }
  }

  /** So the two maps of the hub are inverse to each other and no room entry is empty. */
  lemma MapsAreInverse(es: seq<HubEvent>, room: string, conn: Conn)
    requires ':' !in room
    ensures var h := HubRun(es).hub;
            && (conn in ConnsIn(h.rooms, room) <==> exists u :: Latest(h, room, u) == Some(conn))
            && (conn in ConnsIn(h.rooms, room) ==> Latest(h, room, ConnsIn(h.rooms, room)[conn].userId) == Some(conn))
            && (room in h.rooms ==> h.rooms[room] != map[])
  {
    HubShowsRegistry(es);
    var r := HubRun(es);
    assert RoomShows(ConnsIn(r.hub.rooms, room), r.reg, room);
    if conn in ConnsIn(r.hub.rooms, room) {
      assert Registered(r.reg, room, conn);
      var s :| s in r.reg && s.room == room && r.reg[s].conn == conn;
      LatestFindsSlot(r.hub, r.reg, room, s.user);
      assert Latest(r.hub, room, s.user) == Some(conn);
    }
    forall u | Latest(r.hub, room, u) == Some(conn) ensures conn in ConnsIn(r.hub.rooms, room) {
      LatestFindsSlot(r.hub, r.reg, room, u);
    }
  }
}
