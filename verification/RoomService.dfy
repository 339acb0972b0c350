/**
 The service that owns a room: each method carries out one call in place, and is shown to do to
 the room what the call is specified to do, errors and roll-backs included.
 */
module RoomService {
  import opened Wrappers
  import opened Cards
  import opened Shuffle
  import opened Hands
  import opened Policies
  import opened Rounds
  import opened RoundInvariant
  import opened SessionStore
  import opened AtomicSessions
  import opened Interleaving
  import opened Rooms
  import opened RoomInvariant
  import opened RoomSteps
  import opened RoomRuns
  import opened ServicePromises
  import opened Worker
  import opened Entities
  import opened Store
  import opened SessionCalls
  import opened RoomObjects
  import opened CallHalves

  /** Success with the new value, or the error; after an error the value is left to be undone. */
  predicate Agrees<T(==)>(err: Option<Error>, after: T, spec: Result<T, Error>) {
    match spec
    case Ok(v) => err.None? && after == v
    case Err(e) => err == Some(e)
  }

  class Service {
    const tables: SessionTables
    var room: Room
    var seat: Seat
    var votes: map<Sid, map<string, bool>>

    function World(): World
      reads this, tables
    {
      Rooms.World(room, seat, tables.Db(), votes)
    }

    constructor (w: World)
      ensures World() == w && fresh(tables)
    {
      tables := new SessionTables(w.db);
      room, seat, votes := w.room, w.seat, w.votes;
    }

    /** Undoes the writes of a failed transaction. */
    method Rollback(w: World)
      modifies this, tables
      ensures World() == w
    {
      room, seat, votes := w.room, w.seat, w.votes;
      tables.now, tables.recs, tables.used := w.db.now, w.db.recs, w.db.used;
    }

    method GetRoom() returns (r: RoomObject)
      ensures fresh(r) && r.Row() == room
    {
      r := new RoomObject.FromRow(room);
    }

    method UpdateRoom(r: RoomObject)
      modifies this`room
      ensures room == r.Row()
    {
      room := r.Row();
    }

    method GetRoomPlayer(user: string) returns (p: Result<Seat, Error>)
      ensures p == if SeatOf(World(), user) == NoSeat then Err(NotFound) else Ok(SeatOf(World(), user))
    {
      if user != room.host || seat == NoSeat {
        return Err(NotFound);
      }
      p := Ok(seat);
    }

    /** Makes a session current, or none, and recalculates the status of the room. */
    method SetCurrent(current: Option<Sid>, active: int) returns (err: Option<Error>)
      modifies this`room
      ensures err == ErrorOf(WithRoom(old(World()), current, active))
      ensures World() == ValueOr(WithRoom(old(World()), current, active), old(World()))
    {
      var r := GetRoom();
      r.current := current;
      err := r.RecalculateStatus(active, current.Some?);
      if err.None? {
        UpdateRoom(r);
      }
    }

    method JoinRoom(user: string) returns (err: Option<Error>)
      modifies this
      ensures err == ErrorOf(Rooms.JoinRoom(old(World()), user))
      ensures World() == ValueOr(Rooms.JoinRoom(old(World()), user), old(World()))
      ensures Keeps(old(World()), World())
    {
      JoinPromise(World(), user);
      if user == "" {
        return Some(UnauthorizedUser);
      }
      var r := GetRoom();
      if r.status == Playing {
        return Some(InvalidGameState);
      }
      if r.host != user {
        return Some(ForbiddenAction);
      }
      var active := ActiveHumans(seat);
      if active >= 1 {
        return Some(RoomFull);
      }
      err := r.RecalculateStatus(active + 1, r.current.Some?);
      if err.Some? {
        return;
      }
      var existing := GetRoomPlayer(user);
      if existing.Ok? && existing.value != SeatLeft {
        return Some(RoomFull);
      }
      seat := SeatActive;
      UpdateRoom(r);
    }

    method LeaveRoom(user: string) returns (err: Option<Error>)
      modifies this
      ensures err == ErrorOf(Rooms.LeaveRoom(old(World()), user))
      ensures World() == ValueOr(Rooms.LeaveRoom(old(World()), user), old(World()))
      ensures Keeps(old(World()), World())
    {
      LeavePromise(World(), user);
      if user == "" {
        return Some(UnauthorizedUser);
      }
      var r := GetRoom();
      if r.current.Some? {
        return Some(InvalidGameState);
      }
      var p := GetRoomPlayer(user);
      if p.Err? {
        return Some(p.error);
      }
      if p.value == SeatLeft {
        return None;
      }
      err := r.RecalculateStatus(0, false);
      if err.Some? {
        return;
      }
      seat := SeatLeft;
      UpdateRoom(r);
    }

    method MarkConnected(user: string) returns (err: Option<Error>)
      modifies this`seat
      ensures err == ErrorOf(Rooms.MarkConnected(old(World()), user))
      ensures World() == ValueOr(Rooms.MarkConnected(old(World()), user), old(World()))
      ensures Keeps(old(World()), World())
    {
      ConnectionPromise(World(), user);
      if user == "" {
        return Some(InvalidInput);
      }
      var p := GetRoomPlayer(user);
      if p.Err? {
        return Some(p.error);
      }
      err := None;
      if p.value == SeatLeft || p.value == SeatActive {
        return;
      }
      seat := SeatActive;
    }

    method MarkDisconnected(user: string) returns (err: Option<Error>)
      modifies this`seat
      ensures err == ErrorOf(Rooms.MarkDisconnected(old(World()), user))
      ensures World() == ValueOr(Rooms.MarkDisconnected(old(World()), user), old(World()))
      ensures Keeps(old(World()), World())
    {
      ConnectionPromise(World(), user);
      if user == "" {
        return Some(InvalidInput);
      }
      var p := GetRoomPlayer(user);
      err := None;
      if p.Err? || p.value == SeatLeft || p.value == SeatDisconnected {
        return;
      }
      seat := SeatDisconnected;
    }

    /** The newest session by creation time; the database may return any of several newest ones. */
    method GetLatestSession() returns (latest: Option<Sid>)
      ensures IsLatest(tables.recs, latest)
    {
      if tables.recs == map[] {
        return None;
      }
      ghost var l := LatestExists(tables.recs);
      assert l.value in tables.recs;
      var s :| s in tables.recs && forall u :: u in tables.recs ==>
        tables.recs[u].sess.createdAt <= tables.recs[s].sess.createdAt;
      latest := Some(s);
    }

    /** Stores a round; a taken number or identifier is refused. */
    method InsertRound(sid: Sid, sess: GameSession, p: PlayerState, d: DealerState, ghost dealt: Result<Table3, Error>)
      returns (err: Option<Error>)
      requires dealt == Ok(Rows(sess, p, d))
      modifies tables
      ensures Agrees(err, tables.Db(), StoreRound(old(tables.Db()), sid, sess.roundNo, dealt))
      ensures err.Some? ==> tables.Db() == old(tables.Db())
      ensures old(tables.recs.Keys) <= tables.recs.Keys
    {
      err := tables.CreateSession(sid, sess, p, d);
    }

    /** Prepares a round and stores it. */
    method OpenRound(roundNo: int, user: string, sid: Sid, deck: seq<StoredCard>, ghost created: Result<Database, Error>)
      returns (err: Option<Error>)
      requires created == CreateSession(tables.Db(), NewSession(sid, user, deck), roundNo)
      modifies tables
      ensures Agrees(err, tables.Db(), created)
      ensures err.Some? ==> tables.Db() == old(tables.Db())
      ensures old(tables.recs.Keys) <= tables.recs.Keys
    {
      var sess, p, d;
      err, sess, p, d := PrepareRound(roundNo, user, deck, tables.now);
      if err.None? {
        err := InsertRound(sid, sess, p, d, NewRound(roundNo, user, deck, tables.now));
      }
    }

    method CheckStart(user: string) returns (err: Option<Error>)
      ensures err == MayStart(World(), user)
    {
      if user == "" {
        return Some(UnauthorizedUser);
      }
      var r := GetRoom();
      if r.host != user {
        return Some(ForbiddenAction);
      }
      if r.status != ReadyToStart {
        return Some(InvalidGameState);
      }
      var player := GetRoomPlayer(user);
      if player.Err? {
        return Some(player.error);
      }
      if player.value != SeatActive && player.value != SeatDisconnected {
        return Some(InvalidGameState);
      }
      if r.current.Some? {
        return Some(InvalidGameState);
      }
      err := None;
    }

    /** Stores the first round, then makes it current; the guards have been passed. */
    method StartWith(user: string, roundNo: int, sid: Sid, deck: seq<StoredCard>)
      returns (err: Option<Error>, ghost created: Result<Database, Error>)
      requires MayStart(World(), user).None?
      modifies this, tables
      ensures created == CreateSession(old(tables.Db()), NewSession(sid, user, deck), roundNo)
      ensures err == ErrorOf(Started(old(World()), user, sid, created))
      ensures World() == ValueOr(Started(old(World()), user, sid, created), old(World()))
    {
      created := CreateSession(tables.Db(), NewSession(sid, user, deck), roundNo);
      err := OpenRound(roundNo, user, sid, deck, created);
      if err.Some? {
        return;
      }
      err := SetCurrent(Some(sid), 1);
    }

    method StartWithDeck(user: string, sid: Sid, deck: seq<StoredCard>) returns (err: Option<Error>, ghost latest: Option<Sid>)
      modifies this, tables
      ensures IsLatest(old(tables.recs), latest)
      ensures err == ErrorOf(Rooms.StartRoom(old(World()), user, latest, sid, deck))
      ensures World() == ValueOr(Rooms.StartRoom(old(World()), user, latest, sid, deck), old(World()))
    {
      err := CheckStart(user);
      if err.Some? {
        latest := StartRefused(World(), user, sid, deck);
        return;
      }
      var found := GetLatestSession();
      latest := found;
      var roundNo := 1;
      if found.Some? {
        roundNo := tables.recs[found.value].sess.roundNo + 1;
      }
      StartGoesOn(World(), user, latest, sid, deck, roundNo);
      ghost var created;
      err, created := StartWith(user, roundNo, sid, deck);
    }

    /** Starts a round; the deck is shuffled in advance and only used if the start is allowed. */
    method StartRoom(user: string, sid: Sid, draws: seq<Option<nat>>)
      returns (err: Option<Error>, deck: seq<StoredCard>, ghost latest: Option<Sid>)
      requires InRange(DECK_SIZE, Picks(draws))
      modifies this, tables
      ensures IsLatest(old(tables.recs), latest) && deck == ShuffledBy(draws)
      ensures err == ErrorOf(Rooms.StartRoom(old(World()), user, latest, sid, deck))
      ensures World() == ValueOr(Rooms.StartRoom(old(World()), user, latest, sid, deck), old(World()))
      ensures Keeps(old(World()), World())
    {
      ghost var w := World();
      deck := NewShuffledDeck(draws);
      err, latest := StartWithDeck(user, sid, deck);
      FullDeckSize(deck);
      StartPromise(w, user, latest, sid, deck);
    }

    /** What a user is shown: the version and the actions on offer. */
    method GetRoomState(user: string) returns (state: Result<Option<Offer>, Error>)
      ensures state == RoomRuns.GetRoomState(World(), user)
    {
      if user == "" {
        return Err(UnauthorizedUser);
      }
      var r := GetRoom();
      if r.host != user {
        return Err(ForbiddenAction);
      }
      if r.current.None? {
        return Ok(None);
      }
      var read := tables.GetSession(r.current.value);
      if read.Err? {
        return Ok(None);
      }
      var sess := read.value;
      var players := tables.ListPlayerStates(r.current.value);
      var can := false;
      if |players| > 0 && players[0].userId == user {
        can := players[0].status == Active && sess.status == SessionStatus.PlayerTurn && sess.turnSeat == players[0].seatNo;
      }
      state := Ok(Some(Offer(sess.version, can, can, sess.status == Resetting)));
    }

    // ---- playing ----

    /** HIT and STAND. */
    method PlayerTurn(user: string, expected: int, actionId: string, hit: bool) returns (err: Option<Error>)
      modifies this, tables
      ensures err == ErrorOf(PlayerTurnCall(old(World()), user, expected, actionId, hit))
      ensures World() == ValueOr(PlayerTurnCall(old(World()), user, expected, actionId, hit), old(World()))
      ensures Keeps(old(World()), World())
      ensures old(ShownTo(World(), user, expected, actionId)) ==> (err.None? <==> old(OffersPlay(World(), user, hit)))
    {
      PlayPromise(World(), user, expected, actionId, hit);
      if user == "" {
        return Some(UnauthorizedUser);
      }
      if expected <= 0 || actionId == "" {
        return Some(InvalidInput);
      }
      var r := GetRoom();
      if r.current.None? {
        return Some(InvalidGameState);
      }
      var out, wrote := RunAlone(tables, PlayCall(user, expected, actionId, hit), r.current.value);
      if out.Failed? {
        return Some(out.error);
      }
      err := None;
      if wrote {
        err := SetCurrent(r.current, 1);
      }
    }

    method PlayerStandNow(sid: Sid, heuristic: bool) returns (err: Option<Error>)
      modifies this, tables
      ensures err == ErrorOf(PlayerStandCall(old(World()), sid, heuristic))
      ensures World() == ValueOr(PlayerStandCall(old(World()), sid, heuristic), old(World()))
    {
      var c := new RunningCall(ForfeitCall, sid);
      ghost var start := c.View();
      if sid in tables.recs {
        ReadThenCommitIsAlone(start, tables.Db());
      }
      var out := c.Gather(tables);
      if out != GoOn {
        return if out.Failed? then Some(out.error) else None;
      }
      if heuristic && |c.dealer.hand| > 0 && RecommendHitOrStand(c.player.hand, c.dealer.hand[0]) {
        err := PlayerTurn(c.player.userId, c.sess.version, AutoHitId(sid, c.sess.version), true);
        return;
      }
      out := c.Commit(tables);
      if out.Failed? {
        return Some(out.error);
      }
      err := SetCurrent(Some(sid), 1);
    }

    /** The turn has timed out: a loss by time, or a hit on the player's behalf. */
    method PlayerStand(sid: Sid, heuristic: bool) returns (err: Option<Error>)
      modifies this, tables
      ensures err == ErrorOf(PlayerStandCall(old(World()), sid, heuristic))
      ensures World() == ValueOr(PlayerStandCall(old(World()), sid, heuristic), old(World()))
      ensures Keeps(old(World()), World())
    {
      ghost var w := World();
      err := PlayerStandNow(sid, heuristic);
      StandPromise(w, sid, heuristic);
    }

    method DealerTurnNow(sid: Sid) returns (err: Option<Error>)
      modifies this, tables
      ensures err == ErrorOf(DealerTurnCall(old(World()), sid))
      ensures World() == ValueOr(DealerTurnCall(old(World()), sid), old(World()))
    {
      var c := new RunningCall(DealerCall, sid);
      ghost var start := c.View();
      if sid in tables.recs {
        ReadThenCommitIsAlone(start, tables.Db());
      }
      var out := c.Gather(tables);
      if out != GoOn {
        return if out.Failed? then Some(out.error) else None;
      }
      var draws := DealerDraws(c.dealer.hand);
      out := c.Commit(tables);
      if out.Failed? {
        return Some(out.error);
      }
      err := None;
      if !draws {
        err := SetCurrent(Some(sid), 1);
      }
    }

    /** One step of the dealer; the room is only written when the round is over. */
    method DealerTurn(sid: Sid) returns (err: Option<Error>)
      modifies this, tables
      ensures err == ErrorOf(DealerTurnCall(old(World()), sid))
      ensures World() == ValueOr(DealerTurnCall(old(World()), sid), old(World()))
      ensures Keeps(old(World()), World())
      ensures old(WorldInv(World())) && sid in old(tables.recs) ==> err.None?
    {
      ghost var w := World();
      err := DealerTurnNow(sid);
      DealerPromise(w, sid);
    }

    // ---- the rematch ----

    /** Releases the room. */
    method FinalizeRematchFailure() returns (err: Option<Error>)
      modifies this`room
      ensures err == ErrorOf(Rooms.FinalizeRematchFailure(old(World())))
      ensures World() == ValueOr(Rooms.FinalizeRematchFailure(old(World())), old(World()))
    {
      err := SetCurrent(None, ActiveHumans(seat));
    }

    method BumpSession(l: Sid, sess: GameSession, expected: int, ghost bumped: Database)
      requires l in tables.recs
      requires tables.recs[l].sess.version == expected && WithColumns(tables.recs[l].sess, sess.Row()) == sess.Row()
      requires bumped == BumpedIn(tables.Db(), l, sess.Row())
      modifies sess, tables`recs
      ensures tables.Db() == bumped
    {
      sess.IncrementVersion();
      var ok := tables.UpdateSessionIfVersion(l, sess, expected);
    }

    /** Moves the finished session on by one version and opens the round with the next number. */
    method OpenNext(l: Sid, sess: GameSession, roundNo: int, expected: int, user: string, sid: Sid,
                    deck: seq<StoredCard>, ghost next: Result<Database, Error>) returns (err: Option<Error>)
      requires l in tables.recs && roundNo == sess.Row().roundNo + 1
      requires tables.recs[l].sess.version == expected && WithColumns(tables.recs[l].sess, sess.Row()) == sess.Row()
      requires next == OpenNextRound(tables.Db(), l, sess.Row(), NewSession(sid, user, deck))
      modifies sess, tables
      ensures Agrees(err, tables.Db(), next)
      ensures l in tables.recs
    {
      ghost var bumped := BumpedIn(tables.Db(), l, sess.Row());
      NextRoundAfterBump(tables.Db(), l, sess.Row(), NewSession(sid, user, deck));
      BumpSession(l, sess, expected, bumped);
      err := OpenRound(roundNo, user, sid, deck, next);
    }

    method CheckVote(user: string, agree: bool, expected: int, actionId: string, latest: Option<Sid>)
      returns (seen: Result<Checked, Error>)
      requires latest.Some? ==> latest.value in tables.recs
      ensures seen == MayVote(World(), user, agree, expected, actionId, latest)
      ensures seen.Ok? ==> latest.Some? && tables.recs[latest.value].sess.version == expected
    {
      if user == "" {
        return Err(UnauthorizedUser);
      }
      if expected <= 0 || actionId == "" {
        return Err(InvalidInput);
      }
      var player := GetRoomPlayer(user);
      if player.Err? {
        return Err(ForbiddenAction);
      }
      if latest.None? {
        return Err(NotFound);
      }
      var read := tables.GetSession(latest.value);
      var sess := read.value;
      if sess.status != Resetting {
        return Err(InvalidGameState);
      }
      var err := sess.CheckVersion(expected);
      if err.Some? {
        return Err(err.value);
      }
      seen := EnsureActionIdempotency(tables, latest.value, LogKey(user, actionId), VoteAt(agree, expected));
      if seen == Ok(Fresh) && user !in Eligible(World()) {
        return Err(ForbiddenAction);
      }
    }

    /** What a vote leads to in the tables. */
    method CarryOut(l: Sid, effect: VoteEffect, expected: int) returns (err: Option<Error>)
      requires l in tables.recs && tables.recs[l].sess.version == expected
      modifies tables
      ensures Agrees(err, tables.Db(), Effected(old(tables.Db()), l, effect))
      ensures l in tables.recs
    {
      var read := tables.GetSession(l);
      var sess := read.value;
      if sess.rematchDeadline == None {
        sess.SetRematchDeadline(tables.now);
      }
      match effect {
        case OpenNext(n) =>
          err := OpenNext(l, sess, sess.roundNo + 1, expected, n.user, n.sid, n.deck, Effected(tables.Db(), l, effect));
        case Refuse => err := None;
        case Wait =>
          BumpSession(l, sess, expected, BumpedIn(tables.Db(), l, sess.Row()));
          err := None;
      }
    }

    /** What a vote leads to in the room. */
    method CarryOutInRoom(effect: VoteEffect) returns (err: Option<Error>)
      modifies this`room
      ensures Agrees(err, World(), RoomAfter(old(World()), effect))
    {
      match effect {
        case OpenNext(n) => err := SetCurrent(Some(n.sid), 1);
        case Refuse => err := FinalizeRematchFailure();
        case Wait => err := None;
      }
    }

    /** Writes a vote and what follows from it: one transaction, undone as a whole if anything in it fails. */
    method CountVote(saved: World, l: Sid, user: string, agree: bool, expected: int, actionId: string,
                     effect: VoteEffect, ghost voted: Result<World, Error>) returns (err: Option<Error>)
      requires saved == World() && l in saved.db.recs && saved.db.recs[l].sess.version == expected
      requires voted == Voted(saved, l, user, agree, expected, actionId, effect, Effected(saved.db, l, effect))
      modifies this, tables
      ensures err == ErrorOf(voted) && World() == ValueOr(voted, saved)
    {
      votes := votes[l := VotesOn(saved, l)[user := agree]];
      err := CarryOut(l, effect, expected);
      if err.None? {
        err := tables.CreateActionLog(l, LogKey(user, actionId), VoteAt(agree, expected));
      }
      if err.None? {
        err := CarryOutInRoom(effect);
      }
      if err.Some? {
        Rollback(saved);
      }
    }

    method VoteWithDeck(user: string, agree: bool, expected: int, actionId: string, sid: Sid, deck: seq<StoredCard>)
      returns (err: Option<Error>, latest: Option<Sid>)
      modifies this, tables
      ensures IsLatest(old(tables.recs), latest)
      ensures err == ErrorOf(Rooms.VoteRematch(old(World()), user, agree, expected, actionId, latest, sid, deck))
      ensures World() == ValueOr(Rooms.VoteRematch(old(World()), user, agree, expected, actionId, latest, sid, deck),
                                 old(World()))
    {
      latest := GetLatestSession();
      var w := World();
      ghost var voted := Rooms.VoteRematch(w, user, agree, expected, actionId, latest, sid, deck);
      VoteInHalves(w, user, agree, expected, actionId, latest, sid, deck);
      var seen := CheckVote(user, agree, expected, actionId, latest);
      if seen.Err? {
        err := Some(seen.error);
      } else if seen.value == Replay {
        err := None;
      } else {
        var effect := EffectBy(w, latest.value, user, agree, sid, deck);
        err := CountVote(w, latest.value, user, agree, expected, actionId, effect, voted);
      }
    }

    /** A consistent room stays so exactly unless the vote is a refusal that loses a running round. */
    method VoteRematch(user: string, agree: bool, expected: int, actionId: string, sid: Sid, draws: seq<Option<nat>>)
      returns (err: Option<Error>, deck: seq<StoredCard>, latest: Option<Sid>)
      requires InRange(DECK_SIZE, Picks(draws))
      modifies this, tables
      ensures IsLatest(old(tables.recs), latest) && deck == ShuffledBy(draws)
      ensures err == ErrorOf(Rooms.VoteRematch(old(World()), user, agree, expected, actionId, latest, sid, deck))
      ensures World() == ValueOr(Rooms.VoteRematch(old(World()), user, agree, expected, actionId, latest, sid, deck),
                                 old(World()))
      ensures old(WorldInv(World())) ==>
                (WorldInv(World()) <==> !LosesRound(old(World()), user, agree, expected, actionId, latest))
    {
      ghost var w := World();
      deck := NewShuffledDeck(draws);
      err, latest := VoteWithDeck(user, agree, expected, actionId, sid, deck);
      FullDeckSize(deck);
      VotePromise(w, user, agree, expected, actionId, latest, sid, deck);
    }

    /** The next round of an agreed rematch, or everything as it was. */
    method Reopen(l: Sid, sess: GameSession, user: string, sid: Sid, deck: seq<StoredCard>) returns (err: Option<Error>)
      requires l in tables.recs && tables.recs[l].sess == sess.Row()
      modifies sess, this, tables
      ensures var w := old(World());
              var spec := Reopened(w, sid, OpenNextRound(w.db, l, old(sess.Row()), NewSession(sid, user, deck)));
              err == ErrorOf(spec) && World() == ValueOr(spec, w)
    {
      var saved := World();
      err := OpenNext(l, sess, sess.roundNo + 1, sess.version, user, sid, deck,
                      OpenNextRound(tables.Db(), l, sess.Row(), NewSession(sid, user, deck)));
      if err.None? {
        err := SetCurrent(Some(sid), 1);
      }
      if err.Some? {
        Rollback(saved);
      }
    }

    /** Decides the rematch of a finished session at its deadline. */
    method ProcessRematchDeadline(s: Sid, sid: Sid, deck: seq<StoredCard>) returns (err: Option<Error>)
      modifies this, tables
      ensures err == ErrorOf(Rooms.ProcessRematchDeadline(old(World()), s, sid, deck))
      ensures World() == ValueOr(Rooms.ProcessRematchDeadline(old(World()), s, sid, deck), old(World()))
      ensures GoodDeck(deck) ==> Keeps(old(World()), World())
    {
      DeadlinePromise(World(), s, sid, deck);
      DeadlineInHalves(World(), s, sid, deck);
      var read := tables.GetSession(s);
      if read.Err? {
        return Some(read.error);
      }
      var sess := read.value;
      if sess.status != Resetting || sess.rematchDeadline == None || sess.rematchDeadline.value > tables.now {
        return None;
      }
      var r := GetRoom();
      if r.current != Some(s) {
        return None;
      }
      var eligible := Eligible(World());
      var agreeMap := AgreeMapAtDeadline(eligible, VotesOn(World(), s));
      if |eligible| > 0 && RematchUnanimous(eligible, agreeMap) {
        err := Reopen(s, sess, eligible[0], sid, deck);
      } else {
        err := FinalizeRematchFailure();
      }
    }

    /** Puts the room back to the beginning: no seats, no sessions. */
    method ResetRoom(user: string) returns (err: Option<Error>)
      modifies this, tables
      ensures err == ErrorOf(Rooms.ResetRoom(old(World()), user))
      ensures World() == ValueOr(Rooms.ResetRoom(old(World()), user), old(World()))
      ensures Keeps(old(World()), World())
    {
      ResetPromise(World(), user);
      if user == "" {
        return Some(UnauthorizedUser);
      }
      var r := GetRoom();
      if r.host != user {
        return Some(ForbiddenAction);
      }
      tables.recs, votes, seat := map[], map[], NoSeat;
      err := SetCurrent(None, 0);
    }

    // ---- the worker ----

    /** The sessions a query finds, each once; their order is the database's. */
    method ListSessions(q: Query) returns (list: seq<Sid>)
      ensures Lists(list, World(), q)
    {
      list := [];
      var todo := tables.recs.Keys;
      while todo != {}
        invariant todo <= tables.recs.Keys && Distinct(list)
        invariant forall s :: s in list <==> s in tables.recs && s !in todo && Matches(q, tables.recs[s].sess, tables.now)
        decreases |todo|
      {
        var s :| s in todo;
        todo := todo - {s};
        if Matches(q, tables.recs[s].sess, tables.now) {
          list := list + [s];
        }
      }
    }
  }
}
