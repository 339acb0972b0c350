/** A room with its one seat, its sessions and its votes, and what each call makes of them when it runs alone. */
module Rooms {
  import opened Wrappers
  import opened Cards
  import opened Shuffle
  import opened Hands
  import opened Policies
  import opened Rounds
  import opened RoundInvariant
  import opened SessionStore
  import opened RoundSteps
  import opened AtomicSessions

  datatype RoomStatus = Waiting | ReadyToStart | Playing

  /** The row of the host in the list of room players; nobody else can sit down. */
  datatype Seat = NoSeat | SeatActive | SeatDisconnected | SeatLeft

  datatype Room = Room(host: string, status: RoomStatus, current: Option<Sid>)

  datatype World = World(room: Room, seat: Seat, db: Database, votes: map<Sid, map<string, bool>>)

  function RecalculateStatus(active: int, hasSession: bool): Result<RoomStatus, Error> {
    if active < 0 then Err(InvalidInput)
    else if active > 1 then Err(RoomFull)
    else Ok(if hasSession then Playing else if active == 1 then ReadyToStart else Waiting)
  }

  predicate Seated(seat: Seat) { seat == SeatActive || seat == SeatDisconnected }

  function ActiveHumans(seat: Seat): int { if Seated(seat) then 1 else 0 }

  function Eligible(w: World): seq<string> { if Seated(w.seat) then [w.room.host] else [] }

  function WithRoom(w: World, current: Option<Sid>, active: int): Result<World, Error> {
    var status :- RecalculateStatus(active, current.Some?);
    Ok(w.(room := w.room.(current := current, status := status)))
  }

  /** The row of a user among the room's players. */
  function SeatOf(w: World, user: string): Seat { if user == w.room.host then w.seat else NoSeat }

  function JoinRoom(w: World, user: string): Result<World, Error> {
    if user == "" then Err(UnauthorizedUser)
    else if w.room.status == Playing then Err(InvalidGameState)
    else if w.room.host != user then Err(ForbiddenAction)
    else if ActiveHumans(w.seat) >= 1 then Err(RoomFull)
    else WithRoom(w.(seat := SeatActive), w.room.current, ActiveHumans(w.seat) + 1)
  }

  function LeaveRoom(w: World, user: string): Result<World, Error> {
    if user == "" then Err(UnauthorizedUser)
    else if w.room.current.Some? then Err(InvalidGameState)
    else match SeatOf(w, user)
      case NoSeat => Err(NotFound)
      case SeatLeft => Ok(w)
      case _ => WithRoom(w.(seat := SeatLeft), None, 0)
  }

  function MarkConnected(w: World, user: string): Result<World, Error> {
    if user == "" then Err(InvalidInput)
    else match SeatOf(w, user)
      case NoSeat => Err(NotFound)
      case SeatDisconnected => Ok(w.(seat := SeatActive))
      case _ => Ok(w)
  }

  function MarkDisconnected(w: World, user: string): Result<World, Error> {
    if user == "" then Err(InvalidInput)
    else match SeatOf(w, user)
      case SeatActive => Ok(w.(seat := SeatDisconnected))
      case _ => Ok(w)
  }

  /** The answer to a search for the newest session: any session that none is newer than. */
  ghost predicate IsLatest(recs: map<Sid, Record>, latest: Option<Sid>) {
    match latest
    case None => recs == map[]
    case Some(l) => l in recs && forall s :: s in recs ==> recs[s].sess.createdAt <= recs[l].sess.createdAt
  }

  function NextNumber(recs: map<Sid, Record>, latest: Option<Sid>): int
    requires latest.Some? ==> latest.value in recs
  {
    if latest.Some? then recs[latest.value].sess.roundNo + 1 else 1
  }

  /** Only the seated host of a room that is ready may start it. */
  function MayStart(w: World, user: string): Option<Error> {
    if user == "" then Some(UnauthorizedUser)
    else if w.room.host != user then Some(ForbiddenAction)
    else if w.room.status != ReadyToStart then Some(InvalidGameState)
    else if SeatOf(w, user) == NoSeat then Some(NotFound)
    else if !Seated(SeatOf(w, user)) then Some(InvalidGameState)
    else if w.room.current.Some? then Some(InvalidGameState)
    else None
  }

  ghost function StartRoom(w: World, user: string, latest: Option<Sid>, sid: Sid, deck: seq<StoredCard>): Result<World, Error>
    requires IsLatest(w.db.recs, latest)
  {
    Started(w, user, sid, CreateSession(w.db, NewSession(sid, user, deck), NextNumber(w.db.recs, latest)))
  }

  /** A start whose round is stored as given. */
  function Started(w: World, user: string, sid: Sid, created: Result<Database, Error>): Result<World, Error> {
    var _ :- Must(MayStart(w, user));
    var db :- created;
    WithRoom(w.(db := db), Some(sid), 1)
  }

  function PlayerTurnCall(w: World, user: string, expected: int, actionId: string, hit: bool): Result<World, Error> {
    if user == "" then Err(UnauthorizedUser)
    else if expected <= 0 || actionId == "" then Err(InvalidInput)
    else if w.room.current.None? then Err(InvalidGameState)
    else if w.room.current.value !in w.db.recs then Err(NotFound)
    else
      var sid := w.room.current.value;
      var r := w.db.recs[sid];
      var r' :- PlayRecord(r, user, expected, actionId, hit, w.db.now);
      if r' == r then Ok(w) else WithRoom(w.(db := Put(w.db, sid, r')), Some(sid), 1)
  }

  /** Under the heuristic policy a timed-out player is made to hit when the hint says so. */
  predicate AutoHits(r: Record, heuristic: bool) {
    heuristic && |r.dealer.hand| > 0 && RecommendHitOrStand(r.player.hand, r.dealer.hand[0])
  }

  /** A timed-out turn: a loss by time, or under the heuristic policy a hit if the hint says so. */
  function PlayerStandCall(w: World, sid: Sid, heuristic: bool): Result<World, Error> {
    if sid !in w.db.recs then Err(NotFound)
    else
      var r := w.db.recs[sid];
      if !TurnIsDue(r.sess, w.db.now) then Ok(w)
      else if AutoHits(r, heuristic) then
        PlayerTurnCall(w, r.player.userId, r.sess.version, AutoHitId(sid, r.sess.version), true)
      else
        var r' :- ForfeitRecord(sid, r, w.db.now);
        WithRoom(w.(db := Put(w.db, sid, r')), Some(sid), 1)
  }

  function DealerTurnCall(w: World, sid: Sid): Result<World, Error> {
    if sid !in w.db.recs then Err(NotFound)
    else
      var r := w.db.recs[sid];
      if r.sess.status != DealerTurn then Ok(w)
      else
        var r' :- DealerRecord(r, w.db.now);
        if DealerDraws(r.dealer.hand) then Ok(w.(db := Put(w.db, sid, r')))
        else WithRoom(w.(db := Put(w.db, sid, r')), Some(sid), 1)
  }

  // ---- the rematch ----

  predicate RematchUnanimous(eligible: seq<string>, agree: map<string, bool>) {
    |eligible| > 0 && forall u :: u in eligible ==> u in agree && agree[u]
  }

  predicate HasExplicitDenial(eligible: seq<string>, agree: map<string, bool>) {
    exists u :: u in eligible && u in agree && !agree[u]
  }

  function VotesOn(w: World, sid: Sid): map<string, bool> { if sid in w.votes then w.votes[sid] else map[] }

  /** The room is released when the rematch does not come about. */
  function FinalizeRematchFailure(w: World): Result<World, Error> { WithRoom(w, None, ActiveHumans(w.seat)) }

  function EffectOfVote(w: World, sid: Sid, user: string, agree: bool, n: NewSession): VoteEffect {
    var agreeMap := VotesOn(w, sid)[user := agree];
    if RematchUnanimous(Eligible(w), agreeMap) then OpenNext(n)
    else if HasExplicitDenial(Eligible(w), agreeMap) then Refuse
    else Wait
  }

  ghost function VoteRematch(w: World, user: string, agree: bool, expected: int, actionId: string,
                             latest: Option<Sid>, sid: Sid, deck: seq<StoredCard>): Result<World, Error>
    requires IsLatest(w.db.recs, latest)
  {
    if user == "" then Err(UnauthorizedUser)
    else if expected <= 0 || actionId == "" then Err(InvalidInput)
    else if SeatOf(w, user) == NoSeat then Err(ForbiddenAction)
    else if latest.None? then Err(NotFound)
    else
      var l := latest.value;
      var r := w.db.recs[l];
      if r.sess.status != Resetting then Err(InvalidGameState)
      else
        var _ :- Must(CheckVersion(r.sess, expected));
        var seen :- CheckIdempotency(r.logs, LogKey(user, actionId), VoteAt(agree, expected));
        if seen.Replay? then Ok(w)
        else if user !in Eligible(w) then Err(ForbiddenAction)
        else
          var effect := EffectOfVote(w, l, user, agree, NewSession(sid, Eligible(w)[0], deck));
          var db :- VoteSession(w.db, l, user, agree, expected, actionId, effect);
          var w1 := w.(db := db, votes := w.votes[l := VotesOn(w, l)[user := agree]]);
          match effect
          case OpenNext(_) => WithRoom(w1, Some(sid), 1)
          case Refuse => FinalizeRematchFailure(w1)
          case Wait => Ok(w1)
  }

  /** Who has agreed at the deadline; a missing vote counts as a refusal. */
  function AgreeMapAtDeadline(eligible: seq<string>, votes: map<string, bool>): map<string, bool> {
    map u | u in eligible :: u in votes && votes[u]
  }

  ghost function ProcessRematchDeadline(w: World, s: Sid, sid: Sid, deck: seq<StoredCard>): Result<World, Error>
  {
    if s !in w.db.recs then Err(NotFound)
    else if !RematchIsDue(w.db.recs[s].sess, w.db.now) then Ok(w)
    else if w.room.current != Some(s) then Ok(w)
    else if |Eligible(w)| == 0 then FinalizeRematchFailure(w)
    else if RematchUnanimous(Eligible(w), AgreeMapAtDeadline(Eligible(w), VotesOn(w, s))) then
      var db :- OpenNextRound(w.db, s, w.db.recs[s].sess, NewSession(sid, Eligible(w)[0], deck));
      WithRoom(w.(db := db), Some(sid), 1)
    else FinalizeRematchFailure(w)
  }

  function ResetRoom(w: World, user: string): Result<World, Error> {
    if user == "" then Err(UnauthorizedUser)
    else if w.room.host != user then Err(ForbiddenAction)
    else WithRoom(w.(seat := NoSeat, db := w.db.(recs := map[]), votes := map[]), None, 0)
  }

  // ---- calls ----

  datatype RoomCall =
    | Join(user: string)
    | Leave(user: string)
    | Connect(user: string)
    | Disconnect(user: string)
    | Start(user: string, latest: Option<Sid>, sid: Sid, deck: seq<StoredCard>)
    | Play(user: string, expected: int, actionId: string, hit: bool)
    | Vote(user: string, agree: bool, expected: int, actionId: string, latest: Option<Sid>, sid: Sid, deck: seq<StoredCard>)
    | TurnTimeout(s: Sid, heuristic: bool)
    | DealerMoves(s: Sid)
    | RematchTimeout(s: Sid, sid: Sid, deck: seq<StoredCard>)
    | Reset(user: string)
    | Advance(now: Time)

  /** The parameters that stand for randomness and for the database's answers are possible ones. */
  ghost predicate Sound(w: World, call: RoomCall) {
    match call
    case Start(_, latest, _, deck) => IsLatest(w.db.recs, latest) && GoodDeck(deck)
    case Vote(_, _, _, _, latest, _, deck) => IsLatest(w.db.recs, latest) && GoodDeck(deck)
    case RematchTimeout(_, _, deck) => GoodDeck(deck)
    case _ => true
  }

  ghost function Invoke(w: World, call: RoomCall): Result<World, Error>
    requires Sound(w, call)
  {
    match call
    case Join(user) => JoinRoom(w, user)
    case Leave(user) => LeaveRoom(w, user)
    case Connect(user) => MarkConnected(w, user)
    case Disconnect(user) => MarkDisconnected(w, user)
    case Start(user, latest, sid, deck) => StartRoom(w, user, latest, sid, deck)
    case Play(user, expected, actionId, hit) => PlayerTurnCall(w, user, expected, actionId, hit)
    case Vote(user, agree, expected, actionId, latest, sid, deck) =>
      VoteRematch(w, user, agree, expected, actionId, latest, sid, deck)
    case TurnTimeout(s, heuristic) => PlayerStandCall(w, s, heuristic)
    case DealerMoves(s) => DealerTurnCall(w, s)
    case RematchTimeout(s, sid, deck) => ProcessRematchDeadline(w, s, sid, deck)
    case Reset(user) => ResetRoom(w, user)
    case Advance(now) => Ok(if now >= w.db.now then w.(db := w.db.(now := now)) else w)
  }

  /** A failed call changes nothing. */
  ghost function After(w: World, call: RoomCall): World {
    if Sound(w, call) && Invoke(w, call).Ok? then Invoke(w, call).value else w
  }
}
