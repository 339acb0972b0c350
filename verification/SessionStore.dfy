/**
 The session tables of one room. Every write is a transaction on one record, guarded by the
 version the writer has read, and the unique keys of the logs.
 */
module SessionStore {
  import opened Wrappers
  import opened Numerals
  import opened Cards
  import opened Shuffle
  import opened Hands
  import opened Policies
  import opened Rounds
  import opened RoundInvariant

  type Sid = string

  /** The sessions of a room, the identifiers ever given to one, and the clock. */
  datatype Database = Database(now: Time, recs: map<Sid, Record>, used: set<Sid>)

  // ---- action identifiers the server makes up itself ----

  function ForfeitId(sid: Sid, version: int): string { "time-forfeit:" + sid + ":" + Number(version) }

  function AutoHitId(sid: Sid, version: int): string { "auto-heuristic-hit:" + sid + ":" + Number(version) }

  function PlayPayload(hit: bool, expected: int): Payload {
    if hit then HitAt(expected) else StandAt(expected)
  }

  // ---- transactions on one record ----

  /** The update that changes nothing unless the stored version is the expected one. */
  function CommitPlay(r: Record, rows: Played, dealer: DealerRow, expected: int, key: LogKey, payload: Payload)
    : Result<Record, Error>
  {
    if r.sess.version != expected then Err(VersionConflict)
    else if key in r.logs then Err(UniqueViolation)
    else Ok(Record(rows.sess, rows.player, dealer, r.rounds, r.logs[key := payload]))
  }

  function AddRound(rounds: seq<RoundLog>, log: RoundLog): Result<seq<RoundLog>, Error> {
    if exists i :: 0 <= i < |rounds| && rounds[i].roundNo == log.roundNo then Err(UniqueViolation)
    else Ok(rounds + [log])
  }

  function CommitForfeit(r: Record, rows: Settled, expected: int, key: LogKey, payload: Payload)
    : Result<Record, Error>
  {
    if r.sess.version != expected then Err(VersionConflict)
    else
      var rounds :- AddRound(r.rounds, rows.log);
      if key in r.logs then Err(UniqueViolation)
      else Ok(Record(rows.sess, rows.player, rows.dealer, rounds, r.logs[key := payload]))
  }

  function CommitDealer(r: Record, rows: DealerStep, expected: int): Result<Record, Error> {
    if r.sess.version != expected then Err(VersionConflict)
    else match rows.log
      case None => Ok(r.(sess := rows.sess, dealer := rows.dealer))
      case Some(log) =>
        var rounds :- AddRound(r.rounds, log);
        Ok(Record(rows.sess, rows.player, rows.dealer, rounds, r.logs))
  }

  // ---- the same operations when nothing happens between reading and writing ----

  datatype Checked = Replay | Fresh

  /** A known action id is a replay if the request is the same, and an error if it is another one. */
  function CheckIdempotency(logs: map<LogKey, Payload>, key: LogKey, payload: Payload): Result<Checked, Error> {
    if key !in logs then Ok(Fresh)
    else if logs[key] == payload then Ok(Replay)
    else Err(DuplicateAction)
  }

  function PlayerOf(p: PlayerRow, user: string): Result<PlayerRow, Error> {
    if p.userId != user then Err(ForbiddenAction) else Ok(p)
  }

  function Must(e: Option<Error>): Result<(), Error> {
    match e case None => Ok(()) case Some(x) => Err(x)
  }

  /** Everything that is checked before HIT or STAND computes anything. */
  function PlayChecks(r: Record, user: string, expected: int, actionId: string, hit: bool): Result<Checked, Error> {
    var _ :- Must(CheckVersion(r.sess, expected));
    var player :- PlayerOf(r.player, user);
    var _ :- Must(CanHitOrStand(r.sess, player, user));
    CheckIdempotency(r.logs, LogKey(user, actionId), PlayPayload(hit, expected))
  }

  /** What HIT or STAND writes once the checks have passed. */
  function PlayWrites(r: Record, user: string, expected: int, actionId: string, hit: bool, now: Time)
    : Result<Record, Error>
  {
    var rows :- PlayRows(r.sess, r.player, hit, now);
    CommitPlay(r, rows, r.dealer, expected, LogKey(user, actionId), PlayPayload(hit, expected))
  }

  /** HIT and STAND on one record: the new record, or the unchanged one for a replay. */
  function PlayRecord(r: Record, user: string, expected: int, actionId: string, hit: bool, now: Time)
    : Result<Record, Error>
  {
    var seen :- PlayChecks(r, user, expected, actionId, hit);
    if seen.Replay? then Ok(r) else PlayWrites(r, user, expected, actionId, hit, now)
  }

  predicate TurnIsDue(s: SessionRow, now: Time) {
    s.status == PlayerTurn && s.turnDeadline.Some? && s.turnDeadline.value <= now
  }

  function ForfeitKey(sid: Sid, p: PlayerRow, version: int): LogKey {
    LogKey(p.userId, ForfeitId(sid, version))
  }

  function ForfeitRecord(sid: Sid, r: Record, now: Time): Result<Record, Error> {
    if !TurnIsDue(r.sess, now) then Ok(r)
    else
      var rows :- ForfeitRows(r.Table(), now);
      var v := rows.sess.version;
      CommitForfeit(r, rows, r.sess.version, ForfeitKey(sid, rows.player, v), ForfeitAt(v))
  }

  function DealerRecord(r: Record, now: Time): Result<Record, Error> {
    if r.sess.status != DealerTurn then Ok(r)
    else
      var rows :- DealerRows(r.Table(), now);
      CommitDealer(r, rows, r.sess.version)
  }

  /** A deck as the shuffle can produce it: every card once, in any order. */
  ghost predicate GoodDeck(deck: seq<StoredCard>) { FullDeck(deck) && |deck| == DECK_SIZE }

  /** What a new session needs: a fresh identifier, a player and a shuffled deck. */
  datatype NewSession = NewSession(sid: Sid, user: string, deck: seq<StoredCard>)

  ghost predicate RoundTaken(recs: map<Sid, Record>, roundNo: int) {
    exists s :: s in recs && recs[s].sess.roundNo == roundNo
  }

  ghost predicate CanCreate(db: Database, n: NewSession, roundNo: int) {
    GoodDeck(n.deck) && n.sid !in db.used && roundNo > 0 && !RoundTaken(db.recs, roundNo)
  }

  function FirstRecord(t: Table3): Record { Record(t.sess, t.player, t.dealer, [], map[]) }

  /** Stores a freshly dealt round; a taken round number or a failed deal leaves the tables alone. */
  ghost function CreateSession(db: Database, n: NewSession, roundNo: int): Result<Database, Error>
  {
    StoreRound(db, n.sid, roundNo, NewRound(roundNo, n.user, n.deck, db.now))
  }

  ghost function StoreRound(db: Database, sid: Sid, roundNo: int, dealt: Result<Table3, Error>): Result<Database, Error> {
    var t :- dealt;
    if sid in db.used || RoundTaken(db.recs, roundNo) || roundNo <= 0 then Err(UniqueViolation)
    else Ok(db.(recs := db.recs[sid := FirstRecord(t)], used := db.used + {sid}))
  }

  function Put(db: Database, sid: Sid, r: Record): Database {
    db.(recs := db.recs[sid := r])
  }
}
