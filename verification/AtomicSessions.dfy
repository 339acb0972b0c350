/** The sessions of a room when each operation runs alone: the specification of the interleaved server. */
module AtomicSessions {
  import opened Wrappers
  import opened Cards
  import opened Shuffle
  import opened Hands
  import opened Policies
  import opened Rounds
  import opened RoundInvariant
  import opened SessionStore
  import opened RoundSteps

  /** What a vote leads to, once the room has been looked at. */
  datatype VoteEffect = OpenNext(n: NewSession) | Refuse | Wait

  datatype Op =
    | DoPlay(sid: Sid, user: string, expected: int, actionId: string, hit: bool, at: Time)
    | DoForfeit(sid: Sid, at: Time)
    | DoDealer(sid: Sid, at: Time)
    | DoStart(n: NewSession, roundNo: int)
    | DoVote(sid: Sid, user: string, agree: bool, expected: int, actionId: string, effect: VoteEffect)
    | DoDeadline(sid: Sid, n: NewSession)
    | DoReset
    | DoTick(now: Time)

  function Deadlined(s: SessionRow, now: Time): SessionRow {
    if s.rematchDeadline.None? then WithRematchDeadline(s, now) else s
  }

  function BumpedIn(db: Database, sid: Sid, s: SessionRow): Database
    requires sid in db.recs
  {
    Put(db, sid, db.recs[sid].(sess := Bumped(s)))
  }

  /** The bump of the finished session that lets the next round begin, and the next round itself. */
  ghost function OpenNextRound(db: Database, sid: Sid, s: SessionRow, n: NewSession): Result<Database, Error>
    requires sid in db.recs
  {
    CreateSession(BumpedIn(db, sid, s), n, s.roundNo + 1)
  }

  ghost function AddLog(db: Database, sid: Sid, key: LogKey, payload: Payload): Result<Database, Error> {
    if sid !in db.recs then Err(NotFound)
    else if key in db.recs[sid].logs then Err(UniqueViolation)
    else Ok(Put(db, sid, db.recs[sid].(logs := db.recs[sid].logs[key := payload])))
  }

  /** The tables once the effect of an accepted vote has been written. */
  ghost function Effected(db: Database, sid: Sid, effect: VoteEffect): Result<Database, Error>
    requires sid in db.recs
  {
    var r := db.recs[sid];
    match effect
    case OpenNext(n) => OpenNextRound(db, sid, Deadlined(r.sess, db.now), n)
    case Refuse => Ok(db)
    case Wait => Ok(Put(db, sid, r.(sess := Bumped(Deadlined(r.sess, db.now)))))
  }

  /** The transaction of a vote on a finished session. */
  ghost function VoteSession(db: Database, sid: Sid, user: string, agree: bool, expected: int, actionId: string,
                             effect: VoteEffect): Result<Database, Error>
  {
    if sid !in db.recs then Err(NotFound)
    else
      var r := db.recs[sid];
      if r.sess.status != Resetting then Err(InvalidGameState)
      else
        var _ :- Must(CheckVersion(r.sess, expected));
        var key, payload := LogKey(user, actionId), VoteAt(agree, expected);
        var seen :- CheckIdempotency(r.logs, key, payload);
        if seen.Replay? then Ok(db)
        else
          var db1 :- Effected(db, sid, effect);
          AddLog(db1, sid, key, payload)
  }

  predicate RematchIsDue(s: SessionRow, now: Time) {
    s.status == Resetting && s.rematchDeadline.Some? && s.rematchDeadline.value <= now
  }

  /** The time that the rows written by an operation show, if it carries one. */
  function OpTime(op: Op): Time {
    match op
    case DoPlay(_, _, _, _, _, at) => at
    case DoForfeit(_, at) => at
    case DoDealer(_, at) => at
    case _ => 0
  }

  ghost predicate WellFormed(op: Op) {
    match op
    case DoPlay(_, _, _, _, _, at) => at > 0
    case DoForfeit(_, at) => at > 0
    case DoDealer(_, at) => at > 0
    case DoStart(n, _) => GoodDeck(n.deck)
    case DoVote(_, _, _, _, _, effect) => effect.OpenNext? ==> GoodDeck(effect.n.deck)
    case DoDeadline(_, n) => GoodDeck(n.deck)
    case _ => true
  }

  ghost function PutResult(db: Database, sid: Sid, r: Result<Record, Error>): Database {
    match r case Ok(r') => Put(db, sid, r') case Err(_) => db
  }

  ghost function OrElse(db: Database, r: Result<Database, Error>): Database {
    match r case Ok(db') => db' case Err(_) => db
  }

  /** One operation; a failed one changes nothing, and neither does one with a wrong deck or a time that has not come. */
  ghost function Apply(db: Database, op: Op): Database {
    if !WellFormed(op) || OpTime(op) > db.now then db else
    match op
    case DoPlay(sid, user, expected, actionId, hit, at) =>
      if sid !in db.recs then db
      else PutResult(db, sid, PlayRecord(db.recs[sid], user, expected, actionId, hit, at))
    case DoForfeit(sid, at) =>
      if sid !in db.recs then db else PutResult(db, sid, ForfeitRecord(sid, db.recs[sid], at))
    case DoDealer(sid, at) =>
      if sid !in db.recs then db else PutResult(db, sid, DealerRecord(db.recs[sid], at))
    case DoStart(n, roundNo) => OrElse(db, CreateSession(db, n, roundNo))
    case DoVote(sid, user, agree, expected, actionId, effect) =>
      OrElse(db, VoteSession(db, sid, user, agree, expected, actionId, effect))
    case DoDeadline(sid, n) =>
      if sid in db.recs && RematchIsDue(db.recs[sid].sess, db.now)
      then OrElse(db, OpenNextRound(db, sid, db.recs[sid].sess, n)) else db
    case DoReset => db.(recs := map[])
    case DoTick(now) => if now >= db.now then db.(now := now) else db
  }

  // ---- what every operation keeps ----

  /** All records are good, their identifiers are used up, and no two rounds share a number. */
  ghost predicate AllRecords(db: Database, good: Record -> bool) {
    && db.now > 0
    && db.recs.Keys <= db.used
    && (forall s {:trigger good(db.recs[s])} :: s in db.recs ==> good(db.recs[s]))
    && (forall s, u :: s in db.recs && u in db.recs && s != u ==> db.recs[s].sess.roundNo != db.recs[u].sess.roundNo)
  }

  ghost predicate DbInv(db: Database) { AllRecords(db, RecordInv) }

  lemma RecordOf(db: Database, sid: Sid)
    requires DbInv(db) && sid in db.recs
    ensures RecordInv(db.recs[sid]) && sid in db.used
  {
    var good: Record -> bool := RecordInv;
    assert good(db.recs[sid]);
  }

  /** How a stored record may change while it exists. */
  ghost predicate Grows(r: Record, r': Record) {
    && r'.sess.version >= r.sess.version
    && (r'.sess.version == r.sess.version ==> r'.sess == r.sess && r'.player == r.player && r'.dealer == r.dealer)
    && SameRound(r.sess, r'.sess)
    && r'.player.userId == r.player.userId
    && r.logs.Keys <= r'.logs.Keys
    && (r.sess.status == Resetting ==>
          r'.sess.status == Resetting && r'.rounds == r.rounds && r'.player == r.player && r'.dealer == r.dealer)
  }

  ghost predicate Evolves(db: Database, db': Database) {
    && db.now <= db'.now && db.used <= db'.used
    && (forall s :: s in db'.recs && s in db.used ==> s in db.recs && Grows(db.recs[s], db'.recs[s]))
  }

  lemma EvolvesTransitive(a: Database, b: Database, c: Database)
    requires Evolves(a, b) && Evolves(b, c)
    ensures Evolves(a, c)
  {
  }

  lemma PutKeeps(db: Database, sid: Sid, r': Record, good: Record -> bool)
    requires AllRecords(db, good) && sid in db.recs && good(r') && Grows(db.recs[sid], r')
    ensures AllRecords(Put(db, sid, r'), good) && Evolves(db, Put(db, sid, r'))
  {
  }

  ghost function Added(db: Database, n: NewSession, r: Record): Database {
    db.(recs := db.recs[n.sid := r], used := db.used + {n.sid})
  }

  /** The record of a session that was created at the given time and has not been touched since. */
  ghost predicate IsFirst(r: Record, n: NewSession, roundNo: int, now: Time) {
    && r.sess.roundNo == roundNo && r.sess.version == 1 && r.sess.createdAt == now
    && r.player.userId == n.user && r.sess.status != Resetting && r.logs == map[]
  }

  /** A round is created exactly when its number and identifier are free; the deal itself never fails. */
  lemma CreateSessionIs(db: Database, n: NewSession, roundNo: int) returns (r: Record)
    requires GoodDeck(n.deck)
    ensures RecordInv(r) && IsFirst(r, n, roundNo, db.now)
    ensures CreateSession(db, n, roundNo) ==
            if CanCreate(db, n, roundNo) then Ok(Added(db, n, r)) else Err(UniqueViolation)
  {
    NewRoundIsGood(roundNo, n.user, n.deck, db.now);
    r := FirstRecord(NewRound(roundNo, n.user, n.deck, db.now).value);
  }

  /** A record as it was dealt: two cards each, and the player's turn unless the player has a natural. */
  ghost predicate Dealt(r: Record, deck: seq<StoredCard>) {
    && |deck| >= 4 && r.sess.version == 1 && r.logs == map[]
    && r.player.hand == [deck[0], deck[2]] && r.dealer.hand == [deck[1], deck[3]]
    && r.sess.status == if IsBlackjack([deck[0], deck[2]]) then DealerTurn else PlayerTurn
  }

  lemma CreatedIsDealt(db: Database, n: NewSession, roundNo: int)
    requires GoodDeck(n.deck) && CreateSession(db, n, roundNo).Ok?
    ensures var db' := CreateSession(db, n, roundNo).value; n.sid in db'.recs && Dealt(db'.recs[n.sid], n.deck)
  {
    DealFromFullDeck(roundNo, n.user, n.deck, db.now);
  }

  lemma AddKeeps(db: Database, n: NewSession, r: Record, good: Record -> bool)
    requires AllRecords(db, good) && good(r) && CanCreate(db, n, r.sess.roundNo)
    ensures AllRecords(Added(db, n, r), good) && Evolves(db, Added(db, n, r))
  {
    assert n.sid !in db.recs;
    assert forall s :: s in db.recs ==> Grows(db.recs[s], db.recs[s]);
  }

  lemma CreateKeepsDbInv(db: Database, n: NewSession, roundNo: int)
    requires DbInv(db) && GoodDeck(n.deck)
    ensures var db' := OrElse(db, CreateSession(db, n, roundNo)); DbInv(db') && Evolves(db, db')
  {
    var r := CreateSessionIs(db, n, roundNo);
    if CanCreate(db, n, roundNo) {
      AddKeeps(db, n, r, RecordInv);
    }
  }

  /** Counting a vote or opening the next round only moves the version of a finished session. */
  lemma BumpKeepsRecord(r: Record, now: Time)
    requires RecordInv(r) && r.sess.status == Resetting
    ensures Deadlined(r.sess, now) == r.sess
    ensures var r' := r.(sess := Bumped(r.sess)); RecordInv(r') && Grows(r, r')
  {
  }

  lemma VoteLogKeepsRecord(r: Record, key: LogKey, payload: Payload)
    requires RecordInv(r) && payload.VoteAt? && key !in r.logs
    ensures var r' := r.(logs := r.logs[key := payload]); RecordInv(r') && Grows(r, r')
  {
    CountNew(r.logs, key, payload, IsHit);
    CountNew(r.logs, key, payload, IsStand);
    CountNew(r.logs, key, payload, IsForfeit);
  }

  lemma NumbersUnchanged(db: Database, sid: Sid, r': Record, k: int)
    requires sid in db.recs && r'.sess.roundNo == db.recs[sid].sess.roundNo
    ensures RoundTaken(Put(db, sid, r').recs, k) <==> RoundTaken(db.recs, k)
  {
    var recs' := Put(db, sid, r').recs;
    assert forall s :: s in db.recs ==> s in recs' && recs'[s].sess.roundNo == db.recs[s].sess.roundNo;
    assert forall s :: s in recs' ==> s in db.recs && recs'[s].sess.roundNo == db.recs[s].sess.roundNo;
  }

  /** The next round is opened exactly when its number is still free, whatever else has happened. */
  lemma OpenNextIs(db: Database, sid: Sid, n: NewSession) returns (r0: Record)
    requires sid in db.recs && sid in db.used && GoodDeck(n.deck)
    ensures var r := db.recs[sid];
            var r', k := r.(sess := Bumped(r.sess)), r.sess.roundNo + 1;
            && RecordInv(r0) && IsFirst(r0, n, k, db.now)
            && OpenNextRound(db, sid, r.sess, n) ==
               if CanCreate(db, n, k) then Ok(Added(Put(db, sid, r'), n, r0)) else Err(UniqueViolation)
  {
    var r := db.recs[sid];
    var r' := r.(sess := Bumped(r.sess));
    NumbersUnchanged(db, sid, r', r.sess.roundNo + 1);
    r0 := CreateSessionIs(Put(db, sid, r'), n, r.sess.roundNo + 1);
  }

  lemma OpenNextKeeps(db: Database, sid: Sid, n: NewSession, r': Record, r0: Record, good: Record -> bool)
    requires AllRecords(db, good) && sid in db.recs && good(r') && Grows(db.recs[sid], r')
    requires good(r0) && CanCreate(db, n, r0.sess.roundNo)
    ensures var db' := Added(Put(db, sid, r'), n, r0);
            AllRecords(db', good) && Evolves(db, db') && sid in db'.recs && db'.recs[sid] == r'
  {
    PutKeeps(db, sid, r', good);
    NumbersUnchanged(db, sid, r', r0.sess.roundNo);
    AddKeeps(Put(db, sid, r'), n, r0, good);
    EvolvesTransitive(db, Put(db, sid, r'), Added(Put(db, sid, r'), n, r0));
  }

  lemma OpenNextKeepsDbInv(db: Database, sid: Sid, n: NewSession)
    requires DbInv(db) && sid in db.recs && db.recs[sid].sess.status == Resetting && GoodDeck(n.deck)
    ensures var a := OpenNextRound(db, sid, db.recs[sid].sess, n);
            a.Ok? ==> DbInv(a.value) && Evolves(db, a.value) && sid in a.value.recs
                      && a.value.recs[sid] == db.recs[sid].(sess := Bumped(db.recs[sid].sess))
  {
    var r := db.recs[sid];
    var r0 := OpenNextIs(db, sid, n);
    BumpKeepsRecord(r, db.now);
    if CanCreate(db, n, r.sess.roundNo + 1) {
      OpenNextKeeps(db, sid, n, r.(sess := Bumped(r.sess)), r0, RecordInv);
    }
  }

  lemma LogVote(db: Database, sid: Sid, key: LogKey, payload: Payload)
    requires DbInv(db) && sid in db.recs && payload.VoteAt?
    ensures var db' := OrElse(db, AddLog(db, sid, key, payload)); DbInv(db') && Evolves(db, db')
  {
    if key !in db.recs[sid].logs {
      var r' := db.recs[sid].(logs := db.recs[sid].logs[key := payload]);
      VoteLogKeepsRecord(db.recs[sid], key, payload);
      PutKeeps(db, sid, r', RecordInv);
    }
  }

  lemma EffectKeepsDbInv(db: Database, sid: Sid, effect: VoteEffect)
    requires DbInv(db) && sid in db.recs && db.recs[sid].sess.status == Resetting
    requires effect.OpenNext? ==> GoodDeck(effect.n.deck)
    ensures var a := Effected(db, sid, effect);
            a.Ok? ==> DbInv(a.value) && Evolves(db, a.value) && sid in a.value.recs
  {
    BumpKeepsRecord(db.recs[sid], db.now);
    match effect
    case OpenNext(n) => OpenNextKeepsDbInv(db, sid, n);
    case Refuse =>
    case Wait => PutKeeps(db, sid, db.recs[sid].(sess := Bumped(db.recs[sid].sess)), RecordInv);
  }

  lemma AcceptedVoteShape(db: Database, sid: Sid, user: string, agree: bool, expected: int, actionId: string,
                          effect: VoteEffect)
    requires effect.OpenNext? ==> GoodDeck(effect.n.deck)
    ensures var a := VoteSession(db, sid, user, agree, expected, actionId, effect);
            a.Ok? && a.value != db ==>
              && sid in db.recs && db.recs[sid].sess.status == Resetting && db.recs[sid].sess.version == expected
              && Effected(db, sid, effect).Ok?
              && a == AddLog(Effected(db, sid, effect).value, sid, LogKey(user, actionId), VoteAt(agree, expected))
  {
  }

  lemma VoteKeepsDbInv(db: Database, sid: Sid, user: string, agree: bool, expected: int, actionId: string,
                       effect: VoteEffect)
    requires DbInv(db) && (effect.OpenNext? ==> GoodDeck(effect.n.deck))
    ensures var db' := OrElse(db, VoteSession(db, sid, user, agree, expected, actionId, effect));
            DbInv(db') && Evolves(db, db')
  {
    var a := VoteSession(db, sid, user, agree, expected, actionId, effect);
    var db' := OrElse(db, a);
    if db' != db {
      AcceptedVoteShape(db, sid, user, agree, expected, actionId, effect);
      VoteEffectThenLog(db, sid, effect, LogKey(user, actionId), VoteAt(agree, expected), db');
    } else {
      EvolvesReflexive(db);
    }
  }

  lemma EvolvesReflexive(db: Database)
    ensures Evolves(db, db)
  {
  }

  lemma VoteEffectThenLog(db: Database, sid: Sid, effect: VoteEffect, key: LogKey, payload: Payload, db': Database)
    requires DbInv(db) && sid in db.recs && db.recs[sid].sess.status == Resetting && payload.VoteAt?
    requires effect.OpenNext? ==> GoodDeck(effect.n.deck)
    requires Effected(db, sid, effect).Ok?
    requires Ok(db') == AddLog(Effected(db, sid, effect).value, sid, key, payload)
    ensures DbInv(db') && Evolves(db, db')
  {
    EffectKeepsDbInv(db, sid, effect);
    LogVote(Effected(db, sid, effect).value, sid, key, payload);
    EvolvesTransitive(db, Effected(db, sid, effect).value, db');
  }

  /** A HIT, STAND, forfeit or dealer step that changes a record moves its version by exactly one. */
  lemma RecordOpsGrow(r: Record, sid: Sid, user: string, expected: int, actionId: string, hit: bool, now: Time)
    requires RecordInv(r) && now > 0
    ensures var a := PlayRecord(r, user, expected, actionId, hit, now);
            a.Ok? ==> RecordInv(a.value) && Grows(r, a.value) && a.value.sess.version == r.sess.version + 1
    ensures var a := ForfeitRecord(sid, r, now);
            a.Ok? ==> RecordInv(a.value) && Grows(r, a.value)
                      && (a.value == r || a.value.sess.version == r.sess.version + 1)
    ensures var a := DealerRecord(r, now);
            a.Ok? ==> RecordInv(a.value) && Grows(r, a.value)
                      && (a.value == r || a.value.sess.version == r.sess.version + 1)
  {
    PlayRecordAnswers(r, user, expected, actionId, hit, now);
    ForfeitRecordAnswers(sid, r, now);
    DealerRecordAnswers(r, now);
  }

  lemma PutOrKeep(db: Database, sid: Sid, a: Result<Record, Error>)
    requires DbInv(db) && sid in db.recs
    requires a.Ok? ==> RecordInv(a.value) && Grows(db.recs[sid], a.value)
    ensures DbInv(PutResult(db, sid, a)) && Evolves(db, PutResult(db, sid, a))
  {
    if a.Ok? {
      PutKeeps(db, sid, a.value, RecordInv);
    }
  }

  lemma PlayKeepsDbInv(db: Database, sid: Sid, user: string, expected: int, actionId: string, hit: bool, at: Time)
    requires DbInv(db) && sid in db.recs && at > 0
    ensures var db' := PutResult(db, sid, PlayRecord(db.recs[sid], user, expected, actionId, hit, at));
            DbInv(db') && Evolves(db, db')
  {
    RecordOf(db, sid);
    RecordOpsGrow(db.recs[sid], sid, user, expected, actionId, hit, at);
    PutOrKeep(db, sid, PlayRecord(db.recs[sid], user, expected, actionId, hit, at));
  }

  lemma ForfeitKeepsDbInv(db: Database, sid: Sid, at: Time)
    requires DbInv(db) && sid in db.recs && at > 0
    ensures var db' := PutResult(db, sid, ForfeitRecord(sid, db.recs[sid], at)); DbInv(db') && Evolves(db, db')
  {
    RecordOf(db, sid);
    RecordOpsGrow(db.recs[sid], sid, "", 0, "", false, at);
    PutOrKeep(db, sid, ForfeitRecord(sid, db.recs[sid], at));
  }

  lemma DealerKeepsDbInv(db: Database, sid: Sid, at: Time)
    requires DbInv(db) && sid in db.recs && at > 0
    ensures var db' := PutResult(db, sid, DealerRecord(db.recs[sid], at)); DbInv(db') && Evolves(db, db')
  {
    RecordOf(db, sid);
    RecordOpsGrow(db.recs[sid], sid, "", 0, "", false, at);
    PutOrKeep(db, sid, DealerRecord(db.recs[sid], at));
  }

  lemma DeadlineKeepsDbInv(db: Database, sid: Sid, n: NewSession)
    requires DbInv(db) && GoodDeck(n.deck)
    ensures var db' := Apply(db, DoDeadline(sid, n)); DbInv(db') && Evolves(db, db')
  {
    if sid in db.recs && RematchIsDue(db.recs[sid].sess, db.now) {
      OpenNextKeepsDbInv(db, sid, n);
    }
    EvolvesReflexive(db);
  }

  lemma ResetKeepsDbInv(db: Database)
    requires DbInv(db)
    ensures var db' := db.(recs := map[]); DbInv(db') && Evolves(db, db')
  {
  }

  lemma TickKeepsDbInv(db: Database, now: Time)
    requires DbInv(db)
    ensures var db' := if now >= db.now then db.(now := now) else db; DbInv(db') && Evolves(db, db')
  {
  }

  /** Every operation keeps the tables good and lets records only grow. */
  lemma ApplyKeepsDbInv(db: Database, op: Op)
    requires DbInv(db)
    ensures DbInv(Apply(db, op)) && Evolves(db, Apply(db, op))
  {
    if !WellFormed(op) || OpTime(op) > db.now {
      EvolvesReflexive(db);
      return;
    }
    match op
    case DoPlay(sid, user, expected, actionId, hit, at) =>
      EvolvesReflexive(db);
      if sid in db.recs {
        PlayKeepsDbInv(db, sid, user, expected, actionId, hit, at);
      }
    case DoForfeit(sid, at) =>
      EvolvesReflexive(db);
      if sid in db.recs {
        ForfeitKeepsDbInv(db, sid, at);
      }
    case DoDealer(sid, at) =>
      EvolvesReflexive(db);
      if sid in db.recs {
        DealerKeepsDbInv(db, sid, at);
      }
    case DoStart(n, roundNo) => CreateKeepsDbInv(db, n, roundNo);
    case DoVote(sid, user, agree, expected, actionId, effect) =>
      VoteKeepsDbInv(db, sid, user, agree, expected, actionId, effect);
    case DoDeadline(sid, n) => DeadlineKeepsDbInv(db, sid, n);
    case DoReset => ResetKeepsDbInv(db);
    case DoTick(now) => TickKeepsDbInv(db, now);
  }

  ghost const EMPTY: Database := Database(1, map[], {})
}
