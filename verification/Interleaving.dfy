/**
 Many servers at once. HIT, STAND, the timeout and the dealer step read the session, the player,
 the dealer and the clock at different moments and only then commit under the version they have read. Any
 number of such calls may be under way, and between any two steps anything else may happen.
 */
module Interleaving {
  import opened Wrappers
  import opened Cards
  import opened Hands
  import opened Policies
  import opened Rounds
  import opened RoundInvariant
  import opened SessionStore
  import opened RoundSteps
  import opened AtomicSessions

  datatype Kind =
    | PlayCall(user: string, expected: int, actionId: string, hit: bool)
    | ForfeitCall
    | DealerCall

  /** A call under way: what it has read so far, possibly at different times. */
  datatype Call = Call(
    kind: Kind, sid: Sid,
    sess: Option<SessionRow>, player: Option<PlayerRow>, dealer: Option<DealerRow>, cleared: bool, at: Option<Time>)

  datatype State = State(db: Database, calls: map<nat, Call>)

  datatype Event =
    | Begin(cid: nat, kind: Kind, sid: Sid)
    | ReadSession(cid: nat)
    | ReadPlayer(cid: nat)
    | ReadDealer(cid: nat)
    | CheckLog(cid: nat)
    | ReadClock(cid: nat)
    | Commit(cid: nat)
    | Drop(cid: nat)
    | Whole(op: Op)

  function End(s: State, cid: nat): State { s.(calls := s.calls - {cid}) }

  function Continue(s: State, cid: nat, c: Call): State { s.(calls := s.calls[cid := c]) }

  /** The check a call makes on the session right after reading it. */
  predicate Passes(kind: Kind, sess: SessionRow, now: Time) {
    match kind
    case PlayCall(_, expected, _, _) => CheckVersion(sess, expected).None?
    case ForfeitCall => TurnIsDue(sess, now)
    case DealerCall => sess.status == DealerTurn
  }

  predicate OwnPlayer(kind: Kind, p: PlayerRow) {
    kind.PlayCall? ==> PlayerOf(p, kind.user).Ok?
  }

  function PlayKey(kind: Kind): LogKey
    requires kind.PlayCall?
  {
    LogKey(kind.user, kind.actionId)
  }

  /** What a call knows after reading its session; None means that the call has ended. */
  function NextReadSession(c: Call, db: Database): Option<Call> {
    if c.sid in db.recs && Passes(c.kind, db.recs[c.sid].sess, db.now)
    then Some(c.(sess := Some(db.recs[c.sid].sess))) else None
  }

  function NextReadPlayer(c: Call, db: Database): Option<Call> {
    if c.sid in db.recs && OwnPlayer(c.kind, db.recs[c.sid].player)
    then Some(c.(player := Some(db.recs[c.sid].player))) else None
  }

  function NextReadDealer(c: Call, db: Database): Option<Call> {
    if c.sid in db.recs then Some(c.(dealer := Some(db.recs[c.sid].dealer))) else None
  }

  /** The rules and the action log; a known action id ends the call. */
  function NextCheckLog(c: Call, db: Database): Option<Call>
    requires c.kind.PlayCall? && c.sess.Some? && c.player.Some?
  {
    var known := c.sid in db.recs && PlayKey(c.kind) in db.recs[c.sid].logs;
    if CanHitOrStand(c.sess.value, c.player.value, c.kind.user).None? && !known
    then Some(c.(cleared := true)) else None
  }

  /** The time that the deadlines and the log of the call will show. */
  function NextReadClock(c: Call, db: Database): Option<Call> { Some(c.(at := Some(db.now))) }

  function Resume(s: State, cid: nat, next: Option<Call>): State {
    match next case Some(c) => Continue(s, cid, c) case None => End(s, cid)
  }

  predicate HasRead(c: Call) {
    c.sess.Some? && c.player.Some? && c.dealer.Some? && (c.kind.PlayCall? ==> c.cleared)
  }

  predicate Ready(c: Call) { HasRead(c) && c.at.Some? }

  /** The transaction of a call: new rows from what was read, written if the version still matches. */
  function CommitRecord(c: Call, r: Record): Result<Record, Error> {
    if !Ready(c) then Err(InvalidInput)
    else
    var s, p, d, now := c.sess.value, c.player.value, c.dealer.value, c.at.value;
    match c.kind
    case PlayCall(user, expected, actionId, hit) =>
      var rows :- PlayRows(s, p, hit, now);
      CommitPlay(r, rows, d, expected, LogKey(user, actionId), PlayPayload(hit, expected))
    case ForfeitCall =>
      var rows :- ForfeitRows(Table3(s, p, d), now);
      var v := rows.sess.version;
      CommitForfeit(r, rows, s.version, ForfeitKey(c.sid, rows.player, v), ForfeitAt(v))
    case DealerCall =>
      var rows :- DealerRows(Table3(s, p, d), now);
      CommitDealer(r, rows, s.version)
  }

  /** How a call's transaction changes its record; the steps of the system work for any such function. */
  type Transaction = (Call, Record) -> Result<Record, Error>

  predicate SucceedsWith(s: State, cid: nat, tx: Transaction) {
    && cid in s.calls && Ready(s.calls[cid]) && s.calls[cid].sid in s.db.recs
    && tx(s.calls[cid], s.db.recs[s.calls[cid].sid]).Ok?
  }

  function AfterCommit(s: State, cid: nat, tx: Transaction): State {
    if SucceedsWith(s, cid, tx) then
      var c := s.calls[cid];
      End(State(Put(s.db, c.sid, tx(c, s.db.recs[c.sid]).value), s.calls), cid)
    else End(s, cid)
  }

  ghost function DoWith(s: State, e: Event, tx: Transaction, apply: (Database, Op) -> Database): State
  {
    match e
    case Begin(cid, kind, sid) =>
      if cid in s.calls then s else Continue(s, cid, Call(kind, sid, None, None, None, false, None))
    case ReadSession(cid) =>
      if cid in s.calls && s.calls[cid].sess.None? then Resume(s, cid, NextReadSession(s.calls[cid], s.db)) else s
    case ReadPlayer(cid) =>
      if cid in s.calls && s.calls[cid].sess.Some? && s.calls[cid].player.None?
      then Resume(s, cid, NextReadPlayer(s.calls[cid], s.db)) else s
    case ReadDealer(cid) =>
      if cid in s.calls && s.calls[cid].player.Some? && s.calls[cid].dealer.None?
      then Resume(s, cid, NextReadDealer(s.calls[cid], s.db)) else s
    case CheckLog(cid) =>
      if cid in s.calls && s.calls[cid].kind.PlayCall? && s.calls[cid].sess.Some?
         && s.calls[cid].player.Some? && s.calls[cid].dealer.Some? && !s.calls[cid].cleared
      then Resume(s, cid, NextCheckLog(s.calls[cid], s.db)) else s
    case ReadClock(cid) =>
      if cid in s.calls && HasRead(s.calls[cid]) && s.calls[cid].at.None?
      then Resume(s, cid, NextReadClock(s.calls[cid], s.db)) else s
    case Commit(cid) =>
      if cid in s.calls && Ready(s.calls[cid]) then AfterCommit(s, cid, tx) else s
    case Drop(cid) => End(s, cid)
    case Whole(op) => State(apply(s.db, op), s.calls)
  }

  /** One step of the whole system; an event that is not enabled changes nothing. */
  ghost function Do(s: State, e: Event): State { DoWith(s, e, CommitRecord, Apply) }

  // ---- what is known about a call that has read at different times ----

  /** As long as the version has not moved, everything the call has read is still what is stored. */
  ghost predicate Current(c: Call, r: Record)
    requires c.sess.Some?
  {
    && c.sess.value.version <= r.sess.version
    && (c.sess.value.version == r.sess.version ==>
          && c.sess.value == r.sess
          && (c.player.Some? ==> c.player.value == r.player)
          && (c.dealer.Some? ==> c.dealer.value == r.dealer))
  }

  ghost predicate CallInv(c: Call, db: Database) {
    && (c.player.Some? ==> c.sess.Some? && OwnPlayer(c.kind, c.player.value))
    && (c.dealer.Some? ==> c.player.Some?)
    && (c.cleared ==> c.kind.PlayCall? && c.dealer.Some?
                      && CanHitOrStand(c.sess.value, c.player.value, c.kind.user).None?)
    && (c.at.Some? ==> HasRead(c) && 0 < c.at.value <= db.now && Passes(c.kind, c.sess.value, c.at.value))
    && (c.sess.Some? ==>
          && c.sid in db.used
          && Passes(c.kind, c.sess.value, db.now)
          && DrawCard(c.sess.value).Ok?
          && (c.sid in db.recs ==> Current(c, db.recs[c.sid])))
  }

  ghost predicate CallsInv(s: State) {
    forall cid :: cid in s.calls ==> CallInv(s.calls[cid], s.db)
  }

  ghost predicate Inv(s: State) { DbInv(s.db) && CallsInv(s) }

  /** Whatever the others do, what a call knows stays true. */
  lemma CallInvStable(c: Call, db: Database, db': Database)
    requires CallInv(c, db) && Evolves(db, db')
    ensures CallInv(c, db')
  {
  }

  lemma CallsStable(s: State, db': Database)
    requires CallsInv(s) && Evolves(s.db, db')
    ensures CallsInv(State(db', s.calls))
  {
    forall cid | cid in s.calls ensures CallInv(s.calls[cid], db') {
      CallInvStable(s.calls[cid], s.db, db');
    }
  }

  /** The operation a call stands for. */
  function OpOf(c: Call): Op {
    var at := if c.at.Some? then c.at.value else 0;
    match c.kind
    case PlayCall(user, expected, actionId, hit) => DoPlay(c.sid, user, expected, actionId, hit, at)
    case ForfeitCall => DoForfeit(c.sid, at)
    case DealerCall => DoDealer(c.sid, at)
  }

  /** What the operation of a call makes of a record when it runs alone. */
  function Alone(c: Call, r: Record, now: Time): Result<Record, Error> {
    match c.kind
    case PlayCall(user, expected, actionId, hit) => PlayRecord(r, user, expected, actionId, hit, now)
    case ForfeitCall => ForfeitRecord(c.sid, r, now)
    case DealerCall => DealerRecord(r, now)
  }

  /**
   A commit that succeeds has read exactly the state it replaces, so it writes what the same
   operation, run alone on that state, would have written.
   */
  lemma CommitIsAtomic(c: Call, db: Database)
    requires CallInv(c, db) && Ready(c) && c.sid in db.recs
    requires CommitRecord(c, db.recs[c.sid]).Ok?
    ensures c.sess.value == db.recs[c.sid].sess && c.player.value == db.recs[c.sid].player
    ensures c.dealer.value == db.recs[c.sid].dealer
    ensures Alone(c, db.recs[c.sid], c.at.value) == CommitRecord(c, db.recs[c.sid])
  {
  }

  lemma CommitPutsAlone(c: Call, db: Database)
    requires CallInv(c, db) && Ready(c) && c.sid in db.recs
    requires CommitRecord(c, db.recs[c.sid]).Ok?
    ensures Put(db, c.sid, CommitRecord(c, db.recs[c.sid]).value) == Apply(db, OpOf(c))
  {
    CommitIsAtomic(c, db);
  }

  /** A successful commit moves the version of its session by exactly one. */
  lemma CommitMovesVersionByOne(c: Call, db: Database)
    requires DbInv(db) && CallInv(c, db) && Ready(c) && c.sid in db.recs
    requires CommitRecord(c, db.recs[c.sid]).Ok?
    ensures CommitRecord(c, db.recs[c.sid]).value.sess.version == db.recs[c.sid].sess.version + 1
  {
    var r := db.recs[c.sid];
    CommitIsAtomic(c, db);
    match c.kind
    case PlayCall(user, expected, actionId, hit) => PlayRecordAnswers(r, user, expected, actionId, hit, c.at.value);
    case ForfeitCall => ForfeitRecordAnswers(c.sid, r, c.at.value);
    case DealerCall => DealerRecordAnswers(r, c.at.value);
  }

  lemma StoredSessionCanDraw(db: Database, sid: Sid)
    requires DbInv(db) && sid in db.recs
    ensures sid in db.used && DrawCard(db.recs[sid].sess).Ok?
  {
    RecordOf(db, sid);
    DrawSucceeds(db.recs[sid].Table());
  }

  // ---- one step of the whole system ----

  /** What an atomic server has to do for optimistic calls to be safe on it. */
  ghost predicate Serves(tx: Transaction, apply: (Database, Op) -> Database, good: Database -> bool) {
    && (forall db, op {:trigger apply(db, op)} :: good(db) ==> good(apply(db, op)) && Evolves(db, apply(db, op)))
    && (forall db: Database {:trigger good(db)} :: good(db) ==> db.now > 0)
    && (forall db, sid {:trigger good(db), sid in db.recs} ::
          good(db) && sid in db.recs ==> sid in db.used && DrawCard(db.recs[sid].sess).Ok?)
    && (forall c: Call, db: Database {:trigger CallInv(c, db), apply(db, OpOf(c))} ::
          CallInv(c, db) && Ready(c) && c.sid in db.recs && tx(c, db.recs[c.sid]).Ok?
          ==> Put(db, c.sid, tx(c, db.recs[c.sid]).value) == apply(db, OpOf(c)))
  }

  lemma ThisServerServes()
    ensures Serves(CommitRecord, Apply, DbInv)
  {
    forall db, op | DbInv(db) ensures DbInv(Apply(db, op)) && Evolves(db, Apply(db, op)) {
      ApplyKeepsDbInv(db, op);
    }
    forall db: Database, sid | DbInv(db) && sid in db.recs
      ensures sid in db.used && DrawCard(db.recs[sid].sess).Ok?
    {
      StoredSessionCanDraw(db, sid);
    }
    forall c: Call, db: Database | CallInv(c, db) && Ready(c) && c.sid in db.recs
                                   && CommitRecord(c, db.recs[c.sid]).Ok?
      ensures Put(db, c.sid, CommitRecord(c, db.recs[c.sid]).value) == Apply(db, OpOf(c))
    {
      CommitPutsAlone(c, db);
    }
  }

  /** The operations a step does to the tables: at most one. */
  ghost function EffectWith(s: State, e: Event, tx: Transaction): seq<Op> {
    match e
    case Whole(op) => [op]
    case Commit(cid) => if SucceedsWith(s, cid, tx) then [OpOf(s.calls[cid])] else []
    case _ => []
  }

  ghost function Effect(s: State, e: Event): seq<Op> { EffectWith(s, e, CommitRecord) }

  ghost function ApplyEffect(db: Database, ops: seq<Op>, apply: (Database, Op) -> Database): Database {
    if ops == [] then db else apply(ApplyEffect(db, ops[..|ops| - 1], apply), ops[|ops| - 1])
  }

  lemma ApplyOne(db: Database, op: Op, apply: (Database, Op) -> Database)
    ensures ApplyEffect(db, [op], apply) == apply(db, op)
  {
    assert [op][..0] == [];
  }

  lemma CommitStep(s: State, cid: nat, tx: Transaction, apply: (Database, Op) -> Database, good: Database -> bool)
    requires Serves(tx, apply, good) && good(s.db) && CallsInv(s) && SucceedsWith(s, cid, tx)
    ensures var s', db' := AfterCommit(s, cid, tx), apply(s.db, OpOf(s.calls[cid]));
            s'.db == db' && good(db') && Evolves(s.db, db') && CallsInv(s')
  {
    var c := s.calls[cid];
    assert CallInv(c, s.db);
    var db' := apply(s.db, OpOf(c));
    CallsStable(s, db');
  }

  /** Steps that only read keep what is known about the calls. */
  lemma ReadStep(s: State, e: Event, tx: Transaction, apply: (Database, Op) -> Database)
    requires CallsInv(s) && s.db.now > 0 && !e.Commit? && !e.Whole?
    requires forall sid :: sid in s.db.recs ==> sid in s.db.used && DrawCard(s.db.recs[sid].sess).Ok?
    ensures DoWith(s, e, tx, apply).db == s.db && CallsInv(DoWith(s, e, tx, apply))
  {
  }

  /** Every step keeps the invariant, and what it does to the tables is at most one atomic operation. */
  lemma AnyStep(s: State, e: Event, tx: Transaction, apply: (Database, Op) -> Database, good: Database -> bool)
    requires Serves(tx, apply, good) && good(s.db) && CallsInv(s)
    ensures var s' := DoWith(s, e, tx, apply);
            && good(s'.db) && CallsInv(s') && Evolves(s.db, s'.db)
            && s'.db == ApplyEffect(s.db, EffectWith(s, e, tx), apply)
  {
    if e.Whole? {
      ApplyOne(s.db, e.op, apply);
      CallsStable(s, apply(s.db, e.op));
    } else if e.Commit? {
      if SucceedsWith(s, e.cid, tx) {
        CommitStep(s, e.cid, tx, apply, good);
        ApplyOne(s.db, OpOf(s.calls[e.cid]), apply);
      }
      EvolvesReflexive(s.db);
    } else {
      ReadStep(s, e, tx, apply);
      EvolvesReflexive(s.db);
    }
  }

  lemma StepKeepsInv(s: State, e: Event)
    requires Inv(s)
    ensures Inv(Do(s, e)) && Evolves(s.db, Do(s, e).db)
    ensures Do(s, e).db == ApplyEffect(s.db, Effect(s, e), Apply)
  {
    ThisServerServes();
    AnyStep(s, e, CommitRecord, Apply, DbInv);
  }
}
