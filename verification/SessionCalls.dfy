/**
 HIT, STAND, the timeout and the dealer step as objects under way: each method is one step of the
 interleaved system, so between two of them the tables may change in any way.
 */
module SessionCalls {
  import opened Wrappers
  import opened Cards
  import opened Hands
  import opened Policies
  import opened Rounds
  import opened RoundInvariant
  import opened SessionStore
  import opened AtomicSessions
  import opened Interleaving
  import opened Entities
  import opened Store

  /** Whether a call goes on, has ended, or has ended with an error. */
  datatype Progress = GoOn | Done | Failed(error: Error)

  function Stop(err: Option<Error>): Progress {
    match err case None => GoOn case Some(e) => Failed(e)
  }

  // ---- the transactions ----

  /** The row keeps the columns that the versioned update leaves out. */
  predicate Updates(stored: SessionRow, row: SessionRow, expected: int) {
    stored.version == expected ==> row.roundNo == stored.roundNo && row.createdAt == stored.createdAt
  }

  predicate Answer(err: Option<Error>, r: Result<Record, Error>, recs: map<Sid, Record>, sid: Sid, recs': map<Sid, Record>)
  {
    match r
    case Ok(r') => err.None? && recs' == recs[sid := r']
    case Err(e) => err == Some(e)
  }

  method PlayTransaction(tables: SessionTables, sid: Sid, sess: GameSession, p: PlayerState, d: DealerState,
                         expected: int, key: LogKey, payload: Payload) returns (err: Option<Error>)
    requires sid in tables.recs ==> Updates(tables.recs[sid].sess, sess.Row(), expected)
    modifies tables`recs
    ensures if sid in old(tables.recs) then
              Answer(err, CommitPlay(old(tables.recs)[sid], Played(sess.Row(), p.Row()), d.Row(), expected, key, payload),
                     old(tables.recs), sid, tables.recs)
            else err == Some(VersionConflict)
  {
    var ok := tables.UpdateSessionIfVersion(sid, sess, expected);
    if !ok {
      return Some(VersionConflict);
    }
    tables.UpdatePlayerState(sid, p);
    tables.UpdateDealerState(sid, d);
    err := tables.CreateActionLog(sid, key, payload);
  }

  /** A round log and then an action log. */
  function WithLogs(r: Record, log: RoundLog, key: LogKey, payload: Payload): Result<Record, Error> {
    var rounds :- AddRound(r.rounds, log);
    if key in r.logs then Err(UniqueViolation) else Ok(r.(rounds := rounds, logs := r.logs[key := payload]))
  }

  method WriteLogs(tables: SessionTables, sid: Sid, log: RoundLog, key: LogKey, payload: Payload) returns (err: Option<Error>)
    requires sid in tables.recs
    modifies tables`recs
    ensures Answer(err, WithLogs(old(tables.recs)[sid], log, key, payload), old(tables.recs), sid, tables.recs)
  {
    err := tables.CreateRoundLog(sid, log);
    if err.None? {
      err := tables.CreateActionLog(sid, key, payload);
    }
  }

  method ForfeitTransaction(tables: SessionTables, sid: Sid, sess: GameSession, p: PlayerState, d: DealerState,
                            log: RoundLog, expected: int, key: LogKey, payload: Payload) returns (err: Option<Error>)
    requires sid in tables.recs ==> Updates(tables.recs[sid].sess, sess.Row(), expected)
    modifies tables`recs
    ensures if sid in old(tables.recs) then
              Answer(err, CommitForfeit(old(tables.recs)[sid], Settled(sess.Row(), p.Row(), d.Row(), log),
                                        expected, key, payload),
                     old(tables.recs), sid, tables.recs)
            else err == Some(VersionConflict)
  {
    var ok := tables.UpdateSessionIfVersion(sid, sess, expected);
    if !ok {
      return Some(VersionConflict);
    }
    tables.UpdatePlayerState(sid, p);
    tables.UpdateDealerState(sid, d);
    err := WriteLogs(tables, sid, log, key, payload);
  }

  method DealerTransaction(tables: SessionTables, sid: Sid, sess: GameSession, p: PlayerState, d: DealerState,
                           log: Option<RoundLog>, expected: int) returns (err: Option<Error>)
    requires sid in tables.recs ==> Updates(tables.recs[sid].sess, sess.Row(), expected)
    modifies tables`recs
    ensures if sid in old(tables.recs) then
              Answer(err, CommitDealer(old(tables.recs)[sid], DealerStep(sess.Row(), p.Row(), d.Row(), log), expected),
                     old(tables.recs), sid, tables.recs)
            else err == Some(VersionConflict)
  {
    var ok := tables.UpdateSessionIfVersion(sid, sess, expected);
    if !ok {
      return Some(VersionConflict);
    }
    tables.UpdateDealerState(sid, d);
    if log.Some? {
      tables.UpdatePlayerState(sid, p);
      err := tables.CreateRoundLog(sid, log.value);
      if err.Some? {
        return;
      }
    }
    err := None;
  }

  // ---- what each step answers ----

  function AfterReadSession(c: Call, db: Database): Progress {
    if c.sid !in db.recs then Failed(NotFound)
    else
      var s := db.recs[c.sid].sess;
      match c.kind
      case PlayCall(_, expected, _, _) => Stop(CheckVersion(s, expected))
      case ForfeitCall => if TurnIsDue(s, db.now) then GoOn else Done
      case DealerCall => if s.status == DealerTurn then GoOn else Done
  }

  function AfterReadPlayer(c: Call, db: Database): Progress {
    if c.sid in db.recs && OwnPlayer(c.kind, db.recs[c.sid].player) then GoOn
    else Failed(if c.kind.PlayCall? then ForbiddenAction else NotFound)
  }

  function AfterReadDealer(c: Call, db: Database): Progress {
    if c.sid in db.recs then GoOn else Failed(NotFound)
  }

  /** A repeated request ends the call without an error, another request under its id is refused. */
  function AfterCheckLog(c: Call, db: Database): Progress
    requires c.kind.PlayCall? && c.sess.Some? && c.player.Some?
  {
    var err := CanHitOrStand(c.sess.value, c.player.value, c.kind.user);
    if err.Some? then Failed(err.value)
    else if c.sid !in db.recs then GoOn
    else match CheckIdempotency(db.recs[c.sid].logs, PlayKey(c.kind), PlayPayload(c.kind.hit, c.kind.expected))
      case Ok(Fresh) => GoOn
      case Ok(Replay) => Done
      case Err(e) => Failed(e)
  }

  function AnswerOf(a: Result<Record, Error>): Progress {
    match a case Ok(_) => Done case Err(e) => Failed(e)
  }

  /** A call that ends while it reads, with nothing in between, answers what its operation answers alone. */
  function WhileReading(c: Call, db: Database): Progress {
    var a := AfterReadSession(c, db);
    if a != GoOn then a
    else
      var b := AfterReadPlayer(c, db);
      if b != GoOn then b
      else
        var d := AfterReadDealer(c, db);
        if d != GoOn || !c.kind.PlayCall? then d
        else AfterCheckLog(Holding(c, db), db)
  }

  /** The call with everything read at one moment. */
  function Holding(c: Call, db: Database): Call {
    if c.sid !in db.recs then c
    else
      var r := db.recs[c.sid];
      Call(c.kind, c.sid, Some(r.sess), Some(r.player), Some(r.dealer), c.kind.PlayCall?, Some(db.now))
  }

  /** What reading everything at one moment and committing comes to on a record. */
  ghost predicate ReadsAndCommitsAlone(c: Call, db: Database)
    requires c.sid in db.recs
  {
    var r, out, a := db.recs[c.sid], WhileReading(c, db), Alone(c, db.recs[c.sid], db.now);
    && (out == GoOn ==> a == CommitRecord(Holding(c, db), r))
    && (out == GoOn && a.Ok? ==> a.value.sess.version == r.sess.version + 1)
    && (out != GoOn ==> out == AnswerOf(a))
    && (out == Done ==> a == Ok(r))
  }

  function AnswerOfChecks(a: Result<Checked, Error>): Progress {
    match a
    case Ok(Fresh) => GoOn
    case Ok(Replay) => Done
    case Err(e) => Failed(e)
  }

  lemma PlayReadsAreChecks(c: Call, db: Database)
    requires c.sid in db.recs && c.kind.PlayCall?
    ensures WhileReading(c, db)
            == AnswerOfChecks(PlayChecks(db.recs[c.sid], c.kind.user, c.kind.expected, c.kind.actionId, c.kind.hit))
  {
  }

  lemma PlayCommitsWrites(c: Call, db: Database)
    requires c.sid in db.recs && c.kind.PlayCall?
    ensures CommitRecord(Holding(c, db), db.recs[c.sid])
            == PlayWrites(db.recs[c.sid], c.kind.user, c.kind.expected, c.kind.actionId, c.kind.hit, db.now)
  {
  }

  lemma PlayMovesVersion(r: Record, user: string, expected: int, actionId: string, hit: bool, now: Time)
    requires PlayWrites(r, user, expected, actionId, hit, now).Ok?
    ensures PlayWrites(r, user, expected, actionId, hit, now).value.sess.version == r.sess.version + 1
  {
  }

  lemma PlayReadsAndCommits(c: Call, db: Database)
    requires c.sid in db.recs && c.kind.PlayCall?
    ensures ReadsAndCommitsAlone(c, db)
  {
    var r, kind := db.recs[c.sid], c.kind;
    PlayReadsAreChecks(c, db);
    PlayCommitsWrites(c, db);
    if PlayWrites(r, kind.user, kind.expected, kind.actionId, kind.hit, db.now).Ok? {
      PlayMovesVersion(r, kind.user, kind.expected, kind.actionId, kind.hit, db.now);
    }
  }

  lemma ForfeitReadsAndCommits(c: Call, db: Database)
    requires c.sid in db.recs && c.kind.ForfeitCall?
    ensures ReadsAndCommitsAlone(c, db)
  {
  }

  lemma DealerReadsAndCommits(c: Call, db: Database)
    requires c.sid in db.recs && c.kind.DealerCall?
    ensures ReadsAndCommitsAlone(c, db)
  {
  }

  /** Reading and committing with nothing in between is the operation run alone, errors included. */
  lemma ReadThenCommitIsAlone(c: Call, db: Database)
    requires c.sid in db.recs
    ensures ReadsAndCommitsAlone(c, db)
  {
    match c.kind
    case PlayCall(_, _, _, _) => PlayReadsAndCommits(c, db);
    case ForfeitCall => ForfeitReadsAndCommits(c, db);
    case DealerCall => DealerReadsAndCommits(c, db);
  }

  /** The part of what is known of a call in any interleaving (CallInv) that its transaction relies on. */
  ghost predicate Fits(c: Call, db: Database)
    requires Ready(c)
  {
    Passes(c.kind, c.sess.value, c.at.value) && (c.sid in db.recs ==> Current(c, db.recs[c.sid]))
  }

  lemma EveryCallFits(s: State, cid: nat)
    requires Inv(s) && cid in s.calls && Ready(s.calls[cid])
    ensures Fits(s.calls[cid], s.db)
  {
    assert CallInv(s.calls[cid], s.db);
  }

  // ---- the calls ----

  class RunningCall {
    const kind: Kind
    const sid: Sid
    var sess: GameSession?
    var player: PlayerState?
    var dealer: DealerState?
    var cleared: bool
    var at: Option<Time>

    function View(): Call
      reads this, sess, player, dealer
    {
      Call(kind, sid,
           if sess == null then None else Some(sess.Row()),
           if player == null then None else Some(player.Row()),
           if dealer == null then None else Some(dealer.Row()),
           cleared, at)
    }

    constructor (kind: Kind, sid: Sid)
      ensures View() == Call(kind, sid, None, None, None, false, None)
      ensures this.kind == kind && this.sid == sid
    {
      this.kind, this.sid := kind, sid;
      sess, player, dealer, cleared, at := null, null, null, false, None;
    }

    /** Reads the session and makes the check that needs nothing else. */
    method ReadSession(tables: SessionTables) returns (out: Progress)
      requires sess == null
      modifies this`sess
      ensures out == AfterReadSession(old(View()), tables.Db())
      ensures out == GoOn <==> NextReadSession(old(View()), tables.Db()).Some?
      ensures out == GoOn ==> Some(View()) == NextReadSession(old(View()), tables.Db()) && fresh(sess)
    {
      var read := tables.GetSession(sid);
      if read.Err? {
        return Failed(read.error);
      }
      sess := read.value;
      match kind {
        case PlayCall(_, expected, _, _) =>
          var err := sess.CheckVersion(expected);
          out := Stop(err);
        case ForfeitCall =>
          out := if sess.status != PlayerTurn || sess.turnDeadline == None || sess.turnDeadline.value > tables.now
            then Done else GoOn;
        case DealerCall =>
          out := if sess.status != DealerTurn then Done else GoOn;
      }
    }

    method ReadPlayer(tables: SessionTables) returns (out: Progress)
      requires sess != null && player == null
      modifies this`player
      ensures out == AfterReadPlayer(old(View()), tables.Db())
      ensures out == GoOn <==> NextReadPlayer(old(View()), tables.Db()).Some?
      ensures out == GoOn ==> Some(View()) == NextReadPlayer(old(View()), tables.Db()) && fresh(player)
    {
      if kind.PlayCall? {
        var read := tables.GetPlayerState(sid, kind.user);
        if read.Err? {
          return Failed(ForbiddenAction);
        }
        player := read.value;
      } else {
        var list := tables.ListPlayerStates(sid);
        if |list| == 0 {
          return Failed(NotFound);
        }
        player := list[0];
      }
      out := GoOn;
    }

    method ReadDealer(tables: SessionTables) returns (out: Progress)
      requires sess != null && player != null && dealer == null
      modifies this`dealer
      ensures out == AfterReadDealer(old(View()), tables.Db())
      ensures out == GoOn <==> NextReadDealer(old(View()), tables.Db()).Some?
      ensures out == GoOn ==> Some(View()) == NextReadDealer(old(View()), tables.Db()) && fresh(dealer)
    {
      var read := tables.GetDealerState(sid);
      if read.Err? {
        return Failed(read.error);
      }
      dealer := read.value;
      out := GoOn;
    }

    /** The rules on what was read, then the action log as it is now. */
    method CheckLog(tables: SessionTables) returns (out: Progress)
      requires kind.PlayCall? && sess != null && player != null && dealer != null
      modifies this`cleared
      ensures out == AfterCheckLog(old(View()), tables.Db())
      ensures out == GoOn <==> NextCheckLog(old(View()), tables.Db()).Some?
      ensures out == GoOn ==> Some(View()) == NextCheckLog(old(View()), tables.Db())
    {
      var err := AssertCanHitOrStand(player, sess, kind.user);
      if err.Some? {
        return Failed(err.value);
      }
      var seen := EnsureActionIdempotency(tables, sid, PlayKey(kind), PlayPayload(kind.hit, kind.expected));
      if seen.Err? {
        return Failed(seen.error);
      }
      if seen.value == Replay {
        return Done;
      }
      cleared := true;
      out := GoOn;
    }

    method ReadClock(tables: SessionTables)
      requires HasRead(View()) && at == None
      modifies this`at
      ensures Some(View()) == NextReadClock(old(View()), tables.Db())
    {
      at := Some(tables.now);
    }

    /** Computes on its own objects, then writes everything or nothing. */
    method Commit(tables: SessionTables) returns (out: Progress)
      requires Ready(View())
      requires Fits(View(), tables.Db())
      modifies sess, player, dealer, tables`recs
      ensures if sid in old(tables.recs) then
                var a := CommitRecord(old(View()), old(tables.recs)[sid]);
                out == AnswerOf(a) && tables.recs == if a.Ok? then old(tables.recs)[sid := a.value] else old(tables.recs)
              else out.Failed? && tables.recs == old(tables.recs)
    {
      var saved := tables.recs;
      var err: Option<Error>;
      match kind {
        case PlayCall(_, _, _, _) => err := CommitPlayCall(tables);
        case ForfeitCall => err := CommitForfeitCall(tables);
        case DealerCall => err := CommitDealerCall(tables);
      }
      if err.Some? {
        tables.recs := saved;
        return Failed(err.value);
      }
      out := Done;
    }

    method CommitPlayCall(tables: SessionTables) returns (err: Option<Error>)
      requires Ready(View()) && kind.PlayCall?
      requires Fits(View(), tables.Db())
      modifies sess, player, tables`recs
      ensures if sid in old(tables.recs) then
                Answer(err, CommitRecord(old(View()), old(tables.recs)[sid]), old(tables.recs), sid, tables.recs)
              else err.Some?
    {
      err := PlayTurn(sess, player, kind.hit, at.value);
      if err.Some? {
        return;
      }
      err := PlayTransaction(tables, sid, sess, player, dealer, kind.expected, PlayKey(kind),
                             PlayPayload(kind.hit, kind.expected));
    }

    method CommitForfeitCall(tables: SessionTables) returns (err: Option<Error>)
      requires Ready(View()) && kind.ForfeitCall?
      requires Fits(View(), tables.Db())
      modifies sess, player, dealer, tables`recs
      ensures if sid in old(tables.recs) then
                Answer(err, CommitRecord(old(View()), old(tables.recs)[sid]), old(tables.recs), sid, tables.recs)
              else err.Some?
    {
      var read := sess.version;
      var log := ForfeitTurn(sess, player, dealer, at.value);
      if log.Err? {
        return Some(log.error);
      }
      err := ForfeitTransaction(tables, sid, sess, player, dealer, log.value, read,
                                ForfeitKey(sid, player.Row(), sess.version), ForfeitAt(sess.version));
    }

    method CommitDealerCall(tables: SessionTables) returns (err: Option<Error>)
      requires Ready(View()) && kind.DealerCall?
      requires Fits(View(), tables.Db())
      modifies sess, player, dealer, tables`recs
      ensures if sid in old(tables.recs) then
                Answer(err, CommitRecord(old(View()), old(tables.recs)[sid]), old(tables.recs), sid, tables.recs)
              else err.Some?
    {
      var read := sess.version;
      var log := StepDealer(sess, player, dealer, at.value);
      if log.Err? {
        return Some(log.error);
      }
      err := DealerTransaction(tables, sid, sess, player, dealer, log.value, read);
    }

    /** Everything a call does before it commits, with nothing in between. */
    method Gather(tables: SessionTables) returns (out: Progress)
      requires View() == Call(kind, sid, None, None, None, false, None)
      modifies this
      ensures out == WhileReading(old(View()), tables.Db())
      ensures out == GoOn ==> sid in tables.recs && View() == Holding(old(View()), tables.Db())
      ensures out == GoOn ==> fresh(sess) && fresh(player) && fresh(dealer)
    {
      out := ReadSession(tables);
      if out != GoOn { return; }
      out := ReadPlayer(tables);
      if out != GoOn { return; }
      out := ReadDealer(tables);
      if out != GoOn { return; }
      if kind.PlayCall? {
        out := CheckLog(tables);
        if out != GoOn { return; }
      }
      ReadClock(tables);
    }
  }

  // ---- whole calls ----

  /** A call that nothing interrupts does what its operation does alone, errors included. */
  method RunAlone(tables: SessionTables, kind: Kind, sid: Sid) returns (out: Progress, wrote: bool)
    modifies tables`recs
    ensures if sid in old(tables.recs) then
              var r, a := old(tables.recs)[sid], Alone(Call(kind, sid, None, None, None, false, None), old(tables.recs)[sid], tables.now);
              && out == AnswerOf(a)
              && tables.recs == (if a.Ok? then old(tables.recs)[sid := a.value] else old(tables.recs))
              && (a.Ok? ==> (wrote <==> a.value != r))
            else out == Failed(NotFound) && tables.recs == old(tables.recs)
  {
    var c := new RunningCall(kind, sid);
    ghost var start := c.View();
    if sid in tables.recs {
      ReadThenCommitIsAlone(start, tables.Db());
    }
    out := c.Gather(tables);
    wrote := false;
    if out == GoOn {
      out := c.Commit(tables);
      wrote := out == Done;
    }
  }
}
