/** The repository: reads hand out fresh objects, writes change one row. */
module Store {
  import opened Wrappers
  import opened Cards
  import opened Hands
  import opened Policies
  import opened Rounds
  import opened RoundInvariant
  import opened SessionStore
  import opened Entities

  /** The versioned update writes every column but the round number and the creation time. */
  function WithColumns(stored: SessionRow, row: SessionRow): SessionRow {
    row.(roundNo := stored.roundNo, createdAt := stored.createdAt)
  }

  class SessionTables {
    var now: Time
    var recs: map<Sid, Record>
    var used: set<Sid>

    function Db(): Database
      reads this
    {
      Database(now, recs, used)
    }

    constructor (db: Database)
      ensures Db() == db
    {
      now, recs, used := db.now, db.recs, db.used;
    }

    method GetSession(sid: Sid) returns (r: Result<GameSession, Error>)
      ensures if sid in recs then r.Ok? && fresh(r.value) && r.value.Row() == recs[sid].sess else r == Err(NotFound)
    {
      if sid !in recs {
        return Err(NotFound);
      }
      var sess := new GameSession.FromRow(recs[sid].sess);
      r := Ok(sess);
    }

    method GetPlayerState(sid: Sid, user: string) returns (r: Result<PlayerState, Error>)
      ensures if sid in recs && recs[sid].player.userId == user
              then r.Ok? && fresh(r.value) && r.value.Row() == recs[sid].player else r == Err(NotFound)
    {
      if sid !in recs || recs[sid].player.userId != user {
        return Err(NotFound);
      }
      var p := new PlayerState.FromRow(recs[sid].player);
      r := Ok(p);
    }

    method ListPlayerStates(sid: Sid) returns (list: seq<PlayerState>)
      ensures |list| == if sid in recs then 1 else 0
      ensures sid in recs ==> fresh(list[0]) && list[0].Row() == recs[sid].player
    {
      if sid !in recs {
        return [];
      }
      var p := new PlayerState.FromRow(recs[sid].player);
      list := [p];
    }

    method GetDealerState(sid: Sid) returns (r: Result<DealerState, Error>)
      ensures if sid in recs then r.Ok? && fresh(r.value) && r.value.Row() == recs[sid].dealer else r == Err(NotFound)
    {
      if sid !in recs {
        return Err(NotFound);
      }
      var d := new DealerState.FromRow(recs[sid].dealer);
      r := Ok(d);
    }

    method GetActionLog(sid: Sid, key: LogKey) returns (r: Result<Payload, Error>)
      ensures r == if sid in recs && key in recs[sid].logs then Ok(recs[sid].logs[key]) else Err(NotFound)
    {
      if sid !in recs || key !in recs[sid].logs {
        return Err(NotFound);
      }
      r := Ok(recs[sid].logs[key]);
    }

    /** The compare-and-swap: it writes only over the expected version. */
    method UpdateSessionIfVersion(sid: Sid, sess: GameSession, expected: int) returns (ok: bool)
      modifies this`recs
      ensures ok <==> sid in old(recs) && old(recs)[sid].sess.version == expected
      ensures recs == if ok
        then old(recs)[sid := old(recs)[sid].(sess := WithColumns(old(recs)[sid].sess, sess.Row()))] else old(recs)
    {
      if sid !in recs || recs[sid].sess.version != expected {
        return false;
      }
      var r := recs[sid];
      recs := recs[sid := r.(sess := WithColumns(r.sess, sess.Row()))];
      ok := true;
    }

    method UpdatePlayerState(sid: Sid, p: PlayerState)
      requires sid in recs
      modifies this`recs
      ensures recs == old(recs)[sid := old(recs)[sid].(player := p.Row())]
    {
      recs := recs[sid := recs[sid].(player := p.Row())];
    }

    method UpdateDealerState(sid: Sid, d: DealerState)
      requires sid in recs
      modifies this`recs
      ensures recs == old(recs)[sid := old(recs)[sid].(dealer := d.Row())]
    {
      recs := recs[sid := recs[sid].(dealer := d.Row())];
    }

    /** A session has at most one round log for each round number. */
    method CreateRoundLog(sid: Sid, log: RoundLog) returns (err: Option<Error>)
      requires sid in recs
      modifies this`recs
      ensures err == ErrorOf(AddRound(old(recs)[sid].rounds, log))
      ensures recs == if err.Some? then old(recs) else
        old(recs)[sid := old(recs)[sid].(rounds := AddRound(old(recs)[sid].rounds, log).value)]
    {
      var r := recs[sid];
      if exists i :: 0 <= i < |r.rounds| && r.rounds[i].roundNo == log.roundNo {
        return Some(UniqueViolation);
      }
      recs := recs[sid := r.(rounds := r.rounds + [log])];
      err := None;
    }

    /** A session has at most one action log for each actor and action id. */
    method CreateActionLog(sid: Sid, key: LogKey, payload: Payload) returns (err: Option<Error>)
      requires sid in recs
      modifies this`recs
      ensures err == if key in old(recs)[sid].logs then Some(UniqueViolation) else None
      ensures recs == if err.Some? then old(recs) else
        old(recs)[sid := old(recs)[sid].(logs := old(recs)[sid].logs[key := payload])]
    {
      var r := recs[sid];
      if key in r.logs {
        return Some(UniqueViolation);
      }
      recs := recs[sid := r.(logs := r.logs[key := payload])];
      err := None;
    }

    /** Inserts the three rows of a new session; identifiers and round numbers are unique. */
    method CreateSession(sid: Sid, sess: GameSession, p: PlayerState, d: DealerState) returns (err: Option<Error>)
      modifies this`recs, this`used
      ensures err == if sid in old(used) || RoundTaken(old(recs), sess.roundNo) || sess.roundNo <= 0
        then Some(UniqueViolation) else None
      ensures err.Some? ==> recs == old(recs) && used == old(used)
      ensures err.None? ==>
        used == old(used) + {sid} && recs == old(recs)[sid := FirstRecord(Rows(sess, p, d))]
    {
      if sid in used || sess.roundNo <= 0 || exists s :: s in recs && recs[s].sess.roundNo == sess.roundNo {
        return Some(UniqueViolation);
      }
      recs := recs[sid := FirstRecord(Rows(sess, p, d))];
      used := used + {sid};
      err := None;
    }
  }

  /** Looks an action id up: the same request again is a replay, another request is an error. */
  method EnsureActionIdempotency(tables: SessionTables, sid: Sid, key: LogKey, payload: Payload)
    returns (seen: Result<Checked, Error>)
    ensures seen == if sid in tables.recs then CheckIdempotency(tables.recs[sid].logs, key, payload) else Ok(Fresh)
  {
    var prev := tables.GetActionLog(sid, key);
    if prev.Ok? {
      if prev.value == payload {
        return Ok(Replay);
      }
      return Err(DuplicateAction);
    }
    seen := Ok(Fresh);
  }
}
