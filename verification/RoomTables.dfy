/**
 What holds in a room over every sequence of whole calls, without any assumption about the clock:
 each call is one operation on the tables, the rounds are numbered without gap, and the status of
 the room is the right one.
 */
module RoomTables {
  import opened Wrappers
  import opened Cards
  import opened Shuffle
  import opened Hands
  import opened Policies
  import opened Rounds
  import opened RoundInvariant
  import opened SessionStore
  import opened RoundSteps
  import opened AtomicSessions
  import opened Rooms
  import opened RoomInvariant
  import opened RoomSteps
  import opened CallHalves

  // ---- one call, one operation ----

  lemma PutSame(db: Database, sid: Sid)
    requires sid in db.recs
    ensures Put(db, sid, db.recs[sid]) == db
  {
    assert db.recs[sid := db.recs[sid]] == db.recs;
  }

  lemma PlayIsOneOperation(w: World, user: string, expected: int, actionId: string, hit: bool)
    requires w.db.now > 0 && PlayerTurnCall(w, user, expected, actionId, hit).Ok?
    ensures w.room.current.Some? && w.room.current.value in w.db.recs
    ensures PlayerTurnCall(w, user, expected, actionId, hit).value.db
            == Apply(w.db, DoPlay(w.room.current.value, user, expected, actionId, hit, w.db.now))
  {
    PutSame(w.db, w.room.current.value);
  }

  lemma StandIsOneOperation(w: World, s: Sid, heuristic: bool) returns (op: Op)
    requires w.db.now > 0 && PlayerStandCall(w, s, heuristic).Ok?
    ensures PlayerStandCall(w, s, heuristic).value.db == Apply(w.db, op)
  {
    var r := w.db.recs[s];
    if TurnIsDue(r.sess, w.db.now) && AutoHits(r, heuristic) {
      PlayIsOneOperation(w, r.player.userId, r.sess.version, AutoHitId(s, r.sess.version), true);
      op := DoPlay(w.room.current.value, r.player.userId, r.sess.version, AutoHitId(s, r.sess.version), true, w.db.now);
    } else {
      PutSame(w.db, s);
      op := DoForfeit(s, w.db.now);
    }
  }

  lemma FreshVoteIsVoteSession(w: World, user: string, agree: bool, expected: int, actionId: string,
                               latest: Option<Sid>, sid: Sid, deck: seq<StoredCard>)
    requires IsLatest(w.db.recs, latest) && latest.Some?
    requires VoteFresh(w, user, agree, expected, actionId, latest.value)
    requires VoteRematch(w, user, agree, expected, actionId, latest, sid, deck).Ok?
    ensures var effect := EffectOfVote(w, latest.value, user, agree, NewSession(sid, Eligible(w)[0], deck));
            VoteSession(w.db, latest.value, user, agree, expected, actionId, effect)
            == Ok(VoteRematch(w, user, agree, expected, actionId, latest, sid, deck).value.db)
  {
  }

  lemma VoteIsOneOperation(w: World, user: string, agree: bool, expected: int, actionId: string,
                           latest: Option<Sid>, sid: Sid, deck: seq<StoredCard>) returns (op: Op)
    requires w.db.now > 0 && IsLatest(w.db.recs, latest) && GoodDeck(deck)
    requires VoteRematch(w, user, agree, expected, actionId, latest, sid, deck).Ok?
    ensures VoteRematch(w, user, agree, expected, actionId, latest, sid, deck).value.db == Apply(w.db, op)
  {
    VoteOkIsFreshOrReplay(w, user, agree, expected, actionId, latest, sid, deck);
    if VoteFresh(w, user, agree, expected, actionId, latest.value) {
      FreshVoteIsVoteSession(w, user, agree, expected, actionId, latest, sid, deck);
      op := DoVote(latest.value, user, agree, expected, actionId,
                   EffectOfVote(w, latest.value, user, agree, NewSession(sid, Eligible(w)[0], deck)));
    } else {
      op := DoTick(w.db.now);
    }
  }

  lemma DeadlineIsOneOperation(w: World, s: Sid, sid: Sid, deck: seq<StoredCard>) returns (op: Op)
    requires w.db.now > 0 && GoodDeck(deck) && ProcessRematchDeadline(w, s, sid, deck).Ok?
    ensures ProcessRematchDeadline(w, s, sid, deck).value.db == Apply(w.db, op)
  {
    op := DoTick(w.db.now);
    if RematchIsDue(w.db.recs[s].sess, w.db.now) && w.room.current == Some(s) && |Eligible(w)| > 0
       && RematchUnanimous(Eligible(w), AgreeMapAtDeadline(Eligible(w), VotesOn(w, s))) {
      op := DoDeadline(s, NewSession(sid, Eligible(w)[0], deck));
    }
  }

  /** What a call does to the tables is one atomic operation, so every fact about runs of those applies to it. */
  lemma CallIsOneOperation(w: World, call: RoomCall) returns (op: Op)
    requires w.db.now > 0 && Sound(w, call) && Invoke(w, call).Ok?
    ensures Invoke(w, call).value.db == Apply(w.db, op)
  {
    op := DoTick(w.db.now);
    match call
    case Start(user, latest, sid, deck) => op := DoStart(NewSession(sid, user, deck), NextNumber(w.db.recs, latest));
    case Play(user, expected, actionId, hit) =>
      PlayIsOneOperation(w, user, expected, actionId, hit);
      op := DoPlay(w.room.current.value, user, expected, actionId, hit, w.db.now);
    case Vote(user, agree, expected, actionId, latest, sid, deck) =>
      op := VoteIsOneOperation(w, user, agree, expected, actionId, latest, sid, deck);
    case TurnTimeout(s, heuristic) => op := StandIsOneOperation(w, s, heuristic);
    case DealerMoves(s) => PutSame(w.db, s); op := DoDealer(s, w.db.now);
    case RematchTimeout(s, sid, deck) => op := DeadlineIsOneOperation(w, s, sid, deck);
    case Reset(user) => op := DoReset;
    case Advance(now) => op := DoTick(now);
    case _ =>
  }

  // ---- the sessions of the room ----

  ghost predicate TablesInv(w: World) { DbInv(w.db) && SessionsInv(w) && StatusMatches(w) }

  /** The same sessions, or one more with the next number, or none at all. */
  ghost predicate NextSessions(db: Database, db': Database, host: string) {
    NoNewSession(db, db') || exists sid :: OneMore(db, db', host, sid)
  }

  ghost predicate NoNewSession(db: Database, db': Database) { db'.recs.Keys == db.recs.Keys || db'.recs == map[] }

  ghost predicate OneMore(db: Database, db': Database, host: string, sid: Sid) {
    && sid !in db.recs && db'.recs.Keys == db.recs.Keys + {sid}
    && db'.recs[sid].sess.roundNo == |db.recs| + 1 && db'.recs[sid].sess.createdAt == db.now == db'.now
    && db'.recs[sid].player.userId == host
  }

  ghost predicate SameHost(w: World, w': World) {
    w'.room.host == w.room.host && w'.votes.Keys <= w'.db.used
  }

  lemma TakenStays(recs: map<Sid, Record>, recs': map<Sid, Record>, k: int)
    requires forall s :: s in recs ==> s in recs' && recs'[s].sess.roundNo == recs[s].sess.roundNo
    requires RoundTaken(recs, k)
    ensures RoundTaken(recs', k)
  {
    var s :| s in recs && recs[s].sess.roundNo == k;
    assert s in recs' && recs'[s].sess.roundNo == k;
  }

  lemma SameKeysKeep(w: World, w': World)
    requires SessionsInv(w) && w.db.recs.Keys <= w.db.used && Evolves(w.db, w'.db) && SameHost(w, w')
    requires w'.db.recs.Keys == w.db.recs.Keys
    ensures SessionsInv(w')
  {
    var recs, recs' := w.db.recs, w'.db.recs;
    assert |recs'| == |recs'.Keys| == |recs.Keys| == |recs|;
    assert forall s :: s in recs' ==> s in recs && SameRound(recs[s].sess, recs'[s].sess);
    forall k | 1 <= k <= |recs'| ensures RoundTaken(recs', k) {
      TakenStays(recs, recs', k);
    }
  }

  lemma OneMoreNumber(recs: map<Sid, Record>, recs': map<Sid, Record>, sid: Sid)
    requires Numbered(recs) && sid !in recs && recs'.Keys == recs.Keys + {sid}
    requires forall s :: s in recs ==> recs'[s].sess.roundNo == recs[s].sess.roundNo
    requires recs'[sid].sess.roundNo == |recs| + 1
    ensures Numbered(recs')
  {
    assert |recs'| == |recs'.Keys| == |recs.Keys| + 1 == |recs| + 1;
    forall k | 1 <= k <= |recs'| ensures RoundTaken(recs', k) {
      if k == |recs'| {
        assert sid in recs' && recs'[sid].sess.roundNo == k;
      } else {
        TakenStays(recs, recs', k);
      }
    }
  }

  lemma OneMoreKeeps(w: World, w': World, sid: Sid)
    requires SessionsInv(w) && w.db.recs.Keys <= w.db.used && Evolves(w.db, w'.db) && SameHost(w, w')
    requires OneMore(w.db, w'.db, w.room.host, sid)
    ensures SessionsInv(w')
  {
    var recs, recs' := w.db.recs, w'.db.recs;
    assert forall s :: s in recs ==> s in recs' && Grows(recs[s], recs'[s]);
    OneMoreNumber(recs, recs', sid);
  }

  lemma SessionsFollow(w: World, w': World)
    requires SessionsInv(w) && w.db.recs.Keys <= w.db.used && Evolves(w.db, w'.db) && SameHost(w, w')
    requires NextSessions(w.db, w'.db, w.room.host)
    ensures SessionsInv(w')
  {
    if w'.db.recs.Keys == w.db.recs.Keys {
      SameKeysKeep(w, w');
    } else if sid :| OneMore(w.db, w'.db, w.room.host, sid) {
      OneMoreKeeps(w, w', sid);
    }
  }

  lemma StartNextSession(w: World, user: string, latest: Option<Sid>, sid: Sid, deck: seq<StoredCard>)
    requires SessionsInv(w) && w.db.recs.Keys <= w.db.used && IsLatest(w.db.recs, latest) && GoodDeck(deck)
    requires StartRoom(w, user, latest, sid, deck).Ok?
    ensures var w' := StartRoom(w, user, latest, sid, deck).value;
            NextSessions(w.db, w'.db, w.room.host) && SameHost(w, w') && StatusMatches(w')
  {
    StartAccepted(w, user, latest, sid, deck);
    var r := CreateSessionIs(w.db, NewSession(sid, user, deck), NextNumber(w.db.recs, latest));
    FreeNumberIsNext(w.db.recs, latest);
    assert OneMore(w.db, StartRoom(w, user, latest, sid, deck).value.db, w.room.host, sid);
  }

  lemma OpenNextSession(db: Database, s: Sid, n: NewSession)
    requires Numbered(db.recs) && db.recs.Keys <= db.used && s in db.recs && GoodDeck(n.deck)
    requires OpenNextRound(db, s, db.recs[s].sess, n).Ok?
    ensures OneMore(db, OpenNextRound(db, s, db.recs[s].sess, n).value, n.user, n.sid)
    ensures n.sid in OpenNextRound(db, s, db.recs[s].sess, n).value.used
    ensures db.used <= OpenNextRound(db, s, db.recs[s].sess, n).value.used
  {
    var r0 := OpenNextIs(db, s, n);
    OpenNextNeedsNewest(db, s, n);
  }

  lemma AgreementNextSession(w: World, user: string, expected: int, actionId: string,
                             latest: Option<Sid>, sid: Sid, deck: seq<StoredCard>)
    requires TablesInv(w) && IsLatest(w.db.recs, latest) && GoodDeck(deck) && latest.Some?
    requires VoteFresh(w, user, true, expected, actionId, latest.value)
    requires VoteRematch(w, user, true, expected, actionId, latest, sid, deck).Ok?
    ensures var w' := VoteRematch(w, user, true, expected, actionId, latest, sid, deck).value;
            OneMore(w.db, w'.db, w.room.host, sid) && SameHost(w, w') && StatusMatches(w')
  {
    var l := latest.value;
    AgreementResult(w, user, expected, actionId, latest, sid, deck);
    RecordOf(w.db, l);
    BumpKeepsRecord(w.db.recs[l], w.db.now);
    var n := NewSession(sid, user, deck);
    OpenNextSession(w.db, l, n);
    var db1 := OpenNextRound(w.db, l, w.db.recs[l].sess, n).value;
    LoggedOneMore(w.db, db1, l, LogKey(user, actionId), VoteAt(true, expected), w.room.host, sid);
    VotedNextSessions(w, AddLog(db1, l, LogKey(user, actionId), VoteAt(true, expected)).value, l, user, sid);
  }

  lemma LoggedOneMore(db: Database, db1: Database, l: Sid, key: LogKey, payload: Payload, host: string, sid: Sid)
    requires OneMore(db, db1, host, sid) && AddLog(db1, l, key, payload).Ok?
    ensures var db2 := AddLog(db1, l, key, payload).value; OneMore(db, db2, host, sid) && db2.used == db1.used
  {
  }

  lemma VotedNextSessions(w: World, db2: Database, l: Sid, user: string, sid: Sid)
    requires OneMore(w.db, db2, w.room.host, sid) && w.votes.Keys <= w.db.used <= db2.used && l in w.db.used
    ensures var a := WithRoom(WithVote(w.(db := db2), l, user, true), Some(sid), 1);
            a.Ok? && OneMore(w.db, a.value.db, w.room.host, sid) && SameHost(w, a.value) && StatusMatches(a.value)
  {
  }

  lemma VoteNextSessions(w: World, user: string, agree: bool, expected: int, actionId: string,
                         latest: Option<Sid>, sid: Sid, deck: seq<StoredCard>)
    requires TablesInv(w) && IsLatest(w.db.recs, latest) && GoodDeck(deck)
    requires VoteRematch(w, user, agree, expected, actionId, latest, sid, deck).Ok?
    ensures var w' := VoteRematch(w, user, agree, expected, actionId, latest, sid, deck).value;
            NextSessions(w.db, w'.db, w.room.host) && SameHost(w, w') && StatusMatches(w')
  {
    VoteOkIsFreshOrReplay(w, user, agree, expected, actionId, latest, sid, deck);
    if VoteFresh(w, user, agree, expected, actionId, latest.value) {
      if agree {
        AgreementNextSession(w, user, expected, actionId, latest, sid, deck);
      } else {
        RefusalResult(w, user, expected, actionId, latest, sid, deck);
      }
    }
  }

  lemma DeadlineNextSessions(w: World, s: Sid, sid: Sid, deck: seq<StoredCard>)
    requires TablesInv(w) && GoodDeck(deck) && ProcessRematchDeadline(w, s, sid, deck).Ok?
    ensures var w' := ProcessRematchDeadline(w, s, sid, deck).value;
            NextSessions(w.db, w'.db, w.room.host) && SameHost(w, w') && StatusMatches(w')
  {
    DeadlineInHalves(w, s, sid, deck);
    var n := NewSession(sid, w.room.host, deck);
    var a := OpenNextRound(w.db, s, w.db.recs[s].sess, n);
    if a.Ok? {
      OpenNextSession(w.db, s, n);
      ReopenedNextSessions(w, a.value, sid);
    }
  }

  lemma ReopenedNextSessions(w: World, db1: Database, sid: Sid)
    requires OneMore(w.db, db1, w.room.host, sid) && w.votes.Keys <= w.db.used <= db1.used
    ensures Reopened(w, sid, Ok(db1)).Ok?
    ensures var w' := Reopened(w, sid, Ok(db1)).value;
            NextSessions(w.db, w'.db, w.room.host) && SameHost(w, w') && StatusMatches(w')
  {
  }

  lemma PlayNextSessions(w: World, user: string, expected: int, actionId: string, hit: bool)
    requires TablesInv(w) && PlayerTurnCall(w, user, expected, actionId, hit).Ok?
    ensures var w' := PlayerTurnCall(w, user, expected, actionId, hit).value;
            NoNewSession(w.db, w'.db) && SameHost(w, w') && StatusMatches(w')
  {
    var w' := PlayerTurnCall(w, user, expected, actionId, hit).value;
    assert w'.db.recs.Keys == w.db.recs.Keys;
  }

  lemma StandNextSessions(w: World, s: Sid, heuristic: bool)
    requires TablesInv(w) && PlayerStandCall(w, s, heuristic).Ok?
    ensures var w' := PlayerStandCall(w, s, heuristic).value;
            NoNewSession(w.db, w'.db) && SameHost(w, w') && StatusMatches(w')
  {
    var r, w' := w.db.recs[s], PlayerStandCall(w, s, heuristic).value;
    if TurnIsDue(r.sess, w.db.now) && AutoHits(r, heuristic) {
      PlayNextSessions(w, r.player.userId, r.sess.version, AutoHitId(s, r.sess.version), true);
    } else {
      assert w'.db.recs.Keys == w.db.recs.Keys;
    }
  }

  lemma DealerNextSessions(w: World, s: Sid)
    requires TablesInv(w) && DealerTurnCall(w, s).Ok?
    ensures var w' := DealerTurnCall(w, s).value;
            NoNewSession(w.db, w'.db) && SameHost(w, w') && StatusMatches(w')
  {
    var w' := DealerTurnCall(w, s).value;
    assert w'.db.recs.Keys == w.db.recs.Keys;
  }

  ghost predicate IsOnSeat(call: RoomCall) {
    call.Join? || call.Leave? || call.Connect? || call.Disconnect? || call.Reset? || call.Advance?
  }

  lemma SeatNextSessions(w: World, call: RoomCall)
    requires SessionsInv(w) && StatusMatches(w) && IsOnSeat(call) && Invoke(w, call).Ok?
    ensures var w' := Invoke(w, call).value;
            NoNewSession(w.db, w'.db) && SameHost(w, w') && StatusMatches(w')
  {
  }

  /** In a consistent room only a start or a vote opens a session. */
  lemma OthersOpenNothing(w: World, call: RoomCall)
    requires WorldInv(w) && Sound(w, call) && Invoke(w, call).Ok? && !call.Start? && !call.Vote?
    ensures NoNewSession(w.db, Invoke(w, call).value.db)
  {
    match call
    case Play(user, expected, actionId, hit) => PlayNextSessions(w, user, expected, actionId, hit);
    case TurnTimeout(s, heuristic) => StandNextSessions(w, s, heuristic);
    case DealerMoves(s) => DealerNextSessions(w, s);
    case RematchTimeout(s, sid, deck) =>
      if RematchIsDue(w.db.recs[s].sess, w.db.now) && w.room.current == Some(s) {
        DeadlineReleases(w, s, sid, deck);
      }
    case _ => SeatNextSessions(w, call);
  }

  lemma CallNextSessions(w: World, call: RoomCall)
    requires TablesInv(w) && Sound(w, call) && Invoke(w, call).Ok?
    ensures var w' := Invoke(w, call).value;
            NextSessions(w.db, w'.db, w.room.host) && SameHost(w, w') && StatusMatches(w')
  {
    match call
    case Start(user, latest, sid, deck) => StartNextSession(w, user, latest, sid, deck);
    case Play(user, expected, actionId, hit) => PlayNextSessions(w, user, expected, actionId, hit);
    case Vote(user, agree, expected, actionId, latest, sid, deck) =>
      VoteNextSessions(w, user, agree, expected, actionId, latest, sid, deck);
    case TurnTimeout(s, heuristic) => StandNextSessions(w, s, heuristic);
    case DealerMoves(s) => DealerNextSessions(w, s);
    case RematchTimeout(s, sid, deck) => DeadlineNextSessions(w, s, sid, deck);
    case _ => SeatNextSessions(w, call);
  }

  /** Every call keeps the tables good, the numbering and the status, whatever the clock does. */
  lemma CallKeepsTables(w: World, call: RoomCall)
    requires TablesInv(w) && Sound(w, call) && Invoke(w, call).Ok?
    ensures TablesInv(Invoke(w, call).value) && Evolves(w.db, Invoke(w, call).value.db)
    ensures Invoke(w, call).value.room.host == w.room.host
  {
    var op := CallIsOneOperation(w, call);
    ApplyKeepsDbInv(w.db, op);
    CallNextSessions(w, call);
    SessionsFollow(w, Invoke(w, call).value);
  }

  // ---- runs ----

  ghost function RoomRun(w: World, calls: seq<RoomCall>): World {
    if calls == [] then w else After(RoomRun(w, calls[..|calls| - 1]), calls[|calls| - 1])
  }

  lemma {:induction false} RunKeepsTables(w: World, calls: seq<RoomCall>)
    requires TablesInv(w)
    ensures TablesInv(RoomRun(w, calls)) && Evolves(w.db, RoomRun(w, calls).db)
    ensures RoomRun(w, calls).room.host == w.room.host
  {
    EvolvesReflexive(w.db);
    if calls != [] {
      var mid, last := RoomRun(w, calls[..|calls| - 1]), calls[|calls| - 1];
      RunKeepsTables(w, calls[..|calls| - 1]);
      EvolvesReflexive(mid.db);
      if Sound(mid, last) && Invoke(mid, last).Ok? {
        CallKeepsTables(mid, last);
      }
      EvolvesTransitive(w.db, mid.db, RoomRun(w, calls).db);
    }
  }

  /** In every run the rounds are numbered 1 to n, each number once, and the status is the right one. */
  lemma RoundsAreNumbered(host: string, start: Time, calls: seq<RoomCall>)
    requires host != "" && start > 0
    ensures var w := RoomRun(NewRoom(host, start), calls);
            var recs := w.db.recs;
            && (forall s :: s in recs ==> 1 <= recs[s].sess.roundNo <= |recs|)
            && (forall k :: 1 <= k <= |recs| ==> RoundTaken(recs, k))
            && (forall s, u :: s in recs && u in recs && recs[s].sess.roundNo == recs[u].sess.roundNo ==> s == u)
            && (w.room.status == Playing <==> w.room.current.Some?)
            && (w.room.status == ReadyToStart <==> w.room.current.None? && Seated(w.seat))
            && (w.room.status == Waiting <==> w.room.current.None? && !Seated(w.seat))
  {
    NewRoomIsGood(host, start);
    RunKeepsTables(NewRoom(host, start), calls);
  }
}
