/** What holds in every room as long as its calls run one after the other. */
module RoomInvariant {
  import opened Wrappers
  import opened Cards
  import opened Shuffle
  import opened Hands
  import opened Policies
  import opened Rounds
  import opened RoundInvariant
  import opened SessionStore
  import opened RoundSteps
  import opened AtomicSessions
  import opened Rooms

  // ---- the invariant ----

  /** The sessions are numbered 1 to n, each number once (no two sessions share one, by DbInv). */
  ghost predicate Numbered(recs: map<Sid, Record>) {
    && (forall s :: s in recs ==> 1 <= recs[s].sess.roundNo <= |recs|)
    && (forall k :: 1 <= k <= |recs| ==> RoundTaken(recs, k))
  }

  /** Later rounds were created later. */
  ghost predicate CreatedInOrder(recs: map<Sid, Record>) {
    forall s, u :: s in recs && u in recs && recs[s].sess.roundNo < recs[u].sess.roundNo
      ==> recs[s].sess.createdAt < recs[u].sess.createdAt
  }

  ghost predicate OnlyCurrentRuns(w: World) {
    forall s :: s in w.db.recs && w.db.recs[s].sess.status != Resetting ==> w.room.current == Some(s)
  }

  ghost predicate StatusMatches(w: World) {
    w.room.status == if w.room.current.Some? then Playing else if Seated(w.seat) then ReadyToStart else Waiting
  }

  /** The current session is the newest one, its player sits at the table and has not voted on it. */
  ghost predicate CurrentIsNewest(w: World) {
    w.room.current.Some? ==>
      var c := w.room.current.value;
      c in w.db.recs && w.db.recs[c].sess.roundNo == |w.db.recs| && Seated(w.seat) && c !in w.votes
  }

  ghost predicate SessionsInv(w: World) {
    && Numbered(w.db.recs)
    && (forall s :: s in w.db.recs ==> w.db.recs[s].player.userId == w.room.host && w.db.recs[s].sess.createdAt <= w.db.now)
    && w.votes.Keys <= w.db.used
    && w.room.host != ""
  }

  ghost predicate RoomInv(w: World) {
    SessionsInv(w) && OnlyCurrentRuns(w) && StatusMatches(w) && CurrentIsNewest(w)
  }

  /** Nothing here depends on the order of creation times. */
  ghost predicate WorldInv(w: World) { DbInv(w.db) && RoomInv(w) }

  ghost function NewRoom(host: string, now: Time): World {
    World(Room(host, Waiting, None), NoSeat, Database(now, map[], {}), map[])
  }

  lemma NewRoomIsGood(host: string, now: Time)
    requires host != "" && now > 0
    ensures WorldInv(NewRoom(host, now)) && CreatedInOrder(NewRoom(host, now).db.recs)
  {
  }

  // ---- the latest session ----

  ghost predicate IsNewest(recs: map<Sid, Record>, s: Sid) { s in recs && recs[s].sess.roundNo == |recs| }

  /** Some session is the latest, unless there is none. */
  lemma {:induction false} LatestExists(recs: map<Sid, Record>) returns (latest: Option<Sid>)
    ensures IsLatest(recs, latest)
    decreases |recs|
  {
    if recs == map[] {
      latest := None;
    } else {
      var s :| s in recs;
      var rest := recs - {s};
      assert rest.Keys == recs.Keys - {s};
      assert |rest| == |rest.Keys| && |recs| == |recs.Keys|;
      var l := LatestExists(rest);
      assert forall u :: u in recs && u != s ==> u in rest && rest[u] == recs[u];
      latest := if l.Some? && recs[s].sess.createdAt <= recs[l.value].sess.createdAt then l else Some(s);
    }
  }

  /** The newest session was created strictly after all others. */
  ghost predicate NewestIsLast(recs: map<Sid, Record>) {
    forall s, u :: s in recs && IsNewest(recs, u) && !IsNewest(recs, s) ==> recs[s].sess.createdAt < recs[u].sess.createdAt
  }

  ghost predicate OneOfEach(recs: map<Sid, Record>) {
    forall s, u :: s in recs && u in recs && s != u ==> recs[s].sess.roundNo != recs[u].sess.roundNo
  }

  /** A search by creation time is sure to find the newest session exactly if no other shares its instant. */
  lemma LatestIsNewestExactly(recs: map<Sid, Record>)
    requires Numbered(recs) && OneOfEach(recs)
    ensures (forall l :: IsLatest(recs, Some(l)) ==> IsNewest(recs, l)) <==> NewestIsLast(recs)
  {
    if NewestIsLast(recs) {
      forall l | IsLatest(recs, Some(l)) ensures IsNewest(recs, l) {
        assert recs.Keys != {};
        assert RoundTaken(recs, |recs|);
        var newest :| newest in recs && recs[newest].sess.roundNo == |recs|;
        assert IsNewest(recs, newest);
      }
    } else {
      var s, u :| s in recs && IsNewest(recs, u) && !IsNewest(recs, s) && recs[s].sess.createdAt >= recs[u].sess.createdAt;
      var l := LatestExists(recs);
      if IsNewest(recs, l.value) {
        assert IsLatest(recs, Some(s));
      }
    }
  }

  lemma OrderMakesNewestLast(recs: map<Sid, Record>)
    requires Numbered(recs) && CreatedInOrder(recs)
    ensures NewestIsLast(recs)
  {
  }

  /** If rounds were created in order, the latest session by creation time is the highest numbered one. */
  lemma LatestIsNewest(w: World, latest: Option<Sid>)
    requires DbInv(w.db) && SessionsInv(w) && CreatedInOrder(w.db.recs) && IsLatest(w.db.recs, latest)
    ensures latest.Some? ==> IsNewest(w.db.recs, latest.value)
  {
    OrderMakesNewestLast(w.db.recs);
    LatestIsNewestExactly(w.db.recs);
  }

  /** Whatever the clock: if the number after some latest session is free, that session is the newest. */
  lemma FreeNumberIsNext(recs: map<Sid, Record>, latest: Option<Sid>)
    requires Numbered(recs) && IsLatest(recs, latest) && !RoundTaken(recs, NextNumber(recs, latest))
    ensures NextNumber(recs, latest) == |recs| + 1 && (latest.Some? ==> IsNewest(recs, latest.value))
  {
  }

  // ---- changes of one record ----

  /** A change that leaves the room's view of a session alone, except that it may finish it. */
  ghost predicate Follows(r: Record, r': Record) {
    && Grows(r, r')
    && (r'.sess.status != Resetting ==> r.sess.status != Resetting)
  }

  lemma PutKeepsNumbers(db: Database, sid: Sid, r': Record)
    requires Numbered(db.recs) && sid in db.recs && SameRound(db.recs[sid].sess, r'.sess)
    ensures Numbered(Put(db, sid, r').recs) && |Put(db, sid, r').recs| == |db.recs|
  {
    var recs, recs' := db.recs, Put(db, sid, r').recs;
    assert recs'.Keys == recs.Keys;
    assert |recs'| == |recs'.Keys| == |recs.Keys| == |recs|;
    assert forall s :: s in recs' ==> s in recs && SameRound(recs[s].sess, recs'[s].sess);
    forall k | 1 <= k <= |recs'| ensures RoundTaken(recs', k) {
      assert RoundTaken(recs, k);
      NumbersUnchanged(db, sid, r', k);
    }
  }

  lemma PutKeepsRoomInv(w: World, sid: Sid, r': Record)
    requires RoomInv(w) && sid in w.db.recs && Follows(w.db.recs[sid], r')
    ensures RoomInv(w.(db := Put(w.db, sid, r')))
  {
    PutKeepsNumbers(w.db, sid, r');
  }

  /** Writing back the current session as current changes nothing in the room. */
  lemma SameRoomAgain(w: World, sid: Sid)
    requires RoomInv(w) && w.room.current == Some(sid)
    ensures WithRoom(w, Some(sid), 1) == Ok(w)
  {
  }

  lemma RunningIsCurrent(w: World, sid: Sid)
    requires OnlyCurrentRuns(w) && sid in w.db.recs && w.db.recs[sid].sess.status != Resetting
    ensures w.room.current == Some(sid)
  {
  }

  // ---- a new session ----

  ghost predicate AllFinished(w: World) {
    forall s :: s in w.db.recs ==> w.db.recs[s].sess.status == Resetting
  }

  /** The clock has moved on since the last session was created. */
  ghost predicate Timely(w: World) {
    forall s :: s in w.db.recs ==> w.db.recs[s].sess.createdAt < w.db.now
  }

  lemma TakenAfterAdd(db: Database, n: NewSession, r: Record, k: int)
    requires n.sid !in db.recs && (RoundTaken(db.recs, k) || r.sess.roundNo == k)
    ensures RoundTaken(Added(db, n, r).recs, k)
  {
    var recs' := Added(db, n, r).recs;
    if r.sess.roundNo == k {
      assert n.sid in recs' && recs'[n.sid].sess.roundNo == k;
    } else {
      var s :| s in db.recs && db.recs[s].sess.roundNo == k;
      assert s in recs' && recs'[s].sess.roundNo == k;
    }
  }

  lemma AddKeepsNumbered(db: Database, n: NewSession, r: Record)
    requires Numbered(db.recs) && n.sid !in db.recs && r.sess.roundNo == |db.recs| + 1
    ensures Numbered(Added(db, n, r).recs) && |Added(db, n, r).recs| == |db.recs| + 1
  {
    var recs, recs' := db.recs, Added(db, n, r).recs;
    assert recs'.Keys == recs.Keys + {n.sid};
    assert |recs'| == |recs'.Keys| == |recs.Keys| + 1 == |recs| + 1;
    forall k | 1 <= k <= |recs'| ensures RoundTaken(recs', k) {
      if k < |recs'| {
        assert RoundTaken(recs, k);
      }
      TakenAfterAdd(db, n, r, k);
    }
  }

  lemma AddKeepsOrder(db: Database, n: NewSession, r: Record)
    requires CreatedInOrder(db.recs) && n.sid !in db.recs
    requires forall s :: s in db.recs ==> db.recs[s].sess.roundNo < r.sess.roundNo
    requires forall s :: s in db.recs ==> db.recs[s].sess.createdAt < r.sess.createdAt
    ensures CreatedInOrder(Added(db, n, r).recs)
  {
  }

  lemma AddKeepsRoomInv(w: World, n: NewSession, r: Record)
    requires SessionsInv(w) && AllFinished(w) && Seated(w.seat)
    requires n.sid !in w.db.used && n.sid !in w.db.recs && n.user == w.room.host
    requires IsFirst(r, n, |w.db.recs| + 1, w.db.now)
    ensures RoomInv(World(Room(w.room.host, Playing, Some(n.sid)), w.seat, Added(w.db, n, r), w.votes))
  {
    AddKeepsNumbered(w.db, n, r);
  }
}
