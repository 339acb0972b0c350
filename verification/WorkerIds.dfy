/** The identifiers the worker makes up for its own log entries, and which of them a session will need. */
module WorkerIds {
  import opened Wrappers
  import opened Numerals
  import opened Cards
  import opened Shuffle
  import opened Hands
  import opened Policies
  import opened Rounds
  import opened RoundInvariant
  import opened SessionStore
  import opened RoundSteps
  import opened AtomicSessions
  import opened Rooms
  import opened RoomInvariant
  import opened RoomSteps
  import opened Worker

  // ---- the identifiers the worker makes up are all different ----

  lemma SameSuffix(prefix: string, a: string, b: string)
    requires prefix + a == prefix + b
    ensures a == b
  {
    assert (prefix + a)[|prefix|..] == a && (prefix + b)[|prefix|..] == b;
  }

  lemma WorkerIdsDiffer(sid: Sid, v: int, u: int)
    ensures AutoHitId(sid, v) == AutoHitId(sid, u) ==> v == u
    ensures ForfeitId(sid, v) != AutoHitId(sid, u)
  {
    if AutoHitId(sid, v) == AutoHitId(sid, u) {
      SameSuffix("auto-heuristic-hit:" + sid + ":", Number(v), Number(u));
      NumberInjective(v, u);
    }
    assert ForfeitId(sid, v)[0] == 't' && AutoHitId(sid, u)[0] == 'a';
  }

  // ---- the identifiers a session will need ----

  /** The next i cards of the deck, or as many as there are. */
  function Upcoming(r: Record, i: nat): seq<StoredCard> {
    var d, n := r.sess.drawIndex, |r.sess.deck|;
    if 0 <= d <= n then r.sess.deck[d..if d + i <= n then d + i else n] else []
  }

  function HandAfter(r: Record, i: nat): Hand { r.player.hand + Upcoming(r, i) }

  /** Whether the hint says hit once the player has been made to draw i cards. */
  predicate Advised(r: Record, i: nat) {
    |r.dealer.hand| > 0 && RecommendHitOrStand(HandAfter(r, i), r.dealer.hand[0])
  }

  /** The policy makes the player draw i cards, and the turn is still on. */
  ghost predicate Forces(r: Record, heuristic: bool, i: nat) {
    (forall j: nat :: j < i ==> heuristic && Advised(r, j)) && !IsBust(HandAfter(r, i))
  }

  /** What the worker writes to the log when it acts after i forced hits. */
  function NeededKey(c: Sid, r: Record, heuristic: bool, i: nat): LogKey {
    LogKey(r.player.userId, if heuristic && Advised(r, i) then AutoHitId(c, r.sess.version + i)
                            else ForfeitId(c, r.sess.version + i + 1))
  }

  predicate KeyUsed(c: Sid, r: Record, heuristic: bool) { NeededKey(c, r, heuristic, 0) in r.logs }

  /** Somebody has used the identifier of an entry that the worker will have to write in this turn. */
  ghost predicate Stuck(c: Sid, r: Record, heuristic: bool) {
    r.sess.status == PlayerTurn && exists i: nat :: Forces(r, heuristic, i) && NeededKey(c, r, heuristic, i) in r.logs
  }

  lemma NothingDrawnYet(r: Record)
    ensures HandAfter(r, 0) == r.player.hand
    ensures Advised(r, 0) <==> AutoHits(r, true)
  {
  }

  /** Where the policy does not hit, only the entry of the loss by time matters. */
  lemma StuckWithoutHit(c: Sid, r: Record, heuristic: bool)
    requires RecordInv(r) && r.sess.status == PlayerTurn && !AutoHits(r, heuristic)
    ensures Stuck(c, r, heuristic) <==> ForfeitKey(c, r.player, r.sess.version + 1) in r.logs
    ensures NeededKey(c, r, heuristic, 0) == ForfeitKey(c, r.player, r.sess.version + 1)
  {
    NothingDrawnYet(r);
    OnlyNoHits(r, heuristic);
    var key := ForfeitKey(c, r.player, r.sess.version + 1);
    assert NeededKey(c, r, heuristic, 0) == key;
    if key in r.logs {
      assert Forces(r, heuristic, 0) && NeededKey(c, r, heuristic, 0) in r.logs;
    }
  }

  lemma OnlyNoHits(r: Record, heuristic: bool)
    requires !IsBust(r.player.hand) && !(heuristic && Advised(r, 0))
    ensures forall i: nat :: Forces(r, heuristic, i) <==> i == 0
  {
    NothingDrawnYet(r);
    forall i: nat | i > 0 ensures !Forces(r, heuristic, i) {
    }
  }

  /** Under the default policy one key decides. */
  lemma StuckByDefault(c: Sid, r: Record)
    requires RecordInv(r)
    ensures Stuck(c, r, false)
            <==> r.sess.status == PlayerTurn && ForfeitKey(c, r.player, r.sess.version + 1) in r.logs
  {
    if r.sess.status == PlayerTurn {
      StuckWithoutHit(c, r, false);
    }
  }

  lemma UsedKeyIsStuck(c: Sid, r: Record, heuristic: bool)
    requires RecordInv(r) && r.sess.status == PlayerTurn && KeyUsed(c, r, heuristic)
    ensures Stuck(c, r, heuristic)
  {
    NothingDrawnYet(r);
    assert Forces(r, heuristic, 0);
  }

  // ---- after one more card ----

  /** The record after the player has drawn one card, whoever asked for it. */
  ghost predicate DrewOne(r: Record, r': Record) {
    && 0 <= r.sess.drawIndex < |r.sess.deck|
    && r'.sess.deck == r.sess.deck && r'.sess.drawIndex == r.sess.drawIndex + 1
    && r'.sess.version == r.sess.version + 1 && r'.dealer == r.dealer
    && r'.player.userId == r.player.userId
    && r'.player.hand == r.player.hand + [r.sess.deck[r.sess.drawIndex]]
    && (r'.sess.status == PlayerTurn <==> !IsBust(r'.player.hand)) && r'.sess.status != Resetting
  }

  lemma HandsShift(r: Record, r': Record, i: nat)
    requires DrewOne(r, r')
    ensures HandAfter(r', i) == HandAfter(r, i + 1)
  {
    var d, n := r.sess.drawIndex, |r.sess.deck|;
    assert [r.sess.deck[d]] + Upcoming(r', i) == Upcoming(r, i + 1);
  }

  lemma KeysShift(c: Sid, r: Record, r': Record, heuristic: bool, i: nat, k: nat)
    requires DrewOne(r, r') && k == i + 1
    ensures NeededKey(c, r', heuristic, i) == NeededKey(c, r, heuristic, k)
  {
    HandsShift(r, r', i);
  }

  lemma ForcesShift(r: Record, r': Record, heuristic: bool, i: nat, k: nat)
    requires DrewOne(r, r') && heuristic && Advised(r, 0) && k == i + 1
    ensures Forces(r', heuristic, i) <==> Forces(r, heuristic, k)
  {
    HandsShift(r, r', i);
    forall j: nat | j < i ensures Advised(r', j) <==> Advised(r, j + 1) {
      HandsShift(r, r', j);
    }
    if Forces(r', heuristic, i) {
      forall j: nat | j < k ensures Advised(r, j) {
        assert j > 0 ==> Advised(r', j - 1);
      }
    }
    if Forces(r, heuristic, k) {
      forall j: nat | j < i ensures Advised(r', j) {
        assert Advised(r, j + 1);
      }
    }
  }

  /** The worker's own entry for a forced hit is none that it will need later. */
  lemma LaterKeysDiffer(c: Sid, r: Record, heuristic: bool, k: nat)
    requires k > 0
    ensures NeededKey(c, r, heuristic, k) != LogKey(r.player.userId, AutoHitId(c, r.sess.version))
  {
    WorkerIdsDiffer(c, r.sess.version + k, r.sess.version);
    WorkerIdsDiffer(c, r.sess.version + k + 1, r.sess.version);
  }

  lemma StillNeeded(c: Sid, r: Record, r': Record, i: nat, k: nat)
    requires DrewOne(r, r') && Advised(r, 0) && r.logs.Keys <= r'.logs.Keys && k == i + 1
    requires Forces(r, true, k) && NeededKey(c, r, true, k) in r.logs
    ensures Stuck(c, r', true)
  {
    ForcesShift(r, r', true, i, k);
    KeysShift(c, r, r', true, i, k);
    assert NeededKey(c, r', true, i) in r'.logs.Keys;
    NotBustBefore(r, r', i);
  }

  lemma NotBustBefore(r: Record, r': Record, i: nat)
    requires DrewOne(r, r') && Forces(r', true, i)
    ensures r'.sess.status == PlayerTurn
  {
    NothingDrawnYet(r');
    if i > 0 {
      assert Advised(r', 0);
    }
  }

  lemma NeededBefore(c: Sid, r: Record, r': Record, i: nat, k: nat)
    requires DrewOne(r, r') && r.sess.status == PlayerTurn && Advised(r, 0) && k == i + 1
    requires r'.logs.Keys == r.logs.Keys + {LogKey(r.player.userId, AutoHitId(c, r.sess.version))}
    requires Forces(r', true, i) && NeededKey(c, r', true, i) in r'.logs
    ensures Stuck(c, r, true)
  {
    ForcesShift(r, r', true, i, k);
    KeysShift(c, r, r', true, i, k);
    LaterKeysDiffer(c, r, true, k);
    assert NeededKey(c, r, true, k) in r.logs.Keys;
    assert Forces(r, true, k) && NeededKey(c, r, true, k) in r.logs;
  }

  lemma LaterThanFirst(c: Sid, r: Record, i: nat)
    requires NeededKey(c, r, true, i) in r.logs && NeededKey(c, r, true, 0) !in r.logs
    ensures i != 0
  {
  }

  lemma NeededSomewhere(c: Sid, r: Record) returns (i: nat)
    requires Stuck(c, r, true)
    ensures Forces(r, true, i) && NeededKey(c, r, true, i) in r.logs
  {
    i :| Forces(r, true, i) && NeededKey(c, r, true, i) in r.logs;
  }

  /** A forced hit neither frees nor uses up an identifier that is still needed. */
  lemma ForcedHitKeepsStuck(c: Sid, r: Record, r': Record)
    requires DrewOne(r, r') && r.sess.status == PlayerTurn && Advised(r, 0) && !KeyUsed(c, r, true)
    requires r'.logs.Keys == r.logs.Keys + {LogKey(r.player.userId, AutoHitId(c, r.sess.version))}
    ensures Stuck(c, r', true) <==> Stuck(c, r, true)
  {
    if Stuck(c, r, true) {
      var i := NeededSomewhere(c, r);
      LaterThanFirst(c, r, i);
      StillNeeded(c, r, r', i - 1, i);
    } else if Stuck(c, r', true) {
      var i := NeededSomewhere(c, r');
      NeededBefore(c, r, r', i, i + 1);
    }
  }

  // ---- an identifier used by a player ----

  /** What a HIT makes of a record. */
  lemma HitDraws(r: Record, user: string, expected: int, actionId: string, now: Time)
    requires RecordInv(r) && PlayRecord(r, user, expected, actionId, true, now).Ok?
    ensures DrewOne(r, PlayRecord(r, user, expected, actionId, true, now).value)
    ensures PlayRecord(r, user, expected, actionId, true, now).value.logs
            == r.logs[LogKey(user, actionId) := HitAt(expected)]
  {
    PlayRecordAnswers(r, user, expected, actionId, true, now);
    DrawSucceeds(r.Table());
    HitRows(r.sess, r.player, now);
  }

  /** A player's HIT under the identifier that the worker needs next leaves the worker stuck, exactly unless it ends the turn. */
  lemma PlayedIdBlocksWorker(c: Sid, r: Record, heuristic: bool, now: Time)
    requires RecordInv(r) && r.sess.status == PlayerTurn && NeededKey(c, r, heuristic, 1) !in r.logs
    ensures var key := NeededKey(c, r, heuristic, 1);
            var a := PlayRecord(r, r.player.userId, r.sess.version, key.actionId, true, now);
            a.Ok? && (Stuck(c, a.value, heuristic) <==> a.value.sess.status == PlayerTurn)
  {
    var key := NeededKey(c, r, heuristic, 1);
    PlayRecordAnswers(r, r.player.userId, r.sess.version, key.actionId, true, now);
    HitDraws(r, r.player.userId, r.sess.version, key.actionId, now);
    UsedNextKey(c, r, PlayRecord(r, r.player.userId, r.sess.version, key.actionId, true, now).value, heuristic);
  }

  lemma UsedNextKey(c: Sid, r: Record, r': Record, heuristic: bool)
    requires DrewOne(r, r') && RecordInv(r') && NeededKey(c, r, heuristic, 1) in r'.logs
    ensures Stuck(c, r', heuristic) <==> r'.sess.status == PlayerTurn
  {
    KeysShift(c, r, r', heuristic, 0, 1);
    if r'.sess.status == PlayerTurn {
      UsedKeyIsStuck(c, r', heuristic);
    }
  }
}
