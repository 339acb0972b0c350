/** What holds over every run of the interleaved server, from empty tables on. */
module Runs {
  import opened Wrappers
  import opened Cards
  import opened Shuffle
  import opened Hands
  import opened Policies
  import opened Rounds
  import opened RoundInvariant
  import opened SessionStore
  import opened RoundSteps
  import opened AtomicSessions
  import opened Interleaving

  ghost const INIT: State := State(EMPTY, map[])

  ghost function Run(s: State, es: seq<Event>): State {
    if es == [] then s else Do(Run(s, es[..|es| - 1]), es[|es| - 1])
  }

  /** The operations that took effect, in the order of their commits. */
  ghost function History(s: State, es: seq<Event>): seq<Op> {
    if es == [] then []
    else History(s, es[..|es| - 1]) + Effect(Run(s, es[..|es| - 1]), es[|es| - 1])
  }

  lemma {:induction false} EffectsConcatenate(db: Database, a: seq<Op>, b: seq<Op>, apply: (Database, Op) -> Database)
    ensures ApplyEffect(db, a + b, apply) == ApplyEffect(ApplyEffect(db, a, apply), b, apply)
    decreases b
  {
    if b == [] {
      assert a + b == a;
    } else {
      assert (a + b)[..|a + b| - 1] == a + b[..|b| - 1];
      EffectsConcatenate(db, a, b[..|b| - 1], apply);
    }
  }

  lemma {:induction false} RunKeepsInv(s: State, es: seq<Event>)
    requires Inv(s)
    ensures Inv(Run(s, es)) && Evolves(s.db, Run(s, es).db)
  {
    if es == [] {
      EvolvesReflexive(s.db);
    } else {
      var mid := Run(s, es[..|es| - 1]);
      RunKeepsInv(s, es[..|es| - 1]);
      StepKeepsInv(mid, es[|es| - 1]);
      EvolvesTransitive(s.db, mid.db, Run(s, es).db);
    }
  }

  lemma InitIsGood()
    ensures Inv(INIT)
  {
  }

  /**
   Optimistic concurrency refines atomic operations: after any interleaving of any number of calls
   the tables are what the committed operations, one after the other, would have made of them.
   */
  lemma {:induction false} InterleavedRunIsSequential(s: State, es: seq<Event>)
    requires Inv(s)
    ensures Run(s, es).db == ApplyEffect(s.db, History(s, es), Apply)
  {
    if es != [] {
      var init, last := es[..|es| - 1], es[|es| - 1];
      InterleavedRunIsSequential(s, init);
      RunKeepsInv(s, init);
      StepKeepsInv(Run(s, init), last);
      EffectsConcatenate(s.db, History(s, init), Effect(Run(s, init), last), Apply);
    }
  }

  // ---- every session that can ever be stored ----

  ghost predicate Stored(es: seq<Event>, sid: Sid) { sid in Run(INIT, es).db.recs }

  ghost function RecordAfter(es: seq<Event>, sid: Sid): Record
    requires Stored(es, sid)
  {
    Run(INIT, es).db.recs[sid]
  }

  lemma StoredRecordIsGood(es: seq<Event>, sid: Sid)
    requires Stored(es, sid)
    ensures RecordInv(RecordAfter(es, sid))
  {
    InitIsGood();
    RunKeepsInv(INIT, es);
  }

  /** Cards are conserved: the hands together are the drawn part of a full deck, no card twice. */
  lemma CardsAreConserved(es: seq<Event>, sid: Sid)
    requires Stored(es, sid)
    ensures var r := RecordAfter(es, sid);
            && FullDeck(r.sess.deck)
            && r.sess.drawIndex == |r.player.hand| + |r.dealer.hand|
            && 0 <= r.sess.drawIndex <= |r.sess.deck|
            && multiset(r.player.hand) + multiset(r.dealer.hand) == multiset(r.sess.deck[..r.sess.drawIndex])
            && Distinct(r.player.hand + r.dealer.hand)
  {
    StoredRecordIsGood(es, sid);
    LayoutConservesCards(RecordAfter(es, sid).Table());
  }

  /** The deck never runs out: whatever a call has read, however stale, it can draw from it. */
  lemma DeckNeverRunsOut(es: seq<Event>, cid: nat)
    requires cid in Run(INIT, es).calls && Run(INIT, es).calls[cid].sess.Some?
    ensures DrawCard(Run(INIT, es).calls[cid].sess.value).Ok?
  {
    InitIsGood();
    RunKeepsInv(INIT, es);
  }

  lemma HandsStaySmall(es: seq<Event>, sid: Sid)
    requires Stored(es, sid)
    ensures var r := RecordAfter(es, sid);
            2 <= |r.player.hand| <= 22 && 2 <= |r.dealer.hand| <= 17 && |r.sess.deck| - r.sess.drawIndex >= 13
  {
    StoredRecordIsGood(es, sid);
    DrawSucceeds(RecordAfter(es, sid).Table());
  }

  /** The shape of every stored session, status by status. */
  lemma SessionShape(es: seq<Event>, sid: Sid)
    requires Stored(es, sid)
    ensures var r := RecordAfter(es, sid); var s := r.sess;
            && (s.status == PlayerTurn || s.status == DealerTurn || s.status == Resetting)
            && (s.turnDeadline.Some? <==> s.status == PlayerTurn)
            && (s.rematchDeadline.Some? <==> s.status == Resetting)
            && (!r.dealer.holeHidden <==> s.status == Resetting)
            && (r.player.status == Active <==> s.status == PlayerTurn)
            && (r.player.status == Bust <==> IsBust(r.player.hand))
            && (r.player.status == Blackjack <==> IsBlackjack(r.player.hand))
            && (s.status == PlayerTurn ==> |r.dealer.hand| == 2)
  {
    StoredRecordIsGood(es, sid);
    HardBounds(RecordAfter(es, sid).player.hand);
  }

  /** Settled exactly once: one round log, an outcome and the scores are there just when the status says so. */
  lemma SettledExactlyWhenResetting(es: seq<Event>, sid: Sid)
    requires Stored(es, sid)
    ensures var r := RecordAfter(es, sid); var settled := r.sess.status == Resetting;
            && |r.rounds| == (if settled then 1 else 0)
            && (r.player.outcome.Some? <==> settled)
            && (r.player.finalScore.Some? <==> settled)
            && (r.dealer.finalScore.Some? <==> settled)
  {
    StoredRecordIsGood(es, sid);
  }

  /** Once settled, a session keeps its result and both its hands for as long as it is stored. */
  lemma SettlementIsFinal(es: seq<Event>, more: seq<Event>, sid: Sid)
    requires Stored(es, sid) && RecordAfter(es, sid).sess.status == Resetting
    requires sid in Run(Run(INIT, es), more).db.recs
    ensures var r, r' := RecordAfter(es, sid), Run(Run(INIT, es), more).db.recs[sid];
            && r'.sess.status == Resetting && r'.rounds == r.rounds
            && r'.player == r.player && r'.dealer == r.dealer
  {
    InitIsGood();
    RunKeepsInv(INIT, es);
    RunKeepsInv(Run(INIT, es), more);
  }

  /** A session never changes its deck, its round number or its player, and its version never falls. */
  lemma SessionsOnlyGrow(es: seq<Event>, more: seq<Event>, sid: Sid)
    requires Stored(es, sid) && sid in Run(Run(INIT, es), more).db.recs
    ensures var r, r' := RecordAfter(es, sid), Run(Run(INIT, es), more).db.recs[sid];
            && r'.sess.deck == r.sess.deck && r'.sess.roundNo == r.sess.roundNo
            && r'.player.userId == r.player.userId && r'.sess.version >= r.sess.version
            && r.logs.Keys <= r'.logs.Keys
  {
    InitIsGood();
    RunKeepsInv(INIT, es);
    RunKeepsInv(Run(INIT, es), more);
  }

  /** The result that is stored is right: a loss by time, or the outcome of the two stored hands. */
  lemma ResultsAreRight(es: seq<Event>, sid: Sid)
    requires Stored(es, sid) && RecordAfter(es, sid).sess.status == Resetting
    ensures |RecordAfter(es, sid).rounds| == 1
    ensures var r := RecordAfter(es, sid); var log := r.rounds[0];
            && r.player.finalScore == Some(Value(r.player.hand)) && r.dealer.finalScore == Some(Value(r.dealer.hand))
            && r.player.outcome == Some(log.outcome)
            && (log.timeForfeit ==> log.outcome == Lose && |r.dealer.hand| == 2)
            && (!log.timeForfeit ==> 17 <= Value(r.dealer.hand) <= 26)
            && (!log.timeForfeit ==> (log.outcome == Win <==>
                  !IsBust(r.player.hand) && Strength(r.player.hand) > Strength(r.dealer.hand)))
            && (r.player.status == Bust ==> log.outcome == Lose)
            && (r.player.status == Blackjack ==> log.outcome == Win || log.outcome == Push)
  {
    StoredRecordIsGood(es, sid);
    var r := RecordAfter(es, sid);
    OutcomeComparesStrength(r.player.hand, r.dealer.hand);
    if IsBlackjack(r.player.hand) {
      NaturalNeverLoses(r.player.hand, r.dealer.hand);
    }
  }

  /** The version counts the cards and the stand; the HIT logs count the cards the player drew. */
  lemma VersionCountsActions(es: seq<Event>, sid: Sid)
    requires Stored(es, sid)
    ensures var r := RecordAfter(es, sid);
            && Count(r.logs, IsHit) == |r.player.hand| - 2
            && Count(r.logs, IsStand) + Count(r.logs, IsForfeit) == (if r.player.status == Stand then 1 else 0)
            && (r.sess.status != Resetting ==>
                  r.sess.version == r.sess.drawIndex - 3 + (if r.player.status == Stand then 1 else 0))
  {
    StoredRecordIsGood(es, sid);
  }

  // ---- actions take effect at most once ----

  /** The step at which the given action takes effect. */
  ghost predicate Accepted(s: State, e: Event, op: Op) { op.DoPlay? && op in Effect(s, e) && e.Commit? }

  lemma AcceptedLeavesTraces(s: State, e: Event, op: Op)
    requires Inv(s) && Accepted(s, e, op)
    ensures op.sid in s.db.recs && op.sid in Do(s, e).db.recs
    ensures s.db.recs[op.sid].sess.version == op.expected
    ensures LogKey(op.user, op.actionId) !in s.db.recs[op.sid].logs
    ensures Do(s, e).db.recs[op.sid].sess.version == op.expected + 1
    ensures LogKey(op.user, op.actionId) in Do(s, e).db.recs[op.sid].logs
  {
    var c := s.calls[e.cid];
    var r := s.db.recs[c.sid];
    CommitIsAtomic(c, s.db);
    PlayRecordAnswers(r, op.user, op.expected, op.actionId, op.hit, op.at);
  }

  /**
   However often an action is sent and however the sends interleave, at most one takes effect:
   never two with the same action id, and never two that name the same version.
   */
  lemma AcceptedAtMostOnce(es: seq<Event>, e: Event, op: Op, more: seq<Event>, e2: Event, op2: Op)
    requires Accepted(Run(INIT, es), e, op)
    requires Accepted(Run(Do(Run(INIT, es), e), more), e2, op2)
    requires op2.sid == op.sid
    ensures op2.expected != op.expected
    ensures op2.user != op.user || op2.actionId != op.actionId
  {
    var s := Run(INIT, es);
    InitIsGood();
    RunKeepsInv(INIT, es);
    AcceptedLeavesTraces(s, e, op);
    StepKeepsInv(s, e);
    RunKeepsInv(Do(s, e), more);
    AcceptedLeavesTraces(Run(Do(s, e), more), e2, op2);
  }
}
