/** What each accepted operation makes of a session, field by field and in figures. */
module RecordLaws {
  import opened Wrappers
  import opened Numerals
  import opened Cards
  import opened Shuffle
  import opened Hands
  import opened Policies
  import opened Rounds
  import opened RoundInvariant
  import opened SessionStore
  import opened RoundSteps

  /** A new round: cards in turn, fifteen seconds for the player, or straight to the dealer on a natural. */
  lemma DealLaw(roundNo: int, user: string, deck: seq<StoredCard>, now: Time)
    requires GoodDeck(deck)
    ensures NewRound(roundNo, user, deck, now).Ok?
    ensures var hand := [deck[0], deck[2]];
            var natural := Value(hand) == 21;
            FirstRecord(NewRound(roundNo, user, deck, now).value) == Record(
              SessionRow(roundNo, if natural then DealerTurn else PlayerTurn, 1, 1, deck, 4,
                         if natural then None else Some(now + 15_000), None, now),
              PlayerRow(user, 1, hand, if natural then Blackjack else Active, None, None),
              DealerRow([deck[1], deck[3]], true, None), [], map[])
  {
    DealFromFullDeck(roundNo, user, deck, now);
  }

  /** HIT: the next card of the deck, and fifteen more seconds unless the hand is bust. */
  lemma HitLaw(r: Record, user: string, expected: int, actionId: string, now: Time)
    requires RecordInv(r) && PlayRecord(r, user, expected, actionId, true, now).Ok?
    ensures 0 <= r.sess.drawIndex < |r.sess.deck|
    ensures var hand := r.player.hand + [r.sess.deck[r.sess.drawIndex]];
            var bust := Value(hand) > 21;
            PlayRecord(r, user, expected, actionId, true, now) == Ok(Record(
              r.sess.(drawIndex := r.sess.drawIndex + 1, version := expected + 1,
                      status := if bust then DealerTurn else PlayerTurn,
                      turnDeadline := if bust then None else Some(now + 15_000)),
              r.player.(hand := hand, status := if bust then Bust else Active),
              r.dealer, r.rounds, r.logs[LogKey(user, actionId) := HitAt(expected)]))
  {
    PlayRecordAnswers(r, user, expected, actionId, true, now);
    DrawSucceeds(r.Table());
    HitRows(r.sess, r.player, now);
    OnTurn(r);
  }

  lemma OnTurn(r: Record)
    requires RecordInv(r) && r.sess.status == PlayerTurn
    ensures |r.player.hand| >= 2 && r.player.status == Active
  {
  }

  /** STAND: the dealer's turn, with the same cards. */
  lemma StandLaw(r: Record, user: string, expected: int, actionId: string, now: Time)
    requires RecordInv(r) && PlayRecord(r, user, expected, actionId, false, now).Ok?
    ensures PlayRecord(r, user, expected, actionId, false, now) == Ok(Record(
              r.sess.(status := DealerTurn, turnDeadline := None, version := expected + 1),
              r.player.(status := Stand),
              r.dealer, r.rounds, r.logs[LogKey(user, actionId) := StandAt(expected)]))
  {
    PlayRecordAnswers(r, user, expected, actionId, false, now);
  }

  /** Why a HIT or STAND is refused: by its version, its sender, the state of the round or its identifier, in that order. */
  lemma PlayRefusals(r: Record, user: string, expected: int, actionId: string, hit: bool, now: Time)
    requires RecordInv(r) && PlayRecord(r, user, expected, actionId, hit, now).Err?
    ensures PlayRecord(r, user, expected, actionId, hit, now).error ==
            if expected <= 0 then InvalidVersion
            else if expected != r.sess.version then VersionConflict
            else if user != r.player.userId then ForbiddenAction
            else if r.sess.status != PlayerTurn then NotPlayerTurn
            else DuplicateAction
  {
    PlayRecordAnswers(r, user, expected, actionId, hit, now);
    if LogKey(user, actionId) in r.logs {
      var p := r.logs[LogKey(user, actionId)];
      assert IsPlay(p) ==> p.version < r.sess.version;
    }
  }

  /** The rows of a finished round: the hole card open, both scores, thirty seconds for the rematch. */
  function Finished(r: Record, outcome: Outcome, forfeit: bool, now: Time): Record {
    var pScore, dScore := Value(r.player.hand), Value(r.dealer.hand);
    Record(
      r.sess.(status := Resetting, turnDeadline := None, rematchDeadline := Some(now + 30_000), version := r.sess.version + 1),
      r.player.(outcome := Some(outcome), finalScore := Some(pScore)),
      r.dealer.(holeHidden := false, finalScore := Some(dScore)),
      [RoundLog(r.sess.roundNo, pScore, dScore, outcome, forfeit, now)], r.logs)
  }

  lemma FirstRoundLog(log: RoundLog)
    ensures AddRound([], log) == Ok([log])
  {
    assert [] + [log] == [log];
  }

  lemma SettledRows(t: Table3, outcome: Outcome, forfeit: bool, now: Time)
    requires t.sess.status == DealerTurn && now != 0
    ensures Settle(t, outcome, forfeit, now) == Ok(Settled(
              t.sess.(status := Resetting, rematchDeadline := Some(now + 30_000)),
              t.player.(outcome := Some(outcome), finalScore := Some(Value(t.player.hand))),
              t.dealer.(holeHidden := false, finalScore := Some(Value(t.dealer.hand))),
              RoundLog(t.sess.roundNo, Value(t.player.hand), Value(t.dealer.hand), outcome, forfeit, now)))
  {
  }

  /** A turn that has timed out: the player stands, and has lost. */
  lemma ForfeitLaw(sid: Sid, r: Record, now: Time)
    requires RecordInv(r) && now != 0 && r.sess.status == PlayerTurn
    requires r.sess.turnDeadline.Some? && r.sess.turnDeadline.value <= now
    requires LogKey(r.player.userId, "time-forfeit:" + sid + ":" + Number(r.sess.version + 1)) !in r.logs
    ensures var id := "time-forfeit:" + sid + ":" + Number(r.sess.version + 1);
            ForfeitRecord(sid, r, now) == Ok(
              Finished(r.(player := r.player.(status := Stand)), Lose, true, now)
              .(logs := r.logs[LogKey(r.player.userId, id) := ForfeitAt(r.sess.version + 1)]))
  {
    var t := Table3(r.sess.(status := DealerTurn, turnDeadline := None), r.player.(status := Stand), r.dealer);
    SettledRows(t, Lose, true, now);
    FirstRoundLog(RoundLog(r.sess.roundNo, Value(r.player.hand), Value(r.dealer.hand), Lose, true, now));
    NoRoundsYet(r);
  }

  lemma NoRoundsYet(r: Record)
    requires RecordInv(r) && r.sess.status != Resetting
    ensures r.rounds == [] && (r.sess.status == DealerTurn ==> r.sess.turnDeadline == None)
  {
  }

  /** One card for a dealer below 17. */
  lemma DealerDrawLaw(r: Record, now: Time)
    requires RecordInv(r) && now != 0 && r.sess.status == DealerTurn && Value(r.dealer.hand) < 17
    ensures 0 <= r.sess.drawIndex < |r.sess.deck|
    ensures DealerRecord(r, now) == Ok(r.(
              sess := r.sess.(drawIndex := r.sess.drawIndex + 1, version := r.sess.version + 1),
              dealer := r.dealer.(hand := r.dealer.hand + [r.sess.deck[r.sess.drawIndex]])))
  {
    DealerRecordAnswers(r, now);
    DealerDrawsBelow17(r.dealer.hand);
    DrawSucceeds(r.Table());
  }

  /** The result for a dealer at 17 or more. */
  lemma DealerSettleLaw(r: Record, now: Time)
    requires RecordInv(r) && now != 0 && r.sess.status == DealerTurn && Value(r.dealer.hand) >= 17
    ensures DealerRecord(r, now) == Ok(Finished(r, ResolveRoundOutcome(r.player.hand, r.dealer.hand), false, now))
  {
    DealerDrawsBelow17(r.dealer.hand);
    var outcome := ResolveRoundOutcome(r.player.hand, r.dealer.hand);
    SettledRows(r.Table(), outcome, false, now);
    FirstRoundLog(RoundLog(r.sess.roundNo, Value(r.player.hand), Value(r.dealer.hand), outcome, false, now));
    NoRoundsYet(r);
  }
}
