/** Every operation on one record keeps the record's invariant, and none fails on a good record. */
module RoundSteps {
  import opened Wrappers
  import opened Cards
  import opened Shuffle
  import opened Hands
  import opened Policies
  import opened Rounds
  import opened RoundInvariant
  import opened SessionStore

  // ---- a new round ----

  lemma DealFromFullDeck(roundNo: int, user: string, deck: seq<StoredCard>, now: Time)
    requires FullDeck(deck) && |deck| == DECK_SIZE
    ensures InitialDeal(EmptyTable(roundNo, user, deck, now)) ==
            Ok(Table3(SessionRow(roundNo, Dealing, 1, 1, deck, 4, None, None, now),
                      PlayerRow(user, 1, [deck[0], deck[2]], Active, None, None),
                      DealerRow([deck[1], deck[3]], true, None)))
  {
    assert [] + [deck[0]] + [deck[2]] == [deck[0], deck[2]];
    assert [] + [deck[1]] + [deck[3]] == [deck[1], deck[3]];
  }

  /** Dealing from a full deck succeeds and starts a good record, in a turn or past a natural. */
  lemma NewRoundIsGood(roundNo: int, user: string, deck: seq<StoredCard>, now: Time)
    requires FullDeck(deck) && |deck| == DECK_SIZE
    ensures NewRound(roundNo, user, deck, now).Ok?
    ensures var r := FirstRecord(NewRound(roundNo, user, deck, now).value);
            && RecordInv(r) && r.sess.roundNo == roundNo && r.sess.version == 1 && r.sess.createdAt == now
            && r.player.userId == user && r.sess.deck == deck && r.sess.status != Resetting
  {
    DealFromFullDeck(roundNo, user, deck, now);
    var r := FirstRecord(NewRound(roundNo, user, deck, now).value);
    TwoCardsAtMost21(r.player.hand);
    assert deck[4..4] == [];
    CountAtMostAll(r.logs, IsHit);
    CountAtMostAll(r.logs, IsStand);
    CountAtMostAll(r.logs, IsForfeit);
  }

  // ---- cards drawn from the deck ----

  /** The deck never runs out: a stored session has at least thirteen cards left. */
  lemma DrawSucceeds(t: Table3)
    requires TableInv(t)
    ensures DrawCard(t.sess) == Ok(Drawn(t.sess.(drawIndex := t.sess.drawIndex + 1), t.sess.deck[t.sess.drawIndex]))
    ensures |t.player.hand| <= 22 && |t.dealer.hand| <= 17
    ensures |t.sess.deck| - t.sess.drawIndex >= 13
  {
    DrawnUpToSize(t.player.hand, 21);
    DrawnUpToSize(t.dealer.hand, 16);
  }

  lemma PlayerDraws(t: Table3)
    requires TableInv(t) && |t.dealer.hand| == 2 && !IsBust(t.player.hand)
    ensures var d := DrawCard(t.sess).value;
            TableInv(t.(sess := d.sess, player := t.player.(hand := t.player.hand + [d.card])))
  {
    DrawSucceeds(t);
    var d := DrawCard(t.sess).value;
    var deck, n, k := t.sess.deck, |t.player.hand|, t.sess.drawIndex;
    DrawKeepsDrawnUpTo(t.player.hand, 21, d.card);
    DrawnUpToSize(t.player.hand + [d.card], 21);
    assert deck[4..n + 2] + [deck[k]] == deck[4..n + 3];
    assert deck[n + 2..k] == [] == deck[n + 3..k + 1];
    assert t.player.hand + [d.card] == [deck[0], deck[2]] + deck[4..n + 3];
  }

  lemma DealerCardFits(t: Table3)
    requires Layout(t) && t.sess.drawIndex < 39
    ensures Layout(t.(sess := t.sess.(drawIndex := t.sess.drawIndex + 1),
                      dealer := t.dealer.(hand := t.dealer.hand + [t.sess.deck[t.sess.drawIndex]])))
  {
    var deck, n, k := t.sess.deck, |t.player.hand|, t.sess.drawIndex;
    assert deck[n + 2..k] + [deck[k]] == deck[n + 2..k + 1];
    assert t.dealer.hand + [deck[k]] == [deck[1], deck[3]] + deck[n + 2..k + 1];
  }

  lemma DealerDrawsOne(t: Table3)
    requires TableInv(t) && DealerDraws(t.dealer.hand)
    ensures var d := DrawCard(t.sess).value;
            TableInv(t.(sess := d.sess, dealer := t.dealer.(hand := t.dealer.hand + [d.card])))
  {
    DrawSucceeds(t);
    DealerDrawsBelow17(t.dealer.hand);
    var d := DrawCard(t.sess).value;
    DrawKeepsDrawnUpTo(t.dealer.hand, 16, d.card);
    DrawnUpToSize(t.dealer.hand + [d.card], 16);
    DrawnUpToSize(t.player.hand, 21);
    DealerCardFits(t);
  }

  // ---- HIT and STAND ----

  ghost predicate MayPlay(r: Record) { RecordInv(r) && r.sess.status == PlayerTurn }

  /** HIT in one piece: the card, then the end of the turn or a new deadline, then the version. */
  lemma HitRows(s: SessionRow, p: PlayerRow, now: Time)
    requires s.status == PlayerTurn && DrawCard(s).Ok?
    ensures var d := DrawCard(s).value;
            var hand := p.hand + [d.card];
            var over := IsBust(hand) || IsBlackjack(hand);
            PlayRows(s, p, true, now) == Ok(Played(
              d.sess.(status := if over then DealerTurn else PlayerTurn,
                      turnDeadline := if over then None else Some(now + PLAYER_TURN_TIMEOUT),
                      version := s.version + 1),
              p.(hand := hand,
                 status := if IsBust(hand) then Bust else if IsBlackjack(hand) then Blackjack else p.status)))
  {
  }

  lemma SameCards(t: Table3, t': Table3)
    requires TableInv(t)
    requires t'.sess.deck == t.sess.deck && t'.sess.drawIndex == t.sess.drawIndex && t'.sess.turnSeat == t.sess.turnSeat
    requires t'.player.hand == t.player.hand && t'.player.seatNo == t.player.seatNo && t'.dealer.hand == t.dealer.hand
    ensures TableInv(t')
  {
  }

  /** On a good record HIT and STAND always work out, the version moves by one, and HIT never finds a natural. */
  lemma PlayRowsAreGood(r: Record, hit: bool, now: Time)
    requires MayPlay(r)
    ensures PlayRows(r.sess, r.player, hit, now).Ok?
    ensures var p := PlayRows(r.sess, r.player, hit, now).value;
            var t := Table3(p.sess, p.player, r.dealer);
            && TableInv(t) && StatusInv(t, r.rounds)
            && p.sess.version == r.sess.version + 1
            && SameRound(r.sess, p.sess)
            && p.player.userId == r.player.userId && p.player.status != Blackjack
            && |p.player.hand| == |r.player.hand| + (if hit then 1 else 0)
            && (p.player.status == Stand <==> !hit)
  {
    var t := r.Table();
    DrawSucceeds(t);
    if hit {
      var d := DrawCard(t.sess).value;
      var dealt := t.(sess := d.sess, player := t.player.(hand := t.player.hand + [d.card]));
      PlayerDraws(t);
      HitRows(t.sess, t.player, now);
      var p := PlayRows(t.sess, t.player, true, now).value;
      SameCards(dealt, Table3(p.sess, p.player, t.dealer));
    } else {
      var p := PlayRows(t.sess, t.player, false, now).value;
      SameCards(t, Table3(p.sess, p.player, t.dealer));
    }
  }

  lemma PlayLogs(r: Record, hit: bool, now: Time, key: LogKey)
    requires MayPlay(r) && key !in r.logs
    ensures PlayRows(r.sess, r.player, hit, now).Ok?
    ensures var p := PlayRows(r.sess, r.player, hit, now).value;
            var r' := Record(p.sess, p.player, r.dealer, r.rounds, r.logs[key := PlayPayload(hit, r.sess.version)]);
            LogsInv(r') && OnePlayPerVersion(r')
  {
    PlayRowsAreGood(r, hit, now);
    var payload := PlayPayload(hit, r.sess.version);
    CountNew(r.logs, key, payload, IsHit);
    CountNew(r.logs, key, payload, IsStand);
    CountNew(r.logs, key, payload, IsForfeit);
  }

  /** What a HIT or STAND can answer: it succeeds exactly when its checks pass, whatever the deck. */
  lemma PlayRecordAnswers(r: Record, user: string, expected: int, actionId: string, hit: bool, now: Time)
    requires RecordInv(r)
    ensures var key, a := LogKey(user, actionId), PlayRecord(r, user, expected, actionId, hit, now);
            a.Ok? <==> expected == r.sess.version && user == r.player.userId
                       && r.sess.status == PlayerTurn && key !in r.logs
    ensures var a := PlayRecord(r, user, expected, actionId, hit, now);
            a.Ok? ==> MayPlay(r) && RecordInv(a.value)
                      && a.value.sess.version == r.sess.version + 1
                      && SameRound(r.sess, a.value.sess)
                      && a.value.player.userId == r.player.userId
                      && a.value.logs == r.logs[LogKey(user, actionId) := PlayPayload(hit, expected)]
  {
    if r.sess.status == PlayerTurn {
      PlayRowsAreGood(r, hit, now);
      if LogKey(user, actionId) !in r.logs {
        PlayLogs(r, hit, now, LogKey(user, actionId));
      }
    }
  }

  /** Repeating an accepted action afterwards is a version conflict, not a replay. */
  lemma SequentialRetryConflicts(r: Record, user: string, expected: int, actionId: string, hit: bool, now: Time,
                                 hit': bool, actionId': string, now': Time)
    requires RecordInv(r) && PlayRecord(r, user, expected, actionId, hit, now).Ok?
    ensures PlayRecord(PlayRecord(r, user, expected, actionId, hit, now).value, user, expected, actionId', hit', now')
            == Err(VersionConflict)
  {
    PlayRecordAnswers(r, user, expected, actionId, hit, now);
  }

  // ---- the timed-out turn ----

  lemma ForfeitRowsAreGood(r: Record, now: Time)
    requires MayPlay(r) && now != 0
    ensures ForfeitRows(r.Table(), now).Ok?
    ensures var s := ForfeitRows(r.Table(), now).value;
            var t := Table3(s.sess, s.player, s.dealer);
            && TableInv(t) && StatusInv(t, [s.log]) && s.log.timeForfeit
            && s.sess.version == r.sess.version + 1 && SameRound(r.sess, s.sess)
            && s.player.userId == r.player.userId
            && s.sess.rematchDeadline == Some(now + REMATCH_DEADLINE)
            && s.player.hand == r.player.hand
  {
  }

  /** A due turn ends in a loss by time, unless somebody has used the identifier of this very log entry. */
  lemma ForfeitRecordAnswers(sid: Sid, r: Record, now: Time)
    requires RecordInv(r) && now != 0
    ensures var a := ForfeitRecord(sid, r, now);
            var key := ForfeitKey(sid, r.player, r.sess.version + 1);
            if !TurnIsDue(r.sess, now) then a == Ok(r)
            else if key in r.logs then a == Err(UniqueViolation)
            else a.Ok? && RecordInv(a.value) && a.value.sess.status == Resetting
                 && a.value.player.outcome == Some(Lose)
                 && a.value.sess.version == r.sess.version + 1 && SameRound(r.sess, a.value.sess)
                 && a.value.player.userId == r.player.userId
                 && a.value.sess.rematchDeadline == Some(now + REMATCH_DEADLINE)
                 && a.value.logs == r.logs[key := ForfeitAt(r.sess.version + 1)]
  {
    if TurnIsDue(r.sess, now) {
      ForfeitRowsAreGood(r, now);
      var key := ForfeitKey(sid, r.player, r.sess.version + 1);
      if key !in r.logs {
        ForfeitLogs(sid, r, now);
      }
    }
  }

  lemma ForfeitLogs(sid: Sid, r: Record, now: Time)
    requires MayPlay(r) && now != 0 && ForfeitKey(sid, r.player, r.sess.version + 1) !in r.logs
    ensures ForfeitRows(r.Table(), now).Ok?
    ensures var s := ForfeitRows(r.Table(), now).value;
            var key, v := ForfeitKey(sid, r.player, r.sess.version + 1), r.sess.version + 1;
            var r' := Record(s.sess, s.player, s.dealer, [s.log], r.logs[key := ForfeitAt(v)]);
            LogsInv(r') && OnePlayPerVersion(r')
  {
    ForfeitRowsAreGood(r, now);
    var key, payload := ForfeitKey(sid, r.player, r.sess.version + 1), ForfeitAt(r.sess.version + 1);
    CountNew(r.logs, key, payload, IsHit);
    CountNew(r.logs, key, payload, IsStand);
    CountNew(r.logs, key, payload, IsForfeit);
  }

  // ---- one dealer step ----

  lemma DealerRowsAreGood(r: Record, now: Time)
    requires RecordInv(r) && r.sess.status == DealerTurn && now != 0
    ensures DealerRows(r.Table(), now).Ok?
    ensures var s := DealerRows(r.Table(), now).value;
            var t := Table3(s.sess, s.player, s.dealer);
            && TableInv(t) && StatusInv(t, DealerRounds(s))
            && (s.log.Some? <==> Value(r.dealer.hand) >= 17)
            && (s.log.Some? ==> !s.log.value.timeForfeit
                                && s.sess.rematchDeadline == Some(now + REMATCH_DEADLINE))
            && (s.log.None? ==> s.sess.status == DealerTurn && Hard(s.dealer.hand) > Hard(r.dealer.hand)
                                && s.player == r.player)
            && s.sess.version == r.sess.version + 1 && SameRound(r.sess, s.sess)
            && s.player.userId == r.player.userId
            && s.player.hand == r.player.hand && s.player.status == r.player.status
  {
    DealerDrawsBelow17(r.dealer.hand);
    if DealerDraws(r.dealer.hand) {
      DrawSucceeds(r.Table());
      DealerDrawsOne(r.Table());
      DrawAdds(r.dealer.hand, DrawCard(r.sess).value.card);
    } else {
      DealerValueAtMost26(r.dealer.hand);
    }
  }

  /** The result of one dealer step on a record whose dealer is to move. */
  ghost predicate DealerAnswer(r: Record, r': Record, now: Time) {
    && RecordInv(r')
    && r'.sess.version == r.sess.version + 1 && SameRound(r.sess, r'.sess)
    && r'.player.userId == r.player.userId
    && r'.logs == r.logs
    && if Value(r.dealer.hand) >= 17
       then r'.sess.status == Resetting && r'.sess.rematchDeadline == Some(now + REMATCH_DEADLINE)
       else r'.sess.status == DealerTurn && Hard(r'.dealer.hand) > Hard(r.dealer.hand)
  }

  function DealerRounds(s: DealerStep): seq<RoundLog> {
    if s.log.Some? then [s.log.value] else []
  }

  lemma DealerLogs(r: Record, s: DealerStep)
    requires LogsInv(r) && OnePlayPerVersion(r) && r.rounds == []
    requires s.player.hand == r.player.hand && s.player.status == r.player.status
    requires s.sess.version == r.sess.version + 1 && (s.log.Some? ==> !s.log.value.timeForfeit)
    ensures var r' := Record(s.sess, s.player, s.dealer, DealerRounds(s), r.logs);
            LogsInv(r') && OnePlayPerVersion(r')
  {
  }

  lemma DealerCommits(r: Record, s: DealerStep)
    requires r.rounds == [] && (s.log.None? ==> s.player == r.player)
    ensures CommitDealer(r, s, r.sess.version) == Ok(Record(s.sess, s.player, s.dealer, DealerRounds(s), r.logs))
  {
    if s.log.Some? {
      assert r.rounds + [s.log.value] == [s.log.value];
    }
  }

  /** A dealer step always succeeds: it draws below 17 and otherwise settles the round. */
  lemma DealerRecordAnswers(r: Record, now: Time)
    requires RecordInv(r) && now != 0
    ensures DealerRecord(r, now).Ok?
    ensures if r.sess.status == DealerTurn
            then DealerAnswer(r, DealerRecord(r, now).value, now)
            else DealerRecord(r, now).value == r
  {
    if r.sess.status == DealerTurn {
      DealerRowsAreGood(r, now);
      var s := DealerRows(r.Table(), now).value;
      DealerCommits(r, s);
      DealerLogs(r, s);
    }
  }
}
