/**
 What the server does not promise: an action sent again after the rematch takes effect a second
 time, and a refusal may release a room whose round is running. Each with its exact condition and
 with a run that gets there.
 */
module Findings {
  import opened Wrappers
  import opened Cards
  import opened Shuffle
  import opened Hands
  import opened Policies
  import opened Rounds
  import opened RoundInvariant
  import opened SessionStore
  import opened RoundSteps
  import opened AtomicSessions
  import opened Rooms
  import opened RoomInvariant
  import opened RoomSteps
  import opened CallHalves
  import opened RoomTables
  import opened RoomRuns

  // ---- the same action again ----

  /** A session other than c is current, in the player's turn, at that version, and does not know the action. */
  ghost predicate TakesItAgain(w: World, c: Sid, user: string, version: int, actionId: string) {
    w.room.current.Some? && w.room.current.value != c && w.room.current.value in w.db.recs &&
      var r := w.db.recs[w.room.current.value];
      r.sess.status == PlayerTurn && r.sess.version == version && LogKey(user, actionId) !in r.logs
  }

  lemma PlayAccepted(w: World, user: string, version: int, actionId: string, hit: bool)
    requires TablesInv(w)
    ensures var a := PlayerTurnCall(w, user, version, actionId, hit);
            a.Ok? <==> w.room.current.Some? && w.room.current.value in w.db.recs
                       && user == w.room.host && actionId != ""
                       && w.db.recs[w.room.current.value].sess.status == PlayerTurn
                       && w.db.recs[w.room.current.value].sess.version == version
                       && LogKey(user, actionId) !in w.db.recs[w.room.current.value].logs
    ensures var a := PlayerTurnCall(w, user, version, actionId, hit);
            a.Ok? ==> var c := w.room.current.value;
                      && c in a.value.db.recs && a.value.room.current == Some(c)
                      && a.value.db.recs[c].sess.version == version + 1
                      && a.value.db.recs[c].logs == w.db.recs[c].logs[LogKey(user, actionId) := PlayPayload(hit, version)]
  {
    if w.room.current.Some? && w.room.current.value in w.db.recs {
      var r := w.db.recs[w.room.current.value];
      RecordOf(w.db, w.room.current.value);
      CurrentVersionIsPositive(r);
      PlayRecordAnswers(r, user, version, actionId, hit, w.db.now);
    }
  }

  /**
   A HIT or STAND that has been accepted is accepted once more, after any further calls, exactly when
   another session is then current that it fits. It carries no session, and every session counts its
   versions and its action ids afresh.
   */
  lemma SameActionAgain(w: World, user: string, version: int, actionId: string, hit: bool, calls: seq<RoomCall>)
    requires TablesInv(w) && PlayerTurnCall(w, user, version, actionId, hit).Ok?
    ensures w.room.current.Some?
    ensures var w2 := RoomRun(PlayerTurnCall(w, user, version, actionId, hit).value, calls);
            PlayerTurnCall(w2, user, version, actionId, hit).Ok?
            <==> TakesItAgain(w2, w.room.current.value, user, version, actionId)
  {
    PlayAccepted(w, user, version, actionId, hit);
    var c, w1 := w.room.current.value, PlayerTurnCall(w, user, version, actionId, hit).value;
    CallKeepsTables(w, Play(user, version, actionId, hit));
    RunKeepsTables(w1, calls);
    var w2 := RoomRun(w1, calls);
    PlayAccepted(w2, user, version, actionId, hit);
    assert c in w2.db.recs ==> Grows(w1.db.recs[c], w2.db.recs[c]);
  }

  /** While its own session is current it is never accepted again. */
  lemma NeverAgainInItsRound(w: World, user: string, version: int, actionId: string, hit: bool, calls: seq<RoomCall>)
    requires TablesInv(w) && PlayerTurnCall(w, user, version, actionId, hit).Ok?
    requires RoomRun(PlayerTurnCall(w, user, version, actionId, hit).value, calls).room.current == w.room.current
    ensures PlayerTurnCall(RoomRun(PlayerTurnCall(w, user, version, actionId, hit).value, calls),
                           user, version, actionId, hit).Err?
  {
    SameActionAgain(w, user, version, actionId, hit, calls);
  }

  // ---- an agreement, seen from the new session ----

  /** The tables once the next round after l is there: l has been bumped, the rest is as before. */
  ghost predicate Continued(db: Database, db': Database, l: Sid, r': Record, sid: Sid, deck: seq<StoredCard>) {
    && db'.now == db.now && db'.used == db.used + {sid}
    && db'.recs.Keys == db.recs.Keys + {sid} && sid !in db.used
    && Dealt(db'.recs[sid], deck) && db'.recs[sid].sess.createdAt == db.now
    && l in db.recs && db'.recs[l] == r'
    && (forall s :: s in db.recs && s != l ==> db'.recs[s] == db.recs[s])
  }

  lemma OpenedContinues(db: Database, l: Sid, n: NewSession)
    requires l in db.recs && db.recs.Keys <= db.used && GoodDeck(n.deck)
    requires OpenNextRound(db, l, db.recs[l].sess, n).Ok?
    ensures Continued(db, OpenNextRound(db, l, db.recs[l].sess, n).value, l,
                      db.recs[l].(sess := Bumped(db.recs[l].sess)), n.sid, n.deck)
  {
    var r0 := OpenNextIs(db, l, n);
    CreatedIsDealt(BumpedIn(db, l, db.recs[l].sess), n, db.recs[l].sess.roundNo + 1);
  }

  lemma LogContinues(db: Database, db1: Database, l: Sid, r1: Record, sid: Sid, deck: seq<StoredCard>,
                     key: LogKey, payload: Payload)
    requires Continued(db, db1, l, r1, sid, deck) && key !in r1.logs && l != sid
    ensures AddLog(db1, l, key, payload).Ok?
    ensures Continued(db, AddLog(db1, l, key, payload).value, l, LogOf(r1, key, payload), sid, deck)
  {
  }

  /** After an agreement the new session is current and as dealt, and the old one is one version further. */
  lemma AgreementDeals(w: World, user: string, expected: int, actionId: string, l: Sid, sid: Sid, deck: seq<StoredCard>)
    requires WorldInv(w) && IsLatest(w.db.recs, Some(l)) && GoodDeck(deck) && sid !in w.db.used
    requires VoteFresh(w, user, true, expected, actionId, l) && IsNewest(w.db.recs, l)
    ensures var a := VoteRematch(w, user, true, expected, actionId, Some(l), sid, deck);
            && a.Ok? && WorldInv(a.value) && a.value.room.current == Some(sid)
            && a.value.seat == w.seat && a.value.room.host == w.room.host
            && Continued(w.db, a.value.db, l, LogOf(w.db.recs[l].(sess := Bumped(w.db.recs[l].sess)),
                                                    LogKey(user, actionId), VoteAt(true, expected)), sid, deck)
  {
    var n, r1 := NewSession(sid, user, deck), w.db.recs[l].(sess := Bumped(w.db.recs[l].sess));
    AgreementKeeps(w, user, expected, actionId, Some(l), sid, deck);
    AgreementResult(w, user, expected, actionId, Some(l), sid, deck);
    RecordOf(w.db, l);
    BumpKeepsRecord(w.db.recs[l], w.db.now);
    var a := OpenNextRound(w.db, l, w.db.recs[l].sess, n);
    OpenedContinues(w.db, l, n);
    LogContinues(w.db, a.value, l, r1, sid, deck, LogKey(user, actionId), VoteAt(true, expected));
  }

  /**
   The first action of a finished round, delivered once more after the rematch, is accepted exactly
   when the new round deals no natural.
   */
  lemma NextRoundRepeatsAction(w: World, user: string, actionId: string, hit: bool, expected: int, voteId: string,
                               l: Sid, sid: Sid, deck: seq<StoredCard>)
    requires WorldInv(w) && IsLatest(w.db.recs, Some(l)) && GoodDeck(deck) && sid !in w.db.used
    requires VoteFresh(w, user, true, expected, voteId, l) && IsNewest(w.db.recs, l)
    requires actionId != ""
    requires LogKey(user, actionId) in w.db.recs[l].logs && w.db.recs[l].logs[LogKey(user, actionId)] == PlayPayload(hit, 1)
    ensures var a := VoteRematch(w, user, true, expected, voteId, Some(l), sid, deck);
            a.Ok? && (PlayerTurnCall(a.value, user, 1, actionId, hit).Ok? <==> !IsBlackjack([deck[0], deck[2]]))
  {
    AgreementDeals(w, user, expected, voteId, l, sid, deck);
    var w' := VoteRematch(w, user, true, expected, voteId, Some(l), sid, deck).value;
    PlayAccepted(w', user, 1, actionId, hit);
  }

  // ---- a refusal on a tie ----

  /**
   After an agreement a search may still find the finished session exactly if the clock has not moved
   since that was created. A refusal that reaches it then releases the room from its running round.
   */
  lemma TieLosesRound(w: World, user: string, expected: int, agreeId: string, refuseId: string,
                      l: Sid, sid: Sid, deck: seq<StoredCard>, sid2: Sid, deck2: seq<StoredCard>)
    requires WorldInv(w) && IsLatest(w.db.recs, Some(l)) && GoodDeck(deck) && GoodDeck(deck2) && sid !in w.db.used
    requires VoteFresh(w, user, true, expected, agreeId, l) && IsNewest(w.db.recs, l)
    requires refuseId != "" && refuseId != agreeId && LogKey(user, refuseId) !in w.db.recs[l].logs
    ensures var a := VoteRematch(w, user, true, expected, agreeId, Some(l), sid, deck);
            && a.Ok? && WorldInv(a.value)
            && (IsLatest(a.value.db.recs, Some(l)) <==> w.db.recs[l].sess.createdAt == w.db.now)
            && (IsLatest(a.value.db.recs, Some(l)) ==>
                  var b := VoteRematch(a.value, user, false, expected + 1, refuseId, Some(l), sid2, deck2);
                  b.Ok? && b.value.room.current.None? && !OnlyCurrentRuns(b.value))
  {
    AgreementDeals(w, user, expected, agreeId, l, sid, deck);
    var w1 := VoteRematch(w, user, true, expected, agreeId, Some(l), sid, deck).value;
    assert w1.db.recs[sid].sess.createdAt == w.db.now;
    if IsLatest(w1.db.recs, Some(l)) {
      assert VoteFresh(w1, user, false, expected + 1, refuseId, l);
      assert w1.db.recs[sid].sess.status != Resetting;
      RefusalLosesRound(w1, user, expected + 1, refuseId, Some(l), sid2, deck2);
    }
  }

  // ---- a run that gets there ----

  /** A deck that deals the player 10 and 9 and the dealer king and queen. */
  function StackedDeck(): seq<StoredCard> {
    Swap(Swap(Swap(Swap(OrderedDeck(), 0, 9), 2, 8), 1, 12), 3, 11)
  }

  lemma StackedDeckIsFull()
    ensures GoodDeck(StackedDeck())
  {
    var a := OrderedDeck();
    var b := Swap(a, 0, 9);
    var c := Swap(b, 2, 8);
    var d := Swap(c, 1, 12);
    SwapPermutes(a, 0, 9);
    SwapPermutes(b, 2, 8);
    SwapPermutes(c, 1, 12);
    SwapPermutes(d, 3, 11);
  }

  lemma FirstOfOrderedDeck()
    ensures var a := OrderedDeck();
            && a[8] == StoredCard(Nine, Spades) && a[9] == StoredCard(Ten, Spades)
            && a[11] == StoredCard(Queen, Spades) && a[12] == StoredCard(King, Spades)
  {
  }

  lemma StackedDeckIsGood()
    ensures var d := StackedDeck();
            && GoodDeck(d) && d[0] == StoredCard(Ten, Spades) && d[1] == StoredCard(King, Spades)
            && d[2] == StoredCard(Nine, Spades) && d[3] == StoredCard(Queen, Spades)
  {
    StackedDeckIsFull();
    FirstOfOrderedDeck();
    FourSwaps(OrderedDeck());
  }

  lemma FourSwaps(a: seq<StoredCard>)
    requires |a| == DECK_SIZE
    ensures var d := Swap(Swap(Swap(Swap(a, 0, 9), 2, 8), 1, 12), 3, 11);
            d[0] == a[9] && d[1] == a[12] && d[2] == a[8] && d[3] == a[11]
  {
  }

  function StackedDealer(): Hand { [StackedDeck()[1], StackedDeck()[3]] }

  lemma StackedHands()
    ensures var d := StackedDeck();
            !IsBlackjack([d[0], d[2]]) && Value([d[0], d[2]]) == 19 && Value(StackedDealer()) == 20
  {
    StackedDeckIsGood();
    var d := StackedDeck();
    TwoCards(d[0], d[2]);
    TwoCards(d[1], d[3]);
  }

  lemma TwoCards(a: StoredCard, b: StoredCard)
    requires a.rank != Ace && b.rank != Ace
    ensures Value([a, b]) == HardPoints(a.rank) + HardPoints(b.rank)
  {
    DrawAdds([a], b);
    DrawAdds([], a);
    assert [] + [a] == [a] && [a] + [b] == [a, b];
  }

  ghost predicate RecordIs(r: Record, status: SessionStatus, version: int, logs: map<LogKey, Payload>, dealer: Hand, at: Time) {
    && r.sess.status == status && r.sess.version == version && r.logs == logs
    && r.dealer.hand == dealer && r.sess.createdAt == at
  }

  /** A room with the one session "a", created at the present instant. */
  ghost predicate FirstRoundAt(w: World, host: string, status: SessionStatus, version: int, logs: map<LogKey, Payload>,
                               dealer: Hand) {
    && WorldInv(w) && w.room.host == host && w.seat == SeatActive && w.room.current == Some("a")
    && w.db.recs.Keys == {"a"} && w.db.used == {"a"}
    && RecordIs(w.db.recs["a"], status, version, logs, dealer, w.db.now)
  }

  lemma FirstRoundMoves(w: World, host: string, status: SessionStatus, version: int, logs: map<LogKey, Payload>,
                        dealer: Hand, r': Record, status': SessionStatus, version': int, logs': map<LogKey, Payload>)
    requires FirstRoundAt(w, host, status, version, logs, dealer) && WorldInv(w.(db := Put(w.db, "a", r')))
    requires RecordIs(r', status', version', logs', dealer, w.db.now)
    ensures FirstRoundAt(w.(db := Put(w.db, "a", r')), host, status', version', logs', dealer)
  {
  }

  lemma OneSessionIsNewest(w: World, host: string, status: SessionStatus, version: int, logs: map<LogKey, Payload>,
                           dealer: Hand)
    requires FirstRoundAt(w, host, status, version, logs, dealer)
    ensures IsNewest(w.db.recs, "a") && IsLatest(w.db.recs, Some("a"))
  {
    assert |w.db.recs| == |w.db.recs.Keys| == 1;
  }

  /** The host at the table of a room without sessions. */
  ghost predicate Seatable(w: World, host: string) {
    && WorldInv(w) && host != "" && w.room == Room(host, ReadyToStart, None) && w.seat == SeatActive
    && w.db.recs == map[] && w.db.used == {}
  }

  lemma HostSits(host: string, start: Time)
    requires host != "" && start > 0
    ensures Seatable(After(NewRoom(host, start), Join(host)), host)
  {
    NewRoomIsGood(host, start);
    StepKeeps(NewRoom(host, start), Join(host));
  }

  lemma FirstSession(db: Database, n: NewSession)
    requires db.recs == map[] && db.used == {} && GoodDeck(n.deck) && !IsBlackjack([n.deck[0], n.deck[2]])
    ensures var a := CreateSession(db, n, 1);
            && a.Ok? && a.value.now == db.now && a.value.recs.Keys == {n.sid} && a.value.used == {n.sid}
            && Dealt(a.value.recs[n.sid], n.deck) && a.value.recs[n.sid].sess.createdAt == db.now
            && a.value.recs[n.sid].sess.status == PlayerTurn
  {
    var r := CreateSessionIs(db, n, 1);
    assert !RoundTaken(db.recs, 1);
    CreatedIsDealt(db, n, 1);
  }

  lemma StartStacked(w: World, host: string)
    requires Seatable(w, host)
    ensures FirstRoundAt(After(w, Start(host, None, "a", StackedDeck())), host, PlayerTurn, 1, map[], StackedDealer())
  {
    var call := Start(host, None, "a", StackedDeck());
    StackedDeckIsGood();
    StackedHands();
    FirstSession(w.db, NewSession("a", host, StackedDeck()));
    StartGoesOn(w, host, None, "a", StackedDeck(), 1);
    var a := CreateSession(w.db, NewSession("a", host, StackedDeck()), 1);
    assert StartRoom(w, host, None, "a", StackedDeck()) == Started(w, host, "a", a);
    NewCurrent(w.(db := a.value), "a");
    StepKeeps(w, call);
  }

  lemma StandEndsTurn(r: Record, user: string, expected: int, actionId: string, now: Time)
    requires PlayRecord(r, user, expected, actionId, false, now).Ok?
    requires LogKey(user, actionId) !in r.logs
    ensures var r' := PlayRecord(r, user, expected, actionId, false, now).value;
            r'.sess.status == DealerTurn && r'.dealer == r.dealer && SameRound(r.sess, r'.sess)
  {
  }

  lemma StandOnFirst(r: Record, host: string, dealer: Hand, now: Time)
    requires RecordInv(r) && RecordIs(r, PlayerTurn, 1, map[], dealer, now) && r.player.userId == host
    ensures var a := PlayRecord(r, host, 1, "h", false, now);
            a.Ok? && RecordIs(a.value, DealerTurn, 2, map[LogKey(host, "h") := StandAt(1)], dealer, now)
  {
    PlayRecordAnswers(r, host, 1, "h", false, now);
    StandEndsTurn(r, host, 1, "h", now);
  }

  lemma AfterPlay(w: World, c: Sid, user: string, expected: int, actionId: string, hit: bool)
    requires WorldInv(w) && w.room.current == Some(c) && c in w.db.recs && user != "" && expected > 0 && actionId != ""
    requires PlayRecord(w.db.recs[c], user, expected, actionId, hit, w.db.now).Ok?
    ensures Invoke(w, Play(user, expected, actionId, hit)).Ok?
    ensures var w' := w.(db := Put(w.db, c, PlayRecord(w.db.recs[c], user, expected, actionId, hit, w.db.now).value));
            After(w, Play(user, expected, actionId, hit)) == w' && WorldInv(w')
  {
    PlayerTurnIs(w, c, user, expected, actionId, hit);
    PlayKeeps(w, user, expected, actionId, hit);
  }

  lemma StandStacked(w: World, host: string, dealer: Hand)
    requires host != "" && FirstRoundAt(w, host, PlayerTurn, 1, map[], dealer)
    ensures Invoke(w, Play(host, 1, "h", false)).Ok?
    ensures FirstRoundAt(After(w, Play(host, 1, "h", false)), host, DealerTurn, 2, map[LogKey(host, "h") := StandAt(1)], dealer)
  {
    var logs := map[LogKey(host, "h") := StandAt(1)];
    RecordOf(w.db, "a");
    StandOnFirst(w.db.recs["a"], host, dealer, w.db.now);
    AfterPlay(w, "a", host, 1, "h", false);
    var r' := PlayRecord(w.db.recs["a"], host, 1, "h", false, w.db.now).value;
    FirstRoundMoves(w, host, PlayerTurn, 1, map[], dealer, r', DealerTurn, 2, logs);
  }

  lemma StandingDealerSettles(r: Record, now: Time)
    requires RecordInv(r) && now != 0 && r.sess.status == DealerTurn && Value(r.dealer.hand) >= 17
    ensures DealerRecord(r, now).Ok?
    ensures var r' := DealerRecord(r, now).value;
            && r'.sess.status == Resetting && r'.sess.version == r.sess.version + 1
            && r'.logs == r.logs && r'.dealer.hand == r.dealer.hand && r'.sess.createdAt == r.sess.createdAt
  {
    DealerRecordAnswers(r, now);
    DealerDrawsBelow17(r.dealer.hand);
    StandingDealerKeepsHand(r, now);
  }

  lemma StandingDealerKeepsHand(r: Record, now: Time)
    requires r.sess.status == DealerTurn && !DealerDraws(r.dealer.hand) && DealerRecord(r, now).Ok?
    ensures DealerRecord(r, now).value.dealer.hand == r.dealer.hand
  {
  }

  lemma DealerOnFirst(r: Record, logs: map<LogKey, Payload>, dealer: Hand, now: Time)
    requires RecordInv(r) && now != 0 && RecordIs(r, DealerTurn, 2, logs, dealer, now) && Value(dealer) >= 17
    ensures DealerRecord(r, now).Ok? && RecordIs(DealerRecord(r, now).value, Resetting, 3, logs, dealer, now)
  {
    StandingDealerSettles(r, now);
  }

  lemma AfterDealer(w: World, c: Sid)
    requires WorldInv(w) && c in w.db.recs && w.db.recs[c].sess.status == DealerTurn
    ensures DealerRecord(w.db.recs[c], w.db.now).Ok?
    ensures var w' := w.(db := Put(w.db, c, DealerRecord(w.db.recs[c], w.db.now).value));
            After(w, DealerMoves(c)) == w' && WorldInv(w')
  {
    DealerKeeps(w, c);
  }

  lemma DealStacked(w: World, host: string, logs: map<LogKey, Payload>, dealer: Hand)
    requires FirstRoundAt(w, host, DealerTurn, 2, logs, dealer) && Value(dealer) >= 17
    ensures FirstRoundAt(After(w, DealerMoves("a")), host, Resetting, 3, logs, dealer)
  {
    RecordOf(w.db, "a");
    AfterDealer(w, "a");
    DealerOnFirst(w.db.recs["a"], logs, dealer, w.db.now);
    FirstRoundMoves(w, host, DealerTurn, 2, logs, dealer, DealerRecord(w.db.recs["a"], w.db.now).value, Resetting, 3, logs);
  }

  /** The host sits down, starts, stands on 19 and loses to 20. */
  function FirstCalls(host: string): seq<RoomCall> {
    [Join(host), Start(host, None, "a", StackedDeck()), Play(host, 1, "h", false), DealerMoves("a")]
  }

  function Agreement(host: string): RoomCall { Vote(host, true, 3, "x", Some("a"), "b", StackedDeck()) }

  function LateRefusal(host: string): RoomCall { Vote(host, false, 4, "y", Some("a"), "c", StackedDeck()) }

  lemma RunFour(w: World, calls: seq<RoomCall>)
    requires |calls| == 4
    ensures RoomRun(w, calls[..2]) == After(After(w, calls[0]), calls[1])
    ensures RoomRun(w, calls) == After(After(RoomRun(w, calls[..2]), calls[2]), calls[3])
  {
    assert calls[..0] == [] && calls[..4] == calls;
    PrefixRun(w, calls, 0);
    PrefixRun(w, calls, 1);
    PrefixRun(w, calls, 2);
    PrefixRun(w, calls, 3);
  }

  lemma FirstTwoRun(host: string, start: Time)
    requires host != "" && start > 0
    ensures FirstRoundAt(RoomRun(NewRoom(host, start), FirstCalls(host)[..2]), host, PlayerTurn, 1, map[], StackedDealer())
  {
    RunFour(NewRoom(host, start), FirstCalls(host));
    HostSits(host, start);
    StartStacked(After(NewRoom(host, start), Join(host)), host);
  }

  lemma FirstRoundRuns(host: string, start: Time)
    requires host != "" && start > 0
    ensures FirstRoundAt(RoomRun(NewRoom(host, start), FirstCalls(host)), host, Resetting, 3,
                         map[LogKey(host, "h") := StandAt(1)], StackedDealer())
    ensures Invoke(RoomRun(NewRoom(host, start), FirstCalls(host)[..2]), Play(host, 1, "h", false)).Ok?
  {
    var w2 := RoomRun(NewRoom(host, start), FirstCalls(host)[..2]);
    RunFour(NewRoom(host, start), FirstCalls(host));
    FirstTwoRun(host, start);
    StandStacked(w2, host, StackedDealer());
    StackedHands();
    DealStacked(After(w2, Play(host, 1, "h", false)), host, map[LogKey(host, "h") := StandAt(1)], StackedDealer());
  }

  lemma RunOneMore(w: World, calls: seq<RoomCall>, call: RoomCall)
    ensures RoomRun(w, calls + [call]) == After(RoomRun(w, calls), call)
  {
    assert (calls + [call])[..|calls|] == calls;
  }

  lemma RematchIsFresh(w: World, host: string, logs: map<LogKey, Payload>, dealer: Hand)
    requires host != "" && FirstRoundAt(w, host, Resetting, 3, logs, dealer) && LogKey(host, "x") !in logs
    ensures VoteFresh(w, host, true, 3, "x", "a")
  {
  }

  lemma AfterAcceptedVote(w: World, user: string, agree: bool, expected: int, actionId: string,
                          latest: Option<Sid>, sid: Sid, deck: seq<StoredCard>)
    requires IsLatest(w.db.recs, latest) && GoodDeck(deck)
    requires VoteRematch(w, user, agree, expected, actionId, latest, sid, deck).Ok?
    ensures After(w, Vote(user, agree, expected, actionId, latest, sid, deck))
            == VoteRematch(w, user, agree, expected, actionId, latest, sid, deck).value
  {
  }

  lemma RematchReady(w: World, host: string, logs: map<LogKey, Payload>, dealer: Hand)
    requires host != "" && FirstRoundAt(w, host, Resetting, 3, logs, dealer) && LogKey(host, "x") !in logs
    ensures WorldInv(w) && IsLatest(w.db.recs, Some("a")) && IsNewest(w.db.recs, "a") && "b" !in w.db.used
    ensures VoteFresh(w, host, true, 3, "x", "a") && w.db.recs["a"].logs == logs
    ensures w.db.recs["a"].sess.createdAt == w.db.now
  {
    OneSessionIsNewest(w, host, Resetting, 3, logs, dealer);
    RematchIsFresh(w, host, logs, dealer);
  }

  lemma RepeatedStand(w: World, host: string, deck: seq<StoredCard>)
    requires WorldInv(w) && IsLatest(w.db.recs, Some("a")) && IsNewest(w.db.recs, "a") && "b" !in w.db.used
    requires VoteFresh(w, host, true, 3, "x", "a") && w.db.recs["a"].logs == map[LogKey(host, "h") := StandAt(1)]
    requires GoodDeck(deck) && !IsBlackjack([deck[0], deck[2]])
    ensures PlayerTurnCall(After(w, Vote(host, true, 3, "x", Some("a"), "b", deck)), host, 1, "h", false).Ok?
  {
    NextRoundRepeatsAction(w, host, "h", false, 3, "x", "a", "b", deck);
    AfterAcceptedVote(w, host, true, 3, "x", Some("a"), "b", deck);
  }

  /** One STAND, sent once in each of two rounds with the same version and action id, is accepted both times. */
  lemma SameActionTwice(host: string, start: Time)
    requires host != "" && start > 0
    ensures Invoke(RoomRun(NewRoom(host, start), FirstCalls(host)[..2]), FirstCalls(host)[2]).Ok?
    ensures Invoke(RoomRun(NewRoom(host, start), FirstCalls(host) + [Agreement(host)]), FirstCalls(host)[2]).Ok?
  {
    FirstRoundRuns(host, start);
    var w := RoomRun(NewRoom(host, start), FirstCalls(host));
    StackedDeckIsGood();
    StackedHands();
    RematchReady(w, host, map[LogKey(host, "h") := StandAt(1)], StackedDealer());
    RepeatedStand(w, host, StackedDeck());
    RunOneMore(NewRoom(host, start), FirstCalls(host), Agreement(host));
  }

  lemma LostRound(w: World, host: string, deck: seq<StoredCard>)
    requires WorldInv(w) && IsLatest(w.db.recs, Some("a")) && IsNewest(w.db.recs, "a") && "b" !in w.db.used
    requires VoteFresh(w, host, true, 3, "x", "a") && w.db.recs["a"].logs == map[LogKey(host, "h") := StandAt(1)]
    requires w.db.recs["a"].sess.createdAt == w.db.now && GoodDeck(deck)
    ensures var w1 := After(w, Vote(host, true, 3, "x", Some("a"), "b", deck));
            !OnlyCurrentRuns(After(w1, Vote(host, false, 4, "y", Some("a"), "c", deck)))
  {
    TieLosesRound(w, host, 3, "x", "y", "a", "b", deck, "c", deck);
    AfterAcceptedVote(w, host, true, 3, "x", Some("a"), "b", deck);
    var w1 := After(w, Vote(host, true, 3, "x", Some("a"), "b", deck));
    AfterAcceptedVote(w1, host, false, 4, "y", Some("a"), "c", deck);
  }

  /** With a clock that stands still the same room ends up with a running round that it has let go of. */
  lemma RoundLostAtConstantClock(host: string, start: Time)
    requires host != "" && start > 0
    ensures !OnlyCurrentRuns(RoomRun(NewRoom(host, start), FirstCalls(host) + [Agreement(host)] + [LateRefusal(host)]))
  {
    FirstRoundRuns(host, start);
    var w := RoomRun(NewRoom(host, start), FirstCalls(host));
    StackedDeckIsGood();
    RematchReady(w, host, map[LogKey(host, "h") := StandAt(1)], StackedDealer());
    LostRound(w, host, StackedDeck());
    RunOneMore(NewRoom(host, start), FirstCalls(host), Agreement(host));
    RunOneMore(NewRoom(host, start), FirstCalls(host) + [Agreement(host)], LateRefusal(host));
  }
}
