/** What the calls of the service promise to whoever makes them, in a room that is consistent. */
module ServicePromises {
  import opened Wrappers
  import opened Cards
  import opened Hands
  import opened Policies
  import opened Rounds
  import opened RoundInvariant
  import opened SessionStore
  import opened AtomicSessions
  import opened Rooms
  import opened RoomInvariant
  import opened RoomSteps
  import opened RoomRuns

  /** A consistent room is left consistent. */
  ghost predicate Keeps(w: World, w': World) { WorldInv(w) ==> WorldInv(w') }

  lemma JoinPromise(w: World, user: string)
    ensures Keeps(w, ValueOr(JoinRoom(w, user), w))
  {
    if WorldInv(w) && JoinRoom(w, user).Ok? {
      JoinKeeps(w, user);
    }
  }

  lemma LeavePromise(w: World, user: string)
    ensures Keeps(w, ValueOr(LeaveRoom(w, user), w))
  {
    if WorldInv(w) && LeaveRoom(w, user).Ok? {
      LeaveKeeps(w, user);
    }
  }

  lemma ConnectionPromise(w: World, user: string)
    ensures Keeps(w, ValueOr(MarkConnected(w, user), w)) && Keeps(w, ValueOr(MarkDisconnected(w, user), w))
  {
    if WorldInv(w) {
      ConnectionKeeps(w, user);
    }
  }

  lemma StartPromise(w: World, user: string, latest: Option<Sid>, sid: Sid, deck: seq<StoredCard>)
    requires IsLatest(w.db.recs, latest) && GoodDeck(deck)
    ensures Keeps(w, ValueOr(StartRoom(w, user, latest, sid, deck), w))
  {
    if WorldInv(w) && StartRoom(w, user, latest, sid, deck).Ok? {
      StartKeeps(w, user, latest, sid, deck);
    }
  }

  /** The version shown to the user, the action on offer and an identifier that the session does not know. */
  ghost predicate ShownTo(w: World, user: string, expected: int, actionId: string) {
    && WorldInv(w) && actionId != ""
    && GetRoomState(w, user).Ok? && GetRoomState(w, user).value.Some? && GetRoomState(w, user).value.value.version == expected
    && LogKey(user, actionId) !in w.db.recs[w.room.current.value].logs
  }

  predicate OffersPlay(w: World, user: string, hit: bool) {
    var state := GetRoomState(w, user);
    state.Ok? && state.value.Some? && if hit then state.value.value.canHit else state.value.value.canStand
  }

  lemma PlayPromise(w: World, user: string, expected: int, actionId: string, hit: bool)
    ensures Keeps(w, ValueOr(PlayerTurnCall(w, user, expected, actionId, hit), w))
    ensures ShownTo(w, user, expected, actionId) ==>
              (PlayerTurnCall(w, user, expected, actionId, hit).Ok? <==> OffersPlay(w, user, hit))
  {
    if WorldInv(w) && PlayerTurnCall(w, user, expected, actionId, hit).Ok? {
      PlayKeeps(w, user, expected, actionId, hit);
    }
    if ShownTo(w, user, expected, actionId) {
      OfferedPlaysAreAccepted(w, user, GetRoomState(w, user).value.value, actionId, hit);
    }
  }

  lemma StandPromise(w: World, s: Sid, heuristic: bool)
    ensures Keeps(w, ValueOr(PlayerStandCall(w, s, heuristic), w))
  {
    if WorldInv(w) && PlayerStandCall(w, s, heuristic).Ok? {
      StandKeeps(w, s, heuristic);
    }
  }

  lemma DealerPromise(w: World, s: Sid)
    ensures Keeps(w, ValueOr(DealerTurnCall(w, s), w))
    ensures WorldInv(w) && s in w.db.recs ==> DealerTurnCall(w, s).Ok?
  {
    if WorldInv(w) && s in w.db.recs && w.db.recs[s].sess.status == DealerTurn {
      DealerKeeps(w, s);
    }
  }

  lemma VotePromise(w: World, user: string, agree: bool, expected: int, actionId: string,
                    latest: Option<Sid>, sid: Sid, deck: seq<StoredCard>)
    requires IsLatest(w.db.recs, latest) && GoodDeck(deck)
    ensures WorldInv(w) ==>
              (WorldInv(ValueOr(VoteRematch(w, user, agree, expected, actionId, latest, sid, deck), w))
               <==> !LosesRound(w, user, agree, expected, actionId, latest))
  {
    if WorldInv(w) {
      if LosesRound(w, user, agree, expected, actionId, latest) {
        RefusalLosesRound(w, user, expected, actionId, latest, sid, deck);
      }
      if VoteRematch(w, user, agree, expected, actionId, latest, sid, deck).Ok? {
        VoteKeeps(w, user, agree, expected, actionId, latest, sid, deck);
      }
    }
  }

  lemma DeadlinePromise(w: World, s: Sid, sid: Sid, deck: seq<StoredCard>)
    ensures GoodDeck(deck) ==> Keeps(w, ValueOr(ProcessRematchDeadline(w, s, sid, deck), w))
  {
    if GoodDeck(deck) && WorldInv(w) && ProcessRematchDeadline(w, s, sid, deck).Ok? {
      DeadlineKeeps(w, s, sid, deck);
    }
  }

  lemma ResetPromise(w: World, user: string)
    ensures Keeps(w, ValueOr(ResetRoom(w, user), w))
  {
    if WorldInv(w) && ResetRoom(w, user).Ok? {
      ResetKeeps(w, user);
    }
  }
}
