/** What the background worker does for one room in a tick that reaches it: a due turn, a dealer, due rematches. */
module Worker {
  import opened Wrappers
  import opened Cards
  import opened Shuffle
  import opened Hands
  import opened Policies
  import opened Rounds
  import opened RoundInvariant
  import opened SessionStore
  import opened RoundSteps
  import opened AtomicSessions
  import opened Rooms
  import opened RoomInvariant
  import opened RoomSteps

  /** A room after some calls of a tick, and the error that ended the tick early, if any. */
  datatype Ticked = Ticked(w: World, err: Option<Error>)

  /** Losing a race and finding nothing do not end a tick. */
  predicate Tolerated(e: Error) { e == NotFound || e == VersionConflict }

  function Then(w: World, a: Result<World, Error>): Ticked {
    match a
    case Ok(w') => Ticked(w', None)
    case Err(e) => Ticked(w, if Tolerated(e) then None else Some(e))
  }

  type Handler = (World, Sid) -> Result<World, Error>

  /** Handles the listed sessions one by one until an error that is not tolerated. */
  function HandleAll(w: World, list: seq<Sid>, handle: Handler): Ticked {
    if list == [] then Ticked(w, None)
    else
      var t := HandleAll(w, list[..|list| - 1], handle);
      if t.err.Some? then t else Then(t.w, handle(t.w, list[|list| - 1]))
  }

  datatype Query = DueTurns | Dealers | DueRematches

  predicate Matches(q: Query, s: SessionRow, now: Time) {
    match q
    case DueTurns => TurnIsDue(s, now)
    case Dealers => s.status == DealerTurn
    case DueRematches => RematchIsDue(s, now)
  }

  /** What a query returns: each matching session once, in some order. */
  ghost predicate Lists(list: seq<Sid>, w: World, q: Query) {
    && Distinct(list)
    && forall s :: s in list <==> s in w.db.recs && Matches(q, w.db.recs[s].sess, w.db.now)
  }

  /** If the handler leaves every session but one alone, handling a list is handling that one. */
  lemma {:induction false} HandlingOthersIsIdle(w: World, list: seq<Sid>, c: Sid, handle: Handler)
    requires Distinct(list)
    requires forall s :: s in list && s != c ==> handle(w, s) == Ok(w)
    requires handle(w, c).Ok? ==> forall s :: s in list && s != c ==> handle(handle(w, c).value, s) == handle(w, c)
    ensures HandleAll(w, list, handle) == if c in list then Then(w, handle(w, c)) else Ticked(w, None)
  {
    if list != [] {
      var init, last := list[..|list| - 1], list[|list| - 1];
      HandlingOthersIsIdle(w, init, c, handle);
      if last == c {
        assert c !in init;
      }
    }
  }

  ghost function StandHandler(heuristic: bool): Handler { (w, s) => PlayerStandCall(w, s, heuristic) }

  ghost function StandAll(w: World, list: seq<Sid>, heuristic: bool): Ticked {
    HandleAll(w, list, StandHandler(heuristic))
  }

  ghost function DealAll(w: World, list: seq<Sid>): Ticked { HandleAll(w, list, DealerTurnCall) }

  ghost function RematchAll(w: World, list: seq<Sid>, sid: Sid, deck: seq<StoredCard>): Ticked
  {
    HandleAll(w, list, RematchHandler(sid, deck))
  }

  type Phase = World -> Ticked

  /** Runs the next phase unless the tick has ended early. */
  function AndThen(t: Ticked, next: Phase): Ticked { if t.err.Some? then t else next(t.w) }

  // ---- a tick only matters to the current session ----

  predicate CurrentIs(w: World, q: Query) {
    && w.room.current.Some? && w.room.current.value in w.db.recs
    && Matches(q, w.db.recs[w.room.current.value].sess, w.db.now)
  }

  function StandCurrent(w: World, heuristic: bool): Ticked {
    if CurrentIs(w, DueTurns)
    then Then(w, PlayerStandCall(w, w.room.current.value, heuristic)) else Ticked(w, None)
  }

  function DealCurrent(w: World): Ticked {
    if CurrentIs(w, Dealers)
    then Then(w, DealerTurnCall(w, w.room.current.value)) else Ticked(w, None)
  }

  function RematchCurrent(w: World): Ticked {
    if CurrentIs(w, DueRematches) then Then(w, FinalizeRematchFailure(w)) else Ticked(w, None)
  }

  /** The room's share of a tick that nothing ends early. */
  function CurrentTick(w: World, heuristic: bool): Ticked {
    AndThen(AndThen(StandCurrent(w, heuristic), DealCurrent), RematchCurrent)
  }

  lemma FirstsAreMembers(list: seq<Sid>)
    requires Distinct(list)
    ensures |list| > 0 ==> list[0] in list
    ensures |list| > 1 ==> list[1] in list && list[0] != list[1]
  {
  }

  /** Only the current session can have a turn or a dealer to look after. */
  lemma OneListed(w: World, list: seq<Sid>, q: Query)
    requires OnlyCurrentRuns(w) && Lists(list, w, q) && q != DueRematches
    ensures list == if CurrentIs(w, q) then [w.room.current.value] else []
  {
    FirstsAreMembers(list);
    forall s | s in list ensures w.room.current == Some(s) {
      RunningIsCurrent(w, s);
    }
    if CurrentIs(w, q) {
      assert w.room.current.value in list;
    }
  }

  lemma HandleOne(w: World, s: Sid, handle: Handler)
    ensures HandleAll(w, [s], handle) == Then(w, handle(w, s))
  {
    assert [s][..0] == [];
  }

  lemma StandCurrentKeeps(w: World, heuristic: bool)
    requires WorldInv(w)
    ensures WorldInv(StandCurrent(w, heuristic).w)
  {
    if CurrentIs(w, DueTurns) && PlayerStandCall(w, w.room.current.value, heuristic).Ok? {
      StandKeeps(w, w.room.current.value, heuristic);
    }
  }

  lemma StandAllIsCurrent(w: World, list: seq<Sid>, heuristic: bool)
    requires WorldInv(w) && Lists(list, w, DueTurns)
    ensures StandAll(w, list, heuristic) == StandCurrent(w, heuristic)
  {
    OneListed(w, list, DueTurns);
    if CurrentIs(w, DueTurns) {
      HandleOne(w, w.room.current.value, StandHandler(heuristic));
    }
  }

  lemma DealAllIsCurrent(w: World, list: seq<Sid>)
    requires WorldInv(w) && Lists(list, w, Dealers)
    ensures DealAll(w, list) == DealCurrent(w) && DealCurrent(w).err.None?
    ensures WorldInv(DealCurrent(w).w)
  {
    OneListed(w, list, Dealers);
    if CurrentIs(w, Dealers) {
      HandleOne(w, w.room.current.value, DealerTurnCall);
      DealerKeeps(w, w.room.current.value);
    }
  }

  lemma PastRematchesAreIdle(w: World, s: Sid, sid: Sid, deck: seq<StoredCard>)
    requires s in w.db.recs && w.room.current != Some(s)
    ensures ProcessRematchDeadline(w, s, sid, deck) == Ok(w)
  {
  }

  lemma {:induction false} AllIdle(w: World, list: seq<Sid>, handle: Handler)
    requires forall s :: s in list ==> handle(w, s) == Ok(w)
    ensures HandleAll(w, list, handle) == Ticked(w, None)
  {
    if list != [] {
      AllIdle(w, list[..|list| - 1], handle);
    }
  }

  ghost function RematchHandler(sid: Sid, deck: seq<StoredCard>): Handler
  {
    (w, s) => ProcessRematchDeadline(w, s, sid, deck)
  }

  lemma PastOnesAreIdle(w: World, list: seq<Sid>, w1: World, sid: Sid, deck: seq<StoredCard>)
    requires w1.db == w.db
    requires forall s :: s in list ==> s in w.db.recs
    requires w1.room.current == w.room.current || w1.room.current == None
    ensures forall s :: s in list && w.room.current != Some(s) ==> RematchHandler(sid, deck)(w1, s) == Ok(w1)
  {
    forall s | s in list && w.room.current != Some(s) ensures RematchHandler(sid, deck)(w1, s) == Ok(w1) {
      PastRematchesAreIdle(w1, s, sid, deck);
    }
  }

  lemma DueRematchReleases(w: World, list: seq<Sid>, sid: Sid, deck: seq<StoredCard>)
    requires WorldInv(w) && Lists(list, w, DueRematches) && GoodDeck(deck) && CurrentIs(w, DueRematches)
    ensures RematchAll(w, list, sid, deck) == RematchCurrent(w) && RematchCurrent(w).err.None?
    ensures WorldInv(RematchCurrent(w).w) && RematchCurrent(w).w.room.current.None?
  {
    var c, handle := w.room.current.value, RematchHandler(sid, deck);
    DeadlineReleases(w, c, sid, deck);
    ReleaseKeeps(w);
    FailureKeeps(w);
    var w1 := FinalizeRematchFailure(w).value;
    assert handle(w, c) == Ok(w1);
    PastOnesAreIdle(w, list, w, sid, deck);
    PastOnesAreIdle(w, list, w1, sid, deck);
    HandlingOthersIsIdle(w, list, c, handle);
  }

  /** Finished sessions of the past stay due for ever, but only the current one releases the room. */
  lemma RematchAllIsCurrent(w: World, list: seq<Sid>, sid: Sid, deck: seq<StoredCard>)
    requires WorldInv(w) && Lists(list, w, DueRematches) && GoodDeck(deck)
    ensures RematchAll(w, list, sid, deck) == RematchCurrent(w) && RematchCurrent(w).err.None?
    ensures WorldInv(RematchCurrent(w).w)
  {
    if CurrentIs(w, DueRematches) {
      DueRematchReleases(w, list, sid, deck);
    } else {
      PastOnesAreIdle(w, list, w, sid, deck);
      assert forall s :: s in list ==> w.room.current != Some(s);
      AllIdle(w, list, RematchHandler(sid, deck));
    }
  }
}
