# Blackjack server: a verified model

The server deals blackjack to one human player per room. A room runs a chain of rounds; each round is
a *session* that goes from the player's turn over the dealer's turn to a finished state in which the
next round is voted on. Players, a background worker and any number of other servers act on the same
tables at the same time, and the only thing that keeps them apart is a version number that every
session update compares and moves on.

This project models that server in Dafny and proves what it is meant to guarantee: that optimistic
calls in any interleaving amount to a sequence of atomic ones, that no card is lost or doubled, that
every session is settled exactly once and correctly, that offered actions are accepted, and exactly
when a room has one running session at most and the worker brings it to rest. Beside the game it
covers the token bucket that limits requests and the hub that keeps track of websocket connections.

## How the model is built

| Level | Modules | What is there |
|---|---|---|
| Cards and hands | `Cards`, `Shuffle`, `Hands`, `Numerals`, `CardText`, `Policies` | the deck, the in-place shuffle, the value of a hand, the text of cards and how the browser reads and scores it, dealer policy, outcome, hint |
| One round | `Rounds`, `RoundInvariant`, `RoundSteps`, `RecordLaws`, `SessionStore` | rows of a session and what each operation makes of the rows it has read; transactions on one session; the invariant of a stored session; each operation field by field |
| Many servers | `AtomicSessions`, `Interleaving`, `Runs` | operations run alone as the specification; calls that read session, player and dealer at different moments and commit later; facts about every run |
| The room | `Rooms`, `RoomInvariant`, `RoomSteps`, `RoomTables`, `RoomRuns`, `RoomLaws`, `Findings` | every call of the service as one step on the room's state; what holds in every run, what holds exactly unless a run is disrupted, and the runs that show what the server does not promise |
| The worker | `Worker`, `WorkerIds`, `WorkerProgress`, `Server`, `ServerRuns`, `DueLaws`, `Deadlines` | a room's share of a tick and the identifiers it will need; the ticks of a server with any number of rooms, and when they bring all of them to rest |
| The code's own form | `Entities`, `Store`, `SessionCalls`, `RoomObjects`, `CallHalves`, `ServicePromises`, `RoomService`, `WorkerService` | objects that are changed in place, the repository, each read and each transaction as a method, and the service's methods with early returns, loops and roll-backs, all proved to do what the functions of the other levels say and to keep what is proved of those |
| Beside the game | `TokenBucket`, `RoomHub` | the rate limiter's script on its key store; the hub's two maps |

Two levels of concurrency matter. What is said about sessions (`Runs`) holds under every interleaving
of reads, commits, abandoned calls and clock ticks, because every write to a session passes the
version check. What is said about the row of the room (`RoomTables`, `RoomRuns`, `ServerRuns`)
holds when each call is one step, because calls read that row early and write it back blindly.

Randomness, fresh identifiers, the order in which the database lists rows and the times at which things
happen are parameters: every statement holds for all their values, under one clock that does not go
back (the rate limiter aside, which takes any times). Times are integers in milliseconds, the bucket
counts in exact reals.

## Findings

What the code does not do, each with the exact condition and, where it takes a run to get there, the run.

- A HIT or STAND carries no session. Sessions count versions from 1 and keep their own action
  identifiers, so an action that was accepted in one round and is delivered again after the rematch
  is accepted a second time, exactly if it fits the session that is then current
  (`Findings.SameActionAgain`). While its own session is current this never happens
  (`Findings.NeverAgainInItsRound`). The first action of a round is accepted again exactly when the
  next round deals no natural (`Findings.NextRoundRepeatsAction`); `Findings.SameActionTwice` is a
  complete run.
- The latest session is found by creation time alone. A room stays consistent through every call
  except a refusal of the rematch that reaches a finished session while another one is running; that
  one always releases the room from its running round (`RoomRuns.CallKeeps`). It needs two sessions
  created at the same instant (`RoomRuns.MovingClockIsEnough`, `Findings.TieLosesRound`);
  `Findings.RoundLostAtConstantClock` is a run. Numbering and status are right in any case
  (`RoomTables.RoundsAreNumbered`).
- The worker logs its time-outs under identifiers of its own making, in the same table as the players'.
  If a player has used one that the worker will have to write, the tick fails there, and the first such
  error ends the tick for all rooms of the server, before its dealers and its rematches. Left alone, the
  worker brings all rooms to rest exactly if in no room such an identifier has been used, under either
  policy (`ServerRuns.ServerReleasesExactly`). From the moment one such turn is due, no dealer of any
  room moves, no finished round of any room is continued and no room is released
  (`ServerRuns.OneRoomBlocksAll`, `ServerRuns.UsedKeyBlocks`). A single HIT is enough to get there
  (`WorkerProgress.PlayerBlocksWorker`).
- A room that has let go of its running round (above) does the same to a server under the heuristic
  policy when the hint for that round says hit: the forced HIT finds no session in the room, and that
  error ends the tick. Otherwise the time-out settles the round and gives it back to its room
  (`ServerRuns.LostRoundTimeout`).
- The limiter's bound, capacity plus rate times the length of the window, needs callers whose clocks
  agree. A call with an earlier time sets back the time from which the key refills, so the bound that
  always holds counts every step forward (`TokenBucket.StoreBoundsEveryWindow`);
  `TokenBucket.TwoClocksRefillTwice` is a case in which more is allowed.
- The look-up of an action identifier comes after the version check, so repeating an accepted HIT or
  STAND in its round is answered with a version conflict (`RoundSteps.SequentialRetryConflicts`); a
  replay is only seen by a call that had read the session before the first send was committed.
- A turn that times out is a loss by time. The written specification (section 4.4.4 of the supplement
  under `docs/`) has the system STAND instead, so that the dealer still plays; the code settles at
  once, and the model follows the code.
- A refusal of the rematch does not move the session's version, so the same player may still agree
  afterwards (`RoomRuns.AgreementAfterRefusal`).
- Keys of the hub join room and user with a colon. They are unambiguous because room identifiers hold
  no colon; `RoomHub.ColonsCollide` shows two that would collide otherwise.

## Model

| member | source | states |
|---|---|---|
| `Cards.OrderedDeckHoldsEveryCardOnce` | backend/usecase/game_usecase.go:1386-1393 | every card lies at exactly one place of the unshuffled deck, and which |
| `Cards.BuildDeck` | backend/usecase/game_usecase.go:1386-1393 | the nested loops over suits and ranks build that deck |
| `Shuffle.ShuffleInPlace` | backend/usecase/game_usecase.go:1394-1403 | the in-place loop, failed draws included, leaves the arrangement that its picks stand for |
| `Shuffle.ShuffledPermutes` | backend/usecase/game_usecase.go:1394-1403 | whatever the picks, the result is a permutation |
| `Shuffle.ShuffleReaches` | backend/usecase/game_usecase.go:1394-1403 | every arrangement is produced by some in-range picks |
| `Shuffle.ShuffleInjective` | backend/usecase/game_usecase.go:1394-1403 | different picks give different arrangements when the cards differ |
| `Shuffle.ShuffleBijection` | backend/usecase/game_usecase.go:1394-1403 | every arrangement comes from exactly one sequence of picks, for any deck length |
| `Shuffle.FullDeckDistinct` | backend/usecase/game_usecase.go:1385-1405 | a deck with every card once has 52 different cards |
| `Shuffle.NewShuffledDeck` | backend/usecase/game_usecase.go:1385-1405 | the dealt deck is a full deck even if the random source fails at any steps |
| `Hands.HardValue` | backend/adapter/blackjackadapter/evaluator.go:34-61 | the loop adds up the hand with every ace as one |
| `Hands.TotalsAreTensAboveHard` | frontend/src/App.tsx:254-270 | the totals a hand can be counted as are the hard total raised by ten for some of its aces |
| `Hands.ValueIsOptimal` | backend/adapter/blackjackadapter/evaluator.go:13-16 | the value is the highest total up to 21 over all ways to count the aces, or the least total if all are bust |
| `Hands.LoweringAllAcesGivesValue` | frontend/src/App.tsx:254-270 | counting aces high and taking off ten while over 21 gives that value |
| `Hands.SoftMeansOneHighAce` | backend/adapter/blackjackadapter/evaluator.go:28-32 | a hand is soft exactly when one ace counts eleven in its value |
| `CardText.ParseUndoesCardText` | frontend/src/App.tsx:184-204 | the browser reads back exactly the card the server wrote |
| `CardText.CardTextInjective` | backend/controller/room_ws_controller.go:449-479 | different cards are written differently |
| `CardText.PointsAreWritten` | frontend/src/App.tsx:247-252 | the points of every rank follow from its text: the numeral from 2 to 10, ten for a court card, one or eleven for an ace |
| `CardText.CollectFaces` | frontend/src/App.tsx:254-259 | the browser keeps the cards it can read, in order |
| `CardText.HandScore` | frontend/src/App.tsx:254-270 | the browser's loops give the value of the readable cards, and nothing for no readable card |
| `CardText.ScoreOfServerText` | frontend/src/App.tsx:184-270 | scoring the text the server sends gives the server's value of the hand |
| `Policies.DealerDrawsBelow17` | backend/model/dealer_policy.go:17-32 | the dealer draws exactly on values below 17, and stands on soft 17 |
| `Policies.OneDrawStaysUnder27` | backend/model/dealer_policy.go:17-32 | a card drawn at 16 or less leads to at most 26 |
| `Policies.DealerStops` | backend/model/dealer_policy.go:17-32 | with enough cards the dealer stops after at most 17 minus the hard total draws, at 17 to 26 |
| `Policies.OutcomeComparesStrength` | backend/model/outcome.go:3-33 | win, loss and push are the comparison of hands ranked by value with a natural on top and bust at the bottom |
| `Policies.SwappingHandsSwapsOutcome` | backend/model/outcome.go:3-33 | swapping the hands swaps win and loss exactly unless both are bust |
| `Policies.NaturalNeverLoses` | backend/model/outcome.go:3-33 | a natural wins or pushes |
| `Policies.HintIsChart` | backend/model/intermediate_strategy.go:5-73 | the hint is the entry of a chart of totals against the dealer's card, for every hand that is not bust |
| `Policies.RecommendedHitIsLow` | backend/model/intermediate_strategy.go:5-73 | the hint never advises a hit at a hard total above 16 or a value above 18 |
| `Policies.HintFollowsDealer` | backend/model/intermediate_strategy.go:5-73 | a stronger dealer card never turns a recommended hit into a stand, exactly unless the hand is a hard 12 |
| `Policies.HintFollowsHand` | backend/model/intermediate_strategy.go:56-73 | among hard hands the hint is monotone exactly except for a 10 against 2 to 9, where it stands |
| `RoundInvariant.LayoutConservesCards` | backend/usecase/game_usecase.go:961-1002 | with cards dealt in turn and drawn from the top, the two hands are the drawn part of the deck and hold no card twice |
| `RoundSteps.NewRoundIsGood` | backend/usecase/game_usecase.go:411-463 | dealing a new round from a full deck never fails and gives a good session in the player's or, on a natural, the dealer's turn |
| `RoundSteps.DrawSucceeds` | backend/model/deck.go:12-22 | no stored session can make a draw fail: at most 22 and 17 cards are out and 13 are left |
| `RoundSteps.PlayRowsAreGood` | backend/usecase/game_usecase.go:549-611 | HIT and STAND on a stored session in the player's turn always work out, and HIT never finds a natural |
| `RoundSteps.PlayRecordAnswers` | backend/usecase/game_usecase.go:493-634 | HIT and STAND are accepted exactly for the owner, the current version, the player's turn and a new action identifier, and then move the version by one |
| `RoundSteps.SequentialRetryConflicts` | backend/usecase/game_usecase.go:508-547 | repeating an accepted action, under any identifier, is a version conflict |
| `RoundSteps.ForfeitRecordAnswers` | backend/usecase/game_usecase.go:1203-1299 | a due turn is settled as a loss by time unless the identifier of its log entry is used up; before it is due nothing happens |
| `RoundSteps.DealerRecordAnswers` | backend/usecase/game_usecase.go:1302-1382 | a dealer step never fails: below 17 it draws one card that raises the hard total, otherwise it settles |
| `RecordLaws.DealLaw` | backend/usecase/game_usecase.go:411-463 | a new round field by field: cards 0 and 2 against 1 and 3, fifteen seconds for the player, or the dealer's turn on a 21 |
| `RecordLaws.HitLaw` | backend/usecase/game_usecase.go:549-611 | HIT field by field: the next card of the deck, fifteen more seconds, or the end of the turn above 21 |
| `RecordLaws.StandLaw` | backend/usecase/game_usecase.go:578-611 | STAND field by field |
| `RecordLaws.PlayRefusals` | backend/usecase/game_usecase.go:508-547 | with which error a refused HIT or STAND is answered |
| `RecordLaws.ForfeitLaw` | backend/usecase/game_usecase.go:1234-1294 | a loss by time field by field, with its log entry and thirty seconds for the rematch |
| `RecordLaws.DealerDrawLaw` | backend/usecase/game_usecase.go:1342-1352 | below 17 the dealer takes the next card of the deck and nothing else changes |
| `RecordLaws.DealerSettleLaw` | backend/usecase/game_usecase.go:1005-1038 | from 17 on the round is settled field by field, with its round log and thirty seconds for the rematch |
| `AtomicSessions.CreateSessionIs` | backend/repository/game_repository_schema.go:31-34 | a round is stored exactly when its number and its identifier are free |
| `AtomicSessions.OpenNextIs` | backend/usecase/game_usecase.go:744-823 | the next round is opened exactly when its number is free, so no session gets two successors |
| `AtomicSessions.ApplyKeepsDbInv` | backend/repository/game_repository.go:26-72 | every operation keeps all stored sessions good, round numbers different, and lets a session only grow |
| `Interleaving.CommitIsAtomic` | backend/usecase/game_usecase.go:501-634 | a commit that passes the version check has read exactly the session, player and dealer it replaces, and writes what the operation would write alone at the time the call has read |
| `Interleaving.CommitMovesVersionByOne` | backend/repository/game_repository.go:49-72 | a successful commit moves the version by exactly one |
| `Interleaving.StepKeepsInv` | backend/usecase/game_usecase.go:493-634 | every single read of a row or of the clock, commit, whole call or clock tick keeps the invariant of the tables and of all calls under way, and is at most one atomic operation |
| `Runs.InterleavedRunIsSequential` | backend/usecase/game_usecase.go:493-1382 | after any interleaving the tables are what the committed operations, one after the other and each at the time its call has read, make of them |
| `Runs.CardsAreConserved` | backend/usecase/game_usecase.go:550-559 | in every stored session the draw index is the size of both hands together and the hands are the first so many cards of a full deck, none twice |
| `Runs.DeckNeverRunsOut` | backend/model/deck.go:12-22 | whatever a call has read, however stale, it can draw from it |
| `Runs.HandsStaySmall` | backend/usecase/game_usecase.go:550-577 | the player never holds more than 22 cards, the dealer never more than 17 |
| `Runs.SessionShape` | backend/usecase/game_usecase.go:440-463 | only three statuses are stored; deadlines, hole card and player status go with them in both directions |
| `Runs.SettledExactlyWhenResetting` | backend/usecase/game_usecase.go:1005-1071 | a session has its one round log, an outcome and final scores exactly when its status is RESETTING |
| `Runs.SettlementIsFinal` | backend/usecase/game_usecase.go:1005-1071 | nothing of a settled result ever changes, whatever happens later |
| `Runs.SessionsOnlyGrow` | backend/repository/game_repository.go:49-72 | deck, round number and owner of a session never change, its version never falls, its log never loses an entry |
| `Runs.ResultsAreRight` | backend/usecase/game_usecase.go:1005-1071 | stored scores are the values of the stored hands, and the outcome is the comparison of the hands or a loss by time; bust loses, a natural does not |
| `Runs.VersionCountsActions` | backend/usecase/game_usecase.go:599-629 | HIT logs number the drawn cards, and during play the version counts the cards and the stand |
| `Runs.AcceptedLeavesTraces` | backend/usecase/idempotency.go:29-32 | an action that takes effect had the current version and a new identifier, and leaves both behind |
| `Runs.AcceptedAtMostOnce` | backend/usecase/idempotency.go:11-32 | in any run, no two actions that take effect on one session share an action identifier or a version |
| `Findings.SameActionAgain` | backend/usecase/game_usecase.go:493-634 | an accepted action is accepted once more, after any further calls, exactly if another session is current, in the player's turn, at its version and without its identifier |
| `Findings.NeverAgainInItsRound` | backend/usecase/game_usecase.go:493-634 | while its own session is current an accepted action is never accepted again, whatever is called in between |
| `Findings.NextRoundRepeatsAction` | backend/usecase/game_usecase.go:501-547 | after the rematch the first action of the finished round is accepted again exactly when the new round deals no natural |
| `Findings.SameActionTwice` | backend/usecase/game_usecase.go:493-634 | a run in which one STAND, sent in two rounds under the same version and identifier, is accepted both times |
| `RoomInvariant.LatestIsNewestExactly` | backend/repository/game_repository.go:108-118 | the search by creation time is sure to find the highest numbered session exactly if that one was created strictly after all others |
| `RoomInvariant.FreeNumberIsNext` | backend/usecase/game_usecase.go:416-423 | whatever the clock, a round whose number is accepted follows the newest session |
| `RoomSteps.JoinKeeps` | backend/usecase/game_usecase.go:113-185 | joining keeps the room consistent |
| `RoomLaws.JoinLaw` | backend/usecase/game_usecase.go:113-185 | joining is accepted exactly for the host of a room without a session and with an empty seat; then the seat is taken and the room ready |
| `RoomLaws.JoinRefusals` | backend/usecase/game_usecase.go:113-145 | with which error joining is refused |
| `RoomSteps.LeaveKeeps` | backend/usecase/game_usecase.go:233-294 | leaving keeps the room consistent |
| `RoomLaws.LeaveLaw` | backend/usecase/game_usecase.go:233-294 | leaving is accepted exactly for a host who has been seated, without a session; then the seat is given up and the room waits |
| `RoomLaws.LeaveRefusals` | backend/usecase/game_usecase.go:233-256 | with which error leaving is refused |
| `RoomLaws.LeavingAndJoining` | backend/usecase/game_usecase.go:113-294 | who has left cannot start, may leave again without effect, and restores the room by joining |
| `RoomSteps.ConnectionKeeps` | backend/usecase/game_usecase.go:1074-1110 | connecting and disconnecting keep the room consistent |
| `RoomLaws.ConnectLaw` | backend/usecase/game_usecase.go:1074-1089 | connecting brings back a disconnected seat and leaves any other as it is, for the host alone |
| `RoomLaws.DisconnectLaw` | backend/usecase/game_usecase.go:1092-1110 | disconnecting marks the active seat of the host and is otherwise without effect |
| `RoomLaws.ReconnectingRestores` | backend/usecase/game_usecase.go:1074-1110 | a connection that is lost and comes back leaves no trace |
| `RoomLaws.ResetLaw` | backend/usecase/game_usecase.go:319-359 | the debug reset is the host's and leaves no seat, no session and no vote |
| `RoomLaws.StatusLaw` | backend/model/entities.go:44-61 | the status for every number of players, and the two errors |
| `RoomSteps.StartKeeps` | backend/usecase/game_usecase.go:389-480 | an accepted start keeps the room consistent, whichever of several latest sessions was found |
| `RoomLaws.StartLaw` | backend/usecase/game_usecase.go:389-480 | starting is accepted exactly for the seated host of a room without a session, with a new identifier and the newest session found; it adds one session, as dealt, and makes it current |
| `RoomLaws.MayStartLaw` | backend/usecase/game_usecase.go:389-415 | with which error starting is refused |
| `RoomSteps.OneVoteDecides` | backend/model/rematch.go:16-26 | with one seat, the vote of the seated player is unanimous or a refusal |
| `RoomLaws.UnanimityLaw` | backend/model/rematch.go:16-26 | nobody is no agreement, a missing vote prevents one, and only a refusal is a denial |
| `RoomLaws.SilenceRefuses` | backend/usecase/game_usecase.go:717-731 | at the deadline a missing vote counts as a refusal |
| `RoomSteps.RefusalKeeps` | backend/usecase/game_usecase.go:705-742 | a refusal is accepted and, when no round is running, releases the room and keeps it consistent |
| `RoomSteps.RefusalLosesRound` | backend/usecase/game_usecase.go:720-742 | a refusal while a round is running is accepted all the same and leaves that round running outside its room |
| `RoomSteps.AgreementKeeps` | backend/usecase/game_usecase.go:744-823 | an agreement succeeds exactly if it reaches the newest session and the new identifier is new; then the new session is the current and only running one |
| `RoomSteps.VoteAcceptedExactly` | backend/usecase/game_usecase.go:826-958 | a vote under a new identifier is accepted exactly if it is fresh where it arrives, an agreement only on the newest session |
| `RoomSteps.VoteKeeps` | backend/usecase/game_usecase.go:826-958 | an accepted vote keeps the room consistent exactly unless it is a refusal while a round is running |
| `RoomLaws.VoteRefusals` | backend/usecase/game_usecase.go:826-958 | with which error a vote under a new identifier is refused |
| `RoomLaws.RefusalSentAgain` | backend/usecase/idempotency.go:11-27 | a refusal is recorded; sent again it succeeds without effect, and an agreement under its identifier is a duplicate |
| `RoomLaws.AgreementSentAgain` | backend/usecase/game_usecase.go:866-879 | an agreement that is sent again finds a running round, or the old one a version further |
| `RoomTables.CallIsOneOperation` | backend/usecase/game_usecase.go:113-1382 | what any call of the service does to the tables is one atomic operation |
| `RoomTables.CallKeepsTables` | backend/usecase/game_usecase.go:113-1382 | every call keeps all sessions good, numbering and status, whatever the clock does |
| `RoomTables.RoundsAreNumbered` | backend/model/entities.go:44-61 | in every run sessions are numbered 1 to n, each number once, and the status matches current session and seat in both directions |
| `RoomSteps.DeadlineReleases` | backend/usecase/game_usecase.go:1161-1200 | at the deadline of the current session, which has no votes, the room is released |
| `RoomSteps.DeadlineKeeps` | backend/usecase/game_usecase.go:1161-1200 | deciding a deadline keeps the room consistent, whichever session it is |
| `RoomRuns.CallKeeps` | backend/usecase/game_usecase.go:113-1382 | a successful call keeps the room consistent exactly unless it is a refusal that arrives while a round is running |
| `RoomRuns.RunIsConsistentExactly` | backend/usecase/game_usecase.go:113-1382 | a run is consistent in all its states exactly if none of its calls is such a refusal |
| `RoomRuns.RoomStaysConsistent` | backend/usecase/game_usecase.go:113-1382 | in every run without such a refusal at most one session is running, it is the current one, and the current one is the newest |
| `RoomRuns.MovingClockIsEnough` | backend/usecase/game_usecase.go:389-480 | no run in which the clock moves on between two rounds has such a refusal |
| `RoomRuns.OrderNeedsMovingClock` | backend/repository/game_repository.go:108-118 | opening a round keeps creation times in order exactly if the clock has moved since the last one |
| `Findings.TieLosesRound` | backend/usecase/game_usecase.go:720-742 | after an agreement the finished session can still be found exactly if the clock has not moved since it was created, and a refusal that reaches it then loses the new round |
| `Findings.RoundLostAtConstantClock` | backend/usecase/game_usecase.go:113-958 | a run at a constant clock that ends with a running round outside its room |
| `RoomRuns.OfferedPlaysAreAccepted` | backend/usecase/game_usecase.go:637-665 | HIT and STAND with the shown version and a new identifier are accepted exactly when can_hit and can_stand say so |
| `RoomLaws.StateLaw` | backend/usecase/game_usecase.go:637-665 | the host is shown the current session's version and what its status allows, a stranger an error |
| `RoomRuns.OfferedVotesAreAccepted` | backend/usecase/game_usecase.go:826-958 | a vote with the shown version and a new identifier that reaches the current session is accepted exactly when can_rematch_vote says so; an agreement that reaches another session never is |
| `RoomRuns.LatestIsCurrent` | backend/repository/game_repository.go:108-118 | votes reach the current session unless another one shares its instant |
| `RoomRuns.AgreementAfterRefusal` | backend/usecase/game_usecase.go:705-742 | after a refusal the same player may still agree with the same version, and the next round opens |
| `Server.ServedIsShared` | backend/usecase/game_usecase.go:1121-1150 | a list over all rooms gives each room its share, and fails exactly if some share fails |
| `Server.ServerTickIs` | backend/usecase/game_usecase.go:1113-1158 | a tick, with its lists in any order, gives every room what its current session calls for, exactly unless some due turn fails; if one does, at most due turns are served |
| `DueLaws.QueriesList` | backend/repository/game_repository.go:120-178 | which sessions the three queries list, by status and deadline |
| `DueLaws.TimeoutLaw` | backend/usecase/game_usecase.go:1203-1210 | before its deadline a turn is left alone; from then on it is taken up, exactly unless its log entry cannot be written |
| `DueLaws.HeuristicTimeoutLaw` | backend/usecase/game_usecase.go:1226-1233 | under the heuristic policy the chart decides with the dealer's first card: a logged hit of one card, or the loss |
| `DueLaws.DefaultTimeoutLaw` | backend/usecase/game_usecase.go:1234-1294 | under the default policy the turn is lost, whatever the hand |
| `DueLaws.TickBeforeDeadline` | backend/usecase/game_usecase.go:1113-1130 | no tick touches a room whose turn has time left |
| `DueLaws.TickAtDeadline` | backend/usecase/game_usecase.go:1113-1130 | a tick that nothing ends early takes up every turn whose time is over |
| `DueLaws.TickMovesDealer` | backend/usecase/game_usecase.go:1131-1143 | a tick that nothing ends early gives every dealer one card below 17, else the result |
| `DueLaws.RematchLaw` | backend/usecase/game_usecase.go:1161-1200 | before the deadline of the rematch nothing is decided, from then on the room is released |
| `DueLaws.TickBeforeRematch` | backend/usecase/game_usecase.go:1145-1157 | no tick touches a room whose rematch has time left |
| `DueLaws.TickAtRematch` | backend/usecase/game_usecase.go:1145-1157 | a tick that nothing ends early releases every room whose rematch is over |
| `DueLaws.ToleratedLaw` | backend/usecase/game_usecase.go:1122-1124 | losing a race and finding nothing do not end a tick, every other error does |
| `ServerRuns.ServerTickFailsExactly` | backend/usecase/game_usecase.go:1113-1158 | a tick fails exactly if some room has a due turn whose identifier has been used |
| `Numerals.ReadingUndoesDecimal` | backend/usecase/game_usecase.go:1255-1256 | a version reads back from its numeral |
| `Numerals.DecimalInjective` | backend/usecase/game_usecase.go:1228-1255 | versions are written differently in the worker's identifiers |
| `WorkerIds.WorkerIdsDiffer` | backend/usecase/game_usecase.go:1228-1255 | the worker never uses one identifier for two purposes |
| `WorkerIds.StuckByDefault` | backend/usecase/game_usecase.go:1254-1255 | under the default policy a turn needs one identifier |
| `WorkerIds.ForcedHitKeepsStuck` | backend/usecase/game_usecase.go:1226-1234 | a forced hit neither frees nor uses up an identifier that the rest of the turn needs |
| `WorkerProgress.TickProgress` | backend/usecase/game_usecase.go:1203-1382 | a room's full share of a tick, on a due turn whose log entry can be written or on a dealer's turn, does not fail and leaves fewer steps to do |
| `WorkerProgress.DefaultTickForfeits` | backend/usecase/game_usecase.go:1203-1299 | under the default policy a full share leaves a due turn over and lost, exactly unless its one identifier has been used |
| `WorkerProgress.TickFailsExactlyOnUsedKey` | backend/usecase/game_usecase.go:1221-1294 | under either policy a room's due turn fails exactly if the identifier it has to write has been used, with which error, and changes nothing |
| `WorkerProgress.RematchTickReleases` | backend/usecase/game_usecase.go:1161-1200 | a full share releases a room whose finished session is past its deadline |
| `WorkerProgress.PlayerBlocksWorker` | backend/usecase/game_usecase.go:1228-1255 | a player's HIT under the next needed identifier is accepted and leaves the turn stuck exactly unless it ends the turn |
| `ServerRuns.FreeBeat` | backend/usecase/game_usecase.go:1113-1158 | while no room is stuck, every tick gives every room its full share, and none becomes stuck |
| `ServerRuns.RoomFinishes` | backend/usecase/game_usecase.go:1113-1299 | while no room is stuck, a room is released once as many ticks have found it due as are left in it, whenever the ticks come |
| `ServerRuns.WorkerFinishes` | backend/usecase/game_usecase.go:1113-1299 | while no room is stuck, all rooms are released after as many waited-out ticks as are left in any of them |
| `ServerRuns.StuckForEver` | backend/usecase/game_usecase.go:1113-1299 | a room with a used identifier ahead is never released, however often the worker ticks |
| `ServerRuns.ServerReleasesExactly` | backend/usecase/game_usecase.go:1113-1299 | after 34 waited-out ticks all rooms are released exactly if in no room a needed identifier has been used |
| `ServerRuns.DefaultServerReleasesExactly` | backend/usecase/game_usecase.go:1254-1294 | under the default policy that is, for each room, the one of the loss by time |
| `Deadlines.DeadlinesAreNear` | backend/usecase/game_usecase.go:446-446 | in every interleaved run no turn has more than fifteen seconds left and no rematch more than thirty |
| `Deadlines.SpacedTicksRelease` | backend/usecase/game_usecase.go:1113-1299 | 34 ticks, thirty seconds apart, release all rooms exactly if in no room a needed identifier has been used |
| `ServerRuns.TurnEnds` | backend/model/intermediate_strategy.go:5-73 | while no room is stuck, a timed-out turn is over within 16 ticks and after at most 15 forced cards |
| `ServerRuns.DealerSettles` | backend/usecase/game_usecase.go:1302-1382 | while no room is stuck, a dealer's turn is settled within 16 ticks |
| `ServerRuns.LostRoundTimeout` | backend/usecase/game_usecase.go:1203-1299 | what the timeout of a round that its room has let go of answers: InvalidGameState for a forced hit, else the round is settled and given back, exactly unless its identifier has been used |
| `ServerRuns.UsedKeyBlocks` | backend/usecase/game_usecase.go:1254-1294 | a due turn whose identifier has been used makes its room one that blocks the server |
| `ServerRuns.OneRoomBlocksAll` | backend/usecase/game_usecase.go:1119-1158 | while one room blocks the server, no dealer moves, no finished round changes and no room is released, in any room and however often the worker ticks |
| `Entities.GameSession.SetDeck` | backend/model/deck.go:3-10 | a new deck starts at its first card |
| `Entities.GameSession.DrawCard` | backend/model/deck.go:12-22 | the next card, or an error that leaves the session alone |
| `Entities.GameSession.RemainingDeckCards` | backend/model/deck.go:24-29 | cards are left exactly when a draw would succeed |
| `Entities.GameSession.TransitionTo` | backend/model/entities.go:126-156 | the status moves along the chain of a round and nowhere else |
| `Entities.GameSession.SetRematchDeadline` | backend/model/rematch.go:7-14 | the deadline is thirty seconds away, and absent for the zero time |
| `Entities.GameSession.CheckVersion` | backend/model/entities.go:112-120 | only the positive current version passes, with one error for each other case |
| `Entities.GameSession.IncrementVersion` | backend/model/entities.go:122-124 | the version moves by one and nothing else changes |
| `Entities.AssertCanHitOrStand` | backend/model/player_rules.go:3-20 | passes exactly in the player's turn for the active owner of the seat whose turn it is |
| `Entities.InitialDeal` | backend/usecase/game_usecase.go:961-1002 | dealing on the objects is the dealing of four cards in turn, errors included |
| `Entities.PlayTurn` | backend/usecase/game_usecase.go:549-611 | the in-place computation of HIT and STAND makes exactly the rows that the transaction commits |
| `Entities.DealerResult` | backend/usecase/game_usecase.go:1005-1038 | opens the hole card and fixes scores, outcome and round log |
| `Entities.ForfeitTurn` | backend/usecase/game_usecase.go:1041-1071 | the same with a loss by time and the player standing |
| `Entities.StepDealer` | backend/usecase/game_usecase.go:1326-1352 | one card or the result, and the version moves by one |
| `Store.SessionTables.UpdateSessionIfVersion` | backend/repository/game_repository.go:49-72 | writes only over the expected version and leaves round number and creation time alone |
| `Store.SessionTables.CreateSession` | backend/repository/game_repository.go:74-80 | refuses a used identifier or round number and otherwise adds exactly one session |
| `Store.SessionTables.CreateRoundLog` | backend/repository/game_repository.go:296-302 | one round log for each round number of a session |
| `Store.SessionTables.CreateActionLog` | backend/repository/game_repository.go:257-260 | one action log for each actor and action identifier of a session |
| `Store.EnsureActionIdempotency` | backend/usecase/idempotency.go:11-27 | a known identifier is a replay for the same request and an error for another one |
| `RoomLaws.PlayCallRefusals` | backend/usecase/game_usecase.go:493-547 | with which error a room refuses a HIT or STAND |
| `RoomLaws.GoneSessionLaw` | backend/usecase/game_usecase.go:1161-1306 | the worker's calls answer NotFound for a session that is gone |
| `RoomLaws.KnownIdLaw` | backend/usecase/idempotency.go:11-27 | a known identifier is a replay exactly for the same request, and an error exactly for another |
| `SessionCalls.RunningCall.ReadSession` | backend/usecase/game_usecase.go:505-513 | reading the session is one step of the interleaved system, with the answer it gives when it ends the call |
| `SessionCalls.RunningCall.ReadPlayer` | backend/usecase/game_usecase.go:514-520 | reading the player is one such step |
| `SessionCalls.RunningCall.ReadDealer` | backend/usecase/game_usecase.go:521-524 | reading the dealer is one such step |
| `SessionCalls.RunningCall.CheckLog` | backend/usecase/game_usecase.go:525-547 | the rules and the action log are one such step |
| `RoomLaws.CheckLogLaw` | backend/usecase/game_usecase.go:541-547 | a HIT or STAND that is sent again ends well at its look at the log exactly if the entry is of the same request, and with an error if it is of another |
| `RoomLaws.ConcurrentResend` | backend/usecase/game_usecase.go:505-634 | of two sends that have both read before one commits, the other ends well at the log exactly if it is the same request |
| `SessionCalls.RunningCall.Commit` | backend/usecase/game_usecase.go:611-634 | the transaction writes everything the commit step writes, or nothing |
| `SessionCalls.EveryCallFits` | backend/usecase/game_usecase.go:493-634 | in any interleaving every call that is ready to commit meets what its transaction relies on |
| `SessionCalls.ReadThenCommitIsAlone` | backend/usecase/game_usecase.go:493-634 | with nothing in between, reading and committing is the operation run alone, errors included |
| `SessionCalls.RunAlone` | backend/usecase/game_usecase.go:493-634 | the whole call on objects does and answers what the operation does alone |
| `RoomObjects.RoomObject.RecalculateStatus` | backend/model/entities.go:44-61 | the status that current session and seats call for, or an error that leaves it alone |
| `RoomObjects.PrepareRound` | backend/usecase/game_usecase.go:411-463 | the objects of a new round are the dealt round of the specification |
| `RoomService.Service.JoinRoom` | backend/usecase/game_usecase.go:113-185 | does to the room what joining is specified to do, errors included; a consistent room stays so |
| `RoomService.Service.LeaveRoom` | backend/usecase/game_usecase.go:233-294 | the same for leaving; a consistent room stays so |
| `RoomService.Service.MarkConnected` | backend/usecase/game_usecase.go:1074-1089 | the same for connecting; a consistent room stays so |
| `RoomService.Service.MarkDisconnected` | backend/usecase/game_usecase.go:1092-1110 | the same for disconnecting; a consistent room stays so |
| `RoomService.Service.GetLatestSession` | backend/repository/game_repository.go:108-118 | some session that none is newer than, and none only if there is none |
| `RoomService.Service.StartRoom` | backend/usecase/game_usecase.go:389-480 | the same for starting, with the deck its random draws give; a consistent room stays so |
| `RoomService.Service.GetRoomState` | backend/usecase/game_usecase.go:637-665 | shows the version and the offers of the specification |
| `RoomService.Service.PlayerTurn` | backend/usecase/game_usecase.go:493-634 | the same for HIT and STAND; with the shown version and a new identifier it succeeds exactly when the shown state offers it |
| `RoomService.Service.PlayerStand` | backend/usecase/game_usecase.go:1203-1299 | the same for a timed-out turn under either policy; a consistent room stays so |
| `RoomService.Service.DealerTurn` | backend/usecase/game_usecase.go:1302-1382 | the same for a dealer step; in a consistent room it never fails on a stored session |
| `RoomService.Service.OpenNext` | backend/usecase/game_usecase.go:744-823 | bumping the finished session and storing the next round is the specified opening |
| `RoomService.Service.VoteRematch` | backend/usecase/game_usecase.go:826-958 | the same for a vote; a vote that fails half-way is undone as a whole, and a consistent room stays so exactly unless the vote is a refusal while a round is running |
| `RoomService.Service.ProcessRematchDeadline` | backend/usecase/game_usecase.go:1161-1200 | the same for a rematch deadline; a consistent room stays so |
| `RoomService.Service.ResetRoom` | backend/usecase/game_usecase.go:319-359 | the same for the debug reset; a consistent room stays so |
| `WorkerService.Background.ServeList` | backend/usecase/game_usecase.go:1121-1130 | the loop over a list of sessions of all rooms stops at the first error that is not tolerated and is otherwise one call per entry on its room |
| `WorkerService.Background.AutoStandDueSessions` | backend/usecase/game_usecase.go:1113-1158 | the three loops are one tick of the specification on what the queries find in all rooms; on consistent rooms the tick keeps them so and fails exactly on a used identifier |
| `TokenBucket.BucketStore.RunScript` | backend/repository/rate_limit_repository.go:28-71 | the script on its store of expiring keys answers and stores what the bucket function says, and leaves other keys alone |
| `TokenBucket.RefillInFigures` | backend/repository/rate_limit_repository.go:46-51 | what a bucket holds after d milliseconds: rate times d over 1000 more, up to the capacity |
| `TokenBucket.AnswerInFigures` | backend/repository/rate_limit_repository.go:53-70 | a call is allowed exactly if its cost is there; the tokens reported are those stored |
| `TokenBucket.WaitInFigures` | backend/repository/rate_limit_repository.go:58-62 | the wait is the least whole number of milliseconds in which the missing tokens flow in |
| `TokenBucket.SenselessCallsAreRefused` | backend/repository/rate_limit_repository.go:35-37 | without a rate, a capacity or a cost the answer is no and nothing is stored |
| `TokenBucket.TtlInFigures` | backend/repository/rate_limit_repository.go:66-68 | a key is kept for the least whole time that is a second and twice the time to fill up |
| `TokenBucket.TokensStayInBounds` | backend/repository/rate_limit_repository.go:43-65 | stored tokens stay between 0 and the capacity over every run, whatever times the callers give |
| `TokenBucket.AdmissionBound` | backend/repository/rate_limit_repository.go:43-65 | from any state in bounds and for any times, allowed cost plus what is left is at most the capacity plus the inflow over the steps forward |
| `TokenBucket.EveryWindowIsBounded` | backend/repository/rate_limit_repository.go:28-71 | the same for every window of every run from an unused key |
| `TokenBucket.RetryHintIsExact` | backend/repository/rate_limit_repository.go:58-62 | an undisturbed retry is allowed exactly from the returned wait on, provided the cost fits the capacity at all |
| `TokenBucket.ExpiryIsInvisible` | backend/repository/rate_limit_repository.go:66-68 | dropping idle keys never changes an answer, for any times: a store that expires answers like one that does not |
| `TokenBucket.StoreBoundsEveryWindow` | backend/repository/rate_limit_repository.go:28-71 | what the expiring store really answers keeps the bound in every window of every run, for any times |
| `TokenBucket.OrderedWindowIsBounded` | backend/repository/rate_limit_repository.go:28-71 | if the times of a window are in order the bound is capacity plus rate times its length |
| `TokenBucket.TwoClocksRefillTwice` | backend/repository/rate_limit_repository.go:46-50 | if they are not, more can be allowed: two clocks ten seconds apart |
| `RoomHub.ConnectionHub.Add` | backend/controller/room_ws_controller.go:497-511 | both maps after an add, and the replaced connection |
| `RoomHub.ConnectionHub.Remove` | backend/controller/room_ws_controller.go:514-529 | both maps after a removal, also of unknown connections |
| `RoomHub.ConnectionHub.Snapshot` | backend/controller/room_ws_controller.go:532-540 | the connections of the room and nobody else's |
| `RoomHub.ConnectionHub.IsLatest` | backend/controller/room_ws_controller.go:543-547 | true exactly for the connection registered last for room and user |
| `RoomHub.KeysDiffer` | backend/controller/room_ws_controller.go:503-503 | keys of different rooms or users differ as long as room identifiers hold no colon |
| `RoomHub.ColonsCollide` | backend/controller/room_ws_controller.go:503-503 | with a colon in a room identifier two of them collide |
| `RoomHub.AddRefines` | backend/controller/room_ws_controller.go:497-511 | an add keeps both maps views of one registry of connections by room and user |
| `RoomHub.RemoveRefines` | backend/controller/room_ws_controller.go:514-529 | so does a removal |
| `RoomHub.LateCleanupIsIdle` | backend/controller/room_ws_controller.go:514-529 | late or repeated cleanup of a replaced connection changes nothing |
| `RoomHub.HubShowsRegistry` | backend/controller/room_ws_controller.go:497-547 | after every sequence of adds and removals the two maps show the registry, with no empty room |
| `RoomHub.MapsAreInverse` | backend/controller/room_ws_controller.go:497-547 | a connection is in a room's map exactly if it is the latest of its user there |

## Left out

- More than one human per room: `RecalculateStatus` refuses it, so there is one seat, held by the host. Handing the room to another host needs a second seated player and never happens.
- Clocks that differ: everything but the limiter takes one clock, shared by all servers, that never goes back; two servers with clocks apart could time a turn out early or create rounds in the wrong order.
- The time a call or a tick takes: a whole call and a tick of the worker happen at one time. In an interleaving the deadlines and log times of a call show the time at which it has read the clock.
- Interleaved claims about the room's row: calls read it early and write it back blindly, so statements about the room take each call as one step.
- Several rooms in one database: apart from the worker, whose ticks cover all rooms, the model is the slice of one room; identifiers of sessions are unique in the slice.
- The heuristic time-out in an interleaving: the forced HIT starts a HIT call of its own, so it appears there as a call that is dropped and a HIT call that begins.
- RoomService.Service.StartRoom: the deck is shuffled before the checks instead of after them, and so are the decks of a vote and of a tick (the worker's tick shuffles one deck, not one for each rematch); an unused deck leaves no trace.
- CardText.CollectFaces: trims and uppercases ASCII only; a browser also trims other blanks and uppercases, for one, a long s (U+017F) to S, so it may read a card from text that this one skips. The server never sends such text.
- CardText.HandScore: the same, since it scores what is read.
- Store.SessionTables.CreateSession: the three inserts of a new session are one step, as they only ever happen together in a transaction.
- The library's value of a hand and its drawing of a card onto a hand are not part of this model; the standard value and appending are assumed. Ranks are the thirteen real ones, since no other is ever stored.
- Payload hashes: a payload stands for its hash, which is taken to be injective. Stored response snapshots and the time of the last update are not modelled.
- 64-bit overflow of versions and times: in play a version stays below 40, and a finished session's version moves once per agreement.
- TokenBucket.BucketStore.RunScript: counts in exact reals and takes the caller's clock for the key's expiry; floating-point rounding and Redis truncating the returned tokens to an integer are not modelled.
- Which rooms a tick reports as updated, and the order in which queries list sessions (any order is allowed for).
- Validity checks on statuses and outcomes outside the enumerated ones: the types leave no other value. The outcome for a bust player is never produced by the rules and only exists as a value.
- HTTP and websocket handlers, sign-in, metrics, audit trail, Redis publish/subscribe, the connection epoch, the user interface: plumbing without protocol state, or without a property to prove.
- Room history, listing of rooms and the wording of hints: easy reads.
