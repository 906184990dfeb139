# A Dafny model of OBARENA

OBARENA lets teams submit matching engines, builds and deploys them, and puts them under load. This project models
the parts of it that are hard to get right and proves what they promise:

- **The reference matching engine** (`services/stub/main.go`). Two binary heaps of orders that know their own
  position, a map by order id, a greedy matching loop, cancels by id and by session, an aggregated snapshot and a
  clock that goroutines advance by compare-and-swap. `OrderHeap.dfy` and `Orderbook.dfy` keep the imperative form:
  classes whose fields are updated in place, sift-up and sift-down loops, orders shared between heap and map.
  `BookSpec.dfy` is the simple specification they are proved to implement: each side a list in priority order, and an
  incoming order that walks down the opposite list. `Fairness.dfy` says without any algorithm which allocations obey
  price-time priority and shows that exactly one does. `EngineRuns.dfy` carries the properties over whole runs,
  `Server.dfy` shows that every sequence of calls of the classes is such a run, and `SessionLife.dfy` adds the reply
  channels, readers and writers of the sessions.
- **The load bot** (`services/bot-runner/bot.go`), as interleaved steps of its writer, readers and collector over the
  pending table, the mutex and the in-flight counter, and the order sequences it sends (`LoadSequences.dfy`,
  `BotRunner.dfy`, `BotWrites.dfy`). `ClosedLoop.dfy`, `CancelLoop.dfy` and `Reconnects.dfy` join the bot and the
  engine by connections that are lost and made again.
- **The life of a submission** across submission-api, build-service, sandbox-orchestrator and bot-orchestrator
  (`Lifecycle.dfy`, `LifecycleRuns.dfy`): one log, commit after handling, and publishes, commits and processes that
  fail at any point.
- **The leaderboard hub** (`Hub.dfy`), **the telemetry buffer** (`Ingester.dfy`) and **UTF-8-safe truncation**
  (`Utf8.dfy`).

Concurrency is modelled as sequences of atomic steps: `IsRun(states, actions)` holds of the states passed through from
the initial one, with any interleaving of the steps, and a theorem about `states[n]` is one about every reachable
state. In the engine the book's mutex makes each handler one step; only the clock is advanced outside it, and
`Clocks` shows that its calls behave as if made one at a time.

Where a property that the code or its documentation suggests does not hold of the code, the model follows the code,
a lemma exhibits a failing run, and another says exactly when the property does hold:

- The bot's limit is 21 orders in flight, not 20: the check is made before the order is counted
  (`BotRunner.LimitIsMet`, `BotRunner.LimitExactly`).
- A failed write restarts the iteration, so ids are sent again while pending and the counter runs ahead of the table
  for good: exactly by the number of such sends (`BotRunner.CounterExactly`, `BotRunner.LeakIsForGood`), of which there
  are none before a write fails (`BotRunner.ExactUntilTorn`) and at most 20 ever. All 20 can happen
  (`BotRunner.LeakIsMet`); the bot then has room for one order at a time but never comes to a halt
  (`BotRunner.NeverStalls`).
- A poll that reports errors beside records throws the records away, and later commits pass them
  (`Lifecycle.DropLosesBuild`, `Lifecycle.CommitImpliesOutcome`, `Lifecycle.NoDrops`).
- A redelivered build.complete that finds its sandbox in place is committed without a sandbox.ready
  (`Lifecycle.LostReportIsNotRetried`, `Lifecycle.ExistingIsReported`, `Lifecycle.LostForever`).
- The hub may take up an unregistration before the registration, or never hear of it because its queue is full, and
  then keeps a dead client for ever, although the comment at services/leaderboard-ws/hub.go:107-108 expects it to be
  cleaned up (`LeaderboardHub.StrandedHappens`, `LeaderboardHub.StrandedByFullQueue`,
  `LeaderboardHub.StrandedExactly`, `LeaderboardHub.StrandedForever`).
- A session of the engine whose writer has stopped can block on its full reply channel before its orders are
  cancelled, and then they stay on the book (`SessionLife.JamHappens`, `SessionLife.StuckExactly`,
  `SessionLife.ClosesExactly`, `SessionLife.StuckOrdersStay`).
- A batch whose write went through but was reported as failed is inserted into the telemetry table again
  (`TelemetryIngester.TelemetryDoubled`, `TelemetryIngester.TelemetryExactly`); the score table does not show it.
- An error on closing the results of a batch is dropped, so a batch can be lost at its first attempt without being
  tried again (`TelemetryIngester.LostSilently`, `TelemetryIngester.LostExactly`).
- The engine sends fills only to the incoming order, although docs/api-contract.md:100 speaks of later fills for
  resting ones (`MakerFills.MakerNotTold`). A session has been told of all that its order traded exactly as long as
  no later step traded with the order on the book (`MakerFills.ReportedExactly`).
- So the bids of the load sequences, which the asks that follow them use up, leave the bot's table only by growing old
  (`ClosedLoop.RungsGrowOld`, `ClosedLoop.BidsGrowOldOnOneLine`). For basic_match this takes a single connection: on
  several a bid can meet an ask and be told of it (`Reconnects.FilledAfterReconnects`), exactly when the engine reads
  it while an ask is on the book (`ClosedLoop.BidFilledExactly`).

Prices are exact reals and quantities unbounded integers. The two sides of `match`, written out twice in the source,
are one loop here that picks its side; one round of Go's `heap.down` is the method `Sink`. In the ingester, the ghost
`history` of the class is the run of interleaved steps it has made.

## Model

| member | source | states |
|---|---|---|
| `Fairness.WalkIsTheFairAllocation` | services/stub/main.go:191-245 | An allocation takes no more than is there or wanted, only at acceptable prices, from nobody while someone with priority has something left, and stops short only when nothing acceptable is left, if and only if it is the one whose trades and residual queue the matching walk produces |
| `Engine.Orderbook.Match` | services/stub/main.go:191-245 | The in-place matching loop over the heaps returns the fills and leaves the book and the remaining quantity of the greedy walk over the opposite side sorted by price then entry time, keeps heaps, indices and map coherent, and stamps the fills in increasing order |
| `Engine.Orderbook.Execute` | services/stub/main.go:195-217 | One round of the loop trades with the first order by priority and removes it exactly when it is used up |
| `Engine.Orderbook.Round` | services/stub/main.go:195-217 | One round takes the match under way to one whose trades so far and remaining walk still make up the whole walk, with less left to do |
| `Engine.Orderbook.Rest` | services/stub/main.go:249-256 | A resting order enters its side behind everything that has priority over it, and the map and the heap stay in step |
| `Engine.Orderbook.Remove` | services/stub/main.go:258-274 | Removal by stored heap index deletes exactly the named order from map and book and nothing when the id is unknown |
| `Engine.Orderbook.SessionOrders` | services/stub/main.go:280-285 | Whatever order the map yields its entries in, the ids collected are those of the session's resting orders |
| `Engine.Orderbook.CancelSession` | services/stub/main.go:276-290 | The book loses exactly the session's orders and stays coherent |
| `OrderHeaps.OrderHeap.Swap` | services/stub/main.go:115-119 | Swapping two positions updates both stored indices, so that every order still knows its position |
| `OrderHeaps.OrderHeap.Down` | services/stub/main.go:107-119 | Sifting down among the first n restores heap order there, or leaves the heap as it was and reports that nothing moved |
| `OrderHeaps.OrderHeap.Up` | services/stub/main.go:107-119 | Sifting up restores heap order |
| `OrderHeaps.OrderHeap.Enter` | services/stub/main.go:121-126 | A push inserts the order at its place by price and time |
| `OrderHeaps.OrderHeap.Pop` | services/stub/main.go:128-136 | A pop takes the first order by price and time and leaves the rest in order, with index -1 on what it took |
| `OrderHeaps.OrderHeap.Withdraw` | services/stub/main.go:263-273 | Removing at the stored index drops exactly that order from the priority order |
| `OrderHeaps.RootIsHead` | services/stub/main.go:196-196 | The root of an ordered heap is the head of the priority queue that holds the same orders |
| `BookSpec.SubmitGood` | services/stub/main.go:330-410 | Whatever message arrives, the book stays sorted, uncrossed, with unique ids, positive prices and 0 < remaining <= quantity |
| `BookSpec.WalkStops` | services/stub/main.go:195-199 | A walk that leaves something wanted has left nothing on the book that crosses |
| `BookSpec.TradesInOrder` | services/stub/main.go:195-217 | Trade k is with the k-th order by priority, and all before it are used up |
| `BookSpec.CancelExact` | services/stub/main.go:412-435 | A cancel removes exactly the named order, and only for the session that entered it; otherwise the book is unchanged |
| `BookSpec.CancelReply` | services/stub/main.go:414-434 | The reply is unknown_order if and only if nothing rests under the id, unauthorized if and only if what rests there is another session's, and cancel_ack if and only if it is the session's own |
| `BookSpec.CancelSessionExact` | services/stub/main.go:276-290 | After a disconnect exactly the orders of other sessions remain |
| `BookSpec.DropGood` | services/stub/main.go:258-290 | Removing any set of ids keeps the priority order of the rest |
| `EngineRuns.NeverCrossed` | services/stub/main.go:191-290 | In every state of every run of orders, cancels, connects and disconnects the book is well formed and every bid is below every ask |
| `EngineRuns.QuantityConserved` | services/stub/main.go:191-290 | In every run, accepted quantity = 2 x traded + resting + cancelled + refused to market orders |
| `EngineRuns.DepthWalk` | services/stub/main.go:200-202 | A match takes from the resting side exactly what it gives to the incoming order |
| `EngineRuns.RestsExactly` | services/stub/main.go:360-402 | An accepted order leaves its own side as it was, and adds what is left of it, with its id, price, quantity, stamp and session, if and only if it is a limit order with something left |
| `EngineRuns.PriceTimePriority` | services/stub/main.go:104-147 | In every run an order trades only when no order on its side with a better price, or the same price and an earlier hold of the lock, is left |
| `EngineRuns.SessionNeverReturns` | services/stub/main.go:496-514 | After a disconnect the session never has an order on the book again and its id is never issued again |
| `EngineRuns.FreshSession` | services/stub/main.go:497-497 | A session id made of address and a new timestamp differs from all issued before |
| `Engine.Session.HandleOrder` | services/stub/main.go:330-410 | An order message has the effect and the replies of the specification, with strictly increasing timestamps, and keeps the book coherent and good |
| `Engine.Session.HandleCancel` | services/stub/main.go:412-435 | A cancel message has the effect and the one reply of the specification, which `BookSpec.CancelReply` and `BookSpec.CancelExact` pin down |
| `Engine.Session.Receive` | services/stub/main.go:524-534 | Every message type is answered as the specification says, an unknown one by a reject that changes nothing |
| `Engine.Session.Close` | services/stub/main.go:507-514 | Closing a session removes exactly its orders |
| `Servers.Server.Connect` | services/stub/main.go:484-506 | A connection gets a session id never used before, and is one more event of the engine's run |
| `Servers.Server.Receive` | services/stub/main.go:516-535 | A message of an open session is one more event of the engine's run, with the replies of the specification, all about the order of the message, in order of their stamps |
| `Servers.Server.Disconnect` | services/stub/main.go:507-514 | The end of a connection is one more event of the engine's run |
| `Servers.Serve` | services/stub/main.go:484-540 | For every list of connects, messages and disconnects the heaps, map, sessions and clock end coherent, with the book and the open sessions that the specification reaches with the stamps the clock gave |
| `SessionLife.EngineRun` | services/stub/main.go:304-540 | However the sending and writing of replies interleaves, the engine goes through the run of the connections made, the messages read and the sessions closed |
| `SessionLife.RepliesInOrder` | services/stub/main.go:304-410 | In every run the replies a client gets are the first of those to its messages, in order: behind them come the one a failed write lost and those in the channel or still to be sent |
| `SessionLife.StuckExactly` | services/stub/main.go:304-328 | In every run a session is stuck if and only if, with its writer gone, a message had more replies than the channel had room for, or the writer stopped while more were waiting than there was room for |
| `SessionLife.StuckForever` | services/stub/main.go:304-410 | A stuck session stays so and is never closed |
| `SessionLife.ClosesExactly` | services/stub/main.go:507-522 | Some continuation of a run closes a session and cancels its orders if and only if the session is not stuck |
| `SessionLife.StuckOrdersStay` | services/stub/main.go:507-509 | An order of a stuck session leaves the book only by trading, in every run |
| `SessionLife.JamHappens` | services/stub/main.go:304-340 | A run in which the writer stops, the client sends on, and the session is stuck with an order on the book |
| `SessionLife.JamByWrite` | services/stub/main.go:304-340 | A run in which the client stops receiving, the channel fills, the reader waits with a reply in hand, and the write fails |
| `MakerFills.SentFills` | services/stub/main.go:350-410 | Fills are sent for an accepted order only, to the session that entered it, under its id, and come to what it traded on entry |
| `MakerFills.ReportedExactly` | services/stub/main.go:187-210 | In every run, what an accepted order's session has been told of in fills is what the order traded on entry, and is all it has traded if and only if no later step traded with it as a resting order |
| `MakerFills.MakerNotTold` | services/stub/main.go:187-210 | A run in which a resting order is traded with and its session has only ever been sent the ack |
| `Replies.ResponseGrammar` | services/stub/main.go:330-410 | A message that is malformed or whose id rests gets one reject, for the first thing wrong with it, and changes nothing; any other gets an ack, fills whose remaining telescopes down from the quantity, with the best orders it faces, at their prices, each but the last used up, never beyond the limit, and a no_liquidity reject exactly for a market order with something left. A market order leaves something only when nothing is left on the side it faces, a limit order only when all that is left there is beyond its limit |
| `Replies.WalkTelescopes` | services/stub/main.go:200-210 | Each fill is positive and lowers what remains by exactly its quantity |
| `Snapshot.Levels` | services/stub/main.go:455-472 | Levels are strictly ranked from the best price, one for each resting price, each the positive sum resting there, and add up to the depth of the side |
| `Snapshot.Of` | services/stub/main.go:450-472 | The same for both sides of any coherent book |
| `Snapshot.HeapDepth` | services/stub/main.go:455-460 | Summing in heap order gives what rests at each price by priority |
| `Clocks.NowIsLinearizable` | services/stub/main.go:31-42 | Under every interleaving of loads and swaps by any number of goroutines, each call returns the later of its own reading and the next value after the previous successful swap, so results are distinct and increasing |
| `Clocks.SwapFailsOnlyByAnother` | services/stub/main.go:33-41 | A swap succeeds if and only if no swap succeeded since the load, and those that spoil it are by other goroutines |
| `Clocks.Clock.Now` | services/stub/main.go:31-42 | Whatever other goroutines do meanwhile, a call returns a value later than every earlier one and not below the caller's own reading |
| `LoadSequences.OrderIdInjective` | services/bot-runner/sequence.go:38-40 | Different bots, iterations or tags never share an order id |
| `LoadSequences.OrderIdValid` | services/bot-runner/sequence.go:38-40 | For 64-bit bot and iteration numbers the engine accepts every id the bots form |
| `LoadSequences.BasicMatchClears` | services/bot-runner/sequence.go:59-82 | One round of basic_match on an empty book gets two acks and a fill of 10 at the bot's price, and leaves the book empty |
| `LoadSequences.PartialFillLadderClears` | services/bot-runner/sequence.go:84-122 | The market sweep takes the three rungs one after the other, each at its price, and leaves the book empty |
| `LoadSequences.CancelCorrectnessClears` | services/bot-runner/sequence.go:124-155 | Both orders are acknowledged, rest, and are withdrawn by the cancels that follow |
| `LoadSequences.LoopsCleanly` | services/bot-runner/sequence.go:51-155 | In any number of iterations of any load sequence alone, with any entry times, every round gets the same replies, without a reject, and leaves the book empty |
| `LoadSequences.BandsApart` | services/bot-runner/sequence.go:42-47 | The limit prices of a bot lie at most two below 1000 times its number plus one, so those of different bots are more than 990 apart |
| `BotRunner.Accounting` | services/bot-runner/bot.go:72-223 | Under every interleaving 0 <= inFlight <= 21; at most 20 ids are ever sent again while pending; when the mutex is free inFlight is the pending orders plus those ids, which leaves room for 21 less their number; every order sent is pending, filled, rejected, cancelled, aged out or overwritten; acks and fills are each counted twice |
| `BotRunner.PendingExactly` | services/bot-runner/bot.go:72-162 | In every run an id is pending if and only if some step sent it and no step since took up a complete fill, reject or cancel-ack for it or found it older than five seconds |
| `BotWrites.PendingSince` | services/bot-runner/bot.go:79-83 | In every run the age of a pending order counts from the step that last sent it |
| `BotWrites.ExpiresExactly` | services/bot-runner/bot.go:72-92 | In every run the collector takes an order out if and only if it was last sent more than five seconds before the collector looked at the clock |
| `BotWrites.CountsExactly` | services/bot-runner/bot.go:142-162 | In every run each counter the bot reports is the number of steps it is for, orders sent, rejects and stale once, acks and fills twice over |
| `BotRunner.CounterExactly` | services/bot-runner/bot.go:199-223 | In every run, when the mutex is free, inFlight exceeds the pending orders by exactly the number of steps that sent an id while it was pending, so the two agree if and only if there was none |
| `BotRunner.LeakIsForGood` | services/bot-runner/bot.go:199-223 | What the counter is ahead by at one time it is ahead by at every later time, and the table has that much less room |
| `BotRunner.ExactUntilTorn` | services/bot-runner/bot.go:183-223 | In every run in which no step was a failed write, no step sent an id again while pending and the counter equals the table |
| `BotRunner.SequencesHaveDistinctTags` | services/bot-runner/sequence.go:59-155 | The condition of `ExactUntilTorn` holds of every load sequence |
| `BotRunner.CancelNamesOwnOrder` | services/bot-runner/bot.go:187-198 | Across failed writes and reconnects, a cancel about to be written names the order the same iteration placed under its tag |
| `BotWrites.WritesInOrder` | services/bot-runner/bot.go:181-225 | In every run of a sequence whose cancels follow their orders, the writer at template k has written since it last began one message for each template before, orders and cancels alike, in order, each naming the id of this iteration; an iteration that finishes has written them all |
| `BotWrites.SequencesPlaceFirst` | services/bot-runner/sequence.go:59-155 | In every load sequence the cancels follow their orders |
| `BotRunner.LimitIsMet` | services/bot-runner/bot.go:199-211 | Every bot that sends orders has runs with every count up to 21 in flight |
| `BotRunner.LimitExactly` | services/bot-runner/bot.go:199-211 | The counts in flight that runs of a bot reach, with the mutex free, are exactly 0 to 21 if some template is an order, and 0 alone if none is |
| `BotRunner.TornWritesLeak` | services/bot-runner/bot.go:214-222 | Failed writes leave any number up to 21 in flight for one pending order, for every sequence that begins with an order |
| `BotRunner.LeakIsMet` | services/bot-runner/main.go:114-118 | Each of the load sequences the bots run has such runs, up to all 20 ids sent again |
| `BotRunner.NeverStalls` | services/bot-runner/bot.go:72-211 | Every run, however far the counter is ahead, has a continuation that sends another order |
| `ClosedLoop.BidsGrowOld` | services/bot-runner/bot.go:132-165 | In every run of bot and engine together, as long as no write failed and no bid was read while an ask rested, a bid leaves the bot's table only when the collector finds it too old |
| `ClosedLoop.RungsGrowOld` | services/bot-runner/sequence.go:84-122 | So in every run of partial_fill_ladder without failed writes, whatever connections are lost and in whatever order the engine reads them |
| `ClosedLoop.BidsGrowOldOnOneLine` | services/bot-runner/sequence.go:59-82 | So in every run of basic_match in which the connection is not given up |
| `CancelLoop.OrdersAreWithdrawn` | services/bot-runner/sequence.go:124-155 | In every run of cancel_correctness in which the connection is not given up, the engine only acknowledges, and an order leaves the table only when its cancel is acknowledged or it has grown too old |
| `ClosedLoop.LetterTakesOff` | services/bot-runner/bot.go:142-162 | Of the letters about a pending order, a reject, a cancel_ack and a fill with nothing remaining take it off, and no other |
| `ClosedLoop.BidFilledExactly` | services/bot-runner/sequence.go:59-82 | In every run of basic_match without failed writes the engine has sent a fill for a bid if and only if it read one while an ask was on the book |
| `Reconnects.FilledAfterReconnects` | services/bot-runner/bot.go:174-182 | A run of basic_match without failed writes in which, after two lost connections, a bid is filled and leaves the table so |
| `ClosedLoop.RunLine` | services/stub/main.go:516-535 | On one connection the wire holds the last orders written, in order, and the book what the first of them leave: nothing, or the one bid |
| `Lifecycle.Causality` | services/build-service/consumer.go:79-104 | In every run each build.complete follows a submission.created with the same id, language and team, each sandbox.ready a build.complete, each test.complete a sandbox.ready, with the same id and team |
| `Lifecycle.Provenance` | services/bot-orchestrator/orchestrator.go:48-77 | Every test.complete has the whole chain before it, starting from a submission that passed the checks of the API |
| `Lifecycle.OneTeam` | services/submission-api/handler.go:93-130 | All records about one submission name the same team, despite duplicates and redelivery |
| `Lifecycle.CommitImpliesOutcome` | services/build-service/consumer.go:55-106 | In every run with crashes, failed publishes and commits, a committed record was handled if and only if no step threw it away, in a poll with errors, since the last step that had it delivered again; and one whose build or deployment succeeded on its committing delivery has its product in the log behind it |
| `Lifecycle.NoDrops` | services/build-service/consumer.go:43-53 | Nothing is thrown away as long as no poll reports errors beside records |
| `LifecycleRuns.LogExactly` | services/build-service/consumer.go:79-104 | In every run the log is what its steps wrote, in order: a submission announced, a build or deployment that succeeded or failed, a test that ended, with its own success, each unless its publish was lost |
| `LifecycleRuns.OutcomeExactly` | services/sandbox-orchestrator/consumer.go:56-122 | In every run a committed record that was not thrown away ended as the last delivery of it did: skipped, published, failed, or taken for done because the sandbox stood |
| `LifecycleRuns.FailureIsReported` | services/build-service/consumer.go:84-92 | In every run a record committed after a failed build or deployment has build.failed or sandbox.failed for its id behind it in the log, unless the publish on the committing delivery was lost; then that step wrote nothing |
| `LifecycleRuns.OffsetExactly` | services/build-service/consumer.go:55-66 | In every run the committed offset is the one behind the record of the last commit that was applied, whatever was reported |
| `LifecycleRuns.HeldExactly` | services/submission-api/handler.go:93-130 | In every run the API holds a submission from its registration until it is announced, with the publish acknowledged, or the process ends |
| `LifecycleRuns.ConfirmedExactly` | services/submission-api/handler.go:109-130 | In every run the confirmations under way are those that looked the submission up while it was held and have not been answered |
| `LifecycleRuns.AdmissibleExactly` | services/submission-api/handler.go:77-92 | cpp, rust and go are let in, with a team name of 1 to 64 letters, digits, dashes and underscores, and nothing else |
| `LifecycleRuns.StandsExactly` | services/sandbox-orchestrator/orchestrator.go:106-156 | In every run a sandbox stands from the step that left it in place until the end of a test deletes it |
| `Lifecycle.DropLosesBuild` | services/build-service/consumer.go:43-62 | A run in which a commit passes a submission that was never handled |
| `Lifecycle.ReadyExactly` | services/sandbox-orchestrator/consumer.go:98-122 | In every run a submission has a sandbox.ready in the log if and only if the first step that left a sandbox in place for it wrote the report |
| `Lifecycle.ExistingIsReported` | services/sandbox-orchestrator/consumer.go:98-103 | In every run, a build.complete committed because its sandbox existed has its sandbox.ready in the log, with its team, if and only if the first step that left a sandbox in place for it wrote the report |
| `Lifecycle.LostForever` | services/sandbox-orchestrator/consumer.go:98-122 | A submission whose first lasting sandbox went unreported, by a failed publish, a crash or a failed cleanup, is never reported ready and never tested, whatever is redelivered |
| `Lifecycle.LostReportIsNotRetried` | services/sandbox-orchestrator/consumer.go:98-122 | A run in which a lost report is followed by a commit without one |
| `LeaderboardHub.NeverPanics` | services/leaderboard-ws/hub.go:43-130 | However hub, handlers and writers interleave, no channel is closed twice and nobody sends on a closed one |
| `LeaderboardHub.FannedInOrder` | services/leaderboard-ws/hub.go:61-82 | In every run what the hub has taken up and what still waits are the messages broadcast while fewer than 256 waited, in order |
| `LeaderboardHub.DeliveredInOrder` | services/leaderboard-ws/hub.go:61-147 | A client receives messages in the order in which they were broadcast, each at most once, and at most one snapshot |
| `LeaderboardHub.ReceivedExactly` | services/leaderboard-ws/hub.go:61-147 | In every run a client has received the first of the things that found room in its channel, snapshot and broadcasts, in order, one for each time its writer took one out |
| `LeaderboardHub.MembersExactly` | services/leaderboard-ws/hub.go:43-60 | In every run the hub's clients are those whose registration it took up and not their unregistration since, and the channels closed are those of the clients it dismissed so |
| `LeaderboardHub.OnlyRegistered` | services/leaderboard-ws/hub.go:113-130 | In every run only a client whose registration found room in the queue is ever sent anything, snapshot included |
| `LeaderboardHub.NeverHangs` | services/leaderboard-ws/hub.go:61-71 | Every run of a hub that was not stopped goes on to take up the next broadcast that waits |
| `LeaderboardHub.TakenUpInOrder` | services/leaderboard-ws/hub.go:43-111 | In every run registrations and unregistrations that found fewer than 64 waiting are taken up in order |
| `LeaderboardHub.LostExactlyToFullChannels` | services/leaderboard-ws/hub.go:61-71 | In every run, a client the hub knew when it took a broadcast up has that broadcast once the fan-out is over if and only if no send of it to that client found the channel full |
| `LeaderboardHub.StrandedForever` | services/leaderboard-ws/hub.go:48-59 | A client that left and no longer waits to be unregistered stays in the hub for good if it is still known to it, and its channel is never closed |
| `LeaderboardHub.StrandedExactly` | services/leaderboard-ws/hub.go:48-111 | In every run a client is stranded if and only if the hub took its unregistration up while its registration still waited, or it left while the queue of unregistrations was full |
| `LeaderboardHub.StrandedHappens` | services/leaderboard-ws/hub.go:48-59 | A run that strands a client by taking up its unregistration first |
| `LeaderboardHub.StrandedByFullQueue` | services/leaderboard-ws/hub.go:102-109 | A run that strands a client because 64 unregistrations wait when it leaves |
| `TelemetryIngester.NothingLost` | services/telemetry-ingester/ingester.go:153-240 | However arrivals, flushes and attempts interleave, the batches taken so far, concatenated, and the buffer are everything handled, in order; the score table is as if each batch that landed was written once; the telemetry table holds each batch once for every landing |
| `TelemetryIngester.BatchesStay` | services/telemetry-ingester/ingester.go:159-162 | A batch taken off never changes its events, and nothing about it changes once it is no longer being tried |
| `TelemetryIngester.LostExactly` | services/telemetry-ingester/ingester.go:164-219 | In every run, a batch no longer tried is missing from the tables if and only if none of the attempts at it landed; it had three attempts, all reported as failed, unless its flush was cancelled or its last attempt was taken for a success; no earlier one was |
| `TelemetryIngester.LostSilently` | services/telemetry-ingester/ingester.go:214-219 | A run in which one attempt, taken for a success, leaves a batch in no table |
| `TelemetryIngester.TelemetryExactly` | services/telemetry-ingester/ingester.go:189-196 | In every run the telemetry table holds exactly the events that are in the score table, in order, if and only if no batch had two attempts that landed |
| `TelemetryIngester.TelemetryDoubled` | services/telemetry-ingester/ingester.go:165-182 | A run in which a batch lands twice: its events are inserted twice, its score rows are as if written once |
| `TelemetryIngester.Ingester.Handle` | services/telemetry-ingester/ingester.go:235-240 | The event is appended, growing the backing array when full, and no batch taken earlier changes |
| `TelemetryIngester.Ingester.Take` | services/telemetry-ingester/ingester.go:154-162 | The batch is a copy of what was buffered, although the backing array is reused |
| `TelemetryIngester.Ingester.Queue` | services/telemetry-ingester/ingester.go:186-213 | The statements queued for a batch amount to writing its events in order, each with the time it was queued |
| `TelemetryIngester.Ingester.WriteBatch` | services/telemetry-ingester/ingester.go:186-233 | An attempt applies the whole batch to both tables or nothing, and may be reported as written or as failed either way |
| `TelemetryIngester.Ingester.Try` | services/telemetry-ingester/ingester.go:164-183 | With events coming in between attempts, the score table ends as if the batch was written once, or not at all if no attempt went through |
| `TelemetryIngester.Ingester.Flush` | services/telemetry-ingester/ingester.go:153-184 | What was buffered when the mutex was taken is a batch of its own, tried one to three times, with success reported if and only if the last attempt was; earlier batches are unchanged; what came in since is in the buffer; and the whole is a run of the interleaved steps |
| `TelemetryIngester.ApplyRow` | services/telemetry-ingester/ingester.go:197-211 | Writing keeps an existing team name, takes a new one from the first event, and the metrics and time from the last |
| `TelemetryIngester.ScoreRow` | services/telemetry-ingester/ingester.go:197-211 | A score row holds the team name first written and the metrics and time last written for its id |
| `TelemetryIngester.HasRow` | services/telemetry-ingester/ingester.go:197-211 | An id has a score row if and only if it was written |
| `TelemetryIngester.ApplyAgain` | services/telemetry-ingester/ingester.go:165-182 | Sending a batch again at other times leaves the score table as if it had been written only then |
| `Utf8.Truncate` | services/build-service/publisher.go:90-99 | An over-long string becomes the longest valid prefix of its first max bytes, and a valid one loses at most three bytes more |
| `Utf8.ValidIffEncoding` | services/build-service/publisher.go:95-95 | A byte string is valid by section 4 of RFC 3629 if and only if it is the encoding of some sequence of Unicode scalar values |

## Left out

- Floating-point prices: rounding and NaN are not modelled; prices are exact reals. Quantities and timestamps do not wrap around at 64 bits.
- Network transport, JSON, logging, latency simulation and shutdown.
- Engine.Orderbook.Match: the engine's clock readings are arbitrary, so only the order of timestamps is stated, not their values.
- Snapshot.Levels: `sort.Slice` is modelled as insertion one level at a time.
- Go's `container/heap` is not part of the repository; its documented sift operations are modelled.
- The partitions of the topic: `Lifecycle` has one log and one offset per consumer. A fresh UUID is taken never to have been issued before.
- bot-orchestrator's commits: its handlers run concurrently and commit out of order, so no commit property is stated for it; the manual `POST /run` path has no log predecessor and is not part of the model.
- Sandboxes that the cluster removes by itself: in `Lifecycle` only the cleanup of a failed deployment and the end of a test take one away.
- Pod and job construction, builds, presigned uploads and watches are nondeterministic successes or failures.
- In `ClosedLoop`, `CancelLoop` and `Reconnects` one bot is alone with the engine, and its iteration counter has not passed the 63 bits of the source's integer.
- Clocks in the bot: ageing uses whole seconds as given; latency histograms are not part of the model.
- TelemetryIngester.Ingester.WriteBatch: batches are atomic, as a database transaction makes them; the columns of a telemetry row are those of its event, and the leaderboard update is not modelled.
- `computeScore`, the correctness sequences and their 33 assertions would only add easy members.
- The shutdown flush and `buildSnapshot` of the hub are not modelled.
