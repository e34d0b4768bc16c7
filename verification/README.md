# Paper trader: a verified model of the order book pipeline, the matcher and the books of account

The system mirrors an exchange's order book from a C++ engine through shared memory into a Go
backend and on to browsers, matches paper orders against it, and keeps fills and positions in a
database. This project models those parts in Dafny and proves what they keep over all runs.

| module | part of the system |
|---|---|
| `OrderBook` | one depth-100 side of the book, as a sorted vector and as the map it stands for |
| `BoundedMap` | the same side as a map cut to its depth |
| `BookStream`, `BookClient`, `BookMessages`, `KrakenBookClientImpl` | the numbered delta stream and the snapshots the engine emits: operations, what messages come to, the code |
| `RingBuffer`, `Seqlock`, `Channels` | the two shared-memory channels, every load, word copy and store a step; the ring as a queue |
| `Replication`, `ReplicationRuns`, `Overrun`, `Poller` | writer, ring, snapshot slot and backend reader as one step system; runs of a full ring; the reader's code |
| `Levels`, `Outbox`, `OutboxRuns`, `OutboxLoss`, `ClientStateImpl` | fan-out of the mirror to a browser through a bounded, collapsing queue: steps of three goroutines, whole runs, runs that lose, the code |
| `Pipeline` | replication and fan-out as one system, from the engine's book to the browser |
| `Walk`, `Matching`, `MatchingRuns`, `MatchingOutcomes`, `MatchingEngineImpl` | the matching engine: specification, whole runs, what placing and canceling come to, code |
| `Positions` | first-in-first-out lots, realized profit and average cost |
| `OrderTable`, `OrderLifecycle` | order rows, fills and statuses, and their link to the matcher |
| `Decimal`, `FixedPoint`, `Checksum` | fixed-point text in both languages and the checksum text |
| `SlotPool`, `SymbolRegistryImpl` | the 32-slot pool under concurrent subscribes and unsubscribes |

Protocols are deterministic functions `Step(state, action)` folded by `Run` over any sequence of
actions; an action that is not enabled leaves the state alone, so a statement about every action
sequence is a statement about every interleaving. Code that changes state is a class whose methods
are proved against those functions. Fields called history in their comments (`log`, `published`,
`accepted`, `jumps`, `baseCut`, `owner`, ...) record what happened and are never read by a step's decisions.

## What the code does not do

These follow the code, each with an exact condition or a reachable witness:

- Clearing the book emits no delta. A mirror that was exact stays exact after a clear if and only
  if the book was already empty, and later equals the book if and only if every stranded level has
  been named again (`ClearStrandsTheMirror`, `DrainedMirrorIsTheBook`, `StaleMirrorIsReachable`).
  The matcher's tracked size of a level is the book's if and only if no clear met the level while it
  was not empty, or it has been named since; an order placed at such a level jumps the queue
  (`MatcherAgreesIff`, `ClearStrandsTheMatcher`, `QueueIsFairIff`, `QueueCanBeJumped`).
- A drop at the end of the stream leaves no gap to see: a drained reader without jumps is up to date
  if and only if the newest delta was not dropped (`DrainedIsCurrentIff`, `TailDropIsSilent`).
- The delta that reveals a gap is popped before the resync, and catching up accepts jumps. If the
  snapshot does not cover every loss the mirror is right if and only if the loss is harmless level by
  level, and while nothing more is dropped nothing repairs it (`LossyMirrorIff`, `LossLasts`,
  `ResyncCanLeaveALoss`).
- A client that subscribes while its outbox is full loses its seed snapshot: the collapse skips
  symbols that are still pending (`SeedSurvivesIffRoom`, `SeedCanBeLost`).
- That collapse runs beside the poller, and no lock spans loading a snapshot and queueing it. A ready
  symbol stays in line if and only if the snapshot queued last is still the mirror (`InLineIff`,
  `PutInLineIff`); a delta in between leaves the browser behind (`ReadySymbolCanFallBehind`).
- A seqlock read can be torn when the 32-bit version wraps around once during it (`WrappedReadCanTear`).
- While a symbol's old entry is being torn down in a lower slot, the backend's lookup by name finds
  that slot instead of the live one (`LookupFindsLiveIff`, `LookupCanFindTheOldSlot`).
- The backend's parser bounds only the integer part, so it wraps just above the 64-bit range
  (`ParseIsExactIff`, `ParseWrapsAboveTheRange`), and its printer's text of the smallest 64-bit
  number cannot be parsed back (`RoundTripIff`, `MostNegativeDoesNotRoundTrip`).
- Accepting writes over whatever status the row has. A canceled order stays canceled if and only if
  no late answer to its own request arrives; an engine restart in between reopens it
  (`CanceledForGoodIff`, `LateAcceptReopens`).

## Model

| member | source | states |
|---|---|---|
| `OrderBook.AfterDeltaRefinesMap` | engine/src/book/order_book.cpp:10-36 | a delta keeps a side strictly sorted, zero-free and at most 100 long, and the new side stands for the old map with the delta and the reported eviction applied; an eviction happens iff a new level enters a full side, and it is the worst of the 101 levels, even the inserted one |
| `BoundedMap.AfterDeltaIsMapUpdate` | engine/src/book/order_book.cpp:10-36 | the vector after a delta stands for the map in which zero deletes, anything else sets, and the worst price goes if more than 100 remain |
| `OrderBook.SortedSideIsCanonical` | engine/src/book/order_book.cpp:6-36 | two sorted sides that stand for the same map are the same vector |
| `OrderBook.SizeAtIsMapLookup` | engine/src/book/order_book.cpp:53-60 | searching the sorted side gives exactly the map's size at a price, zero when absent |
| `OrderBook.OrderBookSide.LowerBound` | engine/src/book/order_book.cpp:11-14 | binary search returns the number of levels better than the price |
| `OrderBook.OrderBookSide.ApplyDelta` | engine/src/book/order_book.cpp:10-36 | insert, replace, erase and evict in place give the specified side and eviction, and keep the side valid |
| `OrderBook.OrderBookSide.Clear` | engine/src/book/order_book.cpp:38-40 | leaves an empty, valid side |
| `OrderBook.OrderBookSide.Depth` | engine/src/book/order_book.cpp:49-51 | the best n levels, or all of them if there are fewer |
| `OrderBook.OrderBookSide.SizeAtPrice` | engine/src/book/order_book.cpp:53-60 | the size the side's map holds at the price, zero when absent |
| `BookClient.UpdateMeaning` | engine/src/market_data/kraken_book_client.cpp:105-135 | replaying the one or two deltas of a level update over the old maps gives the maps of the new book |
| `BookClient.StreamIsGapFree` | engine/src/market_data/kraken_book_client.cpp:95-166 | over any operations, clears and snapshots included, the emitted deltas are numbered consecutively and end at lastSeq |
| `BookClient.StreamIsComplete` | engine/src/market_data/kraken_book_client.cpp:105-135 | over any operations without a clear, replaying all emitted deltas over the maps of the first book gives those of the last |
| `KrakenBookClientImpl.KrakenBookClient.ApplyLevel` | engine/src/market_data/kraken_book_client.cpp:105-119 | one level: update the side, number and emit the delta, then number and emit the eviction |
| `KrakenBookClientImpl.KrakenBookClient.ClearBook` | engine/src/market_data/kraken_book_client.cpp:89-103 | empties both sides and emits nothing |
| `KrakenBookClientImpl.KrakenBookClient.PublishSnapshot` | engine/src/market_data/kraken_book_client.cpp:159-166 | emits one snapshot, the bids as bids and the asks as asks under lastSeq, and restarts the count |
| `KrakenBookClientImpl.KrakenBookClient.HandleMessage` | engine/src/market_data/kraken_book_client.cpp:95-174 | all that a message does, in terms of maps: its bids and asks applied in order to what the book held (nothing, for a snapshot message) and cut to depth, if the checksum of that result is the message's; an empty book if it is not; the deltas that say so; and a snapshot of the final book iff it was kept and the message is a snapshot, 500 deltas have gone by or it is time |
| `BookMessages.MessageIsHandled` | engine/src/market_data/kraken_book_client.cpp:95-174 | the same of the specified output, for every output, message, checksum function and clock |
| `BookMessages.BookIsSinceClear` | engine/src/market_data/kraken_book_client.cpp:82-135 | over any operations, clears included, the book is what the deltas since the last clear make of what it held then |
| `BookMessages.EverySnapshotIsTheBook` | engine/src/market_data/kraken_book_client.cpp:159-166 | every snapshot in the output of any operations carries the number of the last delta before it and holds, side by side and sorted, what the deltas since the last clear make of the book |
| `BookStream.StaleStartAgrees` | backend/internal/book/reader.go:255-265 | replaying a stream over a copy and over nothing gives the same maps iff every level of the copy is named by the stream |
| `BookStream.ReplaysAgreeIff` | backend/internal/book/reader.go:255-265 | two streams leave two copies alike iff they have the same last word on every level |
| `BookStream.LossyReplayIff` | backend/internal/book/reader.go:255-265 | losing deltas leaves a copy right iff, on every level whose last word was lost, the kept deltas left what the lost one said |
| `RingBuffer.RingRefinesQueue` | engine/include/engine/ipc/ring_buffer.hpp:67-93 | in every interleaving of the single loads and stores, and across index wrap-around: popped items are a prefix of the accepted ones, unread items sit intact in their slots, and attempts = popped + queued + dropped (+ the push in progress) |
| `RingBuffer.UnreadSlotsSurvive` | engine/include/engine/ipc/ring_buffer.hpp:67-82 | no step overwrites a slot that has not been read |
| `RingBuffer.DropMeansFull` | engine/include/engine/ipc/ring_buffer.hpp:67-76 | a push drops iff the ring was full by the read index the producer loaded |
| `RingBuffer.PopIsFifo` | backend/internal/book/reader.go:267-280 | whatever the producer does between the steps of a pop: it comes back empty iff nothing was queued when it loaded the write index, and then nothing has changed; otherwise it reads, and later hands over, exactly the oldest queued item |
| `RingBuffer.BookDeltaRingBuffer.TryPush` | engine/include/engine/ipc/ring_buffer.hpp:67-82 | appends to the queue iff fewer than 4096 are queued, else counts a drop |
| `RingBuffer.BookDeltaRingBuffer.TryPop` | engine/include/engine/ipc/ring_buffer.hpp:84-93 | removes and returns the front of the queue iff there is one |
| `Channels.RingIsTheQueue` | engine/include/engine/ipc/ring_buffer.hpp:67-93 | in every interleaving the ring holds what the queue of the replication model holds after the same accepted pushes, drops and pops, each made in one step |
| `Seqlock.AcceptedReadIsOneWrite` | engine/include/engine/ipc/snapshot_slot.hpp:56-75 | for every interleaving of word copies in any order, an accepted read with less than a full version wrap is exactly the last value completely written when the version was loaded |
| `Seqlock.WrappedReadCanTear` | engine/include/engine/ipc/snapshot_slot.hpp:62-75 | with exactly one wrap a mix that was never written can be accepted |
| `Seqlock.SeqlockSlot.Write` | engine/include/engine/ipc/snapshot_slot.hpp:56-60 | bump, copy all words, bump: the slot holds the value, the version advanced by two, and the call is a run of the step system |
| `Seqlock.SnapshotReader.TryRead` | backend/internal/book/reader.go:192-205 | one attempt with the engine writing between any two accesses: a copy it accepts is the value last completely written (short of a full version wrap), and it accepts whenever no write was in progress or began |
| `Seqlock.SnapshotReader.Read` | backend/internal/book/reader.go:192-220 | up to a thousand attempts, with the same two guarantees |
| `ReplicationRuns.MirrorIsBaselinePlusKept` | backend/internal/book/reader.go:242-306 | in every run the mirror is its baseline snapshot plus, in order, every later delta up to expectedSeq - 1 that was not lost |
| `ReplicationRuns.JumpsTellLoss` | backend/internal/book/reader.go:282-306 | the jumps logged since the baseline are zero iff no delta between the baseline and expectedSeq was dropped or thrown away |
| `ReplicationRuns.EndToEndReplication` | backend/internal/book/reader.go:416-443 | without a jump and without a clear of a non-empty book since the baseline, the mirror is the stream replayed up to expectedSeq - 1, whatever was dropped further ahead |
| `ReplicationRuns.LossyMirrorIff` | backend/internal/book/reader.go:282-306 | with jumps, the mirror is the stream up to expectedSeq - 1 iff the loss is harmless level by level |
| `ReplicationRuns.DrainedIsCurrentIff` | backend/internal/book/reader.go:416-443 | a drained reader without jumps is up to date iff the newest delta was not dropped |
| `ReplicationRuns.DrainedMirrorIsTheBook` | backend/internal/book/reader.go:416-443 | a drained reader without jumps that the newest delta reached holds exactly the engine's two sides iff every level described before the last clear was named again, in particular when no clear followed the baseline |
| `ReplicationRuns.DrainedMirrorIff` | backend/internal/book/reader.go:416-443 | any drained reader, after whatever drops, jumps and clears, holds exactly the engine's two sides iff on every level the last delta it heard is the last the stream had since the last clear |
| `ReplicationRuns.GapDetection` | backend/internal/book/reader.go:416-434 | while polling, nothing older than expectedSeq is queued or can still be pushed, and the next item is the expected one iff no delta in between was lost |
| `ReplicationRuns.ExpectedNeverDecreases` | backend/internal/book/reader.go:282-306 | expectedSeq never decreases along any run |
| `ReplicationRuns.GapItemIsLost` | backend/internal/book/reader.go:419-434 | the delta that revealed a gap is popped before the resync and counts as lost |
| `ReplicationRuns.RecoveryLasts` | backend/internal/book/reader.go:389-443 | after a resync from a snapshot that covers every loss, the mirror is exact up to expectedSeq - 1 as long as no newly lost delta lies between baseline and mirror; while nothing more is dropped, no gap is even seen |
| `ReplicationRuns.LossLasts` | backend/internal/book/reader.go:389-443 | once a reader has caught up past a loss, then while nothing more is dropped it sees no gap, never resyncs, and keeps its baseline and its loss |
| `Overrun.TailDropIsSilent` | engine/include/engine/ipc/ring_buffer.hpp:67-76 | a run of pushes that only a full ring drops ends with a drained reader that saw no gap and differs from the book |
| `Overrun.ResyncCanLeaveALoss` | backend/internal/book/reader.go:389-434 | such a run goes on to a gap and a resync from a snapshot that covers the dropped delta but not the popped one, and ends with a drained, wrong mirror whose loss is behind it |
| `ReplicationRuns.ClearStrandsTheMirror` | engine/src/market_data/kraken_book_client.cpp:82-103 | an exact, drained mirror equals the book after a clear iff the book was empty |
| `ReplicationRuns.StaleMirrorIsReachable` | engine/src/market_data/kraken_book_client.cpp:82-103 | a run exists in which a drained reader that lost nothing differs from the engine's book |
| `ReplicationRuns.MessagesAreRuns` | engine/src/symbol/symbol_registry.cpp:130-174 | the step system reaches exactly the book and the stream the book client produces for the same operations, and its slot holds the snapshot emitted last |
| `Poller.BookPoller.Register` | backend/internal/book/reader.go:338-372 | registering rebuilds from the snapshot and drains the ring; together with what the engine does meanwhile it is a run of the step system |
| `Poller.BookPoller.RebuildMirror` | backend/internal/book/reader.go:242-253 | the mirror becomes the snapshot's maps |
| `Poller.BookPoller.ApplyToMirror` | backend/internal/book/reader.go:255-265 | the mirror changes as a delta changes a map |
| `Poller.BookPoller.CatchUpFromSnapshot` | backend/internal/book/reader.go:282-306 | drains the ring, skipping what the snapshot covers, while the engine goes on pushing between any two pops; a run of the step system |
| `Poller.BookPoller.Resync` | backend/internal/book/reader.go:389-414 | reports the mirror it ends with as a snapshot, or changes nothing if the snapshot cannot be read; with the engine interleaved, a run of the step system |
| `Poller.BookPoller.PollSymbol` | backend/internal/book/reader.go:416-443 | the whole poll, with the engine interleaved between any two of its steps, is a run of the step system, and the reports it made turn a copy of the old mirror into the new one |
| `Levels.SortLevels` | backend/internal/book/reader.go:308-320 | the levels of a map, each once, best first |
| `Levels.LevelsAreUnique` | backend/internal/book/reader.go:308-336 | whatever order the map yields its entries in, a snapshot of a mirror is one and the same list of levels |
| `Outbox.BookStore.ApplySnapshot` | frontend/src/state/bookStore.ts:15-21 | the store becomes the snapshot's maps |
| `Outbox.BookStore.ApplyDelta` | frontend/src/state/bookStore.ts:23-31 | the store changes exactly as the backend's mirror does |
| `ClientStateImpl.ClientState.EnqueueMessage` | backend/internal/book/client.go:71-77 | queues the message if there is room, else collapses; with the other goroutines interleaved between any two of its steps it is a run of the outbox's step system that ends with its own work done |
| `ClientStateImpl.ClientState.CollapseAndResync` | backend/internal/book/client.go:79-111 | drains until it finds the outbox empty, then loads and queues each subscribed symbol that is ready, the others going on between load and queue; a run of the step system in which it does nothing else |
| `Outbox.SettledStaysInLine` | backend/internal/book/client.go:71-111 | a ready symbol in line that no collapse has to reseed stays in line through any step of the poller, the subscriber or the sender that leaves it settled |
| `Outbox.PutInLineIff` | backend/internal/book/client.go:101-108 | a symbol reseeded by either goroutine is in line iff its mirror, when the snapshot is queued, is what was loaded (but for a delta the poller has yet to report) |
| `OutboxRuns.InLineIff` | backend/internal/book/client.go:71-111 | from any state in which a ready symbol is in line, along any run that does not let go of it: it is in line whenever settled and not awaiting a resync snapshot iff every collapse that reseeds it last finds room for a snapshot the mirror has not left behind, or finds none and needs none |
| `OutboxRuns.ClientConverges` | backend/internal/book/client.go:71-111 | with at most 500 symbols and only the poller collapsing, a ready symbol in line stays in line through any number of overflows, drains, reseeds, resyncs and sends |
| `OutboxLoss.ReadySymbolCanFallBehind` | backend/internal/book/router.go:155-183 | a run from the start in which a client with a full outbox subscribes to a second symbol and its first one, ready, in line and untouched, is left behind: the poller's delta is overtaken by the snapshot loaded before it |
| `OutboxRuns.PollerReseedHeals` | backend/internal/book/client.go:101-108 | a reseed by the poller that finds room brings the symbol in line, whatever the browser held and whatever was lost before |
| `OutboxRuns.SeedSurvivesIffRoom` | backend/internal/book/router.go:155-183 | subscribing to a fresh symbol with room brings it in line at once; with a full outbox the browser keeps what it held until the symbol is marked ready, however the run goes on |
| `OutboxLoss.SeedCanBeLost` | backend/internal/book/router.go:155-183 | a run from the start fills the outbox, subscribes to a second symbol, completes the collapse and marks the symbol ready, and its browser will not hold the mirror |
| `Pipeline.RunKeepsOneMirror` | backend/internal/book/reader.go:282-306 | in every run of replication and outbox as one system the outbox's mirror of the symbol is the reader's |
| `Pipeline.BrowserHoldsTheBookIff` | backend/internal/book/reader.go:416-443 | in every joint run, when the reader is up to date and the poller has nothing to report, the browser ends with exactly the engine's two sides iff the symbol is in line |
| `Pipeline.BrowserHoldsTheBook` | frontend/src/state/bookStore.ts:15-31 | once a ready symbol is in line, after any further joint run with drops, gaps, resyncs and overflows in which nobody lets go of it and only the poller collapses: whenever the reader is up to date and nothing is in progress, the browser ends with exactly the engine's two sides |
| `Walk.GreedyIsExact` | engine/src/matching/matching_engine.cpp:42-58 | despite stopping early, the walk fills min(size, total quantity of all crossing levels) |
| `Walk.TakesAreLevels` | engine/src/matching/matching_engine.cpp:45-58 | the i-th fill is at the i-th level's price, within its size and within the limit |
| `Walk.GreedyIsOptimal` | engine/src/matching/matching_engine.cpp:42-58 | no allocation of the same quantity within level sizes costs less (for a sell: earns more) |
| `Matching.PlaceKeepsWellFormed` | engine/src/matching/matching_engine.cpp:60-76 | placing keeps every resting order positive and tracked levels exactly those with a resting order |
| `Matching.CancelKeepsWellFormed` | engine/src/matching/matching_engine.cpp:81-93 | so does canceling |
| `Matching.DeltaKeepsWellFormed` | engine/src/matching/matching_engine.cpp:95-136 | so does a book delta |
| `MatchingEngineImpl.MatchingEngine.AnyRestingOrderAt` | engine/src/matching/matching_engine.cpp:26-33 | true iff some resting order is at the level |
| `MatchingEngineImpl.MatchingEngine.PlaceOrder` | engine/src/matching/matching_engine.cpp:35-79 | the two rejections and when they come; otherwise the reported fill is min(size, quantity of all opposite levels within the limit, or of the whole side for a market order), the fills add up to it, in book order, each within its level and none beyond the limit; and the rest of a limit order rests behind exactly what the book holds at its price, everything else unchanged |
| `MatchingOutcomes.PlaceAnswersSo` | engine/src/matching/matching_engine.cpp:36-58 | the specified answer and fills are those, for every valid book and every order |
| `MatchingOutcomes.PlaceRestsSo` | engine/src/matching/matching_engine.cpp:60-76 | so is what rests, its queue and the tracked size |
| `MatchingEngineImpl.MatchingEngine.CancelOrder` | engine/src/matching/matching_engine.cpp:81-93 | after it the order is gone, every other order is as it was, and exactly the levels with an order left are tracked, at the sizes they had; an unknown id is reported and changes nothing |
| `MatchingOutcomes.CanceledNeverFills` | engine/src/matching/matching_engine.cpp:81-136 | over any later run that does not place its id anew a canceled order stays gone and is filled nothing |
| `MatchingEngineImpl.MatchingEngine.ReduceLevel` | engine/src/matching/matching_engine.cpp:110-128 | visiting the orders in any order whatever, each order of the level absorbs the reduction once and is filled once |
| `MatchingEngineImpl.MatchingEngine.OnBookDelta` | engine/src/matching/matching_engine.cpp:95-136 | the new state is the same for every iteration order; the emitted fills add up per order to its specified fill, at the level's price |
| `MatchingRuns.RunKeepsWellFormed` | engine/src/matching/matching_engine.cpp:35-136 | in every run the tracked levels are exactly those holding a resting order |
| `MatchingRuns.RestingFillClosedForm` | engine/src/matching/matching_engine.cpp:95-136 | over any run an order's resting fills are min(remaining, max(0, total drop of its level - queue ahead)); it rests until that is all of it, and its queue is what the drop has left |
| `MatchingRuns.FillsAreConserved` | engine/src/matching/matching_engine.cpp:35-136 | synchronous fills + resting fills + remaining = requested size, over any later run that does not cancel the order |
| `MatchingRuns.MatcherAgreesIff` | engine/src/matching/matching_engine.cpp:73-135 | in every run of book and matcher, clears included: a level is tracked iff an order rests there, and its tracked size is the book's, evictions included, iff the level is not stale, that is, no clear met it while it was not empty or a delta or eviction has named it since |
| `MatchingRuns.ClearStrandsTheMatcher` | engine/src/market_data/kraken_book_client.cpp:89-103 | a run in which the matcher keeps a size the cleared book does not have, and cuts an order's queue against it when the level comes back |
| `MatchingRuns.QueueWithinLevel` | engine/src/matching/matching_engine.cpp:69-119 | in every run no order has more queue ahead than its level was last seen to hold, which is the book's size unless the level is stale |
| `MatchingRuns.QueueIsFairIff` | engine/src/matching/matching_engine.cpp:69-119 | in every run the earlier of two orders at a level has no more queue ahead (and on every reduction at least as much overflow) iff the later was not placed at a stale level or the earlier has reached the front |
| `MatchingRuns.QueueCanBeJumped` | engine/src/matching/matching_engine.cpp:69-75 | a run in which an order placed after a clear has nothing ahead of it while the one before it waits behind 5 |
| `Positions.AccountingIdentity` | backend/internal/persistence/repository.go:292-335 | for every fill history lots are positive and one-sided, net size = buys - sells, and realized = sell notional - buy notional + signed cost of open lots |
| `Positions.TotalPnlIsCashPlusPosition` | backend/internal/persistence/repository.go:297-365 | realized plus mark-to-market of the open lots at any price m equals cash + net size * m |
| `Positions.AverageCostIsAnAverage` | backend/internal/persistence/repository.go:340-365 | the average cost lies between any bounds on the open lots' prices |
| `Positions.BatchIsUnitwise` | backend/internal/persistence/repository.go:297-335 | matching a fill lot by lot, exact closes and flips included, equals matching it one unit at a time |
| `Positions.FoldIsUnitwise` | backend/internal/persistence/repository.go:292-335 | so does folding a whole history |
| `Positions.SplittingAFillChangesNothing` | backend/internal/persistence/repository.go:292-365 | replacing a fill anywhere in a history by two adjacent ones at its price changes neither position nor realized profit |
| `Positions.MatchLots` | backend/internal/persistence/repository.go:308-327 | the loop over the lot queue computes the specified match |
| `Positions.ApplyRow` | backend/internal/persistence/repository.go:297-334 | opening, adding, closing and flipping in place compute the specified account and keep its lots positive |
| `Positions.Summarize` | backend/internal/persistence/repository.go:341-365 | the loop over the open lots computes the account's net size, floored average cost and scaled-down realized profit |
| `Positions.FoldRows` | backend/internal/persistence/repository.go:285-335 | one pass over all rows gives each symbol the fold of its own fills |
| `Positions.GetPositions` | backend/internal/persistence/repository.go:267-372 | a symbol is missing iff its fills net to zero units and zero cash; every other one is reported with net size buys minus sells and the average cost and profit that matching its own fills unit by unit gives |
| `Positions.PositionFitsFills` | backend/internal/persistence/repository.go:340-370 | the same of the fold of any fill history |
| `OrderTable.StepKeepsIdsIff` | backend/internal/persistence/repository.go:62-180 | on rows of any status and fills of any size, an operation keeps "an engine id marks exactly the live rows, each its own" iff an accept brings an id no other row has and a reject meets a row without one |
| `OrderTable.EngineIdMeansLive` | backend/internal/persistence/repository.go:62-180 | in every run of such operations, late accepts after a restart included, a row has an engine id iff it is open or partially filled, and ids are not shared |
| `OrderTable.StatusFitsFills` | backend/internal/persistence/repository.go:62-180 | while answers reach pending rows only, the status fits the sum of recorded fills |
| `OrderTable.CanceledForGoodIff` | backend/internal/persistence/repository.go:62-99 | through any run, whatever happens to other rows, a canceled order stays canceled at every point iff no late answer to its own request is in the run |
| `OrderTable.LateAcceptReopens` | backend/internal/persistence/repository.go:398-403 | a restart cancels the pending row of a request in flight, its accept reopens it under the old engine's id, and the next fill under that id is booked on it |
| `OrderTable.FilledOnLastFill` | backend/internal/persistence/repository.go:125-180 | an accepted row left alone otherwise is open, partially filled or filled according to its own fills, whatever happens to other rows: filled exactly on the last, and never unknown before |
| `OrderTable.StepLeaves` | backend/internal/persistence/repository.go:43-180 | the rows, fills and numbering each operation leaves, from rows of any status: a reject sets the status alone, a cancel clears the engine id too, a restart cancels exactly the pending, open and partly filled rows, a fill is booked on a row carrying its id or changes nothing |
| `OrderTable.Repository.CreatePendingOrder` | backend/internal/persistence/repository.go:43-60 | adds one pending row under a fresh id |
| `OrderTable.Repository.MarkOrderAccepted` | backend/internal/persistence/repository.go:62-77 | sets engine id and expectation, or closes the row as unfilled when nothing is expected |
| `OrderTable.Repository.MarkOrderRejected` | backend/internal/persistence/repository.go:79-88 | sets the status alone |
| `OrderTable.Repository.MarkOrderCanceled` | backend/internal/persistence/repository.go:90-99 | marks the row canceled whatever its status and clears its engine id |
| `OrderTable.Repository.RecordFill` | backend/internal/persistence/repository.go:125-180 | finds the row by engine id, adds the fill and advances the status by the summed fills, or fails without a change |
| `OrderTable.Repository.CancelOpenOrdersForEngineRestart` | backend/internal/persistence/repository.go:398-422 | cancels every pending, open or partially filled row and clears its engine id |
| `OrderLifecycle.LimitStatusMirrorsEngine` | backend/internal/trading/router.go:234-238 | when each fill the matcher gives a limit order is recorded, the row is filled iff nothing remains in the matcher, and keeps its engine id until then |
| `OrderLifecycle.MarketStatus` | backend/internal/trading/router.go:234-238 | a market order never rests; with no fill its row is closed at once, otherwise it is filled iff all of its synchronous fill is recorded |
| `FixedPoint.ScanDigits` | backend/internal/trading/ticks.go:61-74 | the digit loop returns the value iff all characters are digits and it fits, with no overflow on the way |
| `FixedPoint.ParseTicksStepwise` | backend/internal/trading/ticks.go:14-59 | sign, split, both digit loops, padding and bound compute the specified parse |
| `FixedPoint.ParseIsExactIff` | backend/internal/trading/ticks.go:14-59 | on well-formed text the result is the exact value iff that fits in 64 bits |
| `FixedPoint.ParseOutcome` | backend/internal/trading/ticks.go:14-59 | text is rejected iff it is ill-formed or its integer part exceeds 922337203; anything else is the exact value, or that value shifted by 2^64 when it just leaves the range |
| `FixedPoint.ParseWrapsAboveTheRange` | backend/internal/trading/ticks.go:51-56 | the text of 2^63 ticks is parsed as -2^63 |
| `FixedPoint.ParsersAgree` | engine/include/engine/common/price_quantity.hpp:19-53 | on well-formed text whose magnitude fits, both languages return the exact value and the engine never overflows |
| `FixedPoint.ParsersReject` | engine/include/engine/common/price_quantity.hpp:19-53 | neither gives ill-formed text a value |
| `FixedPoint.PrintersAgree` | backend/internal/trading/ticks.go:76-89 | both languages print every 64-bit number but the smallest alike |
| `FixedPoint.RoundTripIff` | backend/internal/trading/ticks.go:76-89 | parse(format(t)) = t in the backend iff t is not the smallest 64-bit number; in the engine for all others too |
| `FixedPoint.MostNegativeDoesNotRoundTrip` | backend/internal/trading/ticks.go:79-81 | the text of the smallest number is rejected |
| `FixedPoint.FormatIsInjective` | engine/include/engine/common/price_quantity.hpp:56-68 | different numbers have different texts |
| `Checksum.Strip` | engine/src/book/checksum.cpp:10-22 | the loops remove the dots and the leading zeros, leaving "0" for nothing |
| `Checksum.DigitsAreNativeNumeral` | engine/src/book/checksum.cpp:10-33 | for every non-negative tick value and precision 0 to 10 the digits are the canonical numeral of floor(ticks / 10^(10 - precision)) |
| `Checksum.AppendLevels` | engine/src/book/checksum.cpp:35-43 | appends price and quantity digits of at most ten levels, best first |
| `Checksum.ComputeBookChecksum` | engine/src/book/checksum.cpp:47-53 | the CRC of the ten best asks and then the ten best bids, each level spelled as price and quantity in canonical numerals of the exchange's units |
| `Checksum.ChecksumSpellsTheBook` | engine/src/book/checksum.cpp:35-53 | that spelling, for every non-negative book and precisions 0 to 10 |
| `Checksum.OnlyTheTopCounts` | engine/src/book/checksum.cpp:35-53 | books that agree on their ten best levels have the same checksum text |
| `SlotPool.ClaimedSlotHasOneOwner` | engine/src/symbol/symbol_registry.cpp:76-219 | in every interleaving a slot is claimed iff a live entry, or a thread starting or tearing one down, owns it, and that owner is the only one |
| `SlotPool.RefcountIsBalance` | engine/src/symbol/symbol_registry.cpp:76-219 | concurrent subscribes create one live entry per symbol, live iff its reference count, which is successful subscribes minus unsubscribes, is at least one |
| `SlotPool.ExhaustedMeansFull` | engine/src/ipc/shared_memory_manager.cpp:69-80 | "exhausted" is reported only if all 32 slots were claimed at one moment of the run, although slots are released while the scan goes on |
| `SlotPool.LookupFindsLiveIff` | backend/internal/book/reader.go:167-182 | at any moment of any run, the first claimed slot that carries a live symbol's name is its own iff no entry of that symbol is being torn down in a lower slot |
| `SlotPool.NamedBelongs` | backend/internal/book/reader.go:167-182 | one look at one slot, at any moment of any run: a claimed slot carrying the name belongs to a live, starting or leaving entry of that symbol |
| `SlotPool.LookupCanFindTheOldSlot` | backend/internal/book/reader.go:167-182 | subscribing again before the old entry's thread is joined makes the lookup find the old slot |
| `SymbolRegistryImpl.SharedMemoryManager.ClaimSlot` | engine/src/ipc/shared_memory_manager.cpp:69-80 | claims and names the lowest free slot, or changes nothing when all are claimed or the name does not fit |
| `SymbolRegistryImpl.SharedMemoryManager.ReleaseSlot` | engine/src/ipc/shared_memory_manager.cpp:82-85 | wipes the name and frees that slot alone |
| `SymbolRegistryImpl.SharedMemoryManager.FindSlot` | backend/internal/book/reader.go:167-182 | the first claimed slot of that name, or none if there is none |
| `SymbolRegistryImpl.SymbolRegistry.Subscribe` | engine/src/symbol/symbol_registry.cpp:76-189 | succeeds iff the symbol is live, or is supported, fits and finds a free slot; the call is an uninterrupted run of the pool's steps |
| `SymbolRegistryImpl.SymbolRegistry.UnsubscribeSymbol` | engine/src/symbol/symbol_registry.cpp:191-219 | gives up one reference, and the entry and its slot with the last; the call is an uninterrupted run of the pool's steps |

## Left out

- WebSocket, TLS, gRPC, reconnects, watchdogs and timeouts.
- JSON: messages arrive parsed, for the client's own symbol; a message for another symbol changes nothing.
- The CRC itself: `ComputeBookChecksum` takes it as a function, and `HandleMessage` takes the checksum of the best levels as one.
- Wall-clock rules: the five-second snapshot rule is a choice made by the environment, and the limit that disconnects a client after too many overflows is not modelled.
- Memory ordering: every load and store of the ring, the seqlock and the slot flags is one sequentially consistent step.
- In `Replication` the ring is a queue that may drop at any push and the snapshot slot is read and written in one step; `Channels.RingIsTheQueue` and `Seqlock.SnapshotReader.Read` are what stands behind that. The runs in `Overrun` drop only when the queue is full.
- Stream and order numbers are unbounded; their 64-bit wrap-around is not modelled.
- Prices, sizes and profits are unbounded integers outside `FixedPoint`; truncating a big profit or a price difference to 64 bits is not modelled.
- The database's text and scan errors: tables are maps and sequences, each call one transaction.
- Resetting a slot's ring and snapshot on a claim, and a slot being reused under a reader that still holds it.
- In `Outbox` a seed is loaded and queued in one step, and the test for pending and the channel send are one step; what a delta between them does to a symbol that is still pending is not followed. Order requests that time out.
- SlotPool.LookupFindsLiveIff: looks at all slots at one moment, while the backend loads one slot after the other and tries again; `NamedBelongs` holds for each single look.
- Lost or reordered fill delivery: `FilledOnLastFill` and `OrderLifecycle` take each fill recorded once, after acceptance.
- MatchingEngineImpl.MatchingEngine.PlaceOrder: the book is passed as a value, since orders run between messages; fill timestamps are not modelled.
- OrderTable.StatusFitsFills: takes accepts and rejects to reach pending rows and fills to be positive; what a late answer does to a row is `CanceledForGoodIff` and `LateAcceptReopens`.
- OrderTable.Repository.MarkOrderRejected: reasons and timestamps of rows are not modelled.
- SymbolRegistryImpl.SymbolRegistry.Subscribe: the book, matcher and thread created with an entry are not part of the registry's state.
- Candles, symbol lists, the user interface, metrics and the recorder.
