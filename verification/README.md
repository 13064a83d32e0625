# A verified model of the matching engine

This project models the core of a C++ limit-order matching engine and its surroundings, and proves
what the code promises about them:

- the **order book** (`OrderBook`): two price-ordered maps of levels, each level a doubly linked list
  threaded through the slots of an object pool, and an id index for cancels;
- the **object pool** with its intrusive free list;
- the **single-producer single-consumer ring** with wrapping 64-bit counters and acquire/release loads;
- **FIX 4.4** framing, parsing and building, and the **gateway session** that uses them;
- the **portfolio** with weighted-average cost, the **backtest** that attributes fills to strategies,
  and the **market maker**.

## How it is built

Every imperative part of the program is a class or a method with loops, proved against a function
that specifies it; the laws are then proved about those functions, for every input and every run.

| file | part |
|---|---|
| `Orders`, `PriorityBook` | the reference book: each side one sequence in price-time priority |
| `BookInvariant`, `BookRuns` | its invariant, matching laws, conservation over every run |
| `Levels`, `BookShape`, `BookEdits`, `BookRefinement` | linked levels, index and slab as values, and why every edit refines the reference |
| `ObjectPools`, `LimitBook`, `Engine` | the pool, the book and the engine as they run |
| `WrapArithmetic`, `RingProtocol`, `SpscRing` | 64-bit wrap-around, the two-thread protocol, the ring as an object |
| `FixText`, `FixFrames`, `FixFields`, `FixMessages` | numerals, frames, fields, whole messages and the builder |
| `ExecReports`, `Gateway`, `GatewayLaws`, `GatewayRequests`, `GatewayStreams`, `GatewayWire`, `GatewaySession` | execution reports, session state machine, its laws, requests and replies by field number, streams, the wire, the session as it runs |
| `Portfolio` | weighted-average-cost accounting |
| `Backtest`, `BacktestLaws`, `BacktestRuns`, `BacktestTheorems`, `BacktestTallies`, `LostFills` | fill routing as a transition system, its laws, its tallies, and when fills reach nobody |
| `MarketMakers`, `MarketMakerBand`, `MarketMakerQuotes`, `MarketMakerRuns`, `MarketMakerPlays` | the market maker, its inventory bound, its quotes, replays of a tick file, and replays that reach the bound |
| `LeakingInventory`, `RealInventory` | what the market maker's orders really traded, and exactly which configurations bound it |
| `Replay` | the replay loop as it runs |

Pool pointers are slab indices, with -1 for null; a level's head and tail are values inside its map
entry. Prices, quantities and ids are unbounded integers; ring counters, the checksum, the parsed
body length, tags and the cancel request's order id keep their machine widths. Reading a decimal
number (`strtod`) and printing one (`%.*f`) are parameters of the gateway; the average price is an
exact rational.

## Results that are not what one might expect

- **Fills can be lost.** When exogenous flow partly fills a strategy's order, its route is erased, and
  later fills of that order reach nobody (`mvp/src/backtest/replay.cpp:180`); `FillsCanBeLost` is a
  three-step run. `StrandsIff` says which incoming order erases a route that is still needed, and
  `CreditedExactlyIff` says exactly when an order is credited all it traded: when no placement reaches it
  while it is not routed. Both conditions are told from the queue before the placement: an order is
  reached if it crosses and less is queued ahead of it than is wanted.
- **Real inventory has no bound once quotes are larger than one unit.** A position is what a strategy's
  orders really traded less what was lost (`PositionIsHoldings`). The market maker's position stays in its
  band in every replay, and `BandIsReached` shows that both ends are reached by any market maker that
  quotes at all, whatever its threshold and interval. Its real inventory is another matter: over all replays of tick files it
  stays in the band if and only if the quote size is at most 1 or the limit is negative, and otherwise no
  bound at all holds (`RealInventoryIsBoundedIff`). Each round of `LeaksAddUp` makes it hold `quoteQty - 1`
  more while it is told it is flat. The one direction, `ShelteredHoldsItsPosition`, needs nothing else of
  the configuration; the other is for positive half-spreads, and for a pool of at least four slots.
- **Weighted-average cost drifts.** The P&L identity holds up to a remainder that does not depend on the
  mark; `DriftIsBounded` bounds it and `DriftBoundIsTight` reaches the bound with any number of fills. The
  P&L is exact after every fill if and only if each averaging fill divides without remainder
  (`PnlIsExactIff`).
- **Long messages break framing.** The builder writes six length digits while the splitter accepts bodies
  up to 1048576 bytes: `MessageIsOneFrame` holds exactly up to 999999.
- **A corrupted length field is not always caught.** A changed byte before the length digits, in the body
  or in the trailer of an accepted frame gives Malformed. `LengthCorruption` gives the verdict for every
  change of the length field: the splitter may wait for bytes that never come
  (`LengthCorruptionCanStall`), or silently accept a shorter frame if a matching trailer happens to stand
  at the new end (`LengthCorruptionCanPass`).
- **LeavesQty can exceed what rests**, exactly when nothing crossed and the pool was exhausted
  (`ReportsAgreeWithBook`); the second of two bids on a one-slot book shows it (`LeavesCanExceedWhatRests`).
- **A stopped session keeps handling buffered frames**, because the drain loop does not look at the
  running flag. An order behind a Logout is placed if it arrives in the same chunk and ignored if it
  arrives in the next (`OrderAfterLogout`); `ChunkingMattersIff` says exactly when the cut makes a
  difference.

## Model

| member | source | states |
|---|---|---|
| `PriorityBook.FillIsGreedy` | mvp/src/order_book.cpp:68-102 | the trades take makers one by one from the front, at the maker's price and within the limit, only the last one perhaps in part |
| `PriorityBook.FillTakesAllThatCrosses` | mvp/src/order_book.cpp:71-98 | the filled total is the smaller of the quantity asked for and everything on the other side that crosses |
| `PriorityBook.FillExhausts` | mvp/src/order_book.cpp:71-84 | a taker with quantity left has used up its makers whole and crosses nothing that remains |
| `BookInvariant.PriceTimePriority` | mvp/src/order_book.cpp:68-102 | in every valid book a placement trades the greedy prefix of the opposite side, as much as crosses, and nobody with priority is passed over |
| `BookInvariant.PlaceKeepsInv` | mvp/src/order_book.cpp:104-135 | a placement keeps both sides in strict price-time order, ids distinct, quantities positive, and the sides uncrossed |
| `BookInvariant.CancelKeepsInv` | mvp/src/order_book.cpp:137-161 | a cancel keeps the same invariant |
| `BookInvariant.DroppedOnlyWithoutTrades` | mvp/src/order_book.cpp:111-132 | a remainder is dropped exactly when quantity is wanted, nothing crosses and no slot is free; then nothing trades and only the id counter moves |
| `BookRuns.NeverCrossed` | mvp/src/order_book.cpp:71-161 | after every run, if both sides are non-empty, best bid < best ask |
| `BookRuns.SlotsConserved` | mvp/src/order_book.cpp:87-161 | over every run, resting orders and free slots add up to the capacity |
| `BookRuns.Conservation` | mvp/src/order_book.cpp:87-161 | over every run and for every id, quantity placed = taken + made + cancelled + dropped + still resting |
| `BookRuns.IdsAreConsecutive` | mvp/src/order_book.cpp:104-109 | placements get the ids 1, 2, 3, ...: no id is reused |
| `BookRuns.CancelledOnce` | mvp/src/order_book.cpp:137-161 | over every run an id is cancelled at most once, and does not rest afterwards |
| `Levels.FlattenInsert` | mvp/src/order_book.cpp:118-130 | appending to the level of a price map is inserting into the priority queue behind all equal or better prices |
| `Levels.FlattenRemove` | mvp/src/order_book.cpp:141-158 | removing from a level is removing from the priority queue |
| `Levels.FlattenQtyAt` | mvp/src/order_book.cpp:36-50 | the quantity at a price in the priority queue is the sum of its level |
| `BookShape.PushList` | mvp/src/order_book.cpp:52-58 | pushing a slot on a well-linked level gives a well-linked level with the slot last |
| `BookShape.UnlinkList` | mvp/src/order_book.cpp:60-66 | unlinking a slot gives a well-linked level without it |
| `BookShape.UnlinkElsewhere` | mvp/src/order_book.cpp:60-66 | and leaves every disjoint level well-linked |
| `BookEdits.RemovedCore` | mvp/src/order_book.cpp:92-96 | taking a slot out keeps slab partition, index and levels consistent |
| `BookEdits.RestedCore` | mvp/src/order_book.cpp:111-131 | resting an order keeps slab partition, index and levels consistent |
| `BookEdits.RemovedFlat` | mvp/src/order_book.cpp:92-96 | taking a slot out removes exactly its order from its side and nothing from the other |
| `BookEdits.RestedFlat` | mvp/src/order_book.cpp:111-131 | resting an order inserts exactly it into its side |
| `BookRefinement.IndexedIffRests` | mvp/src/order_book.cpp:137-141 | an id is in the index exactly if it rests |
| `BookRefinement.PlaceRests` | mvp/src/order_book.cpp:104-135 | a matched placement whose remainder is linked in is the reference placement |
| `BookRefinement.PlaceEnds` | mvp/src/order_book.cpp:104-135 | a matched placement that leaves nothing, or finds no slot, is the reference placement |
| `BookRefinement.CancelRefines` | mvp/src/order_book.cpp:137-161 | unlinking, releasing and pruning is the reference cancel |
| `BookRefinement.RestThenCancelRestores` | mvp/src/order_book.cpp:52-161 | resting an order and cancelling it restores maps, queues, index, free list and every other slot |
| `ObjectPools.ObjectPool.constructor` | mvp/src/pool.h:28-42 | the free list threads all slots in order, none in use |
| `ObjectPools.ObjectPool.Acquire` | mvp/src/pool.h:56-64 | pops the first free slot, or null exactly when none is left |
| `ObjectPools.ObjectPool.Release` | mvp/src/pool.h:68-74 | pushes a slot that is in use back; the list stays acyclic and the count right |
| `LimitBook.OrderBook.LevelPushBack` | mvp/src/order_book.cpp:52-58 | the pointer writes of a push |
| `LimitBook.OrderBook.LevelUnlink` | mvp/src/order_book.cpp:60-66 | the pointer writes of an unlink |
| `LimitBook.OrderBook.MatchAgainst` | mvp/src/order_book.cpp:68-102 | the nested loops terminate, never meet an empty best level, and leave trades, remainder and book as the reference matching does |
| `LimitBook.OrderBook.PlaceLimit` | mvp/src/order_book.cpp:104-135 | the linked book refines the reference placement: same book, id and trades; without trades the shape is unchanged or has just the order linked in |
| `LimitBook.OrderBook.CancelOrder` | mvp/src/order_book.cpp:137-161 | succeeds exactly if the id rests, and refines the reference cancel; otherwise nothing changes |
| `LimitBook.OrderBook.BestBidPrice` | mvp/src/order_book.cpp:27-29 | the price at the front of the reference bids, 0 if there are none |
| `LimitBook.OrderBook.BestAskPrice` | mvp/src/order_book.cpp:31-34 | the price at the front of the reference asks, the largest 64-bit integer if there are none |
| `LimitBook.OrderBook.QtyAtPrice` | mvp/src/order_book.cpp:36-50 | walking the level's list sums the reference quantity at that price |
| `LimitBook.OrderBook.Size` | mvp/src/order_book.h:78-79 | the index, the pool's count and the resting orders agree |
| `LimitBook.OrderBook.PlaceThenCancel` | mvp/src/order_book.cpp:104-161 | placing an order that does not cross, with a slot free, and cancelling it restores maps, list links, index, free list and the free slots' links exactly |
| `LimitBook.OrderBook.Serve` | mvp/src/order_book.cpp:104-161 | every sequence of calls gets the reference run's ids, trades and cancel results and ends in its book |
| `Engines.Engine.PlaceLimit` | mvp/src/engine.h:15-20 | the placement, with its trades kept as the last trades |
| `WrapArithmetic.RoundUpIsLeast` | mvp/src/spsc_ring.h:34-37 | the capacity is the least power of two, at least 2, that is not below the request |
| `WrapArithmetic.MaskWrap` | mvp/src/spsc_ring.h:56-77 | masking a wrapped counter gives the unwrapped count modulo the capacity |
| `RingProtocol.StepKeepsInv` | mvp/src/spsc_ring.h:56-77 | every load, store and slot access keeps the protocol invariant, however stale the loads |
| `RingProtocol.PopReadsNext` | mvp/src/spsc_ring.h:69-77 | whatever the memory model lets the consumer read is the next item, without a race |
| `RingProtocol.RingIsSafe` | mvp/src/spsc_ring.h:56-77 | in every interleaving with stale loads and wrapping counters: popped values are a prefix of the pushed, at most the capacity is in flight, no slot access races |
| `RingProtocol.NeverSameSlot` | mvp/src/spsc_ring.h:56-77 | the slot about to be written is never the slot about to be read |
| `RingProtocol.PushRefusesIffFull` | mvp/src/spsc_ring.h:56-66 | a push refuses exactly if the ring is full by the tail it read |
| `RingProtocol.PopRefusesIffEmpty` | mvp/src/spsc_ring.h:69-77 | a pop refuses exactly if nothing is left by the head it read |
| `RingProtocol.ReadAlwaysPossible` | mvp/src/spsc_ring.h:69-77 | a consumer that has seen an item can always read it |
| `SpscRings.SpscRing.TryPush` | mvp/src/spsc_ring.h:56-66 | appends unless full, through wrapping counters |
| `SpscRings.SpscRing.TryPop` | mvp/src/spsc_ring.h:69-77 | takes the oldest item unless empty |
| `SpscRings.SpscRing.SizeApprox` | mvp/src/spsc_ring.h:81-85 | with no other thread in between, the number of items |
| `RingProtocol.SizeApproxReads` | mvp/src/spsc_ring.h:81-85 | in every interleaving, a size query that reads the i-th head and the j-th tail store gives i - j, wrapped around 2^64 if the tail is ahead; with current loads it is the number in flight |
| `FixFrames.SplitFrame` | mvp/src/fix/parser.cpp:66-117 | the scanning code computes the splitter's verdict |
| `FixFrames.FramedIff` | mvp/src/fix/parser.cpp:66-117 | a frame is accepted if and only if the buffer starts with "8=FIX.4.4", a length field of at most 2^20, that many bytes, and a checksum field that is the byte sum modulo 256; and it is that frame |
| `FixFrames.SplitIsStable` | mvp/src/fix/parser.cpp:66-117 | more bytes never change a verdict that did not ask for more |
| `FixFrames.DrainAppend` | mvp/src/fix/gateway.cpp:130-150 | draining a stream does not depend on where it was cut |
| `FixFrames.CorruptionDetected` | mvp/src/fix/parser.cpp:95-112 | changing any one byte of the body or the trailer of an accepted frame gives Malformed |
| `FixFrames.PrefixCorruptionDetected` | mvp/src/fix/parser.cpp:70-78 | changing any one byte of the begin string or the length tag gives Malformed |
| `FixFrames.LengthCorruption` | mvp/src/fix/parser.cpp:81-112 | the verdict for every changed byte of the length field, its SOH included: Malformed for a byte that is neither digit nor SOH, an empty or unterminated numeral or one above the cap; Incomplete exactly if the new end lies beyond the buffer; otherwise Malformed exactly if no matching trailer stands there, else the frame that ends there |
| `FixFrames.LargerLengthStalls` | mvp/src/fix/parser.cpp:81-98 | with nothing behind the frame, a larger length digit makes the splitter wait, or refuse above the cap |
| `FixFrames.LengthCorruptionCanStall` | mvp/src/fix/parser.cpp:95-98 | an accepted frame that one changed length digit turns into waiting |
| `FixFrames.LengthCorruptionCanPass` | mvp/src/fix/parser.cpp:95-116 | an accepted frame that one changed length digit cuts short unnoticed |
| `FixFields.ParseFrame` | mvp/src/fix/parser.cpp:119-145 | the scanning loop computes the parse |
| `FixFields.GetIsFirst` | mvp/src/fix/parser.cpp:12-17 | a lookup gives the value of the first field with the tag, and nothing if there is none |
| `FixFields.FieldsRoundTrip` | mvp/src/fix/parser.cpp:119-180 | parsing printed fields gives them back exactly if every tag is a non-negative 32-bit integer and no value holds a separator |
| `FixMessages.MessageIsOneFrame` | mvp/src/fix/parser.cpp:217-230 | a finalized message is one whole frame exactly if its body has at most 999999 bytes |
| `FixMessages.MessageParses` | mvp/src/fix/parser.cpp:119-230 | a finalized message parses to 8, 9, its fields in order, then 10, exactly if its fields are well formed |
| `FixMessages.Builder.Begin` | mvp/src/fix/parser.cpp:151-170 | starts a message with the standard header fields |
| `FixMessages.Builder.AddStr` | mvp/src/fix/parser.cpp:172-180 | adds one field |
| `FixMessages.Builder.Finalize` | mvp/src/fix/parser.cpp:217-230 | patches the length in place and appends the checksum: the whole message |
| `ExecReports.MakeReports` | mvp/src/fix/gateway.cpp:232-272 | the accumulating loop produces the reports of the order |
| `ExecReports.ReportsAgreeWithBook` | mvp/src/fix/gateway.cpp:216-272 | CumQty + LeavesQty = OrderQty in every report, CumQty strictly increases over the trades, FILL is last and exactly when a positive quantity has nothing open, and the last LeavesQty is what rests unless nothing crossed and the pool was exhausted |
| `ExecReports.ReportsTellTheTrades` | mvp/src/fix/gateway.cpp:232-272 | report k is for the k-th maker in priority: LastPx is that maker's price, LastQty its whole quantity except perhaps for the last, CumQty runs up by it, and AvgPx times CumQty is the sum of LastPx times LastQty so far; what is open is told last, without a trade |
| `ExecReports.LeavesCanExceedWhatRests` | mvp/src/fix/gateway.cpp:232-272 | on a one-slot book that is full, a bid for 7 is reported open for 7 and nothing of it rests |
| `ExecReports.AverageWithinLimit` | mvp/src/fix/gateway.cpp:244-262 | the reported average price never breaks the order's limit |
| `GatewayLaws.AcceptedOrder` | mvp/src/fix/gateway.cpp:195-272 | an accepted order sends exactly its reports, under consecutive sequence numbers and execution ids, and they agree with the shared book |
| `GatewayLaws.DrainOnceKeepsOk` | mvp/src/fix/gateway.cpp:131-178 | one turn of the loop keeps the session's numbering and its logon discipline |
| `GatewayLaws.SessionSafety` | mvp/src/fix/gateway.cpp:123-412 | for any number of sessions in any interleaving: no recorded engine call before that session's Logon was handled, MsgSeqNum runs 1, 2, 3, ..., execution ids are unique, the book stays valid |
| `GatewayLaws.TurnIsAccounted` | mvp/src/fix/gateway.cpp:131-178 | a turn changes the shared book by exactly the one call it records, or not at all; a book snapshot goes out only with a recorded query and shows the top of that book; before a logon the gate is untouched |
| `GatewayLaws.SnapshotTellsTop` | mvp/src/fix/gateway.cpp:305-328 | a snapshot shows the highest bid and the lowest ask, in hundredths, each with the sum of all orders at that price, nothing for an empty side, and a bid below the ask |
| `GatewayLaws.BookIsTheRecordedRun` | mvp/src/fix/gateway.cpp:195-328 | in every interleaving the shared book is the run of all recorded calls and direct operations: nothing else touches it |
| `GatewayRequests.TicksAreNearest` | mvp/src/fix/gateway.cpp:212-213 | a decimal price is placed at the nearest hundredth, and a price in hundredths at itself |
| `GatewayRequests.DecimalNamesItself` | mvp/src/fix/gateway.cpp:288 | a plain decimal numeral of a signed 64-bit number names that order id and no other |
| `GatewayRequests.HandleAnswers` | mvp/src/fix/gateway.cpp:159-328 | a message makes exactly the engine call its fields ask for, told by field and type numbers, if a logon came before and it asks for one; otherwise none |
| `GatewayRequests.RequestsAreServed` | mvp/src/fix/gateway.cpp:123-328 | in every run, each session's engine calls are exactly those its messages after a logon asked for, in their order: none missing, none added |
| `GatewayRequests.OrderIsAnswered` | mvp/src/fix/gateway.cpp:195-272 | an acceptable order is placed on the side, at the price and for the quantity its fields give, and its reports go out to the sender, echoing client id, symbol and side |
| `GatewayRequests.OrderIsRefused` | mvp/src/fix/gateway.cpp:204-209 | any other order message leaves the book alone and gets one report of a rejection |
| `GatewayRequests.CancelIsAnswered` | mvp/src/fix/gateway.cpp:285-303 | the order named in field 37 is cancelled, and reported canceled exactly if it rested, else rejected |
| `GatewayRequests.QueryIsAnswered` | mvp/src/fix/gateway.cpp:305-328 | a book query changes nothing and gets one snapshot with the top of the book and the request's id and symbol |
| `GatewayRequests.SessionMessages` | mvp/src/fix/gateway.cpp:159-193 | what logon, logout, unknown messages and messages before a logon do, by type byte |
| `GatewayStreams.FramesAreHandled` | mvp/src/fix/gateway.cpp:130-150 | the loop handles exactly the frames the splitter finds, up to one that does not parse |
| `GatewayStreams.ChunkingDoesNotMatter` | mvp/src/fix/gateway.cpp:123-151 | while the session runs, any chunking leaves the state that receiving everything at once leaves; once it stopped, what it did is a beginning of that |
| `GatewayStreams.ChunkingMattersIff` | mvp/src/fix/gateway.cpp:123-151 | once a chunk stopped the session, chunked and whole delivery leave the same record exactly if it is stuck at a bad frame or no whole frame follows |
| `GatewayStreams.OrderAfterLogout` | mvp/src/fix/gateway.cpp:130-150 | for any small Logon, Logout and acceptable order: the order is placed in the same chunk and ignored in the next |
| `GatewayStreams.OrderAfterLogoutHappens` | mvp/src/fix/gateway.cpp:123-150 | three such messages, which fit the 4096 bytes of one receive |
| `GatewayStreams.ReceiveIsARun` | mvp/src/fix/gateway.cpp:123-151 | a session working off one received chunk is a run of the exchange: the chunk arrives, then some of its turns, so every law over runs holds of it |
| `GatewayStreams.ReceivingIsSafe` | mvp/src/fix/gateway.cpp:123-412 | session safety holds after any run and one more received chunk |
| `GatewayWire.OutboundIsReadable` | mvp/src/fix/gateway.cpp:343-412 | in every run the k-th outbound message parses back, its fields by their FIX numbers say what the message says (type, parties, MsgSeqNum k, ids, codes, quantities, prices, book entries), and it is one frame exactly up to 999999 body bytes |
| `GatewaySessions.FixSession.Send` | mvp/src/fix/gateway.cpp:343-412 | builds one message under the next sequence number and puts exactly its bytes on the wire |
| `GatewaySessions.FixSession.NewOrder` | mvp/src/fix/gateway.cpp:195-272 | rejects bad quantity, price or side before the engine, else places and reports |
| `GatewaySessions.FixSession.CancelRequest` | mvp/src/fix/gateway.cpp:285-303 | cancels by engine id and reports the outcome |
| `GatewaySessions.FixSession.MdRequest` | mvp/src/fix/gateway.cpp:305-328 | answers with the top of the shared book |
| `GatewaySessions.FixSession.HandleMessage` | mvp/src/fix/gateway.cpp:159-189 | before logon anything but a logon stops the session; otherwise dispatches on the message type |
| `GatewaySessions.FixSession.OnBytes` | mvp/src/fix/gateway.cpp:123-151 | appends a chunk and drains it as the specification does |
| `Portfolios.PnlIdentity` | mvp/src/backtest/portfolio.cpp:7-64 | total P&L at any mark is net cash plus position at that mark plus a drift independent of the mark |
| `Portfolios.DriftIsBounded` | mvp/src/backtest/portfolio.cpp:22-32 | the drift is at most the sum, over averaging fills, of the position after the fill less one; it is zero after every fill if and only if, at each averaging fill, the weighted cost is a multiple of the new quantity |
| `Portfolios.PnlIsExactIff` | mvp/src/backtest/portfolio.cpp:7-64 | the total P&L is net cash plus marked position after every fill and at every mark if and only if every averaging divides |
| `Portfolios.DriftBoundIsTight` | mvp/src/backtest/portfolio.cpp:22-32 | for every n there are n + 1 fills whose drift equals the bound and is at least n |
| `Portfolios.FillIsBooked` | mvp/src/backtest/portfolio.cpp:7-57 | profit is realized on the closed units only, each at its distance from the average cost; after a change of sides the average cost is the fill's price, while the position shrinks it stays, while it grows it is less than one off the weighted mean |
| `Portfolios.BuildingUp` | mvp/src/backtest/portfolio.cpp:12-33 | from flat, fills on one side alone realize nothing, and the average cost lies between the lowest and the highest of their prices |
| `Portfolios.FlatIsSettled` | mvp/src/backtest/portfolio.cpp:34-57 | a flat position has no average cost, and its realized profit is the net cash up to the drift |
| `Portfolios.Portfolio.Deliver` | mvp/src/backtest/portfolio.cpp:7-57 | the in-place update is the accounting step |
| `BacktestRuns.NextKeepsInv` | mvp/src/backtest/replay.cpp:162-199 | every event and every strategy call keeps the record, routing, credits and portfolios consistent |
| `BacktestTheorems.FillsAreAttributed` | mvp/src/backtest/strategy.cpp:5-39 | over every replay each credit is a real trade of an order the credited strategy placed, on its side; credited + lost = traded, at most what was submitted; a routed order has lost nothing |
| `BacktestTheorems.StrategyPnl` | mvp/src/backtest/portfolio.h:31 | over every replay a strategy's total P&L obeys the identity over exactly the fills it was credited |
| `BookInvariant.PlacementReaches` | mvp/src/order_book.cpp:71-98 | which makers a placement trades with and which it leaves partly filled, told from the queue before it |
| `BacktestTallies.TalliesAreRight` | mvp/src/backtest/strategy.cpp:5-39 | over every replay a strategy is counted one submission per placement, one cancellation per cancel that found its order, one fill per credit; the last price is the last printed, or the price of the last maker exogenous flow reached |
| `LostFills.StrandsIff` | mvp/src/backtest/replay.cpp:170-182 | exogenous flow leaves a strategy's order resting unrouted exactly if the queue before it says some strategy's order will be filled in part |
| `LostFills.StepLosesIff` | mvp/src/backtest/replay.cpp:170-182 | one step takes a fill away from an order exactly if it is a placement that reaches the order unrouted |
| `LostFills.CreditedExactlyIff` | mvp/src/backtest/replay.cpp:162-199 | over every replay, an order is credited exactly what it traded if and only if no placement reached it while it was not routed |
| `LostFills.AllCreditedIff` | mvp/src/backtest/replay.cpp:162-199 | over every replay, all strategies' orders are credited what they traded if and only if no placement ever reached one of them while it was not routed; exactly then nothing is recorded as lost |
| `LostFills.NothingLost` | mvp/src/backtest/replay.cpp:162-199 | a replay in which no exogenous order leaves a strategy's order partly filled credits every strategy exactly what its orders traded |
| `LostFills.FillsCanBeLost` | mvp/src/backtest/replay.cpp:170-182 | a bid for 10 hit for 4 and then for 6 is credited 4 |
| `BacktestTheorems.InternalTradesCancel` | mvp/src/backtest/strategy.cpp:16-27 | a strategy's placement moves the sum of all positions only by what it trades with unrouted makers: trades between strategies cancel |
| `BacktestTheorems.PositionIsHoldings` | mvp/src/backtest/replay.cpp:162-199 | in every reachable state a strategy's position plus what was lost is the net quantity its orders traded on the book |
| `MarketMakers.MidIsInside` | mvp/src/backtest/replay.cpp:97-115 | strategies are shown the best price of each side with all its quantity, or 0, and as mid the halfway price within half a tick, the one price there is, or the last price |
| `MarketMakerQuotes.TickRequotesIff` | mvp/strategies/mm.cpp:14-52 | a two-sided tick is counted, and the market maker re-quotes if and only if it has no mid yet, the mid moved by the threshold, or the count is a multiple of the interval; then it puts up exactly the quotes the limit allows, for the quote size |
| `MarketMakerQuotes.QuotesSurroundTheMid` | mvp/strategies/mm.cpp:14-29 | in every reachable state each of its resting bids is a half-spread below the mid last quoted, and each ask a half-spread above |
| `MarketMakerQuotes.NoStaleQuotes` | mvp/strategies/mm.cpp:31-52 | in every replay, after every two-sided tick its resting quotes are a half-spread from the mid shown, or off by less than the threshold |
| `MarketMakerBand.RequoteStaysInBand` | mvp/strategies/mm.cpp:9-29 | after each cancel and each placement of a re-quote the market maker is inside its band |
| `MarketMakerBand.ElsewhereKeeps` | mvp/src/backtest/replay.cpp:162-199 | nothing the exogenous flow or another strategy does takes it out of the band |
| `MarketMakerBand.InventoryIsBounded` | mvp/strategies/mm.cpp:9-52 | in every reachable state of every replay, position is at most inventory limit + quote size either way, and live orders are at most the one recorded bid and ask |
| `MarketMakerBand.HoldingsInBand` | mvp/strategies/mm.cpp:9-52 | the net quantity its orders really traded lies in the band shifted by what was lost, so in the band while nothing is lost |
| `MarketMakerRuns.PlayedIsReplayed` | mvp/src/backtest/replay.cpp:145-208 | a replay that shows the market maker the top of the book after each event is one of the runs bounded above |
| `MarketMakerPlays.BandIsReached` | mvp/strategies/mm.cpp:14-52 | for every non-negative limit, every quote size, threshold and interval and every positive half-spread, a replay of events from the empty book takes the position to limit + quote size, and another to minus that |
| `RealInventory.NextKeepsWhole` | mvp/src/backtest/replay.cpp:162-199 | whatever happens, a strategy whose orders are for at most one unit has lost nothing, and its resting orders are routed |
| `RealInventory.ShelteredHoldsItsPosition` | mvp/strategies/mm.cpp:9-52 | with quotes of at most one unit, or a negative limit, in every replay the market maker's position is what its orders really traded, and is in the band |
| `LeakingInventory.LeaksAddUp` | mvp/strategies/mm.cpp:14-52 | with quotes of two units or more, for every n there is a replay after which the market maker is told 0 and its orders have bought n * (quoteQty - 1) |
| `RealInventory.RealInventoryIsBoundedIff` | mvp/strategies/mm.cpp:9-52 | over all replays of tick files, what the market maker's orders really traded stays in its band, or within any bound at all, if and only if the quote size is at most 1 or the limit is negative |
| `Replays.Replay.PlaceFor` | mvp/src/backtest/strategy.cpp:5-30 | places, routes, and credits taker and routed makers trade by trade |
| `Replays.Replay.CancelFor` | mvp/src/backtest/strategy.cpp:32-39 | cancels any id; only a resting one is counted and unrouted |
| `Replays.Replay.AddExogenous` | mvp/src/backtest/replay.cpp:163-184 | places exogenous flow, credits and unroutes the makers it hits |
| `Replays.Replay.CancelExogenous` | mvp/src/backtest/replay.cpp:185-193 | cancels through the external id, once |
| `Replays.Replay.SnapshotTop` | mvp/src/backtest/replay.cpp:97-115 | the top of the reference book, with 0 for an empty side |
| `Replays.Replay.Run` | mvp/src/backtest/replay.cpp:119-216 | the whole loop over the linked book, with every strategy's callbacks, is a run of the transition system, so a fresh replay ends with the market maker in its band; with the market maker alone it is the replay of the events |
| `Replays.MarketMaker.CancelQuotes` | mvp/strategies/mm.cpp:9-12 | cancels and forgets both quotes |
| `Replays.MarketMaker.MakeQuotes` | mvp/strategies/mm.cpp:14-29 | reads the position once and places the quotes the limit allows |
| `Replays.MarketMaker.Tick` | mvp/strategies/mm.cpp:31-52 | waits for a two-sided book, re-quotes on a moved mid or on the interval |

## Left out

- Sockets, threads, accept, receive and send, and the market-data feed: bytes in are a sequence, bytes out a log, and publishing the L1 update is not modelled.
- Interleaving inside one gateway handler: a handler is one step, so two handlers' reports never mix their execution ids.
- Failure of a send, which stops a session in the source.
- Floating point: prices and quantities of requests are reals, not-a-number and infinities and overflowing casts are not modelled, and rounding of the average price is not.
- Overflow of 64-bit prices, quantities, ids and P&L, and of the 32-bit sequence numbers.
- Storage reuse in the pool: a slot's payload and its free-list link are separate arrays; alignment and placement new are not modelled, nor is the order book's destructor.
- The engine's `match` call, which only counts the last trades.
- CSV and binary tick files, real-time pacing and the statistics counters of a replay.
- The size of a receive, 4096 bytes in the source: chunks are of any size, so every cut of a stream is covered and a whole delivery may be longer than one receive.
- RealInventoryIsBoundedIff: the unbounded direction is for a positive half-spread, for which the quotes do not meet, and a pool of at least four slots.
- Other strategies' decisions: a replay takes their calls as data, which covers every behaviour; the moving-average strategy is not modelled.
- Time stamping, PTP, DPDK, FPGA, io_uring and core pinning: drivers and hardware without a law in the code.
