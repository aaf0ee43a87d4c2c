# OmniTrader: verified model of the trading core

A Dafny model of the parts of OmniTrader that decide what is quoted, keep track of what rests at
the venue, mirror the venue's book, and move messages between processes. `dafny verify
dfyconfig.toml` checks the whole project.

## What is modelled

**Units.** A price is a whole number of min ticks and a quantity a whole number of default lots. A
product tick is `tick` min ticks and a product lot `lot` default lots, both integers. Basis-point
quantities, the mid price and the fair price are exact reals; the 1e-8 epsilons of the floor and
ceil conversions are kept.

**Quoting** (`Rounding`, `Ladders`, `Strategy`, `StrategyProofs`, `WantedQuotes`).
`GeuantStrategy`: the capped ladders, the liquidation quote, and the greedy pairing of resting
orders with wanted prices. The loops of the source are methods, each proved equal to a function on
sequences. The two-neighbour search is proved to find what a brute-force search finds.
`WantedQuotes` says of every wanted quote what its price and its size are, in terms of the
parameters, the market and the position alone.

**Order handling** (`HandlerModel`, `TraderOrderHandler`, `IndexInvariant`, `DecisionProofs`,
`Executions`, `SentOrders`, `MarketView`). `OrderHandler` is a class with the source's maps and sets
as fields. Each of its methods is proved to do to those fields what its function in `HandlerModel`
says; the properties are proved about the functions: what each message does to the orders and
positions (`Executions`), what each request says (`SentOrders`), and that every decision of every
run is made on the latest market data (`MarketView`).

**Handler, gateway, feed and venue** (`VenueModel`, `VenueInvariant`, `VenueSteps`,
`HandlerSteps`, `HandlerForgets`, `HandlerPlaces`, `HandlerFeed`, `FeedDelivery`, `Deliveries`,
`VenueTheorems`). A state machine whose steps are the handler's operations, the venue's, and the
deliveries on two channels that are not ordered against each other: the gateway's replies and the
execution feed. A reply may be delayed, lost, or wrongly report a failure; waits may time out at any
point; links may come and go; a live order may be reported open again at any time, as the listener
does on each reconnect and each new subscription; messages about orders of other sessions may
appear anywhere in the feed, with client order ids that parse to numbers. The invariant
`VenueInvariant.Inv` holds initially and is kept by every step, so the theorems hold after every
run.

What the environment is assumed to do is written in `VenueModel.Possible` and `VenueModel.Enabled`:

- an order number is not empty and belongs to one order; a foreign order's number is never given
  to an order of this session;
- a number that another order's client id parses to is never issued as a cid in this session; an
  earlier session's ids, which are clock readings or lie just above them, meet this when the clock
  is ahead of them;
- the feed echoes the cid, is delivered in order, and reports an order's acceptance before
  anything else about it; an open-orders report about an order of this session takes its place in
  that order, with what is then left of the order;
- a fill is a whole number of product lots, and never more than the order has left;
- a reply carries the cid of its request; a cancel is answered with success, or with "no such
  order", only once the order is not live;
- clock readings are positive;
- a cancel for an order is sent only after the reply to its place request has been consumed. This
  one is the split between `Possible` and `Enabled`, and `EarlyCancelLosesOrder` is a run that
  breaks it and loses a live order.

**Shutdown** (`ShutdownModel`, `ShutdownLog`, `TraderOrderHandler`). The shutdown loops run against
a clock and a script of what the queue delivers: every timed wait advances the clock by at least
one nanosecond and by at most the time asked for (one nanosecond when that is zero), and handling a
queue item takes any amount of time, which the bound leaves out. The order-update interval is
positive, as the timer that divides by it requires. A log records, in order, the requests sent, the
queue items handled with the orders whose cancels they answer, each cancel phase with its start and
deadline, and the handler as it was at each point of the shutdown. A cancel counts as answered by
the gateway's reply, by a report of the cancellation or of a rejection, or by a fill that uses up
what is recorded of the order. The contracts say what is in the log: every item taken off the queue,
handled once and in order; cancel phases as rounds of cancels for everything that can be cancelled;
the flattening as rounds of liquidation quotes, an update interval apart, and then a market order for
every position that is left.

**The local order book** (`DepthBook`, `BinanceOrderBook`). The venue is a history of level changes; a
diff `(U, u, pu)` carries the absolute quantity of every level changed in `(pu, u]`; a snapshot is
the full book at its update id.

**Messages** (`Framing`, `SessionWriter`, `Subscriptions`). Newline framing with a read loop over
chunks; a TCP session's outgoing path as interleaved steps of senders, executor and receiver; the
broadcast worker's subscription tables.

**Small protocols** (`TaskRunner`, `Redial`, `Factor`). The serial task runner, the order
gateway's redial flag, and the clamped and smoothed pricing factor.

## Where the code and its descriptions differ

- `README.md:328` of the repository says that nothing the process placed is left working on any
  path. The code gives up when the deadline of its last cancel phase passes
  (`src/trader/order_handler/order_handler.cpp:1121`). `Shutdown` is proved to return with nothing
  outstanding or after a last phase that ran out of its own time and after which no order was sent;
  `SilentVenueLeavesOrder` is a shutdown, with flattening and without, that leaves an order.
- Binance's local-book procedure for USDⓈ-M futures accepts a diff whose `u` equals the last update
  id as the first one after a snapshot. The code takes it for a gap and resyncs
  (`src/market_listener/exchange/binance/order_book.cpp:55-62`): `DiffEndingAtSnapshotDesyncs` is
  such a diff, and `StreamKeepsSyncIff` says of whole streams exactly when the sync is kept.
- `src/utils/task_runner.hpp:45-46` promises that tasks run in the order they were posted. The queue
  keeps that order for each posting thread. `LaterTaskStartsFirst` is a run of two posters in which
  the later of two tasks starts first; `StartsInOrderIff` says that one order over all posts holds
  on every run exactly with one poster or room for one task.
- `src/trader/order_gateway/binance/ws_order_gateway.cpp:78-80` says that the lock is held across
  the construction of a client. The code takes it afterwards, so a first dial that fails at once can
  be acted on before its client is stored: `FirstDialRace`.

## Model

| member | source | states |
|---|---|---|
| Rounding.Round | src/trader/strategy/base_strategy.cpp:15-17 | the result is within half of the argument, and a half goes away from zero |
| Rounding.FloorTicks | src/trader/strategy/base_strategy.cpp:31-39 | the greatest whole number of ticks not above the price plus 1e-8 |
| Rounding.CeilTicks | src/trader/strategy/base_strategy.cpp:20-28 | the least whole number of ticks not below the price minus 1e-8 |
| Rounding.SnapIsNearest | src/trader/order_handler/order_handler.cpp:171-188 | the snapped value lies on the grid, at most half a grid step away |
| Rounding.SnapMonotone | src/trader/order_handler/order_handler.cpp:171-174 | snapping never reverses the order of two prices |
| Rounding.SnapShift | src/trader/order_handler/order_handler.cpp:171-174 | moving a non-negative price by whole grid steps moves the snapped price by as many |
| Ladders.LowerBound | src/trader/strategy/geuant_strategy.cpp:101 | the first entry at or above the price; all before it are below |
| Ladders.PutContents | src/trader/strategy/geuant_strategy.cpp:228-243 | assigning to a price sets that entry and leaves every other one |
| Strategy.Nearest | src/trader/strategy/geuant_strategy.cpp:93-100 | brute force: no wanted price is nearer, and no lower one is as near |
| Strategy.Match | src/trader/strategy/geuant_strategy.cpp:118-126 | a wanted price within the tolerance, and none exactly when no wanted price lies within it |
| Strategy.TwoNeighboursSuffice | src/trader/strategy/geuant_strategy.cpp:101-117 | the better of the two neighbours, the lower on a tie, is the nearest of all |
| Strategy.FindMatch | src/trader/strategy/geuant_strategy.cpp:101-121 | the two-neighbour search returns what the brute-force match returns |
| Strategy.ChooseOrdersToCancel | src/trader/strategy/geuant_strategy.cpp:51-133 | the loop over the resting orders computes the greedy pairing, with no tolerance while liquidating |
| Strategy.ClipDelta | src/trader/strategy/geuant_strategy.cpp:16-20 | the width is not negative unless a negative cap makes it so, and never above the cap in use |
| Strategy.BidLadder | src/trader/strategy/geuant_strategy.cpp:214-231 | sorted, at most one quote a level, and never empty after the first level, so the read of the last entry is safe |
| Strategy.AskLadder | src/trader/strategy/geuant_strategy.cpp:214-243 | sorted, at most one quote a level, and never empty after the first level, so the read of the first entry is safe |
| Strategy.BuildLadders | src/trader/strategy/geuant_strategy.cpp:183-244 | the interleaved loop builds exactly the two ladders |
| Strategy.MakeDecision | src/trader/strategy/geuant_strategy.cpp:136-250 | the decision is the pairing of the resting orders with the wanted quotes of either branch |
| StrategyProofs.PairConserves | src/trader/strategy/geuant_strategy.cpp:65-132 | each resting order of a side is cancelled or claims one wanted quote, never both; claimed and remaining quotes are exactly the wanted ones; each claim is within its tolerance |
| StrategyProofs.KeptPlusPlacedIsWanted | src/trader/strategy/geuant_strategy.cpp:65-132 | per side, orders kept plus orders to place are as many as the wanted quotes, and those at most order_num |
| StrategyProofs.KeptOrdersKeepTheirQuotes | src/trader/strategy/geuant_strategy.cpp:65-132 | pairing again without the cancelled orders makes the same claims and cancels nothing |
| StrategyProofs.PairIsFixedPoint | src/trader/strategy/geuant_strategy.cpp:51-133 | over the kept orders and one order per placed quote, the next pairing cancels nothing and places nothing, for any tolerance |
| StrategyProofs.QuotesStayPassive | src/trader/strategy/geuant_strategy.cpp:183-243 | on an uncrossed book on the product grid every bid is below the best ask and every ask above the best bid, before and after snapping, in both cap modes |
| StrategyProofs.OwnQuotesDoNotCross | src/trader/strategy/geuant_strategy.cpp:183-243 | no own bid is above an own ask, before or after snapping: with the caps at the touch and a buffer that is not negative whatever the ladder and the fair price, and otherwise where neither the spread cap nor the basis-point interval of a second level is negative |
| StrategyProofs.NeverCrossesIff | src/trader/strategy/geuant_strategy.cpp:183-243 | for any position, own quotes cross on no book the handler can hand over exactly when the caps sit at the touch, or both ladders open away from fair, or there are no levels, or both sides are never quoted on a book wide enough to cross on |
| StrategyProofs.NegativeSpreadCapCrosses | src/trader/strategy/geuant_strategy.cpp:16-20 | with both sides quoted, the caps a tick inside the opposite touch and any negative spread cap, the bid at 2 stands over the ask at 1 on the book 0 to 3 |
| StrategyProofs.NegativeIntervalCrosses | src/trader/strategy/geuant_strategy.cpp:214-243 | with any negative basis-point interval and at least two levels the same happens there, at some volatility |
| StrategyProofs.TickLadderSpacing | src/trader/strategy/geuant_strategy.cpp:214-243 | the levels of a tick-based ladder lie exactly k times order_interval_ticks product ticks from its top |
| StrategyProofs.SpacingSurvivesSnapping | src/trader/order_handler/order_handler.cpp:171-174 | for non-negative prices the spacing is the same after snapping |
| StrategyProofs.LiquidationOnlyReduces | src/trader/strategy/geuant_strategy.cpp:161-181 | a liquidation decision places at most one order, against the position and for all of it |
| WantedQuotes.QuotesAreSized | src/trader/strategy/geuant_strategy.cpp:39-48 | a side is quoted exactly while there are levels and room left under the position limit; each quote is for the order size, or for the room where that is less |
| WantedQuotes.FillsRespectLimits | src/trader/strategy/geuant_strategy.cpp:189-202 | a filled bid cannot carry the position above the limit, nor a filled ask below minus the limit, nor below zero without short selling; no quote is larger than the order size |
| WantedQuotes.BidsAtTargets | src/trader/strategy/geuant_strategy.cpp:204-231 | bids priced off fair stand exactly at the nearest prices to their targets, fair less the skewed width and k basis-point intervals, each no better than the cap |
| WantedQuotes.AsksAtTargets | src/trader/strategy/geuant_strategy.cpp:204-243 | asks likewise, on the other side of fair |
| WantedQuotes.TickLadderFromTarget | src/trader/strategy/geuant_strategy.cpp:204-243 | a tick-based ladder starts at its first target, capped, and stands exactly order_interval_ticks product ticks further out at each level |
| WantedQuotes.LeansAgainstPosition | src/trader/strategy/geuant_strategy.cpp:23-36 | the longer the position, the further the bids stand from fair and the nearer the asks |
| WantedQuotes.NextOrderCancelledIff | src/trader/strategy/geuant_strategy.cpp:65-132 | the next resting order is cancelled exactly when no quote still wanted on its side lies within order_buffer_bp of its price, or at its very price while liquidating; otherwise it stands in for the nearest one, which is not placed |
| WantedQuotes.LiquidationQuote | src/trader/strategy/geuant_strategy.cpp:161-181 | liquidation wants exactly the whole position, one product tick inside the opposite touch |
| IndexInvariant.BindKeepsIndexesIff | src/trader/order_handler/order_handler.cpp:326-331 | binding keeps the order indexes consistent exactly when number and order belong to each other |
| IndexInvariant.ExecutionKeepsIndexesIff | src/trader/order_handler/order_handler.cpp:290-406 | an execution keeps the indexes consistent, an acceptance of a known order exactly when its number belongs to that order |
| IndexInvariant.ResponseKeepsIndexesIff | src/trader/order_handler/order_handler.cpp:543-609 | a gateway reply keeps them, one that binds exactly when its number belongs to that order |
| IndexInvariant.RouteFollowsIndexes | src/trader/order_handler/order_handler.cpp:294-322 | an execution routed to an order is routed to the product that owns it, and routed to none only when its number is unknown |
| IndexInvariant.ReserveKeepsIndexes | src/trader/order_handler/order_handler.cpp:409-417 | a reserved cid is new and above every earlier one |
| IndexInvariant.ForgetKeepsIndexes | src/trader/order_handler/order_handler.cpp:420-429 | forgetting an order removes it from all indexes together |
| IndexInvariant.PlaceKeepsIndexes | src/trader/order_handler/order_handler.cpp:945-1017 | placing keeps the indexes consistent |
| IndexInvariant.UpdateOrdersKeepsIndexes | src/trader/order_handler/order_handler.cpp:770-910 | a decision keeps the indexes consistent, whatever it cancels and places |
| Executions.NamesOneOrNothing | src/trader/order_handler/order_handler.cpp:290-322 | a message is about at most one order, and about none exactly when its client id and its number are both unknown |
| Executions.RouteOfNamed | src/trader/order_handler/order_handler.cpp:294-322 | a message about a known order goes to that order and its product, whatever product it came with, a known cid counting before the number |
| Executions.RouteOfUnnamed | src/trader/order_handler/order_handler.cpp:311-317 | a message about an unknown order goes to the traded product it came with, and is ignored for any other |
| Executions.EndReportDrops | src/trader/order_handler/order_handler.cpp:338-355 | a rejection or cancellation takes the order out of every map and wait, but for the place wait of a cancelled one, and changes nothing else |
| Executions.AcceptanceBinds | src/trader/order_handler/order_handler.cpp:357-361 | an acceptance binds the number, ends the place wait, and changes nothing else |
| Executions.FillTakesLots | src/trader/order_handler/order_handler.cpp:373-396 | a fill takes its lots off the order, drops it when nothing is left, and moves the position of the order's product by exactly its lots, up for a bid and down for an ask, where fills count |
| Executions.UnknownAcceptanceAdopts | src/trader/order_handler/order_handler.cpp:362-371 | an accepted order nobody here knows, with a positive size, is adopted: exactly one outstanding order more, under a fresh cid, with the reported price, size and side, bound to its number |
| Executions.UnknownFillMovesPosition | src/trader/order_handler/order_handler.cpp:373-396 | a counted fill of such an order moves the position of the product it came with and nothing else |
| Executions.OtherMessagesChangeNothing | src/trader/order_handler/order_handler.cpp:290-406 | every other message changes nothing |
| Executions.ReplyEffects | src/trader/order_handler/order_handler.cpp:543-609 | a reply ends both waits on its cid, drops the order exactly when a cancel was done or found it gone or a place failed, binds the number when it succeeded with no cancel awaited, and changes nothing else |
| Executions.UnknownReplyChangesNothing | src/trader/order_handler/order_handler.cpp:543-560 | a reply for a cid not known any more changes nothing |
| HandlerModel.Greatest | src/trader/order_handler/order_handler_dtypes.hpp:64 | the last cid of a map in iteration order |
| DecisionProofs.RestingOrdersLists | src/trader/strategy/geuant_strategy.cpp:65 | iterating the outstanding orders visits each once, in cid order |
| DecisionProofs.PlacesSent | src/trader/order_handler/order_handler.cpp:904-1017 | new orders rest behind the old ones, under ascending fresh cids, recorded as they were asked for |
| DecisionProofs.CancelsSent | src/trader/order_handler/order_handler.cpp:901-942 | each cancel of an order with a number sends one request for that number and changes only the waits |
| DecisionProofs.AcksLand | src/trader/order_handler/order_handler.cpp:332-371 | after answers in any order, each any number of times and on either channel, exactly the orders heard of are no longer awaited, exactly the cancelled ones among them are gone with their numbers, and the indexes are consistent |
| DecisionProofs.SendLeaves | src/trader/order_handler/order_handler.cpp:898-909 | after a decision is sent, what is awaited is exactly its cancels and its places |
| DecisionProofs.DecisionIsFixedPoint | src/trader/order_handler/order_handler.cpp:770-910 | with the market as it was, once every request of a decision has been answered at least once, on either channel and in any order, the next decision sends nothing, provided no order was skipped for its size or price |
| DecisionProofs.OrderCountBounded | src/trader/order_handler/order_handler.cpp:898-909 | a decision made with nothing awaited leaves at most order_num orders of a side working |
| SentOrders.SnapToIs | src/trader/order_handler/order_handler.cpp:171-188 | what is sent is the multiple of a known grid nearest to what was asked, a half going away from zero, and exactly what was asked without a grid |
| SentOrders.PlaceSays | src/trader/order_handler/order_handler.cpp:945-1017 | placing sends one request, a limit order at the snapped price or a market order at none, for the snapped size, or nothing if either snaps to nothing; it records a limit order as asked for, under a fresh cid, and waits for it |
| SentOrders.CancelSays | src/trader/order_handler/order_handler.cpp:923-942 | cancelling sends one request for the order's number and waits for it; without a number it does nothing |
| SentOrders.DecisionCarries | src/trader/order_handler/order_handler.cpp:898-910 | every order a decision sends is a limit order for a quote the strategy wants on that side, at its price on the product's tick and its size on the product's lot |
| SentOrders.SendCarries | src/trader/order_handler/order_handler.cpp:898-910 | and every quote to be placed that snaps to something is sent |
| SentOrders.CancelsGoFirst | src/trader/order_handler/order_handler.cpp:898-910 | a decision's cancels go out before its new orders |
| SentOrders.SentOrdersArePassive | src/trader/order_handler/order_handler.cpp:945-1003 | on an uncrossed book on the product grid every bid sent is below the best ask and every ask sent above the best bid |
| SentOrders.SentOrdersDoNotCross | src/trader/order_handler/order_handler.cpp:945-1003 | no bid a decision sends is above an ask it sends, under the conditions the quotes need |
| MarketView.DecidesOnLatest | src/trader/order_handler/order_handler.cpp:709-854 | after any run of queue items a decision tick does nothing without the product, the link or the grid, nor while replies are awaited and not five seconds overdue; otherwise it is the strategy's decision on the latest book and tick, at the latest factor times mid with its volatility while that price has a factor and is no older than the maximum age, and at mid with volatility one in every other case |
| MarketView.LatestFeeds | src/trader/order_handler/order_handler.cpp:689-706 | after any run book, grid, fair price and link status are those of the latest messages, or as constructed |
| MarketView.ShownIsFromFeed | src/trader/order_handler/order_handler.cpp:709-745 | after any run, a book on the product grid and a latest factor that is not negative give a view of the market the strategy's theorems speak of |
| MarketView.PositionMoves | src/trader/order_handler/order_handler.cpp:373-396 | one queue item changes a product's position only by a position report, which sets it, or by a counted fill of one of its orders or of an unknown order that came with the product, by exactly its lots |
| VenueInvariant.InitialInv | src/trader/order_handler/order_handler.cpp:92-94 | a constructed handler with nothing in flight satisfies the invariant |
| VenueTheorems.FreshIsInitial | src/trader/order_handler/order_handler.cpp:92-94 | a constructed handler is where runs start, whatever client ids other orders carry, exactly when no product has an empty name |
| VenueTheorems.StepKeepsInv | src/trader/order_handler/order_handler.cpp:290-609 | every step of handler, gateway, feed, links and venue keeps the invariant |
| VenueTheorems.NoLiveOrderLost | src/trader/order_handler/order_handler.cpp:290-429 | after every run, reconnects with their open-orders reports included, each order of this session that rests at the venue is outstanding, under its own cid or the one it was adopted as, or its acceptance is still in the feed |
| VenueTheorems.NothingOutstandingNothingRests | src/trader/order_handler/order_handler.cpp:1063-1068 | after every run in whose last state nothing is outstanding, no order of this session rests at the venue but one whose acceptance is still in the feed |
| VenueTheorems.IndexesAgree | src/trader/order_handler/order_handler.cpp:326-331 | after every run the order indexes are consistent and every cid leads to a known product |
| VenueTheorems.WaitingDiscipline | src/trader/order_handler/order_handler.cpp:810-920 | after every run a wait is timed exactly while there is one, everything awaited can be routed, and until a wait is given up on every outstanding order has its number or awaits it |
| VenueTheorems.SettledWhenIdle | src/trader/order_handler/order_handler.cpp:810-854 | until a wait is given up on, a product with nothing awaited has a number for every outstanding order |
| VenueTheorems.NoCancelDropped | src/trader/order_handler/order_handler.cpp:901-930 | in such a state every cancel a decision makes goes out, for the number its order is bound to |
| VenueTheorems.ReadyOnceObserved | src/trader/order_handler/order_handler.cpp:770-809 | from the constructed handler a product is ready to decide as soon as the listener is connected and its market, with its tick, has been seen |
| VenueTheorems.FillForgetsIff | src/trader/order_handler/order_handler.cpp:373-393 | a fill makes the handler forget a resting order exactly when nothing of it remains at the venue or in the feed and no more was recorded than sent |
| VenueTheorems.DecisionIsARun | src/trader/order_handler/order_handler.cpp:770-910 | a decision is a run of the handler's own steps, so all of the above holds after it, once the place replies of the orders it cancels have been consumed |
| VenueTheorems.PlaceReplyKeepsOrderIff | src/trader/order_handler/order_handler.cpp:567-604 | a successful place reply keeps its order exactly when no cancel for it is awaited |
| VenueTheorems.EarlyCancelLosesOrder | src/trader/order_handler/order_handler.cpp:563-590 | a run in which a cancel overtakes the place reply, and a live order ends up unknown to the handler |
| VenueTheorems.CancelReportKeepsWaitsRoutableIff | src/trader/order_handler/order_handler.cpp:348-355 | a reported cancellation leaves only routable cids awaited exactly when the place reply was not awaited any more |
| HandlerPlaces.PlaceKeepsInv | src/trader/order_handler/order_handler.cpp:945-1017 | placing an order keeps the invariant |
| HandlerSteps.CancelKeepsInv | src/trader/order_handler/order_handler.cpp:923-942 | sending a cancel keeps the invariant once the place reply has been consumed |
| HandlerSteps.TimeoutKeepsInv | src/trader/order_handler/order_handler.cpp:843-845 | giving up on a product's waits keeps the invariant |
| HandlerSteps.LinkKeepsInv | src/trader/order_handler/order_handler.cpp:230-241 | the links coming and going keep the invariant |
| VenueSteps.ReportKeepsInv | src/market_listener/exchange/binance/binance_listener.cpp:415-417 | another open-orders report of a live order, at any time, keeps the invariant |
| FeedDelivery.DeliverAccepted | src/trader/order_handler/order_handler.cpp:357-371 | an acceptance binds the order, or adopts it when its cid was forgotten |
| FeedDelivery.DeliverReported | src/trader/order_handler/order_handler.cpp:357-371 | an open-orders report of an order already accepted, live or gone by then, keeps the invariant, its cid known or forgotten |
| FeedDelivery.DeliverFill | src/trader/order_handler/order_handler.cpp:373-393 | a fill reduces or drops the one outstanding order that stands for the filled one |
| FeedDelivery.FilledUpMeansDead | src/trader/order_handler/order_handler.cpp:373-393 | when a fill uses up what is recorded, the order need not be tracked any more |
| FeedDelivery.DeliverEnd | src/trader/order_handler/order_handler.cpp:338-355 | a reported cancellation or rejection drops only an order that is not live |
| Deliveries.DeliverForeign | src/trader/order_handler/order_handler.cpp:290-406 | messages about other sessions' orders, adopted ones and numeric client ids included, keep the invariant |
| Deliveries.DeliverPlaceReplyKeepsInv | src/trader/order_handler/order_handler.cpp:543-609 | a place reply, whatever it reports and whenever it comes, keeps the invariant |
| Deliveries.DeliverCancelReplyKeepsInv | src/trader/order_handler/order_handler.cpp:574-589 | a cancel reply keeps the invariant, delivered once or more often |
| TraderOrderHandler.OrderHandler.constructor | src/trader/order_handler/order_handler.cpp:92-94 | one state per traded product, nothing outstanding |
| TraderOrderHandler.OrderHandler.ReserveCid | src/trader/order_handler/order_handler.cpp:409-417 | updates the fields as the model's reservation does |
| TraderOrderHandler.OrderHandler.ForgetOrder | src/trader/order_handler/order_handler.cpp:420-429 | updates the fields as the model's forgetting does |
| TraderOrderHandler.OrderHandler.OnExecution | src/trader/order_handler/order_handler.cpp:290-406 | updates the fields as the model's execution does |
| TraderOrderHandler.OrderHandler.OnOrderResponse | src/trader/order_handler/order_handler.cpp:543-609 | updates the fields as the model's reply does |
| TraderOrderHandler.OrderHandler.SubmitCancel | src/trader/order_handler/order_handler.cpp:923-942 | updates the fields and sends what the model's cancel does |
| TraderOrderHandler.OrderHandler.SubmitPlace | src/trader/order_handler/order_handler.cpp:945-1017 | updates the fields and sends what the model's place does |
| TraderOrderHandler.OrderHandler.UpdateOrders | src/trader/order_handler/order_handler.cpp:770-910 | updates the fields and sends what the model's decision does |
| TraderOrderHandler.OrderHandler.HandleTask | src/trader/order_handler/order_handler.cpp:1020-1031 | updates the fields and sends what the model's handling of the queue item does |
| TraderOrderHandler.OrderHandler.React | src/trader/order_handler/order_handler.cpp:1056-1058 | an item a wait delivered is handled at once, as the model says, and logged |
| TraderOrderHandler.OrderHandler.PumpUntil | src/trader/order_handler/order_handler.cpp:1047-1060 | returns as soon as the goal is reached, or when the deadline has passed, no later than it but for handling time, and having waited if the goal was not reached at the start; every item taken off the queue is handled, once and in order, and nothing else happens |
| TraderOrderHandler.OrderHandler.CancelRound | src/trader/order_handler/order_handler.cpp:1122-1137 | sends exactly one cancel for each cancellable order, changes nothing else, and leaves nothing cancellable |
| TraderOrderHandler.OrderHandler.CancelAndWait | src/trader/order_handler/order_handler.cpp:1122-1148 | one round: a cancel for everything that can be cancelled, then items until nothing is outstanding, more can be cancelled, or a fifth of a second has passed |
| TraderOrderHandler.OrderHandler.CancelAllOrders | src/trader/order_handler/order_handler.cpp:1116-1165 | ends with nothing outstanding or with the deadline passed, no later than the deadline but for handling time; its log is rounds of cancels for everything that can be cancelled and the items handled in between, by which the handler becomes what it is; no order is sent a cancel while its earlier one has not been answered by a reply, by a report that it is over, or by a fill that uses it up |
| ShutdownLog.FirstCancels | src/trader/order_handler/order_handler.cpp:1116-1137 | a cancel phase with time cancels whatever can be cancelled at once |
| ShutdownLog.RoundExits | src/trader/order_handler/order_handler.cpp:1195-1203 | in a round of liquidation quotes every traded product that can decide and holds a position gets a limit order out of all of it, one tick inside the opposite touch, unless an order already rests at that price |
| ShutdownLog.FirstRound | src/trader/order_handler/order_handler.cpp:1195-1203 | a flattening with a position and time begins with such a round at once |
| ShutdownLog.MarketOrderCloses | src/trader/order_handler/order_handler.cpp:1168-1177 | a market order is against the position, for all of it on the product's lot, and there is none without a position |
| TraderOrderHandler.OrderHandler.SubmitMarketFlatten | src/trader/order_handler/order_handler.cpp:1168-1177 | with a position, exactly the market order against it and for all of it is sent, and nothing without one |
| TraderOrderHandler.OrderHandler.LiquidateAll | src/trader/order_handler/order_handler.cpp:1196-1198 | one liquidation decision for each traded product, in turn, and nothing else |
| TraderOrderHandler.OrderHandler.MarketFlattenAll | src/trader/order_handler/order_handler.cpp:1224-1226 | exactly one market order for each position, against it and for all of it, and no other order |
| TraderOrderHandler.OrderHandler.CrossAndWait | src/trader/order_handler/order_handler.cpp:1224-1230 | the market orders, and then queue items only, until the positions are flat or the flatten timeout has passed |
| TraderOrderHandler.OrderHandler.FlattenPositions | src/trader/order_handler/order_handler.cpp:1180-1238 | nothing when flat; otherwise rounds of liquidation quotes, an update interval apart, until flat or the deadline; then, with a position left and market orders allowed, a cancel phase, exactly one market order for each position, and a wait until flat or for the flatten timeout; within its deadline, one cancel timeout and one flatten timeout, but for handling time |
| TraderOrderHandler.OrderHandler.PullRemaining | src/trader/order_handler/order_handler.cpp:1266-1274 | a last cancel phase with a whole cancel timeout of its own, exactly when something is outstanding; without one nothing changes |
| TraderOrderHandler.OrderHandler.Shutdown | src/trader/order_handler/order_handler.cpp:1241-1278 | a cancel phase, the whole flattening where it is configured, and a last cancel phase exactly when something is outstanding then; within three cancel and two flatten timeouts but for handling time; sends no order that does not reduce the position held; handles every item it takes off the queue; returns with nothing outstanding, or with the last phase, a whole cancel timeout long, over and no order sent since it began; does nothing the second time |
| TraderOrderHandler.SilentVenueLeavesOrder | src/trader/order_handler/order_handler.cpp:1116-1165 | with a venue that never answers, the shutdown ends and the order is still outstanding, with flattening or without |
| ShutdownModel.HandledInShutdown | src/trader/order_handler/order_handler.cpp:770-774 | once shutting down, handling any queue item sends nothing, and only the orders it is about stop being awaited |
| ShutdownModel.LiquidationReduces | src/trader/order_handler/order_handler.cpp:1196-1203 | every order a liquidation decision sends is against the position held and for all of it |
| ShutdownModel.RoundMakesProgress | src/trader/order_handler/order_handler.cpp:1071-1079 | after a round nothing is cancellable, so the pump that follows really waits |
| ShutdownModel.UpdateStands | src/trader/order_handler/order_handler.cpp:770-910 | a decision changes no position and no link |
| DepthBook.DiffKeepsAgreement | src/market_listener/exchange/binance/order_book.cpp:45-68 | a synced book that equals the venue's at its update id still does after any diff of the stream |
| DepthBook.SnapshotAgrees | src/market_listener/exchange/binance/order_book.cpp:27-42 | a snapshot makes the book equal to the venue's at the snapshot's update id |
| DepthBook.DiffOutcomeIff | src/market_listener/exchange/binance/order_book.cpp:50-67 | exactly when a diff is applied, moving the book strictly forward, and exactly when it breaks the sync |
| DepthBook.StreamKeepsSyncIff | src/market_listener/exchange/binance/order_book.cpp:45-68 | over an unbroken stream of diffs of any length the book stays in sync exactly when the stream starts at or before its update id, no diff ends there and none jumps over it; it then is the venue's book at the end of the stream |
| DepthBook.DiffEndingAtSnapshotDesyncs | src/market_listener/exchange/binance/order_book.cpp:55-62 | a snapshot and a diff that ends at its id, which breaks the sync |
| DepthBook.HistoryExtends | src/market_listener/exchange/binance/order_book.cpp:45-68 | what the venue does later does not disturb the agreement |
| DepthBook.TopIsTop | src/market_listener/exchange/binance/order_book.cpp:71-84 | the published levels are the best ones, best first, with none better left out |
| BinanceOrderBook.OrderBook.ApplySide | src/market_listener/exchange/binance/order_book.cpp:5-24 | the loop applies each level in turn, a quantity of zero or less removing it |
| BinanceOrderBook.OrderBook.ApplySnapshot | src/market_listener/exchange/binance/order_book.cpp:27-42 | replaces both sides, the update id and the sync flag |
| BinanceOrderBook.OrderBook.ApplyDiff | src/market_listener/exchange/binance/order_book.cpp:45-68 | drops, applies or desyncs as the model says, and returns which |
| BinanceOrderBook.OrderBook.ToData | src/market_listener/exchange/binance/order_book.cpp:71-84 | both sides' first levels in iteration order |
| BinanceOrderBook.DepthListener.ResyncOrderBook | src/market_listener/exchange/binance/binance_listener.cpp:421-435 | with a snapshot the book is synced at its id and published; without one it is out of sync and nothing is published |
| BinanceOrderBook.DepthListener.OnDepthUpdate | src/market_listener/exchange/binance/binance_listener.cpp:460-484 | every published book is the top of the venue's book for its product after some update; other products' books are untouched |
| Framing.LineReader.OnRead | src/connection_handlers/tcp/tcp_server.cpp:65-89 | the read loop handles exactly the complete non-empty lines and keeps the rest |
| Framing.EmptyLinesSkipped | src/connection_handlers/tcp/tcp_server.cpp:75-83 | empty lines are never handled, and where there is none every line is |
| Framing.ChunkingDoesNotMatter | src/connection_handlers/tcp/tcp_client_base.cpp:172-179 | however the bytes are cut into chunks, the same lines are handled |
| Framing.FramedSplits | src/connection_handlers/tcp/tcp_server.cpp:97-102 | framed newline-free messages split back into exactly those messages |
| Framing.PrefixHandled | src/connection_handlers/tcp/tcp_client_base.cpp:172-179 | from any part of the bytes the lines handled are the first messages, from all of them all messages |
| SessionWriter.StrandedKept | src/connection_handlers/tcp/tcp_server.cpp:35-54 | a queued message always has a write, a dequeue, a posted handler or a sender about to post coming for it |
| SessionWriter.FlagKept | src/connection_handlers/tcp/tcp_server.cpp:92-129 | the writing flag is set exactly while a write is in flight or do_write runs, so writes never overlap |
| SessionWriter.DeliveredInOrder | src/connection_handlers/tcp/tcp_server.cpp:35-129 | on every run the messages handled are the first dequeued ones, once each, and each sender's are dequeued in the order it sent them |
| SessionWriter.NothingLost | src/connection_handlers/tcp/tcp_server.cpp:35-129 | after the last send only boundedly many steps are left, and until every message sent has been handled exactly once, in each sender's order, there is one to take |
| SessionWriter.MeasureFalls | src/connection_handlers/tcp/tcp_server.cpp:92-129 | every step but a new send leaves less to do |
| SessionWriter.ComesToRest | src/connection_handlers/tcp/tcp_server.cpp:92-129 | from every state some run without new sends comes to rest |
| Subscriptions.AddKeepsConsistentIff | src/connection_handlers/tcp/tcp_server.cpp:322-325 | adding a session keeps the two maps inverse exactly when the session holds no product |
| Subscriptions.ApplyConsistent | src/connection_handlers/tcp/tcp_server.cpp:319-383 | every other command keeps them inverse, with no empty product entry |
| Subscriptions.TablesRefineRelation | src/connection_handlers/tcp/tcp_server.cpp:310-397 | after any commands in which a session is added before it subscribes, the maps represent exactly the subscriptions in force |
| Subscriptions.BroadcastReachesSubscribers | src/connection_handlers/tcp/tcp_server.cpp:384-391 | the sessions a broadcast reaches are exactly the subscribed ones |
| Subscriptions.Worker.OnRemove | src/connection_handlers/tcp/tcp_server.cpp:326-341 | removing a session takes it off every product's list, dropping lists that become empty |
| Subscriptions.Worker.OnSubscribe | src/connection_handlers/tcp/tcp_server.cpp:346-366 | the subscriber is entered in both maps and sent the retained product info, if any |
| Subscriptions.Worker.OnBroadcast | src/connection_handlers/tcp/tcp_server.cpp:384-391 | each session on the product's list is sent the message once, and no other |
| Subscriptions.Worker.Handle | src/connection_handlers/tcp/tcp_server.cpp:310-397 | each command does to the tables and the retained infos what the model says; a subscriber is sent the retained info and announced, a broadcast reaches the listed sessions, and no other command sends anything |
| Subscriptions.Worker.Work | src/connection_handlers/tcp/tcp_server.cpp:310-397 | after any queue of commands the worker's tables are those of the commands, what it retains of a product is the latest info, and every subscription was announced, in order |
| TaskRunner.BacklogBounded | src/utils/task_runner.cpp:34-45 | under every interleaving the accepted unfinished tasks never exceed the configured number |
| TaskRunner.RunsInOrder | src/utils/task_runner.cpp:46-73 | each poster's tasks are started in the order it posted them, with none skipped, whatever the other posters do |
| TaskRunner.StartsInOrderIff | src/utils/task_runner.cpp:34-73 | tasks start in the order they were enqueued on every run exactly with one poster or room for one task |
| TaskRunner.LaterTaskStartsFirst | src/utils/task_runner.cpp:46-73 | with two posters and room for two tasks, a run in which of two tasks the one enqueued second starts first |
| TaskRunner.ExitsWhenAllDone | src/utils/task_runner.cpp:21-31 | the worker exits only when every accepted task has been started and none is in progress |
| Redial.OneRedialAlways | src/trader/order_gateway/binance/ws_order_gateway.cpp:57-113 | on every run, also when the first dial fails before its client is stored, the pending flag stands for exactly one redial, 1 to 30 seconds away once scheduled |
| Redial.StepKeepsClearedIff | src/trader/order_gateway/binance/ws_order_gateway.cpp:77-96 | a step leaves a client stored while a redial waits exactly when the constructor stores its own after the failure was acted on |
| Redial.ClearedAlways | src/trader/order_gateway/binance/ws_order_gateway.cpp:77-96 | on every run in which the constructor is not that late, no client is stored while a redial waits |
| Redial.FirstDialRace | src/trader/order_gateway/binance/ws_order_gateway.cpp:77-96 | a run in which the constructor is that late and stores the failed client beside the waiting redial |
| Redial.DelayValues | src/trader/order_gateway/binance/ws_order_gateway.cpp:98-104 | the delays double from one second and are capped at thirty |
| Redial.FailuresCounted | src/trader/order_gateway/binance/ws_order_gateway.cpp:65-70 | the failure counter is the number of redials since its last reset, and every successful open posts one reset |
| Redial.RedialWaits | src/trader/order_gateway/binance/ws_order_gateway.cpp:98-104 | the n-th redial in a row waits 1, 2, 4, 8, 16 and then 30 seconds, and the first one after a reset one second again |
| Redial.DialsIff | src/trader/order_gateway/binance/ws_order_gateway.cpp:105-112 | a redial is dialled exactly when its timer runs out uncancelled while the gateway runs |
| Redial.NoneAfterStop | src/trader/order_gateway/binance/ws_order_gateway.cpp:42-48 | once the gateway is told to stop, no redial is added and none dials |
| Factor.SmoothedStaysWithin | src/pricer/factor/base_factor.cpp:20-27 | smoothing any sequence stays within the bounds of what is smoothed |
| Factor.MicropriceWithinTouch | src/pricer/factor/microprice_factor.cpp:22-31 | the microprice lies between the touch prices |
| Factor.ImbalancePulls | src/pricer/factor/microprice_factor.cpp:22-34 | a longer bid queue pulls the factor up and a longer ask queue down, a balanced book leaves it at one, and the microprice lies between the touch prices |
| Factor.MicropriceFactor.Compute | src/pricer/factor/microprice_factor.cpp:16-34 | no factor without a two-sided book, a positive mid and a positive weight; otherwise the smoothed clamped ratio, within the cap |

## Left out

- Rounding errors, NaN and integer overflow: prices and sizes are integers and exact reals.
- Exchanges with a tick function (KIS): every product has a constant tick, or the min tick.
- A division by a zero limit or price in the strategy: its result is taken as zero.
- 32-bit sizes: they are unbounded, with INT32_MAX kept as the ask limit where short selling is allowed.
- A negative `order_interval_ticks`: the number of ticks between levels is not negative.
- Parsing a client order id: an execution carries the cid it parses to, if any.
- Products with an empty name: the trader is configured with none.
- Several clock readings within one operation, or one round of a shutdown: it reads the clock once.
- The order and decision records, all logging, and the handler's copy of account balances.
- The pricer link's status and subscriptions: they change no order state.
- The decision timer: its ticks are queue items like any other.
- That a tracked order is live: a size snapped down leaves a remainder after a full fill, a place that fails after its wait was given up on is not forgotten, and an old open-orders report can be adopted.
- That liquidation quotes are passive, or reduce-only at the venue: they are neither.
- That a cancel sent with its replacement cannot let both fill.
- DecisionProofs.DecisionIsFixedPoint: the answers considered are acceptances of the places, under numbers that are new, and completed cancels; fills would change the position.
- TraderOrderHandler.OrderHandler.CancelAllOrders: the unanswered cancels are those sent by this call.
- StrategyProofs.NeverCrossesIff: the buffer of the caps at the touch is not negative.
- The wait of a zero-length timed dequeue: it is taken to advance the clock by one nanosecond.
- Snapshots limited in depth: a snapshot is the venue's full book.
- Negative prices in the depth stream.
- Book tickers, trades and user-stream events of the Binance listener, and its three reconnect timers, which follow the redial machine's pattern.
- A TCP session whose link fails or closes: `SessionWriter` describes the time the link is up.
- The TCP client's single-threaded write queue and its reconnects.
- A concurrent queue that reports empty while another thread is inside an enqueue: an enqueue is one step.
- Posting to a task runner while it is destroyed.
- The websocket client's connect exception path, after which it still reports connecting.
- The fair-price modes of the pricer, and the power function of the microprice weights, which are parameters.
- Sockets, TLS, HTTP, signing, JSON, configuration and the command line.
