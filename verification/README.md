# Auramaur: a verified model of the bookkeeping

Auramaur is a trading bot. Under its network and language-model plumbing lies a
good deal of stateful bookkeeping: orders that rest, fill late and are cancelled;
a profit ledger rebuilt from fills; a budgeted order path; queue workers; a
backtest that must not look ahead. This project states what those parts promise,
as Dafny modules, and proves it over all inputs and all runs. Money is a `real`.
SQL tables are maps and sequences, a database transaction is one step, and what
other systems answer (venues, the clock, failing writes, a crash) is a parameter
or an arbitrary step.

The modules:

- `Lists`: options, filtering, and the stable sort behind `sorted`.
- `AverageCost`: the weighted-average cost walk every money component shares, with
  its conservation law. `KrakenReplay` is the same walk in its total-cost form.
- `Ledger`: keyed, never rewritten profit rows and the backfill that rebuilds them.
- `TradeFeed`, `ManualTrades`, `ManualTradeRuns`: reading the wallet's history page
  by page, booking the sells the bot did not place, and what every run of such
  sweeps keeps when each may be cut off before any of its commits.
- `OrderLifecycle`, `OrderRuns`, `OrderPrices`, `OrderMirrors`: placement, recording,
  deferred paper fills, live polls, cancels, adoption of open orders and restarts, as
  steps that interleave freely; one booking per order, the cost basis as the walk of the
  fills, which executions of a venue's order are booked and at what size and price, the
  paper portfolio as its projection (a read and a write of their own), one mirror row
  per order.
- `ExposureCap`: the per-side ceiling of the gateway, for single orders and batches.
- `VenueMirror`: one pass of the position sync.
- `DirectedOrders`: the gate chain and the two daily budgets.
- `Allocator`: greedy allocation in whole cents.
- `DeliveryBatcher`, `LineageQueue`: two asynchronous workers, a step being what
  runs between two awaits.
- `Consolidation`: merging two databases with renumbered ids.
- `InvariantSweep`: a counter-carrying tree visitor against the rule it stands for.
- `MomentumReplay`, `ReplayTrips`, `WalkForward`, `RankStudy`: backtesting without leaks,
  what each simulated trade is, and rank statistics.

Where the source mutates objects or loops, the model is a class or a method with a
loop, proved equal to a specification function; the lemmas are about that function.

Some properties that comments or docstrings of the source promise do not hold of its
code. The model follows the code. Each is stated with the input that breaks it and,
where it has one, its exact condition:

- the manual-trade cursor passes an unsettled trade exactly when two trades share a
  timestamp (`ManualTradeRuns.NoneSkippedIffDistinct`);
- a crash between the ledger row and the statistics loses that one accrual for good, and
  nothing else does, over any run (`ManualTradeRuns.OrphansExact`);
- `close` of the lineage observer waits for ever exactly when the events ahead of the
  sentinel do not fill whole batches of 64 (`LineageQueue.CloseReturnsIff`);
- a batch of legs can take a side to nearly twice the ceiling, exactly when its sum
  with what is held does (`ExposureCap.BatchEscapesCap`, `ExposureCap.BatchWithinCapIff`),
  and resting orders are not counted at all (`ExposureCap.RestingOrdersUnbounded`,
  `ExposureCap.RestingWithinCapIff`);
- a stale live row survives the mirror when some reported leg carries its token id
  (`VenueMirror.TokenShieldsRow`; exactly, `VenueMirror.MirrorExactIff`), and a zero-size
  leg makes the mirror drift (`VenueMirror.ZeroLegDrifts`, `VenueMirror.SyncIdempotentIff`);
- a security type that is not written exactly CASH escapes the treasury budget, under
  any caps that let money through (`DirectedOrders.BudgetsKeptIff`);
- a historical trade or mark that points just above the ids in use captures a new row
  (`Consolidation.DanglingTradeCaptured`; exactly, `Consolidation.TradesJoinKept` and
  `Consolidation.MarksJoinKept`);
- a fraction of a cent left in one category, or a tiny Kelly size, ends the allocation
  for all (`Allocator.CategoryDustEndsThePass`, `Allocator.TinyFirstEndsThePass`), exactly
  as `Allocator.EndsWithMoneyIff` says; which budgets allow it, `Allocator.HeadroomCanEndIff`;
- a poll that answers Filled before its placement is recorded doubles the mirror row
  (`OrderMirrors.EarlyPollDoublesTheRow`), and nothing else does
  (`OrderMirrors.OneRowIffNoneClosedEarly`);
- an acknowledged cancel that untracks an order, and a terminal answer other than
  Filled, drop what the order had filled (`OrderRuns.CancelDropsTheOrder`,
  `OrderRuns.CancelledAnswerDropsTheFill`); what does get booked, exactly:
  `OrderRuns.LiveBookedIff` and `OrderRuns.HandledBookedIff`;
- a cancel that reports success leaves a paper order in the queue, where it may still fill
  and be booked (`OrderRuns.CancelledPaperOrderFills`), since no later run depends on it
  (`OrderRuns.PaperCancelStopsNothing`); which cancels do stop an order,
  `OrderRuns.CancelStopsIff`;
- a pair may end with one leg, exactly as `OrderRuns.PairEnds` says;
- of two recordings of one book that overlap, the one that writes last may show the
  older reading (`OrderMirrors.OvertakenRun`); once its recordings are completed a paper
  row is exact exactly when the last step that wrote it wrote the book as it was at that
  moment (`OrderMirrors.PortfolioIsProjection`);
- a backtest sizes an entry from the close and pays the ask plus slippage, so its
  deployment exceeds the cap (`MomentumReplay.CostsExceedCap`), unless there are no costs
  or the spread leaves no bid (`MomentumReplay.DeploymentCapKeptIff`).

## Model

| member | source | states |
|---|---|---|
| AverageCost.WalkIsFlatOrOpen | auramaur/broker/ledger.py:289-299 | The walk's size is what was bought and not sold, each sell capped at the holding, and a flat position has no average |
| AverageCost.ApplyConserves | auramaur/broker/ledger.py:293-300 | One fill books exactly the cash it brings plus the change in the cost tied up |
| AverageCost.PnlConservation | auramaur/broker/ledger.py:289-312 | For any fill sequence, profit booked on sells equals capped proceeds minus fees minus purchases plus the cost of the residual |
| AverageCost.AccountConserves | auramaur/exchange/paper.py:59-88 | Settling a book turns the cost tied up in it into its payout: profit minus open cost is the cash it brought, before and after |
| AverageCost.SpendableIsCash | auramaur/exchange/paper.py:59-88 | Initial balance plus ledger profit, settlements included, minus open cost, over any open and settled books, is the cash that moved, payouts included: resolution heals the wallet |
| AverageCost.AverageWithinPrices | auramaur/broker/ledger.py:293-296 | The average cost never leaves the range of the prices paid |
| KrakenReplay.BookAgrees | auramaur/broker/pnl.py:112-142 | The (size, total cost) form makes the same move and books the same profit as the (size, average) form |
| KrakenReplay.Replay | scripts/unstick_kraken_spec.py:88-109 | The loop over size, average, total cost and realized profit equals the shared walk, its booked profit, and cash flow plus cost |
| KrakenReplay.OldestFirst | scripts/unstick_kraken_spec.py:88-93 | What is replayed is the history in order of time, the oldest trade first |
| KrakenReplay.ReplayIgnoresPageOrder | scripts/unstick_kraken_spec.py:65-109 | The order in which history pages arrive does not change position or profit when times are distinct |
| Lists.SortIsAscendingPermutation | scripts/unstick_kraken_spec.py:88-93 | The sort used throughout returns an ascending permutation |
| Lists.SortStable | auramaur/broker/allocator.py:91-91 | Elements of equal key keep their order, as the language's sort promises |
| Ledger.SettlementsAttributed | auramaur/broker/ledger.py:103-116 | In every rebuild a settlement stands under the entering strategy exactly when there is one and twice its buying plus five covers the settled size, under the phantom when that falls short, and under the venue when nobody entered |
| Ledger.RecordAllGrows | auramaur/broker/ledger.py:191-243 | Booked rows are never rewritten or lost |
| Ledger.RecordAllResumes | auramaur/broker/ledger.py:261-264 | A backfill cut off after any number of writes and run again ends where one run ends; run twice it changes nothing |
| Ledger.RecordAllBooks | auramaur/broker/ledger.py:250-338 | With distinct references every row not yet booked is booked as computed |
| Ledger.RebuildRefsDistinct | auramaur/broker/ledger.py:300-333 | Every row a rebuild makes has its own reference |
| Ledger.PnlLedger.BookSells | auramaur/broker/ledger.py:281-312 | The interleaved dictionary walk holds, for every key met, the walk of that key's own fills, and books the sells of independent walks |
| Ledger.PnlLedger.Backfill | auramaur/broker/ledger.py:250-338 | The rows after a backfill are those of one independent walk per market, mode and token, sells first, then settlements |
| Ledger.ForwardIsBackfill | auramaur/broker/ledger.py:250-312 | Recording fills one at a time over carried cost bases writes the sell rows that a backfill of those fills writes |
| Ledger.BackfillAddsNoSell | auramaur/broker/ledger.py:261-264 | A backfill run at any moment beside the forward writes, reading in any order, adds no sell |
| Ledger.SameOrderSameRows | auramaur/broker/ledger.py:276-312 | Where the fills of a position were recorded in the order the backfill reads them, both compute the same rows |
| Ledger.SellRowsCarryPnl | auramaur/broker/ledger.py:297-312 | The sell rows of a key sum to that key's realized profit whatever other fills stand between them |
| Ledger.SettleRowsCarryPnl | auramaur/broker/ledger.py:314-335 | A key is settled at most once, exactly when its market resolved and its residual exceeds the dust limit |
| Ledger.SettlementsPay | auramaur/broker/ledger.py:314-335 | A settlement row books its size minus its cost for YES of a market resolved 1 and NO of one resolved 0, and minus its cost for anything else, at the time of the resolution |
| Ledger.PairsPayOneDollar | auramaur/broker/ledger.py:314-335 | So equal holdings of both sides of a market that resolved settle together for one dollar a pair minus both costs |
| Ledger.SellRowsExact | auramaur/broker/ledger.py:284-312 | Each sell row is one sell of the history, under its id and side, at no more than is held, for its proceeds minus average cost and fee |
| Ledger.LedgerConserves | auramaur/broker/ledger.py:285-335 | Sells plus settlement book cash flow plus one dollar for each token left of the side that won; where no outcome is known, or only dust is left, what stays unbooked is the residual's cost |
| TradeFeed.FetchTradesSince | auramaur/broker/manual_trades.py:122-196 | The paging loop and its three ways to fail equal the page-by-page specification, for any venue answers |
| TradeFeed.FetchGrowing | auramaur/broker/manual_trades.py:122-196 | Over a history that grows while its pages are read, the fetch returns exactly the newer trades of some moment between its first page and its last, oldest first, perhaps repeated; it raises only out of reach or for a trade without identity |
| TradeFeed.FetchExact | auramaur/broker/manual_trades.py:122-196 | Over a newest-first feed the fetch returns exactly the trades newer than the cursor, oldest first, or raises; it raises exactly when the cursor is out of pagination reach or a newer trade lacks its identity |
| ManualTrades.IsBotTrade | auramaur/broker/manual_trades.py:212-230 | True exactly when same-side fills of the book within ten minutes sum to a positive size covering the trade within two per cent |
| ManualTrades.BookedViaFillRef | auramaur/broker/manual_trades.py:233-252 | True exactly when some fill-booked sell row matches in size, and in time where it has one |
| ManualTrades.BasisFor | auramaur/broker/manual_trades.py:255-292 | The live row when there is one, else the third written walk, which is the shared average-cost walk; nothing when size or average is not positive |
| ManualTrades.BookingIsRealized | auramaur/broker/manual_trades.py:318-345 | A manual sell books what the ledger's rule realizes for a fee-free sell, on no more than is held |
| ManualTrades.BotSellNeverBooked | auramaur/broker/manual_trades.py:451-455 | A bot sell in the window that covers the trade rules out a second booking |
| ManualTrades.DecisionExact | auramaur/broker/manual_trades.py:422-469 | A trade is booked exactly when it is a sell in a tracked market that the bot's sells within ten minutes do not cover up to two per cent, no fill-booked row stands for, and whose position has a cost basis; and what is then booked |
| ManualTrades.Sweeper.BookManualSell | auramaur/broker/manual_trades.py:307-382 | Ledger row first, statistics and cursor in a second commit, either of which may be the last before a crash |
| ManualTrades.Sweeper.SweepManualTrades | auramaur/broker/manual_trades.py:385-474 | A sweep starts the clock on its first run, leaves everything alone on a failed fetch, handles trades in order, and advances the cursor past the batch last |
| ManualTrades.CrashStops | auramaur/broker/manual_trades.py:422-469 | Nothing after the point where a sweep is cut off takes effect |
| ManualTradeRuns.SweepSafe | auramaur/broker/manual_trades.py:295-382 | Any sweep against any venue answers, cut off anywhere: one row and at most one accrual per transaction, daily totals equal to the accruals, rows never rewritten, the cursor never moved back |
| ManualTradeRuns.RunConsistent | auramaur/broker/manual_trades.py:385-474 | The same over every sequence of sweeps |
| ManualTradeRuns.RunCounts | auramaur/broker/manual_trades.py:346-375 | Over every run a day's statistics are the sum of the profits accrued that day, their number, and the numbers of gains and of losses among them |
| ManualTradeRuns.OnlyInterruptedRowsLost | auramaur/broker/manual_trades.py:336-375 | A row misses its statistics exactly when the sweep was cut off right after writing it |
| ManualTradeRuns.OrphansExact | auramaur/broker/manual_trades.py:336-375 | Over every run of sweeps, a ledger row is without statistics exactly when some sweep was cut off right after writing it |
| ManualTradeRuns.OrphansStay | auramaur/broker/manual_trades.py:336-375 | And no later sweep makes up for it |
| ManualTradeRuns.CrashThenRerun | auramaur/broker/manual_trades.py:385-474 | Cut off at any commit and rerun, a batch with distinct timestamps ends with the ledger and cursor of an uninterrupted sweep |
| ManualTradeRuns.CutsThenRerun | auramaur/broker/manual_trades.py:385-474 | So it does however many sweeps of the batch are cut off, and wherever |
| ManualTradeRuns.RepeatsHarmless | auramaur/broker/manual_trades.py:307-345 | A sweep over a batch with repeated trades leaves what it leaves over the batch without the repeats |
| ManualTradeRuns.GrowingIsSnapshot | auramaur/broker/manual_trades.py:385-474 | So a sweep over a history that grows between its pages is the sweep over the history of one moment between the first and the last |
| ManualTradeRuns.RunSkipsNone | auramaur/broker/manual_trades.py:462-469 | With distinct timestamps the cursor never passes a trade that was not settled, over every run, whatever arrives between two pages |
| ManualTradeRuns.TieIsSkipped | auramaur/broker/manual_trades.py:172-175 | A run that loses the second of two trades with one timestamp |
| ManualTradeRuns.NoneSkippedIffDistinct | auramaur/broker/manual_trades.py:422-469 | No run, over histories that grow between and during sweeps, skips a trade exactly when no two trades share a timestamp |
| OrderLifecycle.Desk.RecordFillOnce | auramaur/broker/pnl.py:78-227 | The fill transaction appends one fills row, moves its cost basis by the shared average-cost rule, adds to its realized profit, and hands on the sale for the ledger |
| OrderLifecycle.Desk.RecordResult | auramaur/broker/execution_gateway.py:1061-1143 | An uninterrupted recording is the check, commit and projection steps in that order, then the mirror row; an agreeing replay is projected again, a conflicting one is contained |
| OrderLifecycle.Desk.CheckFills | auramaur/exchange/paper.py:193-253 | The queue is split in order into orders traded strictly through and paid for, at their own size and price, and the rest |
| OrderLifecycle.Desk.PollOrder | auramaur/bot_order_monitor.py:170-264 | A terminal answer books a fill only when it executed, closes the mirror row and forgets the order; any other answer changes nothing |
| OrderLifecycle.Desk.CloseTrade | auramaur/bot_order_monitor.py:203-252 | Every row of the order is rewritten, and one is inserted only when there was none and the order traded |
| OrderLifecycle.Desk.SubmitPaired | auramaur/broker/execution_gateway.py:586-681 | The second leg is placed only after the first was accepted, and a resting first leg is cancelled when the second was not |
| OrderRuns.GatewayCommitKeepsTokens | auramaur/broker/execution_gateway.py:1067-1091 | Committing a placement's fill, after a check made in an earlier step, keeps every order booked at most once |
| OrderRuns.JobCommitKeepsTokens | auramaur/bot_order_monitor.py:171-198 | Committing a polled or deferred fill does too, whatever the gateway has in flight |
| OrderRuns.FillsBookedOnce | auramaur/broker/pnl.py:39-76 | Under every interleaving an order id is booked at most once, at a positive size the venue reported for it; each cost basis is the walk of its fills, and each realized column the profit that walk books |
| OrderPrices.FillsAsAnswered | auramaur/broker/execution_gateway.py:1055-1091 | Over every run each fills row is one answer a venue gave to an order placed or adopted under its id: the order's book and side, the size answered, and the price answered, or the limit where none was named; or a paper order at its own size and limit whose market traded strictly better |
| OrderPrices.TradesAsAnswered | auramaur/bot_order_monitor.py:186-252 | So it is with every row of the trades mirror, which shows the ordered size where nothing was filled |
| OrderPrices.CheckExact | auramaur/exchange/paper.py:193-253 | A check fills exactly the orders of the paper queue whose market trades strictly better than their limit, that are paid for and for something, and keeps every other |
| OrderPrices.PlacementExact | auramaur/broker/execution_gateway.py:1061-1143 | From any reachable state an uninterrupted placement is booked exactly when it executed for something and its write went through, mirrored exactly when it executed or rests, and tracked exactly when it rests |
| OrderPrices.ReplayOwes | auramaur/broker/pnl.py:47-76 | A recording that finds its order booked owes the paper row again exactly when it is of the same book and less than a billionth apart in size and price |
| OrderPrices.CancelStamps | auramaur/broker/execution_gateway.py:736-790 | A gateway cancel stamps the pending rows of its order, once acknowledged or for a paper order, and no other |
| OrderPrices.SweepStamps | auramaur/bot_order_monitor.py:367-470 | The orphan sweep stamps only rows of untracked, non-paper orders, with a final status; an error only pending ones |
| OrderRuns.UntrackedNeverBooked | auramaur/bot_order_monitor.py:265-317 | An order that has left every queue is never booked again unless it is found open and adopted |
| OrderRuns.LiveBookedIff | auramaur/bot_order_monitor.py:164-252 | Whatever run left an order pending at a venue, over every later run it is booked exactly when a poll answered Filled at a positive size and the write that followed went through |
| OrderRuns.HandledBookedIff | auramaur/bot_order_monitor.py:164-292 | An order handled to its end by a poll, the monitor's cancel or the gateway's is booked, then and ever after, exactly when it ended with such an answer and write |
| OrderRuns.CancelDropsTheOrder | auramaur/exchange/client.py:741-772 | What a live order had filled before an acknowledged cancel that untracks it is never booked |
| OrderRuns.CancelledAnswerDropsTheFill | auramaur/exchange/client.py:722-736 | Nor is a size reported beside a cancelled or expired answer, which ends the tracking too |
| OrderRuns.CancelStopsIff | auramaur/broker/execution_gateway.py:100-109 | A cancel that reports success leaves the order unable to fill exactly when it already was, or when a venue's adapter forgot it and it is in no paper queue |
| OrderRuns.PaperCancelStopsNothing | auramaur/broker/execution_gateway.py:747-751 | Cancelling a paper order changes its mirror row and nothing else, now or in any later run |
| OrderRuns.CancelledPaperOrderFills | auramaur/broker/execution_gateway.py:747-751 | A run in which a cancelled paper order trades through and is booked while its mirror row says cancelled |
| OrderRuns.PairEnds | auramaur/broker/execution_gateway.py:640-681 | Exactly which legs of a pair are left standing, as a fill or an order that may still fill |
| OrderRuns.PairedBothOrNothing | auramaur/broker/execution_gateway.py:616-681 | A blocked or refused pair leaves no trace; a live pending first leg whose second was refused is, once its cancel is acknowledged and it is untracked, pending nowhere and never booked |
| OrderMirrors.WriteShowsReading | auramaur/broker/execution_gateway.py:216-255 | One projection makes its row show the reading it was given and touches no other |
| OrderMirrors.RunKeepsProjected | auramaur/broker/execution_gateway.py:216-255 | Over every run, whatever fails or is cut off, each paper row is what the reading written last for it asks for |
| OrderMirrors.PortfolioIsProjection | auramaur/bot_order_monitor.py:61-77 | After any run in which the recordings of a key were completed, its paper row exists exactly for an in-scope market with positive cost-basis size, with that size and average, if and only if the last step that wrote the row wrote the book of that moment |
| OrderMirrors.OvertakenRun | auramaur/broker/execution_gateway.py:218-255 | The run in which one recording overtakes another there, after which nothing is owed and the row shows the older book |
| OrderMirrors.OneRowIffNoneClosedEarly | auramaur/bot_order_monitor.py:203-252 | Over every run the trades mirror has two rows of one order exactly when the monitor closed it as filled while its placement was in flight and unmirrored, and the gateway recorded that placement later |
| OrderMirrors.OneRowPerOrder | auramaur/broker/execution_gateway.py:1110-1138 | So there is one mirror row per order over every run in which no poll closes a filled order before its placement is recorded |
| OrderMirrors.EarlyPollDoublesTheRow | auramaur/bot_order_monitor.py:217-252 | The run in which that poll comes first, and its two rows |
| ExposureCap.Gateway.PlaceLegs | auramaur/broker/execution_gateway.py:923-983 | All legs are placed and filled, or none, exactly by the two checks of each buy leg |
| ExposureCap.Gateway.CheckLegs | auramaur/broker/execution_gateway.py:947-964 | The reservations dictionary holds, per side, what the earlier buy legs propose |
| ExposureCap.CapIsInductive | auramaur/broker/execution_gateway.py:340-404 | Over any run of submitted orders that fill at once within size and price, some of whose exposure reads may fail, capital held on a side stays within its cap |
| ExposureCap.BatchBound | auramaur/broker/execution_gateway.py:943-964 | One accepted batch stays within twice the ceiling, and within the ceiling when it adds at most one leg to the side |
| ExposureCap.TwiceTheCap | auramaur/broker/execution_gateway.py:923-983 | Over any run of orders and batches, holdings stay within twice the ceiling |
| ExposureCap.BatchWithinCapIff | auramaur/broker/execution_gateway.py:943-964 | A batch filled as ordered holds exactly what was held plus all it adds, so it keeps the ceiling exactly when that sum does |
| ExposureCap.BatchEscapesCap | auramaur/broker/execution_gateway.py:948-964 | Five legs of five dollars on twenty held pass every check of a ceiling of twenty-five |
| ExposureCap.RestingWithinCapIff | auramaur/broker/execution_gateway.py:362-404 | Resting buys that each passed the check and fill as ordered keep the ceiling exactly when what was held and everything resting fit under it together |
| ExposureCap.RestingOrdersUnbounded | auramaur/broker/execution_gateway.py:362-404 | Under any ceiling, resting buys that each pass the check put any amount on one side |
| ExposureCap.RestingOrdersEscapeCap | auramaur/broker/execution_gateway.py:362-404 | Two resting orders that each passed hold forty under twenty-five once they fill |
| VenueMirror.Mirror.SyncPositions | auramaur/bot.py:1510-1597 | A failed fetch changes nothing; else unsettled legs are upserted in order and stale rows of both tables deleted |
| VenueMirror.LegsMirrored | auramaur/bot.py:1533-1573 | Every reported leg has a row of the venue's size and token and a total of size times average, the bot's own average kept when size, average and token allow |
| VenueMirror.SettledLeftOut | auramaur/bot.py:1510-1526 | Of the reconciled legs exactly those not settled on their side are mirrored |
| VenueMirror.OthersSwept | auramaur/bot.py:1574-1591 | Exactly which other rows survive, and that they are unchanged |
| VenueMirror.MirrorExactIff | auramaur/bot.py:1574-1591 | Every positive live Polymarket row is a reported leg exactly when no other row carries a reported token id, or none at all |
| VenueMirror.HoldingsSwept | auramaur/bot.py:1588-1591 | Exactly which portfolio rows survive, and that they are unchanged |
| VenueMirror.TokenShieldsRow | auramaur/bot.py:1574-1591 | A closed position stays in the table because a reported leg of another market carries its token id |
| VenueMirror.ZeroLegDrifts | auramaur/bot.py:1537-1551 | A leg without size keeps the bot's average on the first pass and loses it on the second |
| VenueMirror.OthersUntouched | auramaur/bot.py:1577-1591 | Paper rows and rows of other venues are never touched |
| VenueMirror.SyncIdempotentIff | auramaur/bot.py:1537-1551 | Repeating the report changes nothing exactly when no leg without size took over an average of the bot's |
| DirectedOrders.DirectedOrderExecutor.UsedOn | auramaur/broker/directed_orders.py:166-174 | The day's total counts submitted and filled rows of the stored kind |
| DirectedOrders.DirectedOrderExecutor.PlaceOrder | auramaur/broker/directed_orders.py:183-265 | The audit row goes in first; the order goes out only ungated and not as a dry run, and the row is settled by what became of it |
| DirectedOrders.RowMeasures | auramaur/broker/directed_orders.py:62-77 | The row of every call carries its dollars: the quantity alone for a conversion out of dollars, else quantity times price times rate, in absolute value |
| DirectedOrders.RowScales | auramaur/broker/directed_orders.py:62-77 | So it scales with price and rate, except for a conversion out of dollars |
| DirectedOrders.UsedIsDollars | auramaur/broker/directed_orders.py:166-174 | The sum the gate queries is the dollars of the sent calls of that day and stored kind which did not come back |
| DirectedOrders.RunKeepsBudgets | auramaur/broker/directed_orders.py:155-178 | Over every sequential run, days crossing midnight included, the dollars of each kind's sent calls of a day, but for those that came back, stay within that kind's cap |
| DirectedOrders.BudgetsKeptIff | auramaur/broker/directed_orders.py:155-178 | For any caps and any set of security types, that holds of all runs over them exactly when every type that means cash is written CASH, or a treasury cap lets nothing through |
| DirectedOrders.LowerCaseEscapes | auramaur/broker/directed_orders.py:169-174 | Written otherwise, conversions that each pass the gate spend any amount in one day, whatever positive caps |
| DirectedOrders.TwoConversionsEscape | auramaur/broker/directed_orders.py:169-174 | Where one order may spend the day's budget, two spend it twice |
| DirectedOrders.KindsIndependent | auramaur/broker/directed_orders.py:166-174 | A row of one kind never enters the other kind's gate |
| DirectedOrders.SentIffGated | auramaur/broker/directed_orders.py:113-233 | Over every run each call leaves one row, and its order went out exactly when it was no dry run and every switch, the account, the allowlist, the limit price and both caps, in dollars computed from the calls, let it |
| DirectedOrders.RunSentSound | auramaur/broker/directed_orders.py:195-256 | Over every run only live rows were sent, each once, and every row that counts was sent |
| DirectedOrders.RefusalReleases | auramaur/broker/directed_orders.py:232-256 | A refusal with nothing filled, or an error, leaves the budget as it was |
| DirectedOrders.CallMovesBudget | auramaur/broker/directed_orders.py:232-256 | What one call adds to the sum of a day and kind is its dollars if it went out, unless sending failed or the broker refused it with nothing filled: any fill keeps them |
| Allocator.Round2Bounds | auramaur/broker/allocator.py:172-187 | Rounding to cents, halves to even, moves a size by at most half a cent and never makes a non-positive size positive |
| Allocator.RoundsHalfToEven | auramaur/broker/allocator.py:172-187 | The result is the nearest number of cents, and of two equally near ones the even |
| Allocator.EventExposure | auramaur/broker/allocator.py:74-94 | The exposure dictionary holds each event's own sum and its values add up to the book |
| Allocator.SameEvent | auramaur/broker/allocator.py:80-87 | Kalshi markets that differ only after their last dash are one event, when what they share has a dash |
| Allocator.OwnEvent | auramaur/broker/allocator.py:80-87 | Every other market is an event of its own |
| Allocator.PositionExposes | auramaur/broker/allocator.py:75-89 | A position adds its size at its current price, or at cost where it has none, to the exposure of its event and to no other |
| Allocator.Allocate | auramaur/broker/allocator.py:48-209 | The greedy loop with its skips and stops equals one pass over the ranking |
| Allocator.AllocationBounds | auramaur/broker/allocator.py:93-209 | Spending stays within capital and each category within its budget, up to half a cent, the book within the position limit, every pick positive, unheld and worth having |
| Allocator.GrantedAsAsked | auramaur/broker/allocator.py:103-187 | Whatever is granted beats cash, is in a market nobody holds and an event below a quarter of all the money, and is at most its Kelly size and half a cent |
| Allocator.GrantedInAll | auramaur/broker/allocator.py:147-209 | What is granted stays within the capital, within the category's percentage of it, and within the position limit |
| Allocator.AllocationRanked | auramaur/broker/allocator.py:91-99 | The picks are a subsequence of the ranking, best first |
| Allocator.RefusedForAReason | auramaur/broker/allocator.py:106-184 | An eligible candidate left out met a full category, or the pass had ended for want of a place or of a cent to offer |
| Allocator.EndsWithMoneyIff | auramaur/broker/allocator.py:140-184 | A pass ends with a place and a cent of capital left exactly when, at a candidate it reaches, the Kelly size or the room in the category rounds to nothing |
| Allocator.HeadroomCanEndIff | auramaur/broker/allocator.py:154-184 | Category room alone can end the pass over some list exactly when the category budget exceeds a whole number of cents by at most half a cent and the capital beyond those whole cents still rounds to money |
| Allocator.TinyFirstEndsThePass | auramaur/broker/allocator.py:172-184 | An eligible first candidate whose Kelly size rounds to nothing leaves all capital unspent |
| Allocator.CategoryDustEndsThePass | auramaur/broker/allocator.py:154-184 | A list whose third candidate, of another category, is never looked at for this |
| DeliveryBatcher.RunKeeps | auramaur/data_edge.py:173-208 | At every step at most one flusher is live, none is missing while writes wait, batches hold 1 to 64, and nothing is lost, doubled or overtaken |
| DeliveryBatcher.FutureTellsTruth | auramaur/data_edge.py:193-208 | A succeeded future's row is committed, once and in write order; a failed or waiting one has no row |
| DeliveryBatcher.ResolvedForGood | auramaur/data_edge.py:201-208 | A future resolves once |
| DeliveryBatcher.WaitingIsServed | auramaur/data_edge.py:184-190 | A waiting write has a live flusher whose next stretch brings it closer |
| DeliveryBatcher.FlusherAnswersAll | auramaur/data_edge.py:188-208 | Left to run, whatever its transactions do, the flusher answers every write |
| LineageQueue.LineageObserver.FillBatch | auramaur/lineage_observer.py:86-98 | The batch takes leading events up to 64, and takes off a sentinel it runs into |
| LineageQueue.LineageObserver.WriteBatch | auramaur/lineage_observer.py:99-126 | All tries of a batch, with whatever happens during its awaits, are a run of the step machine that ends with the batch done |
| LineageQueue.LineageObserver.WriteSingly | auramaur/lineage_observer.py:112-119 | So is the per-event fallback |
| LineageQueue.RunKeeps | auramaur/lineage_observer.py:83-126 | Unfinished equals queued plus in hand, events are conserved in order, at most one sentinel stands in the queue |
| LineageQueue.EachSettledOnce | auramaur/lineage_observer.py:66-126 | Each event is settled once, committed or failed, in order; with nothing unfinished all are, and a finished flush settled all queued before it |
| LineageQueue.CloseReturnsIff | auramaur/lineage_observer.py:69-98 | Once the sentinel is queued the worker stops, in a bounded number of its moves, exactly when the events ahead fill whole batches |
| LineageQueue.WorkerReady | auramaur/lineage_observer.py:83-98 | Until then the worker always has a move |
| LineageQueue.QuietClose | auramaur/lineage_observer.py:69-81 | If nothing is queued after close begins, the sentinel meets an idle worker that stops next |
| LineageQueue.QuietReady | auramaur/lineage_observer.py:69-126 | Until such a close is back the worker, the flush or the closer can move |
| LineageQueue.QuietCloseEnds | auramaur/lineage_observer.py:69-126 | And after as many moves as a bound fixed when it was called, close has returned, the worker has stopped, and every event is settled |
| LineageQueue.LateEventHangs | auramaur/lineage_observer.py:93-98 | One event queued before the sentinel and close never returns |
| InvariantSweep.LeftmostName | scripts/sweep_invariants.py:148-152 | The loop down an attribute chain finds the root name |
| InvariantSweep.Sweeper.Visit | scripts/sweep_invariants.py:265-395 | Visiting a subtree appends exactly the findings its paths call for and restores all three counters |
| InvariantSweep.Sweeper.VisitCall | scripts/sweep_invariants.py:344-395 | A call counts itself as offloader before its own checks, and restores the count after its children |
| InvariantSweep.Sweeper.Check | scripts/sweep_invariants.py:302-371 | The checks, which read counters, report what the ancestor path asks for |
| InvariantSweep.AsyncDepthMeans | scripts/sweep_invariants.py:330-340 | The async counter is positive exactly when the nearest function around is a coroutine |
| InvariantSweep.OffloadDepthMeans | scripts/sweep_invariants.py:349-351 | The offload counter is positive exactly when some call on the path offloads |
| InvariantSweep.TxnDepthMeans | scripts/sweep_invariants.py:265-276 | The span counter is positive exactly when some ancestor opens a transaction |
| InvariantSweep.FindingsExact | scripts/sweep_invariants.py:247-395 | A finding is made exactly when some path from the root to a call satisfies the rule |
| InvariantSweep.FindingsAreBreaches | scripts/sweep_invariants.py:265-371 | That rule written out: a parser or a blocking request on the event loop, a sleep in a coroutine, a network or model call inside a transaction span, each with the names it is about |
| InvariantSweep.KeyNames | scripts/sweep_invariants.py:134-145 | Findings of one dimension and detail share their key exactly when they are in the same file, however its path is spelled |
| InvariantSweep.NewAreUnrecorded | scripts/sweep_invariants.py:485-489 | What is reported as new is exactly what no key of the baseline stands for |
| InvariantSweep.BaselineSurvivesMoves | scripts/sweep_invariants.py:134-145 | Moving code to other lines, or the other spelling of the path, makes no recorded finding new |
| Consolidation.Output.InsertSignals | scripts/consolidate_databases.py:240-256 | The insertion loop renumbers above every id in use and records the map |
| Consolidation.Output.MergeSignalGraph | scripts/consolidate_databases.py:240-299 | The linked tables are merged as specified, or left as they were when a unique key is taken |
| Consolidation.InsertAllExact | scripts/consolidate_databases.py:247-256 | Historical rows are unchanged and every current row appears under a fresh id |
| Consolidation.IdMapInjective | scripts/consolidate_databases.py:247-256 | The id map is one to one and carries each row to the same content |
| Consolidation.TradesJoinKept | scripts/consolidate_databases.py:258-266 | Output trades joined to signals are the historical join then the current join, exactly when no historical trade points at an id about to be given out |
| Consolidation.DanglingTradeCaptured | scripts/consolidate_databases.py:258-266 | A historical trade pointing just above the ids in use comes out joined to an unrelated signal |
| Consolidation.MarksJoinKept | scripts/consolidate_databases.py:291-299 | The same for marks joined to decisions |
| Consolidation.MarksNeverAbort | scripts/consolidate_databases.py:268-299 | Under that condition only a repeated decision can abort the merge |
| Consolidation.CommittedIff | scripts/consolidate_databases.py:268-299 | The merge is committed exactly when no decision repeats a reference under its strategy and no renumbered mark stands twice |
| Consolidation.MergeTable | scripts/consolidate_databases.py:130-148 | The row-by-row upsert is the specified merge |
| Consolidation.MergeExact | scripts/consolidate_databases.py:130-148 | Rows of one side come through and a key of both sides is resolved once |
| Consolidation.JournalAndCatalog | scripts/consolidate_databases.py:351-358 | Unique-key journals keep historical rows, catalogs take the current row, neither loses a key |
| Consolidation.DaysAdd | scripts/consolidate_databases.py:183-216 | Daily profit and counts add up, the drawdown is the worse of two, the balance the current one, and a day of one side comes through |
| Consolidation.CountersAdd | scripts/consolidate_databases.py:219-237 | A counter is the sum under its key |
| MomentumReplay.DatesExact | auramaur/backtest/ibkr_replay.py:130-130 | The sessions are the days on which any instrument has a bar, in order |
| MomentumReplay.WindowIgnoresToday | auramaur/backtest/ibkr_replay.py:149-155 | What the signals see at a session depends on earlier closes only |
| MomentumReplay.NoLookahead | auramaur/backtest/ibkr_replay.py:148-228 | Two markets that agree up to a day have the same trips closed by it and the same open positions on it |
| MomentumReplay.TripsByDay | auramaur/backtest/ibkr_replay.py:160-187 | The trips of a whole replay that closed by a day are those closed after the sessions up to it |
| MomentumReplay.RunSound | auramaur/backtest/ibkr_replay.py:159-228 | Open positions never exceed the limit and round trips of one instrument never overlap |
| MomentumReplay.ProposalFits | auramaur/experiments/strategies/ibkr_multiasset.py:45-89 | A proposal risks no more than its class has left and spends no more than the deployment budget has left |
| MomentumReplay.RunWithinBudgets | auramaur/backtest/ibkr_replay.py:207-228 | Over every run a class's open risk stays within its cap and deployment within its cap marked up by spread and slippage |
| ReplayTrips.StrongerComesFirst | auramaur/backtest/ibkr_replay.py:189-228 | If a session enters a candidate and leaves out a stronger one, then there was nothing to propose for the stronger one at its earlier turn |
| ReplayTrips.QuantityIsLargest | auramaur/experiments/strategies/ibkr_multiasset.py:76-82 | No larger number of ten-thousandths of a unit fits both the money and the risk that are left |
| ReplayTrips.ProposalIff | auramaur/experiments/strategies/ibkr_multiasset.py:46-82 | There is something to propose exactly for a named, quoted and moving instrument under a budget, when a ten-thousandth of a unit fits the money left and its distance to the stop the risk left |
| ReplayTrips.EveryTripTold | auramaur/backtest/ibkr_replay.py:159-228 | Over every replay each position was opened on the quote of a session, paid at the ask plus slippage, with its stop and risk; and each round trip closed one in a later session at the bid less slippage, for the one reason whose threshold that bid crossed, for what it brought minus what it cost and both fees |
| MomentumReplay.CostsExceedCap | auramaur/experiments/strategies/ibkr_multiasset.py:63-89 | At any cost at which something can be bought, one session of an all-in book deploys more than its cap |
| MomentumReplay.DeploymentCapKeptIff | auramaur/experiments/strategies/ibkr_multiasset.py:63-89 | At given costs no replay exceeds its deployment cap exactly when there are none, or the spread is so wide that nothing is bought |
| MomentumReplay.AdvanceHistory | auramaur/backtest/ibkr_replay.py:149-155 | History grows by the previous session's closes, never the current one's |
| MomentumReplay.ProcessExits | auramaur/backtest/ibkr_replay.py:159-187 | The exit loop keeps or closes each position as specified |
| MomentumReplay.RankCandidates | auramaur/backtest/ibkr_replay.py:192-205 | The entry candidates, strongest momentum first, and those of equal momentum in market order |
| MomentumReplay.ProcessEntries | auramaur/backtest/ibkr_replay.py:207-228 | The entry loop, sized against what is open at that moment, up to the limit |
| MomentumReplay.ReplayMomentumBook | auramaur/backtest/ibkr_replay.py:97-231 | The session loop over mutable history, positions and trips equals the replay the theorems are about |
| WalkForward.EventUnique | auramaur/backtest/walk_forward.py:43-52 | The loop with its seen set keeps the first row of each event |
| WalkForward.OnePerEvent | auramaur/backtest/walk_forward.py:43-52 | Every event keeps exactly one row |
| WalkForward.KeptIsEarliest | auramaur/backtest/walk_forward.py:43-44 | And it is the earliest |
| WalkForward.OrderedExact | auramaur/backtest/walk_forward.py:70-70 | The rows studied are the earliest of each event, in time order |
| WalkForward.ExpandingWalkForward | auramaur/backtest/walk_forward.py:55-86 | Folds or the two errors; test sets concatenate to the tail, train and test share no event, kept training ends before the test minus the embargo |
| WalkForward.FoldIsHonest | auramaur/backtest/walk_forward.py:73-85 | Each fold separates past from future |
| WalkForward.TrainGrows | auramaur/backtest/walk_forward.py:72-86 | Training sets grow from fold to fold |
| WalkForward.MaxDrawdown | auramaur/backtest/walk_forward.py:123-126 | The running-peak loop finds the largest relative drop over all ordered pairs |
| RankStudy.RankInPlace | auramaur/backtest/ibkr_signal_study.py:68-80 | The tie-group loop over an array gives each value the count below it plus half of one more than its ties |
| RankStudy.RanksSum | auramaur/backtest/ibkr_signal_study.py:68-80 | Ranks sum to n(n+1)/2 |
| RankStudy.RanksSurviveTransform | auramaur/backtest/ibkr_signal_study.py:68-80 | Ranks survive strictly increasing transforms |
| RankStudy.RanksPreserveOrder | auramaur/backtest/ibkr_signal_study.py:68-80 | Ranks compare as the values do |
| RankStudy.CauchySchwarz | auramaur/backtest/ibkr_signal_study.py:88-90 | The squared co-variation is at most the product of the variations |
| RankStudy.SpearmanBounded | auramaur/backtest/ibkr_signal_study.py:83-91 | The squared rank correlation is at most one |
| RankStudy.SpearmanDefined | auramaur/backtest/ibkr_signal_study.py:83-91 | It is undefined exactly below three points or when one side is constant |
| RankStudy.SpearmanPerfect | auramaur/backtest/ibkr_signal_study.py:83-91 | A variable correlates perfectly with itself and with any strictly increasing function of itself, and perfectly negatively with any strictly decreasing one |
| RankStudy.SpearmanReverses | auramaur/backtest/ibkr_signal_study.py:83-91 | A strictly decreasing change of one side turns the sign round and changes nothing else |
| RankStudy.SpearmanSymmetric | auramaur/backtest/ibkr_signal_study.py:83-91 | It does not matter which variable is named first |
| RankStudy.SpearmanSurvivesTransform | auramaur/backtest/ibkr_signal_study.py:83-91 | It survives increasing transforms of either side |
| RankStudy.SessionExcess | auramaur/backtest/ibkr_signal_study.py:114-126 | Subtracting a session mean leaves ranks and correlation alone, and excess returns of a session sum to zero |
| RankStudy.MomentumBuckets | auramaur/backtest/ibkr_signal_study.py:129-148 | The buckets partition the observations, sorted with the weakest momentum first, in order, none lost or doubled |

## Left out

- Network clients, venue adapters, web sockets and language-model calls: their answers
  are parameters or arbitrary steps.
- SQL itself, schema migrations, connection locking: tables are maps and sequences, a
  transaction is atomic.
- Floating-point rounding: money is real-valued; only the rounding to cents of the
  allocator is modelled.
- ManualTrades.Sweeper.SweepManualTrades: venue rows arrive parsed, with sides and
  tokens normalized; parsing of malformed numbers and timestamps is not modelled.
- ManualTrades.Sweeper.BookManualSell: the attribution update between the two commits
  is not modelled, nor its strategy column.
- ManualTradeRuns.CutsThenRerun: the other tables are asked the same way by every try of
  the batch; what else is booked between two tries is not modelled.
- Ledger.PnlLedger.Backfill: who entered a position and how much was bought are given
  by a context, not by the attribution queries; market categories and venues are not
  stored.
- OrderRuns.FillsBookedOnce: venues give new orders new ids, adapters track or adopt
  only orders that did not execute at placement, and an id keeps its side; these are
  guards of the steps. One monitor task runs at a time, as the source has it.
- OrderMirrors.PortfolioIsProjection: the venue passed along with an order is that of
  its market; writes by settlement and by the position sync are outside this model.
- OrderLifecycle.Desk.SubmitPaired: building the orders, decision capture and cooldown
  rows are not modelled; whether the cap blocks the pair is an input, decided by
  `ExposureCap`.
- OrderLifecycle.Desk.RecordResult: slippage rows and decision evidence are not modelled.
- OrderLifecycle.Desk.RecordFillOnce: the upsert of the day's reporting statistics, which
  may fail without failing the transaction, is not modelled; the sale handed to the
  ledger is, and what the ledger does with it is `Ledger`.
- OrderLifecycle.Desk.PollOrder: the end of a polled order (its fill transaction, the
  close of its mirror row, its untracking) is one step of the machine, as is the end of
  a placement's recording (its fill transaction and its mirror row); failures of the
  mirror writes are not modelled.
- The orphan sweep of pending mirror rows is a single-row step; its limits of 25 rows
  read and five updates per pass are not modelled. Paper quotes of the market maker
  never fill and are not modelled.
- ExposureCap.CapIsInductive: orders on one side share one capital ratio and one venue;
  the drop table and legacy rows whose token differs in case are not modelled.
- VenueMirror.LegsMirrored: one leg per market and token; how the reconciler builds the
  report is not modelled.
- DirectedOrders.RunKeepsBudgets: calls are sequential; polling for the fill is one
  outcome of the call.
- Allocator.Allocate: sizes are returned beside the candidates instead of being stored
  in them; expected values are inputs.
- LineageQueue.RunKeeps, DeliveryBatcher.RunKeeps: cancellation of the worker tasks
  themselves is not modelled; the rows a batch writes are opaque.
- InvariantSweep.FindingsExact: the other dimensions of the sweep, which look at one
  node at a time, and the text after the call in a span finding are left out.
- Consolidation.Output.MergeSignalGraph: columns other than keys and references are one
  opaque body; replaced tables are simply the current ones; the table policy check and
  the schema versions are left out.
- MomentumReplay.NoLookahead: momentum, volatility and the book's parameters are
  arbitrary functions and values; the warm-up length is passed explicitly; the split
  by entry date, summary statistics and confidence bounds are left out.
- WalkForward.MaxDrawdown: the equity values are given in time order; the other metrics
  of the evaluation are left out.
- RankStudy.SpearmanBounded: stated on squares, since the square root is not modelled.
- Settings, dashboards, alerts and logging.
