# Verification of the trading engine

A Dafny model of the parts of the akadro workspace whose correctness spans many functions, with
machine-checked proofs. `dafny verify dfyconfig.toml` checks all of it.

**The simulated venue** (`Trading`, `AverageCost`, `Exchange`, `SimulatedExchange`). `Exchange` gives
submit, cancel and observe as functions on values: latency, arming, trailing references, all six
order kinds, the three times in force, the shared volume cap, reduce-only staging, one-cancels-other
claims, uncertain maker touches, funding and liquidation. `SimulatedExchange.Venue` performs them in
place, with the source's loops, and is proved to do exactly that. What a bar does to each order is then
said a second time, from outside the venue's evaluation, in the prices the bar touches, the order's terms
and what the orders before it took (`OrderFate`, `BarFates`, `BarOutcomes`, `OrderEnds`): which orders fill,
of how much and at what price, which stay, and which end and why. On this machine rest the
conservation of order lifecycles (`Lifecycle`), fill safety within a bar (`FillSafety`), groups that
never over-execute (`OneCancelsOther`), what a fill costs and the cash guard reserves (`FillCosts`,
`Solvency`), what the order terms mean (`OrderTerms`), what is admitted, funded and liquidated
(`Charges`) and what liquidations book (`Liquidations`). All of these range over every run: any sequence of
submissions, cancellations and bars.

**The portfolio and the engine** (`Portfolio`, `Engine`, `EventLoop`). The portfolio sees nothing but
account events. `Sync` and `EngineSync` prove that it nevertheless agrees with the venue's private
state after every drain, whatever the strategy does; `EquityRun` that every point of the equity curve
satisfies the equity identity with a stated rounding bound; `Callbacks` what a strategy is told, when,
and with which account and market, and that all it asks for reaches the venue. A strategy is an arbitrary function from
its state, a callback and a view of the world to a new state and a list of actions.

**Record and replay** (`TradeLedger`, `Replay`, `ReplayCheck`, `RunReplay`, `LiquidatedReplay`). The replay runs on the
same engine and venue; its fills are exactly the saved ones in replay order, and the comparison's
verdict is characterized for every run.

**The range-aware cache** (`Gap`, `Manifest`, `BarSets`, `CacheProtocol`, `Loader`, `LoaderGrid`,
`Recovery`, `CacheLoader`). The loader is a class over a directory whose every disk operation is a step of a
protocol; a crash may follow any step. The venue behind the connector is a fixed strictly ascending
list of bars. A fetch that was not aborted may still come back with nothing of its gap, as a connector
that fails silently does; when it comes back with something, that holds every settled bar of the window
and every bar older than a returned one. Only the promise that no settled bar is missed asks more of
the connector.

**Kernels**: the tournament-tree merge (`Merge`, `MergeSource`), rolling extremes (`Extremes`), the
combination enumerator (`Combinations`), bar aggregation (`Aggregation`, `AggregationLaws`,
`TradeBars`, `BarMeaning`) and decimal text (`Decimal`). `Prelude`, `Sorting` and `Runs` hold shared vocabulary.

Where the code and what is written about it differ, or a property is only almost true, the model
follows the code and says exactly when it holds:

- The replay comparison's comment speaks of the presence of a liquidation; the code tests whether the
  booked liquidation profit is zero. At a positive threshold, with slippage and closes that are not
  negative, the two agree and every run matches its replay
  (`RunReplay.PositiveThresholdsMatch`). At a threshold of zero or less they differ:
  `LiquidatedReplay.FreeLiquidationIsReported` is a whole run, with its configuration, strategy and
  bars, whose replay is reported as different, and `LiquidatedReplay.MatchesExactlyAboveZero` puts the
  line there for venues at any fee, slippage and impact.
- A gap's planner treats up to one bar of slack as covered. With windows or a clock off the bar grid
  this hides bars the venue has. `LoaderGrid.OffGridWindowHidesABar` is such a case,
  `LoaderGrid.HiddenExactlyInSlivers` the exact condition, and on the grid it cannot happen.
- `record_range` accepts some ranges that `validate` then rejects: one that starts on a single recorded
  stamp (`Manifest.AcceptedButInvalid`), or a single stamp inside a recorded range
  (`Manifest.PointAcceptedButInvalid`); `Manifest.RecordingStaysValid` is the exact condition. Fetched
  gaps never produce one. Recovered journals can, when a connector hands the journal pages that reach
  below the window it was asked for, as the OKX connector does
  (crates/akadro-venue-okx/src/lib.rs:790-815): `Recovery.StraddlingJournalSpoils` is such a directory,
  reached from an empty one. Recovery keeps a
  series valid exactly when every journal is harmless (`Recovery.AllRecoveryStaysValid`), and for
  connectors that clip their pages, on the grid, every state of the directory is valid
  (`CacheLoader.Cache.RegularStaysValid`).
- Recovery drops a journal before the manifest that records its bars is saved, and ignores a refused
  record, so what was flushed can be forgotten (`Recovery.CrashForgetsJournal`,
  `Recovery.FlushedBarsResume`). Nothing false is recorded by that; the bars are downloaded again.
- Printing and parsing a decimal are inverse only up to scale 38; above it parsing fails.
- An immediate-or-cancel order that fills partially emits its expiry before its fill, so the lifecycle
  theorem counts terminal events and does not say that nothing follows one.
- Cash can become negative: by a market buy that meets a higher open than the close it was checked
  against (`Solvency.MarketBuyCanOverdraw`), by one sent before the first bar, for which nothing is
  reserved (`Solvency.UnmarkedBuyCanOverdraw`), and, without any gap, by a buy that triggers above the
  mark it is reserved at, as a stop does (`Solvency.StopBuyCanOverdraw`).
  `FillCosts.ReserveCoversExactly` says exactly when a fill is covered by its
  reserve, and `Solvency.CalmRunsStaySolvent` and `Solvency.QuietRunsStaySolvent` which runs stay
  solvent, whatever kinds of buys they send.

## Model

| member | source | states |
|---|---|---|
| Lifecycle.EveryRunKeepsTheBooks | crates/akadro-backtest/src/exchange.rs:1016-1288 | Over every run of submits, cancels and bars with fresh ids, each id is accepted at most once and, once accepted, either rests exactly once or has had exactly one terminal event; its fills add up to at most its quantity; it triggers at most once; no conditional order fills before it triggered |
| Lifecycle.ObserveObeysBarLaw | crates/akadro-backtest/src/exchange.rs:1016-1288 | One bar trades resting entries for terminal events one for one, accepts nothing, touches no order that was not resting, and grows each filled quantity by exactly what was filled |
| Lifecycle.ScanObeysLaw | crates/akadro-backtest/src/exchange.rs:1062-1250 | The pass over the resting orders ends, keeps or stages each one exactly once, in resting order, and announces a trigger exactly when the order becomes armed |
| Lifecycle.DecisionFate | crates/akadro-backtest/src/exchange.rs:1062-1250 | One order against one bar: kept with fewer than its quantity filled, or ended by one terminal event or a complete fill, never both |
| Lifecycle.ClaimsPrune | crates/akadro-backtest/src/exchange.rs:730-759 | Resolving group claims only cancels resting legs or grows their filled quantity, with one cancellation per leg dropped |
| Lifecycle.DropPrunes | crates/akadro-backtest/src/exchange.rs:897-911 | Liquidation keeps exactly the orders of other instruments and cancels each of its own, once |
| Lifecycle.StagedArePositive | crates/akadro-backtest/src/exchange.rs:1180-1259 | Every staged fill has a positive quantity |
| SimulatedExchange.Venue.SettleCash | crates/akadro-backtest/src/exchange.rs:391-405 | The mirrored cash moves by the notional of the fill and its costs, or stays absent |
| SimulatedExchange.Venue.Submit | crates/akadro-backtest/src/exchange.rs:962-986 | A rejected order changes nothing and emits its rejection; an accepted one rests last with the configured latency |
| SimulatedExchange.Venue.Cancel | crates/akadro-backtest/src/exchange.rs:988-1007 | Removes the one resting order of that id and reports it, or changes nothing and reports that |
| SimulatedExchange.Venue.MatchOne | crates/akadro-backtest/src/exchange.rs:1062-1250 | The loop body, in place, performs the decision that `OrderFate.DecisionIsFate` says the meaning of |
| SimulatedExchange.Venue.StageFill | crates/akadro-backtest/src/exchange.rs:1158-1248 | Sizing, staging and resting or expiring the remainder, in place, performs the specified decision |
| SimulatedExchange.Venue.MatchResting | crates/akadro-backtest/src/exchange.rs:1062-1250 | Taking the resting list out and putting orders back one by one yields the specified pass |
| SimulatedExchange.Venue.EmitFills | crates/akadro-backtest/src/exchange.rs:1253-1270 | Settling the staged fills in order moves cash and positions and emits as specified |
| SimulatedExchange.Venue.ReduceOrCancelSiblings | crates/akadro-backtest/src/exchange.rs:730-759 | Shrinks or cancels the other legs of a claimed group, in place, as `BarOutcomes.ClaimsResolve` says |
| SimulatedExchange.Venue.FundPosition | crates/akadro-backtest/src/exchange.rs:796-853 | Counts the bar and settles funding in place, as specified |
| SimulatedExchange.Venue.Liquidate | crates/akadro-backtest/src/exchange.rs:855-913 | Closes a position past its threshold and cancels its instrument's orders in place, as specified |
| SimulatedExchange.Venue.Observe | crates/akadro-backtest/src/exchange.rs:1016-1288 | The whole bar in place equals the transition the theorems are about, in state and in emitted events |
| FillSafety.BarStaysWithinVolumeShare | crates/akadro-backtest/src/exchange.rs:1034-1060 | All fills of a bar together never exceed max(0, volume x participation / 10000) |
| FillSafety.ReduceOnlyFillsOnlyReduce | crates/akadro-backtest/src/exchange.rs:1158-1178 | Each fill of a reduce-only order, at the moment it is emitted, moves the position it meets toward zero and never past it |
| FillSafety.SettlingTracksNet | crates/akadro-backtest/src/exchange.rs:1253-1259 | The running position that sized the fills is the position each fill meets when it is emitted |
| FillSafety.FillPriceBounds | crates/akadro-backtest/src/exchange.rs:622-718 | Limit fills are no worse than the limit, market and stop fills are prices of the bar or the gapped open |
| OneCancelsOther.AtMostOneLegFillsPerBar | crates/akadro-backtest/src/exchange.rs:1131-1142 | However wide the bar, at most one leg of a group fills on it, once |
| OneCancelsOther.ClaimsResolveLegs | crates/akadro-backtest/src/exchange.rs:1272-1284 | After the claims are resolved all resting legs of a claimed group carry the claim's filled quantity |
| OneCancelsOther.GroupsNeverOverExecute | crates/akadro-backtest/src/exchange.rs:1131-1284 | When all legs were submitted before the group's first fill, its resting legs always agree on the group's total fills, and that total never exceeds the largest leg |
| FillCosts.CostSplits | crates/akadro-backtest/src/exchange.rs:493-530 | Floored fees: the cost of a whole covers the costs of its parts |
| FillCosts.SlippageIsAdverse | crates/akadro-backtest/src/exchange.rs:533-545 | Slippage never favours the order and never makes a price negative |
| FillCosts.FillPriceIsExact | crates/akadro-backtest/src/exchange.rs:533-573 | To the unit, for every base, side, rate, size and volume: a taker pays slippage of its rate on the base, truncated, and the share of the bar it takes, rounded down and at most the whole, of the impact rate on the slipped price |
| FillCosts.OneTakerPrice | crates/akadro-backtest/src/exchange.rs:533-573 | and that determines the price |
| FillCosts.CeilingIsExact | crates/akadro-backtest/src/exchange.rs:493-530 | The price a buy is reserved at, to the unit: its limit, or its mark with slippage and the whole impact |
| FillCosts.LargerFillsPayMore | crates/akadro-backtest/src/exchange.rs:550-573 | With impact, the larger of two fills never gets the better price, and neither beats the base price |
| FillCosts.ReserveCoversExactly | crates/akadro-backtest/src/exchange.rs:493-530 | What the guard reserves for a buy covers a fill if and only if it had a price to reserve at and the fill's is no higher |
| FillCosts.TakerBelowCeiling | crates/akadro-backtest/src/exchange.rs:493-573 | A fill whose base is at most the mark is covered at any size and volume, and one whose base is above the reserved price never is |
| FillCosts.UnslippedReserve | crates/akadro-backtest/src/exchange.rs:493-530 | Without slippage and impact a fill is covered if and only if there was a mark and the price is no higher |
| Solvency.DecisionIsCovered | crates/akadro-backtest/src/exchange.rs:1062-1250 | What was reserved for an order covers what stays reserved for it plus what its fill takes, if the bar cannot fill it above where it was reserved |
| Solvency.SubmitStaysCovered | crates/akadro-backtest/src/exchange.rs:464-482 | Admitting a buy means cash covers all reservations at the present marks; anything else submitted reserves nothing |
| Solvency.MarkIsLastClose | crates/akadro-backtest/src/exchange.rs:1027-1028 | The venue's mark of an instrument is its last close, zero before its first bar |
| Solvency.CalmRunsStaySolvent | crates/akadro-backtest/src/exchange.rs:464-530 | With any kinds of buys, and no funding or liquidation: as long as no bar fills a buy above the mark at which a buy was last admitted, mirrored cash covers every reservation in every reachable state, so it is never negative |
| Solvency.QuietRunsStaySolvent | crates/akadro-backtest/src/exchange.rs:464-530 | The same from the operations alone: market, stop, if-touched and trailing buys are sent once their instrument has a close, and while one may still rest, that is until its cancel or the first live bar that must end it, no bar of its instrument trades above the close that stood when it or a later buy was sent |
| Solvency.GuardedRunsStaySolvent | crates/akadro-backtest/src/exchange.rs:464-530 | With buys at non-negative limits only, and whatever the bars, mirrored cash minus all reservations at the present marks is never negative |
| Solvency.MarketBuyCanOverdraw | crates/akadro-backtest/src/exchange.rs:464-530 | A market buy checked against the last close and filled at any higher open takes just-sufficient cash below zero |
| Solvency.UnmarkedBuyCanOverdraw | crates/akadro-backtest/src/exchange.rs:506-513 | A market buy before the first bar reserves nothing, and takes cash below zero without a gap |
| Solvency.StopBuyCanOverdraw | crates/akadro-backtest/src/exchange.rs:503-513 | A stop buy is reserved at the mark below its trigger, and takes cash below zero without a gap |
| Charges.AdmittedExactlyWhen | crates/akadro-backtest/src/exchange.rs:417-483 | An order is accepted if and only if it can be worked, has a position to reduce if it must, and with it resting the mirrored cash still covers all reservations; a rejection changes nothing and names the first of these that fails |
| Charges.LiquidatedAtTheThreshold | crates/akadro-backtest/src/exchange.rs:856-874 | The integer threshold test is exact: the adverse move, in basis points of the entry, has reached the limit |
| Charges.LiquidationCloses | crates/akadro-backtest/src/exchange.rs:875-912 | A liquidation leaves the position flat |
| Charges.LiquidationIsPriced | crates/akadro-backtest/src/exchange.rs:855-894 | A bar liquidates, if at all, the whole position its fills leave, on the other side, at the close with exactly the slippage, and charges exactly the fee |
| Charges.NoPositionOutlivesItsThreshold | crates/akadro-backtest/src/exchange.rs:855-913 | After every bar the position on its instrument need not be liquidated; after a liquidation it is flat and nothing rests on the instrument |
| Charges.FundingIsCounted | crates/akadro-backtest/src/exchange.rs:796-823 | Over every run the funding counter is the number of bars seen modulo the interval |
| Charges.FundingFallsDue | crates/akadro-backtest/src/exchange.rs:816-853 | Funding is settled on exactly those bars whose number is a multiple of the interval and that leave a position open, and charges that position at the bar's close |
| Charges.ChargeIsExact | crates/akadro-backtest/src/exchange.rs:825-841 | The charge to the unit: the position at the close times the scheduled rate in force, or the basis-point rate, truncated |
| OrderTerms.ActsExactlyWhenTouched | crates/akadro-backtest/src/exchange.rs:622-690 | For every kind but the trailing stop, armed or not, post-only or not: a stop-limit arms if and only if the bar touches its trigger side; a post-only order is canceled if and only if it would take where it becomes active; what else works fills if and only if the bar touches a price it accepts |
| OrderTerms.TrailFollowsTheExtreme | crates/akadro-backtest/src/exchange.rs:679-716 | A trailing stop's reference is the extreme of every bar it has watched |
| OrderTerms.TrailFiresAtTheOffset | crates/akadro-backtest/src/exchange.rs:679-716 | It fires exactly when the bar comes back from that extreme by the trail, at that price |
| OrderTerms.ImmediateOrdersDoNotRest | crates/akadro-backtest/src/exchange.rs:1094-1248 | An immediate order rests past a live bar only while conditional and dormant; fill-or-kill fills all that is left or nothing |
| OrderTerms.FundingRateIsLatest | crates/akadro-backtest/src/exchange.rs:166-169 | The rate in force is that of the latest scheduled point not after now, zero before the first |
| OrderTerms.DueInOrder | crates/akadro-engine/src/context.rs:141-152 | Due timers fire in time order |
| OrderTerms.TimersArePartitioned | crates/akadro-engine/src/context.rs:141-152 | Every timer is drained exactly once or stays |
| OrderTerms.DueByNow | crates/akadro-engine/src/context.rs:141-152 | A timer is drained exactly when its time has come |
| OrderFate.TrailOffsetIsExact | crates/akadro-backtest/src/exchange.rs:679-716 | A trail is a distance or a truncated share of the reference |
| OrderFate.EvaluateTouches | crates/akadro-backtest/src/exchange.rs:622-718 | Evaluating an order is asking what the bar touches: it fills if and only if it works, would not take at once and the bar trades at a price it accepts, and then at the accepted price nearest to the one it became active at |
| OrderFate.DecisionIsFate | crates/akadro-backtest/src/exchange.rs:1062-1250 | What one order gets of a bar, from prices touched, its terms and what the orders before it took: the exact conditions on which it fills, stays, expires, is refused, beaten or useless, and the exact size, price, trigger and draw |
| BarFates.PassIsFates | crates/akadro-backtest/src/exchange.rs:1062-1250 | Over the whole pass each order gets that, given the volume, position, groups and draws that those before it leave |
| BarOutcomes.ClaimsResolve | crates/akadro-backtest/src/exchange.rs:730-759 | After all claims a leg rests on if and only if it is the keeper, or of no claimed group, or the keeper did not complete and filled less than its quantity, and then counts the keeper's total as filled; exactly the others are canceled |
| BarOutcomes.FillsExactlyWhen | crates/akadro-backtest/src/exchange.rs:1062-1270 | The fills a bar emits: exactly the orders whose price the bar touches and whose turn leaves them volume, position and group; each once, in the order of their ids, of all they may take, at the exact price and fee |
| BarOutcomes.RestsExactlyWhen | crates/akadro-backtest/src/exchange.rs:1016-1288 | The book after a bar: exactly the orders that stayed, that no leg of their group released and whose instrument was not liquidated, each with its latency, trigger, trail and filled quantity as the bar left them |
| BarOutcomes.EndsExactlyWhen | crates/akadro-backtest/src/exchange.rs:1016-1288 | Every other order event of a bar, if and only if: triggers, expiries, and cancellations of orders refused, useless, beaten, released or liquidated |
| OrderEnds.OrdersInFlightWait | crates/akadro-backtest/src/exchange.rs:1064-1072 | An order of another instrument or in flight stays, its latency one lower if it is in flight |
| OrderEnds.WorkingOrdersLeaveForAReason | crates/akadro-backtest/src/exchange.rs:1062-1288 | A live good-till-canceled order leaves the book if and only if its fill completes it, it is refused, beaten, released or useless, or its instrument is liquidated; a bar that does not reach it leaves it there |
| OrderEnds.EveryEndIsExplained | crates/akadro-backtest/src/exchange.rs:1016-1288 | Over every run: what expired was immediate; what was canceled was asked to be at that time, or had its group filled at that time, or is post-only or reduce-only, or its instrument was liquidated at that time |
| OrderEnds.PlainOrdersRestUntilFilled | crates/akadro-backtest/src/exchange.rs:1016-1288 | An accepted good-till-canceled order with no group and no restriction rests until a fill completes it, unless it is asked to be canceled or its instrument is liquidated |
| AverageCost.AverageEntryNearest | crates/akadro-engine/src/portfolio.rs:86-104 | The rounded average is the integer nearest to the exact one |
| AverageCost.AverageEntryBetween | crates/akadro-engine/src/portfolio.rs:86-104 | The rounded average lies between the old average and the fill price, so narrowing it never truncates |
| AverageCost.CostBasisStep | crates/akadro-engine/src/portfolio.rs:74-122 | A fill moves the cost basis by what was paid plus the profit realized, up to at most half a unit per unit of the resulting position, and exactly unless the fill increases the position |
| Portfolio.Book.constructor | crates/akadro-engine/src/portfolio.rs:162-175 | Starts flat, with the initial cash and nothing open |
| Portfolio.Book.Settle | crates/akadro-engine/src/portfolio.rs:267-300 | Position, realized profit, cash, fees and the list of held instruments after a trade, in place, as specified |
| Portfolio.Book.Apply | crates/akadro-engine/src/portfolio.rs:199-265 | One account event applied in place, over every event kind, as specified |
| Portfolio.TotalsAreTallies | crates/akadro-engine/src/portfolio.rs:199-300 | Cash, fees, funding and every net position are the sums of what the individual events move: nothing counted twice or missed |
| Portfolio.HeldStaysExact | crates/akadro-engine/src/portfolio.rs:267-300 | The held list is always exactly the instruments with an open position, each once |
| Portfolio.AveragesStayWithinPrices | crates/akadro-engine/src/portfolio.rs:74-122 | No average entry ever leaves the range of the prices traded |
| Portfolio.CostBasisIdentity | crates/akadro-engine/src/portfolio.rs:199-300 | Over any event stream, cash plus cost basis is initial cash plus realized profit minus fees and funding, up to the accumulated rounding |
| Portfolio.EquityIdentity | crates/akadro-engine/src/portfolio.rs:199-300 | Equity is initial cash plus realized plus unrealized profit minus fees and funding plus E, with 2|E| at most the size of the position after each position-increasing fill, summed |
| Portfolio.MarkToMarket | crates/akadro-engine/src/engine.rs:491-515 | Summing over the held instruments only gives the full equity |
| Portfolio.ContextEquity | crates/akadro-engine/src/context.rs:466-478 | The strategy's own sum over all instruments gives the same equity |
| EquityRun.TradesAreCatalogued | crates/akadro-backtest/src/exchange.rs:417-420 | Whatever the venue fills or liquidates is an instrument of the catalogue |
| EquityRun.EveryEquityPointReconciles | crates/akadro-engine/src/engine.rs:234-375 | The equity curve has one point per bar of the feed, in order, and each point of every run, for any strategy, has all open positions marked and satisfies the equity identity |
| Sync.ShadowTransition | crates/akadro-backtest/src/exchange.rs:117-162 | The venue's own position arithmetic makes the portfolio's transition |
| Sync.ObserveKeepsMoney | crates/akadro-backtest/src/exchange.rs:1016-1288 | Folding a bar's events into the account keeps positions and cash equal to the venue's |
| Sync.ObserveKeepsOpen | crates/akadro-backtest/src/exchange.rs:1016-1288 | and keeps its open list equal to the ids resting |
| Sync.EveryRunStaysInStep | crates/akadro-backtest/src/exchange.rs:1016-1288 | After every run, the account rebuilt from the events alone has the venue's resting ids as its open orders, in order, its positions and averages, and its cash |
| EngineSync.EveryDrainEndsInStep | crates/akadro-engine/src/engine.rs:558-595 | After every drain, for any strategy, venue and portfolio agree |
| EngineSync.EveryEngineRunStaysInStep | crates/akadro-engine/src/engine.rs:196-409 | After any number of events of a run, for any strategy, venue and portfolio agree, the portfolio is the fold of the emitted events, and the order books balance |
| EngineSync.FinishIsFaithful | crates/akadro-engine/src/engine.rs:377-409 | So too at the end of a run, after the last timers and the stop callback |
| EngineSync.BufferingStaysFresh | crates/akadro-engine/src/context.rs:79-88 | Ids handed to a strategy are never reused |
| EngineSync.ResyncIsFaithful | crates/akadro-engine/src/engine.rs:307-338 | A resync marker changes nothing the account will become |
| EventLoop.EventEngine.constructor | crates/akadro-engine/src/engine.rs:137-168 | Nothing observed, nothing pending, the portfolio at its initial cash |
| EventLoop.EventEngine.Call | crates/akadro-engine/src/context.rs:79-132 | What the callback asks for is buffered in order, with fresh ids |
| EventLoop.EventEngine.RoutePending | crates/akadro-engine/src/engine.rs:539-552 | Routes every buffered action to the venue in submission order and leaves none |
| EventLoop.EventEngine.FireDueTimers | crates/akadro-engine/src/engine.rs:523-535 | Calls back once per due timer in time order, and forgets them |
| EventLoop.EventEngine.Handle | crates/akadro-engine/src/engine.rs:558-595 | Applies one account event before the strategy hears of it, first by its own callback, then routes its reaction |
| EventLoop.EventEngine.Drain | crates/akadro-engine/src/engine.rs:558-595 | Processes the sink, which reactions keep growing, to its end or to the abort |
| EventLoop.EventEngine.Sample | crates/akadro-engine/src/engine.rs:491-515 | Records the full equity at the bar's time |
| EventLoop.EventEngine.Decide | crates/akadro-engine/src/engine.rs:254-305 | A bar after its fills: market data, timers, callback, routing, drain, equity, in that order |
| EventLoop.EventEngine.Process | crates/akadro-engine/src/engine.rs:234-375 | Any feed event, in place, as the specified step |
| EventLoop.EventEngine.Run | crates/akadro-engine/src/engine.rs:196-425 | The whole run in place is the specified run, and ends with venue and portfolio in step |
| Callbacks.FinishedRunsAreTold | crates/akadro-engine/src/engine.rs:196-595 | Any strategy, every completed run: the start; per bar, what the venue made of it, then with the bar in view the due timers, the bar and what came of the answers; the stop last. Each event is told by its own callback and then the common one, with the account as the log up to it leaves it. All that was asked reaches the venue, in order and numbered on, before the next event is told; and timers wait until they are told |
| Callbacks.EveryRunIsTold | crates/akadro-engine/src/engine.rs:196-480 | The same up to any event of the feed, with everything told, applied and routed in between |
| Callbacks.AbortsExactlyWhenRunaway | crates/akadro-engine/src/engine.rs:558-595 | A drain is aborted if and only if a million events handled still leave one queued |
| Callbacks.DueFallsDue | crates/akadro-engine/src/context.rs:141-152 | A sweep tells exactly the waiting timers whose time has come, all of them, in the order of their times |
| Callbacks.MarketIsTheFeed | crates/akadro-engine/src/engine.rs:240-345 | The market a strategy sees is each instrument's bars and signals in the order of the feed, and its mark the last close |
| Callbacks.EveryRunMarksAtLastCloses | crates/akadro-engine/src/engine.rs:491-515 | Whatever the strategy, equity is marked at the last closes of the feed |
| Callbacks.RecordingChangesNothing | crates/akadro-engine/src/engine.rs:196-480 | The recorder the transcripts are read from leaves the run of the strategy as it is |
| EventLoop.FinishedInStep | crates/akadro-engine/src/engine.rs:377-425 | Every completed run ends in step |
| TradeLedger.PortfolioIsLedger | crates/akadro-engine/src/portfolio.rs:199-300 | Without liquidations the portfolio is determined by its own fill log |
| TradeLedger.FromFills | crates/akadro-analytics/src/trades.rs:127-138 | The loop with its map of positions, updated in place, yields the specified completed trades |
| TradeLedger.EpisodeTransition | crates/akadro-analytics/src/trades.rs:72-122 | The analytics' average-cost machine makes the portfolio's transition, and its profit is conserved |
| TradeLedger.ReconstructionConserves | crates/akadro-analytics/src/trades.rs:72-138 | At every prefix, completed profits plus what open episodes carry equals realized profit minus fees |
| TradeLedger.TradesEndFlat | crates/akadro-analytics/src/trades.rs:60-136 | The trades are exactly one for each fill that leaves its instrument flat, worth what was realized on it less fees since it was flat before |
| TradeLedger.TradesReconcile | crates/akadro-analytics/src/trades.rs:72-138 | On liquidation-free streams that end flat, the completed trades' profits sum to realized profit minus trading fees |
| Replay.ReplayFeed.constructor | crates/akadro-backtest/src/replay.rs:120-147 | The feed is one flat bar per saved trade, after a lead-in, in replay order |
| Replay.ReplayFeed.NextEvent | crates/akadro-backtest/src/replay.rs:149-155 | Yields the remaining bars one by one, then nothing |
| Replay.BarFillsTrade | crates/akadro-backtest/src/exchange.rs:1016-1288 | A resting market order meeting a flat bar fills whole, at the trade's price and time, with the fee recomputed |
| Replay.FillStep | crates/akadro-backtest/src/replay.rs:179-186 | The bar that carries trade k fills and books exactly trade k |
| Replay.ReplayReproduces | crates/akadro-backtest/src/replay.rs:196-218 | For any fills of positive quantity the replay through engine and venue completes, and its fills are exactly the sorted trades |
| Replay.ReplayIsIdempotent | crates/akadro-backtest/src/replay.rs:196-218 | Replaying a replay changes nothing |
| ReplayCheck.SortUnnumbered | crates/akadro-backtest/src/replay.rs:255-267 | Order ids play no part in the comparison |
| ReplayCheck.TradesCommute | crates/akadro-engine/src/portfolio.rs:199-300 | Trades on different instruments commute in the account |
| ReplayCheck.TradedSorted | crates/akadro-backtest/src/replay.rs:78-86 | Sorting time-ordered fills into replay order changes no account total |
| ReplayCheck.ReplayVerdict | crates/akadro-backtest/src/replay.rs:252-328 | Of a well-formed log the comparison reports nothing about fills and fees; it reports the realized profit exactly when no liquidation profit was booked and the fills realize another |
| ReplayCheck.DifferencesAreReported | crates/akadro-backtest/src/replay.rs:254-329 | The comparison reports a difference if and only if there is one: in a trade at its canonical place, the number of trades, the fees, or the profit when no liquidation was booked |
| RunReplay.RunLogIsWellFormed | crates/akadro-backtest/src/exchange.rs:1253-1270 | The fill log of every run over bars in time order is one the replay accepts |
| RunReplay.EveryRunReplays | crates/akadro-backtest/src/replay.rs:196-328 | For every strategy, configuration and time-ordered feed the replay of the run's report completes and compares equal, unless the run was liquidated and its liquidations booked nothing; then only the realized profit differs |
| RunReplay.LiquidationFreeRunsMatch | crates/akadro-backtest/src/replay.rs:252-328 | Every run in which nothing is liquidated matches its replay, whatever the configuration |
| Liquidations.LiquidationLoses | crates/akadro-backtest/src/exchange.rs:855-890 | At a positive threshold, with slippage and a close that are not negative, a liquidation realizes a loss |
| Liquidations.RunBooksLosses | crates/akadro-engine/src/portfolio.rs:230-247 | So over every run the booked liquidation profit is never positive, and zero if and only if nothing was liquidated |
| RunReplay.PositiveThresholdsMatch | crates/akadro-backtest/src/replay.rs:310-322 | With no threshold or a positive one, and slippage and closes that are not negative, the comparison's gate is sound and every run matches its replay |
| LiquidatedReplay.BarLiquidatesLeg | crates/akadro-backtest/src/exchange.rs:855-913 | At a threshold of zero or less, the bar that fills a unit also liquidates it at its entry |
| LiquidatedReplay.FreeLiquidationIsReported | crates/akadro-backtest/src/replay.rs:310-322 | The failing run, strategy and bars included, for every fee, slippage, impact, threshold of zero or less and every two different prices, not zero, that slippage and impact leave where they are: it was liquidated, booked nothing, and differs from its replay |
| LiquidatedReplay.MatchesExactlyAboveZero | crates/akadro-backtest/src/replay.rs:310-322 | On that venue, at any fee and any slippage and impact below 5000 basis points, every run over non-negative closes matches its replay if and only if the threshold is positive |
| Gap.Coalesce | crates/akadro-data/src/gap.rs:52-62 | Joins contiguous sorted ranges by growing the last one in place |
| Gap.MissingGaps | crates/akadro-data/src/gap.rs:35-87 | The loops compute the specified plan |
| Gap.HolesAreExact | crates/akadro-data/src/gap.rs:35-87 | The holes ascend, do not touch, lie in the window, and hold exactly the stamps of the window that are not covered |
| Gap.HolesAvoidTheCache | crates/akadro-data/src/gap.rs:35-87 | No hole meets a cached range |
| Gap.EveryStampIsPlannedOrNear | crates/akadro-data/src/gap.rs:35-87 | Every stamp of the window is in a hole or less than one bar from a cached range |
| Gap.CoveredPlansNothing | crates/akadro-data/src/gap.rs:35-87 | A covered window plans nothing |
| Gap.PlanningAgainFindsNothing | crates/akadro-data/src/gap.rs:35-87 | Planning over the cache plus its own holes plans nothing |
| Gap.OrderIsIrrelevant | crates/akadro-data/src/gap.rs:46-58 | The order in which cached ranges are listed is irrelevant |
| Manifest.InsertedChunks | crates/akadro-data/src/manifest.rs:280-296 | Recording adds exactly the new chunk, in place by start, and keeps the parallel vectors aligned |
| Manifest.RecordingStaysValid | crates/akadro-data/src/manifest.rs:303-329 | A recorded range keeps a valid series valid if and only if no single stamp, old or new, lies in or opens the other range |
| Manifest.DisjointStaysValid | crates/akadro-data/src/manifest.rs:303-329 | Ranges disjoint from what is recorded always keep it valid |
| Manifest.AcceptedButInvalid | crates/akadro-data/src/manifest.rs:281-329 | A range that starts on a single recorded stamp is accepted and then fails validation |
| Manifest.PointAcceptedButInvalid | crates/akadro-data/src/manifest.rs:281-329 | So is, and does, a single stamp strictly inside a recorded range |
| Manifest.UpdatedSeries | crates/akadro-data/src/manifest.rs:241-301 | Recording touches the one series it names |
| Manifest.Store.RecordRange | crates/akadro-data/src/manifest.rs:241-301 | Accepts or rejects exactly on overlap, inserts in place, and leaves a rejected manifest as it was |
| Manifest.Store.Validate | crates/akadro-data/src/manifest.rs:303-329 | Succeeds if and only if every series is aligned, ordered and free of overlaps |
| BarSets.AscendingIsUnique | crates/akadro-data/src/load.rs:314-327 | A strictly ascending list is determined by its bars |
| BarSets.CollectedFacts | crates/akadro-data/src/load.rs:314-327 | Sorting and deduplicating bars of one venue keeps each of them exactly once |
| CacheProtocol.RecordingKeepsTruth | crates/akadro-data/src/load.rs:216-282 | Recording a true chunk keeps every record true and backed by its file |
| CacheProtocol.PerformingStaysSafe | crates/akadro-data/src/load.rs:137-282 | Every single disk operation keeps the directory safe |
| CacheProtocol.EveryReachedStateIsSafe | crates/akadro-data/src/load.rs:137-470 | Over any run of loads, aborted fetches and crashes, every recorded chunk of bars has its file and nothing false is recorded |
| Loader.WindowCoversGap | crates/akadro-data/src/load.rs:420-428 | The millisecond window asked of the connector loses no bar at either edge of a gap |
| Loader.KeptIsTruthful | crates/akadro-data/src/load.rs:429-457 | What a fetch keeps of a gap is the venue's history there, up to the last settled bar; a fetch that silently came back with nothing keeps nothing |
| Loader.AssembledIsVisible | crates/akadro-data/src/load.rs:284-328 | No data is hidden: assembling yields, strictly ascending and without duplicates, exactly the venue's bars of the window in recorded ranges |
| Loader.NothingRecordedIsLost | crates/akadro-data/src/load.rs:137-470 | The same of the saved manifest after any run from an empty directory, crashes included |
| Loader.NextGapIsClear | crates/akadro-data/src/load.rs:404-470 | Recording one gap never blocks the next one |
| Loader.RunIsSlice | crates/akadro-data/src/incremental.rs:254-287 | A recovered journal is the venue's own slice between its first and last bar |
| Loader.WarmPlanIsEmpty | crates/akadro-data/src/load.rs:393-401 | A warm load fetches nothing: once every gap came back with a bar and the window is settled, planning it again is empty |
| Loader.EverySettledBarIsKnown | crates/akadro-data/src/load.rs:370-470 | On the bar grid, a load none of whose fetches failed silently misses no settled bar of its window |
| Loader.LoadGuarantees | crates/akadro-data/src/load.rs:370-470 | All a completed load may rely on, from what was planned and what was fetched |
| Recovery.RecoveryStaysValid | crates/akadro-data/src/load.rs:165-192 | A recovered journal keeps a valid series valid if and only if its span is refused or clashes with no single stamp |
| Recovery.AllRecoveryStaysValid | crates/akadro-data/src/load.rs:144-195 | All journals together, in whatever order: if and only if each was harmless when it came |
| Recovery.FlushedBarsResume | crates/akadro-data/src/load.rs:165-192 | The bars a journal flushed are all known afterwards if and only if its span was accepted or they were known already |
| Recovery.KnownIsNotPlanned | crates/akadro-data/src/load.rs:389-401 | What is known is not downloaded again |
| Recovery.InPlaceIsRecorded | crates/akadro-data/src/load.rs:165-192 | A journal that lies in its gap, or closes one bar after it, is always accepted when the gap is clear, and keeps a valid series valid |
| Recovery.ClippedIsInPlace | crates/akadro-data/src/load.rs:420-428 | On the grid, a connector that journals only bars of its window leaves a journal that lies so |
| Recovery.TidyRunsStayValid | crates/akadro-data/src/load.rs:137-470 | Over any run of such loads, aborts and crashes, the saved series validates in every state |
| Recovery.TidyJournalResumes | crates/akadro-data/src/load.rs:144-195 | and everything an interrupted fetch flushed is known after the next recovery |
| Recovery.StraddlingJournalSpoils | crates/akadro-data/src/load.rs:165-192 | A connector that journals pages below its window can spoil a series: from an empty directory seven operations reach one whose journal runs around a single recorded stamp; recovery accepts it, and the valid series no longer validates |
| Recovery.CrashForgetsJournal | crates/akadro-data/src/load.rs:181-194 | A crash after the journal is dropped and before the manifest is saved forgets what it had flushed |
| LoaderGrid.LoadsStayOnGrid | crates/akadro-data/src/load.rs:370-470 | A series on the bar grid stays on it, as long as windows and clock are on it |
| LoaderGrid.HiddenExactlyInSlivers | crates/akadro-data/src/load.rs:393-401 | A bar outside every recorded range is never fetched by a window if and only if it is in a sliver: less than one bar from a recorded range that meets the window, or straddled by two |
| LoaderGrid.OffGridWindowHidesABar | crates/akadro-data/src/load.rs:216-282 | And that happens: a concrete venue and first load after which a bar stays hidden from exactly the later windows that meet the verified hole |
| CacheLoader.Cache.constructor | crates/akadro-data/src/load.rs:383-391 | A safe directory as found on disk, tidy if the cache is to be regular |
| CacheLoader.Cache.Crash | crates/akadro-data/src/load.rs:137-143 | The process dies between two operations; the directory stays safe |
| CacheLoader.Cache.RegularStaysValid | crates/akadro-data/src/load.rs:370-470 | In a regular cache the saved series validates after every single disk operation of every load, so whenever the process dies |
| CacheLoader.Cache.WriteChunk | crates/akadro-data/src/load.rs:216-282 | Puts one chunk file in place by its name, and keeps all others |
| CacheLoader.Cache.Record | crates/akadro-data/src/load.rs:216-282 | Records a written chunk in the working manifest, or rejects it |
| CacheLoader.Cache.Save | crates/akadro-data/src/load.rs:445-469 | The saved manifest becomes the working one |
| CacheLoader.Cache.RecordFetchedGap | crates/akadro-data/src/load.rs:216-282 | The series grows by exactly the pieces of the gap, and no record is ever rejected |
| CacheLoader.Cache.Journal | crates/akadro-data/src/load.rs:404-437 | The journal of a gap holds everything the fetch flushed, in order |
| CacheLoader.Cache.FetchGap | crates/akadro-data/src/load.rs:404-469 | A fetch that comes to its end records exactly its pieces, none if it brought nothing, and drops the journal; an aborted one records nothing and leaves the journal with everything flushed |
| CacheLoader.Cache.RecoverOne | crates/akadro-data/src/load.rs:165-192 | One journal becomes a chunk file of the venue's own bars, recorded exactly when its span is accepted, and is dropped |
| CacheLoader.Cache.RecoverOrphans | crates/akadro-data/src/load.rs:144-195 | Every journal found is recovered once, in some order, and dropped; the series becomes exactly what recovering them in that order makes of it |
| CacheLoader.Cache.FetchAll | crates/akadro-data/src/load.rs:403-470 | Fetches the gaps in order and stops at the first aborted one, keeping what came before and that gap's journal |
| CacheLoader.Cache.Assemble | crates/akadro-data/src/load.rs:287-328 | The chunks that meet the window, sorted, deduplicated and clipped |
| CacheLoader.Cache.LoadBars | crates/akadro-data/src/load.rs:370-470 | The whole load in place: recovers, plans, fetches, assembles. The series planned over validates exactly when the journals found were harmless, and then so does the one saved; in a regular cache always. On success the recorded bars of the window with everything a completed load promises; on an abort the one journal to resume from |
| Merge.KeyDisturbsItsPath | crates/akadro-data/src/merge.rs:107-114 | Changing one key can only break the tree above its leaf |
| Merge.RootIsLeast | crates/akadro-data/src/merge.rs:102-105 | When every node is the better of its children, the root is the least (stamp, slot), exhausted last |
| Merge.TournamentTree.constructor | crates/akadro-data/src/merge.rs:64-81 | Builds a tree in which every internal node is the better of its children |
| Merge.TournamentTree.Winner | crates/akadro-data/src/merge.rs:102-105 | Returns a slot no other slot beats |
| Merge.TournamentTree.Set | crates/akadro-data/src/merge.rs:107-114 | Recomputing only the root path restores the whole tree |
| MergeSource.LeastIsEarliest | crates/akadro-data/src/merge.rs:86-105 | The tree's winner is what a linear scan for the earliest stamp finds |
| MergeSource.EachSourceIsKept | crates/akadro-data/src/merge.rs:149-179 | Nothing is lost, duplicated or reordered within a source |
| MergeSource.StreamIsInOrder | crates/akadro-data/src/merge.rs:149-179 | Over non-decreasing sources the stream never goes back in time, ties to the lower source |
| MergeSource.StreamIsUnique | crates/akadro-data/src/merge.rs:149-179 | It is the only stream in order that interleaves the sources |
| MergeSource.MergeSource.Prime | crates/akadro-data/src/merge.rs:134-145 | Buffers one head per source and builds the tree over their stamps |
| MergeSource.MergeSource.NextEvent | crates/akadro-data/src/merge.rs:149-179 | Emits the next event of the linear merge and leaves the rest of it to come |
| Extremes.DropBack | crates/akadro-indicators/src/extremes.rs:44-50 | Popping a dominated back entry loses no extreme of any later window |
| Extremes.FrontIsExtreme | crates/akadro-indicators/src/extremes.rs:42-59 | The front of the deque is the extreme of the window |
| Extremes.DequeFits | crates/akadro-indicators/src/extremes.rs:42-59 | The deque never holds more entries than the window |
| Extremes.RollingMax.Update | crates/akadro-indicators/src/extremes.rs:42-59 | Returns exactly the maximum of the last window samples, from the window-th update on |
| Extremes.RollingMin.Update | crates/akadro-indicators/src/extremes.rs:99-114 | Returns exactly the minimum of the last window samples, from the window-th update on |
| Combinations.AllCombosAreAll | crates/akadro-analytics/src/grid.rs:72-98 | The specified list holds exactly the k-combinations of 0..n |
| Combinations.AllCombosIncrease | crates/akadro-analytics/src/grid.rs:72-98 | in strictly increasing lexicographic order, so each once |
| Combinations.AllCombosCount | crates/akadro-analytics/src/grid.rs:72-98 | and there are C(n, k) of them |
| Combinations.AdvancedIsNext | crates/akadro-analytics/src/grid.rs:86-96 | Nothing lies strictly between a combination and the one it is advanced to |
| Combinations.ExhaustedIsLast | crates/akadro-analytics/src/grid.rs:86-92 | With no place left to bump, the combination is the last |
| Combinations.ComplementIsTheRest | crates/akadro-analytics/src/grid.rs:80-84 | The training set is the sorted complement of the test set |
| Combinations.Advance | crates/akadro-analytics/src/grid.rs:86-96 | Bumps in place to the next combination, or reports that there is none |
| Combinations.CombinatorialSplits | crates/akadro-analytics/src/grid.rs:72-98 | The in-place loop terminates with exactly the specified list of splits, empty for degenerate sizes |
| Decimal.ParsingTruncates | crates/akadro-core/src/decimal.rs:36-80 | Well-formed text parses to its sign times the truncated scaled value if and only if the scale is at most 38 and the value fits 64 bits |
| Decimal.ParsedIsSpelled | crates/akadro-core/src/decimal.rs:36-80 | Nothing else parses |
| Decimal.FixedSpells | crates/akadro-core/src/decimal.rs:97-117 | What is printed is well formed and spells the number |
| Decimal.RoundTrip | crates/akadro-core/src/decimal.rs:36-117 | Parsing what was printed at the same scale gives the number back if and only if the scale is at most 38 |
| Aggregation.BucketPass | crates/akadro-data/src/trades.rs:148-247 | The pass with running values emits what splitting the bars into buckets gives |
| Aggregation.AggregateBarsChecked | crates/akadro-data/src/trades.rs:148-247 | Full buckets become bars, partial ones are reported by stamp; nothing for widths that do not nest |
| AggregationLaws.BucketFits | crates/akadro-data/src/trades.rs:148-247 | A bucket never holds more bars than fit on its grid |
| AggregationLaws.BucketComposes | crates/akadro-data/src/trades.rs:148-247 | A coarse bucket gives the same bar from its fine as from its middle bars |
| AggregationLaws.AggregationComposes | crates/akadro-data/src/trades.rs:148-247 | Over unique on-grid bars of non-negative volume, fine to middle to coarse is fine to coarse |
| TradeBars.PrintPass | crates/akadro-data/src/trades.rs:51-114 | The pass over the prints with running values emits one bar per bucket |
| TradeBars.BarsFromTrades | crates/akadro-data/src/trades.rs:51-114 | Prints are bucketed in the order given, one bar a run, of which `BarMeaning.PrintedBarsSummarize` says what it holds |
| TradeBars.FullByCount | crates/akadro-data/src/trades.rs:51-247 | A bucket of time-ordered prints has as many fine bars as fit if and only if each of its sub-buckets has a print |
| TradeBars.TradeBarsCompose | crates/akadro-data/src/trades.rs:51-247 | Aggregating the fine bars of time-ordered prints gives the coarse bars of the prints on exactly the buckets in which every fine sub-bucket has a print |
| TradeBars.FullBucketsAreAll | crates/akadro-data/src/trades.rs:51-247 | and nothing is missing from them if and only if no sub-bucket of any bucket lacks a print |
| BarMeaning.AggregatedSummarizes | crates/akadro-data/src/trades.rs:148-247 | Aggregating accounts for every bar: they split in order into buckets of the grid; each full bucket is a bar with the first open, the highest high, the lowest low, the last close, the narrowed total volume and its end as stamp, and each other one is reported by its stamp |
| BarMeaning.PrintedBarsSummarize | crates/akadro-data/src/trades.rs:51-114 | Bars from prints: one a bucket, with the first, highest, lowest and last price and the narrowed total quantity of exactly its prints |
| BarMeaning.OneBucketHolds | crates/akadro-data/src/trades.rs:76-114 | An instant lies in one bucket of the grid only |

## Left out

- Integer width: integers are unbounded, so saturation of 64- and 128-bit arithmetic is not modelled, except in decimal text and where volumes are narrowed on aggregation. `AverageCost.AverageEntryBetween` shows why the one narrowing cast of the average cannot truncate.
- Solvency.CalmRunsStaySolvent: the condition on bars is sufficient and not necessary, because a fill above its reserve may still be paid for by cash that is not reserved; `FillCosts.ReserveCoversExactly` is exact for one fill.
- Recovery.TidyRunsStayValid: needs connectors that journal only bars of their window and windows, clock and bars on one grid; without them `Recovery.AllRecoveryStaysValid` is the exact condition.
- OneCancelsOther.GroupsNeverOverExecute: covers groups whose legs were all submitted before the group's first fill, because a later leg starts with nothing filled and is entitled to its own quantity.
- Loader.EverySettledBarIsKnown: needs the window, the clock and the series on the bar grid, because off it bars can stay hidden; `LoaderGrid.HiddenExactlyInSlivers` is the exact condition.
- OrderFate.DecisionIsFate: needs a bar whose open lies between its low and its high, because no other trades at prices; the same holds of all that rests on it, while the lifecycle and group lemmas hold for any bar.
- FillSafety.FillPriceBounds: says nothing of if-touched and trailing orders being inside the bar, because they fill at their trigger by design; `OrderTerms.TrailFiresAtTheOffset` gives the trailing price.
- The maker-fill generator: the draws are an arbitrary sequence of numbers.
- `validate_perp_funding`, which aborts a misconfigured run before its first bar.
- The sink an observed bar emits into is a list; the trait objects for clients, strategies and data sources are an arbitrary strategy function and an arbitrary feed.
- Asset ids and cost kinds: every cost is an amount in the quote asset, and the trigger price source of a conditional order is not represented.
- Venue commands, annotations, the map of submitted orders, `rebalance` and `replace_order`: they add no state the venue reads.
- The look-ahead brand on market views, a lifetime argument.
- Observers, report serialization and the terminal interface.
- Files: chunk files, journals and manifests are total maps replaced atomically, with no Arrow, Feather or JSON encoding; the torn tail of a journal is a prefix of the batches flushed.
- When the journal flushes: the batches flushed before an abort or a crash are an input of the fetch.
- The instrument and scale check of a chunk read back, and journals of one series whose name is a prefix of another's.
- `Manifest::record`, `plan_fetch_from` and `migrate`: appending at the end is a special case of recording anywhere.
- `load_bars_feed` and `load_bars_aggregated`, which compose modelled functions.
- The debug assertion on out-of-order children in the merge; `MergeSource.StreamIsInOrder` states what it checks.
- `run_grid`, `scale_of`, `interval_to_nanos`, walk-forward windows, instrument rounding and the averaging indicators: simple functions.
- All floating-point statistics.
- Venue connectors, sockets and rate limiting.
