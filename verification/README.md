# A verified model of the Renko trading platform

The Dafny modules here model the parts of the platform that carry state and arithmetic, and prove what
those parts promise over every input and every run.

- **Renko charting** (`Renko*`, `BrickSizeProviders`, `ProviderFacts`, `RegimeClassifier`, `PlainValue`):
  the candle-to-brick engine with its fixed, ATR, percentage and adaptive size providers, both builders, the
  snapshot codec and restore, the events on the bus, and the configuration validator against what can be built.
- **Backtesting** (`Execution`, `Ledger`, `CashBounds`, `Portfolio`, `Backtest*`, `Strategies`, `PreviousDayBreakout`,
  `Drawdown`, `AnalyticsSeries`, `CentRounding`): next-brick fills, reservations, costs, the position ledger,
  the four shipped strategies, drawdown and return series, cent rounding.
- **Paper venue** (`PaperVenue`, `PaperFacts`, `PaperSimulator`): market queue, resting book, triggers,
  reservations and order lifecycles.
- **Live trading** (`LiveFills`, `PortfolioSynchronizer`, `Oms`, `OmsEngine`): exactly-once fills and the
  order management system under an arbitrary executor and broker.
- **Market data** (`Calendar`, `Aggregation*`, `Replay`, `ReplayController`): tick aggregation against its
  batch definition, calendar buckets, and the replay cursor.
- **Pipeline** (`StageGraph`): stage ordering by depth-first search.

Most stateful components appear twice: as a class whose methods do what the code does, field by field and
loop by loop, and as a function on values that the methods are proved equal to. The theorems are about runs
of those functions, so they hold of the objects. Prices, quantities and money are `real`; times are integer
microseconds; asynchronous methods are atomic steps; clocks, random draws and what brokers, executors and
strategies answer are parameters.

Check everything with `dafny verify dfyconfig.toml`.

## Where the code does less than it says

Each of these is proved: what exactly has to hold for the promise to be kept, and an input for which it is
not.

- Metadata is configured as it comes, but only what JSON can carry can be saved: with a Decimal, a set or any
  other such object in it, or with a dictionary whose keys mix texts and numbers, a session runs and none of
  its snapshots can be written. Keys that are all numbers come back as texts
  (`RenkoResume.SavedSessionsRestore`, `RenkoResume.DecimalIsNeverSaved`, `RenkoResume.MixedKeysAreNeverSaved`,
  `RenkoResume.NumberKeyBecomesText`).
- A snapshot of a fixed or ATR engine whose configuration names an unregistered price strategy can be saved
  but never restored (`RenkoResume.UnknownStrategyNeverRestores`, `RenkoResume.UnknownStrategyExists`).
- The validator passes configurations no engine can be built from (`RenkoValidator.ValidatedBuildsIff`,
  `RenkoValidator.AtrByNamePassesUnbuilt`).
- A brick size can be zero, and planning bricks then divides by it: for an ATR on flat ranges, and for an
  adaptive provider whose ATR period is one (`ProviderFacts.SizeIsPositive`,
  `ProviderFacts.AdaptiveSizeCanBeZero`).
- The previous-day breakout never trades on the bricks of a Renko session, as none carries the levels
  (`PreviousDayBreakout.NeverTradesRenkoSessions`).
- A portfolio credits any sell. Its books stay balanced exactly when a sell hands over what is held, which is
  the only kind the backtest engine sends (`Ledger.ApplyKeepsBalancedIff`,
  `Ledger.SellFromNothingBreaksBooks`).
- A buy is refused for want of cash, an exit is not: one that costs more than it brings overdraws the account
  (`Ledger.BuyIsRefusedIff`, `CashBounds.BacktestsStayOutOfDebt`, `CashBounds.ExitCanOverdraw`).
- A fill is applied once unless it is a buy of nothing: that is paid for before it is refused, it is not
  remembered, and it is paid for again each time it is presented (`LiveFills.RepeatsChangeNothingIff`,
  `LiveFills.EmptyFillIsChargedAgain`).
- The forced close leaves the position open when the last close is not positive
  (`Backtest.ForceCloseFlattens`, `Backtest.ClosingAtZeroLeavesThePosition`).
- Month buckets span 31 days, so they reach into the next month after every shorter one
  (`Calendar.MonthEndsAtNextStartIff`, `Calendar.FebruaryReachesIntoMarch`).
- A late tick reopens a bucket that was closed, and a bucket is opened and closed once exactly when it has no
  late tick (`AggregationRuns.EveryBucketHasOneFate`, `AggregationRuns.LateTickClosesTwice`).
- A replay start keeps a looked-ahead element, which is then replayed first
  (`Replay.StartReplaysTheSourceIff`, `Replay.RestartedReplayRepeats`).
- Cancelling marks an order cancelled even when the broker answers that it is filled, and synchronizing never
  learns of a fill (`Oms.CancelAlwaysCancels`, `Oms.SynchronizeReports`).
- The analytics drawdown service raises on a curve that starts negative and falls
  or has a point dated before its peak (`AnalyticsSeries.DrawdownCurveExistsIff`,
  `AnalyticsSeries.FallingDebtIsRefused`), and compounded returns
  forget the level once equity touches zero (`AnalyticsSeries.CumulativeIsTotalReturnIff`,
  `AnalyticsSeries.ZeroForgetsTheLevel`).

## Model

| member | source | states |
|---|---|---|
| `PlainValue.JsonifyIsSafe` | `backend/app/chart/renko/serialization.py:38-48` | what comes out, at any depth, can be written as JSON exactly when no object and no key inside was foreign to JSON and no dictionary mixed keys that cannot be sorted, and is plain JSON data exactly when moreover all keys were texts |
| `PlainValue.JsonifyFixesConverted` | `backend/app/chart/renko/serialization.py:38-48` | the conversion changes nothing exactly on values without enum members, times and tuples, and there are none left in what it gives |
| `PlainValue.RereadIsSafe` | `backend/app/chart/renko/snapshot.py:113-121` | whatever can be written reads back as plain JSON data, with every key a text |
| `RenkoCodec.FillKwargs` | `backend/app/chart/renko/serialization.py:70-108` | the decoding loop keeps exactly the known fields, and fails exactly when some known field holds a text that names no enum member |
| `RenkoCodec.UnknownKeysAreIgnored` | `backend/app/chart/renko/serialization.py:83-108` | extra keys in stored data never change what is decoded |
| `RenkoCodec.ConfigurationRoundTrip` | `backend/app/chart/renko/serialization.py:111-123` | decoding an encoded configuration gives it back with its metadata converted, the adaptive thresholds as the same sequence; the encoding can be written exactly when the metadata holds nothing foreign to JSON and no unsortable keys |
| `RenkoCodec.StoredIsStable` | `backend/app/chart/renko/serialization.py:38-48` | storing a stored configuration again changes nothing, and it resolves to the same provider, builder and strategy |
| `RenkoCodec.ReloadedResolves` | `backend/app/chart/renko/snapshot.py:113-121` | a configuration that went through text resolves to the same provider, builder and strategy |
| `RenkoCodec.ReloadedIsStoredIff` | `backend/app/chart/renko/snapshot.py:113-121` | text gives back the stored metadata exactly when all its keys are texts |
| `RenkoCodec.BrickRoundTrip` | `backend/app/chart/renko/serialization.py:126-146` | decoding an encoded brick gives the same brick whenever its metadata is JSON-compatible |
| `RenkoCodec.StateRoundTrip` | `backend/app/chart/renko/serialization.py:149-154` | the same for the engine state |
| `BrickSizeProviders.AtrBrickSizeProvider.Update` | `backend/app/chart/renko/providers.py:118-131` | one candle takes the ATR fields from the old state to the one the warm-up and smoothing rules give, and a candle without prices changes nothing |
| `BrickSizeProviders.AtrBrickSizeProvider.ImportState` | `backend/app/chart/renko/providers.py:156-162` | whatever the provider held before, importing the export of one with the same parameters makes it that one; where a value does not convert it stops there, the last close already taken over and the level as it was |
| `BrickSizeProviders.PercentageBrickSizeProvider.Update` | `backend/app/chart/renko/providers.py:310-323` | one candle moves the size as the reference price, rounding and minimum give, and keeps the last size where they give none |
| `BrickSizeProviders.AdaptiveBrickSizeProvider.Update` | `backend/app/chart/renko/providers.py:493-512` | one candle updates both children, the smoothed statistic and the regime together |
| `BrickSizeProviders.AdaptiveBrickSizeProvider.ImportState` | `backend/app/chart/renko/providers.py:542-555` | it succeeds exactly on data every field and child converts from, and then the provider and both children are those of the data; the parameters stay in any case |
| `RenkoProviders.ExportImport` | `backend/app/chart/renko/providers.py:148-162` | for every kind of provider, importing an export into a freshly reset provider of the same parameters gives exactly the exporting provider back, and the export is JSON-compatible |
| `RenkoProviders.UpdateKeepsParameters` | `backend/app/chart/renko/providers.py:493-512` | no candle changes a provider's parameters or its validity |
| `RenkoProviders.BuildProviderFacts` | `backend/app/chart/renko/providers.py:593-606` | what the registry builds is valid, reset and of the names the configuration resolves; one that uses a reference strategy is built only when that name is registered |
| `RenkoValidator.BuildsIff` | `backend/app/chart/renko/providers.py:82-462` | a provider is built exactly from a configuration of a registered kind whose parameters are in order, spelled out kind by kind |
| `RenkoValidator.BuiltWithItsParameters` | `backend/app/chart/renko/providers.py:63-443` | what is built has the configuration's own parameters, the strategy it names or that of its reference price, and the documented defaults for those left out |
| `RenkoValidator.BuilderIsChosen` | `backend/app/chart/renko/configuration.py:87-103` | an engine exists exactly where a provider can be built and one of the two builders is asked for, by builder type, builder or metadata entry in this order, else the traditional one; it has that builder, unused |
| `RenkoValidator.ValidatedBuildsIff` | `backend/app/chart/renko/validator.py:38-139` | a configuration the validator passes gives an engine exactly when the parameters it does not look at are in order too: the ATR ones of a provider chosen by name, and the multiplier, upper limit and minimum behind an adaptive one |
| `RenkoValidator.BuildableIsRefusedIff` | `backend/app/chart/renko/validator.py:38-139` | the other way about: exactly which configurations an engine can be built from the validator refuses |
| `RenkoValidator.AtrByNamePassesUnbuilt` | `backend/app/chart/renko/validator.py:50-54` | a configuration that passes and gives no engine |
| `ProviderFacts.AtrWarmsUp` | `backend/app/chart/renko/providers.py:118-131` | over any run there is no ATR before `period` ranges are in, and then it is their mean |
| `ProviderFacts.TrueRangeSpans` | `backend/app/chart/renko/providers.py:112-116` | a true range spans the candle and the close before it |
| `ProviderFacts.AtrSizeBegins` | `backend/app/chart/renko/providers.py:118-137` | over any run an ATR size is there exactly once `period` candles are in, and is then the multiplier times the mean of their true ranges |
| `ProviderFacts.AtrSizeFollows` | `backend/app/chart/renko/providers.py:112-137` | each further candle moves the size by one part in `period` towards the multiplier times the widest of its own range and its two distances from the close before |
| `ProviderFacts.AtrIsAnAverage` | `backend/app/chart/renko/providers.py:118-131` | ever after, the ATR lies between the smallest and the largest range seen |
| `ProviderFacts.AtrForgets` | `backend/app/chart/renko/providers.py:118-131` | two averages fed k common ranges differ by what k steps of decay leave of their old difference |
| `ProviderFacts.FadedIsGeometric` | `backend/app/chart/renko/providers.py:118-131` | that decay is ((period - 1) / period) to the power k |
| `ProviderFacts.AtrZeroIffFlat` | `backend/app/chart/renko/providers.py:118-139` | the ATR is zero exactly when every range was zero, or, with a period of one, when the last one was |
| `ProviderFacts.PercentageSizeFacts` | `backend/app/chart/renko/providers.py:298-323` | without rounding, 100 times the size is the reference price times the percentage, or 100 times a larger minimum; with rounding it is off by less than 100, or the size is the minimum; it is positive, at least the minimum, and absent exactly for a non-positive price with no minimum |
| `ProviderFacts.PercentageRounds` | `backend/app/chart/renko/providers.py:298-323` | a rounded size is the whole number below, above or nearest to the exact percentage, ties going up, or that percentage itself where this is below one |
| `ProviderFacts.PercentageFollows` | `backend/app/chart/renko/providers.py:310-323` | a candle gives the provider the size for its reference price, and one whose price is not positive leaves it the size it had unless there is a minimum |
| `ProviderFacts.SizeIsPositive` | `backend/app/chart/renko/providers.py:134-140` | for every provider and every run of candles with high not below low, the size is never negative and is zero exactly on degenerate input |
| `ProviderFacts.AdaptiveSizeCanBeZero` | `backend/app/chart/renko/providers.py:515-523` | a concrete run on which an adaptive provider with a one-candle ATR emits size zero |
| `RegimeClassifier.ClassifierIsOrderly` | `backend/app/chart/renko/providers.py:455-486` | the classifier is idempotent, monotone in the statistic and monotone in the current regime |
| `RegimeClassifier.DetectIsNearest` | `backend/app/chart/renko/providers.py:455-486` | without a regime the thresholds alone decide; with one, the new regime is the nearest to it of those whose stretch, widened by the dead band, holds the statistic, and no other is as near |
| `RegimeClassifier.ReversalCrossesTheBand` | `backend/app/chart/renko/providers.py:455-486` | in any run, two consecutive regime switches in opposite directions are separated by a change of the statistic of more than 2h |
| `RegimeClassifier.HysteresisBoundsReversals` | `backend/app/chart/renko/providers.py:455-486` | 2h times the number of switch reversals is at most the total variation of the statistic |
| `ProviderFacts.RegimeOfRun` | `backend/app/chart/renko/providers.py:493-513` | the provider's regime after any run of candles is the classifier's over the smoothed true ranges of the candles it accepted |
| `ProviderFacts.AdaptiveRunsDoNotFlap` | `backend/app/chart/renko/providers.py:455-513` | the variation bound, for whole runs of the adaptive provider |
| `ProviderFacts.StatsFollow` | `backend/app/chart/renko/providers.py:493-513` | the smoothed statistic starts at the first true range and moves by two parts in the window and one more towards each further one |
| `ProviderFacts.AdaptiveSizeByRegime` | `backend/app/chart/renko/providers.py:488-523` | after any run an adaptive provider has a size exactly when a percentage and an ATR provider fed the same candles both have, and it is the fixed one, theirs or theirs as the regime is low, medium or high |
| `ProviderFacts.ReferenceIsNamed` | `backend/app/chart/renko/strategies.py:38-93` | the price each registered strategy name refers to, which lies within the candle's range |
| `ProviderFacts.PricesOfCandle` | `backend/app/chart/renko/strategies.py:15-35` | what a candle that omits prices is taken for, and that only one without any price is refused |
| `RenkoCharting.TraditionalRenkoEngine.ProcessMarketData` | `backend/app/chart/renko/engine.py:225-285` | one candle takes every engine field, the provider and the builder from the old state to the one the step relation gives, with the same error when it raises |
| `RenkoCharting.TraditionalRenkoEngine.GenerateBricksFromPrice` | `backend/app/chart/renko/engine.py:409-458` | the planned bricks, or the moved last price, or the division error, for any price and size |
| `RenkoCharting.TraditionalRenkoEngine.CreateBricks` | `backend/app/chart/renko/engine.py:467-520` | the climbing loop produces the ladder of bricks with its first event |
| `RenkoCharting.TraditionalRenkoEngine.AppendTraditionalBricksFast` | `backend/app/chart/renko/engine.py:288-337` | the fast loop appends the built bricks and leaves one final state |
| `RenkoCharting.TraditionalRenkoEngine.AppendBuiltBricks` | `backend/app/chart/renko/engine.py:255-285` | the builder loop appends, publishes and advances per brick as the fold of single bricks does |
| `RenkoCharting.TraditionalRenkoEngine.Configure` | `backend/app/chart/renko/engine.py:365-380` | an injected provider is kept; without one a fixed provider of a positive size is made |
| `RenkoCharting.TraditionalRenkoEngine.TakeSnapshot` | `backend/app/chart/renko/engine.py:81-107` | the snapshot is the one of the current state, built in a loop over the bricks; none before configuration |
| `RenkoCharting.TraditionalRenkoEngine.RestoreState` | `backend/app/chart/renko/engine.py:119-166` | every check and conversion in turn: a success leaves in every field, the provider and the builder what the snapshot holds, and a failure is the error of the restore relation |
| `RenkoCharting.HybridBrickBuilder.BuildBrick` | `backend/app/chart/renko/builder.py:88-99` | the sequence goes up by one and the brick carries it |
| `RenkoCharting.RestoreEngine` | `backend/app/chart/renko/snapshot.py:212-240` | a restored engine is freshly wired and equal to the one the restore relation gives, and every error is the relation's |
| `RenkoHistory.PlanShape` | `backend/app/chart/renko/engine.py:409-458` | a price makes bricks exactly when it breaks the current direction's threshold, and then exactly floor(|move| / size) contiguous bricks of that height in one direction, the last within one size of the price; a direction change needs two |
| `RenkoHistory.SessionIsConsistent` | `backend/app/chart/renko/engine.py:225-285` | in every session: the state is neutral exactly while there is no brick and otherwise has the last brick's direction; every brick moves its own way; every direction change opens at least two contiguous bricks; a bus has heard of every brick once, as opened, reversed or extended |
| `RenkoHistory.CandleEffect` | `backend/app/chart/renko/engine.py:225-285` | each further candle of any session adds, where the anchor is set, the price is there and the provider has a positive size, no brick or one whole climb of exactly floor(|move| / size) bricks, announces exactly those, and leaves the session at the last one's close, going its way, or else at the price; in every other case it adds and announces none and at most sets the anchor at the price |
| `RenkoHistory.LastPriceFollows` | `backend/app/chart/renko/engine.py:269-337` | after every candle of any session that can make bricks, the state has the candle's brick size and its last price lies less than one brick from the price charted |
| `RenkoHistory.AnchorIsCharted` | `backend/app/chart/renko/engine.py:398-407` | the first candle charted with a size makes no brick: the session then stands at its price, neutral, open and with that size |
| `RenkoHistory.NothingMoves` | `backend/app/chart/renko/engine.py:225-253` | a candle that cannot make bricks and sets no anchor leaves a started session where it was |
| `RenkoEvents.SessionReports` | `backend/app/chart/renko/engine.py:225-285` | in every session, whatever its candles, the state's record holds the moment it began, then the anchor price, then the last brick's id and direction; and a bus has heard of the i-th brick with the count i, with the brick unless it opened the chart, and with the state at the brick's open that recalls the brick before |
| `RenkoEvents.SizesAreAnnounced` | `backend/app/chart/renko/engine.py:339-353` | on a bus each candle that leaves the provider with a size announces it, charted or not, exactly when it is not the size announced last; nothing else does |
| `RenkoEvents.ConfiguringAnew` | `backend/app/chart/renko/engine.py:365-380` | configuring again fails exactly without an injected provider and a positive size, leaving the new configuration in place; otherwise the engine keeps what it has charted, goes neutral and closed, and announces its next size even if it was announced before |
| `RenkoBricks.SessionIsNumbered` | `backend/app/chart/renko/builder.py:31-99` | in every session each brick names the configured size and price source and has an id made of its own direction, time and prices; a hybrid builder numbers them 1, 2, 3 and so on, in id and metadata |
| `RenkoBricks.IdsAgreeIff` | `backend/app/chart/renko/builder.py:42-45` | two such ids are equal exactly when direction, time and both prices in hundred-thousandths are |
| `RenkoBricks.TicksOfPrice` | `backend/app/chart/renko/builder.py:42-45` | a price in hundred-thousandths is cut off towards zero |
| `RenkoCodec.ChartedPrice` | `backend/app/chart/renko/engine.py:385-396` | the price charted under each stored price source, the typical one being a third of high, low and close, and the candles that do not have it |
| `RenkoFastPath.FastPathRefinesBuilderPath` | `backend/app/chart/renko/engine.py:255-337` | for every configuration and candle sequence, the engine without a bus and the one with a bus end with equal histories, states, builders and providers and equal outcomes; the first publishes nothing |
| `RenkoSnapshot.SerializeRoundTrip` | `backend/app/chart/renko/snapshot.py:113-121` | an engine state is written exactly when it holds nothing foreign to JSON and no unsortable keys, and reads back as JSON reads it; a JSON-compatible one comes back as it is |
| `RenkoSnapshot.SnapshotIsWritableIff` | `backend/app/chart/renko/snapshot.py:113-121` | the snapshot of any session can be written exactly when the configured metadata can, which is all that could keep it from being |
| `RenkoSnapshot.RestoreSnapshot` | `backend/app/chart/renko/snapshot.py:221-240` | restoring the snapshot of a running engine gives the engine back exactly when its strategy name is registered, and is refused as incompatible otherwise |
| `RenkoSnapshot.SnapshotOfRestored` | `backend/app/chart/renko/engine.py:81-107` | the snapshot of what a snapshot restores is the same snapshot |
| `RenkoSnapshot.SnapshotSays` | `backend/app/chart/renko/engine.py:81-107` | a snapshot is of schema version 1 and a traditional engine, holds every brick and counts them |
| `RenkoSnapshot.ForeignSnapshotsAreRefused` | `backend/app/chart/renko/snapshot.py:124-168` | what is restored has the configuration the snapshot stores, with a registered provider, strategy and builder; another schema version is refused before another engine type is |
| `RenkoSnapshot.LiveEngineRefusesIff` | `backend/app/chart/renko/engine.py:119-149` | a live engine refuses a stored configuration as incompatible exactly when that asks for a provider of another kind, a percentage of another price, or another builder |
| `RenkoResume.ResumeDeterminism` | `backend/app/chart/renko/engine.py:81-166` | for every configuration and every split of a candle stream: a save after the prefix succeeds exactly when the configured metadata holds nothing foreign to JSON and no unsortable keys, and then restoring into fresh components and processing the suffix gives the uninterrupted run's history, state, builder, provider and subsequent events; the restored engine's snapshot is the one that was read, and the one that was saved exactly when all metadata keys were texts |
| `RenkoResume.SavedSessionsRestore` | `backend/app/chart/renko/engine.py:109-117` | saving succeeds exactly when the configured metadata holds nothing foreign to JSON and no unsortable keys; restoring what was saved succeeds exactly when the strategy is registered |
| `RenkoResume.DecimalIsNeverSaved` | `backend/app/chart/renko/serialization.py:38-48` | with a Decimal in its metadata a session runs, and no point of it can be saved |
| `RenkoResume.MixedKeysAreNeverSaved` | `backend/app/chart/renko/snapshot.py:113-114` | nor can metadata with a number and a text as keys be saved: writing sorts them |
| `PlainValue.SortableIff` | `backend/app/chart/renko/snapshot.py:113-114` | the keys of a dictionary can be sorted exactly when they are all texts, or all numbers and booleans, or null alone |
| `RenkoResume.SnapshotsAgreeIff` | `backend/app/chart/renko/snapshot.py:113-121` | the reopened engine's snapshot is the old one exactly when all keys of its metadata were texts |
| `RenkoResume.NumberKeyBecomesText` | `backend/app/chart/renko/snapshot.py:113-121` | metadata with the key 1 comes back with the key '1' |
| `RenkoResume.UnknownStrategyNeverRestores` | `backend/app/chart/renko/snapshot.py:124-168` | the failing family: a fixed or ATR configuration naming an unregistered strategy runs, and saves like any other, but is never restored |
| `RenkoResume.UnknownStrategyExists` | `backend/app/chart/renko/snapshot.py:124-168` | a member of that family |
| `Execution.ExecuteFacts` | `backend/app/trading/execution/executor.py:33-50` | an order fills in full at a positive reference price and is rejected otherwise; nothing else of it changes; with non-negative slippage no fill beats the reference |
| `Execution.FillIsPriced` | `backend/app/trading/execution/executor.py:33-50` | how far each slippage model moves the price against the order, what each brokerage model charges on the notional or quantity filled, and when the fill is dated |
| `Portfolios.Position.OpenLong` | `backend/app/trading/execution/position.py:84-102` | the fields after opening or scaling in; a quantity that is not positive is refused and changes nothing |
| `Portfolios.Position.Close` | `backend/app/trading/execution/position.py:104-133` | the position is flat afterwards and the trade carries the whole round trip; a flat one yields none |
| `Portfolios.Portfolio.Reserve` | `backend/app/trading/portfolio/portfolio.py:56-57` | reservations only grow, by a non-negative amount |
| `Portfolios.Portfolio.Release` | `backend/app/trading/portfolio/portfolio.py:59-61` | releases never take the reserved capital below zero |
| `Ledger.ReservationComesBack` | `backend/app/trading/portfolio/portfolio.py:56-60` | releasing takes away no more than is reserved and undoes a reservation; negative amounts do neither |
| `Portfolios.Portfolio.ApplyOrder` | `backend/app/trading/portfolio/portfolio.py:66-95` | the whole new account, trade and order status after any fill, in place, and whether it raises: a buy of nothing does, after it has been paid for |
| `Ledger.RaisesIff` | `backend/app/trading/portfolio/portfolio.py:76-90` | applying an order raises exactly on a buy of a quantity that is not positive whose notional and cost the cash covers to a billionth |
| `Ledger.BuyIsRefusedIff` | `backend/app/trading/portfolio/portfolio.py:66-90` | a filled buy is refused, with nothing moved but its reservation, exactly when price times quantity and the cost are more than the cash and a billionth; otherwise it is paid for in full and no debt beyond that billionth is left |
| `Ledger.SellIsCredited` | `backend/app/trading/portfolio/portfolio.py:87-95` | a filled sell is credited with its notional less its cost, whatever the cash |
| `Ledger.CashFloor` | `backend/app/trading/portfolio/portfolio.py:66-95` | no order leaves less cash than there was, or than a debt of a billionth, but for what a sell costs beyond what it brings |
| `CashBounds.BarsStayCovered` | `backend/app/trading/backtesting/engine.py:132-152` | at every brick of every backtest, under any cost model and prices, cash is at most a billionth below zero, or below a negative start, but for what the closed trades' exits cost beyond what they brought |
| `CashBounds.BacktestsStayOutOfDebt` | `backend/app/trading/backtesting/engine.py:132-152` | hence a backtest in which no exit cost more than it brought never owes more than a billionth |
| `CashBounds.ExitCanOverdraw` | `backend/app/trading/portfolio/portfolio.py:87-95` | an exit that does: sold for 1 at a commission of 5, and the account owes 4 |
| `CashBounds.PaperStaysCovered` | `backend/app/trading/paper/simulator.py:82-193` | whatever is submitted, cancelled and quoted, the same bound holds for a paper account over the sells reported filled |
| `Portfolios.Portfolio.Mark` | `backend/app/trading/portfolio/portfolio.py:97-103` | one equity point is appended |
| `Ledger.OpenLongInvests` | `backend/app/trading/execution/position.py:84-102` | opening or scaling in adds exactly the fill's notional and cost to what the position cost |
| `Ledger.CloseRealizes` | `backend/app/trading/execution/position.py:104-125` | closing realises proceeds minus everything the position cost, and the trade's figures agree |
| `Ledger.ApplyKeepsBalancedIff` | `backend/app/trading/portfolio/portfolio.py:66-95` | applying an order keeps the books balanced exactly when a sell hands over what is held: any other sell is credited all the same |
| `Ledger.SellFromNothingBreaksBooks` | `backend/app/trading/portfolio/portfolio.py:88-95` | a flat new account credited with a sell of nothing held |
| `BacktestEngines.BacktestEngine.Run` | `backend/app/trading/backtesting/engine.py:132-176` | the loop over bricks, the cancelled last order and the forced close leave the portfolio the run relation gives |
| `BacktestEngines.BacktestEngine.OrderFromSignal` | `backend/app/trading/backtesting/engine.py:84-109` | an entry is sized and reserved, an exit sells exactly the holding, anything else asks for nothing |
| `Backtest.EntrySpendsItsFraction` | `backend/app/trading/backtesting/engine.py:84-102` | an entry waits exactly when nothing is held and there is something to spend, and its notional is the fraction of the leveraged free cash, or its quantity the fixed one; that much is reserved |
| `Backtest.ExitSellsTheHolding` | `backend/app/trading/backtesting/engine.py:103-109` | an exit waits exactly where a position is open and sells all of it; sell and hold signals change nothing |
| `Backtest.TermsAreKept` | `backend/app/trading/backtesting/engine.py:132-152` | a run keeps the capital and the leverage it began with |
| `Backtest.BooksBalanceAtEveryBrick` | `backend/app/trading/backtesting/engine.py:132-152` | at every brick of every run cash is starting capital plus realised net P&L minus what the open position cost, and the reservation is the pending buy's |
| `Backtest.EquityMatchesTrades` | `backend/app/trading/backtesting/engine.py:132-176` | for every signal sequence, cost model and price series, equity-curve P&L and the trades' net P&L differ by exactly what the remaining position is worth above its cost |
| `Backtest.BacktestBooksBalance` | `backend/app/trading/backtesting/metrics.py:82-93` | with a forced close at a positive price total P&L is the sum of the trades' net P&L, and that is gross P&L minus all brokerage |
| `Backtest.ForceCloseFlattens` | `backend/app/trading/backtesting/engine.py:158-166` | the forced close leaves a position exactly when one was held and the last close is not positive |
| `Backtest.ClosingAtZeroLeavesThePosition` | `backend/app/trading/backtesting/engine.py:158-166` | a run of three bricks, the last at zero, that is closed by force and still holds |
| `BacktestTrades.TradesAreOrdered` | `backend/app/trading/backtesting/engine.py:132-166` | effective fills alternate buy and sell; an unforced one comes on the brick after its signal at that brick's close; trades are the fills in pairs, on ordered, non-overlapping bar ranges; only the last fill is ever forced |
| `BacktestCoupling.StrategyAndLedgerStayCoupled` | `backend/app/trading/backtesting/engine.py:91-152` | with positive closes and no risk rules, after every brick: an open position without a pending exit means the strategy is long, a pending entry that it is long, a pending exit that it is flat |
| `BacktestCoupling.ShippedStrategiesStayCoupled` | `backend/app/trading/strategy/pdh_pdl_breakout.py:89-114` | that holds for all four shipped strategies: the trend one, the two EMA ones, and the previous-day breakout over any mixture of bars and bricks |
| `Strategies.RenkoTrendStrategy.OnBrick` | `backend/app/trading/strategy/renko_trend.py:44-76` | streak, direction, stance and answer after one brick; the answer is an entry from flat or an exit to flat |
| `Strategies.EmaCrossoverStrategy.OnBrick` | `backend/app/trading/strategy/ema_crossover.py:48-80` | average, stance and answer after one brick, under the same discipline |
| `Strategies.CrossIsDisciplined` | `backend/app/trading/strategy/ema_trend.py:54-94` | every run of answers, and the EMA trend strategy's on bricks or bars, enters from flat and exits to flat |
| `PreviousDayBreakout.PdhPdlBreakoutStrategy.OnMarketData` | `backend/app/trading/strategy/pdh_pdl_breakout.py:58-114` | both session ranges, stance and answer after one bar |
| `PreviousDayBreakout.PdhPdlBreakoutStrategy.OnBrick` | `backend/app/trading/strategy/pdh_pdl_breakout.py:66-74` | the same after one brick, which may bring the levels along |
| `PreviousDayBreakout.BreakoutIsDisciplined` | `backend/app/trading/strategy/pdh_pdl_breakout.py:89-114` | over any mixture of bars and bricks its entries are from flat and its exits to flat |
| `PreviousDayBreakout.LevelsArePreviousSession` | `backend/app/trading/strategy/pdh_pdl_breakout.py:79-87` | over any run of bars the levels in use are the highest high and the lowest low of the session before the current one, and there are none in the first session |
| `PreviousDayBreakout.EntersOutsideYesterday` | `backend/app/trading/strategy/pdh_pdl_breakout.py:89-112` | from flat it buys exactly when a bar closes by more than the buffer above every high of the session before the bar's own, and otherwise sells exactly when it closes by more than the buffer below every low of it |
| `PreviousDayBreakout.BricksBringLevels` | `backend/app/trading/strategy/pdh_pdl_breakout.py:66-74` | a brick with both levels as numbers in its metadata replaces those in use and is judged by its close against them; any other is judged against those in use |
| `PreviousDayBreakout.NeverTradesRenkoSessions` | `backend/app/trading/strategy/pdh_pdl_breakout.py:66-91` | no brick of any Renko session carries the levels: on the bricks of any session the strategy only holds, and its backtest places no order |
| `Strategies.SignalsAlternate` | `backend/app/trading/strategy/renko_trend.py:60-76` | answers other than hold alternate entry and exit, beginning with an entry |
| `Strategies.StreakCounts` | `backend/app/trading/strategy/renko_trend.py:44-55` | the streak is exactly how long the directed bricks have all gone the last one's way |
| `Strategies.EntersAfterATrend` | `backend/app/trading/strategy/renko_trend.py:60-67` | after any bricks it buys, or sells, exactly when flat with at least the configured number of bricks in a row up, or down, the present one included, and leaves a position exactly on the first brick against it |
| `Strategies.EmaIsSeeded` | `backend/app/trading/indicators/ema.py:24-33` | the average waits for exactly `period` closes, and `period` times the first average is the last of their running sums |
| `Strategies.EmaFollows` | `backend/app/trading/indicators/ema.py:32-33` | each further close moves it by two parts in `period` and one more towards the close |
| `Strategies.CrossesItsAverage` | `backend/app/trading/strategy/ema_crossover.py:48-80` | after any closes it buys, sells or leaves exactly when there is an average, the close taken in, on whose other side the close lies |
| `Drawdown.BacktestDrawdown` | `backend/app/trading/backtesting/metrics.py:48-59` | the one-pass amount is the largest fall from any value to a later one, and the percentage is that fall over the peak it first fell from |
| `Drawdown.ResearchDrawdown` | `backend/app/trading/backtesting/research/metrics.py:128-149` | the same amount and percentage, and the duration is the longest run strictly below the running peak |
| `Drawdown.DrawdownIsDetermined` | `backend/app/trading/backtesting/metrics.py:48-59` | the two contracts admit one answer, so both implementations agree on every series |
| `AnalyticsSeries.DrawdownCurve` | `backend/app/analytics/domain/services.py:206-231` | one point per equity point, measured from where the running peak was first reached; it raises exactly when some point fails its own validation |
| `AnalyticsSeries.PeakIsFirstMaximum` | `backend/app/analytics/domain/services.py:211-215` | the running peak is the first place of the maximum so far, and the only such place |
| `AnalyticsSeries.DrawdownCurveExistsIff` | `backend/app/analytics/domain/value_objects.py:344-356` | the service succeeds exactly when no point is dated before the peak it is measured from, as none is on a curve in order of time, and equity that has been negative from the start never falls |
| `AnalyticsSeries.FallingDebtIsRefused` | `backend/app/analytics/domain/value_objects.py:344-356` | a curve from -100 to -200, which it refuses |
| `AnalyticsSeries.DrawdownIsAFraction` | `backend/app/analytics/domain/value_objects.py:335-376` | on positive equity a drawdown lies above -1 and is zero exactly at the peak |
| `AnalyticsSeries.ReturnSeries` | `backend/app/analytics/domain/services.py:237-268` | one return per step, zero where the previous value is zero |
| `AnalyticsSeries.Cumulative` | `backend/app/analytics/domain/value_objects.py:440-448` | the loop compounds the returns |
| `AnalyticsSeries.CumulativeIsTotalReturnIff` | `backend/app/analytics/domain/value_objects.py:440-448` | compounding a curve's returns gives the return from its first to its last value exactly when no value before the last is zero, or the last is |
| `AnalyticsSeries.ZeroForgetsTheLevel` | `backend/app/analytics/domain/value_objects.py:440-448` | 100, 0, 50: a series that ends at a loss of everything where half is left |
| `CentRounding.RoundingNeverTripsValidator` | `backend/app/analytics/domain/services.py:351-379` | for all exact net P&L and costs, rounding net, gross, commission and slippage to cents one by one leaves the recomputed net within one cent, so the consistency check passes; the sign checks pass for costs that are not negative |
| `CentRounding.OneCentIsReached` | `backend/app/analytics/domain/value_objects.py:701-716` | a snapshot that uses up the whole tolerance |
| `CentRounding.RoundingError` | `backend/app/analytics/domain/value_objects.py:42-55` | half-up rounding is off by at most half a cent and keeps the sign |
| `LiveFills.FillsApplyOnce` | `backend/app/trading/portfolio/synchronizer.py:43-85` | after any presentations with repeats, whatever the orders: each fill is remembered once presented exactly when no new, affordable buy of nothing was among them, and then cash, reservations, position, trades and costs are the plain ledger's over the first occurrence of each fill, and the remembered keys are exactly those presented; orders are recorded once each in any case |
| `LiveFills.KeysAgreeIff` | `backend/app/trading/portfolio/synchronizer.py:76-85` | two fills have one key exactly when both carry the same non-empty id, or neither carries one and they agree in broker id (or "local"), order id, side, time, price and quantity |
| `LiveFills.NewFillIsApplied` | `backend/app/trading/portfolio/synchronizer.py:43-57` | after any presentations, raising ones included, a fill that differs in that from every earlier one is applied to the portfolio |
| `LiveFills.RepeatsChangeNothing` | `backend/app/trading/portfolio/synchronizer.py:43-60` | when nothing raises, presenting with repeats and presenting only first occurrences leave the same portfolio and memory |
| `LiveFills.RepeatsChangeNothingIff` | `backend/app/trading/portfolio/synchronizer.py:43-57` | after any presentations, presenting any of them again changes nothing at all exactly when none of them is an unremembered buy of nothing that costs something |
| `LiveFills.PositiveFillsNeverRaise` | `backend/app/trading/portfolio/synchronizer.py:43-57` | orders without buys of nothing never raise, whatever the portfolio |
| `LiveFills.EmptyFillIsChargedAgain` | `backend/app/trading/portfolio/portfolio.py:83-90` | a buy filled for nothing at a cost of 5 costs 10 once it has been presented twice |
| `LiveFills.FirstIdsAreDistinct` | `backend/app/trading/portfolio/synchronizer.py:62-65` | no order id is recorded twice |
| `LiveFills.ScaleInsKeepNotional` | `backend/app/trading/execution/position.py:84-102` | over any run of fills from flat, average price times quantity is the summed notional of the buys accepted since the last sell |
| `LiveFills.LivePositionIsItsBuys` | `backend/app/trading/portfolio/synchronizer.py:43-85` | the same through the synchronizer, repeats included |
| `PortfolioSynchronizers.PortfolioSynchronizer.ApplyOrder` | `backend/app/trading/portfolio/synchronizer.py:43-57` | one presentation, in place: applied exactly for a filled order with an unseen key, raising exactly for an affordable buy of nothing, whose debit stands |
| `PortfolioSynchronizers.PortfolioSynchronizer.ApplyOrders` | `backend/app/trading/portfolio/synchronizer.py:59-60` | a batch is its presentations in order, up to and with the first that raises |
| `PaperSimulator.ExchangeSimulator.Submit` | `backend/app/trading/paper/simulator.py:82-138` | an id is used up by every submission; a bad quantity is reported, a bad price raises, and otherwise the order is reserved, recorded and queued or rested |
| `PaperSimulator.ExchangeSimulator.Cancel` | `backend/app/trading/paper/simulator.py:141-150` | exactly the open order with that id leaves its book and gives back its reservation; otherwise nothing changes |
| `PaperSimulator.ExchangeSimulator.OnMarketData` | `backend/app/trading/paper/simulator.py:153-193` | queue, triggered orders and immediate-or-cancel orders are settled in this order, the events list every transition in order, and the portfolio is marked |
| `PaperSimulator.PendingOrderManager.Match` | `backend/app/trading/paper/pending.py:60-74` | the triggered tickets leave the book in ascending order, each with its own price, and the others stay |
| `PaperFacts.ReservationsAreExact` | `backend/app/trading/paper/simulator.py:94-175` | after any interleaving of submissions, accepted, rejected or raising, cancellations and quotes, the reserved capital is exactly what the open orders hold |
| `PaperFacts.ReleaseNeverClamps` | `backend/app/trading/portfolio/portfolio.py:59-61` | hence the clamp at zero never acts: freeing any open order subtracts exactly what it holds |
| `PaperFacts.EveryOrderHasOneFate` | `backend/app/trading/paper/simulator.py:94-193` | in every run each id is accepted at most once, and an accepted order is in exactly one of the market queue, the resting book or the ended orders, which it enters at most once |
| `PaperFacts.RestsUntil` | `backend/app/trading/paper/pending.py:60-74` | a resting order keeps resting exactly until cancelled or until a quote: any quote for immediate-or-cancel, the first that triggers it for good-til-cancelled |
| `PaperFacts.QuoteClearsTheBook` | `backend/app/trading/paper/simulator.py:153-193` | after a quote no market order waits, nothing immediate rests and nothing resting triggers on it; nothing else leaves |
| `PaperFacts.QuoteIsMarked` | `backend/app/trading/paper/simulator.py:153-176` | a quote adds one point to the equity curve, at its own time and price |
| `PaperFacts.QuotesAreCounted` | `backend/app/trading/paper/simulator.py:153-176` | the bar the venue stands at counts its quotes |
| `PaperFacts.MatchedEndAtTheirPrice` | `backend/app/trading/paper/simulator.py:153-184` | every matched order ends, market orders at the quote's price and the others at their own limit or stop, with its trigger reported first; the price reported and the one executed are that one |
| `PaperFacts.NoTouchIsMissed` | `backend/app/trading/paper/pending.py:76-96` | a resting order triggers exactly when the quote's range has reached its level from its own side, and at that level |
| `PaperFacts.ReservationIsTheCost` | `backend/app/trading/paper/simulator.py:123-138` | without slippage and commission a limit or stop buy costs exactly what it reserved, so available capital does not move when it fills |
| `PaperFacts.MarketReservation` | `backend/app/trading/paper/simulator.py:123-138` | a market buy holds the last quote's price times its quantity, and nothing without a positive one; a sell holds nothing |
| `PaperFacts.QueuedUntil` | `backend/app/trading/paper/simulator.py:141-193` | a queued market order waits exactly until it is cancelled or until the next quote |
| `PaperFacts.AcceptedOrdersWait` | `backend/app/trading/paper/simulator.py:123-138` | from its acceptance on, at any point of any run, an order waits in the queue or in the book by its kind exactly as long as the operations that follow spare it |
| `PaperFacts.SubmissionFate` | `backend/app/trading/paper/simulator.py:82-138` | which requests are rejected, which raise and which are accepted, the order that is reported, at its own price or the last quote's, and that an id is used up each time |
| `PaperFacts.CancelReports` | `backend/app/trading/paper/simulator.py:141-150` | cancelling takes effect exactly when an order of that id waits, and reports that order cancelled |
| `StageGraph.Traversal.Visit` | `backend/app/pipeline/graph.py:23-30` | the recursive search terminates on any graph, visits the stage, keeps what was finished, and leaves every finished stage's targets visited, finished earlier if there is no cycle |
| `StageGraph.ProcessingGraph.GetOrderedStages` | `backend/app/pipeline/graph.py:19-34` | every registered stage exactly once, whatever the edges; and every edge's source before its target exactly when the graph is acyclic |
| `StageGraph.ProcessingGraph.AddEdge` | `backend/app/pipeline/graph.py:14-17` | an edge is added, after those already there, exactly when both ends are registered |
| `Calendar.AlignIsFloor` | `backend/app/engines/aggregation/aggregator.py:16-41` | for every timeframe but the month, resetting the fields is rounding down to a multiple of the width counted from a Monday midnight |
| `Calendar.AlignContains` | `backend/app/engines/aggregation/aggregator.py:16-62` | for every timeframe a moment lies at or after its bucket's start and before its end |
| `Calendar.AlignIsIdempotent` | `backend/app/engines/aggregation/aggregator.py:16-41` | a start is its own start |
| `Calendar.AlignIsMonotone` | `backend/app/engines/aggregation/aggregator.py:16-41` | later moments have later or equal starts |
| `Calendar.BucketsTile` | `backend/app/engines/aggregation/aggregator.py:16-62` | for every timeframe but the month two buckets are equal or disjoint and a bucket's end is the next start |
| `Calendar.MonthEndsAtNextStartIff` | `backend/app/engines/aggregation/aggregator.py:38-62` | a month bucket ends at the next month's start exactly in months of 31 days, and reaches into the next bucket after every shorter one |
| `Calendar.YearsBegin` | `backend/app/engines/aggregation/aggregator.py:38-41` | the months are the Gregorian ones: before year y + 1 lie 365 y days and one for every fourth year, less every hundredth, but for every four-hundredth |
| `Calendar.MonthsBegin` | `backend/app/engines/aggregation/aggregator.py:38-41` | and within a year they begin where they do in any year, a day later from March on in a leap year |
| `Calendar.FebruaryReachesIntoMarch` | `backend/app/engines/aggregation/aggregator.py:38-62` | the first February's bucket ends three days into March |
| `AggregationRuns.EveryCandleIsItsTicks` | `backend/app/engines/aggregation/aggregator.py:74-118` | in every run, in whatever order and for every timeframe, each closed candle, and each open one so far, is the first price, the highest, the lowest, the price of the earliest-arriving tick with the latest timestamp, the volume sum and the count of the distinct in-session ticks since the bucket was last closed |
| `AggregationRuns.EveryBucketHasOneFate` | `backend/app/engines/aggregation/engine.py:27-50` | a bucket with ticks is opened once, updated once per further distinct tick and either open or closed exactly once, and one without leaves no event, exactly when no tick of it arrives after an operation, itself after an earlier tick of it, whose time is at or past the bucket's end |
| `AggregationRuns.StreamingIsBatch` | `backend/app/engines/aggregation/aggregator.py:74-118` | and then its candle is that of all its in-session ticks, each counted once |
| `AggregationRuns.TimelyIsNeverLate` | `backend/app/engines/aggregation/aggregator.py:74-118` | operations in order of their times bring no such tick |
| `AggregationRuns.OneOpenBucketPerSymbol` | `backend/app/engines/aggregation/aggregator.py:74-118` | for operations in order of time and every timeframe but the month at most one bucket is open per symbol and exchange |
| `AggregationRuns.LateTickReopens` | `backend/app/engines/aggregation/aggregator.py:74-94` | a tick whose bucket is not open, even if it was closed before, opens a bucket of that tick alone |
| `AggregationRuns.LateTickClosesTwice` | `backend/app/engines/aggregation/aggregator.py:74-118` | trades at 0 s, 60 s and, late, 30 s: the first minute is closed twice, each time with a candle of one trade |
| `AggregationFacts.CandleIsValid` | `backend/app/domain/market_data/models.py:60-66` | such a candle always passes the candle's own validation |
| `AggregationFacts.BuildIsBatch` | `backend/app/engines/aggregation/builder.py:9-42` | folding the builder over distinct ticks gives their batch candle |
| `AggregationEngines.AggregationState.Update` | `backend/app/engines/aggregation/builder.py:28-42` | a tick seen before changes nothing; another updates the state in place |
| `AggregationFacts.SignaturesAgreeIff` | `backend/app/engines/aggregation/models.py:36-45` | two ticks have one signature exactly when symbol, exchange, timestamp, price, size, bid and ask are equal |
| `AggregationRuns.DifferentTicksBothCount` | `backend/app/engines/aggregation/aggregator.py:74-94` | in any run two in-session ticks of one open bucket that differ in one of these both count in its candle, in trades and volume |
| `AggregationRuns.HitsIff` | `backend/app/engines/aggregation/aggregator.py:74-85` | which ticks a bucket gets: those of its symbol and exchange whose timestamp falls in it and whose time of day lies in the session |
| `AggregationEngines.TickAggregator.IngestTick` | `backend/app/engines/aggregation/aggregator.py:74-94` | the open states and the reported ones after a tick, objects updated in place |
| `AggregationFacts.IngestReportsClosings` | `backend/app/engines/aggregation/aggregator.py:74-94` | besides what it opens or updates a tick in session reports as closed exactly the buckets whose end it has reached |
| `AggregationEngines.TickAggregator.ClosePending` | `backend/app/engines/aggregation/aggregator.py:111-118` | exactly the states whose end has passed are closed, dropped and returned, in order |
| `AggregationEngines.TickAggregator.CloseSession` | `backend/app/engines/aggregation/aggregator.py:96-109` | exactly the ended states of the exchange and day are |
| `AggregationEngines.AggregationEngine.ProcessTick` | `backend/app/engines/aggregation/engine.py:27-40` | closings are published first, then what the tick opened or updated |
| `Replay.StreamsAreConserved` | `backend/app/engines/replay/controller.py:97-193` | under any interleaving of steps, pauses, resumes, stops and speed changes, what was published followed by the looked-ahead element and the unread rest never changes, for ticks and for candles |
| `Replay.SeekReplaysTheSource` | `backend/app/engines/replay/controller.py:88-95` | from any seek until the next start, restart or seek that is exactly the source's stream |
| `Replay.StartReplaysTheSourceIff` | `backend/app/engines/replay/controller.py:52-60` | from a start it is the source's stream exactly when nothing was buffered: a start keeps the lookahead |
| `Replay.RestartedReplayRepeats` | `backend/app/engines/replay/controller.py:52-60` | start, step, stop, start over two ticks: the second is ahead twice, and first |
| `Replay.CompletesAtMostOnce` | `backend/app/engines/replay/controller.py:144-151` | between starts at most one completion is published, and after it no step succeeds |
| `Replay.StreamCompletesOnce` | `backend/app/engines/replay/controller.py:97-151` | stepping a running replay through all its ticks, or all its candles, in any interleaving, completes it and publishes that exactly once |
| `Replay.CompletedRunKeepsQuiet` | `backend/app/engines/replay/controller.py:144-151` | a completed or stopped replay publishes no element and no completion, seeks included |
| `Replay.TickStepFacts` | `backend/app/engines/replay/controller.py:97-115` | a step publishes exactly the next element, and completes exactly when nothing is left or the session's end is reached |
| `Replay.CursorIsPlaced` | `backend/app/engines/replay/controller.py:52-95` | a seek puts the session at the time asked for, or at the end it lies beyond, and says so; a start that is not ignored, and any restart, put it at its start and running |
| `Replay.SpeedIsChanged` | `backend/app/engines/replay/controller.py:137-142` | changing the speed changes nothing else, and is announced when it is another |
| `ReplayControllers.ReplayController.Start` | `backend/app/engines/replay/controller.py:52-60` | a running replay ignores it; otherwise both sources are reopened at the start |
| `ReplayControllers.ReplayController.Restart` | `backend/app/engines/replay/controller.py:83-86` | a stop, a reset and a start |
| `ReplayControllers.ReplayController.Seek` | `backend/app/engines/replay/controller.py:88-95` | time is clamped, sources reopened and lookahead dropped |
| `ReplayControllers.ReplayController.StepTick` | `backend/app/engines/replay/controller.py:97-115` | refused unless running, with nothing changed |
| `ReplayControllers.ReplayController.StepCandle` | `backend/app/engines/replay/controller.py:117-135` | the same for candles |
| `Oms.RunsAreOrderly` | `backend/app/trading/oms/engine.py:58-176` | under any signals, verdicts, executor outcomes and broker replies: ids are 1..n, each order has exactly one decision, the executor was handed exactly the passed ones, once and in order, and refused ones are rejected |
| `Oms.HandedIffPassed` | `backend/app/trading/oms/engine.py:140-176` | an order reaches the executor exactly when its decision passed |
| `Oms.TerminalIsForever` | `backend/app/trading/oms/engine.py:140-254` | no later call changes a filled, rejected or cancelled order, drops an order, or changes which order it is |
| `Oms.CancelAlwaysCancels` | `backend/app/trading/oms/engine.py:216-227` | cancelling succeeds exactly for an order that is not terminal, which is cancelled whatever the broker answers, a fill included, only the broker's id being taken over; what the broker told is recorded under its own id for the order, or ours |
| `Oms.SynchronizeReports` | `backend/app/trading/oms/order_sync.py:37-131` | synchronizing gives each active order the status its own broker reply reports and the broker's id: open and partial are pending, rejected and expired are rejected, created and filled change nothing, and an order the broker has no id of or fails to report stays as it is |
| `Oms.SyncRecords` | `backend/app/trading/oms/order_sync.py:44-75` | every order reconciled is recorded once, in order, with the broker's id and its status before and after |
| `Oms.ModifyIsSafe` | `backend/app/trading/oms/engine.py:237-254` | modifying changes no status and leaves terminal orders alone |
| `Oms.ModifyFate` | `backend/app/trading/oms/engine.py:237-254` | exactly when a modification is refused, raises before or after the quantity has changed, or takes both parameters, and what is recorded |
| `Oms.EntrySpendsItsFraction` | `backend/app/trading/oms/engine.py:189-214` | an entry is asked for exactly with a positive price, cash and fraction, and its notional is that fraction of the cash |
| `Oms.ExitSellsTheHolding` | `backend/app/trading/oms/engine.py:189-214` | a sell or exit signal asks to sell what is held, exactly when something is, and a hold asks for nothing |
| `Oms.SignalFate` | `backend/app/trading/oms/engine.py:140-182` | a signal for a symbol that is not allowed, or that asks for no order, changes nothing; any other gets the next id and is rejected unseen when the check fails, else as the executor left it, or rejected where that raised |
| `OmsEngines.OrderManager.CreateOrder` | `backend/app/trading/oms/engine.py:58-78` | ids are given out one after the other |
| `OmsEngines.OrderManager.GetActiveOrders` | `backend/app/trading/oms/engine.py:86-91` | exactly the orders that are not terminal |
| `OmsEngines.BrokerOrderSynchronizer.SynchronizeOrder` | `backend/app/trading/oms/order_sync.py:44-75` | the new order and the recorded decision for any reply |
| `OmsEngines.BrokerOrderSynchronizer.Modify` | `backend/app/trading/oms/order_sync.py:99-118` | both parameters or an error; a bad price is refused after the quantity has changed |
| `OmsEngines.OMS.ProcessSignal` | `backend/app/trading/oms/engine.py:140-182` | books, decisions and the executor trace after one signal |
| `OmsEngines.OMS.CancelOrder` | `backend/app/trading/oms/engine.py:216-227` | books after one cancellation |
| `OmsEngines.OMS.ModifyOrder` | `backend/app/trading/oms/engine.py:237-254` | books after one modification, with the error case |
| `OmsEngines.OMS.SynchronizeOrders` | `backend/app/trading/oms/engine.py:229-232` | books after one reconciliation of all active orders |
| `RenkoCharting.TraditionalRenkoEngine.Start` | `backend/app/chart/renko/engine.py:193-202` | the state is neutral, at price zero and open, and nothing else changes |
| `RenkoCharting.TraditionalRenkoEngine.MaybePublishSizeUpdate` | `backend/app/chart/renko/engine.py:339-353` | a bus hears of a size exactly when it differs from the last one it heard of |
| `RenkoCharting.TraditionalRenkoEngine.AppendBuiltBrick` | `backend/app/chart/renko/engine.py:262-277` | one built brick is appended; with a bus it is published before the state advances to it |
| `RenkoCharting.TraditionalRenkoEngine.ChartPrice` | `backend/app/chart/renko/engine.py:252-285` | what is planned for a price is carried out: bricks appended on the right path, the last price moved, or the division error |
| `RenkoCharting.TraditionalRenkoEngine.Reset` | `backend/app/chart/renko/engine.py:215-223` | configuration, state, history and anchor are gone and the provider is reset; builder and bus stay |
| `BrickSizeProviders.AtrBrickSizeProvider.Reset` | `backend/app/chart/renko/providers.py:142-146` | back to warm-up with the same parameters |
| `BrickSizeProviders.PercentageBrickSizeProvider.ImportState` | `backend/app/chart/renko/providers.py:340-343` | the size is the stored one |
| `BrickSizeProviders.AdaptiveBrickSizeProvider.Reset` | `backend/app/chart/renko/providers.py:525-531` | the classifier and both children start over |
| `BrickSizeProviders.CreateProvider` | `backend/app/chart/renko/providers.py:593-606` | a fresh provider object of the configured kind and parameters |
| `RenkoCodec.ThresholdsSurvive` | `backend/app/chart/renko/serialization.py:38-48` | the threshold pair comes back from its list form as the same numbers |
| `Portfolios.Portfolio.RecordOrder` | `backend/app/trading/portfolio/portfolio.py:63-64` | the order is appended to the record |
| `BacktestEngines.BacktestEngine.ExecuteOrder` | `backend/app/trading/backtesting/engine.py:127-129` | an order is executed at the brick's close and settled, whatever else is pending |
| `BacktestEngines.BacktestEngine.ForceClose` | `backend/app/trading/backtesting/engine.py:158-166` | an open position is sold in full at the last close and the account marked again; a flat one is left alone |
| `PaperSimulator.PendingOrderManager.Add` | `backend/app/trading/paper/pending.py:40-41` | from then on its id finds the ticket, and every other id finds what it found before |
| `PaperSimulator.PendingOrderManager.Remove` | `backend/app/trading/paper/pending.py:43-44` | it returns a ticket with that id exactly when there is one; none with that id is left, and no other ticket has gone |
| `PaperSimulator.ExchangeSimulator.Fill` | `backend/app/trading/paper/simulator.py:178-184` | a matched ticket is executed and settled, and reported filled exactly when its order ends filled |
| `PaperSimulator.ExchangeSimulator.CancelImmediate` | `backend/app/trading/paper/simulator.py:186-193` | every immediate-or-cancel ticket still resting is cancelled in order and gives back its reservation; the others rest on |
| `PortfolioSynchronizers.PortfolioSynchronizer.RecordOrder` | `backend/app/trading/portfolio/synchronizer.py:62-65` | an order id is recorded only the first time |
| `StageGraph.ProcessingGraph.Register` | `backend/app/pipeline/registry.py:12-15` | a name is registered once; a second registration is refused |
| `AggregationEngines.AggregationEngine.ClosePendingCandles` | `backend/app/engines/aggregation/engine.py:47-50` | every ended candle is closed and published |
| `AggregationEngines.AggregationEngine.CloseSession` | `backend/app/engines/aggregation/engine.py:42-45` | every ended candle of the exchange and day is |
| `Replay.CandleStepFacts` | `backend/app/engines/replay/controller.py:117-135` | the candle side of the same |
| `ReplayControllers.ReplayController.Pause` | `backend/app/engines/replay/controller.py:62-67` | only a running replay pauses |
| `ReplayControllers.ReplayController.Resume` | `backend/app/engines/replay/controller.py:69-74` | only a paused replay resumes |
| `ReplayControllers.ReplayController.Stop` | `backend/app/engines/replay/controller.py:76-81` | anything but a stopped replay stops |
| `ReplayControllers.ReplayController.ChangeSpeed` | `backend/app/engines/replay/controller.py:137-142` | a new speed is set and announced |
| `ReplayControllers.ReplayController.CompleteIfFinished` | `backend/app/engines/replay/controller.py:144-147` | the replay completes when the source is exhausted or its time has reached the end |
| `ReplayControllers.ReplayController.GetTick` | `backend/app/engines/replay/controller.py:153-162` | the buffered tick, else the next unread one, else none |
| `ReplayControllers.ReplayController.PeekTickIsExhausted` | `backend/app/engines/replay/controller.py:164-172` | one tick is buffered unless one is or none is left |
| `ReplayControllers.ReplayController.GetCandle` | `backend/app/engines/replay/controller.py:174-183` | the same for candles |
| `ReplayControllers.ReplayController.PeekCandleIsExhausted` | `backend/app/engines/replay/controller.py:185-193` | the same for candles |
| `OmsEngines.OrderManager.UpdateOrder` | `backend/app/trading/oms/engine.py:83-84` | the order is active from then on exactly unless it is terminal, and no other order's standing changes |
| `OmsEngines.BrokerOrderSynchronizer.Cancel` | `backend/app/trading/oms/order_sync.py:77-97` | the broker's answer is applied and the decision recorded; a failing broker changes nothing |
| `OmsEngines.OMS.ValidateOrderRisk` | `backend/app/trading/oms/engine.py:168-176` | one decision is recorded, and passes without asking when validation is off |
| `OmsEngines.OMS.SignalToOrder` | `backend/app/trading/oms/engine.py:189-214` | an order is created exactly when the signal asks for a positive quantity |

## Left out

- Float rounding, NaN and infinities, and the 28-digit rounding of `Decimal` division: arithmetic is over
  reals. Money is quantised to cents only in `CentRounding`; the equity curve of `AnalyticsSeries` is taken
  as already quantised.
- JSON text, ISO timestamps, brick ids and fill keys as strings: they are values that differ when their parts
  differ, so a collision between an explicit fill id and a composed one is not modelled.
- Values the decoders would store without looking at their type: the model decodes only values of the type
  the field has. Market data is a record; a key that is present with no value is the same as one that is
  missing.
- Enums in metadata whose members are not texts, and dictionary keys that are objects of their own which JSON
  happens to have a text for.
- RenkoCharting.TraditionalRenkoEngine.RestoreState: what a refused restore leaves in the engine's fields is
  not stated, beyond that its components stay and are valid; the snapshot manager drops that engine.
- BrickSizeProviders.AdaptiveBrickSizeProvider.ImportState: of a failed import only the parameters are stated
  to stay.
- Previous-day levels in brick metadata that are neither numbers nor absent, which the strategy fails on.
- Strategies asked for their answer more than once per brick or bar.
- Shared mutable `Order` objects: an order is a value, kept by id in the book that owns it, and events carry
  the order as it was when they were reported. `Portfolio.orders` is the list of recorded ids.
- Sessions stopped and continued, and registries other than the built-in ones: a Renko session is one
  configuration followed by candles.
- Adaptive providers over other children than the shipped pair, a percentage and an ATR provider.
- Event payloads beyond what is compared here, the event bus, the dispatcher, websockets and reconnection.
- Interleaving of asynchronous calls: each public call is one step.
- Broker adapters, polling in `LiveExecutor`, the individual pre-execution risk checks and the strategy risk
  rules: their answers are parameters, and a backtest has no risk rules.
- Attribution fields of trades, P&L snapshots taken after each live fill, position records of the OMS.
- Sharpe, Sortino, volatility, rolling and percentile metrics, rankings and reports.
- Two ticks that differ only in the exchange's own time are one tick, as in the code; time zones and the end of
  the calendar are not modelled.
- A session filter looks at the time of day only, as in the code; the session's exchange matters when closing.
- FastAPI routes, frontend, database, dependency injection, plugins and authentication.
