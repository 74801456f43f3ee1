# SimpleCoinTrading core, modelled in Dafny

SimpleCoinTrading is a small C# back end for trading crypto-currency against
Korean won (KRW) on a simulated exchange. Market data comes from a live feed
or a CSV replay and runs through an ingestion pipeline. The pipeline stores
trades, books and one-minute bars, drives a virtual clock, and hands the data
to trading algorithms. The algorithms place orders through an orchestrator.
The orchestrator guards every order with a kill switch, client-order-id
idempotency and a per-algorithm rate limit. It then sends the order to a
paper broker. The paper broker reserves funds, matches orders against the
top of book and settles fills with fees and slippage. Projections follow the
broker's events to keep positions, profit and loss, and the trading state
that clients see.

This project models that core:

- **Simulated broker.** PaperBroker as value-level functions
  (`PaperBrokerSpec`) and as a class whose methods update fields in place
  (`PaperBrokerClass`). Its bookkeeping invariants are proved in
  `PaperBrokerInvariants`.
- **Market data.** The ring buffer, the stores and the repository, the read
  view, the one-minute bar aggregator and the ingestion pipeline.
- **Time.** The virtual, simulated and manual clocks, and the Backtest side
  of the dual-mode time flow.
- **Order path.** The orchestrator and its guard tables, the fixed-window
  rate limiter, the kill-switch broker wrapper and the order lifecycle
  tracker.
- **Projections.** The average-cost position projection, the order-state
  projection and the trading state with its snapshots.
- **Replay and logs.** The CSV splitter and bar parser, the per-algorithm
  log hub and the log-line formatter.
- **Algorithm host.** The algorithm runtime, both algorithm engines and the
  factory and parameter registries.

Modelling conventions:

- `decimal` is `real` and `DateTime` is a tick count.
- A Guid is a fresh number.
- Published events are appends to an event sequence.
- Calls into code outside the core are parameters of the operation that
  makes them. Such calls are an algorithm's Initialize, Run and Stop, the
  .NET date and decimal parsers, and the clock the limiter reads.

Where a class in the source updates its fields, the model is a Dafny class.
Each method's `ensures` ties its new state to a function of the old state,
and lemmas prove the properties of those functions.

## Model

| member | source | states |
|---|---|---|
| RingBuffers.Recent | SimpleCoinTrading.Core/Utils/RingBuffer.cs:22-33 | what Tail(size) returns after a history of adds: exactly min(size, stored, capacity) items, the newest ones, oldest first |
| RingBuffers.RingBuffer.constructor | SimpleCoinTrading.Core/Utils/RingBuffer.cs:10 | a positive capacity gives an empty buffer over a fresh array of that length |
| RingBuffers.RingBuffer.Add | SimpleCoinTrading.Core/Utils/RingBuffer.cs:12-20 | the item joins the history; count becomes min(adds, capacity) and head adds mod capacity; below capacity the held items gain the item, at capacity the oldest is overwritten |
| RingBuffers.RingBuffer.Tail | SimpleCoinTrading.Core/Utils/RingBuffer.cs:22-33 | returns the newest min(size, count) items oldest first, as Recent defines and as the suffix of the held items; the buffer is unchanged |
| RingBuffers.RingBuffer.LastOrDefault | SimpleCoinTrading.Core/Utils/RingBuffer.cs:35-43 | the most recently added item, or none when nothing was ever added; the buffer is unchanged |
| RingBuffers.RingBuffer.SlotHolds | SimpleCoinTrading.Core/Utils/RingBuffer.cs:28-30 | the slot i places after Tail's start index holds history item count-n+i, so the copy loop reads items in order |
| Clocks.Advanced | SimpleCoinTrading.Core/Time/Clocks/VirtualClock.cs:19-29 | advancing to t never moves the clock back and never past both the old time and t: the result is the larger of the two |
| Clocks.AdvancedIdempotent | SimpleCoinTrading.Core/Time/Clocks/VirtualClock.cs:26-27 | advancing twice to the same target is advancing once |
| Clocks.AdvancedAllIsMax | SimpleCoinTrading.Core/Time/Clocks/VirtualClock.cs:19-29 | any sequence of advances ends at the maximum of the start time and every target |
| Clocks.VirtualClock.constructor | SimpleCoinTrading.Core/Time/Clocks/VirtualClock.cs:7 | a new virtual clock reads tick 0 |
| Clocks.VirtualClock.SetUtc | SimpleCoinTrading.Core/Time/Clocks/VirtualClock.cs:13-17 | the clock reads exactly the given ticks afterwards, earlier or not |
| Clocks.VirtualClock.AdvanceToUtc | SimpleCoinTrading.Core/Time/Clocks/VirtualClock.cs:19-29 | the compare-and-retry loop leaves the clock at Advanced(old time, t) |
| Clocks.SimulatedClock.constructor | SimpleCoinTrading.Core/Time/Clocks/IClock.cs:20 | a new simulated clock reads the default time, tick 0 |
| Clocks.SimulatedClock.SetUtc | SimpleCoinTrading.Core/Time/Clocks/IClock.cs:22-26 | the clock reads exactly the given time afterwards, including a move backwards |
| Clocks.Shifted | SimpleCoinTrading.Core/Time/Clocks/IClock.cs:37-40 | DateTime.Add succeeds exactly when the result stays within the DateTime range, and then moves the time by exactly delta |
| Clocks.ShiftedCompose | SimpleCoinTrading.Core/Time/Clocks/IClock.cs:37-40 | after a successful first shift, two shifts equal one shift by the summed delta |
| Clocks.ManualClock.constructor | SimpleCoinTrading.Core/Time/Clocks/IClock.cs:32-35 | a new manual clock reads its start time |
| Clocks.ManualClock.Advance | SimpleCoinTrading.Core/Time/Clocks/IClock.cs:37-40 | the clock moves by exactly delta when Shifted succeeds; otherwise it throws and the clock is unchanged |
| TimeFlow.AlignNext | SimpleCoinTrading.Core/Time/TimeFlows/DualModeTimeFlow.cs:200-205 | the result is a multiple of the step strictly after t and at most one step after it, so it is the smallest such multiple |
| TimeFlow.TicksFromOrdered | SimpleCoinTrading.Core/Time/TimeFlows/DualModeTimeFlow.cs:179-185 | the emit loop's ticks lie between its first tick and the target, in strictly increasing order |
| TimeFlow.TicksFromMultiples | SimpleCoinTrading.Core/Time/TimeFlows/DualModeTimeFlow.cs:179-185 | starting on a step multiple, every emitted tick is a step multiple |
| TimeFlow.TicksFromCovers | SimpleCoinTrading.Core/Time/TimeFlows/DualModeTimeFlow.cs:179-185 | no step multiple between the first tick and the target is skipped |
| TimeFlow.StepTicksExact | SimpleCoinTrading.Core/Time/TimeFlows/DualModeTimeFlow.cs:172-189 | a Backtest advance from cur to target emits exactly the step multiples strictly after cur and at most target, strictly increasing |
| TimeFlow.StepTicks | SimpleCoinTrading.Core/Time/TimeFlows/DualModeTimeFlow.cs:172-189 | the step-aligned ticks after the current time up to the target (TimeFlow.StepTicksExact) |
| TimeFlow.LastStepTime | SimpleCoinTrading.Core/Time/TimeFlows/DualModeTimeFlow.cs:200-205 | the last multiple of the step within DateTime's range: a multiple, at most the last DateTime, and one step more passes it |
| TimeFlow.AlignNextChecked | SimpleCoinTrading.Core/Time/TimeFlows/DualModeTimeFlow.cs:200-205 | AlignNext as written: when it returns, it returns AlignNext; it throws exactly when t has reached LastStepTime (TimeFlow.AlignNextInRange) |
| TimeFlow.TicksFromChecked | SimpleCoinTrading.Core/Time/TimeFlows/DualModeTimeFlow.cs:179-185 | the emit loop as written, where `next.Add(step)` throws past the last DateTime (TimeFlow.TicksFromInRange) |
| TimeFlow.EmitChecked | SimpleCoinTrading.Core/Time/TimeFlows/DualModeTimeFlow.cs:172-189 | the Backtest advance's ticks as written, on DateTime's range (TimeFlow.EmitCheckedThrows) |
| TimeFlow.AlignNextInRange | SimpleCoinTrading.Core/Time/TimeFlows/DualModeTimeFlow.cs:200-205 | aligning t throws ArgumentOutOfRangeException if and only if t is at or past the last multiple of the step a DateTime can hold |
| TimeFlow.TicksFromInRange | SimpleCoinTrading.Core/Time/TimeFlows/DualModeTimeFlow.cs:179-185 | from a step multiple no later than LastStepTime, the loop throws if and only if it runs and the target is at or past LastStepTime; otherwise it writes exactly TicksFrom |
| TimeFlow.EmitCheckedThrows | SimpleCoinTrading.Core/Time/TimeFlows/DualModeTimeFlow.cs:172-189 | a Backtest advance from cur to target throws if and only if cur or target is at or past LastStepTime; otherwise it emits exactly StepTicks(cur, target) |
| TimeFlow.DualModeTimeFlow.constructor | SimpleCoinTrading.Core/Time/TimeFlows/DualModeTimeFlow.cs:36-54 | a new flow keeps its clock, mode and positive step, has seen no market time, is not initialised and has emitted nothing |
| TimeFlow.DualModeTimeFlow.Cancel | SimpleCoinTrading.Core/Time/TimeFlows/DualModeTimeFlow.cs:56-59 | cancelling the start token sets the cancelled flag and changes nothing else |
| TimeFlow.DualModeTimeFlow.SetMode | SimpleCoinTrading.Core/Time/TimeFlows/DualModeTimeFlow.cs:105-108 | only the mode changes |
| TimeFlow.DualModeTimeFlow.EnsureReplayAnchor | SimpleCoinTrading.Core/Time/TimeFlows/DualModeTimeFlow.cs:162-170 | the replay anchor is set to the clock time once, and only after initialisation; nothing else changes |
| TimeFlow.DualModeTimeFlow.EmitTick | SimpleCoinTrading.Core/Time/TimeFlows/DualModeTimeFlow.cs:191-195 | the clock is advanced to the tick before the tick is written, and the tick is appended to the output |
| TimeFlow.DualModeTimeFlow.EmitTicksUpTo | SimpleCoinTrading.Core/Time/TimeFlows/DualModeTimeFlow.cs:172-189 | once initialised, appends exactly StepTicks(clock, target) and leaves the clock at max(clock, target); before initialisation it does nothing |
| TimeFlow.DualModeTimeFlow.AdvanceTo | SimpleCoinTrading.Core/Time/TimeFlows/DualModeTimeFlow.cs:68-102 | a cancelled flow does nothing; otherwise the cap becomes the largest market time seen; the first call sets the clock and emits one baseline tick; later Backtest calls emit the step ticks and advance the clock; RealTimeReplay calls emit nothing, leave the clock, and anchor the replay at the clock's time if no anchor was set, keeping an existing anchor; Backtest and cancelled calls leave the anchor |
| MarketStorage.BarStorage.constructor | SimpleCoinTrading.Core/Data/InMemoryMarketDataRepository.cs:15 | a new bar store has the given positive capacity and every series is empty |
| MarketStorage.BarStorage.AppendBar | SimpleCoinTrading.Core/Data/InMemoryMarketDataRepository.cs:17-32 | the bar is appended to the history of exactly the (symbol, resolution) series, compared case-sensitively; every other series is unchanged |
| MarketStorage.BarStorage.SeriesFor | SimpleCoinTrading.Core/Data/InMemoryMarketDataRepository.cs:22-29 | the series' buffer is found, or created empty and filed, with no history changed |
| MarketStorage.BarStorage.NewSeries | SimpleCoinTrading.Core/Data/InMemoryMarketDataRepository.cs:26-27 | a fresh buffer of the store's capacity is filed under the new key with an empty history |
| MarketStorage.BarStorage.Register | SimpleCoinTrading.Core/Data/InMemoryMarketDataRepository.cs:27 | filing a new empty buffer adds only that key, with an empty history, and keeps every other buffer's contents |
| MarketStorage.BarStorage.AddTo | SimpleCoinTrading.Core/Data/InMemoryMarketDataRepository.cs:31 | rb.Add extends only that key's history; other series keep theirs |
| MarketStorage.BarStorage.GetBars | SimpleCoinTrading.Core/Data/InMemoryMarketDataRepository.cs:34-42 | the newest min(size, stored) bars of the series, oldest first; empty for an unknown series |
| MarketStorage.BarStorage.GetLastBar | SimpleCoinTrading.Core/Data/InMemoryMarketDataRepository.cs:44-52 | the last bar appended to the series, or null for a series never written |
| MarketStorage.TradeStorage.constructor | SimpleCoinTrading.Core/Data/InMemoryMarketDataRepository.cs:61 | a new trade store has the given positive capacity and every symbol's history is empty |
| MarketStorage.TradeStorage.AppendTrade | SimpleCoinTrading.Core/Data/InMemoryMarketDataRepository.cs:63-76 | the trade is appended to the history of the symbol compared ignoring case; other symbols are unchanged |
| MarketStorage.TradeStorage.BufferFor | SimpleCoinTrading.Core/Data/InMemoryMarketDataRepository.cs:66-73 | the folded symbol's buffer is found, or created empty and filed, with no history changed |
| MarketStorage.TradeStorage.NewBuffer | SimpleCoinTrading.Core/Data/InMemoryMarketDataRepository.cs:70-71 | a fresh buffer of the store's capacity is filed under the new folded symbol with an empty history |
| MarketStorage.TradeStorage.Register | SimpleCoinTrading.Core/Data/InMemoryMarketDataRepository.cs:71 | filing a new empty buffer adds only that symbol, with an empty history, and keeps every other buffer's contents |
| MarketStorage.TradeStorage.AddTo | SimpleCoinTrading.Core/Data/InMemoryMarketDataRepository.cs:75 | rb.Add extends only that symbol's history |
| MarketStorage.TradeStorage.GetRecent | SimpleCoinTrading.Core/Data/InMemoryMarketDataRepository.cs:78-85 | the newest min(maxCount, stored) trades of the symbol in any spelling, oldest first; empty for an unknown symbol |
| MarketStorage.OrderBookStorage.constructor | SimpleCoinTrading.Core/Data/InMemoryMarketDataRepository.cs:90 | a new book store holds no symbol |
| MarketStorage.OrderBookStorage.UpdateTopOfBook | SimpleCoinTrading.Core/Data/InMemoryMarketDataRepository.cs:101-104 | the symbol's top, compared ignoring case, is replaced; the symbol is recorded as updated |
| MarketStorage.OrderBookStorage.GetLast | SimpleCoinTrading.Core/Data/InMemoryMarketDataRepository.cs:106-113 | the latest top stored under the symbol ignoring case, or null |
| MarketStorage.OrderBookStorage.Symbols | SimpleCoinTrading.Core/Data/InMemoryMarketDataRepository.cs:93-99 | exactly one spelling of every symbol ever given a top, and nothing else |
| MarketStorage.LastWriteWins | SimpleCoinTrading.Core/Data/InMemoryMarketDataRepository.cs:101-104 | two updates of the same symbol leave only the second: no history is kept |
| MarketStorage.MarketDataRepository.constructor | SimpleCoinTrading.Core/Data/InMemoryMarketDataRepository.cs:122-130 | the repository holds the three given stores |
| MarketStorage.MarketDataRepository.AppendTrade | SimpleCoinTrading.Core/Data/InMemoryMarketDataRepository.cs:132-133 | forwards to the trade store: the symbol's trade history grows by the trade; bars and books are unchanged |
| MarketStorage.MarketDataRepository.UpdateTopOfBook | SimpleCoinTrading.Core/Data/InMemoryMarketDataRepository.cs:135-136 | forwards to the book store: only the symbol's top changes; trades and bars are unchanged |
| MarketStorage.MarketDataRepository.AppendBar | SimpleCoinTrading.Core/Data/InMemoryMarketDataRepository.cs:138-139 | forwards to the bar store: only that series grows; trades and books are unchanged |
| MarketStorage.MarketDataRepository.GetBars | SimpleCoinTrading.Core/Data/InMemoryMarketDataRepository.cs:142 | the bar store's answer for the series |
| MarketStorage.MarketDataRepository.GetLastBar | SimpleCoinTrading.Core/Data/InMemoryMarketDataRepository.cs:143 | the bar store's last bar for the series, or null |
| MarketStorage.MarketDataRepository.GetRecentTrades | SimpleCoinTrading.Core/Data/InMemoryMarketDataRepository.cs:145 | the trade store's newest trades for the symbol |
| MarketStorage.MarketDataRepository.GetLastOrderBookTop | SimpleCoinTrading.Core/Data/InMemoryMarketDataRepository.cs:147 | the book store's latest top for the symbol |
| MarketView.Window | SimpleCoinTrading.Core/Data/MarketDataView.cs:38-40 | the trades the summary counts are fetched trades whose time lies between from and to inclusive |
| MarketView.WindowKeeps | SimpleCoinTrading.Core/Data/MarketDataView.cs:40 | conversely every fetched trade inside the window is counted |
| MarketView.VolumeSplits | SimpleCoinTrading.Core/Data/MarketDataView.cs:42-44 | total volume is buy volume plus sell volume |
| MarketView.SummaryFacts | SimpleCoinTrading.Core/Data/MarketDataView.cs:27-49 | a summary has From = now - window, To = now, total = buy + sell, and a count equal to the number of fetched trades in the window |
| MarketView.Summarize | SimpleCoinTrading.Core/Data/MarketDataView.cs:27-50 | the window's total, buy and sell volumes and trade count (MarketView.SummaryFacts) |
| MarketView.Tally | SimpleCoinTrading.Core/Data/MarketDataView.cs:33-47 | the accumulating foreach loop computes exactly Summarize of the fetched trades |
| MarketView.MarketDataView.constructor | SimpleCoinTrading.Core/Data/MarketDataView.cs:12-16 | the view keeps the given clock and read storage |
| MarketView.MarketDataView.NowUtc | SimpleCoinTrading.Core/Data/MarketDataView.cs:18 | always the clock's current time |
| MarketView.MarketDataView.GetBars | SimpleCoinTrading.Core/Data/MarketDataView.cs:20 | exactly the bar store's newest bars of the series |
| MarketView.MarketDataView.GetLastBar | SimpleCoinTrading.Core/Data/MarketDataView.cs:21 | exactly the bar store's last bar, or null |
| MarketView.MarketDataView.GetRecentTrades | SimpleCoinTrading.Core/Data/MarketDataView.cs:23 | exactly the trade store's newest trades |
| MarketView.MarketDataView.GetLastOrderBookTop | SimpleCoinTrading.Core/Data/MarketDataView.cs:25 | exactly the book store's latest top |
| MarketView.MarketDataView.GetTradeSummary | SimpleCoinTrading.Core/Data/MarketDataView.cs:27-50 | summarises at most the last 1000 stored trades over [now - window, now]; a window that takes the start out of the DateTime range throws |
| MarketView.MarketDataView.HasSymbol | SimpleCoinTrading.Core/Data/MarketDataView.cs:52 | true exactly when the book store holds a top for the symbol |
| BarAggregation.FloorToMinute | SimpleCoinTrading.Core/Data/TradeToBarAggregator1m.cs:88-94 | the floored time is a whole minute, at most the input and less than one minute before it |
| BarAggregation.FloorFacts | SimpleCoinTrading.Core/Data/TradeToBarAggregator1m.cs:88-94 | flooring is monotone and idempotent |
| BarAggregation.PriceRange | SimpleCoinTrading.Core/Data/TradeToBarAggregator1m.cs:116-130 | the running high is the largest folded price and the low the smallest, each the price of some folded trade |
| BarAggregation.BarLaws | SimpleCoinTrading.Core/Data/TradeToBarAggregator1m.cs:132-142 | a bar built from at least one trade has low <= open, close <= high and is stamped with its minute |
| BarAggregation.VolumeNonneg | SimpleCoinTrading.Core/Data/TradeToBarAggregator1m.cs:129 | trades of non-negative quantity give a non-negative volume |
| BarAggregation.Closed | SimpleCoinTrading.Core/Data/TradeToBarAggregator1m.cs:76-86 | closing a builder raises at most one event, a one-minute bar-closed event stamped with the builder's minute, and none for a builder without trades |
| BarAggregation.FoldSetHas | SimpleCoinTrading.Core/Data/TradeToBarAggregator1m.cs:71 | every symbol FlushAll enumerates is among the folded symbols it visits |
| BarAggregation.OnTradeCases | SimpleCoinTrading.Core/Data/TradeToBarAggregator1m.cs:17-49 | a first trade opens a bar under its spelling; a later minute publishes the open bar once and reopens with just the trade under the first spelling; an earlier minute is dropped; the same minute folds the trade in; the open minute never moves back |
| BarAggregation.OnTradeWf | SimpleCoinTrading.Core/Data/TradeToBarAggregator1m.cs:17-49 | after a trade every builder still holds a trade and only trades of its own minute |
| BarAggregation.ClosedLawful | SimpleCoinTrading.Core/Data/TradeToBarAggregator1m.cs:76-86 | every published bar obeys the OHLC laws and carries its minute |
| BarAggregation.LawfulJoin | SimpleCoinTrading.Core/Data/TradeToBarAggregator1m.cs:69-74 | runs of lawful bars concatenate to a lawful run |
| BarAggregation.TradeLawful | SimpleCoinTrading.Core/Data/TradeToBarAggregator1m.cs:30-39 | a trade publishes only lawful bars |
| BarAggregation.FlushLawful | SimpleCoinTrading.Core/Data/TradeToBarAggregator1m.cs:54-66 | a flush publishes only lawful bars |
| BarAggregation.FlushCases | SimpleCoinTrading.Core/Data/TradeToBarAggregator1m.cs:54-66 | a flush after the builder's minute drops it and publishes its bar once, otherwise changes nothing; a second flush at the same time does nothing |
| BarAggregation.CurrentFacts | SimpleCoinTrading.Core/Data/TradeToBarAggregator1m.cs:54-74 | flushing twice is flushing once, and a later flush closes at least what an earlier one did |
| BarAggregation.OnTradeSpec | SimpleCoinTrading.Core/Data/TradeToBarAggregator1m.cs:17-49 | a trade opens a builder when the symbol has none, closes the open one and opens a new one when the trade falls in a later minute, and otherwise extends it; its cases and the lawfulness of what it publishes are stated by BarAggregation.OnTradeCases, BarAggregation.OnTradeWf and BarAggregation.TradeLawful |
| BarAggregation.FlushSpec | SimpleCoinTrading.Core/Data/TradeToBarAggregator1m.cs:54-66 | a builder whose minute ended at or before `now` is removed and its bar published; otherwise nothing changes (BarAggregation.FlushCases, BarAggregation.FlushLawful) |
| BarAggregation.EventsOf | SimpleCoinTrading.Core/Data/TradeToBarAggregator1m.cs:69-74 | the published events whose symbol is a spelling of the given folded symbol, in order |
| BarAggregation.Due | SimpleCoinTrading.Core/Data/TradeToBarAggregator1m.cs:54-66 | what flushing one builder at `now` publishes: nothing without a builder |
| BarAggregation.FlushEvents | SimpleCoinTrading.Core/Data/TradeToBarAggregator1m.cs:69-74 | what FlushAll's loop publishes over a list of symbols, each flushed once, in order |
| BarAggregation.EventsOfJoin | SimpleCoinTrading.Core/Data/TradeToBarAggregator1m.cs:69-74 | selecting one symbol's events distributes over concatenation |
| BarAggregation.DueOf | SimpleCoinTrading.Core/Data/TradeToBarAggregator1m.cs:54-66 | a builder filed under a folded symbol publishes only under a spelling of that symbol |
| BarAggregation.FlushEventsPerSymbol | SimpleCoinTrading.Core/Data/TradeToBarAggregator1m.cs:69-74 | for every folded symbol, the loop publishes for it exactly what flushing its builder publishes when the symbol is listed, and nothing when it is not |
| BarAggregation.BarBuilder.constructor | SimpleCoinTrading.Core/Data/TradeToBarAggregator1m.cs:108-114 | a new builder for a minute holds no trades and its fields agree with that |
| BarAggregation.BarBuilder.Add | SimpleCoinTrading.Core/Data/TradeToBarAggregator1m.cs:116-130 | the trade joins the folded trades and the open, high, low, close and volume fields stay exactly those of the folded trades |
| BarAggregation.BarBuilder.Build | SimpleCoinTrading.Core/Data/TradeToBarAggregator1m.cs:132-142 | the bar is the OHLCV of the folded trades, stamped with the builder's minute |
| BarAggregation.CloseAndPublish | SimpleCoinTrading.Core/Data/TradeToBarAggregator1m.cs:76-86 | the builder's bar-closed event, or none when it holds no trade |
| BarAggregation.TradeToBarAggregator1m.constructor | SimpleCoinTrading.Core/Data/TradeToBarAggregator1m.cs:9-14 | no symbol has an open builder |
| BarAggregation.TradeToBarAggregator1m.File | SimpleCoinTrading.Core/Data/TradeToBarAggregator1m.cs:26 | filing a builder under a symbol changes that symbol's builder only |
| BarAggregation.TradeToBarAggregator1m.Extend | SimpleCoinTrading.Core/Data/TradeToBarAggregator1m.cs:47-48 | a trade of the open minute is appended to that symbol's builder; no other symbol changes |
| BarAggregation.TradeToBarAggregator1m.Drop | SimpleCoinTrading.Core/Data/TradeToBarAggregator1m.cs:62 | removing a symbol leaves it without a builder, one entry fewer, and the others unchanged |
| BarAggregation.TradeToBarAggregator1m.Reopen | SimpleCoinTrading.Core/Data/TradeToBarAggregator1m.cs:23-39 | opening a builder for a new minute publishes the previous bar and files a builder holding just the trade, as OnTradeSpec says |
| BarAggregation.TradeToBarAggregator1m.OnTrade | SimpleCoinTrading.Core/Data/TradeToBarAggregator1m.cs:17-49 | the symbol's builder and the events raised are those of OnTradeSpec; blank symbols change nothing; other symbols are unchanged |
| BarAggregation.TradeToBarAggregator1m.FlushIfMinutePassed | SimpleCoinTrading.Core/Data/TradeToBarAggregator1m.cs:54-66 | the symbol's builder and the events raised are those of FlushSpec, one entry removed per event; other symbols are unchanged |
| BarAggregation.TradeToBarAggregator1m.Builders | SimpleCoinTrading.Core/Data/TradeToBarAggregator1m.cs:9 | the dictionary, as a map of values, agrees with the builder of every symbol |
| BarAggregation.TradeToBarAggregator1m.FlushStep | SimpleCoinTrading.Core/Data/TradeToBarAggregator1m.cs:71-73 | one loop turn adds the symbol to those flushed; it publishes nothing for a symbol already flushed, and otherwise exactly what flushing that symbol's builder publishes, only lawful bars |
| BarAggregation.TradeToBarAggregator1m.FlushEach | SimpleCoinTrading.Core/Data/TradeToBarAggregator1m.cs:69-74 | after the loop exactly the folded listed symbols are flushed, one entry removed per lawful bar published, and the events are those BarAggregation.FlushEvents gives for the listed symbols in order |
| BarAggregation.TradeToBarAggregator1m.FlushAll | SimpleCoinTrading.Core/Data/TradeToBarAggregator1m.cs:54-83 | afterwards every symbol keeps its builder exactly when its minute has not passed, one lawful bar is published per builder removed, and for every symbol the bars published under it are exactly the bar of its old builder when that builder's minute had passed, and none otherwise |
| Pipeline.FileBarsSeries | SimpleCoinTrading.Core/Data/MarketPipeline.cs:28 | appending the closed bars grows each series by exactly the bars of that series, in order |
| Pipeline.LastSet | SimpleCoinTrading.Core/Data/MarketPipeline.cs:26 | a clock that is not settable, or is set to nothing, keeps its reading; otherwise it reads one of the times it was set to |
| Pipeline.LastSetJoin | SimpleCoinTrading.Core/Data/MarketPipeline.cs:26 | setting the clock to two runs of times is setting it to their concatenation |
| Pipeline.AfterBarsFacts | SimpleCoinTrading.Core/Data/MarketPipeline.cs:24-30 | after the callbacks the bus holds the bar events in order, the advancer was sent to each bar's minute in order, and a settable clock reads the last bar's minute |
| Pipeline.IngestEffects | SimpleCoinTrading.Core/Data/MarketPipeline.cs:33-41 | an update's event is published before the bars it closes, the advancer reaches the update's time before the bars' minutes, and the clock ends at the last time it was set to |
| Pipeline.BarTimesJoin | SimpleCoinTrading.Core/Data/MarketPipeline.cs:27 | the advance targets of two runs of events concatenate |
| Pipeline.BarsForJoin | SimpleCoinTrading.Core/Data/MarketPipeline.cs:28 | the bars stored per series from two runs of events concatenate |
| Pipeline.ClosedBarStored | SimpleCoinTrading.Core/Data/MarketPipeline.cs:24-30 | a closed bar is appended to exactly the one-minute series of its symbol and the advancer is sent to its minute; a builder without trades stores nothing |
| Pipeline.ClosingTradeRewindsClock | SimpleCoinTrading.Core/Data/MarketPipeline.cs:35-40 | a trade that closes its symbol's bar leaves a settable clock at the closed bar's minute, earlier than the trade's own time |
| Pipeline.Put | SimpleCoinTrading.Core/Data/MarketPipeline.cs:40 | replacing one symbol's builder leaves every other symbol's builder as it was |
| Pipeline.Kept | SimpleCoinTrading.Core/Data/MarketPipeline.cs:57 | after FlushAll each symbol keeps exactly its builder of the current minute or later |
| Pipeline.SameBuilders | SimpleCoinTrading.Core/Data/MarketPipeline.cs:12 | builder maps that agree on every symbol are equal |
| Pipeline.MarketPipeline.constructor | SimpleCoinTrading.Core/Data/MarketPipeline.cs:14-31 | the pipeline starts with a fresh aggregator holding no builders, nothing advanced and nothing published |
| Pipeline.MarketPipeline.Stamp | SimpleCoinTrading.Core/Data/MarketPipeline.cs:35-36 | a settable clock is set to the time and the advancer sent to it; stores unchanged |
| Pipeline.MarketPipeline.OnBarClosed | SimpleCoinTrading.Core/Data/MarketPipeline.cs:24-30 | the callback stamps the bar's minute, appends the bar to its series and publishes the event |
| Pipeline.MarketPipeline.Store | SimpleCoinTrading.Core/Data/MarketPipeline.cs:28-29 | the bar is appended to its series and the event published |
| Pipeline.MarketPipeline.PublishBars | SimpleCoinTrading.Core/Data/MarketPipeline.cs:24-30 | running the callback on each closed bar in order gives AfterBars and appends every bar to its series |
| Pipeline.MarketPipeline.RecordTrade | SimpleCoinTrading.Core/Data/MarketPipeline.cs:35-39 | the trade time is stamped, the trade appended to its symbol's history and its event published |
| Pipeline.MarketPipeline.Aggregate | SimpleCoinTrading.Core/Data/MarketPipeline.cs:40 | the aggregator's builders change as OnTradeSpec says for the trade's symbol only; only lawful bars are returned |
| Pipeline.MarketPipeline.IngestTrade | SimpleCoinTrading.Core/Data/MarketPipeline.cs:33-41 | stamps the trade time, stores and publishes the trade, then stores and publishes every bar the trade closes, in that order |
| Pipeline.MarketPipeline.RecordBook | SimpleCoinTrading.Core/Data/MarketPipeline.cs:45-49 | the update time is stamped, the top of book stored under its symbol and its event published |
| Pipeline.MarketPipeline.Flush | SimpleCoinTrading.Core/Data/MarketPipeline.cs:52 | the symbol's builder changes as FlushSpec says; clock, bus and stores unchanged |
| Pipeline.MarketPipeline.IngestOrderBookTop | SimpleCoinTrading.Core/Data/MarketPipeline.cs:43-53 | stamps the update time, stores and publishes the top of book, then flushes the symbol at the clock's reading and stores and publishes the bar that closes |
| Pipeline.MarketPipeline.FlushBars | SimpleCoinTrading.Core/Data/MarketPipeline.cs:55-58 | keeps exactly the builders of the clock's minute or later, stores and publishes one lawful bar per builder removed, and for every symbol publishes exactly the bar of its old builder when that builder's minute had passed at the clock's time |
| PaperBrokerSpec.Initial | SimpleCoinTrading.Core/Broker/PaperBroker.cs:44-68 | a new broker holds initialKrw in total and available, nothing reserved, no orders or positions, and is not started |
| PaperBrokerSpec.ApplySlippage | SimpleCoinTrading.Core/Broker/PaperBroker.cs:554-559 | no slippage leaves the price; positive slippage raises a buy price by the factor 1 + bps/10000 and divides a sell price by it |
| PaperBrokerSpec.Reserve | SimpleCoinTrading.Core/Broker/PaperBroker.cs:325-382 | no book refuses the order; a buy reserves price x quantity plus fee from available KRW or fails with "Insufficient KRW." exactly when short; a sell reserves the quantity of the symbol or fails with "No position to sell." or the reserved-by-other-orders message exactly when the free position is short |
| PaperBrokerSpec.Release | SimpleCoinTrading.Core/Broker/PaperBroker.cs:529-552 | the order loses its remaining quantity and its reservations; total KRW and available plus reserved KRW are unchanged; orders, positions and events untouched |
| PaperBrokerSpec.ReleaseFrame | SimpleCoinTrading.Core/Broker/PaperBroker.cs:529-552 | releasing one order leaves every other order's reservations as they were |
| PaperBrokerSpec.ReleaseKrw | SimpleCoinTrading.Core/Broker/PaperBroker.cs:532-537 | the order's reserved KRW goes back to available: total and available plus reserved unchanged, only KRW fields change |
| PaperBrokerSpec.ReleaseCoin | SimpleCoinTrading.Core/Broker/PaperBroker.cs:540-549 | the order's reserved coin is released; only the coin reservation fields change |
| PaperBrokerSpec.Close | SimpleCoinTrading.Core/Broker/PaperBroker.cs:497-527 | an unknown or final order is left alone; an open one takes the new status and time and raises an order-updated then a broker-error event with the reason and id |
| PaperBrokerSpec.BuyLeg | SimpleCoinTrading.Core/Broker/PaperBroker.cs:401-423 | a buy fill succeeds exactly when the order's KRW reservation is positive and covers notional plus fee, which then leaves reserved and total KRW |
| PaperBrokerSpec.SellLeg | SimpleCoinTrading.Core/Broker/PaperBroker.cs:424-447 | a sell fill succeeds exactly when the order's coin reservation and the position cover the quantity; the coin is unreserved (never below 0) and the proceeds less fee join available and total KRW |
| PaperBrokerSpec.FillLeg | SimpleCoinTrading.Core/Broker/PaperBroker.cs:401-447 | a successful leg changes only money, reservations and positions |
| PaperBrokerSpec.TryFill | SimpleCoinTrading.Core/Broker/PaperBroker.cs:384-495 | a failed fill or a non-positive quantity changes nothing |
| PaperBrokerSpec.TryFillLive | SimpleCoinTrading.Core/Broker/PaperBroker.cs:393-396 | for a live order with quantity left, the fill is capped at the remaining quantity and succeeds exactly when its leg does |
| PaperBrokerSpec.TryFillEffect | SimpleCoinTrading.Core/Broker/PaperBroker.cs:449-491 | a successful fill adds the quantity to the filled quantity, is Filled exactly when nothing remains (else PartiallyFilled with the remainder), and raises a fill then an order-updated event |
| PaperBrokerSpec.Settle | SimpleCoinTrading.Core/Broker/PaperBroker.cs:449-491 | the order record is updated with the fill and the fill and order-updated events are raised with a fresh trade id |
| PaperBrokerSpec.OpenOnFacts | SimpleCoinTrading.Core/Broker/PaperBroker.cs:248-253 | the listed ids are exactly the open orders on the symbol, ignoring case, each listed once at most |
| PaperBrokerSpec.InsertByCreatedCount | SimpleCoinTrading.Core/Broker/PaperBroker.cs:251 | ordering by creation time keeps every id |
| PaperBrokerSpec.InsertByCreatedBound | SimpleCoinTrading.Core/Broker/PaperBroker.cs:251 | inserting an id not earlier than a bound keeps the bound |
| PaperBrokerSpec.InsertByCreatedSorted | SimpleCoinTrading.Core/Broker/PaperBroker.cs:251 | insertion keeps the ids sorted by creation time |
| PaperBrokerSpec.SortByCreatedSorted | SimpleCoinTrading.Core/Broker/PaperBroker.cs:251 | the ordering is a permutation sorted by creation time |
| PaperBrokerSpec.OpenIdsFacts | SimpleCoinTrading.Core/Broker/PaperBroker.cs:248-253 | the matching loop visits exactly the open orders on the symbol, oldest first |
| PaperBrokerSpec.OpenOrderIds | SimpleCoinTrading.Core/Broker/PaperBroker.cs:162-165 | CancelAll cancels only ids of open orders |
| PaperBrokerSpec.Reject | SimpleCoinTrading.Core/Broker/PaperBroker.cs:513-527 | closing an order as rejected with the given reason; PaperBrokerInvariants.RejectInv proves it keeps the broker's invariant |
| PaperBrokerSpec.Step | SimpleCoinTrading.Core/Broker/PaperBroker.cs:260-319 | one turn of the matching loop: an order that does not cross or has no quantity available is left; otherwise it fills at the slipped touch price, and a failed fill rejects it; the side's available quantity drops by what filled (PaperBrokerInvariants.StepInv, PaperBrokerSpec.StepLiquidity) |
| PaperBrokerSpec.Scan | SimpleCoinTrading.Core/Broker/PaperBroker.cs:256-319 | the matching loop over the open orders, in order, skipping orders with nothing left, with the top of book's quantities shared by the whole loop and used up by each fill (PaperBrokerInvariants.ScanInv; the liquidity bound is PaperBrokerSpec.ScanLiquidity) |
| PaperBrokerSpec.Match | SimpleCoinTrading.Core/Broker/PaperBroker.cs:239-320 | no book matches nothing; otherwise one scan of the symbol's open orders, oldest first, against the top of book (PaperBrokerInvariants.MatchInv; the fills never exceed the book's quantities, PaperBrokerSpec.MatchLiquidity) |
| PaperBrokerSpec.StepFillEvents | SimpleCoinTrading.Core/Broker/PaperBroker.cs:260-319 | a step whose fill goes through publishes exactly two events: a Fill on the order's side of min(remaining, available), then a non-fill update; the order's filled quantity grows by that amount |
| PaperBrokerSpec.StepRejectEvents | SimpleCoinTrading.Core/Broker/PaperBroker.cs:260-319 | a step whose fill fails (the market and limit rejections) extends the event stream with no Fill quantity on either side |
| PaperBrokerSpec.StepLiquidity | SimpleCoinTrading.Core/Broker/PaperBroker.cs:260-319 | one step takes from the ask exactly the buy Fill quantity it publishes and from the bid exactly the sell Fill quantity; the fill is min(remaining, what the side still offers) when the order crosses, that quantity is positive and the fill goes through, and nothing otherwise; the other side is untouched |
| PaperBrokerSpec.ScanLiquidity | SimpleCoinTrading.Core/Broker/PaperBroker.cs:256-319 | over the whole loop, the published buy Fill quantities add up to between 0 and the starting ask quantity (0 if that is not positive), and the sell Fill quantities likewise against the bid; the event stream is only extended |
| PaperBrokerSpec.MatchLiquidity | SimpleCoinTrading.Core/Broker/PaperBroker.cs:239-320 | no book changes nothing; with a book, the buy fills total at most BestAskQuantity and the sell fills at most BestBidQuantity |
| PaperBrokerSpec.FilledOnJoin | SimpleCoinTrading.Core/Broker/PaperBroker.cs:256-319 | the Fill quantity of two event stretches is the sum of each stretch's (the helper that adds the steps of the loop) |
| PaperBrokerSpec.OnBook | SimpleCoinTrading.Core/Broker/PaperBroker.cs:233-237 | a stopped broker ignores the book; a started one matches (PaperBrokerInvariants.OnBookInv) |
| PaperBrokerSpec.Admit | SimpleCoinTrading.Core/Broker/PaperBroker.cs:102-112 | a reserved order is stored with its full quantity remaining, listed, and announced by one update event (PaperBrokerInvariants.AdmitInv) |
| PaperBrokerSpec.CancelUnfilled | SimpleCoinTrading.Core/Broker/PaperBroker.cs:119-130 | an IOC or FOK order still open with quantity left is canceled with the TIF reason; any other is left (PaperBrokerInvariants.CancelUnfilledInv) |
| PaperBrokerSpec.Immediate | SimpleCoinTrading.Core/Broker/PaperBroker.cs:114-131 | market, IOC and FOK orders match at once, and IOC and FOK then cancel what is left (PaperBrokerInvariants.ImmediateInv) |
| PaperBrokerSpec.Place | SimpleCoinTrading.Core/Broker/PaperBroker.cs:74-134 | a stopped broker throws; a non-positive quantity or a limit order without a positive price is refused without taking an id; a failed reservation is refused after taking an id; otherwise the order is accepted, stored and matched (PaperBrokerInvariants.PlaceInv, PaperBrokerInvariants.PlacedAccepted) |
| PaperBrokerSpec.CancelOrder | SimpleCoinTrading.Core/Broker/PaperBroker.cs:136-153 | a stopped broker throws; an unknown id and a finished order are refused with their messages; an open order is canceled by the user (PaperBrokerInvariants.CancelOrderInv) |
| PaperBrokerSpec.CancelAll | SimpleCoinTrading.Core/Broker/PaperBroker.cs:155-172 | a stopped broker throws; otherwise every open order is canceled (PaperBrokerInvariants.CancelAllInv) |
| PaperBrokerInvariants.InitialInv | SimpleCoinTrading.Core/Broker/PaperBroker.cs:44-68 | a new broker satisfies the invariant: total KRW = available + reserved, reserved = sum of per-order reservations, per-symbol coin reserved = sum over its orders, open orders have filled + remaining = quantity |
| PaperBrokerInvariants.StartedEventsInv | SimpleCoinTrading.Core/Broker/PaperBroker.cs:70-72 | starting, stopping and raising events keep the invariant |
| PaperBrokerInvariants.ReleaseMoney | SimpleCoinTrading.Core/Broker/PaperBroker.cs:529-552 | releasing an order keeps the money invariants |
| PaperBrokerInvariants.CloseInv | SimpleCoinTrading.Core/Broker/PaperBroker.cs:497-527 | cancelling or rejecting keeps the invariant |
| PaperBrokerInvariants.CancelInv | SimpleCoinTrading.Core/Broker/PaperBroker.cs:497-511 | CancelInternal keeps the invariant |
| PaperBrokerInvariants.RejectInv | SimpleCoinTrading.Core/Broker/PaperBroker.cs:513-527 | RejectInternal keeps the invariant |
| PaperBrokerInvariants.BuyLegMoney | SimpleCoinTrading.Core/Broker/PaperBroker.cs:401-423 | a buy fill keeps the money invariants and no other order's reservation moves |
| PaperBrokerInvariants.SellLegMoney | SimpleCoinTrading.Core/Broker/PaperBroker.cs:424-447 | a sell fill keeps the money invariants and no other order's reservation moves |
| PaperBrokerInvariants.CoinCovers | SimpleCoinTrading.Core/Broker/PaperBroker.cs:427-437 | a symbol's reserved coin covers each of its orders' reservations, so the Max(0, ...) at line 437 never clips |
| PaperBrokerInvariants.SettleInv | SimpleCoinTrading.Core/Broker/PaperBroker.cs:449-491 | recording a fill, and releasing a completed order, keeps the invariant |
| PaperBrokerInvariants.FillOutcomeInv | SimpleCoinTrading.Core/Broker/PaperBroker.cs:384-495 | a fill of at most the remaining quantity keeps the invariant whether its leg succeeds or not |
| PaperBrokerInvariants.TryFillInv | SimpleCoinTrading.Core/Broker/PaperBroker.cs:384-495 | TryFill keeps the invariant |
| PaperBrokerInvariants.StepInv | SimpleCoinTrading.Core/Broker/PaperBroker.cs:260-319 | one matching step keeps the invariant |
| PaperBrokerInvariants.ScanInv | SimpleCoinTrading.Core/Broker/PaperBroker.cs:260-319 | the matching loop keeps the invariant |
| PaperBrokerInvariants.MatchInv | SimpleCoinTrading.Core/Broker/PaperBroker.cs:239-320 | TryMatchUsingTopOfBook keeps the invariant |
| PaperBrokerInvariants.OnBookInv | SimpleCoinTrading.Core/Broker/PaperBroker.cs:233-237 | a book update keeps the invariant |
| PaperBrokerInvariants.FreshId | SimpleCoinTrading.Core/Broker/PaperBroker.cs:85 | a new order id is in none of the broker's tables |
| PaperBrokerInvariants.CancelUnfilledInv | SimpleCoinTrading.Core/Broker/PaperBroker.cs:119-130 | the IOC/FOK cancel keeps the invariant |
| PaperBrokerInvariants.AdmitInv | SimpleCoinTrading.Core/Broker/PaperBroker.cs:102-112 | storing a reserved order keeps the invariant |
| PaperBrokerInvariants.ImmediateInv | SimpleCoinTrading.Core/Broker/PaperBroker.cs:114-131 | the immediate match and cancel keep the invariant |
| PaperBrokerInvariants.PlacedAccepted | SimpleCoinTrading.Core/Broker/PaperBroker.cs:102-131 | an accepted order is stored and announced, then matched and cancelled as its type and time-in-force say |
| PaperBrokerInvariants.PlaceInv | SimpleCoinTrading.Core/Broker/PaperBroker.cs:74-134 | PlaceOrderAsync keeps the invariant on every path |
| PaperBrokerInvariants.CancelOrderInv | SimpleCoinTrading.Core/Broker/PaperBroker.cs:136-153 | CancelOrderAsync keeps the invariant |
| PaperBrokerInvariants.CancelAllInv | SimpleCoinTrading.Core/Broker/PaperBroker.cs:155-172 | CancelAllAsync keeps the invariant |
| PaperBrokerInvariants.OpenIdsDistinct | SimpleCoinTrading.Core/Broker/PaperBroker.cs:248-253 | the matching loop visits each order once |
| PaperBrokerInvariants.PositionBalanceBounded | SimpleCoinTrading.Core/Broker/PaperBroker.cs:217-224 | each position's balance item has 0 <= available <= total and a positive total |
| PaperBrokerClass.PaperBroker.constructor | SimpleCoinTrading.Core/Broker/PaperBroker.cs:44-68 | the broker's state is Initial(initialKrw) with the given fee rates and slippage, and satisfies the invariant |
| PaperBrokerClass.PaperBroker.Start | SimpleCoinTrading.Core/Broker/PaperBroker.cs:70 | only the started flag becomes true |
| PaperBrokerClass.PaperBroker.Stop | SimpleCoinTrading.Core/Broker/PaperBroker.cs:72 | only the started flag becomes false |
| PaperBrokerClass.PaperBroker.TryReserve | SimpleCoinTrading.Core/Broker/PaperBroker.cs:325-382 | the new state and error are those of Reserve; a refusal changes nothing |
| PaperBrokerClass.PaperBroker.ReserveKrw | SimpleCoinTrading.Core/Broker/PaperBroker.cs:344-360 | the buy branch of Reserve |
| PaperBrokerClass.PaperBroker.ReserveCoin | SimpleCoinTrading.Core/Broker/PaperBroker.cs:361-381 | the sell branch of Reserve |
| PaperBrokerClass.PaperBroker.ReleaseRemainder | SimpleCoinTrading.Core/Broker/PaperBroker.cs:529-552 | the new state is Release of the old |
| PaperBrokerClass.PaperBroker.ReleaseKrwReservation | SimpleCoinTrading.Core/Broker/PaperBroker.cs:532-537 | the new state is ReleaseKrw of the old |
| PaperBrokerClass.PaperBroker.ReleaseCoinReservation | SimpleCoinTrading.Core/Broker/PaperBroker.cs:540-549 | the new state is ReleaseCoin of the old |
| PaperBrokerClass.PaperBroker.CloseInternal | SimpleCoinTrading.Core/Broker/PaperBroker.cs:497-527 | the new state is Close of the old |
| PaperBrokerClass.PaperBroker.TryFill | SimpleCoinTrading.Core/Broker/PaperBroker.cs:384-495 | result and new state are those of the TryFill specification |
| PaperBrokerClass.PaperBroker.ApplyFill | SimpleCoinTrading.Core/Broker/PaperBroker.cs:396-493 | the capped fill's outcome: the leg's success and FillOutcome |
| PaperBrokerClass.PaperBroker.FillBuyLeg | SimpleCoinTrading.Core/Broker/PaperBroker.cs:401-423 | succeeds exactly as BuyLeg does, changing nothing on failure |
| PaperBrokerClass.PaperBroker.FillSellLeg | SimpleCoinTrading.Core/Broker/PaperBroker.cs:424-447 | succeeds exactly as SellLeg does, changing nothing on failure |
| PaperBrokerClass.PaperBroker.TakeSoldCoin | SimpleCoinTrading.Core/Broker/PaperBroker.cs:433-441 | the sold coin leaves the order's and the symbol's reservation and the position |
| PaperBrokerClass.PaperBroker.RecordFill | SimpleCoinTrading.Core/Broker/PaperBroker.cs:449-491 | the new state is Settled: the order updated, events raised, a completed order released |
| PaperBrokerClass.PaperBroker.StepOrder | SimpleCoinTrading.Core/Broker/PaperBroker.cs:260-319 | the new state and remaining top-of-book quantities are those of Step |
| PaperBrokerClass.PaperBroker.MatchTopOfBook | SimpleCoinTrading.Core/Broker/PaperBroker.cs:239-320 | the new state is Match of the old |
| PaperBrokerClass.PaperBroker.OnOrderBookTop | SimpleCoinTrading.Core/Broker/PaperBroker.cs:233-237 | the new state is OnBook of the old and the invariant holds |
| PaperBrokerClass.PaperBroker.PlaceOrder | SimpleCoinTrading.Core/Broker/PaperBroker.cs:74-134 | result and new state are those of Place and the invariant holds |
| PaperBrokerClass.PaperBroker.ExecuteImmediately | SimpleCoinTrading.Core/Broker/PaperBroker.cs:114-131 | the new state is Immediate of the old |
| PaperBrokerClass.PaperBroker.StoreOrder | SimpleCoinTrading.Core/Broker/PaperBroker.cs:108-112 | the new state is Admit of the old |
| PaperBrokerClass.PaperBroker.CancelIfUnfilled | SimpleCoinTrading.Core/Broker/PaperBroker.cs:119-130 | the new state is CancelUnfilled of the old |
| PaperBrokerClass.PaperBroker.CancelOrder | SimpleCoinTrading.Core/Broker/PaperBroker.cs:136-153 | result and new state are those of the CancelOrder specification and the invariant holds |
| PaperBrokerClass.PaperBroker.CancelAll | SimpleCoinTrading.Core/Broker/PaperBroker.cs:155-172 | result and new state are those of the CancelAll specification and the invariant holds |
| PaperBrokerClass.PaperBroker.GetOrder | SimpleCoinTrading.Core/Broker/PaperBroker.cs:174-181 | the order whose id equals the argument ignoring case, none exactly when no such order exists |
| PaperBrokerClass.PaperBroker.GetOpenOrders | SimpleCoinTrading.Core/Broker/PaperBroker.cs:183-195 | exactly the open orders on the symbol ignoring case, by creation time, each once |
| PaperBrokerClass.PaperBroker.GetPosition | SimpleCoinTrading.Core/Broker/PaperBroker.cs:197-204 | the position filed under the symbol ignoring case, none exactly when there is none |
| PaperBrokerClass.PaperBroker.GetAccount | SimpleCoinTrading.Core/Broker/PaperBroker.cs:206-228 | a KRW item with total and available, then one item per position in enumeration order with available = max(0, quantity - reserved) |
| RateLimits.Increment32 | SimpleCoinTrading.Core/Orders/IRateLimiter.cs:49 | Interlocked.Increment on a 32-bit count: one more, except that the largest int wraps to the smallest |
| RateLimits.ConsumeAll | SimpleCoinTrading.Core/Orders/IRateLimiter.cs:33-50 | a run of single-token calls gives one answer per call and keeps the count a 32-bit int |
| RateLimits.TokensOtherThanOne | SimpleCoinTrading.Core/Orders/IRateLimiter.cs:35-36 | a call for zero or fewer tokens is granted and one for more than one throws NotSupportedException; neither changes the window |
| RateLimits.WindowGrants | SimpleCoinTrading.Core/Orders/IRateLimiter.cs:38-49 | within one second the i-th call is granted exactly when the calls counted so far, itself included, are at most maxPerSecond, and the window then counts them all |
| RateLimits.NewSecondRestoresBudget | SimpleCoinTrading.Core/Orders/IRateLimiter.cs:41-47 | the first call in a new second resets the count and is granted |
| RateLimits.CountWraps | SimpleCoinTrading.Core/Orders/IRateLimiter.cs:49 | for every limit and time, a count at the 32-bit maximum wraps to the 32-bit minimum in the same second, and that call is granted exactly when the limit is at least that minimum (every positive limit grants it) |
| RateLimits.Consume | SimpleCoinTrading.Core/Orders/IRateLimiter.cs:33-50 | no tokens is granted; more than one throws; one token counts in the current second, restarting on a new second, with 32-bit wrap-around, and is granted when the count is within the limit (RateLimits.WindowGrants, RateLimits.NewSecondRestoresBudget, RateLimits.TokensOtherThanOne) |
| RateLimits.PerSecondFixedWindowRateLimiter.constructor | SimpleCoinTrading.Core/Orders/IRateLimiter.cs:25-31 | a positive limit gives an empty window and the name given or FixedWindow(n/sec) |
| RateLimits.PerSecondFixedWindowRateLimiter.Create | SimpleCoinTrading.Core/Orders/IRateLimiter.cs:25-31 | throws ArgumentOutOfRangeException exactly when the limit is not positive, else a fresh limiter as the constructor makes it |
| RateLimits.PerSecondFixedWindowRateLimiter.TryConsume | SimpleCoinTrading.Core/Orders/IRateLimiter.cs:33-50 | answer and new window are those of Consume |
| RateLimits.LimiterKey | SimpleCoinTrading.Core/Orders/IRateLimiterFactory.cs:26 | a blank algorithm id maps to UNKNOWN, any other to itself |
| RateLimits.PerAlgorithmRateLimiterFactory.constructor | SimpleCoinTrading.Core/Orders/IRateLimiterFactory.cs:18-22 | no limiters yet |
| RateLimits.PerAlgorithmRateLimiterFactory.GetFor | SimpleCoinTrading.Core/Orders/IRateLimiterFactory.cs:24-30 | an existing key returns its limiter unchanged; a new key gets a fresh limiter with an empty window, or throws when the limit is not positive and adds nothing; existing limiters are never replaced |
| Guards.GuardAfterTrips | SimpleCoinTrading.Core/OrderOrchestrators/ITradingGuard.cs:16-35 | after any run of Trip and Clear the guard is read-only exactly when the last operation is a trip not cleared since, with that trip's reason, and has no reason otherwise |
| Guards.ApplyGuard | SimpleCoinTrading.Core/OrderOrchestrators/ITradingGuard.cs:24-34 | a trip makes the guard read-only with the reason; a clear makes it writable with none (Guards.GuardAfterTrips) |
| Guards.TradingGuard.constructor | SimpleCoinTrading.Core/OrderOrchestrators/ITradingGuard.cs:18-19 | a new guard is not read-only and has no reason |
| Guards.TradingGuard.Trip | SimpleCoinTrading.Core/OrderOrchestrators/ITradingGuard.cs:24-28 | the guard becomes read-only with the given reason |
| Guards.TradingGuard.Clear | SimpleCoinTrading.Core/OrderOrchestrators/ITradingGuard.cs:30-34 | the guard stops being read-only and loses its reason |
| Guards.RegisterAllFirstOnly | SimpleCoinTrading.Core/OrderOrchestrators/IIdempotencyStore.cs:18-22 | over any run of registrations exactly the first offer of each key not seen before is answered true, and every key offered is then seen |
| Guards.Register | SimpleCoinTrading.Core/OrderOrchestrators/IIdempotencyStore.cs:18-22 | a key is accepted exactly when not seen before, and is seen afterwards (Guards.RegisterAllFirstOnly) |
| Guards.InMemoryIdempotencyStore.constructor | SimpleCoinTrading.Core/OrderOrchestrators/IIdempotencyStore.cs:16 | nothing seen yet |
| Guards.InMemoryIdempotencyStore.TryRegister | SimpleCoinTrading.Core/OrderOrchestrators/IIdempotencyStore.cs:18-22 | true exactly when the key was not seen before; the key is seen afterwards |
| Guards.InMemoryOrderIdMap.constructor | SimpleCoinTrading.Core/Orders/IOrderIdMap.cs:14 | the map is empty |
| Guards.InMemoryOrderIdMap.Set | SimpleCoinTrading.Core/Orders/IOrderIdMap.cs:16-17 | the client order id maps to the order id, overwriting any earlier entry; others unchanged |
| Guards.InMemoryOrderIdMap.TryGetOrderId | SimpleCoinTrading.Core/Orders/IOrderIdMap.cs:19-20 | found exactly when the client order id is mapped, with its order id |
| Guards.OwnershipSteps | SimpleCoinTrading.Core/Orders/IOrderOwnershipStore.cs:22-47 | SetOwner and Remove keep every owned order listed under its owner; SetOwner makes the algorithm the owner and lists the order under it; Remove leaves the order unowned and out of the named algorithm's set; no other order's owner changes |
| Guards.ReownKeepsStaleEntry | SimpleCoinTrading.Core/Orders/IOrderOwnershipStore.cs:22-28 | on any ownership table, giving an order to one algorithm and then to a different one makes the second its owner and leaves it listed under both |
| Guards.SetOwnerSpec | SimpleCoinTrading.Core/Orders/IOrderOwnershipStore.cs:22-28 | a missing order id throws and changes nothing; otherwise the order's owner is set and it joins the owner's set (Guards.OwnershipSteps, Guards.ReownKeepsStaleEntry) |
| Guards.RemoveSpec | SimpleCoinTrading.Core/Orders/IOrderOwnershipStore.cs:41-47 | the order loses its owner and leaves the named algorithm's set (Guards.OwnershipSteps) |
| Guards.InMemoryOrderOwnershipStore.constructor | SimpleCoinTrading.Core/Orders/IOrderOwnershipStore.cs:19-20 | both tables are empty |
| Guards.InMemoryOrderOwnershipStore.SetOwner | SimpleCoinTrading.Core/Orders/IOrderOwnershipStore.cs:22-28 | the table becomes SetOwnerSpec: a null order id throws and changes nothing |
| Guards.InMemoryOrderOwnershipStore.TryGetOwner | SimpleCoinTrading.Core/Orders/IOrderOwnershipStore.cs:30-31 | found exactly when the order has an owner, with that owner |
| Guards.InMemoryOrderOwnershipStore.GetOrderIds | SimpleCoinTrading.Core/Orders/IOrderOwnershipStore.cs:33-39 | exactly the orders listed under the algorithm, each once; none for an unknown algorithm |
| Guards.InMemoryOrderOwnershipStore.Remove | SimpleCoinTrading.Core/Orders/IOrderOwnershipStore.cs:41-47 | the table becomes RemoveSpec |
| Lifecycle.EventRules | SimpleCoinTrading.Core/Orders/OrderLifecycleTracker.cs:46-115 | a final update (Filled, Canceled, Rejected, Expired) for an owned order removes exactly that order's ownership; other updates and fills change nothing; a broker error trips the guard with "BrokerError: " and its message; the table stays consistent |
| Lifecycle.EventsKeepOwners | SimpleCoinTrading.Core/Orders/OrderLifecycleTracker.cs:46-93 | over any run of events no order gains or changes its owner and the table stays consistent |
| Lifecycle.EventsTripGuard | SimpleCoinTrading.Core/Orders/OrderLifecycleTracker.cs:109-115 | after a run of events the guard is read-only exactly when it was before or some event was a broker error |
| Lifecycle.CancelTripsGuard | SimpleCoinTrading.Core/Orders/OrderLifecycleTracker.cs:109-115 | a user cancel the paper broker accepts publishes a broker error event, so the tracker trips the guard to read-only |
| Lifecycle.OnEvent | SimpleCoinTrading.Core/Orders/OrderLifecycleTracker.cs:46-115 | a final update of an owned order removes its ownership; a broker error trips the guard; anything else changes nothing (Lifecycle.EventRules) |
| Lifecycle.OnEvents | SimpleCoinTrading.Core/Orders/OrderLifecycleTracker.cs:46-69 | the tracker after a sequence of events, in order (Lifecycle.EventsKeepOwners, Lifecycle.EventsTripGuard) |
| Lifecycle.OrderLifecycleTracker.constructor | SimpleCoinTrading.Core/Orders/OrderLifecycleTracker.cs:18-30 | the tracker holds the ownership store and guard and is not subscribed |
| Lifecycle.OrderLifecycleTracker.Start | SimpleCoinTrading.Core/Orders/OrderLifecycleTracker.cs:32-37 | the tracker is subscribed |
| Lifecycle.OrderLifecycleTracker.Stop | SimpleCoinTrading.Core/Orders/OrderLifecycleTracker.cs:39-44 | the tracker is no longer subscribed |
| Lifecycle.OrderLifecycleTracker.OnBrokerEvent | SimpleCoinTrading.Core/Orders/OrderLifecycleTracker.cs:46-69 | ownership and guard become OnEvent of the old ones |
| Lifecycle.OrderLifecycleTracker.HandleOrderUpdated | SimpleCoinTrading.Core/Orders/OrderLifecycleTracker.cs:71-93 | removes the ownership of an owned order whose update is final, and nothing otherwise |
| Lifecycle.OrderLifecycleTracker.HandleBrokerError | SimpleCoinTrading.Core/Orders/OrderLifecycleTracker.cs:109-115 | the guard trips with "BrokerError: " and the message |
| Lifecycle.OrderLifecycleTracker.OnBrokerError | SimpleCoinTrading.Core/Orders/OrderLifecycleTracker.cs:117-121 | the guard trips with "Broker stream error: " and the exception message |
| KillSwitch.GateBlocksOrPasses | SimpleCoinTrading.Core/Broker/KillSwitchBroker.cs:23-32 | with the kill switch on an order throws and the broker is untouched; with it off the order goes to the inner broker unchanged |
| KillSwitch.GatedPlace | SimpleCoinTrading.Core/Broker/KillSwitchBroker.cs:23-32 | with the switch on, placing throws and leaves the inner broker; off, it is the inner broker's placement (KillSwitch.GateBlocksOrPasses) |
| KillSwitch.KillSwitchBroker.constructor | SimpleCoinTrading.Core/Broker/KillSwitchBroker.cs:7-11 | wraps the given broker and trading state |
| KillSwitch.KillSwitchBroker.Name | SimpleCoinTrading.Core/Broker/KillSwitchBroker.cs:19 | the inner broker's name |
| KillSwitch.KillSwitchBroker.Events | SimpleCoinTrading.Core/Broker/KillSwitchBroker.cs:16 | the inner broker's events |
| KillSwitch.KillSwitchBroker.PlaceOrder | SimpleCoinTrading.Core/Broker/KillSwitchBroker.cs:23-32 | refuses with an exception, changing nothing, when the kill switch is on, else places the order on the inner broker |
| KillSwitch.KillSwitchBroker.CancelOrder | SimpleCoinTrading.Core/Broker/KillSwitchBroker.cs:34 | passes the cancel to the inner broker |
| KillSwitch.KillSwitchBroker.CancelAll | SimpleCoinTrading.Core/Broker/KillSwitchBroker.cs:17 | passes CancelAll to the inner broker |
| KillSwitch.KillSwitchBroker.Start | SimpleCoinTrading.Core/Broker/KillSwitchBroker.cs:20 | starts the inner broker |
| KillSwitch.KillSwitchBroker.Stop | SimpleCoinTrading.Core/Broker/KillSwitchBroker.cs:21 | stops the inner broker |
| KillSwitch.KillSwitchBroker.GetOrder | SimpleCoinTrading.Core/Broker/KillSwitchBroker.cs:36 | the inner broker's order lookup |
| KillSwitch.KillSwitchBroker.GetOpenOrders | SimpleCoinTrading.Core/Broker/KillSwitchBroker.cs:38 | the inner broker's open orders on the symbol, oldest first, each order once |
| KillSwitch.KillSwitchBroker.GetPosition | SimpleCoinTrading.Core/Broker/KillSwitchBroker.cs:40 | the inner broker's position lookup |
| KillSwitch.KillSwitchBroker.GetAccount | SimpleCoinTrading.Core/Broker/KillSwitchBroker.cs:14 | the inner broker's account snapshot |
| Orchestration.AutoClientOrderId | SimpleCoinTrading.Core/OrderOrchestrators/DelegateOrchestrator.cs:64 | a generated client order id starts with "AUTO:" and has more after it |
| Orchestration.AutoIdsDiffer | SimpleCoinTrading.Core/OrderOrchestrators/DelegateOrchestrator.cs:64 | two generated ids with different GUIDs differ |
| Orchestration.Identify | SimpleCoinTrading.Core/OrderOrchestrators/DelegateOrchestrator.cs:60-66 | a blank or missing client order id is replaced by a generated one, consuming one GUID; any other is kept; the request carries the id used |
| Orchestration.LimitStepInRange | SimpleCoinTrading.Core/OrderOrchestrators/DelegateOrchestrator.cs:75-76 | the limiter windows stay 32-bit after a check |
| Orchestration.ReadOnlyRefuses | SimpleCoinTrading.Core/OrderOrchestrators/DelegateOrchestrator.cs:51-57 | a read-only guard refuses with "ReadOnly: " and the reason (or "enabled") before anything else is touched |
| Orchestration.DuplicateRefused | SimpleCoinTrading.Core/OrderOrchestrators/DelegateOrchestrator.cs:69-72 | a client order id seen before is refused as a duplicate and the limiters and guard are untouched |
| Orchestration.RateLimitTrips | SimpleCoinTrading.Core/OrderOrchestrators/DelegateOrchestrator.cs:74-82 | a limiter refusal throws, trips the guard naming the limiter, and leaves the client order id seen |
| Orchestration.AdmitRules | SimpleCoinTrading.Core/OrderOrchestrators/DelegateOrchestrator.cs:42-82 | a request is admitted exactly when the guard is not read-only, its client order id is new and its algorithm's limiter grants; past the guard the id is always registered |
| Orchestration.BrokerOnlyAfterChecks | SimpleCoinTrading.Core/OrderOrchestrators/DelegateOrchestrator.cs:42-85 | the broker is called exactly when every check passed; a refusal changes only the checks' own state |
| Orchestration.AcceptedIsRecorded | SimpleCoinTrading.Core/OrderOrchestrators/DelegateOrchestrator.cs:85-90 | an ack with an order id means the kill switch was off, and the client id maps to that order id, which is owned by the algorithm |
| Orchestration.RecordKeepsBooksValid | SimpleCoinTrading.Core/OrderOrchestrators/DelegateOrchestrator.cs:89-90 | recording an ack keeps every mapped client id registered and the ownership table consistent |
| Orchestration.DispatchKeepsBooksValid | SimpleCoinTrading.Core/OrderOrchestrators/DelegateOrchestrator.cs:85-90 | sending and recording keep the books and the broker's invariant |
| Orchestration.PlaceKeepsDeskValid | SimpleCoinTrading.Core/OrderOrchestrators/DelegateOrchestrator.cs:42-93 | a whole placement keeps the desk and the broker's invariant |
| Orchestration.RejectedOrderThrows | SimpleCoinTrading.Core/OrderOrchestrators/DelegateOrchestrator.cs:89-90 | as written, a broker rejection (ack without order id) maps the client id to null and then throws from SetOwner; corrected, the rejection is returned and nothing is recorded |
| Orchestration.CancelAttemptsInv | SimpleCoinTrading.Core/OrderOrchestrators/DelegateOrchestrator.cs:117-128 | cancelling a list of orders, each failure swallowed, keeps the broker's invariant |
| Orchestration.WindowsInRange | SimpleCoinTrading.Core/OrderOrchestrators/DelegateOrchestrator.cs:75 | every limiter window the factory holds is in 32-bit range |
| Orchestration.AlgorithmIdOf | SimpleCoinTrading.Core/OrderOrchestrators/DelegateOrchestrator.cs:44 | a request without an algorithm id is placed for "UNKNOWN" |
| Orchestration.LimitStep | SimpleCoinTrading.Core/OrderOrchestrators/DelegateOrchestrator.cs:75-76 | the algorithm's window is used, or a new one made, and one token consumed; a new limiter with a non-positive limit throws (Orchestration.LimitStepInRange) |
| Orchestration.LimitStage | SimpleCoinTrading.Core/OrderOrchestrators/DelegateOrchestrator.cs:74-82 | a refused token trips the guard with the limiter's name and throws; a granted one admits the request (Orchestration.RateLimitTrips) |
| Orchestration.Admit | SimpleCoinTrading.Core/OrderOrchestrators/DelegateOrchestrator.cs:44-82 | the guard, then the client order id (generated when blank, then registered), then the limiter, in that order (Orchestration.ReadOnlyRefuses, Orchestration.DuplicateRefused, Orchestration.AdmitRules) |
| Orchestration.Record | SimpleCoinTrading.Core/OrderOrchestrators/DelegateOrchestrator.cs:89-90 | corrected: an ack with an order id maps the client id to it and records the owner; one without changes nothing (Orchestration.RecordKeepsBooksValid) |
| Orchestration.RecordAsWritten | SimpleCoinTrading.Core/OrderOrchestrators/DelegateOrchestrator.cs:89-90 | as written: the id map is updated even for a missing order id, and the owner record then throws (Orchestration.RejectedOrderThrows) |
| Orchestration.Dispatch | SimpleCoinTrading.Core/OrderOrchestrators/DelegateOrchestrator.cs:85-90 | corrected: the kill-switch broker places the order and an accepted ack is recorded (Orchestration.DispatchKeepsBooksValid, Orchestration.AcceptedIsRecorded) |
| Orchestration.DispatchAsWritten | SimpleCoinTrading.Core/OrderOrchestrators/DelegateOrchestrator.cs:85-90 | as written: every returned ack is recorded, so a rejection throws (Orchestration.RejectedOrderThrows) |
| Orchestration.PlaceOrderSpec | SimpleCoinTrading.Core/OrderOrchestrators/DelegateOrchestrator.cs:42-93 | corrected PlaceOrderAsync: a refusal leaves the books and does not reach the broker; an admitted request is dispatched (Orchestration.BrokerOnlyAfterChecks, Orchestration.PlaceKeepsDeskValid) |
| Orchestration.PlaceOrderAsWritten | SimpleCoinTrading.Core/OrderOrchestrators/DelegateOrchestrator.cs:42-93 | PlaceOrderAsync as written, with the unconditional recording; see "## Findings" |
| Orchestration.DelegatingOrchestrator.constructor | SimpleCoinTrading.Core/OrderOrchestrators/DelegateOrchestrator.cs:20-35 | the orchestrator holds its collaborators and has generated no ids |
| Orchestration.DelegatingOrchestrator.GetOrder | SimpleCoinTrading.Core/OrderOrchestrators/DelegateOrchestrator.cs:37-40 | the broker's order whose id equals the argument ignoring case, if any |
| Orchestration.DelegatingOrchestrator.ConsumeFrom | SimpleCoinTrading.Core/OrderOrchestrators/DelegateOrchestrator.cs:76 | one token from the limiter: result and window are those of Consume |
| Orchestration.DelegatingOrchestrator.ConsumeFor | SimpleCoinTrading.Core/OrderOrchestrators/DelegateOrchestrator.cs:75-76 | the algorithm's limiter, created on first use, consumes one token as LimitStep says |
| Orchestration.DelegatingOrchestrator.LimitCheck | SimpleCoinTrading.Core/OrderOrchestrators/DelegateOrchestrator.cs:74-82 | the rate-limit stage: admitted exactly as LimitStage says, with its refusal and guard trip |
| Orchestration.DelegatingOrchestrator.RegisterClientId | SimpleCoinTrading.Core/OrderOrchestrators/DelegateOrchestrator.cs:60-72 | the client order id is chosen as Identify says and registered as Register says |
| Orchestration.DelegatingOrchestrator.CheckAdmission | SimpleCoinTrading.Core/OrderOrchestrators/DelegateOrchestrator.cs:44-82 | the checks' answer, refusal and new state are those of Admit; an admitted client id is registered; the books are untouched |
| Orchestration.DelegatingOrchestrator.RecordAck | SimpleCoinTrading.Core/OrderOrchestrators/DelegateOrchestrator.cs:89-90 | corrected, see "## Findings": the books become Record of the old books, so an ack without an order id records nothing (as written: Orchestration.RecordAsWritten) |
| Orchestration.DelegatingOrchestrator.SendAndRecord | SimpleCoinTrading.Core/OrderOrchestrators/DelegateOrchestrator.cs:85-90 | corrected, see "## Findings": the outcome and books are those of Dispatch and the books stay valid (as written: Orchestration.DispatchAsWritten) |
| Orchestration.DelegatingOrchestrator.PlaceOrder | SimpleCoinTrading.Core/OrderOrchestrators/DelegateOrchestrator.cs:42-93 | corrected, see "## Findings": checks as Admit says; a refusal changes no books; an admitted request's outcome and books are those of Dispatch, so a rejected order is returned rather than thrown (as written: Orchestration.PlaceOrderAsWritten) |
| Orchestration.DelegatingOrchestrator.CancelByClientOrderId | SimpleCoinTrading.Core/OrderOrchestrators/DelegateOrchestrator.cs:95-101 | an unknown client id throws and changes nothing; a known one cancels its order on the broker as CancelOrder says |
| Orchestration.DelegatingOrchestrator.Cancel | SimpleCoinTrading.Core/OrderOrchestrators/DelegateOrchestrator.cs:103-104 | the broker cancels the order as CancelOrder says |
| Orchestration.DelegatingOrchestrator.CancelAll | SimpleCoinTrading.Core/OrderOrchestrators/DelegateOrchestrator.cs:106-107 | the broker's CancelAll |
| Orchestration.DelegatingOrchestrator.CancelAllByAlgorithm | SimpleCoinTrading.Core/OrderOrchestrators/DelegateOrchestrator.cs:109-129 | cancels each order owned by the algorithm (blank means UNKNOWN) exactly once, swallowing failures |
| Orchestration.DelegatingOrchestrator.CancelEach | SimpleCoinTrading.Core/OrderOrchestrators/DelegateOrchestrator.cs:117-128 | the loop: the broker state is CancelAttempts over the ids |
| Snapshots.Newest | SimpleCoinTrading.Core/TradingState.cs:109-114 | after trimming the queue holds the newest min(length, cap) items in their order; nothing is dropped below the cap |
| Snapshots.NewestAppend | SimpleCoinTrading.Core/TradingState.cs:66-70 | enqueuing then trimming keeps exactly the newest cap items of the whole fill history |
| Snapshots.Reversed | SimpleCoinTrading.Core/TradingState.cs:99 | the recent fills are listed newest first: item i is the (n-1-i)-th enqueued |
| Snapshots.InsertByRecencyFacts | SimpleCoinTrading.Core/TradingState.cs:98 | inserting an order into a newest-first list keeps it newest-first and adds exactly that order |
| Snapshots.NewestFirstSnoc | SimpleCoinTrading.Core/TradingState.cs:98 | an order no newer than every listed one may go last |
| Snapshots.ByRecencySorted | SimpleCoinTrading.Core/TradingState.cs:98 | the orders are listed by UpdatedUtc ?? CreatedUtc, newest first, as a permutation of the stored orders |
| Snapshots.NameLeTotal | SimpleCoinTrading.Core/TradingState.cs:100-101 | any two names are ordered one way or the other |
| Snapshots.NameLeTrans | SimpleCoinTrading.Core/TradingState.cs:100-101 | the name ordering is transitive |
| Snapshots.InsertByNameFacts | SimpleCoinTrading.Core/TradingState.cs:100-101 | inserting by name keeps a name-sorted list sorted and adds exactly the item |
| Snapshots.ByNameSnoc | SimpleCoinTrading.Core/TradingState.cs:100-101 | an item whose name is not below any listed one may go last |
| Snapshots.ByNameSortedFacts | SimpleCoinTrading.Core/TradingState.cs:100-101 | positions and algorithms are listed sorted by name, as a permutation of the stored values |
| Snapshots.ValuesIn | SimpleCoinTrading.Core/TradingState.cs:98-101 | the values of a dictionary listed in a given key order, one per key |
| Snapshots.ListValues | SimpleCoinTrading.Core/TradingState.cs:98-101 | enumerating a dictionary's values yields one per entry, each keyed once |
| Trading.RecentFillsCap | SimpleCoinTrading.Core/TradingState.cs:50-53 | the cap is max(10, maxRecentFills) |
| Trading.UpdatePosition | SimpleCoinTrading.Core/TradingState.cs:125-147 | a buy adds the quantity and makes the price the weighted average (0 when flat); a sell subtracts the quantity but never below 0 and keeps the average price |
| Trading.FirstFillAgainstFlat | SimpleCoinTrading.Core/TradingState.cs:116-123 | a first buy fill is the update of a flat position, but a first sell fill goes negative where the update of a flat position stops at 0 |
| Trading.ApplyCounters | SimpleCoinTrading.Core/TradingState.cs:44-88 | every call moves the sequence number on by one; only a fill changes the recent fills (enqueue then trim) and only SetKillSwitch the switch |
| Trading.RunStep | SimpleCoinTrading.Core/TradingState.cs:44-88 | a run of calls ends as its last call applied to the run before it |
| Trading.RunCounts | SimpleCoinTrading.Core/TradingState.cs:44-88 | after n calls the sequence number has grown by n and the recent fills are the newest cap fills of the whole history |
| Trading.RunKillSwitch | SimpleCoinTrading.Core/TradingState.cs:44-48 | the kill switch is on exactly when the last SetKillSwitch enabled it, and unchanged without one |
| Trading.OrderUpdatedUpserts | SimpleCoinTrading.Core/TradingState.cs:60-64 | an order update replaces the order with the same id ignoring case and leaves every other order |
| Trading.FirstFillPosition | SimpleCoinTrading.Core/TradingState.cs:116-123 | a symbol's first fill opens a long position for a buy and a short one for a sell, at the fill price (Trading.FirstFillAgainstFlat) |
| Trading.PositionAfter | SimpleCoinTrading.Core/TradingState.cs:75-79 | the position table's AddOrUpdate: open from the first fill, or update the existing position (Trading.UpdatePosition) |
| Trading.Apply | SimpleCoinTrading.Core/TradingState.cs:44-88 | one call's change, and the sequence number moves on by one (Trading.ApplyCounters) |
| Trading.Run | SimpleCoinTrading.Core/TradingState.cs:44-88 | the state after a sequence of calls, in order (Trading.RunStep, Trading.RunCounts, Trading.RunKillSwitch) |
| Trading.TradingState.KillSwitchEnabled | SimpleCoinTrading.Core/TradingState.cs:42 | on exactly when the switch is 1 |
| Trading.TradingState.constructor | SimpleCoinTrading.Core/TradingState.cs:50-53 | sequence 0, switch off, nothing stored, cap max(10, n), market data OK |
| Trading.TradingState.NextSeq | SimpleCoinTrading.Core/TradingState.cs:55 | the sequence number grows by one and is returned |
| Trading.TradingState.SetKillSwitch | SimpleCoinTrading.Core/TradingState.cs:44-48 | the switch is set and the sequence number grows by one |
| Trading.TradingState.ApplyOrderUpdated | SimpleCoinTrading.Core/TradingState.cs:60-64 | the order is upserted and the sequence number grows by one |
| Trading.TradingState.TrimRecentFills | SimpleCoinTrading.Core/TradingState.cs:109-114 | the loop leaves the newest cap fills |
| Trading.TradingState.ApplyFill | SimpleCoinTrading.Core/TradingState.cs:66-82 | the fill is enqueued and trimmed, the symbol's position created or updated, and the sequence number grows by one |
| Trading.TradingState.ApplyAlgorithmState | SimpleCoinTrading.Core/TradingState.cs:84-88 | the algorithm's entry is replaced and the sequence number grows by one |
| Trading.TradingState.Snapshot | SimpleCoinTrading.Core/TradingState.cs:92-105 | the snapshot carries the sequence, switch and market data status; orders newest first, recent fills newest first, positions and algorithms sorted by name, each list a permutation of the stored values |
| OrderProjection.RunMirrorsTradingState | SimpleCoinTrading.Core/Orders/OrderStateProjection.cs:18-94 | fed the same calls, the projection ends exactly as the order side of a TradingState |
| OrderProjection.Apply | SimpleCoinTrading.Core/Orders/OrderStateProjection.cs:38-67 | one call's change to the order-side state, and the sequence number moves on by one |
| OrderProjection.Run | SimpleCoinTrading.Core/Orders/OrderStateProjection.cs:38-67 | the projection after a sequence of calls, in order |
| OrderProjection.Project | SimpleCoinTrading.Core/Orders/OrderStateProjection.cs:18-36 | the order-side part of a TradingState; OrderProjection.RunMirrorsTradingState proves that running calls commutes with it |
| OrderProjection.OrderStateProjection.KillSwitchEnabled | SimpleCoinTrading.Core/Orders/OrderStateProjection.cs:36 | on exactly when the switch is 1 |
| OrderProjection.OrderStateProjection.constructor | SimpleCoinTrading.Core/Orders/OrderStateProjection.cs:44-47 | sequence 0, switch off, no orders or fills, cap max(10, n), market data OK |
| OrderProjection.OrderStateProjection.NextSeq | SimpleCoinTrading.Core/Orders/OrderStateProjection.cs:49 | the sequence number grows by one and is returned |
| OrderProjection.OrderStateProjection.SetKillSwitch | SimpleCoinTrading.Core/Orders/OrderStateProjection.cs:38-42 | the switch is set and the sequence number grows by one |
| OrderProjection.OrderStateProjection.ApplyOrderUpdated | SimpleCoinTrading.Core/Orders/OrderStateProjection.cs:54-58 | the order is upserted and the sequence number grows by one |
| OrderProjection.OrderStateProjection.TrimRecentFills | SimpleCoinTrading.Core/Orders/OrderStateProjection.cs:88-93 | the loop leaves the newest cap fills |
| OrderProjection.OrderStateProjection.ApplyFill | SimpleCoinTrading.Core/Orders/OrderStateProjection.cs:60-67 | the fill is enqueued and trimmed and the sequence number grows by one |
| OrderProjection.OrderStateProjection.Snapshot | SimpleCoinTrading.Core/Orders/OrderStateProjection.cs:73-84 | the snapshot carries the sequence, switch and market data status, the orders newest first as a permutation of those stored, and the recent fills newest first |
| Positions.Abs | SimpleCoinTrading.Core/Positions/PositionProjection.cs:119-120 | the magnitude: non-negative and equal to x or -x |
| Positions.Norm | SimpleCoinTrading.Core/Positions/PositionProjection.cs:174 | a blank algorithm id becomes UNKNOWN, any other stays |
| Positions.FillConserves | SimpleCoinTrading.Core/Positions/PositionProjection.cs:98-156 | a fill moves the net quantity by +qty for a buy and -qty for a sell, and the cost basis (realized PnL minus net quantity times average price) by minus that quantity times the price minus the fee; nothing but quantity, average and realized PnL changes |
| Positions.ClosingLong | SimpleCoinTrading.Core/Positions/PositionProjection.cs:130-154 | the realized PnL of closing a long is what keeps the cost basis conserved, in each of the flat, partial and reversal cases |
| Positions.AddingAverages | SimpleCoinTrading.Core/Positions/PositionProjection.cs:116-127 | adding in the same direction keeps the side and puts the new average between the old average and the fill price |
| Positions.ReducingAverages | SimpleCoinTrading.Core/Positions/PositionProjection.cs:107-154 | from flat the average is the fill price; a partial close keeps the average and side; a full close leaves quantity and average 0; a reversal flips the side at the fill price |
| Positions.RoundTrip | SimpleCoinTrading.Core/Positions/PositionProjection.cs:98-156 | opening then closing the same quantity from flat leaves nothing held and realizes quantity x price difference less both fees |
| Positions.FillsMoveQuantity | SimpleCoinTrading.Core/Positions/PositionProjection.cs:98-156 | after any run of fills the net quantity is the sum of their signed quantities |
| Positions.FillsConserve | SimpleCoinTrading.Core/Positions/PositionProjection.cs:98-156 | after any run of fills the cost basis has moved by exactly the run's cash flow |
| Positions.MarkToMarket | SimpleCoinTrading.Core/Positions/PositionProjection.cs:158-171 | unrealized PnL is (last - avg) x net quantity for long and short alike, 0 without a last price or average; nothing else changes |
| Positions.MarkedProfit | SimpleCoinTrading.Core/Positions/PositionProjection.cs:158-171 | realized plus unrealized PnL equals the cost basis plus the marked value of the holding |
| Positions.ProfitFromFlat | SimpleCoinTrading.Core/Positions/PositionProjection.cs:52-96 | from flat, total PnL after any run of fills marked at a price is the fills' cash flow plus net quantity times that price |
| Positions.OnFillRules | SimpleCoinTrading.Core/Positions/PositionProjection.cs:52-80 | a fill books into the position of (owner or UNKNOWN, symbol), created flat when new; no other position changes |
| Positions.OnTickRules | SimpleCoinTrading.Core/Positions/PositionProjection.cs:82-96 | a tick marks every position of its symbol at the price and time; quantities, averages and realized PnL are untouched and other symbols unchanged |
| Positions.Opened | SimpleCoinTrading.Core/Positions/PositionProjection.cs:107-114 | a fill on a flat position opens it at the fill price, net of the fee |
| Positions.Added | SimpleCoinTrading.Core/Positions/PositionProjection.cs:116-127 | a fill in the position's direction makes the average the quantity-weighted mean (Positions.AddingAverages) |
| Positions.Reduced | SimpleCoinTrading.Core/Positions/PositionProjection.cs:129-155 | a fill against the position realizes the closed part; the average becomes 0 when flat, the fill price when the sign flips, and stays otherwise (Positions.ReducingAverages, Positions.ClosingLong) |
| Positions.ApplyFill | SimpleCoinTrading.Core/Positions/PositionProjection.cs:98-156 | the average-cost rule choosing between opening, adding and reducing (Positions.FillConserves, Positions.RoundTrip, Positions.FillsMoveQuantity) |
| Positions.Recalc | SimpleCoinTrading.Core/Positions/PositionProjection.cs:158-171 | unrealized profit is 0 without quantity, last price or average, and otherwise the mark against the average on the held quantity (Positions.MarkToMarket, Positions.MarkedProfit) |
| Positions.OnFillSpec | SimpleCoinTrading.Core/Positions/PositionProjection.cs:52-80 | the fill's owner and symbol select the position, created flat if new, which takes the fill and is marked again (Positions.OnFillRules) |
| Positions.OnTickSpec | SimpleCoinTrading.Core/Positions/PositionProjection.cs:82-96 | every position in the symbol takes the last price and is marked again; others are unchanged (Positions.OnTickRules) |
| Positions.PositionState.constructor | SimpleCoinTrading.Core/Positions/PositionProjection.cs:60-70 | a flat position of the algorithm and symbol |
| Positions.PositionState.ApplyFillAvgCost | SimpleCoinTrading.Core/Positions/PositionProjection.cs:98-156 | the fields become ApplyFill of the old ones |
| Positions.PositionState.Open | SimpleCoinTrading.Core/Positions/PositionProjection.cs:107-114 | entering from flat |
| Positions.PositionState.Add | SimpleCoinTrading.Core/Positions/PositionProjection.cs:116-127 | adding in the same direction |
| Positions.PositionState.Reduce | SimpleCoinTrading.Core/Positions/PositionProjection.cs:129-155 | closing, reducing or reversing |
| Positions.PositionState.RecalcUnrealized | SimpleCoinTrading.Core/Positions/PositionProjection.cs:158-171 | the unrealized PnL is recomputed as Recalc |
| Positions.PositionProjection.constructor | SimpleCoinTrading.Core/Positions/PositionProjection.cs:36-39 | no positions and nothing published |
| Positions.PositionProjection.Snapshot | SimpleCoinTrading.Core/Positions/PositionProjection.cs:41-47 | every position when the algorithm id is blank, else exactly those of that algorithm, each once |
| Positions.PositionProjection.TryGet | SimpleCoinTrading.Core/Positions/PositionProjection.cs:49-50 | found exactly when a position exists under (Norm(algorithmId), symbol), with its values |
| Positions.PositionProjection.Book | SimpleCoinTrading.Core/Positions/PositionProjection.cs:72-77 | the position's values become the fill applied, marked, and stamped with the time |
| Positions.PositionProjection.Create | SimpleCoinTrading.Core/Positions/PositionProjection.cs:60-70 | a fresh flat position is filed under the key |
| Positions.PositionProjection.OnFill | SimpleCoinTrading.Core/Positions/PositionProjection.cs:52-80 | the positions become OnFillSpec of the old and the changed position is returned |
| Positions.PositionProjection.TickOne | SimpleCoinTrading.Core/Positions/PositionProjection.cs:90-92 | one position is marked at the price and time |
| Positions.PositionProjection.FiledUnderOwnKey | SimpleCoinTrading.Core/Positions/PositionProjection.cs:60 | every position is filed under its own algorithm and symbol |
| Positions.PositionProjection.TickEach | SimpleCoinTrading.Core/Positions/PositionProjection.cs:88-93 | exactly the listed positions are marked, the others unchanged |
| Positions.PositionProjection.OnTick | SimpleCoinTrading.Core/Positions/PositionProjection.cs:82-96 | the positions become OnTickSpec of the old and the affected ones are exactly those of the symbol, each once |
| Positions.PositionProjection.PublishFills | SimpleCoinTrading.Core/Positions/PositionProjection.cs:180-184 | one change per position, marked removed exactly when flat |
| Positions.PositionProjection.HandleFill | SimpleCoinTrading.Core/Positions/PositionProjection.cs:176-185 | books the fill as OnFill and publishes one change, removed exactly when the position is flat |
| Positions.PositionProjection.PublishTicks | SimpleCoinTrading.Core/Positions/PositionProjection.cs:191-197 | one change per non-flat position, in order |
| Positions.PositionProjection.HandleTick | SimpleCoinTrading.Core/Positions/PositionProjection.cs:187-198 | marks as OnTick and publishes a change for each affected position that is not flat |
| CsvParsing.ScanCountsCommas | SimpleCoinTrading.Infrastructure/Replay/CsvParser.cs:143-168 | the splitter emits one field per comma outside quotes |
| CsvParsing.FieldCount | SimpleCoinTrading.Infrastructure/Replay/CsvParser.cs:134-171 | an empty line gives no fields, any other line one more field than it has unquoted commas |
| CsvParsing.ScanPlain | SimpleCoinTrading.Infrastructure/Replay/CsvParser.cs:159-167 | characters of a field without quotes or commas are copied into the current field |
| CsvParsing.ScanPlainJoin | SimpleCoinTrading.Infrastructure/Replay/CsvParser.cs:143-170 | scanning plain fields joined by commas collects all but the last field and holds the last one open |
| CsvParsing.PlainRoundTrip | SimpleCoinTrading.Infrastructure/Replay/CsvParser.cs:134-171 | splitting plain fields joined by commas gives back exactly those fields (no fields for the empty line) |
| CsvParsing.ScanUnquoted | SimpleCoinTrading.Infrastructure/Replay/CsvParser.cs:143-168 | on text without quotes the scan keeps the fields already found, never enters quotes, and the new fields joined back are the text |
| CsvParsing.UnquotedLine | SimpleCoinTrading.Infrastructure/Replay/CsvParser.cs:134-171 | a non-empty line without quotes splits into quote-free fields that join back to the line |
| CsvParsing.ScanEscaped | SimpleCoinTrading.Infrastructure/Replay/CsvParser.cs:147-157 | inside quotes a doubled quote yields one quote character and a single quote closes the quoted part |
| CsvParsing.EscapeUnquoted | SimpleCoinTrading.Infrastructure/Replay/CsvParser.cs:149-157 | text without quotes needs no escaping |
| CsvParsing.QuotesInsideField | SimpleCoinTrading.Infrastructure/Replay/CsvParser.cs:147-157 | quotes in the middle of a field only switch comma handling and are dropped: the pieces form one field |
| CsvParsing.QuoteAll | SimpleCoinTrading.Infrastructure/Replay/CsvParser.cs:147-157 | every field is enclosed in quotes with inner quotes doubled |
| CsvParsing.ScanQuoted | SimpleCoinTrading.Infrastructure/Replay/CsvParser.cs:147-157 | a quoted field is read back as its original text |
| CsvParsing.ScanQuotedJoin | SimpleCoinTrading.Infrastructure/Replay/CsvParser.cs:143-170 | scanning quoted fields joined by commas collects all but the last field and holds the last one open |
| CsvParsing.QuotedRoundTrip | SimpleCoinTrading.Infrastructure/Replay/CsvParser.cs:134-171 | any non-empty list of fields, each quoted with inner quotes doubled and joined by commas, splits back to exactly that list, commas and quotes included |
| CsvParsing.SplitCsvLine | SimpleCoinTrading.Infrastructure/Replay/CsvParser.cs:134-172 | the loop computes the splitter Split |
| CsvParsing.ColumnKeys | SimpleCoinTrading.Infrastructure/Replay/CsvParser.cs:21-24 | each header name is trimmed and compared without regard to ASCII case |
| CsvParsing.FirstColumnWins | SimpleCoinTrading.Infrastructure/Replay/CsvParser.cs:21-25 | a key is indexed exactly when some column has it, and it maps to the first such column |
| CsvParsing.Lookup | SimpleCoinTrading.Infrastructure/Replay/CsvParser.cs:69-76 | a value is found exactly when the column is known, within the row and not blank; it is the trimmed cell and is non-empty |
| CsvParsing.LookupDecimal | SimpleCoinTrading.Infrastructure/Replay/CsvParser.cs:78-84 | a missing cell gives no number; otherwise the invariant-culture parse is tried first and the ko-KR parse after it |
| CsvParsing.ParseBarFails | SimpleCoinTrading.Infrastructure/Replay/CsvParser.cs:29-67 | a line is rejected exactly when the header was not read, the line is empty, no time parses, or any of the four prices is missing |
| CsvParsing.ParseBarFields | SimpleCoinTrading.Infrastructure/Replay/CsvParser.cs:37-66 | prices come from opening_price, high_price, low_price and trade_price; time from the UTC column when it parses, otherwise from the Korean-time column; volume from candle_acc_trade_volume, else volume, else 0 |
| CsvParsing.ColumnIndex | SimpleCoinTrading.Infrastructure/Replay/CsvParser.cs:19-25 | the loop builds the first-position index of the header keys |
| CsvParsing.ScanFrom | SimpleCoinTrading.Infrastructure/Replay/CsvParser.cs:143-170 | the splitter state after reading the rest of a line: quotes toggle quoting, a doubled quote inside quotes is one quote, an unquoted comma ends a field (CsvParsing.ScanCountsCommas, CsvParsing.ScanPlain, CsvParsing.ScanQuoted) |
| CsvParsing.Split | SimpleCoinTrading.Infrastructure/Replay/CsvParser.cs:134-172 | no fields for the empty line, otherwise the ended fields and the last one (CsvParsing.FieldCount, CsvParsing.PlainRoundTrip, CsvParsing.QuotedRoundTrip) |
| CsvParsing.BarTime | SimpleCoinTrading.Infrastructure/Replay/CsvParser.cs:37-50 | the UTC column when it reads as a time, else the Korean-time column when it does, else none |
| CsvParsing.BarVolume | SimpleCoinTrading.Infrastructure/Replay/CsvParser.cs:57-63 | the accumulated volume column, else the volume column, else 0 |
| CsvParsing.ParseBar | SimpleCoinTrading.Infrastructure/Replay/CsvParser.cs:29-67 | no bar before a header, for an empty line, without a time or with a missing price; otherwise the bar of those columns (CsvParsing.ParseBarFails, CsvParsing.ParseBarFields) |
| CsvParsing.CsvBarParser.constructor | SimpleCoinTrading.Infrastructure/Replay/CsvParser.cs:14-15 | an empty index and not initialized |
| CsvParsing.CsvBarParser.InitFromHeader | SimpleCoinTrading.Infrastructure/Replay/CsvParser.cs:17-27 | the index is rebuilt from the header and the parser is initialized |
| CsvParsing.CsvBarParser.TryParseBar | SimpleCoinTrading.Infrastructure/Replay/CsvParser.cs:29-67 | the result is ParseBar of the current index and state |
| LogHub.LogKey | SimpleCoinTrading.Core/Logs/AlgorithmLogHub.cs:21 | a blank algorithm id is filed under UNKNOWN, any other id as given |
| LogHub.WriteThenRead | SimpleCoinTrading.Core/Logs/AlgorithmLogHub.cs:19-40 | right after a write, reading that algorithm with a positive limit returns as many events as limit, history and capacity allow, the written event last |
| LogHub.OtherIdsUnaffected | SimpleCoinTrading.Core/Logs/AlgorithmLogHub.cs:19-40 | a write does not change what is read back for any other algorithm id |
| LogHub.BlankReadsUnknown | SimpleCoinTrading.Core/Logs/AlgorithmLogHub.cs:36-39 | reading a blank id reads the UNKNOWN history |
| LogHub.ReadsTheWrites | SimpleCoinTrading.Core/Logs/AlgorithmLogHub.cs:19-40 | after any run of writes, reading an id returns the newest events written under that id, bounded by capacity and limit, in write order |
| LogHub.WrittenTail | SimpleCoinTrading.Core/Logs/AlgorithmLogHub.cs:19-24 | the events written under a key grow by the last event exactly when it is filed under that key |
| LogHub.HistoryOfWrites | SimpleCoinTrading.Core/Logs/AlgorithmLogHub.cs:19-24 | a key has a history exactly when some event was written under it, and the history is those events in order |
| LogHub.Deliveries | SimpleCoinTrading.Core/Logs/AlgorithmLogHub.cs:26-27 | each sink receives the event once, in sink order |
| LogHub.Logged | SimpleCoinTrading.Core/Logs/AlgorithmLogHub.cs:19-24 | a write appends the event to its algorithm's history, blank ids filed under "UNKNOWN" (LogHub.HistoryOfWrites) |
| LogHub.RecentLogs | SimpleCoinTrading.Core/Logs/AlgorithmLogHub.cs:36-40 | nothing for an id never written; a negative limit throws; otherwise the newest events the buffer holds, up to the limit (LogHub.WriteThenRead, LogHub.ReadsTheWrites) |
| LogHub.AlgorithmLogHub.constructor | SimpleCoinTrading.Core/Logs/AlgorithmLogHub.cs:13-17 | the capacity and sinks are as given, no history, nothing delivered |
| LogHub.AlgorithmLogHub.Create | SimpleCoinTrading.Core/Logs/AlgorithmLogHub.cs:13-17 | a null sink list throws ArgumentNullException from ToList, otherwise an empty hub |
| LogHub.AlgorithmLogHub.Write | SimpleCoinTrading.Core/Logs/AlgorithmLogHub.cs:19-34 | the event is appended to its algorithm's history and delivered to every sink |
| LogHub.AlgorithmLogHub.BufferFor | SimpleCoinTrading.Core/Logs/AlgorithmLogHub.cs:23 | the key has a buffer afterwards; an existing history is kept, a new one is empty |
| LogHub.AlgorithmLogHub.Register | SimpleCoinTrading.Core/Logs/AlgorithmLogHub.cs:23 | a fresh empty buffer is filed under a new key |
| LogHub.AlgorithmLogHub.AddTo | SimpleCoinTrading.Core/Logs/AlgorithmLogHub.cs:24 | the event is appended to that key's history only |
| LogHub.AlgorithmLogHub.Deliver | SimpleCoinTrading.Core/Logs/AlgorithmLogHub.cs:26-27 | every sink gets the event, nothing else changes |
| LogHub.AlgorithmLogHub.GetRecent | SimpleCoinTrading.Core/Logs/AlgorithmLogHub.cs:36-40 | the result is RecentLogs of the histories: nothing for an unknown id, the newest events otherwise |
| LogLines.Esc | SimpleCoinTrading.Core/Logs/LogLineBuilder.cs:14 | the value keeps its length |
| LogLines.EscFacts | SimpleCoinTrading.Core/Logs/LogLineBuilder.cs:14 | escaped text has no spaces, each space becomes `_`, every other character is kept, and escaping twice is escaping once |
| LogLines.Extras | SimpleCoinTrading.Core/Logs/LogLineBuilder.cs:24-26 | at most one part per extra pair |
| LogLines.SplitSpaces | SimpleCoinTrading.Core/Logs/LogLineBuilder.cs:28 | cutting at spaces gives at least one piece |
| LogLines.SplitAfterWord | SimpleCoinTrading.Core/Logs/LogLineBuilder.cs:28 | a space-free prefix joins the first piece |
| LogLines.JoinSplit | SimpleCoinTrading.Core/Logs/LogLineBuilder.cs:28 | space-free parts joined by spaces cut back into exactly those parts |
| LogLines.ExtrasNoSpace | SimpleCoinTrading.Core/Logs/LogLineBuilder.cs:24-26 | with space-free keys, the extra parts have no spaces |
| LogLines.FieldNoSpace | SimpleCoinTrading.Core/Logs/LogLineBuilder.cs:18-22 | a field part with a space-free key has no spaces |
| LogLines.LineSplitsIntoParts | SimpleCoinTrading.Core/Logs/LogLineBuilder.cs:5-30 | with a space-free tag and keys, the line cut at spaces gives back exactly its parts, the tag first |
| LogLines.JoinStartsWithFirst | SimpleCoinTrading.Core/Logs/LogLineBuilder.cs:28 | the joined line starts with its first part |
| LogLines.LineStartsWithTag | SimpleCoinTrading.Core/Logs/LogLineBuilder.cs:5-30 | the line starts with the tag, and is just the tag when every field is blank and no extra pair is kept |
| LogLines.AddField | SimpleCoinTrading.Core/Logs/LogLineBuilder.cs:18-22 | the field is appended only when its value is not blank |
| LogLines.Line | SimpleCoinTrading.Core/Logs/LogLineBuilder.cs:5-30 | the loop-built line is the parts joined by spaces |
| AlgorithmEngines.MarksHistory | SimpleCoinTrading.Core/Algorithms/IAlgorithmEngine.cs:15-22 | after any marks the last error is that of the last fault, or unchanged when none faulted, and the status is the one the last mark set |
| AlgorithmEngines.LastFaultSnoc | SimpleCoinTrading.Core/Algorithms/IAlgorithmEngine.cs:18-22 | a further mark changes the last fault only when it is a fault |
| AlgorithmEngines.NeverFaulted | SimpleCoinTrading.Core/Algorithms/IAlgorithmEngine.cs:9-22 | a runtime never marked faulted has no error; one whose last mark is a fault is Faulted with that error |
| AlgorithmEngines.NoFault | SimpleCoinTrading.Core/Algorithms/IAlgorithmEngine.cs:18-22 | without fault marks there is no last fault |
| AlgorithmEngines.Apply | SimpleCoinTrading.Core/Algorithms/IAlgorithmEngine.cs:15-22 | marking running or stopped sets the status; marking faulted sets the status and the error |
| AlgorithmEngines.ApplyAll | SimpleCoinTrading.Core/Algorithms/IAlgorithmEngine.cs:15-22 | the runtime after a sequence of marks (AlgorithmEngines.MarksHistory, AlgorithmEngines.NoFault) |
| AlgorithmEngines.StartOutcome | SimpleCoinTrading.Core/Algorithms/AlgorithmEngine.cs:41-54 | Initialize's exception if it threw, else Run's outcome (AlgorithmEngines.Launch) |
| AlgorithmEngines.AlgorithmRuntime.constructor | SimpleCoinTrading.Core/Algorithms/IAlgorithmEngine.cs:9-13 | a new runtime is Created with no error |
| AlgorithmEngines.AlgorithmRuntime.RunningOnce | SimpleCoinTrading.Core/Algorithms/IAlgorithmEngine.cs:15 | a runtime marked Running once is consistent with its history |
| AlgorithmEngines.AlgorithmRuntime.MarkRunning | SimpleCoinTrading.Core/Algorithms/IAlgorithmEngine.cs:15 | status Running, error kept |
| AlgorithmEngines.AlgorithmRuntime.MarkStopped | SimpleCoinTrading.Core/Algorithms/IAlgorithmEngine.cs:16 | status Stopped, error kept |
| AlgorithmEngines.AlgorithmRuntime.MarkFaulted | SimpleCoinTrading.Core/Algorithms/IAlgorithmEngine.cs:18-22 | status Faulted and the error recorded |
| AlgorithmEngines.AlgorithmContext.constructor | SimpleCoinTrading.Core/Algorithms/AlgorithmContext.cs:56-70 | a context for the algorithm id, not disposed |
| AlgorithmEngines.AlgorithmContext.Dispose | SimpleCoinTrading.Core/Algorithms/AlgorithmContext.cs:117-121 | the context is disposed |
| AlgorithmEngines.Launch | SimpleCoinTrading.Core/Algorithms/AlgorithmEngine.cs:38-54 | a new runtime and context named for the algorithm; Running with the context live when Initialize and Run return, otherwise Faulted with the thrown error and the context disposed |
| AlgorithmEngines.AlgorithmEngine.constructor | SimpleCoinTrading.Core/Algorithms/AlgorithmEngine.cs:18-28 | no algorithms registered and no calls made |
| AlgorithmEngines.AlgorithmEngine.StartAlgorithm | SimpleCoinTrading.Core/Algorithms/AlgorithmEngine.cs:33-55 | a name already registered throws and changes nothing; otherwise Initialize then Run are called, and the algorithm is registered Running exactly when both return, else the exception propagates, the runtime is Faulted and its context disposed |
| AlgorithmEngines.AlgorithmEngine.StopAlgorithm | SimpleCoinTrading.Core/Algorithms/AlgorithmEngine.cs:58-74 | an unknown name is ignored; a known one is removed and stopped: Stopped with its context disposed when Stop returns, else Faulted with the error rethrown and the context left live |
| AlgorithmEngines.AlgorithmEngine.Algorithms | SimpleCoinTrading.Core/Algorithms/AlgorithmEngine.cs:83-84 | the registered names, each with a Running runtime of that name |
| AlgorithmEngines.AlgorithmEngine.RunningAlgorithms | SimpleCoinTrading.Core/Algorithms/AlgorithmEngine.cs:30 | exactly the registered names, each once |
| AlgorithmEngines.AlgorithmEngine.StopRegistered | SimpleCoinTrading.Core/Algorithms/AlgorithmEngine.cs:79-80 | a registered name is stopped and removed, its outcome returned |
| AlgorithmEngines.AlgorithmEngine.StopAll | SimpleCoinTrading.Core/Algorithms/AlgorithmEngine.cs:77-81 | returns exactly when no registered algorithm's Stop throws, leaving the registry empty; otherwise some registered algorithm that was removed threw that message; the remaining entries are unchanged |
| SharedContextEngines.LaunchRuntime | SimpleCoinTrading.Core/IAlgorithmEngine.cs:61-75 | a new runtime: Running when Initialize and Run return, else Faulted with the thrown error |
| SharedContextEngines.SharedContextEngine.constructor | SimpleCoinTrading.Core/IAlgorithmEngine.cs:48-51 | the shared context is kept, nothing registered |
| SharedContextEngines.SharedContextEngine.StartAlgorithm | SimpleCoinTrading.Core/IAlgorithmEngine.cs:56-76 | a duplicate name throws and changes nothing; otherwise Initialize gets the shared context, then Run; registered Running when both return, else Faulted and rethrown |
| SharedContextEngines.SharedContextEngine.StopAlgorithm | SimpleCoinTrading.Core/IAlgorithmEngine.cs:79-94 | an unknown name is ignored; a known one is removed and Stopped, or Faulted with the Stop error rethrown |
| SharedContextEngines.SharedContextEngine.RunningAlgorithms | SimpleCoinTrading.Core/IAlgorithmEngine.cs:53 | exactly the registered names, each once |
| SharedContextEngines.SharedContextEngine.StopRegistered | SimpleCoinTrading.Core/IAlgorithmEngine.cs:99-100 | a registered name is stopped and removed |
| SharedContextEngines.SharedContextEngine.StopAll | SimpleCoinTrading.Core/IAlgorithmEngine.cs:97-101 | returns exactly when no Stop throws, leaving nothing registered; otherwise a removed algorithm threw that message; remaining entries unchanged |
| AlgorithmRegistries.Keys | SimpleCoinTrading.Core/Algorithms/IAlgorithmFactory.cs:36-37 | one key per factory |
| AlgorithmRegistries.BuildSucceeds | SimpleCoinTrading.Core/Algorithms/IAlgorithmFactory.cs:36-37 | building succeeds exactly when no two factory keys are equal ignoring case, and then holds exactly those keys |
| AlgorithmRegistries.KeysSnoc | SimpleCoinTrading.Core/Algorithms/IAlgorithmFactory.cs:36-37 | keys stay distinct after one more factory exactly when its key is new ignoring case |
| AlgorithmRegistries.BuildContents | SimpleCoinTrading.Core/Algorithms/IAlgorithmFactory.cs:36-37 | a built registry files each factory under its case-folded key and lists the keys in factory order |
| AlgorithmRegistries.GetFindsRegistered | SimpleCoinTrading.Core/Algorithms/IAlgorithmFactory.cs:39-44 | Get finds exactly the factory whose key matches ignoring case, else throws Unknown algorithm key; ListKeys gives the keys in factory order |
| AlgorithmRegistries.GetParameters | SimpleCoinTrading.Core/Algorithms/IAlgorithmFactory.cs:56-59 | the algorithm's parameters, or an empty map for an id with none registered |
| AlgorithmRegistries.Build | SimpleCoinTrading.Core/Algorithms/IAlgorithmFactory.cs:36-37 | the dictionary by key ignoring case, in order; a repeated key throws (AlgorithmRegistries.BuildSucceeds, AlgorithmRegistries.BuildContents) |
| AlgorithmRegistries.Get | SimpleCoinTrading.Core/Algorithms/IAlgorithmFactory.cs:39-42 | the factory under the key ignoring case; an unknown key throws (AlgorithmRegistries.GetFindsRegistered) |
| AlgorithmRegistries.ListKeys | SimpleCoinTrading.Core/Algorithms/IAlgorithmFactory.cs:44 | the keys in the order they were added (AlgorithmRegistries.GetFindsRegistered) |
| AlgorithmRegistries.AlgorithmRegistry.constructor | SimpleCoinTrading.Core/Algorithms/IAlgorithmFactory.cs:66 | the items as given, in order |
| AlgorithmRegistries.AlgorithmRegistry.GetAllAlgorithms | SimpleCoinTrading.Core/Algorithms/IAlgorithmFactory.cs:68-71 | the items the registry holds |

## Left out

- Decimal precision: `System.Decimal` is modelled as `real`, so its 28-digit rounding and overflow are not modelled.
- DateTimeKind: a DateTime is its UTC tick count, and conversions between kinds are not modelled.
- Date and decimal parsing in the CSV parser (`DateTimeOffset.TryParse`, `DateTime.TryParse`, `decimal.TryParse` for the invariant and ko-KR cultures) are partial functions passed in as parameters. The KST-to-UTC conversion is the parser the caller supplies for the KST column.
- Case-insensitive comparison: `StringComparer.OrdinalIgnoreCase` is modelled as an ASCII case fold. Non-ASCII case pairs are not folded.
- Name ordering: the snapshots' `OrderBy(x => x.Name)` compares with the current culture. The model orders names ordinally.
- Guid generation: modelled as a counter of fresh ids.
- Concurrency: locks, `Interlocked` and `ConcurrentDictionary` are modelled as sequential updates. Interleavings, including the rate limiter's compare-and-swap race, are not modelled.
- The RealTimeReplay background loop of the dual-mode time flow is not modelled, because it depends on a stopwatch, `Task.Delay` and wall-clock time. Only the replay anchor it starts from, the mode switch and cancellation are modelled.
- The tick channel's bounded drop-oldest policy: ticks are an unbounded output sequence.
- The paper broker's optional latency `Task.Delay` is omitted.
- The live and synthetic market-data sources, the WebSocket client, gRPC services, server wiring and the desktop UI are outside the core.
- Observers and buses (`MarketDataEventBus`, `SimpleSubject`, `EventBus`): publications are appends to an event sequence. What subscribers then do is not modelled.
- Log-hub channel subscriptions (`Subscribe`) and what log sinks do with an event: the hub records which sink received which event, in order.
- LogHub.AlgorithmLogHub.Create: a capacity of 0 or less is excluded by its requires. With such a capacity the source's ring buffer throws on the first write, and that case is not modelled.
- Logging by the orchestrator and the lifecycle tracker (`ILogger` and the algorithm log hub), and the kill-switch broker's `Console.WriteLine`, are left out. These calls are output only.
- Algorithm contexts: `AlgorithmContext` and `AlgoScope` are modelled only by their identity and disposal. What they delegate to (market view, clock, bus, orchestrator, loggers) is not modelled.
- Algorithm factories' `Create` and the algorithms themselves: an algorithm is a name and an identity, and its Initialize, Run and Stop outcomes are parameters.
- AlgorithmEngines.AlgorithmEngine.StopAll: when a Stop throws, the contract says only that some registered algorithm threw that message and was removed. It does not say which one, because `ConcurrentDictionary` key enumeration order is unspecified. The same holds for SharedContextEngines.SharedContextEngine.StopAll.
- AlgorithmRegistries.AlgorithmRegistry.GetAllAlgorithms: the source returns its own mutable list, so callers can change the registry through it. The model returns the items as a value, and that aliasing is not modelled. `AlgorithmRegistryItem`'s setters are fields of a datatype.
- Orchestration.DelegatingOrchestrator.Cancel: the result keeps only whether the broker's cancel threw. The acknowledgement value is not modelled.
- Positions.PositionProjection.HandleFill: the published `PositionChanged` events carry the position object itself, so a later update is visible through them. The model logs each position's values at the time it was published. The same holds for Positions.PositionProjection.PublishFills, Positions.PositionProjection.HandleTick and Positions.PositionProjection.PublishTicks.
- RingBuffers.RingBuffer.constructor: a capacity of 0 or less is excluded by its requires. In the source a negative capacity throws when the array is made, and a capacity of 0 makes the first `Add` index outside the empty array and `Tail` divide by zero (RingBuffer.cs:10, :16-17, :28). Every repository and hub in the core passes a positive capacity.
- MarketStorage.BarStorage.constructor and MarketStorage.TradeStorage.constructor: a per-series or per-symbol capacity of 0 or less is excluded by their requires, for the same reason as RingBuffers.RingBuffer.constructor.
- RingBuffers.RingBuffer.Tail: the size is a `nat`. In the source a negative size makes `new T[n]` throw `OverflowException` (RingBuffer.cs:26-27), and that throw is not modelled. The same holds for MarketStorage.BarStorage.GetBars, MarketStorage.TradeStorage.GetRecent, MarketStorage.MarketDataRepository.GetBars, MarketStorage.MarketDataRepository.GetRecentTrades, MarketView.MarketDataView.GetBars and MarketView.MarketDataView.GetRecentTrades, which pass their count on to it. The log hub's read, where the limit comes from outside, does model the throw (LogHub.RecentLogs).
- TimeFlow.AlignNext: ticks are unbounded here. In the source, `new DateTime(nextTicks)` (DualModeTimeFlow.cs:203-205) and `next.Add(_step)` (:183) throw ArgumentOutOfRangeException past DateTime.MaxValue. TimeFlow.StepTicks, TimeFlow.DualModeTimeFlow.EmitTicksUpTo and TimeFlow.DualModeTimeFlow.AdvanceTo do not report that throw. TimeFlow.EmitChecked models the throwing advance, and TimeFlow.EmitCheckedThrows proves it throws exactly when the clock or the target reaches TimeFlow.LastStepTime. For example, with a one-second step, an initialised clock at MaxTicks - 4 and a Backtest AdvanceTo(MaxTicks) throws. EmitChecked returns no ticks on a throw, while the source has already written the ticks before the failing `Add`.
- TimeFlow.DualModeTimeFlow.constructor: a step of zero or less is excluded by its requires. The source does not check the step, and a zero step would make the Backtest advance divide by zero when it aligns the first tick (DualModeTimeFlow.cs:200-205). The same requires is on TimeFlow.DualModeTimeFlow.AdvanceTo, TimeFlow.AlignNext and TimeFlow.StepTicks. The default step is one second.
- Reflection (`FlushBarsIfSupported`) and the inert event and id records are not part of this model.

## Findings

| source | as written | input that shows it | evidently intended | confidence | as-written member | corrected member |
|---|---|---|---|---|---|---|
| SimpleCoinTrading.Core/OrderOrchestrators/DelegateOrchestrator.cs:89-90 | after the broker's acknowledgement, the client order id is mapped to the ack's order id and the order's owner is recorded, even when the ack has no order id because the broker rejected the order. `ConcurrentDictionary` then throws `ArgumentNullException` on the null key, after the id map already holds a null entry. | a started broker, the trading guard clear and a request with quantity 0 | record the id map and the ownership only for an accepted order, and return the broker's rejection to the caller | not executed | Orchestration.DispatchAsWritten, Orchestration.RejectedOrderThrows | Orchestration.Dispatch, Orchestration.DispatchKeepsBooksValid |
