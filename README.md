# Tape-reading pipeline, modelled in Dafny

This project models the core of a tape-reading trading application. Market
events (ticks, trades, DOM deltas and DOM snapshots) travel on an event bus
and feed a set of engines. The engines keep per-symbol state and publish
derived events:

- the DOM, delta, footprint and tape engines;
- the microstructure engine, with its depth, delta and liquidity parts, its
  snapshot and its feature vector;
- the volume profile, OHLC, volatility, market-regime and liquidity-map
  engines;
- the spoofing, iceberg and large-trade detectors and the ML feature
  vector.

Strategies turn those events into signals:

- the mid-price momentum strategy;
- the orchestrator, which chains the regime filter, the playbook, the
  confluence filter and the scorer;
- the pattern detector;
- the simple delta strategy.

A signal becomes an order request. The pre-trade risk engine rules on it
with its kill switch, whitelist, size, exposure and throttle checks, and
the price collar. An approved order is submitted through the execution
router to an adapter:

- the simulated adapter acknowledges and fills orders;
- the smart router slices an order and stamps each child with a queue-time
  estimate;
- the order-book router shifts a limit price into the book;
- orders map onto Interactive Brokers order records.

Around the pipeline sit these smaller pieces:

- normalisation of Interactive Brokers callbacks into bus events;
- the provider manager and the instrument classifier;
- replay pacing;
- telemetry counters, heartbeat watchdogs and connection health;
- deployment profiles.

## How the model is built

Each source file is one Dafny module in one `.dfy` file.

- Objects whose fields the source updates in place are classes, with
  `modifies` frames and methods whose `ensures` state the whole new state.
- Every bus publish is an append to a `published` log of typed records, in
  publish order.
- Pure logic is functions, and lemmas state the promised properties about
  them.
- Untyped event payloads are maps from strings to a JSON-like `Value`.
- `Common` spells out the bits of Python the code relies on: truthiness,
  `or`, `float()` (which yields `None` where Python raises), bounded deques
  and insertion-ordered dicts.
- Floats are modelled as exact reals.
- The wall clock, generated ids and the random draw of the simulated
  adapter are explicit parameters.

`Common`, `Sorting` and `Text` are shared vocabulary and carry no rows
below.

## Model

| member | source | states |
|---|---|---|
| EventBus.TopicTypes | core/event_bus.py:42-46 | a string topic names that one event type; an iterable names each of its types in order |
| EventBus.SubscribeAllLookup | core/event_bus.py:41-46 | subscribing appends the callback to every listed type's list once per listing, after the callbacks already there, and touches no other list |
| EventBus.SubscribeOneType | core/event_bus.py:42-43 | subscribing with one string appends the callback to that type's list and to no other |
| EventBus.CallsFor | core/event_bus.py:89-93 | every callback of the list is called once, in list order, with the event, whether or not it raises |
| EventBus.Enqueue | core/event_bus.py:55-58 | a publish while running puts the event at the back of the queue; after stop the queue is unchanged |
| EventBus.DeliveriesAppend | core/event_bus.py:69-71 | the worker is FIFO: the calls made for a queue are those for its front part followed by those for its back part |
| EventBus.DeliveredOrder | core/event_bus.py:84-93 | a typed event reaches its exact-type subscribers in registration order, then the "*" subscribers in registration order, every one of them |
| EventBus.UntypedDiscarded | core/event_bus.py:78-81 | an event without a type invokes no callback |
| EventBus.FailuresDoNotChangeDeliveries | core/event_bus.py:89-93 | which callbacks run on which events does not depend on which of them raise |
| EventBus.StopKeepsQueuedDeliveries | core/event_bus.py:69-106 | the stop sentinel adds no calls, so events queued before stop are still all dispatched |
| EventBus.PublishAfterStopNeverDelivered | core/event_bus.py:55-57 | an event published after stop never reaches a callback |
| EventBus.Bus.constructor | core/event_bus.py:23-28 | a new bus has no subscribers, an empty queue and is running |
| EventBus.Bus.Subscribe | core/event_bus.py:36-46 | the subscription table becomes the old one with the callback appended under each listed type; queue and running flag unchanged |
| EventBus.Bus.Publish | core/event_bus.py:51-58 | the queue becomes the old queue with the event appended while running, and is unchanged after stop |
| EventBus.Bus.DispatchStep | core/event_bus.py:69-93 | one worker turn removes the front item and records exactly the calls that item makes; an empty queue changes nothing |
| EventBus.Bus.Drain | core/event_bus.py:69-93 | running the worker to an empty queue records the calls of every queued item in FIFO order |
| EventBus.DrainStep | core/event_bus.py:69-71 | the drain loop's invariant: after one step, the calls so far plus those of the rest equal the calls of the whole queue |
| EventBus.Bus.Stop | core/event_bus.py:98-106 | the first stop clears the running flag and queues the sentinel; a second stop changes nothing |
| EventBus.StopThenDrainScenario | core/event_bus.py:55-107 | publishing two events, stopping, publishing a third and stopping again leaves a drained, stopped bus whose calls are exactly those of the two events |
| ProviderManager.StartCalls | providers/provider_manager.py:29-36 | an unknown name makes no provider call; otherwise the active provider (even the same one) is stopped before the named one is started |
| ProviderManager.Start | providers/provider_manager.py:29-36 | an unknown name is an error (the source raises); otherwise the named provider becomes active |
| ProviderManager.Stop | providers/provider_manager.py:38-42 | after stop no provider is active |
| ProviderManager.StartConsistent | providers/provider_manager.py:29-36 | starting a registered name from a consistent state succeeds, stays consistent and leaves exactly that provider started |
| ProviderManager.StartCallsEffect | providers/provider_manager.py:32-36 | replaying start's calls stops the active provider and starts the named one, and nothing else |
| ProviderManager.StopConsistent | providers/provider_manager.py:38-42 | stop keeps the state consistent and leaves no provider started |
| ProviderManager.StepConsistent | providers/provider_manager.py:29-45 | each start, switch or stop preserves consistency (every started provider is the active one) |
| ProviderManager.AtMostOneStarted | providers/provider_manager.py:29-45 | after any sequence of start, switch and stop calls at most one provider is started, and it is the active one |
| ProviderManager.Manager.constructor | providers/provider_manager.py:26-27 | a new manager has no active provider and nothing started |
| ProviderManager.Manager.StartProvider | providers/provider_manager.py:29-36 | succeeds iff the name is registered; then the state and the provider calls are those of start; otherwise nothing changes |
| ProviderManager.Manager.StopProvider | providers/provider_manager.py:38-42 | the state becomes that of stop, and the active provider, if any, receives one stop call |
| ProviderManager.Manager.SwitchProvider | providers/provider_manager.py:44-45 | switch behaves exactly as start: same success condition, state and provider calls |
| ProviderManager.SwitchScenario | providers/provider_manager.py:29-45 | start SIM, switch to IBKR, stop: the active name follows each call and the provider calls are start SIM, stop SIM, start IBKR, stop IBKR |
| InstrumentDetector.Detect | core/instrument_detector.py:6-68 | the market provider is always a registered provider, execution is SIM or IBKR, both crypto types execute on SIM, and every type but CFD keeps the upper-cased symbol as normalised symbol |
| InstrumentDetector.ClassifyProviders | core/instrument_detector.py:23-68 | the same guarantees for the branch chain on an already upper-cased symbol |
| InstrumentDetector.DetectIgnoresCase | core/instrument_detector.py:10 | matching runs on the upper-cased symbol, so a symbol and its upper-cased form classify alike |
| InstrumentDetector.FxWins | core/instrument_detector.py:23-31 | a symbol whose upper-cased form is in the FX list is FX on IBKR for market and execution, whatever else it matches |
| InstrumentDetector.CfdBeforePrefixes | core/instrument_detector.py:32-40 | a non-FX symbol containing a CFD token anywhere is a CFD on IBKR for market and execution, normalised by stripping ".CFD", "_IBKR" and ".FPM", whatever prefix it also has |
| InstrumentDetector.BinanceBeforeOkx | core/instrument_detector.py:41-49 | a symbol that is neither FX nor CFD and starts with a Binance token is Binance crypto, executed on SIM, keeping its upper-cased form |
| InstrumentDetector.OkxBeforeFutures | core/instrument_detector.py:50-58 | a symbol that is not FX, CFD or Binance and starts with an OKX token is OKX crypto, executed on SIM, keeping its upper-cased form |
| InstrumentDetector.FuturesLast | core/instrument_detector.py:59-67 | only a symbol matching no earlier list and starting with "GC" or "GOLD" is FUTURES on IBKR, keeping its upper-cased form |
| InstrumentDetector.DetectTypeIsFirstMatch | core/instrument_detector.py:23-67 | the instrument type is exactly the first matching list in the order FX, CFD, Binance, OKX, futures, and SIM exactly when none matches |
| InstrumentDetector.DefaultIsSim | core/instrument_detector.py:11-16 | a symbol matching no list is SIM for type, market and execution, normalised to its upper-cased form |
| InstrumentDetector.GoldUsdtOkxUnreachable | core/instrument_detector.py:19-58 | a symbol starting with "GOLDUSDT.OKX" is never classified OKX, because the Binance prefix "GOLDUSDT" is tried first |
| InstrumentDetector.DetectXauusd | tests/test_autodetect.py:4-7 | "XAUUSD" is FX on IBKR |
| InstrumentDetector.DetectXauusdCfd | tests/test_autodetect.py:10-13 | "XAUUSD.CFD" is a CFD on IBKR normalised to "XAUUSD" |
| InstrumentDetector.StripCfdXauusd | core/instrument_detector.py:38 | stripping ".CFD", "_IBKR" and ".FPM" from "XAUUSD.CFD" leaves "XAUUSD" |
| InstrumentDetector.DetectFutures | tests/test_autodetect.py:16-19 | "GCZ4" is FUTURES on IBKR |
| InstrumentDetector.DetectBinance | tests/test_autodetect.py:22-24 | "XAUUSDT" is Binance crypto executed on SIM |
| InstrumentDetector.DetectOkx | tests/test_autodetect.py:27-29 | "XAUTUSDT" is OKX crypto executed on SIM |
| InstrumentDetector.DetectUnknown | tests/test_autodetect.py:32-34 | "UNKNOWN" is SIM for everything |
| DomEngine.LevelOf | engines/dom.py:30 | a missing level reads as 0; the read fails exactly when the level is not a number (where `int()` raises) |
| DomEngine.ApplyDomDelta | engines/dom.py:29-41 | the delta applies iff its level reads; the result keeps the book well formed, and only the side the payload names changes: "bid" means bids, anything else means asks |
| DomEngine.UpsertStoresLevel | engines/dom.py:38-39 | insert and update both store (price, size, market maker) at the level, overwriting any entry, and change no other level of that side |
| DomEngine.DeleteRemovesLevel | engines/dom.py:40-41 | delete removes exactly that level; deleting an absent level leaves the book as it was |
| DomEngine.UnknownOperationIgnored | engines/dom.py:38-41 | any other operation leaves the book unchanged |
| DomEngine.MissingLevelIsZero | engines/dom.py:30 | a payload without a level acts as one addressing level 0 |
| DomEngine.BidUpsert | engines/dom.py:36-39 | an insert or update with side "bid" puts the level into the bids and leaves the asks as they were |
| DomEngine.Engine.constructor | engines/dom.py:19-21 | a new engine holds no books |
| DomEngine.Engine.BookOf | engines/dom.py:44 | an unseen symbol reads as an empty, well-formed book |
| DomEngine.Engine.OnDomDelta | engines/dom.py:24-41 | the symbol's book is created first and then updated by the delta; when the level does not read, only the creation remains; no other symbol's book changes |
| DomEngine.Engine.SnapshotOf | engines/dom.py:43-47 | the snapshot is that of the symbol's book; an unseen symbol gives two empty lists |
| DomEngine.TwoLevelRows | models/state.py:19-23 | a side with exactly two levels snapshots to two rows, the lower level first, each with its level's price and size |
| DomEngine.TwoBidDeltas | engines/dom.py:27-41 | an insert at level 3 then an update without a level store levels 3 and 0 on the bids, in that insertion order, with the asks empty |
| DomEngine.LadderScenario | engines/dom.py:24-47 | after two bid inserts out of level order and an ask delete of an absent level, the snapshot lists the two bids by ascending level with their prices and sizes and no asks |
| State.EmptyBook | models/state.py:14-16 | a fresh DOM state has no bid and no ask levels |
| State.Rows | models/state.py:21-22 | one row per listed level, in that order, with the level, its price and its size (the market maker is omitted) |
| State.SideSnapshot | models/state.py:21-22 | one row per stored level, levels strictly ascending, each row carrying its level's price and size, and every stored level appears |
| State.SortedLevels | models/state.py:21-22 | sorting a side's levels lists every stored level and nothing else |
| State.NewSymbolState | models/state.py:33-38 | a new symbol state has an empty book, no last price, an empty tape and a zero delta bar |
| State.EmptyBookSnapshot | models/state.py:19-23 | an empty book snapshots to empty bid and ask lists |
| DeltaEngine.ParseTrade | engines/delta.py:24-27 | the trade reads iff price and size (default 0) are numbers; the aggressor defaults to "unknown" and a missing price or size is 0 |
| DeltaEngine.TradeEffect | engines/delta.py:29-34 | every trade adds its size to the volume and sets the last price; "buy" grows only the buys, "sell" only the sells, any other aggressor neither; book and tape are untouched |
| DeltaEngine.TradeKeepsBalance | engines/delta.py:29-33 | a trade of non-negative size keeps buys plus sells within the volume |
| DeltaEngine.TradesKeepBalance | engines/delta.py:29-33 | from a balanced bar, any run of non-negative trades keeps buys plus sells within the volume, and the volume never falls |
| DeltaEngine.Engine.constructor | engines/delta.py:16-18 | a new engine has no symbol state |
| DeltaEngine.Engine.OnTrade | engines/delta.py:21-34 | the symbol's state is created first; a trade that reads updates it as the trade step says; one that does not read leaves only the creation |
| DeltaEngine.Engine.EmitDelta | engines/delta.py:36-45 | the event is a "delta_bar" from "delta_engine" carrying buys, sells, volume and last price; the counters are not reset, and an unseen symbol is created |
| DeltaEngine.BuySellScenario | engines/delta.py:21-45 | a buy of 10 then a sell of 5 report buys 10, sells 5 and volume 15 |
| FootprintEngine.NewCell | engines/footprint.py:29 | a new price's cell holds exactly "buy", "sell" and "unknown", all at zero |
| FootprintEngine.AddToCell | engines/footprint.py:30 | the aggressor's volume grows by the size, from zero when the key is new; the other keys keep their volumes |
| FootprintEngine.WithCell | engines/footprint.py:29 | a known price keeps its cell; a new price gets a fresh zero cell |
| FootprintEngine.BookTrade | engines/footprint.py:28-30 | the book stays well formed after a trade |
| FootprintEngine.TradeTouchesOneKey | engines/footprint.py:28-30 | a trade changes only the cell at its price, and in it only the aggressor's volume, which grows by the trade size |
| FootprintEngine.NewPriceStartsAtZero | engines/footprint.py:29-30 | a trade at a new price books into a fresh zero cell |
| FootprintEngine.MissingAggressorIsUnknown | engines/footprint.py:26 | a trade without an aggressor is booked under "unknown" |
| FootprintEngine.CellTotalGrows | engines/footprint.py:30 | the total volume of the traded price's cell grows by exactly the trade size |
| FootprintEngine.AddToCellTotal | engines/footprint.py:30 | adding to one key of a cell raises the cell's total by the size |
| FootprintEngine.NewCellTotal | engines/footprint.py:29 | a fresh cell holds no volume |
| FootprintEngine.Rows | engines/footprint.py:36-37 | one row per listed price, in that order, each holding its price and its cell |
| FootprintEngine.Snapshot | engines/footprint.py:34-37 | one row per traded price, no price twice, each row holding its price's cell, and every traded price present |
| FootprintEngine.RowDict | engines/footprint.py:37 | the published row dict has the "price" key and every cell key; each cell key keeps its volume (so a cell key "price" replaces the price), and the price survives only when the cell has no "price" key |
| FootprintEngine.PriceAggressorHidesPrice | engines/footprint.py:33-37 | a trade at a new price whose aggressor is "price" publishes a row whose "price" entry is the trade size, not the price |
| FootprintEngine.SnapshotRows | engines/footprint.py:36-37 | the rows built over the first-traded order cover every price exactly once with its cell |
| FootprintEngine.Engine.constructor | engines/footprint.py:16-19 | a new engine has no books |
| FootprintEngine.Engine.BookOf | engines/footprint.py:34 | an unseen symbol reads as an empty book |
| FootprintEngine.Engine.OnTrade | engines/footprint.py:22-30 | a trade whose price or size does not convert changes nothing; otherwise book and cell are created and the aggressor's volume grows; the handler fails exactly when the aggressor cannot be a dict key |
| FootprintEngine.Engine.SnapshotOf | engines/footprint.py:32-44 | the snapshot rows are those of the symbol's book; an unseen symbol gives none |
| FootprintEngine.SamePriceOneRow | engines/footprint.py:22-37 | two trades at one price with different aggressors give a single row booking each size under its own key |
| FootprintEngine.OnePriceSnapshot | engines/footprint.py:34-37 | a book with one price snapshots to that price's row |
| FootprintEngine.TwoTradesOnePrice | engines/footprint.py:28-30 | two trades at one price leave that price as the only one, with each aggressor's size in its cell |
| FootprintEngine.FirstTradeOneRow | engines/footprint.py:28-30 | the first trade on an empty book leaves one price whose fresh cell holds its size |
| FootprintEngine.SameRowAgain | engines/footprint.py:28-30 | a trade at the book's only price keeps it the only price and adds its size under its aggressor |
| FootprintEngine.TradeAtParses | engines/footprint.py:24-26 | a trade payload with price, size and aggressor reads back as exactly those |
| FootprintEngine.SamePriceScenario | engines/footprint.py:22-44 | a buy and a sell at the same price give one row at that price booking both sizes |
| TapeEngine.Record | engines/tape.py:26-33 | a trade leaves a record of exactly timestamp, price, size and aggressor; the aggressor defaults to "unknown" and a missing price or size is None |
| TapeEngine.Records | engines/tape.py:26-33 | one record per trade, in trade order |
| TapeEngine.BoundedIsSuffix | engines/tape.py:24 | a deque with `maxlen` holds the last `min(n, maxlen)` items appended, oldest first |
| TapeEngine.WindowIsSuffix | engines/tape.py:24-33 | a symbol's window holds the records of its last `min(n, max_events)` trades, oldest first: it never exceeds the cap and drops the oldest record first |
| TapeEngine.WindowStep | engines/tape.py:24-33 | appending one trade's record to the bounded window of the earlier trades gives the window of all of them |
| TapeEngine.Engine.constructor | engines/tape.py:16-19 | a new engine keeps its cap and holds no windows |
| TapeEngine.Engine.OnTrade | engines/tape.py:22-33 | the trade's record is appended to its symbol's window (created if new), dropping the oldest record when full; other symbols are untouched |
| TapeEngine.Engine.SnapshotOf | engines/tape.py:35-38 | the snapshot is the symbol's window, oldest first; an unseen symbol gives an empty list and is not added |
| TapeEngine.Engine.Feed | engines/tape.py:22-33 | feeding a new symbol's trades leaves exactly the bounded window of their records, and no other symbol's window changes |
| TapeEngine.TwoTradeScenario | engines/tape.py:22-38 | with room for two records, two trades snapshot to two records in trade order, the second with aggressor "unknown" |
| MicroDepth.NewDepthState | engines/microstructure/depth.py:9-17 | a new depth record has no quote, zero sizes, imbalance and queue position, and an empty liquidity map |
| MicroDepth.Imbalance | engines/microstructure/depth.py:43-44 | zero when the sizes sum to zero; otherwise the imbalance times the sum is the bid size minus the ask size |
| MicroDepth.ImbalanceBounded | engines/microstructure/depth.py:43-44 | for non-negative sizes the imbalance lies in [-1, 1] and has the sign of the larger side |
| MicroDepth.QueuePosition | engines/microstructure/depth.py:62-69 | never above 1; 0 without an own quantity; 1 when the reference size (bid for a buy, ask for a sell) is not positive; otherwise the own quantity over that size, capped at 1 |
| MicroDepth.BuyQueuePositionInUnit | engines/microstructure/depth.py:62-69 | a buy quantity's queue position lies in (0, 1] |
| MicroDepth.LevelLiquidity | engines/microstructure/depth.py:47-55 | a number is its own liquidity; a dict is readable exactly when both its bid and ask convert (missing or falsy read as 0) and its liquidity is their sum, so an empty dict has liquidity 0; any other value is skipped (where `float()` raises) |
| MicroDepth.Normalize | engines/microstructure/depth.py:45-56 | the rebuilt map keeps exactly the ladder entries whose liquidity reads, each with that liquidity |
| MicroDepth.NormalizeLadder | engines/microstructure/depth.py:45-56 | the ladder loop builds exactly the normalised map |
| MicroDepth.ParseDom | engines/microstructure/depth.py:33-36 | bid size, ask size and own quantity default to 0 when neither key is present |
| MicroDepth.OnDom | engines/microstructure/depth.py:28-60 | a size that does not convert raises before the record is touched; the update completes iff the sizes convert and the ladder is a dict |
| MicroDepth.OnDomEffect | engines/microstructure/depth.py:38-57 | a completed update keeps a quote side that is absent or None, takes a present one, replaces both sizes, recomputes imbalance and queue position from them, and rebuilds the liquidity map from the ladder alone |
| MicroDepth.OnDomImbalanceBounded | engines/microstructure/depth.py:43-44 | with non-negative sizes the stored imbalance stays in [-1, 1] |
| MicroDepth.DepthEngine.constructor | engines/microstructure/depth.py:25-26 | a new engine has no records |
| MicroDepth.DepthEngine.OnDomEvent | engines/microstructure/depth.py:28-60 | a completed update stores and returns the new record; on a raise an existing record keeps what was set before the raise, and a new symbol is not stored |
| MicroDelta.NewDeltaState | engines/microstructure/delta.py:9-15 | a new delta record has zero counters, no zero prints and last price 0 |
| MicroDelta.TradePrice | engines/microstructure/delta.py:29 | a truthy price is converted; a falsy price with a truthy last converts the last price; with neither the price is 0 |
| MicroDelta.TradeSize | engines/microstructure/delta.py:30 | a present size is converted (a falsy one reads as 0); without size a present qty is converted the same way; without either the size is 0 |
| MicroDelta.OnTrade | engines/microstructure/delta.py:26-50 | a failed conversion raises before the record is touched; a completed update sets the last price to the trade price and the cumulative delta to buys minus sells |
| MicroDelta.OnTradeBooking | engines/microstructure/delta.py:36-48 | buy/B grows the buys, sell/S the sells; otherwise a price at or above the mid counts as a buy and below it as a sell; without a mid neither grows |
| MicroDelta.ZeroPrintCounting | engines/microstructure/delta.py:33-35 | the zero-print count grows by one iff the previous price was non-zero and equals the new one, and is kept even when booking later raises |
| MicroDelta.Engine.constructor | engines/microstructure/delta.py:23-24 | a new engine has no records |
| MicroDelta.Engine.OnTradeEvent | engines/microstructure/delta.py:26-50 | a completed update stores and returns the new record; on a raise an existing record keeps what was set before the raise, and a new symbol is not stored |
| FootprintAdvanced.Book | engines/footprint/advanced.py:23-31 | a trade adds its price to the footprint's prices and removes none |
| FootprintAdvanced.BookEffect | engines/footprint/advanced.py:24-30 | a buy grows only the buy volume, a sell only the sell volume, any other side both by half; the cell's total grows by the size and other prices are untouched |
| FootprintAdvanced.Heatmap | engines/footprint/advanced.py:34-36 | one entry per traded price, holding its buy volume minus its sell volume |
| FootprintAdvanced.HeatmapAfterTrade | engines/footprint/advanced.py:24-36 | a buy raises its price's imbalance by the size, a sell lowers it by the size, a split trade leaves it unchanged |
| FootprintAdvanced.Engine.constructor | engines/footprint/advanced.py:14-15 | a new engine has no footprints |
| FootprintAdvanced.Engine.OnTrade | engines/footprint/advanced.py:17-32 | a price or size that does not convert changes nothing; otherwise the symbol's footprint becomes the booked one and is returned |
| FootprintAdvanced.Engine.ImbalanceHeatmap | engines/footprint/advanced.py:34-36 | the heatmap of the symbol's footprint; empty for an unseen symbol |
| TapeAdvanced.NewTapeStats | engines/tape/advanced.py:10-21 | new statistics have zero volumes, no trades and a zero absorption score |
| TapeAdvanced.Recent | engines/tape/advanced.py:68-69 | the window keeps exactly the entries no older than the cutoff, and never grows |
| TapeAdvanced.VolumeNonNegative | engines/tape/advanced.py:74 | the window volume is non-negative when every size is |
| TapeAdvanced.UpdateHistory | engines/tape/advanced.py:64-70 | after the update the history holds exactly the old entries and the new one that are no older than `now` minus the window |
| TapeAdvanced.Absorption | engines/tape/advanced.py:72-75 | 0 without a threshold; otherwise the score times the threshold is the window volume |
| TapeAdvanced.BookSide | engines/tape/advanced.py:44-54 | the booking fails exactly when a side other than buy/sell meets a mid that is not None and not a number; it leaves the trade count and last price alone, grows the total volume by the size when a side or a mid decides, and with a non-negative size shrinks neither volume |
| TapeAdvanced.Engine.constructor | engines/tape/advanced.py:29-33 | a new engine keeps its window and threshold and has no statistics and no history |
| TapeAdvanced.Engine.OnTrade | engines/tape/advanced.py:35-62 | the trade completes exactly when price and size convert and the mid comparison does not raise; a failure changes nothing; otherwise the trade is booked, counted and priced, the history is updated at `now`, the absorption score is recomputed from it, and the statistics are stored |
| TapeAdvanced.TradeCounted | engines/tape/advanced.py:44-57 | every completed trade is counted once and sets the last price; with a non-negative size neither volume shrinks |
| TapeAdvanced.AbsorptionNonNegative | engines/tape/advanced.py:72-75 | with a positive threshold and non-negative sizes the absorption score is non-negative |
| Liquidity.ParseFlows | engines/liquidity/engine.py:30-34 | each flow and the mid shift defaults to 0 when absent |
| Liquidity.Compute | engines/liquidity/engine.py:36-44 | the signals fail exactly when a firing iceberg or replenishment signal divides by a zero threshold; the shift is the mid shift; spoof is 1 iff added volume on a side exceeds the ratio times the removed volume, and 0 otherwise |
| Liquidity.IcebergScore | engines/liquidity/engine.py:37-38 | the iceberg score is 0 unless a removal exceeds the threshold; then it is the larger removal in threshold units, above 1 for a positive threshold |
| Liquidity.ReplenishmentScore | engines/liquidity/engine.py:41-42 | replenishment is the added bid volume in threshold units exactly when bid volume was added and none removed, and 0 otherwise |
| Liquidity.Engine.constructor | engines/liquidity/engine.py:22-25 | a new engine keeps its threshold and ratio and has no signals |
| Liquidity.Engine.OnDomDelta | engines/liquidity/engine.py:27-46 | the symbol's signals are replaced by those of this delta alone; a raise changes nothing |
| Microstructure.OrZero | engines/microstructure/features.py:15-19 | a missing value reads as 0 and a present one as itself |
| Microstructure.BaseKeysApart | engines/microstructure/features.py:15-25 | no base feature key is a "liq_" or "tag_" key, so the loops never overwrite a base feature |
| Microstructure.NotTagKey | engines/microstructure/features.py:22-25 | a "liq_" key is never a "tag_" key, so the tag loop never overwrites a signal feature |
| Microstructure.BaseFeatureValues | engines/microstructure/features.py:15-21 | the seven base features read a missing value as 0 and the zero-print count as a float |
| Microstructure.FeaturesAtBase | engines/microstructure/features.py:15-21 | a base key keeps its base value in the full feature map |
| Microstructure.LiqAt | engines/microstructure/features.py:22-23 | each liquidity signal k appears under "liq_" + k with its value |
| Microstructure.TagAt | engines/microstructure/features.py:24-25 | each tag t appears under "tag_" + t with value 1 |
| Microstructure.LiqFeatureValues | engines/microstructure/features.py:22-23 | in the full feature map every liquidity signal k is found under "liq_" + k with its value |
| Microstructure.TagFeatureValue | engines/microstructure/features.py:24-25 | in the full feature map every tag t is found under "tag_" + t with value 1 |
| Microstructure.FeatureKeys | engines/microstructure/features.py:13-26 | the feature keys are exactly the seven base keys, one "liq_" key per signal and one "tag_" key per tag |
| Microstructure.Extract | engines/microstructure/features.py:13-26 | the three loops of `extract` build exactly the feature map |
| Microstructure.AddLiqFeatures | engines/microstructure/features.py:22-23 | the signal loop adds one "liq_" key per signal to what was there |
| Microstructure.AddTagFeatures | engines/microstructure/features.py:24-25 | the tag loop adds one "tag_" key per tag, valued 1, to what was there |
| Microstructure.OptReal | engines/microstructure/engine.py:83-85 | None stays None, a number converts, anything else makes `float()` raise |
| Microstructure.MidOf | engines/microstructure/engine.py:74-78 | the tick's mid, price or last when it has one; else the average of a truthy bid and ask; else None |
| Microstructure.SignalMap | engines/microstructure/engine.py:97-104 | a liquidity record becomes exactly the four keys iceberg, spoof, replenishment and shift with its values |
| Microstructure.BuildBaseFields | engines/microstructure/engine.py:64-107 | a composed snapshot carries the symbol and time, both delta fields from the cumulative delta, zero prints only with a delta record, the four signal keys exactly when there is a liquidity record, no depth fields without a depth record, and no tags |
| Microstructure.BuildBaseDefined | engines/microstructure/engine.py:72-85 | a snapshot can be composed exactly when the mid and the stored bid and ask convert |
| Microstructure.AssignFeatures | engines/microstructure/engine.py:108 | assigning the features fails iff the instance is frozen; otherwise the snapshot gains its extracted features |
| Microstructure.AsWrittenNeverBuilds | engines/microstructure/engine.py:108 | as written, assigning to the frozen snapshot always raises, so no snapshot is ever built |
| Microstructure.BuildSnapshot | engines/microstructure/engine.py:64-109 | as intended, the snapshot exists iff its fields convert, and then is the composed snapshot with its own extracted features |
| Microstructure.BuildSnapshotShape | engines/microstructure/engine.py:64-109 | a built snapshot carries the symbol, the time and its own features |
| Microstructure.Engine.constructor | engines/microstructure/engine.py:22-30 | the five sub-engines are new and empty, with the source's default window, thresholds and ratio |
| Microstructure.Engine.PublishSnapshot | engines/microstructure/engine.py:64-119 | the snapshot is composed from the sub-engines' state, carries the symbol, time and its features, and is published once, or nothing when building raises |
| Microstructure.Engine.OnTradeEvent | engines/microstructure/engine.py:52-57 | the delta record is stored as its handler leaves it (completed, or partly updated for a known symbol); when delta or tape raises, tape and footprint keep their state and nothing is published; otherwise tape state and window, and the footprint, take their handlers' new values and the snapshot composed from them is published |
| Microstructure.Engine.OnEvent | engines/microstructure/engine.py:42-62 | a dom_snapshot updates the depth records as `on_dom` leaves them, a dom_delta replaces the symbol's liquidity signals, a trade runs delta, tape and footprint as in the trade branch, a tick changes no sub-engine; the other sub-engines are untouched; the result is the composed snapshot exactly when the handler completed (always for a tick), and only it is published; another type changes nothing |
| Microstructure.Engine.Start | engines/microstructure/engine.py:32-35 | `on_event` is subscribed to dom_snapshot, dom_delta, trade and tick, in that order |
| VolumeProfile.ParseTrade | engines/volume_profile/engine.py:30-34 | the trade reads iff price and size (default 0) convert; without either key both are 0 |
| VolumeProfile.AddTrade | engines/volume_profile/engine.py:35-36 | the price's volume grows by the size (from 0 for a new price, which is appended to the first-traded order); other prices keep theirs |
| VolumeProfile.TotalAfterTrade | engines/volume_profile/engine.py:36-44 | a trade raises the total volume by exactly its size |
| VolumeProfile.FirstMax | engines/volume_profile/engine.py:43 | `max` by volume picks a price whose volume no other exceeds, and every price before it has strictly less |
| VolumeProfile.AreaLenFrom | engines/volume_profile/engine.py:48-52 | the scan stops at the first prefix reaching the target, or takes every price |
| VolumeProfile.AreaLen | engines/volume_profile/engine.py:46-52 | the value area length is that of the shortest non-empty prefix reaching the target, or all prices; zero only for no prices |
| VolumeProfile.AreaLenIs | engines/volume_profile/engine.py:48-52 | the first prefix length reaching the target is the only length meeting that description |
| VolumeProfile.SortedPrices | engines/volume_profile/engine.py:45 | the traded prices, strictly ascending, each once |
| VolumeProfile.Summary | engines/volume_profile/engine.py:53-58 | the update carries the symbol, the histogram and the total volume |
| VolumeProfile.PocIsMaximal | engines/volume_profile/engine.py:43 | the point of control is a traded price with the largest volume |
| VolumeProfile.ValueAreaShape | engines/volume_profile/engine.py:45-52 | the value area is a non-empty ascending run of traded prices |
| VolumeProfile.PocIsFirstMaximum | engines/volume_profile/engine.py:43 | the point of control is the first-traded of the prices with the largest volume |
| VolumeProfile.ValueAreaIsShortestPrefix | engines/volume_profile/engine.py:46-52 | the value area is the shortest run of lowest prices whose volume reaches 70% of the total, or every price when none does |
| VolumeProfile.ValueArea | engines/volume_profile/engine.py:46-52 | the accumulation loop yields exactly that shortest prefix |
| VolumeProfile.Summarize | engines/volume_profile/engine.py:43-58 | the point of control, total and value-area loop compute exactly the summary |
| VolumeProfile.Engine.constructor | engines/volume_profile/engine.py:17-19 | a new engine has no histograms and has published nothing |
| VolumeProfile.Engine.HistogramOf | engines/volume_profile/engine.py:40 | an unseen symbol reads as an empty histogram |
| VolumeProfile.Engine.Emit | engines/volume_profile/engine.py:39-66 | an empty histogram publishes nothing; otherwise its summary is published once; histograms are unchanged |
| VolumeProfile.Engine.Publish | engines/volume_profile/engine.py:66 | the update is appended to what was published |
| VolumeProfile.Engine.OnTrade | engines/volume_profile/engine.py:27-37 | a trade that does not convert changes nothing; otherwise its size is added at its price and the symbol's summary is published |
| VolumeProfile.SingleLevelSummary | engines/volume_profile/engine.py:43-52 | with one traded price, that price is the point of control and the whole value area, and its volume is the total |
| VolumeProfile.SingleTradeScenario | tests/test_volume_profile.py:8-22 | a single trade at 100 of size 10 publishes point of control 100, total 10 and value area [100] |
| VolumeProfile.PocOutsideValueArea | engines/volume_profile/engine.py:43-52 | with volumes 10, 10, 10 and 11 at four ascending prices the value area is the three lowest and does not hold the point of control |
| Ohlc.BucketOf | engines/ohlc/engine.py:23-24 | for a positive timeframe the bucket is the one whose span holds the truncated timestamp (Python's floor division) |
| Ohlc.BarKey | engines/ohlc/engine.py:42 | the key starts with the symbol followed by ":" and then the bucket number |
| Ohlc.TouchEffect | engines/ohlc/engine.py:43-50 | a new bar opens, closes, peaks and bottoms at its first price; a later price keeps the open and bucket, widens high and low to include it and becomes the close; the volume grows by the size when it converts and is kept otherwise |
| Ohlc.TouchKeepsOrdered | engines/ohlc/engine.py:43-46 | every bar stays ordered: low at most open and close, which are at most high |
| Ohlc.CandleOf | engines/ohlc/engine.py:54-67 | the reported bar's time is the bucket times the timeframe, with the bar's open, high, low, close and volume |
| Ohlc.Ingest | engines/ohlc/engine.py:34-51 | a missing or unconvertible price, or a zero timeframe, changes nothing; otherwise the bar under the symbol-and-bucket key is updated, a new one starting at the price |
| Ohlc.QuotePrice | engines/ohlc/engine.py:31 | a quote's price is a truthy last, else the mid |
| Ohlc.Engine.constructor | engines/ohlc/engine.py:16-19 | a new engine keeps its timeframe and has no bars and has published nothing |
| Ohlc.Engine.IngestPrice | engines/ohlc/engine.py:34-69 | a rejected price changes nothing and publishes nothing; otherwise the bar is stored under its key and published once as a candle |
| Ohlc.Engine.OnTrade | engines/ohlc/engine.py:26-27 | a trade ingests its price and its size (default 0) at its timestamp |
| Ohlc.Engine.OnQuote | engines/ohlc/engine.py:29-32 | a quote ingests its last or mid price with no volume |
| Ohlc.QuoteAddsNoVolume | engines/ohlc/engine.py:32-48 | a quote never adds volume to its bar |
| Ohlc.FirstTradeScenario | engines/ohlc/engine.py:26-69 | one trade at 100 of size 1 publishes one bar that opens, closes, peaks and bottoms at 100 with volume 1 |
| Volatility.SeqMax | engines/volatility/engine.py:39 | the largest price of the window, which is one of its prices |
| Volatility.SeqMin | engines/volatility/engine.py:39 | the smallest price of the window, which is one of its prices |
| Volatility.Atr | engines/volatility/engine.py:39 | the range is a difference of two window prices that no other difference exceeds, hence never negative |
| Volatility.RegimeOf | engines/volatility/engine.py:40 | compression iff the range is below 0.2, expansion iff above 1.0, normal otherwise |
| Volatility.ParsePrice | engines/volatility/engine.py:31-34 | a missing price is 0; a present one is converted, failing where `float()` raises |
| Volatility.Engine.constructor | engines/volatility/engine.py:17-20 | a new engine keeps its window and has no prices and has published nothing |
| Volatility.Engine.OnTrade | engines/volatility/engine.py:28-48 | an unconvertible price is ignored; otherwise it joins the symbol's bounded window and the window's reading, if any, is published once |
| Volatility.Reading | engines/volatility/engine.py:37-46 | nothing with fewer than two prices; otherwise the symbol, the window's range and that range's label |
| Volatility.WindowKeepsLatest | engines/volatility/engine.py:35-36 | after a push the window ends with the new price and holds at most `window` of the latest prices |
| Volatility.RegimeExamples | engines/volatility/engine.py:39-40 | a flat window is compression; a window whose prices differ by more than 1 is expansion |
| MarketRegime.Classify | engines/regime/engine.py:38-42 | trending iff volatility above 1 and absolute delta above 200; otherwise squeezing iff volatility below 0.2; ranging in every other case |
| MarketRegime.RegimeOf | engines/regime/engine.py:37-42 | numeric readings are classified; a volatility of at most 1 never looks at the delta; a volatility that is not a number makes the comparison raise |
| MarketRegime.DeltaOf | engines/regime/engine.py:36 | a truthy cumulative delta; else a truthy delta; else 0 |
| MarketRegime.SnapshotOf | engines/regime/engine.py:35 | without a "snapshot" key the payload itself is the snapshot |
| MarketRegime.Engine.constructor | engines/regime/engine.py:16-20 | a new engine has no volatility readings and has published nothing |
| MarketRegime.Engine.OnVol | engines/regime/engine.py:30-31 | the symbol's reading is stored as given (0 when absent); nothing is published |
| MarketRegime.Engine.OnMicro | engines/regime/engine.py:33-50 | one regime update per snapshot, with the symbol, label, stored volatility and delta, unless reading it raises; readings are unchanged |
| MarketRegime.NoVolatilityIsSqueezing | engines/regime/engine.py:37-42 | a symbol without a volatility reading is always squeezing |
| LiquidityMap.NewState | engines/liquidity_map/engine.py:12-15 | a new record has no resting liquidity and an empty history |
| LiquidityMap.ParseLevel | engines/liquidity_map/engine.py:37-43 | a level that is not a dict is skipped; a kept level carries its converted price, and missing sizes are 0 |
| LiquidityMap.DomItems | engines/liquidity_map/engine.py:33-36 | a falsy dom gives no levels, a list gives its items, and a truthy number cannot be iterated and raises |
| LiquidityMap.RestingKeys | engines/liquidity_map/engine.py:36-43 | a price is in the resting map exactly when some level parses to it |
| LiquidityMap.LastLevelWins | engines/liquidity_map/engine.py:43 | the sizes kept at a price are those of the last level at that price |
| LiquidityMap.BuildResting | engines/liquidity_map/engine.py:35-43 | the level loop builds exactly the resting map |
| LiquidityMap.Engine.constructor | engines/liquidity_map/engine.py:24-26 | a new engine has no records and has published nothing |
| LiquidityMap.Engine.OnDom | engines/liquidity_map/engine.py:30-46 | the resting map is replaced by the snapshot's levels, the snapshot joins the bounded history and one update with the history length is published; a dom that cannot be iterated raises after the record was created |
| LiquidityMap.Engine.OnTrade | engines/liquidity_map/engine.py:48-53 | the trade joins the bounded history, the resting map is kept, and one update is published |
| Spoofing.ParseLevel | engines/detectors/spoofing_detector.py:32-38 | a level that is not a dict is skipped; a kept level has the converted price, bid_size (else bid, else 0) and ask_size (else ask, else 0) |
| Spoofing.Parsed | engines/detectors/spoofing_detector.py:29-38 | the kept levels are never more than the items |
| Spoofing.Ladder | engines/detectors/spoofing_detector.py:27-30 | a truthy dom is used when it is a list (and gives nothing otherwise); a falsy dom falls back to a truthy ladder under the same rule; with neither truthy there are no items |
| Spoofing.ParseLevels | engines/detectors/spoofing_detector.py:29-38 | the level loop keeps exactly the parsed levels, in order |
| Spoofing.Added | engines/detectors/spoofing_detector.py:44-46 | size added over the zipped ladders is never negative |
| Spoofing.AddedMinusRemoved | engines/detectors/spoofing_detector.py:44-47 | added minus removed on a side is the net change over the aligned pairs |
| Spoofing.NothingAddedToSameLadder | engines/detectors/spoofing_detector.py:44-47 | a ladder compared with itself shows nothing added |
| Spoofing.Decide | engines/detectors/spoofing_detector.py:49-70 | an alert is raised iff either side added more than ratio times what it removed and a positive amount; it carries the four flows and names the bid side exactly when the bid spoofs |
| Spoofing.Compare | engines/detectors/spoofing_detector.py:40-41 | a history of fewer than two ladders raises nothing |
| Spoofing.UnchangedLadderIsQuiet | engines/detectors/spoofing_detector.py:44-51 | an unchanged ladder never raises an alert |
| Spoofing.Detector.constructor | engines/detectors/spoofing_detector.py:17-22 | a new detector keeps its window and ratio, has no history and has published nothing |
| Spoofing.Detector.OnDom | engines/detectors/spoofing_detector.py:24-53 | the parsed ladder joins the symbol's bounded history, the alert is the comparison with the ladder before it, and it is published when raised |
| Spoofing.ComparedWithPrevious | engines/detectors/spoofing_detector.py:43 | the ladder compared with is the one the symbol's previous snapshot left in the history |
| Spoofing.BidGrowthAlerts | engines/detectors/spoofing_detector.py:44-53 | a bid that grows at the same price with nothing removed raises a bid alert for the growth, whatever the ratio |
| Spoofing.GrowthComparedAlerts | engines/detectors/spoofing_detector.py:27-53 | two one-level snapshots in a two-ladder window raise a bid alert when only the bid grew |
| Spoofing.BidBuildUpScenario | engines/detectors/spoofing_detector.py:24-53 | the first snapshot is quiet and the second raises a bid alert with the growth added and nothing removed |
| Iceberg.Qualifying | engines/detectors/iceberg_detector.py:25-35 | a trade without a price, or whose price or size does not convert, is ignored; one that converts is kept iff its size reaches the minimum |
| Iceberg.Count | engines/detectors/iceberg_detector.py:37-40 | the alert fires iff the incremented count reaches the minimum; it then reports that count and the count is reset to 0, otherwise the count is kept incremented |
| Iceberg.Detector.constructor | engines/detectors/iceberg_detector.py:16-21 | a new detector keeps its minimums, has no counts and has published nothing |
| Iceberg.Detector.OnTrade | engines/detectors/iceberg_detector.py:23-50 | an ignored trade changes nothing; a qualifying one counts at its symbol and price only, and the alert with price, size and count is published when the count reaches the minimum |
| Iceberg.AlertEveryMinRepeats | engines/detectors/iceberg_detector.py:37-40 | n qualifying trades at one price raise n div minRepeats alerts and leave n mod minRepeats counted |
| Iceberg.RunDecomposed | engines/detectors/iceberg_detector.py:37-40 | q full rounds and r more trades leave r counted after q alerts |
| LargeTrade.TradeSize | engines/detectors/large_trade_detector.py:24 | a trade without a size has size 0 |
| LargeTrade.Detect | engines/detectors/large_trade_detector.py:21-31 | an alert is raised iff the size converts and reaches the threshold; it carries the symbol, the raw price and the side, "unknown" when absent |
| LargeTrade.Detector.constructor | engines/detectors/large_trade_detector.py:16-19 | a new detector keeps its threshold and has published nothing |
| LargeTrade.Detector.OnTrade | engines/detectors/large_trade_detector.py:21-41 | the alert raised by the trade, if any, is published |
| MlFeatures.Tail | engines/ml_features.py:9 | Python's `values[-window:]`: the last window values for a positive window, all for 0, all but the first -window for a negative one |
| MlFeatures.RollingMean | engines/ml_features.py:6-9 | an empty list averages to 0; division by zero happens exactly for a zero window over a non-empty list; a positive window's mean times the tail length is the tail's sum |
| MlFeatures.SumBounds | engines/ml_features.py:9 | the sum of n values between lo and hi lies between n*lo and n*hi |
| MlFeatures.MeanWithinWindow | engines/ml_features.py:6-9 | a positive-window mean lies between any lower and upper bound of the values it averages |
| MlFeatures.MeanIsQuotient | engines/ml_features.py:9 | a positive-window mean is the tail's sum divided by the tail's length |
| MlFeatures.FeatureVector | engines/ml_features.py:12-17 | the vector has exactly mean_5, mean_10 and last; the means are the 5- and 10-value rolling means and last is the last tick, 0 when there is none |
| Signals.SignalPayload | engines/strategy.py:42 | the signal's dump carries exactly its symbol, direction, score, confidence, features and metadata, each feature as a number and each metadata entry as a string |
| Signals.SignalEvent | engines/strategy.py:36-44 | a signal is published as a "signal" event from source "strategy" under the signal's symbol, with the signal's dump as payload |
| Momentum.TickMid | engines/strategy.py:63-66 | a truthy mid is converted; else a truthy price; else the last value, converted unless it is absent, which gives nothing |
| Momentum.MoveSignal | engines/strategy.py:67-83 | a signal is raised iff the previous mid is known (non-zero) and the move reaches the threshold; it buys exactly on an upward move, scores the move, has a confidence in [0, 1] and records mid, previous mid and move |
| Momentum.MicroPriceMomentumStrategy.constructor | engines/strategy.py:54-57 | a new strategy keeps its threshold, has published nothing and knows a zero mid for exactly its symbols |
| Momentum.MicroPriceMomentumStrategy.OnEvent | engines/strategy.py:59-85 | only ticks with a readable mid change state; the mid is stored before the threshold check, and the signal for the move from the previous mid is published when raised |
| Momentum.MicroPriceMomentumStrategy.Start | engines/strategy.py:26-28 | the strategy's handler is subscribed to tick, trade, dom_delta and dom_snapshot and nothing else on the bus changes |
| Orchestrator.Evaluate | strategy/orchestrator.py:39-68 | a signal is raised only for a watched symbol that passes the regime filter, the playbook's entry, the confluence filter and a positive score; it takes the playbook's direction, scores the features and tags, caps the confidence at 1 and joins the tags with commas |
| Orchestrator.ScoreFilterNeverRejects | strategy/orchestrator.py:48-57 | whenever the playbook enters the score is at least 0.1, so a snapshot becomes a signal exactly when the symbol is watched and the regime, playbook and confluence filters pass |
| Orchestrator.StrategyOrchestrator.constructor | strategy/orchestrator.py:21-29 | a new orchestrator watches exactly the given symbols and has published nothing |
| Orchestrator.StrategyOrchestrator.OnMicrostructure | strategy/orchestrator.py:39-76 | the snapshot's signal, if any, is published |
| Orchestrator.StrategyOrchestrator.Start | strategy/orchestrator.py:31-33 | one subscription to microstructure and nothing else on the bus changes |
| StrategyRegime.IsAllowed | strategy/regime.py:15-23 | a snapshot is rejected iff a non-zero ATR exceeds its threshold or a non-zero volume is below its threshold; missing ATR and volume always pass |
| StrategyRegime.DefaultVolumeRule | strategy/regime.py:11-22 | with the default volume threshold of 0, only a negative volume blocks an ATR that passes |
| StrategyRegime.SampleRegimes | tests/test_strategy_components.py:22-25 | with thresholds 3 and 10, ATR 2 is allowed and ATR 4 rejected at volume 20 |
| Playbook.FirstMatch | strategy/playbook.py:17-24 | there is no action iff no rule matches; an entry is the decision of the first matching rule |
| Playbook.Evaluate | strategy/playbook.py:17-24 | the loop over the rules returns the first match's decision |
| Playbook.DefaultDecisions | strategy/playbook.py:11-24 | with the default rules an imbalance of at least 0.1 enters long, at most -0.1 enters short and anything between does nothing, a missing imbalance counting as 0 |
| Confluence.Validate | strategy/confluence.py:11-17 | the features pass iff volatility is not above 5 and liq_spoof not above 0; missing features pass |
| Confluence.SampleValidations | tests/test_strategy_components.py:14-19 | volatility 4 without spoofing passes and volatility 6 is rejected |
| Scoring.Score | strategy/scoring.py:11-16 | the score is at least the absolute imbalance, at least 0.1 with the absorption tag, and exceeds the absolute imbalance plus a thousandth of the absolute delta by exactly the absorption bonus |
| PatternDetector.ClassifyPattern | strategy/pattern_detector.py:34-43 | each label is returned exactly when its heuristic holds and no earlier one in the order absorption, spoof, vacuum, divergence does; "none" exactly when none holds |
| PatternDetector.SampleLabels | tests/test_strategy_components.py:6-11 | the five sample feature maps get the labels absorption, spoof, vacuum, divergence and none |
| SimpleStrategy.ParseDelta | strategy/simple_strategy.py:28-32 | a truthy numeric delta is used as is and one `float()` rejects gives 0; a falsy delta falls back to a truthy cumulative_delta, converted or 0 when `float()` rejects it; with neither truthy the delta is 0 |
| SimpleStrategy.Classify | strategy/simple_strategy.py:33-43 | a zero threshold always divides by zero; otherwise the signal buys exactly at or above the threshold, sells exactly at or below its negation when it does not buy, scores the delta in threshold units with breakout or breakdown as reason, and is otherwise flat with score 0 and reason neutral |
| SimpleStrategy.ScoreBeyondOne | strategy/simple_strategy.py:36-43 | with a positive threshold a buy scores at least 1 and a sell at most -1 |
| SimpleStrategy.SimpleStrategyEngine.constructor | strategy/simple_strategy.py:15-20 | a new engine keeps its threshold, has published nothing, and has `on_delta` subscribed to "delta_update" with the bus otherwise unchanged |
| SimpleStrategy.SimpleStrategyEngine.OnDelta | strategy/simple_strategy.py:26-51 | every delta update with a non-zero threshold publishes exactly one signal, flat ones included |
| Orders.StatusValue | models/order.py:22-28 | fill and partial_fill are the wire values of exactly the fill and partial-fill statuses |
| Orders.NewOrder | models/order.py:31-48 | a request keeps the given id, symbol, side, quantity and type and has no limit or stop price, a DAY time in force and no metadata |
| Orders.Dump | models/order.py:51-61 | an order event dumps exactly its id, symbol, status value, filled quantity, average price (None when absent), reason and raw fields |
| Orders.OrderMessage | execution/adapters/sim.py:59-67 | an order event travels as an "order_event" from the given source under the order's symbol with the event's dump as payload |
| Risk.Prune | risk/engine.py:34 | the pruned history keeps exactly the timestamps within the 60-second window |
| Risk.Throttle | risk/engine.py:31-38 | the order is allowed iff fewer than throttle_max timestamps remain in the window, and then now is recorded |
| Risk.Note | risk/engine.py:45-71 | a failed check adds its reason, and only then |
| Risk.NoteKeepsOrder | risk/engine.py:45-71 | appending a reason ranked after every earlier one keeps the reasons in order |
| Risk.ReasonsComplete | risk/engine.py:44-71 | each reason is reported exactly when its check fails (kill switch, whitelist, size, unsigned exposure, throttle), and there are no reasons exactly when every check passes |
| Risk.ReasonsInOrder | risk/engine.py:44-71 | the reasons come in the fixed order kill switch, symbol, size, exposure, throttle, without repetition |
| Risk.Signed | risk/engine.py:88 | an approved buy adds its quantity to the exposure and a sell subtracts it |
| Risk.RiskEngine.constructor | risk/engine.py:17-23 | a new engine keeps its limits, is not killed and has no exposure and no history |
| Risk.RiskEngine.EngageKillSwitch | risk/engine.py:25-26 | the kill switch is engaged and nothing else changes |
| Risk.RiskEngine.ResetKillSwitch | risk/engine.py:28-29 | the kill switch is released and nothing else changes |
| Risk.RiskEngine.Evaluate | risk/engine.py:40-89 | the decision carries the order's id and symbol, the complete reasons and the limits, and approves exactly when there are none; the throttle records now whenever it allows, and the exposure moves by the signed quantity only on approval |
| Risk.SellCheckedUnsigned | risk/engine.py:64-88 | a sell that would reduce a long position is checked as if it added to it: exposure 1.5, limit 2, selling 1 is rejected though the position would be 0.5 |
| KillSwitches.KillSwitch.constructor | risk/kill_switch.py:14-16 | a new switch is released with no listeners and no calls |
| KillSwitches.KillSwitch.Register | risk/kill_switch.py:18-19 | the listener goes to the end of the list and nothing else changes |
| KillSwitches.KillSwitch.Engage | risk/kill_switch.py:21-30 | the switch is engaged; when it already was nothing is called, otherwise every listener is called once, in order |
| KillSwitches.KillSwitch.Reset | risk/kill_switch.py:32-33 | the switch is released and the listeners stay registered |
| PriceCollar.DeviationBps | risk/rules.py:9 | the deviation is never negative and is 0 exactly when the limit equals the reference |
| PriceCollar.WithinPriceCollar | risk/rules.py:6-10 | an order without a limit price always passes; otherwise it passes iff its deviation is within the collar |
| PriceCollar.CollarSymmetric | risk/rules.py:9-10 | a limit the same distance above or below the reference gets the same answer |
| PriceCollar.CollarMonotone | risk/rules.py:9-10 | a wider collar admits everything a narrower one admits |
| ExecutionRouting.ExecutionRouter.constructor | execution/router.py:18-22 | a new router stores its mode upper-cased, has no orders, and has made no adapter calls and published nothing |
| ExecutionRouting.ExecutionRouter.Submit | execution/router.py:24-32 | the order is recorded under its id and sent to the adapter once, and nothing is published |
| ExecutionRouting.ExecutionRouter.Cancel | execution/router.py:34-35 | the cancel is delegated to the adapter and the recorded orders are kept |
| ExecutionRouting.ExecutionRouter.Replace | execution/router.py:37-39 | the new order is recorded under the old id and the replacement is delegated |
| ExecutionRouting.ExecutionRouter.PublishOrderEvent | execution/router.py:41-49 | one order_event from source "execution" carrying the event's symbol and fields, stamped with the order event's own timestamp, is published and nothing else changes |
| ExecutionRouting.ModeCaseInsensitive | execution/router.py:21 | "sim" and "SIM" are stored as the same mode and "MT5" is kept |
| SimExecution.FillPrice | execution/adapters/sim.py:42 | a fill is priced at the non-zero limit price, else at the stop price, else at 0 |
| SimExecution.SendEvents | execution/adapters/sim.py:25-44 | send always acknowledges first with nothing filled, and adds a fill of the whole quantity at the fill price exactly when the draw is within the fill probability; both carry the order's id and symbol |
| SimExecution.Messages | execution/adapters/sim.py:59-67 | each order event is published as one order_event from "execution_sim", in order |
| SimExecution.CertainFill | execution/adapters/sim.py:35 | with a fill probability of at least 1 every draw from [0, 1) fills |
| SimExecution.NeverFillsAtZero | execution/adapters/sim.py:35 | with a zero fill probability a positive draw only acknowledges |
| SimExecution.SimAdapter.constructor | execution/adapters/sim.py:20-23 | a new adapter keeps its fill probability, has no orders and has published nothing |
| SimExecution.SimAdapter.Send | execution/adapters/sim.py:25-44 | the order is stored under its id and the ack, then the fill when drawn, are published |
| SimExecution.SimAdapter.CancelSymbol | execution/adapters/sim.py:49 | a cancel is reported under the stored order's symbol, or "" for an unknown id |
| SimExecution.SimAdapter.Cancel | execution/adapters/sim.py:46-53 | exactly one cancel event with nothing filled is published and the stored orders are kept |
| SimExecution.SimAdapter.Replace | execution/adapters/sim.py:55-57 | the new order is stored under the old id and under its own, and is sent as a new order |
| Slicing.ChildFields | execution/smart_router/slicing.py:17-33 | a child differs from its parent only in its id, the parent's id followed by "-child-" and its index, and its quantity |
| Slicing.ClipsIsProduct | execution/smart_router/slicing.py:14-36 | k full clips carry k times the clip |
| Slicing.ClipsMonotone | execution/smart_router/slicing.py:14-36 | with a positive clip, more full clips carry strictly more |
| Slicing.Ceiling | execution/smart_router/slicing.py:14-36 | the ceiling is the least integer at or above its argument |
| Slicing.ClipCountCovers | execution/smart_router/slicing.py:14-36 | the ceiling of quantity over clip is the fewest clips that cover a quantity above one clip, and it is at least 2 |
| Slicing.ClipsAround | execution/smart_router/slicing.py:14-36 | x clips lie strictly above m clips and within m+1 clips when x lies so between m and m+1 |
| Slicing.ClipStep | execution/smart_router/slicing.py:14-15 | while k clips fall short of the quantity k is below the clip count, and one below it when one more clip covers the rest |
| Slicing.ClipCountUnique | execution/smart_router/slicing.py:14-36 | the clip count of a quantity is unique |
| Slicing.FullClips | execution/smart_router/slicing.py:14-36 | the first k children are k orders |
| Slicing.Sliced | execution/smart_router/slicing.py:14-36 | a slicing into n clips has n children |
| Slicing.FullClipsShape | execution/smart_router/slicing.py:15-21 | each of the first k children is the parent's child of that index carrying the clip, and together they carry k clips |
| Slicing.SlicedShape | execution/smart_router/slicing.py:14-36 | every child but the last carries the clip, the last carries what is left, and together they carry the parent's quantity |
| Slicing.LastChildWithinClip | execution/smart_router/slicing.py:15 | with the clip count the last child carries a positive amount no larger than the clip |
| Slicing.SliceSpecShape | execution/smart_router/slicing.py:8-37 | an order within one clip is returned as is; a larger one is cut into the clip count of children, at least 2, full clips first and the remainder last, summing to the parent's quantity |
| Slicing.SliceOrder | execution/smart_router/slicing.py:8-37 | the loop produces exactly the specified slicing |
| QueueTime.EstimateQueueTime | execution/smart_router/queue_time.py:6-13 | without a positive fill rate the wait is 0; otherwise the wait times the rate is the quantity times the queue position floored at 0.1, never negative for a non-negative quantity |
| QueueTime.PositionFloored | execution/smart_router/queue_time.py:12 | positions at or below 0.1 all wait as long as 0.1 |
| QueueTime.QueueTimeMonotone | execution/smart_router/queue_time.py:10-13 | for a non-negative quantity and positive rates, a later position never waits less and a faster rate never waits more |
| QueueTime.DefaultEstimateExample | execution/smart_router/queue_time.py:6-13 | one unit at position 0.5 and the default rate 100 waits 0.005 seconds |
| ExecMetrics.Fresh | execution/smart_router/metrics.py:13-15 | a symbol's record before its first fill reads as no fills and zero totals |
| ExecMetrics.Record | execution/smart_router/metrics.py:11-18 | a fill adds one to the count and its slippage and latency to the totals, and the averages are the totals over the count |
| ExecMetrics.ReplayedIsMean | execution/smart_router/metrics.py:11-18 | after any run of fills the count is the run's length, the totals are the sums recorded and the averages are their means |
| ExecMetrics.FillCounts | execution/smart_router/router.py:69 | each symbol's fill count, as health sums them |
| ExecMetrics.RecordAddsOneFill | execution/smart_router/metrics.py:11-18 | every recorded fill adds exactly one to the total over all symbols |
| ExecMetrics.ExecutionMetrics.constructor | execution/smart_router/metrics.py:8-9 | new metrics have no records |
| ExecMetrics.ExecutionMetrics.RecordFill | execution/smart_router/metrics.py:11-18 | only the symbol's own record changes, by one recorded fill, and the total fill count grows by one |
| SmartRouting.Stamped | execution/smart_router/router.py:32-34 | every child, in order, stamped with its queue-time estimate |
| SmartRouting.Ids | execution/smart_router/router.py:35 | one id per order |
| SmartRouting.Sends | execution/smart_router/router.py:36 | one send call per order submitted |
| SmartRouting.AppendOne | execution/smart_router/router.py:35-36 | submitting one more child appends its id and its send call and records it under its id |
| SmartRouting.StampedChildren | execution/smart_router/router.py:33-34 | stamping keeps every field of a child and adds exactly the eta_sec entry, the child's queue-time estimate, to its metadata; the ids are unchanged |
| SmartRouting.IdsAt | execution/smart_router/router.py:35 | the ids are the orders' ids, position by position |
| SmartRouting.RouteIds | execution/smart_router/router.py:29-37 | an order within one clip routes under its own id; a larger one under its id followed by "-child-" and 0, 1, … one per needed clip |
| SmartRouting.AssignMetadata | execution/smart_router/router.py:34 | assigning the metadata raises exactly on a frozen order, and otherwise replaces the metadata only |
| SmartRouting.UnfrozenStampsAll | execution/smart_router/router.py:32-34 | on an order model that allows the assignment, the loop stamps every child |
| SmartRouting.FrozenStampsNone | execution/smart_router/router.py:32-34 | on the frozen order model the first assignment raises, so no child is stamped |
| SmartRouting.AsWrittenRoutesNothing | execution/smart_router/router.py:29-37 | as written, route raises on the first child of every order before anything is submitted |
| SmartRouting.Handling | execution/smart_router/router.py:39-47 | only fill and partial_fill statuses are recorded, with slippage and latency defaulting to 0; a value float() rejects makes the handler raise |
| SmartRouting.SimEventsHandled | execution/smart_router/router.py:43-47 | a simulated fill is recorded with zero slippage and latency and an acknowledgement is ignored |
| SmartRouting.RouterAction | execution/smart_router/router.py:50-56 | the announcement is a router_action from smart_router with an empty symbol, carrying exactly the order id, the cancel_replace action and the price |
| SmartRouting.SmartOrderRouter.constructor | execution/smart_router/router.py:21-27 | a new router keeps its base router and clip, has fresh empty metrics, and subscribes its handler to order_event only |
| SmartRouting.SmartOrderRouter.Route | execution/smart_router/router.py:29-37 | the slices are stamped and submitted in order and their ids returned in that order, nothing else published |
| SmartRouting.SmartOrderRouter.SubmitAll | execution/smart_router/router.py:32-36 | the children are submitted in order and their ids returned |
| SmartRouting.SmartOrderRouter.OnOrderEvent | execution/smart_router/router.py:39-47 | a recorded fill updates only the event symbol's record and adds one to the fill total; anything else records nothing |
| SmartRouting.SmartOrderRouter.CancelReplace | execution/smart_router/router.py:49-61 | the action is announced, then the order cancelled; no replacement is submitted and the recorded orders are kept |
| SmartRouting.SmartOrderRouter.Health | execution/smart_router/router.py:68-69 | health reports one router and the fills recorded over all symbols |
| SmartRouting.PegRaises | execution/smart_router/router.py:63-66 | as written, peg_order raises exactly for a mid peg of an order with a non-zero limit price and no stop price |
| SmartRouting.PegKeepsOrder | execution/smart_router/router.py:63-66 | with the assignment allowed, peg_order returns the order unchanged for every peg |
| SmartRouting.TwelveByFiveClips | execution/smart_router/slicing.py:8-37 | twelve units need three clips of five |
| OrderBookRouting.BasePrice | execution/order_book_router.py:31 | a non-zero limit price is the base, else the best bid for a buy and the best ask for a sell |
| OrderBookRouting.Biased | execution/order_book_router.py:27-38 | only the limit price can change; a non-limit order or one without a base price is returned as is; otherwise the base moves one tick per step, up for a buy and down for a sell |
| OrderBookRouting.StepMovesIntoBook | execution/order_book_router.py:34-36 | a positive step raises a buy's price above the base and lowers a sell's below it |
| OrderBookRouting.OrderBookRouter.constructor | execution/order_book_router.py:21-22 | a new router has no intents |
| OrderBookRouting.OrderBookRouter.SetBias | execution/order_book_router.py:24-25 | the symbol's intent is overwritten and the others kept |
| OrderBookRouting.OrderBookRouter.Apply | execution/order_book_router.py:27-38 | the order is biased by its symbol's intent, the default intent when none is set |
| OrderBookRouting.NoBiasNoShift | execution/order_book_router.py:28-36 | without an intent for its symbol a limit order is priced at its base, unshifted |
| IbkrOrders.BuildFxContract | ibkr/ibkr_orders.py:9-15 | an FX contract is a cash pair on IDEALPRO quoted in USD under the given symbol |
| IbkrOrders.PriceOrZero | ibkr/ibkr_orders.py:28-31 | a missing price is sent as 0, a present one as itself |
| IbkrOrders.ToIbOrder | ibkr/ibkr_orders.py:18-42 | the action is BUY exactly for a buy; each order type maps to its own IB code; a limit price is set exactly for limit and stop-limit orders and an auxiliary price exactly for stop and stop-limit orders; quantity and time in force are copied; the id is left unset, outside-RTH and transmit are on and the two legacy flags off |
| IbkrOrders.ToIbOrderRecoverable | ibkr/ibkr_orders.py:18-42 | the IB order keeps enough to recover the request's side, type, quantity, time in force and present prices |
| ReplayClock.Delays | providers/replay_clock.py:12-18 | one delay is computed per event after the first |
| ReplayClock.Positive | providers/replay_clock.py:16-17 | only positive delays are slept, in order |
| ReplayClock.PacedEvents | providers/replay_clock.py:7-19 | every event is yielded in order, and the sleeps taken are exactly the positive delays |
| ReplayClock.PacedStep | providers/replay_clock.py:13-19 | one more event extends the values by its own and, after the first, the delays by the one since its predecessor |
| ReplayClock.PositiveStep | providers/replay_clock.py:16-17 | a delay joins the sleeps exactly when it is positive |
| ReplayClock.DelaysTelescope | providers/replay_clock.py:15 | the delays add up to the span from the first to the last timestamp over the speed, floored at 0.0001 |
| ReplayClock.PositiveSum | providers/replay_clock.py:16-17 | dropping zero delays does not change the total when none is negative |
| ReplayClock.DelaysNonNegative | providers/replay_clock.py:15 | with timestamps in order every delay is non-negative |
| ReplayClock.SleptSpan | providers/replay_clock.py:7-19 | with timestamps in order the time slept is the replayed span over the speed |
| ReplayClock.ZeroOneThreeAtDoubleSpeed | providers/replay_clock.py:7-19 | events at 0, 1 and 3 seconds at double speed sleep 1.5 seconds in all |
| Telemetry.CounterIsSum | telemetry/metrics.py:16-17 | a counter holds its starting value plus everything added to it, however interleaved with other names |
| Telemetry.MetricsSink.constructor | telemetry/metrics.py:12-14 | a new sink has no counters and no gauges |
| Telemetry.MetricsSink.Incr | telemetry/metrics.py:16-17 | only the named counter moves, by the value, and gauges are untouched |
| Telemetry.MetricsSink.Observe | telemetry/metrics.py:19-20 | the gauge is overwritten and counters are untouched |
| Telemetry.MetricsSink.Snapshot | telemetry/metrics.py:22-23 | the snapshot holds both tables as they are |
| Watchdog.Watchdogs.constructor | observability/watchdogs.py:8-10 | a new watchdog keeps its limit in seconds and has seen nothing |
| Watchdog.Watchdogs.Heartbeat | observability/watchdogs.py:12-13 | only the name's last-seen time changes, to now |
| Watchdog.Watchdogs.IsStale | observability/watchdogs.py:15-19 | a name never seen is stale; otherwise it is stale exactly when more than the limit has passed |
| Watchdog.HeartbeatFreshness | observability/watchdogs.py:12-19 | a heartbeat keeps its name fresh for exactly the limit and changes nothing about other names |
| IbkrHealth.IBKRHealth.constructor | ibkr/ibkr_health.py:7-10 | a new record has both feed times at 0 and no reconnect attempts |
| IbkrHealth.IBKRHealth.RecordTick | ibkr/ibkr_health.py:13-14 | only the tick time changes, to now |
| IbkrHealth.IBKRHealth.RecordDom | ibkr/ibkr_health.py:16-17 | only the DOM time changes, to now |
| IbkrHealth.IBKRHealth.IsStale | ibkr/ibkr_health.py:19-21 | the connection is stale exactly when both feeds are older than the maximum age |
| IbkrHealth.OneFreshFeedSuffices | ibkr/ibkr_health.py:19-21 | either feed seen within the maximum age keeps the connection healthy |
| Profiles.ProfileConfig | deployment/profiles.py:6-11 | exactly mode and observability are set; the mode is ibkr exactly for prod and sim otherwise; observability is full for prod, standard for paper and dev otherwise |
| IbkrEvents.KindValue | ibkr/ibkr_events.py:91-97 | the four kinds have the distinct wire values tick, trade, dom_delta and dom_snapshot |
| IbkrEvents.FromIbSide | ibkr/ibkr_events.py:104-109 | IB's side code 1 is the bid and every other code is the ask |
| IbkrEvents.IbSideCode | ibkr/ibkr_events.py:106 | a side's IB code is 0 or 1 |
| IbkrEvents.FromIbOp | ibkr/ibkr_events.py:117-124 | code 0 inserts, 1 updates and every other code deletes |
| IbkrEvents.IbOpCode | ibkr/ibkr_events.py:119 | an operation's IB code is 0, 1 or 2 |
| IbkrEvents.IbCodesRoundTrip | ibkr/ibkr_events.py:104-124 | decoding IB's code for a side or an operation gives back what was encoded |
| IbkrEvents.ComputeMid | ibkr/ibkr_events.py:166-170 | the mid exists exactly when bid and ask do, and lies as far above the bid as below the ask |
| IbkrEvents.ComputeSpread | ibkr/ibkr_events.py:172-176 | the spread exists exactly when bid and ask do, and the bid plus the spread is the ask |
| IbkrEvents.MidSpreadConsistent | ibkr/ibkr_events.py:166-176 | the mid sits half a spread above the bid and half a spread below the ask, inside an uncrossed quote |
| IbkrEvents.FromBidAsk | ibkr/ibkr_events.py:178-202 | the tick keeps the quote, sizes and raw record, computes mid and spread from the quote and has no last trade |
| IbkrEvents.FromLast | ibkr/ibkr_events.py:204-221 | the tick has only the last price and size: no quote, sizes, mid or spread |
| IbkrEvents.OptNum | ibkr/ibkr_events.py:148-161 | an absent number dumps as None and a present one as itself |
| IbkrEvents.OptStr | ibkr/ibkr_events.py:239-240 | an absent string dumps as None and a present one as itself |
| IbkrEvents.OptBool | ibkr/ibkr_events.py:263 | an absent flag dumps as None and a present one as the number Python compares it equal to |
| IbkrEvents.RawValue | ibkr/ibkr_events.py:164 | an absent raw record dumps as None and a present one as a dict with the same entries |
| IbkrEvents.TickDump | ibkr/ibkr_events.py:140-164 | a tick dumps exactly its eleven fields, quote, last, mid and spread as None when absent |
| IbkrEvents.TradeDump | ibkr/ibkr_events.py:224-242 | a trade dumps exactly its eight fields with its price, size and aggressor value |
| IbkrEvents.LevelDump | ibkr/ibkr_events.py:245-265 | a level dumps exactly its nine fields with its side value and level number |
| IbkrEvents.DeltaDump | ibkr/ibkr_events.py:268-290 | a delta dumps exactly its ten fields with its operation and side values, level, price, size and market maker |
| IbkrEvents.LevelsDump | ibkr/ibkr_events.py:305-306 | one dumped level per level, in order |
| IbkrEvents.SnapshotDump | ibkr/ibkr_events.py:293-308 | a snapshot dumps exactly symbol, ts, bids, asks and raw, each side as its dumped levels |
| IbkrEvents.MarketEvent | ibkr/ibkr_events.py:60-83 | the payload is wrapped unchanged in an event of the kind's type from source ibkr, under the symbol and at the time given |
| IbkrEvents.BuildTickFromBidAsk | ibkr/ibkr_events.py:327-360 | a tick event from ibkr at the given time carrying the quote, a mid halfway between bid and ask, the spread from bid to ask and no last trade |
| IbkrEvents.BuildTradeFromLast | ibkr/ibkr_events.py:368-406 | a trade event from ibkr at the given time carrying price, size, aggressor and exchange |
| IbkrEvents.BuildTickFromLast | ibkr/ibkr_events.py:414-442 | a tick event carrying only the last price and size; quote, mid and spread are None |
| IbkrEvents.BuildDomDeltaFromL2 | ibkr/ibkr_events.py:450-495 | a dom_delta event at the given time, or now when absent, at the given level, with IB's side and operation codes decoded and price, size and market maker kept |
| IbkrEvents.BuildDomSnapshot | ibkr/ibkr_events.py:503-537 | a dom_snapshot event at the given time, or now when absent, carrying every level of each side dumped, in the order given |
| IbkrEvents.BuildFromIbTickByTickBidAsk | ibkr/ibkr_events.py:545-575 | the plain bid/ask tick with the two attribute texts as its raw record and nothing else changed |
| IbkrEvents.BuildFromIbTickByTickAllLast | ibkr/ibkr_events.py:578-609 | the plain trade with the attribute text as its raw record and nothing else changed |
| IbkrEvents.BuildFromIbUpdateMktDepthL2 | ibkr/ibkr_events.py:612-646 | the plain delta with the market maker also recorded as the raw record and nothing else changed |
| IbkrEvents.DomDeltaUpsertsBook | ibkr/ibkr_events.py:450-495 | a built IB insert or update makes the DOM engine store price, size and market maker at the position on the side IB's code names, leaving the other side alone |
| IbkrEvents.DomDeltaDeletesLevel | ibkr/ibkr_events.py:450-495 | a built IB delete makes the DOM engine remove the level at the position on that side |
| IbkrEvents.TradeReadByDeltaEngine | ibkr/ibkr_events.py:368-406 | the delta engine reads back from a built trade exactly its price, size and aggressor |
| Pipeline.NestedDict | main.py:33-34 | a missing features or metadata entry reads as an empty dict; a present one must be a dict, or the lookup raises |
| Pipeline.LimitValue | main.py:33 | the limit is the first truthy of the features' mid, price and last, and last when none is |
| Pipeline.BuildOrderFromSignal | main.py:29-42 | an order is built exactly when features and metadata are dicts, the quantity converts and the limit is None or a number; it buys exactly on direction buy, is a limit order exactly when the limit is truthy (market otherwise), carries the limit when it is a number and the metadata quantity, else the default |
| Pipeline.MomentumSignalOrdersAtMid | main.py:29-42 | a published momentum signal becomes a limit order at the mid it saw, on its side, for the default quantity |
| Pipeline.NoPriceMeansMarket | main.py:33-40 | a signal with no mid, price or last becomes a market order without a limit price for the default quantity |
| Pipeline.ReasonValues | models/risk.py:17 | the reasons' wire values, one per reason, in order |
| Pipeline.DecisionEvent | main.py:79-87 | the decision is published as a risk_decision from source risk under the order's symbol, carrying its order id, symbol, approval and reasons |
| Pipeline.SignalPipeline.constructor | main.py:71-77 | the gate keeps its risk engine, router and default quantity and has done nothing |
| Pipeline.SignalPipeline.OnSignal | main.py:76-89 | a signal that cannot become an order changes nothing; otherwise the risk engine rules on the built order (its reasons computed from the state before the call), its throttle window for the symbol is updated, the exposure moves by the signed quantity exactly when the order is approved, the kill switch is untouched, the decision is published, and the order reaches the router exactly when the decision approves it, after the decision |
| Pipeline.BuyAtHundredBuilds | main.py:29-42 | a buy signal with a mid of 100 and nothing else becomes a limit buy at 100 for one unit |
| Pipeline.ApprovedFirst | main.py:76-89 | a fresh gate over the whitelist ES approves a buy at 100: the decision is published, then the order submitted, once |

## Left out

- Bus threading: the worker thread, the blocking queue with its timeout, the lock and the join timeout are left out. Dispatch is a sequence of explicit steps.
- `EventBus.unsubscribe`, `EventBus.allowed_sources` and `ProviderManager.auto_start` are called by other code but have no body in the repository. They are not modelled. The same goes for the `stop` methods of the microstructure engine, the orchestrator and the volatility engine, which call `unsubscribe`.
- Floating point: prices, sizes and averages are exact reals. Rounding, `inf` and `nan` are not modelled.
- The risk limits' `float("inf")` defaults are modelled as absent limits.
- Text.Upper: ASCII letters only; Unicode case mapping (for example `'ß'.upper() == 'SS'`) is not modelled, so symbols and modes outside ASCII are matched as written.
- Orders.OrderEvent: the `timestamp` field is not carried; `Orders.Dump` leaves it out of the payload, and `ExecutionRouting.ExecutionRouter.PublishOrderEvent` takes it as a separate argument.
- `float()` of a numeric string: `Common.ToReal` accepts only numbers. A string payload value is treated as one `float()` rejects.
- Timestamps: `datetime` values are epoch-second reals.
- Wall-clock reads, `uuid4` ids, signal ids and decision ids are parameters or are omitted.
- Booleans inside payloads are carried as the numbers 1 and 0.
- Pipeline.DecisionEvent: the `limits` entry of the published risk decision is not part of the modelled payload.
- Microstructure: the snapshot is published as a typed record. Its rendering into a payload dict is not modelled.
- The footprint and tape snapshot events are modelled by their contents only. The list-versus-dict wrapping of their payloads is not modelled.
- FootprintEngine.Snapshot: its rows keep the price and the cell apart; the merged dict `{"price": price, **sides}`, in which a cell key "price" replaces the price, is given per row by `FootprintEngine.RowDict`.
- The DOM snapshot is a list of levels, as the state record builds it. Some test text indexes it as a dict; the model follows the code.
- SmartRouting.WithEta: `str(eta)` is rendered as a decimal with six digits (`Common.SixDecimals`). Python's shortest round-trip float repr is not modelled.
- Slicing.SliceOrder: requires a positive clip when the quantity exceeds the clip. With a clip of zero or less the source loops forever.
- ExecutionRouting.ExecutionRouter: the adapter is any object with `send`, `cancel` and `replace`. The model records the calls made to it; the adapter's own behaviour is modelled only for the simulated adapter.
- IbkrOrders.ToIbOrder: IB's "unset" price marker is `None`. The IB client library itself is not modelled.
- Pydantic validation of order requests is not modelled beyond the frozen-model assignment behind the findings below.
- Risk.RiskEngine.Evaluate: the exposure check uses the unsigned quantity, as the code does, even though the ledger is signed. `Risk.SellCheckedUnsigned` shows a sell that reduces exposure being rejected. The model keeps the code's behaviour.
- Momentum.MicroPriceMomentumStrategy.OnEvent: a mid that `float()` rejects makes the source raise inside the bus callback, before any state changes. The model returns no signal and leaves the state unchanged.
- Logging calls are not modelled. The bus's logging of a raising callback is a failure flag on the recorded call.
- Not part of this model:
  - the `main()` command line, signal handling and wiring;
  - the Interactive Brokers connector, the IB and MT5 execution adapters and the feed providers;
  - the historical loader, configuration, logging and audit files;
  - the UI;
  - tracing, health and CI/CD files.

## Findings

| source | as written | input that shows it | evidently intended | confidence | as-written member | corrected member |
|---|---|---|---|---|---|---|
| engines/microstructure/engine.py:108 | `snapshot.features = ...` assigns to a `dataclass(frozen=True)` instance, so `_build_snapshot` always raises and no microstructure snapshot is published | any DOM, trade or tick event for the engine | build the snapshot, then attach its extracted features | not executed | Microstructure.AsWrittenNeverBuilds | Microstructure.BuildSnapshot |
| execution/smart_router/router.py:34 | `child.metadata = ...` assigns to a frozen `OrderRequest`, so `route` raises on the first child before any submit | an order of 12 units with a clip of 5, where 3 ids are expected | stamp each child with `eta_sec` and submit all of them in order | not executed | SmartRouting.AsWrittenRoutesNothing | SmartRouting.SmartOrderRouter.Route |
| execution/smart_router/router.py:65 | `order.limit_price = order.limit_price` assigns to a frozen `OrderRequest`, so `peg_order` raises | a "mid" peg of an order with limit price 100 and no stop price | return the order unchanged | not executed | SmartRouting.PegRaises | SmartRouting.PegKeepsOrder |
