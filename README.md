# binary_option_bot signal pipeline, modelled in Dafny

This project models the signal pipeline of the binary_option_bot repository.

- **Feed handlers.** Pocket Option market events come in over a raw WebSocket (config.py) or over
  Socket.IO (data_fetcher.py, pocket_ws.py). The handlers fill a per-symbol candle or tick store,
  keep the dynamic symbol list, and send subscription requests.
- **Indicators.** strategy.py computes Heikin-Ashi bars, EMA, ATR, the Alligator and the
  stochastic oscillator. Two-bar engulfing patterns and a multi-timeframe trend confirmation
  feed analyze_candles, which returns "buy", "sell" or nothing.
- **Sweep.** One pass of the data fetcher's loop analyses every (symbol, timeframe). It keeps
  latest_signals holding one record per key, pushes each record to the dashboard and attempts a
  Telegram message per BUY or SELL record and chat id.
- **Scheduler and quote cache.** signal_scheduler.py computes the next candle boundary and skips
  short frames. pocket_option_intergration.py caches the price of each quoted symbol.

Files:

- `wrappers.dfy`: `Option` and a sequence fact.
- `json.dfy`: the decoded JSON value and the Python operations the handlers apply to it:
  truthiness, `get`, `[]`, iteration, use as a dict key, and `float()`.
- `frames.dfy`: the Socket.IO `42[...]` event-frame decoding.
- `series.dfy`: pandas column and rolling-window operations, with NaN as `None`.
- `strategy.dfy`: the indicators and the decision rule.
- `config_feed.dfy`: config.py's `on_open` and `on_message`. `market_data` is keyed by the symbol's
  Python dictionary identity, so `True` and `1` share an entry.
- `data_fetcher.dfy`: data_fetcher.py's handlers, `tf_to_seconds` and one `start_fetching` pass.
- `pocket_ws.dfy`: pocket_ws.py's handlers.
- `signal_scheduler.dfy`: `get_next_candle_time` and the length filter.
- `pocket_option_client.dfy`: `PocketOptionClient`.

How state is modelled:

- Module globals and object fields that the source updates in place become fields of a class:
  `SYMBOLS`/`market_data`, `symbols`/`market_data`/`latest_signals`, and `quotes`.
- Each method states its new state through a snapshot function.
- Functions the source writes as expressions (the indicators, the frame decoding, the scheduler
  arithmetic) become Dafny functions.

The following outside calls become parameters:

- `json.loads` is `loads: string -> Option<Json>`, where `None` means it raised.
- `str()` of a period, or of a symbol that is not a string, is `render`.
- `float()` of a string is `parseText`.
- The strategy the sweep calls is `analyze`.
- The result of one `sio.emit` in pocket_ws.py is `accepts`.
- The UTC timestamp of a sweep is `now`.

Prices are real numbers, and pandas NaN is `None`.

Two details where the code departs from the usual indicator definitions; the model follows the code:

- The Heikin-Ashi open is built from the raw previous bar's open and close (strategy.py:18), not
  from the previous Heikin-Ashi bar. `Strategy.HeikinAshiOpenIsNotChained` exhibits the
  difference.
- The stochastic %K has no epsilon in its denominator (strategy.py:42). A collapsed range makes
  %K undefined.

## Model

| member | source | states |
|---|---|---|
| Json.Lookup | config.py:67 | a member lookup succeeds exactly when some member has that name, and returns the value of the last member with that name, as json.loads keeps the last of duplicates |
| Json.Get | config.py:79-80 | `d.get(k)` raises exactly on a non-dict; a missing key reads as None |
| Json.Index | data_fetcher.py:101-110 | `d[k]` succeeds exactly on a dict holding k |
| Json.Elements | config.py:66 | iteration succeeds on lists, strings and dicts only; a string or dict yields strings; the iteration is empty exactly when the value is falsy |
| Json.HashKey | pocket_option_intergration.py:76 | a value can key a dict unless it is a list or dict; strings and numbers key as themselves |
| Json.ToFloat | pocket_option_intergration.py:74 | `float()` of a number is that number; None, lists and dicts raise |
| Frames.DecodeFrame | config.py:52-58 | the frame is ignored exactly when it does not start with "42"; an event is produced only when the body decodes |
| Frames.Envelope | config.py:57-58 | a list body yields (head, second-or-None) exactly when it is non-empty; scalars and dicts raise |
| Frames.DecodeEventArray | pocket_option_intergration.py:67-69 | an empty list is malformed; otherwise the event is the head and the payload the second item, or None for a one-item list |
| Frames.NamedEventsComeFromArrays | config.py:57 | an event whose name is a string longer than one character comes from a body that is a list |
| Series.Min | strategy.py:40 | the minimum is an element and is at most every element |
| Series.Max | strategy.py:41 | the maximum is an element and is at least every element |
| Series.RollingMean | strategy.py:34 | definition: `rolling(w).mean()`, undefined before the window fills or when the window holds a NaN |
| Series.RollingMin | strategy.py:40 | definition: `rolling(w).min()` |
| Series.RollingMax | strategy.py:41 | definition: `rolling(w).max()` |
| Series.AllDefined | strategy.py:43 | a window is defined exactly when all its values are, and then holds those values |
| Series.RollingExtremesAt | strategy.py:40-41 | at a filled window, `rolling(w).min()`/`.max()` are the minimum and maximum of the last w values |
| Series.SumBounds | strategy.py:29 | a sum of n values in [lo, hi] lies in [n*lo, n*hi] |
| Series.MeanBetween | strategy.py:34-36 | a mean lies between the window's minimum and maximum |
| Series.RollingMeanOfDefined | strategy.py:29-36 | a rolling mean of a NaN-free column is undefined exactly before index w-1, and elsewhere is the mean of the last w values and lies between their minimum and maximum |
| Series.WindowMean | strategy.py:43 | where a window is fully defined the rolling mean is its mean |
| Series.DefinedWindow | strategy.py:34 | every window of a NaN-free column is fully defined, with the column's values |
| Series.RollingMeanNaN | strategy.py:43 | a rolling mean is NaN whenever a value in its window is NaN |
| Strategy.CalculateEma | strategy.py:4-13 | period -1 raises (None), even for no prices; otherwise the loop's list equals the EMA recurrence and has the input's length, and for period >= 1 each value lies between the minimum and maximum of the prices so far |
| Strategy.EmaOf | strategy.py:4-13 | the recurrence has one value per price |
| Strategy.Smoothing | strategy.py:6 | definition: `k = 2 / (period + 1)` |
| Strategy.EmaRecurrence | strategy.py:8-11 | element 0 is prices[0]; element i is `price[i]*k + ema[i-1]*(1-k)` |
| Strategy.EmaPrefix | strategy.py:7-12 | the average of a prefix is the prefix of the average |
| Strategy.EmaSnoc | strategy.py:11-12 | one more price appends exactly one more average |
| Strategy.SmoothingInUnit | strategy.py:6 | k = 2/(period+1) lies in (0, 1] for period >= 1 |
| Strategy.EmaBounded | strategy.py:11 | with 0 <= k <= 1 each average lies between the minimum and maximum of the prices seen so far |
| Strategy.EmaBoundedAll | strategy.py:4-13 | the bound of EmaBounded for every index |
| Strategy.HeikinAshi | strategy.py:15-22 | the transform keeps the length and is the per-bar Heikin-Ashi formula |
| Strategy.HaBar | strategy.py:16-21 | definition: the Heikin-Ashi bar at one index |
| Strategy.HeikinAshiShape | strategy.py:17-21 | close is (o+h+l+c)/4; open[0] is the raw open; open[i] is (raw open[i-1] + raw close[i-1])/2; high is at least open, close and raw high; low is at most open, close and raw low |
| Strategy.HeikinAshiWellFormed | strategy.py:20-21 | every Heikin-Ashi bar has open and close between its low and high |
| Strategy.HeikinAshiOpenIsNotChained | strategy.py:18 | on a concrete two-bar frame the second open differs from the chained (previous Heikin-Ashi bar) formula |
| Strategy.TrueRange | strategy.py:25-28 | one true range per bar |
| Strategy.TrueRangeAt | strategy.py:25-28 | TR[0] is high-low, since the NaN candidates are skipped; each later TR is the largest of high-low, abs(high-prevClose) and abs(low-prevClose) |
| Strategy.TrueRangeNonNegative | strategy.py:25-28 | after the first bar the true range is never negative |
| Strategy.Atr | strategy.py:24-30 | one ATR value per bar |
| Strategy.AtrAt | strategy.py:29 | ATR is undefined exactly before index period-1, and non-negative from index period |
| Strategy.CalculateAlligator | strategy.py:32-37 | the three lines have the frame's length |
| Strategy.AlligatorLine | strategy.py:33-36 | for any three windows, each line is undefined before its index w-1 and elsewhere is the mean of the last w median prices, between their minimum and maximum |
| Strategy.PercentK | strategy.py:40-42 | one %K value per bar |
| Strategy.StochasticOscillator | strategy.py:39-44 | %K and %D have the frame's length |
| Strategy.PercentOf | strategy.py:42 | a close within [lo, hi] with hi > lo gives a percentage in [0, 100] |
| Strategy.PercentKValue | strategy.py:40-42 | at a filled window, %K is computed from the window's lowest low and highest high |
| Strategy.WindowEnclosesClose | strategy.py:40-42 | on a well-formed bar the window's lowest low and highest high enclose the close |
| Strategy.PercentKAt | strategy.py:40-42 | %K is undefined before index k-1 and where the range collapses; elsewhere it is defined and in [0, 100] on a well-formed frame |
| Strategy.PercentKInRange | strategy.py:42 | every defined %K of a well-formed frame lies in [0, 100] |
| Strategy.PercentDAt | strategy.py:43 | %D is undefined whenever a %K value in its window is undefined |
| Strategy.StochasticOfHeikinAshiInRange | strategy.py:39-44 | over Heikin-Ashi bars, defined %K lies in [0, 100], %D is the 3-window mean of %K, and defined %D lies in [0, 100] |
| Strategy.PercentDInRange | strategy.py:43 | a defined 3-window mean of %K lies in [0, 100] |
| Strategy.BullishEngulfing | strategy.py:46-51 | definition: the bullish two-bar engulfing test |
| Strategy.BearishEngulfing | strategy.py:53-58 | definition: the bearish two-bar engulfing test |
| Strategy.EngulfingExclusive | strategy.py:46-58 | neither detector fires on fewer than two bars, and the two never fire together |
| Strategy.SuffixEngulfing | strategy.py:106-110 | the detectors see only the last two bars, so the 30-bar tail gives the same answer as the whole frame |
| Strategy.GetBias | strategy.py:70-79 | a missing frame or one under 50 bars has no bias and slope 0; a bullish bias has a positive EMA slope, a bearish one a negative slope |
| Strategy.MultiTimeframeConfirmation | strategy.py:61-91 | no lower signal gives None; the result is None or the lower signal; "buy" exactly when the lower signal is "buy", mid is bullish and high is not bearish; "sell" symmetrically |
| Strategy.ConfirmationFailsClosed | strategy.py:70-72 | a missing or short middle frame never confirms |
| Strategy.Read | strategy.py:99-120 | definition: the indicator values analyze_candles reads at the last bar |
| Strategy.IsBuy | strategy.py:122-133 | definition: the twelve conditions of is_buy |
| Strategy.IsSell | strategy.py:135-146 | definition: the twelve conditions of is_sell |
| Strategy.RawSignal | strategy.py:148 | definition: "buy" if is_buy, else "sell" if is_sell, else None |
| Strategy.AnalyzeCandles | strategy.py:93-155 | under 50 bars gives None; any result is the raw single-timeframe signal |
| Strategy.BuySellExclusive | strategy.py:122-146 | is_buy and is_sell never hold together |
| Strategy.AnalyzeNeedsPattern | strategy.py:122-149 | "buy" needs a bullish engulfing pair on the last two Heikin-Ashi bars and %K under 30; "sell" needs a bearish pair and %K over 80 |
| Strategy.AnalyzeWithoutMidNeverSignals | strategy.py:149 | called without a middle frame the rule never returns a signal |
| ConfigFeed.CandleSubscribeFrame | config.py:74 | every subscribe frame is a "42" event frame |
| ConfigFeed.SymbolText | config.py:74 | a string symbol is written as itself; any other symbol as its `str()` |
| ConfigFeed.SubscribeFrames | config.py:73-74 | definition: the frames for periods 60, 180 and 300, in that order |
| ConfigFeed.FramesFor | config.py:73-74 | three frames per symbol |
| ConfigFeed.FramesForAt | config.py:73-74 | frame 3i+j subscribes symbol i, written as itself when a string and as its `str()` otherwise, to period 60, 180 or 300 for j = 0, 1, 2 |
| ConfigFeed.FramesForAppend | config.py:66-74 | frames for two lists of symbols are the frames of each, in order |
| ConfigFeed.TimeframeName | config.py:84 | 60, 180 and 300 map to "1m", "3m" and "5m"; any other period maps to its `str()` |
| ConfigFeed.Push | config.py:85-88 | definition: append, then drop the oldest candle when the buffer exceeds 50 |
| ConfigFeed.LastN | config.py:87-88 | the last n values, or all when fewer |
| ConfigFeed.PushAll | config.py:85-88 | definition: candles pushed one after another, in arrival order |
| ConfigFeed.PushBounded | config.py:85-88 | one push into a buffer within 50 stays within 50, keeps the last 50 of buffer-plus-candle, and ends with the new candle |
| ConfigFeed.PushAllKeepsLatest | config.py:85-88 | pushing candles one by one leaves the last 50 of all candles, in arrival order |
| ConfigFeed.HundredTwentyCandles | config.py:85-88 | 120 candles into an empty buffer leave candles 71 to 120 |
| ConfigFeed.LoadAsset | config.py:66-74 | definition: one asset of the loop, which raises for a non-dict asset and, after appending the symbol, for a list or dict symbol |
| ConfigFeed.LoadAssets | config.py:66-74 | definition: the loop over the assets, stopping at the first that raises |
| ConfigFeed.OnAssets | config.py:64-75 | definition: SYMBOLS cleared, then the loop; a payload that is not iterable raises after the clear |
| ConfigFeed.OnCandles | config.py:78-88 | definition: the candles branch, keyed by the asset's dictionary identity |
| ConfigFeed.OnMessageSpec | config.py:51-91 | definition: the "42" gate, decoding, then the assets branch followed by the candles branch |
| ConfigFeed.TruthySymbols | config.py:67-68 | definition: the truthy symbols of the dict assets, in payload order |
| ConfigFeed.LoadAssetRaises | config.py:67-71 | an asset raises exactly when it is not a dict or its truthy symbol is a list or dict; a dict that raises has already appended its symbol to SYMBOLS, and nothing else changed |
| ConfigFeed.LoadAssetStep | config.py:66-74 | one dict asset with a falsy or hashable symbol appends its truthy symbol, resets that symbol key's candle map, sends its three frames, and leaves every other key's candles as they were |
| ConfigFeed.LoadAssetSent | config.py:73-74 | one asset sends exactly the frames of its truthy symbol |
| ConfigFeed.LoadAssetsCons | config.py:66 | the loop handles the first asset and then the rest |
| ConfigFeed.TruthySymbolsCons | config.py:67-68 | the truthy symbols of a list are those of its head followed by those of its tail |
| ConfigFeed.LoadAssetsSymbols | config.py:65-69 | when no asset raises, SYMBOLS gains exactly the truthy symbols in payload order |
| ConfigFeed.LoadAssetsFrames | config.py:73-74 | when no asset raises, three frames go out per truthy symbol, in payload order |
| ConfigFeed.LoadAssetsCandles | config.py:71 | when no asset raises, every truthy symbol is hashable and its key's candle map is empty; every other key keeps its candles |
| ConfigFeed.LoadAssetsStops | config.py:66-91 | an asset that raises ends the loop: the state is what that asset left, and the assets after it have no effect |
| ConfigFeed.IgnoredFrames | config.py:52-58 | a non-"42" frame, or one that fails to decode, changes nothing |
| ConfigFeed.CandlesEffect | config.py:78-91 | a candles event with a truthy hashable asset and period pushes the payload into exactly its (asset key, tf) buffer, numbers and booleans included; a list or dict asset changes nothing; symbols, frames sent and every other buffer stay; a buffer within 50 stays within 50 |
| ConfigFeed.TrueIsAssetOne | config.py:85 | a candle for asset `true` lands in the buffer of asset 1, as Python dict keys compare |
| ConfigFeed.CandlesNeedAssetAndPeriod | config.py:79-82 | a candles event with a missing or falsy asset or period stores nothing |
| ConfigFeed.LoadAssetsBounded | config.py:71 | asset loading keeps every buffer within 50 |
| ConfigFeed.OnMessageBounded | config.py:51-91 | every message keeps every buffer within 50 |
| ConfigFeed.FeedState.OnOpen | config.py:46-49 | `on_open` appends the getAssets frame and changes nothing else |
| ConfigFeed.FeedState.OnMessage | config.py:51-91 | the new state is `on_message` applied to the old one, and every buffer stays within capacity |
| ConfigFeed.FeedState.LoadSymbols | config.py:64-75 | the assets branch in place equals its functional definition, including a symbol appended just before the loop raises |
| ConfigFeed.FeedState.StoreCandle | config.py:78-88 | the candles branch in place equals its functional definition |
| DataFetcher.Contribution | data_fetcher.py:73 | an asset gets through the comprehension exactly when it is a dict holding "symbol" when enabled; it contributes at most one symbol |
| DataFetcher.EnabledSymbols | data_fetcher.py:73 | the comprehension yields at most one symbol per asset |
| DataFetcher.EnabledSymbolsDefined | data_fetcher.py:72-85 | the comprehension raises exactly when some asset is not admissible |
| DataFetcher.EnabledSymbolsOne | data_fetcher.py:73 | a disabled asset contributes nothing; an enabled one contributes its symbol |
| DataFetcher.EnabledSymbolsCons | data_fetcher.py:73 | the comprehension handles the head, then the tail |
| DataFetcher.EnabledSymbolsAppend | data_fetcher.py:73 | the enabled symbols keep the assets' order |
| DataFetcher.Admissible | data_fetcher.py:73 | definition: an asset the comprehension gets through |
| DataFetcher.PeriodSubscriptions | data_fetcher.py:80-81 | one candles subscription per period, in order |
| DataFetcher.PeriodSubscriptionsSnoc | data_fetcher.py:80-81 | one more period appends one more subscription |
| DataFetcher.TicksSubscribe | data_fetcher.py:79 | definition: the ticks subscription of one asset |
| DataFetcher.CandlesSubscribe | data_fetcher.py:81 | definition: the candles subscription of one asset and period |
| DataFetcher.SubscriptionsFor | data_fetcher.py:78-81 | four emits per asset |
| DataFetcher.AssetSubscriptions | data_fetcher.py:79-81 | four emits for one asset |
| DataFetcher.SubscriptionsAt | data_fetcher.py:78-81 | emit 4i is asset i's ticks subscription and emits 4i+1..4i+3 its 60, 180 and 300 s candles |
| DataFetcher.SubscriptionsOne | data_fetcher.py:78-81 | a one-asset list emits that asset's subscriptions |
| DataFetcher.SubscriptionsAppend | data_fetcher.py:78 | the subscriptions of two lists are those of each, in order |
| DataFetcher.SubscriptionsSnoc | data_fetcher.py:78 | one more asset appends its four subscriptions |
| DataFetcher.ParseTick | data_fetcher.py:91-92 | parsing succeeds exactly when asset, time and price are present and the asset is hashable, and then gives {time, price} |
| DataFetcher.ParseCandle | data_fetcher.py:101-110 | parsing succeeds exactly when all eight fields, volume included, are present and asset and period are hashable, and then gives the six-field candle |
| DataFetcher.AppendedEffect | data_fetcher.py:111 | appending extends exactly that (asset, period) buffer by the candle; every other buffer stays |
| DataFetcher.AddCandle | data_fetcher.py:99-113 | definition: the candles handler on the store; a failed parse leaves it |
| DataFetcher.AddCandleEffect | data_fetcher.py:99-113 | a parsed candle extends exactly its buffer by one, with no bound; a candle that fails to parse stores nothing |
| DataFetcher.ParseInt | data_fetcher.py:131 | `int("")` raises |
| DataFetcher.TfToSeconds | data_fetcher.py:130-131 | a timeframe of at most one character raises |
| DataFetcher.DecimalText | data_fetcher.py:131 | decimal text is a non-empty run of digits |
| DataFetcher.DecimalTextValue | data_fetcher.py:131 | the digits of n read back as n |
| DataFetcher.TfToSecondsOfMinutes | data_fetcher.py:130-131 | `tf_to_seconds` of "N" followed by a unit letter is N*60 |
| DataFetcher.ConfiguredTimeframes | data_fetcher.py:130-131 | "1m", "3m" and "5m" give 60, 180 and 300; "m" and "xm" raise |
| DataFetcher.KeyCountAppend | data_fetcher.py:157 | a key's record count adds over concatenation |
| DataFetcher.SameSymbol | data_fetcher.py:180 | definition: Python's `==` on two symbols; hashable values compare as dict keys (`True == 1`, `1 == 1.0`), others structurally |
| DataFetcher.SameSymbolSymmetric | data_fetcher.py:180 | Python's `==` on symbols is symmetric |
| DataFetcher.SameSymbolTransitive | data_fetcher.py:180 | Python's `==` on symbols is transitive |
| DataFetcher.SameSymbolReflexive | data_fetcher.py:180 | every symbol equals itself |
| DataFetcher.SameSymbolExamples | data_fetcher.py:180 | `True == 1` and `False == 0` hold; `"1" == 1`, `True == 2` and `[1] == 1` do not |
| DataFetcher.HasKey | data_fetcher.py:180 | definition: `s["symbol"] == symbol and s["timeframe"] == tf` with Python's equality on the symbol |
| DataFetcher.Without | data_fetcher.py:180 | definition: the list comprehension that drops the records of one (symbol, tf), under Python's equality |
| DataFetcher.Upsert | data_fetcher.py:180-181 | definition: drop the key's records, then append the new one |
| DataFetcher.WithoutCounts | data_fetcher.py:157 | the filter leaves no record of the key or of any key Python treats as equal to it, and leaves every other key's count as it was |
| DataFetcher.WithoutKeeps | data_fetcher.py:157 | the filter keeps every other record with its multiplicity and drops every record of the key |
| DataFetcher.WithoutAppend | data_fetcher.py:157 | the filter keeps the other records in their order |
| DataFetcher.UpsertEffect | data_fetcher.py:180-181 | after the upsert the key, and every key Python treats as equal to it, has exactly one record, the new one, in last position; every other key keeps its count and every other record its multiplicity |
| DataFetcher.TrueReplacesOne | data_fetcher.py:180-181 | a record for `True` replaces the record for 1 on the same timeframe, leaving one record |
| DataFetcher.SignalDefaults | data_fetcher.py:147-177 | no candles gives HOLD with confidence 0; a bare result has confidence 100; a tuple gives its confidence; a falsy value becomes HOLD; the record carries its key |
| DataFetcher.SignalFor | data_fetcher.py:145-177 | definition: the signal record of one key, HOLD without candles, else from the strategy's result |
| DataFetcher.AlertsFor | data_fetcher.py:187-193 | Telegram sends are attempted only for exactly "BUY" or "SELL", one per non-empty chat id, carrying their key |
| DataFetcher.NonEmpty | data_fetcher.py:188-189 | the truthy chat ids are exactly the non-empty ones |
| DataFetcher.Pairs | data_fetcher.py:143-144 | the nested loops visit as many pairs as the product of the two list lengths |
| DataFetcher.SymbolPairs | data_fetcher.py:144 | the inner loop visits each timeframe with the symbol, in order |
| DataFetcher.PairsMembers | data_fetcher.py:143-144 | the loops visit exactly all combinations of a symbol and a timeframe |
| DataFetcher.ProcessKey | data_fetcher.py:145-193 | definition: one inner-loop iteration: record, upsert, dashboard emit and Telegram attempts; None when it raises |
| DataFetcher.RunPairs | data_fetcher.py:143-193 | definition: the nested loops over the pairs, stopping at the first that raises |
| DataFetcher.RunPairsAppend | data_fetcher.py:143-144 | two runs back to back: the second starts where the first stopped, unless the first raised |
| DataFetcher.ProcessKeyRecords | data_fetcher.py:180-181 | a processed key, and every key Python treats as equal to it, has one record; every other key keeps its count |
| DataFetcher.ProcessKeySends | data_fetcher.py:184-193 | a processed key sends its record to the dashboard and attempts only notifiable Telegram sends, after the earlier ones |
| DataFetcher.RunPairsAlerts | data_fetcher.py:186-193 | a pass only appends attempted sends, and each one it appends is for exactly BUY or SELL |
| DataFetcher.Visits | data_fetcher.py:143-181 | definition: the pass visits a key Python treats as equal to (s, t) |
| DataFetcher.RunPairsOtherKeys | data_fetcher.py:180 | keys the pass never visits, under Python's equality, keep their count of records |
| DataFetcher.RunPairsOneRecordEach | data_fetcher.py:143-181 | after a pass that did not raise, every (symbol, tf) of the loops, and every key Python treats as equal to one, has exactly one record |
| DataFetcher.ToBars | data_fetcher.py:162 | one bar per candle |
| DataFetcher.RepositoryStrategy | data_fetcher.py:162-163 | definition: analyze_candles on the candles, None (HOLD) under 50 candles before any column is read |
| DataFetcher.RepositorySweepNeverAlerts | data_fetcher.py:162-193 | with analyze_candles as the sweep calls it, a pass never attempts a Telegram send |
| DataFetcher.Fetcher.UpdateSymbols | data_fetcher.py:35-40 | the symbol list is replaced, and the dashboard is told only when one is attached |
| DataFetcher.Fetcher.GetDynamicSymbols | data_fetcher.py:120-127 | returns the current list |
| DataFetcher.Fetcher.HandleAssets | data_fetcher.py:69-85 | when the comprehension raises nothing changes; otherwise symbols become the enabled symbols and four subscriptions per symbol are emitted |
| DataFetcher.Fetcher.SubscribeAll | data_fetcher.py:78-81 | the loop emits the subscriptions of all assets, in order, and changes nothing else |
| DataFetcher.Fetcher.Subscribe | data_fetcher.py:79-81 | one asset emits ticks, then 60, 180 and 300 s candles |
| DataFetcher.Fetcher.HandleTicks | data_fetcher.py:88-95 | a parsed tick is appended to its asset's list and nothing else changes; a failed parse changes nothing |
| DataFetcher.Fetcher.HandleCandles | data_fetcher.py:98-113 | the candle store becomes its functional update and nothing else changes |
| DataFetcher.Fetcher.Attach | data_fetcher.py:138-139 | attaches the dashboard socket |
| DataFetcher.Fetcher.Sweep | data_fetcher.py:141-193 | one pass equals the run over all (symbol, tf) pairs of the current symbols: latest_signals, dashboard and attempted Telegram sends are its outputs, and the result says whether it raised |
| DataFetcher.Fetcher.SweepSymbol | data_fetcher.py:144-193 | the inner loop equals the run over the symbol's pairs |
| PocketWs.Kept | pocket_ws.py:87 | an asset gets through the filter exactly when it is a dict, contributing at most one symbol |
| PocketWs.KeptSymbols | pocket_ws.py:87 | at most one symbol per asset |
| PocketWs.KeptSymbolsCons | pocket_ws.py:87 | the filter handles the head, then the tail |
| PocketWs.KeptSymbolsSound | pocket_ws.py:87 | the filter raises exactly when some asset is not a dict, and keeps only truthy symbols of truthily enabled assets |
| PocketWs.KeptComplete | pocket_ws.py:87 | conversely, the symbol of every enabled dict asset with a truthy symbol is kept |
| PocketWs.KeptSymbolsAppend | pocket_ws.py:87 | the filter keeps the assets' order |
| PocketWs.Accepted | pocket_ws.py:98-103 | the emits sent before the first rejected one |
| PocketWs.AcceptedPrefix | pocket_ws.py:98-103 | when the first n emits go through and emit n is rejected, exactly those n are sent |
| PocketWs.AcceptedAll | pocket_ws.py:98-101 | when every emit goes through, all are sent |
| PocketWs.Subscriptions | pocket_ws.py:97-103 | definition: each asset's accepted emits, asset by asset |
| PocketWs.SubscriptionsOne | pocket_ws.py:97-103 | one asset sends its accepted subscriptions |
| PocketWs.SubscriptionsAppend | pocket_ws.py:97-103 | a failure for one asset does not stop the others |
| PocketWs.SubscriptionsFrom | pocket_ws.py:97-103 | the loop from asset i is asset i's accepted emits followed by the rest |
| PocketWs.SubscriptionsAllAccepted | pocket_ws.py:97-101 | when every emit goes through, each kept asset gets ticks and 60, 180, 300 s candles in order |
| PocketWs.WsFeed.UpdateSymbols | pocket_ws.py:40-45 | the symbol list is replaced, and the dashboard is told only when one is attached |
| PocketWs.WsFeed.GetDynamicSymbols | pocket_ws.py:170-173 | returns the list last set |
| PocketWs.WsFeed.Attach | pocket_ws.py:138-140 | attaches the dashboard socket |
| PocketWs.WsFeed.HandleAssets | pocket_ws.py:83-108 | a raising filter or an empty filtered list changes nothing; otherwise symbols become the kept list and each asset's accepted subscriptions go out |
| PocketWs.WsFeed.SubscribeAll | pocket_ws.py:97-103 | the loop sends each asset's accepted subscriptions, in order |
| PocketWs.WsFeed.Subscribe | pocket_ws.py:98-103 | one asset's try block sends its emits up to the first rejected one |
| PocketWs.WsFeed.HandleTicks | pocket_ws.py:110-115 | nothing without a truthy, hashable asset; otherwise the tick list is created if missing and {time, price} appended when both are present |
| PocketWs.WsFeed.HandleCandles | pocket_ws.py:118-124 | the candle store becomes its functional update |
| PocketWs.StoreCandle | pocket_ws.py:118-124 | definition: the candles handler on the store |
| PocketWs.StoreCandleEffect | pocket_ws.py:121-124 | only a truthy asset and period store, appending the whole payload to that buffer and leaving every other buffer; otherwise nothing changes |
| SignalScheduler.FloorDiv | signal_scheduler.py:15 | Python's `//` rounds toward negative infinity |
| SignalScheduler.NextBoundary | signal_scheduler.py:15 | definition: `(minute // tf + 1) * tf` |
| SignalScheduler.NextCandleTime | signal_scheduler.py:12-17 | seconds and microseconds are 0, minute in [0, 60), hour in [0, 24), the date unchanged; a zero timeframe raises |
| SignalScheduler.BoundaryAhead | signal_scheduler.py:15 | the boundary is 1 to tf minutes after the current minute |
| SignalScheduler.NextCandleOnGrid | signal_scheduler.py:15-16 | for tf dividing 60 the result's minute is a multiple of tf |
| SignalScheduler.NextCandleSameHour | signal_scheduler.py:15-16 | without a wrap past the hour the result is in the same hour, 1 to tf minutes after now truncated to the minute |
| SignalScheduler.WrapGoesBackInTime | signal_scheduler.py:16 | at 23:59:30 with tf 1 the result is 00:00 of the same day, before now |
| SignalScheduler.WrapAtMidnightPrecedesNow | signal_scheduler.py:16 | for a timeframe dividing 60 (the repository's 1, 3 and 5), a boundary past hour 23 gives a time before now |
| SignalScheduler.FromMinutes | signal_scheduler.py:16 | a minute count as a valid datetime at that minute |
| SignalScheduler.NextCandleTimeCarried | signal_scheduler.py:12-17 | the corrected computation raises exactly for a zero timeframe |
| SignalScheduler.CarriedIsAhead | signal_scheduler.py:12-17 | the corrected result is strictly after now, at most tf minutes after now truncated, on the minute |
| SignalScheduler.CarriedAgreesWithinDay | signal_scheduler.py:15-16 | where the boundary stays within the day, the corrected and the original results agree |
| SignalScheduler.SameDayCarry | signal_scheduler.py:16 | carrying minutes within the day gives the source's hour and minute |
| SignalScheduler.AnalysedPositions | signal_scheduler.py:32-37 | the strategy is called exactly for the frames that are present with at least 50 rows, in order |
| SignalScheduler.ThresholdMatchesStrategy | signal_scheduler.py:35 | the skip threshold is analyze_candles' own minimum, and a skipped frame could not have been analysed |
| PocketOptionIntegration.QuoteOf | pocket_option_intergration.py:64-81 | a quote is stored only from a "42" quote event with a truthy payload, holding the hashable symbol and the float of the price |
| PocketOptionIntegration.NonEventsStoreNothing | pocket_option_intergration.py:65-67 | a non-"42" or undecodable frame stores nothing |
| PocketOptionIntegration.OtherEventsStoreNothing | pocket_option_intergration.py:72 | any event but "quote" stores nothing |
| PocketOptionIntegration.BareEventStoresNothing | pocket_option_intergration.py:69 | a one-item body has no payload and stores nothing |
| PocketOptionIntegration.QuoteFrameStores | pocket_option_intergration.py:72-76 | a well-formed quote frame stores its symbol with its price |
| PocketOptionIntegration.PocketOptionClient.constructor | pocket_option_intergration.py:21-37 | a new client is disconnected, not running, and has no quotes |
| PocketOptionIntegration.AuthPayload | pocket_option_intergration.py:55-59 | definition: the auth dict with cmd, email and password |
| PocketOptionIntegration.PocketOptionClient.OnOpen | pocket_option_intergration.py:51-62 | marks connected and sends the auth payload |
| PocketOptionIntegration.PocketOptionClient.OnClose | pocket_option_intergration.py:83-85 | marks disconnected |
| PocketOptionIntegration.PocketOptionClient.OnError | pocket_option_intergration.py:87-89 | marks disconnected |
| PocketOptionIntegration.PocketOptionClient.Connect | pocket_option_intergration.py:91-93 | sets keep_running |
| PocketOptionIntegration.PocketOptionClient.Stop | pocket_option_intergration.py:114-116 | clears keep_running |
| PocketOptionIntegration.PocketOptionClient.OnMessage | pocket_option_intergration.py:64-81 | a stored quote replaces only that symbol's price and calls on_quote once, when set, with the same pair; anything else changes nothing |
| PocketOptionIntegration.PocketOptionClient.GetPrice | pocket_option_intergration.py:121-124 | returns the cached price, or None |
| PocketOptionIntegration.CachedPrice | pocket_option_intergration.py:124 | a price is found exactly when the symbol was stored |
| PocketOptionIntegration.Stored | pocket_option_intergration.py:64-81 | what each frame stores, frame by frame |
| PocketOptionIntegration.QuotesAfter | pocket_option_intergration.py:76 | definition: the cache after storing each quote in turn |
| PocketOptionIntegration.LastQuote | pocket_option_intergration.py:76 | the position of the last frame storing the key, or none when no frame stores it |
| PocketOptionIntegration.GetPriceIsLastQuote | pocket_option_intergration.py:121-124 | after any sequence of frames, `get_price(s)` is the price of the last frame storing s, or the earlier cache when none did |

## Left out

- Networking, reconnection, heartbeat threads, `time.sleep`, threads and locks are not modelled.
  The model is sequential, and sends and emits become appended output sequences.
- The wait loop of data_fetcher.py's `get_dynamic_symbols` is not modelled. It only sleeps.
  List aliasing is not modelled either: the model copies values.
- Logging and `print` are not modelled.
- `on_auth_success`, `on_counters_success` and `catch_all` in pocket_ws.py are not modelled.
  `on_counters_success` and `catch_all` only log. `on_auth_success` logs and then calls
  `socketio.emit` (pocket_ws.py:68) on the python-socketio package imported at pocket_ws.py:5,
  not on the client `sio`. The package has no module-level `emit`, so the handler raises
  AttributeError after its first log line and sends nothing.
- The `connect` handlers of data_fetcher.py and pocket_ws.py are not modelled. They send constant
  authentication frames.
- IEEE-754 rounding, infinities and pandas NaN propagation beyond "undefined" are not modelled.
- Json.ToFloat: float() of a string is the parameter `parseText`, since Python's float parser is
  foreign.
- `json.loads` and `json.dumps` are not modelled. json.loads is the parameter `loads`.
  PocketOptionIntegration.AuthPayload is the decoded value rather than its text.
- The int/float distinction of JSON numbers is not modelled. Both are one real-valued kind.
  Booleans key a dict as 1 and 0, as in Python.
- DataFetcher.TicksOf: the defaultdict entries that data_fetcher.py creates on read are not
  modelled. A missing key reads as an empty list.
- DataFetcher.ParseInt: covers an optional sign followed by ASCII digits. The whitespace and
  underscore forms int() also accepts are not modelled.
- DataFetcher.ToBars: on 50 or more candles, a non-numeric candle column makes the strategy
  raise, rather than following pandas' object-dtype behaviour. Under 50 candles no column is
  read and the record is HOLD, as in the source.
- DataFetcher.Fetcher.Sweep: every record of a pass carries the same `now` timestamp. The clock
  is a parameter.
- DataFetcher.Fetcher.Sweep: the Telegram message text is not modelled. An alert records its
  parts.
- DataFetcher.Fetcher.Sweep: an alert is an attempted `send_telegram_message(chat_id, text)`
  call, not a delivery. telegram_utils.py's function takes one argument, so each such call
  raises TypeError, which data_fetcher.py:192-193 catches; Telegram delivery is not modelled.
- DataFetcher.Fetcher.HandleAssets: every `sio.emit` is assumed to succeed. A raising emit
  would end the subscription loop, and data_fetcher.py catches that for the whole handler.
- pocket_ws.py's `handle_ticks` and `handle_candles` have no try block. A failure there
  propagates to the Socket.IO library and is not modelled. The model stores nothing on such a
  failure, except the containers `setdefault` created before it.
- MultiTimeframeConfirmation and AnalyzeCandles use `ewm(span, adjust=False)`, which is modelled
  by the EMA recurrence. The `debug` prints of analyze_candles are not modelled.
- schedule_signal's timing loop is not modelled; the model keeps only its length filter. The
  module cannot be imported. signal_scheduler.py:5-7 imports `check_signals` from strategy.py,
  `send_telegram_alert` from telegram_utils.py and `get_live_data` from data_fetcher.py, and
  none of these modules defines the name asked of it: telegram_utils.py:18 defines only
  `send_telegram_message`, and `send_telegram_alert` is in utils.py:15. Importing
  signal_scheduler.py therefore raises ImportError, and nothing in the repository calls
  `get_next_candle_time`.
- DataFetcher.SameSymbol: a list or dict symbol is compared structurally. Python compares lists
  element by element with `==` (so `[True] == [1]`) and dicts without regard to key order, so
  for such symbols the model may keep two records where Python keeps one.
- pocket_option.py, trading_bot.py, strategy_runner.py, app.py, dashboard.py, login_automation.py,
  telegram_utils.py, utils.py, credentials.py and test_websocket.py are not part of this model.
  They are plumbing, or they call functions that do not exist in the repository.

## Findings

| source | as written | input that shows it | evidently intended | confidence | as-written member | corrected member |
|---|---|---|---|---|---|---|
| signal_scheduler.py:16 | the hour wraps with `% 24` but the date is not advanced; unreachable in the repository today, because signal_scheduler.py cannot be imported (see "## Left out") | now = 23:59:30 on day 0, timeframe 1: the result is 00:00 on day 0, almost a day before now | the next boundary on the following day, strictly after now | not executed | SignalScheduler.WrapGoesBackInTime | SignalScheduler.CarriedIsAhead |
