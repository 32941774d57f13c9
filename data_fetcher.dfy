/**
 * The Socket.IO data fetcher of data_fetcher.py: the `assets`, `ticks` and `candles` handlers
 * that fill the module's market data, `tf_to_seconds`, and one pass of the `start_fetching`
 * loop, which turns the stored candles into a signal record per (symbol, timeframe), keeps
 * `latest_signals` holding the newest record per key, pushes every record to the dashboard and
 * attempts a Telegram message for each BUY and SELL signal, once per configured chat id.
 */
module DataFetcher {
  import opened Wrappers
  import opened Json
  import Strategy

  /** The tick record `{time, price}` handle_ticks stores. */
  datatype Tick = Tick(time: Json, price: Json)

  /** The six-field candle record handle_candles stores. */
  datatype Candle = Candle(time: Json, open: Json, high: Json, low: Json, close: Json, volume: Json)

  /** One `sio.emit(event, payload)` to the market-data server. */
  datatype Emit = Emit(event: string, payload: Json)

  /** The `signal_data` dict of one (symbol, timeframe). */
  datatype SignalRecord = SignalRecord(symbol: Json, signal: Json, confidence: Json, time: string, timeframe: string)

  /** What the dashboard socket receives. */
  datatype DashboardEvent = SymbolsUpdate(symbols: seq<Json>) | NewSignal(record: SignalRecord)

  /**
   * One attempted `send_telegram_message(chat_id, text)` call, with the parts of its text. The
   * telegram_utils.py function takes one argument, so each such call raises TypeError, which
   * the loop catches: an attempt is recorded, not a delivery.
   */
  datatype Alert = Alert(chatId: string, symbol: Json, timeframe: string, signal: Json, confidence: Json)

  /** What a strategy returns: a bare value, or a (value, confidence) tuple. */
  datatype StrategyResult = Plain(value: Json) | Pair(value: Json, confidence: Json)

  /** CANDLE_PERIODS, in seconds. */
  const CandlePeriods: seq<int> := [60, 180, 300]

  // ---------------------------------------------------------------- handle_assets

  /** An asset the comprehension gets through: a dict, holding "symbol" when it is enabled. */
  predicate Admissible(asset: Json)
  {
    asset.JObj? && (Truthy(Get(asset, "enabled").value) ==> Index(asset, "symbol").Some?)
  }

  /**
   * What one asset adds to the comprehension: nothing when `a.get("enabled")` is falsy, its
   * `a["symbol"]` otherwise; None when `a.get` or `a["symbol"]` raises.
   */
  function Contribution(asset: Json): (r: Option<seq<Json>>)
    ensures r.Some? <==> Admissible(asset)
    ensures r.Some? ==> |r.value| <= 1
  {
    match Get(asset, "enabled")
    case None => None
    case Some(enabled) =>
      if !Truthy(enabled) then Some([])
      else
        match Index(asset, "symbol")
        case None => None
        case Some(symbol) => Some([symbol])
  }

  /**
   * `[a["symbol"] for a in assets if a.get("enabled")]`; None when the comprehension raises
   * (an asset that is not a dict, or an enabled one without "symbol").
   */
  function EnabledSymbols(assets: seq<Json>): (r: Option<seq<Json>>)
    ensures r.Some? ==> |r.value| <= |assets|
  {
    if assets == [] then Some([])
    else
      var head, rest := Contribution(assets[0]), EnabledSymbols(assets[1..]);
      if head.Some? && rest.Some? then Some(head.value + rest.value) else None
  }

  /** The comprehension raises exactly when some asset is not admissible. */
  lemma {:induction false} EnabledSymbolsDefined(assets: seq<Json>)
    ensures EnabledSymbols(assets).Some? <==> forall i :: 0 <= i < |assets| ==> Admissible(assets[i])
    decreases |assets|
  {
    if assets != [] {
      EnabledSymbolsDefined(assets[1..]);
      assert forall i :: 0 <= i < |assets[1..]| ==> assets[1..][i] == assets[i + 1];
      if forall i :: 0 <= i < |assets| ==> Admissible(assets[i]) {
        assert Admissible(assets[0]);
      } else {
        var i :| 0 <= i < |assets| && !Admissible(assets[i]);
        if i > 0 {
          assert assets[i] == assets[1..][i - 1];
        }
      }
    }
  }

  /** A disabled asset contributes nothing; an enabled one contributes its symbol. */
  lemma EnabledSymbolsOne(asset: Json)
    requires Admissible(asset)
    ensures !Truthy(Get(asset, "enabled").value) ==> EnabledSymbols([asset]) == Some([])
    ensures Truthy(Get(asset, "enabled").value) ==> EnabledSymbols([asset]) == Some([Index(asset, "symbol").value])
  {
    assert [asset][1..] == [];
    assert EnabledSymbols([]) == Some([]);
    assert Contribution(asset).value + [] == Contribution(asset).value;
  }

  lemma EnabledSymbolsCons(asset: Json, rest: seq<Json>)
    ensures EnabledSymbols([asset] + rest) ==
      if Contribution(asset).Some? && EnabledSymbols(rest).Some? then Some(Contribution(asset).value + EnabledSymbols(rest).value) else None
  {
    assert ([asset] + rest)[0] == asset && ([asset] + rest)[1..] == rest;
  }

  /** The symbols keep the order of the assets: the filter distributes over concatenation. */
  lemma {:induction false} EnabledSymbolsAppend(a: seq<Json>, b: seq<Json>)
    requires EnabledSymbols(a).Some? && EnabledSymbols(b).Some?
    ensures EnabledSymbols(a + b) == Some(EnabledSymbols(a).value + EnabledSymbols(b).value)
    decreases |a|
  {
    if a == [] {
      assert a + b == b;
      assert EnabledSymbols(a).value + EnabledSymbols(b).value == EnabledSymbols(b).value;
    } else {
      assert (a + b)[0] == a[0] && (a + b)[1..] == a[1..] + b;
      EnabledSymbolsAppend(a[1..], b);
      var head, x, y := Contribution(a[0]).value, EnabledSymbols(a[1..]).value, EnabledSymbols(b).value;
      assert EnabledSymbols(a + b) == Some(head + (x + y));
      AppendAssociative(head, x, y);
    }
  }

  /** The ticks subscription of one asset. */
  function TicksSubscribe(asset: Json): Emit
  {
    Emit("subscribe", JObj([("type", JStr("ticks")), ("asset", asset)]))
  }

  /** The candles subscription of one asset and period. */
  function CandlesSubscribe(asset: Json, period: int): Emit
  {
    Emit("subscribe", JObj([("type", JStr("candles")), ("asset", asset), ("period", JNum(period as real))]))
  }

  /** The candle subscriptions of one asset, period by period. */
  function PeriodSubscriptions(asset: Json, periods: seq<int>): (r: seq<Emit>)
    ensures |r| == |periods|
    ensures forall j :: 0 <= j < |periods| ==> r[j] == CandlesSubscribe(asset, periods[j])
  {
    if periods == [] then [] else [CandlesSubscribe(asset, periods[0])] + PeriodSubscriptions(asset, periods[1..])
  }

  /** The subscriptions handle_assets emits: per asset, ticks, then candles for each period. */
  function SubscriptionsFor(assets: seq<Json>): (r: seq<Emit>)
    ensures |r| == 4 * |assets|
  {
    if assets == [] then [] else AssetSubscriptions(assets[0]) + SubscriptionsFor(assets[1..])
  }

  /** The subscriptions of one asset: ticks, then candles for each period. */
  function AssetSubscriptions(asset: Json): (r: seq<Emit>)
    ensures |r| == 4
  {
    [TicksSubscribe(asset)] + PeriodSubscriptions(asset, CandlePeriods)
  }

  /** Emit 4i is the ticks subscription of asset i, and emits 4i+1 .. 4i+3 its 60, 180 and 300 s candles. */
  lemma {:induction false} SubscriptionsAt(assets: seq<Json>, i: nat)
    requires i < |assets|
    ensures SubscriptionsFor(assets)[4 * i] == TicksSubscribe(assets[i])
    ensures forall j :: 0 <= j < 3 ==> SubscriptionsFor(assets)[4 * i + 1 + j] == CandlesSubscribe(assets[i], CandlePeriods[j])
  {
    if i > 0 {
      SubscriptionsAt(assets[1..], i - 1);
    }
  }

  lemma SubscriptionsOne(asset: Json)
    ensures SubscriptionsFor([asset]) == AssetSubscriptions(asset)
  {
    assert [asset][1..] == [];
    assert AssetSubscriptions(asset) + [] == AssetSubscriptions(asset);
  }

  lemma {:induction false} SubscriptionsAppend(a: seq<Json>, b: seq<Json>)
    ensures SubscriptionsFor(a + b) == SubscriptionsFor(a) + SubscriptionsFor(b)
  {
    if a == [] {
      assert a + b == b;
    } else {
      assert (a + b)[0] == a[0] && (a + b)[1..] == a[1..] + b;
      SubscriptionsAppend(a[1..], b);
      AppendAssociative(AssetSubscriptions(a[0]), SubscriptionsFor(a[1..]), SubscriptionsFor(b));
    }
  }

  lemma SubscriptionsSnoc(assets: seq<Json>, i: nat)
    requires i < |assets|
    ensures SubscriptionsFor(assets[..i + 1]) == SubscriptionsFor(assets[..i]) + AssetSubscriptions(assets[i])
  {
    assert assets[..i + 1] == assets[..i] + [assets[i]];
    SubscriptionsAppend(assets[..i], [assets[i]]);
    SubscriptionsOne(assets[i]);
  }

  /** handle_assets' outcome: the enabled symbols, or None when iterating `data` or the comprehension raises. */
  function AssetsOutcome(data: Json): Option<seq<Json>>
  {
    match Elements(data)
    case None => None
    case Some(assets) => EnabledSymbols(assets)
  }

  // ---------------------------------------------------------------- handle_ticks, handle_candles

  /** `data[k]` for the tick fields and the asset's hash; None when handle_ticks raises. */
  function ParseTick(data: Json): (r: Option<(Key, Tick)>)
    ensures r.Some? <==> (Index(data, "asset").Some? && Index(data, "time").Some? && Index(data, "price").Some?
      && HashKey(Index(data, "asset").value).Some?)
    ensures r.Some? ==> r.value == (HashKey(Index(data, "asset").value).value,
      Tick(Index(data, "time").value, Index(data, "price").value))
  {
    var asset, time, price := Index(data, "asset"), Index(data, "time"), Index(data, "price");
    if asset.None? || time.None? || price.None? then None
    else
      match HashKey(asset.value)
      case None => None
      case Some(key) => Some((key, Tick(time.value, price.value)))
  }

  /** All eight fields are read with `data[k]`: a missing one, volume included, stores nothing. */
  function ParseCandle(data: Json): (r: Option<(Key, Key, Candle)>)
    ensures r.Some? <==>
      && Index(data, "asset").Some? && Index(data, "period").Some? && Index(data, "time").Some?
      && Index(data, "open").Some? && Index(data, "high").Some? && Index(data, "low").Some?
      && Index(data, "close").Some? && Index(data, "volume").Some?
      && HashKey(Index(data, "asset").value).Some? && HashKey(Index(data, "period").value).Some?
    ensures r.Some? ==> r.value == (HashKey(Index(data, "asset").value).value, HashKey(Index(data, "period").value).value,
      Candle(Index(data, "time").value, Index(data, "open").value, Index(data, "high").value,
             Index(data, "low").value, Index(data, "close").value, Index(data, "volume").value))
  {
    var asset, period := Index(data, "asset"), Index(data, "period");
    var time, open, high, low := Index(data, "time"), Index(data, "open"), Index(data, "high"), Index(data, "low");
    var close, volume := Index(data, "close"), Index(data, "volume");
    if asset.None? || period.None? || time.None? || open.None? || high.None? || low.None? || close.None? || volume.None? then None
    else
      match (HashKey(asset.value), HashKey(period.value))
      case (Some(a), Some(p)) => Some((a, p, Candle(time.value, open.value, high.value, low.value, close.value, volume.value)))
      case _ => None
  }

  /** `market_data[asset]["ticks"]`: a key never written reads as an empty list. */
  function TicksOf(ticks: map<Key, seq<Tick>>, asset: Key): seq<Tick>
  {
    if asset in ticks then ticks[asset] else []
  }

  /** `market_data[asset]["candles"][period]`, or an empty list. */
  function CandlesOf(candles: map<Key, map<Key, seq<Candle>>>, asset: Key, period: Key): seq<Candle>
  {
    if asset in candles && period in candles[asset] then candles[asset][period] else []
  }

  /** The candle store after one `candles` event. */
  function AddCandle(candles: map<Key, map<Key, seq<Candle>>>, data: Json): map<Key, map<Key, seq<Candle>>>
  {
    match ParseCandle(data)
    case None => candles
    case Some((asset, period, candle)) => Appended(candles, asset, period, candle)
  }

  /** `market_data[asset]["candles"][period].append(candle)`. */
  function Appended(candles: map<Key, map<Key, seq<Candle>>>, asset: Key, period: Key, candle: Candle): map<Key, map<Key, seq<Candle>>>
  {
    var byPeriod := if asset in candles then candles[asset] else map[];
    candles[asset := byPeriod[period := CandlesOf(candles, asset, period) + [candle]]]
  }

  lemma AppendedEffect(candles: map<Key, map<Key, seq<Candle>>>, asset: Key, period: Key, candle: Candle)
    ensures CandlesOf(Appended(candles, asset, period, candle), asset, period) == CandlesOf(candles, asset, period) + [candle]
    ensures forall a, p :: (a, p) != (asset, period) ==>
      CandlesOf(Appended(candles, asset, period, candle), a, p) == CandlesOf(candles, a, p)
  {
  }

  /**
   * A parsed candle is appended to exactly its (asset, period) buffer, with no bound on its
   * length; every other buffer is untouched; a candle that fails to parse stores nothing.
   */
  lemma AddCandleEffect(candles: map<Key, map<Key, seq<Candle>>>, data: Json)
    ensures ParseCandle(data).None? ==> AddCandle(candles, data) == candles
    ensures ParseCandle(data).Some? ==>
      var (asset, period, candle) := ParseCandle(data).value;
      && CandlesOf(AddCandle(candles, data), asset, period) == CandlesOf(candles, asset, period) + [candle]
      && forall a, p :: (a, p) != (asset, period) ==> CandlesOf(AddCandle(candles, data), a, p) == CandlesOf(candles, a, p)
  {
    match ParseCandle(data)
    case None =>
    case Some((asset, period, candle)) => AppendedEffect(candles, asset, period, candle);
  }

  // ---------------------------------------------------------------- tf_to_seconds

  predicate IsDigit(c: char)
  {
    '0' <= c <= '9'
  }

  /** The value of a string of decimal digits. */
  function DigitsValue(s: string): nat
    requires forall i :: 0 <= i < |s| ==> IsDigit(s[i])
  {
    if s == [] then 0
    else
      assert IsDigit(s[|s| - 1]);
      10 * DigitsValue(s[..|s| - 1]) + (s[|s| - 1] as int - '0' as int)
  }

  /** `int(s)` for an optional sign followed by decimal digits; None where int() raises. */
  function ParseInt(s: string): (r: Option<int>)
    ensures s == [] ==> r.None?
  {
    if s != [] && (s[0] == '-' || s[0] == '+') then
      var digits := s[1..];
      if digits != [] && forall i :: 0 <= i < |digits| ==> IsDigit(digits[i]) then
        var value: int := if s[0] == '-' then 0 - DigitsValue(digits) as int else DigitsValue(digits);
        Some(value)
      else None
    else if s != [] && forall i :: 0 <= i < |s| ==> IsDigit(s[i]) then Some(DigitsValue(s))
    else None
  }

  /** `tf_to_seconds(tf)`: `int(tf[:-1]) * 60`; None where int() raises. */
  function TfToSeconds(tf: string): (r: Option<int>)
    ensures |tf| <= 1 ==> r.None?
  {
    if tf == [] then None
    else
      match ParseInt(tf[..|tf| - 1])
      case None => None
      case Some(n) => Some(n * 60)
  }

  /** The decimal text of a number. */
  function DecimalText(n: nat): (s: string)
    ensures s != [] && IsDigit(s[0])
    ensures forall i :: 0 <= i < |s| ==> IsDigit(s[i])
  {
    if n < 10 then [('0' as int + n) as char] else DecimalText(n / 10) + [('0' as int + n % 10) as char]
  }

  lemma {:induction false} DecimalTextValue(n: nat)
    ensures DigitsValue(DecimalText(n)) == n
  {
    if n >= 10 {
      var s := DecimalText(n);
      assert s[..|s| - 1] == DecimalText(n / 10);
      DecimalTextValue(n / 10);
    }
  }

  /** A timeframe written as a count followed by one unit letter lasts that many minutes. */
  lemma TfToSecondsOfMinutes(n: nat, unit: char)
    ensures TfToSeconds(DecimalText(n) + [unit]) == Some(n * 60)
  {
    var tf := DecimalText(n) + [unit];
    assert tf[..|tf| - 1] == DecimalText(n);
    DecimalTextValue(n);
  }

  /** The timeframes the application uses. */
  lemma ConfiguredTimeframes()
    ensures TfToSeconds("1m") == Some(60) && TfToSeconds("3m") == Some(180) && TfToSeconds("5m") == Some(300)
    ensures TfToSeconds("m").None? && TfToSeconds("xm").None?
  {
    TfToSecondsOfMinutes(1, 'm');
    TfToSecondsOfMinutes(3, 'm');
    TfToSecondsOfMinutes(5, 'm');
    assert DecimalText(1) == "1" && DecimalText(3) == "3" && DecimalText(5) == "5";
    assert "xm"[..1] == "x";
  }

  // ---------------------------------------------------------------- one pass of start_fetching

  /**
   * Python's `a == b` on two symbols: hashable values compare as dictionary keys do, so `True`
   * equals 1 and 1 equals 1.0, while "1" differs from 1; lists and dicts compare structurally.
   */
  predicate SameSymbol(a: Json, b: Json)
  {
    if HashKey(a).Some? && HashKey(b).Some? then HashKey(a) == HashKey(b) else a == b
  }

  /** Python's `==` on symbols is an equivalence. */
  lemma SameSymbolSymmetric(a: Json, b: Json)
    requires SameSymbol(a, b)
    ensures SameSymbol(b, a)
  {
  }

  lemma SameSymbolTransitive(a: Json, b: Json, c: Json)
    requires SameSymbol(a, b) && SameSymbol(b, c)
    ensures SameSymbol(a, c)
  {
  }

  /** Booleans equal the numbers 1 and 0; text never equals a number. */
  lemma SameSymbolExamples()
    ensures SameSymbol(JBool(true), JNum(1.0)) && SameSymbol(JBool(false), JNum(0.0))
    ensures !SameSymbol(JStr("1"), JNum(1.0)) && !SameSymbol(JBool(true), JNum(2.0))
    ensures SameSymbol(JStr("EURUSD"), JStr("EURUSD")) && !SameSymbol(JArr([JNum(1.0)]), JNum(1.0))
  {
  }

  /** Whether a record belongs to (symbol, timeframe): `s["symbol"] == symbol and s["timeframe"] == tf`. */
  predicate HasKey(r: SignalRecord, symbol: Json, tf: string)
  {
    SameSymbol(r.symbol, symbol) && r.timeframe == tf
  }

  /** `[s for s in records if not (s["symbol"] == symbol and s["timeframe"] == tf)]`. */
  function Without(records: seq<SignalRecord>, symbol: Json, tf: string): seq<SignalRecord>
  {
    if records == [] then []
    else (if HasKey(records[0], symbol, tf) then [] else [records[0]]) + Without(records[1..], symbol, tf)
  }

  /** The number of records for (symbol, timeframe). */
  function KeyCount(records: seq<SignalRecord>, symbol: Json, tf: string): nat
  {
    if records == [] then 0
    else (if HasKey(records[0], symbol, tf) then 1 else 0) + KeyCount(records[1..], symbol, tf)
  }

  /** Drop the key's records, then append the new one. */
  function Upsert(records: seq<SignalRecord>, record: SignalRecord): seq<SignalRecord>
  {
    Without(records, record.symbol, record.timeframe) + [record]
  }

  lemma {:induction false} KeyCountAppend(a: seq<SignalRecord>, b: seq<SignalRecord>, symbol: Json, tf: string)
    ensures KeyCount(a + b, symbol, tf) == KeyCount(a, symbol, tf) + KeyCount(b, symbol, tf)
  {
    if a == [] {
      assert a + b == b;
    } else {
      assert (a + b)[1..] == a[1..] + b;
      KeyCountAppend(a[1..], b, symbol, tf);
    }
  }

  /** Removing a key leaves no record of it and every other key's count as it was. */
  lemma {:induction false} WithoutCounts(records: seq<SignalRecord>, symbol: Json, tf: string)
    ensures KeyCount(Without(records, symbol, tf), symbol, tf) == 0
    ensures forall s, t :: SameSymbol(s, symbol) && t == tf ==> KeyCount(Without(records, symbol, tf), s, t) == 0
    ensures forall s, t :: !(SameSymbol(s, symbol) && t == tf) ==> KeyCount(Without(records, symbol, tf), s, t) == KeyCount(records, s, t)
  {
    if records != [] {
      WithoutCounts(records[1..], symbol, tf);
      var r := records[0];
      var head := if HasKey(r, symbol, tf) then [] else [r];
      var rest := Without(records[1..], symbol, tf);
      forall s, t
        ensures KeyCount(Without(records, symbol, tf), s, t) == KeyCount(head, s, t) + KeyCount(rest, s, t)
        ensures KeyCount(head, s, t) == if HasKey(r, symbol, tf) then 0 else (if HasKey(r, s, t) then 1 else 0)
      {
        KeyCountAppend(head, rest, s, t);
        assert [r][1..] == [];
      }
      forall s, t | SameSymbol(s, symbol) && t == tf && HasKey(r, s, t)
        ensures HasKey(r, symbol, tf)
      {
        SameSymbolTransitive(r.symbol, s, symbol);
      }
      forall s, t | !(SameSymbol(s, symbol) && t == tf) && HasKey(r, symbol, tf)
        ensures !HasKey(r, s, t)
      {
        if HasKey(r, s, t) {
          SameSymbolSymmetric(r.symbol, s);
          SameSymbolTransitive(s, r.symbol, symbol);
        }
      }
      SameSymbolReflexive(symbol);
    }
  }

  lemma SameSymbolReflexive(a: Json)
    ensures SameSymbol(a, a)
  {
  }

  /** Removing a key keeps every record of another key, as often as it occurred, and no record of its own. */
  lemma {:induction false} WithoutKeeps(records: seq<SignalRecord>, symbol: Json, tf: string)
    ensures forall x :: !HasKey(x, symbol, tf) ==> multiset(Without(records, symbol, tf))[x] == multiset(records)[x]
    ensures forall x :: HasKey(x, symbol, tf) ==> x !in Without(records, symbol, tf)
  {
    if records != [] {
      WithoutKeeps(records[1..], symbol, tf);
      assert records == [records[0]] + records[1..];
    }
  }

  /** The filter keeps the other records in their order: it distributes over concatenation. */
  lemma {:induction false} WithoutAppend(a: seq<SignalRecord>, b: seq<SignalRecord>, symbol: Json, tf: string)
    ensures Without(a + b, symbol, tf) == Without(a, symbol, tf) + Without(b, symbol, tf)
  {
    if a == [] {
      assert a + b == b;
    } else {
      assert (a + b)[0] == a[0] && (a + b)[1..] == a[1..] + b;
      WithoutAppend(a[1..], b, symbol, tf);
      var head := if HasKey(a[0], symbol, tf) then [] else [a[0]];
      AppendAssociative(head, Without(a[1..], symbol, tf), Without(b, symbol, tf));
    }
  }

  /**
   * After the upsert the key has exactly one record, the new one, in last position; every other
   * key keeps its count and every other record its multiplicity.
   */
  lemma UpsertEffect(records: seq<SignalRecord>, record: SignalRecord)
    ensures var u := Upsert(records, record);
      && u[|u| - 1] == record
      && KeyCount(u, record.symbol, record.timeframe) == 1
      && (forall s, t :: SameSymbol(s, record.symbol) && t == record.timeframe ==> KeyCount(u, s, t) == 1)
      && (forall s, t :: !(SameSymbol(s, record.symbol) && t == record.timeframe) ==> KeyCount(u, s, t) == KeyCount(records, s, t))
      && (forall x :: !HasKey(x, record.symbol, record.timeframe) ==> multiset(u)[x] == multiset(records)[x])
  {
    var w := Without(records, record.symbol, record.timeframe);
    WithoutCounts(records, record.symbol, record.timeframe);
    WithoutKeeps(records, record.symbol, record.timeframe);
    assert [record][1..] == [];
    forall s, t
      ensures KeyCount(w + [record], s, t) == KeyCount(w, s, t) + (if HasKey(record, s, t) then 1 else 0)
    {
      KeyCountAppend(w, [record], s, t);
      assert KeyCount([record], s, t) == (if HasKey(record, s, t) then 1 else 0) + KeyCount([], s, t);
    }
  }

  /** A record for `True` replaces the record for 1 on the same timeframe, as the list comprehension does. */
  lemma TrueReplacesOne(old1: SignalRecord, record: SignalRecord)
    requires old1.symbol == JNum(1.0) && record.symbol == JBool(true) && old1.timeframe == record.timeframe
    ensures Upsert([old1], record) == [record]
  {
    assert HasKey(old1, record.symbol, record.timeframe);
    assert [old1][1..] == [];
    assert Without([old1], record.symbol, record.timeframe) == [] + Without([], record.symbol, record.timeframe);
  }

  /** The record for one key; None when the strategy raises. */
  function SignalFor(candles: seq<Candle>, analyze: seq<Candle> -> Option<StrategyResult>, symbol: Json, tf: string, now: string): Option<SignalRecord>
  {
    if candles == [] then Some(SignalRecord(symbol, JStr("HOLD"), JNum(0.0), now, tf))
    else
      match analyze(candles)
      case None => None
      case Some(Plain(value)) => Some(SignalRecord(symbol, if Truthy(value) then value else JStr("HOLD"), JNum(100.0), now, tf))
      case Some(Pair(value, confidence)) => Some(SignalRecord(symbol, if Truthy(value) then value else JStr("HOLD"), confidence, now, tf))
  }

  /**
   * The defaults of the record: no candles gives HOLD with confidence 0; a bare result has
   * confidence 100; a falsy value becomes HOLD, so a record's signal is never falsy; the record
   * carries its key.
   */
  lemma SignalDefaults(candles: seq<Candle>, analyze: seq<Candle> -> Option<StrategyResult>, symbol: Json, tf: string, now: string)
    ensures candles == [] ==> SignalFor(candles, analyze, symbol, tf, now) == Some(SignalRecord(symbol, JStr("HOLD"), JNum(0.0), now, tf))
    ensures candles != [] ==> (SignalFor(candles, analyze, symbol, tf, now).None? <==> analyze(candles).None?)
    ensures candles != [] && analyze(candles).Some? && analyze(candles).value.Plain? ==>
      SignalFor(candles, analyze, symbol, tf, now).value.confidence == JNum(100.0)
    ensures candles != [] && analyze(candles).Some? && analyze(candles).value.Pair? ==>
      SignalFor(candles, analyze, symbol, tf, now).value.confidence == analyze(candles).value.confidence
    ensures candles != [] && analyze(candles).Some? && !Truthy(analyze(candles).value.value) ==>
      SignalFor(candles, analyze, symbol, tf, now).value.signal == JStr("HOLD")
    ensures SignalFor(candles, analyze, symbol, tf, now).Some? ==>
      var r := SignalFor(candles, analyze, symbol, tf, now).value;
      Truthy(r.signal) && r.symbol == symbol && r.timeframe == tf
  {
  }

  /** A Telegram send is attempted only for exactly BUY or SELL, and only for a non-empty chat id. */
  predicate Notifiable(a: Alert)
  {
    (a.signal == JStr("BUY") || a.signal == JStr("SELL")) && a.chatId != ""
  }

  /** The send attempts for a record from the analysed branch: one per truthy chat id when the value is BUY or SELL. */
  function AlertsFor(record: SignalRecord, chatIds: seq<string>): (r: seq<Alert>)
    ensures forall i :: 0 <= i < |r| ==> Notifiable(r[i]) && r[i].symbol == record.symbol && r[i].timeframe == record.timeframe
    ensures (record.signal == JStr("BUY") || record.signal == JStr("SELL")) ==> |r| == |NonEmpty(chatIds)|
    ensures !(record.signal == JStr("BUY") || record.signal == JStr("SELL")) ==> r == []
  {
    if record.signal == JStr("BUY") || record.signal == JStr("SELL") then
      seq(|NonEmpty(chatIds)|, i requires 0 <= i < |NonEmpty(chatIds)| =>
        Alert(NonEmpty(chatIds)[i], record.symbol, record.timeframe, record.signal, record.confidence))
    else []
  }

  /** The truthy chat ids, in order. */
  function NonEmpty(chatIds: seq<string>): (r: seq<string>)
    ensures forall i :: 0 <= i < |r| ==> r[i] != "" && r[i] in chatIds
    ensures forall c :: c in chatIds && c != "" ==> c in r
  {
    if chatIds == [] then [] else (if chatIds[0] != "" then [chatIds[0]] else []) + NonEmpty(chatIds[1..])
  }

  /** The outputs one pass writes to. */
  datatype Outputs = Outputs(latest: seq<SignalRecord>, dashboard: seq<DashboardEvent>, alerts: seq<Alert>)

  /**
   * One (symbol, timeframe) of the pass: None when it raises (an unhashable symbol, a
   * timeframe int() rejects, or a strategy that raises), which ends start_fetching.
   */
  function ProcessKey(out: Outputs, store: map<Key, map<Key, seq<Candle>>>, symbol: Json, tf: string,
                      analyze: seq<Candle> -> Option<StrategyResult>, now: string, chatIds: seq<string>): Option<Outputs>
  {
    match (HashKey(symbol), TfToSeconds(tf))
    case (Some(key), Some(seconds)) =>
      var candles := CandlesOf(store, key, KNum(seconds as real));
      (match SignalFor(candles, analyze, symbol, tf, now)
       case None => None
       case Some(record) =>
         Some(Outputs(Upsert(out.latest, record), out.dashboard + [NewSignal(record)],
                      out.alerts + (if candles == [] then [] else AlertsFor(record, chatIds)))))
    case _ => None
  }

  /** The (symbol, timeframe) pairs of the nested loops, in loop order. */
  function Pairs(symbols: seq<Json>, timeframes: seq<string>): (r: seq<(Json, string)>)
    ensures |r| == |symbols| * |timeframes|
  {
    if symbols == [] then [] else SymbolPairs(symbols[0], timeframes) + Pairs(symbols[1..], timeframes)
  }

  /** The pairs of the inner loop for one symbol. */
  function SymbolPairs(symbol: Json, timeframes: seq<string>): (r: seq<(Json, string)>)
    ensures |r| == |timeframes|
    ensures forall j :: 0 <= j < |timeframes| ==> r[j] == (symbol, timeframes[j])
  {
    seq(|timeframes|, j requires 0 <= j < |timeframes| => (symbol, timeframes[j]))
  }

  /** The pairs processed in order, stopping at the first that raises (false). */
  function RunPairs(out: Outputs, store: map<Key, map<Key, seq<Candle>>>, pairs: seq<(Json, string)>,
                    analyze: seq<Candle> -> Option<StrategyResult>, now: string, chatIds: seq<string>): (Outputs, bool)
    decreases |pairs|
  {
    if pairs == [] then (out, true)
    else
      match ProcessKey(out, store, pairs[0].0, pairs[0].1, analyze, now, chatIds)
      case None => (out, false)
      case Some(next) => RunPairs(next, store, pairs[1..], analyze, now, chatIds)
  }

  /** Running two runs of pairs back to back: the second starts where the first stopped, unless it raised. */
  lemma {:induction false} RunPairsAppend(out: Outputs, store: map<Key, map<Key, seq<Candle>>>, a: seq<(Json, string)>, b: seq<(Json, string)>,
                                          analyze: seq<Candle> -> Option<StrategyResult>, now: string, chatIds: seq<string>)
    ensures var first := RunPairs(out, store, a, analyze, now, chatIds);
      RunPairs(out, store, a + b, analyze, now, chatIds) == if first.1 then RunPairs(first.0, store, b, analyze, now, chatIds) else first
    decreases |a|
  {
    if a == [] {
      assert a + b == b;
    } else {
      assert (a + b)[0] == a[0] && (a + b)[1..] == a[1..] + b;
      match ProcessKey(out, store, a[0].0, a[0].1, analyze, now, chatIds)
      case None =>
      case Some(next) => RunPairsAppend(next, store, a[1..], b, analyze, now, chatIds);
    }
  }

  /** What one processed key does to `latest_signals`: its key has one record, every other key keeps its count. */
  lemma ProcessKeyRecords(out: Outputs, store: map<Key, map<Key, seq<Candle>>>, symbol: Json, tf: string,
                          analyze: seq<Candle> -> Option<StrategyResult>, now: string, chatIds: seq<string>)
    requires ProcessKey(out, store, symbol, tf, analyze, now, chatIds).Some?
    ensures var next := ProcessKey(out, store, symbol, tf, analyze, now, chatIds).value;
      && KeyCount(next.latest, symbol, tf) == 1
      && (forall s, t :: SameSymbol(s, symbol) && t == tf ==> KeyCount(next.latest, s, t) == 1)
      && (forall s, t :: !(SameSymbol(s, symbol) && t == tf) ==> KeyCount(next.latest, s, t) == KeyCount(out.latest, s, t))
  {
    var key, seconds := HashKey(symbol).value, TfToSeconds(tf).value;
    var candles := CandlesOf(store, key, KNum(seconds as real));
    var record := SignalFor(candles, analyze, symbol, tf, now).value;
    SignalDefaults(candles, analyze, symbol, tf, now);
    UpsertEffect(out.latest, record);
  }

  /**
   * What one processed key sends: the new record to the dashboard, and only notifiable
   * alerts, appended after the earlier ones.
   */
  lemma ProcessKeySends(out: Outputs, store: map<Key, map<Key, seq<Candle>>>, symbol: Json, tf: string,
                        analyze: seq<Candle> -> Option<StrategyResult>, now: string, chatIds: seq<string>)
    requires ProcessKey(out, store, symbol, tf, analyze, now, chatIds).Some?
    ensures var next := ProcessKey(out, store, symbol, tf, analyze, now, chatIds).value;
      && next.dashboard == out.dashboard + [NewSignal(next.latest[|next.latest| - 1])]
      && |out.alerts| <= |next.alerts| && next.alerts[..|out.alerts|] == out.alerts
      && (forall i :: |out.alerts| <= i < |next.alerts| ==> Notifiable(next.alerts[i]))
  {
    var key, seconds := HashKey(symbol).value, TfToSeconds(tf).value;
    var candles := CandlesOf(store, key, KNum(seconds as real));
    var record := SignalFor(candles, analyze, symbol, tf, now).value;
    var extra := if candles == [] then [] else AlertsFor(record, chatIds);
    assert (out.alerts + extra)[..|out.alerts|] == out.alerts;
    assert forall i :: |out.alerts| <= i < |out.alerts + extra| ==> (out.alerts + extra)[i] == extra[i - |out.alerts|];
  }

  lemma AlertsExtend(a: seq<Alert>, b: seq<Alert>, c: seq<Alert>)
    requires |a| <= |b| && b[..|a|] == a && forall i :: |a| <= i < |b| ==> Notifiable(b[i])
    requires |b| <= |c| && c[..|b|] == b && forall i :: |b| <= i < |c| ==> Notifiable(c[i])
    ensures |a| <= |c| && c[..|a|] == a && forall i :: |a| <= i < |c| ==> Notifiable(c[i])
  {
    assert c[..|b|][..|a|] == c[..|a|];
    forall i | |a| <= i < |c| ensures Notifiable(c[i]) {
      if i < |b| {
        assert c[i] == c[..|b|][i];
      }
    }
  }

  /** A pass only appends alerts, and every alert it appends is notifiable. */
  lemma {:induction false} RunPairsAlerts(out: Outputs, store: map<Key, map<Key, seq<Candle>>>, pairs: seq<(Json, string)>,
                                          analyze: seq<Candle> -> Option<StrategyResult>, now: string, chatIds: seq<string>)
    ensures var result := RunPairs(out, store, pairs, analyze, now, chatIds).0;
      && |out.alerts| <= |result.alerts| && result.alerts[..|out.alerts|] == out.alerts
      && (forall i :: |out.alerts| <= i < |result.alerts| ==> Notifiable(result.alerts[i]))
    decreases |pairs|
  {
    if pairs != [] {
      match ProcessKey(out, store, pairs[0].0, pairs[0].1, analyze, now, chatIds)
      case None =>
      case Some(next) =>
        ProcessKeySends(out, store, pairs[0].0, pairs[0].1, analyze, now, chatIds);
        RunPairsAlerts(next, store, pairs[1..], analyze, now, chatIds);
        var result := RunPairs(next, store, pairs[1..], analyze, now, chatIds).0;
        assert result == RunPairs(out, store, pairs, analyze, now, chatIds).0;
        AlertsExtend(out.alerts, next.alerts, result.alerts);
    }
  }

  /** Whether the pass visits a key Python treats as equal to (s, t). */
  predicate Visits(pairs: seq<(Json, string)>, s: Json, t: string)
  {
    exists p :: p in pairs && SameSymbol(s, p.0) && p.1 == t
  }

  /** Keys the pass never visits, under Python's equality, keep their count of records. */
  lemma {:induction false} RunPairsOtherKeys(out: Outputs, store: map<Key, map<Key, seq<Candle>>>, pairs: seq<(Json, string)>,
                                             analyze: seq<Candle> -> Option<StrategyResult>, now: string, chatIds: seq<string>,
                                             s: Json, t: string)
    requires !Visits(pairs, s, t)
    ensures KeyCount(RunPairs(out, store, pairs, analyze, now, chatIds).0.latest, s, t) == KeyCount(out.latest, s, t)
    decreases |pairs|
  {
    if pairs != [] {
      match ProcessKey(out, store, pairs[0].0, pairs[0].1, analyze, now, chatIds)
      case None =>
      case Some(next) =>
        ProcessKeyRecords(out, store, pairs[0].0, pairs[0].1, analyze, now, chatIds);
        assert pairs[0] in pairs;
        assert !Visits(pairs[1..], s, t) by {
          forall p | p in pairs[1..] ensures p in pairs { }
        }
        RunPairsOtherKeys(next, store, pairs[1..], analyze, now, chatIds, s, t);
    }
  }

  /**
   * After a pass that did not raise, every (symbol, timeframe) of the loops, and every key Python
   * treats as equal to one (`True` for 1), has exactly one record in `latest_signals`.
   */
  lemma {:induction false} RunPairsOneRecordEach(out: Outputs, store: map<Key, map<Key, seq<Candle>>>, pairs: seq<(Json, string)>,
                                                 analyze: seq<Candle> -> Option<StrategyResult>, now: string, chatIds: seq<string>,
                                                 s: Json, t: string)
    requires RunPairs(out, store, pairs, analyze, now, chatIds).1
    requires Visits(pairs, s, t)
    ensures KeyCount(RunPairs(out, store, pairs, analyze, now, chatIds).0.latest, s, t) == 1
    decreases |pairs|
  {
    var next := ProcessKey(out, store, pairs[0].0, pairs[0].1, analyze, now, chatIds).value;
    ProcessKeyRecords(out, store, pairs[0].0, pairs[0].1, analyze, now, chatIds);
    assert pairs == [pairs[0]] + pairs[1..];
    if Visits(pairs[1..], s, t) {
      RunPairsOneRecordEach(next, store, pairs[1..], analyze, now, chatIds, s, t);
    } else {
      var p :| p in pairs && SameSymbol(s, p.0) && p.1 == t;
      assert p !in pairs[1..];
      RunPairsOtherKeys(next, store, pairs[1..], analyze, now, chatIds, s, t);
    }
  }

  /** The pairs of the loops are exactly all combinations of a symbol and a timeframe. */
  lemma {:induction false} PairsMembers(symbols: seq<Json>, timeframes: seq<string>, s: Json, t: string)
    ensures (s, t) in Pairs(symbols, timeframes) <==> s in symbols && t in timeframes
  {
    if symbols != [] {
      PairsMembers(symbols[1..], timeframes, s, t);
      var head := SymbolPairs(symbols[0], timeframes);
      if s == symbols[0] && t in timeframes {
        var j :| 0 <= j < |timeframes| && timeframes[j] == t;
        assert head[j] == (s, t);
      }
      assert symbols == [symbols[0]] + symbols[1..];
    }
  }

  // ---------------------------------------------------------------- the strategy the repository plugs in

  /** The OHLC columns pandas reads; None when a value is not a number. */
  function ToBars(candles: seq<Candle>): (r: Option<seq<Strategy.Bar>>)
    ensures r.Some? ==> |r.value| == |candles|
  {
    if candles == [] then Some([])
    else
      var c := candles[0];
      match (ToBars(candles[1..]), c.open, c.high, c.low, c.close)
      case (Some(rest), JNum(o), JNum(h), JNum(l), JNum(cl)) => Some([Strategy.Bar(o, h, l, cl)] + rest)
      case _ => None
  }

  /**
   * `analyze_candles(pd.DataFrame(candles))`, with no higher-timeframe frames: fewer than 50
   * candles give None before any column is read; otherwise a non-numeric column raises.
   */
  function RepositoryStrategy(candles: seq<Candle>): Option<StrategyResult>
  {
    if |candles| < Strategy.MinBars then Some(Plain(JNull))
    else
    match ToBars(candles)
    case None => None
    case Some(bars) =>
      Some(Plain(match Strategy.AnalyzeCandles(bars, None, None) case None => JNull case Some(s) => JStr(s)))
  }

  /**
   * With the strategy as the repository calls it, start_fetching never alerts: without a
   * mid-timeframe frame the confirmation always fails, so every analysed key is HOLD.
   */
  lemma {:induction false} RepositorySweepNeverAlerts(out: Outputs, store: map<Key, map<Key, seq<Candle>>>, pairs: seq<(Json, string)>,
                                                      now: string, chatIds: seq<string>)
    ensures RunPairs(out, store, pairs, RepositoryStrategy, now, chatIds).0.alerts == out.alerts
    decreases |pairs|
  {
    if pairs != [] {
      var (symbol, tf) := pairs[0];
      match ProcessKey(out, store, symbol, tf, RepositoryStrategy, now, chatIds)
      case None =>
      case Some(next) =>
        var key, seconds := HashKey(symbol).value, TfToSeconds(tf).value;
        var candles := CandlesOf(store, key, KNum(seconds as real));
        if |candles| >= Strategy.MinBars {
          Strategy.AnalyzeWithoutMidNeverSignals(ToBars(candles).value, None);
        }
        RepositorySweepNeverAlerts(next, store, pairs[1..], now, chatIds);
    }
  }

  // ---------------------------------------------------------------- the module state

  datatype FetcherState = FetcherState(
    symbols: seq<Json>, ticks: map<Key, seq<Tick>>, candles: map<Key, map<Key, seq<Candle>>>,
    emitted: seq<Emit>, dashboardAttached: bool, dashboard: seq<DashboardEvent>,
    latestSignals: seq<SignalRecord>, alerts: seq<Alert>)

  /**
   * The module globals `symbols`, `market_data` and `socketio_instance`, the `latest_signals`
   * list start_fetching is given, and what goes out to the server and the dashboard, and the
   * Telegram sends attempted.
   */
  class Fetcher {
    var symbols: seq<Json>
    var ticks: map<Key, seq<Tick>>
    var candles: map<Key, map<Key, seq<Candle>>>
    var emitted: seq<Emit>
    var dashboardAttached: bool
    var dashboard: seq<DashboardEvent>
    var latestSignals: seq<SignalRecord>
    var alerts: seq<Alert>
    /** TELEGRAM_CHAT_IDS. */
    const chatIds: seq<string>

    function State(): FetcherState
      reads this
    {
      FetcherState(symbols, ticks, candles, emitted, dashboardAttached, dashboard, latestSignals, alerts)
    }

    constructor (chatIds: seq<string>, latestSignals: seq<SignalRecord>)
      ensures State() == FetcherState([], map[], map[], [], false, [], latestSignals, [])
      ensures this.chatIds == chatIds
    {
      this.chatIds := chatIds;
      symbols, ticks, candles, emitted := [], map[], map[], [];
      dashboardAttached, dashboard, this.latestSignals, alerts := false, [], latestSignals, [];
    }

    /** `update_symbols(new_symbols)`: replace the list and tell the dashboard when one is attached. */
    method UpdateSymbols(newSymbols: seq<Json>)
      modifies this
      ensures State() == old(State()).(symbols := newSymbols,
        dashboard := old(dashboard) + if old(dashboardAttached) then [SymbolsUpdate(newSymbols)] else [])
    {
      symbols := newSymbols;
      if dashboardAttached {
        dashboard := dashboard + [SymbolsUpdate(newSymbols)];
      }
    }

    /** `get_dynamic_symbols()`: a copy of the list (the wait for a first list is not modelled). */
    method GetDynamicSymbols() returns (r: seq<Json>)
      ensures r == symbols
    {
      r := symbols;
    }

    /** `handle_assets(data)`: nothing changes when the comprehension raises. */
    method HandleAssets(data: Json)
      modifies this
      ensures AssetsOutcome(data).None? ==> State() == old(State())
      ensures AssetsOutcome(data).Some? ==>
        var enabled := AssetsOutcome(data).value;
        State() == old(State()).(symbols := enabled,
          dashboard := old(dashboard) + (if old(dashboardAttached) then [SymbolsUpdate(enabled)] else []),
          emitted := old(emitted) + SubscriptionsFor(enabled))
    {
      var enabled := AssetsOutcome(data);
      if enabled.None? {
        return;
      }
      var assets := enabled.value;
      UpdateSymbols(assets);
      SubscribeAll(assets);
    }

    /** The subscription loop of handle_assets. */
    method SubscribeAll(assets: seq<Json>)
      modifies this
      ensures State() == old(State()).(emitted := old(emitted) + SubscriptionsFor(assets))
    {
      var i := 0;
      while i < |assets|
        invariant 0 <= i <= |assets|
        invariant State() == old(State()).(emitted := emitted)
        invariant emitted == old(emitted) + SubscriptionsFor(assets[..i])
      {
        SubscriptionsSnoc(assets, i);
        AppendAssociative(old(emitted), SubscriptionsFor(assets[..i]), AssetSubscriptions(assets[i]));
        Subscribe(assets[i]);
        i := i + 1;
      }
      assert assets[..i] == assets;
    }

    /** The emits for one asset: its ticks, then its candles for each period. */
    method Subscribe(asset: Json)
      modifies this
      ensures State() == old(State()).(emitted := old(emitted) + AssetSubscriptions(asset))
    {
      emitted := emitted + [TicksSubscribe(asset)];
      ghost var start := emitted;
      var j := 0;
      while j < |CandlePeriods|
        invariant 0 <= j <= |CandlePeriods|
        invariant State() == old(State()).(emitted := emitted)
        invariant emitted == start + PeriodSubscriptions(asset, CandlePeriods[..j])
      {
        assert CandlePeriods[..j + 1] == CandlePeriods[..j] + [CandlePeriods[j]];
        PeriodSubscriptionsSnoc(asset, CandlePeriods[..j], CandlePeriods[j]);
        AppendAssociative(start, PeriodSubscriptions(asset, CandlePeriods[..j]), [CandlesSubscribe(asset, CandlePeriods[j])]);
        emitted := emitted + [CandlesSubscribe(asset, CandlePeriods[j])];
        j := j + 1;
      }
      assert CandlePeriods[..j] == CandlePeriods;
      AppendAssociative(old(emitted), [TicksSubscribe(asset)], PeriodSubscriptions(asset, CandlePeriods));
    }

    /** `handle_ticks(data)`: one tick appended to its asset's list, or nothing when parsing raises. */
    method HandleTicks(data: Json)
      modifies this
      ensures ParseTick(data).None? ==> State() == old(State())
      ensures ParseTick(data).Some? ==>
        var (asset, tick) := ParseTick(data).value;
        State() == old(State()).(ticks := old(ticks)[asset := TicksOf(old(ticks), asset) + [tick]])
    {
      var parsed := ParseTick(data);
      if parsed.Some? {
        var (asset, tick) := parsed.value;
        ticks := ticks[asset := TicksOf(ticks, asset) + [tick]];
      }
    }

    /** `handle_candles(data)`. */
    method HandleCandles(data: Json)
      modifies this
      ensures State() == old(State()).(candles := AddCandle(old(candles), data))
    {
      var parsed := ParseCandle(data);
      if parsed.Some? {
        var (asset, period, candle) := parsed.value;
        var byPeriod := if asset in candles then candles[asset] else map[];
        candles := candles[asset := byPeriod[period := CandlesOf(candles, asset, period) + [candle]]];
      }
    }

    /** `socketio_instance = socketio_from_app` at the start of start_fetching. */
    method Attach()
      modifies this
      ensures State() == old(State()).(dashboardAttached := true)
    {
      dashboardAttached := true;
    }

    /**
     * One pass of the while loop of start_fetching over `timeframes` (the sleep and the clock
     * are left out: every record of the pass is stamped `now`). `ok` is false when the pass
     * raised, which ends start_fetching with the effects of the keys before it kept.
     */
    method Sweep(timeframes: seq<string>, analyze: seq<Candle> -> Option<StrategyResult>, now: string) returns (ok: bool)
      modifies this
      ensures var (result, done) := RunPairs(Outputs(old(latestSignals), old(dashboard), old(alerts)), old(candles),
                                             Pairs(old(symbols), timeframes), analyze, now, chatIds);
        && ok == done
        && State() == old(State()).(latestSignals := result.latest, dashboard := result.dashboard, alerts := result.alerts)
    {
      var current := GetDynamicSymbols();
      ghost var goal := RunPairs(Outputs(latestSignals, dashboard, alerts), candles, Pairs(current, timeframes), analyze, now, chatIds);
      var i := 0;
      while i < |current|
        invariant 0 <= i <= |current|
        invariant State() == old(State()).(latestSignals := latestSignals, dashboard := dashboard, alerts := alerts)
        invariant RunPairs(Outputs(latestSignals, dashboard, alerts), candles, Pairs(current[i..], timeframes), analyze, now, chatIds) == goal
      {
        ghost var start := Outputs(latestSignals, dashboard, alerts);
        assert current[i..][0] == current[i] && current[i..][1..] == current[i + 1..];
        RunPairsAppend(start, candles, SymbolPairs(current[i], timeframes), Pairs(current[i + 1..], timeframes), analyze, now, chatIds);
        var done := SweepSymbol(current[i], timeframes, analyze, now);
        if !done {
          return false;
        }
        i := i + 1;
      }
      return true;
    }

    /** The inner loop of the pass, over the timeframes of one symbol. */
    method SweepSymbol(symbol: Json, timeframes: seq<string>, analyze: seq<Candle> -> Option<StrategyResult>, now: string) returns (done: bool)
      modifies this
      ensures var (result, finished) := RunPairs(Outputs(old(latestSignals), old(dashboard), old(alerts)), old(candles),
                                                 SymbolPairs(symbol, timeframes), analyze, now, chatIds);
        && done == finished
        && State() == old(State()).(latestSignals := result.latest, dashboard := result.dashboard, alerts := result.alerts)
    {
      var pairs := SymbolPairs(symbol, timeframes);
      ghost var goal := RunPairs(Outputs(latestSignals, dashboard, alerts), candles, pairs, analyze, now, chatIds);
      var j := 0;
      while j < |timeframes|
        invariant 0 <= j <= |timeframes|
        invariant State() == old(State()).(latestSignals := latestSignals, dashboard := dashboard, alerts := alerts)
        invariant RunPairs(Outputs(latestSignals, dashboard, alerts), candles, pairs[j..], analyze, now, chatIds) == goal
      {
        assert pairs[j..][0] == (symbol, timeframes[j]) && pairs[j..][1..] == pairs[j + 1..];
        var next := ProcessKey(Outputs(latestSignals, dashboard, alerts), candles, symbol, timeframes[j], analyze, now, chatIds);
        if next.None? {
          return false;
        }
        latestSignals, dashboard, alerts := next.value.latest, next.value.dashboard, next.value.alerts;
        j := j + 1;
      }
      return true;
    }
  }

  lemma {:induction false} PeriodSubscriptionsSnoc(asset: Json, periods: seq<int>, p: int)
    ensures PeriodSubscriptions(asset, periods + [p]) == PeriodSubscriptions(asset, periods) + [CandlesSubscribe(asset, p)]
  {
    var a := PeriodSubscriptions(asset, periods + [p]);
    var b := PeriodSubscriptions(asset, periods) + [CandlesSubscribe(asset, p)];
    assert |a| == |b|;
    forall k | 0 <= k < |a| ensures a[k] == b[k] {
      if k < |periods| {
        assert (periods + [p])[k] == periods[k];
      }
    }
  }
}
