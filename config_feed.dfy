/**
 * The raw-WebSocket feed handler of config.py: `on_open` asks for the asset list, and
 * `on_message` reloads the symbol list from an `assets` event (subscribing each symbol to
 * three candle periods) and keeps the last 50 candles per (symbol, timeframe) from `candles`
 * events. Frames written with `ws.send` are appended to an output sequence. Symbols are
 * whatever JSON values the server sends; `market_data` is keyed by their Python dictionary
 * identity (Json.Key), so `True` and `1` share an entry and a list or dict symbol raises.
 */
module ConfigFeed {
  import opened Wrappers
  import opened Json
  import opened Frames

  /** Candles kept per (symbol, timeframe). */
  const Capacity: nat := 50

  /** The frame `on_open` sends. */
  const GetAssetsFrame: string := "42[\"getAssets\", {}]"

  /** The candle periods of CANDLE_PERIODS, in its order, as they are written into a frame. */
  const PeriodTexts: seq<string> := ["60", "180", "300"]

  /** The subscribe frame for one symbol and period. */
  function CandleSubscribeFrame(symbol: string, period: string): (frame: string)
    ensures IsEventFrame(frame)
  {
    var body := "[\"subscribe\",{\"type\":\"candles\",\"asset\":\"" + symbol + "\",\"period\":" + period + "}]";
    assert ("42" + body)[..2] == "42";
    "42" + body
  }

  /** How `{symbol_id}` in an f-string writes a symbol: a string as itself, any other value as `str()` (`render`). */
  function SymbolText(symbol: Json, render: Json -> string): (text: string)
    ensures symbol.JStr? ==> text == symbol.s
    ensures !symbol.JStr? ==> text == render(symbol)
  {
    if symbol.JStr? then symbol.s else render(symbol)
  }

  /** The three subscribe frames for one symbol: periods 60, 180, 300 in that order. */
  function SubscribeFrames(symbol: string): seq<string>
  {
    [CandleSubscribeFrame(symbol, "60"), CandleSubscribeFrame(symbol, "180"), CandleSubscribeFrame(symbol, "300")]
  }

  /** The subscribe frames for a list of symbols, symbol by symbol. */
  function FramesFor(symbols: seq<Json>, render: Json -> string): (frames: seq<string>)
    ensures |frames| == 3 * |symbols|
  {
    if symbols == [] then [] else SubscribeFrames(SymbolText(symbols[0], render)) + FramesFor(symbols[1..], render)
  }

  /** Exactly three frames per symbol, at positions 3i, 3i+1, 3i+2, one per period in order. */
  lemma {:induction false} FramesForAt(symbols: seq<Json>, render: Json -> string, i: nat, j: nat)
    requires i < |symbols| && j < 3
    ensures FramesFor(symbols, render)[3 * i + j] == CandleSubscribeFrame(SymbolText(symbols[i], render), PeriodTexts[j])
  {
    var head, tail := SubscribeFrames(SymbolText(symbols[0], render)), FramesFor(symbols[1..], render);
    assert FramesFor(symbols, render) == head + tail;
    if i > 0 {
      FramesForAt(symbols[1..], render, i - 1, j);
      assert (head + tail)[3 * i + j] == tail[3 * (i - 1) + j];
    } else {
      assert (head + tail)[j] == head[j];
    }
  }

  lemma {:induction false} FramesForAppend(a: seq<Json>, b: seq<Json>, render: Json -> string)
    ensures FramesFor(a + b, render) == FramesFor(a, render) + FramesFor(b, render)
  {
    if a != [] {
      assert (a + b)[0] == a[0] && (a + b)[1..] == a[1..] + b;
      FramesForAppend(a[1..], b, render);
      AppendAssociative(SubscribeFrames(SymbolText(a[0], render)), FramesFor(a[1..], render), FramesFor(b, render));
    } else {
      assert a + b == b;
    }
  }


  /**
   * The timeframe key of a period: the name CANDLE_PERIODS gives 60, 180 and 300, and
   * `str(period)` (here `render`, Python's str()) for any other value.
   */
  function TimeframeName(period: Json, render: Json -> string): (tf: string)
    ensures period == JNum(60.0) ==> tf == "1m"
    ensures period == JNum(180.0) ==> tf == "3m"
    ensures period == JNum(300.0) ==> tf == "5m"
    ensures period !in {JNum(60.0), JNum(180.0), JNum(300.0)} ==> tf == render(period)
  {
    if period == JNum(60.0) then "1m"
    else if period == JNum(180.0) then "3m"
    else if period == JNum(300.0) then "5m"
    else render(period)
  }

  // ---------------------------------------------------------------- the bounded buffer

  /** `append` then `pop(0)` when the buffer has grown past the capacity. */
  function Push(buffer: seq<Json>, candle: Json): seq<Json>
  {
    var grown := buffer + [candle];
    if |grown| > Capacity then grown[1..] else grown
  }

  /** The last n values of xs (all of them when there are fewer). */
  function LastN<T>(xs: seq<T>, n: nat): (r: seq<T>)
    ensures |r| == if |xs| <= n then |xs| else n
  {
    if |xs| <= n then xs else xs[|xs| - n..]
  }

  /** Pushing candles one after another, in arrival order. */
  function PushAll(buffer: seq<Json>, candles: seq<Json>): seq<Json>
  {
    if candles == [] then buffer else Push(PushAll(buffer, candles[..|candles| - 1]), candles[|candles| - 1])
  }

  /** One push keeps a buffer within capacity and keeps the latest candles in order. */
  lemma PushBounded(buffer: seq<Json>, candle: Json)
    requires |buffer| <= Capacity
    ensures |Push(buffer, candle)| <= Capacity
    ensures Push(buffer, candle) == LastN(buffer + [candle], Capacity)
    ensures Push(buffer, candle)[|Push(buffer, candle)| - 1] == candle
  {
  }

  /**
   * Whatever was pushed, a buffer that started within capacity holds exactly the last
   * `Capacity` candles of everything it ever received, in arrival order.
   */
  lemma {:induction false} PushAllKeepsLatest(buffer: seq<Json>, candles: seq<Json>)
    requires |buffer| <= Capacity
    ensures PushAll(buffer, candles) == LastN(buffer + candles, Capacity)
  {
    if candles != [] {
      var front := candles[..|candles| - 1];
      var c := candles[|candles| - 1];
      PushAllKeepsLatest(buffer, front);
      var before := buffer + front;
      assert buffer + candles == before + [c];
      var kept := LastN(before, Capacity);
      if |before| + 1 > Capacity {
        if |before| <= Capacity {
          assert kept == before;
        } else {
          assert (kept + [c])[1..] == (before + [c])[|before| + 1 - Capacity..];
        }
      }
    }
  }

  /** 120 candles pushed into an empty buffer leave candles 71 to 120, in order. */
  lemma HundredTwentyCandles()
    ensures var candles := seq(120, i => JNum((i + 1) as real));
      PushAll([], candles) == seq(50, i => JNum((71 + i) as real))
  {
    var candles := seq(120, i => JNum((i + 1) as real));
    PushAllKeepsLatest([], candles);
    assert [] + candles == candles;
  }

  // ---------------------------------------------------------------- the handler as a function of the state

  /** SYMBOLS, market_data[key]["candles"][tf], and the frames sent so far. */
  datatype Feed = Feed(symbols: seq<Json>, candles: map<Key, map<string, seq<Json>>>, sent: seq<string>)

  /** market_data[key]["candles"][tf]: a key that was never written reads as an empty list. */
  function BufferOf(candles: map<Key, map<string, seq<Json>>>, key: Key, tf: string): seq<Json>
  {
    if key in candles && tf in candles[key] then candles[key][tf] else []
  }

  /** Every buffer is within capacity. */
  ghost predicate Bounded(candles: map<Key, map<string, seq<Json>>>)
  {
    forall k, tf :: k in candles && tf in candles[k] ==> |candles[k][tf]| <= Capacity
  }

  /** The state after one step of the assets loop, and whether that step raised (which ends the handler). */
  datatype Outcome = Continue(feed: Feed) | Raised(feed: Feed)

  /**
   * One asset of the loop: `asset.get("symbol")` raises unless the asset is a dict; a falsy
   * symbol is skipped; a truthy one is appended to SYMBOLS, and then `market_data[symbol_id]`
   * raises for a list or dict symbol; any other symbol gets an empty candle map and three
   * subscribe frames.
   */
  function LoadAsset(f: Feed, asset: Json, render: Json -> string): Outcome
  {
    match Get(asset, "symbol")
    case None => Raised(f)
    case Some(symbol) =>
      if !Truthy(symbol) then Continue(f)
      else
        var listed := f.(symbols := f.symbols + [symbol]);
        match HashKey(symbol)
        case None => Raised(listed)
        case Some(key) =>
          Continue(listed.(candles := f.candles[key := map[]], sent := f.sent + SubscribeFrames(SymbolText(symbol, render))))
  }

  /** The loop over the assets, which stops at the first asset that raises. */
  function LoadAssets(f: Feed, assets: seq<Json>, render: Json -> string): Feed
    decreases |assets|
  {
    if assets == [] then f
    else
      match LoadAsset(f, assets[0], render)
      case Raised(g) => g
      case Continue(g) => LoadAssets(g, assets[1..], render)
  }

  /** The `assets` branch: SYMBOLS is cleared first; a payload that cannot be iterated raises right after. */
  function OnAssets(f: Feed, payload: Json, render: Json -> string): Feed
  {
    var cleared := f.(symbols := []);
    match Elements(payload)
    case None => cleared
    case Some(assets) => LoadAssets(cleared, assets, render)
  }

  /**
   * The `candles` branch: `payload.get` raises unless the payload is a dict; with a truthy
   * asset and period the payload itself is pushed into that asset's buffer for the period's
   * timeframe, unless the asset is a list or dict, which raises.
   */
  function OnCandles(f: Feed, payload: Json, render: Json -> string): Feed
  {
    if !payload.JObj? then f
    else
      var symbol := Get(payload, "asset").value;
      var period := Get(payload, "period").value;
      if !(Truthy(symbol) && Truthy(period) && Truthy(payload)) then f
      else
        match HashKey(symbol)
        case None => f
        case Some(key) =>
          var tf := TimeframeName(period, render);
          var byTf := if key in f.candles then f.candles[key] else map[];
          f.(candles := f.candles[key := byTf[tf := Push(BufferOf(f.candles, key, tf), payload)]])
  }

  /** `on_message(ws, message)`. */
  function OnMessageSpec(f: Feed, message: string, loads: string -> Option<Json>, render: Json -> string): Feed
  {
    match DecodeFrame(message, loads)
    case Event(name, payload) =>
      var g := if name == JStr("assets") && Truthy(payload) then OnAssets(f, payload, render) else f;
      if name == JStr("candles") && Truthy(payload) then OnCandles(g, payload, render) else g
    case _ => f
  }

  // ---------------------------------------------------------------- what the handler promises

  /** The truthy `symbol` fields of the dict assets, in payload order. */
  function TruthySymbols(assets: seq<Json>): seq<Json>
  {
    if assets == [] then []
    else
      var s := Get(assets[0], "symbol");
      (if s.Some? && Truthy(s.value) then [s.value] else []) + TruthySymbols(assets[1..])
  }

  /** The dictionary keys of the hashable values among `symbols`. */
  function KeysOf(symbols: seq<Json>): set<Key>
  {
    set s | s in symbols && HashKey(s).Some? :: HashKey(s).value
  }

  /** An asset the loop gets through: a dict whose symbol is falsy or hashable. */
  predicate Loadable(asset: Json)
  {
    asset.JObj? && var s := Get(asset, "symbol").value; !Truthy(s) || HashKey(s).Some?
  }

  /**
   * Exactly the assets that are not dicts, or whose truthy symbol is a list or a dict, raise.
   * A dict asset that raises has already appended its symbol to SYMBOLS; nothing else changes.
   */
  lemma LoadAssetRaises(f: Feed, asset: Json, render: Json -> string)
    ensures LoadAsset(f, asset, render).Raised? <==> !Loadable(asset)
    ensures !asset.JObj? ==> LoadAsset(f, asset, render).feed == f
    ensures asset.JObj? && !Loadable(asset) ==>
      LoadAsset(f, asset, render).feed == f.(symbols := f.symbols + [Get(asset, "symbol").value])
  {
  }

  /** One asset the loop gets through. */
  lemma LoadAssetStep(f: Feed, asset: Json, render: Json -> string)
    requires Loadable(asset)
    ensures var g := LoadAsset(f, asset, render).feed;
      var added := TruthySymbols([asset]);
      && (forall s :: s in added ==> HashKey(s).Some?)
      && g.symbols == f.symbols + added
      && g.sent == f.sent + FramesFor(added, render)
      && (forall k :: k in KeysOf(added) ==> k in g.candles && g.candles[k] == map[])
      && (forall k :: k !in KeysOf(added) ==> (k in g.candles <==> k in f.candles))
      && (forall k :: k !in KeysOf(added) && k in f.candles ==> g.candles[k] == f.candles[k])
  {
    var s := Get(asset, "symbol").value;
    assert TruthySymbols([asset][1..]) == [];
    if Truthy(s) {
      assert TruthySymbols([asset]) == [s];
      assert FramesFor([s], render) == SubscribeFrames(SymbolText(s, render)) + FramesFor([], render);
      assert KeysOf([s]) == {HashKey(s).value};
    } else {
      assert TruthySymbols([asset]) == [];
    }
  }

  lemma LoadAssetSent(f: Feed, asset: Json, render: Json -> string)
    requires Loadable(asset)
    ensures LoadAsset(f, asset, render).feed.sent == f.sent + FramesFor(TruthySymbols([asset]), render)
  {
    LoadAssetStep(f, asset, render);
  }

  lemma FramesChain(a: seq<string>, b: seq<string>, c: seq<string>, first: seq<Json>, later: seq<Json>, all: seq<Json>, render: Json -> string)
    requires b == a + FramesFor(first, render)
    requires c == b + FramesFor(later, render)
    requires all == first + later
    requires FramesFor(first + later, render) == FramesFor(first, render) + FramesFor(later, render)
    ensures c == a + FramesFor(all, render)
  {
    AppendAssociative(a, FramesFor(first, render), FramesFor(later, render));
  }

  lemma LoadAssetsCons(f: Feed, assets: seq<Json>, render: Json -> string)
    requires assets != [] && Loadable(assets[0])
    ensures LoadAsset(f, assets[0], render).Continue?
    ensures LoadAssets(f, assets, render) == LoadAssets(LoadAsset(f, assets[0], render).feed, assets[1..], render)
  {
  }

  lemma TruthySymbolsCons(assets: seq<Json>)
    requires assets != []
    ensures TruthySymbols(assets) == TruthySymbols([assets[0]]) + TruthySymbols(assets[1..])
  {
    assert TruthySymbols([assets[0]][1..]) == [];
  }

  lemma KeysOfAppend(a: seq<Json>, b: seq<Json>)
    ensures KeysOf(a + b) == KeysOf(a) + KeysOf(b)
  {
    assert forall s :: s in a + b <==> s in a || s in b;
  }

  lemma LoadableRest(assets: seq<Json>)
    requires assets != []
    requires forall i :: 0 <= i < |assets| ==> Loadable(assets[i])
    ensures forall i :: 0 <= i < |assets[1..]| ==> Loadable(assets[1..][i])
  {
    forall i | 0 <= i < |assets[1..]| ensures Loadable(assets[1..][i]) {
      assert assets[1..][i] == assets[i + 1];
    }
  }

  /** When the loop gets through every asset, SYMBOLS gains exactly the truthy symbols in payload order. */
  lemma {:induction false} LoadAssetsSymbols(f: Feed, assets: seq<Json>, render: Json -> string)
    requires forall i :: 0 <= i < |assets| ==> Loadable(assets[i])
    ensures LoadAssets(f, assets, render).symbols == f.symbols + TruthySymbols(assets)
    decreases |assets|
  {
    if assets != [] {
      LoadAssetStep(f, assets[0], render);
      LoadAssetsCons(f, assets, render);
      LoadableRest(assets);
      var rest := assets[1..];
      LoadAssetsSymbols(LoadAsset(f, assets[0], render).feed, rest, render);
      TruthySymbolsCons(assets);
      AppendAssociative(f.symbols, TruthySymbols([assets[0]]), TruthySymbols(rest));
    }
  }

  /** When the loop gets through every asset, three subscribe frames go out per truthy symbol, in payload order. */
  lemma {:induction false} LoadAssetsFrames(f: Feed, assets: seq<Json>, render: Json -> string)
    requires forall i :: 0 <= i < |assets| ==> Loadable(assets[i])
    ensures LoadAssets(f, assets, render).sent == f.sent + FramesFor(TruthySymbols(assets), render)
    decreases |assets|
  {
    if assets != [] {
      LoadAssetSent(f, assets[0], render);
      LoadAssetsCons(f, assets, render);
      LoadableRest(assets);
      var rest := assets[1..];
      var g := LoadAsset(f, assets[0], render).feed;
      LoadAssetsFrames(g, rest, render);
      TruthySymbolsCons(assets);
      var first, later := TruthySymbols([assets[0]]), TruthySymbols(rest);
      FramesForAppend(first, later, render);
      FramesChain(f.sent, g.sent, LoadAssets(f, assets, render).sent, first, later, TruthySymbols(assets), render);
    }
  }

  /**
   * When the loop gets through every asset, every truthy symbol is hashable and its key has an
   * empty candle map, and every other key keeps its candles.
   */
  lemma {:induction false} LoadAssetsCandles(f: Feed, assets: seq<Json>, render: Json -> string)
    requires forall i :: 0 <= i < |assets| ==> Loadable(assets[i])
    ensures var g := LoadAssets(f, assets, render);
      && (forall s :: s in TruthySymbols(assets) ==> HashKey(s).Some?)
      && (forall k :: k in KeysOf(TruthySymbols(assets)) ==> k in g.candles && g.candles[k] == map[])
      && (forall k :: k !in KeysOf(TruthySymbols(assets)) ==> (k in g.candles <==> k in f.candles))
      && (forall k :: k !in KeysOf(TruthySymbols(assets)) && k in f.candles ==> g.candles[k] == f.candles[k])
    decreases |assets|
  {
    if assets != [] {
      LoadAssetStep(f, assets[0], render);
      LoadAssetsCons(f, assets, render);
      var h := LoadAsset(f, assets[0], render).feed;
      LoadableRest(assets);
      var rest := assets[1..];
      LoadAssetsCandles(h, rest, render);
      TruthySymbolsCons(assets);
      KeysOfAppend(TruthySymbols([assets[0]]), TruthySymbols(rest));
    }
  }

  /**
   * An asset that raises ends the loop: the state is what that asset left (its own symbol
   * appended, when it was a dict), and the assets after it have no effect.
   */
  lemma {:induction false} LoadAssetsStops(f: Feed, before: seq<Json>, bad: Json, after: seq<Json>, render: Json -> string)
    requires forall i :: 0 <= i < |before| ==> LoadAsset(LoadAssets(f, before[..i], render), before[i], render).Continue?
    requires LoadAsset(LoadAssets(f, before, render), bad, render).Raised?
    ensures LoadAssets(f, before + [bad] + after, render) == LoadAsset(LoadAssets(f, before, render), bad, render).feed
    decreases |before|
  {
    if before == [] {
      assert before + [bad] + after == [bad] + after;
    } else {
      assert before[..0] == [];
      var g := LoadAsset(f, before[0], render).feed;
      var rest := before[1..];
      forall i | 0 <= i < |rest|
        ensures LoadAsset(LoadAssets(g, rest[..i], render), rest[i], render).Continue?
      {
        PrefixAfterFirst(f, before, i, render);
      }
      PrefixAfterFirst(f, before + [bad], |rest|, render);
      assert (before + [bad])[..|before|] == before && (before + [bad])[1..][..|rest|] == rest;
      LoadAssetsStops(g, rest, bad, after, render);
      assert (before + [bad] + after)[1..] == rest + [bad] + after;
    }
  }

  /** Once the first asset is through, the loop over a prefix is the loop over the rest of that prefix. */
  lemma PrefixAfterFirst(f: Feed, assets: seq<Json>, i: nat, render: Json -> string)
    requires i < |assets| && LoadAsset(f, assets[0], render).Continue?
    ensures LoadAssets(f, assets[..i + 1], render) == LoadAssets(LoadAsset(f, assets[0], render).feed, assets[1..][..i], render)
    ensures i + 1 < |assets| ==> assets[i + 1] == assets[1..][i]
  {
    var p := assets[..i + 1];
    assert p[0] == assets[0] && p[1..] == assets[1..][..i];
  }

  /** Anything but an event frame changes nothing; neither does a frame that fails to decode. */
  lemma IgnoredFrames(f: Feed, message: string, loads: string -> Option<Json>, render: Json -> string)
    requires !IsEventFrame(message) || DecodeFrame(message, loads).Malformed?
    ensures OnMessageSpec(f, message, loads, render) == f
  {
  }

  /**
   * A candles event with a dict payload naming a truthy hashable asset and a truthy period
   * pushes the payload into exactly that asset key's buffer; every other buffer and the rest of
   * the state stay as they were, and a buffer within capacity stays within capacity. A list or
   * dict asset changes nothing.
   */
  lemma CandlesEffect(f: Feed, payload: Json, render: Json -> string)
    ensures var g := OnCandles(f, payload, render);
      && g.symbols == f.symbols && g.sent == f.sent
      && (Bounded(f.candles) ==> Bounded(g.candles))
      && (payload.JObj? && HashKey(Get(payload, "asset").value).None? ==> g == f)
      && (payload.JObj? && Truthy(payload) && Truthy(Get(payload, "asset").value) && Truthy(Get(payload, "period").value)
          && HashKey(Get(payload, "asset").value).Some? ==>
            var key := HashKey(Get(payload, "asset").value).value;
            var tf := TimeframeName(Get(payload, "period").value, render);
            && BufferOf(g.candles, key, tf) == Push(BufferOf(f.candles, key, tf), payload)
            && (forall k', tf' :: (k', tf') != (key, tf) ==> BufferOf(g.candles, k', tf') == BufferOf(f.candles, k', tf')))
  {
  }

  /** `True` and `1` are one dictionary key: a candle for asset `true` lands in asset 1's buffer. */
  lemma TrueIsAssetOne(f: Feed, payload: Json, render: Json -> string)
    requires payload.JObj? && Get(payload, "asset").value == JBool(true) && Truthy(Get(payload, "period").value)
    ensures var tf := TimeframeName(Get(payload, "period").value, render);
      BufferOf(OnCandles(f, payload, render).candles, KNum(1.0), tf) == Push(BufferOf(f.candles, KNum(1.0), tf), payload)
  {
    assert Truthy(payload);
  }

  /** A candles event whose asset or period is missing or falsy stores nothing. */
  lemma CandlesNeedAssetAndPeriod(f: Feed, payload: Json, render: Json -> string)
    requires !Truthy(Get(payload, "asset").GetOr(JNull)) || !Truthy(Get(payload, "period").GetOr(JNull))
    ensures OnCandles(f, payload, render) == f
  {
  }

  /** Assets loading never leaves a buffer over capacity. */
  lemma {:induction false} LoadAssetsBounded(f: Feed, assets: seq<Json>, render: Json -> string)
    requires Bounded(f.candles)
    ensures Bounded(LoadAssets(f, assets, render).candles)
    decreases |assets|
  {
    if assets != [] {
      match LoadAsset(f, assets[0], render)
      case Raised(g) =>
      case Continue(g) => LoadAssetsBounded(g, assets[1..], render);
    }
  }

  /** Every message keeps every buffer within capacity. */
  lemma OnMessageBounded(f: Feed, message: string, loads: string -> Option<Json>, render: Json -> string)
    requires Bounded(f.candles)
    ensures Bounded(OnMessageSpec(f, message, loads, render).candles)
  {
    match DecodeFrame(message, loads)
    case Event(name, payload) =>
      var g := if name == JStr("assets") && Truthy(payload) then OnAssets(f, payload, render) else f;
      if name == JStr("assets") && Truthy(payload) {
        match Elements(payload)
        case None =>
        case Some(assets) => LoadAssetsBounded(f.(symbols := []), assets, render);
      }
      CandlesEffect(g, payload, render);
    case _ =>
  }

  // ---------------------------------------------------------------- the module state

  /** The module globals SYMBOLS and market_data, and the socket's output. */
  class FeedState {
    var symbols: seq<Json>
    var candles: map<Key, map<string, seq<Json>>>
    var sent: seq<string>

    ghost predicate Valid()
      reads this
    {
      Bounded(candles)
    }

    function Snapshot(): Feed
      reads this
    {
      Feed(symbols, candles, sent)
    }

    constructor ()
      ensures Valid() && Snapshot() == Feed([], map[], [])
    {
      symbols, candles, sent := [], map[], [];
    }

    /** `on_open`: request the asset list (the heartbeat thread it starts is not modelled). */
    method OnOpen()
      modifies this
      ensures Snapshot() == old(Snapshot()).(sent := old(sent) + [GetAssetsFrame])
    {
      sent := sent + [GetAssetsFrame];
    }

    /** `on_message(ws, message)`; `loads` is json.loads and `render` is str(). Errors are logged, never raised. */
    method OnMessage(message: string, loads: string -> Option<Json>, render: Json -> string)
      requires Valid()
      modifies this
      ensures Valid()
      ensures Snapshot() == OnMessageSpec(old(Snapshot()), message, loads, render)
    {
      ghost var start := Snapshot();
      if !(|message| >= 2 && message[..2] == "42") {
        return;
      }
      var frame := DecodeFrame(message, loads);
      if frame.Malformed? {
        return;
      }
      var name, payload := frame.name, frame.payload;
      if name == JStr("assets") && Truthy(payload) {
        LoadSymbols(payload, render);
      }
      if name == JStr("candles") && Truthy(payload) {
        StoreCandle(payload, render);
      }
      OnMessageBounded(start, message, loads, render);
    }

    /** The `assets` branch. */
    method LoadSymbols(payload: Json, render: Json -> string)
      modifies this
      ensures Snapshot() == OnAssets(old(Snapshot()), payload, render)
    {
      symbols := [];
      var assets := Elements(payload);
      if assets.None? {
        return;
      }
      var items := assets.value;
      ghost var goal := LoadAssets(Snapshot(), items, render);
      var i := 0;
      while i < |items|
        invariant 0 <= i <= |items|
        invariant LoadAssets(Snapshot(), items[i..], render) == goal
      {
        assert items[i..][0] == items[i] && items[i..][1..] == items[i + 1..];
        var symbol := Get(items[i], "symbol");
        if symbol.None? {
          return;
        }
        if Truthy(symbol.value) {
          symbols := symbols + [symbol.value];
          var key := HashKey(symbol.value);
          if key.None? {
            return;
          }
          candles := candles[key.value := map[]];
          sent := sent + SubscribeFrames(SymbolText(symbol.value, render));
        }
        i := i + 1;
      }
    }

    /** The `candles` branch. */
    method StoreCandle(payload: Json, render: Json -> string)
      modifies this
      ensures Snapshot() == OnCandles(old(Snapshot()), payload, render)
    {
      if !payload.JObj? {
        return;
      }
      var symbol := Get(payload, "asset").value;
      var period := Get(payload, "period").value;
      if !(Truthy(symbol) && Truthy(period) && Truthy(payload)) {
        return;
      }
      var key := HashKey(symbol);
      if key.None? {
        return;
      }
      var tf := TimeframeName(period, render);
      var byTf := if key.value in candles then candles[key.value] else map[];
      var buffer := BufferOf(candles, key.value, tf) + [payload];
      if |buffer| > Capacity {
        buffer := buffer[1..];
      }
      candles := candles[key.value := byTf[tf := buffer]];
    }
  }
}
