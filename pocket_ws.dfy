/**
 * The variant Socket.IO handlers of pocket_ws.py: an assets handler that keeps assets with a
 * truthy `enabled` and a truthy `symbol`, ignores an empty result and survives a failed
 * subscription per asset, and tick and candle handlers that store only under truthy keys.
 */
module PocketWs {
  import opened Wrappers
  import opened Json
  import DataFetcher

  // ---------------------------------------------------------------- handle_assets

  /**
   * What one asset adds to `[a.get("symbol") for a in data if a.get("enabled") and a.get("symbol")]`;
   * None when `a.get` raises (the asset is not a dict).
   */
  function Kept(asset: Json): (r: Option<seq<Json>>)
    ensures r.Some? <==> asset.JObj?
    ensures r.Some? ==> |r.value| <= 1
  {
    match Get(asset, "enabled")
    case None => None
    case Some(enabled) =>
      var symbol := Get(asset, "symbol").value;
      if Truthy(enabled) && Truthy(symbol) then Some([symbol]) else Some([])
  }

  /** The comprehension over the assets; None when it raises. */
  function KeptSymbols(assets: seq<Json>): (r: Option<seq<Json>>)
    ensures r.Some? ==> |r.value| <= |assets|
  {
    if assets == [] then Some([])
    else
      var head, rest := Kept(assets[0]), KeptSymbols(assets[1..]);
      if head.Some? && rest.Some? then Some(head.value + rest.value) else None
  }

  lemma KeptSymbolsCons(asset: Json, rest: seq<Json>)
    ensures KeptSymbols([asset] + rest) ==
      if Kept(asset).Some? && KeptSymbols(rest).Some? then Some(Kept(asset).value + KeptSymbols(rest).value) else None
  {
    assert ([asset] + rest)[0] == asset && ([asset] + rest)[1..] == rest;
  }

  /**
   * The filter raises exactly when some asset is not a dict; otherwise every symbol kept is
   * truthy and is the symbol of an enabled asset.
   */
  lemma {:induction false} KeptSymbolsSound(assets: seq<Json>)
    ensures KeptSymbols(assets).Some? <==> forall i :: 0 <= i < |assets| ==> assets[i].JObj?
    ensures KeptSymbols(assets).Some? ==> forall x :: x in KeptSymbols(assets).value ==>
      Truthy(x) && exists i :: 0 <= i < |assets| && Truthy(Get(assets[i], "enabled").value) && Get(assets[i], "symbol").value == x
    decreases |assets|
  {
    if assets != [] {
      KeptSymbolsSound(assets[1..]);
      assert assets == [assets[0]] + assets[1..];
      KeptSymbolsCons(assets[0], assets[1..]);
      assert forall i :: 0 <= i < |assets[1..]| ==> assets[1..][i] == assets[i + 1];
      if !(forall i :: 0 <= i < |assets| ==> assets[i].JObj?) {
        var i :| 0 <= i < |assets| && !assets[i].JObj?;
        if i > 0 {
          assert assets[i] == assets[1..][i - 1];
        }
      }
    }
  }

  /** Conversely, the symbol of every enabled dict asset with a truthy symbol is kept. */
  lemma {:induction false} KeptComplete(assets: seq<Json>, i: nat)
    requires i < |assets| && KeptSymbols(assets).Some? && assets[i].JObj?
    requires Truthy(Get(assets[i], "enabled").value) && Truthy(Get(assets[i], "symbol").value)
    ensures Get(assets[i], "symbol").value in KeptSymbols(assets).value
    decreases i
  {
    assert assets == [assets[0]] + assets[1..];
    KeptSymbolsCons(assets[0], assets[1..]);
    if i > 0 {
      assert assets[i] == assets[1..][i - 1];
      KeptComplete(assets[1..], i - 1);
    }
  }

  /** The order of the assets is kept: the filter distributes over concatenation. */
  lemma {:induction false} KeptSymbolsAppend(a: seq<Json>, b: seq<Json>)
    requires KeptSymbols(a).Some? && KeptSymbols(b).Some?
    ensures KeptSymbols(a + b) == Some(KeptSymbols(a).value + KeptSymbols(b).value)
    decreases |a|
  {
    if a == [] {
      assert a + b == b;
      assert KeptSymbols(a).value + KeptSymbols(b).value == KeptSymbols(b).value;
    } else {
      assert (a + b)[0] == a[0] && (a + b)[1..] == a[1..] + b;
      KeptSymbolsAppend(a[1..], b);
      var head, x, y := Kept(a[0]).value, KeptSymbols(a[1..]).value, KeptSymbols(b).value;
      assert KeptSymbols(a + b) == Some(head + (x + y));
      AppendAssociative(head, x, y);
    }
  }

  /** handle_assets' filtered list, or None when iterating the payload or the filter raises. */
  function AssetsOutcome(data: Json): Option<seq<Json>>
  {
    match Elements(data)
    case None => None
    case Some(assets) => KeptSymbols(assets)
  }

  /** The emits that go out before the first one `sio.emit` rejects, which ends the asset's `try`. */
  function Accepted(emits: seq<DataFetcher.Emit>, accepts: DataFetcher.Emit -> bool): (r: seq<DataFetcher.Emit>)
    ensures |r| <= |emits|
  {
    if emits == [] || !accepts(emits[0]) then [] else [emits[0]] + Accepted(emits[1..], accepts)
  }

  /**
   * The emits that go out are the longest prefix of the attempts that `sio.emit` accepts:
   * every one before position n is accepted and the one at n, if any, is not.
   */
  lemma {:induction false} AcceptedPrefix(emits: seq<DataFetcher.Emit>, accepts: DataFetcher.Emit -> bool, n: nat)
    requires n <= |emits|
    requires forall k :: 0 <= k < n ==> accepts(emits[k])
    requires n < |emits| ==> !accepts(emits[n])
    ensures Accepted(emits, accepts) == emits[..n]
  {
    if n > 0 {
      assert forall k :: 0 <= k < n - 1 ==> emits[1..][k] == emits[k + 1];
      AcceptedPrefix(emits[1..], accepts, n - 1);
      assert emits[..n] == [emits[0]] + emits[1..][..n - 1];
    }
  }

  /** The subscriptions sent for a list of assets: each asset's accepted attempts, asset after asset. */
  function Subscriptions(assets: seq<Json>, accepts: DataFetcher.Emit -> bool): seq<DataFetcher.Emit>
  {
    if assets == [] then [] else Accepted(DataFetcher.AssetSubscriptions(assets[0]), accepts) + Subscriptions(assets[1..], accepts)
  }

  lemma SubscriptionsOne(asset: Json, accepts: DataFetcher.Emit -> bool)
    ensures Subscriptions([asset], accepts) == Accepted(DataFetcher.AssetSubscriptions(asset), accepts)
  {
    assert [asset][1..] == [];
    assert Accepted(DataFetcher.AssetSubscriptions(asset), accepts) + [] == Accepted(DataFetcher.AssetSubscriptions(asset), accepts);
  }

  /** A rejected emit only affects its own asset: the assets' subscriptions are concatenated. */
  lemma {:induction false} SubscriptionsAppend(a: seq<Json>, b: seq<Json>, accepts: DataFetcher.Emit -> bool)
    ensures Subscriptions(a + b, accepts) == Subscriptions(a, accepts) + Subscriptions(b, accepts)
  {
    if a == [] {
      assert a + b == b;
    } else {
      assert (a + b)[0] == a[0] && (a + b)[1..] == a[1..] + b;
      SubscriptionsAppend(a[1..], b, accepts);
      AppendAssociative(Accepted(DataFetcher.AssetSubscriptions(a[0]), accepts), Subscriptions(a[1..], accepts), Subscriptions(b, accepts));
    }
  }

  lemma SubscriptionsFrom(assets: seq<Json>, i: nat, accepts: DataFetcher.Emit -> bool)
    requires i < |assets|
    ensures Subscriptions(assets[i..], accepts) ==
      Accepted(DataFetcher.AssetSubscriptions(assets[i]), accepts) + Subscriptions(assets[i + 1..], accepts)
  {
    assert assets[i..][0] == assets[i] && assets[i..][1..] == assets[i + 1..];
  }

  /** When every emit goes through, the subscriptions are the ticks and 60, 180, 300 s candles of each asset. */
  lemma {:induction false} SubscriptionsAllAccepted(assets: seq<Json>, accepts: DataFetcher.Emit -> bool)
    requires forall e :: accepts(e)
    ensures Subscriptions(assets, accepts) == DataFetcher.SubscriptionsFor(assets)
  {
    if assets != [] {
      AcceptedAll(DataFetcher.AssetSubscriptions(assets[0]), accepts);
      SubscriptionsAllAccepted(assets[1..], accepts);
    }
  }

  lemma {:induction false} AcceptedAll(emits: seq<DataFetcher.Emit>, accepts: DataFetcher.Emit -> bool)
    requires forall e :: accepts(e)
    ensures Accepted(emits, accepts) == emits
  {
    if emits != [] {
      AcceptedAll(emits[1..], accepts);
    }
  }

  // ---------------------------------------------------------------- the module state

  datatype WsState = WsState(
    symbols: seq<Json>, ticks: map<Key, seq<DataFetcher.Tick>>, candles: map<Key, map<Key, seq<Json>>>,
    emitted: seq<DataFetcher.Emit>, dashboardAttached: bool, dashboard: seq<DataFetcher.DashboardEvent>)

  /**
   * The module globals `symbols`, `market_data` (its "ticks" and "candles" parts per asset) and
   * `socketio_instance`, and what goes to the server and the dashboard.
   */
  class WsFeed {
    var symbols: seq<Json>
    var ticks: map<Key, seq<DataFetcher.Tick>>
    var candles: map<Key, map<Key, seq<Json>>>
    var emitted: seq<DataFetcher.Emit>
    var dashboardAttached: bool
    var dashboard: seq<DataFetcher.DashboardEvent>

    function State(): WsState
      reads this
    {
      WsState(symbols, ticks, candles, emitted, dashboardAttached, dashboard)
    }

    constructor ()
      ensures State() == WsState([], map[], map[], [], false, [])
    {
      symbols, ticks, candles, emitted, dashboardAttached, dashboard := [], map[], map[], [], false, [];
    }

    /** `update_symbols(new_symbols)`. */
    method UpdateSymbols(newSymbols: seq<Json>)
      modifies this
      ensures State() == old(State()).(symbols := newSymbols,
        dashboard := old(dashboard) + if old(dashboardAttached) then [DataFetcher.SymbolsUpdate(newSymbols)] else [])
    {
      symbols := newSymbols;
      if dashboardAttached {
        dashboard := dashboard + [DataFetcher.SymbolsUpdate(newSymbols)];
      }
    }

    /** `get_dynamic_symbols()`: the list last set by update_symbols. */
    method GetDynamicSymbols() returns (r: seq<Json>)
      ensures r == symbols
    {
      r := symbols;
    }

    /** `run_pocket_ws` attaching the dashboard socket (the connection itself is not modelled). */
    method Attach()
      modifies this
      ensures State() == old(State()).(dashboardAttached := true)
    {
      dashboardAttached := true;
    }

    /**
     * `handle_assets(data)`; `accepts` says which emits `sio.emit` lets through. An empty
     * filtered list or a raising filter changes nothing.
     */
    method HandleAssets(data: Json, accepts: DataFetcher.Emit -> bool)
      modifies this
      ensures AssetsOutcome(data).None? || AssetsOutcome(data).value == [] ==> State() == old(State())
      ensures AssetsOutcome(data).Some? && AssetsOutcome(data).value != [] ==>
        var kept := AssetsOutcome(data).value;
        State() == old(State()).(symbols := kept,
          dashboard := old(dashboard) + (if old(dashboardAttached) then [DataFetcher.SymbolsUpdate(kept)] else []),
          emitted := old(emitted) + Subscriptions(kept, accepts))
    {
      var outcome := AssetsOutcome(data);
      if outcome.None? || outcome.value == [] {
        return;
      }
      var kept := outcome.value;
      UpdateSymbols(kept);
      SubscribeAll(kept, accepts);
    }

    /** The subscription loop of handle_assets: one `try` block per asset. */
    method SubscribeAll(kept: seq<Json>, accepts: DataFetcher.Emit -> bool)
      modifies this
      ensures State() == old(State()).(emitted := old(emitted) + Subscriptions(kept, accepts))
    {
      var i := 0;
      while i < |kept|
        invariant 0 <= i <= |kept|
        invariant symbols == old(symbols) && ticks == old(ticks) && candles == old(candles)
        invariant dashboardAttached == old(dashboardAttached) && dashboard == old(dashboard)
        invariant emitted + Subscriptions(kept[i..], accepts) == old(emitted) + Subscriptions(kept, accepts)
      {
        ghost var before := emitted;
        var sent := Accepted(DataFetcher.AssetSubscriptions(kept[i]), accepts);
        SubscriptionsFrom(kept, i, accepts);
        Subscribe(kept[i], accepts);
        AppendAssociative(before, sent, Subscriptions(kept[i + 1..], accepts));
        i := i + 1;
      }
      assert kept[i..] == [];
    }

    /** One asset's `try` block: ticks, then candles per period, until an emit is rejected. */
    method Subscribe(asset: Json, accepts: DataFetcher.Emit -> bool)
      modifies this
      ensures symbols == old(symbols) && ticks == old(ticks) && candles == old(candles)
      ensures dashboardAttached == old(dashboardAttached) && dashboard == old(dashboard)
      ensures emitted == old(emitted) + Accepted(DataFetcher.AssetSubscriptions(asset), accepts)
    {
      var attempts := DataFetcher.AssetSubscriptions(asset);
      if !accepts(DataFetcher.TicksSubscribe(asset)) {
        AcceptedPrefix(attempts, accepts, 0);
        return;
      }
      emitted := emitted + [DataFetcher.TicksSubscribe(asset)];
      var j := 0;
      while j < |DataFetcher.CandlePeriods|
        invariant 0 <= j <= |DataFetcher.CandlePeriods|
        invariant forall k :: 0 <= k <= j ==> accepts(attempts[k])
        invariant State() == old(State()).(emitted := old(emitted) + attempts[..j + 1])
      {
        var next := DataFetcher.CandlesSubscribe(asset, DataFetcher.CandlePeriods[j]);
        assert attempts[j + 1] == next;
        if !accepts(next) {
          AcceptedPrefix(attempts, accepts, j + 1);
          return;
        }
        assert attempts[..j + 2] == attempts[..j + 1] + [next];
        AppendAssociative(old(emitted), attempts[..j + 1], [next]);
        emitted := emitted + [next];
        j := j + 1;
      }
      AcceptedPrefix(attempts, accepts, 4);
    }

    /**
     * `handle_ticks(data)`: nothing without a truthy asset; otherwise the asset's tick list is
     * created if missing and `{time, price}` appended, unless reading them raises.
     */
    method HandleTicks(data: Json)
      modifies this
      ensures var asset := Get(data, "asset");
        if asset.None? || !Truthy(asset.value) || HashKey(asset.value).None? then State() == old(State())
        else
          var key := HashKey(asset.value).value;
          var time, price := Index(data, "time"), Index(data, "price");
          State() == old(State()).(ticks := old(ticks)[key := DataFetcher.TicksOf(old(ticks), key) +
            (if time.Some? && price.Some? then [DataFetcher.Tick(time.value, price.value)] else [])])
    {
      var asset := Get(data, "asset");
      if asset.None? || !Truthy(asset.value) {
        return;
      }
      var key := HashKey(asset.value);
      if key.None? {
        return;
      }
      ticks := ticks[key.value := DataFetcher.TicksOf(ticks, key.value)];
      var time, price := Index(data, "time"), Index(data, "price");
      if time.Some? && price.Some? {
        ticks := ticks[key.value := ticks[key.value] + [DataFetcher.Tick(time.value, price.value)]];
        assert ticks == old(ticks)[key.value := DataFetcher.TicksOf(old(ticks), key.value) + [DataFetcher.Tick(time.value, price.value)]];
      } else {
        assert DataFetcher.TicksOf(old(ticks), key.value) + [] == DataFetcher.TicksOf(old(ticks), key.value);
      }
    }

    /**
     * `handle_candles(data)`: with a truthy asset and a truthy period the whole payload is
     * appended under [asset]["candles"][period]; containers are created on the way.
     */
    method HandleCandles(data: Json)
      modifies this
      ensures State() == old(State()).(candles := StoreCandle(old(candles), data))
    {
      var asset, period := Get(data, "asset"), Get(data, "period");
      if asset.None? || !(Truthy(asset.value) && Truthy(period.value)) {
        return;
      }
      var key := HashKey(asset.value);
      if key.None? {
        return;
      }
      var byPeriod := if key.value in candles then candles[key.value] else map[];
      candles := candles[key.value := byPeriod];
      var p := HashKey(period.value);
      if p.None? {
        return;
      }
      var buffer := if p.value in byPeriod then byPeriod[p.value] else [];
      candles := candles[key.value := byPeriod[p.value := buffer + [data]]];
    }
  }

  /** The candle store after handle_candles, including the containers setdefault creates before a key fails to hash. */
  function StoreCandle(candles: map<Key, map<Key, seq<Json>>>, data: Json): map<Key, map<Key, seq<Json>>>
  {
    var asset, period := Get(data, "asset"), Get(data, "period");
    if asset.None? || !(Truthy(asset.value) && Truthy(period.value)) || HashKey(asset.value).None? then candles
    else
      var key := HashKey(asset.value).value;
      var byPeriod := if key in candles then candles[key] else map[];
      match HashKey(period.value)
      case None => candles[key := byPeriod]
      case Some(p) => candles[key := byPeriod[p := (if p in byPeriod then byPeriod[p] else []) + [data]]]
  }

  /** The buffer for (asset, period), empty when absent. */
  function BufferOf(candles: map<Key, map<Key, seq<Json>>>, asset: Key, period: Key): seq<Json>
  {
    if asset in candles && period in candles[asset] then candles[asset][period] else []
  }

  /**
   * A payload is stored only under a truthy asset and a truthy period: then the whole payload
   * is appended to that buffer and every other buffer keeps its contents; otherwise nothing
   * changes.
   */
  lemma StoreCandleEffect(candles: map<Key, map<Key, seq<Json>>>, data: Json)
    ensures (Get(data, "asset").None? || !Truthy(Get(data, "asset").value) || !Truthy(Get(data, "period").value))
      ==> StoreCandle(candles, data) == candles
    ensures (data.JObj? && Truthy(Get(data, "asset").value) && Truthy(Get(data, "period").value)
      && HashKey(Get(data, "asset").value).Some? && HashKey(Get(data, "period").value).Some?) ==>
        var a, p := HashKey(Get(data, "asset").value).value, HashKey(Get(data, "period").value).value;
        && BufferOf(StoreCandle(candles, data), a, p) == BufferOf(candles, a, p) + [data]
        && forall a', p' :: (a', p') != (a, p) ==> BufferOf(StoreCandle(candles, data), a', p') == BufferOf(candles, a', p')
  {
  }
}
