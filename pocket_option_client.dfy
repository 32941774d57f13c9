/**
 * The raw-WebSocket quote client of pocket_option_intergration.py: a `PocketOptionClient`
 * keeps a symbol -> price cache that `_on_message` fills from "42" quote frames and
 * `get_price` reads, and flags for the connection and its reconnect loop.
 */
module PocketOptionIntegration {
  import opened Wrappers
  import opened Json
  import opened Frames

  /**
   * The (symbol, hashed symbol, price) a frame stores, or None when `_on_message` stores
   * nothing: not an event frame, a frame that fails to decode, an event other than "quote", a
   * falsy payload, a missing "symbol" or "price", a price float() rejects or an unhashable symbol.
   */
  function QuoteOf(message: string, loads: string -> Option<Json>, parseText: string -> Option<real>): (r: Option<(Json, Key, real)>)
    ensures r.Some? ==> (IsEventFrame(message) && DecodeFrame(message, loads).Event?
      && DecodeFrame(message, loads).name == JStr("quote") && Truthy(DecodeFrame(message, loads).payload))
    ensures r.Some? ==> var payload := DecodeFrame(message, loads).payload;
      && Index(payload, "symbol") == Some(r.value.0) && HashKey(r.value.0) == Some(r.value.1)
      && Index(payload, "price").Some? && ToFloat(Index(payload, "price").value, parseText) == Some(r.value.2)
  {
    match DecodeFrame(message, loads)
    case Event(name, payload) =>
      if name == JStr("quote") && Truthy(payload) then
        match (Index(payload, "symbol"), Index(payload, "price"))
        case (Some(symbol), Some(price)) =>
          (match (ToFloat(price, parseText), HashKey(symbol))
           case (Some(value), Some(key)) => Some((symbol, key, value))
           case _ => None)
        case _ => None
      else None
    case _ => None
  }

  /** A frame that does not start with "42", or fails to decode, stores nothing. */
  lemma NonEventsStoreNothing(message: string, loads: string -> Option<Json>, parseText: string -> Option<real>)
    requires !IsEventFrame(message) || DecodeFrame(message, loads).Malformed?
    ensures QuoteOf(message, loads, parseText).None?
  {
  }

  /** Any event but "quote" stores nothing. */
  lemma OtherEventsStoreNothing(message: string, loads: string -> Option<Json>, parseText: string -> Option<real>)
    requires DecodeFrame(message, loads).Event? && DecodeFrame(message, loads).name != JStr("quote")
    ensures QuoteOf(message, loads, parseText).None?
  {
  }

  /** A one-element body has no payload, so it never stores a quote. */
  lemma BareEventStoresNothing(message: string, loads: string -> Option<Json>, parseText: string -> Option<real>, name: Json)
    requires IsEventFrame(message) && loads(message[2..]) == Some(JArr([name]))
    ensures QuoteOf(message, loads, parseText).None?
  {
    DecodeEventArray(message, loads, [name]);
  }

  /** A well-formed quote frame stores its symbol with the float of its price. */
  lemma QuoteFrameStores(message: string, loads: string -> Option<Json>, parseText: string -> Option<real>,
                         symbol: string, price: real, rest: seq<(string, Json)>)
    requires IsEventFrame(message)
    requires loads(message[2..]) == Some(JArr([JStr("quote"), JObj([("symbol", JStr(symbol)), ("price", JNum(price))] + rest)]))
    requires forall i :: 0 <= i < |rest| ==> rest[i].0 != "symbol" && rest[i].0 != "price"
    ensures QuoteOf(message, loads, parseText) == Some((JStr(symbol), KStr(symbol), price))
  {
    var members := [("symbol", JStr(symbol)), ("price", JNum(price))] + rest;
    DecodeEventArray(message, loads, [JStr("quote"), JObj(members)]);
    assert Lookup(members, "symbol") == Some(JStr(symbol)) by { LookupUnique(members, "symbol", 0); }
    assert Lookup(members, "price") == Some(JNum(price)) by { LookupUnique(members, "price", 1); }
  }

  /** A key that occurs once, at position i, looks up to the value there. */
  lemma {:induction false} LookupUnique(members: seq<(string, Json)>, key: string, i: nat)
    requires i < |members| && members[i].0 == key
    requires forall j :: 0 <= j < |members| && j != i ==> members[j].0 != key
    ensures Lookup(members, key) == Some(members[i].1)
    decreases |members|
  {
    var last := |members| - 1;
    if i != last {
      var front := members[..last];
      assert forall j :: 0 <= j < |front| ==> front[j] == members[j];
      LookupUnique(front, key, i);
    }
  }

  datatype ClientState = ClientState(
    connected: bool, keepRunning: bool, quotes: map<Key, real>, callbacks: seq<(Json, real)>, sent: seq<Json>)

  /** The auth payload `_on_open` sends (as a decoded value: json.dumps is not modelled). */
  function AuthPayload(email: string, password: string): Json
  {
    JObj([("cmd", JStr("auth")), ("email", JStr(email)), ("password", JStr(password))])
  }

  class PocketOptionClient {
    const email: string
    const password: string
    /** Whether an `on_quote` callback was given. */
    const hasOnQuote: bool
    var connected: bool
    var keepRunning: bool
    var quotes: map<Key, real>
    /** The `on_quote(symbol, price)` calls made so far. */
    var callbacks: seq<(Json, real)>
    /** What `_on_open` sent over the socket. */
    var sent: seq<Json>

    function State(): ClientState
      reads this
    {
      ClientState(connected, keepRunning, quotes, callbacks, sent)
    }

    constructor (email: string, password: string, hasOnQuote: bool)
      ensures State() == ClientState(false, false, map[], [], [])
      ensures this.email == email && this.password == password && this.hasOnQuote == hasOnQuote
    {
      this.email, this.password, this.hasOnQuote := email, password, hasOnQuote;
      connected, keepRunning, quotes, callbacks, sent := false, false, map[], [], [];
    }

    /** `_on_open`: mark connected and send the auth payload (the heartbeat thread is not modelled). */
    method OnOpen()
      modifies this
      ensures State() == old(State()).(connected := true, sent := old(sent) + [AuthPayload(email, password)])
    {
      connected := true;
      sent := sent + [AuthPayload(email, password)];
    }

    /** `_on_close`. */
    method OnClose()
      modifies this
      ensures State() == old(State()).(connected := false)
    {
      connected := false;
    }

    /** `_on_error`. */
    method OnError()
      modifies this
      ensures State() == old(State()).(connected := false)
    {
      connected := false;
    }

    /** `connect`: start the reconnect loop (the loop's thread is not modelled). */
    method Connect()
      modifies this
      ensures State() == old(State()).(keepRunning := true)
    {
      keepRunning := true;
    }

    /** `stop`: end the reconnect loop (closing the socket is not modelled). */
    method Stop()
      modifies this
      ensures State() == old(State()).(keepRunning := false)
    {
      keepRunning := false;
    }

    /**
     * `_on_message(ws, message)`: a stored quote replaces that symbol's price, leaves every
     * other entry as it was, and is passed once to `on_quote` when one is set; otherwise
     * nothing changes.
     */
    method OnMessage(message: string, loads: string -> Option<Json>, parseText: string -> Option<real>)
      modifies this
      ensures QuoteOf(message, loads, parseText).None? ==> State() == old(State())
      ensures QuoteOf(message, loads, parseText).Some? ==>
        var (symbol, key, price) := QuoteOf(message, loads, parseText).value;
        State() == old(State()).(quotes := old(quotes)[key := price],
          callbacks := old(callbacks) + if hasOnQuote then [(symbol, price)] else [])
      ensures quotes == QuotesAfter(old(quotes), Stored([message], loads, parseText))
    {
      if !(|message| >= 2 && message[..2] == "42") {
        return;
      }
      var frame := DecodeFrame(message, loads);
      if !frame.Event? || !(frame.name == JStr("quote") && Truthy(frame.payload)) {
        return;
      }
      var symbol, price := Index(frame.payload, "symbol"), Index(frame.payload, "price");
      if symbol.None? || price.None? {
        return;
      }
      var value := ToFloat(price.value, parseText);
      if value.None? {
        return;
      }
      var key := HashKey(symbol.value);
      if key.None? {
        return;
      }
      quotes := quotes[key.value := value.value];
      if hasOnQuote {
        callbacks := callbacks + [(symbol.value, value.value)];
      }
    }

    /** `get_price(symbol)`: the cached price, or None when none was stored. */
    method GetPrice(symbol: string) returns (r: Option<real>)
      ensures r == CachedPrice(quotes, symbol)
    {
      r := if KStr(symbol) in quotes then Some(quotes[KStr(symbol)]) else None;
    }
  }

  /** `quotes.get(symbol)`. */
  function CachedPrice(quotes: map<Key, real>, symbol: string): (r: Option<real>)
    ensures r.Some? <==> KStr(symbol) in quotes
  {
    if KStr(symbol) in quotes then Some(quotes[KStr(symbol)]) else None
  }

  /** What each frame stores, in arrival order. */
  function Stored(messages: seq<string>, loads: string -> Option<Json>, parseText: string -> Option<real>): (r: seq<Option<(Json, Key, real)>>)
    ensures |r| == |messages|
    ensures forall i :: 0 <= i < |messages| ==> r[i] == QuoteOf(messages[i], loads, parseText)
  {
    seq(|messages|, i requires 0 <= i < |messages| => QuoteOf(messages[i], loads, parseText))
  }

  /** The position of the last entry that stores a quote under `key`. */
  function LastQuote(stored: seq<Option<(Json, Key, real)>>, key: Key): (r: Option<nat>)
    ensures r.Some? ==> (r.value < |stored| && stored[r.value].Some? && stored[r.value].value.1 == key
      && forall j :: r.value < j < |stored| ==> !(stored[j].Some? && stored[j].value.1 == key))
    ensures r.None? ==> forall j :: 0 <= j < |stored| ==> !(stored[j].Some? && stored[j].value.1 == key)
  {
    if stored == [] then None
    else
      var last := stored[|stored| - 1];
      if last.Some? && last.value.1 == key then Some(|stored| - 1)
      else
        var front := stored[..|stored| - 1];
        assert forall j :: 0 <= j < |front| ==> front[j] == stored[j];
        LastQuote(front, key)
  }

  /**
   * The cache after frames that store `stored`, in arrival order: each stored quote replaces
   * its symbol's price, as `_on_message` does.
   */
  function QuotesAfter(quotes: map<Key, real>, stored: seq<Option<(Json, Key, real)>>): map<Key, real>
  {
    if stored == [] then quotes
    else
      var before := QuotesAfter(quotes, stored[..|stored| - 1]);
      match stored[|stored| - 1]
      case None => before
      case Some((_, key, price)) => before[key := price]
  }

  /**
   * `get_price(s)` after a run of frames is the price of the last frame that stored a quote
   * for `s`; frames for other symbols do not matter; with no such frame it is what it was before.
   */
  lemma {:induction false} GetPriceIsLastQuote(quotes: map<Key, real>, stored: seq<Option<(Json, Key, real)>>, symbol: string)
    ensures CachedPrice(QuotesAfter(quotes, stored), symbol) ==
      match LastQuote(stored, KStr(symbol))
      case None => CachedPrice(quotes, symbol)
      case Some(i) => Some(stored[i].value.2)
  {
    if stored != [] {
      GetPriceIsLastQuote(quotes, stored[..|stored| - 1], symbol);
    }
  }
}
