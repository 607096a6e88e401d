/**
 * The `BinanceSocket` class of `src/lib/prices.ts` as a record plus event
 * handlers. Each WebSocket the class creates gets a generation number
 * (`current` is the one `this.ws` holds, 0 before the first); the
 * transport's `open`, `close` and `error` events and the reconnect timer
 * firing are inputs, each handled atomically.
 */
module BinanceSocket {

  import opened Wrappers
  import opened Text
  import opened QuoteCache

  /** How long after a close the class waits before reconnecting. */
  const ReconnectDelayMs: int := 1500

  const StreamSuffix: string := "usdt@trade"

  /**
   * `streams`: the subscribed stream names; `connected`: the class's flag;
   * `current`: generation of `this.ws`; `closed`: generations on which
   * `close()` has been called; `reconnectAt`: due time of the pending
   * reconnect timer, if any.
   */
  datatype Socket = Socket(
    streams: set<string>,
    connected: bool,
    current: nat,
    closed: set<nat>,
    reconnectAt: Option<int>)

  const Initial: Socket := Socket({}, false, 0, {}, None)

  /** Every stream name is a lower-case `<symbol>usdt@trade` channel. */
  predicate Valid(s: Socket) {
    forall name :: name in s.streams ==> IsStreamName(name)
  }

  predicate IsStreamName(name: string) {
    Lower(name) == name && EndsWith(name, StreamSuffix)
  }

  /** The trade stream of a symbol: the symbol lower-cased, followed by `usdt@trade`. */
  function StreamName(symbol: string): (name: string)
    ensures IsStreamName(name)
  {
    StreamNameShape(symbol);
    Lower(symbol) + StreamSuffix
  }

  lemma StreamNameShape(symbol: string)
    ensures IsStreamName(Lower(symbol) + StreamSuffix)
  {
    var l := Lower(symbol);
    LowerIdempotent(symbol);
    SuffixIsLower();
    LowerConcat(l, StreamSuffix);
    var name := l + StreamSuffix;
    assert name[|l|..] == StreamSuffix;
  }

  lemma SuffixIsLower()
    ensures Lower(StreamSuffix) == StreamSuffix
  {
    LowerFixesNonUpper(StreamSuffix);
  }

  /** The stream name ignores the case of the symbol, so `BTC` and `btc` share one subscription. */
  lemma StreamNameIgnoresCase(symbol: string)
    ensures StreamName(Upper(symbol)) == StreamName(symbol)
    ensures StreamName(Lower(symbol)) == StreamName(symbol)
  {
    UpperOfLower(symbol);
    LowerIdempotent(symbol);
  }

  /**
   * `connect()`: if the flag says connected, close `this.ws`; then open a
   * new socket on the full stream set. The flag is left as it is.
   */
  function Connect(s: Socket): (r: Socket)
    ensures r.current == s.current + 1
    ensures s.connected ==> r.closed == s.closed + {s.current}
    ensures !s.connected ==> r.closed == s.closed
    ensures r.streams == s.streams && r.connected == s.connected && r.reconnectAt == s.reconnectAt
  {
    s.(current := s.current + 1,
       closed := if s.connected then s.closed + {s.current} else s.closed)
  }

  /** `addSymbol(symbol)`: subscribe once; a stream already present changes nothing. */
  function AddSymbol(s: Socket, symbol: string): (r: Socket)
    ensures r.streams == s.streams + {StreamName(symbol)}
    ensures StreamName(symbol) in s.streams ==> r == s
    ensures StreamName(symbol) !in s.streams ==>
      r.current == s.current + 1 && r.connected == s.connected && r.reconnectAt == s.reconnectAt
    ensures StreamName(symbol) !in s.streams ==>
      r.closed == (if s.connected then s.closed + {s.current} else s.closed)
    ensures Valid(s) ==> Valid(r)
  {
    var name := StreamName(symbol);
    if name in s.streams then s
    else Connect(s.(streams := s.streams + {name}))
  }

  /** The `open` handler: sets the flag whichever socket opened. */
  function OnOpen(s: Socket, generation: nat): (r: Socket)
    ensures r.connected
    ensures r.streams == s.streams && r.current == s.current && r.closed == s.closed
    ensures r.reconnectAt == s.reconnectAt
  {
    s.(connected := true)
  }

  /**
   * The `close` handler, as written: whichever socket closed, clear the
   * flag, cancel any pending timer and schedule exactly one reconnect
   * `ReconnectDelayMs` from now.
   */
  function OnClose(s: Socket, generation: nat, now: int): (r: Socket)
    ensures !r.connected
    ensures r.reconnectAt == Some(now + ReconnectDelayMs)
    ensures r.streams == s.streams && r.current == s.current && r.closed == s.closed
  {
    s.(connected := false, reconnectAt := Some(now + ReconnectDelayMs))
  }

  /** The `error` handler: closes `this.ws`, the current socket, whichever socket erred. */
  function OnError(s: Socket, generation: nat): (r: Socket)
    ensures r.closed == s.closed + {s.current}
    ensures r.streams == s.streams && r.current == s.current && r.connected == s.connected
    ensures r.reconnectAt == s.reconnectAt
  {
    s.(closed := s.closed + {s.current})
  }

  /** The reconnect timer at time `now`: nothing happens before it is due; once due it runs `connect()` exactly once. */
  function FireTimer(s: Socket, now: int): (r: Socket)
    ensures (s.reconnectAt.None? || now < s.reconnectAt.value) ==> r == s
    ensures s.reconnectAt.Some? && s.reconnectAt.value <= now ==>
      && r.reconnectAt.None? && r.current == s.current + 1 && r.streams == s.streams
      && r.connected == s.connected
      && r.closed == (if s.connected then s.closed + {s.current} else s.closed)
  {
    match s.reconnectAt
    case Some(due) =>
      if due <= now then Connect(s.(reconnectAt := None)) else s
    case None => s
  }

  /** A close followed by the timer: no new socket before the delay has passed, exactly one after, and none on a second firing. */
  lemma CloseThenReconnect(s: Socket, generation: nat, closedAt: int, t: int)
    ensures var c := OnClose(s, generation, closedAt);
      && (t < closedAt + ReconnectDelayMs ==> FireTimer(c, t) == c)
      && (closedAt + ReconnectDelayMs <= t ==>
            FireTimer(c, t).current == s.current + 1
            && FireTimer(FireTimer(c, t), t) == FireTimer(c, t))
  {
  }

  /** Subscribing to a symbol a second time changes nothing. */
  lemma AddSymbolIdempotent(s: Socket, symbol: string)
    ensures AddSymbol(AddSymbol(s, symbol), symbol) == AddSymbol(s, symbol)
  {
  }

  /** Two symbols that differ other than in case get two channels. */
  lemma StreamNameInjective(a: string, b: string)
    requires Lower(a) != Lower(b)
    ensures StreamName(a) != StreamName(b)
  {
  }

  /** Subscribing two different symbols from scratch: both channels are in the set and one socket was opened per symbol. */
  lemma TwoSymbols(a: string, b: string)
    requires Lower(a) != Lower(b)
    ensures var s := AddSymbol(AddSymbol(Initial, a), b);
      s.streams == {StreamName(a), StreamName(b)} && s.current == 2
  {
    var na, nb := StreamName(a), StreamName(b);
    StreamNameInjective(a, b);
    FirstSymbol(a);
    var s1 := AddSymbol(Initial, a);
    assert nb !in s1.streams;
    NewSymbol(s1, b);
    assert s1.streams + {nb} == {na, nb};
  }

  lemma NewSymbol(s: Socket, b: string)
    requires StreamName(b) !in s.streams
    ensures var r := AddSymbol(s, b);
      r.streams == s.streams + {StreamName(b)} && r.current == s.current + 1
  {
  }

  lemma FirstSymbol(a: string)
    ensures var s := AddSymbol(Initial, a);
      s.streams == {StreamName(a)} && s.current == 1
  {
  }

  // ---------------------------------------------------------------------
  // Reconnect after a re-subscription
  // ---------------------------------------------------------------------

  /**
   * `addSymbol` has just replaced a connected socket: the previous socket
   * (`current - 1`) was asked to close, the new one has not opened, the
   * flag still says connected and no reconnect is pending.
   */
  predicate Switching(s: Socket) {
    s.current >= 1 && s.current - 1 in s.closed && s.connected && s.reconnectAt.None?
  }

  /** Subscribing a new symbol while connected starts a switch. */
  lemma AddSymbolWhileConnectedSwitches(s: Socket, symbol: string)
    requires s.connected && s.reconnectAt.None?
    requires StreamName(symbol) !in s.streams
    ensures Switching(AddSymbol(s, symbol))
  {
    var r := AddSymbol(s, symbol);
    assert r.current == s.current + 1 && r.closed == s.closed + {s.current};
  }

  /**
   * The events that follow a switch when the old socket's close arrives
   * first: `close` of the old socket at `t`, `open` of the new one, and the
   * reconnect timer when it falls due.
   */
  function SwitchRound(s: Socket, t: int): Socket
    requires s.current >= 1
  {
    FireTimer(OnOpen(OnClose(s, s.current - 1, t), s.current), t + ReconnectDelayMs)
  }

  /**
   * As written, the close of the replaced socket schedules a reconnect,
   * and that reconnect closes the socket that has just opened: the round
   * ends in another switch, with one more socket and no new symbol.
   */
  lemma SwitchRepeats(s: Socket, t: int)
    requires Switching(s)
    ensures Switching(SwitchRound(s, t))
    ensures SwitchRound(s, t).current == s.current + 1
    ensures SwitchRound(s, t).streams == s.streams
  {
  }

  /** `n` rounds back to back, each starting `ReconnectDelayMs` after the previous one. */
  function SwitchRounds(s: Socket, t: int, n: nat): Socket
    requires Switching(s)
    ensures Switching(SwitchRounds(s, t, n))
    decreases n
  {
    SwitchRepeats(s, t);
    if n == 0 then s else SwitchRounds(SwitchRound(s, t), t + ReconnectDelayMs, n - 1)
  }

  /** A single re-subscription makes the as-written socket reconnect without end: after `n` rounds it has opened `n` more sockets for the same streams. */
  lemma {:induction false} SwitchNeverSettles(s: Socket, t: int, n: nat)
    requires Switching(s)
    ensures SwitchRounds(s, t, n).current == s.current + n
    ensures SwitchRounds(s, t, n).streams == s.streams
    decreases n
  {
    if n > 0 {
      SwitchRepeats(s, t);
      SwitchNeverSettles(SwitchRound(s, t), t + ReconnectDelayMs, n - 1);
    }
  }

  /**
   * When the new socket opens before the old one's close arrives, the
   * as-written handler clears the flag although the new socket is open, and
   * the reconnect then replaces that open socket without closing it.
   */
  lemma SwitchLeaksOpenSocket(s: Socket, t: int)
    requires Switching(s) && s.current !in s.closed
    ensures var r := FireTimer(OnClose(OnOpen(s, s.current), s.current - 1, t), t + ReconnectDelayMs);
      r.current == s.current + 1 && s.current !in r.closed
  {
  }

  /** The `close` handler with the evidently intended guard: a close of any socket other than `this.ws` is ignored. */
  function OnCloseCurrent(s: Socket, generation: nat, now: int): (r: Socket)
    ensures generation != s.current ==> r == s
    ensures generation == s.current ==>
      !r.connected && r.reconnectAt == Some(now + ReconnectDelayMs)
      && r.streams == s.streams && r.current == s.current && r.closed == s.closed
  {
    if generation == s.current then OnClose(s, generation, now) else s
  }

  /** With the guard, a switch settles in either order of events: the new socket stays, nothing is scheduled and no further socket is opened. */
  lemma SwitchSettlesWithGuard(s: Socket, t: int, later: int)
    requires Switching(s)
    ensures var r := FireTimer(OnOpen(OnCloseCurrent(s, s.current - 1, t), s.current), later);
      r.connected && r.reconnectAt.None? && r.current == s.current && r.streams == s.streams
    ensures var r := FireTimer(OnCloseCurrent(OnOpen(s, s.current), s.current - 1, t), later);
      r.connected && r.reconnectAt.None? && r.current == s.current && r.streams == s.streams
  {
  }

  // ---------------------------------------------------------------------
  // Inbound ticks
  // ---------------------------------------------------------------------

  /**
   * A decoded trade message: the symbol field `s` (absent if missing or not
   * found under `data`) and `parseFloat(p ?? '0')`, where `None` stands for
   * `NaN` and a missing `p` is `Some(0.0)`.
   */
  datatype Payload = Payload(symbol: Option<string>, price: Option<real>)

  /** The message handler's filter: a non-empty symbol, a price that is neither 0 nor NaN, and a symbol ending in `usdt` once lower-cased. */
  predicate Accepted(m: Payload): (ok: bool)
    ensures ok <==> m.symbol.Some? && m.price.Some? && m.price.value != 0.0 && EndsWith(Lower(m.symbol.value), "usdt")
  {
    && m.symbol.Some? && Lower(m.symbol.value) != []
    && m.price.Some? && m.price.value != 0.0
    && EndsWith(Lower(m.symbol.value), "usdt")
  }

  /** The key a tick is written under: the symbol with its first `usdt` removed, upper-cased, quoted in USDT. */
  function TickKey(m: Payload): (k: string)
    requires m.symbol.Some?
    ensures IsKeyFor(k, Usdt) && NoLowerLetter(k)
    ensures Accepted(m) ==> |k| == |m.symbol.value| + 1
  {
    KeyShape(RemoveFirst(Lower(m.symbol.value), "usdt"), Usdt);
    RemovesOneUsdt(m.symbol.value);
    Key(RemoveFirst(Lower(m.symbol.value), "usdt"), Usdt)
  }

  lemma RemovesOneUsdt(symbol: string)
    ensures EndsWith(Lower(symbol), "usdt") ==> |RemoveFirst(Lower(symbol), "usdt")| == |symbol| - 4
  {
    var lower := Lower(symbol);
    if EndsWith(lower, "usdt") {
      assert OccursAt(lower, "usdt", |lower| - 4);
    }
  }

  /**
   * The `message` handler on a decoded payload: an accepted tick overwrites
   * its key with the price, `now` and `binance-ws`; anything else leaves the
   * cache as it was and raises nothing.
   */
  function OnMessage(c: Cache, m: Payload, now: int): (r: Cache)
    ensures !Accepted(m) ==> r == c
    ensures Accepted(m) ==> Get(r, TickKey(m)) == Some(Entry(m.price.value, now, BinanceWs))
    ensures forall k :: !(Accepted(m) && k == TickKey(m)) ==> Get(r, k) == Get(c, k)
    ensures WellFormed(c) ==> WellFormed(r)
  {
    if Accepted(m) then
      var base := RemoveFirst(Lower(m.symbol.value), "usdt");
      KeyShape(base, Usdt);
      PutKeepsWellFormed(c, base, Usdt, Entry(m.price.value, now, BinanceWs));
      c[Key(base, Usdt) := Entry(m.price.value, now, BinanceWs)]
    else c
  }

  /** The filter only rejects 0 and NaN: a negative trade price is written. */
  lemma NegativePriceAccepted(c: Cache, now: int)
    ensures var m := Payload(Some("BTCUSDT"), Some(-1.0));
      Accepted(m) && Get(OnMessage(c, m, now), TickKey(m)) == Some(Entry(-1.0, now, BinanceWs))
  {
    var lower := Lower("BTCUSDT");
    assert lower == "btcusdt" by {
      assert |lower| == 7;
      assert lower[0] == 'b' && lower[1] == 't' && lower[2] == 'c' && lower[3] == 'u';
      assert lower[4] == 's' && lower[5] == 'd' && lower[6] == 't';
    }
    assert lower[3..] == "usdt";
  }

  /**
   * Only the first `usdt` is removed, not the trailing one: a tick for
   * `usdt` followed by `x` lands under `Key(x, Usdt)` for every `x`, so
   * `usdtbtcusdt` lands under `BTCUSDT:USDT` and not `USDTBTC:USDT`.
   */
  lemma OnlyFirstUsdtRemoved(x: string, price: Option<real>)
    ensures TickKey(Payload(Some("usdt" + x), price)) == Key(x, Usdt)
  {
    var lu := Lower("usdt");
    assert lu == "usdt" by {
      assert |lu| == 4 && lu[0] == 'u' && lu[1] == 's' && lu[2] == 'd' && lu[3] == 't';
    }
    LowerConcat("usdt", x);
    RemoveLeadingUsdt(Lower(x));
    UpperOfLower(x);
  }

  /** A string that starts with `usdt` loses exactly that leading `usdt`. */
  lemma RemoveLeadingUsdt(rest: string)
    ensures RemoveFirst("usdt" + rest, "usdt") == rest
  {
    var s := "usdt" + rest;
    assert OccursAt(s, "usdt", 0);
    assert s[4..] == rest;
  }


  /**
   * An ordinary trade tick for `b`, whose symbol is `b` followed by `USDT`
   * and whose lower-cased base holds no earlier `usdt`, is written under
   * `Key(b, Usdt)`: the key `getPrice(b, 'USDT')` reads.
   */
  lemma TickForBaseLandsUnderItsKey(b: string, p: real)
    requires p != 0.0
    requires forall k :: 0 <= k < |b| ==> !OccursAt(Lower(b) + "usdt", "usdt", k)
    ensures var m := Payload(Some(b + "USDT"), Some(p));
      Accepted(m) && TickKey(m) == Key(b, Usdt)
  {
    var m := Payload(Some(b + "USDT"), Some(p));
    LowerWithUsdt(b);
    RemoveTrailingUsdt(Lower(b));
    assert EndsWith(Lower(b) + "usdt", "usdt");
    UpperOfLower(b);
    assert TickKey(m) == Key(Lower(b), Usdt);
  }

  lemma LowerWithUsdt(b: string)
    ensures Lower(b + "USDT") == Lower(b) + "usdt"
  {
    var lu := Lower("USDT");
    assert lu == "usdt" by {
      assert |lu| == 4 && lu[0] == 'u' && lu[1] == 's' && lu[2] == 'd' && lu[3] == 't';
    }
    LowerConcat(b, "USDT");
  }

  /** With no earlier `usdt`, removing the first one removes the trailing one. */
  lemma RemoveTrailingUsdt(lb: string)
    requires forall k :: 0 <= k < |lb| ==> !OccursAt(lb + "usdt", "usdt", k)
    ensures RemoveFirst(lb + "usdt", "usdt") == lb
  {
    var s := lb + "usdt";
    assert OccursAt(s, "usdt", |lb|);
    assert s[..|lb|] + s[|lb| + 4..] == lb;
  }

}
