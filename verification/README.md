# crypto-price-bot price core, in Dafny

This is a Dafny model of the price core of a Discord bot that quotes crypto prices. The core is `src/lib/prices.ts`:

- **Quote cache.** A process-wide map from `BASE:QUOTE` to `(price, ts, src)`.
- **Binance WebSocket subscriber.** It writes trade ticks into the cache and reconnects 1.5 s after a close.
- **REST fetchers.** Binance serves USDT prices and Upbit serves KRW prices. USD is derived from USDT.
- **`getPrice`.** It serves an entry younger than 7 s from the cache. Otherwise it asks the venue. If the venue fails, it falls back to a stale entry; with no entry, it throws the venue's error.
- **USD/KRW rate.** It has its own 5-minute cache and one of two rate services.
- **`getKimchi`.** It computes the kimchi premium `krw / (usdt * usdkrw) - 1`.

The model also covers the modal handler `handleModal` of `src/panel.ts`. That handler normalises the price and watch forms, clamps the watch minutes and period, and runs the refresh interval, which stops itself.

The model is a functional state machine. `Prices.State` holds the quote cache, the FX cache and the socket record. Every operation is a pure function from a state to a result and a new state. The clock reading `now`, in milliseconds, is a parameter. So is the outcome of each upstream request, as an `Option<real>`: `Some(price)` means a finite number from a successful response. `None` covers a timeout, an HTTP error and a non-finite field. The socket's transport events are also inputs to handler functions: `open`, `close`, `error` and the reconnect timer firing. Prices are `real`s.

Files, one module each:

- `wrappers.dfy` (`Wrappers`): `Option` and `Result`.
- `text.dfy` (`Text`): ASCII `toUpperCase`/`toLowerCase`, `trim`, `endsWith`, and `replace` of the first occurrence.
- `quote_cache.dfy` (`QuoteCache`): entries, source tags, the key, freshness, and the cache invariant `WellFormed`.
- `binance_socket.dfy` (`BinanceSocket`): the socket record, `addSymbol`/`connect`, the event handlers and the tick handler.
- `prices.dfy` (`Prices`): the fetchers, `ensureUSD`, `getPrice`, `getCached`, `fetchUsdKrw`, the premium and `getKimchi`.
- `panel.dfy` (`Panel`): `handleModal`.

Code quirks the model keeps:

- **USD derivation.** `ensureUSD` copies a USDT entry of any age, not only a fresh one.
- **Tick filter.** It drops only a price of 0 or NaN, so negative prices are written. It also drops only the first `usdt` from the symbol.
- **Unsupported quotes.** Such a quote is still looked up in the cache first. It throws `Unsupported quote` only when there is no fresh entry under its key. In a well-formed cache a colon-free unsupported quote always throws (`Prices.UnsupportedAlwaysThrows`). A quote `a:q` reads the key of base `b:a` quoted in `q` (`Prices.ColonQuoteHitsOtherKey`).
- **Kimchi USDT fallback.** In the model the USDT leg fails only when the request fails and no entry exists, so its `getCached` fallback could only find an entry written after the leg read the cache. With atomic steps there is no such write, so the fallback never supplies a price (`Prices.UsdtFailureLeavesNoEntry`). The source can also reject from `addSymbol` while an entry exists; that path is not modelled (see below).
- **Source tags.** The `src` tags of the kimchi result are constants.
- **Worked premium example.** For 121000000 KRW, 90000 USDT and 1344.44 KRW per USD the formula gives about +0.0000033 (`Prices.PremiumExample`).

## Model

| member | source | states |
|---|---|---|
| `Text.Upper` | src/lib/prices.ts:110 | Upper-casing keeps the length and maps every character through the ASCII letter mapping. |
| `Text.UpperIdempotent` | src/lib/prices.ts:110 | Upper-casing twice is upper-casing once, so keys built from an already upper-cased base are unchanged. |
| `Text.UpperOfLower` | src/lib/prices.ts:42-46 | Lowering and then upper-casing a symbol gives the same result as upper-casing it directly, and the reverse holds too. |
| `Text.Lower` | src/lib/prices.ts:20 | Lower-casing keeps the length and maps every character through the ASCII letter mapping. |
| `Text.TrimStart` | src/panel.ts:79 | The result is a suffix of the input. Everything cut off is white space, and the result starts on non-space. |
| `Text.TrimEnd` | src/panel.ts:79 | The result is a prefix of the input. Everything cut off is white space, and the result ends on non-space. |
| `Text.Trim` | src/panel.ts:79 | The result is no longer than the input and starts and ends on non-space. A string that already starts and ends on non-space is returned unchanged. |
| `Text.TrimSpec` | src/panel.ts:79 | `trim` returns a slice of the input with only white space removed on either side, and the slice starts and ends on non-space. |
| `Text.TrimIdempotent` | src/panel.ts:79 | Trimming twice is trimming once. |
| `Text.IndexFrom` | src/lib/prices.ts:46 | Returns the first occurrence of the pattern at or after the start index, or `None` exactly when there is no occurrence. |
| `Text.EndsWithMeansSuffix` | src/lib/prices.ts:45 | `endsWith(suffix)` holds exactly when the string is some string followed by `suffix`. |
| `Text.RemoveFirst` | src/lib/prices.ts:46 | With no occurrence the string is unchanged. Otherwise exactly the first occurrence is cut out, so the result is one pattern shorter. |
| `QuoteCache.Get` | src/lib/prices.ts:112 | A lookup succeeds exactly for keys in the cache and returns the stored entry. |
| `QuoteCache.KeyParts` | src/lib/prices.ts:111 | The key is the upper-cased base, then `:`, then the quote exactly as given. Its length is the sum of the parts plus one. |
| `QuoteCache.KeyInjective` | src/lib/prices.ts:111 | For quotes without `:`, equal keys mean the same quote and the same upper-cased base. So writing one quote of an asset never touches another quote. |
| `QuoteCache.QuoteKeysDiffer` | src/lib/prices.ts:111 | For one base, two different colon-free quotes have different keys. |
| `QuoteCache.KeyShape` | src/lib/prices.ts:110-111 | The key ignores the case of the base and ends in `:` plus the quote. For an upper-case quote the key is itself upper case. |
| `QuoteCache.PutKeepsWellFormed` | src/lib/prices.ts:73 | Writing a supported quote's key with a feed that writes that quote (socket or REST for USDT, Upbit for KRW, derivation for USD) keeps every key free of lower-case letters and every entry's tag matched to its quote. |
| `QuoteCache.UnsupportedNeverCached` | src/lib/prices.ts:110-113 | A well-formed cache holds no key for a quote outside USDT/KRW/USD that contains no `:`. |
| `QuoteCache.ColonKey` | src/lib/prices.ts:111 | For `a` without lower-case letters, base `b` with quote `a:q` and base `b:a` with quote `q` have the same key. |
| `BinanceSocket.StreamName` | src/lib/prices.ts:20 | The stream name is lower case and ends in `usdt@trade`. |
| `BinanceSocket.StreamNameIgnoresCase` | src/lib/prices.ts:20 | `BTC`, `btc` and their upper/lower forms map to one stream. |
| `BinanceSocket.StreamNameInjective` | src/lib/prices.ts:20-21 | Symbols whose lower-case forms differ get different streams, so each case-insensitive symbol has exactly one channel. |
| `BinanceSocket.Connect` | src/lib/prices.ts:26-31 | Opens exactly one new socket. It closes the current one only when the flag says connected, and leaves the flag, the streams and the timer alone. |
| `BinanceSocket.AddSymbol` | src/lib/prices.ts:19-31 | The stream set becomes the old set plus this symbol's stream, so it only grows. An existing stream changes nothing. A new stream opens exactly one socket, closes the current one exactly when the flag says connected, and leaves the flag and timer alone. Valid stream sets stay valid. |
| `BinanceSocket.AddSymbolIdempotent` | src/lib/prices.ts:21 | Adding the same symbol twice is the same as adding it once. |
| `BinanceSocket.TwoSymbols` | src/lib/prices.ts:19-24 | Two symbols that differ beyond case, added to a fresh socket, give both channels and exactly two sockets opened. |
| `BinanceSocket.OnOpen` | src/lib/prices.ts:33-36 | Sets the flag for any socket's `open`, and nothing else changes. |
| `BinanceSocket.OnClose` | src/lib/prices.ts:51-55 | Clears the flag and replaces any pending timer by exactly one reconnect due 1500 ms after the close. Streams and sockets are unchanged. |
| `BinanceSocket.OnError` | src/lib/prices.ts:57-59 | An error on any socket closes the current socket, and nothing else changes. |
| `BinanceSocket.FireTimer` | src/lib/prices.ts:26-31 | Before the due time, or with no timer, nothing happens. Once due, the timer is consumed and exactly one socket is opened; the current socket is closed exactly when the flag says connected, and the flag is kept. |
| `BinanceSocket.CloseThenReconnect` | src/lib/prices.ts:51-55 | After a close, no socket is opened before 1500 ms. Exactly one is opened at or after that time, and a second firing does nothing. |
| `BinanceSocket.AddSymbolWhileConnectedSwitches` | src/lib/prices.ts:19-28 | Subscribing a new symbol while connected closes the old socket and opens a new one, with the flag still set. |
| `BinanceSocket.SwitchRepeats` | src/lib/prices.ts:28-36 | Suppose the old socket's close arrives first, then the new socket's open, then the timer. The socket ends up switching again, one socket further on, with the same streams. |
| `BinanceSocket.SwitchRounds` | src/lib/prices.ts:51-55 | Any number of such rounds leaves the socket still switching. |
| `BinanceSocket.SwitchNeverSettles` | src/lib/prices.ts:51-55 | After `n` rounds with no new symbol, `n` more sockets have been opened for the same streams. |
| `BinanceSocket.SwitchLeaksOpenSocket` | src/lib/prices.ts:28-34 | Suppose the new socket opens before the old one's close arrives. The reconnect then replaces the open socket without ever closing it. |
| `BinanceSocket.OnCloseCurrent` | src/lib/prices.ts:51-55 | A close of a socket other than the current one is ignored. A close of the current one behaves as `OnClose`. |
| `BinanceSocket.SwitchSettlesWithGuard` | src/lib/prices.ts:51-55 | With that guard a switch settles in either event order: connected, no timer pending, and no further socket opened. |
| `BinanceSocket.Accepted` | src/lib/prices.ts:43-45 | A tick is accepted exactly when it has a symbol ending in `usdt` once lower-cased and a price that is neither 0 nor NaN. The separate non-empty check on the symbol is implied by the suffix check. |
| `BinanceSocket.TickKey` | src/lib/prices.ts:46-47 | A tick's key is an upper-case USDT key. For an accepted tick it is one character longer than the symbol: four letters of `usdt` go and `:USDT` is added. |
| `BinanceSocket.OnMessage` | src/lib/prices.ts:38-49 | An accepted tick writes `(price, now, binance-ws)` under the upper-cased symbol minus its first `usdt`, quoted in USDT. Any other payload leaves the cache unchanged, and no other key ever changes. Well-formedness is kept. |
| `BinanceSocket.NegativePriceAccepted` | src/lib/prices.ts:43-44 | A tick with price -1 passes the filter and is written. |
| `BinanceSocket.OnlyFirstUsdtRemoved` | src/lib/prices.ts:46 | Only the first `usdt` of the lower-cased symbol is removed. For every `x`, a tick for `usdt` followed by `x` lands under `Key(x, Usdt)`, so `usdtbtcusdt` lands under `BTCUSDT:USDT` and not under `USDTBTC:USDT`. |
| `BinanceSocket.TickForBaseLandsUnderItsKey` | src/lib/prices.ts:44-47 | A tick for `b` followed by `USDT` with a non-zero price is accepted when the lower-cased `b` has no earlier `usdt`. It is written under `Key(b, Usdt)`, the key that `getPrice(b, 'USDT')` reads. |
| `Prices.FetchBinanceUsdt` | src/lib/prices.ts:65-75 | Returns exactly the request's outcome. On success the USDT key holds `(price, now, binance-rest)`. On failure nothing is written, and no other key ever changes. |
| `Prices.FetchUpbitKrw` | src/lib/prices.ts:80-90 | Returns exactly the request's outcome. On success the KRW key holds `(price, now, upbit-rest)`. On failure nothing is written, and no other key ever changes. |
| `Prices.EnsureUsd` | src/lib/prices.ts:95-104 | If any USDT entry exists, whatever its age, its price is returned and written to USD with `now` and `derived-usd`, without a request. Otherwise, on success both USDT and USD hold the fetched price. On failure nothing changes. Only those two keys are touched. |
| `Prices.WriterOf` | src/lib/prices.ts:73-102 | The tag a successful request writes under a supported quote's own key is one the cache invariant allows for that quote. That is `binance-rest` for USDT, `upbit-rest` for KRW and `derived-usd` for USD. |
| `Prices.Fallback` | src/lib/prices.ts:117-118 | The fetched price wins. Without one, the entry read earlier is used. With neither, the venue's error is returned. |
| `Prices.GetPrice` | src/lib/prices.ts:95-132 | A fresh entry is returned with no change to the state. Otherwise, for a supported quote, a successful venue call returns its price and writes it with the venue's tag. A failed call returns the earlier entry however stale, or throws the venue error, and leaves the cache untouched. For a USD miss an existing USDT entry is left as it was, and a fetched USDT price is stored as `binance-rest`. An unsupported quote throws and changes nothing. Only a USDT miss subscribes the socket. Keys only grow, and a consistent state stays consistent. |
| `Prices.GetCached` | src/lib/prices.ts:134-136 | Returns the entry for the upper-cased base exactly when one exists, at any age. |
| `Prices.GetCachedIgnoresCase` | src/lib/prices.ts:134-136 | Any spelling of the symbol reads the same entry. |
| `Prices.UnsupportedAlwaysThrows` | src/lib/prices.ts:131 | In a consistent state, a quote outside USDT/KRW/USD that contains no `:` always throws `Unsupported quote` and changes nothing. |
| `Prices.ColonQuoteHitsOtherKey` | src/lib/prices.ts:110-113 | For any base `b`, any `a` without lower-case letters and any `q`, the key for `b` in `a:q` is the key for `b:a` in `q`, so a fresh entry stored for the latter is returned for the former with no change. |
| `Prices.SecondCallIsCached` | src/lib/prices.ts:110-113 | After a successful request, a second call within 7 s returns the same result with no request and no change. |
| `Prices.UsdtFailureLeavesNoEntry` | src/lib/prices.ts:183-186 | When the USDT lookup throws, `getCached` finds no USDT entry afterwards. |
| `Prices.FetchUsdKrw` | src/lib/prices.ts:145-174 | A rate younger than 5 minutes is returned with no service asked. Otherwise exactly the service chosen by the API key is asked. Its rate is cached with `now` and returned. A failure throws and keeps the old entry, even a stale one. |
| `Prices.FxIgnoresOtherService` | src/lib/prices.ts:149-170 | The service that is not asked does not affect the outcome. |
| `Prices.FxSourceFor` | src/lib/prices.ts:149-151 | The keyed service is asked exactly when an API key is set, and the open service exactly when it is empty. |
| `Prices.Premium` | src/lib/prices.ts:191 | The premium exists exactly when `usdt * usdkrw` is non-zero. Then `(premium + 1) * usdt * usdkrw == krw`. |
| `Prices.PremiumSign` | src/lib/prices.ts:191 | For a positive converted price, the premium is positive exactly when the KRW price exceeds it, and zero exactly when the two are equal. |
| `Prices.PremiumExample` | src/lib/prices.ts:191 | For 121000000, 90000 and 1344.44 the premium lies strictly between 0 and 0.00001. |
| `Prices.LegsIndependent` | src/lib/prices.ts:180-189 | Running the KRW leg first changes neither the USDT leg's price, nor its USDT entry, nor its socket. Only the two legs' keys change. |
| `Prices.GetKimchi` | src/lib/prices.ts:177-198 | A KRW failure is returned as the KRW error. After that, a USDT failure yields `Binance USDT price unavailable`. When both price legs succeed and the rate lookup fails, the rate leg's own error is returned. When all three legs succeed, the result carries the upper-cased base, their three values, `now`, the constant tags and the premium of those values. Each leg's cache write survives whatever happens to the other legs. |
| `Panel.NormalizeSymbol` | src/panel.ts:79 | The symbol is the characters typed between the leading and trailing white space, upper-cased: everything cut off on either side is white space, and the result starts and ends on non-space. It is empty exactly when the field is blank. |
| `Panel.NormalizeSymbolIdempotent` | src/panel.ts:98 | Normalising twice is normalising once. |
| `Panel.NormalizeQuote` | src/panel.ts:80 | A blank quote becomes the form's default. Any other quote is the field trimmed and upper-cased, and is non-empty. |
| `Panel.Clamp` | src/panel.ts:100-101 | The result lies in `[lo, hi]`. It equals the input inside the range and the nearer bound outside it. |
| `Panel.WatchMinutes` | src/panel.ts:100 | Minutes lie in [1, 60]. A blank field gives 10, and an integer is clamped. |
| `Panel.WatchPeriodSec` | src/panel.ts:101 | The period lies in [2, 60]. A blank field gives 5, and an integer is clamped. |
| `Panel.PriceModal` | src/panel.ts:78-95 | The pair looked up and shown is the normalised symbol and the normalised quote, with KRW for a blank quote. The reply is one `getPrice` on that pair. |
| `Panel.WatchModal` | src/panel.ts:97-123 | The watch starts exactly when the first lookup succeeds and the reply is posted. A lookup failure reports its error. A started watch holds the normalised symbol, the normalised quote with USDT for a blank one, the clamped minutes and period, and the first price. |
| `Panel.IntervalRuns` | src/panel.ts:115-120 | The callback runs at least once. The last run is the first whose accumulated `elapsed` reaches the limit. |
| `Panel.CeilingUnique` | src/panel.ts:119 | A run count `n` with `(n-1)*period < limit <= n*period` is the ceiling of `limit / period`. |
| `Panel.IntervalRunsBounds` | src/panel.ts:119 | For clamped inputs the interval runs ⌈minutes·60/period⌉ times, which lies in [1, 1800]. |
| `Panel.Refresh` | src/panel.ts:117 | One refresh is a `getPrice` on the watched pair whose state is kept whether it returned or threw. Cache keys and streams only grow, and validity is kept. |
| `Panel.RunInterval` | src/panel.ts:112-123 | When each run finishes before the next starts, each run adds the period whether the refresh succeeded or threw, and the loop stops with `minutes*60 <= elapsed < minutes*60 + period` after exactly `IntervalRuns` runs. The final state is that of those runs' refreshes in order (`Refreshes`), run `n` firing `n` periods after the start. Cache keys and streams only grow, and validity is kept. |

## Findings

| source | as written | input that shows it | evidently intended | confidence | as-written member | corrected member |
|---|---|---|---|---|---|---|
| src/lib/prices.ts:51-55 | The `close` handler does not check which socket closed. A close that `connect()` itself requested when replacing a socket also clears the flag and schedules a reconnect. | A connected socket subscribes a new symbol. The old socket's close arrives at `t`, the new socket opens, and the timer fires at `t+1500`. The timer closes the new socket and opens another, and the same events repeat for ever with no new symbol. In the other event order the open socket is leaked (`BinanceSocket.SwitchLeaksOpenSocket`). | Ignore the close of any socket that is no longer `this.ws`, so a re-subscription settles on the new socket. | medium; not executed | `BinanceSocket.SwitchNeverSettles` | `BinanceSocket.SwitchSettlesWithGuard` |

`BinanceSocket.OnClose` is the handler as written. `BinanceSocket.OnCloseCurrent` is the guarded handler. The handlers are driven by transport events given as inputs, so no other operation depends on which close handler is used.

## Left out

- HTTP requests (`axios`), the WebSocket transport, JSON parsing and URL construction, including the combined stream URL. Each request's outcome is an `Option<real>` parameter, and a tick is an already-decoded `(symbol, price)` payload.
- `Date.now()`: each step takes one `now`. In the source, the freshness check and the write after the `await` read the clock at different moments.
- Concurrency: the interleaving of `getPrice` calls, socket ticks and the three `Promise.all` legs. Each step is atomic, so the last-write-wins race between a slow REST response and a newer tick is not represented.
- Prices.GetPrice: on a USDT miss `getPrice` calls `binance.addSymbol` outside its `try` (src/lib/prices.ts:116), so a throw from opening the socket rejects the call even when a stale entry exists. Opening a socket never fails in the model, so this rejection is absent, and the model always falls back to the stale entry.
- Prices.GetKimchi: for the same reason, in the source the USDT leg can reject while an entry exists, and its `.catch` then returns that entry. This path is absent from the model.
- Prices.GetKimchi: when several legs fail, the model reports the KRW error first, then USDT, then the rate. In the source, whichever promise rejects first wins.
- Number semantics: prices are unbounded reals with no floating-point rounding. `parseFloat` returning ±Infinity for a tick is not represented; only NaN is, as `None`.
- Prices.Premium: a zero `usdt * usdkrw` gives `None`. The model does not say which of Infinity, -Infinity or NaN JavaScript would produce.
- Text.Upper: case mapping covers ASCII letters only; JavaScript's full Unicode case mapping is not modelled. Likewise, Text.Trim treats only ASCII white space as space; Unicode spaces are not modelled.
- A tick whose `s` field is not a string makes `toLowerCase` throw inside the handler's `try`, so it is dropped. This case is not modelled because the payload is already decoded.
- The reconnect timer handle: the source keeps it after it fires, while the model drops it. `clearTimeout` on a fired timer has no effect, so nothing observable differs.
- `parseInt` returning NaN for non-numeric or whitespace-only minutes or period fields. Fields are blank or an integer.
- Panel.RunInterval: `setInterval` does not await its async callback, and `elapsed` grows only after the refresh and the message edit finish (src/panel.ts:116-119). When a refresh takes longer than the period, callbacks overlap and more of them start than the model's run count. The model runs callbacks one after another.
- Discord I/O: `deferReply`, the text and embeds of replies, and the edits made on each interval run. Whether the first reply could be posted is an input.
- `ensurePanel` and `handleButton` in `src/panel.ts`: channel permissions and UI builders.
- `src/commands/price.ts` and `src/commands/watch.ts`: slash-command glue. The watch loop in `watch.ts` repeats the panel's interval, which is modelled.
- `src/index.ts`, the client bootstrap, and `src/lib/env.ts`, environment loading. `FX_API_KEY` enters `Prices.FetchUsdKrw` as a parameter.
- `src/lib/util.ts`: number, percentage and time formatting.
