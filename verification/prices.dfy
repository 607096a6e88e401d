/**
 * The public read path of `src/lib/prices.ts`: the REST fetchers and
 * their write-through to the quote cache, the USD derivation, `getPrice`
 * with its freshness window and stale fallback, `getCached`, the USD/KRW
 * rate with its own five-minute cache, and the kimchi premium.
 *
 * Every operation is one atomic step on `State`. The clock reading `now`
 * and the outcome of the one upstream request a step may make are
 * parameters: `Some(price)` for a finite number parsed from a 2xx
 * response, `None` for a timeout, an HTTP error or a non-finite field.
 */
module Prices {

  import opened Wrappers
  import opened Text
  import opened QuoteCache
  import opened BinanceSocket

  /** The USD/KRW rate cache entry. */
  datatype FxEntry = FxEntry(rate: real, ts: int)

  /** The module's mutable state: the quote cache, the FX cache and the Binance socket. */
  datatype State = State(cache: Cache, fx: Option<FxEntry>, socket: Socket)

  const Start: State := State(map[], None, Initial)

  predicate Consistent(st: State) {
    WellFormed(st.cache) && BinanceSocket.Valid(st.socket)
  }

  /** The errors `getPrice` throws, with their messages. */
  datatype PriceError = BinanceFetchFailed | UpbitFetchFailed | UsdFetchFailed | UnsupportedQuote {
    function Message(): string {
      match this
      case BinanceFetchFailed => "Binance price fetch failed"
      case UpbitFetchFailed => "Upbit price fetch failed"
      case UsdFetchFailed => "USD price fetch failed"
      case UnsupportedQuote => "Unsupported quote"
    }
  }

  /** The venue error `getPrice` throws for a supported quote. */
  function VenueError(quote: string): PriceError {
    if quote == Usdt then BinanceFetchFailed
    else if quote == Krw then UpbitFetchFailed
    else UsdFetchFailed
  }

  /** The feed that writes a supported quote after a successful request. */
  function WriterOf(quote: string): (src: Source)
    ensures Supported(quote) ==> MayWrite(quote, src)
  {
    if quote == Usdt then BinanceRest
    else if quote == Krw then UpbitRest
    else DerivedUsd
  }

  /** A fetcher's outcome: the price it returned (or `None` if it threw) and the cache after it. */
  datatype Fetched = Fetched(price: Option<real>, cache: Cache)

  /** The outcome of `getPrice`: the price or the thrown error, and the state after the call. */
  datatype Priced = Priced(result: Result<real, PriceError>, state: State)

  /** `c` and `d` agree on every key but `changed`. */
  ghost predicate SameExcept(c: Cache, d: Cache, changed: set<string>) {
    forall k :: k !in changed ==> Get(c, k) == Get(d, k)
  }

  // ---------------------------------------------------------------------
  // Fetchers
  // ---------------------------------------------------------------------

  /** `fetchBinanceUSDT(base)` given the request's outcome. */
  function FetchBinanceUsdt(c: Cache, base: string, now: int, fetched: Option<real>): (r: Fetched)
    ensures r.price == fetched
    ensures fetched.Some? ==> Get(r.cache, Key(base, Usdt)) == Some(Entry(fetched.value, now, BinanceRest))
    ensures fetched.None? ==> r.cache == c
    ensures SameExcept(c, r.cache, {Key(base, Usdt)})
    ensures WellFormed(c) ==> WellFormed(r.cache)
  {
    match fetched
    case Some(p) =>
      var e := Entry(p, now, BinanceRest);
      PutKeepsWellFormed(c, base, Usdt, e);
      Fetched(Some(p), c[Key(base, Usdt) := e])
    case None => Fetched(None, c)
  }

  /** `fetchUpbitKRW(base)` given the request's outcome. */
  function FetchUpbitKrw(c: Cache, base: string, now: int, fetched: Option<real>): (r: Fetched)
    ensures r.price == fetched
    ensures fetched.Some? ==> Get(r.cache, Key(base, Krw)) == Some(Entry(fetched.value, now, UpbitRest))
    ensures fetched.None? ==> r.cache == c
    ensures SameExcept(c, r.cache, {Key(base, Krw)})
    ensures WellFormed(c) ==> WellFormed(r.cache)
  {
    match fetched
    case Some(p) =>
      var e := Entry(p, now, UpbitRest);
      PutKeepsWellFormed(c, base, Krw, e);
      Fetched(Some(p), c[Key(base, Krw) := e])
    case None => Fetched(None, c)
  }

  /**
   * `ensureUSD(base)`: USD is USDT. Any USDT entry, however old, is copied to
   * the USD key without a request; otherwise one USDT request is made and on
   * success both keys receive its price.
   */
  function EnsureUsd(c: Cache, base: string, now: int, fetched: Option<real>): (r: Fetched)
    ensures Key(base, Usdt) in c ==>
      && r.price == Some(c[Key(base, Usdt)].price)
      && r.cache == c[Key(base, Usd) := Entry(c[Key(base, Usdt)].price, now, DerivedUsd)]
      && Get(r.cache, Key(base, Usdt)) == Get(c, Key(base, Usdt))
    ensures Key(base, Usdt) !in c && fetched.Some? ==>
      && r.price == fetched
      && Get(r.cache, Key(base, Usdt)) == Some(Entry(fetched.value, now, BinanceRest))
      && Get(r.cache, Key(base, Usd)) == Some(Entry(fetched.value, now, DerivedUsd))
    ensures Key(base, Usdt) !in c && fetched.None? ==> r == Fetched(None, c)
    ensures SameExcept(c, r.cache, {Key(base, Usdt), Key(base, Usd)})
    ensures WellFormed(c) ==> WellFormed(r.cache)
  {
    QuoteKeysDiffer(base, Usd, Usdt);
    match Get(c, Key(base, Usdt))
    case Some(usdt) =>
      var e := Entry(usdt.price, now, DerivedUsd);
      PutKeepsWellFormed(c, base, Usd, e);
      Fetched(Some(usdt.price), c[Key(base, Usd) := e])
    case None =>
      var f := FetchBinanceUsdt(c, base, now, fetched);
      match f.price
      case Some(p) =>
        var e := Entry(p, now, DerivedUsd);
        PutKeepsWellFormed(f.cache, base, Usd, e);
        Fetched(Some(p), f.cache[Key(base, Usd) := e])
      case None => f
  }

  // ---------------------------------------------------------------------
  // getPrice / getCached
  // ---------------------------------------------------------------------

  /** The entry for `(base, quote)` exists and is within the freshness window at `now`. */
  predicate FreshHit(c: Cache, base: string, quote: string, now: int) {
    Key(base, quote) in c && Fresh(c[Key(base, quote)], now)
  }

  /** Whether the venue call made by a cache miss succeeds: for USD, an existing USDT entry counts as success. */
  predicate UpstreamOk(c: Cache, base: string, quote: string, fetched: Option<real>) {
    if quote == Usd then Key(base, Usdt) in c || fetched.Some? else fetched.Some?
  }

  /** The price the venue call returns when it succeeds. */
  function UpstreamPrice(c: Cache, base: string, quote: string, fetched: Option<real>): real
    requires UpstreamOk(c, base, quote, fetched)
  {
    if quote == Usd && Key(base, Usdt) in c then c[Key(base, Usdt)].price else fetched.value
  }

  /**
   * `getPrice(baseRaw, quote)`. A fresh entry is returned with no request
   * and no change at all. Otherwise, for a supported quote, the venue is
   * asked (a USDT miss also subscribes the socket): on success its price is
   * returned and written; on failure the entry read at the start is
   * returned however stale, or the venue error is thrown, and the cache is
   * not touched. Any other quote throws `Unsupported quote`.
   */
  function GetPrice(st: State, baseRaw: string, quote: string, now: int, fetched: Option<real>): (r: Priced)
    ensures FreshHit(st.cache, baseRaw, quote, now) ==>
      r == Priced(Ok(st.cache[Key(baseRaw, quote)].price), st)
    ensures !FreshHit(st.cache, baseRaw, quote, now) && Supported(quote) && UpstreamOk(st.cache, baseRaw, quote, fetched) ==>
      var p := UpstreamPrice(st.cache, baseRaw, quote, fetched);
      r.result == Ok(p) && Get(r.state.cache, Key(baseRaw, quote)) == Some(Entry(p, now, WriterOf(quote)))
    ensures !FreshHit(st.cache, baseRaw, quote, now) && Supported(quote) && !UpstreamOk(st.cache, baseRaw, quote, fetched) ==>
      && r.state.cache == st.cache
      && r.result == (if Key(baseRaw, quote) in st.cache then Ok(st.cache[Key(baseRaw, quote)].price)
                      else Err(VenueError(quote)))
    ensures !FreshHit(st.cache, baseRaw, quote, now) && !Supported(quote) ==>
      r == Priced(Err(UnsupportedQuote), st)
    ensures quote == Usd && !FreshHit(st.cache, baseRaw, quote, now) && Key(baseRaw, Usdt) in st.cache ==>
      Get(r.state.cache, Key(baseRaw, Usdt)) == Get(st.cache, Key(baseRaw, Usdt))
    ensures quote == Usd && !FreshHit(st.cache, baseRaw, quote, now) && Key(baseRaw, Usdt) !in st.cache && fetched.Some? ==>
      Get(r.state.cache, Key(baseRaw, Usdt)) == Some(Entry(fetched.value, now, BinanceRest))
    ensures r.state.socket ==
      (if quote == Usdt && !FreshHit(st.cache, baseRaw, quote, now) then AddSymbol(st.socket, Upper(baseRaw)) else st.socket)
    ensures r.state.fx == st.fx
    ensures SameExcept(st.cache, r.state.cache, {Key(baseRaw, quote), Key(baseRaw, Usdt)})
    ensures quote != Usd ==> SameExcept(st.cache, r.state.cache, {Key(baseRaw, quote)})
    ensures st.cache.Keys <= r.state.cache.Keys
    ensures Consistent(st) ==> Consistent(r.state)
  {
    var base := Upper(baseRaw);
    KeyShape(baseRaw, quote);
    KeyShape(baseRaw, Usdt);
    var key := base + ":" + quote;
    var cached := Get(st.cache, key);
    if cached.Some? && now - cached.value.ts < FreshMs then
      Priced(Ok(cached.value.price), st)
    else if quote == Usdt then
      var socket := AddSymbol(st.socket, base);
      var f := FetchBinanceUsdt(st.cache, base, now, fetched);
      Priced(Fallback(f.price, cached, BinanceFetchFailed), State(f.cache, st.fx, socket))
    else if quote == Krw then
      var f := FetchUpbitKrw(st.cache, base, now, fetched);
      Priced(Fallback(f.price, cached, UpbitFetchFailed), st.(cache := f.cache))
    else if quote == Usd then
      var f := EnsureUsd(st.cache, base, now, fetched);
      Priced(Fallback(f.price, cached, UsdFetchFailed), st.(cache := f.cache))
    else
      Priced(Err(UnsupportedQuote), st)
  }

  /** What a lookup returns after asking the venue: the fetched price, else the entry read before the request, else the venue's error. */
  function Fallback(got: Option<real>, cached: Option<Entry>, error: PriceError): (r: Result<real, PriceError>)
    ensures got.Some? ==> r == Ok(got.value)
    ensures got.None? && cached.Some? ==> r == Ok(cached.value.price)
    ensures got.None? && cached.None? ==> r == Err(error)
  {
    match got
    case Some(p) => Ok(p)
    case None =>
      match cached
      case Some(e) => Ok(e.price)
      case None => Err(error)
  }

  /** `getCached(base, quote)`: the entry for the upper-cased base, whatever its age. */
  function GetCached(st: State, base: string, quote: string): (r: Option<Entry>)
    ensures r.Some? <==> Key(base, quote) in st.cache
    ensures r.Some? ==> r.value == st.cache[Key(base, quote)]
  {
    Get(st.cache, Key(base, quote))
  }

  /** `getCached` upper-cases the base, so any spelling of the symbol finds the same entry, whatever its age. */
  lemma GetCachedIgnoresCase(st: State, base: string, quote: string)
    ensures GetCached(st, base, quote) == GetCached(st, Upper(base), quote)
    ensures GetCached(st, base, quote) == GetCached(st, Lower(base), quote)
  {
    KeyShape(base, quote);
  }

  /** In a well-formed state a quote outside USDT, KRW and USD that contains no ':' always throws `Unsupported quote` and changes nothing. */
  lemma UnsupportedAlwaysThrows(st: State, baseRaw: string, quote: string, now: int, fetched: Option<real>)
    requires Consistent(st)
    requires !Supported(quote) && ':' !in quote
    ensures GetPrice(st, baseRaw, quote, now, fetched) == Priced(Err(UnsupportedQuote), st)
  {
    UnsupportedNeverCached(st.cache, baseRaw, quote);
  }

  /**
   * A quote containing ':' is looked up like any other key: base `b` quoted
   * in `a:q` names the same key as base `b:a` quoted in `q`, so a fresh entry
   * written for the latter is returned for the former.
   */
  lemma ColonQuoteHitsOtherKey(st: State, base: string, a: string, q: string, now: int, fetched: Option<real>)
    requires NoLowerLetter(a)
    ensures Key(base, a + ":" + q) == Key(base + ":" + a, q)
    ensures FreshHit(st.cache, base + ":" + a, q, now) ==>
      GetPrice(st, base, a + ":" + q, now, fetched) == Priced(Ok(st.cache[Key(base + ":" + a, q)].price), st)
  {
    ColonKey(base, a, q);
  }

  /** After a successful request, asking again within the freshness window makes no request, changes nothing and returns the same price. */
  lemma SecondCallIsCached(st: State, baseRaw: string, quote: string, now: int, later: int, f1: Option<real>, f2: Option<real>)
    requires !FreshHit(st.cache, baseRaw, quote, now)
    requires Supported(quote) && UpstreamOk(st.cache, baseRaw, quote, f1)
    requires now <= later < now + FreshMs
    ensures var first := GetPrice(st, baseRaw, quote, now, f1);
      GetPrice(first.state, baseRaw, quote, later, f2) == Priced(first.result, first.state)
  {
    var first := GetPrice(st, baseRaw, quote, now, f1);
    assert FreshHit(first.state.cache, baseRaw, quote, later);
  }

  /** A failed USDT lookup leaves no USDT entry behind, so the `getCached` fallback that follows it finds nothing. */
  lemma UsdtFailureLeavesNoEntry(st: State, baseRaw: string, now: int, fetched: Option<real>)
    ensures GetPrice(st, baseRaw, Usdt, now, fetched).result.Err? ==>
      GetCached(GetPrice(st, baseRaw, Usdt, now, fetched).state, baseRaw, Usdt).None?
  {
  }

  // ---------------------------------------------------------------------
  // USD/KRW rate
  // ---------------------------------------------------------------------

  /** A cached rate younger than five minutes is served without a request. */
  const FxTtlMs: int := 5 * 60000

  /** The two rate services: the keyed ExchangeRate-API v6 endpoint and the open endpoint. */
  datatype FxSource = ExchangeRateApi | OpenErApi

  /** The one error `fetchUsdKrw` throws, whatever went wrong. */
  datatype FxError = FxUnavailable {
    function Message(): string { "USD/KRW \U{D658}\U{C728} \U{C870}\U{D68C} \U{C2E4}\U{D328}" }
  }

  /** The rate lookup's outcome, the FX cache after it and the service it asked, if any. */
  datatype FxFetched = FxFetched(result: Result<real, FxError>, fx: Option<FxEntry>, consulted: Option<FxSource>)

  predicate FxFresh(fx: Option<FxEntry>, now: int) {
    fx.Some? && now - fx.value.ts < FxTtlMs
  }

  /** `FX_API_KEY` set to a non-empty string selects the keyed service. */
  function FxSourceFor(apiKey: string): (src: FxSource)
    ensures src == ExchangeRateApi <==> apiKey != ""
    ensures src == OpenErApi <==> apiKey == ""
  {
    if apiKey != "" then ExchangeRateApi else OpenErApi
  }

  /** The outcome of the service that is asked. */
  function FxOutcome(apiKey: string, keyed: Option<real>, open: Option<real>): Option<real> {
    if FxSourceFor(apiKey) == ExchangeRateApi then keyed else open
  }

  /**
   * `fetchUsdKrw()`: a rate younger than five minutes is returned without a
   * request; otherwise exactly one service is asked, chosen by the API key;
   * its rate is cached with `now` and returned, and any failure throws even
   * when a stale rate is cached.
   */
  function FetchUsdKrw(fx: Option<FxEntry>, now: int, apiKey: string, keyed: Option<real>, open: Option<real>): (r: FxFetched)
    ensures FxFresh(fx, now) ==> r == FxFetched(Ok(fx.value.rate), fx, None)
    ensures !FxFresh(fx, now) ==> r.consulted == Some(FxSourceFor(apiKey))
    ensures !FxFresh(fx, now) && FxOutcome(apiKey, keyed, open).Some? ==>
      var rate := FxOutcome(apiKey, keyed, open).value;
      r.result == Ok(rate) && r.fx == Some(FxEntry(rate, now))
    ensures !FxFresh(fx, now) && FxOutcome(apiKey, keyed, open).None? ==>
      r.result == Err(FxUnavailable) && r.fx == fx
  {
    if fx.Some? && now - fx.value.ts < FxTtlMs then
      FxFetched(Ok(fx.value.rate), fx, None)
    else
      var source := if apiKey != "" then ExchangeRateApi else OpenErApi;
      var got := if apiKey != "" then keyed else open;
      match got
      case Some(rate) => FxFetched(Ok(rate), Some(FxEntry(rate, now)), Some(source))
      case None => FxFetched(Err(FxUnavailable), fx, Some(source))
  }

  /** The service that is not asked has no influence on the outcome. */
  lemma FxIgnoresOtherService(fx: Option<FxEntry>, now: int, apiKey: string, keyed: Option<real>, open: Option<real>, other: Option<real>)
    ensures apiKey != "" ==> FetchUsdKrw(fx, now, apiKey, keyed, open) == FetchUsdKrw(fx, now, apiKey, keyed, other)
    ensures apiKey == "" ==> FetchUsdKrw(fx, now, apiKey, keyed, open) == FetchUsdKrw(fx, now, apiKey, other, open)
  {
  }

  // ---------------------------------------------------------------------
  // Kimchi premium
  // ---------------------------------------------------------------------

  /**
   * `krw / (usdt * usdkrw) - 1` over the reals. `None` stands for the
   * non-finite number the division yields when `usdt * usdkrw` is zero.
   */
  function Premium(krw: real, usdt: real, usdkrw: real): (r: Option<real>)
    ensures r.Some? <==> usdt * usdkrw != 0.0
    ensures r.Some? ==> (r.value + 1.0) * (usdt * usdkrw) == krw
  {
    if usdt * usdkrw == 0.0 then None else Some(krw / (usdt * usdkrw) - 1.0)
  }

  /** With a positive converted price, the premium is positive exactly when the KRW price is above it, and zero exactly when they are equal. */
  lemma PremiumSign(krw: real, usdt: real, usdkrw: real)
    requires usdt * usdkrw > 0.0
    ensures Premium(krw, usdt, usdkrw).Some?
    ensures Premium(krw, usdt, usdkrw).value > 0.0 <==> krw > usdt * usdkrw
    ensures Premium(krw, usdt, usdkrw).value == 0.0 <==> krw == usdt * usdkrw
  {
    var d := usdt * usdkrw;
    var p := Premium(krw, usdt, usdkrw).value;
    assert (p + 1.0) * d == krw;
    if p > 0.0 {
      assert p * d > 0.0;
    }
    if krw > d {
      assert p * d == krw - d;
    }
  }

  /** 121000000 KRW against 90000 USDT at 1344.44 KRW per USD: the premium is just above zero, about 0.0000033. */
  lemma PremiumExample()
    ensures var r := Premium(121000000.0, 90000.0, 1344.44);
      r.Some? && 0.0 < r.value < 0.00001
  {
    assert 90000.0 * 1344.44 == 120999600.0;
    PremiumSign(121000000.0, 90000.0, 1344.44);
  }

  /** The `src` tags `getKimchi` reports. */
  datatype KimchiSources = KimchiSources(krw: string, usdt: string, fx: string)

  /** Constant tags, whichever feed or cache actually supplied each leg. */
  const KimchiTags: KimchiSources := KimchiSources("upbit-rest", "binance", "exchangerate-api")

  /** `getKimchi`'s result object. */
  datatype Kimchi = Kimchi(base: string, krw: real, usdt: real, usdkrw: real, premium: Option<real>, ts: int, src: KimchiSources)

  /** The error `getKimchi` rejects with: the KRW leg's, the USDT leg's, or the rate lookup's. */
  datatype KimchiError = KrwLeg(krwError: PriceError) | UsdtUnavailable | FxLeg(fxError: FxError) {
    function Message(): string {
      match this
      case KrwLeg(e) => e.Message()
      case UsdtUnavailable => "Binance USDT price unavailable"
      case FxLeg(e) => e.Message()
    }
  }

  datatype KimchiOutcome = KimchiOutcome(result: Result<Kimchi, KimchiError>, state: State)

  /**
   * `getKimchi(baseRaw)`. The three legs run to completion one after the
   * other, each on the state the previous one left; a leg's writes stay
   * even when another leg fails. KRW and rate failures are fatal; a USDT
   * failure falls back to the cached USDT entry.
   */
  function GetKimchi(st: State, baseRaw: string, now: int, krwFetch: Option<real>, usdtFetch: Option<real>,
                     apiKey: string, keyed: Option<real>, open: Option<real>): (r: KimchiOutcome)
    ensures var base := Upper(baseRaw);
      var krwLeg := GetPrice(st, base, Krw, now, krwFetch);
      var usdtLeg := GetPrice(st, base, Usdt, now, usdtFetch);
      var fxLeg := FetchUsdKrw(st.fx, now, apiKey, keyed, open);
      && (krwLeg.result.Err? ==> r.result == Err(KrwLeg(krwLeg.result.error)))
      && (krwLeg.result.Ok? && usdtLeg.result.Err? ==> r.result == Err(UsdtUnavailable))
      && (fxLeg.result.Err? ==> r.result.Err?)
      && (krwLeg.result.Ok? && usdtLeg.result.Ok? && fxLeg.result.Err? ==> r.result == Err(FxLeg(fxLeg.result.error)))
      && (krwLeg.result.Ok? && usdtLeg.result.Ok? && fxLeg.result.Ok? ==> r.result.Ok?)
      && (r.result.Ok? ==>
            var q := r.result.value;
            && q.base == base && q.ts == now && q.src == KimchiTags
            && krwLeg.result == Ok(q.krw) && usdtLeg.result == Ok(q.usdt) && fxLeg.result == Ok(q.usdkrw)
            && q.premium == Premium(q.krw, q.usdt, q.usdkrw))
      && Get(r.state.cache, Key(base, Krw)) == Get(krwLeg.state.cache, Key(base, Krw))
      && Get(r.state.cache, Key(base, Usdt)) == Get(usdtLeg.state.cache, Key(base, Usdt))
      && r.state.fx == fxLeg.fx
      && r.state.socket == usdtLeg.state.socket
      && SameExcept(st.cache, r.state.cache, {Key(base, Krw), Key(base, Usdt)})
    ensures Consistent(st) ==> Consistent(r.state)
  {
    var base := Upper(baseRaw);
    var k := GetPrice(st, base, Krw, now, krwFetch);
    var u := GetPrice(k.state, base, Usdt, now, usdtFetch);
    var usdt :=
      match u.result
      case Ok(p) => Some(p)
      case Err(_) =>
        match GetCached(u.state, base, Usdt)
        case Some(e) => Some(e.price)
        case None => None;
    var f := FetchUsdKrw(u.state.fx, now, apiKey, keyed, open);
    var after := u.state.(fx := f.fx);
    LegsIndependent(st, base, now, krwFetch, usdtFetch);
    if k.result.Err? then KimchiOutcome(Err(KrwLeg(k.result.error)), after)
    else if usdt.None? then KimchiOutcome(Err(UsdtUnavailable), after)
    else if f.result.Err? then KimchiOutcome(Err(FxLeg(f.result.error)), after)
    else
      var q := Kimchi(base, k.result.value, usdt.value, f.result.value,
                      Premium(k.result.value, usdt.value, f.result.value), now, KimchiTags);
      KimchiOutcome(Ok(q), after)
  }

  /**
   * The KRW leg neither reads nor writes anything the USDT leg reads, so
   * running the USDT leg after it gives the same price, the same USDT entry
   * and the same socket as running it first.
   */
  lemma LegsIndependent(st: State, base: string, now: int, krwFetch: Option<real>, usdtFetch: Option<real>)
    ensures var k := GetPrice(st, base, Krw, now, krwFetch);
      var alone := GetPrice(st, base, Usdt, now, usdtFetch);
      var after := GetPrice(k.state, base, Usdt, now, usdtFetch);
      && after.result == alone.result
      && after.state.socket == alone.state.socket
      && after.state.fx == st.fx
      && Get(after.state.cache, Key(base, Usdt)) == Get(alone.state.cache, Key(base, Usdt))
      && Get(after.state.cache, Key(base, Krw)) == Get(k.state.cache, Key(base, Krw))
      && SameExcept(st.cache, after.state.cache, {Key(base, Krw), Key(base, Usdt)})
  {
    var k := GetPrice(st, base, Krw, now, krwFetch);
    var after := GetPrice(k.state, base, Usdt, now, usdtFetch);
    QuoteKeysDiffer(base, Krw, Usdt);
    assert Get(k.state.cache, Key(base, Usdt)) == Get(st.cache, Key(base, Usdt));
    assert k.state.socket == st.socket;
    UsdtLegReadsOneEntry(st, k.state, base, now, usdtFetch);
    assert Get(after.state.cache, Key(base, Krw)) == Get(k.state.cache, Key(base, Krw));
    SameExceptCompose(st.cache, k.state.cache, after.state.cache, {Key(base, Krw)}, {Key(base, Usdt)});
  }

  lemma SameExceptCompose(a: Cache, b: Cache, c: Cache, x: set<string>, y: set<string>)
    requires SameExcept(a, b, x) && SameExcept(b, c, y)
    ensures SameExcept(a, c, x + y)
  {
  }

  /** The USDT lookup depends on the state only through the USDT entry and the socket, and writes nothing else. */
  lemma UsdtLegReadsOneEntry(st1: State, st2: State, base: string, now: int, fetched: Option<real>)
    requires Get(st1.cache, Key(base, Usdt)) == Get(st2.cache, Key(base, Usdt))
    requires st1.socket == st2.socket
    ensures var a := GetPrice(st1, base, Usdt, now, fetched);
      var b := GetPrice(st2, base, Usdt, now, fetched);
      && a.result == b.result && a.state.socket == b.state.socket
      && Get(a.state.cache, Key(base, Usdt)) == Get(b.state.cache, Key(base, Usdt))
  {
    var key := Key(base, Usdt);
    if FreshHit(st1.cache, base, Usdt, now) {
      assert FreshHit(st2.cache, base, Usdt, now);
    } else {
      assert !FreshHit(st2.cache, base, Usdt, now);
    }
  }
}
