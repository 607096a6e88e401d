/**
 * The process-wide quote cache of `src/lib/prices.ts`: a map from the
 * string key `BASE:QUOTE` to the last observed price, when it was observed
 * and which feed observed it. Writes replace the whole entry (last write wins);
 * nothing is ever deleted.
 */
module QuoteCache {

  import opened Wrappers
  import opened Text

  const Usdt: string := "USDT"
  const Krw: string := "KRW"
  const Usd: string := "USD"

  /** A cached entry younger than this many milliseconds is served without a request. */
  const FreshMs: int := 7000

  /** The feed that produced an entry; `Tag` is the string the source stores in `src`. */
  datatype Source = BinanceWs | BinanceRest | UpbitRest | DerivedUsd {
    function Tag(): string {
      match this
      case BinanceWs => "binance-ws"
      case BinanceRest => "binance-rest"
      case UpbitRest => "upbit-rest"
      case DerivedUsd => "derived-usd"
    }
  }

  /** `{ price, ts, src }`; `ts` is a `Date.now()` reading in milliseconds. */
  datatype Entry = Entry(price: real, ts: int, src: Source)

  type Cache = map<string, Entry>

  /** The three quotes the resolver knows how to fetch. */
  predicate Supported(quote: string) {
    quote == Usdt || quote == Krw || quote == Usd
  }

  /** The cache key: the base upper-cased, a ':', and the quote as given. */
  function Key(base: string, quote: string): string {
    Upper(base) + ":" + quote
  }

  /** `priceCache.get(key)` */
  function Get(c: Cache, key: string): (r: Option<Entry>)
    ensures r.Some? <==> key in c
    ensures r.Some? ==> c[key] == r.value
  {
    if key in c then Some(c[key]) else None
  }

  /** An entry is fresh when its age at `now` is under the freshness window; an entry from the future counts as fresh. */
  predicate Fresh(e: Entry, now: int) {
    now - e.ts < FreshMs
  }

  /** `k` is the key of some asset quoted in `quote`. */
  predicate IsKeyFor(k: string, quote: string) {
    EndsWith(k, ":" + quote)
  }

  /** The feeds that write each supported quote: the socket and the REST call for USDT, Upbit for KRW, the derivation for USD. */
  predicate MayWrite(quote: string, src: Source) {
    || (quote == Usdt && (src == BinanceWs || src == BinanceRest))
    || (quote == Krw && src == UpbitRest)
    || (quote == Usd && src == DerivedUsd)
  }

  /** The entry under key `k` comes from a feed that writes the quote `k` names. */
  predicate SourceFits(k: string, src: Source) {
    || (IsKeyFor(k, Usdt) && MayWrite(Usdt, src))
    || (IsKeyFor(k, Krw) && MayWrite(Krw, src))
    || (IsKeyFor(k, Usd) && MayWrite(Usd, src))
  }

  /**
   * What every write of the source keeps true of the cache: no key holds a
   * lower-case letter and names one of the three quotes, and each entry's source
   * tag belongs to that quote.
   */
  predicate WellFormed(c: Cache) {
    forall k :: k in c ==> NoLowerLetter(k) && SourceFits(k, c[k].src)
  }

  /** The key is the base upper-cased, a ':', and the quote exactly as given. */
  lemma KeyParts(base: string, quote: string)
    ensures var k := Key(base, quote);
      && |k| == |base| + 1 + |quote|
      && k[..|base|] == Upper(base) && k[|base|] == ':' && k[|base| + 1..] == quote
  {
  }

  /** Moving `a:` from the front of the quote to the end of the base keeps the key, when `a` has no lower-case letter. */
  lemma ColonKey(base: string, a: string, q: string)
    requires NoLowerLetter(a)
    ensures Key(base, a + ":" + q) == Key(base + ":" + a, q)
  {
    var tail := ":" + a;
    assert NoLowerLetter(tail) by {
      assert forall i :: 1 <= i < |tail| ==> tail[i] == a[i - 1];
    }
    UpperOfNoLower(tail);
    assert base + ":" + a == base + tail;
    UpperConcat(base, tail);
  }

  /** The quote can be read back off a key: two keys are equal only for the same upper-cased base and the same quote, as long as neither quote contains ':'. */
  lemma KeyInjective(b1: string, q1: string, b2: string, q2: string)
    requires ':' !in q1 && ':' !in q2
    requires Key(b1, q1) == Key(b2, q2)
    ensures q1 == q2 && Upper(b1) == Upper(b2)
  {
    var k := Key(b1, q1);
    if |q1| < |q2| {
      SeparatorPosition(b1, q1);
      SeparatorPosition(b2, q2);
    } else if |q2| < |q1| {
      SeparatorPosition(b1, q1);
      SeparatorPosition(b2, q2);
    } else {
      assert q1 == k[|k| - |q1|..] == q2;
      assert Upper(b1) == k[..|k| - |q1| - 1] == Upper(b2);
    }
  }

  /** In a key, the ':' just before the quote is the last ':'. */
  lemma SeparatorPosition(base: string, quote: string)
    requires ':' !in quote
    ensures var k := Key(base, quote);
      && k[|k| - |quote| - 1] == ':'
      && forall j :: |k| - |quote| <= j < |k| ==> k[j] != ':'
  {
    var k := Key(base, quote);
    forall j | |k| - |quote| <= j < |k|
      ensures k[j] != ':'
    {
      assert k[j] == quote[j - (|k| - |quote|)];
    }
  }

  /** Keys are case-insensitive in the base and end in the quote; with an upper-case quote, a key has no lower-case letter. */
  lemma KeyShape(base: string, quote: string)
    ensures Key(Upper(base), quote) == Key(base, quote)
    ensures Key(Lower(base), quote) == Key(base, quote)
    ensures IsKeyFor(Key(base, quote), quote)
    ensures NoLowerLetter(quote) ==> NoLowerLetter(Key(base, quote))
  {
    UpperIdempotent(base);
    UpperOfLower(base);
    UpperHasNoLower(base);
    var k := Key(base, quote);
    assert k[|k| - |":" + quote|..] == ":" + quote;
  }

  /** Writing an entry whose source belongs to its quote keeps the cache well formed. */
  lemma PutKeepsWellFormed(c: Cache, base: string, quote: string, e: Entry)
    requires MayWrite(quote, e.src)
    ensures WellFormed(c) ==> WellFormed(c[Key(base, quote) := e])
  {
    KeyShape(base, quote);
  }

  /** One base has a different key for each colon-free quote. */
  lemma QuoteKeysDiffer(base: string, q1: string, q2: string)
    requires ':' !in q1 && ':' !in q2 && q1 != q2
    ensures Key(base, q1) != Key(base, q2)
  {
    if Key(base, q1) == Key(base, q2) {
      KeyInjective(base, q1, base, q2);
    }
  }

  /** Every key for `quote` without lower-case letters is the key of its own prefix. */
  lemma KeyOfPrefix(k: string, quote: string)
    requires NoLowerLetter(k) && IsKeyFor(k, quote)
    ensures k == Key(k[..|k| - |quote| - 1], quote)
  {
    var j := |k| - |quote| - 1;
    var prefix, tail := k[..j], k[j..];
    assert tail == ":" + quote;
    assert k == prefix + tail;
    UpperOfNoLower(prefix);
  }

  /** A key without lower-case letters that ends in `:q` is a key for `q` and no other colon-free quote. */
  lemma KeyNamesItsQuote(k: string, q: string, base: string, quote: string)
    requires NoLowerLetter(k) && IsKeyFor(k, q) && ':' !in q
    requires ':' !in quote && k == Key(base, quote)
    ensures quote == q
  {
    KeyOfPrefix(k, q);
    KeyInjective(k[..|k| - |q| - 1], q, base, quote);
  }

  /** A well-formed cache never holds a key for a quote outside the three supported ones, unless that quote contains ':'. */
  lemma UnsupportedNeverCached(c: Cache, base: string, quote: string)
    requires WellFormed(c)
    requires !Supported(quote) && ':' !in quote
    ensures Key(base, quote) !in c
  {
    var k := Key(base, quote);
    if k in c {
      assert NoLowerLetter(k) && SourceFits(k, c[k].src);
      if IsKeyFor(k, Usdt) {
        KeyNamesItsQuote(k, Usdt, base, quote);
      } else if IsKeyFor(k, Krw) {
        KeyNamesItsQuote(k, Krw, base, quote);
      } else {
        KeyNamesItsQuote(k, Usd, base, quote);
      }
    }
  }
}
