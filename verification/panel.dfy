/**
 * The modal-submit handler `handleModal` of `src/panel.ts`: normalising
 * the price and watch forms, starting the watch, and the refresh interval
 * that stops itself once the requested minutes have elapsed.
 */
module Panel {

  import opened Wrappers
  import opened Text
  import opened QuoteCache
  import opened Prices

  const PriceDefaultQuote: string := "KRW"
  const WatchDefaultQuote: string := "USDT"
  const DefaultMinutes: int := 10
  const DefaultPeriodSec: int := 5
  const MinMinutes: int := 1
  const MaxMinutes: int := 60
  const MinPeriodSec: int := 2
  const MaxPeriodSec: int := 60

  /**
   * `.trim().toUpperCase()` of the symbol field: the characters typed
   * between the leading and the trailing white space, upper-cased.
   */
  function NormalizeSymbol(raw: string): (base: string)
    ensures Upper(base) == base
    ensures base == [] || (!IsSpace(base[0]) && !IsSpace(base[|base| - 1]))
    ensures var i := TrimOffset(raw);
      && i + |base| <= |raw| && base == Upper(raw[i..i + |base|])
      && (forall k :: 0 <= k < i ==> IsSpace(raw[k]))
      && (forall k :: i + |base| <= k < |raw| ==> IsSpace(raw[k]))
    ensures base == [] <==> Trim(raw) == []
  {
    TrimSpec(raw);
    UpperOfTrimmed(Trim(raw), raw);
    Upper(Trim(raw))
  }

  lemma UpperOfTrimmed(t: string, raw: string)
    requires t == Trim(raw)
    ensures Upper(Upper(t)) == Upper(t)
    ensures var u := Upper(t); u == [] || (!IsSpace(u[0]) && !IsSpace(u[|u| - 1]))
  {
    UpperIdempotent(t);
    if t != [] {
      UpperKeepsSpace(t[0]);
      UpperKeepsSpace(t[|t| - 1]);
    }
  }

  /** Normalising a normalised symbol changes nothing. */
  lemma NormalizeSymbolIdempotent(raw: string)
    ensures NormalizeSymbol(NormalizeSymbol(raw)) == NormalizeSymbol(raw)
  {
    var base := NormalizeSymbol(raw);
    TrimStartOfTrimmed(base);
    TrimEndOfTrimmed(base);
  }

  /** The quote field, trimmed and upper-cased; when that leaves it empty, the form's default. */
  function NormalizeQuote(raw: string, default: string): (quote: string)
    ensures Trim(raw) == [] ==> quote == default
    ensures Trim(raw) != [] ==> quote == NormalizeSymbol(raw) && quote != []
  {
    var q := NormalizeSymbol(raw);
    if q == [] then default else q
  }

  /** `Math.max(lo, Math.min(hi, n))` */
  function Clamp(lo: int, hi: int, n: int): (r: int)
    requires lo <= hi
    ensures lo <= r <= hi
    ensures lo <= n <= hi ==> r == n
    ensures n < lo ==> r == lo
    ensures hi < n ==> r == hi
  {
    if n < lo then lo else if hi < n then hi else n
  }

  /** The minutes field: blank means 10; an integer is clamped to [1, 60]. */
  function WatchMinutes(field: Option<int>): (minutes: int)
    ensures MinMinutes <= minutes <= MaxMinutes
    ensures field.None? ==> minutes == DefaultMinutes
    ensures field.Some? && MinMinutes <= field.value <= MaxMinutes ==> minutes == field.value
    ensures field.Some? && field.value < MinMinutes ==> minutes == MinMinutes
    ensures field.Some? && MaxMinutes < field.value ==> minutes == MaxMinutes
  {
    match field
    case None => DefaultMinutes
    case Some(n) => Clamp(MinMinutes, MaxMinutes, n)
  }

  /** The period field in seconds: blank means 5; an integer is clamped to [2, 60]. */
  function WatchPeriodSec(field: Option<int>): (periodSec: int)
    ensures MinPeriodSec <= periodSec <= MaxPeriodSec
    ensures field.None? ==> periodSec == DefaultPeriodSec
    ensures field.Some? && MinPeriodSec <= field.value <= MaxPeriodSec ==> periodSec == field.value
    ensures field.Some? && field.value < MinPeriodSec ==> periodSec == MinPeriodSec
    ensures field.Some? && MaxPeriodSec < field.value ==> periodSec == MaxPeriodSec
  {
    match field
    case None => DefaultPeriodSec
    case Some(n) => Clamp(MinPeriodSec, MaxPeriodSec, n)
  }

  // ---------------------------------------------------------------------
  // The price form
  // ---------------------------------------------------------------------

  /** What the price form replies with: the pair shown and the price or the error, and the state after the lookup. */
  datatype PriceReply = PriceReply(base: string, quote: string, result: Result<real, PriceError>, state: State)

  /** Submitting the price form: one `getPrice` on the normalised symbol and quote, KRW when the quote is blank. */
  function PriceModal(st: State, symField: string, quoteField: string, now: int, fetched: Option<real>): (r: PriceReply)
    ensures r.base == NormalizeSymbol(symField)
    ensures r.quote == NormalizeQuote(quoteField, PriceDefaultQuote)
    ensures Priced(r.result, r.state) == GetPrice(st, r.base, r.quote, now, fetched)
  {
    var base := NormalizeSymbol(symField);
    var quote := NormalizeQuote(quoteField, PriceDefaultQuote);
    var p := GetPrice(st, base, quote, now, fetched);
    PriceReply(base, quote, p.result, p.state)
  }

  // ---------------------------------------------------------------------
  // The watch form and its refresh interval
  // ---------------------------------------------------------------------

  /** Why a watch did not start: the first lookup threw, or posting the first reply failed. */
  datatype WatchFailure = LookupFailed(error: PriceError) | ReplyFailed

  /** A started watch: the pair, the clamped minutes and period, and the first price shown. */
  datatype Watch = Watch(base: string, quote: string, minutes: int, periodSec: int, firstPrice: real)

  datatype WatchStart = WatchStart(result: Result<Watch, WatchFailure>, state: State)

  /**
   * Submitting the watch form: normalise (USDT when the quote is blank,
   * 10 minutes, 5 seconds), look the price up once and post it; only when
   * both succeed is the interval started. `replyOk` is whether posting the
   * reply succeeded.
   */
  function WatchModal(st: State, symField: string, quoteField: string, minutesField: Option<int>, periodField: Option<int>,
                      now: int, fetched: Option<real>, replyOk: bool): (r: WatchStart)
    ensures var first := GetPrice(st, NormalizeSymbol(symField), NormalizeQuote(quoteField, WatchDefaultQuote), now, fetched);
      && r.state == first.state
      && (r.result.Ok? <==> first.result.Ok? && replyOk)
      && (first.result.Err? ==> r.result == Err(LookupFailed(first.result.error)))
      && (r.result.Ok? ==> r.result.value.firstPrice == first.result.value)
    ensures r.result.Ok? ==>
      r.result.value == Watch(NormalizeSymbol(symField), NormalizeQuote(quoteField, WatchDefaultQuote),
                              WatchMinutes(minutesField), WatchPeriodSec(periodField), r.result.value.firstPrice)
  {
    var base := NormalizeSymbol(symField);
    var quote := NormalizeQuote(quoteField, WatchDefaultQuote);
    var minutes := WatchMinutes(minutesField);
    var periodSec := WatchPeriodSec(periodField);
    var first := GetPrice(st, base, quote, now, fetched);
    match first.result
    case Err(e) => WatchStart(Err(LookupFailed(e)), first.state)
    case Ok(p) =>
      if replyOk then WatchStart(Ok(Watch(base, quote, minutes, periodSec, p)), first.state)
      else WatchStart(Err(ReplyFailed), first.state)
  }

  /**
   * How many times the interval callback runs when each run adds `period`
   * to `elapsed` and the interval is cleared at the first run that reaches
   * `limit`.
   */
  function IntervalRuns(elapsed: int, limit: int, period: int): (n: nat)
    requires period > 0
    ensures n >= 1 && elapsed + n * period >= limit
    ensures n == 1 || elapsed + (n - 1) * period < limit
    decreases limit - elapsed
  {
    if elapsed + period >= limit then 1
    else
      var rest := IntervalRuns(elapsed + period, limit, period);
      assert (1 + rest) * period == period + rest * period;
      1 + rest
  }

  /** The number of runs is the ceiling of `minutes * 60 / periodSec`, and for clamped inputs it lies in [1, 1800]. */
  lemma IntervalRunsBounds(minutes: int, periodSec: int)
    requires MinMinutes <= minutes <= MaxMinutes && MinPeriodSec <= periodSec <= MaxPeriodSec
    ensures var n := IntervalRuns(0, minutes * 60, periodSec);
      n == (minutes * 60 + periodSec - 1) / periodSec && 1 <= n <= 1800
  {
    var limit := minutes * 60;
    var n := IntervalRuns(0, limit, periodSec);
    assert (n - 1) * periodSec < limit <= n * periodSec;
    CeilingUnique(limit, periodSec, n);
    MulMonotone(n - 1, 2, periodSec);
  }

  lemma MulMonotone(a: int, b: int, c: int)
    requires a >= 0 && b <= c
    ensures a * b <= a * c
  {
  }

  /** `n` is the ceiling of `limit / period` when `(n - 1) * period < limit <= n * period`. */
  lemma CeilingUnique(limit: int, period: int, n: int)
    requires period > 0 && (n - 1) * period < limit <= n * period
    ensures n == (limit + period - 1) / period
  {
    var x := limit + period - 1;
    var q := x / period;
    assert q * period <= x < (q + 1) * period;
    assert n * period <= x < (n + 1) * period;
    if q < n {
      MulMonotone(period, q + 1, n);
    } else if n < q {
      MulMonotone(period, n + 1, q);
    }
  }

  /** One refresh: the state `getPrice` leaves, whether it returned a price or threw. Keys and streams only grow, and validity is kept. */
  function Refresh(st: State, base: string, quote: string, now: int, fetched: Option<real>): (next: State)
    ensures st.cache.Keys <= next.cache.Keys && st.socket.streams <= next.socket.streams
    ensures Consistent(st) ==> Consistent(next)
  {
    GetPrice(st, base, quote, now, fetched).state
  }

  /** When the `n`-th run fires (counting from 1), in milliseconds: `n` periods after `start`. */
  function RunTime(start: int, periodSec: int, n: nat): int {
    start + n * periodSec * 1000
  }

  /**
   * The state after the first `n` refreshes: run `i` (counting from 0) looks
   * the pair up at `start + (i + 1) * periodSec` seconds with outcome
   * `outcomes(i)`.
   */
  function Refreshes(st: State, base: string, quote: string, periodSec: int, start: int,
                     outcomes: nat -> Option<real>, n: nat): State
  {
    if n == 0 then st
    else
      var before := Refreshes(st, base, quote, periodSec, start, outcomes, n - 1);
      Refresh(before, base, quote, RunTime(start, periodSec, n), outcomes(n - 1))
  }

  /**
   * The refresh interval of a started watch. Run `i` (from 0) fires at
   * `start + (i + 1) * periodSec * 1000` ms and refreshes with `getPrice`,
   * whose request outcome is `outcomes(i)`; whether it succeeds or throws,
   * `elapsed` grows by `periodSec`, and the interval is cleared once
   * `elapsed >= minutes * 60`.
   */
  method RunInterval(st: State, base: string, quote: string, minutes: int, periodSec: int, start: int,
                     outcomes: nat -> Option<real>)
    returns (runs: nat, elapsed: int, last: State)
    requires minutes >= 1 && periodSec >= 1
    ensures runs == IntervalRuns(0, minutes * 60, periodSec)
    ensures elapsed == runs * periodSec
    ensures minutes * 60 <= elapsed < minutes * 60 + periodSec
    ensures last == Refreshes(st, base, quote, periodSec, start, outcomes, runs)
    ensures st.cache.Keys <= last.cache.Keys && st.socket.streams <= last.socket.streams
    ensures Consistent(st) ==> Consistent(last)
  {
    var limit := minutes * 60;
    runs, elapsed, last := 0, 0, st;
    while elapsed < limit
      invariant elapsed == runs * periodSec
      invariant runs == 0 || elapsed - periodSec < limit
      invariant elapsed < limit ==> IntervalRuns(0, limit, periodSec) == runs + IntervalRuns(elapsed, limit, periodSec)
      invariant elapsed >= limit ==> IntervalRuns(0, limit, periodSec) == runs
      invariant last == Refreshes(st, base, quote, periodSec, start, outcomes, runs)
      invariant st.cache.Keys <= last.cache.Keys && st.socket.streams <= last.socket.streams
      invariant Consistent(st) ==> Consistent(last)
      decreases limit - elapsed
    {
      var now := RunTime(start, periodSec, runs + 1);
      last := Refresh(last, base, quote, now, outcomes(runs));
      elapsed := elapsed + periodSec;
      runs := runs + 1;
    }
  }
}
