/**
 * The yfinance wrapper (agent/tools/market_data.py): a bounded retry loop per
 * ticker and a dictionary with one entry per requested ticker. yfinance
 * itself is an oracle; sleeping is recorded, not timed.
 */
module MarketData {
  import opened Wrappers
  import opened PyData

  /** One read of `yf.Ticker(symbol).info`: it raised, or it returned a dict. */
  datatype FetchOutcome = Raised | Returned(info: Object)

  /** yfinance as an oracle: the outcome of attempt `n` (counting from 0) for a symbol. */
  type Feed = (string, nat) -> FetchOutcome

  /** An attempt succeeds when it returns a dict holding `'symbol'`. */
  predicate Usable(o: FetchOutcome) {
    o.Returned? && "symbol" in o.info
  }

  const DefaultMaxRetries: int := 3
  const DefaultRetryDelay: int := 2

  /** The outcomes of the first `n` attempts for `symbol`. */
  function Outcomes(feed: Feed, symbol: string, n: nat): (os: seq<FetchOutcome>)
    ensures |os| == n
    ensures forall k :: 0 <= k < n ==> os[k] == feed(symbol, k)
  {
    seq(n, k requires 0 <= k < n => feed(symbol, k))
  }

  /** What one `get_ticker_info` call did: its return value, its attempts and its sleeps. */
  datatype Retrieval = Retrieval(info: Option<Object>, attempts: nat, sleeps: nat)

  /**
   * The retry loop entered at attempt `k` (all earlier attempts failed):
   * it stops at the first usable outcome and returns its dict, or returns
   * `{}` after the last attempt; it sleeps after each failure but the last.
   */
  function RetryFrom(os: seq<FetchOutcome>, k: nat): (r: Retrieval)
    requires k < |os|
    ensures k < r.attempts <= |os|
    ensures r.sleeps == r.attempts - 1
    ensures forall j :: k <= j < r.attempts - 1 ==> !Usable(os[j])
    ensures Usable(os[r.attempts - 1]) ==> r.info == Some(os[r.attempts - 1].info)
    ensures !Usable(os[r.attempts - 1]) ==> r.attempts == |os| && r.info == Some(map[])
    decreases |os| - k
  {
    if Usable(os[k]) then Retrieval(Some(os[k].info), k + 1, k)
    else if k == |os| - 1 then Retrieval(Some(map[]), k + 1, k)
    else RetryFrom(os, k + 1)
  }

  /**
   * `get_ticker_info` with `maxRetries` attempts: at most that many
   * attempts, the first usable dict, `{}` when every attempt fails, and
   * Python's implicit `None` when the loop body never runs.
   */
  function TickerInfo(maxRetries: int, feed: Feed, symbol: string): (r: Retrieval)
    ensures maxRetries <= 0 ==> r == Retrieval(None, 0, 0)
    ensures maxRetries > 0 ==> 1 <= r.attempts <= maxRetries && r.sleeps == r.attempts - 1
    ensures forall j :: 0 <= j < r.attempts - 1 ==> !Usable(feed(symbol, j))
    ensures maxRetries > 0 && Usable(feed(symbol, r.attempts - 1)) ==>
      r.info == Some(feed(symbol, r.attempts - 1).info)
    ensures maxRetries > 0 && !Usable(feed(symbol, r.attempts - 1)) ==>
      r.attempts == maxRetries && r.info == Some(map[])
  {
    if maxRetries <= 0 then Retrieval(None, 0, 0)
    else RetryFrom(Outcomes(feed, symbol, maxRetries), 0)
  }

  /** The returned dict is never `None` when at least one attempt is allowed, and holds `'symbol'` unless it is `{}`. */
  lemma TickerInfoShape(maxRetries: int, feed: Feed, symbol: string)
    requires maxRetries > 0
    ensures var r := TickerInfo(maxRetries, feed, symbol);
      r.info.Some? && (r.info.value == map[] || "symbol" in r.info.value)
  {
  }

  /** Iteration order with repeats dropped: the first occurrence of each ticker. */
  function Dedup(s: seq<string>): (d: seq<string>)
    ensures forall t :: t in d <==> t in s
    ensures forall i, j :: 0 <= i < j < |d| ==> d[i] != d[j]
    ensures |d| <= |s|
  {
    if s == [] then []
    else
      var d := Dedup(s[..|s| - 1]);
      assert s == s[..|s| - 1] + [s[|s| - 1]];
      if s[|s| - 1] in d then d else d + [s[|s| - 1]]
  }

  /** `get_market_data(tickers)`: `data_map[t] = get_ticker_info(t)` for each ticker in turn. */
  function MarketDataMap(maxRetries: int, feed: Feed, tickers: seq<string>): Dict<Option<Object>>
  {
    if tickers == [] then []
    else
      var t := tickers[|tickers| - 1];
      Assign(MarketDataMap(maxRetries, feed, tickers[..|tickers| - 1]), t, TickerInfo(maxRetries, feed, t).info)
  }

  /** The map has one key per distinct ticker, in first-occurrence order. */
  lemma {:induction false} MarketDataKeys(maxRetries: int, feed: Feed, tickers: seq<string>)
    ensures Keys(MarketDataMap(maxRetries, feed, tickers)) == Dedup(tickers)
    ensures DistinctKeys(MarketDataMap(maxRetries, feed, tickers))
  {
    if tickers != [] {
      var init, t := tickers[..|tickers| - 1], tickers[|tickers| - 1];
      MarketDataKeys(maxRetries, feed, init);
      AssignDistinct(MarketDataMap(maxRetries, feed, init), t, TickerInfo(maxRetries, feed, t).info);
    }
  }

  /** Each requested ticker maps to its own `get_ticker_info` result. */
  lemma {:induction false} MarketDataValues(maxRetries: int, feed: Feed, tickers: seq<string>, t: string)
    requires t in tickers
    ensures Lookup(MarketDataMap(maxRetries, feed, tickers), t) == Some(TickerInfo(maxRetries, feed, t).info)
  {
    var init, last := tickers[..|tickers| - 1], tickers[|tickers| - 1];
    var prev := MarketDataMap(maxRetries, feed, init);
    var v := TickerInfo(maxRetries, feed, last).info;
    assert MarketDataMap(maxRetries, feed, tickers) == Assign(prev, last, v);
    AssignLookup(prev, last, v, t);
    if t != last {
      assert tickers == init + [last];
      assert t in init;
      MarketDataValues(maxRetries, feed, init, t);
    }
  }

  /** `MarketDataTool`: the retry policy is fixed at construction. */
  class MarketDataTool {
    var maxRetries: int
    var retryDelay: int

    constructor (maxRetries: int := DefaultMaxRetries, retryDelay: int := DefaultRetryDelay)
      ensures this.maxRetries == maxRetries && this.retryDelay == retryDelay
    {
      this.maxRetries := maxRetries;
      this.retryDelay := retryDelay;
    }

    /**
     * `get_ticker_info`: returns the info dict (or `None`), the number of
     * attempts made, and the delays passed to `time.sleep`, in order.
     */
    method GetTickerInfo(symbol: string, feed: Feed) returns (info: Option<Object>, attempts: nat, slept: seq<int>)
      ensures Retrieval(info, attempts, |slept|) == TickerInfo(maxRetries, feed, symbol)
      ensures forall i :: 0 <= i < |slept| ==> slept[i] == retryDelay
    {
      info, attempts, slept := None, 0, [];
      ghost var os := Outcomes(feed, symbol, if maxRetries <= 0 then 0 else maxRetries);
      var attempt := 0;
      while attempt < maxRetries
        invariant 0 <= attempt
        invariant attempt == 0 || attempt < maxRetries
        invariant attempts == attempt == |slept|
        invariant forall i :: 0 <= i < |slept| ==> slept[i] == retryDelay
        invariant maxRetries > 0 ==> TickerInfo(maxRetries, feed, symbol) == RetryFrom(os, attempt)
        invariant info == None
      {
        var outcome := feed(symbol, attempt);
        assert outcome == os[attempt];
        attempts := attempts + 1;
        if Usable(outcome) {
          info := Some(outcome.info);
          return;
        }
        if attempt < maxRetries - 1 {
          slept := slept + [retryDelay];
        } else {
          info := Some(map[]);
          return;
        }
        attempt := attempt + 1;
      }
    }

    /** `get_market_data`: fills `data_map` one ticker at a time. */
    method GetMarketData(tickers: seq<string>, feed: Feed) returns (data: Dict<Option<Object>>)
      ensures data == MarketDataMap(maxRetries, feed, tickers)
    {
      data := [];
      for i := 0 to |tickers|
        invariant data == MarketDataMap(maxRetries, feed, tickers[..i])
      {
        var info, _, _ := GetTickerInfo(tickers[i], feed);
        assert tickers[..i + 1][..i] == tickers[..i];
        data := Assign(data, tickers[i], info);
      }
      assert tickers[..|tickers|] == tickers;
    }
  }
}
