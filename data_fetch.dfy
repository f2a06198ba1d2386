/**
 * The fetch node (agent/nodes/data_fetch.py): drops the special "GREETING"
 * ticker and asks a default `MarketDataTool` for the remaining ones.
 */
module DataFetch {
  import opened Wrappers
  import opened PyData
  import opened Models
  import opened AgentState
  import opened MarketData

  const NoQueryError: string := "No parsed query found."
  const Greeting: string := "GREETING"

  /** `[t for t in tickers if t != "GREETING"]`. */
  function ValidTickers(tickers: seq<string>): (r: seq<string>)
    ensures forall t :: t in r <==> t in tickers && t != Greeting
    ensures |r| <= |tickers|
  {
    if tickers == [] then []
    else (if tickers[0] == Greeting then [] else [tickers[0]]) + ValidTickers(tickers[1..])
  }

  /** The filter keeps order: it distributes over concatenation. */
  lemma {:induction false} ValidTickersAppend(a: seq<string>, b: seq<string>)
    ensures ValidTickers(a + b) == ValidTickers(a) + ValidTickers(b)
  {
    if a != [] {
      assert (a + b)[1..] == a[1..] + b;
      ValidTickersAppend(a[1..], b);
    } else {
      assert a + b == b;
    }
  }

  /** Without "GREETING" nothing is dropped. */
  lemma {:induction false} ValidTickersNoGreeting(tickers: seq<string>)
    requires Greeting !in tickers
    ensures ValidTickers(tickers) == tickers
  {
    if tickers != [] {
      ValidTickersNoGreeting(tickers[1..]);
      assert tickers == [tickers[0]] + tickers[1..];
    }
  }

  /**
   * `fetch_data`: an error without a parsed query, `{}` for an empty or
   * all-"GREETING" ticker list, otherwise the tool's data map; each return
   * writes exactly one key.
   */
  function FetchData(s: State, feed: Feed): (u: Update)
    ensures Written(u) == {Error} || Written(u) == {FetchedData}
    ensures s.parsedQuery.None? <==> u == Update(error := Some(NoQueryError))
  {
    if s.parsedQuery.None? then Update(error := Some(NoQueryError))
    else
      var tickers := s.parsedQuery.value.tickers;
      if tickers == [] then Update(fetchedData := Some([]))
      else
        var valid := ValidTickers(tickers);
        if valid == [] then Update(fetchedData := Some([]))
        else Update(fetchedData := Some(MarketDataMap(DefaultMaxRetries, feed, valid)))
  }

  /**
   * The fetched map lists the tickers in request order, "GREETING" and
   * repeats dropped: the order in which `normalize_data` meets them.
   */
  lemma FetchedOrder(s: State, feed: Feed)
    requires s.parsedQuery.Some?
    ensures FetchData(s, feed).fetchedData.Some?
    ensures Keys(FetchData(s, feed).fetchedData.value) == Dedup(ValidTickers(s.parsedQuery.value.tickers))
  {
    var valid := ValidTickers(s.parsedQuery.value.tickers);
    if valid != [] {
      MarketDataKeys(DefaultMaxRetries, feed, valid);
    }
  }

  /**
   * The fetched map has exactly one key per distinct non-"GREETING" ticker,
   * each holding that ticker's lookup result.
   */
  lemma FetchedKeys(s: State, feed: Feed, t: string)
    requires s.parsedQuery.Some?
    ensures var data := FetchData(s, feed).fetchedData.value;
      && DistinctKeys(data)
      && (t in Keys(data) <==> t in s.parsedQuery.value.tickers && t != Greeting)
      && (t in Keys(data) ==> Lookup(data, t) == Some(TickerInfo(DefaultMaxRetries, feed, t).info))
  {
    var valid := ValidTickers(s.parsedQuery.value.tickers);
    MarketDataKeys(DefaultMaxRetries, feed, valid);
    if t in valid {
      MarketDataValues(DefaultMaxRetries, feed, valid, t);
    }
  }

  /** `fetch_data` as it runs: a fresh default `MarketDataTool` fetches the valid tickers. */
  method RunFetchData(s: State, feed: Feed) returns (u: Update)
    ensures u == FetchData(s, feed)
  {
    var query := s.parsedQuery;
    if query.None? {
      return Update(error := Some(NoQueryError));
    }
    var tickers := query.value.tickers;
    if tickers == [] {
      return Update(fetchedData := Some([]));
    }
    var valid := ValidTickers(tickers);
    if valid == [] {
      return Update(fetchedData := Some([]));
    }
    var tool := new MarketDataTool();
    var data := tool.GetMarketData(valid, feed);
    return Update(fetchedData := Some(data));
  }
}
