/**
 * The normalisation node (agent/nodes/data_normalization.py): each raw
 * yfinance info dict becomes a `MarketMetrics`; empty entries and entries
 * that fail validation are skipped.
 */
module DataNormalization {
  import opened Wrappers
  import opened PyData
  import opened Models
  import opened AgentState

  /** `info.get('currentPrice') or info.get('regularMarketPrice')`. */
  function PriceSource(info: Object): Json {
    Or(Get(info, "currentPrice"), Get(info, "regularMarketPrice"))
  }

  /** Pydantic accepts every argument built from the info dict `i`. */
  predicate EntryValidates(i: Object) {
    && AsOptFloat(PriceSource(i)).Valid?
    && AsOptFloat(Get(i, "marketCap")).Valid?
    && AsOptFloat(Get(i, "trailingPE")).Valid?
    && AsOptFloat(Get(i, "trailingEps")).Valid?
    && AsOptInt(Get(i, "volume")).Valid?
    && GetDefault(i, "currency", Str("USD")).Str?
    && AsOptFloat(Get(i, "profitMargins")).Valid?
    && AsOptFloat(Get(i, "operatingMargins")).Valid?
  }

  /**
   * One loop iteration: `None` when the entry is skipped (its info is empty
   * or `None`, or pydantic rejects it), else the metric built from it,
   * stamped with the clock reading `now`.
   */
  function EntryMetrics(ticker: string, info: Option<Object>, now: string): (r: Option<MarketMetrics>)
    ensures info.None? || info == Some(map[]) ==> r.None?
    ensures info.Some? && info.value != map[] ==> (r.Some? <==> EntryValidates(info.value))
    ensures r.Some? ==> r.value.ticker == ticker && r.value.lastUpdated == now
    ensures r.Some? ==>
      && r.value.price == AsOptFloat(PriceSource(info.value)).value
      && r.value.marketCap == AsOptFloat(Get(info.value, "marketCap")).value
      && r.value.peRatio == AsOptFloat(Get(info.value, "trailingPE")).value
      && r.value.eps == AsOptFloat(Get(info.value, "trailingEps")).value
      && r.value.volume == AsOptInt(Get(info.value, "volume")).value
      && r.value.profitMargin == AsOptFloat(Get(info.value, "profitMargins")).value
      && r.value.operatingMargin == AsOptFloat(Get(info.value, "operatingMargins")).value
    ensures r.Some? && Truthy(Get(info.value, "currentPrice")) && Get(info.value, "currentPrice").Float? ==>
      r.value.price == Some(Get(info.value, "currentPrice").x)
    ensures r.Some? && !Truthy(Get(info.value, "currentPrice")) && Get(info.value, "regularMarketPrice").Float? ==>
      r.value.price == Some(Get(info.value, "regularMarketPrice").x)
    ensures r.Some? && "currency" !in info.value ==> r.value.currency == "USD"
    ensures r.Some? && "currency" in info.value ==> info.value["currency"] == Str(r.value.currency)
  {
    if info.None? || info.value == map[] then None
    else
      var i := info.value;
      ValidateMetrics(
        ticker, PriceSource(i), Get(i, "marketCap"), Get(i, "trailingPE"), Get(i, "trailingEps"),
        Get(i, "volume"), GetDefault(i, "currency", Str("USD")), now,
        Get(i, "profitMargins"), Get(i, "operatingMargins"))
  }

  /** The metrics of the entries, in iteration order. */
  function Normalized(entries: FetchedMap, now: string): seq<MarketMetrics>
  {
    if entries == [] then []
    else
      var last := entries[|entries| - 1];
      Normalized(entries[..|entries| - 1], now) + (match EntryMetrics(last.0, last.1, now) case Some(m) => [m] case None => [])
  }

  /** A skipped entry only drops itself: the result distributes over concatenation. */
  lemma {:induction false} NormalizedAppend(a: FetchedMap, b: FetchedMap, now: string)
    ensures Normalized(a + b, now) == Normalized(a, now) + Normalized(b, now)
  {
    if b == [] {
      assert a + b == a;
    } else {
      var last := b[|b| - 1];
      assert (a + b)[..|a + b| - 1] == a + b[..|b| - 1];
      NormalizedAppend(a, b[..|b| - 1], now);
    }
  }

  /** At most one metric per entry, each built by `EntryMetrics` from an entry with the same ticker. */
  lemma {:induction false} NormalizedShape(entries: FetchedMap, now: string)
    ensures |Normalized(entries, now)| <= |entries|
    ensures forall j :: 0 <= j < |Normalized(entries, now)| ==>
      exists i :: 0 <= i < |entries| && EntryMetrics(entries[i].0, entries[i].1, now) == Some(Normalized(entries, now)[j])
  {
    if entries != [] {
      var init := entries[..|entries| - 1];
      NormalizedShape(init, now);
      var r := Normalized(entries, now);
      forall j | 0 <= j < |r|
        ensures exists i :: 0 <= i < |entries| && EntryMetrics(entries[i].0, entries[i].1, now) == Some(r[j])
      {
        if j < |Normalized(init, now)| {
          var i :| 0 <= i < |init| && EntryMetrics(init[i].0, init[i].1, now) == Some(Normalized(init, now)[j]);
          assert entries[i] == init[i];
        } else {
          var i := |entries| - 1;
          assert EntryMetrics(entries[i].0, entries[i].1, now) == Some(r[j]);
        }
      }
    }
  }

  /** An entry that validates contributes exactly its metric, in order. */
  lemma NormalizedSingle(ticker: string, info: Option<Object>, now: string)
    ensures Normalized([(ticker, info)], now) == match EntryMetrics(ticker, info, now) case Some(m) => [m] case None => []
  {
    assert [(ticker, info)][..0] == [];
  }

  /** `normalize_data`: the update writes only `normalized_metrics`. */
  function NormalizeUpdate(s: State, now: string): (u: Update)
    ensures Written(u) == {NormalizedMetrics}
    ensures u.normalizedMetrics == Some(Normalized(s.fetchedData.GetOr([]), now))
  {
    if s.fetchedData.None? || s.fetchedData.value == [] then Update(normalizedMetrics := Some([]))
    else Update(normalizedMetrics := Some(Normalized(s.fetchedData.value, now)))
  }

  /** `normalize_data`, looping over `raw_data.items()` and appending to `metrics_list`. */
  method NormalizeData(s: State, now: string) returns (u: Update)
    ensures u == NormalizeUpdate(s, now)
  {
    var rawData := s.fetchedData.GetOr([]);
    if rawData == [] {
      return Update(normalizedMetrics := Some([]));
    }
    var metricsList: seq<MarketMetrics> := [];
    for i := 0 to |rawData|
      invariant metricsList == Normalized(rawData[..i], now)
    {
      var (ticker, info) := rawData[i];
      assert rawData[..i + 1][..i] == rawData[..i];
      if info.None? || info.value == map[] {
        continue;
      }
      var metrics := EntryMetrics(ticker, info, now);
      if metrics.Some? {
        metricsList := metricsList + [metrics.value];
      }
    }
    assert rawData[..|rawData|] == rawData;
    return Update(normalizedMetrics := Some(metricsList));
  }
}
