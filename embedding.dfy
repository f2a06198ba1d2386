/**
 * The embedding node (agent/nodes/embedding.py): one document per
 * normalised metric, upserted into the vector store when it has an index;
 * the node never changes the state.
 */
module Embedding {
  import opened Wrappers
  import opened Models
  import opened AgentState
  import opened VectorStore

  /** The text of a metrics document, field by field (numbers are not rendered). */
  datatype MetricsText = MetricsText(
    ticker: string, lastUpdated: string, price: Option<real>, currency: string,
    marketCap: Option<real>, peRatio: Option<real>, volume: Option<int>)

  datatype Document = Document(pageContent: MetricsText, metadata: map<string, string>)

  /** The document for one metric, with the metadata used for filtering. */
  function MetricDocument(m: MarketMetrics): (d: Document)
    ensures d.metadata.Keys == {"ticker", "type", "date"}
    ensures d.metadata["ticker"] == m.ticker && d.metadata["type"] == "market_metrics" && d.metadata["date"] == m.lastUpdated
    ensures d.pageContent.ticker == m.ticker && d.pageContent.lastUpdated == m.lastUpdated
  {
    Document(
      MetricsText(m.ticker, m.lastUpdated, m.price, m.currency, m.marketCap, m.peRatio, m.volume),
      map["ticker" := m.ticker, "type" := "market_metrics", "date" := m.lastUpdated])
  }

  /** The documents the loop builds: one per metric, in order. */
  function Documents(metrics: seq<MarketMetrics>): (ds: seq<Document>)
    ensures |ds| == |metrics|
    ensures forall i :: 0 <= i < |metrics| ==> ds[i] == MetricDocument(metrics[i])
  {
    if metrics == [] then []
    else Documents(metrics[..|metrics| - 1]) + [MetricDocument(metrics[|metrics| - 1])]
  }

  /** Building one more document extends the documents of the prefix. */
  lemma DocumentsStep(metrics: seq<MarketMetrics>, i: nat)
    requires i < |metrics|
    ensures Documents(metrics[..i + 1]) == Documents(metrics[..i]) + [MetricDocument(metrics[i])]
  {
    assert metrics[..i + 1][..i] == metrics[..i];
  }

  /**
   * `embed_knowledge`: returns `{}` on every path, together with the
   * documents handed to `upsert_documents` (`None` when no upsert is
   * attempted: no metrics, or no index), and whether that upsert raised.
   * A failing upsert is swallowed: the update is `{}` all the same.
   */
  method EmbedKnowledge(s: State, store: Store) returns (u: Update, upserted: Option<seq<Document>>, upsertFailed: bool)
    ensures u == Empty
    ensures var metrics := s.normalizedMetrics.GetOr([]);
      upserted == if metrics != [] && store.hasIndex then Some(Documents(metrics)) else None
    ensures upsertFailed <==> upserted.Some? && store.upsertRaises
  {
    var metrics := s.normalizedMetrics.GetOr([]);
    if metrics == [] {
      return Empty, None, false;
    }
    var documents: seq<Document> := [];
    for i := 0 to |metrics|
      invariant documents == Documents(metrics[..i])
    {
      DocumentsStep(metrics, i);
      documents := documents + [MetricDocument(metrics[i])];
    }
    assert metrics[..|metrics|] == metrics;
    upserted, upsertFailed := None, false;
    if store.hasIndex {
      // An exception from the upsert is caught and only logged.
      upserted, upsertFailed := Some(documents), store.upsertRaises;
    }
    u := Empty;
  }
}
