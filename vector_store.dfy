/**
 * The Pinecone store as the nodes see it (agent/tools/vector_store.py is
 * not part of this model): an index is configured or not, an upsert may
 * fail, and a similarity search returns hits or fails.
 */
module VectorStore {

  /** A search hit: the stored text and its metadata. */
  datatype Hit = Hit(pageContent: string, metadata: map<string, string>)

  datatype SearchOutcome = Found(hits: seq<Hit>) | SearchRaised(message: string)

  /** The store as an oracle; `search(query, k)` is `similarity_search(query, k=k)`. */
  datatype Store = Store(hasIndex: bool, upsertRaises: bool, search: (string, nat) -> SearchOutcome)

  /** A search honours its `top_k` when it never returns more than `k` hits. */
  ghost predicate HonoursTopK(store: Store) {
    forall q, k :: store.search(q, k).Found? ==> |store.search(q, k).hits| <= k
  }
}
