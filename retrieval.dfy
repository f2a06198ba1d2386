/** The retrieval node (agent/nodes/retrieval.py): a similarity search on the original query. */
module Retrieval {
  import opened Wrappers
  import opened AgentState
  import opened VectorStore

  /** The number of hits asked for. */
  const SearchK: nat := 3

  /** `[d.page_content for d in docs]`. */
  function PageContents(hits: seq<Hit>): (r: seq<string>)
    ensures |r| == |hits|
    ensures forall i :: 0 <= i < |hits| ==> r[i] == hits[i].pageContent
  {
    if hits == [] then [] else [hits[0].pageContent] + PageContents(hits[1..])
  }

  /**
   * `retrieve_context`: `{}` without a parsed query, `[]` without an index
   * or when the search fails, else the texts of the hits for
   * `original_query` with `k = 3`.
   */
  function RetrieveContext(s: State, store: Store): (u: Update)
    ensures s.parsedQuery.None? <==> u == Empty
    ensures s.parsedQuery.Some? ==> Written(u) == {RetrievedDocs}
    ensures s.parsedQuery.Some? && !store.hasIndex ==> u.retrievedDocs == Some([])
    ensures s.parsedQuery.Some? && store.hasIndex ==>
      var outcome := store.search(s.parsedQuery.value.originalQuery, SearchK);
      u.retrievedDocs == Some(if outcome.Found? then PageContents(outcome.hits) else [])
  {
    if s.parsedQuery.None? then Empty
    else if !store.hasIndex then Update(retrievedDocs := Some([]))
    else
      match store.search(s.parsedQuery.value.originalQuery, SearchK)
      case Found(hits) => Update(retrievedDocs := Some(PageContents(hits)))
      case SearchRaised(_) => Update(retrievedDocs := Some([]))
  }

  /** With a store that honours `top_k`, at most three texts are retrieved. */
  lemma RetrievedAtMostK(s: State, store: Store)
    requires HonoursTopK(store)
    requires s.parsedQuery.Some?
    ensures |RetrieveContext(s, store).retrievedDocs.value| <= SearchK
  {
    var outcome := store.search(s.parsedQuery.value.originalQuery, SearchK);
    if store.hasIndex && outcome.Found? {
      assert |outcome.hits| <= SearchK;
    }
  }
}
