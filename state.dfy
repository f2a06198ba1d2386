/**
 * The graph state (agent/schemas/state.py): eight keys, all but `messages`
 * optional, none with a reducer, so a node's partial update overwrites the
 * keys it names and leaves the others alone.
 */
module AgentState {
  import opened Wrappers
  import opened PyData
  import opened Models

  /** A conversational turn; only its text is used. */
  datatype Message = Message(content: string)

  /** One block of the markdown report that `generate_response` assembles. */
  datatype Block =
    | Title
    | SummarySection(summary: string)
    | KeyMetricsHeading
    | TableHeader
    | TableSeparator
    | MetricRow(ticker: string, price: Option<real>, marketCap: Option<real>, peRatio: Option<real>, volume: Option<int>)
    | ComparisonSection(comparison: string)
    | RiskFactorsHeading
    | RiskBullet(risk: string)
    | InsightSection(insight: string)
    | DisclaimerWarning(disclaimer: string)

  /** The value of `final_response`: plain text, or the markdown report as its blocks. */
  datatype Response = Text(text: string) | Report(blocks: seq<Block>)

  /** The key names of `AgentState`. */
  datatype Field =
    | Messages | ParsedQuery | FetchedData | NormalizedMetrics
    | RetrievedDocs | AnalysisResult | FinalResponse | Error

  /** Raw yfinance info per ticker, in insertion order; `None` where a lookup returned nothing. */
  type FetchedMap = Dict<Option<Object>>

  /** The accumulated state of one run; `None` is an absent key. */
  datatype State = State(
    messages: seq<Message>,
    parsedQuery: Option<FinancialQuery>,
    fetchedData: Option<FetchedMap>,
    normalizedMetrics: Option<seq<MarketMetrics>>,
    retrievedDocs: Option<seq<string>>,
    analysisResult: Option<map<string, string>>,
    finalResponse: Option<Response>,
    error: Option<string>)

  /** A node's partial update; `None` is a key the update does not contain. */
  datatype Update = Update(
    messages: Option<seq<Message>> := None,
    parsedQuery: Option<FinancialQuery> := None,
    fetchedData: Option<FetchedMap> := None,
    normalizedMetrics: Option<seq<MarketMetrics>> := None,
    retrievedDocs: Option<seq<string>> := None,
    analysisResult: Option<map<string, string>> := None,
    finalResponse: Option<Response> := None,
    error: Option<string> := None)

  /** What running a node gives: its partial update, or the exception that escaped it. */
  datatype NodeResult = Ok(update: Update) | Fault(reason: string)

  /** The empty update `{}`. */
  const Empty: Update := Update()

  const AllFields: set<Field> :=
    {Messages, ParsedQuery, FetchedData, NormalizedMetrics, RetrievedDocs, AnalysisResult, FinalResponse, Error}

  /** The state declares exactly eight keys. */
  lemma EightFields(f: Field)
    ensures f in AllFields && |AllFields| == 8
  {
  }

  /** Whether update `u` contains key `f`. */
  predicate Writes(u: Update, f: Field) {
    match f
    case Messages => u.messages.Some?
    case ParsedQuery => u.parsedQuery.Some?
    case FetchedData => u.fetchedData.Some?
    case NormalizedMetrics => u.normalizedMetrics.Some?
    case RetrievedDocs => u.retrievedDocs.Some?
    case AnalysisResult => u.analysisResult.Some?
    case FinalResponse => u.finalResponse.Some?
    case Error => u.error.Some?
  }

  /** The keys an update contains. */
  function Written(u: Update): (ks: set<Field>)
    ensures forall f :: f in ks <==> Writes(u, f)
  {
    set f | f in AllFields && Writes(u, f)
  }

  /** Only the empty update contains no key. */
  lemma WrittenEmpty(u: Update)
    ensures Written(u) == {} <==> u == Empty
  {
    if u != Empty {
      var f :=
        if u.messages.Some? then Messages
        else if u.parsedQuery.Some? then ParsedQuery
        else if u.fetchedData.Some? then FetchedData
        else if u.normalizedMetrics.Some? then NormalizedMetrics
        else if u.retrievedDocs.Some? then RetrievedDocs
        else if u.analysisResult.Some? then AnalysisResult
        else if u.finalResponse.Some? then FinalResponse
        else Error;
      assert f in Written(u);
    }
  }

  /** Whether key `f` is set in `s`; `messages` is required and always set. */
  predicate Present(s: State, f: Field) {
    match f
    case Messages => true
    case ParsedQuery => s.parsedQuery.Some?
    case FetchedData => s.fetchedData.Some?
    case NormalizedMetrics => s.normalizedMetrics.Some?
    case RetrievedDocs => s.retrievedDocs.Some?
    case AnalysisResult => s.analysisResult.Some?
    case FinalResponse => s.finalResponse.Some?
    case Error => s.error.Some?
  }

  /** `s` and `t` hold the same value (or both nothing) at key `f`. */
  predicate Agree(s: State, t: State, f: Field) {
    match f
    case Messages => s.messages == t.messages
    case ParsedQuery => s.parsedQuery == t.parsedQuery
    case FetchedData => s.fetchedData == t.fetchedData
    case NormalizedMetrics => s.normalizedMetrics == t.normalizedMetrics
    case RetrievedDocs => s.retrievedDocs == t.retrievedDocs
    case AnalysisResult => s.analysisResult == t.analysisResult
    case FinalResponse => s.finalResponse == t.finalResponse
    case Error => s.error == t.error
  }

  /** `s` holds at key `f` the value that `u` writes there. */
  predicate Carries(s: State, u: Update, f: Field) {
    match f
    case Messages => u.messages == Some(s.messages)
    case ParsedQuery => u.parsedQuery.Some? && s.parsedQuery == u.parsedQuery
    case FetchedData => u.fetchedData.Some? && s.fetchedData == u.fetchedData
    case NormalizedMetrics => u.normalizedMetrics.Some? && s.normalizedMetrics == u.normalizedMetrics
    case RetrievedDocs => u.retrievedDocs.Some? && s.retrievedDocs == u.retrievedDocs
    case AnalysisResult => u.analysisResult.Some? && s.analysisResult == u.analysisResult
    case FinalResponse => u.finalResponse.Some? && s.finalResponse == u.finalResponse
    case Error => u.error.Some? && s.error == u.error
  }

  /**
   * Applying a partial update (LangGraph's last-write-wins channels): every
   * key in the update overwrites, every other key keeps its value.
   */
  function Merge(s: State, u: Update): (r: State)
    ensures forall f :: Writes(u, f) ==> Carries(r, u, f)
    ensures forall f :: !Writes(u, f) ==> Agree(r, s, f)
  {
    State(
      u.messages.GetOr(s.messages),
      if u.parsedQuery.Some? then u.parsedQuery else s.parsedQuery,
      if u.fetchedData.Some? then u.fetchedData else s.fetchedData,
      if u.normalizedMetrics.Some? then u.normalizedMetrics else s.normalizedMetrics,
      if u.retrievedDocs.Some? then u.retrievedDocs else s.retrievedDocs,
      if u.analysisResult.Some? then u.analysisResult else s.analysisResult,
      if u.finalResponse.Some? then u.finalResponse else s.finalResponse,
      if u.error.Some? then u.error else s.error)
  }

  /** Merging the empty update changes nothing. */
  lemma MergeEmpty(s: State)
    ensures Merge(s, Empty) == s
  {
  }

  /** No key silently disappears: a set key stays set after any merge. */
  lemma MergeKeepsPresent(s: State, u: Update, f: Field)
    requires Present(s, f)
    ensures Present(Merge(s, u), f)
  {
  }

  /** Merging the updates of several nodes in order. */
  function MergeAll(s: State, us: seq<Update>): State
  {
    if us == [] then s else Merge(MergeAll(s, us[..|us| - 1]), us[|us| - 1])
  }

  /**
   * Merge monotonicity: a key that none of the updates from position `i` on
   * writes keeps the value it had after the first `i` updates.
   */
  lemma {:induction false} LastWriteWins(s: State, us: seq<Update>, i: nat, f: Field)
    requires i <= |us|
    requires forall j :: i <= j < |us| ==> f !in Written(us[j])
    ensures Agree(MergeAll(s, us), MergeAll(s, us[..i]), f)
  {
    if i < |us| {
      var prefix := us[..|us| - 1];
      assert prefix[..i] == us[..i];
      LastWriteWins(s, prefix, i, f);
      assert f !in Written(us[|us| - 1]);
    } else {
      assert us[..i] == us;
    }
  }

  /** The state a run starts from: only `messages` is set. */
  function Seed(messages: seq<Message>): (s: State)
    ensures forall f :: Present(s, f) <==> f == Messages
    ensures s.messages == messages
  {
    State(messages, None, None, None, None, None, None, None)
  }

  /** `state.get("error")` is truthy: set and non-empty. */
  predicate HasError(s: State) {
    s.error.Some? && s.error.value != ""
  }
}
