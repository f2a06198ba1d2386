# Financial agent workflow in Dafny

This project models the multi-stage financial agent: a LangGraph
`StateGraph` with eight nodes, built by `build_graph` in `agent/graph.py`,
over the `AgentState` of `agent/schemas/state.py` and the pydantic models of
`agent/schemas/models.py`. The nodes are:

- `input_parsing` turns the last chat message into a `FinancialQuery` through an LLM chain;
- `query_planner` is a pass-through;
- `data_fetch` asks the yfinance `MarketDataTool` for the tickers;
- `data_normalization` maps raw info dicts to `MarketMetrics`;
- `embedding` upserts documents into the vector store;
- `retrieval` runs a similarity search;
- `reasoning` asks the analyst LLM;
- `response_generation` formats the final report.

Two routers pick the path:

- `check_parsing_error` stops the run after parsing when `error` is truthy;
- `route_query` sends general chat and options trading straight to reasoning, and everything else through the four data nodes.

The model has four layers.

- **Data.** `Models` and `AgentState` define the records (`State`, `Update`, `FinancialQuery`, `MarketMetrics`, `FinancialInsight`). They also define pydantic's validation of the fields the nodes construct, and `Merge`, the last-write-wins application of a node's partial update. `PyData` models JSON-like values, truthiness and insertion-ordered dicts.
- **Nodes.** There is one module per node file. A pure node is a function from `State` to `Update`. A node whose source accumulates in a loop also has a method with that loop, proved equal to the function. `MarketData` models the retry loop of `get_ticker_info` as a class method, proved against a recursive specification.
- **Runtime.** LangGraph's builder is a class. `add_node`, `add_edge` and `add_conditional_edges` refuse duplicates, and `compile` checks that names resolve. `invoke` is a loop, proved equal to the recursive `RunFrom`. A run stops at END, at a node's exception, at a missing branch, or at the recursion limit of 25 steps.
- **Workflow.** `BuildGraph` performs the builder calls of `build_graph` and yields `Topology()`. `RunIsPipeline` proves that running this graph equals the node functions chained by hand. `WorkflowProperties` derives the path facts from that:
  - every completed run executes 1, 4 or 8 nodes along one of three paths, and a halted run stops at a node's exception after 1, 3 or 7 nodes;
  - no node runs twice;
  - the run never reaches the recursion limit;
  - `error` is read only by the halt check;
  - a late error still ends at END.

The outside world is passed in as values. The parsing chain, the yfinance feed, the clock reading, the vector store and the two LLMs are fields of `Nodes.Env`, so every property holds for every possible answer they give.

## Model

| member | source | states |
|---|---|---|
| AgentState.EightFields | agent/schemas/state.py:9-16 | the state has exactly eight keys |
| AgentState.Written | agent/schemas/state.py:5-16 | the keys an update contains are exactly those it writes |
| AgentState.WrittenEmpty | agent/schemas/state.py:5-16 | only the empty update `{}` writes no key |
| AgentState.Merge | agent/schemas/state.py:5-16 | no reducers: every key in the update overwrites, every other key keeps its value |
| AgentState.MergeEmpty | agent/schemas/state.py:5-16 | merging `{}` leaves the state unchanged |
| AgentState.MergeKeepsPresent | agent/schemas/state.py:10-16 | a key once set stays set after any merge |
| AgentState.LastWriteWins | agent/schemas/state.py:5-16 | a key that no later update writes keeps the value it had after the earlier ones |
| AgentState.Seed | api.py:72-74 | an invocation starts with only `messages` set, all seven other keys absent |
| Models.ParseIntent | agent/schemas/models.py:9 | exactly the four intent spellings validate, each to the intent of that name |
| Models.IntentRoundTrip | agent/schemas/models.py:9 | the name of every intent parses back to it |
| Models.Defaults | agent/schemas/models.py:4-29 | `language` defaults to "english", `currency` to "USD", every numeric metric to `None` |
| Models.ValidateQuery | agent/schemas/models.py:4-14 | `FinancialQuery(**raw)` accepts exactly when the four required fields have their types and `language` is a string if present; the query then holds those values; a rejection names the failing field |
| Models.ValidateMetrics | agent/nodes/data_normalization.py:22-34 | `MarketMetrics(...)` is built exactly when every argument validates; it keeps the ticker, timestamp and currency as given, and every numeric field holds its validated argument (`None` stays `None`, a float stays itself) |
| PyData.Or | agent/nodes/data_normalization.py:24 | `a or b` is `a` when `a` is truthy, else `b` |
| PyData.Get | agent/nodes/data_normalization.py:25-28 | `d.get(k)` is the stored value for a present key and `None` for a missing one |
| PyData.GetDefault | agent/nodes/data_normalization.py:29 | `d.get(k, default)` is the stored value or the default |
| PyData.Lookup | agent/tools/market_data.py:51 | `d.get(k)` is absent exactly for a missing key, else a stored pair's value |
| PyData.Keys | agent/tools/market_data.py:43-55 | a dict's keys, one per entry, in insertion order |
| PyData.LookupDistinct | agent/tools/market_data.py:51 | with distinct keys, looking up an entry's key finds that entry's value |
| PyData.Assign | agent/tools/market_data.py:51 | `d[k] = v` keeps an existing key's position and appends a new key |
| PyData.AssignLookup | agent/tools/market_data.py:51 | after `d[k] = v`, `k` reads `v` and every other key reads as before |
| PyData.AssignDistinct | agent/tools/market_data.py:51 | assignment keeps dict keys distinct |
| Routing.CheckParsingError | agent/graph.py:49-52 | "end" exactly when `error` is set and non-empty, "continue" otherwise |
| Routing.CheckParsingErrorReadsError | agent/graph.py:50 | the halt check depends on `error` alone |
| Routing.RouteQuery | agent/graph.py:13-28 | "fetch" without a query; "reason" exactly for general chat and options trading; "fetch" otherwise |
| Routing.RouteQueryReadsQuery | agent/graph.py:19 | `route_query` depends on `parsed_query` alone |
| Routing.FetchIntents | agent/graph.py:24-28 | with a query, "fetch" exactly for market data and comparative analysis |
| Routing.RouteInRange | agent/graph.py:13 | each router returns only keys of its `Literal` range |
| InputParsing.ParseInput | agent/nodes/input_parsing.py:10-79 | an empty conversation raises out of the node; otherwise the update is only `parsed_query` or only an `error` prefixed "Failed to parse input: "; a chain reply that validates always yields `parsed_query`, the validated query with the last message as `original_query`; a chain exception, a non-container `tickers` and a validation failure each write the prefixed message of that exception |
| InputParsing.ParsedQueryFromChain | agent/nodes/input_parsing.py:67-76 | the parsed query is the validated chain output with `original_query` replaced; a "GREETING" ticker is kept like any other |
| InputParsing.ParseErrorIsTruthy | agent/nodes/input_parsing.py:77-79 | the parse error is never empty, so the halt check sees it |
| QueryPlanner.PlanQuery | agent/nodes/query_planner.py:17 | the planner's update writes no key |
| QueryPlanner.PlanQueryChangesNothing | agent/nodes/query_planner.py:3-17 | merging the planner's update leaves every key unchanged |
| DataFetch.ValidTickers | agent/nodes/data_fetch.py:17 | a ticker is kept exactly when it is not "GREETING"; never more tickers than given |
| DataFetch.ValidTickersAppend | agent/nodes/data_fetch.py:17 | the filter keeps the order: it distributes over concatenation |
| DataFetch.ValidTickersNoGreeting | agent/nodes/data_fetch.py:17 | without "GREETING" the filter keeps every ticker |
| DataFetch.FetchData | agent/nodes/data_fetch.py:4-30 | every return writes exactly one key; the update is exactly the "No parsed query found." error when there is no query |
| DataFetch.FetchedOrder | agent/nodes/data_fetch.py:12-30 | with a query, `fetched_data` is always written, and its keys are the requested tickers in request order with "GREETING" and repeats dropped |
| DataFetch.FetchedKeys | agent/nodes/data_fetch.py:22-30 | the fetched map has distinct keys, one per non-"GREETING" requested ticker, each holding that ticker's `get_ticker_info` result |
| DataFetch.RunFetchData | agent/nodes/data_fetch.py:4-30 | the node, run with a fresh default tool, returns the specified update |
| DataNormalization.EntryMetrics | agent/nodes/data_normalization.py:17-34 | an empty or missing entry is skipped; a non-empty entry yields a metric exactly when pydantic accepts every argument built from it; the metric has the dict key as ticker, `now` as timestamp, the validated `currentPrice or regularMarketPrice` as price, each other numeric field validated from its yfinance key, and currency "USD" when absent |
| DataNormalization.NormalizedAppend | agent/nodes/data_normalization.py:16-38 | a skipped entry only drops itself: normalisation distributes over concatenation |
| DataNormalization.NormalizedShape | agent/nodes/data_normalization.py:16-35 | at most one metric per entry, each built from an entry with the same ticker |
| DataNormalization.NormalizedSingle | agent/nodes/data_normalization.py:16-38 | one entry contributes its metric when it validates and nothing otherwise |
| DataNormalization.NormalizeUpdate | agent/nodes/data_normalization.py:10-40 | the update writes only `normalized_metrics`: `[]` without data, else the normalised entries |
| DataNormalization.NormalizeData | agent/nodes/data_normalization.py:6-40 | the loop over `raw_data.items()` returns the specified update |
| Embedding.MetricDocument | agent/nodes/embedding.py:18-31 | a document's metadata is exactly `ticker`, `type = "market_metrics"` and `date` |
| Embedding.Documents | agent/nodes/embedding.py:15-33 | one document per metric, in order |
| Embedding.EmbedKnowledge | agent/nodes/embedding.py:5-44 | the update is always `{}`; documents are upserted exactly when there are metrics and the store has an index; an upsert that raises is reported as failed and swallowed |
| Retrieval.PageContents | agent/nodes/retrieval.py:21 | the texts of the hits, one per hit, in order |
| Retrieval.RetrieveContext | agent/nodes/retrieval.py:4-25 | `{}` exactly without a query; otherwise only `retrieved_docs`: `[]` without an index or on a failed search, else the hit texts for `original_query` with k = 3 |
| Retrieval.RetrievedAtMostK | agent/nodes/retrieval.py:18-20 | a store that honours `k` yields at most three texts |
| Reasoning.MarginText | agent/nodes/reasoning.py:28-29 | a margin reads "N/A" exactly when it is absent or zero |
| Reasoning.Summary | agent/nodes/reasoning.py:20-30 | `data_summary` has one block per metric, in order |
| Reasoning.JoinEmpty | agent/nodes/reasoning.py:32 | the joined documents are empty exactly for no document or a single empty one |
| Reasoning.ContextSection | agent/nodes/reasoning.py:86-90 | the market part when there are metrics, then the history part when the joined text is non-empty |
| Reasoning.PromptSections | agent/nodes/reasoning.py:86-90 | each prompt part is present exactly under its condition |
| Reasoning.Analyze | agent/nodes/reasoning.py:7-102 | exactly the "No query to analyze." error without a query; else only `analysis_result = {"text": reply}`, or the LLM's exception escapes |
| Reasoning.AnalyzeMarket | agent/nodes/reasoning.py:7-102 | the accumulating loop returns the specified result |
| ResponseGeneration.Rows | agent/nodes/response_generation.py:57-58 | one table row per metric |
| ResponseGeneration.Bullets | agent/nodes/response_generation.py:64-65 | one bullet per risk factor |
| ResponseGeneration.RowsPointwise | agent/nodes/response_generation.py:57-58 | row `i` is built from metric `i` |
| ResponseGeneration.BulletsPointwise | agent/nodes/response_generation.py:64-65 | bullet `i` is risk factor `i` |
| ResponseGeneration.TableRows | agent/nodes/response_generation.py:54-58 | the table's rows are exactly the metrics' rows, header and separator aside |
| ResponseGeneration.OnlyRisksAreBullets | agent/nodes/response_generation.py:45-68 | only the risk-factor section of the report holds bullets |
| ResponseGeneration.MarkdownRows | agent/nodes/response_generation.py:54-58 | the report's rows are the key metrics' rows, in order |
| ResponseGeneration.MarkdownBullets | agent/nodes/response_generation.py:63-65 | the report's bullets are the risk factors, in order |
| ResponseGeneration.MarkdownSections | agent/nodes/response_generation.py:45-68 | title first; table header and separator exactly when there are key metrics; a comparison section exactly when one is given; final insight, then disclaimer, last |
| ResponseGeneration.Respond | agent/nodes/response_generation.py:6-75 | the fixed no-analysis text without analysis; the analysis text for general chat; otherwise the markdown report of the formatted insight, or the "Error formatting response: " text together with `error` when formatting raises; `final_response` always written |
| ResponseGeneration.RespondReport | agent/nodes/response_generation.py:41-70 | a formatted answer puts a report in `final_response`, writes no `error`, and the report has the title first, a table exactly when there are key metrics with one row per metric in order, a comparison exactly when one is given, one bullet per risk factor in order, and insight then disclaimer last |
| ResponseGeneration.GenerateResponse | agent/nodes/response_generation.py:6-75 | appending block by block yields the specified update |
| MarketData.RetryFrom | agent/tools/market_data.py:22-37 | stops at the first usable outcome, else returns `{}` after the last attempt; one sleep per attempt but the last |
| MarketData.Outcomes | agent/tools/market_data.py:22-25 | the feed's answers to attempts 0 to n-1, in order |
| MarketData.TickerInfo | agent/tools/market_data.py:18-37 | at most `max_retries` attempts, the first dict holding `'symbol'`, `{}` when all fail, `None` when `max_retries <= 0` |
| MarketData.TickerInfoShape | agent/tools/market_data.py:27-37 | with at least one attempt the result is `{}` or a dict holding `'symbol'` |
| MarketData.MarketDataKeys | agent/tools/market_data.py:39-55 | one key per distinct ticker, in first-occurrence order |
| MarketData.Dedup | agent/tools/market_data.py:44-51 | the distinct tickers: no ticker lost, none added, none repeated |
| MarketData.MarketDataValues | agent/tools/market_data.py:44-51 | each ticker maps to its own `get_ticker_info` result |
| MarketData.MarketDataTool.constructor | agent/tools/market_data.py:14-16 | the retry policy is fixed at construction, with defaults 3 and 2 |
| MarketData.MarketDataTool.GetTickerInfo | agent/tools/market_data.py:18-37 | the loop's result and attempt count agree with `TickerInfo`; every sleep uses `retry_delay` |
| MarketData.MarketDataTool.GetMarketData | agent/tools/market_data.py:39-55 | the loop fills the specified map |
| Nodes.Step | agent/graph.py:37-44 | only parsing (empty conversation) and reasoning can raise; planning and embedding return `{}` |
| Nodes.Execute | agent/graph.py:37-44 | calling a registered node runs its imperative version, with the specified result |
| Runtime.StateGraph.constructor | agent/graph.py:34 | a new builder has no nodes, no entry and no edges |
| Runtime.StateGraph.AddNode | agent/graph.py:37-44 | a node is appended exactly when its name is new |
| Runtime.StateGraph.SetEntryPoint | agent/graph.py:47 | only the entry changes |
| Runtime.StateGraph.AddEdge | agent/graph.py:73-81 | a plain edge is added exactly when its source has none |
| Runtime.StateGraph.AddConditionalEdges | agent/graph.py:54-70 | a router edge is added exactly when its source has none |
| Runtime.StateGraph.Compile | agent/graph.py:83 | compiles exactly when the entry is set and every name resolves; the result is well formed |
| Runtime.Next | agent/graph.py:54-81 | a node's edge leads to one of its targets, or reports a router key without a branch |
| Runtime.RunFrom | api.py:76 | the trace only grows and never past the recursion limit |
| Runtime.Invoke | api.py:76 | the executor loop computes `Run` |
| Runtime.StepTo | api.py:76 | a node's update is merged before its edge is followed |
| Runtime.StepEnd | api.py:76 | an edge to END completes the run with the merged state |
| Runtime.StepFault | api.py:76 | a node's exception halts the run at that node, state unmerged |
| Runtime.IncreasingNoRepeats | agent/graph.py:37-44 | a trace ordered strictly by declaration position repeats no node |
| Runtime.ForwardNext | agent/graph.py:54-81 | in a well-formed, total, forward graph every edge is followed, and to a later node |
| Runtime.ForwardRunFrom | agent/graph.py:47-81 | in a forward graph, nodes run in increasing declaration order, at most one step per node, ending at END or a fault |
| Runtime.ForwardRun | agent/graph.py:47-81 | a run of a well-formed forward graph starts at the entry, never repeats a node, and ends at END or in a fault |
| Workflow.DeclareNext | agent/graph.py:37-44 | each `add_node` call succeeds, its name being new |
| Workflow.DeclaredKeys | agent/graph.py:37-44 | after k declarations the names are the first k of the data path |
| Workflow.DeclareNodes | agent/graph.py:37-44 | the eight `add_node` calls register the eight nodes in order |
| Workflow.WireEdges | agent/graph.py:54-81 | the two router edges and six plain edges give the topology's edge map |
| Workflow.BuildGraph | agent/graph.py:30-83 | `build_graph` compiles to exactly `Topology()` |
| Workflow.TopologyClosed | agent/graph.py:47-81 | the entry and every edge name declared nodes |
| Workflow.TopologyKeys | agent/graph.py:37-44 | the declaration order is the data-branch path |
| Workflow.TopologyPos | agent/graph.py:37-44 | each node's position is its rank on the data path |
| Workflow.TopologyTargets | agent/graph.py:54-81 | each node's edge targets |
| Workflow.TargetsLater | agent/graph.py:54-81 | every edge target is ranked after its source |
| Workflow.TopologyDistinct | agent/graph.py:37-44 | the topology is well formed |
| Workflow.TopologyTotal | agent/graph.py:54-70 | every router key has a branch |
| Workflow.TopologyForward | agent/graph.py:54-81 | every edge points forward in declaration order |
| Workflow.TopologyIsForward | agent/graph.py:47-81 | well formed, total and acyclic, with eight nodes |
| Workflow.TopologyLookup | agent/graph.py:37-44 | each name is registered with its node function |
| Workflow.TopologyNext | agent/graph.py:54-81 | the topology's edges route each node as `build_graph` wires it |
| Workflow.TopologyWired | agent/graph.py:37-81 | the topology registers and wires every node as `build_graph` does |
| Workflow.FromResponse | agent/graph.py:81 | response generation goes to END |
| Workflow.ReasoningAnswers | agent/graph.py:80-81 | a successful analysis is followed by the response and END |
| Workflow.ReasoningRaises | agent/graph.py:80 | an analyst exception halts the run at reasoning |
| Workflow.FromReasoning | agent/graph.py:80-81 | from reasoning, the run is `Finish` |
| Workflow.FromRetrieval | agent/graph.py:76 | retrieval leads to reasoning |
| Workflow.FromEmbedding | agent/graph.py:75 | embedding leads to retrieval |
| Workflow.FromNormalization | agent/graph.py:74 | normalisation leads to embedding |
| Workflow.FetchStep | agent/graph.py:73 | the fetch leads to normalisation |
| Workflow.DataChain | agent/graph.py:73-76 | the four data nodes run in order, each on the state the previous one left |
| Workflow.DataSteps | agent/graph.py:73-76 | from the fetch, the run reaches reasoning with the gathered state |
| Workflow.FromFetch | agent/graph.py:73-81 | from the fetch, the run is the data nodes followed by `Finish` |
| Workflow.PlannerStep | agent/graph.py:63-70 | the planner changes nothing, and `route_query` on the unchanged state picks the branch |
| Workflow.FromPlanner | agent/graph.py:63-81 | from the planner: `Finish` directly on "reason", after the data nodes on "fetch" |
| Workflow.ParsingFault | agent/graph.py:47 | a parser exception halts the run after one node |
| Workflow.ParsingEnd | agent/graph.py:54-61 | a truthy parse error ends the run after one node |
| Workflow.ParsingContinue | agent/graph.py:54-61 | otherwise the run goes on to the planner |
| Workflow.PathPrefixes | agent/graph.py:54-76 | the traces up to reasoning on the two branches |
| Workflow.WiredRunIsPipeline | agent/graph.py:47-81 | on any graph wired like the topology, a run is the hand-chained pipeline |
| Workflow.RunIsPipeline | agent/graph.py:30-83 | invoking the compiled graph is the hand-chained pipeline |
| WorkflowProperties.ParseErrorEndsRun | agent/graph.py:54-61 | a parse error sends the run straight to END: only the parser runs, and the final `error` is the parser's |
| WorkflowProperties.ContinueHasQuery | agent/graph.py:54-61 | past the halt check the state holds the parsed query |
| WorkflowProperties.PipelineContinues | agent/graph.py:63-70 | past the halt check the branch is `route_query` on the parsed state |
| WorkflowProperties.FinishShape | agent/graph.py:80-81 | reasoning then response: halts exactly when the analyst raises |
| WorkflowProperties.ReasonBranch | agent/graph.py:63-81 | the "reason" branch runs parsing, planning, reasoning and response, and no data node |
| WorkflowProperties.FetchBranch | agent/graph.py:73-81 | the "fetch" branch runs the four data nodes in order before reasoning and response |
| WorkflowProperties.Paths | agent/graph.py:47-81 | every completed run took 1, 4 or 8 nodes along one of the three paths; a halted run stopped at a node's exception; a run halts after the parser exactly for an empty conversation; no node repeats |
| WorkflowProperties.StopPath | agent/graph.py:49-61 | a run that stops at the halt check is on one of the paths |
| WorkflowProperties.ReasonPathShape | agent/graph.py:63-81 | a run on the "reason" branch is on one of the paths |
| WorkflowProperties.FetchPathShape | agent/graph.py:63-81 | a run on the "fetch" branch is on one of the paths |
| WorkflowProperties.HaltCheckStops | agent/graph.py:49-61 | a run stopped at the halt check ran only the parser, and halted only for an empty conversation |
| WorkflowProperties.RunNoRepeats | agent/graph.py:47-81 | no node runs twice |
| WorkflowProperties.GatheredIgnoresError | agent/graph.py:73-76 | the data nodes do not read `error` |
| WorkflowProperties.MergeSameButError | agent/schemas/state.py:16 | merging one update into two states that differ only in `error` keeps them differing only in `error` |
| WorkflowProperties.FinishIgnoresError | agent/graph.py:80-81 | reasoning and response do not decide the path by `error` |
| WorkflowProperties.ErrorReadOnlyOnce | agent/graph.py:63-81 | after the halt check, any `error` value leaves the nodes run and the ending unchanged |
| WorkflowProperties.GatheredNoQuery | agent/graph.py:73-76 | without a query the data nodes write neither query nor analysis |
| WorkflowProperties.MissingQueryStillCompletes | agent/graph.py:73-81 | a fetch error does not stop the run: it reaches END through the static edges with the fixed no-analysis answer |
| WorkflowProperties.FinishNoQuery | agent/graph.py:80-81 | without a query, reasoning writes its error and response generation its fixed answer |
| WorkflowProperties.FormatterErrorStillCompletes | agent/graph.py:81 | a formatter failure sets `error` but the run reaches END with the prefixed message |
| WorkflowProperties.CompletedRunsRespond | agent/graph.py:47-81 | every completed run past the halt check has written `final_response` |
| WorkflowProperties.EmptyConversationFaults | agent/nodes/input_parsing.py:14-15 | an empty conversation halts in the parser, since `messages[-1]` raises |

## Left out

- I/O is not modelled. The LLM chain, yfinance, Pinecone, the clock and `time.sleep` become oracle values or parameters; sleeps are recorded, not timed.
- agent/llm_factory.py and agent/g4f_wrapper.py are not part of this model. `get_llm` (agent/nodes/input_parsing.py:17, agent/nodes/response_generation.py:21) and `with_structured_output` (agent/nodes/response_generation.py:26) run outside the nodes' `try` blocks, so a failure there would escape the node; the model assumes these calls never raise, and `Nodes.Step` lets only an empty conversation and the analyst LLM fault.
- agent/tools/vector_store.py is not part of this model. The store is an index flag, an upsert flag and a search oracle.
- The HTTP front end in api.py and the CLI loop in main.py are used only for how a run is seeded and invoked.
- Floating-point arithmetic and rendering are left out: numbers are opaque `real` payloads, and `profit_margin * 100` is real multiplication.
- Prompt wording and the exact markdown text are left out. The prompt and the report are modelled as sequences of sections, in order, without their literal text.
- Pydantic version: validation is modelled on pydantic v2 lax mode (a bool is accepted as a number, an integral float as an int, a `str` field only from a string, a `List[str]` only with string items).
- Models.ValidateMetrics: pydantic v2 also coerces numeric strings into the float and int fields of `MarketMetrics`; the model rejects such values.
- Models.ValidationError: pydantic's `str(e)` counts and lists every failing field with its own wording; the model's rejection message is a synthetic text naming the first failing field, so parse-error messages are abstract.
- DataNormalization.NormalizeUpdate: one clock reading `now` stamps every metric, where the source calls `datetime.now()` once per entry.
- MarketData.TickerInfo: yfinance is indexed by (symbol, attempt), so a ticker requested twice sees the same outcomes both times.
- MarketData.MarketDataTool.GetMarketData: the `except` around `data_map[t] = info` cannot be reached and is not modelled. The `period` parameter is ignored, as in the source.
- `get_history` is not modelled: no node calls it.
- Runtime.StateGraph.AddEdge: LangGraph's fan-out (several edges from one node) is refused rather than run in parallel, since the workflow never uses it.
- Runtime.StateGraph.Compile: reserved node names (`START`, `END` as node names) are not checked, since names are an enumeration. Compile does not check that a router's branch map covers its range; that is the separate `Total` property, proved for the topology.
- Runtime.RunFrom: the recursion limit counts node steps (25), an approximation of LangGraph's superstep count that agrees on a graph without fan-out.
- LangGraph checkpointing, streaming and channels are not modelled. Neither is concurrency across simultaneous requests.
- WorkflowProperties.MissingQueryStillCompletes: stated for a run entered at `data_fetch`, because from the entry every run that passes the halt check carries a parsed query (`ContinueHasQuery`).
