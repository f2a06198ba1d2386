/**
 * The entry node (agent/nodes/input_parsing.py): the last message goes
 * through the prompt | LLM | JSON-parser chain, the result is validated as a
 * `FinancialQuery`, and `original_query` is overwritten with the message text.
 */
module InputParsing {
  import opened Wrappers
  import opened PyData
  import opened Models
  import opened AgentState

  /** What `chain.invoke` gives for a query text: a JSON object, or the message of the exception it raised. */
  datatype ChainOutcome = Parsed(raw: Object) | ChainRaised(message: string)

  /** The LLM chain as an oracle. */
  type Chain = string -> ChainOutcome

  const ErrorPrefix: string := "Failed to parse input: "

  /** `messages[-1]` on an empty list raises outside the `try`. */
  const EmptyMessagesFault: string := "IndexError: list index out of range"

  /** Python's name for the type of a value `in` cannot search. */
  function TypeName(v: Json): string {
    match v
    case Null => "NoneType"
    case Bool(_) => "bool"
    case Int(_) => "int"
    case Float(_) => "float"
    case _ => "object"
  }

  /**
   * `"GREETING" in parsed_dict["tickers"]` raises a TypeError when the value
   * is not a container (lists, strings and dicts can be searched).
   */
  predicate GreetingCheckRaises(raw: Object) {
    "tickers" in raw && (raw["tickers"].Null? || raw["tickers"].Bool? || raw["tickers"].Int? || raw["tickers"].Float?)
  }

  function NotIterableMessage(v: Json): string {
    "argument of type '" + TypeName(v) + "' is not iterable"
  }

  /**
   * `parse_input`: on success the update holds only `parsed_query`, on any
   * caught failure only a prefixed `error`; an empty message list escapes as
   * a fault.
   */
  function ParseInput(s: State, chain: Chain): (r: NodeResult)
    ensures r.Fault? <==> s.messages == []
    ensures r.Ok? ==> Written(r.update) == {ParsedQuery} || Written(r.update) == {Error}
    ensures r.Ok? && r.update.parsedQuery.Some? ==>
      && r.update.parsedQuery.value.originalQuery == s.messages[|s.messages| - 1].content
      && chain(s.messages[|s.messages| - 1].content).Parsed?
      && ValidateQuery(chain(s.messages[|s.messages| - 1].content).raw).Accepted?
    ensures r.Ok? && r.update.error.Some? ==> ErrorPrefix <= r.update.error.value
    ensures s.messages != [] ==>
      var c := s.messages[|s.messages| - 1].content;
      && (chain(c).ChainRaised? ==> r == Ok(Update(error := Some(ErrorPrefix + chain(c).message))))
      && (chain(c).Parsed? && ValidateQuery(chain(c).raw).Accepted? ==>
            r == Ok(Update(parsedQuery := Some(ValidateQuery(chain(c).raw).query.(originalQuery := c)))))
      && (chain(c).Parsed? && GreetingCheckRaises(chain(c).raw) ==>
            r == Ok(Update(error := Some(ErrorPrefix + NotIterableMessage(chain(c).raw["tickers"])))))
      && (chain(c).Parsed? && !GreetingCheckRaises(chain(c).raw) && ValidateQuery(chain(c).raw).Rejected? ==>
            r == Ok(Update(error := Some(ErrorPrefix + ValidateQuery(chain(c).raw).message))))
  {
    if s.messages == [] then Fault(EmptyMessagesFault)
    else
      var content := s.messages[|s.messages| - 1].content;
      match chain(content)
      case ChainRaised(message) => Ok(Update(error := Some(ErrorPrefix + message)))
      case Parsed(raw) =>
        if GreetingCheckRaises(raw) then
          Ok(Update(error := Some(ErrorPrefix + NotIterableMessage(raw["tickers"]))))
        else
          match ValidateQuery(raw)
          case Rejected(_, message) => Ok(Update(error := Some(ErrorPrefix + message)))
          case Accepted(q) => Ok(Update(parsedQuery := Some(q.(originalQuery := content))))
  }

  /**
   * Apart from `original_query`, the parsed query is exactly what validation
   * of the chain's output produced; in particular a "GREETING" ticker is
   * kept like any other.
   */
  lemma ParsedQueryFromChain(s: State, chain: Chain)
    requires s.messages != []
    requires ParseInput(s, chain).Ok? && ParseInput(s, chain).update.parsedQuery.Some?
    ensures var content := s.messages[|s.messages| - 1].content;
      var q := ValidateQuery(chain(content).raw).query;
      && ParseInput(s, chain).update.parsedQuery == Some(q.(originalQuery := content))
      && Get(chain(content).raw, "tickers") == List(seq(|q.tickers|, i requires 0 <= i < |q.tickers| => Str(q.tickers[i])))
  {
  }

  /** The error written on failure is never empty, so the halt router sees it. */
  lemma ParseErrorIsTruthy(s: State, chain: Chain)
    requires ParseInput(s, chain).Ok? && ParseInput(s, chain).update.error.Some?
    ensures ParseInput(s, chain).update.error.value != ""
  {
    assert |ErrorPrefix| > 0;
  }
}
