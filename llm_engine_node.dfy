/** The stand-alone LLM node: it assembles the document context and the web
    results from what earlier nodes left in the context and asks the LLM
    service for an answer. The service call is a parameter. */
module LlmEngineNode {
  import opened Wrappers
  import opened PyValues

  const NoQueryError: string := "No query provided to LLM"
  const NoContextSentinel: string := "No relevant document context found."
  const DefaultModel: Value := Str("gpt-4o-mini")
  const DefaultTemperature: Value := Float(75 as real / 100 as real, "0.75")
  const DefaultPrompt: Value := Str("You are a helpful AI assistant.")

  /** The arguments of `generate_response`. */
  datatype GenerateArgs = GenerateArgs(
    query: Value, context: Option<string>, apiKey: string, model: Value,
    temperature: Value, systemPrompt: Value, webSearchResults: Option<Value>)

  /** `generate_response`: the answer, or the text of the failure. */
  type Generate = GenerateArgs -> Result<string, string>

  /** The dict the node returns. */
  datatype LlmNodeOutput =
    | NoQuery(error: string, llmResponse: string)
    | Answered(llmResponse: string, modelUsed: Value, temperature: Value, contextProvided: bool, webSearchUsed: bool)
    | GenerationFailed(error: string, llmResponse: string)

  /** The document context passed to the service: present exactly when the
      knowledge context is truthy and is not the "nothing found" notice. */
  function DocumentContext(knowledgeContext: Value): (c: Option<string>)
    ensures c.Some? <==> Truthy(knowledgeContext) && knowledgeContext != Str(NoContextSentinel)
    ensures c.Some? ==> c.value == "Document Context:\n" + PyStr(knowledgeContext) + "\n\n"
  {
    var combined := if Truthy(knowledgeContext) && knowledgeContext != Str(NoContextSentinel)
                    then "Document Context:\n" + PyStr(knowledgeContext) + "\n\n" else "";
    if combined != "" then Some(combined) else None
  }

  /** The web results passed to the service: the web-search context, when
      web search is enabled and that context is truthy. */
  function WebResults(enabled: Value, webSearchContext: Value): (w: Option<Value>)
    ensures w.Some? <==> Truthy(enabled) && Truthy(webSearchContext)
    ensures w.Some? ==> w.value == webSearchContext
  {
    if Truthy(enabled) && Truthy(webSearchContext) then Some(webSearchContext) else None
  }

  /** The request the node sends for a given configuration. */
  function ArgsOf(query: Value, context: Fields, apiKey: string, config: Fields): (a: GenerateArgs)
    ensures a.query == query && a.apiKey == apiKey
    ensures a.model == GetOr(config, "model", DefaultModel)
    ensures a.temperature == GetOr(config, "temperature", DefaultTemperature)
    ensures a.systemPrompt == GetOr(config, "prompt", DefaultPrompt)
    ensures a.context.Some? <==>
      Truthy(GetOr(context, "knowledge_context", Str(""))) &&
      GetOr(context, "knowledge_context", Str("")) != Str(NoContextSentinel)
    ensures a.webSearchResults.Some? <==>
      Truthy(GetOr(config, "web_search_enabled", Bool(false))) && Truthy(GetOr(context, "web_search_context", Str("")))
  {
    GenerateArgs(query, DocumentContext(GetOr(context, "knowledge_context", Str(""))), apiKey,
                 GetOr(config, "model", DefaultModel), GetOr(config, "temperature", DefaultTemperature),
                 GetOr(config, "prompt", DefaultPrompt),
                 WebResults(GetOr(config, "web_search_enabled", Bool(false)), GetOr(context, "web_search_context", Str(""))))
  }

  /** `LLMEngineNode.process`. A falsy query is reported without a call; a
      configuration that is not a dict raises; the answer reports whether
      context and web results were passed; a failed call is reported with
      the failure's text. */
  function Process(nodeData: Value, context: Fields, apiKey: string, generate: Generate): (r: Result<LlmNodeOutput, Exc>)
    ensures !Truthy(GetOr(context, "query", Str(""))) ==> r == Ok(NoQuery(NoQueryError, ""))
    ensures Truthy(GetOr(context, "query", Str(""))) ==>
      (r.Err? <==> !nodeData.Obj? || !GetOr(nodeData.fields, "data", Obj([])).Obj?)
    ensures Truthy(GetOr(context, "query", Str(""))) && r.Ok? ==>
      var args := ArgsOf(GetOr(context, "query", Str("")), context, apiKey, GetOr(nodeData.fields, "data", Obj([])).fields);
      (generate(args).Ok? ==>
         r.value == Answered(generate(args).value, args.model, args.temperature,
                             args.context.Some?, args.webSearchResults.Some?)) &&
      (generate(args).Err? ==>
         r.value == GenerationFailed("LLM generation failed: " + generate(args).error,
                                     "Sorry, I encountered an error: " + generate(args).error))
  {
    var query := GetOr(context, "query", Str(""));
    if !Truthy(query) then Ok(NoQuery(NoQueryError, ""))
    else
      match GetIn(nodeData, "data", Obj([]))
      case Err(e) => Err(e)
      case Ok(config) =>
        if !config.Obj? then Err(AttributeError(NoAttribute(config, "get")))
        else
          var args := ArgsOf(query, context, apiKey, config.fields);
          match generate(args)
          case Ok(response) =>
            Ok(Answered(response, args.model, args.temperature, args.context.Some?, args.webSearchResults.Some?))
          case Err(msg) =>
            Ok(GenerationFailed("LLM generation failed: " + msg, "Sorry, I encountered an error: " + msg))
  }

  /** Without a query the node does not consult the service. */
  lemma {:induction false} NoQueryCallsNothing(nodeData: Value, context: Fields, apiKey: string, g1: Generate, g2: Generate)
    requires !Truthy(GetOr(context, "query", Str("")))
    ensures Process(nodeData, context, apiKey, g1) == Process(nodeData, context, apiKey, g2)
  {
  }

  /** The "nothing found" notice left by a knowledge-base node never reaches
      the service as context, and web results never reach it while web search
      is disabled: the flag absent, or present and falsy (`False`, `None`,
      `0`, an empty string or container). */
  lemma {:induction false} SentinelAndDisabledSearchExcluded(query: Value, context: Fields, apiKey: string, config: Fields)
    ensures GetOr(context, "knowledge_context", Str("")) == Str(NoContextSentinel) ==>
      ArgsOf(query, context, apiKey, config).context == None
    ensures !Truthy(GetOr(config, "web_search_enabled", Bool(false))) ==>
      ArgsOf(query, context, apiKey, config).webSearchResults == None
    ensures Lookup(config, "web_search_enabled") == Some(Bool(false)) ==>
      ArgsOf(query, context, apiKey, config).webSearchResults == None
  {
  }
}
