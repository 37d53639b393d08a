/** The stand-alone web-search node: it guards on the query, runs the
    search service with the node's provider and result count, and hands on
    the LLM text and the source URLs of the results. */
module WebSearchNode {
  import opened Wrappers
  import opened PyValues
  import opened Strings
  import opened WebSearch

  const NoQueryError: string := "No query provided for web search"
  const DefaultProvider: Value := Str("serpapi")
  const DefaultNumResults: Value := Int(5)
  const SearchFailedPrefix: string := "Web search failed: "

  /** The dict the node returns. */
  datatype WebNodeOutput =
    | Failed(error: string, webSearchContext: string, sources: seq<Value>)
    | Found(webSearchContext: string, sources: seq<Value>, providerUsed: Value, resultsCount: nat)

  /** `WebSearchNode.process`. A falsy query is reported without a search;
      a configuration that is not a dict raises; any error of the search
      (a missing key, an unsupported provider, a failed request) is reported
      with its text. */
  function Process(nodeData: Value, context: Fields, apiKey: string, env: SearchEnv): (r: Result<WebNodeOutput, Exc>)
    ensures !Truthy(GetOr(context, "query", Str(""))) ==> r == Ok(Failed(NoQueryError, "", []))
    ensures Truthy(GetOr(context, "query", Str(""))) ==>
      (r.Err? <==> !nodeData.Obj? || !GetOr(nodeData.fields, "data", Obj([])).Obj?)
    ensures Truthy(GetOr(context, "query", Str(""))) && r.Ok? ==>
      var config := GetOr(nodeData.fields, "data", Obj([])).fields;
      var provider := GetOr(config, "provider", DefaultProvider);
      var sr := Search(GetOr(context, "query", Str("")), provider, apiKey, GetOr(config, "num_results", DefaultNumResults), env);
      (sr.Err? ==> r.value == Failed(SearchFailedPrefix + sr.error.Message(), "", [])) &&
      (sr.Ok? ==> r.value == Found(LlmText(sr.value), ExtractSearchSources(sr.value), provider, |sr.value.results|))
  {
    var query := GetOr(context, "query", Str(""));
    if !Truthy(query) then Ok(Failed(NoQueryError, "", []))
    else
      match GetIn(nodeData, "data", Obj([]))
      case Err(e) => Err(e)
      case Ok(config) =>
        if !config.Obj? then Err(AttributeError(NoAttribute(config, "get")))
        else
          var provider := GetOr(config.fields, "provider", DefaultProvider);
          var numResults := GetOr(config.fields, "num_results", DefaultNumResults);
          match Search(query, provider, apiKey, numResults, env)
          case Err(e) => Ok(Failed(SearchFailedPrefix + e.Message(), "", []))
          case Ok(sr) => Ok(Found(LlmText(sr), ExtractSearchSources(sr), provider, |sr.results|))
  }

  /** The node reports the "no results" text exactly when the search found
      nothing, and then no sources; it never reports more sources than
      results. */
  lemma {:induction false} FoundMatchesResults(nodeData: Value, context: Fields, apiKey: string, env: SearchEnv)
    requires Process(nodeData, context, apiKey, env).Ok? && Process(nodeData, context, apiKey, env).value.Found?
    ensures
      var out := Process(nodeData, context, apiKey, env).value;
      (out.resultsCount == 0 <==> out.webSearchContext == NoResultsText) &&
      (out.resultsCount == 0 ==> out.sources == []) &&
      |out.sources| <= out.resultsCount
  {
    var config := GetOr(nodeData.fields, "data", Obj([])).fields;
    var provider := GetOr(config, "provider", DefaultProvider);
    var sr := Search(GetOr(context, "query", Str("")), provider, apiKey, GetOr(config, "num_results", DefaultNumResults), env);
    assert sr.Ok?;
  }

  /** With no key given and none configured for the provider, the node
      reports the missing key and sends no request. */
  lemma {:induction false} MissingKeyReported(nodeData: Value, context: Fields, env: SearchEnv)
    requires Truthy(GetOr(context, "query", Str("")))
    requires nodeData.Obj? && GetOr(nodeData.fields, "data", Obj([])).Obj?
    requires EffectiveKey(GetOr(GetOr(nodeData.fields, "data", Obj([])).fields, "provider", DefaultProvider), "", env) == ""
    ensures
      var provider := GetOr(GetOr(nodeData.fields, "data", Obj([])).fields, "provider", DefaultProvider);
      Process(nodeData, context, "", env) ==
        Ok(Failed(SearchFailedPrefix + KeyMissingMessage(provider), "", []))
  {
    var config := GetOr(nodeData.fields, "data", Obj([])).fields;
    var provider := GetOr(config, "provider", DefaultProvider);
    assert Search(GetOr(context, "query", Str("")), provider, "", GetOr(config, "num_results", DefaultNumResults), env)
      == Err(ValueError(KeyMissingMessage(provider)));
  }
}
