/** The web-search service: normalising SerpAPI and Brave responses into one
    result shape, choosing the provider and key, and turning results into
    LLM context text and a list of source URLs. The HTTP requests are
    parameters that return the decoded JSON response or the failure text. */
module WebSearch {
  import opened Wrappers
  import opened Strings
  import opened PyValues

  /** One normalised search result. */
  datatype SearchHit = SearchHit(title: Value, url: Value, snippet: Value, source: string)

  /** The normalised response: the echoed query, the results and their count. */
  datatype SearchResults = SearchResults(query: Value, results: seq<SearchHit>, totalResults: nat, engine: string)

  /** One provider result: title, URL and snippet each read with a `""`
      default from the keys the provider uses. */
  function ResultHit(result: Value, urlKey: string, snippetKey: string, source: string): (r: Result<SearchHit, Exc>)
    ensures r.Ok? <==> result.Obj?
    ensures r.Ok? ==> r.value.source == source
    ensures r.Err? ==> r.error == AttributeError(NoAttribute(result, "get"))
  {
    if result.Obj? then
      Ok(SearchHit(GetOr(result.fields, "title", Str("")), GetOr(result.fields, urlKey, Str("")),
                   GetOr(result.fields, snippetKey, Str("")), source))
    else Err(AttributeError(NoAttribute(result, "get")))
  }

  /** The provider results mapped in order; the first that is not a dict
      raises. */
  function Hits(items: seq<Value>, urlKey: string, snippetKey: string, source: string): (r: Result<seq<SearchHit>, Exc>)
    ensures r.Ok? ==> |r.value| == |items|
  {
    if items == [] then Ok([])
    else
      match Hits(items[..|items| - 1], urlKey, snippetKey, source)
      case Err(e) => Err(e)
      case Ok(init) =>
        match ResultHit(items[|items| - 1], urlKey, snippetKey, source)
        case Err(e) => Err(e)
        case Ok(h) => Ok(init + [h])
  }

  /** The mapping succeeds exactly when every provider result is a dict. */
  lemma {:induction false} HitsOkIff(items: seq<Value>, urlKey: string, snippetKey: string, source: string)
    ensures Hits(items, urlKey, snippetKey, source).Ok? <==> forall k :: 0 <= k < |items| ==> items[k].Obj?
  {
    if items != [] {
      var n := |items| - 1;
      var init := items[..n];
      HitsOkIff(init, urlKey, snippetKey, source);
      HitsOkLast(items, urlKey, snippetKey, source);
      assert forall k :: 0 <= k < n ==> init[k] == items[k];
    }
  }

  lemma {:induction false} HitsOkLast(items: seq<Value>, urlKey: string, snippetKey: string, source: string)
    requires items != []
    ensures Hits(items, urlKey, snippetKey, source).Ok? <==>
      Hits(items[..|items| - 1], urlKey, snippetKey, source).Ok? && items[|items| - 1].Obj?
  {
  }

  /** Result `k` is the mapping of provider result `k`. */
  lemma {:induction false} HitsAt(items: seq<Value>, urlKey: string, snippetKey: string, source: string)
    requires Hits(items, urlKey, snippetKey, source).Ok?
    ensures forall k :: 0 <= k < |items| ==>
      ResultHit(items[k], urlKey, snippetKey, source).Ok? &&
      Hits(items, urlKey, snippetKey, source).value[k] == ResultHit(items[k], urlKey, snippetKey, source).value
  {
    if items != [] {
      var n := |items| - 1;
      var init := items[..n];
      HitsAt(init, urlKey, snippetKey, source);
      var hs := Hits(items, urlKey, snippetKey, source).value;
      assert hs == Hits(init, urlKey, snippetKey, source).value + [ResultHit(items[n], urlKey, snippetKey, source).value];
      forall k | 0 <= k < |items|
        ensures ResultHit(items[k], urlKey, snippetKey, source).Ok?
        ensures hs[k] == ResultHit(items[k], urlKey, snippetKey, source).value
      {
        if k < n {
          assert items[k] == init[k];
        }
      }
    }
  }

  lemma {:induction false} HitsSnoc(items: seq<Value>, i: nat, urlKey: string, snippetKey: string, source: string)
    requires i < |items|
    ensures Hits(items[..i], urlKey, snippetKey, source).Ok? && ResultHit(items[i], urlKey, snippetKey, source).Ok? ==>
      Hits(items[..i + 1], urlKey, snippetKey, source) ==
        Ok(Hits(items[..i], urlKey, snippetKey, source).value + [ResultHit(items[i], urlKey, snippetKey, source).value])
    ensures Hits(items[..i], urlKey, snippetKey, source).Ok? && ResultHit(items[i], urlKey, snippetKey, source).Err? ==>
      Hits(items[..i + 1], urlKey, snippetKey, source) == Err(ResultHit(items[i], urlKey, snippetKey, source).error)
  {
    assert items[..i + 1][..i] == items[..i];
  }

  lemma {:induction false} HitsFailFast(items: seq<Value>, k: nat, urlKey: string, snippetKey: string, source: string)
    requires k <= |items| && Hits(items[..k], urlKey, snippetKey, source).Err?
    ensures Hits(items, urlKey, snippetKey, source) == Hits(items[..k], urlKey, snippetKey, source)
    decreases |items| - k
  {
    if k < |items| {
      assert items[..k + 1][..k] == items[..k];
      HitsFailFast(items, k + 1, urlKey, snippetKey, source);
    } else {
      assert items[..k] == items;
    }
  }

  /** The loop shared by both formatters: each provider result mapped and
      appended in order. */
  method MapResults(items: seq<Value>, urlKey: string, snippetKey: string, source: string)
    returns (r: Result<seq<SearchHit>, Exc>)
    ensures r == Hits(items, urlKey, snippetKey, source)
  {
    var results: seq<SearchHit> := [];
    for i := 0 to |items|
      invariant Hits(items[..i], urlKey, snippetKey, source) == Ok(results)
    {
      var hit := ResultHit(items[i], urlKey, snippetKey, source);
      HitsSnoc(items, i, urlKey, snippetKey, source);
      if hit.Err? {
        HitsFailFast(items, i + 1, urlKey, snippetKey, source);
        return Err(hit.error);
      }
      results := results + [hit.value];
    }
    assert items[..|items|] == items;
    return Ok(results);
  }

  /** The "Answer Box" entry of a SerpAPI response, when the box is
      truthy: its snippet is the box's answer, else its snippet, else "". */
  function AnswerHit(box: Value): (r: Result<Option<SearchHit>, Exc>)
    ensures !Truthy(box) ==> r == Ok(None)
    ensures Truthy(box) && box.Obj? ==>
      (r.Ok? && r.value.Some? && r.value.value.title == Str("Answer Box") && r.value.value.source == "serpapi_answer_box")
    ensures Truthy(box) && box.Obj? && HasKey(box.fields, "answer") ==> r.value.value.snippet == Get(box.fields, "answer")
    ensures Truthy(box) && box.Obj? && !HasKey(box.fields, "answer") ==>
      r.value.value.snippet == GetOr(box.fields, "snippet", Str(""))
    ensures r.Err? <==> Truthy(box) && !box.Obj?
  {
    if !Truthy(box) then Ok(None)
    else if !box.Obj? then Err(AttributeError(NoAttribute(box, "get")))
    else
      Ok(Some(SearchHit(Str("Answer Box"), GetOr(box.fields, "link", Str("")),
        GetOr(box.fields, "answer", GetOr(box.fields, "snippet", Str(""))), "serpapi_answer_box")))
  }

  /** `format_serpapi_results`: the organic results in order, preceded by
      the answer box when there is one. */
  function SerpApiResults(data: Value): (r: Result<SearchResults, Exc>)
    ensures r.Ok? ==> r.value.totalResults == |r.value.results| && r.value.engine == "google_via_serpapi"
  {
    match GetIn(data, "organic_results", List([]))
    case Err(e) => Err(e)
    case Ok(organic) =>
      match Iter(organic)
      case Err(e) => Err(e)
      case Ok(items) =>
        match Hits(items, "link", "snippet", "serpapi")
        case Err(e) => Err(e)
        case Ok(hits) =>
          match AnswerHit(GetOr(data.fields, "answer_box", Obj([])))
          case Err(e) => Err(e)
          case Ok(answer) =>
            var results := if answer.Some? then [answer.value] + hits else hits;
            match GetIn(GetOr(data.fields, "search_parameters", Obj([])), "q", Str(""))
            case Err(e) => Err(e)
            case Ok(q) => Ok(SearchResults(q, results, |results|, "google_via_serpapi"))
  }

  /** The organic results of a SerpAPI response given as a list. */
  function OrganicItems(data: Value): seq<Value>
    requires data.Obj?
  {
    var organic := GetOr(data.fields, "organic_results", List([]));
    if organic.List? then organic.items else []
  }

  /** 1 when the response has a truthy answer box, else 0. */
  function AnswerShift(data: Value): nat
    requires data.Obj?
  {
    if Truthy(GetOr(data.fields, "answer_box", Obj([]))) then 1 else 0
  }

  /** The results of a SerpAPI response with its organic results in a
      list: the answer box, when truthy, then the mapped organic results
      (whose order `ShiftedHits` states). */
  lemma {:induction false} SerpApiParts(data: Value)
    requires SerpApiResults(data).Ok? && data.Obj?
    requires GetOr(data.fields, "organic_results", List([])).List?
    ensures Hits(OrganicItems(data), "link", "snippet", "serpapi").Ok?
    ensures AnswerHit(GetOr(data.fields, "answer_box", Obj([]))).Ok?
    ensures AnswerShift(data) == 1 ==> AnswerHit(GetOr(data.fields, "answer_box", Obj([]))).value.Some?
    ensures SerpApiResults(data).value.results ==
      (if AnswerShift(data) == 1 then [AnswerHit(GetOr(data.fields, "answer_box", Obj([]))).value.value] else []) +
      Hits(OrganicItems(data), "link", "snippet", "serpapi").value
    ensures AnswerShift(data) == 1 ==> SerpApiResults(data).value.results[0].title == Str("Answer Box")
  {
    var organic := GetOr(data.fields, "organic_results", List([]));
    assert GetIn(data, "organic_results", List([])) == Ok(organic);
    assert Iter(organic) == Ok(OrganicItems(data));
    EmptyConcat(Hits(OrganicItems(data), "link", "snippet", "serpapi").value);
  }

  /** Results made of `front` followed by the mapped items hold item `k`'s
      hit at `k + |front|`. */
  lemma {:induction false} ShiftedHits(items: seq<Value>, urlKey: string, snippetKey: string, source: string,
                                        results: seq<SearchHit>, shift: nat, front: seq<SearchHit>)
    requires Hits(items, urlKey, snippetKey, source).Ok?
    requires |front| == shift && results == front + Hits(items, urlKey, snippetKey, source).value
    ensures |results| == |items| + shift
    ensures forall k :: 0 <= k < |items| ==>
      ResultHit(items[k], urlKey, snippetKey, source).Ok? &&
      results[k + shift] == ResultHit(items[k], urlKey, snippetKey, source).value
  {
    var hits := Hits(items, urlKey, snippetKey, source).value;
    HitsAt(items, urlKey, snippetKey, source);
    forall k | 0 <= k < |items|
      ensures results[k + shift] == hits[k]
    {
    }
  }

  /** `format_serpapi_results`, the loop that builds the result list and
      then puts the answer box in front. */
  method FormatSerpApiResults(data: Value) returns (r: Result<SearchResults, Exc>)
    ensures r == SerpApiResults(data)
  {
    var organic := GetIn(data, "organic_results", List([]));
    if organic.Err? {
      return Err(organic.error);
    }
    var items := Iter(organic.value);
    if items.Err? {
      return Err(items.error);
    }
    var mapped := MapResults(items.value, "link", "snippet", "serpapi");
    if mapped.Err? {
      return Err(mapped.error);
    }
    var results := mapped.value;
    var answer := AnswerHit(GetOr(data.fields, "answer_box", Obj([])));
    if answer.Err? {
      return Err(answer.error);
    }
    if answer.value.Some? {
      results := [answer.value.value] + results;
    }
    var q := GetIn(GetOr(data.fields, "search_parameters", Obj([])), "q", Str(""));
    if q.Err? {
      return Err(q.error);
    }
    return Ok(SearchResults(q.value, results, |results|, "google_via_serpapi"));
  }

  /** `format_brave_results`: `web.results` mapped in order, the URL from
      `url` and the snippet from `description`. */
  function BraveResults(data: Value): (r: Result<SearchResults, Exc>)
    ensures r.Ok? ==> r.value.totalResults == |r.value.results| && r.value.engine == "brave"
    ensures r.Ok? ==> forall k :: 0 <= k < |r.value.results| ==> r.value.results[k].source == "brave"
  {
    match GetIn(data, "web", Obj([]))
    case Err(e) => Err(e)
    case Ok(web) =>
      match GetIn(web, "results", List([]))
      case Err(e) => Err(e)
      case Ok(webResults) =>
        match Iter(webResults)
        case Err(e) => Err(e)
        case Ok(items) =>
          match Hits(items, "url", "description", "brave")
          case Err(e) => Err(e)
          case Ok(hits) =>
            HitsAt(items, "url", "description", "brave");
            match GetIn(GetOr(data.fields, "query", Obj([])), "original", Str(""))
            case Err(e) => Err(e)
            case Ok(q) => Ok(SearchResults(q, hits, |hits|, "brave"))
  }

  /** The web results of a Brave response given as a list. */
  function WebItems(data: Value): seq<Value>
    requires data.Obj?
  {
    var web := GetOr(data.fields, "web", Obj([]));
    if web.Obj? then
      var items := GetOr(web.fields, "results", List([]));
      if items.List? then items.items else []
    else []
  }

  /** The results of a Brave response with its web results in a list are
      exactly those results, mapped in order (whose positions `ShiftedHits`
      states, with no shift). */
  lemma {:induction false} BraveParts(data: Value)
    requires BraveResults(data).Ok? && data.Obj?
    requires GetOr(data.fields, "web", Obj([])).Obj?
    requires GetOr(GetOr(data.fields, "web", Obj([])).fields, "results", List([])).List?
    ensures Hits(WebItems(data), "url", "description", "brave").Ok?
    ensures BraveResults(data).value.results == Hits(WebItems(data), "url", "description", "brave").value
  {
    var web := GetOr(data.fields, "web", Obj([]));
    var items := GetOr(web.fields, "results", List([]));
    assert GetIn(data, "web", Obj([])) == Ok(web);
    assert GetIn(web, "results", List([])) == Ok(items);
    assert Iter(items) == Ok(WebItems(data));
  }

  /** `format_brave_results`, the loop that builds the result list. */
  method FormatBraveResults(data: Value) returns (r: Result<SearchResults, Exc>)
    ensures r == BraveResults(data)
  {
    var web := GetIn(data, "web", Obj([]));
    if web.Err? {
      return Err(web.error);
    }
    var webResults := GetIn(web.value, "results", List([]));
    if webResults.Err? {
      return Err(webResults.error);
    }
    var items := Iter(webResults.value);
    if items.Err? {
      return Err(items.error);
    }
    var mapped := MapResults(items.value, "url", "description", "brave");
    if mapped.Err? {
      return Err(mapped.error);
    }
    var q := GetIn(GetOr(data.fields, "query", Obj([])), "original", Str(""));
    if q.Err? {
      return Err(q.error);
    }
    return Ok(SearchResults(q.value, mapped.value, |mapped.value|, "brave"));
  }

  /** An HTTP search request: query, key and result count to the decoded
      JSON response, or the text of the failure. */
  type Fetch = (Value, string, Value) -> Result<Value, string>

  /** The environment of `search`: the default keys from the process
      environment and the two providers' requests. */
  datatype SearchEnv = SearchEnv(defaultSerpApiKey: string, defaultBraveKey: string, serpApi: Fetch, brave: Fetch)

  /** The key `search` uses: the given one, else the provider's default. */
  function EffectiveKey(provider: Value, apiKey: string, env: SearchEnv): (k: string)
    ensures apiKey != "" ==> k == apiKey
    ensures apiKey == "" && provider != Str("serpapi") && provider != Str("brave") ==> k == ""
  {
    if apiKey != "" then apiKey
    else if provider == Str("serpapi") then env.defaultSerpApiKey
    else if provider == Str("brave") then env.defaultBraveKey
    else ""
  }

  /** `search_with_serpapi` / `search_with_brave`: any failure of the
      request or of the formatter becomes a `ValueError` with the
      provider's prefix. */
  function Provider(fetched: Result<Value, string>, serp: bool): (r: Result<SearchResults, Exc>)
    ensures r.Err? ==> r.error.ValueError?
    ensures r.Err? ==> StartsWith(r.error.msg, if serp then "SerpAPI search failed: " else "Brave search failed: ")
    ensures fetched.Err? ==>
      r == Err(ValueError((if serp then "SerpAPI search failed: " else "Brave search failed: ") + fetched.error))
    ensures fetched.Ok? ==>
      var formatted := if serp then SerpApiResults(fetched.value) else BraveResults(fetched.value);
      (formatted.Ok? <==> r.Ok?) && (formatted.Ok? ==> r.value == formatted.value)
  {
    var prefix := if serp then "SerpAPI search failed: " else "Brave search failed: ";
    match fetched
    case Err(msg) => Err(ValueError(PrefixWith(prefix, msg)))
    case Ok(data) =>
      match (if serp then SerpApiResults(data) else BraveResults(data))
      case Err(e) => Err(ValueError(PrefixWith(prefix, e.Message())))
      case Ok(res) => Ok(res)
  }

  /** The error text of a search with no key for its provider. */
  function KeyMissingMessage(provider: Value): string
  {
    "API key required for " + PyStr(provider) + " search"
  }

  /** `search`: a missing key is reported before an unsupported provider;
      otherwise the chosen provider's request, formatted. */
  function Search(query: Value, provider: Value, apiKey: string, numResults: Value, env: SearchEnv): (r: Result<SearchResults, Exc>)
    ensures EffectiveKey(provider, apiKey, env) == "" ==>
      r == Err(ValueError(KeyMissingMessage(provider)))
    ensures EffectiveKey(provider, apiKey, env) != "" && provider != Str("serpapi") && provider != Str("brave") ==>
      r == Err(ValueError("Unsupported search provider: " + PyStr(provider)))
    ensures r.Ok? ==> EffectiveKey(provider, apiKey, env) != "" && (provider == Str("serpapi") || provider == Str("brave"))
    ensures r.Ok? && provider == Str("serpapi") ==>
      var fetched := env.serpApi(query, EffectiveKey(provider, apiKey, env), numResults);
      fetched.Ok? && r == SerpApiResults(fetched.value)
    ensures r.Ok? && provider == Str("brave") ==>
      var fetched := env.brave(query, EffectiveKey(provider, apiKey, env), numResults);
      fetched.Ok? && r == BraveResults(fetched.value)
    ensures r.Err? ==> r.error.ValueError?
  {
    var key := EffectiveKey(provider, apiKey, env);
    if key == "" then Err(ValueError(KeyMissingMessage(provider)))
    else if provider == Str("serpapi") then Provider(env.serpApi(query, key, numResults), true)
    else if provider == Str("brave") then Provider(env.brave(query, key, numResults), false)
    else Err(ValueError("Unsupported search provider: " + PyStr(provider)))
  }

  /** Without a key of its own or by default, `search` sends no request. */
  lemma {:induction false} SearchWithoutKeySendsNothing(query: Value, provider: Value, numResults: Value, env: SearchEnv,
                                     serpApi: Fetch, brave: Fetch)
    requires EffectiveKey(provider, "", env) == ""
    ensures Search(query, provider, "", numResults, env.(serpApi := serpApi, brave := brave)) ==
            Search(query, provider, "", numResults, env)
  {
  }

  const NoResultsText: string := "No search results found."

  /** The three lines of result `i` in the LLM context: numbered title,
      URL and summary, the last followed by a blank line. */
  function TitleLine(i: nat, hit: SearchHit): string {
    NatToString(i) + ". " + PyStr(hit.title) + "\n"
  }

  function UrlLine(hit: SearchHit): string {
    "   URL: " + PyStr(hit.url) + "\n"
  }

  function SummaryLine(hit: SearchHit): string {
    "   Summary: " + PyStr(hit.snippet) + "\n\n"
  }

  /** The blocks of the results, numbered from 1. */
  function ResultBlocks(hits: seq<SearchHit>): string {
    if hits == [] then ""
    else
      var last := hits[|hits| - 1];
      ResultBlocks(hits[..|hits| - 1]) + (TitleLine(|hits|, last) + UrlLine(last) + SummaryLine(last))
  }

  function LlmHeader(query: Value): string {
    "Search Query: " + PyStr(query) + "\n\n" + "Search Results:\n"
  }

  /** `format_search_results_for_llm`: a fixed notice when there are no
      results, otherwise the header followed by one block per result. */
  function LlmText(sr: SearchResults): (t: string)
    ensures sr.results == [] <==> t == NoResultsText
    ensures sr.results != [] ==> StartsWith(t, LlmHeader(sr.query))
  {
    if sr.results == [] then NoResultsText
    else
      var h := LlmHeader(sr.query);
      var t := h + ResultBlocks(sr.results);
      assert t[..|h|] == h;
      assert t != NoResultsText by {
        assert t[0] == 'S';
        assert NoResultsText[0] == 'N';
      }
      t
  }

  /** The result numbered `k + 1` appears in the text as its three lines. */
  lemma {:induction false} LlmTextHasResult(sr: SearchResults, k: nat)
    requires k < |sr.results|
    ensures Contains(LlmText(sr), TitleLine(k + 1, sr.results[k]) + UrlLine(sr.results[k]) + SummaryLine(sr.results[k]))
  {
    var block := TitleLine(k + 1, sr.results[k]) + UrlLine(sr.results[k]) + SummaryLine(sr.results[k]);
    var h := LlmHeader(sr.query);
    var blocks := ResultBlocks(sr.results);
    var upTo := ResultBlocks(sr.results[..k + 1]);
    var before := ResultBlocks(sr.results[..k]);
    assert sr.results[..k + 1][..k] == sr.results[..k];
    assert upTo == before + block;
    BlocksPrefix(sr.results, k + 1);
    assert blocks == upTo + blocks[|upTo|..];
    ConcatAssoc(h, upTo, blocks[|upTo|..]);
    ConcatAssoc(h, before, block);
    ConcatAssoc(h + before, block, blocks[|upTo|..]);
    OccursAtSplit(h + before, block, blocks[|upTo|..]);
    ContainsIffOccurs(LlmText(sr), block);
  }

  /** The blocks of a prefix of the results start the blocks of all of them. */
  lemma {:induction false} BlocksPrefix(hits: seq<SearchHit>, n: nat)
    requires n <= |hits|
    ensures StartsWith(ResultBlocks(hits), ResultBlocks(hits[..n]))
    decreases |hits| - n
  {
    if n == |hits| {
      assert hits[..n] == hits;
    } else {
      BlocksPrefix(hits, n + 1);
      assert hits[..n + 1][..n] == hits[..n];
      StartsWithConcat(ResultBlocks(hits), ResultBlocks(hits[..n]), TitleLine(n + 1, hits[n]) + UrlLine(hits[n]) + SummaryLine(hits[n]));
    }
  }

  /** `format_search_results_for_llm`, the loop that appends each result's
      three lines to the text. */
  method FormatSearchResultsForLlm(sr: SearchResults) returns (formatted: string)
    ensures formatted == LlmText(sr)
  {
    if sr.results == [] {
      return NoResultsText;
    }
    formatted := "Search Query: " + PyStr(sr.query) + "\n\n";
    formatted := formatted + "Search Results:\n";
    for i := 0 to |sr.results|
      invariant formatted == LlmHeader(sr.query) + ResultBlocks(sr.results[..i])
    {
      var hit := sr.results[i];
      assert sr.results[..i + 1][..i] == sr.results[..i];
      ghost var before := formatted;
      formatted := formatted + TitleLine(i + 1, hit);
      formatted := formatted + UrlLine(hit);
      formatted := formatted + SummaryLine(hit);
      ConcatAssoc(before, TitleLine(i + 1, hit), UrlLine(hit));
      ConcatAssoc(before, TitleLine(i + 1, hit) + UrlLine(hit), SummaryLine(hit));
      ConcatAssoc(LlmHeader(sr.query), ResultBlocks(sr.results[..i]),
                  TitleLine(i + 1, hit) + UrlLine(hit) + SummaryLine(hit));
    }
    assert sr.results[..|sr.results|] == sr.results;
  }

  /** `extract_search_sources`: the truthy URLs of the results, in order. */
  function Sources(hits: seq<SearchHit>): (urls: seq<Value>)
    ensures |urls| <= |hits|
    ensures forall k :: 0 <= k < |urls| ==> Truthy(urls[k])
  {
    if hits == [] then []
    else
      var last := hits[|hits| - 1];
      Sources(hits[..|hits| - 1]) + (if Truthy(last.url) then [last.url] else [])
  }

  /** The sources are exactly the truthy result URLs. */
  lemma {:induction false} SourcesAreUrls(hits: seq<SearchHit>)
    ensures forall k :: 0 <= k < |hits| && Truthy(hits[k].url) ==> hits[k].url in Sources(hits)
    ensures forall x :: x in Sources(hits) ==> exists k :: 0 <= k < |hits| && hits[k].url == x
  {
    if hits != [] {
      var init := hits[..|hits| - 1];
      SourcesAreUrls(init);
      forall x | x in Sources(hits) ensures exists k :: 0 <= k < |hits| && hits[k].url == x {
        if x in Sources(init) {
          var k :| 0 <= k < |init| && init[k].url == x;
          assert hits[k] == init[k];
        } else {
          assert hits[|hits| - 1].url == x;
        }
      }
      forall k | 0 <= k < |hits| && Truthy(hits[k].url) ensures hits[k].url in Sources(hits) {
        if k < |init| {
          assert init[k] == hits[k];
        }
      }
    }
  }

  function ExtractSearchSources(sr: SearchResults): (urls: seq<Value>)
    ensures sr.results == [] ==> urls == []
  {
    if sr.results == [] then [] else Sources(sr.results)
  }
}
