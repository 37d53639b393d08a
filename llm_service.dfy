/** The provider-independent part of the LLM service: recognising the kind
    of an API key, turning chat messages into Gemini's format, and the
    prompt, model and backend choices of `generate_response`. The provider
    calls themselves are parameters. */
module LlmService {
  import opened Wrappers
  import opened Strings

  const OpenAiModels: seq<string> := ["gpt-4o", "gpt-4o-mini", "gpt-4-turbo", "gpt-3.5-turbo"]
  const GeminiModels: seq<string> := ["gemini-1.5-pro", "gemini-1.5-flash", "gemini-pro"]

  datatype KeyType = Unknown | Gemini | OpenAi

  /** `detect_api_key_type`: Google keys start with `AIzaSy`; every other
      non-empty key, whether or not it starts with `sk-`, is taken for an
      OpenAI key. */
  function DetectApiKeyType(key: string): (t: KeyType)
    ensures t == Unknown <==> key == ""
    ensures t == Gemini <==> StartsWith(key, "AIzaSy")
    ensures t == OpenAi <==> key != "" && !StartsWith(key, "AIzaSy")
  {
    if key == "" then Unknown
    else if StartsWith(key, "AIzaSy") then Gemini
    else if StartsWith(key, "sk-") then OpenAi
    else OpenAi
  }

  /** A chat message in OpenAI's format. */
  datatype ChatMessage = ChatMessage(role: string, content: string)

  /** A message in Gemini's format: `{"role": ..., "parts": [...]}`. */
  datatype GeminiMessage = GeminiMessage(role: string, parts: seq<string>)

  /** The user and assistant messages, in order: the ones Gemini keeps. */
  function Conversation(messages: seq<ChatMessage>): (r: seq<ChatMessage>)
    ensures forall i :: 0 <= i < |r| ==> r[i].role in {"user", "assistant"}
    ensures |r| == CountRole(messages, "user") + CountRole(messages, "assistant")
  {
    if messages == [] then []
    else
      var last := messages[|messages| - 1];
      var init := Conversation(messages[..|messages| - 1]);
      if last.role in {"user", "assistant"} then init + [last] else init
  }

  /** Where each conversation message stands in the input. */
  function KeptAt(messages: seq<ChatMessage>): (idx: seq<nat>)
    ensures |idx| == |Conversation(messages)|
  {
    if messages == [] then []
    else
      var n := |messages| - 1;
      if messages[n].role in {"user", "assistant"} then KeptAt(messages[..n]) + [n] else KeptAt(messages[..n])
  }

  /** The kept messages are input messages in their input order, and no
      user or assistant message is dropped. */
  lemma {:induction false} ConversationInOrder(messages: seq<ChatMessage>)
    ensures forall i :: 0 <= i < |KeptAt(messages)| ==>
      KeptAt(messages)[i] < |messages| && Conversation(messages)[i] == messages[KeptAt(messages)[i]]
    ensures forall i, j :: 0 <= i < j < |KeptAt(messages)| ==> KeptAt(messages)[i] < KeptAt(messages)[j]
    ensures forall k :: 0 <= k < |messages| && messages[k].role in {"user", "assistant"} ==> k in KeptAt(messages)
  {
    if messages != [] {
      var n := |messages| - 1;
      var init := messages[..n];
      ConversationInOrder(init);
      var idx0 := KeptAt(init);
      var idx := KeptAt(messages);
      var conv0 := Conversation(init);
      var conv := Conversation(messages);
      assert |idx0| == |conv0|;
      if messages[n].role in {"user", "assistant"} {
        assert idx == idx0 + [n] && conv == conv0 + [messages[n]];
      } else {
        assert idx == idx0 && conv == conv0;
      }
      forall i | 0 <= i < |idx0|
        ensures idx[i] == idx0[i] && conv[i] == conv0[i] && idx0[i] < n && messages[idx0[i]] == init[idx0[i]]
      {
      }
      forall k | 0 <= k < n && messages[k].role in {"user", "assistant"}
        ensures k in idx
      {
        assert init[k] == messages[k];
      }
    }
  }

  function CountRole(messages: seq<ChatMessage>, role: string): nat {
    if messages == [] then 0
    else CountRole(messages[..|messages| - 1], role) + (if messages[|messages| - 1].role == role then 1 else 0)
  }

  /** The contents of the system messages, in order. */
  function SystemTexts(messages: seq<ChatMessage>): (r: seq<string>)
    ensures |r| == CountRole(messages, "system")
  {
    if messages == [] then []
    else
      var last := messages[|messages| - 1];
      var init := SystemTexts(messages[..|messages| - 1]);
      if last.role == "system" then init + [last.content] else init
  }

  /** A text is among the system texts exactly when some system message
      carries it. */
  lemma {:induction false} SystemTextsMember(messages: seq<ChatMessage>, s: string)
    ensures s in SystemTexts(messages) <==>
      exists k :: 0 <= k < |messages| && messages[k].role == "system" && messages[k].content == s
  {
    if messages != [] {
      var init := messages[..|messages| - 1];
      SystemTextsMember(init, s);
      assert forall k :: 0 <= k < |init| ==> init[k] == messages[k];
      if exists k :: 0 <= k < |messages| && messages[k].role == "system" && messages[k].content == s {
        var k :| 0 <= k < |messages| && messages[k].role == "system" && messages[k].content == s;
        if k < |init| {
          assert init[k] == messages[k];
        }
      }
    }
  }

  /** Gemini's name for a role. */
  function GeminiRole(role: string): string {
    if role == "user" then "user" else "model"
  }

  /** The messages `convert_to_gemini_format` produces: each user or
      assistant message in order, under its Gemini role, with the joined
      system texts in front of the first one's text. */
  function GeminiFormat(messages: seq<ChatMessage>): (r: seq<GeminiMessage>)
    ensures |r| == |Conversation(messages)|
  {
    var conv := Conversation(messages);
    var system := SystemTexts(messages);
    seq(|conv|, i requires 0 <= i < |conv| =>
      GeminiMessage(GeminiRole(conv[i].role),
        [if i == 0 && system != [] then Join(system, "\n") + "\n\n" + conv[i].content else conv[i].content]))
  }

  /** `convert_to_gemini_format`: messages are appended one by one, system
      messages and unknown roles skipped; then the first part of the first
      message is overwritten with the system texts in front of it. */
  method ConvertToGeminiFormat(messages: seq<ChatMessage>) returns (r: seq<GeminiMessage>)
    ensures r == GeminiFormat(messages)
  {
    r := [];
    for k := 0 to |messages|
      invariant |r| == |Conversation(messages[..k])|
      invariant forall i :: 0 <= i < |r| ==>
        r[i] == GeminiMessage(GeminiRole(Conversation(messages[..k])[i].role), [Conversation(messages[..k])[i].content])
    {
      assert messages[..k + 1][..k] == messages[..k];
      var m := messages[k];
      if m.role == "system" {
        continue;
      } else if m.role == "user" {
        r := r + [GeminiMessage("user", [m.content])];
      } else if m.role == "assistant" {
        r := r + [GeminiMessage("model", [m.content])];
      }
    }
    assert messages[..|messages|] == messages;
    var system := SystemTexts(messages);
    if system != [] && r != [] {
      var first := r[0].parts[0];
      r := r[0 := GeminiMessage(r[0].role, [Join(system, "\n") + "\n\n" + first])];
    }
  }

  /** Gemini keeps one message per user or assistant message, in order and
      under its Gemini role; only the first message's text can differ from
      the original, and only when there are system messages. */
  lemma {:induction false} GeminiFormatKeepsConversation(messages: seq<ChatMessage>, i: nat)
    requires i < |GeminiFormat(messages)|
    ensures |GeminiFormat(messages)| == CountRole(messages, "user") + CountRole(messages, "assistant")
    ensures GeminiFormat(messages)[i].role == (if Conversation(messages)[i].role == "user" then "user" else "model")
    ensures |GeminiFormat(messages)[i].parts| == 1
    ensures i > 0 || SystemTexts(messages) == [] ==> GeminiFormat(messages)[i].parts[0] == Conversation(messages)[i].content
    ensures i == 0 && SystemTexts(messages) != [] ==>
      GeminiFormat(messages)[i].parts[0] == Join(SystemTexts(messages), "\n") + "\n\n" + Conversation(messages)[i].content
    ensures EndsWith(GeminiFormat(messages)[i].parts[0], Conversation(messages)[i].content)
  {
    var text := GeminiFormat(messages)[i].parts[0];
    var c := Conversation(messages)[i].content;
    if i == 0 && SystemTexts(messages) != [] {
      var pre := Join(SystemTexts(messages), "\n") + "\n\n";
      assert text == pre + c;
      assert text[|text| - |c|..] == c;
    } else {
      assert text[|text| - |c|..] == c;
    }
  }

  /** The arguments of `generate_response`. */
  datatype GenerateRequest = GenerateRequest(
    query: string, context: Option<string>, apiKey: string, model: string,
    temperature: real, systemPrompt: string, webSearchResults: Option<string>)

  /** The system message: the default prompt when none is given, followed by
      the web results, when there are any, under a fixed heading. */
  function SystemMessage(systemPrompt: string, webSearchResults: Option<string>): (m: string)
    ensures systemPrompt != "" ==> StartsWith(m, systemPrompt)
    ensures systemPrompt == "" ==> StartsWith(m, "You are a helpful AI assistant.")
    ensures webSearchResults.Some? && webSearchResults.value != "" ==> EndsWith(m, webSearchResults.value)
    ensures webSearchResults.None? || webSearchResults.value == "" ==>
      m == (if systemPrompt == "" then "You are a helpful AI assistant." else systemPrompt)
  {
    var base := if systemPrompt == "" then "You are a helpful AI assistant." else systemPrompt;
    if webSearchResults.Some? && webSearchResults.value != "" then
      var m := base + "\n\nYou have access to the following web search results:\n" + webSearchResults.value;
      assert m[..|base|] == base;
      assert m[|m| - |webSearchResults.value|..] == webSearchResults.value;
      m
    else base
  }

  /** The user message: the bare query, or the document context followed by
      the query when there is a non-empty context. */
  function UserMessage(query: string, context: Option<string>): (m: string)
    ensures context.None? || context.value == "" ==> m == query
    ensures context.Some? && context.value != "" ==> StartsWith(m, "Context from documents:\n") && EndsWith(m, "\n\nQuery: " + query)
  {
    if context.Some? && context.value != "" then
      var m := "Context from documents:\n" + context.value + "\n\nQuery: " + query;
      assert m[..|"Context from documents:\n"|] == "Context from documents:\n";
      assert m[|m| - |"\n\nQuery: " + query|..] == "\n\nQuery: " + query;
      m
    else query
  }

  datatype Backend = OpenAiBackend | GeminiBackend

  /** The model after the key-driven override: a Gemini key never reaches an
      OpenAI model, an OpenAI key never a Gemini model; other models pass. */
  function ChooseModel(keyType: KeyType, model: string): (m: string)
    ensures keyType == Gemini ==> m !in OpenAiModels
    ensures keyType == OpenAi ==> m !in GeminiModels
    ensures (keyType == Gemini && model in OpenAiModels) || (keyType == OpenAi && model in GeminiModels) || m == model
    ensures keyType == Unknown ==> m == model
  {
    if keyType == Gemini && model in OpenAiModels then "gemini-1.5-flash"
    else if keyType == OpenAi && model in GeminiModels then "gpt-4o-mini"
    else model
  }

  /** What `generate_response` sends: a backend, the `[system, user]`
      messages and the model. */
  datatype Plan = Plan(backend: Backend, messages: seq<ChatMessage>, model: string)

  function PlanResponse(req: GenerateRequest): (p: Plan)
    ensures p.messages == [ChatMessage("system", SystemMessage(req.systemPrompt, req.webSearchResults)),
                           ChatMessage("user", UserMessage(req.query, req.context))]
    ensures p.model == ChooseModel(DetectApiKeyType(req.apiKey), req.model)
    ensures p.backend == GeminiBackend <==> DetectApiKeyType(req.apiKey) == Gemini || p.model in GeminiModels
  {
    var keyType := DetectApiKeyType(req.apiKey);
    var model := ChooseModel(keyType, req.model);
    var messages := [ChatMessage("system", SystemMessage(req.systemPrompt, req.webSearchResults)),
                     ChatMessage("user", UserMessage(req.query, req.context))];
    Plan(if keyType == Gemini || model in GeminiModels then GeminiBackend else OpenAiBackend, messages, model)
  }

  /** A Gemini key always goes to the Gemini backend; an OpenAI key goes to
      OpenAI, since its model cannot be a Gemini model after the override. */
  lemma {:induction false} BackendFollowsKey(req: GenerateRequest)
    ensures DetectApiKeyType(req.apiKey) == Gemini ==> PlanResponse(req).backend == GeminiBackend
    ensures DetectApiKeyType(req.apiKey) == OpenAi ==> PlanResponse(req).backend == OpenAiBackend
    ensures DetectApiKeyType(req.apiKey) == Unknown ==>
      (PlanResponse(req).backend == GeminiBackend <==> req.model in GeminiModels)
  {
  }

  /** One call to a provider: messages, key, model and temperature in,
      the reply text or the error text out. */
  type OpenAiCall = (seq<ChatMessage>, string, string, real) -> Result<string, string>
  type GeminiCall = (seq<GeminiMessage>, string, string, real) -> Result<string, string>

  /** `generate_response`: the planned messages go to the chosen backend,
      Gemini receiving them converted; a provider failure becomes a
      `ValueError` naming the provider. */
  function GenerateResponse(req: GenerateRequest, openAi: OpenAiCall, gemini: GeminiCall): (r: Result<string, string>)
    ensures PlanResponse(req).backend == GeminiBackend ==>
      (gemini(GeminiFormat(PlanResponse(req).messages), req.apiKey, PlanResponse(req).model, req.temperature).Ok? <==> r.Ok?)
    ensures PlanResponse(req).backend == OpenAiBackend ==>
      (openAi(PlanResponse(req).messages, req.apiKey, PlanResponse(req).model, req.temperature).Ok? <==> r.Ok?)
    ensures r.Err? ==> StartsWith(r.error, "OpenAI API error: ") || StartsWith(r.error, "Gemini API error: ")
    ensures PlanResponse(req).backend == GeminiBackend ==>
      var g := gemini(GeminiFormat(PlanResponse(req).messages), req.apiKey, PlanResponse(req).model, req.temperature);
      (g.Ok? ==> r == Ok(g.value)) && (g.Err? ==> r == Err("Gemini API error: " + g.error))
    ensures PlanResponse(req).backend == OpenAiBackend ==>
      var o := openAi(PlanResponse(req).messages, req.apiKey, PlanResponse(req).model, req.temperature);
      (o.Ok? ==> r == Ok(o.value)) && (o.Err? ==> r == Err("OpenAI API error: " + o.error))
  {
    var plan := PlanResponse(req);
    match plan.backend
    case GeminiBackend =>
      (match gemini(GeminiFormat(plan.messages), req.apiKey, plan.model, req.temperature)
       case Ok(text) => Ok(text)
       case Err(e) => Err(PrefixWith("Gemini API error: ", e)))
    case OpenAiBackend =>
      (match openAi(plan.messages, req.apiKey, plan.model, req.temperature)
       case Ok(text) => Ok(text)
       case Err(e) => Err(PrefixWith("OpenAI API error: ", e)))
  }
}
