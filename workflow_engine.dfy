/** The workflow orchestrator: the execution flow derived from the
    topological order, the sequential run of the flow over one shared
    context, the node handlers for knowledge base, LLM and output, and the
    end-to-end `execute_workflow`. Database reads, decryption and the
    vector search are parameters; the LLM call goes through the modelled
    `generate_response` with the two provider calls as parameters. */
module WorkflowEngine {
  import opened Wrappers
  import opened Strings
  import opened PyValues
  import opened EdgeNavigator
  import opened LlmService

  const NoOrderMessage: string :=
    "Cannot determine a valid execution order for the workflow. Please check for cycles."

  /** `{"id": id, **node}`: `id` comes first, then the node's own entries,
      which may overwrite it. */
  function WithId(id: NodeId, node: Value): (r: Result<Fields, Exc>)
    ensures r.Ok? <==> node.Obj?
    ensures r.Err? ==> r.error.TypeError?
  {
    match node
    case Obj(fields) => Ok(Update([Field("id", Str(id))], fields))
    case _ => Err(TypeError("'" + TypeName(node) + "' object is not a mapping"))
  }

  /** One entry of the execution flow: the node with its id, and with
      `data.type` copied to `type` when the node has no `type` of its own. */
  function FlowEntry(id: NodeId, node: Value): (r: Result<Value, Exc>)
    ensures r.Ok? ==> r.value.Obj?
  {
    match WithId(id, node)
    case Err(e) => Err(e)
    case Ok(n) =>
      if HasKey(n, "type") || !HasKey(n, "data") then Ok(Obj(n))
      else
        var data := Get(n, "data");
        match In("type", data)
        case Err(e) => Err(e)
        case Ok(false) => Ok(Obj(n))
        case Ok(true) =>
          match Subscript(data, "type")
          case Err(e) => Err(e)
          case Ok(t) => Ok(Obj(Put(n, "type", t)))
  }

  /** A flow entry keeps the node's entries: its `id` is the node's own
      `id` when it has one and the node-map key otherwise; its `type` is
      the node's `type`, or else the `type` of the node's `data` dict. */
  lemma {:induction false} FlowEntryFields(id: NodeId, node: Value)
    requires node.Obj? && IsDict(node.fields)
    ensures FlowEntry(id, node).Ok? && HasKey(node.fields, "type") ==>
      Lookup(FlowEntry(id, node).value.fields, "type") == Lookup(node.fields, "type")
    ensures !HasKey(node.fields, "type") && Get(node.fields, "data").Obj? &&
            HasKey(Get(node.fields, "data").fields, "type") ==>
      FlowEntry(id, node).Ok? &&
      Lookup(FlowEntry(id, node).value.fields, "type") == Lookup(Get(node.fields, "data").fields, "type")
    ensures HasKey(node.fields, "type") ==> FlowEntry(id, node).Ok?
    ensures FlowEntry(id, node).Ok? ==>
      Lookup(FlowEntry(id, node).value.fields, "id") ==
        (if HasKey(node.fields, "id") then Lookup(node.fields, "id") else Some(Str(id)))
  {
    var n := Update([Field("id", Str(id))], node.fields);
    forall k ensures Lookup(n, k) == if HasKey(node.fields, k) then Lookup(node.fields, k) else Lookup([Field("id", Str(id))], k) {
      LookupUpdate([Field("id", Str(id))], node.fields, k);
    }
    assert HasKey(n, "type") <==> HasKey(node.fields, "type");
    assert HasKey(n, "data") <==> HasKey(node.fields, "data");
    assert Get(n, "data") == Get(node.fields, "data");
    if FlowEntry(id, node).Ok? && !HasKey(n, "type") && HasKey(n, "data") {
      var data := Get(n, "data");
      if In("type", data) == Ok(true) {
        var t := Subscript(data, "type").value;
        LookupPut(n, "type", t, "id");
      }
    }
  }

  /** The flow entries of the ids in `order`, in order; the first failing
      entry raises. Every id of the order is a node-map key. */
  function FlowEntries(nodes: Fields, order: seq<NodeId>): (r: Result<seq<Value>, Exc>)
    ensures r.Ok? ==> |r.value| == |order|
  {
    if order == [] then Ok([])
    else
      var last := order[|order| - 1];
      match FlowEntries(nodes, order[..|order| - 1])
      case Err(e) => Err(e)
      case Ok(init) =>
        match FlowEntry(last, Get(nodes, last))
        case Err(e) => Err(e)
        case Ok(v) => Ok(init + [v])
  }

  /** The entries of one more id: those before it, then its own. */
  lemma {:induction false} FlowEntriesSnoc(nodes: Fields, order: seq<NodeId>, i: nat)
    requires i < |order|
    ensures FlowEntries(nodes, order[..i]).Ok? && FlowEntry(order[i], Get(nodes, order[i])).Ok? ==>
      FlowEntries(nodes, order[..i + 1]) ==
        Ok(FlowEntries(nodes, order[..i]).value + [FlowEntry(order[i], Get(nodes, order[i])).value])
    ensures FlowEntries(nodes, order[..i]).Ok? && FlowEntry(order[i], Get(nodes, order[i])).Err? ==>
      FlowEntries(nodes, order[..i + 1]) == Err(FlowEntry(order[i], Get(nodes, order[i])).error)
  {
    assert order[..i + 1][..i] == order[..i];
  }

  /** An entry that fails stops the flow with its error whatever follows. */
  lemma {:induction false} FlowEntriesFailFast(nodes: Fields, order: seq<NodeId>, k: nat)
    requires k <= |order| && FlowEntries(nodes, order[..k]).Err?
    ensures FlowEntries(nodes, order) == FlowEntries(nodes, order[..k])
    decreases |order| - k
  {
    if k < |order| {
      assert order[..k + 1][..k] == order[..k];
      FlowEntriesFailFast(nodes, order, k + 1);
    } else {
      assert order[..k] == order;
    }
  }

  lemma {:induction false} KeysDistinct(nodes: Fields)
    requires IsDict(nodes)
    ensures Distinct(Keys(nodes))
  {
  }

  /** What `get_execution_flow` computes: the navigator's error, a
      `ValueError` when its order is empty, otherwise the flow entries in
      that order. */
  function ExecutionFlowOf(nodes: Fields, edges: seq<Edge>): Result<seq<Value>, Exc> {
    match MissingEndpoint(Keys(nodes), edges)
    case Some(id) => Err(KeyError(id))
    case None =>
      var order := KahnOrder(Keys(nodes), edges);
      if order == [] then Err(ValueError(NoOrderMessage)) else FlowEntries(nodes, order)
  }

  /** `get_execution_flow`: a `KeyError` for an edge naming an unknown
      node, a `ValueError` when the topological order is empty (a cycle,
      or no nodes at all), otherwise one flow entry per node in the order
      Kahn's first-in-first-out schedule visits them, which is a topological
      order. */
  method GetExecutionFlow(nodes: Fields, edges: seq<Edge>) returns (r: Result<seq<Value>, Exc>)
    requires IsDict(nodes)
    ensures MissingEndpoint(Keys(nodes), edges).Some? ==>
      r == Err(KeyError(MissingEndpoint(Keys(nodes), edges).value))
    ensures MissingEndpoint(Keys(nodes), edges).None? && (nodes == [] || HasCycle(edges)) ==>
      r == Err(ValueError(NoOrderMessage))
    ensures MissingEndpoint(Keys(nodes), edges).None? && nodes != [] && !HasCycle(edges) ==>
      var order := KahnOrder(Keys(nodes), edges);
      IsPermutationOf(order, Keys(nodes)) && RespectsEdges(order, edges) && r == FlowEntries(nodes, order)
    ensures r == ExecutionFlowOf(nodes, edges)
  {
    KeysDistinct(nodes);
    var ordered := GetTopologicalOrder(Keys(nodes), edges);
    if ordered.Err? {
      return Err(ordered.error);
    }
    var order := ordered.value;
    if order == [] {
      return Err(ValueError(NoOrderMessage));
    }
    assert IsPermutationOf(order, Keys(nodes)) && RespectsEdges(order, edges);
    assert MissingEndpoint(Keys(nodes), edges).None? && nodes != [] && !HasCycle(edges);
    r := CollectFlowEntries(nodes, order);
  }

  /** The loop of `get_execution_flow`: one flow entry per id, in order. */
  method CollectFlowEntries(nodes: Fields, order: seq<NodeId>) returns (r: Result<seq<Value>, Exc>)
    ensures r == FlowEntries(nodes, order)
  {
    var flow: seq<Value> := [];
    for i := 0 to |order|
      invariant FlowEntries(nodes, order[..i]) == Ok(flow)
    {
      var entry := FlowEntry(order[i], Get(nodes, order[i]));
      FlowEntriesSnoc(nodes, order, i);
      if entry.Err? {
        FlowEntriesFailFast(nodes, order, i + 1);
        return Err(entry.error);
      }
      flow := flow + [entry.value];
    }
    assert order[..|order|] == order;
    return Ok(flow);
  }

  // ---------------------------------------------------------------------
  // Shared context and collaborators

  /** The shared context dict of `execute_flow`; an entry that was never
      written is `None`. */
  datatype Context = Context(
    query: string, stackId: string,
    knowledgeContext: Option<string>, webSearchContext: Option<string>,
    llmResponse: Option<string>, finalOutput: Option<string>)

  /** What `execute_flow` accumulates: the context, the web sources and
      the retrieved chunks. */
  datatype FlowState = FlowState(ctx: Context, sources: seq<Value>, chunks: seq<Value>)

  function Initial(query: string, stackId: string): FlowState {
    FlowState(Context(query, stackId, None, None, None, None), [], [])
  }

  /** The arguments of the vector search (`search_similar_chunks`). */
  datatype ChunkQuery = ChunkQuery(
    stackId: string, query: string, apiKey: string, model: Value, topK: Value, threshold: Value)

  /** The orchestrator's collaborators: the decrypted key dict, the vector
      search, the two LLM providers, Python's `float()` on strings and the
      `:.3f` rendering of a score (`None` when it raises). */
  datatype Services = Services(
    apiKeys: Fields,
    search: ChunkQuery -> Result<seq<Value>, string>,
    openAi: OpenAiCall, gemini: GeminiCall,
    parseFloat: string -> Option<real>,
    fixed3: Value -> Option<string>)

  /** `config.get("apiKey") or node_data.get("api_key") or api_keys.get(role, "")`:
      the node's own key wins over the stored one. */
  function ResolveKey(config: Fields, nodeData: Fields, apiKeys: Fields, role: string): (k: Value)
    ensures Truthy(Get(config, "apiKey")) ==> k == Get(config, "apiKey")
    ensures !Truthy(Get(config, "apiKey")) && Truthy(Get(nodeData, "api_key")) ==> k == Get(nodeData, "api_key")
    ensures !Truthy(Get(config, "apiKey")) && !Truthy(Get(nodeData, "api_key")) ==> k == GetOr(apiKeys, role, Str(""))
  {
    Or(Or(Get(config, "apiKey"), Get(nodeData, "api_key")), GetOr(apiKeys, role, Str("")))
  }

  /** The dict under `key`, or `{}` when it is missing or not a dict. */
  function DictAt(d: Fields, key: string): (r: Fields)
    ensures Get(d, key).Obj? ==> r == Get(d, key).fields
    ensures !Get(d, key).Obj? ==> r == []
  {
    var v := Get(d, key);
    if v.Obj? then v.fields else []
  }

  // ---------------------------------------------------------------------
  // Knowledge-base context

  /** `f"[{i}] Source: {source}\nContent: {content}"` for one chunk. */
  function ContextBlock(i: nat, chunk: Value): (r: Result<string, Exc>)
    ensures r.Ok? <==> chunk.Obj?
    ensures r.Ok? ==> StartsWith(r.value, "[" + NatToString(i) + "] Source: ")
  {
    match GetIn(chunk, "content", Str(""))
    case Err(e) => Err(e)
    case Ok(content) =>
      var source := GetOr(chunk.fields, "source", Str("Unknown"));
      var prefix := "[" + NatToString(i) + "] Source: ";
      var r := prefix + PyStr(source) + "\nContent: " + PyStr(content);
      assert r[..|prefix|] == prefix;
      Ok(r)
  }

  /** The blocks of the chunks, numbered from 1; the first chunk that is
      not a dict raises. */
  function ContextBlocks(chunks: seq<Value>): (r: Result<seq<string>, Exc>)
    ensures r.Ok? ==> |r.value| == |chunks|
  {
    if chunks == [] then Ok([])
    else
      match ContextBlocks(chunks[..|chunks| - 1])
      case Err(e) => Err(e)
      case Ok(bs) =>
        match ContextBlock(|chunks|, chunks[|chunks| - 1])
        case Err(e) => Err(e)
        case Ok(b) => Ok(bs + [b])
  }

  /** The blocks exist exactly when every chunk is a dict. */
  lemma {:induction false} ContextBlocksOkIff(chunks: seq<Value>)
    ensures ContextBlocks(chunks).Ok? <==> forall k :: 0 <= k < |chunks| ==> chunks[k].Obj?
  {
    if chunks != [] {
      var init := chunks[..|chunks| - 1];
      ContextBlocksOkIff(init);
      assert forall k :: 0 <= k < |init| ==> init[k] == chunks[k];
    }
  }

  /** Block `k` is the block of chunk `k`, numbered `k + 1`. */
  lemma {:induction false} ContextBlocksAt(chunks: seq<Value>)
    requires ContextBlocks(chunks).Ok?
    ensures forall k :: 0 <= k < |chunks| ==> ContextBlock(k + 1, chunks[k]) == Ok(ContextBlocks(chunks).value[k])
  {
    if chunks != [] {
      var init := chunks[..|chunks| - 1];
      ContextBlocksAt(init);
      var bs := ContextBlocks(init).value;
      var b := ContextBlock(|chunks|, chunks[|chunks| - 1]).value;
      var all := bs + [b];
      assert ContextBlocks(chunks).value == all;
      forall k | 0 <= k < |chunks| ensures ContextBlock(k + 1, chunks[k]) == Ok(all[k]) {
        if k < |init| {
          assert init[k] == chunks[k] && all[k] == bs[k];
        } else {
          assert all[k] == b;
        }
      }
    }
  }

  /** `format_chunks_for_context`: the numbered blocks joined by blank lines. */
  function ContextText(chunks: seq<Value>): Result<string, Exc> {
    if chunks == [] then Ok("")
    else
      match ContextBlocks(chunks)
      case Err(e) => Err(e)
      case Ok(bs) => Ok(Join(bs, "\n\n"))
  }

  /** The context text opens with the first chunk's block, "[1] Source: ...". */
  lemma {:induction false} ContextTextOpens(chunks: seq<Value>)
    requires chunks != [] && ContextText(chunks).Ok?
    ensures StartsWith(ContextText(chunks).value, "[1] Source: ")
  {
    var bs := ContextBlocks(chunks).value;
    JoinStartsWithFirst(bs, "\n\n");
    ContextBlocksAt(chunks);
    FirstBlockOpens(chunks[0]);
    PrefixOfPrefix(ContextText(chunks).value, bs[0], "[1] Source: ");
  }

  lemma {:induction false} FirstBlockOpens(chunk: Value)
    requires chunk.Obj?
    ensures StartsWith(ContextBlock(1, chunk).value, "[1] Source: ")
  {
    assert "[" + NatToString(1) + "] Source: " == "[1] Source: ";
  }

  /** Every block is nonempty, so the context text is empty exactly when
      there are no chunks. */
  lemma {:induction false} ContextTextEmptyIff(chunks: seq<Value>)
    requires ContextText(chunks).Ok?
    ensures ContextText(chunks).value == "" <==> chunks == []
  {
    if chunks != [] {
      ContextTextOpens(chunks);
    }
  }

  lemma {:induction false} PrefixOfPrefix(s: string, t: string, p: string)
    requires |t| <= |s| && s[..|t|] == t && StartsWith(t, p)
    ensures StartsWith(s, p)
  {
    assert s[..|p|] == s[..|t|][..|p|];
  }

  /** A join starts with its first part. */
  lemma {:induction false} JoinStartsWithFirst(parts: seq<string>, sep: string)
    requires parts != []
    ensures |parts[0]| <= |Join(parts, sep)|
    ensures Join(parts, sep)[..|parts[0]|] == parts[0]
  {
    if |parts| > 1 {
      var j := Join(parts, sep);
      assert j == parts[0] + (sep + Join(parts[1..], sep));
    }
  }

  /** `format_chunks_for_context`, the loop that collects the numbered
      blocks and joins them. */
  method FormatChunksForContext(chunks: seq<Value>) returns (r: Result<string, Exc>)
    ensures r == ContextText(chunks)
  {
    if chunks == [] {
      return Ok("");
    }
    var parts: seq<string> := [];
    for i := 0 to |chunks|
      invariant ContextBlocks(chunks[..i]) == Ok(parts)
    {
      assert chunks[..i + 1][..i] == chunks[..i];
      var block := ContextBlock(i + 1, chunks[i]);
      if block.Err? {
        ContextBlocksFailFast(chunks, i + 1);
        return Err(block.error);
      }
      parts := parts + [block.value];
    }
    assert chunks[..|chunks|] == chunks;
    return Ok(Join(parts, "\n\n"));
  }

  lemma {:induction false} ContextBlocksFailFast(chunks: seq<Value>, k: nat)
    requires k <= |chunks| && ContextBlocks(chunks[..k]).Err?
    ensures ContextBlocks(chunks) == ContextBlocks(chunks[..k])
    decreases |chunks| - k
  {
    if k < |chunks| {
      assert chunks[..k + 1][..k] == chunks[..k];
      ContextBlocksFailFast(chunks, k + 1);
    } else {
      assert chunks[..k] == chunks;
    }
  }

  /** `format_chunk_for_response`: score, source and the first 200
      elements of the content, with "..." when the content is longer; the
      chunk's own `str()` when any of that raises. */
  function FormatChunkForResponse(chunk: Value, fixed3: Value -> Option<string>): (r: string)
    ensures !chunk.Obj? ==> r == PyStr(chunk)
    ensures chunk.Obj? && Get(chunk.fields, "content").Str? && fixed3(GetOr(chunk.fields, "score", Int(0))).Some? ==>
      var content := Get(chunk.fields, "content").s;
      StartsWith(r, "[Score: ") &&
      (|content| <= 200 ==> EndsWith(r, " - " + content)) &&
      (|content| > 200 ==> EndsWith(r, " - " + content[..200] + "..."))
  {
    if !chunk.Obj? then PyStr(chunk)
    else
      var content := GetOr(chunk.fields, "content", Str(""));
      var source := GetOr(chunk.fields, "source", Str("Unknown"));
      var score := GetOr(chunk.fields, "score", Int(0));
      match fixed3(score)
      case None => PyStr(chunk)
      case Some(sc) =>
        var head := "[Score: " + sc + "] Source: " + PyStr(source) + " - ";
        match content
        case Str(c) =>
          ResponseShape(sc, PyStr(source), c);
          head + SliceTo(c, 200) + (if |c| > 200 then "..." else "")
        case List(items) =>
          head + PyStr(List(SliceTo(items, 200))) + (if |items| > 200 then "..." else "")
        case _ => PyStr(chunk)
  }

  /** The shape of a formatted chunk whose content is a string: the score
      tag in front, the content or its first 200 characters and "..." at
      the end. */
  lemma {:induction false} ResponseShape(sc: string, source: string, c: string)
    ensures var r := "[Score: " + sc + "] Source: " + source + " - " + SliceTo(c, 200) + (if |c| > 200 then "..." else "");
      StartsWith(r, "[Score: ") &&
      (|c| <= 200 ==> EndsWith(r, " - " + c)) &&
      (|c| > 200 ==> EndsWith(r, " - " + c[..200] + "..."))
  {
    var r := "[Score: " + sc + "] Source: " + source + " - " + SliceTo(c, 200) + (if |c| > 200 then "..." else "");
    assert r[..8] == "[Score: ";
    assert |c| <= 200 ==> r[|r| - |" - " + c|..] == " - " + c;
    assert |c| > 200 ==> r[|r| - |" - " + c[..200] + "..."|..] == " - " + c[..200] + "...";
  }

  // ---------------------------------------------------------------------
  // Node handlers

  /** What `process_knowledge_base_node` returns. */
  datatype KbOutcome = KbOutcome(knowledgeContext: string, chunks: seq<Value>)

  /** The node's `data` and its `config`, each `{}` when not a dict. */
  function KbData(node: Fields): Fields {
    DictAt(node, "data")
  }

  function KbConfig(node: Fields): Fields {
    DictAt(KbData(node), "config")
  }

  function KbKey(node: Fields, apiKeys: Fields): Value {
    ResolveKey(KbConfig(node), KbData(node), apiKeys, "knowledge")
  }

  /** The search request the node describes: embedding model, top-k and
      threshold each from the node, then its config, then the default. */
  function KbQuery(node: Fields, query: string, stackId: string, key: string): (q: ChunkQuery)
    ensures q.stackId == stackId && q.query == query && q.apiKey == key
    ensures !Truthy(Get(KbConfig(node), "embeddingModel")) && !HasKey(KbData(node), "embedding_model") ==>
      q.model == Str("text-embedding-3-large")
    ensures !Truthy(Get(KbData(node), "top_k")) && !HasKey(KbConfig(node), "max_chunks") ==> q.topK == Int(5)
    ensures !Truthy(Get(KbData(node), "similarity_threshold")) && !HasKey(KbConfig(node), "similarity_threshold") ==>
      q.threshold == Float(0.7, "0.7")
  {
    var data := KbData(node);
    var config := KbConfig(node);
    ChunkQuery(stackId, query, key,
      Or(Get(config, "embeddingModel"), GetOr(data, "embedding_model", Str("text-embedding-3-large"))),
      Or(Get(data, "top_k"), GetOr(config, "max_chunks", Int(5))),
      Or(Get(data, "similarity_threshold"), GetOr(config, "similarity_threshold", Float(0.7, "0.7"))))
  }

  /** `process_knowledge_base_node`: without a key it reports so and
      searches nothing; every failure is caught and reported as
      "Error retrieving knowledge: ..." with no chunks; otherwise the
      context text of the chunks the search returned. */
  function ProcessKnowledgeBaseNode(node: Fields, query: string, stackId: string, env: Services): (o: KbOutcome)
    ensures !Truthy(KbKey(node, env.apiKeys)) ==> o == KbOutcome("No API key found for knowledge base", [])
    ensures o.chunks != [] ==>
      KbKey(node, env.apiKeys).Str? &&
      env.search(KbQuery(node, query, stackId, KbKey(node, env.apiKeys).s)) == Ok(o.chunks) &&
      ContextText(o.chunks) == Ok(o.knowledgeContext)
    ensures Truthy(KbKey(node, env.apiKeys)) && o.chunks == [] ==> StartsWith(o.knowledgeContext, "Error retrieving knowledge: ") || o.knowledgeContext == ""
    ensures Truthy(KbKey(node, env.apiKeys)) && !KbKey(node, env.apiKeys).Str? ==>
      o == KbOutcome(KbErrorPrefix + NoAttribute(KbKey(node, env.apiKeys), "startswith"), [])
    ensures KbKey(node, env.apiKeys).Str? && KbKey(node, env.apiKeys).s != [] ==>
      var found := env.search(KbQuery(node, query, stackId, KbKey(node, env.apiKeys).s));
      (found.Err? ==> o == KbOutcome(KbErrorPrefix + found.error, [])) &&
      (found.Ok? && ContextText(found.value).Ok? ==> o == KbOutcome(ContextText(found.value).value, found.value)) &&
      (found.Ok? && ContextText(found.value).Err? ==>
        o == KbOutcome(KbErrorPrefix + ContextText(found.value).error.Message(), []))
  {
    var key := KbKey(node, env.apiKeys);
    if !Truthy(key) then KbOutcome("No API key found for knowledge base", [])
    else if !key.Str? then KbOutcome(ErrorRetrieving(NoAttribute(key, "startswith")), [])
    else
      match env.search(KbQuery(node, query, stackId, key.s))
      case Err(msg) => KbOutcome(ErrorRetrieving(msg), [])
      case Ok(chunks) =>
        match ContextText(chunks)
        case Err(e) => KbOutcome(ErrorRetrieving(e.Message()), [])
        case Ok(text) => KbOutcome(text, chunks)
  }

  const KbErrorPrefix: string := "Error retrieving knowledge: "

  function ErrorRetrieving(msg: string): (r: string)
    ensures StartsWith(r, "Error retrieving knowledge: ") && r == KbErrorPrefix + msg
  {
    var p := KbErrorPrefix;
    assert (p + msg)[..|p|] == p;
    p + msg
  }

  /** A knowledge-base node without a key never consults the search. */
  lemma {:induction false} KbWithoutKeySearchesNothing(node: Fields, query: string, stackId: string, env: Services,
                                    other: ChunkQuery -> Result<seq<Value>, string>)
    requires !Truthy(KbKey(node, env.apiKeys))
    ensures ProcessKnowledgeBaseNode(node, query, stackId, env.(search := other)) ==
            ProcessKnowledgeBaseNode(node, query, stackId, env)
  {
  }

  const LlmSystemPrompt: string :=
    "You are a helpful assistant. Use the provided context to answer the user's question accurately and comprehensively. If the context doesn't contain enough information, say so clearly."

  /** The corrections the LLM node applies to OpenAI model names. */
  function OpenAiModelFix(model: string): (r: Option<string>)
    ensures r.Some? ==> r.value in OpenAiModels
  {
    if model == "GPT-4o" then Some("gpt-4o")
    else if model == "GPT-4o-Mini" then Some("gpt-4o-mini")
    else if model == "GPT-4" then Some("gpt-4o")
    else if model == "GPT-3.5-Turbo" then Some("gpt-3.5-turbo")
    else if model == "gpt-4" then Some("gpt-4o")
    else None
  }

  /** The model the LLM node sends: a name the key's provider accepts.
      A valid name passes unchanged; for OpenAI a known misspelling is
      corrected and anything else becomes the provider's default. Looking
      a list or dict up in the corrections table raises `TypeError`. */
  function NormalizeModel(gemini: bool, model: Value): (r: Result<string, Exc>)
    ensures r.Ok? && gemini ==> r.value in GeminiModels
    ensures r.Ok? && !gemini ==> r.value in OpenAiModels
    ensures r.Err? <==> !gemini && !Hashable(model)
    ensures r.Ok? && model.Str? && (if gemini then model.s in GeminiModels else model.s in OpenAiModels) ==>
      r.value == model.s
    ensures r.Ok? && !(model.Str? && (model.s in GeminiModels || model.s in OpenAiModels || OpenAiModelFix(model.s).Some?)) ==>
      r.value == (if gemini then "gemini-1.5-flash" else "gpt-4o-mini")
  {
    if gemini then
      if model.Str? && model.s in GeminiModels then Ok(model.s) else Ok("gemini-1.5-flash")
    else if !Hashable(model) then Err(TypeError("unhashable type: '" + TypeName(model) + "'"))
    else if model.Str? && OpenAiModelFix(model.s).Some? then Ok(OpenAiModelFix(model.s).value)
    else if model.Str? && model.s in OpenAiModels then Ok(model.s)
    else Ok("gpt-4o-mini")
  }

  /** `float(t)` clamped to [0, 2], or 0.7 when the conversion raises. */
  function ClampTemperature(t: Value, parseFloat: string -> Option<real>): (r: real)
    ensures 0.0 <= r <= 2.0
    ensures ToFloat(t, parseFloat).None? ==> r == 0.7
    ensures ToFloat(t, parseFloat).Some? && 0.0 <= ToFloat(t, parseFloat).value <= 2.0 ==>
      r == ToFloat(t, parseFloat).value
  {
    match ToFloat(t, parseFloat)
    case None => 0.7
    case Some(x) => if x < 0.0 then 0.0 else if x > 2.0 then 2.0 else x
  }

  /** The context handed to the LLM: the knowledge-base section, then the
      web-search section, each present only when its text is nonempty. */
  function LlmContext(kc: string, wc: string): (c: string)
    ensures c == "" <==> kc == "" && wc == ""
    ensures kc != "" ==> StartsWith(c, "Knowledge Base Context:\n" + kc + "\n\n")
    ensures wc != "" ==> EndsWith(c, "Web Search Context:\n" + wc + "\n\n")
    ensures kc == "" ==> c == (if wc == "" then "" else "Web Search Context:\n" + wc + "\n\n")
  {
    var k := if kc == "" then "" else "Knowledge Base Context:\n" + kc + "\n\n";
    var w := if wc == "" then "" else "Web Search Context:\n" + wc + "\n\n";
    assert (k + w)[..|k|] == k;
    assert (k + w)[|k + w| - |w|..] == w;
    k + w
  }

  /** The request the LLM node sends once it has a string key: the
      provider follows the key prefix and the model is one that provider
      accepts, the temperature lies in [0, 2], and the context is present
      exactly when the knowledge-base or web-search text is nonempty. Only
      looking an unhashable model up in the corrections table raises. */
  function LlmRequest(config: Fields, key: string, ctx: Context, env: Services): (r: Result<GenerateRequest, Exc>)
    ensures r.Err? <==> !StartsWith(key, "AIzaSy") && !Hashable(GetOr(config, "model", Str("gpt-4o-mini")))
    ensures r.Ok? ==> r.value.query == ctx.query && r.value.apiKey == key && r.value.systemPrompt == LlmSystemPrompt
    ensures r.Ok? && DetectApiKeyType(key) == Gemini ==> r.value.model in GeminiModels
    ensures r.Ok? && DetectApiKeyType(key) != Gemini ==> r.value.model in OpenAiModels
    ensures r.Ok? ==> 0.0 <= r.value.temperature <= 2.0
    ensures r.Ok? ==> (r.value.context.Some? <==> ctx.knowledgeContext.GetOr("") != "" || ctx.webSearchContext.GetOr("") != "")
    ensures r.Ok? ==> (r.value.webSearchResults.Some? <==> ctx.webSearchContext.GetOr("") != "")
  {
    match NormalizeModel(StartsWith(key, "AIzaSy"), GetOr(config, "model", Str("gpt-4o-mini")))
    case Err(e) => Err(e)
    case Ok(model) =>
      var temperature := ClampTemperature(GetOr(config, "temperature", Float(0.7, "0.7")), env.parseFloat);
      var kc := ctx.knowledgeContext.GetOr("");
      var wc := ctx.webSearchContext.GetOr("");
      var c := LlmContext(kc, wc);
      Ok(GenerateRequest(ctx.query, if c == "" then None else Some(c), key, model, temperature,
                         LlmSystemPrompt, if wc == "" then None else Some(wc)))
  }

  /** The body of `process_llm_node`'s `try`: `Ok` is the response,
      `Err` the message of what it raised. A node whose key is missing
      gets a fixed notice and calls no provider. */
  function LlmAttempt(node: Fields, ctx: Context, env: Services): (r: Result<string, string>)
    ensures var nodeData := GetOr(node, "data", Obj([]));
      var config := GetIn(nodeData, "config", Obj([]));
      (config.Err? ==> r == Err(config.error.Message())) &&
      (config.Ok? && !config.value.Obj? ==> r == Err(NoAttribute(config.value, "get"))) &&
      (config.Ok? && config.value.Obj? ==>
        var key := ResolveKey(config.value.fields, nodeData.fields, env.apiKeys, "llm");
        (!Truthy(key) ==> r == Ok("No API key found for LLM")) &&
        (Truthy(key) && !key.Str? ==> r == Err(NoAttribute(key, "startswith"))) &&
        (key.Str? && key.s != [] ==>
          var req := LlmRequest(config.value.fields, key.s, ctx, env);
          (req.Err? ==> r == Err(req.error.Message())) &&
          (req.Ok? ==> r == GenerateResponse(req.value, env.openAi, env.gemini))))
  {
    var nodeData := GetOr(node, "data", Obj([]));
    match GetIn(nodeData, "config", Obj([]))
    case Err(e) => Err(e.Message())
    case Ok(config) =>
      if !config.Obj? then Err(NoAttribute(config, "get"))
      else
        var key := ResolveKey(config.fields, nodeData.fields, env.apiKeys, "llm");
        if !Truthy(key) then Ok("No API key found for LLM")
        else if !key.Str? then Err(NoAttribute(key, "startswith"))
        else
          match LlmRequest(config.fields, key.s, ctx, env)
          case Err(e) => Err(e.Message())
          case Ok(req) => GenerateResponse(req, env.openAi, env.gemini)
  }

  /** `process_llm_node`: the response, or the caught error prefixed with
      "Error processing LLM request: ". */
  function ProcessLlmNode(node: Fields, ctx: Context, env: Services): (r: string)
    ensures LlmAttempt(node, ctx, env).Ok? ==> r == LlmAttempt(node, ctx, env).value
    ensures LlmAttempt(node, ctx, env).Err? ==>
      r == "Error processing LLM request: " + LlmAttempt(node, ctx, env).error
  {
    match LlmAttempt(node, ctx, env)
    case Ok(response) => response
    case Err(msg) => "Error processing LLM request: " + msg
  }

  /** An LLM node without a key never consults either provider. */
  lemma {:induction false} LlmWithoutKeyCallsNothing(node: Fields, ctx: Context, env: Services, openAi: OpenAiCall, gemini: GeminiCall)
    requires GetOr(node, "data", Obj([])).Obj?
    requires GetOr(GetOr(node, "data", Obj([])).fields, "config", Obj([])).Obj?
    requires !Truthy(ResolveKey(GetOr(GetOr(node, "data", Obj([])).fields, "config", Obj([])).fields,
                                GetOr(node, "data", Obj([])).fields, env.apiKeys, "llm"))
    ensures ProcessLlmNode(node, ctx, env.(openAi := openAi, gemini := gemini)) == "No API key found for LLM"
    ensures ProcessLlmNode(node, ctx, env) == "No API key found for LLM"
  {
  }

  /** `process_output_node`: the LLM response when there is one, else the
      knowledge-base context under a fixed heading, else a fixed notice. */
  function ProcessOutputNode(ctx: Context): (out: string)
    ensures ctx.llmResponse.GetOr("") != "" ==> out == ctx.llmResponse.value
    ensures ctx.llmResponse.GetOr("") == "" && ctx.knowledgeContext.GetOr("") != "" ==>
      out == "Based on the available information:\n\n" + ctx.knowledgeContext.value
    ensures ctx.llmResponse.GetOr("") == "" && ctx.knowledgeContext.GetOr("") == "" ==>
      out == "No relevant information found to answer your question."
  {
    var llm := ctx.llmResponse.GetOr("");
    if llm != "" then llm
    else
      var kc := ctx.knowledgeContext.GetOr("");
      if kc != "" then "Based on the available information:\n\n" + kc
      else "No relevant information found to answer your question."
  }

  // ---------------------------------------------------------------------
  // Running the flow

  /** `node.get("type") or node.get("data", {}).get("type")` */
  function NodeTypeOf(node: Value): (r: Result<Value, Exc>)
    ensures r.Ok? ==> node.Obj?
    ensures node.Obj? && Truthy(Get(node.fields, "type")) ==> r == Ok(Get(node.fields, "type"))
  {
    match GetIn(node, "type", Null)
    case Err(e) => Err(e)
    case Ok(t) =>
      if Truthy(t) then Ok(t)
      else
        match GetIn(node, "data", Obj([]))
        case Err(e) => Err(e)
        case Ok(data) => GetIn(data, "type", Null)
  }

  predicate IsKind(node: Value, kind: string) {
    NodeTypeOf(node) == Ok(Str(kind))
  }

  /** The node types `execute_flow` dispatches on. */
  const KnownTypes: seq<Value> := [Str("userQuery"), Str("knowledgeBase"), Str("webSearch"), Str("llmEngine"), Str("output")]

  /** The chunks a node adds: those of its search when it is a
      knowledge-base node, none otherwise. */
  function ChunksOf(node: Value, query: string, stackId: string, env: Services): seq<Value> {
    if IsKind(node, "knowledgeBase") then ProcessKnowledgeBaseNode(node.fields, query, stackId, env).chunks else []
  }

  /** The knowledge context after a node: its own when it is a
      knowledge-base node, `prior` otherwise. */
  function KnowledgeOf(node: Value, query: string, stackId: string, env: Services, prior: Option<string>): Option<string> {
    if IsKind(node, "knowledgeBase")
    then Some(ProcessKnowledgeBaseNode(node.fields, query, stackId, env).knowledgeContext)
    else prior
  }

  /** One iteration of `execute_flow`: dispatch on the node type; a type
      the orchestrator does not know leaves everything unchanged. The
      web-search handler is a stub that records an empty context and no
      sources. */
  function Step(node: Value, s: FlowState, env: Services): (r: Result<FlowState, Exc>)
    ensures r.Ok? ==> r.value.ctx.query == s.ctx.query && r.value.ctx.stackId == s.ctx.stackId
    ensures r.Ok? ==> r.value.sources == s.sources
    ensures r.Err? <==> NodeTypeOf(node).Err?
    ensures NodeTypeOf(node).Ok? && NodeTypeOf(node).value !in KnownTypes ==> r == Ok(s)
    ensures r.Ok? ==> r.value.chunks == s.chunks + ChunksOf(node, s.ctx.query, s.ctx.stackId, env)
    ensures r.Ok? ==> r.value.ctx.knowledgeContext == KnowledgeOf(node, s.ctx.query, s.ctx.stackId, env, s.ctx.knowledgeContext)
  {
    match NodeTypeOf(node)
    case Err(e) => Err(e)
    case Ok(t) =>
      if t == Str("userQuery") then Ok(s)
      else if t == Str("knowledgeBase") then
        var o := ProcessKnowledgeBaseNode(node.fields, s.ctx.query, s.ctx.stackId, env);
        Ok(s.(ctx := s.ctx.(knowledgeContext := Some(o.knowledgeContext)), chunks := s.chunks + o.chunks))
      else if t == Str("webSearch") then
        Ok(s.(ctx := s.ctx.(webSearchContext := Some(""))))
      else if t == Str("llmEngine") then
        Ok(s.(ctx := s.ctx.(llmResponse := Some(ProcessLlmNode(node.fields, s.ctx, env)))))
      else if t == Str("output") then
        Ok(s.(ctx := s.ctx.(finalOutput := Some(ProcessOutputNode(s.ctx)))))
      else Ok(s)
  }

  /** The nodes of the flow processed in order; the first node whose type
      cannot be read stops the run. */
  function Run(flow: seq<Value>, s: FlowState, env: Services): Result<FlowState, Exc> {
    if flow == [] then Ok(s)
    else
      match Run(flow[..|flow| - 1], s, env)
      case Err(e) => Err(e)
      case Ok(mid) => Step(flow[|flow| - 1], mid, env)
  }

  /** The chunks the knowledge-base nodes of the flow retrieve, in flow order. */
  function KbChunks(flow: seq<Value>, query: string, stackId: string, env: Services): seq<Value> {
    if flow == [] then []
    else
      KbChunks(flow[..|flow| - 1], query, stackId, env) + ChunksOf(flow[|flow| - 1], query, stackId, env)
  }

  /** The knowledge context the last knowledge-base node of the flow
      writes, or `prior` when there is none. */
  function LastKnowledge(flow: seq<Value>, query: string, stackId: string, env: Services, prior: Option<string>): Option<string> {
    if flow == [] then prior
    else
      KnowledgeOf(flow[|flow| - 1], query, stackId, env, LastKnowledge(flow[..|flow| - 1], query, stackId, env, prior))
  }

  /** Over a whole run the query and the stack id never change and no web
      sources are collected. */
  lemma {:induction false} RunKeepsQuery(flow: seq<Value>, s: FlowState, env: Services)
    requires Run(flow, s, env).Ok?
    ensures Run(flow, s, env).value.ctx.query == s.ctx.query
    ensures Run(flow, s, env).value.ctx.stackId == s.ctx.stackId
    ensures Run(flow, s, env).value.sources == s.sources
  {
    if flow != [] {
      RunKeepsQuery(flow[..|flow| - 1], s, env);
    }
  }

  /** The chunks of a run are those of its knowledge-base nodes, in flow
      order. */
  lemma {:induction false} RunCollectsChunks(flow: seq<Value>, s: FlowState, env: Services)
    requires Run(flow, s, env).Ok?
    ensures Run(flow, s, env).value.chunks == s.chunks + KbChunks(flow, s.ctx.query, s.ctx.stackId, env)
  {
    if flow != [] {
      var init := flow[..|flow| - 1];
      RunCollectsChunks(init, s, env);
      RunKeepsQuery(init, s, env);
      StepAddsChunks(flow, s, env);
      var added := ChunksOf(flow[|flow| - 1], s.ctx.query, s.ctx.stackId, env);
      var before := KbChunks(init, s.ctx.query, s.ctx.stackId, env);
      ConcatAssoc(s.chunks, before, added);
    } else {
      assert s.chunks + [] == s.chunks;
    }
  }

  /** The last node of a run adds its own chunks to those before it. */
  lemma {:induction false} StepAddsChunks(flow: seq<Value>, s: FlowState, env: Services)
    requires flow != [] && Run(flow, s, env).Ok?
    ensures Run(flow, s, env).value.chunks ==
      Run(flow[..|flow| - 1], s, env).value.chunks +
      ChunksOf(flow[|flow| - 1], Run(flow[..|flow| - 1], s, env).value.ctx.query, Run(flow[..|flow| - 1], s, env).value.ctx.stackId, env)
  {
  }

  /** The knowledge context after a run is the one the last knowledge-base
      node wrote: a later node overwrites an earlier one. */
  lemma {:induction false} RunKeepsLastKnowledge(flow: seq<Value>, s: FlowState, env: Services)
    requires Run(flow, s, env).Ok?
    ensures Run(flow, s, env).value.ctx.knowledgeContext ==
      LastKnowledge(flow, s.ctx.query, s.ctx.stackId, env, s.ctx.knowledgeContext)
  {
    if flow != [] {
      var init := flow[..|flow| - 1];
      RunKeepsLastKnowledge(init, s, env);
      RunKeepsQuery(init, s, env);
    }
  }

  /** What `execute_flow` returns. */
  datatype FlowResult = FlowResult(output: string, sourcesUsed: seq<Value>, contextChunks: seq<string>)

  /** The final output: the output node's text, else the LLM response,
      else the query. */
  function FinalOutput(ctx: Context): (out: string)
    ensures ctx.finalOutput.Some? ==> out == ctx.finalOutput.value
    ensures ctx.finalOutput.None? && ctx.llmResponse.Some? ==> out == ctx.llmResponse.value
    ensures ctx.finalOutput.None? && ctx.llmResponse.None? ==> out == ctx.query
  {
    ctx.finalOutput.GetOr(ctx.llmResponse.GetOr(ctx.query))
  }

  function FormatChunks(chunks: seq<Value>, fixed3: Value -> Option<string>): (r: seq<string>)
    ensures |r| == |chunks|
    ensures forall k :: 0 <= k < |chunks| ==> r[k] == FormatChunkForResponse(chunks[k], fixed3)
  {
    seq(|chunks|, k requires 0 <= k < |chunks| => FormatChunkForResponse(chunks[k], fixed3))
  }

  function Outcome(s: FlowState, env: Services): FlowResult {
    FlowResult(FinalOutput(s.ctx), s.sources, FormatChunks(s.chunks, env.fixed3))
  }

  /** `execute_flow`: the loop over the flow with the shared context, the
      sources and the chunks as its state. */
  method ExecuteFlow(flow: seq<Value>, query: string, stackId: string, env: Services)
    returns (r: Result<FlowResult, Exc>)
    ensures Run(flow, Initial(query, stackId), env).Err? ==> r == Err(Run(flow, Initial(query, stackId), env).error)
    ensures Run(flow, Initial(query, stackId), env).Ok? ==> r == Ok(Outcome(Run(flow, Initial(query, stackId), env).value, env))
  {
    var context := Context(query, stackId, None, None, None, None);
    var sourcesUsed: seq<Value> := [];
    var contextChunks: seq<Value> := [];
    for i := 0 to |flow|
      invariant Run(flow[..i], Initial(query, stackId), env) == Ok(FlowState(context, sourcesUsed, contextChunks))
    {
      assert flow[..i + 1][..i] == flow[..i];
      var node := flow[i];
      assert Run(flow[..i + 1], Initial(query, stackId), env) ==
        Step(node, FlowState(context, sourcesUsed, contextChunks), env);
      var nodeType := NodeTypeOf(node);
      if nodeType.Err? {
        RunFailFast(flow, Initial(query, stackId), env, i + 1);
        return Err(nodeType.error);
      }
      var t := nodeType.value;
      if t == Str("userQuery") {
      } else if t == Str("knowledgeBase") {
        var result := ProcessKnowledgeBaseNode(node.fields, context.query, context.stackId, env);
        context := context.(knowledgeContext := Some(result.knowledgeContext));
        contextChunks := contextChunks + result.chunks;
      } else if t == Str("webSearch") {
        context := context.(webSearchContext := Some(""));
        ConcatEmpty(sourcesUsed);
        sourcesUsed := sourcesUsed + [];
      } else if t == Str("llmEngine") {
        context := context.(llmResponse := Some(ProcessLlmNode(node.fields, context, env)));
      } else if t == Str("output") {
        context := context.(finalOutput := Some(ProcessOutputNode(context)));
      }
    }
    assert flow[..|flow|] == flow;
    return Ok(FlowResult(FinalOutput(context), sourcesUsed, FormatChunks(contextChunks, env.fixed3)));
  }

  lemma {:induction false} RunFailFast(flow: seq<Value>, s: FlowState, env: Services, k: nat)
    requires k <= |flow| && Run(flow[..k], s, env).Err?
    ensures Run(flow, s, env) == Run(flow[..k], s, env)
    decreases |flow| - k
  {
    if k < |flow| {
      assert flow[..k + 1][..k] == flow[..k];
      RunFailFast(flow, s, env, k + 1);
    } else {
      assert flow[..k] == flow;
    }
  }

  // ---------------------------------------------------------------------
  // The whole workflow

  /** The stored workflow of a stack: its id, its node dict and its edges. */
  datatype WorkflowRecord = WorkflowRecord(id: string, nodes: Fields, edges: seq<Edge>)

  /** What `execute_workflow` returns; `execution_time` is not modelled. */
  datatype WorkflowResult =
    | Completed(result: string, sourcesUsed: seq<Value>, contextChunks: seq<string>, executionFlow: seq<Value>)
    | Failed(result: string)

  /** `[node["type"] for node in execution_flow]` */
  function FlowTypes(flow: seq<Value>): (r: Result<seq<Value>, Exc>)
    ensures r.Ok? ==> |r.value| == |flow|
    ensures r.Ok? ==> forall k :: 0 <= k < |flow| ==> Subscript(flow[k], "type") == Ok(r.value[k])
  {
    if flow == [] then Ok([])
    else
      match FlowTypes(flow[..|flow| - 1])
      case Err(e) => Err(e)
      case Ok(init) =>
        match Subscript(flow[|flow| - 1], "type")
        case Err(e) => Err(e)
        case Ok(t) => Ok(init + [t])
  }

  function Failure(e: Exc): (r: WorkflowResult)
    ensures r.Failed? && StartsWith(r.result, "Error executing workflow: ")
  {
    var p := "Error executing workflow: ";
    assert (p + e.Message())[..|p|] == p;
    Failed(p + e.Message())
  }

  /** What `execute_workflow` returns for a stored workflow: the first
      exception of building the flow, listing its node types or running it
      becomes a `Failed` result; otherwise the run's outcome with the list
      of node types. */
  function WorkflowOutcome(w: WorkflowRecord, query: string, stackId: string, env: Services): WorkflowResult {
    match ExecutionFlowOf(w.nodes, w.edges)
    case Err(e) => Failure(e)
    case Ok(flow) =>
      match FlowTypes(flow)
      case Err(e) => Failure(e)
      case Ok(types) =>
        match Run(flow, Initial(query, stackId), env)
        case Err(e) => Failure(e)
        case Ok(s) =>
          var o := Outcome(s, env);
          Completed(o.output, o.sourcesUsed, o.contextChunks, types)
  }

  /** `execute_workflow`: the stored workflow's execution flow, run on the
      query. Every exception becomes a `Failed` result whose text starts
      "Error executing workflow: "; a completed run had a workflow whose
      edges name known nodes, which has nodes and no cycle, and it lists
      the type of every node once. */
  method ExecuteWorkflow(stackId: string, query: string, workflow: Option<WorkflowRecord>, env: Services)
    returns (r: WorkflowResult)
    requires workflow.Some? ==> IsDict(workflow.value.nodes)
    ensures workflow.None? ==> r == Failure(ValueError("No workflow found for stack " + stackId))
    ensures r.Failed? ==> StartsWith(r.result, "Error executing workflow: ")
    ensures r.Completed? ==>
      workflow.Some? &&
      MissingEndpoint(Keys(workflow.value.nodes), workflow.value.edges).None? &&
      workflow.value.nodes != [] && !HasCycle(workflow.value.edges) &&
      |r.executionFlow| == |workflow.value.nodes|
    ensures workflow.Some? ==> r == WorkflowOutcome(workflow.value, query, stackId, env)
  {
    if workflow.None? {
      return Failure(ValueError("No workflow found for stack " + stackId));
    }
    var nodes := workflow.value.nodes;
    var edges := workflow.value.edges;
    var flow := GetExecutionFlow(nodes, edges);
    if flow.Err? {
      return Failure(flow.error);
    }
    assert |flow.value| == |nodes| by {
      if MissingEndpoint(Keys(nodes), edges).None? && nodes != [] && !HasCycle(edges) {
        assert IsPermutationOf(KahnOrder(Keys(nodes), edges), Keys(nodes));
      }
    }
    var types := FlowTypes(flow.value);
    if types.Err? {
      return Failure(types.error);
    }
    var run := ExecuteFlow(flow.value, query, stackId, env);
    if run.Err? {
      return Failure(run.error);
    }
    return Completed(run.value.output, run.value.sourcesUsed, run.value.contextChunks, types.value);
  }
}
