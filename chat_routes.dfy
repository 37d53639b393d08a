/** The chat routes: the readiness report of `POST /chat/validate` and the
    normalisation `POST /chat` applies to the orchestrator's result before
    answering. The database lookups become parameters (whether the stack
    exists, the stored workflow, the orchestrator's result dict). */
module ChatRoutes {
  import opened Wrappers
  import opened Strings
  import opened PyValues

  // ---------------------------------------------------------------------
  // Chat readiness (`validate_chat_workflow`)

  /** The type of one stored node: its own `type`, else the `type` inside
      its `data`. The default is evaluated first, so a node that is not a
      dict, or whose `data` is not a dict, raises AttributeError even when
      it has a `type` of its own. */
  function NodeTypeOf(node: Value): (r: Result<Value, Exc>)
    ensures r.Ok? <==> node.Obj? && GetOr(node.fields, "data", Obj([])).Obj?
    ensures r.Ok? && HasKey(node.fields, "type") ==> Lookup(node.fields, "type") == Some(r.value)
    ensures r.Ok? && !HasKey(node.fields, "type") ==>
      r.value == GetOr(GetOr(node.fields, "data", Obj([])).fields, "type", Null)
  {
    if !node.Obj? then Err(AttributeError(NoAttribute(node, "get")))
    else
      match GetIn(GetOr(node.fields, "data", Obj([])), "type", Null)
      case Err(e) => Err(e)
      case Ok(inner) => Ok(GetOr(node.fields, "type", inner))
  }

  /** The message of the TypeError raised when an unhashable value is
      added to a set. */
  function Unhashable(v: Value): string {
    "unhashable type: '" + TypeName(v) + "'"
  }

  /** A node the loop passes without raising. */
  predicate Admissible(node: Value) {
    match NodeTypeOf(node)
    case Err(_) => false
    case Ok(t) => Truthy(t) ==> Hashable(t)
  }

  /** Some node among `nodes` has the (truthy) type `t`. */
  predicate Typed(nodes: seq<Value>, t: Value) {
    exists k :: 0 <= k < |nodes| && NodeTypeOf(nodes[k]) == Ok(t) && Truthy(t)
  }

  /** The set `node_types` the loop ends with when it starts from `types`
      on `nodes`, or the exception that stops it. Falsy types are skipped. */
  function TypesFrom(types: set<Value>, nodes: seq<Value>): Result<set<Value>, Exc>
    decreases |nodes|
  {
    if nodes == [] then Ok(types)
    else
      match NodeTypeOf(nodes[0])
      case Err(e) => Err(e)
      case Ok(t) =>
        if !Truthy(t) then TypesFrom(types, nodes[1..])
        else if !Hashable(t) then Err(TypeError(Unhashable(t)))
        else TypesFrom(types + {t}, nodes[1..])
  }

  /** The node types of a workflow's nodes. */
  function NodeTypes(nodes: seq<Value>): Result<set<Value>, Exc> {
    TypesFrom({}, nodes)
  }

  lemma {:induction false} TypesFromOkIff(types: set<Value>, nodes: seq<Value>)
    ensures TypesFrom(types, nodes).Ok? <==> forall k :: 0 <= k < |nodes| ==> Admissible(nodes[k])
    decreases |nodes|
  {
    if nodes != [] {
      assert forall k :: 1 <= k < |nodes| ==> nodes[k] == nodes[1..][k - 1];
      var t := NodeTypeOf(nodes[0]);
      if t.Ok? && Truthy(t.value) && Hashable(t.value) {
        TypesFromOkIff(types + {t.value}, nodes[1..]);
      } else if t.Ok? && !Truthy(t.value) {
        TypesFromOkIff(types, nodes[1..]);
      }
    }
  }

  lemma {:induction false} TypesFromMember(types: set<Value>, nodes: seq<Value>, t: Value)
    requires TypesFrom(types, nodes).Ok?
    ensures t in TypesFrom(types, nodes).value <==> t in types || Typed(nodes, t)
    decreases |nodes|
  {
    if nodes != [] {
      var rest := nodes[1..];
      var first := NodeTypeOf(nodes[0]).value;
      var next := if Truthy(first) then types + {first} else types;
      assert TypesFrom(types, nodes) == TypesFrom(next, rest);
      TypesFromMember(next, rest, t);
      if Typed(rest, t) {
        var k :| 0 <= k < |rest| && NodeTypeOf(rest[k]) == Ok(t) && Truthy(t);
        assert nodes[k + 1] == rest[k];
      }
      if Typed(nodes, t) && t != first {
        var k :| 0 <= k < |nodes| && NodeTypeOf(nodes[k]) == Ok(t) && Truthy(t);
        assert k != 0;
        assert rest[k - 1] == nodes[k];
      }
    }
  }

  /** The loop collects exactly the truthy types of the nodes, and it
      finishes exactly when every node is readable and every truthy type
      hashable. */
  lemma {:induction false} NodeTypesMeaning(nodes: seq<Value>, t: Value)
    ensures NodeTypes(nodes).Ok? <==> forall k :: 0 <= k < |nodes| ==> Admissible(nodes[k])
    ensures NodeTypes(nodes).Ok? ==> (t in NodeTypes(nodes).value <==> Typed(nodes, t))
  {
    TypesFromOkIff({}, nodes);
    if NodeTypes(nodes).Ok? {
      TypesFromMember({}, nodes, t);
    }
  }

  /** The loop over `nodes.values()` that fills `node_types`. */
  method CollectNodeTypes(nodes: seq<Value>) returns (r: Result<set<Value>, Exc>)
    ensures r == NodeTypes(nodes)
  {
    var types: set<Value> := {};
    for i := 0 to |nodes|
      invariant TypesFrom(types, nodes[i..]) == NodeTypes(nodes)
    {
      assert nodes[i..][1..] == nodes[i + 1..];
      var nodeType := NodeTypeOf(nodes[i]);
      if nodeType.Err? {
        return Err(nodeType.error);
      }
      if Truthy(nodeType.value) {
        if !Hashable(nodeType.value) {
          return Err(TypeError(Unhashable(nodeType.value)));
        }
        types := types + {nodeType.value};
      }
    }
    assert nodes[|nodes|..] == [];
    return Ok(types);
  }

  /** The four `chat_requirements` flags. */
  datatype Requirements = Requirements(hasUserQuery: bool, hasOutput: bool, hasLlmEngine: bool, hasContextSource: bool)
  {
    /** `all(chat_requirements.values())` */
    predicate All() {
      hasUserQuery && hasOutput && hasLlmEngine && hasContextSource
    }
  }

  const NoRequirements := Requirements(false, false, false, false)

  const UserQueryType := Str("userQuery")
  const OutputType := Str("output")
  const LlmEngineType := Str("llmEngine")
  const KnowledgeBaseType := Str("knowledgeBase")
  const WebSearchType := Str("webSearch")

  /** The flags computed from the set of node types. */
  function RequirementsOf(types: set<Value>): Requirements {
    Requirements(
      UserQueryType in types,
      OutputType in types,
      LlmEngineType in types,
      KnowledgeBaseType in types || WebSearchType in types)
  }

  /** Each flag holds exactly when some node of the workflow has that type
      (a knowledge base or a web search for the context source). */
  lemma {:induction false} RequirementsFromNodes(nodes: seq<Value>)
    requires NodeTypes(nodes).Ok?
    ensures var req := RequirementsOf(NodeTypes(nodes).value);
      (req.hasUserQuery <==> Typed(nodes, UserQueryType)) &&
      (req.hasOutput <==> Typed(nodes, OutputType)) &&
      (req.hasLlmEngine <==> Typed(nodes, LlmEngineType)) &&
      (req.hasContextSource <==> Typed(nodes, KnowledgeBaseType) || Typed(nodes, WebSearchType))
  {
    NodeTypesMeaning(nodes, UserQueryType);
    NodeTypesMeaning(nodes, OutputType);
    NodeTypesMeaning(nodes, LlmEngineType);
    NodeTypesMeaning(nodes, KnowledgeBaseType);
    NodeTypesMeaning(nodes, WebSearchType);
  }

  const AddUserQuery := "Add a UserQuery node to accept user input"
  const AddOutput := "Add an Output node to return responses"
  const AddLlmEngine := "Add an LLM Engine node for AI responses"
  const AddContextSource := "Add a Knowledge Base or Web Search node for context"

  /** The recommendations: one fixed message per missing requirement, in
      the order of the flags. */
  function Advice(req: Requirements): (r: seq<string>)
    ensures r == [] <==> req.All()
    ensures |r| <= 4
    ensures AddUserQuery in r <==> !req.hasUserQuery
    ensures AddOutput in r <==> !req.hasOutput
    ensures AddLlmEngine in r <==> !req.hasLlmEngine
    ensures AddContextSource in r <==> !req.hasContextSource
  {
    (if req.hasUserQuery then [] else [AddUserQuery]) +
    (if req.hasOutput then [] else [AddOutput]) +
    (if req.hasLlmEngine then [] else [AddLlmEngine]) +
    (if req.hasContextSource then [] else [AddContextSource])
  }

  /** The appends that build `recommendations`. */
  method Recommend(req: Requirements) returns (recommendations: seq<string>)
    ensures recommendations == Advice(req)
  {
    recommendations := [];
    if !req.hasUserQuery {
      recommendations := recommendations + [AddUserQuery];
    }
    if !req.hasOutput {
      recommendations := recommendations + [AddOutput];
    }
    if !req.hasLlmEngine {
      recommendations := recommendations + [AddLlmEngine];
    }
    if !req.hasContextSource {
      recommendations := recommendations + [AddContextSource];
    }
  }

  /** `workflow_info`: the number of stored nodes and their types. */
  datatype WorkflowInfo = WorkflowInfo(totalNodes: nat, nodeTypes: set<Value>, stackId: string)

  /** The dict `validate_chat_workflow` returns. */
  datatype Report = Report(
    isChatReady: bool,
    error: Option<string>,
    requirements: Requirements,
    recommendations: seq<string>,
    info: Option<WorkflowInfo>)

  /** The report returned when the analysis raises. */
  function FailureReport(e: Exc): Report {
    Report(false, Some(e.Message()), NoRequirements, ["Fix workflow configuration errors"], None)
  }

  /** `nodes.values()` */
  function NodeValues(fields: Fields): (vs: seq<Value>)
    ensures |vs| == |fields|
    ensures forall k :: 0 <= k < |fields| ==> vs[k] == fields[k].val
  {
    seq(|fields|, k requires 0 <= k < |fields| => fields[k].val)
  }

  /** `workflow_data.get("nodes", {})` */
  function StoredNodes(workflow: Fields): Value {
    GetOr(workflow, "nodes", Obj([]))
  }

  /** `validate_chat_workflow`. `stackFound` is the stack lookup and
      `workflowData` the stored workflow, if any. */
  method ValidateChatWorkflow(stackId: string, stackFound: bool, workflowData: Option<Fields>)
    returns (r: Result<Report, HttpError>)
    ensures !stackFound ==> r == Err(HttpError(404, "Stack with ID " + stackId + " not found"))
    ensures r.Ok? <==> stackFound
    ensures r.Ok? ==> (r.value.isChatReady <==> r.value.requirements.All())
    ensures r.Ok? ==> (r.value.isChatReady <==> r.value.recommendations == [])
    ensures stackFound && (workflowData.None? || workflowData == Some([])) ==>
      r.value.requirements == NoRequirements && r.value.recommendations == ["Create a workflow first"] &&
      r.value.error.Some?
    ensures stackFound && workflowData.Some? && workflowData.value != [] ==>
      (r.value.error.None? <==>
        StoredNodes(workflowData.value).Obj? && NodeTypes(NodeValues(StoredNodes(workflowData.value).fields)).Ok?)
    ensures r.Ok? && r.value.error.None? ==>
      workflowData.Some? && StoredNodes(workflowData.value).Obj? &&
      r.value.info.Some? &&
      NodeTypes(NodeValues(StoredNodes(workflowData.value).fields)) == Ok(r.value.info.value.nodeTypes) &&
      r.value.requirements == RequirementsOf(r.value.info.value.nodeTypes) &&
      r.value.recommendations == Advice(r.value.requirements)
  {
    if !stackFound {
      return Err(HttpError(404, "Stack with ID " + stackId + " not found"));
    }
    if workflowData.None? || workflowData.value == [] {
      return Ok(Report(false, Some("No workflow found for stack " + stackId), NoRequirements, ["Create a workflow first"], None));
    }
    var nodes := StoredNodes(workflowData.value);
    if !nodes.Obj? {
      return Ok(FailureReport(AttributeError(NoAttribute(nodes, "values"))));
    }
    var found := CollectNodeTypes(NodeValues(nodes.fields));
    if found.Err? {
      return Ok(FailureReport(found.error));
    }
    var requirements := RequirementsOf(found.value);
    var recommendations := Recommend(requirements);
    var isChatReady := requirements.All();
    r := Ok(Report(isChatReady, None, requirements, recommendations, Some(WorkflowInfo(|nodes.fields|, found.value, stackId))));
  }

  // ---------------------------------------------------------------------
  // Normalisation of the orchestrator's result (`chat_with_workflow`)

  const ContentLimit: nat := 500

  /** `s[:500]` */
  function Cap(s: string): (r: string)
    ensures |r| <= ContentLimit && |r| <= |s|
    ensures r == s[..|r|]
    ensures |s| <= ContentLimit ==> r == s
  {
    SliceTo(s, ContentLimit)
  }

  /** The entry for a string chunk, or for a chunk of an unexpected type
      (given its `str()`): the capped text from a generic source. */
  function Plain(content: string): Fields {
    [Field("content", Str(Cap(content))), Field("source", Str("Document")), Field("score", Float(0.0, "0.0"))]
  }

  /** The entry for a chunk whose processing raised. */
  const ErrorEntry: Fields :=
    [Field("content", Str("Error processing chunk")), Field("source", Str("Document")), Field("score", Float(0.0, "0.0"))]

  /** The entry for a dict chunk, or `None` when building it raises: a
      `metadata` that is not a dict, or a score `float()` rejects. */
  function DictEntry(chunk: Fields, parseFloat: string -> Option<real>, floatText: real -> string): Option<Fields> {
    var content := PyStr(GetOr(chunk, "content", GetOr(chunk, "text", Str(""))));
    var meta := GetOr(chunk, "metadata", Obj([]));
    if !meta.Obj? then None
    else
      var source := PyStr(GetOr(chunk, "source", GetOr(meta.fields, "file_name", Str("Document"))));
      var scoreValue := GetOr(chunk, "score", GetOr(chunk, "similarity_score", Int(0)));
      match ToFloat(scoreValue, parseFloat)
      case None => None
      case Some(score) =>
        var section := PyStr(GetOr(chunk, "section", GetOr(meta.fields, "section_type", Str(""))));
        Some([Field("id", Str(PyStr(GetOr(chunk, "id", Str(""))))),
              Field("content", Str(Cap(content))),
              Field("source", Str(source)),
              Field("score", Float(score, floatText(score))),
              Field("section", Str(section))])
  }

  /** The entry one raw chunk becomes. */
  function NormalizeChunk(chunk: Value, parseFloat: string -> Option<real>, floatText: real -> string): Fields {
    match chunk
    case Str(s) => Plain(s)
    case Obj(fields) => DictEntry(fields, parseFloat, floatText).GetOr(ErrorEntry)
    case _ => Plain(PyStr(chunk))
  }

  /** Every entry carries a string `content` of at most 500 characters and
      a string `source`. */
  lemma {:induction false} EntryContentCapped(chunk: Value, parseFloat: string -> Option<real>, floatText: real -> string)
    ensures var entry := NormalizeChunk(chunk, parseFloat, floatText);
      var content := Lookup(entry, "content");
      var source := Lookup(entry, "source");
      content.Some? && content.value.Str? && |content.value.s| <= ContentLimit &&
      source.Some? && source.value.Str?
  {
    var entry := NormalizeChunk(chunk, parseFloat, floatText);
    if chunk.Obj? && DictEntry(chunk.fields, parseFloat, floatText).Some? {
      var e := entry;
      assert e == [e[0], e[1], e[2], e[3], e[4]];
      DictShapeLookups(e[0].val, e[1].val, e[2].val, e[3].val, e[4].val);
    } else {
      var e := entry;
      assert e == [e[0], e[1], e[2]];
      PlainShapeLookups(e[0].val, e[1].val, e[2].val);
    }
  }

  /** Where the three keys of a plain entry are found. */
  lemma {:induction false} PlainShapeLookups(content: Value, source: Value, score: Value)
    ensures var e := [Field("content", content), Field("source", source), Field("score", score)];
      Lookup(e, "content") == Some(content) && Lookup(e, "source") == Some(source) &&
      Lookup(e, "score") == Some(score) && !HasKey(e, "id")
  {
    var e := [Field("content", content), Field("source", source), Field("score", score)];
    assert e[1..] == [Field("source", source), Field("score", score)];
    assert e[1..][1..] == [Field("score", score)];
    assert "content" != "source" && "content" != "score" && "source" != "score";
    assert Lookup(e, "score") == Lookup(e[1..], "score") == Lookup(e[1..][1..], "score");
    assert !HasKey(e, "id") by {
      forall k | 0 <= k < |e| ensures e[k].key != "id" {
        assert e[k].key[0] != 'i';
      }
    }
  }

  /** Where the content and source of a dict chunk's entry are found. */
  lemma {:induction false} DictShapeLookups(id: Value, content: Value, source: Value, score: Value, section: Value)
    ensures var e := [Field("id", id), Field("content", content), Field("source", source),
                      Field("score", score), Field("section", section)];
      Lookup(e, "content") == Some(content) && Lookup(e, "source") == Some(source)
  {
    var e := [Field("id", id), Field("content", content), Field("source", source),
              Field("score", score), Field("section", section)];
    assert e[1..] == [Field("content", content), Field("source", source), Field("score", score), Field("section", section)];
    assert e[1..][1..] == [Field("source", source), Field("score", score), Field("section", section)];
    assert "id" != "content" && "id" != "source" && "content" != "source";
    assert Lookup(e, "source") == Lookup(e[1..], "source") == Lookup(e[1..][1..], "source");
  }

  /** A string chunk keeps its first 500 characters, from source
      "Document", with score 0.0. */
  lemma {:induction false} StringChunkEntry(s: string, parseFloat: string -> Option<real>, floatText: real -> string)
    ensures var entry := NormalizeChunk(Str(s), parseFloat, floatText);
      Lookup(entry, "content") == Some(Str(Cap(s))) &&
      Lookup(entry, "source") == Some(Str("Document")) &&
      Lookup(entry, "score") == Some(Float(0.0, "0.0")) &&
      !HasKey(entry, "id")
  {
    PlainShapeLookups(Str(Cap(s)), Str("Document"), Float(0.0, "0.0"));
  }

  /** A dict chunk takes its content from `content`, else `text`, else "";
      its source from `source`, else its metadata's `file_name`, else
      "Document"; when its metadata is not a dict it becomes the error
      entry. */
  lemma {:induction false} DictChunkEntry(chunk: Fields, parseFloat: string -> Option<real>, floatText: real -> string)
    ensures var meta := GetOr(chunk, "metadata", Obj([]));
      !meta.Obj? ==> NormalizeChunk(Obj(chunk), parseFloat, floatText) == ErrorEntry
    ensures var meta := GetOr(chunk, "metadata", Obj([]));
      var entry := NormalizeChunk(Obj(chunk), parseFloat, floatText);
      var content :=
        if HasKey(chunk, "content") then Lookup(chunk, "content").value
        else if HasKey(chunk, "text") then Lookup(chunk, "text").value
        else Str("");
      var metaFields := if meta.Obj? then meta.fields else [];
      var source :=
        if HasKey(chunk, "source") then PyStr(Lookup(chunk, "source").value)
        else if HasKey(metaFields, "file_name") then PyStr(Lookup(metaFields, "file_name").value)
        else "Document";
      DictEntry(chunk, parseFloat, floatText).Some? ==>
        Lookup(entry, "content") == Some(Str(Cap(PyStr(content)))) &&
        Lookup(entry, "source") == Some(Str(source))
  {
    var entry := NormalizeChunk(Obj(chunk), parseFloat, floatText);
    var d := DictEntry(chunk, parseFloat, floatText);
    if d.Some? {
      var e := d.value;
      assert e == [e[0], e[1], e[2], e[3], e[4]];
      DictShapeLookups(e[0].val, e[1].val, e[2].val, e[3].val, e[4].val);
    }
  }

  /** The chunks the loop visits: the items of a list, none otherwise. */
  function RawChunks(raw: Value): seq<Value> {
    if raw.List? then raw.items else []
  }

  /** The loop that builds `context_chunks`: every raw chunk yields exactly
      one entry, in order. */
  method NormalizeContextChunks(raw: Value, parseFloat: string -> Option<real>, floatText: real -> string)
    returns (chunks: seq<Fields>)
    ensures |chunks| == |RawChunks(raw)|
    ensures forall k :: 0 <= k < |chunks| ==> chunks[k] == NormalizeChunk(RawChunks(raw)[k], parseFloat, floatText)
  {
    chunks := [];
    if raw.List? {
      chunks := AppendEach(raw.items, chunk => NormalizeChunk(chunk, parseFloat, floatText));
    }
  }

  /** `for chunk in items: out.append(entry(chunk))` */
  method AppendEach(items: seq<Value>, entry: Value -> Fields) returns (out: seq<Fields>)
    ensures |out| == |items|
    ensures forall k :: 0 <= k < |items| ==> out[k] == entry(items[k])
  {
    out := [];
    for i := 0 to |items|
      invariant |out| == i
      invariant forall k :: 0 <= k < i ==> out[k] == entry(items[k])
    {
      out := out + [entry(items[i])];
    }
  }

  /** `[str(v) for v in vs if v]` */
  function Stringified(vs: seq<Value>): (r: seq<string>)
    ensures |r| <= |vs|
    ensures (forall k :: 0 <= k < |vs| ==> Truthy(vs[k])) ==> |r| == |vs|
    ensures (forall k :: 0 <= k < |vs| ==> !Truthy(vs[k])) ==> r == []
  {
    if vs == [] then []
    else
      assert forall k :: 1 <= k < |vs| ==> vs[k] == vs[1..][k - 1];
      (if Truthy(vs[0]) then [PyStr(vs[0])] else []) + Stringified(vs[1..])
  }

  /** A string is in the filtered list exactly when it is the `str()` of a
      truthy entry. */
  lemma {:induction false} StringifiedMember(vs: seq<Value>, s: string)
    ensures s in Stringified(vs) <==> exists k :: 0 <= k < |vs| && Truthy(vs[k]) && PyStr(vs[k]) == s
  {
    if vs != [] {
      var rest := vs[1..];
      StringifiedMember(rest, s);
      if s in Stringified(rest) {
        var k :| 0 <= k < |rest| && Truthy(rest[k]) && PyStr(rest[k]) == s;
        assert vs[k + 1] == rest[k];
      }
      if exists k :: 0 <= k < |vs| && Truthy(vs[k]) && PyStr(vs[k]) == s {
        var k :| 0 <= k < |vs| && Truthy(vs[k]) && PyStr(vs[k]) == s;
        if k > 0 {
          assert rest[k - 1] == vs[k];
        }
      }
    }
  }

  /** The `ChatResponse` model. */
  datatype ChatResponse = ChatResponse(
    response: string,
    sourcesUsed: seq<string>,
    contextChunks: seq<Fields>,
    executionTime: real,
    chunkCount: nat,
    executionFlow: seq<string>,
    workflowUsed: bool)

  /** The exception `float()` raises on a value it cannot convert. */
  function FloatError(v: Value): Exc {
    if v.Str? then ValueError("could not convert string to float: " + Repr(v))
    else TypeError("float() argument must be a string or a real number, not '" + TypeName(v) + "'")
  }

  /** The 500 answer for an exception raised while handling the request. */
  function ChatFailure(e: Exc): HttpError {
    HttpError(500, "Failed to process chat request: " + e.Message())
  }

  /** The time, sources and flow of the result all convert. */
  predicate Convertible(result: Fields, parseFloat: string -> Option<real>) {
    ToFloat(GetOr(result, "execution_time", Int(0)), parseFloat).Some? &&
    Iter(GetOr(result, "sources_used", List([]))).Ok? &&
    Iter(GetOr(result, "execution_flow", List([]))).Ok?
  }

  /** `chat_with_workflow` after the orchestrator has run: `result` is the
      dict it returned. The chat log insert is left out (its failures are
      only logged). */
  method ChatWithWorkflow(
    stackId: string, stackFound: bool, result: Fields,
    parseFloat: string -> Option<real>, floatText: real -> string)
    returns (r: Result<ChatResponse, HttpError>)
    ensures !stackFound ==> r == Err(HttpError(404, "Stack with ID " + stackId + " not found"))
    ensures stackFound && Truthy(Get(result, "error")) ==> r.Err? && r.error.status == 500
    ensures r.Ok? <==> stackFound && !Truthy(Get(result, "error")) && Convertible(result, parseFloat)
    ensures r.Ok? ==>
      var raw := RawChunks(GetOr(result, "context_chunks", List([])));
      r.value.chunkCount == |r.value.contextChunks| == |raw| &&
      (forall k :: 0 <= k < |raw| ==> r.value.contextChunks[k] == NormalizeChunk(raw[k], parseFloat, floatText)) &&
      r.value.response == PyStr(GetOr(result, "result", Str(""))) &&
      Some(r.value.executionTime) == ToFloat(GetOr(result, "execution_time", Int(0)), parseFloat) &&
      r.value.sourcesUsed == Stringified(Iter(GetOr(result, "sources_used", List([]))).value) &&
      r.value.executionFlow == Stringified(Iter(GetOr(result, "execution_flow", List([]))).value) &&
      r.value.workflowUsed
  {
    if !stackFound {
      return Err(HttpError(404, "Stack with ID " + stackId + " not found"));
    }
    if Truthy(Get(result, "error")) {
      match Lookup(result, "result")
      case None =>
        return Err(ChatFailure(KeyError("result")));
      case Some(v) =>
        return Err(HttpError(500, "Workflow execution failed: " + PyStr(v)));
    }
    var responseText := PyStr(GetOr(result, "result", Str("")));
    var timeValue := GetOr(result, "execution_time", Int(0));
    var executionTime := ToFloat(timeValue, parseFloat);
    if executionTime.None? {
      return Err(ChatFailure(FloatError(timeValue)));
    }
    var sourcesUsed := Iter(GetOr(result, "sources_used", List([])));
    if sourcesUsed.Err? {
      return Err(ChatFailure(sourcesUsed.error));
    }
    var rawContextChunks := GetOr(result, "context_chunks", List([]));
    var executionFlow := Iter(GetOr(result, "execution_flow", List([])));
    if executionFlow.Err? {
      return Err(ChatFailure(executionFlow.error));
    }
    var contextChunks := NormalizeContextChunks(rawContextChunks, parseFloat, floatText);
    r := Ok(ChatResponse(
      responseText, Stringified(sourcesUsed.value), contextChunks, executionTime.value,
      |contextChunks|, Stringified(executionFlow.value), true));
  }
}
