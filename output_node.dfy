/** The stand-alone output node: it picks the content to show from what
    earlier nodes left in the context, describes where it came from, and
    renders it as JSON, Markdown or plain text. JSON serialisation of the
    metadata is a parameter. */
module OutputNode {
  import opened Wrappers
  import opened Strings
  import opened PyValues

  /** The dict the node returns. */
  datatype OutputResult = OutputResult(finalOutput: Value, outputFormat: Value, metadata: Fields, contentLength: nat)

  /** The branch the content comes from, in priority order: an LLM response,
      then a knowledge context, then a web-search context, then the query. */
  function SourceOf(context: Fields): (s: string)
    ensures s == "llm" <==> Truthy(Get(context, "llm_response"))
    ensures s == "knowledge_base" <==> !Truthy(Get(context, "llm_response")) && Truthy(Get(context, "knowledge_context"))
    ensures s == "web_search" <==>
      !Truthy(Get(context, "llm_response")) && !Truthy(Get(context, "knowledge_context")) &&
      Truthy(Get(context, "web_search_context"))
    ensures s in {"llm", "knowledge_base", "web_search", "raw_query"}
  {
    if Truthy(Get(context, "llm_response")) then "llm"
    else if Truthy(Get(context, "knowledge_context")) then "knowledge_base"
    else if Truthy(Get(context, "web_search_context")) then "web_search"
    else "raw_query"
  }

  /** The content of the branch `SourceOf` names; the query branch falls
      back to "No output generated" when there is no query at all. */
  function ContentOf(context: Fields): (c: Value)
    ensures SourceOf(context) == "llm" ==> c == Get(context, "llm_response")
    ensures SourceOf(context) == "knowledge_base" ==> c == Get(context, "knowledge_context")
    ensures SourceOf(context) == "web_search" ==> c == Get(context, "web_search_context")
    ensures SourceOf(context) == "raw_query" ==> c == GetOr(context, "query", Str("No output generated"))
    ensures SourceOf(context) != "raw_query" ==> Truthy(c)
  {
    match SourceOf(context)
    case "llm" => Get(context, "llm_response")
    case "knowledge_base" => Get(context, "knowledge_context")
    case "web_search" => Get(context, "web_search_context")
    case _ => GetOr(context, "query", Str("No output generated"))
  }

  /** The metadata the chosen branch records before the execution details:
      its name, plus the model for an LLM answer or the chunk count for a
      knowledge context. */
  function BranchMetadata(context: Fields): (m: Fields)
    ensures |m| >= 1 && m[0] == Field("source", Str(SourceOf(context)))
  {
    match SourceOf(context)
    case "llm" => [Field("source", Str("llm")), Field("model_used", GetOr(context, "model_used", Str("unknown")))]
    case "knowledge_base" => [Field("source", Str("knowledge_base")), Field("chunks_count", GetOr(context, "chunks_found", Int(0)))]
    case s => [Field("source", Str(s))]
  }

  /** `len(v)`, raising for a value without a length. */
  function Len(v: Value): (r: Result<nat, Exc>)
    ensures r.Ok? <==> PyLen(v).Some?
    ensures r.Ok? ==> r.value == PyLen(v).value
  {
    match PyLen(v)
    case Some(n) => Ok(n)
    case None => Err(TypeError("object of type '" + TypeName(v) + "' has no len()"))
  }

  /** The execution details every output carries; they are new keys, so
      `metadata.update` appends them after the branch's entries. */
  function ExecutionMetadata(context: Fields): (r: Result<Fields, Exc>)
    ensures r.Ok? <==> PyLen(GetOr(context, "chunks", List([]))).Some? && PyLen(GetOr(context, "sources", List([]))).Some?
    ensures r.Ok? ==> r.value == [
      Field("execution_flow", GetOr(context, "execution_flow", List([]))),
      Field("context_chunks_used", Int(PyLen(GetOr(context, "chunks", List([]))).value)),
      Field("web_sources_used", Int(PyLen(GetOr(context, "sources", List([]))).value)),
      Field("has_knowledge_context", Bool(Truthy(Get(context, "knowledge_context")))),
      Field("has_web_context", Bool(Truthy(Get(context, "web_search_context"))))]
  {
    match Len(GetOr(context, "chunks", List([])))
    case Err(e) => Err(e)
    case Ok(chunks) =>
      match Len(GetOr(context, "sources", List([])))
      case Err(e) => Err(e)
      case Ok(sources) =>
        Ok([Field("execution_flow", GetOr(context, "execution_flow", List([]))),
            Field("context_chunks_used", Int(chunks)),
            Field("web_sources_used", Int(sources)),
            Field("has_knowledge_context", Bool(Truthy(Get(context, "knowledge_context")))),
            Field("has_web_context", Bool(Truthy(Get(context, "web_search_context"))))])
  }

  /** `content += suffix`: a string gives the longer string; a list is
      extended in place by the suffix's characters, one item each (the
      list's own `+=` takes any iterable); no other type supports `+=` with
      a string. */
  function AppendText(content: Value, suffix: string): (r: Result<Value, Exc>)
    ensures r.Ok? <==> content.Str? || content.List?
    ensures content.Str? ==> r == Ok(Str(content.s + suffix))
    ensures content.List? ==> r == Ok(List(content.items + Iter(Str(suffix)).value))
    ensures content.List? ==>
      |r.value.items| == |content.items| + |suffix| &&
      forall k :: 0 <= k < |suffix| ==> r.value.items[|content.items| + k] == Str([suffix[k]])
  {
    match content
    case Str(s) => Ok(Str(s + suffix))
    case List(items) => Ok(List(items + Iter(Str(suffix)).value))
    case _ => Err(TypeError("unsupported operand type(s) for +=: '" + TypeName(content) + "' and 'str'"))
  }

  /** The text format with metadata is the one branch that applies `+=` to
      the content object itself. */
  predicate AppendsInPlace(format: Value, withMetadata: Value) {
    format != Str("json") && format != Str("markdown") && Truthy(withMetadata)
  }

  /** The content object once rendering is done: a list content that the
      text format extended in place is the rendered output itself. */
  function ContentAfter(content: Value, format: Value, withMetadata: Value, finalOutput: Value): Value {
    if content.List? && AppendsInPlace(format, withMetadata) then finalOutput else content
  }

  /** The rendering of the content in the configured format. */
  function Render(format: Value, withMetadata: Value, content: Value, metadata: Fields, dumps: Fields -> string): (r: Result<Value, Exc>)
    requires metadata != []
    ensures format == Str("json") ==>
      r == Ok(Obj([Field("response", content), Field("metadata", if Truthy(withMetadata) then Obj(metadata) else Null)]))
    ensures format == Str("markdown") ==>
      (r.Ok? && r.value.Str? &&
       StartsWith(r.value.s, "# Response\n\n" + PyStr(content)) &&
       (Truthy(withMetadata) <==> |r.value.s| > |"# Response\n\n" + PyStr(content)|))
    ensures format != Str("json") && format != Str("markdown") && !Truthy(withMetadata) ==> r == Ok(content)
    ensures format != Str("json") && format != Str("markdown") && Truthy(withMetadata) ==>
      r == AppendText(content, "\n\n---\nGenerated using: " + PyStr(GetOr(metadata, "source", Str("unknown"))))
  {
    if format == Str("json") then
      Ok(Obj([Field("response", content), Field("metadata", if Truthy(withMetadata) then Obj(metadata) else Null)]))
    else if format == Str("markdown") then
      var head := "# Response\n\n" + PyStr(content);
      var text := if Truthy(withMetadata) && metadata != [] then head + ("\n\n---\n\n**Metadata:** " + dumps(metadata)) else head;
      assert text[..|head|] == head;
      Ok(Str(text))
    else if Truthy(withMetadata) && metadata != [] then
      AppendText(content, "\n\n---\nGenerated using: " + PyStr(GetOr(metadata, "source", Str("unknown"))))
    else Ok(content)
  }

  /** `OutputNode.process`. */
  function Process(nodeData: Value, context: Fields, dumps: Fields -> string): (r: Result<OutputResult, Exc>)
    ensures r.Ok? ==> nodeData.Obj? && GetOr(nodeData.fields, "data", Obj([])).Obj?
    ensures r.Ok? ==>
      var config := GetOr(nodeData.fields, "data", Obj([])).fields;
      var content := ContentOf(context);
      ExecutionMetadata(context).Ok? &&
      r.value.metadata == BranchMetadata(context) + ExecutionMetadata(context).value &&
      r.value.outputFormat == GetOr(config, "format", Str("text")) &&
      r.value.contentLength ==
        |PyStr(ContentAfter(content, r.value.outputFormat, GetOr(config, "include_metadata", Bool(false)), r.value.finalOutput))| &&
      Render(r.value.outputFormat, GetOr(config, "include_metadata", Bool(false)), content, r.value.metadata, dumps)
        == Ok(r.value.finalOutput)
    ensures nodeData.Obj? && GetOr(nodeData.fields, "data", Obj([])).Obj? && ExecutionMetadata(context).Ok? ==>
      var config := GetOr(nodeData.fields, "data", Obj([])).fields;
      r.Ok? <==>
        GetOr(config, "format", Str("text")) in {Str("json"), Str("markdown")} ||
        !Truthy(GetOr(config, "include_metadata", Bool(false))) || ContentOf(context).Str? || ContentOf(context).List?
  {
    match GetIn(nodeData, "data", Obj([]))
    case Err(e) => Err(e)
    case Ok(config) =>
      match GetIn(config, "format", Str("text"))
      case Err(e) => Err(e)
      case Ok(format) =>
        var withMetadata := GetOr(config.fields, "include_metadata", Bool(false));
        var content := ContentOf(context);
        match ExecutionMetadata(context)
        case Err(e) => Err(e)
        case Ok(details) =>
          var metadata := BranchMetadata(context) + details;
          match Render(format, withMetadata, content, metadata, dumps)
          case Err(e) => Err(e)
          case Ok(finalOutput) =>
            Ok(OutputResult(finalOutput, format, metadata, |PyStr(ContentAfter(content, format, withMetadata, finalOutput))|))
  }

  /** The context entry the content was read from. */
  function ContentKey(context: Fields): (key: string)
    ensures SourceOf(context) != "raw_query" ==> ContentOf(context) == Get(context, key)
  {
    match SourceOf(context)
    case "llm" => "llm_response"
    case "knowledge_base" => "knowledge_context"
    case "web_search" => "web_search_context"
    case _ => "query"
  }

  /** Whether a successful `process` extended list content in place. */
  predicate ExtendedInPlace(nodeData: Value, context: Fields, dumps: Fields -> string) {
    Process(nodeData, context, dumps).Ok? && ContentOf(context).List? &&
    AppendsInPlace(Process(nodeData, context, dumps).value.outputFormat,
                   GetOr(GetOr(nodeData.fields, "data", Obj([])).fields, "include_metadata", Bool(false)))
  }

  /** The context after `process`: the entry the content came from holds
      the same list object that `+=` extended, so it reads the extended list
      afterwards; every other entry, and every other run, leaves the context
      as it was. */
  function ContextAfter(nodeData: Value, context: Fields, dumps: Fields -> string): (c: Fields)
    ensures ExtendedInPlace(nodeData, context, dumps) ==>
      Lookup(c, ContentKey(context)) == Some(Process(nodeData, context, dumps).value.finalOutput) &&
      forall other :: other != ContentKey(context) ==> Lookup(c, other) == Lookup(context, other)
    ensures !ExtendedInPlace(nodeData, context, dumps) ==> c == context
  {
    if ExtendedInPlace(nodeData, context, dumps) then
      var c := Put(context, ContentKey(context), Process(nodeData, context, dumps).value.finalOutput);
      LookupPut(context, ContentKey(context), Process(nodeData, context, dumps).value.finalOutput, "");
      assert forall other :: other != ContentKey(context) ==> Lookup(c, other) == Lookup(context, other) by {
        forall other | other != ContentKey(context) ensures Lookup(c, other) == Lookup(context, other) {
          LookupPut(context, ContentKey(context), Process(nodeData, context, dumps).value.finalOutput, other);
        }
      }
      c
    else context
  }

  /** The metadata's `source` names the branch the content came from and
      its flags tell whether a knowledge or web context was present. */
  lemma {:induction false} MetadataRecords(nodeData: Value, context: Fields, dumps: Fields -> string)
    requires Process(nodeData, context, dumps).Ok?
    ensures
      var m := Process(nodeData, context, dumps).value.metadata;
      Lookup(m, "source") == Some(Str(SourceOf(context))) &&
      Lookup(m, "has_knowledge_context") == Some(Bool(Truthy(Get(context, "knowledge_context")))) &&
      Lookup(m, "has_web_context") == Some(Bool(Truthy(Get(context, "web_search_context"))))
  {
    MetadataLookups(context);
  }

  lemma {:induction false} MetadataLookups(context: Fields)
    requires ExecutionMetadata(context).Ok?
    ensures
      var m := BranchMetadata(context) + ExecutionMetadata(context).value;
      Lookup(m, "source") == Some(Str(SourceOf(context))) &&
      Lookup(m, "has_knowledge_context") == Some(Bool(Truthy(Get(context, "knowledge_context")))) &&
      Lookup(m, "has_web_context") == Some(Bool(Truthy(Get(context, "web_search_context"))))
  {
    var b := BranchMetadata(context);
    var e := ExecutionMetadata(context).value;
    assert (b + e)[0] == b[0];
    BranchKeys(context);
    LookupAfter(b, e, "has_knowledge_context");
    LookupAfter(b, e, "has_web_context");
    FlagLookups(e);
  }

  /** The branch's entries never use the keys of the two context flags. */
  lemma {:induction false} BranchKeys(context: Fields)
    ensures forall k :: 0 <= k < |BranchMetadata(context)| ==>
      BranchMetadata(context)[k].key != "has_knowledge_context" && BranchMetadata(context)[k].key != "has_web_context"
  {
  }

  lemma {:induction false} FlagLookups(e: Fields)
    requires |e| == 5
    requires e[0].key == "execution_flow" && e[1].key == "context_chunks_used" && e[2].key == "web_sources_used"
    requires e[3].key == "has_knowledge_context" && e[4].key == "has_web_context"
    ensures Lookup(e, "has_knowledge_context") == Some(e[3].val)
    ensures Lookup(e, "has_web_context") == Some(e[4].val)
  {
    LookupAt(e, 3);
    LookupAt(e, 4);
  }

  /** In a list whose keys before `i` differ from the key at `i`, that key
      reads the value at `i`. */
  lemma {:induction false} LookupAt(d: Fields, i: nat)
    requires i < |d| && forall k :: 0 <= k < i ==> d[k].key != d[i].key
    ensures Lookup(d, d[i].key) == Some(d[i].val)
  {
    if i > 0 {
      LookupAt(d[1..], i - 1);
    }
  }

  /** A key that the first part of a concatenation lacks is looked up in
      the second. */
  lemma {:induction false} LookupAfter(a: Fields, b: Fields, key: string)
    requires forall k :: 0 <= k < |a| ==> a[k].key != key
    ensures Lookup(a + b, key) == Lookup(b, key)
  {
    if a != [] {
      assert (a + b)[0] == a[0];
      assert (a + b)[1..] == a[1..] + b;
      LookupAfter(a[1..], b, key);
    } else {
      assert a + b == b;
    }
  }

  /** Plain text without metadata is the chosen content itself; with
      metadata it names the branch on a trailer line. */
  lemma {:induction false} TextFormat(nodeData: Value, context: Fields, dumps: Fields -> string)
    requires Process(nodeData, context, dumps).Ok?
    requires GetOr(GetOr(nodeData.fields, "data", Obj([])).fields, "format", Str("text")) == Str("text")
    ensures
      var out := Process(nodeData, context, dumps).value;
      var withMetadata := Truthy(GetOr(GetOr(nodeData.fields, "data", Obj([])).fields, "include_metadata", Bool(false)));
      (!withMetadata ==> out.finalOutput == ContentOf(context)) &&
      (withMetadata && ContentOf(context).Str? ==>
         out.finalOutput == Str(ContentOf(context).s + "\n\n---\nGenerated using: " + SourceOf(context))) &&
      (withMetadata && ContentOf(context).List? ==>
         out.finalOutput == List(ContentOf(context).items + Iter(Str("\n\n---\nGenerated using: " + SourceOf(context))).value) &&
         out.contentLength == |PyStr(out.finalOutput)|)
  {
    var out := Process(nodeData, context, dumps).value;
    var config := GetOr(nodeData.fields, "data", Obj([])).fields;
    var withMetadata := GetOr(config, "include_metadata", Bool(false));
    assert Render(Str("text"), withMetadata, ContentOf(context), out.metadata, dumps) == Ok(out.finalOutput);
    MetadataLookups(context);
    assert GetOr(out.metadata, "source", Str("unknown")) == Str(SourceOf(context));
    if Truthy(withMetadata) && ContentOf(context).Str? {
      ConcatAssoc(ContentOf(context).s, "\n\n---\nGenerated using: ", SourceOf(context));
    }
  }
}
