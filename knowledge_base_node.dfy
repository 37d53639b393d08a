/** The stand-alone knowledge-base node: it guards on the query and stack
    id, searches the stack's chunks with the node's configuration and
    formats what it finds as numbered context text. The similarity search
    is a parameter. */
module KnowledgeBaseNode {
  import opened Wrappers
  import opened Strings
  import opened PyValues

  const MissingInputError: string := "Missing query or stack_id"
  const NoContextText: string := "No relevant document context found."
  const ContextHeader: string := "Relevant document context:\n\n"
  const FailurePrefix: string := "Knowledge retrieval failed: "

  const DefaultEmbeddingModel: Value := Str("text-embedding-3-large")
  const DefaultThreshold: Value := Float(7 as real / 10 as real, "0.7")
  const DefaultMaxChunks: Value := Int(5)

  /** The arguments of the similarity search. */
  datatype SearchArgs = SearchArgs(stackId: Value, query: Value, apiKey: string, model: Value, topK: Value, threshold: Value)

  /** `search_similar_chunks`: the chunks found, or the text of the failure. */
  type ChunkSearch = SearchArgs -> Result<seq<Value>, string>

  /** The dict the node returns. */
  datatype KbNodeOutput =
    | Failed(error: string, knowledgeContext: string, chunks: seq<Value>)
    | Retrieved(knowledgeContext: string, chunks: seq<Value>, chunksFound: nat, embeddingModelUsed: Value)

  /** `chunk.get('metadata', {}).get('file_name')`. */
  function FileName(chunk: Fields): (r: Result<Value, Exc>)
    ensures r.Ok? <==> GetOr(chunk, "metadata", Obj([])).Obj?
    ensures r.Ok? && Truthy(r.value) ==> HasKey(chunk, "metadata") && HasKey(Get(chunk, "metadata").fields, "file_name")
  {
    GetIn(GetOr(chunk, "metadata", Obj([])), "file_name", Null)
  }

  /** A chunk that can be formatted: a dict with a `text` entry whose
      metadata, if any, is a dict. */
  predicate Formattable(chunk: Value) {
    chunk.Obj? && HasKey(chunk.fields, "text") && GetOr(chunk.fields, "metadata", Obj([])).Obj?
  }

  /** The text of chunk number `i`: its `text` on a numbered line, a
      `Source:` line when the metadata names a file, and a blank line. */
  function ChunkBlock(i: nat, chunk: Value): (r: Result<string, Exc>)
    ensures r.Ok? <==> Formattable(chunk)
  {
    match Subscript(chunk, "text")
    case Err(e) => Err(e)
    case Ok(text) =>
      var line := "[" + NatToString(i) + "] " + PyStr(text) + "\n";
      match FileName(chunk.fields)
      case Err(e) => Err(e)
      case Ok(fileName) =>
        var source := if Truthy(fileName) then "Source: " + PyStr(fileName) + "\n" else "";
        Ok(line + source + "\n")
  }

  /** A formattable chunk's block: the numbered text line, the `Source:`
      line exactly when the metadata names a file, then a blank line. */
  lemma {:induction false} ChunkBlockText(i: nat, chunk: Value)
    requires Formattable(chunk)
    ensures !Truthy(FileName(chunk.fields).value) ==>
      ChunkBlock(i, chunk).value == "[" + NatToString(i) + "] " + PyStr(Get(chunk.fields, "text")) + "\n" + "\n"
    ensures Truthy(FileName(chunk.fields).value) ==>
      ChunkBlock(i, chunk).value == "[" + NatToString(i) + "] " + PyStr(Get(chunk.fields, "text")) + "\n" +
                                    "Source: " + PyStr(FileName(chunk.fields).value) + "\n" + "\n"
  {
  }

  /** The blocks of all chunks, numbered from 1; the first that raises
      stops the formatting. */
  function Blocks(chunks: seq<Value>): (r: Result<string, Exc>) {
    if chunks == [] then Ok("")
    else
      match Blocks(chunks[..|chunks| - 1])
      case Err(e) => Err(e)
      case Ok(before) =>
        match ChunkBlock(|chunks|, chunks[|chunks| - 1])
        case Err(e) => Err(e)
        case Ok(b) => Ok(before + b)
  }

  /** The context text of the chunks found: the fixed notice when there are
      none, otherwise the header followed by the blocks. */
  function ContextText(chunks: seq<Value>): (r: Result<string, Exc>)
    ensures chunks == [] <==> r == Ok(NoContextText)
    ensures r.Ok? && chunks != [] ==> StartsWith(r.value, ContextHeader)
  {
    if chunks == [] then Ok(NoContextText)
    else
      match Blocks(chunks)
      case Err(e) => Err(e)
      case Ok(bs) =>
        var t := ContextHeader + bs;
        assert t[..|ContextHeader|] == ContextHeader;
        assert t[0] == 'R' && NoContextText[0] == 'N';
        Ok(t)
  }

  /** The text can be formatted exactly when every chunk's block can. */
  lemma {:induction false} BlocksOkIff(chunks: seq<Value>)
    ensures Blocks(chunks).Ok? <==> forall k :: 0 <= k < |chunks| ==> Formattable(chunks[k])
  {
    if chunks != [] {
      var n := |chunks| - 1;
      var init := chunks[..n];
      BlocksOkIff(init);
      BlocksOkLast(chunks);
      AllFormattableSnoc(chunks, init);
    }
  }

  lemma {:induction false} AllFormattableSnoc(chunks: seq<Value>, init: seq<Value>)
    requires chunks != [] && init == chunks[..|chunks| - 1]
    ensures (forall k :: 0 <= k < |chunks| ==> Formattable(chunks[k])) <==>
      (forall k :: 0 <= k < |init| ==> Formattable(init[k])) && Formattable(chunks[|chunks| - 1])
  {
    assert forall k :: 0 <= k < |init| ==> init[k] == chunks[k];
  }

  lemma {:induction false} BlocksOkLast(chunks: seq<Value>)
    requires chunks != []
    ensures Blocks(chunks).Ok? <==> Blocks(chunks[..|chunks| - 1]).Ok? && Formattable(chunks[|chunks| - 1])
  {
  }

  /** The blocks of the first `n + 1` chunks extend those of the first `n`
      by the block of chunk `n`. */
  lemma {:induction false} BlocksSnoc(chunks: seq<Value>, n: nat)
    requires n < |chunks| && Blocks(chunks[..n + 1]).Ok?
    ensures Blocks(chunks[..n]).Ok? && ChunkBlock(n + 1, chunks[n]).Ok?
    ensures Blocks(chunks[..n + 1]).value == Blocks(chunks[..n]).value + ChunkBlock(n + 1, chunks[n]).value
  {
    assert chunks[..n + 1][..n] == chunks[..n];
  }

  /** The blocks of a prefix of the chunks start the blocks of all. */
  lemma {:induction false} BlocksPrefix(chunks: seq<Value>, n: nat)
    requires n <= |chunks| && Blocks(chunks).Ok?
    ensures Blocks(chunks[..n]).Ok? && StartsWith(Blocks(chunks).value, Blocks(chunks[..n]).value)
    decreases |chunks| - n
  {
    if n == |chunks| {
      assert chunks[..n] == chunks;
    } else {
      BlocksPrefix(chunks, n + 1);
      BlocksSnoc(chunks, n);
      StartsWithConcat(Blocks(chunks).value, Blocks(chunks[..n]).value, ChunkBlock(n + 1, chunks[n]).value);
    }
  }

  /** Chunk `k` appears in the context text as its block, numbered `k + 1`. */
  lemma {:induction false} ContextTextHasChunk(chunks: seq<Value>, k: nat)
    requires k < |chunks| && ContextText(chunks).Ok?
    ensures ChunkBlock(k + 1, chunks[k]).Ok? && Contains(ContextText(chunks).value, ChunkBlock(k + 1, chunks[k]).value)
  {
    var text := ContextText(chunks).value;
    assert text == ContextHeader + Blocks(chunks).value;
    BlocksPrefix(chunks, k + 1);
    BlocksSnoc(chunks, k);
    var upTo := Blocks(chunks[..k + 1]).value;
    var before := Blocks(chunks[..k]).value;
    var block := ChunkBlock(k + 1, chunks[k]).value;
    var all := Blocks(chunks).value;
    var rest := all[|upTo|..];
    assert all == upTo + rest;
    ConcatAssoc(ContextHeader, upTo, rest);
    ConcatAssoc(ContextHeader, before, block);
    OccursAtSplit(ContextHeader + before, block, rest);
    ContainsIffOccurs(text, block);
  }

  lemma {:induction false} BlocksFailFast(chunks: seq<Value>, k: nat)
    requires k <= |chunks| && Blocks(chunks[..k]).Err?
    ensures Blocks(chunks) == Blocks(chunks[..k])
    decreases |chunks| - k
  {
    if k < |chunks| {
      assert chunks[..k + 1][..k] == chunks[..k];
      BlocksFailFast(chunks, k + 1);
    } else {
      assert chunks[..k] == chunks;
    }
  }

  /** The formatting loop of `KnowledgeBaseNode.process`: the header, then
      for each chunk its numbered line, its optional source line and a
      blank line, appended in turn. */
  method FormatContext(chunks: seq<Value>) returns (r: Result<string, Exc>)
    ensures r == ContextText(chunks)
  {
    if chunks == [] {
      return Ok(NoContextText);
    }
    var contextText := ContextHeader;
    for i := 0 to |chunks|
      invariant Blocks(chunks[..i]).Ok? && contextText == ContextHeader + Blocks(chunks[..i]).value
    {
      assert chunks[..i + 1][..i] == chunks[..i];
      var block := ChunkBlock(i + 1, chunks[i]);
      if block.Err? {
        BlocksFailFast(chunks, i + 1);
        return Err(block.error);
      }
      ConcatAssoc(ContextHeader, Blocks(chunks[..i]).value, block.value);
      contextText := contextText + block.value;
    }
    assert chunks[..|chunks|] == chunks;
    return Ok(contextText);
  }

  /** The search arguments `process` derives from the context, the node's
      configuration and the key. */
  function SearchArgsOf(query: Value, stackId: Value, apiKey: string, config: Fields): (a: SearchArgs)
    ensures a.model == GetOr(config, "embedding_model", DefaultEmbeddingModel)
    ensures a.threshold == GetOr(config, "similarity_threshold", DefaultThreshold)
    ensures a.topK == GetOr(config, "max_chunks", DefaultMaxChunks)
    ensures a.query == query && a.stackId == stackId && a.apiKey == apiKey
  {
    SearchArgs(stackId, query, apiKey,
               GetOr(config, "embedding_model", DefaultEmbeddingModel),
               GetOr(config, "max_chunks", DefaultMaxChunks),
               GetOr(config, "similarity_threshold", DefaultThreshold))
  }

  /** `KnowledgeBaseNode.process`. A missing query or stack id is reported
      without a search; a configuration that is not a dict raises; a failed
      search or formatting is reported with the failure's text. */
  function Process(nodeData: Value, context: Fields, apiKey: string, search: ChunkSearch): (r: Result<KbNodeOutput, Exc>)
    ensures
      var query := GetOr(context, "query", Str(""));
      var stackId := GetOr(context, "stack_id", Str(""));
      (!Truthy(query) || !Truthy(stackId) ==> r == Ok(Failed(MissingInputError, "", []))) &&
      (Truthy(query) && Truthy(stackId) ==>
        (r.Err? <==> !nodeData.Obj? || !GetOr(nodeData.fields, "data", Obj([])).Obj?) &&
        (r.Ok? ==>
          var args := SearchArgsOf(query, stackId, apiKey, GetOr(nodeData.fields, "data", Obj([])).fields);
          (search(args).Err? ==> r.value == Failed(FailurePrefix + search(args).error, "", [])) &&
          (search(args).Ok? && ContextText(search(args).value).Err? ==>
             r.value == Failed(FailurePrefix + ContextText(search(args).value).error.Message(), "", [])) &&
          (search(args).Ok? && ContextText(search(args).value).Ok? ==>
             r.value == Retrieved(ContextText(search(args).value).value, search(args).value,
                                  |search(args).value|, args.model))))
  {
    var query := GetOr(context, "query", Str(""));
    var stackId := GetOr(context, "stack_id", Str(""));
    if !Truthy(query) || !Truthy(stackId) then Ok(Failed(MissingInputError, "", []))
    else
      match GetIn(nodeData, "data", Obj([]))
      case Err(e) => Err(e)
      case Ok(config) =>
        if !config.Obj? then Err(AttributeError(NoAttribute(config, "get")))
        else
          var args := SearchArgsOf(query, stackId, apiKey, config.fields);
          match search(args)
          case Err(msg) => Ok(Failed(FailurePrefix + msg, "", []))
          case Ok(chunks) =>
            match ContextText(chunks)
            case Err(e) => Ok(Failed(FailurePrefix + e.Message(), "", []))
            case Ok(text) => Ok(Retrieved(text, chunks, |chunks|, args.model))
  }

  /** Without a query or a stack id the node does not consult the search:
      any two searches give the same output. */
  lemma {:induction false} GuardSearchesNothing(nodeData: Value, context: Fields, apiKey: string, s1: ChunkSearch, s2: ChunkSearch)
    requires !Truthy(GetOr(context, "query", Str(""))) || !Truthy(GetOr(context, "stack_id", Str("")))
    ensures Process(nodeData, context, apiKey, s1) == Process(nodeData, context, apiKey, s2)
  {
  }

  /** A successful retrieval reports the notice exactly when no chunk was
      found, and otherwise a text that names every chunk's block. */
  lemma {:induction false} RetrievedText(nodeData: Value, context: Fields, apiKey: string, search: ChunkSearch, k: nat)
    requires Process(nodeData, context, apiKey, search).Ok?
    requires Process(nodeData, context, apiKey, search).value.Retrieved?
    ensures
      var out := Process(nodeData, context, apiKey, search).value;
      (out.knowledgeContext == NoContextText <==> out.chunks == []) &&
      out.chunksFound == |out.chunks| &&
      (k < |out.chunks| ==> ChunkBlock(k + 1, out.chunks[k]).Ok? &&
                            Contains(out.knowledgeContext, ChunkBlock(k + 1, out.chunks[k]).value))
  {
    var out := Process(nodeData, context, apiKey, search).value;
    assert ContextText(out.chunks) == Ok(out.knowledgeContext);
    if k < |out.chunks| {
      ContextTextHasChunk(out.chunks, k);
    }
  }
}
