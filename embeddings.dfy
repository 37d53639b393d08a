/** The embeddings service: a cache of vector-store collections, one per
    stack, the preparation and storage of document chunks with their
    embeddings, similarity search with threshold, ordering and truncation,
    and deletion of one document's chunks. The vector store is modelled as
    the service's own state; the embedding APIs, the nearest-neighbour query
    and the distance-to-similarity conversion are parameters. */
module Embeddings {
  import opened Wrappers
  import opened Strings
  import opened PyValues

  type Vector = seq<real>

  /** The name of a stack's collection: `stack_` and the stack id with every
      '-' turned into '_'. */
  function CollectionName(stackId: string): (name: string)
    ensures StartsWith(name, "stack_")
    ensures |name| == 6 + |stackId|
    ensures forall i :: 0 <= i < |name| ==> name[i] != '-'
  {
    var suffix := ReplaceChar(stackId, '-', '_');
    var name := "stack_" + suffix;
    assert name[..6] == "stack_";
    assert forall i :: 6 <= i < |name| ==> name[i] == suffix[i - 6];
    name
  }

  /** Stack ids that never contain '_' (UUIDs, say) get distinct
      collections. */
  lemma {:induction false} CollectionNameInjective(a: string, b: string)
    requires forall i :: 0 <= i < |a| ==> a[i] != '_'
    requires forall i :: 0 <= i < |b| ==> b[i] != '_'
    requires CollectionName(a) == CollectionName(b)
    ensures a == b
  {
    var ra := ReplaceChar(a, '-', '_');
    var rb := ReplaceChar(b, '-', '_');
    assert ra == CollectionName(a)[6..] && rb == CollectionName(b)[6..];
    forall i | 0 <= i < |a| ensures a[i] == b[i] {
      assert ra[i] == rb[i];
    }
  }

  /** Two ids that differ only in '-' versus '_' share a collection. */
  lemma {:induction false} CollectionNameCollides()
    ensures CollectionName("a-b") == CollectionName("a_b")
  {
    assert ReplaceChar("a-b", '-', '_') == "a_b";
    assert ReplaceChar("a_b", '-', '_') == "a_b";
  }

  /** The metadata a newly created collection is given. */
  function CreationMetadata(stackId: string): Fields {
    [Field("stack_id", Str(stackId)), Field("created_by", Str("embeddings_service")), Field("version", Str("2.0"))]
  }

  /** One stored chunk: id, text, metadata and embedding. */
  datatype Record = Record(id: Value, document: string, metadata: Fields, embedding: Vector)

  /** A collection held by the vector store. */
  datatype StoredCollection = StoredCollection(metadata: Fields, records: seq<Record>)

  /** The handle the store gives out for a collection. */
  datatype Handle = Handle(name: string)

  /** One raw answer of the nearest-neighbour query. */
  datatype Hit = Hit(id: Value, document: string, metadata: Fields, distance: real)

  /** The chunk dict `search_similar_chunks` returns. */
  datatype ChunkData = ChunkData(
    id: Value, text: string, source: Value, metadata: Fields, score: real,
    distance: real, section: Value, technical: Value)

  /** A batch request to the OpenAI embeddings API and a single request to
      the Gemini one, with key and model; each gives vectors or the text of
      the failure. */
  type BatchEmbed = (seq<string>, string, string) -> Result<seq<Vector>, string>
  type SingleEmbed = (string, string, string) -> Result<Vector, string>

  /** The embedding APIs. */
  datatype EmbedApis = EmbedApis(openAi: BatchEmbed, gemini: SingleEmbed)

  const BatchSize: nat := 100
  const GeminiDimension: nat := 768

  function Min(a: int, b: int): int {
    if a <= b then a else b
  }

  /** The consecutive batches of at most 100 texts, from index `i` on. */
  function BatchesFrom(texts: seq<string>, i: nat): (bs: seq<seq<string>>)
    requires i <= |texts|
    decreases |texts| - i
  {
    if i == |texts| then []
    else [texts[i..Min(i + BatchSize, |texts|)]] + BatchesFrom(texts, Min(i + BatchSize, |texts|))
  }

  function Concat<T>(parts: seq<seq<T>>): seq<T> {
    if parts == [] then [] else parts[0] + Concat(parts[1..])
  }

  /** The batches are nonempty, hold at most 100 texts each, and together
      are the texts in order. */
  lemma {:induction false} BatchesCover(texts: seq<string>, i: nat)
    requires i <= |texts|
    ensures Concat(BatchesFrom(texts, i)) == texts[i..]
    ensures forall k :: 0 <= k < |BatchesFrom(texts, i)| ==> 1 <= |BatchesFrom(texts, i)[k]| <= BatchSize
    decreases |texts| - i
  {
    if i < |texts| {
      var j := Min(i + BatchSize, |texts|);
      BatchesCover(texts, j);
      var bs := BatchesFrom(texts, i);
      assert bs[1..] == BatchesFrom(texts, j);
      assert texts[i..] == texts[i..j] + texts[j..];
    }
  }

  /** `generate_openai_embeddings` from batch `i` on: each batch's vectors
      in turn; the first failure stops the rest. */
  function OpenAiFrom(texts: seq<string>, i: nat, apiKey: string, model: string, api: BatchEmbed): (r: Result<seq<Vector>, string>)
    requires i <= |texts|
    decreases |texts| - i
  {
    if i == |texts| then Ok([])
    else
      var j := Min(i + BatchSize, |texts|);
      match api(texts[i..j], apiKey, model)
      case Err(msg) => Err(msg)
      case Ok(vs) =>
        match OpenAiFrom(texts, j, apiKey, model, api)
        case Err(msg) => Err(msg)
        case Ok(rest) => Ok(vs + rest)
  }

  /** Embedding batch by batch is embedding the batches of `BatchesFrom`:
      the OpenAI API is called on exactly those, in order. */
  lemma {:induction false} OpenAiFromBatches(texts: seq<string>, i: nat, apiKey: string, model: string, api: BatchEmbed)
    requires i <= |texts|
    ensures OpenAiFrom(texts, i, apiKey, model, api) == EmbedEach(BatchesFrom(texts, i), apiKey, model, api)
    decreases |texts| - i
  {
    if i < |texts| {
      var j := Min(i + BatchSize, |texts|);
      OpenAiFromBatches(texts, j, apiKey, model, api);
      assert BatchesFrom(texts, i)[1..] == BatchesFrom(texts, j);
    }
  }

  /** The vectors of a list of batches, concatenated. */
  function EmbedEach(batches: seq<seq<string>>, apiKey: string, model: string, api: BatchEmbed): Result<seq<Vector>, string> {
    if batches == [] then Ok([])
    else
      match api(batches[0], apiKey, model)
      case Err(msg) => Err(msg)
      case Ok(vs) =>
        match EmbedEach(batches[1..], apiKey, model, api)
        case Err(msg) => Err(msg)
        case Ok(rest) => Ok(vs + rest)
  }

  /** `generate_openai_embeddings`: nothing for no texts; a failure is
      reported as a `ValueError`. */
  function OpenAiEmbeddings(texts: seq<string>, apiKey: string, model: string, api: BatchEmbed): (r: Result<seq<Vector>, Exc>)
    ensures texts == [] ==> r == Ok([])
    ensures r.Err? ==> r.error.ValueError?
  {
    if texts == [] then Ok([])
    else
      match OpenAiFrom(texts, 0, apiKey, model, api)
      case Err(msg) => Err(ValueError("Failed to generate OpenAI embeddings: " + msg))
      case Ok(vs) => Ok(vs)
  }

  /** `vs` followed by what `rest` holds, failing when `rest` fails. */
  function Prepend(vs: seq<Vector>, rest: Result<seq<Vector>, string>): Result<seq<Vector>, string> {
    match rest
    case Err(msg) => Err(msg)
    case Ok(r) => Ok(vs + r)
  }

  lemma {:induction false} PrependNothing(rest: Result<seq<Vector>, string>)
    ensures Prepend([], rest) == rest
  {
    if rest.Ok? {
      assert [] + rest.value == rest.value;
    }
  }

  /** `generate_openai_embeddings`, the loop over 100-text batches that
      extends the list of vectors. */
  method GenerateOpenAiEmbeddings(texts: seq<string>, apiKey: string, model: string, api: BatchEmbed)
    returns (r: Result<seq<Vector>, Exc>)
    ensures r == OpenAiEmbeddings(texts, apiKey, model, api)
  {
    if texts == [] {
      return Ok([]);
    }
    var all: seq<Vector> := [];
    var i := 0;
    PrependNothing(OpenAiFrom(texts, 0, apiKey, model, api));
    while i < |texts|
      invariant i <= |texts|
      invariant OpenAiFrom(texts, 0, apiKey, model, api) == Prepend(all, OpenAiFrom(texts, i, apiKey, model, api))
      decreases |texts| - i
    {
      var j := Min(i + BatchSize, |texts|);
      var response := api(texts[i..j], apiKey, model);
      if response.Err? {
        return Err(ValueError("Failed to generate OpenAI embeddings: " + response.error));
      }
      ConcatAssoc(all, response.value, if OpenAiFrom(texts, j, apiKey, model, api).Ok? then OpenAiFrom(texts, j, apiKey, model, api).value else []);
      all := all + response.value;
      i := j;
    }
    ConcatEmpty(all);
    return Ok(all);
  }

  function ZeroVector(): (v: Vector)
    ensures |v| == GeminiDimension && forall k :: 0 <= k < |v| ==> v[k] == 0.0
  {
    seq(GeminiDimension, _ => 0.0)
  }

  /** The vector `generate_gemini_embeddings` keeps for one text: the API's,
      or the 768-long zero vector when that request fails. */
  function GeminiVector(text: string, apiKey: string, model: string, api: SingleEmbed): Vector {
    match api(text, apiKey, model)
    case Ok(v) => v
    case Err(_) => ZeroVector()
  }

  /** `generate_gemini_embeddings`: one vector per text, in order. */
  function GeminiEmbeddings(texts: seq<string>, apiKey: string, model: string, api: SingleEmbed): (vs: seq<Vector>)
    ensures |vs| == |texts|
    ensures forall k :: 0 <= k < |texts| ==> vs[k] == GeminiVector(texts[k], apiKey, model, api)
  {
    seq(|texts|, k requires 0 <= k < |texts| => GeminiVector(texts[k], apiKey, model, api))
  }

  /** `generate_gemini_embeddings`, the loop that requests one text at a
      time and falls back to the zero vector. */
  method GenerateGeminiEmbeddings(texts: seq<string>, apiKey: string, model: string, api: SingleEmbed)
    returns (vs: seq<Vector>)
    ensures vs == GeminiEmbeddings(texts, apiKey, model, api)
  {
    vs := [];
    for i := 0 to |texts|
      invariant vs == GeminiEmbeddings(texts[..i], apiKey, model, api)
    {
      var result := api(texts[i], apiKey, model);
      var v := if result.Ok? then result.value else ZeroVector();
      vs := vs + [v];
    }
    assert texts[..|texts|] == texts;
  }

  /** The embedding generator chosen by the model name's prefix. */
  function GenerateEmbeddings(texts: seq<string>, apiKey: string, model: string, apis: EmbedApis): (r: Result<seq<Vector>, Exc>)
    ensures StartsWith(model, "text-embedding") ==> r == OpenAiEmbeddings(texts, apiKey, model, apis.openAi)
    ensures !StartsWith(model, "text-embedding") && StartsWith(model, "models/embedding") ==>
      r == Ok(GeminiEmbeddings(texts, apiKey, model, apis.gemini))
    ensures !StartsWith(model, "text-embedding") && !StartsWith(model, "models/embedding") ==>
      r == Err(ValueError("Unsupported embedding model: " + model))
  {
    if StartsWith(model, "text-embedding") then OpenAiEmbeddings(texts, apiKey, model, apis.openAi)
    else if StartsWith(model, "models/embedding") then Ok(GeminiEmbeddings(texts, apiKey, model, apis.gemini))
    else Err(ValueError("Unsupported embedding model: " + model))
  }

  /** The dispatch `embed_documents` and `search_similar_chunks` share:
      OpenAI for `text-embedding…`, Gemini for `models/embedding…`, and a
      `ValueError` for any other model. */
  method EmbedTexts(texts: seq<string>, apiKey: string, model: string, apis: EmbedApis)
    returns (r: Result<seq<Vector>, Exc>)
    ensures r == GenerateEmbeddings(texts, apiKey, model, apis)
  {
    if StartsWith(model, "text-embedding") {
      r := GenerateOpenAiEmbeddings(texts, apiKey, model, apis.openAi);
    } else if StartsWith(model, "models/embedding") {
      var vs := GenerateGeminiEmbeddings(texts, apiKey, model, apis.gemini);
      r := Ok(vs);
    } else {
      r := Err(ValueError("Unsupported embedding model: " + model));
    }
  }

  /** What `embed_documents` keeps of one chunk. */
  datatype Prepared = Prepared(text: string, metadata: Fields, id: Value)

  /** `chunk_metadata = chunk.get("metadata", {}).copy()` followed by
      `chunk_metadata["embedding_id"] = ...`: a dict copies and can be
      stamped; a list copies too, but the item assignment with a string key
      raises the `TypeError`; any other value has no `copy`. */
  function CopyMetadata(meta: Value): (r: Result<Fields, Exc>)
    ensures r.Ok? <==> meta.Obj?
    ensures r.Ok? ==> r.value == meta.fields
  {
    match meta
    case Obj(fields) => Ok(fields)
    case List(_) => Err(TypeError("list indices must be integers or slices, not str"))
    case _ => Err(AttributeError(NoAttribute(meta, "copy")))
  }

  /** The stored metadata of a chunk with text `text`: a copy of its own
      metadata with the batch's embedding id and the text's length and word
      count set. */
  function StampMetadata(meta: Fields, embeddingId: string, text: string): (m: Fields)
    ensures Lookup(m, "embedding_id") == Some(Str(embeddingId))
    ensures Lookup(m, "text_length") == Some(Int(|text|))
    ensures Lookup(m, "word_count") == Some(Int(|Words(text)|))
    ensures forall key :: key != "embedding_id" && key != "text_length" && key != "word_count" ==>
      Lookup(m, key) == Lookup(meta, key)
  {
    var m1 := Put(meta, "embedding_id", Str(embeddingId));
    var m2 := Put(m1, "text_length", Int(|text|));
    var m3 := Put(m2, "word_count", Int(|Words(text)|));
    LookupPut(meta, "embedding_id", Str(embeddingId), "text_length");
    LookupPut(m1, "text_length", Int(|text|), "embedding_id");
    LookupPut(m2, "word_count", Int(|Words(text)|), "embedding_id");
    LookupPut(m2, "word_count", Int(|Words(text)|), "text_length");
    forall key | key != "embedding_id" && key != "text_length" && key != "word_count"
      ensures Lookup(m3, key) == Lookup(meta, key)
    {
      LookupPut(meta, "embedding_id", Str(embeddingId), key);
      LookupPut(m1, "text_length", Int(|text|), key);
      LookupPut(m2, "word_count", Int(|Words(text)|), key);
    }
    m3
  }

  /** The text of a chunk: `text`, else `content`, else "". */
  function ChunkText(chunk: Fields): Value {
    GetOr(chunk, "text", GetOr(chunk, "content", Str("")))
  }

  /** One chunk of `embed_documents` at position `i`: skipped (`None`) when
      its text is falsy or all whitespace, otherwise kept with stamped
      metadata and its own id or a fresh one. */
  function PrepareChunk(i: nat, chunk: Value, embeddingId: string, freshId: nat -> string): (r: Result<Option<Prepared>, Exc>)
    ensures !chunk.Obj? ==> r.Err?
    ensures chunk.Obj? && (!Truthy(ChunkText(chunk.fields)) || (ChunkText(chunk.fields).Str? && IsBlank(ChunkText(chunk.fields).s))) ==>
      r == Ok(None)
    ensures r.Ok? && r.value.Some? ==>
      var p := r.value.value;
      ChunkText(chunk.fields) == Str(p.text) && !IsBlank(p.text) &&
      p.id == GetOr(chunk.fields, "id", Str(freshId(i))) &&
      Ok(p.metadata) == Map(CopyMetadata(GetOr(chunk.fields, "metadata", Obj([]))), embeddingId, p.text)
  {
    if !chunk.Obj? then Err(AttributeError(NoAttribute(chunk, "get")))
    else
      var text := ChunkText(chunk.fields);
      if !Truthy(text) then Ok(None)
      else if !text.Str? then Err(AttributeError(NoAttribute(text, "strip")))
      else
        StripEmptyIffBlank(text.s);
        if Strip(text.s) == "" then Ok(None)
        else
          match CopyMetadata(GetOr(chunk.fields, "metadata", Obj([])))
          case Err(e) => Err(e)
          case Ok(meta) =>
            Ok(Some(Prepared(text.s, StampMetadata(meta, embeddingId, text.s), GetOr(chunk.fields, "id", Str(freshId(i))))))
  }

  /** The copied metadata, stamped. */
  function Map(meta: Result<Fields, Exc>, embeddingId: string, text: string): Result<Fields, Exc> {
    match meta
    case Err(e) => Err(e)
    case Ok(m) => Ok(StampMetadata(m, embeddingId, text))
  }

  /** The chunks `embed_documents` keeps, in order; the first chunk that
      raises stops the preparation. */
  function PrepareAll(chunks: seq<Value>, embeddingId: string, freshId: nat -> string): (r: Result<seq<Prepared>, Exc>)
    ensures r.Ok? ==> |r.value| <= |chunks|
  {
    if chunks == [] then Ok([])
    else
      match PrepareAll(chunks[..|chunks| - 1], embeddingId, freshId)
      case Err(e) => Err(e)
      case Ok(ps) =>
        match PrepareChunk(|chunks| - 1, chunks[|chunks| - 1], embeddingId, freshId)
        case Err(e) => Err(e)
        case Ok(None) => Ok(ps)
        case Ok(Some(p)) => Ok(ps + [p])
  }

  /** A kept chunk carries the batch's embedding id, its text's length and
      a text that is not blank. */
  predicate Stamped(p: Prepared, embeddingId: string) {
    Lookup(p.metadata, "embedding_id") == Some(Str(embeddingId)) &&
    Lookup(p.metadata, "text_length") == Some(Int(|p.text|)) && !IsBlank(p.text)
  }

  lemma {:induction false} PrepareChunkStamped(i: nat, chunk: Value, embeddingId: string, freshId: nat -> string)
    requires PrepareChunk(i, chunk, embeddingId, freshId).Ok? && PrepareChunk(i, chunk, embeddingId, freshId).value.Some?
    ensures Stamped(PrepareChunk(i, chunk, embeddingId, freshId).value.value, embeddingId)
  {
    var p := PrepareChunk(i, chunk, embeddingId, freshId).value.value;
    var meta := CopyMetadata(GetOr(chunk.fields, "metadata", Obj([])));
    assert meta.Ok? && p.metadata == StampMetadata(meta.value, embeddingId, p.text);
  }

  /** Every kept chunk is stamped. */
  lemma {:induction false} PreparedStamped(chunks: seq<Value>, embeddingId: string, freshId: nat -> string)
    requires PrepareAll(chunks, embeddingId, freshId).Ok?
    ensures forall k :: 0 <= k < |PrepareAll(chunks, embeddingId, freshId).value| ==>
      Stamped(PrepareAll(chunks, embeddingId, freshId).value[k], embeddingId)
  {
    if chunks != [] {
      var n := |chunks| - 1;
      PreparedStamped(chunks[..n], embeddingId, freshId);
      PrepareAllLast(chunks, embeddingId, freshId);
      if PrepareChunk(n, chunks[n], embeddingId, freshId).value.Some? {
        PrepareChunkStamped(n, chunks[n], embeddingId, freshId);
      }
    }
  }

  /** The kept chunks of all are those of all but the last, then the last
      when it is kept. */
  lemma {:induction false} PrepareAllLast(chunks: seq<Value>, embeddingId: string, freshId: nat -> string)
    requires chunks != [] && PrepareAll(chunks, embeddingId, freshId).Ok?
    ensures PrepareAll(chunks[..|chunks| - 1], embeddingId, freshId).Ok?
    ensures PrepareChunk(|chunks| - 1, chunks[|chunks| - 1], embeddingId, freshId).Ok?
    ensures
      var last := PrepareChunk(|chunks| - 1, chunks[|chunks| - 1], embeddingId, freshId).value;
      PrepareAll(chunks, embeddingId, freshId).value ==
        PrepareAll(chunks[..|chunks| - 1], embeddingId, freshId).value + (if last.Some? then [last.value] else [])
  {
    var last := PrepareChunk(|chunks| - 1, chunks[|chunks| - 1], embeddingId, freshId).value;
    if last.None? {
      ConcatEmpty(PrepareAll(chunks[..|chunks| - 1], embeddingId, freshId).value);
    }
  }

  lemma {:induction false} PrepareAllFailFast(chunks: seq<Value>, k: nat, embeddingId: string, freshId: nat -> string)
    requires k <= |chunks| && PrepareAll(chunks[..k], embeddingId, freshId).Err?
    ensures PrepareAll(chunks, embeddingId, freshId) == PrepareAll(chunks[..k], embeddingId, freshId)
    decreases |chunks| - k
  {
    if k < |chunks| {
      assert chunks[..k + 1][..k] == chunks[..k];
      PrepareAllFailFast(chunks, k + 1, embeddingId, freshId);
    } else {
      assert chunks[..k] == chunks;
    }
  }

  function Texts(ps: seq<Prepared>): (ts: seq<string>)
    ensures |ts| == |ps| && forall k :: 0 <= k < |ps| ==> ts[k] == ps[k].text
  {
    seq(|ps|, k requires 0 <= k < |ps| => ps[k].text)
  }

  function Metadatas(ps: seq<Prepared>): (ms: seq<Fields>)
    ensures |ms| == |ps| && forall k :: 0 <= k < |ps| ==> ms[k] == ps[k].metadata
  {
    seq(|ps|, k requires 0 <= k < |ps| => ps[k].metadata)
  }

  function Ids(ps: seq<Prepared>): (ids: seq<Value>)
    ensures |ids| == |ps| && forall k :: 0 <= k < |ps| ==> ids[k] == ps[k].id
  {
    seq(|ps|, k requires 0 <= k < |ps| => ps[k].id)
  }

  /** The records stored for the kept chunks and their vectors. */
  function Records(ps: seq<Prepared>, vs: seq<Vector>): (rs: seq<Record>)
    requires |vs| == |ps|
    ensures |rs| == |ps|
    ensures forall k :: 0 <= k < |ps| ==> rs[k] == Record(ps[k].id, ps[k].text, ps[k].metadata, vs[k])
  {
    seq(|ps|, k requires 0 <= k < |ps| => Record(ps[k].id, ps[k].text, ps[k].metadata, vs[k]))
  }

  /** The preparation loop of `embed_documents`: three lists, appended
      together, so that text, metadata and id of a kept chunk share an
      index. */
  method PrepareChunks(chunks: seq<Value>, embeddingId: string, freshId: nat -> string)
    returns (r: Result<(seq<string>, seq<Fields>, seq<Value>), Exc>)
    ensures PrepareAll(chunks, embeddingId, freshId).Err? <==> r.Err?
    ensures r.Err? ==> r.error == PrepareAll(chunks, embeddingId, freshId).error
    ensures r.Ok? ==>
      var ps := PrepareAll(chunks, embeddingId, freshId).value;
      r.value.0 == Texts(ps) && r.value.1 == Metadatas(ps) && r.value.2 == Ids(ps)
  {
    var texts: seq<string> := [];
    var metadatas: seq<Fields> := [];
    var ids: seq<Value> := [];
    ghost var ps: seq<Prepared> := [];
    for i := 0 to |chunks|
      invariant PrepareAll(chunks[..i], embeddingId, freshId) == Ok(ps)
      invariant texts == Texts(ps) && metadatas == Metadatas(ps) && ids == Ids(ps)
    {
      var prepared := PrepareChunk(i, chunks[i], embeddingId, freshId);
      PrepareAllSnoc(chunks, i, embeddingId, freshId);
      if prepared.Err? {
        PrepareAllFailFast(chunks, i + 1, embeddingId, freshId);
        return Err(prepared.error);
      }
      if prepared.value.Some? {
        var p := prepared.value.value;
        texts := texts + [p.text];
        metadatas := metadatas + [p.metadata];
        ids := ids + [p.id];
        ColumnsSnoc(ps, p);
        ps := ps + [p];
      }
    }
    assert chunks[..|chunks|] == chunks;
    return Ok((texts, metadatas, ids));
  }

  lemma {:induction false} ColumnsSnoc(ps: seq<Prepared>, p: Prepared)
    ensures Texts(ps + [p]) == Texts(ps) + [p.text]
    ensures Metadatas(ps + [p]) == Metadatas(ps) + [p.metadata]
    ensures Ids(ps + [p]) == Ids(ps) + [p.id]
  {
  }

  lemma {:induction false} PrepareAllSnoc(chunks: seq<Value>, i: nat, embeddingId: string, freshId: nat -> string)
    requires i < |chunks| && PrepareAll(chunks[..i], embeddingId, freshId).Ok?
    ensures
      var before := PrepareAll(chunks[..i], embeddingId, freshId).value;
      var p := PrepareChunk(i, chunks[i], embeddingId, freshId);
      PrepareAll(chunks[..i + 1], embeddingId, freshId) ==
        match p
        case Err(e) => Err(e)
        case Ok(None) => Ok(before)
        case Ok(Some(x)) => Ok(before + [x])
  {
    assert chunks[..i + 1][..i] == chunks[..i];
  }

  /** A chunk `search_similar_chunks` returns for one raw answer. */
  function ChunkOf(hit: Hit, score: real): (c: ChunkData)
    ensures c.score == score && c.text == hit.document && c.metadata == hit.metadata && c.id == hit.id
  {
    ChunkData(hit.id, hit.document, GetOr(hit.metadata, "file_name", Str("Document")), hit.metadata,
              score, hit.distance, GetOr(hit.metadata, "section_type", Str("unknown")),
              GetOr(hit.metadata, "contains_technical_terms", Bool(false)))
  }

  /** The raw answers whose similarity reaches the threshold, as chunks, in
      the order of the answers. */
  function Qualifying(hits: seq<Hit>, threshold: real, similarity: real -> real): (cs: seq<ChunkData>)
    ensures |cs| <= |hits|
    ensures forall k :: 0 <= k < |cs| ==> cs[k].score >= threshold
  {
    if hits == [] then []
    else
      var last := hits[|hits| - 1];
      var s := similarity(last.distance);
      Qualifying(hits[..|hits| - 1], threshold, similarity) + (if s >= threshold then [ChunkOf(last, s)] else [])
  }

  /** Every answer whose similarity reaches the threshold is kept. */
  lemma {:induction false} QualifyingKeeps(hits: seq<Hit>, threshold: real, similarity: real -> real, k: nat)
    requires k < |hits| && similarity(hits[k].distance) >= threshold
    ensures ChunkOf(hits[k], similarity(hits[k].distance)) in Qualifying(hits, threshold, similarity)
  {
    if k < |hits| - 1 {
      var init := hits[..|hits| - 1];
      assert init[k] == hits[k];
      QualifyingKeeps(init, threshold, similarity, k);
    }
  }

  /** The filtering loop of `search_similar_chunks`. */
  method FilterHits(hits: seq<Hit>, threshold: real, similarity: real -> real) returns (chunks: seq<ChunkData>)
    ensures chunks == Qualifying(hits, threshold, similarity)
  {
    chunks := [];
    for i := 0 to |hits|
      invariant chunks == Qualifying(hits[..i], threshold, similarity)
    {
      assert hits[..i + 1][..i] == hits[..i];
      var score := similarity(hits[i].distance);
      if score >= threshold {
        chunks := chunks + [ChunkOf(hits[i], score)];
      }
    }
    assert hits[..|hits|] == hits;
  }

  predicate SortedByScore(cs: seq<ChunkData>) {
    forall i, j :: 0 <= i < j < |cs| ==> cs[i].score >= cs[j].score
  }

  /** Insert `c` after every chunk scoring at least as high. */
  function InsertByScore(c: ChunkData, cs: seq<ChunkData>): (r: seq<ChunkData>)
    ensures multiset(r) == multiset(cs) + multiset{c}
    ensures |r| == |cs| + 1
  {
    if cs == [] then [c]
    else if cs[0].score >= c.score then
      assert cs == [cs[0]] + cs[1..];
      [cs[0]] + InsertByScore(c, cs[1..])
    else [c] + cs
  }

  /** Inserting below a bound keeps every score below it. */
  lemma {:induction false} InsertBounded(c: ChunkData, cs: seq<ChunkData>, bound: real)
    requires c.score <= bound && forall i :: 0 <= i < |cs| ==> cs[i].score <= bound
    ensures forall j :: 0 <= j < |InsertByScore(c, cs)| ==> InsertByScore(c, cs)[j].score <= bound
  {
    if cs != [] && cs[0].score >= c.score {
      InsertBounded(c, cs[1..], bound);
      var rest := InsertByScore(c, cs[1..]);
      var r := [cs[0]] + rest;
      assert InsertByScore(c, cs) == r;
      forall j | 0 < j < |r|
        ensures r[j].score <= bound
      {
        assert r[j] == rest[j - 1];
      }
    } else if cs != [] {
      var r := [c] + cs;
      assert InsertByScore(c, cs) == r;
      forall j | 0 < j < |r|
        ensures r[j].score <= bound
      {
        assert r[j] == cs[j - 1];
      }
    }
  }

  lemma {:induction false} InsertKeepsSorted(c: ChunkData, cs: seq<ChunkData>)
    requires SortedByScore(cs)
    ensures SortedByScore(InsertByScore(c, cs))
  {
    if cs != [] && cs[0].score >= c.score {
      var tail := cs[1..];
      InsertKeepsSorted(c, tail);
      InsertBounded(c, tail, cs[0].score);
      ConsSorted(cs[0], InsertByScore(c, tail));
    } else if cs != [] {
      ConsSorted(c, cs);
    }
  }

  /** A chunk scoring at least as high as every chunk of a sorted list
      can go in front of it. */
  lemma {:induction false} ConsSorted(x: ChunkData, rest: seq<ChunkData>)
    requires SortedByScore(rest) && forall j :: 0 <= j < |rest| ==> rest[j].score <= x.score
    ensures SortedByScore([x] + rest)
  {
    var r := [x] + rest;
    forall a, b | 0 <= a < b < |r|
      ensures r[a].score >= r[b].score
    {
      assert r[b] == rest[b - 1];
      if a > 0 {
        assert r[a] == rest[a - 1];
      }
    }
  }

  /** `sorted(chunks, key=score, reverse=True)`: Python's sort is stable, so
      each chunk is placed after those before it that score at least as
      high. */
  function SortByScore(cs: seq<ChunkData>): (r: seq<ChunkData>)
    ensures multiset(r) == multiset(cs)
  {
    if cs == [] then []
    else
      assert cs == cs[..|cs| - 1] + [cs[|cs| - 1]];
      InsertByScore(cs[|cs| - 1], SortByScore(cs[..|cs| - 1]))
  }

  lemma {:induction false} SortByScoreSorted(cs: seq<ChunkData>)
    ensures SortedByScore(SortByScore(cs))
  {
    if cs != [] {
      SortByScoreSorted(cs[..|cs| - 1]);
      InsertKeepsSorted(cs[|cs| - 1], SortByScore(cs[..|cs| - 1]));
    }
  }

  /** What `search_similar_chunks` returns for the raw answers: the
      qualifying chunks, best first, cut to `top_k` with Python's slice
      semantics. */
  function SearchResult(hits: seq<Hit>, topK: int, threshold: real, similarity: real -> real): seq<ChunkData> {
    SliceTo(SortByScore(Qualifying(hits, threshold, similarity)), topK)
  }

  /** The result reaches the threshold everywhere, is sorted best first,
      holds at most `top_k` chunks, and each comes from a raw answer. */
  lemma {:induction false} SearchResultProperties(hits: seq<Hit>, topK: int, threshold: real, similarity: real -> real)
    ensures var r := SearchResult(hits, topK, threshold, similarity);
      (forall k :: 0 <= k < |r| ==> r[k].score >= threshold) &&
      SortedByScore(r) &&
      (topK >= 0 ==> |r| <= topK) &&
      multiset(r) <= multiset(Qualifying(hits, threshold, similarity))
  {
    var q := Qualifying(hits, threshold, similarity);
    var s := SortByScore(q);
    SortByScoreSorted(q);
    var r := SliceTo(s, topK);
    assert s == r + s[|r|..];
    assert multiset(s) == multiset(r) + multiset(s[|r|..]);
    forall k | 0 <= k < |r| ensures r[k].score >= threshold {
      assert r[k] in multiset(s);
      assert r[k] in q;
    }
  }

  /** The raw answers of the nearest-neighbour query: the stored records,
      the query vector and the number of answers wanted. */
  type Nearest = (seq<Record>, Vector, int) -> seq<Hit>

  /** `metadata.get("embedding_id") == embedding_id` */
  predicate HasEmbeddingId(r: Record, embeddingId: string) {
    Get(r.metadata, "embedding_id") == Str(embeddingId)
  }

  /** The ids of the records whose metadata is a non-empty dict with the
      given embedding id, in stored order. */
  function MatchingIds(records: seq<Record>, embeddingId: string): (ids: seq<Value>)
    ensures |ids| <= |records|
  {
    if records == [] then []
    else
      var last := records[|records| - 1];
      MatchingIds(records[..|records| - 1], embeddingId) +
        (if last.metadata != [] && HasEmbeddingId(last, embeddingId) then [last.id] else [])
  }

  /** A record's id is selected exactly when some record with that id has
      the embedding id. */
  lemma {:induction false} MatchingIdsIff(records: seq<Record>, embeddingId: string)
    ensures forall id :: id in MatchingIds(records, embeddingId) <==>
      exists k :: 0 <= k < |records| && records[k].id == id && HasEmbeddingId(records[k], embeddingId)
  {
    if records != [] {
      var init := records[..|records| - 1];
      MatchingIdsIff(init, embeddingId);
      forall id ensures id in MatchingIds(records, embeddingId) <==>
        exists k :: 0 <= k < |records| && records[k].id == id && HasEmbeddingId(records[k], embeddingId)
      {
        if exists k :: 0 <= k < |records| && records[k].id == id && HasEmbeddingId(records[k], embeddingId) {
          var k :| 0 <= k < |records| && records[k].id == id && HasEmbeddingId(records[k], embeddingId);
          if k < |init| {
            assert init[k] == records[k];
          } else {
            assert records[k].metadata != [];
          }
        }
        if id in MatchingIds(init, embeddingId) {
          var k :| 0 <= k < |init| && init[k].id == id && HasEmbeddingId(init[k], embeddingId);
          assert records[k] == init[k];
        }
      }
    }
  }

  /** The records that remain once those with one of `ids` are deleted. */
  function Without(records: seq<Record>, ids: seq<Value>): (rs: seq<Record>)
    ensures forall r :: r in rs <==> r in records && r.id !in ids
  {
    if records == [] then []
    else
      var last := records[|records| - 1];
      var init := Without(records[..|records| - 1], ids);
      assert forall r :: r in records <==> r in records[..|records| - 1] || r == last;
      init + (if last.id in ids then [] else [last])
  }

  const EmbedFailure: string := "Failed to embed documents: "
  const SearchFailure: string := "Failed to search chunks: "

  /** The message of the count check of `embed_documents`. */
  function CountMismatch(embeddings: nat, texts: nat): string {
    "Embedding count mismatch: " + NatToString(embeddings) + " embeddings for " + NatToString(texts) + " texts"
  }

  /** The vector store and the service's cache of collection handles. */
  class EmbeddingsService {
    /** `self.collections`: the handles already fetched, by collection name. */
    var collections: map<string, Handle>
    /** The collections the vector store holds, by name. */
    var store: map<string, StoredCollection>

    /** Every cached handle names itself and a collection the store holds. */
    ghost predicate Valid()
      reads this
    {
      forall n :: n in collections ==> collections[n] == Handle(n) && n in store
    }

    constructor(initial: map<string, StoredCollection>)
      ensures Valid() && collections == map[] && store == initial
    {
      collections := map[];
      store := initial;
    }

    /** `get_collection`: the cached handle if there is one; otherwise the
        store's collection of that name, created with the stack's metadata
        when missing, and cached. */
    method GetCollection(stackId: string) returns (h: Handle)
      requires Valid()
      modifies this
      ensures Valid()
      ensures h == Handle(CollectionName(stackId)) && CollectionName(stackId) in collections
      ensures h.name in store
      ensures old(CollectionName(stackId) in collections) ==> collections == old(collections) && store == old(store)
      ensures !old(CollectionName(stackId) in collections) ==> collections == old(collections)[CollectionName(stackId) := h]
      ensures old(CollectionName(stackId) in store) ==> store == old(store)
      ensures !old(CollectionName(stackId) in store) ==>
        store == old(store)[CollectionName(stackId) := StoredCollection(CreationMetadata(stackId), [])]
    {
      var name := CollectionName(stackId);
      if name !in collections {
        var collection: Handle;
        if name in store {
          collection := Handle(name);
        } else {
          store := store[name := StoredCollection(CreationMetadata(stackId), [])];
          collection := Handle(name);
        }
        collections := collections[name := collection];
      }
      h := collections[name];
    }

    /** `embed_documents`. No chunks: "" and nothing touched. Otherwise the
        collection is fetched, the chunks prepared (a chunk that raises stops
        everything), and when some text remains the embeddings generated and
        the records appended to the collection; the batch's embedding id is
        returned. Generation failures, an unsupported model and a count
        mismatch are reported as `ValueError`s and store nothing. */
    method EmbedDocuments(stackId: string, chunks: seq<Value>, apiKey: string, model: string,
                          embeddingId: string, freshId: nat -> string, apis: EmbedApis)
      returns (r: Result<string, Exc>)
      requires Valid() && embeddingId != ""
      modifies this
      ensures Valid()
      ensures chunks == [] ==> r == Ok("") && store == old(store) && collections == old(collections)
      ensures chunks != [] ==> CollectionName(stackId) in collections && CollectionName(stackId) in store
      ensures chunks != [] ==>
        collections == old(collections)[CollectionName(stackId) := Handle(CollectionName(stackId))]
      ensures chunks != [] && PrepareAll(chunks, embeddingId, freshId).Ok? && PrepareAll(chunks, embeddingId, freshId).value != [] ==>
        var ps := PrepareAll(chunks, embeddingId, freshId).value;
        var vs := GenerateEmbeddings(Texts(ps), apiKey, model, apis);
        (vs.Ok? && |vs.value| == |ps| <==> r == Ok(embeddingId)) &&
        (vs.Err? ==> r == Err(ValueError(EmbedFailure + vs.error.Message()))) &&
        (vs.Ok? && |vs.value| != |ps| ==> r == Err(ValueError(EmbedFailure + CountMismatch(|vs.value|, |ps|))))
      ensures chunks != [] && PrepareAll(chunks, embeddingId, freshId).Err? ==>
        r == Err(PrepareAll(chunks, embeddingId, freshId).error)
      ensures chunks != [] && PrepareAll(chunks, embeddingId, freshId) == Ok([]) ==> r == Ok("")
      ensures r.Ok? && r.value != "" ==>
        var ps := PrepareAll(chunks, embeddingId, freshId).value;
        var vs := GenerateEmbeddings(Texts(ps), apiKey, model, apis);
        r.value == embeddingId && vs.Ok? && |vs.value| == |ps| &&
        store[CollectionName(stackId)].records ==
          old(if CollectionName(stackId) in store then store[CollectionName(stackId)].records else []) + Records(ps, vs.value)
      ensures r.Err? && chunks != [] && PrepareAll(chunks, embeddingId, freshId).Ok? ==>
        r.error.ValueError? && StartsWith(r.error.msg, "Failed to embed documents: ") &&
        store == old(if CollectionName(stackId) in store then store
                     else store[CollectionName(stackId) := StoredCollection(CreationMetadata(stackId), [])])
      ensures chunks != [] && (PrepareAll(chunks, embeddingId, freshId).Err? || PrepareAll(chunks, embeddingId, freshId) == Ok([])) ==>
        store == old(if CollectionName(stackId) in store then store
                     else store[CollectionName(stackId) := StoredCollection(CreationMetadata(stackId), [])])
      ensures chunks != [] ==> store.Keys == old(store).Keys + {CollectionName(stackId)}
      ensures chunks != [] ==>
        store[CollectionName(stackId)].metadata ==
          old(if CollectionName(stackId) in store then store[CollectionName(stackId)].metadata else CreationMetadata(stackId))
      ensures forall n :: n in old(store) && n != CollectionName(stackId) ==> n in store && store[n] == old(store)[n]
    {
      if chunks == [] {
        return Ok("");
      }
      var collection := GetCollection(stackId);
      r := StoreEmbeddings(stackId, chunks, apiKey, model, embeddingId, freshId, apis);
    }

    /** The part of `embed_documents` after the collection is fetched: the
        chunks are prepared (a chunk that raises stops everything), and when
        some text remains the embeddings are generated and the records
        appended to the stack's collection. Only that collection's records
        can change. */
    method StoreEmbeddings(stackId: string, chunks: seq<Value>, apiKey: string, model: string,
                           embeddingId: string, freshId: nat -> string, apis: EmbedApis)
      returns (r: Result<string, Exc>)
      requires Valid() && embeddingId != "" && CollectionName(stackId) in store
      modifies this
      ensures Valid() && collections == old(collections)
      ensures store.Keys == old(store).Keys
      ensures forall n :: n in old(store) && n != CollectionName(stackId) ==> store[n] == old(store)[n]
      ensures store[CollectionName(stackId)].metadata == old(store[CollectionName(stackId)].metadata)
      ensures PrepareAll(chunks, embeddingId, freshId).Ok? && PrepareAll(chunks, embeddingId, freshId).value != [] ==>
        var ps := PrepareAll(chunks, embeddingId, freshId).value;
        var vs := GenerateEmbeddings(Texts(ps), apiKey, model, apis);
        (vs.Ok? && |vs.value| == |ps| <==> r == Ok(embeddingId)) &&
        (vs.Err? ==> r == Err(ValueError(EmbedFailure + vs.error.Message()))) &&
        (vs.Ok? && |vs.value| != |ps| ==> r == Err(ValueError(EmbedFailure + CountMismatch(|vs.value|, |ps|))))
      ensures PrepareAll(chunks, embeddingId, freshId).Err? ==> r == Err(PrepareAll(chunks, embeddingId, freshId).error)
      ensures PrepareAll(chunks, embeddingId, freshId) == Ok([]) ==> r == Ok("")
      ensures r.Ok? && r.value != "" ==>
        var ps := PrepareAll(chunks, embeddingId, freshId).value;
        var vs := GenerateEmbeddings(Texts(ps), apiKey, model, apis);
        r.value == embeddingId && vs.Ok? && |vs.value| == |ps| &&
        store[CollectionName(stackId)].records == old(store[CollectionName(stackId)].records) + Records(ps, vs.value)
      ensures !(r.Ok? && r.value != "") ==> store == old(store)
      ensures r.Err? && PrepareAll(chunks, embeddingId, freshId).Ok? ==>
        r.error.ValueError? && StartsWith(r.error.msg, EmbedFailure)
    {
      var prepared := PrepareChunks(chunks, embeddingId, freshId);
      if prepared.Err? {
        return Err(prepared.error);
      }
      var (texts, metadatas, ids) := prepared.value;
      ghost var ps := PrepareAll(chunks, embeddingId, freshId).value;
      if texts == [] {
        return Ok("");
      }
      var embeddings := EmbedTexts(texts, apiKey, model, apis);
      if embeddings.Err? {
        return Err(ValueError(PrefixWith(EmbedFailure, embeddings.error.Message())));
      }
      var vectors := embeddings.value;
      if |vectors| != |texts| {
        return Err(ValueError(PrefixWith(EmbedFailure, CountMismatch(|vectors|, |texts|))));
      }
      var added := seq(|texts|, k requires 0 <= k < |texts| => Record(ids[k], texts[k], metadatas[k], vectors[k]));
      assert added == Records(ps, vectors);
      var name := CollectionName(stackId);
      store := store[name := store[name].(records := store[name].records + added)];
      return Ok(embeddingId);
    }

    /** `search_similar_chunks`. An empty collection gives no chunks without
        an embedding request; otherwise the query is embedded, `min(2 top_k,
        count)` raw answers are requested, and the result is `SearchResult`
        of them. Failures are reported as `ValueError`s. The store is not
        changed beyond the collection fetch. */
    method SearchSimilarChunks(stackId: string, query: string, apiKey: string, model: string, topK: int,
                               threshold: real, apis: EmbedApis, nearest: Nearest, similarity: real -> real)
      returns (r: Result<seq<ChunkData>, Exc>)
      requires Valid()
      modifies this
      ensures Valid()
      ensures CollectionName(stackId) in store
      ensures forall n :: n in old(store) ==> n in store && store[n] == old(store)[n]
      ensures collections == old(collections)[CollectionName(stackId) := Handle(CollectionName(stackId))]
      ensures store[CollectionName(stackId)].records == [] ==> r == Ok([])
      ensures var records := store[CollectionName(stackId)].records;
        var q := GenerateEmbeddings([query], apiKey, model, apis);
        records != [] ==>
          (q.Err? ==> r == Err(ValueError(SearchFailure + q.error.Message()))) &&
          (q == Ok([]) ==> r == Err(ValueError(SearchFailure + "Failed to generate query embedding"))) &&
          (q.Ok? && q.value != [] ==>
            r == Ok(SearchResult(nearest(records, q.value[0], Min(topK * 2, |records|)), topK, threshold, similarity)))
      ensures r.Ok? && r.value != [] ==>
        var records := store[CollectionName(stackId)].records;
        var q := GenerateEmbeddings([query], apiKey, model, apis);
        q.Ok? && q.value != [] &&
        r.value == SearchResult(nearest(records, q.value[0], Min(topK * 2, |records|)), topK, threshold, similarity)
      ensures r.Err? ==> r.error.ValueError? && StartsWith(r.error.msg, "Failed to search chunks: ")
    {
      var collection := GetCollection(stackId);
      var records := store[collection.name].records;
      if |records| == 0 {
        return Ok([]);
      }
      var queryEmbeddings := EmbedTexts([query], apiKey, model, apis);
      if queryEmbeddings.Err? {
        return Err(ValueError(PrefixWith("Failed to search chunks: ", queryEmbeddings.error.Message())));
      }
      if queryEmbeddings.value == [] {
        return Err(ValueError(PrefixWith("Failed to search chunks: ", "Failed to generate query embedding")));
      }
      var searchK := Min(topK * 2, |records|);
      var hits := nearest(records, queryEmbeddings.value[0], searchK);
      var chunks := FilterHits(hits, threshold, similarity);
      r := Ok(SliceTo(SortByScore(chunks), topK));
    }

    /** `delete_document_chunks`: the records whose metadata carries the
        embedding id are deleted by id; the answer says whether there were
        any. Other collections are not touched. */
    method DeleteDocumentChunks(stackId: string, embeddingId: string) returns (deleted: bool)
      requires Valid()
      modifies this
      ensures Valid()
      ensures CollectionName(stackId) in store
      ensures collections == old(collections)[CollectionName(stackId) := Handle(CollectionName(stackId))]
      ensures var before := old(if CollectionName(stackId) in store then store[CollectionName(stackId)].records else []);
        deleted == (MatchingIds(before, embeddingId) != []) &&
        store[CollectionName(stackId)].records == Without(before, MatchingIds(before, embeddingId))
      ensures forall n :: n in old(store) && n != CollectionName(stackId) ==> n in store && store[n] == old(store)[n]
    {
      var collection := GetCollection(stackId);
      var records := store[collection.name].records;
      var toDelete: seq<Value> := [];
      if records != [] {
        toDelete := CollectMatchingIds(records, embeddingId);
      }
      if toDelete != [] {
        store := store[collection.name := store[collection.name].(records := Without(records, toDelete))];
        return true;
      }
      assert Without(records, []) == records by { WithoutNothing(records); }
      return false;
    }
  }

  /** The scan of `delete_document_chunks` over a collection's records:
      the ids of the records tagged with the embedding id, in order. */
  method CollectMatchingIds(records: seq<Record>, embeddingId: string) returns (toDelete: seq<Value>)
    ensures toDelete == MatchingIds(records, embeddingId)
  {
    toDelete := [];
    for i := 0 to |records|
      invariant toDelete == MatchingIds(records[..i], embeddingId)
    {
      assert records[..i + 1][..i] == records[..i];
      var metadata := records[i].metadata;
      if metadata != [] && HasEmbeddingId(records[i], embeddingId) {
        toDelete := toDelete + [records[i].id];
      }
    }
    assert records[..|records|] == records;
  }

  lemma {:induction false} WithoutNothing(records: seq<Record>)
    ensures Without(records, []) == records
  {
    if records != [] {
      WithoutNothing(records[..|records| - 1]);
      assert records == records[..|records| - 1] + [records[|records| - 1]];
    }
  }

  /** With distinct ids, deletion keeps exactly the records whose metadata
      does not carry the embedding id. */
  lemma {:induction false} DeleteSelectsByEmbeddingId(records: seq<Record>, embeddingId: string, r: Record)
    requires forall i, j :: 0 <= i < j < |records| ==> records[i].id != records[j].id
    requires r in records
    ensures r in Without(records, MatchingIds(records, embeddingId)) <==> !HasEmbeddingId(r, embeddingId)
  {
    MatchingIdsIff(records, embeddingId);
    var i :| 0 <= i < |records| && records[i] == r;
    if r.id in MatchingIds(records, embeddingId) {
      var k :| 0 <= k < |records| && records[k].id == r.id && HasEmbeddingId(records[k], embeddingId);
      assert k == i;
    }
  }
}
