/** The document upload route, `POST /documents/upload`: the checks made
    on the request before anything is stored, the choice of the embedding
    key, and the sequence of stores with the removals that undo earlier
    stores when a later step fails. The outcomes of the database, storage,
    processing and embedding calls are parameters. */
module DocumentRoutes {
  import opened Wrappers
  import opened Strings

  // ---------------------------------------------------------------------
  // The stack id

  predicate IsHex(c: char) {
    '0' <= c <= '9' || 'a' <= c <= 'f' || 'A' <= c <= 'F'
  }

  /** What the UUID pattern, matched ignoring case, allows at position `i`:
      8-4-4-4-12 hex digits separated by hyphens, a version digit 1-5 at
      position 14 and a variant 8, 9, a or b at position 19. */
  predicate UuidCharAt(i: nat, c: char) {
    if i == 8 || i == 13 || i == 18 || i == 23 then c == '-'
    else if i == 14 then '1' <= c <= '5'
    else if i == 19 then c == '8' || c == '9' || c == 'a' || c == 'b' || c == 'A' || c == 'B'
    else IsHex(c)
  }

  const UuidLength: nat := 36

  /** `stack_id` is a UUID: exactly 36 characters, each allowed at its
      position. */
  predicate IsUuid(s: string) {
    |s| == UuidLength && forall i :: 0 <= i < |s| ==> UuidCharAt(i, s[i])
  }

  /** What `re.match` accepts with the pattern as written: its `$` also
      matches just before a final newline, so a UUID followed by "\n"
      passes. */
  predicate MatchesAsWritten(s: string) {
    IsUuid(s) || (|s| == UuidLength + 1 && s[UuidLength] == '\n' && IsUuid(s[..UuidLength]))
  }

  const SampleUuid := "123e4567-e89b-42d3-a456-426614174000"

  /** The pattern as written accepts a UUID followed by a newline, which is
      not a UUID. */
  lemma {:induction false} TrailingNewlineAccepted()
    ensures MatchesAsWritten(SampleUuid + "\n") && !IsUuid(SampleUuid + "\n")
  {
    var s := SampleUuid + "\n";
    assert s[..UuidLength] == SampleUuid;
    forall i | 0 <= i < UuidLength ensures UuidCharAt(i, SampleUuid[i]) {
    }
  }

  /** An accepted id is exactly the 36 characters of the UUID, with no
      newline or other character around it, and the pattern as written
      accepts it too. */
  lemma {:induction false} UuidIsExact(s: string)
    requires IsUuid(s)
    ensures |s| == UuidLength && '\n' !in s && MatchesAsWritten(s)
    ensures s[8] == s[13] == s[18] == s[23] == '-'
  {
    forall i | 0 <= i < |s| ensures s[i] != '\n' {
      assert UuidCharAt(i, s[i]);
    }
  }

  /** The match ignores case: an id is accepted exactly when its
      lowercased form is. */
  lemma {:induction false} UuidIgnoresCase(s: string)
    ensures IsUuid(s) <==> IsUuid(ToLower(s))
  {
    var l := ToLower(s);
    if |s| == UuidLength {
      forall i | 0 <= i < |s| ensures UuidCharAt(i, s[i]) <==> UuidCharAt(i, l[i]) {
        assert l[i] == LowerChar(s[i]);
      }
    }
  }

  // ---------------------------------------------------------------------
  // The file name and size

  const SupportedExtensions: seq<string> := [".pdf", ".txt", ".doc", ".docx"]

  /** The lowercased file name ends with a supported extension. */
  predicate Supported(name: string) {
    exists k :: 0 <= k < |SupportedExtensions| && EndsWith(ToLower(name), SupportedExtensions[k])
  }

  /** The extension check ignores case. */
  lemma {:induction false} SupportedIgnoresCase(name: string)
    ensures Supported(name) <==> Supported(ToLower(name))
  {
    ToLowerIdempotent(name);
  }

  /** 50 MiB */
  const MaxUploadBytes: nat := 50 * 1024 * 1024

  /** The size check: an empty file and a file over 50 MiB are refused. */
  function SizeError(size: nat): (r: Option<HttpError>)
    ensures r.None? <==> 1 <= size <= 52428800
    ensures size == 0 ==> r == Some(HttpError(400, "Empty file uploaded"))
    ensures size > 52428800 ==> r == Some(HttpError(400, "File too large. Maximum size: 50MB"))
  {
    if size == 0 then Some(HttpError(400, "Empty file uploaded"))
    else if size > MaxUploadBytes then Some(HttpError(400, "File too large. Maximum size: 50MB"))
    else None
  }

  /** The upload request. The content type and the embedding model only
      reach the storage and embedding calls, whose outcomes are given. */
  datatype Upload = Upload(stackId: string, filename: Option<string>, size: nat, apiKey: Option<string>)

  /** `not file.filename` */
  predicate NoFilename(filename: Option<string>) {
    filename.None? || filename.value == ""
  }

  /** The checks made before anything is stored, in order: the id format
      (before any lookup), the stack, the file name, its extension, the
      file size. */
  function Precheck(req: Upload, stackFound: bool): (r: Option<HttpError>)
    ensures !IsUuid(req.stackId) ==>
      r == Some(HttpError(400, "Invalid stack_id format: '" + req.stackId + "'. Expected UUID format"))
    ensures r.None? <==>
      IsUuid(req.stackId) && stackFound && !NoFilename(req.filename) && Supported(req.filename.value) &&
      1 <= req.size <= 52428800
    ensures r.Some? ==> r.value.status == 400 || r.value.status == 404
  {
    if !IsUuid(req.stackId) then
      Some(HttpError(400, "Invalid stack_id format: '" + req.stackId + "'. Expected UUID format"))
    else if !stackFound then Some(HttpError(404, "Stack with ID " + req.stackId + " not found"))
    else if NoFilename(req.filename) then Some(HttpError(400, "No filename provided"))
    else if !Supported(req.filename.value) then
      Some(HttpError(400, "Unsupported file type. Supported types: " + Join(SupportedExtensions, ", ")))
    else SizeError(req.size)
  }

  // ---------------------------------------------------------------------
  // The embedding key

  /** `not api_key` */
  predicate Blank(key: Option<string>) {
    key.None? || key.value == ""
  }

  /** The key used for the embeddings: the request's when it has one, else
      the workflow's stored "knowledge" key (`storedKey`, which is `None`
      when there is no workflow, no such key, or the lookup raised). */
  function EmbeddingKey(apiKey: Option<string>, storedKey: Option<string>): (r: Option<string>)
    ensures r.Some? ==> r.value != ""
    ensures !Blank(apiKey) ==> r == apiKey
    ensures r.None? <==> Blank(apiKey) && Blank(storedKey)
    ensures Blank(apiKey) && !Blank(storedKey) ==> r == storedKey
  {
    if !Blank(apiKey) then apiKey
    else if !Blank(storedKey) then storedKey
    else None
  }

  // ---------------------------------------------------------------------
  // The upload sequence

  const ProcessingFailed := "Failed to process document: "
  const StorageFailed := "Failed to upload file to storage: "
  const StorageRaisedMsg := "Storage upload failed: "
  const UrlFailed := "Failed to get file URL: "
  const KeyRequired := "API key required for embeddings. Provide api_key parameter or configure in workflow."
  const EmbeddingFailed := "Failed to generate embeddings: "
  const NoRowSaved := "Failed to save document metadata - database returned None"
  const SaveFailed := "Failed to save document metadata: "

  datatype StorageOutcome = Stored | StorageError(error: string) | StorageRaised(msg: string)

  datatype SaveOutcome = Saved(id: string) | NoRow | SaveRaised(msg: string)

  /** What the collaborators do on this request: the stack lookup, the
      document processing (chunk count or error message), the random file
      id of the storage path, the storage upload, the public URL, the
      workflow's stored key, the embedding (embedding id or error), the
      metadata save, and whether each best-effort removal succeeds. */
  datatype Services = Services(
    stackFound: bool,
    processing: Result<nat, string>,
    fileId: string,
    storage: StorageOutcome,
    fileUrl: Result<string, string>,
    storedKey: Option<string>,
    embedding: Result<string, string>,
    save: SaveOutcome,
    fileRemoval: bool,
    chunkRemoval: bool)

  /** The saved document's metadata. */
  datatype Document = Document(id: string, stackId: string, fileUrl: string, embeddingId: string, fileName: string, fileSize: nat)

  /** `documents/{stack_id}/{uuid}_{filename}` */
  function StoragePath(stackId: string, fileId: string, filename: string): string {
    "documents/" + stackId + "/" + fileId + "_" + filename
  }

  /** The file reaches storage: every check passed, processing succeeded
      and the upload reported no error. */
  predicate FileStored(req: Upload, env: Services) {
    Precheck(req, env.stackFound).None? && env.processing.Ok? && env.storage.Stored?
  }

  /** Once the file is stored, the embeddings are attempted: the URL was
      obtained and a key found. */
  predicate Keyed(req: Upload, env: Services) {
    env.fileUrl.Ok? && EmbeddingKey(req.apiKey, env.storedKey).Some?
  }

  /** The embedding ids `embed_documents` leaves chunks under when it
      returns `eid`: none for the `""` it returns when there was no chunk
      or no usable text, and `eid` itself otherwise. */
  function ChunkIds(eid: string): set<string> {
    if eid == "" then {} else {eid}
  }

  /** The stores the upload writes to. */
  class DocumentStores {
    /** The paths of the files in the "documents" storage bucket. */
    var files: set<string>
    /** The embedding ids whose chunks are in the vector store. */
    var chunkSets: set<string>
    /** The rows of the documents table. */
    var documents: seq<Document>

    constructor(files0: set<string>, chunkSets0: set<string>, documents0: seq<Document>)
      ensures files == files0 && chunkSets == chunkSets0 && documents == documents0
    {
      files := files0;
      chunkSets := chunkSets0;
      documents := documents0;
    }

    /** `upload_document`. Nothing is stored when a check, the processing
        or the storage upload fails; once the file is stored, the rest of
        the sequence is `AfterStorage`. */
    method UploadDocument(req: Upload, env: Services) returns (r: Result<Document, HttpError>)
      modifies this
      ensures Precheck(req, env.stackFound).Some? ==> r == Err(Precheck(req, env.stackFound).value)
      ensures Precheck(req, env.stackFound).None? && env.processing.Err? ==>
        r == Err(HttpError(500, ProcessingFailed + env.processing.error))
      ensures Precheck(req, env.stackFound).None? && env.processing.Ok? && env.storage.StorageError? ==>
        r == Err(HttpError(500, StorageFailed + env.storage.error))
      ensures Precheck(req, env.stackFound).None? && env.processing.Ok? && env.storage.StorageRaised? ==>
        r == Err(HttpError(500, StorageRaisedMsg + env.storage.msg))
      ensures !FileStored(req, env) ==> r.Err? && unchanged(this)
      ensures FileStored(req, env) ==>
        var path := StoragePath(req.stackId, env.fileId, req.filename.value);
        documents == old(documents) + (if r.Ok? then [r.value] else []) &&
        (!Keyed(req, env) ==> r.Err? && files == old(files) + {path} && chunkSets == old(chunkSets)) &&
        (Keyed(req, env) && env.embedding.Err? ==>
          r == Err(HttpError(500, EmbeddingFailed + env.embedding.error)) &&
          files == (if env.fileRemoval then old(files) - {path} else old(files) + {path}) &&
          chunkSets == old(chunkSets)) &&
        (Keyed(req, env) && env.embedding.Ok? ==>
          var eid := env.embedding.value;
          match env.save
          case Saved(id) =>
            r == Ok(Document(id, req.stackId, env.fileUrl.value, eid, req.filename.value, req.size)) &&
            files == old(files) + {path} && chunkSets == old(chunkSets) + ChunkIds(eid)
          case NoRow =>
            r == Err(HttpError(500, NoRowSaved)) &&
            files == old(files) + {path} && chunkSets == old(chunkSets) + ChunkIds(eid)
          case SaveRaised(msg) =>
            r == Err(HttpError(500, SaveFailed + msg)) &&
            files == (if env.fileRemoval then old(files) - {path} else old(files) + {path}) &&
            chunkSets == (if env.fileRemoval && env.chunkRemoval then old(chunkSets) - {eid} else old(chunkSets) + ChunkIds(eid)))
    {
      var check := Precheck(req, env.stackFound);
      if check.Some? {
        return Err(check.value);
      }
      if env.processing.Err? {
        return Err(HttpError(500, ProcessingFailed + env.processing.error));
      }
      var path := StoragePath(req.stackId, env.fileId, req.filename.value);
      match env.storage {
        case StorageError(error) =>
          return Err(HttpError(500, StorageFailed + error));
        case StorageRaised(msg) =>
          return Err(HttpError(500, StorageRaisedMsg + msg));
        case Stored =>
      }
      files := files + {path};
      r := AfterStorage(req, env, path);
    }

    /** The steps after the file at `path` is stored. A failed URL lookup
        or a missing key leave it there (the key is checked with a 400); a
        failed embedding removes it (best effort); otherwise the chunks are
        stored and the metadata saved. */
    method AfterStorage(req: Upload, env: Services, path: string) returns (r: Result<Document, HttpError>)
      requires !NoFilename(req.filename)
      modifies this
      ensures documents == old(documents) + (if r.Ok? then [r.value] else [])
      ensures env.fileUrl.Err? ==> r == Err(HttpError(500, UrlFailed + env.fileUrl.error))
      ensures env.fileUrl.Ok? && EmbeddingKey(req.apiKey, env.storedKey).None? ==>
        r == Err(HttpError(400, KeyRequired))
      ensures !Keyed(req, env) ==> unchanged(this)
      ensures Keyed(req, env) && env.embedding.Err? ==>
        r == Err(HttpError(500, EmbeddingFailed + env.embedding.error)) &&
        files == (if env.fileRemoval then old(files) - {path} else old(files)) &&
        chunkSets == old(chunkSets)
      ensures Keyed(req, env) && env.embedding.Ok? ==>
        var eid := env.embedding.value;
        match env.save
        case Saved(id) =>
          r == Ok(Document(id, req.stackId, env.fileUrl.value, eid, req.filename.value, req.size)) &&
          files == old(files) && chunkSets == old(chunkSets) + ChunkIds(eid)
        case NoRow =>
          r == Err(HttpError(500, NoRowSaved)) &&
          files == old(files) && chunkSets == old(chunkSets) + ChunkIds(eid)
        case SaveRaised(msg) =>
          r == Err(HttpError(500, SaveFailed + msg)) &&
          files == (if env.fileRemoval then old(files) - {path} else old(files)) &&
          chunkSets == (if env.fileRemoval && env.chunkRemoval then old(chunkSets) - {eid} else old(chunkSets) + ChunkIds(eid))
    {
      if env.fileUrl.Err? {
        return Err(HttpError(500, UrlFailed + env.fileUrl.error));
      }
      var apiKey := EmbeddingKey(req.apiKey, env.storedKey);
      if apiKey.None? {
        return Err(HttpError(400, KeyRequired));
      }
      if env.embedding.Err? {
        if env.fileRemoval {
          files := files - {path};
        }
        return Err(HttpError(500, EmbeddingFailed + env.embedding.error));
      }
      chunkSets := chunkSets + ChunkIds(env.embedding.value);
      r := SaveMetadata(req, env, path);
    }

    /** The metadata save, once the file and the chunks are stored, with
        the removals when it raises. */
    method SaveMetadata(req: Upload, env: Services, path: string) returns (r: Result<Document, HttpError>)
      requires !NoFilename(req.filename) && env.fileUrl.Ok? && env.embedding.Ok?
      modifies this
      ensures var eid := env.embedding.value;
        match env.save
        case Saved(id) =>
          r == Ok(Document(id, req.stackId, env.fileUrl.value, eid, req.filename.value, req.size)) &&
          documents == old(documents) + [r.value] && files == old(files) && chunkSets == old(chunkSets)
        case NoRow =>
          r == Err(HttpError(500, NoRowSaved)) &&
          unchanged(this)
        case SaveRaised(msg) =>
          r == Err(HttpError(500, SaveFailed + msg)) &&
          documents == old(documents) &&
          files == (if env.fileRemoval then old(files) - {path} else old(files)) &&
          chunkSets == (if env.fileRemoval && env.chunkRemoval then old(chunkSets) - {eid} else old(chunkSets))
    {
      var embeddingId := env.embedding.value;
      match env.save {
        case NoRow =>
          return Err(HttpError(500, NoRowSaved));
        case SaveRaised(msg) =>
          if env.fileRemoval {
            files := files - {path};
            if env.chunkRemoval {
              chunkSets := chunkSets - {embeddingId};
            }
          }
          return Err(HttpError(500, SaveFailed + msg));
        case Saved(id) =>
          var document := Document(id, req.stackId, env.fileUrl.value, embeddingId, req.filename.value, req.size);
          documents := documents + [document];
          r := Ok(document);
      }
    }
  }
}
