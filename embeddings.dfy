/**
 * backend/src/services/embeddings.ts: one Voyage call per text, and
 * `storeChunks`, which embeds every chunk and then issues one bulk insert
 * of the chunk rows.
 *
 * The HTTP call and the database insert are abstract: `voyage` gives the
 * reply the embedding endpoint sends for a text, and `insertError` is the
 * error the insert of the rows reports, if any.
 */
module Embeddings {
  import opened Wrappers
  import opened Text

  /** An embedding vector; the model never looks at its numbers. */
  type Vector = seq<real>

  /**
   * The reply of the embedding endpoint: a rejected `fetch` or a body that
   * does not parse as JSON (with the message of what it throws), a non-OK
   * status with its body, or the parsed `data` list.
   */
  datatype VoyageReply = Rejected(message: string) | NotOk(status: nat, body: string) | OkReply(data: seq<Vector>)

  /** The Voyage endpoint as a function of the text sent to it. */
  type VoyageService = string -> VoyageReply

  const MissingKeyMessage: string := "Missing environment variable: VOYAGE_API_KEY"
  /** The TypeError `result.data[0].embedding` raises when `data` is empty. */
  const NoEmbeddingMessage: string := "Cannot read properties of undefined (reading 'embedding')"

  /** `!apiKey` is false: the variable is set and not empty. */
  predicate KeyPresent(apiKey: Option<string>) { apiKey.Some? && apiKey.value != "" }

  /**
   * `generateEmbedding`: fails without an API key whatever the endpoint
   * would answer, passes on what a rejected request throws, fails on a
   * non-OK reply with its status and body, and otherwise returns the first
   * embedding of the reply.
   */
  function GenerateEmbedding(apiKey: Option<string>, reply: VoyageReply): (r: Result<Vector>)
    ensures !KeyPresent(apiKey) ==> r == Failure(MissingKeyMessage)
    ensures KeyPresent(apiKey) && reply.Rejected? ==> r == Failure(reply.message)
    ensures KeyPresent(apiKey) && reply.NotOk? ==>
      r == Failure("Voyage API error " + NatToDecimal(reply.status) + ": " + reply.body)
    ensures r.Ok? <==> KeyPresent(apiKey) && reply.OkReply? && |reply.data| > 0
    ensures r.Ok? ==> r.value == reply.data[0]
  {
    if !KeyPresent(apiKey) then Failure(MissingKeyMessage)
    else match reply
      case Rejected(message) => Failure(message)
      case NotOk(status, body) => Failure("Voyage API error " + NatToDecimal(status) + ": " + body)
      case OkReply(data) => if |data| == 0 then Failure(NoEmbeddingMessage) else Ok(data[0])
  }

  /** `embedQuery`: `generateEmbedding` of the query text. */
  function EmbedQuery(apiKey: Option<string>, voyage: VoyageService, text: string): Result<Vector> {
    GenerateEmbedding(apiKey, voyage(text))
  }

  /**
   * `Promise.all` over one embedding per chunk: every vector, in chunk
   * order, or the failure of the first chunk (in chunk order) that fails.
   */
  function EmbedAll(chunks: seq<string>, apiKey: Option<string>, voyage: VoyageService): (r: Result<seq<Vector>>)
    ensures r.Ok? <==> forall i :: 0 <= i < |chunks| ==> GenerateEmbedding(apiKey, voyage(chunks[i])).Ok?
    ensures r.Ok? ==>
      && |r.value| == |chunks|
      && forall i :: 0 <= i < |chunks| ==> GenerateEmbedding(apiKey, voyage(chunks[i])) == Ok(r.value[i])
    ensures r.Failure? ==> exists i :: 0 <= i < |chunks| && GenerateEmbedding(apiKey, voyage(chunks[i])) == Failure(r.error)
                                        && forall j :: 0 <= j < i ==> GenerateEmbedding(apiKey, voyage(chunks[j])).Ok?
  {
    if chunks == [] then Ok([])
    else match GenerateEmbedding(apiKey, voyage(chunks[0]))
      case Failure(e) => Failure(e)
      case Ok(v) =>
        match EmbedAll(chunks[1..], apiKey, voyage)
        case Failure(e) => Failure(e)
        case Ok(vs) => Ok([v] + vs)
  }

  /** A row of `document_chunks`. */
  datatype ChunkRow = ChunkRow(documentId: string, userId: string, content: string, embedding: Vector, chunkIndex: nat)

  /** The rows `storeChunks` builds from the chunks and their vectors. */
  function BuildRows(chunks: seq<string>, vectors: seq<Vector>, documentId: string, userId: string): (rows: seq<ChunkRow>)
    requires |vectors| == |chunks|
    ensures |rows| == |chunks|
  {
    seq(|chunks|, i requires 0 <= i < |chunks| => ChunkRow(documentId, userId, chunks[i], vectors[i], i))
  }

  /** What `storeChunks` did: no insert (an embedding failed), a failed insert of `rows`, or stored `rows`. */
  datatype StoreOutcome =
    | EmbeddingFailed(message: string)
    | InsertFailed(rows: seq<ChunkRow>, message: string)
    | Stored(rows: seq<ChunkRow>)
  {
    /** True when `storeChunks` throws. */
    predicate Failed() { !Stored? }
  }

  const StoreFailurePrefix: string := "Failed to store chunks: "

  /**
   * `storeChunks`: embed every chunk, then insert one row per chunk in a
   * single call; an embedding failure means the insert is never issued.
   */
  function StoreChunks(chunks: seq<string>, documentId: string, userId: string,
                       apiKey: Option<string>, voyage: VoyageService, insertError: Option<string>): (r: StoreOutcome)
    ensures r.EmbeddingFailed? <==> exists i :: 0 <= i < |chunks| && GenerateEmbedding(apiKey, voyage(chunks[i])).Failure?
    ensures !r.EmbeddingFailed? ==>
      && |r.rows| == |chunks|
      && forall i :: 0 <= i < |chunks| ==>
           && r.rows[i].content == chunks[i]
           && r.rows[i].chunkIndex == i
           && r.rows[i].documentId == documentId
           && r.rows[i].userId == userId
           && GenerateEmbedding(apiKey, voyage(chunks[i])) == Ok(r.rows[i].embedding)
    ensures r.InsertFailed? <==> !r.EmbeddingFailed? && insertError.Some?
    ensures r.InsertFailed? ==> r.message == StoreFailurePrefix + insertError.value
  {
    match EmbedAll(chunks, apiKey, voyage)
    case Failure(e) => EmbeddingFailed(e)
    case Ok(vectors) =>
      var rows := BuildRows(chunks, vectors, documentId, userId);
      match insertError
      case Some(msg) => InsertFailed(rows, StoreFailurePrefix + msg)
      case None => Stored(rows)
  }

  /** The chunk indices of the rows stored for a document run 0, 1, ..., n - 1 with no gap. */
  lemma StoredIndicesContiguous(chunks: seq<string>, documentId: string, userId: string,
                                apiKey: Option<string>, voyage: VoyageService)
    requires StoreChunks(chunks, documentId, userId, apiKey, voyage, None).Stored?
    ensures var rows := StoreChunks(chunks, documentId, userId, apiKey, voyage, None).rows;
      seq(|rows|, i requires 0 <= i < |rows| => rows[i].chunkIndex) == seq(|chunks|, i => i)
  {
  }
}
