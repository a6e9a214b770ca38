/**
 * backend/src/routes/upload.ts: the multer filter and size limit, the JSON
 * mapping of their errors, and the POST handler's saga: store the blob,
 * insert the document row, extract and chunk the text, embed and store the
 * chunks; any failure after the blob upload removes the blob again.
 *
 * As in the source, that rollback does not delete the document row, so a
 * failure during extraction or `storeChunks` leaves the row behind.
 */
module UploadRoute {
  import opened Wrappers
  import opened Text
  import opened Pdf
  import opened Embeddings

  const MaxFileSize: nat := 10 * 1024 * 1024
  const PdfMimeType: string := "application/pdf"

  const OnlyPdfMessage: string := "Only PDF files are accepted"
  /** The message of multer's `LIMIT_FILE_SIZE` error. */
  const FileTooLargeMessage: string := "File too large"
  const NoFileMessage: string := "No file uploaded"
  const StorageFailedMessage: string := "Failed to upload file to storage"
  const ProcessFailedMessage: string := "Failed to process document"

  type Bytes = seq<bv8>

  /** The `file` part of the multipart body. */
  datatype IncomingFile = IncomingFile(mimetype: string, originalname: string, buffer: Bytes)

  /** What the request gets: 201 with the new document, or a JSON `{ error }` with a status. */
  datatype UploadReply =
    | Created(documentId: string, name: string, chunkCount: nat)
    | ErrorReply(status: nat, message: string)

  /**
   * multer with its `fileFilter` and `fileSize` limit, behind `handleUpload`
   * and the missing-file check: the accepted file, or the 400 reply.
   */
  function Admit(file: Option<IncomingFile>): (r: Result<IncomingFile>)
    ensures file.None? ==> r == Failure(NoFileMessage)
    ensures file.Some? && file.value.mimetype != PdfMimeType ==> r == Failure(OnlyPdfMessage)
    ensures file.Some? && file.value.mimetype == PdfMimeType && |file.value.buffer| > MaxFileSize ==>
      r == Failure(FileTooLargeMessage)
    ensures r.Ok? <==> file.Some? && file.value.mimetype == PdfMimeType && |file.value.buffer| <= MaxFileSize
    ensures r.Ok? ==> r.value == file.value
  {
    match file
    case None => Failure(NoFileMessage)
    case Some(f) =>
      if f.mimetype != PdfMimeType then Failure(OnlyPdfMessage)
      else if |f.buffer| > MaxFileSize then Failure(FileTooLargeMessage)
      else Ok(f)
  }

  /** `${userId}/${documentId}.pdf` */
  function StoragePath(userId: string, documentId: string): string {
    userId + "/" + documentId + ".pdf"
  }

  /**
   * The object key names its upload: as long as user ids hold no `/`,
   * two uploads share a key only when they share the user and the
   * document id.
   */
  lemma StoragePathIdentifiesUpload(u1: string, d1: string, u2: string, d2: string)
    requires '/' !in u1 && '/' !in u2
    requires StoragePath(u1, d1) == StoragePath(u2, d2)
    ensures u1 == u2 && d1 == d2
  {
    var p := StoragePath(u1, d1);
    // The first `/` of the key ends the user id, on either side.
    assert p[|u1|] == '/' && p[|u2|] == '/';
    assert forall i :: 0 <= i < |u1| ==> p[i] == u1[i] != '/';
    assert forall i :: 0 <= i < |u2| ==> p[i] == u2[i] != '/';
    assert |u1| == |u2|;
    assert u1 == p[..|u1|] == u2;
    assert |d1| == |d2|;
    assert d1 == p[|u1| + 1..|u1| + 1 + |d1|] == d2;
  }

  /** The row inserted into `documents`. */
  datatype DocumentRow = DocumentRow(id: string, userId: string, name: string, storagePath: string)

  /** How each external step of the saga turns out. */
  datatype Outcomes = Outcomes(
    blobUploadFails: bool,
    documentInsertError: Option<string>,
    extracted: Result<string>,
    apiKey: Option<string>,
    voyage: VoyageService,
    chunkInsertError: Option<string>,
    removeSucceeds: bool)

  /** The external steps, in the order the handler issues them. */
  datatype Step = UploadBlob(path: string) | InsertDocument(row: DocumentRow) | ExtractText | StoreChunkRows | RemoveBlob(path: string)

  /** The storage bucket, the `documents` table and the `document_chunks` table. */
  class Stores {
    var blobs: map<string, Bytes>
    var documents: map<string, DocumentRow>
    var chunkRows: seq<ChunkRow>

    constructor (blobs: map<string, Bytes>, documents: map<string, DocumentRow>, chunkRows: seq<ChunkRow>)
      ensures this.blobs == blobs && this.documents == documents && this.chunkRows == chunkRows
    {
      this.blobs, this.documents, this.chunkRows := blobs, documents, chunkRows;
    }

    /** `supabase.storage.from("uploads").upload(path, buffer, { upsert: false })`. */
    method UploadBlob(path: string, content: Bytes, fails: bool) returns (ok: bool)
      modifies this
      ensures ok == !fails
      ensures blobs == if ok then old(blobs)[path := content] else old(blobs)
      ensures documents == old(documents) && chunkRows == old(chunkRows)
    {
      ok := !fails;
      if ok {
        blobs := blobs[path := content];
      }
    }

    /** `supabase.from("documents").insert(row)`. */
    method InsertDocument(row: DocumentRow, error: Option<string>)
      modifies this
      ensures documents == if error.None? then old(documents)[row.id := row] else old(documents)
      ensures blobs == old(blobs) && chunkRows == old(chunkRows)
    {
      if error.None? {
        documents := documents[row.id := row];
      }
    }

    /** The bulk insert of `storeChunks`: all rows or none. */
    method InsertChunks(rows: seq<ChunkRow>)
      modifies this
      ensures chunkRows == old(chunkRows) + rows
      ensures blobs == old(blobs) && documents == old(documents)
    {
      chunkRows := chunkRows + rows;
    }

    /** `supabase.storage.from("uploads").remove([path])`; its result is not checked. */
    method RemoveBlob(path: string, succeeds: bool)
      modifies this
      ensures blobs == if succeeds then old(blobs) - {path} else old(blobs)
      ensures documents == old(documents) && chunkRows == old(chunkRows)
    {
      if succeeds {
        blobs := blobs - {path};
      }
    }
  }

  /** The step of the saga that fails first, if any. */
  datatype FailedStep = BlobFailure | DocumentFailure | ExtractionFailure | ChunkStoreFailure | NoFailure

  /** What `storeChunks` does with the extracted text of this upload. */
  function StoreOutcomeOf(o: Outcomes, documentId: string, userId: string): StoreOutcome
    requires o.extracted.Ok?
  {
    StoreChunks(Chunks(o.extracted.value), documentId, userId, o.apiKey, o.voyage, o.chunkInsertError)
  }

  /** Which step fails first: blob upload, document insert, extraction, or `storeChunks`. */
  function FirstFailure(o: Outcomes, documentId: string, userId: string): FailedStep {
    if o.blobUploadFails then BlobFailure
    else if o.documentInsertError.Some? then DocumentFailure
    else if o.extracted.Failure? then ExtractionFailure
    else if StoreOutcomeOf(o, documentId, userId).Failed() then ChunkStoreFailure
    else NoFailure
  }

  /**
   * The steps a run issues: the saga steps up to and including the one that
   * fails, then the blob removal when a step after the blob upload failed.
   */
  function StepsIssued(f: FailedStep, path: string, row: DocumentRow): (steps: seq<Step>)
    ensures f == BlobFailure ==> steps == [UploadBlob(path)]
    ensures f != BlobFailure ==> |steps| >= 3 && steps[..2] == [UploadBlob(path), InsertDocument(row)]
    ensures (f == BlobFailure || f == DocumentFailure) ==> ExtractText !in steps
    ensures StoreChunkRows in steps <==> f == ChunkStoreFailure || f == NoFailure
    ensures RemoveBlob(path) in steps <==> f != BlobFailure && f != NoFailure
    ensures f != BlobFailure && f != NoFailure ==> steps[|steps| - 1] == RemoveBlob(path)
  {
    [UploadBlob(path)] + StepsAfterUpload(f, path, row)
  }

  /** The steps that follow a successful blob upload. */
  function StepsAfterUpload(f: FailedStep, path: string, row: DocumentRow): seq<Step> {
    match f
    case BlobFailure => []
    case DocumentFailure => [InsertDocument(row), RemoveBlob(path)]
    case _ => [InsertDocument(row)] + StepsAfterRow(f == ExtractionFailure, f == ChunkStoreFailure, path)
  }

  /** The steps that follow the document row: extraction, `storeChunks`, and the removal on a failure. */
  function StepsAfterRow(extractionFails: bool, storeFails: bool, path: string): seq<Step> {
    if extractionFails then [ExtractText, RemoveBlob(path)]
    else if storeFails then [ExtractText, StoreChunkRows, RemoveBlob(path)]
    else [ExtractText, StoreChunkRows]
  }

  /** The bucket after a late failure: the blob was written, then removed if the removal succeeded. */
  function Compensated(before: map<string, Bytes>, path: string, content: Bytes, removeSucceeds: bool): (after: map<string, Bytes>)
    ensures removeSucceeds ==> after == before - {path}
    ensures !removeSucceeds ==> after == before[path := content]
  {
    if removeSucceeds then before[path := content] - {path} else before[path := content]
  }

  /**
   * The key is a fresh `randomUUID()` and the bucket write does not
   * upsert, so the key is new: a successful removal then leaves the
   * bucket exactly as it was.
   */
  lemma CompensationRestoresBucket(before: map<string, Bytes>, path: string, content: Bytes)
    requires path !in before
    ensures Compensated(before, path, content, true) == before
  {
    assert before - {path} == before;
  }

  /**
   * The POST handler after multer: `documentId` is the fresh `randomUUID()`.
   * On every path the new state says which blob, document row and chunk
   * rows exist; `steps` lists the external calls in the order they were made.
   */
  method PostUpload(file: IncomingFile, userId: string, documentId: string, o: Outcomes, stores: Stores)
    returns (reply: UploadReply, steps: seq<Step>)
    modifies stores
    ensures steps == StepsIssued(FirstFailure(o, documentId, userId), StoragePath(userId, documentId),
                                 DocumentRow(documentId, userId, file.originalname, StoragePath(userId, documentId)))
    ensures FirstFailure(o, documentId, userId) == BlobFailure ==>
      && reply == ErrorReply(500, StorageFailedMessage)
      && stores.blobs == old(stores.blobs) && stores.documents == old(stores.documents)
      && stores.chunkRows == old(stores.chunkRows)
    ensures FirstFailure(o, documentId, userId) !in {BlobFailure, NoFailure} ==>
      && reply == ErrorReply(500, ProcessFailedMessage)
      && stores.blobs == Compensated(old(stores.blobs), StoragePath(userId, documentId), file.buffer, o.removeSucceeds)
      && stores.chunkRows == old(stores.chunkRows)
    ensures FirstFailure(o, documentId, userId) == DocumentFailure ==> stores.documents == old(stores.documents)
    ensures FirstFailure(o, documentId, userId) in {ExtractionFailure, ChunkStoreFailure, NoFailure} ==>
      stores.documents == old(stores.documents)[documentId := DocumentRow(documentId, userId, file.originalname, StoragePath(userId, documentId))]
    ensures FirstFailure(o, documentId, userId) in {ExtractionFailure, ChunkStoreFailure} && o.removeSucceeds ==>
      && documentId in stores.documents
      && stores.documents[documentId].storagePath !in stores.blobs
      && stores.chunkRows == old(stores.chunkRows)
    ensures FirstFailure(o, documentId, userId) == NoFailure ==>
      && reply == Created(documentId, file.originalname, |Chunks(o.extracted.value)|)
      && stores.blobs == old(stores.blobs)[StoragePath(userId, documentId) := file.buffer]
      && stores.chunkRows == old(stores.chunkRows) + StoreOutcomeOf(o, documentId, userId).rows
  {
    var path := StoragePath(userId, documentId);
    var row := DocumentRow(documentId, userId, file.originalname, path);
    var stored := stores.UploadBlob(path, file.buffer, o.blobUploadFails);
    if !stored {
      reply := ErrorReply(500, StorageFailedMessage);
      steps := [UploadBlob(path)];
      assert FirstFailure(o, documentId, userId) == BlobFailure;
      return;
    }

    // From here on every failure removes the blob (the `catch` block).
    ghost var written := stores.blobs;
    var rest;
    reply, rest := ProcessStored(file, userId, documentId, o, stores, path, row);
    steps := [UploadBlob(path)] + rest;
    assert steps == StepsIssued(FirstFailure(o, documentId, userId), path, row);
    assert written == old(stores.blobs)[path := file.buffer];
  }

  /**
   * The `try` block of the handler, entered once the blob is stored: the
   * document row, extraction and `storeChunks`, with the blob removed and
   * a 500 on the first failure.
   */
  method ProcessStored(file: IncomingFile, userId: string, documentId: string, o: Outcomes, stores: Stores,
                       path: string, row: DocumentRow)
    returns (reply: UploadReply, steps: seq<Step>)
    requires !o.blobUploadFails
    requires path == StoragePath(userId, documentId) && row == DocumentRow(documentId, userId, file.originalname, path)
    modifies stores
    ensures steps == StepsAfterUpload(FirstFailure(o, documentId, userId), path, row)
    ensures FirstFailure(o, documentId, userId) != NoFailure ==>
      && reply == ErrorReply(500, ProcessFailedMessage)
      && stores.blobs == (if o.removeSucceeds then old(stores.blobs) - {path} else old(stores.blobs))
      && stores.chunkRows == old(stores.chunkRows)
    ensures FirstFailure(o, documentId, userId) == DocumentFailure ==> stores.documents == old(stores.documents)
    ensures FirstFailure(o, documentId, userId) != DocumentFailure ==> stores.documents == old(stores.documents)[documentId := row]
    ensures FirstFailure(o, documentId, userId) == NoFailure ==>
      && reply == Created(documentId, file.originalname, |Chunks(o.extracted.value)|)
      && stores.blobs == old(stores.blobs)
      && stores.chunkRows == old(stores.chunkRows) + StoreOutcomeOf(o, documentId, userId).rows
  {
    stores.InsertDocument(row, o.documentInsertError);
    if o.documentInsertError.Some? {
      reply := Rollback(path, o.removeSucceeds, stores);
      steps := [InsertDocument(row), RemoveBlob(path)];
      assert FirstFailure(o, documentId, userId) == DocumentFailure;
      return;
    }
    var rest;
    reply, rest := ProcessText(file, userId, documentId, o, stores, path);
    steps := [InsertDocument(row)] + rest;
    if o.extracted.Failure? {
      assert FirstFailure(o, documentId, userId) == ExtractionFailure;
    } else if StoreOutcomeOf(o, documentId, userId).Failed() {
      assert FirstFailure(o, documentId, userId) == ChunkStoreFailure;
    } else {
      assert FirstFailure(o, documentId, userId) == NoFailure;
    }
  }

  /** The rest of the `try` block, once the document row is stored: extraction, then `storeChunks`. */
  method ProcessText(file: IncomingFile, userId: string, documentId: string, o: Outcomes, stores: Stores, path: string)
    returns (reply: UploadReply, steps: seq<Step>)
    modifies stores
    ensures steps == StepsAfterRow(o.extracted.Failure?, o.extracted.Ok? && StoreOutcomeOf(o, documentId, userId).Failed(), path)
    ensures stores.documents == old(stores.documents)
    ensures o.extracted.Failure? ==>
      && reply == ErrorReply(500, ProcessFailedMessage)
      && stores.blobs == (if o.removeSucceeds then old(stores.blobs) - {path} else old(stores.blobs))
      && stores.chunkRows == old(stores.chunkRows)
    ensures o.extracted.Ok? && StoreOutcomeOf(o, documentId, userId).Failed() ==>
      && reply == ErrorReply(500, ProcessFailedMessage)
      && stores.blobs == (if o.removeSucceeds then old(stores.blobs) - {path} else old(stores.blobs))
      && stores.chunkRows == old(stores.chunkRows)
    ensures o.extracted.Ok? && !StoreOutcomeOf(o, documentId, userId).Failed() ==>
      && reply == Created(documentId, file.originalname, |Chunks(o.extracted.value)|)
      && stores.blobs == old(stores.blobs)
      && stores.chunkRows == old(stores.chunkRows) + StoreOutcomeOf(o, documentId, userId).rows
  {
    if o.extracted.Failure? {
      reply := Rollback(path, o.removeSucceeds, stores);
      steps := [ExtractText, RemoveBlob(path)];
      return;
    }
    var chunks := ChunkText(o.extracted.value);
    var outcome := StoreChunks(chunks, documentId, userId, o.apiKey, o.voyage, o.chunkInsertError);
    assert outcome == StoreOutcomeOf(o, documentId, userId);
    if !outcome.Stored? {
      reply := Rollback(path, o.removeSucceeds, stores);
      steps := [ExtractText, StoreChunkRows, RemoveBlob(path)];
      return;
    }
    stores.InsertChunks(outcome.rows);
    reply := Created(documentId, file.originalname, |chunks|);
    steps := [ExtractText, StoreChunkRows];
  }

  /** The `catch` block: remove the blob at `path` and answer 500. */
  method Rollback(path: string, removeSucceeds: bool, stores: Stores) returns (reply: UploadReply)
    modifies stores
    ensures reply == ErrorReply(500, ProcessFailedMessage)
    ensures stores.blobs == if removeSucceeds then old(stores.blobs) - {path} else old(stores.blobs)
    ensures stores.documents == old(stores.documents) && stores.chunkRows == old(stores.chunkRows)
  {
    stores.RemoveBlob(path, removeSucceeds);
    reply := ErrorReply(500, ProcessFailedMessage);
  }

  /** The whole route: multer and the missing-file check first, then the saga. */
  method Post(file: Option<IncomingFile>, userId: string, documentId: string, o: Outcomes, stores: Stores)
    returns (reply: UploadReply, steps: seq<Step>)
    modifies stores
    ensures Admit(file).Failure? ==>
      && reply == ErrorReply(400, Admit(file).error) && steps == []
      && stores.blobs == old(stores.blobs) && stores.documents == old(stores.documents)
      && stores.chunkRows == old(stores.chunkRows)
    ensures Admit(file).Ok? ==> |steps| > 0 && steps[0] == UploadBlob(StoragePath(userId, documentId))
    ensures reply.Created? ==>
      && FirstFailure(o, documentId, userId) == NoFailure
      && reply == Created(documentId, file.value.originalname, |Chunks(o.extracted.value)|)
  {
    var admitted := Admit(file);
    if admitted.Failure? {
      reply, steps := ErrorReply(400, admitted.error), [];
      return;
    }
    reply, steps := PostUpload(admitted.value, userId, documentId, o, stores);
  }

  /** Stored chunk rows have indices 0..n-1 in text order and carry the new document's id and owner. */
  lemma StoredRowsDescribeChunks(o: Outcomes, documentId: string, userId: string)
    requires FirstFailure(o, documentId, userId) == NoFailure
    ensures var rows := StoreOutcomeOf(o, documentId, userId).rows;
      var chunks := Chunks(o.extracted.value);
      && |rows| == |chunks| > 0
      && forall i :: 0 <= i < |rows| ==>
           rows[i] == ChunkRow(documentId, userId, chunks[i], rows[i].embedding, i)
  {
    var chunks := Chunks(o.extracted.value);
    var r := StoreChunks(chunks, documentId, userId, o.apiKey, o.voyage, o.chunkInsertError);
    assert r == StoreOutcomeOf(o, documentId, userId) && r.Stored?;
    ChunksNonEmpty(o.extracted.value);
  }
}
