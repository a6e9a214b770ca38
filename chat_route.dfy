/**
 * The POST handler of backend/src/routes/chat.ts.
 *
 * Phase one answers with a JSON error: request validation (400), the
 * ownership lookup (404), and query embedding plus vector search (500).
 * Once retrieval succeeds the handler sets the event-stream headers, and
 * from then on it only writes `data:` frames: a canned answer when no chunk
 * was found, otherwise the forwarded text deltas followed by exactly one
 * `done` or `error` frame.
 *
 * The document table, the embedding endpoint, the vector search and the
 * completion stream are inputs of the handler.
 */
module ChatRoute {
  import opened Wrappers
  import opened Text
  import opened Stream
  import opened Embeddings

  const SystemMessage: string :=
    "You are a helpful assistant. Answer the user's question based only on "
    + "the provided document context. If the answer is not in the context, "
    + "say so honestly. Do not make up information."
  const ContextHeader: string := "\n\nDocument context for this query:\n"
  const NoContentMessage: string :=
    "I couldn't find relevant content in this document to answer your question. Try rephrasing or asking something else."
  const MaxMessageLength: nat := 2000

  const InvalidDocumentId: string := "Invalid document ID"
  const EmptyMessage: string := "Message cannot be empty"
  const MessageTooLong: string := "Message too long"
  const MissingFields: string := "Missing required fields: documentId, message, history"
  const DocumentNotFound: string := "Document not found"
  const QueryFailed: string := "Failed to process query"
  const StreamFailed: string := "Stream failed"

  // ---------------------------------------------------------------------
  // Validation

  /** `[0-9a-f]` under the regular expression's `i` flag. */
  predicate IsHexDigit(c: char) {
    ('0' <= c <= '9') || ('a' <= c <= 'f') || ('A' <= c <= 'F')
  }

  /** Positions of the four hyphens in the 8-4-4-4-12 layout. */
  predicate IsHyphenPosition(i: nat) { i == 8 || i == 13 || i == 18 || i == 23 }

  /** `UUID_RE.test(s)`: 36 characters, hyphens at 8, 13, 18 and 23, hexadecimal digits elsewhere. */
  predicate IsUuid(s: string) {
    |s| == 36 && forall i :: 0 <= i < |s| ==> if IsHyphenPosition(i) then s[i] == '-' else IsHexDigit(s[i])
  }

  datatype Role = User | Assistant

  /** An entry of `history`, and the user turn the handler appends. */
  datatype Turn = Turn(role: Role, content: string)

  /** The JSON body: `history` is `None` when it is not an array (missing included). */
  datatype ChatBody = ChatBody(documentId: Option<string>, message: Option<string>, history: Option<seq<Turn>>)

  /** Validation either rejects with a 400 message, or yields the checked fields and the trimmed message. */
  datatype Validation =
    | Invalid(message: string)
    | Valid(documentId: string, trimmed: string, history: seq<Turn>)

  /**
   * The checks in their order: the document id, then a non-empty trimmed
   * message, then its length, then that `history` is an array.
   */
  function Validate(body: ChatBody): (v: Validation)
    ensures (body.documentId.None? || !IsUuid(body.documentId.value)) ==> v == Invalid(InvalidDocumentId)
    ensures body.documentId.Some? && IsUuid(body.documentId.value) ==>
      var t := if body.message.Some? then Trim(body.message.value) else "";
      && (t == "" ==> v == Invalid(EmptyMessage))
      && (t != "" && |t| > MaxMessageLength ==> v == Invalid(MessageTooLong))
      && (t != "" && |t| <= MaxMessageLength && body.history.None? ==> v == Invalid(MissingFields))
      && (t != "" && |t| <= MaxMessageLength && body.history.Some? ==>
            v == Valid(body.documentId.value, t, body.history.value))
    ensures v.Valid? ==> IsUuid(v.documentId) && v.trimmed != "" && |v.trimmed| <= MaxMessageLength
                         && !IsWhitespace(v.trimmed[0]) && !IsWhitespace(v.trimmed[|v.trimmed| - 1])
  {
    if body.documentId.None? || !IsUuid(body.documentId.value) then Invalid(InvalidDocumentId)
    else
      var trimmed := if body.message.Some? then Trim(body.message.value) else "";
      if trimmed == "" then Invalid(EmptyMessage)
      else if |trimmed| > MaxMessageLength then Invalid(MessageTooLong)
      else if body.history.None? then Invalid(MissingFields)
      else Valid(body.documentId.value, trimmed, body.history.value)
  }

  // ---------------------------------------------------------------------
  // Retrieval and prompt assembly

  /** A row returned by the `match_chunks` search. */
  datatype ChunkResult = ChunkResult(id: string, content: string, chunkIndex: nat, similarity: real)

  /** The `match_chunks` call for (query vector, document id, user id): rows or the database error. */
  type SearchService = (Vector, string, string) -> Result<seq<ChunkResult>>

  /** `searchChunks` of backend/src/services/vectorSearch.ts: the rows, or a wrapped error. */
  function SearchChunks(rpc: Result<seq<ChunkResult>>): Result<seq<ChunkResult>> {
    match rpc
    case Ok(rows) => Ok(rows)
    case Failure(e) => Failure("Vector search failed: " + e)
  }

  /** Chunk `i` as the prompt shows it: `[i+1] content`. */
  function Label(i: nat, c: ChunkResult): string {
    "[" + NatToDecimal(i + 1) + "] " + c.content
  }

  function Labels(chunks: seq<ChunkResult>): seq<string> {
    seq(|chunks|, i requires 0 <= i < |chunks| => Label(i, chunks[i]))
  }

  /** `chunks.map((c, i) => `[${i + 1}] ${c.content}`).join("\n\n")`. */
  function Context(chunks: seq<ChunkResult>): string {
    Join(Labels(chunks), "\n\n")
  }

  /** The system text: the fixed instruction, the context header, then the labelled chunks. */
  function SystemPrompt(chunks: seq<ChunkResult>): string {
    SystemMessage + ContextHeader + Context(chunks)
  }

  /** `[...history, { role: "user", content: trimmedMessage }]`. */
  function PromptMessages(history: seq<Turn>, trimmed: string): (ms: seq<Turn>)
    ensures |ms| == |history| + 1 && ms[..|history|] == history && ms[|history|] == Turn(User, trimmed)
  {
    history + [Turn(User, trimmed)]
  }

  /**
   * One more retrieved chunk adds a blank line and that chunk labelled with
   * its rank, so the context lists the chunks in rank order 1, 2, ...
   */
  lemma ContextSnoc(chunks: seq<ChunkResult>, c: ChunkResult)
    requires |chunks| > 0
    ensures Context(chunks + [c]) == Context(chunks) + "\n\n" + Label(|chunks|, c)
  {
    assert Labels(chunks + [c]) == Labels(chunks) + [Label(|chunks|, c)];
    JoinSnoc(Labels(chunks), "\n\n", Label(|chunks|, c));
  }

  /**
   * The system text opens with the fixed instruction and the context
   * header, and shows every retrieved chunk labelled with its rank.
   */
  lemma PromptShowsEveryChunk(chunks: seq<ChunkResult>, i: nat) returns (k: nat)
    requires i < |chunks|
    ensures StartsWith(SystemPrompt(chunks), SystemMessage + ContextHeader)
    ensures |SystemMessage + ContextHeader| <= k
    ensures k + |Label(i, chunks[i])| <= |SystemPrompt(chunks)|
    ensures SystemPrompt(chunks)[k..k + |Label(i, chunks[i])|] == Label(i, chunks[i])
  {
    var head := SystemMessage + ContextHeader;
    var j := JoinContains(Labels(chunks), "\n\n", i);
    k := |head| + j;
    assert SystemPrompt(chunks) == head + Context(chunks);
    assert SystemPrompt(chunks)[..|head|] == head;
    assert SystemPrompt(chunks)[k..k + |Label(i, chunks[i])|] == Context(chunks)[j..j + |Label(i, chunks[i])|];
  }

  /** A single chunk is shown as `[1] content`. */
  lemma ContextOfOne(c: ChunkResult)
    ensures Context([c]) == "[1] " + c.content
  {
    assert Labels([c]) == [Label(0, c)];
  }

  // ---------------------------------------------------------------------
  // The completion stream

  datatype Delta = TextDelta(text: string) | OtherDelta
  /** An event of the completion stream; only `content_block_delta` carries a delta. */
  datatype ProviderEvent = ContentBlockDelta(delta: Delta) | OtherEvent

  /** The events the completion stream delivers, and whether it then throws instead of finishing. */
  datatype ProviderStream = ProviderStream(events: seq<ProviderEvent>, fails: bool)

  /** The completion service as a function of the system text and the messages. */
  type CompletionService = (string, seq<Turn>) -> ProviderStream

  /** The token frames forwarded for `events`: one per text delta, in arrival order. */
  function TokensOf(events: seq<ProviderEvent>): (items: seq<SseItem>)
    ensures |items| <= |events|
    ensures forall j :: 0 <= j < |items| ==> items[j].token.Some? && items[j].done.None? && items[j].error.None?
  {
    if events == [] then []
    else
      var init := TokensOf(events[..|events| - 1]);
      match events[|events| - 1]
      case ContentBlockDelta(TextDelta(t)) => init + [TokenItem(t)]
      case _ => init
  }

  /** The texts of the text deltas, in order; what the tokens add up to. */
  function DeltaTexts(events: seq<ProviderEvent>): seq<string> {
    if events == [] then []
    else
      var init := DeltaTexts(events[..|events| - 1]);
      match events[|events| - 1]
      case ContentBlockDelta(TextDelta(t)) => init + [t]
      case _ => init
  }

  /** Token frame `j` carries text delta `j`, and nothing else becomes a frame. */
  lemma {:induction false} TokensAreTextDeltas(events: seq<ProviderEvent>)
    ensures |TokensOf(events)| == |DeltaTexts(events)|
    ensures forall j :: 0 <= j < |TokensOf(events)| ==> TokensOf(events)[j] == TokenItem(DeltaTexts(events)[j])
  {
    if events != [] {
      TokensAreTextDeltas(events[..|events| - 1]);
    }
  }

  // ---------------------------------------------------------------------
  // The handler

  /** The external calls the handler makes, in order. */
  datatype Call =
    | LookupDocument(documentId: string, userId: string)
    | EmbedQueryCall(text: string)
    | SearchCall(documentId: string, userId: string)
    | CompletionCall(system: string, messages: seq<Turn>)

  /** What the client receives: a JSON `{ error }` with a status, or an event stream of frames. */
  datatype Reply = JsonError(status: nat, message: string) | EventStream(frames: seq<SseItem>)

  datatype Exchange = Exchange(reply: Reply, calls: seq<Call>)

  /** The `documents` lookup by id and owner: a row only when both match. */
  predicate Owns(documents: map<string, string>, documentId: string, userId: string) {
    documentId in documents && documents[documentId] == userId
  }

  /** A frame that ends the stream: `{ done: true }` or `{ error }`. */
  predicate IsTerminal(item: SseItem) {
    item.done == Some(true) || item.error.Some?
  }

  /** The reply and the calls of one request; `ChatRoute.Handle` is proved to produce exactly this. */
  function ChatExchange(body: ChatBody, userId: string, documents: map<string, string>,
                        apiKey: Option<string>, voyage: VoyageService,
                        search: SearchService, completion: CompletionService): Exchange
  {
    match Validate(body)
    case Invalid(msg) => Exchange(JsonError(400, msg), [])
    case Valid(documentId, trimmed, history) =>
      if !Owns(documents, documentId, userId) then Exchange(JsonError(404, DocumentNotFound), [LookupDocument(documentId, userId)])
      else RetrievalExchange(documentId, trimmed, history, userId, apiKey, voyage, search, completion)
  }

  /** The exchange from the embedding of the query on, for a valid request on an owned document. */
  function RetrievalExchange(documentId: string, trimmed: string, history: seq<Turn>, userId: string,
                             apiKey: Option<string>, voyage: VoyageService,
                             search: SearchService, completion: CompletionService): Exchange
  {
    var embedded := EmbedQuery(apiKey, voyage, trimmed);
    var upToEmbed := [LookupDocument(documentId, userId), EmbedQueryCall(trimmed)];
    if embedded.Failure? then Exchange(JsonError(500, QueryFailed), upToEmbed)
    else
      var found := SearchChunks(search(embedded.value, documentId, userId));
      var upToSearch := upToEmbed + [SearchCall(documentId, userId)];
      if found.Failure? then Exchange(JsonError(500, QueryFailed), upToSearch)
      else if |found.value| == 0 then
        Exchange(EventStream([TokenItem(NoContentMessage), DoneItem()]), upToSearch)
      else
        var system := SystemPrompt(found.value);
        var messages := PromptMessages(history, trimmed);
        var stream := completion(system, messages);
        Exchange(EventStream(TokensOf(stream.events) + [if stream.fails then ErrorItem(StreamFailed) else DoneItem()]),
                 upToSearch + [CompletionCall(system, messages)])
  }

  /** The Express response: a JSON reply, or event-stream headers followed by frames. */
  class Response {
    var status: nat
    var jsonError: Option<string>
    var streaming: bool
    var frames: seq<SseItem>
    var ended: bool

    constructor ()
      ensures status == 200 && jsonError == None && !streaming && frames == [] && !ended
    {
      status, jsonError, streaming, frames, ended := 200, None, false, [], false;
    }

    /** `res.status(code).json({ error: message })`, which also ends the response. */
    method SendError(code: nat, message: string)
      requires !ended && !streaming
      modifies this
      ensures status == code && jsonError == Some(message) && ended
      ensures streaming == old(streaming) && frames == old(frames)
    {
      status, jsonError, ended := code, Some(message), true;
    }

    /** The four `res.setHeader` calls that commit to an event stream. */
    method SetEventStreamHeaders()
      requires !ended && jsonError == None
      modifies this
      ensures streaming && status == old(status) && jsonError == old(jsonError) && frames == old(frames) && !ended
    {
      streaming := true;
    }

    /** `res.write(`data: ${JSON.stringify(item)}\n\n`)`. */
    method Write(item: SseItem)
      requires streaming && !ended
      modifies this
      ensures frames == old(frames) + [item]
      ensures streaming && !ended && status == old(status) && jsonError == old(jsonError)
    {
      frames := frames + [item];
    }

    /** `res.end()`. */
    method End()
      modifies this
      ensures ended
      ensures status == old(status) && jsonError == old(jsonError) && streaming == old(streaming) && frames == old(frames)
    {
      ended := true;
    }
  }

  /** The route handler, writing to a fresh response. */
  method Handle(body: ChatBody, userId: string, documents: map<string, string>,
                apiKey: Option<string>, voyage: VoyageService,
                search: SearchService, completion: CompletionService, res: Response)
    returns (calls: seq<Call>)
    requires res.status == 200 && res.jsonError == None && !res.streaming && res.frames == [] && !res.ended
    modifies res
    ensures res.ended
    ensures var ex := ChatExchange(body, userId, documents, apiKey, voyage, search, completion);
      && calls == ex.calls
      && (ex.reply.JsonError? ==>
            res.status == ex.reply.status && res.jsonError == Some(ex.reply.message) && !res.streaming && res.frames == [])
      && (ex.reply.EventStream? ==>
            res.status == 200 && res.jsonError == None && res.streaming && res.frames == ex.reply.frames)
  {
    calls := [];
    var v := Validate(body);
    if v.Invalid? {
      res.SendError(400, v.message);
      return;
    }
    var documentId, trimmed, history := v.documentId, v.trimmed, v.history;

    if !Owns(documents, documentId, userId) {
      calls := [LookupDocument(documentId, userId)];
      res.SendError(404, DocumentNotFound);
      return;
    }

    calls := Retrieve(documentId, trimmed, history, userId, apiKey, voyage, search, completion, res);
  }

  /** The handler from the query embedding on: JSON 500 on a retrieval failure, otherwise the event stream. */
  method Retrieve(documentId: string, trimmed: string, history: seq<Turn>, userId: string,
                  apiKey: Option<string>, voyage: VoyageService,
                  search: SearchService, completion: CompletionService, res: Response)
    returns (calls: seq<Call>)
    requires res.status == 200 && res.jsonError == None && !res.streaming && res.frames == [] && !res.ended
    modifies res
    ensures res.ended
    ensures var ex := RetrievalExchange(documentId, trimmed, history, userId, apiKey, voyage, search, completion);
      && calls == ex.calls
      && (ex.reply.JsonError? ==>
            res.status == ex.reply.status && res.jsonError == Some(ex.reply.message) && !res.streaming && res.frames == [])
      && (ex.reply.EventStream? ==>
            res.status == 200 && res.jsonError == None && res.streaming && res.frames == ex.reply.frames)
  {
    calls := [LookupDocument(documentId, userId), EmbedQueryCall(trimmed)];
    var embedded := EmbedQuery(apiKey, voyage, trimmed);
    if embedded.Failure? {
      res.SendError(500, QueryFailed);
      return;
    }
    calls := calls + [SearchCall(documentId, userId)];
    var found := SearchChunks(search(embedded.value, documentId, userId));
    if found.Failure? {
      res.SendError(500, QueryFailed);
      return;
    }
    var chunks := found.value;

    res.SetEventStreamHeaders();

    if |chunks| == 0 {
      res.Write(TokenItem(NoContentMessage));
      res.Write(DoneItem());
      res.End();
      return;
    }

    var system := SystemPrompt(chunks);
    var messages := PromptMessages(history, trimmed);
    calls := calls + [CompletionCall(system, messages)];
    ForwardStream(completion(system, messages), res);
  }

  /**
   * The `try { for await ... } catch { ... } finally { res.end() }` block:
   * forward each text delta, then write `done`, or `error` if the stream threw.
   */
  method ForwardStream(stream: ProviderStream, res: Response)
    requires res.streaming && !res.ended && res.frames == []
    modifies res
    ensures res.frames == TokensOf(stream.events) + [if stream.fails then ErrorItem(StreamFailed) else DoneItem()]
    ensures res.ended && res.streaming && res.status == old(res.status) && res.jsonError == old(res.jsonError)
  {
    for i := 0 to |stream.events|
      invariant res.frames == TokensOf(stream.events[..i])
      invariant res.streaming && !res.ended && res.status == old(res.status) && res.jsonError == old(res.jsonError)
    {
      assert stream.events[..i + 1][..i] == stream.events[..i];
      match stream.events[i]
      case ContentBlockDelta(TextDelta(t)) =>
        res.Write(TokenItem(t));
      case _ =>
    }
    assert stream.events[..|stream.events|] == stream.events;

    if stream.fails {
      res.Write(ErrorItem(StreamFailed));
    } else {
      res.Write(DoneItem());
    }
    res.End();
  }

  // ---------------------------------------------------------------------
  // Properties of the exchange

  /** A request that fails validation gets a 400 with the first failing check's message, and nothing else happens. */
  lemma InvalidRequestStopsAtValidation(body: ChatBody, userId: string, documents: map<string, string>,
                                        apiKey: Option<string>, voyage: VoyageService,
                                        search: SearchService, completion: CompletionService)
    requires Validate(body).Invalid?
    ensures ChatExchange(body, userId, documents, apiKey, voyage, search, completion)
         == Exchange(JsonError(400, Validate(body).message), [])
  {
  }

  /**
   * A document that does not exist and one owned by someone else give the
   * same 404, and neither the embedding nor the search is attempted.
   */
  lemma UnownedDocumentIsNotFound(body: ChatBody, userId: string, documents: map<string, string>,
                                  apiKey: Option<string>, voyage: VoyageService,
                                  search: SearchService, completion: CompletionService)
    requires Validate(body).Valid? && !Owns(documents, Validate(body).documentId, userId)
    ensures var ex := ChatExchange(body, userId, documents, apiKey, voyage, search, completion);
      ex.reply == JsonError(404, DocumentNotFound)
      && ex.calls == [LookupDocument(body.documentId.value, userId)]
  {
  }

  /** A failed embedding or search is a JSON 500, so no stream is opened and no completion is requested. */
  lemma RetrievalFailureIsJsonError(body: ChatBody, userId: string, documents: map<string, string>,
                                    apiKey: Option<string>, voyage: VoyageService,
                                    search: SearchService, completion: CompletionService)
    requires Validate(body).Valid? && Owns(documents, Validate(body).documentId, userId)
    requires var v := Validate(body);
      var e := EmbedQuery(apiKey, voyage, v.trimmed);
      e.Failure? || search(e.value, v.documentId, userId).Failure?
    ensures var ex := ChatExchange(body, userId, documents, apiKey, voyage, search, completion);
      ex.reply == JsonError(500, QueryFailed) && forall c :: c in ex.calls ==> !c.CompletionCall?
  {
  }

  /** The trimmed message, not the raw one, is what gets embedded and what ends the prompt. */
  lemma TrimmedMessageIsUsed(body: ChatBody, userId: string, documents: map<string, string>,
                             apiKey: Option<string>, voyage: VoyageService,
                             search: SearchService, completion: CompletionService)
    requires Validate(body).Valid? && Owns(documents, Validate(body).documentId, userId)
    ensures var ex := ChatExchange(body, userId, documents, apiKey, voyage, search, completion);
      && |ex.calls| >= 2 && ex.calls[1] == EmbedQueryCall(Trim(body.message.value))
      && forall c :: c in ex.calls && c.CompletionCall? ==>
           c.messages[|c.messages| - 1] == Turn(User, Trim(body.message.value))
           && c.messages[..|c.messages| - 1] == body.history.value
  {
    var v := Validate(body);
    assert v.trimmed == Trim(body.message.value) && v.history == body.history.value;
    assert ChatExchange(body, userId, documents, apiKey, voyage, search, completion)
      == RetrievalExchange(v.documentId, v.trimmed, v.history, userId, apiKey, voyage, search, completion);
    RetrievalUsesTheQuery(v.documentId, v.trimmed, v.history, userId, apiKey, voyage, search, completion);
  }

  /** The query is embedded second, and a completion call ends with it after the history. */
  lemma RetrievalUsesTheQuery(documentId: string, trimmed: string, history: seq<Turn>, userId: string,
                              apiKey: Option<string>, voyage: VoyageService,
                              search: SearchService, completion: CompletionService)
    ensures var ex := RetrievalExchange(documentId, trimmed, history, userId, apiKey, voyage, search, completion);
      && |ex.calls| >= 2 && ex.calls[1] == EmbedQueryCall(trimmed)
      && forall c :: c in ex.calls && c.CompletionCall? ==>
           c.messages[|c.messages| - 1] == Turn(User, trimmed) && c.messages[..|c.messages| - 1] == history
  {
    var ex := RetrievalExchange(documentId, trimmed, history, userId, apiKey, voyage, search, completion);
    assert ex.calls[..2] == [LookupDocument(documentId, userId), EmbedQueryCall(trimmed)];
    assert forall c :: c in ex.calls && c.CompletionCall? ==> c.messages == PromptMessages(history, trimmed);
  }

  /** With no retrieved chunk the stream is the canned answer then `done`, and the completion service is never called. */
  lemma NoChunksGiveCannedAnswer(body: ChatBody, userId: string, documents: map<string, string>,
                                 apiKey: Option<string>, voyage: VoyageService,
                                 search: SearchService, completion: CompletionService)
    requires Validate(body).Valid? && Owns(documents, Validate(body).documentId, userId)
    requires var v := Validate(body);
      var e := EmbedQuery(apiKey, voyage, v.trimmed);
      e.Ok? && search(e.value, v.documentId, userId) == Ok([])
    ensures var ex := ChatExchange(body, userId, documents, apiKey, voyage, search, completion);
      ex.reply == EventStream([TokenItem(NoContentMessage), DoneItem()])
      && forall c :: c in ex.calls ==> !c.CompletionCall?
  {
  }

  /**
   * With retrieved chunks the completion gets the labelled context and the
   * history followed by the user turn; the stream forwards the text deltas
   * in order and ends with `done`, or with `error` when the provider throws.
   */
  lemma ChunksAreStreamedThenTerminated(body: ChatBody, userId: string, documents: map<string, string>,
                                        apiKey: Option<string>, voyage: VoyageService,
                                        search: SearchService, completion: CompletionService)
    requires Validate(body).Valid? && Owns(documents, Validate(body).documentId, userId)
    requires var v := Validate(body);
      var e := EmbedQuery(apiKey, voyage, v.trimmed);
      e.Ok? && search(e.value, v.documentId, userId).Ok? && |search(e.value, v.documentId, userId).value| > 0
    ensures var v := Validate(body);
      var chunks := search(EmbedQuery(apiKey, voyage, v.trimmed).value, v.documentId, userId).value;
      var system := SystemMessage + ContextHeader + Context(chunks);
      var messages := body.history.value + [Turn(User, Trim(body.message.value))];
      var stream := completion(system, messages);
      var ex := ChatExchange(body, userId, documents, apiKey, voyage, search, completion);
      && ex.calls[|ex.calls| - 1] == CompletionCall(system, messages)
      && ex.reply == EventStream(TokensOf(stream.events) + [if stream.fails then ErrorItem(StreamFailed) else DoneItem()])
  {
    var v := Validate(body);
    var ex := RetrievalExchange(v.documentId, v.trimmed, v.history, userId, apiKey, voyage, search, completion);
    assert ChatExchange(body, userId, documents, apiKey, voyage, search, completion) == ex;
  }

  /**
   * Every event stream the handler opens is zero or more token frames
   * followed by exactly one terminal frame, `done` or `error`.
   */
  lemma ExactlyOneTerminalFrame(body: ChatBody, userId: string, documents: map<string, string>,
                                apiKey: Option<string>, voyage: VoyageService,
                                search: SearchService, completion: CompletionService)
    requires ChatExchange(body, userId, documents, apiKey, voyage, search, completion).reply.EventStream?
    ensures var frames := ChatExchange(body, userId, documents, apiKey, voyage, search, completion).reply.frames;
      && |frames| >= 1
      && IsTerminal(frames[|frames| - 1])
      && (forall j :: 0 <= j < |frames| - 1 ==> !IsTerminal(frames[j]) && frames[j].token.Some?)
  {
    var v := Validate(body);
    var ex := RetrievalExchange(v.documentId, v.trimmed, v.history, userId, apiKey, voyage, search, completion);
    assert ChatExchange(body, userId, documents, apiKey, voyage, search, completion) == ex;
    var embedded := EmbedQuery(apiKey, voyage, v.trimmed);
    var found := SearchChunks(search(embedded.value, v.documentId, userId));
    if |found.value| > 0 {
      var stream := completion(SystemPrompt(found.value), PromptMessages(v.history, v.trimmed));
      var last := if stream.fails then ErrorItem(StreamFailed) else DoneItem();
      assert ex.reply.frames == TokensOf(stream.events) + [last];
      TokensThenTerminal(TokensOf(stream.events), last);
    } else {
      TokensThenTerminal([TokenItem(NoContentMessage)], DoneItem());
    }
  }

  /** Token-only frames followed by one terminal frame have the terminal frame last and only there. */
  lemma TokensThenTerminal(tokens: seq<SseItem>, last: SseItem)
    requires forall j :: 0 <= j < |tokens| ==> tokens[j].token.Some? && tokens[j].done.None? && tokens[j].error.None?
    requires IsTerminal(last)
    ensures var frames := tokens + [last];
      && IsTerminal(frames[|frames| - 1])
      && (forall j :: 0 <= j < |frames| - 1 ==> !IsTerminal(frames[j]) && frames[j].token.Some?)
  {
    var frames := tokens + [last];
    assert forall j :: 0 <= j < |frames| - 1 ==> frames[j] == tokens[j];
  }

}
