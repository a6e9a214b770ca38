# MayHapotTabi core, modelled in Dafny

MayHapotTabi lets a signed-in user upload a PDF and then chat with it.
The backend stores the file, extracts its text, cuts the text into
overlapping windows and stores one embedding per window. A chat question
is embedded, the closest windows are retrieved, and the answer from the
language model is streamed back to the browser as server-sent events.
The frontend is built from four parts: the upload zone, the document
dashboard ordered by recent activity, the chat page that consumes the
stream, and the message box.

The model has one module per core source file, plus two support modules.

| module | file | models |
|---|---|---|
| `Wrappers` | `wrappers.dfy` | `Option` and `Result` |
| `Text` | `text.dfy` | JavaScript `trim` (the ECMAScript white-space and line-terminator set), `join`, decimal rendering, `startsWith` |
| `Pdf` | `pdf.dfy` | `chunkText` of backend/src/services/pdf.ts as a `while` loop, plus its windows |
| `Stream` | `stream.dfy` | `parseSSEChunk` of frontend/src/lib/stream.ts as a `for` loop, and the wire format the chat route writes |
| `Embeddings` | `embeddings.dfy` | `generateEmbedding`, `embedQuery` and `storeChunks` of backend/src/services/embeddings.ts |
| `ChatRoute` | `chat_route.dfy` | the POST handler of backend/src/routes/chat.ts, and `searchChunks` of backend/src/services/vectorSearch.ts |
| `UploadRoute` | `upload_route.dfy` | multer's filter and limit, `handleUpload`, and the POST handler of backend/src/routes/upload.ts with its rollback |
| `ChatPage` | `chat_page.dfy` | `handleSubmit` of frontend/src/pages/Chat.tsx |
| `Dashboard` | `dashboard.dfy` | `fetchDocuments` of frontend/src/pages/Dashboard.tsx |
| `UploadZone` | `upload_zone.dfy` | the state machine of frontend/src/components/document/UploadZone.tsx |
| `ChatInput` | `chat_input.dfy` | frontend/src/components/chat/ChatInput.tsx |

External services are parameters of the operations that call them. They
are Supabase storage, database and RPC, the Voyage embedding API, the
Anthropic stream, pdf-parse, `fetch` and the body reader.
- A service that answers once is the value it answers, for example
  `Outcomes` in `UploadRoute` or `FetchResult` in `ChatPage`.
- A service that maps inputs to outputs is a function value, for example
  `VoyageService`, `SearchService` and `CompletionService`.

JSON is an abstract pair `encode`/`decode`. The round-trip lemmas assume
`decode(encode(e)) == Some(e)`, and that an encoding holds no line feed.
`JSON.stringify` without indentation never produces one.

Code that updates state in place is modelled as classes:
- the Express response (`ChatRoute.Response`);
- the three stores of the upload route (`UploadRoute.Stores`);
- the React state of the chat page, the dashboard, the upload zone and the message box.

A React `setState` is an assignment to a field. A functional updater is a
method of the class.

## Model

| member | source | states |
|---|---|---|
| Text.Trim | backend/src/services/pdf.ts:22 | The result leaves no white space at either end. It is empty exactly when the input is all white space. |
| Text.TrimCutsBlankEnds | backend/src/services/pdf.ts:22 | `trim` removes only white space, at both ends: its result is `s` with a blank prefix of the returned length and a blank suffix cut off. |
| Text.TrimIdempotent | frontend/src/components/chat/ChatInput.tsx:34 | Trimming an already trimmed string changes nothing. |
| Pdf.NumWindows | backend/src/services/pdf.ts:15-19 | Definition: the closed form of the number of windows for a text of `n` characters. Pdf.NumWindowsCounts ties it to the loop guard. |
| Pdf.NumWindowsCounts | backend/src/services/pdf.ts:15-19 | Window `k` is emitted exactly when the text is non-empty and either `k` is 0 or window `k-1` ends before the end of the text. So there is one window up to 1600 characters, and ceil((n-1600)/1400)+1 windows beyond that. |
| Pdf.WindowStartInside | backend/src/services/pdf.ts:15-16 | Every emitted window starts inside the text, before its own end. |
| Pdf.Window | backend/src/services/pdf.ts:16-17 | A window has at most 1600 characters. |
| Pdf.RawWindows | backend/src/services/pdf.ts:15-20 | The loop emits exactly `NumWindows(len)` windows. |
| Pdf.ChunkText | backend/src/services/pdf.ts:11-24 | The loop terminates. It returns the windows that have content, or `[text]` when none does, and the result is never empty. |
| Pdf.RawWindowShape | backend/src/services/pdf.ts:15-19 | Raw window k is `text[k*1400 .. min(k*1400+1600, len)]`, starts inside the text, and has at most 1600 characters. |
| Pdf.WindowsOverlap | backend/src/services/pdf.ts:3-19 | Every window but the last is 1600 characters long. Its last 200 characters are the first 200 of the next window. |
| Pdf.LastWindowReachesEnd | backend/src/services/pdf.ts:16-18 | The last window of a non-empty text ends exactly at `text.length`. |
| Pdf.StitchRawWindows | backend/src/services/pdf.ts:15-19 | Joining the raw windows, each after the first without its 200-character overlap, gives back the whole text. |
| Pdf.CoveredByWindow | backend/src/services/pdf.ts:15-19 | Every character position lies inside some emitted window. |
| Pdf.HasContentIsNotBlank | backend/src/services/pdf.ts:22 | The filter `c.trim().length > 0` holds exactly when the chunk has a character that is not white space. |
| Pdf.HasContent | backend/src/services/pdf.ts:22 | Definition: `c.trim().length > 0`. Pdf.HasContentIsNotBlank states what it means. |
| Pdf.FilterContent | backend/src/services/pdf.ts:22 | Definition: the windows that pass the `trim().length > 0` filter, in order. Pdf.ContentChunksInOrder and Pdf.FallbackIffBlank state what it keeps. |
| Pdf.Chunks | backend/src/services/pdf.ts:11-24 | Definition: the windows that have content, or `[text]` when none does. Pdf.ChunkText is proved to compute it. |
| Pdf.BlankTextFiltersToNothing | backend/src/services/pdf.ts:22 | For a text that is all white space, the filter keeps no window. |
| Pdf.ContentTextKeepsAWindow | backend/src/services/pdf.ts:22 | A text with some content keeps at least one window. |
| Pdf.FallbackIffBlank | backend/src/services/pdf.ts:22-23 | The `[text]` fallback is taken if and only if the text is all white space. |
| Pdf.ChunksNonEmpty | backend/src/services/pdf.ts:23 | The result is never empty. |
| Pdf.BlankTextIsOneChunk | backend/src/services/pdf.ts:22-23 | A text that is all white space is returned as `[text]`. |
| Pdf.EmptyTextIsOneEmptyChunk | backend/src/services/pdf.ts:13-23 | The empty text gives `[""]`. |
| Pdf.ContentChunksInOrder | backend/src/services/pdf.ts:22 | Outside the fallback, chunk j is the raw window at index idx[j]. Each chunk has content and at most 1600 characters. The indices strictly increase, so the chunks keep the text's order. |
| Pdf.ShortTextIsOneChunk | backend/src/services/pdf.ts:15-23 | A text of at most 1600 characters with some content is returned as `[text]`. |
| Pdf.TwoThousandCharacters | backend/src/services/pdf.ts:15-19 | A 2000-character text gives the windows [0,1600) and [1400,2000). |
| Stream.SplitParts | frontend/src/lib/stream.ts:9 | `split("\n\n")` always gives at least one part. |
| Stream.SplitPartsJoin | frontend/src/lib/stream.ts:9 | Joining the parts with `\n\n` gives the chunk back, so the split loses and adds nothing. |
| Stream.ParseParts | frontend/src/lib/stream.ts:10-19 | Definition: the loop's results for a list of parts, part by part in order, with at most one result per part. Stream.ParseSseChunk is proved equal to it. |
| Stream.CutInsideSeparator | frontend/src/lib/stream.ts:9-19 | When a read ends between the two newlines of a separator, the cut frame still splits off as one whole part. The next read's first part then begins with a newline and parses to nothing, so the whole frame after the cut is lost. |
| Stream.ParsePart | frontend/src/lib/stream.ts:11-18 | Definition: the decoded payload of a part that starts with `data: `, or nothing. |
| Stream.ParseSseChunk | frontend/src/lib/stream.ts:7-21 | The loop returns the decoded payloads of the parts that start with `data: ` and decode, in order. There are no more results than parts. |
| Stream.ParsePartsAppend | frontend/src/lib/stream.ts:10-19 | Parsing is compositional: the parts of a concatenation give the concatenated results. |
| Stream.SkippedPartIsHarmless | frontend/src/lib/stream.ts:11-18 | A part without the `data: ` prefix, or whose payload fails to decode, contributes nothing, and later parts are still parsed. |
| Stream.EmptyChunkYieldsNothing | frontend/src/lib/stream.ts:8-20 | The empty chunk gives no item. |
| Stream.SplitAtSeparator | frontend/src/lib/stream.ts:9 | A piece without line feeds, followed by `\n\n`, splits off as one part. |
| Stream.SplitSerialized | backend/src/routes/chat.ts:84-120 | The frames `data: <json>\n\n` written back to back split into their payload parts, plus one trailing empty part. |
| Stream.ParseDataParts | frontend/src/lib/stream.ts:11-15 | Data parts whose payloads are encodings decode back to the encoded items. |
| Stream.WireRoundTrip | frontend/src/lib/stream.ts:9-15 | The frames the chat route writes for items e1..en parse back to exactly e1..en. |
| Stream.Serialize | backend/src/routes/chat.ts:84-120 | Definition: the frames `data: <json>\n\n` back to back. Stream.WireRoundTrip states their round trip. |
| Embeddings.KeyPresent | backend/src/services/embeddings.ts:9-10 | Definition: the JavaScript truthiness of the API key, which is set and not empty. |
| Embeddings.GenerateEmbedding | backend/src/services/embeddings.ts:8-28 | Without an API key the result is the missing-key failure, whatever the endpoint would answer. A rejected request, or a body that is not JSON, fails with what it throws. A non-OK reply fails with `Voyage API error <status>: <body>`. The result is a vector exactly when the key is set and the reply is OK with some data, and the vector is then the first one. |
| Embeddings.EmbedQuery | backend/src/services/embeddings.ts:56-58 | Definition: `generateEmbedding` of the query text. What its failures do in the chat route is stated by ChatRoute.RetrievalFailureIsJsonError. |
| Embeddings.EmbedAll | backend/src/services/embeddings.ts:36-47 | All chunks get an embedding, in order, or the result is the failure of some chunk. |
| Embeddings.BuildRows | backend/src/services/embeddings.ts:37-46 | One row per chunk. |
| Embeddings.StoreChunks | backend/src/services/embeddings.ts:30-54 | An embedding failure happens exactly when some chunk fails, and then no insert is issued. Otherwise row i holds chunk i, index i, the given document and user, and chunk i's embedding. An insert error fails with `Failed to store chunks: <message>`. |
| Embeddings.StoredIndicesContiguous | backend/src/services/embeddings.ts:44 | The stored chunk indices are 0..n-1 with no gap. |
| ChatRoute.Validate | backend/src/routes/chat.ts:14-46 | The checks run in order: a UUID document id (hex, either case), then a non-empty trimmed message, then a length of at most 2000, then an array `history`. Each failure gives its own message. A valid body yields the trimmed message. |
| ChatRoute.IsUuid | backend/src/routes/chat.ts:14-15 | Definition: five groups of 8, 4, 4, 4 and 12 hexadecimal digits of either case, separated by `-`. |
| ChatRoute.ChatExchange | backend/src/routes/chat.ts:19-124 | Definition: the reply and the calls of one request, in terms of the validation, the ownership lookup and the retrieval. ChatRoute.Handle is proved to produce it. |
| ChatRoute.RetrievalExchange | backend/src/routes/chat.ts:63-123 | Definition: embedding, search, the canned answer or the completion, with the calls made so far. Its properties are ChatRoute.RetrievalUsesTheQuery, ChatRoute.NoChunksGiveCannedAnswer and ChatRoute.ChunksAreStreamedThenTerminated. |
| ChatRoute.Label | backend/src/routes/chat.ts:91 | Definition: chunk `i` rendered as `[i+1] content`. |
| ChatRoute.Context | backend/src/routes/chat.ts:91 | Definition: the labelled chunks joined by a blank line. Its properties are ChatRoute.ContextSnoc, ChatRoute.ContextOfOne and ChatRoute.PromptShowsEveryChunk. |
| ChatRoute.SearchChunks | backend/src/services/vectorSearch.ts:9-18 | Definition: the rows of the search, or `Vector search failed: <message>`. ChatRoute.RetrievalFailureIsJsonError states that such a failure is a JSON 500 with no completion call. |
| ChatRoute.SystemPrompt | backend/src/routes/chat.ts:92-93 | Definition: the system message, the context header, then the context. ChatRoute.PromptShowsEveryChunk states what it shows. |
| ChatRoute.PromptShowsEveryChunk | backend/src/routes/chat.ts:91-93 | The system text starts with the system message and the context header. After them, every retrieved chunk appears as `[rank] content`, where rank is its position plus one. |
| ChatRoute.PromptMessages | backend/src/routes/chat.ts:94-97 | The messages are the history in order, then the user turn with the trimmed message. |
| ChatRoute.ContextSnoc | backend/src/routes/chat.ts:91 | One more chunk appends `\n\n[i+1] content` to the context. |
| ChatRoute.ContextOfOne | backend/src/routes/chat.ts:91 | A single chunk gives `[1] content`. |
| ChatRoute.TokensOf | backend/src/routes/chat.ts:108-115 | Every forwarded frame is a token frame, with neither `done` nor `error`. |
| ChatRoute.TokensAreTextDeltas | backend/src/routes/chat.ts:108-115 | Token frame j carries the j-th text delta, and events of other types give no frame. |
| ChatRoute.Response.SendError | backend/src/routes/chat.ts:28 | A JSON error sets the status and the error body, then ends the response. |
| ChatRoute.Response.Write | backend/src/routes/chat.ts:84 | `res.write` appends one frame. |
| ChatRoute.Response.SetEventStreamHeaders | backend/src/routes/chat.ts:75-78 | The headers commit the response to an event stream. Allowed only before a JSON error and before the end. Status, error body and frames are unchanged. |
| ChatRoute.Response.End | backend/src/routes/chat.ts:122 | `res.end()` marks the response ended and changes nothing else. |
| ChatRoute.Handle | backend/src/routes/chat.ts:19-124 | The handler produces exactly the reply and the calls of `ChatExchange`. The response is always ended. A JSON error never comes with event-stream headers or frames. |
| ChatRoute.Retrieve | backend/src/routes/chat.ts:63-88 | Embed the query and search before any header is sent. A failure is a JSON 500 "Failed to process query". Otherwise the headers are set and the stream is written. |
| ChatRoute.ForwardStream | backend/src/routes/chat.ts:99-123 | The text deltas are forwarded in order, then exactly one `done`, or `error` "Stream failed" when the provider throws. The response is ended. |
| ChatRoute.InvalidRequestStopsAtValidation | backend/src/routes/chat.ts:27-46 | An invalid body gets a 400 with the message of the first failing check, and no further call is made. |
| ChatRoute.Owns | backend/src/routes/chat.ts:51-56 | Definition: the document lookup by id and user id finds a row. |
| ChatRoute.UnownedDocumentIsNotFound | backend/src/routes/chat.ts:51-61 | When no document has both that id and that owner, the reply is a 404 and only the lookup was made. |
| ChatRoute.RetrievalFailureIsJsonError | backend/src/routes/chat.ts:64-72 | An embedding or search failure is a JSON 500, and no completion is requested. |
| ChatRoute.TrimmedMessageIsUsed | backend/src/routes/chat.ts:33-96 | The trimmed message is what gets embedded and what ends the prompt after the history. |
| ChatRoute.RetrievalUsesTheQuery | backend/src/routes/chat.ts:66-97 | From the ownership check on, the second call embeds the trimmed query. Every completion call ends with the user turn of that query, after the history. |
| ChatRoute.NoChunksGiveCannedAnswer | backend/src/routes/chat.ts:81-88 | With no chunk, the stream is the canned token and then `done`, with no completion call. |
| ChatRoute.ChunksAreStreamedThenTerminated | backend/src/routes/chat.ts:90-123 | With chunks, the completion gets the labelled context and the history plus the user turn. The stream is its token frames, then `done` or `error`. |
| ChatRoute.ExactlyOneTerminalFrame | backend/src/routes/chat.ts:84-120 | Every event stream is zero or more token frames, then exactly one terminal frame. |
| UploadRoute.Admit | backend/src/routes/upload.ts:9-42 | A missing file gives "No file uploaded". A type other than `application/pdf` gives "Only PDF files are accepted". More than 10 MiB gives "File too large". Exactly 10 MiB is admitted. |
| UploadRoute.StoragePath | backend/src/routes/upload.ts:48 | Definition: `${userId}/${documentId}.pdf`. UploadRoute.StoragePathIdentifiesUpload states what the key guarantees. |
| UploadRoute.StoragePathIdentifiesUpload | backend/src/routes/upload.ts:45-48 | When user ids hold no `/`, two uploads get the same key only if they have the same user and the same document id. |
| UploadRoute.StepsIssued | backend/src/routes/upload.ts:50-96 | The steps run in a fixed order, and a failing step prevents every later one. The blob is removed exactly when a step after the upload fails, and the removal is the last step. |
| UploadRoute.Compensated | backend/src/routes/upload.ts:91-93 | After a successful removal the bucket is the old bucket without the new path. After a failed removal the blob remains. |
| UploadRoute.CompensationRestoresBucket | backend/src/routes/upload.ts:47-56 | The key is a fresh `randomUUID()` and the upload does not upsert. For a key not yet in the bucket, a successful removal leaves the bucket exactly as it was. |
| UploadRoute.Stores.UploadBlob | backend/src/routes/upload.ts:51-61 | The upload reports success exactly when it does not fail, and only then stores the content at the path. The tables are unchanged. |
| UploadRoute.Stores.InsertDocument | backend/src/routes/upload.ts:73-77 | Without an error the row is stored under its id; with an error nothing changes. |
| UploadRoute.Stores.InsertChunks | backend/src/services/embeddings.ts:49 | The bulk insert appends all the rows at once. |
| UploadRoute.FirstFailure | backend/src/routes/upload.ts:58-84 | Definition: the first step that fails, in the order blob upload, document insert, extraction, `storeChunks`. UploadRoute.StepsIssued and UploadRoute.PostUpload state what follows from it. |
| UploadRoute.Stores.RemoveBlob | backend/src/routes/upload.ts:93 | The removal deletes exactly the given path when it succeeds. |
| UploadRoute.PostUpload | backend/src/routes/upload.ts:44-96 | A failed blob upload is a 500 and nothing changes. A later failure is a 500 "Failed to process document": the blob is compensated, no chunk row is added, and a document row already inserted stays. When the removal succeeds that row points at a blob that no longer exists. Success is a 201 with id, name and chunk count, and the stored rows are added. |
| UploadRoute.ProcessStored | backend/src/routes/upload.ts:63-96 | The `try` block, entered once the blob is stored. It issues the steps after the upload in order. On the first failure the answer is 500 "Failed to process document", the blob is removed if the removal succeeds, and no chunk row is added. The document row stays unless its own insert failed. On success the answer is 201 with the chunk count and the rows are appended. |
| UploadRoute.ProcessText | backend/src/routes/upload.ts:79-96 | Extraction, then `storeChunks`, then the 201 reply. Either failure removes the blob and answers 500, with no chunk row added. The document table is never touched. |
| UploadRoute.Rollback | backend/src/routes/upload.ts:91-96 | The `catch` block removes only the blob and answers 500. |
| UploadRoute.Post | backend/src/routes/upload.ts:24-48 | A file multer refuses, or a missing file, gives a 400 before any step. Otherwise the first step is the blob upload at the storage key. |
| UploadRoute.StoredRowsDescribeChunks | backend/src/routes/upload.ts:80-84 | On success the stored rows are the chunks of the extracted text, with indices 0..n-1, the new document id and the owner. |
| ChatPage.Consume | frontend/src/pages/Chat.tsx:91-108 | Definition: the item loop. Tokens accumulate until the first item that sets `error` (tested first) or `done`. ChatPage.ConsumeEnding, ChatPage.ConsumeAppend and ChatPage.ConsumeTokenRun state what it does. |
| ChatPage.ConsumeEnding | frontend/src/pages/Chat.tsx:91-108 | Consumption runs out exactly when no item sets `error` or `done`. It ends on an error exactly when the first item that sets either sets `error`, and on `done` exactly when that first item sets `done` without `error`. |
| ChatPage.ConsumeAppend | frontend/src/pages/Chat.tsx:86-108 | Once a `done` or an `error` is seen, later items change nothing. Otherwise consumption continues into them. |
| ChatPage.ErrorSet | frontend/src/pages/Chat.tsx:92 | Definition: `item.error` is truthy, that is, present and non-empty. |
| ChatPage.DoneSet | frontend/src/pages/Chat.tsx:93 | Definition: `item.done` is `true`. |
| ChatPage.TokenSet | frontend/src/pages/Chat.tsx:97 | Definition: `item.token` is truthy, that is, present and non-empty. |
| ChatPage.AllItems | frontend/src/pages/Chat.tsx:86-90 | Definition: the items of every read, each read parsed on its own. ChatPage.AllItemsSnoc and ChatPage.AllItemsOfReads state its properties. |
| ChatPage.StreamResult | frontend/src/pages/Chat.tsx:68-109 | Definition: the answer and whether the `catch` block runs, for a fetch that fails, a bad response, or a stream. ChatPage.ChatPage.HandleSubmit is proved against it. |
| ChatPage.ChatPage.StartExchange | frontend/src/pages/Chat.tsx:55-59 | Appends `{user, text}` and then `{assistant, ""}`. |
| ChatPage.ChatPage.AppendToken | frontend/src/pages/Chat.tsx:99-106 | Appends the token to the last message, which becomes an assistant message. Earlier messages are unchanged. |
| ChatPage.ChatPage.DropEmptyAssistant | frontend/src/pages/Chat.tsx:121-127 | Removes the last message only if it is an assistant message with empty content. |
| ChatPage.ChatPage.ConsumeItems | frontend/src/pages/Chat.tsx:91-108 | The loop over one read's items: `error` is checked first, then `done`, then a non-empty token, which is appended to the answer and to the last message. |
| ChatPage.ChatPage.ReadStream | frontend/src/pages/Chat.tsx:81-109 | `fullResponse` is the tokens before the first `done` or `error`. The read fails on an `error` item, or on a rejected read before `done`. |
| ChatPage.ChatPage.HandleSubmit | frontend/src/pages/Chat.tsx:49-131 | Ignored without a document id or while streaming. The history sent is the list before this submit. On failure a partial answer stays and only an empty assistant turn is dropped. The exchange is persisted only with a user id and a non-empty answer. Streaming is always reset. |
| ChatPage.StoppedStaysStopped | frontend/src/pages/Chat.tsx:86-96 | After the first `done` or `error`, later reads do not change the result. |
| ChatPage.AllItemsSnoc | frontend/src/pages/Chat.tsx:87-90 | Each read contributes exactly the items `parseSSEChunk` finds in it. |
| ChatPage.ConsumeTokenRun | frontend/src/pages/Chat.tsx:97-98 | Token-only items are all consumed, and their tokens are concatenated. |
| ChatPage.AllItemsOfReads | frontend/src/pages/Chat.tsx:86-90 | However the frames are grouped into reads, with no frame cut across two reads, parsing every read gives back every frame in order. |
| ChatPage.ReadingTheChatStream | frontend/src/pages/Chat.tsx:86-109 | When the route's event stream arrives in any number of reads that hold whole frames, the answer is exactly the concatenated text deltas. It ends in `done`, or in the `catch` block when the provider failed, whatever the reader does after the last frame. |
| Dashboard.OrEmpty | frontend/src/pages/Dashboard.tsx:33-37 | Definition: `data ?? []`. Dashboard.DashboardPage.FetchDocuments uses it for both queries. |
| Dashboard.FirstWins | frontend/src/pages/Dashboard.tsx:36-41 | Definition: the map the loop has built after a prefix of the rows. Its properties are Dashboard.FirstWinsKeys, Dashboard.FirstWinsIsFirstRow and Dashboard.FirstWinsIsNewest. |
| Dashboard.BuildLatestChat | frontend/src/pages/Dashboard.tsx:36-41 | The first-wins map has a key for exactly the documents that have a chat row. |
| Dashboard.FirstWinsKeys | frontend/src/pages/Dashboard.tsx:37-41 | A document id is a key exactly when some row names it. |
| Dashboard.FirstWinsIsFirstRow | frontend/src/pages/Dashboard.tsx:38-39 | A document's entry is the timestamp of its first row. |
| Dashboard.FirstWinsIsNewest | frontend/src/pages/Dashboard.tsx:35-41 | When the rows are newest first, each document's entry is its newest chat timestamp. |
| Dashboard.FirstOccurrence | frontend/src/pages/Dashboard.tsx:38 | Every row's document has a first row, which no earlier row shares. |
| Dashboard.DescendingFromEarlier | frontend/src/pages/Dashboard.tsx:22-24 | In rows ordered newest first, a later row is never newer than an earlier one. |
| Dashboard.NotAfter | frontend/src/pages/Dashboard.tsx:47 | Definition: code-point order on strings, which stands in for `localeCompare`. |
| Dashboard.NotAfterReflexive | frontend/src/pages/Dashboard.tsx:47 | String order is reflexive. |
| Dashboard.NotAfterTotal | frontend/src/pages/Dashboard.tsx:47 | Any two strings are ordered one way or the other. |
| Dashboard.NotAfterTransitive | frontend/src/pages/Dashboard.tsx:47 | String order is transitive. |
| Dashboard.Recency | frontend/src/pages/Dashboard.tsx:45-46 | Definition: the latest chat timestamp of a document, or else its upload time. |
| Dashboard.Insert | frontend/src/pages/Dashboard.tsx:44-48 | An insertion adds exactly one document. |
| Dashboard.SortByRecency | frontend/src/pages/Dashboard.tsx:44-48 | The sorted list is a permutation of the fetched documents. |
| Dashboard.InsertKeepsDescending | frontend/src/pages/Dashboard.tsx:44-48 | Inserting into a list that is most recent first keeps it that way. |
| Dashboard.SortedByRecency | frontend/src/pages/Dashboard.tsx:44-48 | The sorted list is most recent first, by the latest chat or else the upload time. |
| Dashboard.SortKeepsDescendingOrder | frontend/src/pages/Dashboard.tsx:44-48 | A list already most recent first, ties included, is left as it is. |
| Dashboard.SameRecency | frontend/src/pages/Dashboard.tsx:44-48 | Definition: the documents of one recency, in list order. |
| Dashboard.InsertSameRecency | frontend/src/pages/Dashboard.tsx:44-48 | An inserted document goes before every document of its own recency, and the order of documents of other recencies is kept. |
| Dashboard.SortIsStable | frontend/src/pages/Dashboard.tsx:44-48 | The sort is stable. For every input and every recency, the documents of that recency come out in their input order. |
| Dashboard.DashboardPage.FetchDocuments | frontend/src/pages/Dashboard.tsx:14-52 | Loading ends false. A documents error sets `fetchError` and keeps the list. Otherwise the error is cleared and the list is the documents sorted by recency, using the latest-chat map. |
| UploadZone.FileProblem | frontend/src/components/document/UploadZone.tsx:14-34 | The type is checked before the size. A file is refused exactly when its type is not PDF or it has more than 10 MiB, so exactly 10 MiB is allowed. |
| UploadZone.FailureMessage | frontend/src/components/document/UploadZone.tsx:50-64 | Definition: the connection message without a response, the `error` string of a response or else the default message, and the default message for an error that is not from axios. UploadZone.Zone.UploadSettled shows it. |
| UploadZone.ZoneAgreesWithServer | frontend/src/components/document/UploadZone.tsx:14-34 | The zone posts exactly the files the upload route admits, and both refuse a non-PDF file on its type. |
| UploadZone.Zone.HandleFile | frontend/src/components/document/UploadZone.tsx:24-43 | A refused file puts the zone in error with its message, and nothing is posted. An accepted file enters uploading under its name and is posted. |
| UploadZone.Zone.UploadSettled | frontend/src/components/document/UploadZone.tsx:42-66 | Success enters success and notifies the page. A 401 signs out and leaves the state as it is. Every other failure enters error with its message. |
| UploadZone.Zone.SuccessTimerFires | frontend/src/components/document/UploadZone.tsx:46-49 | The timer returns the zone to idle, with no file name. |
| UploadZone.Zone.OnDragOver | frontend/src/components/document/UploadZone.tsx:71-76 | Ignored while uploading. Otherwise the zone enters dragging, and a shown error is cleared. |
| UploadZone.Zone.OnDragLeave | frontend/src/components/document/UploadZone.tsx:78-80 | Only dragging returns to idle. |
| UploadZone.Zone.OnDrop | frontend/src/components/document/UploadZone.tsx:82-88 | Ignored while uploading. Otherwise the zone goes idle, then handles the first dropped file. |
| UploadZone.Zone.OnClick | frontend/src/components/document/UploadZone.tsx:90-95 | Ignored while uploading. Otherwise the zone goes idle, clears the error and opens the picker. |
| UploadZone.Zone.OnKeyDown | frontend/src/components/document/UploadZone.tsx:103-105 | Enter or Space acts as a click, and other keys do nothing. |
| UploadZone.Zone.OnInputChange | frontend/src/components/document/UploadZone.tsx:97-101 | The chosen file, if any, is handled. |
| ChatInput.CounterText | frontend/src/components/chat/ChatInput.tsx:72 | The counter reads the decimal length, then `/2000`. |
| ChatInput.TooLong | frontend/src/components/chat/ChatInput.tsx:16 | Definition: more than 2000 characters. |
| ChatInput.Disabled | frontend/src/components/chat/ChatInput.tsx:17 | Definition: the trimmed value is empty, or a reply is streaming, or the value is too long. |
| ChatInput.ShowCounter | frontend/src/components/chat/ChatInput.tsx:68 | Definition: more than 1800 characters. |
| ChatInput.TooLongShowsCounter | frontend/src/components/chat/ChatInput.tsx:16-68 | An over-long value disables the button and shows the counter. |
| ChatInput.ChatInputBox.HandleChange | frontend/src/components/chat/ChatInput.tsx:19-20 | The box holds what was typed. |
| ChatInput.ChatInputBox.Submit | frontend/src/components/chat/ChatInput.tsx:16-38 | Sends the trimmed value exactly when the button is enabled, and then clears the box. When disabled, nothing changes. |
| ChatInput.ChatInputBox.HandleKeyDown | frontend/src/components/chat/ChatInput.tsx:26-31 | Enter without Shift submits. Any other key, Shift+Enter included, leaves the box unchanged. |
| ChatInput.SentMessagesPassValidation | frontend/src/components/chat/ChatInput.tsx:16-35 | A message the box sends, with a valid id and a history, passes the chat route's checks unchanged. |

## Left out

- External services are outcomes or functions given as parameters, and their internals are not modelled. These are Supabase (storage, tables, the `match_chunks` RPC and its ranking), Voyage, Anthropic, pdf-parse, `fetch`, the body reader and `TextDecoder`.
- A frame cut across two reads is not reassembled, because each read is parsed by itself. What is lost depends on where the cut falls:
  - a cut inside the prefix or the payload loses that frame, since neither half parses;
  - a cut right after the payload loses nothing;
  - a cut between the two newlines of the separator keeps the cut frame, since `JSON.parse` accepts the trailing newline, but loses the whole frame after it, whose part then begins with a newline (Stream.CutInsideSeparator).
  A lost token frame silently shortens the answer. A lost `done` ends the read loop when the reader finishes, with the answer received so far. ChatPage.ReadingTheChatStream covers only reads that hold whole frames.
- The search asks for at most 5 rows. The model does not assume this bound, because no property depends on it.
- `extractTextFromPdf` is not modelled. Its result, text or a failure, is an input of the upload saga.
- JSON is an abstract `encode`/`decode` pair. Bodies that are not objects, and fields of the wrong type, are not modelled. An SSE payload that is `null` is treated as undecodable.
- ChatRoute.Validate: a `message` that is present but not a string would throw in the route. This is not modelled, because the body's type only allows a string or nothing.
- UploadRoute.Admit: all middleware errors are given multer's message. The "Upload error" branch for a non-`Error` value and a file under another field name are not modelled.
- Embeddings.StoreChunks: `Promise.all` fans the embedding calls out at once and rejects with the first failure in time. The model reports the failure of the lowest failing index.
- The `[x,y,…]` text form of an embedding is not modelled. A row carries the vector itself.
- Embedding vectors are opaque `seq<real>`.
- Concurrency and timing: React state updates are applied at once and in program order. The 1500 ms `setTimeout` after a successful upload is the separate event `SuccessTimerFires`.
- Dashboard.SortByRecency: `localeCompare` is approximated by code-point order. The two differ on ISO timestamps that differ only in whether they carry fractional seconds. For `2024-01-01T10:00:00+00:00` against `2024-01-01T10:00:00.5+00:00`, code-point order puts `+` before `.`, while the ICU collation puts `.` before `+`. Timestamps of the same shape, digit for digit, are ordered the same by both.
- Dashboard.DashboardPage.FetchDocuments: the error of the chat-messages query is ignored, as in the code. Its data is treated as `[]` when absent.
- Lengths are counted in Unicode code points, while JavaScript counts UTF-16 code units. This makes a difference only for characters outside the Basic Multilingual Plane. The frontend and the backend count the same way in both.
- The toasts, the `console.error` calls, textarea resizing, the input's value reset and all rendering are not modelled.
- Auth middleware, login, routing, bootstrap and the Anthropic client set-up are outside the core and are not modelled.
- UploadZone.UploadSettled: `signOut` is returned as a request. Its effect, navigation, is not modelled.
- The route keeps the document row when extraction or `storeChunks` fails, and the model does too. `PostUpload` proves that such a row then points at a removed blob. There is no threshold for unextractable content: any text, even empty, is chunked and stored.
