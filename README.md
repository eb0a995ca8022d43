# ragbot core, modelled in Dafny

ragbot is a Django chatbot that answers questions about uploaded documents. It
does retrieval-augmented generation: documents are turned into text, cut into
chunks and indexed remotely, and a remote language-model service answers
questions from the chunks it retrieves. This project models the logic of that
pipeline and proves properties of the model. The web shell and the third-party
engines it calls are not modelled.

The model has one module per source file, plus three shared modules:

- `Results` holds `Option` and `Result`.
- `Text` holds Python's string operations (`in`, `lower`, `split`, `find`, `rfind`, `strip`, `join`, `str(int)`).
- `Schema` holds metadata values, retrieved passages and history entries.

What each module models:

- `Prompts` covers `detect_query_type`, `enhance_query`, `format_context_for_llm` and `get_enhanced_prompt`, all from chatapp/colab_client.py. They are pure functions over strings.
- `ColabClient` covers the remote client as the class `Client`:
  - The HTTP transport is abstract. `server(k)` is the outcome of the client's k-th HTTP attempt: a status code with a body, a timeout, a connection error, or another exception.
  - `jitter(k)` is the random jitter drawn after attempt k. It lies in [0, 1].
  - Every sleep is recorded in the client's event log, `events`: a `Call` per `_make_api_request` (with its attempts, back-off delays and reply), a `Pause` per `time.sleep` outside the retry loop, and a `Probe` per bare health probe.
  - The retry loop is specified by the function `Retry`. The methods are proved against it.
- `FileProcessor` covers the extension dispatch of `extract_content_from_file`, the CSV and PDF assembly loops, `process_document_text`, and the in-place metadata enrichment of `enrich_chunk_metadata`. Chunks are objects of class `TextChunk`. The format parsers and the splitter are opaque: their outputs are inputs.
- `VectorStore` covers:
  - sentence grouping, chunk ids and metadata of `VectorStore.process_document`, over an in-memory record list;
  - the per-user filter of `query_chunks`;
  - the settings of `get_retriever`;
  - the collection naming of `create_vectorstore`.
- `SessionCleanup` covers the `cleanup_chat_sessions` command and the admin action `cleanup_duplicates`:
  - The session and message tables are maps from id to row.
  - Both entry points use one merge routine, proved against the removal map `Removals`. `Removals` sends every non-kept session of a duplicated (user, document) pair to that pair's newest session.
- `ChunkQuality` covers `evaluate_chunk_quality` of chatapp/debug.py.
- `QueryOptimizer` covers the gate and the reply post-processing of `decompose_complex_query`. The model's reply and `json.loads` are inputs.
- `Tasks` covers the two background tasks as methods on a `Models.Document` and a `ColabClient.Client`.
- `Views` covers the AJAX turn of `chat_view` and `reprocess_document`:
  - The chat tables are a `ChatStore` whose session ids are table indexes.
  - `replyFault` is the exception, if any, raised in the view's `try` block after `generate_response` returns. `generate_response` never raises, so such an exception can only come from storing the reply.
  - `fileRead` is what reading the stored file yields during the auto-reprocess.
- `Models` covers `Document` (with `get_file_extension` and `save`), `ChatSession.update_memory` and the message defaults.

The code does some things its comments do not say. The model follows the code:

- A `.doc` file is not rejected. It yields the notice text as the extracted content (chatapp/file_processor.py:28-29).
- The auto-reprocess trigger strings are "no document chunks", "failed to load vector store" and "empty", matched on the lower-cased error (chatapp/views.py:154-155).
- `generate_response` turns every exception into a message (chatapp/colab_client.py:254-270). So the recovery branch of `chat_view` can only be entered through an exception raised after it. The model names that exception `replyFault`.
- `query_chunks` returns `None` on failure, not an empty result (chatapp/vector_store.py:78-80).
- The "unreachable" final raise of `_make_api_request` (chatapp/colab_client.py:106-107) is reachable. Three replies whose status is neither 200 nor 4xx/5xx (a 201, say) are not raised by `raise_for_status`, so the loop runs out. `ColabClient.NonErrorStatusesExhaustLoop` proves it.
- Chunk positions use the comparisons `i < n/3` and `i < 2n/3`. In integers that is "beginning" for 3i < n, "middle" for n <= 3i < 2n, and "end" otherwise.
- A dry run of `cleanup_chat_sessions` only adds to its counters on a real run, so its summary always says it would have moved 0 messages and deleted 0 sessions (chatapp/management/commands/cleanup_chat_sessions.py:63-77).
- `check_document_completion` and `evaluate_chunk_quality` cannot work as written (see Findings).

## Model

| member | source | states |
|---|---|---|
| Prompts.DetectQueryTypePriority | chatapp/colab_client.py:281-295 | each category is chosen exactly when one of its terms occurs in the lower-cased query and no term of an earlier category (summarization, then comparison, then listing) does; otherwise "default" |
| Prompts.SummaryBeatsCompare | chatapp/colab_client.py:285-290 | a query that mentions both "summary" and "compare" is classified as summarization |
| Prompts.DetectIgnoresCase | chatapp/colab_client.py:283 | the classification does not depend on letter case |
| Prompts.EnhanceQuery | chatapp/colab_client.py:298-307 | a summarization query gets the fixed prefix followed by the query; another query of fewer than 4 words becomes exactly "information about " + query + " context details explanation"; longer queries are unchanged; the query always survives inside the result |
| Prompts.WithPositionMembers | chatapp/colab_client.py:317-319 | a position group holds exactly the retrieved passages labelled with that position |
| Prompts.EmptyContextIsSentinel | chatapp/colab_client.py:312-313 | an empty retrieval gives the fixed "No relevant information found in the document." for every query type |
| Prompts.SummaryGroupsInOrder | chatapp/colab_client.py:315-338 | when some passage is labelled middle, the middle banner occurs in the summarization context; every beginning passage's text occurs before it and every middle passage's text after it |
| Prompts.SummaryEndGroupLast | chatapp/colab_client.py:315-338 | when some passage is labelled end, the end banner occurs; every beginning and middle passage's text occurs before it and every end passage's text after it |
| Prompts.SummaryBannersPresent | chatapp/colab_client.py:315-338 | a group's banner occurs in the summarization context when some passage carries its label, and does not occur when none does (and no passage text contains the banner) |
| Prompts.SummaryDropsUnlabelled | chatapp/colab_client.py:315-338 | a passage labelled neither beginning, middle nor end leaves the summarization context unchanged |
| Prompts.NumberedBlocks | chatapp/colab_client.py:344-351 | block i is section number i+1 built from the i-th passage; there is one block per passage |
| Prompts.SectionsInInputOrder | chatapp/colab_client.py:342-353 | the non-summarization context is the concatenation of the numbered blocks in input order |
| Prompts.HistoryWindow | chatapp/colab_client.py:361 | the six newest entries, or all of them when there are fewer, in their original order |
| Prompts.GetEnhancedPrompt | chatapp/colab_client.py:356-402 | every template ends with "USER QUERY: " followed by the query |
| Prompts.OlderHistoryIgnoredInBlock | chatapp/colab_client.py:359-363 | history entries older than the newest six do not change the history block |
| Prompts.OlderHistoryIgnored | chatapp/colab_client.py:356-402 | history entries older than the newest six do not change the prompt |
| Prompts.HistoryLinesInOrder | chatapp/colab_client.py:361-363 | the history lines are the entries' own lines concatenated, oldest first, one per entry |
| Prompts.EmptyHistoryNoBlock | chatapp/colab_client.py:358-359 | with no history the history block is empty |
| ColabClient.Client.constructor | chatapp/colab_client.py:11-20 | trailing slashes are stripped from the URL; no attempt or event yet |
| ColabClient.Client.MakeApiRequest | chatapp/colab_client.py:47-107 | the reply, the number of HTTP attempts and the back-off delays are those of the retry specification `Retry`, and exactly one call event is logged |
| ColabClient.Client.TryOnce | chatapp/colab_client.py:63-104 | one attempt either ends the loop with the reply `Retry` gives for it, or continues with no delay or with the back-off delay, as `Retry` does |
| ColabClient.RetryBounded | chatapp/colab_client.py:63-100 | the loop makes between 1 and 3 attempts and sleeps fewer times than it attempts |
| ColabClient.RetryDelaysIncrease | chatapp/colab_client.py:84-97 | every back-off delay lies between 2(attempt+1) and 5 seconds, and the delays strictly increase |
| ColabClient.TwoTimeoutsThenSuccess | chatapp/colab_client.py:63-87 | two timeouts and then a 200 return the body after 3 attempts, having slept 2+j and then 4+j' |
| ColabClient.ThreeTimeoutsRaise | chatapp/colab_client.py:82-90 | three timeouts raise the third timeout after 3 attempts and 2 sleeps |
| ColabClient.FirstDecisiveOutcome | chatapp/colab_client.py:75-104 | a 200, a 4xx/5xx status or a non-network exception ends the loop after the first attempt, with no sleep: the body is returned or the error propagates |
| ColabClient.NonErrorStatusesExhaustLoop | chatapp/colab_client.py:75-107 | three replies with status 201 reach the final "Failed to get successful response" raise, with no sleep between them |
| ColabClient.Client.CheckHealthSimple | chatapp/colab_client.py:272-278 | healthy exactly when the bare probe answered 200; one probe is logged |
| ColabClient.HealthVerdict | chatapp/colab_client.py:38-45 | healthy exactly when the reply succeeded with status "ok"; a failure reports its error text; an ok reply naming a model reports that name, and a missing model reports "unknown" |
| ColabClient.Client.CheckHealth | chatapp/colab_client.py:23-45 | one healthcheck request is logged, and its reply decides the verdict |
| ColabClient.Windows | chatapp/colab_client.py:179-180 | there are ceil(n/20000) windows |
| ColabClient.WindowRequests | chatapp/colab_client.py:179-188 | one partial process request per window |
| ColabClient.WindowsPartitionContent | chatapp/colab_client.py:179-180 | the windows concatenate back to the content; each but the last holds exactly 20,000 characters and none is empty |
| ColabClient.FortyFiveThousand | chatapp/colab_client.py:179-188 | 45,000 characters are sent as windows of 20,000, 20,000 and 5,000 characters, numbered 0, 1 and 2 |
| ColabClient.StatusChunks | chatapp/colab_client.py:163-168 | a "ready" status gives its chunk count (0 when missing); any other status gives max(1, len // 1000), which is at least 1 |
| ColabClient.Client.ProcessDocument | chatapp/colab_client.py:109-225 | the log is extended by exactly the run of a small document (one process call, or that call, a 10-second pause and one status poll) or of a large one (windows, pauses and the finalize call); every failure is re-raised wrapped as "Failed to process document: ..." |
| ColabClient.Client.ProcessWhole | chatapp/colab_client.py:128-172 | a document of at most 20,000 characters sends one process request; after "processing_started" it pauses 10 seconds and polls the status once; the result is the reply's chunk count, or `StatusChunks` of the status reply |
| ColabClient.Client.ProcessInWindows | chatapp/colab_client.py:174-218 | a large document sends its windows, then the finalize call once all windows succeeded; the result is the sum of the window chunk counts |
| ColabClient.Client.SendWindows | chatapp/colab_client.py:179-205 | windows are sent in order, with a 2-second pause after each successful window but the last; the first failure stops the loop; otherwise the total is the sum of the chunk counts |
| ColabClient.Client.SendWindow | chatapp/colab_client.py:179-195 | the window starting at character 20000w is sent as window request w |
| ColabClient.LargeRunSubmitsEveryWindow | chatapp/colab_client.py:174-221 | a successful large run is exactly: window 0, pause, window 1, ..., last window, finalize; every window call succeeded, and the result is the sum of their chunk counts |
| ColabClient.GenerateRequest | chatapp/colab_client.py:234-241 | the history is sent exactly when it is non-empty, and then unchanged |
| ColabClient.Client.GenerateResponse | chatapp/colab_client.py:227-270 | never fails: an unhealthy probe returns the "unavailable" text without a generate call; otherwise one generate request is made and its reply (or the message for its error) is returned |
| ColabClient.ErrorMessageCases | chatapp/colab_client.py:254-270 | a 404 about an unprocessed document or missing vectorstore gives the reprocess hint; another 404 gives the restart hint; "Connection" gives the connect hint; another request error is quoted; a non-request error gets the generic "Sorry, an error occurred: " |
| ColabClient.ExhaustedIsQuoted | chatapp/colab_client.py:107 | the loop's own final error is not a request exception, so it is quoted rather than mapped to a hint |
| ColabClient.MissingResponseApologises | chatapp/colab_client.py:251 | a reply without a `response` field gives the default apology |
| FileProcessor.PositionThirds | chatapp/file_processor.py:122 | "beginning" exactly when 3i < n, "middle" exactly when n <= 3i < 2n, "end" exactly when 2n <= 3i |
| FileProcessor.PositionMonotone | chatapp/file_processor.py:122 | along the chunk sequence the position labels never go back |
| FileProcessor.HeaderAndPreview | chatapp/file_processor.py:118-129 | the header is a line-free prefix of the content of at most 50 characters; the preview has at most 100 characters, no line break, and agrees with the content except that each line break became a space; the header stops at 50 characters, at the end of the content or at the first line break |
| FileProcessor.EnrichedKeys | chatapp/file_processor.py:125-130 | the update sets chunk_id, position, potential_header and content_preview, and keeps every other key (document_id, user_id, source) as it was |
| FileProcessor.EnrichChunkMetadata | chatapp/file_processor.py:112-133 | the same chunks are returned in the same order; each keeps its text, and chunk i's metadata becomes its old metadata enriched for index i of n |
| FileProcessor.EnrichOne | chatapp/file_processor.py:116-131 | chunk i's metadata becomes its old metadata enriched for index i of n; its text is unchanged |
| FileProcessor.SplitterMetadata | chatapp/file_processor.py:102-105 | the splitter attaches document_id and user_id as strings and source "document" |
| FileProcessor.ProcessDocumentText | chatapp/file_processor.py:92-110 | one new chunk per splitter piece, in order, each with the splitter metadata enriched for its index |
| FileProcessor.SplitExt | chatapp/file_processor.py:16 | the extension is non-empty exactly when the last dot lies after the last slash with a non-dot character between them, and then it is the path from that last dot on; it is a suffix starting with a dot and holding no slash |
| FileProcessor.SplitExtOfPath | chatapp/file_processor.py:16 | a stored name dir + base + "." + e, with no slash in base or e, no dot in e and a non-dot character in base, has the extension "." + e |
| FileProcessor.ExtractorFor | chatapp/file_processor.py:24-38 | every extension other than .pdf, .docx, .doc, .xlsx, .xls and .csv takes the plain-text path |
| FileProcessor.ExtractContentFromFile | chatapp/file_processor.py:13-41 | a .doc file gives the conversion notice; otherwise the chosen extractor's text is returned, and its failure becomes "Could not extract content from <name>: <error>" |
| FileProcessor.UpperCaseExtension | chatapp/file_processor.py:16 | the extension is lower-cased before dispatch: "Report.PDF" goes to the PDF reader |
| FileProcessor.DocNeverFails | chatapp/file_processor.py:28-29 | a .doc file never fails, in any directory, whatever the extractors would do |
| FileProcessor.LastDotOnly | chatapp/file_processor.py:16 | only the last extension counts ("documents/archive.tar.gz" is read as text), and a leading dot is no extension (".csv" is read as text) |
| FileProcessor.RowLines | chatapp/file_processor.py:74-75 | one line per row, its fields joined by ", " |
| FileProcessor.ExtractFromCsv | chatapp/file_processor.py:60-80 | parsed rows give their lines joined by line breaks; a parse failure gives the raw decoded text |
| FileProcessor.CsvLinesRoundTrip | chatapp/file_processor.py:70-76 | when no field holds a line break, the CSV text splits back into exactly the row lines |
| FileProcessor.ExtractFromPdf | chatapp/file_processor.py:43-49 | the text is the pages' text, each followed by a line break, stripped |
| FileProcessor.PagesTextIsJoin | chatapp/file_processor.py:46-48 | before stripping, the PDF text is the pages joined by line breaks plus a final line break |
| VectorStore.GroupSentences | chatapp/vector_store.py:36-37 | chunk i is run i of the sentences joined by single spaces |
| VectorStore.RunsPartition | chatapp/vector_store.py:36-37 | the runs concatenate back to the sentences; every run but the last holds chunk_size sentences, and the last holds 1 to chunk_size |
| VectorStore.RunsCount | chatapp/vector_store.py:36-37 | the number of chunks is ceil(len(sentences) / chunk_size) |
| VectorStore.ChunkIdsDistinct | chatapp/vector_store.py:48 | equal chunk ids of one document have equal indexes |
| VectorStore.ChunkRecords | chatapp/vector_store.py:40-55 | one record per chunk |
| VectorStore.ChunkRecordsShape | chatapp/vector_store.py:40-48 | record i carries chunk i, chunk_index i, total_chunks equal to the chunk count, and the document's and user's ids; no two records share an id |
| VectorStore.Store.ProcessDocument | chatapp/vector_store.py:29-61 | a zero chunk size or a failing add is re-raised and leaves the store unchanged; a negative size with an add that does not fail adds nothing and returns 0; otherwise the chunk records whose ids are not yet stored are appended, in order, the number of chunks is returned, and stored ids stay unique |
| VectorStore.AddKeepsIdsUnique | chatapp/vector_store.py:48-55 | adding a document's chunk records to a store of unique ids keeps the ids unique |
| VectorStore.UnstoredMembers | chatapp/vector_store.py:48-55 | a chunk record is added exactly when it is among the document's records and its id is not yet stored |
| VectorStore.FirstProcessingStoresAll | chatapp/vector_store.py:48-55 | when none of the chunk ids is stored yet, every chunk record is added |
| VectorStore.ReprocessingAddsNothing | chatapp/vector_store.py:48-55 | processing the same document again adds no record, since its ids `<document_id>_chunk_<i>` are all stored |
| VectorStore.MatchingExact | chatapp/vector_store.py:66-70 | the user filter keeps exactly the stored records whose user_id is the caller's |
| VectorStore.Store.QueryChunks | chatapp/vector_store.py:63-80 | the result is None exactly when the count is not positive or the query raised; otherwise min(n_results, the caller's stored records) hits, each the text and metadata of a stored record of the caller's user |
| VectorStore.Store.QueryReturnsAllWhenFew | chatapp/vector_store.py:63-76 | a user with at most n_results stored chunks gets every one of them back |
| VectorStore.GetRetriever | chatapp/vector_store.py:82-106 | the search type is MMR for every query type |
| VectorStore.RetrieverSettings | chatapp/vector_store.py:85-104 | fetch_k exceeds k in both settings; a summary retrieves more chunks from more candidates with more weight on diversity (lambda 0.6 against 0.7) |
| VectorStore.CreateVectorstore | chatapp/vector_store.py:108-127 | the collection is named for the user and document and records the number of chunks |
| VectorStore.CollectionNameInjective | chatapp/vector_store.py:117 | distinct (user, document) pairs get distinct collection names |
| SessionCleanup.LatestExists | chatapp/management/commands/cleanup_chat_sessions.py:41-46 | every duplicate group has a session with the latest created_at |
| SessionCleanup.Tables.Newest | chatapp/management/commands/cleanup_chat_sessions.py:41-46 | the kept session belongs to the group and no session of the group was created later |
| SessionCleanup.Tables.AbsorbSession | chatapp/management/commands/cleanup_chat_sessions.py:56-71 | a real run moves the session's messages to the kept session, deletes the session, and counts its messages and 1 deletion; a dry run changes nothing and counts 0 |
| SessionCleanup.Tables.MergeGroup | chatapp/management/commands/cleanup_chat_sessions.py:37-71 | the kept session is the group's newest; a real run deletes the other sessions of the group and moves their messages to it, counting both; a dry run changes nothing |
| SessionCleanup.Tables.MergeDuplicates | chatapp/management/commands/cleanup_chat_sessions.py:25-71 | every pair with more than one session is merged into its newest session: the tables become `Surviving` and `Redirected` under `Removals`, and the counters are the moved messages and the deleted sessions; a dry run changes nothing and counts 0 |
| SessionCleanup.Tables.Handle | chatapp/management/commands/cleanup_chat_sessions.py:19-77 | a real run merges every duplicated pair into its newest session and reports the moved-message and deleted-session counts; a dry run changes nothing and its summary reports 0 and 0, since the counters only grow on a real run |
| SessionCleanup.Tables.CleanupDuplicates | chatapp/admin.py:9-42 | the admin action acts on every session, not the selection; it merges as the command does and reports both counters |
| SessionCleanup.OneSessionPerPair | chatapp/management/commands/cleanup_chat_sessions.py:56-71 | after the merge each (user, document) pair has at most one session, and a duplicated pair has exactly its kept session |
| SessionCleanup.SingletonsUntouched | chatapp/management/commands/cleanup_chat_sessions.py:27-29 | a session whose pair has no duplicate survives unchanged, and so do its messages |
| SessionCleanup.MessagesConserved | chatapp/management/commands/cleanup_chat_sessions.py:58-64 | no message is lost or created; a moved message keeps its author, text and timestamp and now belongs to the absorbing session |
| SessionCleanup.NoDanglingMessages | chatapp/management/commands/cleanup_chat_sessions.py:56-71 | every message points at a surviving session afterwards, if it pointed at an existing one before |
| SessionCleanup.DeletedCount | chatapp/management/commands/cleanup_chat_sessions.py:67-71 | deleted plus surviving sessions make up the original session count |
| SessionCleanup.AdminMessageCounts | chatapp/admin.py:39-42 | the admin message states the deleted-session count and the moved-message count, and the first can be read back |
| ChunkQuality.ImportFromVectorStore | chatapp/debug.py:3 | the import succeeds exactly when chatapp/vector_store.py defines the name |
| ChunkQuality.AsWrittenAlwaysFails | chatapp/debug.py:1-5 | as written, every call raises the ImportError for get_vectorstore |
| ChunkQuality.EvaluateChunkQuality | chatapp/debug.py:8-48 | the loop computes the report the fold `QualityReport` defines |
| ChunkQuality.QualityReportCases | chatapp/debug.py:8-48 | no store gives "Vector store not found" with zero stats, and an empty store gives "No chunks found"; otherwise total_chunks is the chunk count, the average times that count is the total length, and the samples are the first min(3, n) chunks |
| ChunkQuality.EmptyAndShortBounded | chatapp/debug.py:30-42 | empty and short chunks are disjoint: together no more than the chunk count |
| ChunkQuality.LongChunksNotCounted | chatapp/debug.py:34-37 | chunks of 100 characters or more are neither empty nor short |
| QueryOptimizer.Candidate | chatapp/query_optimizer.py:42-47 | the candidate is no longer than the reply |
| QueryOptimizer.DecomposeCharacterized | chatapp/query_optimizer.py:8-54 | sub-queries are returned exactly when the query has at least 10 words, the model answered, the reply neither says SIMPLE nor lacks a '[', and the bracketed candidate decodes to a non-empty list; that list is returned |
| QueryOptimizer.ShortQueriesSkipTheModel | chatapp/query_optimizer.py:8-9 | a query of fewer than 10 words gives None, whatever the model would answer |
| QueryOptimizer.CandidateBrackets | chatapp/query_optimizer.py:42-47 | the candidate runs from the first '[' to the last ']' when that ']' comes later; otherwise it is empty |
| QueryOptimizer.NoClosingBracketNoResult | chatapp/query_optimizer.py:42-50 | a reply whose last ']' does not follow its first '[' gives None |
| Tasks.BackgroundPlan | chatapp/tasks.py:29-59 | the background job fails with "API unavailable" exactly when the API is down; a healthy job stops for empty content only when there is no content and no file, or the file yields no text; a read failure only when there is no content, a file, and the extraction failed with that error; otherwise it submits: existing content as is, or the extracted text whole with at most its first 1,000,000 characters stored; a submitted text is non-empty |
| Tasks.SettleOutcomes | chatapp/tasks.py:74-88 | the document ends "Complete" exactly when it was submitted and the API succeeded, and then holds the chunk count and the clock; a failed submission leaves it unprocessed with the error; a task that stops early keeps is_processed, chunks and last_processed |
| Tasks.FailureStatusBounded | chatapp/tasks.py:85 | an API failure status starts with "Failed - API error: " and has at most 120 characters |
| Tasks.ProcessDocumentBackground | chatapp/tasks.py:10-91 | a missing document calls nothing; otherwise the probe comes first, the route is `BackgroundPlan`, only a submitted text runs process_document, the status fields end as `Settle` says, and the first save marks the document as processing in the background |
| Tasks.RunTask | chatapp/tasks.py:19-88 | for an existing document: the probe comes first, the route is `BackgroundPlan`, only a submitted text runs process_document, and the status fields end as `Settle` says |
| Tasks.Begin | chatapp/tasks.py:21-30 | the "Processing in background..." status is saved, then the API is probed |
| Tasks.AfterProbe | chatapp/tasks.py:29-88 | the route taken is `BackgroundPlan`, and the document ends `Settled` on it |
| Tasks.Fail | chatapp/tasks.py:32-34 | the error and the failure status are recorded and saved |
| Tasks.Unavailable | chatapp/tasks.py:31-36 | an unhealthy API records "API service is unavailable" and "Failed - API unavailable", and nothing is called |
| Tasks.ReadFile | chatapp/tasks.py:39-52 | for a document with a file and no content, the route is `BackgroundPlan` on the extraction of that file, and the document ends `Settled` on it |
| Tasks.FromFile | chatapp/tasks.py:39-88 | the route is `BackgroundPlan` on the extraction result: a read failure or an empty text stops with no call; otherwise the first 1,000,000 characters are stored and the whole text is submitted; the document ends `Settled` on that route |
| Tasks.FromContent | chatapp/tasks.py:54-88 | the route is `BackgroundPlan` on the stored content: empty content stops with no call, otherwise the content is submitted as is; the document ends `Settled` on that route |
| Tasks.SubmitAndSettle | chatapp/tasks.py:61-88 | "Processing with API..." is saved, process_document runs once on the whole text, and the outcome is recorded and saved |
| Tasks.Record | chatapp/tasks.py:74-88 | success sets is_processed, the chunk count, "Complete" and the clock; failure sets the error, "Failed - API error: " with the first 100 characters, and is_processed false |
| Tasks.CompletionAsWrittenIsInert | chatapp/tasks.py:113-135 | as written, the completion check never changes the document |
| Tasks.ReadyDocumentLeftIncomplete | chatapp/tasks.py:121-131 | a chunk-less document whose remote status is "ready" with 7 chunks stays at 0 chunks as written, while the intended check records 7 and marks it processed |
| Tasks.CompletionStepChanges | chatapp/tasks.py:113-131 | the intended check changes the document exactly when it has no chunks, its status is not exactly "Failed" and the remote status is "complete" or "ready"; it then records the chunk count, is_processed and "Complete" |
| Tasks.CheckDocumentCompletion | chatapp/tasks.py:102-135 | the document becomes `CompletionStep` of the remote status; the status is requested once, and only for a chunk-less document not marked "Failed" |
| Views.ChatStore.CreateSession | chatapp/views.py:96 | a new session row is appended, and its id is returned |
| Views.ChatStore.AddMessage | chatapp/views.py:99-103 | the message is appended; the sessions are unchanged |
| Views.Opened | chatapp/views.py:66-77 | afterwards the user has a session on the document; the table only grows, by at most one row |
| Views.OpenedTwice | chatapp/views.py:66-77 | opening is idempotent: a second request finds the session the first created |
| Views.SessionMessages | chatapp/views.py:106 | exactly the messages of that session, and no others |
| Views.RecentHistory | chatapp/views.py:105-112 | at most 6 entries |
| Views.HistorySlides | chatapp/views.py:105-112 | a new message of the session enters the history at the end and pushes out the oldest entry once there are six; a message of another session leaves the history unchanged |
| Views.HistoryEndsWithQuestion | chatapp/views.py:99-112 | the question just stored is the last history entry, with role "user"; before it come at most five earlier entries of the session |
| Views.EmptyAnywhereTriggers | chatapp/views.py:154-155 | "empty" anywhere in the error, in any letter case, triggers the auto-reprocess |
| Views.TurnOutcomes | chatapp/views.py:114-237 | the turn succeeds exactly when nothing failed or the recovery answered; only a recovered turn is flagged reprocessed and carries the note; a failed turn's row ends with the error it reports |
| Views.RecoveryText | chatapp/views.py:160-164 | the recovery uses the stored content unless the document has no content but a file |
| Views.OpenView | chatapp/views.py:63-83 | the user's session on the document is opened (created when missing), and one health check is made |
| Views.ChatTurn | chatapp/views.py:61-237 | another user's document is a 404 that changes nothing; otherwise the session is opened, health is checked, and the turn is `Conversed` on the stripped message |
| Views.Converse | chatapp/views.py:86-237 | an empty message is refused and an unknown session is a 404, and neither stores nor calls anything; otherwise exactly the question and one assistant row are stored in the named or new session, after one question with the session's recent history |
| Views.AnswerTurn | chatapp/views.py:99-237 | the question is stored, asked with the history including itself, and answered by exactly one assistant row; a recovery cycle runs only for a trigger fault |
| Views.Ask | chatapp/views.py:99-121 | the user message is stored, and `generate_response` runs once with the session's recent history including that message |
| Views.Conclude | chatapp/views.py:123-237 | exactly one assistant row is stored after the question; the reply's status, note and reprocessed flag follow the fault and the recovery |
| Views.HandleFault | chatapp/views.py:150-222 | the row is the answer, the recovered answer with its note, the reprocess apology, or the generic error, as `AssistantRow` says; only a trigger fault runs a recovery cycle and may touch the document |
| Views.Recover | chatapp/views.py:156-215 | a read failure calls nothing; otherwise the document is processed once; only a success refreshes and saves the document and asks once more, without history |
| Views.Process | chatapp/views.py:167-171 | one `process_document` run on the text |
| Views.Refresh | chatapp/views.py:173-178 | is_processed, chunks and last_processed are set, the error is cleared, and the document is saved |
| Views.ReprocessSource | chatapp/views.py:385-396 | a document without a file is reprocessed from its content |
| Views.ReprocessOutcomes | chatapp/views.py:408-438 | after the reset, the document is processed exactly when the API succeeded, with its chunk count; a failure leaves it unprocessed with no chunks and records "Failed: " and the error; only a success with chunks flashes success |
| Views.ReprocessDocument | chatapp/views.py:379-444 | another user's document is a 404; an unreadable file, empty content or an unhealthy API redirect with a flash and leave the status fields alone; otherwise the reset is saved, process_document runs once, and the outcome is recorded |
| Views.LoadContent | chatapp/views.py:385-396 | a document with a file is re-extracted, and the text is stored as its content; a failed read changes nothing |
| Views.Resubmit | chatapp/views.py:402-439 | health is checked first; an unhealthy API warns and changes nothing; otherwise the reset, one process_document and the outcome follow |
| Views.ResetForReprocess | chatapp/views.py:408-413 | is_processed false, chunks 0, the error cleared and "Starting reprocessing...", saved |
| Views.RecordReprocess | chatapp/views.py:423-438 | success sets is_processed, the chunk count, "Complete" and the clock; failure sets the error and "Failed: " followed by it; then the document is saved |
| Models.Document.constructor | chatapp/models.py:5-18 | a new document is not processed, has no chunks and no status |
| Models.Document.GetFileExtension | chatapp/models.py:23-26 | None exactly when there is no file; otherwise the lower-cased text after the last dot |
| Models.ExtensionAfterLastDot | chatapp/models.py:25 | the extension is the lower-cased text after the last dot, and the whole lower-cased name when there is no dot |
| Models.Document.Save | chatapp/models.py:28-32 | with a file, file_type becomes its extension; without one it is kept; nothing else changes, and the saved status is recorded |
| Models.MergedMemory | chatapp/models.py:43-49 | the merged memory has the old keys and the new ones; new values win, and other keys are kept |
| Models.MergeIntoNothing | chatapp/models.py:44-45 | merging into a missing or empty memory gives exactly the key points |
| Models.ChatSession.constructor | chatapp/models.py:34-40 | a new session has no memory |
| Models.ChatSession.UpdateMemory | chatapp/models.py:43-49 | the memory becomes the merge of the old memory and the key points |
| Models.NewMessage | chatapp/models.py:56 | a message created without naming its author is a user message |
| Models.AppendKeepsChronological | chatapp/models.py:60-61 | a message stamped no earlier than the newest keeps the messages in timestamp order |

## Left out

- HTTP transport, `time.sleep` and `random.uniform`. The server's answers are the function `server`, the sleeps are recorded `Pause` events and back-off delays, and the jitter is any value in [0, 1].
- The API URL is taken from the environment or the settings (chatapp/tasks.py:26, chatapp/views.py:22). It is a constructor argument.
- `api_status` is not modelled. It changes the global client URL and the environment.
- Logging and `print` are not modelled. They produce no results.
- ChromaDB, LangChain's `Chroma`, embeddings and the MMR search are not modelled. They are foreign libraries computing in floating point.
- VectorStore.Store.QueryChunks: the similarity ranking and the distances are not modelled. Store order stands in for relevance order, and what is proved is that every hit is a stored record of the caller and that the number of hits is the smaller of n_results and the caller's record count. Any other fault of the query is the parameter `queryError`.
- VectorStore.Store.ProcessDocument: an id that is already stored is skipped, as current Chroma versions do with a warning. Older Chroma versions raise instead, which the model does not capture. Recent Chroma versions also reject an `add` with an empty id list. With such a client, a negative `chunk_size` or content without sentences fails through `addError` rather than returning 0; the model's `Ok(0)` holds only for a client that accepts the empty add.
- VectorStore.CreateVectorstore: the Chroma call, the persist directory and the `created_at` timestamp are left out. Only the name and the chunk count are modelled.
- The `VectorStore` constructor is not modelled. It only opens the database.
- The recursive character splitter, `sent_tokenize`, `PdfReader`, `docx2txt`, pandas, chardet, the CSV reader and `json.loads` are foreign parsers. Their outputs are inputs (`splitter`, `sentences`, `Readers`, `parsed`, `pages`, `decode`).
- `extract_from_docx`, `extract_from_excel` and `extract_from_text` each call one foreign function. Their results, or their error texts, are the fields of `FileProcessor.Readers`.
- The `ChatOllama` construction and the prompt chain in chatapp/query_optimizer.py are a remote model call. The reply text is an input. An exception in the construction, which is outside the `try`, is not modelled.
- ChunkQuality.EvaluateChunkQuality: the float average is the exact rational total length / count. The vector store's contents are an input, since the function the source imports does not exist.
- FileProcessor.PositionThirds: the thirds are compared on exact rationals. Python compares floats, which decide the same way for any realistic chunk count.
- The Django ORM is reduced to the fields themselves. Rows are maps or sequences, and ids are table keys or indexes.
- `save()` is modelled as recording the saved status (`Models.Document.saved`).
- Session ids in `Views.ChatStore` are table indexes, and message order in the table is timestamp order. Ties between equal timestamps are not modelled.
- Timestamps are the integer `clock`. The Asia/Kolkata conversion and the `strftime` display are left out, because they only format the JSON answer.
- Views.ChatTurn: only the exception raised after `generate_response` returns (`replyFault`) is modelled. A failure of the question's own insert, of the apology insert, or of the document save inside the recovery is a database fault outside the model.
- Views.ChatTurn: the GET rendering and the non-AJAX POST branch of `chat_view` are not modelled. They are page rendering.
- Views.Recover: reading the stored file as UTF-8 is the parameter `fileRead`.
- Views.ReprocessDocument: the outer "Unexpected error" handler (chatapp/views.py:441-442) is not modelled. It would catch only database faults.
- Tasks.ProcessDocumentBackground: the outer "Unexpected error" handler (chatapp/tasks.py:93-100) is not modelled. It would catch only database faults. The `background` scheduling delay is not modelled either.
- Concurrency between background tasks and requests is not modelled. The model is sequential.
- SessionCleanup.Tables.MergeGroup: the kept session and the sessions to delete come from one ordering. The source runs `sessions.first()` and `sessions[1:]` as two queries (chatapp/management/commands/cleanup_chat_sessions.py:46-56, chatapp/admin.py:27-30). When two sessions share `created_at`, the two queries may order them differently and delete the kept session, with its messages. The model assumes one consistent order.
- Tasks.FailureStatusBounded: the proved bound is 120 characters, but `processing_status` is a `CharField(max_length=100)` (chatapp/models.py:18). A longer status is rejected or truncated depending on the database, which the model does not capture.
- `register_view`, `login_view`, `logout_view`, `document_list`, `upload_document`, `delete_document` and `debug_document` are not modelled. They are authentication and page views.
- chatapp/forms.py, ragchatbot/urls.py and chatapp/embeddings.py are not part of this model. They hold forms, routing and a thin embedding wrapper.
- `__str__` methods and field declarations beyond the defaults listed above are not modelled.
- Text.Lower folds ASCII letters only. Python's `str.lower` folds every script, and a few non-ASCII characters even become ASCII letters. The members that use it differ from the source there:
- Models.Document.GetFileExtension, Models.ExtensionAfterLastDot and Models.Document.Save store a non-ASCII extension unfolded: for "отчёт.ДОК" the source stores "док" as `file_type` (chatapp/models.py:25), the model "ДОК".
- Prompts.DetectQueryType, FileProcessor.ExtractContentFromFile and Views.TriggersReprocess miss keywords spelled with characters that Python lowers to ASCII. U+212A KELVIN SIGN lowers to "k", so "\u212Aey points" is a summarization query in the source (chatapp/colab_client.py:283-290) and a general one in the model.
- ColabClient.Client.CheckHealth: the model name is reduced to a string field of the reply.

## Findings

| source | as written | input that shows it | evidently intended | confidence | as-written member | corrected member |
|---|---|---|---|---|---|---|
| chatapp/debug.py:3 | `evaluate_chunk_quality` imports `get_vectorstore`, which chatapp/vector_store.py does not define, so every call raises ImportError | any call, e.g. document 1, user 1 | the statistics of the document's stored chunks | not executed | ChunkQuality.AsWrittenAlwaysFails | ChunkQuality.EvaluateChunkQuality |
| chatapp/tasks.py:121 | `check_document_completion` calls `colab_client.check_document_status`, which `ColabClient` does not define; the AttributeError is swallowed, so the check never changes a document | a document with 0 chunks and status "Processing in background..." whose remote status is "ready" with 7 chunks stays at 0 chunks, unprocessed | query the `document_status` endpoint and mark the document complete with the reported chunk count | not executed | Tasks.ReadyDocumentLeftIncomplete | Tasks.CheckDocumentCompletion |
