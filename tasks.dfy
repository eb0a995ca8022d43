/** The background tasks of chatapp/tasks.py: processing a document through
    the remote API, and the final completion check. The document is a
    `Models.Document`; the client is a `ColabClient.Client` whose transport is
    abstract; `readers` holds what the file extractors produce on the stored
    file; `clock` is the time `now()` returns. */
module Tasks {
  import opened Results
  import opened Text
  import opened Models
  import opened ColabClient
  import FileProcessor

  const InBackground := "Processing in background..."
  const WithApi := "Processing with API..."
  const Complete := "Complete"
  const ApiUnavailableError := "API service is unavailable"
  const EmptyContentError := "No content found in document"

  /** Where the background task goes once the health probe and the file read are known. */
  datatype Plan =
    | ApiDown
    | ReadFailed(error: string)
    | NothingToProcess(stored: string)
    /** `stored` is what is written back to the document, `text` what is sent. */
    | Submit(stored: string, text: string)

  /** The background task's route: an unhealthy API stops it; a document without content
      but with a file is read, keeping at most 1,000,000 characters of the
      text in the record while the whole text is processed; empty content
      stops it. */
  function BackgroundPlan(content: string, file: string, healthy: bool, extraction: Result<string, string>): (p: Plan)
    ensures p == ApiDown <==> !healthy
    ensures p.Submit? ==> p.text != "" && p.stored <= p.text && |p.stored| <= if content != "" then |content| else 1000000
    ensures p.Submit? && content != "" ==> p.stored == content && p.text == content
    ensures p.Submit? && content == "" ==> file != "" && extraction == Ok(p.text) && p.stored == Take(p.text, 1000000)
    ensures p.ReadFailed? ==> content == "" && file != "" && extraction == Err(p.error)
    ensures p.NothingToProcess? ==> healthy && content == "" && (file == "" || extraction == Ok("")) && p.stored == ""
  {
    if !healthy then ApiDown
    else if content == "" && file != "" then
      match extraction
      case Err(e) => ReadFailed(e)
      case Ok(t) => if t == "" then NothingToProcess(Take(t, 1000000)) else Submit(Take(t, 1000000), t)
    else if content == "" then NothingToProcess(content)
    else Submit(content, content)
  }

  /** The status fields once the background task has finished. */
  function Settle(s: DocStatus, plan: Plan, result: Result<int, ApiError>, clock: int): DocStatus
  {
    match plan
    case ApiDown =>
      s.(processingError := Some(ApiUnavailableError), processingStatus := Some("Failed - API unavailable"))
    case ReadFailed(e) =>
      s.(processingError := Some("Could not read file: " + e), processingStatus := Some("Failed - File read error"))
    case NothingToProcess(c) =>
      s.(content := c, processingError := Some(EmptyContentError), processingStatus := Some("Failed - Empty content"))
    case Submit(c, _) =>
      match result
      case Ok(n) =>
        s.(content := c, isProcessed := true, chunks := n, processingStatus := Some(Complete), lastProcessed := Some(clock))
      case Err(e) =>
        s.(content := c, isProcessed := false, processingError := Some(e.Text()),
           processingStatus := Some("Failed - API error: " + Take(e.Text(), 100)))
  }

  /** The document ends "Complete" exactly when it was submitted and the API
      succeeded, and then it is processed with the returned chunk count. A
      failed submission leaves it unprocessed. A task that stops before the
      API call leaves `is_processed`, `chunks` and `last_processed` as they were. */
  lemma SettleOutcomes(s: DocStatus, plan: Plan, result: Result<int, ApiError>, clock: int)
    ensures var t := Settle(s, plan, result, clock);
      && (t.processingStatus == Some(Complete) <==> plan.Submit? && result.Ok?)
      && (plan.Submit? && result.Ok? ==> t.isProcessed && t.chunks == result.value && t.lastProcessed == Some(clock))
      && (plan.Submit? && result.Err? ==> !t.isProcessed && t.processingError == Some(result.error.Text()))
      && (!plan.Submit? ==> t.isProcessed == s.isProcessed && t.chunks == s.chunks && t.lastProcessed == s.lastProcessed)
  {
  }

  /** Every failure status the background task writes names its cause and is at most
      120 characters long. */
  lemma FailureStatusBounded(s: DocStatus, plan: Plan, e: ApiError, clock: int)
    requires plan.Submit?
    ensures var st := Settle(s, plan, Err(e), clock).processingStatus.value;
      |st| <= 120 && st[..20] == "Failed - API error: "
  {
  }

  /** `process_document`'s run for the given document, by size. */
  ghost predicate DocumentRun(documentId: string, content: string, userId: string, evs: seq<Event>, r: Result<int, ApiError>)
  {
    if |content| <= 20000 then SmallDocumentRun(documentId, content, userId, evs, r)
    else LargeDocumentRun(documentId, content, userId, evs, r)
  }

  /** Every route overwrites the processing status. */
  lemma SettleOverwritesStatus(s: DocStatus, x: Option<string>, plan: Plan, result: Result<int, ApiError>, clock: int)
    ensures Settle(s.(processingStatus := x), plan, result, clock) == Settle(s, plan, result, clock)
  {
  }

  /** The saves of a task run, from `saved0` to `saved1`: the first marks the
      document as in the background, the last holds the final status. */
  ghost predicate SavedInBackground(saved0: seq<Option<string>>, saved1: seq<Option<string>>, status: Option<string>)
  {
    && |saved1| > |saved0| + 1 && saved1[|saved0|] == Some(InBackground)
    && saved1[|saved1| - 1] == status
  }

  /** `process_document_background`. A missing document is a no-op. */
  method ProcessDocumentBackground(doc: Document?, client: Client, readers: FileProcessor.Readers, clock: int)
    returns (ghost plan: Plan, ghost result: Result<int, ApiError>)
    modifies doc, client
    ensures doc == null ==> client.events == old(client.events) && client.attempts == old(client.attempts)
    ensures doc != null ==>
      && |client.events| > |old(client.events)| && client.events[..|old(client.events)|] == old(client.events)
      && client.events[|old(client.events)|].Probe?
    ensures doc != null ==>
      plan == BackgroundPlan(old(doc.content), old(doc.file), client.events[|old(client.events)|].healthy,
                             FileProcessor.ExtractContentFromFile(Some(old(doc.file)), readers))
    ensures doc != null && !plan.Submit? ==> |client.events| == |old(client.events)| + 1
    ensures doc != null && plan.Submit? ==>
      DocumentRun(NatToString(doc.id), plan.text, NatToString(doc.uploadedBy), client.events[|old(client.events)| + 1..], result)
    ensures doc != null ==> doc.Status() == Settle(old(doc.Status()), plan, result, clock) && doc.file == old(doc.file)
    ensures doc != null ==>
      SavedInBackground(old(doc.saved), doc.saved, doc.processingStatus)
  {
    if doc == null {
      return ApiDown, Err(Timeout(""));
    }
    ghost var extraction := FileProcessor.ExtractContentFromFile(Some(doc.file), readers);
    plan, result := RunTask(doc, client, readers, extraction, clock);
  }

  /** The background task on an existing document: the first save, the probe, and the rest. */
  method RunTask(doc: Document, client: Client, readers: FileProcessor.Readers,
                 ghost extraction: Result<string, string>, clock: int)
    returns (ghost plan: Plan, ghost result: Result<int, ApiError>)
    requires extraction == FileProcessor.ExtractContentFromFile(Some(doc.file), readers)
    modifies doc, client
    ensures |client.events| > |old(client.events)| && client.events[..|old(client.events)|] == old(client.events)
    ensures client.events[|old(client.events)|].Probe?
    ensures plan == BackgroundPlan(old(doc.content), old(doc.file), client.events[|old(client.events)|].healthy, extraction)
    ensures !plan.Submit? ==> |client.events| == |old(client.events)| + 1
    ensures plan.Submit? ==>
      DocumentRun(NatToString(doc.id), plan.text, NatToString(doc.uploadedBy), client.events[|old(client.events)| + 1..], result)
    ensures doc.Status() == Settle(old(doc.Status()), plan, result, clock) && doc.file == old(doc.file)
    ensures SavedInBackground(old(doc.saved), doc.saved, doc.processingStatus)
  {
    ghost var e0 := client.events;
    ghost var s0 := doc.Status();
    ghost var saved0 := doc.saved;
    var healthy := Begin(doc, client);
    ghost var e1 := client.events;
    ghost var saved1 := doc.saved;
    plan, result := AfterProbe(doc, client, healthy, readers, extraction, clock);
    SettleOverwritesStatus(s0, Some(InBackground), plan, result, clock);
    BeginThenRest(e0, e1, client.events, Probe(healthy));
    BeginThenRest(saved0, saved1, doc.saved, Some(InBackground));
  }

  /** A sequence that extends `a + [x]` extends `a`, has `x` right after it,
      and what follows `a + [x]` in it starts at index `|a| + 1`. */
  lemma BeginThenRest<T>(a: seq<T>, b: seq<T>, c: seq<T>, x: T)
    requires b == a + [x] && |c| >= |b| && c[..|b|] == b
    ensures |c| > |a| && c[..|a|] == a && c[|a|] == x && c[|a| + 1..] == c[|b|..]
  {
    assert c[..|a|] == b[..|a|];
  }

  /** The background task's first save and the health probe. */
  method Begin(doc: Document, client: Client) returns (healthy: bool)
    modifies doc, client
    ensures doc.Status() == old(doc.Status()).(processingStatus := Some(InBackground))
    ensures doc.file == old(doc.file) && doc.saved == old(doc.saved) + [Some(InBackground)]
    ensures client.events == old(client.events) + [Probe(healthy)]
  {
    doc.processingStatus := Some(InBackground);
    doc.Save();
    healthy := client.CheckHealthSimple();
  }

  /** The background task has ended on `plan` with `result`: the status fields are
      `Settle`d, the client saw exactly the document's run (nothing when the
      plan did not submit), and the record was saved once more or several
      times, last with its final status. */
  twostate predicate Settled(doc: Document, client: Client, new plan: Plan, new result: Result<int, ApiError>, clock: int)
    reads doc, client
  {
    && doc.Status() == Settle(old(doc.Status()), plan, result, clock) && doc.file == old(doc.file)
    && |client.events| >= |old(client.events)| && client.events[..|old(client.events)|] == old(client.events)
    && (!plan.Submit? ==> client.events == old(client.events))
    && (plan.Submit? ==>
          DocumentRun(NatToString(doc.id), plan.text, NatToString(doc.uploadedBy), client.events[|old(client.events)|..], result))
    && |doc.saved| > |old(doc.saved)| && doc.saved[..|old(doc.saved)|] == old(doc.saved)
    && doc.saved[|doc.saved| - 1] == doc.processingStatus
  }

  /** The rest of the background task once the probe has answered: stop when the API is
      down; otherwise read the file when the document has no content, stop on
      a read error or empty content, else submit. */
  method AfterProbe(doc: Document, client: Client, healthy: bool, readers: FileProcessor.Readers,
                    ghost extraction: Result<string, string>, clock: int)
    returns (ghost plan: Plan, ghost result: Result<int, ApiError>)
    requires extraction == FileProcessor.ExtractContentFromFile(Some(doc.file), readers)
    modifies doc, client
    ensures plan == BackgroundPlan(old(doc.content), old(doc.file), healthy, extraction)
    ensures Settled(doc, client, plan, result, clock)
  {
    if !healthy {
      plan, result := Unavailable(doc, client, clock);
    } else if doc.content == "" && doc.file != "" {
      plan, result := ReadFile(doc, client, readers, extraction, clock);
    } else {
      plan, result := FromContent(doc, client, extraction, clock);
    }
  }

  /** Record a failure: its error text and status. */
  method Fail(doc: Document, error: string, status: string)
    modifies doc
    ensures doc.Status() == old(doc.Status()).(processingError := Some(error), processingStatus := Some(status))
    ensures doc.file == old(doc.file) && doc.saved == old(doc.saved) + [Some(status)]
  {
    doc.processingError := Some(error);
    doc.processingStatus := Some(status);
    doc.Save();
  }

  /** The API is down: the background task stops. */
  method Unavailable(doc: Document, client: Client, clock: int)
    returns (ghost plan: Plan, ghost result: Result<int, ApiError>)
    modifies doc
    ensures plan == ApiDown
    ensures Settled(doc, client, plan, result, clock)
  {
    Fail(doc, ApiUnavailableError, "Failed - API unavailable");
    plan, result := ApiDown, Err(Timeout(""));
  }

  /** A document without content: its file is read, then the text is used. */
  method ReadFile(doc: Document, client: Client, readers: FileProcessor.Readers,
                  ghost extraction: Result<string, string>, clock: int)
    returns (ghost plan: Plan, ghost result: Result<int, ApiError>)
    requires doc.content == "" && doc.file != ""
    requires extraction == FileProcessor.ExtractContentFromFile(Some(doc.file), readers)
    modifies doc, client
    ensures plan == BackgroundPlan(old(doc.content), old(doc.file), true, extraction)
    ensures Settled(doc, client, plan, result, clock)
  {
    var extracted := FileProcessor.ExtractContentFromFile(Some(doc.file), readers);
    plan, result := FromFile(doc, client, extracted, clock);
  }

  /** A document without content, once its file has been read. */
  method FromFile(doc: Document, client: Client, extraction: Result<string, string>, clock: int)
    returns (ghost plan: Plan, ghost result: Result<int, ApiError>)
    requires doc.content == "" && doc.file != ""
    modifies doc, client
    ensures plan == BackgroundPlan(old(doc.content), old(doc.file), true, extraction)
    ensures Settled(doc, client, plan, result, clock)
  {
    result := Err(Timeout(""));
    if extraction.Err? {
      Fail(doc, "Could not read file: " + extraction.error, "Failed - File read error");
      plan := ReadFailed(extraction.error);
      return;
    }
    var content := extraction.value;
    doc.content := Take(content, 1000000);
    doc.Save();
    if content == "" {
      Fail(doc, EmptyContentError, "Failed - Empty content");
      plan := NothingToProcess(doc.content);
      return;
    }
    plan := Submit(doc.content, content);
    var r := SubmitAndSettle(doc, client, content, clock);
    result := r;
  }

  /** A document with content, or with neither content nor file. */
  method FromContent(doc: Document, client: Client, ghost extraction: Result<string, string>, clock: int)
    returns (ghost plan: Plan, ghost result: Result<int, ApiError>)
    requires doc.content != "" || doc.file == ""
    modifies doc, client
    ensures plan == BackgroundPlan(old(doc.content), old(doc.file), true, extraction)
    ensures Settled(doc, client, plan, result, clock)
  {
    result := Err(Timeout(""));
    var content := doc.content;
    if content == "" {
      Fail(doc, EmptyContentError, "Failed - Empty content");
      plan := NothingToProcess(content);
      return;
    }
    plan := Submit(content, content);
    var r := SubmitAndSettle(doc, client, content, clock);
    result := r;
  }

  /** The API stage of the background task: mark the document as being processed, run
      `process_document` on the whole text, and record the outcome. */
  method SubmitAndSettle(doc: Document, client: Client, content: string, clock: int)
    returns (result: Result<int, ApiError>)
    modifies doc, client
    ensures |client.events| >= |old(client.events)| && client.events[..|old(client.events)|] == old(client.events)
    ensures DocumentRun(NatToString(doc.id), content, NatToString(doc.uploadedBy), client.events[|old(client.events)|..], result)
    ensures doc.Status() == Settle(old(doc.Status()), Submit(old(doc.content), content), result, clock)
    ensures doc.file == old(doc.file)
    ensures doc.saved == old(doc.saved) + [Some(WithApi), doc.processingStatus]
  {
    ghost var s0 := doc.Status();
    doc.processingStatus := Some(WithApi);
    doc.Save();
    result := client.ProcessDocument(NatToString(doc.id), content, NatToString(doc.uploadedBy));
    Record(doc, content, result, clock);
    SettleOverwritesStatus(s0, Some(WithApi), Submit(s0.content, content), result, clock);
  }

  /** The outcome of `process_document`: the chunk count and "Complete" on
      success, the error otherwise; then the record is saved. */
  method Record(doc: Document, ghost content: string, result: Result<int, ApiError>, clock: int)
    modifies doc
    ensures doc.Status() == Settle(old(doc.Status()), Submit(old(doc.content), content), result, clock)
    ensures doc.file == old(doc.file)
    ensures doc.saved == old(doc.saved) + [doc.processingStatus]
  {
    if result.Ok? {
      doc.isProcessed := true;
      doc.chunks := result.value;
      doc.processingStatus := Some(Complete);
      doc.lastProcessed := Some(clock);
    } else {
      var e := result.error.Text();
      doc.processingError := Some(e);
      doc.processingStatus := Some("Failed - API error: " + Take(e, 100));
      doc.isProcessed := false;
    }
    doc.Save();
  }

  /** The methods `ColabClient` defines. */
  const ClientMethods: set<string> := {
    "__init__", "check_health", "_make_api_request", "process_document", "generate_response",
    "_check_health_simple"
  }

  /** The completion check's effect once the document's status reply is
      known: only a document with no chunks whose status is not exactly
      "Failed", and only on a "complete" or "ready" reply, is marked complete
      with the reply's chunk count (0 when absent). Errors change nothing. */
  function CompletionStep(s: DocStatus, remote: Result<Body, ApiError>): DocStatus
  {
    if s.chunks == 0 && s.processingStatus != Some("Failed")
       && remote.Ok? && remote.value.status in {Some("complete"), Some("ready")}
    then s.(chunks := remote.value.chunks.GetOr(0), isProcessed := true, processingStatus := Some(Complete))
    else s
  }

  /** `check_document_completion` as written: the status lookup names a
      method the client does not define, so the AttributeError is raised
      before any change and swallowed by the handler. */
  function CompletionAsWritten(s: DocStatus, remote: Result<Body, ApiError>): DocStatus
  {
    if s.chunks == 0 && s.processingStatus != Some("Failed") then
      if "check_document_status" in ClientMethods then CompletionStep(s, remote) else s
    else s
  }

  /** As written, the completion check never changes the document, even when
      the remote status says it is ready. */
  lemma CompletionAsWrittenIsInert(s: DocStatus, remote: Result<Body, ApiError>)
    ensures CompletionAsWritten(s, remote) == s
  {
    assert "check_document_status" !in ClientMethods by {
      assert |"check_document_status"| == 21;
      assert "check_document_status"[0] != "_check_health_simple"[0];
    }
  }

  /** The intended check changes the document exactly when all three
      conditions hold, and then marks it complete. */
  lemma CompletionStepChanges(s: DocStatus, remote: Result<Body, ApiError>)
    ensures var cond := s.chunks == 0 && s.processingStatus != Some("Failed")
                        && remote.Ok? && remote.value.status in {Some("complete"), Some("ready")};
      && (!cond ==> CompletionStep(s, remote) == s)
      && (cond ==> var t := CompletionStep(s, remote);
                   t.isProcessed && t.processingStatus == Some(Complete) && t.chunks == remote.value.chunks.GetOr(0)
                   && t.content == s.content && t.processingError == s.processingError)
  {
  }

  /** The example the as-written check gets wrong: a document with no chunks
      whose remote status is "ready" with 7 chunks. */
  lemma ReadyDocumentLeftIncomplete(s: DocStatus)
    requires s.chunks == 0 && s.processingStatus == Some(InBackground)
    ensures var remote: Result<Body, ApiError> := Ok(Body(Some("ready"), Some(7), None, None));
      && CompletionAsWritten(s, remote).chunks == 0
      && CompletionStep(s, remote).chunks == 7 && CompletionStep(s, remote).isProcessed
  {
    CompletionAsWrittenIsInert(s, Ok(Body(Some("ready"), Some(7), None, None)));
  }

  /** `check_document_completion` with the status query it evidently meant:
      the client's `document_status` request. */
  method CheckDocumentCompletion(doc: Document?, client: Client) returns (ghost remote: Result<Body, ApiError>)
    modifies doc, client
    ensures doc != null ==> doc.Status() == CompletionStep(old(doc.Status()), remote)
    ensures doc != null && old(doc.chunks) == 0 && old(doc.processingStatus) != Some("Failed") ==>
      && |client.events| == |old(client.events)| + 1 && client.events[..|old(client.events)|] == old(client.events)
      && client.events[|old(client.events)|].Call?
      && client.events[|old(client.events)|].request == StatusRequest(NatToString(doc.id), NatToString(doc.uploadedBy))
      && client.events[|old(client.events)|].reply == remote
  {
    remote := Err(Timeout(""));
    if doc == null {
      return;
    }
    if doc.chunks == 0 && doc.processingStatus != Some("Failed") {
      var statusInfo := client.MakeApiRequest(StatusRequest(NatToString(doc.id), NatToString(doc.uploadedBy)));
      remote := statusInfo;
      if statusInfo.Ok? && statusInfo.value.status in {Some("complete"), Some("ready")} {
        doc.chunks := statusInfo.value.chunks.GetOr(0);
        doc.isProcessed := true;
        doc.processingStatus := Some(Complete);
        doc.Save();
      }
    }
  }
}
