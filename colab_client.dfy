/** The remote inference client, `ColabClient` in chatapp/colab_client.py.

    The HTTP transport is abstract: the outcome of the k-th HTTP attempt the
    client makes is `server(k)`, and the jitter drawn after the failed k-th
    attempt is `jitter(k)`. The client records what it did as a sequence of
    events: one `Call` per `_make_api_request` (with the number of attempts,
    the back-off delays slept and the final reply), one `Pause` per
    `time.sleep` outside the retry loop, one `Probe` per bare health probe. */
module ColabClient {
  import opened Results
  import opened Text
  import opened Schema

  const MaxRetries: nat := 3
  const BaseRetryDelay: nat := 2

  datatype HttpMethod = Get | Post

  /** The JSON payload (or GET parameters) of a request. For `ProcessText`,
      `chunkNumber` is `Some(k)` when the payload carries `chunk_number: k` and
      `is_partial: True`. */
  datatype Payload =
    | NoPayload
    | ProcessText(text: string, documentId: string, userId: string, chunkNumber: Option<nat>)
    | StatusQuery(documentId: string, userId: string)
    | Finalize(documentId: string, userId: string)
    | GenerateQuery(query: string, documentId: string, userId: string, history: Option<seq<HistoryEntry>>)

  datatype Request = Request(endpoint: string, verb: HttpMethod, timeout: nat, payload: Payload)

  /** A decoded JSON reply, reduced to the fields the client reads. */
  datatype Body = Body(status: Option<string>, chunks: Option<int>, response: Option<string>, model: Option<string>)

  /** What one HTTP attempt produces. `statusText` is what `raise_for_status`
      would say for that status; `Raised` is any other exception, flagged when
      it is a `requests` exception. */
  datatype Outcome =
    | Responded(code: int, statusText: string, body: Body)
    | TimedOut(text: string)
    | ConnectionFailed(text: string)
    | Raised(text: string, isRequestException: bool)

  /** The exceptions that leave `_make_api_request`. */
  datatype ApiError =
    | Timeout(text: string)
    | ConnectionError(text: string)
    | HttpError(code: int, text: string)
    | OtherError(text: string, isRequestException: bool)
  {
    /** `str(e)` */
    function Text(): string
    {
      match this
      case Timeout(t) => t
      case ConnectionError(t) => t
      case HttpError(_, t) => t
      case OtherError(t, _) => t
    }

    /** `isinstance(e, requests.exceptions.RequestException)` */
    predicate IsRequestException()
    {
      match this
      case OtherError(_, r) => r
      case _ => true
    }
  }

  datatype Event =
    | Call(request: Request, tries: nat, retryDelays: seq<real>, reply: Result<Body, ApiError>)
    | Pause(seconds: real)
    | Probe(healthy: bool)

  // ---------------------------------------------------------------------------
  // The retry loop of `_make_api_request`, as a specification function

  /** What the retry loop does from attempt `attempt` on: the final reply, the
      number of HTTP attempts made and the back-off delays slept. */
  datatype Attempts = Attempts(reply: Result<Body, ApiError>, tries: nat, delays: seq<real>)

  function RetryDelay(attempt: nat, j: real): real
  {
    (BaseRetryDelay * (attempt + 1)) as real + j
  }

  /** The exception raised after the loop when no attempt returned or raised. */
  function Exhausted(url: string): ApiError
  {
    OtherError("Failed to get successful response from " + url + " after 3 attempts", false)
  }

  function Then(delays: seq<real>, rest: Attempts): Attempts
  {
    Attempts(rest.reply, rest.tries + 1, delays + rest.delays)
  }

  /** The loop from attempt `attempt`, the first attempt using `server(base)`. */
  function Retry(server: nat -> Outcome, jitter: nat -> real, url: string, base: nat, attempt: nat): Attempts
    requires attempt <= MaxRetries
    decreases MaxRetries - attempt
  {
    if attempt == MaxRetries then Attempts(Err(Exhausted(url)), 0, [])
    else
      var k := base + attempt;
      match server(k)
      case Responded(code, statusText, body) =>
        if code == 200 then Attempts(Ok(body), 1, [])
        else if 400 <= code < 600 then Attempts(Err(HttpError(code, statusText)), 1, [])
        else Then([], Retry(server, jitter, url, base, attempt + 1))
      case TimedOut(text) =>
        if attempt < MaxRetries - 1
        then Then([RetryDelay(attempt, jitter(k))], Retry(server, jitter, url, base, attempt + 1))
        else Attempts(Err(Timeout(text)), 1, [])
      case ConnectionFailed(text) =>
        if attempt < MaxRetries - 1
        then Then([RetryDelay(attempt, jitter(k))], Retry(server, jitter, url, base, attempt + 1))
        else Attempts(Err(ConnectionError(text)), 1, [])
      case Raised(text, isRequest) => Attempts(Err(OtherError(text, isRequest)), 1, [])
  }

  /** The outcome of the whole loop, given the `n` attempts already made and
      the delays `ds` already slept, when what is left of it is `a`. */
  function Prefixed(n: nat, ds: seq<real>, a: Attempts): Attempts
  {
    Attempts(a.reply, a.tries + n, ds + a.delays)
  }

  lemma PrefixedThen(n: nat, ds: seq<real>, d: seq<real>, rest: Attempts)
    ensures Prefixed(n, ds, Then(d, rest)) == Prefixed(n + 1, ds + d, rest)
  {
    assert ds + (d + rest.delays) == (ds + d) + rest.delays;
  }

  ghost predicate JitterInRange(jitter: nat -> real)
  {
    forall k :: 0.0 <= jitter(k) <= 1.0
  }

  /** At most three attempts in all, and a sleep only between two of them. */
  lemma {:induction false} RetryBounded(server: nat -> Outcome, jitter: nat -> real, url: string, base: nat, attempt: nat)
    requires attempt < MaxRetries
    ensures var a := Retry(server, jitter, url, base, attempt);
      1 <= a.tries <= MaxRetries - attempt && |a.delays| < a.tries
    decreases MaxRetries - attempt
  {
    RetryStep(server, jitter, url, base, attempt);
    if attempt + 1 < MaxRetries {
      RetryBounded(server, jitter, url, base, attempt + 1);
    } else {
      assert Retry(server, jitter, url, base, attempt + 1) == Attempts(Err(Exhausted(url)), 0, []);
    }
  }

  /** One attempt either ends the loop, or is followed by the later ones
      with no delay or, before the last attempt, with its back-off delay. */
  lemma RetryStep(server: nat -> Outcome, jitter: nat -> real, url: string, base: nat, attempt: nat)
    requires attempt < MaxRetries
    ensures var a := Retry(server, jitter, url, base, attempt);
      var rest := Retry(server, jitter, url, base, attempt + 1);
      || (a.tries == 1 && a.delays == [])
      || a == Then([], rest)
      || (attempt < MaxRetries - 1 && a == Then([RetryDelay(attempt, jitter(base + attempt))], rest))
  {
  }

  /** Delays slept after attempt `attempt` or later: each between
      2(attempt+1) and 5 seconds, and each shorter than the next. */
  predicate BackOffs(d: seq<real>, attempt: nat)
  {
    && (forall i :: 0 <= i < |d| ==> (2 * (attempt + 1)) as real <= d[i] <= 5.0)
    && (forall i :: 0 <= i < |d| - 1 ==> d[i] < d[i + 1])
  }

  /** The back-off delays grow strictly: the one after attempt a lies in
      [2(a+1), 2(a+1)+1], so each is at least 2 and shorter than the next. */
  lemma {:induction false} RetryDelaysIncrease(server: nat -> Outcome, jitter: nat -> real, url: string, base: nat, attempt: nat)
    requires attempt <= MaxRetries
    requires JitterInRange(jitter)
    ensures BackOffs(Retry(server, jitter, url, base, attempt).delays, attempt)
    decreases MaxRetries - attempt
  {
    if attempt < MaxRetries {
      RetryDelaysIncrease(server, jitter, url, base, attempt + 1);
      RetryDelaysShape(server, jitter, url, base, attempt);
      var k := base + attempt;
      assert 0.0 <= jitter(k) <= 1.0;
      BackOffsStep(Retry(server, jitter, url, base, attempt).delays, Retry(server, jitter, url, base, attempt + 1).delays,
                   attempt, RetryDelay(attempt, jitter(k)));
    } else {
      assert Retry(server, jitter, url, base, attempt).delays == [];
    }
  }

  /** The delays of one attempt, in whichever of the three shapes, keep the
      back-off bounds and order of those of the later attempts. */
  lemma BackOffsStep(d: seq<real>, rest: seq<real>, attempt: nat, x: real)
    requires d == [] || d == rest || (attempt < MaxRetries - 1 && d == [x] + rest)
    requires (2 * (attempt + 1)) as real <= x <= (2 * (attempt + 1)) as real + 1.0
    requires BackOffs(rest, attempt + 1)
    ensures BackOffs(d, attempt)
  {
    if d == [] {
    } else if d == rest {
      BackOffsLater(rest, attempt);
    } else {
      DelayBeforeLater(x, rest, attempt);
    }
  }

  /** One attempt adds no delay, or the one delay of its back-off, in front
      of those of the later attempts. */
  lemma RetryDelaysShape(server: nat -> Outcome, jitter: nat -> real, url: string, base: nat, attempt: nat)
    requires attempt < MaxRetries
    ensures var d := Retry(server, jitter, url, base, attempt).delays;
      var rest := Retry(server, jitter, url, base, attempt + 1).delays;
      d == [] || d == rest || (attempt < MaxRetries - 1 && d == [RetryDelay(attempt, jitter(base + attempt))] + rest)
  {
  }

  lemma BackOffsLater(d: seq<real>, attempt: nat)
    requires BackOffs(d, attempt + 1)
    ensures BackOffs(d, attempt)
  {
  }

  /** A delay of attempt a, with a jitter in [0, 1], put before the delays of
      the attempts after a keeps them within bounds and increasing. */
  lemma DelayBeforeLater(x: real, rest: seq<real>, attempt: nat)
    requires attempt < MaxRetries - 1
    requires (2 * (attempt + 1)) as real <= x <= (2 * (attempt + 1)) as real + 1.0
    requires BackOffs(rest, attempt + 1)
    ensures BackOffs([x] + rest, attempt)
  {
    var d := [x] + rest;
    forall i | 0 <= i < |d| - 1
      ensures d[i] < d[i + 1]
    {
      if i > 0 {
        assert d[i] == rest[i - 1] && d[i + 1] == rest[i];
      }
    }
  }

  /** Two timeouts and then a 200: the reply is returned after exactly three
      attempts, having slept 2+j and then 4+j'. */
  lemma TwoTimeoutsThenSuccess(server: nat -> Outcome, jitter: nat -> real, url: string, base: nat, b: Body)
    requires server(base).TimedOut? && server(base + 1).TimedOut?
    requires server(base + 2) == Responded(200, "OK", b)
    ensures Retry(server, jitter, url, base, 0)
            == Attempts(Ok(b), 3, [2.0 + jitter(base), 4.0 + jitter(base + 1)])
  {
  }

  /** Three timeouts: the third timeout is raised, and there is no fourth attempt. */
  lemma ThreeTimeoutsRaise(server: nat -> Outcome, jitter: nat -> real, url: string, base: nat)
    requires server(base).TimedOut? && server(base + 1).TimedOut? && server(base + 2).TimedOut?
    ensures var a := Retry(server, jitter, url, base, 0);
      a.reply == Err(Timeout(server(base + 2).text)) && a.tries == 3 && |a.delays| == 2
  {
  }

  /** Only timeouts and connection errors are retried: a 200 returns at once,
      and an HTTP error status or any other exception propagates at once. */
  lemma FirstDecisiveOutcome(server: nat -> Outcome, jitter: nat -> real, url: string, base: nat)
    requires || (server(base).Responded? && (server(base).code == 200 || 400 <= server(base).code < 600))
             || server(base).Raised?
    ensures var a := Retry(server, jitter, url, base, 0);
      a.tries == 1 && a.delays == []
      && (server(base).Responded? && server(base).code == 200 ==> a.reply == Ok(server(base).body))
      && (server(base).Responded? && server(base).code != 200 ==>
            a.reply == Err(HttpError(server(base).code, server(base).statusText)))
      && (server(base).Raised? ==>
            a.reply == Err(OtherError(server(base).text, server(base).isRequestException)))
  {
  }

  /** A status that is neither 200 nor an error status (a 201, say) does not
      stop the loop: three of them reach the final raise, which the source
      comments as unreachable, and no sleep happens in between. */
  lemma NonErrorStatusesExhaustLoop(server: nat -> Outcome, jitter: nat -> real, url: string, base: nat)
    requires server(base).Responded? && server(base).code == 201
    requires server(base + 1).Responded? && server(base + 1).code == 201
    requires server(base + 2).Responded? && server(base + 2).code == 201
    ensures Retry(server, jitter, url, base, 0) == Attempts(Err(Exhausted(url)), 3, [])
  {
  }

  // ---------------------------------------------------------------------------
  // Requests the client builds

  function ProcessRequest(text: string, documentId: string, userId: string, chunkNumber: Option<nat>): Request
  {
    Request("process_document", Post, 120, ProcessText(text, documentId, userId, chunkNumber))
  }

  function StatusRequest(documentId: string, userId: string): Request
  {
    Request("document_status", Get, 10, StatusQuery(documentId, userId))
  }

  function FinalizeRequest(documentId: string, userId: string): Request
  {
    Request("finalize_document", Post, 30, Finalize(documentId, userId))
  }

  const HealthRequest: Request := Request("healthcheck", Get, 5, NoPayload)

  /** The generate request; the history is sent only when it is non-empty. */
  function GenerateRequest(query: string, documentId: string, userId: string, history: Option<seq<HistoryEntry>>): (r: Request)
    ensures r.payload.GenerateQuery?
    ensures r.payload.history.Some? <==> history.Some? && history.value != []
    ensures r.payload.history.Some? ==> r.payload.history == history
  {
    var sent := if history.Some? && history.value != [] then history else None;
    Request("generate", Post, 45, GenerateQuery(query, documentId, userId, sent))
  }

  // ---------------------------------------------------------------------------
  // Windowing of large documents

  function Min(a: int, b: int): int
  {
    if a <= b then a else b
  }

  function Max(a: int, b: int): int
  {
    if a >= b then a else b
  }

  /** `len(range(0, n, 20000))` */
  function WindowCount(n: nat): nat
  {
    (n + 20000 - 1) / 20000
  }

  /** `content[k*20000 : k*20000 + 20000]` */
  function Window(content: string, k: nat): string
    requires k < WindowCount(|content|)
  {
    content[k * 20000 .. Min(k * 20000 + 20000, |content|)]
  }

  function Windows(content: string): (ws: seq<string>)
    ensures |ws| == WindowCount(|content|)
  {
    seq(WindowCount(|content|), k requires 0 <= k < WindowCount(|content|) => Window(content, k))
  }

  /** The partial submissions of a large document, in order. */
  function WindowRequests(documentId: string, userId: string, content: string): (rs: seq<Request>)
    ensures |rs| == WindowCount(|content|)
  {
    seq(WindowCount(|content|), k requires 0 <= k < WindowCount(|content|) =>
      ProcessRequest(Window(content, k), documentId, userId, Some(k)))
  }

  lemma {:induction false} WindowsPrefix(content: string, m: nat)
    requires m <= WindowCount(|content|)
    ensures Concat(Windows(content)[..m]) == content[..Min(m * 20000, |content|)]
    decreases m
  {
    var ws := Windows(content);
    if m > 0 {
      WindowsPrefix(content, m - 1);
      assert ws[..m] == ws[..m - 1] + [ws[m - 1]];
      ConcatAppend(ws[..m - 1], ws[m - 1]);
    }
  }

  /** Window `w` exists exactly when it starts before the end; its number is its offset over 20,000. */
  lemma WindowArithmetic(n: nat, w: nat)
    ensures w < WindowCount(n) <==> w * 20000 < n
    ensures (w * 20000) / 20000 == w
  {
  }

  /** The windows, concatenated, give back the whole content; each but the
      last holds exactly 20,000 characters and none is empty. */
  lemma WindowsPartitionContent(content: string)
    ensures Concat(Windows(content)) == content
    ensures forall k :: 0 <= k < |Windows(content)| - 1 ==> |Windows(content)[k]| == 20000
    ensures forall k :: 0 <= k < |Windows(content)| ==> |Windows(content)[k]| > 0
  {
    var ws := Windows(content);
    WindowsPrefix(content, |ws|);
    assert ws[..|ws|] == ws;
  }

  /** A 45,000-character document is sent as three windows of 20,000, 20,000
      and 5,000 characters, numbered 0, 1, 2. */
  lemma FortyFiveThousand(content: string, documentId: string, userId: string)
    requires |content| == 45000
    ensures var rs := WindowRequests(documentId, userId, content);
      |rs| == 3
      && |rs[0].payload.text| == 20000 && |rs[1].payload.text| == 20000 && |rs[2].payload.text| == 5000
      && rs[0].payload.chunkNumber == Some(0) && rs[1].payload.chunkNumber == Some(1)
      && rs[2].payload.chunkNumber == Some(2)
  {
  }

  /** The sum of the `chunks` fields of the successful calls among `evs`. */
  function ChunkSum(evs: seq<Event>): int
    decreases |evs|
  {
    if |evs| == 0 then 0
    else
      var e := evs[|evs| - 1];
      ChunkSum(evs[..|evs| - 1]) + (if e.Call? && e.reply.Ok? then e.reply.value.chunks.GetOr(0) else 0)
  }

  /** `evs` is a prefix of: window call 0, pause 2s, window call 1, pause 2s,
      ..., last window call; a pause follows only a successful call and only
      when that call's window is not the last. */
  ghost predicate PacedWindows(evs: seq<Event>, reqs: seq<Request>)
    decreases |evs|
  {
    if |evs| == 0 then true
    else
      var last := evs[|evs| - 1];
      var before := evs[..|evs| - 1];
      && PacedWindows(before, reqs)
      && |evs| / 2 < |reqs|
      && if |evs| % 2 == 1
         then last.Call? && last.request == reqs[|evs| / 2]
         else last == Pause(2.0) && before[|before| - 1].Call? && before[|before| - 1].reply.Ok?
  }

  lemma {:induction false} PacedPrefix(evs: seq<Event>, reqs: seq<Request>, n: nat)
    requires PacedWindows(evs, reqs) && n <= |evs|
    ensures PacedWindows(evs[..n], reqs)
    decreases |evs| - n
  {
    if n < |evs| {
      var before := evs[..|evs| - 1];
      PacedPrefix(before, reqs, n);
      assert before[..n] == evs[..n];
    } else {
      assert evs[..n] == evs;
    }
  }

  /** What `process_document` does with a document of at most 20,000 characters. */
  ghost predicate SmallDocumentRun(documentId: string, content: string, userId: string,
                                   evs: seq<Event>, r: Result<int, ApiError>)
  {
    && |evs| >= 1 && evs[0].Call?
    && evs[0].request == ProcessRequest(content, documentId, userId, None)
    && match evs[0].reply
       case Err(e) => |evs| == 1 && r == Err(Wrapped(e))
       case Ok(b) =>
         if b.status == Some("processing_started") then
           && |evs| == 3 && evs[1] == Pause(10.0) && evs[2].Call?
           && evs[2].request == StatusRequest(documentId, userId)
           && match evs[2].reply
              case Err(e) => r == Err(Wrapped(e))
              case Ok(s) => r == Ok(StatusChunks(s, |content|))
         else |evs| == 1 && r == Ok(b.chunks.GetOr(0))
  }

  /** The chunk count after an asynchronous start: the reported count when the
      status is "ready", otherwise an estimate of one chunk per 1000 characters,
      at least 1. */
  function StatusChunks(s: Body, contentLength: nat): (n: int)
    ensures s.status != Some("ready") ==> n >= 1 && n == Max(1, contentLength / 1000)
    ensures s.status == Some("ready") ==> n == s.chunks.GetOr(0)
  {
    if s.status == Some("ready") then s.chunks.GetOr(0) else Max(1, contentLength / 1000)
  }

  /** What `process_document` does with a document longer than 20,000 characters. */
  ghost predicate LargeDocumentRun(documentId: string, content: string, userId: string,
                                   evs: seq<Event>, r: Result<int, ApiError>)
  {
    var reqs := WindowRequests(documentId, userId, content);
    var m := 2 * |reqs| - 1;
    && |evs| >= 1 && evs[|evs| - 1].Call?
    && match r
       case Ok(n) =>
         && |evs| == m + 1 && PacedWindows(evs[..m], reqs) && evs[m - 1].reply.Ok?
         && evs[m].request == FinalizeRequest(documentId, userId) && evs[m].reply.Ok?
         && n == ChunkSum(evs[..m])
       case Err(e) =>
         && evs[|evs| - 1].reply.Err? && e == Wrapped(evs[|evs| - 1].reply.error)
         && (|| PacedWindows(evs, reqs)
             || (|evs| == m + 1 && PacedWindows(evs[..m], reqs) && evs[m - 1].reply.Ok?
                 && evs[m].request == FinalizeRequest(documentId, userId)))
  }

  /** `Exception(f"Failed to process document: {str(e)}")` */
  function Wrapped(e: ApiError): ApiError
  {
    OtherError("Failed to process document: " + e.Text(), false)
  }

  /** On success, a large document was sent as exactly its windows, in order,
      with a 2-second pause between consecutive windows and none after the
      last, then one finalize call; the result is the sum of the windows'
      `chunks` fields. */
  lemma LargeRunSubmitsEveryWindow(documentId: string, content: string, userId: string,
                                   evs: seq<Event>, n: int)
    requires |content| > 20000
    requires LargeDocumentRun(documentId, content, userId, evs, Ok(n))
    ensures var reqs := WindowRequests(documentId, userId, content);
      && |evs| == 2 * |reqs|
      && (forall k :: 0 <= k < |reqs| ==> evs[2 * k].Call? && evs[2 * k].request == reqs[k]
                                          && evs[2 * k].reply.Ok?)
      && (forall k :: 0 <= k < |reqs| - 1 ==> evs[2 * k + 1] == Pause(2.0))
      && evs[|evs| - 1].request == FinalizeRequest(documentId, userId)
      && n == ChunkSum(evs[..|evs| - 1])
  {
    var reqs := WindowRequests(documentId, userId, content);
    var m := 2 * |reqs| - 1;
    PacedComplete(evs[..m], reqs);
  }

  /** A complete paced trace holds every window call, successful, with a pause between consecutive ones. */
  lemma PacedComplete(evs: seq<Event>, reqs: seq<Request>)
    requires PacedWindows(evs, reqs) && |evs| == 2 * |reqs| - 1
    requires evs[|evs| - 1].Call? && evs[|evs| - 1].reply.Ok?
    ensures forall k :: 0 <= k < |reqs| ==>
              evs[2 * k].Call? && evs[2 * k].request == reqs[k] && evs[2 * k].reply.Ok?
    ensures forall k :: 0 <= k < |reqs| - 1 ==> evs[2 * k + 1] == Pause(2.0)
  {
    forall k | 0 <= k < |reqs|
      ensures evs[2 * k].Call? && evs[2 * k].request == reqs[k] && evs[2 * k].reply.Ok?
    {
      PacedCallAt(evs, reqs, k);
      if k < |reqs| - 1 {
        PacedPauseAt(evs, reqs, k);
      }
    }
    forall k | 0 <= k < |reqs| - 1
      ensures evs[2 * k + 1] == Pause(2.0)
    {
      PacedPauseAt(evs, reqs, k);
    }
  }

  /** Position 2k of a paced trace is the call for window k. */
  lemma PacedCallAt(evs: seq<Event>, reqs: seq<Request>, k: nat)
    requires PacedWindows(evs, reqs) && 2 * k < |evs|
    ensures evs[2 * k].Call? && evs[2 * k].request == reqs[k]
  {
    PacedPrefix(evs, reqs, 2 * k + 1);
    var pre := evs[..2 * k + 1];
    assert pre[|pre| - 1] == evs[2 * k];
    assert |pre| / 2 == k;
  }

  /** Position 2k+1 of a paced trace is a pause, and the call before it succeeded. */
  lemma PacedPauseAt(evs: seq<Event>, reqs: seq<Request>, k: nat)
    requires PacedWindows(evs, reqs) && 2 * k + 1 < |evs|
    ensures evs[2 * k + 1] == Pause(2.0) && evs[2 * k].Call? && evs[2 * k].reply.Ok?
  {
    PacedPrefix(evs, reqs, 2 * k + 2);
    var pre := evs[..2 * k + 2];
    assert pre[|pre| - 1] == evs[2 * k + 1];
    assert pre[..|pre| - 1][2 * k] == evs[2 * k];
    assert |pre| % 2 == 0;
  }

  /** The text `generate_response` returns for the reply of its generate call. */
  function ReplyText(reply: Result<Body, ApiError>): string
  {
    match reply
    case Ok(b) => b.response.GetOr(DefaultApology)
    case Err(e) => ErrorMessage(e)
  }

  const DefaultApology := "Sorry, I couldn't generate a proper response."
  const Unavailable := "The Colab service is currently unavailable. Please try again later."
  const ReprocessHint := "This document hasn't been processed yet in the current session. Please go back to the Documents page and click 'Reprocess' on this document, then try again."
  const RestartHint := "The API endpoint was not found. The Colab notebook might need to be restarted."
  const ConnectHint := "Could not connect to the API server. Please check that your Colab notebook is running."

  const UnexpectedPrefix := "Sorry, an error occurred: "
  const RequestErrorPrefix := "Sorry, an error occurred while contacting the API: "
  const NotFoundCode := "404"
  const NotProcessedText := "Document not processed yet"
  const NoVectorstoreText := "vectorstore not found"
  const ConnectionText := "Connection"

  /** The user-facing message for a failed generate call. */
  function ErrorMessage(e: ApiError): string
  {
    var m := e.Text();
    if !e.IsRequestException() then UnexpectedPrefix + m
    else if Contains(m, NotFoundCode) then
      if Contains(m, NotProcessedText) || Contains(m, NoVectorstoreText)
      then ReprocessHint else RestartHint
    else if Contains(m, ConnectionText) then ConnectHint
    else RequestErrorPrefix + m
  }

  /** The mapping from request errors to messages: a 404 about an unprocessed
      document asks for reprocessing, any other 404 for a restart, a
      connection problem for a running notebook; everything else quotes the
      error, and an error that is not a request exception never gets a hint. */
  lemma ErrorMessageCases(e: ApiError)
    ensures var m := e.Text(); var r := ErrorMessage(e);
      && (e.IsRequestException() && Contains(m, "404")
          && (Contains(m, "Document not processed yet") || Contains(m, "vectorstore not found"))
          ==> r == ReprocessHint)
      && (e.IsRequestException() && Contains(m, "404")
          && !Contains(m, "Document not processed yet") && !Contains(m, "vectorstore not found")
          ==> r == RestartHint)
      && (e.IsRequestException() && !Contains(m, "404") && Contains(m, "Connection")
          ==> r == ConnectHint)
      && (e.IsRequestException() && !Contains(m, "404") && !Contains(m, "Connection")
          ==> r == "Sorry, an error occurred while contacting the API: " + m)
      && (!e.IsRequestException() ==> r == "Sorry, an error occurred: " + m)
  {
  }

  /** The retry loop's own final error is not a request exception, so its
      text is quoted rather than mapped to a hint. */
  lemma ExhaustedIsQuoted(url: string)
    ensures ErrorMessage(Exhausted(url)) == "Sorry, an error occurred: " + Exhausted(url).Text()
  {
  }

  /** A reply without a `response` field gives the default apology. */
  lemma MissingResponseApologises(b: Body)
    requires b.response.None?
    ensures ReplyText(Ok(b)) == "Sorry, I couldn't generate a proper response."
  {
  }

  /** `is_healthy` and `model_info` of `check_health` for the reply of its probe. */
  function HealthVerdict(reply: Result<Body, ApiError>): (v: (bool, string))
    ensures v.0 <==> reply.Ok? && reply.value.status == Some("ok")
    ensures reply.Err? ==> v.1 == reply.error.Text()
    ensures reply.Ok? && reply.value.model.None? ==> v.1 == "unknown"
    ensures reply.Ok? && reply.value.model.Some? ==> v.1 == reply.value.model.value
  {
    match reply
    case Ok(b) => (b.status == Some("ok"), b.model.GetOr("unknown"))
    case Err(e) => (false, e.Text())
  }

  class Client {
    const apiUrl: string
    const server: nat -> Outcome
    const jitter: nat -> real
    var attempts: nat
    var events: seq<Event>

    /** `ColabClient(api_url)`: trailing slashes are removed from the URL. */
    constructor (url: string, server: nat -> Outcome, jitter: nat -> real)
      requires JitterInRange(jitter)
      ensures apiUrl == RStripChar(url, '/') && this.server == server && this.jitter == jitter
      ensures attempts == 0 && events == []
    {
      apiUrl := RStripChar(url, '/');
      this.server := server;
      this.jitter := jitter;
      attempts := 0;
      events := [];
    }

    function Url(endpoint: string): string
    {
      apiUrl + "/" + endpoint
    }

    /** `_make_api_request`: up to three attempts, sleeping only after a timeout
        or connection error that is not the last attempt. */
    method MakeApiRequest(req: Request) returns (reply: Result<Body, ApiError>)
      modifies this
      ensures var a := Retry(server, jitter, Url(req.endpoint), old(attempts), 0);
        && reply == a.reply
        && attempts == old(attempts) + a.tries
        && events == old(events) + [Call(req, a.tries, a.delays, reply)]
    {
      ghost var base := attempts;
      var url := Url(req.endpoint);
      var attempt := 0;
      var delays: seq<real> := [];
      var finished := false;
      reply := Err(Exhausted(url));
      while attempt < MaxRetries && !finished
        invariant 0 <= attempt <= MaxRetries
        invariant attempts == base + attempt
        invariant events == old(events)
        invariant !finished ==> Retry(server, jitter, url, base, 0)
                                == Prefixed(attempt, delays, Retry(server, jitter, url, base, attempt))
        invariant finished ==> Retry(server, jitter, url, base, 0) == Attempts(reply, attempt, delays)
        invariant !finished ==> reply == Err(Exhausted(url))
      {
        var r, stop, delay := TryOnce(url, base, attempt);
        if stop {
          reply, finished := r, true;
          assert delays + [] == delays;
        } else {
          PrefixedThen(attempt, delays, delay, Retry(server, jitter, url, base, attempt + 1));
          delays := delays + delay;
        }
        attempt := attempt + 1;
      }
      if !finished {
        assert delays + [] == delays;
      }
      events := events + [Call(req, attempt, delays, reply)];
    }

    /** One attempt of the retry loop on `server(attempts)`: it ends the loop
        with a reply, or it asks for another attempt after sleeping `delay`. */
    method TryOnce(url: string, ghost base: nat, attempt: nat)
      returns (reply: Result<Body, ApiError>, finished: bool, delay: seq<real>)
      requires attempt < MaxRetries && attempts == base + attempt
      modifies this
      ensures attempts == old(attempts) + 1 && events == old(events)
      ensures finished ==> Retry(server, jitter, url, base, attempt) == Attempts(reply, 1, [])
      ensures !finished ==> Retry(server, jitter, url, base, attempt) == Then(delay, Retry(server, jitter, url, base, attempt + 1))
    {
      var k := attempts;
      var outcome := server(k);
      attempts := attempts + 1;
      reply, finished, delay := Err(Exhausted(url)), true, [];
      match outcome {
        case Responded(code, statusText, body) =>
          if code == 200 {
            reply := Ok(body);
          } else if 400 <= code < 600 {
            reply := Err(HttpError(code, statusText));
          } else {
            finished := false;
          }
        case TimedOut(text) =>
          if attempt < MaxRetries - 1 {
            finished, delay := false, [RetryDelay(attempt, jitter(k))];
          } else {
            reply := Err(Timeout(text));
          }
        case ConnectionFailed(text) =>
          if attempt < MaxRetries - 1 {
            finished, delay := false, [RetryDelay(attempt, jitter(k))];
          } else {
            reply := Err(ConnectionError(text));
          }
        case Raised(text, isRequest) =>
          reply := Err(OtherError(text, isRequest));
      }
    }

    /** One `_make_api_request` call as its callers see it: exactly one call
        event is appended, carrying the request and the reply. */
    method Send(req: Request) returns (reply: Result<Body, ApiError>, ghost call: Event)
      modifies this
      ensures call.Call? && call.request == req && call.reply == reply
      ensures events == old(events) + [call]
    {
      reply := MakeApiRequest(req);
      call := events[|events| - 1];
    }

    /** `_check_health_simple`: one bare GET; healthy exactly on a 200. */
    method CheckHealthSimple() returns (healthy: bool)
      modifies this
      ensures healthy <==> old(server(attempts)).Responded? && old(server(attempts)).code == 200
      ensures attempts == old(attempts) + 1 && events == old(events) + [Probe(healthy)]
    {
      var outcome := server(attempts);
      attempts := attempts + 1;
      healthy := outcome.Responded? && outcome.code == 200;
      events := events + [Probe(healthy)];
    }

    /** `check_health`: never raises; a failure becomes `(False, str(e))`. */
    method CheckHealth() returns (healthy: bool, modelInfo: string)
      modifies this
      ensures |events| == |old(events)| + 1 && events[..|old(events)|] == old(events)
      ensures var c := events[|events| - 1];
        c.Call? && c.request == HealthRequest && (healthy, modelInfo) == HealthVerdict(c.reply)
    {
      var reply := MakeApiRequest(HealthRequest);
      var v := HealthVerdict(reply);
      healthy, modelInfo := v.0, v.1;
    }

    /** `process_document`: one request for a small document (with one status
        poll after an asynchronous start), or window-by-window submission and
        a finalize call for a large one. Every failure is re-raised wrapped. */
    method ProcessDocument(documentId: string, content: string, userId: string)
      returns (r: Result<int, ApiError>)
      modifies this
      ensures |events| > |old(events)| && events[..|old(events)|] == old(events)
      ensures |content| <= 20000 ==>
                SmallDocumentRun(documentId, content, userId, events[|old(events)|..], r)
      ensures |content| > 20000 ==>
                LargeDocumentRun(documentId, content, userId, events[|old(events)|..], r)
    {
      ghost var trace;
      if |content| <= 20000 {
        r, trace := ProcessWhole(documentId, content, userId);
      } else {
        r, trace := ProcessInWindows(documentId, content, userId);
      }
      assert events[|old(events)|..] == trace;
    }

    /** The branch of `process_document` for at most 20,000 characters. */
    method ProcessWhole(documentId: string, content: string, userId: string)
      returns (r: Result<int, ApiError>, ghost trace: seq<Event>)
      modifies this
      ensures events == old(events) + trace
      ensures SmallDocumentRun(documentId, content, userId, trace, r)
    {
      var reply := MakeApiRequest(ProcessRequest(content, documentId, userId, None));
      trace := [events[|events| - 1]];
      if reply.Err? {
        r := Err(Wrapped(reply.error));
        return;
      }
      if reply.value.status == Some("processing_started") {
        events := events + [Pause(10.0)];
        var status := MakeApiRequest(StatusRequest(documentId, userId));
        trace := trace + [Pause(10.0), events[|events| - 1]];
        if status.Err? {
          r := Err(Wrapped(status.error));
        } else {
          r := Ok(StatusChunks(status.value, |content|));
        }
      } else {
        r := Ok(reply.value.chunks.GetOr(0));
      }
    }

    /** The branch of `process_document` for more than 20,000 characters. */
    method ProcessInWindows(documentId: string, content: string, userId: string)
      returns (r: Result<int, ApiError>, ghost trace: seq<Event>)
      requires |content| > 20000
      modifies this
      ensures events == old(events) + trace
      ensures LargeDocumentRun(documentId, content, userId, trace, r)
    {
      var failure, chunksCreated, windows := SendWindows(documentId, content, userId);
      if failure.Some? {
        return Err(Wrapped(failure.value)), windows;
      }
      var fin, call := Send(FinalizeRequest(documentId, userId));
      if fin.Err? {
        r := Err(Wrapped(fin.error));
      } else {
        r := Ok(chunksCreated);
      }
      LargeRunFinishes(documentId, content, userId, windows, call, chunksCreated, r);
      trace := windows + [call];
    }

    /** The window loop of `process_document`: each 20,000-character window
        is sent in order, with a 2-second pause after every window but the
        last; the first failed call stops the loop with its error. */
    method SendWindows(documentId: string, content: string, userId: string)
      returns (failure: Option<ApiError>, chunksCreated: int, ghost trace: seq<Event>)
      requires |content| > 20000
      modifies this
      ensures events == old(events) + trace
      ensures failure.Some? ==> LargeDocumentRun(documentId, content, userId, trace, Err(Wrapped(failure.value)))
      ensures failure.None? ==>
        var reqs := WindowRequests(documentId, userId, content);
        WindowsSent(trace, reqs, |reqs|, chunksCreated) && |reqs| == WindowCount(|content|)
    {
      ghost var reqs := WindowRequests(documentId, userId, content);
      chunksCreated := 0;
      failure := None;
      var i := 0;
      ghost var w := 0;
      trace := [];
      WindowArithmetic(|content|, 0);
      while i < |content|
        invariant 0 <= w <= |reqs| && i == w * 20000
        invariant w < |reqs| <==> i < |content|
        invariant events == old(events) + trace
        invariant WindowsSent(trace, reqs, w, chunksCreated)
      {
        WindowArithmetic(|content|, w + 1);
        var reply, call := SendWindow(documentId, content, userId, i, w);
        WindowSentStep(trace, reqs, w, chunksCreated, call);
        trace := trace + [call];
        if reply.Err? {
          failure := Some(reply.error);
          LargeRunWindowFails(documentId, content, userId, trace);
          return;
        }
        chunksCreated := chunksCreated + reply.value.chunks.GetOr(0);
        if i + 20000 < |content| {
          events := events + [Pause(2.0)];
          trace := trace + [Pause(2.0)];
        }
        i := i + 20000;
        w := w + 1;
      }
    }

    /** One iteration's call: window `w`, which starts at character `i`. */
    method SendWindow(documentId: string, content: string, userId: string, i: nat, ghost w: nat)
      returns (reply: Result<Body, ApiError>, ghost call: Event)
      requires i == w * 20000 && i < |content|
      modifies this
      ensures w < |WindowRequests(documentId, userId, content)|
      ensures call.Call? && call.request == WindowRequests(documentId, userId, content)[w] && call.reply == reply
      ensures events == old(events) + [call]
    {
      WindowArithmetic(|content|, w);
      var chunk := content[i..Min(i + 20000, |content|)];
      assert ProcessRequest(chunk, documentId, userId, Some(i / 20000)) == WindowRequests(documentId, userId, content)[w];
      reply, call := Send(ProcessRequest(chunk, documentId, userId, Some(i / 20000)));
    }

    /** `generate_response`: never raises. An unhealthy probe short-circuits;
        otherwise the reply, or the message for its error, is returned. */
    method GenerateResponse(query: string, documentId: string, userId: string,
                            history: Option<seq<HistoryEntry>>) returns (text: string)
      modifies this
      ensures |events| > |old(events)| && events[..|old(events)|] == old(events)
      ensures GenerateRun(events[|old(events)|..], query, documentId, userId, history, text)
    {
      ghost var start := |events|;
      var healthy := CheckHealthSimple();
      if !healthy {
        return Unavailable;
      }
      var reply := MakeApiRequest(GenerateRequest(query, documentId, userId, history));
      text := ReplyText(reply);
    }
  }

  /** What `generate_response` does, as the client sees it: the health probe,
      then (when healthy) one generate call; `text` is what it returns. */
  ghost predicate GenerateRun(evs: seq<Event>, query: string, documentId: string, userId: string,
                              history: Option<seq<HistoryEntry>>, text: string)
  {
    && |evs| >= 1 && evs[0].Probe?
    && (!evs[0].healthy ==> |evs| == 1 && text == Unavailable)
    && (evs[0].healthy ==>
          && |evs| == 2 && evs[1].Call?
          && evs[1].request == GenerateRequest(query, documentId, userId, history)
          && text == ReplyText(evs[1].reply))
  }

  lemma LargeRunWindowFails(documentId: string, content: string, userId: string, trace: seq<Event>)
    requires PacedWindows(trace, WindowRequests(documentId, userId, content))
    requires |trace| >= 1 && trace[|trace| - 1].Call? && trace[|trace| - 1].reply.Err?
    ensures LargeDocumentRun(documentId, content, userId, trace, Err(Wrapped(trace[|trace| - 1].reply.error)))
  {
  }

  lemma LargeRunFinishes(documentId: string, content: string, userId: string,
                         windows: seq<Event>, fin: Event, chunks: int, r: Result<int, ApiError>)
    requires |windows| == 2 * WindowCount(|content|) - 1
    requires PacedWindows(windows, WindowRequests(documentId, userId, content))
    requires windows[|windows| - 1].Call? && windows[|windows| - 1].reply.Ok?
    requires fin.Call? && fin.request == FinalizeRequest(documentId, userId)
    requires chunks == ChunkSum(windows)
    requires r == if fin.reply.Err? then Err(Wrapped(fin.reply.error)) else Ok(chunks)
    ensures LargeDocumentRun(documentId, content, userId, windows + [fin], r)
  {
    assert (windows + [fin])[..|windows|] == windows;
  }

  /** The bookkeeping of the window loop after `w` windows were sent, all successfully. */
  ghost predicate WindowsSent(trace: seq<Event>, reqs: seq<Request>, w: nat, total: int)
  {
    && w <= |reqs|
    && |trace| == (if w == 0 then 0 else if w < |reqs| then 2 * w else 2 * w - 1)
    && PacedWindows(trace, reqs)
    && total == ChunkSum(trace)
    && (w == |reqs| && w > 0 ==> trace[|trace| - 1].Call? && trace[|trace| - 1].reply.Ok?)
    && (0 < w < |reqs| ==> trace[|trace| - 1] == Pause(2.0))
  }

  /** One turn of the window loop: send window `w`, and pause unless it was the last. */
  lemma WindowSentStep(trace: seq<Event>, reqs: seq<Request>, w: nat, total: int, call: Event)
    requires WindowsSent(trace, reqs, w, total) && w < |reqs|
    requires call.Call? && call.request == reqs[w]
    ensures PacedWindows(trace + [call], reqs)
    ensures call.reply.Ok? ==>
      var total' := total + call.reply.value.chunks.GetOr(0);
      && (w + 1 < |reqs| ==> WindowsSent(trace + [call] + [Pause(2.0)], reqs, w + 1, total'))
      && (w + 1 == |reqs| ==> WindowsSent(trace + [call], reqs, w + 1, total'))
  {
    PacedExtendCall(trace, reqs, call, w);
    if call.reply.Ok? {
      if w + 1 < |reqs| {
        WindowSentPause(trace, reqs, w, total, call);
      } else {
        ChunkSumAppend(trace, call);
      }
    }
  }

  lemma WindowSentPause(trace: seq<Event>, reqs: seq<Request>, w: nat, total: int, call: Event)
    requires WindowsSent(trace, reqs, w, total) && w + 1 < |reqs|
    requires call.Call? && call.request == reqs[w] && call.reply.Ok?
    requires PacedWindows(trace + [call], reqs)
    ensures WindowsSent(trace + [call] + [Pause(2.0)], reqs, w + 1, total + call.reply.value.chunks.GetOr(0))
  {
    var t := trace + [call];
    PacedExtendPause(t, reqs);
    ChunkSumAppend(trace, call);
    ChunkSumAppend(t, Pause(2.0));
  }

  lemma ChunkSumAppend(evs: seq<Event>, e: Event)
    ensures ChunkSum(evs + [e])
            == ChunkSum(evs) + (if e.Call? && e.reply.Ok? then e.reply.value.chunks.GetOr(0) else 0)
  {
    assert (evs + [e])[..|evs|] == evs;
  }

  /** Appending window call `w` keeps the trace paced. */
  lemma PacedExtendCall(evs: seq<Event>, reqs: seq<Request>, c: Event, w: nat)
    requires PacedWindows(evs, reqs)
    requires w < |reqs| && |evs| == 2 * w
    requires c.Call? && c.request == reqs[w]
    ensures PacedWindows(evs + [c], reqs)
  {
    assert (evs + [c])[..|evs|] == evs;
  }

  /** Appending the pause after a successful window call that is not the last keeps the trace paced. */
  lemma PacedExtendPause(evs: seq<Event>, reqs: seq<Request>)
    requires PacedWindows(evs, reqs)
    requires |evs| % 2 == 1 && |evs| < 2 * |reqs| - 1
    requires evs[|evs| - 1].Call? && evs[|evs| - 1].reply.Ok?
    ensures PacedWindows(evs + [Pause(2.0)], reqs)
  {
    assert (evs + [Pause(2.0)])[..|evs|] == evs;
  }

}
