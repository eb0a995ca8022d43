/** The two views of chatapp/views.py that drive the core: one AJAX turn of
    `chat_view` (store the question, ask the API with the recent history,
    store the answer, and recover once by reprocessing the document when the
    failure looks like a missing vector store), and `reprocess_document`.

    The chat tables are a `ChatStore`. Messages are kept in the order they
    were stored, which is their timestamp order. `clock` is the time the
    database stamps on new rows. `replyFault` is the exception, if any, raised
    inside the view's `try` block after `generate_response` returns. That
    call never raises, so the fault comes from storing the reply. `fileRead`
    is what reading the stored file as UTF-8 text yields. */
module Views {
  import opened Results
  import opened Text
  import opened Schema
  import opened Models
  import opened ColabClient
  import FileProcessor
  import Tasks

  // ---------------------------------------------------------------------------
  // The chat tables

  /** A chat-session row: its user and its document. */
  datatype SessionRow = SessionRow(user: nat, document: nat)

  /** The session and message tables. The session row at index `i` has id `i`. */
  class ChatStore {
    var sessions: seq<SessionRow>
    var messages: seq<Message>

    constructor ()
      ensures sessions == [] && messages == []
    {
      sessions := [];
      messages := [];
    }

    /** `ChatSession.objects.create`: the new row's id. */
    method CreateSession(user: nat, document: nat) returns (id: nat)
      modifies this
      ensures id == |old(sessions)| && sessions == old(sessions) + [SessionRow(user, document)]
      ensures messages == old(messages)
    {
      id := |sessions|;
      sessions := sessions + [SessionRow(user, document)];
    }

    /** `ChatMessage.objects.create` */
    method AddMessage(m: Message)
      modifies this
      ensures messages == old(messages) + [m] && sessions == old(sessions)
    {
      messages := messages + [m];
    }
  }

  /** The user has a session on the document. */
  predicate HasSession(sessions: seq<SessionRow>, user: nat, document: nat)
  {
    exists i :: 0 <= i < |sessions| && sessions[i] == SessionRow(user, document)
  }

  /** The session table once the view has opened the user's latest session
      on the document, creating one when there was none. */
  function Opened(sessions: seq<SessionRow>, user: nat, document: nat): (r: seq<SessionRow>)
    ensures HasSession(r, user, document)
    ensures sessions <= r && |r| <= |sessions| + 1
  {
    if HasSession(sessions, user, document) then sessions
    else
      var r := sessions + [SessionRow(user, document)];
      assert r[|sessions|] == SessionRow(user, document);
      r
  }

  /** Opening is idempotent: a second request finds the session the first created. */
  lemma OpenedTwice(sessions: seq<SessionRow>, user: nat, document: nat)
    ensures Opened(Opened(sessions, user, document), user, document) == Opened(sessions, user, document)
  {
  }

  /** `get_object_or_404(ChatSession, id=session_id, document=document)`:
      the session exists and belongs to the document (its user is not checked). */
  predicate SessionOf(sessions: seq<SessionRow>, id: nat, document: nat)
  {
    id < |sessions| && sessions[id].document == document
  }

  // ---------------------------------------------------------------------------
  // The history sent with a question

  /** The messages of session `s`, in table order. */
  function SessionMessages(ms: seq<Message>, s: nat): (r: seq<Message>)
    ensures |r| <= |ms|
    ensures forall i :: 0 <= i < |r| ==> r[i].session == s
    ensures forall m :: m in r <==> m in ms && m.session == s
    decreases |ms|
  {
    if ms == [] then []
    else
      var last := ms[|ms| - 1];
      assert ms == ms[..|ms| - 1] + [last];
      SessionMessages(ms[..|ms| - 1], s) + if last.session == s then [last] else []
  }

  /** `xs[-n:]`: the `n` last elements, or all of them when there are fewer. */
  function Newest<T>(xs: seq<T>, n: nat): (r: seq<T>)
    ensures |r| == if |xs| < n then |xs| else n
    ensures r == xs[|xs| - |r|..]
  {
    if |xs| <= n then xs else xs[|xs| - n..]
  }

  /** A stored message as a history entry. */
  function Entry(m: Message): HistoryEntry
  {
    HistoryEntry(if m.isUser then "user" else "assistant", m.text)
  }

  function Entries(ms: seq<Message>): (h: seq<HistoryEntry>)
    ensures |h| == |ms| && forall k :: 0 <= k < |ms| ==> h[k] == Entry(ms[k])
  {
    seq(|ms|, k requires 0 <= k < |ms| => Entry(ms[k]))
  }

  /** The history sent with a question: the session's six newest messages,
      oldest first, with their roles. */
  function RecentHistory(ms: seq<Message>, s: nat): (h: seq<HistoryEntry>)
    ensures |h| <= 6
  {
    Newest(Entries(SessionMessages(ms, s)), 6)
  }

  lemma EntriesSnoc(ms: seq<Message>, m: Message)
    ensures Entries(ms + [m]) == Entries(ms) + [Entry(m)]
  {
  }

  /** Keeping the `n` newest before adding one more changes nothing. */
  lemma NewestSnoc<T>(xs: seq<T>, x: T, n: nat)
    requires n >= 1
    ensures Newest(xs + [x], n) == Newest(Newest(xs, n) + [x], n)
  {
    var ys := Newest(xs, n);
    if |xs| > n {
      assert (xs + [x])[|xs| + 1 - n..] == xs[|xs| + 1 - n..] + [x];
      assert (ys + [x])[|ys| + 1 - n..] == ys[|ys| + 1 - n..] + [x];
      assert ys[|ys| + 1 - n..] == xs[|xs| + 1 - n..];
    }
  }

  /** The session's messages once one more message is stored. */
  lemma SessionMessagesSnoc(ms: seq<Message>, m: Message, s: nat)
    ensures SessionMessages(ms + [m], s) == SessionMessages(ms, s) + if m.session == s then [m] else []
  {
    assert (ms + [m])[..|ms|] == ms;
  }

  /** The history is a sliding window: a message of the session enters it at
      the end and pushes out the oldest entry once there are six; a message of
      another session leaves it as it was. */
  lemma HistorySlides(ms: seq<Message>, m: Message, s: nat)
    ensures m.session == s ==> RecentHistory(ms + [m], s) == Newest(RecentHistory(ms, s) + [Entry(m)], 6)
    ensures m.session != s ==> RecentHistory(ms + [m], s) == RecentHistory(ms, s)
  {
    var own := SessionMessages(ms, s);
    SessionMessagesSnoc(ms, m, s);
    if m.session == s {
      EntriesSnoc(own, m);
      NewestSnoc(Entries(own), Entry(m), 6);
    }
  }

  /** The question just stored closes the history, which then holds at most
      five earlier messages, all of the same session. */
  lemma HistoryEndsWithQuestion(ms: seq<Message>, question: Message)
    requires question.isUser
    ensures var h := RecentHistory(ms + [question], question.session);
      && h != [] && h[|h| - 1] == HistoryEntry("user", question.text)
      && h[..|h| - 1] == Newest(RecentHistory(ms, question.session), 5)
  {
    HistorySlides(ms, question, question.session);
    var old6 := RecentHistory(ms, question.session);
    var h := RecentHistory(ms + [question], question.session);
    assert h == Newest(old6 + [Entry(question)], 6);
    assert h[..|h| - 1] == Newest(old6, 5) by {
      assert (old6 + [Entry(question)])[..|old6|] == old6;
    }
  }

  // ---------------------------------------------------------------------------
  // One AJAX turn of `chat_view`

  const EmptyMessageError := "Message cannot be empty"
  const ReprocessNote := "\n\n_Note: Document was automatically reprocessed to generate this response._"

  const ApologyPrefix :=
    "I'm sorry, but I couldn't answer your question. The document needed reprocessing, but the reprocessing failed. Error: "
  const GenericErrorPrefix := "I'm sorry, but I encountered an error trying to answer your question. Error: "

  function ApologyText(error: string): string
  {
    ApologyPrefix + error
  }

  function GenericErrorText(error: string): string
  {
    GenericErrorPrefix + error
  }

  const NoChunksText := "no document chunks"
  const NoStoreText := "failed to load vector store"
  const EmptyText := "empty"

  /** The failures that look like a missing vector store, in any letter case. */
  predicate TriggersReprocess(error: string)
  {
    var e := Lower(error);
    Contains(e, NoChunksText) || Contains(e, NoStoreText) || Contains(e, EmptyText)
  }

  /** "empty" anywhere in the error, in any letter case, triggers the recovery. */
  lemma EmptyAnywhereTriggers(before: string, word: string, after: string)
    requires Lower(word) == "empty"
    ensures TriggersReprocess(before + word + after)
  {
    var e := Lower(before + word + after);
    assert e[|before|..|before| + 5] == Lower(word);
    assert OccursAt(e, "empty", |before|);
  }

  /** The JSON answer of one AJAX turn. `NotFound` is the 404 page. */
  datatype TurnReply =
    | NotFound
    | Rejected(error: string)
    | Replied(success: bool, user: Message, ai: Message, reprocessed: bool)

  /** The assistant's row of a turn, before it is rendered as text. */
  datatype Row =
    | Answer(answer: string)
    | RecoveredAnswer(answer: string)
    | Apology(error: string)
    | Failure(error: string)
  {
    /** The reply's `status` is "success". */
    predicate Success()
    {
      Answer? || RecoveredAnswer?
    }

    /** The reply carries `reprocessed: True`. */
    predicate Reprocessed()
    {
      RecoveredAnswer?
    }

    /** The stored message. */
    function Text(): string
    {
      match this
      case Answer(a) => a
      case RecoveredAnswer(a) => a + ReprocessNote
      case Apology(e) => ApologyText(e)
      case Failure(e) => GenericErrorText(e)
    }
  }

  /** The assistant row, given the answer, the fault raised after it, and
      (for a fault that triggers one) the recovery's outcome. */
  function AssistantRow(answer: string, fault: Option<string>, recovery: Result<string, string>): Row
  {
    match fault
    case None => Answer(answer)
    case Some(e) =>
      if !TriggersReprocess(e) then Failure(e)
      else
        match recovery
        case Ok(a) => RecoveredAnswer(a)
        case Err(r) => Apology(r)
  }

  /** A turn succeeds exactly when nothing failed or the recovery answered;
      only a recovered turn is flagged as reprocessed and carries the note;
      a failed turn's row ends with the error it reports. */
  lemma TurnOutcomes(answer: string, fault: Option<string>, recovery: Result<string, string>)
    ensures var row := AssistantRow(answer, fault, recovery);
      && (row.Success() <==> fault.None? || (TriggersReprocess(fault.value) && recovery.Ok?))
      && (row.Reprocessed() <==> fault.Some? && TriggersReprocess(fault.value) && recovery.Ok?)
      && (fault.None? ==> row.Text() == answer)
      && (row.Reprocessed() ==> row.Text() == recovery.value + ReprocessNote)
      && (!row.Success() ==>
            var error := if TriggersReprocess(fault.value) then recovery.error else fault.value;
            |row.Text()| >= |error| && row.Text()[|row.Text()| - |error|..] == error)
  {
    var row := AssistantRow(answer, fault, recovery);
    if !row.Success() {
      var error := if TriggersReprocess(fault.value) then recovery.error else fault.value;
      if TriggersReprocess(fault.value) {
        assert row.Text() == ApologyText(error);
      } else {
        assert row.Text() == GenericErrorText(error);
      }
    }
  }

  /** The text the recovery submits: the stored content, or the file's text
      when there is no content but a file. */
  function RecoveryText(content: string, file: string, fileRead: Result<string, string>): (r: Result<string, string>)
    ensures content != "" || file == "" ==> r == Ok(content)
  {
    if content == "" && file != "" then fileRead else Ok(content)
  }

  /** The recovery cycle of a turn as the client saw it: the calls of
      `process_document` and their outcome, then the calls of the retried
      `generate_response`. */
  datatype Cycle = Cycle(processCalls: seq<Event>, processed: Result<int, ApiError>, retryCalls: seq<Event>)

  /** One recovery cycle on `text`: a read failure makes no call; otherwise
      the document is processed once, and only a success is followed by one
      retried question, sent without history. */
  ghost predicate CycleRun(c: Cycle, documentId: string, userId: string, query: string,
                           text: Result<string, string>, outcome: Result<string, string>)
  {
    match text
    case Err(e) => c.processCalls == [] && c.retryCalls == [] && outcome == Err(e)
    case Ok(t) =>
      && Tasks.DocumentRun(documentId, t, userId, c.processCalls, c.processed)
      && (c.processed.Err? ==> c.retryCalls == [] && outcome == Err(c.processed.error.Text()))
      && (c.processed.Ok? ==> outcome.Ok? && GenerateRun(c.retryCalls, query, documentId, userId, None, outcome.value))
  }

  /** A document's persistent state as the views see it. */
  datatype DocView = DocView(status: DocStatus, file: string, saved: seq<Option<string>>)

  ghost function ViewOf(doc: Document): DocView
    reads doc
  {
    DocView(doc.Status(), doc.file, doc.saved)
  }

  /** The document after a recovery: refreshed and saved once when it was
      processed, untouched otherwise. */
  ghost predicate Refreshed(d0: DocView, d1: DocView, text: Result<string, string>, processed: Result<int, ApiError>, clock: int)
  {
    if text.Ok? && processed.Ok? then
      && d1.status == d0.status.(isProcessed := true, chunks := processed.value,
                                 processingError := None, lastProcessed := Some(clock))
      && d1.file == d0.file
      && d1.saved == d0.saved + [d1.status.processingStatus]
    else
      d1 == d0
  }

  /** What follows the fault of a turn: a fault that triggers the recovery
      runs exactly one cycle, which alone may touch the document; any other
      outcome calls nothing and changes nothing. */
  ghost predicate AfterFault(d0: DocView, d1: DocView, e0: seq<Event>, e1: seq<Event>, documentId: nat, user: nat,
                             text: string, replyFault: Option<string>, fileRead: Result<string, string>, clock: int,
                             recovery: Result<string, string>, cycle: Cycle)
  {
    if replyFault.Some? && TriggersReprocess(replyFault.value) then
      var t := RecoveryText(d0.status.content, d0.file, fileRead);
      && e1 == e0 + cycle.processCalls + cycle.retryCalls
      && CycleRun(cycle, NatToString(documentId), NatToString(user), text, t, recovery)
      && Refreshed(d0, d1, t, cycle.processed, clock)
    else
      e1 == e0 && d1 == d0
  }

  /** A turn in session `sid`, from messages `m0`, document `d0` and client
      log `e0` to `m1`, `d1` and `e1`: the question went out once, with the
      recent history of the session including the question itself, and was
      answered with `answer`; then the turn is `Stored`. */
  ghost predicate Answered(m0: seq<Message>, m1: seq<Message>, d0: DocView, d1: DocView, e0: seq<Event>, e1: seq<Event>,
                           documentId: nat, user: nat, sid: nat, text: string, replyFault: Option<string>,
                           fileRead: Result<string, string>, clock: int, reply: TurnReply, answer: string,
                           first: seq<Event>, recovery: Result<string, string>, cycle: Cycle)
  {
    && GenerateRun(first, text, NatToString(documentId), NatToString(user),
                   Some(RecentHistory(m0 + [Message(sid, true, text, clock)], sid)), answer)
    && Stored(m0, m1, d0, d1, e0, e1, documentId, user, sid, text, replyFault, fileRead, clock,
              reply, answer, first, recovery, cycle)
  }

  /** The rest of a turn answered with `answer` by the calls `first`: the
      question and exactly one assistant row are stored, and `AfterFault`
      holds from the log `e0 + first`. */
  ghost predicate Stored(m0: seq<Message>, m1: seq<Message>, d0: DocView, d1: DocView, e0: seq<Event>, e1: seq<Event>,
                         documentId: nat, user: nat, sid: nat, text: string, replyFault: Option<string>,
                         fileRead: Result<string, string>, clock: int, reply: TurnReply, answer: string,
                         first: seq<Event>, recovery: Result<string, string>, cycle: Cycle)
  {
    var row := AssistantRow(answer, replyFault, recovery);
    && reply == Replied(row.Success(), Message(sid, true, text, clock), Message(sid, false, row.Text(), clock),
                        row.Reprocessed())
    && m1 == m0 + [reply.user, reply.ai]
    && AfterFault(d0, d1, e0 + first, e1, documentId, user, text, replyFault, fileRead, clock, recovery, cycle)
  }

  /** The part of `chat_view` every request runs: open the user's latest
      session on the document, creating one when there is none, and check
      the API's health. */
  method OpenView(store: ChatStore, client: Client, user: nat, document: nat)
    modifies store, client
    ensures store.sessions == Opened(old(store.sessions), user, document)
    ensures store.messages == old(store.messages)
    ensures |client.events| == |old(client.events)| + 1 && client.events[..|old(client.events)|] == old(client.events)
    ensures client.events[|old(client.events)|].Call? && client.events[|old(client.events)|].request == HealthRequest
  {
    if !HasSession(store.sessions, user, document) {
      var _ := store.CreateSession(user, document);
    }
    var _, _ := client.CheckHealth();
  }

  /** The turn once the view has opened the session table `s0`: an empty or
      all-blank `text` is refused and an unknown session is a 404, and neither
      stores or calls anything; otherwise a session named by `sessionId` is
      used as is, a new one is created when none is named, and the turn is
      `Answered` in it. */
  ghost predicate Conversed(s0: seq<SessionRow>, s1: seq<SessionRow>, m0: seq<Message>, m1: seq<Message>,
                            d0: DocView, d1: DocView, e0: seq<Event>, e1: seq<Event>, documentId: nat, user: nat,
                            text: string, sessionId: Option<nat>, replyFault: Option<string>,
                            fileRead: Result<string, string>, clock: int, reply: TurnReply, answer: string,
                            first: seq<Event>, recovery: Result<string, string>, cycle: Cycle)
  {
    if text == "" then
      reply == Rejected(EmptyMessageError) && s1 == s0 && m1 == m0 && d1 == d0 && e1 == e0
    else if sessionId.Some? && !SessionOf(s0, sessionId.value, documentId) then
      reply == NotFound && s1 == s0 && m1 == m0 && d1 == d0 && e1 == e0
    else
      var sid := if sessionId.Some? then sessionId.value else |s0|;
      && s1 == (if sessionId.Some? then s0 else s0 + [SessionRow(user, documentId)])
      && reply.Replied? && reply.user.session == sid
      && Answered(m0, m1, d0, d1, e0, e1, documentId, user, sid, text, replyFault, fileRead, clock,
                  reply, answer, first, recovery, cycle)
  }

  /** One AJAX POST to `chat_view` by `user` on `doc`. A document of another
      user is a 404 before anything happens. Otherwise the view opens a
      session and checks health, and the rest of the turn is `Conversed` on
      the stripped message. */
  method ChatTurn(store: ChatStore, doc: Document, client: Client, user: nat, message: string,
                  sessionId: Option<nat>, replyFault: Option<string>, fileRead: Result<string, string>, clock: int)
    returns (reply: TurnReply, ghost answer: string, ghost first: seq<Event>,
             ghost recovery: Result<string, string>, ghost cycle: Cycle)
    modifies store, doc, client
    ensures doc.uploadedBy != user ==> reply == NotFound && unchanged(store, doc, client)
    ensures doc.uploadedBy == user ==>
      && |client.events| > |old(client.events)| && client.events[..|old(client.events)|] == old(client.events)
      && client.events[|old(client.events)|].Call? && client.events[|old(client.events)|].request == HealthRequest
      && Conversed(Opened(old(store.sessions), user, doc.id), store.sessions, old(store.messages), store.messages,
                   old(ViewOf(doc)), ViewOf(doc), client.events[..|old(client.events)| + 1], client.events,
                   doc.id, user, Strip(message), sessionId, replyFault, fileRead, clock,
                   reply, answer, first, recovery, cycle)
  {
    if doc.uploadedBy != user {
      return NotFound, "", [], Err(""), Cycle([], Err(Timeout("")), []);
    }
    OpenView(store, client, user, doc.id);
    ghost var d1, e1 := ViewOf(doc), client.events;
    assert d1 == old(ViewOf(doc));
    reply, answer, first, recovery, cycle := Converse(store, doc, client, user, Strip(message), sessionId,
                                                      replyFault, fileRead, clock);
    assert client.events[..|e1|] == e1;
  }

  /** The turn after `OpenView`, as `Conversed` describes it. */
  method Converse(store: ChatStore, doc: Document, client: Client, user: nat, text: string, sessionId: Option<nat>,
                  replyFault: Option<string>, fileRead: Result<string, string>, clock: int)
    returns (reply: TurnReply, ghost answer: string, ghost first: seq<Event>,
             ghost recovery: Result<string, string>, ghost cycle: Cycle)
    modifies store, doc, client
    ensures |client.events| >= |old(client.events)| && client.events[..|old(client.events)|] == old(client.events)
    ensures Conversed(old(store.sessions), store.sessions, old(store.messages), store.messages,
                      old(ViewOf(doc)), ViewOf(doc), old(client.events), client.events, doc.id, user, text, sessionId,
                      replyFault, fileRead, clock, reply, answer, first, recovery, cycle)
  {
    if text == "" {
      return Rejected(EmptyMessageError), "", [], Err(""), Cycle([], Err(Timeout("")), []);
    }
    var sid: nat;
    if sessionId.Some? {
      if !SessionOf(store.sessions, sessionId.value, doc.id) {
        return NotFound, "", [], Err(""), Cycle([], Err(Timeout("")), []);
      }
      sid := sessionId.value;
    } else {
      sid := store.CreateSession(user, doc.id);
    }
    ghost var s1 := store.sessions;
    reply, answer, first, recovery, cycle := AnswerTurn(store, doc, client, user, sid, text, replyFault, fileRead, clock);
    FaultExtends(old(ViewOf(doc)), ViewOf(doc), old(client.events), first, client.events, doc.id, user, text,
                 replyFault, fileRead, clock, recovery, cycle);
  }

  /** What follows the fault only appends to the client's log. */
  lemma FaultExtends(d0: DocView, d1: DocView, e0: seq<Event>, first: seq<Event>, e1: seq<Event>, documentId: nat,
                     user: nat, text: string, replyFault: Option<string>, fileRead: Result<string, string>, clock: int,
                     recovery: Result<string, string>, cycle: Cycle)
    requires AfterFault(d0, d1, e0 + first, e1, documentId, user, text, replyFault, fileRead, clock, recovery, cycle)
    ensures |e1| >= |e0| && e1[..|e0|] == e0
  {
    if replyFault.Some? && TriggersReprocess(replyFault.value) {
      assert e1 == e0 + first + cycle.processCalls + cycle.retryCalls;
    } else {
      assert e1 == e0 + first;
    }
  }

  /** The turn in session `sid`: store the question, ask with the recent
      history, then store one assistant row, recovering first when the fault
      asks for it. */
  method AnswerTurn(store: ChatStore, doc: Document, client: Client, user: nat, sid: nat, text: string,
                    replyFault: Option<string>, fileRead: Result<string, string>, clock: int)
    returns (reply: TurnReply, ghost answer: string, ghost first: seq<Event>,
             ghost recovery: Result<string, string>, ghost cycle: Cycle)
    modifies store, doc, client
    ensures store.sessions == old(store.sessions)
    ensures Answered(old(store.messages), store.messages, old(ViewOf(doc)), ViewOf(doc), old(client.events), client.events,
                     doc.id, user, sid, text, replyFault, fileRead, clock, reply, answer, first, recovery, cycle)
  {
    ghost var m0, d0 := store.messages, ViewOf(doc);
    var question, a;
    question, a, first := Ask(store, client, doc.id, user, sid, text, clock);
    answer := a;
    assert ViewOf(doc) == d0;
    reply, recovery, cycle := Conclude(store, doc, client, user, sid, text, a, replyFault, fileRead, clock,
                                       m0, old(client.events), first);
  }

  /** The rest of a turn once the question is stored after `m0` and the calls
      `first` after `e0` have answered it with `answer`: handle the fault,
      store the assistant row. */
  method Conclude(store: ChatStore, doc: Document, client: Client, user: nat, sid: nat, text: string, answer: string,
                  replyFault: Option<string>, fileRead: Result<string, string>, clock: int,
                  ghost m0: seq<Message>, ghost e0: seq<Event>, ghost first: seq<Event>)
    returns (reply: TurnReply, ghost recovery: Result<string, string>, ghost cycle: Cycle)
    requires store.messages == m0 + [Message(sid, true, text, clock)]
    requires client.events == e0 + first
    modifies store, doc, client
    ensures store.sessions == old(store.sessions)
    ensures Stored(m0, store.messages, old(ViewOf(doc)), ViewOf(doc), e0, client.events,
                     doc.id, user, sid, text, replyFault, fileRead, clock, reply, answer, first, recovery, cycle)
  {
    ghost var d0 := ViewOf(doc);
    var row;
    row, recovery, cycle := HandleFault(doc, client, answer, text, user, replyFault, fileRead, clock);
    ghost var d2, e2 := ViewOf(doc), client.events;
    var ai := Message(sid, false, row.Text(), clock);
    store.AddMessage(ai);
    reply := Replied(row.Success(), Message(sid, true, text, clock), ai, row.Reprocessed());
    assert ViewOf(doc) == d2 && client.events == e2;
    StoredFrom(m0, store.messages, d0, d2, e0, e2, doc.id, user, sid, text, replyFault, fileRead, clock,
               reply, answer, first, recovery, cycle, row);
  }

  /** `Stored`, from the facts the steps of a turn establish. */
  lemma StoredFrom(m0: seq<Message>, m1: seq<Message>, d0: DocView, d1: DocView, e0: seq<Event>, e1: seq<Event>,
                   documentId: nat, user: nat, sid: nat, text: string, replyFault: Option<string>,
                   fileRead: Result<string, string>, clock: int, reply: TurnReply, answer: string,
                   first: seq<Event>, recovery: Result<string, string>, cycle: Cycle, row: Row)
    requires row == AssistantRow(answer, replyFault, recovery)
    requires reply == Replied(row.Success(), Message(sid, true, text, clock), Message(sid, false, row.Text(), clock), row.Reprocessed())
    requires m1 == m0 + [reply.user, reply.ai]
    requires AfterFault(d0, d1, e0 + first, e1, documentId, user, text, replyFault, fileRead, clock, recovery, cycle)
    ensures Stored(m0, m1, d0, d1, e0, e1, documentId, user, sid, text, replyFault, fileRead, clock,
                   reply, answer, first, recovery, cycle)
  {
  }

  /** Store the question and ask it with the session's recent history. */
  method Ask(store: ChatStore, client: Client, document: nat, user: nat, sid: nat, text: string, clock: int)
    returns (question: Message, answer: string, ghost first: seq<Event>)
    modifies store, client
    ensures question == Message(sid, true, text, clock)
    ensures store.sessions == old(store.sessions) && store.messages == old(store.messages) + [question]
    ensures client.events == old(client.events) + first
    ensures GenerateRun(first, text, NatToString(document), NatToString(user),
                        Some(RecentHistory(old(store.messages) + [question], sid)), answer)
  {
    question := Message(sid, true, text, clock);
    store.AddMessage(question);
    var history := RecentHistory(store.messages, sid);
    answer := client.GenerateResponse(text, NatToString(document), NatToString(user), Some(history));
    first := client.events[|old(client.events)|..];
  }

  /** The assistant row once the answer is known and storing it raised
      `replyFault` (if anything): the answer itself, the recovery's answer
      with the note or its apology, or the generic error. */
  method HandleFault(doc: Document, client: Client, answer: string, text: string, user: nat,
                     replyFault: Option<string>, fileRead: Result<string, string>, clock: int)
    returns (row: Row, ghost recovery: Result<string, string>, ghost cycle: Cycle)
    modifies doc, client
    ensures row == AssistantRow(answer, replyFault, recovery)
    ensures AfterFault(old(ViewOf(doc)), ViewOf(doc), old(client.events), client.events, doc.id, user,
                       text, replyFault, fileRead, clock, recovery, cycle)
  {
    recovery := Err("");
    cycle := Cycle([], Err(Timeout("")), []);
    if replyFault.None? {
      row := Answer(answer);
    } else if TriggersReprocess(replyFault.value) {
      var outcome;
      outcome, cycle := Recover(doc, client, text, user, fileRead, clock);
      recovery := outcome;
      if outcome.Ok? {
        row := RecoveredAnswer(outcome.value);
      } else {
        row := Apology(outcome.error);
      }
    } else {
      row := Failure(replyFault.value);
    }
  }

  /** The auto-reprocess cycle: read the file when the document has no
      content, process the text, refresh and save the document, and ask
      again without history. The first failure ends the cycle with its text. */
  method Recover(doc: Document, client: Client, query: string, user: nat, fileRead: Result<string, string>, clock: int)
    returns (outcome: Result<string, string>, ghost cycle: Cycle)
    modifies doc, client
    ensures client.events == old(client.events) + cycle.processCalls + cycle.retryCalls
    ensures CycleRun(cycle, NatToString(doc.id), NatToString(user), query,
                     RecoveryText(old(doc.content), old(doc.file), fileRead), outcome)
    ensures Refreshed(old(ViewOf(doc)), ViewOf(doc), RecoveryText(old(doc.content), old(doc.file), fileRead),
                      cycle.processed, clock)
  {
    cycle := Cycle([], Err(Timeout("")), []);
    var content := doc.content;
    if content == "" && doc.file != "" {
      if fileRead.Err? {
        return fileRead, cycle;
      }
      content := fileRead.value;
    }
    var processed, processCalls := Process(client, doc.id, content, user);
    if processed.Err? {
      return Err(processed.error.Text()), Cycle(processCalls, processed, []);
    }
    Refresh(doc, processed.value, clock);
    ghost var e1 := client.events;
    var answer := client.GenerateResponse(query, NatToString(doc.id), NatToString(user), None);
    cycle := Cycle(processCalls, processed, client.events[|e1|..]);
    outcome := Ok(answer);
  }

  /** `process_document` on `content`, as `Tasks.DocumentRun` describes it. */
  method Process(client: Client, document: nat, content: string, user: nat)
    returns (processed: Result<int, ApiError>, ghost calls: seq<Event>)
    modifies client
    ensures client.events == old(client.events) + calls
    ensures Tasks.DocumentRun(NatToString(document), content, NatToString(user), calls, processed)
  {
    processed := client.ProcessDocument(NatToString(document), content, NatToString(user));
    calls := client.events[|old(client.events)|..];
  }

  /** The document's refresh after a successful recovery. */
  method Refresh(doc: Document, chunks: int, clock: int)
    modifies doc
    ensures doc.Status() == old(doc.Status()).(isProcessed := true, chunks := chunks,
                                                 processingError := None, lastProcessed := Some(clock))
    ensures doc.file == old(doc.file) && doc.saved == old(doc.saved) + [doc.processingStatus]
  {
    doc.isProcessed := true;
    doc.chunks := chunks;
    doc.lastProcessed := Some(clock);
    doc.processingError := None;
    doc.Save();
  }

  // ---------------------------------------------------------------------------
  // `reprocess_document`

  /** The flash message shown on the documents page. */
  datatype Flash = ErrorFlash(text: string) | WarningFlash(text: string) | SuccessFlash(text: string)

  /** Where the view sends the browser. */
  datatype Page = NotFoundPage | ToDocuments(flash: Flash)

  const StartingStatus := "Starting reprocessing..."
  const NoContentError := "No content found in the document."
  const ServiceDownWarning := "The AI service is currently unavailable. Please check the API status."
  const NoChunksWarning := "Document processed but no chunks were created. This might indicate an issue."

  /** The text reprocessing works on: the stored file's extracted text when
      there is a file, the stored content otherwise. A failed extraction is the
      error the view flashes. */
  function ReprocessSource(content: string, file: string, readers: FileProcessor.Readers): (r: Result<string, string>)
    ensures file == "" ==> r == Ok(content)
  {
    if file == "" then Ok(content)
    else
      match FileProcessor.ExtractContentFromFile(Some(file), readers)
      case Ok(t) => Ok(t)
      case Err(e) => Err("Could not read file: " + e)
  }

  /** The status fields once reprocessing has started. */
  function ResetStatus(s: DocStatus): DocStatus
  {
    s.(isProcessed := false, chunks := 0, processingError := None, processingStatus := Some(StartingStatus))
  }

  /** The status fields once `process_document` has answered. */
  function Recorded(s: DocStatus, result: Result<int, ApiError>, clock: int): DocStatus
  {
    match result
    case Ok(n) => s.(isProcessed := true, chunks := n, processingStatus := Some(Complete), lastProcessed := Some(clock))
    case Err(e) => s.(processingError := Some(e.Text()), processingStatus := Some("Failed: " + e.Text()))
  }

  /** The status fields from the reset to the outcome of `process_document`. */
  function Reprocessed(s: DocStatus, result: Result<int, ApiError>, clock: int): DocStatus
  {
    Recorded(ResetStatus(s), result, clock)
  }

  const Complete := "Complete"

  /** The flash once `process_document` has answered. */
  function ReprocessFlash(result: Result<int, ApiError>): Flash
  {
    match result
    case Ok(n) =>
      if n > 0 then SuccessFlash("Document reprocessed successfully! Created " + IntToString(n) + " chunks.")
      else WarningFlash(NoChunksWarning)
    case Err(e) => ErrorFlash("Error processing document: " + e.Text())
  }

  /** A reprocessed document is processed exactly when the API succeeded,
      and then holds the returned chunk count; a failure leaves it
      unprocessed with no chunks and records the error. Only a success with
      chunks flashes success. */
  lemma ReprocessOutcomes(s: DocStatus, result: Result<int, ApiError>, clock: int)
    ensures var t := Reprocessed(s, result, clock);
      && t.content == s.content
      && (t.isProcessed <==> result.Ok?)
      && (t.processingStatus == Some(Complete) <==> result.Ok?)
      && (result.Ok? ==> t.chunks == result.value && t.processingError == None && t.lastProcessed == Some(clock))
      && (result.Err? ==>
            && t.chunks == 0 && t.processingError == Some(result.error.Text())
            && t.lastProcessed == s.lastProcessed
            && t.processingStatus.value[..8] == "Failed: ")
      && (ReprocessFlash(result).SuccessFlash? <==> result.Ok? && result.value > 0)
  {
    if result.Err? {
      var st := Reprocessed(s, result, clock).processingStatus.value;
      assert st[0] == 'F' != Complete[0];
    }
  }

  /** `reprocess_document` by `user` on `doc`. A document of another user is
      a 404. A file that cannot be read, empty content, or an unhealthy API
      redirect with a flash and leave the status fields as they were.
      Otherwise the status is reset, the text processed once, and the
      outcome recorded as `Reprocessed`. */
  method ReprocessDocument(doc: Document, client: Client, user: nat, readers: FileProcessor.Readers, clock: int)
    returns (page: Page, result: Result<int, ApiError>)
    modifies doc, client
    ensures doc.uploadedBy != user ==> page == NotFoundPage && unchanged(doc, client)
    ensures doc.uploadedBy == user ==> page.ToDocuments? && doc.file == old(doc.file)
    ensures doc.uploadedBy == user ==>
      var src := ReprocessSource(old(doc.content), old(doc.file), readers);
      && (src.Err? ==>
            page.flash == ErrorFlash(src.error) && doc.Status() == old(doc.Status()) && client.events == old(client.events))
      && (src == Ok("") ==>
            && page.flash == ErrorFlash(NoContentError) && doc.Status() == old(doc.Status()).(content := "")
            && client.events == old(client.events))
      && (src.Ok? && src.value != "" ==> HealthChecked(old(client.events), client.events))
    ensures doc.uploadedBy == user ==>
      var src := ReprocessSource(old(doc.content), old(doc.file), readers);
      var n := |old(client.events)|;
      src.Ok? && src.value != "" && !HealthVerdict(client.events[n].reply).0 ==>
        && page.flash == WarningFlash(ServiceDownWarning) && |client.events| == n + 1
        && doc.Status() == old(doc.Status()).(content := src.value)
    ensures doc.uploadedBy == user ==>
      var src := ReprocessSource(old(doc.content), old(doc.file), readers);
      var n := |old(client.events)|;
      src.Ok? && src.value != "" && HealthVerdict(client.events[n].reply).0 ==>
        && page.flash == ReprocessFlash(result)
        && Tasks.DocumentRun(NatToString(doc.id), src.value, NatToString(user), client.events[n + 1..], result)
        && doc.Status() == Reprocessed(old(doc.Status()).(content := src.value), result, clock)
        && |doc.saved| >= 2 && doc.saved[|doc.saved| - 2..] == [Some(StartingStatus), doc.processingStatus]
  {
    result := Err(Timeout(""));
    if doc.uploadedBy != user {
      return NotFoundPage, result;
    }
    var src := LoadContent(doc, readers);
    if src.Err? {
      return ToDocuments(ErrorFlash(src.error)), result;
    }
    if src.value == "" {
      return ToDocuments(ErrorFlash(NoContentError)), result;
    }
    page, result := Resubmit(doc, client, src.value, clock);
  }

  /** The text to reprocess: a document with a file is re-extracted, and
      the text is stored as its content and saved. */
  method LoadContent(doc: Document, readers: FileProcessor.Readers) returns (src: Result<string, string>)
    modifies doc
    ensures src == ReprocessSource(old(doc.content), old(doc.file), readers)
    ensures doc.file == old(doc.file)
    ensures src.Ok? ==> doc.Status() == old(doc.Status()).(content := src.value)
    ensures src.Err? ==> doc.Status() == old(doc.Status())
  {
    if doc.file == "" {
      return Ok(doc.content);
    }
    var extracted := FileProcessor.ExtractContentFromFile(Some(doc.file), readers);
    if extracted.Err? {
      return Err("Could not read file: " + extracted.error);
    }
    doc.content := extracted.value;
    doc.Save();
    src := Ok(extracted.value);
  }

  /** The health check opened `e1` after `e0`; its verdict. */
  ghost predicate HealthChecked(e0: seq<Event>, e1: seq<Event>)
  {
    |e1| > |e0| && e1[..|e0|] == e0 && e1[|e0|].Call? && e1[|e0|].request == HealthRequest
  }

  /** The part of `reprocess_document` after the text is known and not empty:
      the health check, then the reset, one `process_document` and the
      outcome. */
  method Resubmit(doc: Document, client: Client, content: string, clock: int)
    returns (page: Page, result: Result<int, ApiError>)
    requires doc.content == content
    modifies doc, client
    ensures doc.file == old(doc.file) && doc.content == content && page.ToDocuments?
    ensures HealthChecked(old(client.events), client.events)
    ensures var n := |old(client.events)|;
      !HealthVerdict(client.events[n].reply).0 ==>
        && page.flash == WarningFlash(ServiceDownWarning) && |client.events| == n + 1
        && doc.Status() == old(doc.Status())
    ensures var n := |old(client.events)|;
      HealthVerdict(client.events[n].reply).0 ==>
        && page.flash == ReprocessFlash(result)
        && Tasks.DocumentRun(NatToString(doc.id), content, NatToString(doc.uploadedBy), client.events[n + 1..], result)
        && doc.Status() == Reprocessed(old(doc.Status()), result, clock)
        && |doc.saved| >= 2 && doc.saved[|doc.saved| - 2..] == [Some(StartingStatus), doc.processingStatus]
  {
    result := Err(Timeout(""));
    var healthy, _ := client.CheckHealth();
    if !healthy {
      return ToDocuments(WarningFlash(ServiceDownWarning)), result;
    }
    ghost var e1 := client.events;
    ResetForReprocess(doc);
    ghost var calls;
    result, calls := Process(client, doc.id, content, doc.uploadedBy);
    assert client.events[|e1|..] == calls;
    RecordReprocess(doc, result, clock);
    page := ToDocuments(ReprocessFlash(result));
  }

  /** The reset before processing, saved. */
  method ResetForReprocess(doc: Document)
    modifies doc
    ensures doc.Status() == ResetStatus(old(doc.Status()))
    ensures doc.file == old(doc.file) && doc.saved == old(doc.saved) + [Some(StartingStatus)]
  {
    doc.isProcessed := false;
    doc.chunks := 0;
    doc.processingError := None;
    doc.processingStatus := Some(StartingStatus);
    doc.Save();
  }

  /** The outcome of processing, saved. */
  method RecordReprocess(doc: Document, result: Result<int, ApiError>, clock: int)
    modifies doc
    ensures doc.Status() == Recorded(old(doc.Status()), result, clock)
    ensures doc.file == old(doc.file) && doc.saved == old(doc.saved) + [doc.processingStatus]
  {
    if result.Ok? {
      doc.isProcessed := true;
      doc.chunks := result.value;
      doc.processingStatus := Some(Complete);
      doc.lastProcessed := Some(clock);
    } else {
      doc.processingError := Some(result.error.Text());
      doc.processingStatus := Some("Failed: " + result.error.Text());
    }
    doc.Save();
  }
}
