/** The persistent records of chatapp/models.py: a document with its
    processing-status fields, a chat session with its key-point memory, and
    chat messages. Database persistence is reduced to the fields themselves;
    `save()` is a method that records the status it persisted. */
module Models {
  import opened Results
  import opened Text
  import opened Schema

  /** `name.split('.')[-1].lower()`: the lower-cased last dot-separated piece. */
  function Extension(name: string): string
  {
    Lower(LastPiece(name, '.'))
  }

  /** `s.split(c)[-1]` */
  function LastPiece(s: string, c: char): string
  {
    var pieces := Split(s, c);
    pieces[|pieces| - 1]
  }

  /** The last piece of a split is everything after the last separator. */
  lemma LastPieceAfterLastSeparator(s: string, c: char)
    ensures LastPiece(s, c) == s[RFind(s, c) + 1..]
  {
    if RFind(s, c) == -1 {
      assert s[0..] == s;
    }
  }

  /** The extension is the lower-cased text after the last dot, and the
      whole lower-cased name when there is no dot. */
  lemma ExtensionAfterLastDot(name: string)
    ensures Extension(name) == Lower(name[RFind(name, '.') + 1..])
    ensures '.' !in name ==> Extension(name) == Lower(name)
  {
    LastPieceAfterLastSeparator(name, '.');
    if '.' !in name {
      assert name[RFind(name, '.') + 1..] == name;
    }
  }

  /** The fields of a document that processing reads and writes. */
  datatype DocStatus = DocStatus(content: string, isProcessed: bool, chunks: int, processingError: Option<string>,
                                 processingStatus: Option<string>, lastProcessed: Option<int>)

  /** An uploaded document. `file` is the stored file name, empty when no
      file was uploaded (a FieldFile is truthy exactly when it has a name). */
  class Document {
    const id: nat
    const uploadedBy: nat
    var title: string
    var content: string
    var file: string
    var fileType: string
    var isProcessed: bool
    var chunks: int
    var processingError: Option<string>
    var lastProcessed: Option<int>
    var processingStatus: Option<string>
    /** The processing status at each `save()`, oldest first. */
    ghost var saved: seq<Option<string>>

    /** A new document has not been processed and has no chunks. */
    constructor (id: nat, uploadedBy: nat, title: string, content: string, file: string)
      ensures this.id == id && this.uploadedBy == uploadedBy
      ensures this.title == title && this.content == content && this.file == file
      ensures fileType == "" && !isProcessed && chunks == 0
      ensures processingError == None && lastProcessed == None && processingStatus == None
      ensures saved == []
    {
      this.id := id;
      this.uploadedBy := uploadedBy;
      this.title := title;
      this.content := content;
      this.file := file;
      fileType := "";
      isProcessed := false;
      chunks := 0;
      processingError := None;
      lastProcessed := None;
      processingStatus := None;
      saved := [];
    }

    function Status(): DocStatus
      reads this
    {
      DocStatus(content, isProcessed, chunks, processingError, processingStatus, lastProcessed)
    }

    /** `get_file_extension`: None without a file. */
    function GetFileExtension(): (r: Option<string>)
      reads this
      ensures r == None <==> file == ""
      ensures r.Some? ==> r.value == Lower(file[RFind(file, '.') + 1..])
    {
      if file == "" then None
      else
        ExtensionAfterLastDot(file);
        Some(Extension(file))
    }

    /** `save`: refreshes `file_type` from the file name when there is a file,
        and persists the record. */
    method Save()
      modifies this
      ensures file != "" ==> fileType == Extension(file)
      ensures file == "" ==> fileType == old(fileType)
      ensures title == old(title) && content == old(content) && file == old(file)
      ensures isProcessed == old(isProcessed) && chunks == old(chunks)
      ensures processingError == old(processingError) && lastProcessed == old(lastProcessed)
      ensures processingStatus == old(processingStatus)
      ensures saved == old(saved) + [processingStatus]
    {
      if file != "" {
        fileType := GetFileExtension().value;
      }
      saved := saved + [processingStatus];
    }
  }

  type Memory = map<string, Json>

  /** `memory.update(key_points)` after replacing a None or empty memory
      with `{}`: new keys win, every other key is kept. */
  function MergedMemory(memory: Option<Memory>, keyPoints: Memory): (r: Memory)
    ensures r.Keys == memory.GetOr(map[]).Keys + keyPoints.Keys
    ensures forall k :: k in keyPoints ==> r[k] == keyPoints[k]
    ensures forall k :: k in memory.GetOr(map[]) && k !in keyPoints ==> r[k] == memory.GetOr(map[])[k]
  {
    memory.GetOr(map[]) + keyPoints
  }

  /** Merging into a missing or empty memory gives exactly the key points. */
  lemma MergeIntoNothing(memory: Option<Memory>, keyPoints: Memory)
    requires memory == None || memory == Some(map[])
    ensures MergedMemory(memory, keyPoints) == keyPoints
  {
  }

  /** A conversation between a user and one of their documents. */
  class ChatSession {
    const id: nat
    const user: nat
    const document: nat
    const createdAt: int
    var memory: Option<Memory>

    constructor (id: nat, user: nat, document: nat, createdAt: int)
      ensures this.id == id && this.user == user && this.document == document
      ensures this.createdAt == createdAt && memory == None
    {
      this.id := id;
      this.user := user;
      this.document := document;
      this.createdAt := createdAt;
      memory := None;
    }

    /** `update_memory` */
    method UpdateMemory(keyPoints: Memory)
      modifies this
      ensures memory == Some(MergedMemory(old(memory), keyPoints))
    {
      var base := if memory.Some? then memory.value else map[];
      memory := Some(base + keyPoints);
    }
  }

  /** A chat message row. */
  datatype Message = Message(session: nat, isUser: bool, text: string, timestamp: int)

  /** A message created without naming its author is a user message. */
  function NewMessage(session: nat, text: string, timestamp: int): (m: Message)
    ensures m.isUser && m.session == session && m.text == text && m.timestamp == timestamp
  {
    Message(session, true, text, timestamp)
  }

  /** Messages listed in the model's default order: by timestamp. */
  predicate Chronological(ms: seq<Message>)
  {
    forall i, j :: 0 <= i < j < |ms| ==> ms[i].timestamp <= ms[j].timestamp
  }

  /** A message stamped no earlier than the newest one keeps the list in order. */
  lemma {:induction false} AppendKeepsChronological(ms: seq<Message>, m: Message)
    requires Chronological(ms)
    requires ms != [] ==> ms[|ms| - 1].timestamp <= m.timestamp
    ensures Chronological(ms + [m])
  {
    var all := ms + [m];
    forall i, j | 0 <= i < j < |all|
      ensures all[i].timestamp <= all[j].timestamp
    {
      if j == |ms| && i < |ms| - 1 {
        assert ms[i].timestamp <= ms[|ms| - 1].timestamp;
      }
    }
  }
}
