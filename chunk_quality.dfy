/** Chunk statistics of chatapp/debug.py (`evaluate_chunk_quality`).

    As written, the function's first statement imports `get_vectorstore` from
    the vector-store module, which defines no such name, so every call fails
    with an ImportError before anything is computed. `EvaluateAsWritten`
    models that; `EvaluateChunkQuality` is the evidently intended
    computation, given the stored chunk texts (or None when there is no
    vector store). */
module ChunkQuality {
  import opened Results
  import opened Text

  /** The names chatapp/vector_store.py defines at module level. */
  const VectorStoreNames: set<string> := {
    "chromadb", "Settings", "os", "uuid", "logging", "sent_tokenize", "datetime",
    "logger", "VectorStore", "get_retriever", "create_vectorstore"
  }

  /** The message of the ImportError for a missing name. Python appends the
      module's file path in parentheses, which depends on where the program is
      installed; only the part before it is modelled. */
  function ImportErrorText(name: string): string
  {
    "cannot import name '" + name + "' from 'chatapp.vector_store'"
  }

  /** `from .vector_store import name` */
  function ImportFromVectorStore(name: string): (r: Result<(), string>)
    ensures r.Ok? <==> name in VectorStoreNames
  {
    if name in VectorStoreNames then Ok(())
    else Err(ImportErrorText(name))
  }

  /** The four statistics. `avgChunkLength` is the exact quotient. */
  datatype Stats = Stats(totalChunks: nat, avgChunkLength: real, emptyChunks: nat, shortChunks: nat)

  const NoStats := Stats(0, 0.0, 0, 0)

  datatype Report =
    | Failed(error: string, stats: Stats)
    | Succeeded(stats: Stats, sampleChunks: seq<string>)

  /** The summed length of the chunks. */
  function TotalLength(docs: seq<string>): nat
    decreases |docs|
  {
    if |docs| == 0 then 0 else TotalLength(docs[..|docs| - 1]) + |docs[|docs| - 1]|
  }

  /** The number of empty chunks. */
  function CountEmpty(docs: seq<string>): nat
    decreases |docs|
  {
    if |docs| == 0 then 0 else CountEmpty(docs[..|docs| - 1]) + (if docs[|docs| - 1] == "" then 1 else 0)
  }

  /** The number of chunks of 1 to 99 characters. */
  function CountShort(docs: seq<string>): nat
    decreases |docs|
  {
    if |docs| == 0 then 0
    else CountShort(docs[..|docs| - 1]) + (if 0 < |docs[|docs| - 1]| < 100 then 1 else 0)
  }

  /** The report for the stored chunks, `None` when there is no vector store. */
  function QualityReport(store: Option<seq<string>>): Report
  {
    match store
    case None => Failed("Vector store not found", NoStats)
    case Some(docs) =>
      if docs == [] then Failed("No chunks found", NoStats)
      else
        var n := |docs|;
        Succeeded(Stats(n, TotalLength(docs) as real / n as real, CountEmpty(docs), CountShort(docs)),
                  docs[..if n < 3 then n else 3])
  }

  /** Empty and short chunks are disjoint classes of chunks: together there
      are no more of them than chunks. */
  lemma {:induction false} EmptyAndShortBounded(docs: seq<string>)
    ensures CountEmpty(docs) + CountShort(docs) <= |docs|
    decreases |docs|
  {
    if |docs| > 0 {
      EmptyAndShortBounded(docs[..|docs| - 1]);
    }
  }

  /** Chunks of 100 characters or more fall in neither class. */
  lemma {:induction false} LongChunksNotCounted(docs: seq<string>)
    requires forall i :: 0 <= i < |docs| ==> |docs[i]| >= 100
    ensures CountEmpty(docs) == 0 && CountShort(docs) == 0
    decreases |docs|
  {
    if |docs| > 0 {
      LongChunksNotCounted(docs[..|docs| - 1]);
    }
  }

  /** The two error reports, and the content of a successful one. */
  lemma QualityReportCases(store: Option<seq<string>>)
    ensures store == None <==> QualityReport(store) == Failed("Vector store not found", NoStats)
    ensures store == Some([]) <==> QualityReport(store) == Failed("No chunks found", NoStats)
    ensures store.Some? && store.value != [] ==>
      var docs := store.value;
      var r := QualityReport(store);
      && r.Succeeded?
      && r.stats.totalChunks == |docs|
      && r.stats.avgChunkLength * |docs| as real == TotalLength(docs) as real
      && r.stats.emptyChunks + r.stats.shortChunks <= r.stats.totalChunks
      && |r.sampleChunks| == (if |docs| < 3 then |docs| else 3)
      && r.sampleChunks <= docs
  {
    if store.Some? && store.value != [] {
      EmptyAndShortBounded(store.value);
    }
  }

  /** `evaluate_chunk_quality` as written: the import fails on every call. */
  function EvaluateAsWritten(documentId: nat, userId: nat, lookup: (nat, nat) -> Option<seq<string>>): Result<Report, string>
  {
    match ImportFromVectorStore("get_vectorstore")
    case Err(e) => Err(e)
    case Ok(_) => Ok(QualityReport(lookup(documentId, userId)))
  }

  /** Whatever the store holds, the as-written function raises. */
  lemma AsWrittenAlwaysFails(documentId: nat, userId: nat, lookup: (nat, nat) -> Option<seq<string>>)
    ensures EvaluateAsWritten(documentId, userId, lookup)
            == Err(ImportErrorText("get_vectorstore"))
  {
    assert "get_vectorstore" !in VectorStoreNames by {
      assert |"get_vectorstore"| == 15;
      assert "get_vectorstore"[0] != "Settings"[0];
    }
  }

  /** The loop of `evaluate_chunk_quality` over the stored chunks. */
  method EvaluateChunkQuality(store: Option<seq<string>>) returns (report: Report)
    ensures report == QualityReport(store)
  {
    if store.None? {
      return Failed("Vector store not found", NoStats);
    }
    var docs := store.value;
    if |docs| == 0 {
      return Failed("No chunks found", NoStats);
    }
    var totalLength, emptyCount, shortCount := 0, 0, 0;
    var i := 0;
    while i < |docs|
      invariant 0 <= i <= |docs|
      invariant totalLength == TotalLength(docs[..i])
      invariant emptyCount == CountEmpty(docs[..i]) && shortCount == CountShort(docs[..i])
    {
      var length := |docs[i]|;
      assert docs[..i + 1][..i] == docs[..i];
      totalLength := totalLength + length;
      if length == 0 {
        emptyCount := emptyCount + 1;
      } else if length < 100 {
        shortCount := shortCount + 1;
      }
      i := i + 1;
    }
    assert docs[..|docs|] == docs;
    var n := |docs|;
    var stats := Stats(n, totalLength as real / n as real, emptyCount, shortCount);
    report := Succeeded(stats, docs[..if n < 3 then n else 3]);
  }
}
