/** The chunk store, chatapp/vector_store.py: sentence grouping, chunk ids and
    metadata, the per-user query filter, retriever settings and collection
    naming. The sentence tokenizer, embeddings and similarity ranking are
    opaque; the collection is an in-memory list of records. */
module VectorStore {
  import opened Results
  import opened Text
  import opened Schema
  import Prompts

  /** One stored chunk: its id, its text and its metadata. */
  datatype Record = Record(id: string, text: string, metadata: Metadata)

  // ---------------------------------------------------------------------------
  // Sentence grouping

  /** The consecutive runs of `k` sentences, the last one possibly shorter. */
  function Runs(sentences: seq<string>, k: nat): (runs: seq<seq<string>>)
    requires k > 0
    decreases |sentences|
  {
    if |sentences| == 0 then []
    else if |sentences| <= k then [sentences]
    else [sentences[..k]] + Runs(sentences[k..], k)
  }

  /** `[' '.join(sentences[i:i+k]) for i in range(0, len(sentences), k)]` */
  function GroupSentences(sentences: seq<string>, k: nat): (chunks: seq<string>)
    requires k > 0
    ensures |chunks| == |Runs(sentences, k)|
    ensures forall i :: 0 <= i < |chunks| ==> chunks[i] == Join(" ", Runs(sentences, k)[i])
  {
    var runs := Runs(sentences, k);
    seq(|runs|, i requires 0 <= i < |runs| => Join(" ", runs[i]))
  }

  function Flatten(runs: seq<seq<string>>): seq<string>
    decreases |runs|
  {
    if |runs| == 0 then [] else runs[0] + Flatten(runs[1..])
  }

  /** The runs partition the sentences in order: together they are the
      sentences, every run but the last holds exactly `k`, and the last holds
      between 1 and `k`. */
  lemma {:induction false} RunsPartition(sentences: seq<string>, k: nat)
    requires k > 0
    ensures var runs := Runs(sentences, k);
      && Flatten(runs) == sentences
      && (forall i :: 0 <= i < |runs| - 1 ==> |runs[i]| == k)
      && (|runs| > 0 ==> 1 <= |runs[|runs| - 1]| <= k)
    decreases |sentences|
  {
    if |sentences| > k {
      RunsPartition(sentences[k..], k);
      assert sentences[..k] + sentences[k..] == sentences;
    }
  }

  /** There are `ceil(len(sentences) / k)` runs: the least `c` with `c * k >= len(sentences)`. */
  lemma {:induction false} RunsCount(sentences: seq<string>, k: nat)
    requires k > 0
    ensures var c := |Runs(sentences, k)|; (c - 1) * k < |sentences| <= c * k
    decreases |sentences|
  {
    var n := |sentences|;
    if n > k {
      RunsCount(sentences[k..], k);
      var c := |Runs(sentences[k..], k)|;
      assert |Runs(sentences, k)| == c + 1;
      assert (c + 1) * k == c * k + k;
      assert c * k == (c - 1) * k + k;
    }
  }

  // ---------------------------------------------------------------------------
  // Ids and metadata

  /** `f"{document_id}_chunk_{i}"` */
  function ChunkId(documentId: string, i: nat): string
  {
    documentId + "_chunk_" + NatToString(i)
  }

  /** Chunk ids of one document are pairwise distinct. */
  lemma ChunkIdsDistinct(documentId: string, i: nat, j: nat)
    requires ChunkId(documentId, i) == ChunkId(documentId, j)
    ensures i == j
  {
    var prefix := documentId + "_chunk_";
    assert ChunkId(documentId, i)[|prefix|..] == NatToString(i);
    assert ChunkId(documentId, j)[|prefix|..] == NatToString(j);
    NatToStringInjective(i, j);
  }

  function ChunkMetadata(documentId: string, userId: string, i: nat, total: nat): Metadata
  {
    map["document_id" := MStr(documentId), "user_id" := MStr(userId),
        "chunk_index" := MInt(i), "total_chunks" := MInt(total)]
  }

  /** The records `process_document` adds for the chunks of one document. */
  function ChunkRecords(documentId: string, userId: string, chunks: seq<string>): (recs: seq<Record>)
    ensures |recs| == |chunks|
  {
    seq(|chunks|, i requires 0 <= i < |chunks| =>
      Record(ChunkId(documentId, i), chunks[i], ChunkMetadata(documentId, userId, i, |chunks|)))
  }

  /** Each record carries its chunk, its index, the chunk count and the owner;
      no two records share an id. */
  lemma ChunkRecordsShape(documentId: string, userId: string, chunks: seq<string>)
    ensures var recs := ChunkRecords(documentId, userId, chunks);
      && (forall i :: 0 <= i < |recs| ==>
            && recs[i].text == chunks[i]
            && recs[i].metadata["chunk_index"] == MInt(i)
            && recs[i].metadata["total_chunks"] == MInt(|chunks|)
            && HasString(recs[i].metadata, "document_id", documentId)
            && HasString(recs[i].metadata, "user_id", userId))
      && (forall i, j :: 0 <= i < j < |recs| ==> recs[i].id != recs[j].id)
  {
    var recs := ChunkRecords(documentId, userId, chunks);
    forall i, j | 0 <= i < j < |recs|
      ensures recs[i].id != recs[j].id
    {
      if recs[i].id == recs[j].id {
        ChunkIdsDistinct(documentId, i, j);
      }
    }
  }

  // ---------------------------------------------------------------------------
  // The per-user filter

  /** The records whose metadata `user_id` is `userId`, in store order. */
  function Matching(recs: seq<Record>, userId: string): seq<Record>
    decreases |recs|
  {
    if |recs| == 0 then []
    else
      var rest := Matching(recs[1..], userId);
      if HasString(recs[0].metadata, "user_id", userId) then [recs[0]] + rest else rest
  }

  /** The filter keeps exactly the caller's records: everything it returns is
      a stored record of that user, and every stored record of that user is
      returned. */
  lemma {:induction false} MatchingExact(recs: seq<Record>, userId: string)
    ensures forall r :: r in Matching(recs, userId) <==> r in recs && HasString(r.metadata, "user_id", userId)
    decreases |recs|
  {
    if |recs| > 0 {
      MatchingExact(recs[1..], userId);
      assert recs == [recs[0]] + recs[1..];
    }
  }

  /** What `query_chunks` returns: the texts and metadata of the hits. */
  datatype QueryResult = QueryResult(documents: seq<string>, metadatas: seq<Metadata>)

  /** `get_retriever`'s MMR settings; `lambdaTenths` is `lambda_mult` in tenths. */
  datatype RetrieverConfig = RetrieverConfig(searchType: string, k: nat, fetchK: nat, lambdaTenths: nat)

  /** `get_retriever`: broad for summaries, focused otherwise. */
  function GetRetriever(queryType: Prompts.QueryType): (c: RetrieverConfig)
    ensures c.searchType == "mmr"
  {
    if queryType == Prompts.Summarization
    then RetrieverConfig("mmr", 8, 12, 6)
    else RetrieverConfig("mmr", 5, 8, 7)
  }

  /** Every setting considers more candidates than it returns, and a summary
      retrieves more chunks, from more candidates, with more weight on
      diversity than any other query type. */
  lemma RetrieverSettings(t: Prompts.QueryType, other: Prompts.QueryType)
    requires other != Prompts.Summarization
    ensures GetRetriever(t).fetchK > GetRetriever(t).k
    ensures GetRetriever(Prompts.Summarization).k > GetRetriever(other).k
    ensures GetRetriever(Prompts.Summarization).fetchK > GetRetriever(other).fetchK
    ensures GetRetriever(Prompts.Summarization).lambdaTenths < GetRetriever(other).lambdaTenths
  {
  }

  /** The collection description `create_vectorstore` builds. */
  datatype Collection = Collection(name: string, documentId: string, userId: string, chunkCount: nat)

  /** `create_vectorstore` (the Chroma call and the timestamp left out). */
  function CreateVectorstore(chunks: seq<Passage>, documentId: nat, userId: nat): (c: Collection)
    ensures c.chunkCount == |chunks|
    ensures c.name == CollectionName(userId, documentId)
  {
    Collection(CollectionName(userId, documentId), NatToString(documentId), NatToString(userId), |chunks|)
  }

  /** `f"user_{user_id}_doc_{document_id}"` */
  function CollectionName(userId: nat, documentId: nat): string
  {
    "user_" + NatToString(userId) + "_doc_" + NatToString(documentId)
  }

  /** Distinct (user, document) pairs get distinct collections. */
  lemma CollectionNameInjective(u1: nat, d1: nat, u2: nat, d2: nat)
    requires CollectionName(u1, d1) == CollectionName(u2, d2)
    ensures u1 == u2 && d1 == d2
  {
    NameParts(u1, d1);
    NameParts(u2, d2);
    NatToStringInjective(u1, u2);
    NatToStringInjective(d1, d2);
  }

  /** After "user_", the user's digits run up to the first underscore, and
      the document's digits follow "_doc_". */
  lemma NameParts(u: nat, d: nat)
    ensures var t := CollectionName(u, d)[5..]; var a := NatToString(u);
      && Find(t, '_') == |a| && t[..|a|] == a && t[|a| + 5..] == NatToString(d)
  {
    DigitsNameParts(NatToString(u), NatToString(d));
  }

  lemma DigitsNameParts(a: string, dd: string)
    requires forall i :: 0 <= i < |a| ==> IsDigit(a[i])
    ensures var t := ("user_" + a + "_doc_" + dd)[5..];
      && Find(t, '_') == |a| && t[..|a|] == a && t[|a| + 5..] == dd
  {
    var rest := "doc_" + dd;
    var t := ("user_" + a + "_doc_" + dd)[5..];
    assert t == a + "_" + rest;
    DigitsThenUnderscore(a, rest);
    assert t[|a| + 1..] == rest;
  }

  /** In digits followed by an underscore, the first underscore ends the digits. */
  lemma DigitsThenUnderscore(digits: string, rest: string)
    requires forall i :: 0 <= i < |digits| ==> IsDigit(digits[i])
    ensures Find(digits + "_" + rest, '_') == |digits|
  {
    var s := digits + "_" + rest;
    assert s[|digits|] == '_';
    assert s[..|digits|] == digits;
  }

  /** No two records share an id. */
  predicate UniqueIds(recs: seq<Record>)
  {
    forall i, j :: 0 <= i < j < |recs| ==> recs[i].id != recs[j].id
  }

  function Ids(recs: seq<Record>): set<string>
  {
    set r | r in recs :: r.id
  }

  /** The records of `recs` whose id is not stored yet, in order: what
      `add` keeps. */
  function Unstored(recs: seq<Record>, stored: seq<Record>): seq<Record>
    decreases |recs|
  {
    if |recs| == 0 then []
    else
      var rest := Unstored(recs[..|recs| - 1], stored);
      if recs[|recs| - 1].id in Ids(stored) then rest else rest + [recs[|recs| - 1]]
  }

  /** `add` keeps exactly the records whose id is not stored yet. */
  lemma {:induction false} UnstoredMembers(recs: seq<Record>, stored: seq<Record>)
    ensures forall r :: r in Unstored(recs, stored) <==> r in recs && r.id !in Ids(stored)
    decreases |recs|
  {
    if |recs| > 0 {
      var init := recs[..|recs| - 1];
      UnstoredMembers(init, stored);
      assert recs == init + [recs[|recs| - 1]];
    }
  }

  lemma {:induction false} UnstoredUnique(recs: seq<Record>, stored: seq<Record>)
    requires UniqueIds(recs)
    ensures UniqueIds(Unstored(recs, stored))
    decreases |recs|
  {
    if |recs| > 0 {
      var init := recs[..|recs| - 1];
      var last := recs[|recs| - 1];
      assert UniqueIds(init);
      UnstoredUnique(init, stored);
      UnstoredMembers(init, stored);
      var rest := Unstored(init, stored);
      forall r | r in rest
        ensures r.id != last.id
      {
        var i :| 0 <= i < |init| && init[i] == r;
        assert recs[i] == r;
      }
    }
  }

  /** Adding chunks whose ids are distinct keeps every id stored once. */
  lemma AddKeepsIdsUnique(stored: seq<Record>, recs: seq<Record>)
    requires UniqueIds(stored) && UniqueIds(recs)
    ensures UniqueIds(stored + Unstored(recs, stored))
  {
    var u := Unstored(recs, stored);
    UnstoredUnique(recs, stored);
    UnstoredMembers(recs, stored);
    var all := stored + u;
    forall i, j | 0 <= i < j < |all|
      ensures all[i].id != all[j].id
    {
      if j >= |stored| && i < |stored| {
        assert all[j] in u;
        assert all[i] in stored;
      } else if j >= |stored| {
        assert all[i] == u[i - |stored|] && all[j] == u[j - |stored|];
      }
    }
  }

  /** A document's first processing stores every chunk: none of its ids is
      stored yet. */
  lemma FirstProcessingStoresAll(stored: seq<Record>, recs: seq<Record>)
    requires forall r :: r in recs ==> r.id !in Ids(stored)
    ensures Unstored(recs, stored) == recs
  {
    UnstoredAll(recs, stored);
  }

  lemma {:induction false} UnstoredAll(recs: seq<Record>, stored: seq<Record>)
    requires forall r :: r in recs ==> r.id !in Ids(stored)
    ensures Unstored(recs, stored) == recs
    decreases |recs|
  {
    if |recs| > 0 {
      var init := recs[..|recs| - 1];
      assert forall r :: r in init ==> r in recs;
      assert recs[|recs| - 1] in recs;
      UnstoredAll(init, stored);
    }
  }

  /** Processing the same document again adds nothing: every id is stored. */
  lemma {:induction false} ReprocessingAddsNothing(stored: seq<Record>, recs: seq<Record>)
    requires forall r :: r in recs ==> r.id in Ids(stored)
    ensures Unstored(recs, stored) == []
    decreases |recs|
  {
    if |recs| > 0 {
      var init := recs[..|recs| - 1];
      assert forall r :: r in init ==> r in recs;
      assert recs[|recs| - 1] in recs;
      ReprocessingAddsNothing(stored, init);
    }
  }

  class Store {
    var records: seq<Record>

    constructor ()
      ensures records == []
    {
      records := [];
    }

    /** `VectorStore.process_document`. `sentences` is the tokenizer's output
        for the content; `addError` is the error `collection.add` raises, if
        any. A zero `chunk_size` makes `range` raise; every error is re-raised
        and leaves the store unchanged. The collection keeps one record per id:
        `add` skips a chunk whose id is already stored (a document processed a
        second time keeps its first records), and the chunk count is returned
        either way. */
    method ProcessDocument(documentId: string, sentences: seq<string>, userId: string, chunkSize: int,
                           addError: Option<string>) returns (r: Result<nat, string>)
      modifies this
      ensures chunkSize == 0 ==> r == Err("range() arg 3 must not be zero") && records == old(records)
      ensures chunkSize != 0 && addError.Some? ==> r == Err(addError.value) && records == old(records)
      ensures chunkSize < 0 && addError.None? ==> r == Ok(0) && records == old(records)
      ensures chunkSize > 0 && addError.None? ==>
                var chunks := GroupSentences(sentences, chunkSize);
                r == Ok(|chunks|) && records == old(records) + Unstored(ChunkRecords(documentId, userId, chunks), old(records))
      ensures UniqueIds(old(records)) ==> UniqueIds(records)
    {
      if chunkSize == 0 {
        return Err("range() arg 3 must not be zero");
      }
      var chunks := if chunkSize > 0 then GroupSentences(sentences, chunkSize) else [];
      var added := ChunkRecords(documentId, userId, chunks);
      if addError.Some? {
        return Err(addError.value);
      }
      ChunkRecordsShape(documentId, userId, chunks);
      if UniqueIds(records) {
        AddKeepsIdsUnique(records, added);
      }
      records := records + Unstored(added, records);
      r := Ok(|chunks|);
    }

    /** `query_chunks`: up to `nResults` of the caller's records (the
        similarity order is not modelled: store order stands in for it).
        `queryError` is the error the collection's query raises, if any; a
        non-positive `nResults` makes the query raise as well. Every error
        gives `None`. */
    function QueryChunks(query: string, userId: string, nResults: int, queryError: Option<string>): (r: Option<QueryResult>)
      reads this
      ensures r.Some? <==> nResults > 0 && queryError.None?
      ensures r.Some? ==> |r.value.documents| == |r.value.metadatas| <= nResults
      ensures r.Some? ==> forall m :: m in r.value.metadatas ==> HasString(m, "user_id", userId)
      ensures r.Some? ==> var n := |Matching(records, userId)|;
                |r.value.documents| == if n < nResults then n else nResults
      ensures r.Some? ==> forall i :: 0 <= i < |r.value.documents| ==>
                exists rec :: rec in records && HasString(rec.metadata, "user_id", userId)
                  && r.value.documents[i] == rec.text && r.value.metadatas[i] == rec.metadata
    {
      if nResults <= 0 || queryError.Some? then None
      else
        var hits := Matching(records, userId);
        var top := if |hits| <= nResults then hits else hits[..nResults];
        MatchingExact(records, userId);
        assert forall r :: r in top ==> r in hits;
        assert forall i :: 0 <= i < |top| ==> top[i] in records && HasString(top[i].metadata, "user_id", userId);
        Some(QueryResult(seq(|top|, i requires 0 <= i < |top| => top[i].text),
                         seq(|top|, i requires 0 <= i < |top| => top[i].metadata)))
    }

    /** A user whose records number at most `nResults` gets all of them back. */
    lemma QueryReturnsAllWhenFew(query: string, userId: string, nResults: int)
      requires nResults >= |Matching(records, userId)| && nResults > 0
      ensures var r := QueryChunks(query, userId, nResults, None);
        r.Some? && |r.value.documents| == |Matching(records, userId)|
        && forall rec :: rec in records && HasString(rec.metadata, "user_id", userId) ==>
             rec.text in r.value.documents
    {
      var hits := Matching(records, userId);
      MatchingExact(records, userId);
      var r := QueryChunks(query, userId, nResults, None);
      forall rec | rec in records && HasString(rec.metadata, "user_id", userId)
        ensures rec.text in r.value.documents
      {
        var i :| 0 <= i < |hits| && hits[i] == rec;
        assert r.value.documents[i] == rec.text;
      }
    }
  }
}
