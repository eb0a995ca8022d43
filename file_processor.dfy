/** Text extraction and chunk enrichment, chatapp/file_processor.py.

    The format parsers (PDF reader, DOCX, Excel, encoding detection, the CSV
    reader) and the recursive character splitter are opaque: their outputs
    are inputs here. */
module FileProcessor {
  import opened Results
  import opened Text
  import opened Schema

  /** A chunk as the splitter hands it over; its metadata is updated in place. */
  class TextChunk {
    var pageContent: string
    var metadata: Metadata

    constructor (pageContent: string, metadata: Metadata)
      ensures this.pageContent == pageContent && this.metadata == metadata
    {
      this.pageContent := pageContent;
      this.metadata := metadata;
    }
  }

  // ---------------------------------------------------------------------------
  // Chunk enrichment

  /** The position label of chunk `i` of `n`: `i < n/3`, then `i < 2n/3`, on
      exact rationals (for chunk counts far below 2^52 the float comparison
      decides the same way). */
  function PositionLabel(i: nat, n: nat): string
  {
    if (i as real) < (n as real) / 3.0 then "beginning"
    else if (i as real) < 2.0 * (n as real) / 3.0 then "middle"
    else "end"
  }

  function PositionRank(tag: string): nat
  {
    if tag == "beginning" then 0 else if tag == "middle" then 1 else 2
  }

  /** The labels split the indices into contiguous thirds: "beginning" for
      3i < n, "middle" for n <= 3i < 2n, "end" for 2n <= 3i. */
  lemma PositionThirds(i: nat, n: nat)
    ensures PositionLabel(i, n) == "beginning" <==> 3 * i < n
    ensures PositionLabel(i, n) == "middle" <==> n <= 3 * i < 2 * n
    ensures PositionLabel(i, n) == "end" <==> 2 * n <= 3 * i
  {
    assert "beginning" != "middle" && "beginning" != "end" && "middle" != "end";
    assert (i as real) < (n as real) / 3.0 <==> 3 * i < n;
    assert (i as real) < 2.0 * (n as real) / 3.0 <==> 3 * i < 2 * n;
  }

  /** Along the chunk sequence the labels never go back. */
  lemma PositionMonotone(i: nat, j: nat, n: nat)
    requires i <= j
    ensures PositionRank(PositionLabel(i, n)) <= PositionRank(PositionLabel(j, n))
  {
    PositionThirds(i, n);
    PositionThirds(j, n);
  }

  /** `potential_header[:50]`: the first line, cut to 50 characters. */
  function Header(content: string): string
  {
    Take(FirstLine(content), 50)
  }

  /** `page_content[:100].replace("\n", " ")` */
  function Preview(content: string): string
  {
    ReplaceChar(Take(content, 100), '\n', ' ')
  }

  /** The header is the first line cut to 50 characters: a line-free prefix
      of the content that stops at 50 characters, at the end of the content
      or at the first line break. The preview has at most 100 characters, no
      line break; each line break of the content became a space, and it agrees
      with the content everywhere else. */
  lemma HeaderAndPreview(content: string)
    ensures |Header(content)| <= 50 && Header(content) <= content && '\n' !in Header(content)
    ensures |Header(content)| == 50 || |Header(content)| == |content| || content[|Header(content)|] == '\n'
    ensures forall k :: 0 <= k < |Preview(content)| && content[k] == '\n' ==> Preview(content)[k] == ' '
    ensures |Preview(content)| <= 100 && |Preview(content)| == |Take(content, 100)| && '\n' !in Preview(content)
    ensures forall k :: 0 <= k < |Preview(content)| && content[k] != '\n' ==> Preview(content)[k] == content[k]
  {
  }

  /** The metadata of chunk `i` of `n` after `metadata.update({...})`. */
  function Enriched(m: Metadata, content: string, i: nat, n: nat): Metadata
  {
    m + map["chunk_id" := MInt(i),
            "position" := MStr(PositionLabel(i, n)),
            "potential_header" := MStr(Header(content)),
            "content_preview" := MStr(Preview(content))]
  }

  const EnrichmentKeys: set<string> := {"chunk_id", "position", "potential_header", "content_preview"}

  /** The update sets the four enrichment keys and keeps every other key,
      in particular the splitter's `document_id`, `user_id` and `source`. */
  lemma EnrichedKeys(m: Metadata, content: string, i: nat, n: nat)
    ensures var e := Enriched(m, content, i, n);
      && e.Keys == m.Keys + EnrichmentKeys
      && e["chunk_id"] == MInt(i)
      && e["position"] == MStr(PositionLabel(i, n))
      && e["potential_header"] == MStr(Header(content))
      && e["content_preview"] == MStr(Preview(content))
      && (forall k :: k in m && k !in EnrichmentKeys ==> e[k] == m[k])
  {
  }

  /** `enrich_chunk_metadata`: each chunk, in order, gets its index, position,
      header and preview; the chunks themselves are returned. The chunks are
      distinct objects, as the splitter creates them. */
  method EnrichChunkMetadata(chunks: seq<TextChunk>, documentId: nat) returns (enriched: seq<TextChunk>)
    requires forall i, j :: 0 <= i < j < |chunks| ==> chunks[i] != chunks[j]
    modifies set c | c in chunks
    ensures enriched == chunks
    ensures forall i :: 0 <= i < |chunks| ==> chunks[i].pageContent == old(chunks[i].pageContent)
    ensures forall i :: 0 <= i < |chunks| ==>
              chunks[i].metadata == Enriched(old(chunks[i].metadata), old(chunks[i].pageContent), i, |chunks|)
  {
    ghost var target := seq(|chunks|, j requires 0 <= j < |chunks| reads chunks =>
                              Enriched(chunks[j].metadata, chunks[j].pageContent, j, |chunks|));
    enriched := [];
    var i := 0;
    while i < |chunks|
      invariant 0 <= i <= |chunks|
      invariant enriched == chunks[..i]
      invariant forall j :: 0 <= j < |chunks| ==>
                  && chunks[j].pageContent == old(chunks[j].pageContent)
                  && chunks[j].metadata == (if j < i then target[j] else old(chunks[j].metadata))
    {
      assert chunks[..i + 1] == chunks[..i] + [chunks[i]];
      EnrichOne(chunks[i], i, |chunks|);
      enriched := enriched + [chunks[i]];
      i := i + 1;
    }
  }

  /** The body of the enrichment loop, on chunk `i` of `n`. */
  method EnrichOne(chunk: TextChunk, i: nat, n: nat)
    modifies chunk
    ensures chunk.pageContent == old(chunk.pageContent)
    ensures chunk.metadata == Enriched(old(chunk.metadata), old(chunk.pageContent), i, n)
  {
    var potentialHeader := FirstLine(chunk.pageContent);
    var position := PositionLabel(i, n);
    chunk.metadata := chunk.metadata + map["chunk_id" := MInt(i),
                                           "position" := MStr(position),
                                           "potential_header" := MStr(Take(potentialHeader, 50)),
                                           "content_preview" := MStr(Preview(chunk.pageContent))];
  }

  /** The metadata the splitter attaches to every chunk. */
  function SplitterMetadata(documentId: nat, userId: nat): (m: Metadata)
    ensures HasString(m, "document_id", NatToString(documentId))
    ensures HasString(m, "user_id", NatToString(userId))
    ensures HasString(m, "source", "document")
  {
    map["document_id" := MStr(NatToString(documentId)),
        "user_id" := MStr(NatToString(userId)),
        "source" := MStr("document")]
  }

  /** `process_document_text`: split (the splitter is `splitter`), attach the
      owner metadata, enrich. */
  method ProcessDocumentText(text: string, documentId: nat, userId: nat, splitter: string -> seq<string>)
    returns (chunks: seq<TextChunk>)
    ensures |chunks| == |splitter(text)|
    ensures forall i :: 0 <= i < |chunks| ==> fresh(chunks[i])
    ensures forall i :: 0 <= i < |chunks| ==> chunks[i].pageContent == splitter(text)[i]
    ensures forall i :: 0 <= i < |chunks| ==>
              chunks[i].metadata == Enriched(SplitterMetadata(documentId, userId), splitter(text)[i], i, |chunks|)
  {
    var pieces := splitter(text);
    var created: seq<TextChunk> := [];
    var k := 0;
    while k < |pieces|
      invariant 0 <= k <= |pieces| && |created| == k
      invariant forall i :: 0 <= i < k ==> fresh(created[i])
      invariant forall i, j :: 0 <= i < j < k ==> created[i] != created[j]
      invariant forall i :: 0 <= i < k ==>
                  created[i].pageContent == pieces[i] && created[i].metadata == SplitterMetadata(documentId, userId)
    {
      var c := new TextChunk(pieces[k], SplitterMetadata(documentId, userId));
      created := created + [c];
      k := k + 1;
    }
    chunks := EnrichChunkMetadata(created, documentId);
  }

  // ---------------------------------------------------------------------------
  // Extension dispatch

  /** `os.path.splitext(p)[1]`: from the last dot of the last path component,
      unless only dots precede that dot in the component. */
  function SplitExt(p: string): (ext: string)
    ensures |ext| <= |p|
    ensures ext == "" || (ext[0] == '.' && ext == p[|p| - |ext|..] && '/' !in ext)
    ensures ext != "" <==> RFind(p, '.') > RFind(p, '/') && HasStem(p, RFind(p, '/') + 1, RFind(p, '.'))
    ensures ext != "" ==> ext == p[RFind(p, '.')..]
  {
    var sep := RFind(p, '/');
    var dot := RFind(p, '.');
    if dot > sep && HasStem(p, sep + 1, dot) then
      assert '/' !in p[dot..] by {
        assert p[dot..] == p[sep + 1..][dot - sep - 1..];
      }
      p[dot..]
    else ""
  }

  /** Some character of `p[lo..hi]` is not a dot. */
  predicate HasStem(p: string, lo: int, hi: int)
    requires 0 <= lo <= hi <= |p|
  {
    exists j :: lo <= j < hi && p[j] != '.'
  }

  /** A stored name `dir + base + "." + e` has extension `"." + e` whenever
      the last path component's stem `base` holds a character other than a
      dot and `e` holds no dot: the upload directory (`documents/...`) and
      further dots in the stem do not matter. */
  lemma SplitExtOfPath(dir: string, base: string, e: string)
    requires '/' !in base && '/' !in e && '.' !in e
    requires HasStem(base, 0, |base|)
    ensures SplitExt(dir + base + "." + e) == "." + e
  {
    var p := dir + base + "." + e;
    var at := |dir| + |base|;
    assert p[at] == '.';
    assert p[at + 1..] == e;
    var dot := RFind(p, '.');
    assert dot == at;
    var sep := RFind(p, '/');
    assert sep < |dir| by {
      assert forall k :: |dir| <= k < |p| ==> p[k] != '/' by {
        forall k | |dir| <= k < |p|
          ensures p[k] != '/'
        {
          if k < at {
            assert p[k] == base[k - |dir|];
          } else if k > at {
            assert p[k] == e[k - at - 1];
          }
        }
      }
    }
    var j :| 0 <= j < |base| && base[j] != '.';
    assert p[|dir| + j] == base[j];
    assert HasStem(p, sep + 1, dot);
    assert p[dot..] == "." + e;
  }

  /** The extractor `extract_content_from_file` picks. */
  datatype Extractor = Pdf | Docx | DocNotice | Excel | Csv | PlainText

  /** The dispatch on the lower-cased extension; anything unknown is read as text. */
  function ExtractorFor(extension: string): (x: Extractor)
    ensures extension !in {".pdf", ".docx", ".doc", ".xlsx", ".xls", ".csv"} <==> x == PlainText
  {
    if extension == ".pdf" then Pdf
    else if extension == ".docx" then Docx
    else if extension == ".doc" then DocNotice
    else if extension in [".xlsx", ".xls"] then Excel
    else if extension == ".csv" then Csv
    else if extension in [".txt", ".md", ".json", ".xml"] then PlainText
    else PlainText
  }

  /** What each extractor produces on the file's bytes: the text, or the
      error text when it raises. */
  datatype Readers = Readers(pdf: Result<string, string>, docx: Result<string, string>, excel: Result<string, string>,
                             csv: Result<string, string>, text: Result<string, string>)
  {
    /** The outcome of running extractor `x`; the `.doc` notice reads nothing. */
    function Run(x: Extractor): Result<string, string>
    {
      match x
      case Pdf => pdf
      case Docx => docx
      case DocNotice => Ok(DocMessage)
      case Excel => excel
      case Csv => csv
      case PlainText => text
    }
  }

  const DocMessage := "DOC format requires external conversion. Please convert to DOCX or PDF."

  /** `extract_content_from_file`. `name` is the file's name, if it has one;
      `readers.Run(x)` is what extractor `x` produces on the file's bytes, its error
      text when it raises. */
  function ExtractContentFromFile(name: Option<string>, readers: Readers): (r: Result<string, string>)
    ensures ExtractorFor(Lower(SplitExt(name.GetOr("unknown")))) == DocNotice ==> r == Ok(DocMessage)
    ensures ExtractorFor(Lower(SplitExt(name.GetOr("unknown")))) != DocNotice ==>
              var x := ExtractorFor(Lower(SplitExt(name.GetOr("unknown"))));
              (readers.Run(x).Ok? ==> r == readers.Run(x))
              && (readers.Run(x).Err? ==> r == Err("Could not extract content from " + name.GetOr("unknown") + ": " + readers.Run(x).error))
  {
    var fileName := name.GetOr("unknown");
    var extension := Lower(SplitExt(fileName));
    match ExtractorFor(extension)
    case DocNotice => Ok(DocMessage)
    case x =>
      match readers.Run(x)
      case Ok(text) => Ok(text)
      case Err(e) => Err("Could not extract content from " + fileName + ": " + e)
  }

  /** An upper-case extension is matched too: `Report.PDF` goes to the PDF reader. */
  lemma UpperCaseExtension()
    ensures ExtractorFor(Lower(SplitExt("Report.PDF"))) == Pdf
  {
    assert "Report"[0] != '.';
    SplitExtOfPath("", "Report", "PDF");
    assert "" + "Report" + "." + "PDF" == "Report.PDF";
    assert "." + "PDF" == ".PDF";
    assert Lower(".PDF") == ".pdf";
  }

  /** A `.doc` file never fails: it yields the conversion notice whatever the
      extractors do, wherever it is stored. */
  lemma DocNeverFails(dir: string, base: string, readers: Readers)
    requires '/' !in base && HasStem(base, 0, |base|)
    ensures ExtractContentFromFile(Some(dir + base + ".doc"), readers) == Ok(DocMessage)
  {
    DocExtension(dir, base);
  }

  lemma DocExtension(dir: string, base: string)
    requires '/' !in base && HasStem(base, 0, |base|)
    ensures ExtractorFor(Lower(SplitExt(dir + base + ".doc"))) == DocNotice
  {
    DocSplitExt(dir, base);
    assert Lower(".doc") == ".doc";
  }

  lemma DocSplitExt(dir: string, base: string)
    requires '/' !in base && HasStem(base, 0, |base|)
    ensures SplitExt(dir + base + ".doc") == ".doc"
  {
    SplitExtOfPath(dir, base, "doc");
    assert dir + base + "." + "doc" == dir + base + ".doc";
    assert "." + "doc" == ".doc";
  }

  /** Only the last extension counts, and a leading dot is no extension:
      both names are read as plain text. */
  lemma LastDotOnly()
    ensures ExtractorFor(Lower(SplitExt("documents/archive.tar.gz"))) == PlainText
    ensures ExtractorFor(Lower(SplitExt(".csv"))) == PlainText
  {
    assert "archive.tar"[0] != '.';
    SplitExtOfPath("documents/", "archive.tar", "gz");
    assert "documents/" + "archive.tar" + "." + "gz" == "documents/archive.tar.gz";
    assert "." + "gz" == ".gz";
    assert Lower(".gz") == ".gz";
    assert !HasStem(".csv", 0, 0);
  }

  // ---------------------------------------------------------------------------
  // CSV and PDF assembly

  /** The text of a parsed CSV: fields joined by ", ", rows by "\n". */
  function CsvText(rows: seq<seq<string>>): string
  {
    Join("\n", RowLines(rows))
  }

  function RowLines(rows: seq<seq<string>>): (lines: seq<string>)
    ensures |lines| == |rows|
    ensures forall i :: 0 <= i < |rows| ==> lines[i] == Join(", ", rows[i])
  {
    seq(|rows|, i requires 0 <= i < |rows| => Join(", ", rows[i]))
  }

  /** `extract_from_csv`: `parsed` is the reader's rows, or its failure, in
      which case `raw` (the bytes decoded with replacement) is returned. */
  method ExtractFromCsv(parsed: Result<seq<seq<string>>, string>, raw: string) returns (text: string)
    ensures parsed.Ok? ==> text == CsvText(parsed.value)
    ensures parsed.Err? ==> text == raw
  {
    if parsed.Err? {
      return raw;
    }
    var rows := parsed.value;
    var lines: seq<string> := [];
    var i := 0;
    while i < |rows|
      invariant 0 <= i <= |rows|
      invariant lines == RowLines(rows[..i])
    {
      lines := lines + [Join(", ", rows[i])];
      i := i + 1;
    }
    assert rows[..i] == rows;
    text := Join("\n", lines);
  }

  /** The CSV text gives back one line per row, when no field holds a line
      break and there is at least one row. */
  lemma CsvLinesRoundTrip(rows: seq<seq<string>>)
    requires |rows| >= 1
    requires forall i, j :: 0 <= i < |rows| && 0 <= j < |rows[i]| ==> '\n' !in rows[i][j]
    ensures Split(CsvText(rows), '\n') == RowLines(rows)
  {
    var lines := RowLines(rows);
    forall i | 0 <= i < |lines|
      ensures '\n' !in lines[i]
    {
      JoinAvoids(", ", rows[i], '\n');
    }
    SplitJoin(lines, '\n');
  }

  lemma {:induction false} JoinAvoids(sep: string, parts: seq<string>, c: char)
    requires c !in sep
    requires forall j :: 0 <= j < |parts| ==> c !in parts[j]
    ensures c !in Join(sep, parts)
    decreases |parts|
  {
    if |parts| > 1 {
      JoinAvoids(sep, parts[1..], c);
    }
  }

  /** The page texts, each followed by a line break. */
  function PagesText(pages: seq<string>): string
    decreases |pages|
  {
    if |pages| == 0 then "" else PagesText(pages[..|pages| - 1]) + pages[|pages| - 1] + "\n"
  }

  /** `extract_from_pdf`: `pages` is each page's extracted text. */
  method ExtractFromPdf(pages: seq<string>) returns (text: string)
    ensures text == Strip(PagesText(pages))
  {
    var acc := "";
    var pageNum := 0;
    while pageNum < |pages|
      invariant 0 <= pageNum <= |pages|
      invariant acc == PagesText(pages[..pageNum])
    {
      assert pages[..pageNum + 1][..pageNum] == pages[..pageNum];
      acc := acc + pages[pageNum] + "\n";
      pageNum := pageNum + 1;
    }
    assert pages[..pageNum] == pages;
    text := Strip(acc);
  }

  /** Before stripping, the PDF text is the pages joined by line breaks plus a
      final one; so it splits back into the pages when none holds a line break. */
  lemma {:induction false} PagesTextIsJoin(pages: seq<string>)
    requires |pages| >= 1
    ensures PagesText(pages) == Join("\n", pages) + "\n"
    decreases |pages|
  {
    var init := pages[..|pages| - 1];
    if |pages| == 1 {
      assert init == [];
    } else {
      PagesTextIsJoin(init);
      JoinSnoc("\n", init, pages[|pages| - 1]);
      assert init + [pages[|pages| - 1]] == pages;
    }
  }

}
