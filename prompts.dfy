/** Query planning and context/prompt composition: the module-level functions
    of chatapp/colab_client.py (`detect_query_type`, `enhance_query`,
    `format_context_for_llm`, `get_enhanced_prompt`). All are pure string
    functions. */
module Prompts {
  import opened Text
  import opened Schema

  datatype QueryType = Summarization | Comparison | Listing | Default

  const SummarizationTerms: seq<string> :=
    ["summarize", "summary", "summarization", "overview", "key points", "main ideas", "brief me"]
  const ComparisonTerms: seq<string> := ["compare", "difference", "versus", "similarities"]
  const ListingTerms: seq<string> := ["list", "enumerate", "what are"]

  /** `any(term in q for term in terms)` */
  predicate MentionsAny(q: string, terms: seq<string>)
  {
    exists i :: 0 <= i < |terms| && Contains(q, terms[i])
  }

  /** Keyword classification of the lower-cased query; the first matching
      category in the order summarization, comparison, listing wins. */
  function DetectQueryType(query: string): QueryType
  {
    var q := Lower(query);
    if MentionsAny(q, SummarizationTerms) then Summarization
    else if MentionsAny(q, ComparisonTerms) then Comparison
    else if MentionsAny(q, ListingTerms) then Listing
    else Default
  }

  /** The classification is a fixed-priority decision: each category is
      chosen exactly when its terms occur and no earlier category's do. */
  lemma DetectQueryTypePriority(query: string)
    ensures var q := Lower(query);
      && (DetectQueryType(query) == Summarization <==> MentionsAny(q, SummarizationTerms))
      && (DetectQueryType(query) == Comparison <==>
            !MentionsAny(q, SummarizationTerms) && MentionsAny(q, ComparisonTerms))
      && (DetectQueryType(query) == Listing <==>
            !MentionsAny(q, SummarizationTerms) && !MentionsAny(q, ComparisonTerms)
            && MentionsAny(q, ListingTerms))
      && (DetectQueryType(query) == Default <==>
            !MentionsAny(q, SummarizationTerms) && !MentionsAny(q, ComparisonTerms)
            && !MentionsAny(q, ListingTerms))
  {
  }

  /** A query mentioning both "summary" and "compare" is a summarization query. */
  lemma SummaryBeatsCompare(query: string)
    requires Contains(Lower(query), "summary") && Contains(Lower(query), "compare")
    ensures DetectQueryType(query) == Summarization
  {
    assert SummarizationTerms[1] == "summary";
  }

  lemma {:induction false} LowerIdempotent(s: string)
    ensures Lower(Lower(s)) == Lower(s)
  {
    assert forall i :: 0 <= i < |s| ==> LowerChar(LowerChar(s[i])) == LowerChar(s[i]);
  }

  /** Classification does not depend on letter case. */
  lemma DetectIgnoresCase(query: string)
    ensures DetectQueryType(Lower(query)) == DetectQueryType(query)
  {
    LowerIdempotent(query);
  }

  const SummaryPrefix := "document summary main points key concepts important sections "
  const WrapPrefix := "information about "
  const WrapSuffix := " context details explanation"

  /** Query rewriting for retrieval: summarization queries get a fixed prefix,
      other queries of fewer than four words are wrapped in a template, the
      rest pass through. The original query always survives verbatim. */
  function EnhanceQuery(q: string, t: QueryType): (r: string)
    ensures t == Summarization ==> |r| == |SummaryPrefix| + |q| && r[..|SummaryPrefix|] == SummaryPrefix
                                   && r[|SummaryPrefix|..] == q
    ensures t != Summarization && WordCount(q) < 4 ==>
              |r| == |WrapPrefix| + |q| + |WrapSuffix| && r[..|WrapPrefix|] == WrapPrefix
              && r[|WrapPrefix|..|WrapPrefix| + |q|] == q && r[|WrapPrefix| + |q|..] == WrapSuffix
    ensures t != Summarization && WordCount(q) >= 4 ==> r == q
    ensures Contains(r, q)
  {
    if t == Summarization then
      var r := SummaryPrefix + q;
      assert OccursAt(r, q, |SummaryPrefix|);
      r
    else if WordCount(q) < 4 then
      var r := WrapPrefix + q + WrapSuffix;
      assert r[|WrapPrefix|..|WrapPrefix| + |q|] == q;
      assert OccursAt(r, q, |WrapPrefix|);
      r
    else
      assert OccursAt(q, q, 0);
      q
  }

  const NoContext := "No relevant information found in the document."

  /** The passages whose `position` metadata is `pos`, in input order. */
  function WithPosition(docs: seq<Passage>, pos: string): seq<Passage>
    decreases |docs|
  {
    if |docs| == 0 then []
    else
      var rest := WithPosition(docs[..|docs| - 1], pos);
      if HasString(docs[|docs| - 1].metadata, "position", pos) then rest + [docs[|docs| - 1]] else rest
  }

  /** `WithPosition` keeps exactly the passages with that label and no more of them. */
  lemma {:induction false} WithPositionMembers(docs: seq<Passage>, pos: string)
    ensures |WithPosition(docs, pos)| <= |docs|
    ensures forall d :: d in WithPosition(docs, pos) <==>
                          d in docs && HasString(d.metadata, "position", pos)
    decreases |docs|
  {
    if |docs| > 0 {
      var init := docs[..|docs| - 1];
      WithPositionMembers(init, pos);
      assert docs == init + [docs[|docs| - 1]];
    }
  }

  /** Each passage's content followed by a blank line. */
  function Bodies(docs: seq<Passage>): string
    decreases |docs|
  {
    if |docs| == 0 then "" else Bodies(docs[..|docs| - 1]) + docs[|docs| - 1].pageContent + "\n\n"
  }

  /** A labelled group, or nothing when the group is empty. */
  function Group(banner: string, docs: seq<Passage>): string
  {
    if docs == [] then "" else banner + "\n\n" + Bodies(docs)
  }

  /** The `(header) ` part of a numbered section, present only for a truthy header. */
  function HeaderPart(d: Passage): string
  {
    if "potential_header" in d.metadata && Truthy(d.metadata["potential_header"])
    then "(" + Render(d.metadata["potential_header"]) + ") "
    else ""
  }

  function SectionBlock(d: Passage, n: nat): string
  {
    "\n\n--- DOCUMENT SECTION " + NatToString(n) + " " + HeaderPart(d) + "---\n\n" + d.pageContent
  }

  /** The numbered sections, built passage by passage as the loop does. */
  function Sections(docs: seq<Passage>): string
    decreases |docs|
  {
    if |docs| == 0 then "" else Sections(docs[..|docs| - 1]) + SectionBlock(docs[|docs| - 1], |docs|)
  }

  const SummaryHeader := "DOCUMENT SECTIONS:"
  const BeginningBanner := "--- BEGINNING SECTIONS ---"
  const MiddleBanner := "--- MIDDLE SECTIONS ---"
  const EndBanner := "--- END SECTIONS ---"

  function FormatContextForLlm(docs: seq<Passage>, t: QueryType): string
  {
    if docs == [] then NoContext
    else if t == Summarization then
      SummaryHeader + "\n\n"
        + Group(BeginningBanner, WithPosition(docs, "beginning"))
        + Group(MiddleBanner, WithPosition(docs, "middle"))
        + Group(EndBanner, WithPosition(docs, "end"))
    else Sections(docs)
  }

  /** The section blocks numbered 1..n, the i-th for the i-th passage. */
  function NumberedBlocks(docs: seq<Passage>): (r: seq<string>)
    ensures |r| == |docs|
    ensures forall i :: 0 <= i < |docs| ==> r[i] == SectionBlock(docs[i], i + 1)
  {
    seq(|docs|, i requires 0 <= i < |docs| => SectionBlock(docs[i], i + 1))
  }

  lemma NumberedBlocksSnoc(docs: seq<Passage>)
    requires |docs| > 0
    ensures NumberedBlocks(docs)
            == NumberedBlocks(docs[..|docs| - 1]) + [SectionBlock(docs[|docs| - 1], |docs|)]
  {
    var init := docs[..|docs| - 1];
    var a := NumberedBlocks(docs);
    var b := NumberedBlocks(init) + [SectionBlock(docs[|docs| - 1], |docs|)];
    assert |a| == |b|;
    forall i | 0 <= i < |a|
      ensures a[i] == b[i]
    {
      if i < |init| {
        assert init[i] == docs[i];
      }
    }
  }

  /** For a non-summarization query the context is the sequence of sections
      numbered 1..n, the i-th carrying the i-th passage in input order. */
  lemma {:induction false} SectionsInInputOrder(docs: seq<Passage>)
    ensures Sections(docs) == Concat(NumberedBlocks(docs))
    decreases |docs|
  {
    if |docs| > 0 {
      var init := docs[..|docs| - 1];
      SectionsInInputOrder(init);
      NumberedBlocksSnoc(docs);
      ConcatAppend(NumberedBlocks(init), SectionBlock(docs[|docs| - 1], |docs|));
    }
  }

  /** An empty retrieval yields the fixed sentinel, whatever the query type. */
  lemma EmptyContextIsSentinel(t: QueryType)
    ensures FormatContextForLlm([], t) == "No relevant information found in the document."
  {
  }

  /** A passage labelled neither beginning, middle nor end does not change a
      summarization context. */
  lemma {:induction false} SummaryDropsUnlabelled(docs: seq<Passage>, d: Passage)
    requires docs != []
    requires !HasString(d.metadata, "position", "beginning")
    requires !HasString(d.metadata, "position", "middle")
    requires !HasString(d.metadata, "position", "end")
    ensures FormatContextForLlm(docs + [d], Summarization) == FormatContextForLlm(docs, Summarization)
  {
    var all := docs + [d];
    assert all[..|all| - 1] == docs;
  }

  /** Some passage carries the position label `pos`. */
  predicate Labelled(docs: seq<Passage>, pos: string)
  {
    exists d :: d in docs && HasString(d.metadata, "position", pos)
  }

  /** `w` stands in `s` and ends at or before index `j`. */
  predicate OccursBefore(s: string, w: string, j: int)
  {
    exists k :: 0 <= k <= j - |w| && OccursAt(s, w, k)
  }

  /** `w` stands in `s` at or after index `j`. */
  predicate OccursAfter(s: string, w: string, j: int)
  {
    exists k :: j <= k <= |s| - |w| && OccursAt(s, w, k)
  }

  /** The four parts of a summarization context: the header line and the
      three position groups. */
  lemma SummaryParts(docs: seq<Passage>) returns (head: string, gb: string, gm: string, ge: string)
    requires docs != []
    ensures FormatContextForLlm(docs, Summarization) == head + gb + gm + ge
    ensures head == SummaryHeader + "\n\n"
    ensures gb == Group(BeginningBanner, WithPosition(docs, "beginning"))
    ensures gm == Group(MiddleBanner, WithPosition(docs, "middle"))
    ensures ge == Group(EndBanner, WithPosition(docs, "end"))
  {
    head := SummaryHeader + "\n\n";
    gb := Group(BeginningBanner, WithPosition(docs, "beginning"));
    gm := Group(MiddleBanner, WithPosition(docs, "middle"));
    ge := Group(EndBanner, WithPosition(docs, "end"));
  }

  /** A passage with label `pos` has its text in that label's group, after the banner. */
  lemma InGroup(docs: seq<Passage>, pos: string, banner: string, d: Passage) returns (k: int)
    requires d in docs && HasString(d.metadata, "position", pos)
    ensures |banner| <= k && OccursAt(Group(banner, WithPosition(docs, pos)), d.pageContent, k)
  {
    WithPositionMembers(docs, pos);
    k := GroupContains(banner, WithPosition(docs, pos), d);
  }

  /** A labelled passage makes its group start with the banner. */
  lemma BannerOpensGroup(docs: seq<Passage>, pos: string, banner: string)
    requires Labelled(docs, pos)
    ensures OccursAt(Group(banner, WithPosition(docs, pos)), banner, 0)
  {
    var d :| d in docs && HasString(d.metadata, "position", pos);
    WithPositionMembers(docs, pos);
    assert d in WithPosition(docs, pos);
    assert Group(banner, WithPosition(docs, pos)) == banner + ("\n\n" + Bodies(WithPosition(docs, pos)));
  }

  /** A summarization context lists its groups in document order: when a
      middle passage was retrieved, the middle banner stands after the text of
      every beginning passage, and each middle passage's text comes after it. */
  lemma SummaryGroupsInOrder(docs: seq<Passage>)
    requires docs != [] && Labelled(docs, "middle")
    ensures var out := FormatContextForLlm(docs, Summarization);
      exists j :: OccursAt(out, MiddleBanner, j)
        && (forall d :: d in docs && HasString(d.metadata, "position", "beginning") ==>
              OccursBefore(out, d.pageContent, j))
        && (forall d :: d in docs && HasString(d.metadata, "position", "middle") ==>
              OccursAfter(out, d.pageContent, j + |MiddleBanner|))
  {
    var head, gb, gm, ge := SummaryParts(docs);
    var out := head + gb + gm + ge;
    var j := |head + gb|;
    BannerOpensGroup(docs, "middle", MiddleBanner);
    InPart(head + gb, gm, ge, MiddleBanner, 0);
    forall d | d in docs && HasString(d.metadata, "position", "beginning")
      ensures OccursBefore(out, d.pageContent, j)
    {
      var k := InGroup(docs, "beginning", BeginningBanner, d);
      InPart(head, gb, gm + ge, d.pageContent, k);
      assert out == head + gb + (gm + ge);
    }
    forall d | d in docs && HasString(d.metadata, "position", "middle")
      ensures OccursAfter(out, d.pageContent, j + |MiddleBanner|)
    {
      var k := InGroup(docs, "middle", MiddleBanner, d);
      InPart(head + gb, gm, ge, d.pageContent, k);
    }
  }

  /** When an end passage was retrieved, the end banner stands after the text
      of every beginning and middle passage, and each end passage's text
      comes after it. */
  lemma SummaryEndGroupLast(docs: seq<Passage>)
    requires docs != [] && Labelled(docs, "end")
    ensures var out := FormatContextForLlm(docs, Summarization);
      exists j :: OccursAt(out, EndBanner, j)
        && (forall d :: d in docs && (HasString(d.metadata, "position", "beginning")
                                      || HasString(d.metadata, "position", "middle")) ==>
              OccursBefore(out, d.pageContent, j))
        && (forall d :: d in docs && HasString(d.metadata, "position", "end") ==>
              OccursAfter(out, d.pageContent, j + |EndBanner|))
  {
    var head, gb, gm, ge := SummaryParts(docs);
    var out := head + gb + gm + ge;
    var j := |head + gb + gm|;
    BannerOpensGroup(docs, "end", EndBanner);
    InPart(head + gb + gm, ge, "", EndBanner, 0);
    assert out == head + gb + gm + ge + "";
    forall d | d in docs && (HasString(d.metadata, "position", "beginning")
                             || HasString(d.metadata, "position", "middle"))
      ensures OccursBefore(out, d.pageContent, j)
    {
      if HasString(d.metadata, "position", "beginning") {
        var k := InGroup(docs, "beginning", BeginningBanner, d);
        InPart(head, gb, gm + ge, d.pageContent, k);
        assert out == head + gb + (gm + ge);
      } else {
        var k := InGroup(docs, "middle", MiddleBanner, d);
        InPart(head + gb, gm, ge, d.pageContent, k);
      }
    }
    forall d | d in docs && HasString(d.metadata, "position", "end")
      ensures OccursAfter(out, d.pageContent, j + |EndBanner|)
    {
      var k := InGroup(docs, "end", EndBanner, d);
      InPart(head + gb + gm, ge, "", d.pageContent, k);
    }
  }

  /** A summarization context carries a group's banner when a passage with
      that label was retrieved; and, unless some passage's own text spells the
      banner out, only then. */
  lemma SummaryBannersPresent(docs: seq<Passage>, pos: string, banner: string)
    requires docs != []
    requires (pos, banner) in {("beginning", BeginningBanner), ("middle", MiddleBanner), ("end", EndBanner)}
    ensures Labelled(docs, pos) ==> Contains(FormatContextForLlm(docs, Summarization), banner)
    ensures !Labelled(docs, pos) && (forall d :: d in docs ==> !Contains(d.pageContent, banner)) ==>
              !Contains(FormatContextForLlm(docs, Summarization), banner)
  {
    var head, gb, gm, ge := SummaryParts(docs);
    if Labelled(docs, pos) {
      BannerOpensGroup(docs, pos, banner);
      if pos == "beginning" {
        InPart(head, gb, gm + ge, banner, 0);
        assert head + gb + gm + ge == head + gb + (gm + ge);
      } else if pos == "middle" {
        InPart(head + gb, gm, ge, banner, 0);
      } else {
        InPart(head + gb + gm, ge, "", banner, 0);
        assert head + gb + gm + ge == head + gb + gm + ge + "";
      }
    } else if forall d :: d in docs ==> !Contains(d.pageContent, banner) {
      NoBannerAnywhere(docs, pos, banner, head, gb, gm, ge);
    }
  }

  lemma NoBannerAnywhere(docs: seq<Passage>, pos: string, banner: string,
                         head: string, gb: string, gm: string, ge: string)
    requires (pos, banner) in {("beginning", BeginningBanner), ("middle", MiddleBanner), ("end", EndBanner)}
    requires !Labelled(docs, pos) && forall d :: d in docs ==> !Contains(d.pageContent, banner)
    requires head == SummaryHeader + "\n\n"
    requires gb == Group(BeginningBanner, WithPosition(docs, "beginning"))
    requires gm == Group(MiddleBanner, WithPosition(docs, "middle"))
    requires ge == Group(EndBanner, WithPosition(docs, "end"))
    ensures !Contains(head + gb + gm + ge, banner)
  {
    WithPositionMembers(docs, "beginning");
    WithPositionMembers(docs, "middle");
    WithPositionMembers(docs, "end");
    UnlabelledGroupEmpty(docs, pos);
    BannerLines(banner);
    NoBannerInGroup(BeginningBanner, WithPosition(docs, "beginning"), docs, banner);
    NoBannerInGroup(MiddleBanner, WithPosition(docs, "middle"), docs, banner);
    NoBannerInGroup(EndBanner, WithPosition(docs, "end"), docs, banner);
    NoLineBreaks(banner);
    NoNewlineInPair(SummaryHeader, "\n\n", banner);
    GroupEndsLine(BeginningBanner, WithPosition(docs, "beginning"));
    GroupEndsLine(MiddleBanner, WithPosition(docs, "middle"));
    EndsLineAppend(head, gb);
    EndsLineAppend(head + gb, gm);
    NoNewlineInPair(head, gb, banner);
    NoNewlineInPair(head + gb, gm, banner);
    NoNewlineInPair(head + gb + gm, ge, banner);
  }

  /** `w` standing in `g` stands in `pre + g + post`, shifted by `|pre|`. */
  lemma InPart(pre: string, g: string, post: string, w: string, k: int)
    requires OccursAt(g, w, k)
    ensures OccursAt(pre + g + post, w, |pre| + k)
  {
    assert (pre + g + post)[|pre| + k..|pre| + k + |w|] == g[k..k + |w|];
  }

  /** A pattern without line breaks does not stand in a run of line breaks. */
  lemma NoLineBreaks(w: string)
    requires w != [] && '\n' !in w
    ensures !Contains("\n\n", w)
  {
    forall i | 0 <= i <= 2 - |w|
      ensures !OccursAt("\n\n", w, i)
    {
      assert w[0] != "\n\n"[i];
    }
  }

  /** `w` standing in `x` stands in `x + y` at the same index. */
  lemma OccursExtend(x: string, y: string, w: string, k: int)
    requires OccursAt(x, w, k)
    ensures OccursAt(x + y, w, k)
  {
    assert (x + y)[k..k + |w|] == x[k..k + |w|];
  }

  /** `w` standing in `y` stands in `x + y`, shifted by `|x|`. */
  lemma OccursShift(x: string, y: string, w: string, k: int)
    requires OccursAt(y, w, k)
    ensures OccursAt(x + y, w, |x| + k)
  {
    assert (x + y)[|x| + k..|x| + k + |w|] == y[k..k + |w|];
  }

  /** Each passage's text stands in the bodies built from it. */
  lemma {:induction false} BodiesContain(docs: seq<Passage>, d: Passage) returns (k: int)
    requires d in docs
    ensures OccursAt(Bodies(docs), d.pageContent, k)
    decreases |docs|
  {
    var init := docs[..|docs| - 1];
    var last := docs[|docs| - 1];
    assert Bodies(docs) == Bodies(init) + (last.pageContent + "\n\n");
    if d == last {
      OccursExtend(last.pageContent, "\n\n", d.pageContent, 0);
      OccursShift(Bodies(init), last.pageContent + "\n\n", d.pageContent, 0);
      k := |Bodies(init)|;
    } else {
      assert docs == init + [last];
      k := BodiesContain(init, d);
      OccursExtend(Bodies(init), last.pageContent + "\n\n", d.pageContent, k);
    }
  }

  /** Each grouped passage's text stands after the group's banner. */
  lemma GroupContains(banner: string, docs: seq<Passage>, d: Passage) returns (k: int)
    requires d in docs
    ensures |banner| <= k && OccursAt(Group(banner, docs), d.pageContent, k)
  {
    var b := BodiesContain(docs, d);
    OccursShift(banner + "\n\n", Bodies(docs), d.pageContent, b);
    k := |banner + "\n\n"| + b;
  }

  /** The string is empty or ends with a line break. */
  predicate EndsLine(s: string)
  {
    s == [] || s[|s| - 1] == '\n'
  }

  lemma EndsLineAppend(x: string, y: string)
    requires EndsLine(x) && EndsLine(y)
    ensures EndsLine(x + y)
  {
  }

  lemma {:induction false} BodiesEndsLine(docs: seq<Passage>)
    ensures EndsLine(Bodies(docs))
  {
  }

  lemma GroupEndsLine(banner: string, docs: seq<Passage>)
    ensures EndsLine(Group(banner, docs))
  {
    BodiesEndsLine(docs);
  }

  /** A pattern without line breaks cannot straddle a line break: an
      occurrence in `x + y` lies in `x` or in `y` when `x` ends a line or `y`
      starts one. */
  lemma NoNewlineInPair(x: string, y: string, w: string)
    requires w != [] && '\n' !in w
    requires EndsLine(x) || (y != [] && y[0] == '\n')
    ensures Contains(x + y, w) ==> Contains(x, w) || Contains(y, w)
  {
    if Contains(x + y, w) {
      var i :| 0 <= i <= |x + y| - |w| && OccursAt(x + y, w, i);
      if i + |w| <= |x| {
        assert (x + y)[i..i + |w|] == x[i..i + |w|];
        assert OccursAt(x, w, i);
      } else if i >= |x| {
        assert (x + y)[i..i + |w|] == y[i - |x|..i - |x| + |w|];
        assert OccursAt(y, w, i - |x|);
      } else {
        var p := if EndsLine(x) then |x| - 1 else |x|;
        StraddledChar(x + y, w, i, p);
        assert false;
      }
    }
  }

  /** The character at `p` of an occurrence of `w` starting at `i` is `w[p - i]`. */
  lemma StraddledChar(s: string, w: string, i: int, p: int)
    requires OccursAt(s, w, i) && i <= p < i + |w|
    ensures s[p] == w[p - i]
  {
    assert s[i..i + |w|][p - i] == s[p];
  }

  /** With no passage labelled `pos`, the group for `pos` is empty. */
  lemma {:induction false} UnlabelledGroupEmpty(docs: seq<Passage>, pos: string)
    requires !Labelled(docs, pos)
    ensures WithPosition(docs, pos) == []
    decreases |docs|
  {
    if |docs| > 0 {
      var init := docs[..|docs| - 1];
      assert forall d :: d in init ==> d in docs;
      assert docs[|docs| - 1] in docs;
      UnlabelledGroupEmpty(init, pos);
    }
  }

  /** The banners hold no line break, and none of them stands inside the
      header or another banner. */
  lemma BannerLines(banner: string)
    requires banner in {BeginningBanner, MiddleBanner, EndBanner}
    ensures banner != [] && '\n' !in banner
    ensures !Contains(SummaryHeader, banner)
    ensures banner != BeginningBanner ==> !Contains(BeginningBanner, banner)
    ensures banner != MiddleBanner ==> !Contains(MiddleBanner, banner)
    ensures banner != EndBanner ==> !Contains(EndBanner, banner)
  {
    forall i | 0 <= i <= |BeginningBanner| - |banner| && banner != BeginningBanner
      ensures !OccursAt(BeginningBanner, banner, i)
    {
      assert BeginningBanner[i..i + |banner|][4] == BeginningBanner[i + 4];
      assert BeginningBanner[i..i + |banner|][5] == BeginningBanner[i + 5];
    }
    forall i | 0 <= i <= |MiddleBanner| - |banner| && banner != MiddleBanner
      ensures !OccursAt(MiddleBanner, banner, i)
    {
      assert MiddleBanner[i..i + |banner|][4] == MiddleBanner[i + 4];
    }
  }

  /** No occurrence of `banner` in a group whose banner differs and whose
      passages, drawn from `docs`, never spell it out. */
  lemma NoBannerInGroup(b: string, w: seq<Passage>, docs: seq<Passage>, banner: string)
    requires b in {BeginningBanner, MiddleBanner, EndBanner} && banner in {BeginningBanner, MiddleBanner, EndBanner}
    requires w != [] ==> b != banner
    requires forall d :: d in w ==> d in docs
    requires forall d :: d in docs ==> !Contains(d.pageContent, banner)
    ensures !Contains(Group(b, w), banner)
  {
    if w != [] {
      BannerLines(banner);
      NoBannerInBodies(w, banner);
      NoNewlineInPair("\n\n", Bodies(w), banner);
      NoNewlineInPair(b, "\n\n" + Bodies(w), banner);
      assert Group(b, w) == b + ("\n\n" + Bodies(w));
    }
  }

  lemma {:induction false} NoBannerInBodies(w: seq<Passage>, banner: string)
    requires banner != [] && '\n' !in banner
    requires forall d :: d in w ==> !Contains(d.pageContent, banner)
    ensures !Contains(Bodies(w), banner)
    decreases |w|
  {
    if w != [] {
      var init := w[..|w| - 1];
      var last := w[|w| - 1];
      assert forall d :: d in init ==> d in w;
      NoBannerInBodies(init, banner);
      BodiesEndsLine(init);
      NoNewlineInPair(last.pageContent, "\n\n", banner);
      NoLineBreaks(banner);
      NoNewlineInPair(Bodies(init), last.pageContent + "\n\n", banner);
      assert Bodies(w) == Bodies(init) + (last.pageContent + "\n\n");
    }
  }

  function RoleLabel(role: string): string
  {
    if role == "user" then "User" else "Assistant"
  }

  /** The six newest entries, or all of them when there are fewer, oldest first. */
  function HistoryWindow(h: seq<HistoryEntry>): (w: seq<HistoryEntry>)
    ensures |w| <= 6 && |w| <= |h|
    ensures |w| == (if |h| < 6 then |h| else 6) && w == h[|h| - |w|..]
  {
    if |h| <= 6 then h else h[|h| - 6..]
  }

  function HistoryLine(e: HistoryEntry): string
  {
    RoleLabel(e.role) + ": " + e.content + "\n"
  }

  function HistoryLines(h: seq<HistoryEntry>): string
    decreases |h|
  {
    if |h| == 0 then "" else HistoryLines(h[..|h| - 1]) + HistoryLine(h[|h| - 1])
  }

  function HistoryContext(h: seq<HistoryEntry>): string
  {
    if |h| == 0 then "" else "\n\nRecent conversation history:\n" + HistoryLines(HistoryWindow(h))
  }

  function Preamble(t: QueryType): string
  {
    match t
    case Summarization =>
      "You are an expert document analyst. Please provide a comprehensive summary of the following document sections.\n"
      + "Be thorough and make sure to include key points from all sections shown below."
    case Comparison =>
      "You are a helpful assistant. Based ONLY on the information provided in these document excerpts, \n"
      + "compare the elements requested in the user's question."
    case _ =>
      "You are a helpful assistant. Answer the following question based ONLY on the information provided in these document excerpts.\n"
      + "If the answer isn't contained in the excerpts, say \"I don't have enough information to answer that question.\""
  }

  function Closing(t: QueryType): string
  {
    match t
    case Summarization =>
      "Create a well-structured summary that covers the main topics and important details from the document.\n"
      + "If information appears incomplete or missing from certain sections, acknowledge that in your summary.\n"
      + "Organize your summary by main topics and include specific details from the text."
    case Comparison =>
      "If the answer isn't contained in the excerpts, say \"I don't have enough information to make this comparison.\"\n"
      + "Be specific and cite details from the document sections where possible."
    case _ =>
      "Focus on being accurate and providing specific details from the text rather than general knowledge."
  }

  /** The prompt for a query type; listing queries use the default template.
      Every template ends with the user's query. */
  function GetEnhancedPrompt(query: string, context: string, t: QueryType, history: seq<HistoryEntry>): (r: string)
    ensures |r| >= |"USER QUERY: " + query|
    ensures r[|r| - |"USER QUERY: " + query|..] == "USER QUERY: " + query
  {
    var head := Preamble(t) + "\n\n" + context + "\n\n" + HistoryContext(history) + "\n\n" + Closing(t) + "\n\n";
    head + ("USER QUERY: " + query)
  }

  /** Only the six newest history entries reach the history block. */
  lemma OlderHistoryIgnoredInBlock(older: seq<HistoryEntry>, recent: seq<HistoryEntry>)
    requires |recent| >= 6
    ensures HistoryContext(older + recent) == HistoryContext(recent)
  {
    var all := older + recent;
    assert all[|all| - 6..] == recent[|recent| - 6..];
  }

  /** Only the six newest history entries reach the prompt: older ones never
      change it. */
  lemma OlderHistoryIgnored(older: seq<HistoryEntry>, recent: seq<HistoryEntry>,
                            query: string, context: string, t: QueryType)
    requires |recent| >= 6
    ensures GetEnhancedPrompt(query, context, t, older + recent)
            == GetEnhancedPrompt(query, context, t, recent)
  {
    OlderHistoryIgnoredInBlock(older, recent);
  }

  /** The history block lists the window's entries one per line, oldest first,
      with role "user" shown as User and every other role as Assistant. */
  lemma {:induction false} HistoryLinesInOrder(h: seq<HistoryEntry>)
    ensures HistoryLines(h) == Concat(seq(|h|, i requires 0 <= i < |h| => HistoryLine(h[i])))
    decreases |h|
  {
    if |h| > 0 {
      var init := h[..|h| - 1];
      HistoryLinesInOrder(init);
      var lines := seq(|h|, i requires 0 <= i < |h| => HistoryLine(h[i]));
      var initLines := seq(|init|, i requires 0 <= i < |init| => HistoryLine(init[i]));
      assert lines == initLines + [HistoryLine(h[|h| - 1])];
      ConcatAppend(initLines, HistoryLine(h[|h| - 1]));
    }
  }

  /** No history, no history block. */
  lemma EmptyHistoryNoBlock()
    ensures HistoryContext([]) == ""
  {
  }
}
