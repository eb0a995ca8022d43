/** `decompose_complex_query` of chatapp/query_optimizer.py: the gate on the
    query's length and the post-processing of the language model's reply.
    The model call is abstract: `reply` is the reply's text, or the error
    text when the invocation raised. `decode` is `json.loads`: `None` when it
    raises. */
module QueryOptimizer {
  import opened Results
  import opened Text
  import opened Schema

  /** The candidate JSON text: from the first '[' through the last ']'
      (`content[json_start:json_end]`). Only called when a '[' occurs. */
  function Candidate(content: string): (r: string)
    requires '[' in content
    ensures |r| <= |content|
  {
    Slice(content, Find(content, '['), RFind(content, ']') + 1)
  }

  /** The sub-queries, or None when no decomposition is used. */
  function DecomposeComplexQuery(query: string, reply: Result<string, string>,
                                 decode: string -> Option<Json>): Option<seq<Json>>
  {
    if WordCount(query) < 10 then None
    else
      match reply
      case Err(_) => None
      case Ok(content) =>
        if Contains(content, "SIMPLE") then None
        else
          var jsonStart := Find(content, '[');
          var jsonEnd := RFind(content, ']') + 1;
          if jsonStart < 0 || jsonEnd < 0 then None
          else
            match decode(Slice(content, jsonStart, jsonEnd))
            case Some(JList(items)) => if |items| > 0 then Some(items) else None
            case _ => None
  }

  /** The result is a non-empty list exactly when the query is long enough,
      the model answered, the answer neither says SIMPLE nor lacks a '[', and
      the bracketed candidate decodes to a non-empty list; that list is the
      result. The `json_end < 0` test never decides anything. */
  lemma DecomposeCharacterized(query: string, reply: Result<string, string>, decode: string -> Option<Json>)
    ensures var r := DecomposeComplexQuery(query, reply, decode);
      r.Some? <==>
        && WordCount(query) >= 10 && reply.Ok? && !Contains(reply.value, "SIMPLE") && '[' in reply.value
        && decode(Candidate(reply.value)).Some? && decode(Candidate(reply.value)).value.JList?
        && |decode(Candidate(reply.value)).value.items| > 0
    ensures var r := DecomposeComplexQuery(query, reply, decode);
      r.Some? ==> |r.value| > 0 && decode(Candidate(reply.value)) == Some(JList(r.value))
  {
  }

  /** A query of fewer than ten words is never decomposed, whatever the model
      would have said: the reply is not consulted. */
  lemma ShortQueriesSkipTheModel(query: string, reply1: Result<string, string>, reply2: Result<string, string>,
                                 decode: string -> Option<Json>)
    requires WordCount(query) < 10
    ensures DecomposeComplexQuery(query, reply1, decode) == None
    ensures DecomposeComplexQuery(query, reply1, decode) == DecomposeComplexQuery(query, reply2, decode)
  {
  }

  /** The candidate starts at the first '[' and ends at the last ']' when
      that ']' comes later; otherwise it is empty. */
  lemma CandidateBrackets(content: string)
    requires '[' in content
    ensures var r := Candidate(content);
      && (']' in content && Find(content, '[') < RFind(content, ']') ==>
            |r| >= 2 && r[0] == '[' && r[|r| - 1] == ']'
            && r == content[Find(content, '[')..RFind(content, ']') + 1])
      && (']' !in content || RFind(content, ']') < Find(content, '[') ==> r == "")
  {
    if ']' in content && Find(content, '[') < RFind(content, ']') {
      CandidateClosed(content);
    } else {
      CandidateUnclosed(content);
    }
  }

  lemma CandidateClosed(content: string)
    requires '[' in content && ']' in content && Find(content, '[') < RFind(content, ']')
    ensures var r := Candidate(content);
      && |r| >= 2 && r[0] == '[' && r[|r| - 1] == ']'
      && r == content[Find(content, '[')..RFind(content, ']') + 1]
  {
    CandidateIsSlice(content);
    BracketedSlice(content, Find(content, '['), RFind(content, ']'));
  }

  lemma CandidateIsSlice(content: string)
    requires '[' in content && Find(content, '[') < RFind(content, ']')
    ensures 0 <= Find(content, '[') < RFind(content, ']') < |content|
    ensures content[Find(content, '[')] == '[' && content[RFind(content, ']')] == ']'
    ensures Candidate(content) == content[Find(content, '[')..RFind(content, ']') + 1]
  {
    var a := Find(content, '[');
    var b := RFind(content, ']');
    assert a != -1;
    assert 0 <= a < b < |content|;
    assert Candidate(content) == Slice(content, a, b + 1);
  }

  /** The slice from a '[' through a later ']' starts and ends with them. */
  lemma BracketedSlice(content: string, a: int, b: int)
    requires 0 <= a < b < |content| && content[a] == '[' && content[b] == ']'
    ensures var r := content[a..b + 1]; |r| >= 2 && r[0] == '[' && r[|r| - 1] == ']'
  {
    var r := content[a..b + 1];
    assert r[0] == content[a] && r[|r| - 1] == content[b];
  }

  lemma CandidateUnclosed(content: string)
    requires '[' in content && (']' !in content || RFind(content, ']') < Find(content, '['))
    ensures Candidate(content) == ""
  {
    assert RFind(content, ']') + 1 <= Find(content, '[');
  }

  /** Since `json.loads('')` raises, a reply whose last ']' does not follow
      its first '[' gives no decomposition. */
  lemma NoClosingBracketNoResult(query: string, content: string, decode: string -> Option<Json>)
    requires decode("") == None
    requires '[' in content && !Contains(content, "SIMPLE")
    requires ']' !in content || RFind(content, ']') < Find(content, '[')
    ensures DecomposeComplexQuery(query, Ok(content), decode) == None
  {
    CandidateBrackets(content);
  }
}
