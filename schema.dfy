/** Value shapes shared by the pipeline: chunk metadata values, retrieved
    passages (LangChain's `Document`: page content plus a metadata dict) and
    conversation-history entries (`{"role": ..., "content": ...}`). */
module Schema {
  import opened Text

  /** A metadata value: the pipeline stores strings and integers. */
  datatype MetaValue = MStr(s: string) | MInt(i: int)

  type Metadata = map<string, MetaValue>

  /** A passage with its metadata, as the splitter and the retriever hand them over. */
  datatype Passage = Passage(pageContent: string, metadata: Metadata)

  /** A decoded JSON value, as `json.loads` and Django's JSONField produce it. */
  datatype Json =
    | JNull
    | JBool(b: bool)
    | JNum(n: int)
    | JStr(s: string)
    | JList(items: seq<Json>)
    | JObject(fields: map<string, Json>)

  /** One message of the conversation history sent with a query. */
  datatype HistoryEntry = HistoryEntry(role: string, content: string)

  /** `metadata.get(key) == s` for a string `s`. */
  predicate HasString(m: Metadata, key: string, s: string)
  {
    key in m && m[key] == MStr(s)
  }

  /** Python truthiness of a metadata value. */
  predicate Truthy(v: MetaValue)
  {
    match v
    case MStr(s) => s != ""
    case MInt(i) => i != 0
  }

  /** `str(v)` as an f-string renders it. */
  function Render(v: MetaValue): string
  {
    match v
    case MStr(s) => s
    case MInt(i) => IntToString(i)
  }
}
