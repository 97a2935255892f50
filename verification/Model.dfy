/** The gateway's provider-agnostic representation of content, results and streamed
    chunks (src/ttllm/core/model.py). Nested content lists get their own datatypes,
    one per union the source declares, so no value is representable here that the
    source's types exclude. */
module Model {
  datatype Option<+T> = None | Some(value: T) {
    function GetOr(default: T): T {
      if Some? then value else default
    }
  }

  /** A decoded JSON value. */
  datatype Json =
    | JNull
    | JBool(b: bool)
    | JInt(n: int)
    | JReal(r: real)
    | JStr(s: string)
    | JArr(items: seq<Json>)
    | JObj(fields: map<string, Json>)

  /** Python's `bool()` */
  predicate Truthy(j: Json) {
    match j
    case JNull => false
    case JBool(b) => b
    case JInt(n) => n != 0
    case JReal(r) => r != 0.0
    case JStr(s) => s != ""
    case JArr(items) => items != []
    case JObj(fields) => fields != map[]
  }

  /** The JSON parser, which is not part of this model: None is a parse error. */
  type Parser = string -> Option<Json>

  const EMPTY_OBJECT := JObj(map[])

  /** A tool call's arguments: no text, and text that does not parse, both give {}. */
  function Arguments(raw: string, loads: Parser): Json {
    if raw == "" then EMPTY_OBJECT else loads(raw).GetOr(EMPTY_OBJECT)
  }

  // --- Content parts ---

  datatype CitationKind = Char | Page | Chunked | SearchResult | Web

  datatype Citation = Citation(
    kind: CitationKind,
    citedText: string,
    documentIndex: Option<int>,
    documentTitle: Option<string>,
    searchResultIndex: Option<int>,
    start: Option<int>,
    end: Option<int>,
    source: Option<string>,
    title: Option<string>,
    url: Option<string>)

  datatype TextPart = TextPart(text: string, citations: Option<seq<Citation>>, cacheControl: bool)

  datatype ImagePart = ImagePart(mediaType: string, data: string, cacheControl: bool)

  /** An element of a document's pre-chunked content. */
  datatype DocumentItem = TextItem(text: TextPart) | ImageItem(image: ImagePart)

  datatype SourceKind = Base64 | PlainText | Content

  datatype DocumentPart = DocumentPart(
    sourceKind: SourceKind,
    mediaType: string,
    data: string,
    text: Option<string>,
    content: Option<seq<DocumentItem>>,
    title: Option<string>,
    context: Option<string>,
    citations: bool,
    cacheControl: bool)

  datatype SearchResultPart = SearchResultPart(
    source: string, title: string, content: seq<TextPart>, citations: bool, cacheControl: bool)

  /** An element of a tool result's content. */
  datatype ResultItem =
    | ResultText(text: TextPart)
    | ResultImage(image: ImagePart)
    | ResultDocument(document: DocumentPart)
    | ResultSearch(search: SearchResultPart)

  datatype Part =
    | Text(text: TextPart)
    | Image(image: ImagePart)
    | Document(document: DocumentPart)
    | Search(search: SearchResultPart)
    | ToolCall(id: string, name: string, input: Json, cacheControl: bool)
    | ToolResult(toolCallId: string, content: seq<ResultItem>, isError: bool, cacheControl: bool)
    | Thinking(thinking: string, signature: string, cacheControl: bool)
    | RedactedThinking(data: string, cacheControl: bool)
    | ServerToolCall(callType: string, extra: map<string, Json>, id: string, name: string,
                     input: Json, cacheControl: bool)
    | ServerToolResult(resultType: string, extra: map<string, Json>, toolCallId: string,
                       result: Json, cacheControl: bool)

  /** The text part with no citations and no cache marker, as providers build it. */
  function PlainPart(text: string): Part {
    Text(TextPart(text, None, false))
  }

  // --- Results ---

  datatype StopReason = EndTurn | MaxTokens | StopSequence | ToolUse | Refusal

  datatype Usage = Usage(input: int, output: int, cacheRead: int, cacheWrite: int)

  /** One safeguard verdict list: either a shape the gateway passes through untouched, or
      one with a `status.tool_uses` dict, kept in its order as (tool-use id, verdict). */
  datatype Safeguard =
    | Untouched(body: Json)
    | WithToolUses(body: Json, toolUses: seq<(string, Json)>)

  datatype InternalResult = InternalResult(
    content: seq<Part>, stopReason: StopReason, usage: Usage, safeguards: Option<seq<Safeguard>>)

  // --- Streaming ---

  datatype Chunk =
    | BlockStart(index: int, part: Part)
    | TextDelta(index: int, text: string)
    | ToolArgsDelta(index: int, partialJson: string)
    | ThinkingDelta(index: int, text: string)
    | SignatureDelta(index: int, signature: string)
    | CitationDelta(index: int, citation: Citation)
    | BlockStop(index: int)
    | MessageStop(stopReason: StopReason, usage: Usage, safeguards: Option<seq<Safeguard>>)
    | Error(message: string)
  {
    predicate IsDelta() {
      TextDelta? || ToolArgsDelta? || ThinkingDelta? || SignatureDelta? || CitationDelta?
    }

    predicate IsTerminal() {
      MessageStop? || Error?
    }
  }

  /** What a consumer that takes at most `limit` chunks of `out` receives. */
  function Received(out: seq<Chunk>, limit: nat): seq<Chunk> {
    if limit <= |out| then out[..limit] else out
  }
}
