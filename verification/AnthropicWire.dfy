/** The Anthropic wire format and the internal representation, both ways:
    src/ttllm/core/adapters/anthropic.py over the blocks of src/ttllm/schemas/anthropic.py. */
module AnthropicWire {
  import opened Model

  type Dict = map<string, Json>

  // --- Wire blocks ---

  datatype TextBlock = TextBlock(text: string, citations: Option<seq<Dict>>, cacheControl: Option<Dict>)

  datatype ImageSource =
    | ImageBase64(mediaType: string, data: string)
    | ImageUrl(url: string)
    | ImageFile(fileId: string)

  datatype ImageBlock = ImageBlock(source: ImageSource, cacheControl: Option<Dict>)

  datatype ContentItem = TextContent(text: TextBlock) | ImageContent(image: ImageBlock)

  datatype DocumentSource =
    | DocumentBase64(mediaType: string, data: string)
    | DocumentText(mediaType: string, data: string)
    | DocumentString(text: string)
    | DocumentContent(items: seq<ContentItem>)
    | DocumentUrl(url: string)
    | DocumentFile(fileId: string)

  datatype DocumentBlock = DocumentBlock(
    source: DocumentSource, title: Option<string>, context: Option<string>,
    citations: Option<Dict>, cacheControl: Option<Dict>)

  datatype SearchResultBlock = SearchResultBlock(
    source: string, title: string, content: seq<TextBlock>,
    citations: Option<Dict>, cacheControl: Option<Dict>)

  datatype ToolResultItem =
    | ItemText(text: TextBlock)
    | ItemImage(image: ImageBlock)
    | ItemDocument(document: DocumentBlock)
    | ItemSearch(search: SearchResultBlock)
    | ItemUnknown(blockType: string)

  datatype ToolResultContent = ResultString(s: string) | ResultItems(items: seq<ToolResultItem>)

  datatype Block =
    | TextB(text: TextBlock)
    | ImageB(image: ImageBlock)
    | DocumentB(document: DocumentBlock)
    | SearchB(search: SearchResultBlock)
    | ToolUseB(id: string, name: string, input: Json, cacheControl: Option<Dict>)
    | ToolResultB(toolUseId: string, content: ToolResultContent, isError: bool, cacheControl: Option<Dict>)
    | ThinkingB(thinking: string, signature: string)
    | RedactedThinkingB(data: string)
    | ServerToolUseB(blockType: string, id: string, name: string, input: Json, extra: Dict)
    | WebSearchResultB(toolUseId: string, results: seq<Json>)
    | ServerToolResultB(blockType: string, toolUseId: string, result: Json, extra: Dict)
    | UnknownB(blockType: string)

  /** Why a conversion raises: content the gateway refuses, or a value a schema rejects. */
  datatype Failure = Unsupported(what: string) | Invalid(what: string)

  datatype Result<+T> = Ok(value: T) | Err(error: Failure) {
    predicate IsFailure() {
      Err?
    }

    function PropagateFailure<U>(): Result<U>
      requires Err?
    {
      Err(error)
    }

    function Extract(): T
      requires Ok?
    {
      value
    }
  }

  // --- Citations ---

  function WireKind(name: string): Option<CitationKind> {
    match name
    case "char_location" => Some(Char)
    case "page_location" => Some(Page)
    case "content_block_location" => Some(Chunked)
    case "search_result_location" => Some(SearchResult)
    case "web_search_result_location" => Some(Web)
    case _ => None
  }

  /** The wire keys of a citation's start and end; web citations have none. */
  function IndexFields(kind: CitationKind): (string, string) {
    match kind
    case Char => ("start_char_index", "end_char_index")
    case Page => ("start_page_number", "end_page_number")
    case Chunked => ("start_block_index", "end_block_index")
    case SearchResult => ("start_block_index", "end_block_index")
    case Web => ("", "")
  }

  /** `d.get(key)` read as an optional integer. */
  function GetInt(d: Dict, key: string): Result<Option<int>> {
    if key !in d || d[key].JNull? then Ok(None)
    else if d[key].JInt? then Ok(Some(d[key].n))
    else Err(Invalid(key))
  }

  /** `d.get(key)` read as an optional string. */
  function GetString(d: Dict, key: string): Result<Option<string>> {
    if key !in d || d[key].JNull? then Ok(None)
    else if d[key].JStr? then Ok(Some(d[key].s))
    else Err(Invalid(key))
  }

  /** None is a citation type the gateway does not know, which is dropped. */
  function CitationFromWire(c: Dict): Result<Option<Citation>> {
    var kind := if "type" in c && c["type"].JStr? then WireKind(c["type"].s) else None;
    if kind.None? then Ok(None)
    else
      var fields := IndexFields(kind.value);
      var cited := if "cited_text" in c then c["cited_text"] else JStr("");
      if !cited.JStr? then Err(Invalid("cited_text"))
      else
        var documentIndex :- GetInt(c, "document_index");
        var documentTitle :- GetString(c, "document_title");
        var searchResultIndex :- GetInt(c, "search_result_index");
        var start :- GetInt(c, fields.0);
        var end :- GetInt(c, fields.1);
        var source :- GetString(c, "source");
        var title :- GetString(c, "title");
        var url :- GetString(c, "url");
        Ok(Some(Citation(kind.value, cited.s, documentIndex, documentTitle, searchResultIndex,
                         start, end, source, title, url)))
  }

  function OptString(s: Option<string>): Json {
    if s.Some? then JStr(s.value) else JNull
  }

  function CitationToWire(c: Citation): Dict {
    var fields := IndexFields(c.kind);
    var ends := map[fields.0 := JInt(c.start.GetOr(0)), fields.1 := JInt(c.end.GetOr(0))];
    match c.kind
    case Web =>
      map["type" := JStr("web_search_result_location"), "cited_text" := JStr(c.citedText),
          "url" := JStr(c.url.GetOr("")), "title" := OptString(c.title), "encrypted_index" := JStr("")]
    case SearchResult =>
      map["cited_text" := JStr(c.citedText), "type" := JStr("search_result_location"),
          "search_result_index" := JInt(c.searchResultIndex.GetOr(0)),
          "source" := JStr(c.source.GetOr("")), "title" := OptString(c.title)] + ends
    case _ =>
      map["cited_text" := JStr(c.citedText),
          "type" := JStr(if c.kind.Char? then "char_location"
                         else if c.kind.Page? then "page_location" else "content_block_location"),
          "document_index" := JInt(c.documentIndex.GetOr(0)),
          "document_title" := OptString(c.documentTitle)] + ends
  }

  // --- Blocks to parts ---

  /** `bool(d)` for an optional dict. */
  predicate Marked(d: Option<Dict>) {
    d.Some? && d.value != map[]
  }

  /** `bool((d or {}).get("enabled"))` */
  predicate Enabled(d: Option<Dict>) {
    d.Some? && "enabled" in d.value && Truthy(d.value["enabled"])
  }

  function CitationsFromWire(raw: seq<Dict>): Result<seq<Citation>> {
    if raw == [] then Ok([])
    else
      var first :- CitationFromWire(raw[0]);
      var rest :- CitationsFromWire(raw[1..]);
      Ok(if first.Some? then [first.value] + rest else rest)
  }

  function TextToPart(b: TextBlock): Result<TextPart> {
    if b.citations.None? || b.citations.value == [] then
      Ok(TextPart(b.text, None, Marked(b.cacheControl)))
    else
      var citations :- CitationsFromWire(b.citations.value);
      Ok(TextPart(b.text, if citations == [] then None else Some(citations), Marked(b.cacheControl)))
  }

  function ImageToPart(b: ImageBlock): Result<ImagePart> {
    match b.source
    case ImageBase64(mediaType, data) => Ok(ImagePart(mediaType, data, Marked(b.cacheControl)))
    case ImageUrl(_) => Err(Unsupported("image url"))
    case ImageFile(_) => Err(Unsupported("image file"))
  }

  function ItemsToParts(items: seq<ContentItem>): Result<seq<DocumentItem>> {
    if items == [] then Ok([])
    else
      var first :- ItemToPart(items[0]);
      var rest :- ItemsToParts(items[1..]);
      Ok([first] + rest)
  }

  function ItemToPart(item: ContentItem): Result<DocumentItem> {
    match item
    case TextContent(t) => var p :- TextToPart(t); Ok(TextItem(p))
    case ImageContent(i) => var p :- ImageToPart(i); Ok(ImageItem(p))
  }

  function DocumentToPart(b: DocumentBlock): Result<DocumentPart> {
    var cites, marked := Enabled(b.citations), Marked(b.cacheControl);
    match b.source
    case DocumentBase64(mediaType, data) =>
      Ok(DocumentPart(Base64, mediaType, data, None, None, b.title, b.context, cites, marked))
    case DocumentText(mediaType, data) =>
      Ok(DocumentPart(PlainText, mediaType, "", Some(data), None, b.title, b.context, cites, marked))
    case DocumentString(text) =>
      Ok(DocumentPart(Content, "text/plain", "", None, Some([TextItem(TextPart(text, None, false))]),
                      b.title, b.context, cites, marked))
    case DocumentContent(items) =>
      var inner :- ItemsToParts(items);
      Ok(DocumentPart(Content, "text/plain", "", None, Some(inner), b.title, b.context, cites, marked))
    case DocumentUrl(_) => Err(Unsupported("document url"))
    case DocumentFile(_) => Err(Unsupported("document file"))
  }

  function SearchToPart(b: SearchResultBlock): SearchResultPart {
    SearchResultPart(
      b.source, b.title,
      seq(|b.content|, i requires 0 <= i < |b.content| => TextPart(b.content[i].text, None, false)),
      Enabled(b.citations),
      Marked(b.cacheControl) || exists i :: 0 <= i < |b.content| && Marked(b.content[i].cacheControl))
  }

  function ResultItemToPart(item: ToolResultItem): Result<ResultItem> {
    match item
    case ItemText(t) => var p :- TextToPart(t); Ok(ResultText(p))
    case ItemImage(i) => var p :- ImageToPart(i); Ok(ResultImage(p))
    case ItemDocument(d) => var p :- DocumentToPart(d); Ok(ResultDocument(p))
    case ItemSearch(s) => Ok(ResultSearch(SearchToPart(s)))
    case ItemUnknown(t) => Err(Unsupported(t))
  }

  function ResultItemsToParts(items: seq<ToolResultItem>): Result<seq<ResultItem>> {
    if items == [] then Ok([])
    else
      var first :- ResultItemToPart(items[0]);
      var rest :- ResultItemsToParts(items[1..]);
      Ok([first] + rest)
  }

  function ResultContentToParts(content: ToolResultContent): Result<seq<ResultItem>> {
    match content
    case ResultString(s) => Ok(if s == "" then [] else [ResultText(TextPart(s, None, false))])
    case ResultItems(items) => ResultItemsToParts(items)
  }

  function PrefixedItems(done: seq<ResultItem>, rest: Result<seq<ResultItem>>): Result<seq<ResultItem>> {
    match rest
    case Err(e) => Err(e)
    case Ok(items) => Ok(done + items)
  }

  lemma ItemsFrom(done: seq<ResultItem>, items: seq<ToolResultItem>, i: nat)
    requires i < |items|
    ensures PrefixedItems(done, ResultItemsToParts(items[i..]))
         == match ResultItemToPart(items[i])
            case Err(e) => Err(e)
            case Ok(item) => PrefixedItems(done + [item], ResultItemsToParts(items[i + 1..]))
  {
    assert items[i..][0] == items[i] && items[i..][1..] == items[i + 1..];
    var first, rest := ResultItemToPart(items[i]), ResultItemsToParts(items[i + 1..]);
    if first.Ok? && rest.Ok? {
      assert done + ([first.value] + rest.value) == (done + [first.value]) + rest.value;
    }
  }

  lemma NothingAround(done: seq<ResultItem>, rest: Result<seq<ResultItem>>)
    ensures PrefixedItems([], rest) == rest && PrefixedItems(done, Ok([])) == Ok(done)
  {
    if rest.Ok? {
      assert [] + rest.value == rest.value;
    }
    assert done + [] == done;
  }

  /** `_tool_result_content_to_parts` */
  method ConvertToolResult(content: ToolResultContent) returns (parts: Result<seq<ResultItem>>)
    ensures parts == ResultContentToParts(content)
  {
    match content {
      case ResultString(s) =>
        return Ok(if s == "" then [] else [ResultText(TextPart(s, None, false))]);
      case ResultItems(items) =>
        var done: seq<ResultItem> := [];
        var i := 0;
        assert items[0..] == items;
        NothingAround([], ResultItemsToParts(items));
        while i < |items|
          invariant 0 <= i <= |items|
          invariant ResultItemsToParts(items) == PrefixedItems(done, ResultItemsToParts(items[i..]))
        {
          ItemsFrom(done, items, i);
          var item := ResultItemToPart(items[i]);
          if item.Err? {
            return Err(item.error);
          }
          done := done + [item.value];
          i := i + 1;
        }
        assert items[i..] == [];
        NothingAround(done, Ok([]));
        return Ok(done);
    }
  }

  predicate ItemMarked(item: ResultItem) {
    match item
    case ResultText(t) => t.cacheControl
    case ResultImage(i) => i.cacheControl
    case ResultDocument(d) => d.cacheControl
    case ResultSearch(s) => s.cacheControl
  }

  function BlockToPart(block: Block): Result<Part> {
    match block
    case TextB(t) => var p :- TextToPart(t); Ok(Text(p))
    case ImageB(i) => var p :- ImageToPart(i); Ok(Image(p))
    case DocumentB(d) => var p :- DocumentToPart(d); Ok(Document(p))
    case SearchB(s) => Ok(Search(SearchToPart(s)))
    case ToolUseB(id, name, input, cc) => Ok(ToolCall(id, name, input, Marked(cc)))
    case ToolResultB(id, content, isError, cc) =>
      var inner :- ResultContentToParts(content);
      Ok(ToolResult(id, inner, isError,
                    Marked(cc) || exists i :: 0 <= i < |inner| && ItemMarked(inner[i])))
    case ThinkingB(thinking, signature) => Ok(Thinking(thinking, signature, false))
    case RedactedThinkingB(data) => Ok(RedactedThinking(data, false))
    case ServerToolUseB(t, id, name, input, extra) => Ok(ServerToolCall(t, extra, id, name, input, false))
    case WebSearchResultB(id, results) =>
      Ok(ServerToolResult("web_search_tool_result", map[], id, JArr(results), false))
    case ServerToolResultB(t, id, result, extra) => Ok(ServerToolResult(t, extra, id, result, false))
    case UnknownB(t) => Err(Unsupported(t))
  }

  // --- Parts to blocks ---

  function CitationsToWire(citations: seq<Citation>): seq<Dict> {
    seq(|citations|, i requires 0 <= i < |citations| => CitationToWire(citations[i]))
  }

  function TextToBlock(p: TextPart): TextBlock {
    var citations :=
      if p.citations.None? || p.citations.value == [] then None
      else Some(CitationsToWire(p.citations.value));
    TextBlock(p.text, citations, None)
  }

  function ImageToBlock(p: ImagePart): ImageBlock {
    ImageBlock(ImageBase64(p.mediaType, p.data), None)
  }

  function ItemToBlock(item: DocumentItem): ContentItem {
    match item
    case TextItem(t) => TextContent(TextToBlock(t))
    case ImageItem(i) => ImageContent(ImageToBlock(i))
  }

  function ItemsToBlocks(items: seq<DocumentItem>): seq<ContentItem> {
    seq(|items|, i requires 0 <= i < |items| => ItemToBlock(items[i]))
  }

  const CITATIONS_ON: Dict := map["enabled" := JBool(true)]

  function DocumentToBlock(p: DocumentPart): DocumentBlock {
    var source :=
      match p.sourceKind
      case PlainText => DocumentText(p.mediaType, p.text.GetOr(""))
      case Content => DocumentContent(ItemsToBlocks(p.content.GetOr([])))
      case Base64 => DocumentBase64(p.mediaType, p.data);
    DocumentBlock(source, p.title, p.context, if p.citations then Some(CITATIONS_ON) else None, None)
  }

  function SearchToBlock(p: SearchResultPart): SearchResultBlock {
    SearchResultBlock(
      p.source, p.title,
      seq(|p.content|, i requires 0 <= i < |p.content| => TextBlock(p.content[i].text, None, None)),
      if p.citations then Some(CITATIONS_ON) else None, None)
  }

  /** Whether expanding `extra` as keyword arguments repeats one of a block's own fields. */
  predicate Clashes(extra: Dict, fields: set<string>) {
    exists key :: key in extra && key in fields
  }

  const SERVER_USE_FIELDS := {"type", "id", "name", "input"}
  const SERVER_RESULT_FIELDS := {"type", "tool_use_id", "content"}

  function PartToBlock(part: Part): Result<Block> {
    match part
    case Text(t) => Ok(TextB(TextToBlock(t)))
    case Image(i) => Ok(ImageB(ImageToBlock(i)))
    case Document(d) => Ok(DocumentB(DocumentToBlock(d)))
    case Search(s) => Ok(SearchB(SearchToBlock(s)))
    case ToolCall(id, name, input, _) =>
      if input.JObj? then Ok(ToolUseB(id, name, input, None)) else Err(Invalid("input"))
    case Thinking(thinking, signature, _) => Ok(ThinkingB(thinking, signature))
    case RedactedThinking(data, _) => Ok(RedactedThinkingB(data))
    case ServerToolCall(callType, extra, id, name, input, _) =>
      if Clashes(extra, SERVER_USE_FIELDS) then Err(Invalid("extra"))
      else if callType !in {"server_tool_use", "mcp_tool_use"} then Err(Invalid("type"))
      else if !input.JObj? then Err(Invalid("input"))
      else Ok(ServerToolUseB(callType, id, name, input, extra))
    case ServerToolResult(resultType, extra, id, result, _) =>
      if resultType == "web_search_tool_result" then
        if result.JArr? then Ok(WebSearchResultB(id, result.items)) else Err(Invalid("content"))
      else if Clashes(extra, SERVER_RESULT_FIELDS) then Err(Invalid("extra"))
      else Ok(ServerToolResultB(resultType, id, result, extra))
    case ToolResult(_, _, _, _) => Err(Unsupported("tool_result in a provider result"))
  }

  // --- Printing, parsing and printing again ---

  /** A citation into a document is printed under its own kind and read back field by field. */
  lemma DocumentCitationSurvives(c: Citation)
    requires c.kind.Char? || c.kind.Page? || c.kind.Chunked?
    ensures CitationFromWire(CitationToWire(c))
         == Ok(Some(Citation(c.kind, c.citedText, Some(c.documentIndex.GetOr(0)), c.documentTitle, None,
                             Some(c.start.GetOr(0)), Some(c.end.GetOr(0)), None, None, None)))
  {
    var w := CitationToWire(c);
    var fields := IndexFields(c.kind);
    assert w["type"].JStr? && WireKind(w["type"].s) == Some(c.kind);
    assert w["cited_text"] == JStr(c.citedText);
    assert GetInt(w, "document_index") == Ok(Some(c.documentIndex.GetOr(0)));
    assert GetString(w, "document_title") == Ok(c.documentTitle);
    assert GetInt(w, "search_result_index") == Ok(None);
    assert GetInt(w, fields.0) == Ok(Some(c.start.GetOr(0)));
    assert GetInt(w, fields.1) == Ok(Some(c.end.GetOr(0)));
    assert GetString(w, "source") == Ok(None);
    assert GetString(w, "title") == Ok(None);
    assert GetString(w, "url") == Ok(None);
  }

  lemma SearchCitationSurvives(c: Citation)
    requires c.kind.SearchResult?
    ensures CitationFromWire(CitationToWire(c))
         == Ok(Some(Citation(SearchResult, c.citedText, None, None, Some(c.searchResultIndex.GetOr(0)),
                             Some(c.start.GetOr(0)), Some(c.end.GetOr(0)),
                             Some(c.source.GetOr("")), c.title, None)))
  {
    var w := CitationToWire(c);
    assert w["type"].JStr? && WireKind(w["type"].s) == Some(SearchResult);
    assert w["cited_text"] == JStr(c.citedText);
    assert GetInt(w, "document_index") == Ok(None);
    assert GetString(w, "document_title") == Ok(None);
    assert GetInt(w, "search_result_index") == Ok(Some(c.searchResultIndex.GetOr(0)));
    assert GetInt(w, "start_block_index") == Ok(Some(c.start.GetOr(0)));
    assert GetInt(w, "end_block_index") == Ok(Some(c.end.GetOr(0)));
    assert GetString(w, "url") == Ok(None);
  }

  lemma WebCitationSurvives(c: Citation)
    requires c.kind.Web?
    ensures CitationFromWire(CitationToWire(c))
         == Ok(Some(Citation(Web, c.citedText, None, None, None, None, None, None, c.title, Some(c.url.GetOr("")))))
  {
    var w := CitationToWire(c);
    assert WireKind(w["type"].s) == Some(Web);
    assert GetInt(w, "") == Ok(None);
    assert GetString(w, "url") == Ok(Some(c.url.GetOr("")));
  }

  /** Through the wire and back, a citation of any of the five kinds keeps its kind and
      prints the same. */
  lemma CitationSurvives(c: Citation)
    ensures CitationFromWire(CitationToWire(c)).Ok?
    ensures var again := CitationFromWire(CitationToWire(c)).value;
            again.Some? && again.value.kind == c.kind && CitationToWire(again.value) == CitationToWire(c)
  {
    match c.kind {
      case Web => WebCitationSurvives(c);
      case SearchResult => SearchCitationSurvives(c);
      case _ => DocumentCitationSurvives(c);
    }
  }

  /** What is parsed from this prints the same again. */
  predicate ReadsBack(w: Dict) {
    && CitationFromWire(w).Ok? && CitationFromWire(w).value.Some?
    && CitationToWire(CitationFromWire(w).value.value) == w
  }

  lemma {:induction false} AllReadBack(wire: seq<Dict>)
    requires forall i :: 0 <= i < |wire| ==> ReadsBack(wire[i])
    ensures CitationsFromWire(wire).Ok?
    ensures var again := CitationsFromWire(wire).value; |again| == |wire| && CitationsToWire(again) == wire
  {
    if wire != [] {
      assert ReadsBack(wire[0]);
      AllReadBack(wire[1..]);
      var again := CitationsFromWire(wire).value;
      assert CitationsToWire(again[1..]) == wire[1..];
      forall i | 0 <= i < |wire| ensures CitationsToWire(again)[i] == wire[i] {
        assert i > 0 ==> CitationsToWire(again[1..])[i - 1] == wire[1..][i - 1] && again[1..][i - 1] == again[i];
      }
    }
  }

  lemma CitationsSurvive(citations: seq<Citation>)
    ensures CitationsFromWire(CitationsToWire(citations)).Ok?
    ensures var again := CitationsFromWire(CitationsToWire(citations)).value;
            |again| == |citations| && CitationsToWire(again) == CitationsToWire(citations)
  {
    var wire := CitationsToWire(citations);
    forall i | 0 <= i < |wire| ensures ReadsBack(wire[i]) {
      CitationSurvives(citations[i]);
    }
    AllReadBack(wire);
  }

  lemma TextSurvives(p: TextPart)
    ensures TextToPart(TextToBlock(p)).Ok?
    ensures TextToBlock(TextToPart(TextToBlock(p)).value) == TextToBlock(p)
  {
    if p.citations.Some? {
      CitationsSurvive(p.citations.value);
    }
  }

  lemma {:induction false} ItemsSurvive(items: seq<DocumentItem>)
    ensures ItemsToParts(ItemsToBlocks(items)).Ok?
    ensures ItemsToBlocks(ItemsToParts(ItemsToBlocks(items)).value) == ItemsToBlocks(items)
  {
    if items != [] {
      if items[0].TextItem? {
        TextSurvives(items[0].text);
      }
      ItemsSurvive(items[1..]);
      assert ItemsToBlocks(items)[1..] == ItemsToBlocks(items[1..]);
      var again := ItemsToParts(ItemsToBlocks(items)).value;
      assert again[1..] == ItemsToParts(ItemsToBlocks(items[1..])).value;
      assert ItemsToBlocks(again) == [ItemToBlock(again[0])] + ItemsToBlocks(again[1..]);
    }
  }

  /** What can be printed at all. */
  predicate Printable(part: Part) {
    match part
    case ToolResult(_, _, _, _) => false
    case ToolCall(_, _, input, _) => input.JObj?
    case ServerToolCall(callType, extra, _, _, input, _) =>
      !Clashes(extra, SERVER_USE_FIELDS) && callType in {"server_tool_use", "mcp_tool_use"} && input.JObj?
    case ServerToolResult(resultType, extra, _, result, _) =>
      if resultType == "web_search_tool_result" then result.JArr? else !Clashes(extra, SERVER_RESULT_FIELDS)
    case _ => true
  }

  /** Every part that prints also parses back, and printing what was parsed gives the same
      wire block: no second trip through the gateway changes what a client sees. */
  lemma PrintParsePrint(part: Part)
    ensures PartToBlock(part).Ok? <==> Printable(part)
    ensures PartToBlock(part).Ok? ==>
              && BlockToPart(PartToBlock(part).value).Ok?
              && PartToBlock(BlockToPart(PartToBlock(part).value).value) == PartToBlock(part)
  {
    match part {
      case Text(t) => TextSurvives(t);
      case Document(d) =>
        if d.sourceKind.Content? {
          ItemsSurvive(d.content.GetOr([]));
        }
      case Search(s) =>
        var block := SearchToBlock(s);
        assert SearchToBlock(SearchToPart(block)).content == block.content;
      case _ =>
    }
  }
}
