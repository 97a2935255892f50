/** Messages as Bedrock Converse takes them: `_convert_message_to_bedrock` and the part
    converters of src/ttllm/core/providers/bedrock/converse.py. */
module BedrockRequest {
  import opened Model
  import opened DocumentNames

  datatype Failure = UnsupportedContent | ServerToolUsed

  datatype Converted<+T> = Ok(value: T) | Raised(error: Failure)

  /** A document's source: bytes of a text, bytes decoded from base64, or, with citations, the
      text itself or its pieces. */
  datatype Source =
    | TextBytes(text: string)
    | DecodedBytes(data: string)
    | CitableText(text: string)
    | CitablePieces(pieces: seq<string>)

  datatype Doc = Doc(format: string, name: string, source: Source, context: Option<string>, citations: bool)

  /** An element of a toolResult's content. */
  datatype Inner =
    | InnerText(text: string)
    | InnerImage(format: string, data: string)
    | InnerDocument(doc: Doc)
    | InnerSearch(source: string, title: string, texts: seq<string>, citations: bool)

  datatype Block =
    | Simple(inner: Inner)
    | ToolUseBlock(id: string, name: string, input: Json)
    | ToolResultBlock(id: string, content: seq<Inner>, isError: bool)
    | ReasoningBlock(text: string, signature: string)
    | CachePoint

  /** The string methods that conversion calls. */
  datatype Strings = Strings(isSpace: char -> bool, lower: string -> string, strip: string -> string)

  // --- Media types ---

  function Until(s: string, stop: char): string {
    if s == "" || s[0] == stop then "" else [s[0]] + Until(s[1..], stop)
  }

  function After(s: string, start: char): string {
    if s == "" then "" else if s[0] == start then s[1..] else After(s[1..], start)
  }

  function ImageFormat(mediaType: string, strings: Strings): Option<string> {
    var name := strings.lower(if '/' in mediaType then Until(After(mediaType, '/'), '/') else mediaType);
    if name == "jpg" then Some("jpeg")
    else if name in ["png", "jpeg", "gif", "webp"] then Some(name)
    else None
  }

  const DOCUMENT_FORMATS := map[
    "application/pdf" := "pdf",
    "text/plain" := "txt",
    "text/markdown" := "md",
    "text/x-markdown" := "md",
    "text/csv" := "csv",
    "text/html" := "html",
    "application/msword" := "doc",
    "application/vnd.openxmlformats-officedocument.wordprocessingml.document" := "docx",
    "application/vnd.ms-excel" := "xls",
    "application/vnd.openxmlformats-officedocument.spreadsheetml.sheet" := "xlsx"]

  function DocumentFormat(mediaType: string, strings: Strings): Option<string> {
    var key := strings.lower(strings.strip(Until(mediaType, ';')));
    if key in DOCUMENT_FORMATS then Some(DOCUMENT_FORMATS[key]) else None
  }

  // --- Documents ---

  function Pieces(items: seq<DocumentItem>): Option<seq<string>> {
    if items == [] then Some([])
    else
      match (items[0], Pieces(items[1..]))
      case (TextItem(t), Some(rest)) => Some([t.text] + rest)
      case _ => None
  }

  /** `"\\n\\n".join(pieces)` */
  function Paragraphs(pieces: seq<string>): string {
    if pieces == [] then ""
    else if |pieces| == 1 then pieces[0]
    else pieces[0] + "\n\n" + Paragraphs(pieces[1..])
  }

  /** Format and source; None when the content is not supported. */
  function SourceOf(p: DocumentPart, strings: Strings): Option<(string, Source)> {
    match p.sourceKind
    case PlainText =>
      var text := p.text.GetOr("");
      Some(("txt", if p.citations then CitableText(text) else TextBytes(text)))
    case Content =>
      (match Pieces(p.content.GetOr([]))
       case None => None
       case Some(pieces) =>
         Some(("txt", if p.citations then CitablePieces(pieces) else TextBytes(Paragraphs(pieces)))))
    case Base64 =>
      match DocumentFormat(p.mediaType, strings)
      case None => None
      case Some(format) => Some((format, DecodedBytes(p.data)))
  }

  function ContextOf(p: DocumentPart): Option<string> {
    if p.context == Some("") then None else p.context
  }

  /** `_document_part_to_bedrock`, when these names are in use. */
  function DocumentWith(p: DocumentPart, used: set<string>, strings: Strings): Converted<Doc> {
    match SourceOf(p, strings)
    case None => Raised(UnsupportedContent)
    case Some((format, source)) =>
      Ok(Doc(format, Allocated(p.title, used, strings.isSpace), source, ContextOf(p), p.citations))
  }

  function Texts(parts: seq<TextPart>): seq<string> {
    seq(|parts|, i requires 0 <= i < |parts| => parts[i].text)
  }

  function InnerWith(item: ResultItem, used: set<string>, strings: Strings): Converted<Inner> {
    match item
    case ResultText(t) => Ok(InnerText(t.text))
    case ResultImage(image) =>
      (match ImageFormat(image.mediaType, strings)
       case None => Raised(UnsupportedContent)
       case Some(format) => Ok(InnerImage(format, image.data)))
    case ResultDocument(p) =>
      (match DocumentWith(p, used, strings)
       case Ok(doc) => Ok(InnerDocument(doc))
       case Raised(e) => Raised(e))
    case ResultSearch(s) => Ok(InnerSearch(s.source, s.title, Texts(s.content), s.citations))
  }

  // --- Titles and names ---

  function TitleOfItem(item: ResultItem): seq<Option<string>> {
    match item
    case ResultDocument(p) => [p.title]
    case _ => []
  }

  function TitlesOfItems(items: seq<ResultItem>): seq<Option<string>> {
    if items == [] then [] else TitleOfItem(items[0]) + TitlesOfItems(items[1..])
  }

  function TitlesOfPart(part: Part): seq<Option<string>> {
    match part
    case Document(p) => [p.title]
    case ToolResult(_, content, _, _) => TitlesOfItems(content)
    case _ => []
  }

  /** The titles of all documents of a message, in order, those in tool results included. */
  function TitlesOf(parts: seq<Part>): seq<Option<string>> {
    if parts == [] then [] else TitlesOfPart(parts[0]) + TitlesOf(parts[1..])
  }

  function TitlesOfAll(messages: seq<seq<Part>>): seq<Option<string>> {
    if messages == [] then [] else TitlesOf(messages[0]) + TitlesOfAll(messages[1..])
  }

  function NameOfInner(inner: Inner): seq<string> {
    match inner
    case InnerDocument(doc) => [doc.name]
    case _ => []
  }

  function NamesOfInners(inners: seq<Inner>): seq<string> {
    if inners == [] then [] else NameOfInner(inners[0]) + NamesOfInners(inners[1..])
  }

  function NamesOfBlock(block: Block): seq<string> {
    match block
    case Simple(inner) => NameOfInner(inner)
    case ToolResultBlock(_, content, _) => NamesOfInners(content)
    case _ => []
  }

  /** The document names of a converted message, in order. */
  function NamesOf(blocks: seq<Block>): seq<string> {
    if blocks == [] then [] else NamesOfBlock(blocks[0]) + NamesOf(blocks[1..])
  }

  function NamesOfAll(messages: seq<seq<Block>>): seq<string> {
    if messages == [] then [] else NamesOf(messages[0]) + NamesOfAll(messages[1..])
  }

  /** The names that documents with these titles get, one after the other. */
  function NamesFor(titles: seq<Option<string>>, used: set<string>, strings: Strings): seq<string> {
    if titles == [] then []
    else
      var name := Allocated(titles[0], used, strings.isSpace);
      [name] + NamesFor(titles[1..], used + {name}, strings)
  }

  /** The names in use afterwards. */
  function UsedAfter(titles: seq<Option<string>>, used: set<string>, strings: Strings): set<string> {
    if titles == [] then used
    else UsedAfter(titles[1..], used + {Allocated(titles[0], used, strings.isSpace)}, strings)
  }

  lemma {:induction false} NamesForBoth(a: seq<Option<string>>, b: seq<Option<string>>,
                                        used: set<string>, strings: Strings)
    ensures NamesFor(a + b, used, strings)
         == NamesFor(a, used, strings) + NamesFor(b, UsedAfter(a, used, strings), strings)
    ensures UsedAfter(a + b, used, strings) == UsedAfter(b, UsedAfter(a, used, strings), strings)
  {
    if a == [] {
      assert a + b == b;
    } else {
      assert (a + b)[1..] == a[1..] + b;
      NamesForBoth(a[1..], b, used + {Allocated(a[0], used, strings.isSpace)}, strings);
    }
  }

  // --- Parts ---

  function InnersWith(items: seq<ResultItem>, used: set<string>, strings: Strings): Converted<seq<Inner>> {
    if items == [] then Ok([])
    else
      match InnerWith(items[0], used, strings)
      case Raised(e) => Raised(e)
      case Ok(inner) =>
        match InnersWith(items[1..], UsedAfter(TitleOfItem(items[0]), used, strings), strings)
        case Raised(e) => Raised(e)
        case Ok(rest) => Ok([inner] + rest)
  }

  function Caching(part: Part): bool {
    match part
    case Text(t) => t.cacheControl
    case Image(i) => i.cacheControl
    case Document(d) => d.cacheControl
    case Search(s) => s.cacheControl
    case _ => part.cacheControl
  }

  function Alone(converted: Converted<Inner>): Converted<Option<Block>> {
    match converted
    case Raised(e) => Raised(e)
    case Ok(inner) => Ok(Some(Simple(inner)))
  }

  /** `_convert_part_to_bedrock`; a redacted thinking part becomes nothing. */
  function PartWith(part: Part, used: set<string>, strings: Strings): Converted<Option<Block>> {
    match part
    case Text(t) => Alone(InnerWith(ResultText(t), used, strings))
    case Image(i) => Alone(InnerWith(ResultImage(i), used, strings))
    case Document(d) => Alone(InnerWith(ResultDocument(d), used, strings))
    case Search(s) => Alone(InnerWith(ResultSearch(s), used, strings))
    case ToolCall(id, name, input, _) => Ok(Some(ToolUseBlock(id, name, input)))
    case ToolResult(id, content, isError, _) =>
      (match InnersWith(content, used, strings)
       case Raised(e) => Raised(e)
       case Ok(inners) => Ok(Some(ToolResultBlock(id, inners, isError))))
    case Thinking(text, signature, _) => Ok(Some(ReasoningBlock(text, signature)))
    case RedactedThinking(_, _) => Ok(None)
    case ServerToolCall(_, _, _, _, _, _) => Raised(ServerToolUsed)
    case ServerToolResult(_, _, _, _, _) => Raised(ServerToolUsed)
  }

  /** A block, followed by the cache point that its part asked for. */
  function WithCachePoint(block: Option<Block>, part: Part): seq<Block> {
    match block
    case None => []
    case Some(b) => if Caching(part) then [b, CachePoint] else [b]
  }

  function MessageWith(parts: seq<Part>, used: set<string>, strings: Strings): Converted<seq<Block>> {
    if parts == [] then Ok([])
    else
      match PartWith(parts[0], used, strings)
      case Raised(e) => Raised(e)
      case Ok(block) =>
        match MessageWith(parts[1..], UsedAfter(TitlesOfPart(parts[0]), used, strings), strings)
        case Raised(e) => Raised(e)
        case Ok(rest) => Ok(WithCachePoint(block, parts[0]) + rest)
  }

  function MessagesWith(messages: seq<seq<Part>>, used: set<string>, strings: Strings): Converted<seq<seq<Block>>> {
    if messages == [] then Ok([])
    else
      match MessageWith(messages[0], used, strings)
      case Raised(e) => Raised(e)
      case Ok(blocks) =>
        match MessagesWith(messages[1..], UsedAfter(TitlesOf(messages[0]), used, strings), strings)
        case Raised(e) => Raised(e)
        case Ok(rest) => Ok([blocks] + rest)
  }

  // --- The converters, with one allocator for the whole request ---

  /** What a loop returns that has done some of the work and does the rest. */
  function Prefixed<T>(done: seq<T>, rest: Converted<seq<T>>): Converted<seq<T>> {
    match rest
    case Raised(e) => Raised(e)
    case Ok(more) => Ok(done + more)
  }

  /** A new name is taken only for a document that can be converted. */
  method ConvertItem(item: ResultItem, names: Allocator, strings: Strings) returns (inner: Converted<Inner>)
    requires names.isSpace == strings.isSpace
    modifies names
    ensures inner == InnerWith(item, old(names.used), strings)
    ensures inner.Ok? ==> names.used == UsedAfter(TitleOfItem(item), old(names.used), strings)
  {
    match item {
      case ResultDocument(p) =>
        var source := SourceOf(p, strings);
        if source.None? {
          return Raised(UnsupportedContent);
        }
        var name := names.Take(p.title);
        assert UsedAfter([p.title], old(names.used), strings) == UsedAfter([], old(names.used) + {name}, strings);
        return Ok(InnerDocument(Doc(source.value.0, name, source.value.1, ContextOf(p), p.citations)));
      case _ =>
        return InnerWith(item, {}, strings);
    }
  }

  lemma PrefixedTwice<T>(done: seq<T>, next: seq<T>, rest: Converted<seq<T>>)
    ensures Prefixed(done + next, rest) == Prefixed(done, Prefixed(next, rest))
    ensures Prefixed([], rest) == rest
  {
    if rest.Ok? {
      assert done + next + rest.value == done + (next + rest.value);
      assert [] + rest.value == rest.value;
    }
  }

  /** What is left of a list of items once `done` has been made of the first i. */
  ghost predicate ItemsLeft(items: seq<ResultItem>, start: set<string>, strings: Strings,
                            i: nat, done: seq<Inner>, used: set<string>)
  {
    && i <= |items|
    && InnersWith(items, start, strings) == Prefixed(done, InnersWith(items[i..], used, strings))
    && UsedAfter(TitlesOfItems(items), start, strings) == UsedAfter(TitlesOfItems(items[i..]), used, strings)
  }

  lemma NextItem(items: seq<ResultItem>, start: set<string>, strings: Strings,
                 i: nat, done: seq<Inner>, used: set<string>)
    requires i < |items| && ItemsLeft(items, start, strings, i, done, used)
    ensures match InnerWith(items[i], used, strings)
            case Raised(e) => InnersWith(items, start, strings) == Raised(e)
            case Ok(inner) => ItemsLeft(items, start, strings, i + 1, done + [inner],
                                        UsedAfter(TitleOfItem(items[i]), used, strings))
  {
    var left, rest := items[i..], items[i + 1..];
    assert left[0] == items[i] && left[1..] == rest;
    NamesForBoth(TitleOfItem(items[i]), TitlesOfItems(rest), used, strings);
    var inner := InnerWith(items[i], used, strings);
    var more := InnersWith(rest, UsedAfter(TitleOfItem(items[i]), used, strings), strings);
    if inner.Ok? {
      assert InnersWith(left, used, strings) == Prefixed([inner.value], more);
      PrefixedTwice(done, [inner.value], more);
    }
  }

  /** `_tool_result_content_to_bedrock` */
  method ConvertItems(items: seq<ResultItem>, names: Allocator, strings: Strings)
    returns (inners: Converted<seq<Inner>>)
    requires names.isSpace == strings.isSpace
    modifies names
    ensures inners == InnersWith(items, old(names.used), strings)
    ensures inners.Ok? ==> names.used == UsedAfter(TitlesOfItems(items), old(names.used), strings)
  {
    var parts: seq<Inner> := [];
    var i := 0;
    assert items[0..] == items;
    PrefixedTwice([], [], InnersWith(items, names.used, strings));
    while i < |items|
      invariant 0 <= i <= |items|
      invariant ItemsLeft(items, old(names.used), strings, i, parts, names.used)
    {
      NextItem(items, old(names.used), strings, i, parts, names.used);
      var inner := ConvertItem(items[i], names, strings);
      if inner.Raised? {
        return Raised(inner.error);
      }
      parts := parts + [inner.value];
      i := i + 1;
    }
    assert items[i..] == [] && parts + [] == parts;
    return Ok(parts);
  }

  method ConvertPart(part: Part, names: Allocator, strings: Strings) returns (block: Converted<Option<Block>>)
    requires names.isSpace == strings.isSpace
    modifies names
    ensures block == PartWith(part, old(names.used), strings)
    ensures block.Ok? ==> names.used == UsedAfter(TitlesOfPart(part), old(names.used), strings)
  {
    match part {
      case Document(d) =>
        var inner := ConvertItem(ResultDocument(d), names, strings);
        return Alone(inner);
      case ToolResult(id, content, isError, _) =>
        var inners := ConvertItems(content, names, strings);
        match inners {
          case Raised(e) => return Raised(e);
          case Ok(value) => return Ok(Some(ToolResultBlock(id, value, isError)));
        }
      case _ =>
        return PartWith(part, {}, strings);
    }
  }

  ghost predicate PartsLeft(parts: seq<Part>, start: set<string>, strings: Strings,
                            i: nat, done: seq<Block>, used: set<string>)
  {
    && i <= |parts|
    && MessageWith(parts, start, strings) == Prefixed(done, MessageWith(parts[i..], used, strings))
    && UsedAfter(TitlesOf(parts), start, strings) == UsedAfter(TitlesOf(parts[i..]), used, strings)
  }

  lemma NextPart(parts: seq<Part>, start: set<string>, strings: Strings, i: nat, done: seq<Block>, used: set<string>)
    requires i < |parts| && PartsLeft(parts, start, strings, i, done, used)
    ensures match PartWith(parts[i], used, strings)
            case Raised(e) => MessageWith(parts, start, strings) == Raised(e)
            case Ok(block) => PartsLeft(parts, start, strings, i + 1, done + WithCachePoint(block, parts[i]),
                                        UsedAfter(TitlesOfPart(parts[i]), used, strings))
  {
    var left, rest := parts[i..], parts[i + 1..];
    assert left[0] == parts[i] && left[1..] == rest;
    NamesForBoth(TitlesOfPart(parts[i]), TitlesOf(rest), used, strings);
    var block := PartWith(parts[i], used, strings);
    var more := MessageWith(rest, UsedAfter(TitlesOfPart(parts[i]), used, strings), strings);
    if block.Ok? {
      var blocks := WithCachePoint(block.value, parts[i]);
      assert MessageWith(left, used, strings) == Prefixed(blocks, more);
      PrefixedTwice(done, blocks, more);
    }
  }

  /** `_convert_message_to_bedrock`, for the content of a message. */
  method ConvertMessage(parts: seq<Part>, names: Allocator, strings: Strings) returns (blocks: Converted<seq<Block>>)
    requires names.isSpace == strings.isSpace
    modifies names
    ensures blocks == MessageWith(parts, old(names.used), strings)
    ensures blocks.Ok? ==> names.used == UsedAfter(TitlesOf(parts), old(names.used), strings)
  {
    var content: seq<Block> := [];
    var i := 0;
    assert parts[0..] == parts;
    PrefixedTwice([], [], MessageWith(parts, names.used, strings));
    while i < |parts|
      invariant 0 <= i <= |parts|
      invariant PartsLeft(parts, old(names.used), strings, i, content, names.used)
    {
      NextPart(parts, old(names.used), strings, i, content, names.used);
      var block := ConvertPart(parts[i], names, strings);
      if block.Raised? {
        return Raised(block.error);
      }
      content := content + WithCachePoint(block.value, parts[i]);
      i := i + 1;
    }
    assert parts[i..] == [] && content + [] == content;
    return Ok(content);
  }

  ghost predicate MessagesLeft(messages: seq<seq<Part>>, strings: Strings,
                               i: nat, done: seq<seq<Block>>, used: set<string>)
  {
    && i <= |messages|
    && MessagesWith(messages, {}, strings) == Prefixed(done, MessagesWith(messages[i..], used, strings))
  }

  lemma NextMessage(messages: seq<seq<Part>>, strings: Strings, i: nat, done: seq<seq<Block>>, used: set<string>)
    requires i < |messages| && MessagesLeft(messages, strings, i, done, used)
    ensures match MessageWith(messages[i], used, strings)
            case Raised(e) => MessagesWith(messages, {}, strings) == Raised(e)
            case Ok(blocks) => MessagesLeft(messages, strings, i + 1, done + [blocks],
                                            UsedAfter(TitlesOf(messages[i]), used, strings))
  {
    var left, rest := messages[i..], messages[i + 1..];
    assert left[0] == messages[i] && left[1..] == rest;
    var blocks := MessageWith(messages[i], used, strings);
    var more := MessagesWith(rest, UsedAfter(TitlesOf(messages[i]), used, strings), strings);
    if blocks.Ok? {
      assert MessagesWith(left, used, strings) == Prefixed([blocks.value], more);
      PrefixedTwice(done, [blocks.value], more);
    }
  }

  /** The messages of `build_converse_request`: one allocator names all their documents. */
  method ConvertMessages(messages: seq<seq<Part>>, strings: Strings) returns (converted: Converted<seq<seq<Block>>>)
    ensures converted == MessagesWith(messages, {}, strings)
  {
    var names := new Allocator(strings.isSpace);
    var done: seq<seq<Block>> := [];
    var i := 0;
    assert messages[0..] == messages;
    PrefixedTwice([], [], MessagesWith(messages, {}, strings));
    while i < |messages|
      invariant 0 <= i <= |messages| && fresh(names) && names.isSpace == strings.isSpace
      invariant MessagesLeft(messages, strings, i, done, names.used)
    {
      NextMessage(messages, strings, i, done, names.used);
      var blocks := ConvertMessage(messages[i], names, strings);
      if blocks.Raised? {
        return Raised(blocks.error);
      }
      done := done + [blocks.value];
      i := i + 1;
    }
    assert messages[i..] == [] && done + [] == done;
    return Ok(done);
  }

  // --- The names of a request ---

  lemma {:induction false} ItemsAreNamedInOrder(items: seq<ResultItem>, used: set<string>, strings: Strings)
    requires InnersWith(items, used, strings).Ok?
    ensures NamesOfInners(InnersWith(items, used, strings).value) == NamesFor(TitlesOfItems(items), used, strings)
  {
    if items != [] {
      var after := UsedAfter(TitleOfItem(items[0]), used, strings);
      var inner, rest := InnerWith(items[0], used, strings).value, InnersWith(items[1..], after, strings).value;
      ItemsAreNamedInOrder(items[1..], after, strings);
      NamesForBoth(TitleOfItem(items[0]), TitlesOfItems(items[1..]), used, strings);
      assert ([inner] + rest)[1..] == rest;
      assert NameOfInner(inner) == NamesFor(TitleOfItem(items[0]), used, strings);
    }
  }

  lemma PartIsNamed(part: Part, used: set<string>, strings: Strings)
    requires PartWith(part, used, strings).Ok?
    ensures NamesOf(WithCachePoint(PartWith(part, used, strings).value, part))
         == NamesFor(TitlesOfPart(part), used, strings)
  {
    if part.ToolResult? {
      ItemsAreNamedInOrder(part.content, used, strings);
    }
    var block := PartWith(part, used, strings).value;
    if block.Some? {
      NamesOfBoth([block.value], [CachePoint]);
      assert NamesOf([block.value]) == NamesOfBlock(block.value);
      assert NamesOf([CachePoint]) == [];
      assert [block.value, CachePoint] == [block.value] + [CachePoint];
    }
  }

  lemma {:induction false} NamesOfBoth(a: seq<Block>, b: seq<Block>)
    ensures NamesOf(a + b) == NamesOf(a) + NamesOf(b)
  {
    if a == [] {
      assert a + b == b;
    } else {
      assert (a + b)[1..] == a[1..] + b;
      NamesOfBoth(a[1..], b);
    }
  }

  lemma {:induction false} MessageIsNamedInOrder(parts: seq<Part>, used: set<string>, strings: Strings)
    requires MessageWith(parts, used, strings).Ok?
    ensures NamesOf(MessageWith(parts, used, strings).value) == NamesFor(TitlesOf(parts), used, strings)
  {
    if parts != [] {
      var after := UsedAfter(TitlesOfPart(parts[0]), used, strings);
      MessageIsNamedInOrder(parts[1..], after, strings);
      PartIsNamed(parts[0], used, strings);
      NamesForBoth(TitlesOfPart(parts[0]), TitlesOf(parts[1..]), used, strings);
      NamesOfBoth(WithCachePoint(PartWith(parts[0], used, strings).value, parts[0]),
                  MessageWith(parts[1..], after, strings).value);
    }
  }

  lemma {:induction false} RequestIsNamedInOrder(messages: seq<seq<Part>>, used: set<string>, strings: Strings)
    requires MessagesWith(messages, used, strings).Ok?
    ensures NamesOfAll(MessagesWith(messages, used, strings).value) == NamesFor(TitlesOfAll(messages), used, strings)
  {
    if messages != [] {
      var after := UsedAfter(TitlesOf(messages[0]), used, strings);
      RequestIsNamedInOrder(messages[1..], after, strings);
      MessageIsNamedInOrder(messages[0], used, strings);
      NamesForBoth(TitlesOf(messages[0]), TitlesOfAll(messages[1..]), used, strings);
      var first := MessageWith(messages[0], used, strings).value;
      var rest := MessagesWith(messages[1..], after, strings).value;
      assert ([first] + rest)[1..] == rest;
    }
  }

  lemma {:induction false} NamesForAreFresh(titles: seq<Option<string>>, used: set<string>, strings: Strings)
    requires IsWhiteSpace(strings.isSpace)
    ensures var names := NamesFor(titles, used, strings);
            && |names| == |titles|
            && (forall i, j :: 0 <= i < j < |names| ==> names[i] != names[j])
            && (forall i :: 0 <= i < |names| ==> names[i] !in used)
            && (forall i, k :: 0 <= i < |names| && 0 <= k < |names[i]| ==> IsKept(names[i][k]) || names[i][k] == ' ')
            && (|used| + |titles| <= 999 ==> forall i :: 0 <= i < |names| ==> |names[i]| <= NAME_MAX)
  {
    if titles != [] {
      var name := Allocated(titles[0], used, strings.isSpace);
      NameIsValid(titles[0], used, strings.isSpace);
      NamesForAreFresh(titles[1..], used + {name}, strings);
      var names, rest := NamesFor(titles, used, strings), NamesFor(titles[1..], used + {name}, strings);
      assert forall i :: 0 < i < |names| ==> names[i] == rest[i - 1];
    }
  }

  /** No two documents of a request have the same name, wherever they are, tool results
      included; the names use only what Converse allows, and up to 999 documents none is
      longer than 200 characters. */
  lemma NamesAreDistinct(messages: seq<seq<Part>>, strings: Strings)
    requires IsWhiteSpace(strings.isSpace) && MessagesWith(messages, {}, strings).Ok?
    ensures var names := NamesOfAll(MessagesWith(messages, {}, strings).value);
            && |names| == |TitlesOfAll(messages)|
            && (forall i, j :: 0 <= i < j < |names| ==> names[i] != names[j])
            && (forall i, k :: 0 <= i < |names| && 0 <= k < |names[i]| ==> IsKept(names[i][k]) || names[i][k] == ' ')
            && (|names| <= 999 ==> forall i :: 0 <= i < |names| ==> |names[i]| <= NAME_MAX)
  {
    RequestIsNamedInOrder(messages, {}, strings);
    NamesForAreFresh(TitlesOfAll(messages), {}, strings);
  }

  // --- What is refused ---

  predicate ItemIsSupported(item: ResultItem, strings: Strings) {
    match item
    case ResultImage(i) => ImageFormat(i.mediaType, strings).Some?
    case ResultDocument(d) => SourceOf(d, strings).Some?
    case _ => true
  }

  predicate PartIsSupported(part: Part, strings: Strings) {
    match part
    case Image(i) => ItemIsSupported(ResultImage(i), strings)
    case Document(d) => ItemIsSupported(ResultDocument(d), strings)
    case ToolResult(_, content, _, _) => forall i :: 0 <= i < |content| ==> ItemIsSupported(content[i], strings)
    case ServerToolCall(_, _, _, _, _, _) => false
    case ServerToolResult(_, _, _, _, _) => false
    case _ => true
  }

  lemma {:induction false} ItemsConvertWhenSupported(items: seq<ResultItem>, used: set<string>, strings: Strings)
    ensures InnersWith(items, used, strings).Ok?
        <==> forall i :: 0 <= i < |items| ==> ItemIsSupported(items[i], strings)
  {
    if items != [] {
      ItemsConvertWhenSupported(items[1..], UsedAfter(TitleOfItem(items[0]), used, strings), strings);
      assert forall i :: 0 < i < |items| ==> items[i] == items[1..][i - 1];
    }
  }

  lemma PartConvertsWhenSupported(part: Part, used: set<string>, strings: Strings)
    ensures PartWith(part, used, strings).Ok? <==> PartIsSupported(part, strings)
  {
    if part.ToolResult? {
      ItemsConvertWhenSupported(part.content, used, strings);
    }
  }

  /** A message converts exactly when every part of it is supported, whatever names are in
      use. */
  lemma {:induction false} MessageConvertsWhenSupported(parts: seq<Part>, used: set<string>, strings: Strings)
    ensures MessageWith(parts, used, strings).Ok?
        <==> forall i :: 0 <= i < |parts| ==> PartIsSupported(parts[i], strings)
  {
    if parts != [] {
      PartConvertsWhenSupported(parts[0], used, strings);
      MessageConvertsWhenSupported(parts[1..], UsedAfter(TitlesOfPart(parts[0]), used, strings), strings);
      assert forall i :: 0 < i < |parts| ==> parts[i] == parts[1..][i - 1];
    }
  }
}
