/** What a converted request still says: `_convert_message_to_bedrock` and the part converters
    of src/ttllm/core/providers/bedrock/converse.py keep the content of a message. */
module BedrockContent {
  import opened Model
  import opened BedrockRequest

  /** What a model is shown, apart from how it is wrapped. A mark asks to cache what came
      before it. */
  datatype Payload =
    | Said(text: string)
    | Shown(format: string, data: string)
    | Attached(format: string, text: string, context: string, citable: bool)
    | Found(source: string, title: string, texts: seq<string>, citable: bool)
    | Called(id: string, name: string, input: Json)
    | Returned(id: string, content: seq<Payload>, isError: bool)
    | Thought(text: string, signature: string)
    | Mark

  // --- Read from the parts ---

  function TextsIn(items: seq<DocumentItem>): seq<string> {
    if items == [] then []
    else (if items[0].TextItem? then [items[0].text.text] else []) + TextsIn(items[1..])
  }

  /** A document's text, or its encoded data. */
  function DocumentText(p: DocumentPart): string {
    match p.sourceKind
    case Base64 => p.data
    case PlainText => p.text.GetOr("")
    case Content => Paragraphs(TextsIn(p.content.GetOr([])))
  }

  function ItemPayload(item: ResultItem, strings: Strings): Payload {
    match item
    case ResultText(t) => Said(t.text)
    case ResultImage(i) => Shown(ImageFormat(i.mediaType, strings).GetOr(""), i.data)
    case ResultDocument(p) =>
      Attached(if p.sourceKind.Base64? then DocumentFormat(p.mediaType, strings).GetOr("") else "txt",
               DocumentText(p), p.context.GetOr(""), p.citations)
    case ResultSearch(s) => Found(s.source, s.title, Texts(s.content), s.citations)
  }

  function ItemPayloads(items: seq<ResultItem>, strings: Strings): seq<Payload> {
    if items == [] then [] else [ItemPayload(items[0], strings)] + ItemPayloads(items[1..], strings)
  }

  function PartPayload(part: Part, strings: Strings): Option<Payload> {
    match part
    case Text(t) => Some(Said(t.text))
    case Image(i) => Some(ItemPayload(ResultImage(i), strings))
    case Document(d) => Some(ItemPayload(ResultDocument(d), strings))
    case Search(s) => Some(ItemPayload(ResultSearch(s), strings))
    case ToolCall(id, name, input, _) => Some(Called(id, name, input))
    case ToolResult(id, content, isError, _) => Some(Returned(id, ItemPayloads(content, strings), isError))
    case Thinking(text, signature, _) => Some(Thought(text, signature))
    case _ => None
  }

  /** What a message says; a redacted thinking part says nothing, and is not marked either. */
  function Says(parts: seq<Part>, strings: Strings): seq<Payload> {
    if parts == [] then []
    else
      (match PartPayload(parts[0], strings)
       case None => []
       case Some(p) => if Caching(parts[0]) then [p, Mark] else [p])
      + Says(parts[1..], strings)
  }

  // --- Read from the blocks ---

  function SourceText(source: Source): string {
    match source
    case TextBytes(text) => text
    case DecodedBytes(data) => data
    case CitableText(text) => text
    case CitablePieces(pieces) => Paragraphs(pieces)
  }

  function InnerPayload(inner: Inner): Payload {
    match inner
    case InnerText(text) => Said(text)
    case InnerImage(format, data) => Shown(format, data)
    case InnerDocument(doc) => Attached(doc.format, SourceText(doc.source), doc.context.GetOr(""), doc.citations)
    case InnerSearch(source, title, texts, citations) => Found(source, title, texts, citations)
  }

  function InnerPayloads(inners: seq<Inner>): seq<Payload> {
    if inners == [] then [] else [InnerPayload(inners[0])] + InnerPayloads(inners[1..])
  }

  function BlockPayload(block: Block): Payload {
    match block
    case Simple(inner) => InnerPayload(inner)
    case ToolUseBlock(id, name, input) => Called(id, name, input)
    case ToolResultBlock(id, content, isError) => Returned(id, InnerPayloads(content), isError)
    case ReasoningBlock(text, signature) => Thought(text, signature)
    case CachePoint => Mark
  }

  function BlocksSay(blocks: seq<Block>): seq<Payload> {
    if blocks == [] then [] else [BlockPayload(blocks[0])] + BlocksSay(blocks[1..])
  }

  // --- They say the same ---

  lemma {:induction false} PiecesAreTexts(items: seq<DocumentItem>)
    ensures Pieces(items).Some? ==> Pieces(items).value == TextsIn(items)
  {
    if items != [] {
      PiecesAreTexts(items[1..]);
    }
  }

  /** Enabling citations changes how a document is sent, and not what it says. */
  lemma SourceKeepsText(p: DocumentPart, strings: Strings)
    requires SourceOf(p, strings).Some?
    ensures SourceText(SourceOf(p, strings).value.1) == DocumentText(p)
    ensures SourceOf(p.(citations := !p.citations), strings).Some?
    ensures var other := SourceOf(p.(citations := !p.citations), strings).value;
            other.0 == SourceOf(p, strings).value.0 && SourceText(other.1) == DocumentText(p)
  {
    PiecesAreTexts(p.content.GetOr([]));
  }

  lemma ItemSaysTheSame(item: ResultItem, used: set<string>, strings: Strings)
    requires InnerWith(item, used, strings).Ok?
    ensures InnerPayload(InnerWith(item, used, strings).value) == ItemPayload(item, strings)
  {
    if item.ResultDocument? {
      SourceKeepsText(item.document, strings);
    }
  }

  lemma {:induction false} ItemsSayTheSame(items: seq<ResultItem>, used: set<string>, strings: Strings)
    requires InnersWith(items, used, strings).Ok?
    ensures InnerPayloads(InnersWith(items, used, strings).value) == ItemPayloads(items, strings)
  {
    if items != [] {
      var after := UsedAfter(TitleOfItem(items[0]), used, strings);
      ItemSaysTheSame(items[0], used, strings);
      ItemsSayTheSame(items[1..], after, strings);
      var inner, rest := InnerWith(items[0], used, strings).value, InnersWith(items[1..], after, strings).value;
      assert ([inner] + rest)[1..] == rest;
    }
  }

  lemma PartSaysTheSame(part: Part, used: set<string>, strings: Strings)
    requires PartWith(part, used, strings).Ok?
    ensures var block := PartWith(part, used, strings).value;
            PartPayload(part, strings) == if block.None? then None else Some(BlockPayload(block.value))
  {
    match part {
      case Text(t) => ItemSaysTheSame(ResultText(t), used, strings);
      case Image(i) => ItemSaysTheSame(ResultImage(i), used, strings);
      case Document(d) => ItemSaysTheSame(ResultDocument(d), used, strings);
      case Search(s) => ItemSaysTheSame(ResultSearch(s), used, strings);
      case ToolResult(_, content, _, _) => ItemsSayTheSame(content, used, strings);
      case _ =>
    }
  }

  lemma {:induction false} BlocksSayBoth(a: seq<Block>, b: seq<Block>)
    ensures BlocksSay(a + b) == BlocksSay(a) + BlocksSay(b)
  {
    if a == [] {
      assert a + b == b;
    } else {
      assert (a + b)[1..] == a[1..] + b;
      BlocksSayBoth(a[1..], b);
    }
  }

  /** A converted message says what the message said, in the same order, with a cache point
      right after each part that asked for one and nowhere else. A document's title is what
      its name is made from; marks inside a tool result have been moved to the result by the
      time a request gets here, and are not sent. */
  lemma {:induction false} ContentIsKept(parts: seq<Part>, used: set<string>, strings: Strings)
    requires MessageWith(parts, used, strings).Ok?
    ensures BlocksSay(MessageWith(parts, used, strings).value) == Says(parts, strings)
  {
    if parts != [] {
      var after := UsedAfter(TitlesOfPart(parts[0]), used, strings);
      PartSaysTheSame(parts[0], used, strings);
      ContentIsKept(parts[1..], after, strings);
      var blocks := WithCachePoint(PartWith(parts[0], used, strings).value, parts[0]);
      BlocksSayBoth(blocks, MessageWith(parts[1..], after, strings).value);
      assert |blocks| == 2 ==> blocks[1..] == [CachePoint] && BlocksSay([CachePoint]) == [Mark];
    }
  }
}
