/** What the content blocks of Anthropic's format say (src/ttllm/core/adapters/anthropic.py), read
    off their own fields, and how it gets into and out of the gateway. */
module WireMeaning {
  import opened Model
  import opened AnthropicWire
  import BR = BedrockRequest
  import BC = BedrockContent

  // --- Read from the wire ---

  predicate HasMark(cacheControl: Option<Dict>) {
    match cacheControl
    case Some(d) => d.Keys != {}
    case None => false
  }

  /** Citations are on when "enabled" holds something true in Python's sense. */
  predicate CitationsOn(citations: Option<Dict>) {
    match citations
    case None => false
    case Some(d) =>
      && "enabled" in d
      && d["enabled"] !in {JNull, JBool(false), JInt(0), JStr(""), JArr([]), JObj(map[])}
      && (d["enabled"].JReal? ==> d["enabled"].r != 0.0)
  }

  function TextsOn(items: seq<ContentItem>): seq<string> {
    if items == [] then []
    else (match items[0] case TextContent(t) => [t.text] case ImageContent(_) => []) + TextsOn(items[1..])
  }

  function SearchTexts(content: seq<TextBlock>): seq<string> {
    seq(|content|, i requires 0 <= i < |content| => content[i].text)
  }

  function ImageSays(i: ImageBlock, strings: BR.Strings): Option<BC.Payload> {
    match i.source
    case ImageBase64(mediaType, data) => Some(BC.Shown(BR.ImageFormat(mediaType, strings).GetOr(""), data))
    case _ => None
  }

  function DocumentSays(d: DocumentBlock, strings: BR.Strings): Option<BC.Payload> {
    var context, citable := d.context.GetOr(""), CitationsOn(d.citations);
    match d.source
    case DocumentBase64(mediaType, data) =>
      Some(BC.Attached(BR.DocumentFormat(mediaType, strings).GetOr(""), data, context, citable))
    case DocumentText(_, data) => Some(BC.Attached("txt", data, context, citable))
    case DocumentString(text) => Some(BC.Attached("txt", text, context, citable))
    case DocumentContent(items) => Some(BC.Attached("txt", BR.Paragraphs(TextsOn(items)), context, citable))
    case _ => None
  }

  function SearchSays(s: SearchResultBlock): BC.Payload {
    BC.Found(s.source, s.title, SearchTexts(s.content), CitationsOn(s.citations))
  }

  predicate SearchMark(s: SearchResultBlock) {
    HasMark(s.cacheControl) || exists i :: 0 <= i < |s.content| && HasMark(s.content[i].cacheControl)
  }

  function ItemSays(item: ToolResultItem, strings: BR.Strings): Option<BC.Payload> {
    match item
    case ItemText(t) => Some(BC.Said(t.text))
    case ItemImage(i) => ImageSays(i, strings)
    case ItemDocument(d) => DocumentSays(d, strings)
    case ItemSearch(s) => Some(SearchSays(s))
    case ItemUnknown(_) => None
  }

  predicate ItemMark(item: ToolResultItem) {
    match item
    case ItemText(t) => HasMark(t.cacheControl)
    case ItemImage(i) => HasMark(i.cacheControl)
    case ItemDocument(d) => HasMark(d.cacheControl)
    case ItemSearch(s) => SearchMark(s)
    case ItemUnknown(_) => false
  }

  /** The elements of a tool result; a plain text is one, unless it is empty. */
  function ItemsOf(content: ToolResultContent): seq<ToolResultItem> {
    match content
    case ResultString(s) => if s == "" then [] else [ItemText(TextBlock(s, None, None))]
    case ResultItems(items) => items
  }

  function ItemsSay(items: seq<ToolResultItem>, strings: BR.Strings): seq<BC.Payload> {
    if items == [] then []
    else (match ItemSays(items[0], strings) case Some(p) => [p] case None => []) + ItemsSay(items[1..], strings)
  }

  function BlockSays(block: Block, strings: BR.Strings): Option<BC.Payload> {
    match block
    case TextB(t) => Some(BC.Said(t.text))
    case ImageB(i) => ImageSays(i, strings)
    case DocumentB(d) => DocumentSays(d, strings)
    case SearchB(s) => Some(SearchSays(s))
    case ToolUseB(id, name, input, _) => Some(BC.Called(id, name, input))
    case ToolResultB(id, content, isError, _) => Some(BC.Returned(id, ItemsSay(ItemsOf(content), strings), isError))
    case ThinkingB(thinking, signature) => Some(BC.Thought(thinking, signature))
    case _ => None
  }

  /** A block is marked for caching by itself, a search result also by one of its texts, and a tool
      result also by one of its elements. */
  predicate BlockMark(block: Block) {
    match block
    case TextB(t) => HasMark(t.cacheControl)
    case ImageB(i) => HasMark(i.cacheControl)
    case DocumentB(d) => HasMark(d.cacheControl)
    case SearchB(s) => SearchMark(s)
    case ToolUseB(_, _, _, cacheControl) => HasMark(cacheControl)
    case ToolResultB(_, content, _, cacheControl) =>
      || HasMark(cacheControl)
      || exists i :: 0 <= i < |ItemsOf(content)| && ItemMark(ItemsOf(content)[i])
    case _ => false
  }

  // --- What is accepted ---

  predicate TextAccepted(t: TextBlock) {
    match t.citations
    case None => true
    case Some(citations) => CitationsFromWire(citations).Ok?
  }

  predicate ContentAccepted(item: ContentItem) {
    match item
    case TextContent(t) => TextAccepted(t)
    case ImageContent(i) => i.source.ImageBase64?
  }

  predicate DocumentAccepted(d: DocumentBlock) {
    match d.source
    case DocumentContent(items) => forall i :: 0 <= i < |items| ==> ContentAccepted(items[i])
    case DocumentUrl(_) => false
    case DocumentFile(_) => false
    case _ => true
  }

  predicate ItemAccepted(item: ToolResultItem) {
    match item
    case ItemText(t) => TextAccepted(t)
    case ItemImage(i) => i.source.ImageBase64?
    case ItemDocument(d) => DocumentAccepted(d)
    case ItemSearch(_) => true
    case ItemUnknown(_) => false
  }

  predicate Accepted(block: Block) {
    match block
    case TextB(t) => TextAccepted(t)
    case ImageB(i) => i.source.ImageBase64?
    case DocumentB(d) => DocumentAccepted(d)
    case ToolResultB(_, content, _, _) =>
      forall i :: 0 <= i < |ItemsOf(content)| ==> ItemAccepted(ItemsOf(content)[i])
    case UnknownB(_) => false
    case _ => true
  }

  // --- Blocks to parts ---

  lemma MarksAreRead(cacheControl: Option<Dict>, citations: Option<Dict>)
    ensures Marked(cacheControl) == HasMark(cacheControl)
    ensures Enabled(citations) == CitationsOn(citations)
  {
    assert cacheControl.Some? ==> (cacheControl.value == map[] <==> cacheControl.value.Keys == {});
  }

  /** A text block: its text, its mark, and the citations that were read, if there are any. */
  lemma TextIsRead(t: TextBlock)
    ensures TextToPart(t).Ok? <==> TextAccepted(t)
    ensures TextToPart(t).Ok? ==>
              var read := if t.citations.Some? then CitationsFromWire(t.citations.value).value else [];
              TextToPart(t).value == TextPart(t.text, if read == [] then None else Some(read), HasMark(t.cacheControl))
  {
    MarksAreRead(t.cacheControl, None);
  }

  lemma ContentItemIsRead(item: ContentItem)
    ensures ItemToPart(item).Ok? <==> ContentAccepted(item)
    ensures ItemToPart(item).Ok? ==>
              match item
              case TextContent(t) =>
                ItemToPart(item).value.TextItem? && ItemToPart(item).value.text.text == t.text
              case ImageContent(i) =>
                ItemToPart(item).value
                == ImageItem(ImagePart(i.source.mediaType, i.source.data, HasMark(i.cacheControl)))
  {
    match item {
      case TextContent(t) => TextIsRead(t);
      case ImageContent(i) => MarksAreRead(i.cacheControl, None);
    }
  }

  lemma {:induction false} ContentItemsAreRead(items: seq<ContentItem>)
    ensures ItemsToParts(items).Ok? <==> forall i :: 0 <= i < |items| ==> ContentAccepted(items[i])
    ensures ItemsToParts(items).Ok? ==> BC.TextsIn(ItemsToParts(items).value) == TextsOn(items)
  {
    if items != [] {
      ContentItemIsRead(items[0]);
      ContentItemsAreRead(items[1..]);
      assert forall i :: 1 <= i < |items| ==> items[i] == items[1..][i - 1];
      assert forall i :: 0 <= i < |items[1..]| ==> items[1..][i] == items[i + 1];
    }
  }

  lemma DocumentIsRead(d: DocumentBlock, strings: BR.Strings)
    ensures DocumentToPart(d).Ok? <==> DocumentAccepted(d)
    ensures DocumentToPart(d).Ok? ==>
              var p := DocumentToPart(d).value;
              && DocumentSays(d, strings) == Some(BC.ItemPayload(ResultDocument(p), strings))
              && p.title == d.title && p.context == d.context && p.cacheControl == HasMark(d.cacheControl)
  {
    MarksAreRead(d.cacheControl, d.citations);
    match d.source {
      case DocumentContent(items) => ContentItemsAreRead(items);
      case DocumentString(text) =>
        var one := [TextItem(TextPart(text, None, false))];
        assert one[1..] == [] && BC.TextsIn(one) == [text] + BC.TextsIn([]);
      case _ =>
    }
  }

  lemma SearchIsRead(s: SearchResultBlock)
    ensures BC.Found(SearchToPart(s).source, SearchToPart(s).title, BR.Texts(SearchToPart(s).content),
                     SearchToPart(s).citations) == SearchSays(s)
    ensures SearchToPart(s).cacheControl == SearchMark(s)
  {
    MarksAreRead(s.cacheControl, s.citations);
    forall i | 0 <= i < |s.content| ensures Marked(s.content[i].cacheControl) == HasMark(s.content[i].cacheControl) {
      MarksAreRead(s.content[i].cacheControl, None);
    }
    assert BR.Texts(SearchToPart(s).content) == SearchTexts(s.content);
  }

  lemma ItemIsRead(item: ToolResultItem, strings: BR.Strings)
    ensures ResultItemToPart(item).Ok? <==> ItemAccepted(item)
    ensures ResultItemToPart(item).Ok? ==>
              && ItemSays(item, strings) == Some(BC.ItemPayload(ResultItemToPart(item).value, strings))
              && ItemMarked(ResultItemToPart(item).value) == ItemMark(item)
  {
    match item {
      case ItemText(t) => TextIsRead(t);
      case ItemImage(i) => MarksAreRead(i.cacheControl, None);
      case ItemDocument(d) => DocumentIsRead(d, strings);
      case ItemSearch(s) => SearchIsRead(s);
      case ItemUnknown(_) =>
    }
  }

  lemma {:induction false} ItemsAreRead(items: seq<ToolResultItem>, strings: BR.Strings)
    ensures ResultItemsToParts(items).Ok? <==> forall i :: 0 <= i < |items| ==> ItemAccepted(items[i])
    ensures ResultItemsToParts(items).Ok? ==>
              var parts := ResultItemsToParts(items).value;
              && BC.ItemPayloads(parts, strings) == ItemsSay(items, strings)
              && |parts| == |items|
              && forall i :: 0 <= i < |items| ==> ItemMarked(parts[i]) == ItemMark(items[i])
  {
    if items != [] {
      ItemIsRead(items[0], strings);
      ItemsAreRead(items[1..], strings);
      assert forall i :: 1 <= i < |items| ==> items[i] == items[1..][i - 1];
      assert forall i :: 0 <= i < |items[1..]| ==> items[1..][i] == items[i + 1];
    }
  }

  lemma ResultIsRead(content: ToolResultContent, strings: BR.Strings)
    ensures ResultContentToParts(content).Ok? <==>
              forall i :: 0 <= i < |ItemsOf(content)| ==> ItemAccepted(ItemsOf(content)[i])
    ensures ResultContentToParts(content).Ok? ==>
              var parts := ResultContentToParts(content).value;
              && BC.ItemPayloads(parts, strings) == ItemsSay(ItemsOf(content), strings)
              && |parts| == |ItemsOf(content)|
              && forall i :: 0 <= i < |parts| ==> ItemMarked(parts[i]) == ItemMark(ItemsOf(content)[i])
  {
    if content.ResultString? && content.s != "" {
      var t := TextBlock(content.s, None, None);
      ItemsAreRead([ItemText(t)], strings);
      TextIsRead(t);
      assert [ItemText(t)][1..] == [];
      var part := ResultText(TextPart(content.s, None, false));
      assert ResultItemToPart(ItemText(t)) == Ok(part);
      assert [part] + [] == [part];
      assert ResultItemsToParts([]) == Ok([]);
      assert ResultItemsToParts([ItemText(t)]) == Ok([part]);
    } else {
      ItemsAreRead(ItemsOf(content), strings);
    }
  }

  /** A request's block is refused exactly if it, or something in it, is of a kind that the gateway
      does not take; otherwise its part says what the block says, and asks for a cache point
      just when the block is marked. */
  lemma BlockIsRead(block: Block, strings: BR.Strings)
    ensures BlockToPart(block).Ok? <==> Accepted(block)
    ensures BlockToPart(block).Ok? ==>
              && BC.PartPayload(BlockToPart(block).value, strings) == BlockSays(block, strings)
              && BR.Caching(BlockToPart(block).value) == BlockMark(block)
  {
    match block {
      case TextB(t) => TextIsRead(t);
      case ImageB(i) => MarksAreRead(i.cacheControl, None);
      case DocumentB(d) => DocumentIsRead(d, strings);
      case SearchB(s) => SearchIsRead(s);
      case ToolUseB(_, _, _, cacheControl) => MarksAreRead(cacheControl, None);
      case ToolResultB(_, content, _, cacheControl) =>
        MarksAreRead(cacheControl, None);
        ResultIsRead(content, strings);
      case _ =>
    }
  }

  // --- From the wire to Bedrock ---

  /** What the blocks of a message say, with a mark after each one that is marked. */
  function MessageSays(blocks: seq<Block>, strings: BR.Strings): seq<BC.Payload> {
    if blocks == [] then []
    else
      (match BlockSays(blocks[0], strings)
       case None => []
       case Some(p) => if BlockMark(blocks[0]) then [p, BC.Mark] else [p])
      + MessageSays(blocks[1..], strings)
  }

  lemma {:induction false} PartsSayTheMessage(blocks: seq<Block>, parts: seq<Part>, strings: BR.Strings)
    requires |parts| == |blocks| && forall i :: 0 <= i < |blocks| ==> BlockToPart(blocks[i]) == Ok(parts[i])
    ensures BC.Says(parts, strings) == MessageSays(blocks, strings)
  {
    if blocks != [] {
      BlockIsRead(blocks[0], strings);
      PartsSayTheMessage(blocks[1..], parts[1..], strings);
    }
  }

  /** What Bedrock is sent for a message says what the client's blocks said, in the same order, with
      a cache point right after each block that was marked and nowhere else. */
  lemma RequestSaysTheMessage(blocks: seq<Block>, parts: seq<Part>, used: set<string>, strings: BR.Strings)
    requires |parts| == |blocks| && forall i :: 0 <= i < |blocks| ==> BlockToPart(blocks[i]) == Ok(parts[i])
    requires BR.MessageWith(parts, used, strings).Ok?
    ensures BC.BlocksSay(BR.MessageWith(parts, used, strings).value) == MessageSays(blocks, strings)
  {
    BC.ContentIsKept(parts, used, strings);
    PartsSayTheMessage(blocks, parts, strings);
  }

  // --- Parts to blocks ---

  lemma {:induction false} ItemsArePrinted(items: seq<DocumentItem>)
    ensures TextsOn(ItemsToBlocks(items)) == BC.TextsIn(items)
  {
    if items != [] {
      ItemsArePrinted(items[1..]);
      assert ItemsToBlocks(items)[1..] == ItemsToBlocks(items[1..]);
    }
  }

  /** A block that is printed says what the part says, and is never marked. */
  lemma BlockIsPrinted(part: Part, strings: BR.Strings)
    requires PartToBlock(part).Ok?
    ensures BlockSays(PartToBlock(part).value, strings) == BC.PartPayload(part, strings)
    ensures !BlockMark(PartToBlock(part).value)
  {
    match part {
      case Document(d) =>
        ItemsArePrinted(d.content.GetOr([]));
        MarksAreRead(None, DocumentToBlock(d).citations);
        assert CitationsOn(Some(CITATIONS_ON));
      case Search(s) =>
        assert SearchTexts(SearchToBlock(s).content) == BR.Texts(s.content);
        assert CitationsOn(Some(CITATIONS_ON));
      case _ =>
    }
  }

  /** Field by field, where saying the same is not all: media types, titles, and what passes through
      unread. */
  lemma FieldsArePrinted(part: Part)
    requires PartToBlock(part).Ok?
    ensures var block := PartToBlock(part).value;
            match part
            case Image(i) => block == ImageB(ImageBlock(ImageBase64(i.mediaType, i.data), None))
            case Document(d) =>
              && block.DocumentB? && block.document.title == d.title && block.document.context == d.context
              && (d.sourceKind.Base64? ==> block.document.source == DocumentBase64(d.mediaType, d.data))
              && (d.sourceKind.PlainText? ==> block.document.source == DocumentText(d.mediaType, d.text.GetOr("")))
            case RedactedThinking(data, _) => block == RedactedThinkingB(data)
            case ServerToolCall(callType, extra, id, name, input, _) =>
              block == ServerToolUseB(callType, id, name, input, extra)
            case ServerToolResult(resultType, extra, id, result, _) =>
              if resultType == "web_search_tool_result" then result.JArr? && block == WebSearchResultB(id, result.items)
              else block == ServerToolResultB(resultType, id, result, extra)
            case _ => true
  {
  }

  /** And field by field what is read of blocks that Bedrock is not sent. */
  lemma OtherFieldsAreRead(block: Block)
    ensures match block
            case RedactedThinkingB(data) => BlockToPart(block) == Ok(RedactedThinking(data, false))
            case ServerToolUseB(t, id, name, input, extra) =>
              BlockToPart(block) == Ok(ServerToolCall(t, extra, id, name, input, false))
            case WebSearchResultB(id, results) =>
              BlockToPart(block) == Ok(ServerToolResult("web_search_tool_result", map[], id, JArr(results), false))
            case ServerToolResultB(t, id, result, extra) =>
              BlockToPart(block) == Ok(ServerToolResult(t, extra, id, result, false))
            case _ => true
  {
  }

  /** Extra fields of a server tool that repeat one of the block's own cannot be printed. */
  lemma RepeatedFieldsFail(callType: string, extra: Dict, id: string, name: string, input: Json, key: string)
    requires key in extra
    ensures key in {"type", "id", "name", "input"} ==>
              PartToBlock(ServerToolCall(callType, extra, id, name, input, false)).Err?
    ensures key in {"type", "tool_use_id", "content"} && callType != "web_search_tool_result" ==>
              PartToBlock(ServerToolResult(callType, extra, id, input, false)).Err?
  {
  }

  lemma OtherFieldsPass(callType: string, extra: Dict, id: string, name: string, input: Json)
    requires callType in {"server_tool_use", "mcp_tool_use"} && input.JObj?
    ensures extra.Keys !! {"type", "id", "name", "input"} ==>
              PartToBlock(ServerToolCall(callType, extra, id, name, input, false)).Ok?
    ensures extra.Keys !! {"type", "tool_use_id", "content"} ==>
              PartToBlock(ServerToolResult(callType, extra, id, input, false)).Ok?
  {
  }
}
