/** The LangChain stream as internal chunks: `stream_chunks` of
    src/ttllm/core/providers/langchain/provider.py. */
module LangChainStream {
  import opened Model

  // --- What LangChain sends ---

  datatype ContentItem = TextDict(text: string) | PlainString(s: string) | OtherItem

  datatype Contents = NoContents | Whole(s: string) | Items(items: seq<ContentItem>)

  /** A piece of a tool call. Python treats an absent and an empty id alike, and likewise
      absent and empty arguments; both are the empty string here. */
  datatype ToolPiece = ToolPiece(id: string, name: Option<string>, args: string)

  /** Token counts; absent ones leave the counts as they are. */
  datatype Counts = Counts(input: Option<int>, output: Option<int>, cacheRead: Option<int>)

  datatype Message = Message(contents: Contents, tools: seq<ToolPiece>, counts: Counts)

  function TextOfItem(item: ContentItem): string {
    match item
    case TextDict(text) => text
    case PlainString(s) => s
    case OtherItem => ""
  }

  function TextOfItems(items: seq<ContentItem>): string
    decreases |items|
  {
    if items == [] then ""
    else TextOfItems(items[..|items| - 1]) + TextOfItem(items[|items| - 1])
  }

  function TextOf(contents: Contents): string {
    match contents
    case NoContents => ""
    case Whole(s) => s
    case Items(items) => TextOfItems(items)
  }

  // --- The loop ---

  datatype Kind = TextKind | ToolKind

  datatype Call = Call(name: string, args: string)

  /** The variables of the loop, and the chunks yielded so far. */
  datatype Loop = Loop(
    openIndex: Option<int>,
    openKind: Option<Kind>,
    blockIndex: nat,
    toolIndices: map<string, int>,
    toolAcc: map<string, Call>,
    toolOrder: seq<string>,
    textAcc: string,
    out: seq<Chunk>)

  const START := Loop(None, None, 0, map[], map[], [], "", [])

  function Closing(openIndex: Option<int>): seq<Chunk> {
    match openIndex
    case None => []
    case Some(i) => [BlockStop(i)]
  }

  /** Text needs a text block to be open. */
  function OpenText(l: Loop): Loop {
    if l.openKind == Some(TextKind) then l
    else
      l.(openIndex := Some(l.blockIndex), openKind := Some(TextKind), blockIndex := l.blockIndex + 1,
         out := l.out + Closing(l.openIndex) + [BlockStart(l.blockIndex, PlainPart(""))])
  }

  function OnText(l: Loop, text: string): Loop {
    if text == "" then l
    else
      var current := OpenText(l);
      current.(textAcc := l.textAcc + text, out := current.out + [TextDelta(current.openIndex.GetOr(0), text)])
  }

  /** A new id opens a block. */
  function OnToolStart(l: Loop, tool: ToolPiece): Loop {
    if tool.id == "" || tool.id in l.toolIndices then l
    else
      l.(openIndex := Some(l.blockIndex), openKind := Some(ToolKind), blockIndex := l.blockIndex + 1,
         toolIndices := l.toolIndices[tool.id := l.blockIndex],
         toolAcc := l.toolAcc[tool.id := Call(tool.name.GetOr(""), "")],
         toolOrder := l.toolOrder + [tool.id],
         out := l.out + Closing(l.openIndex)
                + [BlockStart(l.blockIndex, ToolCall(tool.id, tool.name.GetOr(""), JObj(map[]), false))])
  }

  /** Where arguments go: to their own call, or without an id to the open block. */
  function TargetOf(l: Loop, id: string): Option<int> {
    if id in l.toolIndices then Some(l.toolIndices[id]) else l.openIndex
  }

  function OnArgs(l: Loop, tool: ToolPiece): Loop {
    if tool.args == "" then l
    else
      var acc := if tool.id in l.toolAcc
                 then l.toolAcc[tool.id := Call(l.toolAcc[tool.id].name, l.toolAcc[tool.id].args + tool.args)]
                 else l.toolAcc;
      var sent := match TargetOf(l, tool.id)
                  case None => []
                  case Some(i) => [ToolArgsDelta(i, tool.args)];
      l.(toolAcc := acc, out := l.out + sent)
  }

  function OnTool(l: Loop, tool: ToolPiece): Loop {
    OnArgs(OnToolStart(l, tool), tool)
  }

  function OnTools(l: Loop, tools: seq<ToolPiece>): Loop
    decreases |tools|
  {
    if tools == [] then l else OnTool(OnTools(l, tools[..|tools| - 1]), tools[|tools| - 1])
  }

  function OnMessage(l: Loop, m: Message): Loop {
    OnTools(OnText(l, TextOf(m.contents)), m.tools)
  }

  function After(messages: seq<Message>): Loop
    decreases |messages|
  {
    if messages == [] then START else OnMessage(After(messages[..|messages| - 1]), messages[|messages| - 1])
  }

  /** One of the tool pieces of a message meets the loop in such a way. */
  predicate Among(how: (Loop, ToolPiece) -> bool, l: Loop, tools: seq<ToolPiece>)
    decreases |tools|
  {
    tools != []
    && var init, last := tools[..|tools| - 1], tools[|tools| - 1];
       Among(how, l, init) || how(OnTools(l, init), last)
  }

  /** One of the tool pieces of the stream does. */
  predicate Somewhere(how: (Loop, ToolPiece) -> bool, messages: seq<Message>)
    decreases |messages|
  {
    messages != []
    && var init, last := messages[..|messages| - 1], messages[|messages| - 1];
       Somewhere(how, init) || Among(how, OnText(After(init), TextOf(last.contents)), last.tools)
  }

  function CountsAfter(messages: seq<Message>): Usage
    decreases |messages|
  {
    if messages == [] then Usage(0, 0, 0, 0)
    else
      var before, counts := CountsAfter(messages[..|messages| - 1]), messages[|messages| - 1].counts;
      Usage(counts.input.GetOr(before.input), counts.output.GetOr(before.output),
            counts.cacheRead.GetOr(before.cacheRead), 0)
  }

  function StopReasonOf(l: Loop): StopReason {
    if l.toolOrder == [] then EndTurn else ToolUse
  }

  /** The chunks of a stream that ends, and of one that raises after these messages. */
  function Completed(messages: seq<Message>): seq<Chunk> {
    var l := After(messages);
    l.out + Closing(l.openIndex) + [MessageStop(StopReasonOf(l), CountsAfter(messages), None)]
  }

  /** An entry of state.tool_calls. */
  datatype StoredCall = StoredCall(id: string, name: string, args: string)

  function StoredCalls(l: Loop): seq<StoredCall> {
    seq(|l.toolOrder|, i requires 0 <= i < |l.toolOrder| =>
      if l.toolOrder[i] in l.toolAcc
      then StoredCall(l.toolOrder[i], l.toolAcc[l.toolOrder[i]].name, l.toolAcc[l.toolOrder[i]].args)
      else StoredCall(l.toolOrder[i], "", ""))
  }

  /** The tool calls of the response; None when the arguments of one are JSON other than an object,
      which the part's own validation rejects by raising. */
  function CallParts(calls: seq<StoredCall>, loads: Parser): Option<seq<Part>> {
    if calls == [] then Some([])
    else
      var input := Arguments(calls[0].args, loads);
      if !input.JObj? then None
      else
        match CallParts(calls[1..], loads)
        case None => None
        case Some(rest) => Some([ToolCall(calls[0].id, calls[0].name, input, false)] + rest)
  }

  /** The text comes first; nothing at all gives one empty text. */
  function ContentOf(text: string, calls: seq<Part>): seq<Part> {
    if text != "" then [PlainPart(text)] + calls
    else if calls != [] then calls
    else [PlainPart("")]
  }

  /** Cache tokens are left out. */
  function ResultOf(text: string, calls: seq<StoredCall>, reason: StopReason, usage: Usage, loads: Parser)
    : Option<InternalResult>
  {
    match CallParts(calls, loads)
    case None => None
    case Some(parts) =>
      Some(InternalResult(ContentOf(text, parts), reason, Usage(usage.input, usage.output, 0, 0), None))
  }

  /** What is stored of a stream that was drained. */
  function StoredResult(messages: seq<Message>, loads: Parser): Option<InternalResult> {
    var l := After(messages);
    ResultOf(l.textAcc, StoredCalls(l), StopReasonOf(l), CountsAfter(messages), loads)
  }

  /** The accumulator of one exchange; the stream fills it in at its end. */
  class LangChainState {
    var inputTokens: int
    var outputTokens: int
    var cacheReadTokens: int
    var stopReason: StopReason
    var text: string
    var toolCalls: seq<StoredCall>

    constructor ()
      ensures inputTokens == outputTokens == cacheReadTokens == 0
      ensures stopReason == EndTurn && text == "" && toolCalls == []
    {
      inputTokens, outputTokens, cacheReadTokens := 0, 0, 0;
      stopReason, text, toolCalls := EndTurn, "", [];
    }

    /** `get_response`; None when it raises. */
    function GetResponse(loads: Parser): Option<InternalResult>
      reads this
    {
      ResultOf(text, toolCalls, stopReason, Usage(inputTokens, outputTokens, cacheReadTokens, 0), loads)
    }
  }

  /** `text += ...` over the items of a message's content. */
  method CollectText(contents: Contents) returns (text: string)
    ensures text == TextOf(contents)
  {
    match contents {
      case NoContents => return "";
      case Whole(s) => return s;
      case Items(items) =>
        text := "";
        var i := 0;
        while i < |items|
          invariant 0 <= i <= |items| && text == TextOfItems(items[..i])
        {
          assert items[..i + 1][..i] == items[..i];
          match items[i] {
            case TextDict(t) => text := text + t;
            case PlainString(s) => text := text + s;
            case OtherItem =>
              assert text + "" == text;
          }
          i := i + 1;
        }
        assert items[..i] == items;
    }
  }

  method TakeText(before: Loop, text: string) returns (l: Loop)
    ensures l == OnText(before, text)
  {
    l := before;
    if text != "" {
      if l.openKind != Some(TextKind) {
        l := l.(out := l.out + Closing(l.openIndex) + [BlockStart(l.blockIndex, PlainPart(""))],
                openIndex := Some(l.blockIndex), blockIndex := l.blockIndex + 1, openKind := Some(TextKind));
      }
      l := l.(textAcc := l.textAcc + text, out := l.out + [TextDelta(l.openIndex.GetOr(0), text)]);
    }
  }

  /** The inner loop, over the tool pieces of one message. */
  method TakeTools(before: Loop, tools: seq<ToolPiece>) returns (l: Loop)
    ensures l == OnTools(before, tools)
  {
    l := before;
    var i := 0;
    while i < |tools|
      invariant 0 <= i <= |tools| && l == OnTools(before, tools[..i])
    {
      assert tools[..i + 1][..i] == tools[..i];
      var tool := tools[i];
      if tool.id != "" && tool.id !in l.toolIndices {
        var index := l.blockIndex;
        var name := tool.name.GetOr("");
        l := l.(out := l.out + Closing(l.openIndex) + [BlockStart(index, ToolCall(tool.id, name, JObj(map[]), false))],
                blockIndex := index + 1,
                toolIndices := l.toolIndices[tool.id := index],
                openIndex := Some(index),
                openKind := Some(ToolKind),
                toolOrder := l.toolOrder + [tool.id],
                toolAcc := l.toolAcc[tool.id := Call(name, "")]);
      }
      if tool.args != "" {
        var target := if tool.id in l.toolIndices then Some(l.toolIndices[tool.id]) else l.openIndex;
        if tool.id in l.toolAcc {
          var call := l.toolAcc[tool.id];
          l := l.(toolAcc := l.toolAcc[tool.id := Call(call.name, call.args + tool.args)]);
        }
        if target.Some? {
          l := l.(out := l.out + [ToolArgsDelta(target.value, tool.args)]);
        } else {
          assert l.out + [] == l.out;
        }
      }
      i := i + 1;
    }
    assert tools[..i] == tools;
  }

  /** The outer loop, over the messages of the stream. */
  method TakeMessages(messages: seq<Message>) returns (l: Loop, usage: Usage)
    ensures l == After(messages) && usage == CountsAfter(messages)
  {
    l := START;
    usage := Usage(0, 0, 0, 0);
    var i := 0;
    while i < |messages|
      invariant 0 <= i <= |messages| && l == After(messages[..i]) && usage == CountsAfter(messages[..i])
    {
      assert messages[..i + 1][..i] == messages[..i];
      var message := messages[i];
      var text := CollectText(message.contents);
      l := TakeText(l, text);
      l := TakeTools(l, message.tools);
      usage := Usage(message.counts.input.GetOr(usage.input), message.counts.output.GetOr(usage.output),
                     message.counts.cacheRead.GetOr(usage.cacheRead), 0);
      i := i + 1;
    }
    assert messages[..i] == messages;
  }

  /** `stream_chunks`, for a consumer that takes at most `limit` chunks and then closes it (a
      `limit` beyond the end is a consumer that drains it), on a stream that ends or raises.
      The state is set just before MESSAGE_STOP is sent, and otherwise left as it was. */
  method StreamChunks(messages: seq<Message>, fails: bool, limit: nat, state: LangChainState)
    returns (chunks: seq<Chunk>)
    requires limit > 0
    modifies state
    ensures fails ==> chunks == Received(After(messages).out, limit)
    ensures !fails ==> chunks == Received(Completed(messages), limit)
    ensures fails || limit < |Completed(messages)| ==> unchanged(state)
    ensures !fails && limit >= |Completed(messages)| ==>
              && state.text == After(messages).textAcc
              && state.toolCalls == StoredCalls(After(messages))
              && state.stopReason == StopReasonOf(After(messages))
              && Usage(state.inputTokens, state.outputTokens, state.cacheReadTokens, 0) == CountsAfter(messages)
              && forall loads :: state.GetResponse(loads) == StoredResult(messages, loads)
  {
    var l, usage := TakeMessages(messages);
    if fails {
      return Received(l.out, limit);
    }
    chunks := l.out + Closing(l.openIndex);
    if limit <= |chunks| {
      assert Completed(messages)[..limit] == chunks[..limit];
      return chunks[..limit];
    }
    var stopReason := if l.toolOrder != [] then ToolUse else EndTurn;
    state.inputTokens, state.outputTokens, state.cacheReadTokens := usage.input, usage.output, usage.cacheRead;
    state.stopReason, state.text, state.toolCalls := stopReason, l.textAcc, StoredCalls(l);
    chunks := chunks + [MessageStop(stopReason, usage, None)];
    assert Completed(messages)[..|chunks|] == chunks;
  }

  // --- The grammar of the chunks ---

  /** What a reader of the chunks knows: the open block and how many were started. */
  datatype Reader = Reader(open: Option<int>, started: nat, done: bool)

  /** The next chunk, if it is one that may come next. */
  function Read(r: Reader, c: Chunk): Option<Reader> {
    match c
    case BlockStart(i, _) =>
      if !r.done && r.open.None? && i == r.started then Some(Reader(Some(i), r.started + 1, false)) else None
    case BlockStop(i) => if !r.done && r.open == Some(i) then Some(r.(open := None)) else None
    case TextDelta(i, _) => if !r.done && r.open == Some(i) then Some(r) else None
    case ToolArgsDelta(i, _) => if !r.done && 0 <= i < r.started then Some(r) else None
    case MessageStop(_, _, _) => if !r.done && r.open.None? then Some(r.(done := true)) else None
    case _ => None
  }

  function ReadAll(chunks: seq<Chunk>): Option<Reader>
    decreases |chunks|
  {
    if chunks == [] then Some(Reader(None, 0, false))
    else
      match ReadAll(chunks[..|chunks| - 1])
      case None => None
      case Some(r) => Read(r, chunks[|chunks| - 1])
  }

  function TextsIn(chunks: seq<Chunk>): string
    decreases |chunks|
  {
    if chunks == [] then ""
    else
      var before, last := TextsIn(chunks[..|chunks| - 1]), chunks[|chunks| - 1];
      if last.TextDelta? then before + last.text else before
  }

  /** The arguments sent to one block. */
  function SentTo(chunks: seq<Chunk>, i: int): string
    decreases |chunks|
  {
    if chunks == [] then ""
    else
      var before, last := SentTo(chunks[..|chunks| - 1], i), chunks[|chunks| - 1];
      if last.ToolArgsDelta? && last.index == i then before + last.partialJson else before
  }

  datatype ToolStart = ToolStart(index: int, id: string, name: string)

  /** The tool blocks that were started, in order. */
  function ToolStarts(chunks: seq<Chunk>): seq<ToolStart>
    decreases |chunks|
  {
    if chunks == [] then []
    else
      var before, last := ToolStarts(chunks[..|chunks| - 1]), chunks[|chunks| - 1];
      if last.BlockStart? && last.part.ToolCall? then before + [ToolStart(last.index, last.part.id, last.part.name)]
      else before
  }

  lemma OneMore(chunks: seq<Chunk>, c: Chunk)
    ensures ReadAll(chunks + [c]) == match ReadAll(chunks) case None => None case Some(r) => Read(r, c)
    ensures TextsIn(chunks + [c]) == TextsIn(chunks) + if c.TextDelta? then c.text else ""
    ensures forall i :: SentTo(chunks + [c], i)
                     == SentTo(chunks, i) + if c.ToolArgsDelta? && c.index == i then c.partialJson else ""
    ensures ToolStarts(chunks + [c])
         == ToolStarts(chunks)
            + if c.BlockStart? && c.part.ToolCall? then [ToolStart(c.index, c.part.id, c.part.name)] else []
  {
    assert (chunks + [c])[..|chunks|] == chunks;
  }

  // --- What every step keeps ---

  /** The chunks and the loop's variables tell the same story. */
  ghost predicate OutInv(l: Loop) {
    && ReadAll(l.out) == Some(Reader(l.openIndex, l.blockIndex, false))
    && TextsIn(l.out) == l.textAcc
    && (l.openIndex.None? <==> l.openKind.None?)
    && (l.openIndex.Some? ==> 0 <= l.openIndex.value < l.blockIndex)
    && (forall i :: i >= l.blockIndex ==> SentTo(l.out, i) == "")
  }

  /** The tool tables agree with each other and with the tool blocks started. */
  ghost predicate TableInv(indices: map<string, int>, acc: map<string, Call>, order: seq<string>,
                           starts: seq<ToolStart>, count: nat)
  {
    && "" !in indices && indices.Keys == acc.Keys && |starts| == |order|
    && (forall i :: 0 <= i < |order| ==> order[i] in indices)
    && (forall i :: 0 <= i < |order| ==> starts[i] == ToolStart(indices[order[i]], order[i], acc[order[i]].name))
    && (forall id :: id in indices ==> id in order && 0 <= indices[id] < count)
    && (forall id, other :: id in indices && other in indices && id != other ==> indices[id] != indices[other])
  }

  /** The open block is a tool block exactly when it is in the table. */
  ghost predicate OpenInv(indices: map<string, int>, openIndex: Option<int>, openKind: Option<Kind>) {
    openKind == Some(ToolKind) <==> exists id :: id in indices && openIndex == Some(indices[id])
  }

  ghost predicate Inv(l: Loop) {
    && OutInv(l)
    && TableInv(l.toolIndices, l.toolAcc, l.toolOrder, ToolStarts(l.out), l.blockIndex)
    && OpenInv(l.toolIndices, l.openIndex, l.openKind)
  }

  /** The block that is open is closed. */
  lemma ClosingKeeps(l: Loop)
    requires OutInv(l)
    ensures ReadAll(l.out + Closing(l.openIndex)) == Some(Reader(None, l.blockIndex, false))
    ensures TextsIn(l.out + Closing(l.openIndex)) == l.textAcc
    ensures ToolStarts(l.out + Closing(l.openIndex)) == ToolStarts(l.out)
    ensures forall i :: SentTo(l.out + Closing(l.openIndex), i) == SentTo(l.out, i)
  {
    match l.openIndex {
      case None => assert l.out + [] == l.out;
      case Some(i) => OneMore(l.out, BlockStop(i));
    }
  }

  lemma OpenTextOut(l: Loop)
    requires OutInv(l)
    ensures OutInv(OpenText(l)) && ToolStarts(OpenText(l).out) == ToolStarts(l.out)
    ensures forall i :: SentTo(OpenText(l).out, i) == SentTo(l.out, i)
  {
    if l.openKind != Some(TextKind) {
      ClosingKeeps(l);
      OneMore(l.out + Closing(l.openIndex), BlockStart(l.blockIndex, PlainPart("")));
    }
  }

  lemma TextOut(l: Loop, text: string)
    requires OutInv(l)
    ensures OutInv(OnText(l, text)) && ToolStarts(OnText(l, text).out) == ToolStarts(l.out)
    ensures forall i :: SentTo(OnText(l, text).out, i) == SentTo(l.out, i)
  {
    if text != "" {
      OpenTextOut(l);
      OneMore(OpenText(l).out, TextDelta(OpenText(l).openIndex.value, text));
    }
  }

  lemma TextKeeps(l: Loop, text: string)
    requires Inv(l)
    ensures Inv(OnText(l, text))
    ensures forall i :: SentTo(OnText(l, text).out, i) == SentTo(l.out, i)
  {
    TextOut(l, text);
  }

  predicate Starts(l: Loop, tool: ToolPiece) {
    tool.id != "" && tool.id !in l.toolIndices
  }

  lemma ToolStartOut(l: Loop, tool: ToolPiece)
    requires OutInv(l)
    ensures OutInv(OnToolStart(l, tool))
    ensures ToolStarts(OnToolStart(l, tool).out)
         == ToolStarts(l.out) + if Starts(l, tool) then [ToolStart(l.blockIndex, tool.id, tool.name.GetOr(""))] else []
    ensures forall i :: SentTo(OnToolStart(l, tool).out, i) == SentTo(l.out, i)
  {
    if Starts(l, tool) {
      ClosingKeeps(l);
      OneMore(l.out + Closing(l.openIndex),
              BlockStart(l.blockIndex, ToolCall(tool.id, tool.name.GetOr(""), JObj(map[]), false)));
    }
  }

  lemma TableGrows(indices: map<string, int>, acc: map<string, Call>, order: seq<string>,
                   starts: seq<ToolStart>, count: nat, id: string, name: string)
    requires TableInv(indices, acc, order, starts, count) && id != "" && id !in indices
    ensures TableInv(indices[id := count], acc[id := Call(name, "")], order + [id],
                     starts + [ToolStart(count, id, name)], count + 1)
  {
    var longer := order + [id];
    assert longer[|order|] == id;
    forall other | other in indices ensures other in longer {
      assert other in order;
    }
  }

  lemma ToolStartKeeps(l: Loop, tool: ToolPiece)
    requires Inv(l)
    ensures Inv(OnToolStart(l, tool))
    ensures forall i :: SentTo(OnToolStart(l, tool).out, i) == SentTo(l.out, i)
  {
    ToolStartOut(l, tool);
    if Starts(l, tool) {
      TableGrows(l.toolIndices, l.toolAcc, l.toolOrder, ToolStarts(l.out), l.blockIndex, tool.id, tool.name.GetOr(""));
      var after := OnToolStart(l, tool);
      assert tool.id in after.toolIndices && after.openIndex == Some(after.toolIndices[tool.id]);
    }
  }

  lemma ArgsSent(l: Loop, tool: ToolPiece, target: int)
    requires OutInv(l) && tool.args != "" && TargetOf(l, tool.id) == Some(target) && 0 <= target < l.blockIndex
    ensures OnArgs(l, tool).out == l.out + [ToolArgsDelta(target, tool.args)]
    ensures OutInv(OnArgs(l, tool)) && ToolStarts(OnArgs(l, tool).out) == ToolStarts(l.out)
    ensures forall i :: SentTo(OnArgs(l, tool).out, i) == SentTo(l.out, i) + if i == target then tool.args else ""
  {
    OneMore(l.out, ToolArgsDelta(target, tool.args));
  }

  lemma ArgsOut(l: Loop, tool: ToolPiece)
    requires OutInv(l) && (tool.id in l.toolIndices ==> 0 <= l.toolIndices[tool.id] < l.blockIndex)
    ensures OutInv(OnArgs(l, tool)) && ToolStarts(OnArgs(l, tool).out) == ToolStarts(l.out)
    ensures forall i :: SentTo(OnArgs(l, tool).out, i)
                     == SentTo(l.out, i) + if TargetOf(l, tool.id) == Some(i) then tool.args else ""
  {
    var target := TargetOf(l, tool.id);
    if tool.args != "" && target.Some? {
      ArgsSent(l, tool, target.value);
    } else {
      assert OnArgs(l, tool).out == l.out;
    }
  }

  lemma ArgsKeep(l: Loop, tool: ToolPiece)
    requires Inv(l)
    ensures Inv(OnArgs(l, tool))
    ensures forall i :: SentTo(OnArgs(l, tool).out, i)
                     == SentTo(l.out, i) + if TargetOf(l, tool.id) == Some(i) then tool.args else ""
  {
    ArgsOut(l, tool);
  }

  // --- Arguments without an id ---

  /** A piece whose arguments go to the open tool block without being stored. */
  predicate IsStray(l: Loop, tool: ToolPiece) {
    tool.id == "" && tool.args != "" && l.openKind == Some(ToolKind)
  }

  /** A piece with arguments for a call whose block is no longer the open one. */
  predicate IsLate(l: Loop, tool: ToolPiece) {
    tool.args != "" && tool.id in l.toolIndices && l.openIndex != Some(l.toolIndices[tool.id])
  }

  /** A piece whose arguments go to the open text block. */
  predicate IsMisplaced(l: Loop, tool: ToolPiece) {
    tool.id == "" && tool.args != "" && l.openKind == Some(TextKind)
  }

  /** Text after a tool call has been started. */
  predicate TextAfterTool(messages: seq<Message>)
    decreases |messages|
  {
    messages != []
    && var init, last := messages[..|messages| - 1], messages[|messages| - 1];
       TextAfterTool(init) || (TextOf(last.contents) != "" && After(init).openKind == Some(ToolKind))
  }

  /** What has been sent for each call. */
  function Sent(out: seq<Chunk>, indices: map<string, int>): map<string, string> {
    map id | id in indices :: SentTo(out, indices[id])
  }

  /** Every call has been sent at least what is stored of it, and more if there was a stray. */
  ghost predicate ArgsInv(acc: map<string, Call>, sent: map<string, string>, stray: bool) {
    && acc.Keys == sent.Keys
    && (forall id :: id in sent ==> |sent[id]| >= |acc[id].args|)
    && (!stray ==> forall id :: id in sent ==> sent[id] == acc[id].args)
    && (stray ==> exists id :: id in sent && |sent[id]| > |acc[id].args|)
  }

  lemma NewCall(acc: map<string, Call>, sent: map<string, string>, stray: bool, id: string, name: string)
    requires ArgsInv(acc, sent, stray) && id !in acc
    ensures ArgsInv(acc[id := Call(name, "")], sent[id := ""], stray)
  {
    var acc', sent' := acc[id := Call(name, "")], sent[id := ""];
    if stray {
      var other :| other in sent && |sent[other]| > |acc[other].args|;
      assert other in sent' && |sent'[other]| > |acc'[other].args|;
    }
  }

  lemma OwnArgs(acc: map<string, Call>, sent: map<string, string>, stray: bool, id: string, args: string)
    requires ArgsInv(acc, sent, stray) && id in acc
    ensures ArgsInv(acc[id := Call(acc[id].name, acc[id].args + args)], sent[id := sent[id] + args], stray)
  {
    var acc', sent' := acc[id := Call(acc[id].name, acc[id].args + args)], sent[id := sent[id] + args];
    if stray {
      var other :| other in sent && |sent[other]| > |acc[other].args|;
      assert other in sent' && |sent'[other]| > |acc'[other].args|;
    }
  }

  lemma StrayArgs(acc: map<string, Call>, sent: map<string, string>, stray: bool, id: string, args: string)
    requires ArgsInv(acc, sent, stray) && id in acc && args != ""
    ensures ArgsInv(acc, sent[id := sent[id] + args], true)
  {
    assert |sent[id := sent[id] + args][id]| > |acc[id].args|;
  }

  lemma ToolStartSends(l: Loop, tool: ToolPiece)
    requires Inv(l)
    ensures Starts(l, tool) ==>
              Sent(OnToolStart(l, tool).out, OnToolStart(l, tool).toolIndices)
              == Sent(l.out, l.toolIndices)[tool.id := ""]
  {
    if Starts(l, tool) {
      ToolStartOut(l, tool);
      assert SentTo(l.out, l.blockIndex) == "";
    }
  }

  lemma OwnArgsSend(l: Loop, tool: ToolPiece)
    requires Inv(l) && tool.id in l.toolIndices
    ensures Sent(OnArgs(l, tool).out, l.toolIndices)
         == Sent(l.out, l.toolIndices)[tool.id := Sent(l.out, l.toolIndices)[tool.id] + tool.args]
  {
    ArgsOut(l, tool);
  }

  lemma OtherArgsSend(l: Loop, tool: ToolPiece)
    requires Inv(l) && tool.id !in l.toolIndices && (tool.args == "" || l.openKind != Some(ToolKind))
    ensures Sent(OnArgs(l, tool).out, l.toolIndices) == Sent(l.out, l.toolIndices)
  {
    ArgsOut(l, tool);
    forall id | id in l.toolIndices
      ensures SentTo(OnArgs(l, tool).out, l.toolIndices[id]) == SentTo(l.out, l.toolIndices[id])
    {
      assert l.openKind != Some(ToolKind) ==> l.openIndex != Some(l.toolIndices[id]);
    }
  }

  /** Arguments without an id reach the tool call whose block is open. */
  lemma StraySends(l: Loop, tool: ToolPiece) returns (id: string)
    requires Inv(l) && IsStray(l, tool)
    ensures id in l.toolIndices
    ensures var before := Sent(l.out, l.toolIndices);
            Sent(OnArgs(l, tool).out, l.toolIndices) == before[id := before[id] + tool.args]
  {
    id :| id in l.toolIndices && l.openIndex == Some(l.toolIndices[id]);
    ArgsOut(l, tool);
  }

  ghost predicate CallsInv(l: Loop, stray: bool) {
    Inv(l) && ArgsInv(l.toolAcc, Sent(l.out, l.toolIndices), stray)
  }

  lemma ToolStartKeepsCalls(l: Loop, tool: ToolPiece, stray: bool)
    requires CallsInv(l, stray)
    ensures CallsInv(OnToolStart(l, tool), stray)
  {
    ToolStartKeeps(l, tool);
    if Starts(l, tool) {
      ToolStartSends(l, tool);
      NewCall(l.toolAcc, Sent(l.out, l.toolIndices), stray, tool.id, tool.name.GetOr(""));
    }
  }

  lemma ArgsKeepCalls(l: Loop, tool: ToolPiece, stray: bool)
    requires CallsInv(l, stray) && (tool.id == "" || tool.id in l.toolIndices)
    ensures CallsInv(OnArgs(l, tool), stray || IsStray(l, tool))
  {
    ArgsKeep(l, tool);
    if IsStray(l, tool) {
      var id := StraySends(l, tool);
      StrayArgs(l.toolAcc, Sent(l.out, l.toolIndices), stray, id, tool.args);
    } else if tool.id == "" {
      OtherArgsSend(l, tool);
    } else if tool.args != "" {
      OwnArgsSend(l, tool);
      OwnArgs(l.toolAcc, Sent(l.out, l.toolIndices), stray, tool.id, tool.args);
    }
  }

  lemma ToolKeeps(l: Loop, tool: ToolPiece, stray: bool)
    requires CallsInv(l, stray)
    ensures CallsInv(OnTool(l, tool), stray || IsStray(l, tool))
  {
    ToolStartKeepsCalls(l, tool, stray);
    ArgsKeepCalls(OnToolStart(l, tool), tool, stray);
  }

  lemma TextKeepsCalls(l: Loop, text: string, stray: bool)
    requires CallsInv(l, stray)
    ensures CallsInv(OnText(l, text), stray)
  {
    TextKeeps(l, text);
    assert Sent(OnText(l, text).out, l.toolIndices) == Sent(l.out, l.toolIndices);
  }

  lemma {:induction false} ToolsKeep(l: Loop, tools: seq<ToolPiece>, stray: bool)
    requires CallsInv(l, stray)
    ensures CallsInv(OnTools(l, tools), stray || Among(IsStray, l, tools))
    decreases |tools|
  {
    if tools != [] {
      var init := tools[..|tools| - 1];
      ToolsKeep(l, init, stray);
      ToolKeeps(OnTools(l, init), tools[|tools| - 1], stray || Among(IsStray, l, init));
    }
  }

  lemma {:induction false} RunKeeps(messages: seq<Message>)
    ensures CallsInv(After(messages), Somewhere(IsStray, messages))
    decreases |messages|
  {
    if messages != [] {
      var init, last := messages[..|messages| - 1], messages[|messages| - 1];
      RunKeeps(init);
      TextKeepsCalls(After(init), TextOf(last.contents), Somewhere(IsStray, init));
      ToolsKeep(OnText(After(init), TextOf(last.contents)), last.tools, Somewhere(IsStray, init));
    }
  }

  // --- What holds of every stream ---

  /** The chunks obey the grammar: blocks are numbered from 0 and never overlap, text goes to
      the open block and arguments to a started one, and MESSAGE_STOP comes last, with no
      block open. */
  lemma StreamIsDisciplined(messages: seq<Message>)
    ensures ReadAll(Completed(messages)) == Some(Reader(None, After(messages).blockIndex, true))
    ensures ReadAll(After(messages).out).Some?
  {
    RunKeeps(messages);
    var l := After(messages);
    ClosingKeeps(l);
    OneMore(l.out + Closing(l.openIndex), MessageStop(StopReasonOf(l), CountsAfter(messages), None));
  }

  /** The stored text and the stored calls are those of the chunks, and the stop reason is
      tool_use exactly when a tool block was started. */
  lemma StoredIsWhatWasStreamed(messages: seq<Message>)
    ensures var l, chunks := After(messages), Completed(messages);
            && TextsIn(chunks) == l.textAcc
            && |ToolStarts(chunks)| == |StoredCalls(l)|
            && (forall i :: 0 <= i < |StoredCalls(l)| ==>
                  && StoredCalls(l)[i].id == ToolStarts(chunks)[i].id
                  && StoredCalls(l)[i].name == ToolStarts(chunks)[i].name)
            && (StopReasonOf(l) == ToolUse <==> ToolStarts(chunks) != [])
  {
    RunKeeps(messages);
    var l := After(messages);
    ClosingKeeps(l);
    OneMore(l.out + Closing(l.openIndex), MessageStop(StopReasonOf(l), CountsAfter(messages), None));
  }

  /** The stored arguments of all calls are those sent to their blocks if and only if no
      arguments without an id came while a tool block was open. */
  lemma ArgumentsAgreeExactlyWithoutStrays(messages: seq<Message>)
    ensures var l, chunks := After(messages), Completed(messages);
            && |ToolStarts(chunks)| == |StoredCalls(l)|
            && ((forall i :: 0 <= i < |StoredCalls(l)| ==>
                   StoredCalls(l)[i].args == SentTo(chunks, ToolStarts(chunks)[i].index))
                <==> !Somewhere(IsStray, messages))
  {
    RunKeeps(messages);
    var l, chunks := After(messages), Completed(messages);
    ClosingKeeps(l);
    OneMore(l.out + Closing(l.openIndex), MessageStop(StopReasonOf(l), CountsAfter(messages), None));
    StoredIsWhatWasStreamed(messages);
    if Somewhere(IsStray, messages) {
      var sent := Sent(l.out, l.toolIndices);
      var id :| id in sent && |sent[id]| > |l.toolAcc[id].args|;
      assert id in l.toolOrder;
      var i :| 0 <= i < |l.toolOrder| && l.toolOrder[i] == id;
      assert StoredCalls(l)[i].args != SentTo(chunks, ToolStarts(chunks)[i].index);
    }
  }

  lemma OneMessage(contents: Contents, tool: ToolPiece, counts: Counts)
    ensures OnTools(OnText(START, TextOf(contents)), [tool]) == OnTool(OnText(START, TextOf(contents)), tool)
    ensures After([Message(contents, [tool], counts)]) == OnTool(OnText(START, TextOf(contents)), tool)
  {
    assert [Message(contents, [tool], counts)][..0] == [] && [tool][..0] == [];
    assert OnTools(OnText(START, TextOf(contents)), []) == OnText(START, TextOf(contents));
    assert After([]) == START;
  }

  const NAMED := ToolPiece("id", Some("name"), "{")
  const UNNAMED := ToolPiece("", None, "}")

  lemma TwoPieces()
    ensures OnTools(START, [NAMED, UNNAMED]) == OnTool(OnTool(START, NAMED), UNNAMED)
    ensures var start := BlockStart(0, ToolCall("id", "name", JObj(map[]), false));
            OnTool(OnTool(START, NAMED), UNNAMED)
            == Loop(Some(0), Some(ToolKind), 1, map["id" := 0], map["id" := Call("name", "{")], ["id"], "",
                    [start, ToolArgsDelta(0, "{"), ToolArgsDelta(0, "}")])
  {
    assert [NAMED, UNNAMED][..1] == [NAMED] && [NAMED][..0] == [];
    assert OnTools(START, [NAMED]) == OnTool(START, NAMED);
    var start := BlockStart(0, ToolCall("id", "name", JObj(map[]), false));
    assert "" + "{" == "{";
    assert OnToolStart(START, NAMED).out == [start];
    assert OnTool(START, NAMED)
        == Loop(Some(0), Some(ToolKind), 1, map["id" := 0], map["id" := Call("name", "{")], ["id"], "",
                [start, ToolArgsDelta(0, "{")]);
  }

  lemma BothPiecesAreSent(start: Chunk)
    requires start.BlockStart?
    ensures SentTo([start, ToolArgsDelta(0, "{"), ToolArgsDelta(0, "}")], 0) == "{}"
  {
    OneMore([start, ToolArgsDelta(0, "{")], ToolArgsDelta(0, "}"));
    OneMore([start], ToolArgsDelta(0, "{"));
    OneMore([], start);
    assert [start] + [ToolArgsDelta(0, "{")] == [start, ToolArgsDelta(0, "{")];
    assert [start, ToolArgsDelta(0, "{")] + [ToolArgsDelta(0, "}")]
        == [start, ToolArgsDelta(0, "{"), ToolArgsDelta(0, "}")];
  }

  lemma StrayPieces()
    ensures Among(IsStray, START, [NAMED, UNNAMED])
  {
    var tools := [NAMED, UNNAMED];
    assert tools[..1] == [NAMED] && [NAMED][..0] == [];
    assert OnTools(START, tools[..1]) == OnTool(START, NAMED);
  }

  /** For example: a call is announced with half of its arguments, and the other half comes without
      an id. */
  lemma StrayHappens(counts: Counts)
    ensures var messages := [Message(NoContents, [NAMED, UNNAMED], counts)];
            && Somewhere(IsStray, messages)
            && StoredCalls(After(messages)) == [StoredCall("id", "name", "{")]
            && SentTo(After(messages).out, 0) == "{}"
  {
    var messages := [Message(NoContents, [NAMED, UNNAMED], counts)];
    TwoPieces();
    StrayPieces();
    assert messages[..0] == [];
    var l := OnTools(START, [NAMED, UNNAMED]);
    assert After(messages) == l;
    BothPiecesAreSent(l.out[0]);
    assert StoredCalls(l)[0] == StoredCall("id", "name", "{");
  }
}
