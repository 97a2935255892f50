/** The LangChain stream composed with the SSE encoder: the events an Anthropic client receives,
    and how what it puts together compares with the stored response. */
module LangChainView {
  import opened Model
  import opened Sorting
  import opened AnthropicWire
  import SE = SseEncoder
  import SG = StreamGrammar
  import opened CV = ClientView
  import opened LangChainStream

  /** Everything before MESSAGE_STOP. */
  function BodyOf(messages: seq<Message>): seq<Chunk> {
    After(messages).out + Closing(After(messages).openIndex)
  }

  /** What the encoder makes of a stream that ends. */
  function Shown(model: string, messages: seq<Message>): SE.Encoded {
    SE.Encode(model, Completed(messages), false)
  }

  // --- The blocks a client sees, in order ---

  /** One more chunk. */
  function See(seen: seq<SE.ClientBlock>, c: Chunk): seq<SE.ClientBlock>
    requires Sendable(c)
  {
    if c.BlockStart? then seen + [SE.ClientBlock(PartToBlock(c.part).value, "")]
    else if c.IsDelta() && 0 <= c.index < |seen| then
      seen[c.index := SE.ApplyWireDelta(seen[c.index], SE.DeltaOf(c).delta)]
    else seen
  }

  ghost function Seen(chunks: seq<Chunk>): seq<SE.ClientBlock>
    requires AllSendable(chunks)
    decreases |chunks|
  {
    if chunks == [] then []
    else
      SendableParts(chunks[..|chunks| - 1], chunks[|chunks| - 1], chunks);
      See(Seen(chunks[..|chunks| - 1]), chunks[|chunks| - 1])
  }

  lemma SendableParts(init: seq<Chunk>, last: Chunk, chunks: seq<Chunk>)
    requires chunks == init + [last]
    ensures AllSendable(chunks) <==> AllSendable(init) && Sendable(last)
  {
    assert chunks[|init|] == last;
    forall i | 0 <= i < |init| ensures chunks[i] == init[i] {
    }
  }

  lemma SeeOneMore(chunks: seq<Chunk>, c: Chunk)
    requires AllSendable(chunks) && Sendable(c)
    ensures AllSendable(chunks + [c]) && Seen(chunks + [c]) == See(Seen(chunks), c)
    ensures Wire(chunks + [c]) == Wire(chunks) + [EventOf(c)]
  {
    SendableParts(chunks, c, chunks + [c]);
    assert (chunks + [c])[..|chunks|] == chunks;
  }

  function AsMap(seen: seq<SE.ClientBlock>): map<int, SE.ClientBlock> {
    map i: int | 0 <= i < |seen| :: seen[i]
  }

  function OpenSet(open: Option<int>): set<int> {
    match open
    case None => {}
    case Some(i) => {i}
  }

  /** What a reader of the chunks knows, a client knows as well. */
  ghost predicate Agrees(chunks: seq<Chunk>, r: Reader)
    requires AllSendable(chunks)
  {
    && |Seen(chunks)| == r.started && !r.done
    && SE.ClientFold(map[], Wire(chunks)) == AsMap(Seen(chunks))
    && SG.TrackAll({}, chunks) == OpenSet(r.open)
    && SG.Bracketed({}, chunks)
  }

  lemma ClientSees(seen: seq<SE.ClientBlock>, c: Chunk)
    requires Sendable(c) && (c.BlockStart? ==> c.index == |seen|)
    ensures SE.ClientStep(AsMap(seen), EventOf(c)) == AsMap(See(seen, c))
  {
  }

  lemma FoldOne(blocks: map<int, SE.ClientBlock>, events: seq<SE.Sse>, e: SE.Sse)
    ensures SE.ClientFold(blocks, events + [e]) == SE.ClientStep(SE.ClientFold(blocks, events), e)
  {
    ClientFoldAppend(blocks, events, [e]);
    assert [e][1..] == [];
  }

  lemma AgreesOneMore(chunks: seq<Chunk>, c: Chunk, r: Reader)
    requires AllSendable(chunks) && Agrees(chunks, r) && Sendable(c) && Read(r, c).Some?
    ensures AllSendable(chunks + [c]) && Agrees(chunks + [c], Read(r, c).value)
  {
    SeeOneMore(chunks, c);
    ClientSees(Seen(chunks), c);
    FoldOne(map[], Wire(chunks), EventOf(c));
    SG.TrackAppend({}, chunks, [c]);
    SG.SingleChunk(SG.TrackAll({}, chunks), c);
  }

  lemma {:induction false} ReadersAgree(chunks: seq<Chunk>)
    requires AllSendable(chunks) && ReadAll(chunks).Some?
    ensures Agrees(chunks, ReadAll(chunks).value)
    decreases |chunks|
  {
    if chunks == [] {
      assert AsMap([]) == map[];
    } else {
      var init, last := chunks[..|chunks| - 1], chunks[|chunks| - 1];
      assert chunks == init + [last];
      SendableParts(init, last, chunks);
      ReadersAgree(init);
      AgreesOneMore(init, last, ReadAll(init).value);
    }
  }

  // --- One more chunk ---

  lemma {:induction false} FitAppend(blocks: map<int, SE.ClientBlock>, a: seq<SE.Sse>, b: seq<SE.Sse>)
    ensures SE.DeltasFit(blocks, a + b) <==> SE.DeltasFit(blocks, a) && SE.DeltasFit(SE.ClientFold(blocks, a), b)
    decreases |a|
  {
    if a == [] {
      assert a + b == b;
    } else {
      assert (a + b)[0] == a[0] && (a + b)[1..] == a[1..] + b;
      FitAppend(SE.ClientStep(blocks, a[0]), a[1..], b);
    }
  }

  /** Whether the chunks' deltas lie inside open blocks, and whether they fit their blocks. */
  ghost predicate Inside(chunks: seq<Chunk>) {
    SG.DeltasInside({}, chunks)
  }

  ghost predicate Fit(chunks: seq<Chunk>)
    requires AllSendable(chunks)
  {
    SE.DeltasFit(map[], Wire(chunks))
  }

  lemma ChunkInside(chunks: seq<Chunk>, c: Chunk)
    requires AllSendable(chunks) && ReadAll(chunks).Some?
    ensures Inside(chunks + [c]) <==> Inside(chunks) && (c.IsDelta() ==> ReadAll(chunks).value.open == Some(c.index))
  {
    ReadersAgree(chunks);
    SG.TrackAppend({}, chunks, [c]);
    SG.SingleChunk(SG.TrackAll({}, chunks), c);
  }

  lemma ChunkFits(chunks: seq<Chunk>, c: Chunk)
    requires AllSendable(chunks) && ReadAll(chunks).Some? && Sendable(c)
    ensures AllSendable(chunks + [c])
    ensures Fit(chunks + [c]) <==>
              && Fit(chunks)
              && (c.IsDelta() ==>
                    0 <= c.index < |Seen(chunks)| && SE.Fits(Seen(chunks)[c.index].block, SE.DeltaOf(c).delta))
  {
    SeeOneMore(chunks, c);
    ReadersAgree(chunks);
    FitAppend(map[], Wire(chunks), [EventOf(c)]);
    assert [EventOf(c)][1..] == [];
  }

  /** A block is closed, if one is open, and another started. */
  lemma BlockOpens(l: Loop, part: Part)
    requires OutInv(l) && AllSendable(l.out) && IsShell(part)
    ensures var out := l.out + Closing(l.openIndex) + [BlockStart(l.blockIndex, part)];
            && AllSendable(out)
            && Seen(out) == Seen(l.out) + [SE.ClientBlock(PartToBlock(part).value, "")]
            && (Inside(out) <==> Inside(l.out)) && (Fit(out) <==> Fit(l.out))
  {
    var closed := l.out + Closing(l.openIndex);
    var start := BlockStart(l.blockIndex, part);
    ClosingKeeps(l);
    if l.openIndex.Some? {
      SeeOneMore(l.out, BlockStop(l.openIndex.value));
      ChunkInside(l.out, BlockStop(l.openIndex.value));
      ChunkFits(l.out, BlockStop(l.openIndex.value));
    } else {
      assert closed == l.out;
    }
    SeeOneMore(closed, start);
    ChunkInside(closed, start);
    ChunkFits(closed, start);
  }

  // --- Grammar ---

  ghost predicate InsideInv(l: Loop, late: bool) {
    AllSendable(l.out) && (Inside(l.out) <==> !late)
  }

  lemma OpenTextKeepsInside(l: Loop, late: bool)
    requires Inv(l) && InsideInv(l, late)
    ensures InsideInv(OpenText(l), late)
  {
    if l.openKind != Some(TextKind) {
      BlockOpens(l, PlainPart(""));
    }
  }

  /** Text is one more chunk, for the block then open. */
  lemma TextChunk(l: Loop, text: string)
    requires OutInv(l) && text != ""
    ensures OpenText(l).openIndex.Some?
    ensures ReadAll(OpenText(l).out).Some? && ReadAll(OpenText(l).out).value.open == OpenText(l).openIndex
    ensures OnText(l, text).out == OpenText(l).out + [TextDelta(OpenText(l).openIndex.value, text)]
  {
    OpenTextOut(l);
  }

  lemma InsideOneMore(chunks: seq<Chunk>, c: Chunk)
    requires AllSendable(chunks) && ReadAll(chunks).Some? && Sendable(c)
    requires c.IsDelta() ==> ReadAll(chunks).value.open == Some(c.index)
    ensures AllSendable(chunks + [c]) && (Inside(chunks + [c]) <==> Inside(chunks))
  {
    SeeOneMore(chunks, c);
    ChunkInside(chunks, c);
  }

  lemma TextKeepsInside(l: Loop, text: string, late: bool)
    requires Inv(l) && InsideInv(l, late)
    ensures InsideInv(OnText(l, text), late)
  {
    if text != "" {
      OpenTextKeepsInside(l, late);
      TextChunk(l, text);
      InsideOneMore(OpenText(l).out, TextDelta(OpenText(l).openIndex.value, text));
    }
  }

  lemma ToolStartKeepsInside(l: Loop, tool: ToolPiece, late: bool)
    requires Inv(l) && InsideInv(l, late)
    ensures InsideInv(OnToolStart(l, tool), late)
  {
    if Starts(l, tool) {
      BlockOpens(l, ToolCall(tool.id, tool.name.GetOr(""), JObj(map[]), false));
    }
  }

  lemma ArgsKeepInside(l: Loop, tool: ToolPiece, late: bool)
    requires Inv(l) && InsideInv(l, late)
    ensures InsideInv(OnArgs(l, tool), late || IsLate(l, tool))
  {
    var target := TargetOf(l, tool.id);
    if tool.args != "" && target.Some? {
      ChunkInside(l.out, ToolArgsDelta(target.value, tool.args));
      ChunkFits(l.out, ToolArgsDelta(target.value, tool.args));
    } else {
      assert OnArgs(l, tool).out == l.out;
    }
  }

  // --- Kinds ---

  /** The loop knows what kind each block is. */
  ghost predicate KindsInv(l: Loop)
    requires AllSendable(l.out)
  {
    var seen := Seen(l.out);
    && |seen| == l.blockIndex
    && (l.openIndex.Some? ==> l.openIndex.value == l.blockIndex - 1)
    && (l.openIndex.None? ==> l.blockIndex == 0)
    && (l.openKind == Some(TextKind) ==> l.blockIndex > 0 && seen[l.blockIndex - 1].block.TextB?)
    && (forall id :: id in l.toolIndices ==>
          0 <= l.toolIndices[id] < |seen| && seen[l.toolIndices[id]].block.ToolUseB?)
  }

  ghost predicate FitInv(l: Loop, misplaced: bool) {
    AllSendable(l.out) && KindsInv(l) && (Fit(l.out) <==> !misplaced)
  }

  lemma OpenTextKeepsFit(l: Loop, misplaced: bool)
    requires Inv(l) && FitInv(l, misplaced)
    ensures FitInv(OpenText(l), misplaced)
  {
    if l.openKind != Some(TextKind) {
      BlockOpens(l, PlainPart(""));
    }
  }

  /** A delta for a block of which only the contents change. */
  lemma DeltaKeepsKinds(l: Loop, after: Loop, delta: Chunk)
    requires AllSendable(l.out) && KindsInv(l) && delta.IsDelta() && Sendable(delta)
    requires after.out == l.out + [delta]
    requires after.openIndex == l.openIndex && after.openKind == l.openKind
    requires after.blockIndex == l.blockIndex && after.toolIndices == l.toolIndices
    ensures AllSendable(after.out) && KindsInv(after)
  {
    SeeOneMore(l.out, delta);
  }

  lemma FitOneMore(l: Loop, after: Loop, delta: Chunk, misplaced: bool)
    requires FitInv(l, misplaced) && ReadAll(l.out).Some? && delta.IsDelta() && Sendable(delta)
    requires after.out == l.out + [delta]
    requires after.openIndex == l.openIndex && after.openKind == l.openKind
    requires after.blockIndex == l.blockIndex && after.toolIndices == l.toolIndices
    requires 0 <= delta.index < |Seen(l.out)| && SE.Fits(Seen(l.out)[delta.index].block, SE.DeltaOf(delta).delta)
    ensures FitInv(after, misplaced)
  {
    DeltaKeepsKinds(l, after, delta);
    ChunkFits(l.out, delta);
  }

  lemma TextDeltaKeepsFit(current: Loop, after: Loop, text: string, misplaced: bool)
    requires FitInv(current, misplaced) && ReadAll(current.out).Some?
    requires current.openKind == Some(TextKind) && current.openIndex.Some?
    requires after.out == current.out + [TextDelta(current.openIndex.value, text)]
    requires after.openIndex == current.openIndex && after.openKind == current.openKind
    requires after.blockIndex == current.blockIndex && after.toolIndices == current.toolIndices
    ensures FitInv(after, misplaced)
  {
    FitOneMore(current, after, TextDelta(current.openIndex.value, text), misplaced);
  }

  lemma TextKeepsFit(l: Loop, text: string, misplaced: bool)
    requires Inv(l) && FitInv(l, misplaced)
    ensures FitInv(OnText(l, text), misplaced)
  {
    if text != "" {
      OpenTextKeepsFit(l, misplaced);
      TextChunk(l, text);
      TextDeltaKeepsFit(OpenText(l), OnText(l, text), text, misplaced);
    }
  }

  lemma ToolStartKeepsFit(l: Loop, tool: ToolPiece, misplaced: bool)
    requires Inv(l) && FitInv(l, misplaced)
    ensures FitInv(OnToolStart(l, tool), misplaced)
  {
    if Starts(l, tool) {
      BlockOpens(l, ToolCall(tool.id, tool.name.GetOr(""), JObj(map[]), false));
    }
  }

  /** Arguments find a tool block, unless they have no id and a text block is open. */
  lemma TargetFits(l: Loop, tool: ToolPiece)
    requires Inv(l) && AllSendable(l.out) && KindsInv(l) && (tool.id == "" || tool.id in l.toolIndices)
    requires tool.args != "" && TargetOf(l, tool.id).Some?
    ensures var target := TargetOf(l, tool.id).value;
            && 0 <= target < |Seen(l.out)|
            && (Seen(l.out)[target].block.ToolUseB? <==> !IsMisplaced(l, tool))
  {
    if tool.id == "" {
      if l.openKind == Some(ToolKind) {
        var id :| id in l.toolIndices && l.openIndex == Some(l.toolIndices[id]);
        assert Seen(l.out)[l.toolIndices[id]].block.ToolUseB?;
      } else {
        assert l.openKind.Some? && l.openKind.value.TextKind?;
      }
    }
  }

  lemma ArgsKeepFit(l: Loop, tool: ToolPiece, misplaced: bool)
    requires Inv(l) && FitInv(l, misplaced) && (tool.id == "" || tool.id in l.toolIndices)
    ensures FitInv(OnArgs(l, tool), misplaced || IsMisplaced(l, tool))
  {
    var target := TargetOf(l, tool.id);
    if tool.args != "" && target.Some? {
      var delta := ToolArgsDelta(target.value, tool.args);
      TargetFits(l, tool);
      DeltaKeepsKinds(l, OnArgs(l, tool), delta);
      ChunkFits(l.out, delta);
    } else {
      assert OnArgs(l, tool).out == l.out;
    }
  }

  // --- Contents ---

  function TextSeen(text: string): SE.ClientBlock {
    SE.ClientBlock(TextB(TextBlock(text, None, None)), "")
  }

  function CallSeen(id: string, name: string, args: string): SE.ClientBlock {
    SE.ClientBlock(ToolUseB(id, name, EMPTY_OBJECT, None), args)
  }

  /** The text, if there is any, takes the first block. */
  function TextBlocks(text: string): nat {
    if text != "" then 1 else 0
  }

  /** A call's block, with the arguments sent to it. */
  ghost predicate CallIsSeen(l: Loop, seen: seq<SE.ClientBlock>, j: nat)
    requires j < |l.toolOrder| && |seen| == TextBlocks(l.textAcc) + |l.toolOrder|
  {
    var n, id := TextBlocks(l.textAcc), l.toolOrder[j];
    && id in l.toolIndices && id in l.toolAcc && l.toolIndices[id] == n + j
    && seen[n + j] == CallSeen(id, l.toolAcc[id].name, SentTo(l.out, n + j))
  }

  /** The text first and then the calls in order, each with the arguments sent to its block. */
  ghost predicate TextThenCalls(l: Loop, seen: seq<SE.ClientBlock>) {
    var n := TextBlocks(l.textAcc);
    && |seen| == n + |l.toolOrder|
    && (n == 1 ==> seen[0] == TextSeen(l.textAcc))
    && (forall j :: 0 <= j < |l.toolOrder| ==> CallIsSeen(l, seen, j))
    && (l.openKind == Some(TextKind) ==> l.toolOrder == [])
  }

  predicate HasLaterText(seen: seq<SE.ClientBlock>) {
    exists i :: 1 <= i < |seen| && seen[i].block.TextB?
  }

  ghost predicate ContentInv(l: Loop, mixed: bool)
    requires AllSendable(l.out)
  {
    if mixed then HasLaterText(Seen(l.out)) else TextThenCalls(l, Seen(l.out))
  }

  lemma LaterTextStays(seen: seq<SE.ClientBlock>, c: Chunk)
    requires HasLaterText(seen) && Sendable(c)
    ensures HasLaterText(See(seen, c))
  {
    var i :| 1 <= i < |seen| && seen[i].block.TextB?;
    assert See(seen, c)[i].block.TextB?;
  }

  lemma TextBlockOpens(l: Loop)
    requires Inv(l) && AllSendable(l.out) && KindsInv(l) && l.openKind != Some(TextKind)
    ensures AllSendable(OpenText(l).out) && OpenText(l).openIndex == Some(|Seen(l.out)|)
    ensures Seen(OpenText(l).out) == Seen(l.out) + [TextSeen("")]
  {
    BlockOpens(l, PlainPart(""));
  }

  lemma CallBlockOpens(l: Loop, tool: ToolPiece)
    requires Inv(l) && AllSendable(l.out) && KindsInv(l) && Starts(l, tool)
    ensures AllSendable(OnToolStart(l, tool).out)
    ensures Seen(OnToolStart(l, tool).out) == Seen(l.out) + [CallSeen(tool.id, tool.name.GetOr(""), "")]
  {
    BlockOpens(l, ToolCall(tool.id, tool.name.GetOr(""), JObj(map[]), false));
  }

  lemma TextIsAdded(l: Loop, text: string)
    requires text != "" && AllSendable(OpenText(l).out)
    ensures AllSendable(OnText(l, text).out)
    ensures Seen(OnText(l, text).out)
         == See(Seen(OpenText(l).out), TextDelta(OpenText(l).openIndex.GetOr(0), text))
  {
    SeeOneMore(OpenText(l).out, TextDelta(OpenText(l).openIndex.GetOr(0), text));
  }

  /** Text after a tool block. */
  lemma MixingText(l: Loop, text: string)
    requires Inv(l) && AllSendable(l.out) && KindsInv(l) && text != "" && l.openKind == Some(ToolKind)
    ensures AllSendable(OnText(l, text).out) && HasLaterText(Seen(OnText(l, text).out))
  {
    TextBlockOpens(l);
    TextIsAdded(l, text);
    assert Seen(OpenText(l).out)[|Seen(l.out)|].block.TextB?;
    LaterTextStays(Seen(OpenText(l).out), TextDelta(OpenText(l).openIndex.GetOr(0), text));
  }

  /** Text after text that came later. */
  lemma MixedText(l: Loop, text: string)
    requires Inv(l) && AllSendable(l.out) && KindsInv(l) && HasLaterText(Seen(l.out)) && text != ""
    ensures AllSendable(OnText(l, text).out) && HasLaterText(Seen(OnText(l, text).out))
  {
    if l.openKind != Some(TextKind) {
      TextBlockOpens(l);
      var i :| 1 <= i < |Seen(l.out)| && Seen(l.out)[i].block.TextB?;
      assert Seen(OpenText(l).out)[i].block.TextB?;
    }
    TextIsAdded(l, text);
    LaterTextStays(Seen(OpenText(l).out), TextDelta(OpenText(l).openIndex.GetOr(0), text));
  }

  lemma TextGrows(before: string, text: string)
    ensures See([TextSeen(before)], TextDelta(0, text)) == [TextSeen(before + text)]
  {
  }

  /** The first text of a stream, and more of it. */
  lemma FirstText(l: Loop, text: string)
    requires Inv(l) && AllSendable(l.out) && KindsInv(l) && TextThenCalls(l, Seen(l.out))
    requires text != "" && l.openKind != Some(ToolKind)
    ensures AllSendable(OnText(l, text).out)
    ensures l.toolOrder == [] && Seen(OnText(l, text).out) == [TextSeen(l.textAcc + text)]
  {
    if l.openKind.Some? {
      assert l.openKind.value.TextKind?;
      assert Seen(l.out) == [TextSeen(l.textAcc)];
    } else {
      TextBlockOpens(l);
      assert Seen(l.out) == [] && l.textAcc == "";
      assert Seen(OpenText(l).out) == [TextSeen("")];
    }
    TextGrows(l.textAcc, text);
    TextIsAdded(l, text);
  }

  lemma TextKeepsContent(l: Loop, text: string, mixed: bool)
    requires Inv(l) && AllSendable(l.out) && KindsInv(l) && ContentInv(l, mixed)
    ensures AllSendable(OnText(l, text).out)
    ensures ContentInv(OnText(l, text), mixed || (text != "" && l.openKind == Some(ToolKind)))
  {
    if text != "" {
      if l.openKind == Some(ToolKind) {
        MixingText(l, text);
      } else if mixed {
        MixedText(l, text);
      } else {
        FirstText(l, text);
      }
    }
  }

  lemma OldCallSeen(l: Loop, seen: seq<SE.ClientBlock>, tool: ToolPiece, block: SE.ClientBlock, j: nat)
    requires |seen| == TextBlocks(l.textAcc) + |l.toolOrder| && Starts(l, tool)
    requires j < |l.toolOrder| && CallIsSeen(l, seen, j)
    requires SentTo(OnToolStart(l, tool).out, TextBlocks(l.textAcc) + j) == SentTo(l.out, TextBlocks(l.textAcc) + j)
    ensures CallIsSeen(OnToolStart(l, tool), seen + [block], j)
  {
  }

  lemma NewCallSeen(l: Loop, tool: ToolPiece)
    requires Inv(l) && AllSendable(l.out) && KindsInv(l) && TextThenCalls(l, Seen(l.out)) && Starts(l, tool)
    ensures AllSendable(OnToolStart(l, tool).out)
    ensures TextThenCalls(OnToolStart(l, tool), Seen(OnToolStart(l, tool).out))
  {
    var after := OnToolStart(l, tool);
    var block := CallSeen(tool.id, tool.name.GetOr(""), "");
    CallBlockOpens(l, tool);
    ToolStartOut(l, tool);
    assert SentTo(l.out, l.blockIndex) == "";
    forall j | 0 <= j < |after.toolOrder| ensures CallIsSeen(after, Seen(after.out), j) {
      if j < |l.toolOrder| {
        OldCallSeen(l, Seen(l.out), tool, block, j);
      }
    }
  }

  lemma ToolStartKeepsContent(l: Loop, tool: ToolPiece, mixed: bool)
    requires Inv(l) && AllSendable(l.out) && KindsInv(l) && ContentInv(l, mixed)
    ensures AllSendable(OnToolStart(l, tool).out) && ContentInv(OnToolStart(l, tool), mixed)
  {
    if Starts(l, tool) {
      if mixed {
        CallBlockOpens(l, tool);
        var i :| 1 <= i < |Seen(l.out)| && Seen(l.out)[i].block.TextB?;
        assert Seen(OnToolStart(l, tool).out)[i].block.TextB?;
      } else {
        NewCallSeen(l, tool);
      }
    }
  }

  /** Arguments go to the block of one call, or to the text block and then nowhere. */
  lemma ArgsSeen(seen: seq<SE.ClientBlock>, target: nat, args: string, k: nat)
    requires target < |seen| && k < |seen|
    ensures |See(seen, ToolArgsDelta(target, args))| == |seen|
    ensures var before, after := seen[k], See(seen, ToolArgsDelta(target, args))[k];
            after == if k == target && before.block.ToolUseB? then before.(json := before.json + args) else before
  {
  }

  /** What arguments leave alone. */
  lemma ArgsKeepTables(l: Loop, tool: ToolPiece)
    ensures var after := OnArgs(l, tool);
            && after.textAcc == l.textAcc && after.toolOrder == l.toolOrder && after.toolIndices == l.toolIndices
            && after.openKind == l.openKind
            && forall id :: id in l.toolAcc ==> id in after.toolAcc && after.toolAcc[id].name == l.toolAcc[id].name
  {
  }

  lemma CallStaysSeen(l: Loop, after: Loop, seen: seq<SE.ClientBlock>, target: nat, args: string, j: nat)
    requires target < |seen| == TextBlocks(l.textAcc) + |l.toolOrder|
    requires j < |l.toolOrder| && CallIsSeen(l, seen, j)
    requires after.textAcc == l.textAcc && after.toolOrder == l.toolOrder && after.toolIndices == l.toolIndices
    requires forall id :: id in l.toolAcc ==> id in after.toolAcc && after.toolAcc[id].name == l.toolAcc[id].name
    requires SentTo(after.out, TextBlocks(l.textAcc) + j)
          == SentTo(l.out, TextBlocks(l.textAcc) + j) + if TextBlocks(l.textAcc) + j == target then args else ""
    ensures |See(seen, ToolArgsDelta(target, args))| == |seen|
    ensures CallIsSeen(after, See(seen, ToolArgsDelta(target, args)), j)
  {
    ArgsSeen(seen, target, args, TextBlocks(l.textAcc) + j);
    assert SentTo(l.out, TextBlocks(l.textAcc) + j) + "" == SentTo(l.out, TextBlocks(l.textAcc) + j);
  }

  lemma MoreArgsSeen(l: Loop, tool: ToolPiece)
    requires Inv(l) && AllSendable(l.out) && KindsInv(l) && TextThenCalls(l, Seen(l.out))
    requires tool.args != "" && TargetOf(l, tool.id).Some? && (tool.id == "" || tool.id in l.toolIndices)
    ensures AllSendable(OnArgs(l, tool).out) && TextThenCalls(OnArgs(l, tool), Seen(OnArgs(l, tool).out))
  {
    var target := TargetOf(l, tool.id).value;
    var after := OnArgs(l, tool);
    ArgsSent(l, tool, target);
    ArgsKeepTables(l, tool);
    SeeOneMore(l.out, ToolArgsDelta(target, tool.args));
    var seen := See(Seen(l.out), ToolArgsDelta(target, tool.args));
    forall j | 0 <= j < |after.toolOrder| ensures CallIsSeen(after, seen, j) {
      CallStaysSeen(l, after, Seen(l.out), target, tool.args, j);
    }
    if l.textAcc != "" {
      ArgsSeen(Seen(l.out), target, tool.args, 0);
    }
    assert TextThenCalls(after, seen);
  }

  lemma ArgsKeepContent(l: Loop, tool: ToolPiece, mixed: bool)
    requires Inv(l) && AllSendable(l.out) && KindsInv(l) && ContentInv(l, mixed)
    requires tool.id == "" || tool.id in l.toolIndices
    ensures AllSendable(OnArgs(l, tool).out) && ContentInv(OnArgs(l, tool), mixed)
  {
    var target := TargetOf(l, tool.id);
    if tool.args != "" && target.Some? {
      if mixed {
        SeeOneMore(l.out, ToolArgsDelta(target.value, tool.args));
        LaterTextStays(Seen(l.out), ToolArgsDelta(target.value, tool.args));
      } else {
        MoreArgsSeen(l, tool);
      }
    } else {
      assert OnArgs(l, tool).out == l.out;
    }
  }

  // --- Every step ---

  ghost predicate ViewInv(l: Loop, late: bool, misplaced: bool, mixed: bool) {
    Inv(l) && InsideInv(l, late) && FitInv(l, misplaced) && ContentInv(l, mixed)
  }

  lemma TextKeepsView(l: Loop, text: string, late: bool, misplaced: bool, mixed: bool)
    requires ViewInv(l, late, misplaced, mixed)
    ensures ViewInv(OnText(l, text), late, misplaced, mixed || (text != "" && l.openKind == Some(ToolKind)))
  {
    TextKeeps(l, text);
    TextKeepsInside(l, text, late);
    TextKeepsFit(l, text, misplaced);
    TextKeepsContent(l, text, mixed);
  }

  lemma ToolKeepsView(l: Loop, tool: ToolPiece, late: bool, misplaced: bool, mixed: bool)
    requires ViewInv(l, late, misplaced, mixed)
    ensures ViewInv(OnTool(l, tool), late || IsLate(l, tool), misplaced || IsMisplaced(l, tool), mixed)
  {
    var started := OnToolStart(l, tool);
    ToolStartKeeps(l, tool);
    ToolStartKeepsInside(l, tool, late);
    ToolStartKeepsFit(l, tool, misplaced);
    ToolStartKeepsContent(l, tool, mixed);
    ArgsKeep(started, tool);
    ArgsKeepInside(started, tool, late);
    ArgsKeepFit(started, tool, misplaced);
    ArgsKeepContent(started, tool, mixed);
  }

  lemma {:induction false} ToolsKeepView(l: Loop, tools: seq<ToolPiece>, late: bool, misplaced: bool, mixed: bool)
    requires ViewInv(l, late, misplaced, mixed)
    ensures ViewInv(OnTools(l, tools), late || Among(IsLate, l, tools),
                    misplaced || Among(IsMisplaced, l, tools), mixed)
    decreases |tools|
  {
    if tools != [] {
      var init := tools[..|tools| - 1];
      ToolsKeepView(l, init, late, misplaced, mixed);
      ToolKeepsView(OnTools(l, init), tools[|tools| - 1], late || Among(IsLate, l, init),
                    misplaced || Among(IsMisplaced, l, init), mixed);
    }
  }

  lemma StartIsSeen()
    ensures ViewInv(LangChainStream.START, false, false, false)
  {
    var l := LangChainStream.START;
    RunKeeps([]);
    assert InsideInv(l, false);
    assert Wire([]) == [] && FitInv(l, false);
    assert ContentInv(l, false);
  }

  lemma {:induction false} RunKeepsView(messages: seq<Message>)
    ensures ViewInv(After(messages), Somewhere(IsLate, messages), Somewhere(IsMisplaced, messages),
                    TextAfterTool(messages))
    decreases |messages|
  {
    if messages == [] {
      StartIsSeen();
    } else {
      var init, last := messages[..|messages| - 1], messages[|messages| - 1];
      var text := TextOf(last.contents);
      RunKeepsView(init);
      TextKeepsView(After(init), text, Somewhere(IsLate, init), Somewhere(IsMisplaced, init), TextAfterTool(init));
      ToolsKeepView(OnText(After(init), text), last.tools, Somewhere(IsLate, init), Somewhere(IsMisplaced, init),
                    TextAfterTool(messages));
    }
  }

  // --- What holds of every stream ---

  /** Closing the block that is open changes neither grammar nor contents. */
  lemma BodyFollowsLoop(messages: seq<Message>)
    ensures AllSendable(BodyOf(messages)) && AllSendable(After(messages).out)
    ensures var l, body := After(messages), BodyOf(messages);
            && ReadAll(body) == Some(Reader(None, l.blockIndex, false))
            && Seen(body) == Seen(l.out)
            && (Inside(body) <==> Inside(l.out)) && (Fit(body) <==> Fit(l.out))
  {
    var l := After(messages);
    RunKeepsView(messages);
    ClosingKeeps(l);
    if l.openIndex.Some? {
      SeeOneMore(l.out, BlockStop(l.openIndex.value));
      ChunkInside(l.out, BlockStop(l.openIndex.value));
      ChunkFits(l.out, BlockStop(l.openIndex.value));
    } else {
      assert BodyOf(messages) == l.out;
    }
  }

  lemma BodyCloses(messages: seq<Message>)
    ensures AllSendable(BodyOf(messages))
    ensures SE.TrackAll({}, Wire(BodyOf(messages))) == SG.TrackAll({}, BodyOf(messages)) == {}
  {
    BodyFollowsLoop(messages);
    ReadersAgree(BodyOf(messages));
    WireKeepsGrammar({}, BodyOf(messages));
  }

  lemma EncodeStop(s: SE.State, reason: StopReason, usage: Usage)
    requires s.open == {}
    ensures SE.EncodeFrom(s, [MessageStop(reason, usage, None)], false)
         == SE.Encoded([SE.MessageDeltaE(reason, None, SE.UsageToWire(usage)), SE.MessageStopE], false)
  {
    assert [MessageStop(reason, usage, None)][1..] == [];
    assert SE.Closing({}) == [];
  }

  lemma EncodedBody(messages: seq<Message>)
    ensures AllSendable(BodyOf(messages))
    ensures SE.EncodeFrom(SE.START, Completed(messages), false)
         == SE.Encoded(Wire(BodyOf(messages))
                       + [SE.MessageDeltaE(StopReasonOf(After(messages)), None, SE.UsageToWire(CountsAfter(messages))),
                          SE.MessageStopE], false)
  {
    var body := BodyOf(messages);
    var stop := MessageStop(StopReasonOf(After(messages)), CountsAfter(messages), None);
    BodyCloses(messages);
    EncodeBody(SE.START, body, [stop], false);
    EncodeStop(SE.START.(open := {}), StopReasonOf(After(messages)), CountsAfter(messages));
  }

  lemma BrokenOff(messages: seq<Message>)
    ensures AllSendable(After(messages).out)
    ensures SE.EncodeFrom(SE.START, After(messages).out, true) == SE.Encoded(Wire(After(messages).out), true)
  {
    var out := After(messages).out;
    BodyFollowsLoop(messages);
    EncodeBody(SE.START, out, [], true);
    assert out + [] == out;
  }

  /** A stream that ends becomes message_start, ping, one event for each chunk, message_delta and
      message_stop, with every block closed and nothing left to the encoder's own closing
      loop; one that raises breaks off after the chunks of the loop. */
  lemma SseOfStream(model: string, messages: seq<Message>)
    ensures AllSendable(BodyOf(messages)) && AllSendable(After(messages).out)
    ensures var prologue := [SE.MessageStartE(model), SE.PingE];
            && Shown(model, messages)
               == SE.Encoded(prologue + Wire(BodyOf(messages))
                             + [SE.MessageDeltaE(StopReasonOf(After(messages)), None,
                                                 SE.UsageToWire(CountsAfter(messages))),
                                SE.MessageStopE], false)
            && SE.TrackAll({}, Wire(BodyOf(messages))) == {}
            && SE.Encode(model, After(messages).out, true)
               == SE.Encoded(prologue + Wire(After(messages).out), true)
  {
    BodyCloses(messages);
    EncodedBody(messages);
    BrokenOff(messages);
  }

  /** The events of a LangChain stream are, per index, (start delta* stop)* if and only if no
      arguments came for a call whose block was no longer open; and every delta is of its
      block's kind if and only if no arguments without an id came while a text block was open. */
  lemma SseGrammarExactly(messages: seq<Message>)
    ensures AllSendable(BodyOf(messages))
    ensures SE.BlockGrammar({}, Wire(BodyOf(messages))) <==> !Somewhere(IsLate, messages)
    ensures SE.DeltasFit(map[], Wire(BodyOf(messages))) <==> !Somewhere(IsMisplaced, messages)
  {
    BodyFollowsLoop(messages);
    RunKeepsView(messages);
    ReadersAgree(BodyOf(messages));
    WireKeepsGrammar({}, BodyOf(messages));
  }

  // --- What the client puts together ---

  lemma {:induction false} FinishAlongIs(order: seq<int>, blocks: map<int, SE.ClientBlock>, loads: Parser,
                                         content: seq<Block>)
    requires forall i :: 0 <= i < |order| ==> order[i] in blocks
    ensures SE.FinishAlong(order, blocks, loads) == Some(content) <==>
              && |content| == |order|
              && forall i :: 0 <= i < |order| ==> SE.ClientFinish(blocks[order[i]], loads) == Some(content[i])
  {
    if order != [] {
      if content != [] {
        FinishAlongIs(order[1..], blocks, loads, content[1..]);
        assert content == [content[0]] + content[1..];
        forall i | 1 <= i < |order| ensures order[i] == order[1..][i - 1] {
        }
      }
    }
  }

  function UpTo(n: nat): seq<int> {
    seq(n, i => i)
  }

  lemma SortedKeys(seen: seq<SE.ClientBlock>)
    ensures Sorted(AsMap(seen).Keys) == UpTo(|seen|)
  {
    var order := UpTo(|seen|);
    forall i | i in AsMap(seen).Keys ensures i in Elements(order) {
      assert order[i] == i;
    }
    assert Elements(order) == AsMap(seen).Keys;
    SortedIsUnique(order);
  }

  lemma ContentOfSeen(events: seq<SE.Sse>, seen: seq<SE.ClientBlock>, loads: Parser, content: seq<Block>)
    requires SE.ClientFold(map[], events) == AsMap(seen)
    ensures SE.ClientContent(events, loads) == Some(content) <==>
              && |content| == |seen|
              && forall i :: 0 <= i < |seen| ==> SE.ClientFinish(seen[i], loads) == Some(content[i])
  {
    SortedKeys(seen);
    FinishAlongIs(UpTo(|seen|), AsMap(seen), loads, content);
  }

  lemma ClientSeesTheBlocks(model: string, messages: seq<Message>)
    ensures AllSendable(After(messages).out)
    ensures SE.ClientFold(map[], Shown(model, messages).events) == AsMap(Seen(After(messages).out))
  {
    SseOfStream(model, messages);
    BodyFollowsLoop(messages);
    ReadersAgree(BodyOf(messages));
    ClientIgnoresFrame(model, Wire(BodyOf(messages)),
                       SE.MessageDeltaE(StopReasonOf(After(messages)), None, SE.UsageToWire(CountsAfter(messages))));
  }

  // --- What is stored ---

  lemma {:induction false} CallPartsAre(calls: seq<StoredCall>, loads: Parser)
    requires CallParts(calls, loads).Some?
    ensures var parts := CallParts(calls, loads).value;
            && |parts| == |calls|
            && forall j :: 0 <= j < |calls| ==>
                 && Arguments(calls[j].args, loads).JObj?
                 && parts[j] == ToolCall(calls[j].id, calls[j].name, Arguments(calls[j].args, loads), false)
  {
    if calls != [] {
      CallPartsAre(calls[1..], loads);
    }
  }

  /** The block stored of a call. */
  function StoredBlock(call: StoredCall, loads: Parser): Block {
    ToolUseB(call.id, call.name, Arguments(call.args, loads), None)
  }

  lemma StoredCallBlocks(calls: seq<StoredCall>, loads: Parser)
    requires CallParts(calls, loads).Some?
    ensures var blocks := SE.BlocksOf(CallParts(calls, loads).value);
            && blocks.Ok? && |blocks.value| == |calls|
            && forall j :: 0 <= j < |calls| ==> blocks.value[j] == StoredBlock(calls[j], loads)
  {
    CallPartsAre(calls, loads);
    SE.BlocksAre(CallParts(calls, loads).value);
  }

  lemma TextStored(text: string, parts: seq<Part>)
    requires SE.BlocksOf(parts).Ok?
    ensures SE.BlocksOf([PlainPart(text)] + parts) == Ok([TextSeen(text).block] + SE.BlocksOf(parts).value)
  {
    assert ([PlainPart(text)] + parts)[1..] == parts;
  }

  /** The content of the stored response. */
  ghost predicate IsStored(text: string, calls: seq<StoredCall>, content: seq<Block>, loads: Parser) {
    var n := TextBlocks(text);
    && (n + |calls| == 0 ==> content == [TextSeen("").block])
    && (n + |calls| > 0 ==>
          && |content| == n + |calls|
          && (n == 1 ==> content[0] == TextSeen(text).block)
          && forall j :: 0 <= j < |calls| ==> content[n + j] == StoredBlock(calls[j], loads))
  }

  lemma TextAndCallsStored(text: string, calls: seq<StoredCall>, blocks: seq<Block>, loads: Parser)
    requires |blocks| == |calls| && forall j :: 0 <= j < |calls| ==> blocks[j] == StoredBlock(calls[j], loads)
    ensures text != "" ==> IsStored(text, calls, [TextSeen(text).block] + blocks, loads)
    ensures text == "" && calls != [] ==> IsStored(text, calls, blocks, loads)
    ensures text == "" && calls == [] ==> IsStored(text, calls, [TextSeen("").block], loads)
  {
  }

  lemma StoredBlocks(text: string, calls: seq<StoredCall>, loads: Parser)
    requires CallParts(calls, loads).Some?
    ensures var blocks := SE.BlocksOf(ContentOf(text, CallParts(calls, loads).value));
            blocks.Ok? && blocks.value != [] && IsStored(text, calls, blocks.value, loads)
  {
    var parts := CallParts(calls, loads).value;
    StoredCallBlocks(calls, loads);
    CallPartsAre(calls, loads);
    TextAndCallsStored(text, calls, SE.BlocksOf(parts).value, loads);
    if text != "" {
      TextStored(text, parts);
    } else if calls == [] {
      TextStored("", []);
      assert [PlainPart("")] + [] == [PlainPart("")];
      assert [TextSeen("").block] + [] == [TextSeen("").block];
    }
  }

  lemma StoredContent(model: string, text: string, calls: seq<StoredCall>, reason: StopReason, usage: Usage,
                      loads: Parser)
    requires ResultOf(text, calls, reason, usage, loads).Some?
    ensures var stored := SE.ResultToResponse(ResultOf(text, calls, reason, usage, loads).value, model);
            && stored.Ok? && IsStored(text, calls, stored.value.content, loads)
            && stored.value.stopReason == reason && stored.value.safeguards == None
            && stored.value.usage == SE.UsageToWire(Usage(usage.input, usage.output, 0, 0))
  {
    StoredBlocks(text, calls, loads);
  }

  // --- And how they compare ---

  /** The arguments a client reads. */
  function ReadByClient(text: string, loads: Parser): Option<Json> {
    if text == "" then Some(EMPTY_OBJECT)
    else
      match loads(text)
      case Some(JObj(fields)) => Some(JObj(fields))
      case _ => None
  }

  lemma MixedContentDiffers(seen: seq<SE.ClientBlock>, text: string, calls: seq<StoredCall>, loads: Parser,
                            content: seq<Block>)
    requires HasLaterText(seen) && |content| == |seen|
    requires |content| > 1 ==>
               && |content| == TextBlocks(text) + |calls|
               && forall j :: 0 <= j < |calls| ==> content[TextBlocks(text) + j] == StoredBlock(calls[j], loads)
    ensures exists i :: 0 <= i < |seen| && SE.ClientFinish(seen[i], loads) != Some(content[i])
  {
    var i :| 1 <= i < |seen| && seen[i].block.TextB?;
    assert content[i] == StoredBlock(calls[i - TextBlocks(text)], loads);
    assert SE.ClientFinish(seen[i], loads) != Some(content[i]);
  }

  /** The client reads what was sent as what is stored. */
  predicate ReadsAs(sent: string, stored: string, loads: Parser) {
    ReadByClient(sent, loads) == Some(Arguments(stored, loads))
  }

  /** What was sent to the tool blocks that were started, in order. */
  function SentToCalls(chunks: seq<Chunk>): seq<string> {
    var starts := ToolStarts(chunks);
    seq(|starts|, j requires 0 <= j < |starts| => SentTo(chunks, starts[j].index))
  }

  /** Each call's arguments are read by the client as they are stored. */
  predicate ArgumentsReadAlike(sent: seq<string>, calls: seq<StoredCall>, loads: Parser) {
    && |sent| == |calls|
    && forall j :: 0 <= j < |calls| ==> ReadsAs(sent[j], calls[j].args, loads)
  }

  lemma CompletedSends(messages: seq<Message>)
    ensures ToolStarts(Completed(messages)) == ToolStarts(After(messages).out)
    ensures forall i :: SentTo(Completed(messages), i) == SentTo(After(messages).out, i)
  {
    var l := After(messages);
    RunKeeps(messages);
    ClosingKeeps(l);
    OneMore(l.out + Closing(l.openIndex), MessageStop(StopReasonOf(l), CountsAfter(messages), None));
  }

  lemma StartsOfCalls(l: Loop, seen: seq<SE.ClientBlock>)
    requires Inv(l) && TextThenCalls(l, seen)
    ensures |SentToCalls(l.out)| == |l.toolOrder|
    ensures forall j :: 0 <= j < |l.toolOrder| ==> SentToCalls(l.out)[j] == SentTo(l.out, TextBlocks(l.textAcc) + j)
  {
    forall j | 0 <= j < |l.toolOrder| ensures ToolStarts(l.out)[j].index == TextBlocks(l.textAcc) + j {
      assert CallIsSeen(l, seen, j);
    }
  }

  lemma ClosingSendsNothing(messages: seq<Message>)
    ensures SentToCalls(Completed(messages)) == SentToCalls(After(messages).out)
  {
    CompletedSends(messages);
    assert |SentToCalls(Completed(messages))| == |SentToCalls(After(messages).out)|;
  }

  lemma CallCompares(id: string, name: string, sent: string, stored: string, loads: Parser)
    ensures SE.ClientFinish(CallSeen(id, name, sent), loads) == Some(StoredBlock(StoredCall(id, name, stored), loads))
            <==> ReadsAs(sent, stored, loads)
  {
  }

  /** The client finishes these blocks. */
  ghost predicate Finishes(seen: seq<SE.ClientBlock>, loads: Parser, content: seq<Block>) {
    && |content| == |seen|
    && forall i :: 0 <= i < |seen| ==> SE.ClientFinish(seen[i], loads) == Some(content[i])
  }

  /** Text and calls in order, the client's and the stored ones. */
  ghost predicate SideBySide(seen: seq<SE.ClientBlock>, sent: seq<string>, text: string, calls: seq<StoredCall>) {
    && |seen| == TextBlocks(text) + |calls| && |sent| == |calls|
    && (text != "" ==> seen[0] == TextSeen(text))
    && forall j :: 0 <= j < |calls| ==>
         seen[TextBlocks(text) + j] == CallSeen(calls[j].id, calls[j].name, sent[j])
  }

  lemma CallsCompare(seen: seq<SE.ClientBlock>, sent: seq<string>, text: string, calls: seq<StoredCall>,
                     loads: Parser, content: seq<Block>)
    requires SideBySide(seen, sent, text, calls) && IsStored(text, calls, content, loads)
    ensures Finishes(seen, loads, content) <==>
              (text != "" || calls != []) && ArgumentsReadAlike(sent, calls, loads)
  {
    var n := TextBlocks(text);
    forall j | 0 <= j < |calls| && n + |calls| > 0
      ensures SE.ClientFinish(seen[n + j], loads) == Some(content[n + j]) <==> ReadsAs(sent[j], calls[j].args, loads)
    {
      CallCompares(calls[j].id, calls[j].name, sent[j], calls[j].args, loads);
    }
    if (text != "" || calls != []) && ArgumentsReadAlike(sent, calls, loads) {
      forall i | 0 <= i < |seen| ensures SE.ClientFinish(seen[i], loads) == Some(content[i]) {
        assert i >= n ==> ReadsAs(sent[i - n], calls[i - n].args, loads) && n + (i - n) == i;
      }
    }
  }

  lemma InOrderSideBySide(l: Loop, seen: seq<SE.ClientBlock>)
    requires Inv(l) && TextThenCalls(l, seen)
    ensures SideBySide(seen, SentToCalls(l.out), l.textAcc, StoredCalls(l))
  {
    StartsOfCalls(l, seen);
    forall j | 0 <= j < |l.toolOrder|
      ensures seen[TextBlocks(l.textAcc) + j]
           == CallSeen(StoredCalls(l)[j].id, StoredCalls(l)[j].name, SentToCalls(l.out)[j])
    {
      assert CallIsSeen(l, seen, j);
    }
  }

  lemma MixedCompares(seen: seq<SE.ClientBlock>, text: string, calls: seq<StoredCall>, content: seq<Block>,
                      loads: Parser)
    requires HasLaterText(seen) && IsStored(text, calls, content, loads)
    ensures !Finishes(seen, loads, content)
  {
    if |content| == |seen| {
      MixedContentDiffers(seen, text, calls, loads, content);
    }
  }

  /** What a client puts together from the events is the content of the stored response if and
      only if there was some text or call, no text came after a call was started, and the
      client can read each call's arguments as they are stored. */
  lemma ReassemblyExactly(model: string, messages: seq<Message>, loads: Parser)
    requires StoredResult(messages, loads).Some?
    ensures var l := After(messages);
            var stored := SE.ResultToResponse(StoredResult(messages, loads).value, model);
            && stored.Ok?
            && (SE.ClientContent(Shown(model, messages).events, loads) == Some(stored.value.content) <==>
                  && (l.textAcc != "" || StoredCalls(l) != [])
                  && !TextAfterTool(messages)
                  && ArgumentsReadAlike(SentToCalls(Completed(messages)), StoredCalls(l), loads))
  {
    var l := After(messages);
    RunKeepsView(messages);
    ClientSeesTheBlocks(model, messages);
    StoredContent(model, l.textAcc, StoredCalls(l), StopReasonOf(l), CountsAfter(messages), loads);
    var content := SE.ResultToResponse(StoredResult(messages, loads).value, model).value.content;
    ContentOfSeen(Shown(model, messages).events, Seen(l.out), loads, content);
    if TextAfterTool(messages) {
      MixedCompares(Seen(l.out), l.textAcc, StoredCalls(l), content, loads);
    } else {
      ClosingSendsNothing(messages);
      InOrderSideBySide(l, Seen(l.out));
      CallsCompare(Seen(l.out), SentToCalls(l.out), l.textAcc, StoredCalls(l), loads, content);
    }
  }

  /** In particular, when no arguments without an id came for an open tool block: exactly if
      there was something, text came before all calls, and all arguments parse. */
  lemma ReassemblyWithoutStrays(model: string, messages: seq<Message>, loads: Parser)
    requires StoredResult(messages, loads).Some? && !Somewhere(IsStray, messages)
    ensures var l := After(messages);
            var stored := SE.ResultToResponse(StoredResult(messages, loads).value, model);
            && stored.Ok?
            && (SE.ClientContent(Shown(model, messages).events, loads) == Some(stored.value.content) <==>
                  && (l.textAcc != "" || StoredCalls(l) != [])
                  && !TextAfterTool(messages)
                  && forall j :: 0 <= j < |StoredCalls(l)| ==>
                       StoredCalls(l)[j].args == "" || loads(StoredCalls(l)[j].args).Some?)
  {
    var calls := StoredCalls(After(messages));
    ReassemblyExactly(model, messages, loads);
    ArgumentsAgreeExactlyWithoutStrays(messages);
    CallPartsAre(calls, loads);
    forall j | 0 <= j < |calls|
      ensures ReadByClient(calls[j].args, loads) == Some(Arguments(calls[j].args, loads))
              <==> calls[j].args == "" || loads(calls[j].args).Some?
    {
      assert Arguments(calls[j].args, loads).JObj?;
    }
  }

  /** message_delta carries the stored stop reason, and the stored usage exactly if no tokens were
      read from a cache: get_response leaves those out. */
  lemma EndingExactly(model: string, messages: seq<Message>, loads: Parser)
    requires StoredResult(messages, loads).Some?
    ensures var stored := SE.ResultToResponse(StoredResult(messages, loads).value, model);
            var sse := Shown(model, messages).events;
            && stored.Ok?
            && |sse| >= 2 && sse[|sse| - 2].MessageDeltaE? && sse[|sse| - 1] == SE.MessageStopE
            && sse[|sse| - 2].stopReason == stored.value.stopReason
            && sse[|sse| - 2].safeguards == stored.value.safeguards
            && (sse[|sse| - 2].usage == stored.value.usage <==> CountsAfter(messages).cacheRead == 0)
  {
    var l := After(messages);
    SseOfStream(model, messages);
    StoredContent(model, l.textAcc, StoredCalls(l), StopReasonOf(l), CountsAfter(messages), loads);
    NoCacheWrites(messages);
  }

  lemma {:induction false} NoCacheWrites(messages: seq<Message>)
    ensures CountsAfter(messages).cacheWrite == 0
  {
  }

  // --- Streams on which they differ ---

  const ONE := ToolPiece("one", Some("name"), "")
  const OTHER := ToolPiece("other", Some("name"), "")
  const MORE := ToolPiece("one", None, "{}")

  /** Arguments for a call whose block has been closed by the next call. */
  lemma LateHappens(counts: Counts)
    ensures var messages := [Message(NoContents, [ONE, OTHER, MORE], counts)];
            && Somewhere(IsLate, messages)
            && AllSendable(BodyOf(messages)) && !SE.BlockGrammar({}, Wire(BodyOf(messages)))
  {
    var messages := [Message(NoContents, [ONE, OTHER, MORE], counts)];
    var tools := [ONE, OTHER, MORE];
    assert messages[..0] == [] && tools[..2] == [ONE, OTHER] && [ONE, OTHER][..1] == [ONE] && [ONE][..0] == [];
    var l := OnTool(OnTool(LangChainStream.START, ONE), OTHER);
    assert OnTools(LangChainStream.START, [ONE]) == OnTool(LangChainStream.START, ONE);
    assert OnTools(LangChainStream.START, tools[..2]) == l;
    assert IsLate(l, MORE);
    assert Among(IsLate, LangChainStream.START, tools);
    SseGrammarExactly(messages);
  }

  /** Arguments without an id after text. */
  lemma MisplacedHappens(counts: Counts)
    ensures var messages := [Message(Whole("text"), [UNNAMED], counts)];
            && Somewhere(IsMisplaced, messages)
            && AllSendable(BodyOf(messages)) && !SE.DeltasFit(map[], Wire(BodyOf(messages)))
  {
    var messages := [Message(Whole("text"), [UNNAMED], counts)];
    assert messages[..0] == [] && [UNNAMED][..0] == [];
    assert IsMisplaced(OnText(LangChainStream.START, "text"), UNNAMED);
    SseGrammarExactly(messages);
  }

  /** A call and then text: the gateway stores them the other way round. */
  lemma TextAfterToolHappens(model: string, counts: Counts, loads: Parser)
    ensures var messages := [Message(NoContents, [ONE], counts), Message(Whole("text"), [], counts)];
            && TextAfterTool(messages)
            && StoredResult(messages, loads).Some?
            && var stored := SE.ResultToResponse(StoredResult(messages, loads).value, model);
               stored.Ok? && SE.ClientContent(Shown(model, messages).events, loads) != Some(stored.value.content)
  {
    var first, second := Message(NoContents, [ONE], counts), Message(Whole("text"), [], counts);
    assert [first, second][..1] == [first];
    OneMessage(NoContents, ONE, counts);
    var calls := StoredCalls(After([first, second]));
    assert calls == [StoredCall("one", "name", "")];
    assert CallParts(calls[1..], loads) == Some([]);
    ReassemblyExactly(model, [first, second], loads);
  }
}
