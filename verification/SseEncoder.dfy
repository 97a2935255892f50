/** Internal chunks to Anthropic's server-sent events:
    src/ttllm/core/adapters/anthropic_stream.py. Events are values here; their text framing
    is not part of this model. */
module SseEncoder {
  import opened Model
  import opened Sorting
  import opened AnthropicWire

  datatype WireUsage = WireUsage(
    inputTokens: int, outputTokens: int, cacheRead: Option<int>, cacheCreation: Option<int>)

  datatype WireDelta =
    | TextDeltaW(text: string)
    | InputJsonDeltaW(partialJson: string)
    | ThinkingDeltaW(thinking: string)
    | SignatureDeltaW(signature: string)
    | CitationsDeltaW(citation: Dict)

  datatype Sse =
    | MessageStartE(model: string)
    | PingE
    | BlockStartE(index: int, block: Block)
    | BlockDeltaE(index: int, delta: WireDelta)
    | BlockStopE(index: int)
    | MessageDeltaE(stopReason: StopReason, safeguards: Option<seq<Safeguard>>, usage: WireUsage)
    | MessageStopE
    | ErrorE(message: string)

  /** What the encoder produced, and whether it ended by raising. */
  datatype Encoded = Encoded(events: seq<Sse>, raised: bool)

  function ZeroToNone(n: int): Option<int> {
    if n == 0 then None else Some(n)
  }

  function UsageToWire(u: Usage): WireUsage {
    WireUsage(u.input, u.output, ZeroToNone(u.cacheRead), ZeroToNone(u.cacheWrite))
  }

  const NO_WIRE_USAGE := WireUsage(0, 0, None, None)

  /** The delta event of a delta chunk. */
  function DeltaOf(c: Chunk): Sse
    requires c.IsDelta()
  {
    match c
    case TextDelta(i, t) => BlockDeltaE(i, TextDeltaW(t))
    case ToolArgsDelta(i, t) => BlockDeltaE(i, InputJsonDeltaW(t))
    case ThinkingDelta(i, t) => BlockDeltaE(i, ThinkingDeltaW(t))
    case SignatureDelta(i, sig) => BlockDeltaE(i, SignatureDeltaW(sig))
    case CitationDelta(i, citation) => BlockDeltaE(i, CitationsDeltaW(CitationToWire(citation)))
  }

  /** The encoder's loop variables. */
  datatype State = State(open: set<int>, stopReason: StopReason,
                         safeguards: Option<seq<Safeguard>>, usage: WireUsage)

  const START := State({}, EndTurn, None, NO_WIRE_USAGE)

  function Closing(open: set<int>): seq<Sse> {
    var order := Sorted(open);
    seq(|order|, i requires 0 <= i < |order| => BlockStopE(order[i]))
  }

  function Epilogue(s: State): seq<Sse> {
    Closing(s.open) + [MessageDeltaE(s.stopReason, s.safeguards, s.usage), MessageStopE]
  }

  function Prepend(e: Sse, rest: Encoded): Encoded {
    Encoded([e] + rest.events, rest.raised)
  }

  /** From a state, the events for the remaining chunks. `broken` says that the chunk
      iterator raises once they are consumed. */
  function EncodeFrom(s: State, chunks: seq<Chunk>, broken: bool): Encoded
    decreases |chunks|
  {
    if chunks == [] then
      if broken then Encoded([], true) else Encoded(Epilogue(s), false)
    else
      match chunks[0]
      case BlockStart(i, part) =>
        (match PartToBlock(part)
         case Err(_) => Encoded([], true)
         case Ok(block) =>
           Prepend(BlockStartE(i, block), EncodeFrom(s.(open := s.open + {i}), chunks[1..], broken)))
      case BlockStop(i) =>
        Prepend(BlockStopE(i), EncodeFrom(s.(open := s.open - {i}), chunks[1..], broken))
      case MessageStop(reason, usage, safeguards) =>
        EncodeFrom(State(s.open, reason, safeguards, UsageToWire(usage)), chunks[1..], broken)
      case Error(message) => Encoded([ErrorE(if message == "" then "Unknown error" else message)], false)
      case _ => Prepend(DeltaOf(chunks[0]), EncodeFrom(s, chunks[1..], broken))
  }

  function Encode(model: string, chunks: seq<Chunk>, broken: bool): Encoded {
    var body := EncodeFrom(START, chunks, broken);
    Encoded([MessageStartE(model), PingE] + body.events, body.raised)
  }

  /** `encode_anthropic_sse`, drained. */
  method EncodeSse(model: string, chunks: seq<Chunk>, broken: bool) returns (events: seq<Sse>, raised: bool)
    ensures Encoded(events, raised) == Encode(model, chunks, broken)
  {
    events := [MessageStartE(model), PingE];
    raised := false;
    var open: set<int> := {};
    var stopReason, usage := EndTurn, NO_WIRE_USAGE;
    var safeguards: Option<seq<Safeguard>> := None;
    var i := 0;
    while i < |chunks|
      invariant 0 <= i <= |chunks|
      invariant var rest := EncodeFrom(State(open, stopReason, safeguards, usage), chunks[i..], broken);
                Encode(model, chunks, broken) == Encoded(events + rest.events, rest.raised)
    {
      var chunk := chunks[i];
      assert chunks[i..][0] == chunk && chunks[i..][1..] == chunks[i + 1..];
      match chunk {
        case BlockStart(index, part) =>
          open := open + {index};
          var block := PartToBlock(part);
          if block.Err? {
            return events, true;
          }
          OneMore(events, BlockStartE(index, block.value),
                  EncodeFrom(State(open, stopReason, safeguards, usage), chunks[i + 1..], broken));
          events := events + [BlockStartE(index, block.value)];
        case BlockStop(index) =>
          open := open - {index};
          OneMore(events, BlockStopE(index),
                  EncodeFrom(State(open, stopReason, safeguards, usage), chunks[i + 1..], broken));
          events := events + [BlockStopE(index)];
        case MessageStop(reason, finalUsage, results) =>
          stopReason, safeguards, usage := reason, results, UsageToWire(finalUsage);
        case Error(message) =>
          events := events + [ErrorE(if message == "" then "Unknown error" else message)];
          return;
        case _ =>
          OneMore(events, DeltaOf(chunk),
                  EncodeFrom(State(open, stopReason, safeguards, usage), chunks[i + 1..], broken));
          events := events + [DeltaOf(chunk)];
      }
      i := i + 1;
    }
    if broken {
      return events, true;
    }
    var stops := CloseBlocks(open);
    events := events + (stops + [MessageDeltaE(stopReason, safeguards, usage), MessageStopE]);
  }

  /** The defensive loop over the blocks still open. */
  method CloseBlocks(open: set<int>) returns (stops: seq<Sse>)
    ensures stops == Closing(open)
  {
    stops := [];
    var order := Sorted(open);
    var j := 0;
    while j < |order|
      invariant 0 <= j <= |order|
      invariant stops == Closing(open)[..j]
    {
      stops := stops + [BlockStopE(order[j])];
      j := j + 1;
    }
  }

  lemma OneMore(events: seq<Sse>, e: Sse, rest: Encoded)
    ensures events + Prepend(e, rest).events == (events + [e]) + rest.events
  {
  }

  // --- The event grammar ---

  function Track(open: set<int>, e: Sse): set<int> {
    match e
    case BlockStartE(i, _) => open + {i}
    case BlockStopE(i) => open - {i}
    case _ => open
  }

  function TrackAll(open: set<int>, events: seq<Sse>): set<int>
    decreases |events|
  {
    if events == [] then open else TrackAll(Track(open, events[0]), events[1..])
  }

  /** Between prologue and epilogue: per index (start delta* stop)*, and nothing else. */
  ghost predicate BlockGrammar(open: set<int>, events: seq<Sse>)
    decreases |events|
  {
    events == [] ||
    (&& (events[0].BlockStartE? || events[0].BlockDeltaE? || events[0].BlockStopE?)
     && (events[0].BlockStartE? ==> events[0].index !in open)
     && (events[0].BlockDeltaE? ==> events[0].index in open)
     && (events[0].BlockStopE? ==> events[0].index in open)
     && BlockGrammar(Track(open, events[0]), events[1..]))
  }

  // --- The client ---

  /** A block as an Anthropic client accumulates it, tool arguments still as text. */
  datatype ClientBlock = ClientBlock(block: Block, json: string)

  function ApplyWireDelta(b: ClientBlock, delta: WireDelta): ClientBlock {
    match (b.block, delta)
    case (TextB(t), TextDeltaW(more)) => b.(block := TextB(t.(text := t.text + more)))
    case (TextB(t), CitationsDeltaW(c)) => b.(block := TextB(t.(citations := Some(t.citations.GetOr([]) + [c]))))
    case (ThinkingB(text, sig), ThinkingDeltaW(more)) => b.(block := ThinkingB(text + more, sig))
    case (ThinkingB(text, _), SignatureDeltaW(sig)) => b.(block := ThinkingB(text, sig))
    case (ToolUseB(_, _, _, _), InputJsonDeltaW(more)) => b.(json := b.json + more)
    case _ => b
  }

  /** The delta is of the kind its block takes; a client leaves others alone. */
  predicate Fits(block: Block, delta: WireDelta) {
    match delta
    case TextDeltaW(_) => block.TextB?
    case CitationsDeltaW(_) => block.TextB?
    case ThinkingDeltaW(_) => block.ThinkingB?
    case SignatureDeltaW(_) => block.ThinkingB?
    case InputJsonDeltaW(_) => block.ToolUseB?
  }

  function ClientStep(blocks: map<int, ClientBlock>, e: Sse): map<int, ClientBlock> {
    match e
    case BlockStartE(i, block) => blocks[i := ClientBlock(block, "")]
    case BlockDeltaE(i, delta) => if i in blocks then blocks[i := ApplyWireDelta(blocks[i], delta)] else blocks
    case _ => blocks
  }

  function ClientFold(blocks: map<int, ClientBlock>, events: seq<Sse>): map<int, ClientBlock>
    decreases |events|
  {
    if events == [] then blocks else ClientFold(ClientStep(blocks, events[0]), events[1..])
  }

  /** Every delta is for a block that was started with its kind. */
  ghost predicate DeltasFit(blocks: map<int, ClientBlock>, events: seq<Sse>)
    decreases |events|
  {
    events == [] ||
    (&& (events[0].BlockDeltaE? ==> events[0].index in blocks && Fits(blocks[events[0].index].block, events[0].delta))
     && DeltasFit(ClientStep(blocks, events[0]), events[1..]))
  }

  /** The finished block; None when the argument text is not a JSON object. */
  function ClientFinish(b: ClientBlock, loads: Parser): Option<Block> {
    match b.block
    case ToolUseB(id, name, _, cacheControl) =>
      if b.json == "" then Some(b.block)
      else
        (match loads(b.json)
         case Some(JObj(fields)) => Some(ToolUseB(id, name, JObj(fields), cacheControl))
         case _ => None)
    case _ => Some(b.block)
  }

  function FinishAlong(order: seq<int>, blocks: map<int, ClientBlock>, loads: Parser): Option<seq<Block>>
    requires forall i :: 0 <= i < |order| ==> order[i] in blocks
  {
    if order == [] then Some([])
    else
      match ClientFinish(blocks[order[0]], loads)
      case None => None
      case Some(b) =>
        match FinishAlong(order[1..], blocks, loads)
        case None => None
        case Some(rest) => Some([b] + rest)
  }

  /** The message content a client has put together from a stream of events. */
  function ClientContent(events: seq<Sse>, loads: Parser): Option<seq<Block>> {
    var blocks := ClientFold(map[], events);
    SortedOrder(blocks.Keys);
    FinishAlong(Sorted(blocks.Keys), blocks, loads)
  }

  // --- The non-streaming answer ---

  function BlocksOf(parts: seq<Part>): Result<seq<Block>> {
    if parts == [] then Ok([])
    else
      var first :- PartToBlock(parts[0]);
      var rest :- BlocksOf(parts[1..]);
      Ok([first] + rest)
  }

  datatype MessagesResponse = MessagesResponse(
    content: seq<Block>, model: string, stopReason: StopReason, usage: WireUsage,
    safeguards: Option<seq<Safeguard>>)

  /** `result_to_response`. */
  function ResultToResponse(result: InternalResult, model: string): Result<MessagesResponse> {
    var blocks :- BlocksOf(result.content);
    var content := if blocks == [] then [TextB(TextBlock("", None, None))] else blocks;
    Ok(MessagesResponse(content, model, result.stopReason, UsageToWire(result.usage), result.safeguards))
  }

  lemma {:induction false} BlocksAre(parts: seq<Part>)
    requires forall j :: 0 <= j < |parts| ==> PartToBlock(parts[j]).Ok?
    ensures BlocksOf(parts).Ok? && |BlocksOf(parts).value| == |parts|
    ensures forall j :: 0 <= j < |parts| ==> BlocksOf(parts).value[j] == PartToBlock(parts[j]).value
  {
    if parts != [] {
      BlocksAre(parts[1..]);
    }
  }

  /** The response holds the result's parts, each as its block, or one empty text if there are none,
      and its stop reason and verdicts; cache tokens only where there are some. */
  lemma ResponseIsWritten(result: InternalResult, model: string)
    ensures ResultToResponse(result, model).Ok? <==>
              forall i :: 0 <= i < |result.content| ==> PartToBlock(result.content[i]).Ok?
    ensures ResultToResponse(result, model).Ok? ==>
              var r := ResultToResponse(result, model).value;
              && (if result.content == [] then r.content == [TextB(TextBlock("", None, None))]
                  else
                    && |r.content| == |result.content|
                    && forall i :: 0 <= i < |r.content| ==> PartToBlock(result.content[i]) == Ok(r.content[i]))
              && r.model == model && r.stopReason == result.stopReason && r.safeguards == result.safeguards
              && r.usage.inputTokens == result.usage.input && r.usage.outputTokens == result.usage.output
              && r.usage.cacheRead == (if result.usage.cacheRead == 0 then None else Some(result.usage.cacheRead))
              && r.usage.cacheCreation == (if result.usage.cacheWrite == 0 then None else Some(result.usage.cacheWrite))
  {
    BlocksFail(result.content);
    if BlocksOf(result.content).Ok? {
      BlocksAre(result.content);
    }
  }

  lemma {:induction false} BlocksFail(parts: seq<Part>)
    ensures BlocksOf(parts).Ok? <==> forall i :: 0 <= i < |parts| ==> PartToBlock(parts[i]).Ok?
  {
    if parts != [] {
      BlocksFail(parts[1..]);
      assert forall i :: 1 <= i < |parts| ==> parts[i] == parts[1..][i - 1];
      assert forall i :: 0 <= i < |parts[1..]| ==> parts[1..][i] == parts[i + 1];
    }
  }

  /** A stream that tells nothing of how it ended closes as a turn that ended, with no usage. */
  lemma SilentStreamEnds(model: string)
    ensures Encode(model, [], false)
         == Encoded([MessageStartE(model), PingE,
                     MessageDeltaE(EndTurn, None, WireUsage(0, 0, None, None)), MessageStopE], false)
  {
    assert Closing({}) == [];
  }
}
