/** Streaming a Converse answer and invoking it store the same result: the streamed deltas
    of src/ttllm/core/providers/bedrock/converse.py against `parse_converse_response`, and
    the accumulator of src/ttllm/core/providers/bedrock/provider.py filled either way. */
module StreamAgreement {
  import opened Model
  import opened Sorting
  import opened ConverseStream
  import SF = StreamFold

  // --- The non-streaming answer ---

  datatype ContentBlock =
    | CitationsContent(texts: seq<string>, citations: seq<BedrockCitation>)
    | TextContent(text: string)
    | ToolUseContent(id: string, name: string, input: Option<Json>)
    | ReasoningContent(text: string, signature: Option<string>)
    | OtherReasoning(rendered: string)
    | ImageContent(format: Option<string>, data: string)
    | OtherContent(dumped: string)

  datatype ConverseResponse = ConverseResponse(
    content: seq<ContentBlock>, stopReason: Option<string>, usage: RawUsage,
    safeguards: Option<seq<Safeguard>>)

  /** None when the part's own validation rejects the tool input and raises. */
  function ParseBlock(block: ContentBlock): Option<Part> {
    match block
    case CitationsContent(texts, citations) =>
      Some(Text(TextPart(Concat(texts), OrNone(CitationsFromBedrock(citations)), false)))
    case TextContent(text) => Some(PlainPart(text))
    case ToolUseContent(id, name, input) =>
      var arguments := input.GetOr(EMPTY_OBJECT);
      if arguments.JObj? then Some(ToolCall(id, name, arguments, false)) else None
    case ReasoningContent(text, signature) => Some(Thinking(text, signature.GetOr(""), false))
    case OtherReasoning(rendered) => Some(Thinking(rendered, "", false))
    case ImageContent(format, data) => Some(Image(ImagePart("image/" + format.GetOr("png"), data, false)))
    case OtherContent(dumped) => Some(PlainPart(dumped))
  }

  function ParseBlocks(content: seq<ContentBlock>): (r: Option<seq<Part>>)
    ensures r.Some? ==> |r.value| == |content|
  {
    if content == [] then Some([])
    else
      match ParseBlock(content[0])
      case None => None
      case Some(p) =>
        match ParseBlocks(content[1..])
        case None => None
        case Some(rest) => Some([p] + rest)
  }

  function ResultOf(parts: seq<Part>, stopReason: Option<string>, usage: RawUsage,
                    safeguards: Option<seq<Safeguard>>): InternalResult {
    InternalResult(if parts == [] then [PlainPart("")] else parts,
                   MapStopReason(stopReason.GetOr("end_turn")), ReadUsage(usage),
                   Remap(safeguards, ToolCallIds(parts)))
  }

  function ParseResponse(response: ConverseResponse): Option<InternalResult> {
    match ParseBlocks(response.content)
    case None => None
    case Some(parts) => Some(ResultOf(parts, response.stopReason, response.usage, response.safeguards))
  }

  /** Blocks of the other kinds, which are not streamed: an image has the media type of its format,
      png unless it says otherwise, and anything else is shown as text. */
  lemma OtherBlocksAreParsed(block: ContentBlock)
    ensures match block
            case ImageContent(format, data) =>
              ParseBlock(block)
              == Some(Image(ImagePart(match format case Some(f) => "image/" + f case None => "image/png", data, false)))
            case OtherReasoning(rendered) => ParseBlock(block) == Some(Thinking(rendered, "", false))
            case OtherContent(dumped) => ParseBlock(block) == Some(Text(TextPart(dumped, None, false)))
            case _ => true
  {
    assert "image/" + "png" == "image/png";
  }

  /** What an accumulator answers that has not been filled. */
  const EMPTY_RESULT := InternalResult([PlainPart("")], EndTurn, Usage(0, 0, 0, 0), None)

  /** `BedrockProvider.invoke`, once the raw response is in. */
  method Invoke(response: ConverseResponse, state: BedrockState) returns (raised: bool)
    modifies state
    ensures raised <==> ParseResponse(response).None?
    ensures !raised ==> state.GetResponse() == ParseResponse(response).value
    ensures !raised ==> state.rawUsage == response.usage && state.error == old(state.error)
    ensures raised ==> unchanged(state)
  {
    var result := ParseResponse(response);
    if result.None? {
      return true;
    }
    state.tokens := result.value.usage;
    state.rawUsage := response.usage;
    state.stopReason := result.value.stopReason;
    state.contentParts := result.value.content;
    state.safeguardResults := result.value.safeguards;
    return false;
  }

  // --- One block's share of a stream ---

  /** What a stream says about a single content block index. */
  datatype Piece = Opened(start: StartShape) | Moved(delta: Delta) | Closed

  /** The pieces about index `i`, in order. An absent index means the current one. */
  function PiecesOf(events: seq<Event>, i: int, current: int): seq<Piece>
    decreases |events|
  {
    if events == [] then []
    else
      match events[0]
      case ContentBlockStart(index, start) =>
        var idx := index.GetOr(current);
        (if idx == i then [Opened(start)] else []) + PiecesOf(events[1..], i, idx)
      case ContentBlockDelta(index, delta) =>
        (if index.GetOr(current) == i then [Moved(delta)] else []) + PiecesOf(events[1..], i, current)
      case ContentBlockStop(index) =>
        var idx := index.GetOr(current);
        (if idx == i then [Closed] else []) + PiecesOf(events[1..], i, idx + 1)
      case _ => PiecesOf(events[1..], i, current)
  }

  /** The last message_stop and metadata of a stream. */
  function LastStop(events: seq<Event>, given: (Option<string>, Option<seq<Safeguard>>))
    : (Option<string>, Option<seq<Safeguard>>)
    decreases |events|
  {
    if events == [] then given
    else
      LastStop(events[1..],
               if events[0].MessageStopped? then (events[0].reason, events[0].safeguards) else given)
  }

  function LastUsage(events: seq<Event>, given: RawUsage): RawUsage
    decreases |events|
  {
    if events == [] then given
    else LastUsage(events[1..], if events[0].Metadata? then events[0].usage else given)
  }

  // --- Cutting an answer into deltas ---

  /** A block's pieces: at most one start, of the given shape and first; at most one stop,
      last; and something besides the stop. */
  ghost predicate Shaped(pieces: seq<Piece>, start: StartShape) {
    && pieces != []
    && !pieces[0].Closed?
    && (pieces[0].Opened? ==> pieces[0].start == start)
    && (forall j :: 0 < j < |pieces| ==> !pieces[j].Opened?)
    && (forall j :: 0 <= j < |pieces| - 1 ==> !pieces[j].Closed?)
  }

  function Deltas(pieces: seq<Piece>): seq<Delta> {
    if pieces == [] then []
    else (if pieces[0].Moved? then [pieces[0].delta] else []) + Deltas(pieces[1..])
  }

  /** The text a delta adds to its block. */
  function Added(d: Delta): string {
    match d
    case DText(t) => t
    case DToolUse(p) => p
    case DReasoningText(t) => t
    case _ => ""
  }

  function Joined(deltas: seq<Delta>): string {
    if deltas == [] then "" else Added(deltas[0]) + Joined(deltas[1..])
  }

  function CitationDeltas(deltas: seq<Delta>): seq<BedrockCitation> {
    if deltas == [] then []
    else (if deltas[0].DCitation? then [deltas[0].citation] else []) + CitationDeltas(deltas[1..])
  }

  function LastSignature(deltas: seq<Delta>, given: string): string
    decreases |deltas|
  {
    if deltas == [] then given
    else LastSignature(deltas[1..], if deltas[0].DSignature? then deltas[0].signature else given)
  }

  /** These pieces are the given block, cut into deltas in some way: text anywhere, citations
      between its texts, arguments at any character, a signature anywhere in the reasoning. */
  ghost predicate IsCut(block: ContentBlock, pieces: seq<Piece>, loads: Parser) {
    var deltas := Deltas(pieces);
    match block
    case TextContent(text) =>
      && Shaped(pieces, OtherStart)
      && (forall j :: 0 <= j < |deltas| ==> deltas[j].DText?)
      && Joined(deltas) == text
    case CitationsContent(texts, citations) =>
      && Shaped(pieces, OtherStart)
      && (forall j :: 0 <= j < |deltas| ==> deltas[j].DText? || deltas[j].DCitation?)
      && Joined(deltas) == Concat(texts)
      && CitationDeltas(deltas) == citations
    case ToolUseContent(id, name, input) =>
      && Shaped(pieces, ToolUseStart(id, name))
      && pieces[0].Opened?
      && (forall j :: 0 <= j < |deltas| ==> deltas[j].DToolUse?)
      && (if Joined(deltas) == "" then input.GetOr(EMPTY_OBJECT) == EMPTY_OBJECT
          else loads(Joined(deltas)) == Some(input.GetOr(EMPTY_OBJECT)))
    case ReasoningContent(text, signature) =>
      && Shaped(pieces, ReasoningStart)
      && (forall j :: 0 <= j < |deltas| ==> deltas[j].DReasoningText? || deltas[j].DSignature?)
      && Joined(deltas) == text
      && LastSignature(deltas, "") == signature.GetOr("")
    case _ => false
  }

  /** The stream is the answer: block k lives at `indices[k]`, those are ascending, nothing
      else is streamed, the pieces of different blocks interleaved in any way, and the
      closing events carry the answer's stop reason, verdicts and usage. */
  ghost predicate Streams(answer: ConverseResponse, indices: seq<int>, events: seq<Event>, loads: Parser) {
    && |indices| == |answer.content|
    && Ascending(indices)
    && (forall k :: 0 <= k < |indices| ==> IsCut(answer.content[k], PiecesOf(events, indices[k], 0), loads))
    && (forall i :: i !in indices ==> PiecesOf(events, i, 0) == [])
    && (forall j :: 0 <= j < |events| ==> !events[j].Failure?)
    && LastStop(events, (None, None)) == (answer.stopReason, answer.safeguards)
    && LastUsage(events, NO_USAGE) == answer.usage
  }

  // --- Blocks do not disturb each other ---

  /** What the loop knows about one index. */
  datatype Slot = Slot(builder: Option<Builder>, open: bool)

  function SlotOf(s: Loop, i: int): Slot {
    Slot(if i in s.assembled then Some(s.assembled[i]) else None, i in s.open)
  }

  /** One index fed one piece; None is the exception a mismatched delta raises. */
  function Feed(slot: Slot, piece: Piece): Option<Slot> {
    match piece
    case Opened(start) => Some(Slot(Some(StartBuilder(start)), true))
    case Closed => Some(Slot(slot.builder, false))
    case Moved(delta) =>
      var b := if slot.open && slot.builder.Some? then slot.builder.value else LazyBuilder(delta);
      match FeedDelta(b, delta)
      case None => None
      case Some(b') => Some(Slot(Some(b'), true))
  }

  function FeedDelta(b: Builder, delta: Delta): Option<Builder> {
    match delta
    case DText(t) => if b.kind.KText? then Some(b.(content := b.content + t)) else None
    case DToolUse(p) => if b.kind.KTool? then Some(b.(content := b.content + p)) else None
    case DReasoningText(t) => if b.kind.KThinking? then Some(b.(content := b.content + t)) else None
    case DSignature(signature) => Some(b.(signature := signature))
    case DCitation(raw) =>
      (match CitationFromBedrock(raw)
       case None => Some(b)
       case Some(c) => Some(b.(citations := b.citations + [c])))
    case _ => Some(b)
  }

  function FeedAll(slot: Slot, pieces: seq<Piece>): Option<Slot>
    decreases |pieces|
  {
    if pieces == [] then Some(slot)
    else
      match Feed(slot, pieces[0])
      case None => None
      case Some(next) => FeedAll(next, pieces[1..])
  }

  /** The piece an event is, and where. */
  function PieceOf(e: Event, current: int): Option<(int, Piece)> {
    match e
    case ContentBlockStart(index, start) => Some((index.GetOr(current), Opened(start)))
    case ContentBlockDelta(index, delta) => Some((index.GetOr(current), Moved(delta)))
    case ContentBlockStop(index) => Some((index.GetOr(current), Closed))
    case _ => None
  }

  function CurrentAfter(e: Event, current: int): int {
    match e
    case ContentBlockStart(index, _) => index.GetOr(current)
    case ContentBlockStop(index) => index.GetOr(current) + 1
    case _ => current
  }

  lemma PiecesUnfold(events: seq<Event>, i: int, current: int)
    requires events != []
    ensures var piece := PieceOf(events[0], current);
            PiecesOf(events, i, current)
            == (if piece.Some? && piece.value.0 == i then [piece.value.1] else [])
               + PiecesOf(events[1..], i, CurrentAfter(events[0], current))
  {
    assert [] + PiecesOf(events[1..], i, current) == PiecesOf(events[1..], i, current);
  }

  lemma DeltaFeedsItsSlot(s: Loop, idx: int, delta: Delta)
    requires idx in s.assembled && idx in s.open
    ensures var step := ApplyDelta(s, idx, delta);
            var fed := FeedDelta(s.assembled[idx], delta);
            && (step.error.Some? <==> fed.None?)
            && step.after == if fed.Some? then s.(assembled := s.assembled[idx := fed.value]) else s
  {
    if s.assembled[idx := s.assembled[idx]] != s.assembled {
      assert false;
    }
    assert s.(assembled := s.assembled[idx := s.assembled[idx]]) == s;
  }

  /** An event feeds the slot it is about and leaves the others alone; the loop raises just
      when that slot does. */
  lemma HandleFeedsOneSlot(s: Loop, e: Event, i: int)
    requires SF.Started(s) && !e.Failure?
    ensures var step := Handle(s, e);
            var piece := PieceOf(e, s.blockIndex);
            && step.after.blockIndex == CurrentAfter(e, s.blockIndex)
            && (piece.None? ==> step.error.None? && SlotOf(step.after, i) == SlotOf(s, i))
            && (piece.Some? && piece.value.0 != i ==> SlotOf(step.after, i) == SlotOf(s, i))
            && (piece.Some? && piece.value.0 == i ==>
                  var fed := Feed(SlotOf(s, i), piece.value.1);
                  && (step.error.None? <==> fed.Some?)
                  && (fed.Some? ==> SlotOf(step.after, i) == fed.value))
  {
    if e.ContentBlockDelta? {
      var idx := e.index.GetOr(s.blockIndex);
      var first := OpenLazily(s, idx, e.delta);
      SF.OpenLazilyMirrors(s, idx, e.delta);
      DeltaFeedsItsSlot(first.after, idx, e.delta);
    }
  }

  lemma {:induction false} RunFeedsEverySlot(s: Loop, events: seq<Event>)
    requires SF.Started(s)
    requires forall j :: 0 <= j < |events| ==> !events[j].Failure?
    requires forall i :: FeedAll(SlotOf(s, i), PiecesOf(events, i, s.blockIndex)).Some?
    ensures RunFrom(s, events).error.None?
    ensures forall i ::
              SlotOf(RunFrom(s, events).after, i) == FeedAll(SlotOf(s, i), PiecesOf(events, i, s.blockIndex)).value
    decreases |events|
  {
    if events != [] {
      var now := Handle(s, events[0]);
      var piece := PieceOf(events[0], s.blockIndex);
      SF.HandleMirrors(s, events[0]);
      forall i
        ensures now.error.None?
        ensures FeedAll(SlotOf(s, i), PiecesOf(events, i, s.blockIndex))
             == FeedAll(SlotOf(now.after, i), PiecesOf(events[1..], i, now.after.blockIndex))
      {
        if piece.Some? {
          PiecesUnfold(events, piece.value.0, s.blockIndex);
          HandleFeedsOneSlot(s, events[0], piece.value.0);
        }
        PiecesUnfold(events, i, s.blockIndex);
        HandleFeedsOneSlot(s, events[0], i);
        var rest := PiecesOf(events[1..], i, now.after.blockIndex);
        if piece.Some? && piece.value.0 == i {
          assert ([piece.value.1] + rest)[1..] == rest;
        } else {
          assert [] + rest == rest;
        }
      }
      RunFeedsEverySlot(now.after, events[1..]);
    }
  }

  lemma {:induction false} RunKeepsTrailer(s: Loop, events: seq<Event>, stop: (Option<string>, Option<seq<Safeguard>>))
    requires RunFrom(s, events).error.None?
    requires s.stopReason == MapStopReason(stop.0.GetOr("end_turn")) && s.safeguards == stop.1
    ensures var after := RunFrom(s, events).after;
            var last := LastStop(events, stop);
            && after.stopReason == MapStopReason(last.0.GetOr("end_turn"))
            && after.safeguards == last.1
            && after.rawUsage == LastUsage(events, s.rawUsage)
    decreases |events|
  {
    if events != [] {
      var now := Handle(s, events[0]);
      var next := if events[0].MessageStopped? then (events[0].reason, events[0].safeguards) else stop;
      RunKeepsTrailer(now.after, events[1..], next);
    }
  }

  // --- A cut block is rebuilt ---

  /** The citations that a delta adds. */
  function Cited(delta: Delta): seq<Citation> {
    if delta.DCitation? then
      match CitationFromBedrock(delta.citation)
      case Some(c) => [c]
      case None => []
    else []
  }

  predicate Accepts(kind: Kind, d: Delta) {
    match kind
    case KText => d.DText? || d.DCitation?
    case KTool => d.DToolUse?
    case KThinking => d.DReasoningText? || d.DSignature?
  }

  ghost predicate AllAccepted(kind: Kind, deltas: seq<Delta>) {
    forall j :: 0 <= j < |deltas| ==> Accepts(kind, deltas[j])
  }

  /** A builder with all these deltas in it. */
  function Fed(b: Builder, deltas: seq<Delta>): Builder {
    b.(content := b.content + Joined(deltas),
       citations := b.citations + CitationsFromBedrock(CitationDeltas(deltas)),
       signature := LastSignature(deltas, b.signature))
  }

  lemma FedNothing(b: Builder)
    ensures Fed(b, []) == b
  {
    assert b.content + "" == b.content && b.citations + [] == b.citations;
  }

  lemma DeltaCites(b: Builder, delta: Delta)
    requires Accepts(b.kind, delta)
    ensures FeedDelta(b, delta).Some?
    ensures FeedDelta(b, delta).value
         == b.(content := b.content + Added(delta), citations := b.citations + Cited(delta),
               signature := LastSignature([delta], b.signature))
  {
    assert [delta][1..] == [];
    assert b.content + "" == b.content && b.citations + [] == b.citations;
  }

  lemma ContentMoves(content: string, delta: Delta, rest: seq<Delta>)
    ensures (content + Added(delta)) + Joined(rest) == content + Joined([delta] + rest)
  {
    assert ([delta] + rest)[1..] == rest;
  }

  lemma CitationsMove(citations: seq<Citation>, delta: Delta, rest: seq<Delta>)
    ensures (citations + Cited(delta)) + CitationsFromBedrock(CitationDeltas(rest))
         == citations + CitationsFromBedrock(CitationDeltas([delta] + rest))
  {
    CitationDeltasUnfold(delta, rest);
  }

  lemma SignatureMoves(signature: string, delta: Delta, rest: seq<Delta>)
    ensures LastSignature(rest, LastSignature([delta], signature)) == LastSignature([delta] + rest, signature)
  {
    assert ([delta] + rest)[1..] == rest && [delta][1..] == [];
  }

  /** One delta moves from the front of the deltas into the builder. */
  lemma DeltaMoves(b: Builder, delta: Delta, rest: seq<Delta>)
    requires Accepts(b.kind, delta)
    ensures FeedDelta(b, delta).Some? && FeedDelta(b, delta).value.kind == b.kind
    ensures Fed(FeedDelta(b, delta).value, rest) == Fed(b, [delta] + rest)
  {
    DeltaCites(b, delta);
    ContentMoves(b.content, delta, rest);
    CitationsMove(b.citations, delta, rest);
    SignatureMoves(b.signature, delta, rest);
  }

  lemma DeltasUnfold(pieces: seq<Piece>)
    requires pieces != [] && pieces[0].Moved?
    ensures Deltas(pieces) == [pieces[0].delta] + Deltas(pieces[1..])
  {
  }

  /** Deltas and perhaps a final stop, fed to an open slot whose kind takes them all. */
  lemma {:induction false} FeedingMoves(b: Builder, pieces: seq<Piece>)
    requires forall j :: 0 <= j < |pieces| ==> !pieces[j].Opened?
    requires forall j :: 0 <= j < |pieces| - 1 ==> !pieces[j].Closed?
    requires AllAccepted(b.kind, Deltas(pieces))
    ensures FeedAll(Slot(Some(b), true), pieces).Some?
    ensures FeedAll(Slot(Some(b), true), pieces).value.builder == Some(Fed(b, Deltas(pieces)))
    decreases |pieces|
  {
    if pieces == [] {
      FedNothing(b);
    } else if pieces[0].Closed? {
      assert pieces[1..] == [];
      FedNothing(b);
    } else {
      var delta, rest := pieces[0].delta, Deltas(pieces[1..]);
      DeltasUnfold(pieces);
      assert Accepts(b.kind, Deltas(pieces)[0]);
      forall j | 0 <= j < |rest| ensures Accepts(b.kind, rest[j]) {
        assert rest[j] == Deltas(pieces)[j + 1];
      }
      DeltaMoves(b, delta, rest);
      FeedingMoves(FeedDelta(b, delta).value, pieces[1..]);
    }
  }

  lemma CitationDeltasUnfold(delta: Delta, rest: seq<Delta>)
    ensures CitationsFromBedrock(CitationDeltas([delta] + rest))
         == Cited(delta) + CitationsFromBedrock(CitationDeltas(rest))
  {
    assert ([delta] + rest)[1..] == rest;
    var later := CitationDeltas(rest);
    if delta.DCitation? {
      assert CitationDeltas([delta] + rest) == [delta.citation] + later;
      assert ([delta.citation] + later)[1..] == later;
    } else {
      assert CitationDeltas([delta] + rest) == later;
    }
  }

  /** A shaped run of pieces starts from the empty builder of its start, announced or not. */
  lemma FeedingShaped(pieces: seq<Piece>, start: StartShape)
    requires Shaped(pieces, start)
    requires AllAccepted(StartBuilder(start).kind, Deltas(pieces))
    requires pieces[0].Opened? || !start.ToolUseStart?
    ensures var fed := FeedAll(Slot(None, false), pieces);
            var deltas := Deltas(pieces);
            && fed.Some?
            && fed.value.builder == Some(StartBuilder(start).(
                 content := Joined(deltas),
                 citations := CitationsFromBedrock(CitationDeltas(deltas)),
                 signature := LastSignature(deltas, "")))
  {
    var b := StartBuilder(start);
    var deltas := Deltas(pieces);
    assert b.content + Joined(deltas) == Joined(deltas);
    assert b.citations + CitationsFromBedrock(CitationDeltas(deltas)) == CitationsFromBedrock(CitationDeltas(deltas));
    if pieces[0].Opened? {
      assert Deltas(pieces) == Deltas(pieces[1..]);
      FeedingMoves(b, pieces[1..]);
    } else {
      assert Deltas(pieces)[0] == pieces[0].delta;
      assert LazyBuilder(pieces[0].delta) == b;
      assert FeedAll(Slot(None, false), pieces) == FeedAll(Slot(Some(b), true), pieces);
      FeedingMoves(b, pieces);
    }
  }

  lemma {:induction false} NoCitations(deltas: seq<Delta>)
    requires forall j :: 0 <= j < |deltas| ==> !deltas[j].DCitation?
    ensures CitationDeltas(deltas) == []
  {
    if deltas != [] {
      NoCitations(deltas[1..]);
    }
  }

  /** Fed the pieces a block was cut into, its slot holds the part parsing gives. */
  lemma CutIsRebuilt(block: ContentBlock, pieces: seq<Piece>, loads: Parser)
    requires IsCut(block, pieces, loads)
    ensures var fed := FeedAll(Slot(None, false), pieces);
            && fed.Some? && fed.value.builder.Some?
            && PartOf(fed.value.builder.value, loads) == ParseBlock(block)
            && ArgumentsParse(fed.value.builder.value, loads)
  {
    var deltas := Deltas(pieces);
    match block {
      case TextContent(_) =>
        FeedingShaped(pieces, OtherStart);
        NoCitations(deltas);
      case CitationsContent(_, _) =>
        FeedingShaped(pieces, OtherStart);
      case ToolUseContent(id, name, _) =>
        FeedingShaped(pieces, ToolUseStart(id, name));
      case ReasoningContent(_, _) =>
        FeedingShaped(pieces, ReasoningStart);
    }
  }

  lemma {:induction false} PartsAgree(content: seq<ContentBlock>, indices: seq<int>,
                                      assembled: map<int, Builder>, loads: Parser)
    requires |indices| == |content|
    requires forall k :: 0 <= k < |indices| ==>
               && indices[k] in assembled
               && PartOf(assembled[indices[k]], loads) == ParseBlock(content[k])
    ensures PartsAlong(indices, assembled, loads) == ParseBlocks(content)
  {
    if content != [] {
      PartsAgree(content[1..], indices[1..], assembled, loads);
    }
  }

  lemma SlotsOfAnswer(answer: ConverseResponse, indices: seq<int>, events: seq<Event>, loads: Parser)
    requires Streams(answer, indices, events, loads)
    ensures Run(events).error.None?
    ensures Run(events).after.assembled.Keys == Elements(indices)
    ensures forall k :: 0 <= k < |indices| ==>
              && indices[k] in Run(events).after.assembled
              && PartOf(Run(events).after.assembled[indices[k]], loads) == ParseBlock(answer.content[k])
    ensures forall i :: i in Run(events).after.assembled ==> ArgumentsParse(Run(events).after.assembled[i], loads)
  {
    forall i ensures FeedAll(SlotOf(INITIAL, i), PiecesOf(events, i, 0)).Some? {
      if i in indices {
        var k :| 0 <= k < |indices| && indices[k] == i;
        CutIsRebuilt(answer.content[k], PiecesOf(events, i, 0), loads);
      }
    }
    RunFeedsEverySlot(INITIAL, events);
    var after := Run(events).after;
    forall k | 0 <= k < |indices|
      ensures indices[k] in after.assembled
      ensures PartOf(after.assembled[indices[k]], loads) == ParseBlock(answer.content[k])
      ensures ArgumentsParse(after.assembled[indices[k]], loads)
    {
      CutIsRebuilt(answer.content[k], PiecesOf(events, indices[k], 0), loads);
      assert SlotOf(after, indices[k]).builder.Some?;
    }
    forall i | i in after.assembled ensures i in Elements(indices) {
      assert SlotOf(after, i).builder.Some?;
    }
    assert after.assembled.Keys == Elements(indices);
  }

  /** Any Converse answer of text, cited text, tool calls and reasoning, cut into deltas in
      any way: the stream does not fail, and the result read from the accumulator after
      draining it is the one read after invoking, tokens and raw usage included. It raises
      on a tool input that is not an object just when invoking does. */
  lemma StreamingAgreesWithInvoking(answer: ConverseResponse, indices: seq<int>, events: seq<Event>, loads: Parser)
    requires Streams(answer, indices, events, loads)
    ensures Run(events).error.None?
    ensures PartsOf(Run(events).after.assembled, loads) == ParseBlocks(answer.content)
    ensures Run(events).after.rawUsage == answer.usage
    ensures ParseResponse(answer).Some? ==>
              var after := Run(events).after;
              var parts := PartsOf(after.assembled, loads).value;
              ParseResponse(answer).value
              == InternalResult(if parts == [] then [PlainPart("")] else parts, after.stopReason,
                                ReadUsage(after.rawUsage), Remap(after.safeguards, ToolCallIds(parts)))
  {
    SlotsOfAnswer(answer, indices, events, loads);
    SortedIsUnique(indices);
    PartsAgree(answer.content, indices, Run(events).after.assembled, loads);
    RunKeepsTrailer(INITIAL, events, (None, None));
  }

  /** So the accumulator `StreamConverse` leaves behind answers every question the one
      `Invoke` fills answers, and with the same price. */
  lemma DrainedAnswersAsInvoked(state: BedrockState, rates: Rates, answer: ConverseResponse,
                                indices: seq<int>, events: seq<Event>, loads: Parser)
    requires Streams(answer, indices, events, loads)
    requires ParseResponse(answer).Some?
    requires var after := Run(events).after;
             var parts := PartsOf(after.assembled, loads);
             parts.Some? ==> state.Holds(after.rawUsage, after.stopReason, parts.value, after.safeguards)
    ensures state.GetResponse() == ParseResponse(answer).value
    ensures state.rawUsage == answer.usage
    ensures state.GetCost(rates) == CostOf(ReadUsage(answer.usage), rates)
  {
    StreamingAgreesWithInvoking(answer, indices, events, loads);
  }

  /** Both ways side by side, each with its own accumulator: streaming an answer, for a consumer
      that takes more than the chunks of its blocks, raises exactly when invoking it does, and
      then both accumulators are as new; otherwise they answer alike, at the same price. */
  method StreamAndInvoke(answer: ConverseResponse, indices: seq<int>, events: seq<Event>, loads: Parser,
                         limit: nat, rates: Rates)
    returns (streamed: BedrockState, invoked: BedrockState, raised: bool)
    requires Streams(answer, indices, events, loads) && limit > |Run(events).emitted|
    ensures fresh(streamed) && fresh(invoked) && streamed != invoked
    ensures raised <==> ParseResponse(answer).None?
    ensures streamed.GetResponse() == invoked.GetResponse() && streamed.rawUsage == invoked.rawUsage
    ensures streamed.GetCost(rates) == invoked.GetCost(rates)
    ensures streamed.error == invoked.error == None
    ensures raised ==> streamed.GetResponse() == EMPTY_RESULT
    ensures !raised ==> streamed.GetResponse() == ParseResponse(answer).value
  {
    streamed := new BedrockState();
    invoked := new BedrockState();
    StreamingAgreesWithInvoking(answer, indices, events, loads);
    var yielded, streamRaised := StreamConverse(Events(events), streamed, loads, limit);
    raised := Invoke(answer, invoked);
    assert raised == streamRaised;
    if !raised {
      DrainedAnswersAsInvoked(streamed, rates, answer, indices, events, loads);
      assert invoked.tokens == invoked.GetResponse().usage;
    }
  }
}
