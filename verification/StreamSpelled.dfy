/** Every answer of text, cited text, tool calls and reasoning can be streamed: block by block, each
    with a start, its deltas and a stop, and the closing events after them. */
module StreamSpelled {
  import opened Model
  import opened Sorting
  import opened ConverseStream
  import opened StreamAgreement

  // --- One block ---

  predicate CanBeStreamed(block: ContentBlock, arguments: string, loads: Parser) {
    match block
    case TextContent(_) => true
    case CitationsContent(_, _) => true
    case ReasoningContent(_, _) => true
    case ToolUseContent(_, _, input) =>
      if arguments == "" then input in {None, Some(EMPTY_OBJECT)}
      else loads(arguments) == Some(input.GetOr(EMPTY_OBJECT))
    case _ => false
  }

  function StartOf(block: ContentBlock): StartShape {
    match block
    case ToolUseContent(id, name, _) => ToolUseStart(id, name)
    case ReasoningContent(_, _) => ReasoningStart
    case _ => OtherStart
  }

  function Cites(citations: seq<BedrockCitation>): seq<Delta> {
    seq(|citations|, i requires 0 <= i < |citations| => DCitation(citations[i]))
  }

  function DeltasFor(block: ContentBlock, arguments: string): seq<Delta> {
    match block
    case TextContent(text) => [DText(text)]
    case CitationsContent(texts, citations) => [DText(Concat(texts))] + Cites(citations)
    case ToolUseContent(_, _, _) => if arguments == "" then [] else [DToolUse(arguments)]
    case ReasoningContent(text, signature) => [DReasoningText(text), DSignature(signature.GetOr(""))]
    case _ => []
  }

  function Moves(deltas: seq<Delta>): seq<Piece> {
    seq(|deltas|, i requires 0 <= i < |deltas| => Moved(deltas[i]))
  }

  function PiecesFor(block: ContentBlock, arguments: string): seq<Piece> {
    [Opened(StartOf(block))] + Moves(DeltasFor(block, arguments)) + [Closed]
  }

  lemma {:induction false} DeltasOfMoves(deltas: seq<Delta>, last: seq<Piece>)
    requires last == [] || last == [Closed]
    ensures Deltas(Moves(deltas) + last) == deltas
    decreases |deltas|
  {
    var pieces := Moves(deltas) + last;
    if deltas == [] {
      assert pieces == last && (last != [] ==> last[1..] == []);
    } else {
      assert pieces[0] == Moved(deltas[0]) && pieces[1..] == Moves(deltas[1..]) + last;
      DeltasOfMoves(deltas[1..], last);
    }
  }

  lemma DeltasOfPieces(block: ContentBlock, arguments: string)
    ensures Deltas(PiecesFor(block, arguments)) == DeltasFor(block, arguments)
  {
    var pieces := PiecesFor(block, arguments);
    assert pieces[1..] == Moves(DeltasFor(block, arguments)) + [Closed];
    DeltasOfMoves(DeltasFor(block, arguments), [Closed]);
  }

  lemma {:induction false} CitesAreCited(citations: seq<BedrockCitation>)
    ensures CitationDeltas(Cites(citations)) == citations && Joined(Cites(citations)) == ""
  {
    if citations != [] {
      assert Cites(citations)[1..] == Cites(citations[1..]);
      CitesAreCited(citations[1..]);
    }
  }

  lemma PiecesAreShaped(block: ContentBlock, arguments: string)
    ensures Shaped(PiecesFor(block, arguments), StartOf(block))
    ensures PiecesFor(block, arguments)[0] == Opened(StartOf(block))
  {
  }

  lemma OneDelta(d: Delta)
    ensures Joined([d]) == Added(d)
  {
    assert [d][1..] == [] && Added(d) + "" == Added(d);
  }

  lemma DeltaAndMore(d: Delta, more: seq<Delta>)
    ensures Joined([d] + more) == Added(d) + Joined(more)
    ensures CitationDeltas([d] + more) == (if d.DCitation? then [d.citation] else []) + CitationDeltas(more)
    ensures LastSignature([d] + more, "") == LastSignature(more, if d.DSignature? then d.signature else "")
  {
    assert ([d] + more)[0] == d && ([d] + more)[1..] == more;
  }

  lemma CitedTextIsACut(block: ContentBlock, loads: Parser)
    requires block.CitationsContent?
    ensures IsCut(block, PiecesFor(block, ""), loads)
  {
    var text, cites := DText(Concat(block.texts)), Cites(block.citations);
    DeltasOfPieces(block, "");
    PiecesAreShaped(block, "");
    CitesAreCited(block.citations);
    DeltaAndMore(text, cites);
    assert Concat(block.texts) + "" == Concat(block.texts) && [] + block.citations == block.citations;
  }

  lemma ReasoningIsACut(block: ContentBlock, loads: Parser)
    requires block.ReasoningContent?
    ensures IsCut(block, PiecesFor(block, ""), loads)
  {
    var text, signature := DReasoningText(block.text), DSignature(block.signature.GetOr(""));
    DeltasOfPieces(block, "");
    PiecesAreShaped(block, "");
    OneDelta(signature);
    DeltaAndMore(text, [signature]);
    DeltaAndMore(signature, []);
    assert [text] + [signature] == [text, signature] && [signature] + [] == [signature];
    assert block.text + "" == block.text;
  }

  lemma PiecesAreACut(block: ContentBlock, arguments: string, loads: Parser)
    requires CanBeStreamed(block, arguments, loads)
    ensures IsCut(block, PiecesFor(block, arguments), loads)
  {
    DeltasOfPieces(block, arguments);
    PiecesAreShaped(block, arguments);
    match block {
      case TextContent(text) => OneDelta(DText(text));
      case CitationsContent(_, _) => CitedTextIsACut(block, loads);
      case ToolUseContent(_, _, _) => OneDelta(DToolUse(arguments));
      case ReasoningContent(_, _) => ReasoningIsACut(block, loads);
      case _ =>
    }
  }

  // --- As events ---

  function EventFor(piece: Piece, index: int): Event {
    match piece
    case Opened(start) => ContentBlockStart(Some(index), start)
    case Moved(delta) => ContentBlockDelta(Some(index), delta)
    case Closed => ContentBlockStop(Some(index))
  }

  function Spelled(pieces: seq<Piece>, index: int): seq<Event> {
    seq(|pieces|, i requires 0 <= i < |pieces| => EventFor(pieces[i], index))
  }

  /** Events about the message as a whole, or about a block that they name. */
  predicate NamesItsBlock(e: Event) {
    match e
    case ContentBlockStart(index, _) => index.Some?
    case ContentBlockDelta(index, _) => index.Some?
    case ContentBlockStop(index) => index.Some?
    case _ => true
  }

  lemma {:induction false} NamedPieces(events: seq<Event>, i: int, current: int, other: int)
    requires forall j :: 0 <= j < |events| ==> NamesItsBlock(events[j])
    ensures PiecesOf(events, i, current) == PiecesOf(events, i, other)
    decreases |events|
  {
    if events != [] {
      assert NamesItsBlock(events[0]);
      match events[0] {
        case MessageStarted => NamedPieces(events[1..], i, current, other);
        case ContentBlockDelta(_, _) => NamedPieces(events[1..], i, current, other);
        case MessageStopped(_, _) => NamedPieces(events[1..], i, current, other);
        case Metadata(_) => NamedPieces(events[1..], i, current, other);
        case OtherEvent => NamedPieces(events[1..], i, current, other);
        case Failure(_) => NamedPieces(events[1..], i, current, other);
        case _ =>
      }
    }
  }

  lemma OnePiece(piece: Piece, index: int, rest: seq<Event>, i: int)
    requires forall j :: 0 <= j < |rest| ==> NamesItsBlock(rest[j])
    ensures PiecesOf([EventFor(piece, index)] + rest, i, 0)
         == (if i == index then [piece] else []) + PiecesOf(rest, i, 0)
  {
    assert ([EventFor(piece, index)] + rest)[1..] == rest;
    NamedPieces(rest, i, 0, index);
    NamedPieces(rest, i, 0, index + 1);
  }

  lemma {:induction false} SpelledPieces(pieces: seq<Piece>, index: int, rest: seq<Event>, i: int)
    requires forall j :: 0 <= j < |rest| ==> NamesItsBlock(rest[j])
    ensures PiecesOf(Spelled(pieces, index) + rest, i, 0)
         == (if i == index then pieces else []) + PiecesOf(rest, i, 0)
    decreases |pieces|
  {
    var events := Spelled(pieces, index) + rest;
    if pieces == [] {
      assert events == rest;
    } else {
      var later := Spelled(pieces[1..], index) + rest;
      assert events == [EventFor(pieces[0], index)] + later;
      SpelledPieces(pieces[1..], index, rest, i);
      OnePiece(pieces[0], index, later, i);
      assert pieces == [pieces[0]] + pieces[1..];
    }
  }

  // --- A whole answer ---

  function BlocksFrom(content: seq<ContentBlock>, arguments: seq<string>, k: nat, last: seq<Event>): seq<Event>
    requires |arguments| == |content| && k <= |content|
    decreases |content| - k
  {
    if k == |content| then last
    else Spelled(PiecesFor(content[k], arguments[k]), k) + BlocksFrom(content, arguments, k + 1, last)
  }

  function Trailer(answer: ConverseResponse): seq<Event> {
    [MessageStopped(answer.stopReason, answer.safeguards), Metadata(answer.usage)]
  }

  /** The answer as a stream, block after block. */
  function StreamFor(answer: ConverseResponse, arguments: seq<string>): seq<Event>
    requires |arguments| == |answer.content|
  {
    BlocksFrom(answer.content, arguments, 0, Trailer(answer))
  }

  predicate IsPlain(e: Event) {
    !e.Failure? && NamesItsBlock(e)
  }

  lemma {:induction false} BlocksArePlain(content: seq<ContentBlock>, arguments: seq<string>, k: nat,
                                          last: seq<Event>)
    requires |arguments| == |content| && k <= |content|
    requires forall j :: 0 <= j < |last| ==> IsPlain(last[j])
    ensures forall e :: e in BlocksFrom(content, arguments, k, last) ==> IsPlain(e)
    decreases |content| - k
  {
    if k < |content| {
      BlocksArePlain(content, arguments, k + 1, last);
    }
  }

  lemma {:induction false} BlocksAreSpelled(content: seq<ContentBlock>, arguments: seq<string>, k: nat,
                                            last: seq<Event>, i: int)
    requires |arguments| == |content| && k <= |content|
    requires forall j :: 0 <= j < |last| ==> IsPlain(last[j])
    requires PiecesOf(last, i, 0) == []
    ensures PiecesOf(BlocksFrom(content, arguments, k, last), i, 0)
         == if k <= i < |content| then PiecesFor(content[i], arguments[i]) else []
    decreases |content| - k
  {
    if k < |content| {
      var rest := BlocksFrom(content, arguments, k + 1, last);
      BlocksArePlain(content, arguments, k + 1, last);
      forall j | 0 <= j < |rest| ensures NamesItsBlock(rest[j]) {
        assert rest[j] in rest;
      }
      BlocksAreSpelled(content, arguments, k + 1, last, i);
      SpelledPieces(PiecesFor(content[k], arguments[k]), k, rest, i);
    }
  }

  lemma {:induction false} SpelledHasNoTrailer(pieces: seq<Piece>, index: int, rest: seq<Event>,
                                               stop: (Option<string>, Option<seq<Safeguard>>), usage: RawUsage)
    ensures LastStop(Spelled(pieces, index) + rest, stop) == LastStop(rest, stop)
    ensures LastUsage(Spelled(pieces, index) + rest, usage) == LastUsage(rest, usage)
    decreases |pieces|
  {
    var events := Spelled(pieces, index) + rest;
    if pieces == [] {
      assert events == rest;
    } else {
      assert events[0] == EventFor(pieces[0], index) && events[1..] == Spelled(pieces[1..], index) + rest;
      SpelledHasNoTrailer(pieces[1..], index, rest, stop, usage);
    }
  }

  lemma {:induction false} TrailerIsLast(content: seq<ContentBlock>, arguments: seq<string>, k: nat, last: seq<Event>,
                                         stop: (Option<string>, Option<seq<Safeguard>>), usage: RawUsage)
    requires |arguments| == |content| && k <= |content|
    ensures LastStop(BlocksFrom(content, arguments, k, last), stop) == LastStop(last, stop)
    ensures LastUsage(BlocksFrom(content, arguments, k, last), usage) == LastUsage(last, usage)
    decreases |content| - k
  {
    if k < |content| {
      SpelledHasNoTrailer(PiecesFor(content[k], arguments[k]), k, BlocksFrom(content, arguments, k + 1, last),
                          stop, usage);
      TrailerIsLast(content, arguments, k + 1, last, stop, usage);
    }
  }

  lemma TrailerTrails(answer: ConverseResponse, i: int)
    ensures var last := Trailer(answer);
            && PiecesOf(last, i, 0) == []
            && (forall j :: 0 <= j < |last| ==> IsPlain(last[j]))
            && LastStop(last, (None, None)) == (answer.stopReason, answer.safeguards)
            && LastUsage(last, NO_USAGE) == answer.usage
  {
    var last := Trailer(answer);
    var usage := [Metadata(answer.usage)];
    assert last[1..] == usage && usage[1..] == [];
    assert PiecesOf(usage, i, 0) == [];
    assert LastStop(usage, (answer.stopReason, answer.safeguards)) == (answer.stopReason, answer.safeguards);
    assert LastUsage(usage, NO_USAGE) == answer.usage;
  }

  function FirstIndices(n: nat): seq<int> {
    seq(n, k => k)
  }

  lemma IndicesAreFirst(n: nat, i: int)
    ensures i in FirstIndices(n) <==> 0 <= i < n
  {
    assert 0 <= i < n ==> FirstIndices(n)[i] == i;
  }

  lemma StreamHasPieces(answer: ConverseResponse, arguments: seq<string>, i: int)
    requires |arguments| == |answer.content|
    ensures PiecesOf(StreamFor(answer, arguments), i, 0)
         == if 0 <= i < |arguments| then PiecesFor(answer.content[i], arguments[i]) else []
  {
    TrailerTrails(answer, i);
    BlocksAreSpelled(answer.content, arguments, 0, Trailer(answer), i);
  }

  lemma StreamIsPlain(answer: ConverseResponse, arguments: seq<string>)
    requires |arguments| == |answer.content|
    ensures forall j :: 0 <= j < |StreamFor(answer, arguments)| ==> !StreamFor(answer, arguments)[j].Failure?
  {
    var events := StreamFor(answer, arguments);
    TrailerTrails(answer, 0);
    BlocksArePlain(answer.content, arguments, 0, Trailer(answer));
    forall j | 0 <= j < |events| ensures !events[j].Failure? {
      assert events[j] in events;
    }
  }

  /** For every answer of these kinds whose tool inputs can be written as JSON there is a stream; so
      what is proved of streams of an answer speaks of every such answer. */
  lemma AnswerCanBeStreamed(answer: ConverseResponse, arguments: seq<string>, loads: Parser)
    requires |arguments| == |answer.content|
    requires forall k :: 0 <= k < |arguments| ==> CanBeStreamed(answer.content[k], arguments[k], loads)
    ensures Streams(answer, FirstIndices(|answer.content|), StreamFor(answer, arguments), loads)
  {
    var indices, events := FirstIndices(|answer.content|), StreamFor(answer, arguments);
    forall k | 0 <= k < |indices| ensures IsCut(answer.content[k], PiecesOf(events, indices[k], 0), loads) {
      StreamHasPieces(answer, arguments, k);
      PiecesAreACut(answer.content[k], arguments[k], loads);
    }
    forall i | i !in indices ensures PiecesOf(events, i, 0) == [] {
      IndicesAreFirst(|answer.content|, i);
      StreamHasPieces(answer, arguments, i);
    }
    StreamIsPlain(answer, arguments);
    TrailerTrails(answer, 0);
    TrailerIsLast(answer.content, arguments, 0, Trailer(answer), (None, None), NO_USAGE);
  }
}
