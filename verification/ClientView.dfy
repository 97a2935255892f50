/** The Bedrock producer composed with the SSE encoder: what an Anthropic client receives,
    and how it compares with the answer the gateway stores. */
module ClientView {
  import opened Model
  import opened Sorting
  import opened AnthropicWire
  import opened SseEncoder
  import opened CS = ConverseStream
  import SF = StreamFold
  import SG = StreamGrammar

  // --- What the encoder makes of the producer's chunks ---

  /** The empty parts the producer announces its blocks with. */
  predicate IsShell(part: Part) {
    match part
    case Text(t) => t == TextPart("", None, false)
    case ToolCall(_, _, input, _) => input == EMPTY_OBJECT
    case Thinking(text, signature, _) => text == "" && signature == ""
    case _ => false
  }

  predicate Sendable(c: Chunk) {
    !c.IsTerminal() && (c.BlockStart? ==> IsShell(c.part))
  }

  ghost predicate AllSendable(chunks: seq<Chunk>) {
    forall i :: 0 <= i < |chunks| ==> Sendable(chunks[i])
  }

  /** The one event a sendable chunk becomes. */
  function EventOf(c: Chunk): Sse
    requires Sendable(c)
  {
    if c.BlockStart? then BlockStartE(c.index, PartToBlock(c.part).value)
    else if c.BlockStop? then BlockStopE(c.index)
    else DeltaOf(c)
  }

  ghost function Wire(chunks: seq<Chunk>): seq<Sse>
    requires AllSendable(chunks)
  {
    seq(|chunks|, i requires 0 <= i < |chunks| => EventOf(chunks[i]))
  }

  lemma EncodeOne(s: State, chunks: seq<Chunk>, broken: bool)
    requires chunks != [] && Sendable(chunks[0])
    ensures EncodeFrom(s, chunks, broken)
         == Prepend(EventOf(chunks[0]), EncodeFrom(s.(open := SG.Track(s.open, chunks[0])), chunks[1..], broken))
  {
    assert s.(open := s.open) == s;
  }

  lemma {:induction false} EncodeBody(s: State, body: seq<Chunk>, rest: seq<Chunk>, broken: bool)
    requires AllSendable(body)
    ensures var after := EncodeFrom(s.(open := SG.TrackAll(s.open, body)), rest, broken);
            EncodeFrom(s, body + rest, broken) == Encoded(Wire(body) + after.events, after.raised)
    decreases |body|
  {
    if body == [] {
      assert body + rest == rest;
    } else {
      assert (body + rest)[0] == body[0] && (body + rest)[1..] == body[1..] + rest;
      assert Sendable(body[0]);
      EncodeOne(s, body + rest, broken);
      EncodeBody(s.(open := SG.Track(s.open, body[0])), body[1..], rest, broken);
      assert Wire(body) == [EventOf(body[0])] + Wire(body[1..]);
    }
  }

  lemma {:induction false} RunIsSendable(s: Loop, events: seq<Event>)
    ensures AllSendable(Chunks(RunFrom(s, events).emitted))
    decreases |events|
  {
    if events != [] {
      var now := Handle(s, events[0]);
      HandleIsSendable(s, events[0]);
      if now.error.None? {
        RunIsSendable(now.after, events[1..]);
        ChunksOfBoth(now.emitted, RunFrom(now.after, events[1..]).emitted, 0);
      }
    }
  }

  lemma OpeningIsSendable(s: Loop, idx: int, delta: Delta)
    ensures AllSendable(Chunks(OpenLazily(s, idx, delta).emitted))
  {
  }

  lemma ContentIsSendable(s: Loop, idx: int, delta: Delta)
    ensures AllSendable(Chunks(ApplyDelta(s, idx, delta).emitted))
  {
  }

  lemma DeltaIsSendable(s: Loop, idx: int, delta: Delta)
    ensures var first := OpenLazily(s, idx, delta);
            AllSendable(Chunks(first.emitted + ApplyDelta(first.after, idx, delta).emitted))
  {
    var first := OpenLazily(s, idx, delta);
    var second := ApplyDelta(first.after, idx, delta);
    OpeningIsSendable(s, idx, delta);
    ContentIsSendable(first.after, idx, delta);
    ChunksOfBoth(first.emitted, second.emitted, 0);
  }

  lemma HandleIsSendable(s: Loop, e: Event)
    ensures AllSendable(Chunks(Handle(s, e).emitted))
  {
    if e.ContentBlockDelta? {
      DeltaIsSendable(s, e.index.GetOr(s.blockIndex), e.delta);
    }
  }

  /** Everything between the prologue and the epilogue. */
  function Body(run: Step): seq<Chunk> {
    Chunks(run.emitted) + if run.error.None? then Stops(run.after.open) else []
  }

  lemma BodyIsSendable(events: seq<Event>)
    ensures AllSendable(Body(Run(events)))
  {
    RunIsSendable(INITIAL, events);
  }

  /** Whether the generator raises once its chunks are consumed: in `finally`, if the parts
      cannot be built. After an ERROR chunk the encoder does not come back to it. */
  function Breaks(run: Step, loads: Parser): bool {
    run.error.None? && PartsOf(run.after.assembled, loads).None?
  }

  /** What the encoder makes of a Bedrock stream. */
  function Streamed(model: string, events: seq<Event>, loads: Parser): Encoded {
    Encode(model, Output(Run(events), loads), Breaks(Run(events), loads))
  }

  /** For every stream the client sees message_start, ping and one event per chunk, and then
      message_delta and message_stop, the encoder's own closing loop adding nothing, or a
      single error event and no message_delta. If the parts cannot be built, the encoder
      raises after the chunks of the loop: no block is closed at the end, and there is no
      message_delta and no error event. */
  lemma SseShape(model: string, events: seq<Event>, loads: Parser)
    ensures AllSendable(Body(Run(events))) && AllSendable(Chunks(Run(events).emitted))
    ensures var run := Run(events);
            var parts := PartsOf(run.after.assembled, loads);
            var prologue := [MessageStartE(model), PingE];
            Streamed(model, events, loads)
            == match run.error
               case Some(m) =>
                 Encoded(prologue + Wire(Body(run)) + [ErrorE(if m == "" then "Unknown error" else m)], false)
               case None =>
                 match parts
                 case None => Encoded(prologue + Wire(Chunks(run.emitted)), true)
                 case Some(built) =>
                   Encoded(prologue + Wire(Body(run))
                           + [MessageDeltaE(run.after.stopReason, Remap(run.after.safeguards, ToolCallIds(built)),
                                            UsageToWire(ReadUsage(run.after.rawUsage))),
                              MessageStopE], false)
  {
    var run := Run(events);
    BodyIsSendable(events);
    RunIsSendable(INITIAL, events);
    if run.error.Some? {
      FailedShape(model, events, loads);
    } else if PartsOf(run.after.assembled, loads).Some? {
      CompletedShape(model, events, loads);
    } else {
      var chunks := Chunks(run.emitted);
      assert Output(run, loads) == chunks + [];
      EncodeBody(START, chunks, [], true);
    }
  }

  lemma FailedShape(model: string, events: seq<Event>, loads: Parser)
    requires AllSendable(Body(Run(events))) && Run(events).error.Some?
    ensures var run := Run(events);
            Streamed(model, events, loads)
            == Encoded([MessageStartE(model), PingE] + Wire(Body(run))
                       + [ErrorE(if run.error.value == "" then "Unknown error" else run.error.value)], false)
  {
    var run := Run(events);
    var last := [Error(run.error.value)];
    assert Output(run, loads) == Body(run) + last;
    EncodeBody(START, Body(run), last, false);
  }

  lemma CompletedShape(model: string, events: seq<Event>, loads: Parser)
    requires AllSendable(Body(Run(events)))
    requires Run(events).error.None? && PartsOf(Run(events).after.assembled, loads).Some?
    ensures var run := Run(events);
            var parts := PartsOf(run.after.assembled, loads).value;
            Streamed(model, events, loads)
            == Encoded([MessageStartE(model), PingE] + Wire(Body(run))
                       + [MessageDeltaE(run.after.stopReason, Remap(run.after.safeguards, ToolCallIds(parts)),
                                        UsageToWire(ReadUsage(run.after.rawUsage))),
                          MessageStopE], false)
  {
    var run := Run(events);
    var parts := PartsOf(run.after.assembled, loads);
    SG.RunKeepsGrammar(INITIAL, events);
    SG.NormalEnding(run, parts.value);
    var ending := Ending(run.after, None, parts);
    var last := [ending[|ending| - 1]];
    assert Output(run, loads) == Body(run) + last;
    SG.TrackAppend({}, Chunks(run.emitted), Stops(run.after.open));
    SG.TrackAppend(run.after.open, Stops(run.after.open), last);
    SG.SingleChunk(SG.TrackAll(run.after.open, Stops(run.after.open)), last[0]);
    EncodeBody(START, Body(run), last, false);
    assert last[1..] == [];
    assert Closing({}) == [];
  }

  lemma {:induction false} WireKeepsGrammar(open: set<int>, body: seq<Chunk>)
    requires AllSendable(body)
    ensures TrackAll(open, Wire(body)) == SG.TrackAll(open, body)
    ensures BlockGrammar(open, Wire(body)) <==> SG.Bracketed(open, body) && SG.DeltasInside(open, body)
    decreases |body|
  {
    if body != [] {
      WireKeepsGrammar(SG.Track(open, body[0]), body[1..]);
      assert Wire(body)[1..] == Wire(body[1..]);
      assert Sendable(body[0]);
    }
  }

  /** For well-bracketed Bedrock events the client sees, per index, (start delta* stop)*,
      with everything closed when the stream does not fail. */
  lemma SseGrammar(events: seq<Event>, loads: Parser)
    requires SG.WellBracketed(SG.Brackets(0, {}), events)
    ensures AllSendable(Body(Run(events)))
    ensures BlockGrammar({}, Wire(Body(Run(events))))
    ensures Run(events).error.None? ==> TrackAll({}, Wire(Body(Run(events)))) == {}
  {
    var run := Run(events);
    BodyIsSendable(events);
    SG.RunKeepsGrammar(INITIAL, events);
    WireKeepsGrammar({}, Body(run));
    if run.error.None? {
      var open := run.after.open;
      SortedOrder(open);
      SG.StopsCloseAll(Sorted(open), open, Stops(open));
      SG.TrackAppend({}, Chunks(run.emitted), Stops(open));
    } else {
      assert Body(run) == Chunks(run.emitted);
    }
  }

  // --- What the client puts together ---

  /** The client's view of one builder. */
  function ViewOf(b: Builder): ClientBlock {
    match b.kind
    case KText => ClientBlock(TextB(TextToBlock(TextPart(b.content, OrNone(b.citations), false))), "")
    case KTool => ClientBlock(ToolUseB(b.id, b.name, EMPTY_OBJECT, None), b.content)
    case KThinking => ClientBlock(ThinkingB(b.content, b.signature), "")
  }

  function View(blocks: map<int, Builder>): map<int, ClientBlock> {
    map i | i in blocks :: ViewOf(blocks[i])
  }

  /** A content delta meets a block of its own kind. */
  ghost predicate Typed(blocks: map<int, Builder>, c: Chunk) {
    && (c.TextDelta? ==> c.index in blocks && blocks[c.index].kind.KText?)
    && (c.ToolArgsDelta? ==> c.index in blocks && blocks[c.index].kind.KTool?)
    && (c.ThinkingDelta? ==> c.index in blocks && blocks[c.index].kind.KThinking?)
  }

  ghost predicate AllTyped(blocks: map<int, Builder>, chunks: seq<Chunk>)
    decreases |chunks|
  {
    chunks == [] || (Typed(blocks, chunks[0]) && AllTyped(SF.Absorb(blocks, chunks[0]), chunks[1..]))
  }

  lemma {:induction false} TypedAppend(blocks: map<int, Builder>, a: seq<Chunk>, b: seq<Chunk>)
    ensures AllTyped(blocks, a + b) <==> AllTyped(blocks, a) && AllTyped(SF.FoldFrom(blocks, a), b)
    decreases |a|
  {
    if a == [] {
      assert a + b == b;
    } else {
      assert (a + b)[0] == a[0] && (a + b)[1..] == a[1..] + b;
      TypedAppend(SF.Absorb(blocks, a[0]), a[1..], b);
    }
  }

  /** The producer never sends a content delta of the wrong kind: it raises instead. */
  lemma {:induction false} RunIsTyped(s: Loop, events: seq<Event>)
    requires SF.Started(s)
    ensures AllTyped(s.assembled, Chunks(RunFrom(s, events).emitted))
    decreases |events|
  {
    if events != [] {
      var now := Handle(s, events[0]);
      HandleIsTyped(s, events[0]);
      SF.HandleMirrors(s, events[0]);
      if now.error.None? {
        var later := RunFrom(now.after, events[1..]);
        RunIsTyped(now.after, events[1..]);
        ChunksOfBoth(now.emitted, later.emitted, 0);
        TypedAppend(s.assembled, Chunks(now.emitted), Chunks(later.emitted));
      }
    }
  }

  lemma OneIsTyped(blocks: map<int, Builder>, step: Step)
    requires |step.emitted| == 1 && Typed(blocks, step.emitted[0].chunk)
    ensures AllTyped(blocks, Chunks(step.emitted))
  {
    assert Chunks(step.emitted) == [step.emitted[0].chunk];
  }

  lemma DeltaIsTyped(s: Loop, idx: int, delta: Delta)
    requires idx in s.assembled
    ensures AllTyped(s.assembled, Chunks(ApplyDelta(s, idx, delta).emitted))
  {
    var step := ApplyDelta(s, idx, delta);
    if step.emitted != [] {
      OneIsTyped(s.assembled, step);
    }
  }

  lemma HandleIsTyped(s: Loop, e: Event)
    requires SF.Started(s)
    ensures AllTyped(s.assembled, Chunks(Handle(s, e).emitted))
  {
    var step := Handle(s, e);
    if e.ContentBlockDelta? {
      var idx := e.index.GetOr(s.blockIndex);
      var first := OpenLazily(s, idx, e.delta);
      var second := ApplyDelta(first.after, idx, e.delta);
      SF.OpenLazilyMirrors(s, idx, e.delta);
      DeltaIsTyped(first.after, idx, e.delta);
      if first.emitted != [] {
        OneIsTyped(s.assembled, first);
      }
      ChunksOfBoth(first.emitted, second.emitted, 0);
      TypedAppend(s.assembled, Chunks(first.emitted), Chunks(second.emitted));
    } else if step.emitted != [] {
      OneIsTyped(s.assembled, step);
    }
  }

  lemma CitationsGrow(citations: seq<Citation>, next: Citation)
    ensures CitationsToWire(citations + [next]) == CitationsToWire(citations) + [CitationToWire(next)]
  {
  }

  lemma BracketCommutes(blocks: map<int, Builder>, c: Chunk)
    requires Sendable(c) && !c.IsDelta()
    ensures ClientStep(View(blocks), EventOf(c)) == View(SF.Absorb(blocks, c))
  {
  }

  lemma DeltaCommutes(b: Builder, c: Chunk)
    requires c.IsDelta() && Typed(map[c.index := b], c)
    ensures ApplyWireDelta(ViewOf(b), DeltaOf(c).delta) == ViewOf(SF.Absorb(map[c.index := b], c)[c.index])
  {
    if c.CitationDelta? {
      CitationsGrow(b.citations, c.citation);
    }
  }

  /** One event does to the client's blocks what its chunk does to the gateway's. */
  lemma StepCommutes(blocks: map<int, Builder>, c: Chunk)
    requires Sendable(c) && Typed(blocks, c)
    ensures ClientStep(View(blocks), EventOf(c)) == View(SF.Absorb(blocks, c))
  {
    if !c.IsDelta() {
      BracketCommutes(blocks, c);
    } else if c.index in blocks {
      DeltaCommutes(blocks[c.index], c);
      DeltaStaysInside(blocks, c);
    }
  }

  lemma DeltaStaysInside(blocks: map<int, Builder>, c: Chunk)
    requires c.IsDelta() && c.index in blocks
    ensures SF.Absorb(blocks, c) == blocks[c.index := SF.Absorb(map[c.index := blocks[c.index]], c)[c.index]]
  {
  }

  lemma {:induction false} FoldCommutes(blocks: map<int, Builder>, chunks: seq<Chunk>)
    requires AllSendable(chunks) && AllTyped(blocks, chunks)
    ensures ClientFold(View(blocks), Wire(chunks)) == View(SF.FoldFrom(blocks, chunks))
    decreases |chunks|
  {
    if chunks != [] {
      assert Sendable(chunks[0]);
      StepCommutes(blocks, chunks[0]);
      FoldCommutes(SF.Absorb(blocks, chunks[0]), chunks[1..]);
      assert Wire(chunks)[1..] == Wire(chunks[1..]);
    }
  }

  lemma FinishAgrees(b: Builder, loads: Parser)
    requires PartOf(b, loads).Some?
    ensures PartToBlock(PartOf(b, loads).value).Ok?
    ensures ClientFinish(ViewOf(b), loads)
         == if ArgumentsParse(b, loads) then Some(PartToBlock(PartOf(b, loads).value).value) else None
  {
  }

  lemma {:induction false} FinishAllAgree(order: seq<int>, blocks: map<int, Builder>, loads: Parser)
    requires forall i :: 0 <= i < |order| ==> order[i] in blocks
    requires PartsAlong(order, blocks, loads).Some?
    ensures var printed := BlocksOf(PartsAlong(order, blocks, loads).value);
            && printed.Ok?
            && |printed.value| == |order|
            && FinishAlong(order, View(blocks), loads)
               == if forall i :: 0 <= i < |order| ==> ArgumentsParse(blocks[order[i]], loads)
                  then Some(printed.value) else None
  {
    if order != [] {
      FinishAgrees(blocks[order[0]], loads);
      FinishAllAgree(order[1..], blocks, loads);
      var parts := PartsAlong(order, blocks, loads).value;
      assert parts[1..] == PartsAlong(order[1..], blocks, loads).value;
      if forall i :: 0 <= i < |order| ==> ArgumentsParse(blocks[order[i]], loads) {
        forall i | 0 <= i < |order[1..]| ensures ArgumentsParse(blocks[order[1..][i]], loads) {
          assert order[1..][i] == order[i + 1];
        }
      } else if ArgumentsParse(blocks[order[0]], loads) {
        var i :| 0 <= i < |order| && !ArgumentsParse(blocks[order[i]], loads);
        assert order[1..][i - 1] == order[i];
      }
    }
  }

  lemma {:induction false} ClientFoldAppend(blocks: map<int, ClientBlock>, a: seq<Sse>, b: seq<Sse>)
    ensures ClientFold(blocks, a + b) == ClientFold(ClientFold(blocks, a), b)
    decreases |a|
  {
    if a == [] {
      assert a + b == b;
    } else {
      assert (a + b)[0] == a[0] && (a + b)[1..] == a[1..] + b;
      ClientFoldAppend(ClientStep(blocks, a[0]), a[1..], b);
    }
  }

  lemma ClientIgnoresFrame(model: string, body: seq<Sse>, delta: Sse)
    requires delta.MessageDeltaE?
    ensures ClientFold(map[], [MessageStartE(model), PingE] + body + [delta, MessageStopE]) == ClientFold(map[], body)
  {
    var front := [MessageStartE(model), PingE];
    var back := [delta, MessageStopE];
    ClientFoldAppend(map[], front + body, back);
    ClientFoldAppend(map[], front, body);
    assert front[1..] == [PingE] && [PingE][1..] == [];
    assert ClientFold(map[], front) == map[];
    var all := ClientFold(map[], front + body);
    assert back[1..] == [MessageStopE] && [MessageStopE][1..] == [];
    assert ClientFold(all, back) == all;
  }

  lemma ClientHasTheBuilders(model: string, events: seq<Event>, loads: Parser)
    requires Run(events).error.None? && PartsOf(Run(events).after.assembled, loads).Some?
    ensures ClientFold(map[], Streamed(model, events, loads).events)
         == View(Run(events).after.assembled)
  {
    var run := Run(events);
    var parts := PartsOf(run.after.assembled, loads).value;
    var body := Body(run);
    var stops := Stops(run.after.open);
    var encoded := Streamed(model, events, loads).events;
    SseShape(model, events, loads);
    var delta := MessageDeltaE(run.after.stopReason, Remap(run.after.safeguards, ToolCallIds(parts)),
                               UsageToWire(ReadUsage(run.after.rawUsage)));
    assert encoded == [MessageStartE(model), PingE] + Wire(body) + [delta, MessageStopE];
    ClientIgnoresFrame(model, Wire(body), delta);
    RunIsTyped(INITIAL, events);
    SF.RunMirrors(INITIAL, events);
    StopsAreTyped(run.after.assembled, stops);
    TypedAppend(map[], Chunks(run.emitted), stops);
    SF.FoldFromAppend(map[], Chunks(run.emitted), stops);
    SF.FoldIgnoresEnding(run.after.assembled, stops);
    FoldCommutes(map[], body);
    assert View(map[]) == map[];
  }

  lemma {:induction false} StopsAreTyped(blocks: map<int, Builder>, stops: seq<Chunk>)
    requires forall i :: 0 <= i < |stops| ==> stops[i].BlockStop?
    ensures AllTyped(blocks, stops)
  {
    if stops != [] {
      StopsAreTyped(blocks, stops[1..]);
    }
  }

  /** The audit row's response body, and the non-streaming answer with the same content. */
  function StoredResponse(run: Step, parts: seq<Part>, model: string): Result<MessagesResponse> {
    ResultToResponse(
      InternalResult(if parts == [] then [PlainPart("")] else parts, run.after.stopReason,
                     ReadUsage(run.after.rawUsage), Remap(run.after.safeguards, ToolCallIds(parts))),
      model)
  }

  ghost predicate AllArgumentsParse(assembled: map<int, Builder>, loads: Parser) {
    forall i :: i in assembled ==> ArgumentsParse(assembled[i], loads)
  }

  /** The client's content, from the builders it mirrors. */
  lemma ContentOfView(blocks: map<int, Builder>, loads: Parser)
    requires PartsOf(blocks, loads).Some?
    ensures var printed := BlocksOf(PartsOf(blocks, loads).value);
            && printed.Ok?
            && |printed.value| == |blocks|
            && (SortedOrder(blocks.Keys); FinishAlong(Sorted(blocks.Keys), View(blocks), loads))
               == if AllArgumentsParse(blocks, loads) then Some(printed.value) else None
  {
    var order := Sorted(blocks.Keys);
    SortedOrder(blocks.Keys);
    FinishAllAgree(order, blocks, loads);
    assert |blocks| == |blocks.Keys|;
    forall i | i in blocks ensures exists k :: 0 <= k < |order| && order[k] == i {
      assert i in Elements(order);
    }
  }

  /** The response carries the same content as the parts, with one empty text block for no
      parts at all. */
  lemma StoredContent(run: Step, parts: seq<Part>, model: string)
    requires BlocksOf(parts).Ok? && |BlocksOf(parts).value| == |parts|
    ensures var stored := StoredResponse(run, parts, model);
            && stored.Ok?
            && stored.value.content
               == (if parts == [] then [TextB(TextBlock("", None, None))] else BlocksOf(parts).value)
            && stored.value.stopReason == run.after.stopReason
            && stored.value.usage == UsageToWire(ReadUsage(run.after.rawUsage))
            && stored.value.safeguards == Remap(run.after.safeguards, ToolCallIds(parts))
  {
    if parts == [] {
      assert [PlainPart("")][1..] == [];
    }
  }

  /** Parts that could be built can be stored. */
  lemma PartsCanBeStored(run: Step, loads: Parser, model: string)
    requires PartsOf(run.after.assembled, loads).Some?
    ensures StoredResponse(run, PartsOf(run.after.assembled, loads).value, model).Ok?
  {
    var assembled := run.after.assembled;
    ContentOfView(assembled, loads);
    SortedOrder(assembled.Keys);
    assert |assembled| == |assembled.Keys|;
    assert |PartsOf(assembled, loads).value| == |Sorted(assembled.Keys)|;
    StoredContent(run, PartsOf(assembled, loads).value, model);
  }

  /** Folding the events of a stream that did not fail gives the client exactly the content
      the gateway stores if and only if there is at least one block and every tool call's
      arguments parse. */
  lemma ClientReassembly(model: string, events: seq<Event>, loads: Parser)
    requires Run(events).error.None? && PartsOf(Run(events).after.assembled, loads).Some?
    ensures var run := Run(events);
            var sse := Streamed(model, events, loads).events;
            var stored := StoredResponse(run, PartsOf(run.after.assembled, loads).value, model);
            && stored.Ok?
            && (ClientContent(sse, loads) == Some(stored.value.content) <==>
                  run.after.assembled != map[] && AllArgumentsParse(run.after.assembled, loads))
  {
    var run := Run(events);
    var assembled := run.after.assembled;
    var parts := PartsOf(assembled, loads).value;
    ClientHasTheBuilders(model, events, loads);
    assert View(assembled).Keys == assembled.Keys;
    ContentOfView(assembled, loads);
    SortedOrder(assembled.Keys);
    assert |parts| == |assembled|;
    StoredContent(run, parts, model);
    assert (parts == []) <==> (assembled == map[]);
  }

  /** For example: the gateway stores a tool call whose arguments do not parse, with none at all,
      and the client cannot put it together. */
  lemma BrokenArgumentsDiffer(model: string, id: string, name: string, loads: Parser)
    requires loads("{").None?
    ensures var events := ToolStream(id, name, "{");
            var run := Run(events);
            && PartsOf(run.after.assembled, loads) == Some([ToolCall(id, name, EMPTY_OBJECT, false)])
            && ClientContent(Streamed(model, events, loads).events, loads).None?
  {
    var events := ToolStream(id, name, "{");
    var b := Builder(KTool, "{", id, name, [], "");
    ToolStreamRuns(id, name, "{");
    var assembled := Run(events).after.assembled;
    assert Elements([0]) == assembled.Keys;
    SortedIsUnique([0]);
    assert Sorted(assembled.Keys) == [0] && [0][1..] == [];
    assert PartsAlong([0][1..], assembled, loads) == Some([]);
    var part := PartOf(b, loads).value;
    assert [part] + [] == [part];
    assert PartsAlong([0], assembled, loads) == Some([part]);
    ClientHasTheBuilders(model, events, loads);
    assert View(assembled).Keys == assembled.Keys;
    ContentOfView(assembled, loads);
    assert !ArgumentsParse(assembled[0], loads);
  }

  /** And message_delta closes the stream with the stored stop reason, usage and verdicts. */
  lemma ClientEnding(model: string, events: seq<Event>, loads: Parser)
    requires Run(events).error.None? && PartsOf(Run(events).after.assembled, loads).Some?
    ensures var run := Run(events);
            var sse := Streamed(model, events, loads).events;
            var stored := StoredResponse(run, PartsOf(run.after.assembled, loads).value, model);
            && stored.Ok?
            && |sse| >= 2
            && sse[|sse| - 2] == MessageDeltaE(stored.value.stopReason, stored.value.safeguards, stored.value.usage)
            && sse[|sse| - 1] == MessageStopE
  {
    var run := Run(events);
    SseShape(model, events, loads);
    ContentOfView(run.after.assembled, loads);
    SortedOrder(run.after.assembled.Keys);
    StoredContent(run, PartsOf(run.after.assembled, loads).value, model);
  }
}
