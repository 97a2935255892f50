/** The audit row of a LangChain stream: the stream, the encoder and the endpoint of
    src/ttllm/api/messages.py put together. */
module LangChainAudit {
  import opened Model
  import SE = SseEncoder
  import LC = LangChainStream
  import LV = LangChainView
  import CV = ClientView
  import opened StreamProtocol
  import SO = StreamOutcome

  /** A LangChain stream: its messages, and the exception, if any, that ends it after them. */
  datatype Source = Source(messages: seq<LC.Message>, fails: Option<ProviderError>)

  /** The encoder's events. A stream that raises breaks off: nothing in this provider catches it. */
  function EventsOf(model: string, source: Source): seq<SE.Sse> {
    if source.fails.Some? then SE.Encode(model, LC.After(source.messages).out, true).events
    else LV.Shown(model, source.messages).events
  }

  /** The accumulator's counters when the stream is over: they are set just before MESSAGE_STOP. */
  function FinalCounters(source: Source): Usage {
    if source.fails.Some? then NO_TOKENS else LC.CountsAfter(source.messages)
  }

  /** The counters at the k-th event of the encoder: two events come before the first chunk. */
  function CountersAt(source: Source, k: nat): Usage {
    if k < 2 + |LV.BodyOf(source.messages)| then NO_TOKENS else FinalCounters(source)
  }

  /** Whether the response of a stream that completed cannot be built. */
  function ResponseRaises(model: string, source: Source, loads: Parser): bool {
    match LC.StoredResult(source.messages, loads)
    case None => true
    case Some(result) => SE.ResultToResponse(result, model).Err?
  }

  /** The request that the endpoint serves from such a stream. */
  function RequestOf(model: string, source: Source, loads: Parser, render: SE.Sse -> string, finalizeRaises: bool)
    : Request
  {
    var events := EventsOf(model, source);
    Request(
      seq(|events|, k requires 0 <= k < |events| => Frame(render(events[k]), CountersAt(source, k))),
      FinalCounters(source), None, source.fails, ResponseRaises(model, source, loads), finalizeRaises)
  }

  function Rendered(events: seq<SE.Sse>, render: SE.Sse -> string): seq<string> {
    seq(|events|, k requires 0 <= k < |events| => render(events[k]))
  }

  /** What is offered to a client: the events of a stream that ends, and those before it broke off
      with a made-up error frame after them of one that raises. */
  lemma OfferedIsRendered(model: string, source: Source, loads: Parser, render: SE.Sse -> string, finalizeRaises: bool)
    ensures CV.AllSendable(LV.BodyOf(source.messages)) && CV.AllSendable(LC.After(source.messages).out)
    ensures var prologue := [SE.MessageStartE(model), SE.PingE];
            var l := LC.After(source.messages);
            RequestOf(model, source, loads, render, finalizeRaises).Offered()
            == match source.fails
               case Some(e) => Rendered(prologue + CV.Wire(l.out), render) + ["error: " + e.text]
               case None =>
                 Rendered(prologue + CV.Wire(LV.BodyOf(source.messages))
                          + [SE.MessageDeltaE(LC.StopReasonOf(l), None,
                                              SE.UsageToWire(LC.CountsAfter(source.messages))),
                             SE.MessageStopE], render)
  {
    LV.SseOfStream(model, source.messages);
    var r := RequestOf(model, source, loads, render, finalizeRaises);
    assert r.Offered() == Rendered(EventsOf(model, source), render) + r.ErrorFrame();
  }

  /** Some call's stored arguments are JSON other than an object. */
  predicate HasRejectedCall(calls: seq<LC.StoredCall>, loads: Parser) {
    exists j :: 0 <= j < |calls| && !Arguments(calls[j].args, loads).JObj?
  }

  lemma {:induction false} CallPartsFailExactly(calls: seq<LC.StoredCall>, loads: Parser)
    ensures LC.CallParts(calls, loads).None? <==> HasRejectedCall(calls, loads)
  {
    if calls != [] {
      CallPartsFailExactly(calls[1..], loads);
      assert forall j :: 1 <= j < |calls| ==> calls[j] == calls[1..][j - 1];
      assert forall j :: 0 <= j < |calls[1..]| ==> calls[1..][j] == calls[j + 1];
    }
  }

  lemma ResponseRaisesExactly(model: string, source: Source, loads: Parser)
    ensures ResponseRaises(model, source, loads)
            <==> HasRejectedCall(LC.StoredCalls(LC.After(source.messages)), loads)
  {
    var l := LC.After(source.messages);
    CallPartsFailExactly(LC.StoredCalls(l), loads);
    if LC.StoredResult(source.messages, loads).Some? {
      LV.StoredContent(model, l.textAcc, LC.StoredCalls(l), LC.StopReasonOf(l), LC.CountsAfter(source.messages), loads);
    }
  }

  /** What the row of a LangChain stream holds, over all interleavings. For a stream that raised:
      the classified error and counters of zero. Otherwise the streamed counters, and 200 or,
      with the client gone, 499; and a row with 200 only if no call's stored arguments are
      JSON other than an object. */
  lemma RowOfLangChain(model: string, source: Source, loads: Parser, render: SE.Sse -> string, finalizeRaises: bool,
                       actions: seq<Action>)
    requires var r := RequestOf(model, source, loads, render, finalizeRaises);
             Exec(r, START, actions).Some? && Exec(r, START, actions).value.audit != []
    ensures var r := RequestOf(model, source, loads, render, finalizeRaises);
            var s := Exec(r, START, actions).value;
            var row := s.audit[0];
            match source.fails
            case Some(e) => row == Row(NO_TOKENS, Classify(e).0, Some(e.text), false)
            case None =>
              && row.tokens == LC.CountsAfter(source.messages)
              && (row.status == 200 || (row.status == 499 && s.disconnected && !row.hasResponse))
              && (row.status == 200 ==>
                    row.hasResponse && !HasRejectedCall(LC.StoredCalls(LC.After(source.messages)), loads))
  {
    ResponseRaisesExactly(model, source, loads);
    RowOfRequest(RequestOf(model, source, loads, render, finalizeRaises), actions);
  }

  /** While the stream is read, the counters are zero, until MESSAGE_STOP is due. */
  lemma CountersOnTheWay(model: string, source: Source, loads: Parser, render: SE.Sse -> string,
                         finalizeRaises: bool, actions: seq<Action>)
    requires Exec(RequestOf(model, source, loads, render, finalizeRaises), START, actions).Some?
    ensures var r := RequestOf(model, source, loads, render, finalizeRaises);
            var s := Exec(r, START, actions).value;
            (s.producer.Pulling? || s.producer.Offering?) && s.pulled <= |r.frames| ==>
              s.tokens == if source.fails.Some? || s.pulled <= 2 + |LV.BodyOf(source.messages)| then Usage(0, 0, 0, 0)
                          else LC.CountsAfter(source.messages)
  {
    SO.CountersFollowEvents(RequestOf(model, source, loads, render, finalizeRaises), actions);
  }

  /** Whether a stream that ends has a row at all, once everything has come to a stop and nobody has
      cancelled the producer: it has none exactly if some call's stored arguments are JSON
      other than an object and the client was there when the row was decided. */
  lemma NoRowExactlyForRejectedCalls(model: string, messages: seq<LC.Message>, loads: Parser,
                                     render: SE.Sse -> string, before: seq<Action>, later: seq<Action>)
    requires var r := RequestOf(model, Source(messages, None), loads, render, false);
             var all := before + [Decide] + later;
             && Exec(r, START, before).Some? && Exec(r, START, before).value.producer.Deciding?
             && (forall i :: 0 <= i < |all| ==> !all[i].Cancels())
             && Exec(r, START, all).Some? && Stuck(r, Exec(r, START, all).value)
    ensures var r := RequestOf(model, Source(messages, None), loads, render, false);
            Exec(r, START, before + [Decide] + later).value.audit == [] <==>
              && HasRejectedCall(LC.StoredCalls(LC.After(messages)), loads)
              && !Exec(r, START, before).value.disconnected
  {
    ResponseRaisesExactly(model, Source(messages, None), loads);
    DecisionFixesTheRow(RequestOf(model, Source(messages, None), loads, render, false), before, later);
  }

  lemma OneCall(id: string, name: string, args: string, counts: LC.Counts)
    requires id != "" && args != ""
    ensures var messages := [LC.Message(LC.NoContents, [LC.ToolPiece(id, Some(name), args)], counts)];
            LC.StoredCalls(LC.After(messages)) == [LC.StoredCall(id, name, args)]
  {
    var piece := LC.ToolPiece(id, Some(name), args);
    var messages := [LC.Message(LC.NoContents, [piece], counts)];
    LC.OneMessage(LC.NoContents, piece, counts);
    assert "" + args == args;
  }

  /** For example: a tool call whose arguments are an empty array is streamed to its end, to a
      client that stays, and has no row. */
  lemma ArrayArgumentsHaveNoRow(model: string, id: string, name: string, counts: LC.Counts, loads: Parser,
                                render: SE.Sse -> string) returns (actions: seq<Action>)
    requires id != "" && loads("[]") == Some(JArr([]))
    ensures var messages := [LC.Message(LC.NoContents, [LC.ToolPiece(id, Some(name), "[]")], counts)];
            var r := RequestOf(model, Source(messages, None), loads, render, false);
            && Exec(r, START, actions).Some?
            && var s := Exec(r, START, actions).value;
               && s.consumer.Gone? && s.producer.Finished? && !s.disconnected
               && s.delivered == r.Offered() && s.audit == []
  {
    var messages := [LC.Message(LC.NoContents, [LC.ToolPiece(id, Some(name), "[]")], counts)];
    var r := RequestOf(model, Source(messages, None), loads, render, false);
    OneCall(id, name, "[]", counts);
    assert !Arguments(LC.StoredCalls(LC.After(messages))[0].args, loads).JObj?;
    ResponseRaisesExactly(model, Source(messages, None), loads);
    actions := SomeClientStays(r);
  }
}
