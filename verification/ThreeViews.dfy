/** The three views of one Converse answer: what the client puts together from the events, what
    the gateway stores, and what the non-streaming path returns. */
module ThreeViews {
  import opened Model
  import opened SseEncoder
  import opened ConverseStream
  import opened StreamAgreement
  import opened ClientView

  /** However an answer of at least one block is cut into deltas, the content that a client
      puts together from the events is that of the non-streaming response, and the closing
      event carries its stop reason, usage and verdicts. */
  lemma ClientSeesTheAnswer(model: string, answer: ConverseResponse, indices: seq<int>, events: seq<Event>,
                            loads: Parser)
    requires Streams(answer, indices, events, loads)
    requires answer.content != [] && ParseResponse(answer).Some?
    ensures var sse := Streamed(model, events, loads).events;
            var response := ResultToResponse(ParseResponse(answer).value, model);
            && response.Ok?
            && ClientContent(sse, loads) == Some(response.value.content)
            && |sse| >= 2
            && sse[|sse| - 2]
               == MessageDeltaE(response.value.stopReason, response.value.safeguards, response.value.usage)
            && sse[|sse| - 1] == MessageStopE
  {
    var assembled := Run(events).after.assembled;
    StreamingAgreesWithInvoking(answer, indices, events, loads);
    SlotsOfAnswer(answer, indices, events, loads);
    assert indices[0] in assembled;
    ClientReassembly(model, events, loads);
    ClientEnding(model, events, loads);
  }
}
