/** The audit row of a Bedrock stream: the producer, the encoder and the endpoint of
    src/ttllm/api/messages.py put together. */
module StreamAudit {
  import opened Model
  import SE = SseEncoder
  import CS = ConverseStream
  import CV = ClientView
  import SA = StreamAgreement
  import opened StreamProtocol

  /** Python's exceptions as the endpoint classifies them: one for each message that the event
      loop records, and the one that rejects a tool call's arguments. */
  datatype Exceptions = Exceptions(recorded: string -> ProviderError, rejection: ProviderError)

  /** The accumulator's counters when the stream is over. `finally` sets them, but not after an
      ERROR chunk, where the encoder leaves the generator suspended, and not when it raises. */
  function FinalCounters(run: CS.Step, loads: Parser): Usage {
    if run.error.Some? || CV.Breaks(run, loads) then NO_TOKENS else CS.ReadUsage(run.after.rawUsage)
  }

  /** The counters at the k-th event of the encoder: two events come before the first chunk,
      and `finally` runs after the chunks of the loop. */
  function CountersAt(run: CS.Step, loads: Parser, k: nat): Usage {
    if k < 2 + |run.emitted| then NO_TOKENS else FinalCounters(run, loads)
  }

  /** Whether the response of a stream that completed cannot be built. */
  function ResponseRaises(model: string, run: CS.Step, loads: Parser): bool {
    var parts := CS.PartsOf(run.after.assembled, loads);
    parts.Some? && CV.StoredResponse(run, parts.value, model).Err?
  }

  /** The request that the endpoint serves when Bedrock sends these events. */
  function RequestOf(model: string, events: seq<CS.Event>, loads: Parser, render: SE.Sse -> string,
                     exceptions: Exceptions, finalizeRaises: bool): Request
  {
    var run, sse := CS.Run(events), CV.Streamed(model, events, loads);
    Request(
      seq(|sse.events|, k requires 0 <= k < |sse.events| => Frame(render(sse.events[k]), CountersAt(run, loads, k))),
      FinalCounters(run, loads),
      (match run.error case None => None case Some(m) => Some(exceptions.recorded(m))),
      if sse.raised then Some(exceptions.rejection) else None,
      ResponseRaises(model, run, loads),
      finalizeRaises)
  }

  function Rendered(events: seq<SE.Sse>, render: SE.Sse -> string): seq<string> {
    seq(|events|, k requires 0 <= k < |events| => render(events[k]))
  }

  /** The encoder raises exactly when the parts cannot be built, so only then is an error frame
      made up. */
  lemma OfferedIsRendered(model: string, events: seq<CS.Event>, loads: Parser, render: SE.Sse -> string,
                          exceptions: Exceptions, finalizeRaises: bool)
    ensures CV.Streamed(model, events, loads).raised == CV.Breaks(CS.Run(events), loads)
    ensures var r := RequestOf(model, events, loads, render, exceptions, finalizeRaises);
            r.Offered() == Rendered(CV.Streamed(model, events, loads).events, render)
                           + if CV.Breaks(CS.Run(events), loads) then ["error: " + exceptions.rejection.text] else []
  {
    CV.SseShape(model, events, loads);
  }

  /** The response of a Bedrock stream that completed can always be built. */
  lemma ResponseIsBuilt(model: string, events: seq<CS.Event>, loads: Parser)
    ensures !ResponseRaises(model, CS.Run(events), loads)
  {
    if CS.PartsOf(CS.Run(events).after.assembled, loads).Some? {
      CV.PartsCanBeStored(CS.Run(events), loads, model);
    }
  }

  /** So a request served from Bedrock has its row when all has come to a stop, unless writing it
      raised or the producer was cancelled. */
  lemma BedrockRequestsHaveRows(model: string, events: seq<CS.Event>, loads: Parser, render: SE.Sse -> string,
                                exceptions: Exceptions, actions: seq<Action>)
    requires var r := RequestOf(model, events, loads, render, exceptions, false);
             && Exec(r, START, actions).Some? && Stuck(r, Exec(r, START, actions).value)
             && forall i :: 0 <= i < |actions| ==> !actions[i].Cancels()
    ensures var r := RequestOf(model, events, loads, render, exceptions, false);
            |Exec(r, START, actions).value.audit| == 1
  {
    var r := RequestOf(model, events, loads, render, exceptions, false);
    ResponseIsBuilt(model, events, loads);
    UncancelledRunsEnd(r, actions);
  }

  /** What the row of a Bedrock stream holds, over all interleavings. For a stream that failed or
      whose parts cannot be built: the classified error and counters of zero, whatever usage
      Bedrock had reported. Otherwise the reported usage, and 200 or 499; and a client that
      stayed to the end has received all events of a row with 200. */
  lemma RowOfStream(model: string, events: seq<CS.Event>, loads: Parser, render: SE.Sse -> string,
                    exceptions: Exceptions, finalizeRaises: bool, actions: seq<Action>)
    requires var r := RequestOf(model, events, loads, render, exceptions, finalizeRaises);
             Exec(r, START, actions).Some? && Exec(r, START, actions).value.audit != []
    ensures var r := RequestOf(model, events, loads, render, exceptions, finalizeRaises);
            var s, run := Exec(r, START, actions).value, CS.Run(events);
            var row := s.audit[0];
            if run.error.Some? then
              row == Row(NO_TOKENS, Classify(exceptions.recorded(run.error.value)).0,
                         Some(exceptions.recorded(run.error.value).text), false)
            else if exists i :: i in run.after.assembled && CS.IsRejected(run.after.assembled[i], loads) then
              row == Row(NO_TOKENS, Classify(exceptions.rejection).0, Some(exceptions.rejection.text), false)
            else
              && row.tokens == CS.ReadUsage(run.after.rawUsage)
              && (row.status == 200 || (row.status == 499 && s.disconnected && !row.hasResponse))
              && (s.consumer.Gone? && !s.disconnected && !s.closed ==>
                    && row.status == 200 && row.hasResponse
                    && s.delivered == Rendered(CV.Streamed(model, events, loads).events, render))
  {
    var r := RequestOf(model, events, loads, render, exceptions, finalizeRaises);
    var run := CS.Run(events);
    OfferedIsRendered(model, events, loads, render, exceptions, finalizeRaises);
    CS.PartsFailExactly(run.after.assembled, loads);
    RowOfRequest(r, actions);
    var all := Rendered(CV.Streamed(model, events, loads).events, render);
    assert all + [] == all;
  }

  /** For example: usage that Bedrock reported before it failed is not in the row. */
  lemma UsageOfAFailureIsLost(model: string, usage: CS.RawUsage, message: string, loads: Parser,
                              render: SE.Sse -> string, exceptions: Exceptions)
    returns (actions: seq<Action>)
    ensures var events := [CS.Metadata(usage), CS.Failure(message)];
            var ran := Exec(RequestOf(model, events, loads, render, exceptions, false), START, actions);
            && CS.Run(events).after.rawUsage == usage
            && ran.Some?
            && ran.value.audit == [Row(NO_TOKENS, Classify(exceptions.recorded(message)).0,
                                       Some(exceptions.recorded(message).text), false)]
  {
    var events := [CS.Metadata(usage), CS.Failure(message)];
    assert events[1..] == [CS.Failure(message)];
    var first := CS.Handle(CS.INITIAL, events[0]);
    assert CS.RunFrom(first.after, events[1..]) == CS.Handle(first.after, events[1]);
    assert CS.Run(events).error == Some(message);
    var r := RequestOf(model, events, loads, render, exceptions, false);
    actions := SomeClientStays(r);
    AuditRow(r, actions);
    RowOfStream(model, events, loads, render, exceptions, false, actions);
  }

  /** Streaming an answer is accounted for as invoking it would be, whenever the client
      leaves. */
  lemma AuditedAsInvoked(model: string, answer: SA.ConverseResponse, indices: seq<int>, events: seq<CS.Event>,
                         loads: Parser, render: SE.Sse -> string, exceptions: Exceptions, finalizeRaises: bool,
                         actions: seq<Action>)
    requires SA.Streams(answer, indices, events, loads) && SA.ParseResponse(answer).Some?
    ensures var r := RequestOf(model, events, loads, render, exceptions, finalizeRaises);
            Exec(r, START, actions).Some? && Exec(r, START, actions).value.audit != [] ==>
              var row := Exec(r, START, actions).value.audit[0];
              row.tokens == SA.ParseResponse(answer).value.usage && row.status in {200, 499}
  {
    var r := RequestOf(model, events, loads, render, exceptions, finalizeRaises);
    SA.StreamingAgreesWithInvoking(answer, indices, events, loads);
    CS.PartsFailExactly(CS.Run(events).after.assembled, loads);
    if Exec(r, START, actions).Some? && Exec(r, START, actions).value.audit != [] {
      RowOfStream(model, events, loads, render, exceptions, finalizeRaises, actions);
    }
  }
}
