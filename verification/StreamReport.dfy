/** What Bedrock reports of an answer, its token counts and its stop reason, followed to every
    place it reaches: src/ttllm/core/providers/bedrock/converse.py, the accumulator of
    src/ttllm/core/providers/bedrock/provider.py, the client's closing event and the audit row. */
module StreamReport {
  import opened Model
  import opened ConverseStream
  import opened StreamAgreement
  import SE = SseEncoder
  import CV = ClientView
  import SA = StreamAudit
  import SP = StreamProtocol
  import SO = StreamOutcome

  // --- What a report says ---

  /** A reported count as it is, and an absent one as zero. */
  predicate IsCount(tokens: int, reported: Option<int>) {
    match reported
    case Some(n) => tokens == n
    case None => tokens == 0
  }

  predicate SaysUsage(u: Usage, reported: RawUsage) {
    && IsCount(u.input, reported.input) && IsCount(u.output, reported.output)
    && IsCount(u.cacheRead, reported.cacheRead) && IsCount(u.cacheWrite, reported.cacheWrite)
  }

  /** On the wire, cache tokens are left out when there are none. */
  predicate IsOptionalCount(tokens: Option<int>, reported: Option<int>) {
    match tokens
    case Some(n) => n != 0 && reported == Some(n)
    case None => reported in {None, Some(0)}
  }

  predicate SaysWireUsage(w: SE.WireUsage, reported: RawUsage) {
    && IsCount(w.inputTokens, reported.input) && IsCount(w.outputTokens, reported.output)
    && IsOptionalCount(w.cacheRead, reported.cacheRead)
    && IsOptionalCount(w.cacheCreation, reported.cacheWrite)
  }

  /** Five of Bedrock's reasons have one of their own; any other one, or none, ends the turn. */
  predicate Means(reported: Option<string>, reason: StopReason) {
    && (reason.ToolUse? <==> reported == Some("tool_use"))
    && (reason.MaxTokens? <==> reported == Some("max_tokens"))
    && (reason.StopSequence? <==> reported == Some("stop_sequence"))
    && (reason.Refusal? <==> reported in {Some("content_filtered"), Some("guardrail_intervened")})
  }

  lemma ReportsAreRead(usage: RawUsage, reason: Option<string>)
    ensures SaysUsage(ReadUsage(usage), usage)
    ensures SaysWireUsage(SE.UsageToWire(ReadUsage(usage)), usage)
    ensures Means(reason, MapStopReason(reason.GetOr("end_turn")))
  {
  }

  /** The last reports of a stream: its final counts and its stop reason. */
  lemma LastReportsCount(events: seq<Event>)
    requires Run(events).error.None?
    ensures var after := Run(events).after;
            && SaysUsage(ReadUsage(after.rawUsage), LastUsage(events, NO_USAGE))
            && SaysWireUsage(SE.UsageToWire(ReadUsage(after.rawUsage)), LastUsage(events, NO_USAGE))
            && Means(LastStop(events, (None, None)).0, after.stopReason)
  {
    RunKeepsTrailer(INITIAL, events, (None, None));
    ReportsAreRead(Run(events).after.rawUsage, LastStop(events, (None, None)).0);
  }

  // --- Price ---

  /** A thousand times the price is what each kind of token costs, a missing rate being free. */
  predicate IsPrice(price: real, reported: RawUsage, rates: Rates) {
    1000.0 * price
    == Product(reported.input, rates.input) + Product(reported.output, rates.output)
       + Product(reported.cacheRead, rates.cacheRead) + Product(reported.cacheWrite, rates.cacheWrite)
  }

  function Product(tokens: Option<int>, rate: Option<real>): real {
    match (tokens, rate)
    case (Some(n), Some(r)) => n as real * r
    case _ => 0.0
  }

  lemma KindHasItsPrice(tokens: Option<int>, rate: Option<real>)
    ensures 1000.0 * PriceOf(tokens.GetOr(0), rate) == Product(tokens, rate)
  {
  }

  lemma PriceIsReported(usage: RawUsage, rates: Rates)
    ensures IsPrice(CostOf(ReadUsage(usage), rates), usage, rates)
  {
    KindHasItsPrice(usage.input, rates.input);
    KindHasItsPrice(usage.output, rates.output);
    KindHasItsPrice(usage.cacheRead, rates.cacheRead);
    KindHasItsPrice(usage.cacheWrite, rates.cacheWrite);
  }

  // --- Where it arrives ---

  /** In the accumulator of a stream that did not fail, for a consumer that takes more than the
      chunks of its blocks; after an early close, the reports that had come by then. */
  method StreamAndReport(events: seq<Event>, loads: Parser, limit: nat, rates: Rates)
    returns (state: BedrockState, raised: bool)
    requires limit > 0 && Run(events).error.None?
    ensures fresh(state) && raised == PartsOf(LoopAtFinally(Run(events), limit).assembled, loads).None?
    ensures !raised ==> SaysUsage(state.tokens, LoopAtFinally(Run(events), limit).rawUsage)
    ensures !raised && limit > |Run(events).emitted| ==>
              && SaysUsage(state.tokens, LastUsage(events, NO_USAGE))
              && IsPrice(state.GetCost(rates), LastUsage(events, NO_USAGE), rates)
              && Means(LastStop(events, (None, None)).0, state.stopReason)
    ensures raised ==> SaysUsage(state.tokens, NO_USAGE)
  {
    state := new BedrockState();
    var yielded;
    yielded, raised := StreamConverse(Events(events), state, loads, limit);
    if !raised {
      var last := LoopAtFinally(Run(events), limit);
      ReportsAreRead(last.rawUsage, None);
      LastReportsCount(events);
      PriceIsReported(last.rawUsage, rates);
      RunKeepsTrailer(INITIAL, events, (None, None));
    }
  }

  /** In the accumulator that invoking fills. */
  method InvokeAndReport(response: ConverseResponse, rates: Rates) returns (state: BedrockState, raised: bool)
    ensures fresh(state) && raised == ParseBlocks(response.content).None?
    ensures !raised ==>
              && SaysUsage(state.tokens, response.usage)
              && IsPrice(state.GetCost(rates), response.usage, rates)
              && Means(response.stopReason, state.stopReason)
    ensures raised ==> SaysUsage(state.tokens, NO_USAGE)
  {
    state := new BedrockState();
    raised := Invoke(response, state);
    if !raised {
      ReportsAreRead(response.usage, response.stopReason);
      PriceIsReported(response.usage, rates);
      assert state.tokens == state.GetResponse().usage && state.stopReason == state.GetResponse().stopReason;
    }
  }

  /** In the response that invoking gives a client. */
  lemma ResponseReports(response: ConverseResponse, model: string)
    requires ParseResponse(response).Some?
    ensures var result := ParseResponse(response).value;
            && SaysUsage(result.usage, response.usage) && Means(response.stopReason, result.stopReason)
            && (SE.ResultToResponse(result, model).Ok? ==>
                  var told := SE.ResultToResponse(result, model).value;
                  SaysWireUsage(told.usage, response.usage) && Means(response.stopReason, told.stopReason))
  {
    ReportsAreRead(response.usage, response.stopReason);
  }

  /** In the message_delta that closes a stream. */
  lemma ClientIsTold(model: string, events: seq<Event>, loads: Parser)
    requires Run(events).error.None? && PartsOf(Run(events).after.assembled, loads).Some?
    ensures var sse := CV.Streamed(model, events, loads).events;
            && |sse| >= 2 && sse[|sse| - 2].MessageDeltaE?
            && SaysWireUsage(sse[|sse| - 2].usage, LastUsage(events, NO_USAGE))
            && Means(LastStop(events, (None, None)).0, sse[|sse| - 2].stopReason)
  {
    CV.SseShape(model, events, loads);
    LastReportsCount(events);
  }

  /** In the audit row of a request that completed: its counters, over all interleavings. */
  lemma RowReports(model: string, events: seq<Event>, loads: Parser, render: SE.Sse -> string,
                   exceptions: SA.Exceptions, finalizeRaises: bool, actions: seq<SP.Action>)
    requires var r := SA.RequestOf(model, events, loads, render, exceptions, finalizeRaises);
             SP.Exec(r, SP.START, actions).Some? && SP.Exec(r, SP.START, actions).value.audit != []
    requires Run(events).error.None? && PartsOf(Run(events).after.assembled, loads).Some?
    ensures var r := SA.RequestOf(model, events, loads, render, exceptions, finalizeRaises);
            var row := SP.Exec(r, SP.START, actions).value.audit[0];
            row.status in {200, 499} && SaysUsage(row.tokens, LastUsage(events, NO_USAGE))
  {
    PartsFailExactly(Run(events).after.assembled, loads);
    SA.RowOfStream(model, events, loads, render, exceptions, finalizeRaises, actions);
    LastReportsCount(events);
  }

  /** While the stream is read, the counters are zero, until the chunks of the loop are over. */
  lemma CountersOnTheWay(model: string, events: seq<Event>, loads: Parser, render: SE.Sse -> string,
                         exceptions: SA.Exceptions, finalizeRaises: bool, actions: seq<SP.Action>)
    requires var r := SA.RequestOf(model, events, loads, render, exceptions, finalizeRaises);
             SP.Exec(r, SP.START, actions).Some?
    ensures var r := SA.RequestOf(model, events, loads, render, exceptions, finalizeRaises);
            var s := SP.Exec(r, SP.START, actions).value;
            && ((s.producer.Pulling? || s.producer.Offering?) && s.pulled <= 2 + |Run(events).emitted|
                && s.pulled <= |r.frames| ==>
                  s.tokens == Usage(0, 0, 0, 0))
            && ((s.producer.Pulling? || s.producer.Offering?) && 2 + |Run(events).emitted| < s.pulled <= |r.frames|
                && Run(events).error.None? && PartsOf(Run(events).after.assembled, loads).Some? ==>
                  SaysUsage(s.tokens, LastUsage(events, NO_USAGE)))
  {
    SO.CountersFollowEvents(SA.RequestOf(model, events, loads, render, exceptions, finalizeRaises), actions);
    if Run(events).error.None? {
      LastReportsCount(events);
    }
  }
}
