/** What the audit row of a streamed request says, in so many words, and what is no longer queued
    once its client has left: src/ttllm/api/messages.py. */
module StreamOutcome {
  import opened Model
  import opened StreamProtocol

  // --- Statuses ---

  /** Anthropic's statuses for the error codes of AWS. */
  predicate IsOverload(code: string) {
    code in {"ThrottlingException", "ModelTimeoutException", "ModelNotReadyException",
             "ServiceUnavailableException", "ServiceQuotaExceededException"}
  }

  predicate IsUpstreamFault(code: string) {
    code in {"ModelErrorException", "ModelStreamErrorException", "InternalServerException"}
  }

  predicate HasStatus(e: ProviderError, status: int) {
    match e
    case ServerTool(_) => status == 501
    case UnsupportedContent(_) => status == 400
    case ReadTimeout(_) => status == 529
    case OtherError(_) => status == 500
    case ClientError(code, _, _) =>
      && (status == 529 <==> IsOverload(code))
      && (status == 403 <==> code == "AccessDeniedException")
      && (status == 404 <==> code == "ResourceNotFoundException")
      && (status == 400 <==> code == "ValidationException")
      && status in {529, 403, 404, 400, 500}
  }

  predicate HasErrorType(status: int, errorType: string) {
    && (status == 529 <==> errorType == "overloaded_error")
    && (status == 403 <==> errorType == "permission_error")
    && (status == 404 <==> errorType == "not_found_error")
    && (status == 400 <==> errorType == "invalid_request_error")
    && (status == 501 <==> errorType == "not_implemented_error")
    && (status == 500 <==> errorType == "api_error")
  }

  /** What is shown of an error: its own message where the client can act on it, and otherwise
      nothing of it. */
  predicate HasMessage(e: ProviderError, message: string) {
    match e
    case ServerTool(text) => message == text
    case UnsupportedContent(text) => message == text
    case ReadTimeout(_) => message == "Model request timed out — try again or use streaming"
    case OtherError(_) => message == "An internal error occurred"
    case ClientError(code, own, text) =>
      if IsOverload(code) || IsUpstreamFault(code)
         || code in {"AccessDeniedException", "ResourceNotFoundException", "ValidationException"}
      then message == (match own case Some(m) => m case None => text)
      else message == "An internal error occurred"
  }

  lemma CodesAreKnown(code: string)
    ensures KnownCode(code).Some? <==>
              || IsOverload(code) || IsUpstreamFault(code)
              || code in {"AccessDeniedException", "ResourceNotFoundException", "ValidationException"}
    ensures KnownCode(code).Some? ==>
              HasErrorType(KnownCode(code).value.0, KnownCode(code).value.1)
    ensures var status := if KnownCode(code).Some? then KnownCode(code).value.0 else 500;
            && (status == 529 <==> IsOverload(code))
            && (status == 403 <==> code == "AccessDeniedException")
            && (status == 404 <==> code == "ResourceNotFoundException")
            && (status == 400 <==> code == "ValidationException")
            && status in {529, 403, 404, 400, 500}
  {
  }

  /** Every error has the status, the type and the message that it should have. */
  lemma ErrorsAreClassified(e: ProviderError)
    ensures HasStatus(e, Classify(e).0)
    ensures HasErrorType(Classify(e).0, Classify(e).1)
    ensures HasMessage(e, Classify(e).2)
  {
    if e.ClientError? {
      CodesAreKnown(e.code);
    }
  }

  /** What is offered: the events in order, and a made-up error frame after them if an exception reached
      the endpoint and the provider has recorded no error of its own. */
  lemma EventsAreOffered(r: Request)
    ensures |r.Offered()| == |r.frames| + if r.raised.Some? && r.stateError.None? then 1 else 0
    ensures forall i :: 0 <= i < |r.frames| ==> r.Offered()[i] == r.frames[i].text
    ensures r.raised.Some? && r.stateError.None? ==> r.Offered()[|r.frames|] == "error: " + r.raised.value.text
  {
  }

  // --- The row ---

  /** The row of a request whose client had left, or not, when it was decided. The provider's own
      record of an error goes before the exception that reached the endpoint. */
  predicate RowSays(r: Request, left: bool, row: Row) {
    && row.tokens == r.finalTokens
    && match (r.stateError, r.raised)
       case (Some(e), _) => HasStatus(e, row.status) && row.error == Some(e.text) && !row.hasResponse
       case (None, Some(e)) => HasStatus(e, row.status) && row.error == Some(e.text) && !row.hasResponse
       case (None, None) =>
         if left then
           row.status == 499 && row.error == Some("Client disconnected during streaming response") && !row.hasResponse
         else row.status == 200 && row.error == None && row.hasResponse
  }

  /** For every schedule: from the decision on there is at most one row, and it says that. */
  lemma RowSaysWhatHappened(r: Request, before: seq<Action>, later: seq<Action>)
    requires Exec(r, START, before).Some? && Exec(r, START, before).value.producer.Deciding?
    requires Exec(r, START, before + [Decide] + later).Some?
    ensures var left := Exec(r, START, before).value.disconnected;
            var audit := Exec(r, START, before + [Decide] + later).value.audit;
            audit == [] || (|audit| == 1 && RowSays(r, left, audit[0]))
  {
    FlagAtDecision(r, before, later);
    if r.StreamError().Some? {
      ErrorsAreClassified(r.StreamError().value);
    }
  }

  // --- After the client has left ---

  /** What may still be put: the one event on its way, and no end marker. */
  ghost predicate Quiet(s: State, most: nat) {
    && s.disconnected
    && (forall i :: 0 <= i < |s.queue| ==> s.queue[i].Some?)
    && (s.producer.Pulling? || s.producer.Offering? || s.producer.Deciding? || s.producer.Writing?
        || s.producer.Finished? || s.producer.Cancelled?)
    && (s.consumer.Shielded? || s.consumer.Gone?)
    && |s.enqueued| + (if InFlight(s.producer) then 1 else 0) <= most
  }

  lemma QuietStep(r: Request, s: State, a: Action, most: nat)
    requires Quiet(s, most) && Enabled(r, s, a)
    ensures Quiet(Next(r, s, a), most)
  {
  }

  lemma {:induction false} StaysQuiet(r: Request, s: State, actions: seq<Action>, most: nat)
    requires Quiet(s, most) && Exec(r, s, actions).Some?
    ensures Quiet(Exec(r, s, actions).value, most)
    decreases |actions|
  {
    if actions != [] {
      QuietStep(r, s, actions[0], most);
      StaysQuiet(r, Next(r, s, actions[0]), actions[1..], most);
    }
  }

  /** When the client has left before the row was written, at most the event that is on its way is
      still queued, and no end marker. */
  lemma NothingIsQueuedForTheGone(r: Request, before: seq<Action>, later: seq<Action>)
    requires Exec(r, START, before).Some? && Exec(r, START, before + [Leave] + later).Some?
    requires var p := Exec(r, START, before).value.producer;
             p.Pulling? || p.Offering? || p.Deciding? || p.Writing?
    ensures var s, t := Exec(r, START, before).value, Exec(r, START, before + [Leave] + later).value;
            && |t.enqueued| <= |s.enqueued| + 1
            && (!InFlight(s.producer) ==> t.enqueued == s.enqueued)
            && forall i :: 0 <= i < |t.queue| ==> t.queue[i].Some?
  {
    var s := Exec(r, START, before).value;
    Reachable(r, before);
    ExecSplit(r, START, before + [Leave], later);
    ExecSplit(r, START, before, [Leave]);
    assert [Leave][1..] == [];
    var left := Next(r, s, Leave);
    var most := |s.enqueued| + if InFlight(s.producer) then 1 else 0;
    StaysQuiet(r, left, later, most);
    EnqueuedGrows(r, left, later);
  }

  lemma {:induction false} EnqueuedGrows(r: Request, s: State, actions: seq<Action>)
    requires Exec(r, s, actions).Some?
    ensures s.enqueued <= Exec(r, s, actions).value.enqueued
    decreases |actions|
  {
    if actions != [] {
      EnqueuedGrows(r, Next(r, s, actions[0]), actions[1..]);
    }
  }

  // --- Runs in which an event is late, or lost ---

  /** A client that leaves at once, and an event that is on its way then: it can be dropped. */
  lemma EventCanBeDropped(r: Request)
    requires r.frames != []
    ensures var ran := Exec(r, START, [Pull, Leave, WatchTask, Wake]);
            ran.Some? && ran.value.producer.Pulling? && ran.value.pulled == 1 && ran.value.enqueued == []
  {
    var actions := [Pull, Leave, WatchTask, Wake];
    assert actions[1..] == [Leave, WatchTask, Wake] && actions[1..][1..] == [WatchTask, Wake];
    assert actions[1..][1..][1..] == [Wake] && actions[1..][1..][1..][1..] == [];
  }

  /** And it can be put after the producer was cancelled: its own task outlives the producer. */
  lemma EventCanBeLate(r: Request)
    requires r.frames != []
    ensures var ran := Exec(r, START, [Pull, Leave, CancelAgain, OrphanPut]);
            ran.Some? && ran.value.producer == Cancelled(None) && ran.value.consumer.Gone?
            && ran.value.queue == [Some(r.frames[0].text)] && ran.value.audit == []
  {
    var actions := [Pull, Leave, CancelAgain, OrphanPut];
    assert actions[1..] == [Leave, CancelAgain, OrphanPut] && actions[1..][1..] == [CancelAgain, OrphanPut];
    assert actions[1..][1..][1..] == [OrphanPut] && actions[1..][1..][1..][1..] == [];
  }

  // --- Counters on the way ---

  /** Until the stream is over, the counters are those of the last event it gave. */
  ghost predicate CountersSoFar(r: Request, s: State) {
    (s.producer.Pulling? || s.producer.Offering?) && s.pulled <= |r.frames| ==>
      s.tokens == if s.pulled == 0 then Usage(0, 0, 0, 0) else r.frames[s.pulled - 1].tokens
  }

  lemma CountersStep(r: Request, s: State, a: Action)
    requires Inv(r, s) && CountersSoFar(r, s) && Enabled(r, s, a)
    ensures CountersSoFar(r, Next(r, s, a))
  {
  }

  lemma {:induction false} CountersAlong(r: Request, s: State, actions: seq<Action>)
    requires Inv(r, s) && CountersSoFar(r, s) && Exec(r, s, actions).Some?
    ensures CountersSoFar(r, Exec(r, s, actions).value)
    decreases |actions|
  {
    if actions != [] {
      var one := actions[..1];
      assert one[1..] == [] && Exec(r, s, one) == Some(Next(r, s, actions[0]));
      InvAlong(r, s, one);
      CountersStep(r, s, actions[0]);
      CountersAlong(r, Next(r, s, actions[0]), actions[1..]);
    }
  }

  lemma CountersFollowEvents(r: Request, actions: seq<Action>)
    requires Exec(r, START, actions).Some?
    ensures CountersSoFar(r, Exec(r, START, actions).value)
  {
    Reachable(r, []);
    CountersAlong(r, START, actions);
  }
}
