/** The streaming endpoint's producer and consumer: `_handle_streaming` and `_finalize` of
    src/ttllm/api/messages.py, as a transition system whose steps are the stretches of code
    between two awaits. The two tasks, the put and the disconnect watcher that each
    `queue_event` races, and the client are free to interleave in any order. */
module StreamProtocol {
  import opened Model

  const CAPACITY := 16

  // --- Classifying a provider failure ---

  datatype ProviderError =
    | ServerTool(text: string)
    | UnsupportedContent(text: string)
    | ReadTimeout(text: string)
    | ClientError(code: string, message: Option<string>, text: string)
    | OtherError(text: string)

  /** Status and error type of a known AWS error code. */
  function KnownCode(code: string): Option<(int, string)> {
    match code
    case "ThrottlingException" => Some((529, "overloaded_error"))
    case "ModelTimeoutException" => Some((529, "overloaded_error"))
    case "ModelNotReadyException" => Some((529, "overloaded_error"))
    case "ServiceUnavailableException" => Some((529, "overloaded_error"))
    case "ServiceQuotaExceededException" => Some((529, "overloaded_error"))
    case "AccessDeniedException" => Some((403, "permission_error"))
    case "ResourceNotFoundException" => Some((404, "not_found_error"))
    case "ValidationException" => Some((400, "invalid_request_error"))
    case "ModelErrorException" => Some((500, "api_error"))
    case "ModelStreamErrorException" => Some((500, "api_error"))
    case "InternalServerException" => Some((500, "api_error"))
    case _ => None
  }

  function Classify(e: ProviderError): (int, string, string) {
    match e
    case ServerTool(text) => (501, "not_implemented_error", text)
    case UnsupportedContent(text) => (400, "invalid_request_error", text)
    case ReadTimeout(_) => (529, "overloaded_error", "Model request timed out — try again or use streaming")
    case ClientError(code, message, text) =>
      (match KnownCode(code)
       case Some(known) => (known.0, known.1, message.GetOr(text))
       case None => (500, "api_error", "An internal error occurred"))
    case OtherError(_) => (500, "api_error", "An internal error occurred")
  }

  // --- One request ---

  /** An event the encoder yields, with the provider state's counters once it has. */
  datatype Frame = Frame(text: string, tokens: Usage)

  /** What the provider will do, whatever the client does: its frames; its counters and its
      own recorded error once the stream is over; the exception, if any, that ends the
      stream; and whether building the response of a 200 row, and writing a row, will raise. */
  datatype Request = Request(
    frames: seq<Frame>,
    finalTokens: Usage,
    stateError: Option<ProviderError>,
    raised: Option<ProviderError>,
    responseRaises: bool,
    finalizeRaises: bool)
  {
    /** The error frame the producer makes up when nothing upstream reported the failure. */
    function ErrorFrame(): seq<string> {
      if raised.Some? && stateError.None? then ["error: " + raised.value.text] else []
    }

    /** Everything the producer tries to queue, in order. */
    function Offered(): seq<string> {
      seq(|frames|, i requires 0 <= i < |frames| => frames[i].text) + ErrorFrame()
    }

    function StreamError(): Option<ProviderError> {
      if stateError.Some? then stateError else raised
    }

    /** The producer raises instead of writing its row, if the client had left, or not, when the
        row was decided. */
    predicate Unwritten(left: bool) {
      finalizeRaises || (responseRaises && StreamError().None? && !left)
    }
  }

  datatype Row = Row(tokens: Usage, status: int, error: Option<string>, hasResponse: bool)

  const DISCONNECTED := "Client disconnected during streaming response"

  /** The audit row of a request whose client had left, or not, when it was decided. */
  function RowFor(r: Request, tokens: Usage, left: bool): Row {
    match r.StreamError()
    case Some(e) => Row(tokens, Classify(e).0, Some(e.text), false)
    case None => if left then Row(tokens, 499, Some(DISCONNECTED), false) else Row(tokens, 200, None, true)
  }

  // --- States ---

  datatype Producer =
    | Pulling                                          // awaiting the next frame
    | Offering(event: string, put: bool, seen: bool)   // racing the put against the flag
    | Deciding                                         // the stream is over
    | Writing(row: Row)                                // awaiting the audit write
    | Releasing                                        // awaiting the put of the end marker
    | Finished(failed: bool)
    | Unwinding(orphan: Option<string>)                // cancelled, awaiting the put of the end marker
    | Cancelled(orphan: Option<string>)                // its unfinished put, if any, lives on

  datatype Consumer =
    | Waiting                                          // parked in queue.get(), which found nothing
    | Holding                                          // suspended at its yield
    | Joining                                          // took the end marker
    | Shielded                                         // cancelled, awaiting the producer
    | Closing                                          // closed, awaiting the producer it cancelled
    | Gone

  /** The shared state and both tasks. `queue` holds None for the end marker; `enqueued`,
      `delivered` and `audit` record what was put, handed to the client and written, and
      `closed` that the generator was closed while it was suspended at its yield. */
  datatype State = State(
    producer: Producer, consumer: Consumer, queue: seq<Option<string>>, disconnected: bool, closed: bool,
    pulled: nat, tokens: Usage, enqueued: seq<string>, delivered: seq<string>, audit: seq<Row>)

  const NO_TOKENS := Usage(0, 0, 0, 0)

  const START := State(Pulling, Waiting, [], false, false, 0, NO_TOKENS, [], [], [])

  /** `Leave` is the client's departure as the generator sees it while it waits for an event: a
      cancellation of `queue.get()`. `Close` is the departure it sees at its yield: the
      generator is closed there. A cancelled producer is found suspended, so not while it decides. */
  datatype Action =
    | Pull | PutTask | WatchTask | Wake | Decide | Commit | FailWrite | Release | UnwindPut | OrphanPut
    | Take | Resume | Join | Leave | Unshield | CancelAgain | Close | Gather
  {
    /** The client's own doing, which may never come. */
    predicate IsClients() {
      Leave? || CancelAgain? || Close?
    }

    /** The client's doings that cancel the producer. */
    predicate Cancels() {
      CancelAgain? || Close?
    }
  }

  /** A put has woken the parked getter. The event loop resumes it in its next turn, before
      the producer, which has yet to be woken itself, can put again. */
  predicate Woken(s: State) {
    s.consumer.Waiting? && s.queue != []
  }

  predicate HasRoom(s: State) {
    |s.queue| < CAPACITY && !Woken(s)
  }

  function OrphanOf(p: Producer): Option<string> {
    match p
    case Unwinding(orphan) => orphan
    case Cancelled(orphan) => orphan
    case _ => None
  }

  predicate Enabled(r: Request, s: State, a: Action) {
    match a
    case Pull => s.producer.Pulling? && s.pulled <= |r.frames|
    case PutTask => s.producer.Offering? && !s.producer.put && HasRoom(s)
    case WatchTask => s.producer.Offering? && !s.producer.seen && s.disconnected
    case Wake => s.producer.Offering? && (s.producer.put || s.producer.seen)
    case Decide => s.producer.Deciding?
    case Commit => s.producer.Writing? && !r.finalizeRaises
    case FailWrite => s.producer.Writing? && r.finalizeRaises
    case Release => s.producer.Releasing? && HasRoom(s)
    case UnwindPut => s.producer.Unwinding? && HasRoom(s)
    case OrphanPut => OrphanOf(s.producer).Some? && HasRoom(s)
    case Take => Woken(s)
    case Resume => s.consumer.Holding?
    case Join => s.consumer.Joining? && s.producer.Finished?
    case Leave => s.consumer.Waiting?
    case Unshield => s.consumer.Shielded? && s.producer.Finished?
    case CancelAgain => s.consumer.Shielded? && !s.producer.Finished? && !s.producer.Deciding?
    case Close => s.consumer.Holding? && !s.producer.Deciding?
    case Gather => s.consumer.Closing? && s.producer.Cancelled?
  }

  /** `queue_event`, up to its first await: nothing once the client has left. */
  function Offer(s: State, event: string, otherwise: Producer): State {
    s.(producer := if s.disconnected then otherwise else Offering(event, false, false))
  }

  /** The producer's `finally`: the end marker is put only for a client still there. */
  function Finally(s: State, failed: bool): State {
    s.(producer := if s.disconnected then Finished(failed) else Releasing)
  }

  /** `queue.get()` on a queue that is not empty: it returns without suspending. */
  function Got(s: State): State
    requires s.queue != []
  {
    match s.queue[0]
    case Some(event) => s.(queue := s.queue[1..], delivered := s.delivered + [event], consumer := Holding)
    case None => s.(queue := s.queue[1..], consumer := Joining)
  }

  /** The put that a cancelled `queue_event` leaves behind. */
  function LeftBehind(p: Producer): Option<string> {
    if p.Offering? && !p.put then Some(p.event) else None
  }

  /** `producer_task.cancel()` with the flag not set: the cancellation runs into the
      producer's `finally`, which puts the end marker; in that very put it ends it. */
  function CancelUnflagged(p: Producer): Producer {
    if p.Releasing? then Cancelled(None) else Unwinding(LeftBehind(p))
  }

  function Next(r: Request, s: State, a: Action): State
    requires Enabled(r, s, a)
  {
    match a
    case Pull =>
      if s.pulled < |r.frames| then
        var frame := r.frames[s.pulled];
        Offer(s.(pulled := s.pulled + 1, tokens := frame.tokens), frame.text, Pulling)
      else
        var over := s.(tokens := r.finalTokens);
        if r.ErrorFrame() == [] then over.(producer := Deciding)
        else Offer(over.(pulled := s.pulled + 1), r.ErrorFrame()[0], Deciding)
    case PutTask =>
      var event := s.producer.event;
      s.(queue := s.queue + [Some(event)], enqueued := s.enqueued + [event],
         producer := s.producer.(put := true))
    case WatchTask => s.(producer := s.producer.(seen := true))
    case Wake => s.(producer := if s.pulled > |r.frames| then Deciding else Pulling)
    case Decide =>
      var row := RowFor(r, s.tokens, s.disconnected);
      if row.hasResponse && r.responseRaises then Finally(s, true) else s.(producer := Writing(row))
    case Commit => Finally(s.(audit := s.audit + [s.producer.row]), false)
    case FailWrite => Finally(s, true)
    case Release => s.(queue := s.queue + [None], producer := Finished(s.audit == []))
    case UnwindPut => s.(queue := s.queue + [None], producer := Cancelled(s.producer.orphan))
    case OrphanPut =>
      var event := OrphanOf(s.producer).value;
      s.(queue := s.queue + [Some(event)], enqueued := s.enqueued + [event],
         producer := if s.producer.Unwinding? then Unwinding(None) else Cancelled(None))
    case Take => Got(s)
    case Resume => if s.queue == [] then s.(consumer := Waiting) else Got(s)
    case Join => s.(consumer := Gone)
    case Leave => s.(consumer := Shielded, disconnected := true)
    case Unshield => s.(consumer := Gone)
    case CancelAgain => s.(consumer := Gone, producer := Cancelled(LeftBehind(s.producer)))
    case Close =>
      if s.producer.Finished? then s.(consumer := Gone, closed := true)
      else s.(consumer := Closing, closed := true, producer := CancelUnflagged(s.producer))
    case Gather => s.(consumer := Gone)
  }

  /** The state a schedule leads to; None when it takes a step that is not enabled. */
  function Exec(r: Request, s: State, actions: seq<Action>): Option<State>
    decreases |actions|
  {
    if actions == [] then Some(s)
    else if Enabled(r, s, actions[0]) then Exec(r, Next(r, s, actions[0]), actions[1..])
    else None
  }

  // --- The invariant ---

  function Events(queue: seq<Option<string>>): seq<string> {
    if queue == [] then []
    else (if queue[0].Some? then [queue[0].value] else []) + Events(queue[1..])
  }

  /** An event that is still on its way into the queue. */
  predicate InFlight(p: Producer) {
    (p.Offering? && !p.put) || OrphanOf(p).Some?
  }

  function FlyingEvent(p: Producer): string
    requires InFlight(p)
  {
    if p.Offering? then p.event else OrphanOf(p).value
  }

  ghost predicate QueueInv(s: State) {
    && |s.queue| <= CAPACITY
    && s.enqueued == s.delivered + Events(s.queue)
    && (forall i :: 0 <= i < |s.queue| && s.queue[i].None? ==>
          s.producer.Cancelled? || (i == |s.queue| - 1 && s.producer.Finished?))
    && (s.consumer.Joining? ==> s.producer.Finished? && s.queue == [])
  }

  /** Nothing is skipped before the client leaves, nothing is queued out of order after. */
  ghost predicate OrderInv(r: Request, s: State) {
    var offered := r.Offered();
    && s.pulled <= |offered|
    && s.enqueued <= offered
    && (InFlight(s.producer) ==>
          && |s.enqueued| + 1 == s.pulled
          && offered[|s.enqueued|] == FlyingEvent(s.producer))
    && (s.producer.Offering? && s.producer.put ==> |s.enqueued| == s.pulled)
    && |s.enqueued| <= s.pulled
    && (!s.disconnected && !InFlight(s.producer) ==> |s.enqueued| == s.pulled)
  }

  ghost predicate Drained(r: Request, s: State) {
    s.pulled == |r.Offered()| && s.tokens == r.finalTokens
  }

  ghost predicate ProducerInv(r: Request, s: State) {
    match s.producer
    case Pulling => s.pulled <= |r.frames| && s.audit == []
    case Offering(_, _, seen) =>
      && s.audit == []
      && (s.pulled > |r.frames| ==> Drained(r, s))
      && (seen ==> s.disconnected)
    case Deciding => Drained(r, s) && s.audit == []
    case Writing(row) => Drained(r, s) && s.audit == [] && Decided(r, s, row)
    case Releasing => Drained(r, s) && AuditDone(r, s)
    case Finished(failed) => Drained(r, s) && AuditDone(r, s) && failed == (s.audit == [])
    case Unwinding(_) => s.audit == []
    case Cancelled(_) =>
      && (s.audit != [] ==> Drained(r, s) && AuditDone(r, s))
  }

  /** The row is the one for the final counters; 499 needs a client that did leave. */
  ghost predicate Decided(r: Request, s: State, row: Row) {
    || (row == RowFor(r, r.finalTokens, false) && !(row.hasResponse && r.responseRaises))
    || (s.disconnected && row == RowFor(r, r.finalTokens, true))
  }

  ghost predicate AuditDone(r: Request, s: State) {
    if s.audit == [] then r.Unwritten(false)
    else |s.audit| == 1 && !r.finalizeRaises && Decided(r, s, s.audit[0])
  }

  ghost predicate ConsumerInv(s: State) {
    && (s.disconnected <==> s.consumer.Shielded? || (s.consumer.Gone? && s.disconnected))
    && (s.closed <==> s.consumer.Closing? || (s.consumer.Gone? && s.closed))
    && (s.consumer.Gone? ==> s.producer.Finished? || s.producer.Cancelled?)
    && (s.consumer.Gone? && s.producer.Cancelled? ==> s.disconnected || s.closed)
    && (s.producer.Cancelled? ==> s.consumer.Gone? || s.consumer.Closing?)
    && (s.consumer.Closing? ==> (s.producer.Unwinding? || s.producer.Cancelled?) && s.delivered != [])
    && (s.producer.Unwinding? ==> s.consumer.Closing?)
    && (s.consumer.Holding? ==> s.delivered != [])
    && (s.producer.Finished? && !s.disconnected && !s.consumer.Joining? && !s.consumer.Gone? ==>
          s.queue != [] && s.queue[|s.queue| - 1].None?)
    && (s.producer.Finished? && !s.disconnected && !s.closed && s.consumer.Gone? ==> s.queue == [])
    && (s.consumer.Waiting? ==> |s.queue| <= 1)
    && (s.consumer.Shielded? && s.producer.Releasing? ==> |s.queue| <= 1)
  }

  ghost predicate Inv(r: Request, s: State) {
    QueueInv(s) && OrderInv(r, s) && ProducerInv(r, s) && ConsumerInv(s)
  }

  lemma {:induction false} EventsAppend(queue: seq<Option<string>>, last: Option<string>)
    ensures Events(queue + [last]) == Events(queue) + (if last.Some? then [last.value] else [])
  {
    var longer := queue + [last];
    if queue == [] {
      assert longer == [last] && longer[1..] == [];
    } else {
      EventsAppend(queue[1..], last);
      assert longer[0] == queue[0] && longer[1..] == queue[1..] + [last];
    }
  }

  lemma GotKeepsQueue(s: State)
    requires QueueInv(s) && s.queue != [] && !s.producer.Cancelled?
    ensures QueueInv(Got(s))
  {
    var s' := Got(s);
    assert s.queue[0].Some? ==> s.delivered + Events(s.queue) == s'.delivered + Events(s'.queue);
    assert forall i :: 0 <= i < |s'.queue| ==> s'.queue[i] == s.queue[i + 1];
  }

  predicate Puts(a: Action) {
    a.PutTask? || a.OrphanPut? || a.Release? || a.UnwindPut?
  }

  lemma PutStep(r: Request, s: State, a: Action)
    requires Inv(r, s) && Enabled(r, s, a) && Puts(a)
    ensures QueueInv(Next(r, s, a))
  {
    var s' := Next(r, s, a);
    EventsAppend(s.queue, s'.queue[|s.queue|]);
    assert s'.queue == s.queue + [s'.queue[|s.queue|]];
  }

  lemma GetStep(r: Request, s: State, a: Action)
    requires Inv(r, s) && Enabled(r, s, a) && (a.Take? || a.Resume?)
    ensures QueueInv(Next(r, s, a))
  {
    if s.queue != [] {
      GotKeepsQueue(s);
    }
  }

  lemma OtherStep(r: Request, s: State, a: Action)
    requires Inv(r, s) && Enabled(r, s, a) && !Puts(a) && !a.Take? && !a.Resume?
    ensures QueueInv(Next(r, s, a))
  {
  }

  lemma QueueStep(r: Request, s: State, a: Action)
    requires Inv(r, s) && Enabled(r, s, a)
    ensures QueueInv(Next(r, s, a))
  {
    if Puts(a) {
      PutStep(r, s, a);
    } else if a.Take? || a.Resume? {
      GetStep(r, s, a);
    } else {
      OtherStep(r, s, a);
    }
  }

  lemma OrderStep(r: Request, s: State, a: Action)
    requires Inv(r, s) && Enabled(r, s, a)
    ensures OrderInv(r, Next(r, s, a))
  {
  }

  lemma ProducerStep(r: Request, s: State, a: Action)
    requires Inv(r, s) && Enabled(r, s, a)
    ensures ProducerInv(r, Next(r, s, a))
  {
  }

  lemma ConsumerStep(r: Request, s: State, a: Action)
    requires Inv(r, s) && Enabled(r, s, a)
    ensures ConsumerInv(Next(r, s, a))
  {
  }

  lemma {:induction false} InvAlong(r: Request, s: State, actions: seq<Action>)
    requires Inv(r, s)
    ensures Exec(r, s, actions).Some? ==> Inv(r, Exec(r, s, actions).value)
    decreases |actions|
  {
    if actions != [] && Enabled(r, s, actions[0]) {
      QueueStep(r, s, actions[0]);
      OrderStep(r, s, actions[0]);
      ProducerStep(r, s, actions[0]);
      ConsumerStep(r, s, actions[0]);
      InvAlong(r, Next(r, s, actions[0]), actions[1..]);
    }
  }

  lemma Reachable(r: Request, actions: seq<Action>)
    ensures Exec(r, START, actions).Some? ==> Inv(r, Exec(r, START, actions).value)
  {
    InvAlong(r, START, actions);
  }

  // --- What holds in every run ---

  /** In every reachable state at most one audit row has been written, and only after the
      provider's stream was drained to its end. It carries the stream's final counters; its
      status is the classified error, else 499 with the client gone, else 200, and only a
      200 row carries the response. */
  lemma AuditRow(r: Request, actions: seq<Action>)
    requires Exec(r, START, actions).Some?
    ensures var s := Exec(r, START, actions).value;
            && |s.audit| <= 1
            && (s.audit != [] ==>
                  var row := s.audit[0];
                  && s.pulled == |r.Offered()|
                  && row.tokens == r.finalTokens
                  && match r.StreamError() {
                       case Some(e) => row.status == Classify(e).0 && row.error == Some(e.text)
                       case None =>
                         && (row.status == 200 || row.status == 499)
                         && (row.status == 499 ==> s.disconnected)
                     }
                  && (row.hasResponse <==> row.status == 200 && r.StreamError().None?))
            && (s.producer.Finished? ==> |s.audit| == if s.producer.failed then 0 else 1)
            && (s.producer.Finished? && s.producer.failed ==> r.Unwritten(false))
            && (s.audit != [] ==> !r.Unwritten(s.disconnected))
  {
    Reachable(r, actions);
  }

  /** From the decision on, the row can only be this one. */
  ghost predicate Settled(s: State, row: Row) {
    && !s.producer.Pulling? && !s.producer.Offering? && !s.producer.Deciding?
    && (s.producer.Writing? ==> s.producer.row == row && s.audit == [])
    && (s.audit == [] || s.audit == [row])
  }

  lemma {:induction false} StaysSettled(r: Request, s: State, row: Row, actions: seq<Action>)
    requires Settled(s, row) && Exec(r, s, actions).Some?
    ensures Settled(Exec(r, s, actions).value, row)
    decreases |actions|
  {
    if actions != [] {
      StaysSettled(r, Next(r, s, actions[0]), row, actions[1..]);
    }
  }

  /** The row of any request, in full. */
  lemma RowOfRequest(r: Request, actions: seq<Action>)
    requires Exec(r, START, actions).Some? && Exec(r, START, actions).value.audit != []
    ensures var s := Exec(r, START, actions).value;
            && ((s.audit[0] == RowFor(r, r.finalTokens, false) && !(s.audit[0].hasResponse && r.responseRaises))
                || (s.disconnected && s.audit[0] == RowFor(r, r.finalTokens, true)))
            && (s.consumer.Gone? && !s.disconnected && !s.closed ==> s.delivered == r.Offered())
  {
    Reachable(r, actions);
    Delivery(r, actions);
  }

  /** The producer has raised and will not write any more. */
  ghost predicate Spent(s: State) {
    && !s.producer.Pulling? && !s.producer.Offering? && !s.producer.Deciding? && !s.producer.Writing?
    && s.audit == []
  }

  lemma {:induction false} StaysSpent(r: Request, s: State, actions: seq<Action>)
    requires Spent(s) && Exec(r, s, actions).Some?
    ensures Spent(Exec(r, s, actions).value)
    decreases |actions|
  {
    if actions != [] {
      StaysSpent(r, Next(r, s, actions[0]), actions[1..]);
    }
  }

  /** The status follows the disconnect flag as it stood when the stream had been drained:
      a client that leaves during the write itself no longer changes the row. */
  lemma FlagAtDecision(r: Request, before: seq<Action>, later: seq<Action>)
    requires Exec(r, START, before).Some? && Exec(r, START, before).value.producer.Deciding?
    requires Exec(r, START, before + [Decide] + later).Some?
    ensures var left := Exec(r, START, before).value.disconnected;
            var audit := Exec(r, START, before + [Decide] + later).value.audit;
            audit == [] || (audit == [RowFor(r, r.finalTokens, left)] && !r.Unwritten(left))
  {
    var s := Exec(r, START, before).value;
    Reachable(r, before);
    ExecStep(r, before, Decide);
    ExecAppend(r, START, before + [Decide], later);
    if r.finalizeRaises {
      RaisingWritesNothing(r, before + [Decide] + later);
    } else if r.Unwritten(s.disconnected) {
      StaysSpent(r, Next(r, s, Decide), later);
    } else {
      StaysSettled(r, Next(r, s, Decide), RowFor(r, r.finalTokens, s.disconnected), later);
    }
  }

  /** When the client leaves does not reach the row's figures: over all interleavings and
      all disconnect times, two rows of one request differ at most in 200 against 499, and
      not at all when the provider failed or the client stayed in both. */
  lemma AuditNonInterference(r: Request, one: seq<Action>, other: seq<Action>)
    requires Exec(r, START, one).Some? && Exec(r, START, one).value.audit != []
    requires Exec(r, START, other).Some? && Exec(r, START, other).value.audit != []
    ensures var s, t := Exec(r, START, one).value, Exec(r, START, other).value;
            && s.audit[0].tokens == t.audit[0].tokens
            && (r.StreamError().Some? || (!s.disconnected && !t.disconnected) ==> s.audit == t.audit)
            && (s.audit != t.audit ==> {s.audit[0].status, t.audit[0].status} == {200, 499})
  {
    Reachable(r, one);
    Reachable(r, other);
  }

  /** In every reachable state the queue is bounded, what was queued is an in-order prefix
      of what was offered, and the client holds a prefix of that. Without a departure
      nothing is dropped, so a client that stays to the end has received everything. */
  lemma Delivery(r: Request, actions: seq<Action>)
    requires Exec(r, START, actions).Some?
    ensures var s := Exec(r, START, actions).value;
            && |s.queue| <= 16
            && s.delivered <= s.enqueued <= r.Offered()
            && (!s.disconnected && !s.closed ==> s.pulled - 1 <= |s.enqueued| <= s.pulled)
            && (s.consumer.Gone? && !s.disconnected && !s.closed ==> s.delivered == r.Offered())
  {
    Reachable(r, actions);
    var s := Exec(r, START, actions).value;
    if s.consumer.Gone? && !s.disconnected && !s.closed {
      assert Events(s.queue) == [];
    }
  }

  /** A cancellation that finds the generator waiting for an event finds at most one event
      that it has been woken for and not yet taken. */
  lemma LeavingFindsOneEvent(r: Request, actions: seq<Action>)
    requires Exec(r, START, actions).Some? && Enabled(r, Exec(r, START, actions).value, Leave)
    ensures |Exec(r, START, actions).value.queue| <= 1
  {
    Reachable(r, actions);
  }

  // --- Progress ---

  function ProducerWork(p: Producer): nat {
    match p
    case Pulling => 10
    case Offering(_, put, seen) => 11 + (if put then 0 else 4) + (if seen then 0 else 1)
    case Deciding => 8
    case Writing(_) => 7
    case Releasing => 6
    case Finished(_) => 0
    case Unwinding(orphan) => 5 + (if orphan.Some? then 4 else 0)
    case Cancelled(orphan) => if orphan.Some? then 4 else 0
  }

  function ConsumerWork(c: Consumer): nat {
    match c
    case Waiting => 3
    case Holding => 4
    case Joining => 3
    case Shielded => 2
    case Closing => 1
    case Gone => 0
  }

  function Work(r: Request, s: State): int {
    10 * (|r.Offered()| - s.pulled) + ProducerWork(s.producer) + ConsumerWork(s.consumer) + 3 * |s.queue|
  }

  lemma StepDoesWork(r: Request, s: State, a: Action)
    requires Inv(r, s) && Enabled(r, s, a)
    ensures Work(r, Next(r, s, a)) < Work(r, s)
  {
  }

  lemma {:induction false} RunDoesWork(r: Request, s: State, actions: seq<Action>)
    requires Inv(r, s) && Exec(r, s, actions).Some?
    ensures |actions| + Work(r, Exec(r, s, actions).value) <= Work(r, s)
    decreases |actions|
  {
    if actions != [] {
      InvAlong(r, s, actions[..1]);
      assert Exec(r, s, actions[..1]) == Some(Next(r, s, actions[0])) by {
        assert actions[..1][1..] == [];
      }
      StepDoesWork(r, s, actions[0]);
      RunDoesWork(r, Next(r, s, actions[0]), actions[1..]);
    }
  }

  /** Neither task can take a step, whatever the client might do. */
  ghost predicate Stuck(r: Request, s: State) {
    forall a: Action :: !a.IsClients() ==> !Enabled(r, s, a)
  }

  /** The one way to get stuck before the end: the generator was closed at its yield, over a
      full queue, and waits for a cancelled producer that waits for room. */
  predicate Hung(s: State) {
    s.consumer.Closing? && s.producer.Unwinding? && |s.queue| == CAPACITY
  }

  /** A producer that cannot move has ended or waits for room in a full queue. */
  lemma StuckProducer(r: Request, s: State)
    requires Inv(r, s) && Stuck(r, s)
    ensures s.producer.Finished? || s.producer.Cancelled? || |s.queue| == CAPACITY
    ensures s.producer.Offering? ==> !s.disconnected
    ensures !s.producer.Pulling? && !s.producer.Deciding? && !s.producer.Writing?
  {
    assert !Enabled(r, s, Take);
    assert !Enabled(r, s, Pull) && !Enabled(r, s, PutTask) && !Enabled(r, s, WatchTask) && !Enabled(r, s, Wake);
    assert !Enabled(r, s, Decide) && !Enabled(r, s, Commit) && !Enabled(r, s, FailWrite) && !Enabled(r, s, Release);
    assert !Enabled(r, s, UnwindPut);
  }

  lemma StuckStates(r: Request, s: State)
    requires Inv(r, s) && Stuck(r, s)
    ensures (s.consumer.Gone? && (s.producer.Finished? || s.producer.Cancelled?)) || Hung(s)
  {
    StuckProducer(r, s);
    assert !Enabled(r, s, Gather);
    assert !Enabled(r, s, Take) && !Enabled(r, s, Resume) && !Enabled(r, s, Join) && !Enabled(r, s, Unshield);
  }

  /** No run goes on forever: a schedule is at most ten steps per event and a few more. One
      that has stopped with the client's choices alone left open has ended, or hangs in the
      one way there is. A producer that came to its end has written exactly one row, unless
      the write raised. */
  lemma Progress(r: Request, actions: seq<Action>)
    requires Exec(r, START, actions).Some?
    ensures |actions| <= 10 * |r.Offered()| + 13
    ensures var s := Exec(r, START, actions).value;
            Stuck(r, s) ==>
              && ((s.consumer.Gone? && (s.producer.Finished? || s.producer.Cancelled?)) || Hung(s))
              && (s.producer.Finished? ==> |s.audit| == if s.producer.failed then 0 else 1)
  {
    var s := Exec(r, START, actions).value;
    Reachable(r, actions);
    RunDoesWork(r, START, actions);
    if Stuck(r, s) {
      StuckStates(r, s);
    }
  }

  lemma {:induction false} OnlyClientsCancel(r: Request, s: State, actions: seq<Action>)
    requires !s.closed && !s.producer.Unwinding? && !s.producer.Cancelled?
    requires forall i :: 0 <= i < |actions| ==> !actions[i].Cancels()
    requires Exec(r, s, actions).Some?
    ensures var t := Exec(r, s, actions).value;
            !t.closed && !t.producer.Unwinding? && !t.producer.Cancelled?
    decreases |actions|
  {
    if actions != [] {
      assert !actions[0].Cancels();
      OnlyClientsCancel(r, Next(r, s, actions[0]), actions[1..]);
    }
  }

  /** While nobody cancels the producer there is no deadlock, whenever the client leaves: a run
      that has stopped has come to its very end, the end marker included, with both tasks
      done and the row written. */
  lemma UncancelledRunsEnd(r: Request, actions: seq<Action>)
    requires Exec(r, START, actions).Some?
    requires forall i :: 0 <= i < |actions| ==> !actions[i].Cancels()
    ensures var s := Exec(r, START, actions).value;
            Stuck(r, s) ==>
              && s.consumer.Gone? && s.producer.Finished?
              && |s.audit| == (if s.producer.failed then 0 else 1)
              && (r.Unwritten(s.disconnected) ==> s.producer.failed)
              && (s.producer.failed ==> r.Unwritten(false))
              && (!s.disconnected ==> s.delivered == r.Offered())
  {
    var s := Exec(r, START, actions).value;
    Progress(r, actions);
    OnlyClientsCancel(r, START, actions);
    Delivery(r, actions);
    AuditRow(r, actions);
  }

  /** From every reachable state the two tasks can go on, without the client, until they stop. */
  lemma {:induction false} RunsOut(r: Request, s: State) returns (actions: seq<Action>)
    requires Inv(r, s)
    ensures forall i :: 0 <= i < |actions| ==> !actions[i].IsClients()
    ensures Exec(r, s, actions).Some? && Stuck(r, Exec(r, s, actions).value)
    decreases Work(r, s)
  {
    if a: Action :| !a.IsClients() && Enabled(r, s, a) {
      QueueStep(r, s, a);
      OrderStep(r, s, a);
      ProducerStep(r, s, a);
      ConsumerStep(r, s, a);
      StepDoesWork(r, s, a);
      var later := RunsOut(r, Next(r, s, a));
      actions := [a] + later;
      assert actions[1..] == later;
    } else {
      actions := [];
    }
  }

  lemma {:induction false} OnlyClientsLeave(r: Request, s: State, actions: seq<Action>)
    requires !s.disconnected && Exec(r, s, actions).Some?
    requires forall i :: 0 <= i < |actions| ==> !actions[i].IsClients()
    ensures !Exec(r, s, actions).value.disconnected
    decreases |actions|
  {
    if actions != [] {
      assert !actions[0].IsClients();
      OnlyClientsLeave(r, Next(r, s, actions[0]), actions[1..]);
    }
  }

  /** A client that stays is served in full, whatever then becomes of the row. */
  lemma SomeClientStays(r: Request) returns (actions: seq<Action>)
    ensures Exec(r, START, actions).Some?
    ensures var s := Exec(r, START, actions).value;
            && s.consumer.Gone? && s.producer.Finished? && !s.disconnected && s.delivered == r.Offered()
            && |s.audit| == if r.Unwritten(false) then 0 else 1
  {
    Reachable(r, []);
    actions := RunsOut(r, START);
    UncancelledRunsEnd(r, actions);
    OnlyClientsLeave(r, START, actions);
  }

  /** Once it writes its row, a producer that nobody cancels goes on until it is written. */
  lemma {:induction false} WritingGoesOn(r: Request, s: State, actions: seq<Action>)
    requires s.producer.Writing? || s.audit != []
    requires !r.finalizeRaises && forall i :: 0 <= i < |actions| ==> !actions[i].Cancels()
    requires Exec(r, s, actions).Some?
    ensures var t := Exec(r, s, actions).value; t.producer.Writing? || t.audit != []
    decreases |actions|
  {
    if actions != [] {
      assert !actions[0].Cancels();
      WritingGoesOn(r, Next(r, s, actions[0]), actions[1..]);
    }
  }

  /** The whole outcome of a request whose producer nobody cancels, once all has come to a stop:
      the flag as it stood at the decision fixes the row, or that there is none. */
  lemma DecisionFixesTheRow(r: Request, before: seq<Action>, later: seq<Action>)
    requires Exec(r, START, before).Some? && Exec(r, START, before).value.producer.Deciding?
    requires var all := before + [Decide] + later;
             && (forall i :: 0 <= i < |all| ==> !all[i].Cancels())
             && Exec(r, START, all).Some? && Stuck(r, Exec(r, START, all).value)
    ensures var left := Exec(r, START, before).value.disconnected;
            Exec(r, START, before + [Decide] + later).value.audit
            == if r.Unwritten(left) then [] else [RowFor(r, r.finalTokens, left)]
  {
    var s, all := Exec(r, START, before).value, before + [Decide] + later;
    FlagAtDecision(r, before, later);
    if !r.Unwritten(s.disconnected) {
      Reachable(r, before);
      ExecStep(r, before, Decide);
      ExecAppend(r, START, before + [Decide], later);
      assert forall i :: 0 <= i < |later| ==> later[i] == all[|before| + 1 + i];
      WritingGoesOn(r, Next(r, s, Decide), later);
      UncancelledRunsEnd(r, all);
    }
  }

  // --- A producer that is cancelled ---

  /** The producer has been cancelled before it wrote a row. */
  predicate Lost(s: State) {
    (s.producer.Unwinding? || s.producer.Cancelled?) && s.audit == []
  }

  lemma {:induction false} StaysLost(r: Request, s: State, actions: seq<Action>)
    requires Lost(s) && Exec(r, s, actions).Some?
    ensures Lost(Exec(r, s, actions).value)
    decreases |actions|
  {
    if actions != [] {
      StaysLost(r, Next(r, s, actions[0]), actions[1..]);
    }
  }

  /** Once the producer has been cancelled, by a generator that is closed at its yield or that is
      cancelled a second time while it awaits the shielded producer, nothing more is written. */
  lemma CancellingLosesTheRow(r: Request, before: seq<Action>, c: Action, later: seq<Action>)
    requires c.Cancels() && Exec(r, START, before).Some? && Exec(r, START, before + [c] + later).Some?
    ensures Exec(r, START, before + [c] + later).value.audit == Exec(r, START, before).value.audit
  {
    var s := Exec(r, START, before).value;
    ExecSplit(r, START, before + [c], later);
    ExecSplit(r, START, before, [c]);
    assert [c][1..] == [];
    Reachable(r, before);
    var t := Next(r, s, c);
    if Lost(t) {
      StaysLost(r, t, later);
    } else {
      StaysWritten(r, t, later);
    }
  }

  lemma {:induction false} StaysWritten(r: Request, s: State, actions: seq<Action>)
    requires s.producer.Finished? || s.producer.Cancelled?
    requires (s.consumer.Closing? || s.consumer.Gone?) && Exec(r, s, actions).Some?
    ensures Exec(r, s, actions).value.audit == s.audit
    decreases |actions|
  {
    if actions != [] {
      StaysWritten(r, Next(r, s, actions[0]), actions[1..]);
    }
  }

  /** At this step the producer is cancelled and there is no row yet. */
  predicate CancelledFirst(r: Request, actions: seq<Action>, k: nat)
    requires k < |actions|
  {
    && actions[k].Cancels() && Exec(r, START, actions[..k]).Some?
    && Exec(r, START, actions[..k]).value.audit == []
  }

  lemma {:induction false} RowsStay(r: Request, s: State, actions: seq<Action>)
    requires Exec(r, s, actions).Some? && s.audit != []
    ensures Exec(r, s, actions).value.audit != []
    decreases |actions|
  {
    if actions != [] {
      RowsStay(r, Next(r, s, actions[0]), actions[1..]);
    }
  }

  lemma CancelledFirstHasNoRow(r: Request, actions: seq<Action>, k: nat)
    requires Exec(r, START, actions).Some? && k < |actions| && CancelledFirst(r, actions, k)
    ensures Exec(r, START, actions).value.audit == []
  {
    assert actions == actions[..k] + [actions[k]] + actions[k + 1..];
    CancellingLosesTheRow(r, actions[..k], actions[k], actions[k + 1..]);
  }

  lemma CancelledLaterHasARow(r: Request, actions: seq<Action>, k: nat)
    requires Exec(r, START, actions).Some? && k < |actions|
    requires actions[k].Cancels() && !CancelledFirst(r, actions, k)
    ensures Exec(r, START, actions).value.audit != []
  {
    assert actions == actions[..k] + actions[k..];
    ExecSplit(r, START, actions[..k], actions[k..]);
    RowsStay(r, Exec(r, START, actions[..k]).value, actions[k..]);
  }

  lemma RaisingWritesNothing(r: Request, actions: seq<Action>)
    requires Exec(r, START, actions).Some? && r.finalizeRaises
    ensures Exec(r, START, actions).value.audit == []
  {
    Reachable(r, actions);
  }

  /** When all has come to a stop, a request is without a row if and only if the producer raised
      instead or was cancelled before it had written one. */
  lemma NoRowExactlyWhenCancelledFirst(r: Request, actions: seq<Action>)
    requires Exec(r, START, actions).Some? && Stuck(r, Exec(r, START, actions).value)
    ensures Exec(r, START, actions).value.audit == []
            <==> || Exec(r, START, actions).value.producer == Finished(true)
                 || exists k :: 0 <= k < |actions| && CancelledFirst(r, actions, k)
  {
    if Exec(r, START, actions).value.producer == Finished(true) {
      AuditRow(r, actions);
    } else if k :| 0 <= k < |actions| && CancelledFirst(r, actions, k) {
      CancelledFirstHasNoRow(r, actions, k);
    } else if k :| 0 <= k < |actions| && actions[k].Cancels() {
      CancelledLaterHasARow(r, actions, k);
    } else {
      UncancelledRunsEnd(r, actions);
    }
  }

  /** For example: the generator is closed while the first event is being sent, and there is no row,
      whatever happens later. */
  lemma ClosedEarlyLeavesNoRow(r: Request, later: seq<Action>)
    requires r.frames != []
    ensures Exec(r, START, [Pull, PutTask, Take] + [Close]).Some?
    ensures Exec(r, START, [Pull, PutTask, Take] + [Close] + later).Some? ==>
              Exec(r, START, [Pull, PutTask, Take] + [Close] + later).value.audit == []
  {
    var before := [Pull, PutTask, Take];
    assert before[1..] == [PutTask, Take] && before[1..][1..] == [Take] && before[1..][1..][1..] == [];
    assert [Close][1..] == [];
    ExecAppend(r, START, before, [Close]);
    if Exec(r, START, before + [Close] + later).Some? {
      CancellingLosesTheRow(r, before, Close, later);
    }
  }

  /** And a second cancellation, while the generator that was cancelled first awaits the producer. */
  lemma CancelledTwiceLeavesNoRow(r: Request, later: seq<Action>)
    ensures Exec(r, START, [Leave] + [CancelAgain]).Some?
    ensures Exec(r, START, [Leave] + [CancelAgain] + later).Some? ==>
              Exec(r, START, [Leave] + [CancelAgain] + later).value.audit == []
  {
    assert [Leave][1..] == [] && [CancelAgain][1..] == [];
    ExecAppend(r, START, [Leave], [CancelAgain]);
    if Exec(r, START, [Leave] + [CancelAgain] + later).Some? {
      CancellingLosesTheRow(r, [Leave], CancelAgain, later);
    }
  }

  // --- Schedules ---

  lemma {:induction false} ExecAppend(r: Request, s: State, a: seq<Action>, b: seq<Action>)
    requires Exec(r, s, a).Some?
    ensures Exec(r, s, a + b) == Exec(r, Exec(r, s, a).value, b)
    decreases |a|
  {
    if a == [] {
      assert a + b == b;
    } else {
      assert (a + b)[0] == a[0] && (a + b)[1..] == a[1..] + b;
      ExecAppend(r, Next(r, s, a[0]), a[1..], b);
    }
  }

  lemma {:induction false} ExecSplit(r: Request, s: State, a: seq<Action>, b: seq<Action>)
    requires Exec(r, s, a + b).Some?
    ensures Exec(r, s, a).Some? && Exec(r, s, a + b) == Exec(r, Exec(r, s, a).value, b)
    decreases |a|
  {
    if a == [] {
      assert a + b == b;
    } else {
      assert (a + b)[0] == a[0] && (a + b)[1..] == a[1..] + b;
      ExecSplit(r, Next(r, s, a[0]), a[1..], b);
    }
  }

  /** One more step at the end of a schedule. */
  lemma ExecStep(r: Request, actions: seq<Action>, a: Action)
    requires Exec(r, START, actions).Some? && Enabled(r, Exec(r, START, actions).value, a)
    ensures Exec(r, START, actions + [a]) == Some(Next(r, Exec(r, START, actions).value, a))
  {
    ExecAppend(r, START, actions, [a]);
    assert [a][1..] == [];
  }

  // --- Exactly when a closed generator can hang ---

  /** Between frames, with a client that has not left and is parked or holds an event. */
  ghost predicate Between(r: Request, actions: seq<Action>, pulled: nat, queued: nat, holding: bool) {
    && Exec(r, START, actions).Some?
    && var s := Exec(r, START, actions).value;
    && (if holding then s.consumer.Holding? else s.consumer.Waiting? && queued == 0)
    && !s.disconnected && !s.closed
    && s.pulled == pulled && |s.queue| == queued
    && (s.producer.Pulling? || (s.producer.Deciding? && pulled == |r.Offered()| && r.StreamError().Some?))
    && (s.producer.Pulling? && pulled == |r.Offered()| ==> r.ErrorFrame() == [])
  }

  /** Offering one more event, which a parked client takes, to ask for another or to hold it,
      and which a client that holds one leaves in the queue. */
  lemma OfferOne(r: Request, actions: seq<Action>, pulled: nat, queued: nat, holding: bool, hold: bool)
    returns (longer: seq<Action>)
    requires Between(r, actions, pulled, queued, holding)
    requires pulled < |r.Offered()| && queued < CAPACITY && (holding ==> hold)
    ensures Between(r, longer, pulled + 1, if holding then queued + 1 else 0, hold)
  {
    Reachable(r, actions);
    ExecStep(r, actions, Pull);
    longer := actions + [Pull];
    ExecStep(r, longer, PutTask);
    longer := longer + [PutTask];
    if !holding {
      ExecStep(r, longer, Take);
      longer := longer + [Take];
      if !hold {
        ExecStep(r, longer, Resume);
        longer := longer + [Resume];
      }
    }
    ExecStep(r, longer, Wake);
    longer := longer + [Wake];
  }

  /** A client that takes all events up to some point, holds the next and leaves the rest. */
  lemma {:induction false} OfferMany(r: Request, pulled: nat, queued: nat, holding: bool) returns (actions: seq<Action>)
    requires queued <= CAPACITY && pulled <= |r.Offered()|
    requires if holding then queued < pulled else queued == 0
    ensures Between(r, actions, pulled, queued, holding)
    decreases pulled
  {
    if pulled == 0 {
      actions := [];
    } else if queued > 0 {
      var fewer := OfferMany(r, pulled - 1, queued - 1, true);
      actions := OfferOne(r, fewer, pulled - 1, queued - 1, true, true);
    } else {
      var fewer := OfferMany(r, pulled - 1, 0, false);
      actions := OfferOne(r, fewer, pulled - 1, 0, false, holding);
    }
  }

  /** Closing the generator at its yield can hang if and only if the request offers one event
      more than the queue holds: the one the client was being sent, and a queue full. */
  lemma HangExactlyWhenQueueCanFill(r: Request)
    ensures (exists actions :: Exec(r, START, actions).Some? && Hung(Exec(r, START, actions).value))
            <==> |r.Offered()| >= 17
  {
    if |r.Offered()| >= 17 {
      var actions := OfferMany(r, |r.Offered()|, CAPACITY, true);
      if Exec(r, START, actions).value.producer.Deciding? {
        ExecStep(r, actions, Decide);
        actions := actions + [Decide];
      }
      ExecStep(r, actions, Close);
      actions := actions + [Close];
      assert Hung(Exec(r, START, actions).value);
    }
    forall actions | Exec(r, START, actions).Some? && Hung(Exec(r, START, actions).value)
      ensures |r.Offered()| >= 17
    {
      Reachable(r, actions);
      EventsOfFull(Exec(r, START, actions).value.queue);
    }
  }

  lemma {:induction false} EventsOfFull(queue: seq<Option<string>>)
    requires forall i :: 0 <= i < |queue| ==> queue[i].Some?
    ensures |Events(queue)| == |queue|
  {
    if queue != [] {
      EventsOfFull(queue[1..]);
    }
  }
}
