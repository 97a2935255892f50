/** Bedrock Converse, streamed: src/ttllm/core/providers/bedrock/converse.py.

    `Handle` is one turn of the streaming loop, `RunFrom` a whole stream, and
    `StreamConverse` the generator itself, proved to yield what they say. A `Yield`
    pairs each chunk with the loop's variables at the moment it is handed over, because
    that is where a consumer can stop the generator. */
module ConverseStream {
  import opened Model
  import opened Sorting

  // --- Bedrock's wire shapes ---

  datatype Location =
    | DocumentChar(index: Option<int>, start: Option<int>, end: Option<int>)
    | DocumentPage(index: Option<int>, start: Option<int>, end: Option<int>)
    | DocumentChunk(index: Option<int>, start: Option<int>, end: Option<int>)
    | SearchResultLocation(index: Option<int>, start: Option<int>, end: Option<int>)
    | WebLocation(url: Option<string>)
    | UnknownLocation

  datatype BedrockCitation = BedrockCitation(
    sourceContent: seq<string>, location: Location, title: Option<string>, source: Option<string>)

  /** The usage payload, every field of it optional. */
  datatype RawUsage = RawUsage(
    input: Option<int>, output: Option<int>, cacheRead: Option<int>, cacheWrite: Option<int>)

  datatype StartShape = ToolUseStart(id: string, name: string) | ReasoningStart | OtherStart

  datatype Delta =
    | DText(text: string)
    | DCitation(citation: BedrockCitation)
    | DToolUse(partial: string)
    | DReasoningText(text: string)
    | DSignature(signature: string)
    | DReasoningOther
    | DOther
  {
    predicate IsReasoning() {
      DReasoningText? || DSignature? || DReasoningOther?
    }
  }

  /** One event of the stream. An absent content block index is None. Failure stands for
      the event iterator raising instead of delivering. */
  datatype Event =
    | MessageStarted
    | ContentBlockStart(index: Option<int>, start: StartShape)
    | ContentBlockDelta(index: Option<int>, delta: Delta)
    | ContentBlockStop(index: Option<int>)
    | MessageStopped(reason: Option<string>, safeguards: Option<seq<Safeguard>>)
    | Metadata(usage: RawUsage)
    | OtherEvent
    | Failure(message: string)

  /** What `converse_stream` gives back. */
  datatype StreamResponse = CallFailed(message: string) | NoStream | Events(events: seq<Event>)

  const NO_USAGE := RawUsage(None, None, None, None)

  // --- Translation of the small pieces ---

  function MapStopReason(reason: string): StopReason {
    match reason
    case "end_turn" => EndTurn
    case "tool_use" => ToolUse
    case "max_tokens" => MaxTokens
    case "stop_sequence" => StopSequence
    case "content_filtered" => Refusal
    case "guardrail_intervened" => Refusal
    case _ => EndTurn
  }

  function ReadUsage(u: RawUsage): Usage {
    Usage(u.input.GetOr(0), u.output.GetOr(0), u.cacheRead.GetOr(0), u.cacheWrite.GetOr(0))
  }

  function Concat(pieces: seq<string>): string {
    if pieces == [] then "" else pieces[0] + Concat(pieces[1..])
  }

  function CitationFromBedrock(c: BedrockCitation): Option<Citation> {
    var cited := Concat(c.sourceContent);
    match c.location
    case DocumentChar(i, a, b) =>
      Some(Citation(Char, cited, i, c.title, None, a, b, c.source, c.title, None))
    case DocumentPage(i, a, b) =>
      Some(Citation(Page, cited, i, c.title, None, a, b, c.source, c.title, None))
    case DocumentChunk(i, a, b) =>
      Some(Citation(Chunked, cited, i, c.title, None, a, b, c.source, c.title, None))
    case SearchResultLocation(i, a, b) =>
      Some(Citation(SearchResult, cited, None, None, i, a, b, c.source, c.title, None))
    case WebLocation(url) =>
      Some(Citation(Web, cited, None, None, None, None, None, c.source, c.title, url))
    case UnknownLocation => None
  }

  function CitationsFromBedrock(raw: seq<BedrockCitation>): seq<Citation> {
    if raw == [] then []
    else
      var rest := CitationsFromBedrock(raw[1..]);
      match CitationFromBedrock(raw[0])
      case Some(c) => [c] + rest
      case None => rest
  }

  function OrNone<T>(s: seq<T>): Option<seq<T>> {
    if s == [] then None else Some(s)
  }

  // --- Safeguard verdicts ---

  function ToolCallIds(parts: seq<Part>): seq<string> {
    if parts == [] then []
    else (if parts[0].ToolCall? then [parts[0].id] else []) + ToolCallIds(parts[1..])
  }

  /** `d[key] = value` on an ordered dict: an existing key keeps its place. */
  function DictSet(d: seq<(string, Json)>, key: string, value: Json): seq<(string, Json)> {
    if d == [] then [(key, value)]
    else if d[0].0 == key then [(key, value)] + d[1..]
    else [d[0]] + DictSet(d[1..], key, value)
  }

  /** `dict(zip(keys, values))`. */
  function DictZip(keys: seq<string>, values: seq<Json>): seq<(string, Json)>
    requires |keys| == |values|
  {
    if keys == [] then []
    else
      var n := |keys| - 1;
      DictSet(DictZip(keys[..n], values[..n]), keys[n], values[n])
  }

  function Verdicts(toolUses: seq<(string, Json)>): seq<Json> {
    seq(|toolUses|, i requires 0 <= i < |toolUses| => toolUses[i].1)
  }

  function RemapOne(entry: Safeguard, ids: seq<string>): Safeguard {
    match entry
    case Untouched(_) => entry
    case WithToolUses(body, uses) =>
      WithToolUses(body, if |uses| == |ids| then DictZip(ids, Verdicts(uses)) else [])
  }

  function Remap(results: Option<seq<Safeguard>>, ids: seq<string>): Option<seq<Safeguard>> {
    match results
    case None => None
    case Some(entries) =>
      Some(seq(|entries|, i requires 0 <= i < |entries| => RemapOne(entries[i], ids)))
  }

  /** `_remap_safeguard_results` */
  method RemapSafeguards(results: Option<seq<Safeguard>>, ids: seq<string>) returns (remapped: Option<seq<Safeguard>>)
    ensures remapped == Remap(results, ids)
  {
    if results.None? {
      return None;
    }
    var entries: seq<Safeguard> := [];
    var i := 0;
    while i < |results.value|
      invariant 0 <= i <= |results.value| && |entries| == i
      invariant forall j :: 0 <= j < i ==> entries[j] == RemapOne(results.value[j], ids)
    {
      match results.value[i] {
        case Untouched(_) =>
          entries := entries + [results.value[i]];
        case WithToolUses(body, uses) =>
          var toolUses := [];
          if |uses| == |ids| {
            toolUses := DictZip(ids, Verdicts(uses));
          }
          entries := entries + [WithToolUses(body, toolUses)];
      }
      i := i + 1;
    }
    assert entries == Remap(results, ids).value;
    return Some(entries);
  }

  lemma {:induction false} DictSetKeepsOthers(d: seq<(string, Json)>, key: string, value: Json)
    requires forall i :: 0 <= i < |d| ==> d[i].0 != key
    ensures DictSet(d, key, value) == d + [(key, value)]
  {
    if d != [] {
      DictSetKeepsOthers(d[1..], key, value);
      assert d == [d[0]] + d[1..];
    }
  }

  lemma {:induction false} DictZipIsPositional(keys: seq<string>, values: seq<Json>)
    requires |keys| == |values|
    requires forall i, j :: 0 <= i < j < |keys| ==> keys[i] != keys[j]
    ensures |DictZip(keys, values)| == |keys|
    ensures forall i :: 0 <= i < |keys| ==> DictZip(keys, values)[i] == (keys[i], values[i])
  {
    if keys != [] {
      var n := |keys| - 1;
      DictZipIsPositional(keys[..n], values[..n]);
      DictSetKeepsOthers(DictZip(keys[..n], values[..n]), keys[n], values[n]);
    }
  }

  /** A verdict reaches the client under the id of the tool call at its own position, and
      only when every tool call has one; otherwise none does. Rekeying twice is rekeying
      once. */
  lemma RemapIsPositional(entry: Safeguard, ids: seq<string>)
    requires forall i, j :: 0 <= i < j < |ids| ==> ids[i] != ids[j]
    ensures entry.WithToolUses? ==>
              var uses := RemapOne(entry, ids).toolUses;
              if |entry.toolUses| == |ids| then
                && |uses| == |ids|
                && forall i :: 0 <= i < |ids| ==> uses[i] == (ids[i], entry.toolUses[i].1)
              else uses == []
    ensures RemapOne(RemapOne(entry, ids), ids) == RemapOne(entry, ids)
  {
    if entry.WithToolUses? && |entry.toolUses| == |ids| {
      var once := RemapOne(entry, ids);
      DictZipIsPositional(ids, Verdicts(entry.toolUses));
      assert Verdicts(once.toolUses) == Verdicts(entry.toolUses);
    }
  }

  /** The ids are those of the tool calls, in order, whatever stands between them. */
  lemma {:induction false} IdsInOrder(before: seq<Part>, part: Part, after: seq<Part>)
    ensures ToolCallIds([]) == []
    ensures ToolCallIds(before + [part] + after)
         == ToolCallIds(before)
            + (match part case ToolCall(id, _, _, _) => [id] case _ => [])
            + ToolCallIds(after)
    decreases |before|
  {
    var parts := before + [part] + after;
    if before == [] {
      assert parts[0] == part && parts[1..] == after;
    } else {
      assert parts[0] == before[0] && parts[1..] == before[1..] + [part] + after;
      IdsInOrder(before[1..], part, after);
    }
  }

  predicate DistinctKeys(d: seq<(string, Json)>) {
    forall i, j :: 0 <= i < j < |d| ==> d[i].0 != d[j].0
  }

  lemma {:induction false} DictSetSets(d: seq<(string, Json)>, key: string, value: Json)
    requires DistinctKeys(d)
    ensures DistinctKeys(DictSet(d, key, value)) && (key, value) in DictSet(d, key, value)
    ensures forall e :: e in d && e.0 != key ==> e in DictSet(d, key, value)
    ensures forall e :: e in DictSet(d, key, value) ==> e == (key, value) || (e in d && e.0 != key)
  {
    if d != [] && d[0].0 != key {
      DictSetSets(d[1..], key, value);
      assert d == [d[0]] + d[1..];
      assert forall e :: e in d[1..] ==> e in d && e.0 != d[0].0;
    } else if d != [] {
      assert d == [d[0]] + d[1..];
      assert DictSet(d, key, value)[0] == (key, value);
    }
  }

  lemma {:induction false} ZipIsDistinct(keys: seq<string>, values: seq<Json>)
    requires |keys| == |values|
    ensures DistinctKeys(DictZip(keys, values))
    decreases |keys|
  {
    if keys != [] {
      var n := |keys| - 1;
      ZipIsDistinct(keys[..n], values[..n]);
      DictSetSets(DictZip(keys[..n], values[..n]), keys[n], values[n]);
    }
  }

  /** With ids that repeat, the last verdict for an id is the one that stays. */
  lemma {:induction false} LastVerdictStays(keys: seq<string>, values: seq<Json>, i: nat)
    requires |keys| == |values| && i < |keys|
    requires forall j :: i < j < |keys| ==> keys[j] != keys[i]
    ensures (keys[i], values[i]) in DictZip(keys, values)
    decreases |keys|
  {
    var n := |keys| - 1;
    var before := DictZip(keys[..n], values[..n]);
    ZipIsDistinct(keys[..n], values[..n]);
    DictSetSets(before, keys[n], values[n]);
    if i < n {
      LastVerdictStays(keys[..n], values[..n], i);
      assert keys[..n][i] == keys[i] && values[..n][i] == values[i];
      assert (keys[i], values[i]) in before && keys[i] != keys[n];
    }
  }

  // --- Builders: one partial block per index ---

  datatype Kind = KText | KTool | KThinking

  /** One entry of `assembled`. `content` is the "text", "input_json" or "thinking" key,
      whichever the kind has. */
  datatype Builder = Builder(
    kind: Kind, content: string, id: string, name: string,
    citations: seq<Citation>, signature: string)

  function Empty(kind: Kind, id: string, name: string): Builder {
    Builder(kind, "", id, name, [], "")
  }

  function StartBuilder(start: StartShape): Builder {
    match start
    case ToolUseStart(id, name) => Empty(KTool, id, name)
    case ReasoningStart => Empty(KThinking, "", "")
    case OtherStart => Empty(KText, "", "")
  }

  /** The block a delta opens when Bedrock sent no start for it. */
  function LazyBuilder(delta: Delta): Builder {
    Empty(if delta.IsReasoning() then KThinking else KText, "", "")
  }

  /** The empty part announced by BLOCK_START. */
  function Shell(b: Builder): Part {
    match b.kind
    case KText => PlainPart("")
    case KTool => ToolCall(b.id, b.name, JObj(map[]), false)
    case KThinking => Thinking("", "", false)
  }

  /** A tool call's argument text is absent or parses. */
  predicate ArgumentsParse(b: Builder, loads: Parser) {
    b.kind.KTool? && b.content != "" ==> loads(b.content).Some?
  }

  /** The finished part; None when the arguments parse to something other than an object,
      which the part's own validation rejects by raising. */
  function PartOf(b: Builder, loads: Parser): Option<Part> {
    match b.kind
    case KText => Some(Text(TextPart(b.content, OrNone(b.citations), false)))
    case KTool =>
      var input := Arguments(b.content, loads);
      if input.JObj? then Some(ToolCall(b.id, b.name, input, false)) else None
    case KThinking => Some(Thinking(b.content, b.signature, false))
  }

  function PartsAlong(order: seq<int>, assembled: map<int, Builder>, loads: Parser)
    : (r: Option<seq<Part>>)
    requires forall i :: 0 <= i < |order| ==> order[i] in assembled
    ensures r.Some? ==> |r.value| == |order|
  {
    if order == [] then Some([])
    else
      match PartOf(assembled[order[0]], loads)
      case None => None
      case Some(p) =>
        match PartsAlong(order[1..], assembled, loads)
        case None => None
        case Some(rest) => Some([p] + rest)
  }

  function PartsOf(assembled: map<int, Builder>, loads: Parser): Option<seq<Part>> {
    var order := Sorted(assembled.Keys);
    SortedOrder(assembled.Keys);
    PartsAlong(order, assembled, loads)
  }

  function PrefixedParts(done: seq<Part>, rest: Option<seq<Part>>): Option<seq<Part>> {
    match rest
    case None => None
    case Some(parts) => Some(done + parts)
  }

  /** What is left of the builders once `done` has been made of the first i. */
  ghost predicate PartsLeft(order: seq<int>, assembled: map<int, Builder>, loads: Parser, i: nat, done: seq<Part>) {
    && i <= |order| && (forall j :: 0 <= j < |order| ==> order[j] in assembled)
    && PartsAlong(order, assembled, loads) == PrefixedParts(done, PartsAlong(order[i..], assembled, loads))
  }

  lemma NoPartsYet(order: seq<int>, assembled: map<int, Builder>, loads: Parser)
    requires forall j :: 0 <= j < |order| ==> order[j] in assembled
    ensures PartsLeft(order, assembled, loads, 0, [])
  {
    var all := PartsAlong(order, assembled, loads);
    assert order[0..] == order;
    assert all.Some? ==> [] + all.value == all.value;
  }

  lemma NextPart(order: seq<int>, assembled: map<int, Builder>, loads: Parser,
                 i: nat, done: seq<Part>, part: Option<Part>)
    requires PartsLeft(order, assembled, loads, i, done) && i < |order|
    requires part == PartOf(assembled[order[i]], loads)
    ensures part.None? ==> PartsAlong(order, assembled, loads).None?
    ensures part.Some? ==> PartsLeft(order, assembled, loads, i + 1, done + [part.value])
  {
    assert order[i..][0] == order[i] && order[i..][1..] == order[i + 1..];
    var rest := PartsAlong(order[i + 1..], assembled, loads);
    if rest.Some? && part.Some? {
      assert done + ([part.value] + rest.value) == (done + [part.value]) + rest.value;
    }
  }

  lemma AllPartsDone(order: seq<int>, assembled: map<int, Builder>, loads: Parser, done: seq<Part>)
    requires PartsLeft(order, assembled, loads, |order|, done)
    ensures PartsAlong(order, assembled, loads) == Some(done)
  {
    assert order[|order|..] == [] && done + [] == done;
  }

  /** `_assembled_to_parts`; None when a part is rejected. */
  method AssembledToParts(assembled: map<int, Builder>, loads: Parser) returns (parts: Option<seq<Part>>)
    ensures parts == PartsOf(assembled, loads)
  {
    SortedOrder(assembled.Keys);
    var order := Sorted(assembled.Keys);
    var done: seq<Part> := [];
    var i := 0;
    NoPartsYet(order, assembled, loads);
    while i < |order|
      invariant PartsLeft(order, assembled, loads, i, done)
    {
      var part := PartOf(assembled[order[i]], loads);
      NextPart(order, assembled, loads, i, done, part);
      if part.None? {
        return None;
      }
      done := done + [part.value];
      i := i + 1;
    }
    AllPartsDone(order, assembled, loads, done);
    return Some(done);
  }

  /** A tool call whose arguments parse to JSON other than an object. */
  predicate IsRejected(b: Builder, loads: Parser) {
    b.kind.KTool? && !Arguments(b.content, loads).JObj?
  }

  lemma {:induction false} PartsAlongFails(order: seq<int>, assembled: map<int, Builder>, loads: Parser)
    requires forall j :: 0 <= j < |order| ==> order[j] in assembled
    ensures PartsAlong(order, assembled, loads).None?
        <==> exists j :: 0 <= j < |order| && IsRejected(assembled[order[j]], loads)
  {
    if order != [] {
      PartsAlongFails(order[1..], assembled, loads);
      assert forall j :: 0 < j < |order| ==> order[j] == order[1..][j - 1];
    }
  }

  /** The parts can be built unless some tool call's arguments are JSON but no object. */
  lemma PartsFailExactly(assembled: map<int, Builder>, loads: Parser)
    ensures PartsOf(assembled, loads).None? <==> exists i :: i in assembled && IsRejected(assembled[i], loads)
  {
    var order := Sorted(assembled.Keys);
    SortedOrder(assembled.Keys);
    PartsAlongFails(order, assembled, loads);
    forall i | i in assembled ensures exists j :: 0 <= j < |order| && order[j] == i {
      assert i in Elements(order);
    }
  }

  // --- The loop ---

  datatype Loop = Loop(
    blockIndex: int,
    rawUsage: RawUsage,
    stopReason: StopReason,
    safeguards: Option<seq<Safeguard>>,
    assembled: map<int, Builder>,
    open: set<int>)

  const INITIAL := Loop(0, NO_USAGE, EndTurn, None, map[], {})

  datatype Yield = Yield(chunk: Chunk, at: Loop)

  datatype Step = Step(emitted: seq<Yield>, after: Loop, error: Option<string>)

  function OpenLazily(s: Loop, idx: int, delta: Delta): Step {
    if idx in s.open then Step([], s, None)
    else
      var b := LazyBuilder(delta);
      var s' := s.(open := s.open + {idx}, assembled := s.assembled[idx := b]);
      Step([Yield(BlockStart(idx, Shell(b)), s')], s', None)
  }

  /** A delta whose block had no start opens it: reasoning of whatever form opens a thinking block,
      and anything else a text block, tool arguments included. */
  lemma LazyBlocks(s: Loop, idx: int, delta: Delta)
    requires idx !in s.open
    ensures var emitted := Handle(s, ContentBlockDelta(Some(idx), delta)).emitted;
            && emitted != []
            && emitted[0].chunk
               == BlockStart(idx, match delta
                                  case DReasoningText(_) => Thinking("", "", false)
                                  case DSignature(_) => Thinking("", "", false)
                                  case DReasoningOther => Thinking("", "", false)
                                  case _ => Text(TextPart("", None, false)))
  {
  }

  function SetDefault(s: Loop, idx: int, b: Builder): Builder {
    if idx in s.assembled then s.assembled[idx] else b
  }

  /** Append to the key a delta of one kind owns; a block of another kind has no such key. */
  function Extend(s: Loop, idx: int, kind: Kind, more: string, missing: string, chunk: Chunk): Step {
    var b := SetDefault(s, idx, Empty(kind, "", ""));
    if b.kind != kind then Step([], s, Some(missing))
    else
      var s' := s.(assembled := s.assembled[idx := b.(content := b.content + more)]);
      Step([Yield(chunk, s')], s', None)
  }

  function ApplyDelta(s: Loop, idx: int, delta: Delta): Step {
    match delta
    case DText(t) => Extend(s, idx, KText, t, "'text'", TextDelta(idx, t))
    case DToolUse(p) => Extend(s, idx, KTool, p, "'input_json'", ToolArgsDelta(idx, p))
    case DReasoningText(t) => Extend(s, idx, KThinking, t, "'thinking'", ThinkingDelta(idx, t))
    case DSignature(sig) =>
      var b := SetDefault(s, idx, Empty(KThinking, "", ""));
      var s' := s.(assembled := s.assembled[idx := b.(signature := sig)]);
      Step([Yield(SignatureDelta(idx, sig), s')], s', None)
    case DCitation(raw) =>
      (match CitationFromBedrock(raw)
       case None => Step([], s, None)
       case Some(c) =>
         var b := SetDefault(s, idx, Empty(KText, "", ""));
         var s' := s.(assembled := s.assembled[idx := b.(citations := b.citations + [c])]);
         Step([Yield(CitationDelta(idx, c), s')], s', None))
    case DReasoningOther => Step([], s, None)
    case DOther => Step([], s, None)
  }

  /** One turn of the loop. */
  function Handle(s: Loop, e: Event): Step {
    match e
    case MessageStarted => Step([], s, None)
    case OtherEvent => Step([], s, None)
    case Failure(m) => Step([], s, Some(m))
    case ContentBlockStart(index, start) =>
      var idx := index.GetOr(s.blockIndex);
      var b := StartBuilder(start);
      var s' := s.(blockIndex := idx, open := s.open + {idx}, assembled := s.assembled[idx := b]);
      Step([Yield(BlockStart(idx, Shell(b)), s')], s', None)
    case ContentBlockDelta(index, delta) =>
      var idx := index.GetOr(s.blockIndex);
      var first := OpenLazily(s, idx, delta);
      var applied := ApplyDelta(first.after, idx, delta);
      Step(first.emitted + applied.emitted, applied.after, applied.error)
    case ContentBlockStop(index) =>
      var idx := index.GetOr(s.blockIndex);
      var s' := s.(open := s.open - {idx});
      Step([Yield(BlockStop(idx), s')], s'.(blockIndex := idx + 1), None)
    case MessageStopped(reason, safeguards) =>
      Step([], s.(stopReason := MapStopReason(reason.GetOr("end_turn")), safeguards := safeguards), None)
    case Metadata(usage) => Step([], s.(rawUsage := usage), None)
  }

  /** The loop from a given state to the end of the events or the first exception. */
  function RunFrom(s: Loop, events: seq<Event>): Step
    decreases |events|
  {
    if events == [] then Step([], s, None)
    else
      var now := Handle(s, events[0]);
      if now.error.Some? then now
      else
        var later := RunFrom(now.after, events[1..]);
        Step(now.emitted + later.emitted, later.after, later.error)
  }

  function Run(events: seq<Event>): Step {
    RunFrom(INITIAL, events)
  }

  function Chunks(emitted: seq<Yield>): seq<Chunk> {
    seq(|emitted|, i requires 0 <= i < |emitted| => emitted[i].chunk)
  }

  // --- After the loop ---

  function Stops(open: set<int>): seq<Chunk> {
    var order := Sorted(open);
    seq(|order|, i requires 0 <= i < |order| => BlockStop(order[i]))
  }

  /** The chunks that follow the loop's own. When the final parts cannot be built, the
      `finally` block raises and nothing follows. */
  function Ending(last: Loop, error: Option<string>, parts: Option<seq<Part>>): seq<Chunk> {
    if error.Some? then [Error(error.value)]
    else if parts.None? then []
    else
      Stops(last.open)
      + [MessageStop(last.stopReason, ReadUsage(last.rawUsage),
                     Remap(last.safeguards, ToolCallIds(parts.value)))]
  }

  /** A tool call announced and given its arguments in one piece. */
  function ToolStream(id: string, name: string, arguments: string): seq<Event> {
    [ContentBlockStart(Some(0), ToolUseStart(id, name)), ContentBlockDelta(Some(0), DToolUse(arguments))]
  }

  lemma ToolStreamRuns(id: string, name: string, arguments: string)
    ensures var run := Run(ToolStream(id, name, arguments));
            && run.error.None?
            && run.after.assembled == map[0 := Builder(KTool, arguments, id, name, [], "")]
  {
    var events := ToolStream(id, name, arguments);
    var first := Handle(INITIAL, events[0]);
    var second := Handle(first.after, events[1]);
    assert events[1..] == [events[1]] && events[1..][1..] == [];
    assert RunFrom(second.after, []) == Step([], second.after, None);
    assert "" + arguments == arguments;
    assert second.after.assembled == map[0 := Builder(KTool, arguments, id, name, [], "")];
    assert RunFrom(first.after, events[1..]).after == second.after;
  }

  /** Everything the generator yields when nobody stops it early. */
  function Output(run: Step, loads: Parser): seq<Chunk> {
    Chunks(run.emitted) + Ending(run.after, run.error, PartsOf(run.after.assembled, loads))
  }

  function ResponseOutput(response: StreamResponse, loads: Parser): seq<Chunk> {
    match response
    case CallFailed(m) => [Error(m)]
    case NoStream => [Error("No stream in response")]
    case Events(events) => Output(Run(events), loads)
  }

  /** The loop's variables when `finally` runs, for a consumer that closes the generator
      once it has received `limit` chunks. */
  function LoopAtFinally(run: Step, limit: nat): Loop
    requires limit > 0
  {
    if limit <= |run.emitted| then run.emitted[limit - 1].at else run.after
  }

  /** A model's prices per thousand tokens; an unset rate counts as zero. */
  datatype Rates = Rates(input: Option<real>, output: Option<real>,
                         cacheRead: Option<real>, cacheWrite: Option<real>)

  function PriceOf(tokens: int, rate: Option<real>): real {
    tokens as real / 1000.0 * rate.GetOr(0.0)
  }

  function CostOf(u: Usage, r: Rates): real {
    PriceOf(u.input, r.input) + PriceOf(u.output, r.output)
    + PriceOf(u.cacheRead, r.cacheRead) + PriceOf(u.cacheWrite, r.cacheWrite)
  }

  /** The accumulator a provider exchange fills (bedrock/provider.py). */
  class BedrockState {
    var tokens: Usage
    var rawUsage: RawUsage
    var stopReason: StopReason
    var contentParts: seq<Part>
    var safeguardResults: Option<seq<Safeguard>>
    var error: Option<string>

    constructor ()
      ensures tokens == Usage(0, 0, 0, 0) && rawUsage == NO_USAGE && stopReason == EndTurn
      ensures contentParts == [] && safeguardResults == None && error == None
    {
      tokens := Usage(0, 0, 0, 0);
      rawUsage := NO_USAGE;
      stopReason := EndTurn;
      contentParts := [];
      safeguardResults := None;
      error := None;
    }

    function GetResponse(): InternalResult
      reads this
    {
      InternalResult(if contentParts == [] then [PlainPart("")] else contentParts,
                     stopReason, tokens, safeguardResults)
    }

    function GetCost(rates: Rates): real
      reads this
    {
      CostOf(tokens, rates)
    }

    /** The accumulator holds exactly what one finished exchange with these values stores. */
    ghost predicate Holds(raw: RawUsage, reason: StopReason, parts: seq<Part>,
                          safeguards: Option<seq<Safeguard>>)
      reads this
    {
      && tokens == ReadUsage(raw)
      && rawUsage == raw
      && stopReason == reason
      && contentParts == parts
      && safeguardResults == Remap(safeguards, ToolCallIds(parts))
    }
  }

  /** The emissions of `earlier` and then whatever `later` does. */
  ghost function After(earlier: seq<Yield>, later: Step): Step {
    Step(earlier + later.emitted, later.after, later.error)
  }

  lemma ChunksOfBoth(a: seq<Yield>, b: seq<Yield>, k: int)
    ensures Chunks(a + b) == Chunks(a) + Chunks(b)
    ensures 0 <= k <= |a| ==> (a + b)[..k] == a[..k]
    ensures |a| <= k <= |a + b| ==>
              && (a + b)[..k] == a + b[..k - |a|]
              && Chunks((a + b)[..k]) == Chunks(a) + Chunks(b[..k - |a|])
  {
    assert |a| <= k <= |a + b| ==> (a + b)[..k] == a + b[..k - |a|];
  }

  /** A consumer that still takes chunks takes the next one. */
  lemma ReceiveNext(given: seq<Chunk>, out: seq<Chunk>, i: nat, limit: nat)
    requires |given| < limit && i < |out|
    ensures given + Received(out[i..], limit - |given|)
         == (given + [out[i]]) + Received(out[i + 1..], limit - |given| - 1)
  {
    var n := limit - |given|;
    assert Received(out[i..], n) == [out[i]] + Received(out[i + 1..], n - 1);
  }

  lemma ReceivedUpTo(emitted: seq<Yield>, tail: seq<Chunk>, limit: nat)
    ensures limit <= |emitted| ==> Received(Chunks(emitted) + tail, limit) == Chunks(emitted[..limit])
    ensures limit > |emitted| ==>
              Received(Chunks(emitted) + tail, limit) == Chunks(emitted) + Received(tail, limit - |emitted|)
  {
  }

  /** A suspended generator: its variables, what it has yielded, whether it was closed. */
  datatype Frame = Suspended(locals: Loop, yielded: seq<Chunk>, closed: bool)

  /** With `received` chunks already handed over, the generator did `step` and stands at
      `now`, or did as much of it as it took to reach the limit and was closed there. */
  ghost predicate Performs(limit: nat, step: Step, received: seq<Chunk>, now: Frame, error: Option<string>) {
    if |received| + |step.emitted| < limit then
      now == Suspended(step.after, received + Chunks(step.emitted), false) && error == step.error
    else
      && |received| < limit
      && var k := limit - |received|;
      now == Suspended(step.emitted[k - 1].at, received + Chunks(step.emitted[..k]), true)
      && error == None
  }

  lemma PerformsBoth(limit: nat, first: Step, second: Step, received: seq<Chunk>,
                     midway: Frame, now: Frame, error: Option<string>)
    requires first.error.None?
    requires Performs(limit, first, received, midway, None)
    requires if midway.closed then now == midway && error.None?
             else Performs(limit, second, midway.yielded, now, error)
    ensures Performs(limit, Step(first.emitted + second.emitted, second.after, second.error),
                     received, now, error)
  {
    ChunksOfBoth(first.emitted, second.emitted, limit - |received|);
  }

  /** The suspended generator: its local variables, the chunks its consumer has received,
      and whether the consumer has closed it, which it does after `limit` of them. */
  class ChunkGenerator {
    const limit: nat
    var yielded: seq<Chunk>
    var closed: bool
    var blockIndex: int
    var rawUsage: RawUsage
    var stopReason: StopReason
    var safeguards: Option<seq<Safeguard>>
    var assembled: map<int, Builder>
    var open: set<int>

    function Locals(): Loop
      reads this
    {
      Loop(blockIndex, rawUsage, stopReason, safeguards, assembled, open)
    }

    ghost function Frame(): Frame
      reads this
    {
      Suspended(Locals(), yielded, closed)
    }

    ghost predicate Running()
      reads this
    {
      !closed && |yielded| < limit
    }

    /** Since `before`, the generator has done `step` and raised `error`. */
    ghost predicate Did(step: Step, before: Frame, error: Option<string>)
      reads this
    {
      Performs(limit, step, before.yielded, Frame(), error)
    }

    constructor (limit: nat)
      requires limit > 0
      ensures this.limit == limit && Running() && yielded == [] && Locals() == INITIAL
    {
      this.limit := limit;
      yielded, closed := [], false;
      blockIndex, rawUsage, stopReason, safeguards, assembled, open := 0, NO_USAGE, EndTurn, None, map[], {};
    }

    /** `yield chunk` */
    method Emit(chunk: Chunk)
      requires Running()
      modifies this`yielded, this`closed
      ensures yielded == old(yielded) + [chunk] && closed == (|yielded| == limit)
    {
      yielded := yielded + [chunk];
      closed := |yielded| == limit;
    }

    method OnStart(index: Option<int>, start: StartShape)
      requires Running()
      modifies this
      ensures Did(Handle(old(Locals()), ContentBlockStart(index, start)), old(Frame()), None)
    {
      var idx := index.GetOr(blockIndex);
      blockIndex := idx;
      open := open + {idx};
      match start {
        case ToolUseStart(id, name) =>
          assembled := assembled[idx := Empty(KTool, id, name)];
          Emit(BlockStart(idx, ToolCall(id, name, JObj(map[]), false)));
        case ReasoningStart =>
          assembled := assembled[idx := Empty(KThinking, "", "")];
          Emit(BlockStart(idx, Thinking("", "", false)));
        case OtherStart =>
          assembled := assembled[idx := Empty(KText, "", "")];
          Emit(BlockStart(idx, PlainPart("")));
      }
    }

    method OpenBlock(idx: int, delta: Delta)
      requires Running()
      modifies this
      ensures Did(OpenLazily(old(Locals()), idx, delta), old(Frame()), None)
    {
      if idx !in open {
        open := open + {idx};
        if delta.IsReasoning() {
          assembled := assembled[idx := Empty(KThinking, "", "")];
          Emit(BlockStart(idx, Thinking("", "", false)));
        } else {
          assembled := assembled[idx := Empty(KText, "", "")];
          Emit(BlockStart(idx, PlainPart("")));
        }
      }
    }

    /** `assembled.setdefault(idx, ...)[key] += more`, then the chunk; the error is KeyError. */
    method Append(idx: int, kind: Kind, more: string, missing: string, chunk: Chunk)
      returns (error: Option<string>)
      requires Running()
      modifies this
      ensures Did(Extend(old(Locals()), idx, kind, more, missing, chunk), old(Frame()), error)
    {
      var b := if idx in assembled then assembled[idx] else Empty(kind, "", "");
      if b.kind != kind {
        return Some(missing);
      }
      assembled := assembled[idx := b.(content := b.content + more)];
      Emit(chunk);
      return None;
    }

    method AddDelta(idx: int, delta: Delta) returns (error: Option<string>)
      requires Running()
      modifies this
      ensures Did(ApplyDelta(old(Locals()), idx, delta), old(Frame()), error)
    {
      error := None;
      match delta {
        case DText(text) =>
          error := Append(idx, KText, text, "'text'", TextDelta(idx, text));
        case DCitation(raw) =>
          var citation := CitationFromBedrock(raw);
          if citation.Some? {
            var b := if idx in assembled then assembled[idx] else Empty(KText, "", "");
            assembled := assembled[idx := b.(citations := b.citations + [citation.value])];
            Emit(CitationDelta(idx, citation.value));
          }
        case DToolUse(partial) =>
          error := Append(idx, KTool, partial, "'input_json'", ToolArgsDelta(idx, partial));
        case DReasoningText(text) =>
          error := Append(idx, KThinking, text, "'thinking'", ThinkingDelta(idx, text));
        case DSignature(signature) =>
          var b := if idx in assembled then assembled[idx] else Empty(KThinking, "", "");
          assembled := assembled[idx := b.(signature := signature)];
          Emit(SignatureDelta(idx, signature));
        case DReasoningOther =>
        case DOther =>
      }
    }

    method OnDelta(index: Option<int>, delta: Delta) returns (error: Option<string>)
      requires Running()
      modifies this
      ensures Did(Handle(old(Locals()), ContentBlockDelta(index, delta)), old(Frame()), error)
    {
      var idx := index.GetOr(blockIndex);
      ghost var first := OpenLazily(Locals(), idx, delta);
      ghost var second := ApplyDelta(first.after, idx, delta);
      ghost var before := Frame();
      error := None;
      OpenBlock(idx, delta);
      ghost var midway := Frame();
      if !closed {
        error := AddDelta(idx, delta);
      }
      PerformsBoth(limit, first, second, before.yielded, midway, Frame(), error);
    }

    method OnStop(index: Option<int>)
      requires Running()
      modifies this
      ensures Did(Handle(old(Locals()), ContentBlockStop(index)), old(Frame()), None)
    {
      var idx := index.GetOr(blockIndex);
      open := open - {idx};
      Emit(BlockStop(idx));
      if closed {
        return;
      }
      blockIndex := idx + 1;
    }

    /** One turn of the loop; the result is the exception it raised, if any. */
    method Turn(event: Event) returns (error: Option<string>)
      requires Running()
      modifies this
      ensures Did(Handle(old(Locals()), event), old(Frame()), error)
    {
      error := None;
      match event {
        case MessageStarted =>
        case OtherEvent =>
        case ContentBlockStart(index, start) =>
          OnStart(index, start);
        case ContentBlockDelta(index, delta) =>
          error := OnDelta(index, delta);
        case ContentBlockStop(index) =>
          OnStop(index);
        case MessageStopped(reason, results) =>
          stopReason := MapStopReason(reason.GetOr("end_turn"));
          safeguards := results;
        case Metadata(usage) =>
          rawUsage := usage;
        case Failure(message) =>
          error := Some(message);
      }
    }

    /** The trailing loop, which closes every block still open, and the final chunk. */
    method Finish(stop: Chunk)
      requires Running()
      modifies this`yielded, this`closed
      ensures yielded == old(yielded) + Received(Stops(open) + [stop], limit - |old(yielded)|)
    {
      var order := Sorted(open);
      ghost var out := Stops(open) + [stop];
      ghost var target := yielded + Received(out, limit - |yielded|);
      assert out[0..] == out;
      var i := 0;
      while i < |order| && !closed
        invariant 0 <= i <= |order|
        invariant |yielded| <= limit && closed == (|yielded| == limit)
        invariant target == yielded + Received(out[i..], limit - |yielded|)
      {
        ReceiveNext(yielded, out, i, limit);
        assert out[i] == BlockStop(order[i]);
        Emit(BlockStop(order[i]));
        i := i + 1;
      }
      if !closed {
        ReceiveNext(yielded, out, i, limit);
        assert out[i] == stop && out[i + 1..] == [];
        Emit(stop);
      }
    }
  }

  /** Where the loop stands between two turns: `trace` is done, `events` are left. */
  ghost predicate Midway(limit: nat, run: Step, trace: seq<Yield>, events: seq<Event>, now: Frame) {
    && |trace| < limit
    && now.yielded == Chunks(trace)
    && !now.closed
    && run == After(trace, RunFrom(now.locals, events))
  }

  /** A turn in which the consumer has enough. */
  lemma TurnCloses(limit: nat, trace: seq<Yield>, step: Step, later: Step, now: Frame, error: Option<string>)
    requires |trace| < limit && Performs(limit, step, Chunks(trace), now, error) && now.closed
    ensures Performs(limit, After(trace, After(step.emitted, later)), [], now, error)
  {
    var all := trace + (step.emitted + later.emitted);
    ChunksOfBoth(trace, step.emitted, limit);
    assert all == (trace + step.emitted) + later.emitted;
    assert all[..limit] == (trace + step.emitted)[..limit];
    assert all[limit - 1] == step.emitted[limit - |trace| - 1];
  }

  /** A turn after which the consumer still takes chunks. */
  lemma TurnStaysOpen(limit: nat, trace: seq<Yield>, step: Step, now: Frame, error: Option<string>)
    requires |trace| < limit && Performs(limit, step, Chunks(trace), now, error) && !now.closed
    ensures now.locals == step.after && error == step.error
    ensures now.yielded == Chunks(trace + step.emitted) && |trace + step.emitted| < limit
    ensures Performs(limit, After(trace, step), [], now, error)
  {
    ChunksOfBoth(trace, step.emitted, limit);
  }

  lemma RunUnfolds(s: Loop, events: seq<Event>)
    requires events != []
    ensures var step := Handle(s, events[0]);
            RunFrom(s, events)
            == if step.error.Some? then step else After(step.emitted, RunFrom(step.after, events[1..]))
  {
  }

  lemma AfterTwice(trace: seq<Yield>, emitted: seq<Yield>, later: Step)
    ensures After(trace, After(emitted, later)) == After(trace + emitted, later)
  {
    assert trace + (emitted + later.emitted) == (trace + emitted) + later.emitted;
  }

  lemma TurnAdvances(limit: nat, run: Step, trace: seq<Yield>, events: seq<Event>,
                     before: Frame, step: Step, now: Frame, error: Option<string>)
    requires events != [] && step == Handle(before.locals, events[0])
    requires Midway(limit, run, trace, events, before)
    requires Performs(limit, step, before.yielded, now, error)
    ensures if now.closed || error.Some? then Performs(limit, run, [], now, error)
            else Midway(limit, run, trace + step.emitted, events[1..], now)
  {
    RunUnfolds(before.locals, events);
    if step.error.Some? {
      if now.closed {
        TurnCloses(limit, trace, step, Step([], step.after, step.error), now, error);
        assert step.emitted + [] == step.emitted;
      } else {
        TurnStaysOpen(limit, trace, step, now, error);
      }
    } else {
      var later := RunFrom(step.after, events[1..]);
      AfterTwice(trace, step.emitted, later);
      if now.closed {
        TurnCloses(limit, trace, step, later, now, error);
      } else {
        TurnStaysOpen(limit, trace, step, now, error);
      }
    }
  }

  /** The `async for` over the event stream. */
  method DrainEvents(generator: ChunkGenerator, events: seq<Event>) returns (error: Option<string>)
    requires generator.Running() && generator.yielded == [] && generator.Locals() == INITIAL
    modifies generator
    ensures generator.Did(Run(events), Suspended(INITIAL, [], false), error)
  {
    error := None;
    ghost var limit, run := generator.limit, Run(events);
    ghost var trace: seq<Yield> := [];
    var i := 0;
    while i < |events| && !generator.closed && error.None?
      invariant 0 <= i <= |events|
      invariant if generator.closed || error.Some? then Performs(limit, run, [], generator.Frame(), error)
                else Midway(limit, run, trace, events[i..], generator.Frame())
    {
      ghost var before := generator.Frame();
      assert events[i..][1..] == events[i + 1..];
      error := generator.Turn(events[i]);
      TurnAdvances(limit, run, trace, events[i..], before, Handle(before.locals, events[i]), generator.Frame(), error);
      trace := trace + Handle(before.locals, events[i]).emitted;
      i := i + 1;
    }
  }

  /** Where the generator stands when `finally` runs. */
  lemma DrainedState(limit: nat, run: Step, now: Frame, error: Option<string>)
    requires limit > 0 && Performs(limit, run, [], now, error)
    ensures now.locals == LoopAtFinally(run, limit) && (now.closed <==> limit <= |run.emitted|)
    ensures now.yielded == Received(Chunks(run.emitted), limit)
    ensures error == (if now.closed then None else run.error)
  {
  }

  /** The consumer's share of the loop's chunks and of those that end the stream. */
  lemma ReceivedWithEnding(limit: nat, run: Step, loads: Parser)
    requires limit > 0
    ensures Received(Output(run, loads), limit)
         == if limit <= |run.emitted| then Received(Chunks(run.emitted), limit)
            else Chunks(run.emitted)
                 + Received(Ending(run.after, run.error, PartsOf(run.after.assembled, loads)), limit - |run.emitted|)
  {
  }

  /** What the `finally` block does to the accumulator, given the parts it rebuilt. */
  twostate predicate Finalized(state: BedrockState, last: Loop, parts: Option<seq<Part>>, raised: bool)
    reads state
  {
    match parts
    case Some(content) => !raised && state.Holds(last.rawUsage, last.stopReason, content, last.safeguards)
    case None =>
      raised && unchanged(state`tokens, state`rawUsage, state`stopReason, state`contentParts, state`safeguardResults)
  }

  method FinallyBlock(last: Loop, parts: Option<seq<Part>>, state: BedrockState) returns (raised: bool)
    modifies state`tokens, state`rawUsage, state`stopReason, state`contentParts, state`safeguardResults
    ensures Finalized(state, last, parts, raised)
  {
    if parts.None? {
      return true;
    }
    state.tokens := ReadUsage(last.rawUsage);
    state.rawUsage := last.rawUsage;
    state.stopReason := last.stopReason;
    state.contentParts := parts.value;
    state.safeguardResults := RemapSafeguards(last.safeguards, ToolCallIds(parts.value));
    return false;
  }

  /** From `finally` on; `failed` says that the loop raised. */
  method Settle(generator: ChunkGenerator, state: BedrockState, loads: Parser, failed: bool) returns (raised: bool)
    requires generator.closed || generator.Running()
    modifies generator, state`tokens, state`rawUsage, state`stopReason, state`contentParts, state`safeguardResults
    ensures Finalized(state, old(generator.Locals()), PartsOf(old(generator.assembled), loads), raised)
    ensures generator.yielded
         == old(generator.yielded)
            + if old(generator.closed) || failed then []
              else Received(Ending(old(generator.Locals()), None, PartsOf(old(generator.assembled), loads)),
                            generator.limit - |old(generator.yielded)|)
  {
    ghost var parts := PartsOf(generator.assembled, loads);
    var rebuilt := AssembledToParts(generator.assembled, loads);
    raised := FinallyBlock(generator.Locals(), rebuilt, state);
    if !generator.closed && !raised && !failed {
      generator.Finish(MessageStop(state.stopReason, state.tokens, state.safeguardResults));
    }
  }

  /** A stream that did open. */
  method StreamEvents(events: seq<Event>, state: BedrockState, loads: Parser, limit: nat)
    returns (yielded: seq<Chunk>, raised: bool)
    requires limit > 0
    modifies state
    ensures var run := Run(events);
            var last := LoopAtFinally(run, limit);
            && yielded == Received(Output(run, loads), limit)
            && Finalized(state, last, PartsOf(last.assembled, loads), raised)
            && state.error == (if limit > |run.emitted| && run.error.Some? then run.error
                               else old(state.error))
  {
    var generator := new ChunkGenerator(limit);
    var error := DrainEvents(generator, events);
    ghost var run := Run(events);
    DrainedState(limit, run, generator.Frame(), error);
    ReceivedWithEnding(limit, run, loads);
    if error.Some? {
      state.error := error;
      generator.Emit(Error(error.value));
    }
    raised := Settle(generator, state, loads, error.Some?);
    yielded := generator.yielded;
  }

  /** `stream_converse_chunks`, consumed by a caller that takes at most `limit` chunks and
      then closes it (a `limit` beyond the end is a caller that drains it). `raised` is an
      exception leaving the generator, which only `finally` can cause. */
  method StreamConverse(response: StreamResponse, state: BedrockState, loads: Parser, limit: nat)
    returns (yielded: seq<Chunk>, raised: bool)
    requires limit > 0
    modifies state
    ensures yielded == Received(ResponseOutput(response, loads), limit)
    ensures response.Events? ==>
              var run := Run(response.events);
              var last := LoopAtFinally(run, limit);
              && Finalized(state, last, PartsOf(last.assembled, loads), raised)
              && state.error == (if limit > |run.emitted| && run.error.Some? then run.error
                                 else old(state.error))
    ensures !response.Events? ==>
              !raised && state.error.Some?
              && unchanged(state`tokens, state`rawUsage, state`stopReason,
                           state`contentParts, state`safeguardResults)
  {
    raised := false;
    match response {
      case CallFailed(message) =>
        state.error := Some(message);
        yielded := [Error(message)];
      case NoStream =>
        state.error := Some("No stream in response");
        yielded := [Error("No stream in response")];
      case Events(events) =>
        yielded, raised := StreamEvents(events, state, loads, limit);
    }
  }
}
