/** The chunk grammar a consumer of `stream_converse_chunks` can rely on. */
module StreamGrammar {
  import opened Model
  import opened Sorting
  import opened ConverseStream

  function Track(open: set<int>, c: Chunk): set<int> {
    match c
    case BlockStart(i, _) => open + {i}
    case BlockStop(i) => open - {i}
    case _ => open
  }

  function TrackAll(open: set<int>, chunks: seq<Chunk>): set<int>
    decreases |chunks|
  {
    if chunks == [] then open else TrackAll(Track(open, chunks[0]), chunks[1..])
  }

  /** Every delta is for a block that is open when it arrives. */
  ghost predicate DeltasInside(open: set<int>, chunks: seq<Chunk>)
    decreases |chunks|
  {
    chunks == [] ||
    (&& (chunks[0].IsDelta() ==> chunks[0].index in open)
     && DeltasInside(Track(open, chunks[0]), chunks[1..]))
  }

  /** No terminal chunk among these. */
  ghost predicate NoneTerminal(chunks: seq<Chunk>) {
    forall i :: 0 <= i < |chunks| ==> !chunks[i].IsTerminal()
  }

  /** Strict brackets: starts only of closed blocks, stops only of open ones. */
  ghost predicate Bracketed(open: set<int>, chunks: seq<Chunk>)
    decreases |chunks|
  {
    chunks == [] ||
    (&& (chunks[0].BlockStart? ==> chunks[0].index !in open)
     && (chunks[0].BlockStop? ==> chunks[0].index in open)
     && Bracketed(Track(open, chunks[0]), chunks[1..]))
  }

  lemma {:induction false} TrackAppend(open: set<int>, a: seq<Chunk>, b: seq<Chunk>)
    ensures TrackAll(open, a + b) == TrackAll(TrackAll(open, a), b)
    ensures DeltasInside(open, a + b) <==> DeltasInside(open, a) && DeltasInside(TrackAll(open, a), b)
    ensures Bracketed(open, a + b) <==> Bracketed(open, a) && Bracketed(TrackAll(open, a), b)
    decreases |a|
  {
    if a == [] {
      assert a + b == b;
    } else {
      assert (a + b)[0] == a[0] && (a + b)[1..] == a[1..] + b;
      TrackAppend(Track(open, a[0]), a[1..], b);
    }
  }

  /** A step whose chunks keep to the grammar and leave open what the loop thinks is open. */
  ghost predicate KeepsGrammar(s: Loop, step: Step) {
    var chunks := Chunks(step.emitted);
    && NoneTerminal(chunks)
    && DeltasInside(s.open, chunks)
    && TrackAll(s.open, chunks) == step.after.open
  }

  lemma SingleChunk(open: set<int>, c: Chunk)
    ensures TrackAll(open, [c]) == Track(open, c)
    ensures DeltasInside(open, [c]) <==> (c.IsDelta() ==> c.index in open)
    ensures Bracketed(open, [c]) <==>
              (c.BlockStart? ==> c.index !in open) && (c.BlockStop? ==> c.index in open)
  {
    assert [c][1..] == [];
  }

  lemma StepOfOne(s: Loop, step: Step)
    requires |step.emitted| == 1
    requires !step.emitted[0].chunk.IsTerminal()
    requires step.emitted[0].chunk.IsDelta() ==> step.emitted[0].chunk.index in s.open
    requires Track(s.open, step.emitted[0].chunk) == step.after.open
    ensures KeepsGrammar(s, step)
    ensures Bracketed(s.open, Chunks(step.emitted)) <==>
              && (step.emitted[0].chunk.BlockStart? ==> step.emitted[0].chunk.index !in s.open)
              && (step.emitted[0].chunk.BlockStop? ==> step.emitted[0].chunk.index in s.open)
  {
    assert Chunks(step.emitted) == [step.emitted[0].chunk];
    SingleChunk(s.open, step.emitted[0].chunk);
  }

  lemma StepOfBoth(s: Loop, first: Step, second: Step)
    requires KeepsGrammar(s, first) && KeepsGrammar(first.after, second)
    ensures KeepsGrammar(s, Step(first.emitted + second.emitted, second.after, second.error))
    ensures Bracketed(s.open, Chunks(first.emitted + second.emitted)) <==>
              Bracketed(s.open, Chunks(first.emitted)) && Bracketed(first.after.open, Chunks(second.emitted))
  {
    ChunksOfBoth(first.emitted, second.emitted, 0);
    TrackAppend(s.open, Chunks(first.emitted), Chunks(second.emitted));
  }

  lemma DeltaKeepsGrammar(s: Loop, idx: int, delta: Delta)
    requires idx in s.open
    ensures KeepsGrammar(s, ApplyDelta(s, idx, delta))
    ensures Bracketed(s.open, Chunks(ApplyDelta(s, idx, delta).emitted))
    ensures ApplyDelta(s, idx, delta).after.open == s.open
    ensures ApplyDelta(s, idx, delta).after.blockIndex == s.blockIndex
  {
    var step := ApplyDelta(s, idx, delta);
    if step.emitted != [] {
      StepOfOne(s, step);
    }
  }

  lemma OpeningKeepsGrammar(s: Loop, idx: int, delta: Delta)
    ensures KeepsGrammar(s, OpenLazily(s, idx, delta))
    ensures Bracketed(s.open, Chunks(OpenLazily(s, idx, delta).emitted))
    ensures OpenLazily(s, idx, delta).after.open == s.open + {idx}
    ensures OpenLazily(s, idx, delta).after.blockIndex == s.blockIndex
  {
    var step := OpenLazily(s, idx, delta);
    if step.emitted != [] {
      StepOfOne(s, step);
    } else {
      assert s.open + {idx} == s.open;
    }
  }

  /** The bracket structure of Bedrock's events, read without the loop: which index an
      event is about, and which blocks are open after it. */
  datatype Brackets = Brackets(blockIndex: int, open: set<int>)

  ghost predicate WellPlaced(b: Brackets, e: Event) {
    match e
    case ContentBlockStart(index, _) => index.GetOr(b.blockIndex) !in b.open
    case ContentBlockStop(index) => index.GetOr(b.blockIndex) in b.open
    case _ => true
  }

  ghost function BracketsAfter(b: Brackets, e: Event): Brackets {
    match e
    case ContentBlockStart(index, _) =>
      var idx := index.GetOr(b.blockIndex); Brackets(idx, b.open + {idx})
    case ContentBlockDelta(index, _) =>
      Brackets(b.blockIndex, b.open + {index.GetOr(b.blockIndex)})
    case ContentBlockStop(index) =>
      var idx := index.GetOr(b.blockIndex); Brackets(idx + 1, b.open - {idx})
    case _ => b
  }

  /** Starts name only blocks that are not open, stops only blocks that are; a delta may
      open its block itself. */
  ghost predicate WellBracketed(b: Brackets, events: seq<Event>)
    decreases |events|
  {
    events == [] || (WellPlaced(b, events[0]) && WellBracketed(BracketsAfter(b, events[0]), events[1..]))
  }

  /** Handling one event keeps to the grammar whatever the event is. */
  lemma HandleKeepsGrammar(s: Loop, e: Event)
    ensures KeepsGrammar(s, Handle(s, e))
    ensures Bracketed(s.open, Chunks(Handle(s, e).emitted)) <==> WellPlaced(Brackets(s.blockIndex, s.open), e)
    ensures var after := Handle(s, e).after;
            Brackets(after.blockIndex, after.open) == BracketsAfter(Brackets(s.blockIndex, s.open), e)
  {
    var step := Handle(s, e);
    match e {
      case ContentBlockStart(_, _) => StepOfOne(s, step);
      case ContentBlockStop(_) => StepOfOne(s, step);
      case ContentBlockDelta(index, delta) =>
        var idx := index.GetOr(s.blockIndex);
        var first := OpenLazily(s, idx, delta);
        OpeningKeepsGrammar(s, idx, delta);
        DeltaKeepsGrammar(first.after, idx, delta);
        StepOfBoth(s, first, ApplyDelta(first.after, idx, delta));
      case _ => assert step.emitted == [];
    }
  }

  lemma {:induction false} RunKeepsGrammar(s: Loop, events: seq<Event>)
    ensures KeepsGrammar(s, RunFrom(s, events))
    ensures var emitted := Chunks(RunFrom(s, events).emitted);
            && (WellBracketed(Brackets(s.blockIndex, s.open), events) ==> Bracketed(s.open, emitted))
            && (RunFrom(s, events).error.None? && Bracketed(s.open, emitted) ==>
                  WellBracketed(Brackets(s.blockIndex, s.open), events))
    decreases |events|
  {
    if events != [] {
      var now := Handle(s, events[0]);
      HandleKeepsGrammar(s, events[0]);
      if now.error.None? {
        RunKeepsGrammar(now.after, events[1..]);
        StepOfBoth(s, now, RunFrom(now.after, events[1..]));
      }
    }
  }

  /** The closing loop, over any ascending list of open blocks. */
  lemma {:induction false} StopsCloseAll(order: seq<int>, open: set<int>, stops: seq<Chunk>)
    requires Ascending(order) && Elements(order) == open
    requires |stops| == |order| && forall i :: 0 <= i < |order| ==> stops[i] == BlockStop(order[i])
    ensures TrackAll(open, stops) == {}
    ensures DeltasInside(open, stops) && Bracketed(open, stops) && NoneTerminal(stops)
  {
    if order == [] {
      assert open == {};
    } else {
      assert order[0] in Elements(order);
      assert open - {order[0]} == Elements(order[1..]);
      StopsCloseAll(order[1..], open - {order[0]}, stops[1..]);
    }
  }

  /** Whatever events Bedrock sends: every delta lies inside an open block; a single
      terminal chunk ends the stream, an ERROR exactly when the loop raised; a MESSAGE_STOP
      comes with every block closed. The one stream without a terminal chunk is the one
      that did not fail but holds a tool call whose arguments are JSON other than an object. */
  lemma OutputGrammar(events: seq<Event>, loads: Parser)
    ensures var run := Run(events);
            var out := Output(run, loads);
            && DeltasInside({}, out)
            && (NoneTerminal(out) <==>
                  && run.error.None?
                  && exists i :: i in run.after.assembled && IsRejected(run.after.assembled[i], loads))
            && (!NoneTerminal(out) ==>
                  && out != []
                  && NoneTerminal(out[..|out| - 1])
                  && (run.error.Some? ==> out[|out| - 1] == Error(run.error.value))
                  && (run.error.None? ==> out[|out| - 1].MessageStop? && TrackAll({}, out) == {}))
  {
    var run := Run(events);
    var parts := PartsOf(run.after.assembled, loads);
    var ending := Ending(run.after, run.error, parts);
    var out := Output(run, loads);
    RunKeepsGrammar(INITIAL, events);
    PartsFailExactly(run.after.assembled, loads);
    TrackAppend({}, Chunks(run.emitted), ending);
    if run.error.Some? {
      SingleChunk(run.after.open, ending[0]);
      assert out[..|out| - 1] == Chunks(run.emitted);
      assert out[|out| - 1].IsTerminal();
    } else if parts.Some? {
      NormalEnding(run, parts.value);
      assert out[..|out| - 1] == Chunks(run.emitted) + Stops(run.after.open);
      assert out[|out| - 1].IsTerminal();
    } else {
      assert out == Chunks(run.emitted);
    }
  }

  /** For example: a tool call whose arguments are an empty array leaves its stream without an
      ending. */
  lemma ArrayArgumentsLoseTheEnding(id: string, name: string, loads: Parser)
    requires loads("[]") == Some(JArr([]))
    ensures NoneTerminal(Output(Run(ToolStream(id, name, "[]")), loads))
  {
    ToolStreamRuns(id, name, "[]");
    OutputGrammar(ToolStream(id, name, "[]"), loads);
    assert IsRejected(Run(ToolStream(id, name, "[]")).after.assembled[0], loads);
  }

  lemma NormalEnding(run: Step, parts: seq<Part>)
    requires run.error.None?
    ensures var ending := Ending(run.after, run.error, Some(parts));
            && NoneTerminal(Stops(run.after.open))
            && ending == Stops(run.after.open) + [ending[|ending| - 1]]
            && ending[|ending| - 1].MessageStop?
            && TrackAll(run.after.open, ending) == {}
            && DeltasInside(run.after.open, ending)
            && Bracketed(run.after.open, ending)
  {
    var open := run.after.open;
    var ending := Ending(run.after, run.error, Some(parts));
    var last := ending[|ending| - 1];
    SortedOrder(open);
    StopsCloseAll(Sorted(open), open, Stops(open));
    assert ending == Stops(open) + [last];
    TrackAppend(open, Stops(open), [last]);
    SingleChunk({}, last);
  }

  /** The stream is strictly bracketed, index by index, when Bedrock's own events are, and
      for streams that do not fail only then. */
  lemma BracketsFollowBedrock(events: seq<Event>, loads: Parser)
    ensures WellBracketed(Brackets(0, {}), events) ==> Bracketed({}, Output(Run(events), loads))
    ensures Run(events).error.None? && Bracketed({}, Output(Run(events), loads)) ==>
              WellBracketed(Brackets(0, {}), events)
  {
    var run := Run(events);
    var parts := PartsOf(run.after.assembled, loads);
    var ending := Ending(run.after, run.error, parts);
    RunKeepsGrammar(INITIAL, events);
    TrackAppend({}, Chunks(run.emitted), ending);
    if run.error.Some? {
      SingleChunk(run.after.open, ending[0]);
    } else if parts.Some? {
      NormalEnding(run, parts.value);
    }
  }
}
