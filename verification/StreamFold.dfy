/** What the gateway keeps of a streamed answer is exactly what it sent: the builders in
    `assembled` are, at every point a consumer can observe, the fold of the chunks that
    consumer has received. */
module StreamFold {
  import opened Model
  import opened ConverseStream

  /** A consumer's own bookkeeping, which knows nothing of Bedrock's events. */
  function Absorb(blocks: map<int, Builder>, c: Chunk): map<int, Builder> {
    match c
    case BlockStart(i, part) =>
      blocks[i := match part
                  case ToolCall(id, name, _, _) => Empty(KTool, id, name)
                  case Thinking(_, _, _) => Empty(KThinking, "", "")
                  case _ => Empty(KText, "", "")]
    case TextDelta(i, t) => Append(blocks, i, t)
    case ToolArgsDelta(i, t) => Append(blocks, i, t)
    case ThinkingDelta(i, t) => Append(blocks, i, t)
    case SignatureDelta(i, sig) =>
      if i in blocks then blocks[i := blocks[i].(signature := sig)] else blocks
    case CitationDelta(i, citation) =>
      if i in blocks then blocks[i := blocks[i].(citations := blocks[i].citations + [citation])] else blocks
    case BlockStop(_) => blocks
    case MessageStop(_, _, _) => blocks
    case Error(_) => blocks
  }

  function Append(blocks: map<int, Builder>, i: int, more: string): map<int, Builder> {
    if i in blocks then blocks[i := blocks[i].(content := blocks[i].content + more)] else blocks
  }

  function FoldFrom(blocks: map<int, Builder>, chunks: seq<Chunk>): map<int, Builder>
    decreases |chunks|
  {
    if chunks == [] then blocks else FoldFrom(Absorb(blocks, chunks[0]), chunks[1..])
  }

  function Fold(chunks: seq<Chunk>): map<int, Builder> {
    FoldFrom(map[], chunks)
  }

  lemma {:induction false} FoldFromAppend(blocks: map<int, Builder>, a: seq<Chunk>, b: seq<Chunk>)
    ensures FoldFrom(blocks, a + b) == FoldFrom(FoldFrom(blocks, a), b)
    decreases |a|
  {
    if a == [] {
      assert a + b == b;
    } else {
      assert (a + b)[0] == a[0] && (a + b)[1..] == a[1..] + b;
      FoldFromAppend(Absorb(blocks, a[0]), a[1..], b);
    }
  }

  /** Only blocks that were started can be open: so a delta always finds its builder, and
      the `setdefault` defaults of the loop are never used. */
  ghost predicate Started(s: Loop) {
    s.open <= s.assembled.Keys
  }

  /** A step whose every emission shows the builders as the fold of what was sent so far. */
  ghost predicate Mirrors(blocks: map<int, Builder>, step: Step) {
    && (forall k :: 0 <= k < |step.emitted| ==>
          step.emitted[k].at.assembled == FoldFrom(blocks, Chunks(step.emitted[..k + 1])))
    && step.after.assembled == FoldFrom(blocks, Chunks(step.emitted))
  }

  lemma NothingMirrors(s: Loop, error: Option<string>)
    ensures Mirrors(s.assembled, Step([], s, error))
  {
  }

  lemma OneMirrors(s: Loop, emission: Yield, after: Loop, error: Option<string>)
    requires emission.at.assembled == Absorb(s.assembled, emission.chunk) == after.assembled
    ensures Mirrors(s.assembled, Step([emission], after, error))
  {
    var chunks := Chunks([emission]);
    assert chunks == [emission.chunk] && [emission][..1] == [emission];
    assert FoldFrom(s.assembled, chunks) == FoldFrom(Absorb(s.assembled, chunks[0]), chunks[1..]);
  }

  lemma BothMirror(blocks: map<int, Builder>, first: Step, second: Step)
    requires Mirrors(blocks, first) && Mirrors(first.after.assembled, second)
    ensures Mirrors(blocks, Step(first.emitted + second.emitted, second.after, second.error))
  {
    var both := first.emitted + second.emitted;
    ChunksOfBoth(first.emitted, second.emitted, 0);
    FoldFromAppend(blocks, Chunks(first.emitted), Chunks(second.emitted));
    forall k | 0 <= k < |both|
      ensures both[k].at.assembled == FoldFrom(blocks, Chunks(both[..k + 1]))
    {
      if k < |first.emitted| {
        assert both[..k + 1] == first.emitted[..k + 1];
      } else {
        LaterMirrors(blocks, first, second, k - |first.emitted|);
      }
    }
  }

  lemma LaterMirrors(blocks: map<int, Builder>, first: Step, second: Step, j: nat)
    requires Mirrors(blocks, first) && Mirrors(first.after.assembled, second) && j < |second.emitted|
    ensures second.emitted[j].at.assembled
         == FoldFrom(blocks, Chunks((first.emitted + second.emitted)[..|first.emitted| + j + 1]))
  {
    assert (first.emitted + second.emitted)[..|first.emitted| + j + 1] == first.emitted + second.emitted[..j + 1];
    ChunksOfBoth(first.emitted, second.emitted[..j + 1], 0);
    FoldFromAppend(blocks, Chunks(first.emitted), Chunks(second.emitted[..j + 1]));
  }

  lemma ApplyDeltaMirrors(s: Loop, idx: int, delta: Delta)
    requires idx in s.assembled
    ensures Mirrors(s.assembled, ApplyDelta(s, idx, delta))
    ensures ApplyDelta(s, idx, delta).after.assembled.Keys == s.assembled.Keys
    ensures ApplyDelta(s, idx, delta).after.open == s.open
  {
    var step := ApplyDelta(s, idx, delta);
    if step.emitted == [] {
      NothingMirrors(s, step.error);
    } else {
      OneMirrors(s, step.emitted[0], step.after, step.error);
    }
  }

  lemma OpenLazilyMirrors(s: Loop, idx: int, delta: Delta)
    requires Started(s)
    ensures Mirrors(s.assembled, OpenLazily(s, idx, delta))
    ensures Started(OpenLazily(s, idx, delta).after) && idx in OpenLazily(s, idx, delta).after.open
  {
    var step := OpenLazily(s, idx, delta);
    if idx in s.open {
      NothingMirrors(s, step.error);
    } else {
      OneMirrors(s, step.emitted[0], step.after, step.error);
    }
  }

  lemma HandleMirrors(s: Loop, e: Event)
    requires Started(s)
    ensures Mirrors(s.assembled, Handle(s, e)) && Started(Handle(s, e).after)
  {
    var step := Handle(s, e);
    match e {
      case ContentBlockStart(_, _) => OneMirrors(s, step.emitted[0], step.after, step.error);
      case ContentBlockStop(_) => OneMirrors(s, step.emitted[0], step.after, step.error);
      case ContentBlockDelta(index, delta) =>
        var idx := index.GetOr(s.blockIndex);
        var first := OpenLazily(s, idx, delta);
        OpenLazilyMirrors(s, idx, delta);
        ApplyDeltaMirrors(first.after, idx, delta);
        BothMirror(s.assembled, first, ApplyDelta(first.after, idx, delta));
      case _ => NothingMirrors(s, step.error);
    }
  }

  lemma {:induction false} RunMirrors(s: Loop, events: seq<Event>)
    requires Started(s)
    ensures Mirrors(s.assembled, RunFrom(s, events)) && Started(RunFrom(s, events).after)
    decreases |events|
  {
    if events == [] {
      NothingMirrors(s, None);
    } else {
      var now := Handle(s, events[0]);
      HandleMirrors(s, events[0]);
      if now.error.None? {
        RunMirrors(now.after, events[1..]);
        BothMirror(s.assembled, now, RunFrom(now.after, events[1..]));
      }
    }
  }

  lemma {:induction false} FoldIgnoresEnding(blocks: map<int, Builder>, tail: seq<Chunk>)
    requires forall i :: 0 <= i < |tail| ==> tail[i].BlockStop? || tail[i].MessageStop? || tail[i].Error?
    ensures FoldFrom(blocks, tail) == blocks
  {
    if tail != [] {
      FoldIgnoresEnding(blocks, tail[1..]);
    }
  }

  /** However a stream ends, and wherever its consumer stops it, the builders the `finally`
      block turns into the stored content are the fold of exactly the chunks that were
      received. */
  lemma StoredIsWhatWasSent(events: seq<Event>, loads: Parser, limit: nat)
    requires limit > 0
    ensures LoopAtFinally(Run(events), limit).assembled == Fold(Received(Output(Run(events), loads), limit))
  {
    var run := Run(events);
    var tail := Ending(run.after, run.error, PartsOf(run.after.assembled, loads));
    RunMirrors(INITIAL, events);
    ReceivedUpTo(run.emitted, tail, limit);
    if limit > |run.emitted| {
      var rest := Received(tail, limit - |run.emitted|);
      FoldFromAppend(map[], Chunks(run.emitted), rest);
      FoldIgnoresEnding(run.after.assembled, rest);
    }
  }
}
