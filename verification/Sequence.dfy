/** The per-request generation state machine (src/core/sequence_state.cpp), as values.
    `Gen` is what generation has produced; `SeqState` adds where the sequence is placed and
    how much of its prompt has been submitted. */
module Sequence {
  import opened Types
  import opened StopText

  datatype Gen = Gen(
    text: string, emitted: nat, completion: nat, pending: Token,
    reason: FinishReason, finished: bool, notified: bool, failure: Failure, sink: seq<SinkEvent>)

  const NEW_GEN := Gen("", 0, 0, 0, Unset, false, false, NoFailure, [])

  function FlushUpto(g: Gen, upto: nat): Gen
    requires upto <= |g.text|
  {
    if upto > g.emitted then
      g.(sink := g.sink + [OnText(g.text[g.emitted..upto])], emitted := upto)
    else g
  }

  function StopWith(g: Gen, reason: FinishReason): Gen {
    g.(reason := reason, finished := true)
  }

  function Grown(piece: Token -> string, g: Gen, step: NextToken): Gen {
    g.(text := g.text + piece(step.token), completion := g.completion + 1)
  }

  /** Consume one sampled token. The source's result (`needs another step`) is `!finished`. */
  function Accept(piece: Token -> string, spec: Spec, g: Gen, step: NextToken, cancelled: bool): Gen {
    if g.finished then g
    else if step.isEog then StopWith(g, Eos)
    else if g.completion >= spec.maxTokens then StopWith(g, MaxTokens)
    else
      var grown := Grown(piece, g, step);
      var stop := EarliestStop(spec.stop, grown.text);
      if stop.Some? then StopWith(FlushUpto(grown, stop.value), StopString)
      else
        var flushed := FlushUpto(grown, SafePrefix(spec.stop, grown.text));
        if cancelled then StopWith(FlushUpto(flushed, |flushed.text|), Cancelled)
        else flushed.(pending := step.token)
  }

  /** An accept that does not end the generation counts one token, within the budget. */
  lemma AcceptCounts(piece: Token -> string, spec: Spec, g: Gen, step: NextToken, cancelled: bool)
    ensures var r := Accept(piece, spec, g, step, cancelled);
      && g.completion <= r.completion && (g.finished ==> r.finished)
      && (!r.finished ==> r.completion == g.completion + 1 <= spec.maxTokens)
      && Finish(r).completion == r.completion && (r.finished ==> Finish(r).finished)
  {
  }

  function Fail(g: Gen, failure: Failure, reason: FinishReason): Gen {
    StopWith(g.(failure := failure), reason)
  }

  /** Flush the tail where the reason allows it and make the one terminal sink call. */
  function Finish(g: Gen): Gen {
    if g.notified then g
    else
      var done := g.(notified := true, finished := true);
      if done.reason == Error || done.reason == ContextOverflow then
        done.(sink := done.sink + [OnError(done.failure)])
      else
        var flushed :=
          if done.reason == Eos || done.reason == MaxTokens then FlushUpto(done, |done.text|) else done;
        flushed.(sink := flushed.sink + [OnFinish(flushed.reason, flushed.completion)])
  }

  /** The concatenated deltas a sink has received. */
  function Streamed(sink: seq<SinkEvent>): string {
    if sink == [] then ""
    else Streamed(DropLast(sink)) + (if Last(sink).OnText? then Last(sink).delta else "")
  }

  function EmittedText(g: Gen): string {
    if g.emitted <= |g.text| then g.text[..g.emitted] else g.text
  }

  /* ---------------- streaming with stop strings ---------------- */

  predicate CleanEnd(reason: FinishReason) {
    reason == Eos || reason == MaxTokens
  }

  /** What holds of a generation between calls, for any pieces and any stop list. */
  ghost predicate StreamOk(stops: seq<string>, g: Gen) {
    && g.emitted <= |g.text|
    && Streamed(g.sink) == g.text[..g.emitted]
    && Clean(stops, g.text[..g.emitted])
    && (g.notified ==> g.finished)
    && (!g.finished ==> g.reason == Unset && g.emitted == SafePrefix(stops, g.text))
    && (!g.finished || CleanEnd(g.reason) || g.reason == Cancelled ==> Clean(stops, g.text))
    && (g.reason == StopString ==> EarliestStop(stops, g.text) == Some(g.emitted))
    && (g.reason == Cancelled || (g.notified && CleanEnd(g.reason)) ==> g.emitted == |g.text|)
  }

  lemma NewGenStreams(stops: seq<string>)
    ensures StreamOk(stops, NEW_GEN)
  {
    assert forall i: nat :: !StopAt(stops, "", i);
  }

  lemma StreamedPush(sink: seq<SinkEvent>, e: SinkEvent)
    ensures Streamed(sink + [e]) == Streamed(sink) + (if e.OnText? then e.delta else "")
  {
    assert DropLast(sink + [e]) == sink;
  }

  lemma FlushKeepsStream(g: Gen, upto: nat)
    requires upto <= |g.text| && g.emitted <= |g.text|
    requires Streamed(g.sink) == g.text[..g.emitted]
    ensures var f := FlushUpto(g, upto); Streamed(f.sink) == f.text[..f.emitted]
  {
    if upto > g.emitted {
      StreamedPush(g.sink, OnText(g.text[g.emitted..upto]));
      assert g.text[..g.emitted] + g.text[g.emitted..upto] == g.text[..upto];
    }
  }

  /** A match completed by the new piece: what was released before it is exactly the text
      in front of the earliest match. */
  lemma StopKeepsStream(piece: Token -> string, stops: seq<string>, g: Gen, step: NextToken)
    requires StreamOk(stops, g) && !g.finished
    requires EarliestStop(stops, g.text + piece(step.token)).Some?
    ensures var grown := Grown(piece, g, step);
      StreamOk(stops, StopWith(FlushUpto(grown, EarliestStop(stops, grown.text).value), StopString))
  {
    var grown := Grown(piece, g, step);
    var at := EarliestStop(stops, grown.text).value;
    assert grown.text[..g.emitted] == g.text[..g.emitted];
    NewMatchIsHeldBack(stops, g.text, piece(step.token), at);
    FlushKeepsStream(grown, at);
    CleanPrefix(stops, grown.text, at);
  }

  lemma GrowKeepsStream(piece: Token -> string, stops: seq<string>, g: Gen, step: NextToken)
    requires StreamOk(stops, g) && !g.finished
    requires EarliestStop(stops, g.text + piece(step.token)).None?
    ensures var grown := Grown(piece, g, step);
      StreamOk(stops, FlushUpto(grown, SafePrefix(stops, grown.text)))
  {
    var grown := Grown(piece, g, step);
    var upto := SafePrefix(stops, grown.text);
    assert grown.text[..g.emitted] == g.text[..g.emitted];
    assert Clean(stops, grown.text);
    SafePrefixGrows(stops, g.text, piece(step.token));
    FlushKeepsStream(grown, upto);
    CleanPrefix(stops, grown.text, upto);
  }

  lemma CancelKeepsStream(stops: seq<string>, g: Gen)
    requires StreamOk(stops, g) && !g.finished
    ensures StreamOk(stops, StopWith(FlushUpto(g, |g.text|), Cancelled))
  {
    FlushKeepsStream(g, |g.text|);
    assert g.text[..|g.text|] == g.text;
  }

  /** Every accept keeps the stream exact. */
  lemma AcceptKeepsStream(piece: Token -> string, spec: Spec, g: Gen, step: NextToken, cancelled: bool)
    requires StreamOk(spec.stop, g)
    ensures StreamOk(spec.stop, Accept(piece, spec, g, step, cancelled))
  {
    if !g.finished && !step.isEog && g.completion < spec.maxTokens {
      var grown := Grown(piece, g, step);
      if EarliestStop(spec.stop, grown.text).Some? {
        StopKeepsStream(piece, spec.stop, g, step);
      } else {
        GrowKeepsStream(piece, spec.stop, g, step);
        var flushed := FlushUpto(grown, SafePrefix(spec.stop, grown.text));
        if cancelled {
          CancelKeepsStream(spec.stop, flushed);
        }
      }
    }
  }

  lemma FailKeepsStream(stops: seq<string>, g: Gen, failure: Failure, reason: FinishReason)
    requires StreamOk(stops, g) && (reason == Error || reason == ContextOverflow)
    ensures StreamOk(stops, Fail(g, failure, reason))
  {
  }

  /** The terminal call adds no text. */
  lemma NotifyKeepsStream(stops: seq<string>, g: Gen, e: SinkEvent)
    requires StreamOk(stops, g) && g.finished && !e.OnText? && (CleanEnd(g.reason) ==> g.emitted == |g.text|)
    ensures StreamOk(stops, g.(notified := true, sink := g.sink + [e]))
  {
    StreamedPush(g.sink, e);
    assert Streamed(g.sink) + "" == Streamed(g.sink);
  }

  lemma TailKeepsStream(stops: seq<string>, g: Gen)
    requires StreamOk(stops, g) && g.finished && CleanEnd(g.reason)
    ensures var f := FlushUpto(g, |g.text|);
      StreamOk(stops, f) && f.emitted == |f.text| && f == g.(emitted := f.emitted, sink := f.sink)
  {
    FlushKeepsStream(g, |g.text|);
    assert g.text[..|g.text|] == g.text;
  }

  lemma FinishKeepsStream(stops: seq<string>, g: Gen)
    requires StreamOk(stops, g) && g.finished
    ensures StreamOk(stops, Finish(g)) && Finish(Finish(g)) == Finish(g)
  {
    if !g.notified {
      if CleanEnd(g.reason) {
        TailKeepsStream(stops, g);
        var f := FlushUpto(g, |g.text|);
        NotifyKeepsStream(stops, f, OnFinish(f.reason, f.completion));
      } else if g.reason == Error || g.reason == ContextOverflow {
        NotifyKeepsStream(stops, g, OnError(g.failure));
      } else {
        NotifyKeepsStream(stops, g, OnFinish(g.reason, g.completion));
      }
    }
  }

  /** A whole generation: any number of accepts, each with its own cancellation flag. */
  function AcceptAll(piece: Token -> string, spec: Spec, g: Gen, steps: seq<(NextToken, bool)>): Gen
    decreases |steps|
  {
    if steps == [] then g
    else AcceptAll(piece, spec, Accept(piece, spec, g, steps[0].0, steps[0].1), steps[1..])
  }

  lemma {:induction false} AcceptAllKeepsStream(piece: Token -> string, spec: Spec, g: Gen, steps: seq<(NextToken, bool)>)
    requires StreamOk(spec.stop, g)
    ensures StreamOk(spec.stop, AcceptAll(piece, spec, g, steps))
    decreases |steps|
  {
    if steps != [] {
      AcceptKeepsStream(piece, spec, g, steps[0].0, steps[0].1);
      AcceptAllKeepsStream(piece, spec, Accept(piece, spec, g, steps[0].0, steps[0].1), steps[1..]);
    }
  }

  /** Only finishing makes the terminal sink call. */
  lemma {:induction false} AcceptingNeverNotifies(piece: Token -> string, spec: Spec, g: Gen, steps: seq<(NextToken, bool)>)
    ensures AcceptAll(piece, spec, g, steps).notified == g.notified
    decreases |steps|
  {
    if steps != [] {
      AcceptingNeverNotifies(piece, spec, Accept(piece, spec, g, steps[0].0, steps[0].1), steps[1..]);
    }
  }

  /** For every token stream, piece table, stop list and cancellation pattern: the deltas
      concatenate to the delivered text, which contains no stop string; a stop finish
      delivers exactly the text before the earliest match; an end-of-generation or
      max-token finish delivers everything. The same holds of a stream that a failure cuts
      short at any point, which delivers nothing more. */
  lemma StreamingIsExact(piece: Token -> string, spec: Spec, steps: seq<(NextToken, bool)>)
    ensures var g := AcceptAll(piece, spec, NEW_GEN, steps);
      && Streamed(g.sink) == EmittedText(g) && Clean(spec.stop, EmittedText(g))
      && (g.finished ==>
            var f := Finish(g);
            && Streamed(f.sink) == EmittedText(f) && Clean(spec.stop, EmittedText(f))
            && (f.reason == StopString ==> EarliestStop(spec.stop, f.text) == Some(|EmittedText(f)|))
            && (f.reason == Eos || f.reason == MaxTokens || f.reason == Cancelled ==> EmittedText(f) == f.text))
    ensures forall failure, reason :: reason == Error || reason == ContextOverflow ==>
      var g := AcceptAll(piece, spec, NEW_GEN, steps);
      var f := Finish(Fail(g, failure, reason));
      && Streamed(f.sink) == EmittedText(f) == EmittedText(g) && Clean(spec.stop, EmittedText(f))
      && f.sink == g.sink + [OnError(failure)]
  {
    NewGenStreams(spec.stop);
    AcceptAllKeepsStream(piece, spec, NEW_GEN, steps);
    AcceptingNeverNotifies(piece, spec, NEW_GEN, steps);
    var g := AcceptAll(piece, spec, NEW_GEN, steps);
    if g.finished {
      FinishKeepsStream(spec.stop, g);
    }
    forall failure, reason | reason == Error || reason == ContextOverflow
      ensures var f := Finish(Fail(g, failure, reason));
        && Streamed(f.sink) == EmittedText(f) == EmittedText(g) && Clean(spec.stop, EmittedText(f))
        && f.sink == g.sink + [OnError(failure)]
    {
      FailKeepsStream(spec.stop, g, failure, reason);
      FinishKeepsStream(spec.stop, Fail(g, failure, reason));
    }
  }

  /* ---------------- placement and prefill ---------------- */

  datatype SeqStateRaw = SeqState(
    sid: SeqId, spec: Spec, prompt: seq<Token>, prefilled: nat, cached: nat, gen: Gen)

  /** No more than the prompt is ever submitted as prompt. */
  type SeqState = s: SeqStateRaw | s.prefilled <= |s.prompt|
    witness SeqState(0, Spec("", [], 0, DEFAULT_SAMPLING), [], 0, 0, NEW_GEN)

  function NewState(sid: SeqId, spec: Spec, prompt: seq<Token>): SeqState {
    SeqState(sid, spec, prompt, 0, 0, NEW_GEN)
  }

  function Min(a: nat, b: nat): nat {
    if a < b then a else b
  }

  /** Keeps one prompt token back: the last prefill chunk is what samples the first token. */
  function AdoptCachedPrefix(st: SeqState, n: nat): (r: SeqState)
    ensures r.prompt == st.prompt && (st.prompt != [] ==> r.prefilled < |r.prompt|)
  {
    var take := Min(n, if st.prompt == [] then 0 else |st.prompt| - 1);
    st.(prefilled := take, cached := take)
  }

  function PrefillRemaining(st: SeqState): nat {
    |st.prompt| - st.prefilled
  }

  predicate Prefilling(st: SeqState) {
    PrefillRemaining(st) > 0
  }

  function TakePrefillChunk(st: SeqState, budget: nat): (BatchItem, SeqState) {
    var take := Min(budget, PrefillRemaining(st));
    var upto := st.prefilled + take;
    (BatchItem(st.sid, st.prompt[st.prefilled..upto], st.prefilled, upto == |st.prompt|),
     st.(prefilled := upto))
  }

  /** Where the pending token is fed back in: derived, never stored. */
  function FeedPos(st: SeqState): int {
    |st.prompt| + st.gen.completion - 1
  }

  function DecodeItem(st: SeqState): BatchItem {
    BatchItem(st.sid, [st.gen.pending], FeedPos(st), true)
  }

  function ResultOf(g: Gen, promptTokens: nat): Result {
    Result(EmittedText(g), g.reason, promptTokens, g.completion,
           if g.reason == Error || g.reason == ContextOverflow then g.failure else NoFailure)
  }

  /** The prefill items a sequence submits when offered these budgets in turn. */
  function Chunks(st: SeqState, budgets: seq<nat>): seq<BatchItem>
    decreases |budgets|
  {
    if budgets == [] || !Prefilling(st) then []
    else
      var (item, next) := TakePrefillChunk(st, budgets[0]);
      [item] + Chunks(next, budgets[1..])
  }

  function ChunkTokens(items: seq<BatchItem>): seq<Token> {
    if items == [] then [] else items[0].tokens + ChunkTokens(items[1..])
  }

  /** Consecutive stretches of `prompt` from position `from` on, each placed where the
      previous one ended; exactly the one that completes the prompt samples, and it is last. */
  predicate ConsecutiveChunks(items: seq<BatchItem>, prompt: seq<Token>, from: nat) {
    if items == [] then true
    else
      var item := items[0];
      var upto := from + |item.tokens|;
      && item.pos0 == from && upto <= |prompt| && item.tokens == prompt[from..upto]
      && (item.sample <==> upto == |prompt|)
      && (item.sample ==> |items| == 1)
      && ConsecutiveChunks(items[1..], prompt, upto)
  }

  /** However the prompt is chunked after adopting a prefix, the chunks cover it in order. */
  lemma {:induction false} ChunksAreConsecutive(st: SeqState, budgets: seq<nat>)
    ensures ConsecutiveChunks(Chunks(st, budgets), st.prompt, st.prefilled)
    decreases |budgets|
  {
    if budgets != [] && Prefilling(st) {
      var (item, next) := TakePrefillChunk(st, budgets[0]);
      ChunksAreConsecutive(next, budgets[1..]);
      assert Chunks(st, budgets)[1..] == Chunks(next, budgets[1..]);
    }
  }

  /** Offered enough budget, the whole rest of the prompt goes out and one token is sampled. */
  lemma {:induction false} ChunksComplete(st: SeqState, budgets: seq<nat>)
    requires Prefilling(st) && (forall k :: 0 <= k < |budgets| ==> budgets[k] > 0)
    requires |budgets| >= PrefillRemaining(st)
    ensures var items := Chunks(st, budgets);
      items != [] && Last(items).sample && ChunkTokens(items) == st.prompt[st.prefilled..]
    decreases |budgets|
  {
    var (item, next) := TakePrefillChunk(st, budgets[0]);
    assert Chunks(st, budgets)[1..] == Chunks(next, budgets[1..]);
    if Prefilling(next) {
      ChunksComplete(next, budgets[1..]);
    }
  }
}
