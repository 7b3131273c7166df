/** The per-request state machine as the object it is (src/core/sequence_state.cpp), each
    operation proved against its function on values in `Sequence`, and the run-to-completion
    generator that drives one of them (src/core/generator.cpp:12-27). */
module StateMachine {
  import opened Types
  import opened StopText
  import opened Sequence
  import opened Engine
  import opened Generator

  class SequenceState {
    const sid: SeqId
    const spec: Spec
    const prompt: seq<Token>
    const holdback: nat
    var prefilled: nat
    var cached: nat
    var pending: Token
    var text: string
    var emitted: nat
    var completion: nat
    var reason: FinishReason
    var finished: bool
    var notified: bool
    var failure: Failure
    var sink: seq<SinkEvent>

    ghost predicate Valid()
      reads this
    {
      prefilled <= |prompt| && holdback == MaxStopLen(spec.stop)
    }

    ghost function Progress(): Gen
      reads this
    {
      Gen(text, emitted, completion, pending, reason, finished, notified, failure, sink)
    }

    ghost function View(): SeqState
      requires Valid()
      reads this
    {
      SeqState(sid, spec, prompt, prefilled, cached, Progress())
    }

    constructor (slot: SeqId, request: Spec, tokens: seq<Token>)
      ensures Valid() && View() == NewState(slot, request, tokens)
    {
      var hold := FindMaxStopLen(request.stop);
      sid, spec, prompt, holdback := slot, request, tokens, hold;
      prefilled, cached, pending, text, emitted, completion := 0, 0, 0, "", 0, 0;
      reason, finished, notified, failure, sink := Unset, false, false, NoFailure, [];
    }

    /** Must precede the first prefill chunk. */
    method AdoptCachedPrefix(n: nat)
      requires Valid()
      modifies this
      ensures Valid() && View() == Sequence.AdoptCachedPrefix(old(View()), n)
    {
      var most := if prompt == [] then 0 else |prompt| - 1;
      prefilled := if n < most then n else most;
      cached := prefilled;
    }

    method TakePrefillChunk(budget: nat) returns (item: BatchItem)
      requires Valid()
      modifies this
      ensures Valid() && (item, View()) == Sequence.TakePrefillChunk(old(View()), budget)
    {
      var take := if budget < |prompt| - prefilled then budget else |prompt| - prefilled;
      var from := prefilled;
      prefilled := prefilled + take;
      item := BatchItem(sid, prompt[from..from + take], from, prefilled == |prompt|);
    }

    /** Pure read: the pending token, at the position derived for it. */
    method NextItem() returns (item: BatchItem)
      requires Valid()
      ensures item == DecodeItem(View())
    {
      item := BatchItem(sid, [pending], |prompt| + completion - 1, true);
    }

    method FlushUpto(upto: nat)
      requires upto <= |text|
      modifies this`sink, this`emitted
      ensures Progress() == Sequence.FlushUpto(old(Progress()), upto)
    {
      if upto > emitted {
        sink := sink + [OnText(text[emitted..upto])];
        emitted := upto;
      }
    }

    method StopWith(why: FinishReason)
      modifies this`reason, this`finished
      ensures Progress() == Sequence.StopWith(old(Progress()), why)
    {
      reason, finished := why, true;
    }

    /** Consume a sampled token; says whether the sequence needs another step. */
    method Accept(piece: Token -> string, step: NextToken, cancelled: bool) returns (more: bool)
      requires Valid()
      modifies this
      ensures Valid() && prefilled == old(prefilled) && cached == old(cached)
      ensures Progress() == Sequence.Accept(piece, spec, old(Progress()), step, cancelled)
      ensures more == !finished
    {
      if finished {
        return false;
      }
      if step.isEog {
        StopWith(Eos);
        return false;
      }
      if completion >= spec.maxTokens {
        StopWith(MaxTokens);
        return false;
      }
      text := text + piece(step.token);
      completion := completion + 1;
      ghost var grown := Progress();
      assert grown == Grown(piece, old(Progress()), step);
      var stopAt := FindEarliestStop(text, spec.stop);
      if stopAt.Some? {
        FlushUpto(stopAt.value);
        StopWith(StopString);
        return false;
      }
      var safe := if holdback == 0 then |text| else if |text| >= holdback - 1 then |text| - (holdback - 1) else 0;
      assert safe == SafePrefix(spec.stop, grown.text);
      FlushUpto(safe);
      assert Progress() == Sequence.FlushUpto(grown, SafePrefix(spec.stop, grown.text));
      if cancelled {
        FlushUpto(|text|);
        StopWith(Cancelled);
        return false;
      }
      pending := step.token;
      more := true;
    }

    method Fail(why: Failure, how: FinishReason)
      modifies this
      ensures Progress() == Sequence.Fail(old(Progress()), why, how)
      ensures prefilled == old(prefilled) && cached == old(cached)
    {
      failure := why;
      StopWith(how);
    }

    /** Notifies the sink exactly once, however often it is called. */
    method Finish()
      modifies this
      ensures Progress() == Sequence.Finish(old(Progress()))
      ensures prefilled == old(prefilled) && cached == old(cached)
    {
      if notified {
        return;
      }
      notified, finished := true, true;
      if reason == Error || reason == ContextOverflow {
        sink := sink + [OnError(failure)];
        return;
      }
      if reason == Eos || reason == MaxTokens {
        FlushUpto(|text|);
      }
      sink := sink + [OnFinish(reason, completion)];
    }
  }

  /** The engine the interface describes (include/microvllm/model_engine.hpp:64-96), holding
      each sequence's KV by position. */
  class KvEngine {
    const be: Backend
    var kv: Kv

    /** The batches submitted so far, those that threw included. */
    ghost var passes: seq<seq<BatchItem>>

    constructor (backend: Backend)
      ensures be == backend && kv == map[] && passes == []
    {
      be, kv, passes := backend, map[], [];
    }

    method BeginSequence(sid: SeqId, sampling: Sampling)
      modifies this
      ensures kv == Begin(old(kv), sid, sampling) && passes == old(passes)
    {
      kv := kv[sid := SeqKv(sampling, [])];
    }

    method DecodeBatch(items: seq<BatchItem>) returns (steps: seq<GenStep>)
      modifies this
      ensures (kv, steps) == Decode(be, old(kv), items) && passes == old(passes) + [items]
    {
      steps := [];
      var i := 0;
      while i < |items|
        invariant i <= |items| && passes == old(passes)
        invariant Decode(be, old(kv), items).0 == Decode(be, kv, items[i..]).0
        invariant Decode(be, old(kv), items).1 == steps + Decode(be, kv, items[i..]).1
      {
        ghost var rest := Decode(be, kv, items[i..]).1;
        assert items[i..][1..] == items[i + 1..];
        kv := WriteItem(kv, items[i]);
        if items[i].sample {
          assert rest == [StepOf(be, kv, items[i])] + Decode(be, kv, items[i + 1..]).1;
          steps := steps + [StepOf(be, kv, items[i])];
        }
        i := i + 1;
      }
      assert items[i..] == [];
      assert steps + Decode(be, kv, []).1 == steps;
      passes := passes + [items];
    }

    method Throw(items: seq<BatchItem>, garbage: map<SeqId, seq<Token>>)
      modifies this
      ensures kv == Scramble(old(kv), Touched(items), garbage) && passes == old(passes) + [items]
    {
      passes := passes + [items];
      kv := Scramble(kv, Touched(items), garbage);
    }

    method ReleaseSequence(sid: SeqId)
      modifies this
      ensures kv == Release(old(kv), sid) && passes == old(passes)
    {
      kv := kv - {sid};
    }

    method CopySequence(src: SeqId, dst: SeqId, n: nat)
      modifies this
      ensures kv == Copy(old(kv), src, dst, n) && passes == old(passes)
    {
      if n == 0 || src == dst || src !in kv || dst !in kv {
        return;
      }
      var cells := kv[src].cells;
      kv := kv[dst := kv[dst].(cells := if n <= |cells| then cells[..n] else cells)];
    }
  }

  /** The engine after one sampling item placed directly behind the KV of its sequence: the
      KV has grown by it and the next token is sampled from all of it. */
  lemma SampledBehind(be: Backend, kv: Kv, item: BatchItem, c: SeqKv)
    requires item.sample && item.sid in kv && kv[item.sid] == c && item.pos0 == |c.cells|
    ensures Decode(be, kv, [item]) == (kv[item.sid := c.(cells := c.cells + item.tokens)],
                                       [GenStep(item.sid, be.next(c.sampling, c.cells + item.tokens))])
  {
    DecodeOne(be, kv, item);
    WriteBehind(c.cells, item.tokens);
    var grown := c.cells + item.tokens;
    assert WriteItem(kv, item)[item.sid].cells == grown && grown[..|grown|] == grown;
  }

  /** Run a batch of one item placed directly behind the KV of its sequence. */
  method Feed(engine: KvEngine, item: BatchItem, ghost c: SeqKv) returns (next: NextToken)
    requires item.sample && item.sid in engine.kv && engine.kv[item.sid] == c && item.pos0 == |c.cells|
    modifies engine
    ensures engine.kv == old(engine.kv)[item.sid := c.(cells := c.cells + item.tokens)]
    ensures next == engine.be.next(c.sampling, c.cells + item.tokens)
  {
    SampledBehind(engine.be, engine.kv, item, c);
    var steps := engine.DecodeBatch([item]);
    next := steps[0].next;
  }

  /** With `cells` in the KV cache, generation goes on to the reference outcome. */
  ghost predicate Continues(be: Backend, spec: Spec, g: Gen, cells: seq<Token>) {
    if g.finished then Sequence.Finish(g) == Reference(be, spec)
    else g.completion <= spec.maxTokens && Final(be, spec, g, cells + [g.pending]) == Reference(be, spec)
  }

  lemma ContinueOne(be: Backend, spec: Spec, g: Gen, cells: seq<Token>)
    requires !g.finished && Final(be, spec, g, cells) == Reference(be, spec)
    ensures var r := Sequence.Accept(be.piece, spec, g, be.next(spec.sampling, cells), false);
      Continues(be, spec, r, cells) && (!r.finished ==> r.completion == g.completion + 1)
  {
    AcceptCounts(be.piece, spec, g, be.next(spec.sampling, cells), false);
  }

  /** Feed the pending token back, behind the history `cells`, and accept what is sampled. */
  method FeedBack(engine: KvEngine, state: SequenceState, ghost cells: seq<Token>) returns (more: bool)
    requires state.Valid() && !state.finished && |cells| == |state.prompt| + state.completion - 1
    requires state.sid in engine.kv && engine.kv[state.sid] == SeqKv(state.spec.sampling, cells)
    requires Continues(engine.be, state.spec, state.Progress(), cells)
    modifies engine, state
    ensures state.Valid()
    ensures engine.kv == old(engine.kv)[state.sid := SeqKv(state.spec.sampling, cells + [old(state.pending)])]
    ensures more == !state.finished && (more ==> state.completion == old(state.completion) + 1)
    ensures Continues(engine.be, state.spec, state.Progress(), cells + [old(state.pending)])
  {
    var next := state.NextItem();
    var step := Feed(engine, next, SeqKv(state.spec.sampling, cells));
    ContinueOne(engine.be, state.spec, state.Progress(), cells + [state.pending]);
    more := state.Accept(engine.be.piece, step, false);
  }

  /** `generate_one`: a batch of one, run to completion. Its outcome is the reference, and the
      engine is left as it was, without the sequence. */
  method GenerateOne(engine: KvEngine, sid: SeqId, spec: Spec) returns (state: SequenceState)
    modifies engine
    ensures fresh(state) && state.Progress() == Reference(engine.be, spec)
    ensures engine.kv == Release(old(engine.kv), sid)
  {
    var be := engine.be;
    var prompt := be.tokenize(spec.prompt);
    state := new SequenceState(sid, spec, prompt);
    engine.BeginSequence(sid, spec.sampling);
    ghost var others := engine.kv;
    assert Release(others, sid) == Release(old(engine.kv), sid);

    var first := state.TakePrefillChunk(|prompt|);
    assert first == BatchItem(sid, prompt, 0, true);
    var step := Feed(engine, first, SeqKv(spec.sampling, []));
    assert [] + prompt == prompt;
    ghost var cells := prompt;
    ContinueOne(be, spec, NEW_GEN, cells);
    var more := state.Accept(be.piece, step, false);

    while more
      invariant state.Valid() && state.spec == spec && state.prompt == prompt && state.sid == sid && fresh(state)
      invariant engine.kv == others[sid := SeqKv(spec.sampling, cells)]
      invariant more == !state.finished
      invariant more ==> |cells| == |prompt| + state.completion - 1
      invariant Continues(be, spec, state.Progress(), cells)
      decreases if more then spec.maxTokens - state.completion + 1 else 0
    {
      ghost var pending := state.pending;
      more := FeedBack(engine, state, cells);
      cells := cells + [pending];
    }
    assert Release(engine.kv, sid) == Release(others, sid);
    engine.ReleaseSequence(sid);
    state.Finish();
  }
}
