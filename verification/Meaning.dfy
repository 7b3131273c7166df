/** What `generate_one` means, without the state machine: sample greedily until the model ends,
    the token budget is used up or a stop string appears, and deliver the text before that
    (src/core/generator.cpp:12-27, src/core/sequence_state.cpp:102-159). */
module Meaning {
  import opened Types
  import opened StopText
  import opened Sequence
  import opened Generator

  /** The token the model would sample after generating `tokens`. */
  function NextAfter(be: Backend, spec: Spec, tokens: seq<Token>): NextToken {
    be.next(spec.sampling, be.tokenize(spec.prompt) + tokens)
  }

  /** The first `k` tokens, with nothing to stop them. */
  function Sampled(be: Backend, spec: Spec, k: nat): (r: seq<Token>)
    ensures |r| == k
  {
    if k == 0 then [] else Sampled(be, spec, k - 1) + [NextAfter(be, spec, Sampled(be, spec, k - 1)).token]
  }

  function TextOf(piece: Token -> string, tokens: seq<Token>): string {
    if tokens == [] then "" else TextOf(piece, DropLast(tokens)) + piece(Last(tokens))
  }

  function TextAfter(be: Backend, spec: Spec, k: nat): string {
    TextOf(be.piece, Sampled(be, spec, k))
  }

  /** After `k` tokens another one is wanted, allowed and harmless. */
  predicate GoesOn(be: Backend, spec: Spec, k: nat) {
    && !NextAfter(be, spec, Sampled(be, spec, k)).isEog && k < spec.maxTokens
    && EarliestStop(spec.stop, TextAfter(be, spec, k + 1)).None?
  }

  /** The first count from `k` on at which it does not go on. */
  function StopsAt(be: Backend, spec: Spec, k: nat): (n: nat)
    ensures k <= n && !GoesOn(be, spec, n) && forall i :: k <= i < n ==> GoesOn(be, spec, i)
    decreases if k < spec.maxTokens then spec.maxTokens - k else 0
  {
    if GoesOn(be, spec, k) then StopsAt(be, spec, k + 1) else k
  }

  /** The answer, if generation stops after `n` tokens. */
  function AnswerAt(be: Backend, spec: Spec, n: nat): Result {
    var prompt := |be.tokenize(spec.prompt)|;
    if NextAfter(be, spec, Sampled(be, spec, n)).isEog then Result(TextAfter(be, spec, n), Eos, prompt, n, NoFailure)
    else if n >= spec.maxTokens then Result(TextAfter(be, spec, n), MaxTokens, prompt, n, NoFailure)
    else
      var text := TextAfter(be, spec, n + 1);
      match EarliestStop(spec.stop, text)
      case Some(at) => Result(text[..at], StopString, prompt, n + 1, NoFailure)
      case None => Result(text, Unset, prompt, n + 1, NoFailure)
  }

  /** The state machine after `k` accepted tokens. */
  ghost predicate Midway(be: Backend, spec: Spec, g: Gen, k: nat) {
    && !g.finished && !g.notified && g.failure == NoFailure && g.completion == k <= spec.maxTokens
    && g.text == TextAfter(be, spec, k) && StreamOk(spec.stop, g)
  }

  lemma OneMoreText(be: Backend, spec: Spec, k: nat)
    ensures TextAfter(be, spec, k + 1) == TextAfter(be, spec, k) + be.piece(NextAfter(be, spec, Sampled(be, spec, k)).token)
  {
    assert DropLast(Sampled(be, spec, k + 1)) == Sampled(be, spec, k);
  }

  /** Where a token is wanted, allowed and harmless, the machine takes it and goes on. */
  lemma AcceptGoesOn(be: Backend, spec: Spec, g: Gen, k: nat)
    requires Midway(be, spec, g, k) && GoesOn(be, spec, k)
    ensures var r := Accept(be.piece, spec, g, NextAfter(be, spec, Sampled(be, spec, k)), false);
      Midway(be, spec, r, k + 1) && r.pending == Last(Sampled(be, spec, k + 1))
  {
    OneMoreText(be, spec, k);
    AcceptKeepsStream(be.piece, spec, g, NextAfter(be, spec, Sampled(be, spec, k)), false);
  }

  /** Where it is not, the machine ends with the answer. */
  lemma AcceptEnds(be: Backend, spec: Spec, g: Gen, k: nat)
    requires Midway(be, spec, g, k) && !GoesOn(be, spec, k)
    ensures var r := Accept(be.piece, spec, g, NextAfter(be, spec, Sampled(be, spec, k)), false);
      r.finished && ResultOf(Finish(r), |be.tokenize(spec.prompt)|) == AnswerAt(be, spec, k)
  {
    var next := NextAfter(be, spec, Sampled(be, spec, k));
    OneMoreText(be, spec, k);
    AcceptKeepsStream(be.piece, spec, g, next, false);
    var r := Accept(be.piece, spec, g, next, false);
    FinishKeepsStream(spec.stop, r);
    EndsWith(be, spec, g, k, next, r);
  }

  lemma EndsWith(be: Backend, spec: Spec, g: Gen, k: nat, next: NextToken, r: Gen)
    requires Midway(be, spec, g, k) && !GoesOn(be, spec, k) && next == NextAfter(be, spec, Sampled(be, spec, k))
    requires r == Accept(be.piece, spec, g, next, false) && r.finished && StreamOk(spec.stop, Finish(r))
    requires TextAfter(be, spec, k + 1) == g.text + be.piece(next.token)
    ensures ResultOf(Finish(r), |be.tokenize(spec.prompt)|) == AnswerAt(be, spec, k)
  {
    var f := Finish(r);
    if next.isEog || k >= spec.maxTokens {
      assert f.text == g.text && f.emitted == |f.text|;
      assert EmittedText(f) == g.text;
    } else {
      assert r.text == TextAfter(be, spec, k + 1) && r.reason == StopString;
    }
  }

  lemma {:induction false} FinalIsExact(be: Backend, spec: Spec, g: Gen, k: nat)
    requires Midway(be, spec, g, k)
    ensures ResultOf(Final(be, spec, g, be.tokenize(spec.prompt) + Sampled(be, spec, k)), |be.tokenize(spec.prompt)|)
      == AnswerAt(be, spec, StopsAt(be, spec, k))
    decreases spec.maxTokens - k
  {
    var prompt := be.tokenize(spec.prompt);
    if GoesOn(be, spec, k) {
      AcceptGoesOn(be, spec, g, k);
      var r := Accept(be.piece, spec, g, NextAfter(be, spec, Sampled(be, spec, k)), false);
      assert (prompt + Sampled(be, spec, k)) + [r.pending] == prompt + Sampled(be, spec, k + 1);
      FinalIsExact(be, spec, r, k + 1);
    } else {
      AcceptEnds(be, spec, g, k);
    }
  }

  /** THE REFERENCE IS WHAT IT SHOULD BE. `generate_one` answers with the text sampled up to the
      first count at which the model ends, the budget is used up, or a stop string has
      appeared, cut in front of the stop string; with that count, and that reason, in this
      order of precedence. */
  lemma ReferenceIsExact(be: Backend, spec: Spec)
    ensures ReferenceResult(be, spec) == AnswerAt(be, spec, StopsAt(be, spec, 0))
  {
    NewGenStreams(spec.stop);
    assert be.tokenize(spec.prompt) + Sampled(be, spec, 0) == be.tokenize(spec.prompt);
    FinalIsExact(be, spec, NEW_GEN, 0);
  }
}
