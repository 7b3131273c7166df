/** The run-to-completion reference (src/core/generator.cpp:12-27): what one request produces
    when it is the only one. */
module Generator {
  import opened Types
  import opened Sequence

  /** Keep sampling from `hist` until the sequence finishes, then flush and notify. */
  function Final(be: Backend, spec: Spec, g: Gen, hist: seq<Token>): Gen
    decreases if g.completion <= spec.maxTokens then spec.maxTokens - g.completion else 0
  {
    var g' := Accept(be.piece, spec, g, be.next(spec.sampling, hist), false);
    if g'.finished then Finish(g') else Final(be, spec, g', hist + [g'.pending])
  }

  function Reference(be: Backend, spec: Spec): Gen {
    Final(be, spec, NEW_GEN, be.tokenize(spec.prompt))
  }

  /** The response `generate_one` gives for a request on its own. */
  function ReferenceResult(be: Backend, spec: Spec): Result {
    ResultOf(Reference(be, spec), |be.tokenize(spec.prompt)|)
  }
}
