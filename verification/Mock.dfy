/** The deterministic engine without a model (src/engine/mock_engine.cpp:51-138). It keeps, per
    sequence, the prompt tokens it was given and how much of its reply it has produced; its
    reply is a fixed text, or in echo mode the prompt without the start token. */
module Mock {
  import opened Types
  import opened Sequence
  import opened Engine

  const EOS: Token := 256
  const BOS: Token := 257

  datatype MockConfig = MockConfig(response: seq<Token>, echo: bool)

  datatype MockSeq = MockSeq(genIndex: nat, prefilled: seq<Token>)

  type Seqs = map<SeqId, MockSeq>

  function Echo(tokens: seq<Token>): seq<Token> {
    if tokens == [] then [] else Echo(DropLast(tokens)) + (if Last(tokens) == BOS then [] else [Last(tokens)])
  }

  function Reply(cfg: MockConfig, m: MockSeq): seq<Token> {
    if cfg.echo then Echo(m.prefilled) else cfg.response
  }

  /** Prompt tokens are appended, wherever the item says they belong. */
  function Feed(cfg: MockConfig, m: MockSeq, item: BatchItem): MockSeq {
    if cfg.echo && m.genIndex == 0 then m.(prefilled := m.prefilled + item.tokens) else m
  }

  function Sample(cfg: MockConfig, m: MockSeq): (MockSeq, NextToken) {
    if m.genIndex < |Reply(cfg, m)| then (m.(genIndex := m.genIndex + 1), NextToken(Reply(cfg, m)[m.genIndex], false))
    else (m, NextToken(EOS, true))
  }

  function One(cfg: MockConfig, m: MockSeq, item: BatchItem): (MockSeq, seq<GenStep>) {
    var fed := Feed(cfg, m, item);
    if !item.sample then (fed, [])
    else
      var (m', next) := Sample(cfg, fed);
      (m', [GenStep(item.sid, next)])
  }

  /** A pass over a batch, up to the first item whose sequence is unknown, if any. */
  function Pass(cfg: MockConfig, seqs: Seqs, items: seq<BatchItem>): (Seqs, seq<GenStep>, bool)
    decreases |items|
  {
    if items == [] then (seqs, [], true)
    else if items[0].sid !in seqs then (seqs, [], false)
    else
      var (m, steps) := One(cfg, seqs[items[0].sid], items[0]);
      var (seqs', more, ok) := Pass(cfg, seqs[items[0].sid := m], items[1..]);
      (seqs', steps + more, ok)
  }

  function CopyPrefix(seqs: Seqs, src: SeqId, dst: SeqId, n: nat): Seqs {
    if n == 0 || src == dst || src !in seqs || dst !in seqs then seqs
    else
      var have := seqs[src].prefilled;
      seqs[dst := seqs[dst].(prefilled := if n < |have| then have[..n] else have)]
  }

  /* ---------------- the object ---------------- */

  class MockEngine {
    const cfg: MockConfig
    var sequences: Seqs

    constructor (c: MockConfig)
      ensures cfg == c && sequences == map[]
    {
      cfg, sequences := c, map[];
    }

    method BeginSequence(sid: SeqId)
      modifies this
      ensures sequences == old(sequences)[sid := MockSeq(0, [])]
    {
      sequences := sequences[sid := MockSeq(0, [])];
    }

    method ReleaseSequence(sid: SeqId)
      modifies this
      ensures sequences == old(sequences) - {sid}
    {
      sequences := sequences - {sid};
    }

    /** The reply a sequence is to give: in echo mode, what it was fed without start tokens. */
    method ReplyOf(m: MockSeq) returns (reply: seq<Token>)
      ensures reply == Reply(cfg, m)
    {
      if !cfg.echo {
        return cfg.response;
      }
      reply := [];
      for i := 0 to |m.prefilled|
        invariant reply == Echo(m.prefilled[..i])
      {
        assert DropLast(m.prefilled[..i + 1]) == m.prefilled[..i];
        if m.prefilled[i] != BOS {
          reply := reply + [m.prefilled[i]];
        }
      }
      assert m.prefilled[..|m.prefilled|] == m.prefilled;
    }

    /** What one item does to its sequence, and the step it yields. */
    method Advance(item: BatchItem) returns (out: seq<GenStep>)
      requires item.sid in sequences
      modifies this
      ensures sequences == old(sequences)[item.sid := One(cfg, old(sequences)[item.sid], item).0]
      ensures out == One(cfg, old(sequences)[item.sid], item).1
    {
      var state := sequences[item.sid];
      if cfg.echo && state.genIndex == 0 {
        state := state.(prefilled := state.prefilled + item.tokens);
      }
      out := [];
      if item.sample {
        var reply := ReplyOf(state);
        if state.genIndex < |reply| {
          out := [GenStep(item.sid, NextToken(reply[state.genIndex], false))];
          state := state.(genIndex := state.genIndex + 1);
        } else {
          out := [GenStep(item.sid, NextToken(EOS, true))];
        }
      }
      sequences := sequences[item.sid := state];
    }

    /** Not `ok` where the source throws; what was done before that stays done. */
    method Decode(items: seq<BatchItem>) returns (steps: seq<GenStep>, ok: bool)
      modifies this
      ensures (sequences, steps, ok) == Pass(cfg, old(sequences), items)
    {
      steps := [];
      var i := 0;
      assert items[0..] == items;
      while i < |items|
        invariant i <= |items|
        invariant Pass(cfg, old(sequences), items).0 == Pass(cfg, sequences, items[i..]).0
        invariant Pass(cfg, old(sequences), items).1 == steps + Pass(cfg, sequences, items[i..]).1
        invariant Pass(cfg, old(sequences), items).2 == Pass(cfg, sequences, items[i..]).2
      {
        assert items[i..][0] == items[i] && items[i..][1..] == items[i + 1..];
        if items[i].sid !in sequences {
          assert steps + [] == steps;
          return steps, false;
        }
        ghost var rest := Pass(cfg, sequences, items[i..]).1;
        var one := Advance(items[i]);
        assert rest == one + Pass(cfg, sequences, items[i + 1..]).1;
        assert steps + rest == (steps + one) + Pass(cfg, sequences, items[i + 1..]).1;
        steps := steps + one;
        i := i + 1;
      }
      assert items[i..] == [];
      assert steps + [] == steps;
      ok := true;
    }

    method CopySequence(src: SeqId, dst: SeqId, n: nat)
      modifies this
      ensures sequences == CopyPrefix(old(sequences), src, dst, n)
    {
      if n == 0 || src == dst || src !in sequences || dst !in sequences {
        return;
      }
      var have := sequences[src].prefilled;
      var take := if n < |have| then n else |have|;
      sequences := sequences[dst := sequences[dst].(prefilled := have[..take])];
      assert have[..|have|] == have;
    }
  }

  /* ---------------- what a pass does ---------------- */

  /** A pass throws if and only if some item's sequence was never begun. */
  lemma {:induction false} ThrowsOnlyIfUnknown(cfg: MockConfig, seqs: Seqs, items: seq<BatchItem>)
    ensures Pass(cfg, seqs, items).2 <==> forall i :: 0 <= i < |items| ==> items[i].sid in seqs
    ensures Pass(cfg, seqs, items).0.Keys == seqs.Keys
    decreases |items|
  {
    if items != [] && items[0].sid in seqs {
      var next := seqs[items[0].sid := One(cfg, seqs[items[0].sid], items[0]).0];
      assert next.Keys == seqs.Keys;
      ThrowsOnlyIfUnknown(cfg, next, items[1..]);
      assert forall i :: 1 <= i < |items| ==> items[i] == items[1..][i - 1];
      if forall i :: 0 <= i < |items[1..]| ==> items[1..][i].sid in seqs {
        assert forall i :: 0 <= i < |items| ==> items[i].sid in seqs;
      }
    }
  }

  /** One step per sampling item, in order. */
  lemma {:induction false} OneStepPerSample(cfg: MockConfig, seqs: Seqs, items: seq<BatchItem>)
    requires Pass(cfg, seqs, items).2
    ensures var steps := Pass(cfg, seqs, items).1;
      |steps| == |SampledSids(items)| && forall k :: 0 <= k < |steps| ==> steps[k].sid == SampledSids(items)[k]
    decreases |items|
  {
    if items != [] {
      OneStepPerSample(cfg, seqs[items[0].sid := One(cfg, seqs[items[0].sid], items[0]).0], items[1..]);
    }
  }

  /** A sequence with one item in the batch is advanced by that item alone, whatever else is
      in the batch; one with none is not touched. */
  lemma {:induction false} PassIsPerSequence(cfg: MockConfig, seqs: Seqs, items: seq<BatchItem>, k: SeqId)
    requires Pass(cfg, seqs, items).2 && k in seqs && DistinctSids(items)
    ensures Pass(cfg, seqs, items).0.Keys == seqs.Keys
    ensures ForOther(items, k) ==> Pass(cfg, seqs, items).0[k] == seqs[k]
    ensures forall i :: 0 <= i < |items| && items[i].sid == k ==> Pass(cfg, seqs, items).0[k] == One(cfg, seqs[k], items[i]).0
    decreases |items|
  {
    if items != [] {
      var next := seqs[items[0].sid := One(cfg, seqs[items[0].sid], items[0]).0];
      assert next.Keys == seqs.Keys;
      assert forall i, j :: 0 <= i < j < |items[1..]| ==> items[1..][i] == items[i + 1] && items[1..][j] == items[j + 1];
      PassIsPerSequence(cfg, next, items[1..], k);
      if items[0].sid == k {
        assert ForOther(items[1..], k);
      }
      forall i | 0 <= i < |items| && items[i].sid == k
        ensures Pass(cfg, seqs, items).0[k] == One(cfg, seqs[k], items[i]).0
      {
        if i > 0 {
          assert items[1..][i - 1] == items[i];
        }
      }
    }
  }

  /* ---------------- echo ---------------- */

  function FeedAll(cfg: MockConfig, m: MockSeq, items: seq<BatchItem>): MockSeq
    decreases |items|
  {
    if items == [] then m else FeedAll(cfg, Feed(cfg, m, items[0]), items[1..])
  }

  /** However the prompt is chunked, and whatever prefix was inherited by copy, a sequence that
      is fed the rest of its prompt holds exactly its prompt. */
  lemma {:induction false} ChunksRebuildThePrompt(cfg: MockConfig, m: MockSeq, items: seq<BatchItem>, prompt: seq<Token>)
    requires cfg.echo && m.genIndex == 0 && |m.prefilled| <= |prompt| && m.prefilled == prompt[..|m.prefilled|]
    requires ConsecutiveChunks(items, prompt, |m.prefilled|) && ChunkTokens(items) == prompt[|m.prefilled|..]
    ensures FeedAll(cfg, m, items) == MockSeq(0, prompt)
    decreases |items|
  {
    if items == [] {
      assert prompt[|m.prefilled|..] == [];
      assert prompt[..|prompt|] == prompt;
    } else {
      var from, upto := |m.prefilled|, |m.prefilled| + |items[0].tokens|;
      var fed := Feed(cfg, m, items[0]);
      assert prompt[..from] + prompt[from..upto] == prompt[..upto];
      assert ChunkTokens(items[1..]) == prompt[from..][|items[0].tokens|..] == prompt[upto..];
      ChunksRebuildThePrompt(cfg, fed, items[1..], prompt);
    }
  }

  /** The first `n` tokens sampled from a sequence that is fed nothing more. */
  function SampleMany(cfg: MockConfig, m: MockSeq, n: nat): seq<NextToken>
    decreases n
  {
    if n == 0 then [] else
      var (m', next) := Sample(cfg, m);
      [next] + SampleMany(cfg, m', n - 1)
  }

  /** The k-th sampled token is the k-th of the reply, and the end token from then on. */
  lemma {:induction false} RepliesInOrder(cfg: MockConfig, m: MockSeq, n: nat, k: nat)
    requires k < n
    ensures |SampleMany(cfg, m, n)| == n
    ensures var reply := Reply(cfg, m);
      SampleMany(cfg, m, n)[k] ==
        if m.genIndex + k < |reply| then NextToken(reply[m.genIndex + k], false) else NextToken(EOS, true)
    decreases n
  {
    var (m', next) := Sample(cfg, m);
    if n > 1 {
      RepliesInOrder(cfg, m', n - 1, if k > 0 then k - 1 else 0);
    } else {
      assert SampleMany(cfg, m', 0) == [];
    }
  }

  /* ---------------- against KV by position ---------------- */

  /** Appending an item is writing it at its position if and only if the item is empty or
      starts directly behind what is held. */
  lemma AppendIsWriteIff(cfg: MockConfig, m: MockSeq, item: BatchItem)
    requires cfg.echo && m.genIndex == 0 && 0 <= item.pos0 <= |m.prefilled|
    ensures Feed(cfg, m, item).prefilled == Write(m.prefilled, item.pos0, item.tokens) <==>
      item.tokens == [] || item.pos0 == |m.prefilled|
  {
    if item.tokens == [] {
      assert m.prefilled[..item.pos0] + m.prefilled[item.pos0..] == m.prefilled;
      assert Write(m.prefilled, item.pos0, []) == m.prefilled;
    } else if item.pos0 == |m.prefilled| {
      WriteBehind(m.prefilled, item.tokens);
    }
  }

  /** After a hit on a whole prompt the last prompt token is fed again behind its own copy, so
      this engine replies with it twice. */
  lemma WholePromptHitRepeatsTheLastToken()
    ensures var cfg := MockConfig([], true);
      var prompt := [BOS, 65];
      var hit := CopyPrefix(map[0 := MockSeq(0, []), 1 := MockSeq(0, prompt)], 1, 0, 2)[0];
      var (item, _) := TakePrefillChunk(AdoptCachedPrefix(NewState(0, Spec("", [], 4, DEFAULT_SAMPLING), prompt), 2), 2);
      && Echo(prompt) == [65]
      && Reply(cfg, Feed(cfg, hit, item)) == [65, 65]
  {
    var prompt := [BOS, 65];
    assert DropLast([BOS, 65]) == [BOS] && DropLast([BOS]) == [];
    assert Echo([]) == [] && Echo([BOS]) == [];
    assert prompt[1..2] == [65];
    assert prompt + [65] == [BOS, 65, 65] && DropLast([BOS, 65, 65]) == [BOS, 65];
    assert Echo([BOS, 65, 65]) == [65] + [65];
  }
}
