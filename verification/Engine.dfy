/** The engine as the interface promises it (include/microvllm/model_engine.hpp:64-96): per
    sequence, the tokens whose KV is held, indexed by position. */
module Engine {
  import opened Types

  datatype SeqKv = SeqKv(sampling: Sampling, cells: seq<Token>)

  type Kv = map<SeqId, SeqKv>

  /** What reading a position that was never written yields. */
  const HOLE: Token := -1

  function Begin(kv: Kv, sid: SeqId, sampling: Sampling): Kv {
    kv[sid := SeqKv(sampling, [])]
  }

  function Release(kv: Kv, sid: SeqId): Kv {
    kv - {sid}
  }

  lemma ReleaseUndoesBegin(kv: Kv, sid: SeqId, sampling: Sampling)
    requires sid !in kv
    ensures Release(Begin(kv, sid, sampling), sid) == kv
  {
    assert Release(Begin(kv, sid, sampling), sid).Keys == kv.Keys;
  }

  /** `dst` receives positions [0, n) of `src`. */
  function Copy(kv: Kv, src: SeqId, dst: SeqId, n: nat): Kv {
    if n == 0 || src == dst || src !in kv || dst !in kv then kv
    else
      var cells := kv[src].cells;
      kv[dst := kv[dst].(cells := if n <= |cells| then cells[..n] else cells)]
  }

  /** Write at a position; a gap in front of it reads as holes. */
  function Write(cells: seq<Token>, pos0: int, tokens: seq<Token>): seq<Token> {
    if pos0 < 0 then cells
    else
      var base := if |cells| < pos0 then cells + seq(pos0 - |cells|, i => HOLE) else cells;
      base[..pos0] + tokens + (if pos0 + |tokens| < |base| then base[pos0 + |tokens|..] else [])
  }

  function WriteItem(kv: Kv, item: BatchItem): Kv {
    if item.sid in kv then kv[item.sid := kv[item.sid].(cells := Write(kv[item.sid].cells, item.pos0, item.tokens))]
    else kv
  }

  /** The history the model sees when it samples after `item`: everything up to the item's
      last token. A position below 0 is not addressable, so behind it the model sees the
      item's own tokens only. */
  function HistoryAt(kv: Kv, item: BatchItem): seq<Token>
    requires item.sid in kv
  {
    var cells := kv[item.sid].cells;
    var upto := item.pos0 + |item.tokens|;
    if item.pos0 < 0 then item.tokens else if upto <= |cells| then cells[..upto] else cells
  }

  function StepOf(be: Backend, kv: Kv, item: BatchItem): GenStep {
    GenStep(item.sid,
            if item.sid in kv then be.next(kv[item.sid].sampling, HistoryAt(kv, item)) else NextToken(HOLE, true))
  }

  /** One forward pass: every item's tokens enter the cache, and each sampling item yields
      one step, in order. */
  function Decode(be: Backend, kv: Kv, items: seq<BatchItem>): (Kv, seq<GenStep>)
    decreases |items|
  {
    if items == [] then (kv, [])
    else
      var kv1 := WriteItem(kv, items[0]);
      var (kv2, steps) := Decode(be, kv1, items[1..]);
      (kv2, (if items[0].sample then [StepOf(be, kv1, items[0])] else []) + steps)
  }

  /** The sequences a batch writes to. */
  function Touched(items: seq<BatchItem>): set<SeqId> {
    set i | 0 <= i < |items| :: items[i].sid
  }

  /** A pass that throws leaves anything in the KV of the sequences it was given. */
  function Scramble(kv: Kv, touched: set<SeqId>, garbage: map<SeqId, seq<Token>>): Kv {
    map k | k in kv :: if k in touched && k in garbage then kv[k].(cells := garbage[k]) else kv[k]
  }

  /** A batch of one. */
  lemma DecodeOne(be: Backend, kv: Kv, item: BatchItem)
    requires item.sample
    ensures Decode(be, kv, [item]) == (WriteItem(kv, item), [StepOf(be, WriteItem(kv, item), item)])
  {
    var kv1 := WriteItem(kv, item);
    assert [item][1..] == [];
    var (kv2, steps) := Decode(be, kv1, [item][1..]);
    assert kv2 == kv1 && steps == [];
    assert [StepOf(be, kv1, item)] + steps == [StepOf(be, kv1, item)];
  }

  /** Writing directly behind the cells appends. */
  lemma WriteBehind(cells: seq<Token>, tokens: seq<Token>)
    ensures Write(cells, |cells|, tokens) == cells + tokens
  {
    assert cells[..|cells|] == cells;
  }

  predicate DistinctSids(items: seq<BatchItem>) {
    forall i, j :: 0 <= i < j < |items| ==> items[i].sid != items[j].sid
  }

  /** The sequences a batch samples, in order. */
  function SampledSids(items: seq<BatchItem>): seq<SeqId> {
    if items == [] then []
    else (if items[0].sample then [items[0].sid] else []) + SampledSids(items[1..])
  }

  predicate ForOther(items: seq<BatchItem>, k: SeqId) {
    forall i :: 0 <= i < |items| ==> items[i].sid != k
  }

  /** One step per sampling item, in order, and no sequence appears or disappears. */
  lemma {:induction false} DecodeSteps(be: Backend, kv: Kv, items: seq<BatchItem>)
    ensures var (kv', steps) := Decode(be, kv, items);
      && kv'.Keys == kv.Keys && |steps| == |SampledSids(items)|
      && forall m :: 0 <= m < |steps| ==> steps[m].sid == SampledSids(items)[m]
    decreases |items|
  {
    if items != [] {
      DecodeSteps(be, WriteItem(kv, items[0]), items[1..]);
    }
  }

  lemma {:induction false} DecodeFrame(be: Backend, kv: Kv, items: seq<BatchItem>, k: SeqId)
    requires k in kv && ForOther(items, k)
    ensures k in Decode(be, kv, items).0 && Decode(be, kv, items).0[k] == kv[k]
    decreases |items|
  {
    if items != [] {
      assert forall j :: 0 <= j < |items[1..]| ==> items[1..][j] == items[j + 1];
      DecodeFrame(be, WriteItem(kv, items[0]), items[1..], k);
    }
  }

  /** A batch writes each of its sequences once: a sequence's KV depends only on its own item. */
  lemma {:induction false} DecodeIsPerSequence(be: Backend, kv: Kv, items: seq<BatchItem>, i: nat)
    requires DistinctSids(items) && i < |items| && items[i].sid in kv
    ensures var kv' := Decode(be, kv, items).0;
      items[i].sid in kv' && kv'[items[i].sid] == WriteItem(kv, items[i])[items[i].sid]
    decreases |items|
  {
    var kv1 := WriteItem(kv, items[0]);
    assert forall j :: 0 <= j < |items[1..]| ==> items[1..][j] == items[j + 1];
    if i == 0 {
      DecodeFrame(be, kv1, items[1..], items[0].sid);
    } else {
      DecodeIsPerSequence(be, kv1, items[1..], i - 1);
    }
  }

  lemma {:induction false} SampledSidsFrom(items: seq<BatchItem>, m: nat) returns (i: nat)
    requires m < |SampledSids(items)|
    ensures i < |items| && items[i].sample && items[i].sid == SampledSids(items)[m]
    decreases |items|
  {
    if items[0].sample && m == 0 {
      i := 0;
    } else {
      var j := SampledSidsFrom(items[1..], if items[0].sample then m - 1 else m);
      i := j + 1;
    }
  }

  lemma {:induction false} SampledSidsDistinct(items: seq<BatchItem>)
    requires DistinctSids(items)
    ensures NoDup(SampledSids(items))
    ensures forall i :: 0 <= i < |items| && items[i].sample ==> items[i].sid in SampledSids(items)
    decreases |items|
  {
    if items != [] {
      SampledSidsDistinct(items[1..]);
      forall m | 0 <= m < |SampledSids(items[1..])|
        ensures SampledSids(items[1..])[m] != items[0].sid
      {
        var i := SampledSidsFrom(items[1..], m);
        assert items[1..][i] == items[i + 1];
      }
      forall i | 0 < i < |items| && items[i].sample
        ensures items[i].sid in SampledSids(items)
      {
        assert items[i] == items[1..][i - 1];
      }
    }
  }

  /** The step returned for a sequence is sampled from that sequence's own history. */
  lemma {:induction false} StepSeesOwnHistory(be: Backend, kv: Kv, items: seq<BatchItem>, i: nat, m: nat)
    requires DistinctSids(items) && i < |items| && items[i].sid in kv
    requires items[i].sample && m < |SampledSids(items)| && SampledSids(items)[m] == items[i].sid
    ensures var (kv', steps) := Decode(be, kv, items);
      && m < |steps| && items[i].sid in kv'
      && steps[m].next == be.next(kv[items[i].sid].sampling, HistoryAt(kv', items[i]))
    decreases |items|
  {
    DecodeSteps(be, kv, items);
    var kv1 := WriteItem(kv, items[0]);
    var rest := items[1..];
    assert forall j :: 0 <= j < |rest| ==> rest[j] == items[j + 1];
    if i == 0 {
      DecodeFrame(be, kv1, rest, items[0].sid);
      SampledSidsDistinct(items);
      assert SampledSids(items)[0] == items[0].sid;
    } else {
      assert kv1[items[i].sid] == kv[items[i].sid];
      StepSeesOwnHistory(be, kv1, rest, i - 1, if items[0].sample then m - 1 else m);
    }
  }
}
