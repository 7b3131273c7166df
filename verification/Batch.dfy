/** What one step submits to the engine (src/core/scheduler.cpp:485-522): the shape of the
    mixed batch, for any set of active jobs. */
module Batch {
  import opened Types
  import opened Sequence
  import opened Engine
  import opened Scheduling

  ghost predicate Addressed(active: seq<SeqId>, jobs: map<SeqId, Job>) {
    NoDup(active) && forall k :: k in active ==> k in jobs && jobs[k].st.sid == k
  }

  /** The item is the right one for its job: the pending token of a decoding sequence, or a
      non-empty next chunk of a prefilling one; only the latter moves the job on. */
  ghost predicate ItemFits(jobs: map<SeqId, Job>, jobs': map<SeqId, Job>, item: BatchItem) {
    && item.sid in jobs && item.sid in jobs' && !Finished(jobs[item.sid])
    && var j, j' := jobs[item.sid], jobs'[item.sid];
    if Prefilling(j.st) then
      && 0 < |item.tokens| <= PrefillRemaining(j.st)
      && TakePrefillChunk(j.st, |item.tokens|) == (item, j'.st)
      && j' == j.(st := j'.st)
    else item == DecodeItem(j.st) && j' == j
  }

  function TokenCount(items: seq<BatchItem>): nat {
    if items == [] then 0 else |items[0].tokens| + TokenCount(items[1..])
  }

  lemma {:induction false} TokenCountAppend(a: seq<BatchItem>, b: seq<BatchItem>)
    ensures TokenCount(a + b) == TokenCount(a) + TokenCount(b)
  {
    if a == [] {
      assert a + b == b;
    } else {
      TokenCountAppend(a[1..], b);
      assert (a + b)[1..] == a[1..] + b;
    }
  }

  lemma TailAddressed(active: seq<SeqId>, jobs: map<SeqId, Job>)
    requires Addressed(active, jobs) && active != []
    ensures Addressed(active[1..], jobs) && active[0] !in active[1..]
  {
  }

  predicate Decoding(jobs: map<SeqId, Job>, k: SeqId) {
    k in jobs && !Finished(jobs[k]) && !Prefilling(jobs[k].st)
  }

  lemma {:induction false} DecodeItemsFit(active: seq<SeqId>, jobs: map<SeqId, Job>, budget: nat)
    requires Addressed(active, jobs)
    ensures var items := DecodeItems(active, jobs, budget);
      && TokenCount(items) == |items| <= budget
      && DistinctSids(items)
      && (forall i :: 0 <= i < |items| ==>
            items[i].sid in active && Decoding(jobs, items[i].sid) && items[i] == DecodeItem(jobs[items[i].sid].st))
    decreases |active|
  {
    if active != [] {
      TailAddressed(active, jobs);
      if !Decoding(jobs, active[0]) {
        DecodeItemsFit(active[1..], jobs, budget);
      } else if budget > 0 {
        DecodeItemsFit(active[1..], jobs, budget - 1);
        var rest := DecodeItems(active[1..], jobs, budget - 1);
        var item := DecodeItem(jobs[active[0]].st);
        assert item.sid == active[0] && NoItemFor(rest, active[0]);
        ConsDistinct(item, rest);
      }
    }
  }

  lemma ConsDistinct(item: BatchItem, rest: seq<BatchItem>)
    requires DistinctSids(rest) && NoItemFor(rest, item.sid)
    ensures DistinctSids([item] + rest) && TokenCount([item] + rest) == |item.tokens| + TokenCount(rest)
  {
    assert ([item] + rest)[1..] == rest;
  }

  predicate NoItemFor(items: seq<BatchItem>, k: SeqId) {
    forall i :: 0 <= i < |items| ==> items[i].sid != k
  }

  /** Every decoding sequence gets its token unless the budget ran out. */
  lemma {:induction false} DecodeItemsComplete(active: seq<SeqId>, jobs: map<SeqId, Job>, budget: nat, k: SeqId)
    requires Addressed(active, jobs) && k in active && Decoding(jobs, k)
    ensures var items := DecodeItems(active, jobs, budget);
      |items| < budget ==> exists i :: 0 <= i < |items| && items[i].sid == k
    decreases |active|
  {
    TailAddressed(active, jobs);
    var items := DecodeItems(active, jobs, budget);
    if !Decoding(jobs, active[0]) {
      DecodeItemsComplete(active[1..], jobs, budget, k);
    } else if budget > 0 {
      if active[0] == k {
        assert items[0].sid == k;
      } else {
        DecodeItemsComplete(active[1..], jobs, budget - 1, k);
        var rest := DecodeItems(active[1..], jobs, budget - 1);
        if |items| < budget {
          var i :| 0 <= i < |rest| && rest[i].sid == k;
          assert items[i + 1].sid == k;
        }
      }
    }
  }

  /** How many active sequences are decoding. */
  function DecodingCount(active: seq<SeqId>, jobs: map<SeqId, Job>): nat {
    if active == [] then 0 else (if Decoding(jobs, active[0]) then 1 else 0) + DecodingCount(active[1..], jobs)
  }

  /** One item per decoding sequence, up to the budget. */
  lemma {:induction false} DecodeItemsCount(active: seq<SeqId>, jobs: map<SeqId, Job>, budget: nat)
    requires forall k :: k in active ==> k in jobs
    ensures |DecodeItems(active, jobs, budget)| == Min(budget, DecodingCount(active, jobs))
    decreases |active|
  {
    if active != [] {
      DecodeItemsCount(active[1..], jobs, budget);
      if budget > 0 {
        DecodeItemsCount(active[1..], jobs, budget - 1);
      }
    }
  }

  /** Every item is the right continuation of its job, at most one per job, and jobs
      without an item are untouched. */
  ghost predicate ItemsFit(active: seq<SeqId>, jobs: map<SeqId, Job>, jobs': map<SeqId, Job>, items: seq<BatchItem>) {
    && DistinctSids(items)
    && jobs'.Keys == jobs.Keys
    && (forall i :: 0 <= i < |items| ==> items[i].sid in active && ItemFits(jobs, jobs', items[i]))
    && (forall k :: k in jobs && NoItemFor(items, k) ==> jobs'[k] == jobs[k])
  }

  lemma ConsFits(active: seq<SeqId>, jobs: map<SeqId, Job>, jobs': map<SeqId, Job>, item: BatchItem, st: SeqState, rest: seq<BatchItem>)
    requires Addressed(active, jobs) && active != [] && item.sid == active[0]
    requires var j := jobs[active[0]]; !Finished(j) && Prefilling(j.st) && 0 < |item.tokens| <= PrefillRemaining(j.st)
    requires TakePrefillChunk(jobs[active[0]].st, |item.tokens|) == (item, st)
    requires ItemsFit(active[1..], jobs[active[0] := jobs[active[0]].(st := st)], jobs', rest)
    ensures ItemsFit(active, jobs, jobs', [item] + rest)
  {
    var sid := active[0];
    var jobs1 := jobs[sid := jobs[sid].(st := st)];
    TailAddressed(active, jobs);
    var items := [item] + rest;
    assert NoItemFor(rest, sid);
    ConsDistinct(item, rest);
    forall i | 0 <= i < |items|
      ensures items[i].sid in active && ItemFits(jobs, jobs', items[i])
    {
      if i > 0 {
        assert items[i] == rest[i - 1] && ItemFits(jobs1, jobs', rest[i - 1]);
      }
    }
    forall k | k in jobs && NoItemFor(items, k)
      ensures jobs'[k] == jobs[k]
    {
      assert items[0].sid != k;
      assert forall i :: 0 <= i < |rest| ==> rest[i] == items[i + 1];
    }
  }

  /** The jobs the items belong to are prefilling. */
  ghost predicate AllPrefilling(jobs: map<SeqId, Job>, items: seq<BatchItem>) {
    forall i :: 0 <= i < |items| ==> items[i].sid in jobs && Prefilling(jobs[items[i].sid].st)
  }

  lemma {:induction false} PrefillItemsFit(active: seq<SeqId>, jobs: map<SeqId, Job>, budget: nat, cap: nat,
                                           items: seq<BatchItem>, jobs': map<SeqId, Job>)
    requires Addressed(active, jobs) && (items, jobs') == PrefillItems(active, jobs, budget, cap)
    ensures TokenCount(items) <= budget && ItemsFit(active, jobs, jobs', items) && AllPrefilling(jobs, items)
    decreases |active|
  {
    if active != [] {
      TailAddressed(active, jobs);
      var sid := active[0];
      var job := jobs[sid];
      var take := Min(budget, Min(cap, PrefillRemaining(job.st)));
      if Finished(job) || !Prefilling(job.st) || take == 0 {
        PrefillItemsFit(active[1..], jobs, budget, cap, items, jobs');
      } else {
        var (item, st) := TakePrefillChunk(job.st, take);
        var jobs1 := jobs[sid := job.(st := st)];
        assert Addressed(active[1..], jobs1);
        var (rest, last) := PrefillItems(active[1..], jobs1, budget - take, cap);
        PrefillItemsFit(active[1..], jobs1, budget - take, cap, rest, last);
        ConsFits(active, jobs, jobs', item, st, rest);
        ConsDistinct(item, rest);
        ConsPrefilling(active, jobs, item, st, rest);
      }
    }
  }

  lemma ConsPrefilling(active: seq<SeqId>, jobs: map<SeqId, Job>, item: BatchItem, st: SeqState, rest: seq<BatchItem>)
    requires Addressed(active, jobs) && active != [] && item.sid == active[0] && Prefilling(jobs[active[0]].st)
    requires AllPrefilling(jobs[active[0] := jobs[active[0]].(st := st)], rest)
    ensures AllPrefilling(jobs, [item] + rest)
  {
  }

  lemma DecodesThenPrefillsFit(
    active: seq<SeqId>, jobs: map<SeqId, Job>, jobs': map<SeqId, Job>, decodes: seq<BatchItem>, prefills: seq<BatchItem>)
    requires ItemsFit(active, jobs, jobs', prefills) && DistinctSids(decodes)
    requires AllPrefilling(jobs, prefills)
    requires forall i :: 0 <= i < |decodes| ==>
      decodes[i].sid in active && Decoding(jobs, decodes[i].sid) && decodes[i] == DecodeItem(jobs[decodes[i].sid].st)
    ensures ItemsFit(active, jobs, jobs', decodes + prefills)
  {
    var items := decodes + prefills;
    forall i | 0 <= i < |decodes|
      ensures NoItemFor(prefills, decodes[i].sid) && ItemFits(jobs, jobs', decodes[i])
    {
    }
    forall k | k in jobs && NoItemFor(items, k)
      ensures jobs'[k] == jobs[k]
    {
      assert forall i :: 0 <= i < |prefills| ==> prefills[i] == items[|decodes| + i];
    }
  }

  /** Every step submits at most `nBatch` tokens and at most one item per sequence; each
      item is the right continuation of its job, and nothing else changes. */
  lemma BatchFits(env: Env, s: Sys)
    requires Addressed(s.active, s.jobs)
    ensures var (items, jobs') := Build(env, s);
      TokenCount(items) <= env.cfg.nBatch && ItemsFit(s.active, s.jobs, jobs', items)
  {
    var decodes := DecodeItems(s.active, s.jobs, env.cfg.nBatch);
    DecodeItemsFit(s.active, s.jobs, env.cfg.nBatch);
    var budget := env.cfg.nBatch - |decodes|;
    var (prefills, jobs') := PrefillItems(s.active, s.jobs, budget, ChunkCap(env.cfg));
    PrefillItemsFit(s.active, s.jobs, budget, ChunkCap(env.cfg), prefills, jobs');
    TokenCountAppend(decodes, prefills);
    DecodesThenPrefillsFit(s.active, s.jobs, jobs', decodes, prefills);
  }

  /** Generation is never stalled by prefill: while the decoding sequences number at most
      `nBatch`, every one of them has its item in the batch. */
  lemma DecodesAreNeverStalled(env: Env, s: Sys, k: SeqId)
    requires Addressed(s.active, s.jobs) && k in s.active && Decoding(s.jobs, k)
    requires DecodingCount(s.active, s.jobs) <= env.cfg.nBatch
    ensures var items := Build(env, s).0;
      exists i :: 0 <= i < |items| && items[i] == DecodeItem(s.jobs[k].st)
  {
    var more := env.cfg.nBatch + 1;
    DecodeItemsCount(s.active, s.jobs, env.cfg.nBatch);
    DecodeItemsCount(s.active, s.jobs, more);
    DecodeItemsAgree(s.active, s.jobs, env.cfg.nBatch, more);
    DecodeItemsComplete(s.active, s.jobs, more, k);
    DecodeItemsFit(s.active, s.jobs, env.cfg.nBatch);
    var decodes := DecodeItems(s.active, s.jobs, env.cfg.nBatch);
    var i :| 0 <= i < |decodes| && decodes[i].sid == k;
    assert Build(env, s).0[i] == decodes[i];
  }

  lemma {:induction false} DecodeItemsAgree(active: seq<SeqId>, jobs: map<SeqId, Job>, b: nat, c: nat)
    requires (forall k :: k in active ==> k in jobs) && DecodingCount(active, jobs) <= b && DecodingCount(active, jobs) <= c
    ensures DecodeItems(active, jobs, b) == DecodeItems(active, jobs, c)
    decreases |active|
  {
    if active != [] {
      if Decoding(jobs, active[0]) {
        DecodeItemsAgree(active[1..], jobs, b - 1, c - 1);
      } else {
        DecodeItemsAgree(active[1..], jobs, b, c);
      }
    }
  }

  /** The k-th step the engine returns belongs to the k-th sampling sequence. */
  lemma StepsMatchSampling(env: Env, s: Sys, kv: Kv)
    requires Addressed(s.active, s.jobs)
    ensures var items := Build(env, s).0;
      var steps := Decode(env.be, kv, items).1;
      && |steps| == |SampledSids(items)| && NoDup(SampledSids(items))
      && forall m :: 0 <= m < |steps| ==> steps[m].sid == SampledSids(items)[m] && steps[m].sid in s.active
  {
    BatchFits(env, s);
    var items := Build(env, s).0;
    DecodeSteps(env.be, kv, items);
    SampledSidsDistinct(items);
    forall m | 0 <= m < |SampledSids(items)|
      ensures SampledSids(items)[m] in s.active
    {
      var i := SampledSidsFrom(items, m);
    }
  }

  lemma NothingBuilt(active: seq<SeqId>, jobs: map<SeqId, Job>, jobs': map<SeqId, Job>)
    requires ItemsFit(active, jobs, jobs', [])
    ensures jobs' == jobs
  {
    assert forall k :: k in jobs ==> NoItemFor([], k);
  }

  lemma AdvanceForward(env: Env, s: Sys, o: Oracle)
    requires Addressed(s.active, s.jobs) && o.fault.None?
    ensures var (items, jobs) := Build(env, s);
      Advance(env, s, o) == if items == [] then (s, []) else Forward(env, s.(jobs := jobs), items, o.cancelled)
  {
    BatchFits(env, s);
    var (items, jobs) := Build(env, s);
    if items == [] {
      NothingBuilt(s.active, s.jobs, jobs);
    }
  }

  /* ---------------- the token budget ---------------- */

  lemma {:induction false} ChunksAreCapped(active: seq<SeqId>, jobs: map<SeqId, Job>, budget: nat, cap: nat)
    ensures forall item :: item in PrefillItems(active, jobs, budget, cap).0 ==> |item.tokens| <= cap
    decreases |active|
  {
    if active != [] {
      ChunksAreCapped(active[1..], jobs, budget, cap);
      if active[0] in jobs && !Finished(jobs[active[0]]) && Prefilling(jobs[active[0]].st) {
        var job := jobs[active[0]];
        var take := Min(budget, Min(cap, PrefillRemaining(job.st)));
        var (item, st) := TakePrefillChunk(job.st, take);
        ChunksAreCapped(active[1..], jobs[active[0] := job.(st := st)], budget - take, cap);
      }
    }
  }

  ghost predicate HasShare(items: seq<BatchItem>, k: SeqId, n: nat) {
    exists i :: 0 <= i < |items| && items[i].sid == k && |items[i].tokens| == n
  }

  lemma ConsShare(item: BatchItem, rest: seq<BatchItem>, k: SeqId, n: nat)
    requires HasShare(rest, k, n)
    ensures HasShare([item] + rest, k, n)
  {
    var i :| 0 <= i < |rest| && rest[i].sid == k && |rest[i].tokens| == n;
    assert ([item] + rest)[i + 1] == rest[i];
  }

  lemma {:induction false} PrefillItemsComplete(active: seq<SeqId>, jobs: map<SeqId, Job>, budget: nat, cap: nat, k: SeqId)
    requires Addressed(active, jobs) && k in active && !Finished(jobs[k]) && Prefilling(jobs[k].st) && jobs[k].st.sid == k && cap > 0
    ensures var items := PrefillItems(active, jobs, budget, cap).0;
      TokenCount(items) < budget ==> HasShare(items, k, Min(cap, PrefillRemaining(jobs[k].st)))
    decreases |active|
  {
    TailAddressed(active, jobs);
    var sid := active[0];
    var job := jobs[sid];
    var take := Min(budget, Min(cap, PrefillRemaining(job.st)));
    if Finished(job) || !Prefilling(job.st) || take == 0 {
      if sid != k {
        PrefillItemsComplete(active[1..], jobs, budget, cap, k);
      }
    } else {
      var (item, st) := TakePrefillChunk(job.st, take);
      var jobs1 := jobs[sid := job.(st := st)];
      var rest := PrefillItems(active[1..], jobs1, budget - take, cap).0;
      assert PrefillItems(active, jobs, budget, cap).0 == [item] + rest;
      assert ([item] + rest)[1..] == rest && ([item] + rest)[0] == item;
      if sid != k && TokenCount(rest) < budget - take {
        PrefillItemsComplete(active[1..], jobs1, budget - take, cap, k);
        ConsShare(item, rest, k, Min(cap, PrefillRemaining(jobs[k].st)));
      }
    }
  }

  /** THE BUDGET IS USED. No item exceeds the chunk size; and unless the batch is full, every
      prefilling sequence has its whole next chunk in it. */
  lemma BudgetIsUsed(env: Env, s: Sys, k: SeqId)
    requires Addressed(s.active, s.jobs) && k in s.active && !Finished(s.jobs[k]) && Prefilling(s.jobs[k].st) && s.jobs[k].st.sid == k
    ensures forall item :: item in Build(env, s).0 ==> |item.tokens| <= ChunkCap(env.cfg)
    ensures var items := Build(env, s).0;
      TokenCount(items) < env.cfg.nBatch ==> HasShare(items, k, Min(ChunkCap(env.cfg), PrefillRemaining(s.jobs[k].st)))
  {
    ItemsAreCapped(env, s);
    NoPrefillLeftOut(env, s, k);
  }

  lemma ItemsAreCapped(env: Env, s: Sys)
    requires Addressed(s.active, s.jobs)
    ensures forall item :: item in Build(env, s).0 ==> |item.tokens| <= ChunkCap(env.cfg)
  {
    var decodes := DecodeItems(s.active, s.jobs, env.cfg.nBatch);
    DecodeItemsFit(s.active, s.jobs, env.cfg.nBatch);
    ChunksAreCapped(s.active, s.jobs, env.cfg.nBatch - |decodes|, ChunkCap(env.cfg));
    forall item | item in decodes
      ensures |item.tokens| <= ChunkCap(env.cfg)
    {
      var i :| 0 <= i < |decodes| && decodes[i] == item;
    }
  }

  lemma AppendShare(front: seq<BatchItem>, items: seq<BatchItem>, k: SeqId, n: nat)
    requires HasShare(items, k, n)
    ensures HasShare(front + items, k, n)
  {
    var i :| 0 <= i < |items| && items[i].sid == k && |items[i].tokens| == n;
    assert (front + items)[|front| + i] == items[i];
  }

  lemma NoPrefillLeftOut(env: Env, s: Sys, k: SeqId)
    requires Addressed(s.active, s.jobs) && k in s.active && !Finished(s.jobs[k]) && Prefilling(s.jobs[k].st) && s.jobs[k].st.sid == k
    ensures var items := Build(env, s).0;
      TokenCount(items) < env.cfg.nBatch ==> HasShare(items, k, Min(ChunkCap(env.cfg), PrefillRemaining(s.jobs[k].st)))
  {
    var decodes := DecodeItems(s.active, s.jobs, env.cfg.nBatch);
    DecodeItemsFit(s.active, s.jobs, env.cfg.nBatch);
    var budget := env.cfg.nBatch - |decodes|;
    var prefills := PrefillItems(s.active, s.jobs, budget, ChunkCap(env.cfg)).0;
    TokenCountAppend(decodes, prefills);
    if TokenCount(decodes + prefills) < env.cfg.nBatch {
      PrefillItemsComplete(s.active, s.jobs, budget, ChunkCap(env.cfg), k);
      AppendShare(decodes, prefills, k, Min(ChunkCap(env.cfg), PrefillRemaining(s.jobs[k].st)));
    }
  }
}
