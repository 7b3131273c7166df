/** How large a page table is (include/microvllm/block_allocator.hpp:170-215). The header promises
    as many blocks as the ceiling of tokens over block size; a prefix hit breaks that, because
    the shared blocks are added to a table that already covers the whole prompt
    (src/core/scheduler.cpp:415-468). This module gives the exact size in every state. */
module TableSizes {
  import opened Types
  import opened Sequence
  import opened BlockPool
  import opened Cache
  import opened Engine
  import opened Scheduling
  import opened Invariants
  import opened Runs

  /** A table is empty if its request failed at birth; otherwise it has the prompt's blocks and
      the adopted ones, or as many as its tokens need if that is more. */
  predicate Sized(env: Env, j: Job) {
    || (Finished(j) && j.table == EMPTY_TABLE)
    || (&& |j.st.prompt| <= j.table.tokens <= Tokens(j)
        && |j.table.blocks| == Max(BlocksFor(env.cfg.blockSize, |j.st.prompt|) + j.table.sharedBlocks, BlocksFor(env.cfg.blockSize, j.table.tokens)))
  }

  ghost predicate AllSized(env: Env, jobs: map<SeqId, Job>) {
    forall k :: k in jobs ==> Sized(env, jobs[k])
  }

  /** The same job, perhaps further on, with the same table. */
  predicate SameTable(j: Job, j': Job) {
    && j'.st.prompt == j.st.prompt && j'.table == j.table
    && j'.st.gen.completion >= j.st.gen.completion && (Finished(j) ==> Finished(j'))
  }

  /** Nobody joins, and nobody's table changes. */
  ghost predicate SameTables(jobs: map<SeqId, Job>, jobs': map<SeqId, Job>) {
    forall k :: k in jobs' ==> k in jobs && SameTable(jobs[k], jobs'[k])
  }

  lemma SizedSame(env: Env, jobs: map<SeqId, Job>, jobs': map<SeqId, Job>)
    requires AllSized(env, jobs) && SameTables(jobs, jobs')
    ensures AllSized(env, jobs')
  {
  }

  /** A job's table is grown to cover its tokens. */
  lemma GrownSized(env: Env, p: Pool, j: Job)
    requires Sized(env, j)
    ensures Sized(env, j.(table := EnsureCapacity(env.cfg.blockSize, p, j.table, Tokens(j)).1))
  {
    BlocksForMonotone(env.cfg.blockSize, |j.st.prompt|, Tokens(j));
    BlocksForMonotone(env.cfg.blockSize, j.table.tokens, Tokens(j));
    EnsureSize(env.cfg.blockSize, p, j.table, Tokens(j));
  }

  lemma EnsureSize(blockSize: nat, p: Pool, t: Table, n: nat)
    requires blockSize > 0
    ensures var (_, u, ok) := EnsureCapacity(blockSize, p, t, n);
      if ok then u == t.(blocks := u.blocks, tokens := n) && |u.blocks| == Max(|t.blocks|, BlocksFor(blockSize, n)) else u == t
  {
    var needed := BlocksFor(blockSize, n);
    if |t.blocks| < needed <= |t.blocks| + |p.freeList| {
      AllocNLength(p, needed - |t.blocks|);
    }
  }

  /* ---------------- admission ---------------- */

  lemma SharedSized(env: Env, s: Sys, job: Job)
    requires !Finished(job) && job.st.gen.completion == 0 && job.table.sharedBlocks == 0
    requires job.table.tokens == |job.st.prompt| && |job.table.blocks| == BlocksFor(env.cfg.blockSize, |job.st.prompt|)
    ensures Sized(env, SharePrefix(env, s, job).1)
  {
    if HitFor(env, s.cache, job).Some? {
      SharePrefixHit(env, s, job);
      LongestMatchKey(env.be.hash, s.cache, job.st.prompt, env.cfg.blockSize);
    } else {
      SharePrefixMiss(env, s, job);
    }
  }

  lemma AdmitSized(env: Env, s: Sys)
    requires AllSized(env, s.jobs) && s.pending != [] && s.freeSlots != [] && Admit(env, s).Some?
    ensures AllSized(env, Admit(env, s).value.jobs)
  {
    var job := FrontJob(env, s);
    if !Finished(job) {
      var (q, t, _) := EnsureCapacity(env.cfg.blockSize, s.pool, EMPTY_TABLE, |job.st.prompt|);
      EnsureSize(env.cfg.blockSize, s.pool, EMPTY_TABLE, |job.st.prompt|);
      SharedSized(env, s.(pool := q), job.(table := t));
    }
  }

  lemma {:induction false} AdmitLoopSized(env: Env, s: Sys)
    requires AllSized(env, s.jobs)
    ensures AllSized(env, AdmitLoop(env, s).jobs)
    decreases |s.pending|
  {
    if s.pending != [] && s.freeSlots != [] {
      var s1 := MakeRoom(env, s);
      if Admit(env, s1).Some? {
        AdmitSized(env, s1);
      }
      if !AdmitFront(env, s).1.Deferred? {
        AdmitLoopSized(env, AdmitFront(env, s).0);
      }
    }
  }

  /* ---------------- a pass ---------------- */

  lemma AcceptOneSized(env: Env, s: Sys, sid: SeqId, next: NextToken, cancelled: bool)
    requires AllSized(env, s.jobs) && sid in s.jobs
    ensures AllSized(env, AcceptOne(env, s, sid, next, cancelled).0.jobs)
  {
    var j := s.jobs[sid];
    AcceptCounts(env.be.piece, j.st.spec, j.st.gen, next, cancelled);
    var g := Accept(env.be.piece, j.st.spec, j.st.gen, next, cancelled);
    var j1 := SetGen(j, g);
    assert Sized(env, j1);
    GrownSized(env, s.pool, j1);
    SetSized(env, s.jobs, sid, j1);
    SetSized(env, s.jobs, sid, SetGen(j, Finish(g)));
    SetSized(env, s.jobs, sid, j1.(table := EnsureCapacity(env.cfg.blockSize, s.pool, j1.table, Tokens(j1)).1));
  }

  lemma SetSized(env: Env, jobs: map<SeqId, Job>, sid: SeqId, j: Job)
    requires AllSized(env, jobs) && Sized(env, j)
    ensures AllSized(env, jobs[sid := j])
  {
  }

  lemma {:induction false} AcceptLoopSized(env: Env, s: Sys, sampling: seq<SeqId>, steps: seq<GenStep>, cancelled: set<nat>)
    requires AllSized(env, s.jobs) && |steps| == |sampling| && forall i :: 0 <= i < |sampling| ==> sampling[i] in s.jobs
    ensures AllSized(env, AcceptLoop(env, s, sampling, steps, cancelled).0.jobs)
    decreases |sampling|
  {
    if sampling != [] {
      var sid := sampling[0];
      var hit := s.jobs[sid].req.id in cancelled;
      AcceptOneSized(env, s, sid, steps[0].next, hit);
      AcceptLoopSized(env, AcceptOne(env, s, sid, steps[0].next, hit).0, sampling[1..], steps[1..], cancelled);
    }
  }

  lemma AdvanceSized(env: Env, s: Sys, o: Oracle)
    requires Wf(env, s, {}) && AllSized(env, s.jobs)
    ensures AllSized(env, Advance(env, s, o).0.jobs)
  {
    BuildOnlyPrefills(env, s);
    var (items, jobs) := Build(env, s);
    BuiltSized(env, s.jobs, jobs);
    if items != [] {
      if o.fault.Some? {
        AllFailedSized(env, jobs);
      } else {
        ForwardSized(env, s.(jobs := jobs), items, o.cancelled);
      }
    }
  }

  lemma BuiltSized(env: Env, jobs: map<SeqId, Job>, jobs': map<SeqId, Job>)
    requires OnlyPrefills(jobs, jobs') && AllSized(env, jobs)
    ensures AllSized(env, jobs')
  {
    SizedSame(env, jobs, jobs');
  }

  lemma AllFailedSized(env: Env, jobs: map<SeqId, Job>)
    requires AllSized(env, jobs)
    ensures AllSized(env, FailAll(jobs))
  {
    SizedSame(env, jobs, FailAll(jobs));
  }

  lemma ForwardSized(env: Env, s: Sys, items: seq<BatchItem>, cancelled: set<nat>)
    requires AllSized(env, s.jobs)
    ensures AllSized(env, Forward(env, s, items, cancelled).0.jobs)
  {
    var (kv, steps) := Decode(env.be, s.kv, items);
    var sampling := SampledSids(items);
    if |steps| == |sampling| && forall i :: 0 <= i < |sampling| ==> sampling[i] in s.jobs {
      AcceptLoopSized(env, s.(kv := kv), sampling, steps, cancelled);
    }
  }

  /* ---------------- leaving and growing ---------------- */

  lemma {:induction false} SweepSized(env: Env, s: Sys, i: nat, copyFails: set<nat>)
    requires AllSized(env, s.jobs)
    ensures AllSized(env, Sweep(env, s, i, copyFails).jobs)
    decreases |s.active| - i
  {
    if i < |s.active| {
      if s.active[i] in s.jobs && Finished(s.jobs[s.active[i]]) {
        assert RetireAt(env, s, i, copyFails).jobs == s.jobs - {s.active[i]};
        SweepSized(env, RetireAt(env, s, i, copyFails), i, copyFails);
      } else {
        SweepSized(env, s, i + 1, copyFails);
      }
    }
  }

  /** The starved job wants exactly what covers its tokens. */
  ghost predicate Growing(env: Env, s: Sys, sid: SeqId, needed: nat) {
    AllSized(env, s.jobs) && sid in s.jobs && needed == Tokens(s.jobs[sid])
  }

  lemma GrowTableSized(env: Env, s: Sys, sid: SeqId, needed: nat)
    requires Growing(env, s, sid, needed)
    ensures Growing(env, GrowTable(env, s, sid, needed).0, sid, needed)
  {
    GrownSized(env, s.pool, s.jobs[sid]);
  }

  lemma {:induction false} ReclaimForSized(env: Env, s: Sys, sid: SeqId, needed: nat)
    requires Growing(env, s, sid, needed)
    ensures Growing(env, ReclaimFor(env, s, sid, needed), sid, needed)
    decreases |s.cache.entries|
  {
    GrowTableSized(env, s, sid, needed);
    var (grown, ok) := GrowTable(env, s, sid, needed);
    if !ok && HasRetained(s.cache) {
      ReclaimForSized(env, ReclaimDonor(grown), sid, needed);
    }
  }

  lemma {:induction false} PreemptForSized(env: Env, s: Sys, sid: SeqId, needed: nat)
    requires Growing(env, s, sid, needed)
    ensures Growing(env, PreemptFor(env, s, sid, needed), sid, needed)
    decreases |s.active|
  {
    GrowTableSized(env, s, sid, needed);
    var (grown, ok) := GrowTable(env, s, sid, needed);
    if !ok {
      var v := Victim(grown.active, grown.jobs, sid, |grown.active|);
      if v.Some? {
        assert PreemptAt(grown, v.value).jobs == grown.jobs - {grown.active[v.value]};
        PreemptForSized(env, PreemptAt(grown, v.value), sid, needed);
      }
    }
  }

  lemma FailedSized(env: Env, j: Job, failure: Failure)
    requires Sized(env, j)
    ensures Sized(env, SetGen(j, Finish(Fail(j.st.gen, failure, ContextOverflow))))
  {
  }

  lemma ResolveOneSized(env: Env, s: Sys, sid: SeqId)
    requires AllSized(env, s.jobs)
    ensures AllSized(env, ResolveOne(env, s, sid).jobs)
  {
    if sid in s.active && sid in s.jobs {
      var j := s.jobs[sid];
      var need := BlocksFor(env.cfg.blockSize, Tokens(j));
      if need <= |s.pool.refs| {
        ReclaimForSized(env, s, sid, Tokens(j));
        PreemptForSized(env, ReclaimFor(env, s, sid, Tokens(j)), sid, Tokens(j));
      } else {
        FailedSized(env, j, PoolTooSmall(need, |s.pool.refs|));
      }
    }
  }

  lemma {:induction false} ResolveAllSized(env: Env, s: Sys, starved: seq<SeqId>)
    requires AllSized(env, s.jobs)
    ensures AllSized(env, ResolveAll(env, s, starved).jobs)
    decreases |starved|
  {
    if starved != [] {
      ResolveOneSized(env, s, starved[0]);
      ResolveAllSized(env, ResolveOne(env, s, starved[0]), starved[1..]);
    }
  }

  /* ---------------- runs ---------------- */

  lemma WorkSized(env: Env, s: Sys, o: Oracle)
    requires Wf(env, s, {}) && AllSized(env, s.jobs)
    ensures AllSized(env, Work(env, s, o).jobs)
  {
    AdmitLoopSized(env, s);
    AdmitLoopWf(env, s);
    var s1 := AdmitLoop(env, s);
    if s1.active != [] {
      AdvanceSized(env, s1, o);
      var (s2, starved) := Advance(env, s1, o);
      SweepSized(env, s2, 0, o.copyFails);
      var s3 := Sweep(env, s2, 0, o.copyFails);
      ResolveAllSized(env, s3, starved);
      SweepSized(env, ResolveAll(env, s3, starved), 0, o.copyFails);
    }
  }

  lemma {:induction false} EveryRunIsSized(env: Env, run: seq<Sys>, events: seq<Event>)
    requires IsRun(env, run, events)
    ensures AllSized(env, Last(run).jobs)
    decreases |events|
  {
    if events != [] {
      RunPrefix(env, run, events);
      EveryRunIsWellFormed(env, DropLast(run), DropLast(events));
      EveryRunIsSized(env, DropLast(run), DropLast(events));
      if Last(events).Step? {
        WorkSized(env, Last(DropLast(run)), Last(events).oracle);
      }
    }
  }

  /** THE SIZE OF EVERY TABLE. In every reachable state the table of a sequence that was not
      rejected at birth has the prompt's blocks plus the adopted ones, or the ceiling of its
      tokens if that is more. So it has exactly the ceiling, as the header promises, if and
      only if the adopted blocks do not exceed what the tokens behind the prompt need. */
  lemma TableSizeIsExact(env: Env, s: Sys, k: SeqId)
    requires Reachable(env, s) && k in s.jobs && s.jobs[k].table != EMPTY_TABLE
    ensures var j := s.jobs[k];
      var prompt, ceiling := BlocksFor(env.cfg.blockSize, |j.st.prompt|), BlocksFor(env.cfg.blockSize, j.table.tokens);
      && |j.table.blocks| == Max(prompt + j.table.sharedBlocks, ceiling)
      && (|j.table.blocks| == ceiling <==> j.table.sharedBlocks <= ceiling - prompt)
  {
    var run, events :| IsRun(env, run, events) && Last(run) == s;
    EveryRunIsSized(env, run, events);
    assert Sized(env, s.jobs[k]);
  }
}
