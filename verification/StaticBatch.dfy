/** Static batching (src/core/scheduler.cpp:139-176, 652-778): a batch is formed, run to
    completion and answered before the next one forms. Its answers are the same references
    that continuous batching gives. */
module StaticBatch {
  import opened Types
  import opened Sequence
  import opened BlockPool
  import opened Engine
  import opened Generator
  import opened Scheduling
  import opened Independence
  import opened Allocator
  import opened StateMachine
  import opened Queue

  /* ---------------- members of a batch ---------------- */

  /** Members keep their place: the sequence id is the position in the batch. */
  ghost predicate Members(env: Env, batch: seq<Request>, jobs: seq<Job>) {
    |jobs| <= |batch| && forall i :: 0 <= i < |jobs| ==> IsMember(env, batch[i], i, jobs[i])
  }

  ghost predicate IsMember(env: Env, req: Request, i: nat, j: Job) {
    j.req == req && j.st.sid == i && j.st.spec == req.spec && j.st.prompt == PromptOf(env, req)
  }

  /** Admitted or rejected, and not yet given to the engine. */
  ghost predicate Waiting(env: Env, j: Job, kv: Kv) {
    if Finished(j) then EndedAsReference(env, j.st.spec, j.st.gen)
    else
      && j.st == NewState(j.st.sid, j.st.spec, j.st.prompt)
      && j.st.sid in kv && kv[j.st.sid] == SeqKv(j.st.spec.sampling, [])
  }

  /** Finished, or in step with the others after `n` accepted tokens. */
  ghost predicate Going(env: Env, j: Job, kv: Kv, n: nat) {
    if Finished(j) then EndedAsReference(env, j.st.spec, j.st.gen)
    else
      && !Prefilling(j.st) && j.st.gen.completion == n <= j.st.spec.maxTokens
      && j.st.sid in kv && kv[j.st.sid].sampling == j.st.spec.sampling
      && OnTrack(env, j, kv[j.st.sid].cells)
  }

  /** Who holds which blocks, from member `from` on. */
  ghost function Tables(jobs: seq<Job>, from: nat): Ownership {
    map k | from <= k < |jobs| :: jobs[k].table.blocks
  }

  /* ---------------- one pass ---------------- */

  /** Every item samples and starts directly behind the KV of its own sequence. */
  ghost predicate PlacedBehind(kv: Kv, items: seq<BatchItem>) {
    && DistinctSids(items)
    && forall k :: 0 <= k < |items| ==>
         items[k].sample && items[k].sid in kv && items[k].pos0 == |kv[items[k].sid].cells|
  }

  lemma {:induction false} AllSampled(items: seq<BatchItem>)
    requires forall k :: 0 <= k < |items| ==> items[k].sample
    ensures |SampledSids(items)| == |items| && forall k :: 0 <= k < |items| ==> SampledSids(items)[k] == items[k].sid
  {
    if items != [] {
      assert forall k :: 0 <= k < |items[1..]| ==> items[1..][k] == items[k + 1];
      AllSampled(items[1..]);
    }
  }

  lemma PassBehind(be: Backend, kv: Kv, items: seq<BatchItem>, k: nat)
    requires PlacedBehind(kv, items) && k < |items|
    ensures var (kv', steps) := Decode(be, kv, items);
      var c := kv[items[k].sid];
      && |steps| == |items| && kv'.Keys == kv.Keys
      && kv'[items[k].sid] == c.(cells := c.cells + items[k].tokens)
      && steps[k].next == be.next(c.sampling, c.cells + items[k].tokens)
  {
    AllSampled(items);
    DecodeSteps(be, kv, items);
    DecodeIsPerSequence(be, kv, items, k);
    StepSeesOwnHistory(be, kv, items, k, k);
    var c := kv[items[k].sid];
    WriteBehind(c.cells, items[k].tokens);
    var grown := c.cells + items[k].tokens;
    assert grown[..|grown|] == grown;
  }

  /* ---------------- accepting a pass ---------------- */

  /** The members named by `chosen` have had their pass. */
  ghost predicate Awaited(env: Env, jobs: seq<Job>, chosen: seq<nat>, steps: seq<GenStep>, kv: Kv) {
    && |steps| == |chosen| && NoDup(chosen)
    && forall k {:trigger AwaitedOne(env, jobs, chosen[k], steps[k], kv)} :: 0 <= k < |chosen| ==> AwaitedOne(env, jobs, chosen[k], steps[k], kv)
  }

  ghost predicate AwaitedOne(env: Env, jobs: seq<Job>, i: nat, step: GenStep, kv: Kv) {
    && i < |jobs| && jobs[i].st.sid == i && i in kv
    && Awaiting(env, jobs[i], kv[i], step.next)
    && jobs[i].st.gen.completion <= jobs[i].st.spec.maxTokens
  }

  ghost predicate SameMember(a: Job, b: Job) {
    a.req == b.req && a.table == b.table && a.st.sid == b.st.sid && a.st.spec == b.st.spec && a.st.prompt == b.st.prompt
  }

  /** It ran to its own end, or was cancelled. */
  ghost predicate EndedBy(j: Job, gone: set<nat>) {
    OwnEnd(j.st.gen.reason) || (j.st.gen.reason == Cancelled && j.req.id in gone)
  }

  /** What accepting does for one member. */
  lemma AcceptGoing(env: Env, j: Job, kv: Kv, next: NextToken, gone: bool)
    requires j.st.sid in kv && Awaiting(env, j, kv[j.st.sid], next) && j.st.gen.completion <= j.st.spec.maxTokens
    ensures var g := Accept(env.be.piece, j.st.spec, j.st.gen, next, gone);
      && (g.finished ==> EndedAsReference(env, j.st.spec, Finish(g)) && EndedBy(SetGen(j, Finish(g)), if gone then {j.req.id} else {}))
      && (!g.finished ==> Going(env, SetGen(j, g), kv, j.st.gen.completion + 1))
  {
    AcceptSync(env, j, kv[j.st.sid], next, gone);
    AcceptShape(env.be.piece, j.st.spec, j.st.gen, next, gone);
    FinishShape(Accept(env.be.piece, j.st.spec, j.st.gen, next, gone));
  }

  /** The members in `done` have accepted their token; the others, and their KV, are as before. */
  ghost predicate Partly(env: Env, gone: set<nat>, before: seq<Job>, kv0: Kv, jobs: seq<Job>, kv: Kv, done: seq<nat>) {
    && |jobs| == |before|
    && (forall i {:trigger MemberDone(env, gone, before, jobs, kv, done, i)} :: 0 <= i < |jobs| ==> MemberDone(env, gone, before, jobs, kv, done, i))
    && (forall i :: i !in done ==> (i in kv <==> i in kv0) && (i in kv ==> kv[i] == kv0[i]))
  }

  ghost predicate MemberDone(env: Env, gone: set<nat>, before: seq<Job>, jobs: seq<Job>, kv: Kv, done: seq<nat>, i: nat)
    requires i < |jobs| == |before|
  {
    && SameMember(jobs[i], before[i])
    && (if i in done then Going(env, jobs[i], kv, before[i].st.gen.completion + 1) else jobs[i] == before[i])
    && (Finished(jobs[i]) && !Finished(before[i]) ==> EndedBy(jobs[i], gone))
    && (i in done && Finished(jobs[i]) ==> i !in kv)
  }

  lemma OneMoreDone(env: Env, gone: set<nat>, before: seq<Job>, kv0: Kv, jobs: seq<Job>, kv: Kv, done: seq<nat>, i: nat, step: GenStep)
    requires Partly(env, gone, before, kv0, jobs, kv, done) && AwaitedOne(env, before, i, step, kv0) && i !in done
    requires forall m :: 0 <= m < |before| ==> before[m].st.sid == m
    ensures i < |jobs| && jobs[i] == before[i]
    ensures var j := before[i];
      var g := Accept(env.be.piece, j.st.spec, j.st.gen, step.next, j.req.id in gone);
      && (g.finished ==> Partly(env, gone, before, kv0, jobs[i := SetGen(j, Finish(g))], Release(kv, i), done + [i]))
      && (!g.finished ==> Partly(env, gone, before, kv0, jobs[i := SetGen(j, g)], kv, done + [i]))
  {
    assert MemberDone(env, gone, before, jobs, kv, done, i);
    var j := before[i];
    AcceptGoing(env, j, kv, step.next, j.req.id in gone);
    var g := Accept(env.be.piece, j.st.spec, j.st.gen, step.next, j.req.id in gone);
    if g.finished {
      OneMoreEnded(env, gone, before, kv0, jobs, kv, done, i, SetGen(j, Finish(g)));
    } else {
      OneMoreGoing(env, gone, before, kv0, jobs, kv, done, i, SetGen(j, g));
    }
  }

  /** Member `i` has ended and left the engine. */
  lemma OneMoreEnded(env: Env, gone: set<nat>, before: seq<Job>, kv0: Kv, jobs: seq<Job>, kv: Kv, done: seq<nat>, i: nat, j: Job)
    requires Partly(env, gone, before, kv0, jobs, kv, done) && i < |before| && i !in done
    requires forall m :: 0 <= m < |before| ==> before[m].st.sid == m
    requires SameMember(j, before[i]) && Finished(j) && EndedAsReference(env, j.st.spec, j.st.gen) && EndedBy(j, gone)
    ensures Partly(env, gone, before, kv0, jobs[i := j], Release(kv, i), done + [i])
  {
    var jobs', kv', done' := jobs[i := j], Release(kv, i), done + [i];
    forall m | 0 <= m < |before|
      ensures MemberDone(env, gone, before, jobs', kv', done', m)
    {
      assert MemberDone(env, gone, before, jobs, kv, done, m);
    }
  }

  /** Member `i` goes on. */
  lemma OneMoreGoing(env: Env, gone: set<nat>, before: seq<Job>, kv0: Kv, jobs: seq<Job>, kv: Kv, done: seq<nat>, i: nat, j: Job)
    requires Partly(env, gone, before, kv0, jobs, kv, done) && i < |before| && i !in done
    requires SameMember(j, before[i]) && !Finished(j) && Going(env, j, kv, before[i].st.gen.completion + 1)
    ensures Partly(env, gone, before, kv0, jobs[i := j], kv, done + [i])
  {
    var jobs', done' := jobs[i := j], done + [i];
    forall m | 0 <= m < |before|
      ensures MemberDone(env, gone, before, jobs', kv, done', m)
    {
      assert MemberDone(env, gone, before, jobs, kv, done, m);
    }
  }

  lemma NoneDone(env: Env, gone: set<nat>, before: seq<Job>, kv: Kv)
    ensures Partly(env, gone, before, kv, before, kv, [])
  {
  }

  lemma NextAccepted(env: Env, gone: set<nat>, before: seq<Job>, kv0: Kv, jobs: seq<Job>, kv: Kv, chosen: seq<nat>, steps: seq<GenStep>, k: nat)
    requires Awaited(env, before, chosen, steps, kv0) && (forall m :: 0 <= m < |before| ==> before[m].st.sid == m)
    requires k < |chosen| && Partly(env, gone, before, kv0, jobs, kv, chosen[..k])
    ensures chosen[k] < |jobs| == |before|
    ensures var i := chosen[k];
      var j := before[i];
      var g := Accept(env.be.piece, j.st.spec, j.st.gen, steps[k].next, j.req.id in gone);
      && (g.finished ==> Partly(env, gone, before, kv0, jobs[i := SetGen(j, Finish(g))], Release(kv, i), chosen[..k + 1]))
      && (!g.finished ==> Partly(env, gone, before, kv0, jobs[i := SetGen(j, g)], kv, chosen[..k + 1]))
  {
    assert AwaitedOne(env, before, chosen[k], steps[k], kv0);
    assert chosen[..k + 1] == chosen[..k] + [chosen[k]];
    OneMoreDone(env, gone, before, kv0, jobs, kv, chosen[..k], chosen[k], steps[k]);
  }

  /** Hand each chosen member its sampled token; whoever finishes leaves the engine at once. */
  method AcceptSlice(env: Env, engine: KvEngine, before: seq<Job>, chosen: seq<nat>, steps: seq<GenStep>, gone: set<nat>)
    returns (jobs: seq<Job>)
    requires Awaited(env, before, chosen, steps, engine.kv) && forall m :: 0 <= m < |before| ==> before[m].st.sid == m
    modifies engine
    ensures Partly(env, gone, before, old(engine.kv), jobs, engine.kv, chosen) && engine.passes == old(engine.passes)
  {
    jobs := before;
    var k := 0;
    NoneDone(env, gone, before, engine.kv);
    while k < |chosen|
      invariant k <= |chosen| && Partly(env, gone, before, old(engine.kv), jobs, engine.kv, chosen[..k]) && engine.passes == old(engine.passes)
    {
      NextAccepted(env, gone, before, old(engine.kv), jobs, engine.kv, chosen, steps, k);
      var i := chosen[k];
      var j := before[i];
      var g := Accept(env.be.piece, j.st.spec, j.st.gen, steps[k].next, j.req.id in gone);
      if g.finished {
        jobs := jobs[i := SetGen(j, Finish(g))];
        engine.ReleaseSequence(i);
      } else {
        jobs := jobs[i := SetGen(j, g)];
      }
      k := k + 1;
    }
    assert chosen[..k] == chosen;
  }

  /* ---------------- admission ---------------- */

  /** A member's page table was reserved for its whole life. */
  ghost predicate Reserved(env: Env, j: Job) {
    Finished(j) || BlocksFor(env.cfg.blockSize, ContextNeed(j.st.prompt, j.st.spec)) <= |j.table.blocks|
  }

  /** The reservation covers every position a member is ever given, unless the 32-bit sum of
      prompt and token budget had wrapped. */
  lemma ReservationCovers(env: Env, j: Job, item: BatchItem)
    requires Reserved(env, j) && !Finished(j) && |j.st.prompt| + j.st.spec.maxTokens < U32
    requires item == TakePrefillChunk(j.st, |j.st.prompt|).0 || (item == DecodeItem(j.st) && 1 <= j.st.gen.completion <= j.st.spec.maxTokens)
    ensures item.pos0 + |item.tokens| <= |j.table.blocks| * env.cfg.blockSize
  {
    var n := |j.st.prompt| + j.st.spec.maxTokens;
    BlocksForIsCeiling(env.cfg.blockSize, n);
    ScaleOrder(BlocksFor(env.cfg.blockSize, n), |j.table.blocks|, env.cfg.blockSize);
  }

  /* ---------------- who is admitted ---------------- */

  function Need(env: Env, req: Request): nat {
    BlocksFor(env.cfg.blockSize, ContextNeed(PromptOf(env, req), req.spec))
  }

  /** A member is admitted if it passes its context check and its whole life fits into what
      the members before it left free. */
  predicate Admits(env: Env, req: Request, free: nat) {
    (env.cfg.nCtxSeq > 0 ==> ContextNeed(PromptOf(env, req), req.spec) <= env.cfg.nCtxSeq) && Need(env, req) <= free
  }

  function FreeAfter(env: Env, batch: seq<Request>, total: nat): nat {
    if batch == [] then total
    else
      var free := FreeAfter(env, DropLast(batch), total);
      if Admits(env, Last(batch), free) then free - Need(env, Last(batch)) else free
  }

  predicate IsAdmitted(env: Env, batch: seq<Request>, i: nat)
    requires i < |batch|
  {
    Admits(env, batch[i], FreeAfter(env, batch[..i], env.cfg.totalBlocks))
  }

  /** Some pass saw the request cancelled. */
  ghost predicate Gone(gone: nat -> set<nat>, id: nat) {
    exists p: nat :: id in gone(p)
  }

  /** How a member may have ended. */
  ghost predicate Verdict(env: Env, batch: seq<Request>, gone: nat -> set<nat>, i: nat, j: Job)
    requires i < |batch|
  {
    if IsAdmitted(env, batch, i) then
      Finished(j) ==> OwnEnd(j.st.gen.reason) || (j.st.gen.reason == Cancelled && Gone(gone, batch[i].id))
    else Finished(j) && j.st.gen.reason == ContextOverflow
  }

  ghost predicate Verdicts(env: Env, batch: seq<Request>, gone: nat -> set<nat>, jobs: seq<Job>) {
    |jobs| <= |batch| && forall i {:trigger Verdict(env, batch, gone, i, jobs[i])} :: 0 <= i < |jobs| ==> Verdict(env, batch, gone, i, jobs[i])
  }

  lemma VerdictsKept(env: Env, batch: seq<Request>, gone: nat -> set<nat>, pass: nat, jobs: seq<Job>, kv0: Kv, jobs': seq<Job>, kv: Kv, chosen: seq<nat>)
    requires Members(env, batch, jobs) && Verdicts(env, batch, gone, jobs) && Partly(env, gone(pass), jobs, kv0, jobs', kv, chosen)
    requires forall k :: k in chosen ==> k < |jobs| && !Finished(jobs[k])
    ensures Verdicts(env, batch, gone, jobs')
  {
    forall i | 0 <= i < |jobs|
      ensures Verdict(env, batch, gone, i, jobs'[i])
    {
      assert IsMember(env, batch[i], i, jobs[i]) && Verdict(env, batch, gone, i, jobs[i]);
      assert MemberDone(env, gone(pass), jobs, jobs', kv, chosen, i);
    }
  }

  lemma AddTable(p: Pool, jobs: seq<Job>, j: Job)
    requires PoolOk(p, Tables(jobs, 0)[|jobs| := j.table.blocks])
    ensures PoolOk(p, Tables(jobs + [j], 0))
  {
    assert Tables(jobs + [j], 0) == Tables(jobs, 0)[|jobs| := j.table.blocks];
  }

  /** What admission makes of a member, given how many blocks were free: `r`, with `left` free. */
  predicate Decided(env: Env, job: Job, r: Job, free: nat, left: nat) {
    && r.req == job.req && r.st == job.st.(gen := r.st.gen)
    && (if Finished(job) then r.st.gen == job.st.gen && left == free
        else
          var need := BlocksFor(env.cfg.blockSize, ContextNeed(job.st.prompt, job.st.spec));
          if need <= free then r.st.gen == job.st.gen && left == free - need
          else r.st.gen == Fail(job.st.gen, NoRoomInBatch, ContextOverflow) && left == free)
  }

  /** Reserve a member's blocks for its whole life, or reject it: the batch cannot preempt. */
  method AdmitMember(env: Env, blocks: BlockAllocator, job: Job, ghost jobs: seq<Job>) returns (r: Job)
    requires blocks.Valid() && blocks.blockSize == env.cfg.blockSize && PoolOk(blocks.View(), Tables(jobs, 0)) && job.table == EMPTY_TABLE
    modifies blocks, blocks.refcounts
    ensures blocks.Valid() && PoolOk(blocks.View(), Tables(jobs + [r], 0)) && Reserved(env, r)
    ensures Decided(env, job, r, old(|blocks.freeList|), |blocks.freeList|)
  {
    AddEmptyOwner(blocks.View(), Tables(jobs, 0), |jobs|);
    ghost var own := Tables(jobs, 0)[|jobs| := []];
    r := job;
    if !Finished(job) {
      var n := ContextNeed(job.st.prompt, job.st.spec);
      EnsureCapacityKeepsPool(env.cfg.blockSize, blocks.View(), own, |jobs|, job.table, n);
      var table := new BlockTable(blocks);
      var ok := table.EnsureCapacity(n);
      r := r.(table := Table(table.blocks, table.tokens, table.sharedBlocks, table.sharedTokens));
      assert own[|jobs| := r.table.blocks] == Tables(jobs, 0)[|jobs| := r.table.blocks];
      if !ok {
        r := SetGen(r, Fail(r.st.gen, NoRoomInBatch, ContextOverflow));
      }
    }
    AddTable(blocks.View(), jobs, r);
  }

  lemma WholePoolFree(p: Pool)
    requires PoolOk(p, map[])
    ensures |p.freeList| == |p.refs|
  {
    FreePlusUsed(p, map[]);
    assert Used(map[]) == {};
  }

  lemma FirstVerdict(env: Env, batch: seq<Request>, gone: nat -> set<nat>, i: nat, job: Job, j: Job, free: nat, left: nat)
    requires i < |batch| && free == FreeAfter(env, batch[..i], env.cfg.totalBlocks) && job == MakeJob(env, batch[i], i)
    requires Decided(env, job, j, free, left)
    ensures Verdict(env, batch, gone, i, j) && (Finished(j) <==> !IsAdmitted(env, batch, i))
    ensures FreeAfter(env, batch[..i + 1], env.cfg.totalBlocks) == left
  {
    assert DropLast(batch[..i + 1]) == batch[..i] && Last(batch[..i + 1]) == batch[i];
  }

  /* ---------------- what stays in the engine ---------------- */

  /** A finished member has left the engine if it was admitted; a rejected one never does. */
  ghost predicate Standing(env: Env, batch: seq<Request>, jobs: seq<Job>, kv: Kv, m: nat)
    requires m < |jobs| <= |batch|
  {
    Finished(jobs[m]) ==>
      if IsAdmitted(env, batch, m) then m !in kv else m in kv && kv[m] == SeqKv(batch[m].spec.sampling, [])
  }

  /** Sequences beyond the members so far are as in `kv0`. */
  ghost predicate Placed(env: Env, batch: seq<Request>, kv0: Kv, jobs: seq<Job>, kv: Kv) {
    && |jobs| <= |batch|
    && (forall k :: k >= |jobs| ==> (k in kv <==> k in kv0) && (k in kv ==> kv[k] == kv0[k]))
    && (forall m {:trigger Standing(env, batch, jobs, kv, m)} :: 0 <= m < |jobs| ==> Standing(env, batch, jobs, kv, m))
  }

  lemma OneMorePlaced(env: Env, batch: seq<Request>, kv0: Kv, jobs: seq<Job>, kv: Kv, job: Job)
    requires Placed(env, batch, kv0, jobs, kv) && |jobs| < |batch| && (Finished(job) <==> !IsAdmitted(env, batch, |jobs|))
    ensures Placed(env, batch, kv0, jobs + [job], Begin(kv, |jobs|, batch[|jobs|].spec.sampling))
  {
    var all, kv' := jobs + [job], Begin(kv, |jobs|, batch[|jobs|].spec.sampling);
    forall m | 0 <= m < |all|
      ensures Standing(env, batch, all, kv', m)
    {
      if m < |jobs| {
        assert Standing(env, batch, jobs, kv, m);
      }
    }
  }

  /** A pass over admitted members, and their leaving, keep that. */
  lemma PassPlaced(env: Env, batch: seq<Request>, gone: nat -> set<nat>, pass: nat, kv0: Kv,
                   jobs: seq<Job>, kv: Kv, jobs1: seq<Job>, kv1: Kv, jobs2: seq<Job>, kv2: Kv, chosen: seq<nat>)
    requires Placed(env, batch, kv0, jobs, kv) && Verdicts(env, batch, gone, jobs) && |jobs1| == |jobs|
    requires forall m :: m in chosen ==> m < |jobs| && !Finished(jobs[m])
    requires forall m :: 0 <= m < |jobs| && m !in chosen ==> jobs1[m] == jobs[m]
    requires kv1.Keys == kv.Keys && forall m :: m in kv && m !in chosen ==> kv1[m] == kv[m]
    requires Partly(env, gone(pass), jobs1, kv1, jobs2, kv2, chosen)
    ensures Placed(env, batch, kv0, jobs2, kv2)
  {
    forall m | 0 <= m < |jobs2|
      ensures Standing(env, batch, jobs2, kv2, m)
    {
      assert Standing(env, batch, jobs, kv, m) && Verdict(env, batch, gone, m, jobs[m]);
      assert MemberDone(env, gone(pass), jobs1, jobs2, kv2, chosen, m);
    }
    forall k | k >= |jobs2|
      ensures (k in kv2 <==> k in kv0) && (k in kv2 ==> kv2[k] == kv0[k])
    {
      assert k !in chosen;
    }
  }

  /** Every member so far is in its place, waiting or rejected, with its blocks reserved. */
  ghost predicate Prepared(env: Env, batch: seq<Request>, gone: nat -> set<nat>, jobs: seq<Job>, kv: Kv) {
    && Members(env, batch, jobs) && Verdicts(env, batch, gone, jobs)
    && forall i :: 0 <= i < |jobs| ==> Waiting(env, jobs[i], kv) && Reserved(env, jobs[i]) && (Finished(jobs[i]) <==> !IsAdmitted(env, batch, i))
  }

  lemma OneMorePrepared(env: Env, batch: seq<Request>, gone: nat -> set<nat>, jobs: seq<Job>, kv: Kv, job: Job)
    requires Prepared(env, batch, gone, jobs, kv) && |jobs| < |batch|
    requires IsMember(env, batch[|jobs|], |jobs|, job) && Verdict(env, batch, gone, |jobs|, job) && Reserved(env, job)
    requires Waiting(env, job, Begin(kv, |jobs|, batch[|jobs|].spec.sampling)) && (Finished(job) <==> !IsAdmitted(env, batch, |jobs|))
    ensures Prepared(env, batch, gone, jobs + [job], Begin(kv, |jobs|, batch[|jobs|].spec.sampling))
  {
    var all, kv' := jobs + [job], Begin(kv, |jobs|, batch[|jobs|].spec.sampling);
    forall i | 0 <= i < |all|
      ensures IsMember(env, batch[i], i, all[i]) && Verdict(env, batch, gone, i, all[i]) && Waiting(env, all[i], kv') && Reserved(env, all[i])
    {
      if i < |jobs| {
        assert IsMember(env, batch[i], i, jobs[i]) && Verdict(env, batch, gone, i, jobs[i]);
      }
    }
  }

  lemma JoinsWaiting(env: Env, req: Request, i: nat, job: Job, kv: Kv, free: nat, left: nat)
    requires Decided(env, MakeJob(env, req, i), job, free, left)
    ensures IsMember(env, req, i, job) && Waiting(env, job, Begin(kv, i, req.spec.sampling))
  {
  }

  lemma MemberJoins(env: Env, batch: seq<Request>, gone: nat -> set<nat>, kv0: Kv, jobs: seq<Job>, kv: Kv, job: Job, free: nat, left: nat)
    requires Prepared(env, batch, gone, jobs, kv) && Placed(env, batch, kv0, jobs, kv) && |jobs| < |batch| && Reserved(env, job)
    requires free == FreeAfter(env, batch[..|jobs|], env.cfg.totalBlocks) && Decided(env, MakeJob(env, batch[|jobs|], |jobs|), job, free, left)
    ensures var all, kv' := jobs + [job], Begin(kv, |jobs|, batch[|jobs|].spec.sampling);
      Prepared(env, batch, gone, all, kv') && Placed(env, batch, kv0, all, kv')
    ensures left == FreeAfter(env, batch[..|jobs| + 1], env.cfg.totalBlocks)
  {
    FirstVerdict(env, batch, gone, |jobs|, MakeJob(env, batch[|jobs|], |jobs|), job, free, left);
    JoinsWaiting(env, batch[|jobs|], |jobs|, job, kv, free, left);
    OneMorePrepared(env, batch, gone, jobs, kv, job);
    OneMorePlaced(env, batch, kv0, jobs, kv, job);
  }

  method AdmitBatch(env: Env, blocks: BlockAllocator, engine: KvEngine, batch: seq<Request>, ghost gone: nat -> set<nat>)
    returns (jobs: seq<Job>)
    requires blocks.Valid() && blocks.blockSize == env.cfg.blockSize && blocks.total == env.cfg.totalBlocks && PoolOk(blocks.View(), map[])
    modifies blocks, blocks.refcounts, engine
    ensures blocks.Valid() && PoolOk(blocks.View(), Tables(jobs, 0)) && engine.passes == old(engine.passes)
    ensures |jobs| == |batch| && Prepared(env, batch, gone, jobs, engine.kv) && Placed(env, batch, old(engine.kv), jobs, engine.kv)
  {
    jobs := [];
    assert Tables(jobs, 0) == map[];
    WholePoolFree(blocks.View());
    assert batch[..0] == [];
    var i := 0;
    while i < |batch|
      invariant i <= |batch| && |jobs| == i && blocks.Valid() && PoolOk(blocks.View(), Tables(jobs, 0))
      invariant Prepared(env, batch, gone, jobs, engine.kv) && Placed(env, batch, old(engine.kv), jobs, engine.kv)
      invariant |blocks.freeList| == FreeAfter(env, batch[..i], env.cfg.totalBlocks) && engine.passes == old(engine.passes)
    {
      ghost var kv, free := engine.kv, |blocks.freeList|;
      engine.BeginSequence(i, batch[i].spec.sampling);
      var job := AdmitMember(env, blocks, MakeJob(env, batch[i], i), jobs);
      MemberJoins(env, batch, gone, old(engine.kv), jobs, kv, job, free, |blocks.freeList|);
      jobs := jobs + [job];
      i := i + 1;
    }
  }

  /* ---------------- prefill ---------------- */

  /** The prompts of the unfinished members among [from, upto), in tokens. */
  function PromptTokens(jobs: seq<Job>, from: nat, upto: nat): nat
    requires upto <= |jobs|
  {
    if upto <= from then 0 else PromptTokens(jobs, from, upto - 1) + (if Finished(jobs[upto - 1]) then 0 else PrefillRemaining(jobs[upto - 1].st))
  }

  /** The unfinished members among [from, upto), in order. */
  function Pick(jobs: seq<Job>, from: nat, upto: nat): seq<nat>
    requires upto <= |jobs|
  {
    if upto <= from then [] else Pick(jobs, from, upto - 1) + (if Finished(jobs[upto - 1]) then [] else [upto - 1])
  }

  /** Each of them once. */
  lemma {:induction false} PickMembers(jobs: seq<Job>, from: nat, upto: nat)
    requires upto <= |jobs|
    ensures NoDup(Pick(jobs, from, upto))
    ensures forall m :: m in Pick(jobs, from, upto) <==> from <= m < upto && !Finished(jobs[m])
    decreases upto
  {
    if from < upto {
      PickMembers(jobs, from, upto - 1);
    }
  }

  lemma {:induction false} PickSplit(jobs: seq<Job>, from: nat, mid: nat, upto: nat)
    requires from <= mid <= upto <= |jobs|
    ensures Pick(jobs, from, upto) == Pick(jobs, from, mid) + Pick(jobs, mid, upto)
    decreases upto
  {
    if mid < upto {
      PickSplit(jobs, from, mid, upto - 1);
    }
  }

  lemma {:induction false} PickSame(jobs: seq<Job>, jobs': seq<Job>, from: nat, upto: nat)
    requires upto <= |jobs| == |jobs'| && forall m :: from <= m < upto ==> Finished(jobs[m]) == Finished(jobs'[m])
    ensures Pick(jobs, from, upto) == Pick(jobs', from, upto)
    decreases upto
  {
    if from < upto {
      PickSame(jobs, jobs', from, upto - 1);
    }
  }

  ghost predicate Unfinished(jobs: seq<Job>, chosen: seq<nat>, from: nat, upto: nat) {
    && NoDup(chosen) && upto <= |jobs|
    && forall m :: m in chosen <==> from <= m < upto && !Finished(jobs[m])
  }

  /** As many whole prompts as fit into one pass, in order and always at least one: it ends
      at the end of the batch or where the next prompt does not fit. */
  method NextSlice(jobs: seq<Job>, from: nat, nBatch: nat) returns (chosen: seq<nat>, next: nat)
    requires from < |jobs|
    ensures from < next <= |jobs| && chosen == Pick(jobs, from, next)
    ensures |chosen| <= 1 || PromptTokens(jobs, from, next) <= nBatch
    ensures next < |jobs| ==> chosen != [] && !Finished(jobs[next]) && PromptTokens(jobs, from, next + 1) > nBatch
  {
    chosen, next := [], from;
    var tokens, full := 0, false;
    while next < |jobs| && !full
      invariant from <= next <= |jobs| && chosen == Pick(jobs, from, next) && tokens == PromptTokens(jobs, from, next)
      invariant |chosen| <= 1 || tokens <= nBatch
      invariant chosen != [] ==> from < next
      invariant full ==> next < |jobs| && chosen != [] && !Finished(jobs[next]) && PromptTokens(jobs, from, next + 1) > nBatch
      decreases |jobs| - next, !full
    {
      if Finished(jobs[next]) {
        next := next + 1;
      } else {
        var len := PrefillRemaining(jobs[next].st);
        if chosen != [] && tokens + len > nBatch {
          full := true;
        } else {
          chosen, tokens, next := chosen + [next], tokens + len, next + 1;
        }
      }
    }
  }

  /** `jobs'` is `jobs` with the chosen members' prompts submitted, as `items`. */
  ghost predicate Submitted(jobs: seq<Job>, chosen: seq<nat>, jobs': seq<Job>, items: seq<BatchItem>) {
    && |jobs'| == |jobs| && |items| == |chosen| && NoDup(chosen)
    && (forall k {:trigger SubmittedOne(jobs, chosen[k], jobs', items[k])} :: 0 <= k < |chosen| ==> SubmittedOne(jobs, chosen[k], jobs', items[k]))
    && (forall m :: 0 <= m < |jobs| && m !in chosen ==> jobs'[m] == jobs[m])
  }

  ghost predicate SubmittedOne(jobs: seq<Job>, i: nat, jobs': seq<Job>, item: BatchItem) {
    && i < |jobs| == |jobs'| && item == BatchItem(jobs[i].st.sid, jobs[i].st.prompt, 0, true)
    && jobs'[i] == jobs[i].(st := jobs[i].st.(prefilled := |jobs[i].st.prompt|))
  }

  lemma SubmitOne(env: Env, before: seq<Job>, chosen: seq<nat>, jobs: seq<Job>, items: seq<BatchItem>, k: nat, kv: Kv)
    requires NoDup(chosen) && k < |chosen| && Submitted(before, chosen[..k], jobs, items)
    requires chosen[k] < |before| && !Finished(before[chosen[k]]) && Waiting(env, before[chosen[k]], kv)
    ensures chosen[k] < |jobs| && jobs[chosen[k]] == before[chosen[k]]
    ensures var (item, st) := TakePrefillChunk(before[chosen[k]].st, |before[chosen[k]].st.prompt|);
      Submitted(before, chosen[..k + 1], jobs[chosen[k] := jobs[chosen[k]].(st := st)], items + [item])
  {
    var i := chosen[k];
    assert chosen[..k + 1] == chosen[..k] + [i] && i !in chosen[..k];
    var (item, st) := TakePrefillChunk(before[i].st, |before[i].st.prompt|);
    var jobs', items' := jobs[i := jobs[i].(st := st)], items + [item];
    forall m | 0 <= m < k + 1
      ensures SubmittedOne(before, chosen[..k + 1][m], jobs', items'[m])
    {
      assert m < k ==> SubmittedOne(before, chosen[..k][m], jobs, items[m]);
    }
  }

  method SubmitPrompts(env: Env, before: seq<Job>, chosen: seq<nat>, ghost kv: Kv) returns (jobs: seq<Job>, items: seq<BatchItem>)
    requires NoDup(chosen) && forall k :: 0 <= k < |chosen| ==>
      chosen[k] < |before| && !Finished(before[chosen[k]]) && Waiting(env, before[chosen[k]], kv)
    ensures Submitted(before, chosen, jobs, items)
  {
    jobs, items := before, [];
    var k := 0;
    while k < |chosen|
      invariant k <= |chosen| && Submitted(before, chosen[..k], jobs, items)
    {
      SubmitOne(env, before, chosen, jobs, items, k, kv);
      var i := chosen[k];
      var (item, st) := TakePrefillChunk(before[i].st, |before[i].st.prompt|);
      jobs, items := jobs[i := jobs[i].(st := st)], items + [item];
      k := k + 1;
    }
    assert chosen[..k] == chosen;
  }

  lemma PromptsAwaited(env: Env, batch: seq<Request>, jobs: seq<Job>, chosen: seq<nat>, jobs': seq<Job>, items: seq<BatchItem>, kv: Kv)
    requires Submitted(jobs, chosen, jobs', items) && Members(env, batch, jobs)
    requires forall k :: 0 <= k < |chosen| ==> chosen[k] < |jobs| && !Finished(jobs[chosen[k]]) && Waiting(env, jobs[chosen[k]], kv)
    ensures var (kv', steps) := Decode(env.be, kv, items);
      && Awaited(env, jobs', chosen, steps, kv') && kv'.Keys == kv.Keys
      && forall m :: m in kv && m !in chosen ==> kv'[m] == kv[m]
  {
    var (kv', steps) := Decode(env.be, kv, items);
    forall k | 0 <= k < |chosen|
      ensures items[k].sid == chosen[k] && chosen[k] in kv && items[k].sample && items[k].pos0 == |kv[chosen[k]].cells|
    {
      assert SubmittedOne(jobs, chosen[k], jobs', items[k]);
      assert IsMember(env, batch[chosen[k]], chosen[k], jobs[chosen[k]]);
    }
    assert PlacedBehind(kv, items);
    PassOver(env.be, kv, chosen, items);
    forall k | 0 <= k < |chosen|
      ensures AwaitedOne(env, jobs', chosen[k], steps[k], kv')
    {
      PassBehind(env.be, kv, items, k);
      assert SubmittedOne(jobs, chosen[k], jobs', items[k]);
      assert IsMember(env, batch[chosen[k]], chosen[k], jobs[chosen[k]]);
      PromptAwaited(env, jobs[chosen[k]], jobs'[chosen[k]], kv[chosen[k]], items[k], kv'[chosen[k]], steps[k]);
    }
  }

  /** A member whose whole prompt was just run. */
  lemma PromptAwaited(env: Env, j: Job, j': Job, c: SeqKv, item: BatchItem, c': SeqKv, step: GenStep)
    requires j.st == NewState(j.st.sid, j.st.spec, j.st.prompt) && j.st.prompt == env.be.tokenize(j.st.spec.prompt)
    requires c == SeqKv(j.st.spec.sampling, []) && item.tokens == j.st.prompt && c' == c.(cells := c.cells + item.tokens)
    requires j' == j.(st := j.st.(prefilled := |j.st.prompt|)) && step.next == env.be.next(c.sampling, c.cells + item.tokens)
    ensures Awaiting(env, j', c', step.next) && j'.st.gen.completion == 0
  {
    assert c.cells + item.tokens == j.st.prompt;
  }

  /** One step per item, and nobody else's KV changes. */
  lemma PassOver(be: Backend, kv: Kv, chosen: seq<nat>, items: seq<BatchItem>)
    requires PlacedBehind(kv, items) && |items| == |chosen| && forall k :: 0 <= k < |chosen| ==> items[k].sid == chosen[k]
    ensures var (kv', steps) := Decode(be, kv, items);
      |steps| == |chosen| && kv'.Keys == kv.Keys && forall m :: m in kv && m !in chosen ==> kv'[m] == kv[m]
  {
    AllSampled(items);
    DecodeSteps(be, kv, items);
    var kv' := Decode(be, kv, items).0;
    forall m | m in kv && m !in chosen
      ensures kv'[m] == kv[m]
    {
      assert ForOther(items, m);
      DecodeFrame(be, kv, items, m);
    }
  }

  /** Members before `i` have had their first token; the others wait for their prefill. */
  ghost predicate PrefilledTo(env: Env, jobs: seq<Job>, kv: Kv, i: nat) {
    forall m {:trigger MemberAt(env, jobs, kv, i, m)} :: 0 <= m < |jobs| ==> MemberAt(env, jobs, kv, i, m)
  }

  ghost predicate MemberAt(env: Env, jobs: seq<Job>, kv: Kv, i: nat, m: nat)
    requires m < |jobs|
  {
    if m < i then Going(env, jobs[m], kv, 1) else Waiting(env, jobs[m], kv)
  }

  lemma SkipFinished(env: Env, jobs: seq<Job>, kv: Kv, i: nat, next: nat)
    requires PrefilledTo(env, jobs, kv, i) && Unfinished(jobs, [], i, next) && i <= next
    ensures PrefilledTo(env, jobs, kv, next)
  {
    forall m | 0 <= m < |jobs|
      ensures MemberAt(env, jobs, kv, next, m)
    {
      assert MemberAt(env, jobs, kv, i, m);
      assert i <= m < next ==> m !in [] && Finished(jobs[m]);
    }
  }

  lemma SlicePrefilled(env: Env, gone: set<nat>, batch: seq<Request>, jobs: seq<Job>, kv: Kv, i: nat, next: nat, chosen: seq<nat>,
                       jobs1: seq<Job>, items: seq<BatchItem>, kv1: Kv, jobs2: seq<Job>, kv2: Kv)
    requires PrefilledTo(env, jobs, kv, i) && Members(env, batch, jobs) && i <= next && Unfinished(jobs, chosen, i, next)
    requires Submitted(jobs, chosen, jobs1, items) && Partly(env, gone, jobs1, kv1, jobs2, kv2, chosen)
    requires kv1.Keys == kv.Keys && forall m :: m in kv && m !in chosen ==> kv1[m] == kv[m]
    ensures PrefilledTo(env, jobs2, kv2, next) && Members(env, batch, jobs2)
    ensures |jobs2| == |jobs| && forall m :: 0 <= m < |jobs| ==> jobs2[m].table == jobs[m].table
  {
    forall m | 0 <= m < |jobs|
      ensures MemberAt(env, jobs2, kv2, next, m) && IsMember(env, batch[m], m, jobs2[m]) && jobs2[m].table == jobs[m].table
    {
      assert MemberAt(env, jobs, kv, i, m) && IsMember(env, batch[m], m, jobs[m]);
      assert MemberDone(env, gone, jobs1, jobs2, kv2, chosen, m);
      if m in chosen {
        var k :| 0 <= k < |chosen| && chosen[k] == m;
        assert SubmittedOne(jobs, chosen[k], jobs1, items[k]);
      } else {
        assert jobs2[m] == jobs[m];
        assert i <= m < next ==> Finished(jobs[m]);
      }
    }
  }

  /** Where prefill stands: the members before `i` are through it. */
  ghost predicate InPrefill(env: Env, batch: seq<Request>, gone: nat -> set<nat>, kv0: Kv, jobs: seq<Job>, kv: Kv, i: nat) {
    && |jobs| == |batch| && Members(env, batch, jobs) && PrefilledTo(env, jobs, kv, i)
    && Verdicts(env, batch, gone, jobs) && Placed(env, batch, kv0, jobs, kv)
  }

  /** The whole prompts of the chosen members, in order, each at position 0 and sampled. */
  ghost predicate PromptsOf(env: Env, batch: seq<Request>, chosen: seq<nat>, items: seq<BatchItem>) {
    |items| == |chosen| && forall k :: 0 <= k < |chosen| ==>
      chosen[k] < |batch| && items[k] == BatchItem(chosen[k], PromptOf(env, batch[chosen[k]]), 0, true)
  }

  lemma SubmittedPrompts(env: Env, batch: seq<Request>, jobs: seq<Job>, chosen: seq<nat>, jobs': seq<Job>, items: seq<BatchItem>)
    requires Submitted(jobs, chosen, jobs', items) && Members(env, batch, jobs)
    ensures PromptsOf(env, batch, chosen, items)
  {
    forall k | 0 <= k < |chosen|
      ensures chosen[k] < |batch| && items[k] == BatchItem(chosen[k], PromptOf(env, batch[chosen[k]]), 0, true)
    {
      assert SubmittedOne(jobs, chosen[k], jobs', items[k]);
      assert IsMember(env, batch[chosen[k]], chosen[k], jobs[chosen[k]]);
    }
  }

  lemma ChosenWait(env: Env, jobs: seq<Job>, kv: Kv, from: nat, next: nat)
    requires PrefilledTo(env, jobs, kv, from) && from <= next <= |jobs|
    ensures var chosen := Pick(jobs, from, next);
      && Unfinished(jobs, chosen, from, next)
      && forall k :: 0 <= k < |chosen| ==> chosen[k] < |jobs| && !Finished(jobs[chosen[k]]) && Waiting(env, jobs[chosen[k]], kv)
  {
    PickMembers(jobs, from, next);
    var chosen := Pick(jobs, from, next);
    forall k | 0 <= k < |chosen|
      ensures chosen[k] < |jobs| && !Finished(jobs[chosen[k]]) && Waiting(env, jobs[chosen[k]], kv)
    {
      assert chosen[k] in chosen;
      assert MemberAt(env, jobs, kv, from, chosen[k]);
    }
  }

  /** The engine was given one more batch. */
  ghost predicate OnePass(before: seq<seq<BatchItem>>, now: seq<seq<BatchItem>>) {
    |now| == |before| + 1 && now[..|before|] == before
  }

  /** All items of the passes, in order. */
  function Flat(passes: seq<seq<BatchItem>>): seq<BatchItem> {
    if passes == [] then [] else Flat(DropLast(passes)) + Last(passes)
  }

  /** None of the first `n` passes throws. */
  ghost predicate Quiet(faults: nat -> Option<Garbage>, n: nat) {
    forall p: nat :: p < n ==> faults(p).None?
  }

  /** What a throwing pass leaves in the KV of its sequences. */
  type Garbage = map<SeqId, seq<Token>>

  /** One prefill pass: the members of a slice are given their prompts and accept a token. */
  method PrefillSlice(env: Env, engine: KvEngine, batch: seq<Request>, before: seq<Job>, gone: nat -> set<nat>, fault: Option<Garbage>, pass: nat,
                      chosen: seq<nat>, ghost kv0: Kv, ghost from: nat, ghost next: nat)
    returns (jobs: seq<Job>, ok: bool)
    requires engine.be == env.be && InPrefill(env, batch, gone, kv0, before, engine.kv, from)
    requires from <= next <= |before| && chosen == Pick(before, from, next)
    modifies engine
    ensures OnePass(old(engine.passes), engine.passes) && PromptsOf(env, batch, chosen, Last(engine.passes))
    ensures ok == fault.None? && TablesKept(before, jobs)
    ensures ok ==> InPrefill(env, batch, gone, kv0, jobs, engine.kv, next) && forall m :: next <= m < |jobs| ==> jobs[m] == before[m]
    ensures !ok ==> Broken(env, batch, gone, kv0, jobs, engine.kv)
  {
    ghost var kv := engine.kv;
    ChosenWait(env, before, kv, from, next);
    var jobs1, items := SubmitPrompts(env, before, chosen, kv);
    ok := fault.None?;
    SliceSubmitted(env, batch, gone, kv0, before, kv, from, next, jobs1, items);
    if !ok {
      SliceBroken(env, batch, gone, kv0, before, kv, from, next, jobs1, items, fault.value);
      engine.Throw(items, fault.value);
      jobs := jobs1;
      return;
    }
    var steps := engine.DecodeBatch(items);
    ghost var kv1 := engine.kv;
    jobs := AcceptSlice(env, engine, jobs1, chosen, steps, gone(pass));
    SliceDone(env, batch, gone, pass, kv0, before, kv, from, next, jobs1, items, kv1, jobs, engine.kv);
  }

  /** A pass threw: whoever had finished is as before, and no other sequence was touched. */
  ghost predicate Broken(env: Env, batch: seq<Request>, gone: nat -> set<nat>, kv0: Kv, jobs: seq<Job>, kv: Kv) {
    && |jobs| == |batch| && Members(env, batch, jobs) && Verdicts(env, batch, gone, jobs)
    && (forall m :: 0 <= m < |jobs| && Finished(jobs[m]) ==> EndedAsReference(env, jobs[m].st.spec, jobs[m].st.gen))
    && (forall k :: k >= |batch| ==> (k in kv <==> k in kv0) && (k in kv ==> kv[k] == kv0[k]))
  }

  lemma SliceBroken(env: Env, batch: seq<Request>, gone: nat -> set<nat>, kv0: Kv, jobs: seq<Job>, kv: Kv, from: nat, next: nat,
                    jobs1: seq<Job>, items: seq<BatchItem>, garbage: Garbage)
    requires InPrefill(env, batch, gone, kv0, jobs, kv, from) && from <= next <= |jobs|
    requires Submitted(jobs, Pick(jobs, from, next), jobs1, items)
    ensures Broken(env, batch, gone, kv0, jobs1, Scramble(kv, Touched(items), garbage)) && TablesKept(jobs, jobs1)
  {
    var chosen := Pick(jobs, from, next);
    ChosenWait(env, jobs, kv, from, next);
    SubmittedMembers(env, batch, gone, jobs, chosen, jobs1, items);
    SubmittedPrompts(env, batch, jobs, chosen, jobs1, items);
    forall m | 0 <= m < |jobs|
      ensures jobs1[m].table == jobs[m].table
      ensures Finished(jobs1[m]) ==> EndedAsReference(env, jobs1[m].st.spec, jobs1[m].st.gen)
    {
      assert MemberAt(env, jobs, kv, from, m);
      if m in chosen {
        var k :| 0 <= k < |chosen| && chosen[k] == m;
        assert SubmittedOne(jobs, chosen[k], jobs1, items[k]);
      }
    }
  }

  lemma SliceSubmitted(env: Env, batch: seq<Request>, gone: nat -> set<nat>, kv0: Kv, jobs: seq<Job>, kv: Kv, from: nat, next: nat,
                       jobs1: seq<Job>, items: seq<BatchItem>)
    requires InPrefill(env, batch, gone, kv0, jobs, kv, from) && from <= next <= |jobs|
    requires Submitted(jobs, Pick(jobs, from, next), jobs1, items)
    ensures var chosen := Pick(jobs, from, next);
      var (kv1, steps) := Decode(env.be, kv, items);
      && PromptsOf(env, batch, chosen, items) && Awaited(env, jobs1, chosen, steps, kv1)
      && kv1.Keys == kv.Keys && (forall m :: m in kv && m !in chosen ==> kv1[m] == kv[m])
      && |jobs1| == |jobs| && forall m :: 0 <= m < |jobs1| ==> jobs1[m].st.sid == m
  {
    var chosen := Pick(jobs, from, next);
    ChosenWait(env, jobs, kv, from, next);
    SubmittedPrompts(env, batch, jobs, chosen, jobs1, items);
    PromptsAwaited(env, batch, jobs, chosen, jobs1, items, kv);
    SubmittedMembers(env, batch, gone, jobs, chosen, jobs1, items);
  }

  lemma SliceDone(env: Env, batch: seq<Request>, gone: nat -> set<nat>, pass: nat, kv0: Kv, jobs: seq<Job>, kv: Kv, from: nat, next: nat,
                  jobs1: seq<Job>, items: seq<BatchItem>, kv1: Kv, jobs2: seq<Job>, kv2: Kv)
    requires InPrefill(env, batch, gone, kv0, jobs, kv, from) && from <= next <= |jobs|
    requires Submitted(jobs, Pick(jobs, from, next), jobs1, items)
    requires kv1.Keys == kv.Keys && forall m :: m in kv && m !in Pick(jobs, from, next) ==> kv1[m] == kv[m]
    requires Partly(env, gone(pass), jobs1, kv1, jobs2, kv2, Pick(jobs, from, next))
    ensures InPrefill(env, batch, gone, kv0, jobs2, kv2, next)
    ensures forall m :: 0 <= m < |jobs| ==> jobs2[m].table == jobs[m].table && (m >= next ==> jobs2[m] == jobs[m])
  {
    var chosen := Pick(jobs, from, next);
    ChosenWait(env, jobs, kv, from, next);
    SubmittedMembers(env, batch, gone, jobs, chosen, jobs1, items);
    SlicePrefilled(env, gone(pass), batch, jobs, kv, from, next, chosen, jobs1, items, kv1, jobs2, kv2);
    VerdictsKept(env, batch, gone, pass, jobs1, kv1, jobs2, kv2, chosen);
    PassPlaced(env, batch, gone, pass, kv0, jobs, kv, jobs1, kv1, jobs2, kv2, chosen);
    forall m | next <= m < |jobs|
      ensures jobs2[m] == jobs[m]
    {
      assert MemberDone(env, gone(pass), jobs1, jobs2, kv2, chosen, m);
    }
  }

  /** The members given their prompts so far are the unfinished ones before `i`, in order. */
  lemma MorePrompts(env: Env, batch: seq<Request>, before: seq<Job>, jobs: seq<Job>, i: nat, next: nat, prefills: seq<seq<BatchItem>>, pass: seq<BatchItem>)
    requires i <= next <= |before| == |jobs| && PromptsOf(env, batch, Pick(before, 0, i), Flat(prefills))
    requires (forall m :: i <= m < |jobs| ==> jobs[m] == before[m]) && PromptsOf(env, batch, Pick(jobs, i, next), pass)
    ensures PromptsOf(env, batch, Pick(before, 0, next), Flat(prefills + [pass]))
  {
    PickSame(before, jobs, i, next);
    PickSplit(before, 0, i, next);
    assert DropLast(prefills + [pass]) == prefills;
  }

  lemma NoPrompts(env: Env, batch: seq<Request>, before: seq<Job>, jobs: seq<Job>, i: nat, next: nat, prefills: seq<seq<BatchItem>>)
    requires i <= next <= |before| == |jobs| && PromptsOf(env, batch, Pick(before, 0, i), Flat(prefills))
    requires (forall m :: i <= m < |jobs| ==> jobs[m] == before[m]) && Pick(jobs, i, next) == []
    ensures PromptsOf(env, batch, Pick(before, 0, next), Flat(prefills))
  {
    PickSame(before, jobs, i, next);
    PickSplit(before, 0, i, next);
  }

  /** Prefill as many whole prompts per pass as fit: what the engine is given is every
      unfinished member's prompt exactly once, whole and in order, up to the first pass that
      throws. */
  method PrefillAll(env: Env, engine: KvEngine, batch: seq<Request>, before: seq<Job>, gone: nat -> set<nat>, faults: nat -> Option<Garbage>, ghost kv0: Kv)
    returns (jobs: seq<Job>, passes: nat, ok: bool, ghost prefills: seq<seq<BatchItem>>, ghost upto: nat)
    requires engine.be == env.be && InPrefill(env, batch, gone, kv0, before, engine.kv, 0)
    modifies engine
    ensures engine.passes == old(engine.passes) + prefills && |prefills| == passes && TablesKept(before, jobs)
    ensures upto <= |before| && PromptsOf(env, batch, Pick(before, 0, upto), Flat(prefills))
    ensures ok ==> InPrefill(env, batch, gone, kv0, jobs, engine.kv, |jobs|) && upto == |before| && Quiet(faults, passes)
    ensures !ok ==> Broken(env, batch, gone, kv0, jobs, engine.kv) && passes > 0 && Quiet(faults, passes - 1) && faults(passes - 1).Some?
  {
    jobs, passes, ok, prefills, upto := before, 0, true, [], 0;
    var i := 0;
    while i < |jobs| && ok
      invariant upto == i <= |jobs| == |before| && TablesKept(before, jobs) && |prefills| == passes
      invariant engine.passes == old(engine.passes) + prefills && PromptsOf(env, batch, Pick(before, 0, i), Flat(prefills))
      invariant ok ==> InPrefill(env, batch, gone, kv0, jobs, engine.kv, i) && Quiet(faults, passes)
      invariant ok ==> forall m :: i <= m < |jobs| ==> jobs[m] == before[m]
      invariant !ok ==> Broken(env, batch, gone, kv0, jobs, engine.kv) && passes > 0 && Quiet(faults, passes - 1) && faults(passes - 1).Some?
    {
      var chosen, next := NextSlice(jobs, i, env.cfg.nBatch);
      if chosen == [] {
        PickMembers(jobs, i, next);
        SkipFinished(env, jobs, engine.kv, i, next);
        NoPrompts(env, batch, before, jobs, i, next, prefills);
      } else {
        ghost var was, made := jobs, engine.passes;
        jobs, ok := PrefillSlice(env, engine, batch, jobs, gone, faults(passes), passes, chosen, kv0, i, next);
        KeptTwice(before, was, jobs);
        MorePrompts(env, batch, before, was, i, next, prefills, Last(engine.passes));
        OneMorePass(old(engine.passes), prefills, made, engine.passes);
        prefills, passes := prefills + [Last(engine.passes)], passes + 1;
      }
      i, upto := next, next;
    }
  }

  lemma OneMorePass(start: seq<seq<BatchItem>>, own: seq<seq<BatchItem>>, before: seq<seq<BatchItem>>, now: seq<seq<BatchItem>>)
    requires before == start + own && OnePass(before, now)
    ensures now == start + (own + [Last(now)])
  {
    assert now == now[..|before|] + [Last(now)];
  }

  lemma KeptTwice(before: seq<Job>, between: seq<Job>, jobs: seq<Job>)
    requires TablesKept(before, between) && TablesKept(between, jobs)
    ensures TablesKept(before, jobs)
  {
  }

  lemma SubmittedMembers(env: Env, batch: seq<Request>, gone: nat -> set<nat>, jobs: seq<Job>, chosen: seq<nat>, jobs1: seq<Job>, items: seq<BatchItem>)
    requires Members(env, batch, jobs) && Submitted(jobs, chosen, jobs1, items) && Verdicts(env, batch, gone, jobs)
    requires forall k :: 0 <= k < |chosen| ==> chosen[k] < |jobs| && !Finished(jobs[chosen[k]])
    ensures Members(env, batch, jobs1) && Verdicts(env, batch, gone, jobs1)
    ensures forall m :: 0 <= m < |jobs1| ==> jobs1[m].st.sid == m
    ensures forall k :: k in chosen ==> k < |jobs1| && !Finished(jobs1[k])
  {
    forall m | 0 <= m < |jobs1|
      ensures IsMember(env, batch[m], m, jobs1[m]) && Verdict(env, batch, gone, m, jobs1[m]) && Finished(jobs1[m]) == Finished(jobs[m])
    {
      assert IsMember(env, batch[m], m, jobs[m]) && Verdict(env, batch, gone, m, jobs[m]);
      if m in chosen {
        var k :| 0 <= k < |chosen| && chosen[k] == m;
        assert SubmittedOne(jobs, chosen[k], jobs1, items[k]);
      }
    }
  }

  /* ---------------- decode ---------------- */

  ghost predicate InStep(env: Env, jobs: seq<Job>, kv: Kv, n: nat) {
    forall m {:trigger Going(env, jobs[m], kv, n)} :: 0 <= m < |jobs| ==> Going(env, jobs[m], kv, n)
  }

  /** The item of every unfinished member. */
  ghost predicate DecodesOf(jobs: seq<Job>, chosen: seq<nat>, items: seq<BatchItem>) {
    |items| == |chosen| && forall k :: 0 <= k < |chosen| ==> chosen[k] < |jobs| && items[k] == DecodeItem(jobs[chosen[k]].st)
  }

  method SubmitDecodes(jobs: seq<Job>) returns (chosen: seq<nat>, items: seq<BatchItem>)
    ensures chosen == Pick(jobs, 0, |jobs|) && DecodesOf(jobs, chosen, items)
  {
    chosen, items := [], [];
    var i := 0;
    while i < |jobs|
      invariant i <= |jobs| && chosen == Pick(jobs, 0, i) && DecodesOf(jobs, chosen, items)
    {
      if !Finished(jobs[i]) {
        chosen, items := chosen + [i], items + [DecodeItem(jobs[i].st)];
      }
      i := i + 1;
    }
  }

  lemma DecodesAwaited(env: Env, batch: seq<Request>, jobs: seq<Job>, chosen: seq<nat>, items: seq<BatchItem>, kv: Kv, n: nat)
    requires Members(env, batch, jobs) && InStep(env, jobs, kv, n) && n > 0
    requires Unfinished(jobs, chosen, 0, |jobs|) && DecodesOf(jobs, chosen, items)
    ensures var (kv', steps) := Decode(env.be, kv, items);
      Awaited(env, jobs, chosen, steps, kv') && kv'.Keys == kv.Keys && forall m :: m in kv && m !in chosen ==> kv'[m] == kv[m]
  {
    var (kv', steps) := Decode(env.be, kv, items);
    forall k | 0 <= k < |chosen|
      ensures items[k].sid == chosen[k] && chosen[k] in kv && items[k].sample && items[k].pos0 == |kv[chosen[k]].cells|
      ensures !Finished(jobs[chosen[k]])
    {
      assert chosen[k] in chosen;
      assert IsMember(env, batch[chosen[k]], chosen[k], jobs[chosen[k]]) && Going(env, jobs[chosen[k]], kv, n);
    }
    assert PlacedBehind(kv, items);
    PassOver(env.be, kv, chosen, items);
    forall k | 0 <= k < |chosen|
      ensures AwaitedOne(env, jobs, chosen[k], steps[k], kv')
    {
      PassBehind(env.be, kv, items, k);
      var j := jobs[chosen[k]];
      assert IsMember(env, batch[chosen[k]], chosen[k], j) && Going(env, j, kv, n);
      assert items[k].tokens == [j.st.gen.pending];
    }
  }

  lemma StepDone(env: Env, gone: set<nat>, batch: seq<Request>, jobs: seq<Job>, kv: Kv, chosen: seq<nat>, kv1: Kv, jobs2: seq<Job>, kv2: Kv, n: nat)
    requires Members(env, batch, jobs) && InStep(env, jobs, kv, n) && Unfinished(jobs, chosen, 0, |jobs|)
    requires Partly(env, gone, jobs, kv1, jobs2, kv2, chosen)
    ensures Members(env, batch, jobs2) && InStep(env, jobs2, kv2, n + 1)
    ensures |jobs2| == |jobs| && forall m :: 0 <= m < |jobs| ==> jobs2[m].table == jobs[m].table
  {
    forall m | 0 <= m < |jobs|
      ensures IsMember(env, batch[m], m, jobs2[m]) && Going(env, jobs2[m], kv2, n + 1) && jobs2[m].table == jobs[m].table
    {
      assert IsMember(env, batch[m], m, jobs[m]) && Going(env, jobs[m], kv, n);
      assert MemberDone(env, gone, jobs, jobs2, kv2, chosen, m);
    }
  }

  /** The largest token budget in the batch. */
  function MaxBudget(batch: seq<Request>): (r: nat)
    ensures forall i :: 0 <= i < |batch| ==> batch[i].spec.maxTokens <= r
  {
    if batch == [] then 0
    else
      var m := MaxBudget(DropLast(batch));
      if m < Last(batch).spec.maxTokens then Last(batch).spec.maxTokens else m
  }

  /** One pass per token for everyone still running, until nobody is: at most as many passes
      as the largest token budget. */
  method DecodeAll(env: Env, engine: KvEngine, batch: seq<Request>, before: seq<Job>, gone: nat -> set<nat>, faults: nat -> Option<Garbage>, first: nat, ghost kv0: Kv)
    returns (jobs: seq<Job>, ok: bool, ghost decodes: seq<seq<BatchItem>>)
    requires engine.be == env.be && InDecode(env, batch, gone, kv0, before, engine.kv, 1) && Quiet(faults, first)
    modifies engine
    ensures engine.passes == old(engine.passes) + decodes && |decodes| <= MaxBudget(batch) && AllGenerated(env, batch, decodes) && TablesKept(before, jobs)
    ensures ok ==> InDecode(env, batch, gone, kv0, jobs, engine.kv, |decodes| + 1) && AllDone(env, jobs) && Quiet(faults, first + |decodes|)
    ensures !ok ==> Broken(env, batch, gone, kv0, jobs, engine.kv) && decodes != [] && Quiet(faults, first + |decodes| - 1) && faults(first + |decodes| - 1).Some?
  {
    jobs, ok, decodes := before, true, [];
    var passes, running := 0, true;
    while running && ok
      invariant passes == |decodes| <= MaxBudget(batch) && engine.passes == old(engine.passes) + decodes && AllGenerated(env, batch, decodes)
      invariant ok ==> Decoding(env, batch, gone, kv0, before, jobs, engine.kv, passes + 1) && Quiet(faults, first + passes)
      invariant !ok ==> Broken(env, batch, gone, kv0, jobs, engine.kv) && TablesKept(before, jobs)
      invariant !ok ==> passes > 0 && Quiet(faults, first + passes - 1) && faults(first + passes - 1).Some?
      invariant !running ==> ok && AllDone(env, jobs)
      decreases MaxBudget(batch) - passes, running
    {
      ghost var made := engine.passes;
      jobs, running, ok := NextDecode(env, engine, batch, jobs, before, gone, faults(first + passes), first + passes, kv0, passes + 1);
      if running {
        OneMorePass(old(engine.passes), decodes, made, engine.passes);
        decodes, passes := decodes + [Last(engine.passes)], passes + 1;
      }
    }
    assert ok ==> InDecode(env, batch, gone, kv0, jobs, engine.kv, passes + 1);
  }

  /** Every item feeds back one generated token of a member, behind its prompt. */
  ghost predicate Generated(env: Env, batch: seq<Request>, pass: seq<BatchItem>) {
    pass != [] && forall k :: 0 <= k < |pass| ==>
      && pass[k].sid < |batch| && |pass[k].tokens| == 1 && pass[k].sample
      && pass[k].pos0 >= |PromptOf(env, batch[pass[k].sid])|
  }

  ghost predicate AllGenerated(env: Env, batch: seq<Request>, passes: seq<seq<BatchItem>>) {
    forall p :: 0 <= p < |passes| ==> Generated(env, batch, passes[p])
  }

  lemma DecodesGenerated(env: Env, batch: seq<Request>, jobs: seq<Job>, kv: Kv, n: nat, chosen: seq<nat>, items: seq<BatchItem>)
    requires Members(env, batch, jobs) && InStep(env, jobs, kv, n) && n > 0 && chosen != []
    requires Unfinished(jobs, chosen, 0, |jobs|) && DecodesOf(jobs, chosen, items)
    ensures Generated(env, batch, items)
  {
    forall k | 0 <= k < |items|
      ensures items[k].sid < |batch| && |items[k].tokens| == 1 && items[k].sample && items[k].pos0 >= |PromptOf(env, batch[items[k].sid])|
    {
      assert chosen[k] in chosen;
      assert IsMember(env, batch[chosen[k]], chosen[k], jobs[chosen[k]]) && Going(env, jobs[chosen[k]], kv, n);
    }
  }

  /** Where decoding stands, kept folded until `InDecode` is mentioned. */
  ghost predicate Decoding(env: Env, batch: seq<Request>, gone: nat -> set<nat>, kv0: Kv, before: seq<Job>, jobs: seq<Job>, kv: Kv, n: nat) {
    forall m {:trigger InDecode(env, batch, gone, kv0, jobs, kv, m)} :: m == n ==>
      InDecode(env, batch, gone, kv0, jobs, kv, m) && TablesKept(before, jobs)
  }

  /** One turn of the loop: a pass for whoever is still running, if anybody is. */
  method NextDecode(env: Env, engine: KvEngine, batch: seq<Request>, now: seq<Job>, ghost before: seq<Job>, gone: nat -> set<nat>,
                    fault: Option<Garbage>, pass: nat, ghost kv0: Kv, ghost n: nat)
    returns (jobs: seq<Job>, running: bool, ok: bool)
    requires engine.be == env.be && Decoding(env, batch, gone, kv0, before, now, engine.kv, n) && n > 0
    modifies engine
    ensures ok ==> Decoding(env, batch, gone, kv0, before, jobs, engine.kv, if running then n + 1 else n)
    ensures if running then n <= MaxBudget(batch) else ok && AllDone(env, jobs)
    ensures if running then ok == fault.None? && OnePass(old(engine.passes), engine.passes) && Generated(env, batch, Last(engine.passes))
      else engine.passes == old(engine.passes)
    ensures !ok ==> Broken(env, batch, gone, kv0, jobs, engine.kv) && TablesKept(before, jobs)
  {
    assert InDecode(env, batch, gone, kv0, now, engine.kv, n);
    jobs, ok := now, true;
    var chosen, items := SubmitDecodes(now);
    running := chosen != [];
    if running {
      ChosenRun(now);
      BudgetLeft(env, batch, now, engine.kv, chosen[0], n);
      DecodesGenerated(env, batch, now, engine.kv, n, chosen, items);
      jobs, ok := DecodeStep(env, engine, batch, now, before, gone, fault, pass, chosen, items, kv0, n);
    } else {
      NobodyLeft(env, now, engine.kv, n);
    }
  }

  /** Page tables are fixed for the life of the batch. */
  ghost predicate TablesKept(before: seq<Job>, jobs: seq<Job>) {
    |jobs| == |before| && forall m :: 0 <= m < |jobs| ==> jobs[m].table == before[m].table
  }

  /** Everybody has ended; whoever ran to its own end, as the reference. */
  ghost predicate AllDone(env: Env, jobs: seq<Job>) {
    forall m :: 0 <= m < |jobs| ==> Finished(jobs[m]) && EndedAsReference(env, jobs[m].st.spec, jobs[m].st.gen)
  }

  lemma ChosenRun(jobs: seq<Job>)
    requires Pick(jobs, 0, |jobs|) != []
    ensures var chosen := Pick(jobs, 0, |jobs|); Unfinished(jobs, chosen, 0, |jobs|) && chosen[0] < |jobs| && !Finished(jobs[chosen[0]])
  {
    PickMembers(jobs, 0, |jobs|);
    assert Pick(jobs, 0, |jobs|)[0] in Pick(jobs, 0, |jobs|);
  }

  lemma NobodyLeft(env: Env, jobs: seq<Job>, kv: Kv, n: nat)
    requires Pick(jobs, 0, |jobs|) == [] && InStep(env, jobs, kv, n)
    ensures AllDone(env, jobs)
  {
    PickMembers(jobs, 0, |jobs|);
    forall m | 0 <= m < |jobs|
      ensures Finished(jobs[m]) && EndedAsReference(env, jobs[m].st.spec, jobs[m].st.gen)
    {
      assert m !in Pick(jobs, 0, |jobs|);
      assert Going(env, jobs[m], kv, n);
    }
  }

  /** Where decoding stands: everybody still running has `n` tokens. */
  ghost predicate InDecode(env: Env, batch: seq<Request>, gone: nat -> set<nat>, kv0: Kv, jobs: seq<Job>, kv: Kv, n: nat) {
    && |jobs| == |batch| && Members(env, batch, jobs) && InStep(env, jobs, kv, n)
    && Verdicts(env, batch, gone, jobs) && Placed(env, batch, kv0, jobs, kv)
  }

  /** One pass with one token for everyone still running. */
  method DecodeStep(env: Env, engine: KvEngine, batch: seq<Request>, before: seq<Job>, ghost reserved: seq<Job>, gone: nat -> set<nat>,
                    fault: Option<Garbage>, pass: nat, chosen: seq<nat>, items: seq<BatchItem>, ghost kv0: Kv, ghost n: nat)
    returns (jobs: seq<Job>, ok: bool)
    requires engine.be == env.be && InDecode(env, batch, gone, kv0, before, engine.kv, n) && n > 0
    requires Unfinished(before, chosen, 0, |before|) && DecodesOf(before, chosen, items) && TablesKept(reserved, before)
    modifies engine
    ensures engine.passes == old(engine.passes) + [items] && ok == fault.None? && TablesKept(reserved, jobs)
    ensures ok ==> InDecode(env, batch, gone, kv0, jobs, engine.kv, n + 1)
    ensures !ok ==> Broken(env, batch, gone, kv0, jobs, engine.kv)
  {
    jobs, ok := before, fault.None?;
    if !ok {
      StepBroken(env, batch, gone, kv0, before, engine.kv, n, chosen, items, fault.value);
      engine.Throw(items, fault.value);
      return;
    }
    ghost var kv := engine.kv;
    DecodesAwaited(env, batch, before, chosen, items, kv, n);
    var steps := engine.DecodeBatch(items);
    ghost var kv1 := engine.kv;
    assert forall m :: 0 <= m < |before| ==> IsMember(env, batch[m], m, before[m]);
    jobs := AcceptSlice(env, engine, before, chosen, steps, gone(pass));
    StepDone(env, gone(pass), batch, before, kv, chosen, kv1, jobs, engine.kv, n);
    VerdictsKept(env, batch, gone, pass, before, kv1, jobs, engine.kv, chosen);
    PassPlaced(env, batch, gone, pass, kv0, before, kv, before, kv1, jobs, engine.kv, chosen);
  }

  lemma StepBroken(env: Env, batch: seq<Request>, gone: nat -> set<nat>, kv0: Kv, jobs: seq<Job>, kv: Kv, n: nat,
                   chosen: seq<nat>, items: seq<BatchItem>, garbage: Garbage)
    requires InDecode(env, batch, gone, kv0, jobs, kv, n) && DecodesOf(jobs, chosen, items)
    ensures Broken(env, batch, gone, kv0, jobs, Scramble(kv, Touched(items), garbage))
  {
    forall m | 0 <= m < |jobs| && Finished(jobs[m])
      ensures EndedAsReference(env, jobs[m].st.spec, jobs[m].st.gen)
    {
      assert Going(env, jobs[m], kv, n);
    }
    forall k | 0 <= k < |chosen|
      ensures items[k].sid < |batch|
    {
      assert IsMember(env, batch[chosen[k]], chosen[k], jobs[chosen[k]]);
    }
  }

  lemma BudgetLeft(env: Env, batch: seq<Request>, jobs: seq<Job>, kv: Kv, i: nat, n: nat)
    requires |jobs| == |batch| && Members(env, batch, jobs) && InStep(env, jobs, kv, n) && i < |jobs| && !Finished(jobs[i])
    ensures n <= MaxBudget(batch)
  {
    assert IsMember(env, batch[i], i, jobs[i]) && Going(env, jobs[i], kv, n);
  }

  /* ---------------- a whole batch ---------------- */

  lemma ReleaseFirst(p: Pool, jobs: seq<Job>, i: nat)
    requires i < |jobs| && PoolOk(p, Tables(jobs, i))
    ensures PoolOk(Free(p, jobs[i].table.blocks), Tables(jobs, i + 1))
  {
    FreeKeepsPool(p, Tables(jobs, i), i);
    assert Tables(jobs, i) - {i} == Tables(jobs, i + 1);
  }

  /** The answer of the i-th member: a rejection if it was not admitted, and otherwise, unless
      it was cancelled or a pass threw, the reference. */
  ghost predicate RightAnswer(env: Env, batch: seq<Request>, gone: nat -> set<nat>, failed: bool, i: nat, d: Delivery)
    requires i < |batch|
  {
    && d.req == batch[i]
    && (if IsAdmitted(env, batch, i) then
          || d.result == ReferenceResult(env.be, batch[i].spec)
          || (d.result.reason == Cancelled && Gone(gone, batch[i].id))
          || (failed && d.result.reason == Error)
        else d.result.reason == ContextOverflow)
  }

  /** How a member has ended; with `failed`, perhaps because a pass threw. */
  ghost predicate LastVerdict(env: Env, batch: seq<Request>, gone: nat -> set<nat>, failed: bool, i: nat, j: Job)
    requires i < |batch|
  {
    Verdict(env, batch, gone, i, j) || (failed && IsAdmitted(env, batch, i) && Finished(j) && j.st.gen.reason == Error)
  }

  ghost predicate LastVerdicts(env: Env, batch: seq<Request>, gone: nat -> set<nat>, failed: bool, jobs: seq<Job>) {
    |jobs| <= |batch| && forall i {:trigger LastVerdict(env, batch, gone, failed, i, jobs[i])} :: 0 <= i < |jobs| ==>
      LastVerdict(env, batch, gone, failed, i, jobs[i])
  }

  lemma VerdictsStand(env: Env, batch: seq<Request>, gone: nat -> set<nat>, jobs: seq<Job>)
    requires Verdicts(env, batch, gone, jobs)
    ensures LastVerdicts(env, batch, gone, false, jobs)
  {
    forall i | 0 <= i < |jobs|
      ensures LastVerdict(env, batch, gone, false, i, jobs[i])
    {
      assert Verdict(env, batch, gone, i, jobs[i]);
    }
  }

  lemma Answers(env: Env, batch: seq<Request>, gone: nat -> set<nat>, failed: bool, i: nat, j: Job)
    requires i < |batch| && IsMember(env, batch[i], i, j) && Finished(j) && EndedAsReference(env, j.st.spec, j.st.gen)
    requires LastVerdict(env, batch, gone, failed, i, j)
    ensures RightAnswer(env, batch, gone, failed, i, Delivery(j.req, ResultOf(Finish(j.st.gen), |j.st.prompt|)))
  {
    FinishShape(j.st.gen);
  }

  /** Give back every table and answer every member, in order. */
  method DeliverAll(env: Env, blocks: BlockAllocator, batch: seq<Request>, jobs: seq<Job>, ghost gone: nat -> set<nat>, ghost failed: bool)
    returns (delivered: seq<Delivery>)
    requires blocks.Valid() && PoolOk(blocks.View(), Tables(jobs, 0)) && |jobs| == |batch| && Members(env, batch, jobs)
    requires AllDone(env, jobs) && LastVerdicts(env, batch, gone, failed, jobs)
    modifies blocks, blocks.refcounts
    ensures blocks.Valid() && PoolOk(blocks.View(), map[])
    ensures |delivered| == |batch| && forall i :: 0 <= i < |batch| ==> RightAnswer(env, batch, gone, failed, i, delivered[i])
  {
    delivered := [];
    var i := 0;
    while i < |jobs|
      invariant i <= |jobs| && blocks.Valid() && PoolOk(blocks.View(), Tables(jobs, i)) && |delivered| == i
      invariant forall m :: 0 <= m < i ==> RightAnswer(env, batch, gone, failed, m, delivered[m])
    {
      var j := jobs[i];
      assert IsMember(env, batch[i], i, j) && LastVerdict(env, batch, gone, failed, i, j);
      Answers(env, batch, gone, failed, i, j);
      ReleaseFirst(blocks.View(), jobs, i);
      blocks.Free(j.table.blocks);
      delivered := delivered + [Delivery(j.req, ResultOf(Finish(j.st.gen), |j.st.prompt|))];
      i := i + 1;
    }
    assert Tables(jobs, i) == map[];
  }

  /* ---------------- a pass that throws ---------------- */

  /** The sequences from `n` on. */
  function Beyond(kv: Kv, n: nat): Kv {
    map k | k in kv && k >= n :: kv[k]
  }

  /** The members before `i` have been failed, if they had not finished, and released. */
  ghost predicate FailedTo(env: Env, before: seq<Job>, jobs: seq<Job>, kv0: Kv, kv: Kv, i: nat) {
    && |jobs| == |before| && kv == Beyond(kv0, i)
    && (forall m :: i <= m < |jobs| ==> jobs[m] == before[m])
    && (forall m :: 0 <= m < i && m < |jobs| ==> jobs[m] == FailedMember(before[m]))
  }

  function FailedMember(j: Job): Job {
    SetGen(j, Finish(if Finished(j) then j.st.gen else Fail(j.st.gen, Failure.Backend, Error)))
  }

  lemma FailedEnds(env: Env, batch: seq<Request>, gone: nat -> set<nat>, i: nat, j: Job)
    requires i < |batch| && IsMember(env, batch[i], i, j) && Verdict(env, batch, gone, i, j) && env.mayFail
    requires Finished(j) ==> EndedAsReference(env, j.st.spec, j.st.gen)
    ensures var r := FailedMember(j);
      && IsMember(env, batch[i], i, r) && LastVerdict(env, batch, gone, true, i, r) && r.table == j.table
      && Finished(r) && EndedAsReference(env, r.st.spec, r.st.gen)
  {
    FinishShape(if Finished(j) then j.st.gen else Fail(j.st.gen, Failure.Backend, Error));
  }

  lemma AllFailed(env: Env, batch: seq<Request>, gone: nat -> set<nat>, kv0: Kv, before: seq<Job>, jobs: seq<Job>, kv: Kv)
    requires Broken(env, batch, gone, kv0, before, kv) && env.mayFail && |jobs| == |before|
    requires forall m :: 0 <= m < |jobs| ==> jobs[m] == FailedMember(before[m])
    ensures Members(env, batch, jobs) && LastVerdicts(env, batch, gone, true, jobs) && AllDone(env, jobs) && TablesKept(before, jobs)
  {
    forall m | 0 <= m < |jobs|
      ensures IsMember(env, batch[m], m, jobs[m]) && LastVerdict(env, batch, gone, true, m, jobs[m]) && jobs[m].table == before[m].table
      ensures Finished(jobs[m]) && EndedAsReference(env, jobs[m].st.spec, jobs[m].st.gen)
    {
      assert IsMember(env, batch[m], m, before[m]) && Verdict(env, batch, gone, m, before[m]);
      FailedEnds(env, batch, gone, m, before[m]);
    }
  }

  /** The pass threw: fail whoever was still running and release every slot of the batch. */
  method FailBatch(env: Env, engine: KvEngine, batch: seq<Request>, before: seq<Job>, ghost gone: nat -> set<nat>, ghost kv0: Kv)
    returns (jobs: seq<Job>)
    requires Broken(env, batch, gone, kv0, before, engine.kv) && env.mayFail
    modifies engine
    ensures |jobs| == |batch| && Members(env, batch, jobs) && LastVerdicts(env, batch, gone, true, jobs) && AllDone(env, jobs) && TablesKept(before, jobs)
    ensures engine.kv == Beyond(kv0, |batch|) && engine.passes == old(engine.passes)
  {
    jobs := before;
    ghost var kv1 := engine.kv;
    var i := 0;
    assert kv1 == Beyond(kv1, 0);
    while i < |jobs|
      invariant i <= |jobs| && FailedTo(env, before, jobs, kv1, engine.kv, i) && engine.passes == old(engine.passes)
    {
      assert before[i].st.sid == i by { assert IsMember(env, batch[i], i, before[i]); }
      jobs := jobs[i := FailedMember(jobs[i])];
      engine.ReleaseSequence(i);
      i := i + 1;
    }
    AllFailed(env, batch, gone, kv0, before, jobs, kv1);
  }

  /* ---------------- the batch as a whole ---------------- */

  /** STATIC BATCHING. Every member of the batch is answered once, in order: exactly those whose
      context or blocks do not suffice are rejected, and everyone else, unless cancelled or
      unless a pass threw, is answered as `generate_one` would answer it. What the engine is
      given is every admitted member's prompt exactly once, whole and in order, and then passes
      of generated tokens only, at most as many as the largest token budget, all of it up to the
      first pass that throws. Afterwards the whole pool is free again, and of the batch the engine still knows the rejected members
      and nobody else, or nobody at all if a pass threw. */
  method RunBatch(env: Env, blocks: BlockAllocator, engine: KvEngine, batch: seq<Request>, gone: nat -> set<nat>, faults: nat -> Option<Garbage>)
    returns (delivered: seq<Delivery>, failed: bool, ghost prefills: seq<seq<BatchItem>>, ghost decodes: seq<seq<BatchItem>>, ghost upto: nat)
    requires blocks.Valid() && blocks.blockSize == env.cfg.blockSize && engine.be == env.be && PoolOk(blocks.View(), map[])
    requires blocks.total == env.cfg.totalBlocks && (env.mayFail || forall p: nat :: faults(p).None?)
    modifies blocks, blocks.refcounts, engine
    ensures blocks.Valid() && PoolOk(blocks.View(), map[])
    ensures |delivered| == |batch| && forall i :: 0 <= i < |batch| ==> RightAnswer(env, batch, gone, failed, i, delivered[i])
    ensures engine.passes == old(engine.passes) + prefills + decodes
    ensures upto <= |batch| && (!failed || decodes != [] ==> upto == |batch|) && PromptsOf(env, batch, AdmittedOf(env, batch, upto), Flat(prefills))
    ensures |decodes| <= MaxBudget(batch) && AllGenerated(env, batch, decodes)
    ensures var n := |prefills| + |decodes|; if failed then n > 0 && Quiet(faults, n - 1) && faults(n - 1).Some? else Quiet(faults, n)
    ensures if failed then engine.kv == Beyond(old(engine.kv), |batch|)
      else LeftBehind(env, batch, old(engine.kv), engine.kv)
  {
    ghost var kv0 := engine.kv;
    var jobs := AdmitBatch(env, blocks, engine, batch, gone);
    ghost var reserved := jobs;
    StartPrefill(env, batch, gone, kv0, jobs, engine.kv);
    jobs, failed, prefills, decodes, upto := RunPasses(env, engine, batch, jobs, gone, faults, kv0);
    SameTables(reserved, jobs);
    delivered := DeliverAll(env, blocks, batch, jobs, gone, failed);
  }

  /** The passes of a batch, from the first prefill to the end of the last member. */
  method RunPasses(env: Env, engine: KvEngine, batch: seq<Request>, before: seq<Job>, gone: nat -> set<nat>, faults: nat -> Option<Garbage>, ghost kv0: Kv)
    returns (jobs: seq<Job>, failed: bool, ghost prefills: seq<seq<BatchItem>>, ghost decodes: seq<seq<BatchItem>>, ghost upto: nat)
    requires engine.be == env.be && InPrefill(env, batch, gone, kv0, before, engine.kv, 0)
    requires forall n :: 0 <= n <= |batch| ==> Pick(before, 0, n) == AdmittedOf(env, batch, n)
    requires env.mayFail || forall p: nat :: faults(p).None?
    modifies engine
    ensures |jobs| == |batch| && Members(env, batch, jobs) && AllDone(env, jobs) && TablesKept(before, jobs)
    ensures LastVerdicts(env, batch, gone, failed, jobs)
    ensures engine.passes == old(engine.passes) + prefills + decodes
    ensures upto <= |batch| && (!failed || decodes != [] ==> upto == |batch|) && PromptsOf(env, batch, AdmittedOf(env, batch, upto), Flat(prefills))
    ensures |decodes| <= MaxBudget(batch) && AllGenerated(env, batch, decodes)
    ensures var n := |prefills| + |decodes|; if failed then n > 0 && Quiet(faults, n - 1) && faults(n - 1).Some? else Quiet(faults, n)
    ensures if failed then engine.kv == Beyond(kv0, |batch|) else LeftBehind(env, batch, kv0, engine.kv)
  {
    var passes, ok;
    decodes := [];
    jobs, passes, ok, prefills, upto := PrefillAll(env, engine, batch, before, gone, faults, kv0);
    if ok {
      AllPrefilled(env, batch, gone, kv0, jobs, engine.kv);
      ghost var prefilled := jobs;
      jobs, ok, decodes := DecodeAll(env, engine, batch, jobs, gone, faults, passes, kv0);
      KeptTwice(before, prefilled, jobs);
    }
    failed := !ok;
    if failed {
      ghost var broken := jobs;
      jobs := FailBatch(env, engine, batch, jobs, gone, kv0);
      KeptTwice(before, broken, jobs);
    } else {
      AllLeft(env, batch, kv0, jobs, engine.kv);
      VerdictsStand(env, batch, gone, jobs);
    }
  }

  lemma SameTables(before: seq<Job>, jobs: seq<Job>)
    requires TablesKept(before, jobs)
    ensures Tables(jobs, 0) == Tables(before, 0)
  {
  }

  lemma StartPrefill(env: Env, batch: seq<Request>, gone: nat -> set<nat>, kv0: Kv, jobs: seq<Job>, kv: Kv)
    requires |jobs| == |batch| && Prepared(env, batch, gone, jobs, kv) && Placed(env, batch, kv0, jobs, kv)
    ensures InPrefill(env, batch, gone, kv0, jobs, kv, 0)
    ensures forall n :: 0 <= n <= |batch| ==> Pick(jobs, 0, n) == AdmittedOf(env, batch, n)
  {
    assert PrefilledTo(env, jobs, kv, 0);
    forall n | 0 <= n <= |batch|
      ensures Pick(jobs, 0, n) == AdmittedOf(env, batch, n)
    {
      PickAdmitted(env, batch, jobs, n);
    }
  }

  /** The admitted members before `n`, in order. */
  function AdmittedOf(env: Env, batch: seq<Request>, n: nat): seq<nat>
    requires n <= |batch|
  {
    if n == 0 then [] else AdmittedOf(env, batch, n - 1) + (if IsAdmitted(env, batch, n - 1) then [n - 1] else [])
  }

  lemma {:induction false} PickAdmitted(env: Env, batch: seq<Request>, jobs: seq<Job>, n: nat)
    requires n <= |batch| == |jobs| && forall i :: 0 <= i < |jobs| ==> (Finished(jobs[i]) <==> !IsAdmitted(env, batch, i))
    ensures Pick(jobs, 0, n) == AdmittedOf(env, batch, n)
    decreases n
  {
    if n > 0 {
      PickAdmitted(env, batch, jobs, n - 1);
    }
  }

  /** What a batch leaves in the engine: rejected members were registered and never released
      (src/core/scheduler.cpp:56-85, 659-677); everyone else is as before or gone. */
  ghost predicate LeftBehind(env: Env, batch: seq<Request>, kv0: Kv, kv: Kv) {
    && (forall k :: k >= |batch| ==> (k in kv <==> k in kv0) && (k in kv ==> kv[k] == kv0[k]))
    && (forall m: nat {:trigger IsAdmitted(env, batch, m)} :: m < |batch| ==>
          (m in kv <==> !IsAdmitted(env, batch, m)) && (m in kv ==> kv[m] == SeqKv(batch[m].spec.sampling, [])))
  }

  lemma AllLeft(env: Env, batch: seq<Request>, kv0: Kv, jobs: seq<Job>, kv: Kv)
    requires |jobs| == |batch| && Placed(env, batch, kv0, jobs, kv) && AllDone(env, jobs)
    ensures LeftBehind(env, batch, kv0, kv)
  {
    forall m: nat | m < |batch|
      ensures (m in kv <==> !IsAdmitted(env, batch, m)) && (m in kv ==> kv[m] == SeqKv(batch[m].spec.sampling, []))
    {
      assert Standing(env, batch, jobs, kv, m);
    }
  }

  lemma AllPrefilled(env: Env, batch: seq<Request>, gone: nat -> set<nat>, kv0: Kv, jobs: seq<Job>, kv: Kv)
    requires InPrefill(env, batch, gone, kv0, jobs, kv, |jobs|)
    ensures InDecode(env, batch, gone, kv0, jobs, kv, 1)
  {
    forall m | 0 <= m < |jobs|
      ensures Going(env, jobs[m], kv, 1)
    {
      assert MemberAt(env, jobs, kv, |jobs|, m);
    }
  }

  /** Wait for one request, then take whatever else is already there, up to a batch. */
  method NextBatch(env: Env, queue: RequestQueue) returns (batch: seq<Request>)
    requires CanPop(queue.View())
    modifies queue
    ensures batch + queue.queue == old(queue.queue) && queue.closed == old(queue.closed)
    ensures |batch| <= env.cfg.maxBatch && (|batch| == env.cfg.maxBatch || queue.queue == [])
    ensures batch == [] ==> queue.closed && queue.queue == []
  {
    batch := [];
    var first := queue.Pop();
    if first.None? {
      return;
    }
    batch := [first.value];
    var more := true;
    while |batch| < env.cfg.maxBatch && more
      invariant 0 < |batch| <= env.cfg.maxBatch && batch + queue.queue == old(queue.queue) && queue.closed == old(queue.closed)
      invariant !more ==> queue.queue == []
      decreases |queue.queue|, more
    {
      var next := queue.TryPop();
      more := next.Some?;
      if more {
        batch := batch + [next.value];
      }
    }
  }

  /* ---------------- until the queue is drained ---------------- */

  /** The b-th batch of a closed queue: `maxBatch` requests each, and the rest in the last. */
  function BatchAt(env: Env, reqs: seq<Request>, b: nat): seq<Request> {
    var start := b * env.cfg.maxBatch;
    if start >= |reqs| then []
    else if |reqs| - start <= env.cfg.maxBatch then reqs[start..]
    else reqs[start..start + env.cfg.maxBatch]
  }

  /** The i-th request is in the b-th batch and answered there: rejected exactly if its batch
      has no room for it, and otherwise, unless it was cancelled or a pass of that batch threw,
      with the reference. */
  ghost predicate AnsweredIn(env: Env, reqs: seq<Request>, gone: (nat, nat) -> set<nat>, faults: (nat, nat) -> Option<Garbage>, b: nat, i: nat, d: Delivery) {
    var start, batch := b * env.cfg.maxBatch, BatchAt(env, reqs, b);
    && start <= i < start + |batch| && i < |reqs| && d.req == reqs[i]
    && (if IsAdmitted(env, batch, i - start) then
          || d.result == ReferenceResult(env.be, d.req.spec)
          || (d.result.reason == Cancelled && exists p: nat :: d.req.id in gone(b, p))
          || (d.result.reason == Error && exists p: nat :: faults(b, p).Some?)
        else d.result.reason == ContextOverflow)
  }

  ghost predicate Answered(env: Env, reqs: seq<Request>, gone: (nat, nat) -> set<nat>, faults: (nat, nat) -> Option<Garbage>, i: nat, d: Delivery) {
    exists b: nat :: AnsweredIn(env, reqs, gone, faults, b, i, d)
  }

  lemma RightIsAnswered(env: Env, reqs: seq<Request>, gone: (nat, nat) -> set<nat>, faults: (nat, nat) -> Option<Garbage>, failed: bool, b: nat, i: nat, d: Delivery)
    requires b * env.cfg.maxBatch + |BatchAt(env, reqs, b)| <= |reqs|
    requires i < |BatchAt(env, reqs, b)| && RightAnswer(env, BatchAt(env, reqs, b), (p: nat) => gone(b, p), failed, i, d)
    requires failed ==> exists p: nat :: faults(b, p).Some?
    ensures Answered(env, reqs, gone, faults, b * env.cfg.maxBatch + i, d)
  {
    var batch := BatchAt(env, reqs, b);
    assert batch[i] == reqs[b * env.cfg.maxBatch + i];
    if d.result.reason == Cancelled && Gone((p: nat) => gone(b, p), batch[i].id) {
      var p: nat :| batch[i].id in ((p: nat) => gone(b, p))(p);
      assert d.req.id in gone(b, p);
    }
    assert AnsweredIn(env, reqs, gone, faults, b, b * env.cfg.maxBatch + i, d);
  }

  /** What the loop takes next from a closed queue is the next batch. */
  lemma NextIsBatchAt(env: Env, reqs: seq<Request>, b: nat, batch: seq<Request>, left: seq<Request>)
    requires b * env.cfg.maxBatch <= |reqs| && batch + left == reqs[b * env.cfg.maxBatch..] && batch != []
    requires |batch| <= env.cfg.maxBatch && (|batch| == env.cfg.maxBatch || left == [])
    ensures batch == BatchAt(env, reqs, b) && b * env.cfg.maxBatch + |batch| <= |reqs|
    ensures left == reqs[b * env.cfg.maxBatch + |batch|..] && (left != [] ==> (b + 1) * env.cfg.maxBatch == b * env.cfg.maxBatch + |batch|)
  {
    var start := b * env.cfg.maxBatch;
    assert |reqs[start..]| == |batch| + |left|;
    assert forall k :: 0 <= k < |batch| ==> batch[k] == reqs[start..][k];
    assert forall k :: 0 <= k < |left| ==> left[k] == reqs[start..][|batch| + k];
  }

  /** Where the loop stands after `b` batches: everybody in them is answered. */
  ghost predicate Drained(env: Env, reqs: seq<Request>, gone: (nat, nat) -> set<nat>, faults: (nat, nat) -> Option<Garbage>,
                          b: nat, delivered: seq<Delivery>, left: seq<Request>) {
    && |delivered| <= |reqs| && reqs[|delivered|..] == left && (left != [] ==> |delivered| == b * env.cfg.maxBatch)
    && forall i :: 0 <= i < |delivered| ==> Answered(env, reqs, gone, faults, i, delivered[i])
  }

  lemma BatchDrained(env: Env, reqs: seq<Request>, gone: (nat, nat) -> set<nat>, faults: (nat, nat) -> Option<Garbage>,
                     b: nat, delivered: seq<Delivery>, batch: seq<Request>, left: seq<Request>, answers: seq<Delivery>, failed: bool)
    requires Drained(env, reqs, gone, faults, b, delivered, batch + left) && batch != []
    requires |batch| <= env.cfg.maxBatch && (|batch| == env.cfg.maxBatch || left == []) && |answers| == |batch|
    requires forall i :: 0 <= i < |batch| ==> RightAnswer(env, batch, (p: nat) => gone(b, p), failed, i, answers[i])
    requires failed ==> exists p: nat :: faults(b, p).Some?
    ensures Drained(env, reqs, gone, faults, b + 1, delivered + answers, left)
  {
    NextIsBatchAt(env, reqs, b, batch, left);
    var all := delivered + answers;
    forall i | 0 <= i < |all|
      ensures Answered(env, reqs, gone, faults, i, all[i])
    {
      if i >= |delivered| {
        RightIsAnswered(env, reqs, gone, faults, failed, b, i - |delivered|, answers[i - |delivered|]);
      }
    }
  }

  /** The static loop on a closed queue: batch after batch until it is drained. Everybody in it
      is answered, once and in order, each as its own batch decides, and the whole pool is free
      at the end. `gone` gives the requests seen to be cancelled and `faults` the passes that
      throw, by batch and pass. */
  method RunStatic(env: Env, queue: RequestQueue, blocks: BlockAllocator, engine: KvEngine,
                   gone: (nat, nat) -> set<nat>, faults: (nat, nat) -> Option<Garbage>)
    returns (delivered: seq<Delivery>)
    requires env.mayFail || forall b: nat, p: nat :: faults(b, p).None?
    requires queue.closed && blocks.Valid() && blocks.blockSize == env.cfg.blockSize && engine.be == env.be && PoolOk(blocks.View(), map[])
    requires blocks.total == env.cfg.totalBlocks
    modifies queue, blocks, blocks.refcounts, engine
    ensures queue.queue == [] && blocks.Valid() && PoolOk(blocks.View(), map[])
    ensures |delivered| == |old(queue.queue)|
    ensures forall i :: 0 <= i < |delivered| ==> Answered(env, old(queue.queue), gone, faults, i, delivered[i])
  {
    delivered := [];
    var b, running := 0, true;
    while running
      invariant queue.closed && blocks.Valid() && PoolOk(blocks.View(), map[])
      invariant Drained(env, old(queue.queue), gone, faults, b, delivered, queue.queue)
      invariant !running ==> queue.queue == []
      decreases |queue.queue|, running
    {
      var batch := NextBatch(env, queue);
      if batch == [] {
        running := false;
      } else {
        var answers, failed, prefills, decodes, _ := RunBatch(env, blocks, engine, batch, (p: nat) => gone(b, p), (p: nat) => faults(b, p));
        BatchDrained(env, old(queue.queue), gone, faults, b, delivered, batch, queue.queue, answers, failed);
        delivered, b := delivered + answers, b + 1;
      }
    }
  }
}
