/** What every step of the scheduler keeps, on every run, including runs where the backend
    fails, clients cancel and retain-time copies throw. */
module Invariants {
  import opened Types
  import opened Sequence
  import opened BlockPool
  import opened Cache
  import opened Engine
  import opened Scheduling
  import opened Batch

  /* ---------------- the invariant ---------------- */

  /** Who holds blocks: the live page tables and the occupied donor slots. */
  ghost function Own(jobs: map<SeqId, Job>, held: Ownership): Ownership {
    map k | k in jobs.Keys + held.Keys :: if k in jobs then jobs[k].table.blocks else held[k]
  }

  /** Free slots and active sequence ids partition [0, maxBatch). */
  ghost predicate SlotsOk(maxBatch: nat, freeSlots: seq<SeqId>, active: seq<SeqId>, jobs: map<SeqId, Job>) {
    && NoDup(freeSlots) && NoDup(active)
    && (forall k :: k in active <==> k in jobs)
    && (forall k :: k in jobs ==> k < maxBatch)
    && (forall k: SeqId :: k in freeSlots <==> k < maxBatch && k !in jobs)
  }

  predicate IsDonor(cfg: Config, k: SeqId) {
    cfg.maxBatch <= k < cfg.maxBatch + cfg.donors
  }

  /** Free and occupied donor slots are disjoint and lie above every batch slot. */
  ghost predicate DonorsOk(cfg: Config, freeDonors: seq<SeqId>, held: Ownership) {
    && NoDup(freeDonors)
    && (forall k :: k in freeDonors ==> IsDonor(cfg, k) && k !in held)
    && (forall k :: k in held ==> IsDonor(cfg, k))
  }

  /** A cache entry's blocks are held by whoever it names. */
  ghost predicate EntryOk(blockSize: nat, e: Entry, jobs: map<SeqId, Job>, held: Ownership) {
    && e.blocks != [] && e.nTokens == |e.blocks| * blockSize
    && (if e.retained then e.sid in held && e.blocks == held[e.sid]
        else e.sid in jobs && e.blocks <= jobs[e.sid].table.blocks)
  }

  /** Two retained entries never share a donor slot. */
  ghost predicate Apart(c: CacheState, h: nat, k: nat)
    requires h in c.entries && k in c.entries
  {
    h != k && c.entries[h].entry.retained && c.entries[k].entry.retained ==> c.entries[h].entry.sid != c.entries[k].entry.sid
  }

  ghost predicate CacheOk(blockSize: nat, c: CacheState, jobs: map<SeqId, Job>, held: Ownership) {
    && TicksOk(c)
    && (forall h {:trigger EntryOk(blockSize, c.entries[h].entry, jobs, held)} :: h in c.entries ==> EntryOk(blockSize, c.entries[h].entry, jobs, held))
    && (forall h, k {:trigger Apart(c, h, k)} :: h in c.entries && k in c.entries ==> Apart(c, h, k))
  }

  ghost predicate JobOk(env: Env, k: SeqId, j: Job) {
    && j.st.sid == k && j.st.spec == j.req.spec && j.st.prompt == PromptOf(env, j.req)
    && j.st.gen.completion <= j.st.spec.maxTokens
    && (!Finished(j) && env.cfg.nCtxSeq > 0 ==> ContextNeed(j.st.prompt, j.st.spec) <= env.cfg.nCtxSeq)
  }

  ghost predicate JobsOk(env: Env, jobs: map<SeqId, Job>) {
    forall k {:trigger JobOk(env, k, jobs[k])} :: k in jobs ==> JobOk(env, k, jobs[k])
  }

  /** `extra` are slots registered with the engine that no job owns yet. */
  ghost predicate Wf(env: Env, s: Sys, extra: set<SeqId>) {
    && SlotsOk(env.cfg.maxBatch, s.freeSlots, s.active, s.jobs)
    && DonorsOk(env.cfg, s.cache.freeDonors, s.held)
    && |s.pool.refs| == env.cfg.totalBlocks && PoolOk(s.pool, Own(s.jobs, s.held))
    && CacheOk(env.cfg.blockSize, s.cache, s.jobs, s.held)
    && s.kv.Keys == s.jobs.Keys + s.held.Keys + extra
    && (forall k :: k in extra ==> k in s.freeSlots)
    && JobsOk(env, s.jobs)
  }

  /** The queue, the logs and the contents of the KV cache do not matter here. */
  lemma WfFrame(env: Env, s: Sys, r: Sys, extra: set<SeqId>)
    requires Wf(env, s, extra) && r.active == s.active && r.jobs == s.jobs && r.freeSlots == s.freeSlots
    requires r.pool == s.pool && r.cache == s.cache && r.held == s.held && r.kv.Keys == s.kv.Keys
    ensures Wf(env, r, extra)
  {
  }

  lemma CacheOkSub(blockSize: nat, c: CacheState, jobs: map<SeqId, Job>, held: Ownership,
                   d: CacheState, jobs': map<SeqId, Job>, held': Ownership)
    requires CacheOk(blockSize, c, jobs, held) && TicksOk(d) && SubEntries(d, c)
    requires forall h :: h in d.entries && EntryOk(blockSize, d.entries[h].entry, jobs, held) ==> EntryOk(blockSize, d.entries[h].entry, jobs', held')
    ensures CacheOk(blockSize, d, jobs', held')
  {
    forall h | h in d.entries
      ensures EntryOk(blockSize, d.entries[h].entry, jobs', held')
    {
      assert EntryOk(blockSize, c.entries[h].entry, jobs, held);
    }
    forall h, k | h in d.entries && k in d.entries
      ensures Apart(d, h, k)
    {
      assert Apart(c, h, k);
    }
  }

  /* ---------------- single updates ---------------- */

  lemma OwnSetJob(jobs: map<SeqId, Job>, held: Ownership, sid: SeqId, j: Job)
    ensures Own(jobs[sid := j], held) == Own(jobs, held)[sid := j.table.blocks]
  {
  }

  lemma OwnDropJob(jobs: map<SeqId, Job>, held: Ownership, sid: SeqId)
    requires sid !in held
    ensures Own(jobs - {sid}, held) == Own(jobs, held) - {sid}
  {
  }

  lemma OwnSetHeld(jobs: map<SeqId, Job>, held: Ownership, slot: SeqId, blocks: seq<BlockId>)
    requires slot !in jobs
    ensures Own(jobs, held[slot := blocks]) == Own(jobs, held)[slot := blocks]
  {
  }

  lemma OwnDropHeld(jobs: map<SeqId, Job>, held: Ownership, slot: SeqId)
    requires slot !in jobs
    ensures Own(jobs, held - {slot}) == Own(jobs, held) - {slot}
  {
  }

  lemma OwnSameTables(jobs: map<SeqId, Job>, jobs': map<SeqId, Job>, held: Ownership)
    requires jobs'.Keys == jobs.Keys && forall k :: k in jobs ==> jobs'[k].table.blocks == jobs[k].table.blocks
    ensures Own(jobs', held) == Own(jobs, held)
  {
  }

  /** Jobs may change anything but their tables and identities. */
  lemma ReplaceJobs(env: Env, s: Sys, extra: set<SeqId>, jobs: map<SeqId, Job>)
    requires Wf(env, s, extra) && JobsOk(env, jobs) && jobs.Keys == s.jobs.Keys
    requires forall k :: k in jobs ==> jobs[k].table.blocks == s.jobs[k].table.blocks
    ensures Wf(env, s.(jobs := jobs), extra)
  {
    OwnSameTables(s.jobs, jobs, s.held);
    assert SlotsOk(env.cfg.maxBatch, s.freeSlots, s.active, jobs);
    CacheOkSub(env.cfg.blockSize, s.cache, s.jobs, s.held, s.cache, jobs, s.held);
  }

  lemma JobsOkSet(env: Env, jobs: map<SeqId, Job>, sid: SeqId, j: Job)
    requires JobsOk(env, jobs) && (JobOk(env, sid, j) || (sid in jobs && j.st == jobs[sid].st && j.req == jobs[sid].req))
    ensures JobsOk(env, jobs[sid := j])
  {
    var jobs' := jobs[sid := j];
    forall k | k in jobs'
      ensures JobOk(env, k, jobs'[k])
    {
      assert k in jobs ==> JobOk(env, k, jobs[k]);
    }
  }

  lemma ReplaceJob(env: Env, s: Sys, extra: set<SeqId>, sid: SeqId, j: Job)
    requires Wf(env, s, extra) && sid in s.jobs && JobOk(env, sid, j) && j.table.blocks == s.jobs[sid].table.blocks
    ensures Wf(env, s.(jobs := s.jobs[sid := j]), extra)
  {
    JobsOkSet(env, s.jobs, sid, j);
    ReplaceJobs(env, s, extra, s.jobs[sid := j]);
  }

  /** A job's table grows at its end. */
  lemma GrowJob(env: Env, s: Sys, extra: set<SeqId>, sid: SeqId, q: Pool, t: Table)
    requires Wf(env, s, extra) && sid in s.jobs && s.jobs[sid].table.blocks <= t.blocks
    requires |q.refs| == |s.pool.refs| && PoolOk(q, Own(s.jobs, s.held)[sid := t.blocks])
    ensures Wf(env, s.(pool := q, jobs := s.jobs[sid := s.jobs[sid].(table := t)]), extra)
  {
    var j := s.jobs[sid].(table := t);
    OwnSetJob(s.jobs, s.held, sid, j);
    var jobs := s.jobs[sid := j];
    CacheOkSub(env.cfg.blockSize, s.cache, s.jobs, s.held, s.cache, jobs, s.held);
    assert jobs.Keys == s.jobs.Keys;
    assert SlotsOk(env.cfg.maxBatch, s.freeSlots, s.active, jobs);
    JobsOkSet(env, s.jobs, sid, j);
  }

  /** Growing a table keeps the invariant; it succeeds exactly when the shortfall is free. */
  lemma GrowTableWf(env: Env, s: Sys, sid: SeqId, needed: nat)
    requires Wf(env, s, {}) && sid in s.jobs
    ensures var (r, ok) := GrowTable(env, s, sid, needed);
      && Wf(env, r, {})
      && (ok <==> BlocksFor(env.cfg.blockSize, needed) <= |s.jobs[sid].table.blocks| + |s.pool.freeList|)
      && (ok ==> BlocksFor(env.cfg.blockSize, needed) <= |r.jobs[sid].table.blocks|)
      && (!ok ==> r == s)
  {
    var j := s.jobs[sid];
    var own := Own(s.jobs, s.held);
    EnsureCapacityKeepsPool(env.cfg.blockSize, s.pool, own, sid, j.table, needed);
    var (q, t, ok) := EnsureCapacity(env.cfg.blockSize, s.pool, j.table, needed);
    if ok {
      GrowJob(env, s, {}, sid, q, t);
    } else {
      assert s.jobs[sid := j] == s.jobs;
    }
  }

  /* ---------------- cache steps ---------------- */

  /** Storing an entry whose blocks its holder has keeps the cache well-formed, whatever it
      replaces. */
  lemma InsertWf(env: Env, s: Sys, extra: set<SeqId>, h: nat, e: Entry)
    requires Wf(env, s, extra) && EntryOk(env.cfg.blockSize, e, s.jobs, s.held)
    requires e.retained ==> forall k :: k in s.cache.entries && s.cache.entries[k].entry.retained ==> s.cache.entries[k].entry.sid != e.sid
    ensures Wf(env, s.(cache := Insert(s.cache, h, e)), extra)
  {
    InsertCacheOk(env.cfg.blockSize, s.cache, s.jobs, s.held, h, e);
  }

  lemma InsertCacheOk(blockSize: nat, c: CacheState, jobs: map<SeqId, Job>, held: Ownership, h: nat, e: Entry)
    requires CacheOk(blockSize, c, jobs, held) && EntryOk(blockSize, e, jobs, held)
    requires e.retained ==> forall k :: k in c.entries && c.entries[k].entry.retained ==> c.entries[k].entry.sid != e.sid
    ensures CacheOk(blockSize, Insert(c, h, e), jobs, held)
  {
    InsertTicks(c, h, e);
    var d := Insert(c, h, e);
    forall k | k in d.entries
      ensures EntryOk(blockSize, d.entries[k].entry, jobs, held)
    {
      assert k != h ==> EntryOk(blockSize, c.entries[k].entry, jobs, held);
    }
    forall i, k | i in d.entries && k in d.entries
      ensures Apart(d, i, k)
    {
      assert i != h && k != h ==> Apart(c, i, k);
    }
  }

  lemma TouchWf(env: Env, s: Sys, extra: set<SeqId>, h: nat)
    requires Wf(env, s, extra) && h in s.cache.entries
    ensures Wf(env, s.(cache := Touch(s.cache, h)), extra)
  {
    TouchTicks(s.cache, h);
    CacheOkSub(env.cfg.blockSize, s.cache, s.jobs, s.held, Touch(s.cache, h), s.jobs, s.held);
  }

  /** No entry names `sid`. */
  ghost predicate Unnamed(c: CacheState, sid: SeqId) {
    forall h :: h in c.entries ==> c.entries[h].entry.sid != sid
  }

  /** Forgetting a batch slot never touches a donor. */
  lemma ForgetWf(env: Env, s: Sys, extra: set<SeqId>, sid: SeqId)
    requires Wf(env, s, extra) && sid !in s.held
    ensures Wf(env, ForgetJob(s, sid), extra) && Unnamed(ForgetJob(s, sid).cache, sid)
    ensures ForgetJob(s, sid).cache.freeDonors == s.cache.freeDonors
  {
    TicksKept(s.cache, 0, sid);
    CacheOkSub(env.cfg.blockSize, s.cache, s.jobs, s.held, EvictSequence(s.cache, sid), s.jobs, s.held);
    forall h | h in s.cache.entries && s.cache.entries[h].entry.retained
      ensures s.cache.entries[h].entry.sid != sid
    {
      assert EntryOk(env.cfg.blockSize, s.cache.entries[h].entry, s.jobs, s.held);
    }
    assert DonorKeys(s.cache, sid) == {};
    assert s.cache.freeDonors + [] == s.cache.freeDonors;
  }

  lemma CacheOkAfterDrop(cfg: Config, c: CacheState, jobs: map<SeqId, Job>, held: Ownership, h: nat)
    requires CacheOk(cfg.blockSize, c, jobs, held) && DonorsOk(cfg, c.freeDonors, held)
    requires h in c.entries && c.entries[h].entry.retained
    ensures var e := c.entries[h].entry;
      && e.sid in held && held[e.sid] == e.blocks
      && CacheOk(cfg.blockSize, Drop(c, h), jobs, held - {e.sid})
      && DonorsOk(cfg, Drop(c, h).freeDonors, held - {e.sid})
  {
    var e := c.entries[h].entry;
    assert EntryOk(cfg.blockSize, e, jobs, held);
    TicksKept(c, h, 0);
    forall k | k in Drop(c, h).entries
      ensures c.entries[k].entry.retained ==> c.entries[k].entry.sid != e.sid
    {
      assert Apart(c, k, h);
    }
    CacheOkSub(cfg.blockSize, c, jobs, held, Drop(c, h), jobs, held - {e.sid});
  }

  lemma ReclaimDonorPool(env: Env, s: Sys, extra: set<SeqId>)
    requires Wf(env, s, extra) && HasRetained(s.cache)
    ensures var e := s.cache.entries[LruKey(s.cache)].entry;
      && e.sid !in s.jobs && e.sid in s.held && e.sid !in extra
      && PoolOk(Free(s.pool, e.blocks), Own(s.jobs, s.held - {e.sid}))
      && |Free(s.pool, e.blocks).refs| == |s.pool.refs| && |Free(s.pool, e.blocks).freeList| >= |s.pool.freeList|
  {
    var e := s.cache.entries[LruKey(s.cache)].entry;
    assert EntryOk(env.cfg.blockSize, e, s.jobs, s.held);
    assert e.sid !in s.jobs;
    assert e.sid !in extra;
    FreeKeepsPool(s.pool, Own(s.jobs, s.held), e.sid);
    OwnDropHeld(s.jobs, s.held, e.sid);
  }

  /** Reclaiming a donor returns its references, its KV and its slot. */
  lemma ReclaimDonorWf(env: Env, s: Sys, extra: set<SeqId>)
    requires Wf(env, s, extra) && HasRetained(s.cache)
    ensures Wf(env, ReclaimDonor(s), extra)
    ensures |ReclaimDonor(s).pool.freeList| >= |s.pool.freeList|
  {
    var h := LruKey(s.cache);
    var e := s.cache.entries[h].entry;
    CacheOkAfterDrop(env.cfg, s.cache, s.jobs, s.held, h);
    ReclaimDonorPool(env, s, extra);
    var held, kv := s.held - {e.sid}, Release(s.kv, e.sid);
    assert held.Keys == s.held.Keys - {e.sid};
    assert kv.Keys == s.jobs.Keys + held.Keys + extra;
  }

  lemma {:induction false} ReclaimUntilWf(env: Env, s: Sys, extra: set<SeqId>, n: nat)
    requires Wf(env, s, extra)
    ensures var r := ReclaimUntil(s, n);
      && Wf(env, r, extra)
      && |r.pool.freeList| >= |s.pool.freeList|
      && (|r.pool.freeList| >= n || !HasRetained(r.cache))
    decreases |s.cache.entries|
  {
    if |s.pool.freeList| < n && HasRetained(s.cache) {
      ReclaimDonorWf(env, s, extra);
      ReclaimUntilWf(env, ReclaimDonor(s), extra, n);
    }
  }

  /** The blocks of any entry, live or retained, are referenced: an adopting increment is
      never silently skipped. */
  lemma EntryBlocksReferenced(env: Env, s: Sys, extra: set<SeqId>, h: nat, b: BlockId)
    requires Wf(env, s, extra) && h in s.cache.entries && b in s.cache.entries[h].entry.blocks
    ensures b < |s.pool.refs| && s.pool.refs[b] >= 1 && b !in s.pool.freeList
  {
    var e := s.cache.entries[h].entry;
    assert EntryOk(env.cfg.blockSize, e, s.jobs, s.held);
    var own := Own(s.jobs, s.held);
    assert e.sid in own && e.blocks <= own[e.sid] by {
      if e.retained { assert e.sid !in s.jobs; }
    }
    OwnedIsReferenced(s.pool, own, e.sid, b);
  }

  lemma EntryBlocksDistinct(env: Env, s: Sys, extra: set<SeqId>, h: nat)
    requires Wf(env, s, extra) && h in s.cache.entries
    ensures NoDup(s.cache.entries[h].entry.blocks)
  {
    var e := s.cache.entries[h].entry;
    assert EntryOk(env.cfg.blockSize, e, s.jobs, s.held);
    var own := Own(s.jobs, s.held);
    assert e.retained ==> e.sid !in s.jobs;
    assert NoDup(own[e.sid]);
  }

  /* ---------------- leaving the active set ---------------- */

  lemma SlotsOkAfterRemove(maxBatch: nat, freeSlots: seq<SeqId>, active: seq<SeqId>, jobs: map<SeqId, Job>, i: nat)
    requires SlotsOk(maxBatch, freeSlots, active, jobs) && i < |active|
    ensures SlotsOk(maxBatch, freeSlots + [active[i]], RemoveAt(active, i), jobs - {active[i]})
  {
    RemoveAtMembers(active, i);
    var sid := active[i];
    assert sid in jobs;
    assert forall k :: k in freeSlots + [sid] <==> k in freeSlots || k == sid;
  }

  lemma CacheOkAfterRemove(blockSize: nat, c: CacheState, jobs: map<SeqId, Job>, held: Ownership, sid: SeqId)
    requires CacheOk(blockSize, c, jobs, held) && Unnamed(c, sid)
    ensures CacheOk(blockSize, c, jobs - {sid}, held)
  {
    CacheOkSub(blockSize, c, jobs, held, c, jobs - {sid}, held);
  }

  /** Once no cache entry names it, a job can leave: exactly its own references are dropped. */
  lemma RemoveJobWf(env: Env, s: Sys, i: nat)
    requires Wf(env, s, {}) && i < |s.active| && Unnamed(s.cache, s.active[i])
    ensures s.active[i] in s.jobs && Wf(env, RemoveJob(s, i), {})
    ensures |RemoveJob(s, i).pool.freeList| >= |s.pool.freeList|
  {
    var sid := s.active[i];
    assert sid in s.jobs && sid !in s.held;
    var r := RemoveJob(s, i);
    SlotsOkAfterRemove(env.cfg.maxBatch, s.freeSlots, s.active, s.jobs, i);
    CacheOkAfterRemove(env.cfg.blockSize, s.cache, s.jobs, s.held, sid);
    FreeKeepsPool(s.pool, Own(s.jobs, s.held), sid);
    OwnDropJob(s.jobs, s.held, sid);
    assert PoolOk(r.pool, Own(r.jobs, r.held));
    assert r.jobs.Keys == s.jobs.Keys - {sid};
    assert r.kv.Keys == s.kv.Keys - {sid};
    assert JobsOk(env, r.jobs);
  }

  lemma FreeDonorUnnamed(env: Env, s: Sys, extra: set<SeqId>, slot: SeqId)
    requires Wf(env, s, extra) && slot in s.cache.freeDonors
    ensures slot !in s.held && slot !in s.jobs && slot !in extra && Unnamed(s.cache, slot)
  {
    assert IsDonor(env.cfg, slot);
    forall h | h in s.cache.entries
      ensures s.cache.entries[h].entry.sid != slot
    {
      assert EntryOk(env.cfg.blockSize, s.cache.entries[h].entry, s.jobs, s.held);
    }
  }

  lemma DonorsOkAfterTake(cfg: Config, freeDonors: seq<SeqId>, held: Ownership, blocks: seq<BlockId>)
    requires DonorsOk(cfg, freeDonors, held) && freeDonors != []
    ensures DonorsOk(cfg, DropLast(freeDonors), held) && DonorsOk(cfg, DropLast(freeDonors), held[Last(freeDonors) := blocks])
  {
    var slot := Last(freeDonors);
    assert slot in freeDonors;
    assert forall k :: k in DropLast(freeDonors) ==> k in freeDonors && k != slot;
  }

  /** The donor takes its own reference to each block of the prefix, all of which the
      retiring job still holds. */
  lemma DonorTakesBlocks(p: Pool, jobs: map<SeqId, Job>, held: Ownership, sid: SeqId, slot: SeqId, nb: nat)
    requires PoolOk(p, Own(jobs, held)) && sid in jobs && slot !in jobs && slot !in held
    requires nb <= |jobs[sid].table.blocks|
    ensures var blocks := jobs[sid].table.blocks[..nb];
      && PoolOk(IncrefAll(p, blocks), Own(jobs, held[slot := blocks]))
      && IncrefAll(p, blocks).freeList == p.freeList && |IncrefAll(p, blocks).refs| == |p.refs|
  {
    var own := Own(jobs, held);
    var blocks := jobs[sid].table.blocks[..nb];
    NewHolderKeepsPool(p, own, sid, slot, blocks);
    OwnSetHeld(jobs, held, slot, blocks);
  }

  lemma MakeDonorRoomWf(env: Env, s: Sys, sid: SeqId)
    requires Wf(env, s, {}) && Unnamed(s.cache, sid)
    ensures Wf(env, MakeDonorRoom(s), {}) && Unnamed(MakeDonorRoom(s).cache, sid)
  {
    if s.cache.freeDonors == [] && HasRetained(s.cache) {
      ReclaimDonorWf(env, s, {});
    }
  }

  lemma SameEntries(blockSize: nat, c: CacheState, jobs: map<SeqId, Job>, held: Ownership, d: CacheState)
    requires CacheOk(blockSize, c, jobs, held) && d.entries == c.entries && d.tick == c.tick
    ensures CacheOk(blockSize, d, jobs, held)
  {
    assert forall h, k :: h in d.entries && k in d.entries && TickApart(c, h, k) ==> TickApart(d, h, k);
    CacheOkSub(blockSize, c, jobs, held, d, jobs, held);
  }

  lemma WithDonorWf(env: Env, s: Sys, sid: SeqId, nb: nat, n: nat)
    requires Wf(env, s, {}) && s.cache.freeDonors != [] && sid in s.jobs && nb <= |s.jobs[sid].table.blocks|
    ensures Wf(env, WithDonor(s, sid, s.jobs[sid].table.blocks[..nb], n), {})
  {
    var slot, blocks := Last(s.cache.freeDonors), s.jobs[sid].table.blocks[..nb];
    FreeDonorUnnamed(env, s, {}, slot);
    DonorsOkAfterTake(env.cfg, s.cache.freeDonors, s.held, blocks);
    DonorTakesBlocks(s.pool, s.jobs, s.held, sid, slot, nb);
    var r := WithDonor(s, sid, blocks, n);
    DonorCacheOk(env.cfg.blockSize, s.cache, s.jobs, s.held, r.cache, slot, blocks);
    DonorKeysGrow(s.kv, s.jobs, s.held, sid, slot, blocks, n);
  }

  lemma DonorCacheOk(blockSize: nat, c: CacheState, jobs: map<SeqId, Job>, held: Ownership, d: CacheState, slot: SeqId, blocks: seq<BlockId>)
    requires CacheOk(blockSize, c, jobs, held) && d.entries == c.entries && d.tick == c.tick && slot !in held
    ensures CacheOk(blockSize, d, jobs, held[slot := blocks])
  {
    SameEntries(blockSize, c, jobs, held, d);
    CacheOkSub(blockSize, d, jobs, held, d, jobs, held[slot := blocks]);
  }

  lemma DonorKeysGrow(kv: Kv, jobs: map<SeqId, Job>, held: Ownership, sid: SeqId, slot: SeqId, blocks: seq<BlockId>, n: nat)
    requires kv.Keys == jobs.Keys + held.Keys + {}
    ensures Copy(Begin(kv, slot, DEFAULT_SAMPLING), sid, slot, n).Keys == jobs.Keys + held[slot := blocks].Keys + {}
  {
    assert held[slot := blocks].Keys == held.Keys + {slot};
  }

  lemma LoseDonorSlotWf(env: Env, s: Sys)
    requires Wf(env, s, {}) && s.cache.freeDonors != []
    ensures Wf(env, LoseDonorSlot(s), {}) && LoseDonorSlot(s).cache.entries == s.cache.entries
    ensures LoseDonorSlot(s).kv == s.kv && LoseDonorSlot(s).cache.freeDonors == DropLast(s.cache.freeDonors)
  {
    var slot := Last(s.cache.freeDonors);
    FreeDonorUnnamed(env, s, {}, slot);
    DonorsOkAfterTake(env.cfg, s.cache.freeDonors, s.held, []);
    var c := s.cache.(freeDonors := DropLast(s.cache.freeDonors));
    assert DonorKeys(c, slot) == {};
    var d := EvictSequence(c, slot);
    assert d.entries == s.cache.entries;
    assert d.freeDonors == c.freeDonors;
    SameEntries(env.cfg.blockSize, s.cache, s.jobs, s.held, d);
    ReleaseUndoesBegin(s.kv, slot, DEFAULT_SAMPLING);
  }

  lemma StoreDonorWf(env: Env, s: Sys, sid: SeqId)
    requires Wf(env, s, {}) && s.cache.freeDonors != [] && sid in s.jobs && Unnamed(s.cache, sid)
    requires 0 < WholeBlocks(env, s.jobs[sid]) <= |s.jobs[sid].table.blocks|
    ensures Wf(env, StoreDonor(env, s, s.jobs[sid]), {}) && Unnamed(StoreDonor(env, s, s.jobs[sid]).cache, sid)
  {
    var j := s.jobs[sid];
    var slot, nb, n := Last(s.cache.freeDonors), WholeBlocks(env, j), PrefixTokens(env, j);
    FreeDonorUnnamed(env, s, {}, slot);
    WithDonorWf(env, s, sid, nb, n);
    var s2 := WithDonor(s, sid, j.table.blocks[..nb], n);
    var e := Entry(slot, n, j.table.blocks[..nb], true);
    assert JobOk(env, sid, j);
    assert EntryOk(env.cfg.blockSize, e, s2.jobs, s2.held);
    InsertWf(env, s2, {}, PrefixKey(env, j), e);
  }

  lemma RetainPrefixWf(env: Env, s: Sys, sid: SeqId, copyFails: bool)
    requires Wf(env, s, {}) && sid in s.jobs && Unnamed(s.cache, sid)
    ensures var r := RetainPrefix(env, s, s.jobs[sid], copyFails);
      Wf(env, r, {}) && Unnamed(r.cache, sid)
  {
    if Retainable(env, s.jobs[sid]) {
      MakeDonorRoomWf(env, s, sid);
      var s1 := MakeDonorRoom(s);
      if s1.cache.freeDonors != [] {
        if copyFails {
          LoseDonorSlotWf(env, s1);
        } else {
          StoreDonorWf(env, s1, sid);
        }
      }
    }
  }

  lemma RetireAtWf(env: Env, s: Sys, i: nat, copyFails: set<nat>)
    requires Wf(env, s, {}) && i < |s.active|
    ensures s.active[i] in s.jobs && Wf(env, RetireAt(env, s, i, copyFails), {})
  {
    var sid := s.active[i];
    assert sid in s.jobs && sid !in s.held;
    ForgetWf(env, s, {}, sid);
    var s1 := ForgetJob(s, sid);
    RetainPrefixWf(env, s1, sid, s.jobs[sid].req.id in copyFails);
    RemoveJobWf(env, RetainPrefix(env, s1, s.jobs[sid], s.jobs[sid].req.id in copyFails), i);
  }

  /** The invariant, kept folded until `Wf(env, s, slots)` is mentioned. */
  ghost predicate Sound(env: Env, s: Sys, slots: set<SeqId>) {
    forall extra {:trigger Wf(env, s, extra)} :: extra == slots ==> Wf(env, s, extra)
  }

  lemma RetireSound(env: Env, s: Sys, i: nat, copyFails: set<nat>)
    requires Sound(env, s, {}) && i < |s.active|
    ensures s.active[i] in s.jobs && Sound(env, RetireAt(env, s, i, copyFails), {})
  {
    assert Wf(env, s, {});
    RetireAtWf(env, s, i, copyFails);
  }

  lemma {:induction false} SweepSound(env: Env, s: Sys, i: nat, copyFails: set<nat>)
    requires Sound(env, s, {})
    ensures Sound(env, Sweep(env, s, i, copyFails), {})
    decreases |s.active| - i
  {
    if i < |s.active| {
      RetireSound(env, s, i, copyFails);
      if Finished(s.jobs[s.active[i]]) {
        SweepSound(env, RetireAt(env, s, i, copyFails), i, copyFails);
      } else {
        SweepSound(env, s, i + 1, copyFails);
      }
    }
  }

  lemma SweepWf(env: Env, s: Sys, i: nat, copyFails: set<nat>)
    requires Wf(env, s, {})
    ensures Wf(env, Sweep(env, s, i, copyFails), {})
  {
    SweepSound(env, s, i, copyFails);
  }

  lemma PreemptAtWf(env: Env, s: Sys, i: nat)
    requires Wf(env, s, {}) && i < |s.active|
    ensures s.active[i] in s.jobs && Wf(env, PreemptAt(s, i), {})
  {
    var sid := s.active[i];
    assert sid in s.jobs && sid !in s.held;
    ForgetWf(env, s, {}, sid);
    RemoveJobWf(env, ForgetJob(s, sid), i);
  }

  /* ---------------- joining the active set ---------------- */

  lemma MakeJobOk(env: Env, req: Request, slot: SeqId)
    ensures JobOk(env, slot, MakeJob(env, req, slot))
  {
  }

  lemma SlotsOkAfterEnroll(maxBatch: nat, freeSlots: seq<SeqId>, active: seq<SeqId>, jobs: map<SeqId, Job>, job: Job)
    requires SlotsOk(maxBatch, freeSlots, active, jobs) && freeSlots != []
    ensures SlotsOk(maxBatch, DropLast(freeSlots), active + [Last(freeSlots)], jobs[Last(freeSlots) := job])
  {
    var slot, rest := Last(freeSlots), DropLast(freeSlots);
    var jobs' := jobs[slot := job];
    assert slot in freeSlots && slot !in rest;
    forall k: SeqId
      ensures k in rest <==> k < maxBatch && k !in jobs'
      ensures k in active + [slot] <==> k in jobs'
    {
      if k in freeSlots && k != slot {
        var i :| 0 <= i < |freeSlots| && freeSlots[i] == k;
        assert rest[i] == k;
      }
      assert k in rest ==> k in freeSlots;
    }
    assert NoDup(active + [slot]);
  }

  /** Registering the slot with the engine. */
  lemma BeginWf(env: Env, s: Sys, sampling: Sampling)
    requires Wf(env, s, {}) && s.freeSlots != []
    ensures var slot := Last(s.freeSlots);
      slot !in s.jobs && slot !in s.held && Wf(env, s.(kv := Begin(s.kv, slot, sampling)), {slot})
  {
    var slot := Last(s.freeSlots);
    assert slot in s.freeSlots;
    assert slot !in s.held;
    assert Begin(s.kv, slot, sampling).Keys == s.kv.Keys + {slot};
  }

  /** Undoing it: a rejected or deferred request leaves no trace in the engine. */
  lemma ReleaseSlotWf(env: Env, s: Sys, slot: SeqId)
    requires Wf(env, s, {slot})
    ensures Wf(env, s.(kv := Release(s.kv, slot)), {})
  {
    assert slot in s.freeSlots && slot !in s.jobs;
    assert slot !in s.held;
    assert Release(s.kv, slot).Keys == s.kv.Keys - {slot};
  }

  lemma EnrollWf(env: Env, s: Sys, q: Pool, c: CacheState, kv: Kv, job: Job)
    requires s.pending != [] && s.freeSlots != [] && Wf(env, s, {Last(s.freeSlots)})
    requires |q.refs| == |s.pool.refs| && PoolOk(q, Own(s.jobs, s.held)[Last(s.freeSlots) := job.table.blocks])
    requires CacheOk(env.cfg.blockSize, c, s.jobs, s.held) && c.freeDonors == s.cache.freeDonors
    requires kv.Keys == s.kv.Keys && JobOk(env, Last(s.freeSlots), job)
    ensures Wf(env, Enroll(s.(pool := q, cache := c, kv := kv), job), {})
  {
    var slot := Last(s.freeSlots);
    assert slot in s.freeSlots && slot !in s.jobs;
    var r := Enroll(s.(pool := q, cache := c, kv := kv), job);
    SlotsOkAfterEnroll(env.cfg.maxBatch, s.freeSlots, s.active, s.jobs, job);
    OwnSetJob(s.jobs, s.held, slot, job);
    assert r.jobs.Keys == s.jobs.Keys + {slot};
    CacheOkSub(env.cfg.blockSize, c, s.jobs, s.held, c, r.jobs, r.held);
    JobsOkSet(env, s.jobs, slot, job);
  }

  /** Adopting a hit on top of freshly reserved blocks: the two lists never overlap, and the
      adopted blocks are referenced by the holder the entry names. */
  lemma AdoptKeepsPool(env: Env, s: Sys, slot: SeqId, q: Pool, t: Table, h: nat)
    requires Wf(env, s, {slot}) && h in s.cache.entries
    requires |q.refs| == |s.pool.refs| && PoolOk(q, Own(s.jobs, s.held)[slot := t.blocks])
    requires forall b :: b in t.blocks ==> b in s.pool.freeList
    ensures var e := s.cache.entries[h].entry;
      && PoolOk(IncrefAll(q, e.blocks), Own(s.jobs, s.held)[slot := t.blocks + e.blocks])
      && |IncrefAll(q, e.blocks).refs| == |q.refs| && IncrefAll(q, e.blocks).freeList == q.freeList
  {
    var e := s.cache.entries[h].entry;
    var own := Own(s.jobs, s.held);
    var own' := own[slot := t.blocks];
    assert EntryOk(env.cfg.blockSize, e, s.jobs, s.held);
    assert e.retained ==> e.sid !in s.jobs;
    assert slot !in s.jobs && slot !in s.held by { assert slot in s.freeSlots; }
    assert e.sid in own && e.blocks <= own[e.sid] && e.sid != slot;
    EntryBlocksDistinct(env, s, {slot}, h);
    forall b | b in e.blocks
      ensures b !in t.blocks
    {
      EntryBlocksReferenced(env, s, {slot}, h, b);
    }
    assert NoDup(own'[slot]);
    DisjointNoDup(t.blocks, e.blocks);
    ShareKeepsPool(q, own', e.sid, slot, e.blocks);
    assert own'[slot := t.blocks + e.blocks] == own[slot := t.blocks + e.blocks];
  }

  lemma DisjointNoDup(a: seq<BlockId>, b: seq<BlockId>)
    requires NoDup(a) && NoDup(b) && forall x :: x in b ==> x !in a
    ensures NoDup(a + b)
  {
    forall i, j | 0 <= i < j < |a + b|
      ensures (a + b)[i] != (a + b)[j]
    {
      if i < |a| <= j {
        assert (a + b)[i] in a && (a + b)[j] == b[j - |a|];
        assert b[j - |a|] in b;
      }
    }
  }

  /** Reserving a prompt's blocks for a slot that holds none. */
  lemma ReserveKeepsPool(env: Env, s: Sys, slot: SeqId, n: nat)
    requires Wf(env, s, {slot}) && EnsureCapacity(env.cfg.blockSize, s.pool, EMPTY_TABLE, n).2
    ensures var (q, t, _) := EnsureCapacity(env.cfg.blockSize, s.pool, EMPTY_TABLE, n);
      && |q.refs| == |s.pool.refs| && PoolOk(q, Own(s.jobs, s.held)[slot := t.blocks])
      && (forall b :: b in t.blocks ==> b in s.pool.freeList)
      && |q.freeList| == |s.pool.freeList| - BlocksFor(env.cfg.blockSize, n)
  {
    var own: Ownership := Own(s.jobs, s.held);
    assert slot in s.freeSlots && slot !in s.jobs;
    assert slot !in s.held;
    AddEmptyOwner(s.pool, own, slot);
    EnsureCapacityKeepsPool(env.cfg.blockSize, s.pool, own[slot := []], slot, EMPTY_TABLE, n);
    var (q, t, _) := EnsureCapacity(env.cfg.blockSize, s.pool, EMPTY_TABLE, n);
    var empty: Ownership := own[slot := []];
    assert empty[slot := t.blocks] == own[slot := t.blocks];
  }

  /** The entry a new job adopts, if any. */
  function HitFor(env: Env, c: CacheState, job: Job): (r: Option<nat>)
    ensures r.Some? ==> r.value in c.entries && c.entries[r.value].entry.sid != job.st.sid
  {
    var h := LongestMatch(env.be.hash, c, job.st.prompt, env.cfg.blockSize);
    if env.cfg.prefixCaching && !Finished(job) && h.Some? && c.entries[h.value].entry.sid != job.st.sid then h else None
  }

  lemma SharePrefixHit(env: Env, s: Sys, job: Job)
    requires HitFor(env, s.cache, job).Some?
    ensures var h := HitFor(env, s.cache, job).value;
      var e := s.cache.entries[h].entry;
      var (q, t) := AdoptSharedPrefix(s.pool, job.table, e.blocks, e.nTokens);
      SharePrefix(env, s, job) ==
        (s.(cache := Touch(s.cache, h), pool := q, kv := Copy(s.kv, e.sid, job.st.sid, e.nTokens)),
         job.(table := t, st := AdoptCachedPrefix(job.st, e.nTokens)))
  {
  }

  lemma SharePrefixMiss(env: Env, s: Sys, job: Job)
    requires HitFor(env, s.cache, job).None?
    ensures SharePrefix(env, s, job) == (s.(cache := SharePrefix(env, s, job).0.cache), job)
    ensures SharePrefix(env, s, job).0.cache == s.cache ||
      exists h :: h in s.cache.entries && SharePrefix(env, s, job).0.cache == Touch(s.cache, h)
  {
  }

  lemma ShareAndEnrollWf(env: Env, s: Sys, q: Pool, job: Job)
    requires s.pending != [] && s.freeSlots != [] && Wf(env, s, {Last(s.freeSlots)})
    requires |q.refs| == |s.pool.refs| && PoolOk(q, Own(s.jobs, s.held)[Last(s.freeSlots) := job.table.blocks])
    requires forall b :: b in job.table.blocks ==> b in s.pool.freeList
    requires JobOk(env, Last(s.freeSlots), job)
    ensures var (s2, j2) := SharePrefix(env, s.(pool := q), job); Wf(env, Enroll(s2, j2), {})
  {
    var slot := Last(s.freeSlots);
    var hit := HitFor(env, s.cache, job);
    if hit.Some? {
      var e := s.cache.entries[hit.value].entry;
      SharePrefixHit(env, s.(pool := q), job);
      TouchWf(env, s, {slot}, hit.value);
      AdoptKeepsPool(env, s, slot, q, job.table, hit.value);
      var (q2, t2) := AdoptSharedPrefix(q, job.table, e.blocks, e.nTokens);
      EnrollWf(env, s, q2, Touch(s.cache, hit.value), Copy(s.kv, e.sid, slot, e.nTokens),
               job.(table := t2, st := AdoptCachedPrefix(job.st, e.nTokens)));
    } else {
      SharePrefixMiss(env, s.(pool := q), job);
      var c := SharePrefix(env, s.(pool := q), job).0.cache;
      if c != s.cache {
        var h :| h in s.cache.entries && c == Touch(s.cache, h);
        TouchWf(env, s, {slot}, h);
      }
      EnrollWf(env, s, q, c, s.kv, job);
    }
  }

  lemma AdmitWf(env: Env, s: Sys)
    requires s.pending != [] && s.freeSlots != [] && Wf(env, s, {Last(s.freeSlots)}) && Admit(env, s).Some?
    ensures Wf(env, Admit(env, s).value, {})
  {
    var slot := Last(s.freeSlots);
    var job := FrontJob(env, s);
    MakeJobOk(env, s.pending[0], slot);
    if Finished(job) {
      assert slot !in s.held && slot !in s.jobs by { assert slot in s.freeSlots; }
      AddEmptyOwner(s.pool, Own(s.jobs, s.held), slot);
      EnrollWf(env, s, s.pool, s.cache, s.kv, job);
    } else {
      ReserveKeepsPool(env, s, slot, |job.st.prompt|);
      var (q, t, _) := EnsureCapacity(env.cfg.blockSize, s.pool, EMPTY_TABLE, |job.st.prompt|);
      ShareAndEnrollWf(env, s, q, job.(table := t));
    }
  }

  lemma MakeRoomWf(env: Env, s: Sys)
    requires Wf(env, s, {}) && s.pending != [] && s.freeSlots != []
    ensures var r := MakeRoom(env, s);
      && Wf(env, r, {Last(s.freeSlots)})
      && (|r.pool.freeList| >= Want(env, s) + Headroom(s) || !HasRetained(r.cache))
  {
    var slot, sampling := Last(s.freeSlots), s.pending[0].spec.sampling;
    BeginWf(env, s, sampling);
    var s0, n := s.(kv := Begin(s.kv, slot, sampling)), Want(env, s) + Headroom(s);
    ReclaimUntilWf(env, s0, {slot}, n);
    assert MakeRoom(env, s) == ReclaimUntil(s0, n);
  }

  lemma MakeRoomSound(env: Env, s: Sys)
    requires Sound(env, s, {}) && s.pending != [] && s.freeSlots != []
    ensures Sound(env, MakeRoom(env, s), {Last(s.freeSlots)})
  {
    assert Wf(env, s, {});
    MakeRoomWf(env, s);
  }

  lemma AdmitFrontWf(env: Env, s: Sys)
    requires Wf(env, s, {}) && s.pending != [] && s.freeSlots != []
    ensures Wf(env, AdmitFront(env, s).0, {})
  {
    MakeRoomWf(env, s);
    DecideWf(env, s, MakeRoom(env, s), AdmitFront(env, s).0);
  }

  lemma DecideWf(env: Env, s: Sys, s1: Sys, r: Sys)
    requires s.pending != [] && s.freeSlots != [] && s1 == MakeRoom(env, s) && r == AdmitFront(env, s).0
    requires Wf(env, s1, {Last(s.freeSlots)})
    ensures Wf(env, r, {})
  {
    if Admit(env, s1).Some? {
      AdmitWf(env, s1);
    } else {
      var released := s1.(kv := Release(s1.kv, Last(s.freeSlots)));
      ReleaseSlotWf(env, s1, Last(s.freeSlots));
      WfFrame(env, released, r, {});
    }
  }

  lemma {:induction false} AdmitLoopWf(env: Env, s: Sys)
    requires Wf(env, s, {})
    ensures Wf(env, AdmitLoop(env, s), {})
    decreases |s.pending|
  {
    if s.pending != [] && s.freeSlots != [] {
      AdmitFrontWf(env, s);
      if !AdmitFront(env, s).1.Deferred? {
        AdmitLoopWf(env, AdmitFront(env, s).0);
      }
    }
  }

  /* ---------------- a forward pass ---------------- */

  lemma WfAddressed(env: Env, s: Sys, extra: set<SeqId>)
    requires Wf(env, s, extra)
    ensures Addressed(s.active, s.jobs)
  {
    forall k | k in s.active
      ensures k in s.jobs && s.jobs[k].st.sid == k
    {
      assert JobOk(env, k, s.jobs[k]);
    }
  }

  lemma PublishWf(env: Env, s: Sys, sid: SeqId)
    requires Wf(env, s, {}) && sid in s.jobs
    ensures Wf(env, Publish(env, s, sid), {})
  {
    var j := s.jobs[sid];
    var nb := WholeBlocks(env, j);
    if env.cfg.prefixCaching && !Prefilling(j.st) && 0 < nb <= |j.table.blocks| {
      var e := Entry(sid, PrefixTokens(env, j), j.table.blocks[..nb], false);
      assert EntryOk(env.cfg.blockSize, e, s.jobs, s.held);
      InsertWf(env, s, {}, PrefixKey(env, j), e);
    }
  }

  /** A sampled token never takes a sequence past its token budget. */
  lemma AcceptBounded(piece: Token -> string, spec: Spec, g: Gen, next: NextToken, cancelled: bool)
    requires g.completion <= spec.maxTokens
    ensures Accept(piece, spec, g, next, cancelled).completion <= spec.maxTokens
    ensures !Accept(piece, spec, g, next, cancelled).finished ==> !g.finished
  {
  }

  lemma AcceptOneWf(env: Env, s: Sys, sid: SeqId, next: NextToken, cancelled: bool)
    requires Wf(env, s, {}) && sid in s.jobs
    ensures Wf(env, AcceptOne(env, s, sid, next, cancelled).0, {})
  {
    var j := s.jobs[sid];
    assert JobOk(env, sid, j);
    var g := Accept(env.be.piece, j.st.spec, j.st.gen, next, cancelled);
    AcceptBounded(env.be.piece, j.st.spec, j.st.gen, next, cancelled);
    if g.finished {
      ReplaceJob(env, s, {}, sid, SetGen(j, Finish(g)));
    } else {
      GrowAndPublishWf(env, s, sid, SetGen(j, g));
    }
  }

  lemma GrowAndPublishWf(env: Env, s: Sys, sid: SeqId, j: Job)
    requires Wf(env, s, {}) && sid in s.jobs && JobOk(env, sid, j) && j.table == s.jobs[sid].table
    ensures var (q, t, ok) := EnsureCapacity(env.cfg.blockSize, s.pool, j.table, Tokens(j));
      && (!ok ==> Wf(env, s.(jobs := s.jobs[sid := j]), {}))
      && (ok ==> Wf(env, Publish(env, s.(pool := q, jobs := s.jobs[sid := j.(table := t)]), sid), {}))
  {
    ReplaceJob(env, s, {}, sid, j);
    var s1 := s.(jobs := s.jobs[sid := j]);
    GrowTableWf(env, s1, sid, Tokens(j));
    var (q, t, ok) := EnsureCapacity(env.cfg.blockSize, s.pool, j.table, Tokens(j));
    if ok {
      var s2 := s.(pool := q, jobs := s.jobs[sid := j.(table := t)]);
      MapOverwrite(s.jobs, sid, j, j.(table := t));
      PublishWf(env, s2, sid);
    }
  }

  lemma {:induction false} AcceptLoopWf(env: Env, s: Sys, sampling: seq<SeqId>, steps: seq<GenStep>, cancelled: set<nat>)
    requires Wf(env, s, {}) && |steps| == |sampling| && forall i :: 0 <= i < |sampling| ==> sampling[i] in s.jobs
    ensures Wf(env, AcceptLoop(env, s, sampling, steps, cancelled).0, {})
    decreases |sampling|
  {
    if sampling != [] {
      var gone := s.jobs[sampling[0]].req.id in cancelled;
      AcceptOneWf(env, s, sampling[0], steps[0].next, gone);
      AcceptLoopWf(env, AcceptOne(env, s, sampling[0], steps[0].next, gone).0, sampling[1..], steps[1..], cancelled);
    }
  }

  lemma BuildWf(env: Env, s: Sys)
    requires Wf(env, s, {})
    ensures Wf(env, s.(jobs := Build(env, s).1), {})
    ensures Addressed(s.active, s.jobs) && ItemsFit(s.active, s.jobs, Build(env, s).1, Build(env, s).0)
  {
    WfAddressed(env, s, {});
    BatchFits(env, s);
    var (items, jobs) := Build(env, s);
    forall k | k in jobs
      ensures JobOk(env, k, jobs[k]) && jobs[k].table == s.jobs[k].table
    {
      assert JobOk(env, k, s.jobs[k]);
      if !NoItemFor(items, k) {
        var i :| 0 <= i < |items| && items[i].sid == k;
        assert ItemFits(s.jobs, jobs, items[i]);
      }
    }
    ReplaceJobs(env, s, {}, jobs);
  }

  /** The same jobs, apart from how much of their prompts they have submitted. */
  ghost predicate OnlyPrefills(jobs: map<SeqId, Job>, jobs': map<SeqId, Job>) {
    && jobs'.Keys == jobs.Keys
    && forall k :: k in jobs' ==>
         && jobs'[k].req == jobs[k].req && jobs'[k].table == jobs[k].table
         && jobs'[k].st.prompt == jobs[k].st.prompt && jobs'[k].st.gen == jobs[k].st.gen
  }

  lemma BuildOnlyPrefills(env: Env, s: Sys)
    requires Wf(env, s, {})
    ensures OnlyPrefills(s.jobs, Build(env, s).1)
  {
    BuildWf(env, s);
    var (items, jobs) := Build(env, s);
    forall k | k in jobs
      ensures jobs[k].req == s.jobs[k].req && jobs[k].table == s.jobs[k].table
      ensures jobs[k].st.prompt == s.jobs[k].st.prompt && jobs[k].st.gen == s.jobs[k].st.gen
    {
      if !NoItemFor(items, k) {
        var i :| 0 <= i < |items| && items[i].sid == k;
        assert ItemFits(s.jobs, jobs, items[i]);
      }
    }
  }

  lemma FailAllWf(env: Env, s: Sys)
    requires Wf(env, s, {})
    ensures Wf(env, s.(jobs := FailAll(s.jobs)), {})
  {
    forall k | k in FailAll(s.jobs)
      ensures JobOk(env, k, FailAll(s.jobs)[k])
    {
      assert JobOk(env, k, s.jobs[k]);
    }
    ReplaceJobs(env, s, {}, FailAll(s.jobs));
  }

  lemma CrashWf(env: Env, s: Sys, items: seq<BatchItem>, garbage: map<SeqId, seq<Token>>)
    requires Wf(env, s, {})
    ensures Wf(env, Crash(s, items, garbage), {})
  {
    var failed := s.(jobs := FailAll(s.jobs));
    FailAllWf(env, s);
    CrashFrame(s, items, garbage);
    WfFrame(env, failed, Crash(s, items, garbage), {});
  }

  lemma CrashFrame(s: Sys, items: seq<BatchItem>, garbage: map<SeqId, seq<Token>>)
    ensures var r := Crash(s, items, garbage);
      && r == s.(jobs := FailAll(s.jobs), kv := r.kv) && r.kv.Keys == s.kv.Keys
  {
  }

  lemma ForwardWf(env: Env, s: Sys, items: seq<BatchItem>, cancelled: set<nat>)
    requires Wf(env, s, {})
    ensures Wf(env, Forward(env, s, items, cancelled).0, {})
  {
    DecodeSteps(env.be, s.kv, items);
    var (kv, steps) := Decode(env.be, s.kv, items);
    var sampling := SampledSids(items);
    WfFrame(env, s, s.(kv := kv), {});
    if forall i :: 0 <= i < |sampling| ==> sampling[i] in s.jobs {
      AcceptLoopWf(env, s.(kv := kv), sampling, steps, cancelled);
    }
  }

  lemma AdvanceWf(env: Env, s: Sys, o: Oracle)
    requires Wf(env, s, {})
    ensures Wf(env, Advance(env, s, o).0, {})
  {
    BuildWf(env, s);
    var (items, jobs) := Build(env, s);
    var s1 := s.(jobs := jobs);
    if items != [] {
      if o.fault.Some? {
        CrashWf(env, s1, items, o.fault.value);
      } else {
        ForwardWf(env, s1, items, o.cancelled);
      }
    }
  }

  /* ---------------- cache exhaustion ---------------- */

  lemma {:induction false} ReclaimForWf(env: Env, s: Sys, sid: SeqId, needed: nat)
    requires Wf(env, s, {}) && sid in s.jobs
    ensures Wf(env, ReclaimFor(env, s, sid, needed), {})
    decreases |s.cache.entries|
  {
    GrowTableWf(env, s, sid, needed);
    var (grown, ok) := GrowTable(env, s, sid, needed);
    if !ok && HasRetained(s.cache) {
      ReclaimDonorWf(env, grown, {});
      ReclaimForWf(env, ReclaimDonor(grown), sid, needed);
    }
  }

  lemma {:induction false} PreemptForWf(env: Env, s: Sys, sid: SeqId, needed: nat)
    requires Wf(env, s, {}) && sid in s.jobs
    ensures Wf(env, PreemptFor(env, s, sid, needed), {})
    decreases |s.active|
  {
    GrowTableWf(env, s, sid, needed);
    var (grown, ok) := GrowTable(env, s, sid, needed);
    if !ok {
      var v := Victim(grown.active, grown.jobs, sid, |grown.active|);
      if v.Some? {
        PreemptAtWf(env, grown, v.value);
        PreemptForWf(env, PreemptAt(grown, v.value), sid, needed);
        assert PreemptFor(env, s, sid, needed) == PreemptFor(env, PreemptAt(grown, v.value), sid, needed);
      }
    }
  }

  lemma ResolveOneWf(env: Env, s: Sys, sid: SeqId)
    requires Wf(env, s, {})
    ensures Wf(env, ResolveOne(env, s, sid), {})
  {
    if sid in s.active {
      var j := s.jobs[sid];
      var need := BlocksFor(env.cfg.blockSize, Tokens(j));
      if need > |s.pool.refs| {
        assert JobOk(env, sid, j);
        ReplaceJob(env, s, {}, sid, SetGen(j, Finish(Fail(j.st.gen, PoolTooSmall(need, |s.pool.refs|), ContextOverflow))));
      } else {
        ReclaimForWf(env, s, sid, Tokens(j));
        PreemptForWf(env, ReclaimFor(env, s, sid, Tokens(j)), sid, Tokens(j));
      }
    }
  }

  lemma {:induction false} ResolveAllWf(env: Env, s: Sys, starved: seq<SeqId>)
    requires Wf(env, s, {})
    ensures Wf(env, ResolveAll(env, s, starved), {})
    decreases |starved|
  {
    if starved != [] {
      ResolveOneWf(env, s, starved[0]);
      ResolveAllWf(env, ResolveOne(env, s, starved[0]), starved[1..]);
    }
  }

  /** A whole iteration, whatever the outside does. */
  lemma WorkWf(env: Env, s: Sys, o: Oracle)
    requires Wf(env, s, {})
    ensures Wf(env, Work(env, s, o), {})
  {
    AdmitLoopWf(env, s);
    var s1 := AdmitLoop(env, s);
    if s1.active != [] {
      AdvanceWf(env, s1, o);
      var (s2, starved) := Advance(env, s1, o);
      SweepWf(env, s2, 0, o.copyFails);
      var s3 := Sweep(env, s2, 0, o.copyFails);
      ResolveAllWf(env, s3, starved);
      SweepWf(env, ResolveAll(env, s3, starved), 0, o.copyFails);
    }
  }

  lemma InitWf(env: Env)
    ensures Wf(env, InitSys(env), {})
  {
    var s := InitSys(env);
    NewPoolOk(env.cfg.totalBlocks);
    assert Own(s.jobs, s.held) == map[];
    forall k: SeqId | k < env.cfg.maxBatch
      ensures k in s.freeSlots
    {
      assert s.freeSlots[env.cfg.maxBatch - 1 - k] == k;
    }
  }

  lemma IterateWf(env: Env, s: Sys, o: Oracle)
    requires Wf(env, s, {})
    ensures Wf(env, Iterate(env, s, o), {})
  {
    WorkWf(env, s, o);
    WfFrame(env, Work(env, s, o), Iterate(env, s, o), {});
  }

  lemma QueueStepFrame(env: Env, s: Sys, ev: Event)
    ensures var r := QueueStep(env, s, ev);
      && r.active == s.active && r.jobs == s.jobs && r.freeSlots == s.freeSlots
      && r.pool == s.pool && r.cache == s.cache && r.held == s.held && r.kv == s.kv && r.delivered == s.delivered
  {
  }

  lemma QueueStepWf(env: Env, s: Sys, ev: Event)
    requires Wf(env, s, {})
    ensures Wf(env, QueueStep(env, s, ev), {})
  {
    var r := QueueStep(env, s, ev);
    QueueStepFrame(env, s, ev);
    WfFrame(env, s, r, {});
  }

  lemma NextWf(env: Env, s: Sys, ev: Event)
    requires Wf(env, s, {})
    ensures Wf(env, Next(env, s, ev), {})
  {
    if ev.Step? {
      IterateWf(env, s, ev.oracle);
    } else {
      QueueStepWf(env, s, ev);
    }
  }
}
