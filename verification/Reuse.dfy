/** What the prefix cache is for: a prompt that was prefilled once is found again, by a request
    that runs beside the first or arrives after it has finished
    (src/core/scheduler.cpp:220-277, 457-468, 549-566). How much a newcomer reuses is said
    exactly, and so is how long a running sequence stays findable. */
module Reuse {
  import opened Types
  import opened Sequence
  import opened BlockPool
  import opened Cache
  import opened Scheduling
  import opened Invariants
  import opened Independence
  import opened Runs
  import opened Moments

  /** The prefix stored for a prompt is the first thing its lookup tries. */
  lemma StoredIsFound(env: Env, c: CacheState, j: Job, e: Entry)
    requires WholeBlocks(env, j) > 0 && e.nTokens == PrefixTokens(env, j)
    ensures LongestMatch(env.be.hash, Insert(c, PrefixKey(env, j), e), j.st.prompt, env.cfg.blockSize) == Some(PrefixKey(env, j))
  {
  }

  /** The newcomer starts behind the stored prefix, one token kept back, with the donor's
      blocks in its table and the donor's KV in its own. */
  ghost predicate Reuses(env: Env, s: Sys, newcomer: Job, e: Entry) {
    var (r, j) := SharePrefix(env, s, newcomer);
    && newcomer.st.prompt != [] && j.st.prefilled == j.st.cached == Min(e.nTokens, |newcomer.st.prompt| - 1)
    && j.table.blocks == newcomer.table.blocks + e.blocks
    && (newcomer.st.sid in s.kv && e.sid in s.kv && e.nTokens <= |s.kv[e.sid].cells| ==>
          r.kv[newcomer.st.sid].cells == s.kv[e.sid].cells[..e.nTokens])
  }

  lemma FoundIsReused(env: Env, s: Sys, j: Job, newcomer: Job, e: Entry)
    requires env.cfg.prefixCaching && WholeBlocks(env, j) > 0 && e.nTokens == PrefixTokens(env, j) > 0
    requires newcomer.st.prompt == j.st.prompt && !Finished(newcomer) && newcomer.st.sid != e.sid
    requires PrefixKey(env, j) in s.cache.entries && s.cache.entries[PrefixKey(env, j)].entry == e
    requires LongestMatch(env.be.hash, s.cache, j.st.prompt, env.cfg.blockSize) == Some(PrefixKey(env, j))
    ensures Reuses(env, s, newcomer, e)
  {
    SharePrefixHit(env, s, newcomer);
  }

  lemma WholePrefix(env: Env, j: Job)
    requires WholeBlocks(env, j) > 0
    ensures PrefixTokens(env, j) > 0
  {
    assert WholeBlocks(env, j) * env.cfg.blockSize >= env.cfg.blockSize;
  }

  /** BESIDE IT. Directly after a running sequence has published its prompt, a request with the
      same prompt inherits all of its whole blocks. How long that lasts is
      `RunningPrefixStaysFindable`. */
  lemma PublishedIsReused(env: Env, s: Sys, sid: SeqId, newcomer: Job)
    requires env.cfg.prefixCaching && sid in s.jobs && !Prefilling(s.jobs[sid].st)
    requires 0 < WholeBlocks(env, s.jobs[sid]) <= |s.jobs[sid].table.blocks|
    requires newcomer.st.prompt == s.jobs[sid].st.prompt && !Finished(newcomer) && newcomer.st.sid != sid
    ensures var j := s.jobs[sid];
      Reuses(env, Publish(env, s, sid), newcomer, Entry(sid, PrefixTokens(env, j), j.table.blocks[..WholeBlocks(env, j)], false))
  {
    var j := s.jobs[sid];
    var e := Entry(sid, PrefixTokens(env, j), j.table.blocks[..WholeBlocks(env, j)], false);
    WholePrefix(env, j);
    StoredIsFound(env, s.cache, j, e);
    FoundIsReused(env, Publish(env, s, sid), j, newcomer, e);
  }

  /** AFTER IT. Directly after a sequence has retired into a donor slot, a request with the same
      prompt inherits all of its whole blocks, and their KV as it was at retirement. */
  lemma RetiredIsReused(env: Env, s: Sys, i: nat, newcomer: Job, copyFails: set<nat>)
    requires Wf(env, s, {}) && i < |s.active|
    requires var j := s.jobs[s.active[i]];
      && Retainable(env, j) && j.req.id !in copyFails && newcomer.st.prompt == j.st.prompt && !Finished(newcomer)
      && MakeDonorRoom(ForgetJob(s, s.active[i])).cache.freeDonors != []
    requires newcomer.st.sid < env.cfg.maxBatch
    ensures var j, slot := s.jobs[s.active[i]], Last(MakeDonorRoom(ForgetJob(s, s.active[i])).cache.freeDonors);
      Reuses(env, RetireAt(env, s, i, copyFails), newcomer, Entry(slot, PrefixTokens(env, j), j.table.blocks[..WholeBlocks(env, j)], true))
  {
    var sid := s.active[i];
    var j := s.jobs[sid];
    var s1 := MakeDonorRoom(ForgetJob(s, sid));
    var slot := Last(s1.cache.freeDonors);
    FreeSlotIsDonor(env, s, sid);
    var e := Entry(slot, PrefixTokens(env, j), j.table.blocks[..WholeBlocks(env, j)], true);
    WholePrefix(env, j);
    RetiredCache(env, s, i, copyFails);
    StoredIsFound(env, s1.cache.(freeDonors := DropLast(s1.cache.freeDonors)), j, e);
    FoundIsReused(env, RetireAt(env, s, i, copyFails), j, newcomer, e);
  }

  lemma FreeSlotIsDonor(env: Env, s: Sys, sid: SeqId)
    requires Wf(env, s, {}) && sid in s.jobs && MakeDonorRoom(ForgetJob(s, sid)).cache.freeDonors != []
    ensures Last(MakeDonorRoom(ForgetJob(s, sid)).cache.freeDonors) >= env.cfg.maxBatch
  {
    DonorRoomSound(env, s, sid);
    LastIsDonor(env, MakeDonorRoom(ForgetJob(s, sid)));
  }

  lemma LastIsDonor(env: Env, s: Sys)
    requires Sound(env, s, {}) && s.cache.freeDonors != []
    ensures Last(s.cache.freeDonors) >= env.cfg.maxBatch
  {
    assert Wf(env, s, {});
    assert Last(s.cache.freeDonors) in s.cache.freeDonors && IsDonor(env.cfg, Last(s.cache.freeDonors));
  }

  lemma RetiredCache(env: Env, s: Sys, i: nat, copyFails: set<nat>)
    requires i < |s.active| && s.active[i] in s.jobs
    requires var j := s.jobs[s.active[i]];
      Retainable(env, j) && j.req.id !in copyFails && MakeDonorRoom(ForgetJob(s, s.active[i])).cache.freeDonors != []
    ensures RetireAt(env, s, i, copyFails).cache == StoreDonor(env, MakeDonorRoom(ForgetJob(s, s.active[i])), s.jobs[s.active[i]]).cache
  {
  }

  /* ---------------- how much a newcomer reuses ---------------- */

  /** The first `nb` whole blocks of the prompt are stored under their hash, as that many tokens. */
  ghost predicate Cached(env: Env, c: CacheState, prompt: seq<Token>, nb: nat) {
    var n := nb * env.cfg.blockSize;
    0 < nb && n <= |prompt| && env.be.hash(prompt[..n]) in c.entries && c.entries[env.be.hash(prompt[..n])].entry.nTokens == n
  }

  lemma {:induction false} MatchIsLargest(env: Env, c: CacheState, prompt: seq<Token>, nb: nat)
    requires nb * env.cfg.blockSize <= |prompt|
    ensures var r := MatchFrom(env.be.hash, c, prompt, env.cfg.blockSize, nb);
      && (r.None? ==> forall m: nat :: m <= nb ==> !Cached(env, c, prompt, m))
      && (r.Some? ==> exists k: nat :: Cached(env, c, prompt, k) && r.value == env.be.hash(prompt[..k * env.cfg.blockSize])
                        && forall m: nat :: k < m <= nb ==> !Cached(env, c, prompt, m))
    decreases nb
  {
    if nb > 0 {
      if Cached(env, c, prompt, nb) {
      } else {
        OneBlockLess(nb, env.cfg.blockSize);
        MatchIsLargest(env, c, prompt, nb - 1);
      }
    }
  }

  /** The job starts behind the first `k` blocks of its prompt, and no more were cached. */
  ghost predicate StartsAt(env: Env, c: CacheState, j: Job, k: nat) {
    && Cached(env, c, j.st.prompt, k) && j.table.sharedTokens == k * env.cfg.blockSize
    && j.st.prefilled == j.st.cached == Min(k * env.cfg.blockSize, |j.st.prompt| - 1)
    && forall m: nat :: k < m && m * env.cfg.blockSize <= |j.st.prompt| ==> !Cached(env, c, j.st.prompt, m)
  }

  /** It starts behind as many blocks as the cache has of its prompt. */
  ghost predicate StartsBehind(env: Env, c: CacheState, j: Job) {
    || (exists k: nat :: StartsAt(env, c, j, k))
    || (&& j.table.sharedTokens == 0 == j.st.prefilled
        && forall m: nat :: m * env.cfg.blockSize <= |j.st.prompt| ==> !Cached(env, c, j.st.prompt, m))
  }

  lemma Quotients(m: nat, n: nat, d: nat)
    requires d > 0
    ensures m * d <= n <==> m <= n / d
  {
    var q, rest := n / d, n % d;
    assert n == q * d + rest;
    if m <= q {
      ScaleOrder(m, q, d);
    } else {
      ScaleOrder(q + 1, m, d);
      assert (q + 1) * d == q * d + d;
    }
  }

  lemma LookupIsLargest(env: Env, c: CacheState, prompt: seq<Token>)
    ensures var r := LongestMatch(env.be.hash, c, prompt, env.cfg.blockSize);
      && (r.None? ==> forall m: nat :: m * env.cfg.blockSize <= |prompt| ==> !Cached(env, c, prompt, m))
      && (r.Some? ==> exists k: nat :: Cached(env, c, prompt, k) && r.value == env.be.hash(prompt[..k * env.cfg.blockSize])
                        && forall m: nat :: k < m && m * env.cfg.blockSize <= |prompt| ==> !Cached(env, c, prompt, m))
  {
    MatchIsLargest(env, c, prompt, |prompt| / env.cfg.blockSize);
    forall m: nat
      ensures m * env.cfg.blockSize <= |prompt| <==> m <= |prompt| / env.cfg.blockSize
    {
      Quotients(m, |prompt|, env.cfg.blockSize);
    }
  }

  lemma SharedStart(env: Env, s: Sys, job: Job)
    requires env.cfg.prefixCaching && !Finished(job) && Unnamed(s.cache, job.st.sid)
    requires job.table.sharedTokens == 0 && job.st.prefilled == 0
    ensures StartsBehind(env, s.cache, SharePrefix(env, s, job).1) && SharePrefix(env, s, job).1.st.prompt == job.st.prompt
  {
    LookupIsLargest(env, s.cache, job.st.prompt);
    var hit := HitFor(env, s.cache, job);
    if hit.Some? {
      SharePrefixHit(env, s, job);
      var k: nat :| Cached(env, s.cache, job.st.prompt, k) && hit.value == env.be.hash(job.st.prompt[..k * env.cfg.blockSize])
        && forall m: nat :: k < m && m * env.cfg.blockSize <= |job.st.prompt| ==> !Cached(env, s.cache, job.st.prompt, m);
      PositiveProduct(k, env.cfg.blockSize);
      assert StartsAt(env, s.cache, SharePrefix(env, s, job).1, k);
    } else {
      SharePrefixMiss(env, s, job);
    }
  }

  /** REUSE IS EXACT. Whenever, in any run with prefix caching, an admission starts a sequence,
      that sequence reuses the largest number of whole blocks of its prompt that the cache then
      holds under their hash, one token kept back, and none if there are none. */
  lemma ReuseIsExact(env: Env, s: Sys, p: Sys)
    requires Reachable(env, s) && p in AdmitPoints(env, s) && env.cfg.prefixCaching
    ensures p.pending != [] && p.freeSlots != []
    ensures var r, slot := MakeRoom(env, p), Last(p.freeSlots);
      Admit(env, r).Some? && !Finished(FrontJob(env, p)) ==>
        slot in Admit(env, r).value.jobs && Admit(env, r).value.jobs[slot].st.prompt == PromptOf(env, p.pending[0])
        && StartsBehind(env, r.cache, Admit(env, r).value.jobs[slot])
  {
    ReachableIsWellFormed(env, s);
    AdmitPointsSound(env, s, p);
    assert Wf(env, p, {});
    MakeRoomWf(env, p);
    var r := MakeRoom(env, p);
    if Admit(env, r).Some? && !Finished(FrontJob(env, p)) {
      AdmittedStart(env, r);
    }
  }

  lemma AdmittedStart(env: Env, s: Sys)
    requires s.pending != [] && s.freeSlots != [] && Sound(env, s, {Last(s.freeSlots)})
    requires env.cfg.prefixCaching && Admit(env, s).Some? && !Finished(FrontJob(env, s))
    ensures var slot, r := Last(s.freeSlots), Admit(env, s).value;
      slot in r.jobs && r.jobs[slot].st.prompt == PromptOf(env, s.pending[0]) && StartsBehind(env, s.cache, r.jobs[slot])
  {
    var slot := Last(s.freeSlots);
    assert slot in s.freeSlots && Wf(env, s, {slot});
    SlotFreeOfEntries(env, s, {slot}, slot);
    var (q, t) := Reserved(env, s);
    SharedStart(env, s.(pool := q), FrontJob(env, s).(table := t));
  }
}
