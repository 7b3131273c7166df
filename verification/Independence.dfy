/** Schedule independence: whatever the interleaving, chunk size, prefix hits, deferrals,
    preemptions and cancellations of others, a request that runs to its own end is answered
    exactly as `generate_one` would answer it. The argument rests on the KV cache: every live
    sequence holds the KV of its own history, and every prefix-cache entry names a sequence
    whose KV is the prefix that was hashed. */
module Independence {
  import opened Types
  import opened Sequence
  import opened BlockPool
  import opened Cache
  import opened Engine
  import opened Generator
  import opened Scheduling
  import opened Batch
  import opened Invariants
  import opened Books

  /* ---------------- what is in sync ---------------- */

  /** The request ran to its own end, as opposed to being cancelled, rejected or failed. */
  predicate OwnEnd(reason: FinishReason) {
    reason == Eos || reason == MaxTokens || reason == StopString
  }

  /** How much of its prompt a prefilling sequence holds: what it has submitted or, after a hit
      on the whole prompt, the one token more that the hit brought. */
  function HeldTokens(j: Job): nat {
    if j.st.prefilled < j.table.sharedTokens then j.table.sharedTokens else j.st.prefilled
  }

  /** A decoding job holds its whole history but the pending token, from which generation
      continues to the reference outcome. */
  ghost predicate OnTrack(env: Env, j: Job, cells: seq<Token>) {
    && j.st.prompt <= cells && |cells| == |j.st.prompt| + j.st.gen.completion - 1
    && Final(env.be, j.st.spec, j.st.gen, cells + [j.st.gen.pending]) == Reference(env.be, j.st.spec)
  }

  /** An unfinished job and its KV: while prefilling, exactly `HeldTokens` of its prompt;
      afterwards it is on track. Of a job without a prompt only the amount is known. */
  ghost predicate Running(env: Env, j: Job, cells: seq<Token>) {
    if j.st.prompt == [] then |cells| == (if j.st.gen.completion == 0 then 0 else j.st.gen.completion - 1)
    else if Prefilling(j.st) then j.st.gen == NEW_GEN && |cells| == HeldTokens(j) && cells <= j.st.prompt
    else OnTrack(env, j, cells)
  }

  ghost predicate Ended(env: Env, spec: Spec, g: Gen) {
    && g.reason != Unset && (g.reason == Error ==> env.mayFail)
    && (OwnEnd(g.reason) && env.be.tokenize(spec.prompt) != [] ==> Finish(g) == Reference(env.be, spec))
  }

  ghost predicate JobSync(env: Env, j: Job, c: SeqKv) {
    && c.sampling == j.st.spec.sampling
    && (if Finished(j) then
          && Ended(env, j.st.spec, j.st.gen)
          && (if Prefilling(j.st) then j.table.blocks == [] else j.st.prompt <= c.cells)
        else Running(env, j, c.cells))
  }

  /** The prefix is a prefix of a prompt the server has accepted, stored under its hash. */
  ghost predicate KnownPrefix(env: Env, known: seq<Request>, h: nat, prefix: seq<Token>) {
    h == env.be.hash(prefix) && exists r :: r in known && prefix <= PromptOf(env, r)
  }

  ghost predicate EntrySync(env: Env, known: seq<Request>, h: nat, e: Entry, kv: Kv) {
    && e.sid in kv && e.nTokens <= |kv[e.sid].cells|
    && KnownPrefix(env, known, h, kv[e.sid].cells[..e.nTokens])
  }

  ghost predicate JobsSync(env: Env, jobs: map<SeqId, Job>, kv: Kv) {
    forall k :: k in jobs ==> k in kv && JobSync(env, jobs[k], kv[k])
  }

  ghost predicate CacheSync(env: Env, known: seq<Request>, c: CacheState, kv: Kv) {
    forall h :: h in c.entries ==> EntrySync(env, known, h, c.entries[h].entry, kv)
  }

  ghost predicate DeliverySync(env: Env, d: Delivery) {
    && d.result.reason != Unset && (d.result.reason == Error ==> env.mayFail)
    && (OwnEnd(d.result.reason) && PromptOf(env, d.req) != [] ==> d.result == ReferenceResult(env.be, d.req.spec))
  }

  ghost predicate Sync(env: Env, s: Sys) {
    && JobsSync(env, s.jobs, s.kv)
    && CacheSync(env, s.accepted, s.cache, s.kv)
    && forall d :: d in s.delivered ==> DeliverySync(env, d)
  }

  /** The first `nb` whole blocks of the two prompts are equal or hash differently. */
  ghost predicate Separated(env: Env, r: Request, q: Request, nb: nat) {
    var n := nb * env.cfg.blockSize;
    n <= |PromptOf(env, r)| && n <= |PromptOf(env, q)| ==>
      env.be.hash(PromptOf(env, r)[..n]) == env.be.hash(PromptOf(env, q)[..n]) ==> PromptOf(env, r)[..n] == PromptOf(env, q)[..n]
  }

  /** The hash separates whole-block prefixes of equal length of the prompts in play. */
  ghost predicate CollisionFree(env: Env, known: seq<Request>) {
    forall r, q, nb: nat {:trigger Separated(env, r, q, nb)} :: r in known && q in known ==> Separated(env, r, q, nb)
  }

  ghost predicate Balanced(s: Sys) {
    multiset(s.accepted) == Ledger(s)
  }

  /** Everything at once. The quantifier keeps the parts folded up until `Wf(env, s, {})` is
      mentioned, which the loop-level lemmas need not do. */
  ghost predicate Healthy(env: Env, s: Sys) {
    forall extra {:trigger Wf(env, s, extra)} :: extra == {} ==> Wf(env, s, extra) && Balanced(s) && Sync(env, s)
  }

  lemma AcceptedKnown(env: Env, s: Sys, extra: set<SeqId>)
    requires Wf(env, s, extra) && Balanced(s)
    ensures forall k :: k in s.jobs ==> s.jobs[k].req in s.accepted
    ensures forall r :: r in s.pending ==> r in s.accepted
  {
    forall k | k in s.jobs
      ensures s.jobs[k].req in s.accepted
    {
      var i :| 0 <= i < |s.active| && s.active[i] == k;
      assert RequestList(s.active, s.jobs)[i] == s.jobs[k].req;
      assert s.jobs[k].req in ActiveReqs(s.active, s.jobs);
      assert s.jobs[k].req in multiset(s.accepted);
    }
    forall r | r in s.pending
      ensures r in s.accepted
    {
      assert r in multiset(s.pending);
      assert r in multiset(s.accepted);
    }
  }

  /* ---------------- one sequence through one pass ---------------- */

  /** Between the pass and the accept: the KV holds the whole history and the step was
      sampled from it. */
  ghost predicate Awaiting(env: Env, j: Job, c: SeqKv, next: NextToken) {
    && !Finished(j) && !Prefilling(j.st) && c.sampling == j.st.spec.sampling
    && j.st.prompt <= c.cells && |c.cells| == |j.st.prompt| + j.st.gen.completion
    && next == env.be.next(c.sampling, c.cells)
    && Final(env.be, j.st.spec, j.st.gen, c.cells) == Reference(env.be, j.st.spec)
  }

  /** The same for a job of the continuous loop, which may have no prompt. */
  ghost predicate Awaits(env: Env, j: Job, c: SeqKv, next: NextToken) {
    && !Finished(j) && !Prefilling(j.st) && c.sampling == j.st.spec.sampling
    && (if j.st.prompt == [] then |c.cells| == j.st.gen.completion else Awaiting(env, j, c, next))
  }

  lemma EmptyItemLands(env: Env, j: Job, c: SeqKv, item: BatchItem)
    requires JobSync(env, j, c) && !Finished(j) && j.st.prompt == [] && item == DecodeItem(j.st)
    ensures var cells := Write(c.cells, item.pos0, item.tokens); c.cells <= cells && |cells| == j.st.gen.completion
  {
    if j.st.gen.completion > 0 {
      WriteBehind(c.cells, item.tokens);
    }
  }

  /** Where a fitting item writes: right behind what the sequence holds or, after a hit on
      the whole prompt, over the same tokens. */
  lemma ItemLands(env: Env, j: Job, c: SeqKv, item: BatchItem)
    requires JobSync(env, j, c) && !Finished(j) && j.st.prompt != []
    requires if Prefilling(j.st) then item == TakePrefillChunk(j.st, |item.tokens|).0 else item == DecodeItem(j.st)
    ensures 0 <= item.pos0 <= |c.cells|
    ensures Prefilling(j.st) ==>
      var upto := j.st.prefilled + |item.tokens|;
      Write(c.cells, item.pos0, item.tokens) == j.st.prompt[..if upto < |c.cells| then |c.cells| else upto]
    ensures !Prefilling(j.st) ==> Write(c.cells, item.pos0, item.tokens) == c.cells + [j.st.gen.pending]
  {
    if Prefilling(j.st) {
      WriteWithin(j.st.prompt, c.cells, j.st.prefilled, j.st.prefilled + |item.tokens|);
    } else {
      WriteBehind(c.cells, item.tokens);
    }
  }

  /** Writing a part of the prompt over or behind what is there of it. */
  lemma WriteWithin(prompt: seq<Token>, cells: seq<Token>, from: nat, upto: nat)
    requires cells <= prompt && from <= |cells| && from <= upto <= |prompt|
    ensures Write(cells, from, prompt[from..upto]) == prompt[..if upto < |cells| then |cells| else upto]
  {
    assert cells == prompt[..|cells|];
  }

  lemma DecodedSync(env: Env, j: Job, c: SeqKv, item: BatchItem, c': SeqKv, next: NextToken)
    requires JobSync(env, j, c) && !Finished(j) && !Prefilling(j.st) && j.st.prompt != []
    requires item == DecodeItem(j.st) && c' == c.(cells := Write(c.cells, item.pos0, item.tokens))
    requires next == env.be.next(c.sampling, c'.cells[..item.pos0 + |item.tokens|])
    ensures Awaiting(env, j, c', next)
  {
    ItemLands(env, j, c, item);
    assert c'.cells[..|c'.cells|] == c'.cells;
  }

  lemma ChunkSync(env: Env, j: Job, c: SeqKv, item: BatchItem, st: SeqState, c': SeqKv)
    requires JobSync(env, j, c) && !Finished(j) && Prefilling(j.st) && 0 < |item.tokens|
    requires TakePrefillChunk(j.st, |item.tokens|) == (item, st) && |item.tokens| <= PrefillRemaining(j.st)
    requires c' == c.(cells := Write(c.cells, item.pos0, item.tokens))
    ensures !item.sample ==> JobSync(env, j.(st := st), c')
    ensures item.sample && j.st.prompt == PromptOf(env, j.req) && j.st.spec == j.req.spec ==>
      && item.pos0 + |item.tokens| == |c'.cells|
      && forall next :: next == env.be.next(c.sampling, c'.cells) ==> Awaiting(env, j.(st := st), c', next)
  {
    ItemLands(env, j, c, item);
    assert j.st.prompt[..|j.st.prompt|] == j.st.prompt;
  }

  /** A cancellation flag changes the outcome only by ending the sequence as cancelled. */
  lemma AcceptShape(piece: Token -> string, spec: Spec, g: Gen, next: NextToken, cancelled: bool)
    requires !g.finished
    ensures var r := Accept(piece, spec, g, next, cancelled);
      && (r.finished ==> OwnEnd(r.reason) || (r.reason == Cancelled && cancelled))
      && (!r.finished ==> r.completion == g.completion + 1)
      && (!r.finished || r.reason != Cancelled ==> r == Accept(piece, spec, g, next, false))
  {
  }

  lemma FinishShape(g: Gen)
    ensures Finish(g).reason == g.reason && Finish(Finish(g)) == Finish(g)
  {
  }

  /** The heart of the matter: accepting the sampled token moves the job one step along the
      reference run, or ends it exactly where the reference ends. */
  lemma AcceptSync(env: Env, j: Job, c: SeqKv, next: NextToken, cancelled: bool)
    requires Awaiting(env, j, c, next)
    ensures var g := Accept(env.be.piece, j.st.spec, j.st.gen, next, cancelled);
      && (!g.finished ==> OnTrack(env, SetGen(j, g), c.cells))
      && (g.finished ==> EndedAsReference(env, j.st.spec, Finish(g)))
  {
    var g := Accept(env.be.piece, j.st.spec, j.st.gen, next, cancelled);
    AcceptShape(env.be.piece, j.st.spec, j.st.gen, next, cancelled);
    FinishShape(g);
  }

  /** Ended, and as the reference whatever the prompt. */
  ghost predicate EndedAsReference(env: Env, spec: Spec, g: Gen) {
    Ended(env, spec, g) && (OwnEnd(g.reason) ==> Finish(g) == Reference(env.be, spec))
  }

  lemma AwaitsAccept(env: Env, j: Job, c: SeqKv, next: NextToken, cancelled: bool)
    requires Awaits(env, j, c, next) && j.st.prompt == env.be.tokenize(j.st.spec.prompt)
    ensures var g := Accept(env.be.piece, j.st.spec, j.st.gen, next, cancelled);
      && (!g.finished ==> Running(env, SetGen(j, g), c.cells))
      && (g.finished ==> Ended(env, j.st.spec, Finish(g)))
  {
    var g := Accept(env.be.piece, j.st.spec, j.st.gen, next, cancelled);
    if j.st.prompt == [] {
      AcceptShape(env.be.piece, j.st.spec, j.st.gen, next, cancelled);
      FinishShape(g);
    } else {
      AcceptSync(env, j, c, next, cancelled);
    }
  }

  /* ---------------- shared updates ---------------- */

  /** Entries may disappear or be touched, and KV that no entry names may change. */
  lemma CacheSyncShrink(env: Env, known: seq<Request>, c: CacheState, kv: Kv, d: CacheState, kv': Kv)
    requires CacheSync(env, known, c, kv)
    requires forall h :: h in d.entries ==>
      h in c.entries && d.entries[h].entry == c.entries[h].entry && d.entries[h].entry.sid in kv' &&
      (d.entries[h].entry.sid in kv ==> kv'[d.entries[h].entry.sid] == kv[d.entries[h].entry.sid])
    ensures CacheSync(env, known, d, kv')
  {
    forall h | h in d.entries
      ensures EntrySync(env, known, h, d.entries[h].entry, kv')
    {
      assert EntrySync(env, known, h, c.entries[h].entry, kv);
    }
  }

  /** A donor slot is named by its own entry only. */
  lemma DonorNamedOnce(env: Env, s: Sys, extra: set<SeqId>, h: nat)
    requires Wf(env, s, extra) && h in s.cache.entries && s.cache.entries[h].entry.retained
    ensures var sid := s.cache.entries[h].entry.sid;
      sid !in s.jobs && sid in s.held && forall k :: k in s.cache.entries && k != h ==> s.cache.entries[k].entry.sid != sid
  {
    var sid := s.cache.entries[h].entry.sid;
    assert EntryOk(env.cfg.blockSize, s.cache.entries[h].entry, s.jobs, s.held);
    forall k | k in s.cache.entries && k != h
      ensures s.cache.entries[k].entry.sid != sid
    {
      assert EntryOk(env.cfg.blockSize, s.cache.entries[k].entry, s.jobs, s.held);
      assert Apart(s.cache, h, k);
    }
  }

  lemma DropSync(env: Env, s: Sys, h: nat)
    requires Sync(env, s) && h in s.cache.entries && s.cache.entries[h].entry.sid !in s.jobs
    requires forall k :: k in s.cache.entries && k != h ==> s.cache.entries[k].entry.sid != s.cache.entries[h].entry.sid
    ensures var r := s.(cache := Drop(s.cache, h), kv := Release(s.kv, s.cache.entries[h].entry.sid));
      JobsSync(env, r.jobs, r.kv) && CacheSync(env, s.accepted, r.cache, r.kv)
  {
    assert forall k :: k in s.cache.entries ==> EntrySync(env, s.accepted, k, s.cache.entries[k].entry, s.kv);
    CacheSyncShrink(env, s.accepted, s.cache, s.kv, Drop(s.cache, h), Release(s.kv, s.cache.entries[h].entry.sid));
  }

  lemma ReclaimDonorSync(env: Env, s: Sys, extra: set<SeqId>)
    requires Wf(env, s, extra) && Sync(env, s) && HasRetained(s.cache)
    ensures Sync(env, ReclaimDonor(s))
  {
    DonorNamedOnce(env, s, extra, LruKey(s.cache));
    DropSync(env, s, LruKey(s.cache));
  }

  lemma {:induction false} ReclaimUntilSync(env: Env, s: Sys, extra: set<SeqId>, n: nat)
    requires Wf(env, s, extra) && Sync(env, s)
    ensures Sync(env, ReclaimUntil(s, n))
    decreases |s.cache.entries|
  {
    if |s.pool.freeList| < n && HasRetained(s.cache) {
      ReclaimDonorWf(env, s, extra);
      ReclaimDonorSync(env, s, extra);
      ReclaimUntilSync(env, ReclaimDonor(s), extra, n);
    }
  }

  /** A slot no entry names: its KV may be begun, rewritten or released. */
  lemma SlotFreeOfEntries(env: Env, s: Sys, extra: set<SeqId>, slot: SeqId)
    requires Wf(env, s, extra) && slot in s.freeSlots
    ensures Unnamed(s.cache, slot) && slot !in s.jobs && slot !in s.held
  {
    forall h | h in s.cache.entries
      ensures s.cache.entries[h].entry.sid != slot
    {
      assert EntryOk(env.cfg.blockSize, s.cache.entries[h].entry, s.jobs, s.held);
    }
  }

  lemma UnnamedKvSync(env: Env, s: Sys, kv: Kv, slot: SeqId)
    requires Sync(env, s) && Unnamed(s.cache, slot) && slot !in s.jobs
    requires forall k :: k in s.kv && k != slot ==> k in kv && kv[k] == s.kv[k]
    ensures Sync(env, s.(kv := kv))
  {
    assert forall h :: h in s.cache.entries ==> EntrySync(env, s.accepted, h, s.cache.entries[h].entry, s.kv);
    CacheSyncShrink(env, s.accepted, s.cache, s.kv, s.cache, kv);
  }

  /* ---------------- admission ---------------- */

  /** A hit copies the new request's own prompt prefix: the stored prefix and the query's
      prefix hash alike and so are equal. */
  lemma HitIsOwnPrefix(env: Env, s: Sys, req: Request, h: nat, e: Entry)
    requires Sync(env, s) && CollisionFree(env, s.accepted) && req in s.accepted
    requires h in s.cache.entries && e == s.cache.entries[h].entry
    requires e.nTokens <= |PromptOf(env, req)| && h == env.be.hash(PromptOf(env, req)[..e.nTokens])
    requires e.nTokens == |e.blocks| * env.cfg.blockSize
    ensures e.sid in s.kv && e.nTokens <= |s.kv[e.sid].cells|
    ensures s.kv[e.sid].cells[..e.nTokens] == PromptOf(env, req)[..e.nTokens]
  {
    assert EntrySync(env, s.accepted, h, e, s.kv);
    var prefix := s.kv[e.sid].cells[..e.nTokens];
    var r :| r in s.accepted && prefix <= PromptOf(env, r);
    assert PromptOf(env, r)[..e.nTokens] == prefix;
    assert Separated(env, r, req, |e.blocks|);
  }

  lemma EnrollSync(env: Env, s: Sys, job: Job)
    requires s.pending != [] && s.freeSlots != [] && Sync(env, s)
    requires Last(s.freeSlots) in s.kv && JobSync(env, job, s.kv[Last(s.freeSlots)])
    ensures Sync(env, Enroll(s, job))
  {
  }

  lemma TouchSync(env: Env, s: Sys, c: CacheState)
    requires Sync(env, s) && (c == s.cache || exists h :: h in s.cache.entries && c == Touch(s.cache, h))
    ensures Sync(env, s.(cache := c))
  {
    assert forall k :: k in s.cache.entries ==> EntrySync(env, s.accepted, k, s.cache.entries[k].entry, s.kv);
    CacheSyncShrink(env, s.accepted, s.cache, s.kv, c, s.kv);
  }

  /** The KV a new job starts with is its own prompt prefix, as far as it counts it done. */
  lemma AdoptedJobSync(env: Env, job: Job, e: Entry, cells: seq<Token>, t: Table)
    requires !Finished(job) && job.st.gen == NEW_GEN && job.st.prompt != [] && t.sharedTokens == e.nTokens
    requires e.nTokens <= |cells| && e.nTokens <= |job.st.prompt| && cells[..e.nTokens] == job.st.prompt[..e.nTokens]
    ensures JobSync(env, job.(table := t, st := AdoptCachedPrefix(job.st, e.nTokens)), SeqKv(job.st.spec.sampling, cells[..e.nTokens]))
  {
  }

  /** What reserving leaves for the sharing step: an empty, registered slot. */
  ghost predicate Registered(env: Env, s: Sys) {
    && s.pending != [] && s.freeSlots != [] && Last(s.freeSlots) in s.kv
    && s.kv[Last(s.freeSlots)] == SeqKv(s.pending[0].spec.sampling, [])
    && s.pending[0] in s.accepted
  }

  lemma ShareHitSync(env: Env, s: Sys, job: Job)
    requires s.freeSlots != [] && Wf(env, s, {Last(s.freeSlots)}) && Sync(env, s) && Registered(env, s) && CollisionFree(env, s.accepted)
    requires job.st.sid == Last(s.freeSlots) && job.st.spec == s.pending[0].spec && job.st.prompt == PromptOf(env, s.pending[0])
    requires job.st.gen == NEW_GEN && HitFor(env, s.cache, job).Some?
    ensures var (s2, j2) := SharePrefix(env, s, job);
      Sync(env, s2) && Last(s.freeSlots) in s2.kv && JobSync(env, j2, s2.kv[Last(s.freeSlots)])
  {
    var slot := Last(s.freeSlots);
    var h := HitFor(env, s.cache, job).value;
    var e := s.cache.entries[h].entry;
    LongestMatchKey(env.be.hash, s.cache, job.st.prompt, env.cfg.blockSize);
    assert EntryOk(env.cfg.blockSize, e, s.jobs, s.held);
    HitIsOwnPrefix(env, s, s.pending[0], h, e);
    SharePrefixHit(env, s, job);
    assert slot in s.freeSlots;
    SlotFreeOfEntries(env, s, {slot}, slot);
    PositiveProduct(|e.blocks|, env.cfg.blockSize);
    HitKvSync(env, s, slot, h, job.st.spec.sampling);
    AdoptedJobSync(env, job, e, s.kv[e.sid].cells, SharePrefix(env, s, job).1.table);
  }

  lemma HitKvSync(env: Env, s: Sys, slot: SeqId, h: nat, sampling: Sampling)
    requires Sync(env, s) && h in s.cache.entries && Unnamed(s.cache, slot) && slot !in s.jobs
    requires slot in s.kv && s.kv[slot] == SeqKv(sampling, [])
    requires var e := s.cache.entries[h].entry; 0 < e.nTokens && e.sid in s.kv && e.nTokens <= |s.kv[e.sid].cells|
    ensures var e := s.cache.entries[h].entry;
      var kv := Copy(s.kv, e.sid, slot, e.nTokens);
      && Sync(env, s.(cache := Touch(s.cache, h), kv := kv))
      && slot in kv && kv[slot] == SeqKv(sampling, s.kv[e.sid].cells[..e.nTokens])
  {
    var e := s.cache.entries[h].entry;
    var kv := Copy(s.kv, e.sid, slot, e.nTokens);
    UnnamedKvSync(env, s, kv, slot);
    TouchSync(env, s.(kv := kv), Touch(s.cache, h));
  }

  lemma PositiveProduct(a: nat, b: nat)
    requires a > 0 && b > 0
    ensures a * b > 0
  {
  }

  lemma FreshJobSync(env: Env, job: Job)
    requires job.st.prefilled == 0
    requires if Finished(job) then job.st.gen.reason == ContextOverflow && job.table.blocks == []
      else job.st.gen == NEW_GEN && job.table.sharedTokens == 0
    ensures JobSync(env, job, SeqKv(job.st.spec.sampling, []))
  {
  }

  lemma AdmitSync(env: Env, s: Sys)
    requires s.freeSlots != [] && Wf(env, s, {Last(s.freeSlots)}) && Sync(env, s) && Registered(env, s)
    requires CollisionFree(env, s.accepted) && Admit(env, s).Some?
    ensures Sync(env, Admit(env, s).value)
  {
    var slot := Last(s.freeSlots);
    var job := FrontJob(env, s);
    if Finished(job) {
      FreshJobSync(env, job);
      EnrollSync(env, s, job);
    } else {
      var (q, t, _) := EnsureCapacity(env.cfg.blockSize, s.pool, EMPTY_TABLE, |job.st.prompt|);
      var j1 := job.(table := t);
      ShareSync(env, s, q, j1);
      var (s2, j2) := SharePrefix(env, s.(pool := q), j1);
      EnrollSync(env, s2, j2);
    }
  }

  lemma ShareSync(env: Env, s: Sys, q: Pool, job: Job)
    requires s.freeSlots != [] && Wf(env, s, {Last(s.freeSlots)}) && Sync(env, s) && Registered(env, s) && CollisionFree(env, s.accepted)
    requires job.st == FrontJob(env, s).st && !Finished(job) && job.table.sharedTokens == 0
    ensures var (s2, j2) := SharePrefix(env, s.(pool := q), job);
      Sync(env, s2) && Last(s.freeSlots) in s2.kv && JobSync(env, j2, s2.kv[Last(s.freeSlots)])
  {
    if HitFor(env, s.cache, job).Some? {
      ShareHitSync(env, s, job);
      SharePrefixHit(env, s, job);
      SharePrefixHit(env, s.(pool := q), job);
    } else {
      SharePrefixMiss(env, s.(pool := q), job);
      TouchSync(env, s, SharePrefix(env, s.(pool := q), job).0.cache);
      FreshJobSync(env, job);
    }
  }

  lemma {:induction false} ReclaimUntilKeepsSlot(env: Env, s: Sys, extra: set<SeqId>, n: nat, slot: SeqId)
    requires Wf(env, s, extra) && slot in extra
    ensures slot in s.kv && slot in ReclaimUntil(s, n).kv && ReclaimUntil(s, n).kv[slot] == s.kv[slot]
    decreases |s.cache.entries|
  {
    if |s.pool.freeList| < n && HasRetained(s.cache) {
      DonorNamedOnce(env, s, extra, LruKey(s.cache));
      assert slot in s.freeSlots && slot !in s.held;
      ReclaimDonorWf(env, s, extra);
      ReclaimUntilKeepsSlot(env, ReclaimDonor(s), extra, n, slot);
    }
  }

  lemma BeginSync(env: Env, s: Sys, sampling: Sampling)
    requires Wf(env, s, {}) && Sync(env, s) && s.freeSlots != []
    ensures Sync(env, s.(kv := Begin(s.kv, Last(s.freeSlots), sampling)))
  {
    var slot := Last(s.freeSlots);
    assert slot in s.freeSlots;
    SlotFreeOfEntries(env, s, {}, slot);
    UnnamedKvSync(env, s, Begin(s.kv, slot, sampling), slot);
  }

  lemma ReclaimedSync(env: Env, s: Sys, sampling: Sampling, n: nat)
    requires Wf(env, s, {}) && Sync(env, s) && s.freeSlots != []
    ensures var slot := Last(s.freeSlots);
      var r := ReclaimUntil(s.(kv := Begin(s.kv, slot, sampling)), n);
      Sync(env, r) && slot in r.kv && r.kv[slot] == SeqKv(sampling, [])
  {
    var slot := Last(s.freeSlots);
    var s0 := s.(kv := Begin(s.kv, slot, sampling));
    BeginWf(env, s, sampling);
    BeginSync(env, s, sampling);
    ReclaimUntilSync(env, s0, {slot}, n);
    ReclaimUntilKeepsSlot(env, s0, {slot}, n, slot);
  }

  lemma MakeRoomSync(env: Env, s: Sys)
    requires Wf(env, s, {}) && Sync(env, s) && s.pending != [] && s.freeSlots != []
    requires s.pending[0] in s.accepted
    ensures Sync(env, MakeRoom(env, s)) && Registered(env, MakeRoom(env, s))
  {
    var n: nat :| n == Want(env, s) + Headroom(s);
    MakeRoomReclaims(env, s, n);
    ReclaimedSync(env, s, s.pending[0].spec.sampling, n);
  }

  /** Turning a request away leaves the KV of everyone else alone and is not an own end. */
  lemma TurnAwaySync(env: Env, s: Sys)
    requires s.freeSlots != [] && Wf(env, s, {Last(s.freeSlots)}) && Sync(env, s) && s.pending != []
    ensures Sync(env, s.(kv := Release(s.kv, Last(s.freeSlots)))) && Sync(env, Reject(env, s))
  {
    var slot := Last(s.freeSlots);
    assert slot in s.freeSlots;
    SlotFreeOfEntries(env, s, {slot}, slot);
    UnnamedKvSync(env, s, Release(s.kv, slot), slot);
    RejectionSync(env, s);
  }

  lemma RejectionSync(env: Env, s: Sys)
    requires s.freeSlots != [] && s.pending != []
    requires Sync(env, s.(kv := Release(s.kv, Last(s.freeSlots))))
    ensures Sync(env, Reject(env, s))
  {
    var r := Reject(env, s);
    assert DeliverySync(env, Last(r.delivered));
    assert forall d :: d in r.delivered ==> d in s.delivered || d == Last(r.delivered);
  }

  lemma AdmitFrontSync(env: Env, s: Sys)
    requires Wf(env, s, {}) && Balanced(s) && Sync(env, s) && s.pending != [] && s.freeSlots != []
    requires CollisionFree(env, s.accepted)
    ensures Sync(env, AdmitFront(env, s).0)
  {
    AcceptedKnown(env, s, {});
    MakeRoomWf(env, s);
    MakeRoomSync(env, s);
    var s1 := MakeRoom(env, s);
    if Admit(env, s1).Some? {
      AdmitSync(env, s1);
    } else {
      TurnAwaySync(env, s1);
    }
  }

  lemma AdmitFrontKeeps(env: Env, s: Sys)
    requires Healthy(env, s) && s.pending != [] && s.freeSlots != [] && CollisionFree(env, s.accepted)
    ensures var r := AdmitFront(env, s).0; Healthy(env, r) && r.accepted == s.accepted
  {
    assert Wf(env, s, {});
    AdmitFrontWf(env, s);
    AdmitFrontBooks(env, s);
    AdmitFrontSync(env, s);
  }

  lemma {:induction false} AdmitLoopSync(env: Env, s: Sys)
    requires Healthy(env, s) && CollisionFree(env, s.accepted)
    ensures Healthy(env, AdmitLoop(env, s)) && AdmitLoop(env, s).accepted == s.accepted
    decreases |s.pending|
  {
    if s.pending != [] && s.freeSlots != [] {
      AdmitFrontKeeps(env, s);
      if !AdmitFront(env, s).1.Deferred? {
        AdmitLoopSync(env, AdmitFront(env, s).0);
      }
    }
  }

  /* ---------------- a forward pass ---------------- */

  /** KV only grows at the end, so every stored prefix is still there. */
  lemma CacheSyncGrow(env: Env, known: seq<Request>, c: CacheState, kv: Kv, kv': Kv)
    requires CacheSync(env, known, c, kv)
    requires forall k :: k in kv ==> k in kv' && kv[k].cells <= kv'[k].cells
    ensures CacheSync(env, known, c, kv')
  {
    forall h | h in c.entries
      ensures EntrySync(env, known, h, c.entries[h].entry, kv')
    {
      var e := c.entries[h].entry;
      assert EntrySync(env, known, h, e, kv);
      assert kv'[e.sid].cells[..e.nTokens] == kv[e.sid].cells[..e.nTokens];
    }
  }

  /** After the pass and before the accepts. */
  ghost predicate MidSync(env: Env, s: Sys, sampling: seq<SeqId>, steps: seq<GenStep>) {
    && |steps| == |sampling| && NoDup(sampling)
    && (forall i :: 0 <= i < |sampling| ==>
          sampling[i] in s.jobs && sampling[i] in s.kv && Awaits(env, s.jobs[sampling[i]], s.kv[sampling[i]], steps[i].next))
    && (forall k :: k in s.jobs && k !in sampling ==> k in s.kv && JobSync(env, s.jobs[k], s.kv[k]))
    && CacheSync(env, s.accepted, s.cache, s.kv)
    && (forall d :: d in s.delivered ==> DeliverySync(env, d))
  }

  /** What the pass does to the sequence of one item. */
  lemma ItemSync(env: Env, jobs: map<SeqId, Job>, jobs': map<SeqId, Job>, kv: Kv, items: seq<BatchItem>, i: nat)
    requires DistinctSids(items) && i < |items| && ItemFits(jobs, jobs', items[i]) && items[i].sid in kv
    requires JobSync(env, jobs[items[i].sid], kv[items[i].sid])
    ensures items[i].sid in Decode(env.be, kv, items).0
    ensures kv[items[i].sid].cells <= Decode(env.be, kv, items).0[items[i].sid].cells
    ensures !items[i].sample ==> JobSync(env, jobs'[items[i].sid], Decode(env.be, kv, items).0[items[i].sid])
  {
    var item, j, c := items[i], jobs[items[i].sid], kv[items[i].sid];
    DecodeIsPerSequence(env.be, kv, items, i);
    if j.st.prompt == [] {
      EmptyItemLands(env, j, c, item);
    } else {
      ItemLands(env, j, c, item);
      if Prefilling(j.st) {
        ChunkSync(env, j, c, item, jobs'[item.sid].st, Decode(env.be, kv, items).0[item.sid]);
      }
    }
  }

  lemma SampledItemSync(env: Env, jobs: map<SeqId, Job>, jobs': map<SeqId, Job>, kv: Kv, items: seq<BatchItem>, i: nat, m: nat)
    requires DistinctSids(items) && i < |items| && ItemFits(jobs, jobs', items[i]) && items[i].sid in kv
    requires JobSync(env, jobs[items[i].sid], kv[items[i].sid]) && JobOk(env, items[i].sid, jobs[items[i].sid])
    requires items[i].sample && m < |SampledSids(items)| && SampledSids(items)[m] == items[i].sid
    ensures m < |Decode(env.be, kv, items).1| && items[i].sid in Decode(env.be, kv, items).0
    ensures Awaits(env, jobs'[items[i].sid], Decode(env.be, kv, items).0[items[i].sid], Decode(env.be, kv, items).1[m].next)
  {
    var item, j, c := items[i], jobs[items[i].sid], kv[items[i].sid];
    DecodeIsPerSequence(env.be, kv, items, i);
    StepSeesOwnHistory(env.be, kv, items, i, m);
    var c', next := Decode(env.be, kv, items).0[item.sid], Decode(env.be, kv, items).1[m].next;
    if j.st.prompt == [] {
      EmptyItemLands(env, j, c, item);
    } else {
      ItemLands(env, j, c, item);
      if Prefilling(j.st) {
        ChunkSync(env, j, c, item, jobs'[item.sid].st, c');
        assert c'.cells[..|c'.cells|] == c'.cells;
      } else {
        DecodedSync(env, j, c, item, c', next);
      }
    }
  }

  lemma PassSync(env: Env, s: Sys)
    requires Wf(env, s, {}) && Sync(env, s)
    ensures var (items, jobs) := Build(env, s);
      var (kv, steps) := Decode(env.be, s.kv, items);
      MidSync(env, s.(jobs := jobs, kv := kv), SampledSids(items), steps)
  {
    WfAddressed(env, s, {});
    BatchFits(env, s);
    var (items, jobs) := Build(env, s);
    var (kv, steps) := Decode(env.be, s.kv, items);
    var sampling := SampledSids(items);
    DecodeSteps(env.be, s.kv, items);
    SampledSidsDistinct(items);
    forall k | k in s.kv
      ensures k in kv && s.kv[k].cells <= kv[k].cells
      ensures k in jobs && k !in sampling ==> JobSync(env, jobs[k], kv[k])
    {
      PassOthersSync(env, s, items, jobs, k);
    }
    CacheSyncGrow(env, s.accepted, s.cache, s.kv, kv);
    forall m | 0 <= m < |sampling|
      ensures sampling[m] in jobs && sampling[m] in kv && Awaits(env, jobs[sampling[m]], kv[sampling[m]], steps[m].next)
    {
      var i := SampledSidsFrom(items, m);
      assert ItemFits(s.jobs, jobs, items[i]) && JobOk(env, items[i].sid, s.jobs[items[i].sid]);
      SampledItemSync(env, s.jobs, jobs, s.kv, items, i, m);
    }
  }

  lemma PassOthersSync(env: Env, s: Sys, items: seq<BatchItem>, jobs: map<SeqId, Job>, k: SeqId)
    requires Wf(env, s, {}) && JobsSync(env, s.jobs, s.kv) && ItemsFit(s.active, s.jobs, jobs, items) && k in s.kv
    ensures var kv := Decode(env.be, s.kv, items).0;
      && k in kv && s.kv[k].cells <= kv[k].cells
      && (k in jobs && k !in SampledSids(items) ==> JobSync(env, jobs[k], kv[k]))
  {
    if NoItemFor(items, k) {
      DecodeFrame(env.be, s.kv, items, k);
    } else {
      var i :| 0 <= i < |items| && items[i].sid == k;
      assert ItemFits(s.jobs, jobs, items[i]) && JobOk(env, k, s.jobs[k]);
      ItemSync(env, s.jobs, jobs, s.kv, items, i);
      SampledSidsDistinct(items);
    }
  }

  /* ---------------- accepting ---------------- */

  /** Storing a prefix that its sequence's KV really holds. */
  lemma InsertSync(env: Env, known: seq<Request>, c: CacheState, kv: Kv, req: Request, e: Entry, n: nat)
    requires CacheSync(env, known, c, kv) && req in known && e.sid in kv && e.nTokens == n
    requires n <= |PromptOf(env, req)| && n <= |kv[e.sid].cells| && kv[e.sid].cells[..n] == PromptOf(env, req)[..n]
    ensures CacheSync(env, known, Insert(c, env.be.hash(PromptOf(env, req)[..n]), e), kv)
  {
    var h := env.be.hash(PromptOf(env, req)[..n]);
    var d := Insert(c, h, e);
    assert PromptOf(env, req)[..n] <= PromptOf(env, req);
    assert KnownPrefix(env, known, h, kv[e.sid].cells[..n]);
    forall k | k in d.entries
      ensures EntrySync(env, known, k, d.entries[k].entry, kv)
    {
      if k != h {
        assert EntrySync(env, known, k, c.entries[k].entry, kv);
      }
    }
  }

  lemma PublishSync(env: Env, s: Sys, sid: SeqId)
    requires sid in s.jobs && sid in s.kv && JobOk(env, sid, s.jobs[sid]) && JobSync(env, s.jobs[sid], s.kv[sid])
    requires CacheSync(env, s.accepted, s.cache, s.kv) && s.jobs[sid].req in s.accepted
    ensures CacheSync(env, s.accepted, Publish(env, s, sid).cache, s.kv)
  {
    var j := s.jobs[sid];
    var nb := WholeBlocks(env, j);
    if env.cfg.prefixCaching && !Prefilling(j.st) && 0 < nb <= |j.table.blocks| {
      var n := PrefixTokens(env, j);
      assert j.st.prompt <= s.kv[sid].cells;
      assert s.kv[sid].cells[..n] == j.st.prompt[..n];
      InsertSync(env, s.accepted, s.cache, s.kv, j.req, Entry(sid, n, j.table.blocks[..nb], false), n);
    }
  }

  /** One accept: its own job is in sync again, and a starved job is past its prefill. */
  lemma AcceptOneSync(env: Env, s: Sys, sid: SeqId, next: NextToken, cancelled: bool)
    requires sid in s.jobs && sid in s.kv && JobOk(env, sid, s.jobs[sid]) && s.jobs[sid].req in s.accepted
    requires Awaits(env, s.jobs[sid], s.kv[sid], next) && CacheSync(env, s.accepted, s.cache, s.kv)
    ensures var r := AcceptOne(env, s, sid, next, cancelled).0;
      && JobSync(env, r.jobs[sid], s.kv[sid]) && !Prefilling(r.jobs[sid].st)
      && CacheSync(env, s.accepted, r.cache, s.kv)
  {
    var j := s.jobs[sid];
    AwaitsAccept(env, j, s.kv[sid], next, cancelled);
    AcceptBounded(env.be.piece, j.st.spec, j.st.gen, next, cancelled);
    var g := Accept(env.be.piece, j.st.spec, j.st.gen, next, cancelled);
    if !g.finished {
      var j1 := SetGen(j, g);
      var (q, t, ok) := EnsureCapacity(env.cfg.blockSize, s.pool, j1.table, Tokens(j1));
      if ok {
        PublishSync(env, s.(pool := q, jobs := s.jobs[sid := j1.(table := t)]), sid);
      }
    }
  }

  lemma AcceptOneFrame(env: Env, s: Sys, sid: SeqId, next: NextToken, cancelled: bool)
    requires sid in s.jobs
    ensures var r := AcceptOne(env, s, sid, next, cancelled).0;
      && r.jobs.Keys == s.jobs.Keys && (forall k :: k in s.jobs && k != sid ==> r.jobs[k] == s.jobs[k])
      && r.jobs[sid].req == s.jobs[sid].req
      && r.kv == s.kv && r.accepted == s.accepted && r.delivered == s.delivered && r.active == s.active
  {
  }

  lemma AcceptStepSync(env: Env, s: Sys, sampling: seq<SeqId>, steps: seq<GenStep>, cancelled: bool)
    requires Wf(env, s, {}) && Balanced(s) && MidSync(env, s, sampling, steps) && sampling != []
    ensures MidSync(env, AcceptOne(env, s, sampling[0], steps[0].next, cancelled).0, sampling[1..], steps[1..])
    ensures !Prefilling(AcceptOne(env, s, sampling[0], steps[0].next, cancelled).0.jobs[sampling[0]].st)
  {
    var sid := sampling[0];
    AcceptedKnown(env, s, {});
    assert JobOk(env, sid, s.jobs[sid]);
    AcceptOneSync(env, s, sid, steps[0].next, cancelled);
    AcceptOneFrame(env, s, sid, steps[0].next, cancelled);
    MidSyncTail(env, s, AcceptOne(env, s, sid, steps[0].next, cancelled).0, sampling, steps);
  }

  lemma MidSyncTail(env: Env, s: Sys, r: Sys, sampling: seq<SeqId>, steps: seq<GenStep>)
    requires MidSync(env, s, sampling, steps) && sampling != []
    requires r.jobs.Keys == s.jobs.Keys && (forall k :: k in s.jobs && k != sampling[0] ==> r.jobs[k] == s.jobs[k])
    requires r.kv == s.kv && r.accepted == s.accepted && r.delivered == s.delivered
    requires JobSync(env, r.jobs[sampling[0]], s.kv[sampling[0]]) && CacheSync(env, s.accepted, r.cache, s.kv)
    ensures MidSync(env, r, sampling[1..], steps[1..])
  {
    var rest := sampling[1..];
    forall i | 0 <= i < |rest|
      ensures rest[i] in r.jobs && rest[i] in r.kv && Awaits(env, r.jobs[rest[i]], r.kv[rest[i]], steps[1..][i].next)
    {
      assert rest[i] == sampling[i + 1] && steps[1..][i] == steps[i + 1];
    }
    forall k | k in r.jobs && k !in rest
      ensures k in r.kv && JobSync(env, r.jobs[k], r.kv[k])
    {
      assert k == sampling[0] || k !in sampling;
    }
  }

  ghost predicate Ready(s: Sys, starved: seq<SeqId>) {
    forall k :: k in starved && k in s.jobs ==> !Prefilling(s.jobs[k].st)
  }

  lemma {:induction false} AcceptLoopSync(env: Env, s: Sys, sampling: seq<SeqId>, steps: seq<GenStep>, cancelled: set<nat>)
    requires Wf(env, s, {}) && Balanced(s) && MidSync(env, s, sampling, steps)
    ensures var (r, starved) := AcceptLoop(env, s, sampling, steps, cancelled);
      && Sync(env, r) && Ready(r, starved)
      && (forall k :: k in s.jobs && k !in sampling ==> k in r.jobs && r.jobs[k] == s.jobs[k])
    decreases |sampling|
  {
    if sampling != [] {
      var sid := sampling[0];
      var gone := s.jobs[sid].req.id in cancelled;
      AcceptOneWf(env, s, sid, steps[0].next, gone);
      AcceptOneBooks(env, s, sid, steps[0].next, gone);
      AcceptStepSync(env, s, sampling, steps, gone);
      AcceptOneFrame(env, s, sid, steps[0].next, gone);
      var (s1, short) := AcceptOne(env, s, sid, steps[0].next, gone);
      AcceptLoopSync(env, s1, sampling[1..], steps[1..], cancelled);
      assert sid !in sampling[1..];
      assert forall k :: k in sampling[1..] ==> k in sampling;
    }
  }

  /* ---------------- retiring and preempting ---------------- */

  lemma ForgetSync(env: Env, s: Sys, sid: SeqId)
    requires Sync(env, s)
    ensures Sync(env, ForgetJob(s, sid))
  {
    var d := EvictSequence(s.cache, sid);
    assert forall h :: h in d.entries ==> EntrySync(env, s.accepted, h, s.cache.entries[h].entry, s.kv);
    CacheSyncShrink(env, s.accepted, s.cache, s.kv, d, s.kv);
  }

  lemma RemoveJobSync(env: Env, s: Sys, i: nat)
    requires Sync(env, s) && i < |s.active| && s.active[i] in s.jobs && Unnamed(s.cache, s.active[i])
    ensures Sync(env, RemoveJob(s, i))
  {
    var r := RemoveJob(s, i);
    assert forall h :: h in s.cache.entries ==> EntrySync(env, s.accepted, h, s.cache.entries[h].entry, s.kv);
    CacheSyncShrink(env, s.accepted, s.cache, s.kv, r.cache, r.kv);
  }

  /** The donor receives exactly the prompt prefix it is stored under: a finished job that
      still has blocks holds its whole prompt's KV. */
  lemma StoreDonorSync(env: Env, s: Sys, sid: SeqId)
    requires Wf(env, s, {}) && Sync(env, s) && s.cache.freeDonors != [] && sid in s.jobs && Finished(s.jobs[sid])
    requires s.jobs[sid].req in s.accepted
    requires 0 < WholeBlocks(env, s.jobs[sid]) <= |s.jobs[sid].table.blocks|
    ensures Sync(env, StoreDonor(env, s, s.jobs[sid]))
  {
    var j := s.jobs[sid];
    var slot, n := Last(s.cache.freeDonors), PrefixTokens(env, j);
    FreeDonorUnnamed(env, s, {}, slot);
    assert JobOk(env, sid, j) && JobSync(env, j, s.kv[sid]);
    PositiveProduct(WholeBlocks(env, j), env.cfg.blockSize);
    DonorKvSync(env, s, j, slot, n);
  }

  lemma DonorKvSync(env: Env, s: Sys, j: Job, slot: SeqId, n: nat)
    requires Sync(env, s) && s.cache.freeDonors != [] && slot == Last(s.cache.freeDonors)
    requires Unnamed(s.cache, slot) && slot !in s.jobs && slot != j.st.sid && j.st.sid in s.kv
    requires WholeBlocks(env, j) <= |j.table.blocks| && n == PrefixTokens(env, j) && n > 0
    requires j.st.prompt == PromptOf(env, j.req) && j.req in s.accepted && j.st.prompt <= s.kv[j.st.sid].cells
    ensures Sync(env, StoreDonor(env, s, j))
  {
    var blocks := j.table.blocks[..WholeBlocks(env, j)];
    var s2 := WithDonor(s, j.st.sid, blocks, n);
    assert s2.kv[slot].cells == s.kv[j.st.sid].cells[..n] == j.st.prompt[..n];
    UnnamedKvSync(env, s, s2.kv, slot);
    CacheSyncShrink(env, s.accepted, s.cache, s2.kv, s2.cache, s2.kv);
    assert s2.kv[slot].cells[..n] == j.st.prompt[..n];
    InsertSync(env, s.accepted, s2.cache, s2.kv, j.req, Entry(slot, n, blocks, true), n);
  }

  lemma RetainPrefixSync(env: Env, s: Sys, sid: SeqId, copyFails: bool)
    requires Wf(env, s, {}) && Sync(env, s) && sid in s.jobs && Finished(s.jobs[sid])
    requires s.jobs[sid].req in s.accepted && Unnamed(s.cache, sid)
    ensures Sync(env, RetainPrefix(env, s, s.jobs[sid], copyFails))
  {
    if Retainable(env, s.jobs[sid]) {
      MakeDonorRoomWf(env, s, sid);
      if s.cache.freeDonors == [] && HasRetained(s.cache) {
        ReclaimDonorSync(env, s, {});
      }
      var s1 := MakeDonorRoom(s);
      if s1.cache.freeDonors != [] {
        if copyFails {
          LoseDonorSlotWf(env, s1);
          SameEntriesSync(env, s1, LoseDonorSlot(s1).cache);
        } else {
          StoreDonorSync(env, s1, sid);
        }
      }
    }
  }

  lemma SameEntriesSync(env: Env, s: Sys, c: CacheState)
    requires Sync(env, s) && c.entries == s.cache.entries
    ensures Sync(env, s.(cache := c))
  {
    assert forall h :: h in c.entries ==> EntrySync(env, s.accepted, h, s.cache.entries[h].entry, s.kv);
    CacheSyncShrink(env, s.accepted, s.cache, s.kv, c, s.kv);
  }

  lemma EndedDelivers(env: Env, j: Job, k: SeqId)
    requires JobOk(env, k, j) && Ended(env, j.st.spec, j.st.gen)
    ensures DeliverySync(env, Delivery(j.req, ResultOf(Finish(j.st.gen), |j.st.prompt|)))
  {
    FinishShape(j.st.gen);
  }

  lemma RetireAtSync(env: Env, s: Sys, i: nat, copyFails: set<nat>)
    requires Wf(env, s, {}) && Balanced(s) && Sync(env, s) && i < |s.active| && Finished(s.jobs[s.active[i]])
    ensures Sync(env, RetireAt(env, s, i, copyFails))
  {
    var sid := s.active[i];
    var j := s.jobs[sid];
    var fails := j.req.id in copyFails;
    AcceptedKnown(env, s, {});
    assert JobOk(env, sid, j) && JobSync(env, j, s.kv[sid]);
    ForgetWf(env, s, {}, sid);
    ForgetSync(env, s, sid);
    var s1 := ForgetJob(s, sid);
    RetainPrefixWf(env, s1, sid, fails);
    RetainPrefixSync(env, s1, sid, fails);
    var s2 := RetainPrefix(env, s1, j, fails);
    RemoveJobSync(env, s2, i);
    EndedDelivers(env, j, sid);
  }

  lemma RetireAtFrame(env: Env, s: Sys, i: nat, copyFails: set<nat>)
    requires i < |s.active| && s.active[i] in s.jobs
    ensures var r, j := RetireAt(env, s, i, copyFails), s.jobs[s.active[i]];
      && r.jobs == s.jobs - {s.active[i]}
      && r.delivered == s.delivered + [Delivery(j.req, ResultOf(Finish(j.st.gen), |j.st.prompt|))]
  {
  }

  lemma {:induction false} SweepKeepsJobs(env: Env, s: Sys, i: nat, copyFails: set<nat>)
    ensures var r := Sweep(env, s, i, copyFails); forall k :: k in r.jobs ==> k in s.jobs && r.jobs[k] == s.jobs[k]
    decreases |s.active| - i
  {
    if i < |s.active| {
      if s.active[i] in s.jobs && Finished(s.jobs[s.active[i]]) {
        RetireAtFrame(env, s, i, copyFails);
        SweepKeepsJobs(env, RetireAt(env, s, i, copyFails), i, copyFails);
      } else {
        SweepKeepsJobs(env, s, i + 1, copyFails);
      }
    }
  }

  lemma RetireAtKeeps(env: Env, s: Sys, i: nat, copyFails: set<nat>)
    requires Healthy(env, s) && i < |s.active| && s.active[i] in s.jobs && Finished(s.jobs[s.active[i]])
    ensures Healthy(env, RetireAt(env, s, i, copyFails))
  {
    assert Wf(env, s, {});
    RetireAtWf(env, s, i, copyFails);
    RetireAtBooks(env, s, i, copyFails);
    RetireAtSync(env, s, i, copyFails);
  }

  lemma {:induction false} SweepSync(env: Env, s: Sys, i: nat, copyFails: set<nat>)
    requires Healthy(env, s)
    ensures Healthy(env, Sweep(env, s, i, copyFails))
    decreases |s.active| - i
  {
    if i < |s.active| {
      if s.active[i] in s.jobs && Finished(s.jobs[s.active[i]]) {
        RetireAtKeeps(env, s, i, copyFails);
        SweepSync(env, RetireAt(env, s, i, copyFails), i, copyFails);
      } else {
        SweepSync(env, s, i + 1, copyFails);
      }
    }
  }

  lemma PreemptAtSync(env: Env, s: Sys, i: nat)
    requires Wf(env, s, {}) && Sync(env, s) && i < |s.active|
    ensures Sync(env, PreemptAt(s, i))
  {
    var sid := s.active[i];
    ForgetWf(env, s, {}, sid);
    ForgetSync(env, s, sid);
    RemoveJobSync(env, ForgetJob(s, sid), i);
  }

  lemma GrowTableSync(env: Env, s: Sys, sid: SeqId, needed: nat)
    requires Sync(env, s) && sid in s.jobs && !Prefilling(s.jobs[sid].st)
    ensures var r := GrowTable(env, s, sid, needed).0;
      Sync(env, r) && r.jobs.Keys == s.jobs.Keys && forall k :: k in s.jobs ==> r.jobs[k].st == s.jobs[k].st
  {
    assert JobSync(env, s.jobs[sid], s.kv[sid]);
  }

  lemma {:induction false} ReclaimForSync(env: Env, s: Sys, sid: SeqId, needed: nat)
    requires Wf(env, s, {}) && Sync(env, s) && sid in s.jobs && !Prefilling(s.jobs[sid].st)
    ensures var r := ReclaimFor(env, s, sid, needed);
      Sync(env, r) && r.jobs.Keys == s.jobs.Keys && forall k :: k in r.jobs ==> r.jobs[k].st == s.jobs[k].st
    decreases |s.cache.entries|
  {
    GrowTableWf(env, s, sid, needed);
    GrowTableSync(env, s, sid, needed);
    var (grown, ok) := GrowTable(env, s, sid, needed);
    if !ok && HasRetained(s.cache) {
      ReclaimDonorWf(env, grown, {});
      ReclaimDonorSync(env, grown, {});
      ReclaimForSync(env, ReclaimDonor(grown), sid, needed);
    }
  }

  lemma {:induction false} PreemptForSync(env: Env, s: Sys, sid: SeqId, needed: nat)
    requires Wf(env, s, {}) && Sync(env, s) && sid in s.jobs && !Prefilling(s.jobs[sid].st)
    ensures var r := PreemptFor(env, s, sid, needed);
      Sync(env, r) && forall k :: k in r.jobs ==> k in s.jobs && r.jobs[k].st == s.jobs[k].st
    decreases |s.active|
  {
    GrowTableWf(env, s, sid, needed);
    GrowTableSync(env, s, sid, needed);
    var (grown, ok) := GrowTable(env, s, sid, needed);
    if !ok {
      var v := Victim(grown.active, grown.jobs, sid, |grown.active|);
      if v.Some? {
        var s1 := PreemptAt(grown, v.value);
        PreemptAtWf(env, grown, v.value);
        PreemptAtSync(env, grown, v.value);
        PreemptForSync(env, s1, sid, needed);
        assert PreemptFor(env, s, sid, needed) == PreemptFor(env, s1, sid, needed);
      }
    }
  }

  /** Too large for the whole pool: the job fails, with its prompt's KV in place. */
  lemma FailJobSync(env: Env, s: Sys, sid: SeqId, failure: Failure)
    requires Sync(env, s) && sid in s.jobs && !Prefilling(s.jobs[sid].st)
    ensures Sync(env, s.(jobs := s.jobs[sid := SetGen(s.jobs[sid], Finish(Fail(s.jobs[sid].st.gen, failure, ContextOverflow)))]))
  {
    var j := s.jobs[sid];
    assert JobSync(env, j, s.kv[sid]);
    var g := Fail(j.st.gen, failure, ContextOverflow);
    FinishShape(g);
    assert JobSync(env, SetGen(j, Finish(g)), s.kv[sid]);
  }

  lemma ResolveOneSync(env: Env, s: Sys, sid: SeqId)
    requires Wf(env, s, {}) && Sync(env, s) && (sid in s.jobs ==> !Prefilling(s.jobs[sid].st))
    ensures var r := ResolveOne(env, s, sid);
      Sync(env, r) && forall k :: k in r.jobs ==> k in s.jobs && Prefilling(r.jobs[k].st) == Prefilling(s.jobs[k].st)
  {
    if sid in s.active {
      var j := s.jobs[sid];
      var need := BlocksFor(env.cfg.blockSize, Tokens(j));
      if need > |s.pool.refs| {
        FailJobSync(env, s, sid, PoolTooSmall(need, |s.pool.refs|));
      } else {
        ReclaimForWf(env, s, sid, Tokens(j));
        ReclaimForSync(env, s, sid, Tokens(j));
        PreemptForSync(env, ReclaimFor(env, s, sid, Tokens(j)), sid, Tokens(j));
      }
    }
  }

  lemma ResolveOneKeeps(env: Env, s: Sys, sid: SeqId)
    requires Healthy(env, s) && (sid in s.jobs ==> !Prefilling(s.jobs[sid].st))
    ensures var r := ResolveOne(env, s, sid);
      Healthy(env, r) && forall k :: k in r.jobs ==> k in s.jobs && Prefilling(r.jobs[k].st) == Prefilling(s.jobs[k].st)
  {
    assert Wf(env, s, {});
    ResolveOneWf(env, s, sid);
    ResolveOneBooks(env, s, sid);
    ResolveOneSync(env, s, sid);
  }

  lemma {:induction false} ResolveAllSync(env: Env, s: Sys, starved: seq<SeqId>)
    requires Healthy(env, s) && Ready(s, starved)
    ensures Healthy(env, ResolveAll(env, s, starved))
    decreases |starved|
  {
    if starved != [] {
      ResolveOneKeeps(env, s, starved[0]);
      ResolveAllSync(env, ResolveOne(env, s, starved[0]), starved[1..]);
    }
  }

  /* ---------------- a whole iteration ---------------- */

  lemma ForwardSync(env: Env, s: Sys, items: seq<BatchItem>, cancelled: set<nat>)
    requires Wf(env, s, {}) && Balanced(s)
    requires MidSync(env, s.(kv := Decode(env.be, s.kv, items).0), SampledSids(items), Decode(env.be, s.kv, items).1)
    ensures var (r, starved) := Forward(env, s, items, cancelled); Sync(env, r) && Ready(r, starved)
  {
    var (kv, steps) := Decode(env.be, s.kv, items);
    DecodeSteps(env.be, s.kv, items);
    WfFrame(env, s, s.(kv := kv), {});
    AcceptLoopSync(env, s.(kv := kv), SampledSids(items), steps, cancelled);
  }

  lemma AdvanceSync(env: Env, s: Sys, o: Oracle)
    requires Wf(env, s, {}) && Balanced(s) && Sync(env, s) && o.fault.None?
    ensures Sync(env, Advance(env, s, o).0) && Ready(Advance(env, s, o).0, Advance(env, s, o).1)
  {
    AcceptedKnown(env, s, {});
    assert forall k :: k in s.jobs ==> JobOk(env, k, s.jobs[k]);
    WfAddressed(env, s, {});
    AdvanceForward(env, s, o);
    var (items, jobs) := Build(env, s);
    if items != [] {
      BuildWf(env, s);
      BuildBooks(env, s);
      PassSync(env, s);
      ForwardSync(env, s.(jobs := jobs), items, o.cancelled);
    }
  }

  lemma AdvanceKeeps(env: Env, s: Sys, o: Oracle)
    requires Healthy(env, s) && o.fault.None?
    ensures var (r, starved) := Advance(env, s, o); Healthy(env, r) && Ready(r, starved)
  {
    assert Wf(env, s, {});
    AdvanceWf(env, s, o);
    AdvanceBooks(env, s, o);
    AdvanceSync(env, s, o);
  }

  /** A fault-free iteration keeps everything in sync. */
  lemma WorkSync(env: Env, s: Sys, o: Oracle)
    requires Healthy(env, s) && CollisionFree(env, s.accepted) && o.fault.None?
    ensures Healthy(env, Work(env, s, o))
  {
    AdmitLoopSync(env, s);
    var s1 := AdmitLoop(env, s);
    if s1.active != [] {
      AdvanceKeeps(env, s1, o);
      var (s2, starved) := Advance(env, s1, o);
      SweepSync(env, s2, 0, o.copyFails);
      SweepKeepsJobs(env, s2, 0, o.copyFails);
      var s3 := Sweep(env, s2, 0, o.copyFails);
      ResolveAllSync(env, s3, starved);
      SweepSync(env, ResolveAll(env, s3, starved), 0, o.copyFails);
    }
  }
}
