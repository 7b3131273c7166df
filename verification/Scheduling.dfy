/** Continuous batching (src/core/scheduler.cpp:56-85, 196-356, 368-650) as functions on the
    scheduler's whole state. A job is addressed by its slot, which is its sequence id: the
    source's job pointers become slots, and `active` keeps the order of admission. */
module Scheduling {
  import opened Types
  import opened Sequence
  import opened BlockPool
  import opened Cache
  import opened Engine

  datatype ConfigRaw = Config(
    maxBatch: nat, nBatch: nat, prefillChunk: nat, blockSize: nat, totalBlocks: nat,
    donors: nat, prefixCaching: bool, nCtxSeq: nat, queueCapacity: nat)

  type Config = c: ConfigRaw | c.maxBatch > 0 && c.nBatch > 0 && c.blockSize > 0
    witness Config(1, 1, 0, 1, 0, 0, false, 0, 0)

  /** A configuration, a backend, and whether its forward passes may throw. */
  datatype Env = Env(cfg: Config, be: Backend, mayFail: bool)

  datatype Job = Job(req: Request, st: SeqState, table: Table)

  datatype Delivery = Delivery(req: Request, result: Result)

  datatype Phase = Taking | Working | Returned

  /** `accepted`, `delivered`, `orphans` and `lost` are logs: what producers handed in, what
      was answered, the donor slots whose retained entry was overwritten, and those lost to a
      failed copy. `held` records which blocks each occupied donor slot keeps referenced,
      which the source stores only in the cache entry. */
  datatype Sys = Sys(
    queue: seq<Request>, closed: bool, accepted: seq<Request>,
    pending: seq<Request>, active: seq<SeqId>, jobs: map<SeqId, Job>, freeSlots: seq<SeqId>,
    pool: Pool, cache: CacheState, held: Ownership, kv: Kv,
    delivered: seq<Delivery>, phase: Phase, orphans: set<SeqId>, lost: set<SeqId>)

  function InitSys(env: Env): Sys {
    Sys([], false, [], [], [], map[],
        seq(env.cfg.maxBatch, i requires 0 <= i < env.cfg.maxBatch => env.cfg.maxBatch - 1 - i),
        NewPool(env.cfg.totalBlocks), NewCache(env.cfg.maxBatch, env.cfg.donors), map[], map[], [], Taking, {}, {})
  }

  function PromptOf(env: Env, req: Request): seq<Token> {
    env.be.tokenize(req.spec.prompt)
  }

  predicate Finished(j: Job) {
    j.st.gen.finished
  }

  /* ---------------- job construction ---------------- */

  const U32 := 0x1_0000_0000

  /** The context check adds two 32-bit counts before comparing. */
  function ContextNeed(prompt: seq<Token>, spec: Spec): nat {
    (|prompt| + spec.maxTokens) % U32
  }

  function MakeJob(env: Env, req: Request, slot: SeqId): Job {
    var prompt := PromptOf(env, req);
    var st := NewState(slot, req.spec, prompt);
    var needed := ContextNeed(prompt, req.spec);
    var limit := env.cfg.nCtxSeq;
    if limit > 0 && needed > limit then
      Job(req, st.(gen := Fail(st.gen, TooLongForContext(needed, limit), ContextOverflow)), EMPTY_TABLE)
    else Job(req, st, EMPTY_TABLE)
  }

  /* ---------------- donors ---------------- */

  lemma DropShrinks(c: CacheState, h: nat)
    requires h in c.entries
    ensures |Drop(c, h).entries| < |c.entries|
  {
    var m := c.entries - {h};
    assert m.Keys == c.entries.Keys - {h};
    assert |m| == |m.Keys| && |c.entries| == |c.entries.Keys|;
  }

  /** Give up the least recently used donor: its blocks, its KV and its slot. */
  ghost function ReclaimDonor(s: Sys): (r: Sys)
    requires HasRetained(s.cache)
    ensures |r.cache.entries| < |s.cache.entries|
  {
    var (c, e) := EvictLru(s.cache);
    DropShrinks(s.cache, LruKey(s.cache));
    s.(cache := c, pool := Free(s.pool, e.blocks), kv := Release(s.kv, e.sid), held := s.held - {e.sid})
  }

  /** Drop donors until `n` blocks are free or no donor is left. */
  ghost function ReclaimUntil(s: Sys, n: nat): (r: Sys)
    ensures r == s.(cache := r.cache, pool := r.pool, kv := r.kv, held := r.held)
    decreases |s.cache.entries|
  {
    if |s.pool.freeList| < n && HasRetained(s.cache) then ReclaimUntil(ReclaimDonor(s), n) else s
  }

  /* ---------------- admission ---------------- */

  datatype Outcome = Admitted | Rejected | Deferred

  function Headroom(s: Sys): nat {
    if s.active == [] then 0 else |s.active| + 1
  }

  /** Inherit the KV of the longest cached prefix instead of prefilling it. */
  function SharePrefix(env: Env, s: Sys, job: Job): (r: (Sys, Job))
    ensures r.0 == s.(cache := r.0.cache, pool := r.0.pool, kv := r.0.kv) && r.1.req == job.req
  {
    if env.cfg.prefixCaching && !Finished(job) then
      var (c, hit) := FindLongest(env.be.hash, s.cache, job.st.prompt, env.cfg.blockSize);
      if hit.Some? && hit.value.sid != job.st.sid then
        var e := hit.value;
        var (q, t) := AdoptSharedPrefix(s.pool, job.table, e.blocks, e.nTokens);
        (s.(cache := c, pool := q, kv := Copy(s.kv, e.sid, job.st.sid, e.nTokens)),
         job.(table := t, st := AdoptCachedPrefix(job.st, e.nTokens)))
      else (s.(cache := c), job)
    else (s, job)
  }

  /** The front pending request becomes the newest active job. */
  function Enroll(s: Sys, job: Job): Sys
    requires s.pending != [] && s.freeSlots != []
  {
    var slot := Last(s.freeSlots);
    s.(pending := s.pending[1..], freeSlots := DropLast(s.freeSlots),
       active := s.active + [slot], jobs := s.jobs[slot := job])
  }

  /** The job the front pending request would become. */
  function FrontJob(env: Env, s: Sys): Job
    requires s.pending != [] && s.freeSlots != []
  {
    MakeJob(env, s.pending[0], Last(s.freeSlots))
  }

  /** Blocks the front request must find free: its prompt's, plus one spare per sequence
      when it would run beside others. */
  function Want(env: Env, s: Sys): nat
    requires s.pending != []
  {
    BlocksFor(env.cfg.blockSize, |PromptOf(env, s.pending[0])|)
  }

  /** Register the front request's slot and give up donors for it. */
  ghost function MakeRoom(env: Env, s: Sys): (r: Sys)
    requires s.pending != [] && s.freeSlots != []
    ensures r == s.(cache := r.cache, pool := r.pool, kv := r.kv, held := r.held)
  {
    ReclaimUntil(s.(kv := Begin(s.kv, Last(s.freeSlots), s.pending[0].spec.sampling)), Want(env, s) + Headroom(s))
  }

  lemma MakeRoomReclaims(env: Env, s: Sys, n: nat)
    requires s.pending != [] && s.freeSlots != [] && n == Want(env, s) + Headroom(s)
    ensures MakeRoom(env, s) == ReclaimUntil(s.(kv := Begin(s.kv, Last(s.freeSlots), s.pending[0].spec.sampling)), n)
  {
  }

  /** Reserve the prompt's blocks, share a cached prefix and enroll. */
  function Admit(env: Env, s: Sys): (r: Option<Sys>)
    requires s.pending != [] && s.freeSlots != []
    ensures r.Some? ==> |r.value.pending| == |s.pending| - 1
  {
    var job := FrontJob(env, s);
    var (q, t, ok) := EnsureCapacity(env.cfg.blockSize, s.pool, job.table, |job.st.prompt|);
    if Finished(job) then Some(Enroll(s, job))
    else if |s.pool.freeList| >= Want(env, s) + Headroom(s) && ok then
      var (s2, j2) := SharePrefix(env, s.(pool := q), job.(table := t));
      Some(Enroll(s2, j2))
    else None
  }

  /** Nothing runs, so waiting cannot help: answer with an error. */
  function Reject(env: Env, s: Sys): Sys
    requires s.pending != [] && s.freeSlots != []
  {
    var job := FrontJob(env, s);
    var g := Finish(Fail(job.st.gen, PoolTooSmall(Want(env, s), |s.pool.refs|), ContextOverflow));
    s.(kv := Release(s.kv, Last(s.freeSlots)), pending := s.pending[1..],
       delivered := s.delivered + [Delivery(s.pending[0], ResultOf(g, |job.st.prompt|))])
  }

  /** Decide the front pending request: admit it, reject it, or leave it for later. */
  ghost function AdmitFront(env: Env, s: Sys): (r: (Sys, Outcome))
    requires s.pending != [] && s.freeSlots != []
    ensures r.1.Deferred? <==> |r.0.pending| == |s.pending|
    ensures !r.1.Deferred? ==> |r.0.pending| == |s.pending| - 1
  {
    var s1 := MakeRoom(env, s);
    match Admit(env, s1)
    case Some(s2) => (s2, Admitted)
    case None =>
      if s1.active == [] then (Reject(env, s1), Rejected)
      else (s1.(kv := Release(s1.kv, Last(s1.freeSlots))), Deferred)
  }

  ghost function AdmitLoop(env: Env, s: Sys): Sys
    decreases |s.pending|
  {
    if s.pending == [] || s.freeSlots == [] then s
    else
      var (s1, outcome) := AdmitFront(env, s);
      if outcome.Deferred? then s1 else AdmitLoop(env, s1)
  }

  /* ---------------- the mixed batch ---------------- */

  /** Decodes claim one token each, first. */
  function DecodeItems(active: seq<SeqId>, jobs: map<SeqId, Job>, budget: nat): seq<BatchItem> {
    if active == [] then []
    else if active[0] !in jobs || Finished(jobs[active[0]]) || Prefilling(jobs[active[0]].st) then
      DecodeItems(active[1..], jobs, budget)
    else if budget == 0 then []
    else [DecodeItem(jobs[active[0]].st)] + DecodeItems(active[1..], jobs, budget - 1)
  }

  /** Prefills share the budget that is left, at most `cap` tokens per sequence. */
  function PrefillItems(active: seq<SeqId>, jobs: map<SeqId, Job>, budget: nat, cap: nat): (seq<BatchItem>, map<SeqId, Job>)
    decreases |active|
  {
    if active == [] then ([], jobs)
    else if active[0] !in jobs || Finished(jobs[active[0]]) || !Prefilling(jobs[active[0]].st) then
      PrefillItems(active[1..], jobs, budget, cap)
    else
      var job := jobs[active[0]];
      var take := Min(budget, Min(cap, PrefillRemaining(job.st)));
      if take == 0 then PrefillItems(active[1..], jobs, budget, cap)
      else
        var (item, st) := TakePrefillChunk(job.st, take);
        var (items, jobs') := PrefillItems(active[1..], jobs[active[0] := job.(st := st)], budget - take, cap);
        ([item] + items, jobs')
  }

  function ChunkCap(cfg: Config): nat {
    if cfg.prefillChunk == 0 then cfg.nBatch else cfg.prefillChunk
  }

  lemma {:induction false} DecodeItemsBounded(active: seq<SeqId>, jobs: map<SeqId, Job>, budget: nat)
    ensures |DecodeItems(active, jobs, budget)| <= budget
  {
    if active != [] {
      DecodeItemsBounded(active[1..], jobs, budget);
      if budget > 0 {
        DecodeItemsBounded(active[1..], jobs, budget - 1);
      }
    }
  }

  function Build(env: Env, s: Sys): (seq<BatchItem>, map<SeqId, Job>) {
    var decodes := DecodeItems(s.active, s.jobs, env.cfg.nBatch);
    DecodeItemsBounded(s.active, s.jobs, env.cfg.nBatch);
    var (prefills, jobs) := PrefillItems(s.active, s.jobs, env.cfg.nBatch - |decodes|, ChunkCap(env.cfg));
    (decodes + prefills, jobs)
  }

  /* ---------------- accepting sampled tokens ---------------- */

  /** The tokens a job's table has to cover. */
  function Tokens(j: Job): nat {
    |j.st.prompt| + j.st.gen.completion
  }

  function WholeBlocks(env: Env, j: Job): nat {
    |j.st.prompt| / env.cfg.blockSize
  }

  /** The part of a prompt that fills whole blocks: all that can be shared. */
  function PrefixTokens(env: Env, j: Job): (n: nat)
    ensures n == WholeBlocks(env, j) * env.cfg.blockSize && n <= |j.st.prompt|
  {
    WholeBlocks(env, j) * env.cfg.blockSize
  }

  function PrefixKey(env: Env, j: Job): nat {
    env.be.hash(j.st.prompt[..PrefixTokens(env, j)])
  }

  /** The donor slot whose entry a store under `h` replaces, if any. */
  function Overwritten(c: CacheState, h: nat): set<SeqId> {
    if h in c.entries && c.entries[h].entry.retained then {c.entries[h].entry.sid} else {}
  }

  /** Offer a prefilled prompt's whole blocks to later requests. */
  function Publish(env: Env, s: Sys, sid: SeqId): (r: Sys)
    requires sid in s.jobs
    ensures r == s.(cache := r.cache, orphans := r.orphans)
  {
    var j := s.jobs[sid];
    var nb := WholeBlocks(env, j);
    if env.cfg.prefixCaching && !Prefilling(j.st) && 0 < nb <= |j.table.blocks| then
      s.(cache := Insert(s.cache, PrefixKey(env, j),
                         Entry(sid, PrefixTokens(env, j), j.table.blocks[..nb], false)),
         orphans := s.orphans + Overwritten(s.cache, PrefixKey(env, j)))
    else s
  }

  function SetGen(j: Job, g: Gen): Job {
    j.(st := j.st.(gen := g))
  }

  /** Advance one sequence by its sampled token; the flag says it could not get the block
      it needs. */
  function AcceptOne(env: Env, s: Sys, sid: SeqId, next: NextToken, cancelled: bool): (r: (Sys, bool))
    requires sid in s.jobs
    ensures r.0 == s.(cache := r.0.cache, pool := r.0.pool, jobs := r.0.jobs, orphans := r.0.orphans)
    ensures r.0.jobs.Keys == s.jobs.Keys
  {
    var j := s.jobs[sid];
    var g := Accept(env.be.piece, j.st.spec, j.st.gen, next, cancelled);
    if g.finished then (s.(jobs := s.jobs[sid := SetGen(j, Finish(g))]), false)
    else
      var j1 := SetGen(j, g);
      var (q, t, ok) := EnsureCapacity(env.cfg.blockSize, s.pool, j1.table, Tokens(j1));
      if !ok then (s.(jobs := s.jobs[sid := j1]), true)
      else (Publish(env, s.(pool := q, jobs := s.jobs[sid := j1.(table := t)]), sid), false)
  }

  function AcceptLoop(env: Env, s: Sys, sampling: seq<SeqId>, steps: seq<GenStep>, cancelled: set<nat>): (Sys, seq<SeqId>)
    requires |steps| == |sampling| && forall i :: 0 <= i < |sampling| ==> sampling[i] in s.jobs
    decreases |sampling|
  {
    if sampling == [] then (s, [])
    else
      var sid := sampling[0];
      var (s1, short) := AcceptOne(env, s, sid, steps[0].next, s.jobs[sid].req.id in cancelled);
      var (s2, starved) := AcceptLoop(env, s1, sampling[1..], steps[1..], cancelled);
      (s2, (if short then [sid] else []) + starved)
  }

  /** A backend failure fails every unfinished sequence. */
  function FailAll(jobs: map<SeqId, Job>): map<SeqId, Job> {
    map k | k in jobs :: if Finished(jobs[k]) then jobs[k] else SetGen(jobs[k], Fail(jobs[k].st.gen, Failure.Backend, Error))
  }

  /* ---------------- retiring ---------------- */

  /** Free a donor slot if need be; the flag says one is available. */
  ghost function MakeDonorRoom(s: Sys): (r: Sys)
    ensures r == s.(cache := r.cache, pool := r.pool, kv := r.kv, held := r.held)
  {
    if s.cache.freeDonors == [] && HasRetained(s.cache) then ReclaimDonor(s) else s
  }

  /** The copy threw: the engine slot is released but the donor slot is not given back. */
  function LoseDonorSlot(s: Sys): (r: Sys)
    requires s.cache.freeDonors != []
    ensures r == s.(cache := r.cache, kv := r.kv, lost := r.lost)
  {
    var slot := Last(s.cache.freeDonors);
    s.(cache := EvictSequence(s.cache.(freeDonors := DropLast(s.cache.freeDonors)), slot),
       kv := Release(Begin(s.kv, slot, DEFAULT_SAMPLING), slot), lost := s.lost + {slot})
  }

  /** A donor slot has taken over the first `nb` blocks and `n` KV positions of `sid`. */
  function WithDonor(s: Sys, sid: SeqId, blocks: seq<BlockId>, n: nat): (r: Sys)
    requires s.cache.freeDonors != []
    ensures r == s.(cache := r.cache, pool := r.pool, kv := r.kv, held := r.held)
  {
    var slot := Last(s.cache.freeDonors);
    s.(cache := s.cache.(freeDonors := DropLast(s.cache.freeDonors)),
       pool := IncrefAll(s.pool, blocks),
       kv := Copy(Begin(s.kv, slot, DEFAULT_SAMPLING), sid, slot, n),
       held := s.held[slot := blocks])
  }

  /** ... and the cache names it, replacing whatever was stored under the same key. */
  function StoreDonor(env: Env, s: Sys, j: Job): (r: Sys)
    requires s.cache.freeDonors != [] && WholeBlocks(env, j) <= |j.table.blocks|
    ensures r == s.(cache := r.cache, pool := r.pool, kv := r.kv, held := r.held, orphans := r.orphans)
  {
    var n, blocks := PrefixTokens(env, j), j.table.blocks[..WholeBlocks(env, j)];
    var r := WithDonor(s, j.st.sid, blocks, n);
    r.(cache := Insert(r.cache, PrefixKey(env, j), Entry(Last(s.cache.freeDonors), n, blocks, true)),
       orphans := s.orphans + Overwritten(s.cache, PrefixKey(env, j)))
  }

  predicate Retainable(env: Env, j: Job) {
    env.cfg.prefixCaching && env.cfg.donors != 0 && 0 < WholeBlocks(env, j) <= |j.table.blocks|
  }

  /** Keep a retiring job's whole-block prompt prefix in a donor slot. */
  ghost function RetainPrefix(env: Env, s: Sys, j: Job, copyFails: bool): (r: Sys)
    ensures r == s.(cache := r.cache, pool := r.pool, kv := r.kv, held := r.held, orphans := r.orphans, lost := r.lost)
  {
    if !Retainable(env, j) then s
    else
      var s1 := MakeDonorRoom(s);
      if s1.cache.freeDonors == [] then s1
      else if copyFails then LoseDonorSlot(s1)
      else StoreDonor(env, s1, j)
  }

  /** Take a job out of the active set and give back everything it held. */
  function RemoveJob(s: Sys, i: nat): Sys
    requires i < |s.active| && s.active[i] in s.jobs
  {
    var sid := s.active[i];
    s.(pool := Free(s.pool, s.jobs[sid].table.blocks), kv := Release(s.kv, sid),
       freeSlots := s.freeSlots + [sid], active := RemoveAt(s.active, i), jobs := s.jobs - {sid})
  }

  function ForgetJob(s: Sys, sid: SeqId): Sys {
    s.(cache := EvictSequence(s.cache, sid))
  }

  ghost function RetireAt(env: Env, s: Sys, i: nat, copyFails: set<nat>): (r: Sys)
    requires i < |s.active| && s.active[i] in s.jobs
    ensures r.active == RemoveAt(s.active, i)
  {
    var sid := s.active[i];
    var j := s.jobs[sid];
    var s1 := RetainPrefix(env, ForgetJob(s, sid), j, j.req.id in copyFails);
    var s2 := RemoveJob(s1, i);
    s2.(delivered := s2.delivered + [Delivery(j.req, ResultOf(Finish(j.st.gen), |j.st.prompt|))])
  }

  ghost function Sweep(env: Env, s: Sys, i: nat, copyFails: set<nat>): Sys
    decreases |s.active| - i
  {
    if i >= |s.active| then s
    else if s.active[i] in s.jobs && Finished(s.jobs[s.active[i]]) then
      Sweep(env, RetireAt(env, s, i, copyFails), i, copyFails)
    else Sweep(env, s, i + 1, copyFails)
  }

  /* ---------------- cache exhaustion ---------------- */

  /** The most recently admitted unfinished job other than `except`, among the first `n`. */
  function Victim(active: seq<SeqId>, jobs: map<SeqId, Job>, except: SeqId, n: nat): (r: Option<nat>)
    requires n <= |active|
    ensures r.Some? ==> r.value < n && active[r.value] in jobs && !Finished(jobs[active[r.value]]) && active[r.value] != except
    ensures forall k :: (if r.Some? then r.value + 1 else 0) <= k < n && active[k] in jobs ==>
      Finished(jobs[active[k]]) || active[k] == except
  {
    if n == 0 then None
    else if active[n - 1] in jobs && !Finished(jobs[active[n - 1]]) && active[n - 1] != except then Some(n - 1)
    else Victim(active, jobs, except, n - 1)
  }

  /** Evict a job; its request goes back to the front of the line. */
  function PreemptAt(s: Sys, i: nat): Sys
    requires i < |s.active| && s.active[i] in s.jobs
  {
    var sid := s.active[i];
    var s1 := RemoveJob(ForgetJob(s, sid), i);
    s1.(pending := [s.jobs[sid].req] + s.pending)
  }

  function GrowTable(env: Env, s: Sys, sid: SeqId, needed: nat): (Sys, bool)
    requires sid in s.jobs
  {
    var j := s.jobs[sid];
    var (q, t, ok) := EnsureCapacity(env.cfg.blockSize, s.pool, j.table, needed);
    (s.(pool := q, jobs := s.jobs[sid := j.(table := t)]), ok)
  }

  /** Cache yields to work: drop donors one at a time until the starved job can grow. */
  ghost function ReclaimFor(env: Env, s: Sys, sid: SeqId, needed: nat): (r: Sys)
    requires sid in s.jobs
    ensures sid in r.jobs
    decreases |s.cache.entries|
  {
    var (grown, ok) := GrowTable(env, s, sid, needed);
    if ok then grown
    else if HasRetained(s.cache) then ReclaimFor(env, ReclaimDonor(grown), sid, needed)
    else grown
  }

  /** Then preempt the newest other job until it can grow or nobody is left to preempt. */
  function PreemptFor(env: Env, s: Sys, sid: SeqId, needed: nat): Sys
    requires sid in s.jobs
    decreases |s.active|
  {
    var (grown, ok) := GrowTable(env, s, sid, needed);
    if ok then grown
    else
      match Victim(grown.active, grown.jobs, sid, |grown.active|)
      case None => grown
      case Some(i) => PreemptFor(env, PreemptAt(grown, i), sid, needed)
  }

  ghost function ResolveOne(env: Env, s: Sys, sid: SeqId): Sys {
    if sid !in s.active || sid !in s.jobs then s
    else
      var j := s.jobs[sid];
      var need := BlocksFor(env.cfg.blockSize, Tokens(j));
      if need > |s.pool.refs| then
        s.(jobs := s.jobs[sid := SetGen(j, Finish(Fail(j.st.gen, PoolTooSmall(need, |s.pool.refs|), ContextOverflow)))])
      else PreemptFor(env, ReclaimFor(env, s, sid, Tokens(j)), sid, Tokens(j))
  }

  ghost function ResolveAll(env: Env, s: Sys, starved: seq<SeqId>): Sys
    decreases |starved|
  {
    if starved == [] then s else ResolveAll(env, ResolveOne(env, s, starved[0]), starved[1..])
  }

  /* ---------------- one iteration, and runs ---------------- */

  /** What the outside decides during one iteration: whose client has gone away, which
      retain-time copies throw, and whether the forward pass throws (and what it leaves in
      the cache when it does). */
  datatype Oracle = Oracle(cancelled: set<nat>, copyFails: set<nat>, fault: Option<map<SeqId, seq<Token>>>)

  /** The pass threw: its KV is anything, and every sequence fails. */
  function Crash(s: Sys, items: seq<BatchItem>, garbage: map<SeqId, seq<Token>>): Sys {
    s.(kv := Scramble(s.kv, Touched(items), garbage), jobs := FailAll(s.jobs))
  }

  /** Run a batch and accept what it sampled. */
  function Forward(env: Env, s: Sys, items: seq<BatchItem>, cancelled: set<nat>): (Sys, seq<SeqId>) {
    var (kv, steps) := Decode(env.be, s.kv, items);
    var sampling := SampledSids(items);
    if |steps| == |sampling| && forall i :: 0 <= i < |sampling| ==> sampling[i] in s.jobs then
      AcceptLoop(env, s.(kv := kv), sampling, steps, cancelled)
    else (s.(kv := kv), [])
  }

  /** Build the batch and run it; if the pass throws, every sequence fails. */
  function Advance(env: Env, s: Sys, o: Oracle): (Sys, seq<SeqId>) {
    var (items, jobs) := Build(env, s);
    var s1 := s.(jobs := jobs);
    if items == [] then (s1, [])
    else if o.fault.Some? then (Crash(s1, items, o.fault.value), [])
    else Forward(env, s1, items, o.cancelled)
  }

  /** Everything one iteration does after it has taken work from the queue. */
  ghost function Work(env: Env, s: Sys, o: Oracle): Sys {
    var s1 := AdmitLoop(env, s);
    if s1.active == [] then s1
    else
      var (s2, starved) := Advance(env, s1, o);
      var s3 := Sweep(env, s2, 0, o.copyFails);
      var s4 := ResolveAll(env, s3, starved);
      Sweep(env, s4, 0, o.copyFails)
  }

  datatype Event =
    | Push(req: Request)
    | Close
    | Take
    | Step(oracle: Oracle)

  /** A blocking pop waits until there is a request or the queue is closed. */
  predicate Enabled(env: Env, s: Sys, ev: Event) {
    match ev
    case Push(_) => true
    case Close => true
    case Take => s.phase == Taking && (s.active == [] && s.pending == [] && s.queue == [] ==> s.closed)
    case Step(o) => s.phase == Working && (o.fault.Some? ==> env.mayFail)
  }

  function PushRequest(env: Env, s: Sys, req: Request): Sys {
    if s.closed || |s.queue| >= env.cfg.queueCapacity then s
    else s.(queue := s.queue + [req], accepted := s.accepted + [req])
  }

  /** One turn of the loop that takes work from the queue. */
  function TakeWork(env: Env, s: Sys): Sys {
    if |s.pending| + |s.active| < env.cfg.maxBatch && s.queue != [] then
      s.(pending := s.pending + [s.queue[0]], queue := s.queue[1..])
    else if s.active == [] && s.pending == [] then s.(phase := Returned)
    else s.(phase := Working)
  }

  ghost function Iterate(env: Env, s: Sys, o: Oracle): Sys {
    Work(env, s, o).(phase := Taking)
  }

  /** A step that touches the queue: a producer, the closer, or the scheduler taking work. */
  function QueueStep(env: Env, s: Sys, ev: Event): (r: Sys)
    ensures r == s.(queue := r.queue, closed := r.closed, accepted := r.accepted, pending := r.pending, phase := r.phase)
  {
    match ev
    case Push(req) => PushRequest(env, s, req)
    case Close => s.(closed := true)
    case Take => TakeWork(env, s)
    case Step(_) => s
  }

  /** One atomic step of the system. */
  ghost function Next(env: Env, s: Sys, ev: Event): Sys {
    if ev.Step? then Iterate(env, s, ev.oracle) else QueueStep(env, s, ev)
  }

  /** The i-th event of a run is enabled and leads to the next state. */
  ghost predicate Moves(env: Env, run: seq<Sys>, events: seq<Event>, i: nat)
    requires i < |events| && |run| == |events| + 1
  {
    Enabled(env, run[i], events[i]) && run[i + 1] == Next(env, run[i], events[i])
  }

  /** Every interleaving of producers, the closer and the scheduler, from the start. */
  ghost predicate IsRun(env: Env, run: seq<Sys>, events: seq<Event>) {
    && |run| == |events| + 1 && run[0] == InitSys(env)
    && forall i: nat {:trigger Moves(env, run, events, i)} :: i < |events| ==> Moves(env, run, events, i)
  }
}
