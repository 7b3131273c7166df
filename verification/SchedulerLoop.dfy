/** The continuous scheduler as the object it is (src/core/scheduler.cpp:196-650): its fields
    change in place, its loops are loops, and each operation is proved to do exactly what its
    function in `Scheduling` says, so everything proved of runs holds of this code. */
module SchedulerLoop {
  import opened Types
  import opened Sequence
  import opened BlockPool
  import opened Cache
  import opened Engine
  import opened Scheduling
  import opened Batch
  import opened Invariants
  import opened Allocator
  import opened PrefixStore
  import opened StateMachine
  import opened Queue
  import opened Books
  import opened Runs
  import opened Configuration

  lemma Unfold(env: Env, s: Sys, slots: set<SeqId>)
    requires Sound(env, s, slots)
    ensures TicksOk(s.cache) && NoDup(s.active) && (forall k :: k in s.jobs <==> k in s.active)
    ensures Addressed(s.active, s.jobs)
  {
    assert Wf(env, s, slots);
    WfAddressed(env, s, slots);
  }

  lemma ReclaimSound(env: Env, s: Sys, slots: set<SeqId>)
    requires Sound(env, s, slots) && HasRetained(s.cache)
    ensures Sound(env, ReclaimDonor(s), slots)
  {
    assert Wf(env, s, slots);
    ReclaimDonorWf(env, s, slots);
  }

  lemma BeginSound(env: Env, s: Sys, sampling: Sampling)
    requires Sound(env, s, {}) && s.freeSlots != []
    ensures Sound(env, s.(kv := Begin(s.kv, Last(s.freeSlots), sampling)), {Last(s.freeSlots)})
  {
    assert Wf(env, s, {});
    BeginWf(env, s, sampling);
  }

  lemma AdmitSound(env: Env, s: Sys)
    requires Sound(env, s, {}) && s.pending != [] && s.freeSlots != []
    ensures Sound(env, AdmitFront(env, s).0, {})
  {
    assert Wf(env, s, {});
    AdmitFrontWf(env, s);
  }

  lemma ForgetTicks(env: Env, s: Sys, sid: SeqId)
    requires Sound(env, s, {})
    ensures TicksOk(ForgetJob(s, sid).cache)
  {
    Unfold(env, s, {});
    TicksKept(s.cache, 0, sid);
  }

  lemma PreemptSound(env: Env, s: Sys, i: nat)
    requires Sound(env, s, {}) && i < |s.active|
    ensures s.active[i] in s.jobs && Sound(env, PreemptAt(s, i), {})
  {
    assert Wf(env, s, {});
    PreemptAtWf(env, s, i);
  }

  lemma GrowSound(env: Env, s: Sys, sid: SeqId, needed: nat)
    requires Sound(env, s, {}) && sid in s.jobs
    ensures Sound(env, GrowTable(env, s, sid, needed).0, {})
  {
    assert Wf(env, s, {});
    GrowTableWf(env, s, sid, needed);
  }

  lemma ResolveSound(env: Env, s: Sys, sid: SeqId)
    requires Sound(env, s, {})
    ensures Sound(env, ResolveOne(env, s, sid), {})
  {
    assert Wf(env, s, {});
    ResolveOneWf(env, s, sid);
  }

  lemma BatchAddressed(env: Env, s: Sys)
    requires Addressed(s.active, s.jobs)
    ensures var (items, jobs) := Build(env, s);
      var steps := Decode(env.be, s.kv, items).1;
      && |steps| == |SampledSids(items)| && jobs.Keys == s.jobs.Keys
      && forall k :: 0 <= k < |SampledSids(items)| ==> SampledSids(items)[k] in jobs
  {
    BatchFits(env, s);
    StepsMatchSampling(env, s, s.kv);
  }

  /** Every stage of an iteration starts from a sound state. */
  lemma WorkSound(env: Env, s: Sys, o: Oracle)
    requires Sound(env, s, {})
    ensures var s1 := AdmitLoop(env, s);
      && Sound(env, s1, {})
      && (s1.active != [] ==>
            var (s2, starved) := Advance(env, s1, o);
            var s3 := Sweep(env, s2, 0, o.copyFails);
            && Sound(env, s2, {}) && Sound(env, s3, {}) && Sound(env, ResolveAll(env, s3, starved), {}))
    ensures Sound(env, Work(env, s, o), {})
  {
    assert Wf(env, s, {});
    WorkWf(env, s, o);
    AdmitLoopWf(env, s);
    var s1 := AdmitLoop(env, s);
    if s1.active != [] {
      AdvanceWf(env, s1, o);
      var (s2, starved) := Advance(env, s1, o);
      SweepWf(env, s2, 0, o.copyFails);
      ResolveAllWf(env, Sweep(env, s2, 0, o.copyFails), starved);
    }
  }

  /** The accept loop from step `i` on, after `starved`, leads to `goal`. */
  ghost predicate LeadsTo(env: Env, s: Sys, sampling: seq<SeqId>, steps: seq<GenStep>, cancelled: set<nat>, i: nat, starved: seq<SeqId>, goal: (Sys, seq<SeqId>)) {
    && i <= |sampling| == |steps| && (forall k :: i <= k < |sampling| ==> sampling[k] in s.jobs)
    && AcceptLoop(env, s, sampling[i..], steps[i..], cancelled).0 == goal.0
    && starved + AcceptLoop(env, s, sampling[i..], steps[i..], cancelled).1 == goal.1
  }

  lemma LeadsFrom(env: Env, s: Sys, sampling: seq<SeqId>, steps: seq<GenStep>, cancelled: set<nat>)
    requires |steps| == |sampling| && forall k :: 0 <= k < |sampling| ==> sampling[k] in s.jobs
    ensures LeadsTo(env, s, sampling, steps, cancelled, 0, [], AcceptLoop(env, s, sampling, steps, cancelled))
  {
    assert sampling[0..] == sampling && steps[0..] == steps;
  }

  lemma LeadsOn(env: Env, s: Sys, sampling: seq<SeqId>, steps: seq<GenStep>, cancelled: set<nat>, i: nat, starved: seq<SeqId>, goal: (Sys, seq<SeqId>))
    requires LeadsTo(env, s, sampling, steps, cancelled, i, starved, goal) && i < |sampling|
    ensures var sid := sampling[i];
      var (r, short) := AcceptOne(env, s, sid, steps[i].next, s.jobs[sid].req.id in cancelled);
      LeadsTo(env, r, sampling, steps, cancelled, i + 1, if short then starved + [sid] else starved, goal)
  {
    var sid := sampling[i];
    var (r, short) := AcceptOne(env, s, sid, steps[i].next, s.jobs[sid].req.id in cancelled);
    assert r.jobs.Keys == s.jobs.Keys;
    Tail(sampling, i);
    Tail(steps, i);
    Joined(starved, if short then [sid] else [], AcceptLoop(env, r, sampling[i + 1..], steps[i + 1..], cancelled).1);
    assert !short ==> starved + [] == starved;
  }

  /** One chunk is taken and the rest is built from what it leaves. */
  lemma PrefillNext(active: seq<SeqId>, jobs: map<SeqId, Job>, budget: nat, cap: nat, items: seq<BatchItem>)
    requires active != [] && active[0] in jobs && !Finished(jobs[active[0]]) && Prefilling(jobs[active[0]].st)
    requires Min(budget, Min(cap, PrefillRemaining(jobs[active[0]].st))) > 0
    ensures var job := jobs[active[0]];
      var take := Min(budget, Min(cap, PrefillRemaining(job.st)));
      var (item, st) := TakePrefillChunk(job.st, take);
      var rest := PrefillItems(active[1..], jobs[active[0] := job.(st := st)], budget - take, cap);
      && items + PrefillItems(active, jobs, budget, cap).0 == (items + [item]) + rest.0
      && PrefillItems(active, jobs, budget, cap).1 == rest.1
  {
  }

  lemma Tail<T>(s: seq<T>, i: nat)
    requires i < |s|
    ensures s[i..][0] == s[i] && s[i..][1..] == s[i + 1..]
  {
  }

  lemma Joined<T>(a: seq<T>, b: seq<T>, c: seq<T>)
    ensures a + (b + c) == (a + b) + c
  {
  }

  lemma LeadsThere(env: Env, s: Sys, sampling: seq<SeqId>, steps: seq<GenStep>, cancelled: set<nat>, starved: seq<SeqId>, goal: (Sys, seq<SeqId>))
    requires LeadsTo(env, s, sampling, steps, cancelled, |sampling|, starved, goal)
    ensures (s, starved) == goal
  {
    assert starved + [] == starved;
  }

  /** A request that has failed already, or whose blocks are reserved, is enrolled. */
  lemma AdmitsTo(env: Env, s: Sys, job: Job, s1: Sys, j1: Job)
    requires s.pending != [] && s.freeSlots != [] && job == FrontJob(env, s)
    requires if Finished(job) then (s1, j1) == (s, job)
      else var (q, t, ok) := EnsureCapacity(env.cfg.blockSize, s.pool, job.table, |job.st.prompt|);
        |s.pool.freeList| >= Want(env, s) + Headroom(s) && ok && (s1, j1) == (s.(pool := q), job.(table := t))
    ensures var (s2, j2) := SharePrefix(env, s1, j1); Admit(env, s) == Some(Enroll(s2, j2))
  {
  }

  /** As many waiting requests taken as there is room for. */
  function Filled(env: Env, s: Sys): Sys {
    var used := |s.pending| + |s.active|;
    var k := Min(if used < env.cfg.maxBatch then env.cfg.maxBatch - used else 0, |s.queue|);
    s.(pending := s.pending + s.queue[..k], queue := s.queue[k..])
  }

  class Scheduler {
    const env: Env
    const blocks: BlockAllocator
    const prefixes: PrefixCache
    const engine: KvEngine
    var pending: seq<Request>
    var active: seq<SeqId>
    var jobs: map<SeqId, Job>
    var freeSlots: seq<SeqId>
    var delivered: seq<Delivery>
    ghost var held: Ownership
    ghost var orphans: set<SeqId>
    ghost var lost: set<SeqId>
    /** The queue and its log, which the scheduler thread does not touch while it works. */
    ghost var world: Sys

    ghost predicate Wired()
      reads this, blocks, prefixes
    {
      && blocks.Valid() && blocks.blockSize == env.cfg.blockSize && engine.be == env.be
      && prefixes.donorCapacity == env.cfg.donors
    }

    ghost function View(): Sys
      reads this, blocks, blocks.refcounts, prefixes, engine
    {
      world.(pending := pending, active := active, jobs := jobs, freeSlots := freeSlots,
             pool := blocks.View(), cache := prefixes.View(), held := held, kv := engine.kv,
             delivered := delivered, orphans := orphans, lost := lost)
    }

    /** Slots are handed out lowest first. */
    static method LowestFirst(n: nat) returns (slots: seq<SeqId>)
      ensures slots == seq(n, i requires 0 <= i < n => n - 1 - i)
    {
      slots := [];
      var i: nat := n;
      while i > 0
        invariant 0 <= i <= n && slots == seq(n - i, k requires 0 <= k < n - i => n - 1 - k)
      {
        slots := slots + [i - 1];
        i := i - 1;
      }
    }

    /** Clamp what was asked for to what the engine can do, size the pool, and start idle. The
        donor ids are fixed before a batch size of 0 becomes 1, so they follow the batch slots
        unless that is what was asked for (`DonorsAreApart`). */
    constructor (r: Requested, caps: Caps, be: Backend, capacity: nat, mayFail: bool)
      requires caps.nBatch > 0
      ensures env == Env(Configure(r, caps, capacity), be, mayFail) && Wired()
      ensures View() == InitSys(env).(cache := NewCache(FirstDonor(r, caps), DonorCount(r, caps)))
      ensures r.maxBatch > 0 || DonorCount(r, caps) == 0 ==> View() == InitSys(env)
      ensures fresh(blocks) && fresh(blocks.refcounts) && fresh(prefixes) && fresh(engine)
    {
      var cfg, first := Clamp(r, caps, capacity);
      var slots := LowestFirst(cfg.maxBatch);
      env := Env(cfg, be, mayFail);
      blocks := new BlockAllocator(cfg.totalBlocks, cfg.blockSize);
      prefixes := new PrefixCache();
      engine := new KvEngine(be);
      pending, active, jobs, delivered := [], [], map[], [];
      held, orphans, lost, world := map[], {}, {}, InitSys(Env(cfg, be, mayFail));
      freeSlots := slots;
      new;
      prefixes.ConfigureDonors(first, cfg.donors);
      assert cfg.donors == 0 ==> NewCache(first, 0) == NewCache(cfg.maxBatch, 0);
    }

    /* ---------------- giving up donors ---------------- */

    /** Give back everything the least recently used donor holds, if there is one. */
    method ReclaimDonorBlocks() returns (freed: bool)
      requires Wired() && TicksOk(prefixes.View())
      modifies this, blocks, blocks.refcounts, prefixes, engine
      ensures Wired() && world == old(world)
      ensures freed <==> HasRetained(old(prefixes.View()))
      ensures View() == if freed then ReclaimDonor(old(View())) else old(View())
    {
      var victim := prefixes.EvictLruRetained();
      if victim.None? {
        return false;
      }
      blocks.Free(victim.value.blocks);
      engine.ReleaseSequence(victim.value.sid);
      held := held - {victim.value.sid};
      freed := true;
    }

    method ReclaimUntilFree(n: nat, ghost slots: set<SeqId>)
      requires Wired() && Sound(env, View(), slots)
      modifies this, blocks, blocks.refcounts, prefixes, engine
      ensures Wired() && world == old(world) && View() == ReclaimUntil(old(View()), n)
    {
      var more := true;
      while |blocks.freeList| < n && more
        invariant Wired() && world == old(world) && Sound(env, View(), slots)
        invariant ReclaimUntil(View(), n) == ReclaimUntil(old(View()), n)
        invariant !more ==> !HasRetained(View().cache)
        decreases |prefixes.entries|, more
      {
        ghost var s := View();
        Unfold(env, s, slots);
        if HasRetained(s.cache) {
          ReclaimSound(env, s, slots);
        }
        more := ReclaimDonorBlocks();
      }
    }

    /* ---------------- admission ---------------- */

    /** Grow a page table by its shortfall, or change nothing. */
    method Grow(t: Table, n: nat) returns (u: Table, ok: bool)
      requires Wired()
      modifies blocks, blocks.refcounts
      ensures Wired()
      ensures (blocks.View(), u, ok) == EnsureCapacity(env.cfg.blockSize, old(blocks.View()), t, n)
    {
      u := t;
      var needed := BlocksFor(env.cfg.blockSize, n);
      if needed > |t.blocks| {
        var extra := blocks.Allocate(needed - |t.blocks|);
        if extra.None? {
          return t, false;
        }
        u := u.(blocks := t.blocks + extra.value);
      }
      return u.(tokens := n), true;
    }

    method Reference(ids: seq<BlockId>)
      requires Wired()
      modifies blocks.refcounts
      ensures Wired() && blocks.View() == IncrefAll(old(blocks.View()), ids)
    {
      var i := 0;
      while i < |ids|
        invariant i <= |ids| && Wired()
        invariant IncrefAll(blocks.View(), ids[i..]) == IncrefAll(old(blocks.View()), ids)
      {
        assert ids[i..][1..] == ids[i + 1..];
        blocks.Incref(ids[i]);
        i := i + 1;
      }
      assert ids[i..] == [];
    }

    /** Inherit the KV and the blocks of the longest cached prefix. */
    method Share(job: Job) returns (r: Job)
      requires Wired()
      modifies blocks, blocks.refcounts, prefixes, engine
      ensures Wired() && (View(), r) == SharePrefix(env, old(View()), job)
    {
      r := job;
      if env.cfg.prefixCaching && !Finished(job) {
        var hit := prefixes.FindLongest(env.be.hash, job.st.prompt, env.cfg.blockSize);
        if hit.Some? && hit.value.sid != job.st.sid {
          var e := hit.value;
          engine.CopySequence(e.sid, job.st.sid, e.nTokens);
          Reference(e.blocks);
          var tokens := if job.table.tokens < e.nTokens then e.nTokens else job.table.tokens;
          r := job.(table := Table(job.table.blocks + e.blocks, tokens, |e.blocks|, e.nTokens),
                    st := AdoptCachedPrefix(job.st, e.nTokens));
        }
      }
    }

    /** Register the front request's slot and give up donors for it. */
    method PrepareFront()
      requires Wired() && Sound(env, View(), {}) && pending != [] && freeSlots != []
      modifies this, blocks, blocks.refcounts, prefixes, engine
      ensures Wired() && world == old(world) && View() == MakeRoom(env, old(View()))
    {
      ghost var s := View();
      var slot := freeSlots[|freeSlots| - 1];
      engine.BeginSequence(slot, pending[0].spec.sampling);
      var want := BlocksFor(env.cfg.blockSize, |PromptOf(env, pending[0])|);
      var headroom := if active == [] then 0 else |active| + 1;
      var n := want + headroom;
      assert n == Want(env, s) + Headroom(s);
      MakeRoomReclaims(env, s, n);
      BeginSound(env, s, pending[0].spec.sampling);
      assert View() == s.(kv := Begin(s.kv, Last(s.freeSlots), pending[0].spec.sampling));
      ReclaimUntilFree(n, {slot});
    }

    /** Reserve the prompt's blocks, unless they and the headroom are not there. */
    method Reserve(job: Job, headroom: nat) returns (r: Job, fits: bool)
      requires Wired()
      modifies blocks, blocks.refcounts
      ensures Wired()
      ensures var want := BlocksFor(env.cfg.blockSize, |job.st.prompt|);
        var (q, t, ok) := EnsureCapacity(env.cfg.blockSize, old(blocks.View()), job.table, |job.st.prompt|);
        if old(|blocks.freeList|) >= want + headroom && ok then fits && blocks.View() == q && r == job.(table := t)
        else !fits && blocks.View() == old(blocks.View())
    {
      r, fits := job, false;
      if |blocks.freeList| >= BlocksFor(env.cfg.blockSize, |job.st.prompt|) + headroom {
        var t;
        t, fits := Grow(job.table, |job.st.prompt|);
        r := job.(table := t);
      }
    }

    method EnrollFront(job: Job)
      requires pending != [] && freeSlots != []
      modifies this
      ensures world == old(world) && View() == Enroll(old(View()), job)
    {
      var slot := freeSlots[|freeSlots| - 1];
      pending := pending[1..];
      freeSlots := freeSlots[..|freeSlots| - 1];
      active := active + [slot];
      jobs := jobs[slot := job];
    }

    /** Enroll the front request if it has already failed or its blocks could be reserved. */
    method TryAdmit() returns (fits: bool)
      requires Wired() && pending != [] && freeSlots != []
      modifies this, blocks, blocks.refcounts, prefixes, engine
      ensures Wired() && world == old(world)
      ensures fits == Admit(env, old(View())).Some?
      ensures View() == if fits then Admit(env, old(View())).value else old(View())
    {
      ghost var s := View();
      var slot := freeSlots[|freeSlots| - 1];
      var job := MakeJob(env, pending[0], slot);
      assert job == FrontJob(env, s) && BlocksFor(env.cfg.blockSize, |job.st.prompt|) == Want(env, s);
      fits := Finished(job);
      if !fits {
        job, fits := Reserve(job, if active == [] then 0 else |active| + 1);
      }
      if fits {
        AdmitsTo(env, s, FrontJob(env, s), View(), job);
        job := Share(job);
        EnrollFront(job);
      }
    }

    /** Nothing runs and it does not fit: answer with an error. */
    method RejectFront()
      requires Wired() && pending != [] && freeSlots != []
      modifies this, engine
      ensures Wired() && world == old(world) && View() == Reject(env, old(View()))
    {
      var slot := freeSlots[|freeSlots| - 1];
      var job := MakeJob(env, pending[0], slot);
      var want := BlocksFor(env.cfg.blockSize, |job.st.prompt|);
      var g := Finish(Fail(job.st.gen, PoolTooSmall(want, blocks.total), ContextOverflow));
      engine.ReleaseSequence(slot);
      delivered := delivered + [Delivery(pending[0], ResultOf(g, |job.st.prompt|))];
      pending := pending[1..];
    }

    /** Decide the front pending request. */
    method AdmitOne() returns (outcome: Outcome)
      requires Wired() && Sound(env, View(), {}) && pending != [] && freeSlots != []
      modifies this, blocks, blocks.refcounts, prefixes, engine
      ensures Wired() && world == old(world)
      ensures (View(), outcome) == AdmitFront(env, old(View()))
    {
      PrepareFront();
      var fits := TryAdmit();
      if fits {
        outcome := Admitted;
      } else if active == [] {
        RejectFront();
        outcome := Rejected;
      } else {
        engine.ReleaseSequence(freeSlots[|freeSlots| - 1]);
        outcome := Deferred;
      }
    }

    method AdmitPending()
      requires Wired() && Sound(env, View(), {})
      modifies this, blocks, blocks.refcounts, prefixes, engine
      ensures Wired() && world == old(world) && View() == AdmitLoop(env, old(View()))
    {
      var waiting := false;
      while pending != [] && freeSlots != [] && !waiting
        invariant Wired() && world == old(world) && Sound(env, View(), {})
        invariant if waiting then View() == AdmitLoop(env, old(View())) else AdmitLoop(env, View()) == AdmitLoop(env, old(View()))
        decreases |pending|, !waiting
      {
        AdmitSound(env, View());
        var outcome := AdmitOne();
        waiting := outcome.Deferred?;
      }
    }

    /* ---------------- the mixed batch ---------------- */

    /** Decodes claim one token each, first; prefills share what is left. */
    method BuildBatch() returns (items: seq<BatchItem>)
      requires forall k :: k in active ==> k in jobs
      modifies this`jobs
      ensures (items, jobs) == Build(env, old(View()))
    {
      items := [];
      var budget := env.cfg.nBatch;
      var i := 0;
      ghost var decodes := DecodeItems(active, jobs, env.cfg.nBatch);
      DecodeItemsBounded(active, jobs, env.cfg.nBatch);
      while i < |active|
        invariant i <= |active| && jobs == old(jobs)
        invariant items + DecodeItems(active[i..], jobs, budget) == decodes && budget == env.cfg.nBatch - |items|
      {
        assert active[i..][1..] == active[i + 1..];
        var job := jobs[active[i]];
        if !Finished(job) && !Prefilling(job.st) {
          if budget == 0 {
            break;
          }
          assert items + DecodeItems(active[i..], jobs, budget) == (items + [DecodeItem(job.st)]) + DecodeItems(active[i + 1..], jobs, budget - 1);
          items := items + [DecodeItem(job.st)];
          budget := budget - 1;
        }
        i := i + 1;
      }
      assert items == decodes;
      items := Prefills(items, budget);
    }

    method Prefills(decodes: seq<BatchItem>, left: nat) returns (items: seq<BatchItem>)
      requires forall k :: k in active ==> k in jobs
      modifies this`jobs
      ensures items == decodes + PrefillItems(active, old(jobs), left, ChunkCap(env.cfg)).0
      ensures jobs == PrefillItems(active, old(jobs), left, ChunkCap(env.cfg)).1
    {
      items := decodes;
      var budget, cap, i := left, ChunkCap(env.cfg), 0;
      ghost var goal := PrefillItems(active, jobs, left, cap);
      while i < |active|
        invariant i <= |active| && jobs.Keys == old(jobs.Keys)
        invariant items + PrefillItems(active[i..], jobs, budget, cap).0 == decodes + goal.0
        invariant PrefillItems(active[i..], jobs, budget, cap).1 == goal.1
      {
        assert active[i..][1..] == active[i + 1..];
        var job := jobs[active[i]];
        if !Finished(job) && Prefilling(job.st) && budget > 0 {
          var take := Min(budget, Min(cap, PrefillRemaining(job.st)));
          if take > 0 {
            var (item, st) := TakePrefillChunk(job.st, take);
            PrefillNext(active[i..], jobs, budget, cap, items);
            jobs := jobs[active[i] := job.(st := st)];
            budget := budget - take;
            items := items + [item];
          }
        }
        i := i + 1;
      }
      assert items + [] == items;
    }

    /* ---------------- accepting sampled tokens ---------------- */

    /** Offer a prefilled prompt's whole blocks to later requests. */
    method PublishPrefix(sid: SeqId)
      requires Wired() && sid in jobs
      modifies this, prefixes
      ensures Wired() && world == old(world) && View() == Publish(env, old(View()), sid)
    {
      var j := jobs[sid];
      var nb := WholeBlocks(env, j);
      if env.cfg.prefixCaching && !Prefilling(j.st) && 0 < nb <= |j.table.blocks| {
        orphans := orphans + Overwritten(prefixes.View(), PrefixKey(env, j));
        prefixes.Insert(PrefixKey(env, j), Entry(sid, PrefixTokens(env, j), j.table.blocks[..nb], false));
      }
    }

    /** Advance one sequence by its sampled token; says whether it could not get its block. */
    method Advance1(sid: SeqId, next: NextToken, gone: bool) returns (short: bool)
      requires Wired() && sid in jobs
      modifies this, blocks, blocks.refcounts, prefixes
      ensures Wired() && world == old(world)
      ensures (View(), short) == AcceptOne(env, old(View()), sid, next, gone)
    {
      var j := jobs[sid];
      var g := Accept(env.be.piece, j.st.spec, j.st.gen, next, gone);
      if g.finished {
        jobs := jobs[sid := SetGen(j, Finish(g))];
        return false;
      }
      j := SetGen(j, g);
      var t, ok := Grow(j.table, Tokens(j));
      jobs := jobs[sid := j.(table := t)];
      if ok {
        PublishPrefix(sid);
      }
      short := !ok;
    }

    method AcceptSampled(sampling: seq<SeqId>, steps: seq<GenStep>, cancelled: set<nat>) returns (starved: seq<SeqId>)
      requires Wired() && |steps| == |sampling| && forall k :: 0 <= k < |sampling| ==> sampling[k] in jobs
      modifies this, blocks, blocks.refcounts, prefixes
      ensures Wired() && world == old(world)
      ensures (View(), starved) == AcceptLoop(env, old(View()), sampling, steps, cancelled)
    {
      starved := [];
      var i := 0;
      ghost var goal := AcceptLoop(env, View(), sampling, steps, cancelled);
      LeadsFrom(env, View(), sampling, steps, cancelled);
      while i < |sampling|
        invariant i <= |sampling| && Wired() && world == old(world)
        invariant LeadsTo(env, View(), sampling, steps, cancelled, i, starved, goal)
      {
        LeadsOn(env, View(), sampling, steps, cancelled, i, starved, goal);
        var sid := sampling[i];
        var short := Advance1(sid, steps[i].next, jobs[sid].req.id in cancelled);
        if short {
          starved := starved + [sid];
        }
        i := i + 1;
      }
      LeadsThere(env, View(), sampling, steps, cancelled, starved, goal);
    }

    /* ---------------- retiring ---------------- */

    method TakeSlot() returns (slot: Option<SeqId>)
      requires Wired()
      modifies prefixes
      ensures Wired() && world == old(world)
      ensures var s := old(View());
        if s.cache.freeDonors == [] then slot.None? && View() == s
        else slot == Some(Last(s.cache.freeDonors)) && View() == s.(cache := s.cache.(freeDonors := DropLast(s.cache.freeDonors)))
    {
      slot := prefixes.TakeDonorSlot();
    }

    /** A free donor slot, made by eviction if need be. */
    method FindDonorSlot() returns (slot: Option<SeqId>)
      requires Wired() && TicksOk(prefixes.View())
      modifies this, blocks, blocks.refcounts, prefixes, engine
      ensures Wired() && world == old(world)
      ensures slot.Some? <==> MakeDonorRoom(old(View())).cache.freeDonors != []
      ensures var s := MakeDonorRoom(old(View()));
        if slot.None? then View() == s
        else slot.value == Last(s.cache.freeDonors) && View() == s.(cache := s.cache.(freeDonors := DropLast(s.cache.freeDonors)))
    {
      slot := TakeSlot();
      if slot.None? {
        var freed := ReclaimDonorBlocks();
        if freed {
          slot := TakeSlot();
        }
      }
    }

    /** Keep a retiring job's whole-block prompt prefix in a donor slot. */
    method RetainInDonor(j: Job, copyFails: bool)
      requires Wired() && TicksOk(prefixes.View())
      modifies this, blocks, blocks.refcounts, prefixes, engine
      ensures Wired() && world == old(world)
      ensures View() == RetainPrefix(env, old(View()), j, copyFails)
    {
      if !Retainable(env, j) {
        return;
      }
      var slot := FindDonorSlot();
      if slot.None? {
        return;
      }
      engine.BeginSequence(slot.value, DEFAULT_SAMPLING);
      if copyFails {
        engine.ReleaseSequence(slot.value);
        prefixes.EvictSequence(slot.value);
        lost := lost + {slot.value};
        return;
      }
      var n := PrefixTokens(env, j);
      engine.CopySequence(j.st.sid, slot.value, n);
      var kept := j.table.blocks[..WholeBlocks(env, j)];
      Reference(kept);
      held := held[slot.value := kept];
      orphans := orphans + Overwritten(prefixes.View(), PrefixKey(env, j));
      prefixes.Retain(PrefixKey(env, j), slot.value, n, kept);
    }

    method Retire(i: nat, copyFails: set<nat>)
      requires Wired() && Sound(env, View(), {}) && i < |active|
      modifies this, blocks, blocks.refcounts, prefixes, engine
      ensures Wired() && world == old(world)
      ensures old(active[i] in jobs) && View() == RetireAt(env, old(View()), i, copyFails)
    {
      RetireSound(env, View(), i, copyFails);
      var sid := active[i];
      var j := jobs[sid];
      ForgetTicks(env, View(), sid);
      prefixes.EvictSequence(sid);
      RetainInDonor(j, j.req.id in copyFails);
      blocks.Free(j.table.blocks);
      engine.ReleaseSequence(sid);
      freeSlots := freeSlots + [sid];
      active := active[..i] + active[i + 1..];
      jobs := jobs - {sid};
      delivered := delivered + [Delivery(j.req, ResultOf(Finish(j.st.gen), |j.st.prompt|))];
    }

    /** Sweep finished sequences out, in order. */
    method RetireFinished(copyFails: set<nat>)
      requires Wired() && Sound(env, View(), {})
      modifies this, blocks, blocks.refcounts, prefixes, engine
      ensures Wired() && world == old(world) && View() == Sweep(env, old(View()), 0, copyFails)
    {
      var i := 0;
      while i < |active|
        invariant i <= |active| && Wired() && world == old(world) && Sound(env, View(), {})
        invariant Sweep(env, View(), i, copyFails) == Sweep(env, old(View()), 0, copyFails)
        decreases |active| - i
      {
        RetireSound(env, View(), i, copyFails);
        if Finished(jobs[active[i]]) {
          Retire(i, copyFails);
        } else {
          i := i + 1;
        }
      }
    }

    /* ---------------- cache exhaustion ---------------- */

    method Evict(i: nat)
      requires Wired() && i < |active| && active[i] in jobs
      modifies this, blocks, blocks.refcounts, prefixes, engine
      ensures Wired() && world == old(world) && View() == PreemptAt(old(View()), i)
    {
      var sid := active[i];
      var j := jobs[sid];
      prefixes.EvictSequence(sid);
      blocks.Free(j.table.blocks);
      engine.ReleaseSequence(sid);
      freeSlots := freeSlots + [sid];
      active := active[..i] + active[i + 1..];
      jobs := jobs - {sid};
      pending := [j.req] + pending;
    }

    /** The newest unfinished job other than `except`. */
    method FindVictim(except: SeqId) returns (v: Option<nat>)
      requires forall k :: k in active ==> k in jobs
      ensures v == Victim(active, jobs, except, |active|)
    {
      var n: nat := |active|;
      while n > 0
        invariant n <= |active|
        invariant Victim(active, jobs, except, n) == Victim(active, jobs, except, |active|)
      {
        var sid := active[n - 1];
        if !Finished(jobs[sid]) && sid != except {
          return Some(n - 1);
        }
        n := n - 1;
      }
      v := None;
    }

    /** Evict it; its request is next in line. */
    method PreemptOne(except: SeqId) returns (did: bool)
      requires Wired() && Sound(env, View(), {})
      modifies this, blocks, blocks.refcounts, prefixes, engine
      ensures Wired() && world == old(world)
      ensures did == Victim(old(active), old(jobs), except, |old(active)|).Some?
      ensures View() == if did then PreemptAt(old(View()), Victim(old(active), old(jobs), except, |old(active)|).value) else old(View())
    {
      Unfold(env, View(), {});
      var v := FindVictim(except);
      did := v.Some?;
      if did {
        Evict(v.value);
      }
    }

    method GrowJob(sid: SeqId, needed: nat) returns (ok: bool)
      requires Wired() && sid in jobs
      modifies this, blocks, blocks.refcounts
      ensures Wired() && world == old(world) && (View(), ok) == GrowTable(env, old(View()), sid, needed)
    {
      var t;
      t, ok := Grow(jobs[sid].table, needed);
      jobs := jobs[sid := jobs[sid].(table := t)];
    }

    /** Cache yields to work: donors go first. */
    method ReclaimForJob(sid: SeqId, needed: nat)
      requires Wired() && Sound(env, View(), {}) && sid in jobs
      modifies this, blocks, blocks.refcounts, prefixes, engine
      ensures Wired() && world == old(world) && sid in jobs && Sound(env, View(), {})
      ensures View() == ReclaimFor(env, old(View()), sid, needed)
    {
      var trying := true;
      while trying
        invariant Wired() && world == old(world) && sid in jobs && Sound(env, View(), {})
        invariant if trying then ReclaimFor(env, View(), sid, needed) == ReclaimFor(env, old(View()), sid, needed)
                  else View() == ReclaimFor(env, old(View()), sid, needed)
        decreases |prefixes.entries|, trying
      {
        GrowSound(env, View(), sid, needed);
        var ok := GrowJob(sid, needed);
        if ok {
          trying := false;
        } else {
          ghost var s := View();
          Unfold(env, s, {});
          if HasRetained(s.cache) {
            ReclaimSound(env, s, {});
          }
          trying := ReclaimDonorBlocks();
        }
      }
    }

    /** Then the newest other job goes, until the starved one can grow or nobody is left. */
    method PreemptForJob(sid: SeqId, needed: nat)
      requires Wired() && Sound(env, View(), {}) && sid in jobs
      modifies this, blocks, blocks.refcounts, prefixes, engine
      ensures Wired() && world == old(world) && View() == PreemptFor(env, old(View()), sid, needed)
    {
      var trying := true;
      while trying
        invariant Wired() && world == old(world) && sid in jobs && Sound(env, View(), {})
        invariant if trying then PreemptFor(env, View(), sid, needed) == PreemptFor(env, old(View()), sid, needed)
                  else View() == PreemptFor(env, old(View()), sid, needed)
        decreases |active|, trying
      {
        GrowSound(env, View(), sid, needed);
        var ok := GrowJob(sid, needed);
        if ok {
          trying := false;
        } else {
          ghost var v := Victim(active, jobs, sid, |active|);
          if v.Some? {
            PreemptSound(env, View(), v.value);
          }
          trying := PreemptOne(sid);
        }
      }
    }

    method ResolveExhaustion(starved: seq<SeqId>)
      requires Wired() && Sound(env, View(), {})
      modifies this, blocks, blocks.refcounts, prefixes, engine
      ensures Wired() && world == old(world) && View() == ResolveAll(env, old(View()), starved)
    {
      var i := 0;
      assert starved[0..] == starved;
      while i < |starved|
        invariant i <= |starved| && Wired() && world == old(world) && Sound(env, View(), {})
        invariant ResolveAll(env, View(), starved[i..]) == ResolveAll(env, old(View()), starved)
      {
        assert starved[i..][0] == starved[i] && starved[i..][1..] == starved[i + 1..];
        ResolveSound(env, View(), starved[i]);
        Resolve(starved[i]);
        i := i + 1;
      }
      assert starved[i..] == [];
    }

    method Resolve(sid: SeqId)
      requires Wired() && Sound(env, View(), {})
      modifies this, blocks, blocks.refcounts, prefixes, engine
      ensures Wired() && world == old(world) && View() == ResolveOne(env, old(View()), sid)
    {
      Unfold(env, View(), {});
      if sid !in active {
        return;
      }
      var j := jobs[sid];
      var need := BlocksFor(env.cfg.blockSize, Tokens(j));
      if need > blocks.total {
        jobs := jobs[sid := SetGen(j, Finish(Fail(j.st.gen, PoolTooSmall(need, blocks.total), ContextOverflow)))];
        return;
      }
      ReclaimForJob(sid, Tokens(j));
      PreemptForJob(sid, Tokens(j));
    }

    /* ---------------- one iteration ---------------- */

    /** A failed pass fails every unfinished sequence. */
    method FailEverything()
      requires forall k :: k in jobs <==> k in active
      modifies this`jobs
      ensures jobs == FailAll(old(jobs))
    {
      var i := 0;
      while i < |active|
        invariant i <= |active| && jobs.Keys == old(jobs).Keys
        invariant forall k :: k in jobs ==> jobs[k] == (if k in active[..i] then FailAll(old(jobs))[k] else old(jobs)[k])
      {
        var sid := active[i];
        assert active[..i + 1] == active[..i] + [sid];
        if !Finished(jobs[sid]) {
          jobs := jobs[sid := SetGen(jobs[sid], Fail(jobs[sid].st.gen, Failure.Backend, Error))];
        }
        i := i + 1;
      }
      assert active[..i] == active;
    }

    /** Run a batch and accept what it sampled. */
    method RunItems(items: seq<BatchItem>, cancelled: set<nat>) returns (starved: seq<SeqId>)
      requires Wired() && |Decode(env.be, View().kv, items).1| == |SampledSids(items)|
      requires forall k :: 0 <= k < |SampledSids(items)| ==> SampledSids(items)[k] in jobs
      modifies this, blocks, blocks.refcounts, prefixes, engine
      ensures Wired() && world == old(world) && (View(), starved) == Forward(env, old(View()), items, cancelled)
    {
      var steps := engine.DecodeBatch(items);
      starved := AcceptSampled(SampledSids(items), steps, cancelled);
    }

    /** Build a batch, run it and accept what it sampled. */
    method RunPass(o: Oracle) returns (starved: seq<SeqId>)
      requires Wired() && Sound(env, View(), {})
      modifies this, blocks, blocks.refcounts, prefixes, engine
      ensures Wired() && world == old(world) && (View(), starved) == Advance(env, old(View()), o)
    {
      ghost var s := View();
      Unfold(env, s, {});
      BatchAddressed(env, s);
      var items := BuildBatch();
      starved := [];
      if items == [] {
        return;
      }
      if o.fault.Some? {
        engine.Throw(items, o.fault.value);
        FailEverything();
      } else {
        starved := RunItems(items, o.cancelled);
      }
    }

    /** Everything an iteration does once it has work in hand. */
    method RunIteration(o: Oracle)
      requires Wired() && Sound(env, View(), {})
      modifies this, blocks, blocks.refcounts, prefixes, engine
      ensures Wired() && world == old(world) && View() == Work(env, old(View()), o) && Sound(env, View(), {})
    {
      ghost var s := View();
      WorkSound(env, s, o);
      AdmitPending();
      if active == [] {
        return;
      }
      var starved := RunPass(o);
      RetireFinished(o.copyFails);
      ResolveExhaustion(starved);
      RetireFinished(o.copyFails);
    }

    /** The next request, or nothing if there is none; waits for one only when nothing is in
        hand. */
    method NextRequest(queue: RequestQueue) returns (req: Option<Request>)
      requires active == [] && pending == [] ==> CanPop(queue.View())
      modifies queue
      ensures queue.closed == old(queue.closed)
      ensures if req.None? then queue.queue == old(queue.queue) == [] else old(queue.queue) == [req.value] + queue.queue
      ensures req.None? && active == [] && pending == [] ==> queue.closed
    {
      if active == [] && pending == [] {
        req := queue.Pop();
      } else {
        req := queue.TryPop();
      }
    }

    /** Take requests while there is room; blocks only when nothing is in hand, and then the
        queue has a request or is closed. Says whether the loop is to return. */
    method TakeFrom(queue: RequestQueue) returns (done: bool)
      requires active == [] && pending == [] ==> CanPop(queue.View())
      modifies this, queue
      ensures world == old(world) && View() == old(View()).(pending := pending)
      ensures pending + queue.queue == old(pending) + old(queue.queue) && old(pending) <= pending
      ensures queue.closed == old(queue.closed)
      ensures |pending| + |active| >= env.cfg.maxBatch || queue.queue == []
      ensures |old(pending)| + |active| <= env.cfg.maxBatch ==> |pending| + |active| <= env.cfg.maxBatch
      ensures done <==> active == [] && pending == []
      ensures done ==> queue.closed && queue.queue == []
    {
      var more := true;
      while |pending| + |active| < env.cfg.maxBatch && more
        invariant View() == old(View()).(pending := pending) && world == old(world)
        invariant pending + queue.queue == old(pending) + old(queue.queue) && old(pending) <= pending
        invariant queue.closed == old(queue.closed)
        invariant active == [] && pending == [] ==> CanPop(queue.View())
        invariant !more ==> queue.queue == []
        invariant |old(pending)| + |active| <= env.cfg.maxBatch ==> |pending| + |active| <= env.cfg.maxBatch
        decreases |queue.queue|, more
      {
        var req := NextRequest(queue);
        more := req.Some?;
        if more {
          pending := pending + [req.value];
        }
      }
      done := active == [] && pending == [];
    }

    /** The whole system's state between two turns of the loop. */
    ghost function State(queue: RequestQueue): Sys
      reads this, blocks, blocks.refcounts, prefixes, engine, queue
    {
      View().(queue := queue.queue, closed := queue.closed, phase := Taking)
    }

    /** ONE TURN OF THE SCHEDULER LOOP. It takes what there is room for and then does exactly one
        iteration of the machine, or is done if there is nothing to do. So from a state some run
        reaches it leads to a state some run reaches, and every theorem about runs is one about
        this code; and the loop is done only when the queue is closed and empty and everything
        that was ever accepted has been delivered. */
    method Turn(queue: RequestQueue, o: Oracle) returns (done: bool)
      requires Wired() && Reachable(env, State(queue))
      requires active == [] && pending == [] ==> CanPop(queue.View())
      requires o.fault.Some? ==> env.mayFail
      modifies this, blocks, blocks.refcounts, prefixes, engine, queue
      ensures Wired() && Reachable(env, State(queue)) && world.accepted == old(world.accepted)
      ensures var t := Filled(env, old(State(queue)));
        && (done <==> t.active == [] && t.pending == [])
        && State(queue) == if done then t else Iterate(env, t.(phase := Working), o)
      ensures done ==> queue.closed && queue.queue == [] && DeliveredReqs(delivered) == multiset(world.accepted)
    {
      ghost var s := State(queue);
      SlotsArePartitioned(env, s);
      done := TakeFrom(queue);
      ghost var t := State(queue);
      TakenIsReached(env, s, t);
      TakenIsFilled(env, s, t);
      if done {
        ReturnMeansAllDelivered(env, Next(env, t, Take));
        return;
      }
      WorkOn(queue, o);
    }

    /** The working half of a turn. */
    method WorkOn(queue: RequestQueue, o: Oracle)
      requires Wired() && Reachable(env, State(queue).(phase := Working)) && (o.fault.Some? ==> env.mayFail)
      modifies this, blocks, blocks.refcounts, prefixes, engine
      ensures Wired() && Reachable(env, State(queue)) && world.accepted == old(world.accepted)
      ensures State(queue) == Iterate(env, old(State(queue)).(phase := Working), o)
    {
      ghost var w := State(queue).(phase := Working);
      world := w;
      assert View() == w;
      ReachableIsSound(env, w);
      ReachableNext(env, w, Step(o));
      RunIteration(o);
      assert State(queue) == Iterate(env, w, o);
    }

    /** A producer's side of a run: an accepted request is recorded, a refused one is not. */
    method Submit(queue: RequestQueue, r: Request) returns (ok: bool)
      requires Wired() && Reachable(env, State(queue)) && queue.capacity == env.cfg.queueCapacity
      modifies this`world, queue
      ensures Wired() && Reachable(env, State(queue)) && queue.closed == old(queue.closed)
      ensures world.accepted == if ok then old(world.accepted) + [r] else old(world.accepted)
      ensures ok <==> !old(queue.closed) && |old(queue.queue)| < queue.capacity
    {
      ghost var s := State(queue);
      ReachableNext(env, s, Push(r));
      ok := queue.TryPush(r);
      if ok {
        world := world.(accepted := world.accepted + [r]);
      }
      assert State(queue) == PushRequest(env, s, r);
    }

    method Shut(queue: RequestQueue)
      requires Wired() && Reachable(env, State(queue))
      modifies queue
      ensures Wired() && Reachable(env, State(queue)) && queue.closed && queue.queue == old(queue.queue)
    {
      ghost var s := State(queue);
      ReachableNext(env, s, Close);
      queue.Close();
      assert State(queue) == Next(env, s, Close);
    }
  }

  lemma ReachableIsSound(env: Env, s: Sys)
    requires Reachable(env, s)
    ensures Sound(env, s, {})
  {
    ReachableIsWellFormed(env, s);
  }

  /** Taking what there is room for leads to a state that some run reaches. */
  lemma TakenIsFilled(env: Env, s: Sys, t: Sys)
    requires |s.pending| + |s.active| <= env.cfg.maxBatch && t == s.(pending := t.pending, queue := t.queue)
    requires t.pending + t.queue == s.pending + s.queue && s.pending <= t.pending && |t.pending| + |t.active| <= env.cfg.maxBatch
    requires |t.pending| + |t.active| >= env.cfg.maxBatch || t.queue == []
    ensures t == Filled(env, s)
  {
    TakenInOrder(s.pending, s.queue, t.pending, t.queue);
  }

  lemma TakenIsReached(env: Env, s: Sys, t: Sys)
    requires Reachable(env, s) && s.phase == Taking && t == s.(pending := t.pending, queue := t.queue)
    requires t.pending + t.queue == s.pending + s.queue && s.pending <= t.pending && |t.pending| + |t.active| <= env.cfg.maxBatch
    requires |t.pending| + |t.active| >= env.cfg.maxBatch || t.queue == []
    requires t.active == [] && t.pending == [] ==> t.closed
    ensures Enabled(env, t, Take) && Reachable(env, t) && Reachable(env, Next(env, t, Take))
    ensures Next(env, t, Take) == t.(phase := if t.active == [] && t.pending == [] then Returned else Working)
  {
    TakenInOrder(s.pending, s.queue, t.pending, t.queue);
    ReachableTakes(env, s, |t.pending| - |s.pending|);
    ReachableNext(env, t, Take);
  }

  lemma TakenInOrder<T>(a: seq<T>, b: seq<T>, c: seq<T>, d: seq<T>)
    requires c + d == a + b && a <= c
    ensures |c| - |a| <= |b| && c == a + b[..|c| - |a|] && d == b[|c| - |a|..]
  {
    assert |c| + |d| == |a| + |b|;
    assert c == (c + d)[..|c|] && d == (c + d)[|c|..];
  }
}
