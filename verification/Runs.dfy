/** The main results, over every run of the system: any interleaving of producers, the
    closer and the scheduler thread, with any cancellations. */
module Runs {
  import opened Types
  import opened Sequence
  import opened BlockPool
  import opened Cache
  import opened Engine
  import opened Generator
  import opened Scheduling
  import opened Batch
  import opened Invariants
  import opened Books
  import opened Independence
  import opened Faults

  ghost predicate Reachable(env: Env, s: Sys) {
    exists run, events :: IsRun(env, run, events) && Last(run) == s
  }

  lemma InitBooks(env: Env)
    ensures BooksOk(env, InitSys(env))
  {
    assert RequestList([], map[]) == [];
  }

  lemma NextKeeps(env: Env, s: Sys, ev: Event)
    requires Wf(env, s, {}) && BooksOk(env, s) && Enabled(env, s, ev)
    ensures Wf(env, Next(env, s, ev), {}) && BooksOk(env, Next(env, s, ev))
  {
    NextWf(env, s, ev);
    if ev.Step? {
      IterateBooks(env, s, ev.oracle);
    } else {
      QueueStepBooks(env, s, ev);
    }
  }

  lemma RunPrefix(env: Env, run: seq<Sys>, events: seq<Event>)
    requires IsRun(env, run, events) && events != []
    ensures IsRun(env, DropLast(run), DropLast(events))
    ensures Enabled(env, Last(DropLast(run)), Last(events)) && Last(run) == Next(env, Last(DropLast(run)), Last(events))
  {
    assert Moves(env, run, events, |events| - 1);
    forall i: nat | i < |events| - 1
      ensures Moves(env, DropLast(run), DropLast(events), i)
    {
      assert Moves(env, run, events, i);
    }
  }

  lemma ReachableStart(env: Env)
    ensures Reachable(env, InitSys(env))
  {
    var run, events: seq<Event> := [InitSys(env)], [];
    assert IsRun(env, run, events) && Last(run) == InitSys(env);
  }

  lemma ReachableNext(env: Env, s: Sys, ev: Event)
    requires Reachable(env, s) && Enabled(env, s, ev)
    ensures Reachable(env, Next(env, s, ev))
  {
    var run, events :| IsRun(env, run, events) && Last(run) == s;
    var longer, more := run + [Next(env, s, ev)], events + [ev];
    forall i: nat | i < |more|
      ensures Moves(env, longer, more, i)
    {
      if i < |events| {
        assert Moves(env, run, events, i);
      }
    }
    assert IsRun(env, longer, more) && Last(longer) == Next(env, s, ev);
  }

  /** The scheduler may take as many waiting requests as it has room for. */
  lemma {:induction false} ReachableTakes(env: Env, s: Sys, k: nat)
    requires Reachable(env, s) && s.phase == Taking && k <= |s.queue| && |s.pending| + |s.active| + k <= env.cfg.maxBatch
    ensures Reachable(env, s.(pending := s.pending + s.queue[..k], queue := s.queue[k..]))
    decreases k
  {
    if k == 0 {
      assert s.pending + s.queue[..0] == s.pending && s.queue[0..] == s.queue;
    } else {
      ReachableNext(env, s, Take);
      var r := Next(env, s, Take);
      ReachableTakes(env, r, k - 1);
      assert r.pending + r.queue[..k - 1] == s.pending + s.queue[..k] && r.queue[k - 1..] == s.queue[k..];
    }
  }

  /** The structural invariant holds at the end of every run, whatever faults occur. */
  lemma {:induction false} EveryRunIsWellFormed(env: Env, run: seq<Sys>, events: seq<Event>)
    requires IsRun(env, run, events)
    ensures Wf(env, Last(run), {}) && BooksOk(env, Last(run))
    decreases |events|
  {
    if events == [] {
      InitWf(env);
      InitBooks(env);
    } else {
      RunPrefix(env, run, events);
      EveryRunIsWellFormed(env, DropLast(run), DropLast(events));
      NextKeeps(env, Last(DropLast(run)), Last(events));
    }
  }

  lemma ReachableIsWellFormed(env: Env, s: Sys)
    requires Reachable(env, s)
    ensures Wf(env, s, {}) && BooksOk(env, s)
  {
    var run, events :| IsRun(env, run, events) && Last(run) == s;
    EveryRunIsWellFormed(env, run, events);
  }

  /* ---------------- blocks ---------------- */

  lemma OwnersSplit(jobs: map<SeqId, Job>, held: Ownership, b: BlockId)
    requires jobs.Keys !! held.Keys
    ensures |Owners(Own(jobs, held), b)| == |set k | k in jobs && b in jobs[k].table.blocks| + |set d | d in held && b in held[d]|
  {
    var live := set k | k in jobs && b in jobs[k].table.blocks;
    var donors := set d | d in held && b in held[d];
    assert live !! donors;
    assert Owners(Own(jobs, held), b) == live + donors;
  }

  /** Refcount conservation: in every reachable state a block's refcount is the number of
      live page tables that hold it plus the number of donors that hold it, no table holds a
      block twice, and the free list is exactly the unreferenced blocks, each once. */
  lemma RefcountsAreConserved(env: Env, s: Sys)
    requires Reachable(env, s)
    ensures |s.pool.refs| == env.cfg.totalBlocks
    ensures forall b: BlockId :: b < env.cfg.totalBlocks ==>
      s.pool.refs[b] == |set k | k in s.jobs && b in s.jobs[k].table.blocks| + |set d | d in s.held && b in s.held[d]|
    ensures forall k :: k in s.jobs ==> NoDup(s.jobs[k].table.blocks)
    ensures NoDup(s.pool.freeList) && forall b: BlockId :: b in s.pool.freeList <==> b < env.cfg.totalBlocks && s.pool.refs[b] == 0
  {
    ReachableIsWellFormed(env, s);
    var own := Own(s.jobs, s.held);
    forall b: BlockId | b < env.cfg.totalBlocks
      ensures s.pool.refs[b] == |set k | k in s.jobs && b in s.jobs[k].table.blocks| + |set d | d in s.held && b in s.held[d]|
    {
      OwnersSplit(s.jobs, s.held, b);
    }
    forall k | k in s.jobs
      ensures NoDup(s.jobs[k].table.blocks)
    {
      assert own[k] == s.jobs[k].table.blocks;
    }
  }

  /** In every reachable state the blocks of any cache entry, live or retained, already have
      a reference, so taking another is never silently skipped. */
  lemma NoSilentIncref(env: Env, s: Sys, h: nat, b: BlockId)
    requires Reachable(env, s) && h in s.cache.entries && b in s.cache.entries[h].entry.blocks
    ensures b < |s.pool.refs| && Incref(s.pool, b).refs == s.pool.refs[b := s.pool.refs[b] + 1]
  {
    ReachableIsWellFormed(env, s);
    EntryBlocksReferenced(env, s, {}, h, b);
  }

  /* ---------------- slots ---------------- */

  /** Free slots and active sequences partition the batch slots, donors lie above them, and
      the scheduler never has more than `maxBatch` requests in hand. */
  lemma SlotsArePartitioned(env: Env, s: Sys)
    requires Reachable(env, s)
    ensures NoDup(s.freeSlots + s.active)
    ensures forall k: SeqId :: k in s.freeSlots + s.active <==> k < env.cfg.maxBatch
    ensures |s.freeSlots| + |s.active| == env.cfg.maxBatch && |s.pending| <= |s.freeSlots|
    ensures forall k :: k in s.cache.freeDonors || k in s.held ==> env.cfg.maxBatch <= k < env.cfg.maxBatch + env.cfg.donors
  {
    ReachableIsWellFormed(env, s);
    CountSlots(env.cfg.maxBatch, s.freeSlots, s.active, s.jobs);
  }

  lemma CountSlots(maxBatch: nat, freeSlots: seq<SeqId>, active: seq<SeqId>, jobs: map<SeqId, Job>)
    requires SlotsOk(maxBatch, freeSlots, active, jobs)
    ensures NoDup(freeSlots + active) && |freeSlots| + |active| == maxBatch
    ensures forall k: SeqId :: k in freeSlots + active <==> k < maxBatch
  {
    DisjointNoDup(freeSlots, active);
    CountBelow(freeSlots + active, maxBatch);
  }

  lemma CountBelow(s: seq<nat>, n: nat)
    requires NoDup(s) && forall k: nat :: k in s <==> k < n
    ensures |s| == n
  {
    var elements := set x: nat | x in s;
    SeqAsSet(s);
    assert forall k: nat :: k in elements <==> k in Below(n);
    assert elements == Below(n);
  }

  /* ---------------- requests ---------------- */

  /** Every accepted request is in exactly one place, exactly once: for requests pushed once,
      one of the four counts is 1 and the others are 0. */
  lemma EveryRequestIsInOnePlace(env: Env, s: Sys, req: Request)
    requires Reachable(env, s) && multiset(s.accepted)[req] == 1
    ensures multiset(s.queue)[req] + multiset(s.pending)[req] + ActiveReqs(s.active, s.jobs)[req] + DeliveredReqs(s.delivered)[req] == 1
  {
    ReachableIsWellFormed(env, s);
    assert multiset(s.accepted)[req] == Ledger(s)[req];
  }

  /** The scheduler returns only when the queue is closed and empty and everything that was
      ever accepted has been delivered, even after backend failures. */
  lemma ReturnMeansAllDelivered(env: Env, s: Sys)
    requires Reachable(env, s) && s.phase == Returned
    ensures s.closed && s.queue == [] && DeliveredReqs(s.delivered) == multiset(s.accepted)
  {
    ReachableIsWellFormed(env, s);
    assert RequestList(s.active, s.jobs) == [];
  }

  /* ---------------- schedule independence ---------------- */

  /** If the event is a throwing iteration, it poisons no prefix-cache key. */
  ghost predicate Contained(env: Env, s: Sys, ev: Event) {
    ev.Step? && ev.oracle.fault.Some? ==> PoisonedBy(env, s, ev.oracle.copyFails) == {}
  }

  /** Every throwing iteration of the run is harmless, in the sense of `FaultIsHarmlessIff`. */
  ghost predicate FaultsAreContained(env: Env, run: seq<Sys>, events: seq<Event>)
    requires |run| == |events| + 1
  {
    forall i {:trigger Contained(env, run[i], events[i])} :: 0 <= i < |events| ==> Contained(env, run[i], events[i])
  }

  /** Some pass of the run threw. */
  predicate ThrewIn(events: seq<Event>) {
    exists i :: 0 <= i < |events| && events[i].Step? && events[i].oracle.fault.Some?
  }

  /** Passes throw only where they may. */
  lemma ThrewOnlyIfAllowed(env: Env, run: seq<Sys>, events: seq<Event>)
    requires IsRun(env, run, events)
    ensures ThrewIn(events) ==> env.mayFail
  {
    if i :| 0 <= i < |events| && events[i].Step? && events[i].oracle.fault.Some? {
      assert Moves(env, run, events, i);
    }
  }

  /** Runs in which no pass threw, and all runs without donor slots or prefix caching. */
  lemma WhenFaultsAreContained(env: Env, run: seq<Sys>, events: seq<Event>)
    requires IsRun(env, run, events)
    requires !ThrewIn(events) || env.cfg.donors == 0 || !env.cfg.prefixCaching
    ensures FaultsAreContained(env, run, events)
  {
    forall i | 0 <= i < |events|
      ensures Contained(env, run[i], events[i])
    {
      assert Moves(env, run, events, i);
      if events[i].Step? && events[i].oracle.fault.Some? {
        NoDonorsNoPoison(env, run[i], events[i].oracle.copyFails);
      }
    }
  }

  lemma ContainedPrefix(env: Env, run: seq<Sys>, events: seq<Event>)
    requires |run| == |events| + 1 && events != [] && FaultsAreContained(env, run, events)
    ensures FaultsAreContained(env, DropLast(run), DropLast(events)) && Contained(env, Last(DropLast(run)), Last(events))
  {
    assert Contained(env, run[|events| - 1], events[|events| - 1]);
    forall i | 0 <= i < |events| - 1
      ensures Contained(env, DropLast(run)[i], DropLast(events)[i])
    {
      assert Contained(env, run[i], events[i]);
    }
  }

  lemma AcceptedGrows(env: Env, s: Sys, ev: Event)
    requires Wf(env, s, {})
    ensures s.accepted <= Next(env, s, ev).accepted
  {
    if ev.Step? {
      WorkBooks(env, s, ev.oracle);
    }
  }

  lemma QueueStepSync(env: Env, s: Sys, ev: Event)
    requires Sync(env, s)
    ensures Sync(env, QueueStep(env, s, ev))
  {
    var r := QueueStep(env, s, ev);
    QueueStepFrame(env, s, ev);
    assert s.accepted <= r.accepted;
    forall h | h in r.cache.entries
      ensures EntrySync(env, r.accepted, h, r.cache.entries[h].entry, r.kv)
    {
      assert EntrySync(env, s.accepted, h, s.cache.entries[h].entry, s.kv);
    }
  }

  lemma KnownSubset(env: Env, small: seq<Request>, big: seq<Request>)
    requires small <= big && CollisionFree(env, big)
    ensures CollisionFree(env, small)
  {
  }

  lemma NextSync(env: Env, s: Sys, ev: Event)
    requires Wf(env, s, {}) && BooksOk(env, s) && Sync(env, s) && Enabled(env, s, ev) && Contained(env, s, ev)
    requires CollisionFree(env, s.accepted)
    ensures Sync(env, Next(env, s, ev))
  {
    if ev.Step? {
      FaultyWorkSync(env, s, ev.oracle);
      assert Wf(env, Work(env, s, ev.oracle), {});
    } else {
      QueueStepSync(env, s, ev);
    }
  }

  /** KV contents, cache entries and answers are in sync at the end of every run whose
      prompts the prefix hash separates and whose faults are contained. */
  lemma {:induction false} EveryRunIsInSync(env: Env, run: seq<Sys>, events: seq<Event>)
    requires IsRun(env, run, events) && FaultsAreContained(env, run, events)
    requires CollisionFree(env, Last(run).accepted)
    ensures Sync(env, Last(run))
    decreases |events|
  {
    if events != [] {
      RunPrefix(env, run, events);
      ContainedPrefix(env, run, events);
      var before := Last(DropLast(run));
      EveryRunIsWellFormed(env, DropLast(run), DropLast(events));
      AcceptedGrows(env, before, Last(events));
      KnownSubset(env, before.accepted, Last(run).accepted);
      EveryRunIsInSync(env, DropLast(run), DropLast(events));
      NextSync(env, before, Last(events));
    }
  }

  /** SCHEDULE INDEPENDENCE. In every run without hash collision whose throwing iterations
      poison nothing, a request with a prompt that ran to its own end has the text, finish
      reason and token counts that `generate_one` gives it alone, whatever was batched with
      it, however its prompt was chunked, whichever prefixes were shared, and however often
      it was deferred or preempted. Every answer has a reason, and none is an error unless a
      pass can throw. */
  lemma ScheduleIndependence(env: Env, run: seq<Sys>, events: seq<Event>, d: Delivery)
    requires IsRun(env, run, events) && FaultsAreContained(env, run, events)
    requires CollisionFree(env, Last(run).accepted)
    requires d in Last(run).delivered
    ensures d.result.reason != Unset && (d.result.reason == Error ==> env.mayFail)
    ensures OwnEnd(d.result.reason) && PromptOf(env, d.req) != [] ==> d.result == ReferenceResult(env.be, d.req.spec)
  {
    EveryRunIsInSync(env, run, events);
    assert DeliverySync(env, d);
  }

  /** PREFIX-CACHE SOUNDNESS. In the same runs every entry, live or retained, names a
      sequence whose KV at [0, nTokens) is a prefix of an accepted prompt hashing to the
      entry's key, so a hit hands the new sequence its own prompt prefix. */
  lemma PrefixCacheIsSound(env: Env, run: seq<Sys>, events: seq<Event>, req: Request)
    requires IsRun(env, run, events) && FaultsAreContained(env, run, events)
    requires CollisionFree(env, Last(run).accepted)
    requires req in Last(run).accepted
    ensures var s := Last(run);
      var hit := LongestMatch(env.be.hash, s.cache, PromptOf(env, req), env.cfg.blockSize);
      hit.Some? ==>
        var e := s.cache.entries[hit.value].entry;
        && e.sid in s.kv && e.nTokens <= |s.kv[e.sid].cells| && e.nTokens <= |PromptOf(env, req)|
        && s.kv[e.sid].cells[..e.nTokens] == PromptOf(env, req)[..e.nTokens]
  {
    EveryRunIsInSync(env, run, events);
    var s := Last(run);
    var hit := LongestMatch(env.be.hash, s.cache, PromptOf(env, req), env.cfg.blockSize);
    if hit.Some? {
      EveryRunIsWellFormed(env, run, events);
      LongestMatchKey(env.be.hash, s.cache, PromptOf(env, req), env.cfg.blockSize);
      assert EntryOk(env.cfg.blockSize, s.cache.entries[hit.value].entry, s.jobs, s.held);
      HitIsOwnPrefix(env, s, req, hit.value, s.cache.entries[hit.value].entry);
    }
  }

  /* ---------------- what is submitted ---------------- */

  /** The item starts directly behind the KV its sequence holds or, after a hit on the whole
      prompt, over prompt tokens already there; and it stays below the context limit unless
      the 32-bit sum of prompt and token budget had wrapped. */
  ghost predicate WellPlaced(env: Env, j: Job, c: SeqKv, item: BatchItem) {
    && 0 <= item.pos0 <= |c.cells|
    && (item.pos0 < |c.cells| ==> c.cells <= j.st.prompt)
    && (env.cfg.nCtxSeq > 0 && |j.st.prompt| + j.st.spec.maxTokens < U32 ==> item.pos0 + |item.tokens| <= env.cfg.nCtxSeq)
  }

  lemma PlacedItem(env: Env, j: Job, c: SeqKv, item: BatchItem, k: SeqId)
    requires JobOk(env, k, j) && JobSync(env, j, c) && !Finished(j) && j.st.prompt != []
    requires if Prefilling(j.st) then |item.tokens| <= PrefillRemaining(j.st) && item == TakePrefillChunk(j.st, |item.tokens|).0 else item == DecodeItem(j.st)
    ensures WellPlaced(env, j, c, item)
  {
    ItemLands(env, j, c, item);
  }

  lemma PlacedBatch(env: Env, s: Sys, item: BatchItem)
    requires Wf(env, s, {}) && Balanced(s) && Sync(env, s) && item in Build(env, s).0
    ensures item.sid in s.jobs && item.sid in s.kv
    ensures s.jobs[item.sid].st.prompt != [] ==> WellPlaced(env, s.jobs[item.sid], s.kv[item.sid], item)
  {
    WfAddressed(env, s, {});
    BatchFits(env, s);
    AcceptedKnown(env, s, {});
    assert ItemFits(s.jobs, Build(env, s).1, item);
    var j := s.jobs[item.sid];
    assert JobOk(env, item.sid, j);
    if j.st.prompt != [] {
      PlacedItem(env, j, s.kv[item.sid], item, item.sid);
    }
  }

  /** What one iteration of such a run submits: every item of a sequence with a prompt is well
      placed. (The size and shape of the batch are `BatchFits`, for every state.) */
  lemma BatchesAreWellPlaced(env: Env, run: seq<Sys>, events: seq<Event>, item: BatchItem)
    requires IsRun(env, run, events) && FaultsAreContained(env, run, events)
    requires CollisionFree(env, Last(run).accepted)
    requires item in Build(env, AdmitLoop(env, Last(run))).0
    ensures var s := AdmitLoop(env, Last(run));
      && item.sid in s.jobs && item.sid in s.kv
      && (s.jobs[item.sid].st.prompt != [] ==> WellPlaced(env, s.jobs[item.sid], s.kv[item.sid], item))
  {
    EveryRunIsWellFormed(env, run, events);
    EveryRunIsInSync(env, run, events);
    AdmitLoopSync(env, Last(run));
    var s := AdmitLoop(env, Last(run));
    assert Wf(env, s, {});
    PlacedBatch(env, s, item);
  }
}
