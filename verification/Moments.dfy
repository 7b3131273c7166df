/** Inside an iteration: the states in which an admission loop decides a request and in which a
    sweep retires a sequence, and what holds exactly there
    (src/core/scheduler.cpp:196-281, 401-474, 580-589, 635-644). */
module Moments {
  import opened Types
  import opened BlockPool
  import opened Cache
  import opened Scheduling
  import opened Invariants
  import opened Independence
  import opened Runs

  /** The states in which one admission loop decides the request at the front. */
  ghost function AdmitPoints(env: Env, s: Sys): seq<Sys>
    decreases |s.pending|
  {
    if s.pending == [] || s.freeSlots == [] then []
    else
      var (s1, outcome) := AdmitFront(env, s);
      [s] + (if outcome.Deferred? then [] else AdmitPoints(env, s1))
  }

  /** The states in which a sweep retires a sequence, each with the index it retires. */
  ghost function RetirePoints(env: Env, s: Sys, i: nat, copyFails: set<nat>): seq<(Sys, nat)>
    decreases |s.active| - i
  {
    if i >= |s.active| then []
    else if s.active[i] in s.jobs && Finished(s.jobs[s.active[i]]) then
      [(s, i)] + RetirePoints(env, RetireAt(env, s, i, copyFails), i, copyFails)
    else RetirePoints(env, s, i + 1, copyFails)
  }

  /** All retirements of one iteration, in order: those of both its sweeps. */
  ghost function Retirements(env: Env, s: Sys, o: Oracle): seq<(Sys, nat)> {
    var s1 := AdmitLoop(env, s);
    if s1.active == [] then []
    else
      var (s2, starved) := Advance(env, s1, o);
      var s4 := ResolveAll(env, Sweep(env, s2, 0, o.copyFails), starved);
      RetirePoints(env, s2, 0, o.copyFails) + RetirePoints(env, s4, 0, o.copyFails)
  }

  /* ---------------- the invariants hold there too ---------------- */

  lemma {:induction false} AdmitPointsSound(env: Env, s: Sys, p: Sys)
    requires Sound(env, s, {}) && p in AdmitPoints(env, s)
    ensures Sound(env, p, {}) && p.pending != [] && p.freeSlots != []
    decreases |s.pending|
  {
    if p != s {
      assert Wf(env, s, {});
      AdmitFrontWf(env, s);
      AdmitPointsSound(env, AdmitFront(env, s).0, p);
    }
  }

  lemma {:induction false} AdmitPointsHealthy(env: Env, s: Sys, p: Sys)
    requires Healthy(env, s) && CollisionFree(env, s.accepted) && p in AdmitPoints(env, s)
    ensures Healthy(env, p) && p.accepted == s.accepted && p.pending != [] && p.freeSlots != []
    decreases |s.pending|
  {
    if p != s {
      AdmitFrontKeeps(env, s);
      AdmitPointsHealthy(env, AdmitFront(env, s).0, p);
    }
  }

  lemma {:induction false} RetirePointsSound(env: Env, s: Sys, i: nat, copyFails: set<nat>, p: (Sys, nat))
    requires Sound(env, s, {}) && p in RetirePoints(env, s, i, copyFails)
    ensures Sound(env, p.0, {}) && p.1 < |p.0.active| && p.0.active[p.1] in p.0.jobs && Finished(p.0.jobs[p.0.active[p.1]])
    decreases |s.active| - i
  {
    if s.active[i] in s.jobs && Finished(s.jobs[s.active[i]]) {
      if p != (s, i) {
        RetireSound(env, s, i, copyFails);
        RetirePointsSound(env, RetireAt(env, s, i, copyFails), i, copyFails, p);
      }
    } else {
      RetirePointsSound(env, s, i + 1, copyFails, p);
    }
  }

  lemma RetirementsSound(env: Env, s: Sys, o: Oracle, p: (Sys, nat))
    requires Wf(env, s, {}) && p in Retirements(env, s, o)
    ensures Sound(env, p.0, {}) && p.1 < |p.0.active| && p.0.active[p.1] in p.0.jobs
  {
    AdmitLoopWf(env, s);
    var s1 := AdmitLoop(env, s);
    AdvanceWf(env, s1, o);
    var (s2, starved) := Advance(env, s1, o);
    SweepWf(env, s2, 0, o.copyFails);
    var s3 := Sweep(env, s2, 0, o.copyFails);
    ResolveAllWf(env, s3, starved);
    if p in RetirePoints(env, s2, 0, o.copyFails) {
      RetirePointsSound(env, s2, 0, o.copyFails, p);
    } else {
      RetirePointsSound(env, ResolveAll(env, s3, starved), 0, o.copyFails, p);
    }
  }

  /* ---------------- no increment is skipped ---------------- */

  /** Every listed block was referenced in `p` and has exactly one reference more in `q`. */
  ghost predicate OneMoreEach(p: Pool, blocks: seq<BlockId>, q: Pool) {
    && |q.refs| == |p.refs|
    && (forall b :: b in blocks ==> b < |p.refs| && p.refs[b] > 0)
    && (forall b: BlockId :: b < |p.refs| ==> q.refs[b] == p.refs[b] + if b in blocks then 1 else 0)
  }

  lemma {:induction false} IncrefAllAddsOne(p: Pool, blocks: seq<BlockId>)
    requires NoDup(blocks) && forall b :: b in blocks ==> b < |p.refs| && p.refs[b] > 0
    ensures OneMoreEach(p, blocks, IncrefAll(p, blocks))
    decreases |blocks|
  {
    if blocks != [] {
      var p1, rest := Incref(p, blocks[0]), blocks[1..];
      assert blocks == [blocks[0]] + rest;
      forall b | b in rest
        ensures b < |p1.refs| && p1.refs[b] > 0
      {
        assert b in blocks;
      }
      IncrefAllAddsOne(p1, rest);
      assert OneMoreEach(p1, rest, IncrefAll(p1, rest));
    }
  }

  /** What the front request has reserved when it looks for a prefix to share. */
  function Reserved(env: Env, s: Sys): (Pool, Table)
    requires s.pending != []
  {
    var (q, t, _) := EnsureCapacity(env.cfg.blockSize, s.pool, EMPTY_TABLE, |PromptOf(env, s.pending[0])|);
    (q, t)
  }

  lemma ReservedKeepsEntry(env: Env, s: Sys, h: nat, b: BlockId)
    requires s.pending != [] && s.freeSlots != [] && Wf(env, s, {Last(s.freeSlots)}) && h in s.cache.entries
    requires EnsureCapacity(env.cfg.blockSize, s.pool, EMPTY_TABLE, |PromptOf(env, s.pending[0])|).2
    requires b in s.cache.entries[h].entry.blocks
    ensures var q := Reserved(env, s).0; b < |q.refs| && q.refs[b] > 0
  {
    var slot, e := Last(s.freeSlots), s.cache.entries[h].entry;
    var (q, t) := Reserved(env, s);
    ReserveKeepsPool(env, s, slot, |PromptOf(env, s.pending[0])|);
    assert EntryOk(env.cfg.blockSize, e, s.jobs, s.held);
    var own := Own(s.jobs, s.held)[slot := t.blocks];
    assert slot in s.freeSlots && slot !in s.jobs && slot !in s.held;
    assert e.sid in own && e.blocks <= own[e.sid] by {
      if e.retained { assert e.sid !in s.jobs; }
    }
    OwnedIsReferenced(q, own, e.sid, b);
  }

  lemma AdoptedBlocks(env: Env, s: Sys)
    requires s.pending != [] && s.freeSlots != [] && Wf(env, s, {Last(s.freeSlots)})
    requires Admit(env, s).Some? && HitFor(env, s.cache, FrontJob(env, s)).Some?
    ensures var e := s.cache.entries[HitFor(env, s.cache, FrontJob(env, s)).value].entry;
      OneMoreEach(Reserved(env, s).0, e.blocks, Admit(env, s).value.pool)
  {
    var job := FrontJob(env, s);
    var h := HitFor(env, s.cache, job).value;
    var blocks := s.cache.entries[h].entry.blocks;
    var (q, t) := Reserved(env, s);
    EntryBlocksDistinct(env, s, {Last(s.freeSlots)}, h);
    forall b | b in blocks
      ensures b < |q.refs| && q.refs[b] > 0
    {
      ReservedKeepsEntry(env, s, h, b);
    }
    IncrefAllAddsOne(q, blocks);
    SharePrefixHit(env, s.(pool := q), job.(table := t));
  }

  /** NO SILENT INCREMENT, ADOPTING. Whenever, in any run, an admission adopts a hit, every
      block of the entry has a reference at that moment, after donors were given up and the
      prompt's own blocks reserved, and the admission adds exactly one to each. */
  lemma AdoptionTakesEveryReference(env: Env, s: Sys, p: Sys)
    requires Reachable(env, s) && p in AdmitPoints(env, s)
    ensures p.pending != [] && p.freeSlots != []
    ensures var r := MakeRoom(env, p);
      var hit := HitFor(env, r.cache, FrontJob(env, r));
      Admit(env, r).Some? && hit.Some? ==>
        OneMoreEach(Reserved(env, r).0, r.cache.entries[hit.value].entry.blocks, Admit(env, r).value.pool)
  {
    ReachableIsWellFormed(env, s);
    AdmitPointsSound(env, s, p);
    assert Wf(env, p, {});
    MakeRoomWf(env, p);
    var r := MakeRoom(env, p);
    if Admit(env, r).Some? && HitFor(env, r.cache, FrontJob(env, r)).Some? {
      AdoptedBlocks(env, r);
    }
  }

  lemma HeldPrefixAddsOne(p: Pool, own: Ownership, k: SeqId, n: nat)
    requires PoolOk(p, own) && k in own && n <= |own[k]|
    ensures OneMoreEach(p, own[k][..n], IncrefAll(p, own[k][..n]))
  {
    assert NoDup(own[k]);
    forall b | b in own[k][..n]
      ensures b < |p.refs| && p.refs[b] > 0
    {
      OwnedIsReferenced(p, own, k, b);
    }
    IncrefAllAddsOne(p, own[k][..n]);
  }

  lemma DonorRoomSound(env: Env, s: Sys, sid: SeqId)
    requires Wf(env, s, {}) && sid in s.jobs
    ensures Sound(env, MakeDonorRoom(ForgetJob(s, sid)), {})
  {
    assert sid !in s.held;
    ForgetWf(env, s, {}, sid);
    MakeDonorRoomWf(env, ForgetJob(s, sid), sid);
  }

  lemma RetainedBlocks(env: Env, s: Sys, sid: SeqId, nb: nat)
    requires Sound(env, s, {}) && sid in s.jobs && nb <= |s.jobs[sid].table.blocks|
    ensures var blocks := s.jobs[sid].table.blocks[..nb]; OneMoreEach(s.pool, blocks, IncrefAll(s.pool, blocks))
  {
    assert Wf(env, s, {});
    HeldPrefixAddsOne(s.pool, Own(s.jobs, s.held), sid, nb);
  }

  /** NO SILENT INCREMENT, RETAINING. Whenever, in any run, a sequence retires, every whole
      block of its prompt still has a reference once a donor slot was made free, and storing
      the prefix adds exactly one to each. */
  lemma RetentionTakesEveryReference(env: Env, s: Sys, o: Oracle, p: Sys, i: nat)
    requires Reachable(env, s) && (p, i) in Retirements(env, s, o)
    ensures i < |p.active| && p.active[i] in p.jobs
    ensures var sid := p.active[i];
      var j, room := p.jobs[sid], MakeDonorRoom(ForgetJob(p, sid));
      Retainable(env, j) ==>
        && OneMoreEach(room.pool, j.table.blocks[..WholeBlocks(env, j)], IncrefAll(room.pool, j.table.blocks[..WholeBlocks(env, j)]))
        && (room.cache.freeDonors != [] ==>
              StoreDonor(env, room, j).pool == IncrefAll(room.pool, j.table.blocks[..WholeBlocks(env, j)]))
  {
    ReachableIsWellFormed(env, s);
    RetirementsSound(env, s, o, (p, i));
    assert Wf(env, p, {});
    if Retainable(env, p.jobs[p.active[i]]) {
      DonorRoomSound(env, p, p.active[i]);
      RetainedBlocks(env, MakeDonorRoom(ForgetJob(p, p.active[i])), p.active[i], WholeBlocks(env, p.jobs[p.active[i]]));
    }
  }

  /* ---------------- what a hit hands out ---------------- */

  /** PREFIX-CACHE SOUNDNESS, AT THE LOOKUP. In every run without hash collision whose
      throwing iterations poison nothing, whenever an admission finds a hit the sequence it
      names holds the newcomer's own prompt prefix at that moment, and that is what the
      newcomer starts from. */
  lemma HitsAreSound(env: Env, run: seq<Sys>, events: seq<Event>, p: Sys)
    requires IsRun(env, run, events) && FaultsAreContained(env, run, events)
    requires CollisionFree(env, Last(run).accepted) && p in AdmitPoints(env, Last(run))
    ensures p.pending != [] && p.freeSlots != []
    ensures var r := MakeRoom(env, p);
      var job := FrontJob(env, r);
      var hit := HitFor(env, r.cache, job);
      hit.Some? ==>
        var e := r.cache.entries[hit.value].entry;
        && e.sid in r.kv && e.nTokens <= |r.kv[e.sid].cells| && e.nTokens <= |job.st.prompt|
        && r.kv[e.sid].cells[..e.nTokens] == job.st.prompt[..e.nTokens]
        && (Admit(env, r).Some? ==>
              job.st.sid in Admit(env, r).value.kv && Admit(env, r).value.kv[job.st.sid].cells == job.st.prompt[..e.nTokens])
  {
    EveryRunIsWellFormed(env, run, events);
    EveryRunIsInSync(env, run, events);
    AdmitPointsHealthy(env, Last(run), p);
    FrontRegistered(env, p);
    var r := MakeRoom(env, p);
    if HitFor(env, r.cache, FrontJob(env, r)).Some? {
      HitIsSound(env, r);
      NewcomerStartsThere(env, r);
    }
  }

  lemma FrontRegistered(env: Env, s: Sys)
    requires Healthy(env, s) && s.pending != [] && s.freeSlots != []
    ensures var r := MakeRoom(env, s);
      Sound(env, r, {Last(r.freeSlots)}) && Sync(env, r) && Registered(env, r)
  {
    assert Wf(env, s, {});
    AcceptedKnown(env, s, {});
    MakeRoomSound(env, s);
    MakeRoomSync(env, s);
  }

  lemma HitIsSound(env: Env, s: Sys)
    requires s.freeSlots != [] && Sound(env, s, {Last(s.freeSlots)}) && Sync(env, s) && Registered(env, s) && CollisionFree(env, s.accepted)
    requires HitFor(env, s.cache, FrontJob(env, s)).Some?
    ensures var job := FrontJob(env, s);
      var e := s.cache.entries[HitFor(env, s.cache, job).value].entry;
      && e.sid in s.kv && 0 < e.nTokens <= |s.kv[e.sid].cells| && e.nTokens <= |job.st.prompt|
      && s.kv[e.sid].cells[..e.nTokens] == job.st.prompt[..e.nTokens]
  {
    var job := FrontJob(env, s);
    var h := HitFor(env, s.cache, job).value;
    var e := s.cache.entries[h].entry;
    LongestMatchKey(env.be.hash, s.cache, job.st.prompt, env.cfg.blockSize);
    assert Wf(env, s, {Last(s.freeSlots)});
    assert EntryOk(env.cfg.blockSize, e, s.jobs, s.held);
    HitIsOwnPrefix(env, s, s.pending[0], h, e);
    PositiveProduct(|e.blocks|, env.cfg.blockSize);
  }

  lemma NewcomerStartsThere(env: Env, s: Sys)
    requires s.pending != [] && s.freeSlots != [] && Last(s.freeSlots) in s.kv && s.kv[Last(s.freeSlots)].cells == []
    requires HitFor(env, s.cache, FrontJob(env, s)).Some?
    requires var e := s.cache.entries[HitFor(env, s.cache, FrontJob(env, s)).value].entry;
      e.sid in s.kv && 0 < e.nTokens <= |s.kv[e.sid].cells|
    ensures var job := FrontJob(env, s);
      var e := s.cache.entries[HitFor(env, s.cache, job).value].entry;
      Admit(env, s).Some? ==>
        job.st.sid in Admit(env, s).value.kv && Admit(env, s).value.kv[job.st.sid].cells == s.kv[e.sid].cells[..e.nTokens]
  {
    var job := FrontJob(env, s);
    var (q, t) := Reserved(env, s);
    SharePrefixHit(env, s.(pool := q), job.(table := t));
  }
}
