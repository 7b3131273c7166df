/** How long a running sequence's prompt stays findable. An entry is stored under the hash of
    its owner's whole-block prefix and goes when its owner leaves (src/core/scheduler.cpp:196-213,
    322-356, 549-567; src/core/block_allocator.cpp:113-168). A later sequence with the same prefix
    takes the entry over, and when it leaves the entry goes although the first still runs. */
module Persistence {
  import opened Types
  import opened Sequence
  import opened BlockPool
  import opened Cache
  import opened Engine
  import opened Scheduling
  import opened Invariants
  import opened Runs
  import opened Moments
  import opened Reuse

  /** A running sequence can be found under `h`, for `n` tokens. */
  ghost predicate Live(c: CacheState, h: nat, n: nat) {
    h in c.entries && !c.entries[h].entry.retained && c.entries[h].entry.nTokens == n
  }

  /** A live entry is stored for its owner's whole-block prefix. */
  ghost predicate KeyedEntry(env: Env, h: nat, e: Entry, jobs: map<SeqId, Job>) {
    e.retained || (e.sid in jobs && h == PrefixKey(env, jobs[e.sid]) && e.nTokens == PrefixTokens(env, jobs[e.sid]))
  }

  ghost predicate Keyed(env: Env, c: CacheState, jobs: map<SeqId, Job>) {
    forall h {:trigger KeyedEntry(env, h, c.entries[h].entry, jobs)} :: h in c.entries ==> KeyedEntry(env, h, c.entries[h].entry, jobs)
  }

  /** What is watched: nothing, or the prefix stored under `h` for `n` tokens, given that the
      sequences in `stay` do not leave. */
  datatype Watch = Nothing | Prefix(h: nat, n: nat, stay: set<SeqId>)

  /** Whoever has that prefix key has it for the same length, and stays. */
  ghost predicate Steady(env: Env, jobs: map<SeqId, Job>, w: Watch) {
    w.Prefix? ==> forall k :: k in jobs && PrefixKey(env, jobs[k]) == w.h ==> k in w.stay && PrefixTokens(env, jobs[k]) == w.n
  }

  ghost predicate Tracked(env: Env, s: Sys, w: Watch) {
    Keyed(env, s.cache, s.jobs) && (w.Prefix? ==> Live(s.cache, w.h, w.n))
  }

  /** Prompts do not change, and nobody joins. */
  ghost predicate SamePrompts(jobs: map<SeqId, Job>, jobs': map<SeqId, Job>) {
    forall k :: k in jobs' ==> k in jobs && jobs'[k].st.prompt == jobs[k].st.prompt
  }

  /** Entries may go or be touched, as long as live ones keep their owners and the watched one
      stays. */
  lemma TrackedSub(env: Env, s: Sys, r: Sys, w: Watch)
    requires Tracked(env, s, w) && SubEntries(r.cache, s.cache) && SamePrompts(s.jobs, r.jobs)
    requires forall h :: h in r.cache.entries && !r.cache.entries[h].entry.retained ==> r.cache.entries[h].entry.sid in r.jobs
    requires w.Prefix? ==> w.h in r.cache.entries
    ensures Tracked(env, r, w)
  {
    forall h | h in r.cache.entries
      ensures KeyedEntry(env, h, r.cache.entries[h].entry, r.jobs)
    {
      assert KeyedEntry(env, h, s.cache.entries[h].entry, s.jobs);
    }
  }

  /** The common case: the same sequences, and only retained entries may have gone. */
  lemma TrackedSame(env: Env, s: Sys, r: Sys, w: Watch)
    requires Tracked(env, s, w) && SubEntries(r.cache, s.cache) && SamePrompts(s.jobs, r.jobs) && r.jobs.Keys == s.jobs.Keys
    requires forall h :: h in s.cache.entries && !s.cache.entries[h].entry.retained ==> h in r.cache.entries
    ensures Tracked(env, r, w)
  {
    forall h | h in r.cache.entries && !r.cache.entries[h].entry.retained
      ensures r.cache.entries[h].entry.sid in r.jobs
    {
      assert KeyedEntry(env, h, s.cache.entries[h].entry, s.jobs);
    }
    TrackedSub(env, s, r, w);
  }

  /* ---------------- donors and admission ---------------- */

  lemma ReclaimDonorTracked(env: Env, s: Sys, w: Watch)
    requires Tracked(env, s, w) && HasRetained(s.cache)
    ensures Tracked(env, ReclaimDonor(s), w)
  {
    TrackedSame(env, s, ReclaimDonor(s), w);
  }

  lemma {:induction false} ReclaimUntilTracked(env: Env, s: Sys, n: nat, w: Watch)
    requires Tracked(env, s, w)
    ensures Tracked(env, ReclaimUntil(s, n), w)
    decreases |s.cache.entries|
  {
    if |s.pool.freeList| < n && HasRetained(s.cache) {
      ReclaimDonorTracked(env, s, w);
      ReclaimUntilTracked(env, ReclaimDonor(s), n, w);
    }
  }

  lemma MakeRoomTracked(env: Env, s: Sys, w: Watch)
    requires Tracked(env, s, w) && s.pending != [] && s.freeSlots != []
    ensures Tracked(env, MakeRoom(env, s), w)
  {
    var n: nat :| n == Want(env, s) + Headroom(s);
    MakeRoomReclaims(env, s, n);
    var s0 := s.(kv := Begin(s.kv, Last(s.freeSlots), s.pending[0].spec.sampling));
    assert Tracked(env, s0, w);
    ReclaimUntilTracked(env, s0, n, w);
  }

  /** A newcomer owns no entry yet. */
  lemma EnrollTracked(env: Env, s: Sys, job: Job, w: Watch)
    requires Tracked(env, s, w) && s.pending != [] && s.freeSlots != [] && Last(s.freeSlots) !in s.jobs
    ensures Tracked(env, Enroll(s, job), w)
  {
    var r := Enroll(s, job);
    forall h | h in r.cache.entries
      ensures KeyedEntry(env, h, r.cache.entries[h].entry, r.jobs)
    {
      assert KeyedEntry(env, h, s.cache.entries[h].entry, s.jobs);
    }
  }

  lemma ShareTracked(env: Env, s: Sys, job: Job, w: Watch)
    requires Tracked(env, s, w)
    ensures Tracked(env, SharePrefix(env, s, job).0, w) && SharePrefix(env, s, job).1.st.prompt == job.st.prompt
  {
    TrackedSame(env, s, SharePrefix(env, s, job).0, w);
  }

  lemma AdmitTracked(env: Env, s: Sys, w: Watch)
    requires Tracked(env, s, w) && s.pending != [] && s.freeSlots != [] && Last(s.freeSlots) !in s.jobs && Admit(env, s).Some?
    ensures Tracked(env, Admit(env, s).value, w)
  {
    var job := FrontJob(env, s);
    if Finished(job) {
      EnrollTracked(env, s, job, w);
    } else {
      var (q, t, _) := EnsureCapacity(env.cfg.blockSize, s.pool, EMPTY_TABLE, |job.st.prompt|);
      var (s2, j2) := SharePrefix(env, s.(pool := q), job.(table := t));
      ShareTracked(env, s.(pool := q), job.(table := t), w);
      EnrollTracked(env, s2, j2, w);
    }
  }

  lemma AdmitFrontTracked(env: Env, s: Sys, w: Watch)
    requires Tracked(env, s, w) && s.pending != [] && s.freeSlots != [] && Last(s.freeSlots) !in s.jobs
    ensures Tracked(env, AdmitFront(env, s).0, w)
  {
    MakeRoomTracked(env, s, w);
    if Admit(env, MakeRoom(env, s)).Some? {
      AdmitTracked(env, MakeRoom(env, s), w);
    }
  }

  /** Admission leaves live entries alone. */
  lemma {:induction false} AdmitLoopTracked(env: Env, s: Sys, w: Watch)
    requires Sound(env, s, {}) && Tracked(env, s, w)
    ensures Sound(env, AdmitLoop(env, s), {}) && Tracked(env, AdmitLoop(env, s), w)
    decreases |s.pending|
  {
    if s.pending != [] && s.freeSlots != [] {
      assert Wf(env, s, {}) && Last(s.freeSlots) in s.freeSlots;
      AdmitFrontWf(env, s);
      AdmitFrontTracked(env, s, w);
      if !AdmitFront(env, s).1.Deferred? {
        AdmitLoopTracked(env, AdmitFront(env, s).0, w);
      }
    }
  }

  /* ---------------- a pass ---------------- */

  /** Tracked, and steady: what holds once everybody who will run has been admitted. */
  ghost predicate Watched(env: Env, s: Sys, w: Watch) {
    Tracked(env, s, w) && Steady(env, s.jobs, w)
  }

  lemma WatchedSame(env: Env, s: Sys, r: Sys, w: Watch)
    requires Watched(env, s, w) && SamePrompts(s.jobs, r.jobs) && r.jobs.Keys == s.jobs.Keys && r.cache == s.cache
    ensures Watched(env, r, w)
  {
    TrackedSame(env, s, r, w);
  }

  lemma PublishWatched(env: Env, s: Sys, sid: SeqId, w: Watch)
    requires Watched(env, s, w) && sid in s.jobs
    ensures Watched(env, Publish(env, s, sid), w)
  {
    var r := Publish(env, s, sid);
    forall h | h in r.cache.entries
      ensures KeyedEntry(env, h, r.cache.entries[h].entry, r.jobs)
    {
      assert h in s.cache.entries ==> KeyedEntry(env, h, s.cache.entries[h].entry, s.jobs);
    }
  }

  lemma AcceptOneWatched(env: Env, s: Sys, sid: SeqId, next: NextToken, cancelled: bool, w: Watch)
    requires Watched(env, s, w) && sid in s.jobs
    ensures Watched(env, AcceptOne(env, s, sid, next, cancelled).0, w)
  {
    var j := s.jobs[sid];
    var g := Accept(env.be.piece, j.st.spec, j.st.gen, next, cancelled);
    var j1 := SetGen(j, g);
    var (q, t, ok) := EnsureCapacity(env.cfg.blockSize, s.pool, j1.table, Tokens(j1));
    if !g.finished && ok {
      JobWatched(env, s, q, sid, j1.(table := t), w);
      PublishWatched(env, s.(pool := q, jobs := s.jobs[sid := j1.(table := t)]), sid, w);
    } else {
      JobWatched(env, s, s.pool, sid, if g.finished then SetGen(j, Finish(g)) else j1, w);
    }
  }

  lemma JobWatched(env: Env, s: Sys, q: Pool, sid: SeqId, j: Job, w: Watch)
    requires Watched(env, s, w) && sid in s.jobs && j.st.prompt == s.jobs[sid].st.prompt
    ensures Watched(env, s.(pool := q, jobs := s.jobs[sid := j]), w)
  {
    WatchedSame(env, s, s.(pool := q, jobs := s.jobs[sid := j]), w);
  }

  lemma {:induction false} AcceptLoopWatched(env: Env, s: Sys, sampling: seq<SeqId>, steps: seq<GenStep>, cancelled: set<nat>, w: Watch)
    requires Watched(env, s, w)
    requires |steps| == |sampling| && forall i :: 0 <= i < |sampling| ==> sampling[i] in s.jobs
    ensures Watched(env, AcceptLoop(env, s, sampling, steps, cancelled).0, w)
    decreases |sampling|
  {
    if sampling != [] {
      var sid := sampling[0];
      var hit := s.jobs[sid].req.id in cancelled;
      AcceptOneWatched(env, s, sid, steps[0].next, hit, w);
      AcceptLoopWatched(env, AcceptOne(env, s, sid, steps[0].next, hit).0, sampling[1..], steps[1..], cancelled, w);
    }
  }

  lemma AdvanceWatched(env: Env, s: Sys, o: Oracle, w: Watch)
    requires Wf(env, s, {}) && Watched(env, s, w)
    ensures Watched(env, Advance(env, s, o).0, w)
  {
    BuildOnlyPrefills(env, s);
    var (items, jobs) := Build(env, s);
    var s1 := s.(jobs := jobs);
    WatchedSame(env, s, s1, w);
    if items != [] {
      if o.fault.Some? {
        CrashWatched(env, s1, items, o.fault.value, w);
      } else {
        ForwardWatched(env, s1, items, o.cancelled, w);
      }
    }
  }

  lemma CrashWatched(env: Env, s: Sys, items: seq<BatchItem>, garbage: map<SeqId, seq<Token>>, w: Watch)
    requires Watched(env, s, w)
    ensures Watched(env, Crash(s, items, garbage), w)
  {
    var r := Crash(s, items, garbage);
    assert r.jobs.Keys == s.jobs.Keys;
    WatchedSame(env, s, r, w);
  }

  lemma ForwardWatched(env: Env, s: Sys, items: seq<BatchItem>, cancelled: set<nat>, w: Watch)
    requires Watched(env, s, w)
    ensures Watched(env, Forward(env, s, items, cancelled).0, w)
  {
    var (kv, steps) := Decode(env.be, s.kv, items);
    var sampling := SampledSids(items);
    WatchedSame(env, s, s.(kv := kv), w);
    if |steps| == |sampling| && forall i :: 0 <= i < |sampling| ==> sampling[i] in s.jobs {
      AcceptLoopWatched(env, s.(kv := kv), sampling, steps, cancelled, w);
    }
  }

  /* ---------------- leaving ---------------- */

  /** The entries of a sequence that is about to leave go; the watched one is not among them. */
  lemma ForgetWatched(env: Env, s: Sys, sid: SeqId, w: Watch)
    requires Watched(env, s, w) && (w.Prefix? ==> sid !in w.stay)
    ensures Watched(env, ForgetJob(s, sid), w)
  {
    if w.Prefix? {
      assert KeyedEntry(env, w.h, s.cache.entries[w.h].entry, s.jobs);
    }
    var r := ForgetJob(s, sid);
    forall h | h in r.cache.entries && !r.cache.entries[h].entry.retained
      ensures r.cache.entries[h].entry.sid in r.jobs
    {
      assert KeyedEntry(env, h, s.cache.entries[h].entry, s.jobs);
    }
    TrackedSub(env, s, r, w);
  }

  lemma RemoveWatched(env: Env, s: Sys, i: nat, w: Watch)
    requires Watched(env, s, w) && i < |s.active| && s.active[i] in s.jobs && Unnamed(s.cache, s.active[i])
    ensures Watched(env, RemoveJob(s, i), w)
  {
    var r := RemoveJob(s, i);
    forall h | h in r.cache.entries && !r.cache.entries[h].entry.retained
      ensures r.cache.entries[h].entry.sid in r.jobs
    {
      assert KeyedEntry(env, h, s.cache.entries[h].entry, s.jobs);
    }
    TrackedSub(env, s, r, w);
  }

  lemma PreemptAtWatched(env: Env, s: Sys, i: nat, w: Watch)
    requires Watched(env, s, w) && i < |s.active| && s.active[i] in s.jobs && (w.Prefix? ==> s.active[i] !in w.stay)
    ensures Watched(env, PreemptAt(s, i), w)
  {
    ForgetWatched(env, s, s.active[i], w);
    RemoveWatched(env, ForgetJob(s, s.active[i]), i, w);
  }

  lemma StoreWatched(env: Env, s: Sys, j: Job, w: Watch)
    requires Watched(env, s, w) && s.cache.freeDonors != [] && WholeBlocks(env, j) <= |j.table.blocks|
    requires w.Prefix? ==> PrefixKey(env, j) != w.h
    ensures Watched(env, StoreDonor(env, s, j), w)
  {
    var r := StoreDonor(env, s, j);
    forall h | h in r.cache.entries
      ensures KeyedEntry(env, h, r.cache.entries[h].entry, r.jobs)
    {
      assert h in s.cache.entries ==> KeyedEntry(env, h, s.cache.entries[h].entry, s.jobs);
    }
  }

  /** Making room drops a retained entry, and storing replaces what is under the leaver's key. */
  lemma RetainWatched(env: Env, s: Sys, j: Job, copyFails: bool, w: Watch)
    requires Sound(env, s, {}) && Watched(env, s, w) && (w.Prefix? ==> PrefixKey(env, j) != w.h)
    ensures Watched(env, RetainPrefix(env, s, j, copyFails), w)
  {
    if Retainable(env, j) {
      assert Wf(env, s, {});
      var s1 := MakeDonorRoom(s);
      if s.cache.freeDonors == [] && HasRetained(s.cache) {
        ReclaimDonorTracked(env, s, w);
        ReclaimDonorWf(env, s, {});
      }
      if s1.cache.freeDonors != [] {
        if copyFails {
          LoseDonorSlotWf(env, s1);
          TrackedSame(env, s1, LoseDonorSlot(s1), w);
        } else {
          StoreWatched(env, s1, j, w);
        }
      }
    }
  }

  lemma RetireAtWatched(env: Env, s: Sys, i: nat, copyFails: set<nat>, w: Watch)
    requires Sound(env, s, {}) && Watched(env, s, w) && i < |s.active| && s.active[i] in s.jobs && (w.Prefix? ==> s.active[i] !in w.stay)
    ensures Watched(env, RetireAt(env, s, i, copyFails), w)
  {
    var sid := s.active[i];
    var j := s.jobs[sid];
    var s1 := ForgetJob(s, sid);
    var s2 := RetainPrefix(env, s1, j, j.req.id in copyFails);
    ForgetWatched(env, s, sid, w);
    LeavesUnnamed(env, s, sid, j.req.id in copyFails);
    RetainWatched(env, s1, j, j.req.id in copyFails, w);
    RemoveWatched(env, s2, i, w);
  }

  lemma LeavesUnnamed(env: Env, s: Sys, sid: SeqId, copyFails: bool)
    requires Sound(env, s, {}) && sid in s.jobs
    ensures var s1 := ForgetJob(s, sid);
      Sound(env, s1, {}) && Unnamed(RetainPrefix(env, s1, s.jobs[sid], copyFails).cache, sid)
  {
    assert Wf(env, s, {}) && sid !in s.held;
    ForgetWf(env, s, {}, sid);
    RetainPrefixWf(env, ForgetJob(s, sid), sid, copyFails);
  }

  /** Nobody joins during a sweep. */
  lemma {:induction false} SweepShrinks(env: Env, s: Sys, i: nat, copyFails: set<nat>)
    ensures Sweep(env, s, i, copyFails).jobs.Keys <= s.jobs.Keys
    decreases |s.active| - i
  {
    if i < |s.active| {
      if s.active[i] in s.jobs && Finished(s.jobs[s.active[i]]) {
        SweepShrinks(env, RetireAt(env, s, i, copyFails), i, copyFails);
        assert RetireAt(env, s, i, copyFails).jobs == s.jobs - {s.active[i]};
      } else {
        SweepShrinks(env, s, i + 1, copyFails);
      }
    }
  }

  lemma {:induction false} SweepWatched(env: Env, s: Sys, i: nat, copyFails: set<nat>, w: Watch)
    requires Sound(env, s, {}) && Watched(env, s, w)
    requires w.Prefix? ==> w.stay <= Sweep(env, s, i, copyFails).jobs.Keys
    ensures Watched(env, Sweep(env, s, i, copyFails), w)
    decreases |s.active| - i
  {
    if i < |s.active| {
      RetireSound(env, s, i, copyFails);
      if Finished(s.jobs[s.active[i]]) {
        var r := RetireAt(env, s, i, copyFails);
        SweepShrinks(env, r, i, copyFails);
        assert r.jobs == s.jobs - {s.active[i]};
        RetireAtWatched(env, s, i, copyFails, w);
        SweepWatched(env, r, i, copyFails, w);
      } else {
        SweepWatched(env, s, i + 1, copyFails, w);
      }
    }
  }

  /* ---------------- making room for a starved sequence ---------------- */

  lemma {:induction false} ReclaimForWatched(env: Env, s: Sys, sid: SeqId, needed: nat, w: Watch)
    requires Watched(env, s, w) && sid in s.jobs
    ensures Watched(env, ReclaimFor(env, s, sid, needed), w) && ReclaimFor(env, s, sid, needed).jobs.Keys == s.jobs.Keys
    decreases |s.cache.entries|
  {
    var (grown, ok) := GrowTable(env, s, sid, needed);
    WatchedSame(env, s, grown, w);
    if !ok && HasRetained(s.cache) {
      ReclaimDonorTracked(env, grown, w);
      ReclaimForWatched(env, ReclaimDonor(grown), sid, needed, w);
    }
  }

  lemma {:induction false} PreemptForShrinks(env: Env, s: Sys, sid: SeqId, needed: nat)
    requires sid in s.jobs
    ensures PreemptFor(env, s, sid, needed).jobs.Keys <= s.jobs.Keys
    decreases |s.active|
  {
    var (grown, ok) := GrowTable(env, s, sid, needed);
    if !ok {
      var v := Victim(grown.active, grown.jobs, sid, |grown.active|);
      if v.Some? {
        PreemptForShrinks(env, PreemptAt(grown, v.value), sid, needed);
      }
    }
  }

  lemma {:induction false} PreemptForWatched(env: Env, s: Sys, sid: SeqId, needed: nat, w: Watch)
    requires Watched(env, s, w) && sid in s.jobs
    requires w.Prefix? ==> w.stay <= PreemptFor(env, s, sid, needed).jobs.Keys
    ensures Watched(env, PreemptFor(env, s, sid, needed), w)
    decreases |s.active|
  {
    var (grown, ok) := GrowTable(env, s, sid, needed);
    WatchedSame(env, s, grown, w);
    if !ok {
      var v := Victim(grown.active, grown.jobs, sid, |grown.active|);
      if v.Some? {
        PreemptForShrinks(env, PreemptAt(grown, v.value), sid, needed);
        PreemptAtWatched(env, grown, v.value, w);
        PreemptForWatched(env, PreemptAt(grown, v.value), sid, needed, w);
      }
    }
  }

  lemma ResolveOneShrinks(env: Env, s: Sys, sid: SeqId)
    ensures ResolveOne(env, s, sid).jobs.Keys <= s.jobs.Keys
  {
    if sid in s.active && sid in s.jobs {
      var j := s.jobs[sid];
      if BlocksFor(env.cfg.blockSize, Tokens(j)) <= |s.pool.refs| {
        ReclaimForKeys(env, s, sid, Tokens(j));
        PreemptForShrinks(env, ReclaimFor(env, s, sid, Tokens(j)), sid, Tokens(j));
      }
    }
  }

  lemma {:induction false} ReclaimForKeys(env: Env, s: Sys, sid: SeqId, needed: nat)
    requires sid in s.jobs
    ensures ReclaimFor(env, s, sid, needed).jobs.Keys == s.jobs.Keys
    decreases |s.cache.entries|
  {
    var (grown, ok) := GrowTable(env, s, sid, needed);
    if !ok && HasRetained(s.cache) {
      ReclaimForKeys(env, ReclaimDonor(grown), sid, needed);
    }
  }

  lemma ResolveOneWatched(env: Env, s: Sys, sid: SeqId, w: Watch)
    requires Watched(env, s, w) && (w.Prefix? ==> w.stay <= ResolveOne(env, s, sid).jobs.Keys)
    ensures Watched(env, ResolveOne(env, s, sid), w)
  {
    if sid in s.active && sid in s.jobs {
      var j := s.jobs[sid];
      if BlocksFor(env.cfg.blockSize, Tokens(j)) <= |s.pool.refs| {
        ReclaimForWatched(env, s, sid, Tokens(j), w);
        PreemptForWatched(env, ReclaimFor(env, s, sid, Tokens(j)), sid, Tokens(j), w);
      } else {
        WatchedSame(env, s, ResolveOne(env, s, sid), w);
      }
    }
  }

  lemma {:induction false} ResolveAllShrinks(env: Env, s: Sys, starved: seq<SeqId>)
    ensures ResolveAll(env, s, starved).jobs.Keys <= s.jobs.Keys
    decreases |starved|
  {
    if starved != [] {
      ResolveOneShrinks(env, s, starved[0]);
      ResolveAllShrinks(env, ResolveOne(env, s, starved[0]), starved[1..]);
    }
  }

  lemma {:induction false} ResolveAllWatched(env: Env, s: Sys, starved: seq<SeqId>, w: Watch)
    requires Watched(env, s, w) && (w.Prefix? ==> w.stay <= ResolveAll(env, s, starved).jobs.Keys)
    ensures Watched(env, ResolveAll(env, s, starved), w)
    decreases |starved|
  {
    if starved != [] {
      ResolveAllShrinks(env, ResolveOne(env, s, starved[0]), starved[1..]);
      ResolveOneWatched(env, s, starved[0], w);
      ResolveAllWatched(env, ResolveOne(env, s, starved[0]), starved[1..], w);
    }
  }

  /* ---------------- iterations and runs ---------------- */

  lemma WorkTracked(env: Env, s: Sys, o: Oracle, w: Watch)
    requires Sound(env, s, {}) && Tracked(env, s, w) && Steady(env, AdmitLoop(env, s).jobs, w)
    requires w.Prefix? ==> w.stay <= Work(env, s, o).jobs.Keys
    ensures Tracked(env, Work(env, s, o), w)
  {
    AdmitLoopTracked(env, s, w);
    var s1 := AdmitLoop(env, s);
    if s1.active != [] {
      assert Wf(env, s1, {});
      AdvanceWatched(env, s1, o, w);
      AdvanceWf(env, s1, o);
      var (s2, starved) := Advance(env, s1, o);
      var s3 := Sweep(env, s2, 0, o.copyFails);
      var s4 := ResolveAll(env, s3, starved);
      ResolveAllShrinks(env, s3, starved);
      SweepShrinks(env, s4, 0, o.copyFails);
      SweepSound(env, s2, 0, o.copyFails);
      SweepWatched(env, s2, 0, o.copyFails, w);
      ResolveAllWatched(env, s3, starved, w);
      ResolvedSound(env, s3, starved);
      SweepWatched(env, s4, 0, o.copyFails, w);
    }
  }

  lemma ResolvedSound(env: Env, s: Sys, starved: seq<SeqId>)
    requires Sound(env, s, {})
    ensures Sound(env, ResolveAll(env, s, starved), {})
  {
    assert Wf(env, s, {});
    ResolveAllWf(env, s, starved);
  }

  /** In every run a live entry is stored under its owner's own prefix key. */
  lemma {:induction false} EveryRunIsKeyed(env: Env, run: seq<Sys>, events: seq<Event>)
    requires IsRun(env, run, events)
    ensures Keyed(env, Last(run).cache, Last(run).jobs)
    decreases |events|
  {
    if events != [] {
      RunPrefix(env, run, events);
      EveryRunIsWellFormed(env, DropLast(run), DropLast(events));
      EveryRunIsKeyed(env, DropLast(run), DropLast(events));
      if Last(events).Step? {
        WorkTracked(env, Last(DropLast(run)), Last(events).oracle, Nothing);
      }
    }
  }

  /** In this step nobody with prefix key `h` leaves, or has it for another length. */
  ghost predicate NobodyLeaves(env: Env, s: Sys, ev: Event, h: nat, n: nat) {
    ev.Step? ==>
      var jobs := AdmitLoop(env, s).jobs;
      forall k {:trigger jobs[k]} :: k in jobs && PrefixKey(env, jobs[k]) == h ==>
        PrefixTokens(env, jobs[k]) == n && k in Work(env, s, ev.oracle).jobs
  }

  lemma NextLive(env: Env, s: Sys, ev: Event, h: nat, n: nat)
    requires Sound(env, s, {}) && Keyed(env, s.cache, s.jobs) && Live(s.cache, h, n) && NobodyLeaves(env, s, ev, h, n)
    ensures Live(Next(env, s, ev).cache, h, n)
  {
    if ev.Step? {
      WorkTracked(env, s, ev.oracle, Prefix(h, n, Work(env, s, ev.oracle).jobs.Keys));
    }
  }

  /** From the i-th state on, nobody with that prefix key leaves. */
  ghost predicate NobodyLeavesFrom(env: Env, run: seq<Sys>, events: seq<Event>, i: nat, h: nat, n: nat)
    requires |run| == |events| + 1
  {
    forall t: nat {:trigger run[t]} :: i <= t < |events| ==> NobodyLeaves(env, run[t], events[t], h, n)
  }

  lemma NobodyLeavesBefore(env: Env, run: seq<Sys>, events: seq<Event>, i: nat, h: nat, n: nat)
    requires |run| == |events| + 1 && i < |events| && NobodyLeavesFrom(env, run, events, i, h, n)
    ensures NobodyLeavesFrom(env, DropLast(run), DropLast(events), i, h, n)
    ensures NobodyLeaves(env, Last(DropLast(run)), Last(events), h, n)
  {
    var before, earlier := DropLast(run), DropLast(events);
    assert Last(before) == run[|events| - 1];
    forall t: nat | i <= t < |earlier|
      ensures NobodyLeaves(env, before[t], earlier[t], h, n)
    {
      assert before[t] == run[t] && earlier[t] == events[t];
    }
  }

  /** A RUNNING PREFIX STAYS FINDABLE. Once a running sequence can be found under `h` it, or
      whoever took the entry over, stays findable for the rest of any run for as long as no
      sequence with that prefix key leaves: neither admissions, nor evictions, nor the comings
      and goings of all the others remove the entry. */
  lemma {:induction false} RunningPrefixStaysFindable(env: Env, run: seq<Sys>, events: seq<Event>, i: nat, h: nat, n: nat)
    requires IsRun(env, run, events) && i < |run| && Live(run[i].cache, h, n) && NobodyLeavesFrom(env, run, events, i, h, n)
    ensures Live(Last(run).cache, h, n)
    decreases |events|
  {
    if i < |events| {
      RunPrefix(env, run, events);
      NobodyLeavesBefore(env, run, events, i, h, n);
      RunningPrefixStaysFindable(env, DropLast(run), DropLast(events), i, h, n);
      EveryRunIsWellFormed(env, DropLast(run), DropLast(events));
      EveryRunIsKeyed(env, DropLast(run), DropLast(events));
      NextLive(env, Last(DropLast(run)), Last(events), h, n);
    }
  }

  lemma {:induction false} AdmitPointsTracked(env: Env, s: Sys, p: Sys, w: Watch)
    requires Sound(env, s, {}) && Tracked(env, s, w) && p in AdmitPoints(env, s)
    ensures Tracked(env, p, w) && p.pending != [] && p.freeSlots != []
    decreases |s.pending|
  {
    if p != s {
      assert Wf(env, s, {}) && Last(s.freeSlots) in s.freeSlots;
      AdmitFrontWf(env, s);
      AdmitFrontTracked(env, s, w);
      AdmitPointsTracked(env, AdmitFront(env, s).0, p, w);
    }
  }

  /** The job stores, or would store, its prompt's whole blocks under `h`, as `n` tokens. */
  predicate StoredAs(env: Env, prompt: seq<Token>, h: nat, n: nat) {
    var nb := |prompt| / env.cfg.blockSize;
    nb > 0 && n == nb * env.cfg.blockSize && h == env.be.hash(prompt[..n])
  }

  lemma WholePrefixFound(env: Env, c: CacheState, j: Job, h: nat, n: nat)
    requires StoredAs(env, j.st.prompt, h, n) && Live(c, h, n) && StartsBehind(env, c, j)
    ensures j.table.sharedTokens == n
  {
    var nb := |j.st.prompt| / env.cfg.blockSize;
    assert Cached(env, c, j.st.prompt, nb);
    if k: nat :| StartsAt(env, c, j, k) {
      LargestIsAll(env, c, j, k, nb);
    }
  }

  lemma LargestIsAll(env: Env, c: CacheState, j: Job, k: nat, nb: nat)
    requires StartsAt(env, c, j, k) && Cached(env, c, j.st.prompt, nb) && nb == |j.st.prompt| / env.cfg.blockSize
    ensures k == nb
  {
    Quotients(k, |j.st.prompt|, env.cfg.blockSize);
  }

  /** So for that long every newcomer with such a prompt reuses all of its whole blocks. */
  lemma RunningPrefixIsReused(env: Env, run: seq<Sys>, events: seq<Event>, i: nat, h: nat, n: nat, p: Sys)
    requires IsRun(env, run, events) && i < |run| && Live(run[i].cache, h, n) && NobodyLeavesFrom(env, run, events, i, h, n)
    requires env.cfg.prefixCaching && p in AdmitPoints(env, Last(run))
    ensures p.pending != [] && p.freeSlots != []
    ensures var r := MakeRoom(env, p);
      StoredAs(env, PromptOf(env, p.pending[0]), h, n) && Admit(env, r).Some? && !Finished(FrontJob(env, p)) ==>
        Last(p.freeSlots) in Admit(env, r).value.jobs && Admit(env, r).value.jobs[Last(p.freeSlots)].table.sharedTokens == n
  {
    RunningPrefixStaysFindable(env, run, events, i, h, n);
    EveryRunIsWellFormed(env, run, events);
    EveryRunIsKeyed(env, run, events);
    var w := Prefix(h, n, {});
    AdmitPointsTracked(env, Last(run), p, w);
    MakeRoomTracked(env, p, w);
    var r := MakeRoom(env, p);
    ReuseIsExact(env, Last(run), p);
    if StoredAs(env, PromptOf(env, p.pending[0]), h, n) && Admit(env, r).Some? && !Finished(FrontJob(env, p)) {
      WholePrefixFound(env, r.cache, Admit(env, r).value.jobs[Last(p.freeSlots)], h, n);
    }
  }

  /* ---------------- exactly when it goes ---------------- */

  /** The entry under `h` names the running sequence `owner`, or both are gone. */
  ghost predicate Follows(s: Sys, h: nat, n: nat, owner: SeqId) {
    if owner in s.jobs then Live(s.cache, h, n) && s.cache.entries[h].entry.sid == owner else h !in s.cache.entries
  }

  /** The same sequences, and only retained entries may have gone. */
  lemma FollowsSame(s: Sys, r: Sys, h: nat, n: nat, owner: SeqId)
    requires Follows(s, h, n, owner) && (owner in r.jobs <==> owner in s.jobs) && SubEntries(r.cache, s.cache)
    requires h in s.cache.entries && !s.cache.entries[h].entry.retained ==> h in r.cache.entries
    ensures Follows(r, h, n, owner)
  {
  }

  lemma ReclaimDonorFollows(s: Sys, h: nat, n: nat, owner: SeqId)
    requires Follows(s, h, n, owner) && HasRetained(s.cache)
    ensures Follows(ReclaimDonor(s), h, n, owner)
  {
    FollowsSame(s, ReclaimDonor(s), h, n, owner);
  }

  /** The owner leaves with its entry, and nobody else does. */
  lemma LeaveFollows(s: Sys, r: Sys, sid: SeqId, h: nat, n: nat, owner: SeqId)
    requires Follows(s, h, n, owner) && r.jobs == s.jobs - {sid} && r.cache.entries == EvictSequence(s.cache, sid).entries
    ensures Follows(r, h, n, owner)
  {
  }

  /** What is under `h` stays there. */
  ghost predicate SameUnder(c: CacheState, d: CacheState, h: nat) {
    (h in d.entries <==> h in c.entries) && (h in c.entries ==> d.entries[h].entry == c.entries[h].entry)
  }

  lemma DonorRoomSame(s: Sys, h: nat)
    requires h in s.cache.entries ==> !s.cache.entries[h].entry.retained
    ensures SameUnder(s.cache, MakeDonorRoom(s).cache, h)
  {
  }

  lemma StoreSame(env: Env, s: Sys, j: Job, h: nat)
    requires s.cache.freeDonors != [] && WholeBlocks(env, j) <= |j.table.blocks| && PrefixKey(env, j) != h
    ensures SameUnder(s.cache, StoreDonor(env, s, j).cache, h)
  {
  }

  /** What retiring stores, it stores under another key. */
  lemma RetainFollows(env: Env, s: Sys, j: Job, copyFails: bool, h: nat)
    requires Sound(env, s, {}) && (Retainable(env, j) ==> PrefixKey(env, j) != h)
    requires h in s.cache.entries ==> !s.cache.entries[h].entry.retained
    ensures SameUnder(s.cache, RetainPrefix(env, s, j, copyFails).cache, h)
  {
    if Retainable(env, j) {
      var s1 := MakeDonorRoom(s);
      DonorRoomSame(s, h);
      if s1.cache.freeDonors != [] {
        if copyFails {
          RoomStaysSound(env, s);
          assert Wf(env, s1, {});
          LoseDonorSlotWf(env, s1);
        } else {
          StoreSame(env, s1, j, h);
        }
      }
    }
  }

  lemma RoomStaysSound(env: Env, s: Sys)
    requires Sound(env, s, {})
    ensures Sound(env, MakeDonorRoom(s), {})
  {
    assert Wf(env, s, {});
    if s.cache.freeDonors == [] && HasRetained(s.cache) {
      ReclaimDonorWf(env, s, {});
    }
  }

  lemma RetireAtFollows(env: Env, s: Sys, i: nat, copyFails: set<nat>, h: nat, n: nat, owner: SeqId)
    requires Sound(env, s, {}) && i < |s.active| && s.active[i] in s.jobs && Follows(s, h, n, owner)
    requires Retainable(env, s.jobs[s.active[i]]) ==> PrefixKey(env, s.jobs[s.active[i]]) != h
    ensures Follows(RetireAt(env, s, i, copyFails), h, n, owner)
  {
    var sid, j := s.active[i], s.jobs[s.active[i]];
    LeavesUnnamed(env, s, sid, j.req.id in copyFails);
    RetainFollows(env, ForgetJob(s, sid), j, j.req.id in copyFails, h);
  }

  /** No sequence with that prefix key retires. */
  ghost predicate NoneRetires(env: Env, points: seq<(Sys, nat)>, h: nat) {
    forall p, i: nat :: (p, i) in points && i < |p.active| && p.active[i] in p.jobs ==>
      !(Retainable(env, p.jobs[p.active[i]]) && PrefixKey(env, p.jobs[p.active[i]]) == h)
  }

  lemma {:induction false} SweepFollows(env: Env, s: Sys, i: nat, copyFails: set<nat>, h: nat, n: nat, owner: SeqId)
    requires Sound(env, s, {}) && Follows(s, h, n, owner) && NoneRetires(env, RetirePoints(env, s, i, copyFails), h)
    ensures Follows(Sweep(env, s, i, copyFails), h, n, owner)
    decreases |s.active| - i
  {
    if i < |s.active| {
      RetireSound(env, s, i, copyFails);
      if Finished(s.jobs[s.active[i]]) {
        var rest := RetirePoints(env, RetireAt(env, s, i, copyFails), i, copyFails);
        assert RetirePoints(env, s, i, copyFails) == [(s, i)] + rest;
        assert (s, i) in [(s, i)] + rest;
        assert forall p :: p in rest ==> p in [(s, i)] + rest;
        RetireAtFollows(env, s, i, copyFails, h, n, owner);
        SweepFollows(env, RetireAt(env, s, i, copyFails), i, copyFails, h, n, owner);
      } else {
        SweepFollows(env, s, i + 1, copyFails, h, n, owner);
      }
    }
  }

  lemma {:induction false} ReclaimForFollows(env: Env, s: Sys, sid: SeqId, needed: nat, h: nat, n: nat, owner: SeqId)
    requires sid in s.jobs && Follows(s, h, n, owner)
    ensures Follows(ReclaimFor(env, s, sid, needed), h, n, owner)
    decreases |s.cache.entries|
  {
    var (grown, ok) := GrowTable(env, s, sid, needed);
    FollowsSame(s, grown, h, n, owner);
    if !ok && HasRetained(s.cache) {
      ReclaimDonorFollows(grown, h, n, owner);
      ReclaimForFollows(env, ReclaimDonor(grown), sid, needed, h, n, owner);
    }
  }

  lemma {:induction false} PreemptForFollows(env: Env, s: Sys, sid: SeqId, needed: nat, h: nat, n: nat, owner: SeqId)
    requires sid in s.jobs && Follows(s, h, n, owner)
    ensures Follows(PreemptFor(env, s, sid, needed), h, n, owner)
    decreases |s.active|
  {
    var (grown, ok) := GrowTable(env, s, sid, needed);
    FollowsSame(s, grown, h, n, owner);
    if !ok {
      var v := Victim(grown.active, grown.jobs, sid, |grown.active|);
      if v.Some? {
        LeaveFollows(grown, PreemptAt(grown, v.value), grown.active[v.value], h, n, owner);
        PreemptForFollows(env, PreemptAt(grown, v.value), sid, needed, h, n, owner);
      }
    }
  }

  lemma ResolveOneFollows(env: Env, s: Sys, sid: SeqId, h: nat, n: nat, owner: SeqId)
    requires Follows(s, h, n, owner)
    ensures Follows(ResolveOne(env, s, sid), h, n, owner)
  {
    if sid in s.active && sid in s.jobs {
      var needed := Tokens(s.jobs[sid]);
      ReclaimForFollows(env, s, sid, needed, h, n, owner);
      PreemptForFollows(env, ReclaimFor(env, s, sid, needed), sid, needed, h, n, owner);
    }
  }

  lemma {:induction false} ResolveAllFollows(env: Env, s: Sys, starved: seq<SeqId>, h: nat, n: nat, owner: SeqId)
    requires Follows(s, h, n, owner)
    ensures Follows(ResolveAll(env, s, starved), h, n, owner)
    decreases |starved|
  {
    if starved != [] {
      ResolveOneFollows(env, s, starved[0], h, n, owner);
      ResolveAllFollows(env, ResolveOne(env, s, starved[0]), starved[1..], h, n, owner);
    }
  }

  /** IT GOES EXACTLY WITH ITS OWNER. Whenever an iteration of any run has accepted its tokens and
      a running sequence can then be found under `h`, and no sequence with that key retires into
      a donor, the prefix is findable at the end of the iteration if and only if that very
      sequence, the last to have published it, still runs. */
  lemma FindableIffItsOwnerStays(env: Env, s: Sys, o: Oracle, h: nat, n: nat)
    requires Reachable(env, s) && AdmitLoop(env, s).active != [] && NoneRetires(env, Retirements(env, s, o), h)
    requires Live(Advance(env, AdmitLoop(env, s), o).0.cache, h, n)
    ensures var owner, r := Advance(env, AdmitLoop(env, s), o).0.cache.entries[h].entry.sid, Work(env, s, o);
      && (Live(r.cache, h, n) <==> owner in r.jobs)
      && (h in r.cache.entries <==> owner in r.jobs)
  {
    ReachableIsWellFormed(env, s);
    AdmitLoopWf(env, s);
    AdvanceWf(env, AdmitLoop(env, s), o);
    var (s2, starved) := Advance(env, AdmitLoop(env, s), o);
    var owner := s2.cache.entries[h].entry.sid;
    assert EntryOk(env.cfg.blockSize, s2.cache.entries[h].entry, s2.jobs, s2.held);
    RestFollows(env, s2, starved, o.copyFails, h, n, owner);
  }

  lemma RestFollows(env: Env, s: Sys, starved: seq<SeqId>, copyFails: set<nat>, h: nat, n: nat, owner: SeqId)
    requires Sound(env, s, {}) && Follows(s, h, n, owner)
    requires NoneRetires(env, RetirePoints(env, s, 0, copyFails)
                              + RetirePoints(env, ResolveAll(env, Sweep(env, s, 0, copyFails), starved), 0, copyFails), h)
    ensures Follows(Sweep(env, ResolveAll(env, Sweep(env, s, 0, copyFails), starved), 0, copyFails), h, n, owner)
  {
    var s3 := Sweep(env, s, 0, copyFails);
    var s4 := ResolveAll(env, s3, starved);
    var first, second := RetirePoints(env, s, 0, copyFails), RetirePoints(env, s4, 0, copyFails);
    assert forall p :: p in first || p in second ==> p in first + second;
    SweepSound(env, s, 0, copyFails);
    SweepFollows(env, s, 0, copyFails, h, n, owner);
    ResolvedSound(env, s3, starved);
    ResolveAllFollows(env, s3, starved, h, n, owner);
    SweepFollows(env, s4, 0, copyFails, h, n, owner);
  }

  /** And the condition is needed: preempting the sequence that published last removes the
      entry, even while an earlier publisher of the same prefix still runs. A run in which this
      happens is `Takeover.GoneWhileItsFirstOwnerRuns`. */
  lemma TakenOverThenGone(env: Env, s: Sys, first: SeqId, i: nat)
    requires Wf(env, s, {}) && i < |s.active| && first in s.jobs && first != s.active[i]
    requires var j := s.jobs[s.active[i]];
      && env.cfg.prefixCaching && !Prefilling(j.st) && 0 < WholeBlocks(env, j) <= |j.table.blocks|
      && s.jobs[first].st.prompt == j.st.prompt
    ensures s.active[i] in s.jobs
    ensures var r := PreemptAt(Publish(env, s, s.active[i]), i);
      first in r.jobs && PrefixKey(env, r.jobs[first]) !in r.cache.entries
  {
    var sid := s.active[i];
    assert sid in s.jobs;
    var h := PrefixKey(env, s.jobs[sid]);
    assert Publish(env, s, sid).cache.entries[h].entry.sid == sid;
  }
}
