/** Where every donor slot is, in every reachable state (src/core/block_allocator.cpp:82-168,
    src/core/scheduler.cpp:220-301, 553-566). A store under a key that holds a retained entry
    replaces it, and the replaced donor's slot and blocks can no longer be reached. The
    accounting below is exact: occupied slots are those named by a retained entry plus those
    orphaned in that way, so retained prefixes can all be given back if and only if no
    retained key was ever overwritten. */
module Donors {
  import opened Types
  import opened Sequence
  import opened BlockPool
  import opened Cache
  import opened Engine
  import opened Scheduling
  import opened Invariants

  /** The donor slots that eviction can still find. */
  ghost function Retained(c: CacheState): set<SeqId> {
    set h | h in c.entries && c.entries[h].entry.retained :: c.entries[h].entry.sid
  }

  /** Every donor slot is free, reachable, orphaned or lost, and only one of these. */
  ghost predicate Accounted(env: Env, s: Sys) {
    && s.held.Keys == Retained(s.cache) + s.orphans
    && Retained(s.cache) !! s.orphans
    && (forall k: SeqId :: IsDonor(env.cfg, k) <==> k in s.cache.freeDonors || k in s.held || k in s.lost)
    && (forall k :: k in s.lost ==> k !in s.cache.freeDonors && k !in s.held)
    && (forall k :: k in s.held ==> s.held[k] != [])
  }

  /* ---------------- the cache operations ---------------- */

  ghost predicate AllApart(c: CacheState) {
    forall h, k {:trigger Apart(c, h, k)} :: h in c.entries && k in c.entries ==> Apart(c, h, k)
  }

  lemma RetainedInsert(c: CacheState, h: nat, e: Entry)
    requires AllApart(c)
    ensures Retained(Insert(c, h, e)) == Retained(c) - Overwritten(c, h) + (if e.retained then {e.sid} else {})
  {
    var d := Insert(c, h, e);
    forall k: SeqId
      ensures k in Retained(d) <==> k in Retained(c) - Overwritten(c, h) + (if e.retained then {e.sid} else {})
    {
      if k in Retained(c) && k !in Overwritten(c, h) {
        var i :| i in c.entries && c.entries[i].entry.retained && c.entries[i].entry.sid == k;
        assert i != h && d.entries[i] == c.entries[i];
      }
      if k in Retained(d) {
        var i :| i in d.entries && d.entries[i].entry.retained && d.entries[i].entry.sid == k;
        if i != h {
          assert c.entries[i] == d.entries[i];
          assert h in c.entries ==> Apart(c, i, h);
        }
      }
      if e.retained && k == e.sid {
        assert d.entries[h].entry == e;
      }
    }
  }

  lemma RetainedDrop(c: CacheState, h: nat)
    requires AllApart(c) && h in c.entries && c.entries[h].entry.retained
    ensures Retained(Drop(c, h)) == Retained(c) - {c.entries[h].entry.sid}
  {
    var d := Drop(c, h);
    forall k: SeqId
      ensures k in Retained(d) <==> k in Retained(c) && k != c.entries[h].entry.sid
    {
      if k in Retained(d) {
        var i :| i in d.entries && d.entries[i].entry.retained && d.entries[i].entry.sid == k;
        assert c.entries[i] == d.entries[i] && Apart(c, i, h);
      }
      if k in Retained(c) && k != c.entries[h].entry.sid {
        var i :| i in c.entries && c.entries[i].entry.retained && c.entries[i].entry.sid == k;
        assert d.entries[i] == c.entries[i];
      }
    }
  }

  /** Recency and live entries do not matter. */
  lemma RetainedSame(c: CacheState, d: CacheState)
    requires SubEntries(d, c)
    requires forall h :: h in c.entries && c.entries[h].entry.retained ==> h in d.entries
    ensures Retained(d) == Retained(c)
  {
    forall k: SeqId
      ensures k in Retained(d) <==> k in Retained(c)
    {
      if k in Retained(c) {
        var i :| i in c.entries && c.entries[i].entry.retained && c.entries[i].entry.sid == k;
        assert d.entries[i].entry == c.entries[i].entry;
      }
      if k in Retained(d) {
        var i :| i in d.entries && d.entries[i].entry.retained && d.entries[i].entry.sid == k;
        assert d.entries[i].entry == c.entries[i].entry;
      }
    }
  }

  /* ---------------- single steps ---------------- */

  lemma AccountedFrame(env: Env, s: Sys, r: Sys)
    requires Accounted(env, s) && r.held == s.held && r.orphans == s.orphans && r.lost == s.lost
    requires Retained(r.cache) == Retained(s.cache) && r.cache.freeDonors == s.cache.freeDonors
    ensures Accounted(env, r)
  {
  }

  lemma ReclaimDonorAccounted(env: Env, s: Sys, extra: set<SeqId>)
    requires Wf(env, s, extra) && Accounted(env, s) && HasRetained(s.cache)
    ensures Accounted(env, ReclaimDonor(s)) && ReclaimDonor(s).orphans == s.orphans
    ensures forall k :: k in s.orphans ==> k in ReclaimDonor(s).held && ReclaimDonor(s).held[k] == s.held[k]
  {
    var h := LruKey(s.cache);
    var e := s.cache.entries[h].entry;
    assert AllApart(s.cache);
    RetainedDrop(s.cache, h);
    assert e.sid in Retained(s.cache);
    DropPartition(env, s, ReclaimDonor(s), e.sid);
  }

  lemma DropPartition(env: Env, s: Sys, r: Sys, slot: SeqId)
    requires Accounted(env, s) && slot in Retained(s.cache) && IsDonor(env.cfg, slot)
    requires r.held == s.held - {slot} && r.orphans == s.orphans && r.lost == s.lost
    requires r.cache.freeDonors == s.cache.freeDonors + [slot] && Retained(r.cache) == Retained(s.cache) - {slot}
    ensures Accounted(env, r) && forall k :: k in s.orphans ==> k in r.held && r.held[k] == s.held[k]
  {
    assert forall k :: k in r.cache.freeDonors <==> k in s.cache.freeDonors || k == slot;
    assert r.held.Keys == s.held.Keys - {slot};
  }

  lemma {:induction false} ReclaimUntilAccounted(env: Env, s: Sys, extra: set<SeqId>, n: nat)
    requires Wf(env, s, extra) && Accounted(env, s)
    ensures var r := ReclaimUntil(s, n);
      Accounted(env, r) && r.orphans == s.orphans && forall k :: k in s.orphans ==> k in r.held && r.held[k] == s.held[k]
    decreases |s.cache.entries|
  {
    if |s.pool.freeList| < n && HasRetained(s.cache) {
      ReclaimDonorWf(env, s, extra);
      ReclaimDonorAccounted(env, s, extra);
      ReclaimUntilAccounted(env, ReclaimDonor(s), extra, n);
    }
  }

  lemma PublishAccounted(env: Env, s: Sys, sid: SeqId)
    requires AllApart(s.cache) && Accounted(env, s) && sid in s.jobs
    ensures Accounted(env, Publish(env, s, sid)) && s.orphans <= Publish(env, s, sid).orphans
  {
    var j := s.jobs[sid];
    var nb := WholeBlocks(env, j);
    if env.cfg.prefixCaching && !Prefilling(j.st) && 0 < nb <= |j.table.blocks| {
      var h := PrefixKey(env, j);
      RetainedInsert(s.cache, h, Entry(sid, PrefixTokens(env, j), j.table.blocks[..nb], false));
      assert Overwritten(s.cache, h) <= Retained(s.cache);
    }
  }

  lemma AcceptOneAccounted(env: Env, s: Sys, sid: SeqId, next: NextToken, cancelled: bool)
    requires AllApart(s.cache) && Accounted(env, s) && sid in s.jobs
    ensures var r := AcceptOne(env, s, sid, next, cancelled).0; Accounted(env, r) && s.orphans <= r.orphans
  {
    var j := s.jobs[sid];
    var g := Accept(env.be.piece, j.st.spec, j.st.gen, next, cancelled);
    if !g.finished {
      var j1 := SetGen(j, g);
      var (q, t, ok) := EnsureCapacity(env.cfg.blockSize, s.pool, j1.table, Tokens(j1));
      if ok {
        var s1 := s.(pool := q, jobs := s.jobs[sid := j1.(table := t)]);
        AccountedFrame(env, s, s1);
        PublishAccounted(env, s1, sid);
      }
    }
  }

  lemma ForgetAccounted(env: Env, s: Sys, sid: SeqId)
    requires Wf(env, s, {}) && Accounted(env, s) && sid !in s.held
    ensures Accounted(env, ForgetJob(s, sid))
  {
    ForgetWf(env, s, {}, sid);
    TicksKept(s.cache, 0, sid);
    forall h | h in s.cache.entries && s.cache.entries[h].entry.retained
      ensures s.cache.entries[h].entry.sid != sid
    {
      assert EntryOk(env.cfg.blockSize, s.cache.entries[h].entry, s.jobs, s.held);
    }
    RetainedSame(s.cache, ForgetJob(s, sid).cache);
  }

  lemma StoreDonorAccounted(env: Env, s: Sys, j: Job)
    requires Wf(env, s, {}) && Accounted(env, s) && s.cache.freeDonors != [] && 0 < WholeBlocks(env, j) <= |j.table.blocks|
    ensures Accounted(env, StoreDonor(env, s, j)) && s.orphans <= StoreDonor(env, s, j).orphans
  {
    var slot, h := Last(s.cache.freeDonors), PrefixKey(env, j);
    assert slot in s.cache.freeDonors;
    FreeDonorUnnamed(env, s, {}, slot);
    assert AllApart(s.cache);
    var blocks := j.table.blocks[..WholeBlocks(env, j)];
    var s2 := WithDonor(s, j.st.sid, blocks, PrefixTokens(env, j));
    assert AllApart(s2.cache) by { assert forall i, k :: i in s2.cache.entries && k in s2.cache.entries && Apart(s.cache, i, k) ==> Apart(s2.cache, i, k); }
    RetainedInsert(s2.cache, h, Entry(slot, PrefixTokens(env, j), blocks, true));
    RetainedSame(s.cache, s2.cache);
    assert Overwritten(s2.cache, h) == Overwritten(s.cache, h) <= Retained(s.cache);
    StoreDonorPartition(env, s, StoreDonor(env, s, j), slot, Overwritten(s.cache, h));
  }

  lemma StoreDonorPartition(env: Env, s: Sys, r: Sys, slot: SeqId, over: set<SeqId>)
    requires Accounted(env, s) && s.cache.freeDonors != [] && slot == Last(s.cache.freeDonors) && NoDup(s.cache.freeDonors)
    requires slot !in s.held && slot in r.held && over <= Retained(s.cache)
    requires r.held == s.held[slot := r.held[slot]] && r.held[slot] != [] && r.orphans == s.orphans + over && r.lost == s.lost
    requires r.cache.freeDonors == DropLast(s.cache.freeDonors) && Retained(r.cache) == Retained(s.cache) - over + {slot}
    ensures Accounted(env, r)
  {
    TakenSlot(s.cache.freeDonors);
    assert r.held.Keys == s.held.Keys + {slot};
  }

  lemma TakenSlot(l: seq<SeqId>)
    requires l != [] && NoDup(l)
    ensures forall k :: k in l <==> k in DropLast(l) || k == Last(l)
    ensures Last(l) !in DropLast(l)
  {
    assert l == DropLast(l) + [Last(l)];
  }

  lemma LoseDonorSlotAccounted(env: Env, s: Sys)
    requires Wf(env, s, {}) && Accounted(env, s) && s.cache.freeDonors != []
    ensures Accounted(env, LoseDonorSlot(s)) && LoseDonorSlot(s).orphans == s.orphans
  {
    LoseDonorSlotWf(env, s);
    assert Last(s.cache.freeDonors) in s.cache.freeDonors;
    RetainedSame(s.cache, LoseDonorSlot(s).cache);
    TakenSlot(s.cache.freeDonors);
  }

  lemma RetainPrefixAccounted(env: Env, s: Sys, sid: SeqId, copyFails: bool)
    requires Wf(env, s, {}) && Accounted(env, s) && sid in s.jobs && Unnamed(s.cache, sid)
    ensures var r := RetainPrefix(env, s, s.jobs[sid], copyFails); Accounted(env, r) && s.orphans <= r.orphans
  {
    if Retainable(env, s.jobs[sid]) {
      MakeDonorRoomWf(env, s, sid);
      if s.cache.freeDonors == [] && HasRetained(s.cache) {
        ReclaimDonorAccounted(env, s, {});
      }
      var s1 := MakeDonorRoom(s);
      if s1.cache.freeDonors != [] {
        if copyFails {
          LoseDonorSlotAccounted(env, s1);
        } else {
          StoreDonorAccounted(env, s1, s.jobs[sid]);
        }
      }
    }
  }

  /* ---------------- loops ---------------- */

  /** Well-formed and accounted for; folded up like `Independence.Healthy`. */
  ghost predicate Kept(env: Env, s: Sys) {
    forall extra {:trigger Wf(env, s, extra)} :: extra == {} ==> Wf(env, s, extra) && Accounted(env, s)
  }

  /** The step keeps the accounting, and orphans stay orphans. */
  ghost predicate Keeps(env: Env, s: Sys, r: Sys) {
    Kept(env, r) && s.orphans <= r.orphans
  }

  lemma MakeRoomAccounted(env: Env, s: Sys)
    requires Wf(env, s, {}) && Accounted(env, s) && s.pending != [] && s.freeSlots != []
    ensures var r := MakeRoom(env, s);
      Accounted(env, r) && r.orphans == s.orphans && forall k :: k in s.orphans ==> k in r.held && r.held[k] == s.held[k]
  {
    var n: nat :| n == Want(env, s) + Headroom(s);
    MakeRoomReclaims(env, s, n);
    var s0 := s.(kv := Begin(s.kv, Last(s.freeSlots), s.pending[0].spec.sampling));
    BeginWf(env, s, s.pending[0].spec.sampling);
    AccountedFrame(env, s, s0);
    ReclaimUntilAccounted(env, s0, {Last(s.freeSlots)}, n);
  }

  /** Admission reads the cache and touches it, no more. */
  lemma AdmitAccounted(env: Env, s: Sys)
    requires s.pending != [] && s.freeSlots != [] && Accounted(env, s) && Admit(env, s).Some?
    ensures var r := Admit(env, s).value; Accounted(env, r) && r.orphans == s.orphans
  {
    var job := FrontJob(env, s);
    if !Finished(job) {
      var (q, t, _) := EnsureCapacity(env.cfg.blockSize, s.pool, job.table, |job.st.prompt|);
      var h := LongestMatch(env.be.hash, s.cache, job.st.prompt, env.cfg.blockSize);
      if h.Some? {
        RetainedSame(s.cache, Touch(s.cache, h.value));
      }
      var (s2, j2) := SharePrefix(env, s.(pool := q), job.(table := t));
      AccountedFrame(env, s, s2);
      AccountedFrame(env, s2, Enroll(s2, j2));
    } else {
      AccountedFrame(env, s, Enroll(s, job));
    }
  }

  lemma AdmitFrontKept(env: Env, s: Sys)
    requires Kept(env, s) && s.pending != [] && s.freeSlots != []
    ensures Keeps(env, s, AdmitFront(env, s).0)
  {
    assert Wf(env, s, {});
    AdmitFrontWf(env, s);
    MakeRoomAccounted(env, s);
    DecideAccounted(env, s, AdmitFront(env, s).0);
  }

  lemma DecideAccounted(env: Env, s: Sys, r: Sys)
    requires s.pending != [] && s.freeSlots != [] && Accounted(env, MakeRoom(env, s)) && r == AdmitFront(env, s).0
    ensures Accounted(env, r) && r.orphans == MakeRoom(env, s).orphans
  {
    var s1 := MakeRoom(env, s);
    if Admit(env, s1).Some? {
      AdmitAccounted(env, s1);
    } else {
      AccountedFrame(env, s1, r);
    }
  }

  lemma {:induction false} AdmitLoopKept(env: Env, s: Sys)
    requires Kept(env, s)
    ensures Keeps(env, s, AdmitLoop(env, s))
    decreases |s.pending|
  {
    if s.pending != [] && s.freeSlots != [] {
      AdmitFrontKept(env, s);
      if !AdmitFront(env, s).1.Deferred? {
        AdmitLoopKept(env, AdmitFront(env, s).0);
      }
    }
  }

  lemma AcceptOneKept(env: Env, s: Sys, sid: SeqId, next: NextToken, cancelled: bool)
    requires Kept(env, s) && sid in s.jobs
    ensures Keeps(env, s, AcceptOne(env, s, sid, next, cancelled).0)
  {
    assert Wf(env, s, {});
    AcceptOneWf(env, s, sid, next, cancelled);
    assert AllApart(s.cache);
    AcceptOneAccounted(env, s, sid, next, cancelled);
  }

  lemma {:induction false} AcceptLoopKept(env: Env, s: Sys, sampling: seq<SeqId>, steps: seq<GenStep>, cancelled: set<nat>)
    requires Kept(env, s) && |steps| == |sampling| && forall i :: 0 <= i < |sampling| ==> sampling[i] in s.jobs
    ensures Keeps(env, s, AcceptLoop(env, s, sampling, steps, cancelled).0)
    decreases |sampling|
  {
    if sampling != [] {
      var gone := s.jobs[sampling[0]].req.id in cancelled;
      AcceptOneKept(env, s, sampling[0], steps[0].next, gone);
      AcceptLoopKept(env, AcceptOne(env, s, sampling[0], steps[0].next, gone).0, sampling[1..], steps[1..], cancelled);
    }
  }

  lemma JobsDoNotMatter(env: Env, s: Sys, r: Sys)
    requires Kept(env, s) && Wf(env, r, {}) && r.cache == s.cache && r.held == s.held && r.orphans == s.orphans && r.lost == s.lost
    ensures Keeps(env, s, r)
  {
    assert Wf(env, s, {});
    AccountedFrame(env, s, r);
  }

  lemma AdvanceKept(env: Env, s: Sys, o: Oracle)
    requires Kept(env, s)
    ensures Keeps(env, s, Advance(env, s, o).0)
  {
    assert Wf(env, s, {});
    BuildWf(env, s);
    var (items, jobs) := Build(env, s);
    var s1 := s.(jobs := jobs);
    JobsDoNotMatter(env, s, s1);
    if items != [] {
      if o.fault.Some? {
        CrashWf(env, s1, items, o.fault.value);
        JobsDoNotMatter(env, s1, Crash(s1, items, o.fault.value));
      } else {
        ForwardKept(env, s1, items, o.cancelled);
      }
    }
  }

  lemma ForwardKept(env: Env, s: Sys, items: seq<BatchItem>, cancelled: set<nat>)
    requires Kept(env, s)
    ensures Keeps(env, s, Forward(env, s, items, cancelled).0)
  {
    assert Wf(env, s, {});
    DecodeSteps(env.be, s.kv, items);
    var (kv, steps) := Decode(env.be, s.kv, items);
    var sampling := SampledSids(items);
    var s1 := s.(kv := kv);
    DecodedKept(env, s, s1);
    if forall i :: 0 <= i < |sampling| ==> sampling[i] in s.jobs {
      AcceptLoopKept(env, s1, sampling, steps, cancelled);
    }
  }

  lemma DecodedKept(env: Env, s: Sys, r: Sys)
    requires Kept(env, s) && r == s.(kv := r.kv) && r.kv.Keys == s.kv.Keys
    ensures Kept(env, r)
  {
    assert Wf(env, s, {});
    WfFrame(env, s, r, {});
    JobsDoNotMatter(env, s, r);
  }

  lemma RetireAtKept(env: Env, s: Sys, i: nat, copyFails: set<nat>)
    requires Kept(env, s) && i < |s.active| && s.active[i] in s.jobs
    ensures Keeps(env, s, RetireAt(env, s, i, copyFails))
  {
    assert Wf(env, s, {});
    var sid := s.active[i];
    var fails := s.jobs[sid].req.id in copyFails;
    RetireAtWf(env, s, i, copyFails);
    ForgetWf(env, s, {}, sid);
    ForgetAccounted(env, s, sid);
    RetainPrefixAccounted(env, ForgetJob(s, sid), sid, fails);
    AccountedFrame(env, RetainPrefix(env, ForgetJob(s, sid), s.jobs[sid], fails), RetireAt(env, s, i, copyFails));
  }

  lemma {:induction false} SweepKept(env: Env, s: Sys, i: nat, copyFails: set<nat>)
    requires Kept(env, s)
    ensures Keeps(env, s, Sweep(env, s, i, copyFails))
    decreases |s.active| - i
  {
    if i < |s.active| {
      if s.active[i] in s.jobs && Finished(s.jobs[s.active[i]]) {
        RetireAtKept(env, s, i, copyFails);
        SweepKept(env, RetireAt(env, s, i, copyFails), i, copyFails);
      } else {
        SweepKept(env, s, i + 1, copyFails);
      }
    }
  }

  lemma PreemptAtKept(env: Env, s: Sys, i: nat)
    requires Kept(env, s) && i < |s.active| && s.active[i] in s.jobs
    ensures Keeps(env, s, PreemptAt(s, i)) && PreemptAt(s, i).orphans == s.orphans
  {
    assert Wf(env, s, {});
    PreemptAtWf(env, s, i);
    ForgetWf(env, s, {}, s.active[i]);
    ForgetAccounted(env, s, s.active[i]);
    AccountedFrame(env, ForgetJob(s, s.active[i]), PreemptAt(s, i));
  }

  lemma GrowTableKept(env: Env, s: Sys, sid: SeqId, needed: nat)
    requires Kept(env, s) && sid in s.jobs
    ensures Keeps(env, s, GrowTable(env, s, sid, needed).0) && GrowTable(env, s, sid, needed).0.orphans == s.orphans
  {
    assert Wf(env, s, {});
    GrowTableWf(env, s, sid, needed);
    JobsDoNotMatter(env, s, GrowTable(env, s, sid, needed).0);
  }

  lemma ReclaimDonorKept(env: Env, s: Sys)
    requires Kept(env, s) && HasRetained(s.cache)
    ensures Keeps(env, s, ReclaimDonor(s)) && ReclaimDonor(s).orphans == s.orphans
  {
    assert Wf(env, s, {});
    ReclaimDonorWf(env, s, {});
    ReclaimDonorAccounted(env, s, {});
  }

  lemma {:induction false} ReclaimForKept(env: Env, s: Sys, sid: SeqId, needed: nat)
    requires Kept(env, s) && sid in s.jobs
    ensures Keeps(env, s, ReclaimFor(env, s, sid, needed)) && ReclaimFor(env, s, sid, needed).orphans == s.orphans
    decreases |s.cache.entries|
  {
    GrowTableKept(env, s, sid, needed);
    var (grown, ok) := GrowTable(env, s, sid, needed);
    if !ok && HasRetained(s.cache) {
      ReclaimDonorKept(env, grown);
      ReclaimForKept(env, ReclaimDonor(grown), sid, needed);
    }
  }

  lemma {:induction false} PreemptForKept(env: Env, s: Sys, sid: SeqId, needed: nat)
    requires Kept(env, s) && sid in s.jobs
    ensures Keeps(env, s, PreemptFor(env, s, sid, needed)) && PreemptFor(env, s, sid, needed).orphans == s.orphans
    decreases |s.active|
  {
    GrowTableKept(env, s, sid, needed);
    var (grown, ok) := GrowTable(env, s, sid, needed);
    if !ok {
      var v := Victim(grown.active, grown.jobs, sid, |grown.active|);
      if v.Some? {
        PreemptAtKept(env, grown, v.value);
        PreemptForKept(env, PreemptAt(grown, v.value), sid, needed);
        assert PreemptFor(env, s, sid, needed) == PreemptFor(env, PreemptAt(grown, v.value), sid, needed);
      }
    }
  }

  lemma ResolveOneKept(env: Env, s: Sys, sid: SeqId)
    requires Kept(env, s)
    ensures Keeps(env, s, ResolveOne(env, s, sid))
  {
    if sid in s.active && sid in s.jobs {
      var needed := Tokens(s.jobs[sid]);
      if BlocksFor(env.cfg.blockSize, needed) > |s.pool.refs| {
        assert Wf(env, s, {});
        ResolveOneWf(env, s, sid);
        JobsDoNotMatter(env, s, ResolveOne(env, s, sid));
      } else {
        ReclaimForKept(env, s, sid, needed);
        PreemptForKept(env, ReclaimFor(env, s, sid, needed), sid, needed);
      }
    }
  }

  lemma {:induction false} ResolveAllKept(env: Env, s: Sys, starved: seq<SeqId>)
    requires Kept(env, s)
    ensures Keeps(env, s, ResolveAll(env, s, starved))
    decreases |starved|
  {
    if starved != [] {
      ResolveOneKept(env, s, starved[0]);
      ResolveAllKept(env, ResolveOne(env, s, starved[0]), starved[1..]);
    }
  }

  lemma WorkKept(env: Env, s: Sys, o: Oracle)
    requires Kept(env, s)
    ensures Keeps(env, s, Work(env, s, o))
  {
    AdmitLoopKept(env, s);
    var s1 := AdmitLoop(env, s);
    if s1.active != [] {
      AdvanceKept(env, s1, o);
      var (s2, starved) := Advance(env, s1, o);
      SweepKept(env, s2, 0, o.copyFails);
      var s3 := Sweep(env, s2, 0, o.copyFails);
      ResolveAllKept(env, s3, starved);
      SweepKept(env, ResolveAll(env, s3, starved), 0, o.copyFails);
    }
  }

  lemma InitKept(env: Env)
    ensures Kept(env, InitSys(env))
  {
    InitWf(env);
    var s := InitSys(env);
    forall k: SeqId | IsDonor(env.cfg, k)
      ensures k in s.cache.freeDonors
    {
      var first, count := env.cfg.maxBatch, env.cfg.donors;
      assert s.cache.freeDonors[count - 1 - (k - first)] == k;
    }
  }

  lemma NextKept(env: Env, s: Sys, ev: Event)
    requires Kept(env, s)
    ensures Keeps(env, s, Next(env, s, ev))
  {
    if ev.Step? {
      WorkKept(env, s, ev.oracle);
      assert Wf(env, Work(env, s, ev.oracle), {});
      IterateKept(env, Work(env, s, ev.oracle), Iterate(env, s, ev.oracle));
    } else {
      assert Wf(env, s, {});
      QueueStepWf(env, s, ev);
      QueueStepFrame(env, s, ev);
      JobsDoNotMatter(env, s, QueueStep(env, s, ev));
    }
  }

  lemma IterateKept(env: Env, s: Sys, r: Sys)
    requires Kept(env, s) && r == s.(phase := Taking)
    ensures Kept(env, r)
  {
    assert Wf(env, s, {});
    WfFrame(env, s, r, {});
    AccountedFrame(env, s, r);
  }
}
