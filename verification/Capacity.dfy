/** The KV budget over every run: where the donor slots are, what idling gives back, and the
    admission and exhaustion decisions in every state the system can reach. */
module Capacity {
  import opened Types
  import opened BlockPool
  import opened Cache
  import opened Scheduling
  import opened Invariants
  import opened Donors
  import opened Limits
  import opened Runs

  lemma {:induction false} EveryRunKeepsAccounts(env: Env, run: seq<Sys>, events: seq<Event>)
    requires IsRun(env, run, events)
    ensures Kept(env, Last(run))
    decreases |events|
  {
    if events == [] {
      InitKept(env);
    } else {
      RunPrefix(env, run, events);
      EveryRunKeepsAccounts(env, DropLast(run), DropLast(events));
      NextKept(env, Last(DropLast(run)), Last(events));
    }
  }

  lemma ReachableIsKept(env: Env, s: Sys)
    requires Reachable(env, s)
    ensures Kept(env, s) && Wf(env, s, {}) && Accounted(env, s)
  {
    var run, events :| IsRun(env, run, events) && Last(run) == s;
    EveryRunKeepsAccounts(env, run, events);
    assert Wf(env, s, {});
  }

  /** DONOR SLOTS ARE PARTITIONED. In every reachable state, faults and failed copies
      included, each donor slot is in exactly one place: on the free list once, named by a
      retained entry that lists exactly the blocks it pins, orphaned by an overwrite, or lost
      to a failed copy. */
  lemma DonorSlotsArePartitioned(env: Env, s: Sys)
    requires Reachable(env, s)
    ensures NoDup(s.cache.freeDonors)
    ensures forall k: SeqId :: env.cfg.maxBatch <= k < env.cfg.maxBatch + env.cfg.donors <==>
      k in s.cache.freeDonors || k in Retained(s.cache) || k in s.orphans || k in s.lost
    ensures Retained(s.cache) !! s.orphans && s.lost !! Retained(s.cache) + s.orphans
    ensures forall k :: k in s.cache.freeDonors ==> k !in Retained(s.cache) + s.orphans + s.lost
    ensures forall h :: h in s.cache.entries && s.cache.entries[h].entry.retained ==>
      var e := s.cache.entries[h].entry; e.sid in s.held && s.held[e.sid] == e.blocks
  {
    ReachableIsKept(env, s);
    assert forall k :: k in s.held <==> k in Retained(s.cache) + s.orphans;
    forall h | h in s.cache.entries && s.cache.entries[h].entry.retained
      ensures s.cache.entries[h].entry.sid in s.held && s.held[s.cache.entries[h].entry.sid] == s.cache.entries[h].entry.blocks
    {
      assert EntryOk(env.cfg.blockSize, s.cache.entries[h].entry, s.jobs, s.held);
    }
  }

  /** Once a donor is orphaned it stays so for the rest of the run. */
  lemma {:induction false} OrphansOnlyGrow(env: Env, run: seq<Sys>, events: seq<Event>, i: nat)
    requires IsRun(env, run, events) && i < |run|
    ensures run[i].orphans <= Last(run).orphans
    decreases |events|
  {
    if i < |events| {
      RunPrefix(env, run, events);
      EveryRunKeepsAccounts(env, DropLast(run), DropLast(events));
      OrphansOnlyGrow(env, DropLast(run), DropLast(events), i);
      NextKept(env, Last(DropLast(run)), Last(events));
    }
  }

  /** An orphan pins something. */
  lemma OrphanPins(env: Env, s: Sys)
    requires Accounted(env, s) && s.orphans != {} && s.jobs.Keys == {}
    ensures Pinned(s) != {}
  {
    var k :| k in s.orphans;
    assert k in s.held.Keys;
    var b := s.held[k][0];
    var own := Own(s.jobs, OrphanHeld(s));
    assert OrphanHeld(s)[k] == s.held[k];
    assert k in own && b in own[k];
    assert b in Used(own);
  }

  lemma OnlyOrphansPin(env: Env, s: Sys)
    requires SlotsOk(env.cfg.maxBatch, s.freeSlots, s.active, s.jobs) && Accounted(env, s) && s.active == []
    ensures |Pinned(s)| == 0 <==> s.orphans == {}
  {
    assert s.jobs.Keys == {};
    if s.orphans == {} {
      NothingPinned(env, s);
    } else {
      OrphanPins(env, s);
    }
  }

  lemma IdleAndReclaimed(env: Env, s: Sys)
    requires Wf(env, s, {}) && Accounted(env, s) && s.active == [] && !HasRetained(s.cache)
    ensures |s.pool.freeList| == env.cfg.totalBlocks - |Pinned(s)|
    ensures |s.pool.freeList| == env.cfg.totalBlocks <==> s.orphans == {}
  {
    FreeBound(env, s, {});
    OnlyOrphansPin(env, s);
  }

  lemma FreeListFits(env: Env, s: Sys)
    requires Wf(env, s, {})
    ensures |s.pool.freeList| <= env.cfg.totalBlocks
  {
    FreePlusUsed(s.pool, Own(s.jobs, s.held));
  }

  /** IDLE RESTORES THE POOL, EXACTLY WHEN NOTHING WAS OVERWRITTEN. In every reachable state
      with nothing running, giving up every donor that eviction can find leaves the whole
      pool free if and only if no retained entry was ever overwritten during the run. */
  lemma IdleRestoresThePool(env: Env, s: Sys)
    requires Reachable(env, s) && s.active == []
    ensures var r := ReclaimUntil(s, env.cfg.totalBlocks + 1);
      && !HasRetained(r.cache)
      && |r.pool.freeList| == env.cfg.totalBlocks - |Pinned(r)|
      && (|r.pool.freeList| == env.cfg.totalBlocks <==> s.orphans == {})
  {
    ReachableIsKept(env, s);
    var n := env.cfg.totalBlocks + 1;
    ReclaimUntilWf(env, s, {}, n);
    ReclaimUntilAccounted(env, s, {}, n);
    FreeListFits(env, ReclaimUntil(s, n));
    IdleAndReclaimed(env, ReclaimUntil(s, n));
  }

  /** The admission decision, in every reachable state. */
  lemma AdmissionInEveryRun(env: Env, s: Sys)
    requires Reachable(env, s) && s.pending != []
    ensures s.freeSlots != []
    ensures var (r, outcome) := AdmitFront(env, s);
      && (outcome.Admitted? <==> Finished(FrontJob(env, s)) || Want(env, s) + Headroom(s) + |Pinned(s)| <= env.cfg.totalBlocks)
      && (outcome.Rejected? <==> !outcome.Admitted? && s.active == [])
  {
    SlotsArePartitioned(env, s);
    ReachableIsKept(env, s);
    AdmissionIsExact(env, s);
  }
}
