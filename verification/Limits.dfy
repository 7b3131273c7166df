/** The KV budget: when a request is admitted, turned away or deferred, what a starved
    sequence gets, and who pays for it (src/core/scheduler.cpp:400-451, 542-547, 591-633). */
module Limits {
  import opened Types
  import opened Sequence
  import opened BlockPool
  import opened Cache
  import opened Engine
  import opened Scheduling
  import opened Batch
  import opened Invariants
  import opened Donors

  /* ---------------- what cannot be given up ---------------- */

  /** The donors that eviction cannot reach, with what they pin. */
  ghost function OrphanHeld(s: Sys): Ownership {
    map k | k in s.held && k in s.orphans :: s.held[k]
  }

  /** The jobs that making room for `sid` never evicts: itself and finished ones. */
  ghost function Untouchable(jobs: map<SeqId, Job>, sid: SeqId): map<SeqId, Job> {
    map k | k in jobs && (k == sid || Finished(jobs[k])) :: jobs[k]
  }

  /** Blocks held by live jobs or orphaned donors. */
  ghost function Pinned(s: Sys): set<BlockId> {
    Used(Own(s.jobs, OrphanHeld(s)))
  }

  /** Blocks that stay held however much is evicted for `sid`. */
  ghost function PinnedFor(s: Sys, sid: SeqId): set<BlockId> {
    Used(Own(Untouchable(s.jobs, sid), OrphanHeld(s)))
  }

  lemma OrphanHeldSame(s: Sys, r: Sys)
    requires r.orphans == s.orphans && forall k :: k in s.orphans ==> k in s.held && k in r.held && r.held[k] == s.held[k]
    ensures OrphanHeld(r) == OrphanHeld(s)
  {
  }

  lemma SubsetCard<T>(a: set<T>, b: set<T>)
    requires a <= b
    ensures |a| <= |b|
  {
    assert b == a + (b - a);
  }

  lemma UsedMonotone(small: Ownership, big: Ownership)
    requires forall k :: k in small ==> k in big && small[k] == big[k]
    ensures Used(small) <= Used(big)
  {
    forall b | b in Used(small)
      ensures b in Used(big)
    {
      var k :| k in small && b in small[k];
      assert k in big && b in big[k];
    }
  }

  /** At most what is not pinned can be free, and exactly that once no donor is reachable. */
  lemma FreeBound(env: Env, s: Sys, extra: set<SeqId>)
    requires Wf(env, s, extra) && Accounted(env, s)
    ensures |s.pool.freeList| + |Pinned(s)| <= env.cfg.totalBlocks
    ensures !HasRetained(s.cache) ==> |s.pool.freeList| + |Pinned(s)| == env.cfg.totalBlocks
  {
    var own, few := Own(s.jobs, s.held), Own(s.jobs, OrphanHeld(s));
    FreePlusUsed(s.pool, own);
    UsedMonotone(few, own);
    SubsetCard(Used(few), Used(own));
    if !HasRetained(s.cache) {
      NoDonorsReachable(env, s);
    }
  }

  lemma NoDonorsReachable(env: Env, s: Sys)
    requires Accounted(env, s) && !HasRetained(s.cache)
    ensures OrphanHeld(s) == s.held
  {
    assert Retained(s.cache) == {};
    assert OrphanHeld(s).Keys == s.held.Keys;
  }

  lemma FreeBoundFor(env: Env, s: Sys, sid: SeqId)
    requires Wf(env, s, {}) && Accounted(env, s)
    ensures |s.pool.freeList| + |PinnedFor(s, sid)| <= env.cfg.totalBlocks
    ensures !HasRetained(s.cache) && Untouchable(s.jobs, sid) == s.jobs ==> |s.pool.freeList| + |PinnedFor(s, sid)| == env.cfg.totalBlocks
  {
    FreeBound(env, s, {});
    var all, few := Own(s.jobs, OrphanHeld(s)), Own(Untouchable(s.jobs, sid), OrphanHeld(s));
    assert forall k :: k in OrphanHeld(s) ==> k !in s.jobs;
    UsedMonotone(few, all);
    SubsetCard(Used(few), Used(all));
  }

  /* ---------------- admission ---------------- */

  lemma MakeRoomPins(env: Env, s: Sys)
    requires Wf(env, s, {}) && Accounted(env, s) && s.pending != [] && s.freeSlots != []
    ensures Pinned(MakeRoom(env, s)) == Pinned(s)
  {
    MakeRoomAccounted(env, s);
    OrphansHeld(env, s);
    OrphanHeldSame(s, MakeRoom(env, s));
  }

  /** ADMISSION IS EXACT. Whatever donors are held, the front request is admitted if and only
      if it has already failed its context check or its prompt, plus the headroom, fits
      beside what is pinned by live sequences and orphaned donors. Otherwise it is rejected
      if and only if nothing is running, and else deferred with everything but donors intact. */
  lemma AdmissionIsExact(env: Env, s: Sys)
    requires Wf(env, s, {}) && Accounted(env, s) && s.pending != [] && s.freeSlots != []
    ensures var (r, outcome) := AdmitFront(env, s);
      && (outcome.Admitted? <==> Finished(FrontJob(env, s)) || Want(env, s) + Headroom(s) + |Pinned(s)| <= env.cfg.totalBlocks)
      && (outcome.Rejected? <==> !outcome.Admitted? && s.active == [])
      && (outcome.Deferred? ==>
            r == s.(cache := r.cache, pool := r.pool, held := r.held, kv := r.kv) &&
            forall k :: k in s.jobs ==> k in r.kv)
  {
    var s1 := MakeRoom(env, s);
    MakeRoomWf(env, s);
    MakeRoomAccounted(env, s);
    MakeRoomPins(env, s);
    FreeBound(env, s1, {Last(s.freeSlots)});
    AdmitIff(env, s1);
    AdmitFrontWf(env, s);
  }

  lemma AdmitIff(env: Env, s: Sys)
    requires s.pending != [] && s.freeSlots != []
    ensures Admit(env, s).Some? <==> Finished(FrontJob(env, s)) || |s.pool.freeList| >= Want(env, s) + Headroom(s)
  {
    var job := FrontJob(env, s);
    assert job.st.prompt == PromptOf(env, s.pending[0]);
    assert BlocksFor(env.cfg.blockSize, |job.st.prompt|) == Want(env, s);
  }

  /** With nothing running and no orphaned donor, a request that passed its context check is
      rejected if and only if its prompt alone needs more blocks than the pool has. */
  lemma RejectedOnlyIfTooLarge(env: Env, s: Sys)
    requires Wf(env, s, {}) && Accounted(env, s) && s.pending != [] && s.freeSlots != []
    requires s.active == [] && s.orphans == {} && !Finished(FrontJob(env, s))
    ensures AdmitFront(env, s).1.Rejected? <==> Want(env, s) > env.cfg.totalBlocks
  {
    AdmissionIsExact(env, s);
    NothingPinned(env, s);
  }

  lemma NothingPinned(env: Env, s: Sys)
    requires SlotsOk(env.cfg.maxBatch, s.freeSlots, s.active, s.jobs) && s.active == [] && s.orphans == {}
    ensures Pinned(s) == {}
  {
    assert s.jobs.Keys == {};
    assert OrphanHeld(s).Keys == {};
  }

  /* ---------------- a starved sequence ---------------- */

  ghost predicate HasCapacity(env: Env, s: Sys, sid: SeqId, needed: nat) {
    sid in s.jobs && BlocksFor(env.cfg.blockSize, needed) <= |s.jobs[sid].table.blocks|
  }

  /** Making room so far: only others were evicted, and what is pinned for `sid` is pinned still. */
  ghost predicate Towards(s: Sys, r: Sys, sid: SeqId) {
    && sid in r.jobs && sid in s.jobs && r.jobs[sid].st == s.jobs[sid].st
    && (forall k :: k in r.jobs ==> k in s.jobs && r.jobs[k].st == s.jobs[k].st)
    && (forall k :: k in s.jobs && Finished(s.jobs[k]) ==> k in r.jobs)
  }

  lemma GrowTableExact(env: Env, s: Sys, sid: SeqId, needed: nat)
    requires Wf(env, s, {}) && sid in s.jobs
    ensures var (r, ok) := GrowTable(env, s, sid, needed);
      && (ok <==> HasCapacity(env, r, sid, needed))
      && (ok <==> BlocksFor(env.cfg.blockSize, needed) <= |s.jobs[sid].table.blocks| + |s.pool.freeList|)
      && (!ok ==> r == s) && Towards(s, r, sid)
      && r.active == s.active && r.pending == s.pending && r.cache == s.cache
  {
    GrowTableWf(env, s, sid, needed);
  }

  lemma ReclaimDonorPins(env: Env, s: Sys, sid: SeqId)
    requires Wf(env, s, {}) && Accounted(env, s) && HasRetained(s.cache)
    ensures PinnedFor(ReclaimDonor(s), sid) == PinnedFor(s, sid)
  {
    var r := ReclaimDonor(s);
    ReclaimDonorAccounted(env, s, {});
    OrphansHeld(env, s);
    OrphanHeldSame(s, r);
    PinnedForSame(s, r, sid);
  }

  lemma OrphansHeld(env: Env, s: Sys)
    requires Accounted(env, s)
    ensures forall k :: k in s.orphans ==> k in s.held
  {
    assert forall k :: k in s.orphans ==> k in s.held.Keys;
  }

  lemma PinnedForSame(s: Sys, r: Sys, sid: SeqId)
    requires r.jobs == s.jobs && OrphanHeld(r) == OrphanHeld(s)
    ensures PinnedFor(r, sid) == PinnedFor(s, sid)
  {
  }

  /** The blocks `sid` needs fit beside what is pinned for it. */
  ghost predicate CanFit(env: Env, s: Sys, sid: SeqId, needed: nat)
    requires sid in s.jobs
  {
    HasCapacity(env, s, sid, needed) ||
    BlocksFor(env.cfg.blockSize, needed) + |PinnedFor(s, sid)| <= |s.jobs[sid].table.blocks| + env.cfg.totalBlocks
  }

  /** A successful growth fits; a failed one, with nothing left to evict, does not. */
  lemma GrowthFits(env: Env, s: Sys, sid: SeqId, needed: nat)
    requires Wf(env, s, {}) && Accounted(env, s) && sid in s.jobs
    ensures GrowTable(env, s, sid, needed).1 ==> CanFit(env, s, sid, needed)
    ensures !HasRetained(s.cache) && Untouchable(s.jobs, sid) == s.jobs ==> (GrowTable(env, s, sid, needed).1 <==> CanFit(env, s, sid, needed))
  {
    GrowTableExact(env, s, sid, needed);
    FreeBoundFor(env, s, sid);
  }

  /** Giving up donors: nobody is preempted, and the loop stops only with the blocks in hand
      or with no donor left to find. */
  lemma {:induction false} ReclaimForOutcome(env: Env, s: Sys, sid: SeqId, needed: nat)
    requires Kept(env, s) && sid in s.jobs
    ensures var r := ReclaimFor(env, s, sid, needed);
      && r.active == s.active && r.pending == s.pending && Towards(s, r, sid)
      && (HasCapacity(env, r, sid, needed) ==> CanFit(env, s, sid, needed))
      && (!HasCapacity(env, r, sid, needed) ==>
            !HasRetained(r.cache) && r.jobs == s.jobs && (CanFit(env, r, sid, needed) <==> CanFit(env, s, sid, needed)))
    decreases |s.cache.entries|
  {
    assert Wf(env, s, {});
    GrowTableExact(env, s, sid, needed);
    GrowthFits(env, s, sid, needed);
    var (grown, ok) := GrowTable(env, s, sid, needed);
    if !ok && HasRetained(s.cache) {
      ReclaimDonorPins(env, s, sid);
      ReclaimDonorKept(env, s);
      ReclaimForOutcome(env, ReclaimDonor(s), sid, needed);
    }
  }

  lemma PreemptAtPins(env: Env, s: Sys, i: nat, sid: SeqId)
    requires i < |s.active| && s.active[i] in s.jobs && sid in s.jobs
    requires s.active[i] != sid && !Finished(s.jobs[s.active[i]])
    ensures PinnedFor(PreemptAt(s, i), sid) == PinnedFor(s, sid) && Towards(s, PreemptAt(s, i), sid)
    ensures PreemptAt(s, i).jobs[sid] == s.jobs[sid]
    ensures !HasRetained(s.cache) ==> !HasRetained(PreemptAt(s, i).cache)
  {
    var r := PreemptAt(s, i);
    assert r.jobs == s.jobs - {s.active[i]};
    assert Untouchable(r.jobs, sid) == Untouchable(s.jobs, sid);
    assert OrphanHeld(r) == OrphanHeld(s);
  }

  lemma TowardsTrans(s: Sys, m: Sys, r: Sys, sid: SeqId)
    requires Towards(s, m, sid) && Towards(m, r, sid)
    ensures Towards(s, r, sid)
  {
  }

  lemma PreemptStep(env: Env, s: Sys, i: nat, sid: SeqId, needed: nat)
    requires Kept(env, s) && i < |s.active| && s.active[i] in s.jobs && sid in s.jobs
    requires s.active[i] != sid && !Finished(s.jobs[s.active[i]]) && !HasRetained(s.cache)
    ensures var r := PreemptAt(s, i);
      && Kept(env, r) && Towards(s, r, sid) && !HasRetained(r.cache)
      && (CanFit(env, r, sid, needed) <==> CanFit(env, s, sid, needed))
  {
    PreemptAtPins(env, s, i, sid);
    PreemptAtKept(env, s, i);
  }

  /** Preempting: the starved job is never the victim, and the loop stops only with the
      blocks in hand or with every other job finished. */
  lemma {:induction false} PreemptForOutcome(env: Env, s: Sys, sid: SeqId, needed: nat, r: Sys)
    requires Kept(env, s) && sid in s.jobs && (HasCapacity(env, s, sid, needed) || !HasRetained(s.cache))
    requires r == PreemptFor(env, s, sid, needed)
    ensures Towards(s, r, sid)
    ensures r.active != s.active ==> !HasRetained(r.cache)
    ensures HasCapacity(env, r, sid, needed) <==> CanFit(env, s, sid, needed)
    decreases |s.active|
  {
    assert Wf(env, s, {});
    GrowTableExact(env, s, sid, needed);
    GrowthFits(env, s, sid, needed);
    if !GrowTable(env, s, sid, needed).1 {
      var v := Victim(s.active, s.jobs, sid, |s.active|);
      if v.Some? {
        var s1 := PreemptAt(s, v.value);
        PreemptStep(env, s, v.value, sid, needed);
        PreemptForOutcome(env, s1, sid, needed, r);
        TowardsTrans(s, s1, r, sid);
        NoDonorsReturn(env, s1, sid, needed);
      } else {
        NoVictimLeft(env, s, sid);
      }
    }
  }

  /** Preempting never creates a donor. */
  lemma {:induction false} NoDonorsReturn(env: Env, s: Sys, sid: SeqId, needed: nat)
    requires sid in s.jobs && !HasRetained(s.cache)
    ensures !HasRetained(PreemptFor(env, s, sid, needed).cache)
    decreases |s.active|
  {
    var (grown, ok) := GrowTable(env, s, sid, needed);
    if !ok {
      var v := Victim(grown.active, grown.jobs, sid, |grown.active|);
      if v.Some? {
        PreemptAtPins(env, grown, v.value, sid);
        NoDonorsReturn(env, PreemptAt(grown, v.value), sid, needed);
      }
    }
  }

  lemma NoVictimLeft(env: Env, s: Sys, sid: SeqId)
    requires Wf(env, s, {}) && Victim(s.active, s.jobs, sid, |s.active|).None?
    ensures Untouchable(s.jobs, sid) == s.jobs
    ensures forall k :: k in s.jobs && k != sid ==> Finished(s.jobs[k])
  {
    forall k | k in s.jobs && k != sid
      ensures Finished(s.jobs[k])
    {
      var i :| 0 <= i < |s.active| && s.active[i] == k;
    }
  }

  /** EXHAUSTION RESOLUTION. For a starved job whose need fits the pool: it is never evicted
      and its progress is kept, finished jobs stay, nobody is preempted while a donor could
      still be given up, and it ends up with the blocks it needs if and only if they fit
      beside what it, the finished jobs and the orphaned donors pin. */
  lemma ExhaustionIsResolved(env: Env, s: Sys, sid: SeqId)
    requires Kept(env, s) && sid in s.active && sid in s.jobs
    requires BlocksFor(env.cfg.blockSize, Tokens(s.jobs[sid])) <= |s.pool.refs|
    ensures var r := ResolveOne(env, s, sid);
      && Towards(s, r, sid)
      && (r.active != s.active ==> !HasRetained(r.cache))
      && (HasCapacity(env, r, sid, Tokens(s.jobs[sid])) <==> CanFit(env, s, sid, Tokens(s.jobs[sid])))
  {
    var needed := Tokens(s.jobs[sid]);
    ReclaimForOutcome(env, s, sid, needed);
    ReclaimForKept(env, s, sid, needed);
    var s1 := ReclaimFor(env, s, sid, needed);
    var r := PreemptFor(env, s1, sid, needed);
    PreemptForOutcome(env, s1, sid, needed, r);
    TowardsTrans(s, s1, r, sid);
  }

  /** With no orphaned donor and nobody else already failed, every need that fits the pool
      is met. */
  lemma StarvedGetsItsBlocks(env: Env, s: Sys, sid: SeqId)
    requires Kept(env, s) && sid in s.active && sid in s.jobs && s.orphans == {}
    requires forall k :: k in s.jobs && k != sid ==> !Finished(s.jobs[k])
    requires BlocksFor(env.cfg.blockSize, Tokens(s.jobs[sid])) <= |s.pool.refs|
    ensures HasCapacity(env, ResolveOne(env, s, sid), sid, Tokens(s.jobs[sid]))
  {
    assert Wf(env, s, {});
    ExhaustionIsResolved(env, s, sid);
    OwnBlocksPinned(env, s, sid);
  }

  lemma OwnBlocksPinned(env: Env, s: Sys, sid: SeqId)
    requires Wf(env, s, {}) && sid in s.jobs && s.orphans == {}
    requires forall k :: k in s.jobs && k != sid ==> !Finished(s.jobs[k])
    ensures |PinnedFor(s, sid)| == |s.jobs[sid].table.blocks|
  {
    assert OrphanHeld(s) == map[];
    assert Untouchable(s.jobs, sid) == map[sid := s.jobs[sid]];
    assert NoDup(s.jobs[sid].table.blocks) by {
      assert Own(s.jobs, s.held)[sid] == s.jobs[sid].table.blocks;
    }
    OneTableUsed(s.jobs[sid], sid);
  }

  lemma OneTableUsed(j: Job, sid: SeqId)
    requires NoDup(j.table.blocks)
    ensures |Used(Own(map[sid := j], map[]))| == |j.table.blocks|
  {
    var own := Own(map[sid := j], map[]);
    assert own == map[sid := j.table.blocks];
    var elements := set b: BlockId | b in j.table.blocks;
    SeqAsSet(j.table.blocks);
    forall b: BlockId
      ensures b in Used(own) <==> b in elements
    {
      assert b in elements ==> sid in own && b in own[sid];
    }
    assert Used(own) == elements;
  }

  /* ---------------- who is preempted ---------------- */

  /** Finished jobs, and the one room is made for, are passed over. */
  ghost predicate Spared(jobs: map<SeqId, Job>, sid: SeqId, k: SeqId) {
    k == sid || (k in jobs ==> Finished(jobs[k]))
  }

  ghost function Survivors(active: seq<SeqId>, jobs: map<SeqId, Job>, sid: SeqId): seq<SeqId> {
    if active == [] then []
    else (if Spared(jobs, sid, active[0]) then [active[0]] else []) + Survivors(active[1..], jobs, sid)
  }

  /** The requests of the others, oldest first. */
  ghost function Requeued(active: seq<SeqId>, jobs: map<SeqId, Job>, sid: SeqId): seq<Request> {
    if active == [] then []
    else (if Spared(jobs, sid, active[0]) then [] else [jobs[active[0]].req]) + Requeued(active[1..], jobs, sid)
  }

  lemma {:induction false} SplitSurvivors(a: seq<SeqId>, b: seq<SeqId>, jobs: map<SeqId, Job>, sid: SeqId)
    ensures Survivors(a + b, jobs, sid) == Survivors(a, jobs, sid) + Survivors(b, jobs, sid)
  {
    if a == [] {
      assert a + b == b;
    } else {
      SplitSurvivors(a[1..], b, jobs, sid);
      assert (a + b)[0] == a[0] && (a + b)[1..] == a[1..] + b;
      var first := if Spared(jobs, sid, a[0]) then [a[0]] else [];
      Rebracketed(first, Survivors(a[1..], jobs, sid), Survivors(b, jobs, sid));
    }
  }

  lemma {:induction false} SplitRequeued(a: seq<SeqId>, b: seq<SeqId>, jobs: map<SeqId, Job>, sid: SeqId)
    ensures Requeued(a + b, jobs, sid) == Requeued(a, jobs, sid) + Requeued(b, jobs, sid)
  {
    if a == [] {
      assert a + b == b;
    } else {
      SplitRequeued(a[1..], b, jobs, sid);
      assert (a + b)[0] == a[0] && (a + b)[1..] == a[1..] + b;
      var first := if Spared(jobs, sid, a[0]) then [] else [jobs[a[0]].req];
      Rebracketed(first, Requeued(a[1..], jobs, sid), Requeued(b, jobs, sid));
    }
  }

  lemma Rebracketed<T>(a: seq<T>, b: seq<T>, c: seq<T>)
    ensures (a + b) + c == a + (b + c)
  {
  }

  /** A victim between survivors. */
  lemma SplitVictim(mid: seq<SeqId>, gone: SeqId, newer: seq<SeqId>, jobs: map<SeqId, Job>, sid: SeqId)
    requires !Spared(jobs, sid, gone) && forall k :: k in newer ==> Spared(jobs, sid, k)
    ensures Survivors(mid + ([gone] + newer), jobs, sid) == Survivors(mid, jobs, sid) + newer
    ensures Requeued(mid + ([gone] + newer), jobs, sid) == Requeued(mid, jobs, sid) + [jobs[gone].req]
  {
    AllSpared(newer, jobs, sid);
    SplitSurvivors(mid, [gone] + newer, jobs, sid);
    SplitRequeued(mid, [gone] + newer, jobs, sid);
    assert ([gone] + newer)[1..] == newer;
    assert Survivors([gone] + newer, jobs, sid) == newer;
    assert Requeued([gone] + newer, jobs, sid) == [jobs[gone].req];
  }

  lemma {:induction false} AllSpared(a: seq<SeqId>, jobs: map<SeqId, Job>, sid: SeqId)
    requires forall k :: k in a ==> Spared(jobs, sid, k)
    ensures Survivors(a, jobs, sid) == a && Requeued(a, jobs, sid) == []
  {
    if a != [] {
      AllSpared(a[1..], jobs, sid);
    }
  }

  lemma {:induction false} SameElsewhere(a: seq<SeqId>, jobs: map<SeqId, Job>, fewer: map<SeqId, Job>, sid: SeqId, gone: SeqId)
    requires gone !in a && fewer == jobs - {gone}
    ensures Survivors(a, fewer, sid) == Survivors(a, jobs, sid) && Requeued(a, fewer, sid) == Requeued(a, jobs, sid)
  {
    if a != [] {
      SameElsewhere(a[1..], jobs, fewer, sid, gone);
    }
  }

  /** Everyone admitted before position `c` stays; of the rest only the spared stay, and the
      others' requests are at the front of the line in the order they were admitted. */
  ghost predicate PreemptedFrom(s: Sys, r: Sys, sid: SeqId, c: nat)
    requires c <= |s.active|
  {
    && r.active == s.active[..c] + Survivors(s.active[c..], s.jobs, sid)
    && r.pending == Requeued(s.active[c..], s.jobs, sid) + s.pending
    && (c < |s.active| ==> !Spared(s.jobs, sid, s.active[c]))
  }

  lemma NotPreempted(s: Sys, r: Sys, sid: SeqId)
    requires r.active == s.active && r.pending == s.pending
    ensures PreemptedFrom(s, r, sid, |s.active|)
  {
    assert s.active[..|s.active|] == s.active && s.active[|s.active|..] == [];
  }

  /** One more victim, the newest, in front of a preemption from `c`. */
  lemma PreemptedOneMore(s: Sys, m: Sys, r: Sys, sid: SeqId, i: nat, c: nat)
    requires i < |s.active| && s.active[i] in s.jobs && NoDup(s.active) && m == PreemptAt(s, i)
    requires !Spared(s.jobs, sid, s.active[i]) && forall k :: k in s.active[i + 1..] ==> Spared(s.jobs, sid, k)
    requires c <= |m.active| && PreemptedFrom(m, r, sid, c)
    ensures PreemptedFrom(s, r, sid, if c >= i then i else c)
  {
    if c >= i {
      PreemptedNewest(s, m, r, sid, i, c);
    } else {
      PreemptedOlder(s, m, r, sid, i, c);
    }
  }

  lemma PreemptedNewest(s: Sys, m: Sys, r: Sys, sid: SeqId, i: nat, c: nat)
    requires i < |s.active| && s.active[i] in s.jobs && NoDup(s.active) && m == PreemptAt(s, i)
    requires !Spared(s.jobs, sid, s.active[i]) && forall k :: k in s.active[i + 1..] ==> Spared(s.jobs, sid, k)
    requires i <= c <= |m.active| && PreemptedFrom(m, r, sid, c)
    ensures PreemptedFrom(s, r, sid, i)
  {
    var gone, newer := s.active[i], s.active[i + 1..];
    SpareTail(s, m, sid, i, c);
    assert r.active == s.active[..i] + newer;
    assert r.pending == [s.jobs[gone].req] + s.pending;
    NewestVictim(s.active, s.jobs, sid, i);
  }

  /** The newest victim, and nobody but survivors behind it. */
  lemma NewestVictim(active: seq<SeqId>, jobs: map<SeqId, Job>, sid: SeqId, i: nat)
    requires i < |active| && !Spared(jobs, sid, active[i]) && forall k :: k in active[i + 1..] ==> Spared(jobs, sid, k)
    ensures Survivors(active[i..], jobs, sid) == active[i + 1..] && Requeued(active[i..], jobs, sid) == [jobs[active[i]].req]
  {
    var gone, newer := active[i], active[i + 1..];
    assert active[i..] == [] + ([gone] + newer);
    SplitVictim([], gone, newer, jobs, sid);
  }

  lemma PreemptedOlder(s: Sys, m: Sys, r: Sys, sid: SeqId, i: nat, c: nat)
    requires c < i < |s.active| && s.active[i] in s.jobs && NoDup(s.active) && m == PreemptAt(s, i)
    requires !Spared(s.jobs, sid, s.active[i]) && forall k :: k in s.active[i + 1..] ==> Spared(s.jobs, sid, k)
    requires c <= |m.active| && PreemptedFrom(m, r, sid, c)
    ensures PreemptedFrom(s, r, sid, c)
  {
    var mid, gone, newer := s.active[c..i], s.active[i], s.active[i + 1..];
    assert s.active[c..] == mid + ([gone] + newer);
    SplitVictim(mid, gone, newer, s.jobs, sid);
    EarlierTail(s, m, sid, i, c);
    Rebracketed(Requeued(mid, s.jobs, sid), [s.jobs[gone].req], s.pending);
  }

  lemma EarlierTail(s: Sys, m: Sys, sid: SeqId, i: nat, c: nat)
    requires c < i < |s.active| && s.active[i] in s.jobs && NoDup(s.active) && m == PreemptAt(s, i)
    requires forall k :: k in s.active[i + 1..] ==> Spared(s.jobs, sid, k)
    ensures m.active[..c] == s.active[..c] && m.active[c] == s.active[c] && Spared(m.jobs, sid, s.active[c]) == Spared(s.jobs, sid, s.active[c])
    ensures Survivors(m.active[c..], m.jobs, sid) == Survivors(s.active[c..i], s.jobs, sid) + s.active[i + 1..]
    ensures Requeued(m.active[c..], m.jobs, sid) == Requeued(s.active[c..i], s.jobs, sid)
  {
    var mid, gone, newer := s.active[c..i], s.active[i], s.active[i + 1..];
    assert m.active == s.active[..i] + newer && m.jobs == s.jobs - {gone};
    assert m.active[c..] == mid + newer;
    SameElsewhere(mid + newer, s.jobs, m.jobs, sid, gone);
    SplitSurvivors(mid, newer, s.jobs, sid);
    SplitRequeued(mid, newer, s.jobs, sid);
    AllSpared(newer, s.jobs, sid);
  }

  /** Behind the newest victim there is nobody else to preempt. */
  lemma SpareTail(s: Sys, m: Sys, sid: SeqId, i: nat, c: nat)
    requires i < |s.active| && s.active[i] in s.jobs && NoDup(s.active) && m == PreemptAt(s, i)
    requires forall k :: k in s.active[i + 1..] ==> Spared(s.jobs, sid, k)
    requires i <= c <= |m.active|
    ensures m.active[..c] + Survivors(m.active[c..], m.jobs, sid) == s.active[..i] + s.active[i + 1..]
    ensures Requeued(m.active[c..], m.jobs, sid) == []
  {
    TailSpared(s.active[..i], s.active[i + 1..], s.jobs, m.jobs, sid, s.active[i], c);
  }

  lemma TailSpared(older: seq<SeqId>, newer: seq<SeqId>, jobs: map<SeqId, Job>, fewer: map<SeqId, Job>, sid: SeqId, gone: SeqId, c: nat)
    requires fewer == jobs - {gone} && (forall k :: k in newer ==> Spared(jobs, sid, k)) && |older| <= c <= |older + newer|
    ensures var left := older + newer;
      left[..c] + Survivors(left[c..], fewer, sid) == left && Requeued(left[c..], fewer, sid) == []
  {
    var left := older + newer;
    forall k | k in left[c..]
      ensures Spared(fewer, sid, k)
    {
      assert left[c..] == newer[c - |older|..];
      assert k in newer && Spared(jobs, sid, k);
    }
    AllSpared(left[c..], fewer, sid);
    assert left[..c] + left[c..] == left;
  }

  lemma {:induction false} PreemptForIsLifo(env: Env, s: Sys, sid: SeqId, needed: nat) returns (c: nat)
    requires Wf(env, s, {}) && sid in s.jobs
    ensures c <= |s.active| && PreemptedFrom(s, PreemptFor(env, s, sid, needed), sid, c)
    decreases |s.active|
  {
    var r := PreemptFor(env, s, sid, needed);
    GrowTableExact(env, s, sid, needed);
    var v := Victim(s.active, s.jobs, sid, |s.active|);
    if GrowTable(env, s, sid, needed).1 || v.None? {
      c := |s.active|;
      NotPreempted(s, r, sid);
    } else {
      var m := PreemptAt(s, v.value);
      PreemptAtWf(env, s, v.value);
      var d := PreemptForIsLifo(env, m, sid, needed);
      forall k | k in s.active[v.value + 1..]
        ensures Spared(s.jobs, sid, k)
      {
        var n :| v.value + 1 <= n < |s.active| && s.active[n] == k;
      }
      PreemptedOneMore(s, m, r, sid, v.value, d);
      c := if d >= v.value then v.value else d;
    }
  }

  /** PREEMPTION IS LAST IN, FIRST OUT. Making room for `sid` preempts, from some point in the
      order of admission, everyone but finished jobs and `sid` itself, and nobody before that
      point; the preempted requests go back to the front of the line in the order they were
      admitted, so the oldest is admitted again first. */
  lemma PreemptionIsLifo(env: Env, s: Sys, sid: SeqId)
    requires Kept(env, s)
    ensures exists c: nat :: c <= |s.active| && PreemptedFrom(s, ResolveOne(env, s, sid), sid, c)
  {
    assert Wf(env, s, {});
    var r := ResolveOne(env, s, sid);
    if sid in s.active && sid in s.jobs && BlocksFor(env.cfg.blockSize, Tokens(s.jobs[sid])) <= |s.pool.refs| {
      var needed := Tokens(s.jobs[sid]);
      RoomThenPreempt(env, s, sid, needed);
    } else {
      NotPreempted(s, r, sid);
    }
  }

  lemma RoomThenPreempt(env: Env, s: Sys, sid: SeqId, needed: nat)
    requires Kept(env, s) && sid in s.active && sid in s.jobs && needed == Tokens(s.jobs[sid])
    ensures exists c: nat :: c <= |s.active| && PreemptedFrom(s, PreemptFor(env, ReclaimFor(env, s, sid, needed), sid, needed), sid, c)
  {
    var s1 := ReclaimFor(env, s, sid, needed);
    RoomKeepsActive(env, s, sid, needed);
    var c := PreemptForIsLifo(env, s1, sid, needed);
    if HasCapacity(env, s1, sid, needed) {
      NotPreempted(s, PreemptFor(env, s1, sid, needed), sid);
    } else {
      SameFrom(s, s1, PreemptFor(env, s1, sid, needed), sid, c);
    }
  }

  /** Giving up donors moves nobody. */
  lemma RoomKeepsActive(env: Env, s: Sys, sid: SeqId, needed: nat)
    requires Kept(env, s) && sid in s.jobs
    ensures var s1 := ReclaimFor(env, s, sid, needed);
      && Wf(env, s1, {}) && s1.active == s.active && s1.pending == s.pending
      && (!HasCapacity(env, s1, sid, needed) ==> s1.jobs == s.jobs)
  {
    ReclaimForOutcome(env, s, sid, needed);
    ReclaimForKept(env, s, sid, needed);
    assert Wf(env, ReclaimFor(env, s, sid, needed), {});
  }

  lemma SameFrom(s: Sys, s1: Sys, r: Sys, sid: SeqId, c: nat)
    requires s1.active == s.active && s1.pending == s.pending && s1.jobs == s.jobs && c <= |s1.active| && PreemptedFrom(s1, r, sid, c)
    ensures PreemptedFrom(s, r, sid, c)
  {
  }

  /* ---------------- headroom ---------------- */

  /** Every unfinished job's table covers its tokens. */
  ghost predicate Covered(env: Env, jobs: map<SeqId, Job>) {
    forall k :: k in jobs && !Finished(jobs[k]) ==> BlocksFor(env.cfg.blockSize, Tokens(jobs[k])) <= |jobs[k].table.blocks|
  }

  lemma OneMoreToken(blockSize: nat, n: nat)
    requires blockSize > 0
    ensures BlocksFor(blockSize, n + 1) <= BlocksFor(blockSize, n) + 1
  {
    BlocksForIsCeiling(blockSize, n);
    BlocksForIsCeiling(blockSize, n + 1);
    Between(BlocksFor(blockSize, n), BlocksFor(blockSize, n + 1), blockSize, n);
  }

  lemma Between(q: nat, r: nat, blockSize: nat, n: nat)
    requires blockSize > 0 && n <= q * blockSize && r * blockSize < n + 1 + blockSize
    ensures r <= q + 1
  {
    var d := r - q;
    assert r * blockSize == q * blockSize + d * blockSize;
    assert d >= 2 ==> d * blockSize >= 2 * blockSize;
  }

  /** One accept takes at most one block, so with one to spare nobody starves. */
  lemma AcceptOneTakesOne(env: Env, s: Sys, sid: SeqId, next: NextToken, cancelled: bool)
    requires sid in s.jobs && !Finished(s.jobs[sid]) && |s.pool.freeList| >= 1
    requires BlocksFor(env.cfg.blockSize, Tokens(s.jobs[sid])) <= |s.jobs[sid].table.blocks|
    ensures var (r, short) := AcceptOne(env, s, sid, next, cancelled);
      !short && |r.pool.freeList| >= |s.pool.freeList| - 1 && forall k :: k in s.jobs && k != sid ==> r.jobs[k] == s.jobs[k]
  {
    var j := s.jobs[sid];
    var g := Accept(env.be.piece, j.st.spec, j.st.gen, next, cancelled);
    OneMoreToken(env.cfg.blockSize, Tokens(j));
    if !g.finished {
      assert g.completion == j.st.gen.completion + 1;
      var needed := BlocksFor(env.cfg.blockSize, Tokens(SetGen(j, g)));
      if needed > |j.table.blocks| {
        AllocOne(s.pool);
      }
    }
  }

  lemma {:induction false} EnoughHeadroom(env: Env, s: Sys, sampling: seq<SeqId>, steps: seq<GenStep>, cancelled: set<nat>)
    requires |steps| == |sampling| && NoDup(sampling) && |s.pool.freeList| >= |sampling|
    requires forall i :: 0 <= i < |sampling| ==>
      sampling[i] in s.jobs && !Finished(s.jobs[sampling[i]]) &&
      BlocksFor(env.cfg.blockSize, Tokens(s.jobs[sampling[i]])) <= |s.jobs[sampling[i]].table.blocks|
    ensures AcceptLoop(env, s, sampling, steps, cancelled).1 == []
    decreases |sampling|
  {
    if sampling != [] {
      var sid := sampling[0];
      var gone := s.jobs[sid].req.id in cancelled;
      AcceptOneTakesOne(env, s, sid, steps[0].next, gone);
      var s1 := AcceptOne(env, s, sid, steps[0].next, gone).0;
      assert forall i :: 0 <= i < |sampling[1..]| ==> sampling[1..][i] == sampling[i + 1] && sampling[1..][i] != sid;
      EnoughHeadroom(env, s1, sampling[1..], steps[1..], cancelled);
    }
  }

  ghost function Unfinished(jobs: map<SeqId, Job>): set<SeqId> {
    set k | k in jobs && !Finished(jobs[k])
  }

  /** One free block per unfinished sequence. */
  ghost predicate Spare(s: Sys) {
    |s.pool.freeList| >= |Unfinished(s.jobs)|
  }

  lemma {:induction false} IncrefKeepsFree(p: Pool, blocks: seq<BlockId>)
    ensures IncrefAll(p, blocks).freeList == p.freeList
    decreases |blocks|
  {
    if blocks != [] {
      IncrefKeepsFree(Incref(p, blocks[0]), blocks[1..]);
    }
  }

  /** What admitting the front request does to the jobs and to the free list. */
  lemma AdmitEffect(env: Env, s: Sys)
    requires s.pending != [] && s.freeSlots != [] && Wf(env, s, {Last(s.freeSlots)}) && Admit(env, s).Some?
    ensures var (r, job) := (Admit(env, s).value, FrontJob(env, s));
      var slot := Last(s.freeSlots);
      && slot in r.jobs && r.jobs == s.jobs[slot := r.jobs[slot]] && r.active == s.active + [slot]
      && r.jobs[slot].st.gen == job.st.gen && r.jobs[slot].st.prompt == job.st.prompt && r.jobs[slot].req == job.req
      && r.delivered == s.delivered && r.orphans == s.orphans
      && (Finished(job) ==> r.pool == s.pool)
      && (!Finished(job) ==> |r.pool.freeList| == |s.pool.freeList| - Want(env, s) && Want(env, s) <= |r.jobs[slot].table.blocks|)
  {
    var job := FrontJob(env, s);
    if !Finished(job) {
      var (q, t, _) := EnsureCapacity(env.cfg.blockSize, s.pool, EMPTY_TABLE, |job.st.prompt|);
      ReserveKeepsPool(env, s, Last(s.freeSlots), |job.st.prompt|);
      TableCovers(env, s.pool, |job.st.prompt|);
      var hit := HitFor(env, s.cache, job.(table := t));
      if hit.Some? {
        SharePrefixHit(env, s.(pool := q), job.(table := t));
        IncrefKeepsFree(q, s.cache.entries[hit.value].entry.blocks);
      } else {
        SharePrefixMiss(env, s.(pool := q), job.(table := t));
      }
    }
  }

  lemma TableCovers(env: Env, p: Pool, n: nat)
    requires EnsureCapacity(env.cfg.blockSize, p, EMPTY_TABLE, n).2
    ensures |EnsureCapacity(env.cfg.blockSize, p, EMPTY_TABLE, n).1.blocks| == BlocksFor(env.cfg.blockSize, n)
  {
    var needed := BlocksFor(env.cfg.blockSize, n);
    if needed > 0 {
      AllocNLength(p, needed);
    }
  }

  lemma UnfinishedBound(env: Env, s: Sys, extra: set<SeqId>)
    requires Wf(env, s, extra)
    ensures |Unfinished(s.jobs)| <= |s.active|
  {
    var elements := set k: SeqId | k in s.active;
    SeqAsSet(s.active);
    SubsetCard(Unfinished(s.jobs), elements);
  }

  lemma UnfinishedSet(jobs: map<SeqId, Job>, slot: SeqId, j: Job)
    requires slot !in jobs
    ensures Unfinished(jobs[slot := j]) == Unfinished(jobs) + (if Finished(j) then {} else {slot})
  {
  }

  /** An unfinished newcomer admitted beside running sequences leaves a spare block for each
      of them and for itself; every other decision keeps the spare there was. */
  lemma AdmitFrontSpares(env: Env, s: Sys)
    requires Wf(env, s, {}) && s.pending != [] && s.freeSlots != [] && s.active != []
    ensures var (r, outcome) := AdmitFront(env, s);
      && (Spare(s) || (outcome.Admitted? && !Finished(FrontJob(env, s))) ==> Spare(r))
      && r.active != []
      && (Covered(env, s.jobs) ==> Covered(env, r.jobs))
      && (forall k :: k in s.jobs ==> k in r.jobs && r.jobs[k] == s.jobs[k])
      && (forall k :: k in r.jobs && k !in s.jobs && !Finished(r.jobs[k]) ==> outcome.Admitted? && !Finished(FrontJob(env, s)))
  {
    MakeRoomSound(env, s);
    MakeRoomFrees(env, s);
    DecideSpares(env, s, MakeRoom(env, s));
  }

  lemma DecideSpares(env: Env, s: Sys, s1: Sys)
    requires s.pending != [] && s.freeSlots != [] && s.active != [] && s1 == MakeRoom(env, s)
    requires Sound(env, s1, {Last(s.freeSlots)}) && |s1.pool.freeList| >= |s.pool.freeList|
    ensures var (r, outcome) := AdmitFront(env, s);
      && (Spare(s) || (outcome.Admitted? && !Finished(FrontJob(env, s))) ==> Spare(r))
      && r.active != []
      && (Covered(env, s.jobs) ==> Covered(env, r.jobs))
      && (forall k :: k in s.jobs ==> k in r.jobs && r.jobs[k] == s.jobs[k])
      && (forall k :: k in r.jobs && k !in s.jobs && !Finished(r.jobs[k]) ==> outcome.Admitted? && !Finished(FrontJob(env, s)))
  {
    if Admit(env, s1).Some? {
      AdmitSpares(env, s, s1);
    } else {
      assert Unfinished(s1.jobs) == Unfinished(s.jobs);
    }
  }

  lemma MakeRoomFrees(env: Env, s: Sys)
    requires Wf(env, s, {}) && s.pending != [] && s.freeSlots != []
    ensures |MakeRoom(env, s).pool.freeList| >= |s.pool.freeList|
  {
    var n: nat :| n == Want(env, s) + Headroom(s);
    MakeRoomReclaims(env, s, n);
    BeginWf(env, s, s.pending[0].spec.sampling);
    ReclaimUntilWf(env, s.(kv := Begin(s.kv, Last(s.freeSlots), s.pending[0].spec.sampling)), {Last(s.freeSlots)}, n);
  }

  lemma AdmitSpares(env: Env, s: Sys, s1: Sys)
    requires s.pending != [] && s.freeSlots != [] && s.active != []
    requires s1 == s.(cache := s1.cache, pool := s1.pool, kv := s1.kv, held := s1.held)
    requires Sound(env, s1, {Last(s.freeSlots)}) && |s1.pool.freeList| >= |s.pool.freeList| && Admit(env, s1).Some?
    ensures var r, job := Admit(env, s1).value, FrontJob(env, s);
      && (Spare(s) || !Finished(job) ==> Spare(r))
      && (Covered(env, s.jobs) ==> Covered(env, r.jobs))
      && (forall k :: k in s.jobs ==> k in r.jobs && r.jobs[k] == s.jobs[k])
      && (forall k :: k in r.jobs && k !in s.jobs && !Finished(r.jobs[k]) ==> !Finished(job))
  {
    var slot := Last(s.freeSlots);
    assert Wf(env, s1, {slot});
    assert slot in s1.freeSlots && slot !in s1.jobs;
    AdmitEffect(env, s1);
    var r := Admit(env, s1).value;
    AdmitSparesBlocks(env, s, s1, r);
  }

  lemma AdmitSparesBlocks(env: Env, s: Sys, s1: Sys, r: Sys)
    requires s.pending != [] && s.freeSlots != [] && s.active != []
    requires s1 == s.(cache := s1.cache, pool := s1.pool, kv := s1.kv, held := s1.held)
    requires Wf(env, s1, {Last(s.freeSlots)}) && |s1.pool.freeList| >= |s.pool.freeList| && Admit(env, s1) == Some(r)
    ensures Spare(s) || !Finished(FrontJob(env, s)) ==> Spare(r)
  {
    var slot := Last(s.freeSlots);
    assert slot in s1.freeSlots && slot !in s1.jobs;
    AdmitEffect(env, s1);
    AdmitIff(env, s1);
    UnfinishedBound(env, s1, {slot});
    UnfinishedSet(s.jobs, slot, r.jobs[slot]);
  }

  lemma {:induction false} AdmitLoopSpares(env: Env, s: Sys, r: Sys)
    requires Wf(env, s, {}) && s.active != [] && r == AdmitLoop(env, s)
    ensures Spare(s) ==> Spare(r)
    ensures (exists k :: k in r.jobs && k !in s.jobs && !Finished(r.jobs[k])) ==> Spare(r)
    ensures Covered(env, s.jobs) ==> Covered(env, r.jobs)
    ensures forall k :: k in s.jobs ==> k in r.jobs && r.jobs[k] == s.jobs[k]
    decreases |s.pending|
  {
    if s.pending != [] && s.freeSlots != [] {
      AdmitFrontWf(env, s);
      AdmitFrontSpares(env, s);
      var (s1, outcome) := AdmitFront(env, s);
      if !outcome.Deferred? {
        AdmitLoopSpares(env, s1, r);
        if k :| k in r.jobs && k !in s.jobs && !Finished(r.jobs[k]) {
          assert k in s1.jobs ==> s1.jobs[k] == r.jobs[k];
        }
      }
    }
  }

  /** HEADROOM. If every unfinished table covers its tokens and an unfinished newcomer is
      admitted beside a non-empty active set, that iteration's accept loop starves nobody. */
  lemma HeadroomHolds(env: Env, s: Sys, o: Oracle)
    requires Wf(env, s, {}) && s.active != [] && Covered(env, s.jobs)
    requires exists k :: k in AdmitLoop(env, s).jobs && k !in s.jobs && !Finished(AdmitLoop(env, s).jobs[k])
    ensures Advance(env, AdmitLoop(env, s), o).1 == []
  {
    var r := AdmitLoop(env, s);
    AdmitLoopSpares(env, s, r);
    AdmitLoopWf(env, s);
    NobodyStarves(env, r, o);
  }

  lemma NobodyStarves(env: Env, s: Sys, o: Oracle)
    requires Wf(env, s, {}) && Spare(s) && Covered(env, s.jobs)
    ensures Advance(env, s, o).1 == []
  {
    if o.fault.None? {
      WfAddressed(env, s, {});
      BatchFits(env, s);
      AdvanceForward(env, s, o);
      var (items, jobs) := Build(env, s);
      ForwardStarvesNobody(env, s, items, jobs, o.cancelled);
    }
  }

  lemma SamplingCovered(env: Env, active: seq<SeqId>, jobs: map<SeqId, Job>, jobs': map<SeqId, Job>, items: seq<BatchItem>, m: nat)
    requires Covered(env, jobs) && ItemsFit(active, jobs, jobs', items) && m < |SampledSids(items)|
    ensures var sid := SampledSids(items)[m];
      && sid in jobs' && sid in Unfinished(jobs) && !Finished(jobs'[sid])
      && BlocksFor(env.cfg.blockSize, Tokens(jobs'[sid])) <= |jobs'[sid].table.blocks|
  {
    var i := SampledSidsFrom(items, m);
    assert ItemFits(jobs, jobs', items[i]);
  }

  lemma ForwardStarvesNobody(env: Env, s: Sys, items: seq<BatchItem>, jobs: map<SeqId, Job>, cancelled: set<nat>)
    requires Spare(s) && Covered(env, s.jobs) && ItemsFit(s.active, s.jobs, jobs, items)
    ensures Forward(env, s.(jobs := jobs), items, cancelled).1 == []
  {
    var (kv, steps) := Decode(env.be, s.kv, items);
    var sampling := SampledSids(items);
    DecodeSteps(env.be, s.kv, items);
    SampledSidsDistinct(items);
    forall m | 0 <= m < |sampling|
      ensures sampling[m] in jobs && sampling[m] in Unfinished(s.jobs) && !Finished(jobs[sampling[m]])
      ensures BlocksFor(env.cfg.blockSize, Tokens(jobs[sampling[m]])) <= |jobs[sampling[m]].table.blocks|
    {
      SamplingCovered(env, s.active, s.jobs, jobs, items, m);
    }
    FewSamples(sampling, Unfinished(s.jobs));
    EnoughHeadroom(env, s.(jobs := jobs, kv := kv), sampling, steps, cancelled);
  }

  lemma FewSamples(sampling: seq<SeqId>, unfinished: set<SeqId>)
    requires NoDup(sampling) && forall m :: 0 <= m < |sampling| ==> sampling[m] in unfinished
    ensures |sampling| <= |unfinished|
  {
    var elements := set k: SeqId | k in sampling;
    SeqAsSet(sampling);
    SubsetCard(elements, unfinished);
  }
}
