/** When no retained entry is overwritten: if no two accepted requests have a whole-block prefix
    in common under the hash, nothing is ever orphaned, and what the other modules prove of
    runs without orphans holds of every run of those requests. */
module Overwrites {
  import opened Types
  import opened Sequence
  import opened BlockPool
  import opened Cache
  import opened Engine
  import opened Generator
  import opened Scheduling
  import opened Invariants
  import opened Books
  import opened Independence
  import opened Runs
  import opened Capacity
  import opened Causes

  /** The request's prompt fills a block, and its whole blocks hash to `h`. */
  predicate StoresUnder(env: Env, req: Request, h: nat) {
    var prompt := PromptOf(env, req);
    var nb := |prompt| / env.cfg.blockSize;
    nb > 0 && h == env.be.hash(prompt[..nb * env.cfg.blockSize])
  }

  ghost predicate ShareKey(env: Env, r: Request, q: Request) {
    exists h :: StoresUnder(env, r, h) && StoresUnder(env, q, h)
  }

  /** No two of them, not even equal ones, share a key. */
  ghost predicate DistinctPrefixes(env: Env, reqs: seq<Request>) {
    forall i, j :: 0 <= i < j < |reqs| ==> !ShareKey(env, reqs[i], reqs[j])
  }

  /** The requests of the active sequences share no key with each other or with any that was
      answered. */
  ghost predicate Strangers(env: Env, jobs: map<SeqId, Job>, delivered: seq<Delivery>) {
    && (forall k :: k in jobs ==> jobs[k].st.prompt == PromptOf(env, jobs[k].req))
    && (forall k, l :: k in jobs && l in jobs && k != l ==> !ShareKey(env, jobs[k].req, jobs[l].req))
    && (forall k, i :: k in jobs && 0 <= i < |delivered| ==> !ShareKey(env, jobs[k].req, delivered[i].req))
  }

  /** Every retained entry was left behind by a request that has been answered. */
  ghost predicate LeftBy(env: Env, delivered: seq<Delivery>, h: nat) {
    exists i :: 0 <= i < |delivered| && StoresUnder(env, delivered[i].req, h)
  }

  ghost predicate Tidy(env: Env, s: Sys) {
    && s.orphans == {}
    && forall h {:trigger LeftBy(env, s.delivered, h)} :: h in s.cache.entries && s.cache.entries[h].entry.retained ==> LeftBy(env, s.delivered, h)
  }

  /* ---------------- requests in hand are strangers ---------------- */

  lemma TwiceInSeq(reqs: seq<Request>, r: Request) returns (i: nat, j: nat)
    requires multiset(reqs)[r] >= 2
    ensures i < j < |reqs| && reqs[i] == reqs[j] == r
  {
    j := |reqs| - 1;
    if reqs[j] == r {
      assert reqs == reqs[..j] + [r];
      assert r in multiset(reqs[..j]);
      assert r in reqs[..j];
      i :| 0 <= i < j && reqs[i] == r;
    } else {
      assert reqs == reqs[..j] + [reqs[j]];
      i, j := TwiceInSeq(reqs[..j], r);
    }
  }

  /** Two accepted requests, or one accepted twice, share no key. */
  lemma Unrelated(env: Env, reqs: seq<Request>, r: Request, q: Request)
    requires DistinctPrefixes(env, reqs) && r in multiset(reqs) && q in multiset(reqs) && (r == q ==> multiset(reqs)[r] >= 2)
    ensures !ShareKey(env, r, q)
  {
    if r == q {
      var i, j := TwiceInSeq(reqs, r);
      assert !ShareKey(env, reqs[i], reqs[j]);
    } else {
      var i :| 0 <= i < |reqs| && reqs[i] == r;
      var j :| 0 <= j < |reqs| && reqs[j] == q;
      assert !ShareKey(env, reqs[if i < j then i else j], reqs[if i < j then j else i]);
    }
  }

  lemma {:induction false} DeliveredCount(delivered: seq<Delivery>, i: nat)
    requires i < |delivered|
    ensures delivered[i].req in DeliveredReqs(delivered)
    decreases |delivered|
  {
    if i < |delivered| - 1 {
      DeliveredCount(DropLast(delivered), i);
    }
  }

  lemma ActiveTwice(active: seq<SeqId>, jobs: map<SeqId, Job>, k: SeqId, l: SeqId)
    requires k in active && l in active && k != l && k in jobs && l in jobs
    ensures var m := ActiveReqs(active, jobs); jobs[k].req in m && jobs[l].req in m && (jobs[k].req == jobs[l].req ==> m[jobs[k].req] >= 2)
  {
    var a :| 0 <= a < |active| && active[a] == k;
    var b :| 0 <= b < |active| && active[b] == l;
    var list := RequestList(active, jobs);
    assert list[a] == jobs[k].req && list[b] == jobs[l].req;
    if jobs[k].req == jobs[l].req {
      CountTwo(list, if a < b then a else b, if a < b then b else a);
    }
  }

  lemma CountTwo(list: seq<Request>, i: nat, j: nat)
    requires i < j < |list| && list[i] == list[j]
    ensures multiset(list)[list[i]] >= 2
  {
    assert list == list[..j] + [list[j]] + list[j + 1..];
    assert list[i] in list[..j];
  }

  lemma InHandAreStrangers(env: Env, s: Sys)
    requires Wf(env, s, {}) && Balanced(s) && DistinctPrefixes(env, s.accepted)
    ensures Strangers(env, s.jobs, s.delivered)
  {
    forall k | k in s.jobs
      ensures s.jobs[k].st.prompt == PromptOf(env, s.jobs[k].req)
    {
      assert JobOk(env, k, s.jobs[k]);
    }
    forall k, l | k in s.jobs && l in s.jobs && k != l
      ensures !ShareKey(env, s.jobs[k].req, s.jobs[l].req)
    {
      ActiveTwice(s.active, s.jobs, k, l);
      Unrelated(env, s.accepted, s.jobs[k].req, s.jobs[l].req);
    }
    forall k, i | k in s.jobs && 0 <= i < |s.delivered|
      ensures !ShareKey(env, s.jobs[k].req, s.delivered[i].req)
    {
      var a :| 0 <= a < |s.active| && s.active[a] == k;
      assert RequestList(s.active, s.jobs)[a] == s.jobs[k].req;
      assert s.jobs[k].req in ActiveReqs(s.active, s.jobs);
      DeliveredCount(s.delivered, i);
      Unrelated(env, s.accepted, s.jobs[k].req, s.delivered[i].req);
    }
  }

  /* ---------------- nothing is overwritten ---------------- */

  lemma LeftByMore(env: Env, small: seq<Delivery>, big: seq<Delivery>, h: nat)
    requires LeftBy(env, small, h) && small <= big
    ensures LeftBy(env, big, h)
  {
    var i :| 0 <= i < |small| && StoresUnder(env, small[i].req, h);
    assert big[i] == small[i];
  }

  /** Retained entries may go, and more may have been answered. */
  lemma TidySub(env: Env, s: Sys, r: Sys)
    requires Tidy(env, s) && r.orphans == s.orphans && s.delivered <= r.delivered
    requires forall h :: h in r.cache.entries && r.cache.entries[h].entry.retained ==> h in s.cache.entries && s.cache.entries[h].entry.retained
    ensures Tidy(env, r)
  {
    forall h | h in r.cache.entries && r.cache.entries[h].entry.retained
      ensures LeftBy(env, r.delivered, h)
    {
      assert LeftBy(env, s.delivered, h);
      LeftByMore(env, s.delivered, r.delivered, h);
    }
  }

  /** A stranger's key is not that of a retained entry. */
  lemma NothingOverwritten(env: Env, s: Sys, j: Job)
    requires Tidy(env, s) && j.st.prompt == PromptOf(env, j.req) && WholeBlocks(env, j) > 0
    requires forall i :: 0 <= i < |s.delivered| ==> !ShareKey(env, j.req, s.delivered[i].req)
    ensures Overwritten(s.cache, PrefixKey(env, j)) == {} && StoresUnder(env, j.req, PrefixKey(env, j))
  {
    NotLeftBy(env, s.delivered, j.req, PrefixKey(env, j));
  }

  lemma NotLeftBy(env: Env, delivered: seq<Delivery>, req: Request, h: nat)
    requires StoresUnder(env, req, h) && forall i :: 0 <= i < |delivered| ==> !ShareKey(env, req, delivered[i].req)
    ensures !LeftBy(env, delivered, h)
  {
    forall i | 0 <= i < |delivered|
      ensures !StoresUnder(env, delivered[i].req, h)
    {
      var q := delivered[i].req;
      assert StoresUnder(env, q, h) ==> ShareKey(env, req, q);
    }
  }

  /* ---------------- admission ---------------- */

  lemma {:induction false} ReclaimUntilTidy(env: Env, s: Sys, n: nat)
    requires Tidy(env, s)
    ensures Tidy(env, ReclaimUntil(s, n))
    decreases |s.cache.entries|
  {
    if |s.pool.freeList| < n && HasRetained(s.cache) {
      TidySub(env, s, ReclaimDonor(s));
      ReclaimUntilTidy(env, ReclaimDonor(s), n);
    }
  }

  lemma AdmitFrontTidy(env: Env, s: Sys)
    requires Tidy(env, s) && s.pending != [] && s.freeSlots != []
    ensures Tidy(env, AdmitFront(env, s).0)
  {
    var n: nat :| n == Want(env, s) + Headroom(s);
    MakeRoomReclaims(env, s, n);
    var s0 := s.(kv := Begin(s.kv, Last(s.freeSlots), s.pending[0].spec.sampling));
    TidySub(env, s, s0);
    ReclaimUntilTidy(env, s0, n);
    AdmitTidy(env, MakeRoom(env, s));
    TidySub(env, MakeRoom(env, s), AdmitFront(env, s).0);
  }

  lemma AdmitTidy(env: Env, s: Sys)
    requires s.pending != [] && s.freeSlots != []
    ensures Admit(env, s).Some? ==>
      var r := Admit(env, s).value;
      && r.orphans == s.orphans && r.delivered == s.delivered
      && forall h :: h in r.cache.entries && r.cache.entries[h].entry.retained ==> h in s.cache.entries && s.cache.entries[h].entry.retained
  {
    var job := FrontJob(env, s);
    if !Finished(job) && Admit(env, s).Some? {
      var (q, t, _) := EnsureCapacity(env.cfg.blockSize, s.pool, EMPTY_TABLE, |job.st.prompt|);
      ShareTidy(env, s.(pool := q), job.(table := t));
    }
  }

  lemma ShareTidy(env: Env, s: Sys, job: Job)
    ensures var r := SharePrefix(env, s, job).0;
      forall h :: h in r.cache.entries && r.cache.entries[h].entry.retained ==> h in s.cache.entries && s.cache.entries[h].entry.retained
  {
  }

  lemma {:induction false} AdmitLoopTidy(env: Env, s: Sys)
    requires Tidy(env, s)
    ensures Tidy(env, AdmitLoop(env, s))
    decreases |s.pending|
  {
    if s.pending != [] && s.freeSlots != [] {
      AdmitFrontTidy(env, s);
      if !AdmitFront(env, s).1.Deferred? {
        AdmitLoopTidy(env, AdmitFront(env, s).0);
      }
    }
  }

  /* ---------------- a pass ---------------- */

  ghost predicate Neat(env: Env, s: Sys) {
    Tidy(env, s) && Strangers(env, s.jobs, s.delivered)
  }

  ghost predicate SameReqs(jobs: map<SeqId, Job>, jobs': map<SeqId, Job>) {
    forall k :: k in jobs' ==> k in jobs && jobs'[k].req == jobs[k].req && jobs'[k].st.prompt == jobs[k].st.prompt
  }

  /** Jobs may have moved on or left; retained entries may have gone. */
  lemma NeatSub(env: Env, s: Sys, r: Sys)
    requires Neat(env, s) && SameReqs(s.jobs, r.jobs) && r.orphans == s.orphans && r.delivered == s.delivered
    requires forall h :: h in r.cache.entries && r.cache.entries[h].entry.retained ==> h in s.cache.entries && s.cache.entries[h].entry.retained
    ensures Neat(env, r)
  {
    TidySub(env, s, r);
  }

  lemma PublishNeat(env: Env, s: Sys, sid: SeqId)
    requires Neat(env, s) && sid in s.jobs
    ensures Neat(env, Publish(env, s, sid))
  {
    if WholeBlocks(env, s.jobs[sid]) > 0 {
      NothingOverwritten(env, s, s.jobs[sid]);
    }
    NeatSub(env, s, Publish(env, s, sid));
  }

  lemma AcceptOneNeat(env: Env, s: Sys, sid: SeqId, next: NextToken, cancelled: bool)
    requires Neat(env, s) && sid in s.jobs
    ensures Neat(env, AcceptOne(env, s, sid, next, cancelled).0)
  {
    var j := s.jobs[sid];
    var g := Accept(env.be.piece, j.st.spec, j.st.gen, next, cancelled);
    var j1 := SetGen(j, g);
    var (q, t, ok) := EnsureCapacity(env.cfg.blockSize, s.pool, j1.table, Tokens(j1));
    if !g.finished && ok {
      JobNeat(env, s, q, sid, j1.(table := t));
      PublishNeat(env, s.(pool := q, jobs := s.jobs[sid := j1.(table := t)]), sid);
    } else {
      JobNeat(env, s, s.pool, sid, if g.finished then SetGen(j, Finish(g)) else j1);
    }
  }

  lemma JobNeat(env: Env, s: Sys, q: Pool, sid: SeqId, j: Job)
    requires Neat(env, s) && sid in s.jobs && j.req == s.jobs[sid].req && j.st.prompt == s.jobs[sid].st.prompt
    ensures Neat(env, s.(pool := q, jobs := s.jobs[sid := j]))
  {
    NeatSub(env, s, s.(pool := q, jobs := s.jobs[sid := j]));
  }

  lemma {:induction false} AcceptLoopNeat(env: Env, s: Sys, sampling: seq<SeqId>, steps: seq<GenStep>, cancelled: set<nat>)
    requires Neat(env, s) && |steps| == |sampling| && forall i :: 0 <= i < |sampling| ==> sampling[i] in s.jobs
    ensures Neat(env, AcceptLoop(env, s, sampling, steps, cancelled).0)
    decreases |sampling|
  {
    if sampling != [] {
      var sid := sampling[0];
      var hit := s.jobs[sid].req.id in cancelled;
      AcceptOneNeat(env, s, sid, steps[0].next, hit);
      AcceptLoopNeat(env, AcceptOne(env, s, sid, steps[0].next, hit).0, sampling[1..], steps[1..], cancelled);
    }
  }

  lemma AdvanceNeat(env: Env, s: Sys, o: Oracle)
    requires Wf(env, s, {}) && Neat(env, s)
    ensures Neat(env, Advance(env, s, o).0)
  {
    BuildOnlyPrefills(env, s);
    var (items, jobs) := Build(env, s);
    var s1 := s.(jobs := jobs);
    NeatSub(env, s, s1);
    if items != [] {
      if o.fault.Some? {
        CrashNeat(env, s1, items, o.fault.value);
      } else {
        ForwardNeat(env, s1, items, o.cancelled);
      }
    }
  }

  lemma CrashNeat(env: Env, s: Sys, items: seq<BatchItem>, garbage: map<SeqId, seq<Token>>)
    requires Neat(env, s)
    ensures Neat(env, Crash(s, items, garbage))
  {
    NeatSub(env, s, Crash(s, items, garbage));
  }

  lemma ForwardNeat(env: Env, s: Sys, items: seq<BatchItem>, cancelled: set<nat>)
    requires Neat(env, s)
    ensures Neat(env, Forward(env, s, items, cancelled).0)
  {
    var (kv, steps) := Decode(env.be, s.kv, items);
    var sampling := SampledSids(items);
    NeatSub(env, s, s.(kv := kv));
    if |steps| == |sampling| && forall i :: 0 <= i < |sampling| ==> sampling[i] in s.jobs {
      AcceptLoopNeat(env, s.(kv := kv), sampling, steps, cancelled);
    }
  }

  /* ---------------- leaving ---------------- */

  /** Storing the leaver's prefix adds one retained entry, under its own key. */
  lemma RetainedUnderOwnKey(env: Env, s: Sys, j: Job, copyFails: bool)
    requires Tidy(env, s) && j.st.prompt == PromptOf(env, j.req)
    requires forall i :: 0 <= i < |s.delivered| ==> !ShareKey(env, j.req, s.delivered[i].req)
    ensures var r := RetainPrefix(env, s, j, copyFails);
      && r.orphans == {}
      && forall h :: h in r.cache.entries && r.cache.entries[h].entry.retained ==>
           (h in s.cache.entries && s.cache.entries[h].entry.retained) || StoresUnder(env, j.req, h)
  {
    if Retainable(env, j) {
      var s1 := MakeDonorRoom(s);
      TidySub(env, s, s1);
      NothingOverwritten(env, s1, j);
    }
  }

  lemma RetireAtNeat(env: Env, s: Sys, i: nat, copyFails: set<nat>)
    requires Neat(env, s) && i < |s.active| && s.active[i] in s.jobs
    ensures Neat(env, RetireAt(env, s, i, copyFails))
  {
    var sid := s.active[i];
    var j := s.jobs[sid];
    var s1 := ForgetJob(s, sid);
    TidySub(env, s, s1);
    RetainedUnderOwnKey(env, s1, j, j.req.id in copyFails);
    RetiredNeat(env, s, i, RetireAt(env, s, i, copyFails));
  }

  lemma RetiredNeat(env: Env, s: Sys, i: nat, r: Sys)
    requires Neat(env, s) && i < |s.active| && s.active[i] in s.jobs && r.jobs == s.jobs - {s.active[i]} && r.orphans == {}
    requires |r.delivered| == |s.delivered| + 1 && s.delivered <= r.delivered && Last(r.delivered).req == s.jobs[s.active[i]].req
    requires forall h :: h in r.cache.entries && r.cache.entries[h].entry.retained ==>
      (h in s.cache.entries && s.cache.entries[h].entry.retained) || StoresUnder(env, s.jobs[s.active[i]].req, h)
    ensures Neat(env, r)
  {
    var j, n := s.jobs[s.active[i]], |s.delivered|;
    assert r.delivered[n].req == j.req;
    forall h | h in r.cache.entries && r.cache.entries[h].entry.retained
      ensures LeftBy(env, r.delivered, h)
    {
      if h in s.cache.entries && s.cache.entries[h].entry.retained {
        assert LeftBy(env, s.delivered, h);
        LeftByMore(env, s.delivered, r.delivered, h);
      } else {
        assert StoresUnder(env, r.delivered[n].req, h);
      }
    }
    forall k, m | k in r.jobs && 0 <= m < |r.delivered|
      ensures !ShareKey(env, r.jobs[k].req, r.delivered[m].req)
    {
      if m < n {
        assert r.delivered[m] == s.delivered[m];
      } else {
        assert !ShareKey(env, s.jobs[k].req, j.req);
      }
    }
  }

  lemma {:induction false} SweepNeat(env: Env, s: Sys, i: nat, copyFails: set<nat>)
    requires Neat(env, s)
    ensures Neat(env, Sweep(env, s, i, copyFails))
    decreases |s.active| - i
  {
    if i < |s.active| {
      if s.active[i] in s.jobs && Finished(s.jobs[s.active[i]]) {
        RetireAtNeat(env, s, i, copyFails);
        SweepNeat(env, RetireAt(env, s, i, copyFails), i, copyFails);
      } else {
        SweepNeat(env, s, i + 1, copyFails);
      }
    }
  }

  lemma {:induction false} ReclaimForNeat(env: Env, s: Sys, sid: SeqId, needed: nat)
    requires Neat(env, s) && sid in s.jobs
    ensures Neat(env, ReclaimFor(env, s, sid, needed))
    decreases |s.cache.entries|
  {
    var (grown, ok) := GrowTable(env, s, sid, needed);
    NeatSub(env, s, grown);
    if !ok && HasRetained(s.cache) {
      NeatSub(env, grown, ReclaimDonor(grown));
      ReclaimForNeat(env, ReclaimDonor(grown), sid, needed);
    }
  }

  lemma PreemptAtNeat(env: Env, s: Sys, i: nat)
    requires Neat(env, s) && i < |s.active| && s.active[i] in s.jobs
    ensures Neat(env, PreemptAt(s, i))
  {
    NeatSub(env, s, PreemptAt(s, i));
  }

  lemma {:induction false} PreemptForNeat(env: Env, s: Sys, sid: SeqId, needed: nat)
    requires Neat(env, s) && sid in s.jobs
    ensures Neat(env, PreemptFor(env, s, sid, needed))
    decreases |s.active|
  {
    var (grown, ok) := GrowTable(env, s, sid, needed);
    NeatSub(env, s, grown);
    if !ok {
      var v := Victim(grown.active, grown.jobs, sid, |grown.active|);
      if v.Some? {
        PreemptAtNeat(env, grown, v.value);
        PreemptForNeat(env, PreemptAt(grown, v.value), sid, needed);
      }
    }
  }

  lemma {:induction false} ResolveAllNeat(env: Env, s: Sys, starved: seq<SeqId>)
    requires Neat(env, s)
    ensures Neat(env, ResolveAll(env, s, starved))
    decreases |starved|
  {
    if starved != [] {
      ResolveOneNeat(env, s, starved[0]);
      ResolveAllNeat(env, ResolveOne(env, s, starved[0]), starved[1..]);
    }
  }

  lemma ResolveOneNeat(env: Env, s: Sys, sid: SeqId)
    requires Neat(env, s)
    ensures Neat(env, ResolveOne(env, s, sid))
  {
    if sid in s.active && sid in s.jobs {
      var j := s.jobs[sid];
      if BlocksFor(env.cfg.blockSize, Tokens(j)) <= |s.pool.refs| {
        ReclaimForNeat(env, s, sid, Tokens(j));
        PreemptForNeat(env, ReclaimFor(env, s, sid, Tokens(j)), sid, Tokens(j));
      } else {
        NeatSub(env, s, ResolveOne(env, s, sid));
      }
    }
  }

  /* ---------------- runs ---------------- */

  lemma WorkTidy(env: Env, s: Sys, o: Oracle)
    requires Sound(env, s, {}) && Balanced(s) && Tidy(env, s) && DistinctPrefixes(env, s.accepted)
    ensures Tidy(env, Work(env, s, o))
  {
    assert Wf(env, s, {});
    AdmitLoopTidy(env, s);
    AdmitLoopWf(env, s);
    AdmitLoopBooks(env, s);
    var s1 := AdmitLoop(env, s);
    if s1.active != [] {
      InHandAreStrangers(env, s1);
      AdvanceNeat(env, s1, o);
      var (s2, starved) := Advance(env, s1, o);
      SweepNeat(env, s2, 0, o.copyFails);
      var s3 := Sweep(env, s2, 0, o.copyFails);
      ResolveAllNeat(env, s3, starved);
      SweepNeat(env, ResolveAll(env, s3, starved), 0, o.copyFails);
    }
  }

  lemma FewerDistinct(env: Env, small: seq<Request>, big: seq<Request>)
    requires small <= big && DistinctPrefixes(env, big)
    ensures DistinctPrefixes(env, small)
  {
    forall i, j | 0 <= i < j < |small|
      ensures !ShareKey(env, small[i], small[j])
    {
      assert small[i] == big[i] && small[j] == big[j];
    }
  }

  lemma {:induction false} EveryRunIsTidy(env: Env, run: seq<Sys>, events: seq<Event>)
    requires IsRun(env, run, events) && DistinctPrefixes(env, Last(run).accepted)
    ensures Tidy(env, Last(run))
    decreases |events|
  {
    if events != [] {
      RunPrefix(env, run, events);
      var before, ev := Last(DropLast(run)), Last(events);
      EveryRunIsWellFormed(env, DropLast(run), DropLast(events));
      AcceptedGrows(env, before, ev);
      FewerDistinct(env, before.accepted, Last(run).accepted);
      EveryRunIsTidy(env, DropLast(run), DropLast(events));
      if ev.Step? {
        WorkTidy(env, before, ev.oracle);
        TidySub(env, Work(env, before, ev.oracle), Last(run));
      } else {
        TidySub(env, before, Last(run));
      }
    }
  }

  /** The caller's side of it: there are no donor slots, or no two requests share a key. */
  ghost predicate NothingToOverwrite(env: Env, accepted: seq<Request>) {
    env.cfg.donors == 0 || DistinctPrefixes(env, accepted)
  }

  /** NO OVERWRITE, NO ORPHAN. In every run of such requests no donor is ever orphaned. */
  lemma NothingIsOrphaned(env: Env, run: seq<Sys>, events: seq<Event>)
    requires IsRun(env, run, events) && NothingToOverwrite(env, Last(run).accepted)
    ensures Last(run).orphans == {}
  {
    if env.cfg.donors == 0 {
      assert Reachable(env, Last(run));
      DonorSlotsArePartitioned(env, Last(run));
      assert forall k :: k in Last(run).orphans ==> k < env.cfg.maxBatch + env.cfg.donors;
    } else {
      EveryRunIsTidy(env, run, events);
    }
  }

  /** So for them idling gives the whole pool back, once the donors are given up. */
  lemma IdleRestoresTheirPool(env: Env, run: seq<Sys>, events: seq<Event>)
    requires IsRun(env, run, events) && NothingToOverwrite(env, Last(run).accepted) && Last(run).active == []
    ensures |ReclaimUntil(Last(run), env.cfg.totalBlocks + 1).pool.freeList| == env.cfg.totalBlocks
  {
    NothingIsOrphaned(env, run, events);
    assert Reachable(env, Last(run));
    IdleRestoresThePool(env, Last(run));
  }

  /** And whoever fits, is not cancelled and is not hit by a throwing pass has the reference
      answer. */
  lemma WhoFitsAmongThemIsAnswered(env: Env, run: seq<Sys>, events: seq<Event>, d: Delivery)
    requires IsRun(env, run, events) && FaultsAreContained(env, run, events) && NothingToOverwrite(env, Last(run).accepted)
    requires CollisionFree(env, Last(run).accepted) && PromptOf(env, d.req) != []
    requires d in Last(run).delivered && Fits(env, d.req) && d.req.id !in GoneIn(events)
    ensures d.result == ReferenceResult(env.be, d.req.spec) || (d.result.reason == Error && ThrewIn(events))
  {
    NothingIsOrphaned(env, run, events);
    WhoFitsIsAnsweredInFull(env, run, events, d);
  }
}
