/** Between iterations every running sequence has the blocks its tokens need
    (src/core/scheduler.cpp:401-451, 540-547, 591-644): admission reserves them, an accept takes
    the next one, and whoever went short is given room before the iteration ends. So the
    headroom that admission asks for does what it is for, in every run. */
module Coverage {
  import opened Types
  import opened Sequence
  import opened BlockPool
  import opened Cache
  import opened Engine
  import opened Scheduling
  import opened Invariants
  import opened Books
  import opened Donors
  import opened Limits
  import opened Independence
  import opened Runs
  import opened Capacity
  import opened Causes

  predicate CoveredJob(env: Env, j: Job) {
    Finished(j) || BlocksFor(env.cfg.blockSize, Tokens(j)) <= |j.table.blocks|
  }

  /** Everyone but those who went short is covered. */
  ghost predicate CoveredBut(env: Env, jobs: map<SeqId, Job>, short: seq<SeqId>) {
    forall k :: k in jobs && k !in short ==> CoveredJob(env, jobs[k])
  }

  ghost predicate AllRunning(jobs: map<SeqId, Job>) {
    forall k :: k in jobs ==> !Finished(jobs[k])
  }

  /** Every request can come to need no more than the pool. */
  ghost predicate FitThePool(env: Env, reqs: seq<Request>) {
    forall r :: r in reqs ==> MostBlocks(env, r) <= env.cfg.totalBlocks
  }

  /** And so can every running sequence. */
  ghost predicate JobsFit(env: Env, jobs: map<SeqId, Job>) {
    forall k :: k in jobs ==> BlocksFor(env.cfg.blockSize, Tokens(jobs[k])) <= env.cfg.totalBlocks
  }

  lemma RequestsFit(env: Env, s: Sys)
    requires Wf(env, s, {}) && Balanced(s) && FitThePool(env, s.accepted)
    ensures JobsFit(env, s.jobs)
  {
    AcceptedKnown(env, s, {});
    forall k | k in s.jobs
      ensures BlocksFor(env.cfg.blockSize, Tokens(s.jobs[k])) <= env.cfg.totalBlocks
    {
      var j := s.jobs[k];
      assert JobOk(env, k, j);
      BlocksForMonotone(env.cfg.blockSize, Tokens(j), |j.st.prompt| + j.st.spec.maxTokens);
    }
  }

  /* ---------------- admission ---------------- */

  lemma AdmitCovered(env: Env, s: Sys)
    requires s.pending != [] && s.freeSlots != [] && Wf(env, s, {Last(s.freeSlots)}) && Admit(env, s).Some?
    requires CoveredBut(env, s.jobs, [])
    ensures CoveredBut(env, Admit(env, s).value.jobs, [])
  {
    AdmitEffect(env, s);
    var slot, r := Last(s.freeSlots), Admit(env, s).value;
    assert CoveredJob(env, r.jobs[slot]);
    JoinedCovered(env, s.jobs, r.jobs, slot);
  }

  lemma JoinedCovered(env: Env, jobs: map<SeqId, Job>, jobs': map<SeqId, Job>, slot: SeqId)
    requires CoveredBut(env, jobs, []) && slot in jobs' && jobs' == jobs[slot := jobs'[slot]] && CoveredJob(env, jobs'[slot])
    ensures CoveredBut(env, jobs', [])
  {
  }

  lemma AdmitFrontCovered(env: Env, s: Sys)
    requires Sound(env, s, {}) && s.pending != [] && s.freeSlots != [] && CoveredBut(env, s.jobs, [])
    ensures CoveredBut(env, AdmitFront(env, s).0.jobs, [])
  {
    MakeRoomSound(env, s);
    DecideCovered(env, s, MakeRoom(env, s));
  }

  lemma DecideCovered(env: Env, s: Sys, s1: Sys)
    requires s.pending != [] && s.freeSlots != [] && s1 == MakeRoom(env, s) && Sound(env, s1, {Last(s.freeSlots)})
    requires CoveredBut(env, s.jobs, [])
    ensures CoveredBut(env, AdmitFront(env, s).0.jobs, [])
  {
    if Admit(env, s1).Some? {
      assert Wf(env, s1, {Last(s.freeSlots)});
      AdmitCovered(env, s1);
    }
  }

  lemma {:induction false} AdmitLoopCovered(env: Env, s: Sys)
    requires Sound(env, s, {}) && CoveredBut(env, s.jobs, [])
    ensures CoveredBut(env, AdmitLoop(env, s).jobs, [])
    decreases |s.pending|
  {
    if s.pending != [] && s.freeSlots != [] {
      assert Wf(env, s, {});
      AdmitFrontWf(env, s);
      AdmitFrontCovered(env, s);
      if !AdmitFront(env, s).1.Deferred? {
        AdmitLoopCovered(env, AdmitFront(env, s).0);
      }
    }
  }

  /* ---------------- a pass ---------------- */

  lemma GrownCovers(env: Env, p: Pool, j: Job)
    ensures var (_, t, ok) := EnsureCapacity(env.cfg.blockSize, p, j.table, Tokens(j));
      ok ==> CoveredJob(env, j.(table := t))
  {
    var needed := BlocksFor(env.cfg.blockSize, Tokens(j));
    if |j.table.blocks| < needed <= |j.table.blocks| + |p.freeList| {
      AllocNLength(p, needed - |j.table.blocks|);
    }
  }

  /** Whoever accepts a token is covered, finished or went short. */
  lemma AcceptOneCovered(env: Env, s: Sys, sid: SeqId, next: NextToken, cancelled: bool, short: seq<SeqId>)
    requires CoveredBut(env, s.jobs, short) && sid in s.jobs
    ensures var (r, more) := AcceptOne(env, s, sid, next, cancelled);
      CoveredBut(env, r.jobs, if more then short + [sid] else short)
  {
    var j := s.jobs[sid];
    var g := Accept(env.be.piece, j.st.spec, j.st.gen, next, cancelled);
    AcceptCounts(env.be.piece, j.st.spec, j.st.gen, next, cancelled);
    GrownCovers(env, s.pool, SetGen(j, g));
    var (r, more) := AcceptOne(env, s, sid, next, cancelled);
    forall k | k in r.jobs && k !in (if more then short + [sid] else short)
      ensures CoveredJob(env, r.jobs[k])
    {
      assert k != sid ==> r.jobs[k] == s.jobs[k];
    }
  }

  lemma {:induction false} AcceptLoopCovered(env: Env, s: Sys, sampling: seq<SeqId>, steps: seq<GenStep>, cancelled: set<nat>, short: seq<SeqId>)
    requires CoveredBut(env, s.jobs, short)
    requires |steps| == |sampling| && forall i :: 0 <= i < |sampling| ==> sampling[i] in s.jobs
    ensures var (r, starved) := AcceptLoop(env, s, sampling, steps, cancelled); CoveredBut(env, r.jobs, short + starved)
    decreases |sampling|
  {
    if sampling == [] {
      assert short + [] == short;
    } else {
      var sid := sampling[0];
      var hit := s.jobs[sid].req.id in cancelled;
      AcceptOneCovered(env, s, sid, steps[0].next, hit, short);
      var (s1, more) := AcceptOne(env, s, sid, steps[0].next, hit);
      var one := if more then [sid] else [];
      assert short + [] == short;
      AcceptLoopCovered(env, s1, sampling[1..], steps[1..], cancelled, short + one);
      Rebracketed(short, one, AcceptLoop(env, s1, sampling[1..], steps[1..], cancelled).1);
    }
  }

  lemma ForwardCovered(env: Env, s: Sys, items: seq<BatchItem>, cancelled: set<nat>)
    requires CoveredBut(env, s.jobs, [])
    ensures var (r, starved) := Forward(env, s, items, cancelled); CoveredBut(env, r.jobs, starved)
  {
    var (kv, steps) := Decode(env.be, s.kv, items);
    var sampling := SampledSids(items);
    if |steps| == |sampling| && forall i :: 0 <= i < |sampling| ==> sampling[i] in s.jobs {
      AcceptLoopCovered(env, s.(kv := kv), sampling, steps, cancelled, []);
      var starved := AcceptLoop(env, s.(kv := kv), sampling, steps, cancelled).1;
      assert [] + starved == starved;
    }
  }

  lemma AdvanceCovered(env: Env, s: Sys, o: Oracle)
    requires Wf(env, s, {}) && CoveredBut(env, s.jobs, [])
    ensures var (r, starved) := Advance(env, s, o); CoveredBut(env, r.jobs, starved)
  {
    BuildOnlyPrefills(env, s);
    var (items, jobs) := Build(env, s);
    BuiltCovered(env, s.jobs, jobs);
    if items != [] {
      if o.fault.Some? {
        FailedCovered(env, jobs);
      } else {
        ForwardCovered(env, s.(jobs := jobs), items, o.cancelled);
      }
    }
  }

  lemma BuiltCovered(env: Env, jobs: map<SeqId, Job>, jobs': map<SeqId, Job>)
    requires OnlyPrefills(jobs, jobs') && CoveredBut(env, jobs, [])
    ensures CoveredBut(env, jobs', [])
  {
    forall k | k in jobs'
      ensures CoveredJob(env, jobs'[k])
    {
      assert CoveredJob(env, jobs[k]);
    }
  }

  lemma FailedCovered(env: Env, jobs: map<SeqId, Job>)
    ensures CoveredBut(env, FailAll(jobs), [])
  {
  }

  /* ---------------- a sweep ---------------- */

  lemma {:induction false} SweepCovered(env: Env, s: Sys, i: nat, copyFails: set<nat>, short: seq<SeqId>)
    requires CoveredBut(env, s.jobs, short)
    ensures CoveredBut(env, Sweep(env, s, i, copyFails).jobs, short)
    decreases |s.active| - i
  {
    if i < |s.active| {
      if s.active[i] in s.jobs && Finished(s.jobs[s.active[i]]) {
        assert RetireAt(env, s, i, copyFails).jobs == s.jobs - {s.active[i]};
        SweepCovered(env, RetireAt(env, s, i, copyFails), i, copyFails, short);
      } else {
        SweepCovered(env, s, i + 1, copyFails, short);
      }
    }
  }

  /** A sweep leaves nobody finished behind. */
  lemma {:induction false} SweepClears(env: Env, s: Sys, i: nat, copyFails: set<nat>)
    requires Sound(env, s, {}) && forall n :: 0 <= n < i && n < |s.active| ==> s.active[n] in s.jobs && !Finished(s.jobs[s.active[n]])
    ensures AllRunning(Sweep(env, s, i, copyFails).jobs)
    decreases |s.active| - i
  {
    if i < |s.active| {
      RetireSound(env, s, i, copyFails);
      if Finished(s.jobs[s.active[i]]) {
        var r := RetireAt(env, s, i, copyFails);
        RetiredBehind(env, s, i, r);
        SweepClears(env, r, i, copyFails);
      } else {
        SweepClears(env, s, i + 1, copyFails);
      }
    } else {
      assert Wf(env, s, {});
      forall k | k in s.jobs
        ensures !Finished(s.jobs[k])
      {
        var n :| 0 <= n < |s.active| && s.active[n] == k;
      }
    }
  }

  lemma RetiredBehind(env: Env, s: Sys, i: nat, r: Sys)
    requires Sound(env, s, {}) && i < |s.active| && r.active == RemoveAt(s.active, i) && r.jobs == s.jobs - {s.active[i]}
    ensures forall n :: 0 <= n < i ==> n < |r.active| && r.active[n] == s.active[n] && (s.active[n] in s.jobs ==> s.active[n] in r.jobs)
  {
    assert Wf(env, s, {});
  }

  /* ---------------- making room ---------------- */

  /** Nobody else's table changes, and nothing is orphaned. */
  ghost predicate OthersSame(s: Sys, r: Sys, sid: SeqId) {
    r.orphans == s.orphans && forall k :: k in r.jobs && k != sid ==> k in s.jobs && r.jobs[k] == s.jobs[k]
  }

  lemma {:induction false} ReclaimForOthers(env: Env, s: Sys, sid: SeqId, needed: nat)
    requires sid in s.jobs
    ensures OthersSame(s, ReclaimFor(env, s, sid, needed), sid)
    decreases |s.cache.entries|
  {
    var (grown, ok) := GrowTable(env, s, sid, needed);
    if !ok && HasRetained(s.cache) {
      ReclaimForOthers(env, ReclaimDonor(grown), sid, needed);
    }
  }

  lemma {:induction false} PreemptForOthers(env: Env, s: Sys, sid: SeqId, needed: nat)
    requires sid in s.jobs
    ensures OthersSame(s, PreemptFor(env, s, sid, needed), sid)
    decreases |s.active|
  {
    var (grown, ok) := GrowTable(env, s, sid, needed);
    if !ok {
      var v := Victim(grown.active, grown.jobs, sid, |grown.active|);
      if v.Some? {
        var m := PreemptAt(grown, v.value);
        PreemptForOthers(env, m, sid, needed);
        OthersStill(s, grown, m, PreemptFor(env, m, sid, needed), sid, v.value);
      }
    }
  }

  lemma OthersStill(s: Sys, grown: Sys, m: Sys, r: Sys, sid: SeqId, i: nat)
    requires OthersSame(s, grown, sid) && i < |grown.active| && grown.active[i] in grown.jobs
    requires m.jobs == grown.jobs - {grown.active[i]} && m.orphans == grown.orphans && OthersSame(m, r, sid)
    ensures OthersSame(s, r, sid)
  {
  }

  /** The state while starved sequences are served: nobody finished, everybody fits. */
  ghost predicate Serving(env: Env, s: Sys, short: seq<SeqId>) {
    s.orphans == {} && AllRunning(s.jobs) && JobsFit(env, s.jobs) && CoveredBut(env, s.jobs, short)
  }

  lemma ResolveOneCovers(env: Env, s: Sys, short: seq<SeqId>)
    requires Kept(env, s) && short != [] && Serving(env, s, short)
    ensures Serving(env, ResolveOne(env, s, short[0]), short[1..])
  {
    var sid := short[0];
    assert Wf(env, s, {});
    assert short == [sid] + short[1..];
    if sid in s.active {
      var needed := Tokens(s.jobs[sid]);
      var r := ResolveOne(env, s, sid);
      StarvedGetsItsBlocks(env, s, sid);
      ExhaustionIsResolved(env, s, sid);
      var s1 := ReclaimFor(env, s, sid, needed);
      ReclaimForOthers(env, s, sid, needed);
      PreemptForOthers(env, s1, sid, needed);
      assert OthersSame(s, r, sid);
      ServedCovers(env, s, r, sid, short);
    }
  }

  lemma ServedCovers(env: Env, s: Sys, r: Sys, sid: SeqId, short: seq<SeqId>)
    requires short != [] && sid == short[0] && sid in s.jobs && Serving(env, s, short) && OthersSame(s, r, sid)
    requires sid in r.jobs && r.jobs[sid].st == s.jobs[sid].st && HasCapacity(env, r, sid, Tokens(s.jobs[sid]))
    ensures Serving(env, r, short[1..])
  {
    forall k | k in r.jobs
      ensures !Finished(r.jobs[k]) && BlocksFor(env.cfg.blockSize, Tokens(r.jobs[k])) <= env.cfg.totalBlocks
      ensures k !in short[1..] ==> CoveredJob(env, r.jobs[k])
    {
      if k != sid {
        assert k in short ==> k in short[1..];
      }
    }
  }

  lemma {:induction false} ResolveAllCovers(env: Env, s: Sys, starved: seq<SeqId>)
    requires Kept(env, s) && Serving(env, s, starved)
    ensures Serving(env, ResolveAll(env, s, starved), [])
    decreases |starved|
  {
    if starved != [] {
      ResolveOneCovers(env, s, starved);
      ResolveOneKept(env, s, starved[0]);
      ResolveAllCovers(env, ResolveOne(env, s, starved[0]), starved[1..]);
    }
  }

  /* ---------------- iterations and runs ---------------- */

  /** Nobody is finished, and everybody has the blocks its tokens need. */
  ghost predicate Settled(env: Env, jobs: map<SeqId, Job>) {
    AllRunning(jobs) && CoveredBut(env, jobs, [])
  }

  lemma WorkSettles(env: Env, s: Sys, o: Oracle)
    requires Kept(env, s) && Balanced(s) && FitThePool(env, s.accepted) && Settled(env, s.jobs)
    requires Work(env, s, o).orphans == {}
    ensures Settled(env, Work(env, s, o).jobs)
  {
    assert Wf(env, s, {});
    AdmitLoopCovered(env, s);
    AdmitLoopKept(env, s);
    AdmitLoopBooks(env, s);
    var s1 := AdmitLoop(env, s);
    if s1.active == [] {
      assert Wf(env, s1, {});
    } else {
      AdvanceSettles(env, s1, o);
    }
  }

  lemma AdvanceSettles(env: Env, s: Sys, o: Oracle)
    requires Kept(env, s) && Balanced(s) && FitThePool(env, s.accepted) && CoveredBut(env, s.jobs, [])
    requires var (s2, starved) := Advance(env, s, o);
      Sweep(env, ResolveAll(env, Sweep(env, s2, 0, o.copyFails), starved), 0, o.copyFails).orphans == {}
    ensures var (s2, starved) := Advance(env, s, o);
      Settled(env, Sweep(env, ResolveAll(env, Sweep(env, s2, 0, o.copyFails), starved), 0, o.copyFails).jobs)
  {
    assert Wf(env, s, {});
    AdvanceCovered(env, s, o);
    AdvanceKept(env, s, o);
    AdvanceBooks(env, s, o);
    var (s2, starved) := Advance(env, s, o);
    assert Wf(env, s2, {});
    SweepCovered(env, s2, 0, o.copyFails, starved);
    SweepKept(env, s2, 0, o.copyFails);
    SweepClears(env, s2, 0, o.copyFails);
    SweepBooks(env, s2, 0, o.copyFails);
    ExhaustionSettles(env, Sweep(env, s2, 0, o.copyFails), starved, o.copyFails);
  }

  lemma ExhaustionSettles(env: Env, s: Sys, starved: seq<SeqId>, copyFails: set<nat>)
    requires Kept(env, s) && Balanced(s) && FitThePool(env, s.accepted) && AllRunning(s.jobs) && CoveredBut(env, s.jobs, starved)
    requires Sweep(env, ResolveAll(env, s, starved), 0, copyFails).orphans == {}
    ensures Settled(env, Sweep(env, ResolveAll(env, s, starved), 0, copyFails).jobs)
  {
    assert Wf(env, s, {});
    RequestsFit(env, s);
    ResolveAllKept(env, s, starved);
    var s4 := ResolveAll(env, s, starved);
    SweepKept(env, s4, 0, copyFails);
    assert s.orphans <= s4.orphans <= Sweep(env, s4, 0, copyFails).orphans;
    ResolveAllCovers(env, s, starved);
    assert Wf(env, s4, {});
    SweepCovered(env, s4, 0, copyFails, []);
    SweepClears(env, s4, 0, copyFails);
  }

  lemma FitsBefore(env: Env, small: seq<Request>, big: seq<Request>)
    requires small <= big && FitThePool(env, big)
    ensures FitThePool(env, small)
  {
    forall r | r in small
      ensures MostBlocks(env, r) <= env.cfg.totalBlocks
    {
      assert r in big;
    }
  }

  /** EVERYBODY IS COVERED. At the end of every run in which nothing was orphaned and all requests
      fit the pool, nobody active is finished and every page table covers its tokens, however
      short blocks were in between. */
  lemma {:induction false} EverybodyIsCovered(env: Env, run: seq<Sys>, events: seq<Event>)
    requires IsRun(env, run, events) && Last(run).orphans == {} && FitThePool(env, Last(run).accepted)
    ensures Settled(env, Last(run).jobs)
    decreases |events|
  {
    if events != [] {
      RunPrefix(env, run, events);
      FittingBefore(env, run, events);
      EverybodyIsCovered(env, DropLast(run), DropLast(events));
      NextSettles(env, Last(DropLast(run)), Last(events), Last(run));
    }
  }

  /** What the run's end promises holds one step earlier too. */
  lemma FittingBefore(env: Env, run: seq<Sys>, events: seq<Event>)
    requires IsRun(env, run, events) && events != [] && Last(run).orphans == {} && FitThePool(env, Last(run).accepted)
    ensures var s := Last(DropLast(run)); Kept(env, s) && Balanced(s) && s.orphans == {} && FitThePool(env, s.accepted)
  {
    RunPrefix(env, run, events);
    var before, ev := Last(DropLast(run)), Last(events);
    OrphansOnlyGrow(env, run, events, |run| - 2);
    EveryRunKeepsAccounts(env, DropLast(run), DropLast(events));
    EveryRunIsWellFormed(env, DropLast(run), DropLast(events));
    AcceptedGrows(env, before, ev);
    FitsBefore(env, before.accepted, Last(run).accepted);
  }

  lemma NextSettles(env: Env, s: Sys, ev: Event, r: Sys)
    requires Kept(env, s) && Balanced(s) && FitThePool(env, s.accepted) && Settled(env, s.jobs) && r == Next(env, s, ev) && r.orphans == {}
    ensures Settled(env, r.jobs)
  {
    if ev.Step? {
      WorkSettles(env, s, ev.oracle);
    }
  }

  /** HEADROOM, IN EVERY RUN. In such a run, an iteration that admits an unfinished newcomer beside
      running sequences starves nobody: nothing is preempted on its account in that iteration. */
  lemma HeadroomInEveryRun(env: Env, run: seq<Sys>, events: seq<Event>, o: Oracle)
    requires IsRun(env, run, events) && Last(run).orphans == {} && FitThePool(env, Last(run).accepted)
    requires Last(run).active != []
    requires exists k :: k in AdmitLoop(env, Last(run)).jobs && k !in Last(run).jobs && !Finished(AdmitLoop(env, Last(run)).jobs[k])
    ensures Advance(env, AdmitLoop(env, Last(run)), o).1 == []
  {
    EverybodyIsCovered(env, run, events);
    EveryRunIsWellFormed(env, run, events);
    assert Covered(env, Last(run).jobs) by {
      assert forall k :: k in Last(run).jobs ==> CoveredJob(env, Last(run).jobs[k]);
    }
    HeadroomHolds(env, Last(run), o);
  }
}
