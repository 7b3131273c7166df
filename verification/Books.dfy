/** No request is lost or answered twice: every accepted request is in exactly one of queue,
    pending, active and delivered, on every run (src/core/scheduler.cpp:25-54, 306-356,
    381-398, 429-450, 570-589, 636-644). */
module Books {
  import opened Types
  import opened BlockPool
  import opened Cache
  import opened Engine
  import opened Scheduling
  import opened Batch
  import opened Invariants

  function RequestOf(jobs: map<SeqId, Job>, k: SeqId): Request {
    if k in jobs then jobs[k].req else Request(0, Spec("", [], 0, DEFAULT_SAMPLING))
  }

  function RequestList(active: seq<SeqId>, jobs: map<SeqId, Job>): seq<Request> {
    seq(|active|, i requires 0 <= i < |active| => RequestOf(jobs, active[i]))
  }

  ghost function ActiveReqs(active: seq<SeqId>, jobs: map<SeqId, Job>): multiset<Request> {
    multiset(RequestList(active, jobs))
  }

  ghost function DeliveredReqs(delivered: seq<Delivery>): multiset<Request> {
    if delivered == [] then multiset{} else DeliveredReqs(DropLast(delivered)) + multiset{Last(delivered).req}
  }

  /** Everything the server still owes an answer for, and everything it has answered. */
  ghost function Ledger(s: Sys): multiset<Request> {
    multiset(s.queue) + multiset(s.pending) + ActiveReqs(s.active, s.jobs) + DeliveredReqs(s.delivered)
  }

  /** The scheduler moved requests around without losing, duplicating or taking any. */
  ghost predicate SameBooks(s: Sys, r: Sys) {
    && Ledger(r) == Ledger(s)
    && r.queue == s.queue && r.accepted == s.accepted && r.closed == s.closed
    && |r.pending| + |r.active| <= |s.pending| + |s.active|
  }

  lemma ActiveReqsSame(active: seq<SeqId>, jobs: map<SeqId, Job>, jobs': map<SeqId, Job>)
    requires forall k :: k in active ==> RequestOf(jobs', k) == RequestOf(jobs, k)
    ensures ActiveReqs(active, jobs') == ActiveReqs(active, jobs)
  {
    assert RequestList(active, jobs') == RequestList(active, jobs);
  }

  lemma ActiveReqsPush(active: seq<SeqId>, jobs: map<SeqId, Job>, slot: SeqId, job: Job)
    requires slot !in active
    ensures ActiveReqs(active + [slot], jobs[slot := job]) == ActiveReqs(active, jobs) + multiset{job.req}
  {
    assert RequestList(active + [slot], jobs[slot := job]) == RequestList(active, jobs) + [job.req];
  }

  lemma MultisetRemove(s: seq<Request>, i: nat)
    requires i < |s|
    ensures multiset(RemoveAt(s, i)) + multiset{s[i]} == multiset(s)
  {
    assert s == s[..i] + [s[i]] + s[i + 1..];
  }

  lemma ActiveReqsRemove(active: seq<SeqId>, jobs: map<SeqId, Job>, i: nat)
    requires NoDup(active) && i < |active| && active[i] in jobs
    ensures ActiveReqs(RemoveAt(active, i), jobs - {active[i]}) + multiset{jobs[active[i]].req} == ActiveReqs(active, jobs)
  {
    var all := RequestList(active, jobs);
    assert RequestList(RemoveAt(active, i), jobs - {active[i]}) == RemoveAt(all, i);
    MultisetRemove(all, i);
  }

  lemma DeliveredPush(delivered: seq<Delivery>, d: Delivery)
    ensures DeliveredReqs(delivered + [d]) == DeliveredReqs(delivered) + multiset{d.req}
  {
    assert DropLast(delivered + [d]) == delivered;
  }

  lemma HeadTail(s: seq<Request>)
    requires s != []
    ensures multiset(s) == multiset{s[0]} + multiset(s[1..])
  {
    assert s == [s[0]] + s[1..];
  }

  /** Steps that only rewrite jobs, keeping their requests, and shared state. */
  lemma SameBooksFrame(s: Sys, r: Sys)
    requires r.queue == s.queue && r.accepted == s.accepted && r.closed == s.closed && r.pending == s.pending
    requires r.active == s.active && r.delivered == s.delivered && r.jobs.Keys == s.jobs.Keys
    requires forall k :: k in s.jobs ==> r.jobs[k].req == s.jobs[k].req
    ensures SameBooks(s, r)
  {
    ActiveReqsSame(s.active, s.jobs, r.jobs);
  }

  /* ---------------- admission ---------------- */

  lemma EnrollBooks(s: Sys, job: Job)
    requires s.pending != [] && s.freeSlots != [] && Last(s.freeSlots) !in s.active && job.req == s.pending[0]
    ensures SameBooks(s, Enroll(s, job))
  {
    ActiveReqsPush(s.active, s.jobs, Last(s.freeSlots), job);
    HeadTail(s.pending);
  }

  lemma AdmitBooks(env: Env, s: Sys)
    requires s.pending != [] && s.freeSlots != [] && Last(s.freeSlots) !in s.active && Admit(env, s).Some?
    ensures SameBooks(s, Admit(env, s).value)
  {
    var job := FrontJob(env, s);
    if Finished(job) {
      EnrollBooks(s, job);
    } else {
      var (q, t, _) := EnsureCapacity(env.cfg.blockSize, s.pool, job.table, |job.st.prompt|);
      var (s2, j2) := SharePrefix(env, s.(pool := q), job.(table := t));
      EnrollBooks(s2, j2);
    }
  }

  lemma RejectBooks(env: Env, s: Sys)
    requires s.pending != [] && s.freeSlots != []
    ensures SameBooks(s, Reject(env, s))
  {
    HeadTail(s.pending);
    var r := Reject(env, s);
    DeliveredPush(s.delivered, Last(r.delivered));
    Rebracket(multiset(s.queue), multiset(s.pending[1..]), ActiveReqs(s.active, s.jobs), DeliveredReqs(s.delivered), s.pending[0]);
  }

  /** Moving one request between the parts of the ledger. */
  lemma Rebracket(q: multiset<Request>, p: multiset<Request>, a: multiset<Request>, d: multiset<Request>, x: Request)
    ensures q + p + a + (d + multiset{x}) == q + (multiset{x} + p) + a + d
    ensures (multiset{x} + q) + p + a + d == q + (p + multiset{x}) + a + d
  {
  }

  lemma AdmitFrontBooks(env: Env, s: Sys)
    requires Wf(env, s, {}) && s.pending != [] && s.freeSlots != []
    ensures SameBooks(s, AdmitFront(env, s).0)
  {
    var s1 := MakeRoom(env, s);
    assert SameBooks(s, s1);
    assert Last(s.freeSlots) in s.freeSlots;
    if Admit(env, s1).Some? {
      AdmitBooks(env, s1);
    } else if s1.active == [] {
      RejectBooks(env, s1);
    }
  }

  lemma {:induction false} AdmitLoopBooks(env: Env, s: Sys)
    requires Wf(env, s, {})
    ensures SameBooks(s, AdmitLoop(env, s))
    decreases |s.pending|
  {
    if s.pending != [] && s.freeSlots != [] {
      AdmitFrontWf(env, s);
      AdmitFrontBooks(env, s);
      if !AdmitFront(env, s).1.Deferred? {
        AdmitLoopBooks(env, AdmitFront(env, s).0);
      }
    }
  }

  /* ---------------- a forward pass ---------------- */

  lemma AcceptOneBooks(env: Env, s: Sys, sid: SeqId, next: NextToken, cancelled: bool)
    requires sid in s.jobs
    ensures SameBooks(s, AcceptOne(env, s, sid, next, cancelled).0)
  {
    SameBooksFrame(s, AcceptOne(env, s, sid, next, cancelled).0);
  }

  lemma {:induction false} AcceptLoopBooks(env: Env, s: Sys, sampling: seq<SeqId>, steps: seq<GenStep>, cancelled: set<nat>)
    requires |steps| == |sampling| && forall i :: 0 <= i < |sampling| ==> sampling[i] in s.jobs
    ensures SameBooks(s, AcceptLoop(env, s, sampling, steps, cancelled).0)
    decreases |sampling|
  {
    if sampling != [] {
      var gone := s.jobs[sampling[0]].req.id in cancelled;
      AcceptOneBooks(env, s, sampling[0], steps[0].next, gone);
      AcceptLoopBooks(env, AcceptOne(env, s, sampling[0], steps[0].next, gone).0, sampling[1..], steps[1..], cancelled);
    }
  }

  lemma BuildBooks(env: Env, s: Sys)
    requires Wf(env, s, {})
    ensures SameBooks(s, s.(jobs := Build(env, s).1))
  {
    WfAddressed(env, s, {});
    BatchFits(env, s);
    var (items, jobs) := Build(env, s);
    forall k | k in s.jobs
      ensures jobs[k].req == s.jobs[k].req
    {
      if !NoItemFor(items, k) {
        var i :| 0 <= i < |items| && items[i].sid == k;
        assert ItemFits(s.jobs, jobs, items[i]);
      }
    }
    SameBooksFrame(s, s.(jobs := jobs));
  }

  lemma ForwardBooks(env: Env, s: Sys, items: seq<BatchItem>, cancelled: set<nat>)
    ensures SameBooks(s, Forward(env, s, items, cancelled).0)
  {
    DecodeSteps(env.be, s.kv, items);
    var (kv, steps) := Decode(env.be, s.kv, items);
    var sampling := SampledSids(items);
    if forall i :: 0 <= i < |sampling| ==> sampling[i] in s.jobs {
      AcceptLoopBooks(env, s.(kv := kv), sampling, steps, cancelled);
    }
  }

  lemma AdvanceBooks(env: Env, s: Sys, o: Oracle)
    requires Wf(env, s, {})
    ensures SameBooks(s, Advance(env, s, o).0)
  {
    BuildBooks(env, s);
    var (items, jobs) := Build(env, s);
    var s1 := s.(jobs := jobs);
    if items != [] {
      if o.fault.Some? {
        SameBooksFrame(s1, Crash(s1, items, o.fault.value));
      } else {
        ForwardBooks(env, s1, items, o.cancelled);
      }
    }
  }

  /* ---------------- retiring and preempting ---------------- */

  lemma RetireAtBooks(env: Env, s: Sys, i: nat, copyFails: set<nat>)
    requires NoDup(s.active) && i < |s.active| && s.active[i] in s.jobs
    ensures SameBooks(s, RetireAt(env, s, i, copyFails))
  {
    ActiveReqsRemove(s.active, s.jobs, i);
    DeliveredPush(s.delivered, Last(RetireAt(env, s, i, copyFails).delivered));
  }

  lemma {:induction false} SweepBooks(env: Env, s: Sys, i: nat, copyFails: set<nat>)
    requires Wf(env, s, {})
    ensures SameBooks(s, Sweep(env, s, i, copyFails))
    decreases |s.active| - i
  {
    if i < |s.active| {
      if Finished(s.jobs[s.active[i]]) {
        RetireAtWf(env, s, i, copyFails);
        RetireAtBooks(env, s, i, copyFails);
        SweepBooks(env, RetireAt(env, s, i, copyFails), i, copyFails);
      } else {
        SweepBooks(env, s, i + 1, copyFails);
      }
    }
  }

  /** A preempted request goes back in line; it is not answered and not forgotten. */
  lemma PreemptAtBooks(s: Sys, i: nat)
    requires NoDup(s.active) && i < |s.active| && s.active[i] in s.jobs
    ensures SameBooks(s, PreemptAt(s, i))
  {
    ActiveReqsRemove(s.active, s.jobs, i);
    HeadTail(PreemptAt(s, i).pending);
  }

  lemma GrowTableBooks(env: Env, s: Sys, sid: SeqId, needed: nat)
    requires sid in s.jobs
    ensures SameBooks(s, GrowTable(env, s, sid, needed).0)
  {
    SameBooksFrame(s, GrowTable(env, s, sid, needed).0);
  }

  lemma {:induction false} ReclaimForBooks(env: Env, s: Sys, sid: SeqId, needed: nat)
    requires sid in s.jobs
    ensures SameBooks(s, ReclaimFor(env, s, sid, needed))
    decreases |s.cache.entries|
  {
    GrowTableBooks(env, s, sid, needed);
    var (grown, ok) := GrowTable(env, s, sid, needed);
    if !ok && HasRetained(s.cache) {
      SameBooksFrame(grown, ReclaimDonor(grown));
      ReclaimForBooks(env, ReclaimDonor(grown), sid, needed);
    }
  }

  lemma {:induction false} PreemptForBooks(env: Env, s: Sys, sid: SeqId, needed: nat)
    requires Wf(env, s, {}) && sid in s.jobs
    ensures SameBooks(s, PreemptFor(env, s, sid, needed))
    decreases |s.active|
  {
    GrowTableBooks(env, s, sid, needed);
    GrowTableWf(env, s, sid, needed);
    var (grown, ok) := GrowTable(env, s, sid, needed);
    if !ok {
      var v := Victim(grown.active, grown.jobs, sid, |grown.active|);
      if v.Some? {
        PreemptAtWf(env, grown, v.value);
        PreemptAtBooks(grown, v.value);
        PreemptForBooks(env, PreemptAt(grown, v.value), sid, needed);
        assert PreemptFor(env, s, sid, needed) == PreemptFor(env, PreemptAt(grown, v.value), sid, needed);
      }
    }
  }

  lemma ResolveOneBooks(env: Env, s: Sys, sid: SeqId)
    requires Wf(env, s, {})
    ensures SameBooks(s, ResolveOne(env, s, sid))
  {
    if sid in s.active {
      var needed := Tokens(s.jobs[sid]);
      if BlocksFor(env.cfg.blockSize, needed) > |s.pool.refs| {
        SameBooksFrame(s, ResolveOne(env, s, sid));
      } else {
        ReclaimForWf(env, s, sid, needed);
        ReclaimForBooks(env, s, sid, needed);
        PreemptForBooks(env, ReclaimFor(env, s, sid, needed), sid, needed);
      }
    }
  }

  lemma {:induction false} ResolveAllBooks(env: Env, s: Sys, starved: seq<SeqId>)
    requires Wf(env, s, {})
    ensures SameBooks(s, ResolveAll(env, s, starved))
    decreases |starved|
  {
    if starved != [] {
      ResolveOneWf(env, s, starved[0]);
      ResolveOneBooks(env, s, starved[0]);
      ResolveAllBooks(env, ResolveOne(env, s, starved[0]), starved[1..]);
    }
  }

  lemma WorkBooks(env: Env, s: Sys, o: Oracle)
    requires Wf(env, s, {})
    ensures SameBooks(s, Work(env, s, o))
  {
    AdmitLoopWf(env, s);
    AdmitLoopBooks(env, s);
    var s1 := AdmitLoop(env, s);
    if s1.active != [] {
      AdvanceWf(env, s1, o);
      AdvanceBooks(env, s1, o);
      var (s2, starved) := Advance(env, s1, o);
      SweepWf(env, s2, 0, o.copyFails);
      SweepBooks(env, s2, 0, o.copyFails);
      var s3 := Sweep(env, s2, 0, o.copyFails);
      ResolveAllWf(env, s3, starved);
      ResolveAllBooks(env, s3, starved);
      SweepBooks(env, ResolveAll(env, s3, starved), 0, o.copyFails);
    }
  }

  /* ---------------- every step ---------------- */

  /** The request ledger, the bound on requests in hand, the queue bound, and what it means
      for the scheduler to have returned. */
  ghost predicate BooksOk(env: Env, s: Sys) {
    && multiset(s.accepted) == Ledger(s)
    && |s.pending| + |s.active| <= env.cfg.maxBatch
    && |s.queue| <= env.cfg.queueCapacity
    && (s.phase == Returned ==> s.closed && s.queue == [] && s.pending == [] && s.active == [])
  }

  lemma IterateBooks(env: Env, s: Sys, o: Oracle)
    requires Wf(env, s, {}) && BooksOk(env, s)
    ensures BooksOk(env, Iterate(env, s, o))
  {
    WorkBooks(env, s, o);
  }

  lemma PushBooks(env: Env, s: Sys, req: Request)
    requires BooksOk(env, s)
    ensures BooksOk(env, PushRequest(env, s, req))
  {
    var r := PushRequest(env, s, req);
    assert ActiveReqs(r.active, r.jobs) == ActiveReqs(s.active, s.jobs);
  }

  lemma TakeBooks(env: Env, s: Sys)
    requires BooksOk(env, s) && Enabled(env, s, Take)
    ensures BooksOk(env, TakeWork(env, s))
  {
    if |s.pending| + |s.active| < env.cfg.maxBatch && s.queue != [] {
      TakenBooks(env, s, s.(pending := s.pending + [s.queue[0]], queue := s.queue[1..]));
    } else {
      PhaseBooks(env, s, TakeWork(env, s).phase);
    }
  }

  lemma TakenBooks(env: Env, s: Sys, r: Sys)
    requires BooksOk(env, s) && s.queue != [] && s.phase == Taking && |s.pending| + |s.active| < env.cfg.maxBatch
    requires r == s.(pending := s.pending + [s.queue[0]], queue := s.queue[1..])
    ensures BooksOk(env, r)
  {
    TakenLedger(s);
  }

  /** Going on to work, or returning with nothing left, moves no request. */
  lemma PhaseBooks(env: Env, s: Sys, phase: Phase)
    requires BooksOk(env, s) && (phase == Returned ==> s.closed && s.queue == [] && s.pending == [] && s.active == [])
    ensures BooksOk(env, s.(phase := phase))
  {
    assert Ledger(s.(phase := phase)) == Ledger(s);
  }

  /** A request taken from the queue is now pending. */
  lemma TakenLedger(s: Sys)
    requires s.queue != []
    ensures Ledger(s.(pending := s.pending + [s.queue[0]], queue := s.queue[1..])) == Ledger(s)
  {
    HeadTail(s.queue);
    Rebracket(multiset(s.queue[1..]), multiset(s.pending), ActiveReqs(s.active, s.jobs), DeliveredReqs(s.delivered), s.queue[0]);
    assert multiset(s.pending + [s.queue[0]]) == multiset(s.pending) + multiset{s.queue[0]};
  }

  lemma QueueStepBooks(env: Env, s: Sys, ev: Event)
    requires BooksOk(env, s) && Enabled(env, s, ev) && !ev.Step?
    ensures BooksOk(env, QueueStep(env, s, ev))
  {
    match ev
    case Push(req) => PushBooks(env, s, req);
    case Close =>
      var r := QueueStep(env, s, ev);
      assert ActiveReqs(r.active, r.jobs) == ActiveReqs(s.active, s.jobs);
    case Take => TakeBooks(env, s);
  }
}
