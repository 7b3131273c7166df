/** Who is served when: the line of waiting requests is never reordered
    (src/core/scheduler.cpp:341-353, 382-398, 400-475). */
module Order {
  import opened Types
  import opened Engine
  import opened Scheduling
  import opened Invariants
  import opened Books
  import opened Donors
  import opened Limits
  import opened Causes

  /** Everyone who waits, first in line first. */
  function Line(s: Sys): seq<Request> {
    s.pending + s.queue
  }

  /* ---------------- admission ---------------- */

  /** The first `m` in line were turned away, the next up to `n` started, in order; the rest
      wait as before, and nobody is turned away while anyone runs. */
  ghost predicate ServedInOrder(s: Sys, r: Sys, m: nat, n: nat) {
    && m <= n <= |s.pending| && r.pending == s.pending[n..]
    && RequestList(r.active, r.jobs) == RequestList(s.active, s.jobs) + s.pending[m..n]
    && |r.delivered| == |s.delivered| + m && r.delivered[..|s.delivered|] == s.delivered
    && (forall i :: 0 <= i < m ==> r.delivered[|s.delivered| + i].req == s.pending[i])
    && (m > 0 ==> s.active == [])
  }

  /** What one decision does to the line, the running requests and the answers. */
  ghost predicate FrontServed(s: Sys, r: Sys, outcome: Outcome)
    requires s.pending != []
  {
    match outcome
    case Admitted => r.pending == s.pending[1..] && r.delivered == s.delivered
      && RequestList(r.active, r.jobs) == RequestList(s.active, s.jobs) + [s.pending[0]]
    case Rejected => r.pending == s.pending[1..] && r.active == s.active == [] && r.jobs == s.jobs
      && r.delivered != [] && DropLast(r.delivered) == s.delivered && Last(r.delivered).req == s.pending[0]
    case Deferred => r.pending == s.pending && r.active == s.active && r.jobs == s.jobs && r.delivered == s.delivered
  }

  lemma FrontInOrder(env: Env, s: Sys)
    requires Sound(env, s, {}) && s.pending != [] && s.freeSlots != []
    ensures FrontServed(s, AdmitFront(env, s).0, AdmitFront(env, s).1)
  {
    var s1 := MakeRoom(env, s);
    MakeRoomSound(env, s);
    if Admit(env, s1).Some? {
      EnrolledLast(env, s, s1);
    } else if s.active == [] {
      RejectedAlone(env, s, s1);
    }
  }

  lemma RejectedAlone(env: Env, s: Sys, s1: Sys)
    requires s.pending != [] && s.freeSlots != [] && s1 == s.(cache := s1.cache, pool := s1.pool, kv := s1.kv, held := s1.held) && s.active == []
    ensures FrontServed(s, Reject(env, s1), Rejected)
  {
  }

  lemma EnrolledLast(env: Env, s: Sys, s1: Sys)
    requires s.pending != [] && s.freeSlots != [] && s1 == s.(cache := s1.cache, pool := s1.pool, kv := s1.kv, held := s1.held)
    requires Sound(env, s1, {Last(s.freeSlots)}) && Admit(env, s1).Some?
    ensures FrontServed(s, Admit(env, s1).value, Admitted)
  {
    assert Wf(env, s1, {Last(s.freeSlots)});
    AdmitEffect(env, s1);
    var r, slot := Admit(env, s1).value, Last(s.freeSlots);
    assert slot in s.freeSlots && slot !in s.active;
    assert RequestList(r.active, r.jobs) == RequestList(s.active, s.jobs) + [s.pending[0]];
  }

  lemma NobodyServed(s: Sys, r: Sys)
    requires r.pending == s.pending && r.active == s.active && r.jobs == s.jobs && r.delivered == s.delivered
    ensures ServedInOrder(s, r, 0, 0)
  {
    assert s.pending[0..] == s.pending && s.pending[0..0] == [];
    assert RequestList(s.active, s.jobs) + [] == RequestList(s.active, s.jobs);
  }

  lemma StartedFirst(s: Sys, q: Sys, r: Sys, n: nat)
    requires s.pending != [] && q.pending == s.pending[1..] && q.delivered == s.delivered
    requires RequestList(q.active, q.jobs) == RequestList(s.active, s.jobs) + [s.pending[0]] && ServedInOrder(q, r, 0, n)
    ensures ServedInOrder(s, r, 0, n + 1)
  {
    assert q.pending[n..] == s.pending[n + 1..] && [s.pending[0]] + q.pending[0..n] == s.pending[0..n + 1];
    var before := RequestList(s.active, s.jobs);
    assert (before + [s.pending[0]]) + q.pending[0..n] == before + ([s.pending[0]] + q.pending[0..n]);
  }

  lemma RejectedFirst(s: Sys, q: Sys, r: Sys, m: nat, n: nat, d: Delivery)
    requires s.pending != [] && q.pending == s.pending[1..] && q.active == s.active == [] && q.jobs == s.jobs
    requires q.delivered == s.delivered + [d] && d.req == s.pending[0] && ServedInOrder(q, r, m, n)
    ensures ServedInOrder(s, r, m + 1, n + 1)
  {
    assert q.pending[n..] == s.pending[n + 1..] && q.pending[m..n] == s.pending[m + 1..n + 1];
    assert r.delivered[..|s.delivered|] == q.delivered[..|s.delivered|];
    forall i | 0 <= i < m + 1
      ensures r.delivered[|s.delivered| + i].req == s.pending[i]
    {
      if i == 0 {
        assert r.delivered[..|q.delivered|][|s.delivered|] == d;
      } else {
        assert r.delivered[|q.delivered| + (i - 1)].req == q.pending[i - 1];
      }
    }
  }

  /** FIRST COME, FIRST SERVED. One admission loop serves a front part of the line, in order. */
  lemma {:induction false} AdmissionIsFifo(env: Env, s: Sys) returns (m: nat, n: nat)
    requires Sound(env, s, {})
    ensures ServedInOrder(s, AdmitLoop(env, s), m, n)
    decreases |s.pending|
  {
    if s.pending == [] || s.freeSlots == [] {
      m, n := 0, 0;
      NobodyServed(s, s);
    } else {
      FrontInOrder(env, s);
      FrontSound(env, s);
      var (q, outcome) := AdmitFront(env, s);
      if outcome.Deferred? {
        m, n := 0, 0;
        NobodyServed(s, q);
      } else {
        m, n := AdmissionIsFifo(env, q);
        m, n := ThenTheRest(s, q, outcome, AdmitLoop(env, q), m, n);
      }
    }
  }

  /** The front was served, and then the rest of the line from there. */
  lemma ThenTheRest(s: Sys, q: Sys, outcome: Outcome, r: Sys, m0: nat, n0: nat) returns (m: nat, n: nat)
    requires s.pending != [] && FrontServed(s, q, outcome) && !outcome.Deferred? && ServedInOrder(q, r, m0, n0)
    ensures ServedInOrder(s, r, m, n)
  {
    if outcome.Admitted? {
      assert |RequestList(q.active, q.jobs)| > 0;
      m, n := 0, n0 + 1;
      StartedFirst(s, q, r, n0);
    } else {
      assert q.delivered == s.delivered + [Last(q.delivered)];
      m, n := m0 + 1, n0 + 1;
      RejectedFirst(s, q, r, m0, n0, Last(q.delivered));
    }
  }

  lemma FrontSound(env: Env, s: Sys)
    requires Sound(env, s, {}) && s.pending != [] && s.freeSlots != []
    ensures Sound(env, AdmitFront(env, s).0, {})
  {
    assert Wf(env, s, {});
    AdmitFrontWf(env, s);
  }

  /* ---------------- the rest of an iteration ---------------- */

  /** Nobody joins or leaves the line, and nobody is answered. */
  ghost predicate SameLine(s: Sys, r: Sys) {
    r.pending == s.pending && r.delivered == s.delivered
  }

  lemma {:induction false} AcceptLoopKeepsLine(env: Env, s: Sys, sampling: seq<SeqId>, steps: seq<GenStep>, cancelled: set<nat>)
    requires |steps| == |sampling| && forall i :: 0 <= i < |sampling| ==> sampling[i] in s.jobs
    ensures SameLine(s, AcceptLoop(env, s, sampling, steps, cancelled).0)
    decreases |sampling|
  {
    if sampling != [] {
      var sid := sampling[0];
      var s1 := AcceptOne(env, s, sid, steps[0].next, s.jobs[sid].req.id in cancelled).0;
      AcceptLoopKeepsLine(env, s1, sampling[1..], steps[1..], cancelled);
    }
  }

  lemma AdvanceKeepsLine(env: Env, s: Sys, o: Oracle)
    ensures SameLine(s, Advance(env, s, o).0)
  {
    var (items, jobs) := Build(env, s);
    ForwardKeepsLine(env, s.(jobs := jobs), items, o.cancelled);
  }

  lemma ForwardKeepsLine(env: Env, s: Sys, items: seq<BatchItem>, cancelled: set<nat>)
    ensures SameLine(s, Forward(env, s, items, cancelled).0)
  {
    var (kv, steps) := Decode(env.be, s.kv, items);
    var sampling := SampledSids(items);
    if |steps| == |sampling| && forall i :: 0 <= i < |sampling| ==> sampling[i] in s.jobs {
      AcceptLoopKeepsLine(env, s.(kv := kv), sampling, steps, cancelled);
    }
  }

  lemma RetireAtKeepsLine(env: Env, s: Sys, i: nat, copyFails: set<nat>)
    requires i < |s.active| && s.active[i] in s.jobs
    ensures RetireAt(env, s, i, copyFails).pending == s.pending && s.delivered <= RetireAt(env, s, i, copyFails).delivered
  {
  }

  lemma {:induction false} SweepKeepsLine(env: Env, s: Sys, i: nat, copyFails: set<nat>)
    ensures Sweep(env, s, i, copyFails).pending == s.pending && s.delivered <= Sweep(env, s, i, copyFails).delivered
    decreases |s.active| - i
  {
    if i < |s.active| {
      if s.active[i] in s.jobs && Finished(s.jobs[s.active[i]]) {
        RetireAtKeepsLine(env, s, i, copyFails);
        SweepKeepsLine(env, RetireAt(env, s, i, copyFails), i, copyFails);
      } else {
        SweepKeepsLine(env, s, i + 1, copyFails);
      }
    }
  }

  lemma ResolveOneAnswersNobody(env: Env, s: Sys, sid: SeqId)
    ensures ResolveOne(env, s, sid).delivered == s.delivered
  {
    if sid in s.active && sid in s.jobs {
      var needed := Tokens(s.jobs[sid]);
      ReclaimForEnds(env, s, sid, needed);
      PreemptForEnds(env, ReclaimFor(env, s, sid, needed), sid, needed);
    }
  }

  lemma {:induction false} ResolveAllOnlyPrepends(env: Env, s: Sys, starved: seq<SeqId>) returns (back: seq<Request>)
    requires Kept(env, s)
    ensures ResolveAll(env, s, starved).pending == back + s.pending && ResolveAll(env, s, starved).delivered == s.delivered
    decreases |starved|
  {
    if starved == [] {
      back := [];
      assert back + s.pending == s.pending;
    } else {
      var sid := starved[0];
      var r := ResolveOne(env, s, sid);
      PreemptionIsLifo(env, s, sid);
      var c: nat :| c <= |s.active| && PreemptedFrom(s, r, sid, c);
      ResolveOneKept(env, s, sid);
      ResolveOneAnswersNobody(env, s, sid);
      var more := ResolveAllOnlyPrepends(env, r, starved[1..]);
      back := more + Requeued(s.active[c..], s.jobs, sid);
      Rebracketed(more, Requeued(s.active[c..], s.jobs, sid), s.pending);
    }
  }

  /** Everyone who ran in `s` has come back into the line, still runs or was answered, and nobody
      else did: `back` is what was put in front of those who wait. */
  ghost predicate OnlyRunnersReturn(s: Sys, r: Sys, back: seq<Request>) {
    && s.delivered <= r.delivered
    && ActiveReqs(s.active, s.jobs) == multiset(back) + ActiveReqs(r.active, r.jobs) + DeliveredReqs(r.delivered[|s.delivered|..])
  }

  lemma {:induction false} DeliveredSplit(a: seq<Delivery>, b: seq<Delivery>)
    ensures DeliveredReqs(a + b) == DeliveredReqs(a) + DeliveredReqs(b)
    decreases |b|
  {
    if b == [] {
      assert a + b == a;
    } else {
      DeliveredSplit(a, DropLast(b));
      assert DropLast(a + b) == a + DropLast(b);
    }
  }

  lemma BooksOfTheRest(s: Sys, r: Sys, back: seq<Request>)
    requires SameBooks(s, r) && r.pending == back + s.pending && s.delivered <= r.delivered
    ensures OnlyRunnersReturn(s, r, back)
  {
    var more := r.delivered[|s.delivered|..];
    assert r.delivered == s.delivered + more;
    DeliveredSplit(s.delivered, more);
    assert multiset(r.pending) == multiset(back) + multiset(s.pending);
    Cancelled(multiset(s.queue), multiset(s.pending), DeliveredReqs(s.delivered), ActiveReqs(s.active, s.jobs),
              multiset(back), ActiveReqs(r.active, r.jobs), DeliveredReqs(more));
  }

  lemma Cancelled(q: multiset<Request>, p: multiset<Request>, d: multiset<Request>, a: multiset<Request>,
                  back: multiset<Request>, left: multiset<Request>, more: multiset<Request>)
    requires q + (back + p) + left + (d + more) == q + p + a + d
    ensures a == back + left + more
  {
    forall x: Request
      ensures a[x] == (back + left + more)[x]
    {
      assert (q + (back + p) + left + (d + more))[x] == (q + p + a + d)[x];
    }
  }

  /** NOBODY OVERTAKES. One iteration takes a front part of the line off, in order: the first `m`
      are turned away, the next up to `n` start. The others wait on in the same order, and in
      front of them come only requests that were running: whoever ran after admission is back in
      the line, runs on or was answered, and each of them once. */
  lemma LineIsNeverReordered(env: Env, s: Sys, o: Oracle) returns (m: nat, n: nat, back: seq<Request>)
    requires Kept(env, s)
    ensures ServedInOrder(s, AdmitLoop(env, s), m, n) && Work(env, s, o).pending == back + s.pending[n..]
    ensures OnlyRunnersReturn(AdmitLoop(env, s), Work(env, s, o), back)
  {
    KeptIsSound(env, s);
    m, n := AdmissionIsFifo(env, s);
    AdmitLoopKept(env, s);
    back := RestOfTheIteration(env, s, AdmitLoop(env, s), o);
  }

  lemma RestOfTheIteration(env: Env, s: Sys, s1: Sys, o: Oracle) returns (back: seq<Request>)
    requires Kept(env, s1) && s1 == AdmitLoop(env, s)
    ensures Work(env, s, o).pending == back + s1.pending && OnlyRunnersReturn(s1, Work(env, s, o), back)
  {
    if s1.active == [] {
      back := [];
      assert back + s1.pending == s1.pending;
      assert SameBooks(s1, s1);
    } else {
      AdvanceKeepsLine(env, s1, o);
      AdvanceKept(env, s1, o);
      var (s2, starved) := Advance(env, s1, o);
      back := RestOfTheLine(env, s2, starved, o.copyFails);
      RestBooks(env, s1, o);
    }
    BooksOfTheRest(s1, Work(env, s, o), back);
  }

  lemma RestOfTheLine(env: Env, s: Sys, starved: seq<SeqId>, copyFails: set<nat>) returns (back: seq<Request>)
    requires Kept(env, s)
    ensures var r := Sweep(env, ResolveAll(env, Sweep(env, s, 0, copyFails), starved), 0, copyFails);
      r.pending == back + s.pending && s.delivered <= r.delivered
  {
    SweepKeepsLine(env, s, 0, copyFails);
    SweepKept(env, s, 0, copyFails);
    var s3 := Sweep(env, s, 0, copyFails);
    back := ResolveAllOnlyPrepends(env, s3, starved);
    SweepKeepsLine(env, ResolveAll(env, s3, starved), 0, copyFails);
  }

  lemma RestBooks(env: Env, s: Sys, o: Oracle)
    requires Kept(env, s)
    ensures var (s2, starved) := Advance(env, s, o);
      SameBooks(s, Sweep(env, ResolveAll(env, Sweep(env, s2, 0, o.copyFails), starved), 0, o.copyFails))
  {
    assert Wf(env, s, {});
    AdvanceWf(env, s, o);
    AdvanceBooks(env, s, o);
    var (s2, starved) := Advance(env, s, o);
    SweepWf(env, s2, 0, o.copyFails);
    SweepBooks(env, s2, 0, o.copyFails);
    var s3 := Sweep(env, s2, 0, o.copyFails);
    ResolveAllWf(env, s3, starved);
    ResolveAllBooks(env, s3, starved);
    SweepBooks(env, ResolveAll(env, s3, starved), 0, o.copyFails);
  }

  lemma KeptIsSound(env: Env, s: Sys)
    requires Kept(env, s)
    ensures Sound(env, s, {})
  {
  }

  /** The steps that touch the queue add at the end of the line or leave it alone. */
  lemma QueueStepKeepsLine(env: Env, s: Sys, ev: Event)
    requires !ev.Step?
    ensures Line(Next(env, s, ev)) == Line(s) + (if ev.Push? && !s.closed && |s.queue| < env.cfg.queueCapacity then [ev.req] else [])
  {
    if ev.Take? && |s.pending| + |s.active| < env.cfg.maxBatch && s.queue != [] {
      assert (s.pending + [s.queue[0]]) + s.queue[1..] == s.pending + s.queue;
    } else if ev.Push? {
      assert s.pending + (s.queue + [ev.req]) == (s.pending + s.queue) + [ev.req];
    }
    assert Line(s) + [] == Line(s);
  }
}
