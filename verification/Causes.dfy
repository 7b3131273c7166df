/** Why an answer is not the reference. A cancelled answer was cancelled; an overflow answer
    names a limit that the request really exceeds. With this, a request that fits, that nobody
    cancels and that no fault hits is answered exactly as `generate_one` would answer it. */
module Causes {
  import opened Types
  import opened Sequence
  import opened BlockPool
  import opened Cache
  import opened Engine
  import opened Generator
  import opened Scheduling
  import opened Invariants
  import opened Books
  import opened Donors
  import opened Limits
  import opened Independence
  import opened Runs
  import opened Capacity

  /** The most blocks a request can come to need. */
  function MostBlocks(env: Env, req: Request): nat {
    BlocksFor(env.cfg.blockSize, |PromptOf(env, req)| + req.spec.maxTokens)
  }

  /** What a run has seen so far: the requests cancelled, and whether a pass threw. */
  datatype Past = Past(gone: set<nat>, threw: bool)

  /** The past includes what this iteration sees. */
  predicate Sees(past: Past, o: Oracle) {
    o.cancelled <= past.gone && (o.fault.Some? ==> past.threw)
  }

  /** Every answer that is not an own end has its cause; `clean` says that no donor was orphaned. */
  ghost predicate Justified(env: Env, past: Past, clean: bool, req: Request, reason: FinishReason, failure: Failure) {
    && (reason == Cancelled ==> req.id in past.gone)
    && (reason == Error ==> past.threw)
    && (reason == ContextOverflow ==>
          match failure
          case TooLongForContext(needed, limit) =>
            0 < limit == env.cfg.nCtxSeq < needed == ContextNeed(PromptOf(env, req), req.spec)
          case PoolTooSmall(need, total) =>
            total == env.cfg.totalBlocks && need <= MostBlocks(env, req) && (clean ==> need > total)
          case _ => false)
  }

  ghost predicate JobJustified(env: Env, past: Past, clean: bool, j: Job) {
    Justified(env, past, clean, j.req, j.st.gen.reason, j.st.gen.failure)
  }

  ghost predicate DeliveryJustified(env: Env, past: Past, clean: bool, d: Delivery) {
    Justified(env, past, clean, d.req, d.result.reason, d.result.failure)
  }

  ghost predicate AllJustified(env: Env, past: Past, clean: bool, s: Sys) {
    && (forall k {:trigger JobJustified(env, past, clean, s.jobs[k])} :: k in s.jobs ==> JobJustified(env, past, clean, s.jobs[k]))
    && (forall d {:trigger DeliveryJustified(env, past, clean, d)} :: d in s.delivered ==> DeliveryJustified(env, past, clean, d))
  }

  /** Jobs may only have moved on in ways that do not concern how they end. */
  ghost predicate SameEnds(s: Sys, r: Sys) {
    && r.delivered == s.delivered
    && forall k :: k in r.jobs ==> k in s.jobs && r.jobs[k].req == s.jobs[k].req && r.jobs[k].st.gen == s.jobs[k].st.gen
  }

  lemma EndsJustified(env: Env, past: Past, clean: bool, s: Sys, r: Sys)
    requires AllJustified(env, past, clean, s) && SameEnds(s, r)
    ensures AllJustified(env, past, clean, r)
  {
    forall k | k in r.jobs
      ensures JobJustified(env, past, clean, r.jobs[k])
    {
      assert JobJustified(env, past, clean, s.jobs[k]);
    }
  }

  /** One job ended, or started, with cause. */
  lemma OneJustified(env: Env, past: Past, clean: bool, s: Sys, r: Sys, sid: SeqId)
    requires AllJustified(env, past, clean, s) && r.delivered == s.delivered && sid in r.jobs
    requires r.jobs == s.jobs[sid := r.jobs[sid]] && JobJustified(env, past, clean, r.jobs[sid])
    ensures AllJustified(env, past, clean, r)
  {
    forall k | k in r.jobs
      ensures JobJustified(env, past, clean, r.jobs[k])
    {
      if k != sid {
        assert JobJustified(env, past, clean, s.jobs[k]);
      }
    }
  }

  lemma OneDelivered(env: Env, past: Past, clean: bool, s: Sys, r: Sys, d: Delivery)
    requires AllJustified(env, past, clean, s) && r.delivered == s.delivered + [d] && DeliveryJustified(env, past, clean, d)
    requires forall k :: k in r.jobs ==> k in s.jobs && r.jobs[k] == s.jobs[k]
    ensures AllJustified(env, past, clean, r)
  {
    forall k | k in r.jobs
      ensures JobJustified(env, past, clean, r.jobs[k])
    {
      assert JobJustified(env, past, clean, s.jobs[k]);
    }
    forall e | e in r.delivered
      ensures DeliveryJustified(env, past, clean, e)
    {
      assert e in s.delivered || e == d;
    }
  }

  /* ---------------- admission ---------------- */

  lemma FrontJustified(env: Env, past: Past, clean: bool, s: Sys)
    requires s.pending != [] && s.freeSlots != []
    ensures JobJustified(env, past, clean, FrontJob(env, s))
  {
  }

  lemma WantFits(env: Env, req: Request)
    ensures BlocksFor(env.cfg.blockSize, |PromptOf(env, req)|) <= MostBlocks(env, req)
  {
    BlocksForMonotone(env.cfg.blockSize, |PromptOf(env, req)|, |PromptOf(env, req)| + req.spec.maxTokens);
  }

  lemma AdmitFrontJustified(env: Env, past: Past, clean: bool, s: Sys)
    requires Kept(env, s) && AllJustified(env, past, clean, s) && s.pending != [] && s.freeSlots != []
    requires clean ==> s.orphans == {}
    ensures var r := AdmitFront(env, s).0; AllJustified(env, past, clean, r) && r.orphans == s.orphans
  {
    assert Wf(env, s, {});
    var s1 := MakeRoom(env, s);
    EndsJustified(env, past, clean, s, s1);
    MakeRoomWf(env, s);
    assert s1.pending == s.pending && s1.freeSlots == s.freeSlots && s1.active == s.active;
    if Admit(env, s1).Some? {
      AdmitEffect(env, s1);
      FrontJustified(env, past, clean, s1);
      OneJustified(env, past, clean, s1, Admit(env, s1).value, Last(s1.freeSlots));
    } else if s1.active == [] {
      AdmissionIsExact(env, s);
      RejectJustified(env, past, clean, s, s1);
    }
  }

  lemma RejectJustified(env: Env, past: Past, clean: bool, s: Sys, s1: Sys)
    requires Kept(env, s) && s.pending != [] && s.freeSlots != [] && s1 == MakeRoom(env, s) && AllJustified(env, past, clean, s1)
    requires s.active == [] && AdmitFront(env, s).1.Rejected? && |s1.pool.refs| == env.cfg.totalBlocks
    requires clean ==> s.orphans == {}
    ensures AllJustified(env, past, clean, Reject(env, s1))
  {
    assert Wf(env, s, {});
    AdmissionIsExact(env, s);
    if clean {
      RejectedOnlyIfTooLarge(env, s);
    }
    WantFits(env, s.pending[0]);
    var g := Fail(FrontJob(env, s1).st.gen, PoolTooSmall(Want(env, s1), |s1.pool.refs|), ContextOverflow);
    FinishCause(g);
    OneDelivered(env, past, clean, s1, Reject(env, s1), Last(Reject(env, s1).delivered));
  }

  lemma FinishCause(g: Gen)
    ensures Finish(g).reason == g.reason && Finish(g).failure == g.failure
  {
  }

  lemma {:induction false} AdmitLoopJustified(env: Env, past: Past, clean: bool, s: Sys)
    requires Kept(env, s) && AllJustified(env, past, clean, s) && (clean ==> s.orphans == {})
    ensures AllJustified(env, past, clean, AdmitLoop(env, s))
    decreases |s.pending|
  {
    if s.pending != [] && s.freeSlots != [] {
      AdmitFrontKept(env, s);
      AdmitFrontJustified(env, past, clean, s);
      if !AdmitFront(env, s).1.Deferred? {
        AdmitLoopJustified(env, past, clean, AdmitFront(env, s).0);
      }
    }
  }

  /* ---------------- a pass ---------------- */

  lemma BuildJustified(env: Env, past: Past, clean: bool, s: Sys)
    requires Wf(env, s, {}) && AllJustified(env, past, clean, s)
    ensures AllJustified(env, past, clean, s.(jobs := Build(env, s).1))
  {
    BuildOnlyPrefills(env, s);
    EndsJustified(env, past, clean, s, s.(jobs := Build(env, s).1));
  }

  lemma AcceptCause(env: Env, past: Past, clean: bool, j: Job, next: NextToken, cancelled: bool)
    requires JobJustified(env, past, clean, j) && (cancelled ==> j.req.id in past.gone)
    ensures var g := Accept(env.be.piece, j.st.spec, j.st.gen, next, cancelled);
      JobJustified(env, past, clean, SetGen(j, g)) && JobJustified(env, past, clean, SetGen(j, Finish(g)))
  {
    var g := Accept(env.be.piece, j.st.spec, j.st.gen, next, cancelled);
    FinishCause(g);
    if !j.st.gen.finished {
      AcceptReason(env.be.piece, j.st.spec, j.st.gen, next, cancelled);
    }
  }

  /** A token ends a sequence for its own reasons or because it was cancelled. */
  lemma AcceptReason(piece: Token -> string, spec: Spec, g: Gen, next: NextToken, cancelled: bool)
    requires !g.finished
    ensures var r := Accept(piece, spec, g, next, cancelled);
      r.reason == g.reason || OwnEnd(r.reason) || (r.reason == Cancelled && cancelled)
    ensures Accept(piece, spec, g, next, cancelled).failure == g.failure
  {
  }

  lemma AcceptOneJustified(env: Env, past: Past, clean: bool, s: Sys, sid: SeqId, next: NextToken, cancelled: bool)
    requires AllJustified(env, past, clean, s) && sid in s.jobs && (cancelled ==> s.jobs[sid].req.id in past.gone)
    ensures AllJustified(env, past, clean, AcceptOne(env, s, sid, next, cancelled).0)
  {
    var r := AcceptOne(env, s, sid, next, cancelled).0;
    assert JobJustified(env, past, clean, s.jobs[sid]);
    AcceptCause(env, past, clean, s.jobs[sid], next, cancelled);
    OneJustified(env, past, clean, s, r, sid);
  }

  lemma {:induction false} AcceptLoopJustified(env: Env, past: Past, clean: bool, s: Sys, sampling: seq<SeqId>, steps: seq<GenStep>, cancelled: set<nat>)
    requires AllJustified(env, past, clean, s) && cancelled <= past.gone
    requires |steps| == |sampling| && forall i :: 0 <= i < |sampling| ==> sampling[i] in s.jobs
    ensures AllJustified(env, past, clean, AcceptLoop(env, s, sampling, steps, cancelled).0)
    decreases |sampling|
  {
    if sampling != [] {
      var sid := sampling[0];
      var hit := s.jobs[sid].req.id in cancelled;
      AcceptOneJustified(env, past, clean, s, sid, steps[0].next, hit);
      AcceptLoopJustified(env, past, clean, AcceptOne(env, s, sid, steps[0].next, hit).0, sampling[1..], steps[1..], cancelled);
    }
  }

  lemma CrashJustified(env: Env, past: Past, clean: bool, s: Sys, items: seq<BatchItem>, garbage: map<SeqId, seq<Token>>)
    requires AllJustified(env, past, clean, s) && past.threw
    ensures AllJustified(env, past, clean, Crash(s, items, garbage))
  {
    var r := Crash(s, items, garbage);
    forall k | k in r.jobs
      ensures JobJustified(env, past, clean, r.jobs[k])
    {
      assert JobJustified(env, past, clean, s.jobs[k]);
    }
  }

  lemma AdvanceJustified(env: Env, past: Past, clean: bool, s: Sys, o: Oracle)
    requires Wf(env, s, {}) && AllJustified(env, past, clean, s) && Sees(past, o)
    ensures AllJustified(env, past, clean, Advance(env, s, o).0)
  {
    BuildJustified(env, past, clean, s);
    var (items, jobs) := Build(env, s);
    var s1 := s.(jobs := jobs);
    if items != [] {
      if o.fault.Some? {
        CrashJustified(env, past, clean, s1, items, o.fault.value);
      } else {
        var (kv, steps) := Decode(env.be, s1.kv, items);
        EndsJustified(env, past, clean, s1, s1.(kv := kv));
        ForwardJustified(env, past, clean, s1, items, o.cancelled);
      }
    }
  }

  lemma ForwardJustified(env: Env, past: Past, clean: bool, s: Sys, items: seq<BatchItem>, cancelled: set<nat>)
    requires AllJustified(env, past, clean, s.(kv := Decode(env.be, s.kv, items).0)) && cancelled <= past.gone
    ensures AllJustified(env, past, clean, Forward(env, s, items, cancelled).0)
  {
    var (kv, steps) := Decode(env.be, s.kv, items);
    var sampling := SampledSids(items);
    if |steps| == |sampling| && forall i :: 0 <= i < |sampling| ==> sampling[i] in s.jobs {
      AcceptLoopJustified(env, past, clean, s.(kv := kv), sampling, steps, cancelled);
    }
  }

  /* ---------------- retiring and making room ---------------- */

  lemma RetireAtJustified(env: Env, past: Past, clean: bool, s: Sys, i: nat, copyFails: set<nat>)
    requires AllJustified(env, past, clean, s) && i < |s.active| && s.active[i] in s.jobs
    ensures AllJustified(env, past, clean, RetireAt(env, s, i, copyFails))
  {
    var j := s.jobs[s.active[i]];
    assert JobJustified(env, past, clean, j);
    RetireAtFrame(env, s, i, copyFails);
    FinishCause(j.st.gen);
    var r := RetireAt(env, s, i, copyFails);
    OneDelivered(env, past, clean, s, r, Delivery(j.req, ResultOf(Finish(j.st.gen), |j.st.prompt|)));
  }

  lemma {:induction false} SweepJustified(env: Env, past: Past, clean: bool, s: Sys, i: nat, copyFails: set<nat>)
    requires AllJustified(env, past, clean, s)
    ensures AllJustified(env, past, clean, Sweep(env, s, i, copyFails))
    decreases |s.active| - i
  {
    if i < |s.active| {
      if s.active[i] in s.jobs && Finished(s.jobs[s.active[i]]) {
        RetireAtJustified(env, past, clean, s, i, copyFails);
        SweepJustified(env, past, clean, RetireAt(env, s, i, copyFails), i, copyFails);
      } else {
        SweepJustified(env, past, clean, s, i + 1, copyFails);
      }
    }
  }

  lemma {:induction false} ReclaimForEnds(env: Env, s: Sys, sid: SeqId, needed: nat)
    requires sid in s.jobs
    ensures SameEnds(s, ReclaimFor(env, s, sid, needed))
    decreases |s.cache.entries|
  {
    var (grown, ok) := GrowTable(env, s, sid, needed);
    assert SameEnds(s, grown);
    if !ok && HasRetained(s.cache) {
      ReclaimForEnds(env, ReclaimDonor(grown), sid, needed);
    }
  }

  lemma {:induction false} PreemptForEnds(env: Env, s: Sys, sid: SeqId, needed: nat)
    requires sid in s.jobs
    ensures SameEnds(s, PreemptFor(env, s, sid, needed))
    decreases |s.active|
  {
    var (grown, ok) := GrowTable(env, s, sid, needed);
    assert SameEnds(s, grown);
    if !ok {
      var v := Victim(grown.active, grown.jobs, sid, |grown.active|);
      if v.Some? {
        PreemptForEnds(env, PreemptAt(grown, v.value), sid, needed);
      }
    }
  }

  lemma ResolveOneJustified(env: Env, past: Past, clean: bool, s: Sys, sid: SeqId)
    requires Wf(env, s, {}) && AllJustified(env, past, clean, s)
    ensures AllJustified(env, past, clean, ResolveOne(env, s, sid))
  {
    if sid in s.active {
      var j := s.jobs[sid];
      var r := ResolveOne(env, s, sid);
      var need := BlocksFor(env.cfg.blockSize, Tokens(j));
      if need > |s.pool.refs| {
        assert JobOk(env, sid, j);
        BlocksForMonotone(env.cfg.blockSize, Tokens(j), |j.st.prompt| + j.st.spec.maxTokens);
        FinishCause(Fail(j.st.gen, PoolTooSmall(need, |s.pool.refs|), ContextOverflow));
        OneJustified(env, past, clean, s, r, sid);
      } else {
        var s1 := ReclaimFor(env, s, sid, Tokens(j));
        ReclaimForEnds(env, s, sid, Tokens(j));
        PreemptForEnds(env, s1, sid, Tokens(j));
        EndsJustified(env, past, clean, s, s1);
        EndsJustified(env, past, clean, s1, r);
      }
    }
  }

  lemma {:induction false} ResolveAllJustified(env: Env, past: Past, clean: bool, s: Sys, starved: seq<SeqId>)
    requires Wf(env, s, {}) && AllJustified(env, past, clean, s)
    ensures AllJustified(env, past, clean, ResolveAll(env, s, starved))
    decreases |starved|
  {
    if starved != [] {
      ResolveOneWf(env, s, starved[0]);
      ResolveOneJustified(env, past, clean, s, starved[0]);
      ResolveAllJustified(env, past, clean, ResolveOne(env, s, starved[0]), starved[1..]);
    }
  }

  /* ---------------- runs ---------------- */

  lemma WorkJustified(env: Env, past: Past, clean: bool, s: Sys, o: Oracle)
    requires Kept(env, s) && AllJustified(env, past, clean, s) && (clean ==> s.orphans == {}) && Sees(past, o)
    ensures AllJustified(env, past, clean, Work(env, s, o))
  {
    assert Wf(env, s, {});
    AdmitLoopJustified(env, past, clean, s);
    AdmitLoopWf(env, s);
    var s1 := AdmitLoop(env, s);
    if s1.active != [] {
      AdvanceJustified(env, past, clean, s1, o);
      AdvanceWf(env, s1, o);
      var (s2, starved) := Advance(env, s1, o);
      SweepJustified(env, past, clean, s2, 0, o.copyFails);
      SweepWf(env, s2, 0, o.copyFails);
      var s3 := Sweep(env, s2, 0, o.copyFails);
      ResolveAllJustified(env, past, clean, s3, starved);
      SweepJustified(env, past, clean, ResolveAll(env, s3, starved), 0, o.copyFails);
    }
  }

  /** The requests that were seen to be cancelled during a run. */
  ghost function GoneIn(events: seq<Event>): set<nat> {
    if events == [] then {}
    else GoneIn(DropLast(events)) + (if Last(events).Step? then Last(events).oracle.cancelled else {})
  }

  ghost function PastOf(events: seq<Event>): Past {
    Past(GoneIn(events), ThrewIn(events))
  }

  lemma PastGrows(events: seq<Event>)
    requires events != []
    ensures PastOf(DropLast(events)).gone <= PastOf(events).gone && (ThrewIn(DropLast(events)) ==> ThrewIn(events))
    ensures Last(events).Step? ==> Sees(PastOf(events), Last(events).oracle)
  {
    if i :| 0 <= i < |DropLast(events)| && DropLast(events)[i].Step? && DropLast(events)[i].oracle.fault.Some? {
      assert events[i] == DropLast(events)[i];
    }
  }

  lemma MoreGone(env: Env, small: Past, past: Past, clean: bool, s: Sys)
    requires AllJustified(env, small, clean, s) && small.gone <= past.gone && (small.threw ==> past.threw)
    ensures AllJustified(env, past, clean, s)
  {
    forall k | k in s.jobs
      ensures JobJustified(env, past, clean, s.jobs[k])
    {
      assert JobJustified(env, small, clean, s.jobs[k]);
    }
    forall d | d in s.delivered
      ensures DeliveryJustified(env, past, clean, d)
    {
      assert DeliveryJustified(env, small, clean, d);
    }
  }

  lemma {:induction false} EveryEndHasItsCause(env: Env, run: seq<Sys>, events: seq<Event>, clean: bool)
    requires IsRun(env, run, events) && (clean ==> Last(run).orphans == {})
    ensures AllJustified(env, PastOf(events), clean, Last(run))
    decreases |events|
  {
    if events != [] {
      RunPrefix(env, run, events);
      var before, ev := Last(DropLast(run)), Last(events);
      OrphansOnlyGrow(env, run, events, |run| - 2);
      EveryRunKeepsAccounts(env, DropLast(run), DropLast(events));
      EveryEndHasItsCause(env, DropLast(run), DropLast(events), clean);
      PastGrows(events);
      MoreGone(env, PastOf(DropLast(events)), PastOf(events), clean, before);
      if ev.Step? {
        WorkJustified(env, PastOf(events), clean, before, ev.oracle);
        EndsJustified(env, PastOf(events), clean, Work(env, before, ev.oracle), Last(run));
      } else {
        EndsJustified(env, PastOf(events), clean, before, Last(run));
      }
    }
  }

  /** The request's prompt and token budget fit its context and the pool. */
  predicate Fits(env: Env, req: Request) {
    && |PromptOf(env, req)| + req.spec.maxTokens < U32
    && (env.cfg.nCtxSeq > 0 ==> |PromptOf(env, req)| + req.spec.maxTokens <= env.cfg.nCtxSeq)
    && MostBlocks(env, req) <= env.cfg.totalBlocks
  }

  /** WHO FITS IS ANSWERED IN FULL. In every run whose throwing iterations poison nothing, in
      which the hash separates the prompts and no retained entry was overwritten, a delivered
      request with a prompt, that fits its context and the pool and that nobody cancelled, has
      exactly the answer of `generate_one` or was failed by a throwing pass: it is never
      rejected or truncated, however scarce blocks were. */
  lemma WhoFitsIsAnsweredInFull(env: Env, run: seq<Sys>, events: seq<Event>, d: Delivery)
    requires IsRun(env, run, events) && FaultsAreContained(env, run, events) && Last(run).orphans == {}
    requires CollisionFree(env, Last(run).accepted) && PromptOf(env, d.req) != []
    requires d in Last(run).delivered && Fits(env, d.req) && d.req.id !in GoneIn(events)
    ensures d.result == ReferenceResult(env.be, d.req.spec) || (d.result.reason == Error && ThrewIn(events))
  {
    EveryEndHasItsCause(env, run, events, true);
    assert DeliveryJustified(env, PastOf(events), true, d);
    ScheduleIndependence(env, run, events, d);
  }

  /** And when the scheduler returns and no pass threw, every such request has been delivered,
      with the answer of `generate_one`. */
  lemma EveryoneIsAnswered(env: Env, run: seq<Sys>, events: seq<Event>, req: Request)
    requires IsRun(env, run, events) && !ThrewIn(events) && Last(run).orphans == {} && Last(run).phase == Returned
    requires CollisionFree(env, Last(run).accepted) && PromptOf(env, req) != []
    requires req in Last(run).accepted && Fits(env, req) && req.id !in GoneIn(events)
    ensures Delivery(req, ReferenceResult(env.be, req.spec)) in Last(run).delivered
  {
    var s := Last(run);
    assert Reachable(env, s);
    ReturnMeansAllDelivered(env, s);
    assert req in multiset(s.accepted);
    var i := DeliveredTo(s.delivered, req);
    WhenFaultsAreContained(env, run, events);
    WhoFitsIsAnsweredInFull(env, run, events, s.delivered[i]);
    assert s.delivered[i] == Delivery(req, ReferenceResult(env.be, req.spec));
  }

  lemma {:induction false} DeliveredTo(delivered: seq<Delivery>, req: Request) returns (i: nat)
    requires req in DeliveredReqs(delivered)
    ensures i < |delivered| && delivered[i].req == req
    decreases |delivered|
  {
    i := |delivered| - 1;
    if delivered[i].req != req {
      i := DeliveredTo(DropLast(delivered), req);
    }
  }
}
