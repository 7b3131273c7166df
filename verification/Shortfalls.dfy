/** Where the code falls short of what its comments promise, each with a concrete input; the
    exact conditions under which it does not are the theorems named with each. */
module Shortfalls {
  import opened Types
  import opened Sequence
  import opened BlockPool
  import opened Cache
  import opened Engine
  import opened Scheduling
  import opened Invariants
  import opened Limits
  import opened Runs
  import opened Capacity
  import opened Batch
  import opened Generator
  import opened Independence
  import opened Moments
  import opened Meaning

  /* ---------------- a repeated prompt strands a donor ---------------- */

  /** Prompts of two tokens, and a model that says "a" if its history starts with a 9 and ends at
      once if not: one sequence slot, three blocks of two tokens each, two donor slots. The hash
      is the length, so all prompts of one length collide. */
  const PICKY := Backend.Backend((s, h) => NextToken(5, h == [] || h[0] != 9), t => "a", p => if p == "" then [7, 8] else if p == "x" then [9, 8] else [7, 8, 9, 7, 8, 9], t => |t|)
  function Small(mayFail: bool): Env {
    Env(Config(1, 2, 0, 2, 3, 2, true, 0, 8), PICKY, mayFail)
  }

  const ASK := Spec("", [], 1, DEFAULT_SAMPLING)
  const ASK_X := Spec("x", [], 1, DEFAULT_SAMPLING)
  const CALM := Oracle({}, {}, None)
  const THROWS := Oracle({}, {}, Some(map[]))

  const ANSWERED := Finish(StopWith(NEW_GEN, Eos))
  const FAILED := Fail(NEW_GEN, Failure.Backend, Error)

  predicate Asks(r: Request) {
    r.spec == ASK || r.spec == ASK_X
  }

  /** What such a request asks. */
  function Pair(r: Request): (p: seq<Token>)
    requires Asks(r)
    ensures p == PICKY.tokenize(r.spec.prompt) && |p| == 2
  {
    if r.spec == ASK then [7, 8] else [9, 8]
  }

  function At(r: Request, prefilled: nat, cached: nat, g: Gen): SeqState
    requires Asks(r) && prefilled <= 2
  {
    NewState(0, r.spec, Pair(r)).(prefilled := prefilled, cached := cached, gen := g)
  }

  /** The request's job, having submitted its prompt behind `cached` tokens. */
  function Whole(r: Request, t: Table, cached: nat, g: Gen): map<SeqId, Job>
    requires Asks(r)
  {
    map[0 := Job(r, At(r, 2, cached, g), t)]
  }

  /** Nothing is cached, or one prefix of two tokens in a donor slot. */
  ghost predicate OnePrefix(c: CacheState, kv: Kv) {
    || c.entries == map[]
    || (&& c.entries.Keys == {2} && c.entries[2].entry.nTokens == 2
        && c.entries[2].entry.sid != 0 && c.entries[2].entry.sid in kv && |kv[c.entries[2].entry.sid].cells| <= 2)
  }

  /** The KV the next request starts from. */
  ghost function Inherited(c: CacheState, kv: Kv): seq<Token> {
    if 2 in c.entries && c.entries[2].entry.sid in kv then kv[c.entries[2].entry.sid].cells else []
  }

  /** The first token of the history the next request is answered from. */
  ghost function FirstSeen(s: Sys, r: Request): Token
    requires Asks(r)
  {
    if 2 !in s.cache.entries then Pair(r)[0]
    else if Inherited(s.cache, s.kv) == [] then HOLE
    else Inherited(s.cache, s.kv)[0]
  }

  /** Idle but for one request that is waiting. */
  ghost predicate Ready(s: Sys, r: Request) {
    && Asks(r) && s.pending == [r] && s.active == [] && s.jobs == map[] && s.freeSlots == [0]
    && s.pool.freeList != [] && Last(s.pool.freeList) < |s.pool.refs|
    && s.cache.freeDonors != [] && OnePrefix(s.cache, s.kv)
  }

  ghost predicate SamePrefix(c: CacheState, d: CacheState) {
    && (d.entries == map[] || d.entries.Keys == {2}) && (2 in d.entries <==> 2 in c.entries)
    && (2 in d.entries ==> d.entries[2].entry == c.entries[2].entry && d.entries[2].entry.sid != 0)
  }

  /** The request runs in slot 0, perhaps over a shared block. */
  ghost predicate Running(s: Sys, a: Sys, r: Request, t: Table, start: nat) {
    && Asks(r) && start == (if 2 in s.cache.entries then 1 else 0)
    && a == s.(pending := [], active := [0], freeSlots := [], jobs := map[0 := Job(r, At(r, start, start, NEW_GEN), t)],
               pool := a.pool, cache := a.cache, kv := a.kv)
    && t.blocks != [] && 0 in a.kv && a.kv[0] == SeqKv(DEFAULT_SAMPLING, Inherited(s.cache, s.kv))
    && a.cache.freeDonors == s.cache.freeDonors && SamePrefix(s.cache, a.cache)
    && |a.pool.freeList| == |s.pool.freeList| - 1
  }

  lemma TakeOne(p: Pool, t: Table)
    requires p.freeList != [] && Last(p.freeList) < |p.refs| && t == EMPTY_TABLE
    ensures EnsureCapacity(2, p, t, 2) == (Pool(DropLast(p.freeList), p.refs[Last(p.freeList) := 1]), Table([Last(p.freeList)], 2, 0, 0), true)
  {
    AllocOne(p);
    assert t.blocks + [Last(p.freeList)] == [Last(p.freeList)];
  }

  lemma Shared(mayFail: bool, s: Sys, job: Job, r: Request, start: nat) returns (t: Table)
    requires Asks(r) && job.req == r && job.st == At(r, 0, 0, NEW_GEN) && job.table.blocks != []
    requires 0 in s.kv && s.kv[0] == SeqKv(DEFAULT_SAMPLING, []) && OnePrefix(s.cache, s.kv)
    requires start == if 2 in s.cache.entries then 1 else 0
    ensures var (s2, j2) := SharePrefix(Small(mayFail), s, job);
      && j2 == Job(r, At(r, start, start, NEW_GEN), t) && t.blocks != []
      && 0 in s2.kv && s2.kv[0] == SeqKv(DEFAULT_SAMPLING, Inherited(s.cache, s.kv)) && s2.pool.freeList == s.pool.freeList
      && s2.cache.freeDonors == s.cache.freeDonors && SamePrefix(s.cache, s2.cache)
  {
    t := SharePrefix(Small(mayFail), s, job).1.table;
    assert MatchFrom(PICKY.hash, s.cache, job.st.prompt, 2, 0) == None;
    assert LongestMatch(PICKY.hash, s.cache, job.st.prompt, 2) == if 2 in s.cache.entries then Some(2) else None;
    if start == 1 {
      SharePrefixHit(Small(mayFail), s, job);
      IncrefKeepsFree(s.pool, s.cache.entries[2].entry.blocks);
    } else {
      SharePrefixMiss(Small(mayFail), s, job);
    }
  }

  lemma Admission(mayFail: bool, s: Sys, r: Request) returns (t: Table, start: nat)
    requires Ready(s, r)
    ensures Running(s, AdmitLoop(Small(mayFail), s), r, t, start)
  {
    start := if 2 in s.cache.entries then 1 else 0;
    var s1 := s.(kv := Begin(s.kv, 0, DEFAULT_SAMPLING));
    assert MakeRoom(Small(mayFail), s) == s1;
    var job := Job(r, At(r, 0, 0, NEW_GEN), EMPTY_TABLE);
    assert FrontJob(Small(mayFail), s1) == job;
    TakeOne(s1.pool, EMPTY_TABLE);
    var (q, grown, ok) := EnsureCapacity(2, s1.pool, EMPTY_TABLE, 2);
    t := Shared(mayFail, s1.(pool := q), job.(table := grown), r, start);
    Enrolled(mayFail, s, s1, r, q, grown, t, start);
  }

  lemma Enrolled(mayFail: bool, s: Sys, s1: Sys, r: Request, q: Pool, grown: Table, t: Table, start: nat)
    requires Ready(s, r) && s1 == s.(kv := Begin(s.kv, 0, DEFAULT_SAMPLING)) && MakeRoom(Small(mayFail), s) == s1 && start <= 1
    requires EnsureCapacity(2, s1.pool, EMPTY_TABLE, 2) == (q, grown, true) && FrontJob(Small(mayFail), s1) == Job(r, At(r, 0, 0, NEW_GEN), EMPTY_TABLE)
    requires SharePrefix(Small(mayFail), s1.(pool := q), Job(r, At(r, 0, 0, NEW_GEN), grown)).1 == Job(r, At(r, start, start, NEW_GEN), t)
    ensures var s2 := SharePrefix(Small(mayFail), s1.(pool := q), Job(r, At(r, 0, 0, NEW_GEN), grown)).0;
      AdmitLoop(Small(mayFail), s) == s2.(pending := [], active := [0], freeSlots := [], jobs := map[0 := Job(r, At(r, start, start, NEW_GEN), t)])
  {
    var a := Admit(Small(mayFail), s1).value;
    assert s.jobs[0 := Job(r, At(r, start, start, NEW_GEN), t)] == map[0 := Job(r, At(r, start, start, NEW_GEN), t)];
    assert AdmitFront(Small(mayFail), s) == (a, Admitted);
    assert a.pending == [] && AdmitLoop(Small(mayFail), a) == a;
  }

  function Rest(r: Request, start: nat): BatchItem
    requires Asks(r) && start <= 1
  {
    BatchItem(0, Pair(r)[start..], start, true)
  }

  /** The rest of the prompt goes out whole. */
  lemma Built(mayFail: bool, s: Sys, r: Request, t: Table, start: nat)
    requires Asks(r) && start <= 1 && s.active == [0] && s.jobs == map[0 := Job(r, At(r, start, start, NEW_GEN), t)]
    ensures Build(Small(mayFail), s) == ([Rest(r, start)], Whole(r, t, start, NEW_GEN))
  {
    var job := Job(r, At(r, start, start, NEW_GEN), t);
    var item, st := Rest(r, start), At(r, 2, start, NEW_GEN);
    var jobs := Whole(r, t, start, NEW_GEN);
    assert s.active[1..] == [];
    assert DecodeItems([], s.jobs, 2) == [];
    assert DecodeItems(s.active, s.jobs, 2) == [];
    assert job.st.prompt[start..2] == Pair(r)[start..];
    assert TakePrefillChunk(job.st, 2 - start) == (item, st);
    assert s.jobs[0 := job.(st := st)] == jobs;
    var (items, after) := PrefillItems(s.active[1..], jobs, start, 2);
    assert items == [] && after == jobs;
    assert PrefillItems(s.active, s.jobs, 2, 2) == ([item] + items, after);
    assert [] + ([item] + items) == [item];
  }

  /** What the prompt's rest makes of what was inherited. */
  lemma Written(s: Sys, r: Request, start: nat)
    requires Asks(r) && OnePrefix(s.cache, s.kv) && start == if 2 in s.cache.entries then 1 else 0
    ensures Write(Inherited(s.cache, s.kv), start, Rest(r, start).tokens) == [FirstSeen(s, r), Pair(r)[1]]
  {
    var cells := Inherited(s.cache, s.kv);
    if start == 1 {
      assert Rest(r, 1).tokens == [Pair(r)[1]];
      if cells == [] {
        assert cells + seq(1 - |cells|, i => HOLE) == [HOLE];
      }
    } else {
      assert Rest(r, 0).tokens == Pair(r);
    }
  }

  /** The pass leads from `a` to `b` and starves nobody; kept folded until it is mentioned. */
  ghost predicate Passes(mayFail: bool, a: Sys, o: Oracle, b: Sys) {
    forall x {:trigger Advance(Small(mayFail), a, x)} :: x == o ==> Advance(Small(mayFail), a, x) == (b, [])
  }

  /** It is answered with the end token. */
  lemma AnsweredAtOnce(mayFail: bool, s: Sys, a: Sys, r: Request, t: Table, start: nat, cells: seq<Token>, kv: Kv)
    requires Running(s, a, r, t, start) && OnePrefix(s.cache, s.kv) && FirstSeen(s, r) != 9
    requires cells == [FirstSeen(s, r), Pair(r)[1]] && kv == a.kv[0 := a.kv[0].(cells := cells)]
    ensures Passes(mayFail, a, CALM, a.(jobs := Whole(r, t, start, ANSWERED), kv := kv))
  {
    Built(mayFail, a, r, t, start);
    Written(s, r, start);
    assert Rest(r, start).pos0 + |Rest(r, start).tokens| == 2;
    DecodedOne(a.kv, Rest(r, start), kv);
    AnsweredOne(mayFail, a.(jobs := Whole(r, t, start, NEW_GEN), kv := kv), r, t, start);
    PassIs(mayFail, a, [Rest(r, start)], Whole(r, t, start, NEW_GEN), kv, Whole(r, t, start, ANSWERED));
  }

  /** The parts of a pass put together. */
  lemma PassIs(mayFail: bool, a: Sys, items: seq<BatchItem>, jobs: map<SeqId, Job>, kv: Kv, done: map<SeqId, Job>)
    requires Build(Small(mayFail), a) == (items, jobs) && items != [] && 0 in jobs && SampledSids(items) == [0]
    requires Decode(PICKY, a.kv, items) == (kv, [GenStep(0, NextToken(5, true))])
    requires AcceptLoop(Small(mayFail), a.(jobs := jobs, kv := kv), [0], [GenStep(0, NextToken(5, true))], {}) == (a.(jobs := done, kv := kv), [])
    ensures Passes(mayFail, a, CALM, a.(jobs := done, kv := kv))
  {
  }

  /** Or the pass throws before it has written anything. */
  lemma Thrown(mayFail: bool, s: Sys, r: Request, t: Table, start: nat)
    requires Asks(r) && start <= 1 && s.active == [0] && s.jobs == map[0 := Job(r, At(r, start, start, NEW_GEN), t)]
    ensures Passes(mayFail, s, THROWS, s.(jobs := Whole(r, t, start, FAILED)))
  {
    Built(mayFail, s, r, t, start);
    assert FailAll(Whole(r, t, start, NEW_GEN)) == Whole(r, t, start, FAILED);
    assert Scramble(s.kv, Touched([Rest(r, start)]), map[]) == s.kv;
  }

  lemma DecodedOne(kv: Kv, item: BatchItem, after: Kv)
    requires item.sid == 0 && item.sample && 0 <= item.pos0 && item.pos0 + |item.tokens| == 2 && 0 in kv
    requires after == kv[0 := kv[0].(cells := Write(kv[0].cells, item.pos0, item.tokens))]
    requires |after[0].cells| == 2 && after[0].cells[0] != 9
    ensures Decode(PICKY, kv, [item]) == (after, [GenStep(0, NextToken(5, true))])
    ensures SampledSids([item]) == [0]
  {
    DecodeOne(PICKY, kv, item);
    assert WriteItem(kv, item) == after;
    assert after[0].cells[..2] == after[0].cells;
    assert SampledSids([item][1..]) == [];
    assert SampledSids([item]) == [0] + SampledSids([item][1..]);
  }

  lemma AnsweredOne(mayFail: bool, s: Sys, r: Request, t: Table, start: nat)
    requires Asks(r) && s.jobs == Whole(r, t, start, NEW_GEN)
    ensures AcceptLoop(Small(mayFail), s, [0], [GenStep(0, NextToken(5, true))], {}) == (s.(jobs := Whole(r, t, start, ANSWERED)), [])
  {
    var steps := [GenStep(0, NextToken(5, true))];
    var done := Whole(r, t, start, ANSWERED);
    assert s.jobs[0 := done[0]] == done;
    assert AcceptOne(Small(mayFail), s, 0, steps[0].next, false) == (s.(jobs := done), false);
    assert [0][1..] == [] && steps[1..] == [];
    var (after, starved) := AcceptLoop(Small(mayFail), s.(jobs := done), [0][1..], steps[1..], {});
    assert after == s.(jobs := done) && starved == [];
    assert AcceptLoop(Small(mayFail), s, [0], steps, {}) == (after, [] + starved);
    assert [] + starved == [];
  }

  lemma NothingToForget(c: CacheState, sid: SeqId)
    requires forall h :: h in c.entries ==> c.entries[h].entry.sid != sid
    ensures EvictSequence(c, sid) == c
  {
    assert DonorKeys(c, sid) == {};
    assert EvictSequence(c, sid).entries == c.entries;
    assert EvictSequence(c, sid).freeDonors == c.freeDonors;
  }

  /** What retiring the request leaves behind. */
  function Left(s: Sys, r: Request, t: Table, g: Gen): Sys
    requires s.cache.freeDonors != [] && t.blocks != []
  {
    var slot, b := Last(s.cache.freeDonors), t.blocks[0];
    s.(active := [], jobs := map[], freeSlots := s.freeSlots + [0],
       delivered := s.delivered + [Delivery(r, ResultOf(Finish(g), 2))],
       cache := Insert(s.cache.(freeDonors := DropLast(s.cache.freeDonors)), 2, Entry(slot, 2, [b], true)),
       pool := Free(Incref(s.pool, b), t.blocks),
       kv := Release(Copy(Begin(s.kv, slot, DEFAULT_SAMPLING), 0, slot, 2), 0),
       held := s.held[slot := [b]], orphans := s.orphans + Overwritten(s.cache, 2))
  }

  lemma Stored(mayFail: bool, s: Sys, j: Job, r: Request)
    requires Asks(r) && j.st.prompt == Pair(r) && s.cache.freeDonors != [] && j.table.blocks != []
    ensures var slot, b := Last(s.cache.freeDonors), j.table.blocks[0];
      RetainPrefix(Small(mayFail), s, j, false) == s.(
        cache := Insert(s.cache.(freeDonors := DropLast(s.cache.freeDonors)), 2, Entry(slot, 2, [b], true)),
        pool := Incref(s.pool, b), kv := Copy(Begin(s.kv, slot, DEFAULT_SAMPLING), j.st.sid, slot, 2),
        held := s.held[slot := [b]], orphans := s.orphans + Overwritten(s.cache, 2))
  {
    assert WholeBlocks(Small(mayFail), j) == 1 && PrefixTokens(Small(mayFail), j) == 2;
    assert j.st.prompt[..2] == Pair(r);
    assert PrefixKey(Small(mayFail), j) == 2;
    assert j.table.blocks[..1] == [j.table.blocks[0]];
    IncrefOne(s.pool, j.table.blocks[0]);
  }

  lemma Retired(mayFail: bool, s: Sys, r: Request, t: Table, start: nat, g: Gen)
    requires Asks(r) && s.active == [0] && s.cache.freeDonors != [] && t.blocks != []
    requires s.jobs == Whole(r, t, start, g) && g.finished && Unnamed(s.cache, 0)
    ensures Sweep(Small(mayFail), s, 0, {}) == Left(s, r, t, g)
  {
    RetiredOne(mayFail, s, r, t, start, g);
    var l := Left(s, r, t, g);
    assert Sweep(Small(mayFail), l, 0, {}) == l;
  }

  lemma RetiredOne(mayFail: bool, s: Sys, r: Request, t: Table, start: nat, g: Gen)
    requires Asks(r) && s.active == [0] && s.cache.freeDonors != [] && t.blocks != []
    requires s.jobs == Whole(r, t, start, g) && Unnamed(s.cache, 0)
    ensures RetireAt(Small(mayFail), s, 0, {}) == Left(s, r, t, g)
  {
    var j := s.jobs[0];
    NothingToForget(s.cache, 0);
    assert ForgetJob(s, 0) == s;
    Stored(mayFail, s, j, r);
    assert RemoveAt(s.active, 0) == [];
    assert s.jobs - {0} == map[];
  }

  lemma IncrefOne(p: Pool, b: BlockId)
    ensures IncrefAll(p, [b]) == Incref(p, b)
  {
    assert [b][1..] == [];
    assert IncrefAll(Incref(p, b), []) == Incref(p, b);
  }

  lemma Served(mayFail: bool, s: Sys, a: Sys, r: Request, t: Table, start: nat, kv: Kv, g: Gen, o: Oracle)
    requires Asks(r) && AdmitLoop(Small(mayFail), s) == a && a.active == [0] && o.copyFails == {}
    requires Advance(Small(mayFail), a, o) == (a.(jobs := Whole(r, t, start, g), kv := kv), []) && g.finished
    requires a.cache.freeDonors != [] && t.blocks != [] && Unnamed(a.cache, 0)
    ensures Work(Small(mayFail), s, o) == Left(a.(kv := kv), r, t, g)
  {
    var done := a.(jobs := Whole(r, t, start, g), kv := kv);
    Retired(mayFail, done, r, t, start, g);
    var l := Left(a.(kv := kv), r, t, g);
    assert Left(done, r, t, g) == l;
    assert ResolveAll(Small(mayFail), l, []) == l;
    assert Sweep(Small(mayFail), l, 0, {}) == l;
  }

  lemma {:induction false} FreeGrows(p: Pool, blocks: seq<BlockId>)
    ensures |Free(p, blocks).freeList| >= |p.freeList| && |Free(p, blocks).refs| == |p.refs|
    decreases |blocks|
  {
    if blocks != [] {
      FreeGrows(FreeOne(p, blocks[0]), blocks[1..]);
    }
  }

  /** What a round leaves behind; the donor's KV is `cells`. */
  ghost predicate AfterRound(s: Sys, w: Sys, cells: seq<Token>, d: Delivery) {
    && s.cache.freeDonors != []
    && w.active == [] && w.pending == [] && w.jobs == map[] && w.freeSlots == [0]
    && w.queue == s.queue && w.closed == s.closed && w.phase == s.phase
    && w.orphans == s.orphans + Overwritten(s.cache, 2) && w.delivered == s.delivered + [d] && w.accepted == s.accepted
    && w.cache.freeDonors == DropLast(s.cache.freeDonors)
    && |w.pool.freeList| >= |s.pool.freeList| - 1
    && w.cache.entries.Keys == {2} && Holds(w, Last(s.cache.freeDonors), cells)
  }

  /** The same, kept folded until the iteration is mentioned. */
  ghost predicate Leaves(mayFail: bool, s: Sys, o: Oracle, cells: seq<Token>, d: Delivery) {
    forall x {:trigger Work(Small(mayFail), s, x)} :: x == o ==> AfterRound(s, Work(Small(mayFail), s, x), cells, d)
  }

  /** The prefix of two tokens is stored in `slot`, whose KV is `cells`. */
  ghost predicate Holds(w: Sys, slot: SeqId, cells: seq<Token>) {
    && 2 in w.cache.entries && w.cache.entries[2].entry.retained
    && w.cache.entries[2].entry.sid == slot && w.cache.entries[2].entry.nTokens == 2
    && slot in w.kv && w.kv[slot].cells == cells
  }

  lemma RoundLeaves(s: Sys, a: Sys, b: Sys, r: Request, t: Table, start: nat, g: Gen)
    requires s.cache.freeDonors != [] && Last(s.cache.freeDonors) != 0 && Running(s, a, r, t, start) && b == a.(kv := b.kv)
    requires OnePrefix(s.cache, s.kv) && 0 in b.kv && |b.kv[0].cells| <= 2
    ensures AfterRound(s, Left(b, r, t, g), b.kv[0].cells, Delivery(r, ResultOf(Finish(g), 2)))
  {
    FreeGrows(Incref(a.pool, t.blocks[0]), t.blocks);
    var w := Left(b, r, t, g);
    assert w.cache.entries.Keys == a.cache.entries.Keys + {2} == {2};
    assert Overwritten(a.cache, 2) == Overwritten(s.cache, 2);
  }

  const AT_ONCE := Result("", Eos, 2, 0, NoFailure)

  /** One request from admission to its answer: its prefix takes a donor slot, and whatever
      donor held the same prefix before is orphaned. */
  lemma Round(mayFail: bool, s: Sys, r: Request)
    requires Ready(s, r) && Last(s.cache.freeDonors) != 0 && FirstSeen(s, r) != 9
    ensures Leaves(mayFail, s, CALM, [FirstSeen(s, r), Pair(r)[1]], Delivery(r, AT_ONCE))
  {
    var t, start := Admission(mayFail, s, r);
    RoundFrom(mayFail, s, AdmitLoop(Small(mayFail), s), r, t, start, [FirstSeen(s, r), Pair(r)[1]]);
  }

  lemma RoundFrom(mayFail: bool, s: Sys, a: Sys, r: Request, t: Table, start: nat, cells: seq<Token>)
    requires a == AdmitLoop(Small(mayFail), s) && Running(s, a, r, t, start) && s.cache.freeDonors != [] && Last(s.cache.freeDonors) != 0
    requires OnePrefix(s.cache, s.kv) && FirstSeen(s, r) != 9 && cells == [FirstSeen(s, r), Pair(r)[1]]
    ensures Leaves(mayFail, s, CALM, cells, Delivery(r, AT_ONCE))
  {
    var kv := a.kv[0 := a.kv[0].(cells := cells)];
    AnsweredAtOnce(mayFail, s, a, r, t, start, cells, kv);
    EndsAtOnce();
    assert Passes(mayFail, a, CALM, a.(jobs := Whole(r, t, start, ANSWERED), kv := kv));
    ServedLeaves(mayFail, s, a, r, t, start, kv, cells, ANSWERED, CALM, Delivery(r, AT_ONCE));
  }

  lemma EndsAtOnce()
    ensures ANSWERED.finished && ResultOf(Finish(ANSWERED), 2) == AT_ONCE
  {
    assert EmittedText(Finish(ANSWERED)) == "";
  }

  lemma NamesOthers(c: CacheState, d: CacheState)
    requires SamePrefix(c, d)
    ensures Unnamed(d, 0)
  {
    forall h | h in d.entries
      ensures d.entries[h].entry.sid != 0
    {
      assert h in d.entries.Keys;
    }
  }

  lemma ServedLeaves(mayFail: bool, s: Sys, a: Sys, r: Request, t: Table, start: nat, kv: Kv, cells: seq<Token>, g: Gen, o: Oracle, d: Delivery)
    requires AdmitLoop(Small(mayFail), s) == a && Running(s, a, r, t, start) && OnePrefix(s.cache, s.kv) && o.copyFails == {}
    requires s.cache.freeDonors != [] && Last(s.cache.freeDonors) != 0 && d == Delivery(r, ResultOf(Finish(g), 2))
    requires Passes(mayFail, a, o, a.(jobs := Whole(r, t, start, g), kv := kv)) && g.finished
    requires 0 in kv && kv[0].cells == cells && |cells| <= 2
    ensures Leaves(mayFail, s, o, cells, d)
  {
    NamesOthers(s.cache, a.cache);
    Served(mayFail, s, a, r, t, start, kv, g, o);
    RoundLeaves(s, a, a.(kv := kv), r, t, start, g);
  }

  /** The same, but its pass throws. */
  lemma FailedRound(mayFail: bool, s: Sys, r: Request)
    requires Ready(s, r) && Last(s.cache.freeDonors) != 0 && s.cache.entries == map[]
    ensures Leaves(mayFail, s, THROWS, [], Delivery(r, ResultOf(Finish(FAILED), 2)))
  {
    var t, start := Admission(mayFail, s, r);
    var a := AdmitLoop(Small(mayFail), s);
    Thrown(mayFail, a, r, t, start);
    assert a.(kv := a.kv) == a;
    ServedLeaves(mayFail, s, a, r, t, start, a.kv, [], FAILED, THROWS, Delivery(r, ResultOf(Finish(FAILED), 2)));
  }

  /** The scheduler picks up a new request from an idle, reachable state. */
  lemma PickUp(env: Env, s: Sys, r: Request) returns (w: Sys)
    requires env.cfg.queueCapacity > 0 && Reachable(env, s) && s.phase == Taking && !s.closed && s.queue == [] && s.pending == [] && s.active == []
    ensures Reachable(env, w) && w == s.(accepted := s.accepted + [r], pending := [r], phase := Working)
  {
    ReachableNext(env, s, Push(r));
    var s1 := Next(env, s, Push(r));
    assert s1.queue == [r];
    ReachableNext(env, s1, Take);
    var s2 := Next(env, s1, Take);
    assert s2.pending == [r] && s2.queue == [];
    ReachableNext(env, s2, Take);
    w := Next(env, s2, Take);
  }

  lemma InPool(mayFail: bool, s: Sys)
    requires Reachable(Small(mayFail), s) && s.pool.freeList != []
    ensures Last(s.pool.freeList) < |s.pool.refs|
  {
    ReachableIsKept(Small(mayFail), s);
    assert Last(s.pool.freeList) in s.pool.freeList;
  }

  /** The same request, twice, one after the other: the second orphans the first's donor. */
  lemma RepeatedPromptOrphansADonor(mayFail: bool, r: Request) returns (s: Sys)
    requires r.spec == ASK
    ensures Reachable(Small(mayFail), s) && s.active == [] && s.pending == [] && s.queue == [] && s.phase == Taking && !s.closed
    ensures s.orphans == {1} && s.freeSlots == [0]
  {
    var s1 := FirstRequest(mayFail, r);
    Round(mayFail, s1, r);
    ReachableNext(Small(mayFail), s1, Step(CALM));
    s := SecondRound(mayFail, Next(Small(mayFail), s1, Step(CALM)), r);
  }

  /** From there on the pool is never whole again when idle, and a prompt that needs exactly
      the whole pool is turned away although nothing is running. The exact conditions are
      `IdleRestoresThePool` and `AdmissionIsExact`. */
  lemma ThenAPromptThatFitsIsRejected(mayFail: bool, r: Request, big: Request) returns (s: Sys)
    requires r.spec == ASK && big.spec == Spec("big", [], 1, DEFAULT_SAMPLING)
    ensures Reachable(Small(mayFail), s) && s.active == [] && s.pending == [big] && s.freeSlots != []
    ensures Want(Small(mayFail), s) == Small(mayFail).cfg.totalBlocks && AdmitFront(Small(mayFail), s).1.Rejected?
  {
    var s0 := RepeatedPromptOrphansADonor(mayFail, r);
    s := PickUp(Small(mayFail), s0, big);
    assert PromptOf(Small(mayFail), big) == [7, 8, 9, 7, 8, 9];
    OrphansStandInTheWay(Small(mayFail), s);
  }

  /** Idle, with an orphan: a prompt that needs the whole pool is rejected. */
  lemma OrphansStandInTheWay(env: Env, s: Sys)
    requires Reachable(env, s) && s.active == [] && s.orphans != {} && s.pending != [] && s.freeSlots != []
    requires Want(env, s) == env.cfg.totalBlocks && !Finished(FrontJob(env, s))
    ensures AdmitFront(env, s).1.Rejected?
  {
    ReachableIsKept(env, s);
    AdmissionInEveryRun(env, s);
    OnlyOrphansPin(env, s);
  }

  /** The system has picked up its first request. */
  lemma FirstRequest(mayFail: bool, r: Request) returns (s: Sys)
    requires Asks(r)
    ensures Reachable(Small(mayFail), s) && Ready(s, r) && s.cache.freeDonors == [2, 1] && s.cache.entries == map[] && s.delivered == [] && s.accepted == [r]
    ensures s.phase == Working && s.queue == [] && !s.closed && s.orphans == {} && |s.pool.freeList| == 3
  {
    ReachableStart(Small(mayFail));
    s := PickUp(Small(mayFail), InitSys(Small(mayFail)), r);
    assert s.freeSlots == [0];
    InPool(mayFail, s);
  }

  /** A second one, after the first has left its prefix in slot 1. */
  lemma SecondRound(mayFail: bool, w: Sys, r: Request) returns (s: Sys)
    requires Reachable(Small(mayFail), w) && Asks(r) && w.active == [] && w.pending == [] && w.jobs == map[] && w.freeSlots == [0]
    requires w.queue == [] && !w.closed && w.phase == Taking && w.cache.freeDonors == [2] && |w.pool.freeList| >= 2
    requires OnePrefix(w.cache, w.kv) && 2 in w.cache.entries && FirstSeen(w, r) != 9
    ensures Reachable(Small(mayFail), s) && s.active == [] && s.pending == [] && s.queue == [] && s.phase == Taking && !s.closed
    ensures s.freeSlots == [0] && s.orphans == w.orphans + Overwritten(w.cache, 2) && s.delivered == w.delivered + [Delivery(r, AT_ONCE)]
    ensures s.accepted == w.accepted + [r]
  {
    var s2 := PickUp(Small(mayFail), w, r);
    InPool(mayFail, s2);
    Round(mayFail, s2, r);
    ReachableNext(Small(mayFail), s2, Step(CALM));
    s := Next(Small(mayFail), s2, Step(CALM));
  }

  /** What the request asking for [9, 8] is owed. */
  lemma OwedX()
    ensures ReferenceResult(PICKY, ASK_X) == Result("a", MaxTokens, 2, 1, NoFailure)
  {
    ReferenceIsExact(PICKY, ASK_X);
    assert Sampled(PICKY, ASK_X, 0) == [];
    assert PICKY.tokenize(ASK_X.prompt) + [] == [9, 8];
    assert Sampled(PICKY, ASK_X, 1) == [5];
    assert TextAfter(PICKY, ASK_X, 1) == "a";
    assert GoesOn(PICKY, ASK_X, 0);
    assert StopsAt(PICKY, ASK_X, 0) == StopsAt(PICKY, ASK_X, 1) == 1;
  }

  /* ---------------- a failed pass, then a donor ---------------- */

  /** A request whose only pass throws still leaves its prompt prefix in a donor slot, which
      holds none of it: a later hit inherits KV that was never computed. Exactly when a
      throwing pass does this is `FaultIsHarmlessIff`. */
  lemma FailedPassPoisonsTheCache(r: Request) returns (s: Sys)
    requires Asks(r)
    ensures Reachable(Small(true), s) && Holds(s, 1, []) && s.cache.entries.Keys == {2} && s.cache.freeDonors == [2] && |s.pool.freeList| >= 2 && s.accepted == [r]
    ensures s.active == [] && s.pending == [] && s.jobs == map[] && s.freeSlots == [0] && s.queue == [] && !s.closed && s.phase == Taking
  {
    var s1 := FirstRequest(true, r);
    FailedRound(true, s1, r);
    ReachableNext(Small(true), s1, Step(THROWS));
    s := Next(Small(true), s1, Step(THROWS));
  }

  /** AND A LATER ANSWER IS WRONG. Asked again, without any further fault, the same question gets
      an answer, by its own end, that is not the reference; no hashes collide. */
  lemma FailedPassSpoilsALaterAnswer(r: Request) returns (s: Sys)
    requires r.spec == ASK_X
    ensures Reachable(Small(true), s) && s.delivered != [] && Last(s.delivered) == Delivery(r, AT_ONCE)
    ensures CollisionFree(Small(true), s.accepted) && OwnEnd(AT_ONCE.reason) && AT_ONCE != ReferenceResult(Small(true).be, r.spec)
  {
    var w := FailedPassPoisonsTheCache(r);
    s := SecondRound(true, w, r);
    OwedX();
  }

  /* ---------------- a hash collision ---------------- */

  /** Two prompts of two tokens whose hashes agree: the second is handed the first's KV. With a
      hash that separates the prompts in play this cannot happen (`HitsAreSound`). */
  lemma CollisionSharesTheWrongPrefix(mayFail: bool, r: Request, other: Request) returns (s: Sys)
    requires r.spec == ASK && other.spec == ASK_X
    ensures Reachable(Small(mayFail), s) && Holds(s, 1, PromptOf(Small(mayFail), r)) && s.cache.entries.Keys == {2}
    ensures s.cache.freeDonors == [2] && |s.pool.freeList| >= 2
    ensures s.active == [] && s.pending == [] && s.jobs == map[] && s.freeSlots == [0] && s.queue == [] && !s.closed && s.phase == Taking
    ensures var hit := LongestMatch(Small(mayFail).be.hash, s.cache, PromptOf(Small(mayFail), other), 2);
      && hit.Some? && s.cache.entries[hit.value].entry.sid in s.kv
      && s.kv[s.cache.entries[hit.value].entry.sid].cells != PromptOf(Small(mayFail), other)
  {
    var s1 := FirstRequest(mayFail, r);
    Round(mayFail, s1, r);
    ReachableNext(Small(mayFail), s1, Step(CALM));
    s := Next(Small(mayFail), s1, Step(CALM));
    assert [FirstSeen(s1, r), Pair(r)[1]] == Pair(r);
    assert Pair(other)[..2] == Pair(other);
    assert LongestMatch(Small(mayFail).be.hash, s.cache, Pair(other), 2) == Some(2);
  }

  /** AND ITS ANSWER IS WRONG. In a run in which no pass can throw the second is answered, by its own end,
      as the first would be. */
  lemma CollisionSpoilsAnAnswer(r: Request, other: Request) returns (s: Sys)
    requires r.spec == ASK && other.spec == ASK_X
    ensures Reachable(Small(false), s) && s.delivered != [] && Last(s.delivered) == Delivery(other, AT_ONCE)
    ensures OwnEnd(AT_ONCE.reason) && AT_ONCE != ReferenceResult(Small(false).be, other.spec)
  {
    var w := CollisionSharesTheWrongPrefix(false, r, other);
    s := SecondRound(false, w, other);
    OwedX();
  }

  /* ---------------- a failed copy loses its slot ---------------- */

  /** When the retaining copy throws, the donor slot is meant to go back to the free donors.
      Whenever a sequence retires in any run it does not, because no entry names it yet. */
  lemma FailedCopyLosesTheSlot(env: Env, s: Sys, o: Oracle, p: Sys, i: nat)
    requires Reachable(env, s) && (p, i) in Retirements(env, s, o)
    ensures i < |p.active| && p.active[i] in p.jobs
    ensures var j, room := p.jobs[p.active[i]], MakeDonorRoom(ForgetJob(p, p.active[i]));
      Retainable(env, j) && j.req.id in o.copyFails && room.cache.freeDonors != [] ==>
        var r, slot := RetireAt(env, p, i, o.copyFails), Last(room.cache.freeDonors);
        r.cache.freeDonors == DropLast(room.cache.freeDonors) && slot !in r.cache.freeDonors && slot !in r.held && slot in r.lost
  {
    ReachableIsWellFormed(env, s);
    RetirementsSound(env, s, o, (p, i));
    assert Wf(env, p, {});
    DonorRoomSound(env, p, p.active[i]);
    var room := MakeDonorRoom(ForgetJob(p, p.active[i]));
    if room.cache.freeDonors != [] {
      SlotIsLost(env, room);
    }
  }

  lemma SlotIsLost(env: Env, s: Sys)
    requires Sound(env, s, {}) && s.cache.freeDonors != []
    ensures var slot := Last(s.cache.freeDonors);
      LoseDonorSlot(s).cache.freeDonors == DropLast(s.cache.freeDonors) && slot !in DropLast(s.cache.freeDonors) && slot !in s.held
  {
    assert Wf(env, s, {}) && Last(s.cache.freeDonors) in s.cache.freeDonors;
    LoseDonorSlotWf(env, s);
  }

  /* ---------------- the context check ---------------- */

  /** The check rejects exactly the requests that do not fit their context, if and only if the
      32-bit sum it compares does not wrap to something that fits. */
  lemma ContextCheckIsExactIff(env: Env, req: Request, slot: SeqId)
    requires 0 < env.cfg.nCtxSeq < U32 && |PromptOf(env, req)| < U32 && req.spec.maxTokens < U32
    ensures var total := |PromptOf(env, req)| + req.spec.maxTokens;
      (Finished(MakeJob(env, req, slot)) <==> total > env.cfg.nCtxSeq)
      <==> !(U32 <= total <= U32 + env.cfg.nCtxSeq)
  {
    var total := |PromptOf(env, req)| + req.spec.maxTokens;
    if total >= U32 {
      assert total % U32 == total - U32;
    }
  }

  /** The largest token budget a request can name passes a context of one token. */
  lemma WrappedBudgetIsAdmitted(req: Request)
    requires req.spec == Spec("", [], U32 - 1, DEFAULT_SAMPLING)
    ensures !Finished(MakeJob(Small(false).(cfg := Small(false).cfg.(nCtxSeq := 1)), req, 0))
  {
  }

  /* ---------------- counting blocks ---------------- */

  /** The block count as the code computes it, in 32 bits. */
  function BlocksFor32(blockSize: nat, tokens: nat): nat
    requires blockSize > 0
  {
    (tokens + blockSize - 1) % U32 / blockSize
  }

  /** It is the ceiling, which the rest of the model uses, if and only if the rounding sum does
      not wrap. */
  lemma BlockCountIsCeilingIff(blockSize: nat, tokens: nat)
    requires 0 < blockSize < U32 && tokens < U32
    ensures BlocksFor32(blockSize, tokens) == BlocksFor(blockSize, tokens) <==> tokens + blockSize - 1 < U32
  {
    var sum := tokens + blockSize - 1;
    if sum >= U32 {
      assert sum % U32 == sum - U32;
      FewerBlocks(blockSize, sum, U32);
    }
  }

  lemma FewerBlocks(d: nat, n: nat, less: nat)
    requires 0 < d <= less <= n
    ensures (n - less) / d < n / d
  {
    var q, r := n / d, (n - less) / d;
    assert n < q * d + d && r * d <= n - less;
    if r >= q {
      ScaleOrder(q, r, d);
      assert false;
    }
  }

  /* ---------------- sharing ---------------- */

  /** A prefix hit saves prefill work but no blocks: the whole prompt's blocks are reserved
      before the shared ones are added, hit or no hit. */
  lemma SharingSavesNoBlocks(env: Env, s: Sys)
    requires s.pending != [] && s.freeSlots != [] && Wf(env, s, {Last(s.freeSlots)})
    requires Admit(env, s).Some? && !Finished(FrontJob(env, s))
    ensures |Admit(env, s).value.pool.freeList| == |s.pool.freeList| - BlocksFor(env.cfg.blockSize, |FrontJob(env, s).st.prompt|)
  {
    AdmitEffect(env, s);
    assert FrontJob(env, s).st.prompt == PromptOf(env, s.pending[0]);
  }

  /* ---------------- an empty prompt ---------------- */

  /** `generate_one` prefills an empty prompt at position 0. The continuous loop takes it to be
      prefilled already and feeds back a token that was never sampled, at position -1. */
  lemma EmptyPromptIsFedAtMinusOne(env: Env, s: Sys, k: SeqId)
    requires s.active == [k] && k in s.jobs && s.jobs[k].st == NewState(k, s.jobs[k].req.spec, [])
    ensures Build(env, s) == ([BatchItem(k, [0], -1, true)], s.jobs)
  {
    var item := DecodeItem(s.jobs[k].st);
    assert s.active[1..] == [];
    assert DecodeItems(s.active[1..], s.jobs, env.cfg.nBatch - 1) == [];
    assert DecodeItems(s.active, s.jobs, env.cfg.nBatch) == [item] + DecodeItems(s.active[1..], s.jobs, env.cfg.nBatch - 1);
    assert [item] + [] == [item];
    assert PrefillItems(s.active[1..], s.jobs, env.cfg.nBatch - 1, ChunkCap(env.cfg)) == ([], s.jobs);
    assert PrefillItems(s.active, s.jobs, env.cfg.nBatch - 1, ChunkCap(env.cfg)) == ([], s.jobs);
  }

  /** THE FIRST STEP SEES THE PROMPT EXACTLY WHEN THERE IS ONE. In every run without hash
      collision whose throwing iterations poison nothing, the first token of a sequence is
      sampled from its own prompt, as `generate_one` samples it, if and only if the prompt is
      not empty. */
  lemma FirstStepSeesItsPromptIff(env: Env, run: seq<Sys>, events: seq<Event>, i: nat)
    requires IsRun(env, run, events) && FaultsAreContained(env, run, events) && CollisionFree(env, Last(run).accepted)
    requires var (items, jobs) := Build(env, AdmitLoop(env, Last(run)));
      i < |items| && items[i].sample && (items[i].sid in jobs ==> jobs[items[i].sid].st.gen.completion == 0)
    ensures var s := AdmitLoop(env, Last(run));
      var (items, jobs) := Build(env, s);
      var kv := Decode(env.be, s.kv, items).0;
      && items[i].sid in jobs && items[i].sid in kv
      && (HistoryAt(kv, items[i]) == jobs[items[i].sid].st.prompt <==> jobs[items[i].sid].st.prompt != [])
  {
    EveryRunIsWellFormed(env, run, events);
    EveryRunIsInSync(env, run, events);
    AdmitLoopSync(env, Last(run));
    FirstStepHistory(env, AdmitLoop(env, Last(run)), i);
  }

  lemma FirstStepHistory(env: Env, s: Sys, i: nat)
    requires Healthy(env, s)
    requires var (items, jobs) := Build(env, s);
      i < |items| && items[i].sample && (items[i].sid in jobs ==> jobs[items[i].sid].st.gen.completion == 0)
    ensures var (items, jobs) := Build(env, s);
      var kv := Decode(env.be, s.kv, items).0;
      && items[i].sid in jobs && items[i].sid in kv
      && (HistoryAt(kv, items[i]) == jobs[items[i].sid].st.prompt <==> jobs[items[i].sid].st.prompt != [])
  {
    assert Wf(env, s, {});
    BuildWf(env, s);
    var (items, jobs) := Build(env, s);
    HistoryInBatch(env, s, items, jobs, i);
  }

  lemma HistoryInBatch(env: Env, s: Sys, items: seq<BatchItem>, jobs: map<SeqId, Job>, i: nat)
    requires ItemsFit(s.active, s.jobs, jobs, items) && JobsSync(env, s.jobs, s.kv)
    requires i < |items| && items[i].sample && (items[i].sid in jobs ==> jobs[items[i].sid].st.gen.completion == 0)
    ensures var kv := Decode(env.be, s.kv, items).0;
      && items[i].sid in jobs && items[i].sid in kv
      && (HistoryAt(kv, items[i]) == jobs[items[i].sid].st.prompt <==> jobs[items[i].sid].st.prompt != [])
  {
    var item := items[i];
    assert ItemFits(s.jobs, jobs, item);
    DecodeIsPerSequence(env.be, s.kv, items, i);
    ItemHistory(env, s.jobs[item.sid], jobs[item.sid], s.kv[item.sid], item);
  }

  /** The item of a job whose first token is due, over the KV it finds. */
  lemma ItemHistory(env: Env, j: Job, j': Job, c: SeqKv, item: BatchItem)
    requires JobSync(env, j, c) && ItemFits(map[item.sid := j], map[item.sid := j'], item) && item.sample && j.st.gen.completion == 0
    ensures var kv := map[item.sid := c.(cells := Write(c.cells, item.pos0, item.tokens))];
      HistoryAt(kv, item) == j.st.prompt <==> j.st.prompt != []
  {
    if j.st.prompt != [] {
      ItemLands(env, j, c, item);
      assert j.st.prompt[..|j.st.prompt|] == j.st.prompt;
    }
  }

  /** A model that ends as soon as it has seen a token, and a tokenizer that yields none. */
  const TALKS_ONCE := Backend.Backend((s, h) => NextToken(5, h != []), t => "", p => [], t => 0)
  const BARE := Env(Config(1, 1, 0, 1, 0, 0, false, 0, 8), TALKS_ONCE, false)

  lemma EmptyAdmission(s: Sys, r: Request)
    requires r.spec == ASK && s.pending == [r] && s.active == [] && s.jobs == map[] && s.freeSlots == [0] && s.cache.entries == map[]
    ensures var a := AdmitLoop(BARE, s);
      a == s.(pending := [], active := [0], freeSlots := [], jobs := map[0 := Job(r, NewState(0, ASK, []), EMPTY_TABLE)], kv := Begin(s.kv, 0, DEFAULT_SAMPLING))
  {
    var s1 := s.(kv := Begin(s.kv, 0, DEFAULT_SAMPLING));
    assert MakeRoom(BARE, s) == s1;
    var job := Job(r, NewState(0, ASK, []), EMPTY_TABLE);
    assert FrontJob(BARE, s1) == job;
    assert EnsureCapacity(1, s1.pool, EMPTY_TABLE, 0) == (s1.pool, EMPTY_TABLE, true);
    var a := Enroll(s1, job);
    assert Admit(BARE, s1) == Some(a);
    assert AdmitFront(BARE, s) == (a, Admitted);
    assert a.pending == [] && AdmitLoop(BARE, a) == a;
    assert a.jobs == map[0 := job];
  }

  lemma EmptyPass(s: Sys, r: Request)
    requires r.spec == ASK && s.active == [0] && s.jobs == map[0 := Job(r, NewState(0, ASK, []), EMPTY_TABLE)]
    requires 0 in s.kv && s.kv[0] == SeqKv(DEFAULT_SAMPLING, [])
    ensures Advance(BARE, s, CALM) == (s.(jobs := map[0 := Job(r, NewState(0, ASK, []).(gen := ANSWERED), EMPTY_TABLE)]), [])
  {
    EmptyPromptIsFedAtMinusOne(BARE, s, 0);
    var item := BatchItem(0, [0], -1, true);
    DecodeOne(TALKS_ONCE, s.kv, item);
    assert WriteItem(s.kv, item) == s.kv;
    var steps := [GenStep(0, NextToken(5, true))];
    assert Decode(TALKS_ONCE, s.kv, [item]) == (s.kv, steps);
    assert [item][1..] == [] && SampledSids([item][1..]) == [];
    assert SampledSids([item]) == [0] + SampledSids([item][1..]);
    var done := s.(jobs := map[0 := Job(r, NewState(0, ASK, []).(gen := ANSWERED), EMPTY_TABLE)]);
    assert s.jobs[0 := done.jobs[0]] == done.jobs;
    assert AcceptOne(BARE, s, 0, steps[0].next, false) == (done, false);
    assert [0][1..] == [] && steps[1..] == [];
    var (after, starved) := AcceptLoop(BARE, done, [0][1..], steps[1..], {});
    assert after == done && starved == [];
    assert AcceptLoop(BARE, s, [0], steps, {}) == (after, [] + starved);
  }

  lemma EmptyRetired(s: Sys, r: Request)
    requires s.active == [0] && s.jobs == map[0 := Job(r, NewState(0, ASK, []).(gen := ANSWERED), EMPTY_TABLE)]
    ensures var w := Sweep(BARE, s, 0, {});
      w.active == [] && w.delivered == s.delivered + [Delivery(r, ResultOf(Finish(ANSWERED), 0))]
  {
    var w := RetireAt(BARE, s, 0, {});
    assert w.active == [];
    assert Sweep(BARE, w, 0, {}) == w;
  }

  /** AND AN EMPTY PROMPT IS ANSWERED DIFFERENTLY. A reachable answer, by the request's own end,
      with no token where `generate_one` gives one. */
  lemma EmptyPromptIsAnsweredDifferently(r: Request) returns (s: Sys)
    requires r.spec == ASK
    ensures Reachable(BARE, s) && s.delivered == [Delivery(r, Result("", Eos, 0, 0, NoFailure))]
    ensures ReferenceResult(BARE.be, r.spec) == Result("", Eos, 0, 1, NoFailure)
  {
    ReachableStart(BARE);
    var w := PickUp(BARE, InitSys(BARE), r);
    EmptyAdmission(w, r);
    var a := AdmitLoop(BARE, w);
    EmptyPass(a, r);
    var done := Advance(BARE, a, CALM).0;
    EmptyRetired(done, r);
    var swept := Sweep(BARE, done, 0, {});
    assert ResolveAll(BARE, swept, []) == swept && Sweep(BARE, swept, 0, {}) == swept;
    ReachableNext(BARE, w, Step(CALM));
    s := Next(BARE, w, Step(CALM));
    TalksOnce();
  }

  lemma TalksOnce()
    ensures ReferenceResult(TALKS_ONCE, ASK) == Result("", Eos, 0, 1, NoFailure)
  {
    ReferenceIsExact(TALKS_ONCE, ASK);
    assert Sampled(TALKS_ONCE, ASK, 0) == [];
    assert Sampled(TALKS_ONCE, ASK, 1) == [5];
    assert TextAfter(TALKS_ONCE, ASK, 1) == "";
    assert GoesOn(TALKS_ONCE, ASK, 0);
    assert StopsAt(TALKS_ONCE, ASK, 0) == StopsAt(TALKS_ONCE, ASK, 1) == 1;
  }
}
