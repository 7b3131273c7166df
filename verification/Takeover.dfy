/** A run in which a prefix stops being findable although the first sequence to publish it still
    runs (src/core/scheduler.cpp:549-567, 591-633): two sequences with the same prompt run side
    by side, the second takes the cache entry over, and when blocks run out it is preempted. */
module Takeover {
  import opened Types
  import opened Sequence
  import opened BlockPool
  import opened Cache
  import opened Engine
  import opened Scheduling
  import opened Invariants
  import opened Runs
  import opened Persistence

  /** A model that never ends by itself, prompts of one token, two slots and four blocks of one
      token each. */
  const CHATTY := Backend.Backend((s, h) => NextToken(5, false), t => "", p => [7], t => |t|)
  const TWIN := Env(Config(2, 2, 0, 1, 4, 0, true, 0, 8), CHATTY, false)
  const TALK := Spec("", [], 5, DEFAULT_SAMPLING)
  const QUIETLY := Oracle({}, {}, None)

  function Said(g: Gen): Gen {
    Accept(CHATTY.piece, TALK, g, NextToken(5, false), false)
  }

  const ONE := Said(NEW_GEN)
  const TWO := Said(ONE)

  lemma SaysOn()
    ensures !ONE.finished && ONE.completion == 1 && ONE.pending == 5
    ensures !TWO.finished && TWO.completion == 2 && TWO.pending == 5
  {
  }

  /** A running sequence with `k` blocks. */
  ghost predicate Talks(j: Job, r: Request, sid: SeqId, prefilled: nat, g: Gen, k: nat) {
    && r.spec == TALK && j.req == r && prefilled <= 1
    && j.st == NewState(sid, TALK, [7]).(prefilled := prefilled, gen := g) && |j.table.blocks| == k
  }

  function Cells(cells: seq<Token>): Kv {
    map[0 := SeqKv(DEFAULT_SAMPLING, cells), 1 := SeqKv(DEFAULT_SAMPLING, cells)]
  }

  /** Both run, at the same point, with `free` blocks left. */
  ghost predicate BothTalk(s: Sys, r: Request, q: Request, prefilled: nat, g: Gen, k: nat, free: nat, cells: seq<Token>) {
    && s.active == [0, 1] && s.pending == [] && s.freeSlots == [] && s.jobs.Keys == {0, 1}
    && Talks(s.jobs[0], r, 0, prefilled, g, k) && Talks(s.jobs[1], q, 1, prefilled, g, k)
    && |s.pool.freeList| == free && |s.pool.refs| == 4 && s.kv == Cells(cells)
  }

  /* ---------------- both are admitted ---------------- */

  lemma OneMoreBlock(p: Pool, t: Table, n: nat)
    requires p.freeList != [] && n == |t.blocks| + 1
    ensures var (q, u, ok) := EnsureCapacity(1, p, t, n);
      ok && |u.blocks| == n && |q.freeList| == |p.freeList| - 1 && |q.refs| == |p.refs|
  {
    AllocOne(p);
  }

  lemma NoMoreBlocks(p: Pool, t: Table, n: nat)
    requires p.freeList == [] && n > |t.blocks|
    ensures EnsureCapacity(1, p, t, n) == (p, t, false)
  {
  }

  /** A request waits in front, and its slot is the next free one. */
  ghost predicate WaitsFor(s: Sys, r: Request, slot: SeqId) {
    && r.spec == TALK && s.pending != [] && s.pending[0] == r && s.freeSlots != [] && Last(s.freeSlots) == slot
    && s.cache.entries == map[] && |s.pool.freeList| >= 1 + Headroom(s)
  }

  lemma AdmitOne(s: Sys, r: Request, slot: SeqId) returns (j: Job, a: Sys)
    requires WaitsFor(s, r, slot)
    ensures AdmitFront(TWIN, s) == (a, Admitted) && Talks(j, r, slot, 0, NEW_GEN, 1)
    ensures a == s.(pending := s.pending[1..], freeSlots := DropLast(s.freeSlots), active := s.active + [slot], jobs := s.jobs[slot := j],
                    kv := Begin(s.kv, slot, DEFAULT_SAMPLING), pool := a.pool)
    ensures |a.pool.freeList| == |s.pool.freeList| - 1 && |a.pool.refs| == |s.pool.refs|
  {
    var s1 := s.(kv := Begin(s.kv, slot, DEFAULT_SAMPLING));
    assert MakeRoom(TWIN, s) == s1;
    var job := FrontJob(TWIN, s1);
    OneMoreBlock(s1.pool, EMPTY_TABLE, 1);
    var (p, t, ok) := EnsureCapacity(1, s1.pool, EMPTY_TABLE, 1);
    j := job.(table := t);
    SharePrefixMiss(TWIN, s1.(pool := p), j);
    assert SharePrefix(TWIN, s1.(pool := p), j) == (s1.(pool := p), j);
    a := Admit(TWIN, s1).value;
  }

  lemma AdmitBoth(s: Sys, r: Request, q: Request)
    requires r.spec == TALK && q.spec == TALK && s.pending == [r, q] && s.active == [] && s.jobs == map[] && s.freeSlots == [1, 0]
    requires |s.pool.freeList| == 4 == |s.pool.refs| && s.cache.entries == map[] && s.kv == map[]
    ensures var a := AdmitLoop(TWIN, s);
      BothTalk(a, r, q, 0, NEW_GEN, 1, 2, []) && a == s.(pending := [], active := [0, 1], freeSlots := [], jobs := a.jobs, kv := a.kv, pool := a.pool)
  {
    var j, a := AdmitOne(s, r, 0);
    assert a.pending == [q] && a.freeSlots == [1] && a.active == [0];
    var i, b := AdmitOne(a, q, 1);
    assert b.pending == [] && b.freeSlots == [] && b.active == [0, 1];
    assert b.kv == Cells([]);
    assert AdmitLoop(TWIN, b) == b;
    assert AdmitLoop(TWIN, a) == b;
  }

  /* ---------------- a pass over both ---------------- */

  function Items(token: Token, pos0: int): seq<BatchItem> {
    [BatchItem(0, [token], pos0, true), BatchItem(1, [token], pos0, true)]
  }

  lemma Tails()
    ensures [0, 1][1..] == [1] && [1][1..] == []
  {
  }

  lemma BuiltPrompts(s: Sys, r: Request, q: Request)
    requires BothTalk(s, r, q, 0, NEW_GEN, 1, 2, [])
    ensures var (items, jobs) := Build(TWIN, s);
      items == Items(7, 0) && BothTalk(s.(jobs := jobs), r, q, 1, NEW_GEN, 1, 2, [])
  {
    Tails();
    assert DecodeItems([1], s.jobs, 2) == DecodeItems([], s.jobs, 2) == [];
    assert DecodeItems([0, 1], s.jobs, 2) == [];
    assert [7][0..1] == [7];
    var a, b := s.jobs[0], s.jobs[1];
    var mid := s.jobs[0 := a.(st := a.st.(prefilled := 1))];
    var end := mid[1 := b.(st := b.st.(prefilled := 1))];
    assert TakePrefillChunk(a.st, 1) == (Items(7, 0)[0], a.st.(prefilled := 1));
    assert TakePrefillChunk(b.st, 1) == (Items(7, 0)[1], b.st.(prefilled := 1));
    assert PrefillItems([], end, 0, 2) == ([], end);
    assert [Items(7, 0)[1]] + [] == [Items(7, 0)[1]];
    assert PrefillItems([1], mid, 1, 2) == ([Items(7, 0)[1]], end);
    assert [Items(7, 0)[0]] + [Items(7, 0)[1]] == Items(7, 0);
    assert PrefillItems([0, 1], s.jobs, 2, 2) == (Items(7, 0), end);
    assert [] + Items(7, 0) == Items(7, 0);
  }

  lemma BuiltDecodes(s: Sys, r: Request, q: Request)
    requires BothTalk(s, r, q, 1, ONE, 2, 0, [7])
    ensures Build(TWIN, s) == (Items(5, 1), s.jobs)
  {
    Tails();
    SaysOn();
    assert DecodeItems([], s.jobs, 0) == [];
    assert [Items(5, 1)[1]] + [] == [Items(5, 1)[1]];
    assert DecodeItems([1], s.jobs, 1) == [Items(5, 1)[1]];
    assert [Items(5, 1)[0]] + [Items(5, 1)[1]] == Items(5, 1);
    assert DecodeItems([0, 1], s.jobs, 2) == Items(5, 1);
    assert PrefillItems([1], s.jobs, 0, 2) == ([], s.jobs);
    assert PrefillItems([0, 1], s.jobs, 0, 2) == ([], s.jobs);
    assert Items(5, 1) + [] == Items(5, 1);
  }

  const STEPS := [GenStep(0, NextToken(5, false)), GenStep(1, NextToken(5, false))]

  lemma DecodedBoth(cells: seq<Token>, token: Token)
    ensures Decode(CHATTY, Cells(cells), Items(token, |cells|)) == (Cells(cells + [token]), STEPS)
    ensures SampledSids(Items(token, |cells|)) == [0, 1]
  {
    var items := Items(token, |cells|);
    var a, b := items[0], items[1];
    WriteBehind(cells, [token]);
    var kv1 := Cells(cells)[0 := SeqKv(DEFAULT_SAMPLING, cells + [token])];
    assert WriteItem(Cells(cells), a) == kv1;
    assert WriteItem(kv1, b) == Cells(cells + [token]);
    DecodeOne(CHATTY, kv1, b);
    assert items[1..] == [b];
    assert [STEPS[0]] + [STEPS[1]] == STEPS;
    assert [b][1..] == [] && SampledSids([b]) == [1] + SampledSids([b][1..]);
    assert SampledSids(items) == [0] + SampledSids([b]);
  }

  /* ---------------- both publish, the second last ---------------- */

  /** The prefix is stored once, for `owner`. */
  ghost predicate PublishedBy(c: CacheState, owner: SeqId) {
    c.entries.Keys == {1} && Live(c, 1, 1) && c.entries[1].entry.sid == owner
  }

  /** What accepting a first token does to a running sequence. */
  lemma FirstToken(s: Sys, sid: SeqId, r: Request) returns (j: Job, a: Sys)
    requires sid in s.jobs && Talks(s.jobs[sid], r, sid, 1, NEW_GEN, 1) && s.pool.freeList != [] && s.cache.entries.Keys <= {1}
    ensures AcceptOne(TWIN, s, sid, NextToken(5, false), false) == (a, false)
    ensures Talks(j, r, sid, 1, ONE, 2) && PublishedBy(a.cache, sid)
    ensures a == s.(jobs := s.jobs[sid := j], pool := a.pool, cache := a.cache, orphans := a.orphans)
    ensures |a.pool.freeList| == |s.pool.freeList| - 1 && |a.pool.refs| == |s.pool.refs|
  {
    SaysOn();
    var j1 := SetGen(s.jobs[sid], ONE);
    OneMoreBlock(s.pool, j1.table, 2);
    var (p, t, ok) := EnsureCapacity(1, s.pool, j1.table, 2);
    j := j1.(table := t);
    var s1 := s.(pool := p, jobs := s.jobs[sid := j]);
    assert WholeBlocks(TWIN, j) == 1 && PrefixTokens(TWIN, j) == 1 && PrefixKey(TWIN, j) == 1;
    a := Publish(TWIN, s1, sid);
  }

  /** What accepting a second one does when no block is left. */
  lemma SecondToken(s: Sys, sid: SeqId, r: Request) returns (j: Job)
    requires sid in s.jobs && Talks(s.jobs[sid], r, sid, 1, ONE, 2) && s.pool.freeList == []
    ensures AcceptOne(TWIN, s, sid, NextToken(5, false), false) == (s.(jobs := s.jobs[sid := j]), true)
    ensures Talks(j, r, sid, 1, TWO, 2)
  {
    SaysOn();
    j := SetGen(s.jobs[sid], TWO);
    NoMoreBlocks(s.pool, j.table, 3);
  }

  /** One token accepted, then the rest. */
  lemma AcceptThen(env: Env, s: Sys, sid: SeqId, next: NextToken, rest: seq<SeqId>, steps: seq<GenStep>, a: Sys, short: bool)
    requires sid in s.jobs && |rest| == |steps| && (forall i :: 0 <= i < |rest| ==> rest[i] in s.jobs)
    requires AcceptOne(env, s, sid, next, false) == (a, short)
    ensures var (b, starved) := AcceptLoop(env, a, rest, steps, {});
      AcceptLoop(env, s, [sid] + rest, [GenStep(sid, next)] + steps, {}) == (b, (if short then [sid] else []) + starved)
  {
    assert ([sid] + rest)[1..] == rest && ([GenStep(sid, next)] + steps)[1..] == steps;
  }

  /** Two tokens accepted one after the other. */
  lemma AcceptTwo(env: Env, s: Sys, x: SeqId, y: SeqId, next: NextToken, a: Sys, b: Sys, short: bool)
    requires x in s.jobs && y in s.jobs && AcceptOne(env, s, x, next, false) == (a, short)
    requires y in a.jobs && AcceptOne(env, a, y, next, false) == (b, short)
    ensures AcceptLoop(env, s, [x, y], [GenStep(x, next), GenStep(y, next)], {}) == (b, if short then [x, y] else [])
  {
    var first, second := GenStep(x, next), GenStep(y, next);
    AcceptThen(env, a, y, next, [], [], b, short);
    AcceptThen(env, s, x, next, [y], [second], a, short);
    assert [y] + [] == [y] && [second] + [] == [second];
    assert [x] + [y] == [x, y] && [first] + [second] == [first, second];
  }

  lemma AcceptFirstTokens(s: Sys, r: Request, q: Request)
    requires BothTalk(s, r, q, 1, NEW_GEN, 1, 2, [7]) && s.cache.entries == map[]
    ensures var (b, starved) := AcceptLoop(TWIN, s, [0, 1], STEPS, {});
      BothTalk(b, r, q, 1, ONE, 2, 0, [7]) && PublishedBy(b.cache, 1) && starved == []
      && b == s.(jobs := b.jobs, pool := b.pool, cache := b.cache, orphans := b.orphans)
  {
    var j, a := FirstToken(s, 0, r);
    var i, b := FirstToken(a, 1, q);
    AcceptTwo(TWIN, s, 0, 1, NextToken(5, false), a, b, false);
  }

  lemma AcceptSecondTokens(s: Sys, r: Request, q: Request)
    requires BothTalk(s, r, q, 1, ONE, 2, 0, [7, 5])
    ensures var (b, starved) := AcceptLoop(TWIN, s, [0, 1], STEPS, {});
      BothTalk(b, r, q, 1, TWO, 2, 0, [7, 5]) && starved == [0, 1] && b == s.(jobs := b.jobs)
  {
    var j := SecondToken(s, 0, r);
    var a := s.(jobs := s.jobs[0 := j]);
    var i := SecondToken(a, 1, q);
    AcceptTwo(TWIN, s, 0, 1, NextToken(5, false), a, a.(jobs := a.jobs[1 := i]), true);
  }

  /** The parts of a pass put together. */
  lemma PassIs(s: Sys, items: seq<BatchItem>, jobs: map<SeqId, Job>, kv: Kv, o: Oracle)
    requires Build(TWIN, s) == (items, jobs) && items != [] && 0 in jobs && 1 in jobs && SampledSids(items) == [0, 1]
    requires Decode(CHATTY, s.kv, items) == (kv, STEPS) && o.fault.None? && o.cancelled == {}
    ensures Advance(TWIN, s, o) == AcceptLoop(TWIN, s.(jobs := jobs, kv := kv), [0, 1], STEPS, {})
  {
  }

  lemma FirstPass(s: Sys, r: Request, q: Request, o: Oracle)
    requires BothTalk(s, r, q, 0, NEW_GEN, 1, 2, []) && s.cache.entries == map[] && o.fault.None? && o.cancelled == {}
    ensures var (b, starved) := Advance(TWIN, s, o);
      BothTalk(b, r, q, 1, ONE, 2, 0, [7]) && PublishedBy(b.cache, 1) && starved == []
      && b == s.(jobs := b.jobs, pool := b.pool, kv := b.kv, cache := b.cache, orphans := b.orphans)
  {
    BuiltPrompts(s, r, q);
    DecodedBoth([], 7);
    assert [] + [7] == [7];
    var jobs := Build(TWIN, s).1;
    PassIs(s, Items(7, 0), jobs, Cells([7]), o);
    AcceptFirstTokens(s.(jobs := jobs, kv := Cells([7])), r, q);
  }

  lemma SecondPass(s: Sys, r: Request, q: Request, o: Oracle)
    requires BothTalk(s, r, q, 1, ONE, 2, 0, [7]) && o.fault.None? && o.cancelled == {}
    ensures var (b, starved) := Advance(TWIN, s, o);
      BothTalk(b, r, q, 1, TWO, 2, 0, [7, 5]) && starved == [0, 1] && b == s.(jobs := b.jobs, kv := b.kv)
  {
    BuiltDecodes(s, r, q);
    DecodedBoth([7], 5);
    assert [7] + [5] == [7, 5];
    PassIs(s, Items(5, 1), s.jobs, Cells([7, 5]), o);
    AcceptSecondTokens(s.(kv := Cells([7, 5])), r, q);
  }

  /* ---------------- the second is preempted ---------------- */

  /** Nobody has finished, so nobody retires. */
  lemma {:induction false} NobodyDone(s: Sys, i: nat, copyFails: set<nat>)
    requires forall k :: k in s.jobs ==> !Finished(s.jobs[k])
    ensures Sweep(TWIN, s, i, copyFails) == s
    decreases |s.active| - i
  {
    if i < |s.active| {
      NobodyDone(s, i + 1, copyFails);
    }
  }

  /** No block is free and no donor can be given up. */
  lemma NoneLeft(s: Sys, needed: nat)
    requires 0 in s.jobs && s.pool.freeList == [] && needed > |s.jobs[0].table.blocks| && PublishedBy(s.cache, 1)
    ensures GrowTable(TWIN, s, 0, needed) == (s, false) && ReclaimFor(TWIN, s, 0, needed) == s
  {
    NoMoreBlocks(s.pool, s.jobs[0].table, needed);
    assert s.jobs[0 := s.jobs[0]] == s.jobs;
    assert !HasRetained(s.cache);
  }

  lemma PreemptSecond(s: Sys, needed: nat)
    requires s.active == [0, 1] && s.jobs.Keys == {0, 1} && !Finished(s.jobs[1])
    requires GrowTable(TWIN, s, 0, needed) == (s, false)
    ensures PreemptFor(TWIN, s, 0, needed) == PreemptFor(TWIN, PreemptAt(s, 1), 0, needed)
  {
    assert Victim(s.active, s.jobs, 0, 2) == Some(1);
  }

  /** Alone, the first keeps its place whether or not it can grow. */
  lemma AloneStays(s: Sys, needed: nat)
    requires s.active == [0] && s.jobs.Keys == {0}
    ensures var p := PreemptFor(TWIN, s, 0, needed);
      p.active == [0] && p.jobs.Keys == {0} && p.jobs[0].req == s.jobs[0].req && p.jobs[0].st == s.jobs[0].st && p.cache == s.cache
  {
    var grown := GrowTable(TWIN, s, 0, needed).0;
    assert Victim(grown.active, grown.jobs, 0, 1) == None;
  }

  lemma SecondIsPreempted(s: Sys, r: Request, q: Request)
    requires BothTalk(s, r, q, 1, TWO, 2, 0, [7, 5]) && PublishedBy(s.cache, 1)
    ensures var p := ResolveOne(TWIN, s, 0);
      p.active == [0] && p.jobs.Keys == {0} && p.jobs[0].req == r && p.jobs[0].st == s.jobs[0].st && 1 !in p.cache.entries
  {
    SaysOn();
    NoneLeft(s, 3);
    PreemptSecond(s, 3);
    var p := PreemptAt(s, 1);
    assert p.active == [0] && p.jobs.Keys == {0};
    AloneStays(p, 3);
  }

  /* ---------------- the run ---------------- */

  /** The parts of an iteration in which nobody finishes put together. */
  lemma IterationIs(env: Env, s: Sys, a: Sys, b: Sys, starved: seq<SeqId>, p: Sys, o: Oracle)
    requires AdmitLoop(env, s) == a && a.active != [] && Advance(env, a, o) == (b, starved)
    requires Sweep(env, b, 0, o.copyFails) == b && ResolveAll(env, b, starved) == p && Sweep(env, p, 0, o.copyFails) == p
    ensures Work(env, s, o) == p
  {
  }

  lemma FirstIteration(s: Sys, r: Request, q: Request, o: Oracle)
    requires r.spec == TALK && q.spec == TALK && s.pending == [r, q] && s.active == [] && s.jobs == map[] && s.freeSlots == [1, 0]
    requires |s.pool.freeList| == 4 == |s.pool.refs| && s.cache.entries == map[] && s.kv == map[] && o.fault.None? && o.cancelled == {}
    ensures var b := Work(TWIN, s, o);
      BothTalk(b, r, q, 1, ONE, 2, 0, [7]) && PublishedBy(b.cache, 1) && b.queue == s.queue && b.closed == s.closed
  {
    AdmitBoth(s, r, q);
    var a := AdmitLoop(TWIN, s);
    FirstPass(a, r, q, o);
    var b := Advance(TWIN, a, o).0;
    SaysOn();
    NobodyDone(b, 0, o.copyFails);
    assert ResolveAll(TWIN, b, []) == b;
    IterationIs(TWIN, s, a, b, [], b, o);
  }

  /** Once the first has been helped, the second is no longer there to be helped. */
  lemma BothResolved(s: Sys, p: Sys)
    requires p == ResolveOne(TWIN, s, 0) && 1 !in p.jobs
    ensures ResolveAll(TWIN, s, [0, 1]) == p
  {
    Tails();
    assert ResolveOne(TWIN, p, 1) == p;
    assert ResolveAll(TWIN, p, []) == p;
    assert ResolveAll(TWIN, p, [1]) == p;
  }

  /** The first runs on alone, and nothing is stored under its prefix. */
  ghost predicate RunsOnAlone(s: Sys, r: Request) {
    s.jobs.Keys == {0} && Talks(s.jobs[0], r, 0, 1, TWO, |s.jobs[0].table.blocks|) && 1 !in s.cache.entries
  }

  lemma RestOfTheSecond(b: Sys, r: Request, q: Request, copyFails: set<nat>)
    requires BothTalk(b, r, q, 1, TWO, 2, 0, [7, 5]) && PublishedBy(b.cache, 1)
    ensures var p := ResolveAll(TWIN, b, [0, 1]);
      RunsOnAlone(p, r) && Sweep(TWIN, b, 0, copyFails) == b && Sweep(TWIN, p, 0, copyFails) == p
  {
    SaysOn();
    NobodyDone(b, 0, copyFails);
    SecondIsPreempted(b, r, q);
    var p := ResolveOne(TWIN, b, 0);
    BothResolved(b, p);
    NobodyDone(p, 0, copyFails);
  }

  lemma SecondIteration(s: Sys, r: Request, q: Request, o: Oracle)
    requires BothTalk(s, r, q, 1, ONE, 2, 0, [7]) && PublishedBy(s.cache, 1) && o.fault.None? && o.cancelled == {}
    ensures RunsOnAlone(Work(TWIN, s, o), r)
  {
    SecondPass(s, r, q, o);
    var b := Advance(TWIN, s, o).0;
    RestOfTheSecond(b, r, q, o.copyFails);
    IterationIs(TWIN, s, s, b, [0, 1], ResolveAll(TWIN, b, [0, 1]), o);
  }

  /** Two requests are handed in and picked up. */
  lemma PickUpBoth(r: Request, q: Request) returns (s: Sys)
    ensures Reachable(TWIN, s) && s == InitSys(TWIN).(accepted := [r, q], pending := [r, q], phase := Working)
  {
    ReachableStart(TWIN);
    var s0 := InitSys(TWIN);
    ReachableNext(TWIN, s0, Push(r));
    var s1 := Next(TWIN, s0, Push(r));
    ReachableNext(TWIN, s1, Push(q));
    var s2 := Next(TWIN, s1, Push(q));
    assert s2.queue == [r, q] && s2.accepted == [r, q];
    ReachableTakes(TWIN, s2, 2);
    var s3 := s2.(pending := [r, q], queue := []);
    ReachableNext(TWIN, s3, Take);
    s := Next(TWIN, s3, Take);
  }

  /** FINDABLE NO LONGER, THOUGH ITS FIRST OWNER RUNS ON. In a run without any fault, two
      sequences with the same prompt run and their prefix can be found; after the next step the
      first still runs, unfinished, and nothing is stored under its prefix. */
  lemma GoneWhileItsFirstOwnerRuns(r: Request, q: Request) returns (b: Sys, s: Sys)
    requires r.spec == TALK && q.spec == TALK
    ensures Reachable(TWIN, b) && Enabled(TWIN, b, Step(QUIETLY)) && s == Next(TWIN, b, Step(QUIETLY)) && Reachable(TWIN, s)
    ensures 0 in b.jobs && 0 in s.jobs && b.jobs[0].req == r && s.jobs[0].req == r && !Finished(s.jobs[0])
    ensures PrefixKey(TWIN, b.jobs[0]) == PrefixKey(TWIN, s.jobs[0]) == 1 && Live(b.cache, 1, PrefixTokens(TWIN, b.jobs[0]))
    ensures 1 !in s.cache.entries
  {
    var s0 := PickUpBoth(r, q);
    assert s0.freeSlots == [1, 0];
    FirstIteration(s0, r, q, QUIETLY);
    ReachableNext(TWIN, s0, Step(QUIETLY));
    var s1 := Next(TWIN, s0, Step(QUIETLY));
    ReachableNext(TWIN, s1, Take);
    b := Next(TWIN, s1, Take);
    SecondIteration(b, r, q, QUIETLY);
    ReachableNext(TWIN, b, Step(QUIETLY));
    s := Next(TWIN, b, Step(QUIETLY));
    SaysOn();
  }
}
