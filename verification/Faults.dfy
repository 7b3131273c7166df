/** Backend failures (src/core/scheduler.cpp:570-589). A pass that throws leaves anything in the
    KV of the sequences it was given and fails every sequence; all of them are retired in the
    same iteration, and a retiring sequence's prompt prefix is kept in a donor slot whatever
    became of its KV. This module says exactly which prefixes such an iteration leaves behind
    that may not be what they are stored as. */
module Faults {
  import opened Types
  import opened Sequence
  import opened Cache
  import opened Engine
  import opened Scheduling
  import opened Batch
  import opened Invariants
  import opened Books
  import opened Independence

  /* ---------------- which stores are at risk ---------------- */

  /** The part of its prompt that a sequence is known to hold, from the scheduler's own books. */
  function KnownPrompt(j: Job): nat {
    if Prefilling(j.st) then HeldTokens(j) else |j.st.prompt|
  }

  /** The job was not in the throwing batch and holds all that would be stored. */
  predicate Safe(env: Env, touched: set<SeqId>, j: Job) {
    j.st.sid !in touched && PrefixTokens(env, j) <= KnownPrompt(j)
  }

  ghost function RoomIn(c: CacheState): CacheState {
    if c.freeDonors == [] && HasRetained(c) then EvictLru(c).0 else c
  }

  /** Retiring `j` stores its prefix in a donor slot. */
  ghost predicate Stores(env: Env, c: CacheState, j: Job, copyFails: bool) {
    Retainable(env, j) && !copyFails && RoomIn(EvictSequence(c, j.st.sid)).freeDonors != []
  }

  /** What retiring `j` does to the cache; the KV plays no part in it. */
  ghost function RetireCache(env: Env, c: CacheState, j: Job, copyFails: bool): CacheState {
    var c0 := EvictSequence(c, j.st.sid);
    if !Retainable(env, j) then c0
    else
      var c1 := RoomIn(c0);
      if c1.freeDonors == [] then c1
      else
        var slot, c2 := Last(c1.freeDonors), c1.(freeDonors := DropLast(c1.freeDonors));
        if copyFails then EvictSequence(c2, slot)
        else Insert(c2, PrefixKey(env, j), Entry(slot, PrefixTokens(env, j), j.table.blocks[..WholeBlocks(env, j)], true))
  }

  /** The poisoned keys after retiring `j`: an evicted key is gone, a store under a key cleans it
      if the job is safe and poisons it if not. */
  ghost function PoisonNext(env: Env, c: CacheState, j: Job, copyFails: bool, touched: set<SeqId>, poison: set<nat>): set<nat> {
    var kept := poison * RetireCache(env, c, j, copyFails).entries.Keys;
    if !Stores(env, c, j, copyFails) then kept
    else if Safe(env, touched, j) then kept - {PrefixKey(env, j)}
    else kept + {PrefixKey(env, j)}
  }

  /** The poisoned keys after retiring everyone in order. */
  ghost function PoisonAll(
    env: Env, c: CacheState, active: seq<SeqId>, jobs: map<SeqId, Job>, copyFails: set<nat>, touched: set<SeqId>, poison: set<nat>): set<nat>
    decreases |active|
  {
    if active == [] then poison
    else if active[0] !in jobs then PoisonAll(env, c, active[1..], jobs, copyFails, touched, poison)
    else
      var j := jobs[active[0]];
      var fails := j.req.id in copyFails;
      PoisonAll(env, RetireCache(env, c, j, fails), active[1..], jobs, copyFails, touched, PoisonNext(env, c, j, fails, touched, poison))
  }

  /** The keys that a throwing pass of this iteration leaves poisoned: computed from the cache,
      the jobs and the batch alone. */
  ghost function PoisonedBy(env: Env, s: Sys, copyFails: set<nat>): set<nat> {
    var s1 := AdmitLoop(env, s);
    var (items, jobs) := Build(env, s1);
    if items == [] then {} else PoisonAll(env, s1.cache, s1.active, FailAll(jobs), copyFails, Touched(items), {})
  }

  /* ---------------- the invariant of the sweep ---------------- */

  ghost predicate HasPrefix(env: Env, j: Job, cells: seq<Token>) {
    PrefixTokens(env, j) <= |cells| && cells[..PrefixTokens(env, j)] == j.st.prompt[..PrefixTokens(env, j)]
  }

  /** A safe job holds its prefix; with `blank`, an unsafe one does not. */
  ghost predicate JobPart(env: Env, touched: set<SeqId>, blank: bool, known: seq<Request>, j: Job, k: SeqId, kv: Kv) {
    && j.st.sid == k && k in kv && j.st.prompt == PromptOf(env, j.req) && j.req in known
    && (Retainable(env, j) && Safe(env, touched, j) ==> HasPrefix(env, j, kv[k].cells))
    && (blank && Retainable(env, j) && !Safe(env, touched, j) ==> |kv[k].cells| < PrefixTokens(env, j))
  }

  /** A donor entry is sound unless it is poisoned; with `blank`, a poisoned one is unsound. */
  ghost predicate EntryPart(env: Env, poison: set<nat>, blank: bool, known: seq<Request>, h: nat, e: Entry, kv: Kv) {
    && (h !in poison ==> EntrySync(env, known, h, e, kv))
    && (blank && h in poison ==> e.sid in kv && |kv[e.sid].cells| < e.nTokens)
  }

  ghost predicate PartSync(env: Env, s: Sys, touched: set<SeqId>, poison: set<nat>, blank: bool) {
    && (forall h {:trigger EntryPart(env, poison, blank, s.accepted, h, s.cache.entries[h].entry, s.kv)} ::
          h in s.cache.entries && s.cache.entries[h].entry.retained ==>
            EntryPart(env, poison, blank, s.accepted, h, s.cache.entries[h].entry, s.kv))
    && (forall h :: h in poison ==> h in s.cache.entries && s.cache.entries[h].entry.retained)
    && (forall k {:trigger JobPart(env, touched, blank, s.accepted, s.jobs[k], k, s.kv)} :: k in s.jobs ==>
          JobPart(env, touched, blank, s.accepted, s.jobs[k], k, s.kv))
  }

  /** Donor entries may go, live ones may change, and KV that nobody here names may change. */
  lemma PartFrame(env: Env, s: Sys, r: Sys, touched: set<SeqId>, poison: set<nat>, blank: bool)
    requires PartSync(env, s, touched, poison, blank) && r.accepted == s.accepted
    requires forall h :: h in r.cache.entries && r.cache.entries[h].entry.retained ==>
      h in s.cache.entries && r.cache.entries[h].entry == s.cache.entries[h].entry
    requires forall h :: h in poison && h in r.cache.entries ==> r.cache.entries[h].entry.retained
    requires forall h :: h in r.cache.entries && r.cache.entries[h].entry.retained && r.cache.entries[h].entry.sid in s.kv ==>
      r.cache.entries[h].entry.sid in r.kv && r.kv[r.cache.entries[h].entry.sid] == s.kv[r.cache.entries[h].entry.sid]
    requires forall k :: k in r.jobs ==> k in s.jobs && r.jobs[k] == s.jobs[k] && (k in s.kv ==> k in r.kv && r.kv[k] == s.kv[k])
    ensures PartSync(env, r, touched, poison * r.cache.entries.Keys, blank)
  {
    var left := poison * r.cache.entries.Keys;
    forall h | h in r.cache.entries && r.cache.entries[h].entry.retained
      ensures EntryPart(env, left, blank, r.accepted, h, r.cache.entries[h].entry, r.kv)
    {
      assert EntryPart(env, poison, blank, s.accepted, h, s.cache.entries[h].entry, s.kv);
    }
    forall k | k in r.jobs
      ensures JobPart(env, touched, blank, r.accepted, r.jobs[k], k, r.kv)
    {
      assert JobPart(env, touched, blank, s.accepted, s.jobs[k], k, s.kv);
    }
  }

  /* ---------------- retiring one job ---------------- */

  lemma ForgetPart(env: Env, s: Sys, sid: SeqId, touched: set<SeqId>, poison: set<nat>, blank: bool)
    requires Wf(env, s, {}) && sid in s.jobs && PartSync(env, s, touched, poison, blank)
    ensures PartSync(env, ForgetJob(s, sid), touched, poison, blank)
  {
    var r := ForgetJob(s, sid);
    forall h | h in s.cache.entries && s.cache.entries[h].entry.retained
      ensures h in r.cache.entries
    {
      DonorNamedOnce(env, s, {}, h);
    }
    PartFrame(env, s, r, touched, poison, blank);
    assert poison * r.cache.entries.Keys == poison;
  }

  lemma RoomPart(env: Env, s: Sys, touched: set<SeqId>, poison: set<nat>, blank: bool)
    requires Wf(env, s, {}) && PartSync(env, s, touched, poison, blank)
    ensures PartSync(env, MakeDonorRoom(s), touched, poison * MakeDonorRoom(s).cache.entries.Keys, blank)
  {
    if s.cache.freeDonors == [] && HasRetained(s.cache) {
      DonorNamedOnce(env, s, {}, LruKey(s.cache));
    }
    PartFrame(env, s, MakeDonorRoom(s), touched, poison, blank);
  }

  lemma LosePart(env: Env, s: Sys, touched: set<SeqId>, poison: set<nat>, blank: bool)
    requires Wf(env, s, {}) && s.cache.freeDonors != [] && PartSync(env, s, touched, poison, blank)
    ensures PartSync(env, LoseDonorSlot(s), touched, poison, blank)
  {
    LoseDonorSlotWf(env, s);
    PartFrame(env, s, LoseDonorSlot(s), touched, poison, blank);
    assert poison * s.cache.entries.Keys == poison;
  }

  ghost function PoisonStored(env: Env, j: Job, touched: set<SeqId>, poison: set<nat>): set<nat> {
    if Safe(env, touched, j) then poison - {PrefixKey(env, j)} else poison + {PrefixKey(env, j)}
  }

  lemma StorePart(env: Env, s: Sys, sid: SeqId, touched: set<SeqId>, poison: set<nat>, blank: bool)
    requires Sound(env, s, {}) && s.cache.freeDonors != [] && sid in s.jobs && Retainable(env, s.jobs[sid])
    requires PartSync(env, s, touched, poison, blank)
    ensures PartSync(env, StoreDonor(env, s, s.jobs[sid]), touched, PoisonStored(env, s.jobs[sid], touched, poison), blank)
  {
    var j, slot := s.jobs[sid], Last(s.cache.freeDonors);
    TakenSlotUnnamed(env, s);
    assert JobPart(env, touched, blank, s.accepted, j, sid, s.kv);
    PositiveProduct(WholeBlocks(env, j), env.cfg.blockSize);
    StoredKv(env, s, j, slot);
    var r := StoreDonor(env, s, j);
    StoredEntryPart(env, s, r, j, sid, slot, r.kv[slot].cells, touched, poison, blank);
  }

  lemma TakenSlotUnnamed(env: Env, s: Sys)
    requires Sound(env, s, {}) && s.cache.freeDonors != []
    ensures var slot := Last(s.cache.freeDonors); slot !in s.held && slot !in s.jobs && Unnamed(s.cache, slot)
  {
    assert Wf(env, s, {}) && Last(s.cache.freeDonors) in s.cache.freeDonors;
    FreeDonorUnnamed(env, s, {}, Last(s.cache.freeDonors));
  }

  lemma StoredKv(env: Env, s: Sys, j: Job, slot: SeqId)
    requires s.cache.freeDonors != [] && slot == Last(s.cache.freeDonors) && WholeBlocks(env, j) <= |j.table.blocks|
    requires PrefixTokens(env, j) > 0 && j.st.sid in s.kv && slot != j.st.sid
    ensures var r, cells, n := StoreDonor(env, s, j), s.kv[j.st.sid].cells, PrefixTokens(env, j);
      && slot in r.kv && r.kv[slot].cells == (if n <= |cells| then cells[..n] else cells)
      && forall k :: k in s.kv && k != slot ==> k in r.kv && r.kv[k] == s.kv[k]
  {
  }

  lemma StoredEntryPart(env: Env, s: Sys, r: Sys, j: Job, sid: SeqId, slot: SeqId, got: seq<Token>, touched: set<SeqId>, poison: set<nat>, blank: bool)
    requires PartSync(env, s, touched, poison, blank) && Unnamed(s.cache, slot) && slot !in s.jobs
    requires sid in s.jobs && j == s.jobs[sid] && sid in s.kv && Retainable(env, j)
    requires got == if PrefixTokens(env, j) <= |s.kv[sid].cells| then s.kv[sid].cells[..PrefixTokens(env, j)] else s.kv[sid].cells
    requires r.jobs == s.jobs && r.accepted == s.accepted && slot in r.kv && r.kv[slot].cells == got
    requires forall k :: k in s.kv && k != slot ==> k in r.kv && r.kv[k] == s.kv[k]
    requires r.cache.entries.Keys == s.cache.entries.Keys + {PrefixKey(env, j)}
    requires r.cache.entries[PrefixKey(env, j)].entry == Entry(slot, PrefixTokens(env, j), j.table.blocks[..WholeBlocks(env, j)], true)
    requires forall h :: h in s.cache.entries && h != PrefixKey(env, j) ==> r.cache.entries[h].entry == s.cache.entries[h].entry
    ensures PartSync(env, r, touched, PoisonStored(env, j, touched, poison), blank)
  {
    var key, n, after := PrefixKey(env, j), PrefixTokens(env, j), PoisonStored(env, j, touched, poison);
    assert JobPart(env, touched, blank, s.accepted, j, sid, s.kv);
    forall h | h in r.cache.entries && r.cache.entries[h].entry.retained
      ensures EntryPart(env, after, blank, r.accepted, h, r.cache.entries[h].entry, r.kv)
    {
      if h != key {
        assert EntryPart(env, poison, blank, s.accepted, h, s.cache.entries[h].entry, s.kv);
      } else if Safe(env, touched, j) {
        assert got[..n] == j.st.prompt[..n] && j.st.prompt[..n] <= PromptOf(env, j.req);
        assert KnownPrefix(env, r.accepted, h, got[..n]);
      }
    }
    forall k | k in r.jobs
      ensures JobPart(env, touched, blank, r.accepted, r.jobs[k], k, r.kv)
    {
      assert JobPart(env, touched, blank, s.accepted, s.jobs[k], k, s.kv);
    }
  }

  lemma RemovePart(env: Env, s: Sys, i: nat, touched: set<SeqId>, poison: set<nat>, blank: bool)
    requires i < |s.active| && s.active[i] in s.jobs && Unnamed(s.cache, s.active[i]) && PartSync(env, s, touched, poison, blank)
    ensures PartSync(env, RemoveJob(s, i), touched, poison, blank)
  {
    PartFrame(env, s, RemoveJob(s, i), touched, poison, blank);
    assert poison * s.cache.entries.Keys == poison;
  }

  ghost function PoisonRetained(env: Env, s: Sys, j: Job, fails: bool, touched: set<SeqId>, poison: set<nat>): set<nat> {
    var kept := poison * MakeDonorRoom(s).cache.entries.Keys;
    if !Retainable(env, j) then poison
    else if !fails && MakeDonorRoom(s).cache.freeDonors != [] then PoisonStored(env, j, touched, kept)
    else kept
  }

  lemma RetainPart(env: Env, s: Sys, sid: SeqId, copyFails: bool, touched: set<SeqId>, poison: set<nat>, blank: bool)
    requires Wf(env, s, {}) && sid in s.jobs && Unnamed(s.cache, sid) && PartSync(env, s, touched, poison, blank)
    ensures PartSync(env, RetainPrefix(env, s, s.jobs[sid], copyFails), touched, PoisonRetained(env, s, s.jobs[sid], copyFails, touched, poison), blank)
  {
    if Retainable(env, s.jobs[sid]) {
      MakeDonorRoomWf(env, s, sid);
      RoomPart(env, s, touched, poison, blank);
      var s1 := MakeDonorRoom(s);
      var kept := poison * s1.cache.entries.Keys;
      if s1.cache.freeDonors != [] {
        if copyFails {
          LosePart(env, s1, touched, kept, blank);
        } else {
          StorePart(env, s1, sid, touched, kept, blank);
        }
      }
    }
  }

  /** The cache does not depend on the KV, and evolves as `RetireCache` says. */
  lemma RetireCacheIs(env: Env, s: Sys, i: nat, copyFails: set<nat>)
    requires i < |s.active| && s.active[i] in s.jobs && s.jobs[s.active[i]].st.sid == s.active[i]
    ensures var j := s.jobs[s.active[i]];
      RetireAt(env, s, i, copyFails).cache == RetireCache(env, s.cache, j, j.req.id in copyFails)
  {
  }

  lemma ForgottenPart(env: Env, s: Sys, sid: SeqId, fails: bool, touched: set<SeqId>, poison: set<nat>, blank: bool)
    requires Sound(env, s, {}) && sid in s.jobs && PartSync(env, s, touched, poison, blank)
    ensures var r := RetainPrefix(env, ForgetJob(s, sid), s.jobs[sid], fails);
      && Unnamed(r.cache, sid)
      && PartSync(env, r, touched, PoisonRetained(env, ForgetJob(s, sid), s.jobs[sid], fails, touched, poison), blank)
  {
    assert Wf(env, s, {});
    assert sid !in s.held;
    ForgetWf(env, s, {}, sid);
    ForgetPart(env, s, sid, touched, poison, blank);
    RetainPrefixWf(env, ForgetJob(s, sid), sid, fails);
    RetainPart(env, ForgetJob(s, sid), sid, fails, touched, poison, blank);
  }

  lemma RetainedIsNext(env: Env, s: Sys, j: Job, fails: bool, touched: set<SeqId>, poison: set<nat>)
    requires forall h :: h in PoisonRetained(env, ForgetJob(s, j.st.sid), j, fails, touched, poison) ==>
      h in RetainPrefix(env, ForgetJob(s, j.st.sid), j, fails).cache.entries
    ensures PoisonRetained(env, ForgetJob(s, j.st.sid), j, fails, touched, poison) == PoisonNext(env, s.cache, j, fails, touched, poison)
  {
    RetainCacheIs(env, s, j, fails);
    assert PoisonRetained(env, ForgetJob(s, j.st.sid), j, fails, touched, poison) == PoisonStep(env, s.cache, j, fails, touched, poison);
    PoisonIsNext(env, s.cache, j, fails, touched, poison);
  }

  lemma RetireAtPart(env: Env, s: Sys, i: nat, copyFails: set<nat>, touched: set<SeqId>, poison: set<nat>, blank: bool)
    requires Sound(env, s, {}) && i < |s.active| && s.active[i] in s.jobs && PartSync(env, s, touched, poison, blank)
    ensures var j := s.jobs[s.active[i]];
      PartSync(env, RetireAt(env, s, i, copyFails), touched, PoisonNext(env, s.cache, j, j.req.id in copyFails, touched, poison), blank)
  {
    var sid := s.active[i];
    var j := s.jobs[sid];
    var fails := j.req.id in copyFails;
    assert JobPart(env, touched, blank, s.accepted, j, sid, s.kv);
    ForgottenPart(env, s, sid, fails, touched, poison, blank);
    RetainedIsNext(env, s, j, fails, touched, poison);
    var s1 := RetainPrefix(env, ForgetJob(s, sid), j, fails);
    var next := PoisonNext(env, s.cache, j, fails, touched, poison);
    RemovePart(env, s1, i, touched, next, blank);
    PartDelivered(env, RemoveJob(s1, i), RetireAt(env, s, i, copyFails), touched, next, blank);
  }

  lemma PartDelivered(env: Env, s: Sys, r: Sys, touched: set<SeqId>, poison: set<nat>, blank: bool)
    requires PartSync(env, s, touched, poison, blank) && r == s.(delivered := r.delivered)
    ensures PartSync(env, r, touched, poison, blank)
  {
  }

  lemma RetainCacheIs(env: Env, s: Sys, j: Job, fails: bool)
    ensures var s0 := ForgetJob(s, j.st.sid);
      && MakeDonorRoom(s0).cache == RoomIn(EvictSequence(s.cache, j.st.sid))
      && RetainPrefix(env, s0, j, fails).cache == RetireCache(env, s.cache, j, fails)
  {
  }

  /** The poison left by one retirement, step by step. */
  ghost function PoisonStep(env: Env, c: CacheState, j: Job, fails: bool, touched: set<SeqId>, poison: set<nat>): set<nat> {
    var kept := poison * RoomIn(EvictSequence(c, j.st.sid)).entries.Keys;
    if !Retainable(env, j) then poison else if Stores(env, c, j, fails) then PoisonStored(env, j, touched, kept) else kept
  }

  lemma PoisonIsNext(env: Env, c: CacheState, j: Job, fails: bool, touched: set<SeqId>, poison: set<nat>)
    requires forall h :: h in PoisonStep(env, c, j, fails, touched, poison) ==> h in RetireCache(env, c, j, fails).entries
    ensures PoisonStep(env, c, j, fails, touched, poison) == PoisonNext(env, c, j, fails, touched, poison)
  {
    var room, r := RoomIn(EvictSequence(c, j.st.sid)), RetireCache(env, c, j, fails);
    if Stores(env, c, j, fails) {
      assert r.entries.Keys == room.entries.Keys + {PrefixKey(env, j)};
    } else if Retainable(env, j) {
      assert r.entries.Keys <= room.entries.Keys;
    }
  }

  /* ---------------- retiring everyone ---------------- */

  ghost predicate AllEnded(env: Env, s: Sys) {
    && (forall k :: k in s.jobs ==> Finished(s.jobs[k]) && Ended(env, s.jobs[k].st.spec, s.jobs[k].st.gen))
    && (forall d :: d in s.delivered ==> DeliverySync(env, d))
  }

  lemma RetireAtEnded(env: Env, s: Sys, i: nat, copyFails: set<nat>)
    requires Sound(env, s, {}) && AllEnded(env, s) && i < |s.active|
    ensures s.active[i] in s.jobs && AllEnded(env, RetireAt(env, s, i, copyFails))
  {
    assert Wf(env, s, {});
    var sid := s.active[i];
    assert JobOk(env, sid, s.jobs[sid]);
    EndedDelivers(env, s.jobs[sid], sid);
    RetireAtFrame(env, s, i, copyFails);
    StillEnded(env, s, RetireAt(env, s, i, copyFails), sid);
  }

  lemma StillEnded(env: Env, s: Sys, r: Sys, sid: SeqId)
    requires AllEnded(env, s) && sid in s.jobs && r.jobs == s.jobs - {sid}
    requires r.delivered != [] && DropLast(r.delivered) == s.delivered && DeliverySync(env, Last(r.delivered))
    ensures AllEnded(env, r)
  {
    forall d | d in r.delivered
      ensures DeliverySync(env, d)
    {
      assert d in s.delivered || d == Last(r.delivered);
    }
  }

  lemma {:induction false} PoisonAllSame(
    env: Env, c: CacheState, active: seq<SeqId>, jobs: map<SeqId, Job>, jobs': map<SeqId, Job>, copyFails: set<nat>, touched: set<SeqId>, poison: set<nat>)
    requires forall k :: k in active ==> (k in jobs <==> k in jobs') && (k in jobs ==> jobs'[k] == jobs[k])
    ensures PoisonAll(env, c, active, jobs', copyFails, touched, poison) == PoisonAll(env, c, active, jobs, copyFails, touched, poison)
    decreases |active|
  {
    if active != [] {
      if active[0] in jobs {
        var j := jobs[active[0]];
        var fails := j.req.id in copyFails;
        PoisonAllSame(env, RetireCache(env, c, j, fails), active[1..], jobs, jobs', copyFails, touched, PoisonNext(env, c, j, fails, touched, poison));
      } else {
        PoisonAllSame(env, c, active[1..], jobs, jobs', copyFails, touched, poison);
      }
    }
  }

  /** One retirement is one step of the computation. */
  lemma PoisonUnrolls(env: Env, s: Sys, copyFails: set<nat>, touched: set<SeqId>, poison: set<nat>)
    requires Sound(env, s, {}) && s.active != [] && s.active[0] in s.jobs && s.jobs[s.active[0]].st.sid == s.active[0]
    ensures var j, r := s.jobs[s.active[0]], RetireAt(env, s, 0, copyFails);
      PoisonAll(env, s.cache, s.active, s.jobs, copyFails, touched, poison)
      == PoisonAll(env, r.cache, r.active, r.jobs, copyFails, touched, PoisonNext(env, s.cache, j, j.req.id in copyFails, touched, poison))
  {
    assert Wf(env, s, {});
    var j, r := s.jobs[s.active[0]], RetireAt(env, s, 0, copyFails);
    RetireCacheIs(env, s, 0, copyFails);
    RetireAtFrame(env, s, 0, copyFails);
    assert r.active == s.active[1..];
    assert s.active[0] !in s.active[1..];
    PoisonAllSame(env, r.cache, r.active, s.jobs, r.jobs, copyFails, touched, PoisonNext(env, s.cache, j, j.req.id in copyFails, touched, poison));
  }

  /** Everything has ended, so the sweep leaves nothing running, and the donors as computed. */
  lemma {:induction false} SweepPart(env: Env, s: Sys, copyFails: set<nat>, touched: set<SeqId>, poison: set<nat>, blank: bool)
    requires Sound(env, s, {}) && AllEnded(env, s) && PartSync(env, s, touched, poison, blank)
    ensures var r := Sweep(env, s, 0, copyFails);
      && r.active == [] && AllEnded(env, r) && r.accepted == s.accepted
      && PartSync(env, r, touched, PoisonAll(env, s.cache, s.active, s.jobs, copyFails, touched, poison), blank)
    decreases |s.active|
  {
    if s.active != [] {
      RetireAtEnded(env, s, 0, copyFails);
      RetireSound(env, s, 0, copyFails);
      RetireAtPart(env, s, 0, copyFails, touched, poison, blank);
      var j := s.jobs[s.active[0]];
      assert JobPart(env, touched, blank, s.accepted, j, s.active[0], s.kv);
      PoisonUnrolls(env, s, copyFails, touched, poison);
      SweepPart(env, RetireAt(env, s, 0, copyFails), copyFails, touched, PoisonNext(env, s.cache, j, j.req.id in copyFails, touched, poison), blank);
    }
  }

  /* ---------------- the throwing pass ---------------- */

  lemma CrashEnded(env: Env, s: Sys, items: seq<BatchItem>, garbage: map<SeqId, seq<Token>>)
    requires env.mayFail && (forall d :: d in s.delivered ==> DeliverySync(env, d))
    requires forall k :: k in s.jobs && Finished(s.jobs[k]) ==> Ended(env, s.jobs[k].st.spec, s.jobs[k].st.gen)
    ensures AllEnded(env, Crash(s, items, garbage))
  {
  }

  lemma BuiltEnded(env: Env, s: Sys)
    requires Wf(env, s, {}) && Sync(env, s)
    ensures var jobs := Build(env, s).1;
      forall k :: k in jobs && Finished(jobs[k]) ==> Ended(env, jobs[k].st.spec, jobs[k].st.gen)
  {
    BuildWf(env, s);
    FinishedUnbuilt(env, s, Build(env, s).0, Build(env, s).1);
  }

  /** A finished job has no item in the batch, so it is as it was. */
  lemma FinishedUnbuilt(env: Env, s: Sys, items: seq<BatchItem>, jobs: map<SeqId, Job>)
    requires ItemsFit(s.active, s.jobs, jobs, items) && JobsSync(env, s.jobs, s.kv)
    ensures forall k :: k in jobs && Finished(jobs[k]) ==> Ended(env, jobs[k].st.spec, jobs[k].st.gen)
  {
    forall k | k in jobs && Finished(jobs[k])
      ensures Ended(env, jobs[k].st.spec, jobs[k].st.gen)
    {
      assert JobSync(env, s.jobs[k], s.kv[k]);
    }
  }

  /** The worst a pass can leave behind. */
  function Blank(items: seq<BatchItem>): map<SeqId, seq<Token>> {
    map k | k in Touched(items) :: []
  }

  lemma CrashedJobPart(env: Env, s: Sys, items: seq<BatchItem>, jobs: map<SeqId, Job>, garbage: map<SeqId, seq<Token>>, blank: bool, k: SeqId)
    requires ItemsFit(s.active, s.jobs, jobs, items) && k in s.jobs && k in s.kv && (blank ==> garbage == Blank(items))
    requires JobOk(env, k, s.jobs[k]) && JobSync(env, s.jobs[k], s.kv[k]) && s.jobs[k].req in s.accepted
    ensures k in FailAll(jobs)
    ensures JobPart(env, Touched(items), blank, s.accepted, FailAll(jobs)[k], k, Scramble(s.kv, Touched(items), garbage))
  {
    var j, j0 := FailAll(jobs)[k], s.jobs[k];
    var touched := Touched(items);
    BuiltJob(s, items, jobs, k);
    assert j.st == j0.st.(gen := j.st.gen, prefilled := j.st.prefilled) && j.table == j0.table && j.req == j0.req;
    if Retainable(env, j) {
      PositiveProduct(WholeBlocks(env, j), env.cfg.blockSize);
      assert JobSync(env, j0, SeqKv(s.kv[k].sampling, s.kv[k].cells));
      CrashedPrefix(env, j, j0, s.kv[k].cells, k in touched);
    }
  }

  /** Building the batch changes only how much its own sequences have prefilled. */
  lemma BuiltJob(s: Sys, items: seq<BatchItem>, jobs: map<SeqId, Job>, k: SeqId)
    requires ItemsFit(s.active, s.jobs, jobs, items) && k in s.jobs
    ensures k in jobs && jobs[k] == s.jobs[k].(st := s.jobs[k].st.(prefilled := jobs[k].st.prefilled))
    ensures k !in Touched(items) ==> jobs[k] == s.jobs[k]
  {
    if k in Touched(items) {
      var i :| 0 <= i < |items| && items[i].sid == k;
      assert ItemFits(s.jobs, jobs, items[i]);
    } else {
      assert forall i :: 0 <= i < |items| ==> items[i].sid in Touched(items);
      assert NoItemFor(items, k);
    }
  }

  /** A retainable job outside the batch holds exactly what the books say. */
  lemma CrashedPrefix(env: Env, j: Job, j0: Job, cells: seq<Token>, inBatch: bool)
    requires Retainable(env, j) && PrefixTokens(env, j) > 0 && j.table == j0.table
    requires j.st == j0.st.(gen := j.st.gen, prefilled := j.st.prefilled) && (!inBatch ==> j.st.prefilled == j0.st.prefilled)
    requires exists sampling :: JobSync(env, j0, SeqKv(sampling, cells))
    ensures !inBatch ==> (PrefixTokens(env, j) <= KnownPrompt(j) ==> HasPrefix(env, j, cells))
    ensures !inBatch ==> (PrefixTokens(env, j) > KnownPrompt(j) ==> |cells| < PrefixTokens(env, j))
  {
    var sampling :| JobSync(env, j0, SeqKv(sampling, cells));
  }

  lemma CrashPart(env: Env, s: Sys, garbage: map<SeqId, seq<Token>>, blank: bool)
    requires Healthy(env, s) && (blank ==> garbage == Blank(Build(env, s).0))
    ensures var (items, jobs) := Build(env, s);
      PartSync(env, Crash(s.(jobs := jobs), items, garbage), Touched(items), {}, blank)
  {
    assert Wf(env, s, {});
    BuildWf(env, s);
    AcceptedKnown(env, s, {});
    var (items, jobs) := Build(env, s);
    var r := Crash(s.(jobs := jobs), items, garbage);
    forall k | k in r.jobs
      ensures JobPart(env, Touched(items), blank, r.accepted, r.jobs[k], k, r.kv)
    {
      assert JobOk(env, k, s.jobs[k]) && JobSync(env, s.jobs[k], s.kv[k]);
      CrashedJobPart(env, s, items, jobs, garbage, blank, k);
    }
    forall h | h in r.cache.entries && r.cache.entries[h].entry.retained
      ensures EntryPart(env, {}, blank, r.accepted, h, r.cache.entries[h].entry, r.kv)
    {
      DonorNamedOnce(env, s, {}, h);
      assert EntrySync(env, s.accepted, h, s.cache.entries[h].entry, s.kv);
      UntouchedDonor(env, s, items, jobs, s.cache.entries[h].entry.sid);
    }
  }

  lemma UntouchedDonor(env: Env, s: Sys, items: seq<BatchItem>, jobs: map<SeqId, Job>, slot: SeqId)
    requires ItemsFit(s.active, s.jobs, jobs, items) && slot !in s.jobs
    ensures slot !in Touched(items)
  {
    forall i | 0 <= i < |items|
      ensures items[i].sid != slot
    {
      assert ItemFits(s.jobs, jobs, items[i]);
    }
  }

  /** With nothing running every entry is a donor's. */
  lemma OnlyDonorsLeft(env: Env, s: Sys)
    requires Wf(env, s, {}) && s.active == []
    ensures s.jobs.Keys == {} && forall h :: h in s.cache.entries ==> s.cache.entries[h].entry.retained
  {
    assert s.jobs.Keys == {};
    assert forall h :: h in s.cache.entries ==> EntryOk(env.cfg.blockSize, s.cache.entries[h].entry, s.jobs, s.held);
  }

  /** What the throwing iteration comes to. */
  lemma ThrowingWork(env: Env, s: Sys, o: Oracle, blank: bool)
    requires Healthy(env, s) && CollisionFree(env, s.accepted) && env.mayFail && o.fault.Some?
    requires var items := Build(env, AdmitLoop(env, s)).0; items != [] && (blank ==> o.fault.value == Blank(items))
    ensures var w := Work(env, s, o);
      && w.active == [] && AllEnded(env, w) && w.accepted == s.accepted
      && PartSync(env, w, Touched(Build(env, AdmitLoop(env, s)).0), PoisonedBy(env, s, o.copyFails), blank)
  {
    AdmitLoopSync(env, s);
    var s1 := AdmitLoop(env, s);
    assert Wf(env, s1, {});
    var (items, jobs) := Build(env, s1);
    NothingToBuild(env, s1);
    BuiltEnded(env, s1);
    var s2 := Crash(s1.(jobs := jobs), items, o.fault.value);
    CrashEnded(env, s1.(jobs := jobs), items, o.fault.value);
    CrashPart(env, s1, o.fault.value, blank);
    CrashSound(env, s1, o);
    SweepPart(env, s2, o.copyFails, Touched(items), {}, blank);
    var w := Sweep(env, s2, 0, o.copyFails);
    assert ResolveAll(env, w, []) == w && Sweep(env, w, 0, o.copyFails) == w;
    assert Work(env, s, o) == w;
  }

  lemma NothingToBuild(env: Env, s: Sys)
    requires Build(env, s).0 != []
    ensures s.active != []
  {
  }

  lemma CrashSound(env: Env, s: Sys, o: Oracle)
    requires Wf(env, s, {}) && o.fault.Some? && Build(env, s).0 != []
    ensures Sound(env, Crash(s.(jobs := Build(env, s).1), Build(env, s).0, o.fault.value), {})
  {
    AdvanceWf(env, s, o);
  }

  /* ---------------- the exact effect of a throwing pass ---------------- */

  function Throwing(o: Oracle, garbage: map<SeqId, seq<Token>>): Oracle {
    o.(fault := Some(garbage))
  }

  lemma NoPassNoThrow(env: Env, s: Sys, o: Oracle)
    requires Build(env, AdmitLoop(env, s)).0 == [] || o.fault.None?
    ensures Work(env, s, o) == Work(env, s, o.(fault := None))
  {
  }

  /** Whatever the pass leaves in the KV, every entry but the poisoned ones is sound. */
  lemma UnpoisonedIsSound(env: Env, s: Sys, o: Oracle, h: nat)
    requires Healthy(env, s) && CollisionFree(env, s.accepted) && env.mayFail
    requires h in Work(env, s, o).cache.entries && h !in PoisonedBy(env, s, o.copyFails)
    ensures var w := Work(env, s, o); EntrySync(env, w.accepted, h, w.cache.entries[h].entry, w.kv)
  {
    var w := Work(env, s, o);
    if o.fault.None? || Build(env, AdmitLoop(env, s)).0 == [] {
      NoPassNoThrow(env, s, o);
      WorkSync(env, s, o.(fault := None));
      assert Wf(env, w, {});
    } else {
      ThrowingWork(env, s, o, false);
      assert Wf(env, s, {});
      WorkWf(env, s, o);
      OnlyDonorsLeft(env, w);
      assert EntryPart(env, PoisonedBy(env, s, o.copyFails), false, w.accepted, h, w.cache.entries[h].entry, w.kv);
    }
  }

  /** And there is something it can leave that makes every poisoned entry unsound. */
  lemma PoisonedIsUnsound(env: Env, s: Sys, o: Oracle, h: nat)
    requires Healthy(env, s) && CollisionFree(env, s.accepted) && env.mayFail && h in PoisonedBy(env, s, o.copyFails)
    ensures var w := Work(env, s, Throwing(o, Blank(Build(env, AdmitLoop(env, s)).0)));
      h in w.cache.entries && !EntrySync(env, w.accepted, h, w.cache.entries[h].entry, w.kv)
  {
    var t := Throwing(o, Blank(Build(env, AdmitLoop(env, s)).0));
    ThrowingWork(env, s, t, true);
    var w := Work(env, s, t);
    assert EntryPart(env, PoisonedBy(env, s, o.copyFails), true, w.accepted, h, w.cache.entries[h].entry, w.kv);
  }

  /** A THROWING PASS IS HARMLESS EXACTLY WHEN IT POISONS NOTHING. The cache is sound after the
      iteration, whatever the pass left behind, if and only if no key is poisoned: no retiring
      job that was in the batch, or had not yet prefilled what it stores, is the last to store
      under a key that is then still there. */
  lemma FaultIsHarmlessIff(env: Env, s: Sys, o: Oracle)
    requires Healthy(env, s) && CollisionFree(env, s.accepted) && env.mayFail
    ensures (forall garbage {:trigger Throwing(o, garbage)} ::
               var w := Work(env, s, Throwing(o, garbage)); CacheSync(env, w.accepted, w.cache, w.kv))
      <==> PoisonedBy(env, s, o.copyFails) == {}
  {
    if PoisonedBy(env, s, o.copyFails) == {} {
      forall garbage
        ensures var w := Work(env, s, Throwing(o, garbage)); CacheSync(env, w.accepted, w.cache, w.kv)
      {
        var w := Work(env, s, Throwing(o, garbage));
        forall h | h in w.cache.entries
          ensures EntrySync(env, w.accepted, h, w.cache.entries[h].entry, w.kv)
        {
          UnpoisonedIsSound(env, s, Throwing(o, garbage), h);
        }
      }
    } else {
      var h :| h in PoisonedBy(env, s, o.copyFails);
      PoisonedIsUnsound(env, s, o, h);
      var w := Work(env, s, Throwing(o, Blank(Build(env, AdmitLoop(env, s)).0)));
      assert !CacheSync(env, w.accepted, w.cache, w.kv);
    }
  }

  /** An iteration that poisons nothing keeps everything in sync, throwing or not. */
  lemma FaultyWorkSync(env: Env, s: Sys, o: Oracle)
    requires Healthy(env, s) && CollisionFree(env, s.accepted) && (o.fault.Some? ==> env.mayFail && PoisonedBy(env, s, o.copyFails) == {})
    ensures Healthy(env, Work(env, s, o))
  {
    if o.fault.None? || Build(env, AdmitLoop(env, s)).0 == [] {
      NoPassNoThrow(env, s, o);
      WorkSync(env, s, o.(fault := None));
    } else {
      ThrowingWork(env, s, o, false);
      assert Wf(env, s, {});
      WorkWf(env, s, o);
      WorkBooks(env, s, o);
      UnpoisonedSync(env, Work(env, s, o), Touched(Build(env, AdmitLoop(env, s)).0));
    }
  }

  lemma UnpoisonedSync(env: Env, w: Sys, touched: set<SeqId>)
    requires Wf(env, w, {}) && w.active == [] && AllEnded(env, w) && PartSync(env, w, touched, {}, false)
    ensures Sync(env, w)
  {
    OnlyDonorsLeft(env, w);
    forall h | h in w.cache.entries
      ensures EntrySync(env, w.accepted, h, w.cache.entries[h].entry, w.kv)
    {
      assert EntryPart(env, {}, false, w.accepted, h, w.cache.entries[h].entry, w.kv);
    }
  }

  /* ---------------- when nothing is poisoned ---------------- */

  /** The job stores its prefix on retiring but may not hold it. */
  predicate AtRisk(env: Env, j: Job, copyFails: set<nat>, touched: set<SeqId>) {
    Retainable(env, j) && j.req.id !in copyFails && !Safe(env, touched, j)
  }

  predicate NobodyAtRisk(env: Env, active: seq<SeqId>, jobs: map<SeqId, Job>, copyFails: set<nat>, touched: set<SeqId>) {
    forall k :: k in active && k in jobs ==> !AtRisk(env, jobs[k], copyFails, touched)
  }

  lemma {:induction false} NobodyAtRiskNoPoison(
    env: Env, c: CacheState, active: seq<SeqId>, jobs: map<SeqId, Job>, copyFails: set<nat>, touched: set<SeqId>)
    requires NobodyAtRisk(env, active, jobs, copyFails, touched)
    ensures PoisonAll(env, c, active, jobs, copyFails, touched, {}) == {}
    decreases |active|
  {
    if active != [] {
      var rest := active[1..];
      assert NobodyAtRisk(env, rest, jobs, copyFails, touched);
      if active[0] in jobs {
        var j := jobs[active[0]];
        assert active[0] in active;
        assert PoisonNext(env, c, j, j.req.id in copyFails, touched, {}) == {};
        NobodyAtRiskNoPoison(env, RetireCache(env, c, j, j.req.id in copyFails), rest, jobs, copyFails, touched);
      } else {
        NobodyAtRiskNoPoison(env, c, rest, jobs, copyFails, touched);
      }
    }
  }

  /** Without donor slots, or without prefix caching, a throwing pass poisons nothing. */
  lemma NoDonorsNoPoison(env: Env, s: Sys, copyFails: set<nat>)
    requires env.cfg.donors == 0 || !env.cfg.prefixCaching
    ensures PoisonedBy(env, s, copyFails) == {}
  {
    var s1 := AdmitLoop(env, s);
    var (items, jobs) := Build(env, s1);
    NobodyAtRiskNoPoison(env, s1.cache, s1.active, FailAll(jobs), copyFails, Touched(items));
  }

  /* ---------------- when something is ---------------- */

  predicate SameStore(env: Env, i: Job, j: Job) {
    Retainable(env, i) && Retainable(env, j) && PrefixKey(env, i) == PrefixKey(env, j)
  }

  /** No two retiring jobs store under one key. */
  predicate DistinctKeys(env: Env, active: seq<SeqId>, jobs: map<SeqId, Job>) {
    forall a, b :: 0 <= a < b < |active| && active[a] in jobs && active[b] in jobs ==> !SameStore(env, jobs[active[a]], jobs[active[b]])
  }

  /** There is a donor slot for everyone, and neither free nor occupied ones are batch slots. */
  ghost predicate Roomy(c: CacheState, active: seq<SeqId>) {
    && |active| <= |c.freeDonors| && NoDup(c.freeDonors)
    && (forall d :: d in c.freeDonors ==> d !in active)
    && (forall h :: h in c.entries ==> c.entries[h].entry.sid !in c.freeDonors)
    && (forall h :: h in c.entries && c.entries[h].entry.retained ==> c.entries[h].entry.sid !in active)
  }

  /** Poisoned keys that no remaining job stores under. */
  ghost predicate Settled(env: Env, c: CacheState, active: seq<SeqId>, jobs: map<SeqId, Job>, poison: set<nat>) {
    && (forall h :: h in poison ==> h in c.entries && c.entries[h].entry.retained)
    && (forall h, k :: h in poison && k in active && k in jobs && Retainable(env, jobs[k]) ==> PrefixKey(env, jobs[k]) != h)
  }

  lemma RoomyEvict(c: CacheState, active: seq<SeqId>, sid: SeqId)
    requires Roomy(c, active) && sid in active
    ensures EvictSequence(c, sid).freeDonors == c.freeDonors && Roomy(EvictSequence(c, sid), active)
    ensures forall h :: h in c.entries && c.entries[h].entry.retained ==>
      h in EvictSequence(c, sid).entries && EvictSequence(c, sid).entries[h] == c.entries[h]
  {
    assert DonorKeys(c, sid) == {};
    assert c.freeDonors + [] == c.freeDonors;
  }

  lemma RoomyTake(c: CacheState, active: seq<SeqId>, e: Entry, h: nat)
    requires Roomy(c, active) && active != [] && e.sid == Last(c.freeDonors)
    ensures var d := c.(freeDonors := DropLast(c.freeDonors));
      && Roomy(Insert(d, h, e), active[1..]) && Roomy(d, active[1..])
      && EvictSequence(d, e.sid).entries == d.entries && EvictSequence(d, e.sid).freeDonors == d.freeDonors
  {
    var d := c.(freeDonors := DropLast(c.freeDonors));
    assert e.sid in c.freeDonors && e.sid !in d.freeDonors;
    assert forall k :: k in d.freeDonors ==> k in c.freeDonors;
    assert forall k :: k in active[1..] ==> k in active;
    assert DonorKeys(d, e.sid) == {};
    assert d.freeDonors + [] == d.freeDonors;
  }

  lemma RoomyRetire(env: Env, c: CacheState, active: seq<SeqId>, j: Job, fails: bool)
    requires Roomy(c, active) && active != [] && j.st.sid == active[0]
    ensures var d := RetireCache(env, c, j, fails);
      && Roomy(d, active[1..]) && (Stores(env, c, j, fails) <==> Retainable(env, j) && !fails)
      && (forall h :: h in c.entries && c.entries[h].entry.retained && (Retainable(env, j) ==> h != PrefixKey(env, j)) ==>
            h in d.entries && d.entries[h].entry.retained)
      && (Stores(env, c, j, fails) ==> PrefixKey(env, j) in d.entries && d.entries[PrefixKey(env, j)].entry.retained)
  {
    assert active[0] in active;
    RoomyEvict(c, active, active[0]);
    var c0 := EvictSequence(c, active[0]);
    assert forall k :: k in active[1..] ==> k in active;
    if Retainable(env, j) {
      assert RoomIn(c0) == c0;
      RoomyTake(c0, active, Entry(Last(c0.freeDonors), PrefixTokens(env, j), j.table.blocks[..WholeBlocks(env, j)], true), PrefixKey(env, j));
    }
  }

  lemma SettledNext(env: Env, c: CacheState, active: seq<SeqId>, jobs: map<SeqId, Job>, copyFails: set<nat>, touched: set<SeqId>, poison: set<nat>)
    requires active != [] && active[0] in jobs && jobs[active[0]].st.sid == active[0]
    requires Roomy(c, active) && DistinctKeys(env, active, jobs) && Settled(env, c, active, jobs, poison)
    ensures var j := jobs[active[0]];
      var fails := j.req.id in copyFails;
      var next := PoisonNext(env, c, j, fails, touched, poison);
      && poison <= next && (AtRisk(env, j, copyFails, touched) ==> PrefixKey(env, j) in next)
      && Settled(env, RetireCache(env, c, j, fails), active[1..], jobs, next)
      && Roomy(RetireCache(env, c, j, fails), active[1..]) && DistinctKeys(env, active[1..], jobs)
  {
    var j, rest := jobs[active[0]], active[1..];
    var fails := j.req.id in copyFails;
    assert active[0] in active;
    RoomyRetire(env, c, active, j, fails);
    forall k | k in rest && k in jobs
      ensures !SameStore(env, j, jobs[k])
    {
      var b :| 0 <= b < |rest| && rest[b] == k;
      assert active[0] in jobs && active[b + 1] == k;
    }
    forall a, b | 0 <= a < b < |rest| && rest[a] in jobs && rest[b] in jobs
      ensures !SameStore(env, jobs[rest[a]], jobs[rest[b]])
    {
      assert rest[a] == active[a + 1] && rest[b] == active[b + 1];
    }
    assert forall k :: k in rest ==> k in active;
  }

  /** With room for everyone and no shared keys nothing cleans up: whoever is at risk poisons. */
  lemma {:induction false} AtRiskPoisons(env: Env, c: CacheState, active: seq<SeqId>, jobs: map<SeqId, Job>, copyFails: set<nat>, touched: set<SeqId>, poison: set<nat>)
    requires forall k :: k in active ==> k in jobs && jobs[k].st.sid == k
    requires Roomy(c, active) && DistinctKeys(env, active, jobs) && Settled(env, c, active, jobs, poison)
    ensures var all := PoisonAll(env, c, active, jobs, copyFails, touched, poison);
      poison <= all && forall k :: k in active && AtRisk(env, jobs[k], copyFails, touched) ==> PrefixKey(env, jobs[k]) in all
    decreases |active|
  {
    if active != [] {
      var j, rest := jobs[active[0]], active[1..];
      var fails := j.req.id in copyFails;
      assert active == [active[0]] + rest;
      SettledNext(env, c, active, jobs, copyFails, touched, poison);
      AtRiskPoisons(env, RetireCache(env, c, j, fails), rest, jobs, copyFails, touched, PoisonNext(env, c, j, fails, touched, poison));
    }
  }

  /** Without those two provisos being at risk is not enough: a safe sequence that retires later
      under the same key cleans it, so nothing is poisoned. */
  lemma LaterStoreCleans(env: Env, c: CacheState, first: SeqId, last: SeqId, jobs: map<SeqId, Job>, copyFails: set<nat>, touched: set<SeqId>)
    requires first != last && first in jobs && last in jobs && jobs[first].st.sid == first && jobs[last].st.sid == last
    requires AtRisk(env, jobs[first], copyFails, touched) && Safe(env, touched, jobs[last]) && jobs[last].req.id !in copyFails
    requires SameStore(env, jobs[first], jobs[last]) && Roomy(c, [first, last])
    ensures PoisonAll(env, c, [first, last], jobs, copyFails, touched, {}) == {}
  {
    var active := [first, last];
    var c1 := RetireCache(env, c, jobs[first], false);
    var key := PrefixKey(env, jobs[first]);
    RoomyRetire(env, c, active, jobs[first], false);
    assert active[1..] == [last] && [last][1..] == [];
    RoomyRetire(env, c1, [last], jobs[last], false);
    assert PoisonNext(env, c, jobs[first], false, touched, {}) == {key};
    assert PoisonNext(env, c1, jobs[last], false, touched, {key}) == {};
    assert PoisonAll(env, c1, [last], jobs, copyFails, touched, {key}) == {};
  }

  lemma FreshRoom(env: Env, s: Sys)
    requires Wf(env, s, {}) && |s.active| <= |s.cache.freeDonors|
    ensures Roomy(s.cache, s.active)
  {
    forall h | h in s.cache.entries
      ensures s.cache.entries[h].entry.sid !in s.cache.freeDonors
      ensures s.cache.entries[h].entry.retained ==> s.cache.entries[h].entry.sid !in s.active
    {
      assert EntryOk(env.cfg.blockSize, s.cache.entries[h].entry, s.jobs, s.held);
    }
  }

  lemma BuiltSids(env: Env, s: Sys)
    requires Wf(env, s, {})
    ensures var jobs := FailAll(Build(env, s).1); forall k :: k in s.active ==> k in jobs && jobs[k].st.sid == k
  {
    BuildWf(env, s);
    var jobs := Build(env, s).1;
    forall k | k in s.active
      ensures k in jobs && jobs[k].st.sid == k
    {
      assert k in jobs && JobOk(env, k, jobs[k]);
    }
  }

  /** AND, WITH ROOM, EXACTLY WHEN NOBODY IS AT RISK. If there is a free donor slot for every
      active sequence and no two of them store under one key, a throwing pass is harmless if
      and only if no sequence that retires with a working copy was in the batch or had not yet
      prefilled what it stores. */
  lemma FaultIsHarmlessIffNobodyAtRisk(env: Env, s: Sys, o: Oracle)
    requires Healthy(env, s) && CollisionFree(env, s.accepted) && env.mayFail
    requires var s1 := AdmitLoop(env, s);
      && |s1.active| <= |s1.cache.freeDonors| && DistinctKeys(env, s1.active, FailAll(Build(env, s1).1)) && Build(env, s1).0 != []
    ensures var s1 := AdmitLoop(env, s);
      (forall garbage {:trigger Throwing(o, garbage)} ::
         var w := Work(env, s, Throwing(o, garbage)); CacheSync(env, w.accepted, w.cache, w.kv))
      <==> NobodyAtRisk(env, s1.active, FailAll(Build(env, s1).1), o.copyFails, Touched(Build(env, s1).0))
  {
    FaultIsHarmlessIff(env, s, o);
    AdmitLoopSync(env, s);
    PoisonedIffAtRisk(env, AdmitLoop(env, s), o.copyFails);
  }

  lemma PoisonedIffAtRisk(env: Env, s: Sys, copyFails: set<nat>)
    requires Healthy(env, s) && |s.active| <= |s.cache.freeDonors| && DistinctKeys(env, s.active, FailAll(Build(env, s).1))
    ensures var (items, jobs) := Build(env, s);
      PoisonAll(env, s.cache, s.active, FailAll(jobs), copyFails, Touched(items), {}) == {}
      <==> NobodyAtRisk(env, s.active, FailAll(jobs), copyFails, Touched(items))
  {
    assert Wf(env, s, {});
    FreshRoom(env, s);
    BuiltSids(env, s);
    var (items, jobs) := Build(env, s);
    if NobodyAtRisk(env, s.active, FailAll(jobs), copyFails, Touched(items)) {
      NobodyAtRiskNoPoison(env, s.cache, s.active, FailAll(jobs), copyFails, Touched(items));
    } else {
      AtRiskPoisons(env, s.cache, s.active, FailAll(jobs), copyFails, Touched(items), {});
    }
  }
}
