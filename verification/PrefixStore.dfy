/** The prefix cache as the object it is (src/core/block_allocator.cpp:82-173): a map walked in
    no particular order, a stack of free donor slots and a tick. Each operation is proved
    against its function on values in `Cache`. */
module PrefixStore {
  import opened Types
  import opened Cache

  class PrefixCache {
    var entries: map<nat, Record>
    var freeDonors: seq<SeqId>
    var tick: nat
    var firstDonor: SeqId
    var donorCapacity: nat

    ghost function View(): CacheState
      reads this
    {
      CacheState(entries, freeDonors, tick)
    }

    constructor ()
      ensures View() == NewCache(0, 0) && donorCapacity == 0
    {
      entries, freeDonors, tick, firstDonor, donorCapacity := map[], [], 0, 0, 0;
    }

    method ConfigureDonors(first: SeqId, count: nat)
      modifies this
      ensures firstDonor == first && donorCapacity == count
      ensures View() == old(View()).(freeDonors := NewCache(first, count).freeDonors)
    {
      firstDonor, donorCapacity, freeDonors := first, count, [];
      var i := count;
      while i > 0
        invariant 0 <= i <= count && freeDonors == NewCache(first, count).freeDonors[..count - i]
        invariant entries == old(entries) && tick == old(tick) && firstDonor == first && donorCapacity == count
      {
        freeDonors := freeDonors + [first + (i - 1)];
        i := i - 1;
      }
    }

    /** Longest first; a hit counts as a use. */
    method FindLongest(hash: seq<Token> -> nat, tokens: seq<Token>, blockSize: nat) returns (r: Option<Entry>)
      modifies this
      ensures blockSize == 0 ==> r.None? && View() == old(View())
      ensures blockSize > 0 ==> (View(), r) == Cache.FindLongest(hash, old(View()), tokens, blockSize)
      ensures firstDonor == old(firstDonor) && donorCapacity == old(donorCapacity)
    {
      if blockSize == 0 || tokens == [] {
        return None;
      }
      var nb := |tokens| / blockSize;
      WholeBlocksFit(nb, blockSize, |tokens|);
      while nb > 0
        invariant 0 <= nb && nb * blockSize <= |tokens| && View() == old(View())
        invariant MatchFrom(hash, View(), tokens, blockSize, nb) == LongestMatch(hash, View(), tokens, blockSize)
        invariant firstDonor == old(firstDonor) && donorCapacity == old(donorCapacity)
      {
        var n := nb * blockSize;
        var h := hash(tokens[..n]);
        if h in entries && entries[h].entry.nTokens == n {
          tick := tick + 1;
          r := Some(entries[h].entry);
          entries := entries[h := entries[h].(lastUsed := tick)];
          return;
        }
        OneBlockLess(nb, blockSize);
        nb := nb - 1;
      }
      r := None;
    }

    method Insert(h: nat, e: Entry)
      modifies this
      ensures View() == Cache.Insert(old(View()), h, e)
      ensures firstDonor == old(firstDonor) && donorCapacity == old(donorCapacity)
    {
      tick := tick + 1;
      entries := entries[h := Record(e, tick)];
    }

    method TakeDonorSlot() returns (slot: Option<SeqId>)
      modifies this`freeDonors
      ensures old(freeDonors) == [] ==> slot.None? && freeDonors == []
      ensures old(freeDonors) != [] ==> slot == Some(Last(old(freeDonors))) && freeDonors == DropLast(old(freeDonors))
    {
      if freeDonors == [] {
        return None;
      }
      slot := Some(freeDonors[|freeDonors| - 1]);
      freeDonors := freeDonors[..|freeDonors| - 1];
    }

    method Retain(h: nat, slot: SeqId, n: nat, blocks: seq<BlockId>)
      modifies this
      ensures View() == Cache.Insert(old(View()), h, Entry(slot, n, blocks, true))
      ensures firstDonor == old(firstDonor) && donorCapacity == old(donorCapacity)
    {
      tick := tick + 1;
      entries := entries[h := Record(Entry(slot, n, blocks, true), tick)];
    }

    /** Whatever order the map is walked in, the victim is the one least recently used donor. */
    method EvictLruRetained() returns (r: Option<Entry>)
      requires TicksOk(View())
      modifies this
      ensures r.Some? <==> HasRetained(old(View()))
      ensures r.None? ==> View() == old(View())
      ensures r.Some? ==> (View(), r.value) == EvictLru(old(View()))
      ensures firstDonor == old(firstDonor) && donorCapacity == old(donorCapacity)
    {
      var victim: Option<nat> := None;
      var todo := entries.Keys;
      while todo != {}
        invariant todo <= entries.Keys
        invariant victim.None? ==> forall h :: h in entries && h !in todo ==> !entries[h].entry.retained
        invariant victim.Some? ==> victim.value in entries && entries[victim.value].entry.retained
        invariant victim.Some? ==> forall h :: h in entries && h !in todo && entries[h].entry.retained ==>
          entries[victim.value].lastUsed <= entries[h].lastUsed
      {
        var h :| h in todo;
        if entries[h].entry.retained && (victim.None? || entries[h].lastUsed < entries[victim.value].lastUsed) {
          victim := Some(h);
        }
        todo := todo - {h};
      }
      if victim.None? {
        return None;
      }
      assert IsLru(View(), victim.value);
      LruUnique(View(), victim.value, LruKey(View()));
      var e := entries[victim.value].entry;
      entries := entries - {victim.value};
      freeDonors := freeDonors + [e.sid];
      r := Some(e);
    }

    /** Forget a sequence, giving its slot back once for every donor entry that named it. */
    method EvictSequence(sid: SeqId)
      modifies this
      ensures View() == Cache.EvictSequence(old(View()), sid)
      ensures firstDonor == old(firstDonor) && donorCapacity == old(donorCapacity)
    {
      var todo := entries.Keys;
      ghost var was := View();
      assert Visited(was, was, todo, sid) by {
        assert DonorKeys(was, sid) - todo == {};
        assert was.freeDonors + Times(0, sid) == was.freeDonors;
      }
      while todo != {}
        invariant Visited(was, View(), todo, sid)
        invariant firstDonor == old(firstDonor) && donorCapacity == old(donorCapacity)
      {
        var h :| h in todo;
        VisitKeeps(was, View(), todo, h, sid);
        if entries[h].entry.sid == sid {
          if entries[h].entry.retained {
            freeDonors := freeDonors + [sid];
          }
          entries := entries - {h};
        }
        todo := todo - {h};
      }
      AllVisited(was, View(), sid);
    }

    method Clear()
      modifies this
      ensures View() == NewCache(firstDonor, donorCapacity).(tick := old(tick))
      ensures firstDonor == old(firstDonor) && donorCapacity == old(donorCapacity)
    {
      entries := map[];
      ConfigureDonors(firstDonor, donorCapacity);
    }
  }

  function Times(n: nat, sid: SeqId): seq<SeqId> {
    seq(n, i => sid)
  }

  lemma TimesMore(s: seq<SeqId>, n: nat, sid: SeqId)
    ensures s + Times(n, sid) + [sid] == s + Times(n + 1, sid)
  {
    assert Times(n, sid) + [sid] == Times(n + 1, sid);
  }

  /** `now` is `was` after forgetting `sid` everywhere but in `todo`. */
  ghost predicate Visited(was: CacheState, now: CacheState, todo: set<nat>, sid: SeqId) {
    && todo <= now.entries.Keys <= was.entries.Keys && now.tick == was.tick
    && (forall h :: h in now.entries ==> now.entries[h] == was.entries[h])
    && (forall h :: h in was.entries ==> (h in now.entries <==> h in todo || was.entries[h].entry.sid != sid))
    && now.freeDonors == was.freeDonors + Times(|DonorKeys(was, sid) - todo|, sid)
  }

  function Visit(c: CacheState, h: nat, sid: SeqId): CacheState
    requires h in c.entries
  {
    if c.entries[h].entry.sid != sid then c
    else if c.entries[h].entry.retained then c.(entries := c.entries - {h}, freeDonors := c.freeDonors + [sid])
    else c.(entries := c.entries - {h})
  }

  lemma VisitKeeps(was: CacheState, now: CacheState, todo: set<nat>, h: nat, sid: SeqId)
    requires Visited(was, now, todo, sid) && h in todo
    ensures Visited(was, Visit(now, h, sid), todo - {h}, sid)
  {
    var keys, r := DonorKeys(was, sid), Visit(now, h, sid);
    assert h in keys <==> was.entries[h].entry.sid == sid && was.entries[h].entry.retained;
    CountVisited(keys, todo, h);
    TimesMore(was.freeDonors, |keys - todo|, sid);
    assert r.entries.Keys == (if was.entries[h].entry.sid == sid then now.entries.Keys - {h} else now.entries.Keys);
  }

  lemma CountVisited(keys: set<nat>, todo: set<nat>, h: nat)
    requires h in todo
    ensures |keys - (todo - {h})| == |keys - todo| + (if h in keys then 1 else 0)
  {
    assert keys - (todo - {h}) == (keys - todo) + (if h in keys then {h} else {});
  }

  lemma AllVisited(was: CacheState, now: CacheState, sid: SeqId)
    requires Visited(was, now, {}, sid)
    ensures now == EvictSequence(was, sid)
  {
    assert DonorKeys(was, sid) - {} == DonorKeys(was, sid);
    assert now.entries == EvictSequence(was, sid).entries;
  }

  lemma WholeBlocksFit(nb: nat, bs: nat, n: nat)
    requires bs > 0 && nb == n / bs
    ensures nb * bs <= n
  {
  }
}
