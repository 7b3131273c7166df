/** The prefix cache with retained donors (src/core/block_allocator.cpp:70-173), as values.
    Recency is a counter per record; the last part of the module shows that this refines a
    plain list kept in order of use. */
module Cache {
  import opened Types

  /** Which sequence's KV holds a prefix, how long it is and which blocks back it.
      `retained` entries live in a donor slot; the others name a live sequence. */
  datatype Entry = Entry(sid: SeqId, nTokens: nat, blocks: seq<BlockId>, retained: bool)

  datatype Record = Record(entry: Entry, lastUsed: nat)

  datatype CacheState = CacheState(entries: map<nat, Record>, freeDonors: seq<SeqId>, tick: nat)

  function NewCache(first: SeqId, count: nat): CacheState {
    CacheState(map[], seq(count, i requires 0 <= i < count => first + (count - 1 - i)), 0)
  }

  /** Longest first, whole blocks only: the key of the match among the first `nb` blocks. */
  function MatchFrom(hash: seq<Token> -> nat, c: CacheState, tokens: seq<Token>, bs: nat, nb: nat): (r: Option<nat>)
    requires bs > 0 && nb * bs <= |tokens|
    ensures r.Some? ==> r.value in c.entries
    decreases nb
  {
    if nb == 0 then None
    else
      var n := nb * bs;
      var h := hash(tokens[..n]);
      if h in c.entries && c.entries[h].entry.nTokens == n then Some(h)
      else MatchFrom(hash, c, tokens, bs, nb - 1)
  }

  function LongestMatch(hash: seq<Token> -> nat, c: CacheState, tokens: seq<Token>, bs: nat): (r: Option<nat>)
    requires bs > 0
    ensures r.Some? ==> r.value in c.entries
  {
    MatchFrom(hash, c, tokens, bs, |tokens| / bs)
  }

  function Touch(c: CacheState, h: nat): CacheState
    requires h in c.entries
  {
    c.(entries := c.entries[h := c.entries[h].(lastUsed := c.tick + 1)], tick := c.tick + 1)
  }

  function FindLongest(hash: seq<Token> -> nat, c: CacheState, tokens: seq<Token>, bs: nat): (CacheState, Option<Entry>)
    requires bs > 0
  {
    match LongestMatch(hash, c, tokens, bs)
    case None => (c, None)
    case Some(h) => (Touch(c, h), Some(c.entries[h].entry))
  }

  /** Replaces whatever was stored under `h`, a retained entry included. */
  function Insert(c: CacheState, h: nat, e: Entry): CacheState {
    c.(entries := c.entries[h := Record(e, c.tick + 1)], tick := c.tick + 1)
  }

  predicate HasRetained(c: CacheState) {
    exists h :: h in c.entries && c.entries[h].entry.retained
  }

  ghost predicate IsLru(c: CacheState, h: nat) {
    && h in c.entries && c.entries[h].entry.retained
    && forall k :: k in c.entries && c.entries[k].entry.retained ==> c.entries[h].lastUsed <= c.entries[k].lastUsed
  }

  lemma {:induction false} LruExists(c: CacheState, below: nat, h: nat)
    requires h in c.entries && c.entries[h].entry.retained && c.entries[h].lastUsed <= below
    ensures exists k :: IsLru(c, k)
    decreases below
  {
    if !IsLru(c, h) {
      var k :| k in c.entries && c.entries[k].entry.retained && c.entries[k].lastUsed < c.entries[h].lastUsed;
      LruExists(c, below - 1, k);
    }
  }

  /** The least recently used retained key. */
  ghost function LruKey(c: CacheState): (h: nat)
    requires HasRetained(c)
    ensures IsLru(c, h)
  {
    var start :| start in c.entries && c.entries[start].entry.retained;
    LruExists(c, c.entries[start].lastUsed, start);
    var h :| IsLru(c, h);
    h
  }

  /** Ticks are unique and none lies in the future. */
  ghost predicate TicksOk(c: CacheState) {
    && (forall h :: h in c.entries ==> c.entries[h].lastUsed <= c.tick)
    && (forall h, k {:trigger TickApart(c, h, k)} :: h in c.entries && k in c.entries ==> TickApart(c, h, k))
  }

  ghost predicate TickApart(c: CacheState, h: nat, k: nat)
    requires h in c.entries && k in c.entries
  {
    h != k ==> c.entries[h].lastUsed != c.entries[k].lastUsed
  }

  lemma LruUnique(c: CacheState, h: nat, k: nat)
    requires TicksOk(c) && IsLru(c, h) && IsLru(c, k)
    ensures h == k
  {
    assert TickApart(c, h, k);
  }

  function Drop(c: CacheState, h: nat): CacheState
    requires h in c.entries
  {
    c.(entries := c.entries - {h}, freeDonors := c.freeDonors + [c.entries[h].entry.sid])
  }

  ghost function EvictLru(c: CacheState): (CacheState, Entry)
    requires HasRetained(c)
  {
    var h := LruKey(c);
    (Drop(c, h), c.entries[h].entry)
  }

  function DonorKeys(c: CacheState, sid: SeqId): set<nat> {
    set h | h in c.entries && c.entries[h].entry.sid == sid && c.entries[h].entry.retained
  }

  /** Forget every entry of `sid`; a donor slot goes back to the free donors. */
  function EvictSequence(c: CacheState, sid: SeqId): CacheState {
    c.(entries := map h | h in c.entries && c.entries[h].entry.sid != sid :: c.entries[h],
       freeDonors := c.freeDonors + seq(|DonorKeys(c, sid)|, i => sid))
  }

  /** `d` keeps some of the entries of `c`, recency aside. */
  ghost predicate SubEntries(d: CacheState, c: CacheState) {
    forall h :: h in d.entries ==> h in c.entries && d.entries[h].entry == c.entries[h].entry
  }

  lemma TicksKept(c: CacheState, h: nat, sid: SeqId)
    requires TicksOk(c)
    ensures TicksOk(EvictSequence(c, sid)) && SubEntries(EvictSequence(c, sid), c)
    ensures h in c.entries ==> TicksOk(Drop(c, h)) && SubEntries(Drop(c, h), c)
  {
    var d := EvictSequence(c, sid);
    assert forall i, k :: i in d.entries && k in d.entries && TickApart(c, i, k) ==> TickApart(d, i, k);
    if h in c.entries {
      var e := Drop(c, h);
      assert forall i, k :: i in e.entries && k in e.entries && TickApart(c, i, k) ==> TickApart(e, i, k);
    }
  }

  lemma InsertTicks(c: CacheState, h: nat, e: Entry)
    requires TicksOk(c)
    ensures TicksOk(Insert(c, h, e))
  {
    var d := Insert(c, h, e);
    forall i, k | i in d.entries && k in d.entries
      ensures TickApart(d, i, k)
    {
      if i != h && k != h {
        assert TickApart(c, i, k);
      }
    }
  }

  lemma TouchTicks(c: CacheState, h: nat)
    requires TicksOk(c) && h in c.entries
    ensures TicksOk(Touch(c, h)) && SubEntries(Touch(c, h), c)
  {
    InsertTicks(c, h, c.entries[h].entry);
    assert Touch(c, h) == Insert(c, h, c.entries[h].entry);
  }

  lemma {:induction false} MatchFromKey(hash: seq<Token> -> nat, c: CacheState, tokens: seq<Token>, bs: nat, nb: nat)
    requires bs > 0 && nb * bs <= |tokens| && MatchFrom(hash, c, tokens, bs, nb).Some?
    ensures var h := MatchFrom(hash, c, tokens, bs, nb).value;
      c.entries[h].entry.nTokens <= |tokens| && h == hash(tokens[..c.entries[h].entry.nTokens])
    decreases nb
  {
    var h := hash(tokens[..nb * bs]);
    if !(h in c.entries && c.entries[h].entry.nTokens == nb * bs) {
      MatchFromKey(hash, c, tokens, bs, nb - 1);
    }
  }

  /** A hit is stored under the hash of that many tokens of the query; the tokens themselves
      are not compared. */
  lemma LongestMatchKey(hash: seq<Token> -> nat, c: CacheState, tokens: seq<Token>, bs: nat)
    requires bs > 0 && LongestMatch(hash, c, tokens, bs).Some?
    ensures var h := LongestMatch(hash, c, tokens, bs).value;
      c.entries[h].entry.nTokens <= |tokens| && h == hash(tokens[..c.entries[h].entry.nTokens])
  {
    MatchFromKey(hash, c, tokens, bs, |tokens| / bs);
  }

  /* ---------------- longest match ---------------- */

  /** `stored` gives the token prefix each key was stored for. */
  ghost predicate Labelled(hash: seq<Token> -> nat, c: CacheState, stored: map<nat, seq<Token>>) {
    forall h :: h in c.entries ==>
      h in stored && hash(stored[h]) == h && |stored[h]| == c.entries[h].entry.nTokens
  }

  /** No stored prefix shares its hash with a different prefix of the query of its length. */
  ghost predicate NoCollision(hash: seq<Token> -> nat, c: CacheState, stored: map<nat, seq<Token>>, tokens: seq<Token>) {
    forall h, n :: h in c.entries && h in stored && 0 <= n <= |tokens| && n == |stored[h]| && hash(tokens[..n]) == hash(stored[h])
      ==> tokens[..n] == stored[h]
  }

  lemma MultipleBelow(m: nat, bs: nat, nb: nat)
    requires bs > 0 && m % bs == 0 && m <= nb * bs + bs - 1
    ensures m <= nb * bs
  {
    var q := m / bs;
    assert m == q * bs;
    assert q > nb ==> q * bs >= (nb + 1) * bs;
  }

  /** A cached whole-block prefix of the query, no longer than `limit`. */
  ghost predicate Candidate(c: CacheState, stored: map<nat, seq<Token>>, tokens: seq<Token>, bs: nat, limit: nat, h: nat)
    requires bs > 0
  {
    h in c.entries && h in stored && stored[h] <= tokens && 0 < |stored[h]| <= limit && |stored[h]| % bs == 0
  }

  /** Nothing is cached under the hash of the first `n` tokens, so no candidate has that length. */
  lemma ShorterCandidate(hash: seq<Token> -> nat, c: CacheState, stored: map<nat, seq<Token>>, tokens: seq<Token>, bs: nat, n: nat, q: nat, h: nat)
    requires bs > 0 && n <= |tokens| && n == q * bs + bs && Labelled(hash, c, stored)
    requires var g := hash(tokens[..n]); !(g in c.entries && c.entries[g].entry.nTokens == n)
    requires Candidate(c, stored, tokens, bs, n, h)
    ensures Candidate(c, stored, tokens, bs, q * bs, h)
  {
    assert stored[h] == tokens[..|stored[h]|];
    MultipleBelow(|stored[h]|, bs, q);
  }

  lemma OneBlockLess(nb: nat, bs: nat)
    requires nb > 0
    ensures nb * bs == (nb - 1) * bs + bs
  {
  }

  /** `r` names a cached prefix of the query, and none of at most `limit` tokens is longer. */
  ghost predicate LongestWithin(c: CacheState, stored: map<nat, seq<Token>>, tokens: seq<Token>, bs: nat, limit: nat, r: Option<nat>)
    requires bs > 0
  {
    && (r.Some? ==> r.value in stored && stored[r.value] <= tokens)
    && forall h :: Candidate(c, stored, tokens, bs, limit, h) ==> r.Some? && |stored[h]| <= |stored[r.value]|
  }

  lemma MatchedIsLongest(hash: seq<Token> -> nat, c: CacheState, stored: map<nat, seq<Token>>, tokens: seq<Token>, bs: nat, n: nat)
    requires bs > 0 && n <= |tokens| && Labelled(hash, c, stored) && NoCollision(hash, c, stored, tokens)
    requires var g := hash(tokens[..n]); g in c.entries && c.entries[g].entry.nTokens == n
    ensures LongestWithin(c, stored, tokens, bs, n, Some(hash(tokens[..n])))
  {
    assert tokens[..n] == stored[hash(tokens[..n])];
  }

  lemma UnmatchedIsShorter(
    hash: seq<Token> -> nat, c: CacheState, stored: map<nat, seq<Token>>, tokens: seq<Token>, bs: nat, n: nat, q: nat, m: nat, r: Option<nat>)
    requires bs > 0 && m == q * bs && n == m + bs && n <= |tokens| && Labelled(hash, c, stored)
    requires var g := hash(tokens[..n]); !(g in c.entries && c.entries[g].entry.nTokens == n)
    requires LongestWithin(c, stored, tokens, bs, m, r)
    ensures LongestWithin(c, stored, tokens, bs, n, r)
  {
    forall h | Candidate(c, stored, tokens, bs, n, h)
      ensures Candidate(c, stored, tokens, bs, m, h)
    {
      ShorterCandidate(hash, c, stored, tokens, bs, n, q, h);
    }
  }

  lemma {:induction false} MatchFromIsLongest(
    hash: seq<Token> -> nat, c: CacheState, stored: map<nat, seq<Token>>, tokens: seq<Token>, bs: nat, nb: nat)
    requires bs > 0 && nb * bs <= |tokens|
    requires Labelled(hash, c, stored) && NoCollision(hash, c, stored, tokens)
    ensures LongestWithin(c, stored, tokens, bs, nb * bs, MatchFrom(hash, c, tokens, bs, nb))
    decreases nb
  {
    if nb > 0 {
      OneBlockLess(nb, bs);
      var n, m := nb * bs, (nb - 1) * bs;
      var g := hash(tokens[..n]);
      if g in c.entries && c.entries[g].entry.nTokens == n {
        MatchedIsLongest(hash, c, stored, tokens, bs, n);
      } else {
        MatchFromIsLongest(hash, c, stored, tokens, bs, nb - 1);
        UnmatchedIsShorter(hash, c, stored, tokens, bs, n, nb - 1, m, MatchFrom(hash, c, tokens, bs, nb - 1));
      }
    }
  }

  /** Absent collisions the lookup returns the longest whole-block prefix of the query that
      is cached, and misses only when none is. */
  lemma LongestMatchIsLongest(hash: seq<Token> -> nat, c: CacheState, stored: map<nat, seq<Token>>, tokens: seq<Token>, bs: nat)
    requires bs > 0 && Labelled(hash, c, stored) && NoCollision(hash, c, stored, tokens)
    ensures var r := LongestMatch(hash, c, tokens, bs);
      && (r.Some? ==> stored[r.value] <= tokens)
      && (forall h :: Candidate(c, stored, tokens, bs, |tokens|, h) ==> r.Some? && |stored[h]| <= |stored[r.value]|)
  {
    WholeBlocksOf(|tokens|, bs);
    LongestFrom(hash, c, stored, tokens, bs, |tokens| / bs);
  }

  lemma WholeBlocksOf(n: nat, bs: nat)
    requires bs > 0
    ensures n / bs * bs <= n < n / bs * bs + bs
  {
  }

  /** A candidate fills whole blocks, so it is no longer than the query's whole blocks. */
  lemma LongestFrom(hash: seq<Token> -> nat, c: CacheState, stored: map<nat, seq<Token>>, tokens: seq<Token>, bs: nat, nb: nat)
    requires bs > 0 && nb * bs <= |tokens| < nb * bs + bs
    requires Labelled(hash, c, stored) && NoCollision(hash, c, stored, tokens)
    ensures var r := MatchFrom(hash, c, tokens, bs, nb);
      && (r.Some? ==> stored[r.value] <= tokens)
      && (forall h :: Candidate(c, stored, tokens, bs, |tokens|, h) ==> r.Some? && |stored[h]| <= |stored[r.value]|)
  {
    MatchFromIsLongest(hash, c, stored, tokens, bs, nb);
    forall h | Candidate(c, stored, tokens, bs, |tokens|, h)
      ensures Candidate(c, stored, tokens, bs, nb * bs, h)
    {
      MultipleBelow(|stored[h]|, bs, nb);
    }
  }

  /* ---------------- refinement of a recency list ---------------- */

  /** The reference structure: keys and entries, least recently used first. */
  type RecencyList = seq<(nat, Entry)>

  function Without(l: RecencyList, h: nat): RecencyList {
    if l == [] then []
    else Without(DropLast(l), h) + (if Last(l).0 == h then [] else [Last(l)])
  }

  function WithoutSeq(l: RecencyList, sid: SeqId): RecencyList {
    if l == [] then []
    else WithoutSeq(DropLast(l), sid) + (if Last(l).1.sid == sid then [] else [Last(l)])
  }

  function FirstRetained(l: RecencyList): Option<(nat, Entry)> {
    if l == [] then None
    else
      var r := FirstRetained(DropLast(l));
      if r.Some? then r else if Last(l).1.retained then Some(Last(l)) else None
  }

  ghost predicate InOrder(c: CacheState, l: RecencyList) {
    l != [] ==>
      && InOrder(c, DropLast(l))
      && Last(l).0 in c.entries && c.entries[Last(l).0].entry == Last(l).1
      && forall x :: x in DropLast(l) ==> x.0 in c.entries && c.entries[x.0].lastUsed < c.entries[Last(l).0].lastUsed
  }

  /** The list holds the cache's entries in order of use. */
  ghost predicate Refines(c: CacheState, l: RecencyList) {
    && TicksOk(c) && InOrder(c, l)
    && forall h :: h in c.entries ==> (h, c.entries[h].entry) in l
  }

  lemma {:induction false} InOrderMembers(c: CacheState, l: RecencyList)
    requires InOrder(c, l)
    ensures forall x :: x in l ==> x.0 in c.entries && c.entries[x.0].entry == x.1
  {
    if l != [] {
      InOrderMembers(c, DropLast(l));
      assert l == DropLast(l) + [Last(l)];
    }
  }

  lemma {:induction false} WithoutMembers(l: RecencyList, h: nat)
    ensures forall x :: x in Without(l, h) <==> x in l && x.0 != h
  {
    if l != [] {
      WithoutMembers(DropLast(l), h);
      assert l == DropLast(l) + [Last(l)];
    }
  }

  lemma {:induction false} WithoutSeqMembers(l: RecencyList, sid: SeqId)
    ensures forall x :: x in WithoutSeq(l, sid) <==> x in l && x.1.sid != sid
  {
    if l != [] {
      WithoutSeqMembers(DropLast(l), sid);
      assert l == DropLast(l) + [Last(l)];
    }
  }

  lemma InOrderPush(c: CacheState, l: RecencyList, x: (nat, Entry))
    requires InOrder(c, l) && x.0 in c.entries && c.entries[x.0].entry == x.1
    requires forall y :: y in l ==> y.0 in c.entries && c.entries[y.0].lastUsed < c.entries[x.0].lastUsed
    ensures InOrder(c, l + [x])
  {
    assert DropLast(l + [x]) == l;
  }

  lemma {:induction false} WithoutInOrder(c: CacheState, d: CacheState, l: RecencyList, h: nat)
    requires InOrder(c, l)
    requires forall k :: k in c.entries && k != h ==> k in d.entries && d.entries[k] == c.entries[k]
    ensures InOrder(d, Without(l, h))
  {
    if l != [] {
      WithoutInOrder(c, d, DropLast(l), h);
      WithoutMembers(DropLast(l), h);
      if Last(l).0 != h {
        InOrderPush(d, Without(DropLast(l), h), Last(l));
      } else {
        assert Without(l, h) == Without(DropLast(l), h);
      }
    }
  }

  lemma {:induction false} WithoutSeqInOrder(c: CacheState, l: RecencyList, sid: SeqId)
    requires InOrder(c, l)
    ensures InOrder(EvictSequence(c, sid), WithoutSeq(l, sid))
  {
    if l != [] {
      var d := EvictSequence(c, sid);
      WithoutSeqInOrder(c, DropLast(l), sid);
      WithoutSeqMembers(DropLast(l), sid);
      InOrderMembers(c, DropLast(l));
      if Last(l).1.sid != sid {
        InOrderPush(d, WithoutSeq(DropLast(l), sid), Last(l));
      } else {
        assert WithoutSeq(l, sid) == WithoutSeq(DropLast(l), sid);
      }
    }
  }

  /** Inserting, or touching with the stored entry, moves the key to the recent end. */
  lemma InsertRefines(c: CacheState, l: RecencyList, h: nat, e: Entry)
    requires Refines(c, l)
    ensures Refines(Insert(c, h, e), Without(l, h) + [(h, e)])
  {
    var d := Insert(c, h, e);
    InsertTicks(c, h, e);
    WithoutInOrder(c, d, l, h);
    WithoutMembers(l, h);
    InOrderMembers(c, l);
    InOrderPush(d, Without(l, h), (h, e));
  }

  lemma {:induction false} FirstRetainedIsLru(c: CacheState, l: RecencyList)
    requires InOrder(c, l)
    ensures FirstRetained(l).None? ==> forall x :: x in l ==> !x.1.retained
    ensures FirstRetained(l).Some? ==>
      var f := FirstRetained(l).value;
      f in l && f.1.retained && forall x :: x in l && x.1.retained ==> c.entries[f.0].lastUsed <= c.entries[x.0].lastUsed
  {
    if l != [] {
      FirstRetainedIsLru(c, DropLast(l));
      assert l == DropLast(l) + [Last(l)];
      InOrderMembers(c, l);
    }
  }

  /** The victim of the tick scan is the first retained entry of the list. */
  lemma EvictLruRefines(c: CacheState, l: RecencyList)
    requires Refines(c, l)
    ensures HasRetained(c) <==> FirstRetained(l).Some?
    ensures HasRetained(c) ==>
      var (d, e) := EvictLru(c);
      FirstRetained(l).value == (LruKey(c), e) && Refines(d, Without(l, LruKey(c)))
  {
    FirstRetainedIsLru(c, l);
    InOrderMembers(c, l);
    if HasRetained(c) {
      var h := LruKey(c);
      assert (h, c.entries[h].entry) in l;
      LruUnique(c, h, FirstRetained(l).value.0);
      TicksKept(c, h, 0);
      WithoutInOrder(c, Drop(c, h), l, h);
      WithoutMembers(l, h);
    }
  }

  lemma EvictSequenceRefines(c: CacheState, l: RecencyList, sid: SeqId)
    requires Refines(c, l)
    ensures Refines(EvictSequence(c, sid), WithoutSeq(l, sid))
  {
    TicksKept(c, 0, sid);
    WithoutSeqInOrder(c, l, sid);
    WithoutSeqMembers(l, sid);
  }

  /* Whole histories of cache calls. */

  datatype CacheOp =
    | Find(tokens: seq<Token>)
    | Store(key: nat, entry: Entry)
    | Evict
    | Forget(sid: SeqId)

  /** One call on the tick cache, with what it returns. */
  ghost function ApplyOp(hash: seq<Token> -> nat, bs: nat, c: CacheState, op: CacheOp): (CacheState, Option<Entry>)
    requires bs > 0
  {
    match op
    case Find(tokens) => FindLongest(hash, c, tokens, bs)
    case Store(h, e) => (Insert(c, h, e), None)
    case Evict => if HasRetained(c) then (EvictLru(c).0, Some(EvictLru(c).1)) else (c, None)
    case Forget(sid) => (EvictSequence(c, sid), None)
  }

  /** The entry stored under `h` in the list, if any. */
  function Lookup(l: RecencyList, h: nat): Option<Entry> {
    if l == [] then None else if Last(l).0 == h then Some(Last(l).1) else Lookup(DropLast(l), h)
  }

  function ListMatch(hash: seq<Token> -> nat, l: RecencyList, tokens: seq<Token>, bs: nat, nb: nat): Option<nat>
    requires bs > 0 && nb * bs <= |tokens|
    decreases nb
  {
    if nb == 0 then None
    else
      var h := hash(tokens[..nb * bs]);
      if Lookup(l, h).Some? && Lookup(l, h).value.nTokens == nb * bs then Some(h)
      else ListMatch(hash, l, tokens, bs, nb - 1)
  }

  /** The same call on the recency list. */
  function ListOp(hash: seq<Token> -> nat, bs: nat, l: RecencyList, op: CacheOp): (RecencyList, Option<Entry>)
    requires bs > 0
  {
    match op
    case Find(tokens) =>
      (match ListMatch(hash, l, tokens, bs, |tokens| / bs)
       case None => (l, None)
       case Some(h) =>
         if Lookup(l, h).Some? then (Without(l, h) + [(h, Lookup(l, h).value)], Lookup(l, h)) else (l, None))
    case Store(h, e) => (Without(l, h) + [(h, e)], None)
    case Evict =>
      (match FirstRetained(l)
       case None => (l, None)
       case Some(x) => (Without(l, x.0), Some(x.1)))
    case Forget(sid) => (WithoutSeq(l, sid), None)
  }

  lemma {:induction false} LookupAgrees(c: CacheState, l: RecencyList, h: nat)
    requires InOrder(c, l)
    ensures Lookup(l, h).Some? ==> h in c.entries && Lookup(l, h).value == c.entries[h].entry
    ensures h in c.entries && (h, c.entries[h].entry) in l ==> Lookup(l, h) == Some(c.entries[h].entry)
  {
    if l != [] {
      assert l == DropLast(l) + [Last(l)];
      LookupAgrees(c, DropLast(l), h);
    }
  }

  lemma {:induction false} MatchAgrees(hash: seq<Token> -> nat, c: CacheState, l: RecencyList, tokens: seq<Token>, bs: nat, nb: nat)
    requires bs > 0 && nb * bs <= |tokens| && Refines(c, l)
    ensures MatchFrom(hash, c, tokens, bs, nb) == ListMatch(hash, l, tokens, bs, nb)
    decreases nb
  {
    if nb > 0 {
      LookupAgrees(c, l, hash(tokens[..nb * bs]));
      MatchAgrees(hash, c, l, tokens, bs, nb - 1);
    }
  }

  lemma OpRefines(hash: seq<Token> -> nat, bs: nat, c: CacheState, l: RecencyList, op: CacheOp)
    requires bs > 0 && Refines(c, l)
    ensures var (d, r), (m, q) := ApplyOp(hash, bs, c, op), ListOp(hash, bs, l, op);
      r == q && Refines(d, m)
  {
    match op
    case Find(tokens) =>
      MatchAgrees(hash, c, l, tokens, bs, |tokens| / bs);
      var found := LongestMatch(hash, c, tokens, bs);
      if found.Some? {
        LookupAgrees(c, l, found.value);
        InsertRefines(c, l, found.value, c.entries[found.value].entry);
        assert Touch(c, found.value) == Insert(c, found.value, c.entries[found.value].entry);
      }
    case Store(h, e) => InsertRefines(c, l, h, e);
    case Evict => EvictLruRefines(c, l);
    case Forget(sid) => EvictSequenceRefines(c, l, sid);
  }

  /** What a history of calls returns, call by call. */
  ghost function RunOps(hash: seq<Token> -> nat, bs: nat, c: CacheState, ops: seq<CacheOp>): seq<Option<Entry>>
    requires bs > 0
    decreases |ops|
  {
    if ops == [] then [] else
      var (d, r) := ApplyOp(hash, bs, c, ops[0]);
      [r] + RunOps(hash, bs, d, ops[1..])
  }

  function RunListOps(hash: seq<Token> -> nat, bs: nat, l: RecencyList, ops: seq<CacheOp>): seq<Option<Entry>>
    requires bs > 0
    decreases |ops|
  {
    if ops == [] then [] else
      var (m, r) := ListOp(hash, bs, l, ops[0]);
      [r] + RunListOps(hash, bs, m, ops[1..])
  }

  /** A new cache and the empty list. */
  lemma NewCacheRefines(first: SeqId, count: nat)
    ensures Refines(NewCache(first, count), [])
  {
    assert NewCache(first, count).entries == map[];
  }

  /** So from the start, over any history of calls, the tick cache answers as the list does. */
  lemma CacheIsARecencyList(hash: seq<Token> -> nat, bs: nat, first: SeqId, count: nat, ops: seq<CacheOp>)
    requires bs > 0
    ensures RunOps(hash, bs, NewCache(first, count), ops) == RunListOps(hash, bs, [], ops)
  {
    NewCacheRefines(first, count);
    CacheRefinesRecencyList(hash, bs, NewCache(first, count), [], ops);
  }

  /** Over any history of calls the tick cache answers exactly as the recency list does:
      same hits, same victims. */
  lemma {:induction false} CacheRefinesRecencyList(hash: seq<Token> -> nat, bs: nat, c: CacheState, l: RecencyList, ops: seq<CacheOp>)
    requires bs > 0 && Refines(c, l)
    ensures RunOps(hash, bs, c, ops) == RunListOps(hash, bs, l, ops)
    decreases |ops|
  {
    if ops != [] {
      OpRefines(hash, bs, c, l, ops[0]);
      CacheRefinesRecencyList(hash, bs, ApplyOp(hash, bs, c, ops[0]).0, ListOp(hash, bs, l, ops[0]).0, ops[1..]);
    }
  }
}
