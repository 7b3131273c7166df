/** The refcounted KV block pool and the per-sequence page table
    (src/core/block_allocator.cpp:8-65, 178-211), as values, with the conservation law that
    ties refcounts to the tables that hold the blocks. */
module BlockPool {
  import opened Types

  /** `freeList` is a stack; `refs` is indexed by block id. */
  datatype Pool = Pool(freeList: seq<BlockId>, refs: seq<nat>)

  function NewPool(total: nat): Pool {
    Pool(seq(total, i requires 0 <= i < total => total - 1 - i), seq(total, i => 0))
  }

  function BlocksFor(blockSize: nat, tokens: nat): (n: nat)
    requires blockSize > 0
  {
    (tokens + blockSize - 1) / blockSize
  }

  /** It is the ceiling: enough blocks, and not one too many. */
  lemma BlocksForIsCeiling(blockSize: nat, tokens: nat)
    requires blockSize > 0
    ensures var n := BlocksFor(blockSize, tokens); tokens <= n * blockSize < tokens + blockSize
  {
  }

  lemma ScaleOrder(a: nat, b: nat, d: nat)
    requires a <= b
    ensures a * d <= b * d
  {
  }

  lemma BlocksForMonotone(blockSize: nat, a: nat, b: nat)
    requires blockSize > 0 && a <= b
    ensures BlocksFor(blockSize, a) <= BlocksFor(blockSize, b)
  {
    BlocksForIsCeiling(blockSize, a);
    BlocksForIsCeiling(blockSize, b);
    CeilingsOrdered(BlocksFor(blockSize, a), BlocksFor(blockSize, b), blockSize, a, b);
  }

  lemma CeilingsOrdered(q: nat, r: nat, blockSize: nat, a: nat, b: nat)
    requires q * blockSize < a + blockSize && a <= b <= r * blockSize
    ensures q <= r
  {
    var d := q - r;
    assert q * blockSize == r * blockSize + d * blockSize;
    assert d >= 1 ==> d * blockSize >= blockSize;
  }

  function SetRef(refs: seq<nat>, id: BlockId, v: nat): seq<nat> {
    if id < |refs| then refs[id := v] else refs
  }

  /** Take `n` blocks off the free list, each at refcount one. */
  function AllocN(p: Pool, n: nat): (Pool, seq<BlockId>)
    requires n <= |p.freeList|
    decreases n
  {
    if n == 0 then (p, [])
    else
      var id := Last(p.freeList);
      var (q, ids) := AllocN(Pool(DropLast(p.freeList), SetRef(p.refs, id, 1)), n - 1);
      (q, [id] + ids)
  }

  lemma AllocOne(p: Pool)
    requires p.freeList != []
    ensures AllocN(p, 1) == (Pool(DropLast(p.freeList), SetRef(p.refs, Last(p.freeList), 1)), [Last(p.freeList)])
  {
    var q := Pool(DropLast(p.freeList), SetRef(p.refs, Last(p.freeList), 1));
    var (r, ids) := AllocN(q, 0);
    assert r == q && ids == [];
    assert [Last(p.freeList)] + ids == [Last(p.freeList)];
  }

  lemma {:induction false} AllocNLength(p: Pool, n: nat)
    requires n <= |p.freeList|
    ensures |AllocN(p, n).1| == n
    decreases n
  {
    if n > 0 {
      AllocNLength(Pool(DropLast(p.freeList), SetRef(p.refs, Last(p.freeList), 1)), n - 1);
    }
  }

  /** All or nothing. */
  function Allocate(p: Pool, n: nat): Option<(Pool, seq<BlockId>)> {
    if n <= |p.freeList| then Some(AllocN(p, n)) else None
  }

  /** Drop one reference; a double free or an id out of range is ignored. */
  function FreeOne(p: Pool, id: BlockId): Pool {
    if id >= |p.refs| || p.refs[id] == 0 then p
    else if p.refs[id] == 1 then Pool(p.freeList + [id], p.refs[id := 0])
    else p.(refs := p.refs[id := p.refs[id] - 1])
  }

  function Free(p: Pool, blocks: seq<BlockId>): Pool
    decreases |blocks|
  {
    if blocks == [] then p else Free(FreeOne(p, blocks[0]), blocks[1..])
  }

  /** Silently skipped when the block has no reference yet. */
  function Incref(p: Pool, id: BlockId): Pool {
    if id < |p.refs| && p.refs[id] > 0 then p.(refs := p.refs[id := p.refs[id] + 1]) else p
  }

  function IncrefAll(p: Pool, blocks: seq<BlockId>): Pool
    decreases |blocks|
  {
    if blocks == [] then p else IncrefAll(Incref(p, blocks[0]), blocks[1..])
  }

  /* ---------------- conservation ---------------- */

  /** Who holds which blocks: one page table per live sequence or donor. */
  type Ownership = map<SeqId, seq<BlockId>>

  ghost function Owners(own: Ownership, b: BlockId): set<SeqId> {
    set k | k in own && b in own[k]
  }

  /** Tables name blocks of the pool, and no table holds a block twice. */
  ghost predicate TablesOk(total: nat, own: Ownership) {
    forall k :: k in own ==> NoDup(own[k]) && forall b :: b in own[k] ==> b < total
  }

  /** A block's refcount is the number of tables that hold it. */
  ghost predicate CountsOk(refs: seq<nat>, own: Ownership) {
    forall b: BlockId :: b < |refs| ==> refs[b] == |Owners(own, b)|
  }

  /** The free list is exactly the unreferenced blocks, each once. */
  ghost predicate FreeListOk(p: Pool) {
    && NoDup(p.freeList)
    && forall b: BlockId :: b in p.freeList <==> b < |p.refs| && p.refs[b] == 0
  }

  /** The conservation law of the pool. */
  ghost predicate PoolOk(p: Pool, own: Ownership) {
    TablesOk(|p.refs|, own) && CountsOk(p.refs, own) && FreeListOk(p)
  }

  lemma NewPoolOk(total: nat)
    ensures PoolOk(NewPool(total), map[])
    ensures |NewPool(total).freeList| == total
  {
    var p := NewPool(total);
    forall b: nat | b < total
      ensures b in p.freeList
    {
      assert p.freeList[total - 1 - b] == b;
    }
  }

  lemma AddEmptyOwner(p: Pool, own: Ownership, k: SeqId)
    requires PoolOk(p, own) && k !in own
    ensures PoolOk(p, own[k := []])
  {
    forall b: BlockId
      ensures Owners(own[k := []], b) == Owners(own, b)
    {
    }
  }

  lemma DropEmptyOwner(p: Pool, own: Ownership, k: SeqId)
    requires PoolOk(p, own) && k in own && own[k] == []
    ensures PoolOk(p, own - {k})
  {
    forall b: BlockId
      ensures Owners(own - {k}, b) == Owners(own, b)
    {
    }
  }

  lemma OwnedIsReferenced(p: Pool, own: Ownership, k: SeqId, b: BlockId)
    requires PoolOk(p, own) && k in own && b in own[k]
    ensures b < |p.refs| && p.refs[b] >= 1 && b !in p.freeList
  {
    assert k in Owners(own, b);
  }

  lemma {:induction false} GainOne(own: Ownership, k: SeqId, id: BlockId)
    requires k in own && id !in own[k]
    ensures var own' := own[k := own[k] + [id]];
      && |Owners(own', id)| == |Owners(own, id)| + 1
      && forall b: BlockId :: b != id ==> Owners(own', b) == Owners(own, b)
  {
    var own' := own[k := own[k] + [id]];
    assert Owners(own', id) == Owners(own, id) + {k};
    forall b: BlockId | b != id
      ensures Owners(own', b) == Owners(own, b)
    {
      assert forall x :: x in own[k] + [id] && x != id ==> x in own[k];
    }
  }

  lemma {:induction false} AllocOneKeepsPool(p: Pool, own: Ownership, k: SeqId)
    requires PoolOk(p, own) && k in own && p.freeList != []
    ensures var id := Last(p.freeList);
      PoolOk(Pool(DropLast(p.freeList), SetRef(p.refs, id, 1)), own[k := own[k] + [id]])
  {
    var id := Last(p.freeList);
    assert id in p.freeList;
    if id in own[k] {
      OwnedIsReferenced(p, own, k, id);
    }
    GainOne(own, k, id);
    var own' := own[k := own[k] + [id]];
    var q := Pool(DropLast(p.freeList), SetRef(p.refs, id, 1));
    AllButLast(p.freeList);
    forall b: BlockId
      ensures b in q.freeList <==> b < |q.refs| && q.refs[b] == 0
    {
      assert b in q.freeList <==> b in p.freeList && b != id;
    }
    assert NoDup(own'[k]);
  }

  lemma AllButLast(s: seq<BlockId>)
    requires NoDup(s) && s != []
    ensures NoDup(DropLast(s)) && forall b :: b in DropLast(s) <==> b in s && b != Last(s)
  {
    forall b | b in s && b != Last(s)
      ensures b in DropLast(s)
    {
      var i :| 0 <= i < |s| && s[i] == b;
      assert DropLast(s)[i] == b;
    }
  }

  /** Allocation hands a table fresh blocks and keeps conservation. */
  lemma {:induction false} AllocNKeepsPool(p: Pool, own: Ownership, k: SeqId, n: nat)
    requires PoolOk(p, own) && k in own && n <= |p.freeList|
    ensures var (q, ids) := AllocN(p, n);
      && PoolOk(q, own[k := own[k] + ids])
      && |ids| == n && |q.freeList| == |p.freeList| - n && |q.refs| == |p.refs|
      && (forall b :: b in ids ==> b in p.freeList)
    decreases n
  {
    if n == 0 {
      assert own[k] + [] == own[k];
      assert own[k := own[k]] == own;
    } else {
      var id := Last(p.freeList);
      var p1 := Pool(DropLast(p.freeList), SetRef(p.refs, id, 1));
      var own1 := own[k := own[k] + [id]];
      AllocOneKeepsPool(p, own, k);
      AllocNKeepsPool(p1, own1, k, n - 1);
      var (q, ids) := AllocN(p1, n - 1);
      assert own[k] + ([id] + ids) == own1[k] + ids;
      assert own1[k := own1[k] + ids] == own[k := own[k] + ([id] + ids)];
    }
  }

  lemma {:induction false} FreeHeadKeepsPool(p: Pool, own: Ownership, k: SeqId)
    requires PoolOk(p, own) && k in own && own[k] != []
    ensures PoolOk(FreeOne(p, own[k][0]), own[k := own[k][1..]])
  {
    var id := own[k][0];
    var own' := own[k := own[k][1..]];
    OwnedIsReferenced(p, own, k, id);
    assert id !in own[k][1..];
    assert NoDup(own'[k]) && forall b :: b in own'[k] ==> b in own[k];
    assert Owners(own', id) == Owners(own, id) - {k};
    forall b: BlockId | b != id
      ensures Owners(own', b) == Owners(own, b)
    {
      assert b in own[k] ==> b in own[k][1..];
    }
    var q := FreeOne(p, id);
    assert forall b :: b in q.freeList ==> b in p.freeList || b == id;
    forall b | b in p.freeList
      ensures b in q.freeList
    {
    }
    if p.refs[id] == 1 {
      assert q.freeList[|p.freeList|] == id;
    }
  }

  /** Releasing a table drops exactly its own references. */
  lemma {:induction false} FreeKeepsPool(p: Pool, own: Ownership, k: SeqId)
    requires PoolOk(p, own) && k in own
    ensures PoolOk(Free(p, own[k]), own - {k})
    ensures |Free(p, own[k]).refs| == |p.refs|
    ensures |Free(p, own[k]).freeList| >= |p.freeList|
    decreases |own[k]|
  {
    if own[k] == [] {
      DropEmptyOwner(p, own, k);
    } else {
      FreeHeadKeepsPool(p, own, k);
      var own' := own[k := own[k][1..]];
      FreeKeepsPool(FreeOne(p, own[k][0]), own', k);
      assert own' - {k} == own - {k};
    }
  }

  lemma {:induction false} IncrefKeepsPool(p: Pool, own: Ownership, k: SeqId, id: BlockId)
    requires PoolOk(p, own) && k in own && id !in own[k]
    requires id < |p.refs| && p.refs[id] >= 1
    ensures PoolOk(Incref(p, id), own[k := own[k] + [id]])
  {
    GainOne(own, k, id);
  }

  /** Sharing: a second holder of blocks that are already referenced. No increment is
      silently skipped, so the later release of either holder is balanced. */
  lemma {:induction false} IncrefAllKeepsPool(p: Pool, own: Ownership, k: SeqId, blocks: seq<BlockId>)
    requires PoolOk(p, own) && k in own && NoDup(own[k] + blocks)
    requires forall i :: 0 <= i < |blocks| ==> blocks[i] < |p.refs| && p.refs[blocks[i]] >= 1
    ensures PoolOk(IncrefAll(p, blocks), own[k := own[k] + blocks])
    ensures IncrefAll(p, blocks).freeList == p.freeList && |IncrefAll(p, blocks).refs| == |p.refs|
    decreases |blocks|
  {
    if blocks == [] {
      assert own[k] + [] == own[k];
      assert own[k := own[k]] == own;
    } else {
      var id := blocks[0];
      var own1 := own[k := own[k] + [id]];
      assert id !in own[k] by {
        assert (own[k] + blocks)[|own[k]|] == id;
        assert forall i :: 0 <= i < |own[k]| ==> (own[k] + blocks)[i] == own[k][i];
      }
      IncrefKeepsPool(p, own, k, id);
      assert own1[k] + blocks[1..] == own[k] + blocks;
      IncrefAllKeepsPool(Incref(p, id), own1, k, blocks[1..]);
      assert own1[k := own1[k] + blocks[1..]] == own[k := own[k] + blocks];
    }
  }

  /** A table adopts a prefix of another holder's blocks. */
  lemma ShareKeepsPool(p: Pool, own: Ownership, holder: SeqId, k: SeqId, blocks: seq<BlockId>)
    requires PoolOk(p, own) && holder in own && blocks <= own[holder] && k in own && NoDup(own[k] + blocks)
    ensures PoolOk(IncrefAll(p, blocks), own[k := own[k] + blocks])
    ensures IncrefAll(p, blocks).freeList == p.freeList && |IncrefAll(p, blocks).refs| == |p.refs|
  {
    forall i | 0 <= i < |blocks|
      ensures blocks[i] < |p.refs| && p.refs[blocks[i]] >= 1
    {
      assert blocks[i] == own[holder][i];
      OwnedIsReferenced(p, own, holder, blocks[i]);
    }
    IncrefAllKeepsPool(p, own, k, blocks);
  }

  lemma NewHolderKeepsPool(p: Pool, own: Ownership, holder: SeqId, k: SeqId, blocks: seq<BlockId>)
    requires PoolOk(p, own) && holder in own && blocks <= own[holder] && k !in own
    ensures PoolOk(IncrefAll(p, blocks), own[k := blocks])
    ensures IncrefAll(p, blocks).freeList == p.freeList && |IncrefAll(p, blocks).refs| == |p.refs|
  {
    AddEmptyOwner(p, own, k);
    assert NoDup(own[holder]);
    assert [] + blocks == blocks;
    ShareKeepsPool(p, own[k := []], holder, k, blocks);
    assert own[k := []][k := blocks] == own[k := blocks];
  }

  /* ---------------- how many blocks are free ---------------- */

  ghost function Used(own: Ownership): set<BlockId> {
    set k, b | k in own && b in own[k] :: b
  }

  function Below(n: nat): (s: set<nat>)
    ensures |s| == n && forall i: nat :: i in s <==> i < n
  {
    if n == 0 then {} else Below(n - 1) + {n - 1}
  }

  lemma {:induction false} SeqAsSet<T>(s: seq<T>)
    requires NoDup(s)
    ensures |set x | x in s| == |s|
  {
    if s == [] {
    } else {
      SeqAsSet(s[1..]);
      assert (set x | x in s) == (set x | x in s[1..]) + {s[0]};
    }
  }

  lemma UsedIffReferenced(p: Pool, own: Ownership, b: BlockId)
    requires PoolOk(p, own)
    ensures b in Used(own) <==> b < |p.refs| && b !in p.freeList
  {
    if b in Used(own) {
      var k :| k in own && b in own[k];
      OwnedIsReferenced(p, own, k, b);
    }
    if b < |p.refs| && b !in p.freeList {
      assert |Owners(own, b)| != 0;
      var k :| k in Owners(own, b);
      assert k in own && b in own[k];
    }
  }

  /** Every block is either free or held by someone: nothing is lost and nothing counted twice. */
  lemma FreePlusUsed(p: Pool, own: Ownership)
    requires PoolOk(p, own)
    ensures |p.freeList| + |Used(own)| == |p.refs|
  {
    var free := set b: BlockId | b in p.freeList;
    SeqAsSet(p.freeList);
    forall b: BlockId
      ensures b in Used(own) <==> b < |p.refs| && b !in free
    {
      UsedIffReferenced(p, own, b);
    }
    assert forall b :: b in free ==> b < |p.refs|;
    CountParts(free, Used(own), |p.refs|);
  }

  lemma CountParts(free: set<nat>, used: set<nat>, n: nat)
    requires (forall b: nat :: b in used <==> b < n && b !in free) && forall b :: b in free ==> b < n
    ensures |free| + |used| == n
  {
    assert free !! used;
    assert free + used == Below(n);
  }

  /* ---------------- page tables ---------------- */

  datatype Table = Table(blocks: seq<BlockId>, tokens: nat, sharedBlocks: nat, sharedTokens: nat)

  const EMPTY_TABLE := Table([], 0, 0, 0)

  /** Grow a table to cover `n` tokens, or change nothing. */
  function EnsureCapacity(blockSize: nat, p: Pool, t: Table, n: nat): (Pool, Table, bool)
    requires blockSize > 0
  {
    var needed := BlocksFor(blockSize, n);
    if needed > |t.blocks| then
      match Allocate(p, needed - |t.blocks|)
      case None => (p, t, false)
      case Some((q, extra)) => (q, t.(blocks := t.blocks + extra, tokens := n), true)
    else (p, t.(tokens := n), true)
  }

  function AdoptSharedPrefix(p: Pool, t: Table, blocks: seq<BlockId>, n: nat): (Pool, Table) {
    (IncrefAll(p, blocks),
     Table(t.blocks + blocks, if t.tokens < n then n else t.tokens, |blocks|, n))
  }

  /** Growth succeeds exactly when the shortfall is free; either way conservation holds and
      the blocks already held stay a prefix of the table. */
  lemma EnsureCapacityKeepsPool(blockSize: nat, p: Pool, own: Ownership, k: SeqId, t: Table, n: nat)
    requires blockSize > 0 && PoolOk(p, own) && k in own && own[k] == t.blocks
    ensures var (q, u, ok) := EnsureCapacity(blockSize, p, t, n);
      && PoolOk(q, own[k := u.blocks]) && |q.refs| == |p.refs|
      && t.blocks <= u.blocks && (forall b :: b in u.blocks ==> b in t.blocks || b in p.freeList)
      && (ok <==> BlocksFor(blockSize, n) <= |t.blocks| + |p.freeList|)
      && (ok ==> BlocksFor(blockSize, n) <= |u.blocks| && u.tokens == n)
      && (!ok ==> q == p && u == t)
      && |q.freeList| + |u.blocks| == |p.freeList| + |t.blocks|
      && |u.blocks| == (if ok && BlocksFor(blockSize, n) > |t.blocks| then BlocksFor(blockSize, n) else |t.blocks|)
  {
    var needed := BlocksFor(blockSize, n);
    if needed > |t.blocks| && needed - |t.blocks| <= |p.freeList| {
      AllocNKeepsPool(p, own, k, needed - |t.blocks|);
    } else {
      assert own[k := t.blocks] == own;
    }
  }
}
