/** The block allocator and the page table as the objects they are
    (src/core/block_allocator.cpp:8-65, 178-211), each operation proved against its function
    on values in `BlockPool`. */
module Allocator {
  import opened Types
  import opened BlockPool

  class BlockAllocator {
    const total: nat
    const blockSize: nat
    const refcounts: array<nat>
    var freeList: seq<BlockId>

    ghost predicate Valid()
      reads this
    {
      blockSize > 0 && refcounts.Length == total && forall b :: b in freeList ==> b < total
    }

    ghost function View(): Pool
      reads this, refcounts
    {
      Pool(freeList, refcounts[..])
    }

    constructor (totalBlocks: nat, size: nat)
      ensures Valid() && fresh(refcounts) && total == totalBlocks && blockSize == (if size == 0 then 1 else size)
      ensures View() == NewPool(totalBlocks)
    {
      total := totalBlocks;
      blockSize := if size == 0 then 1 else size;
      refcounts := new nat[totalBlocks](i => 0);
      freeList := [];
      new;
      var i := totalBlocks;
      while i > 0
        invariant 0 <= i <= totalBlocks
        invariant freeList == NewPool(totalBlocks).freeList[..totalBlocks - i]
        invariant refcounts[..] == seq(totalBlocks, j => 0)
      {
        freeList := freeList + [i - 1];
        i := i - 1;
      }
    }

    function FreeBlocks(): nat
      reads this
    {
      |freeList|
    }

    /** All or nothing, lowest id first after construction. */
    method Allocate(n: nat) returns (r: Option<seq<BlockId>>)
      requires Valid()
      modifies this, refcounts
      ensures Valid()
      ensures match BlockPool.Allocate(old(View()), n)
        case None => r.None? && View() == old(View())
        case Some((q, ids)) => r == Some(ids) && View() == q
    {
      if n > FreeBlocks() {
        return None;
      }
      var out := [];
      var i := 0;
      ghost var (q, ids) := AllocN(View(), n);
      while i < n
        invariant i <= n && Valid() && n - i <= |freeList|
        invariant AllocN(View(), n - i).0 == q && out + AllocN(View(), n - i).1 == ids
      {
        ghost var before := View();
        var id := freeList[|freeList| - 1];
        assert id in freeList;
        ghost var rest := AllocN(before, n - i).1;
        freeList := freeList[..|freeList| - 1];
        assert forall b :: b in freeList ==> b in before.freeList;
        refcounts[id] := 1;
        assert View() == Pool(DropLast(before.freeList), SetRef(before.refs, id, 1));
        assert rest == [id] + AllocN(View(), n - i - 1).1;
        assert out + rest == (out + [id]) + AllocN(View(), n - i - 1).1;
        out := out + [id];
        i := i + 1;
      }
      assert AllocN(View(), n - i) == (View(), []);
      assert out == ids;
      r := Some(out);
    }

    /** Refcount-aware; a double free or an id out of range is ignored. */
    method Free(blocks: seq<BlockId>)
      requires Valid()
      modifies this, refcounts
      ensures Valid() && View() == BlockPool.Free(old(View()), blocks)
    {
      var i := 0;
      while i < |blocks|
        invariant i <= |blocks| && Valid()
        invariant BlockPool.Free(View(), blocks[i..]) == BlockPool.Free(old(View()), blocks)
      {
        ghost var before := View();
        var id := blocks[i];
        if id < total && refcounts[id] != 0 {
          refcounts[id] := refcounts[id] - 1;
          if refcounts[id] == 0 {
            freeList := freeList + [id];
          }
        }
        assert View() == FreeOne(before, id);
        assert blocks[i..][1..] == blocks[i + 1..];
        i := i + 1;
      }
    }

    method Incref(id: BlockId)
      requires Valid()
      modifies refcounts
      ensures Valid() && View() == BlockPool.Incref(old(View()), id)
    {
      if id < total && refcounts[id] > 0 {
        refcounts[id] := refcounts[id] + 1;
      }
    }
  }

  /** One sequence's page table over a shared allocator. */
  class BlockTable {
    const allocator: BlockAllocator
    var blocks: seq<BlockId>
    var tokens: nat
    var sharedBlocks: nat
    var sharedTokens: nat

    ghost function View(): Table
      reads this
    {
      Table(blocks, tokens, sharedBlocks, sharedTokens)
    }

    constructor (a: BlockAllocator)
      ensures allocator == a && View() == EMPTY_TABLE
    {
      allocator := a;
      blocks, tokens, sharedBlocks, sharedTokens := [], 0, 0, 0;
    }

    /** Grow to cover `n` tokens, asking only for the shortfall. */
    method EnsureCapacity(n: nat) returns (ok: bool)
      requires allocator.Valid()
      modifies this, allocator, allocator.refcounts
      ensures allocator.Valid()
      ensures (allocator.View(), View(), ok) == BlockPool.EnsureCapacity(allocator.blockSize, old(allocator.View()), old(View()), n)
    {
      var needed := BlocksFor(allocator.blockSize, n);
      if needed > |blocks| {
        var extra := allocator.Allocate(needed - |blocks|);
        if extra.None? {
          return false;
        }
        blocks := blocks + extra.value;
      }
      tokens := n;
      ok := true;
    }

    method AdoptSharedPrefix(shared: seq<BlockId>, n: nat)
      requires allocator.Valid()
      modifies this, allocator.refcounts
      ensures allocator.Valid()
      ensures (allocator.View(), View()) == BlockPool.AdoptSharedPrefix(old(allocator.View()), old(View()), shared, n)
    {
      var i := 0;
      while i < |shared|
        invariant i <= |shared| && allocator.Valid() && blocks == old(blocks) + shared[..i]
        invariant IncrefAll(allocator.View(), shared[i..]) == IncrefAll(old(allocator.View()), shared)
        invariant tokens == old(tokens)
      {
        allocator.Incref(shared[i]);
        assert shared[i..][1..] == shared[i + 1..];
        blocks := blocks + [shared[i]];
        i := i + 1;
      }
      assert shared[..i] == shared && shared[i..] == [];
      sharedBlocks := |shared|;
      sharedTokens := n;
      tokens := if tokens < n then n else tokens;
    }

    /** Drops this sequence's references only: a shared block stays with its other holders. */
    method Release()
      requires allocator.Valid()
      modifies this, allocator, allocator.refcounts
      ensures allocator.Valid() && View() == EMPTY_TABLE
      ensures allocator.View() == BlockPool.Free(old(allocator.View()), old(blocks))
    {
      allocator.Free(blocks);
      blocks, tokens, sharedBlocks, sharedTokens := [], 0, 0, 0;
    }
  }
}
