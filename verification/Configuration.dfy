/** What the scheduler's constructor makes of its configuration
    (src/core/scheduler.cpp:87-137). */
module Configuration {
  import opened BlockPool
  import opened Scheduling

  datatype Caps = Caps(nCtx: nat, nBatch: nat, nSeqMax: nat, nCtxSeq: nat)

  datatype Requested = Requested(
    maxBatch: nat, kvBlocks: nat, blockSize: nat, prefixDonors: nat, prefixCaching: bool, prefillChunk: nat)

  function BatchSize(r: Requested, caps: Caps): nat {
    if caps.nSeqMax > 0 && r.maxBatch > caps.nSeqMax then caps.nSeqMax else r.maxBatch
  }

  function BlockSize(r: Requested): (n: nat)
    ensures n > 0
  {
    if r.blockSize == 0 then 16 else r.blockSize
  }

  function Cells(caps: Caps): nat {
    if caps.nCtx > 0 then caps.nCtx else 4096
  }

  /** The default pool covers the context; the sum is a 32-bit one. */
  function PoolSize(r: Requested, caps: Caps): nat {
    if r.kvBlocks == 0 then ((Cells(caps) + BlockSize(r) - 1) % U32) / BlockSize(r) else r.kvBlocks
  }

  function Room(r: Requested, caps: Caps): nat {
    var batch := BatchSize(r, caps) % U32;
    if caps.nSeqMax > batch then caps.nSeqMax - batch else 0
  }

  function DonorCount(r: Requested, caps: Caps): nat {
    if !r.prefixCaching then 0 else if r.prefixDonors > Room(r, caps) then Room(r, caps) else r.prefixDonors
  }

  /** Donor ids start at the batch size as it was before a batch size of 0 became 1. */
  function FirstDonor(r: Requested, caps: Caps): nat {
    BatchSize(r, caps)
  }

  function Configure(r: Requested, caps: Caps, capacity: nat): Config
    requires caps.nBatch > 0
  {
    Config(if BatchSize(r, caps) == 0 then 1 else BatchSize(r, caps), caps.nBatch, r.prefillChunk, BlockSize(r),
           PoolSize(r, caps), DonorCount(r, caps), r.prefixCaching, caps.nCtxSeq, capacity)
  }

  /** The constructor's clamps, in its own order. */
  method Clamp(r: Requested, caps: Caps, capacity: nat) returns (cfg: Config, first: nat)
    requires caps.nBatch > 0
    ensures cfg == Configure(r, caps, capacity) && first == FirstDonor(r, caps)
  {
    var batch := r.maxBatch;
    if caps.nSeqMax > 0 && batch > caps.nSeqMax {
      batch := caps.nSeqMax;
    }
    var blockSize := if r.blockSize == 0 then 16 else r.blockSize;
    var total := r.kvBlocks;
    if total == 0 {
      var cells := if caps.nCtx > 0 then caps.nCtx else 4096;
      total := (cells + blockSize - 1) % U32 / blockSize;
    }
    var donors := if r.prefixCaching then r.prefixDonors else 0;
    if donors > 0 {
      var room := if caps.nSeqMax > batch % U32 then caps.nSeqMax - batch % U32 else 0;
      if donors > room {
        donors := room;
      }
    }
    first := batch;
    if batch == 0 {
      batch := 1;
    }
    cfg := Config(batch, caps.nBatch, r.prefillChunk, blockSize, total, donors, r.prefixCaching, caps.nCtxSeq, capacity);
  }

  predicate IsDonorId(r: Requested, caps: Caps, k: nat) {
    FirstDonor(r, caps) <= k < FirstDonor(r, caps) + DonorCount(r, caps)
  }

  /** With an engine that reports a limit, every id the scheduler can use is one the engine
      can address. With one that reports none there are no donors. */
  lemma IdsAreAddressable(r: Requested, caps: Caps, capacity: nat, k: nat)
    requires caps.nBatch > 0 && caps.nSeqMax < U32
    requires k < Configure(r, caps, capacity).maxBatch || IsDonorId(r, caps, k)
    ensures caps.nSeqMax > 0 ==> k < caps.nSeqMax
    ensures caps.nSeqMax == 0 ==> !IsDonorId(r, caps, k)
  {
    if caps.nSeqMax > 0 {
      assert BatchSize(r, caps) <= caps.nSeqMax;
      assert BatchSize(r, caps) % U32 == BatchSize(r, caps);
    }
  }

  /** Donor ids collide with a batch slot if and only if a batch size of 0 was asked for and
      donors are left after clamping; then id 0 is both. */
  lemma DonorsAreApart(r: Requested, caps: Caps, capacity: nat)
    requires caps.nBatch > 0
    ensures (forall k: nat :: k < Configure(r, caps, capacity).maxBatch ==> !IsDonorId(r, caps, k))
      <==> r.maxBatch > 0 || DonorCount(r, caps) == 0
  {
    if r.maxBatch == 0 && DonorCount(r, caps) > 0 {
      assert IsDonorId(r, caps, 0);
    }
  }

  lemma BatchSizeZeroCollides()
    ensures var r := Requested(0, 0, 16, 4, true, 128);
      var caps := Caps(4096, 512, 16, 4096);
      Configure(r, caps, 64).maxBatch == 1 && IsDonorId(r, caps, 0)
  {
  }

  /** The default pool is the fewest blocks that cover the context, if and only if adding
      the block size to the context does not wrap. */
  lemma DefaultPoolCoversContext(r: Requested, caps: Caps)
    requires r.kvBlocks == 0 && caps.nCtx < U32 && r.blockSize < U32
    ensures Cells(caps) <= PoolSize(r, caps) * BlockSize(r) <==> Cells(caps) + BlockSize(r) - 1 < U32
    ensures Cells(caps) + BlockSize(r) - 1 < U32 ==> PoolSize(r, caps) == BlocksFor(BlockSize(r), Cells(caps))
  {
    var cells, bs := Cells(caps), BlockSize(r);
    if cells + bs - 1 < U32 {
      BlocksForIsCeiling(bs, cells);
    } else {
      var wrapped := cells + bs - 1 - U32;
      assert wrapped < U32 && (cells + bs - 1) % U32 == wrapped;
      Floor(wrapped, bs);
      assert wrapped / bs * bs <= wrapped < cells;
    }
  }

  lemma Floor(n: nat, d: nat)
    requires d > 0
    ensures n / d * d <= n
  {
  }
}
