/**
 `SampleAllocator`: a caching allocator over an underlying allocator. Its
 visible contract is the byte report derived from its running totals, the
 constant thread-safety report, the two ordered block sets and `Release`,
 which flushes the cache before delegating.
 */
module SampleAllocation {
  import opened Platform
  import opened Allocation
  import opened BlockSets

  /** The running totals: bytes in cached blocks, bytes in live blocks, and
      bytes actually used by live blocks. */
  datatype TotalBytes = TotalBytes(free: u64, live: u64, used: u64)

  datatype SampleAllocator<S> = SampleAllocator(
    allocator: S,
    binGrowth: u32,
    minBin: u32,
    minBinBytes: u64,
    maxBinBytes: u64,
    cachedBytes: TotalBytes,
    cachedBlocks: seq<BlockDescriptor>,  // ordered by size
    liveBlocks: seq<BlockDescriptor>     // ordered by pointer
  )

  /** The running totals agree with the blocks they summarise. */
  predicate Accounted<S>(a: SampleAllocator<S>) {
    && a.cachedBytes.free == SumBytes(a.cachedBlocks)
    && a.cachedBytes.live == SumBytes(a.liveBlocks)
    && a.cachedBytes.used == SumUsed(a.liveBlocks)
  }

  /** The allocator's invariant: both sets ordered by their comparator,
      every block well formed, no pointer both cached and live, and the
      totals accounted. */
  predicate Valid<S>(a: SampleAllocator<S>) {
    && Ordered(BySize, a.cachedBlocks)
    && Ordered(ByPtr, a.liveBlocks)
    && (forall i :: 0 <= i < |a.cachedBlocks| ==> WellFormedBlock(a.cachedBlocks[i]))
    && (forall i :: 0 <= i < |a.liveBlocks| ==> WellFormedBlock(a.liveBlocks[i]))
    && (forall i, j :: 0 <= i < |a.cachedBlocks| && 0 <= j < |a.liveBlocks| ==>
          a.cachedBlocks[i].dPtr != a.liveBlocks[j].dPtr)
    && Accounted(a)
  }

  /** Every sample allocator reports itself thread-safe. */
  function IsAllocThreadSafe<S>(a: SampleAllocator<S>): (safe: bool)
    ensures safe
  {
    true
  }

  /** `GetTotalMemInfo`: total is live plus free (a `size_t` sum), available
      is free, and the result is the used total. */
  function GetTotalMemInfo<S>(a: SampleAllocator<S>): (m: MemInfo)
    ensures m.available == a.cachedBytes.free
    ensures m.used == a.cachedBytes.used
    ensures a.cachedBytes.live + a.cachedBytes.free < TwoTo64 ==>
              m.total == a.cachedBytes.live + a.cachedBytes.free && m.available <= m.total
  {
    MemInfo(a.cachedBytes.used, Wrap64(a.cachedBytes.live + a.cachedBytes.free), a.cachedBytes.free)
  }

  /** On a valid allocator the report describes the blocks themselves: total
      is every block's size, available is the cached blocks' size, and the
      used figure never exceeds the total. */
  lemma MemInfoDescribesBlocks<S>(a: SampleAllocator<S>)
    requires Valid(a)
    requires a.cachedBytes.live + a.cachedBytes.free < TwoTo64
    ensures GetTotalMemInfo(a).total == SumBytes(a.liveBlocks) + SumBytes(a.cachedBlocks)
    ensures GetTotalMemInfo(a).available == SumBytes(a.cachedBlocks)
    ensures GetTotalMemInfo(a).used <= GetTotalMemInfo(a).total
  {
    SumUsedAtMostSumBytes(a.liveBlocks);
  }

  /** Inserting into the cached set (`cached_blocks_.insert`). */
  function InsertCached<S>(a: SampleAllocator<S>, b: BlockDescriptor): (r: SampleAllocator<S>)
    ensures multiset(r.cachedBlocks) == multiset(a.cachedBlocks) + multiset{b}
    ensures Ordered(BySize, a.cachedBlocks) ==> Ordered(BySize, r.cachedBlocks)
    ensures r.liveBlocks == a.liveBlocks && r.cachedBytes == a.cachedBytes
    ensures r.allocator == a.allocator
  {
    a.(cachedBlocks := Insert(BySize, a.cachedBlocks, b))
  }

  /** A block inserted into the cached set stays accounted for exactly when
      the free total grows by its size. */
  lemma InsertCachedAccounting<S>(a: SampleAllocator<S>, b: BlockDescriptor)
    requires Accounted(a)
    requires a.cachedBytes.free + b.bytes < TwoTo64
    ensures var r := InsertCached(a, b);
            Accounted(r.(cachedBytes := a.cachedBytes.(free := a.cachedBytes.free + b.bytes)))
    ensures forall t: TotalBytes :: Accounted(InsertCached(a, b).(cachedBytes := t)) ==>
              t == a.cachedBytes.(free := a.cachedBytes.free + b.bytes)
  {
    SumBytesInsert(BySize, a.cachedBlocks, b);
  }

  /** Inserting into the live set (`live_blocks_.insert`). */
  function InsertLive<S>(a: SampleAllocator<S>, b: BlockDescriptor): (r: SampleAllocator<S>)
    ensures multiset(r.liveBlocks) == multiset(a.liveBlocks) + multiset{b}
    ensures Ordered(ByPtr, a.liveBlocks) ==> Ordered(ByPtr, r.liveBlocks)
    ensures r.cachedBlocks == a.cachedBlocks && r.cachedBytes == a.cachedBytes
    ensures r.allocator == a.allocator
  {
    a.(liveBlocks := Insert(ByPtr, a.liveBlocks, b))
  }

  /** The underlying allocator after each block has been handed back to it,
      in set order. */
  function ReturnAll<S>(free: (S, Ptr) -> S, u: S, blocks: seq<BlockDescriptor>): (r: S)
    decreases |blocks|
  {
    if blocks == [] then u else ReturnAll(free, free(u, blocks[0].dPtr), blocks[1..])
  }

  /** `FreeAllCache`: walks the cached set in size order, hands each block
      back to the underlying allocator and deducts its size from the free
      total, then empties the set. */
  method FreeAllCache<S>(base: Allocator<S>, a: SampleAllocator<S>) returns (d: SampleAllocator<S>)
    ensures d.cachedBlocks == [] && d.liveBlocks == a.liveBlocks
    ensures d.allocator == ReturnAll(base.free, a.allocator, a.cachedBlocks)
    ensures d.cachedBytes.live == a.cachedBytes.live && d.cachedBytes.used == a.cachedBytes.used
    ensures d.cachedBytes.free == Wrap64(a.cachedBytes.free - SumBytes(a.cachedBlocks))
    ensures Accounted(a) ==> Accounted(d) && d.cachedBytes.free == 0
    ensures Valid(a) ==> Valid(d)
    ensures d == a.(allocator := d.allocator, cachedBytes := d.cachedBytes, cachedBlocks := [])
  {
    d := a;
    var i := 0;
    while i < |a.cachedBlocks|
      invariant 0 <= i <= |a.cachedBlocks|
      invariant d == a.(allocator := d.allocator, cachedBytes := d.cachedBytes)
      invariant ReturnAll(base.free, d.allocator, a.cachedBlocks[i..])
                == ReturnAll(base.free, a.allocator, a.cachedBlocks)
      invariant d.cachedBytes.live == a.cachedBytes.live && d.cachedBytes.used == a.cachedBytes.used
      invariant d.cachedBytes.free == Wrap64(a.cachedBytes.free - SumBytes(a.cachedBlocks[..i]))
    {
      var b := a.cachedBlocks[i];
      assert a.cachedBlocks[i..][1..] == a.cachedBlocks[i + 1..];
      assert a.cachedBlocks[..i + 1][..i] == a.cachedBlocks[..i];
      WrapSubtract(a.cachedBytes.free - SumBytes(a.cachedBlocks[..i]), b.bytes);
      d := d.(allocator := base.free(d.allocator, b.dPtr),
              cachedBytes := d.cachedBytes.(free := Wrap64(d.cachedBytes.free - b.bytes)));
      i := i + 1;
    }
    assert a.cachedBlocks[..i] == a.cachedBlocks;
    d := d.(cachedBlocks := []);
  }

  /** Subtracting after a wrap-around is the same as wrapping once at the end. */
  lemma WrapSubtract(x: int, y: int)
    ensures Wrap64(Wrap64(x) - y) == Wrap64(x - y)
  {
  }

  /** `ReleaseImpl`: flush the cache, then return what the underlying
      allocator's `Release` returns. */
  method ReleaseImpl<S>(base: Allocator<S>, a: SampleAllocator<S>, place: Place)
    returns (d: SampleAllocator<S>, released: u64)
    ensures released == base.release(ReturnAll(base.free, a.allocator, a.cachedBlocks), place).1
    ensures d.allocator == base.release(ReturnAll(base.free, a.allocator, a.cachedBlocks), place).0
    ensures d.cachedBlocks == [] && d.liveBlocks == a.liveBlocks
    ensures d.cachedBytes == a.cachedBytes.(free := Wrap64(a.cachedBytes.free - SumBytes(a.cachedBlocks)))
    ensures d == a.(allocator := d.allocator, cachedBytes := d.cachedBytes, cachedBlocks := [])
    ensures Accounted(a) ==> GetTotalMemInfo(d).available == 0
    ensures Valid(a) ==> Valid(d)
  {
    var flushed := FreeAllCache(base, a);
    var (u, n) := base.release(flushed.allocator, place);
    d := flushed.(allocator := u);
    released := n;
  }
}
