# Eager-deletion garbage collectors and allocator decorators, in Dafny

This project models two small decision layers of a tensor runtime's memory
reclamation subsystem.

**Garbage collectors.** A collector defers the freeing of intermediate
tensors. When it is built, the base constructor clamps the batching threshold
to at least one byte. It allocates a mutex only in batching mode, that is,
when the threshold is above one. Each concrete collector class binds
`ClearCallback` to one of three policies:

- run the freeing closure inline;
- queue it on the device context's stream;
- queue it on the collector's own stream callback manager.

`Wait` drains whichever queue the collector uses. `CreateGarbageCollector`
picks a variant from three inputs: the place kind, the backends compiled into
the build, and the fast-eager-deletion flag. If the backend is not compiled
in, it fails with `Unimplemented`. If no branch matches the place, it returns
null. The process-wide eager-deletion flags sit beside it, with their setter
and getters.

**Allocator decorators.**

- `RetryAllocator` wraps a non-null, thread-safe allocator. It always reports
  itself thread-safe. It passes `GetTotalMemInfo` and `Release` straight
  through to the wrapped allocator.
- `SampleAllocator` is a caching allocator. It keeps cached blocks ordered by
  size and live blocks ordered by pointer. It derives `GetTotalMemInfo` from
  its running byte totals. Its `Release` flushes the cache to the underlying
  allocator and then delegates.

Files and modules:

- `platform.dfy` (`Platform`): `size_t` as `u64`, places, the build
  configuration (one boolean per `#ifdef`), error kinds, `Option`/`Result`.
- `garbage_collector.dfy` (`GarbageCollection`): variants, policies, the
  collector value with its pending FIFO and its log of closures that have
  run, `ClearCallback`, `Wait`, the configuration flags and the factory.
- `allocator.dfy` (`Allocation`): the interface of an underlying allocator
  over an abstract state `S`, given as function values.
- `retry_allocator.dfy` (`RetryAllocation`): the retry decorator.
- `block_sets.dfy` (`BlockSets`): block descriptors, the two comparators,
  multiset insertion and byte sums.
- `sample_allocator.dfy` (`SampleAllocation`): the caching allocator's
  totals, report, set insertions, cache flush and release.

Conventions:

- Closures are represented by identifiers.
- A collector records the closures that have run, in the order they ran.
- A stream queue is a FIFO of closures handed to the device's callback
  thread and not run yet. That thread may run the oldest one at any time
  after earlier stream work finishes (`DeviceRunsNext`); `Wait` blocks until
  it has run all of them.
- The device context, streams and callback managers are represented only by
  that FIFO.
- The underlying allocator's operations are parameters.

## Model

| member | source | states |
|---|---|---|
| `GarbageCollection.NewCollector` | paddle/fluid/framework/garbage_collector.cc:30-38 | the stored threshold is at least 1, equals the requested size when that is positive and is 1 when it is 0; a mutex exists exactly when the requested size is above 1; the queue and log start empty |
| `GarbageCollection.ClearCallback` | paddle/fluid/framework/garbage_collector.cc:44-253 | inline variants (CPU, XPU, IPU, unsafe-fast GPU/NPU/MLU/custom, CUDA-pinned) have run the closure once before returning and queue nothing; the stream variants run nothing and append the closure to their FIFO; every closure handed over is counted exactly once across the log and the queue |
| `GarbageCollection.DeviceRunsNext` | paddle/fluid/framework/garbage_collector.cc:84-87 | the callback thread, on its own, runs the oldest queued closure exactly once and removes it from the queue; nothing is lost or duplicated |
| `GarbageCollection.Wait` | paddle/fluid/framework/garbage_collector.cc:80-248 | a stream variant's `Wait` empties its FIFO and runs every queued closure once, in queue order; an inline variant's `Wait` changes nothing |
| `GarbageCollection.ClearAllThenWait` | paddle/fluid/framework/garbage_collector.cc:111-116 | after any number of `ClearCallback` calls followed by `Wait`, every closure handed over has run exactly once, in hand-over order, whatever the variant |
| `GarbageCollection.ClearWithDeviceProgressThenWait` | paddle/fluid/framework/garbage_collector.cc:80-87 | however far the callback thread gets on its own between hand-overs, after `Wait` every closure has run exactly once, in hand-over order |
| `GarbageCollection.GetEagerDeletionThreshold` | paddle/fluid/framework/garbage_collector.cc:256-261 | the threshold is -1 exactly when the gigabyte flag is negative; otherwise it is the non-negative flag times 2^30 truncated to an integer |
| `GarbageCollection.IsFastEagerDeletionModeEnabled` | paddle/fluid/framework/garbage_collector.cc:263 | reports the fast-eager-deletion flag; after `SetEagerDeletionMode` it is the fast mode passed there |
| `GarbageCollection.GetEagerDeletionMemoryFraction` | paddle/fluid/framework/garbage_collector.cc:271-273 | reports the memory-fraction flag; after `SetEagerDeletionMode` it is the fraction passed there |
| `GarbageCollection.SetEagerDeletionMode` | paddle/fluid/framework/garbage_collector.cc:263-273 | after the setter, the fast-mode getter returns the fast flag, the fraction getter returns the fraction, and the threshold getter returns -1 exactly when the threshold set was negative and a non-negative value otherwise |
| `GarbageCollection.CreateGarbageCollector` | paddle/fluid/framework/garbage_collector.cc:275-349 | null exactly for places without a branch; failure, always `Unimplemented`, exactly when the backend is not compiled in or an NPU place is asked for without fast mode; otherwise a freshly constructed collector for that place's kind, compiled into the build, never one owning a callback manager, and unsafe-fast exactly when fast mode is on for GPU/NPU/MLU/custom places |
| `GarbageCollection.FactoryChoiceIsUnique` | paddle/fluid/framework/garbage_collector.cc:278-347 | the factory contract's conditions (place kind, fast-mode match, no own callback manager, not the disabled NPU default-stream variant) leave room for one variant only, so the factory's choice is fully determined |
| `GarbageCollection.NpuDefaultStreamNeverCreated` | paddle/fluid/framework/garbage_collector.cc:305-317 | no build and no mode makes the factory return the NPU default-stream collector |
| `GarbageCollection.GpuFactoryFollowsSetter` | paddle/fluid/framework/garbage_collector.cc:278-284 | with fast mode set through the setter, a GPU place in a CUDA/HIP build gets the inline unsafe-fast collector; without it, it gets the device-context-queue default-stream collector |
| `RetryAllocation.NewRetryAllocator` | paddle/fluid/memory/allocation/retry_allocator.h:34-45 | a null underlying allocator fails with `InvalidArgument`; a non-null one that is not thread-safe fails with `PreconditionNotMet`; construction succeeds exactly otherwise and keeps the allocator given; the `size_t` timeout is kept when below 2^63 and becomes negative when narrowed from 2^63 or more |
| `RetryAllocation.IsAllocThreadSafe` | paddle/fluid/memory/allocation/retry_allocator.h:47 | a retry allocator always reports thread safety |
| `RetryAllocation.GetTotalMemInfo` | paddle/fluid/memory/allocation/retry_allocator.h:49-51 | reports exactly the underlying allocator's used/total/available figures |
| `RetryAllocation.ReleaseImpl` | paddle/fluid/memory/allocation/retry_allocator.h:56-58 | returns exactly the underlying allocator's released byte count and leaves the timeout unchanged |
| `RetryAllocation.WrappingTwiceIsTransparent` | paddle/fluid/memory/allocation/retry_allocator.h:47-58 | a retry allocator passes the constructor checks of another retry allocator, and the outer one releases exactly what the innermost allocator releases and, with `GetTotalMemInfo` dispatched to the wrapped decorator, reports exactly its figures |
| `BlockSets.UpperBound` | paddle/fluid/memory/allocation/retry_allocator.h:80-88 | on an ordered set, the insertion point has only keys not above the new block's key before it and only greater keys after it |
| `BlockSets.Insert` | paddle/fluid/memory/allocation/retry_allocator.h:80-88 | insertion under a comparator adds exactly the new block, keeps the set ordered and places the block after all blocks with an equal key |
| `BlockSets.SumBytesInsert` | paddle/fluid/memory/allocation/retry_allocator.h:125-129 | inserting a block into either set raises that set's byte total by exactly the block's size |
| `BlockSets.SumUsedAtMostSumBytes` | paddle/fluid/memory/allocation/retry_allocator.h:72-76 | when every block uses at most its size, the used bytes of a set never exceed its total bytes |
| `SampleAllocation.IsAllocThreadSafe` | paddle/fluid/memory/allocation/retry_allocator.h:98 | a sample allocator always reports thread safety |
| `SampleAllocation.GetTotalMemInfo` | paddle/fluid/memory/allocation/retry_allocator.h:101-105 | available is the free total and the result is the used total; when live plus free fits in `size_t`, total is their sum and available never exceeds total |
| `SampleAllocation.MemInfoDescribesBlocks` | paddle/fluid/memory/allocation/retry_allocator.h:101-105 | on a valid allocator whose live plus free total fits in `size_t`, total is the size of every block, available is the size of the cached blocks, and used never exceeds total |
| `SampleAllocation.InsertCached` | paddle/fluid/memory/allocation/retry_allocator.h:127-128 | inserting into the cached set adds exactly that block, keeps the set ordered by size and leaves the live set untouched |
| `SampleAllocation.InsertCachedAccounting` | paddle/fluid/memory/allocation/retry_allocator.h:125-128 | after a block is inserted into the cached set, the totals are accounted exactly when they are the old totals with the free total grown by the block's size |
| `SampleAllocation.InsertLive` | paddle/fluid/memory/allocation/retry_allocator.h:129 | inserting into the live set adds exactly that block, keeps the set ordered by pointer and leaves the cached set untouched |
| `SampleAllocation.FreeAllCache` | paddle/fluid/memory/allocation/retry_allocator.h:114 | every cached block is handed back to the underlying allocator in size order, the cached set ends empty, the live set, the live/used totals and the bin configuration are untouched, and the free total falls by the cached bytes (to 0 when the totals were accounted) |
| `SampleAllocation.ReleaseImpl` | paddle/fluid/memory/allocation/retry_allocator.h:110-113 | the underlying allocator's `Release` is called on its state after every cached block was handed back, and its byte count is returned unchanged; afterwards the cache is empty, the free total has fallen by the cached bytes with `size_t` wrap-around, the live and used totals, the live set and the bin configuration are unchanged, and an accounted allocator reports nothing available |

## Left out

- `GarbageCollector::Add` and its batching: its body is in `garbage_collector.h`, which is not part of this model.
- The device context pool lookup, stream creation and destruction (`cudaStreamCreate`, `hipStreamCreate`, `cnrtQueue*`, `phi::stream::Stream`), device guards and the `stream()` accessors: these are foreign device calls. Each stream queue is represented only by the collector's pending FIFO. In particular, the default-stream variants' queue is really the device context's queue and is shared with other users of that context; the model gives it to the collector alone.
- `GarbageCollection.Wait`: the base-class `Wait` of the inline variants is declared in `garbage_collector.h`, which is not part of this model; it is modelled as doing nothing.
- `GarbageCollection.ClearCallback`: in a HIP build the `StreamGarbageCollector` constructor creates no callback manager. The model gives every own-stream collector a queue, as the CUDA branch does. The factory never builds that class, so its results are unaffected.
- `GarbageCollection.GetEagerDeletionThreshold`: the `double` flags are modelled as exact reals. Rounding, NaN and the undefined conversion of a product beyond the `int64_t` range are not modelled.
- Mutex locking, the condition variable and the atomic waiting-size counter of `RetryAllocator`: they serve concurrency only. The model records only whether the collector's mutex exists.
- `RetryAllocation.WrappingTwiceIsTransparent`: its memory-report part assumes that `GetTotalMemInfo`, called through a `shared_ptr<Allocator>`, reaches the wrapped decorator's own method. The method is declared without `override`, and the base `Allocator` class is declared in `allocator.h`, which is not part of this model, so nothing in the model makes the call virtual.
- `RetryAllocator::AllocateImpl` and `FreeImpl`: their timed retry bodies are in `retry_allocator.cc`, which is not part of this model.
- `SampleAllocator`'s constructor, `AllocateImpl`, `FreeImpl`, `GetMemInfo`, the bin computation and the `BlockDescriptor` constructors and comparators: their bodies are in `retry_allocator.cc`. The comparators are modelled as ascending byte count and ascending pointer, after the set comments.
- `SampleAllocation.FreeAllCache`: its body is in `retry_allocator.cc`, which is not part of this model. It is modelled as a walk over the cached set in size order that frees each block through the underlying allocator, subtracts its size from `cached_bytes_.free` with `size_t` wrap-around, and clears the set.
- `SampleAllocation.Valid`: the code that keeps `cached_bytes_` up to date is in `retry_allocator.cc`, which is not part of this model. The model assumes the reading the field names and comments suggest: `free` is the byte sum of the cached set, `live` the byte sum of the live set, and `used` the used-byte sum of the live set.
- `VLOG` logging.
