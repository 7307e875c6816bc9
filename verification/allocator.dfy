/**
 The allocator interface the decorators wrap. The underlying allocator's
 code is not part of this model: its state is an abstract `S`, and each
 operation the decorators call on it is a function supplied with it.
 */
module Allocation {
  import opened Platform

  /** The address of a `phi::Allocation`. */
  type Ptr = nat

  /** The three numbers `GetTotalMemInfo` reports: the returned "real used"
      byte count and the `total` and `available` out-parameters. */
  datatype MemInfo = MemInfo(used: u64, total: u64, available: u64)

  /** The operations of an allocator over state `S` that the decorators use. */
  datatype Allocator<!S> = Allocator(
    isAllocThreadSafe: S -> bool,
    getTotalMemInfo: S -> MemInfo,
    free: (S, Ptr) -> S,                 // `Free` of one allocation
    release: (S, Place) -> (S, u64)      // `Release(place)`: bytes handed back
  )
}
